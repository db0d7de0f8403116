/**
 Decimal printing into small static buffers, filled backwards.
 */
module Decimal {
  import opened Bytes
  import opened CString

  // ---------- C's division ----------

  /** Division truncating towards zero. */
  function CDiv(a: int, b: int): int
    requires b > 0
  {
    if a >= 0 then a / b else -(-a / b)
  }

  /** The remainder that goes with it: negative for a negative dividend. */
  function CMod(a: int, b: int): int
    requires b > 0
  {
    a - b * CDiv(a, b)
  }

  // ---------- numerals ----------

  /** Most significant digit first. */
  function Digits(n: nat): (r: seq<Byte>)
    ensures |r| >= 1
  {
    if n < 10 then [48 + n] else Digits(n / 10) + [48 + n % 10]
  }

  /** What is still to be written above the digits already stored. */
  function Lead(n: nat): seq<Byte> { if n == 0 then [] else Digits(n) }

  function Text(i: int): seq<Byte> { if i < 0 then [45] + Digits(-i) else Digits(i) }

  predicate AllDigits(s: seq<Byte>) { forall k :: 0 <= k < |s| ==> 48 <= s[k] <= 57 }

  /** Digits, the first of them not 0 unless it is alone. */
  predicate Numeral(s: seq<Byte>) { s != [] && AllDigits(s) && (|s| > 1 ==> s[0] != 48) }

  /** The number a row of digits denotes. */
  function Value(s: seq<Byte>): (n: nat)
    requires AllDigits(s)
  {
    if s == [] then 0 else 10 * Value(s[..|s| - 1]) + (s[|s| - 1] - 48)
  }

  predicate SignedNumeral(s: seq<Byte>) {
    if s != [] && s[0] == 45 then Numeral(s[1..]) && s[1] != 48 else Numeral(s)
  }

  function SignedValue(s: seq<Byte>): int
    requires SignedNumeral(s)
  {
    if s[0] == 45 then -(Value(s[1..]) as int) else Value(s)
  }

  lemma {:induction false} DigitsParse(n: nat)
    ensures Numeral(Digits(n)) && Value(Digits(n)) == n && (Digits(n)[0] == 48 <==> n == 0)
  {
    if n >= 10 {
      DigitsParse(n / 10);
      var s := Digits(n);
      assert s[..|s| - 1] == Digits(n / 10);
    } else {
      assert Value([]) == 0 && [48 + n][..0] == [];
    }
  }

  lemma {:induction false} LeadingDigit(s: seq<Byte>)
    requires Numeral(s)
    ensures Value(s) == 0 <==> s == [48]
    ensures |s| > 1 ==> Value(s[..|s| - 1]) > 0
  {
    if |s| > 1 {
      LeadingDigit(s[..|s| - 1]);
    } else {
      assert s == [s[0]] && s[..0] == [] && Value([]) == 0;
    }
  }

  /** A number has one numeral. */
  lemma {:induction false} NumeralIsDigits(s: seq<Byte>)
    requires Numeral(s)
    ensures s == Digits(Value(s))
  {
    var t := s[..|s| - 1];
    assert s == t + [s[|s| - 1]];
    if |s| > 1 {
      LeadingDigit(s);
      NumeralIsDigits(t);
      assert Value(s) / 10 == Value(t) && Value(s) % 10 == s[|s| - 1] - 48;
    } else {
      assert t == [] && Value([]) == 0;
    }
  }

  lemma NegatedParses(n: nat)
    requires n > 0
    ensures SignedNumeral([45] + Digits(n)) && SignedValue([45] + Digits(n)) == -(n as int)
  {
    DigitsParse(n);
    assert ([45] + Digits(n))[1..] == Digits(n);
  }

  /** What is printed parses back to the number. */
  lemma TextParses(i: int)
    ensures SignedNumeral(Text(i)) && SignedValue(Text(i)) == i
  {
    if i < 0 { NegatedParses(-i); } else { DigitsParse(i); }
  }

  /** Digits and sign are the ASCII ones. */
  lemma DigitsAreSpelled(d: nat)
    requires d < 10
    ensures Text(d) == [('0' as int + d) as Byte] && (d > 0 ==> Text(-(d as int)) == ['-' as int, '0' as int + d])
  {
  }

  /** And nothing else does. */
  lemma TextIsOnly(s: seq<Byte>)
    requires SignedNumeral(s)
    ensures s == Text(SignedValue(s))
  {
    if s[0] == 45 {
      assert s == [45] + s[1..];
      LeadingDigit(s[1..]);
      NumeralIsDigits(s[1..]);
    } else {
      NumeralIsDigits(s);
    }
  }

  // ---------- room ----------

  function Power10(k: nat): (r: nat)
    ensures r >= 1
  {
    if k == 0 then 1 else 10 * Power10(k - 1)
  }

  lemma {:induction false} LengthIff(n: nat, k: nat)
    requires k >= 1
    ensures |Digits(n)| <= k <==> n < Power10(k)
    decreases k
  {
    if k == 1 {
      assert Power10(0) == 1;
      if n >= 10 { assert |Digits(n / 10)| >= 1; }
    } else {
      LengthIff(n / 10, k - 1);
      assert n < 10 * Power10(k - 1) <==> n / 10 < Power10(k - 1);
    }
  }

  /** The six characters itoa has room for are enough exactly for these numbers. */
  lemma ItoaFitsIff(i: int)
    ensures |Text(i)| <= 6 <==> -99999 <= i <= 999999
  {
    assert Power10(2) == 100 && Power10(4) == 100 * Power10(2) && Power10(5) == 100000 && Power10(6) == 1000000;
    if i < 0 { LengthIff(-i, 5); } else { LengthIff(i, 6); }
  }

  /** The ten of ultoa are enough for every 32-bit value. */
  lemma UltoaFits(n: Dword)
    ensures |Digits(n)| <= 10
  {
    assert Power10(2) == 100 && Power10(4) == 100 * Power10(2) && Power10(6) == 100 * Power10(4);
    assert Power10(8) == 100 * Power10(6) && Power10(10) == 100 * Power10(8);
    LengthIff(n, 10);
  }

  // ---------- the loops ----------

  /** One more character in front of those stored from `p` to `end`. */
  method Store(buf: array<Byte>, p: nat, ghost end: nat, c: Byte) returns (q: nat)
    requires 0 < p <= end < buf.Length
    modifies buf
    ensures q == p - 1 && buf[q..end] == [c] + old(buf[p..end]) && buf[end] == old(buf[end])
  {
    q := p - 1;
    buf[q] := c;
    assert buf[q + 1..end] == old(buf[p..end]);
  }

  /** The next digit of `n`, the rest of which is still to come. */
  method OneDigit(buf: array<Byte>, p: nat, end: nat, digit: Byte, ghost n: nat, ghost goal: seq<Byte>) returns (q: nat)
    requires p <= end < buf.Length && |goal| <= end && n > 0 && digit == 48 + n % 10
    requires goal == Digits(n) + buf[p..end]
    modifies buf
    ensures q <= end && goal == Lead(n / 10) + buf[q..end] && buf[end] == old(buf[end])
  {
    assert |goal| == |Digits(n)| + (end - p);
    assert Digits(n) == Lead(n / 10) + [digit];
    q := Store(buf, p, end, digit);
  }

  /** Digits of a number that is not negative, ending before `end`. */
  method PutDigits(buf: array<Byte>, end: nat, i0: nat) returns (p: nat)
    requires |Digits(i0)| <= end < buf.Length
    modifies buf
    ensures p <= end && buf[p..end] == Digits(i0) && buf[end] == old(buf[end])
  {
    var i: nat := i0 / 10;
    p := Store(buf, end, end, 48 + i0 % 10);
    ghost var goal := Digits(i0);
    while i != 0
      invariant p <= end && goal == Lead(i) + buf[p..end] && buf[end] == old(buf[end])
    {
      p := OneDigit(buf, p, end, 48 + i % 10, i, goal);
      i := i / 10;
    }
  }

  lemma NegativeStep(i: int)
    requires i <= 0
    ensures CDiv(i, 10) == -(-i / 10) && CMod(i, 10) == -(-i % 10)
  {
  }

  /** Digits of a negative number: the remainders are negative and are subtracted. */
  method PutNegativeDigits(buf: array<Byte>, end: nat, i0: int) returns (p: nat)
    requires i0 < 0 && |Digits(-i0)| <= end < buf.Length
    modifies buf
    ensures p <= end && buf[p..end] == Digits(-i0) && buf[end] == old(buf[end])
  {
    NegativeStep(i0);
    var i := CDiv(i0, 10);
    p := Store(buf, end, end, 48 - CMod(i0, 10));
    ghost var goal := Digits(-i0);
    while i != 0
      invariant i <= 0 && p <= end && goal == Lead(-i) + buf[p..end] && buf[end] == old(buf[end])
      decreases -i
    {
      NegativeStep(i);
      p := OneDigit(buf, p, end, 48 - CMod(i, 10), -i, goal);
      i := CDiv(i, 10);
    }
  }

  /** The string from the returned index on. */
  method Itoa(buf: array<Byte>, i: int) returns (p: nat)
    requires buf.Length == 7 && -99999 <= i <= 999999
    modifies buf
    ensures p < 6 && Terminated(buf[p..]) && CStr(buf[p..]) == Text(i)
  {
    ItoaFitsIff(i);
    buf[6] := 0;
    if i >= 0 {
      p := PutDigits(buf, 6, i);
    } else {
      p := PutNegativeDigits(buf, 6, i);
      p := Store(buf, p, 6, 45);
    }
    EndsAt(buf[p..], i);
  }

  method Ultoa(buf: array<Byte>, i: Dword) returns (p: nat)
    requires buf.Length == 12
    modifies buf
    ensures p < 11 && Terminated(buf[p..]) && CStr(buf[p..]) == Text(i)
  {
    UltoaFits(i);
    buf[11] := 0;
    p := PutDigits(buf, 11, i);
    EndsAt(buf[p..], i);
  }

  /** The kernel's own: six characters, no sign.  The last byte of its static buffer stays 0. */
  method Uitoa(buf: array<Byte>, i: Dword) returns (p: nat)
    requires buf.Length == 7 && buf[6] == 0 && i <= 999999
    modifies buf
    ensures p < 6 && buf[6] == 0 && Terminated(buf[p..]) && CStr(buf[p..]) == Text(i)
  {
    ItoaFitsIff(i);
    p := PutDigits(buf, 6, i);
    EndsAt(buf[p..], i);
  }

  lemma EndsAt(s: seq<Byte>, i: int)
    requires |s| > 0 && s[..|s| - 1] == Text(i) && s[|s| - 1] == 0
    ensures Terminated(s) && CStr(s) == Text(i)
  {
    DigitsParse(if i < 0 then -i else i);
    CStrIs(s, |s| - 1);
  }
}
