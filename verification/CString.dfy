/**
 The string and memory helpers the kernel and the user library share.
 */
module CString {
  import opened Bytes

  // ---------- NUL-terminated strings ----------

  predicate Terminated(s: seq<Byte>) { 0 in s }

  /** The characters before the first NUL. */
  function CStr(s: seq<Byte>): (r: seq<Byte>)
    requires Terminated(s)
    ensures |r| < |s| && r == s[..|r|] && s[|r|] == 0
    ensures forall i {:trigger s[i]} :: 0 <= i < |r| ==> s[i] != 0
  {
    if s[0] == 0 then [] else [s[0]] + CStr(s[1..])
  }

  lemma {:induction false} CStrIs(s: seq<Byte>, n: nat)
    requires n < |s| && s[n] == 0 && 0 !in s[..n]
    ensures Terminated(s) && CStr(s) == s[..n]
  {
    if n > 0 {
      assert s[0] == s[..n][0];
      assert s[1..][..n - 1] == s[..n][1..];
      CStrIs(s[1..], n - 1);
      assert s[..n] == [s[0]] + s[1..][..n - 1];
    }
  }

  /** The characters of a string literal. */
  predicate IsAscii(s: string) { forall i :: 0 <= i < |s| ==> s[i] as int < 0x80 }

  function Ascii(s: string): (r: seq<Byte>)
    requires IsAscii(s)
    ensures |r| == |s| && forall i :: 0 <= i < |s| ==> r[i] == s[i] as int
  {
    seq(|s|, i requires 0 <= i < |s| => s[i] as int)
  }

  function Chars(s: seq<Byte>): (r: string)
    ensures |r| == |s| && forall i :: 0 <= i < |s| ==> r[i] == s[i] as char
  {
    seq(|s|, i requires 0 <= i < |s| => s[i] as char)
  }

  method StrLen(s: array<Byte>) returns (len: nat)
    requires Terminated(s[..])
    ensures len == |CStr(s[..])|
  {
    len := 0;
    ghost var n := |CStr(s[..])|;
    while s[len] != 0
      invariant len <= n
      decreases n - len
    {
      assert len < n;
      len := len + 1;
    }
  }

  /** Byte-wise lexicographic order, a proper prefix coming first. */
  function Compare(s: seq<Byte>, t: seq<Byte>): (r: int)
  {
    if s == [] then (if t == [] then 0 else -1)
    else if t == [] then 1
    else if s[0] == t[0] then Compare(s[1..], t[1..])
    else if s[0] < t[0] then -1 else 1
  }

  lemma {:induction false} CompareIsEquality(s: seq<Byte>, t: seq<Byte>)
    ensures Compare(s, t) == 0 <==> s == t
    ensures Compare(t, s) == -Compare(s, t)
  {
    if s != [] && t != [] && s[0] == t[0] {
      CompareIsEquality(s[1..], t[1..]);
      assert s == [s[0]] + s[1..] && t == [t[0]] + t[1..];
    }
  }

  lemma {:induction false} CompareSkips(s: seq<Byte>, t: seq<Byte>, n: nat)
    requires n <= |s| && n <= |t| && s[..n] == t[..n]
    ensures Compare(s, t) == Compare(s[n..], t[n..])
  {
    if n > 0 {
      assert s[0] == s[..n][0] == t[..n][0] == t[0];
      assert s[1..][..n - 1] == s[..n][1..] && t[1..][..n - 1] == t[..n][1..];
      CompareSkips(s[1..], t[1..], n - 1);
      assert s[1..][n - 1..] == s[n..] && t[1..][n - 1..] == t[n..];
    } else {
      assert s[0..] == s && t[0..] == t;
    }
  }

  /** At the first difference, end of string included, the order is decided by one byte. */
  lemma DecidedAt(s: seq<Byte>, t: seq<Byte>, n: nat)
    requires Terminated(s) && Terminated(t)
    requires n <= |CStr(s)| && n <= |CStr(t)| && s[..n] == t[..n] && s[n] != t[n]
    ensures Compare(CStr(s), CStr(t)) == if s[n] < t[n] then -1 else 1
  {
    var a, b := CStr(s), CStr(t);
    assert a[..n] == s[..n] && b[..n] == t[..n];
    CompareSkips(a, b, n);
    assert n < |a| ==> a[n..][0] == s[n] && s[n] != 0;
    assert n < |b| ==> b[n..][0] == t[n] && t[n] != 0;
  }

  method StrCmp(src: array<Byte>, dst: array<Byte>) returns (r: int)
    requires Terminated(src[..]) && Terminated(dst[..])
    ensures r == Compare(CStr(src[..]), CStr(dst[..]))
  {
    var i := 0;
    while src[i] == dst[i]
      invariant i <= |CStr(src[..])| && i <= |CStr(dst[..])| && src[..i] == dst[..i]
      decreases |CStr(src[..])| - i
    {
      if src[i] == 0 {
        CStrIs(src[..], i);
        CStrIs(dst[..], i);
        CompareIsEquality(CStr(src[..]), CStr(dst[..]));
        return 0;
      }
      i := i + 1;
    }
    DecidedAt(src[..], dst[..], i);
    r := if src[i] < dst[i] then -1 else 1;
  }

  // ---------- copying ----------

  /** memcpy to `dst + at`. */
  method MemCpy(dst: array<Byte>, at: nat, src: seq<Byte>)
    requires at + |src| <= dst.Length
    modifies dst
    ensures dst[..] == Overlay(old(dst[..]), at, src)
  {
    for i := 0 to |src|
      invariant forall j :: 0 <= j < dst.Length ==> dst[j] == if at <= j < at + i then src[j - at] else old(dst[j])
    {
      dst[at + i] := src[i];
    }
  }

  /** Copies up to and including the first NUL. */
  method StrCpy(dst: array<Byte>, src: seq<Byte>)
    requires Terminated(src) && |CStr(src)| < dst.Length
    modifies dst
    ensures dst[..] == Overlay(old(dst[..]), 0, CStr(src) + [0])
    ensures Terminated(dst[..]) && CStr(dst[..]) == CStr(src)
  {
    ghost var n := |CStr(src)|;
    var i := 0;
    dst[0] := src[0];
    while src[i] != 0
      invariant i <= n
      invariant forall j :: 0 <= j < dst.Length ==> dst[j] == if j <= i then src[j] else old(dst[j])
      decreases n - i
    {
      assert i < n;
      i := i + 1;
      dst[i] := src[i];
    }
    assert dst[..] == Overlay(old(dst[..]), 0, CStr(src) + [0]);
    assert dst[..n] == CStr(src);
    CStrIs(dst[..], n);
  }

  // ---------- strncpy ----------

  /** Index of the byte the first loop of strncpy stops at: the first NUL, at most `n`. */
  function StopIndex(src: seq<Byte>, n: nat): (k: nat)
    requires n < |src|
    ensures k <= n && 0 !in src[..k] && (k < n ==> src[k] == 0)
  {
    StopFrom(src, n, 0)
  }

  function StopFrom(src: seq<Byte>, n: nat, i: nat): (k: nat)
    requires i <= n < |src| && 0 !in src[..i]
    ensures i <= k <= n && 0 !in src[..k] && (k < n ==> src[k] == 0)
    decreases n - i
  {
    if src[i] == 0 || i == n then i
    else
      assert src[..i + 1] == src[..i] + [src[i]];
      StopFrom(src, n, i + 1)
  }

  /** Passes of the padding loop while its guard holds: each clears a byte and forgets to advance. */
  function PadPasses(dst: seq<Byte>, i: nat, n: nat, passes: nat): (r: (seq<Byte>, nat))
    requires n < |dst|
    decreases passes
  {
    if passes == 0 || i >= n then (dst, i) else PadPasses(dst[i := 0], i, n, passes - 1)
  }

  /** Where padding starts. */
  function PadStart(src: seq<Byte>, n: nat): nat
    requires n < |src|
  {
    StopIndex(src, n) + 1
  }

  lemma {:induction false} PaddingNeverAdvances(dst: seq<Byte>, i: nat, n: nat, passes: nat)
    requires n < |dst|
    ensures PadPasses(dst, i, n, passes).1 == i
    decreases passes
  {
    if passes > 0 && i < n { PaddingNeverAdvances(dst[i := 0], i, n, passes - 1); }
  }

  /** strncpy returns if and only if the first n-1 source bytes are all non-NUL: otherwise the
      guard of its padding loop still holds after any number of passes. */
  lemma StrNCpyReturnsIff(src: seq<Byte>, dst: seq<Byte>, n: nat)
    requires n < |src| && n < |dst|
    ensures (forall i :: 0 <= i < n - 1 ==> src[i] != 0)
            <==> exists passes: nat :: PadPasses(dst, PadStart(src, n), n, passes).1 >= n
  {
    var k := StopIndex(src, n);
    forall passes: nat ensures PadPasses(dst, PadStart(src, n), n, passes).1 == k + 1 {
      PaddingNeverAdvances(dst, PadStart(src, n), n, passes);
    }
    assert PadPasses(dst, PadStart(src, n), n, 0).1 == k + 1;
    assert forall i :: 0 <= i < k ==> src[i] == src[..k][i] != 0;
  }

  /** One byte more than asked is copied when no NUL stops the loop. */
  method StrNCpy(dst: array<Byte>, src: seq<Byte>, n: nat)
    requires n < |src| && n < dst.Length && forall i :: 0 <= i < n - 1 ==> src[i] != 0
    modifies dst
    ensures dst[..] == Overlay(old(dst[..]), 0, src[..StopIndex(src, n) + 1])
  {
    var i := 0;
    dst[0] := src[0];
    while src[i] != 0 && i < n
      invariant i <= n && 0 !in src[..i]
      invariant StopFrom(src, n, i) == StopIndex(src, n)
      invariant forall j :: 0 <= j < dst.Length ==> dst[j] == if j <= i then src[j] else old(dst[j])
      decreases n - i
    {
      assert src[..i + 1] == src[..i] + [src[i]];
      i := i + 1;
      dst[i] := src[i];
    }
    assert i == StopIndex(src, n);
    // the padding loop's guard, i + 1 < n, is false here
    assert i + 1 >= n;
  }

  // ---------- letter case ----------

  function ToUpper(c: Byte): Byte {
    if 97 <= c <= 122 then 65 + c - 97 else c
  }

  function ToLower(c: Byte): Byte {
    if 65 <= c <= 90 then 97 + c - 65 else c
  }

  /** The letters are the ASCII ones; nothing else has a case. */
  lemma LettersOfCase(c: char)
    requires c as int < 0x100
    ensures ToUpper(c as int) == if 'a' <= c <= 'z' then 'A' as int + (c as int - 'a' as int) else c as int
    ensures ToLower(c as int) == if 'A' <= c <= 'Z' then 'a' as int + (c as int - 'A' as int) else c as int
  {
  }

  function Upper(s: seq<Byte>): (r: seq<Byte>)
    ensures |r| == |s| && forall i :: 0 <= i < |s| ==> r[i] == ToUpper(s[i])
  {
    seq(|s|, i requires 0 <= i < |s| => ToUpper(s[i]))
  }

  /** The two strings differ in letter case only. */
  ghost predicate CaseVariants(s: seq<Byte>, t: seq<Byte>) {
    |s| == |t| && forall i :: 0 <= i < |s| ==> ToLower(s[i]) == ToLower(t[i])
  }

  /** Upper-casing identifies exactly the case variants. */
  lemma UpperIdentifiesIff(s: seq<Byte>, t: seq<Byte>)
    ensures Upper(s) == Upper(t) <==> CaseVariants(s, t)
  {
    if Upper(s) == Upper(t) {
      forall i | 0 <= i < |s| ensures ToLower(s[i]) == ToLower(t[i]) {
        assert Upper(s)[i] == Upper(t)[i];
      }
    } else if CaseVariants(s, t) {
      assert forall i :: 0 <= i < |s| ==> Upper(s)[i] == Upper(t)[i];
    }
  }

  /** Upper-cases a string in place, measuring its length again on every pass. */
  method StoUpper(s: array<Byte>)
    requires Terminated(s[..])
    modifies s
    ensures s[..] == Overlay(old(s[..]), 0, Upper(old(CStr(s[..]))))
    ensures Terminated(s[..]) && CStr(s[..]) == Upper(old(CStr(s[..])))
  {
    ghost var before, n := s[..], |CStr(s[..])|;
    var i := 0;
    var len := StrLen(s);
    while i < len
      invariant i <= len == n
      invariant forall j :: 0 <= j < s.Length ==> s[j] == if j < i then ToUpper(before[j]) else before[j]
      decreases n - i
    {
      s[i] := ToUpper(s[i]);
      i := i + 1;
      SameEnd(before, s[..]);
      len := StrLen(s);
    }
    SameEnd(before, s[..]);
    assert s[..] == Overlay(before, 0, Upper(CStr(before)));
  }

  /** Strings with NULs in the same places end in the same place. */
  lemma SameEnd(before: seq<Byte>, after: seq<Byte>)
    requires Terminated(before) && |after| == |before|
    requires forall j :: 0 <= j < |before| ==> (after[j] == 0 <==> before[j] == 0)
    ensures Terminated(after) && |CStr(after)| == |CStr(before)|
  {
    var n := |CStr(before)|;
    assert forall j :: 0 <= j < n ==> after[..n][j] == after[j];
    CStrIs(after, n);
  }
}
