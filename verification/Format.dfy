/**
 vfprintf of the user library: %s and %d on standard output.
 */
module Format {
  import opened Bytes
  import opened CString
  import opened Decimal

  const PERCENT: Byte := 37
  const S: Byte := 115
  const D: Byte := 100

  /** A variable argument: the memory a char pointer points to, or an int. */
  datatype Arg = Str(mem: seq<Byte>) | Int(value: int)

  /** May a %s take it? */
  predicate IsText(a: Arg) { a.Str? && Terminated(a.mem) }

  /** May a %d? Other numbers overrun itoa's buffer. */
  predicate IsNumber(a: Arg) { a.Int? && -99999 <= a.value <= 999999 }

  function Printed(a: Arg): seq<Byte>
    requires IsText(a) || IsNumber(a)
  {
    match a
    case Str(mem) => CStr(mem)
    case Int(value) => Text(value)
  }

  function Prepend(s: seq<Byte>, rest: Option<seq<Byte>>): (r: Option<seq<Byte>>)
    ensures r.Some? <==> rest.Some?
  {
    match rest
    case None => None
    case Some(t) => Some(s + t)
  }

  lemma PrependTwice(a: seq<Byte>, b: seq<Byte>, rest: Option<seq<Byte>>)
    ensures Prepend(a, Prepend(b, rest)) == Prepend(a + b, rest)
  {
    if rest.Some? { assert a + (b + rest.value) == a + b + rest.value; }
  }

  /** What the template `t` prints with these arguments; None when one is missing or unfit. */
  function Meaning(t: seq<Byte>, args: seq<Arg>): (r: Option<seq<Byte>>)
    decreases |t|
  {
    if t == [] then Some([])
    else if t[0] != PERCENT then Prepend([t[0]], Meaning(t[1..], args))
    else if |t| == 1 then Some([])
    else if t[1] == S then
      if args == [] || !IsText(args[0]) then None else Prepend(Printed(args[0]), Meaning(t[2..], args[1..]))
    else if t[1] == D then
      if args == [] || !IsNumber(args[0]) then None else Prepend(Printed(args[0]), Meaning(t[2..], args[1..]))
    else Meaning(t[1..], args)
  }

  // ---------- templates spelled out ----------

  /** A piece of text to print: a character, a string or a number. */
  datatype Piece = Lit(c: Byte) | Value(arg: Arg)

  predicate Printable(p: Piece) {
    match p
    case Lit(c) => c != 0 && c != PERCENT
    case Value(arg) => IsText(arg) || IsNumber(arg)
  }

  /** The template for the pieces. */
  function Spell(ps: seq<Piece>): (t: seq<Byte>) {
    if ps == [] then []
    else (match ps[0]
          case Lit(c) => [c]
          case Value(Str(_)) => [PERCENT, S]
          case Value(Int(_)) => [PERCENT, D]) + Spell(ps[1..])
  }

  function Args(ps: seq<Piece>): seq<Arg> {
    if ps == [] then [] else if ps[0].Lit? then Args(ps[1..]) else [ps[0].arg] + Args(ps[1..])
  }

  function Texts(ps: seq<Piece>): seq<Byte>
    requires forall p :: p in ps ==> Printable(p)
  {
    if ps == [] then []
    else
      assert ps[0] in ps && Printable(ps[0]);
      (match ps[0] case Lit(c) => [c] case Value(arg) => Printed(arg)) + Texts(ps[1..])
  }

  /** Any sequence of pieces, spelled as a template and its arguments, prints as their texts. */
  lemma {:induction false} SpelledPiecesPrint(ps: seq<Piece>)
    requires forall p :: p in ps ==> Printable(p)
    ensures 0 !in Spell(ps) && Meaning(Spell(ps), Args(ps)) == Some(Texts(ps))
  {
    if ps != [] {
      SpelledPiecesPrint(ps[1..]);
      var t := Spell(ps);
      assert Printable(ps[0]) by { assert ps[0] in ps; }
      match ps[0]
      case Lit(c) =>
        assert t[1..] == Spell(ps[1..]);
      case Value(arg) =>
        assert t[2..] == Spell(ps[1..]);
        assert Args(ps)[1..] == Args(ps[1..]);
    }
  }

  /** The two directives are "%s" and "%d"; text before one of them is printed as it is. */
  lemma {:induction false} DirectivePrints(before: seq<Byte>, after: seq<Byte>, arg: Arg, args: seq<Arg>)
    requires Ascii("%")[0] !in before && (IsText(arg) || IsNumber(arg))
    ensures Meaning(before + Ascii(if arg.Str? then "%s" else "%d") + after, [arg] + args)
            == Prepend(before + Printed(arg), Meaning(after, args))
    decreases |before|
  {
    var directive := Ascii(if arg.Str? then "%s" else "%d");
    var t := before + directive + after;
    assert directive == [PERCENT, if arg.Str? then S else D];
    if before == [] {
      assert t[2..] == after && ([arg] + args)[1..] == args;
      assert before + Printed(arg) == Printed(arg);
    } else {
      DirectivePrints(before[1..], after, arg, args);
      assert t[1..] == before[1..] + directive + after;
      PrependTwice([before[0]], before[1..] + Printed(arg), Meaning(after, args));
      assert before + Printed(arg) == [before[0]] + (before[1..] + Printed(arg));
    }
  }

  // ---------- which calls are defined ----------

  /** The directives of a template, in order. */
  function Directives(t: seq<Byte>): (r: seq<Byte>)
    decreases |t|
  {
    if |t| < 2 then []
    else if t[0] == PERCENT && (t[1] == S || t[1] == D) then [t[1]] + Directives(t[2..])
    else Directives(t[1..])
  }

  predicate Fit(d: Byte, a: Arg) { if d == S then IsText(a) else IsNumber(a) }

  /** A call is defined exactly when every directive has an argument fit for it. */
  lemma {:induction false} DefinedIff(t: seq<Byte>, args: seq<Arg>)
    ensures Meaning(t, args).Some?
            <==> |Directives(t)| <= |args| && forall k :: 0 <= k < |Directives(t)| ==> Fit(Directives(t)[k], args[k])
    decreases |t|
  {
    if |t| >= 2 {
      if t[0] == PERCENT && (t[1] == S || t[1] == D) {
        var ds := Directives(t);
        assert ds[1..] == Directives(t[2..]);
        if args != [] {
          DefinedIff(t[2..], args[1..]);
          assert forall k :: 1 <= k < |ds| && k < |args| ==> ds[k] == ds[1..][k - 1] && args[k] == args[1..][k - 1];
          assert forall k :: 0 <= k < |ds| - 1 && k < |args| - 1 ==> ds[1..][k] == ds[k + 1] && args[1..][k] == args[k + 1];
        }
      } else {
        DefinedIff(t[1..], args);
      }
    }
  }

  /** No template prints a percent sign of its own: "%%" does not stand for one. */
  lemma {:induction false} PercentIsNeverPrinted(t: seq<Byte>, args: seq<Arg>)
    requires Meaning(t, args).Some?
    requires forall a :: a in args && IsText(a) ==> PERCENT !in CStr(a.mem)
    ensures PERCENT !in Meaning(t, args).value
    decreases |t|
  {
    if t == [] || (|t| == 1 && t[0] == PERCENT) {
    } else if t[0] == PERCENT && (t[1] == S || t[1] == D) {
      PercentIsNeverPrinted(t[2..], args[1..]);
      if t[1] == D { TextParses(args[0].value); }
      assert args[0] in args;
    } else {
      PercentIsNeverPrinted(t[1..], args);
    }
  }

  // ---------- printing ----------

  class Terminal {
    var screen: seq<Byte>

    method Putchar(c: Byte)
      modifies this
      ensures screen == old(screen) + [c]
    {
      screen := screen + [c];
    }

    /** The kernel's write on descriptor 1. */
    method Write(buf: array<Byte>, count: nat)
      requires count <= buf.Length
      modifies this
      ensures screen == old(screen) + buf[..count]
    {
      var i := 0;
      while i < count
        invariant i <= count && screen == old(screen) + buf[..i]
      {
        Putchar(buf[i]);
        i := i + 1;
      }
    }

    /** The loop of %s. */
    method PutString(mem: seq<Byte>)
      requires Terminated(mem)
      modifies this
      ensures screen == old(screen) + CStr(mem)
    {
      ghost var t := CStr(mem);
      var sval := 0;
      while mem[sval] != 0
        invariant sval <= |t| && screen == old(screen) + t[..sval]
        decreases |t| - sval
      {
        Putchar(mem[sval]);
        sval := sval + 1;
      }
    }

    method PutNumber(ival: int)
      requires -99999 <= ival <= 999999
      modifies this
      ensures screen == old(screen) + Text(ival)
    {
      var buf := new Byte[7](_ => 0);
      var strnum := new Byte[7](_ => 0);
      var p := Itoa(buf, ival);
      StrCpy(strnum, buf[p..]);
      var len := StrLen(strnum);
      Write(strnum, len);
    }

    /** Prints the meaning of the template and returns its length; on any other descriptor
        prints nothing and returns 0. */
    method Vfprintf(fd: int, template: array<Byte>, ap: seq<Arg>) returns (i: nat)
      requires Terminated(template[..])
      requires fd == 1 ==> Meaning(CStr(template[..]), ap).Some?
      modifies this
      ensures fd == 1 ==> screen == old(screen) + Meaning(CStr(template[..]), ap).value && i == |CStr(template[..])|
      ensures fd != 1 ==> screen == old(screen) && i == 0
    {
      i := 0;
      if fd == 1 {
        ghost var t := CStr(template[..]);
        ghost var goal := Some(screen + Meaning(t, ap).value);
        var args := ap;
        assert t[0..] == t;
        while template[i] != 0
          invariant i <= |t| && goal == Prepend(screen, Meaning(t[i..], args))
          decreases |t| - i
        {
          ghost var rest := t[i..];
          assert rest[1..] == t[i + 1..];
          if template[i] != PERCENT {
            PrependTwice(screen, [template[i]], Meaning(t[i + 1..], args));
            Putchar(template[i]);
            i := i + 1;
            continue;
          }
          i := i + 1;
          if template[i] == 0 {
            assert rest == [PERCENT];
          } else if template[i] == S {
            assert rest[2..] == t[i + 1..];
            PrependTwice(screen, Printed(args[0]), Meaning(t[i + 1..], args[1..]));
            PutString(args[0].mem);
            args := args[1..];
            i := i + 1;
          } else if template[i] == D {
            assert rest[2..] == t[i + 1..];
            PrependTwice(screen, Printed(args[0]), Meaning(t[i + 1..], args[1..]));
            PutNumber(args[0].value);
            args := args[1..];
            i := i + 1;
          }
        }
      }
    }
  }
}
