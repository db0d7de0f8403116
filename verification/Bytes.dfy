/**
 Machine integers and byte sequences shared by every component.  The kernel is built for
 a 16-bit segment with 32-bit `int` and `unsigned long`; widths that matter are written out.
 */
module Bytes {

  type Byte = b: int | 0 <= b < 0x100
  type Word = w: int | 0 <= w < 0x1_0000
  type Dword = d: int | 0 <= d < 0x1_0000_0000

  datatype Option<+T> = None | Some(value: T)

  /** `dst` with `src` written over it from index `at`. */
  function Overlay<T>(dst: seq<T>, at: nat, src: seq<T>): (r: seq<T>)
    requires at + |src| <= |dst|
    ensures |r| == |dst|
    ensures forall i {:trigger r[i]} :: 0 <= i < |dst| ==> r[i] == if at <= i < at + |src| then src[i - at] else dst[i]
  {
    dst[..at] + src + dst[at + |src|..]
  }

  /** Little-endian value of the two bytes at `i`. */
  function Le16(s: seq<Byte>, i: nat): Word
    requires i + 1 < |s|
  {
    s[i] as int + 0x100 * s[i + 1] as int
  }

  /** Little-endian value of the four bytes at `i`. */
  function Le32(s: seq<Byte>, i: nat): Dword
    requires i + 3 < |s|
  {
    Le16(s, i) as int + 0x1_0000 * Le16(s, i + 2) as int
  }

  /** The bytes of a 16-bit and of a 32-bit number in memory, lowest first. */
  function Bytes16(w: Word): (r: seq<Byte>)
    ensures |r| == 2
  {
    [w % 0x100, w / 0x100]
  }

  function Bytes32(d: Dword): (r: seq<Byte>)
    ensures |r| == 4
  {
    [d % 0x100, d / 0x100 % 0x100, d / 0x1_0000 % 0x100, d / 0x100_0000]
  }

  /** Storing a number and reading it back. */
  lemma ReadsBack16(s: seq<Byte>, i: nat, w: Word)
    requires i + 1 < |s|
    ensures Le16(s, i) == w <==> s[i..i + 2] == Bytes16(w)
  {
    var r := s[i..i + 2];
    assert r == [s[i], s[i + 1]];
  }

  lemma ReadsBack32(s: seq<Byte>, i: nat, d: Dword)
    requires i + 3 < |s|
    ensures Le32(s, i) == d <==> s[i..i + 4] == Bytes32(d)
  {
    var r := s[i..i + 4];
    assert r == [s[i], s[i + 1], s[i + 2], s[i + 3]];
    Parts32(s[i], s[i + 1], s[i + 2], s[i + 3]);
    Sum32(d);
  }

  lemma Sum32(d: Dword)
    ensures d == d % 0x100 + 0x100 * (d / 0x100 % 0x100) + 0x1_0000 * (d / 0x1_0000 % 0x100) + 0x100_0000 * (d / 0x100_0000)
  {
    assert d / 0x100 / 0x100 == d / 0x1_0000 && d / 0x1_0000 / 0x100 == d / 0x100_0000;
  }

  lemma Parts32(a: Byte, b: Byte, c: Byte, d: Byte)
    ensures var n: int := a as int + 0x100 * b as int + 0x1_0000 * c as int + 0x100_0000 * d as int;
            0 <= n < 0x1_0000_0000 && Bytes32(n) == [a, b, c, d]
  {
    var n: int := a as int + 0x100 * b as int + 0x1_0000 * c as int + 0x100_0000 * d as int;
    assert n / 0x100 == b as int + 0x100 * c as int + 0x1_0000 * d as int;
    assert n / 0x1_0000 == c as int + 0x100 * d as int;
  }

  /** `n` copies of `x`. */
  function Fill<T>(n: nat, x: T): (r: seq<T>)
    ensures |r| == n && forall i :: 0 <= i < n ==> r[i] == x
  {
    seq(n, _ => x)
  }

  /** A slice of a slice is a slice. */
  lemma SliceOfSlice<T>(s: seq<T>, a: nat, b: nat, c: nat, d: nat)
    requires a <= b <= |s| && c <= d <= b - a
    ensures s[a..b][c..d] == s[a + c..a + d]
  {
    var l, r := s[a..b][c..d], s[a + c..a + d];
    assert |l| == |r| && forall i :: 0 <= i < |l| ==> l[i] == r[i];
  }

  lemma SplitSlice<T>(s: seq<T>, a: nat, b: nat, c: nat)
    requires a <= b <= c <= |s|
    ensures s[a..b] + s[b..c] == s[a..c]
  {
  }

  lemma SplitConcat<T>(a: seq<T>, b: seq<T>)
    ensures (a + b)[..|a|] == a && (a + b)[|a|..] == b
  {
  }

  lemma OverlayWhole<T>(dst: seq<T>, src: seq<T>)
    requires |dst| == |src|
    ensures Overlay(dst, 0, src) == src
  {
  }

  lemma AssociateConcat<T>(a: seq<T>, b: seq<T>, c: seq<T>)
    ensures a + (b + c) == (a + b) + c
  {
  }
}
