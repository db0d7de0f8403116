/**
 The table of 64K segments, first-fit allocated.
 */
module Segments {
  import opened Bytes

  datatype Seg = Seg(used: bool, address: Word)

  type SegTable = t: seq<Seg> | |t| == 10 witness InitialSegs()

  /** After init_seg: segments 0 (vectors, boot, BIOS) and 1 (kernel) are taken. */
  function InitialSegs(): (r: seq<Seg>)
    ensures |r| == 10 && forall i :: 0 <= i < 10 ==> r[i] == Seg(i < 2, 0x1000 * i)
  {
    seq(10, i requires 0 <= i < 10 => Seg(i < 2, 0x1000 * i))
  }

  /** Index of the first free segment from `i` on. */
  function FirstFree(t: SegTable, i: nat): (r: Option<nat>)
    requires i <= 10
    ensures r.None? <==> forall j :: i <= j < 10 ==> t[j].used
    ensures r.Some? ==> i <= r.value < 10 && !t[r.value].used && forall j :: i <= j < r.value ==> t[j].used
    decreases 10 - i
  {
    if i == 10 then None else if !t[i].used then Some(i) else FirstFree(t, i + 1)
  }

  function Take(t: SegTable, i: nat): SegTable
    requires i < 10
  {
    t[i := t[i].(used := true)]
  }

  /** Index of the first segment at `address` from `i` on; 10 when there is none. */
  function IndexOf(t: SegTable, address: Word, i: nat): (r: nat)
    requires i <= 10
    ensures i <= r <= 10 && (r < 10 ==> t[r].address == address)
    ensures forall j :: i <= j < r ==> t[j].address != address
    decreases 10 - i
  {
    if i == 10 || t[i].address == address then i else IndexOf(t, address, i + 1)
  }

  function Release(t: SegTable, address: Word): SegTable {
    var i := IndexOf(t, address, 0);
    if i == 10 then t else t[i := t[i].(used := false)]
  }

  /** Exactly the first `n` segments are in use and every segment has its own address. */
  predicate StackOfSegs(t: SegTable, n: nat) {
    forall i :: 0 <= i < 10 ==> t[i] == Seg(i < n, 0x1000 * i)
  }

  lemma SegsPopped(t: SegTable, n: nat)
    requires StackOfSegs(t, n) && 0 < n <= 10
    ensures Release(t, 0x1000 * (n - 1)) == t[n - 1 := Seg(false, 0x1000 * (n - 1))]
    ensures StackOfSegs(Release(t, 0x1000 * (n - 1)), n - 1)
  {
    assert IndexOf(t, 0x1000 * (n - 1), 0) == n - 1;
  }

  /** First fit on a stack-shaped table is a push, and releasing the newest segment pops it. */
  lemma SegsArePushedAndPopped(t: SegTable, n: nat)
    requires StackOfSegs(t, n) && n <= 10
    ensures FirstFree(t, 0) == if n == 10 then None else Some(n)
    ensures n < 10 ==> StackOfSegs(Take(t, n), n + 1)
    ensures n < 10 ==> Release(Take(t, n), 0x1000 * n) == t
    ensures n > 0 ==> StackOfSegs(Release(t, 0x1000 * (n - 1)), n - 1)
  {
    if n > 0 { SegsPopped(t, n); }
    if n < 10 {
      var u := Take(t, n);
      SegsPopped(u, n + 1);
      assert u[n := Seg(false, 0x1000 * n)] == t;
    }
  }

  class SegmentTable {
    const segs: array<Seg>

    predicate Valid() {
      segs.Length == 10
    }

    function Abs(): SegTable
      reads segs
      requires Valid()
    {
      segs[..]
    }

    constructor ()
      ensures Valid() && fresh(segs)
    {
      segs := new Seg[10](_ => Seg(false, 0));
    }

    method InitSeg()
      requires Valid()
      modifies segs
      ensures Abs() == InitialSegs()
    {
      segs[0] := Seg(true, 0x0000);
      segs[1] := Seg(true, 0x1000);
      segs[2] := Seg(false, 0x2000);
      segs[3] := Seg(false, 0x3000);
      segs[4] := Seg(false, 0x4000);
      segs[5] := Seg(false, 0x5000);
      segs[6] := Seg(false, 0x6000);
      segs[7] := Seg(false, 0x7000);
      segs[8] := Seg(false, 0x8000);
      segs[9] := Seg(false, 0x9000);
      assert segs[..] == InitialSegs();
    }

    /** `unset` is what happens to be in the uninitialised variable that is returned when no
        segment is free. */
    method GetFreeSeg(unset: Word) returns (seg: Word)
      requires Valid()
      modifies segs
      ensures FirstFree(old(Abs()), 0).Some? ==>
                var i := FirstFree(old(Abs()), 0).value; seg == old(Abs())[i].address && Abs() == Take(old(Abs()), i)
      ensures FirstFree(old(Abs()), 0).None? ==> seg == unset && Abs() == old(Abs())
    {
      seg := unset;
      var i := 0;
      while i < 10
        invariant 0 <= i <= 10 && FirstFree(Abs(), i) == FirstFree(Abs(), 0)
        invariant seg == unset && Abs() == old(Abs())
      {
        if !segs[i].used {
          seg := segs[i].address;
          segs[i] := segs[i].(used := true);
          return;
        }
        i := i + 1;
      }
    }

    /** Returns the index released, 10 when no segment has that address. */
    method ReleaseSeg(seg: Word) returns (i: nat)
      requires Valid()
      modifies segs
      ensures i == IndexOf(old(Abs()), seg, 0) && Abs() == Release(old(Abs()), seg)
    {
      i := 0;
      while i < 10
        invariant i <= 10 && IndexOf(Abs(), seg, i) == IndexOf(Abs(), seg, 0)
        invariant Abs() == old(Abs())
      {
        if segs[i].address == seg {
          segs[i] := segs[i].(used := false);
          return;
        }
        i := i + 1;
      }
    }
  }
}
