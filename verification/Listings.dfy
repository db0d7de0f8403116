/**
 The records of service 9 in the request block, as SYSCALL_FILE_ENTRY lays them out.
 */
module Listings {
  import opened Bytes
  import opened CString
  import opened Directory

  function Flagged(b: bool): Byte { if b then 1 else 0 }

  /** The two strings, as far as their NULs, over the 13 bytes `was`. */
  function LaidNames(was: seq<Byte>, r: FileRecord): (b: seq<Byte>)
    requires |was| == 13 && r.Short()
    ensures |b| == 13
  {
    r.name + [0] + was[|r.name| + 1..9] + r.ext + [0] + was[|r.ext| + 10..]
  }

  /** The rest over the 15 bytes behind them; the size and the record itself end on multiples of
      four, which leaves two bytes alone. */
  function LaidNumbers(was: seq<Byte>, r: FileRecord): (b: seq<Byte>)
    requires |was| == 15
    ensures |b| == 15
  {
    [Flagged(r.dir), Flagged(r.readOnly), was[2]] + Bytes32(r.size)
    + [r.modified.day, r.modified.month] + Bytes16(r.modified.year)
    + [r.modified.seconds, r.modified.minutes, r.modified.hours, was[14]]
  }

  function LaidRecord(was: seq<Byte>, r: FileRecord): (b: seq<Byte>)
    requires |was| == 28 && r.Short()
    ensures |b| == 28
  {
    LaidNames(was[..13], r) + LaidNumbers(was[13..], r)
  }

  /** What a program finds in a record: every field. */
  lemma RecordReadsBack(was: seq<Byte>, r: FileRecord)
    requires |was| == 28 && r.Short() && 0 !in r.name && 0 !in r.ext
    ensures var b := LaidRecord(was, r);
            && Terminated(b[..9]) && CStr(b[..9]) == r.name && Terminated(b[9..13]) && CStr(b[9..13]) == r.ext
            && (b[13] != 0 <==> r.dir) && (b[14] != 0 <==> r.readOnly) && Le32(b, 16) == r.size
            && b[20] == r.modified.day && b[21] == r.modified.month && Le16(b, 22) == r.modified.year
            && b[24] == r.modified.seconds && b[25] == r.modified.minutes && b[26] == r.modified.hours
  {
    var b, names, numbers := LaidRecord(was, r), LaidNames(was[..13], r), LaidNumbers(was[13..], r);
    NamesReadBack(was[..13], r);
    assert b[..9] == names[..9] && b[9..13] == names[9..13];
    assert b[13..] == numbers && b[16..20] == numbers[3..7] == Bytes32(r.size) && b[22..24] == numbers[9..11] == Bytes16(r.modified.year);
    ReadsBack32(b, 16, r.size);
    ReadsBack16(b, 22, r.modified.year);
    assert forall i :: 0 <= i < 15 ==> b[13 + i] == numbers[i];
  }

  lemma NamesReadBack(was: seq<Byte>, r: FileRecord)
    requires |was| == 13 && r.Short() && 0 !in r.name && 0 !in r.ext
    ensures var b := LaidNames(was, r);
            Terminated(b[..9]) && CStr(b[..9]) == r.name && Terminated(b[9..13]) && CStr(b[9..13]) == r.ext
  {
    var b := LaidNames(was, r);
    StringField(r.name, was[|r.name| + 1..9]);
    StringField(r.ext, was[|r.ext| + 10..]);
    assert b[..9] == r.name + [0] + was[|r.name| + 1..9];
    assert b[9..13] == r.ext + [0] + was[|r.ext| + 10..];
  }

  lemma StringField(s: seq<Byte>, rest: seq<Byte>)
    requires 0 !in s
    ensures Terminated(s + [0] + rest) && CStr(s + [0] + rest) == s
  {
    var b := s + [0] + rest;
    assert b[..|s|] == s;
    CStrIs(b, |s|);
  }

  predicate AllShort(rs: seq<FileRecord>) { forall i :: 0 <= i < |rs| ==> rs[i].Short() }

  /** The first `n` records stored one after the other from the start of `data`. */
  function LaidRecords(data: seq<Byte>, rs: seq<FileRecord>, n: nat): (r: seq<Byte>)
    requires n <= |rs| && 28 * |rs| <= |data| && AllShort(rs)
    ensures |r| == |data|
  {
    if n == 0 then data
    else
      var d, at := LaidRecords(data, rs, n - 1), 28 * (n - 1);
      Overlay(d, at, LaidRecord(d[at..at + 28], rs[n - 1]))
  }

  /** Nothing lies behind the last record. */
  lemma {:induction false} TailOfBlock(data: seq<Byte>, rs: seq<FileRecord>, n: nat)
    requires n <= |rs| && 28 * |rs| <= |data| && AllShort(rs)
    ensures LaidRecords(data, rs, n)[28 * n..] == data[28 * n..]
    decreases n
  {
    if n > 0 {
      var d, at := LaidRecords(data, rs, n - 1), 28 * (n - 1);
      TailOfBlock(data, rs, n - 1);
      TailSlice(d, data, at, 28);
      OverlayParts(d, at, LaidRecord(d[at..at + 28], rs[n - 1]), 0, 0);
    }
  }

  /** The i-th record lies at 28 * i, whatever is stored after it. */
  lemma {:induction false} RecordInBlock(data: seq<Byte>, rs: seq<FileRecord>, n: nat, i: nat)
    requires i < n <= |rs| && 28 * |rs| <= |data| && AllShort(rs)
    ensures LaidRecords(data, rs, n)[28 * i..28 * i + 28] == LaidRecord(data[28 * i..28 * i + 28], rs[i])
    decreases n
  {
    var d, at := LaidRecords(data, rs, n - 1), 28 * (n - 1);
    var record := LaidRecord(d[at..at + 28], rs[n - 1]);
    if i == n - 1 {
      TailOfBlock(data, rs, n - 1);
      TailSlice(d, data, at, 28);
      OverlayParts(d, at, record, 0, 0);
    } else {
      RecordInBlock(data, rs, n - 1, i);
      OverlayParts(d, at, record, 28 * i, 28 * i + 28);
    }
  }

  lemma OverlayParts<T>(d: seq<T>, at: nat, src: seq<T>, a: nat, b: nat)
    requires at + |src| <= |d| && a <= b <= at
    ensures var r := Overlay(d, at, src); r[at..at + |src|] == src && r[at + |src|..] == d[at + |src|..] && r[a..b] == d[a..b]
  {
  }

  lemma TailSlice(d: seq<Byte>, data: seq<Byte>, at: nat, n: nat)
    requires |d| == |data| && at + n <= |d| && d[at..] == data[at..]
    ensures d[at..at + n] == data[at..at + n] && d[at + n..] == data[at + n..]
  {
    assert d[at..][..n] == d[at..at + n] && data[at..][..n] == data[at..at + n];
    assert d[at..][n..] == d[at + n..] && data[at..][n..] == data[at + n..];
  }

  // ---------- storing them ----------

  /** strcpy of name and extension. */
  method PutNames(data: array<Byte>, at: nat, r: FileRecord)
    requires at + 13 <= data.Length && r.Short()
    modifies data
    ensures data[..] == Overlay(old(data[..]), at, LaidNames(old(data[at..at + 13]), r))
  {
    ghost var was := data[..];
    MemCpy(data, at, r.name + [0]);
    MemCpy(data, at + 9, r.ext + [0]);
    NamesLaid(was, at, r);
  }

  lemma NamesLaid(was: seq<Byte>, at: nat, r: FileRecord)
    requires at + 13 <= |was| && r.Short()
    ensures Overlay(Overlay(was, at, r.name + [0]), at + 9, r.ext + [0]) == Overlay(was, at, LaidNames(was[at..at + 13], r))
  {
    var a, w := Overlay(was, at, r.name + [0]), was[at..at + 13];
    var n, m := r.name + [0] + w[|r.name| + 1..9], r.ext + [0] + w[|r.ext| + 10..];
    assert LaidNames(w, r) == n + m;
    assert Overlay(was, at, n)[..at + 9] == a[..at + 9];
  }

  method PutNumbers(data: array<Byte>, at: nat, r: FileRecord)
    requires at + 15 <= data.Length
    modifies data
    ensures data[..] == Overlay(old(data[..]), at, LaidNumbers(old(data[at..at + 15]), r))
  {
    ghost var was := data[..];
    ghost var part := LaidNumbers(was[at..at + 15], r);
    data[at], data[at + 1] := Flagged(r.dir), Flagged(r.readOnly);
    MemCpy(data, at + 3, Bytes32(r.size));
    data[at + 7], data[at + 8] := r.modified.day, r.modified.month;
    MemCpy(data, at + 9, Bytes16(r.modified.year));
    data[at + 13], data[at + 12], data[at + 11] := r.modified.hours, r.modified.minutes, r.modified.seconds;
    assert forall j :: 0 <= j < 15 ==> data[at + j] == part[j];
    assert data[..] == Overlay(was, at, part);
  }

  lemma OverlayTwice<T>(s: seq<T>, at: nat, a: seq<T>, b: seq<T>)
    requires at + |a| + |b| <= |s|
    ensures Overlay(Overlay(s, at + |a|, b), at, a) == Overlay(s, at, a + b)
  {
  }

  /** The assignments of list_root_files to one record, in its order. */
  method PutRecord(data: array<Byte>, at: nat, r: FileRecord)
    requires at + 28 <= data.Length && r.Short()
    modifies data
    ensures data[..] == Overlay(old(data[..]), at, LaidRecord(old(data[at..at + 28]), r))
  {
    ghost var was := data[..];
    ghost var names, numbers := LaidNames(was[at..at + 28][..13], r), LaidNumbers(was[at..at + 28][13..], r);
    assert was[at..at + 28][13..] == was[at + 13..at + 28] && was[at..at + 28][..13] == was[at..at + 13];
    PutNumbers(data, at + 13, r);
    assert data[at..at + 13] == was[at..at + 13];
    PutNames(data, at, r);
    OverlayTwice(was, at, names, numbers);
  }

  method PutRecords(data: array<Byte>, records: array<FileRecord>, files: nat)
    requires files <= records.Length && 28 * files <= data.Length && AllShort(records[..files])
    modifies data
    ensures data[..] == LaidRecords(old(data[..]), records[..files], files)
  {
    ghost var rs := records[..files];
    ghost var was := data[..];
    for i := 0 to files
      invariant data[..] == LaidRecords(was, rs, i)
    {
      PutNext(data, records[i], was, rs, i);
    }
  }

  method PutNext(data: array<Byte>, r: FileRecord, ghost was: seq<Byte>, ghost rs: seq<FileRecord>, i: nat)
    requires i < |rs| && 28 * |rs| <= |was| == data.Length && AllShort(rs) && r == rs[i] && data[..] == LaidRecords(was, rs, i)
    modifies data
    ensures data[..] == LaidRecords(was, rs, i + 1)
  {
    assert data[28 * i..28 * i + 28] == data[..][28 * i..28 * i + 28];
    PutRecord(data, 28 * i, r);
  }
}
