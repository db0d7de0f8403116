/**
 Root directory entries: classification, 8.3 names, listing and lookup.
 */
module Directory {
  import opened Bytes
  import opened CString
  import opened Floppy
  import opened Fat12
  import opened Chains

  // ---------- one entry ----------

  datatype EntryType = Vfat | Deleted | NoEntry | VolumeLabel | File

  predicate Bit(b: Byte, weight: Byte)
    requires weight > 0
  {
    b / weight % 2 == 1
  }

  function TypeOf(e: seq<Byte>): EntryType
    requires |e| == 32
  {
    if e[0] == 0xE5 then Deleted
    else if e[0] == 0x00 then NoEntry
    else if Le16(e, 26) == 0 && e[12] == 0 && e[11] == 0x0F && Bit(e[0], 0x40) && Bit(e[0], 0x01) then Vfat
    else if Bit(e[11], 0x08) then VolumeLabel
    else File
  }

  function StartingCluster(e: seq<Byte>): Word
    requires |e| == 32
  {
    Le16(e, 26)
  }

  // ---------- names ----------

  /** The characters before the first space or NUL. */
  function TakeName(s: seq<Byte>): (r: seq<Byte>)
    ensures |r| <= |s| && r == s[..|r|] && 0 !in r && 32 !in r
    ensures |r| < |s| ==> s[|r|] == 0 || s[|r|] == 32
  {
    if s == [] || s[0] == 0 || s[0] == 32 then [] else [s[0]] + TakeName(s[1..])
  }

  function BaseName(e: seq<Byte>): seq<Byte>
    requires |e| == 32
  {
    TakeName(e[..8])
  }

  function Extension(e: seq<Byte>): seq<Byte>
    requires |e| == 32
  {
    TakeName(e[8..11])
  }

  /** The on-disk form of a name: padded with spaces. */
  function Padded(name: seq<Byte>, width: nat): (r: seq<Byte>)
    requires |name| <= width
    ensures |r| == width
  {
    name + Fill<Byte>(width - |name|, 32)
  }

  lemma {:induction false} TakeNameStops(name: seq<Byte>, rest: seq<Byte>)
    requires 0 !in name && 32 !in name && (rest == [] || rest[0] == 0 || rest[0] == 32)
    ensures TakeName(name + rest) == name
    decreases |name|
  {
    if name == [] {
      assert name + rest == rest;
    } else {
      assert (name + rest)[1..] == name[1..] + rest;
      TakeNameStops(name[1..], rest);
    }
  }

  /** Extraction undoes padding exactly for names that hold neither spaces nor NULs. */
  lemma UnpadIff(name: seq<Byte>, width: nat)
    requires |name| <= width
    ensures TakeName(Padded(name, width)) == name <==> 0 !in name && 32 !in name
  {
    if 0 !in name && 32 !in name {
      TakeNameStops(name, Fill<Byte>(width - |name|, 32));
    }
  }

  /** The copies of name and extension both come back: strncpy meets no early NUL. */
  predicate NamesReturn(e: seq<Byte>)
    requires |e| == 32
  {
    (forall i :: 0 <= i < 7 ==> e[i] != 0) && e[8] != 0 && e[9] != 0
  }

  lemma NamesReturnIff(e: seq<Byte>, filename: seq<Byte>, ext: seq<Byte>)
    requires |e| == 32 && |filename| == 9 && |ext| == 4
    ensures NamesReturn(e)
            <==> (exists passes: nat :: PadPasses(filename, PadStart(e, 8), 8, passes).1 >= 8)
                 && (exists passes: nat :: PadPasses(ext, PadStart(e[8..], 3), 3, passes).1 >= 3)
  {
    StrNCpyReturnsIff(e, filename, 8);
    StrNCpyReturnsIff(e[8..], ext, 3);
    assert (forall i :: 0 <= i < 2 ==> e[8..][i] != 0) <==> e[8..][0] != 0 && e[8..][1] != 0;
  }

  function Blanked(s: seq<Byte>): (r: seq<Byte>)
    ensures |r| == |s| && forall i :: 0 <= i < |s| ==> r[i] == if s[i] == 32 then 0 else s[i]
  {
    seq(|s|, i requires 0 <= i < |s| => if s[i] == 32 then 0 else s[i])
  }

  lemma BlankedIsName(s: seq<Byte>)
    ensures Terminated(Blanked(s) + [0]) && CStr(Blanked(s) + [0]) == TakeName(s)
  {
    var b, n := Blanked(s) + [0], |TakeName(s)|;
    forall i | 0 <= i < n ensures b[..n][i] == TakeName(s)[i] {
      assert TakeName(s)[i] == s[i];
    }
    assert b[..n] == TakeName(s);
    CStrIs(b, n);
  }

  /** Copies one padded field and cuts it at its spaces. */
  method ExtractField(dst: array<Byte>, src: seq<Byte>, n: nat)
    requires n > 0 && dst.Length == n + 1 && n < |src| && forall i :: 0 <= i < n - 1 ==> src[i] != 0
    modifies dst
    ensures dst[..] == Blanked(src[..n]) + [0]
    ensures Terminated(dst[..]) && CStr(dst[..]) == TakeName(src[..n])
  {
    StrNCpy(dst, src, n);
    dst[n] := 0;
    assert forall j :: 0 <= j < n ==> dst[j] == src[j];
    for i := 0 to n
      invariant dst[n] == 0
      invariant forall j :: 0 <= j < n ==> dst[j] == if j < i && src[j] == 32 then 0 else src[j]
    {
      if dst[i] == 32 {
        dst[i] := 0;
      }
    }
    assert dst[..] == Blanked(src[..n]) + [0];
    BlankedIsName(src[..n]);
  }

  method ExtractFileName(e: seq<Byte>, filename: array<Byte>, ext: array<Byte>)
    requires |e| == 32 && filename.Length == 9 && ext.Length == 4 && filename != ext && NamesReturn(e)
    modifies filename, ext
    ensures Terminated(filename[..]) && CStr(filename[..]) == BaseName(e)
    ensures Terminated(ext[..]) && CStr(ext[..]) == Extension(e)
  {
    ExtractField(filename, e, 8);
    ExtractField(ext, e[8..], 3);
    assert e[8..][..3] == e[8..11];
  }

  // ---------- the directory on disk ----------

  /** No root sector is the last of its track, and the directory lies on the disk. */
  predicate RootReadable(v: Volume) {
    && v.pos.rootStart % 512 == 0
    && v.pos.rootStart + 32 * v.bpb.rootEntries <= 1474560
    && forall l :: v.pos.rootStart / 512 <= l < (v.pos.rootStart + 32 * v.bpb.rootEntries + 511) / 512 ==> l % 18 != 17
  }

  lemma RootEntryExact(v: Volume, i: nat)
    requires RootReadable(v) && i < v.bpb.rootEntries
    ensures ExactRequest(v.pos.rootStart + 32 * i, 32)
  {
    var p := v.pos.rootStart + 32 * i;
    assert p / 512 % 18 != 17;
    assert SectorCount(32) == 1 && p % 32 == 0;
  }

  /** That is what it takes for every entry to be read right. */
  lemma RootReadableIff(v: Volume)
    requires v.pos.rootStart % 512 == 0 && v.pos.rootStart + 32 * v.bpb.rootEntries <= 1474560
    ensures RootReadable(v) <==> forall i: nat :: i < v.bpb.rootEntries ==> ExactRequest(v.pos.rootStart + 32 * i, 32)
  {
    if RootReadable(v) {
      forall i: nat | i < v.bpb.rootEntries ensures ExactRequest(v.pos.rootStart + 32 * i, 32) { RootEntryExact(v, i); }
    } else {
      var l :| v.pos.rootStart / 512 <= l < (v.pos.rootStart + 32 * v.bpb.rootEntries + 511) / 512 && l % 18 == 17;
      var i: nat := 16 * (l - v.pos.rootStart / 512);
      assert v.pos.rootStart + 32 * i == 512 * l && 512 * l / 512 == l;
      assert !ExactRequest(v.pos.rootStart + 32 * i, 32);
    }
  }

  function RootEntry(disk: Disk, v: Volume, i: nat): (r: seq<Byte>)
    requires v.pos.rootStart + 32 * v.bpb.rootEntries <= 1474560 && i < v.bpb.rootEntries
    ensures |r| == 32
  {
    disk[v.pos.rootStart + 32 * i..v.pos.rootStart + 32 * i + 32]
  }

  predicate Entries(es: seq<seq<Byte>>) {
    forall i :: 0 <= i < |es| ==> |es[i]| == 32
  }

  function RootEntries(disk: Disk, v: Volume): (r: seq<seq<Byte>>)
    requires v.pos.rootStart + 32 * v.bpb.rootEntries <= 1474560
    ensures |r| == v.bpb.rootEntries && Entries(r)
    ensures forall i :: 0 <= i < |r| ==> r[i] == RootEntry(disk, v, i)
  {
    seq(v.bpb.rootEntries, i requires 0 <= i < v.bpb.rootEntries => RootEntry(disk, v, i))
  }

  /** Every file's name can be extracted. */
  predicate AllNamesReturn(es: seq<seq<Byte>>)
    requires Entries(es)
  {
    forall i :: 0 <= i < |es| ==> TypeOf(es[i]) == File ==> NamesReturn(es[i])
  }

  // ---------- listing ----------

  datatype Stamp = Stamp(year: Word, month: Byte, day: Byte, hours: Byte, minutes: Byte, seconds: Byte)

  datatype FileRecord = FileRecord(name: seq<Byte>, ext: seq<Byte>, dir: bool, readOnly: bool, size: Dword, modified: Stamp)
  {
    predicate Short() { |name| <= 8 && |ext| <= 3 }
  }

  /** The masks and shifts on the two packed words. */
  function StampOf(time: Word, date: Word): Stamp {
    Stamp(date / 0x200 + 1980, date / 0x20 % 0x10, date % 0x20, time / 0x800, time / 0x20 % 0x40, time % 0x20 * 2)
  }

  function Record(e: seq<Byte>): (r: FileRecord)
    requires |e| == 32
    ensures r.Short()
  {
    FileRecord(BaseName(e), Extension(e), Bit(e[11], 0x10), Bit(e[11], 0x01), Le32(e, 28), StampOf(Le16(e, 22), Le16(e, 24)))
  }

  /** The files among the entries, in disk order. */
  function Files(es: seq<seq<Byte>>): (r: seq<FileRecord>)
    requires Entries(es)
    ensures |r| <= |es| && forall k :: 0 <= k < |r| ==> r[k].Short()
  {
    if es == [] then []
    else if TypeOf(es[0]) == File then [Record(es[0])] + Files(es[1..])
    else Files(es[1..])
  }

  /** The listing loop: skips whatever is not a file and stops when the buffer is full or the
      entries run out. */
  function Listing(es: seq<seq<Byte>>, capacity: nat): (r: seq<FileRecord>)
    requires Entries(es)
    ensures |r| <= capacity && forall k :: 0 <= k < |r| ==> r[k].Short()
  {
    if capacity == 0 || es == [] then []
    else if TypeOf(es[0]) != File then Listing(es[1..], capacity)
    else [Record(es[0])] + Listing(es[1..], capacity - 1)
  }

  function Min(a: nat, b: nat): nat { if a <= b then a else b }

  /** A listing is the first files in disk order, as many as fit; an end mark does not stop it. */
  lemma {:induction false} ListingIsFirstFiles(es: seq<seq<Byte>>, capacity: nat)
    requires Entries(es)
    ensures Listing(es, capacity) == Files(es)[..Min(capacity, |Files(es)|)]
    decreases |es|
  {
    if capacity > 0 && es != [] {
      if TypeOf(es[0]) != File {
        ListingIsFirstFiles(es[1..], capacity);
      } else {
        ListingIsFirstFiles(es[1..], capacity - 1);
      }
    }
  }

  lemma {:induction false} FilesOfConcat(a: seq<seq<Byte>>, b: seq<seq<Byte>>)
    requires Entries(a) && Entries(b)
    ensures Entries(a + b) && Files(a + b) == Files(a) + Files(b)
  {
    if a == [] {
      assert a + b == b;
    } else {
      assert (a + b)[1..] == a[1..] + b;
      FilesOfConcat(a[1..], b);
    }
  }

  /** The first `m` entries are those before the first end mark. */
  predicate FirstEnd(es: seq<seq<Byte>>, m: nat)
    requires Entries(es)
  {
    m < |es| && TypeOf(es[m]) == NoEntry && forall j :: 0 <= j < m ==> TypeOf(es[j]) != NoEntry
  }

  /** A listing agrees with the format, for which the directory ends at the first end mark,
      exactly when the buffer is full by then or no file comes after the mark. */
  lemma ListingEndsAtMarkIff(es: seq<seq<Byte>>, m: nat, capacity: nat)
    requires Entries(es) && FirstEnd(es, m)
    ensures Listing(es, capacity) == Listing(es[..m], capacity)
            <==> capacity <= |Files(es[..m])| || Files(es[m + 1..]) == []
  {
    var before, after := es[..m], es[m + 1..];
    FilesOfConcat(before, [es[m]] + after);
    assert es == before + ([es[m]] + after);
    assert ([es[m]] + after)[1..] == after;
    assert Files(es) == Files(before) + Files(after);
    ListingIsFirstFiles(es, capacity);
    ListingIsFirstFiles(before, capacity);
    if capacity > |Files(before)| && Files(after) != [] {
      assert |Listing(es, capacity)| > |Files(before)|;
    }
  }

  /** An end mark with a file after it: the listing shows the file. */
  lemma FilesAfterMarkAreListed()
    ensures var es := [Fill<Byte>(32, 0), [65] + Fill<Byte>(31, 0)];
            Entries(es) && FirstEnd(es, 0) && |Listing(es, 1)| == 1 && Listing(es[..0], 1) == []
  {
    var es := [Fill<Byte>(32, 0), [65] + Fill<Byte>(31, 0)];
    assert TypeOf(es[0]) == NoEntry && TypeOf(es[1]) == File;
    assert Listing(es, 1) == Listing(es[1..], 1) && es[1..][0] == es[1];
  }

  // ---------- lookup ----------

  predicate Matches(e: seq<Byte>, name: seq<Byte>)
    requires |e| == 32
  {
    TypeOf(e) == File && BaseName(e) == name
  }

  /** The first matching entry from index `i` on. */
  function FirstMatch(es: seq<seq<Byte>>, name: seq<Byte>, i: nat): (r: Option<nat>)
    requires Entries(es) && i <= |es|
    ensures r.None? <==> forall j :: i <= j < |es| ==> !Matches(es[j], name)
    ensures r.Some? ==> i <= r.value < |es| && Matches(es[r.value], name)
                        && forall j :: i <= j < r.value ==> !Matches(es[j], name)
    decreases |es| - i
  {
    if i == |es| then None else if Matches(es[i], name) then Some(i) else FirstMatch(es, name, i + 1)
  }

  /** Every spelling of a request that differs in letter case finds the same entry. */
  lemma LookupIgnoresCase(es: seq<seq<Byte>>, a: seq<Byte>, b: seq<Byte>)
    requires Entries(es) && CaseVariants(a, b)
    ensures FirstMatch(es, Upper(a), 0) == FirstMatch(es, Upper(b), 0)
  {
    UpperIdentifiesIff(a, b);
  }

  /** A name that was found fits the 32-byte name field of the process table. */
  lemma FoundNameIsShort(es: seq<seq<Byte>>, name: seq<Byte>)
    requires Entries(es)
    ensures FirstMatch(es, name, 0).Some? ==> |name| <= 8
  {
  }

  /** Searches the cached directory for a file; `file` is the copied entry. */
  method GetFile(list: array<seq<Byte>>, entries: nat, name: array<Byte>) returns (r: int, file: seq<Byte>)
    requires entries <= list.Length && Terminated(name[..])
    requires Entries(list[..entries]) && AllNamesReturn(list[..entries])
    ensures r == 0 || r == -1
    ensures r == 0 <==> FirstMatch(list[..entries], CStr(name[..]), 0).Some?
    ensures r == 0 ==> file == list[FirstMatch(list[..entries], CStr(name[..]), 0).value]
  {
    var filename, ext := new Byte[9], new Byte[4];
    ghost var want := CStr(name[..]);
    r, file := -1, [];
    for i := 0 to entries
      invariant FirstMatch(list[..entries], want, 0) == FirstMatch(list[..entries], want, i)
      invariant r == -1
    {
      assert list[..entries][i] == list[i];
      if TypeOf(list[i]) == File {
        ExtractFileName(list[i], filename, ext);
        var c := StrCmp(filename, name);
        CompareIsEquality(BaseName(list[i]), want);
        if c == 0 {
          return 0, list[i];
        }
      }
    }
  }
}
