/**
 Boot sectors and directory entries as "FAT: General Overview of On-Disk Format" lays them out,
 field after field, and what the code gets out of them.
 */
module Layouts {
  import opened Bytes
  import opened CString
  import opened Fat12
  import opened Directory

  // ---------- the boot sector ----------

  /** "Boot Sector and BPB Structure": everything up to BPB_FATSz16, and the rest of the sector. */
  datatype BootSector = BootSector(jump: seq<Byte>, oem: seq<Byte>, bpb: Bpb, totalSectors: Word, media: Byte, rest: seq<Byte>)
  {
    predicate Valid() { |jump| == 3 && |oem| == 8 && |rest| == 488 }
  }

  function LaidBoot(b: BootSector): (s: seq<Byte>)
    requires b.Valid()
    ensures |s| == 512
  {
    b.jump + b.oem
    + Bytes16(b.bpb.sectorSize) + [b.bpb.sectorsPerCluster] + Bytes16(b.bpb.reserved) + [b.bpb.fats]
    + Bytes16(b.bpb.rootEntries) + Bytes16(b.totalSectors) + [b.media] + Bytes16(b.bpb.fatSectors)
    + b.rest
  }

  /** Whatever else the sector holds, its six fields are parsed. */
  lemma BootSectorIsParsed(b: BootSector)
    requires b.Valid()
    ensures ParseBoot(LaidBoot(b)) == b.bpb
  {
    var s := LaidBoot(b);
    assert s[11..13] == Bytes16(b.bpb.sectorSize);
    assert s[14..16] == Bytes16(b.bpb.reserved);
    assert s[17..19] == Bytes16(b.bpb.rootEntries);
    assert s[22..24] == Bytes16(b.bpb.fatSectors);
    ReadsBack16(s, 11, b.bpb.sectorSize);
    ReadsBack16(s, 14, b.bpb.reserved);
    ReadsBack16(s, 17, b.bpb.rootEntries);
    ReadsBack16(s, 22, b.bpb.fatSectors);
  }

  // ---------- directory entries ----------

  datatype Attribute = ReadOnly | Hidden | SystemFile | VolumeId | SubDirectory | Archive

  function Flag(a: Attribute, weight: nat, s: set<Attribute>): nat { if a in s then weight else 0 }

  /** The attribute byte; its two highest bits are reserved. */
  function AttributeByte(s: set<Attribute>, spare: nat): Byte
    requires spare < 4
  {
    Flag(ReadOnly, 0x01, s) + Flag(Hidden, 0x02, s) + Flag(SystemFile, 0x04, s) + Flag(VolumeId, 0x08, s)
    + Flag(SubDirectory, 0x10, s) + Flag(Archive, 0x20, s) + 0x40 * spare
  }

  /** "FAT Directory Structure": the fields of a 32-byte entry, in order. */
  datatype Entry32 = Entry32(name: seq<Byte>, ext: seq<Byte>, attributes: set<Attribute>, spare: nat, reserved: seq<Byte>,
                             time: Word, date: Word, cluster: Word, size: Dword)
  {
    predicate Valid() { |name| == 8 && |ext| == 3 && spare < 4 && |reserved| == 10 }

    /** The last part of a long name, the only kind of part the code looks for. */
    predicate LongName()
      requires Valid()
    {
      && attributes == {ReadOnly, Hidden, SystemFile, VolumeId} && spare == 0 && cluster == 0 && reserved[0] == 0
      && name[0] % 2 == 1 && name[0] % 0x80 >= 0x40
    }

    predicate IsFile()
      requires Valid()
    {
      name[0] != 0xE5 && name[0] != 0 && VolumeId !in attributes
    }
  }

  function LaidEntry(f: Entry32): (e: seq<Byte>)
    requires f.Valid()
    ensures |e| == 32
  {
    f.name + f.ext + [AttributeByte(f.attributes, f.spare)] + f.reserved
    + Bytes16(f.time) + Bytes16(f.date) + Bytes16(f.cluster) + Bytes32(f.size)
  }

  lemma FieldsOfEntry(f: Entry32)
    requires f.Valid()
    ensures var e := LaidEntry(f);
            && e[..8] == f.name && e[8..11] == f.ext && e[11] == AttributeByte(f.attributes, f.spare) && e[12..22] == f.reserved
            && Le16(e, 22) == f.time && Le16(e, 24) == f.date && Le16(e, 26) == f.cluster && Le32(e, 28) == f.size
  {
    var e := LaidEntry(f);
    var head, tail := f.name + f.ext + [AttributeByte(f.attributes, f.spare)] + f.reserved,
                      Bytes16(f.time) + Bytes16(f.date) + Bytes16(f.cluster) + Bytes32(f.size);
    assert e == head + tail && |head| == 22;
    assert tail[..2] == Bytes16(f.time) && tail[2..4] == Bytes16(f.date);
    assert tail[4..6] == Bytes16(f.cluster) && tail[6..10] == Bytes32(f.size);
    assert e[22..24] == tail[..2] && e[24..26] == tail[2..4] && e[26..28] == tail[4..6] && e[28..32] == tail[6..10];
    ReadsBack16(e, 22, f.time);
    ReadsBack16(e, 24, f.date);
    ReadsBack16(e, 26, f.cluster);
    ReadsBack32(e, 28, f.size);
  }

  lemma BitsOfSum(b: Byte, r: nat, h: nat, y: nat, v: nat, d: nat, a: nat, spare: nat)
    requires r < 2 && h < 2 && y < 2 && v < 2 && d < 2 && a < 2 && b == r + 2 * h + 4 * y + 8 * v + 0x10 * d + 0x20 * a + 0x40 * spare
    ensures b % 2 == r && b / 2 % 2 == h && b / 4 % 2 == y && b / 8 % 2 == v && b / 0x10 % 2 == d && b / 0x20 % 2 == a && b / 0x40 == spare
  {
    assert b / 2 == h + 2 * y + 4 * v + 8 * d + 0x10 * a + 0x20 * spare;
    assert b / 4 == y + 2 * v + 4 * d + 8 * a + 0x10 * spare;
    assert b / 8 == v + 2 * d + 4 * a + 8 * spare;
    assert b / 0x10 == d + 2 * a + 4 * spare;
    assert b / 0x20 == a + 2 * spare;
  }

  lemma AttributeBits(s: set<Attribute>, spare: nat)
    requires spare < 4
    ensures var b := AttributeByte(s, spare);
            && (Bit(b, 0x01) <==> ReadOnly in s) && (Bit(b, 0x02) <==> Hidden in s) && (Bit(b, 0x04) <==> SystemFile in s)
            && (Bit(b, 0x08) <==> VolumeId in s) && (Bit(b, 0x10) <==> SubDirectory in s) && (Bit(b, 0x20) <==> Archive in s)
            && b / 0x40 == spare
  {
    BitsOfSum(AttributeByte(s, spare), Flag(ReadOnly, 1, s), Flag(Hidden, 1, s), Flag(SystemFile, 1, s), Flag(VolumeId, 1, s),
              Flag(SubDirectory, 1, s), Flag(Archive, 1, s), spare);
  }

  lemma LongNameByte(s: set<Attribute>, spare: nat)
    requires spare < 4
    ensures AttributeByte(s, spare) == 0x0F <==> s == {ReadOnly, Hidden, SystemFile, VolumeId} && spare == 0
  {
    var b := AttributeByte(s, spare);
    AttributeBits(s, spare);
    if b == 0x0F {
      forall a: Attribute ensures a in s <==> a in {ReadOnly, Hidden, SystemFile, VolumeId} {
        match a
        case ReadOnly =>
        case Hidden =>
        case SystemFile =>
        case VolumeId =>
        case SubDirectory =>
        case Archive =>
      }
    }
  }

  /** How every entry is classified.  A part of a long name other than the last one of an odd
      count is taken for a volume label, which is skipped all the same. */
  lemma TypeOfEntry(f: Entry32)
    requires f.Valid()
    ensures TypeOf(LaidEntry(f)) == Deleted <==> f.name[0] == 0xE5
    ensures TypeOf(LaidEntry(f)) == NoEntry <==> f.name[0] == 0
    ensures TypeOf(LaidEntry(f)) == Vfat <==> f.LongName() && f.name[0] != 0xE5
    ensures TypeOf(LaidEntry(f)) == VolumeLabel <==> f.name[0] != 0xE5 && f.name[0] != 0 && VolumeId in f.attributes && !f.LongName()
    ensures TypeOf(LaidEntry(f)) == File <==> f.IsFile()
  {
    var e := LaidEntry(f);
    FieldsOfEntry(f);
    AttributeBits(f.attributes, f.spare);
    LongNameByte(f.attributes, f.spare);
    assert e[0] == e[..8][0] && e[12] == e[12..22][0];
    OddAndLarge(f.name[0]);
  }

  lemma OddAndLarge(b: Byte)
    ensures Bit(b, 0x40) && Bit(b, 0x01) <==> b % 2 == 1 && b % 0x80 >= 0x40
  {
  }

  /** As mcopy leaves a file and mkfs the label, with nothing but the archive and the volume bit. */
  lemma CopiedFileAndLabel(e: seq<Byte>)
    requires |e| == 32 && e[0] !in {0, 0xE5}
    ensures e[11] == 0x20 ==> TypeOf(e) == File
    ensures e[11] == 0x08 ==> TypeOf(e) == VolumeLabel
  {
  }

  /** The loader starts at the cluster the entry holds. */
  lemma ClusterOfEntry(f: Entry32)
    requires f.Valid()
    ensures StartingCluster(LaidEntry(f)) == f.cluster
  {
    FieldsOfEntry(f);
  }

  /** "FAT Directory Structure", date and time formats. */
  predicate StampFits(t: Stamp) {
    && 1980 <= t.year < 2108 && t.month < 0x10 && t.day < 0x20
    && t.hours < 0x20 && t.minutes < 0x40 && t.seconds < 0x40 && t.seconds % 2 == 0
  }

  function PackedDate(t: Stamp): Word
    requires StampFits(t)
  {
    t.day + 0x20 * t.month + 0x200 * (t.year - 1980)
  }

  function PackedTime(t: Stamp): Word
    requires StampFits(t)
  {
    t.seconds / 2 + 0x20 * t.minutes + 0x800 * t.hours
  }

  lemma StampUnpacks(t: Stamp)
    requires StampFits(t)
    ensures StampOf(PackedTime(t), PackedDate(t)) == t
  {
    assert PackedDate(t) / 0x20 == t.month + 0x10 * (t.year - 1980);
    assert PackedTime(t) / 0x20 == t.minutes + 0x40 * t.hours;
  }

  /** What the listing shows of an entry. */
  function Shown(f: Entry32, t: Stamp): FileRecord {
    FileRecord(TakeName(f.name), TakeName(f.ext), SubDirectory in f.attributes, ReadOnly in f.attributes, f.size, t)
  }

  lemma RecordOfEntry(f: Entry32, t: Stamp)
    requires f.Valid() && StampFits(t) && f.time == PackedTime(t) && f.date == PackedDate(t)
    ensures Record(LaidEntry(f)) == Shown(f, t)
  {
    FieldsOfEntry(f);
    AttributeBits(f.attributes, f.spare);
    StampUnpacks(t);
  }

  /** A request finds a file exactly when the stored base name is the request in upper case. */
  lemma MatchesEntry(f: Entry32, request: seq<Byte>)
    requires f.Valid()
    ensures Matches(LaidEntry(f), request) <==> f.IsFile() && TakeName(f.name) == request
  {
    FieldsOfEntry(f);
    TypeOfEntry(f);
  }

  /** What a request, upper-cased as load does, finds: an entry answers exactly when it is a file's,
      its stored base name holds no lower-case letter and the request spells it in some letter case. */
  lemma RequestFindsIff(f: Entry32, request: seq<Byte>)
    requires f.Valid()
    ensures Matches(LaidEntry(f), Upper(request))
            <==> f.IsFile() && Upper(TakeName(f.name)) == TakeName(f.name) && CaseVariants(TakeName(f.name), request)
  {
    MatchesEntry(f, Upper(request));
    UpperIdentifiesIff(TakeName(f.name), request);
    assert Upper(Upper(request)) == Upper(request);
  }

  // ---------- whole directories ----------

  predicate AllValid(fs: seq<Entry32>) { forall i :: 0 <= i < |fs| ==> fs[i].Valid() }

  function LaidEntries(fs: seq<Entry32>): (es: seq<seq<Byte>>)
    requires AllValid(fs)
    ensures |es| == |fs| && Entries(es) && forall i :: 0 <= i < |fs| ==> es[i] == LaidEntry(fs[i])
  {
    seq(|fs|, i requires 0 <= i < |fs| => LaidEntry(fs[i]))
  }

  /** The records of the entries that are files', in order. */
  function Records(fs: seq<Entry32>): seq<FileRecord>
    requires AllValid(fs)
  {
    if fs == [] then [] else (if fs[0].IsFile() then [Record(LaidEntry(fs[0]))] else []) + Records(fs[1..])
  }

  /** The files of a directory are the entries that are files', each as its record. */
  lemma {:induction false} FilesOfEntries(fs: seq<Entry32>)
    requires AllValid(fs)
    ensures Files(LaidEntries(fs)) == Records(fs)
    decreases |fs|
  {
    if fs != [] {
      FilesOfEntries(fs[1..]);
      TypeOfEntry(fs[0]);
      assert LaidEntries(fs)[1..] == LaidEntries(fs[1..]);
    }
  }

  /** A lookup finds the first file of that base name. */
  lemma FirstMatchOfEntries(fs: seq<Entry32>, name: seq<Byte>, i: nat)
    requires AllValid(fs)
    ensures FirstMatch(LaidEntries(fs), name, 0) == Some(i)
            <==> i < |fs| && fs[i].IsFile() && TakeName(fs[i].name) == name
                 && forall j :: 0 <= j < i ==> !(fs[j].IsFile() && TakeName(fs[j].name) == name)
  {
    forall j | 0 <= j < |fs| ensures Matches(LaidEntries(fs)[j], name) <==> fs[j].IsFile() && TakeName(fs[j].name) == name {
      MatchesEntry(fs[j], name);
    }
  }

  // ---------- every entry ----------

  function Only(a: Attribute, on: bool): set<Attribute> { if on then {a} else {} }

  function FlagsOf(b: Byte): set<Attribute> {
    Only(ReadOnly, Bit(b, 0x01)) + Only(Hidden, Bit(b, 0x02)) + Only(SystemFile, Bit(b, 0x04)) + Only(VolumeId, Bit(b, 0x08))
    + Only(SubDirectory, Bit(b, 0x10)) + Only(Archive, Bit(b, 0x20))
  }

  lemma SumOfBits(b: Byte)
    ensures b == b % 2 + 2 * (b / 2 % 2) + 4 * (b / 4 % 2) + 8 * (b / 8 % 2) + 0x10 * (b / 0x10 % 2) + 0x20 * (b / 0x20 % 2) + 0x40 * (b / 0x40)
  {
    assert b / 2 / 2 == b / 4 && b / 4 / 2 == b / 8 && b / 8 / 2 == b / 0x10;
    assert b / 0x10 / 2 == b / 0x20 && b / 0x20 / 2 == b / 0x40;
  }

  lemma FlagsAgain(b: Byte)
    ensures AttributeByte(FlagsOf(b), b / 0x40) == b
  {
    SumOfBits(b);
    var s := FlagsOf(b);
    assert Flag(ReadOnly, 0x01, s) == b % 2 && Flag(Hidden, 0x02, s) == 2 * (b / 2 % 2) && Flag(SystemFile, 0x04, s) == 4 * (b / 4 % 2);
    assert Flag(VolumeId, 0x08, s) == 8 * (b / 8 % 2) && Flag(SubDirectory, 0x10, s) == 0x10 * (b / 0x10 % 2);
    assert Flag(Archive, 0x20, s) == 0x20 * (b / 0x20 % 2);
  }

  /** Every 32 bytes are an entry, so what is said of entries is said of any directory. */
  lemma EveryEntryIsLaid(e: seq<Byte>) returns (f: Entry32)
    requires |e| == 32
    ensures f.Valid() && LaidEntry(f) == e
  {
    f := Entry32(e[..8], e[8..11], FlagsOf(e[11]), e[11] / 0x40, e[12..22], Le16(e, 22), Le16(e, 24), Le16(e, 26), Le32(e, 28));
    FlagsAgain(e[11]);
    ReadsBack16(e, 22, f.time);
    ReadsBack16(e, 24, f.date);
    ReadsBack16(e, 26, f.cluster);
    ReadsBack32(e, 28, f.size);
    assert e == e[..8] + e[8..11] + [e[11]] + e[12..22] + e[22..24] + e[24..26] + e[26..28] + e[28..32];
  }
}
