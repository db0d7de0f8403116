/**
 The read-only FAT12 format: section layout, 12-bit table entries and cluster chains, as
 fs.c computes them and as "FAT: General Overview of On-Disk Format" v1.03 defines them.
 */
module Fat12 {
  import opened Bytes
  import opened Floppy

  // ---------- BIOS parameter block and sections ----------

  datatype Bpb = Bpb(sectorSize: Word, sectorsPerCluster: Byte, reserved: Word, fats: Byte, rootEntries: Word, fatSectors: Word)

  function ParseBoot(s: seq<Byte>): Bpb
    requires |s| == 512
  {
    Bpb(Le16(s, 11), s[13], Le16(s, 14), s[16], Le16(s, 17), Le16(s, 22))
  }

  datatype Layout = Layout(fatStart: nat, rootStart: nat, dataStart: nat)

  /** Section starts in bytes, as read_boot_sector computes them. */
  function Sections(b: Bpb): Layout
    requires b.sectorSize != 0
  {
    MulMono(b.sectorSize, 0, b.reserved);
    MulMono(b.sectorSize, 0, b.fatSectors);
    MulMono(b.sectorSize * b.fatSectors, 0, b.fats);
    MulMono(b.sectorSize, 0, b.rootEntries * 32 / b.sectorSize);
    var fat := b.sectorSize * b.reserved;
    var root := fat + b.sectorSize * b.fatSectors * b.fats;
    Layout(fat, root, root + b.sectorSize * (b.rootEntries * 32 / b.sectorSize))
  }

  /** The three positions are kept in 32-bit variables. */
  function Stored32(l: Layout): Layout {
    Layout(l.fatStart % 0x1_0000_0000, l.rootStart % 0x1_0000_0000, l.dataStart % 0x1_0000_0000)
  }

  /** "FAT Data Structure" in bytes: first the reserved sectors, then all the FATs, then the root
      directory, cut down to whole sectors. */
  lemma SectionsAreStandard(b: Bpb)
    requires b.sectorSize != 0
    ensures Sections(b).fatStart == b.sectorSize * b.reserved
    ensures Sections(b).rootStart == b.sectorSize * (b.reserved + b.fats * b.fatSectors)
    ensures Sections(b).dataStart == b.sectorSize * (b.reserved + b.fats * b.fatSectors + b.rootEntries * 32 / b.sectorSize)
  {
    var u := b.rootEntries * 32 / b.sectorSize;
    SectionSum(b.sectorSize, b.reserved, b.fats, b.fatSectors, 0);
    SectionSum(b.sectorSize, b.reserved, b.fats, b.fatSectors, u);
  }

  /** "FAT Data Structure": the root directory's sector count is rounded up. */
  function StandardDataStart(b: Bpb): int
    requires b.sectorSize != 0
  {
    var rootDirSectors := (b.rootEntries * 32 + (b.sectorSize - 1)) / b.sectorSize;
    b.sectorSize * (b.reserved + b.fats * b.fatSectors + rootDirSectors)
  }

  lemma RoundUpEqualsFloorIff(a: nat, m: nat)
    requires m > 0
    ensures (a + (m - 1)) / m == a / m <==> a % m == 0
  {
    var q, r := a / m, a % m;
    assert a == m * q + r;
    if r == 0 {
      DivUnique(a + (m - 1), m, q, m - 1);
    } else {
      assert m * (q + 1) == m * q + m;
      DivUnique(a + (m - 1), m, q + 1, r - 1);
    }
  }

  /** The code rounds down, so its data section is the standard one exactly when the root
      directory fills whole sectors. */
  lemma DataStartIsStandardIff(b: Bpb)
    requires b.sectorSize != 0
    ensures Sections(b).dataStart == StandardDataStart(b) <==> b.rootEntries * 32 % b.sectorSize == 0
  {
    var s, floor := b.sectorSize, b.rootEntries * 32 / b.sectorSize;
    var up := (b.rootEntries * 32 + (s - 1)) / s;
    RoundUpEqualsFloorIff(b.rootEntries * 32, s);
    assert s * (b.reserved + b.fats * b.fatSectors + up) == s * b.reserved + s * b.fatSectors * b.fats + s * up by {
      SectionSum(s, b.reserved, b.fats, b.fatSectors, up);
    }
    if up != floor { DifferentMultiples(s, up, floor); }
  }

  lemma SectionSum(s: nat, a: nat, f: nat, z: nat, u: nat)
    ensures s * (a + f * z + u) == s * a + s * z * f + s * u
  {
    assert s * (f * z) == s * z * f;
    assert s * (a + f * z + u) == s * a + s * (f * z) + s * u;
  }

  lemma DifferentMultiples(s: nat, x: int, y: int)
    requires s > 0 && x != y
    ensures s * x != s * y
  {
    if x < y { MulMono(s, x + 1, y); assert s * (x + 1) == s * x + s; }
    else { MulMono(s, y + 1, x); assert s * (y + 1) == s * y + s; }
  }

  // ---------- 12-bit entries ----------

  type Entry = e: int | 0 <= e < 0x1000

  /** "FAT Type Determination": two entries share three bytes. */
  function PackPair(a: Entry, b: Entry): (r: seq<Byte>)
    ensures |r| == 3
  {
    [a % 0x100, a / 0x100 + 0x10 * (b % 0x10), b / 0x10]
  }

  function Pack(t: seq<Entry>): (r: seq<Byte>)
    ensures |r| == (3 * |t| + 1) / 2
  {
    if |t| == 0 then []
    else if |t| == 1 then PackPair(t[0], 0)[..2]
    else PackPair(t[0], t[1]) + Pack(t[2..])
  }

  /** The masking and shifting get_next_cluster applies to the two bytes it read. */
  function Unpack(c: nat, low: Byte, high: Byte): Entry {
    if c % 2 == 1 then (low as int + 0x100 * high as int) / 0x10 else (low as int + 0x100 * high as int) % 0x1000
  }

  /** Byte offset of entry `c`. */
  function EntryOffset(c: nat): nat { c + c / 2 }

  /** Entry `c` of a table stored from `fat[0]` on. */
  function EntryAt(fat: seq<Byte>, c: nat): Entry
    requires EntryOffset(c) + 1 < |fat|
  {
    Unpack(c, fat[EntryOffset(c)], fat[EntryOffset(c) + 1])
  }

  /** Both entries unpack from their shared triple. */
  lemma UnpackPair(a: Entry, b: Entry)
    ensures Unpack(0, PackPair(a, b)[0], PackPair(a, b)[1]) == a
    ensures Unpack(1, PackPair(a, b)[1], PackPair(a, b)[2]) == b
  {
    var low, high := b % 0x10, b / 0x10;
    assert b == low + 0x10 * high && a == a % 0x100 + 0x100 * (a / 0x100);
    assert a % 0x100 + 0x100 * (a / 0x100 + 0x10 * low) == a + 0x1000 * low;
    assert a / 0x100 + 0x10 * low + 0x100 * high == a / 0x100 + 0x10 * b;
  }

  lemma FirstEntry(t: seq<Entry>)
    requires |t| > 0
    ensures |Pack(t)| > 1 && EntryAt(Pack(t), 0) == t[0]
  {
    var pair := PackPair(t[0], if |t| == 1 then 0 else t[1]);
    assert Pack(t)[0] == pair[0] && Pack(t)[1] == pair[1];
    UnpackPair(t[0], if |t| == 1 then 0 else t[1]);
  }

  lemma SecondEntry(t: seq<Entry>)
    requires |t| > 1
    ensures |Pack(t)| > 2 && EntryAt(Pack(t), 1) == t[1]
  {
    UnpackPair(t[0], t[1]);
  }

  lemma {:induction false} PackRoundTrip(t: seq<Entry>, c: nat)
    requires c < |t|
    ensures EntryOffset(c) + 1 < |Pack(t)| && EntryAt(Pack(t), c) == t[c]
  {
    if c == 0 {
      FirstEntry(t);
    } else if c == 1 {
      SecondEntry(t);
    } else {
      PackRoundTrip(t[2..], c - 2);
      var o := EntryOffset(c - 2);
      assert EntryOffset(c) == o + 3;
      var rest := Pack(t[2..]);
      assert Pack(t)[o + 3] == rest[o] && Pack(t)[o + 4] == rest[o + 1];
    }
  }

  /** What get_next_cluster computes: a two-byte read into a zeroed word, then the masking. */
  function NextCluster(disk: Disk, stale: seq<Byte>, fatStart: nat, c: nat): (r: Option<Entry>)
    requires |stale| == 512 && fatStart + EntryOffset(c) < 0x1_0000_0000
  {
    var r := DeviceRead(disk, stale, [0, 0, 0, 0], fatStart + EntryOffset(c), 2);
    if r.None? then None else Some(Unpack(c, r.value[0], r.value[1]))
  }

  /** The entry as the format defines it on the flat image. */
  function DiskEntry(disk: Disk, fatStart: nat, c: nat): Entry
    requires fatStart + EntryOffset(c) + 1 < 1474560
  {
    Unpack(c, disk[fatStart + EntryOffset(c)], disk[fatStart + EntryOffset(c) + 1])
  }

  lemma NextClusterIsDiskEntry(disk: Disk, stale: seq<Byte>, fatStart: nat, c: nat)
    requires |stale| == 512 && fatStart + EntryOffset(c) + 1 < 1474560
    requires ExactRequest(fatStart + EntryOffset(c), 2)
    ensures NextCluster(disk, stale, fatStart, c) == Some(DiskEntry(disk, fatStart, c))
  {
    var p := fatStart + EntryOffset(c);
    ExactRequestReadsSlice(disk, stale, [0, 0, 0, 0], p, 2);
    var r := Overlay([0, 0, 0, 0], 0, disk[p..p + 2]);
    assert r[0] == disk[p] && r[1] == disk[p + 1];
  }

  lemma StraddlingBytes(disk: Disk, stale: seq<Byte>, cursor: Chs, l: nat)
    requires |stale| == 512 && l < 2880 && Denotes(cursor, l)
    ensures ReadAt(disk, stale, [0, 0, 0, 0], cursor, 511, 2) == Some([disk[l * 512 + 511], stale[0], 0, 0])
  {
    FetchIsConsecutive(disk, cursor, 1, l);
    var raw := disk[l * 512..(l + 1) * 512];
    var once := Overlay([0, 0, 0, 0], 0, (raw[..512] + stale)[511..513]);
    assert SectorCount(2) == 1;
    assert Assemble(raw, 1, stale, [0, 0, 0, 0], 0, 2, 511) == once;
    assert once == [disk[l * 512 + 511], stale[0], 0, 0];
  }

  lemma StraddlingRead(disk: Disk, stale: seq<Byte>, p: nat)
    requires |stale| == 512 && p < 1474560 && p % 512 == 511 && (p / 512 + 1) % 18 != 0
    ensures ReadAt(disk, stale, [0, 0, 0, 0], LbaToChs(p / 512, 2, 18), p % 512, 2) == Some([disk[p], stale[0], 0, 0])
  {
    var l := p / 512;
    StartExactIff(l);
    StraddlingBytes(disk, stale, LbaToChs(l, 2, 18), l);
    assert l * 512 + 511 == p;
  }

  /** When the second byte lies in the next sector, it is taken from the stack instead. */
  lemma StraddlingEntry(disk: Disk, stale: seq<Byte>, fatStart: nat, c: nat)
    requires |stale| == 512 && fatStart + EntryOffset(c) + 1 < 1474560
    requires (fatStart + EntryOffset(c)) % 512 == 511 && ((fatStart + EntryOffset(c)) / 512 + 1) % 18 != 0
    ensures NextCluster(disk, stale, fatStart, c) == Some(Unpack(c, disk[fatStart + EntryOffset(c)], stale[0]))
  {
    StraddlingRead(disk, stale, fatStart + EntryOffset(c));
  }

  ghost predicate Stores(disk: Disk, fatStart: nat, t: seq<Entry>) {
    fatStart + |Pack(t)| <= 1474560 && disk[fatStart..fatStart + |Pack(t)|] == Pack(t)
  }

  lemma SectorOffset(fatStart: nat, o: nat)
    requires fatStart % 512 == 0
    ensures (fatStart + o) % 512 == o % 512
    ensures ((fatStart + o) / 512 + 1) % 18 != 0 && o % 512 != 511 ==> ExactRequest(fatStart + o, 2)
  {
    assert SectorCount(2) == 1;
  }

  lemma SharedSectorReadsBack(disk: Disk, stale: seq<Byte>, fatStart: nat, c: nat)
    requires |stale| == 512 && fatStart % 512 == 0 && fatStart + EntryOffset(c) + 1 < 1474560
    requires ((fatStart + EntryOffset(c)) / 512 + 1) % 18 != 0 && EntryOffset(c) % 512 != 511
    ensures NextCluster(disk, stale, fatStart, c) == Some(DiskEntry(disk, fatStart, c))
  {
    SectorOffset(fatStart, EntryOffset(c));
    NextClusterIsDiskEntry(disk, stale, fatStart, c);
  }

  /** Two kernel stacks that make a straddling entry read differently. */
  lemma StraddlingReadsStack(disk: Disk, fatStart: nat, c: nat)
    requires fatStart % 512 == 0 && fatStart + EntryOffset(c) + 1 < 1474560
    requires ((fatStart + EntryOffset(c)) / 512 + 1) % 18 != 0 && EntryOffset(c) % 512 == 511
    ensures NextCluster(disk, Fill<Byte>(512, 0), fatStart, c) != NextCluster(disk, Fill<Byte>(512, 1), fatStart, c)
  {
    SectorOffset(fatStart, EntryOffset(c));
    StraddlingEntry(disk, Fill<Byte>(512, 0), fatStart, c);
    StraddlingEntry(disk, Fill<Byte>(512, 1), fatStart, c);
  }

  /** A two-byte read that starts there, when the other side and the stack hold nothing but `x`. */
  lemma WrongSideRead(disk: Disk, x: Byte, l: nat, off: nat)
    requires l < 2880 && (l + 1) % 18 == 0 && off < 512
    requires forall i :: OtherSide(l) * 512 <= i < OtherSide(l) * 512 + 512 ==> 0 <= i < 1474560 && disk[i] == x
    ensures ReadAt(disk, Fill<Byte>(512, x), [0, 0, 0, 0], LbaToChs(l, 2, 18), off, 2) == Some([x, x, 0, 0])
  {
    StartExactIff(l);
    var c, k := LbaToChs(l, 2, 18), OtherSide(l);
    assert (c.cylinder * 2 + c.head) * 18 + 17 == k;
    var raw := disk[k * 512..k * 512 + 512];
    assert BiosRead(disk, Carry(c)) == Some(raw);
    assert Fetch(disk, c, 1) == Some(raw + []);
    assert raw + [] == raw && SectorCount(2) == 1;
    var behind := raw[..512] + Fill<Byte>(512, x);
    assert forall i :: 0 <= i < 512 ==> raw[i] == disk[k * 512 + i];
    assert behind[off] == x && behind[off + 1] == x;
    var once := Overlay([0, 0, 0, 0], 0, behind[off..off + 2]);
    assert Assemble(raw, 1, Fill<Byte>(512, x), [0, 0, 0, 0], 0, 2, off) == once;
    assert once == [x, x, 0, 0];
  }

  /** A disk that holds the table and `x` everywhere else. */
  function StoredIn(t: seq<Entry>, fatStart: nat, x: Byte): (disk: Disk)
    requires fatStart + |Pack(t)| <= 1474560
    ensures Stores(disk, fatStart, t)
    ensures forall i :: 0 <= i < 1474560 && !(fatStart <= i < fatStart + |Pack(t)|) ==> disk[i] == x
  {
    Overlay(Fill<Byte>(1474560, x), fatStart, Pack(t))
  }

  /** A table that fits a track and reaches the end of one leaves the other side free. */
  lemma OtherSideIsFree(fatStart: nat, size: nat, p: nat)
    requires fatStart % 512 == 0 && size <= 18 * 512 && fatStart <= p < fatStart + size <= 1474560 && (p / 512 + 1) % 18 == 0
    ensures 0 <= OtherSide(p / 512) < 2880
    ensures (OtherSide(p / 512) + 1) * 512 <= fatStart || fatStart + size <= OtherSide(p / 512) * 512
  {
    var f, l := fatStart / 512, p / 512;
    assert fatStart == f * 512 && f <= l < f + 18 && l < 2880;
    var t := l / 18;
    assert l == 18 * t + 17 && t < 160;
  }

  /** An entry whose sector ends a track is read from the other side: all zeros or all ones
      there, whatever the table says. */
  lemma WrongSideEntry(t: seq<Entry>, fatStart: nat, c: nat, x: Byte)
    requires c < |t| && fatStart % 512 == 0 && fatStart + |Pack(t)| <= 1474560 && |Pack(t)| <= 18 * 512
    requires EntryOffset(c) < |Pack(t)| && ((fatStart + EntryOffset(c)) / 512 + 1) % 18 == 0
    ensures NextCluster(StoredIn(t, fatStart, x), Fill<Byte>(512, x), fatStart, c) == Some(Unpack(c, x, x))
  {
    var p := fatStart + EntryOffset(c);
    OtherSideIsFree(fatStart, |Pack(t)|, p);
    WrongSideRead(StoredIn(t, fatStart, x), x, p / 512, p % 512);
  }

  /** An entry can be read back: its bytes share a sector, and that sector does not end a track. */
  predicate EntryReadable(fatStart: nat, c: nat) {
    EntryOffset(c) % 512 != 511 && ((fatStart + EntryOffset(c)) / 512 + 1) % 18 != 0
  }

  lemma ReadableEntry(t: seq<Entry>, fatStart: nat, c: nat, disk: Disk, stale: seq<Byte>)
    requires c < |t| && fatStart % 512 == 0 && |stale| == 512 && Stores(disk, fatStart, t) && EntryReadable(fatStart, c)
    ensures fatStart + EntryOffset(c) < 0x1_0000_0000 && NextCluster(disk, stale, fatStart, c) == Some(t[c])
  {
    StoredEntry(disk, t, fatStart, c);
    SharedSectorReadsBack(disk, stale, fatStart, c);
  }

  /** The loader cannot take `got` for entry `want`, nor for an end-of-file mark that `want` is. */
  predicate Misread(got: Option<Entry>, want: Entry) {
    got != Some(want) && (want >= 0xFF8 ==> got.None? || got.value < 0xFF8)
  }

  lemma OtherUnpacks(c: nat, want: Entry)
    ensures Misread(Some(Unpack(c, 0, 0)), want) || Misread(Some(Unpack(c, 0xFF, 0xFF)), want)
  {
  }

  lemma WrongSideMisread(t: seq<Entry>, fatStart: nat, c: nat) returns (x: Byte)
    requires c < |t| && fatStart % 512 == 0 && fatStart + |Pack(t)| <= 1474560 && |Pack(t)| <= 18 * 512
    requires EntryOffset(c) < |Pack(t)| && ((fatStart + EntryOffset(c)) / 512 + 1) % 18 == 0
    ensures Misread(NextCluster(StoredIn(t, fatStart, x), Fill<Byte>(512, x), fatStart, c), t[c])
  {
    OtherUnpacks(c, t[c]);
    x := if Misread(Some(Unpack(c, 0, 0)), t[c]) then 0 else 0xFF;
    WrongSideEntry(t, fatStart, c, x);
  }

  lemma StraddlingMisread(disk: Disk, t: seq<Entry>, fatStart: nat, c: nat) returns (stale: seq<Byte>)
    requires c < |t| && fatStart % 512 == 0 && Stores(disk, fatStart, t)
    requires EntryOffset(c) % 512 == 511 && ((fatStart + EntryOffset(c)) / 512 + 1) % 18 != 0
    ensures |stale| == 512 && fatStart + EntryOffset(c) < 0x1_0000_0000
    ensures Misread(NextCluster(disk, stale, fatStart, c), t[c])
  {
    StoredEntry(disk, t, fatStart, c);
    StraddlingReadsStack(disk, fatStart, c);
    stale := if NextCluster(disk, Fill<Byte>(512, 0), fatStart, c) == Some(t[c]) then Fill<Byte>(512, 1) else Fill<Byte>(512, 0);
    SectorOffset(fatStart, EntryOffset(c));
    StraddlingEntry(disk, stale, fatStart, c);
    SmallHigh(c, disk[fatStart + EntryOffset(c)], stale[0]);
  }

  lemma UnreadableEntry(t: seq<Entry>, fatStart: nat, c: nat) returns (disk: Disk, stale: seq<Byte>)
    requires c < |t| && fatStart % 512 == 0 && fatStart + |Pack(t)| <= 1474560 && |Pack(t)| <= 18 * 512
    requires !EntryReadable(fatStart, c)
    ensures |stale| == 512 && Stores(disk, fatStart, t) && fatStart + EntryOffset(c) < 0x1_0000_0000
    ensures Misread(NextCluster(disk, stale, fatStart, c), t[c])
  {
    PackRoundTrip(t, c);
    if ((fatStart + EntryOffset(c)) / 512 + 1) % 18 == 0 {
      var x := WrongSideMisread(t, fatStart, c);
      disk, stale := StoredIn(t, fatStart, x), Fill<Byte>(512, x);
    } else {
      disk := StoredIn(t, fatStart, 0);
      stale := StraddlingMisread(disk, t, fatStart, c);
    }
  }

  lemma SmallHigh(c: nat, low: Byte, high: Byte)
    requires high <= 1
    ensures Unpack(c, low, high) < 0x200
  {
  }

  /** On a FAT that starts on a sector boundary and fits a track, entry `c` is read back from
      every volume that stores the table, whatever lies on the stack, if and only if its bytes
      share a sector and that sector does not end a track. */
  lemma NextClusterRoundTripIff(t: seq<Entry>, fatStart: nat, c: nat)
    requires c < |t| && fatStart % 512 == 0 && fatStart + |Pack(t)| <= 1474560 && |Pack(t)| <= 18 * 512
    ensures fatStart + EntryOffset(c) < 0x1_0000_0000
    ensures EntryReadable(fatStart, c) <==>
            forall disk: Disk, stale: seq<Byte> | |stale| == 512 && Stores(disk, fatStart, t) ::
              NextCluster(disk, stale, fatStart, c) == Some(t[c])
  {
    PackRoundTrip(t, c);
    if EntryReadable(fatStart, c) {
      forall disk: Disk, stale: seq<Byte> | |stale| == 512 && Stores(disk, fatStart, t)
        ensures NextCluster(disk, stale, fatStart, c) == Some(t[c])
      {
        ReadableEntry(t, fatStart, c, disk, stale);
      }
    } else {
      var disk, stale := UnreadableEntry(t, fatStart, c);
    }
  }

  lemma StoredEntry(disk: Disk, t: seq<Entry>, fatStart: nat, c: nat)
    requires c < |t| && fatStart + |Pack(t)| <= 1474560 && disk[fatStart..fatStart + |Pack(t)|] == Pack(t)
    ensures fatStart + EntryOffset(c) + 1 < 1474560 && DiskEntry(disk, fatStart, c) == t[c]
  {
    PackRoundTrip(t, c);
    var fat := disk[fatStart..fatStart + |Pack(t)|];
    assert fat[EntryOffset(c)] == disk[fatStart + EntryOffset(c)];
    assert fat[EntryOffset(c) + 1] == disk[fatStart + EntryOffset(c) + 1];
  }

  // ---------- clusters ----------

  /** Byte position of cluster `n`, clusters being numbered from 2. */
  function ClusterStart(dataStart: nat, size: nat, n: nat): int {
    dataStart + size * (n - 2)
  }

  /** A cluster read is a flat slice exactly when its first sector is not the last of a track. */
  lemma ClusterExactIff(dataSector: nat, spc: nat, n: nat)
    requires n >= 2 && spc > 0
    ensures ClusterStart(512 * dataSector, 512 * spc, n) == 512 * (dataSector + spc * (n - 2))
    ensures ExactRequest(512 * (dataSector + spc * (n - 2)), 512 * spc)
            <==> (dataSector + spc * (n - 2) + 1) % 18 != 0
  {
    assert 512 * spc * (n - 2) == 512 * (spc * (n - 2));
    var l := dataSector + spc * (n - 2);
    assert 512 * l / 512 == l && 512 * l % 512 == 0;
    assert SectorCount(512 * spc) == spc;
  }

  /** An even data section with an even cluster size never starts a cluster on sector 18. */
  lemma EvenClustersAreExact(dataSector: nat, spc: nat, n: nat)
    requires n >= 2 && spc > 0 && dataSector % 2 == 0 && spc % 2 == 0
    ensures ExactRequest(512 * (dataSector + spc * (n - 2)), 512 * spc)
  {
    ClusterExactIff(dataSector, spc, n);
    assert spc * (n - 2) == 2 * ((spc / 2) * (n - 2));
  }

  /** Cluster `n` of eight sectors can be read exactly. */
  predicate ReadableCluster(dataSector: nat, n: nat)
    requires n >= 2
  {
    ExactRequest(512 * (dataSector + 8 * (n - 2)), 4096)
  }

  lemma ReadableClusterIff(dataSector: nat, n: nat)
    requires n >= 2
    ensures ReadableCluster(dataSector, n) <==> (dataSector + 8 * (n - 2) + 1) % 18 != 0
  {
    ClusterExactIff(dataSector, 8, n);
  }

  lemma UnreadableAmongNine(dataSector: nat, first: nat) returns (n: nat)
    requires first >= 2 && dataSector % 2 == 1
    ensures first <= n < first + 9 && !ReadableCluster(dataSector, n)
  {
    var l := dataSector + 8 * (first - 2);
    BadStepFromAny(l);
    n := first + BadStep(l % 18);
    ReadableClusterIff(dataSector, n);
  }

  /** With the 8-sector clusters the images are built with, an odd data section makes one of
      every nine consecutive clusters unreadable, and an even one makes none. */
  lemma EightSectorClustersExactIff(dataSector: nat, first: nat)
    requires first >= 2
    ensures dataSector % 2 == 0 <==> forall n :: first <= n < first + 9 ==> ReadableCluster(dataSector, n)
  {
    if dataSector % 2 == 0 {
      forall n | first <= n < first + 9 ensures ReadableCluster(dataSector, n) {
        EvenClustersAreExact(dataSector, 8, n);
      }
    } else {
      var n := UnreadableAmongNine(dataSector, first);
    }
  }

  /** How many 8-sector clusters past block residue `r` the next bad start lies. */
  function BadStep(r: nat): (k: nat)
    requires r < 18 && r % 2 == 1
    ensures k < 9 && (r + 8 * k + 1) % 18 == 0
  {
    if r == 17 then 0 else if r == 9 then 1 else if r == 1 then 2 else if r == 11 then 3 else if r == 3 then 4
    else if r == 13 then 5 else if r == 5 then 6 else if r == 15 then 7 else 8
  }

  lemma BadStepFromAny(l: nat)
    requires l % 2 == 1
    ensures l % 18 % 2 == 1 && (l + 8 * BadStep(l % 18) + 1) % 18 == 0
  {
    var q, r := l / 18, l % 18;
    assert l == 18 * q + r && r % 2 == 1;
    var d := (r + 8 * BadStep(r) + 1) / 18;
    assert l + 8 * BadStep(r) + 1 == 18 * (q + d);
  }

  /** A volume with one reserved sector, one two-sector FAT, 224 root entries and 8-sector
      clusters has its data at sector 17: the first cluster already starts badly. */
  lemma FirstClusterOfCommonLayout()
    ensures var v := Bpb(512, 8, 1, 1, 224, 2);
            Sections(v).dataStart == 512 * 17 && !ExactRequest(ClusterStart(Sections(v).dataStart, 4096, 2), 4096)
  {
  }
}
