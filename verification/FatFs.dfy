/**
 The file system code over the kernel's descriptors: mounting, cluster and table reads, the
 loader, and the root directory.
 */
module FatFs {
  import opened Bytes
  import opened CString
  import opened Floppy
  import opened Descriptors
  import opened KernelIo
  import opened Fat12
  import opened Chains
  import opened Directory
  import opened Layouts

  // ---------- the load half of run_program ----------

  /** Undefined: a drive error halts the kernel, or the walk never ends. */
  datatype LoadResult = NotFound | Undefined | Found(entry: seq<Byte>, image: seq<Byte>)

  /** Looking up `name` among the entries and loading its clusters over `mem`. */
  function LoadFrom(es: seq<seq<Byte>>, next: Followed, read: Contents, name: seq<Byte>, mem: seq<Byte>): (r: LoadResult)
    requires |mem| == 0x1_0000 && Entries(es)
    ensures r.Found? ==> |r.image| == 0x1_0000 && |r.entry| == 32
  {
    match FirstMatch(es, Upper(name), 0)
    case None => NotFound
    case Some(i) =>
      match ChainFrom(next, StartingCluster(es[i]), {})
      case None => Undefined
      case Some(chain) => Found(es[i], Image(read, mem, chain))
  }

  /** What load comes to on a volume, over the segment contents `mem`. */
  function LoadProgram(disk: Disk, stale: seq<Byte>, v: Volume, name: seq<Byte>, mem: seq<Byte>): (r: LoadResult)
    requires |mem| == 0x1_0000 && |stale| == 512 && FitsLoader(v.bpb) && v.pos.rootStart + 32 * v.bpb.rootEntries <= 1474560
    ensures r.Found? ==> |r.image| == 0x1_0000 && |r.entry| == 32
  {
    LoadFrom(RootEntries(disk, v), EntriesOn(disk, stale, v), BlocksOn(disk, stale, v), name, mem)
  }

  /** A request is refused exactly when no file's base name is its upper-cased spelling. */
  lemma NotFoundIff(es: seq<seq<Byte>>, next: Followed, read: Contents, name: seq<Byte>, mem: seq<Byte>)
    requires |mem| == 0x1_0000 && Entries(es)
    ensures LoadFrom(es, next, read, name, mem).NotFound? <==> forall j :: 0 <= j < |es| ==> !Matches(es[j], Upper(name))
  {
  }

  /** Otherwise the lowest-index file of that name is loaded: what the loader's walk from the
      cluster in its entry reads, whole and in order as long as it is at most 16 clusters. */
  lemma LowestMatchIsLoaded(es: seq<seq<Byte>>, next: Followed, read: Contents, name: seq<Byte>, mem: seq<Byte>, i: nat, f: Entry32,
                            chain: seq<nat>)
    requires |mem| == 0x1_0000 && Entries(es) && i < |es| && f.Valid() && es[i] == LaidEntry(f)
    requires f.IsFile() && TakeName(f.name) == Upper(name) && forall j :: 0 <= j < i ==> !Matches(es[j], Upper(name))
    requires IsChain(next, f.cluster, chain) && |chain| <= 16
    ensures LoadFrom(es, next, read, name, mem)
            == Found(LaidEntry(f), Concat(ChainData(read, chain), |chain|) + mem[0x1000 * |chain|..])
  {
    MatchesEntry(f, Upper(name));
    ClusterOfEntry(f);
    assert FirstMatch(es, Upper(name), 0) == Some(i);
    ChainExistsIff(next, f.cluster, chain);
    ImageOfShortChain(read, mem, chain);
  }

  /** lodsw/stosw into another segment, under a loop that counts down from `count / 2`; the
      destination offset is a 16-bit register. */
  method LoadToMemory(mem: array<Byte>, offset: nat, buffer: array<Byte>, count: nat)
    requires mem.Length == 0x1_0000 && mem != buffer && 2 <= count <= buffer.Length && count % 2 == 0
    requires offset % 0x1_0000 + count <= 0x1_0000
    modifies mem
    ensures mem[..] == Overlay(old(mem[..]), offset % 0x1_0000, buffer[..count])
  {
    var cx, si, di := count / 2, 0, offset % 0x1_0000;
    ghost var base := di;
    while cx > 0
      invariant 0 <= cx <= count / 2 && si == count - 2 * cx && (cx > 0 ==> di == base + si)
      invariant forall j :: 0 <= j < 0x1_0000 ==> mem[j] == if base <= j < base + si then buffer[j - base] else old(mem[j])
    {
      mem[di] := buffer[si];
      mem[di + 1] := buffer[si + 1];
      si := si + 2;
      di := (di + 2) % 0x1_0000;
      cx := cx - 1;
    }
  }

  lemma ClusterReadIsData(disk: Disk, stale: seq<Byte>, v: Volume, buf: seq<Byte>, n: nat)
    requires |stale| == 512 && |buf| == 4096 && FitsLoader(v.bpb) && GoodCluster(v, n)
    ensures ClusterRead(disk, stale, v, buf, n) == Some(ClusterData(disk, v, n))
  {
    var p := ClusterStart(v.pos.dataStart, 4096, n);
    assert ClusterSize(v.bpb) == 4096 && p % 0x1_0000_0000 == p;
    ExactRequestReadsSlice(disk, stale, buf, p, 4096);
    OverlayWhole(buf, ClusterData(disk, v, n));
  }

  /** Cluster `n`'s sectors. */
  function ClusterSlice(disk: Disk, v: Volume, n: nat): (r: seq<Byte>)
    requires n >= 2 && InSectors(v) && ClusterStart(v.pos.dataStart, ClusterSize(v.bpb), n) + ClusterSize(v.bpb) <= 1474560
    ensures |r| == ClusterSize(v.bpb)
  {
    var p := ClusterStart(v.pos.dataStart, ClusterSize(v.bpb), n);
    assert p >= 0 by { MulMono(ClusterSize(v.bpb), 0, n - 2); }
    disk[p..p + ClusterSize(v.bpb)]
  }

  /** 512-byte sectors, the data section on a sector boundary, clusters that are not empty. */
  predicate InSectors(v: Volume) {
    v.bpb.sectorSize == 512 && v.bpb.sectorsPerCluster > 0 && v.pos.dataStart % 512 == 0
  }

  lemma ClusterPlace(v: Volume, n: nat)
    requires n >= 2 && InSectors(v) && ClusterStart(v.pos.dataStart, ClusterSize(v.bpb), n) + ClusterSize(v.bpb) <= 1474560
    ensures var p := ClusterStart(v.pos.dataStart, ClusterSize(v.bpb), n);
            && 0 <= p == 512 * (v.pos.dataStart / 512 + v.bpb.sectorsPerCluster * (n - 2)) && p % 0x1_0000_0000 == p
            && (ExactRequest(p, ClusterSize(v.bpb)) <==> (v.pos.dataStart / 512 + v.bpb.sectorsPerCluster * (n - 2) + 1) % 18 != 0)
  {
    ClusterExactIff(v.pos.dataStart / 512, v.bpb.sectorsPerCluster, n);
    MulMono(ClusterSize(v.bpb), 0, n - 2);
  }

  /** read_cluster returns the cluster's sectors from every disk, whatever lies on the stack and
      in the buffer, if and only if the first of them is not the last of a track. */
  lemma ClusterReadIff(v: Volume, n: nat)
    requires n >= 2 && InSectors(v) && ClusterStart(v.pos.dataStart, ClusterSize(v.bpb), n) + ClusterSize(v.bpb) <= 1474560
    ensures (v.pos.dataStart / 512 + v.bpb.sectorsPerCluster * (n - 2) + 1) % 18 != 0
            <==> forall disk: Disk, stale: seq<Byte>, buf: seq<Byte> | |stale| == 512 && |buf| == ClusterSize(v.bpb) ::
                   ClusterRead(disk, stale, v, buf, n) == Some(ClusterSlice(disk, v, n))
  {
    var p, size := ClusterStart(v.pos.dataStart, ClusterSize(v.bpb), n), ClusterSize(v.bpb);
    ClusterPlace(v, n);
    ReadIsFlatIff(p, size);
    if !ExactRequest(p, size) {
      var disk: Disk, stale, buf :| |stale| == 512 && |buf| == size && DeviceRead(disk, stale, buf, p, size) != Some(disk[p..p + size]);
      assert ClusterRead(disk, stale, v, buf, n) != Some(ClusterSlice(disk, v, n));
    }
  }

  /** With an even data section and an even cluster size every cluster on the disk is read: its
      sectors, from the data section's start plus cluster size times `n - 2` on. */
  lemma EvenClustersAreRead(disk: Disk, stale: seq<Byte>, v: Volume, buf: seq<Byte>, n: nat)
    requires |stale| == 512 && n >= 2 && InSectors(v) && v.pos.dataStart / 512 % 2 == 0 && v.bpb.sectorsPerCluster % 2 == 0
    requires ClusterStart(v.pos.dataStart, ClusterSize(v.bpb), n) + ClusterSize(v.bpb) <= 1474560
    requires ClusterSize(v.bpb) <= |buf|
    ensures ClusterRead(disk, stale, v, buf, n) == Some(Overlay(buf, 0, ClusterSlice(disk, v, n)))
  {
    var p, size := ClusterStart(v.pos.dataStart, ClusterSize(v.bpb), n), ClusterSize(v.bpb);
    ClusterPlace(v, n);
    EvenClustersAreExact(v.pos.dataStart / 512, v.bpb.sectorsPerCluster, n);
    ExactRequestReadsSlice(disk, stale, buf, p, size);
  }

  /** Every file's name from entry `start` on can be extracted. */
  ghost predicate FileNamesReturn(disk: Disk, v: Volume, start: nat)
    requires v.pos.rootStart + 32 * v.bpb.rootEntries <= 1474560
  {
    forall j :: start <= j < v.bpb.rootEntries ==>
      TypeOf(RootEntry(disk, v, j)) == File ==> NamesReturn(RootEntry(disk, v, j))
  }

  /** A volume the loader can serve: eight 512-byte sectors a cluster, a root directory that can
      be read and fits the cache, and no file whose name keeps strncpy from returning. */
  ghost predicate Servable(disk: Disk, v: Volume) {
    && FitsLoader(v.bpb) && v.pos.dataStart % 512 == 0 && v.bpb.rootEntries <= 256
    && RootReadable(v) && FileNamesReturn(disk, v, 0)
  }

  /** What the listing comes to from entry `i` on with the records `done` already written. */
  function Listed(es: seq<seq<Byte>>, done: seq<FileRecord>, i: nat, room: nat): seq<FileRecord>
    requires Entries(es) && i <= |es|
  {
    done + Listing(es[i..], room)
  }

  lemma ListedStep(es: seq<seq<Byte>>, done: seq<FileRecord>, i: nat, room: nat)
    requires Entries(es) && i < |es| && room > 0
    ensures Listed(es, done, i, room)
            == if TypeOf(es[i]) == File then Listed(es, done + [Record(es[i])], i + 1, room - 1)
               else Listed(es, done, i + 1, room)
  {
    ListingStep(es, i, room);
    AssociateConcat(done, [Record(es[i])], Listing(es[i + 1..], room - 1));
  }

  /** Entry `i` is a file whose record has been appended in the room for one, or has been skipped. */
  predicate Handled(es: seq<seq<Byte>>, i: nat, room: nat, done: seq<FileRecord>, room': nat, done': seq<FileRecord>)
    requires Entries(es) && i < |es|
  {
    if TypeOf(es[i]) == File then room > 0 && room' == room - 1 && done' == done + [Record(es[i])]
    else room' == room && done' == done
  }

  lemma ListedHandled(es: seq<seq<Byte>>, i: nat, room: nat, done: seq<FileRecord>, room': nat, done': seq<FileRecord>)
    requires Entries(es) && i < |es| && room > 0 && Handled(es, i, room, done, room', done')
    ensures Listed(es, done', i + 1, room') == Listed(es, done, i, room)
  {
    ListedStep(es, done, i, room);
  }

  lemma ListedEnds(es: seq<seq<Byte>>, done: seq<FileRecord>, i: nat, room: nat)
    requires Entries(es) && i <= |es| && (room == 0 || i == |es|)
    ensures Listed(es, done, i, room) == done
  {
  }

  lemma ListingStep(es: seq<seq<Byte>>, i: nat, room: nat)
    requires Entries(es) && i < |es| && room > 0
    ensures Listing(es[i..], room)
            == if TypeOf(es[i]) != File then Listing(es[i + 1..], room) else [Record(es[i])] + Listing(es[i + 1..], room - 1)
  {
    assert es[i..][1..] == es[i + 1..];
  }

  ghost predicate RootStands(a: Io, v: Volume, i: nat) {
    a.kernel[5].pfdOffset == v.pos.rootStart && a.kernel[5].pos == 32 * i
  }

  /** A layered read moves the root descriptor one entry on. */
  lemma RootReadAdvances(a: Io, rootStart: nat, i: nat)
    requires KernelLinked(a) && a.kernel[5].pfdOffset == rootStart && a.kernel[5].pos == 32 * i
    requires rootStart + 32 * i + 32 <= 1474560
    ensures var b := Advance(Advance(Lseek(a, 4, Landing(a, 0), 0), 4, 32), 5, 32);
            KernelLinked(b) && b.kernel[5].pfdOffset == rootStart && b.kernel[5].pos == 32 * (i + 1)
  {
  }

  lemma OffsetWraps(i: nat)
    ensures 0x1000 * i % 0x1_0000 == 0x1000 * (i % 16)
  {
    assert 0x1000 * i == 0x1_0000 * (i / 16) + 0x1000 * (i % 16);
  }

  /** Nothing but the position of the drive's descriptor differs. */
  ghost predicate SameButDrive(a: Io, b: Io) {
    Lseek(a, 4, 0, 0) == Lseek(b, 4, 0, 0)
  }

  lemma SameButDriveKeeps(a: Io, b: Io)
    requires SameButDrive(a, b)
    ensures Links(a.kernel) == Links(b.kernel) && a.kernel[5] == b.kernel[5]
  {
    assert Lseek(a, 4, 0, 0).kernel[4] == Lseek(b, 4, 0, 0).kernel[4];
    assert forall i :: 0 <= i < 6 && i != 4 ==> Lseek(a, 4, 0, 0).kernel[i] == a.kernel[i] && Lseek(b, 4, 0, 0).kernel[i] == b.kernel[i];
  }

  /** The globals after mounting, as the boot sector gives them. */
  function MountedVolume(disk: Disk): Volume
    requires ParseBoot(disk[..512]).sectorSize != 0
  {
    var b := ParseBoot(disk[..512]);
    Volume(b, Stored32(Sections(b)))
  }

  /** What mounting gets out of a boot sector: its six fields, and the sections where the format
      has them, in 32 bits. */
  lemma MountedIs(disk: Disk, b: BootSector)
    requires b.Valid() && disk[..512] == LaidBoot(b) && b.bpb.sectorSize != 0
    ensures MountedVolume(disk)
            == Volume(b.bpb, Layout(b.bpb.sectorSize * b.bpb.reserved % 0x1_0000_0000,
                                    b.bpb.sectorSize * (b.bpb.reserved + b.bpb.fats * b.bpb.fatSectors) % 0x1_0000_0000,
                                    b.bpb.sectorSize * (b.bpb.reserved + b.bpb.fats * b.bpb.fatSectors
                                                        + b.bpb.rootEntries * 32 / b.bpb.sectorSize) % 0x1_0000_0000))
  {
    BootSectorIsParsed(b);
    SectionsAreStandard(b.bpb);
  }

  /** A two-FAT volume of 2880 sectors as mkfs makes it without options for that. */
  lemma TwoFats(disk: Disk)
    requires disk[11..24] == [0, 2, 8, 1, 0, 2, 224, 0, 64, 11, 240, 2, 0]
    ensures ParseBoot(disk[..512]) == Bpb(512, 8, 1, 2, 224, 2)
    ensures MountedVolume(disk) == Volume(Bpb(512, 8, 1, 2, 224, 2), Layout(512, 2560, 9728))
  {
    var s, t := disk[..512], disk[11..24];
    assert forall i :: 11 <= i < 24 ==> s[i] == t[i - 11];
    SectionsAreStandard(Bpb(512, 8, 1, 2, 224, 2));
  }

  /** "/" begins where the root directory does and is as long. */
  lemma RootIs(disk: Disk)
    requires ParseBoot(disk[..512]).sectorSize != 0
    ensures var b, r := ParseBoot(disk[..512]), RootOf(MountedVolume(disk));
            && r.start == b.sectorSize * (b.reserved + b.fats * b.fatSectors) % 0x1_0000_0000
            && r.size == b.sectorSize * (b.rootEntries * 32 / b.sectorSize) % 0x1_0000_0000
  {
    var b := ParseBoot(disk[..512]);
    SectionsAreStandard(b);
    var s, u := b.reserved + b.fats * b.fatSectors, b.rootEntries * 32 / b.sectorSize;
    assert b.sectorSize * (s + u) == b.sectorSize * s + b.sectorSize * u;
    DifferenceWraps(b.sectorSize * s, b.sectorSize * u);
  }

  lemma DifferenceWraps(a: int, b: int)
    ensures ((a + b) % 0x1_0000_0000 - a % 0x1_0000_0000) % 0x1_0000_0000 == b % 0x1_0000_0000
    ensures a % 0x1_0000_0000 % 0x1_0000_0000 == a % 0x1_0000_0000
  {
  }

  /** With 512-byte sectors every mounted volume's sections start on sector boundaries. */
  lemma MountedIsAligned(disk: Disk)
    requires ParseBoot(disk[..512]).sectorSize == 512
    ensures var p := MountedVolume(disk).pos; p.fatStart % 512 == 0 && p.rootStart % 512 == 0 && p.dataStart % 512 == 0
  {
    var b := ParseBoot(disk[..512]);
    var root, data := b.reserved + b.fatSectors * b.fats, b.reserved + b.fatSectors * b.fats + b.rootEntries * 32 / 512;
    assert Sections(b).rootStart == 512 * root by { assert b.sectorSize * b.fatSectors * b.fats == 512 * (b.fatSectors * b.fats); }
    StaysAligned(b.reserved);
    StaysAligned(root);
    StaysAligned(data);
  }

  lemma StaysAligned(k: int)
    ensures 512 * k % 0x1_0000_0000 % 512 == 0
  {
    var p := 512 * k;
    assert p % 0x1_0000_0000 == p - 0x1_0000_0000 * (p / 0x1_0000_0000);
  }

  /** mount's own table has 1024 bytes. */
  predicate FatTableFits(b: Bpb) { b.fats as int * b.fatSectors as int <= 1024 }

  predicate Mountable(disk: Disk) {
    ParseBoot(disk[..512]).sectorSize != 0 && FatTableFits(ParseBoot(disk[..512]))
  }

  /** Position and size of "/", both in 32 bits. */
  function RootOf(v: Volume): Root {
    Root(v.pos.rootStart % 0x1_0000_0000, (v.pos.dataStart - v.pos.rootStart) % 0x1_0000_0000)
  }

  /** The tables after the drive and "/" have been opened for the kernel. */
  function WithVolume(a: Io, root: Root): Io {
    Open(Open(a, "/dev/fdb", 0, root), "/", 0, root)
  }

  lemma OpenRootKeeps(a: Io, b: Io, root: Root)
    requires SameButDrive(a, b)
    ensures SameButDrive(Open(a, "/", 0, root), Open(b, "/", 0, root))
  {
    assert Lseek(Open(a, "/", 0, root), 4, 0, 0) == Open(Lseek(a, 4, 0, 0), "/", 0, root);
    assert Lseek(Open(b, "/", 0, root), 4, 0, 0) == Open(Lseek(b, 4, 0, 0), "/", 0, root);
  }

  lemma StartsLinked(root: Root, typed: seq<Byte>, mounted: Io, io: Io)
    requires SameButDrive(WithVolume(Open(Io(EMPTY, Startup(Root(0, 0), []).user, typed), "/dev/stdout", 0, Root(0, 0)), root), mounted)
    requires io == Open(mounted, "/dev/stdin", 0, root)
    ensures SameButDrive(Startup(root, typed), io) && KernelLinked(io) && io.kernel[5].pfdOffset == root.start
  {
    var s := WithVolume(Open(Io(EMPTY, Startup(Root(0, 0), []).user, typed), "/dev/stdout", 0, Root(0, 0)), root);
    assert Startup(root, typed) == Open(s, "/dev/stdin", 0, root);
    assert Lseek(Open(s, "/dev/stdin", 0, root), 4, 0, 0) == Open(Lseek(s, 4, 0, 0), "/dev/stdin", 0, root);
    assert Lseek(io, 4, 0, 0) == Open(Lseek(mounted, 4, 0, 0), "/dev/stdin", 0, root);
    StartupLinked(root, typed);
    SameButDriveKeeps(Startup(root, typed), io);
  }

  lemma SeekAndReadMoveDriveOnly(a: Io, p: Dword, n: Dword)
    ensures SameButDrive(a, Advance(Lseek(a, 4, p, 0), 4, n))
  {
    var b := Advance(Lseek(a, 4, p, 0), 4, n);
    assert Lseek(b, 4, 0, 0).kernel == Lseek(a, 4, 0, 0).kernel;
  }

  class FatFs {
    const io: Kernio
    var bpb: Bpb
    var pos: Layout

    constructor (io: Kernio)
      ensures this.io == io
    {
      this.io := io;
      bpb := Bpb(0, 0, 0, 0, 0, 0);
      pos := Layout(0, 0, 0);
    }

    ghost predicate Valid()
      reads io, io.kernel, io.user
    {
      io.Valid() && KernelLinked(io.Abs())
    }

    function Vol(): Volume
      reads this
    {
      Volume(bpb, pos)
    }

    /** The drive has been opened; nothing else need have been. */
    ghost predicate DriveOpen()
      reads io, io.kernel, io.user
    {
      io.Valid() && io.kernel[4].pfd == -1
    }

    /** "/" is open on the mounted volume. */
    ghost predicate RootOpen()
      reads this, io, io.kernel, io.user
    {
      Valid() && io.Abs().kernel[5].pfdOffset == pos.rootStart
    }

    /** lseek and read on the drive's descriptor. */
    method SeekRead(p: Dword, buf: array<Byte>, count: Dword) returns (ok: bool)
      requires DriveOpen() && count <= buf.Length
      modifies io`typed, io.kernel, io.user, buf
      ensures ok == DeviceRead(io.hw.diskB, io.hw.stale, old(buf[..]), p, count).Some?
      ensures ok ==> buf[..] == DeviceRead(io.hw.diskB, io.hw.stale, old(buf[..]), p, count).value
      ensures ok ==> DriveOpen() && SameButDrive(old(io.Abs()), io.Abs())
      ensures ok && old(Valid()) ==> Valid()
    {
      SeekAndReadMoveDriveOnly(io.Abs(), p, count);
      io.Lseek(4, p, 0);
      DriveRead(io.hw, io.Abs(), buf[..], count, 0, 1);
      var n;
      ok, n := io.Read(4, buf, count, 0, 1);
      if ok { SameButDriveKeeps(old(io.Abs()), io.Abs()); }
    }

    // ---------- mounting ----------

    /** read_boot_sector: parameter block and section starts. */
    method ReadBootSector() returns (ok: bool)
      requires DriveOpen() && ParseBoot(io.hw.diskB[..512]).sectorSize != 0
      modifies this, io`typed, io.kernel, io.user
      ensures ok && DriveOpen() && SameButDrive(old(io.Abs()), io.Abs())
      ensures Vol() == MountedVolume(io.hw.diskB)
    {
      var buf := new Byte[512];
      ExactRequestReadsSlice(io.hw.diskB, io.hw.stale, buf[..], 0, 512);
      ok := SeekRead(0, buf, 512);
      assert buf[..] == io.hw.diskB[..512];
      bpb := ParseBoot(buf[..]);
      pos := Stored32(Sections(bpb));
    }

    /** read_fat: the count is in sectors where bytes are meant; the table is thrown away. */
    method ReadFat() returns (ok: bool)
      requires DriveOpen() && pos.fatStart < 0x1_0000_0000 && FatTableFits(bpb)
      modifies io`typed, io.kernel, io.user
      ensures ok ==> DriveOpen() && SameButDrive(old(io.Abs()), io.Abs())
    {
      var fatTable := new Byte[1024];
      ok := SeekRead(pos.fatStart, fatTable, bpb.fats * bpb.fatSectors);
    }

    /** mount: the drive, the boot sector, the FAT, then "/" at the place the boot sector gives.
        False when a drive error halts the kernel. */
    method Mount() returns (ok: bool)
      requires io.Valid() && Mountable(io.hw.diskB)
      modifies this, io`typed, io.kernel, io.user
      ensures ok ==> io.Valid() && Vol() == MountedVolume(io.hw.diskB)
      ensures ok ==> SameButDrive(WithVolume(old(io.Abs()), RootOf(Vol())), io.Abs())
    {
      ghost var before := io.Abs();
      var _ := io.Open("/dev/fdb", 0, Root(0, 0));
      ghost var drive := io.Abs();
      ok := ReadBootSector();
      ok := ReadFat();
      if ok {
        ghost var read := io.Abs();
        var _ := io.Open("/", 0, RootOf(Vol()));
        OpenRootKeeps(drive, read, RootOf(Vol()));
      }
    }

    /** What startk does with descriptors before its loop. */
    method StartUp() returns (ok: bool)
      requires io.Valid() && Mountable(io.hw.diskB) && io.kernel[..] == EMPTY && io.user[..] == Startup(Root(0, 0), []).user
      modifies this, io`typed, io.kernel, io.user
      ensures ok ==> RootOpen() && Vol() == MountedVolume(io.hw.diskB)
      ensures ok ==> SameButDrive(Startup(RootOf(Vol()), old(io.typed)), io.Abs())
    {
      ghost var typed := io.typed;
      var _ := io.Open("/dev/stdout", 0, Root(0, 0));
      ok := Mount();
      if ok {
        ghost var mounted := io.Abs();
        var _ := io.Open("/dev/stdin", 0, RootOf(Vol()));
        StartsLinked(RootOf(Vol()), typed, mounted, io.Abs());
      }
    }

    /** read_cluster: unsigned arithmetic, then one read of a whole cluster. */
    method ReadCluster(buf: array<Byte>, n: nat) returns (ok: bool)
      requires Valid() && bpb.sectorSize * bpb.sectorsPerCluster <= buf.Length
      modifies io`typed, io.kernel, io.user, buf
      ensures match ClusterRead(io.hw.diskB, io.hw.stale, Vol(), old(buf[..]), n)
              case None => !ok
              case Some(b) => ok && buf[..] == b && Valid() && SameButDrive(old(io.Abs()), io.Abs())
    {
      var size := ClusterSize(bpb);
      var seekPos := ClusterStart(pos.dataStart, size, n) % 0x1_0000_0000;
      ok := SeekRead(seekPos, buf, size);
    }

    /** get_next_cluster: two bytes into a zeroed 32-bit word, then three of its nibbles. */
    method GetNextCluster(c: nat) returns (ok: bool, next: Entry)
      requires Valid() && pos.fatStart + EntryOffset(c) < 0x1_0000_0000
      modifies io`typed, io.kernel, io.user
      ensures match NextCluster(io.hw.diskB, io.hw.stale, pos.fatStart, c)
              case None => !ok
              case Some(e) => ok && next == e && Valid() && SameButDrive(old(io.Abs()), io.Abs())
    {
      var word := new Byte[4](_ => 0);
      assert word[..] == [0, 0, 0, 0];
      ReadStaysInside(io.hw.diskB, io.hw.stale, word[..], pos.fatStart + c + c / 2, 2);
      ok := SeekRead(pos.fatStart + c + c / 2, word, 2);
      next := 0;
      if ok {
        assert word[..][2..] == [0, 0];
        var value := Le32(word[..], 0);
        next := if c % 2 == 1 then value / 0x10 else value % 0x1000;
      }
    }

    /** The links and bytes of the mounted volume, as the drive delivers them. */
    ghost predicate Delivers(next: Followed, read: Contents)
      reads this
    {
      |io.hw.stale| == 512 && FitsLoader(bpb) && pos.dataStart % 512 == 0
      && next == EntriesOn(io.hw.diskB, io.hw.stale, Vol()) && read == BlocksOn(io.hw.diskB, io.hw.stale, Vol())
    }

    /** load_file_content: read a cluster, copy it to the segment, follow the table, until an
        end-of-file mark.  The walk ends because it follows `chain`. */
    method LoadFileContent(start: nat, mem: array<Byte>, ghost next: Followed, ghost read: Contents, ghost chain: seq<nat>)
      requires Valid() && Delivers(next, read) && mem.Length == 0x1_0000
      requires chain != [] && chain[0] == start && Follows(next, chain)
      modifies io`typed, io.kernel, io.user, mem
      ensures Valid() && SameButDrive(old(io.Abs()), io.Abs()) && io.kernel[5] == old(io.kernel[5])
      ensures mem[..] == Image(read, old(mem[..]), chain)
    {
      ghost var before, data := mem[..], ChainData(read, chain);
      var clustBuf := new Byte[4096];
      var curr: nat, offset: nat := start, 0;
      ghost var i: nat := 0;
      while true
        invariant i < |chain| && offset == 0x1000 * i && curr == chain[i]
        invariant Delivers(next, read)
        invariant Valid() && SameButDrive(old(io.Abs()), io.Abs())
        invariant mem[..] == Laid(before, data, i)
        decreases |chain| - i
      {
        assert LeadsOn(next, chain, i);
        OffsetWraps(i);
        curr := LoadCluster(mem, offset, clustBuf, curr, next, read);
        offset := offset + 4096;
        i := i + 1;
        if curr >= 0xFF8 {
          break;
        }
      }
      SameButDriveKeeps(old(io.Abs()), io.Abs());
    }

    /** One turn of the loop. */
    method LoadCluster(mem: array<Byte>, offset: nat, buf: array<Byte>, c: nat, ghost next: Followed, ghost read: Contents) returns (e: Entry)
      requires Valid() && Delivers(next, read) && next(c).Some? && mem.Length == 0x1_0000 && buf.Length == 4096 && mem != buf
      requires offset % 0x1_0000 + 4096 <= 0x1_0000
      modifies io`typed, io.kernel, io.user, mem, buf
      ensures Valid() && Delivers(next, read) && SameButDrive(old(io.Abs()), io.Abs()) && next(c) == Some(e)
      ensures mem[..] == Overlay(old(mem[..]), offset % 0x1_0000, read(c))
    {
      ReadBlock(buf, c, next, read);
      LoadToMemory(mem, offset, buf, 4096);
      assert buf[..4096] == read(c);
      e := NextOnWalk(c, next, read);
    }

    method ReadBlock(buf: array<Byte>, n: nat, ghost next: Followed, ghost read: Contents)
      requires Valid() && Delivers(next, read) && next(n).Some? && buf.Length == 4096
      modifies io`typed, io.kernel, io.user, buf
      ensures Valid() && SameButDrive(old(io.Abs()), io.Abs()) && buf[..] == read(n)
    {
      WalkReads(io.hw.diskB, io.hw.stale, Vol(), n);
      BlockWhateverBuffer(io.hw.diskB, io.hw.stale, Vol(), buf[..], n);
      var ok := ReadCluster(buf, n);
    }

    method NextOnWalk(c: nat, ghost next: Followed, ghost read: Contents) returns (e: Entry)
      requires Valid() && Delivers(next, read) && next(c).Some?
      modifies io`typed, io.kernel, io.user
      ensures Valid() && SameButDrive(old(io.Abs()), io.Abs()) && next(c) == Some(e)
    {
      WalkReads(io.hw.diskB, io.hw.stale, Vol(), c);
      var ok;
      ok, e := GetNextCluster(c);
    }

    // ---------- the root directory through the layered descriptor ----------

    /** "/" is open on this volume and stands before entry `i`. */
    ghost predicate RootAt(i: nat)
      reads this, io, io.kernel, io.user
    {
      Valid() && RootStands(io.Abs(), Vol(), i)
    }

    /** One 32-byte read of descriptor 5. */
    method ReadRootEntry(ghost i: nat) returns (e: seq<Byte>)
      requires RootAt(i) && RootReadable(Vol()) && i < bpb.rootEntries
      modifies io`typed, io.kernel, io.user
      ensures RootAt(i + 1) && e == RootEntry(io.hw.diskB, Vol(), i)
    {
      var buf := new Byte[32];
      RootEntryExact(Vol(), i);
      RootFdReadsSlice(io.hw, io.Abs(), buf[..], 32, 0);
      RootReadAdvances(io.Abs(), pos.rootStart, i);
      OverlayWhole(buf[..], RootEntry(io.hw.diskB, Vol(), i));
      var ok, n := io.Read(5, buf, 32, 0, 2);
      e := buf[..];
    }

    /** get_root_next_file: the i-th call yields entry i, and the first call past the last entry fails. */
    method GetRootNextFile(ghost i: nat) returns (r: int, file: seq<Byte>)
      requires RootAt(i) && RootReadable(Vol()) && i <= bpb.rootEntries
      modifies io`typed, io.kernel, io.user
      ensures if i < bpb.rootEntries then r == 0 && file == RootEntry(io.hw.diskB, Vol(), i) && RootAt(i + 1)
              else r == -1 && RootAt(i)
    {
      if io.kernel[5].pos + 32 <= bpb.rootEntries * 32 {
        file := ReadRootEntry(i);
        r := 0;
      } else {
        r, file := -1, [];
      }
    }

    /** get_root_files: the whole directory into the caller's cache. */
    method GetRootFiles(files: array<seq<Byte>>)
      requires Valid() && RootReadable(Vol()) && io.Abs().kernel[5].pfdOffset == pos.rootStart
      requires bpb.rootEntries <= files.Length
      modifies io`typed, io.kernel, io.user, files
      ensures RootAt(bpb.rootEntries)
      ensures files[..bpb.rootEntries] == RootEntries(io.hw.diskB, Vol())
    {
      io.Lseek(5, 0, 0);
      assert Links(io.Abs().kernel) == KERNEL_LINKS;
      for i := 0 to bpb.rootEntries
        invariant RootAt(i)
        invariant forall j :: 0 <= j < i ==> files[j] == RootEntry(io.hw.diskB, Vol(), j)
      {
        files[i] := ReadRootEntry(i);
      }
    }

    /** list_root_files from entry `start` on, into a buffer of `bufSize` bytes of 28-byte records. */
    method ListRootFiles(bufSize: nat, buf: array<FileRecord>, ghost start: nat) returns (filesRead: nat)
      requires RootAt(start) && RootReadable(Vol()) && start <= bpb.rootEntries && bufSize / 28 <= buf.Length
      requires FileNamesReturn(io.hw.diskB, Vol(), start)
      modifies io`typed, io.kernel, io.user, buf
      ensures RootOpen() && filesRead <= bufSize / 28
      ensures buf[..filesRead] == Listing(RootEntries(io.hw.diskB, Vol())[start..], bufSize / 28)
    {
      filesRead := ListFiles(bufSize / 28, buf, RootEntries(io.hw.diskB, Vol()), start);
    }

    /** The entries of the mounted directory; their files' names can be extracted. */
    ghost predicate Lists(es: seq<seq<Byte>>, start: nat)
      reads this
    {
      RootReadable(Vol()) && es == RootEntries(io.hw.diskB, Vol()) && FileNamesReturn(io.hw.diskB, Vol(), start)
    }

    method ListFiles(capacity: nat, buf: array<FileRecord>, ghost es: seq<seq<Byte>>, ghost start: nat) returns (filesRead: nat)
      requires RootAt(start) && Entries(es) && |es| == bpb.rootEntries && Lists(es, start) && start <= |es| && capacity <= buf.Length
      modifies io`typed, io.kernel, io.user, buf
      ensures RootOpen() && filesRead <= capacity
      ensures buf[..filesRead] == Listed(es, [], start, capacity)
    {
      ghost var i: nat := start;
      var room: nat, r := capacity, 0;
      filesRead := 0;
      ghost var goal := Listed(es, [], i, room);
      assert buf[..0] == [];
      while room > 0 && r != -1
        invariant start <= i <= |es| && filesRead + room == capacity
        invariant RootAt(i) && (r == -1 ==> i == |es|)
        invariant goal == Listed(es, buf[..filesRead], i, room)
        decreases |es| - i, r != -1
      {
        r, filesRead, room, i := ListTurn(buf, filesRead, room, es, start, i);
      }
      ListedEnds(es, buf[..filesRead], i, room);
    }

    method ListTurn(buf: array<FileRecord>, filesRead0: nat, room0: nat, ghost es: seq<seq<Byte>>, ghost start: nat, ghost i: nat)
      returns (r: int, filesRead: nat, room: nat, ghost i': nat)
      requires RootAt(i) && Entries(es) && |es| == bpb.rootEntries && Lists(es, start) && start <= i <= |es|
      requires filesRead0 < buf.Length && room0 > 0
      modifies io`typed, io.kernel, io.user, buf
      ensures filesRead + room == filesRead0 + room0 && filesRead <= buf.Length
      ensures i' == (if r == -1 then i else i + 1) && i' <= |es| && RootAt(i') && (r == -1 ==> i == |es|)
      ensures Listed(es, buf[..filesRead], i', room) == Listed(es, old(buf[..filesRead0]), i, room0)
    {
      ghost var done := buf[..filesRead0];
      r, filesRead, room := ListNext(buf, filesRead0, room0, es, start, i);
      i' := i;
      if r != -1 {
        ListedHandled(es, i, room0, done, room, buf[..filesRead]);
        i' := i + 1;
      }
    }

    /** One turn of the listing loop: fetch an entry and, if it is a file, append its record. */
    method ListNext(buf: array<FileRecord>, filesRead0: nat, room0: nat, ghost es: seq<seq<Byte>>, ghost start: nat, ghost i: nat)
      returns (r: int, filesRead: nat, room: nat)
      requires RootAt(i) && Entries(es) && |es| == bpb.rootEntries && Lists(es, start) && start <= i <= |es|
      requires filesRead0 < buf.Length && room0 > 0
      modifies io`typed, io.kernel, io.user, buf
      ensures filesRead + room == filesRead0 + room0 && filesRead <= buf.Length
      ensures if r == -1 then i == |es| && RootAt(i) && room == room0 && buf[..filesRead] == old(buf[..filesRead0])
              else i < |es| && RootAt(i + 1) && Handled(es, i, room0, old(buf[..filesRead0]), room, buf[..filesRead])
    {
      filesRead, room := filesRead0, room0;
      var file;
      r, file := GetRootNextFile(i);
      if r != -1 {
        filesRead, room := KeepFile(buf, filesRead0, room0, file);
      }
    }

    /** The record of a file is appended; anything else is skipped. */
    method KeepFile(buf: array<FileRecord>, filesRead0: nat, room0: nat, file: seq<Byte>) returns (filesRead: nat, room: nat)
      requires filesRead0 < buf.Length && room0 > 0 && |file| == 32 && (TypeOf(file) == File ==> NamesReturn(file))
      modifies buf
      ensures filesRead + room == filesRead0 + room0 && filesRead <= buf.Length
      ensures if TypeOf(file) == File then room == room0 - 1 && buf[..filesRead] == old(buf[..filesRead0]) + [Record(file)]
              else room == room0 && buf[..filesRead] == old(buf[..filesRead0])
    {
      filesRead, room := filesRead0, room0;
      if TypeOf(file) == File {
        AppendRecord(buf, filesRead, file);
        filesRead := filesRead + 1;
        room := room - 1;
      }
    }

    method AppendRecord(buf: array<FileRecord>, filesRead: nat, file: seq<Byte>)
      requires filesRead < buf.Length && |file| == 32 && NamesReturn(file)
      modifies buf
      ensures buf[..filesRead + 1] == old(buf[..filesRead]) + [Record(file)]
    {
      buf[filesRead] := FillRecord(file);
    }

    /** The record of a file, its names cut out of the padded fields. */
    method FillRecord(file: seq<Byte>) returns (rec: FileRecord)
      requires |file| == 32 && NamesReturn(file)
      ensures rec == Record(file)
    {
      var name, ext := new Byte[9], new Byte[4];
      ExtractFileName(file, name, ext);
      var n := StrLen(name);
      var m := StrLen(ext);
      var time, date := Le16(file, 22), Le16(file, 24);
      var modified := Stamp(date / 0x200 + 1980, date / 0x20 % 0x10, date % 0x20, time / 0x800, time / 0x20 % 0x40, time % 0x20 * 2);
      rec := FileRecord(name[..n], ext[..m], Bit(file[11], 0x10), Bit(file[11], 0x01), Le32(file, 28), modified);
    }

    // ---------- load ----------

    /** Cache the directory, upper-case the request in place and look it up. */
    method Find(name: array<Byte>) returns (r: int, file: seq<Byte>)
      requires RootOpen() && Servable(io.hw.diskB, Vol()) && Terminated(name[..])
      modifies io`typed, io.kernel, io.user, name
      ensures RootOpen() && Terminated(name[..]) && CStr(name[..]) == Upper(old(CStr(name[..])))
      ensures match FirstMatch(RootEntries(io.hw.diskB, Vol()), Upper(old(CStr(name[..]))), 0)
              case None => r == -1
              case Some(i) => r == 0 && file == RootEntry(io.hw.diskB, Vol(), i)
    {
      var list := new seq<Byte>[256](_ => []);
      GetRootFiles(list);
      r, file := FindIn(list, bpb.rootEntries, name);
    }

    method FindIn(list: array<seq<Byte>>, entries: nat, name: array<Byte>) returns (r: int, file: seq<Byte>)
      requires entries <= list.Length && Entries(list[..entries]) && AllNamesReturn(list[..entries]) && Terminated(name[..])
      modifies name
      ensures Terminated(name[..]) && CStr(name[..]) == Upper(old(CStr(name[..])))
      ensures match FirstMatch(old(list[..entries]), Upper(old(CStr(name[..]))), 0)
              case None => r == -1
              case Some(i) => r == 0 && file == old(list[i])
    {
      StoUpper(name);
      r, file := GetFile(list, entries, name);
    }

    /** The file part of load: the found file's clusters over the segment `mem`. */
    method Load(name: array<Byte>, mem: array<Byte>) returns (retcode: int, file: seq<Byte>)
      requires RootOpen() && Servable(io.hw.diskB, Vol()) && Terminated(name[..]) && mem.Length == 0x1_0000 && name != mem
      requires !LoadProgram(io.hw.diskB, io.hw.stale, Vol(), CStr(name[..]), mem[..]).Undefined?
      modifies io`typed, io.kernel, io.user, name, mem
      ensures RootOpen() && Terminated(name[..]) && CStr(name[..]) == Upper(old(CStr(name[..])))
      ensures match LoadProgram(io.hw.diskB, io.hw.stale, Vol(), old(CStr(name[..])), old(mem[..]))
              case NotFound => retcode == 1 && mem[..] == old(mem[..])
              case Found(entry, image) => retcode == 0 && file == entry && mem[..] == image
              case Undefined => true
    {
      ghost var next, read := EntriesOn(io.hw.diskB, io.hw.stale, Vol()), BlocksOn(io.hw.diskB, io.hw.stale, Vol());
      retcode, file := LoadFollowing(name, mem, RootEntries(io.hw.diskB, Vol()), next, read);
    }

    method LoadFollowing(name: array<Byte>, mem: array<Byte>, ghost es: seq<seq<Byte>>, ghost next: Followed, ghost read: Contents)
      returns (retcode: int, file: seq<Byte>)
      requires RootOpen() && Servable(io.hw.diskB, Vol()) && Terminated(name[..]) && mem.Length == 0x1_0000 && name != mem
      requires Delivers(next, read) && es == RootEntries(io.hw.diskB, Vol())
      requires !LoadFrom(es, next, read, CStr(name[..]), mem[..]).Undefined?
      modifies io`typed, io.kernel, io.user, name, mem
      ensures RootOpen() && Terminated(name[..]) && CStr(name[..]) == Upper(old(CStr(name[..])))
      ensures match LoadFrom(es, next, read, old(CStr(name[..])), old(mem[..]))
              case NotFound => retcode == 1 && mem[..] == old(mem[..])
              case Found(entry, image) => retcode == 0 && file == entry && mem[..] == image
              case Undefined => true
    {
      var r;
      r, file := Find(name);
      if r == -1 {
        retcode := 1;
      } else {
        retcode := 0;
        var start := StartingCluster(file);
        ChainFromIsChain(next, start, {});
        ChainFollows(next, start, ChainFrom(next, start, {}).value);
        LoadFileContent(start, mem, next, read, ChainFrom(next, start, {}).value);
      }
    }
  }
}
