/**
 Kernel and per-process file descriptor tables: open, close, lseek and the recursive read
 that follows parent descriptors down to a device.
 */
module Descriptors {
  import opened Bytes
  import opened Floppy

  /** `pfd` is the descriptor underneath, -1 for a device. */
  datatype FileDescriptor = FileDescriptor(pos: Dword, size: Dword, pfd: int, pfdOffset: Dword)

  const ZERO: FileDescriptor := FileDescriptor(0, 0, 0, 0)

  /** Six slots: "/" is descriptor 5. */
  type Table = t: seq<FileDescriptor> | |t| == 6 witness [ZERO, ZERO, ZERO, ZERO, ZERO, ZERO]

  const EMPTY: Table := [ZERO, ZERO, ZERO, ZERO, ZERO, ZERO]

  type Tables = t: seq<Table> | |t| == 9 witness [EMPTY, EMPTY, EMPTY, EMPTY, EMPTY, EMPTY, EMPTY, EMPTY, EMPTY]

  /** The kernel's table, the tables of processes 1..9, and the keys typed but not yet read. */
  datatype Io = Io(kernel: Table, user: Tables, typed: seq<Byte>)

  /** What the code reads but does not control: both drives, the stack bytes behind the sector
      buffer, and the uninitialised `bytes_read` of descriptors no branch serves. */
  datatype Hardware = Hardware(diskA: Disk, diskB: Disk, stale: seq<Byte>, junk: Dword)

  /** Where the root directory lies, as the mounted volume says. */
  datatype Root = Root(start: Dword, size: Dword)

  function TableOf(io: Io, pid: nat): Table
    requires pid <= 9
  {
    if pid == 0 then io.kernel else io.user[pid - 1]
  }

  function WithTable(io: Io, pid: nat, t: Table): Io
    requires pid <= 9
  {
    if pid == 0 then io.(kernel := t) else io.(user := io.user[pid - 1 := t])
  }

  // ---------- open, close, lseek ----------

  function OpenSlot(path: string): int {
    if path == "/dev/fda" then 3
    else if path == "/dev/stdin" then 0
    else if path == "/dev/stdout" then 1
    else if path == "/dev/fdb" then 4
    else if path == "/" then 5
    else -1
  }

  function Opened(path: string, was: FileDescriptor, root: Root): FileDescriptor
    requires OpenSlot(path) != -1
  {
    if path == "/dev/fda" || path == "/dev/fdb" then was.(pos := 0, pfd := -1, size := 65535)
    else if path == "/" then FileDescriptor(0, root.size, 4, root.start)
    else FileDescriptor(0, 0, -1, 0)
  }

  function Open(io: Io, path: string, pid: nat, root: Root): Io
    requires pid <= 9
  {
    var fd := OpenSlot(path);
    if fd == -1 then io
    else var t := TableOf(io, pid); WithTable(io, pid, t[fd := Opened(path, t[fd], root)])
  }

  /** What open does to the tables, path by path: the descriptor starts at 0, on the descriptor
      underneath or on its device; "/" knows its place and size; a drive keeps the offset it had;
      nothing else changes, and an unknown path changes nothing. */
  lemma OpenIs(io: Io, path: string, pid: nat, root: Root)
    requires pid <= 9
    ensures var t, t' := TableOf(io, pid), TableOf(Open(io, path, pid, root), pid);
            match path
            case "/dev/stdin" => t'[0] == FileDescriptor(0, 0, -1, 0) && t'[1..] == t[1..]
            case "/dev/stdout" => t'[1] == FileDescriptor(0, 0, -1, 0) && t'[0] == t[0] && t'[2..] == t[2..]
            case "/dev/fda" => t'[3] == FileDescriptor(0, 65535, -1, t[3].pfdOffset) && t'[..3] == t[..3] && t'[4..] == t[4..]
            case "/dev/fdb" => t'[4] == FileDescriptor(0, 65535, -1, t[4].pfdOffset) && t'[..4] == t[..4] && t'[5] == t[5]
            case "/" => t'[5] == FileDescriptor(0, root.size, 4, root.start) && t'[..5] == t[..5]
            case _ => t' == t
    ensures forall q: nat :: q <= 9 && q != pid ==> TableOf(Open(io, path, pid, root), q) == TableOf(io, q)
    ensures Open(io, path, pid, root).typed == io.typed
  {
  }

  function Close(io: Io, fd: nat, pid: nat): Io
    requires pid <= 9 && fd < 6
  {
    WithTable(io, pid, TableOf(io, pid)[fd := ZERO])
  }

  function Lseek(io: Io, fd: nat, offset: Dword, pid: nat): Io
    requires pid <= 9 && fd < 6
  {
    var t := TableOf(io, pid);
    WithTable(io, pid, t[fd := t[fd].(pos := offset)])
  }

  // ---------- parent links ----------

  function Links(t: Table): (r: seq<int>)
    ensures |r| == 6 && forall i :: 0 <= i < 6 ==> r[i] == t[i].pfd
  {
    [t[0].pfd, t[1].pfd, t[2].pfd, t[3].pfd, t[4].pfd, t[5].pfd]
  }

  /** Following parent links from `fd` reaches a device after fewer than `k` steps. */
  predicate Within(links: seq<int>, fd: int, k: nat)
    requires |links| == 6
    decreases k
  {
    0 <= fd < 6 && k > 0 && (links[fd] == -1 || Within(links, links[fd], k - 1))
  }

  // ---------- read ----------

  datatype Outcome = Halted | Waiting | Done(io: Io, buf: seq<Byte>, bytesRead: Dword)

  function Advance(io: Io, fd: nat, n: Dword): Io
    requires fd < 6
  {
    var d := io.kernel[fd];
    io.(kernel := io.kernel[fd := d.(pos := (d.pos + n) % 0x1_0000_0000)])
  }

  /** Descriptors that end the recursion: floppy, keyboard, or a slot no branch serves. */
  function ReadLeaf(hw: Hardware, io: Io, fd: nat, buf: seq<Byte>, count: Dword): Outcome
    requires fd < 6 && count <= |buf| && |hw.stale| == 512
  {
    if fd == 3 || fd == 4 then
      var r := DeviceRead(if fd == 3 then hw.diskA else hw.diskB, hw.stale, buf, io.kernel[fd].pos, count);
      if r.None? then Halted else Done(Advance(io, fd, count), r.value, count)
    else if fd == 0 then
      if |io.typed| < count then Waiting
      else Done(Advance(io.(typed := io.typed[count..]), fd, 0), Overlay(buf, 0, io.typed[..count]), 0)
    else Done(Advance(io, fd, hw.junk), buf, hw.junk)
  }

  /** The kernel's table decides how to read whatever `pid` is; only the seek on the parent
      uses the caller's table. */
  function Read(hw: Hardware, io: Io, fd: nat, buf: seq<Byte>, count: Dword, pid: nat, k: nat): Outcome
    requires pid <= 9 && count <= |buf| && |hw.stale| == 512
    requires Within(Links(io.kernel), fd, k)
    decreases k
  {
    var d := io.kernel[fd];
    if d.pfd != -1 then
      assert Links(io.kernel)[fd] == d.pfd && Within(Links(io.kernel), d.pfd, k - 1);
      var io' := Lseek(io, d.pfd, (d.pfdOffset + d.pos) % 0x1_0000_0000, pid);
      assert Links(io'.kernel) == Links(io.kernel);
      match Read(hw, io', d.pfd, buf, count, 0, k - 1)
      case Done(io'', buf', n) => Done(Advance(io'', fd, n), buf', n)
      case Halted => Halted
      case Waiting => Waiting
    else ReadLeaf(hw, io, fd, buf, count)
  }

  /** A read moves positions; links and offsets stay. */
  lemma {:induction false} ReadKeepsLinks(hw: Hardware, io: Io, fd: nat, buf: seq<Byte>, count: Dword, pid: nat, k: nat)
    requires pid <= 9 && count <= |buf| && |hw.stale| == 512 && Within(Links(io.kernel), fd, k)
    ensures var r := Read(hw, io, fd, buf, count, pid, k);
            r.Done? ==> Links(r.io.kernel) == Links(io.kernel) && |r.buf| == |buf| && r.io.kernel[5].pfdOffset == io.kernel[5].pfdOffset
    decreases k
  {
    var d := io.kernel[fd];
    if d.pfd != -1 {
      var io' := Lseek(io, d.pfd, (d.pfdOffset + d.pos) % 0x1_0000_0000, pid);
      assert Links(io'.kernel) == Links(io.kernel);
      ReadKeepsLinks(hw, io', d.pfd, buf, count, 0, k - 1);
    }
  }

  // ---------- every reachable state of the tables ----------

  datatype Op =
    | OpenOp(path: string, pid: nat)
    | CloseOp(fd: nat, pid: nat)
    | LseekOp(fd: nat, offset: Dword, pid: nat)
    | ReadOp(fd: nat, buf: seq<Byte>, count: Dword, pid: nat)

  /** Calls the running kernel makes: user requests carry the caller's pid, which is not zero,
      and the kernel itself only reopens "/", seeks and reads. */
  predicate Allowed(op: Op) {
    match op
    case OpenOp(path, pid) => pid <= 9 && (pid == 0 ==> path == "/")
    case CloseOp(fd, pid) => fd < 6 && 0 < pid <= 9
    case LseekOp(fd, _, pid) => fd < 6 && pid <= 9
    case ReadOp(fd, buf, count, pid) => fd < 6 && pid <= 9 && count <= |buf|
  }

  /** Zeroed static tables, then stdout, the drive, "/" and stdin are opened for the kernel. */
  function Startup(root: Root, typed: seq<Byte>): Io {
    var io0 := Io(EMPTY, [EMPTY, EMPTY, EMPTY, EMPTY, EMPTY, EMPTY, EMPTY, EMPTY, EMPTY], typed);
    var io1 := Open(io0, "/dev/stdout", 0, root);
    var io2 := Open(io1, "/dev/fdb", 0, root);
    var io3 := Open(io2, "/", 0, root);
    Open(io3, "/dev/stdin", 0, root)
  }

  const KERNEL_LINKS: seq<int> := [-1, -1, 0, 0, -1, 4]

  ghost predicate KernelLinked(io: Io) {
    Links(io.kernel) == KERNEL_LINKS
  }

  /** Every descriptor of a linked table is at most one parent away from a device. */
  lemma TwoLevels(fd: nat)
    requires fd < 6
    ensures Within(KERNEL_LINKS, fd, 2)
  {
    assert Within(KERNEL_LINKS, 0, 1) && Within(KERNEL_LINKS, 4, 1);
  }

  /** None when the call never comes back: six slots make longer chains endless. */
  function Apply(hw: Hardware, root: Root, io: Io, op: Op): Option<Io>
    requires |hw.stale| == 512 && Allowed(op)
  {
    match op
    case OpenOp(path, pid) => Some(Open(io, path, pid, root))
    case CloseOp(fd, pid) => Some(Close(io, fd, pid))
    case LseekOp(fd, offset, pid) => Some(Lseek(io, fd, offset, pid))
    case ReadOp(fd, buf, count, pid) =>
      if !Within(Links(io.kernel), fd, 6) then None
      else
        var r := Read(hw, io, fd, buf, count, pid, 6);
        if r.Done? then Some(r.io) else None
  }

  /** The kernel's links, and "/" at the root directory. */
  ghost predicate KernelReady(io: Io, root: Root) {
    KernelLinked(io) && io.kernel[5].pfdOffset == root.start
  }

  lemma StartupLinked(root: Root, typed: seq<Byte>)
    ensures KernelReady(Startup(root, typed), root)
  {
  }

  lemma ApplyKeepsLinks(hw: Hardware, root: Root, io: Io, op: Op)
    requires |hw.stale| == 512 && Allowed(op) && KernelReady(io, root)
    ensures Apply(hw, root, io, op).Some? ==> KernelReady(Apply(hw, root, io, op).value, root)
  {
    match op
    case OpenOp(path, pid) =>
      if pid == 0 { assert OpenSlot(path) == 5; }
    case CloseOp(fd, pid) =>
    case LseekOp(fd, offset, pid) =>
    case ReadOp(fd, buf, count, pid) =>
      if Within(Links(io.kernel), fd, 6) {
        ReadKeepsLinks(hw, io, fd, buf, count, pid, 6);
      }
  }

  /** `states` is the history of a kernel that made the calls `ops` and got an answer to each. */
  ghost predicate TableRun(hw: Hardware, root: Root, ops: seq<Op>, states: seq<Io>)
    requires |hw.stale| == 512
  {
    && |states| == |ops| + 1
    && (exists typed :: states[0] == Startup(root, typed))
    && forall i :: 0 <= i < |ops| ==>
         Allowed(ops[i]) && Apply(hw, root, states[i], ops[i]) == Some(states[i + 1])
  }

  /** In every reachable state recursive reads end after at most two levels, and "/" still lies at
      the root directory. */
  lemma {:induction false} ReadsTerminateInEveryRun(hw: Hardware, root: Root, ops: seq<Op>, states: seq<Io>, n: nat, fd: nat)
    requires |hw.stale| == 512 && TableRun(hw, root, ops, states) && n <= |ops| && fd < 6
    ensures KernelReady(states[n], root) && Within(Links(states[n].kernel), fd, 2)
    decreases n
  {
    if n == 0 {
      var typed :| states[0] == Startup(root, typed);
      StartupLinked(root, typed);
    } else {
      ReadsTerminateInEveryRun(hw, root, ops, states, n - 1, fd);
      ApplyKeepsLinks(hw, root, states[n - 1], ops[n - 1]);
    }
    TwoLevels(fd);
  }

  lemma {:induction false} SelfLinkNeverEnds(links: seq<int>, fd: nat, k: nat)
    requires |links| == 6 && fd < 6 && links[fd] == fd
    ensures !Within(links, fd, k)
    decreases k
  {
    if k > 0 { SelfLinkNeverEnds(links, fd, k - 1); }
  }

  /** The two things termination rests on: without opening stdin, or after closing it on
      behalf of the kernel, reading it would recurse for ever. */
  lemma StdinMustStayOpen(root: Root, typed: seq<Byte>, io: Io, k: nat)
    requires KernelLinked(io)
    ensures !Within(Links(EMPTY), 0, k)
    ensures !Within(Links(Close(io, 0, 0).kernel), 0, k)
  {
    SelfLinkNeverEnds(Links(EMPTY), 0, k);
    SelfLinkNeverEnds(Links(Close(io, 0, 0).kernel), 0, k);
  }

  // ---------- what reads through the tables deliver ----------

  /** Where a read of the root directory lands on the drive: at the requested place exactly
      when the kernel asks for itself, otherwise wherever its own descriptor was left. */
  function Landing(io: Io, pid: nat): nat {
    if pid == 0 then io.kernel[5].pfdOffset + io.kernel[5].pos else io.kernel[4].pos
  }

  lemma DriveLeaf(hw: Hardware, io: Io, buf: seq<Byte>, count: Dword, p: nat)
    requires |hw.stale| == 512 && count <= |buf| && io.kernel[4].pos == p
    requires p + count <= 1474560 && ExactRequest(p, count)
    ensures ReadLeaf(hw, io, 4, buf, count)
            == Done(Advance(io, 4, count), Overlay(buf, 0, hw.diskB[p..p + count]), count)
  {
    ExactRequestReadsSlice(hw.diskB, hw.stale, buf, p, count);
  }

  lemma LeafRead(hw: Hardware, io: Io, fd: nat, buf: seq<Byte>, count: Dword, pid: nat, k: nat)
    requires |hw.stale| == 512 && pid <= 9 && k > 0 && count <= |buf| && fd < 6 && Links(io.kernel)[fd] == -1
    ensures Within(Links(io.kernel), fd, k)
    ensures Read(hw, io, fd, buf, count, pid, k) == ReadLeaf(hw, io, fd, buf, count)
  {
  }

  lemma OneLayerRead(hw: Hardware, io: Io, fd: nat, p: nat, buf: seq<Byte>, count: Dword, pid: nat, io': Io)
    requires |hw.stale| == 512 && pid <= 9 && count <= |buf| && fd < 6 && p < 6
    requires Links(io.kernel)[fd] == p && Links(io.kernel)[p] == -1
    requires io' == Lseek(io, p, (io.kernel[fd].pfdOffset + io.kernel[fd].pos) % 0x1_0000_0000, pid)
    ensures Within(Links(io.kernel), fd, 2) && Links(io'.kernel) == Links(io.kernel) && Within(Links(io.kernel), p, 1)
    ensures Read(hw, io, fd, buf, count, pid, 2)
            == match Read(hw, io', p, buf, count, 0, 1)
               case Done(io'', buf', n) => Done(Advance(io'', fd, n), buf', n)
               case Halted => Halted
               case Waiting => Waiting
  {
    assert io.kernel[fd].pfd == p;
    assert Within(Links(io.kernel), p, 1);
    assert Links(io'.kernel) == Links(io.kernel);
  }

  /** The drive's descriptor is a plain device read, whoever asks. */
  lemma DriveRead(hw: Hardware, io: Io, buf: seq<Byte>, count: Dword, pid: nat, k: nat)
    requires |hw.stale| == 512 && pid <= 9 && k > 0 && count <= |buf| && io.kernel[4].pfd == -1
    ensures Within(Links(io.kernel), 4, k) && Links(Advance(io, 4, count).kernel) == Links(io.kernel)
    ensures Read(hw, io, 4, buf, count, pid, k)
            == match DeviceRead(hw.diskB, hw.stale, buf, io.kernel[4].pos, count)
               case None => Halted
               case Some(b) => Done(Advance(io, 4, count), b, count)
  {
    LeafRead(hw, io, 4, buf, count, pid, k);
  }

  /** The drive's descriptor delivers the flat slice at its position, whoever asks. */
  lemma DeviceFdReadsSlice(hw: Hardware, io: Io, buf: seq<Byte>, count: Dword, pid: nat, k: nat)
    requires |hw.stale| == 512 && pid <= 9 && k > 0 && count <= |buf| && KernelLinked(io)
    requires var p := io.kernel[4].pos; p + count <= 1474560 && ExactRequest(p, count)
    ensures Within(Links(io.kernel), 4, k)
    ensures var p := io.kernel[4].pos;
            Read(hw, io, 4, buf, count, pid, k)
            == Done(Advance(io, 4, count), Overlay(buf, 0, hw.diskB[p..p + count]), count)
  {
    LeafRead(hw, io, 4, buf, count, pid, k);
    DriveLeaf(hw, io, buf, count, io.kernel[4].pos);
  }

  /** Reading "/" delivers the flat slice at `Landing` and moves both descriptors past it. */
  lemma RootFdReadsSlice(hw: Hardware, io: Io, buf: seq<Byte>, count: Dword, pid: nat)
    requires |hw.stale| == 512 && pid <= 9 && count <= |buf| && KernelLinked(io)
    requires Landing(io, 0) < 0x1_0000_0000
    requires Landing(io, pid) + count <= 1474560 && ExactRequest(Landing(io, pid), count)
    ensures Within(Links(io.kernel), 5, 2)
    ensures var p := Landing(io, pid);
            Read(hw, io, 5, buf, count, pid, 2)
            == Done(Advance(Advance(Lseek(io, 4, Landing(io, 0), pid), 4, count), 5, count),
                    Overlay(buf, 0, hw.diskB[p..p + count]), count)
  {
    var target := (io.kernel[5].pfdOffset + io.kernel[5].pos) % 0x1_0000_0000;
    assert target == Landing(io, 0);
    var io' := Lseek(io, 4, target, pid);
    assert io'.kernel[4].pos == Landing(io, pid);
    OneLayerRead(hw, io, 5, 4, buf, count, pid, io');
    DeviceFdReadsSlice(hw, io', buf, count, 0, 1);
  }

  /** A byte position the drive's cylinder byte cannot tell from `p`. */
  function Wrapped(p: Dword): nat { p % 0x48_0000 }

  lemma WrappedReads(disk: Disk, stale: seq<Byte>, buf: seq<Byte>, p: Dword, count: nat)
    requires |stale| == 512 && count <= |buf|
    ensures DeviceRead(disk, stale, buf, p, count) == DeviceRead(disk, stale, buf, Wrapped(p), count)
  {
    var w := Wrapped(p);
    WrappedBlock(p, p / 0x48_0000, w);
    StartsRepeat(p / 512, p / 0x48_0000, w / 512);
  }

  lemma WrappedBlock(p: nat, q: nat, w: nat)
    requires p == 0x48_0000 * q + w && w < 0x48_0000
    ensures p / 512 == 9216 * q + w / 512 && p % 512 == w % 512 && w / 512 < 9216
  {
  }

  lemma NotThatByte(p: nat, q: nat, k: nat)
    requires p != q && (p / 512 + 1) % 18 != 0 && (k == q / 512 || (k + 1) % 18 == 0)
    ensures k * 512 + q % 512 != p
  {
  }

  /** The first sector a read in block `l` gets does not hold byte `p` at the read's offset. */
  lemma OtherSector(p: nat, q: nat)
    requires p < 1474560 && (p / 512 + 1) % 18 != 0 && q / 512 < 2880 && p != q
    ensures var s := BiosRead(OneAt(p), Carry(LbaToChs(q / 512, 2, 18)));
            s.Some? && s.value[q % 512] == 0
  {
    var l, off := q / 512, q % 512;
    FirstSector(OneAt(p), l);
    var k: nat := StartBlock(l);
    NotThatByte(p, q, k);
    assert OneAt(p)[k * 512..k * 512 + 512][off] == OneAt(p)[k * 512 + off];
  }

  /** A read at a place on the disk other than `p` does not start with byte `p`. */
  lemma OtherFirstByte(stale: seq<Byte>, buf: seq<Byte>, p: nat, q: nat, count: nat)
    requires |stale| == 512 && 0 < count <= |buf| && p < 1474560 && (p / 512 + 1) % 18 != 0 && q < 0x48_0000 && p != q
    ensures var r := DeviceRead(OneAt(p), stale, buf, q, count);
            r.Some? ==> r.value[0] == 0
  {
    var l := q / 512;
    if DeviceRead(OneAt(p), stale, buf, q, count).Some? {
      FirstByte(OneAt(p), stale, buf, LbaToChs(l, 2, 18), q % 512, count);
      StartForm(l);
      assert l < 2880;
      OtherSector(p, q);
    }
  }

  /** A read of "/" answers with the bytes at the root position. */
  predicate RootDelivered(hw: Hardware, io: Io, buf: seq<Byte>, count: Dword, pid: nat)
    requires |hw.stale| == 512 && pid <= 9 && count <= |buf| && Within(Links(io.kernel), 5, 2)
    requires Landing(io, 0) + count <= 1474560
  {
    var r := Read(hw, io, 5, buf, count, pid, 2);
    r.Done? && r.buf[..count] == hw.diskB[Landing(io, 0)..Landing(io, 0) + count]
  }

  /** What a read of "/" comes to is decided by the drive at its landing place. */
  lemma RootIsDriveRead(hw: Hardware, io: Io, buf: seq<Byte>, count: Dword, pid: nat)
    requires |hw.stale| == 512 && pid <= 9 && count <= |buf| && KernelLinked(io)
    requires Landing(io, 0) + count <= 1474560
    ensures Within(Links(io.kernel), 5, 2) && Landing(io, pid) < 0x1_0000_0000
    ensures var b := DeviceRead(hw.diskB, hw.stale, buf, Landing(io, pid), count);
            RootDelivered(hw, io, buf, count, pid)
            <==> b.Some? && b.value[..count] == hw.diskB[Landing(io, 0)..Landing(io, 0) + count]
  {
    var target := (io.kernel[5].pfdOffset + io.kernel[5].pos) % 0x1_0000_0000;
    var io' := Lseek(io, 4, target, pid);
    assert io'.kernel[4].pos == Landing(io, pid);
    OneLayerRead(hw, io, 5, 4, buf, count, pid, io');
    LeafRead(hw, io', 4, buf, count, 0, 1);
  }

  /** Reading "/" where the root position can be read exactly is right for every disk if and
      only if it is empty, or the kernel asks, or the drive happens to stand there already, give
      or take the wrap of the cylinder byte. */
  lemma RootForProcessIff(io: Io, count: Dword, pid: nat)
    requires pid <= 9 && KernelLinked(io) && Landing(io, 0) + count <= 1474560 && ExactRequest(Landing(io, 0), count)
    ensures Within(Links(io.kernel), 5, 2)
    ensures count == 0 || pid == 0 || Wrapped(io.kernel[4].pos) == Landing(io, 0)
            <==> forall hw: Hardware, buf: seq<Byte> | |hw.stale| == 512 && |buf| == count ::
                   RootDelivered(hw, io, buf, count, pid)
  {
    var p := Landing(io, 0);
    TwoLevels(5);
    if count == 0 || pid == 0 || Wrapped(io.kernel[4].pos) == p {
      forall hw: Hardware, buf: seq<Byte> | |hw.stale| == 512 && |buf| == count
        ensures RootDelivered(hw, io, buf, count, pid)
      {
        RootIsDriveRead(hw, io, buf, count, pid);
        if count > 0 {
          WrappedReads(hw.diskB, hw.stale, buf, Landing(io, pid), count);
          ExactRequestReadsSlice(hw.diskB, hw.stale, buf, p, count);
        }
      }
    } else {
      var hw := Hardware(OneAt(p), OneAt(p), Fill<Byte>(512, 0), 0);
      var buf := Fill<Byte>(count, 0);
      RootIsDriveRead(hw, io, buf, count, pid);
      WrappedReads(OneAt(p), hw.stale, buf, io.kernel[4].pos, count);
      OtherFirstByte(hw.stale, buf, p, Wrapped(io.kernel[4].pos), count);
      assert !RootDelivered(hw, io, buf, count, pid) by {
        assert OneAt(p)[p..p + count][0] == 1;
      }
    }
  }

  /** Drive A is never opened by the kernel, so its descriptor still has descriptor 0 as parent
      and reading it takes keystrokes: the drive's contents do not matter. */
  lemma DriveADeliversKeys(hw: Hardware, io: Io, buf: seq<Byte>, count: Dword, pid: nat)
    requires |hw.stale| == 512 && pid <= 9 && count <= |buf| && KernelLinked(io) && count <= |io.typed|
    ensures Within(Links(io.kernel), 3, 2)
    ensures var r := Read(hw, io, 3, buf, count, pid, 2);
            r.Done? && r.buf == Overlay(buf, 0, io.typed[..count]) && r.io.typed == io.typed[count..] && r.bytesRead == 0
  {
    var io' := Lseek(io, 0, (io.kernel[3].pfdOffset + io.kernel[3].pos) % 0x1_0000_0000, pid);
    OneLayerRead(hw, io, 3, 0, buf, count, pid, io');
    LeafRead(hw, io', 0, buf, count, 0, 1);
  }
}
