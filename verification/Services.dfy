/**
 The descriptor services of dispatch and how far they write into the kernel's data: the block of
 a request lies in front of the saved stacks.
 */
module Services {
  import opened Bytes
  import opened CString
  import opened Decimal
  import opened Floppy
  import opened Descriptors
  import opened KernelIo
  import opened Chains
  import opened Directory
  import opened Layouts
  import opened Listings
  import opened Processes
  import opened FatFs
  import opened Machine
  import opened Invariant
  import opened Runs

  // ---------- the kernel's data from the block on ----------

  /** Does the word at `at` read `w`? */
  predicate Holds(data: seq<Byte>, at: nat, w: Word) {
    at + 2 <= |data| && data[at] == w % 0x100 && data[at + 1] == w / 0x100
  }

  /** `data` is the kernel's segment from the block on in state `s`: the block, the variables as
      declared behind it, and whatever follows. */
  predicate Lies(data: seq<Byte>, s: State) {
    && |data| >= 626 && data[..576] == s.params
    && Holds(data, 576, s.service) && Holds(data, 578, s.spbak) && Holds(data, 580, s.ssbak)
    && (forall i {:trigger s.spuser[i]} :: 0 <= i < 10 ==> Holds(data, 582 + 2 * i, s.spuser[i]))
    && (forall i {:trigger s.ssuser[i]} :: 0 <= i < 10 ==> Holds(data, 602 + 2 * i, s.ssuser[i]))
    && Holds(data, 622, s.suserp) && Holds(data, 624, s.dsuser)
  }

  /** The strings and the requests a service works on are the kernel's memory. */
  lemma ViewsLie(data: seq<Byte>, s: State)
    requires Lies(data, s)
    ensures FromBlock(s) == data[..582]
  {
  }

  lemma WordWritten(data: seq<Byte>, data': seq<Byte>, n: nat, at: nat, was: Word)
    requires n <= |data| == |data'| && data'[n..] == data[n..] && Holds(data, at, was)
    ensures Holds(data', at, WordIn(data'[..n], at, was))
  {
    assert forall i :: n <= i < |data| ==> data'[i] == data'[n..][i - n] == data[n..][i - n] == data[i];
  }

  /** A service that has written the first `n` bytes leaves exactly the state the machine says. */
  lemma OverwrittenIsWrite(data: seq<Byte>, data': seq<Byte>, n: nat, s: State)
    requires Lies(data, s) && 576 <= n <= |data| == |data'| && data'[n..] == data[n..]
    ensures Lies(data', Overwritten(s, data'[..n]))
  {
    var t := Overwritten(s, data'[..n]);
    assert data'[..n][..576] == data'[..576];
    WordWritten(data, data', n, 576, s.service);
    WordWritten(data, data', n, 578, s.spbak);
    WordWritten(data, data', n, 580, s.ssbak);
    WordWritten(data, data', n, 622, s.suserp);
    WordWritten(data, data', n, 624, s.dsuser);
    forall i | 0 <= i < 10
      ensures Holds(data', 582 + 2 * i, t.spuser[i]) && Holds(data', 602 + 2 * i, t.ssuser[i])
    {
      WordWritten(data, data', n, 582 + 2 * i, s.spuser[i]);
      WordWritten(data, data', n, 602 + 2 * i, s.ssuser[i]);
    }
  }

  // ---------- how far a read writes ----------

  /** A device read of `size` bytes leaves everything from `bound` on alone, whatever the disk, the
      stack and the position, if and only if `size` is at most `bound`.  With 576 that is the block
      itself, with 584 everything the suspended callers rely on. */
  lemma ReadStaysBelowIff(size: nat, bound: nat, room: nat)
    requires size <= room <= 0x1_0000 && bound <= room
    ensures size <= bound
            <==> forall disk: Disk, stale: seq<Byte>, data: seq<Byte>, pos: Dword | |stale| == 512 && |data| == room ::
                   Spares(disk, stale, data, pos, size, bound)
  {
    if size <= bound {
      forall disk: Disk, stale: seq<Byte>, data: seq<Byte>, pos: Dword | |stale| == 512 && |data| == room
        ensures Spares(disk, stale, data, pos, size, bound)
      {
        ReadStaysInside(disk, stale, data, pos, size);
        var r := DeviceRead(disk, stale, data, pos, size);
        if r.Some? {
          assert r.value[bound..] == r.value[size..][bound - size..] && data[bound..] == data[size..][bound - size..];
        }
      }
    } else {
      var disk, stale, data := OneAt(bound), Fill<Byte>(512, 0), Fill<Byte>(room, 0);
      ExactRequestReadsSlice(disk, stale, data, 0, size);
      var r := Overlay(data, 0, disk[0..size]);
      assert r[bound..][0] == 1 && data[bound..][0] == 0;
      assert !Spares(disk, stale, data, 0, size, bound);
    }
  }

  predicate Spares(disk: Disk, stale: seq<Byte>, data: seq<Byte>, pos: Dword, size: nat, bound: nat)
    requires |stale| == 512 && size <= |data| && bound <= |data|
  {
    var r := DeviceRead(disk, stale, data, pos, size);
    r.Some? ==> r.value[bound..] == data[bound..]
  }

  /** No descriptor delivers more than was asked for. */
  lemma {:induction false} ReadWritesAtMost(hw: Hardware, io: Io, fd: nat, buf: seq<Byte>, count: Dword, pid: nat, k: nat)
    requires pid <= 9 && count <= |buf| && |hw.stale| == 512 && Within(Links(io.kernel), fd, k)
    ensures var r := Read(hw, io, fd, buf, count, pid, k);
            r.Done? ==> |r.buf| == |buf| && r.buf[count..] == buf[count..]
    decreases k
  {
    var d := io.kernel[fd];
    if d.pfd != -1 {
      var io' := Lseek(io, d.pfd, (d.pfdOffset + d.pos) % 0x1_0000_0000, pid);
      assert Links(io'.kernel) == Links(io.kernel);
      ReadWritesAtMost(hw, io', d.pfd, buf, count, 0, k - 1);
    } else if fd == 3 || fd == 4 {
      ReadStaysInside(if fd == 3 then hw.diskA else hw.diskB, hw.stale, buf, io.kernel[fd].pos, count);
    }
  }

  /** Standard output delivers nothing. */
  lemma StdoutDeliversNothing(hw: Hardware, io: Io, buf: seq<Byte>, count: Dword, pid: nat)
    requires pid <= 9 && count <= |buf| && |hw.stale| == 512 && KernelLinked(io)
    ensures Within(Links(io.kernel), 1, 2)
    ensures Read(hw, io, 1, buf, count, pid, 2) == Done(Advance(io, 1, hw.junk), buf, hw.junk)
  {
    LeafRead(hw, io, 1, buf, count, pid, 2);
  }

  // ---------- dispatch ----------

  /** The path a request starts with. */
  function PathIn(data: seq<Byte>): string {
    Chars(if Terminated(data) then CStr(data) else data)
  }

  /** What services 10 to 13 ask of the tables, on behalf of `pid`; service 13 reads into the data
      from the block on. */
  function OpOf(service: Word, data: seq<Byte>, pid: nat): (op: Op)
    requires 10 <= service <= 13 && |data| >= 584
  {
    if service == 10 then OpenOp(PathIn(data), pid)
    else if service == 11 then CloseOp(Le32(data, 516), pid)
    else if service == 12 then LseekOp(Le32(data, 516), Le32(data, 520), pid)
    else ReadOp(Le32(data, 516), data, Le32(data, 512), pid)
  }

  lemma SixLevels(fd: nat)
    requires fd < 6
    ensures Within(KERNEL_LINKS, fd, 6)
  {
    assert Within(KERNEL_LINKS, 0, 5) && Within(KERNEL_LINKS, 4, 5);
  }

  // ---------- the services themselves, over the tables ----------

  /** An int of the kernel, 32 bits in two's complement. */
  function Signed32(n: int): Dword
    requires -0x8000_0000 <= n < 0x8000_0000
  {
    n % 0x1_0000_0000
  }

  /** What a service comes to: it does not come back, or with these tables and with this in the
      kernel's data from the block on. */
  datatype Effect = Gone | Back(io: Io, data: seq<Byte>)

  function AfterRead(r: Outcome): Effect {
    match r
    case Done(io, data, _) => Back(io, data)
    case _ => Gone
  }

  /** Every service but 7 and 9: the key of service 6 and the calls of 10 to 13.  hlt, a reboot, a
      missing key and a drive error do not come back; the others only print. */
  function Effected(hw: Hardware, root: Root, io: Io, service: Word, data: seq<Byte>, pid: nat): Effect
    requires |hw.stale| == 512 && KernelLinked(io) && 1 <= pid <= 9 && |data| >= 584
    requires InTables(service, data[..576]) && (service == 13 ==> Le32(data, 512) <= |data|)
  {
    assert Le32(data[..576], 516) == Le32(data, 516);
    if service == 1 || service == 2 then Gone
    else if service == 6 then TwoLevels(0); AfterRead(Read(hw, io, 0, data, 1, 0, 2))
    else if service == 10 then
      Back(Open(io, PathIn(data), pid, root), Overlay(data, 516, Bytes32(Signed32(OpenSlot(PathIn(data))))))
    else if service == 11 then Back(Close(io, Le32(data, 516), pid), data)
    else if service == 12 then Back(Lseek(io, Le32(data, 516), Le32(data, 520), pid), data)
    else if service == 13 then SixLevels(Le32(data, 516)); AfterRead(Read(hw, io, Le32(data, 516), data, Le32(data, 512), pid, 6))
    else Back(io, data)
  }

  lemma EffectIsOp(hw: Hardware, root: Root, io: Io, service: Word, data: seq<Byte>, pid: nat)
    requires |hw.stale| == 512 && KernelLinked(io) && 1 <= pid <= 9 && |data| >= 584 && 10 <= service <= 13
    requires InTables(service, data[..576]) && (service == 13 ==> Le32(data, 512) <= |data|)
    ensures Allowed(OpOf(service, data, pid))
    ensures var e := Effected(hw, root, io, service, data, pid);
            Apply(hw, root, io, OpOf(service, data, pid)) == if e.Gone? then None else Some(e.io)
  {
    assert Le32(data[..576], 516) == Le32(data, 516);
    if service == 13 { SixLevels(Le32(data, 516)); }
  }

  // ---------- requests laid out as the user library does ----------

  /** SYSCALL_STREAM: 512 bytes of data, then size, descriptor and offset, all 32 bits wide. */
  datatype Request = Request(data: seq<Byte>, size: Dword, fd: Dword, offset: Dword, rest: seq<Byte>)
  {
    predicate Valid() { |data| == 512 && |rest| == 52 }
  }

  function LaidRequest(r: Request): (b: Block)
    requires r.Valid()
  {
    r.data + Bytes32(r.size) + Bytes32(r.fd) + Bytes32(r.offset) + r.rest
  }

  lemma FieldsOfRequest(r: Request, behind: seq<Byte>)
    requires r.Valid()
    ensures var data := LaidRequest(r) + behind;
            && data[..576] == LaidRequest(r) && data[..512] == r.data
            && Le32(data, 512) == Le32(data[..576], 512) == r.size && Le32(data, 516) == Le32(data[..576], 516) == r.fd
            && Le32(data, 520) == r.offset
  {
    var b, data := LaidRequest(r), LaidRequest(r) + behind;
    assert b[512..516] == Bytes32(r.size) && b[516..520] == Bytes32(r.fd);
    assert data[512..516] == Bytes32(r.size) && data[516..520] == Bytes32(r.fd) && data[520..524] == Bytes32(r.offset);
    ReadsBack32(b, 512, r.size);
    ReadsBack32(b, 516, r.fd);
    ReadsBack32(data, 512, r.size);
    ReadsBack32(data, 516, r.fd);
    ReadsBack32(data, 520, r.offset);
  }

  /** Which requests the machine follows, and how far into the kernel's data it lets them write:
      descriptors of the six, process sizes of six digits, and as many bytes as a read asks for. */
  lemma AcceptedRequests(r: Request, service: Word, procs: ProcTable)
    requires r.Valid()
    ensures InTables(service, LaidRequest(r)) <==> service !in {11, 12, 13} || r.fd < 6
    ensures SizesFit(service, procs) <==>
            service != 8 || forall i :: 0 <= i < 9 ==> procs[i].pid == 0 || |Text(procs[i].size)| <= 6
    ensures Reach(service, LaidRequest(r)) == if service == 13 && r.fd != 1 && r.size > 576 then r.size else 576
  {
    FieldsOfRequest(r, []);
    assert LaidRequest(r) + [] == LaidRequest(r);
    forall i | 0 <= i < 9 ensures |Text(procs[i].size)| <= 6 <==> procs[i].size <= 999999 { ItoaFitsIff(procs[i].size); }
  }

  predicate Asks(r: Request, service: Word, room: nat) {
    r.Valid() && (11 <= service <= 13 ==> r.fd < 6) && (service == 13 ==> r.size <= room)
  }

  lemma AsksInTables(r: Request, behind: seq<Byte>, service: Word)
    requires |behind| >= 8 && Asks(r, service, 576 + |behind|)
    ensures var data := LaidRequest(r) + behind;
            InTables(service, data[..576]) && (service == 13 ==> Le32(data, 512) <= |data|)
  {
    FieldsOfRequest(r, behind);
  }

  /** close, lseek and read act on the descriptor, offset and size the library stored. */
  lemma StreamEffects(hw: Hardware, root: Root, io: Io, r: Request, behind: seq<Byte>, pid: nat)
    requires |hw.stale| == 512 && KernelLinked(io) && 1 <= pid <= 9 && |behind| >= 8 && Asks(r, 13, 576 + |behind|)
    ensures var data := LaidRequest(r) + behind;
            && InTables(11, data[..576]) && InTables(12, data[..576]) && InTables(13, data[..576])
            && Le32(data, 512) <= |data| && Within(Links(io.kernel), r.fd, 6)
            && Effected(hw, root, io, 11, data, pid) == Back(Close(io, r.fd, pid), data)
            && Effected(hw, root, io, 12, data, pid) == Back(Lseek(io, r.fd, r.offset, pid), data)
            && Effected(hw, root, io, 13, data, pid) == AfterRead(Read(hw, io, r.fd, data, r.size, pid, 6))
  {
    FieldsOfRequest(r, behind);
    SixLevels(r.fd);
  }

  /** A descriptor as a 32-bit number, -1 for none. */
  function Slot32(fd: int): Dword
    requires -1 <= fd < 6
  {
    if fd == -1 then 0xFFFF_FFFF else fd
  }

  lemma SlotIsSigned(fd: int)
    requires -1 <= fd < 6
    ensures Signed32(fd) == Slot32(fd)
  {
  }

  lemma OpenEffected(hw: Hardware, root: Root, io: Io, data: seq<Byte>, path: string, pid: nat)
    requires |hw.stale| == 512 && KernelLinked(io) && 1 <= pid <= 9 && |data| >= 584 && PathIn(data) == path
    ensures InTables(10, data[..576])
    ensures Effected(hw, root, io, 10, data, pid) == Back(Open(io, path, pid, root), Overlay(data, 516, Bytes32(Slot32(OpenSlot(path)))))
  {
    SlotIsSigned(OpenSlot(path));
  }

  /** open stores the descriptor of the path the request starts with. */
  lemma OpenEffect(hw: Hardware, root: Root, io: Io, r: Request, behind: seq<Byte>, path: string, pid: nat)
    requires |hw.stale| == 512 && KernelLinked(io) && 1 <= pid <= 9 && |behind| >= 8 && r.Valid()
    requires PathIn(LaidRequest(r) + behind) == path
    ensures var data := LaidRequest(r) + behind;
            InTables(10, data[..576])
            && Effected(hw, root, io, 10, data, pid) == Back(Open(io, path, pid, root), LaidRequest(r.(fd := Slot32(OpenSlot(path)))) + behind)
  {
    OpenEffected(hw, root, io, LaidRequest(r) + behind, path, pid);
    DescriptorPlaced(r, behind, Slot32(OpenSlot(path)));
  }

  lemma DescriptorPlaced(r: Request, behind: seq<Byte>, fd: Dword)
    requires r.Valid()
    ensures Overlay(LaidRequest(r) + behind, 516, Bytes32(fd)) == LaidRequest(r.(fd := fd)) + behind
  {
    var head := r.data + Bytes32(r.size);
    var tail := Bytes32(r.offset) + r.rest + behind;
    assert LaidRequest(r) + behind == head + (Bytes32(r.fd) + tail);
    assert LaidRequest(r.(fd := fd)) + behind == head + (Bytes32(fd) + tail);
    OverlayMiddle(head, Bytes32(r.fd), Bytes32(fd), tail);
  }

  lemma OverlayMiddle<T>(head: seq<T>, was: seq<T>, src: seq<T>, tail: seq<T>)
    requires |was| == |src|
    ensures Overlay(head + (was + tail), |head|, src) == head + (src + tail)
  {
  }

  /** That path is the string at the start of the data. */
  lemma PathInRequest(r: Request, behind: seq<Byte>, path: string)
    requires r.Valid() && IsAscii(path) && 0 !in Ascii(path) && Ascii(path) + [0] <= r.data
    ensures PathIn(LaidRequest(r) + behind) == path
  {
    var data, n := LaidRequest(r) + behind, |path|;
    assert data[n] == r.data[n] == (Ascii(path) + [0])[n];
    assert data[..n] == r.data[..n] == (Ascii(path) + [0])[..n];
    PathIsTaken(data, path);
  }

  lemma PathIsTaken(data: seq<Byte>, path: string)
    requires IsAscii(path) && 0 !in Ascii(path) && |path| < |data| && data[..|path|] == Ascii(path) && data[|path|] == 0
    ensures PathIn(data) == path
  {
    CStrIs(data, |path|);
  }

  /** A key goes to the first byte of the block; hlt and reboot do not come back; services 0, 3, 4,
      5, 8, 14, 15 and all numbers beyond change neither tables nor memory. */
  lemma OtherEffects(hw: Hardware, root: Root, io: Io, data: seq<Byte>, service: Word, pid: nat)
    requires |hw.stale| == 512 && KernelLinked(io) && 1 <= pid <= 9 && |data| >= 584
    ensures var e := Effected(hw, root, io, 6, data, pid);
            if io.typed == [] then e == Gone else e == Back(io.(typed := io.typed[1..]), [io.typed[0]] + data[1..])
    ensures Effected(hw, root, io, 1, data, pid) == Effected(hw, root, io, 2, data, pid) == Gone
    ensures service in {0, 3, 4, 5, 8, 14, 15} || service > 15 ==>
              InTables(service, data[..576]) && Effected(hw, root, io, service, data, pid) == Back(io, data)
  {
    TwoLevels(0);
    LeafRead(hw, io, 0, data, 1, 0, 2);
    if io.typed != [] {
      assert Overlay(data, 0, io.typed[..1]) == [io.typed[0]] + data[1..];
      var d := io.kernel[0];
      assert io.kernel[0 := d.(pos := (d.pos + 0) % 0x1_0000_0000)] == io.kernel;
    }
  }

  /** On the tables services 10 to 13 are the calls whose runs ReadsTerminateInEveryRun is about. */
  lemma EffectIsCall(hw: Hardware, root: Root, io: Io, r: Request, behind: seq<Byte>, service: Word, pid: nat, op: Op)
    requires |hw.stale| == 512 && KernelLinked(io) && 1 <= pid <= 9 && |behind| >= 8 && Asks(r, service, 576 + |behind|)
    requires match service
             case 11 => op == CloseOp(r.fd, pid)
             case 12 => op == LseekOp(r.fd, r.offset, pid)
             case 13 => op == ReadOp(r.fd, LaidRequest(r) + behind, r.size, pid)
             case _ => service == 10 && op.OpenOp? && op.pid == pid && IsAscii(op.path) && 0 !in Ascii(op.path)
                       && Ascii(op.path) + [0] <= r.data
    ensures var data := LaidRequest(r) + behind;
            InTables(service, data[..576]) && (service == 13 ==> Le32(data, 512) <= |data|) && Allowed(op)
            && var e := Effected(hw, root, io, service, data, pid);
               Apply(hw, root, io, op) == if e.Gone? then None else Some(e.io)
  {
    var data := LaidRequest(r) + behind;
    FieldsOfRequest(r, behind);
    if service == 10 { PathInRequest(r, behind, op.path); }
    EffectIsOp(hw, root, io, service, data, pid);
  }

  predicate ComesTo(e: Effect, ok: bool, io: Io, data: seq<Byte>) {
    match e
    case Gone => !ok
    case Back(io', data') => ok && io == io' && data == data'
  }

  /** A service keeps "/" where the volume has it. */
  lemma EffectKeepsRoot(hw: Hardware, root: Root, io: Io, service: Word, data: seq<Byte>, pid: nat)
    requires |hw.stale| == 512 && KernelReady(io, root) && 1 <= pid <= 9 && |data| >= 584
    requires InTables(service, data[..576]) && (service == 13 ==> Le32(data, 512) <= |data|)
    ensures var e := Effected(hw, root, io, service, data, pid); e.Back? ==> KernelReady(e.io, root)
  {
    if 10 <= service <= 13 {
      EffectIsOp(hw, root, io, service, data, pid);
      ApplyKeepsLinks(hw, root, io, OpOf(service, data, pid));
    } else if service == 6 {
      TwoLevels(0);
      ReadKeepsLinks(hw, io, 0, data, 1, 0, 2);
    }
  }

  /** Service 10. */
  method ServeOpen(fs: FatFs, data: array<Byte>, pid: nat)
    requires fs.Valid() && 1 <= pid <= 9 && data.Length >= 584
    modifies fs.io.kernel, fs.io.user, data
    ensures fs.io.Valid() && fs.io.Abs() == Open(old(fs.io.Abs()), PathIn(old(data[..])), pid, RootOf(fs.Vol()))
    ensures data[..] == Overlay(old(data[..]), 516, Bytes32(Signed32(OpenSlot(PathIn(old(data[..]))))))
  {
    var fd := fs.io.Open(PathIn(data[..]), pid, RootOf(fs.Vol()));
    MemCpy(data, 516, Bytes32(Signed32(fd)));
  }

  /** Services 6 and 13: false when no key is there or the drive fails. */
  method ServeRead(fs: FatFs, fd: nat, data: array<Byte>, size: Dword, pid: nat, ghost k: nat) returns (ok: bool)
    requires fs.Valid() && fd < 6 && size <= data.Length && pid <= 9 && Within(Links(fs.io.kernel[..]), fd, k)
    modifies fs.io`typed, fs.io.kernel, fs.io.user, data
    ensures fs.io.Valid() && ComesTo(AfterRead(Read(fs.io.hw, old(fs.io.Abs()), fd, old(data[..]), size, pid, k)), ok, fs.io.Abs(), data[..])
  {
    var n;
    ok, n := fs.io.Read(fd, data, size, pid, k);
  }

  /** The switch of dispatch for every service but 7 and 9; what a service prints is not followed. */
  method ServeTables(fs: FatFs, service: Word, data: array<Byte>, pid: nat) returns (ok: bool)
    requires fs.RootOpen() && 1 <= pid <= 9 && service != 7 && service != 9 && data.Length >= 584
    requires InTables(service, data[..576]) && (service == 13 ==> Le32(data[..], 512) <= data.Length)
    modifies fs.io`typed, fs.io.kernel, fs.io.user, data
    ensures ComesTo(Effected(fs.io.hw, RootOf(fs.Vol()), old(fs.io.Abs()), service, old(data[..]), pid), ok, fs.io.Abs(), data[..])
  {
    assert Le32(data[..576], 516) == Le32(data[..], 516);
    ok := service != 1 && service != 2;
    if service == 6 {
      TwoLevels(0);
      ok := ServeRead(fs, 0, data, 1, 0, 2);
    } else if service == 10 {
      ServeOpen(fs, data, pid);
    } else if service == 11 {
      fs.io.Close(Le32(data[..], 516), pid);
    } else if service == 12 {
      fs.io.Lseek(Le32(data[..], 516), Le32(data[..], 520), pid);
    } else if service == 13 {
      SixLevels(Le32(data[..], 516));
      ok := ServeRead(fs, Le32(data[..], 516), data, Le32(data[..], 512), pid, 6);
    }
  }

  /** "/" opened again and rewound. */
  method RewindRoot(fs: FatFs)
    requires fs.RootOpen()
    modifies fs.io`typed, fs.io.kernel, fs.io.user
    ensures fs.RootAt(0)
  {
    var fd := fs.io.Open("/", 0, RootOf(fs.Vol()));
    fs.io.Lseek(5, 0, 0);
  }

  /** The root directory opened again and listed from its start. */
  method ListRoot(fs: FatFs, bufSize: nat, records: array<FileRecord>) returns (files: nat)
    requires fs.RootOpen() && Servable(fs.io.hw.diskB, fs.Vol()) && bufSize / 28 <= records.Length
    modifies fs.io`typed, fs.io.kernel, fs.io.user, records
    ensures fs.RootOpen() && files <= bufSize / 28
    ensures records[..files] == Listing(RootEntries(fs.io.hw.diskB, fs.Vol()), bufSize / 28)
  {
    ghost var es := RootEntries(fs.io.hw.diskB, fs.Vol());
    RewindRoot(fs);
    files := fs.ListRootFiles(bufSize, records, 0);
    assert es[0..] == es;
  }

  /** Service 9 has room for 512 bytes of records. */
  method ServeList(fs: FatFs) returns (records: array<FileRecord>, files: nat)
    requires fs.RootOpen() && Servable(fs.io.hw.diskB, fs.Vol())
    modifies fs.io`typed, fs.io.kernel, fs.io.user
    ensures fs.RootOpen() && fresh(records) && files <= 18 <= records.Length
    ensures records[..files] == Listing(RootEntries(fs.io.hw.diskB, fs.Vol()), 512 / 28)
  {
    records := new FileRecord[18](_ => FileRecord([], [], false, false, 0, Stamp(0, 0, 0, 0, 0, 0)));
    files := ListRoot(fs, 512, records);
  }

  /** The block of service 9: the records that fit and how many they are. */
  function WithListing(data: seq<Byte>, es: seq<seq<Byte>>): seq<Byte>
    requires |data| >= 584 && Entries(es)
  {
    var rs := Listing(es, 512 / 28);
    Overlay(LaidRecords(data, rs, |rs|), 512, Bytes32(|rs|))
  }

  /** What a program finds in the block: how many records there are, and the k-th file of the
      directory as the k-th record. */
  lemma ListingInBlock(data: seq<Byte>, fs: seq<Entry32>, k: nat)
    requires |data| >= 584 && AllValid(fs)
    ensures var b, n := WithListing(data, LaidEntries(fs)), Min(18, |Records(fs)|);
            && |b| == |data| && Le32(b, 512) == n && b[516..] == data[516..]
            && (k < n ==> Records(fs)[k].Short() && b[28 * k..28 * k + 28] == LaidRecord(data[28 * k..28 * k + 28], Records(fs)[k]))
  {
    var es := LaidEntries(fs);
    var rs := Listing(es, 512 / 28);
    FilesOfEntries(fs);
    ListingIsFirstFiles(es, 512 / 28);
    if k < |rs| { RecordInBlock(data, rs, |rs|, k); }
    TailOfBlock(data, rs, |rs|);
    CountBehind(data, LaidRecords(data, rs, |rs|), |rs|, k);
  }

  lemma CountBehind(data: seq<Byte>, d: seq<Byte>, n: nat, k: nat)
    requires |d| == |data| >= 584 && n <= 18 && d[28 * n..] == data[28 * n..]
    ensures var b := Overlay(d, 512, Bytes32(n));
            Le32(b, 512) == n && b[516..] == data[516..] && (k < n ==> b[28 * k..28 * k + 28] == d[28 * k..28 * k + 28])
  {
    var b := Overlay(d, 512, Bytes32(n));
    assert b[512..516] == Bytes32(n);
    ReadsBack32(b, 512, n);
    TailSlice(d, data, 28 * n, 516 - 28 * n);
    assert b[516..] == d[516..];
    if k < n { assert b[28 * k..28 * k + 28] == d[28 * k..28 * k + 28]; }
  }

  /** Service 9 into the memory from the block on. */
  method ServeListing(fs: FatFs, data: array<Byte>)
    requires fs.RootOpen() && Servable(fs.io.hw.diskB, fs.Vol()) && data.Length >= 584
    modifies fs.io`typed, fs.io.kernel, fs.io.user, data
    ensures fs.RootOpen() && data[..] == WithListing(old(data[..]), RootEntries(fs.io.hw.diskB, fs.Vol()))
  {
    var records, files := ServeList(fs);
    PutRecords(data, records, files);
    MemCpy(data, 512, Bytes32(files));
  }

  /** dispatch without service 7, over the kernel's memory from the block on.  False when the call
      does not come back. */
  method Dispatch(fs: FatFs, service: Word, data: array<Byte>, pid: nat) returns (ok: bool)
    requires fs.RootOpen() && Servable(fs.io.hw.diskB, fs.Vol()) && 1 <= pid <= 9 && service != 7
    requires data.Length >= 584 && InTables(service, data[..576]) && (service == 13 ==> Le32(data[..], 512) <= data.Length)
    modifies fs.io`typed, fs.io.kernel, fs.io.user, data
    ensures ok ==> fs.RootOpen()
    ensures service != 9 ==>
              ComesTo(Effected(fs.io.hw, RootOf(fs.Vol()), old(fs.io.Abs()), service, old(data[..]), pid), ok, fs.io.Abs(), data[..])
    ensures service == 9 ==> ok && data[..] == WithListing(old(data[..]), RootEntries(fs.io.hw.diskB, fs.Vol()))
  {
    ok := true;
    if service == 9 {
      ServeListing(fs, data);
    } else {
      EffectKeepsRoot(fs.io.hw, RootOf(fs.Vol()), fs.io.Abs(), service, data[..], pid);
      ok := ServeTables(fs, service, data, pid);
    }
  }

  /** Where the serving step leads is where the write leads. */
  lemma ServedWrite(cfg: Config, s: State, data: seq<Byte>, data': seq<Byte>, n: nat, junk: Stack)
    requires ValidConfig(cfg) && s.mode == Serving && Service(cfg, s) != 7 && Accepted(cfg, s) && 6 <= TrapTop(cfg, s) <= 0x8000
    requires Lies(data, s) && n == Reach(Service(cfg, s), s.params) <= |data| == |data'| && cfg.params + n <= 0x1_0000
    requires data'[n..] == data[n..]
    ensures var next := Next(cfg, s, Serve(data'[..n], junk));
            next.Some? && next.value.mode == Returning && Lies(data', next.value)
  {
    OverwrittenIsWrite(data, data', n, Scribbled(s, junk));
  }

  lemma ReadReaches(hw: Hardware, io: Io, b: Block, data: seq<Byte>, pid: nat)
    requires |hw.stale| == 512 && KernelLinked(io) && pid <= 9 && InTables(13, b) && Le32(b, 512) <= |data| && Reach(13, b) <= |data|
    ensures Le32(b, 516) < 6 && Within(Links(io.kernel), Le32(b, 516), 2)
    ensures var r := Read(hw, io, Le32(b, 516), data, Le32(b, 512), pid, 2);
            r.Done? ==> |r.buf| == |data| && r.buf[Reach(13, b)..] == data[Reach(13, b)..]
  {
    var fd, size, n := Le32(b, 516), Le32(b, 512), Reach(13, b);
    TwoLevels(fd);
    var r := Read(hw, io, fd, data, size, pid, 2);
    if r.Done? {
      ReadWritesAtMost(hw, io, fd, data, size, pid, 2);
      if fd == 1 {
        StdoutDeliversNothing(hw, io, data, size, pid);
      } else {
        assert r.buf[n..] == r.buf[size..][n - size..] && data[n..] == data[size..][n - size..];
      }
    }
  }

  /** Service 13 is the machine's serving step: what it leaves in the kernel's data, past the block
      included, is where that step leads. */
  lemma ReadServiceIsServe(cfg: Config, s: State, hw: Hardware, io: Io, data: seq<Byte>, junk: Stack)
    requires ValidConfig(cfg) && s.mode == Serving && Service(cfg, s) == 13 && Accepted(cfg, s) && 6 <= TrapTop(cfg, s) <= 0x8000
    requires Lies(data, s) && cfg.params + |data| <= 0x1_0000 && Le32(s.params, 512) <= |data|
    requires |hw.stale| == 512 && KernelLinked(io) && s.running <= 9
    ensures Le32(s.params, 516) < 6 && Within(Links(io.kernel), Le32(s.params, 516), 2)
    ensures var r := Read(hw, io, Le32(s.params, 516), data, Le32(s.params, 512), s.running, 2);
            r.Done? ==> |r.buf| == |data|
                        && var next := Next(cfg, s, Serve(r.buf[..Reach(13, s.params)], junk));
                           next.Some? && next.value.mode == Returning && Lies(r.buf, next.value)
  {
    ReadReaches(hw, io, s.params, data, s.running);
    var r := Read(hw, io, Le32(s.params, 516), data, Le32(s.params, 512), s.running, 2);
    if r.Done? { ServedWrite(cfg, s, data, r.buf, Reach(13, s.params), junk); }
  }

  // ---------- the failing input ----------

  /** A write over all the variables decides what sysexit pops. */
  lemma WrittenStackIsPopped(cfg: Config, s: State, area: seq<Byte>, junk: Stack)
    requires ValidConfig(cfg) && s.mode == Serving && Service(cfg, s) != 7 && Accepted(cfg, s) && 6 <= TrapTop(cfg, s) <= 0x7FFF
    requires |area| == Reach(Service(cfg, s), s.params) && |area| >= 626 && cfg.params + |area| <= 0x1_0000
    requires Le16(area, 622) == 2 && Scribbled(s, junk).kstack[TrapTop(cfg, s) - 2] in s.mem
    ensures var t := Next(cfg, s, Serve(area, junk));
            && t.Some? && t.value.mode == Returning && SysReturn(cfg, t.value).mode == User
            && SysReturn(cfg, t.value).cpu.sp == Le16(area, 584) && SysReturn(cfg, t.value).cpu.ss == Le16(area, 604)
  {
    var t := LeaveDispatch(cfg, Overwritten(Scribbled(s, junk), area), TrapTop(cfg, s));
    assert t.spuser[1] == WordIn(area, 584, s.spuser[1]) && t.ssuser[1] == WordIn(area, 604, s.ssuser[1]);
  }

  lemma OversizedRead(hw: Hardware, io: Io, data: seq<Byte>, pid: nat)
    requires |hw.stale| == 512 && KernelLinked(io) && pid <= 9 && io.kernel[4].pos == 0 && |data| >= 640
    ensures Within(Links(io.kernel), 4, 2)
    ensures var r := Read(hw, io, 4, data, 640, pid, 2);
            r.Done? && |r.buf| == |data| && r.buf[..640] == hw.diskB[..640]
  {
    DeviceFdReadsSlice(hw, io, data, 640, pid, 2);
    assert Overlay(data, 0, hw.diskB[0..640])[..640] == hw.diskB[..640];
  }

  /** The library's myread(4, buf, 640) with the drive at its start: the stack the program resumes
      with is read from the disk.  Here on every disk whose bytes 622 and 623 leave `suserp` at
      slot 1, where the only program's stack is saved. */
  lemma OversizedReadLosesStack(cfg: Config, s: State, hw: Hardware, io: Io, data: seq<Byte>, junk: Stack)
    requires ValidConfig(cfg) && s.mode == Serving && Service(cfg, s) == 13 && 6 <= TrapTop(cfg, s) <= 0x7FFF
    requires Lies(data, s) && |data| >= 640 && cfg.params + |data| <= 0x1_0000
    requires Le32(s.params, 516) == 4 && Le32(s.params, 512) == 640
    requires |hw.stale| == 512 && KernelLinked(io) && s.running <= 9 && io.kernel[4].pos == 0
    requires Le16(hw.diskB, 622) == 2 && Scribbled(s, junk).kstack[TrapTop(cfg, s) - 2] in s.mem
    ensures !Confined(cfg, s) && Within(Links(io.kernel), 4, 2)
    ensures var r := Read(hw, io, 4, data, 640, s.running, 2);
            && r.Done? && |r.buf| == |data|
            && var t := Next(cfg, s, Serve(r.buf[..640], junk));
               t.Some? && t.value.mode == Returning
               && SysReturn(cfg, t.value).mode == User
               && SysReturn(cfg, t.value).cpu.sp == Le16(hw.diskB, 584) && SysReturn(cfg, t.value).cpu.ss == Le16(hw.diskB, 604)
  {
    OversizedRead(hw, io, data, s.running);
    var area := hw.diskB[..640];
    assert Le16(area, 584) == Le16(hw.diskB, 584) && Le16(area, 604) == Le16(hw.diskB, 604) && Le16(area, 622) == 2;
    WrittenStackIsPopped(cfg, s, area, junk);
  }
}
