/**
 The kernel as a step machine: system calls by `int 80h`, nested program execution through
 `farcall`, and the single set of saved-stack globals every nesting level reuses.
 */
module Machine {
  import opened Bytes
  import opened CString
  import opened Floppy
  import opened Chains
  import opened FatFs
  import opened Segments
  import opened Processes

  const KERNEL: Word := 0x1000

  /** Tags standing for the two places run_program is called from. */
  const FROM_STARTK: Word := 1
  const FROM_DISPATCH: Word := 2

  datatype Cpu = Cpu(ax: Word, bx: Word, cx: Word, dx: Word, si: Word, di: Word, bp: Word, flags: Word,
                     ds: Word, es: Word, ss: Word, sp: Word)

  /** What the compiler and linker fix: words of stack each C function keeps for itself, the offset
      of the parameter block and the return address CALL FAR leaves on a program's stack; and the
      mounted volume. */
  datatype Config = Config(startk: nat, dispatch: nat, run: nat, params: Word, farReturn: seq<Byte>, disk: Disk,
                           stale: seq<Byte>, vol: Volume)

  predicate Linked(cfg: Config) {
    && |cfg.farReturn| == 4 && cfg.params + 626 <= 0xFFFF && |cfg.stale| == 512 && FitsLoader(cfg.vol.bpb)
    && cfg.vol.pos.rootStart + 32 * cfg.vol.bpb.rootEntries <= 1474560
  }

  /** The volume is the one mount finds on the disk, and one the loader can serve. */
  ghost predicate ValidConfig(cfg: Config) {
    Linked(cfg) && Servable(cfg.disk, cfg.vol) && Mountable(cfg.disk) && cfg.vol == MountedVolume(cfg.disk)
  }

  /** Where control is: in startk's loop, in the innermost program, in dispatch, just back in
      run_program from a program, past dispatch on the way to the user, or lost. */
  datatype Mode = Idle | User | Serving | Resumed | Returning | Fault

  /** A 64K segment's contents. */
  type Segment = m: seq<Byte> | |m| == 0x1_0000 witness Fill<Byte>(0x1_0000, 0)

  /** The kernel's stack segment, word by word. */
  type Stack = k: seq<Word> | |k| == 0x8000 witness Fill<Word>(0x8000, 0)

  /** Ten words, as declared for spuser and ssuser. */
  type SaveArea = a: seq<Word> | |a| == 10 witness Fill<Word>(10, 0)

  /** The parameter block: 288 words. */
  type Block = b: seq<Byte> | |b| == 576 witness Fill<Byte>(576, 0)

  datatype State = State(
    mode: Mode, cpu: Cpu, kstack: Stack,
    service: Word, spbak: Word, ssbak: Word, spuser: SaveArea, ssuser: SaveArea, suserp: Word, dsuser: Word, params: Block,
    segs: SegTable, procs: ProcTable, running: nat,
    mem: map<Word, Segment>)

  // ---------- the kernel stack ----------

  /** `vs` pushed one after the other from word index `top` down. */
  function PushAll(k: Stack, top: nat, vs: seq<Word>): (r: Stack)
    requires |vs| <= top <= 0x8000
    ensures forall j {:trigger r[j]} :: 0 <= j < 0x8000 ==> r[j] == if top - |vs| <= j < top then vs[top - 1 - j] else k[j]
  {
    seq(0x8000, j requires 0 <= j < 0x8000 => if top - |vs| <= j < top then vs[top - 1 - j] else k[j])
  }

  /** Whatever balanced C calls leave below the stack pointer. */
  function Scribble(k: Stack, top: nat, junk: Stack): (r: Stack)
    requires top <= 0x8000
    ensures forall j {:trigger r[j]} :: 0 <= j < 0x8000 ==> r[j] == if j < top then junk[j] else k[j]
  {
    junk[..top] + k[top..]
  }

  // ---------- user memory ----------

  /** The 576 bytes lodsw reads from offset `at` on; offsets wrap in the segment. */
  function BlockAt(m: Segment, at: Word): (r: Block)
    ensures forall i {:trigger r[i]} :: 0 <= i < 576 ==> r[i] == m[(at + i) % 0x1_0000]
  {
    seq(576, i requires 0 <= i < 576 => m[(at + i) % 0x1_0000])
  }

  /** The same bytes stored by stosw. */
  function WithBlock(m: Segment, at: Word, b: Block): (r: Segment)
    ensures forall j {:trigger r[j]} :: 0 <= j < 0x1_0000 ==>
              r[j] == if (j - at) % 0x1_0000 < 576 then b[(j - at) % 0x1_0000] else m[j]
  {
    seq(0x1_0000, j requires 0 <= j < 0x1_0000 => if (j - at) % 0x1_0000 < 576 then b[(j - at) % 0x1_0000] else m[j])
  }

  // ---------- the block and what lies behind it ----------

  /** The word stored `at` bytes from the block's start after `area` has been written from there
      on; a write that ends inside it leaves its high byte. */
  function WordIn(area: seq<Byte>, at: nat, was: Word): Word {
    if at + 2 <= |area| then Le16(area, at) else if at < |area| then area[at] + 0x100 * (was / 0x100) else was
  }

  /** The kernel's data after a service has written `area` from the block on.  Behind its 576
      bytes lie service, spbak, ssbak, spuser, ssuser, suserp and dsuser. */
  function Overwritten(s: State, area: seq<Byte>): State
    requires |area| >= 576
  {
    s.(params := area[..576],
       service := WordIn(area, 576, s.service), spbak := WordIn(area, 578, s.spbak), ssbak := WordIn(area, 580, s.ssbak),
       spuser := seq(10, i requires 0 <= i < 10 => WordIn(area, 582 + 2 * i, s.spuser[i])),
       ssuser := seq(10, i requires 0 <= i < 10 => WordIn(area, 602 + 2 * i, s.ssuser[i])),
       suserp := WordIn(area, 622, s.suserp), dsuser := WordIn(area, 624, s.dsuser))
  }

  /** The kernel's memory from the block to the end of ssbak, which is as far as a string that
      starts in the block can reach: the low byte of the kernel's segment is zero. */
  function FromBlock(s: State): (r: seq<Byte>)
    ensures |r| == 582 && r[..576] == s.params && r[580] == s.ssbak % 0x100
  {
    s.params + [s.service % 0x100, s.service / 0x100, s.spbak % 0x100, s.spbak / 0x100, s.ssbak % 0x100, s.ssbak / 0x100]
  }

  /** `memory` with the string it starts with in upper case, to the end of the block or of the
      string. */
  function UpperString(memory: seq<Byte>): (area: seq<Byte>)
    requires |memory| == 582 && Terminated(memory)
    ensures 576 <= |area| <= 582
  {
    var name := Upper(CStr(memory));
    if |name| <= 576 then Overlay(memory[..576], 0, name) else name
  }

  /** Services 11 to 13 index the descriptor tables with a number from the block. */
  predicate InTables(service: Word, b: Block) { 11 <= service <= 13 ==> Le32(b, 516) < 6 }

  /** Service 8 prints the sizes of the live processes through uitoa's seven bytes. */
  predicate SizesFit(service: Word, procs: ProcTable) {
    service == 8 ==> forall i :: 0 <= i < 9 && procs[i].pid != 0 ==> procs[i].size <= 999999
  }

  /** How far from the block's start a service may write: service 13 reads as many bytes as the
      block says, except from standard output, which delivers nothing. */
  function Reach(service: Word, b: Block): nat {
    if service == 13 && Le32(b, 516) != 1 && Le32(b, 512) > 576 then Le32(b, 512) else 576
  }

  /** The first int of the block. */
  function WithResult(b: Block, retcode: Byte): (r: Block)
  {
    Overlay(b, 0, [retcode, 0, 0, 0])
  }

  // ---------- int 80h ----------

  /** Words the handler and dispatch's prologue push: the caller's buffer and data segment, the
      two arguments of dispatch, its return address and its copy of the running pid. */
  function TrapFrame(cfg: Config, s: State): seq<Word> {
    [s.cpu.si, s.dsuser, cfg.params, s.cpu.dx, 0, s.running % 0x1_0000]
  }

  function Faulted(s: State): State { s.(mode := Fault) }

  /** int 80h up to the switch in dispatch. */
  function Trap(cfg: Config, s: State): State
    requires Linked(cfg) && s.cpu.ds in s.mem
  {
    var top := s.spbak / 2;
    var slot := s.suserp / 2 + 1;
    if slot >= 10 || top < 6 + cfg.dispatch then Faulted(s)
    else
      var saved := s.(
        params := BlockAt(s.mem[s.cpu.ds], s.cpu.si),
        dsuser := s.cpu.ds,
        suserp := 2 * slot,
        ssuser := s.ssuser[slot := s.cpu.ss],
        spuser := s.spuser[slot := s.cpu.sp]);
      saved.(mode := Serving,
             kstack := PushAll(s.kstack, top, TrapFrame(cfg, saved)),
             cpu := s.cpu.(ax := s.cpu.si, bx := cfg.params, cx := 0,
                           si := (s.cpu.si + 576) % 0x1_0000, di := cfg.params + 576,
                           ds := KERNEL, es := KERNEL, ss := s.ssbak, sp := 2 * (top - 6 - cfg.dispatch)))
  }

  /** Word index of the stack top a dispatch in progress started from. */
  function TrapTop(cfg: Config, s: State): nat { s.cpu.sp / 2 + cfg.dispatch + 6 }

  /** Back from dispatch: its frame and arguments are gone. */
  function LeaveDispatch(cfg: Config, s: State, top: nat): State
    requires 2 <= top <= 0x8000
  {
    s.(mode := Returning, cpu := s.cpu.(sp := 2 * (top - 2)))
  }

  /** The end of service 7: the result into the block, the caller running again. */
  function EndService7(cfg: Config, s: State, top: nat, retcode: Byte): State
    requires top <= 0x8000
  {
    if top < 6 || s.running > 9 || !(1 <= s.kstack[top - 6] <= 9) then Faulted(s)
    else
      var curr := s.kstack[top - 6];
      LeaveDispatch(cfg, s.(params := WithResult(s.params, retcode),
                            procs := SetRunning(s.procs, s.running, curr), running := curr), top)
  }

  /** Copying the block back, restoring the caller's stack and data segment, iret. */
  function SysReturn(cfg: Config, s: State): State
    requires Linked(cfg)
  {
    var top := s.cpu.sp / 2;
    var slot := s.suserp / 2;
    if top + 2 > 0x8000 - 1 || slot >= 10 || slot < 1 || s.kstack[top] !in s.mem then Faulted(s)
    else
      var es := s.kstack[top];
      var di := s.kstack[top + 1];
      s.(mode := User,
         mem := s.mem[es := WithBlock(s.mem[es], di, s.params)],
         ssbak := s.cpu.ss, spbak := 2 * (top + 2),
         cpu := s.cpu.(ax := es, bx := s.suserp, cx := 0, si := cfg.params + 576, di := (di as int + 576) % 0x1_0000,
                       ds := es, es := es, ss := s.ssuser[slot], sp := s.spuser[slot]),
         suserp := 2 * (slot - 1))
  }

  // ---------- run_program and farcall ----------

  /** The registers farcall saves, in push order. */
  function FarFrame(r: Cpu): (f: seq<Word>)
    ensures |f| == 10
  {
    [r.bp, r.flags, r.ax, r.bx, r.cx, r.dx, r.es, r.ds, r.si, r.di]
  }

  /** Words of run_program: its argument, return address and locals. */
  function RunFrame(cfg: Config, tag: Word, seg: Word, pid: Word): (f: seq<Word>)
    ensures |f| == 5
  {
    [cfg.params, tag, seg, pid, 0]
  }

  /** The stack as `farcall` finds it, from the arguments run_program pushes to the saved registers. */
  function CallStack(cfg: Config, k: Stack, top: nat, tag: Word, seg: Word, pid: Word, regs: Cpu): Stack
    requires 18 + cfg.run <= top <= 0x8000
  {
    var k' := PushAll(k, top, RunFrame(cfg, tag, seg, pid));
    PushAll(k', top - 5 - cfg.run, [0, seg, 0] + FarFrame(regs))
  }

  datatype Launch = NotEnabled | Broken | Refused(state: State) | Started(state: State)

  /** run_program up to the far call once load has come back: the i-th segment is taken, and
      `regs` are the registers the compiled kernel happens to have at the call. */
  function AfterLoad(cfg: Config, s: State, name: seq<Byte>, i: nat, load: LoadResult, top: nat, tag: Word, regs: Cpu): Launch
    requires Linked(cfg) && 18 + cfg.run <= top <= 0x8000 && s.running <= 9 && i < 10
    requires load.Found? ==> |load.entry| == 32 && |load.image| == 0x1_0000
  {
    var seg := s.segs[i].address;
    match load
    case Undefined => NotEnabled
    case NotFound => Refused(s.(segs := Release(Take(s.segs, i), seg)))
    case Found(entry, image) =>
      match FirstSlot(s.procs, 0)
      case None => Broken
      case Some(slot) =>
        var proc := Registered(slot, Upper(name), seg, 0, s.running, Le32(entry, 28));
        Started(s.(
          mode := User,
          segs := Take(s.segs, i),
          procs := SetRunning(s.procs[slot := proc], s.running, slot + 1), running := slot + 1,
          kstack := CallStack(cfg, s.kstack, top, tag, seg, slot + 1, regs),
          ssbak := KERNEL, spbak := 2 * (top - 18 - cfg.run),
          mem := s.mem[seg := Overlay(image, 0xFFFA, cfg.farReturn)],
          cpu := regs.(ax := seg, bp := 2 * (top - 8 - cfg.run), ss := seg, sp := 0xFFFA)))
  }

  /** run_program up to the far call, from a stack whose next free word is below `top`. */
  function RunProgram(cfg: Config, s: State, name: seq<Byte>, top: nat, tag: Word, regs: Cpu): Launch
    requires Linked(cfg) && top <= 0x8000 && s.running <= 9
  {
    match FirstFree(s.segs, 0)
    case None => NotEnabled
    case Some(i) =>
      var seg := s.segs[i].address;
      if top < 18 + cfg.run || seg !in s.mem then Broken
      else AfterLoad(cfg, s, name, i, LoadProgram(cfg.disk, cfg.stale, cfg.vol, name, s.mem[seg]), top, tag, regs)
  }

  /** A program's far return: farcall restores the stack it saved and pops its registers. */
  function FarReturn(s: State): State {
    var top := s.spbak / 2;
    if top + 11 > 0x8000 then Faulted(s)
    else
      var k := s.kstack;
      s.(mode := Resumed,
         cpu := Cpu(di := k[top], si := k[top + 1], ds := k[top + 2], es := k[top + 3], dx := k[top + 4], cx := k[top + 5],
                    bx := k[top + 6], ax := k[top + 7], flags := k[top + 8], bp := k[top + 9],
                    ss := s.ssbak, sp := (2 * (top + 11)) % 0x1_0000))
  }

  /** The rest of run_program and of whoever called it. */
  function Finish(cfg: Config, s: State): State {
    var top := s.cpu.sp / 2 + 7 + cfg.run;
    if top > 0x8000 || !(1 <= s.kstack[top - 4] <= 9) then Faulted(s)
    else
      var s' := s.(procs := Unregistered(s.procs, s.kstack[top - 4]), segs := Release(s.segs, s.kstack[top - 3]));
      if s.kstack[top - 2] == FROM_STARTK then s'.(mode := Idle, cpu := s.cpu.(sp := (2 * top) % 0x1_0000))
      else if top + cfg.dispatch + 6 > 0x8000 then Faulted(s)
      else EndService7(cfg, s', top + cfg.dispatch + 6, 0)
  }

  // ---------- steps ----------

  datatype Label =
    | Boot(regs: Cpu, junk: Stack)
    | Work(cpu: Cpu, contents: Segment)
    | Syscall
    | Serve(area: seq<Byte>, junk: Stack)
    | Run(regs: Cpu, junk: Stack)
    | Exit
    | Finishing(junk: Stack)
    | Return

  /** Segment of the innermost program. */
  function OwnSegment(s: State): Word {
    if 1 <= s.running <= 9 then s.procs[s.running - 1].cs else 0
  }

  const INIT: seq<Byte> := [105, 110, 105, 116]

  lemma InitIsSpelled()
    ensures INIT == Ascii("init")
  {
  }

  /** The service a dispatch in progress was asked for. */
  function Service(cfg: Config, s: State): Word {
    var top := TrapTop(cfg, s);
    if 4 <= top <= 0x8000 then s.kstack[top - 4] else 0
  }

  /** The request stays inside the descriptor tables and uitoa's buffer; what others do to the
      kernel is not followed any further. */
  predicate Accepted(cfg: Config, s: State) {
    InTables(Service(cfg, s), s.params) && SizesFit(Service(cfg, s), s.procs)
  }

  /** Behind the block lie eight bytes no caller relies on while a request is served: `service`,
      where at most a request without a NUL goes on, `spbak` and `ssbak`, which sysexit and farcall
      store anew, and the unused slot 0 of `spuser`. */
  predicate Confined(cfg: Config, s: State) {
    Accepted(cfg, s) && Reach(Service(cfg, s), s.params) <= 584
  }

  function Scribbled(s: State, junk: Stack): State {
    s.(kstack := Scribble(s.kstack, s.cpu.sp / 2, junk))
  }

  /** startk's loop goes round again after a refusal. */
  function AfterBoot(s: State, r: Launch): Option<State> {
    match r
    case NotEnabled => None
    case Broken => Some(Faulted(s))
    case Refused(t) => Some(t)
    case Started(t) => Some(t)
  }

  /** Service 7 reports a refusal to its caller. */
  function AfterRun(cfg: Config, s: State, top: nat, r: Launch): Option<State>
    requires top <= 0x8000
  {
    match r
    case NotEnabled => None
    case Broken => Some(Faulted(s))
    case Refused(t) => Some(EndService7(cfg, t, top, 1))
    case Started(t) => Some(t)
  }

  /** startk before the launch: every slot freed, nobody running. */
  function Booting(s: State, junk: Stack): State {
    Scribbled(s, junk).(procs := Emptied(s.procs), running := 0)
  }

  /** Dispatch before the launch: the name upper-cased in place. */
  function ServingLaunch(s: State, junk: Stack): State
    requires Terminated(FromBlock(s))
  {
    Overwritten(Scribbled(s, junk), UpperString(FromBlock(s)))
  }

  /** The machine's next state; None when the label is not enabled.  A program writes only its
      own segment and enters the kernel with its own data segment; a launch needs a free segment. */
  function Next(cfg: Config, s: State, l: Label): Option<State>
    requires Linked(cfg)
  {
    match l
    case Boot(regs, junk) =>
      if s.mode != Idle || regs.ds != KERNEL || regs.ss != KERNEL then None
      else AfterBoot(s, RunProgram(cfg, Booting(s, junk), INIT, s.cpu.sp / 2, FROM_STARTK, regs))
    case Work(cpu, contents) =>
      if s.mode != User || OwnSegment(s) !in s.mem then None
      else Some(s.(cpu := cpu, mem := s.mem[OwnSegment(s) := contents]))
    case Syscall =>
      if s.mode != User || s.cpu.ds != OwnSegment(s) || s.cpu.ds !in s.mem then None
      else Some(Trap(cfg, s))
    case Serve(area, junk) =>
      if s.mode != Serving || Service(cfg, s) == 7 || |area| != Reach(Service(cfg, s), s.params) then None
      else if !(6 <= TrapTop(cfg, s) <= 0x8000) || !Accepted(cfg, s) || cfg.params + |area| > 0x1_0000 then Some(Faulted(s))
      else Some(LeaveDispatch(cfg, Overwritten(Scribbled(s, junk), area), TrapTop(cfg, s)))
    case Run(regs, junk) =>
      if s.mode != Serving || Service(cfg, s) != 7 || regs.ds != KERNEL || regs.ss != KERNEL then None
      else if s.running > 9 || TrapTop(cfg, s) > 0x8000 || !Terminated(FromBlock(s)) then Some(Faulted(s))
      else AfterRun(cfg, s, TrapTop(cfg, s),
                    RunProgram(cfg, ServingLaunch(s, junk), CStr(FromBlock(s)), s.cpu.sp / 2, FROM_DISPATCH, regs))
    case Exit =>
      if s.mode != User then None else Some(FarReturn(s))
    case Finishing(junk) =>
      if s.mode != Resumed then None else Some(Finish(cfg, Scribbled(s, junk)))
    case Return =>
      if s.mode != Returning then None else Some(SysReturn(cfg, s))
  }
}
