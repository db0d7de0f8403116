/**
 The kernel's own code over its registers, stack, globals and tables: the handler of int 80h,
 farcall, and the parts of dispatch and run_program around it.  User programs run between the
 methods; every entry point is one step of `Machine`.
 */
module Kernel {
  import opened Bytes
  import opened CString
  import opened Descriptors
  import opened Directory
  import opened FatFs
  import opened Segments
  import opened Processes
  import opened Machine
  import opened Invariant
  import opened Steps
  import opened Runs
  import opened Launches
  import opened Services

  // ---------- pushes in a row ----------

  lemma PushSix(k: Stack, top: nat, a: Word, b: Word, c: Word, d: Word, e: Word, f: Word)
    requires 6 <= top <= 0x8000
    ensures k[top - 1 := a][top - 2 := b][top - 3 := c][top - 4 := d][top - 5 := e][top - 6 := f]
            == PushAll(k, top, [a, b, c, d, e, f])
  {
  }

  lemma PushTen(k: Stack, top: nat, a: Word, b: Word, c: Word, d: Word, e: Word, f: Word, g: Word, h: Word, i: Word, j: Word)
    requires 10 <= top <= 0x8000
    ensures k[top - 1 := a][top - 2 := b][top - 3 := c][top - 4 := d][top - 5 := e][top - 6 := f][top - 7 := g][top - 8 := h]
            [top - 9 := i][top - 10 := j] == PushAll(k, top, [a, b, c, d, e, f, g, h, i, j])
  {
  }

  lemma PushFive(k: Stack, top: nat, a: Word, b: Word, c: Word, d: Word, e: Word)
    requires 5 <= top <= 0x8000
    ensures k[top - 1 := a][top - 2 := b][top - 3 := c][top - 4 := d][top - 5 := e] == PushAll(k, top, [a, b, c, d, e])
  {
  }

  lemma PushOnto(k: Stack, top: nat, a: Word, b: Word, f: seq<Word>)
    requires 3 + |f| <= top <= 0x8000
    ensures PushAll(k[top - 1 := a][top - 2 := b][top - 3 := 0], top - 3, f) == PushAll(k, top, [a, b, 0] + f)
  {
  }

  lemma TwoMore(a: seq<Byte>, b: seq<Byte>, goal: seq<Byte>, n: nat)
    requires |a| == |b| == |goal| && n + 2 <= |a| && a[..n] == goal[..n] && b == a[n := goal[n]][n + 1 := goal[n + 1]]
    ensures b[..n + 2] == goal[..n + 2]
  {
    assert b[..n] == a[..n];
    assert b[..n + 2] == b[..n] + [goal[n]] + [goal[n + 1]];
  }

  /** The first `n` bytes of `b` have been stored from offset `at` on, wrapping in the segment. */
  predicate Copied(m: Segment, m': Segment, at: Word, b: Block, n: nat)
    requires n <= 576
  {
    forall j {:trigger m'[j]} :: 0 <= j < 0x1_0000 ==> m'[j] == if (j - at) % 0x1_0000 < n then b[(j - at) % 0x1_0000] else m[j]
  }

  lemma OneMoreCopied(m: Segment, m': Segment, at: Word, b: Block, n: nat, di: Word)
    requires n < 576 && Copied(m, m', at, b, n) && di == (at + n) % 0x1_0000
    ensures Copied(m, m'[di := b[n]], at, b, n + 1)
  {
    var t := m'[di := b[n]];
    forall j {:trigger t[j]} | 0 <= j < 0x1_0000
      ensures t[j] == if (j - at) % 0x1_0000 < n + 1 then b[(j - at) % 0x1_0000] else m[j]
    {
      assert (j - at) % 0x1_0000 == n <==> j == di;
    }
  }

  lemma ModeIsEven(cfg: Config, s: State, h: History)
    requires Linked(cfg) && |h.calls| <= 8 && |h.traps| <= 8 && ModeAt(cfg, s, h)
    ensures s.mode != User ==> s.cpu.sp % 2 == 0
    ensures s.mode == User ==> s.spbak % 2 == 0
  {
  }

  lemma ReachedInv(cfg: Config, labels: seq<Label>, states: seq<State>, s: State) returns (h: History)
    requires ValidConfig(cfg) && Fits(cfg) && Reaches(cfg, labels, states, s)
    ensures Inv(cfg, s, h)
  {
    h := HistoryAt(cfg, labels, states, |labels|);
    RunInv(cfg, labels, states, |labels|);
  }

  lemma EvenStack(cfg: Config, labels: seq<Label>, states: seq<State>, s: State)
    requires ValidConfig(cfg) && Fits(cfg) && Reaches(cfg, labels, states, s)
    ensures s.suserp % 2 == 0
    ensures s.mode != User ==> s.cpu.sp % 2 == 0
    ensures s.mode == User ==> s.spbak % 2 == 0
  {
    var h := ReachedInv(cfg, labels, states, s);
    ModeIsEven(cfg, s, h);
  }

  lemma WorkAdvances(cfg: Config, labels: seq<Label>, states: seq<State>, s: State, cpu: Cpu, contents: Segment)
    requires ValidConfig(cfg) && Fits(cfg) && Reaches(cfg, labels, states, s) && Next(cfg, s, Work(cpu, contents)).Some?
    ensures 1 <= s.running <= 8
    ensures var t := s.(cpu := cpu, mem := s.mem[s.procs[s.running - 1].cs := contents]);
            Reaches(cfg, labels + [Work(cpu, contents)], states + [t], t)
  {
    UserModeFacts(cfg, labels, states, |labels|);
    Extends(cfg, labels, states, s, Work(cpu, contents), Next(cfg, s, Work(cpu, contents)).value);
  }

  /** The two steps that may launch. */
  lemma LaunchAdvances(cfg: Config, labels: seq<Label>, states: seq<State>, s: State, l: Label, t: State)
    requires ValidConfig(cfg) && Fits(cfg) && Reaches(cfg, labels, states, s) && Next(cfg, s, l) == Some(t) && (l.Boot? || l.Run?)
    ensures s.cpu.sp % 2 == 0 && t.mode != Fault && Reaches(cfg, labels + [l], states + [t], t)
  {
    EvenStack(cfg, labels, states, s);
    Advances(cfg, labels, states, s, l, t);
  }

  /** An enabled int 80h has room on both stacks. */
  lemma SyscallIsTrap(cfg: Config, s: State)
    requires ValidConfig(cfg) && Next(cfg, s, Syscall).Some?
    ensures s.cpu.ds in s.mem && s.mode == User && Next(cfg, s, Syscall) == Some(Trap(cfg, s))
    ensures Trap(cfg, s).mode in [Serving, Fault]
  {
  }

  lemma SyscallAdvances(cfg: Config, labels: seq<Label>, states: seq<State>, s: State)
    requires ValidConfig(cfg) && Fits(cfg) && Reaches(cfg, labels, states, s) && Next(cfg, s, Syscall).Some?
    ensures s.cpu.ds in s.mem && s.suserp % 2 == 0 && s.spbak % 2 == 0 && Trap(cfg, s).mode == Serving
    ensures Reaches(cfg, labels + [Syscall], states + [Trap(cfg, s)], Trap(cfg, s))
  {
    SyscallIsTrap(cfg, s);
    EvenStack(cfg, labels, states, s);
    Advances(cfg, labels, states, s, Syscall, Trap(cfg, s));
  }

  lemma ExitAdvances(cfg: Config, labels: seq<Label>, states: seq<State>, s: State)
    requires ValidConfig(cfg) && Fits(cfg) && Reaches(cfg, labels, states, s) && s.mode == User
    ensures FarReturn(s).mode == Resumed && s.spbak % 2 == 0
    ensures Reaches(cfg, labels + [Label.Exit], states + [FarReturn(s)], FarReturn(s))
  {
    EvenStack(cfg, labels, states, s);
    Advances(cfg, labels, states, s, Label.Exit, FarReturn(s));
  }

  /** A request that is not for service 7 and comes back with its answer. */
  predicate Answers(cfg: Config, s: State, area: seq<Byte>) {
    s.mode == Serving && Service(cfg, s) != 7 && Confined(cfg, s) && |area| == Reach(Service(cfg, s), s.params)
  }

  lemma AnswerIs(cfg: Config, s: State, area: seq<Byte>, junk: Stack)
    requires Linked(cfg) && Answers(cfg, s, area) && s.cpu.sp % 2 == 0 && TrapTop(cfg, s) <= 0x7FFF
    ensures s.cpu.sp + 2 * cfg.dispatch + 8 <= 0xFFFF && |area| >= 576
    ensures Next(cfg, s, Serve(area, junk)) == Some(Answered(cfg, s, area, junk))
  {
  }

  lemma ServeAdvances(cfg: Config, labels: seq<Label>, states: seq<State>, s: State, area: seq<Byte>, junk: Stack)
    requires ValidConfig(cfg) && Fits(cfg) && Reaches(cfg, labels, states, s) && Answers(cfg, s, area)
    ensures s.cpu.sp + 2 * cfg.dispatch + 8 <= 0xFFFF && s.cpu.sp % 2 == 0 && |area| >= 576
    ensures Reaches(cfg, labels + [Serve(area, junk)], states + [Answered(cfg, s, area, junk)], Answered(cfg, s, area, junk))
  {
    ServeReady(cfg, labels, states, s);
    EvenStack(cfg, labels, states, s);
    AnswerIs(cfg, s, area, junk);
    Extends(cfg, labels, states, s, Serve(area, junk), Answered(cfg, s, area, junk));
  }

  lemma ServeReady(cfg: Config, labels: seq<Label>, states: seq<State>, s: State)
    requires ValidConfig(cfg) && Fits(cfg) && Reaches(cfg, labels, states, s) && s.mode == Serving
    ensures 6 <= TrapTop(cfg, s) <= 0x7FFF && 1 <= s.running <= 8
  {
    var h := ReachedInv(cfg, labels, states, s);
    ServingFrame(cfg, s, h);
  }

  lemma OverwrittenIs(s: State, area: seq<Byte>, t: State)
    requires |area| >= 576
    requires t.params == area[..576] && t.service == WordIn(area, 576, s.service) && t.spbak == WordIn(area, 578, s.spbak)
    requires t.ssbak == WordIn(area, 580, s.ssbak) && t.suserp == WordIn(area, 622, s.suserp) && t.dsuser == WordIn(area, 624, s.dsuser)
    requires t.mode == s.mode && t.cpu == s.cpu && t.kstack == s.kstack && t.mem == s.mem
    requires t.segs == s.segs && t.procs == s.procs && t.running == s.running
    requires forall i :: 0 <= i < 10 ==> t.spuser[i] == WordIn(area, 582 + 2 * i, s.spuser[i])
    requires forall i :: 0 <= i < 10 ==> t.ssuser[i] == WordIn(area, 602 + 2 * i, s.ssuser[i])
    ensures t == Overwritten(s, area)
  {
    assert t.spuser == Overwritten(s, area).spuser && t.ssuser == Overwritten(s, area).ssuser;
  }

  /** Out of dispatch with `area` written from the block on. */
  function Answered(cfg: Config, s: State, area: seq<Byte>, junk: Stack): State
    requires s.cpu.sp + 2 * cfg.dispatch + 8 <= 0xFFFF && |area| >= 576
  {
    Overwritten(Scribbled(s, junk), area).(mode := Returning, cpu := s.cpu.(sp := s.cpu.sp + 2 * cfg.dispatch + 8))
  }

  lemma RefusedKeepsCpu(cfg: Config, p: State, name: seq<Byte>, top: nat, tag: Word, regs: Cpu)
    requires Linked(cfg) && top <= 0x8000 && p.running <= 9
    ensures var r := RunProgram(cfg, p, name, top, tag, regs); r.Refused? ==> r.state.cpu == p.cpu
  {
  }

  lemma AfterRunServes(cfg: Config, s: State, r: Launch, t: State)
    requires TrapTop(cfg, s) <= 0x8000 && AfterRun(cfg, s, TrapTop(cfg, s), r) == Some(t) && t.mode != Fault
    requires r.Refused? ==> r.state.cpu == s.cpu
    ensures ServedTo(cfg, s, r, t)
  {
  }

  lemma FinishAdvances(cfg: Config, labels: seq<Label>, states: seq<State>, s: State, junk: Stack)
    requires ValidConfig(cfg) && Fits(cfg) && Reaches(cfg, labels, states, s) && s.mode == Resumed
    ensures s.cpu.sp % 2 == 0 && Finish(cfg, Scribbled(s, junk)).mode != Fault
    ensures var t := Finish(cfg, Scribbled(s, junk)); Reaches(cfg, labels + [Finishing(junk)], states + [t], t)
  {
    EvenStack(cfg, labels, states, s);
    Advances(cfg, labels, states, s, Finishing(junk), Finish(cfg, Scribbled(s, junk)));
  }

  lemma ReturnIsSysReturn(cfg: Config, s: State)
    requires ValidConfig(cfg) && s.mode == Returning
    ensures Next(cfg, s, Return) == Some(SysReturn(cfg, s)) && SysReturn(cfg, s).mode in [User, Fault]
  {
  }

  lemma ReturnAdvances(cfg: Config, labels: seq<Label>, states: seq<State>, s: State)
    requires ValidConfig(cfg) && Fits(cfg) && Reaches(cfg, labels, states, s) && s.mode == Returning
    ensures SysReturn(cfg, s).mode == User && s.suserp % 2 == 0 && s.cpu.sp % 2 == 0
    ensures Reaches(cfg, labels + [Return], states + [SysReturn(cfg, s)], SysReturn(cfg, s))
  {
    ReturnIsSysReturn(cfg, s);
    EvenStack(cfg, labels, states, s);
    Advances(cfg, labels, states, s, Return, SysReturn(cfg, s));
  }

  lemma TrapPushes(cfg: Config, s: State)
    requires Linked(cfg) && s.cpu.ds in s.mem && s.suserp % 2 == 0 && s.spbak % 2 == 0 && Trap(cfg, s).mode == Serving
    ensures s.suserp <= 16 && 12 + 2 * cfg.dispatch <= s.spbak
    ensures var slot := s.suserp / 2 + 1;
            Trap(cfg, s) == s.(mode := Serving, params := BlockAt(s.mem[s.cpu.ds], s.cpu.si), dsuser := s.cpu.ds, suserp := s.suserp + 2,
              ssuser := s.ssuser[slot := s.cpu.ss], spuser := s.spuser[slot := s.cpu.sp],
              kstack := PushAll(s.kstack, s.spbak / 2, [s.cpu.si, s.cpu.ds, cfg.params, s.cpu.dx, 0, s.running % 0x1_0000]),
              cpu := s.cpu.(ax := s.cpu.si, bx := cfg.params, cx := 0, si := (s.cpu.si + 576) % 0x1_0000, di := cfg.params + 576,
                            ds := KERNEL, es := KERNEL, ss := s.ssbak, sp := s.spbak - 12 - 2 * cfg.dispatch))
  {
  }

  /** The offset lodsw has advanced is rewound to where the block came from. */
  lemma Rewound(si: Word)
    ensures ((si + 576) % 0x1_0000 - 576) % 0x1_0000 == si
  {
  }

  /** What the handler makes of state `s`, field by field. */
  predicate TrapFields(cfg: Config, s: State, t: State)
    requires s.cpu.ds in s.mem && s.suserp <= 16 && 12 + 2 * cfg.dispatch <= s.spbak && cfg.params + 626 <= 0xFFFF
  {
    && t.mode == Serving && t.params == BlockAt(s.mem[s.cpu.ds], s.cpu.si) && t.dsuser == s.cpu.ds && t.suserp == s.suserp + 2
    && t.ssuser == s.ssuser[s.suserp / 2 + 1 := s.cpu.ss] && t.spuser == s.spuser[s.suserp / 2 + 1 := s.cpu.sp]
    && t.kstack == PushAll(s.kstack, s.spbak / 2, [s.cpu.si, s.cpu.ds, cfg.params, s.cpu.dx, 0, s.running % 0x1_0000])
    && t.cpu == s.cpu.(ax := s.cpu.si, bx := cfg.params, cx := 0, si := (s.cpu.si + 576) % 0x1_0000, di := cfg.params + 576,
                       ds := KERNEL, es := KERNEL, ss := s.ssbak, sp := s.spbak - 12 - 2 * cfg.dispatch)
    && t.service == s.service && t.spbak == s.spbak && t.ssbak == s.ssbak && t.segs == s.segs && t.procs == s.procs && t.running == s.running && t.mem == s.mem
  }

  lemma TrapIs(cfg: Config, s: State, t: State)
    requires Linked(cfg) && s.cpu.ds in s.mem && s.suserp % 2 == 0 && s.spbak % 2 == 0 && Trap(cfg, s).mode == Serving
    requires s.suserp <= 16 && 12 + 2 * cfg.dispatch <= s.spbak && TrapFields(cfg, s, t)
    ensures t == Trap(cfg, s)
  {
    TrapPushes(cfg, s);
  }

  lemma ReturnPops(cfg: Config, s: State)
    requires Linked(cfg) && s.suserp % 2 == 0 && s.cpu.sp % 2 == 0 && SysReturn(cfg, s).mode == User
    ensures 2 <= s.suserp <= 18 && s.cpu.sp <= 0xFFFB && s.kstack[s.cpu.sp / 2] in s.mem
    ensures var k, top := s.kstack, s.cpu.sp / 2; 
            var es, di, slot := k[top], k[top + 1], s.suserp / 2;
            SysReturn(cfg, s) == s.(mode := User, mem := s.mem[es := WithBlock(s.mem[es], di, s.params)],
              ssbak := s.cpu.ss, spbak := s.cpu.sp + 4, suserp := s.suserp - 2,
              cpu := s.cpu.(ax := es, bx := s.suserp, cx := 0, si := cfg.params + 576, di := (di as int + 576) % 0x1_0000,
                            ds := es, es := es, ss := s.ssuser[slot], sp := s.spuser[slot]))
  {
  }

  /** The state a program is entered in. */
  function Entered(cfg: Config, s: State, tag: Word, seg: Word, pid: nat, regs: Cpu): State
    requires Linked(cfg) && 36 + 2 * cfg.run <= s.cpu.sp && 1 <= pid <= 9 && seg in s.mem
  {
    var top := s.cpu.sp / 2;
    s.(mode := User,
       kstack := CallStack(cfg, s.kstack, top, tag, seg, pid, regs),
       ssbak := KERNEL, spbak := 2 * (top - 18 - cfg.run),
       mem := s.mem[seg := Overlay(s.mem[seg], 0xFFFA, cfg.farReturn)],
       cpu := regs.(ax := seg, bp := 2 * (top - 8 - cfg.run), ss := seg, sp := 0xFFFA))
  }

  lemma EnteredIs(cfg: Config, s: State, tag: Word, seg: Word, pid: nat, regs: Cpu, t: State)
    requires Linked(cfg) && 36 + 2 * cfg.run <= s.cpu.sp && 1 <= pid <= 9 && seg in s.mem && t.mode == User
    requires t.kstack == CallStack(cfg, s.kstack, s.cpu.sp / 2, tag, seg, pid, regs)
    requires t.ssbak == KERNEL && t.spbak == 2 * (s.cpu.sp / 2 - 18 - cfg.run)
    requires t.mem == s.mem[seg := Overlay(s.mem[seg], 0xFFFA, cfg.farReturn)]
    requires t.cpu == regs.(ax := seg, bp := 2 * (s.cpu.sp / 2 - 8 - cfg.run), ss := seg, sp := 0xFFFA)
    requires t.spuser == s.spuser && t.ssuser == s.ssuser && t.suserp == s.suserp && t.dsuser == s.dsuser && t.params == s.params
    requires t.service == s.service
    requires t.segs == s.segs && t.procs == s.procs && t.running == s.running
    ensures t == Entered(cfg, s, tag, seg, pid, regs)
  {
  }

  /** The state a loaded process runs in, from the one run_program has it loaded in. */
  function StartedFrom(cfg: Config, s: State, tag: Word, seg: Word, pid: nat, regs: Cpu): State
    requires Linked(cfg) && 36 + 2 * cfg.run <= s.cpu.sp && s.running <= 9 && 1 <= pid <= 9 && seg in s.mem
  {
    Entered(cfg, s.(procs := SetRunning(s.procs, s.running, pid), running := pid), tag, seg, pid, regs)
  }

  /** Everything but the tables and the programs' memory is as it was. */
  predicate SameBesides(s: State, t: State) {
    && t.mode == s.mode && t.cpu == s.cpu && t.kstack == s.kstack && t.params == s.params && t.service == s.service
    && t.spbak == s.spbak && t.ssbak == s.ssbak && t.spuser == s.spuser && t.ssuser == s.ssuser && t.suserp == s.suserp
    && t.dsuser == s.dsuser && t.running == s.running
  }

  /** What load makes of memory and processes once its file is known. */
  predicate LoadedBy(load: LoadResult, name: seq<Byte>, running: nat, retcode: Byte, pid: nat, seg: Word,
                     mem: map<Word, Segment>, procs: ProcTable, mem': map<Word, Segment>, procs': ProcTable)
    requires load.Found? ==> |load.entry| == 32 && |load.image| == 0x1_0000
  {
    match load
    case Found(entry, image) =>
      && retcode == 0 && FirstSlot(procs, 0) == Some(pid - 1) && mem' == mem[seg := image]
      && procs' == procs[pid - 1 := Registered(pid - 1, Upper(name), seg, 0, running, Le32(entry, 28))]
    case _ => retcode == 1 && mem' == mem && procs' == procs
  }

  lemma LoadedIs(cfg: Config, s: State, name: seq<Byte>, t: State, retcode: Byte, pid: nat, seg: Word)
    requires Linked(cfg) && CanLoad(cfg, s, name)
    requires var i := FirstFree(s.segs, 0).value; seg == s.segs[i].address && t.segs == Take(s.segs, i)
    requires SameBesides(s, t)
    requires LoadedBy(LoadProgram(cfg.disk, cfg.stale, cfg.vol, name, s.mem[seg]), name, s.running, retcode, pid, seg, s.mem, s.procs, t.mem, t.procs)
    ensures LoadedAs(cfg, s, name, t, retcode, pid, seg)
  {
  }

  lemma ComputedIs(s: State, cpu: Cpu, own: Word, contents: Segment, t: State)
    requires t.cpu == cpu && t.mem == s.mem[own := contents] && t == s.(cpu := t.cpu, mem := t.mem)
    ensures t == s.(cpu := cpu, mem := s.mem[own := contents])
  {
  }

  lemma StoredTwice<K, V>(m: map<K, V>, k: K, a: V, b: V)
    ensures m[k := a][k := b] == m[k := b]
  {
  }

  /** run_program's outcome from its load on: what is left to do to the state it loads in. */
  predicate Parts(cfg: Config, s: State, name: seq<Byte>, i: nat, load: LoadResult, tag: Word, regs: Cpu, r: Launch)
    requires Linked(cfg) && s.running <= 9 && i < 10 && s.segs[i].address in s.mem && 36 + 2 * cfg.run <= s.cpu.sp
    requires load.Found? ==> |load.entry| == 32 && |load.image| == 0x1_0000
  {
    var seg := s.segs[i].address;
    match load
    case Undefined => false
    case NotFound => r == Refused(s.(segs := Release(Take(s.segs, i), seg)))
    case Found(entry, image) =>
      && FirstSlot(s.procs, 0).Some?
      && var slot := FirstSlot(s.procs, 0).value;
         var proc := Registered(slot, Upper(name), seg, 0, s.running, Le32(entry, 28));
         r == Started(StartedFrom(cfg, s.(segs := Take(s.segs, i), procs := s.procs[slot := proc], mem := s.mem[seg := image]),
                                  tag, seg, slot + 1, regs))
  }

  lemma PartsAfterLoad(cfg: Config, s: State, name: seq<Byte>, i: nat, load: LoadResult, tag: Word, regs: Cpu)
    requires Linked(cfg) && s.running <= 9 && i < 10 && s.segs[i].address in s.mem && 36 + 2 * cfg.run <= s.cpu.sp
    requires load.Found? ==> |load.entry| == 32 && |load.image| == 0x1_0000
    requires var r := AfterLoad(cfg, s, name, i, load, s.cpu.sp / 2, tag, regs); r.Refused? || r.Started?
    ensures Parts(cfg, s, name, i, load, tag, regs, AfterLoad(cfg, s, name, i, load, s.cpu.sp / 2, tag, regs))
  {
    if load.Found? {
      StoredTwice(s.mem, s.segs[i].address, load.image, Overlay(load.image, 0xFFFA, cfg.farReturn));
    }
  }

  /** A segment is free, the loader comes back, and a process slot is free when it has found a file. */
  predicate HasRoom(cfg: Config, segs: SegTable, procs: ProcTable, mem: map<Word, Segment>, name: seq<Byte>)
    requires Linked(cfg)
  {
    && FirstFree(segs, 0).Some? && segs[FirstFree(segs, 0).value].address in mem
    && var load := LoadProgram(cfg.disk, cfg.stale, cfg.vol, name, mem[segs[FirstFree(segs, 0).value].address]);
       !load.Undefined? && (load.Found? ==> FirstSlot(procs, 0).Some?)
  }

  predicate CanLoad(cfg: Config, s: State, name: seq<Byte>)
    requires Linked(cfg)
  {
    s.running <= 9 && HasRoom(cfg, s.segs, s.procs, s.mem, name)
  }

  /** What load leaves behind. */
  predicate LoadedAs(cfg: Config, s: State, name: seq<Byte>, t: State, retcode: Byte, pid: nat, seg: Word)
    requires Linked(cfg) && CanLoad(cfg, s, name)
  {
    var i := FirstFree(s.segs, 0).value;
    && seg == s.segs[i].address
    && t == s.(segs := Take(s.segs, i), mem := t.mem, procs := t.procs)
    && LoadedBy(LoadProgram(cfg.disk, cfg.stale, cfg.vol, name, s.mem[seg]), name, s.running, retcode, pid, seg, s.mem, s.procs, t.mem, t.procs)
  }

  /** What is left to do after load comes to `t`. */
  predicate SettlesAs(cfg: Config, s: State, retcode: Byte, tag: Word, seg: Word, pid: nat, regs: Cpu, t: State)
    requires Linked(cfg)
  {
    if retcode == 0 then
      36 + 2 * cfg.run <= s.cpu.sp && s.running <= 9 && 1 <= pid <= 9 && seg in s.mem && t == StartedFrom(cfg, s, tag, seg, pid, regs)
    else t == s.(segs := Release(s.segs, seg))
  }

  /** Parts, of the load that is next. */
  predicate Launchable(cfg: Config, s: State, name: seq<Byte>, tag: Word, regs: Cpu, r: Launch)
    requires Linked(cfg)
  {
    && 36 + 2 * cfg.run <= s.cpu.sp && CanLoad(cfg, s, name)
    && var i := FirstFree(s.segs, 0).value;
       Parts(cfg, s, name, i, LoadProgram(cfg.disk, cfg.stale, cfg.vol, name, s.mem[s.segs[i].address]), tag, regs, r)
  }

  lemma LaunchParts(cfg: Config, s: State, name: seq<Byte>, tag: Word, regs: Cpu, r: Launch)
    requires Linked(cfg) && s.running <= 9
    requires r == RunProgram(cfg, s, name, s.cpu.sp / 2, tag, regs) && (r.Refused? || r.Started?)
    ensures Launchable(cfg, s, name, tag, regs, r)
  {
    var i := FirstFree(s.segs, 0).value;
    PartsAfterLoad(cfg, s, name, i, LoadProgram(cfg.disk, cfg.stale, cfg.vol, name, s.mem[s.segs[i].address]), tag, regs);
  }

  lemma LoadedSettles(cfg: Config, s: State, name: seq<Byte>, t: State, retcode: Byte, pid: nat, seg: Word, tag: Word, regs: Cpu, r: Launch)
    requires Linked(cfg) && Launchable(cfg, s, name, tag, regs, r)
    requires LoadedAs(cfg, s, name, t, retcode, pid, seg)
    ensures r.Refused? || r.Started?
    ensures SettlesAs(cfg, t, retcode, tag, seg, pid, regs, r.state) && retcode == if r.Refused? then 1 else 0
  {
  }

  /** run_program's process and segment freed and its words popped. */
  function Freed(cfg: Config, s: State): State
    requires s.cpu.sp / 2 + 7 + cfg.run <= 0x8000 && 1 <= s.kstack[s.cpu.sp / 2 + 3 + cfg.run] <= 9
  {
    var top := s.cpu.sp / 2 + 7 + cfg.run;
    s.(procs := Unregistered(s.procs, s.kstack[top - 4]), segs := Release(s.segs, s.kstack[top - 3]),
       cpu := s.cpu.(sp := (2 * top) % 0x1_0000))
  }

  lemma FreedIs(cfg: Config, s: State, pid: Word, seg: Word, t: State)
    requires s.cpu.sp / 2 + 7 + cfg.run <= 0x8000 && 1 <= pid <= 9
    requires pid == s.kstack[s.cpu.sp / 2 + 3 + cfg.run] && seg == s.kstack[s.cpu.sp / 2 + 4 + cfg.run]
    requires t == s.(cpu := s.cpu.(sp := (2 * (s.cpu.sp / 2 + 7 + cfg.run)) % 0x1_0000),
                     segs := Release(s.segs, seg), procs := Unregistered(s.procs, pid))
    ensures t == Freed(cfg, s)
  {
  }

  lemma FinishParts(cfg: Config, s: State)
    requires Finish(cfg, s).mode != Fault
    ensures s.cpu.sp / 2 + 7 + cfg.run <= 0x8000 && 1 <= s.kstack[s.cpu.sp / 2 + 3 + cfg.run] <= 9
    ensures var t := Freed(cfg, s);
            if s.kstack[s.cpu.sp / 2 + 5 + cfg.run] == FROM_STARTK then Finish(cfg, s) == t.(mode := Idle)
            else t.cpu.sp % 2 == 0 && TrapTop(cfg, t) <= 0x8000 && Finish(cfg, s) == EndService7(cfg, t, TrapTop(cfg, t), 0)
  {
  }

  /** `t` is where service 7 leads from `s`: into the program, or to the end of dispatch with
      result 1. */
  predicate ServedTo(cfg: Config, s: State, r: Launch, t: State) {
    match r
    case Started(u) => t == u
    case Refused(u) => u.cpu == s.cpu && TrapTop(cfg, u) <= 0x8000 && t == EndService7(cfg, u, TrapTop(cfg, u), 1) && t.mode == Returning
    case _ => false
  }

  lemma ServedStays(cfg: Config, s: State, junk: Stack, r: Launch, t: State)
    requires ServedTo(cfg, s, r, t) && Terminated(FromBlock(s))
    ensures ServedTo(cfg, ServingLaunch(s, junk), r, t)
  {
  }

  /** `n` bytes of the kernel's memory from the block on, zeros standing for what lies behind the
      unused slot of `spuser`: a confined request neither reads nor writes it. */
  function DataView(s: State, n: nat): (r: seq<Byte>)
    requires n >= 584
    ensures |r| == n && r[..576] == s.params
  {
    FromBlock(s) + [s.spuser[0] % 0x100, s.spuser[0] / 0x100] + Fill<Byte>(n - 584, 0)
  }

  lemma DataViewLies(data: seq<Byte>, s: State)
    requires Lies(data, s)
    ensures DataView(s, 584) == data[..584]
  {
    ViewsLie(data, s);
    assert Holds(data, 582, s.spuser[0]) by { assert s.spuser[0] == s.spuser[0]; }
    assert data[..584] == data[..582] + [data[582], data[583]];
  }

  function ViewSize(service: Word, b: Block): (n: nat)
    ensures n >= 584 && n >= Reach(service, b) && (service == 13 ==> n >= Le32(b, 512))
  {
    if service == 13 && Le32(b, 512) > 584 then Le32(b, 512) else 584
  }

  /** A service for state `s` has come to what Effected or, for service 9, the listing says, and
      `area` is what it has left from the block on. */
  predicate PerformedAs(cfg: Config, hw: Hardware, service: Word, s: State, io: Io, ok: bool, io': Io, area: seq<Byte>)
    requires Linked(cfg) && 1 <= s.running <= 9 && |hw.stale| == 512 && KernelLinked(io)
    requires InTables(service, s.params)
  {
    var data, reach := DataView(s, ViewSize(service, s.params)), Reach(service, s.params);
    assert Le32(data, 512) == Le32(data[..576], 512);
    if service == 9 then
      ok && area == WithListing(data, RootEntries(cfg.disk, cfg.vol))[..reach]
    else
      match Effected(hw, RootOf(cfg.vol), io, service, data, s.running)
      case Gone => !ok
      case Back(io'', data') => ok && io' == io'' && |data'| == |data| && area == data'[..reach]
  }

  /** The file system has the configured volume mounted. */
  ghost predicate Mounted(cfg: Config, fs: FatFs)
    reads fs, fs.io, fs.io.kernel, fs.io.user
  {
    fs.RootOpen() && fs.Vol() == cfg.vol && fs.io.hw.diskB == cfg.disk && fs.io.hw.stale == cfg.stale
  }

  /** startk's way with descriptors leaves the configured volume mounted, unless a drive error
      halts the kernel. */
  method MountAll(cfg: Config, fs: FatFs) returns (ok: bool)
    requires ValidConfig(cfg) && fs.io.Valid() && fs.io.hw.diskB == cfg.disk && fs.io.hw.stale == cfg.stale
    requires fs.io.kernel[..] == EMPTY && fs.io.user[..] == Startup(Root(0, 0), []).user
    modifies fs, fs.io`typed, fs.io.kernel, fs.io.user
    ensures ok ==> Mounted(cfg, fs)
  {
    ok := fs.StartUp();
  }

  /** The file system's part of load: `was` is what the segment holds.  On the configured volume it
      comes to LoadProgram, and leaves the file system ready for the next time. */
  method LoadFile(cfg: Config, fs: FatFs, name: seq<Byte>, was: Segment) returns (retcode: int, entry: seq<Byte>, image: Segment)
    requires ValidConfig(cfg) && Mounted(cfg, fs) && 0 !in name && !LoadProgram(cfg.disk, cfg.stale, cfg.vol, name, was).Undefined?
    modifies fs.io`typed, fs.io.kernel, fs.io.user
    ensures Mounted(cfg, fs)
    ensures match LoadProgram(cfg.disk, cfg.stale, cfg.vol, name, was)
            case Found(e, m) => retcode == 0 && entry == e && image == m
            case _ => retcode == 1
  {
    var buf := new Byte[|name| + 1](i => if 0 <= i < |name| then name[i] else 0);
    var target := new Byte[0x1_0000](i requires 0 <= i < 0x1_0000 => was[i]);
    assert target[..] == was && buf[..|name|] == name;
    CStrIs(buf[..], |name|);
    assert buf[..][..|name|] == name;
    retcode, entry := fs.Load(buf, target);
    image := target[..];
  }

  /** Standard input and output of a new process. */
  method OpenStreams(cfg: Config, fs: FatFs, pid: nat)
    requires Mounted(cfg, fs) && 1 <= pid <= 9
    modifies fs.io.kernel, fs.io.user
    ensures Mounted(cfg, fs)
    ensures fs.io.Abs() == Open(Open(old(fs.io.Abs()), "/dev/stdin", pid, RootOf(cfg.vol)), "/dev/stdout", pid, RootOf(cfg.vol))
  {
    var _ := fs.io.Open("/dev/stdin", pid, RootOf(cfg.vol));
    var _ := fs.io.Open("/dev/stdout", pid, RootOf(cfg.vol));
  }

  lemma BootServed(cfg: Config, s: State, regs: Cpu, junk: Stack, t: State)
    requires Linked(cfg) && Next(cfg, s, Boot(regs, junk)) == Some(t) && t.mode != Fault
    ensures regs.ss == KERNEL
    ensures var r := RunProgram(cfg, Booting(s, junk), INIT, s.cpu.sp / 2, FROM_STARTK, regs);
            Launchable(cfg, Booting(s, junk), INIT, FROM_STARTK, regs, r) && (r.Refused? || r.Started?) && r.state == t
  {
    var r := RunProgram(cfg, Booting(s, junk), INIT, s.cpu.sp / 2, FROM_STARTK, regs);
    assert AfterBoot(s, r) == Some(t);
    LaunchParts(cfg, Booting(s, junk), INIT, FROM_STARTK, regs, r);
  }

  /** stoupper on a string that starts a view of the kernel's memory; `area` is what it wrote, up
      to the end of the block at least. */
  method UpperInPlace(m: array<Byte>) returns (name: seq<Byte>, area: seq<Byte>)
    requires m.Length == 582 && Terminated(m[..])
    modifies m
    ensures name == CStr(old(m[..])) && 0 !in name && area == UpperString(old(m[..]))
  {
    name := CStr(m[..]);
    ghost var was := m[..];
    StoUpper(m);
    area := m[..if |name| <= 576 then 576 else |name|];
    UpperView(was, name, m[..]);
  }

  lemma UpperView(was: seq<Byte>, name: seq<Byte>, now: seq<Byte>)
    requires |was| == 582 && |name| <= 582 && now == Overlay(was, 0, Upper(name))
    ensures now[..if |name| <= 576 then 576 else |name|]
            == if |name| <= 576 then Overlay(was[..576], 0, Upper(name)) else Upper(name)
  {
  }

  class Kernel {
    const cfg: Config
    var ax: Word
    var bx: Word
    var cx: Word
    var dx: Word
    var si: Word
    var di: Word
    var bp: Word
    var flags: Word
    var ds: Word
    var es: Word
    var ss: Word
    var sp: Word
    const kstack: array<Word>
    var service: Word
    var spbak: Word
    var ssbak: Word
    const spuser: array<Word>
    const ssuser: array<Word>
    var suserp: Word
    var dsuser: Word
    const params: array<Byte>
    const segs: SegmentTable
    const procs: ProcessTable
    const fs: FatFs
    var mem: map<Word, Segment>
    /** Where control is. */
    ghost var mode: Mode
    /** The steps so far and the states between them. */
    ghost var labels: seq<Label>
    ghost var states: seq<State>

    ghost predicate Shape()
      reads this, procs
    {
      && Linked(cfg)
      && kstack.Length == 0x8000 && spuser.Length == 10 && ssuser.Length == 10 && params.Length == 576
      && kstack != spuser && kstack != ssuser && spuser != ssuser
      && segs.Valid() && procs.Valid()
    }

    ghost function Regs(): Cpu
      reads this
    {
      Cpu(ax, bx, cx, dx, si, di, bp, flags, ds, es, ss, sp)
    }

    ghost function Abs(): State
      reads this, kstack, spuser, ssuser, params, segs.segs, procs, procs.processes
      requires Shape()
    {
      State(mode, Regs(), kstack[..], service, spbak, ssbak, spuser[..], ssuser[..], suserp, dsuser, params[..],
            segs.Abs(), procs.Abs(), procs.running, mem)
    }

    ghost predicate Valid()
      reads this, kstack, spuser, ssuser, params, segs.segs, procs, procs.processes
    {
      Shape() && ValidConfig(cfg) && Fits(cfg) && Reaches(cfg, labels, states, Abs())
    }

    /** The machine took the step `l` from where it was before. */
    twostate predicate Took(l: Label)
      reads this, kstack, spuser, ssuser, params, segs.segs, procs, procs.processes
    {
      Shape() && labels == old(labels) + [l] && states == old(states) + [Abs()]
    }

    /** startk up to its loop. */
    constructor (cfg: Config, mem: map<Word, Segment>, fs: FatFs)
      requires ValidConfig(cfg) && Fits(cfg) && UserMemory(mem)
      ensures Valid() && this.cfg == cfg && this.fs == fs && labels == []
    {
      TopsDescend(cfg, 1, 9);
      this.cfg := cfg;
      ax, bx, cx, dx, si, di, bp, flags := 0, 0, 0, 0, 0, 0, 0, 0;
      ds, es, ss, sp := KERNEL, KERNEL, KERNEL, 2 * RunTop(cfg, 1);
      kstack := new Word[0x8000](_ => 0);
      service, spbak, ssbak, suserp, dsuser := 0, 0, 0, 0, 0;
      spuser := new Word[10](_ => 0);
      ssuser := new Word[10](_ => 0);
      params := new Byte[576](_ => 0);
      segs := new SegmentTable();
      procs := new ProcessTable();
      this.mem := mem;
      this.fs := fs;
      mode, labels := Idle, [];
      new;
      segs.InitSeg();
      procs.InitProcesses();
      assert Initial(cfg, Abs());
      Begins(cfg, Abs());
      states := [Abs()];
    }

    // ---------- the kernel stack ----------

    method Push(w: Word)
      requires kstack.Length == 0x8000 && sp >= 2
      modifies this`sp, kstack
      ensures sp == old(sp) - 2 && kstack[..] == old(kstack[..])[sp / 2 := w]
    {
      sp := sp - 2;
      kstack[sp / 2] := w;
    }

    method Pop() returns (w: Word)
      requires kstack.Length == 0x8000 && sp <= 0xFFFD
      modifies this`sp
      ensures sp == old(sp) + 2 && w == kstack[old(sp) / 2]
    {
      w := kstack[sp / 2];
      sp := sp + 2;
    }

    // ---------- int 80h ----------

    method Lodsw() returns (low: Byte, high: Byte)
      requires ds in mem
      modifies this`si
      ensures low == mem[ds][old(si)] && high == mem[ds][(old(si) + 1) % 0x1_0000] && si == (old(si) + 2) % 0x1_0000
    {
      low, high := mem[ds][si], mem[ds][(si + 1) % 0x1_0000];
      si := (si + 2) % 0x1_0000;
    }

    /** Into the block, which lies at `cfg.params` in the kernel's segment. */
    method StoswParams(low: Byte, high: Byte)
      requires params.Length == 576 && cfg.params <= di <= cfg.params + 574 && cfg.params + 576 <= 0xFFFF
      modifies this`di, params
      ensures params[..] == old(params[..])[old(di) - cfg.params := low][old(di) - cfg.params + 1 := high]
      ensures di == old(di) + 2
    {
      params[di - cfg.params] := low;
      params[di - cfg.params + 1] := high;
      di := di + 2;
    }

    method CopyInWord(ghost at: Word, ghost block: Block, ghost n: nat)
      requires ds in mem && params.Length == 576 && cfg.params + 576 <= 0xFFFF && n <= 574
      requires di == cfg.params + n && si == (at + n) % 0x1_0000 && block == BlockAt(mem[ds], at) && params[..n] == block[..n]
      modifies this`si, this`di, params
      ensures di == cfg.params + n + 2 && si == (at + n + 2) % 0x1_0000 && params[..n + 2] == block[..n + 2]
    {
      ghost var copied := params[..];
      assert (si + 1) % 0x1_0000 == (at + n + 1) % 0x1_0000;
      var low, high := Lodsw();
      assert low == block[n] && high == block[n + 1];
      StoswParams(low, high);
      TwoMore(copied, params[..], block, n);
    }

    /** The word-copy loop from DS:SI into the parameter block. */
    method CopyIn()
      requires ds in mem && params.Length == 576 && cfg.params + 576 <= 0xFFFF && di == cfg.params
      modifies this`cx, this`si, this`di, params
      ensures params[..] == BlockAt(mem[ds], old(si))
      ensures cx == 0 && si == (old(si) + 576) % 0x1_0000 && di == cfg.params + 576
    {
      ghost var block, n := BlockAt(mem[ds], si), 0;
      cx := 288;
      while cx > 0
        invariant cx <= 288 && n == 576 - 2 * cx && di == cfg.params + n && si == (old(si) + n) % 0x1_0000
        invariant params[..n] == block[..n]
      {
        CopyInWord(old(si), block, n);
        n := n + 2;
        cx := cx - 1;
      }
    }

    /** The words of the call, down to dispatch's own frame. */
    method PushCall(running: Word)
      requires kstack.Length == 0x8000 && 12 + 2 * cfg.dispatch <= sp && sp % 2 == 0
      modifies this`ax, this`bx, this`sp, kstack
      ensures ax == (si - 576) % 0x1_0000 && bx == cfg.params && sp == old(sp) - 12 - 2 * cfg.dispatch
      ensures kstack[..] == PushAll(old(kstack[..]), old(sp) / 2, [ax, dsuser, cfg.params, dx, 0, running])
    {
      PushSix(kstack[..], sp / 2, (si - 576) % 0x1_0000, dsuser, cfg.params, dx, 0, running);
      ax := (si - 576) % 0x1_0000;
      Push(ax);
      Push(dsuser);
      bx := cfg.params;
      Push(bx);
      Push(dx);
      Push(0);
      Push(running);
      sp := sp - 2 * cfg.dispatch;
    }

    /** The program's stack into the next slot of the save areas, the kernel's from its globals. */
    method SwitchToKernelStack()
      requires suserp <= 16 && suserp % 2 == 0 && ssuser.Length == spuser.Length == 10 && ssuser != spuser
      modifies this`suserp, this`bx, this`ss, this`sp, ssuser, spuser
      ensures bx == suserp == old(suserp) + 2 && ss == ssbak && sp == spbak
      ensures ssuser[..] == old(ssuser[..])[suserp / 2 := old(ss)] && spuser[..] == old(spuser[..])[suserp / 2 := old(sp)]
    {
      suserp := suserp + 1;
      suserp := suserp + 1;
      bx := suserp;
      ssuser[bx / 2] := ss;
      ss := ssbak;
      spuser[bx / 2] := sp;
      sp := spbak;
    }

    /** The caller's block and data segment, before the stack is switched. */
    method TakeRequest()
      requires ds in mem && params.Length == 576 && cfg.params + 576 <= 0xFFFF
      modifies this`ax, this`bx, this`cx, this`si, this`di, this`ds, this`es, this`dsuser, params
      ensures params[..] == BlockAt(mem[old(ds)], old(si)) && dsuser == old(ds) && ds == es == KERNEL
      ensures cx == 0 && si == (old(si) + 576) % 0x1_0000 && di == cfg.params + 576
    {
      di := cfg.params;
      ax := KERNEL;
      es := ax;
      CopyIn();
      ax := ds;
      bx := KERNEL;
      ds := bx;
      dsuser := ax;
    }

    method ToDispatch(running: Word)
      requires kstack.Length == 0x8000 && 12 + 2 * cfg.dispatch <= spbak && spbak % 2 == 0
      requires suserp <= 16 && suserp % 2 == 0 && ssuser.Length == spuser.Length == 10
      requires ssuser != spuser && kstack != spuser && kstack != ssuser
      modifies this`suserp, this`ax, this`bx, this`ss, this`sp, ssuser, spuser, kstack
      ensures suserp == old(suserp) + 2 && ss == ssbak && sp == spbak - 12 - 2 * cfg.dispatch
      ensures ssuser[..] == old(ssuser[..])[suserp / 2 := old(ss)] && spuser[..] == old(spuser[..])[suserp / 2 := old(sp)]
      ensures ax == (si - 576) % 0x1_0000 && bx == cfg.params
      ensures kstack[..] == PushAll(old(kstack[..]), spbak / 2, [ax, dsuser, cfg.params, dx, 0, running])
    {
      SwitchToKernelStack();
      PushCall(running);
    }

    /** From the entry to the switch in dispatch, wherever the stacks have room. */
    method Enter()
      requires Shape() && ds in mem && suserp % 2 == 0 && spbak % 2 == 0 && Trap(cfg, Abs()).mode == Serving
      modifies this, kstack, spuser, ssuser, params
      ensures Shape() && Abs() == Trap(cfg, old(Abs())) && labels == old(labels) && states == old(states)
    {
      ghost var s := Abs();
      TrapPushes(cfg, s);
      EnterKernel();
      TrapIs(cfg, s, Abs());
    }

    method EnterKernel()
      requires Shape() && ds in mem && suserp % 2 == 0 && suserp <= 16 && spbak % 2 == 0 && 12 + 2 * cfg.dispatch <= spbak
      modifies this`ax, this`bx, this`cx, this`si, this`di, this`ds, this`es, this`ss, this`sp, this`dsuser, this`suserp, this`mode,
               kstack, spuser, ssuser, params
      ensures Shape() && TrapFields(cfg, old(Abs()), Abs())
    {
      Rewound(si);
      TakeRequest();
      ToDispatch(procs.running);
      mode := Serving;
    }

    /** The handler of int 80h up to the switch in dispatch. */
    method Int80()
      requires Valid() && Next(cfg, Abs(), Syscall).Some?
      modifies this, kstack, spuser, ssuser, params
      ensures Valid() && Took(Syscall)
    {
      SyscallAdvances(cfg, labels, states, Abs());
      Enter();
      labels, states := labels + [Syscall], states + [Abs()];
    }

    // ---------- back to the program ----------

    method LodswParams() returns (low: Byte, high: Byte)
      requires params.Length == 576 && cfg.params <= si <= cfg.params + 574 && cfg.params + 576 <= 0xFFFF
      modifies this`si
      ensures low == params[old(si) - cfg.params] && high == params[old(si) - cfg.params + 1] && si == old(si) + 2
    {
      low, high := params[si - cfg.params], params[si - cfg.params + 1];
      si := si + 2;
    }

    method Stosw(low: Byte, high: Byte)
      requires es in mem
      modifies this`di, this`mem
      ensures mem == old(mem)[es := old(mem)[es][old(di) := low][(old(di) + 1) % 0x1_0000 := high]]
      ensures di == (old(di) + 2) % 0x1_0000
    {
      mem := mem[es := mem[es][di := low][(di + 1) % 0x1_0000 := high]];
      di := (di + 2) % 0x1_0000;
    }

    method CopyOutWord(ghost m: Segment, ghost at: Word, ghost block: Block, ghost n: nat)
      requires es in mem && params.Length == 576 && cfg.params + 576 <= 0xFFFF && params[..] == block && n <= 574
      requires si == cfg.params + n && di == (at + n) % 0x1_0000 && Copied(m, mem[es], at, block, n)
      modifies this`si, this`di, this`mem
      ensures es in mem && mem == old(mem)[es := mem[es]] && Copied(m, mem[es], at, block, n + 2)
      ensures si == old(si) + 2 && di == (old(di) + 2) % 0x1_0000
    {
      var low, high := LodswParams();
      assert low == block[n] && high == block[n + 1];
      OneMoreCopied(m, mem[es], at, block, n, di);
      OneMoreCopied(m, mem[es][di := low], at, block, n + 1, (di + 1) % 0x1_0000);
      Stosw(low, high);
    }

    /** The word-copy loop from the parameter block to ES:DI. */
    method CopyOut()
      requires es in mem && params.Length == 576 && cfg.params + 576 <= 0xFFFF && si == cfg.params
      modifies this`cx, this`si, this`di, this`mem
      ensures mem == old(mem)[es := WithBlock(old(mem)[es], old(di), params[..])]
      ensures cx == 0 && si == cfg.params + 576 && di == (old(di) + 576) % 0x1_0000
    {
      ghost var m: Segment, at: Word, block: Block, n: nat := mem[es], di, params[..], 0;
      cx := 288;
      while cx > 0
        invariant cx <= 288 && n == 576 - 2 * cx && si == cfg.params + n && di == (at + n) % 0x1_0000
        invariant es in mem && mem == old(mem)[es := mem[es]] && Copied(m, mem[es], at, block, n)
      {
        CopyOutWord(m, at, block, n);
        assert mem == old(mem)[es := mem[es]];
        n := n + 2;
        cx := cx - 1;
      }
      assert mem[es] == WithBlock(m, at, block);
    }

    /** The kernel's stack into its globals, the program's from the top slot of the save areas. */
    method SwitchToUserStack()
      requires 2 <= suserp <= 18 && suserp % 2 == 0 && ssuser.Length == spuser.Length == 10
      modifies this`ssbak, this`spbak, this`bx, this`ss, this`sp, this`suserp
      ensures ssbak == old(ss) && spbak == old(sp) && bx == old(suserp) && suserp == old(suserp) - 2
      ensures ss == ssuser[bx / 2] && sp == spuser[bx / 2]
    {
      ssbak := ss;
      spbak := sp;
      bx := suserp;
      ss := ssuser[bx / 2];
      sp := spuser[bx / 2];
      suserp := suserp - 1;
      suserp := suserp - 1;
    }

    /** The block to where the stack says it came from. */
    method ReturnBlock()
      requires kstack.Length == 0x8000 && sp <= 0xFFFB && sp % 2 == 0 && kstack[sp / 2] in mem
      requires params.Length == 576 && cfg.params + 576 <= 0xFFFF
      modifies this`es, this`cx, this`si, this`di, this`sp, this`mem
      ensures es == kstack[old(sp) / 2] && sp == old(sp) + 4
      ensures mem == old(mem)[es := WithBlock(old(mem)[es], kstack[old(sp) / 2 + 1], params[..])]
      ensures cx == 0 && si == cfg.params + 576 && di == (kstack[old(sp) / 2 + 1] as int + 576) % 0x1_0000
    {
      es := Pop();
      di := Pop();
      si := cfg.params;
      CopyOut();
    }

    method ToProgram()
      requires 2 <= suserp <= 18 && suserp % 2 == 0 && ssuser.Length == spuser.Length == 10
      modifies this`ssbak, this`spbak, this`ax, this`bx, this`ds, this`ss, this`sp, this`suserp
      ensures ssbak == old(ss) && spbak == old(sp) && ax == ds == es && bx == old(suserp) && suserp == old(suserp) - 2
      ensures ss == ssuser[bx / 2] && sp == spuser[bx / 2]
    {
      SwitchToUserStack();
      ax := es;
      ds := ax;
    }

    /** From the return of dispatch to iret, wherever the stacks hold what it pops. */
    method Leave()
      requires Shape() && suserp % 2 == 0 && sp % 2 == 0 && SysReturn(cfg, Abs()).mode == User
      modifies this
      ensures Shape() && Abs() == SysReturn(cfg, old(Abs())) && labels == old(labels) && states == old(states)
    {
      ReturnPops(cfg, Abs());
      ReturnBlock();
      ToProgram();
      mode := User;
    }

    /** sysexit: back in the program that made the system call. */
    method SysExit()
      requires Valid() && mode == Returning
      modifies this
      ensures Valid() && Took(Return)
    {
      ReturnAdvances(cfg, labels, states, Abs());
      Leave();
      labels, states := labels + [Return], states + [Abs()];
    }

    // ---------- farcall ----------

    /** pushf and the registers, in farcall's order. */
    method PushRegisters()
      requires kstack.Length == 0x8000 && 20 <= sp && sp % 2 == 0
      modifies this`sp, kstack
      ensures sp == old(sp) - 20
      ensures kstack[..] == PushAll(old(kstack[..]), old(sp) / 2, [bp, flags, ax, bx, cx, dx, es, ds, si, di])
    {
      PushTen(kstack[..], sp / 2, bp, flags, ax, bx, cx, dx, es, ds, si, di);
      Push(bp);
      Push(flags);
      Push(ax);
      Push(bx);
      Push(cx);
      Push(dx);
      Push(es);
      Push(ds);
      Push(si);
      Push(di);
    }

    method PopIndexRegisters()
      requires kstack.Length == 0x8000 && sp <= 0xFFF6 && sp % 2 == 0
      modifies this`sp, this`di, this`si, this`ds, this`es
      ensures var top := old(sp) / 2;
              sp == old(sp) + 8 && di == kstack[top] && si == kstack[top + 1] && ds == kstack[top + 2] && es == kstack[top + 3]
    {
      di := Pop();
      si := Pop();
      ds := Pop();
      es := Pop();
    }

    method PopDataRegisters()
      requires kstack.Length == 0x8000 && sp <= 0x10000 - 14 && sp % 2 == 0
      modifies this`sp, this`dx, this`cx, this`bx, this`ax, this`flags, this`bp
      ensures var top := old(sp) / 2;
              && sp == old(sp) + 12 && dx == kstack[top] && cx == kstack[top + 1] && bx == kstack[top + 2] && ax == kstack[top + 3]
              && flags == kstack[top + 4] && bp == kstack[top + 5]
    {
      dx := Pop();
      cx := Pop();
      bx := Pop();
      ax := Pop();
      flags := Pop();
      bp := Pop();
    }

    /** farcall's way out: its stack, the registers it pushed, ret. */
    method RestoreRegisters()
      requires kstack.Length == 0x8000 && spbak <= 0x10000 - 22 && spbak % 2 == 0
      modifies this`ss, this`sp, this`di, this`si, this`ds, this`es, this`dx, this`cx, this`bx, this`ax, this`flags, this`bp
      ensures var top := spbak / 2; var k := kstack;
              Regs() == Cpu(di := k[top], si := k[top + 1], ds := k[top + 2], es := k[top + 3], dx := k[top + 4], cx := k[top + 5],
                            bx := k[top + 6], ax := k[top + 7], flags := k[top + 8], bp := k[top + 9],
                            ss := ssbak, sp := (spbak + 22) % 0x1_0000)
    {
      ax := KERNEL;
      ds := ax;
      sp := spbak;
      ss := ssbak;
      PopIndexRegisters();
      PopDataRegisters();
      sp := (sp + 2) % 0x1_0000;
    }

    /** After the program's far return, wherever the stack holds what is popped. */
    method Regain()
      requires Shape() && spbak % 2 == 0 && FarReturn(Abs()).mode == Resumed
      modifies this
      ensures Shape() && Abs() == FarReturn(old(Abs())) && labels == old(labels) && states == old(states)
    {
      RestoreRegisters();
      mode := Resumed;
    }

    /** A program is done: farcall goes on to its ret. */
    method Exit()
      requires Valid() && mode == User
      modifies this
      ensures Valid() && Took(Label.Exit)
    {
      ExitAdvances(cfg, labels, states, Abs());
      Regain();
      labels, states := labels + [Label.Exit], states + [Abs()];
    }

    method PushCallFrame(seg: Word, entry: Word)
      requires kstack.Length == 0x8000 && 26 <= sp && sp % 2 == 0
      modifies this`sp, kstack
      ensures kstack[..] == PushAll(old(kstack[..]), old(sp) / 2, [entry, seg, 0] + FarFrame(old(Regs()))) && sp == old(sp) - 26
    {
      PushOnto(kstack[..], sp / 2, entry, seg, FarFrame(Regs()));
      Push(entry);
      Push(seg);
      Push(0);
      PushRegisters();
    }

    /** farcall up to CALL FAR, from the arguments its caller pushes on. */
    method FarCall(seg: Word, entry: Word)
      requires kstack.Length == 0x8000 && 26 <= sp && sp % 2 == 0 && seg in mem && |cfg.farReturn| == 4
      modifies this`ax, this`bp, this`ss, this`sp, this`spbak, this`ssbak, this`mem, kstack
      ensures kstack[..] == PushAll(old(kstack[..]), old(sp) / 2, [entry, seg, 0] + FarFrame(old(Regs())))
      ensures spbak == old(sp) - 26 && ssbak == old(ss)
      ensures ax == seg && bp == old(sp) - 6 && ss == seg && sp == 0xFFFA
      ensures mem == old(mem)[seg := Overlay(old(mem)[seg], 0xFFFA, cfg.farReturn)]
    {
      PushCallFrame(seg, entry);
      bp := sp + 20;
      spbak := sp;
      ssbak := ss;
      ax := seg;
      ss := ax;
      sp := 0xFFFE;
      mem := mem[ss := Overlay(mem[ss], sp - 4, cfg.farReturn)];
      sp := sp - 4;
    }

    /** A segment is free, so it does not matter what get_free_seg's variable holds before. */
    method TakeSegment() returns (seg: Word)
      requires segs.Valid() && FirstFree(segs.Abs(), 0).Some?
      modifies segs.segs
      ensures segs.Valid()
      ensures var i := FirstFree(old(segs.Abs()), 0).value; seg == old(segs.Abs())[i].address && segs.Abs() == Take(old(segs.Abs()), i)
    {
      seg := segs.GetFreeSeg(0);
    }

    method RegisterLoaded(name: seq<Byte>, seg: Word, size: Dword) returns (pid: nat)
      requires procs.Valid() && FirstSlot(procs.Abs(), 0).Some?
      modifies procs.processes
      ensures procs.Valid() && FirstSlot(old(procs.Abs()), 0) == Some(pid - 1)
      ensures procs.Abs() == old(procs.Abs())[pid - 1 := Registered(pid - 1, Upper(name), seg, 0, procs.running, size)]
    {
      var p := procs.RegisterProc(Upper(name), seg, seg, seg, 0, procs.running, size);
      pid := p;
    }

    /** A free segment, the program in it and its process; retcode 1 when there is no such program. */
    method LoadProcess(name: seq<Byte>) returns (retcode: Byte, pid: nat, seg: Word)
      requires segs.Valid() && procs.Valid() && ValidConfig(cfg) && Mounted(cfg, fs) && 0 !in name
      requires HasRoom(cfg, segs.Abs(), procs.Abs(), mem, name)
      modifies this`mem, segs.segs, procs.processes, fs.io`typed, fs.io.kernel, fs.io.user
      ensures segs.Valid() && procs.Valid() && Mounted(cfg, fs)
      ensures var i := FirstFree(old(segs.Abs()), 0).value; seg == old(segs.Abs())[i].address && segs.Abs() == Take(old(segs.Abs()), i)
      ensures LoadedBy(LoadProgram(cfg.disk, cfg.stale, cfg.vol, name, old(mem)[seg]), name, procs.running, retcode, pid, seg,
                       old(mem), old(procs.Abs()), mem, procs.Abs())
    {
      seg := TakeSegment();
      retcode, pid := 1, 0;
      var code, entry, image := LoadFile(cfg, fs, name, mem[seg]);
      if code == 0 {
        retcode := 0;
        mem := mem[seg := image];
        pid := RegisterLoaded(name, seg, Le32(entry, 28));
      }
    }

    /** run_program's words and the room its compiled code keeps besides them. */
    method PushRunFrame(tag: Word, seg: Word, pid: Word)
      requires kstack.Length == 0x8000 && 10 + 2 * cfg.run <= sp && sp % 2 == 0
      modifies this`sp, kstack
      ensures sp == old(sp) - 10 - 2 * cfg.run
      ensures kstack[..] == PushAll(old(kstack[..]), old(sp) / 2, RunFrame(cfg, tag, seg, pid))
    {
      PushFive(kstack[..], sp / 2, cfg.params, tag, seg, pid, 0);
      Push(cfg.params);
      Push(tag);
      Push(seg);
      Push(pid);
      Push(0);
      sp := sp - 2 * cfg.run;
    }

    /** Whatever the compiled code has in its registers at a call. */
    method SetRegs(regs: Cpu)
      modifies this`ax, this`bx, this`cx, this`dx, this`si, this`di, this`bp, this`flags, this`ds, this`es, this`ss
      ensures Regs() == regs.(sp := sp)
    {
      ax, bx, cx, dx, si, di := regs.ax, regs.bx, regs.cx, regs.dx, regs.si, regs.di;
      bp, flags, ds, es, ss := regs.bp, regs.flags, regs.ds, regs.es, regs.ss;
    }

    /** run_program's frame and farcall on it. */
    method Launch(tag: Word, seg: Word, pid: Word, regs: Cpu)
      requires kstack.Length == 0x8000 && 36 + 2 * cfg.run <= sp && sp % 2 == 0 && seg in mem && |cfg.farReturn| == 4
      modifies this`ax, this`bx, this`cx, this`dx, this`si, this`di, this`bp, this`flags, this`ds, this`es, this`ss,
               this`sp, this`spbak, this`ssbak, this`mem, kstack
      ensures kstack[..] == CallStack(cfg, old(kstack[..]), old(sp) / 2, tag, seg, pid, regs)
      ensures spbak == 2 * (old(sp) / 2 - 18 - cfg.run) && ssbak == regs.ss
      ensures Regs() == regs.(ax := seg, bp := 2 * (old(sp) / 2 - 8 - cfg.run), ss := seg, sp := 0xFFFA)
      ensures mem == old(mem)[seg := Overlay(old(mem)[seg], 0xFFFA, cfg.farReturn)]
    {
      PushRunFrame(tag, seg, pid);
      SetRegs(regs);
      FarCall(seg, 0);
    }

    /** From the load to the first instruction of the program. */
    method Start(tag: Word, seg: Word, pid: nat, regs: Cpu)
      requires Shape() && 36 + 2 * cfg.run <= sp && sp % 2 == 0 && seg in mem && 1 <= pid <= 9 && regs.ss == KERNEL
      requires Mounted(cfg, fs)
      modifies this, kstack, procs, procs.processes, fs.io.kernel, fs.io.user
      ensures Shape() && Abs() == StartedFrom(cfg, old(Abs()), tag, seg, pid, regs) && labels == old(labels) && states == old(states)
      ensures Mounted(cfg, fs)
    {
      BeginProcess(pid);
      EnterProgram(tag, seg, pid, regs);
    }

    method BeginProcess(pid: nat)
      requires Shape() && 1 <= pid <= 9 && Mounted(cfg, fs)
      modifies procs, procs.processes, fs.io.kernel, fs.io.user
      ensures Shape() && Mounted(cfg, fs)
      ensures Abs() == old(Abs()).(procs := SetRunning(old(procs.Abs()), old(procs.running), pid), running := pid)
    {
      procs.SetRunningProc(pid);
      OpenStreams(cfg, fs, pid);
    }

    method EnterProgram(tag: Word, seg: Word, pid: nat, regs: Cpu)
      requires Shape() && 36 + 2 * cfg.run <= sp && sp % 2 == 0 && seg in mem && 1 <= pid <= 9 && regs.ss == KERNEL
      modifies this, kstack
      ensures Shape() && Abs() == Entered(cfg, old(Abs()), tag, seg, pid, regs) && labels == old(labels) && states == old(states)
    {
      ghost var s := Abs();
      Launch(tag, seg, pid, regs);
      mode := User;
      EnteredIs(cfg, s, tag, seg, pid, regs, Abs());
    }

    /** LoadProcess in terms of the whole state. */
    method Load(name: seq<Byte>) returns (retcode: Byte, pid: nat, seg: Word)
      requires Shape() && ValidConfig(cfg) && Mounted(cfg, fs) && 0 !in name && CanLoad(cfg, Abs(), name)
      modifies this`mem, segs.segs, procs.processes, fs.io`typed, fs.io.kernel, fs.io.user
      ensures Shape() && Mounted(cfg, fs) && LoadedAs(cfg, old(Abs()), name, Abs(), retcode, pid, seg)
    {
      ghost var s := Abs();
      retcode, pid, seg := LoadProcess(name);
      LoadedIs(cfg, s, name, Abs(), retcode, pid, seg);
    }

    method Prepare(name: seq<Byte>, ghost tag: Word, ghost regs: Cpu, ghost r: Launch) returns (retcode: Byte, pid: nat, seg: Word)
      requires Shape() && ValidConfig(cfg) && Mounted(cfg, fs) && 0 !in name && Launchable(cfg, Abs(), name, tag, regs, r)
      modifies this`mem, segs.segs, procs.processes, fs.io`typed, fs.io.kernel, fs.io.user
      ensures Shape() && Mounted(cfg, fs) && (r.Refused? || r.Started?)
      ensures SettlesAs(cfg, Abs(), retcode, tag, seg, pid, regs, r.state) && retcode == if r.Refused? then 1 else 0
    {
      ghost var s := Abs();
      retcode, pid, seg := Load(name);
      LoadedSettles(cfg, s, name, Abs(), retcode, pid, seg, tag, regs, r);
    }

    method Settle(retcode: Byte, tag: Word, seg: Word, pid: nat, regs: Cpu, ghost t: State)
      requires Shape() && regs.ss == KERNEL && sp % 2 == 0
      requires SettlesAs(cfg, Abs(), retcode, tag, seg, pid, regs, t) && Mounted(cfg, fs)
      modifies this, kstack, segs.segs, procs, procs.processes, fs.io.kernel, fs.io.user
      ensures Shape() && Abs() == t && labels == old(labels) && states == old(states) && Mounted(cfg, fs)
    {
      if retcode == 0 {
        Start(tag, seg, pid, regs);
      } else {
        Refuse(seg);
      }
    }

    method Refuse(seg: Word)
      requires Shape()
      modifies segs.segs
      ensures Shape() && Abs() == old(Abs()).(segs := Release(old(segs.Abs()), seg))
    {
      var _ := segs.ReleaseSeg(seg);
    }

    /** run_program up to the far call, with the registers the compiled code has there. */
    method RunProgram(name: seq<Byte>, tag: Word, regs: Cpu, ghost r: Launch) returns (retcode: Byte)
      requires Shape() && ValidConfig(cfg) && Mounted(cfg, fs) && 0 !in name && sp % 2 == 0 && regs.ss == KERNEL
      requires Launchable(cfg, Abs(), name, tag, regs, r)
      modifies this, kstack, segs.segs, procs, procs.processes, fs.io`typed, fs.io.kernel, fs.io.user
      ensures Shape() && Mounted(cfg, fs) && labels == old(labels) && states == old(states)
      ensures (r.Refused? || r.Started?) && Abs() == r.state && retcode == if r.Refused? then 1 else 0
    {
      var pid, seg;
      retcode, pid, seg := Prepare(name, tag, regs, r);
      Settle(retcode, tag, seg, pid, regs, r.state);
    }

    // ---------- startk's loop ----------

    /** Whatever the compiled functions called from here leave below the stack pointer. */
    method CallsBelow(junk: Stack)
      requires kstack.Length == 0x8000
      modifies kstack
      ensures kstack[..] == Scribble(old(kstack[..]), sp / 2, junk)
    {
      forall i | 0 <= i < sp / 2 {
        kstack[i] := junk[i];
      }
    }

    method BootTo(regs: Cpu, junk: Stack, ghost t: State)
      requires Shape() && ValidConfig(cfg) && Mounted(cfg, fs) && sp % 2 == 0
      requires Next(cfg, Abs(), Label.Boot(regs, junk)) == Some(t) && t.mode != Fault
      modifies this, kstack, segs.segs, procs, procs.processes, fs.io`typed, fs.io.kernel, fs.io.user
      ensures Shape() && Mounted(cfg, fs) && Abs() == t && labels == old(labels) && states == old(states)
    {
      BootServed(cfg, Abs(), regs, junk, t);
      RunInit(regs, junk, Machine.RunProgram(cfg, Booting(Abs(), junk), INIT, sp / 2, FROM_STARTK, regs));
    }

    method RunInit(regs: Cpu, junk: Stack, ghost r: Launch)
      requires Shape() && ValidConfig(cfg) && Mounted(cfg, fs) && sp % 2 == 0 && regs.ss == KERNEL
      requires Launchable(cfg, Booting(Abs(), junk), INIT, FROM_STARTK, regs, r)
      modifies this, kstack, segs.segs, procs, procs.processes, fs.io`typed, fs.io.kernel, fs.io.user
      ensures Shape() && Mounted(cfg, fs) && labels == old(labels) && states == old(states)
      ensures (r.Refused? || r.Started?) && Abs() == r.state
    {
      ClearProcesses(junk);
      var _ := RunProgram(INIT, FROM_STARTK, regs, r);
    }

    method ClearProcesses(junk: Stack)
      requires Shape()
      modifies kstack, procs, procs.processes
      ensures Shape() && Abs() == Booting(old(Abs()), junk)
    {
      CallsBelow(junk);
      procs.InitProcesses();
    }

    /** Once round the loop, up to the first instruction of init or to its refusal. */
    method Boot(regs: Cpu, junk: Stack)
      requires Valid() && Mounted(cfg, fs) && Next(cfg, Abs(), Label.Boot(regs, junk)).Some?
      modifies this, kstack, segs.segs, procs, procs.processes, fs.io`typed, fs.io.kernel, fs.io.user
      ensures Valid() && Mounted(cfg, fs) && Took(Label.Boot(regs, junk))
    {
      ghost var l := Label.Boot(regs, junk);
      ghost var t := Next(cfg, Abs(), l).value;
      LaunchAdvances(cfg, labels, states, Abs(), l, t);
      BootTo(regs, junk, t);
      labels, states := labels + [l], states + [t];
    }

    // ---------- dispatch ----------

    /** dispatch's ret, its own words gone, and the two arguments popped. */
    method LeaveDispatch()
      requires sp + 2 * cfg.dispatch + 8 <= 0xFFFF
      modifies this`sp, this`mode
      ensures sp == old(sp) + 2 * cfg.dispatch + 8 && mode == Returning
    {
      sp := sp + 2 * cfg.dispatch + 4;
      sp := sp + 4;
      mode := Returning;
    }

    /** The end of service 7: the result into the block, the caller running again. */
    method EndService7(retcode: Byte)
      requires Shape() && sp % 2 == 0 && TrapTop(cfg, Abs()) <= 0x8000
      requires Machine.EndService7(cfg, Abs(), TrapTop(cfg, Abs()), retcode).mode != Fault
      modifies this, params, procs, procs.processes
      ensures Shape() && Abs() == Machine.EndService7(cfg, old(Abs()), TrapTop(cfg, old(Abs())), retcode)
      ensures labels == old(labels) && states == old(states)
    {
      var curr := kstack[sp / 2 + cfg.dispatch];
      params[0], params[1], params[2], params[3] := retcode, 0, 0, 0;
      assert params[..] == WithResult(old(params[..]), retcode);
      procs.SetRunningProc(curr);
      LeaveDispatch();
    }

    method StoreStacks(area: seq<Byte>)
      requires spuser.Length == ssuser.Length == 10 && spuser != ssuser
      modifies spuser, ssuser
      ensures forall i :: 0 <= i < 10 ==> spuser[i] == WordIn(area, 582 + 2 * i, old(spuser[i]))
      ensures forall i :: 0 <= i < 10 ==> ssuser[i] == WordIn(area, 602 + 2 * i, old(ssuser[i]))
    {
      forall i | 0 <= i < 10 {
        spuser[i] := WordIn(area, 582 + 2 * i, spuser[i]);
      }
      forall i | 0 <= i < 10 {
        ssuser[i] := WordIn(area, 602 + 2 * i, ssuser[i]);
      }
    }

    method StoreBlock(area: seq<Byte>)
      requires params.Length == 576 <= |area|
      modifies params
      ensures params[..] == area[..576]
    {
      forall i | 0 <= i < 576 {
        params[i] := area[i];
      }
    }

    /** `area` written from the start of the block on, over the block and what lies behind it. */
    method StoreData(area: seq<Byte>)
      requires Shape() && |area| >= 576
      modifies this`service, this`spbak, this`ssbak, this`suserp, this`dsuser, params, spuser, ssuser
      ensures Shape() && Abs() == Overwritten(old(Abs()), area)
    {
      ghost var s := Abs();
      StoreBlock(area);
      service, spbak, ssbak := WordIn(area, 576, service), WordIn(area, 578, spbak), WordIn(area, 580, ssbak);
      StoreStacks(area);
      suserp, dsuser := WordIn(area, 622, suserp), WordIn(area, 624, dsuser);
      OverwrittenIs(s, area, Abs());
    }

    method ServeOther(area: seq<Byte>, junk: Stack)
      requires Shape() && sp + 2 * cfg.dispatch + 8 <= 0xFFFF && |area| >= 576
      modifies this`sp, this`mode, this`service, this`spbak, this`ssbak, this`suserp, this`dsuser, kstack, params, spuser, ssuser
      ensures Shape() && Abs() == Answered(cfg, old(Abs()), area, junk)
    {
      CallsBelow(junk);
      StoreData(area);
      LeaveDispatch();
    }

    /** `area` has been written from the block on; dispatch returns. */
    method Answer(area: seq<Byte>, junk: Stack)
      requires Valid() && Answers(cfg, Abs(), area)
      modifies this, kstack, params, spuser, ssuser
      ensures Valid() && Took(Label.Serve(area, junk))
    {
      ServeAdvances(cfg, labels, states, Abs(), area, junk);
      ServeOther(area, junk);
      labels, states := labels + [Label.Serve(area, junk)], states + [Abs()];
    }

    /** A view of `n` bytes of the kernel's memory from the block on. */
    method ViewData(n: nat) returns (m: array<Byte>)
      requires Shape() && n >= 584
      ensures fresh(m) && m[..] == DataView(Abs(), n)
    {
      var words := [service, spbak, ssbak, spuser[0]];
      m := new Byte[n](i requires 0 <= i < n reads params requires params.Length == 576 =>
        if i < 576 then params[i]
        else if i >= 584 then 0
        else if i % 2 == 0 then words[(i - 576) / 2] % 0x100 else words[(i - 576) / 2] / 0x100);
    }

    /** What the services do to descriptors and to the memory from the block on. */
    method Perform() returns (ok: bool, area: seq<Byte>)
      requires Shape() && ValidConfig(cfg) && Mounted(cfg, fs) && Confined(cfg, Abs())
      requires 6 <= TrapTop(cfg, Abs()) <= 0x8000 && Service(cfg, Abs()) != 7 && 1 <= procs.running <= 9
      modifies fs.io`typed, fs.io.kernel, fs.io.user
      ensures ok ==> Mounted(cfg, fs) && |area| == Reach(Service(cfg, Abs()), params[..])
      ensures PerformedAs(cfg, fs.io.hw, Service(cfg, Abs()), Abs(), old(fs.io.Abs()), ok, fs.io.Abs(), area)
    {
      var code := kstack[sp / 2 + cfg.dispatch + 2];
      var data := ViewData(ViewSize(code, params[..]));
      assert data[..576] == params[..];
      ok := Dispatch(fs, code, data, procs.running);
      area := data[..Reach(code, params[..])];
    }

    /** Any service but 7 whose request is confined, unless it does not come back. */
    method Serve(junk: Stack) returns (ok: bool, ghost area: seq<Byte>)
      requires Valid() && Mounted(cfg, fs) && mode == Serving && Service(cfg, Abs()) != 7 && Confined(cfg, Abs())
      modifies this, kstack, params, spuser, ssuser, fs.io`typed, fs.io.kernel, fs.io.user
      ensures ok ==> Valid() && Mounted(cfg, fs) && Took(Label.Serve(area, junk))
      ensures 1 <= old(procs.running) <= 9
      ensures PerformedAs(cfg, fs.io.hw, old(Service(cfg, Abs())), old(Abs()), old(fs.io.Abs()), ok, fs.io.Abs(), area)
    {
      ServeReady(cfg, labels, states, Abs());
      var written;
      ok, written := Perform();
      area := written;
      if ok {
        Answer(written, junk);
      }
    }

    /** A view of the kernel's memory from the block on, as far as a string in it can reach. */
    method ViewFromBlock() returns (m: array<Byte>)
      requires Shape()
      ensures fresh(m) && m[..] == FromBlock(Abs())
    {
      var words := [service, spbak, ssbak];
      m := new Byte[582](i requires 0 <= i < 582 reads params requires params.Length == 576 =>
        if i < 576 then params[i]
        else if i % 2 == 0 then words[(i - 576) / 2] % 0x100 else words[(i - 576) / 2] / 0x100);
    }

    /** stoupper on the name, in place. */
    method UpperName(junk: Stack) returns (name: seq<Byte>)
      requires Shape() && Terminated(FromBlock(Abs()))
      modifies this`service, this`spbak, this`ssbak, this`suserp, this`dsuser, kstack, params, spuser, ssuser
      ensures Shape() && name == CStr(FromBlock(old(Abs()))) && 0 !in name && Abs() == ServingLaunch(old(Abs()), junk)
    {
      var m := ViewFromBlock();
      CallsBelow(junk);
      var area;
      name, area := UpperInPlace(m);
      StoreData(area);
    }

    method ServeRun(regs: Cpu, junk: Stack, ghost p: State, ghost asked: seq<Byte>, ghost r: Launch, ghost t: State)
      requires Shape() && ValidConfig(cfg) && Mounted(cfg, fs) && sp % 2 == 0 && regs.ss == KERNEL && Terminated(FromBlock(Abs()))
      requires p == ServingLaunch(Abs(), junk) && asked == CStr(FromBlock(Abs()))
      requires Launchable(cfg, p, asked, FROM_DISPATCH, regs, r) && ServedTo(cfg, p, r, t)
      modifies this, kstack, params, spuser, ssuser, segs.segs, procs, procs.processes, fs.io`typed, fs.io.kernel, fs.io.user
      ensures Shape() && Mounted(cfg, fs) && Abs() == t && labels == old(labels) && states == old(states)
    {
      var name := UpperName(junk);
      RunNamed(name, regs, r, t);
    }

    method RunNamed(name: seq<Byte>, regs: Cpu, ghost r: Launch, ghost t: State)
      requires Shape() && ValidConfig(cfg) && Mounted(cfg, fs) && sp % 2 == 0 && regs.ss == KERNEL && 0 !in name
      requires Launchable(cfg, Abs(), name, FROM_DISPATCH, regs, r) && ServedTo(cfg, Abs(), r, t)
      modifies this, kstack, params, segs.segs, procs, procs.processes, fs.io`typed, fs.io.kernel, fs.io.user
      ensures Shape() && Mounted(cfg, fs) && Abs() == t && labels == old(labels) && states == old(states)
    {
      var retcode := RunProgram(name, FROM_DISPATCH, regs, r);
      if retcode != 0 {
        EndService7(retcode);
      }
    }

    method RunTo(regs: Cpu, junk: Stack, ghost t: State)
      requires Shape() && ValidConfig(cfg) && Mounted(cfg, fs) && sp % 2 == 0 && Next(cfg, Abs(), Label.Run(regs, junk)) == Some(t) && t.mode != Fault
      modifies this, kstack, params, spuser, ssuser, segs.segs, procs, procs.processes, fs.io`typed, fs.io.kernel, fs.io.user
      ensures Shape() && Mounted(cfg, fs) && Abs() == t && labels == old(labels) && states == old(states)
    {
      RunServed(cfg, Abs(), regs, junk, t);
      ghost var p, name := ServingLaunch(Abs(), junk), CStr(FromBlock(Abs()));
      ghost var r := Machine.RunProgram(cfg, p, name, p.cpu.sp / 2, FROM_DISPATCH, regs);
      RefusedKeepsCpu(cfg, p, name, p.cpu.sp / 2, FROM_DISPATCH, regs);
      AfterRunServes(cfg, Abs(), r, t);
      LaunchParts(cfg, p, name, FROM_DISPATCH, regs, r);
      ServedStays(cfg, Abs(), junk, r, t);
      ServeRun(regs, junk, p, name, r, t);
    }

    /** Service 7, up to the first instruction of the program or to the end of dispatch. */
    method Run(regs: Cpu, junk: Stack)
      requires Valid() && Mounted(cfg, fs) && Next(cfg, Abs(), Label.Run(regs, junk)).Some?
      modifies this, kstack, params, spuser, ssuser, segs.segs, procs, procs.processes, fs.io`typed, fs.io.kernel, fs.io.user
      ensures Valid() && Mounted(cfg, fs) && Took(Label.Run(regs, junk))
    {
      ghost var l := Label.Run(regs, junk);
      ghost var t := Next(cfg, Abs(), l).value;
      LaunchAdvances(cfg, labels, states, Abs(), l, t);
      RunTo(regs, junk, t);
      labels, states := labels + [l], states + [t];
    }

    method PopRunFrame() returns (pid: Word, seg: Word, caller: Word)
      requires Shape() && sp % 2 == 0 && sp / 2 + 7 + cfg.run <= 0x8000
      modifies this`sp
      ensures Shape() && Abs() == old(Abs()).(cpu := old(Regs()).(sp := (2 * (old(sp) / 2 + 7 + cfg.run)) % 0x1_0000))
      ensures pid == kstack[old(sp) / 2 + 3 + cfg.run] && seg == kstack[old(sp) / 2 + 4 + cfg.run]
      ensures caller == kstack[old(sp) / 2 + 5 + cfg.run]
    {
      sp := sp + 2 * cfg.run + 6;
      pid := Pop();
      seg := Pop();
      caller := Pop();
      sp := (sp + 2) % 0x1_0000;
    }

    method ReleaseProgram(pid: nat, seg: Word)
      requires Shape() && 1 <= pid <= 9
      modifies segs.segs, procs.processes
      ensures Shape() && Abs() == old(Abs()).(segs := Release(old(segs.Abs()), seg), procs := Unregistered(old(procs.Abs()), pid))
    {
      procs.UnregisterProc(pid);
      var _ := segs.ReleaseSeg(seg);
    }

    /** The rest of run_program: the pid and the segment it kept on the stack are freed. */
    method FreeProgram() returns (caller: Word)
      requires Shape() && sp % 2 == 0 && sp / 2 + 7 + cfg.run <= 0x8000 && 1 <= kstack[sp / 2 + 3 + cfg.run] <= 9
      modifies this`sp, segs.segs, procs.processes
      ensures Shape() && caller == kstack[old(sp) / 2 + 5 + cfg.run]
      ensures Abs() == Freed(cfg, old(Abs()))
    {
      var pid, seg;
      ghost var s := Abs();
      pid, seg, caller := PopRunFrame();
      ReleaseProgram(pid, seg);
      FreedIs(cfg, s, pid, seg, Abs());
    }

    /** And its caller. */
    method FinishRun()
      requires Shape() && sp % 2 == 0 && Machine.Finish(cfg, Abs()).mode != Fault
      modifies this, params, segs.segs, procs, procs.processes
      ensures Shape() && Abs() == Machine.Finish(cfg, old(Abs())) && labels == old(labels) && states == old(states)
    {
      FinishParts(cfg, Abs());
      var caller := FreeProgram();
      if caller == FROM_STARTK {
        mode := Idle;
      } else {
        EndService7(0);
      }
    }

    method FinishAfterCalls(junk: Stack)
      requires Shape() && sp % 2 == 0 && Machine.Finish(cfg, Scribbled(Abs(), junk)).mode != Fault
      modifies this, kstack, params, segs.segs, procs, procs.processes
      ensures Shape() && Abs() == Machine.Finish(cfg, Scribbled(old(Abs()), junk)) && labels == old(labels) && states == old(states)
    {
      CallsBelow(junk);
      FinishRun();
    }

    /** Back from farcall: the process and the segment are released, the caller goes on. */
    method Finish(junk: Stack)
      requires Valid() && mode == Resumed
      modifies this, kstack, params, segs.segs, procs, procs.processes
      ensures Valid() && Took(Finishing(junk))
    {
      FinishAdvances(cfg, labels, states, Abs(), junk);
      FinishAfterCalls(junk);
      labels, states := labels + [Finishing(junk)], states + [Abs()];
    }

    method Compute(cpu: Cpu, contents: Segment)
      requires Shape() && 1 <= procs.running <= 8
      modifies this`ax, this`bx, this`cx, this`dx, this`si, this`di, this`bp, this`flags, this`ds, this`es, this`ss, this`sp, this`mem
      ensures Shape() && Abs() == old(Abs()).(cpu := cpu, mem := old(mem)[procs.processes[procs.running - 1].cs := contents])
    {
      ghost var s := Abs();
      ghost var own := procs.processes[procs.running - 1].cs;
      mem := mem[procs.processes[procs.running - 1].cs := contents];
      SetRegs(cpu);
      sp := cpu.sp;
      ComputedIs(s, cpu, own, contents, Abs());
    }

    /** What a program does on its own: its registers and its own segment. */
    method Work(cpu: Cpu, contents: Segment)
      requires Valid() && Next(cfg, Abs(), Label.Work(cpu, contents)).Some?
      modifies this
      ensures Valid() && Took(Label.Work(cpu, contents))
    {
      WorkAdvances(cfg, labels, states, Abs(), cpu, contents);
      Compute(cpu, contents);
      labels, states := labels + [Label.Work(cpu, contents)], states + [Abs()];
    }
  }
}
