/**
 Whole runs of the machine, of any length and nesting.
 */
module Runs {
  import opened Bytes
  import opened CString
  import opened FatFs
  import opened Segments
  import opened Processes
  import opened Machine
  import opened Invariant
  import opened Steps

  /** startk about to enter its loop: only the kernel's segments taken, no process registered. */
  predicate Initial(cfg: Config, s: State) {
    && s.mode == Idle && s.cpu.ss == KERNEL && s.cpu.ds == KERNEL && s.cpu.sp == 2 * RunTop(cfg, 1)
    && s.segs == InitialSegs() && (forall i :: 0 <= i < 9 ==> s.procs[i].pid == 0) && s.running == 0
    && s.suserp == 0 && UserMemory(s.mem)
  }

  lemma InitialInv(cfg: Config, s: State)
    requires ValidConfig(cfg) && Initial(cfg, s)
    ensures Inv(cfg, s, History([], []))
  {
  }

  /** The machine takes the i-th step, and a request it serves there is confined. */
  predicate StepAt(cfg: Config, labels: seq<Label>, states: seq<State>, i: nat)
    requires ValidConfig(cfg) && i < |labels| && |states| == |labels| + 1
  {
    Next(cfg, states[i], labels[i]) == Some(states[i + 1]) && (labels[i].Serve? ==> Confined(cfg, states[i]))
  }

  /** `states` is what the machine goes through from startk on when it takes the steps `labels`
      and every request served is confined; by ServeKeepsIff the invariant asks for that much. */
  ghost predicate OrderlyRun(cfg: Config, labels: seq<Label>, states: seq<State>)
    requires ValidConfig(cfg)
  {
    && |states| == |labels| + 1 && Initial(cfg, states[0])
    && forall i: nat {:trigger StepAt(cfg, labels, states, i)} :: i < |labels| ==> StepAt(cfg, labels, states, i)
  }

  /** What is outstanding after `n` steps. */
  function HistoryAt(cfg: Config, labels: seq<Label>, states: seq<State>, n: nat): History
    requires n <= |labels| && |states| == |labels| + 1
  {
    if n == 0 then History([], [])
    else HistoryNext(cfg, states[n - 1], HistoryAt(cfg, labels, states, n - 1), labels[n - 1], states[n])
  }

  lemma InvStep(cfg: Config, s: State, h: History, l: Label, s': State)
    requires ValidConfig(cfg) && Fits(cfg) && Inv(cfg, s, h) && Next(cfg, s, l) == Some(s') && (l.Serve? ==> Confined(cfg, s))
    ensures Inv(cfg, s', HistoryNext(cfg, s, h, l, s'))
  {
    StepKeeps(cfg, s, h, l);
    assert StepOk(cfg, s, h, l);
  }

  /** Only a returning kernel returns, and only a program exits. */
  lemma EndsAreEnabled(cfg: Config, s: State, l: Label, s': State)
    requires ValidConfig(cfg) && Next(cfg, s, l) == Some(s')
    ensures l.Return? ==> s.mode == Returning && s' == SysReturn(cfg, s)
    ensures l.Exit? ==> s.mode == User && s' == FarReturn(s)
    ensures l.Syscall? ==> s.mode == User
  {
  }

  lemma RunStep(cfg: Config, labels: seq<Label>, states: seq<State>, m: nat)
    requires ValidConfig(cfg) && Fits(cfg) && OrderlyRun(cfg, labels, states) && m < |labels|
    requires Inv(cfg, states[m], HistoryAt(cfg, labels, states, m))
    ensures Inv(cfg, states[m + 1], HistoryAt(cfg, labels, states, m + 1))
  {
    assert StepAt(cfg, labels, states, m);
    InvStep(cfg, states[m], HistoryAt(cfg, labels, states, m), labels[m], states[m + 1]);
  }

  lemma {:induction false} RunInv(cfg: Config, labels: seq<Label>, states: seq<State>, n: nat)
    requires ValidConfig(cfg) && Fits(cfg) && OrderlyRun(cfg, labels, states) && n <= |labels|
    ensures Inv(cfg, states[n], HistoryAt(cfg, labels, states, n))
    decreases n
  {
    if n == 0 {
      InitialInv(cfg, states[0]);
    } else {
      var m := n - 1;
      RunInv(cfg, labels, states, m);
      RunStep(cfg, labels, states, m);
      assert m + 1 == n;
    }
  }

  /** How a step changes what is outstanding. */
  lemma HistoryStep(cfg: Config, labels: seq<Label>, states: seq<State>, m: nat)
    requires ValidConfig(cfg) && Fits(cfg) && OrderlyRun(cfg, labels, states) && m < |labels|
    ensures var h, h', l := HistoryAt(cfg, labels, states, m), HistoryAt(cfg, labels, states, m + 1), labels[m];
            && (l.Return? ==> states[m].mode == Returning && states[m + 1] == SysReturn(cfg, states[m]) && h.traps != [])
            && (l.Exit? ==> states[m].mode == User && states[m + 1] == FarReturn(states[m]) && h.calls != [])
            && h'.traps == (if l.Syscall? then h.traps + [states[m]] else if l.Return? then h.traps[..|h.traps| - 1] else h.traps)
            && h'.calls == (if Starts(l, states[m + 1]) then h.calls + [CallRegs(cfg, states[m], l.regs)]
                            else if l.Exit? then h.calls[..|h.calls| - 1] else h.calls)
  {
    StepEnds(cfg, labels, states, m);
    OutstandingAt(cfg, labels, states, m);
  }

  lemma OutstandingAt(cfg: Config, labels: seq<Label>, states: seq<State>, n: nat)
    requires ValidConfig(cfg) && Fits(cfg) && OrderlyRun(cfg, labels, states) && n <= |labels|
    ensures states[n].mode == Returning ==> HistoryAt(cfg, labels, states, n).traps != []
    ensures states[n].mode == User ==> HistoryAt(cfg, labels, states, n).calls != []
  {
    RunInv(cfg, labels, states, n);
  }

  lemma StepEnds(cfg: Config, labels: seq<Label>, states: seq<State>, m: nat)
    requires ValidConfig(cfg) && OrderlyRun(cfg, labels, states) && m < |labels|
    ensures labels[m].Return? ==> states[m].mode == Returning && states[m + 1] == SysReturn(cfg, states[m])
    ensures labels[m].Exit? ==> states[m].mode == User && states[m + 1] == FarReturn(states[m])
  {
    assert StepAt(cfg, labels, states, m);
    EndsAreEnabled(cfg, states[m], labels[m], states[m + 1]);
  }

  predicate Starts(l: Label, s': State) {
    (l.Boot? || l.Run?) && s'.mode == User
  }

  // ---------- every reachable state ----------

  /** Control is never lost, at most eight programs are live, no more system calls than programs
      are outstanding, the save areas' index stays within their ten words, and every system call
      is served on behalf of a pid that is not zero. */
  lemma NeverLost(cfg: Config, labels: seq<Label>, states: seq<State>, n: nat)
    requires ValidConfig(cfg) && Fits(cfg) && OrderlyRun(cfg, labels, states) && n <= |labels|
    ensures var s, h := states[n], HistoryAt(cfg, labels, states, n);
            && s.mode != Fault && |h.traps| <= Depth(s, h) <= 8
            && s.suserp == 2 * |h.traps| <= 16
            && (s.mode == Serving ==> 1 <= s.running <= 8)
  {
    RunInv(cfg, labels, states, n);
  }

  /** In dispatch for service 7 only a launch attempt is enabled. */
  lemma OnlyRunServes7(cfg: Config, s: State, l: Label, t: State)
    requires ValidConfig(cfg) && s.mode == Serving && Service(cfg, s) == 7 && Next(cfg, s, l) == Some(t)
    ensures l.Run?
  {
  }

  lemma FullCannotLaunch(cfg: Config, s: State, regs: Cpu, junk: Stack)
    requires ValidConfig(cfg) && s.mode == Serving && s.running <= 9 && TrapTop(cfg, s) <= 0x8000
    requires Terminated(FromBlock(s)) && FirstFree(s.segs, 0) == None
    ensures Next(cfg, s, Run(regs, junk)) == None
  {
    LaunchIsNot(cfg, ServingLaunch(s, junk), CStr(FromBlock(s)), s.cpu.sp / 2, FROM_DISPATCH, regs);
  }

  /** With eight programs live every segment is taken: a launch asked for then is where a run ends. */
  lemma NoNinthLaunch(cfg: Config, labels: seq<Label>, states: seq<State>, n: nat, l: Label)
    requires ValidConfig(cfg) && Fits(cfg) && OrderlyRun(cfg, labels, states) && n <= |labels|
    requires states[n].mode == Serving && Service(cfg, states[n]) == 7 && |HistoryAt(cfg, labels, states, n).calls| == 8
    ensures Next(cfg, states[n], l) == None
  {
    var s, h := states[n], HistoryAt(cfg, labels, states, n);
    RunInv(cfg, labels, states, n);
    ServingFrame(cfg, s, h);
    RequestEnds(cfg, s, h);
    TablesFull(s.segs, s.procs, Depth(s, h));
    if Next(cfg, s, l).Some? {
      OnlyRunServes7(cfg, s, l, Next(cfg, s, l).value);
      FullCannotLaunch(cfg, s, l.regs, l.junk);
    }
  }

  /** While a program runs at depth `d`: pids 1..d live in slots and segments of the same order,
      the k-th the child of the (k-1)-th; only the innermost RUNNING; and the one pair of globals
      holding what the innermost far call stored. */
  lemma UserModeFacts(cfg: Config, labels: seq<Label>, states: seq<State>, n: nat)
    requires ValidConfig(cfg) && Fits(cfg) && OrderlyRun(cfg, labels, states) && n <= |labels| && states[n].mode == User
    ensures var s, calls := states[n], HistoryAt(cfg, labels, states, n).calls; var d := |calls|;
            && 1 <= d <= 8 && s.running == d
            && (forall i :: 0 <= i < 9 ==> (s.procs[i].pid != 0 <==> i < d))
            && (forall i :: 0 <= i < d ==> s.procs[i].pid == i + 1 && s.procs[i].ppid == i && s.procs[i].cs == 0x1000 * (i + 2))
            && (forall i :: 0 <= i < d ==> s.procs[i].state == if i + 1 == s.running then RUNNING else READY)
            && (forall i :: 0 <= i < 10 ==> (s.segs[i].used <==> i < d + 2))
            && s.ssbak == calls[d - 1].ss == InitialSegs()[1].address && s.spbak == calls[d - 1].sp - 22
  {
    var s, h := states[n], HistoryAt(cfg, labels, states, n);
    RunInv(cfg, labels, states, n);
    assert forall i :: 0 <= i < 9 ==> SlotIs(s.procs[i], i, |h.calls|);
    assert FarFrameAt(cfg, s.kstack, |h.calls|, h.calls[|h.calls| - 1]);
  }

  /** The kernel runs on the one segment init_seg gives it, which stays taken and is no program's:
      its stack and its data are there whenever it runs, and the stack it will run on next while a
      program does. */
  lemma KernelSegmentIs(cfg: Config, labels: seq<Label>, states: seq<State>, n: nat)
    requires ValidConfig(cfg) && Fits(cfg) && OrderlyRun(cfg, labels, states) && n <= |labels|
    ensures var s, k := states[n], InitialSegs()[1].address;
            && s.segs[1] == Seg(true, k) && (forall j: nat :: j < 8 ==> SegmentOf(j) != k) && (s.mode != Idle ==> OwnSegment(s) != k)
            && (s.mode != User ==> s.cpu.ss == k && s.cpu.ds == k)
            && (s.mode == Serving ==> s.cpu.es == k)
            && (s.mode in {User, Serving} ==> s.ssbak == k)
  {
    var s, h := states[n], HistoryAt(cfg, labels, states, n);
    RunInv(cfg, labels, states, n);
    forall i | 0 <= i < 9 ensures SlotIs(s.procs[i], i, Depth(s, h)) {}
  }

  /** Whenever startk's loop goes round, every program's segment and process slot is free again. */
  lemma IdleIsClean(cfg: Config, labels: seq<Label>, states: seq<State>, n: nat)
    requires ValidConfig(cfg) && Fits(cfg) && OrderlyRun(cfg, labels, states) && n <= |labels| && states[n].mode == Idle
    ensures forall i :: 0 <= i < 10 ==> (states[n].segs[i].used <==> i < 2)
    ensures forall i :: 0 <= i < 9 ==> states[n].procs[i].pid == 0
  {
    RunInv(cfg, labels, states, n);
    assert forall i :: 0 <= i < 9 ==> SlotIs(states[n].procs[i], i, 0);
  }

  // ---------- who writes where ----------

  /** The innermost program's segment is the one its process slot names. */
  lemma OwnSegmentIs(cfg: Config, s: State, h: History)
    requires ValidConfig(cfg) && Inv(cfg, s, h) && s.mode in [User, Returning]
    ensures 1 <= s.running <= 8 && OwnSegment(s) == SegmentOf(s.running - 1)
  {
    assert SlotIs(s.procs[|h.calls| - 1], |h.calls| - 1, |h.calls|);
  }

  /** Is this the step of a program, of the copy back to it, or of a launch into segment `a`? */
  predicate MayWrite(s: State, l: Label, a: Word) {
    if l.Boot? || l.Run? then FirstFree(s.segs, 0).Some? && s.segs[FirstFree(s.segs, 0).value].address == a
    else (l.Work? || l.Return?) && a == OwnSegment(s)
  }

  lemma AfterLoadWrites(cfg: Config, p: State, name: seq<Byte>, i: nat, load: LoadResult, top: nat, tag: Word, regs: Cpu)
    requires ValidConfig(cfg) && 18 + cfg.run <= top <= 0x8000 && p.running <= 9 && i < 10
    requires load.Found? ==> |load.entry| == 32 && |load.image| == 0x1_0000
    ensures var r := AfterLoad(cfg, p, name, i, load, top, tag, regs);
            && (r.Refused? ==> r.state.mem == p.mem)
            && (r.Started? ==> forall a :: a in p.mem && a != p.segs[i].address ==> a in r.state.mem && r.state.mem[a] == p.mem[a])
  {
  }

  lemma LaunchIs(cfg: Config, p: State, name: seq<Byte>, top: nat, tag: Word, regs: Cpu, i: nat, load: LoadResult)
    requires ValidConfig(cfg) && 18 + cfg.run <= top <= 0x8000 && p.running <= 9
    requires FirstFree(p.segs, 0) == Some(i) && p.segs[i].address in p.mem
    requires load == LoadProgram(cfg.disk, cfg.stale, cfg.vol, name, p.mem[p.segs[i].address])
    ensures RunProgram(cfg, p, name, top, tag, regs) == AfterLoad(cfg, p, name, i, load, top, tag, regs)
  {
  }

  /** What keeps a launch from loading anything. */
  lemma LaunchIsNot(cfg: Config, p: State, name: seq<Byte>, top: nat, tag: Word, regs: Cpu)
    requires ValidConfig(cfg) && top <= 0x8000 && p.running <= 9
    ensures FirstFree(p.segs, 0).None? ==> RunProgram(cfg, p, name, top, tag, regs) == NotEnabled
    ensures FirstFree(p.segs, 0).Some? && (top < 18 + cfg.run || p.segs[FirstFree(p.segs, 0).value].address !in p.mem) ==>
              RunProgram(cfg, p, name, top, tag, regs) == Broken
  {
  }

  /** The contents of segment `a` are still there. */
  predicate Unwritten(mem: map<Word, Segment>, mem': map<Word, Segment>, a: Word) {
    a in mem ==> a in mem' && mem'[a] == mem[a]
  }

  /** A launch writes only the first free segment. */
  lemma LaunchWritesFree(cfg: Config, p: State, name: seq<Byte>, top: nat, tag: Word, regs: Cpu, a: Word)
    requires ValidConfig(cfg) && top <= 0x8000 && p.running <= 9
    requires FirstFree(p.segs, 0).Some? ==> p.segs[FirstFree(p.segs, 0).value].address != a
    ensures var r := RunProgram(cfg, p, name, top, tag, regs);
            (r.Refused? || r.Started?) ==> Unwritten(p.mem, r.state.mem, a)
  {
    LaunchIsNot(cfg, p, name, top, tag, regs);
    if FirstFree(p.segs, 0).Some? && top >= 18 + cfg.run {
      var i := FirstFree(p.segs, 0).value;
      var seg := p.segs[i].address;
      if seg in p.mem {
        var load := LoadProgram(cfg.disk, cfg.stale, cfg.vol, name, p.mem[seg]);
        LaunchIs(cfg, p, name, top, tag, regs, i, load);
        AfterLoadWrites(cfg, p, name, i, load, top, tag, regs);
      }
    }
  }

  lemma AfterBootWrites(s: State, r: Launch, t: State, a: Word)
    requires AfterBoot(s, r) == Some(t) && t.mode != Fault && ((r.Refused? || r.Started?) ==> Unwritten(s.mem, r.state.mem, a))
    ensures Unwritten(s.mem, t.mem, a)
  {
  }

  lemma BootIsServed(cfg: Config, s: State, regs: Cpu, junk: Stack, t: State)
    requires ValidConfig(cfg) && Next(cfg, s, Label.Boot(regs, junk)) == Some(t)
    ensures AfterBoot(s, RunProgram(cfg, Booting(s, junk), INIT, s.cpu.sp / 2, FROM_STARTK, regs)) == Some(t)
  {
  }

  lemma BootWrites(cfg: Config, s: State, regs: Cpu, junk: Stack, t: State, a: Word)
    requires ValidConfig(cfg) && Next(cfg, s, Label.Boot(regs, junk)) == Some(t) && t.mode != Fault
    requires !MayWrite(s, Label.Boot(regs, junk), a)
    ensures Unwritten(s.mem, t.mem, a)
  {
    BootIsServed(cfg, s, regs, junk, t);
    LaunchWritesFree(cfg, Booting(s, junk), INIT, s.cpu.sp / 2, FROM_STARTK, regs, a);
    AfterBootWrites(s, RunProgram(cfg, Booting(s, junk), INIT, s.cpu.sp / 2, FROM_STARTK, regs), t, a);
  }

  /** A step that serves 7 is what a launch comes to. */
  lemma RunServed(cfg: Config, s: State, regs: Cpu, junk: Stack, t: State)
    requires Linked(cfg) && Next(cfg, s, Run(regs, junk)) == Some(t) && t.mode != Fault
    ensures Terminated(FromBlock(s)) && regs.ss == KERNEL && s.running <= 9 && TrapTop(cfg, s) <= 0x8000
    ensures AfterRun(cfg, s, TrapTop(cfg, s), RunProgram(cfg, ServingLaunch(s, junk), CStr(FromBlock(s)), s.cpu.sp / 2, FROM_DISPATCH, regs))
            == Some(t)
  {
  }

  lemma AfterRunWrites(cfg: Config, s: State, top: nat, r: Launch, t: State, a: Word)
    requires top <= 0x8000 && AfterRun(cfg, s, top, r) == Some(t) && t.mode != Fault
    requires (r.Refused? || r.Started?) ==> Unwritten(s.mem, r.state.mem, a)
    ensures Unwritten(s.mem, t.mem, a)
  {
  }

  lemma RunWrites(cfg: Config, s: State, regs: Cpu, junk: Stack, t: State, a: Word)
    requires ValidConfig(cfg) && Next(cfg, s, Label.Run(regs, junk)) == Some(t) && t.mode != Fault
    requires !MayWrite(s, Label.Run(regs, junk), a)
    ensures Unwritten(s.mem, t.mem, a)
  {
    RunServed(cfg, s, regs, junk, t);
    var p, name := ServingLaunch(s, junk), CStr(FromBlock(s));
    LaunchWritesFree(cfg, p, name, s.cpu.sp / 2, FROM_DISPATCH, regs, a);
    AfterRunWrites(cfg, s, TrapTop(cfg, s), RunProgram(cfg, p, name, s.cpu.sp / 2, FROM_DISPATCH, regs), t, a);
  }

  lemma WorkWrites(cfg: Config, s: State, cpu: Cpu, contents: Segment, t: State, a: Word)
    requires ValidConfig(cfg) && Next(cfg, s, Work(cpu, contents)) == Some(t) && a != OwnSegment(s)
    ensures Unwritten(s.mem, t.mem, a)
  {
  }

  lemma ReturnWrites(cfg: Config, s: State, h: History, a: Word)
    requires ValidConfig(cfg) && Fits(cfg) && Inv(cfg, s, h) && s.mode == Returning && a != OwnSegment(s)
    ensures Unwritten(s.mem, SysReturn(cfg, s).mem, a)
  {
    ReturningFrame(cfg, s, h);
    OwnSegmentIs(cfg, s, h);
  }

  lemma ServeWrites(cfg: Config, s: State, area: seq<Byte>, junk: Stack, s': State)
    requires ValidConfig(cfg) && Next(cfg, s, Serve(area, junk)) == Some(s')
    ensures s'.mem == s.mem
  {
  }

  /** The steps that stay in the kernel. */
  lemma KernelWrites(cfg: Config, s: State, l: Label, s': State)
    requires ValidConfig(cfg) && Next(cfg, s, l) == Some(s') && (l.Syscall? || l.Exit? || l.Finishing?)
    ensures s'.mem == s.mem
  {
  }

  lemma StepWrites(cfg: Config, s: State, h: History, l: Label, s': State, a: Word)
    requires ValidConfig(cfg) && Fits(cfg) && Inv(cfg, s, h) && Next(cfg, s, l) == Some(s') && s'.mode != Fault && !MayWrite(s, l, a)
    ensures Unwritten(s.mem, s'.mem, a)
  {
    match l
    case Boot(regs, junk) => BootWrites(cfg, s, regs, junk, s', a);
    case Run(regs, junk) => RunWrites(cfg, s, regs, junk, s', a);
    case Work(cpu, contents) => WorkWrites(cfg, s, cpu, contents, s', a);
    case Return => EndsAreEnabled(cfg, s, l, s'); ReturnWrites(cfg, s, h, a);
    case Serve(area, junk) => ServeWrites(cfg, s, area, junk, s');
    case _ => KernelWrites(cfg, s, l, s');
  }

  lemma WritersRun(cfg: Config, s: State, l: Label, s': State)
    requires ValidConfig(cfg) && Next(cfg, s, l) == Some(s')
    ensures l.Work? || l.Return? ==> s.mode in [User, Returning]
    ensures l.Boot? || l.Run? ==> s.mode != Resumed
  {
  }

  /** Segment `a` belongs to the innermost program or, at a launch, comes next. */
  predicate Innermost(l: Label, h: History, a: Word) {
    if l.Boot? || l.Run? then |h.calls| < 8 && a == SegmentOf(|h.calls|)
    else 1 <= |h.calls| <= 8 && a == SegmentOf(|h.calls| - 1)
  }

  lemma WritableIs(cfg: Config, s: State, h: History, l: Label, s': State, a: Word)
    requires ValidConfig(cfg) && Fits(cfg) && Inv(cfg, s, h) && Next(cfg, s, l) == Some(s') && MayWrite(s, l, a)
    ensures Innermost(l, h, a)
  {
    WritersRun(cfg, s, l, s');
    if l.Boot? || l.Run? {
      SegsArePushedAndPopped(s.segs, 2 + Depth(s, h));
    } else {
      OwnSegmentIs(cfg, s, h);
    }
  }

  /** In any run, one step changes at most one segment of memory: the innermost program's, by
      itself or by the copy back of its block, or the first free one, when a program is launched;
      never a suspended program's. */
  lemma WritesConfined(cfg: Config, labels: seq<Label>, states: seq<State>, n: nat, a: Word)
    requires ValidConfig(cfg) && Fits(cfg) && OrderlyRun(cfg, labels, states) && n < |labels|
    ensures Unwritten(states[n].mem, states[n + 1].mem, a)
            || (MayWrite(states[n], labels[n], a) && Innermost(labels[n], HistoryAt(cfg, labels, states, n), a))
  {
    var s, h := states[n], HistoryAt(cfg, labels, states, n);
    RunInv(cfg, labels, states, n);
    NeverLost(cfg, labels, states, n + 1);
    assert StepAt(cfg, labels, states, n);
    if MayWrite(s, labels[n], a) {
      WritableIs(cfg, s, h, labels[n], states[n + 1], a);
    } else {
      StepWrites(cfg, s, h, labels[n], states[n + 1], a);
    }
  }

  lemma TrapHandsOver(cfg: Config, s: State, t: State)
    requires ValidConfig(cfg) && Next(cfg, s, Syscall) == Some(t) && t.mode != Fault
    ensures s.cpu.ds in s.mem && t.mode == Serving && t.mem == s.mem && t.params == BlockAt(s.mem[s.cpu.ds], s.cpu.si)
    ensures var arguments := s.spbak as int / 2 - 4;
            && 2 <= arguments < 0x7FFF && t.kstack[arguments] == s.cpu.dx && t.kstack[arguments + 1] == cfg.params
            && t.cpu.sp as int / 2 + cfg.dispatch + 2 == arguments
            && forall j :: s.spbak / 2 <= j < 0x8000 ==> t.kstack[j] == s.kstack[j]
  {
  }

  /** In any run, a system call leads to dispatch with its two arguments, the service from DX and
      the block's address, above its return address and its own words; the caller's 576 bytes in
      the block; and everything above where the innermost launch left the kernel stack as it was. */
  lemma DispatchIsCalled(cfg: Config, labels: seq<Label>, states: seq<State>, n: nat)
    requires ValidConfig(cfg) && Fits(cfg) && OrderlyRun(cfg, labels, states) && n < |labels| && labels[n].Syscall?
    ensures HistoryAt(cfg, labels, states, n).calls != []
    ensures var s, t, calls := states[n], states[n + 1], HistoryAt(cfg, labels, states, n).calls;
            && s.cpu.ds in s.mem && t.mode == Serving && t.mem == s.mem && t.params == BlockAt(s.mem[s.cpu.ds], s.cpu.si)
            && var top := calls[|calls| - 1].sp / 2 - 11;
               && 4 <= top <= 0x7FFF && t.kstack[top - 4] == s.cpu.dx && t.kstack[top - 3] == cfg.params
               && t.cpu.sp as int / 2 + cfg.dispatch + 2 == top - 4
               && forall j :: top <= j < 0x8000 ==> t.kstack[j] == s.kstack[j]
  {
    NeverLost(cfg, labels, states, n + 1);
    assert StepAt(cfg, labels, states, n);
    TrapHandsOver(cfg, states[n], states[n + 1]);
    EndsAreEnabled(cfg, states[n], labels[n], states[n + 1]);
    UserModeFacts(cfg, labels, states, n);
  }

  /** Whatever programs do, the kernel's own segment stays as it was at the start. */
  lemma {:induction false} KernelMemoryStays(cfg: Config, labels: seq<Label>, states: seq<State>, n: nat)
    requires ValidConfig(cfg) && Fits(cfg) && OrderlyRun(cfg, labels, states) && n <= |labels|
    ensures Unwritten(states[0].mem, states[n].mem, InitialSegs()[1].address)
    decreases n
  {
    if n > 0 {
      var m, k := n - 1, InitialSegs()[1].address;
      KernelMemoryStays(cfg, labels, states, m);
      WritesConfined(cfg, labels, states, m, k);
      assert !Innermost(labels[m], HistoryAt(cfg, labels, states, m), k);
      StaysUnwritten(states[0].mem, states[m].mem, states[n].mem, k);
    }
  }

  lemma StaysUnwritten(a: map<Word, Segment>, b: map<Word, Segment>, c: map<Word, Segment>, k: Word)
    requires Unwritten(a, b, k) && Unwritten(b, c, k)
    ensures Unwritten(a, c, k)
  {
  }

  // ---------- a system call and its return ----------

  /** Outstanding system calls after `n` labels. */
  function Level(labels: seq<Label>, n: nat): int
    requires n <= |labels|
  {
    if n == 0 then 0
    else Level(labels, n - 1) + (if labels[n - 1].Syscall? then 1 else if labels[n - 1].Return? then -1 else 0)
  }

  /** The return at `j` ends the system call at `i`: in between, that call stays outstanding. */
  ghost predicate Matching(labels: seq<Label>, i: nat, j: nat) {
    && i < j < |labels| && labels[i].Syscall? && labels[j].Return?
    && Level(labels, j) == Level(labels, i) + 1
    && forall k :: i < k <= j ==> Level(labels, k) > Level(labels, i)
  }

  lemma {:induction false} LevelIsTraps(cfg: Config, labels: seq<Label>, states: seq<State>, n: nat)
    requires ValidConfig(cfg) && Fits(cfg) && OrderlyRun(cfg, labels, states) && n <= |labels|
    ensures |HistoryAt(cfg, labels, states, n).traps| == Level(labels, n)
    decreases n
  {
    if n > 0 {
      var m := n - 1;
      LevelIsTraps(cfg, labels, states, m);
      HistoryStep(cfg, labels, states, m);
    }
  }

  /** Whatever runs in between, the call made at `i` is still the one on its level at `k`. */
  lemma {:induction false} CallerStays(cfg: Config, labels: seq<Label>, states: seq<State>, i: nat, j: nat, k: nat)
    requires ValidConfig(cfg) && Fits(cfg) && OrderlyRun(cfg, labels, states) && Matching(labels, i, j) && i < k <= j
    ensures var l := |HistoryAt(cfg, labels, states, i).traps|;
            |HistoryAt(cfg, labels, states, k).traps| > l && HistoryAt(cfg, labels, states, k).traps[l] == states[i]
    decreases k
  {
    LevelIsTraps(cfg, labels, states, i);
    LevelIsTraps(cfg, labels, states, k);
    var m := k - 1;
    assert m + 1 == k;
    HistoryStep(cfg, labels, states, m);
    if m > i {
      CallerStays(cfg, labels, states, i, j, m);
    }
  }

  /** What a returning system call owes its caller. */
  predicate Resumes(cfg: Config, s: State, t: State)
    requires ValidConfig(cfg) && s.cpu.ds in s.mem && 1 <= s.running <= 8
  {
    // the registers of int 80h, and the kernel's saved stack
    && t.mode == User && t.cpu.ss == s.cpu.ss && t.cpu.sp == s.cpu.sp && t.cpu.ds == s.cpu.ds
    && t.ssbak == s.ssbak && t.spbak == s.spbak && t.suserp == s.suserp
    // the same segments in use and the same processes, the caller the running one
    && t.segs == s.segs && t.running == s.running
    && (forall i :: 0 <= i < 9 ==> (t.procs[i].pid != 0 <==> s.procs[i].pid != 0))
    && (forall i :: 0 <= i < 9 && s.procs[i].pid != 0 ==> t.procs[i] == s.procs[i])
    // every live program's memory, the caller's except for the block it handed over
    && (forall i: nat :: i + 1 < s.running ==> SegmentOf(i) in t.mem && SegmentOf(i) in s.mem && t.mem[SegmentOf(i)] == s.mem[SegmentOf(i)])
    && s.cpu.ds in t.mem && t.mem[s.cpu.ds] == WithBlock(s.mem[s.cpu.ds], s.cpu.si, t.params)
    // the result of service 7
    && (s.cpu.dx == 7 ==> BlockAt(t.mem[s.cpu.ds], s.cpu.si)[..4] == [ResultCode(cfg, s), 0, 0, 0])
  }

  lemma BlockRoundTrip(m: Segment, at: Word, b: Block)
    ensures BlockAt(WithBlock(m, at, b), at) == b
  {
    var m' := WithBlock(m, at, b);
    forall i | 0 <= i < 576 ensures BlockAt(m', at)[i] == b[i] {
      var j := (at + i) % 0x1_0000;
      assert (j - at) % 0x1_0000 == i;
    }
  }

  lemma TablesAgree(t: State, s: State, k: nat)
    requires 1 <= k <= 8 && TablesAt(t.segs, t.procs, k) && TablesAt(s.segs, s.procs, k)
    requires forall j: nat :: j < k ==> SameProc(t.procs[j], s.procs[j])
    ensures t.segs == s.segs
    ensures forall i :: 0 <= i < 9 ==> (t.procs[i].pid != 0 <==> s.procs[i].pid != 0)
    ensures forall i :: 0 <= i < 9 && s.procs[i].pid != 0 ==> t.procs[i] == s.procs[i]
  {
    forall i | 0 <= i < 9 ensures SlotIs(t.procs[i], i, k) && SlotIs(s.procs[i], i, k) {}
    forall i | 0 <= i < k ensures t.procs[i] == s.procs[i] {
      assert SlotIs(t.procs[i], i, k) && SlotIs(s.procs[i], i, k) && SameProc(t.procs[i], s.procs[i]);
      assert t.procs[i] == s.procs[i].(state := t.procs[i].state);
    }
  }

  /** The last trap of a returning state gets back everything it is owed. */
  lemma ReturnResumes(cfg: Config, r: State, h: History)
    requires ValidConfig(cfg) && Fits(cfg) && Inv(cfg, r, h) && r.mode == Returning
    ensures var s := h.traps[|h.traps| - 1];
            s.cpu.ds in s.mem && 1 <= s.running <= 8 && Resumes(cfg, s, SysReturn(cfg, r))
  {
    var k := |h.traps|;
    var s, t := h.traps[k - 1], SysReturn(cfg, r);
    ReturningFrame(cfg, r, h);
    assert CallerAt(cfg, s, k) && Kept(cfg, r, s, k);
    TablesAgree(r, s, k);
    BlockRoundTrip(s.mem[s.cpu.ds], s.cpu.si, r.params);
    assert r.mem[s.cpu.ds] == s.mem[s.cpu.ds];
  }

  /** For every run and every system call in it, however deeply nested what happened in between:
      its return resumes the caller with the registers, tables and memory it had, the block
      apart, and service 7 has left its result there. */
  lemma SystemCallsResume(cfg: Config, labels: seq<Label>, states: seq<State>, i: nat, j: nat)
    requires ValidConfig(cfg) && Fits(cfg) && OrderlyRun(cfg, labels, states) && Matching(labels, i, j)
    ensures states[i].cpu.ds in states[i].mem && 1 <= states[i].running <= 8 && Resumes(cfg, states[i], states[j + 1])
  {
    var h := HistoryAt(cfg, labels, states, j);
    RunInv(cfg, labels, states, j);
    CallerStays(cfg, labels, states, i, j, j);
    LevelIsTraps(cfg, labels, states, i);
    LevelIsTraps(cfg, labels, states, j);
    HistoryStep(cfg, labels, states, j);
    assert h.traps[|h.traps| - 1] == states[i];
    ReturnResumes(cfg, states[j], h);
  }

  /** Walking back from `k`, the call that opened the levels above `l`. */
  lemma {:induction false} CallBefore(labels: seq<Label>, k: nat, j: nat, l: int) returns (i: nat)
    requires k <= j < |labels| && 0 <= l && forall m :: k <= m <= j ==> Level(labels, m) > l
    ensures i < k && labels[i].Syscall? && Level(labels, i) == l
    ensures forall m :: i < m <= j ==> Level(labels, m) > l
    decreases k
  {
    assert Level(labels, k) > 0;
    var n := k - 1;
    if Level(labels, n) > l {
      i := CallBefore(labels, n, j, l);
    } else {
      i := n;
    }
  }

  /** No return of a run is without its system call: every one resumes the caller of one. */
  lemma EveryReturnResumes(cfg: Config, labels: seq<Label>, states: seq<State>, j: nat)
    requires ValidConfig(cfg) && Fits(cfg) && OrderlyRun(cfg, labels, states) && j < |labels| && labels[j].Return?
    ensures exists i: nat :: Matching(labels, i, j) && states[i].cpu.ds in states[i].mem && 1 <= states[i].running <= 8
                             && Resumes(cfg, states[i], states[j + 1])
  {
    HistoryStep(cfg, labels, states, j);
    LevelIsTraps(cfg, labels, states, j);
    var i := CallBefore(labels, j, j, Level(labels, j) - 1);
    assert Matching(labels, i, j);
    SystemCallsResume(cfg, labels, states, i, j);
  }

  // ---------- a far call and its return ----------

  /** Outstanding far calls after `n` steps. */
  function CallLevel(labels: seq<Label>, states: seq<State>, n: nat): int
    requires n <= |labels| && |states| == |labels| + 1
  {
    if n == 0 then 0
    else CallLevel(labels, states, n - 1) + (if Starts(labels[n - 1], states[n]) then 1 else if labels[n - 1].Exit? then -1 else 0)
  }

  /** The exit at `j` is that of the program started at `i`. */
  ghost predicate MatchingExit(labels: seq<Label>, states: seq<State>, i: nat, j: nat)
    requires |states| == |labels| + 1
  {
    && i < j < |labels| && Starts(labels[i], states[i + 1]) && labels[j].Exit?
    && CallLevel(labels, states, j) == CallLevel(labels, states, i) + 1
    && forall k :: i < k <= j ==> CallLevel(labels, states, k) > CallLevel(labels, states, i)
  }

  lemma {:induction false} CallLevelIsCalls(cfg: Config, labels: seq<Label>, states: seq<State>, n: nat)
    requires ValidConfig(cfg) && Fits(cfg) && OrderlyRun(cfg, labels, states) && n <= |labels|
    ensures |HistoryAt(cfg, labels, states, n).calls| == CallLevel(labels, states, n)
    decreases n
  {
    if n > 0 {
      var m := n - 1;
      CallLevelIsCalls(cfg, labels, states, m);
      HistoryStep(cfg, labels, states, m);
    }
  }

  lemma {:induction false} CallStays(cfg: Config, labels: seq<Label>, states: seq<State>, i: nat, j: nat, k: nat)
    requires ValidConfig(cfg) && Fits(cfg) && OrderlyRun(cfg, labels, states) && MatchingExit(labels, states, i, j) && i < k <= j
    ensures var l := |HistoryAt(cfg, labels, states, i).calls|;
            |HistoryAt(cfg, labels, states, k).calls| > l
            && HistoryAt(cfg, labels, states, k).calls[l] == CallRegs(cfg, states[i], labels[i].regs)
    decreases k
  {
    CallLevelIsCalls(cfg, labels, states, i);
    CallLevelIsCalls(cfg, labels, states, k);
    var m := k - 1;
    assert m + 1 == k;
    HistoryStep(cfg, labels, states, m);
    if m > i {
      CallStays(cfg, labels, states, i, j, m);
    }
  }

  /** For every run and every program started in it: its exit brings the kernel back with exactly
      the registers, stack pointer and segments farcall was entered with. */
  lemma FarCallsReturn(cfg: Config, labels: seq<Label>, states: seq<State>, i: nat, j: nat)
    requires ValidConfig(cfg) && Fits(cfg) && OrderlyRun(cfg, labels, states) && MatchingExit(labels, states, i, j)
    ensures states[j + 1].mode == Resumed && states[j + 1].cpu == CallRegs(cfg, states[i], labels[i].regs)
  {
    var h := HistoryAt(cfg, labels, states, j);
    RunInv(cfg, labels, states, j);
    CallStays(cfg, labels, states, i, j, j);
    CallLevelIsCalls(cfg, labels, states, i);
    CallLevelIsCalls(cfg, labels, states, j);
    StepEnds(cfg, labels, states, j);
    ExitRestoresCall(cfg, states[j], h);
  }

  lemma {:induction false} LaunchBefore(labels: seq<Label>, states: seq<State>, k: nat, j: nat, l: int) returns (i: nat)
    requires |states| == |labels| + 1 && k <= j < |labels| && 0 <= l && forall m :: k <= m <= j ==> CallLevel(labels, states, m) > l
    ensures i < k && Starts(labels[i], states[i + 1]) && CallLevel(labels, states, i) == l
    ensures forall m :: i < m <= j ==> CallLevel(labels, states, m) > l
    decreases k
  {
    assert CallLevel(labels, states, k) > 0;
    var n := k - 1;
    if CallLevel(labels, states, n) > l {
      i := LaunchBefore(labels, states, n, j, l);
    } else {
      i := n;
    }
  }

  /** No exit of a run is without its launch: every one returns to the far call of one. */
  lemma EveryExitReturns(cfg: Config, labels: seq<Label>, states: seq<State>, j: nat)
    requires ValidConfig(cfg) && Fits(cfg) && OrderlyRun(cfg, labels, states) && j < |labels| && labels[j].Exit?
    ensures exists i: nat :: MatchingExit(labels, states, i, j)
                             && states[j + 1].mode == Resumed && states[j + 1].cpu == CallRegs(cfg, states[i], labels[i].regs)
  {
    HistoryStep(cfg, labels, states, j);
    CallLevelIsCalls(cfg, labels, states, j);
    var i := LaunchBefore(labels, states, j, j, CallLevel(labels, states, j) - 1);
    assert MatchingExit(labels, states, i, j);
    FarCallsReturn(cfg, labels, states, i, j);
  }

  // ---------- extending a run ----------

  /** A run that has come to `s`. */
  ghost predicate Reaches(cfg: Config, labels: seq<Label>, states: seq<State>, s: State)
    requires ValidConfig(cfg)
  {
    OrderlyRun(cfg, labels, states) && states[|labels|] == s
  }

  lemma Extends(cfg: Config, labels: seq<Label>, states: seq<State>, s: State, l: Label, t: State)
    requires ValidConfig(cfg) && Fits(cfg) && Reaches(cfg, labels, states, s) && Next(cfg, s, l) == Some(t)
    requires l.Serve? ==> Confined(cfg, s)
    ensures Reaches(cfg, labels + [l], states + [t], t)
  {
    var labels', states' := labels + [l], states + [t];
    forall i: nat | i < |labels'| ensures StepAt(cfg, labels', states', i) {
      if i < |labels| { assert StepAt(cfg, labels, states, i); }
    }
  }

  lemma Begins(cfg: Config, s: State)
    requires ValidConfig(cfg) && Initial(cfg, s)
    ensures Reaches(cfg, [], [s], s)
  {
  }

  /** The next state, for the two steps that may launch: control is not lost there. */
  lemma Advances(cfg: Config, labels: seq<Label>, states: seq<State>, s: State, l: Label, t: State)
    requires ValidConfig(cfg) && Fits(cfg) && Reaches(cfg, labels, states, s) && Next(cfg, s, l) == Some(t)
    requires l.Serve? ==> Confined(cfg, s)
    ensures t.mode != Fault && Reaches(cfg, labels + [l], states + [t], t)
  {
    Extends(cfg, labels, states, s, l, t);
    NeverLost(cfg, labels + [l], states + [t], |labels| + 1);
  }
}
