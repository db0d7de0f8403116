/**
 What a launched program finds: its file in its segment.
 */
module Launches {
  import opened Bytes
  import opened CString
  import opened Floppy
  import opened Fat12
  import opened Chains
  import opened Loading
  import opened Directory
  import opened Layouts
  import opened FatFs
  import opened Segments
  import opened Processes
  import opened Machine
  import opened Invariant
  import opened Steps
  import opened Runs

  /** The program a launching step asks for. */
  function Requested(s: State, l: Label): seq<Byte> {
    if l.Run? && Terminated(FromBlock(s)) then CStr(FromBlock(s)) else INIT
  }

  /** The d-th nested program, asked for by `name`, is there as loaded: its segment, its slot in
      the process table and its stack. */
  predicate HoldsLoad(cfg: Config, t: State, d: nat, name: seq<Byte>, load: LoadResult)
    requires Linked(cfg) && 1 <= d <= 8 && load.Found? && |load.entry| == 32 && |load.image| == 0x1_0000
  {
    && t.running == d && SegmentOf(d - 1) in t.mem
    && t.mem[SegmentOf(d - 1)] == Overlay(load.image, 0xFFFA, cfg.farReturn)
    && t.procs[d - 1].name == Upper(name) && t.procs[d - 1].size == Le32(load.entry, 28) && t.procs[d - 1].ip == 0
    && t.cpu.ss == SegmentOf(d - 1) && t.cpu.sp == 0xFFFA
  }

  /** And that is what load makes of the segment contents `was`. */
  predicate HoldsProgram(cfg: Config, t: State, d: nat, name: seq<Byte>, was: Segment)
    requires Linked(cfg) && 1 <= d <= 8
  {
    var load := LoadProgram(cfg.disk, cfg.stale, cfg.vol, name, was);
    load.Found? && HoldsLoad(cfg, t, d, name, load)
  }

  lemma OutcomeHolds(cfg: Config, s: State, d: nat, name: seq<Byte>, load: LoadResult, regs: Cpu)
    requires Linked(cfg) && d < 8 && s.running == d && 18 + cfg.run <= RunTop(cfg, d + 1) <= 0x7FFF && SegmentOf(d) in s.mem
    requires load.Found? ==> |load.entry| == 32 && |load.image| == 0x1_0000
    ensures var r := Outcome(cfg, s, d, name, load, regs);
            r.Started? ==> load.Found? && HoldsLoad(cfg, r.state, d + 1, name, load)
  {
  }

  /** Only a launch leads from dispatch into a program. */
  lemma RunStarts(cfg: Config, s: State, regs: Cpu, junk: Stack, t: State)
    requires ValidConfig(cfg) && Next(cfg, s, Run(regs, junk)) == Some(t) && t.mode == User
    ensures Terminated(FromBlock(s)) && s.running <= 9 && regs.ds == KERNEL && regs.ss == KERNEL
    ensures RunProgram(cfg, ServingLaunch(s, junk), CStr(FromBlock(s)), s.cpu.sp / 2, FROM_DISPATCH, regs) == Started(t)
  {
  }

  lemma ReadyHolds(cfg: Config, p: State, h: History, d: nat, name: seq<Byte>, top: nat, tag: Word, regs: Cpu, t: State)
    requires ValidConfig(cfg) && Fits(cfg) && ReadyToLaunch(cfg, p, h, d)
    requires top == RunTop(cfg, d + 1) <= 0x8000 && tag == Tag(d + 1)
    requires RunProgram(cfg, p, name, top, tag, regs) == Started(t)
    ensures d < 8 && SegmentOf(d) in p.mem && HoldsProgram(cfg, t, d + 1, name, p.mem[SegmentOf(d)])
  {
    assert FirstFree(p.segs, 0).Some?;
    LaunchOutcome(cfg, p, h, d, name, regs);
    OutcomeHolds(cfg, p, d, name, LoadProgram(cfg.disk, cfg.stale, cfg.vol, name, p.mem[SegmentOf(d)]), regs);
  }

  lemma BootStarts(cfg: Config, s: State, regs: Cpu, junk: Stack, t: State)
    requires ValidConfig(cfg) && Next(cfg, s, Boot(regs, junk)) == Some(t) && t.mode == User
    ensures s.mode == Idle && RunProgram(cfg, Booting(s, junk), INIT, s.cpu.sp / 2, FROM_STARTK, regs) == Started(t)
  {
  }

  lemma BootHolds(cfg: Config, s: State, h: History, regs: Cpu, junk: Stack, t: State)
    requires ValidConfig(cfg) && Fits(cfg) && Inv(cfg, s, h) && Next(cfg, s, Boot(regs, junk)) == Some(t) && t.mode == User
    ensures |h.calls| < 8 && SegmentOf(|h.calls|) in s.mem
    ensures HoldsProgram(cfg, t, |h.calls| + 1, INIT, s.mem[SegmentOf(|h.calls|)])
  {
    var d := |h.calls|;
    BootStarts(cfg, s, regs, junk, t);
    BootIsReady(cfg, s, h, junk);
    LevelFits(cfg, d + 1);
    ReadyHolds(cfg, Booting(s, junk), h, d, INIT, s.cpu.sp / 2, FROM_STARTK, regs, t);
  }

  lemma RunHolds(cfg: Config, s: State, h: History, regs: Cpu, junk: Stack, t: State)
    requires ValidConfig(cfg) && Fits(cfg) && Inv(cfg, s, h) && Next(cfg, s, Run(regs, junk)) == Some(t) && t.mode == User
    ensures Terminated(FromBlock(s)) && |h.calls| < 8 && SegmentOf(|h.calls|) in s.mem
    ensures HoldsProgram(cfg, t, |h.calls| + 1, CStr(FromBlock(s)), s.mem[SegmentOf(|h.calls|)])
  {
    ServingFrame(cfg, s, h);
    RunStarts(cfg, s, regs, junk, t);
    ServingIsReady(cfg, s, h, junk);
    ReadyHolds(cfg, ServingLaunch(s, junk), h, |h.calls|, CStr(FromBlock(s)), s.cpu.sp / 2, FROM_DISPATCH, regs, t);
  }

  /** In any run, a program that starts at nesting depth d finds the requested file's image in the
      segment of that depth, and is registered under the upper-cased request. */
  lemma LaunchedProgramIsLoaded(cfg: Config, labels: seq<Label>, states: seq<State>, n: nat)
    requires ValidConfig(cfg) && Fits(cfg) && OrderlyRun(cfg, labels, states) && n < |labels| && Starts(labels[n], states[n + 1])
    ensures var d := |HistoryAt(cfg, labels, states, n).calls| + 1;
            && d <= 8 && SegmentOf(d - 1) in states[n].mem
            && HoldsProgram(cfg, states[n + 1], d, Requested(states[n], labels[n]), states[n].mem[SegmentOf(d - 1)])
  {
    var h := HistoryAt(cfg, labels, states, n);
    RunInv(cfg, labels, states, n);
    assert StepAt(cfg, labels, states, n);
    match labels[n]
    case Boot(regs, junk) => BootHolds(cfg, states[n], h, regs, junk, states[n + 1]);
    case Run(regs, junk) => RunHolds(cfg, states[n], h, regs, junk, states[n + 1]);
  }

  /** Entry `i`, with the fields `f`, is the first file in the directory stored under the
      upper-cased request, whatever the extension. */
  predicate IsRequested(cfg: Config, name: seq<Byte>, i: nat, f: Entry32)
    requires Linked(cfg)
  {
    && i < cfg.vol.bpb.rootEntries && f.Valid() && RootEntry(cfg.disk, cfg.vol, i) == LaidEntry(f)
    && f.IsFile() && TakeName(f.name) == Upper(name)
    && forall j :: 0 <= j < i ==> !Matches(RootEntry(cfg.disk, cfg.vol, j), Upper(name))
  }

  /** What the loader's walk from the cluster in that entry reads is there in order, as long as it
      is at most 15 clusters, and the process has its size.  (A sixteenth cluster reaches up to
      where CALL FAR writes.) */
  lemma LaunchedFileIsRead(cfg: Config, t: State, d: nat, name: seq<Byte>, was: Segment, i: nat, f: Entry32, chain: seq<nat>)
    requires ValidConfig(cfg) && 1 <= d <= 8 && HoldsProgram(cfg, t, d, name, was) && IsRequested(cfg, name, i, f)
    requires IsChain(EntriesOn(cfg.disk, cfg.stale, cfg.vol), f.cluster, chain) && |chain| <= 15
    ensures t.mem[SegmentOf(d - 1)][..0x1000 * |chain|]
            == Concat(ChainData(BlocksOn(cfg.disk, cfg.stale, cfg.vol), chain), |chain|)
    ensures t.procs[d - 1].size == f.size
  {
    var es, next, read := RootEntries(cfg.disk, cfg.vol), EntriesOn(cfg.disk, cfg.stale, cfg.vol), BlocksOn(cfg.disk, cfg.stale, cfg.vol);
    assert forall j :: 0 <= j <= i ==> es[j] == RootEntry(cfg.disk, cfg.vol, j);
    LowestMatchIsLoaded(es, next, read, name, was, i, f, chain);
    FieldsOfEntry(f);
    FrontSurvives(Concat(ChainData(read, chain), |chain|), was, cfg.farReturn);
  }

  /** Whole, that is the disk bytes the format gives its clusters, in chain order, if all of them
      are readable; by LoadsWholeIff not every disk does so otherwise. */
  lemma LaunchedFileIsWhole(cfg: Config, t: State, d: nat, name: seq<Byte>, was: Segment, i: nat, f: Entry32, tab: seq<Entry>,
                            chain: seq<nat>, k: nat)
    requires ValidConfig(cfg) && 1 <= d <= 8 && HoldsProgram(cfg, t, d, name, was) && IsRequested(cfg, name, i, f)
    requires Placed(tab, cfg.vol, chain) && Stores(cfg.disk, cfg.vol.pos.fatStart, tab)
    requires chain[0] == f.cluster && |chain| <= 15 && k < |chain|
    requires forall j: nat {:trigger InChain(tab, cfg.vol, chain, j)} :: j < |chain| ==>
               InChain(tab, cfg.vol, chain, j) && Readable(cfg.vol, chain[j])
    ensures InChain(tab, cfg.vol, chain, k)
    ensures t.mem[SegmentOf(d - 1)][0x1000 * k..0x1000 * k + 0x1000] == Slice(cfg.disk, cfg.vol, chain[k])
  {
    AllReadable(cfg.disk, cfg.stale, tab, cfg.vol, chain);
    WholeIsChain(cfg.disk, cfg.stale, tab, cfg.vol, chain);
    LaunchedFileIsRead(cfg, t, d, name, was, i, f, chain);
    WholeConcat(cfg.disk, cfg.stale, tab, cfg.vol, chain, k);
    BlockOfFront(t.mem[SegmentOf(d - 1)], |chain|, k);
  }

  lemma BlockOfFront<T>(m: seq<T>, n: nat, k: nat)
    requires k < n && 0x1000 * n <= |m|
    ensures m[0x1000 * k..0x1000 * k + 0x1000] == m[..0x1000 * n][0x1000 * k..0x1000 * k + 0x1000]
  {
  }

  lemma FrontSurvives<T>(data: seq<T>, was: seq<T>, over: seq<T>)
    requires |was| == 0x1_0000 && |data| <= 0xF000 && |over| == 4
    ensures Overlay(data + was[|data|..], 0xFFFA, over)[..|data|] == data
  {
  }

  // ---------- what service 7 reports ----------

  lemma LaunchModes(cfg: Config, p: State, name: seq<Byte>, top: nat, tag: Word, regs: Cpu)
    requires Linked(cfg) && top <= 0x8000 && p.running <= 9
    ensures var r := RunProgram(cfg, p, name, top, tag, regs); r.Started? ==> r.state.mode == User
  {
  }

  lemma AfterRunModes(cfg: Config, s: State, top: nat, r: Launch, t: State)
    requires top <= 0x8000 && AfterRun(cfg, s, top, r) == Some(t) && t.mode != Fault && (r.Started? ==> r.state.mode == User)
    ensures (r.Started? || r.Refused?) && t.mode == if r.Started? then User else Returning
  {
  }

  lemma RunCame(cfg: Config, s: State, regs: Cpu, junk: Stack, t: State)
    requires ValidConfig(cfg) && Next(cfg, s, Run(regs, junk)) == Some(t) && t.mode != Fault
    ensures Terminated(FromBlock(s)) && s.running <= 9
    ensures var r := RunProgram(cfg, ServingLaunch(s, junk), CStr(FromBlock(s)), s.cpu.sp / 2, FROM_DISPATCH, regs);
            (r.Started? || r.Refused?) && t.mode == if r.Started? then User else Returning
  {
    RunServed(cfg, s, regs, junk, t);
    var p, name := ServingLaunch(s, junk), CStr(FromBlock(s));
    LaunchModes(cfg, p, name, s.cpu.sp / 2, FROM_DISPATCH, regs);
    AfterRunModes(cfg, s, TrapTop(cfg, s), RunProgram(cfg, p, name, s.cpu.sp / 2, FROM_DISPATCH, regs), t);
  }

  /** A launch that is tried is refused exactly when the directory has no such file. */
  lemma RefusedIff(cfg: Config, p: State, h: History, d: nat, name: seq<Byte>, top: nat, tag: Word, regs: Cpu)
    requires ValidConfig(cfg) && Fits(cfg) && ReadyToLaunch(cfg, p, h, d)
    requires top == RunTop(cfg, d + 1) <= 0x8000 && tag == Tag(d + 1)
    ensures var r := RunProgram(cfg, p, name, top, tag, regs);
            var found := FirstMatch(RootEntries(cfg.disk, cfg.vol), Upper(name), 0).Some?;
            (r.Refused? ==> !found) && (r.Started? ==> found)
  {
    if FirstFree(p.segs, 0).Some? {
      LaunchOutcome(cfg, p, h, d, name, regs);
    }
  }

  lemma RunReports(cfg: Config, s: State, h: History, d: nat, regs: Cpu, junk: Stack, t: State)
    requires ValidConfig(cfg) && Fits(cfg) && Terminated(FromBlock(s)) && d >= 1
    requires ReadyToLaunch(cfg, ServingLaunch(s, junk), h, d) && s.cpu.sp / 2 == RunTop(cfg, d + 1) <= 0x8000
    requires Next(cfg, s, Run(regs, junk)) == Some(t) && t.mode != Fault
    ensures t.mode == if FirstMatch(RootEntries(cfg.disk, cfg.vol), Upper(CStr(FromBlock(s))), 0).Some? then User else Returning
  {
    RunCame(cfg, s, regs, junk, t);
    RefusedIff(cfg, ServingLaunch(s, junk), h, d, CStr(FromBlock(s)), s.cpu.sp / 2, FROM_DISPATCH, regs);
  }

  /** In any run, the step after `int 80h` with service 7 starts a program if and only if a file
      of the requested name is there, and otherwise returns; by SystemCallsResume the caller is
      told which. */
  lemma Service7LaunchesIff(cfg: Config, labels: seq<Label>, states: seq<State>, i: nat)
    requires ValidConfig(cfg) && Fits(cfg) && OrderlyRun(cfg, labels, states) && i + 1 < |labels|
    requires labels[i].Syscall? && states[i].cpu.dx == 7
    ensures labels[i + 1].Run? && states[i].cpu.ds in states[i].mem
    ensures states[i + 2].mode == if RequestFound(cfg, states[i]) then User else Returning
  {
    var s, h := states[i + 1], HistoryAt(cfg, labels, states, i + 1);
    assert StepAt(cfg, labels, states, i) && StepAt(cfg, labels, states, i + 1);
    RunInv(cfg, labels, states, i + 1);
    HistoryStep(cfg, labels, states, i);
    NeverLost(cfg, labels, states, i + 1);
    NeverLost(cfg, labels, states, i + 2);
    SyscallServes(cfg, states[i], s);
    ServingFrame(cfg, s, h);
    OnlyRunServes7(cfg, s, labels[i + 1], states[i + 2]);
    RequestEnds(cfg, s, h);
    RequestIs(cfg, s, h);
    ServingIsReady(cfg, s, h, labels[i + 1].junk);
    RunReports(cfg, s, h, |h.calls|, labels[i + 1].regs, labels[i + 1].junk, states[i + 2]);
  }

  lemma SyscallServes(cfg: Config, s: State, t: State)
    requires ValidConfig(cfg) && Next(cfg, s, Syscall) == Some(t) && t.mode != Fault
    ensures t.mode == Serving && s.cpu.ds in s.mem
  {
  }

  lemma FirstOfBlock(m: Segment, at: Word, code: Byte)
    requires BlockAt(m, at)[..4] == [code, 0, 0, 0]
    ensures m[at] == code
  {
    var b := BlockAt(m, at);
    assert b[..4][0] == b[0] == m[at];
  }

  /** What the user library's run_program returns: the first byte of the caller's block. */
  lemma CallerIsTold(cfg: Config, labels: seq<Label>, states: seq<State>, i: nat, j: nat)
    requires ValidConfig(cfg) && Fits(cfg) && OrderlyRun(cfg, labels, states) && Matching(labels, i, j) && states[i].cpu.dx == 7
    ensures states[i].cpu.ds in states[j + 1].mem && labels[i + 1].Run?
    ensures states[j + 1].mem[states[i].cpu.ds][states[i].cpu.si] == if states[i + 2].mode == User then 0 else 1
  {
    SystemCallsResume(cfg, labels, states, i, j);
    Service7LaunchesIff(cfg, labels, states, i);
    FirstOfBlock(states[j + 1].mem[states[i].cpu.ds], states[i].cpu.si, ResultCode(cfg, states[i]));
  }
}
