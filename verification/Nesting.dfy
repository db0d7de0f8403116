/**
 Runs in which programs start programs as deep as there are segments, and all of them end.
 */
module Nesting {
  import opened Bytes
  import opened CString
  import opened Chains
  import opened Directory
  import opened FatFs
  import opened Segments
  import opened Processes
  import opened Machine
  import opened Invariant
  import opened Steps
  import opened Runs
  import opened Launches

  /** A file init is in the root directory and the loader's walk over its clusters ends. */
  predicate InitLoads(cfg: Config)
    requires Linked(cfg)
  {
    var es := RootEntries(cfg.disk, cfg.vol);
    match FirstMatch(es, Upper(INIT), 0)
    case None => false
    case Some(i) => ChainFrom(EntriesOn(cfg.disk, cfg.stale, cfg.vol), StartingCluster(es[i]), {}).Some?
  }

  lemma InitFoundIff(cfg: Config, mem: Segment)
    requires Linked(cfg)
    ensures LoadProgram(cfg.disk, cfg.stale, cfg.vol, INIT, mem).Found? <==> InitLoads(cfg)
  {
  }

  // ---------- starting the first program ----------

  /** The launch starts a program if init loads, and otherwise leaves everything as it was. */
  predicate StartsIf(cfg: Config, p: State, r: Launch)
    requires Linked(cfg)
  {
    if InitLoads(cfg) then r.Started? && r.state.mode == User else !r.Started? && (r.Refused? ==> r.state == p)
  }

  lemma InitStarts(cfg: Config, p: State, h: History, d: nat, top: nat, tag: Word, regs: Cpu)
    requires ValidConfig(cfg) && Fits(cfg) && ReadyToLaunch(cfg, p, h, d) && d < 8
    requires top == RunTop(cfg, d + 1) <= 0x8000 && tag == Tag(d + 1)
    ensures StartsIf(cfg, p, RunProgram(cfg, p, INIT, top, tag, regs))
  {
    SegsArePushedAndPopped(p.segs, 2 + d);
    LaunchOutcome(cfg, p, h, d, INIT, regs);
    InitFoundIff(cfg, p.mem[SegmentOf(d)]);
  }

  lemma BootComesTo(cfg: Config, s: State, regs: Cpu, junk: Stack, r: Launch)
    requires ValidConfig(cfg) && s.mode == Idle && regs.ds == KERNEL && regs.ss == KERNEL
    requires RunProgram(cfg, Booting(s, junk), INIT, s.cpu.sp / 2, FROM_STARTK, regs) == r
    ensures Next(cfg, s, Boot(regs, junk)) == AfterBoot(s, r)
  {
  }

  /** startk's loop starts init if it loads, and goes round for ever if it does not. */
  lemma InitBoots(cfg: Config, s: State, h: History, regs: Cpu, junk: Stack)
    requires ValidConfig(cfg) && Fits(cfg) && Inv(cfg, s, h) && s.mode == Idle && regs.ds == KERNEL && regs.ss == KERNEL
    ensures var t := Next(cfg, s, Boot(regs, junk));
            if InitLoads(cfg) then t.Some? && t.value.mode == User else t.Some? ==> t.value.mode in [Idle, Fault]
  {
    BootIsReady(cfg, s, h, junk);
    LevelFits(cfg, 1);
    InitStarts(cfg, Booting(s, junk), h, 0, s.cpu.sp / 2, FROM_STARTK, regs);
    BootComesTo(cfg, s, regs, junk, RunProgram(cfg, Booting(s, junk), INIT, s.cpu.sp / 2, FROM_STARTK, regs));
  }

  // ---------- a program that starts init again ----------

  /** The registers of a program about to call service 7 with its block at offset 0. */
  function Asking(s: State): Cpu {
    s.cpu.(ds := OwnSegment(s), si := 0, dx := 7)
  }

  const EMPTY: Segment := Fill<Byte>(0x1_0000, 0)
  const REQUEST: Segment := Overlay(EMPTY, 0, INIT)
  const ZEROS: Stack := Fill<Word>(0x8000, 0)

  lemma Asks(cfg: Config, s: State, h: History)
    requires ValidConfig(cfg) && Inv(cfg, s, h) && s.mode == User
    ensures OwnSegment(s) in s.mem
    ensures Next(cfg, s, Work(Asking(s), REQUEST)) == Some(s.(cpu := Asking(s), mem := s.mem[OwnSegment(s) := REQUEST]))
  {
    OwnSegmentIs(cfg, s, h);
  }

  lemma RequestedInit(s: State)
    requires s.params == BlockAt(REQUEST, 0)
    ensures Terminated(FromBlock(s)) && CStr(FromBlock(s)) == INIT
  {
    var m := FromBlock(s);
    assert forall i :: 0 <= i < 5 ==> m[i] == m[..576][i] == REQUEST[i];
    assert m[..4] == INIT;
    CStrIs(m, 4);
  }

  lemma RunComesTo(cfg: Config, s: State, regs: Cpu, junk: Stack, t: State)
    requires ValidConfig(cfg) && s.mode == Serving && regs.ds == KERNEL && regs.ss == KERNEL && s.running <= 9 && TrapTop(cfg, s) <= 0x8000
    requires Service(cfg, s) == 7 && Terminated(FromBlock(s))
    requires AfterRun(cfg, s, TrapTop(cfg, s), RunProgram(cfg, ServingLaunch(s, junk), CStr(FromBlock(s)), s.cpu.sp / 2, FROM_DISPATCH, regs))
             == Some(t)
    ensures Next(cfg, s, Run(regs, junk)) == Some(t)
  {
  }

  lemma InitRuns(cfg: Config, s: State, h: History, regs: Cpu, junk: Stack) returns (t: State)
    requires ValidConfig(cfg) && Fits(cfg) && Inv(cfg, s, h) && s.mode == Serving && InitLoads(cfg)
    requires regs.ds == KERNEL && regs.ss == KERNEL
    requires Service(cfg, s) == 7 && s.params == BlockAt(REQUEST, 0) && |h.calls| < 8
    ensures Next(cfg, s, Run(regs, junk)) == Some(t) && t.mode == User
  {
    RequestedInit(s);
    ServingFrame(cfg, s, h);
    ServingIsReady(cfg, s, h, junk);
    var p := ServingLaunch(s, junk);
    InitStarts(cfg, p, h, |h.calls|, s.cpu.sp / 2, FROM_DISPATCH, regs);
    t := RunProgram(cfg, p, INIT, s.cpu.sp / 2, FROM_DISPATCH, regs).state;
    RunComesTo(cfg, s, regs, junk, t);
  }

  // ---------- runs ----------

  /** A run that has come to `s` with `d` far calls outstanding. */
  ghost predicate At(cfg: Config, labels: seq<Label>, states: seq<State>, s: State, h: History, d: nat)
    requires ValidConfig(cfg)
  {
    Reaches(cfg, labels, states, s) && Inv(cfg, s, h) && |h.calls| == d
  }

  lemma Goes(cfg: Config, labels: seq<Label>, states: seq<State>, s: State, h: History, l: Label, t: State) returns (h': History)
    requires ValidConfig(cfg) && Fits(cfg) && Reaches(cfg, labels, states, s) && Inv(cfg, s, h)
    requires Next(cfg, s, l) == Some(t) && !l.Serve?
    ensures h' == HistoryNext(cfg, s, h, l, t) && At(cfg, labels + [l], states + [t], t, h', |h'.calls|) && t.mode != Fault
  {
    h' := HistoryNext(cfg, s, h, l, t);
    Extends(cfg, labels, states, s, l, t);
    InvStep(cfg, s, h, l, t);
  }

  lemma CallsServe(cfg: Config, s: State, h: History, t: State, h': History)
    requires ValidConfig(cfg) && Fits(cfg) && Inv(cfg, s, h) && s.mode == User && Next(cfg, s, Syscall) == Some(t)
    requires h' == h.(traps := h.traps + [s]) && Inv(cfg, t, h') && t.mode != Fault && s.cpu.ds in s.mem
    ensures t.mode == Serving && Service(cfg, t) == s.cpu.dx && t.params == BlockAt(s.mem[s.cpu.ds], s.cpu.si)
  {
    SyscallServes(cfg, s, t);
    ServingFrame(cfg, t, h');
  }

  /** The program puts the request into its segment and calls the kernel. */
  lemma AsksKernel(cfg: Config, labels: seq<Label>, states: seq<State>, s: State, h: History)
    returns (labels': seq<Label>, states': seq<State>, t: State, h': History)
    requires ValidConfig(cfg) && Fits(cfg) && At(cfg, labels, states, s, h, |h.calls|) && s.mode == User
    ensures At(cfg, labels', states', t, h', |h.calls|) && t.mode == Serving && Service(cfg, t) == 7 && t.params == BlockAt(REQUEST, 0)
  {
    var work := Work(Asking(s), REQUEST);
    Asks(cfg, s, h);
    var a := s.(cpu := Asking(s), mem := s.mem[OwnSegment(s) := REQUEST]);
    var ha := Goes(cfg, labels, states, s, h, work, a);
    labels', states', t := labels + [work] + [Syscall], states + [a] + [Trap(cfg, a)], Trap(cfg, a);
    h' := Goes(cfg, labels + [work], states + [a], a, ha, Syscall, t);
    CallsServe(cfg, a, ha, t, h');
  }

  lemma StartGoes(cfg: Config, labels: seq<Label>, states: seq<State>, s: State, h: History, l: Label, t: State) returns (h': History)
    requires ValidConfig(cfg) && Fits(cfg) && Reaches(cfg, labels, states, s) && Inv(cfg, s, h)
    requires Next(cfg, s, l) == Some(t) && (l.Boot? || l.Run?) && t.mode == User
    ensures At(cfg, labels + [l], states + [t], t, h', |h.calls| + 1)
  {
    h' := Goes(cfg, labels, states, s, h, l, t);
  }

  /** One level deeper: init is started again. */
  lemma Deeper(cfg: Config, labels: seq<Label>, states: seq<State>, s: State, h: History)
    returns (labels': seq<Label>, states': seq<State>, t: State, h': History)
    requires ValidConfig(cfg) && Fits(cfg) && InitLoads(cfg) && At(cfg, labels, states, s, h, |h.calls|) && s.mode == User && |h.calls| < 8
    ensures At(cfg, labels', states', t, h', |h.calls| + 1) && t.mode == User
  {
    var a, sa, b, hb := AsksKernel(cfg, labels, states, s, h);
    var run := Run(b.cpu, ZEROS);
    t := InitRuns(cfg, b, hb, b.cpu, ZEROS);
    labels', states' := a + [run], sa + [t];
    h' := StartGoes(cfg, a, sa, b, hb, run, t);
  }

  // ---------- and back ----------

  lemma Exits(cfg: Config, labels: seq<Label>, states: seq<State>, s: State, h: History) returns (h': History)
    requires ValidConfig(cfg) && Fits(cfg) && Reaches(cfg, labels, states, s) && Inv(cfg, s, h) && s.mode == User
    ensures At(cfg, labels + [Exit], states + [FarReturn(s)], FarReturn(s), h', |h.calls| - 1) && FarReturn(s).mode == Resumed
  {
    h' := Goes(cfg, labels, states, s, h, Exit, FarReturn(s));
    FarReturnResumes(s);
  }

  lemma Finishes(cfg: Config, labels: seq<Label>, states: seq<State>, s: State, h: History) returns (t: State)
    requires ValidConfig(cfg) && Fits(cfg) && Reaches(cfg, labels, states, s) && Inv(cfg, s, h) && s.mode == Resumed
    ensures At(cfg, labels + [Finishing(ZEROS)], states + [t], t, h, |h.calls|)
    ensures t.mode == if |h.calls| == 0 then Idle else Returning
  {
    t := Finish(cfg, Scribbled(s, ZEROS));
    var h' := Goes(cfg, labels, states, s, h, Finishing(ZEROS), t);
    FinishModes(cfg, Scribbled(s, ZEROS));
  }

  /** The innermost program ends. */
  lemma Ends(cfg: Config, labels: seq<Label>, states: seq<State>, s: State, h: History)
    returns (labels': seq<Label>, states': seq<State>, t: State, h': History)
    requires ValidConfig(cfg) && Fits(cfg) && Reaches(cfg, labels, states, s) && Inv(cfg, s, h) && s.mode == User
    ensures At(cfg, labels', states', t, h', |h.calls| - 1) && t.mode == (if |h'.calls| == 0 then Idle else Returning)
    ensures labels <= labels' && states <= states'
  {
    h' := Exits(cfg, labels, states, s, h);
    t := Finishes(cfg, labels + [Exit], states + [FarReturn(s)], FarReturn(s), h');
    labels', states' := labels + [Exit] + [Finishing(ZEROS)], states + [FarReturn(s)] + [t];
  }

  /** Its caller goes on. */
  lemma Returns(cfg: Config, labels: seq<Label>, states: seq<State>, s: State, h: History)
    returns (labels': seq<Label>, states': seq<State>, t: State, h': History)
    requires ValidConfig(cfg) && Fits(cfg) && Reaches(cfg, labels, states, s) && Inv(cfg, s, h) && s.mode == Returning
    ensures At(cfg, labels', states', t, h', |h.calls|) && t.mode == User && labels <= labels' && states <= states'
  {
    labels', states', t := labels + [Return], states + [SysReturn(cfg, s)], SysReturn(cfg, s);
    h' := Goes(cfg, labels, states, s, h, Return, t);
    ReturnModes(cfg, s);
  }

  lemma FarReturnResumes(s: State)
    ensures FarReturn(s).mode in [Resumed, Fault]
  {
  }

  lemma FinishModes(cfg: Config, s: State)
    ensures Finish(cfg, s).mode in [Idle, Returning, Fault]
  {
  }

  /** Every program ends, and startk's loop goes round. */
  lemma {:induction false} Unwinds(cfg: Config, labels: seq<Label>, states: seq<State>, s: State, h: History)
    returns (labels': seq<Label>, states': seq<State>)
    requires ValidConfig(cfg) && Fits(cfg) && At(cfg, labels, states, s, h, |h.calls|) && s.mode == User
    ensures OrderlyRun(cfg, labels', states') && states'[|labels'|].mode == Idle && labels <= labels' && states <= states'
    decreases |h.calls|
  {
    var t, ht;
    labels', states', t, ht := Ends(cfg, labels, states, s, h);
    if t.mode == Returning {
      var l, ss, u, hu := Returns(cfg, labels', states', t, ht);
      labels', states' := Unwinds(cfg, l, ss, u, hu);
    }
  }

  lemma ReturnModes(cfg: Config, s: State)
    requires Linked(cfg)
    ensures SysReturn(cfg, s).mode in [User, Fault]
  {
  }

  /** startk about to enter its loop. */
  function Start(cfg: Config): State
    requires Fits(cfg)
  {
    LevelFits(cfg, 1);
    State(Idle, Cpu(0, 0, 0, 0, 0, 0, 0, 0, KERNEL, KERNEL, KERNEL, 2 * RunTop(cfg, 1)), ZEROS,
          0, 0, 0, Fill<Word>(10, 0), Fill<Word>(10, 0), 0, 0, Fill<Byte>(576, 0),
          InitialSegs(), [FREE, FREE, FREE, FREE, FREE, FREE, FREE, FREE, FREE], 0, map[0x2000 := EMPTY, 0x3000 := EMPTY, 0x4000 := EMPTY, 0x5000 := EMPTY,
              0x6000 := EMPTY, 0x7000 := EMPTY, 0x8000 := EMPTY, 0x9000 := EMPTY])
  }

  lemma StartIsInitial(cfg: Config)
    requires Fits(cfg)
    ensures Initial(cfg, Start(cfg))
  {
    LevelFits(cfg, 1);
  }

  lemma FirstProgram(cfg: Config, start: State)
    returns (labels: seq<Label>, states: seq<State>, s: State, h: History)
    requires ValidConfig(cfg) && Fits(cfg) && InitLoads(cfg) && Initial(cfg, start)
    ensures At(cfg, labels, states, s, h, 1) && s.mode == User
  {
    Begins(cfg, start);
    InitialInv(cfg, start);
    var boot := Boot(start.cpu, ZEROS);
    InitBoots(cfg, start, History([], []), start.cpu, ZEROS);
    s := Next(cfg, start, boot).value;
    labels, states := [] + [boot], [start] + [s];
    h := StartGoes(cfg, [], [start], start, History([], []), boot, s);
  }

  lemma {:induction false} Nests(cfg: Config, d: nat)
    returns (labels: seq<Label>, states: seq<State>, s: State, h: History)
    requires ValidConfig(cfg) && Fits(cfg) && InitLoads(cfg) && 1 <= d <= 8
    ensures At(cfg, labels, states, s, h, d) && s.mode == User
    decreases d
  {
    if d == 1 {
      StartIsInitial(cfg);
      labels, states, s, h := FirstProgram(cfg, Start(cfg));
    } else {
      var l, ss, p, hp := Nests(cfg, d - 1);
      labels, states, s, h := Deeper(cfg, l, ss, p, hp);
    }
  }

  // ---------- the theorem ----------

  /** A run in which `d` programs are live at once and which comes back to startk's loop. */
  ghost predicate NestsAndReturns(cfg: Config, labels: seq<Label>, states: seq<State>, n: nat, d: nat)
    requires ValidConfig(cfg)
  {
    OrderlyRun(cfg, labels, states) && n <= |labels| && states[n].mode == User && states[n].running == d && states[|labels|].mode == Idle
  }

  /** Without init startk's loop goes round for ever. */
  lemma {:induction false} StaysIdle(cfg: Config, labels: seq<Label>, states: seq<State>, n: nat)
    requires ValidConfig(cfg) && Fits(cfg) && !InitLoads(cfg) && OrderlyRun(cfg, labels, states) && n <= |labels|
    ensures states[n].mode == Idle
    decreases n
  {
    if n > 0 {
      var m := n - 1;
      StaysIdle(cfg, labels, states, m);
      RunInv(cfg, labels, states, m);
      NeverLost(cfg, labels, states, n);
      assert StepAt(cfg, labels, states, m);
      IdleGoesRound(cfg, states[m], HistoryAt(cfg, labels, states, m), labels[m], states[n]);
    }
  }

  lemma IdleGoesRound(cfg: Config, s: State, h: History, l: Label, t: State)
    requires ValidConfig(cfg) && Fits(cfg) && !InitLoads(cfg) && Inv(cfg, s, h) && s.mode == Idle && Next(cfg, s, l) == Some(t) && t.mode != Fault
    ensures t.mode == Idle
  {
    IdleBoots(cfg, s, l);
    InitBoots(cfg, s, h, l.regs, l.junk);
  }

  lemma IdleBoots(cfg: Config, s: State, l: Label)
    requires ValidConfig(cfg) && s.mode == Idle && Next(cfg, s, l).Some?
    ensures l.Boot? && l.regs.ds == KERNEL && l.regs.ss == KERNEL
  {
  }

  /** There are runs with `d` programs nested, all of which end, exactly when `d` is at most eight
      and init can be loaded; and without init no program ever runs. */
  lemma NestsIff(cfg: Config, d: nat)
    requires ValidConfig(cfg) && Fits(cfg) && d >= 1
    ensures d <= 8 && InitLoads(cfg) <==> exists labels, states, n: nat :: NestsAndReturns(cfg, labels, states, n, d)
  {
    if d <= 8 && InitLoads(cfg) {
      var l, ss, s, h := Nests(cfg, d);
      var labels, states := Unwinds(cfg, l, ss, s, h);
      assert states[|l|] == s;
      assert NestsAndReturns(cfg, labels, states, |l|, d);
    }
    if labels, states, n: nat :| NestsAndReturns(cfg, labels, states, n, d) {
      UserModeFacts(cfg, labels, states, n);
      if !InitLoads(cfg) { StaysIdle(cfg, labels, states, n); }
    }
  }
}
