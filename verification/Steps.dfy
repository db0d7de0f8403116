/**
 Every step keeps the invariant.
 */
module Steps {
  import opened Bytes
  import opened CString
  import opened Floppy
  import opened Chains
  import opened Directory
  import opened FatFs
  import opened Segments
  import opened Processes
  import opened Machine
  import opened Invariant

  // ---------- keeping ----------

  lemma KeptTransitive(cfg: Config, a: State, b: State, c: State, k: nat)
    requires 1 <= k <= 8 && Kept(cfg, a, b, k) && Kept(cfg, b, c, k)
    ensures Kept(cfg, a, c, k)
  {
  }

  lemma KeptShallower(cfg: Config, a: State, b: State, k: nat, m: nat)
    requires 1 <= k <= m <= 8 && Kept(cfg, a, b, m)
    ensures Kept(cfg, a, b, k)
  {
    TopsDescend(cfg, k, m);
  }

  /** A step that keeps the innermost caller keeps every caller. */
  lemma TrapsKept(cfg: Config, s: State, s': State, traps: seq<State>, launched: nat)
    requires Linked(cfg) && |traps| <= 8 && TrapsAt(cfg, s, traps, launched)
    requires traps == [] || Kept(cfg, s', s, |traps|)
    ensures TrapsAt(cfg, s', traps, launched)
  {
    forall i | 0 <= i < |traps| ensures Kept(cfg, s', traps[i], i + 1) {
      KeptShallower(cfg, s', s, i + 1, |traps|);
      KeptTransitive(cfg, s', s, traps[i], i + 1);
    }
  }

  /** Frames at or above `bound` survive any change below it. */
  lemma FramesKept(cfg: Config, st: Stack, st': Stack, d: nat, h: History, bound: int)
    requires d <= 8 && |h.calls| <= d && |h.traps| <= d && FramesAt(cfg, st, d, h)
    requires forall w: nat :: bound <= w < 0x8000 ==> st'[w] == st[w]
    requires d > 0 ==> bound <= FarTop(cfg, d)
    requires |h.traps| > 0 ==> bound <= FarTop(cfg, |h.traps|) - 6
    ensures FramesAt(cfg, st', d, h)
  {
    forall k | 1 <= k <= d ensures RunFrameAt(cfg, st', k) {
      TopsDescend(cfg, k, d);
      assert RunFrameAt(cfg, st, k);
    }
    forall i | 0 <= i < |h.calls| ensures FarFrameAt(cfg, st', i + 1, h.calls[i]) {
      TopsDescend(cfg, i + 1, d);
      assert FarFrameAt(cfg, st, i + 1, h.calls[i]);
    }
    forall i | 0 <= i < |h.traps| ensures TrapFrameAt(cfg, st', i + 1, h.traps[i]) {
      TopsDescend(cfg, i + 1, |h.traps|);
      assert TrapFrameAt(cfg, st, i + 1, h.traps[i]);
    }
  }

  // ---------- Work ----------

  lemma WorkKeeps(cfg: Config, s: State, h: History, cpu: Cpu, contents: Segment)
    requires Linked(cfg) && Inv(cfg, s, h) && Next(cfg, s, Work(cpu, contents)).Some?
    ensures StepOk(cfg, s, h, Work(cpu, contents))
  {
    var s' := Next(cfg, s, Work(cpu, contents)).value;
    var d := |h.calls|;
    assert SlotIs(s.procs[d - 1], d - 1, d);
    assert OwnSegment(s) == SegmentOf(d - 1);
    if h.traps != [] {
      assert Kept(cfg, s', s, |h.traps|);
    }
    TrapsKept(cfg, s, s', h.traps, d);
  }

  // ---------- Syscall ----------

  lemma TrapFramesPushed(cfg: Config, s: State, h: History)
    requires Linked(cfg) && Fits(cfg) && Inv(cfg, s, h) && s.mode == User && s.cpu.ds == OwnSegment(s) && s.cpu.ds in s.mem
    ensures Trap(cfg, s).mode == Serving
    ensures FramesAt(cfg, Trap(cfg, s).kstack, |h.calls|, h.(traps := h.traps + [s]))
    ensures forall w: nat :: FarTop(cfg, |h.calls|) <= w < 0x8000 ==> Trap(cfg, s).kstack[w] == s.kstack[w]
  {
    var d := |h.calls|;
    LevelFits(cfg, d);
    var top := FarTop(cfg, d);
    assert s.spbak / 2 == top && s.suserp / 2 == d - 1;
    var s' := Trap(cfg, s);
    if d > 1 { LevelFits(cfg, d - 1); TopsDescend(cfg, d - 1, d); }
    FramesKept(cfg, s.kstack, s'.kstack, d, h, top);
    assert TrapFrameAt(cfg, s'.kstack, d, s);
    var h' := h.(traps := h.traps + [s]);
    forall i | 0 <= i < |h'.traps| ensures TrapFrameAt(cfg, s'.kstack, i + 1, h'.traps[i]) {
      if i < d - 1 { assert h'.traps[i] == h.traps[i]; }
    }
  }

  lemma TrapsExtended(cfg: Config, s: State, s': State, traps: seq<State>, d: nat)
    requires Linked(cfg) && |traps| + 1 == d <= 8 && TrapsAt(cfg, s, traps, d)
    requires CallerAt(cfg, s, d) && Kept(cfg, s', s, d)
    ensures TrapsAt(cfg, s', traps + [s], d)
  {
    if d > 1 { KeptShallower(cfg, s', s, d - 1, d); }
    TrapsKept(cfg, s, s', traps, d);
    forall i | 0 <= i < d ensures CallerAt(cfg, (traps + [s])[i], i + 1) && Kept(cfg, s', (traps + [s])[i], i + 1) {
      if i < d - 1 { assert (traps + [s])[i] == traps[i]; }
    }
  }

  lemma SavedExtended(s: State, s': State, traps: seq<State>)
    requires SavedAt(s, traps) && |traps| < 8
    requires s'.suserp == s.suserp + 2
    requires s'.ssuser == s.ssuser[|traps| + 1 := s.cpu.ss] && s'.spuser == s.spuser[|traps| + 1 := s.cpu.sp]
    ensures SavedAt(s', traps + [s])
  {
  }

  lemma SyscallKeeps(cfg: Config, s: State, h: History)
    requires Linked(cfg) && Fits(cfg) && Inv(cfg, s, h) && Next(cfg, s, Syscall).Some?
    ensures StepOk(cfg, s, h, Syscall)
  {
    var s' := Trap(cfg, s);
    var d := |h.calls|;
    LevelFits(cfg, d);
    TrapFramesPushed(cfg, s, h);
    assert SlotIs(s.procs[d - 1], d - 1, d);
    assert CallerAt(cfg, s, d);
    TrapsExtended(cfg, s, s', h.traps, d);
    SavedExtended(s, s', h.traps);
  }

  // ---------- Serve ----------

  /** In dispatch the words of the call are where its prologue left them. */
  lemma ServingFrame(cfg: Config, s: State, h: History)
    requires Linked(cfg) && Fits(cfg) && Inv(cfg, s, h) && s.mode == Serving
    ensures 1 <= |h.calls| <= 8 && TrapTop(cfg, s) == FarTop(cfg, |h.calls|)
    ensures s.cpu.sp / 2 == RunTop(cfg, |h.calls| + 1) && 24 + cfg.run <= FarTop(cfg, |h.calls|) + 18 + cfg.run
    ensures 6 + cfg.dispatch <= FarTop(cfg, |h.calls|) <= 0x7FFF - 18
    ensures Service(cfg, s) == h.traps[|h.calls| - 1].cpu.dx && s.kstack[TrapTop(cfg, s) - 6] == |h.calls|
  {
    var d := |h.calls|;
    LevelFits(cfg, d);
    assert TrapFrameAt(cfg, s.kstack, d, h.traps[d - 1]);
  }

  /** Scribbling below dispatch's stack pointer disturbs nothing. */
  lemma ScribbleHarmless(cfg: Config, s: State, h: History, junk: Stack)
    requires Linked(cfg) && Fits(cfg) && Inv(cfg, s, h) && s.mode == Serving
    ensures FramesAt(cfg, Scribble(s.kstack, s.cpu.sp / 2, junk), |h.calls|, h)
  {
    ServingFrame(cfg, s, h);
    FramesKept(cfg, s.kstack, Scribble(s.kstack, s.cpu.sp / 2, junk), |h.calls|, h, s.cpu.sp / 2);
  }

  /** A write of at most eight bytes past the block reaches no caller's slot. */
  lemma OverwrittenKeeps(s: State, area: seq<Byte>)
    requires 576 <= |area| <= 584
    ensures var t := Overwritten(s, area);
            && t == s.(params := t.params, service := t.service, spbak := t.spbak, ssbak := t.ssbak, spuser := t.spuser)
            && forall i :: 1 <= i < 10 ==> t.spuser[i] == s.spuser[i]
  {
    assert Overwritten(s, area).ssuser == s.ssuser;
  }

  /** Any service but 7 with a confined request. */
  lemma ServeKeeps(cfg: Config, s: State, h: History, area: seq<Byte>, junk: Stack)
    requires Linked(cfg) && Fits(cfg) && Inv(cfg, s, h) && Next(cfg, s, Serve(area, junk)).Some? && Confined(cfg, s)
    ensures StepOk(cfg, s, h, Serve(area, junk))
  {
    ServingFrame(cfg, s, h);
    OverwrittenKeeps(Scribbled(s, junk), area);
    var s' := LeaveDispatch(cfg, Overwritten(Scribbled(s, junk), area), TrapTop(cfg, s));
    assert Next(cfg, s, Serve(area, junk)) == Some(s');
    ScribbleHarmless(cfg, s, h, junk);
    assert Kept(cfg, s', s, |h.calls|);
    TrapsKept(cfg, s, s', h.traps, |h.calls|);
    assert SavedAt(s', h.traps);
  }

  /** One byte further and the outermost caller's stack pointer is whatever was written. */
  lemma SlotOverwritten(s: State, n: nat, x: Byte)
    requires n > 584
    ensures Overwritten(s, Fill<Byte>(n, x)).spuser[1] % 0x100 == x
  {
    var area := Fill<Byte>(n, x);
    assert Overwritten(s, area).spuser[1] == WordIn(area, 584, s.spuser[1]);
  }

  /** A byte the low byte of `w` is not. */
  function Other(w: Word): Byte { (w % 0x100 + 1) % 0x100 }

  lemma UnconfinedBreaks(cfg: Config, s: State, h: History, area: seq<Byte>)
    requires Linked(cfg) && s.mode == Serving && Service(cfg, s) != 7 && !Confined(cfg, s) && 6 <= TrapTop(cfg, s) <= 0x8000
    requires |h.traps| >= 1 && area == Fill<Byte>(Reach(Service(cfg, s), s.params), Other(h.traps[0].cpu.sp))
    ensures Next(cfg, s, Serve(area, s.kstack)).Some?
    ensures var t := Next(cfg, s, Serve(area, s.kstack)).value; t.mode == Fault || !SavedAt(t, h.traps)
  {
    if Accepted(cfg, s) {
      SlotOverwritten(Scribbled(s, s.kstack), |area|, Other(h.traps[0].cpu.sp));
    }
  }

  lemma UnconfinedFails(cfg: Config, s: State, h: History) returns (area: seq<Byte>)
    requires Linked(cfg) && Fits(cfg) && Inv(cfg, s, h) && s.mode == Serving && Service(cfg, s) != 7 && !Confined(cfg, s)
    ensures Next(cfg, s, Serve(area, s.kstack)).Some? && !StepOk(cfg, s, h, Serve(area, s.kstack))
  {
    ServingFrame(cfg, s, h);
    area := Fill<Byte>(Reach(Service(cfg, s), s.params), Other(h.traps[0].cpu.sp));
    UnconfinedBreaks(cfg, s, h, area);
  }

  /** Serving a request that stays inside the tables keeps the invariant whatever is read into the
      kernel's data if and only if no more than 584 bytes are. */
  lemma ServeKeepsIff(cfg: Config, s: State, h: History)
    requires Linked(cfg) && Fits(cfg) && Inv(cfg, s, h) && s.mode == Serving && Service(cfg, s) != 7 && Accepted(cfg, s)
    ensures Reach(Service(cfg, s), s.params) <= 584 <==>
            forall area: seq<Byte>, junk: Stack :: Next(cfg, s, Serve(area, junk)).Some? ==> StepOk(cfg, s, h, Serve(area, junk))
  {
    if Confined(cfg, s) {
      forall area: seq<Byte>, junk: Stack | Next(cfg, s, Serve(area, junk)).Some? ensures StepOk(cfg, s, h, Serve(area, junk)) {
        ServeKeeps(cfg, s, h, area, junk);
      }
    } else {
      var area := UnconfinedFails(cfg, s, h);
      assert !StepOk(cfg, s, h, Serve(area, s.kstack));
    }
  }

  // ---------- Return ----------

  /** What SysReturn finds on the stack and in the save areas is the caller's. */
  lemma ReturningFrame(cfg: Config, s: State, h: History)
    requires Linked(cfg) && Fits(cfg) && Inv(cfg, s, h) && s.mode == Returning
    ensures 1 <= |h.calls| <= 8 && |h.traps| == |h.calls|
    ensures s.cpu.sp / 2 == FarTop(cfg, |h.calls|) - 2 && 6 <= FarTop(cfg, |h.calls|) <= 0x7FFF - 18
    ensures var t := h.traps[|h.calls| - 1];
            && s.kstack[s.cpu.sp / 2] == t.cpu.ds == SegmentOf(|h.calls| - 1) && s.kstack[s.cpu.sp / 2 + 1] == t.cpu.si
            && s.suserp == 2 * |h.calls| && s.ssuser[|h.calls|] == t.cpu.ss && s.spuser[|h.calls|] == t.cpu.sp
  {
    var d := |h.calls|;
    LevelFits(cfg, d);
    assert TrapFrameAt(cfg, s.kstack, d, h.traps[d - 1]);
    assert CallerAt(cfg, h.traps[d - 1], d);
  }

  lemma ReturnKeeps(cfg: Config, s: State, h: History)
    requires Linked(cfg) && Fits(cfg) && Inv(cfg, s, h) && s.mode == Returning
    ensures StepOk(cfg, s, h, Return)
  {
    var s' := SysReturn(cfg, s);
    var d := |h.calls|;
    ReturningFrame(cfg, s, h);
    var traps := h.traps[..d - 1];
    assert TrapsAt(cfg, s, traps, d);
    if d > 1 { assert Kept(cfg, s', s, d - 1); }
    TrapsKept(cfg, s, s', traps, d);
    assert SavedAt(s', traps);
  }

  // ---------- Exit ----------

  /** farcall pops exactly the registers, stack and segment it was entered with. */
  lemma ExitRestoresCall(cfg: Config, s: State, h: History)
    requires Linked(cfg) && Fits(cfg) && Inv(cfg, s, h) && s.mode == User
    ensures FarReturn(s).mode == Resumed && FarReturn(s).cpu == h.calls[|h.calls| - 1]
  {
    assert FarFrameAt(cfg, s.kstack, |h.calls|, h.calls[|h.calls| - 1]);
  }

  lemma ExitKeeps(cfg: Config, s: State, h: History)
    requires Linked(cfg) && Fits(cfg) && Inv(cfg, s, h) && s.mode == User
    ensures StepOk(cfg, s, h, Exit)
  {
    var s' := FarReturn(s);
    var d := |h.calls|;
    ExitRestoresCall(cfg, s, h);
    assert FarFrameAt(cfg, s.kstack, d, h.calls[d - 1]);
    if d > 1 { assert Kept(cfg, s', s, d - 1); }
    TrapsKept(cfg, s, s', h.traps, d);
  }

  // ---------- tables ----------

  lemma ProcsPushed(procs: ProcTable, d: nat, name: seq<Byte>, size: Dword)
    requires ProcsAt(procs, d) && d < 8
    ensures FirstSlot(procs, 0) == Some(d)
    ensures ProcsAt(SetRunning(procs[d := Registered(d, name, SegmentOf(d), 0, d, size)], d, d + 1), d + 1)
  {
    assert SlotIs(procs[d], d, d);
    forall j | 0 <= j < d ensures procs[j].pid != 0 { assert SlotIs(procs[j], j, d); }
    var procs' := SetRunning(procs[d := Registered(d, name, SegmentOf(d), 0, d, size)], d, d + 1);
    forall i | 0 <= i < 9 ensures SlotIs(procs'[i], i, d + 1) { assert SlotIs(procs[i], i, d); }
  }

  /** The dead process is marked free and its caller runs again. */
  lemma ProcsPopped(procs: ProcTable, d: nat)
    requires ProcsAt(procs, d) && 0 < d <= 8
    ensures d == 1 ==> ProcsAt(Unregistered(procs, 1), 0)
    ensures d > 1 ==> ProcsAt(SetRunning(Unregistered(procs, d), d, d - 1), d - 1)
  {
    var procs' := if d == 1 then Unregistered(procs, 1) else SetRunning(Unregistered(procs, d), d, d - 1);
    forall i | 0 <= i < 9 ensures SlotIs(procs'[i], i, d - 1) { assert SlotIs(procs[i], i, d); }
  }

  lemma TablesFull(segs: SegTable, procs: ProcTable, d: nat)
    requires TablesAt(segs, procs, d) && d == 8
    ensures FirstFree(segs, 0) == None
  {
    SegsArePushedAndPopped(segs, 10);
  }

  lemma ProcsRerun(procs: ProcTable, d: nat)
    requires ProcsAt(procs, d) && 0 < d <= 8
    ensures SetRunning(procs, d, d) == procs
  {
    assert SlotIs(procs[d - 1], d - 1, d);
  }

  // ---------- Finishing ----------

  /** Back from the far call, run_program's own words are where it left them. */
  lemma ResumedFrame(cfg: Config, s: State, h: History, junk: Stack)
    requires Linked(cfg) && Fits(cfg) && Inv(cfg, s, h) && s.mode == Resumed
    ensures var d := |h.calls| + 1; var k := Scribbled(s, junk).kstack; var top := s.cpu.sp / 2 + 7 + cfg.run;
            && 1 <= d <= 8 && top == RunTop(cfg, d) && 18 + cfg.run <= top <= 0x7FFF
            && k[top - 4] == d && k[top - 3] == SegmentOf(d - 1) && k[top - 2] == Tag(d)
  {
    var d := |h.calls| + 1;
    LevelFits(cfg, d);
    assert RunFrameAt(cfg, s.kstack, d);
  }

  /** And so are the frames of the system call that started the program. */
  lemma CallerFrame(cfg: Config, s: State, h: History, junk: Stack)
    requires Linked(cfg) && Fits(cfg) && Inv(cfg, s, h) && s.mode == Resumed && |h.calls| > 0
    ensures var d := |h.calls|; var k := Scribbled(s, junk).kstack;
            && d <= 7 && RunTop(cfg, d + 1) + cfg.dispatch + 6 == FarTop(cfg, d) && 6 <= FarTop(cfg, d) <= 0x7FFF - 18
            && k[FarTop(cfg, d) - 6] == d && FramesAt(cfg, k, d, h)
  {
    var d := |h.calls|;
    LevelFits(cfg, d);
    LevelFits(cfg, d + 1);
    assert TrapFrameAt(cfg, s.kstack, d, h.traps[d - 1]);
    FramesKept(cfg, s.kstack, Scribbled(s, junk).kstack, d, h, s.cpu.sp / 2);
  }

  lemma FinishToIdle(cfg: Config, s: State, h: History, junk: Stack)
    requires Linked(cfg) && Fits(cfg) && Inv(cfg, s, h) && s.mode == Resumed && |h.calls| == 0
    ensures Inv(cfg, Finish(cfg, Scribbled(s, junk)), h)
  {
    ResumedFrame(cfg, s, h, junk);
    SegsArePushedAndPopped(s.segs, 3);
    ProcsPopped(s.procs, 1);
  }

  /** The state run_program's caller goes on from. */
  function ResumedCaller(cfg: Config, s: State, d: nat, junk: Stack): State
    requires 0 < d <= 7 && s.running == d + 1 && 2 <= FarTop(cfg, d) <= 0x8000
  {
    s.(mode := Returning, kstack := Scribbled(s, junk).kstack, params := WithResult(s.params, 0),
       segs := Release(s.segs, SegmentOf(d)), procs := SetRunning(Unregistered(s.procs, d + 1), d + 1, d), running := d,
       cpu := s.cpu.(sp := 2 * (FarTop(cfg, d) - 2)))
  }

  lemma FinishEffect(cfg: Config, s: State, h: History, junk: Stack)
    requires Linked(cfg) && Fits(cfg) && Inv(cfg, s, h) && s.mode == Resumed && |h.calls| > 0
    ensures 0 < |h.calls| <= 7 && 2 <= FarTop(cfg, |h.calls|) <= 0x7FFF - 18
    ensures Finish(cfg, Scribbled(s, junk)) == ResumedCaller(cfg, s, |h.calls|, junk)
  {
    ResumedFrame(cfg, s, h, junk);
    CallerFrame(cfg, s, h, junk);
  }

  lemma ResumedCallerTraps(cfg: Config, s: State, h: History, junk: Stack)
    requires Linked(cfg) && Fits(cfg) && Inv(cfg, s, h) && s.mode == Resumed && 0 < |h.calls| <= 7
    requires 2 <= FarTop(cfg, |h.calls|) <= 0x7FFF - 18
    ensures TrapsAt(cfg, ResumedCaller(cfg, s, |h.calls|, junk), h.traps, |h.calls| + 1)
  {
    var d := |h.calls|;
    var s' := ResumedCaller(cfg, s, d, junk);
    LevelFits(cfg, d + 1);
    assert Kept(cfg, s', s, d);
    TrapsKept(cfg, s, s', h.traps, d + 1);
  }

  lemma ResumedCallerTables(cfg: Config, s: State, h: History, junk: Stack)
    requires Linked(cfg) && Fits(cfg) && Inv(cfg, s, h) && s.mode == Resumed && 0 < |h.calls| <= 7
    requires 2 <= FarTop(cfg, |h.calls|) <= 0x7FFF - 18
    ensures TablesAt(ResumedCaller(cfg, s, |h.calls|, junk).segs, ResumedCaller(cfg, s, |h.calls|, junk).procs, |h.calls|)
  {
    SegsArePushedAndPopped(s.segs, 3 + |h.calls|);
    ProcsPopped(s.procs, |h.calls| + 1);
  }

  lemma ResumedCallerMode(cfg: Config, s: State, h: History, junk: Stack)
    requires Linked(cfg) && Fits(cfg) && Inv(cfg, s, h) && s.mode == Resumed && 0 < |h.calls| <= 7
    requires 2 <= FarTop(cfg, |h.calls|) <= 0x7FFF - 18
    ensures ModeAt(cfg, ResumedCaller(cfg, s, |h.calls|, junk), h)
  {
    var d := |h.calls|;
    assert h.traps[d - 1].cpu.dx == 7 && RequestFound(cfg, h.traps[d - 1]);
    assert CallerAt(cfg, h.traps[d - 1], d);
    assert WithResult(s.params, 0)[..4] == [0, 0, 0, 0];
  }

  lemma FinishToCaller(cfg: Config, s: State, h: History, junk: Stack)
    requires Linked(cfg) && Fits(cfg) && Inv(cfg, s, h) && s.mode == Resumed && 0 < |h.calls| <= 7
    requires 2 <= FarTop(cfg, |h.calls|) <= 0x7FFF - 18
    ensures Inv(cfg, ResumedCaller(cfg, s, |h.calls|, junk), h)
  {
    var s' := ResumedCaller(cfg, s, |h.calls|, junk);
    assert FramesAt(cfg, s'.kstack, |h.calls|, h) by { CallerFrame(cfg, s, h, junk); }
    assert TablesAt(s'.segs, s'.procs, |h.calls|) by { ResumedCallerTables(cfg, s, h, junk); }
    assert TrapsAt(cfg, s', h.traps, |h.calls|) by { ResumedCallerTraps(cfg, s, h, junk); }
    assert ModeAt(cfg, s', h) by { ResumedCallerMode(cfg, s, h, junk); }
    assert SavedAt(s', h.traps);
  }

  lemma FinishKeeps(cfg: Config, s: State, h: History, junk: Stack)
    requires Linked(cfg) && Fits(cfg) && Inv(cfg, s, h) && s.mode == Resumed
    ensures Finish(cfg, Scribbled(s, junk)).mode != Fault && Inv(cfg, Finish(cfg, Scribbled(s, junk)), h)
  {
    if |h.calls| == 0 {
      FinishToIdle(cfg, s, h, junk);
    } else {
      FinishEffect(cfg, s, h, junk);
      FinishToCaller(cfg, s, h, junk);
    }
  }

  lemma FinishingKeeps(cfg: Config, s: State, h: History, junk: Stack)
    requires Linked(cfg) && Fits(cfg) && Inv(cfg, s, h) && s.mode == Resumed
    ensures StepOk(cfg, s, h, Finishing(junk))
  {
    FinishKeeps(cfg, s, h, junk);
    assert Next(cfg, s, Finishing(junk)) == Some(Finish(cfg, Scribbled(s, junk)));
  }

  // ---------- launching ----------

  lemma CallStackFrames(cfg: Config, st: Stack, d: nat, h: History, regs: Cpu)
    requires Fits(cfg) && d < 8 && |h.calls| == |h.traps| == d && FramesAt(cfg, st, d, h)
    requires regs.ss == KERNEL && regs.ds == KERNEL && regs.sp == 2 * (RunTop(cfg, d + 1) - 7 - cfg.run)
    ensures 18 + cfg.run <= RunTop(cfg, d + 1) <= 0x7FFF
    ensures var st' := CallStack(cfg, st, RunTop(cfg, d + 1), Tag(d + 1), SegmentOf(d), d + 1, regs);
            FramesAt(cfg, st', d + 1, h.(calls := h.calls + [regs]))
  {
    LevelFits(cfg, d + 1);
    var top := RunTop(cfg, d + 1);
    var st' := CallStack(cfg, st, top, Tag(d + 1), SegmentOf(d), d + 1, regs);
    if d > 0 { LevelFits(cfg, d); }
    FramesKept(cfg, st, st', d, h, top);
    NewFrames(cfg, st, d, regs);
    var calls := h.calls + [regs];
    forall i | 0 <= i < |calls| ensures FarFrameAt(cfg, st', i + 1, calls[i]) {
      if i < d { assert calls[i] == h.calls[i]; }
    }
  }

  /** The frames run_program and farcall push for the next level. */
  lemma NewFrames(cfg: Config, st: Stack, d: nat, regs: Cpu)
    requires Fits(cfg) && d < 8 && 18 + cfg.run <= RunTop(cfg, d + 1) <= 0x7FFF
    requires regs.ss == KERNEL && regs.ds == KERNEL && regs.sp == 2 * (RunTop(cfg, d + 1) - 7 - cfg.run)
    ensures var st' := CallStack(cfg, st, RunTop(cfg, d + 1), Tag(d + 1), SegmentOf(d), d + 1, regs);
            RunFrameAt(cfg, st', d + 1) && FarFrameAt(cfg, st', d + 1, regs)
  {
    var top := RunTop(cfg, d + 1);
    var frame := RunFrame(cfg, Tag(d + 1), SegmentOf(d), d + 1);
    var k := PushAll(st, top, frame);
    PushedWords(k, top - 5 - cfg.run, SegmentOf(d), regs);
    assert k[top - 2] == frame[1] && k[top - 3] == frame[2] && k[top - 4] == frame[3];
  }

  lemma PushedWords(k: Stack, top: nat, seg: Word, r: Cpu)
    requires 13 <= top <= 0x8000
    ensures var st := PushAll(k, top, [0, seg, 0] + FarFrame(r)); var far := top - 13;
            && st[far] == r.di && st[far + 1] == r.si && st[far + 2] == r.ds && st[far + 3] == r.es && st[far + 4] == r.dx
            && st[far + 5] == r.cx && st[far + 6] == r.bx && st[far + 7] == r.ax && st[far + 8] == r.flags && st[far + 9] == r.bp
            && forall w: nat :: top <= w < 0x8000 ==> st[w] == k[w]
  {
  }

  // ---------- Boot and Run ----------

  /** The state a launch starts from: in the kernel, `d` programs live and as many calls and
      system calls outstanding, the next frame to go below the level's top. */
  predicate ReadyToLaunch(cfg: Config, s: State, h: History, d: nat)
    requires Linked(cfg)
  {
    && d <= 8 && |h.calls| == |h.traps| == d && s.running == d
    && TablesAt(s.segs, s.procs, d) && SavedAt(s, h.traps) && UserMemory(s.mem)
    && FramesAt(cfg, s.kstack, d, h) && TrapsAt(cfg, s, h.traps, d)
  }

  /** A launch needs a free segment, so at most seven programs are live; it never runs out of
      process slots or stack. */
  lemma LaunchNeverBreaks(cfg: Config, s: State, h: History, d: nat)
    requires Linked(cfg) && Fits(cfg) && ReadyToLaunch(cfg, s, h, d) && FirstFree(s.segs, 0).Some?
    ensures d < 8 && 18 + cfg.run <= RunTop(cfg, d + 1) <= 0x7FFF
    ensures FirstFree(s.segs, 0) == Some(2 + d) && s.segs[2 + d].address == SegmentOf(d) && SegmentOf(d) in s.mem
    ensures FirstSlot(s.procs, 0) == Some(d) && Release(Take(s.segs, 2 + d), SegmentOf(d)) == s.segs
  {
    SegsArePushedAndPopped(s.segs, 2 + d);
    LevelFits(cfg, d + 1);
    ProcsPushed(s.procs, d, [], 0);
  }

  lemma LaunchTables(segs: SegTable, procs: ProcTable, d: nat, name: seq<Byte>, size: Dword)
    requires TablesAt(segs, procs, d) && d < 8
    ensures TablesAt(Take(segs, 2 + d), SetRunning(procs[d := Registered(d, name, SegmentOf(d), 0, d, size)], d, d + 1), d + 1)
  {
    SegsArePushedAndPopped(segs, 2 + d);
    ProcsPushed(procs, d, name, size);
  }

  lemma LaunchKeepsCallers(cfg: Config, s: State, t: State, d: nat, proc: Proc, image: Segment, regs: Cpu)
    requires Fits(cfg) && 1 <= d < 8 && ProcsAt(s.procs, d) && SegmentOf(d) in s.mem && UserMemory(s.mem)
    requires 18 + cfg.run <= RunTop(cfg, d + 1) <= 0x7FFF
    requires t.kstack == CallStack(cfg, s.kstack, RunTop(cfg, d + 1), Tag(d + 1), SegmentOf(d), d + 1, regs)
    requires t.procs == SetRunning(s.procs[d := proc], d, d + 1) && t.mem == s.mem[SegmentOf(d) := image]
    ensures Kept(cfg, t, s, d)
  {
    LevelFits(cfg, d);
    forall j: nat | j < d ensures SameProc(t.procs[j], s.procs[j]) { assert SlotIs(s.procs[j], j, d); }
  }

  /** The state a successful launch leads to. */
  function Launched(cfg: Config, s: State, d: nat, name: seq<Byte>, entry: seq<Byte>, image: Segment, regs: Cpu): State
    requires Linked(cfg) && d < 8 && s.running == d && 18 + cfg.run <= RunTop(cfg, d + 1) <= 0x7FFF && |entry| == 32
  {
    var top := RunTop(cfg, d + 1);
    s.(mode := User, segs := Take(s.segs, 2 + d),
       procs := SetRunning(s.procs[d := Registered(d, Upper(name), SegmentOf(d), 0, d, Le32(entry, 28))], d, d + 1), running := d + 1,
       kstack := CallStack(cfg, s.kstack, top, Tag(d + 1), SegmentOf(d), d + 1, regs),
       ssbak := KERNEL, spbak := 2 * (top - 18 - cfg.run),
       mem := s.mem[SegmentOf(d) := Overlay(image, 0xFFFA, cfg.farReturn)],
       cpu := regs.(ax := SegmentOf(d), bp := 2 * (top - 8 - cfg.run), ss := SegmentOf(d), sp := 0xFFFA))
  }

  /** What a launch comes to once the load result is known. */
  function Outcome(cfg: Config, s: State, d: nat, name: seq<Byte>, load: LoadResult, regs: Cpu): Launch
    requires Linked(cfg) && d < 8 && s.running == d && 18 + cfg.run <= RunTop(cfg, d + 1) <= 0x7FFF
    requires load.Found? ==> |load.entry| == 32 && |load.image| == 0x1_0000
  {
    match load
    case Undefined => NotEnabled
    case NotFound => Refused(s)
    case Found(entry, image) => Started(Launched(cfg, s, d, name, entry, image, regs))
  }

  lemma AfterLoadOutcome(cfg: Config, s: State, d: nat, name: seq<Byte>, load: LoadResult, regs: Cpu)
    requires Linked(cfg) && s.running == d && d < 8 && 18 + cfg.run <= RunTop(cfg, d + 1) <= 0x7FFF
    requires s.segs[2 + d].address == SegmentOf(d) && FirstSlot(s.procs, 0) == Some(d)
    requires Release(Take(s.segs, 2 + d), SegmentOf(d)) == s.segs
    requires load.Found? ==> |load.entry| == 32 && |load.image| == 0x1_0000
    ensures AfterLoad(cfg, s, name, 2 + d, load, RunTop(cfg, d + 1), Tag(d + 1), regs) == Outcome(cfg, s, d, name, load, regs)
  {
  }

  lemma LaunchOutcome(cfg: Config, s: State, h: History, d: nat, name: seq<Byte>, regs: Cpu)
    requires Linked(cfg) && Fits(cfg) && ReadyToLaunch(cfg, s, h, d) && FirstFree(s.segs, 0).Some?
    ensures d < 8 && 18 + cfg.run <= RunTop(cfg, d + 1) <= 0x7FFF && SegmentOf(d) in s.mem
    ensures RunProgram(cfg, s, name, RunTop(cfg, d + 1), Tag(d + 1), regs)
            == Outcome(cfg, s, d, name, LoadProgram(cfg.disk, cfg.stale, cfg.vol, name, s.mem[SegmentOf(d)]), regs)
  {
    LaunchNeverBreaks(cfg, s, h, d);
    AfterLoadOutcome(cfg, s, d, name, LoadProgram(cfg.disk, cfg.stale, cfg.vol, name, s.mem[SegmentOf(d)]), regs);
  }

  lemma LaunchedKeeps(cfg: Config, s: State, h: History, d: nat, name: seq<Byte>, entry: seq<Byte>, image: Segment, regs: Cpu)
    requires Linked(cfg) && Fits(cfg) && ReadyToLaunch(cfg, s, h, d) && d < 8 && |entry| == 32
    requires 18 + cfg.run <= RunTop(cfg, d + 1) <= 0x7FFF
    requires regs.ss == KERNEL && regs.ds == KERNEL && regs.sp == 2 * (RunTop(cfg, d + 1) - 7 - cfg.run)
    requires d > 0 ==> h.traps[d - 1].cpu.dx == 7 && RequestFound(cfg, h.traps[d - 1])
    ensures Inv(cfg, Launched(cfg, s, d, name, entry, image, regs), h.(calls := h.calls + [regs]))
  {
    var t := Launched(cfg, s, d, name, entry, image, regs);
    var h' := h.(calls := h.calls + [regs]);
    assert FramesAt(cfg, t.kstack, d + 1, h') by { CallStackFrames(cfg, s.kstack, d, h, regs); }
    assert TablesAt(t.segs, t.procs, d + 1) by { LaunchTables(s.segs, s.procs, d, Upper(name), Le32(entry, 28)); }
    assert TrapsAt(cfg, t, h'.traps, d + 1) by { LaunchedTraps(cfg, s, h, d, name, entry, image, regs); }
    assert SavedAt(t, h'.traps);
    assert UserMemory(t.mem);
  }

  lemma LaunchedTraps(cfg: Config, s: State, h: History, d: nat, name: seq<Byte>, entry: seq<Byte>, image: Segment, regs: Cpu)
    requires Linked(cfg) && Fits(cfg) && ReadyToLaunch(cfg, s, h, d) && d < 8 && |entry| == 32
    requires 18 + cfg.run <= RunTop(cfg, d + 1) <= 0x7FFF
    requires d > 0 ==> h.traps[d - 1].cpu.dx == 7 && RequestFound(cfg, h.traps[d - 1])
    ensures TrapsAt(cfg, Launched(cfg, s, d, name, entry, image, regs), h.traps, d + 1)
  {
    var t := Launched(cfg, s, d, name, entry, image, regs);
    if d > 0 {
      LaunchKeepsCallers(cfg, s, t, d, Registered(d, Upper(name), SegmentOf(d), 0, d, Le32(entry, 28)),
                         Overlay(image, 0xFFFA, cfg.farReturn), regs);
    }
    TrapsKept(cfg, s, t, h.traps, d);
    assert TrapsAt(cfg, t, h.traps, d + 1);
  }

  /** farcall saves neither the stack pointer nor the stack segment. */
  lemma SameFrame(cfg: Config, s: State, d: nat, name: seq<Byte>, entry: seq<Byte>, image: Segment, a: Cpu, sp: Word)
    requires Linked(cfg) && d < 8 && s.running == d && 18 + cfg.run <= RunTop(cfg, d + 1) <= 0x7FFF && |entry| == 32
    ensures Launched(cfg, s, d, name, entry, image, a) == Launched(cfg, s, d, name, entry, image, a.(sp := sp))
  {
    assert FarFrame(a) == FarFrame(a.(sp := sp));
  }

  predicate GoodLaunch(cfg: Config, s: State, h: History, d: nat, regs: Cpu, r: Launch)
    requires Linked(cfg) && d < 8 && |h.traps| == d && 18 + cfg.run <= RunTop(cfg, d + 1) <= 0x7FFF
    requires d > 0 ==> h.traps[d - 1].cpu.ds in h.traps[d - 1].mem
  {
    match r
    case NotEnabled => true
    case Broken => false
    case Refused(t) => t == s && (d > 0 ==> !RequestFound(cfg, h.traps[d - 1]))
    case Started(t) => t.mode == User && Inv(cfg, t, h.(calls := h.calls + [regs.(sp := 2 * (RunTop(cfg, d + 1) - 7 - cfg.run))]))
  }

  /** A launch from a ready state that has a free segment either is refused and changes nothing,
      or leads one level deeper, or never comes back from the loader. */
  lemma LaunchKeeps(cfg: Config, s: State, h: History, d: nat, name: seq<Byte>, regs: Cpu)
    requires Linked(cfg) && Fits(cfg) && ReadyToLaunch(cfg, s, h, d) && regs.ss == KERNEL && regs.ds == KERNEL
    requires FirstFree(s.segs, 0).Some?
    requires d > 0 ==> h.traps[d - 1].cpu.dx == 7 && h.traps[d - 1].cpu.ds in h.traps[d - 1].mem
                       && (RequestFound(cfg, h.traps[d - 1]) <==> FirstMatch(RootEntries(cfg.disk, cfg.vol), Upper(name), 0).Some?)
    ensures d < 8 && 18 + cfg.run <= RunTop(cfg, d + 1) <= 0x7FFF
    ensures GoodLaunch(cfg, s, h, d, regs, RunProgram(cfg, s, name, RunTop(cfg, d + 1), Tag(d + 1), regs))
  {
    LaunchOutcome(cfg, s, h, d, name, regs);
    var load := LoadProgram(cfg.disk, cfg.stale, cfg.vol, name, s.mem[SegmentOf(d)]);
    if load.Found? {
      var sp := 2 * (RunTop(cfg, d + 1) - 7 - cfg.run);
      LaunchedKeeps(cfg, s, h, d, name, load.entry, load.image, regs.(sp := sp));
      SameFrame(cfg, s, d, name, load.entry, load.image, regs, sp);
    }
  }

  // ---------- Boot ----------

  lemma BootIsReady(cfg: Config, s: State, h: History, junk: Stack)
    requires Linked(cfg) && Fits(cfg) && Inv(cfg, s, h) && s.mode == Idle
    ensures ReadyToLaunch(cfg, Booting(s, junk), h, 0) && Inv(cfg, Booting(s, junk), h)
    ensures h == History([], []) && s.cpu.sp == 2 * RunTop(cfg, 1)
  {
    assert TablesAt(s.segs, Emptied(s.procs), 0);
  }

  lemma AfterBootKeeps(cfg: Config, s: State, h: History, regs: Cpu, junk: Stack, r: Launch)
    requires Linked(cfg) && Fits(cfg) && Inv(cfg, s, h) && s.mode == Idle && 18 + cfg.run <= RunTop(cfg, 1) <= 0x7FFF
    requires |h.traps| == 0 && GoodLaunch(cfg, Booting(s, junk), h, |h.traps|, regs, r) && AfterBoot(s, r).Some?
    ensures var s' := AfterBoot(s, r).value;
            s'.mode != Fault && Inv(cfg, s', HistoryNext(cfg, s, h, Boot(regs, junk), s'))
  {
    BootIsReady(cfg, s, h, junk);
    if r.Started? {
      assert CallRegs(cfg, s, regs) == regs.(sp := 2 * (RunTop(cfg, 1) - 7 - cfg.run));
    }
  }

  lemma BootLaunch(cfg: Config, s: State, h: History, regs: Cpu, junk: Stack)
    requires Linked(cfg) && Fits(cfg) && Inv(cfg, s, h) && s.mode == Idle && regs.ds == KERNEL && regs.ss == KERNEL
    ensures h.traps == [] && 18 + cfg.run <= RunTop(cfg, 1) <= 0x7FFF && s.cpu.sp / 2 == RunTop(cfg, 1)
    ensures GoodLaunch(cfg, Booting(s, junk), h, |h.traps|, regs,
                       RunProgram(cfg, Booting(s, junk), INIT, s.cpu.sp / 2, FROM_STARTK, regs))
  {
    var d := |h.traps|;
    BootIsReady(cfg, s, h, junk);
    SegsArePushedAndPopped(s.segs, 2 + d);
    LaunchKeeps(cfg, Booting(s, junk), h, d, INIT, regs);
  }

  lemma BootKeeps(cfg: Config, s: State, h: History, regs: Cpu, junk: Stack)
    requires Linked(cfg) && Fits(cfg) && Inv(cfg, s, h) && Next(cfg, s, Boot(regs, junk)).Some?
    ensures StepOk(cfg, s, h, Boot(regs, junk))
  {
    BootLaunch(cfg, s, h, regs, junk);
    var r := RunProgram(cfg, Booting(s, junk), INIT, s.cpu.sp / 2, FROM_STARTK, regs);
    assert Next(cfg, s, Boot(regs, junk)) == AfterBoot(s, r);
    AfterBootKeeps(cfg, s, h, regs, junk, r);
  }

  // ---------- service 7 ----------

  lemma ServingIsReady(cfg: Config, s: State, h: History, junk: Stack)
    requires Linked(cfg) && Fits(cfg) && Inv(cfg, s, h) && s.mode == Serving && Terminated(FromBlock(s))
    ensures ReadyToLaunch(cfg, ServingLaunch(s, junk), h, |h.calls|)
  {
    ServingFrame(cfg, s, h);
    ScribbleHarmless(cfg, s, h, junk);
    var p := ServingLaunch(s, junk);
    OverwrittenKeeps(Scribbled(s, junk), UpperString(FromBlock(s)));
    assert Kept(cfg, p, s, |h.calls|);
    TrapsKept(cfg, s, p, h.traps, |h.calls|);
    assert SavedAt(p, h.traps);
  }

  /** While a request is served the string in the block ends at the latest behind it. */
  lemma RequestEnds(cfg: Config, s: State, h: History)
    requires Linked(cfg) && Inv(cfg, s, h) && s.mode == Serving
    ensures Terminated(FromBlock(s))
  {
    assert FromBlock(s)[580] == 0;
  }

  /** It is the one in the block, or longer than any name. */
  lemma StringFromBlock(s: State)
    requires Terminated(FromBlock(s))
    ensures Terminated(s.params) ==> CStr(FromBlock(s)) == CStr(s.params)
    ensures !Terminated(s.params) ==> |CStr(FromBlock(s))| >= 576
  {
    var m := FromBlock(s);
    if Terminated(s.params) {
      var n := |CStr(s.params)|;
      assert m[n] == m[..576][n];
      assert m[..n] == m[..576][..n];
      CStrIs(m, n);
    } else {
      assert forall i :: 0 <= i < 576 ==> m[i] == s.params[i];
    }
  }

  /** Service 7 finds what its caller's block asks for. */
  lemma RequestIs(cfg: Config, s: State, h: History)
    requires Linked(cfg) && Inv(cfg, s, h) && s.mode == Serving && Terminated(FromBlock(s))
    ensures h.traps != [] && h.traps[|h.traps| - 1].cpu.ds in h.traps[|h.traps| - 1].mem
    ensures RequestFound(cfg, h.traps[|h.traps| - 1])
            <==> FirstMatch(RootEntries(cfg.disk, cfg.vol), Upper(CStr(FromBlock(s))), 0).Some?
  {
    assert s.params == RequestBlock(h.traps[|h.traps| - 1]);
    StringFromBlock(s);
    FoundNameIsShort(RootEntries(cfg.disk, cfg.vol), Upper(CStr(FromBlock(s))));
  }

  /** A ready state whose request was not found, on the way back with result 1. */
  function RefusedReturn(cfg: Config, p: State, d: nat): State
    requires 1 <= d <= 8 && 2 <= FarTop(cfg, d) <= 0x7FFF
  {
    p.(mode := Returning, params := WithResult(p.params, 1), cpu := p.cpu.(sp := 2 * (FarTop(cfg, d) - 2)))
  }

  lemma RefusedEffect(cfg: Config, s: State, h: History, junk: Stack)
    requires Linked(cfg) && Fits(cfg) && Inv(cfg, s, h) && s.mode == Serving && Terminated(FromBlock(s))
    ensures 1 <= |h.calls| <= 8 && 2 <= FarTop(cfg, |h.calls|) <= 0x7FFF && TrapTop(cfg, s) == FarTop(cfg, |h.calls|)
    ensures EndService7(cfg, ServingLaunch(s, junk), TrapTop(cfg, s), 1) == RefusedReturn(cfg, ServingLaunch(s, junk), |h.calls|)
  {
    ServingFrame(cfg, s, h);
    ProcsRerun(s.procs, |h.calls|);
  }

  /** A request that was not found: result 1, everything else as before the call. */
  lemma RefusedKeeps(cfg: Config, p: State, h: History, d: nat)
    requires Linked(cfg) && Fits(cfg) && ReadyToLaunch(cfg, p, h, d) && 1 <= d && 2 <= FarTop(cfg, d) <= 0x7FFF
    requires p.cpu.ss == KERNEL && p.cpu.ds == KERNEL
    requires h.traps[d - 1].cpu.ds in h.traps[d - 1].mem && !RequestFound(cfg, h.traps[d - 1])
    ensures Inv(cfg, RefusedReturn(cfg, p, d), h)
  {
    var s' := RefusedReturn(cfg, p, d);
    assert s'.params[..4] == [1, 0, 0, 0];
    assert ModeAt(cfg, s', h);
    assert Kept(cfg, s', p, d);
    TrapsKept(cfg, p, s', h.traps, d);
    assert SavedAt(s', h.traps);
  }

  lemma RefusedRunKeeps(cfg: Config, s: State, h: History, junk: Stack)
    requires Linked(cfg) && Fits(cfg) && Inv(cfg, s, h) && s.mode == Serving && Terminated(FromBlock(s))
    requires h.traps != [] && h.traps[|h.traps| - 1].cpu.ds in h.traps[|h.traps| - 1].mem
    requires !RequestFound(cfg, h.traps[|h.traps| - 1]) && TrapTop(cfg, s) <= 0x8000
    ensures EndService7(cfg, ServingLaunch(s, junk), TrapTop(cfg, s), 1).mode == Returning
    ensures Inv(cfg, EndService7(cfg, ServingLaunch(s, junk), TrapTop(cfg, s), 1), h)
  {
    ServingIsReady(cfg, s, h, junk);
    RefusedEffect(cfg, s, h, junk);
    RefusedKeeps(cfg, ServingLaunch(s, junk), h, |h.calls|);
  }

  lemma StartedRunKeeps(cfg: Config, s: State, h: History, regs: Cpu, p: State, t: State)
    requires Linked(cfg) && Fits(cfg) && 0 < |h.calls| == |h.traps| < 8 && h.traps[|h.traps| - 1].cpu.ds in h.traps[|h.traps| - 1].mem
    requires 18 + cfg.run <= RunTop(cfg, |h.calls| + 1) <= 0x7FFF && s.cpu.sp / 2 == RunTop(cfg, |h.calls| + 1)
    requires GoodLaunch(cfg, p, h, |h.calls|, regs, Started(t))
    ensures t.mode == User && Inv(cfg, t, h.(calls := h.calls + [CallRegs(cfg, s, regs)]))
  {
    assert CallRegs(cfg, s, regs) == regs.(sp := 2 * (RunTop(cfg, |h.calls| + 1) - 7 - cfg.run));
  }

  lemma AfterRunKeeps(cfg: Config, s: State, h: History, regs: Cpu, junk: Stack, r: Launch)
    requires Linked(cfg) && Fits(cfg) && Inv(cfg, s, h) && s.mode == Serving && Terminated(FromBlock(s))
    requires 0 < |h.calls| == |h.traps| < 8 && 18 + cfg.run <= RunTop(cfg, |h.calls| + 1) <= 0x7FFF && TrapTop(cfg, s) <= 0x8000
    requires s.cpu.sp / 2 == RunTop(cfg, |h.calls| + 1) && h.traps[|h.traps| - 1].cpu.ds in h.traps[|h.traps| - 1].mem
    requires GoodLaunch(cfg, ServingLaunch(s, junk), h, |h.calls|, regs, r) && AfterRun(cfg, s, TrapTop(cfg, s), r).Some?
    ensures var s' := AfterRun(cfg, s, TrapTop(cfg, s), r).value;
            s'.mode in [User, Returning] && Inv(cfg, s', if s'.mode == User then h.(calls := h.calls + [CallRegs(cfg, s, regs)]) else h)
  {
    match r
    case Refused(t) => RefusedRunKeeps(cfg, s, h, junk);
    case Started(t) => StartedRunKeeps(cfg, s, h, regs, ServingLaunch(s, junk), t);
    case _ =>
  }

  lemma RunKeeps(cfg: Config, s: State, h: History, regs: Cpu, junk: Stack)
    requires Linked(cfg) && Fits(cfg) && Inv(cfg, s, h) && Next(cfg, s, Run(regs, junk)).Some?
    ensures StepOk(cfg, s, h, Run(regs, junk))
  {
    var d := |h.calls|;
    ServingFrame(cfg, s, h);
    RequestEnds(cfg, s, h);
    ServingIsReady(cfg, s, h, junk);
    RequestIs(cfg, s, h);
    var r := RunProgram(cfg, ServingLaunch(s, junk), CStr(FromBlock(s)), s.cpu.sp / 2, FROM_DISPATCH, regs);
    assert FirstFree(s.segs, 0).Some?;
    LaunchKeeps(cfg, ServingLaunch(s, junk), h, d, CStr(FromBlock(s)), regs);
    AfterRunKeeps(cfg, s, h, regs, junk, r);
  }

  // ---------- every step ----------

  /** Whatever the machine does, the invariant holds after it and control is not lost, as long as
      the request it serves is confined. */
  lemma StepKeeps(cfg: Config, s: State, h: History, l: Label)
    requires Linked(cfg) && Fits(cfg) && Inv(cfg, s, h) && Next(cfg, s, l).Some?
    requires l.Serve? ==> Confined(cfg, s)
    ensures StepOk(cfg, s, h, l)
  {
    match l
    case Boot(regs, junk) => BootKeeps(cfg, s, h, regs, junk);
    case Work(cpu, contents) => WorkKeeps(cfg, s, h, cpu, contents);
    case Syscall => SyscallKeeps(cfg, s, h);
    case Serve(area, junk) => ServeKeeps(cfg, s, h, area, junk);
    case Run(regs, junk) => RunKeeps(cfg, s, h, regs, junk);
    case Exit => ExitKeeps(cfg, s, h);
    case Finishing(junk) => FinishingKeeps(cfg, s, h, junk);
    case Return => ReturnKeeps(cfg, s, h);
  }
}
