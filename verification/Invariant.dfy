/**
 What holds of the machine in every reachable state: the stacks, tables and snapshots of all
 nesting levels at once, although the kernel keeps a single set of globals.
 */
module Invariant {
  import opened Bytes
  import opened CString
  import opened Floppy
  import opened Fat12
  import opened Chains
  import opened Directory
  import opened FatFs
  import opened Segments
  import opened Processes
  import opened Machine

  // ---------- where each nesting level's words lie ----------

  /** Word index run_program's frame for the k-th nested program starts below. */
  function RunTop(cfg: Config, k: nat): int
    requires k >= 1
  {
    if k == 1 then 0x7FFF - cfg.startk else RunTop(cfg, k - 1) - (24 + cfg.dispatch + cfg.run)
  }

  /** Word index farcall saves for the k-th nested program. */
  function FarTop(cfg: Config, k: nat): int
    requires k >= 1
  {
    RunTop(cfg, k) - 18 - cfg.run
  }

  /** The kernel stack holds eight nested programs with the innermost in a system call. */
  predicate Fits(cfg: Config) {
    RunTop(cfg, 9) >= 0
  }

  lemma FitsIff(cfg: Config)
    ensures Fits(cfg) <==> cfg.startk + 8 * (24 + cfg.dispatch + cfg.run) <= 0x7FFF
  {
    var l := 24 + cfg.dispatch + cfg.run;
    assert RunTop(cfg, 3) == RunTop(cfg, 1) - 2 * l;
    assert RunTop(cfg, 5) == RunTop(cfg, 3) - 2 * l;
    assert RunTop(cfg, 7) == RunTop(cfg, 5) - 2 * l;
    assert RunTop(cfg, 9) == RunTop(cfg, 7) - 2 * l;
  }

  lemma {:induction false} TopsDescend(cfg: Config, k: nat, m: nat)
    requires 1 <= k <= m
    ensures RunTop(cfg, m) <= RunTop(cfg, k) <= 0x7FFF
    ensures k < m ==> RunTop(cfg, m) <= FarTop(cfg, k) - 6 - cfg.dispatch
    decreases m
  {
    if m > 1 {
      if k < m { TopsDescend(cfg, k, m - 1); } else { TopsDescend(cfg, k - 1, m - 1); }
    }
  }

  /** Every level up to the eighth has room for its frames. */
  lemma LevelFits(cfg: Config, k: nat)
    requires Fits(cfg) && 1 <= k <= 8
    ensures 24 + cfg.run + cfg.dispatch <= RunTop(cfg, k) <= 0x7FFF
    ensures 6 + cfg.dispatch <= FarTop(cfg, k)
    ensures RunTop(cfg, k + 1) == FarTop(cfg, k) - 6 - cfg.dispatch
  {
    TopsDescend(cfg, k, 9);
  }

  // ---------- history ----------

  /** The registers of every outstanding far call as it was made, and the whole machine as it
      was at every outstanding int 80h, outermost first. */
  datatype History = History(calls: seq<Cpu>, traps: seq<State>)

  /** How many programs are live. */
  function Depth(s: State, h: History): nat {
    if s.mode == Resumed then |h.calls| + 1 else |h.calls|
  }

  // ---------- components ----------

  /** Segment of the (j+1)-th nested program. */
  function SegmentOf(j: nat): int { 0x1000 * (j + 2) }

  predicate SlotIs(p: Proc, i: nat, d: nat) {
    if i < d then
      p.pid == i + 1 && p.ppid == i && p.cs == p.ds == p.ss == SegmentOf(i)
      && p.state == if i + 1 == d then RUNNING else READY
    else p.pid == 0
  }

  /** Pids 1..d are in use, each the parent of the next; the last one runs. */
  predicate ProcsAt(procs: ProcTable, d: nat) {
    forall i :: 0 <= i < 9 ==> SlotIs(procs[i], i, d)
  }

  /** Segments 2..d+1 and pids 1..d are in use, nested in order. */
  predicate TablesAt(segs: SegTable, procs: ProcTable, d: nat) {
    d <= 8 && StackOfSegs(segs, 2 + d) && ProcsAt(procs, d)
  }

  predicate SavedAt(s: State, traps: seq<State>) {
    && |traps| <= 8 && s.suserp == 2 * |traps|
    && forall k :: 0 <= k < |traps| ==> s.ssuser[k + 1] == traps[k].cpu.ss && s.spuser[k + 1] == traps[k].cpu.sp
  }

  predicate UserMemory(mem: map<Word, Segment>) {
    forall j: nat :: j < 8 ==> SegmentOf(j) in mem
  }

  function Tag(k: nat): Word { if k == 1 then FROM_STARTK else FROM_DISPATCH }

  /** run_program's locals for the k-th nested program. */
  predicate RunFrameAt(cfg: Config, st: Stack, k: nat)
    requires 1 <= k <= 8
  {
    var top := RunTop(cfg, k);
    18 + cfg.run <= top <= 0x7FFF && st[top - 2] == Tag(k) && st[top - 3] == 0x1000 * (k + 1) && st[top - 4] == k
  }

  /** The registers farcall saved for the k-th nested program. */
  predicate FarFrameAt(cfg: Config, st: Stack, k: nat, regs: Cpu)
    requires 1 <= k <= 8
  {
    var top := FarTop(cfg, k);
    && 0 <= top <= 0x7FFF - 18 && regs.ss == KERNEL && regs.ds == KERNEL && regs.sp == 2 * (top + 11)
    && st[top] == regs.di && st[top + 1] == regs.si && st[top + 2] == regs.ds && st[top + 3] == regs.es && st[top + 4] == regs.dx
    && st[top + 5] == regs.cx && st[top + 6] == regs.bx && st[top + 7] == regs.ax && st[top + 8] == regs.flags && st[top + 9] == regs.bp
  }

  /** The frame of the k-th outstanding system call, made in state `t`. */
  predicate TrapFrameAt(cfg: Config, st: Stack, k: nat, t: State)
    requires 1 <= k <= 8
  {
    var top := FarTop(cfg, k);
    6 + cfg.dispatch <= top <= 0x7FFF - 18 && st[top - 1] == t.cpu.si && st[top - 2] == t.cpu.ds && st[top - 4] == t.cpu.dx && st[top - 6] == k
  }

  predicate FramesAt(cfg: Config, st: Stack, d: nat, h: History)
    requires d <= 8 && |h.calls| <= 8 && |h.traps| <= 8
  {
    && (forall k :: 1 <= k <= d ==> RunFrameAt(cfg, st, k))
    && (forall i :: 0 <= i < |h.calls| ==> FarFrameAt(cfg, st, i + 1, h.calls[i]))
    && (forall i :: 0 <= i < |h.traps| ==> TrapFrameAt(cfg, st, i + 1, h.traps[i]))
  }

  /** Ready or running, it is the same process. */
  predicate SameProc(p: Proc, q: Proc) {
    p.(state := READY) == q.(state := READY)
  }

  /** State `s` has kept everything the k-th caller left behind at `t`: its own and its
      ancestors' segments and processes, and the kernel stack above it. */
  predicate Kept(cfg: Config, s: State, t: State, k: nat)
    requires 1 <= k <= 8
  {
    && (forall j: nat :: j < k ==> SegmentOf(j) in s.mem && SegmentOf(j) in t.mem && s.mem[SegmentOf(j)] == t.mem[SegmentOf(j)])
    && (forall j: nat :: j < k ==> SameProc(s.procs[j], t.procs[j]))
    && (forall w: nat :: FarTop(cfg, k) <= w < 0x8000 ==> s.kstack[w] == t.kstack[w])
  }

  /** What was true when the k-th outstanding system call was made. */
  predicate CallerAt(cfg: Config, t: State, k: nat)
    requires 1 <= k <= 8
  {
    && t.mode == User && t.running == k && t.cpu.ds == SegmentOf(k - 1) && t.cpu.ds in t.mem
    && TablesAt(t.segs, t.procs, k)
    && t.suserp == 2 * (k - 1) && t.ssbak == KERNEL && t.spbak == 2 * FarTop(cfg, k)
  }

  /** The block a caller handed over. */
  function RequestBlock(t: State): Block
    requires t.cpu.ds in t.mem
  {
    BlockAt(t.mem[t.cpu.ds], t.cpu.si)
  }

  /** Does service 7 find the program it was asked for in state `t`? */
  predicate RequestFound(cfg: Config, t: State)
    requires Linked(cfg) && t.cpu.ds in t.mem
  {
    Terminated(RequestBlock(t))
    && FirstMatch(RootEntries(cfg.disk, cfg.vol), Upper(CStr(RequestBlock(t))), 0).Some?
  }

  function ResultCode(cfg: Config, t: State): Byte
    requires Linked(cfg) && t.cpu.ds in t.mem
  {
    if RequestFound(cfg, t) then 0 else 1
  }

  predicate TrapsAt(cfg: Config, s: State, traps: seq<State>, launched: nat)
    requires Linked(cfg) && |traps| <= 8
  {
    && (forall i :: 0 <= i < |traps| ==> CallerAt(cfg, traps[i], i + 1))
    && (forall i :: 0 <= i < |traps| ==> Kept(cfg, s, traps[i], i + 1))
    && (forall i :: 0 <= i < |traps| && i + 1 < launched ==> traps[i].cpu.dx == 7 && RequestFound(cfg, traps[i]))
  }

  /** The globals and registers each mode comes with, `d` programs being live. */
  predicate ModeAt(cfg: Config, s: State, h: History)
    requires Linked(cfg) && |h.calls| <= 8 && |h.traps| <= 8
  {
    match s.mode
    case Idle =>
      h == History([], []) && s.running <= 9 && s.cpu.ss == KERNEL && s.cpu.ds == KERNEL && s.cpu.sp == 2 * RunTop(cfg, 1)
    case User =>
      |h.calls| >= 1 && |h.traps| == |h.calls| - 1 && s.running == |h.calls|
      && s.ssbak == KERNEL && s.spbak == 2 * FarTop(cfg, |h.calls|)
    case Serving =>
      |h.calls| >= 1 && |h.traps| == |h.calls| && s.running == |h.calls| && s.ssbak == KERNEL
      && s.cpu.ss == KERNEL && s.cpu.ds == KERNEL && s.cpu.es == KERNEL && s.cpu.sp == 2 * (FarTop(cfg, |h.calls|) - 6 - cfg.dispatch)
      && h.traps[|h.traps| - 1].cpu.ds in h.traps[|h.traps| - 1].mem && s.params == RequestBlock(h.traps[|h.traps| - 1])
    case Returning =>
      |h.calls| >= 1 && |h.traps| == |h.calls| && s.running == |h.calls|
      && s.cpu.ss == KERNEL && s.cpu.ds == KERNEL && s.cpu.sp == 2 * (FarTop(cfg, |h.calls|) - 2)
      && h.traps[|h.traps| - 1].cpu.ds in h.traps[|h.traps| - 1].mem
      && (h.traps[|h.traps| - 1].cpu.dx == 7 ==>
            s.params[..4] == [ResultCode(cfg, h.traps[|h.traps| - 1]), 0, 0, 0])
    case Resumed =>
      |h.calls| <= 7 && |h.traps| == |h.calls| && s.running == |h.calls| + 1
      && s.cpu.ss == KERNEL && s.cpu.ds == KERNEL && s.cpu.sp == 2 * (FarTop(cfg, |h.calls| + 1) + 11)
    case Fault => false
  }

  predicate Inv(cfg: Config, s: State, h: History)
    requires Linked(cfg)
  {
    && |h.calls| <= 8 && |h.traps| <= 8 && Depth(s, h) <= 8
    && ModeAt(cfg, s, h)
    && TablesAt(s.segs, s.procs, Depth(s, h))
    && SavedAt(s, h.traps)
    && UserMemory(s.mem)
    && FramesAt(cfg, s.kstack, Depth(s, h), h)
    && TrapsAt(cfg, s, h.traps, Depth(s, h))
  }

  // ---------- history of a step ----------

  /** The registers as farcall was entered. */
  function CallRegs(cfg: Config, s: State, regs: Cpu): Cpu {
    var sp := s.cpu.sp / 2 - 7 - cfg.run;
    regs.(sp := if sp >= 0 then 2 * sp else 0)
  }

  function HistoryNext(cfg: Config, s: State, h: History, l: Label, s': State): History {
    match l
    case Boot(regs, _) => if s'.mode == User then h.(calls := h.calls + [CallRegs(cfg, s, regs)]) else h
    case Run(regs, _) => if s'.mode == User then h.(calls := h.calls + [CallRegs(cfg, s, regs)]) else h
    case Syscall => h.(traps := h.traps + [s])
    case Exit => if h.calls == [] then h else h.(calls := h.calls[..|h.calls| - 1])
    case Return => if h.traps == [] then h else h.(traps := h.traps[..|h.traps| - 1])
    case _ => h
  }

  /** The step labelled `l`, if enabled, leads to a state in which the invariant holds again. */
  predicate StepOk(cfg: Config, s: State, h: History, l: Label)
    requires Linked(cfg)
  {
    var s' := Next(cfg, s, l);
    s'.Some? ==> s'.value.mode != Fault && Inv(cfg, s'.value, HistoryNext(cfg, s, h, l, s'.value))
  }
}
