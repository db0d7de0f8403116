/**
 The process table and the running process.
 */
module Processes {
  import opened Bytes
  import opened CString

  datatype ProcState = READY | WAIT | RUNNING | SLEEP

  /** Slot `pid - 1`; pid 0 marks a free slot. */
  datatype Proc = Proc(pid: nat, name: seq<Byte>, ss: Word, ds: Word, cs: Word, ip: Word, ppid: nat, size: Dword, state: ProcState)

  const FREE: Proc := Proc(0, [], 0, 0, 0, 0, 0, 0, READY)

  type ProcTable = t: seq<Proc> | |t| == 9 witness [FREE, FREE, FREE, FREE, FREE, FREE, FREE, FREE, FREE]

  /** init_processes frees every slot and leaves the rest of it as it was. */
  function Emptied(t: ProcTable): (r: ProcTable)
    ensures forall i :: 0 <= i < 9 ==> r[i] == t[i].(pid := 0)
  {
    seq(9, i requires 0 <= i < 9 => t[i].(pid := 0))
  }

  /** The first free slot from `i` on. */
  function FirstSlot(t: ProcTable, i: nat): (r: Option<nat>)
    requires i <= 9
    ensures r.None? <==> forall j :: i <= j < 9 ==> t[j].pid != 0
    ensures r.Some? ==> i <= r.value < 9 && t[r.value].pid == 0 && forall j :: i <= j < r.value ==> t[j].pid != 0
    decreases 9 - i
  {
    if i == 9 then None else if t[i].pid == 0 then Some(i) else FirstSlot(t, i + 1)
  }

  function Registered(i: nat, name: seq<Byte>, seg: Word, entry: Word, ppid: nat, size: Dword): Proc {
    Proc(i + 1, name, seg, seg, seg, entry, ppid, size, READY)
  }

  function WithState(t: ProcTable, pid: nat, state: ProcState): ProcTable
    requires 1 <= pid <= 9
  {
    t[pid - 1 := t[pid - 1].(state := state)]
  }

  /** set_running_proc: the process running before, if any, becomes ready. */
  function SetRunning(t: ProcTable, running: nat, pid: nat): ProcTable
    requires running <= 9 && 1 <= pid <= 9
  {
    WithState(if running != 0 then WithState(t, running, READY) else t, pid, RUNNING)
  }

  function Unregistered(t: ProcTable, pid: nat): ProcTable
    requires 1 <= pid <= 9
  {
    t[pid - 1 := t[pid - 1].(pid := 0)]
  }

  class ProcessTable {
    const processes: array<Proc>
    var running: nat

    predicate Valid() reads this { processes.Length == 9 && running <= 9 }

    function Abs(): ProcTable
      reads this, processes
      requires Valid()
    {
      processes[..]
    }

    constructor ()
      ensures Valid() && fresh(processes) && running == 0
    {
      processes := new Proc[9](_ => FREE);
      running := 0;
    }

    method InitProcesses()
      requires Valid()
      modifies this, processes
      ensures Valid() && Abs() == Emptied(old(Abs())) && running == 0
    {
      for i := 0 to 9
        invariant forall j :: 0 <= j < 9 ==> processes[j] == if j < i then old(processes[j]).(pid := 0) else old(processes[j])
      {
        processes[i] := processes[i].(pid := 0);
      }
      running := 0;
      assert Abs() == Emptied(old(Abs()));
    }

    method SetRunningProc(pid: nat)
      requires Valid() && 1 <= pid <= 9
      modifies this, processes
      ensures Valid() && Abs() == SetRunning(old(Abs()), old(running), pid) && running == pid
    {
      if running != 0 {
        processes[running - 1] := processes[running - 1].(state := READY);
      }
      running := pid;
      processes[pid - 1] := processes[pid - 1].(state := RUNNING);
    }

    /** The new pid, or -1 when all nine slots are taken. */
    method RegisterProc(name: seq<Byte>, cs: Word, ds: Word, ss: Word, entry: Word, ppid: nat, size: Dword) returns (pid: int)
      requires Valid() && cs == ds == ss
      modifies processes
      ensures match FirstSlot(old(Abs()), 0)
              case None => pid == -1 && Abs() == old(Abs())
              case Some(i) => pid == i + 1 && Abs() == old(Abs())[i := Registered(i, name, cs, entry, ppid, size)]
    {
      for i := 0 to 9
        invariant FirstSlot(Abs(), i) == FirstSlot(Abs(), 0)
        invariant Abs() == old(Abs())
      {
        if processes[i].pid == 0 {
          processes[i] := Proc(i + 1, name, ss, ds, cs, entry, ppid, size, READY);
          return i + 1;
        }
      }
      pid := -1;
    }

    method UnregisterProc(pid: nat)
      requires Valid() && 1 <= pid <= 9
      modifies processes
      ensures Abs() == Unregistered(old(Abs()), pid)
    {
      processes[pid - 1] := processes[pid - 1].(pid := 0);
    }
  }
}
