/** The scheduler as the program runs it: process objects, linked queues and engine fields updated in
    place. Every stage is proved to compute the corresponding function of Model.dfy, so that the
    theorems about runs hold of this code. */
module Scheduler {
  import opened Basics
  import opened Processes
  import opened Model
  import opened PolicyStates
  import opened Updates
  import opened Gantt
  import opened Engine
  import opened Runs
  import opened Scanning

  /** What the loop needs to know about the run it computes. */
  lemma LoopFacts(policy: Policy, procs: seq<Record>, k: nat, s: Sim)
    requires ValidPolicy(policy) && Workload(procs) && s == Run(policy, procs, k)
    ensures Shape(s) && |s.procs| == |procs|
    ensures s.completed < |s.procs| ==> k < RunLength(procs) && Run(policy, procs, k + 1) == Step(s)
    ensures s.completed >= |s.procs| ==> s == Final(policy, procs)
  {
    RunStep(policy, procs, k);
    if Done(s) {
      DoneIsFinal(policy, procs, k);
    } else if RunLength(procs) <= k {
      EveryRunEnds(policy, procs);
      StaysDone(policy, procs, RunLength(procs), k);
    }
    hide Run, Step, Final;
  }

  class SchedulerState {
    const processes: seq<Process>
    const policy: Policy
    const ganttLog: GanttLog
    var currentTime: int
    var nextArrivalIdx: nat
    var runningProcess: Process?
    var preemptRequested: bool
    var contextSwitches: nat
    var completed: nat
    var rr: RrState?
    var mlfq: MlfqState?
    ghost var cpu: seq<Slot>
    ghost var entries: seq<string>

    // ---------- abstraction ----------

    /** What the private state of the policy consists of. */
    ghost function Footprint(): set<object>
      reads `rr, `mlfq, rr, mlfq
    {
      (if rr == null then {} else {rr} + rr.repr) + (if mlfq == null then {} else {mlfq} + mlfq.repr)
    }

    ghost predicate PolicyValid()
      reads `rr, `mlfq, Footprint()
    {
      match policy
      case RR(_) => rr != null && mlfq == null && rr.Valid() && rr.owner == processes
      case MLFQ(_, _, _) => mlfq != null && rr == null && mlfq.Valid() && mlfq.owner == processes && mlfq.Configured(policy)
      case _ => rr == null && mlfq == null
    }

    /** The engine's own objects are not part of the policy's state. */
    ghost predicate Separate()
      reads `rr, `mlfq, rr, mlfq
    {
      this !in Footprint() && ganttLog !in Footprint() && forall i :: 0 <= i < |processes| ==> processes[i] !in Footprint()
    }

    ghost function Hooks(): Hooks
      requires PolicyValid()
      reads `rr, `mlfq, Footprint()
    {
      match policy
      case RR(_) => RrHooks(rr.Waiting(), rr.currentQuantum)
      case MLFQ(_, _, _) => MlfqHooks(mlfq.Levels(), mlfq.boostTimer, mlfq.currentQuantum)
      case _ => NoHooks
    }

    ghost function Abs(): Sim
      requires PolicyValid()
      reads this, Footprint(), processes
    {
      Sim(policy, Records(processes), currentTime, nextArrivalIdx, SlotOf(runningProcess), preemptRequested,
          contextSwitches, completed, Hooks(), cpu, entries)
    }

    ghost predicate Valid()
      reads this, Footprint(), processes, ganttLog
    {
      && Indexed(processes)
      && (runningProcess != null ==> Member(processes, runningProcess))
      && Separate() && PolicyValid()
      && ganttLog.text == Joined(entries)
      && Shape(Abs())
    }

    /** Before the run: the workload is sorted and nothing has happened yet. */
    ghost predicate Prepared()
      reads this, processes, ganttLog
    {
      && Indexed(processes) && Workload(Records(processes)) && ValidPolicy(policy)
      && rr == null && mlfq == null && currentTime == 0 && nextArrivalIdx == 0 && !preemptRequested
      && runningProcess == null && contextSwitches == 0 && completed == 0 && cpu == [] && entries == []
      && ganttLog.text == Joined(entries)
    }

    /** The sort has been done: the caller hands over the processes in the order of the comparator. */
    constructor (processes: seq<Process>, policy: Policy)
      requires Indexed(processes) && Workload(Records(processes)) && ValidPolicy(policy)
      ensures Prepared() && fresh(ganttLog)
      ensures this.processes == processes && this.policy == policy
    {
      this.processes := processes;
      this.policy := policy;
      ganttLog := new GanttLog();
      currentTime := 0;
      nextArrivalIdx := 0;
      runningProcess := null;
      preemptRequested := false;
      contextSwitches := 0;
      completed := 0;
      rr := null;
      mlfq := null;
      cpu := [];
      entries := [];
    }

    // ---------- stages ----------

    lemma ValidMeans()
      requires Valid()
      ensures PolicyValid() && Shape(Abs()) && |Abs().procs| == |processes|
      ensures Abs().running == SlotOf(runningProcess) && Abs().completed == completed
      ensures SlotOf(runningProcess).Some? <==> runningProcess != null
    {
    }

    method FinishRunning()
      requires Valid() && runningProcess != null
      modifies `completed, `runningProcess, runningProcess
      ensures Valid() && Footprint() == old(Footprint())
      ensures Abs() == FinishedNow(old(Abs()), old(runningProcess).id)
    {
      hide PolicyValid, Hooks, Shape, Records;
      ghost var s, r := Abs(), runningProcess.id;
      assert processes[r] == runningProcess;
      FinishKeepsShape(s, r);
      runningProcess.Finish(currentTime);
      completed := completed + 1;
      runningProcess := null;
      assert Records(processes) == s.procs[r := FinishRecord(s.procs[r], s.now)];
    }

    method HandleCompletions()
      requires Valid()
      modifies this, processes
      ensures Valid() && Footprint() == old(Footprint())
      ensures Abs() == Complete(old(Abs()))
    {
      ghost var s := Abs();
      ValidMeans();
      assert runningProcess != null ==>
        processes[runningProcess.id] == runningProcess && s.procs[runningProcess.id] == runningProcess.Rec();
      hide PolicyValid, Hooks, Shape, Records, Valid, Footprint, Complete, FinishedNow;
      CompleteInParts(s);
      if runningProcess != null && runningProcess.remainingTime == 0 {
        FinishRunning();
      }
    }

    // ---------- arrivals ----------

    method StcfOnArrival(p: Process)
      requires Valid() && policy.STCF? && Member(processes, p)
      modifies `preemptRequested
      ensures Valid() && Footprint() == old(Footprint())
      ensures Abs() == ArrivalHook(old(Abs()), p.id)
      ensures preemptRequested ==
        (old(preemptRequested) || (runningProcess != null && p.remainingTime < runningProcess.remainingTime))
    {
      hide Hooks, PolicyValid, Records;
      ghost var s := Abs();
      if runningProcess != null {
        assert s.procs[p.id] == p.Rec() && s.procs[runningProcess.id] == runningProcess.Rec();
        if p.remainingTime < runningProcess.remainingTime {
          preemptRequested := true;
        }
      }
      assert Abs() == ArrivalHook(s, p.id);
    }

    method RrOnArrival(p: Process)
      requires Valid() && policy.RR? && Member(processes, p)
      modifies rr, rr.repr
      ensures Valid() && (forall x :: x in Footprint() ==> x in old(Footprint()) || fresh(x))
      ensures Abs() == ArrivalHook(old(Abs()), p.id)
    {
      hide Records, Shape;
      ghost var s := Abs();
      rr.OnArrival(p);
      assert Abs() == ArrivalHook(s, p.id);
    }

    method MlfqOnArrival(p: Process)
      requires Valid() && policy.MLFQ? && Member(processes, p)
      modifies `preemptRequested, p, mlfq, mlfq.repr
      ensures Valid() && (forall x :: x in Footprint() ==> x in old(Footprint()) || fresh(x))
      ensures Abs() == ArrivalHook(old(Abs()), p.id)
    {
      hide Records, Shape, Raised, MlfqState.Valid, MlfqState.Levels, Model.Enqueue;
      ghost var s := Abs();
      mlfq.MoveToTop(p);
      assert Hooks() == s.hooks.(queues := Model.Enqueue(s.hooks.queues, 0, p.id));
      if runningProcess != null {
        assert Records(processes)[p.id] == p.Rec() && Records(processes)[runningProcess.id] == runningProcess.Rec();
        if p.priority < runningProcess.priority {
          preemptRequested := true;
        }
      }
      MlfqArrival(s, p.id, Abs());
    }

    /** The arrival hook of the policy, if it has one. */
    method OnArrival(p: Process)
      requires Valid() && Member(processes, p)
      modifies this, processes, Footprint()
      ensures Valid() && (forall x :: x in Footprint() ==> x in old(Footprint()) || fresh(x))
      ensures Abs() == ArrivalHook(old(Abs()), p.id)
    {
      match policy {
        case RR(_) => RrOnArrival(p);
        case STCF => StcfOnArrival(p);
        case MLFQ(_, _, _) => MlfqOnArrival(p);
        case _ =>
      }
      hide *;
    }

    method SetPhase(p: Process, phase: Phase)
      requires Valid() && Member(processes, p)
      modifies p
      ensures Valid() && Footprint() == old(Footprint())
      ensures Abs() == WithPhase(old(Abs()), p.id, phase)
    {
      hide PolicyValid, Hooks, Shape, Records;
      ghost var s := Abs();
      assert processes[p.id] == p;
      p.state := phase;
      assert Records(processes) == s.procs[p.id := s.procs[p.id].(phase := phase)];
      PhaseKeepsShape(s, p.id, phase);
    }

    method CountArrival()
      requires Valid() && nextArrivalIdx < |processes|
      modifies `nextArrivalIdx
      ensures Valid() && Footprint() == old(Footprint())
      ensures Abs() == old(Abs()).(next := old(nextArrivalIdx) + 1)
    {
      hide Records, Hooks, PolicyValid;
      nextArrivalIdx := nextArrivalIdx + 1;
    }

    method AdmitNext()
      requires Valid() && nextArrivalIdx < |processes|
      modifies this, processes, Footprint()
      ensures Valid() && (forall x :: x in Footprint() ==> x in old(Footprint()) || fresh(x))
      ensures Abs() == ArriveOne(old(Abs()))
    {
      ghost var s := Abs();
      var p := processes[nextArrivalIdx];
      assert Member(processes, p) && p.id == nextArrivalIdx;
      ValidMeans();
      hide PolicyValid, Hooks, Shape, Records, ArrivalHook, Member, Valid, Footprint;
      SetPhase(p, Ready);
      ArrivalHookFrame(Abs(), p.id);
      OnArrival(p);
      CountArrival();
      ValidMeans();
      assert Abs() == ArriveOne(s);
    }

    method HandleArrivals()
      requires Valid()
      modifies this, processes, Footprint()
      ensures Valid() && (forall x :: x in Footprint() ==> x in old(Footprint()) || fresh(x))
      ensures Abs() == Arrive(old(Abs()))
    {
      ghost var s := Abs();
      hide ArriveOne, PolicyValid, Hooks, Shape, Records;
      while nextArrivalIdx < |processes|
        invariant Valid() && (forall x :: x in Footprint() ==> x in old(Footprint()) || fresh(x))
        invariant Arrive(Abs()) == Arrive(s)
        decreases |processes| - nextArrivalIdx
      {
        var p := processes[nextArrivalIdx];
        if p.arrivalTime <= currentTime && p.state.NotArrived? {
          AdmitNext();
        } else {
          break;
        }
      }
    }

    // ---------- choosing the next process ----------

    /** What the result of a scan means for the objects. */
    lemma ScanOfObjects(scanning: Policy, next: Process?, p: Process)
      requires Scans(scanning) && Indexed(processes) && (next != null ==> Member(processes, next))
      requires SlotOf(next) == Scan(scanning, Records(processes), |processes|)
      requires p in processes && p.state.Ready?
      ensures next != null && next.state.Ready?
      ensures scanning.FCFS? ==>
        next.arrivalTime < p.arrivalTime || (next.arrivalTime == p.arrivalTime && next.id <= p.id)
      ensures scanning.SJF? ==> next.burstTime <= p.burstTime
      ensures scanning.STCF? ==> next.remainingTime <= p.remainingTime
      ensures (scanning.SJF? && next.burstTime == p.burstTime) || (scanning.STCF? && next.remainingTime == p.remainingTime) ==>
        next.arrivalTime < p.arrivalTime || (next.arrivalTime == p.arrivalTime && !PidLess(p.pid, next.pid))
    {
      hide Records, Scan;
      assert processes[p.id] == p;
      assert Records(processes)[p.id] == p.Rec();
      ScanByKeys(scanning, Records(processes), p.id);
      assert Records(processes)[next.id] == next.Rec();
    }

    method FcfsNextProcess() returns (next: Process?)
      requires Indexed(processes)
      ensures SlotOf(next) == Scan(FCFS, Records(processes), |processes|)
      ensures next != null ==> Member(processes, next)
      ensures next == null ==> forall p :: p in processes ==> !p.state.Ready?
      ensures next != null ==> forall p :: p in processes && p.state.Ready? ==>
        next.arrivalTime < p.arrivalTime || (next.arrivalTime == p.arrivalTime && next.id <= p.id)
    {
      hide Records;
      next := null;
      for i := 0 to |processes|
        invariant SlotOf(next) == Scan(FCFS, Records(processes), i)
        invariant next != null ==> Member(processes, next)
      {
        assert Records(processes)[i] == processes[i].Rec();
        assert next != null ==> Records(processes)[next.id] == next.Rec();
        if processes[i].state.Ready? {
          if next == null || processes[i].arrivalTime < next.arrivalTime {
            next := processes[i];
          }
        }
      }
      forall p | p in processes && p.state.Ready?
        ensures next != null && next.state.Ready?
        ensures next.arrivalTime < p.arrivalTime || (next.arrivalTime == p.arrivalTime && next.id <= p.id)
      {
        ScanOfObjects(FCFS, next, p);
      }
    }

    method SjfNextProcess() returns (next: Process?)
      requires Indexed(processes)
      ensures SlotOf(next) == Scan(SJF, Records(processes), |processes|)
      ensures next != null ==> Member(processes, next)
      ensures next == null ==> forall p :: p in processes ==> !p.state.Ready?
      ensures next != null ==> forall p :: p in processes && p.state.Ready? ==>
        next.burstTime < p.burstTime || (next.burstTime == p.burstTime &&
          (next.arrivalTime < p.arrivalTime || (next.arrivalTime == p.arrivalTime && !PidLess(p.pid, next.pid))))
    {
      hide Records;
      next := null;
      for i := 0 to |processes|
        invariant SlotOf(next) == Scan(SJF, Records(processes), i)
        invariant next != null ==> Member(processes, next)
      {
        assert Records(processes)[i] == processes[i].Rec();
        assert next != null ==> Records(processes)[next.id] == next.Rec();
        if processes[i].state.Ready? {
          if next == null {
            next := processes[i];
          } else if processes[i].burstTime < next.burstTime {
            next := processes[i];
          } else if processes[i].burstTime == next.burstTime {
            if processes[i].arrivalTime < next.arrivalTime {
              next := processes[i];
            } else if processes[i].arrivalTime == next.arrivalTime {
              if PidLess(processes[i].pid, next.pid) {
                next := processes[i];
              }
            }
          }
        }
      }
      forall p | p in processes && p.state.Ready?
        ensures next != null && next.state.Ready?
        ensures next.burstTime < p.burstTime || (next.burstTime == p.burstTime &&
          (next.arrivalTime < p.arrivalTime || (next.arrivalTime == p.arrivalTime && !PidLess(p.pid, next.pid))))
      {
        ScanOfObjects(SJF, next, p);
      }
    }

    method StcfNextProcess() returns (next: Process?)
      requires Indexed(processes)
      ensures SlotOf(next) == Scan(STCF, Records(processes), |processes|)
      ensures next != null ==> Member(processes, next)
      ensures next == null ==> forall p :: p in processes ==> !p.state.Ready?
      ensures next != null ==> forall p :: p in processes && p.state.Ready? ==>
        next.remainingTime < p.remainingTime || (next.remainingTime == p.remainingTime &&
          (next.arrivalTime < p.arrivalTime || (next.arrivalTime == p.arrivalTime && !PidLess(p.pid, next.pid))))
    {
      hide Records;
      next := null;
      for i := 0 to |processes|
        invariant SlotOf(next) == Scan(STCF, Records(processes), i)
        invariant next != null ==> Member(processes, next)
      {
        assert Records(processes)[i] == processes[i].Rec();
        assert next != null ==> Records(processes)[next.id] == next.Rec();
        if processes[i].state.Ready? {
          if next == null || processes[i].remainingTime < next.remainingTime {
            next := processes[i];
          } else if processes[i].remainingTime == next.remainingTime {
            if processes[i].arrivalTime < next.arrivalTime {
              next := processes[i];
            } else if processes[i].arrivalTime == next.arrivalTime {
              if PidLess(processes[i].pid, next.pid) {
                next := processes[i];
              }
            }
          }
        }
      }
      forall p | p in processes && p.state.Ready?
        ensures next != null && next.state.Ready?
        ensures next.remainingTime < p.remainingTime || (next.remainingTime == p.remainingTime &&
          (next.arrivalTime < p.arrivalTime || (next.arrivalTime == p.arrivalTime && !PidLess(p.pid, next.pid))))
      {
        ScanOfObjects(STCF, next, p);
      }
    }

    method RrNextProcess(quantum: int) returns (next: Process?)
      requires Valid() && policy == RR(quantum)
      modifies rr, rr.repr
      ensures Valid() && (forall x :: x in Footprint() ==> x in old(Footprint()) || fresh(x))
      ensures next != null ==> Member(processes, next)
      ensures (SlotOf(next), Hooks()) == Model.NextProcess(policy, old(Records(processes)), old(Hooks()))
      ensures Abs() == old(Abs()).(hooks := Hooks())
    {
      hide Records, Scan, Shape, RrState.Valid, RrState.Waiting;
      ghost var s := Abs();
      next := rr.NextProcess(quantum);
      NextKeepsShape(s);
      assert Abs() == s.(hooks := Hooks());
    }

    method MlfqNextProcess() returns (next: Process?)
      requires Valid() && policy.MLFQ?
      modifies mlfq, mlfq.repr
      ensures Valid() && (forall x :: x in Footprint() ==> x in old(Footprint()) || fresh(x))
      ensures next != null ==> Member(processes, next)
      ensures (SlotOf(next), Hooks()) == Model.NextProcess(policy, old(Records(processes)), old(Hooks()))
      ensures Abs() == old(Abs()).(hooks := Hooks())
    {
      hide Records, Scan, Shape, MlfqState.Valid, MlfqState.Levels, FirstLevel;
      ghost var s := Abs();
      next := mlfq.NextProcess();
      NextKeepsShape(s);
      assert (SlotOf(next), Hooks()) == Model.NextProcess(policy, s.procs, s.hooks);
      assert Abs() == s.(hooks := Hooks());
    }

    /** The choice of the policy: a scan of the process array, or the head of a queue. */
    method NextProcess() returns (next: Process?)
      requires Valid()
      modifies Footprint()
      ensures Valid() && (forall x :: x in Footprint() ==> x in old(Footprint()) || fresh(x))
      ensures next != null ==> Member(processes, next)
      ensures (SlotOf(next), Hooks()) == Model.NextProcess(policy, old(Records(processes)), old(Hooks()))
      ensures Abs() == old(Abs()).(hooks := Hooks())
    {
      hide Records, Scan, Shape;
      match policy {
        case FCFS => next := FcfsNextProcess();
        case SJF => next := SjfNextProcess();
        case STCF => next := StcfNextProcess();
        case RR(quantum) => next := RrNextProcess(quantum);
        case MLFQ(_, _, _) => next := MlfqNextProcess();
      }
    }

    // ---------- the policy tick ----------

    method RrOnTick()
      requires Valid() && policy.RR? && runningProcess != null
      modifies `preemptRequested, rr, rr.repr
      ensures Valid() && (forall x :: x in Footprint() ==> x in old(Footprint()) || fresh(x))
      ensures Abs() == TickHook(old(Abs()))
    {
      hide Records, Shape, RrState.Valid, RrState.Waiting;
      ghost var s := Abs();
      assert s.procs[runningProcess.id] == runningProcess.Rec();
      assert s.hooks.queue + [] == s.hooks.queue;
      var preempt := rr.OnTick(runningProcess);
      if preempt {
        preemptRequested := true;
      }
      assert Abs() == TickHook(s);
    }

    method MlfqOnTick()
      requires Valid() && policy.MLFQ? && runningProcess != null
      modifies `preemptRequested, processes, mlfq, mlfq.repr
      ensures Valid() && (forall x :: x in Footprint() ==> x in old(Footprint()) || fresh(x))
      ensures Abs() == TickHook(old(Abs()))
    {
      hide Records, MlfqState.Valid, MlfqState.Levels, TickHook;
      ghost var s := Abs();
      assert mlfq.Agrees(s);
      hide Shape, MlfqState.Agrees, MlfqState.Configured;
      var preempt := mlfq.OnTick(runningProcess, preemptRequested, s);
      preemptRequested := preempt;
      TickHookFrame(s);
      mlfq.AgreesFacts(TickHook(s));
      assert Abs() == TickHook(s);
    }

    method OnTick()
      requires Valid() && runningProcess != null
      modifies this, processes, Footprint()
      ensures Valid() && (forall x :: x in Footprint() ==> x in old(Footprint()) || fresh(x))
      ensures Abs() == TickHook(old(Abs()))
    {
      match policy {
        case RR(_) => RrOnTick();
        case MLFQ(_, _, _) => MlfqOnTick();
        case _ =>
      }
      hide *;
    }

    // ---------- dispatching ----------

    method GiveCpuTo(next: Process?)
      requires Valid() && (next != null ==> Member(processes, next))
      modifies `contextSwitches, `runningProcess
      ensures Valid() && Footprint() == old(Footprint())
      ensures Abs() == Given(old(Abs()), SlotOf(next))
    {
      hide PolicyValid, Hooks, Records;
      if runningProcess != null {
        contextSwitches := contextSwitches + 1;
      }
      runningProcess := next;
    }

    method StartRunning()
      requires Valid() && runningProcess != null
      modifies runningProcess
      ensures Valid() && Footprint() == old(Footprint())
      ensures Abs() == Started(old(Abs()), runningProcess.id)
    {
      hide PolicyValid, Hooks, Shape, Records;
      ghost var s, r := Abs(), runningProcess.id;
      assert processes[r] == runningProcess;
      StartKeepsShape(s, r);
      runningProcess.Start(currentTime);
      assert Records(processes) == s.procs[r := StartRecord(s.procs[r], s.now)];
    }

    method ClearPreemption()
      requires Valid()
      modifies `preemptRequested
      ensures Valid() && Footprint() == old(Footprint()) && Abs() == Cleared(old(Abs()))
    {
      hide PolicyValid, Hooks, Records;
      preemptRequested := false;
    }

    method SwitchTo(next: Process?)
      requires Valid() && (next != null ==> Member(processes, next))
      modifies this, processes
      ensures Valid() && Footprint() == old(Footprint())
      ensures Abs() == Switched(old(Abs()), SlotOf(next))
    {
      ghost var s := Abs();
      ValidMeans();
      assert next == runningProcess <==> SlotOf(next) == s.running;
      assert next != null ==> processes[next.id] == next;
      var previous := runningProcess;
      hide PolicyValid, Hooks, Shape, Records, Valid, Footprint, Given, Started, Cleared, WithPhase;
      if next != previous {
        GiveCpuTo(next);
        if next != null {
          StartRunning();
        }
      } else if previous != null {
        SetPhase(previous, Running);
      }
      ClearPreemption();
      ValidMeans();
      assert Abs() == Switched(s, SlotOf(next));
    }

    method HandleDispatch()
      requires Valid()
      modifies this, processes, Footprint()
      ensures Valid() && (forall x :: x in Footprint() ==> x in old(Footprint()) || fresh(x))
      ensures Abs() == Dispatch(old(Abs()))
    {
      if runningProcess == null || preemptRequested {
        ghost var s := Abs();
        ValidMeans();
        if runningProcess != null {
          SetPhase(runningProcess, Ready);
        }
        ghost var released := Abs();
        ValidMeans();
        hide PolicyValid, Hooks, Shape, Records, Valid, Footprint, Member, Model.NextProcess, Dispatch, Switched;
        var next := NextProcess();
        DispatchInParts(s, Hooks(), SlotOf(next));
        SwitchTo(next);
      }
    }

    // ---------- execution ----------

    method AppendEntry(entry: string)
      requires Valid()
      modifies `entries, ganttLog
      ensures Valid() && Footprint() == old(Footprint()) && Abs() == Logged(old(Abs()), entry)
    {
      hide PolicyValid, Hooks, Records;
      JoinedSnoc(entries, entry);
      ganttLog.Append(entry);
      entries := entries + [entry];
    }

    /** One more tick on the clock, given to `slot`. */
    method AdvanceClock(ghost slot: Slot)
      requires Valid()
      modifies `currentTime, `cpu
      ensures Valid() && Footprint() == old(Footprint())
      ensures Abs() == Clocked(old(Abs()), slot)
    {
      hide PolicyValid, Hooks, Records;
      currentTime := currentTime + 1;
      cpu := cpu + [slot];
    }

    method TickRunning()
      requires Valid() && runningProcess != null
      modifies runningProcess
      ensures Valid() && Footprint() == old(Footprint())
      ensures Abs() == Worked(old(Abs()), runningProcess.id)
    {
      hide PolicyValid, Hooks, Shape, Records;
      ghost var s, r := Abs(), runningProcess.id;
      assert processes[r] == runningProcess;
      TickKeepsShape(s, r);
      runningProcess.Tick();
      assert Records(processes) == s.procs[r := TickRecord(s.procs[r])];
    }

    method ExecuteTick()
      requires Valid()
      modifies this, processes, ganttLog
      ensures Valid() && Footprint() == old(Footprint())
      ensures Abs() == Execute(old(Abs()))
    {
      ghost var s := Abs();
      ValidMeans();
      assert runningProcess != null ==>
        processes[runningProcess.id] == runningProcess && s.procs[runningProcess.id] == runningProcess.Rec();
      hide PolicyValid, Hooks, Shape, Records, Valid, Footprint, Execute, FinishedNow, Worked, Logged, Clocked;
      ExecuteInParts(s);
      if runningProcess != null && runningProcess.remainingTime == 0 {
        FinishRunning();
        AppendEntry("-");
        AdvanceClock(s.running);
      } else {
        if runningProcess != null {
          TickRunning();
          AppendEntry(runningProcess.pid);
        } else {
          AppendEntry("-");
        }
        AdvanceClock(s.running);
      }
    }

    // ---------- the simulation loop ----------

    /** The policy tick only concerns a process that is still running. */
    method HandleTick()
      requires Valid()
      modifies this, processes, Footprint()
      ensures Valid() && (forall x :: x in Footprint() ==> x in old(Footprint()) || fresh(x))
      ensures Abs() == Tick(old(Abs()))
    {
      hide TickHook, PolicyValid, Hooks, Shape, Records, Footprint;
      if runningProcess != null {
        OnTick();
      }
    }

    /** Stages 2 to 4: arrivals, policy tick, dispatch. */
    method Schedule()
      requires Valid()
      modifies this, processes, Footprint()
      ensures Valid() && (forall x :: x in Footprint() ==> x in old(Footprint()) || fresh(x))
      ensures Abs() == Dispatch(Tick(Arrive(old(Abs()))))
    {
      hide *;
      ValidMeans();
      HandleArrivals();
      ValidMeans();
      HandleTick();
      ValidMeans();
      HandleDispatch();
    }

    method StepSimulation()
      requires Valid()
      modifies this, processes, Footprint(), ganttLog
      ensures Valid() && (forall x :: x in Footprint() ==> x in old(Footprint()) || fresh(x))
      ensures Abs() == Step(old(Abs()))
    {
      ghost var s := Abs();
      ValidMeans();
      hide *;
      StepInParts(s);
      HandleCompletions();
      ghost var c := Abs();
      ValidMeans();
      if completed == |processes| {
        return;
      }
      Schedule();
      ExecuteTick();
    }

    method OnInit()
      requires Prepared()
      modifies `rr, `mlfq
      ensures Valid() && forall x :: x in Footprint() ==> fresh(x)
      ensures Abs() == Initial(policy, Records(processes))
    {
      hide Records, Workload, RrState.Valid, RrState.Waiting, MlfqState.Valid, MlfqState.Levels, Shape;
      match policy {
        case RR(quantum) => rr := new RrState(quantum, processes);
        case MLFQ(_, _, _) => mlfq := new MlfqState(policy, processes);
        case _ =>
      }
      ghost var s := Initial(policy, Records(processes));
      assert PolicyValid() && Separate();
      assert Hooks() == s.hooks;
    }

    /** What is left of f when the private state of the policy has been thrown away. */
    ghost predicate Leaves(f: Sim)
      reads this, processes, ganttLog
    {
      && Records(processes) == f.procs && currentTime == f.now && contextSwitches == f.switches
      && completed == f.completed && SlotOf(runningProcess) == f.running
      && ganttLog.text == Joined(f.log) && cpu == f.cpu
    }

    method OnFinish()
      requires Valid()
      modifies `rr, `mlfq, Footprint()
      ensures rr == null && mlfq == null
      ensures Leaves(old(Abs()))
    {
      hide Records, Shape, RrState.Valid, MlfqState.Valid;
      if rr != null {
        rr.OnFinish();
        rr := null;
      }
      if mlfq != null {
        mlfq.OnFinish();
        mlfq := null;
      }
    }

    /** The object is in the k-th state of the run. */
    ghost predicate Reached(procs: seq<Record>, k: nat)
      reads this, Footprint(), processes, ganttLog
    {
      Valid() && ValidPolicy(policy) && Workload(procs) && Abs() == Run(policy, procs, k)
    }

    /** One iteration of the loop: the k-th state of the run becomes the next one. */
    method Iterate(ghost procs: seq<Record>, ghost k: nat)
      requires Reached(procs, k) && completed < |processes|
      modifies this, processes, Footprint(), ganttLog
      ensures Reached(procs, k + 1) && (forall x :: x in Footprint() ==> x in old(Footprint()) || fresh(x))
      ensures k < RunLength(procs)
    {
      assert Valid() && ValidPolicy(policy) && Workload(procs) && Abs() == Run(policy, procs, k);
      hide *;
      ValidMeans();
      LoopFacts(policy, procs, k, Abs());
      StepSimulation();
      NowReached(procs, k + 1);
    }

    lemma NowReached(procs: seq<Record>, k: nat)
      requires Valid() && ValidPolicy(policy) && Workload(procs) && Abs() == Run(policy, procs, k)
      ensures Reached(procs, k)
    {
    }

    lemma LoopEnds(procs: seq<Record>, k: nat)
      requires Reached(procs, k) && completed >= |processes|
      ensures Valid() && ValidPolicy(policy) && Workload(procs) && Abs() == Final(policy, procs)
    {
      hide Valid, Abs, Run, Workload, Shape, Final;
      ValidMeans();
      LoopFacts(policy, procs, k, Abs());
    }

    /** The loop of the simulation, from the initial state of a run to its final state. */
    method RunToEnd(ghost procs: seq<Record>)
      requires Reached(procs, 0)
      modifies this, processes, Footprint(), ganttLog
      ensures Valid() && (forall x :: x in Footprint() ==> x in old(Footprint()) || fresh(x))
      ensures ValidPolicy(policy) && Workload(procs) && Abs() == Final(policy, procs)
    {
      hide *;
      ghost var k: nat := 0;
      while completed < |processes|
        invariant Reached(procs, k) && (forall x :: x in Footprint() ==> x in old(Footprint()) || fresh(x))
        decreases RunLength(procs) - k
      {
        Iterate(procs, k);
        k := k + 1;
      }
      LoopEnds(procs, k);
    }

    /** Nobody has completed, and nobody is running. */
    method CountFromZero()
      requires Prepared()
      modifies `completed, `runningProcess
      ensures Prepared() && Records(processes) == old(Records(processes))
      ensures ValidPolicy(policy) && Workload(Records(processes))
    {
      completed := 0;
      runningProcess := null;
    }

    /** The whole simulation: it ends, and what it leaves behind is the final state of the run. */
    method RunSimulation()
      requires Prepared()
      modifies this, processes, ganttLog
      ensures Leaves(Final(policy, old(Records(processes))))
    {
      hide *;
      ghost var procs := Records(processes);
      CountFromZero();
      OnInit();
      RunStep(policy, procs, 0);
      NowReached(procs, 0);
      RunToEnd(procs);
      OnFinish();
    }
  }
}
