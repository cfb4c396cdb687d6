/** Context switches of the policies without a queue: FCFS and SJF make none, so that a process waits
    only before it starts, and STCF makes fewer than there are processes. */
module Switches {
  import opened Basics
  import opened Processes
  import opened Model
  import opened Engine
  import opened Runs
  import opened Accounting
  import opened Scanning

  predicate NeverPreempts(policy: Policy) {
    policy.FCFS? || policy.SJF?
  }

  // ---------- FCFS and SJF ----------

  /** A process that has started has had the CPU ever since. */
  ghost predicate Uninterrupted(p: Record, now: int) {
    match p.phase
    case NotArrived => p.start == -1
    case Ready => p.start == -1 && p.remaining == p.burst
    case Running => now - p.start == p.burst - p.remaining
    case Finished => p.finish == p.start + p.burst
  }

  ghost predicate RunsToTheEnd(s: Sim) {
    s.switches == 0 && forall i :: 0 <= i < |s.procs| ==> Uninterrupted(s.procs[i], s.now)
  }

  lemma UninterruptedOverTick(p: Record, r: Record, i: nat, next: nat, running: Slot, now: int, chosen: bool)
    requires ProcOk(p, i, next, running) && (p.phase.Running? ==> 0 < p.burst) && Uninterrupted(p, now)
    requires running == Some(i) && 0 < p.remaining ==> chosen
    requires chosen ==> 0 < Left(p) && p.arrival <= now
    requires SameCore(r, Advance(p, now, chosen))
    ensures Uninterrupted(r, now + 1)
  {
  }

  lemma RunsToTheEndOverTick(s: Sim, r: Sim, slot: Slot)
    requires Inv(s) && RunsToTheEnd(s) && Ticked(s, r, slot) && r.switches == s.switches
    requires Occupied(s) ==> slot == s.running
    ensures RunsToTheEnd(r)
  {
    forall i: nat | i < |s.procs| ensures Uninterrupted(r.procs[i], r.now) {
      UninterruptedOverTick(s.procs[i], r.procs[i], i, s.next, s.running, s.now, slot == Some(i));
      hide HooksHold, Advance, Uninterrupted;
    }
    hide Inv, Uninterrupted, Advance, Occupied;
  }

  lemma RunsToTheEndAtEnd(s: Sim)
    requires Inv(s) && RunsToTheEnd(s)
    ensures RunsToTheEnd(Complete(s))
  {
    hide HooksHold;
  }

  lemma RunsToTheEndOverIteration(s: Sim)
    requires Inv(s) && !Done(s) && NeverPreempts(s.policy) && RunsToTheEnd(s)
    ensures RunsToTheEnd(Step(s))
  {
    if Complete(s).completed == |s.procs| {
      LastStepEnds(s);
      RunsToTheEndAtEnd(s);
    } else {
      StepKeeps(s);
      ScanningStep(s);
      assert Occupied(s) ==> LastSlot(Step(s)) == s.running;
      RunsToTheEndOverTick(s, Step(s), LastSlot(Step(s)));
    }
    hide Step, Complete, Inv, RunsToTheEnd;
  }

  lemma RunsToTheEndAtStart(policy: Policy, procs: seq<Record>)
    requires ValidPolicy(policy) && Workload(procs)
    ensures RunsToTheEnd(Initial(policy, procs))
  {
  }

  lemma {:induction false} RunIsUninterrupted(policy: Policy, procs: seq<Record>, k: nat)
    requires ValidPolicy(policy) && Workload(procs) && NeverPreempts(policy)
    ensures RunsToTheEnd(Run(policy, procs, k))
  {
    hide *;
    RunStep(policy, procs, if k == 0 then 0 else k - 1);
    if k == 0 {
      RunsToTheEndAtStart(policy, procs);
    } else {
      RunIsUninterrupted(policy, procs, k - 1);
      RunHolds(policy, procs, k - 1);
      if !Done(Run(policy, procs, k - 1)) { RunsToTheEndOverIteration(Run(policy, procs, k - 1)); }
    }
  }

  /** FCFS and SJF: no context switches, and all the waiting is done before the first response. */
  lemma NonPreemptiveResponse(policy: Policy, procs: seq<Record>, i: nat)
    requires ValidPolicy(policy) && Workload(procs) && NeverPreempts(policy) && i < |procs|
    ensures var f := Final(policy, procs);
      f.switches == 0 && f.procs[i].response == f.procs[i].waiting && f.procs[i].finish == f.procs[i].start + procs[i].burst
  {
    var f := Final(policy, procs);
    FinalRun(policy, procs);
    RunIsUninterrupted(policy, procs, RunLength(procs));
    EveryRunEnds(policy, procs);
    FinalFacts(policy, procs);
    MetricsCountTicks(policy, procs, i);
    assert f.procs[i].phase.Finished? && SameInputs(f.procs[i], procs[i]);
    assert Uninterrupted(f.procs[i], f.now);
    hide *;
  }

  // ---------- STCF ----------

  /** Each switch was caused by somebody who arrived after the first process. */
  ghost predicate SwitchesCaused(s: Sim) {
    s.switches <= Max(0, s.next - 1)
  }

  lemma SwitchesCausedOverIteration(s: Sim)
    requires Inv(s) && !Done(s) && s.policy.STCF? && SwitchesCaused(s)
    ensures SwitchesCaused(Step(s))
  {
    if Complete(s).completed == |s.procs| {
      LastStepEnds(s);
    } else {
      ScanningStep(s);
      if s.running.Some? { assert ProcOk(s.procs[s.running.value], s.running.value, s.next, s.running); }
      hide Step, Complete, HooksHold, Scan;
    }
  }

  lemma {:induction false} RunSwitchesCaused(procs: seq<Record>, k: nat)
    requires ValidPolicy(STCF) && Workload(procs)
    ensures SwitchesCaused(Run(STCF, procs, k))
  {
    hide *;
    RunStep(STCF, procs, if k == 0 then 0 else k - 1);
    if k == 0 {
      SwitchesCausedAtStart(procs);
    } else {
      RunSwitchesCaused(procs, k - 1);
      RunHolds(STCF, procs, k - 1);
      if !Done(Run(STCF, procs, k - 1)) { SwitchesCausedOverIteration(Run(STCF, procs, k - 1)); }
    }
  }

  lemma SwitchesCausedAtStart(procs: seq<Record>)
    requires ValidPolicy(STCF) && Workload(procs)
    ensures SwitchesCaused(Initial(STCF, procs))
  {
  }

  /** STCF makes at most n - 1 context switches for n processes. */
  lemma StcfSwitchBound(procs: seq<Record>)
    requires Workload(procs)
    ensures Final(STCF, procs).switches <= Max(0, |procs| - 1)
  {
    assert ValidPolicy(STCF);
    FinalRun(STCF, procs);
    RunSwitchesCaused(procs, RunLength(procs));
    assert Shape(Final(STCF, procs));
    hide Final, Run;
  }
}
