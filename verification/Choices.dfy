/** Whom SJF and STCF choose in a run, in terms of the recorded bursts, remaining times, arrival times and
    PIDs alone. */
module Choices {
  import opened Basics
  import opened Processes
  import opened Model
  import opened Engine
  import opened Runs
  import opened Scanning
  import Schedules

  /** The tick of the step from s to r goes to j, who does not just keep the CPU. */
  ghost predicate Chosen(s: Sim, r: Sim, j: nat)
    requires Shape(s)
  {
    && j < |s.procs| && r.cpu == s.cpu + [Some(j)]
    && !(s.running == Some(j) && 0 < s.procs[j].remaining)
  }

  lemma ChosenStep(s: Sim, j: nat)
    requires Inv(s) && !Done(s) && Chosen(s, Step(s), j)
    ensures Complete(s).completed != |s.procs| && LastSlot(Step(s)) == Some(j)
    ensures !(Occupied(s) && s.running == Some(j))
  {
    StepKeeps(s);
    if Complete(s).completed == |s.procs| {
      CompleteKeeps(s);
    }
    hide Inv, Step, Complete;
  }

  /** The scan of this step, and what it compares. */
  lemma ChosenByKeys(s: Sim, j: nat, i: nat)
    requires Inv(s) && !Done(s) && (s.policy.SJF? || s.policy.STCF?) && Chosen(s, Step(s), j)
    requires i < |s.procs| && s.procs[i].arrival <= s.now && 0 < Left(s.procs[i])
    ensures var p, q := s.procs[j], s.procs[i];
      && (s.policy.SJF? ==> p.burst <= q.burst)
      && (s.policy.STCF? ==> p.remaining <= q.remaining)
      && ((s.policy.SJF? && p.burst == q.burst) || (s.policy.STCF? && p.remaining == q.remaining) ==>
            && p.arrival <= q.arrival
            && (p.arrival == q.arrival ==> !PidLess(q.pid, p.pid)))
  {
    assert Scans(s.policy) && j < |s.procs|;
    hide *;
    ChosenStep(s, j);
    ScanOrStay(s);
    StepKeeps(s);
    ServedIsDue(s, Step(s), j);
    DueContends(s, i);
    DueContends(s, j);
    ScanByKeys(s.policy, Contenders(s), i);
  }

  lemma ServedIsDue(s: Sim, r: Sim, j: nat)
    requires Ticked(s, r, Some(j))
    ensures j < |s.procs| && s.procs[j].arrival <= s.now && 0 < Left(s.procs[j])
  {
  }

  /** Not through yet, and not found to be through by the next step either. */
  ghost predicate Unfinished(s: Sim, i: nat) {
    i < |s.procs| && !s.procs[i].phase.Finished? && !(s.running == Some(i) && s.procs[i].remaining == 0)
  }

  lemma UnfinishedNeedsTick(s: Sim, i: nat)
    requires Inv(s) && Unfinished(s, i)
    ensures 0 < Left(s.procs[i])
  {
    assert ProcOk(s.procs[i], i, s.next, s.running);
    hide HooksHold, Shape;
  }

  lemma TickIsAppended(s: Sim, j: nat)
    requires Inv(s) && !Done(s)
    requires |Step(s).cpu| == s.now + 1 && Step(s).cpu[s.now] == Some(j)
    ensures j < |s.procs| && Step(s).cpu == s.cpu + [Some(j)]
  {
    StepKeeps(s);
    assert |s.cpu| == s.now;
    if Complete(s).completed == |s.procs| {
      CompleteKeeps(s);
    }
    hide Inv, Step, Complete;
  }

  lemma NowChosen(s: Sim, r: Sim, j: nat)
    requires Shape(s) && j < |s.procs| && r.cpu == s.cpu + [Some(j)]
    requires !(s.running == Some(j) && 0 < s.procs[j].remaining)
    ensures Chosen(s, r, j)
  {
  }

  /** Whenever SJF or STCF hands a tick to a process j that does not just keep the CPU, then of all processes
      that have arrived and are not through j has the smallest burst time (SJF) or remaining time (STCF), the
      smallest arrival time among those, and no PID among those comes before its PID. */
  lemma ShortestThenEarliestThenPid(policy: Policy, procs: seq<Record>, k: nat, j: nat, i: nat)
    requires ValidPolicy(policy) && (policy.SJF? || policy.STCF?) && Workload(procs) && i < |procs| && j < |procs|
    requires !Done(Run(policy, procs, k))
    requires |Run(policy, procs, k + 1).cpu| == k + 1 && Run(policy, procs, k + 1).cpu[k] == Some(j)
    requires !(Run(policy, procs, k).running == Some(j) && 0 < Run(policy, procs, k).procs[j].remaining)
    requires procs[i].arrival <= k && Unfinished(Run(policy, procs, k), i)
    ensures policy.SJF? ==>
      && procs[j].burst <= procs[i].burst
      && (procs[j].burst == procs[i].burst ==> procs[j].arrival <= procs[i].arrival)
      && (procs[j].burst == procs[i].burst && procs[j].arrival == procs[i].arrival ==> !PidLess(procs[i].pid, procs[j].pid))
    ensures policy.STCF? ==>
      var x, y := Run(policy, procs, k).procs[j].remaining, Run(policy, procs, k).procs[i].remaining;
      && x <= y
      && (x == y ==> procs[j].arrival <= procs[i].arrival)
      && (x == y && procs[j].arrival == procs[i].arrival ==> !PidLess(procs[i].pid, procs[j].pid))
  {
    var s := Run(policy, procs, k);
    assert Shape(s) && s.policy == policy && |s.procs| == |procs|;
    hide *;
    RunHolds(policy, procs, k);
    RunTracks(policy, procs, k);
    RunStep(policy, procs, k);
    ClockWhileRunning(policy, procs, k);
    InputsStay(procs, s);
    TickIsAppended(s, j);
    NowChosen(s, Step(s), j);
    UnfinishedNeedsTick(s, i);
    ChosenByKeys(s, j, i);
  }
}
