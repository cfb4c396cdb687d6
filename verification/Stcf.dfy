/** Shortest time-to-completion first is optimal: at every time it has at most as many processes in
    the system as any other schedule of the same workload, and so its total turnaround and
    waiting times are minimal. */
module Stcf {
  import opened Basics
  import opened Processes
  import opened Model
  import opened Engine
  import opened Runs
  import opened Accounting
  import opened Scanning
  import Schedules

  /** The running process has the least remaining time of all that wait for the CPU. */
  ghost predicate RunsShortest(s: Sim) {
    s.running.Some? && s.running.value < |s.procs| ==>
      forall i :: 0 <= i < |s.procs| && s.procs[i].phase.Ready? ==>
        s.procs[s.running.value].remaining <= s.procs[i].remaining
  }

  lemma DispatchesShortest(s: Sim, c: Sim, a: Sim, t: Sim, d: Sim)
    requires Inv(s) && Stages(s, c, a, t, d) && s.policy == STCF && RunsShortest(s)
    ensures RunsShortest(d)
  {
    ScanningStages(s, c, a, t, d);
    StagesHold(s, c, a, t, d);
    ScanIsBest(STCF, Candidates(a));
    hide Complete, Arrive, Dispatch, Tick, HooksHold;
    if d.running.Some? {
      forall i: nat | i < |d.procs| && d.procs[i].phase.Ready?
        ensures d.procs[d.running.value].remaining <= d.procs[i].remaining
      {
        ChosenIsShorter(s, c, a, t, d, i);
      }
    }
  }

  lemma ChosenIsShorter(s: Sim, c: Sim, a: Sim, t: Sim, d: Sim, i: nat)
    requires Inv(s) && Shape(a) && s.policy == STCF && RunsShortest(s)
    requires Completes(s, c) && Arrives(c, a) && t == a && Dispatches(t, d)
    requires forall i :: 0 <= i < |s.procs| ==> a.procs[i] == Arrived(Completed(s.procs[i], s.now), s.now)
    requires a.preempt <==> ShorterArrives(c, a.next)
    requires d.running.Some? && i < |d.procs| && d.procs[i].phase.Ready?
    requires if a.running.Some? && !a.preempt then d.running == a.running
             else IsBest(STCF, Candidates(a), d.running.value)
    ensures d.procs[d.running.value].remaining <= d.procs[i].remaining
  {
    hide HooksHold;
    var j := d.running.value;
    assert d.procs[j].remaining == a.procs[j].remaining && d.procs[i].remaining == a.procs[i].remaining;
    if a.running.Some? && !a.preempt {
      assert ProcOk(s.procs[i], i, s.next, s.running);
      if c.next <= i < a.next { assert !ShorterArrives(c, a.next); } else { assert s.procs[i].phase.Ready?; }
    } else {
      assert ProcOk(a.procs[i], i, a.next, a.running);
      assert Candidates(a)[i].phase.Ready?;
      assert !Prefer(STCF, Candidates(a)[i], Candidates(a)[j]);
    }
  }

  lemma StepRunsShortest(s: Sim)
    requires Inv(s) && !Done(s) && s.policy == STCF && RunsShortest(s)
    ensures RunsShortest(Step(s))
    ensures Complete(s).completed != |s.procs| ==> ServesLeast(s, LastSlot(Step(s)))
  {
    if Complete(s).completed != |s.procs| {
      var c := Complete(s);
      var a := Arrive(c);
      var t := Tick(a);
      var d := Dispatch(t);
      DispatchesShortest(s, c, a, t, d);
      StagesHold(s, c, a, t, d);
      ExecuteStage(s, c, a, t, d);
      ExecutesShortest(s, c, a, t, d);
      hide Complete, Arrive, Dispatch, Tick, Inv, Execute, HooksHold, RunsShortest, ServesLeast;
    }
  }

  /** The tick goes to a process that needs no more ticks than any other in the system. */
  ghost predicate ServesLeast(s: Sim, slot: Slot) {
    slot.Some? && slot.value < |s.procs| ==>
      forall i :: 0 <= i < |s.procs| && s.procs[i].arrival <= s.now && 0 < Left(s.procs[i]) ==>
        Left(s.procs[slot.value]) <= Left(s.procs[i])
  }

  lemma ExecutesShortest(s: Sim, c: Sim, a: Sim, t: Sim, d: Sim)
    requires Inv(s) && Stages(s, c, a, t, d) && RunsShortest(d)
    requires Completes(s, c) && Arrives(c, a) && Ticks(a, t) && Dispatches(t, d)
    requires Ticked(s, Execute(d), d.running)
    ensures RunsShortest(Execute(d))
    ensures ServesLeast(s, LastSlot(Execute(d)))
  {
    assert Shape(d) && Ok(d) && LastSlot(Execute(d)) == d.running;
    hide Complete, Arrive, Tick, Dispatch, HooksHold, RunsShortest, Execute, Shape, LastSlot, Ok;
    ExecutionKeepsShortest(d);
    LeastIsServed(s, c, a, t, d);
  }

  lemma ExecutionKeepsShortest(d: Sim)
    requires Ok(d) && RunsShortest(d)
    ensures RunsShortest(Execute(d))
  {
    if d.running.Some? { assert ProcOk(d.procs[d.running.value], d.running.value, d.next, d.running); }
    hide Shape;
  }

  lemma LeastIsServed(s: Sim, c: Sim, a: Sim, t: Sim, d: Sim)
    requires Inv(s) && Completes(s, c) && Arrives(c, a) && Ticks(a, t) && Dispatches(t, d) && RunsShortest(d)
    requires Ticked(s, Execute(d), d.running)
    requires Shape(d)
    ensures ServesLeast(s, d.running)
  {
    hide HooksHold, Execute, Shape;
    if d.running.Some? {
      var j := d.running.value;
      assert j < |s.procs| && s.procs[j].arrival <= s.now && 0 < Left(s.procs[j]);
      forall i: nat | i < |s.procs| && s.procs[i].arrival <= s.now && 0 < Left(s.procs[i])
        ensures Left(s.procs[j]) <= Left(s.procs[i])
      {
        StagesOfOne(s, c, a, t, d, i);
        StagesOfOne(s, c, a, t, d, j);
        hide Inv, Completes, Arrives, Ticks, Dispatches, Ticked, Left;
      }
    }
    hide Inv, Completes, Arrives, Ticks, Dispatches, Ticked, Left;
  }

  lemma StagesOfOne(s: Sim, c: Sim, a: Sim, t: Sim, d: Sim, i: nat)
    requires Inv(s) && Completes(s, c) && Arrives(c, a) && Ticks(a, t) && Dispatches(t, d) && i < |s.procs|
    requires s.procs[i].arrival <= s.now && 0 < Left(s.procs[i]) && d.running.Some?
    ensures |d.procs| == |s.procs| && Left(s.procs[i]) == Max(1, d.procs[i].remaining)
    ensures d.running != Some(i) ==> d.procs[i].phase.Ready?
  {
    assert ProcOk(s.procs[i], i, s.next, s.running);
    hide HooksHold, Shape;
    LeastLeft(s.procs[i], t.procs[i], d.procs[i], i, d.running.value, s);
  }

  /** Work left before the step, in terms of the record at dispatch. */
  lemma LeastLeft(p: Record, t: Record, q: Record, i: nat, j: nat, s: Sim)
    requires ProcOk(p, i, s.next, s.running) && (p.phase.Running? ==> 0 < p.burst)
    requires q == Dispatched(t, s.now, i == j) && SameCore(t, Arrived(Completed(p, s.now), s.now))
    requires p.arrival <= s.now && 0 < Left(p)
    ensures Left(p) == Max(1, q.remaining) && (i != j ==> q.phase.Ready?)
  {
  }

  // ---------- whole runs ----------

  /** So far the run is a shortest-first schedule of the workload. */
  ghost predicate SoFarShortest(procs: seq<Record>, s: Sim) {
    RunsShortest(s) && Schedules.ShortestFirst(Jobs(procs), s.cpu)
  }

  lemma {:induction false} StcfRun(procs: seq<Record>, k: nat)
    requires ValidPolicy(STCF) && Workload(procs)
    ensures SoFarShortest(procs, Run(STCF, procs, k))
  {
    hide *;
    if k == 0 {
      StcfStart(procs);
      RunStep(STCF, procs, 0);
    } else {
      StcfRun(procs, k - 1);
      RunHolds(STCF, procs, k - 1);
      RunTracks(STCF, procs, k - 1);
      RunStep(STCF, procs, k - 1);
      if !Done(Run(STCF, procs, k - 1)) { StcfIteration(procs, Run(STCF, procs, k - 1)); }
    }
  }

  lemma StcfStart(procs: seq<Record>)
    requires ValidPolicy(STCF) && Workload(procs)
    ensures SoFarShortest(procs, Initial(STCF, procs))
  {
  }

  lemma StcfIteration(procs: seq<Record>, s: Sim)
    requires Workload(procs) && Inv(s) && !Done(s) && s.policy == STCF
    requires Tracks(procs, s) && SoFarShortest(procs, s)
    ensures SoFarShortest(procs, Step(s))
  {
    assert RunsShortest(s) && Schedules.ShortestFirst(Jobs(procs), s.cpu);
    assert RunsShortest(Step(s)) && Schedules.ShortestFirst(Jobs(procs), Step(s).cpu) ==> SoFarShortest(procs, Step(s));
    hide *;
    StepRunsShortest(s);
    StepTracks(procs, s);
    StepKeeps(s);
    StcfPlanGrows(procs, s, Step(s));
  }

  lemma StcfPlanGrows(procs: seq<Record>, s: Sim, r: Sim)
    requires Workload(procs) && Tracks(procs, s) && Tracks(procs, r)
    requires Schedules.ShortestFirst(Jobs(procs), s.cpu)
    requires Ended(s, r) || (Ticked(s, r, LastSlot(r)) && ServesLeast(s, LastSlot(r)))
    ensures Schedules.ShortestFirst(Jobs(procs), r.cpu)
  {
    if !Ended(s, r) {
      var slot := LastSlot(r);
      hide Schedules.WorkConserving, Schedules.WorkLeft, Schedules.ShortestFirst, Advance, Ended;
      Schedules.ExtendShortest(Jobs(procs), s.cpu, slot);
    }
  }

  /** At every time t, no other schedule of the workload has fewer processes in the system. */
  lemma StcfFewestUnfinished(procs: seq<Record>, other: seq<Slot>, t: nat)
    requires Workload(procs) && Schedules.Legal(Jobs(procs), other)
    ensures |Schedules.PendingSet(Jobs(procs), Final(STCF, procs).cpu, t)|
         <= |Schedules.PendingSet(Jobs(procs), other, t)|
  {
    StcfIsShortestFirst(procs);
    Schedules.FewestPending(Jobs(procs), Final(STCF, procs).cpu, other, t);
  }

  lemma StcfIsShortestFirst(procs: seq<Record>)
    requires Workload(procs)
    ensures Schedules.ShortestFirst(Jobs(procs), Final(STCF, procs).cpu)
    ensures Schedules.Finishes(Jobs(procs), Final(STCF, procs).cpu)
  {
    assert ValidPolicy(STCF);
    hide *;
    FinalRun(STCF, procs);
    StcfRun(procs, RunLength(procs));
    SoFar(procs, Final(STCF, procs));
    FinalFinishes(STCF, procs);
  }

  lemma SoFar(procs: seq<Record>, s: Sim)
    requires SoFarShortest(procs, s)
    ensures Schedules.ShortestFirst(Jobs(procs), s.cpu)
  {
  }

  lemma FinalFinishes(policy: Policy, procs: seq<Record>)
    requires ValidPolicy(policy) && Workload(procs)
    ensures Schedules.Finishes(Jobs(procs), Final(policy, procs).cpu)
  {
    FinalFacts(policy, procs);
    EveryRunEnds(policy, procs);
    hide Final, HooksHold, Schedules.WorkLeft, Schedules.WorkConserving;
  }

  function Turnarounds(s: Sim): seq<int> {
    seq(|s.procs|, i requires 0 <= i < |s.procs| => s.procs[i].turnaround)
  }

  function Waitings(s: Sim): seq<int> {
    seq(|s.procs|, i requires 0 <= i < |s.procs| => s.procs[i].waiting)
  }

  /** Dispatch ticks of the processes without work. */
  function EmptyBursts(procs: seq<Record>): seq<int> {
    seq(|procs|, i requires 0 <= i < |procs| => if procs[i].burst == 0 then 1 else 0)
  }

  function Bursts(procs: seq<Record>): seq<int> {
    seq(|procs|, i requires 0 <= i < |procs| => procs[i].burst)
  }

  /** Total turnaround time of a run, as the total time spent in the system. */
  lemma TotalTurnaround(policy: Policy, procs: seq<Record>)
    requires ValidPolicy(policy) && Workload(procs)
    ensures var f := Final(policy, procs);
      && Sum(Turnarounds(f)) + Sum(EmptyBursts(procs)) == Sum(Schedules.TimeInSystem(Jobs(procs), f.cpu, |f.cpu|))
      && Sum(Turnarounds(f)) == Sum(Waitings(f)) + Sum(Bursts(procs))
  {
    var f := Final(policy, procs);
    FinalFacts(policy, procs);
    EveryRunEnds(policy, procs);
    FinalRun(policy, procs);
    TurnaroundIsTimeInSystem(policy, procs, RunLength(procs));
    forall i: nat | i < |procs| ensures f.procs[i].turnaround == f.procs[i].waiting + procs[i].burst {
      MetricsCountTicks(policy, procs, i);
    }
    TotalsAgree(procs, f);
    hide *;
  }

  lemma TotalsAgree(procs: seq<Record>, f: Sim)
    requires Workload(procs) && Tracks(procs, f) && TimesMatch(procs, f)
    requires forall i :: 0 <= i < |procs| ==> f.procs[i].phase.Finished?
    requires forall i: nat :: i < |procs| ==> f.procs[i].turnaround == f.procs[i].waiting + procs[i].burst
    ensures Sum(Turnarounds(f)) + Sum(EmptyBursts(procs)) == Sum(Schedules.TimeInSystem(Jobs(procs), f.cpu, |f.cpu|))
    ensures Sum(Turnarounds(f)) == Sum(Waitings(f)) + Sum(Bursts(procs))
  {
    hide Schedules.WorkConserving, Schedules.TimeInSystem, Schedules.WorkLeft, Sum;
    SumOfSums(Turnarounds(f), EmptyBursts(procs), Schedules.TimeInSystem(Jobs(procs), f.cpu, |f.cpu|));
    SumOfSums(Waitings(f), Bursts(procs), Turnarounds(f));
  }

  /** Against any schedule at all: the total time its jobs are in the system until the clock at which
      every run ends is at least STCF's total turnaround time plus one tick for each empty burst. */
  lemma StcfLeastTotalTime(procs: seq<Record>, other: seq<Slot>)
    requires Workload(procs) && Schedules.Legal(Jobs(procs), other)
    ensures var f := Final(STCF, procs);
      Sum(Turnarounds(f)) + Sum(EmptyBursts(procs)) <= Sum(Schedules.TimeInSystem(Jobs(procs), other, |f.cpu|))
  {
    assert ValidPolicy(STCF);
    hide *;
    TotalTurnaround(STCF, procs);
    StcfIsShortestFirst(procs);
    var f := Final(STCF, procs);
    Schedules.LeastTotalTime(Jobs(procs), f.cpu, other, |f.cpu|);
  }

  /** Against every other policy of the simulator: STCF has the least total turnaround time and the
      least total waiting time, hence the least averages. */
  lemma StcfLeastTurnaround(policy: Policy, procs: seq<Record>)
    requires ValidPolicy(policy) && Workload(procs)
    ensures Sum(Turnarounds(Final(STCF, procs))) <= Sum(Turnarounds(Final(policy, procs)))
    ensures Sum(Waitings(Final(STCF, procs))) <= Sum(Waitings(Final(policy, procs)))
  {
    assert ValidPolicy(STCF);
    hide *;
    TotalTurnaround(STCF, procs);
    TotalTurnaround(policy, procs);
    SameFinalClock(STCF, policy, procs);
    FinalIsLegal(policy, procs);
    StcfLeastTotalTime(procs, Final(policy, procs).cpu);
  }

  lemma FinalIsLegal(policy: Policy, procs: seq<Record>)
    requires ValidPolicy(policy) && Workload(procs)
    ensures Schedules.Legal(Jobs(procs), Final(policy, procs).cpu)
  {
    FinalFacts(policy, procs);
    hide Final;
  }
}
