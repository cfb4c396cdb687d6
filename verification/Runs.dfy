/** Whole runs of the simulator under any policy: the engine executes a work-conserving schedule,
    every run ends in time, all policies end at the same time, and the recorded metrics count what
    they claim to count. */
module Runs {
  import opened Basics
  import opened Processes
  import opened Model
  import opened Engine
  import Schedules

  /** The state after k iterations of the loop, starting from a workload. */
  function Run(policy: Policy, procs: seq<Record>, k: nat): (s: Sim)
    requires ValidPolicy(policy) && Workload(procs)
    ensures Shape(s) && |s.procs| == |procs| && s.policy == policy
  {
    At(Initial(policy, procs), k)
  }

  lemma RunStep(policy: Policy, procs: seq<Record>, k: nat)
    requires ValidPolicy(policy) && Workload(procs)
    ensures Run(policy, procs, 0) == Initial(policy, procs)
    ensures Run(policy, procs, k + 1) ==
      if Done(Run(policy, procs, k)) then Run(policy, procs, k) else Step(Run(policy, procs, k))
  {
    hide Step, Shape, Workload;
    assert Run(policy, procs, k + 1) == Iteration(Initial(policy, procs), k + 1);
  }

  /** The work-related view of a workload: a process without work still takes one tick. */
  function Jobs(procs: seq<Record>): (jobs: seq<Schedules.Job>)
    ensures |jobs| == |procs|
    ensures forall i :: 0 <= i < |procs| ==>
      jobs[i].arrival == procs[i].arrival && jobs[i].work == Max(1, procs[i].burst)
  {
    seq(|procs|, i requires 0 <= i < |procs| => Schedules.Job(procs[i].arrival, Max(1, procs[i].burst)))
  }

  lemma InitialHolds(policy: Policy, procs: seq<Record>)
    requires ValidPolicy(policy) && Workload(procs)
    ensures Inv(Initial(policy, procs))
  {
    var s := Initial(policy, procs);
    assert FinishedSet(procs) == {};
    forall i, j | 0 <= i < j < |procs| ensures procs[i].arrival <= procs[j].arrival {
      assert CompareArrival(procs[i], procs[j]) <= 0;
    }
    assert forall i: nat :: !Waits(procs, None, i);
  }

  lemma IterationHolds(s: Sim)
    requires Inv(s) && !Done(s)
    ensures Inv(Step(s))
  {
    hide *;
    StepKeeps(s);
  }

  lemma {:induction false} RunHolds(policy: Policy, procs: seq<Record>, k: nat)
    requires ValidPolicy(policy) && Workload(procs)
    ensures Inv(Run(policy, procs, k))
  {
    hide *;
    if k == 0 {
      InitialHolds(policy, procs);
      RunStep(policy, procs, 0);
    } else {
      RunHolds(policy, procs, k - 1);
      RunStep(policy, procs, k - 1);
      if !Done(Run(policy, procs, k - 1)) { IterationHolds(Run(policy, procs, k - 1)); }
    }
  }

  // ---------- the schedule a run executes ----------

  ghost predicate SameInputs(p: Record, q: Record) {
    p.pid == q.pid && p.arrival == q.arrival && p.burst == q.burst
  }

  /** What the engine did so far is a work-conserving schedule of the workload, the work left in it
      is what the process records say, and the clock only ran while there was work left. */
  ghost predicate Tracks(procs: seq<Record>, s: Sim)
  {
    var jobs := Jobs(procs);
    && |s.procs| == |procs| && s.now == |s.cpu|
    && (forall i :: 0 <= i < |procs| ==> SameInputs(s.procs[i], procs[i]))
    && Schedules.WorkConserving(jobs, s.cpu)
    && (forall i :: 0 <= i < |procs| ==> Left(s.procs[i]) == Schedules.WorkLeft(jobs, s.cpu, |s.cpu|)[i])
    && (forall t: nat :: t < |s.cpu| ==> 0 < Sum(Schedules.WorkLeft(jobs, s.cpu, t)))
  }

  lemma AdvanceWork(p: Record, i: nat, next: nat, running: Slot, now: int, chosen: bool)
    requires ProcOk(p, i, next, running) && (p.phase.Running? ==> 0 < p.burst)
    requires chosen ==> p.arrival <= now && 0 < Left(p)
    ensures var r := Advance(p, now, chosen);
      SameInputs(r, p) && Left(r) == Left(p) - if chosen then 1 else 0
  {
  }

  /** While the run does not end, somebody has work left. */
  lemma WorkRemains(s: Sim) returns (i: nat)
    requires Inv(s) && !Done(s) && Complete(s).completed != |s.procs|
    ensures i < |s.procs| && 0 < Left(s.procs[i])
  {
    var c := Complete(s);
    CompleteKeeps(s);
    DoneMeansAllFinished(c);
    hide HooksHold;
    i :| i < |c.procs| && !c.procs[i].phase.Finished?;
    assert ProcOk(s.procs[i], i, s.next, s.running);
  }

  lemma StepTracks(procs: seq<Record>, s: Sim)
    requires Inv(s) && !Done(s) && Tracks(procs, s)
    ensures Tracks(procs, Step(s))
  {
    StepKeeps(s);
    if Complete(s).completed == |s.procs| {
      CompleteKeeps(s);
      hide Step, HooksHold, Complete;
    } else {
      var i := WorkRemains(s);
      TickTracks(procs, s, Step(s), LastSlot(Step(s)), i);
      hide Step, Inv, Complete;
    }
  }

  lemma InputsOverTick(procs: seq<Record>, s: Sim, r: Sim, slot: Slot, i: nat)
    requires Inv(s) && Tracks(procs, s) && Ticked(s, r, slot) && i < |procs|
    ensures SameInputs(r.procs[i], procs[i])
    ensures Left(r.procs[i]) == Left(s.procs[i]) - if slot == Some(i) then 1 else 0
  {
    hide HooksHold, Schedules.WorkLeft, Schedules.WorkConserving, Advance, Left;
    AdvanceWork(s.procs[i], i, s.next, s.running, s.now, slot == Some(i));
    SameWork(r.procs[i], Advance(s.procs[i], s.now, slot == Some(i)));
  }

  lemma SameWork(p: Record, q: Record)
    requires SameCore(p, q)
    ensures SameInputs(p, q) && Left(p) == Left(q)
  {
  }

  lemma DueIsPending(procs: seq<Record>, s: Sim)
    requires Tracks(procs, s)
    ensures forall i: nat :: i < |procs| ==>
      Schedules.Pending(Jobs(procs), s.cpu, |s.cpu|, i) == (s.procs[i].arrival <= s.now && 0 < Left(s.procs[i]))
  {
    hide Schedules.WorkLeft, Schedules.WorkConserving, Left;
  }

  lemma StillWork(procs: seq<Record>, s: Sim, slot: Slot, w: nat, t: nat)
    requires Inv(s) && Tracks(procs, s) && w < |s.procs| && 0 < Left(s.procs[w]) && t <= |s.cpu|
    ensures 0 < Sum(Schedules.WorkLeft(Jobs(procs), s.cpu + [slot], t))
  {
    var left := Schedules.WorkLeft(Jobs(procs), s.cpu, |s.cpu|);
    assert forall i :: 0 <= i < |left| ==> left[i] == Left(s.procs[i]) >= 0;
    hide Inv, Schedules.WorkLeft, Schedules.WorkConserving, Left, Sum;
    Schedules.WorkLeftOfPrefix(Jobs(procs), s.cpu, slot, t);
    if t == |s.cpu| { SumBounds(left); }
  }

  /** The tick extends the schedule, and takes one unit of work off the process it is given to. */
  lemma PlanOverTick(procs: seq<Record>, s: Sim, r: Sim, slot: Slot)
    requires Tracks(procs, s) && Ticked(s, r, slot)
    ensures Schedules.WorkConserving(Jobs(procs), r.cpu) && r.cpu == s.cpu + [slot]
    ensures Schedules.WorkLeft(Jobs(procs), r.cpu, |r.cpu|) ==
            Schedules.Serve(Schedules.WorkLeft(Jobs(procs), s.cpu, |s.cpu|), slot)
  {
    hide Schedules.WorkLeft, Schedules.WorkConserving, Schedules.Pending, Left, Advance, Schedules.Serve, Sum;
    DueIsPending(procs, s);
    Schedules.ExtendConserving(Jobs(procs), s.cpu, slot);
    Schedules.WorkLeftExtended(Jobs(procs), s.cpu, slot);
  }

  lemma LeftMatchesPlan(procs: seq<Record>, s: Sim, r: Sim, slot: Slot, i: nat)
    requires Inv(s) && Tracks(procs, s) && Ticked(s, r, slot) && i < |procs|
    ensures SameInputs(r.procs[i], procs[i])
    ensures Left(r.procs[i]) == Schedules.Serve(Schedules.WorkLeft(Jobs(procs), s.cpu, |s.cpu|), slot)[i]
  {
    InputsOverTick(procs, s, r, slot, i);
    assert slot == Some(i) ==> 0 < Left(s.procs[i]);
    hide Inv, Schedules.WorkLeft, Schedules.WorkConserving, Left, Advance, Sum;
  }

  lemma NowTracks(procs: seq<Record>, r: Sim)
    requires |r.procs| == |procs| && r.now == |r.cpu| && Schedules.WorkConserving(Jobs(procs), r.cpu)
    requires forall i: nat :: i < |procs| ==> SameInputs(r.procs[i], procs[i])
    requires forall i: nat :: i < |procs| ==> Left(r.procs[i]) == Schedules.WorkLeft(Jobs(procs), r.cpu, |r.cpu|)[i]
    requires forall t: nat :: t < |r.cpu| ==> 0 < Sum(Schedules.WorkLeft(Jobs(procs), r.cpu, t))
    ensures Tracks(procs, r)
  {
    hide Schedules.WorkLeft, Schedules.WorkConserving, Left, Sum, SameInputs;
  }

  lemma TickTracks(procs: seq<Record>, s: Sim, r: Sim, slot: Slot, w: nat)
    requires Inv(s) && Tracks(procs, s) && Ticked(s, r, slot)
    requires w < |s.procs| && 0 < Left(s.procs[w])
    ensures Tracks(procs, r)
  {
    assert |r.procs| == |s.procs| == |procs| && r.now == |r.cpu|;
    hide *;
    PlanOverTick(procs, s, r, slot);
    forall t: nat | t < |r.cpu| ensures 0 < Sum(Schedules.WorkLeft(Jobs(procs), r.cpu, t)) {
      StillWork(procs, s, slot, w, t);
    }
    forall i: nat | i < |procs|
      ensures SameInputs(r.procs[i], procs[i])
      ensures Left(r.procs[i]) == Schedules.WorkLeft(Jobs(procs), r.cpu, |r.cpu|)[i]
    {
      LeftMatchesPlan(procs, s, r, slot, i);
    }
    NowTracks(procs, r);
  }

  lemma TracksAtStart(policy: Policy, procs: seq<Record>)
    requires ValidPolicy(policy) && Workload(procs)
    ensures Tracks(procs, Initial(policy, procs))
  {
  }

  lemma {:induction false} RunTracks(policy: Policy, procs: seq<Record>, k: nat)
    requires ValidPolicy(policy) && Workload(procs)
    ensures Tracks(procs, Run(policy, procs, k))
  {
    hide *;
    if k == 0 {
      TracksAtStart(policy, procs);
      RunStep(policy, procs, 0);
    } else {
      RunTracks(policy, procs, k - 1);
      RunHolds(policy, procs, k - 1);
      RunStep(policy, procs, k - 1);
      if !Done(Run(policy, procs, k - 1)) { StepTracks(procs, Run(policy, procs, k - 1)); }
    }
  }

  // ---------- every run ends ----------

  function LastArrival(procs: seq<Record>): int {
    if procs == [] then 0 else procs[|procs| - 1].arrival
  }

  function EffectiveWork(procs: seq<Record>): seq<int> {
    seq(|procs|, i requires 0 <= i < |procs| => Max(1, procs[i].burst))
  }

  ghost predicate ArriveTogether(procs: seq<Record>) {
    forall i :: 0 <= i < |procs| ==> procs[i].arrival == procs[0].arrival
  }

  /** Latest possible value of the clock: the last arrival plus all the work there is. */
  function Horizon(procs: seq<Record>): int {
    LastArrival(procs) + Sum(EffectiveWork(procs))
  }

  lemma HorizonNatural(procs: seq<Record>)
    requires Workload(procs)
    ensures 0 <= LastArrival(procs) <= Horizon(procs)
  {
    SumBounds(EffectiveWork(procs));
  }

  lemma NothingLeft(procs: seq<Record>, s: Sim)
    requires Workload(procs) && Inv(s) && Tracks(procs, s) && Done(s)
    ensures Sum(Schedules.WorkLeft(Jobs(procs), s.cpu, |s.cpu|)) == 0
  {
    hide HooksHold;
    DoneMeansAllFinished(s);
    SumOfZeros(Schedules.WorkLeft(Jobs(procs), s.cpu, |s.cpu|));
  }

  lemma WorkAtStart(procs: seq<Record>, plan: seq<Slot>)
    ensures Schedules.WorkLeft(Jobs(procs), plan, 0) == EffectiveWork(procs)
  {
  }

  lemma TracksInTime(procs: seq<Record>, s: Sim)
    requires Workload(procs) && Tracks(procs, s)
    ensures s.now <= Horizon(procs)
  {
    hide Schedules.WorkConserving, Schedules.WorkLeft, Sum;
    var jobs := Jobs(procs);
    HorizonNatural(procs);
    forall i | 0 <= i < |jobs| ensures jobs[i].arrival <= LastArrival(procs) {
      assert i < |procs| - 1 ==> CompareArrival(procs[i], procs[|procs| - 1]) <= 0;
    }
    WorkAtStart(procs, s.cpu);
    Schedules.ClockBound(jobs, s.cpu, LastArrival(procs), |s.cpu|);
    SumBounds(Schedules.WorkLeft(jobs, s.cpu, |s.cpu|));
  }

  lemma ClockOverIteration(s: Sim)
    requires Inv(s) && !Done(s) && !Done(Step(s))
    ensures Step(s).now == s.now + 1
  {
    StepKeeps(s);
    hide Inv, Step;
  }

  lemma ClockAtStart(policy: Policy, procs: seq<Record>)
    requires ValidPolicy(policy) && Workload(procs)
    ensures Initial(policy, procs).now == 0
  {
  }

  /** Until the run is over, every iteration moves the clock by exactly one. */
  lemma {:induction false} ClockWhileRunning(policy: Policy, procs: seq<Record>, k: nat)
    requires ValidPolicy(policy) && Workload(procs) && !Done(Run(policy, procs, k))
    ensures Run(policy, procs, k).now == k
  {
    hide *;
    if k == 0 {
      RunStep(policy, procs, 0);
      ClockAtStart(policy, procs);
    } else {
      RunStep(policy, procs, k - 1);
      ClockWhileRunning(policy, procs, k - 1);
      RunHolds(policy, procs, k - 1);
      ClockOverIteration(Run(policy, procs, k - 1));
    }
  }

  function RunLength(procs: seq<Record>): nat {
    Max(0, Horizon(procs)) + 1
  }

  function Final(policy: Policy, procs: seq<Record>): (s: Sim)
    requires ValidPolicy(policy) && Workload(procs)
    ensures Shape(s) && |s.procs| == |procs| && s.policy == policy
  {
    Run(policy, procs, RunLength(procs))
  }

  lemma FinalRun(policy: Policy, procs: seq<Record>)
    requires ValidPolicy(policy) && Workload(procs)
    ensures Final(policy, procs) == Run(policy, procs, RunLength(procs))
  {
  }

  /** Every run under every policy ends, with a clock of at most the last arrival plus all the work. */
  lemma EveryRunEnds(policy: Policy, procs: seq<Record>)
    requires ValidPolicy(policy) && Workload(procs)
    ensures Done(Final(policy, procs)) && Final(policy, procs).now <= Horizon(procs)
    ensures forall i :: 0 <= i < |procs| ==> Final(policy, procs).procs[i].phase.Finished?
  {
    var k := RunLength(procs);
    RunHolds(policy, procs, k);
    RunTracks(policy, procs, k);
    TracksInTime(procs, Run(policy, procs, k));
    if !Done(Run(policy, procs, k)) { ClockWhileRunning(policy, procs, k); }
    DoneMeansAllFinished(Final(policy, procs));
    hide Inv, At;
  }

  lemma {:induction false} StaysDone(policy: Policy, procs: seq<Record>, j: nat, k: nat)
    requires ValidPolicy(policy) && Workload(procs) && j <= k && Done(Run(policy, procs, j))
    ensures Run(policy, procs, k) == Run(policy, procs, j)
    decreases k
  {
    hide *;
    if j < k {
      StaysDone(policy, procs, j, k - 1);
      RunStep(policy, procs, k - 1);
    }
  }

  /** However long the loop is allowed to go on, it stops in the final state. */
  lemma DoneIsFinal(policy: Policy, procs: seq<Record>, k: nat)
    requires ValidPolicy(policy) && Workload(procs) && Done(Run(policy, procs, k))
    ensures Run(policy, procs, k) == Final(policy, procs)
  {
    EveryRunEnds(policy, procs);
    var m := RunLength(procs);
    if k <= m { StaysDone(policy, procs, k, m); } else { StaysDone(policy, procs, m, k); }
  }

  /** The final clock does not depend on the policy, and neither do the ticks in which the CPU
      is given to nobody. */
  lemma SameFinalClock(p: Policy, q: Policy, procs: seq<Record>)
    requires ValidPolicy(p) && ValidPolicy(q) && Workload(procs)
    ensures var f, g := Final(p, procs), Final(q, procs);
      && f.now == g.now && |f.cpu| == |g.cpu| == f.now
      && forall t: nat :: t < |f.cpu| ==> (f.cpu[t].None? <==> g.cpu[t].None?)
  {
    NotLater(p, q, procs);
    NotLater(q, p, procs);
    var f, g := Final(p, procs), Final(q, procs);
    FinalFacts(p, procs);
    FinalFacts(q, procs);
    forall t: nat | t < |f.cpu| ensures f.cpu[t].None? <==> g.cpu[t].None? {
      Schedules.SameBacklog(Jobs(procs), f.cpu, g.cpu, t);
    }
  }

  lemma FinalFacts(policy: Policy, procs: seq<Record>)
    requires ValidPolicy(policy) && Workload(procs)
    ensures var f := Final(policy, procs);
      Inv(f) && Done(f) && Tracks(procs, f) && f.policy == policy
  {
    var k := RunLength(procs);
    EveryRunEnds(policy, procs);
    RunHolds(policy, procs, k);
    RunTracks(policy, procs, k);
    hide Run, Inv, Tracks;
  }

  lemma NotLater(p: Policy, q: Policy, procs: seq<Record>)
    requires ValidPolicy(p) && ValidPolicy(q) && Workload(procs)
    ensures Final(p, procs).now <= Final(q, procs).now
  {
    var f, g := Final(p, procs), Final(q, procs);
    FinalFacts(p, procs);
    FinalFacts(q, procs);
    NothingLeft(procs, g);
    if g.now < f.now {
      Schedules.SameBacklog(Jobs(procs), f.cpu, g.cpu, g.now);
    }
  }

  // ---------- before the first arrival ----------

  /** Up to the first arrival nobody is there and nothing has happened. */
  lemma NobodyYet(s: Sim)
    requires Inv(s) && s.procs != [] && s.now <= s.procs[0].arrival
    ensures s.next == 0 && s.running == None && !Done(s) && Complete(s).completed != |s.procs|
    ensures forall i :: 0 <= i < |s.procs| ==>
      s.procs[i].phase.NotArrived? && s.now <= s.procs[i].arrival && s.procs[i].remaining == s.procs[i].burst && s.procs[i].start == -1
  {
    DoneMeansAllFinished(s);
    assert forall i :: 0 <= i < |s.procs| ==> ProcOk(s.procs[i], i, s.next, s.running);
    hide HooksHold;
  }

  lemma NobodyServedYet(s: Sim, r: Sim, slot: Slot)
    requires Inv(s) && s.procs != [] && s.now < s.procs[0].arrival && Ticked(s, r, slot)
    ensures slot == None && r.now == s.now + 1 && r.cpu == s.cpu + [None] && r.log == s.log + ["-"]
  {
    hide HooksHold, Shape;
  }

  lemma InputsStay(procs: seq<Record>, s: Sim)
    requires Tracks(procs, s)
    ensures |s.procs| == |procs|
    ensures forall i :: 0 <= i < |procs| ==>
      s.procs[i].pid == procs[i].pid && s.procs[i].arrival == procs[i].arrival && s.procs[i].burst == procs[i].burst
  {
    hide Schedules.WorkConserving, Schedules.WorkLeft;
  }

  lemma NothingAtStart(policy: Policy, procs: seq<Record>)
    requires ValidPolicy(policy) && Workload(procs)
    ensures var s := Initial(policy, procs); s.now == 0 && s.cpu == [] && s.log == []
  {
  }

  /** The CPU idles until the first process arrives, under every policy. */
  lemma {:induction false} IdleUntilFirst(policy: Policy, procs: seq<Record>, k: nat)
    requires ValidPolicy(policy) && Workload(procs) && procs != [] && k <= procs[0].arrival
    ensures var s := Run(policy, procs, k);
      s.now == k && s.cpu == Repeated(None, k) && s.log == Repeated("-", k)
  {
    hide *;
    if k == 0 {
      RunStep(policy, procs, 0);
      NothingAtStart(policy, procs);
      OneMoreRepeated<Slot>(None, 0);
      OneMoreRepeated("-", 0);
    } else {
      IdleUntilFirst(policy, procs, k - 1);
      var s := Run(policy, procs, k - 1);
      RunHolds(policy, procs, k - 1);
      RunTracks(policy, procs, k - 1);
      RunStep(policy, procs, k - 1);
      InputsStay(procs, s);
      NobodyYet(s);
      StepKeeps(s);
      NobodyServedYet(s, Step(s), LastSlot(Step(s)));
      OneMoreRepeated<Slot>(None, k - 1);
      OneMoreRepeated("-", k - 1);
    }
  }

  /** The state in which the first process is due. */
  lemma FirstIsDue(policy: Policy, procs: seq<Record>) returns (s: Sim)
    requires ValidPolicy(policy) && Workload(procs) && procs != []
    ensures 0 <= procs[0].arrival && s == Run(policy, procs, procs[0].arrival) && Inv(s) && s.policy == policy
    ensures s.now == procs[0].arrival && |s.procs| == |procs|
    ensures s.cpu == Repeated(None, procs[0].arrival) && s.log == Repeated("-", procs[0].arrival)
    ensures forall i :: 0 <= i < |procs| ==>
      s.procs[i].pid == procs[i].pid && s.procs[i].arrival == procs[i].arrival && s.procs[i].burst == procs[i].burst
  {
    var t := procs[0].arrival;
    assert 0 <= t;
    s := Run(policy, procs, t);
    assert s.policy == policy;
    hide *;
    IdleUntilFirst(policy, procs, t);
    RunHolds(policy, procs, t);
    RunTracks(policy, procs, t);
    InputsStay(procs, s);
  }
}
