/** The metrics of a run are what they are documented to be: they count ticks of the run itself. */
module Accounting {
  import opened Basics
  import opened Processes
  import opened Model
  import opened Engine
  import opened Runs
  import Schedules

  /** Number of ticks, up to iteration k, that process i spent in the READY state. */
  function ReadyTicks(policy: Policy, procs: seq<Record>, i: nat, k: nat): nat
    requires ValidPolicy(policy) && Workload(procs) && i < |procs|
  {
    if k == 0 then 0
    else ReadyTicks(policy, procs, i, k - 1) + if Run(policy, procs, k).procs[i].phase.Ready? then 1 else 0
  }

  /** The books of one process at time `now`, after `served` ticks of CPU and `ready` ticks READY. */
  ghost predicate Ledger(p: Record, now: int, served: int, ready: int) {
    match p.phase
    case NotArrived => served == 0 && ready == 0
    case Finished =>
      && p.arrival <= p.start <= p.finish <= now && p.burst <= p.finish - p.start
      && served == Max(1, p.burst)
      && p.turnaround == p.finish - p.arrival
      && p.waiting == p.turnaround - p.burst == ready
      && p.response == p.start - p.arrival
    case _ =>
      && served == p.burst - p.remaining
      && ready + served == now - p.arrival
      && (p.start == -1 <==> served == 0)
      && (p.start != -1 ==>
            p.arrival <= p.start && served <= now - p.start && p.response == p.start - p.arrival)
  }

  /** The recorded start is the first tick the process was given. */
  ghost predicate StartsAt(cpu: seq<Slot>, i: nat, start: int) {
    if start == -1 then forall t :: 0 <= t < |cpu| ==> cpu[t] != Some(i)
    else
      && 0 <= start < |cpu| && cpu[start] == Some(i)
      && forall t :: 0 <= t < start ==> cpu[t] != Some(i)
  }

  lemma LedgerOverStep(p: Record, i: nat, next: nat, running: Slot, now: int, chosen: bool, served: int, ready: int)
    requires ProcOk(p, i, next, running) && (p.phase.Running? ==> 0 < p.burst)
    requires if i < next then p.arrival < now else now <= p.arrival
    requires chosen ==> p.arrival <= now && 0 < Left(p)
    requires Ledger(p, now, served, ready)
    ensures var r := Advance(p, now, chosen);
      Ledger(r, now + 1, served + if chosen then 1 else 0, ready + if r.phase.Ready? then 1 else 0)
  {
  }

  /** Everything recorded about process i so far, and the Gantt log, agree with the ticks handed out. */
  ghost predicate Books(procs: seq<Record>, s: Sim, i: nat, ready: int) {
    && i < |s.procs|
    && Ledger(s.procs[i], s.now, Count(s.cpu, Some(i)), ready)
    && StartsAt(s.cpu, i, s.procs[i].start)
    && |s.log| == |s.cpu|
    && (forall t: nat :: t < |s.cpu| ==> s.log[t] == Label(procs, s.cpu[t]))
  }

  lemma BooksAtStart(policy: Policy, procs: seq<Record>, i: nat)
    requires ValidPolicy(policy) && Workload(procs) && i < |procs|
    ensures Books(procs, Initial(policy, procs), i, 0)
  {
  }

  lemma ReadyTicksStep(policy: Policy, procs: seq<Record>, i: nat, k: nat)
    requires ValidPolicy(policy) && Workload(procs) && i < |procs|
    ensures ReadyTicks(policy, procs, i, 0) == 0
    ensures ReadyTicks(policy, procs, i, k + 1) ==
      ReadyTicks(policy, procs, i, k) + if Run(policy, procs, k + 1).procs[i].phase.Ready? then 1 else 0
  {
  }

  lemma {:induction false} BooksBalance(policy: Policy, procs: seq<Record>, i: nat, k: nat)
    requires ValidPolicy(policy) && Workload(procs) && i < |procs|
    ensures Books(procs, Run(policy, procs, k), i, ReadyTicks(policy, procs, i, k))
  {
    hide *;
    if k == 0 {
      RunStep(policy, procs, 0);
      BooksAtStart(policy, procs, i);
      ReadyTicksStep(policy, procs, i, 0);
    } else {
      BooksBalance(policy, procs, i, k - 1);
      RunHolds(policy, procs, k - 1);
      RunTracks(policy, procs, k - 1);
      RunStep(policy, procs, k - 1);
      ReadyTicksStep(policy, procs, i, k - 1);
      BooksOverIteration(procs, Run(policy, procs, k - 1), i, ReadyTicks(policy, procs, i, k - 1));
    }
  }

  lemma BooksOverIteration(procs: seq<Record>, s: Sim, i: nat, ready: nat)
    requires Workload(procs) && Inv(s) && Tracks(procs, s) && i < |s.procs|
    requires Books(procs, s, i, ready)
    ensures var r := if Done(s) then s else Step(s);
      Books(procs, r, i, ready + if r.procs[i].phase.Ready? then 1 else 0)
  {
    if Done(s) {
      hide HooksHold, Books;
      DoneMeansAllFinished(s);
    } else {
      StepKeeps(s);
      hide Step, Inv, Books, Tracks, Workload;
      if Complete(s).completed == |s.procs| {
        BooksOverEnd(procs, s, Step(s), i, ready);
      } else {
        BooksOverTick(procs, s, Step(s), LastSlot(Step(s)), i, ready);
      }
    }
  }

  lemma BooksOverEnd(procs: seq<Record>, s: Sim, r: Sim, i: nat, ready: nat)
    requires Inv(s) && Inv(r) && Ended(s, r) && Books(procs, s, i, ready)
    ensures Books(procs, r, i, ready) && !r.procs[i].phase.Ready?
  {
    hide HooksHold;
    DoneMeansAllFinished(r);
  }

  lemma BooksOverTick(procs: seq<Record>, s: Sim, r: Sim, slot: Slot, i: nat, ready: nat)
    requires Workload(procs) && Inv(s) && Tracks(procs, s) && Ticked(s, r, slot)
    requires Books(procs, s, i, ready)
    ensures Books(procs, r, i, ready + if r.procs[i].phase.Ready? then 1 else 0)
  {
    assert SameInputs(s.procs[i], procs[i]) && s.now == |s.cpu| && |s.procs| == |procs|;
    forall t: nat | t < |r.cpu| ensures r.log[t] == Label(procs, r.cpu[t]) {
      assert t < |s.cpu| ==> s.log[t] == Label(procs, s.cpu[t]);
      SameLabel(procs, s, slot);
      hide Tracks, Inv, Workload, Label, Ledger, Advance;
    }
    LedgerOfOne(procs, s, r, slot, i, ready);
    StartOfOne(s, r, slot, i);
    hide Tracks, Inv, Workload, Label, Ledger, Advance, StartsAt;
  }

  lemma SameLabel(procs: seq<Record>, s: Sim, slot: Slot)
    requires Tracks(procs, s)
    ensures Label(s.procs, slot) == Label(procs, slot)
  {
    hide Schedules.WorkConserving, Schedules.WorkLeft;
  }

  lemma LedgerOfOne(procs: seq<Record>, s: Sim, r: Sim, slot: Slot, i: nat, ready: nat)
    requires Inv(s) && Ticked(s, r, slot) && Books(procs, s, i, ready)
    ensures Ledger(r.procs[i], r.now, Count(r.cpu, Some(i)), ready + if r.procs[i].phase.Ready? then 1 else 0)
  {
    var chosen := slot == Some(i);
    assert r.cpu[..|r.cpu| - 1] == s.cpu;
    assert Count(r.cpu, Some(i)) == Count(s.cpu, Some(i)) + if chosen then 1 else 0;
    assert ProcOk(s.procs[i], i, s.next, s.running);
    assert SameCore(r.procs[i], Advance(s.procs[i], s.now, chosen));
    LedgerOverStep(s.procs[i], i, s.next, s.running, s.now, chosen, Count(s.cpu, Some(i)), ready);
    SameLedger(Advance(s.procs[i], s.now, chosen), r.procs[i], r.now, Count(r.cpu, Some(i)),
               ready + if r.procs[i].phase.Ready? then 1 else 0);
    hide HooksHold, Shape, Advance, Ledger, Count;
  }

  lemma SameLedger(p: Record, q: Record, now: int, served: int, ready: int)
    requires SameCore(q, p) && Ledger(p, now, served, ready)
    ensures Ledger(q, now, served, ready)
  {
  }

  lemma StartOfOne(s: Sim, r: Sim, slot: Slot, i: nat)
    requires Inv(s) && Ticked(s, r, slot) && i < |s.procs| && s.now == |s.cpu| && StartsAt(s.cpu, i, s.procs[i].start)
    ensures StartsAt(r.cpu, i, r.procs[i].start)
  {
    assert ProcOk(s.procs[i], i, s.next, s.running);
    StartOverAdvance(s.procs[i], i, s.next, s.running, s.now, slot == Some(i));
    hide HooksHold, Shape, Advance;
  }

  lemma StartOverAdvance(p: Record, i: nat, next: nat, running: Slot, now: int, chosen: bool)
    requires ProcOk(p, i, next, running)
    ensures Advance(p, now, chosen).start == if chosen && p.start == -1 then now else p.start
  {
  }

  /** Time accounting at the end of a run, for every process under every policy. */
  lemma MetricsCountTicks(policy: Policy, procs: seq<Record>, i: nat)
    requires ValidPolicy(policy) && Workload(procs) && i < |procs|
    ensures var f := Final(policy, procs);
      var p := f.procs[i];
      && |f.cpu| == |f.log| == f.now
      && (forall t: nat :: t < |f.log| ==> f.log[t] == Label(procs, f.cpu[t]))
      && Count(f.cpu, Some(i)) == Max(1, procs[i].burst)
      && StartsAt(f.cpu, i, p.start)
      && procs[i].arrival <= p.start <= p.finish <= f.now
      && p.response == p.start - procs[i].arrival
      && p.turnaround == p.finish - procs[i].arrival
      && p.waiting == p.turnaround - procs[i].burst
                   == ReadyTicks(policy, procs, i, RunLength(procs))
      && 0 <= p.response <= p.waiting
  {
    BooksBalance(policy, procs, i, RunLength(procs));
    EveryRunEnds(policy, procs);
    FinalFacts(policy, procs);
    FinalBooks(procs, Final(policy, procs), i, ReadyTicks(policy, procs, i, RunLength(procs)));
    hide *;
  }

  lemma FinalBooks(procs: seq<Record>, f: Sim, i: nat, ready: nat)
    requires Workload(procs) && Tracks(procs, f) && Books(procs, f, i, ready) && f.procs[i].phase.Finished?
    ensures var p := f.procs[i];
      && |f.cpu| == |f.log| == f.now
      && (forall t: nat :: t < |f.log| ==> f.log[t] == Label(procs, f.cpu[t]))
      && Count(f.cpu, Some(i)) == Max(1, procs[i].burst)
      && StartsAt(f.cpu, i, p.start)
      && procs[i].arrival <= p.start <= p.finish <= f.now
      && p.response == p.start - procs[i].arrival
      && p.turnaround == p.finish - procs[i].arrival
      && p.waiting == p.turnaround - procs[i].burst == ready
      && 0 <= p.response <= p.waiting
  {
    hide Schedules.WorkConserving, Schedules.WorkLeft, StartsAt, Count;
  }

  // ---------- turnaround as time in the system ----------

  /** The turnaround time so far; a process without work is in the system for its dispatch tick as well. */
  ghost predicate TimeIsTurnaround(p: Record, now: int, time: int) {
    match p.phase
    case NotArrived => time == 0
    case Finished => time == p.turnaround + if p.burst == 0 then 1 else 0
    case _ => time == now - p.arrival
  }

  lemma TimeOverStep(p: Record, i: nat, next: nat, running: Slot, now: int, chosen: bool, time: int)
    requires ProcOk(p, i, next, running) && (p.phase.Running? ==> 0 < p.burst)
    requires if i < next then p.arrival < now else now <= p.arrival
    requires chosen ==> p.arrival <= now && 0 < Left(p)
    requires TimeIsTurnaround(p, now, time)
    ensures TimeIsTurnaround(Advance(p, now, chosen), now + 1,
                             time + if p.arrival <= now && 0 < Left(p) then 1 else 0)
  {
  }

  ghost predicate TimesMatch(procs: seq<Record>, s: Sim)
    requires Workload(procs)
  {
    && |s.procs| == |procs|
    && forall i :: 0 <= i < |procs| ==>
         TimeIsTurnaround(s.procs[i], s.now, Schedules.TimeInSystem(Jobs(procs), s.cpu, |s.cpu|)[i])
  }

  lemma TimesOverTick(procs: seq<Record>, s: Sim, r: Sim, slot: Slot)
    requires Workload(procs) && Inv(s) && Tracks(procs, s) && Ticked(s, r, slot) && TimesMatch(procs, s)
    ensures TimesMatch(procs, r)
  {
    hide HooksHold, Schedules.WorkConserving, Schedules.WorkLeft, Advance;
    var jobs := Jobs(procs);
    Schedules.TimeOfPrefix(jobs, s.cpu, slot, |s.cpu| + 1);
    forall i: nat | i < |procs|
      ensures TimeIsTurnaround(r.procs[i], r.now, Schedules.TimeInSystem(jobs, r.cpu, |r.cpu|)[i])
    {
      TimeOverStep(s.procs[i], i, s.next, s.running, s.now, slot == Some(i), Schedules.TimeInSystem(jobs, s.cpu, |s.cpu|)[i]);
    }
  }

  lemma TimesOverIteration(procs: seq<Record>, s: Sim)
    requires Workload(procs) && Inv(s) && Tracks(procs, s) && TimesMatch(procs, s) && !Done(s)
    ensures TimesMatch(procs, Step(s))
  {
    StepKeeps(s);
    if Complete(s).completed == |s.procs| {
      CompleteKeeps(s);
      hide Step, Complete, HooksHold, Schedules.WorkConserving, Schedules.TimeInSystem;
    } else {
      hide Step, Inv, Tracks, TimesMatch;
      TimesOverTick(procs, s, Step(s), LastSlot(Step(s)));
    }
  }

  lemma TimesAtStart(policy: Policy, procs: seq<Record>)
    requires ValidPolicy(policy) && Workload(procs)
    ensures TimesMatch(procs, Initial(policy, procs))
  {
  }

  lemma {:induction false} TurnaroundIsTimeInSystem(policy: Policy, procs: seq<Record>, k: nat)
    requires ValidPolicy(policy) && Workload(procs)
    ensures TimesMatch(procs, Run(policy, procs, k))
  {
    hide *;
    if k == 0 {
      TimesAtStart(policy, procs);
      RunStep(policy, procs, 0);
    } else {
      TurnaroundIsTimeInSystem(policy, procs, k - 1);
      RunHolds(policy, procs, k - 1);
      RunTracks(policy, procs, k - 1);
      RunStep(policy, procs, k - 1);
      if !Done(Run(policy, procs, k - 1)) { TimesOverIteration(procs, Run(policy, procs, k - 1)); }
    }
  }
}
