/** Degenerate cases in which two policies coincide: the whole trace, the switch counter and every
    recorded metric are the same. */
module Coincidence {
  import opened Basics
  import opened Processes
  import opened Model
  import opened Engine
  import opened Runs
  import opened Scanning
  import opened RoundRobin
  import Fcfs
  import Mlfq
  import Stcf

  /** Equal except for the private state of the policies. */
  ghost predicate SameRun(s: Sim, t: Sim) {
    && |s.procs| == |t.procs| && (forall i :: 0 <= i < |s.procs| ==> SameCore(t.procs[i], s.procs[i]))
    && t.now == s.now && t.next == s.next && t.running == s.running && t.completed == s.completed
    && t.switches == s.switches && t.cpu == s.cpu && t.log == s.log
  }

  /** The engine's own indices are determined by the phases of the processes. */
  lemma PhasesDecide(s: Sim, t: Sim)
    requires Ok(s) && Ok(t) && |s.procs| == |t.procs|
    requires forall i :: 0 <= i < |s.procs| ==> t.procs[i].phase == s.procs[i].phase
    ensures t.running == s.running && t.next == s.next && t.completed == s.completed
  {
    SameFinished(s.procs, t.procs);
    var n := |s.procs|;
    assert forall i: nat :: i < n ==> ProcOk(s.procs[i], i, s.next, s.running) && ProcOk(t.procs[i], i, t.next, t.running);
    assert s.next <= n && t.next <= n;
    hide Ok;
    if s.next < n { assert s.procs[s.next].phase.NotArrived?; }
    if t.next < n { assert t.procs[t.next].phase.NotArrived?; }
    assert s.running.Some? ==> s.procs[s.running.value].phase.Running?;
    assert t.running.Some? ==> t.procs[t.running.value].phase.Running?;
  }

  lemma SameAdvance(p: Record, q: Record, now: int, chosen: bool)
    requires SameCore(q, p)
    ensures SameCore(Advance(q, now, chosen), Advance(p, now, chosen))
  {
  }

  lemma SameTick(s: Sim, t: Sim, s': Sim, t': Sim, slot: Slot)
    requires Inv(s) && Inv(t) && SameRun(s, t) && Ticked(s, s', slot) && Ticked(t, t', slot) && Inv(s') && Inv(t')
    requires s'.switches == s.switches + if Occupied(s) && slot != s.running then 1 else 0
    requires t'.switches == t.switches + if Occupied(t) && slot != t.running then 1 else 0
    ensures SameRun(s', t')
  {
    forall i: nat | i < |s.procs| ensures SameCore(t'.procs[i], s'.procs[i]) {
      SameAdvance(s.procs[i], t.procs[i], s.now, slot == Some(i));
      hide Advance, HooksHold, Inv;
    }
    hide Advance, HooksHold;
    assert Label(s.procs, slot) == Label(t.procs, slot);
    PhasesDecide(s', t');
    assert Occupied(s) == Occupied(t);
    hide Inv, Shape;
  }

  lemma SameEnd(s: Sim, t: Sim)
    requires Inv(s) && Inv(t) && SameRun(s, t)
    ensures Complete(s).completed == Complete(t).completed
    ensures SameRun(Complete(s), Complete(t))
  {
  }

  /** Two policies that hand out the next tick alike go on alike. */
  lemma SameStep(s: Sim, t: Sim)
    requires Inv(s) && Inv(t) && !Done(s) && SameRun(s, t)
    requires Complete(s).completed != |s.procs| ==> LastSlot(Step(s)) == LastSlot(Step(t))
    ensures !Done(t) && Complete(s).completed == Complete(t).completed
    ensures SameRun(Step(s), Step(t))
  {
    SameEnd(s, t);
    StepKeeps(s);
    StepKeeps(t);
    if Complete(s).completed == |s.procs| {
      LastStepEnds(s);
      LastStepEnds(t);
      hide Step, Complete, Inv;
    } else {
      SwitchesCounted(s);
      SwitchesCounted(t);
      SameTick(s, t, Step(s), Step(t), LastSlot(Step(s)));
      hide Step, Complete, Inv;
    }
  }

  // ---------- round robin with a long quantum is FCFS ----------

  ghost predicate Increasing(q: seq<nat>) {
    forall i, j :: 0 <= i < j < |q| ==> q[i] < q[j]
  }

  /** The slice outlasts what is left of the running process, and the queue is in array order. */
  ghost predicate LongSlice(t: Sim) {
    && Shape(t) && t.policy.RR?
    && (forall i :: 0 <= i < |t.procs| ==> t.procs[i].burst <= t.policy.quantum)
    && Increasing(t.hooks.queue)
    && (t.running.Some? ==> t.procs[t.running.value].remaining < t.hooks.left)
  }

  lemma QueueInOrder(t: Sim, next: nat)
    requires Inv(t) && LongSlice(t) && t.next <= next
    ensures Increasing(t.hooks.queue + Range(t.next, next))
    ensures !Occupied(t) ==> Increasing(QueueAtDispatch(t, next))
  {
    var q := t.hooks.queue;
    forall i | 0 <= i < |q| ensures q[i] < t.next {
      assert q[i] in q;
      assert ProcOk(t.procs[q[i]], q[i], t.next, t.running);
    }
    hide Inv;
  }

  /** Everybody who needs a tick now is in the queue the dispatcher sees, or runs. */
  lemma DueIsQueued(t: Sim, t': Sim, j: nat)
    requires Inv(t) && Inv(t') && t.policy.RR? && !Occupied(t) && t'.now == t.now + 1 && t.next <= t'.next
    requires |t'.procs| == |t.procs| && j < |t.procs| && t'.procs[j].arrival == t.procs[j].arrival
    requires t.procs[j].arrival <= t.now && 0 < Left(t.procs[j])
    ensures j in QueueAtDispatch(t, t'.next)
  {
    assert ProcOk(t.procs[j], j, t.next, t.running);
    RangeMembers(t.next, t'.next);
    if t.procs[j].phase.Ready? {
      assert Waits(t.procs, None, j);
      assert j in t.hooks.queue;
    } else {
      assert j in Range(t.next, t'.next);
    }
  }

  lemma FirstInArrayIsFirstInQueue(s: Sim, t: Sim, s': Sim, t': Sim)
    requires Inv(s) && Inv(t) && Inv(t') && SameRun(s, t) && s.policy.FCFS? && LongSlice(t)
    requires Ticked(s, s', LastSlot(s')) && Ticked(t, t', LastSlot(t')) && Shape(t')
    requires Fcfs.ServesFirst(s, LastSlot(s')) && RrEffect(t, t', LastSlot(t'))
    ensures LastSlot(s') == LastSlot(t')
  {
    var x, y := LastSlot(s'), LastSlot(t');
    assert Shape(s) && Shape(t) && s.running == t.running && Occupied(s) == Occupied(t);
    hide LastSlot, Ticked, Inv, RrEffect, Fcfs.ServesFirst, LongSlice, SameRun, Shape;
    SlotsAreDue(s, t, x, y);
    ArrivalsStay(t, t', y);
    RrHead(t, t', y);
    FirstServed(s, t, x);
    if !Occupied(t) { HeadIsFirst(t, t', x, y); }
  }

  lemma RrHead(t: Sim, t': Sim, y: Slot)
    requires LongSlice(t) && Shape(t') && t'.policy == t.policy && RrEffect(t, t', y)
    ensures t.next <= t'.next
    ensures Occupied(t) ==> y == t.running
    ensures !Occupied(t) ==>
      y == if QueueAtDispatch(t, t'.next) == [] then None else Some(QueueAtDispatch(t, t'.next)[0])
  {
    assert Continues(t) <==> Occupied(t);
    hide QueueAtDispatch, Continues, Shape;
  }

  lemma FirstServed(s: Sim, t: Sim, x: Slot)
    requires Shape(s) && SameRun(s, t) && Fcfs.ServesFirst(s, x)
    ensures Occupied(s) ==> x == s.running
    ensures !Occupied(s) && x.Some? ==> x.value < |t.procs| && forall i :: 0 <= i < x.value ==> Left(t.procs[i]) == 0
  {
  }

  lemma ArrivalStays(p: Record, now: int, chosen: bool)
    ensures Advance(p, now, chosen).arrival == p.arrival
  {
  }

  lemma ArrivalsStay(t: Sim, t': Sim, slot: Slot)
    requires Ticked(t, t', slot)
    ensures t'.now == t.now + 1 && |t'.procs| == |t.procs|
    ensures forall i :: 0 <= i < |t.procs| ==> t'.procs[i].arrival == t.procs[i].arrival
  {
    forall i: nat | i < |t.procs| ensures t'.procs[i].arrival == t.procs[i].arrival {
      ArrivalStays(t.procs[i], t.now, slot == Some(i));
      hide Advance;
    }
    hide Advance;
  }

  lemma HeadIsFirst(t: Sim, t': Sim, x: Slot, y: Slot)
    requires Inv(t) && Inv(t') && LongSlice(t) && !Occupied(t) && t.next <= t'.next
    requires t'.now == t.now + 1 && |t'.procs| == |t.procs|
    requires forall i :: 0 <= i < |t.procs| ==> t'.procs[i].arrival == t.procs[i].arrival
    requires y == if QueueAtDispatch(t, t'.next) == [] then None else Some(QueueAtDispatch(t, t'.next)[0])
    requires x.Some? <==> y.Some?
    requires x.Some? ==>
      && x.value < |t.procs| && t.procs[x.value].arrival <= t.now && 0 < Left(t.procs[x.value])
      && forall i :: 0 <= i < x.value ==> Left(t.procs[i]) == 0
    requires y.Some? ==> y.value < |t.procs| && 0 < Left(t.procs[y.value])
    ensures x == y
  {
    assert Shape(t) && Shape(t');
    hide Inv, LongSlice, Occupied, QueueAtDispatch, Shape, Left;
    if x.Some? {
      var q := QueueAtDispatch(t, t'.next);
      QueueInOrder(t, t'.next);
      DueIsQueued(t, t', x.value);
      var k: nat :| k < |q| && q[k] == x.value;
    }
  }

  /** What both engines know about the two slots. */
  lemma SlotsAreDue(s: Sim, t: Sim, x: Slot, y: Slot)
    requires SameRun(s, t) && (exists s', t' :: Ticked(s, s', x) && Ticked(t, t', y))
    ensures x.Some? ==> x.value < |t.procs| && t.procs[x.value].arrival <= t.now && 0 < Left(t.procs[x.value])
    ensures y.Some? ==> y.value < |s.procs| && 0 < Left(s.procs[y.value])
    ensures x.Some? <==> y.Some?
  {
    var s', t' :| Ticked(s, s', x) && Ticked(t, t', y);
  }

  lemma LongSliceKept(t: Sim, t': Sim, slot: Slot)
    requires Inv(t) && Inv(t') && LongSlice(t) && Ticked(t, t', slot) && RrEffect(t, t', slot)
    ensures LongSlice(t')
  {
    assert Shape(t) && Shape(t') && t.next <= t'.next && |t'.procs| == |t.procs|;
    assert Continues(t) <==> Occupied(t);
    assert slot.Some? ==> slot.value < |t.procs|;
    hide Inv, Ticked, Occupied, Continues, Shape, Increasing;
    forall i: nat | i < |t.procs| ensures WorkedBy(t.procs[i], t'.procs[i], slot == Some(i)) {
      WorkOfOne(t, t', slot, i);
    }
    QueueInOrder(t, t'.next);
    if Continues(t) {
      hide Increasing, QueueAtDispatch;
    } else {
      LaterInOrder(QueueAtDispatch(t, t'.next));
      hide Increasing, QueueAtDispatch;
    }
  }

  lemma LaterInOrder(q: seq<nat>)
    requires Increasing(q)
    ensures Increasing([]) && (q != [] ==> Increasing(q[1..]))
  {
  }

  /** One tick for one process: its work gets less by one if it is given the tick and has any. */
  ghost predicate WorkedBy(p: Record, r: Record, chosen: bool) {
    && r.burst == p.burst && p.remaining <= p.burst
    && r.remaining == p.remaining - if chosen && 0 < p.burst then 1 else 0
  }

  lemma WorkOfOne(t: Sim, t': Sim, slot: Slot, i: nat)
    requires Inv(t) && Ticked(t, t', slot) && i < |t.procs|
    ensures WorkedBy(t.procs[i], t'.procs[i], slot == Some(i))
  {
    assert ProcOk(t.procs[i], i, t.next, t.running);
    assert slot == Some(i) ==> 0 < Left(t.procs[i]);
    AdvanceWorks(t.procs[i], i, t.next, t.running, t.now, slot == Some(i));
    hide HooksHold, Shape, Advance;
  }

  lemma AdvanceWorks(p: Record, i: nat, next: nat, running: Slot, now: int, chosen: bool)
    requires ProcOk(p, i, next, running) && (chosen ==> 0 < Left(p))
    ensures WorkedBy(p, Advance(p, now, chosen), chosen)
  {
  }

  lemma LongSliceOverIteration(s: Sim, t: Sim)
    requires Inv(s) && Inv(t) && !Done(s) && !Done(t) && SameRun(s, t) && s.policy.FCFS? && LongSlice(t)
    ensures SameRun(Step(s), Step(t)) && LongSlice(Step(t))
  {
    SameEnd(s, t);
    StepKeeps(s);
    StepKeeps(t);
    if Complete(t).completed == |t.procs| {
      LongSliceAtEnd(t);
    } else {
      assert Complete(s).completed != |s.procs|;
      Fcfs.FcfsStep(s);
      RrStep(t);
      hide Step, Complete, Inv, LongSlice, Ticked, Fcfs.ServesFirst, RrEffect, SameRun;
      FirstInArrayIsFirstInQueue(s, t, Step(s), Step(t));
      LongSliceKept(t, Step(t), LastSlot(Step(t)));
    }
    hide Step, Complete, Inv, LongSlice;
    SameStep(s, t);
  }

  lemma LongSliceAtEnd(t: Sim)
    requires Inv(t) && LongSlice(t) && Complete(t).completed == |t.procs|
    ensures LongSlice(Step(t))
  {
    hide Inv;
  }

  lemma StartsSame(p: Policy, q: Policy, procs: seq<Record>)
    requires ValidPolicy(p) && ValidPolicy(q) && Workload(procs)
    ensures SameRun(Initial(p, procs), Initial(q, procs))
  {
  }

  lemma SameDone(s: Sim, t: Sim)
    requires SameRun(s, t)
    ensures Done(s) <==> Done(t)
  {
  }

  ghost predicate BurstsUpTo(procs: seq<Record>, q: int) {
    forall i :: 0 <= i < |procs| ==> procs[i].burst <= q
  }

  lemma LongSliceAtStart(procs: seq<Record>, q: int)
    requires Workload(procs) && BurstsUpTo(procs, q) && ValidPolicy(RR(q))
    ensures LongSlice(Initial(RR(q), procs))
  {
  }

  lemma {:induction false} LongSliceRun(procs: seq<Record>, q: int, k: nat)
    requires Workload(procs) && BurstsUpTo(procs, q) && ValidPolicy(FCFS) && ValidPolicy(RR(q))
    ensures SameRun(Run(FCFS, procs, k), Run(RR(q), procs, k)) && LongSlice(Run(RR(q), procs, k))
  {
    hide *;
    RunStep(FCFS, procs, if k == 0 then 0 else k - 1);
    RunStep(RR(q), procs, if k == 0 then 0 else k - 1);
    if k == 0 {
      StartsSame(FCFS, RR(q), procs);
      LongSliceAtStart(procs, q);
    } else {
      var s, t := Run(FCFS, procs, k - 1), Run(RR(q), procs, k - 1);
      LongSliceRun(procs, q, k - 1);
      RunHolds(FCFS, procs, k - 1);
      RunHolds(RR(q), procs, k - 1);
      SameDone(s, t);
      if !Done(s) { LongSliceOverIteration(s, t); }
    }
  }

  /** Round robin with a quantum no burst exceeds is FCFS, at every step and in every recorded value. */
  lemma LongQuantumIsFcfs(procs: seq<Record>, q: int, k: nat)
    requires Workload(procs) && BurstsUpTo(procs, q)
    ensures SameRun(Run(FCFS, procs, k), Run(RR(q), procs, k))
    ensures SameRun(Final(FCFS, procs), Final(RR(q), procs))
  {
    assert ValidPolicy(FCFS) && ValidPolicy(RR(q));
    hide *;
    LongSliceRun(procs, q, k);
    LongSliceRun(procs, q, RunLength(procs));
    FinalRun(FCFS, procs);
    FinalRun(RR(q), procs);
  }

  lemma NextDecided(s: Sim, t: Sim)
    requires Inv(s) && Inv(t) && s.now == t.now && |s.procs| == |t.procs|
    requires forall i :: 0 <= i < |s.procs| ==> t.procs[i].arrival == s.procs[i].arrival
    ensures s.next == t.next
  {
    assert s.next < |s.procs| ==> s.now <= s.procs[s.next].arrival;
    assert t.next < |t.procs| ==> t.now <= t.procs[t.next].arrival;
  }

  lemma SameArrivals(s: Sim, t: Sim, s': Sim, t': Sim)
    requires SameRun(s, t) && Ticked(s, s', LastSlot(s')) && Ticked(t, t', LastSlot(t'))
    ensures s'.now == t'.now && |s'.procs| == |t'.procs|
    ensures forall i :: 0 <= i < |s'.procs| ==> t'.procs[i].arrival == s'.procs[i].arrival
  {
    forall i: nat | i < |s'.procs| ensures t'.procs[i].arrival == s'.procs[i].arrival {
      ArrivalStays(s.procs[i], s.now, LastSlot(s') == Some(i));
      ArrivalStays(t.procs[i], t.now, LastSlot(t') == Some(i));
      hide Advance;
    }
    hide Advance;
  }

  // ---------- a quantum below 1 acts as 1 ----------

  ghost predicate ShortSlices(s: Sim, t: Sim) {
    && SameRun(s, t) && Shape(s) && Shape(t) && s.policy.RR? && t.policy.RR? && s.hooks.queue == t.hooks.queue
    && s.policy.quantum <= 1 && t.policy.quantum <= 1
    && (s.running.Some? ==> s.hooks.left <= 1 && t.hooks.left <= 1)
  }

  lemma ShortSlicesOverTick(s: Sim, t: Sim, s': Sim, t': Sim)
    requires ShortSlices(s, t) && s'.policy == s.policy && t'.policy == t.policy && Shape(s') && Shape(t')
    requires s'.next == t'.next && |s'.procs| == |s.procs| && |t'.procs| == |t.procs|
    requires RrEffect(s, s', LastSlot(s')) && RrEffect(t, t', LastSlot(t'))
    ensures LastSlot(s') == LastSlot(t')
    ensures SameRun(s', t') ==> ShortSlices(s', t')
  {
  }

  lemma ShortSlicesOverIteration(s: Sim, t: Sim)
    requires Inv(s) && Inv(t) && !Done(s) && !Done(t) && ShortSlices(s, t)
    ensures ShortSlices(Step(s), Step(t))
  {
    SameEnd(s, t);
    StepKeeps(s);
    StepKeeps(t);
    if Complete(t).completed == |t.procs| {
      hide Inv;
      SameStep(s, t);
    } else {
      assert Complete(s).completed != |s.procs|;
      RrStep(s);
      RrStep(t);
      assert Shape(Step(s)) && Shape(Step(t));
      hide Step, Complete, Inv, RrEffect, Ticked;
      SameArrivals(s, t, Step(s), Step(t));
      NextDecided(Step(s), Step(t));
      ShortSlicesOverTick(s, t, Step(s), Step(t));
      SameStep(s, t);
    }
  }

  lemma ShortSlicesAtStart(procs: seq<Record>, p: int, q: int)
    requires Workload(procs) && p <= 1 && q <= 1 && ValidPolicy(RR(p)) && ValidPolicy(RR(q))
    ensures ShortSlices(Initial(RR(p), procs), Initial(RR(q), procs))
  {
  }

  lemma ShortSlicesAgree(s: Sim, t: Sim)
    requires ShortSlices(s, t)
    ensures SameRun(s, t)
  {
  }

  lemma {:induction false} ShortSlicesRun(procs: seq<Record>, p: int, q: int, k: nat)
    requires Workload(procs) && p <= 1 && q <= 1 && ValidPolicy(RR(p)) && ValidPolicy(RR(q))
    ensures ShortSlices(Run(RR(p), procs, k), Run(RR(q), procs, k))
  {
    hide *;
    RunStep(RR(p), procs, if k == 0 then 0 else k - 1);
    RunStep(RR(q), procs, if k == 0 then 0 else k - 1);
    if k == 0 {
      ShortSlicesAtStart(procs, p, q);
    } else {
      var s, t := Run(RR(p), procs, k - 1), Run(RR(q), procs, k - 1);
      ShortSlicesRun(procs, p, q, k - 1);
      RunHolds(RR(p), procs, k - 1);
      RunHolds(RR(q), procs, k - 1);
      ShortSlicesAgree(s, t);
      SameDone(s, t);
      if !Done(s) { ShortSlicesOverIteration(s, t); }
    }
  }

  /** Round robin with a quantum of 0, the default when none is given, or less is round robin with
      a quantum of 1. */
  lemma NoQuantumIsOne(procs: seq<Record>, q: int, k: nat)
    requires Workload(procs) && q <= 0
    ensures SameRun(Run(RR(1), procs, k), Run(RR(q), procs, k))
    ensures SameRun(Final(RR(1), procs), Final(RR(q), procs))
  {
    assert ValidPolicy(RR(1)) && ValidPolicy(RR(q));
    hide *;
    ShortSlicesRun(procs, 1, q, k);
    ShortSlicesRun(procs, 1, q, RunLength(procs));
    FinalRun(RR(1), procs);
    FinalRun(RR(q), procs);
    ShortSlicesAgree(Run(RR(1), procs, k), Run(RR(q), procs, k));
    ShortSlicesAgree(Final(RR(1), procs), Final(RR(q), procs));
  }

  // ---------- STCF without later arrivals is SJF ----------

  /** Nobody who waits has run yet. */
  ghost predicate ReadyFresh(t: Sim) {
    && ArriveTogether(t.procs)
    && forall i :: 0 <= i < |t.procs| && (t.procs[i].phase.Ready? || t.procs[i].phase.NotArrived?) ==>
         t.procs[i].remaining == t.procs[i].burst
  }

  lemma {:induction false} SameScan(a: seq<Record>, b: seq<Record>, k: nat)
    requires |a| == |b| && k <= |a|
    requires forall i :: 0 <= i < |a| ==> SameCore(b[i], a[i])
    requires forall i :: 0 <= i < |a| && a[i].phase.Ready? ==> a[i].remaining == a[i].burst
    ensures Scan(SJF, a, k) == Scan(STCF, b, k)
  {
    if k > 0 {
      SameScan(a, b, k - 1);
      ScanFinds(SJF, a, k - 1);
    }
  }

  lemma NobodyComesLater(t: Sim, t': Sim)
    requires Inv(t) && Inv(t') && ReadyFresh(t) && t.next <= t'.next && |t'.procs| == |t.procs|
    ensures Occupied(t) ==> t'.next == t.next
  {
    assert t.next < |t.procs| ==> t.now <= t.procs[t.next].arrival;
    if Occupied(t) {
      assert ProcOk(t.procs[t.running.value], t.running.value, t.next, t.running);
      assert t.procs[t.running.value].arrival < t.now;
      assert forall i :: 0 <= i < |t.procs| ==> t.procs[i].arrival < t.now;
    }
  }

  lemma SameChoice(s: Sim, t: Sim, s': Sim, t': Sim)
    requires Inv(s) && Inv(t) && Inv(s') && Inv(t') && SameRun(s, t) && s.policy.SJF? && t.policy.STCF? && ReadyFresh(t)
    requires |t'.procs| == |t.procs|
    requires ScanEffect(s, s', LastSlot(s')) && ScanEffect(t, t', LastSlot(t'))
    ensures LastSlot(s') == LastSlot(t')
    ensures Occupied(t) ==> LastSlot(t') == t.running
  {
    NobodyComesLater(t, t');
    assert Occupied(s) == Occupied(t);
    if !Occupied(t) {
      forall i: nat | i < |s.procs|
        ensures SameCore(Present(t)[i], Present(s)[i])
        ensures Present(s)[i].phase.Ready? ==> Present(s)[i].remaining == Present(s)[i].burst
      {
        assert ProcOk(s.procs[i], i, s.next, s.running) && ProcOk(t.procs[i], i, t.next, t.running);
        hide HooksHold, Shape;
      }
      SameScan(Present(s), Present(t), |s.procs|);
    }
    hide Inv, Shape, Present, Scan;
  }

  lemma ReadyFreshKept(t: Sim, t': Sim, slot: Slot)
    requires Inv(t) && ReadyFresh(t) && Ticked(t, t', slot) && (Occupied(t) ==> slot == t.running)
    ensures ReadyFresh(t')
  {
    hide HooksHold;
    forall i: nat | i < |t.procs|
      ensures t'.procs[i].arrival == t.procs[i].arrival
      ensures t'.procs[i].phase.Ready? || t'.procs[i].phase.NotArrived? ==> t'.procs[i].remaining == t'.procs[i].burst
    {
      assert ProcOk(t.procs[i], i, t.next, t.running);
      hide Shape;
    }
    hide Ticked, Inv, Occupied, Shape;
    assert |t'.procs| == |t.procs|;
  }

  lemma ReadyFreshAtEnd(t: Sim)
    requires Inv(t) && ReadyFresh(t) && Complete(t).completed == |t.procs|
    ensures ReadyFresh(Step(t))
  {
    hide Inv;
  }

  lemma ReadyFreshAtStart(procs: seq<Record>)
    requires Workload(procs) && ArriveTogether(procs) && ValidPolicy(STCF)
    ensures ReadyFresh(Initial(STCF, procs))
  {
  }

  lemma ReadyFreshOverIteration(s: Sim, t: Sim)
    requires Inv(s) && Inv(t) && !Done(s) && !Done(t) && SameRun(s, t) && s.policy.SJF? && t.policy.STCF? && ReadyFresh(t)
    ensures SameRun(Step(s), Step(t)) && ReadyFresh(Step(t))
  {
    SameEnd(s, t);
    StepKeeps(s);
    StepKeeps(t);
    if Complete(t).completed == |t.procs| {
      ReadyFreshAtEnd(t);
    } else {
      assert Complete(s).completed != |s.procs| && |Step(t).procs| == |t.procs|;
      ScanningStep(s);
      ScanningStep(t);
      hide Step, Complete, Inv, ReadyFresh, Ticked, ScanEffect, SameRun;
      SameChoice(s, t, Step(s), Step(t));
      ReadyFreshKept(t, Step(t), LastSlot(Step(t)));
    }
    hide Step, Complete, Inv, ReadyFresh;
    SameStep(s, t);
  }

  lemma {:induction false} ReadyFreshRun(procs: seq<Record>, k: nat)
    requires Workload(procs) && ArriveTogether(procs) && ValidPolicy(SJF) && ValidPolicy(STCF)
    ensures SameRun(Run(SJF, procs, k), Run(STCF, procs, k)) && ReadyFresh(Run(STCF, procs, k))
  {
    hide *;
    RunStep(SJF, procs, if k == 0 then 0 else k - 1);
    RunStep(STCF, procs, if k == 0 then 0 else k - 1);
    if k == 0 {
      StartsSame(SJF, STCF, procs);
      ReadyFreshAtStart(procs);
    } else {
      var s, t := Run(SJF, procs, k - 1), Run(STCF, procs, k - 1);
      ReadyFreshRun(procs, k - 1);
      RunHolds(SJF, procs, k - 1);
      RunHolds(STCF, procs, k - 1);
      SameDone(s, t);
      if !Done(s) { ReadyFreshOverIteration(s, t); }
    }
  }

  /** If all processes arrive together, STCF is SJF, at every step and in every recorded value. */
  lemma SimultaneousStcfIsSjf(procs: seq<Record>, k: nat)
    requires Workload(procs) && ArriveTogether(procs)
    ensures SameRun(Run(SJF, procs, k), Run(STCF, procs, k))
    ensures SameRun(Final(SJF, procs), Final(STCF, procs))
  {
    assert ValidPolicy(SJF) && ValidPolicy(STCF);
    hide *;
    ReadyFreshRun(procs, k);
    ReadyFreshRun(procs, RunLength(procs));
    FinalRun(SJF, procs);
    FinalRun(STCF, procs);
  }

  lemma SameTurnarounds(s: Sim, t: Sim)
    requires SameRun(s, t)
    ensures Stcf.Turnarounds(s) == Stcf.Turnarounds(t) && Stcf.Waitings(s) == Stcf.Waitings(t)
  {
  }

  /** Hence SJF, too, has the least total turnaround and waiting time of all policies when all
      processes arrive together. */
  lemma SimultaneousSjfLeastTurnaround(policy: Policy, procs: seq<Record>)
    requires ValidPolicy(policy) && Workload(procs) && ArriveTogether(procs)
    ensures Sum(Stcf.Turnarounds(Final(SJF, procs))) <= Sum(Stcf.Turnarounds(Final(policy, procs)))
    ensures Sum(Stcf.Waitings(Final(SJF, procs))) <= Sum(Stcf.Waitings(Final(policy, procs)))
  {
    assert ValidPolicy(SJF) && ValidPolicy(STCF);
    hide *;
    SimultaneousStcfIsSjf(procs, 0);
    SameTurnarounds(Final(SJF, procs), Final(STCF, procs));
    Stcf.StcfLeastTurnaround(policy, procs);
  }

  // ---------- MLFQ with a single queue is round robin ----------

  function OneQueue(q: int, period: int): Policy {
    MLFQ([q], [q], period)
  }

  function Remainings(procs: seq<Record>): seq<int> {
    seq(|procs|, i requires 0 <= i < |procs| => procs[i].remaining)
  }

  /** The same queue and slice on both sides; the allotment is in step with the slice. */
  ghost predicate SameQueue(s: Sim, t: Sim, q: int, period: int) {
    && SameRun(s, t) && Shape(s) && Shape(t) && 1 <= q && s.policy == RR(q) && t.policy == OneQueue(q, period)
    && t.hooks.queues[0] == s.hooks.queue
    && (s.running.Some? ==>
          && t.hooks.left == s.hooks.left && 1 <= s.hooks.left
          && t.procs[s.running.value].used == q - s.hooks.left)
    && (forall i :: 0 <= i < |t.procs| && (t.procs[i].phase.Ready? || t.procs[i].phase.NotArrived?) ==> t.procs[i].used == 0)
  }

  /** The boost timer only counts ticks of work, so that it cannot reach the total. */
  ghost predicate TimerBelowWork(t: Sim) {
    t.hooks.MlfqHooks? &&
    t.hooks.timer + (if t.running.Some? then 1 else 0) + Sum(Remainings(t.procs)) <= Sum(Stcf.Bursts(t.procs))
  }

  lemma NeverBoosts(t: Sim, period: int)
    requires Inv(t) && t.policy.MLFQ? && TimerBelowWork(t) && Sum(Stcf.Bursts(t.procs)) <= t.policy.period
    ensures Occupied(t) ==> t.hooks.timer + 1 < t.policy.period
  {
    SumBounds(Remainings(t.procs));
    hide HooksHold;
    assert Occupied(t) ==> Remainings(t.procs)[t.running.value] == t.procs[t.running.value].remaining;
    hide Sum, Inv, Remainings;
  }

  lemma SameVerdict(s: Sim, t: Sim, q: int, period: int, next: nat)
    requires SameQueue(s, t, q, period) && s.next <= next
    requires Occupied(t) ==> t.hooks.timer + 1 < period
    ensures Mlfq.VerdictOf(t, next) == if Continues(s) then Mlfq.Keeps
                                             else if Occupied(s) then Mlfq.Demotes(0)
                                             else Mlfq.Idle
    ensures Mlfq.Admitted(t, next) == [s.hooks.queue + Range(s.next, next)]
    ensures !Continues(s) ==> Mlfq.QueuesAfterTick(t, next) == [QueueAtDispatch(s, next)]
  {
    var q0 := s.hooks.queue + Range(s.next, next);
    assert q0 + [] == q0;
  }

  /** Dispatching from a single level. */
  lemma EffectOfOneLevel(t: Sim, t': Sim, slot: Slot, queue: seq<nat>)
    requires Shape(t) && Shape(t') && t.policy.MLFQ? && t'.policy == t.policy && |t'.procs| == |t.procs|
    requires Mlfq.MlfqEffect(t, t', slot) && !Mlfq.VerdictOf(t, t'.next).Keeps?
    requires Mlfq.QueuesAfterTick(t, t'.next) == [queue]
    ensures queue == [] ==> slot == None == t'.running && t'.hooks.queues == [queue]
    ensures queue != [] ==>
      && slot == Some(queue[0]) && queue[0] < |t.procs|
      && t'.running == (if t.procs[queue[0]].burst == 0 then None else slot)
      && t'.hooks.queues == [queue[1..]] && t'.hooks.left == t.policy.quantums[0]
    ensures t'.hooks.timer == Mlfq.TimerAfter(t, t'.next)
  {
    hide Mlfq.QueuesAfterTick, Mlfq.LevelAfter, Mlfq.VerdictOf;
    assert FirstLevel([queue], 0) == if queue == [] then 1 else 0;
    if queue != [] { assert [queue][0 := queue[1..]] == [queue[1..]]; }
  }

  lemma SameDispatch(s: Sim, t: Sim, s': Sim, t': Sim, q: int, period: int)
    requires SameQueue(s, t, q, period) && Shape(s') && Shape(t') && s'.policy == s.policy && t'.policy == t.policy
    requires Occupied(t) ==> t.hooks.timer + 1 < period
    requires s'.next == t'.next && |t'.procs| == |t.procs|
    requires RrEffect(s, s', LastSlot(s')) && Mlfq.MlfqEffect(t, t', LastSlot(t'))
    ensures LastSlot(s') == LastSlot(t') && t'.running == s'.running
    ensures t'.hooks.queues[0] == s'.hooks.queue
    ensures s'.running.Some? ==> t'.hooks.left == s'.hooks.left && 1 <= s'.hooks.left
    ensures s'.hooks.left == if Continues(s) then s.hooks.left - 1 else if LastSlot(s').Some? then q else s'.hooks.left
    ensures t'.hooks.timer == t.hooks.timer + if Occupied(t) then 1 else 0
  {
    SameVerdict(s, t, q, period, s'.next);
    hide Mlfq.VerdictOf, Mlfq.LevelAfter, QueueAtDispatch, LastSlot;
    if Continues(s) {
      SameContinuation(s, t, s', t', q, period);
    } else {
      hide FirstLevel;
      EffectOfOneLevel(t, t', LastSlot(t'), QueueAtDispatch(s, s'.next));
      hide Mlfq.MlfqEffect, Continues;
    }
  }

  lemma SameContinuation(s: Sim, t: Sim, s': Sim, t': Sim, q: int, period: int)
    requires SameQueue(s, t, q, period) && Shape(s') && Shape(t') && s'.policy == s.policy && t'.policy == t.policy
    requires s'.next == t'.next && |t'.procs| == |t.procs| && Continues(s)
    requires RrEffect(s, s', LastSlot(s')) && Mlfq.MlfqEffect(t, t', LastSlot(t'))
    requires Mlfq.VerdictOf(t, t'.next) == Mlfq.Keeps && Mlfq.Admitted(t, t'.next) == [s.hooks.queue + Range(s.next, t'.next)]
    ensures LastSlot(s') == LastSlot(t') && t'.running == s'.running
    ensures t'.hooks.queues[0] == s'.hooks.queue
    ensures t'.hooks.left == s'.hooks.left == s.hooks.left - 1 && 1 <= s'.hooks.left
    ensures t'.hooks.timer == t.hooks.timer + if Occupied(t) then 1 else 0
  {
    hide Mlfq.VerdictOf, Mlfq.LevelAfter, QueueAtDispatch, FirstLevel;
  }

  lemma UsedInStep(s: Sim, t: Sim, s': Sim, t': Sim, q: int, period: int, i: nat)
    requires SameQueue(s, t, q, period) && Inv(t) && Inv(t') && Shape(s') && Ticked(t, t', LastSlot(t')) && i < |t.procs|
    requires Occupied(t) ==> t.hooks.timer + 1 < period
    requires s'.next == t'.next && s'.policy == s.policy && t'.policy == t.policy
    requires RrEffect(s, s', LastSlot(s')) && Mlfq.MlfqEffect(t, t', LastSlot(t')) && LastSlot(s') == LastSlot(t')
    ensures t'.procs[i].used ==
            if Continues(s) && s.running == Some(i) then t.procs[i].used + 1
            else if t.procs[i].phase.NotArrived? || t.procs[i].phase.Ready? || (Occupied(t) && t.running == Some(i)) then 0
            else t.procs[i].used
  {
    assert |t'.procs| == |t.procs| && s.next <= s'.next && Shape(t) && Shape(s);
    assert (t'.procs[i].priority, t'.procs[i].used) == Mlfq.LevelAfter(t, t'.next, i);
    hide RrEffect, Mlfq.MlfqEffect, Ticked, Mlfq.VerdictOf, Continues, Shape, Mlfq.Admitted, Mlfq.QueuesAfterTick, QueueAtDispatch;
    SameVerdict(s, t, q, period, s'.next);
    UsedByVerdict(s, t, q, period, s'.next, i);
  }

  lemma UsedByVerdict(s: Sim, t: Sim, q: int, period: int, next: nat, i: nat)
    requires SameQueue(s, t, q, period) && Inv(t) && i < |t.procs| && s.next <= next
    requires Mlfq.VerdictOf(t, next) == if Continues(s) then Mlfq.Keeps else if Occupied(s) then Mlfq.Demotes(0) else Mlfq.Idle
    ensures Mlfq.LevelAfter(t, next, i).1 ==
            if Continues(s) && s.running == Some(i) then t.procs[i].used + 1
            else if t.procs[i].phase.NotArrived? || t.procs[i].phase.Ready? || (Occupied(t) && t.running == Some(i)) then 0
            else t.procs[i].used
  {
    assert ProcOk(t.procs[i], i, t.next, t.running);
    hide HooksHold, Mlfq.VerdictOf;
  }

  /** Where the processes in the system after a tick come from. */
  lemma PhaseBefore(t: Sim, t': Sim, slot: Slot, i: nat)
    requires Inv(t) && Inv(t') && Ticked(t, t', slot) && i < |t.procs|
    ensures t'.procs[i].phase.Ready? || t'.procs[i].phase.NotArrived? ==>
      slot != Some(i) && (t.procs[i].phase.NotArrived? || t.procs[i].phase.Ready? || (Occupied(t) && t.running == Some(i)))
    ensures t'.running == Some(i) ==>
      slot == Some(i) && (t.procs[i].phase.NotArrived? || t.procs[i].phase.Ready? || (Occupied(t) && t.running == Some(i)))
  {
    assert ProcOk(t.procs[i], i, t.next, t.running) && ProcOk(t'.procs[i], i, t'.next, t'.running);
    hide HooksHold;
  }

  lemma SameQueueKept(s: Sim, t: Sim, s': Sim, t': Sim, q: int, period: int)
    requires Inv(s) && Inv(t) && Inv(s') && Inv(t') && SameQueue(s, t, q, period) && SameRun(s', t')
    requires Ticked(s, s', LastSlot(s')) && Ticked(t, t', LastSlot(t'))
    requires Occupied(t) ==> t.hooks.timer + 1 < period
    requires RrEffect(s, s', LastSlot(s')) && Mlfq.MlfqEffect(t, t', LastSlot(t'))
    ensures SameQueue(s', t', q, period)
  {
    assert Shape(s) && Shape(t) && Shape(s') && Shape(t') && s'.policy == s.policy && t'.policy == t.policy;
    assert s'.next == t'.next && |t'.procs| == |t.procs| && t'.running == s'.running;
    hide Inv, Ticked, Occupied, Continues, Shape, RrEffect, Mlfq.MlfqEffect, LastSlot, SameRun, PaidUp;
    SameDispatch(s, t, s', t', q, period);
    forall i: nat | i < |t.procs| ensures PaidUp(t', i, q, s'.hooks.left) {
      UsedOfOne(s, t, s', t', q, period, i);
    }
    NowSameQueue(s', t', q, period);
  }

  lemma NowSameQueue(s: Sim, t: Sim, q: int, period: int)
    requires SameRun(s, t) && Shape(s) && Shape(t) && 1 <= q && s.policy == RR(q) && t.policy == OneQueue(q, period)
    requires t.hooks.queues[0] == s.hooks.queue
    requires s.running.Some? ==> t.hooks.left == s.hooks.left && 1 <= s.hooks.left
    requires forall i: nat :: i < |t.procs| ==> PaidUp(t, i, q, s.hooks.left)
    ensures SameQueue(s, t, q, period)
  {
    if s.running.Some? { assert PaidUp(t, s.running.value, q, s.hooks.left); }
    forall i: nat | i < |t.procs| && (t.procs[i].phase.Ready? || t.procs[i].phase.NotArrived?) ensures t.procs[i].used == 0 {
      assert PaidUp(t, i, q, s.hooks.left);
    }
  }

  /** Nobody who waits has been charged, and the running process for exactly what is gone of its slice. */
  ghost predicate PaidUp(t: Sim, i: nat, q: int, left: int) {
    i < |t.procs| &&
    (t.procs[i].phase.Ready? || t.procs[i].phase.NotArrived? ==> t.procs[i].used == 0) &&
    (t.running == Some(i) ==> t.procs[i].used == q - left)
  }

  lemma UsedOfOne(s: Sim, t: Sim, s': Sim, t': Sim, q: int, period: int, i: nat)
    requires Inv(t) && Inv(t') && SameQueue(s, t, q, period) && Shape(s') && t'.running == s'.running && s'.next == t'.next
    requires Ticked(t, t', LastSlot(t')) && LastSlot(s') == LastSlot(t') && s'.policy == s.policy && t'.policy == t.policy
    requires Occupied(t) ==> t.hooks.timer + 1 < period
    requires RrEffect(s, s', LastSlot(s')) && Mlfq.MlfqEffect(t, t', LastSlot(t')) && i < |t.procs| == |t'.procs|
    requires s'.hooks.left == if Continues(s) then s.hooks.left - 1 else if LastSlot(s').Some? then q else s'.hooks.left
    ensures PaidUp(t', i, q, s'.hooks.left)
  {
    assert Shape(t) && Shape(s) && s.running == t.running;
    assert s.running == Some(i) ==> t.procs[i].used == q - s.hooks.left;
    hide HooksHold, Shape, Inv, Ticked, RrEffect, Mlfq.MlfqEffect, SameQueue, LastSlot;
    UsedInStep(s, t, s', t', q, period, i);
    PhaseBefore(t, t', LastSlot(t'), i);
    assert Continues(s) ==> Occupied(s);
  }

  lemma SlotInRange(t: Sim, t': Sim, slot: Slot)
    requires Ticked(t, t', slot)
    ensures |t'.procs| == |t.procs| && (slot.Some? ==> slot.value < |t.procs|)
  {
  }

  lemma WorkOverTick(t: Sim, t': Sim, slot: Slot)
    requires Inv(t) && Ticked(t, t', slot)
    ensures Stcf.Bursts(t'.procs) == Stcf.Bursts(t.procs)
    ensures Sum(Remainings(t'.procs)) ==
            Sum(Remainings(t.procs)) - if slot.Some? && 0 < t.procs[slot.value].burst then 1 else 0
  {
    hide Inv, Ticked, Sum;
    SlotInRange(t, t', slot);
    var u, v := Remainings(t.procs), Remainings(t'.procs);
    forall i: nat | i < |t.procs| ensures WorkedBy(t.procs[i], t'.procs[i], slot == Some(i)) {
      WorkOfOne(t, t', slot, i);
    }
    assert Stcf.Bursts(t'.procs) == Stcf.Bursts(t.procs);
    if slot.Some? && 0 < t.procs[slot.value].burst {
      SumUpdate(u, slot.value, u[slot.value] - 1);
      assert v == u[slot.value := u[slot.value] - 1];
    } else {
      assert v == u;
    }
  }

  lemma TimerKept(t: Sim, t': Sim, slot: Slot)
    requires Inv(t) && Inv(t') && TimerBelowWork(t) && Ticked(t, t', slot) && t'.hooks.MlfqHooks?
    requires t'.hooks.timer == t.hooks.timer + if Occupied(t) then 1 else 0
    ensures TimerBelowWork(t')
  {
    WorkOverTick(t, t', slot);
    if t'.running.Some? {
      PhaseBefore(t, t', slot, t'.running.value);
      assert t'.procs[t'.running.value].burst == t.procs[t'.running.value].burst;
    }
    hide HooksHold, Sum, Remainings, Shape;
  }

  lemma OneQueueOverIteration(s: Sim, t: Sim, q: int, period: int)
    requires Inv(s) && Inv(t) && !Done(s) && !Done(t) && SameQueue(s, t, q, period) && TimerBelowWork(t)
    requires Sum(Stcf.Bursts(t.procs)) <= period
    ensures SameQueue(Step(s), Step(t), q, period) && TimerBelowWork(Step(t))
    ensures Stcf.Bursts(Step(t).procs) == Stcf.Bursts(t.procs)
  {
    SameEnd(s, t);
    StepKeeps(s);
    StepKeeps(t);
    if Complete(t).completed == |t.procs| {
      SameStep(s, t);
      OneQueueAtEnd(s, t, q, period);
    } else {
      assert Complete(s).completed != |s.procs|;
      RrStep(s);
      Mlfq.MlfqStep(t);
      assert Shape(Step(s)) && Shape(Step(t));
      hide *;
      OneQueueChoice(s, t, Step(s), Step(t), q, period);
      OneQueueSteps(s, t, q, period);
      OneQueueOverTick(s, t, Step(s), Step(t), q, period);
    }
    hide *;
  }

  lemma OneQueueSteps(s: Sim, t: Sim, q: int, period: int)
    requires Inv(s) && Inv(t) && !Done(s) && !Done(t) && SameQueue(s, t, q, period)
    requires LastSlot(Step(s)) == LastSlot(Step(t))
    ensures SameRun(Step(s), Step(t))
  {
    hide Inv, Step;
    SameStep(s, t);
  }

  lemma OneQueueChoice(s: Sim, t: Sim, s': Sim, t': Sim, q: int, period: int)
    requires Inv(s) && Inv(t) && Inv(s') && Inv(t') && SameQueue(s, t, q, period) && TimerBelowWork(t)
    requires Sum(Stcf.Bursts(t.procs)) <= period
    requires Ticked(s, s', LastSlot(s')) && Ticked(t, t', LastSlot(t'))
    requires RrEffect(s, s', LastSlot(s')) && Mlfq.MlfqEffect(t, t', LastSlot(t'))
    ensures LastSlot(s') == LastSlot(t')
    ensures t'.hooks.MlfqHooks? && t'.hooks.timer == t.hooks.timer + if Occupied(t) then 1 else 0
    ensures Occupied(t) ==> t.hooks.timer + 1 < period
  {
    NeverBoosts(t, period);
    SameArrivals(s, t, s', t');
    NextDecided(s', t');
    assert Shape(s') && Shape(t');
    hide Inv, RrEffect, Mlfq.MlfqEffect, Sum;
    SameDispatch(s, t, s', t', q, period);
  }

  lemma OneQueueOverTick(s: Sim, t: Sim, s': Sim, t': Sim, q: int, period: int)
    requires Inv(s) && Inv(t) && Inv(s') && Inv(t') && SameQueue(s, t, q, period) && TimerBelowWork(t) && SameRun(s', t')
    requires Ticked(s, s', LastSlot(s')) && Ticked(t, t', LastSlot(t'))
    requires RrEffect(s, s', LastSlot(s')) && Mlfq.MlfqEffect(t, t', LastSlot(t'))
    requires t'.hooks.MlfqHooks? && t'.hooks.timer == t.hooks.timer + if Occupied(t) then 1 else 0
    requires Occupied(t) ==> t.hooks.timer + 1 < period
    ensures SameQueue(s', t', q, period) && TimerBelowWork(t')
    ensures Stcf.Bursts(t'.procs) == Stcf.Bursts(t.procs)
  {
    hide Inv, RrEffect, Mlfq.MlfqEffect, TimerBelowWork, Ticked, SameQueue, Occupied;
    SameQueueKept(s, t, s', t', q, period);
    WorkOverTick(t, t', LastSlot(t'));
    TimerKept(t, t', LastSlot(t'));
  }

  /** A completion changes neither work nor policy state. */
  lemma CompletionKeepsWork(s: Sim)
    requires Inv(s)
    ensures var c := Complete(s);
      && Remainings(c.procs) == Remainings(s.procs) && Stcf.Bursts(c.procs) == Stcf.Bursts(s.procs)
      && c.hooks == s.hooks && c.policy == s.policy && (c.running.Some? ==> c.running == s.running)
      && |c.procs| == |s.procs|
      && forall i :: 0 <= i < |s.procs| ==>
           c.procs[i].used == s.procs[i].used && (c.procs[i].phase == s.procs[i].phase || c.procs[i].phase.Finished?)
  {
    hide Inv;
  }

  lemma OneQueueAtEnd(s: Sim, t: Sim, q: int, period: int)
    requires Inv(s) && Inv(t) && SameQueue(s, t, q, period) && TimerBelowWork(t)
    requires Complete(s).completed == |s.procs| && Complete(t).completed == |t.procs|
    requires SameRun(Step(s), Step(t))
    ensures SameQueue(Step(s), Step(t), q, period) && TimerBelowWork(Step(t))
    ensures Stcf.Bursts(Step(t).procs) == Stcf.Bursts(t.procs)
  {
    assert Shape(s) && Shape(t) && Step(s) == Complete(s) && Step(t) == Complete(t) && Shape(Complete(s)) && Shape(Complete(t));
    hide Inv, Sum, Complete, Step, Remainings, Stcf.Bursts, Shape;
    CompletionKeepsWork(s);
    CompletionKeepsWork(t);
  }

  lemma OneQueueAtStart(procs: seq<Record>, q: int, period: int)
    requires Workload(procs) && 1 <= q && 1 <= period && ValidPolicy(RR(q)) && ValidPolicy(OneQueue(q, period))
    ensures SameQueue(Initial(RR(q), procs), Initial(OneQueue(q, period), procs), q, period)
    ensures TimerBelowWork(Initial(OneQueue(q, period), procs))
  {
    assert Remainings(procs) == Stcf.Bursts(procs);
  }

  ghost predicate OneQueueSoFar(procs: seq<Record>, s: Sim, t: Sim, q: int, period: int) {
    SameQueue(s, t, q, period) && TimerBelowWork(t) && Stcf.Bursts(t.procs) == Stcf.Bursts(procs)
  }

  lemma {:induction false} OneQueueRun(procs: seq<Record>, q: int, period: int, k: nat)
    requires Workload(procs) && 1 <= q && 1 <= period && ValidPolicy(RR(q)) && ValidPolicy(OneQueue(q, period))
    requires Sum(Stcf.Bursts(procs)) <= period
    ensures OneQueueSoFar(procs, Run(RR(q), procs, k), Run(OneQueue(q, period), procs, k), q, period)
  {
    hide *;
    RunStep(RR(q), procs, if k == 0 then 0 else k - 1);
    RunStep(OneQueue(q, period), procs, if k == 0 then 0 else k - 1);
    if k == 0 {
      OneQueueStarts(procs, q, period);
    } else {
      var s, t := Run(RR(q), procs, k - 1), Run(OneQueue(q, period), procs, k - 1);
      OneQueueRun(procs, q, period, k - 1);
      RunHolds(RR(q), procs, k - 1);
      RunHolds(OneQueue(q, period), procs, k - 1);
      OneQueueGoesOn(procs, s, t, q, period);
    }
  }

  lemma OneQueueStarts(procs: seq<Record>, q: int, period: int)
    requires Workload(procs) && 1 <= q && 1 <= period && ValidPolicy(RR(q)) && ValidPolicy(OneQueue(q, period))
    ensures OneQueueSoFar(procs, Initial(RR(q), procs), Initial(OneQueue(q, period), procs), q, period)
  {
    OneQueueAtStart(procs, q, period);
    assert Initial(OneQueue(q, period), procs).procs == procs;
    hide Initial, SameQueue, TimerBelowWork, Workload;
  }

  lemma OneQueueGoesOn(procs: seq<Record>, s: Sim, t: Sim, q: int, period: int)
    requires Inv(s) && Inv(t) && OneQueueSoFar(procs, s, t, q, period) && Sum(Stcf.Bursts(procs)) <= period
    ensures Done(s) <==> Done(t)
    ensures !Done(s) ==> OneQueueSoFar(procs, Step(s), Step(t), q, period)
  {
    SameDone(s, t);
    assert Shape(s) && Shape(t);
    hide Inv, Done, Step, SameQueue, TimerBelowWork, Sum, Stcf.Bursts, Shape;
    if !Done(s) { OneQueueOverIteration(s, t, q, period); }
  }

  /** MLFQ with one queue, whose allotment is its quantum, and a boost period no shorter than all the
      work is round robin with that quantum, at every step and in every recorded value. */
  lemma OneQueueIsRoundRobin(procs: seq<Record>, q: int, period: int, k: nat)
    requires Workload(procs) && ValidPolicy(OneQueue(q, period)) && Sum(Stcf.Bursts(procs)) <= period
    ensures SameRun(Run(RR(q), procs, k), Run(OneQueue(q, period), procs, k))
    ensures SameRun(Final(RR(q), procs), Final(OneQueue(q, period), procs))
  {
    assert ValidPolicy(RR(q)) && 1 <= q && 1 <= period by { assert OneQueue(q, period).quantums[0] == q; }
    hide Final, Run, Workload, SameRun, Shape, TimerBelowWork, Stcf.Bursts, Sum;
    OneQueueRun(procs, q, period, k);
    OneQueueRun(procs, q, period, RunLength(procs));
    FinalRun(RR(q), procs);
    FinalRun(OneQueue(q, period), procs);
  }
}
