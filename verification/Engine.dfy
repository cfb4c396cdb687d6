/** What every step of the engine keeps, for all five policies at once, and what one step does
    to a single process. The policies enter only through `HooksHold`. */
module Engine {
  import opened Basics
  import opened Processes
  import opened Model

  // ---------- invariants ----------

  /** The lifecycle of process i, stated in terms of the engine's own indices. */
  ghost predicate ProcOk(p: Record, i: nat, next: nat, running: Slot) {
    && 0 <= p.arrival && 0 <= p.remaining <= p.burst
    && (p.phase.NotArrived? <==> next <= i)
    && (p.phase.Running? <==> running == Some(i))
    && (p.phase.NotArrived? ==> p.remaining == p.burst && p.start == -1)
    && (p.phase.Finished? ==> p.remaining == 0)
    && (p.phase.Ready? && p.remaining == 0 ==> p.burst == 0)
    && (p.phase.Running? ==> p.start != -1)
    && -1 <= p.start
  }

  ghost function FinishedSet(procs: seq<Record>): set<nat> {
    set i: nat | i < |procs| && procs[i].phase.Finished?
  }

  /** Holds between any two stages of a step. */
  ghost predicate Ok(s: Sim) {
    && Shape(s)
    && (forall i, j :: 0 <= i < j < |s.procs| ==> s.procs[i].arrival <= s.procs[j].arrival)
    && (forall i :: 0 <= i < |s.procs| ==> ProcOk(s.procs[i], i, s.next, s.running))
    && s.completed == |FinishedSet(s.procs)|
    && |s.cpu| == |s.log| == s.now
  }

  /** i waits in the queues of a policy: it is READY, or it is `extra`, the running process
      after the policy has put it back and before the dispatcher has. */
  ghost predicate Waits(procs: seq<Record>, extra: Slot, i: nat) {
    i < |procs| && (procs[i].phase.Ready? || extra == Some(i))
  }

  /** A single queue holds exactly the waiting processes, each once. */
  ghost predicate Lined(procs: seq<Record>, queue: seq<nat>, extra: Slot) {
    && Distinct(queue)
    && forall i: nat :: i in queue <==> Waits(procs, extra, i)
  }

  /** Several queues hold exactly the waiting processes, each once and at its own level. */
  ghost predicate Placed(procs: seq<Record>, queues: seq<seq<nat>>, extra: Slot) {
    && (forall l :: 0 <= l < |queues| ==> Distinct(queues[l]))
    && (forall l, i: nat :: 0 <= l < |queues| && i in queues[l] ==> Waits(procs, extra, i) && procs[i].priority == l)
    && (forall i: nat :: Waits(procs, extra, i) ==>
          0 <= procs[i].priority < |queues| && i in queues[procs[i].priority])
  }

  ghost predicate HooksHold(s: Sim, extra: Slot)
    requires Shape(s)
  {
    match s.policy
    case RR(_) => Lined(s.procs, s.hooks.queue, extra)
    case MLFQ(_, _, _) => Placed(s.procs, s.hooks.queues, extra)
    case _ => true
  }

  /** Holds whenever the simulation loop tests its condition. */
  ghost predicate Inv(s: Sim) {
    && Ok(s)
    && HooksHold(s, None)
    && !s.preempt
    && (forall i :: 0 <= i < s.next ==> s.procs[i].arrival < s.now)
    && (forall i :: s.next <= i < |s.procs| ==> s.now <= s.procs[i].arrival)
    && (s.running.Some? ==> 0 < s.procs[s.running.value].burst)
  }

  // ---------- what one step does to one process ----------

  function Completed(p: Record, now: int): Record {
    if p.phase.Running? && p.remaining == 0 then FinishRecord(p, now) else p
  }

  function Arrived(p: Record, now: int): Record {
    if p.phase.NotArrived? && p.arrival <= now then p.(phase := Ready) else p
  }

  function Dispatched(p: Record, now: int, chosen: bool): Record {
    if chosen then StartRecord(p, now)
    else if p.phase.Running? then p.(phase := Ready)
    else p
  }

  function Executed(p: Record, now: int, chosen: bool): Record {
    if !chosen then p
    else if p.remaining == 0 then FinishRecord(p, now)
    else TickRecord(p)
  }

  /** The whole step as seen by one process, which is given the tick or not. */
  function Advance(p: Record, now: int, chosen: bool): Record {
    Executed(Dispatched(Arrived(Completed(p, now), now), now, chosen), now, chosen)
  }

  /** Equal up to the two fields that belong to the multi-level policy. */
  predicate SameCore(p: Record, q: Record) {
    p == q.(priority := p.priority, used := p.used)
  }

  // ---------- counting completions ----------

  lemma CompletionCounts(procs: seq<Record>, r: nat, p: Record)
    requires r < |procs| && !procs[r].phase.Finished? && p.phase.Finished?
    ensures |FinishedSet(procs[r := p])| == |FinishedSet(procs)| + 1
  {
    assert FinishedSet(procs[r := p]) == FinishedSet(procs) + {r};
  }

  lemma SameFinished(a: seq<Record>, b: seq<Record>)
    requires |a| == |b|
    requires forall i :: 0 <= i < |a| ==> a[i].phase.Finished? == b[i].phase.Finished?
    ensures FinishedSet(a) == FinishedSet(b)
  {
  }

  /** The completion counter reaches n exactly when every process has finished. */
  lemma DoneMeansAllFinished(s: Sim)
    requires Ok(s)
    ensures s.completed <= |s.procs|
    ensures Done(s) <==> forall i :: 0 <= i < |s.procs| ==> s.procs[i].phase.Finished?
  {
    var n := |s.procs|;
    BelowSize(n);
    SubsetSize(FinishedSet(s.procs), Below(n));
    assert FinishedSet(s.procs) == Below(n) <==> forall i :: 0 <= i < n ==> s.procs[i].phase.Finished? by {
      forall i: nat | i < n && FinishedSet(s.procs) == Below(n) ensures s.procs[i].phase.Finished? {
        assert i in FinishedSet(s.procs);
      }
    }
  }

  // ---------- stage by stage ----------

  /** What holds after completions were handled and until the dispatcher ran. */
  ghost predicate MidStep(s: Sim) {
    && Ok(s)
    && (s.running.Some? ==> s.procs[s.running.value].remaining > 0)
  }

  /** The fields no policy hook touches. */
  ghost predicate SameEngine(s: Sim, r: Sim) {
    && r.policy == s.policy && r.now == s.now && r.cpu == s.cpu && r.log == s.log
    && r.switches == s.switches && r.completed == s.completed && |r.procs| == |s.procs|
  }

  lemma HooksSeePhaseOnly(s: Sim, t: Sim)
    requires Shape(s) && Shape(t) && HooksHold(s, None)
    requires t.policy == s.policy && t.hooks == s.hooks && |t.procs| == |s.procs|
    requires forall i :: 0 <= i < |s.procs| ==>
      t.procs[i].phase.Ready? == s.procs[i].phase.Ready? && t.procs[i].priority == s.procs[i].priority
    ensures HooksHold(t, None)
  {
    assert forall i: nat :: Waits(t.procs, None, i) <==> Waits(s.procs, None, i);
  }

  /** c is s after the completion check. */
  ghost predicate Completes(s: Sim, c: Sim) {
    && MidStep(c) && HooksHold(c, None) && !c.preempt && c.hooks == s.hooks
    && c.policy == s.policy && c.now == s.now && c.next == s.next && c.cpu == s.cpu && c.log == s.log
    && c.switches == s.switches && |c.procs| == |s.procs|
    && c.running == (if s.running.Some? && s.running.value < |s.procs| && s.procs[s.running.value].remaining == 0
                     then None else s.running)
    && forall i :: 0 <= i < |s.procs| ==> c.procs[i] == Completed(s.procs[i], s.now)
  }

  lemma CompleteKeeps(s: Sim)
    requires Inv(s)
    ensures Completes(s, Complete(s))
  {
    hide HooksHold;
    var c := Complete(s);
    HooksSeePhaseOnly(s, c);
    if c != s {
      CompletionCounts(s.procs, s.running.value, c.procs[s.running.value]);
    }
  }

  /** b is s after the arrival of the next process. */
  ghost predicate ArrivesOne(s: Sim, b: Sim) {
    && SameEngine(s, b) && b.running == s.running && b.next == s.next + 1 <= |s.procs|
    && (s.running.None? || !(s.policy.STCF? || s.policy.MLFQ?) ==> b.preempt == s.preempt)
    && SameCore(b.procs[s.next], Arrived(s.procs[s.next], s.now))
    && forall i :: 0 <= i < |s.procs| && i != s.next ==> b.procs[i] == s.procs[i]
  }

  lemma ArriveOneFrame(s: Sim)
    requires Shape(s) && s.next < |s.procs| && s.procs[s.next].arrival <= s.now && s.procs[s.next].phase.NotArrived?
    ensures ArrivesOne(s, ArriveOne(s))
  {
  }

  lemma ArriveOneOk(s: Sim, b: Sim)
    requires MidStep(s) && Shape(b) && ArrivesOne(s, b) && s.procs[s.next].arrival <= s.now
    ensures MidStep(b)
  {
    assert ProcOk(s.procs[s.next], s.next, s.next, s.running);
    SameFinished(s.procs, b.procs);
    hide Shape;
  }

  lemma ArriveOneKeeps(s: Sim)
    requires MidStep(s) && HooksHold(s, None)
    requires s.next < |s.procs| && s.procs[s.next].arrival <= s.now
    ensures var b := ArriveOne(s);
      MidStep(b) && HooksHold(b, None) && ArrivesOne(s, b)
  {
    assert ProcOk(s.procs[s.next], s.next, s.next, s.running);
    assert Ok(s) && Shape(s);
    hide ArriveOne, ArrivesOne, MidStep, HooksHold, Ok, Shape;
    ArriveOneFrame(s);
    ArriveOneOk(s, ArriveOne(s));
    ArriveOneQueues(s);
  }

  lemma ArriveOneQueues(s: Sim)
    requires Ok(s) && HooksHold(s, None) && s.next < |s.procs|
    ensures HooksHold(ArriveOne(s), None)
  {
    var a := ArriveOne(s);
    assert !Waits(s.procs, None, s.next);
    assert forall i: nat :: Waits(a.procs, None, i) <==> Waits(s.procs, None, i) || i == s.next;
    if s.policy.RR? {
      assert s.next !in s.hooks.queue;
    } else if s.policy.MLFQ? {
      assert s.next !in s.hooks.queues[0];
    }
  }

  /** a is c after every process whose time has come has arrived. */
  ghost predicate Arrives(c: Sim, a: Sim) {
    && MidStep(a) && HooksHold(a, None)
    && SameEngine(c, a) && a.running == c.running && c.next <= a.next
    && (c.running.None? || !(c.policy.STCF? || c.policy.MLFQ?) ==> a.preempt == c.preempt)
    && (forall i :: 0 <= i < a.next ==> a.procs[i].arrival <= a.now)
    && (forall i :: a.next <= i < |a.procs| ==> a.now < a.procs[i].arrival)
    && forall i :: 0 <= i < |c.procs| ==> SameCore(a.procs[i], Arrived(c.procs[i], c.now))
  }

  lemma {:induction false} ArriveKeeps(s: Sim)
    requires MidStep(s) && HooksHold(s, None)
    requires forall i :: 0 <= i < s.next ==> s.procs[i].arrival <= s.now
    ensures Arrives(s, Arrive(s))
    decreases |s.procs| - s.next
  {
    if s.next < |s.procs| && s.procs[s.next].arrival <= s.now && s.procs[s.next].phase.NotArrived? {
      hide HooksHold, ArriveOne;
      ArriveOneKeeps(s);
      var b := ArriveOne(s);
      OneMoreArrives(s, b, b);
      hide MidStep, ArrivesOne, Arrives;
      ArriveKeeps(b);
      OneMoreArrives(s, b, Arrive(b));
    } else {
      NobodyArrives(s);
      hide *;
    }
  }

  lemma NobodyArrives(s: Sim)
    requires MidStep(s) && HooksHold(s, None)
    requires forall i :: 0 <= i < s.next ==> s.procs[i].arrival <= s.now
    requires !(s.next < |s.procs| && s.procs[s.next].arrival <= s.now && s.procs[s.next].phase.NotArrived?)
    ensures Arrives(s, s)
  {
    assert forall i :: 0 <= i < |s.procs| ==> ProcOk(s.procs[i], i, s.next, s.running);
    hide HooksHold, Shape;
  }

  lemma OneMoreArrives(s: Sim, b: Sim, a: Sim)
    requires MidStep(s) && ArrivesOne(s, b) && s.procs[s.next].arrival <= s.now
    requires forall i :: 0 <= i < s.next ==> s.procs[i].arrival <= s.now
    ensures forall i :: 0 <= i < b.next ==> b.procs[i].arrival <= b.now
    ensures Arrives(b, a) ==> Arrives(s, a)
  {
    assert ProcOk(s.procs[s.next], s.next, s.next, s.running);
    hide HooksHold, MidStep;
  }

  /** t is a after the policy tick: the running process waits in a queue exactly if preemption
      is requested. */
  ghost predicate Ticks(a: Sim, t: Sim) {
    && MidStep(t) && HooksHold(t, if t.preempt then t.running else None)
    && SameEngine(a, t) && t.running == a.running && t.next == a.next
    && forall i :: 0 <= i < |a.procs| ==> SameCore(t.procs[i], a.procs[i])
  }

  lemma TickKeeps(s: Sim)
    requires MidStep(s) && HooksHold(s, None)
    requires s.running.None? || !(s.policy.STCF? || s.policy.MLFQ?) ==> !s.preempt
    ensures Ticks(s, Tick(s))
  {
    TickFrame(s);
    SameFinished(s.procs, Tick(s).procs);
    TickQueues(s);
    hide Tick, HooksHold;
  }

  lemma TickFrame(s: Sim)
    requires Shape(s)
    ensures var t := Tick(s);
      && SameEngine(s, t) && t.running == s.running && t.next == s.next
      && forall i :: 0 <= i < |s.procs| ==> SameCore(t.procs[i], s.procs[i])
  {
  }

  lemma TickQueues(s: Sim)
    requires MidStep(s) && HooksHold(s, None)
    requires s.running.None? || !(s.policy.STCF? || s.policy.MLFQ?) ==> !s.preempt
    ensures var t := Tick(s);
      HooksHold(t, if t.preempt then t.running else None)
  {
    if s.running.Some? {
      if s.policy.MLFQ? {
        if s.hooks.timer + 1 >= s.policy.period { BoostKeeps(s); } else { ChargeKeeps(s); }
      } else {
        assert !Waits(s.procs, None, s.running.value);
      }
    }
  }

  lemma ChargeKeeps(s: Sim)
    requires MidStep(s) && HooksHold(s, None)
    requires s.policy.MLFQ? && s.running.Some?
    ensures var t := Charge(s);
      HooksHold(t, if t.preempt then t.running else None)
  {
    var r := s.running.value;
    var t := Charge(s);
    assert !Waits(s.procs, None, r);
    assert Placed(s.procs, s.hooks.queues, None);
    assert forall i :: 0 <= i < |s.procs| && i != r ==> t.procs[i] == s.procs[i];
    assert t.procs[r].phase == s.procs[r].phase && 0 <= t.procs[r].priority < |s.hooks.queues|;
    if t.hooks.queues == s.hooks.queues {
      NothingJoins(s.procs, t.procs, s.hooks.queues, r);
    } else {
      OneJoins(s.procs, t.procs, s.hooks.queues, r);
    }
    hide Placed, Waits, MidStep;
  }

  lemma NothingJoins(before: seq<Record>, after: seq<Record>, queues: seq<seq<nat>>, r: nat)
    requires Placed(before, queues, None) && !Waits(before, None, r) && r < |after| == |before|
    requires (forall i :: 0 <= i < |before| && i != r ==> after[i] == before[i]) && after[r].phase == before[r].phase
    ensures Placed(after, queues, None)
  {
    assert forall i: nat :: Waits(after, None, i) <==> Waits(before, None, i);
  }

  /** The running process queues up at its level. */
  lemma OneJoins(before: seq<Record>, after: seq<Record>, queues: seq<seq<nat>>, r: nat)
    requires Placed(before, queues, None) && !Waits(before, None, r) && r < |after| == |before|
    requires (forall i :: 0 <= i < |before| && i != r ==> after[i] == before[i]) && after[r].phase == before[r].phase
    requires 0 <= after[r].priority < |queues|
    ensures Placed(after, Enqueue(queues, after[r].priority, r), Some(r))
  {
    assert forall i: nat :: Waits(after, Some(r), i) <==> Waits(before, None, i) || i == r;
    assert forall l :: 0 <= l < |queues| ==> r !in queues[l];
  }

  lemma {:induction false} FlattenDistinct(queues: seq<seq<nat>>)
    requires forall l :: 0 <= l < |queues| ==> Distinct(queues[l])
    requires forall l, m, x: nat :: 0 <= l < m < |queues| && x in queues[l] ==> x !in queues[m]
    ensures Distinct(Flatten(queues))
  {
    if queues != [] {
      var lower := queues[1..];
      assert forall l :: 0 <= l < |lower| ==> lower[l] == queues[l + 1];
      FlattenDistinct(lower);
      FlattenMembers(lower);
      DistinctConcat(queues[0], Flatten(lower));
    }
  }

  /** The flattened queues list the waiting processes, each once. */
  lemma FlattenedQueues(procs: seq<Record>, queues: seq<seq<nat>>, extra: Slot)
    requires Placed(procs, queues, extra) && queues != []
    ensures Distinct(Flatten(queues))
    ensures forall i: nat :: i in Flatten(queues) <==> Waits(procs, extra, i)
    ensures forall i: nat :: i in Flatten(queues[1..]) <==> Waits(procs, extra, i) && procs[i].priority > 0
  {
    forall l, m, x: nat | 0 <= l < m < |queues| && x in queues[l] ensures x !in queues[m] {
      assert Waits(procs, extra, x) && procs[x].priority == l;
    }
    FlattenDistinct(queues);
    FlattenMembers(queues);
    FlattenMembers(queues[1..]);
    var lower := queues[1..];
    assert forall l :: 0 <= l < |lower| ==> lower[l] == queues[l + 1];
    forall i: nat | Waits(procs, extra, i) && procs[i].priority > 0 ensures i in Flatten(lower) {
      assert i in lower[procs[i].priority - 1];
    }
  }

  lemma BoostKeeps(s: Sim)
    requires MidStep(s) && HooksHold(s, None)
    requires s.policy.MLFQ? && s.running.Some?
    ensures HooksHold(Boost(s), s.running)
  {
    var r := s.running.value;
    var q := Flatten(s.hooks.queues);
    FlattenedQueues(s.procs, s.hooks.queues, None);
    assert !Waits(s.procs, None, r);
    var t := Boost(s);
    assert t.hooks.queues[0] == q + [r] && forall l :: 1 <= l < |t.hooks.queues| ==> t.hooks.queues[l] == [];
    forall i: nat
      ensures Waits(t.procs, s.running, i) <==> Waits(s.procs, None, i) || i == r
      ensures Waits(t.procs, s.running, i) ==> t.procs[i].priority == 0
    {
    }
    hide Flatten, MidStep, Boost, Shape, TopOnly;
    TopHolds(t.procs, t.hooks.queues, s.running, q, r);
  }

  lemma TopHolds(procs: seq<Record>, queues: seq<seq<nat>>, extra: Slot, q: seq<nat>, r: nat)
    requires 1 <= |queues| && queues[0] == q + [r] && forall l :: 1 <= l < |queues| ==> queues[l] == []
    requires Distinct(q) && r !in q && forall i: nat :: i in q || i == r <==> Waits(procs, extra, i)
    requires forall i: nat :: Waits(procs, extra, i) ==> procs[i].priority == 0
    ensures Placed(procs, queues, extra)
  {
    DistinctConcat(q, [r]);
  }

  lemma {:induction false} ScanFinds(policy: Policy, procs: seq<Record>, k: nat)
    requires k <= |procs|
    ensures var best := Scan(policy, procs, k);
      && (best.Some? ==> procs[best.value].phase.Ready?)
      && (best.None? ==> forall i :: 0 <= i < k ==> !procs[i].phase.Ready?)
  {
    if k > 0 {
      ScanFinds(policy, procs, k - 1);
    }
  }

  /** The contract of every policy: it names a waiting process whenever there is one, and
      takes it out of its queues. */
  lemma NextProcessWorks(s: Sim, extra: Slot, procs: seq<Record>)
    requires Shape(s) && HooksHold(s, extra) && |procs| == |s.procs|
    requires forall i :: 0 <= i < |procs| ==> procs[i].priority == s.procs[i].priority
    requires forall i: nat :: i < |procs| ==> (procs[i].phase.Ready? <==> Waits(s.procs, extra, i))
    ensures var (next, hooks) := NextProcess(s.policy, procs, s.hooks);
      && (next.None? ==> hooks == s.hooks && forall i: nat :: !Waits(s.procs, extra, i))
      && (next.Some? ==>
            && Waits(s.procs, extra, next.value)
            && var t := s.(procs := procs[next.value := procs[next.value].(phase := Running)], hooks := hooks);
               Shape(t) && HooksHold(t, None))
  {
    ScanFinds(s.policy, procs, |procs|);
    if s.policy.MLFQ? {
      var l := FirstLevel(s.hooks.queues, 0);
      LowestLevel(s.procs, s.hooks.queues, extra);
      if l < |s.hooks.queues| { TakeHead(s.procs, s.hooks.queues, extra, procs, l); }
      hide Placed, Waits;
    } else if s.policy.RR? && s.hooks.queue != [] {
      NextInQueueWorks(s.procs, s.hooks.queue, extra, procs);
    }
  }

  lemma NextInQueueWorks(before: seq<Record>, q: seq<nat>, extra: Slot, procs: seq<Record>)
    requires Lined(before, q, extra) && q != [] && |procs| == |before|
    requires forall i: nat :: i < |procs| ==> (procs[i].phase.Ready? <==> Waits(before, extra, i))
    ensures Waits(before, extra, q[0])
    ensures Lined(procs[q[0] := procs[q[0]].(phase := Running)], q[1..], None)
  {
    assert q[0] in q;
    assert forall x :: x in q[1..] <==> x in q && x != q[0];
  }

  /** The head of the first occupied level waits, and nobody waits above it. */
  lemma LowestLevel(procs: seq<Record>, queues: seq<seq<nat>>, extra: Slot)
    requires Placed(procs, queues, extra)
    ensures var l := FirstLevel(queues, 0);
      && (l == |queues| ==> forall i: nat :: !Waits(procs, extra, i))
      && (l < |queues| ==> Waits(procs, extra, queues[l][0]) && procs[queues[l][0]].priority == l)
      && forall i: nat :: Waits(procs, extra, i) ==> l <= procs[i].priority
  {
    var l := FirstLevel(queues, 0);
    hide FirstLevel;
    forall i: nat | Waits(procs, extra, i) ensures l <= procs[i].priority < |queues| {
      var level := procs[i].priority;
      assert i in queues[level];
      assert queues[level] != [];
    }
    if l < |queues| {
      var head := queues[l][0];
      assert head in queues[l];
    }
    hide Placed;
  }

  lemma TakeHead(before: seq<Record>, queues: seq<seq<nat>>, extra: Slot, procs: seq<Record>, l: nat)
    requires Placed(before, queues, extra) && |procs| == |before|
    requires forall i :: 0 <= i < |procs| ==> procs[i].priority == before[i].priority
    requires forall i: nat :: i < |procs| ==> (procs[i].phase.Ready? <==> Waits(before, extra, i))
    requires l < |queues| && queues[l] != [] && Waits(before, extra, queues[l][0])
    ensures Placed(procs[queues[l][0] := procs[queues[l][0]].(phase := Running)], queues[l := queues[l][1..]], None)
  {
    var r := queues[l][0];
    assert r in queues[l];
    var after := procs[r := procs[r].(phase := Running)];
    var rest := queues[l := queues[l][1..]];
    assert forall i: nat :: Waits(after, None, i) <==> Waits(before, extra, i) && i != r;
    assert forall i: nat :: i in rest[l] <==> i in queues[l] && i != r;
    forall m, i: nat | 0 <= m < |rest| && i in rest[m] ensures Waits(after, None, i) && after[i].priority == m {
      assert i in queues[m];
    }
    forall i: nat | Waits(after, None, i) ensures i in rest[after[i].priority] {
      assert i in queues[before[i].priority];
    }
  }

  /** d is t after dispatching: the CPU is idle only if nobody is READY. */
  ghost predicate Dispatches(t: Sim, d: Sim) {
    && Ok(d) && HooksHold(d, None) && |d.procs| == |t.procs|
    && d.policy == t.policy && d.now == t.now && d.cpu == t.cpu && d.log == t.log && d.next == t.next
    && (t.running.None? || t.preempt ==> !d.preempt)
    && (t.running.Some? && !t.preempt ==> d == t)
    && (d.running.None? ==> forall i :: 0 <= i < |d.procs| ==> !d.procs[i].phase.Ready?)
    && (d.running.Some? && d.running.value < |t.procs| ==>
          t.procs[d.running.value].phase.Ready? || d.running == t.running)
    && forall i: nat :: i < |t.procs| ==> d.procs[i] == Dispatched(t.procs[i], t.now, d.running == Some(i))
  }

  lemma DispatchKeeps(s: Sim)
    requires MidStep(s) && HooksHold(s, if s.preempt then s.running else None)
    ensures Dispatches(s, Dispatch(s))
  {
    hide HooksHold;
    if s.running.None? || s.preempt {
      var extra := if s.preempt then s.running else None;
      var procs := if s.running.Some?
                   then s.procs[s.running.value := s.procs[s.running.value].(phase := Ready)]
                   else s.procs;
      NextProcessWorks(s, extra, procs);
      var (next, hooks) := NextProcess(s.policy, procs, s.hooks);
      DispatchEffect(s, procs, next, hooks);
      var d := Dispatch(s);
      hide Dispatch, NextProcess;
      DispatchedOk(s, d);
      HooksSeePhaseOnly(if next.None? then s else
                        s.(procs := procs[next.value := procs[next.value].(phase := Running)], hooks := hooks), d);
    }
  }

  lemma DispatchedOk(s: Sim, d: Sim)
    requires MidStep(s) && Shape(d) && |d.procs| == |s.procs|
    requires d == s.(procs := d.procs, running := d.running, hooks := d.hooks, preempt := false, switches := d.switches)
    requires forall i: nat :: i < |s.procs| ==> d.procs[i] == Dispatched(s.procs[i], s.now, d.running == Some(i))
    requires d.running.Some? ==> s.procs[d.running.value].phase.Ready? || d.running == s.running
    ensures Ok(d)
  {
    SameFinished(s.procs, d.procs);
  }

  lemma DispatchEffect(s: Sim, procs: seq<Record>, next: Slot, hooks: Hooks)
    requires MidStep(s) && (s.running.None? || s.preempt)
    requires procs == if s.running.Some?
                      then s.procs[s.running.value := s.procs[s.running.value].(phase := Ready)]
                      else s.procs
    requires (next, hooks) == NextProcess(s.policy, procs, s.hooks)
    requires next.Some? ==> next.value < |procs| && procs[next.value].phase.Ready?
    requires next.None? ==> s.running.None?
    ensures var d := Dispatch(s);
      && d == s.(procs := d.procs, running := next, hooks := hooks, preempt := false, switches := d.switches)
      && forall i: nat :: i < |s.procs| ==> d.procs[i] == Dispatched(s.procs[i], s.now, next == Some(i))
  {
  }

  /** The Gantt entry of a tick: only a process with work to do shows up under its name. */
  function Label(procs: seq<Record>, slot: Slot): string {
    if slot.Some? && slot.value < |procs| && procs[slot.value].burst > 0 then procs[slot.value].pid else "-"
  }

  /** What the execution stage does, field by field. */
  ghost predicate Executes(s: Sim, e: Sim) {
    && e.policy == s.policy && e.now == s.now + 1 && e.cpu == s.cpu + [s.running] && e.next == s.next
    && e.hooks == s.hooks && e.switches == s.switches && e.preempt == s.preempt && |e.procs| == |s.procs|
    && (e.running.Some? ==> e.running == s.running)
    && e.log == s.log + [Label(s.procs, s.running)]
    && forall i: nat :: i < |s.procs| ==> e.procs[i] == Executed(s.procs[i], s.now, s.running == Some(i))
  }

  lemma ExecuteFrame(s: Sim)
    requires Ok(s)
    requires forall i :: 0 <= i < |s.procs| && s.procs[i].phase.Running? && s.procs[i].remaining == 0 ==>
      s.procs[i].burst == 0
    ensures Executes(s, Execute(s)) && Execute(s).completed == |FinishedSet(Execute(s).procs)|
    ensures forall i :: 0 <= i < |s.procs| ==> ProcOk(Execute(s).procs[i], i, Execute(s).next, Execute(s).running)
    ensures Execute(s).running.Some? ==> 0 < s.procs[Execute(s).running.value].burst
  {
    var e := Execute(s);
    assert forall i :: 0 <= i < |s.procs| ==> ProcOk(s.procs[i], i, s.next, s.running);
    if s.running.Some? && s.procs[s.running.value].remaining == 0 {
      CompletionCounts(s.procs, s.running.value, e.procs[s.running.value]);
    } else {
      SameFinished(s.procs, e.procs);
    }
    hide Shape, FinishedSet;
  }

  lemma ExecutedInv(s: Sim, e: Sim)
    requires Ok(s) && HooksHold(s, None) && !s.preempt && Shape(e) && Executes(s, e)
    requires forall i :: 0 <= i < s.next ==> s.procs[i].arrival <= s.now
    requires forall i :: s.next <= i < |s.procs| ==> s.now < s.procs[i].arrival
    requires e.completed == |FinishedSet(e.procs)|
    requires forall i :: 0 <= i < |s.procs| ==> ProcOk(e.procs[i], i, e.next, e.running)
    requires e.running.Some? ==> 0 < s.procs[e.running.value].burst
    ensures Inv(e)
  {
    assert forall i :: 0 <= i < |s.procs| ==> ProcOk(s.procs[i], i, s.next, s.running);
    assert forall i :: 0 <= i < |s.procs| ==>
      && e.procs[i].arrival == s.procs[i].arrival && e.procs[i].burst == s.procs[i].burst
      && e.procs[i].priority == s.procs[i].priority && e.procs[i].phase.Ready? == s.procs[i].phase.Ready?;
    hide Shape, HooksHold, Executed, ProcOk, FinishedSet;
    HooksSeePhaseOnly(s, e);
  }

  lemma ExecuteKeeps(s: Sim)
    requires Ok(s) && HooksHold(s, None) && !s.preempt
    requires forall i :: 0 <= i < s.next ==> s.procs[i].arrival <= s.now
    requires forall i :: s.next <= i < |s.procs| ==> s.now < s.procs[i].arrival
    requires forall i :: 0 <= i < |s.procs| && s.procs[i].phase.Running? && s.procs[i].remaining == 0 ==>
      s.procs[i].burst == 0
    ensures Inv(Execute(s)) && Executes(s, Execute(s))
  {
    assert Shape(s) && Shape(Execute(s)) && |Execute(s).procs| == |s.procs|;
    hide Ok, HooksHold, Executes, Execute, Shape, ProcOk, FinishedSet, Inv;
    ExecuteFrame(s);
    ExecutedInv(s, Execute(s));
  }

  // ---------- the whole step ----------

  /** The stages of a step that does not end the run. */
  ghost predicate Stages(s: Sim, c: Sim, a: Sim, t: Sim, d: Sim) {
    && Shape(s) && c == Complete(s)
    && Shape(c) && a == Arrive(c)
    && Shape(a) && t == Tick(a)
    && Shape(t) && d == Dispatch(t)
    && Shape(d)
  }

  lemma StagesHold(s: Sim, c: Sim, a: Sim, t: Sim, d: Sim)
    requires Inv(s) && Stages(s, c, a, t, d)
    ensures Completes(s, c) && Arrives(c, a) && Ticks(a, t) && Dispatches(t, d)
  {
    CompleteKeeps(s);
    hide Complete, Arrive, Tick, Dispatch, HooksHold;
    ArriveKeeps(c);
    TickKeeps(a);
    DispatchKeeps(t);
  }

  /** Clock ticks a process still needs: one even if it has no work, because its dispatch takes a tick. */
  function Left(p: Record): int {
    if p.phase.Finished? then 0 else if p.burst == 0 then 1 else p.remaining
  }

  /** The tick of a step that does not end the run, as seen from outside: `slot` gets it. */
  ghost predicate Ticked(s: Sim, r: Sim, slot: Slot) {
    && r.policy == s.policy && |r.procs| == |s.procs|
    && r.now == s.now + 1 && r.cpu == s.cpu + [slot] && r.log == s.log + [Label(s.procs, slot)]
    && (forall i: nat :: i < |s.procs| ==> SameCore(r.procs[i], Advance(s.procs[i], s.now, slot == Some(i))))
    && match slot {
      case Some(j) => j < |s.procs| && s.procs[j].arrival <= s.now && 0 < Left(s.procs[j])
      case None => forall i :: 0 <= i < |s.procs| && s.procs[i].arrival <= s.now ==> Left(s.procs[i]) == 0
    }
  }

  /** The last step of a run: the clock stands still and the last completion is recorded. */
  ghost predicate Ended(s: Sim, r: Sim) {
    && Shape(s) && r == Complete(s) && Done(r)
    && s.running.Some? && s.running.value < |s.procs|
    && (forall i :: 0 <= i < |s.procs| ==> Left(s.procs[i]) == 0)
  }

  function LastSlot(s: Sim): Slot {
    if s.cpu == [] then None else s.cpu[|s.cpu| - 1]
  }

  lemma LastStepEnds(s: Sim)
    requires Inv(s) && !Done(s)
    requires Complete(s).completed == |s.procs|
    ensures Step(s) == Complete(s) && Ended(s, Step(s))
  {
    var c := Complete(s);
    CompleteKeeps(s);
    DoneMeansAllFinished(c);
    hide HooksHold;
  }

  lemma EndHolds(s: Sim, c: Sim)
    requires Inv(s) && Completes(s, c)
    ensures Inv(c)
  {
    hide HooksHold;
  }

  lemma SlotIsLast(s: Sim, r: Sim, slot: Slot)
    requires Ticked(s, r, slot)
    ensures LastSlot(r) == slot
  {
  }

  /** Every step keeps the invariant, and hands its tick to a process that has arrived and has
      something left, unless there is none. */
  lemma StepKeeps(s: Sim)
    requires Inv(s) && !Done(s)
    ensures var r := Step(s);
      && Inv(r)
      && if Complete(s).completed == |s.procs| then Ended(s, r) else Ticked(s, r, LastSlot(r))
  {
    if Complete(s).completed == |s.procs| {
      LastStepEnds(s);
      CompleteKeeps(s);
      hide Ended, Complete, Step, HooksHold;
      EndHolds(s, Complete(s));
    } else {
      var c := Complete(s);
      var a := Arrive(c);
      var t := Tick(a);
      var d := Dispatch(t);
      assert Stages(s, c, a, t, d) && Step(s) == Execute(d);
      hide *;
      StagesHold(s, c, a, t, d);
      ExecuteStage(s, c, a, t, d);
      SlotIsLast(s, Execute(d), d.running);
    }
  }

  lemma ExecuteStage(s: Sim, c: Sim, a: Sim, t: Sim, d: Sim)
    requires Inv(s) && Stages(s, c, a, t, d)
    requires Completes(s, c) && Arrives(c, a) && Ticks(a, t) && Dispatches(t, d)
    ensures Inv(Execute(d)) && Ticked(s, Execute(d), d.running)
  {
    hide HooksHold, Complete, Arrive, Tick, Dispatch;
    SlotIsDue(s, c, a, t, d);
    RunsWithWork(s, c, a, t, d);
    ExecuteKeeps(d);
    var e := Execute(d);
    forall i: nat | i < |s.procs|
      ensures SameCore(e.procs[i], Advance(s.procs[i], s.now, d.running == Some(i)))
      ensures s.procs[i].pid == d.procs[i].pid && s.procs[i].burst == d.procs[i].burst
    {
      AdvanceComposes(s.procs[i], a.procs[i], t.procs[i], s.now, d.running == Some(i));
    }
    hide Execute, Advance, Executed, Dispatched, Arrived, Completed, Ok, MidStep, Inv;
  }

  lemma AdvanceComposes(p: Record, a: Record, t: Record, now: int, chosen: bool)
    requires SameCore(a, Arrived(Completed(p, now), now)) && SameCore(t, a)
    ensures SameCore(Executed(Dispatched(t, now, chosen), now, chosen), Advance(p, now, chosen))
    ensures Dispatched(t, now, chosen).pid == p.pid && Dispatched(t, now, chosen).burst == p.burst
  {
  }

  lemma RunsWithWork(s: Sim, c: Sim, a: Sim, t: Sim, d: Sim)
    requires Inv(s) && Completes(s, c) && Arrives(c, a) && Ticks(a, t) && Dispatches(t, d)
    ensures !d.preempt
    ensures forall i :: 0 <= i < d.next ==> d.procs[i].arrival <= d.now
    ensures forall i :: d.next <= i < |d.procs| ==> d.now < d.procs[i].arrival
    ensures forall i :: 0 <= i < |d.procs| && d.procs[i].phase.Running? && d.procs[i].remaining == 0 ==>
      d.procs[i].burst == 0
  {
    hide HooksHold;
  }

  lemma SlotIsDue(s: Sim, c: Sim, a: Sim, t: Sim, d: Sim)
    requires Inv(s) && Completes(s, c) && Arrives(c, a) && Ticks(a, t) && Dispatches(t, d)
    ensures d.running.Some? ==>
      d.running.value < |s.procs| && s.procs[d.running.value].arrival <= s.now && 0 < Left(s.procs[d.running.value])
    ensures d.running.None? ==>
      forall i :: 0 <= i < |s.procs| && s.procs[i].arrival <= s.now ==> Left(s.procs[i]) == 0
  {
    hide HooksHold;
  }

  /** A process without work gives the CPU back at once. */
  lemma RunningAfter(s: Sim, c: Sim, a: Sim, t: Sim, d: Sim)
    requires Inv(s) && Stages(s, c, a, t, d)
    requires Completes(s, c) && Arrives(c, a) && Ticks(a, t) && Dispatches(t, d)
    ensures Execute(d).hooks == d.hooks && Execute(d).next == d.next && Execute(d).switches == d.switches
    ensures Execute(d).running ==
            if d.running.Some? && s.procs[d.running.value].burst == 0 then None else d.running
  {
    hide HooksHold;
    RunsWithWork(s, c, a, t, d);
    if d.running.Some? {
      var j := d.running.value;
      AdvanceComposes(s.procs[j], a.procs[j], t.procs[j], s.now, true);
      assert ProcOk(d.procs[j], j, d.next, d.running);
    }
  }

  /** The running process has not used up its work. */
  predicate Occupied(s: Sim)
    requires Shape(s)
  {
    s.running.Some? && s.procs[s.running.value].remaining > 0
  }

  /** A context switch is counted exactly when a process that is not through loses the CPU. */
  lemma SwitchesCounted(s: Sim)
    requires Inv(s) && !Done(s) && Complete(s).completed != |s.procs|
    ensures var r := Step(s);
      r.switches == s.switches + if Occupied(s) && LastSlot(r) != s.running then 1 else 0
  {
    var c := Complete(s);
    var a := Arrive(c);
    var t := Tick(a);
    var d := Dispatch(t);
    assert Stages(s, c, a, t, d) && Shape(s) && Shape(t) && Step(s) == Execute(d);
    hide *;
    StagesHold(s, c, a, t, d);
    ExecuteStage(s, c, a, t, d);
    RunningAfter(s, c, a, t, d);
    DispatchSwitches(t);
    SwitchOfTick(s, c, a, t, d, Execute(d));
  }

  lemma SwitchOfTick(s: Sim, c: Sim, a: Sim, t: Sim, d: Sim, e: Sim)
    requires Shape(s) && Completes(s, c) && Arrives(c, a) && Ticks(a, t) && Ticked(s, e, d.running)
    requires d.switches == t.switches + if t.running.Some? && d.running != t.running then 1 else 0
    requires e.switches == d.switches
    ensures e.switches == s.switches + if Occupied(s) && LastSlot(e) != s.running then 1 else 0
  {
    hide HooksHold, Arrived, Advance;
  }

  lemma DispatchSwitches(t: Sim)
    requires Shape(t)
    ensures var d := Dispatch(t);
      d.switches == t.switches + if t.running.Some? && d.running != t.running then 1 else 0
  {
    hide NextProcess;
  }
}
