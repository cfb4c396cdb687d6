/** Under FCFS, round robin and MLFQ processes first run in the order of the sorted array: a process that
    has not run yet stands in one queue, behind everybody who came before it. */
module StartOrder {
  import opened Basics
  import opened Processes
  import opened Model
  import opened Engine
  import opened Runs
  import opened Accounting
  import opened RoundRobin
  import opened Mlfq
  import opened Blindness
  import Fcfs

  /** The queue a newcomer enters. */
  function EntryQueue(s: Sim): seq<nat>
    requires Shape(s) && (s.policy.RR? || s.policy.MLFQ?)
  {
    if s.policy.RR? then s.hooks.queue else s.hooks.queues[0]
  }

  predicate Fresh(procs: seq<Record>, i: nat) {
    i < |procs| && procs[i].start == -1
  }

  ghost predicate StartsInOrder(procs: seq<Record>, now: int) {
    && (forall i :: 0 <= i < |procs| ==> procs[i].start < now)
    && (forall i: nat, j: nat :: i < j < |procs| && !Fresh(procs, j) ==>
          !Fresh(procs, i) && procs[i].start < procs[j].start)
  }

  /** Processes that have not run yet stand in the queue in array order. */
  ghost predicate FreshInOrder(procs: seq<Record>, queue: seq<nat>) {
    forall a, b :: 0 <= a < b < |queue| && Fresh(procs, queue[a]) && Fresh(procs, queue[b]) ==> queue[a] < queue[b]
  }

  /** ... and exactly those who have arrived are there. */
  ghost predicate FreshQueued(procs: seq<Record>, queue: seq<nat>, next: nat) {
    && (forall i: nat :: Fresh(procs, i) && i < next ==> i in queue)
    && (forall k :: 0 <= k < |queue| && Fresh(procs, queue[k]) ==> queue[k] < next)
  }

  ghost predicate InArrayOrder(s: Sim)
    requires Shape(s) && (s.policy.RR? || s.policy.MLFQ?)
  {
    && StartsInOrder(s.procs, s.now)
    && FreshInOrder(s.procs, EntryQueue(s))
    && FreshQueued(s.procs, EntryQueue(s), s.next)
  }

  // ---------- what a step does to the queue ----------

  /** During the step the newcomers s.next, ..., next - 1 queue up behind `before`, and behind them perhaps some who have
      run already; this is the queue the dispatcher sees. If it takes somebody who has not run yet, it
      takes the head. */
  ghost predicate MovesUp(procs: seq<Record>, before: seq<nat>, came: seq<nat>, atDispatch: seq<nat>, after: seq<nat>, slot: Slot) {
    && before + came <= atDispatch
    && (forall k :: |before + came| <= k < |atDispatch| ==> !Fresh(procs, atDispatch[k]))
    && (after == atDispatch || (atDispatch != [] && after == atDispatch[1..] && slot == Some(atDispatch[0])))
    && (slot.Some? && Fresh(procs, slot.value) ==> atDispatch != [] && slot.value == atDispatch[0] && after == atDispatch[1..])
  }

  lemma RoundRobinMovesUp(s: Sim, r: Sim, slot: Slot)
    requires Inv(s) && Shape(r) && s.policy.RR? && r.policy == s.policy && RrEffect(s, r, slot)
    ensures s.next <= r.next
    ensures var q := s.hooks.queue + Range(s.next, r.next) + if Continues(s) || !Occupied(s) then [] else [s.running.value];
      MovesUp(s.procs, s.hooks.queue, Range(s.next, r.next), q, r.hooks.queue, slot)
  {
    var q := s.hooks.queue + Range(s.next, r.next);
    assert q + [] == q;
    if s.running.Some? { assert ProcOk(s.procs[s.running.value], s.running.value, s.next, s.running); }
    hide HooksHold;
  }

  /** Whoever stands below level 0, or is running, has run. */
  ghost predicate LowerHaveRun(s: Sim, queues: seq<seq<nat>>) {
    && (s.running.Some? ==> !Fresh(s.procs, s.running.value))
    && forall l, i: nat :: 1 <= l < |queues| && i in queues[l] ==> !Fresh(s.procs, i)
  }

  lemma WaitingLowerHaveRun(s: Sim)
    requires Inv(s) && s.policy.MLFQ? && FreshAtTop(s)
    ensures LowerHaveRun(s, s.hooks.queues)
  {
    if s.running.Some? { assert ProcOk(s.procs[s.running.value], s.running.value, s.next, s.running); }
    assert Placed(s.procs, s.hooks.queues, None);
    hide Inv, HooksHold, Shape;
  }

  lemma LowerLevelsHaveRun(s: Sim, queues: seq<seq<nat>>)
    requires LowerHaveRun(s, queues) && queues != []
    ensures forall k :: 0 <= k < |Flatten(queues[1..])| ==> !Fresh(s.procs, Flatten(queues[1..])[k])
  {
    var lower := queues[1..];
    FlattenMembers(lower);
    forall k | 0 <= k < |Flatten(lower)| ensures !Fresh(s.procs, Flatten(lower)[k]) {
      var i := Flatten(lower)[k];
      assert i in Flatten(lower);
      var l :| 0 <= l < |lower| && i in lower[l];
      assert i in queues[l + 1];
    }
    hide Flatten;
  }

  lemma LevelsAtDispatch(s: Sim, next: nat)
    requires Shape(s) && s.policy.MLFQ? && s.next <= next && LowerHaveRun(s, s.hooks.queues)
    ensures var queues, entered := QueuesAfterTick(s, next), s.hooks.queues[0] + Range(s.next, next);
      && entered <= queues[0]
      && (forall k :: |entered| <= k < |queues[0]| ==> !Fresh(s.procs, queues[0][k]))
      && LowerHaveRun(s, queues)
  {
    var queues := Admitted(s, next);
    LowerLevelsHaveRun(s, s.hooks.queues);
    assert queues[1..] == s.hooks.queues[1..];
    assert Flatten(queues) == queues[0] + Flatten(queues[1..]);
    hide Flatten, Shape, Fresh;
  }

  lemma MlfqMovesUp(s: Sim, r: Sim, slot: Slot)
    requires Inv(s) && Shape(r) && s.policy.MLFQ? && r.policy == s.policy && |r.procs| == |s.procs|
    requires MlfqEffect(s, r, slot) && FreshAtTop(s)
    ensures s.next <= r.next
    ensures MovesUp(s.procs, s.hooks.queues[0], Range(s.next, r.next), QueuesAfterTick(s, r.next)[0], r.hooks.queues[0], slot)
  {
    var queues := QueuesAfterTick(s, r.next);
    assert Shape(s);
    WaitingLowerHaveRun(s);
    LevelsAtDispatch(s, r.next);
    hide Inv, QueuesAfterTick, FreshAtTop, Fresh, Shape, LevelAfter;
    if VerdictOf(s, r.next).Keeps? {
      assert slot == s.running;
    } else {
      var l := FirstLevel(queues, 0);
      if 0 < l < |queues| { assert queues[l][0] in queues[l]; }
    }
  }

  // ---------- the order is kept ----------

  lemma NewcomersQueueUp(procs: seq<Record>, before: seq<nat>, came: seq<nat>, q: seq<nat>, next: nat, next': nat)
    requires FreshInOrder(procs, before) && FreshQueued(procs, before, next) && next <= next' && came == Range(next, next')
    requires before + came <= q && (forall k :: |before + came| <= k < |q| ==> !Fresh(procs, q[k]))
    ensures FreshInOrder(procs, q) && FreshQueued(procs, q, next')
  {
    RangeMembers(next, next');
    var entered := before + came;
    forall k | 0 <= k < |q| && Fresh(procs, q[k]) ensures k < |entered| && q[k] == entered[k] < next' {
      if k < |entered| { assert entered == q[..|entered|]; }
    }
    forall j: nat | Fresh(procs, j) && j < next' ensures j in q {
      if j < next { assert j in before; } else { assert j in came; }
      assert j in entered;
      assert q[..|entered|] == entered;
    }
    forall a, b | 0 <= a < b < |q| && Fresh(procs, q[a]) && Fresh(procs, q[b]) ensures q[a] < q[b] {
      if b < |before| {
        assert before[a] == q[a] && before[b] == q[b];
      } else if a < |before| {
        assert before[a] == q[a];
      }
    }
    hide Fresh;
  }

  lemma HeadIsFirst(procs: seq<Record>, q: seq<nat>, next: nat, i: nat)
    requires FreshInOrder(procs, q) && FreshQueued(procs, q, next) && q != [] && Fresh(procs, q[0]) && i < q[0]
    ensures !Fresh(procs, i)
  {
    assert Fresh(procs, i) && i < next ==> i in q;
    hide Fresh;
  }

  /** The process given the tick starts now, unless it has run before; nobody else does. */
  ghost predicate OneStarts(before: seq<Record>, after: seq<Record>, slot: Slot, now: int) {
    && |after| == |before|
    && forall i: nat :: i < |before| ==>
         after[i].start == if slot == Some(i) && before[i].start == -1 then now else before[i].start
  }

  lemma TickStartsOne(s: Sim, r: Sim, slot: Slot)
    requires Inv(s) && Ticked(s, r, slot)
    ensures OneStarts(s.procs, r.procs, slot, s.now) && 0 <= s.now && r.now == s.now + 1
  {
    forall i: nat | i < |s.procs|
      ensures r.procs[i].start == if slot == Some(i) && s.procs[i].start == -1 then s.now else s.procs[i].start
    {
      assert ProcOk(s.procs[i], i, s.next, s.running);
      StartOverAdvance(s.procs[i], i, s.next, s.running, s.now, slot == Some(i));
      hide Advance, HooksHold, Shape;
    }
    hide HooksHold, Shape;
  }

  lemma StartsStayInOrder(before: seq<Record>, after: seq<Record>, q: seq<nat>, next: nat, slot: Slot, now: int)
    requires 0 <= now && OneStarts(before, after, slot, now) && StartsInOrder(before, now)
    requires FreshInOrder(before, q) && FreshQueued(before, q, next)
    requires slot.Some? && Fresh(before, slot.value) ==> q != [] && slot.value == q[0]
    ensures StartsInOrder(after, now + 1)
  {
    forall i: nat, j: nat | i < j < |after| && !Fresh(after, j)
      ensures !Fresh(after, i) && after[i].start < after[j].start
    {
      if slot == Some(j) && Fresh(before, j) { HeadIsFirst(before, q, next, i); }
      hide FreshInOrder, FreshQueued;
    }
  }

  lemma QueueStaysInOrder(before: seq<Record>, after: seq<Record>, q: seq<nat>, q': seq<nat>, next: nat, slot: Slot, now: int)
    requires 0 <= now && OneStarts(before, after, slot, now)
    requires FreshInOrder(before, q) && FreshQueued(before, q, next)
    requires q' == q || (q != [] && q' == q[1..] && slot == Some(q[0]))
    ensures FreshInOrder(after, q') && FreshQueued(after, q', next)
  {
    forall i: nat | Fresh(after, i) ensures Fresh(before, i) && slot != Some(i) {
    }
    forall i: nat | Fresh(after, i) && i < next ensures i in q' {
      assert i in q;
      if q' != q { assert q == [q[0]] + q'; }
    }
    hide Fresh, OneStarts;
  }

  lemma OrderOverMove(s: Sim, r: Sim, slot: Slot, q: seq<nat>)
    requires Inv(s) && Shape(r) && Ticked(s, r, slot) && (s.policy.RR? || s.policy.MLFQ?) && r.policy == s.policy
    requires InArrayOrder(s) && s.next <= r.next
    requires MovesUp(s.procs, EntryQueue(s), Range(s.next, r.next), q, EntryQueue(r), slot)
    ensures InArrayOrder(r)
  {
    assert Shape(s);
    hide Inv, Ticked, EntryQueue, Shape, FreshInOrder, FreshQueued, StartsInOrder, Fresh, OneStarts;
    TickStartsOne(s, r, slot);
    NewcomersQueueUp(s.procs, EntryQueue(s), Range(s.next, r.next), q, s.next, r.next);
    StartsStayInOrder(s.procs, r.procs, q, r.next, slot, s.now);
    QueueStaysInOrder(s.procs, r.procs, q, EntryQueue(r), r.next, slot, s.now);
  }

  lemma OrderOverTick(s: Sim)
    requires Inv(s) && !Done(s) && Complete(s).completed != |s.procs| && (s.policy.RR? || s.policy.MLFQ?) && InArrayOrder(s)
    requires s.policy.MLFQ? ==> FreshAtTop(s)
    ensures InArrayOrder(Step(s))
  {
    var r := Step(s);
    assert Shape(s) && Shape(r) && r.policy == s.policy && |r.procs| == |s.procs|;
    assert EntryQueue(s) == (if s.policy.RR? then s.hooks.queue else s.hooks.queues[0]);
    assert EntryQueue(r) == (if s.policy.RR? then r.hooks.queue else r.hooks.queues[0]);
    hide *;
    StepKeeps(s);
    if s.policy.RR? {
      RrStep(s);
      RoundRobinMovesUp(s, r, LastSlot(r));
      var expired := if Continues(s) || !Occupied(s) then [] else [s.running.value];
      OrderOverMove(s, r, LastSlot(r), s.hooks.queue + Range(s.next, r.next) + expired);
    } else {
      MlfqStep(s);
      MlfqMovesUp(s, r, LastSlot(r));
      OrderOverMove(s, r, LastSlot(r), QueuesAfterTick(s, r.next)[0]);
    }
  }

  lemma SameStarts(before: seq<Record>, after: seq<Record>, queue: seq<nat>, next: nat, now: int)
    requires |after| == |before| && forall i :: 0 <= i < |before| ==> after[i].start == before[i].start
    requires StartsInOrder(before, now) && FreshInOrder(before, queue) && FreshQueued(before, queue, next)
    ensures StartsInOrder(after, now) && FreshInOrder(after, queue) && FreshQueued(after, queue, next)
  {
    assert forall i: nat :: Fresh(after, i) == Fresh(before, i);
    hide Fresh;
  }

  lemma StartsAtEnd(s: Sim, r: Sim)
    requires Inv(s) && Ended(s, r)
    ensures |r.procs| == |s.procs| && r.hooks == s.hooks && r.next == s.next && r.now == s.now
    ensures forall i :: 0 <= i < |s.procs| ==> r.procs[i].start == s.procs[i].start
  {
    CompleteKeeps(s);
    hide HooksHold, Shape, Complete;
  }

  lemma OrderAtEnd(s: Sim, r: Sim)
    requires Inv(s) && Shape(r) && Ended(s, r) && (s.policy.RR? || s.policy.MLFQ?) && r.policy == s.policy && InArrayOrder(s)
    ensures InArrayOrder(r)
  {
    assert Shape(s);
    hide Inv, Shape, Ended, FreshInOrder, FreshQueued, StartsInOrder;
    StartsAtEnd(s, r);
    SameStarts(s.procs, r.procs, EntryQueue(s), s.next, s.now);
  }

  lemma OrderAtStart(policy: Policy, procs: seq<Record>)
    requires ValidPolicy(policy) && Workload(procs) && (policy.RR? || policy.MLFQ?)
    ensures InArrayOrder(Initial(policy, procs))
  {
  }

  lemma OrderOverIteration(s: Sim)
    requires Inv(s) && !Done(s) && (s.policy.RR? || s.policy.MLFQ?) && InArrayOrder(s)
    requires s.policy.MLFQ? ==> FreshAtTop(s)
    ensures InArrayOrder(Step(s))
  {
    assert Shape(s) && Shape(Step(s)) && Step(s).policy == s.policy;
    hide *;
    StepKeeps(s);
    if Complete(s).completed == |s.procs| {
      OrderAtEnd(s, Step(s));
    } else {
      OrderOverTick(s);
    }
  }

  lemma {:induction false} OrderHolds(policy: Policy, procs: seq<Record>, k: nat)
    requires ValidPolicy(policy) && Workload(procs) && (policy.RR? || policy.MLFQ?)
    ensures InArrayOrder(Run(policy, procs, k))
  {
    hide *;
    if k == 0 {
      RunStep(policy, procs, 0);
      OrderAtStart(policy, procs);
    } else {
      OrderHolds(policy, procs, k - 1);
      RunHolds(policy, procs, k - 1);
      RunStep(policy, procs, k - 1);
      if policy.MLFQ? { FreshStayAtTop(policy, procs, k - 1); }
      if !Done(Run(policy, procs, k - 1)) { OrderOverIteration(Run(policy, procs, k - 1)); }
    }
  }

  lemma StartsOf(s: Sim, i: nat, j: nat)
    requires Shape(s) && (s.policy.RR? || s.policy.MLFQ?) && InArrayOrder(s) && i < j < |s.procs| && s.procs[j].start != -1
    ensures s.procs[i].start < s.procs[j].start
  {
  }

  /** Under the policies that do not look at bursts, an earlier entry of the sorted array first runs before
      a later one does, however they are preempted and boosted. */
  lemma FirstRunsInArrayOrder(policy: Policy, procs: seq<Record>, i: nat, j: nat)
    requires ValidPolicy(policy) && Heuristic(policy) && Workload(procs) && i < j < |procs|
    ensures Final(policy, procs).procs[i].start < Final(policy, procs).procs[j].start
  {
    assert 0 <= procs[j].arrival && 1 <= Max(1, procs[i].burst);
    hide *;
    if policy.FCFS? {
      Fcfs.FcfsServesInArrayOrder(procs, i, j);
    } else {
      OrderHolds(policy, procs, RunLength(procs));
      FinalRun(policy, procs);
      MetricsCountTicks(policy, procs, j);
      StartsOf(Final(policy, procs), i, j);
    }
  }
}
