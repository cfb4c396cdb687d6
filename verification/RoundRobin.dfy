/** Round robin: what one step does to the queue, fairness between any two processes, bounded
    waiting, and the number of context switches. */
module RoundRobin {
  import opened Basics
  import opened Processes
  import opened Model
  import opened Engine
  import opened Runs
  import opened Accounting
  import Schedules

  /** A configured quantum below 1 acts as 1. */
  function Slice(policy: Policy): (q: int)
    requires policy.RR?
    ensures 1 <= q
  {
    Max(1, policy.quantum)
  }

  // ---------- positions in a queue ----------

  function IndexOf(q: seq<nat>, x: nat): (k: nat)
    ensures k <= |q|
    ensures x in q <==> k < |q|
    ensures k < |q| ==> q[k] == x
  {
    if q == [] || q[0] == x then 0 else 1 + IndexOf(q[1..], x)
  }

  lemma {:induction false} IndexOfConcat(a: seq<nat>, b: seq<nat>, x: nat)
    ensures IndexOf(a + b, x) == if x in a then IndexOf(a, x) else |a| + IndexOf(b, x)
  {
    if a == [] {
      assert a + b == b;
    } else if a[0] != x {
      assert (a + b)[1..] == a[1..] + b;
      IndexOfConcat(a[1..], b, x);
    }
  }

  // ---------- one step ----------

  /** The running process keeps the CPU: it is not finished and its slice is not used up. */
  predicate Continues(s: Sim)
    requires Shape(s) && s.policy.RR?
  {
    s.running.Some? && s.procs[s.running.value].remaining > 0 && s.hooks.left > 1
  }

  /** The queue the dispatcher sees: arrivals of this tick stand before the process whose slice ended. */
  function QueueAtDispatch(s: Sim, next: nat): seq<nat>
    requires Shape(s) && s.policy.RR? && s.next <= next
  {
    s.hooks.queue + Range(s.next, next) + if Occupied(s) then [s.running.value] else []
  }

  lemma {:induction false} ArriveRr(s: Sim)
    requires Shape(s) && s.policy.RR?
    ensures var a := Arrive(s);
      && s.next <= a.next && a.preempt == s.preempt && a.running == s.running
      && a.hooks == RrHooks(s.hooks.queue + Range(s.next, a.next), s.hooks.left)
    decreases |s.procs| - s.next
  {
    if s.next < |s.procs| && s.procs[s.next].arrival <= s.now && s.procs[s.next].phase.NotArrived? {
      ArriveRr(ArriveOne(s));
      var a := Arrive(s);
      assert Range(s.next, a.next) == [s.next] + Range(s.next + 1, a.next);
    }
  }

  /** The effect of one step on queue, running process, slice and switch counter. */
  ghost predicate RrEffect(s: Sim, r: Sim, slot: Slot)
    requires Shape(s) && Shape(r) && s.policy.RR? && r.policy == s.policy
  {
    && s.next <= r.next
    && if Continues(s) then
         && slot == s.running == r.running
         && r.hooks == RrHooks(s.hooks.queue + Range(s.next, r.next), s.hooks.left - 1)
         && r.switches == s.switches
       else
         var q := QueueAtDispatch(s, r.next);
         if q == [] then
           slot == None == r.running && r.hooks.queue == [] && r.switches == s.switches
         else
           && slot == Some(q[0]) && q[0] < |s.procs|
           && r.running == (if s.procs[q[0]].burst == 0 then None else slot)
           && r.hooks == RrHooks(q[1..], s.policy.quantum)
           && r.switches == s.switches + if Occupied(s) && slot != s.running then 1 else 0
  }

  lemma RrTickAndDispatch(a: Sim, t: Sim, d: Sim)
    requires Shape(a) && a.policy.RR? && !a.preempt && (a.running.Some? ==> a.procs[a.running.value].remaining > 0)
    requires t == Tick(a) && Shape(t) && d == Dispatch(t)
    ensures d.next == a.next
    ensures
      if a.running.Some? && a.hooks.left > 1 then
        d.running == a.running && d.hooks == RrHooks(a.hooks.queue, a.hooks.left - 1) && d.switches == a.switches
      else
        var q := a.hooks.queue + if a.running.Some? then [a.running.value] else [];
        if q == [] then
          d.running == None && d.hooks.queue == [] && d.switches == a.switches && d.hooks.RrHooks?
        else
          && d.running == Some(q[0]) && d.hooks == RrHooks(q[1..], a.policy.quantum)
          && d.switches == a.switches + if a.running.Some? && d.running != a.running then 1 else 0
  {
    assert a.hooks.queue + [] == a.hooks.queue;
  }

  lemma RrStages(s: Sim, c: Sim, a: Sim, t: Sim, d: Sim)
    requires Inv(s) && Stages(s, c, a, t, d) && s.policy.RR?
    requires Completes(s, c) && Arrives(c, a) && Ticks(a, t) && Dispatches(t, d)
    ensures RrEffect(s, d.(running := if d.running.Some? && s.procs[d.running.value].burst == 0 then None else d.running),
                     d.running)
  {
    assert Shape(s) && Shape(c) && Shape(a) && Shape(t) && Shape(d);
    hide HooksHold, Complete, Arrive, Tick, Dispatch, Shape, RrEffect;
    AtCompletion(s, c);
    ArriveRr(c);
    assert a.running.Some? ==> a.procs[a.running.value].remaining > 0;
    RrTickAndDispatch(a, t, d);
    hide Completes, Arrives, Ticks, Dispatches, Inv;
    RrEffectHolds(s, c, a, t, d);
  }

  lemma AtCompletion(s: Sim, c: Sim)
    requires Inv(s) && Completes(s, c)
    ensures c.running == (if Occupied(s) then s.running else None)
    ensures c.hooks == s.hooks && c.next == s.next && c.policy == s.policy && c.switches == s.switches && !c.preempt
  {
    hide HooksHold;
  }

  lemma RrEffectHolds(s: Sim, c: Sim, a: Sim, t: Sim, d: Sim)
    requires Shape(s) && Shape(d) && s.policy.RR? && d.policy == s.policy && a.policy == s.policy
    requires c.running == (if Occupied(s) then s.running else None)
    requires c.hooks == s.hooks && c.next == s.next && c.switches == s.switches
    requires c.next <= a.next && a.running == c.running && a.switches == c.switches && a.hooks.RrHooks?
    requires a.hooks == RrHooks(c.hooks.queue + Range(c.next, a.next), c.hooks.left)
    requires d.next == a.next && (d.running.Some? ==> d.running.value < |s.procs|)
    requires var q := a.hooks.queue + if a.running.Some? then [a.running.value] else [];
      if a.running.Some? && a.hooks.left > 1 then
        d.running == a.running && d.hooks == RrHooks(a.hooks.queue, a.hooks.left - 1) && d.switches == a.switches
      else if q == [] then
        d.running == None && d.hooks.queue == [] && d.switches == a.switches && d.hooks.RrHooks?
      else
        && d.running == Some(q[0]) && d.hooks == RrHooks(q[1..], a.policy.quantum)
        && d.switches == a.switches + if a.running.Some? && d.running != a.running then 1 else 0
    requires Occupied(s) ==> s.procs[s.running.value].burst > 0
    ensures RrEffect(s, d.(running := if d.running.Some? && s.procs[d.running.value].burst == 0 then None else d.running),
                     d.running)
  {
  }

  lemma RrEffectOfRun(s: Sim, d: Sim, e: Sim)
    requires Shape(s) && Shape(d) && Shape(e) && s.policy.RR? && d.policy == e.policy == s.policy
    requires d.running.Some? ==> d.running.value < |s.procs|
    requires e.hooks == d.hooks && e.next == d.next && e.switches == d.switches
    requires e.running == if d.running.Some? && s.procs[d.running.value].burst == 0 then None else d.running
    requires RrEffect(s, d.(running := e.running), d.running)
    ensures RrEffect(s, e, d.running)
  {
    hide QueueAtDispatch, Continues, Occupied;
  }

  lemma RrStep(s: Sim)
    requires Inv(s) && !Done(s) && s.policy.RR? && Complete(s).completed != |s.procs|
    ensures var r := Step(s);
      r.policy == s.policy && RrEffect(s, r, LastSlot(r))
  {
    var c := Complete(s);
    var a := Arrive(c);
    var t := Tick(a);
    var d := Dispatch(t);
    var e := Execute(d);
    assert Stages(s, c, a, t, d) && Step(s) == e && Shape(s) && Shape(d) && Shape(e) && |d.procs| == |s.procs|;
    assert d.policy == s.policy && e.policy == s.policy && (d.running.Some? ==> d.running.value < |s.procs|);
    hide *;
    StagesHold(s, c, a, t, d);
    ExecuteStage(s, c, a, t, d);
    RrStages(s, c, a, t, d);
    RunningAfter(s, c, a, t, d);
    RrEffectOfRun(s, d, e);
    SlotIsLast(s, e, d.running);
  }

  // ---------- fairness ----------

  /** The slice counter between steps. */
  ghost predicate SliceOk(s: Sim)
    requires Shape(s) && s.policy.RR?
  {
    s.running.Some? ==> s.hooks.left <= Slice(s.policy) && (1 <= s.hooks.left || s.hooks.left == s.policy.quantum)
  }

  /** Ticks process i has used of its current slice. */
  function Used(s: Sim, i: nat): int
    requires Shape(s) && s.policy.RR?
  {
    if s.running == Some(i) then Slice(s.policy) + 1 - Max(1, s.hooks.left) else 0
  }

  /** The turn order: the running process, then the queue. */
  function Turns(s: Sim): seq<nat>
    requires Shape(s) && s.policy.RR?
  {
    (if s.running.Some? then [s.running.value] else []) + s.hooks.queue
  }

  /** i is the running process or stands in the queue, not both. */
  ghost predicate TakesTurns(s: Sim, i: nat)
    requires Shape(s) && s.policy.RR?
  {
    if s.running == Some(i) then i !in s.hooks.queue && i < s.next else i in s.hooks.queue
  }

  ghost predicate InSystem(s: Sim, i: nat) {
    i < |s.procs| && (s.procs[i].phase.Ready? || s.procs[i].phase.Running?) && 0 < Left(s.procs[i])
  }

  predicate Before(s: Sim, i: nat, j: nat)
    requires Shape(s) && s.policy.RR?
  {
    IndexOf(Turns(s), i) < IndexOf(Turns(s), j)
  }

  /** How many ticks i is ahead of j: the part of its slice it has used if its turn is first, and
      otherwise what j has not used yet. */
  function Lead(s: Sim, i: nat, j: nat): int
    requires Shape(s) && s.policy.RR?
  {
    if Before(s, i, j) then Used(s, i) else Slice(s.policy) - Used(s, j)
  }

  lemma LeadInRange(s: Sim, i: nat, j: nat)
    requires Shape(s) && s.policy.RR? && SliceOk(s)
    ensures 0 <= Lead(s, i, j) <= Slice(s.policy)
  {
  }

  lemma TurnsOfQueue(s: Sim, i: nat)
    requires Inv(s) && s.policy.RR? && InSystem(s, i)
    ensures TakesTurns(s, i) && Placement(s, i)
  {
    assert ProcOk(s.procs[i], i, s.next, s.running);
    if s.running.Some? {
      IndexOfConcat([s.running.value], s.hooks.queue, i);
    } else {
      assert Turns(s) == s.hooks.queue;
      assert Waits(s.procs, None, i);
    }
  }

  lemma LeadOverStep(s: Sim, r: Sim, slot: Slot, i: nat, j: nat)
    requires Inv(s) && Inv(r) && s.policy.RR? && r.policy == s.policy && SliceOk(s)
    requires RrEffect(s, r, slot) && |r.procs| == |s.procs|
    requires i != j && InSystem(s, i) && InSystem(s, j) && InSystem(r, i) && InSystem(r, j)
    requires slot.Some? && slot.value < |s.procs| && s.procs[slot.value].burst == 0 ==> !InSystem(r, slot.value)
    ensures Lead(r, i, j) - Lead(s, i, j) == (if slot == Some(i) then 1 else 0) - if slot == Some(j) then 1 else 0
  {
    TurnsOfQueue(s, i);
    TurnsOfQueue(s, j);
    TurnsOfQueue(r, i);
    TurnsOfQueue(r, j);
    hide Inv;
    if Continues(s) {
      LeadContinues(s, r, i, j);
    } else {
      LeadRotates(s, r, slot, i, j);
    }
  }

  lemma LeadContinues(s: Sim, r: Sim, i: nat, j: nat)
    requires Shape(s) && Shape(r) && s.policy.RR? && r.policy == s.policy
    requires Continues(s) && RrEffect(s, r, s.running) && i != j
    requires TakesTurns(s, i) && TakesTurns(s, j)
    requires Placement(s, i) && Placement(s, j) && Placement(r, i) && Placement(r, j)
    ensures Lead(r, i, j) - Lead(s, i, j) == (if s.running == Some(i) then 1 else 0) - if s.running == Some(j) then 1 else 0
  {
    var came := Range(s.next, r.next);
    IndexOfConcat(s.hooks.queue, came, i);
    IndexOfConcat(s.hooks.queue, came, j);
  }

  /** Where the turn of i stands, in terms of the queue. */
  ghost predicate Placement(s: Sim, i: nat)
    requires Shape(s) && s.policy.RR?
  {
    IndexOf(Turns(s), i) ==
      if s.running == Some(i) then 0
      else IndexOf(s.hooks.queue, i) + if s.running.Some? then 1 else 0
  }

  lemma LeadRotates(s: Sim, r: Sim, slot: Slot, i: nat, j: nat)
    requires Shape(s) && Shape(r) && s.policy.RR? && r.policy == s.policy && SliceOk(s)
    requires !Continues(s) && RrEffect(s, r, slot) && i != j
    requires s.running == Some(i) ==> Occupied(s)
    requires s.running == Some(j) ==> Occupied(s)
    requires TakesTurns(s, i) && TakesTurns(s, j) && TakesTurns(r, i) && TakesTurns(r, j)
    requires Placement(s, i) && Placement(s, j) && Placement(r, i) && Placement(r, j)
    requires slot == Some(i) ==> r.running == slot
    requires slot == Some(j) ==> r.running == slot
    ensures Lead(r, i, j) - Lead(s, i, j) == (if slot == Some(i) then 1 else 0) - if slot == Some(j) then 1 else 0
  {
    var q := QueueAtDispatch(s, r.next);
    TurnOf(s, r, slot, i);
    TurnOf(s, r, slot, j);
    assert IndexOf(q, i) != IndexOf(q, j);
    LeadFromTurns(s, r, slot, i, j, IndexOf(q, i), IndexOf(q, j));
    hide *;
  }

  /** The turn of one process around a dispatch; c is its position in the queue the dispatcher sees. */
  ghost predicate Turn(s: Sim, r: Sim, slot: Slot, i: nat, c: int)
    requires Shape(s) && Shape(r) && s.policy.RR? && r.policy == s.policy
  {
    var n := |s.hooks.queue|;
    && 0 <= c && s.next <= r.next
    && (if s.running == Some(i) then c == n + r.next - s.next else c == IndexOf(s.hooks.queue, i) < n)
    && (slot == Some(i) <==> c == 0) && (slot == Some(i) <==> r.running == Some(i))
    && (slot != Some(i) ==> IndexOf(r.hooks.queue, i) == c - 1)
    && Used(s, i) == (if s.running == Some(i) then Slice(s.policy) else 0)
    && Used(r, i) == (if slot == Some(i) then 1 else 0)
  }

  lemma TurnOf(s: Sim, r: Sim, slot: Slot, i: nat)
    requires Shape(s) && Shape(r) && s.policy.RR? && r.policy == s.policy
    requires !Continues(s) && RrEffect(s, r, slot)
    requires s.running == Some(i) ==> Occupied(s)
    requires TakesTurns(s, i)
    requires slot == Some(i) ==> r.running == slot
    ensures Turn(s, r, slot, i, IndexOf(QueueAtDispatch(s, r.next), i)) && i in QueueAtDispatch(s, r.next)
  {
    assert s.next <= r.next && s.hooks.RrHooks? && r.hooks.RrHooks?;
    assert s.running == Some(i) ==> i !in s.hooks.queue;
    hide IndexOf, QueueAtDispatch, RrEffect, Occupied, Shape, Used, Continues, TakesTurns, Slice;
    TurnOrderKept(s, r, slot, i);
    SlicesUsed(s, r, slot, i);
  }

  lemma LeadFromTurns(s: Sim, r: Sim, slot: Slot, i: nat, j: nat, c: int, d: int)
    requires Shape(s) && Shape(r) && s.policy.RR? && r.policy == s.policy && i != j
    requires Turn(s, r, slot, i, c) && Turn(s, r, slot, j, d) && c != d
    requires Placement(s, i) && Placement(s, j) && Placement(r, i) && Placement(r, j)
    ensures Lead(r, i, j) - Lead(s, i, j) == (if slot == Some(i) then 1 else 0) - if slot == Some(j) then 1 else 0
  {
    assert 1 <= Slice(s.policy) && s.hooks.RrHooks? && r.hooks.RrHooks?;
    hide IndexOf, Turns, Shape, Used, Slice;
    LeadArithmetic(Slice(s.policy), s.running == Some(i), s.running == Some(j), slot == Some(i), slot == Some(j),
                   IndexOf(s.hooks.queue, i), IndexOf(s.hooks.queue, j), c, d,
                   |s.hooks.queue|, |s.hooks.queue| + r.next - s.next, s.running.Some?, r.running.Some?);
  }

  /** When the turn changes, a slice has been used in full, and a new one by one tick. */
  lemma SlicesUsed(s: Sim, r: Sim, slot: Slot, i: nat)
    requires Shape(s) && Shape(r) && s.policy.RR? && r.policy == s.policy && !Continues(s) && RrEffect(s, r, slot)
    requires s.running == Some(i) ==> Occupied(s)
    requires slot.Some? ==> r.hooks.left == s.policy.quantum
    requires r.running.Some? ==> r.running == slot
    requires slot == Some(i) ==> r.running == slot
    ensures Used(s, i) == if s.running == Some(i) then Slice(s.policy) else 0
    ensures Used(r, i) == if slot == Some(i) then 1 else 0
  {
  }

  /** The leads before and after, given who has run (x, y), who runs next (x', y'), the positions in the
      queue (a, b) and at dispatch (c, d). */
  lemma LeadArithmetic(q: int, x: bool, y: bool, x': bool, y': bool, a: int, b: int, c: int, d: int,
                       n: int, m: int, busy: bool, busy': bool)
    requires 1 <= q && 0 <= c && 0 <= d && c != d && !(x && y) && n <= m
    requires if x then busy && c == m else c == a < n
    requires if y then busy && d == m else d == b < n
    requires (x' <==> c == 0) && (y' <==> d == 0) && (x' || y' ==> busy')
    ensures
      var before := (if x then 0 else a + if busy then 1 else 0) < (if y then 0 else b + if busy then 1 else 0);
      var after := (if x' then 0 else c - 1 + if busy' then 1 else 0) < (if y' then 0 else d - 1 + if busy' then 1 else 0);
      var lead := if before then (if x then q else 0) else q - if y then q else 0;
      var lead' := if after then (if x' then 1 else 0) else q - if y' then 1 else 0;
      lead' - lead == (if x' then 1 else 0) - if y' then 1 else 0
  {
  }

  /** Position at dispatch: everybody in the queue keeps his place, an expired process goes last;
      afterwards the head has left the queue. */
  lemma TurnOrderKept(s: Sim, r: Sim, slot: Slot, i: nat)
    requires Shape(s) && Shape(r) && s.policy.RR? && r.policy == s.policy
    requires !Continues(s) && RrEffect(s, r, slot)
    requires s.running == Some(i) ==> Occupied(s)
    requires TakesTurns(s, i)
    ensures var q := QueueAtDispatch(s, r.next);
      && q != [] && i in q
      && IndexOf(q, i) <= |s.hooks.queue| + r.next - s.next
      && (s.running != Some(i) ==> IndexOf(q, i) == IndexOf(s.hooks.queue, i) < |s.hooks.queue|)
      && (s.running == Some(i) ==> IndexOf(q, i) == |s.hooks.queue| + r.next - s.next)
      && (slot == Some(i) <==> IndexOf(q, i) == 0)
      && (slot != Some(i) ==> IndexOf(r.hooks.queue, i) == IndexOf(q, i) - 1)
      && (r.running.Some? ==> r.running == slot)
      && r.hooks.left == s.policy.quantum
  {
    var came := Range(s.next, r.next);
    var last := if Occupied(s) then [s.running.value] else [];
    var q := QueueAtDispatch(s, r.next);
    assert q == s.hooks.queue + (came + last);
    RangeMembers(s.next, r.next);
    IndexOfConcat(s.hooks.queue, came + last, i);
    IndexOfConcat(came, last, i);
    hide Shape;
  }

  lemma SliceOverStep(s: Sim, r: Sim, slot: Slot)
    requires Shape(s) && Shape(r) && s.policy.RR? && r.policy == s.policy
    requires SliceOk(s) && RrEffect(s, r, slot)
    ensures SliceOk(r)
  {
  }

  lemma SliceAtStart(policy: Policy, procs: seq<Record>)
    requires policy.RR? && Workload(procs) && ValidPolicy(policy)
    ensures SliceOk(Initial(policy, procs))
  {
  }

  lemma SliceAtEnd(s: Sim, r: Sim)
    requires Inv(s) && s.policy.RR? && SliceOk(s) && Ended(s, r) && Shape(r) && r.policy == s.policy
    ensures SliceOk(r)
  {
    CompleteKeeps(s);
    hide HooksHold, Complete;
  }

  lemma SliceOverIteration(s: Sim)
    requires Inv(s) && s.policy.RR? && SliceOk(s) && !Done(s)
    ensures SliceOk(Step(s))
  {
    assert Shape(s) && Shape(Step(s)) && Step(s).policy == s.policy;
    hide *;
    StepKeeps(s);
    if Complete(s).completed == |s.procs| {
      SliceAtEnd(s, Step(s));
    } else {
      RrStep(s);
      SliceOverStep(s, Step(s), LastSlot(Step(s)));
    }
  }

  lemma {:induction false} SliceHolds(policy: Policy, procs: seq<Record>, k: nat)
    requires policy.RR? && Workload(procs)
    ensures SliceOk(Run(policy, procs, k))
  {
    assert ValidPolicy(policy);
    hide *;
    if k == 0 {
      RunStep(policy, procs, 0);
      SliceAtStart(policy, procs);
    } else {
      SliceHolds(policy, procs, k - 1);
      RunHolds(policy, procs, k - 1);
      RunStep(policy, procs, k - 1);
      if !Done(Run(policy, procs, k - 1)) { SliceOverIteration(Run(policy, procs, k - 1)); }
    }
  }

  /** How many more CPU ticks i has received than j up to iteration k. */
  function Gap(policy: Policy, procs: seq<Record>, i: nat, j: nat, k: nat): int
    requires ValidPolicy(policy) && Workload(procs)
  {
    Count(Run(policy, procs, k).cpu, Some(i)) - Count(Run(policy, procs, k).cpu, Some(j))
  }

  lemma LeadOverIteration(policy: Policy, procs: seq<Record>, i: nat, j: nat, k: nat)
    requires policy.RR? && Workload(procs) && i != j
    requires InSystem(Run(policy, procs, k), i) && InSystem(Run(policy, procs, k), j)
    requires InSystem(Run(policy, procs, k + 1), i) && InSystem(Run(policy, procs, k + 1), j)
    ensures Lead(Run(policy, procs, k + 1), i, j) - Lead(Run(policy, procs, k), i, j) ==
            Gap(policy, procs, i, j, k + 1) - Gap(policy, procs, i, j, k)
  {
    var s, r := Run(policy, procs, k), Run(policy, procs, k + 1);
    assert Gap(policy, procs, i, j, k) == Count(s.cpu, Some(i)) - Count(s.cpu, Some(j));
    assert Gap(policy, procs, i, j, k + 1) == Count(r.cpu, Some(i)) - Count(r.cpu, Some(j));
    assert Shape(s) && s.policy.RR?;
    hide *;
    RunHolds(policy, procs, k);
    SliceHolds(policy, procs, k);
    RunStep(policy, procs, k);
    LeadOverRunning(s, i, j);
  }

  lemma LeadOverRunning(s: Sim, i: nat, j: nat)
    requires Inv(s) && s.policy.RR? && SliceOk(s) && i != j && InSystem(s, i) && InSystem(s, j)
    requires var r := if Done(s) then s else Step(s); InSystem(r, i) && InSystem(r, j)
    ensures var r := if Done(s) then s else Step(s);
      Lead(r, i, j) - Lead(s, i, j) ==
        Count(r.cpu, Some(i)) - Count(r.cpu, Some(j)) - (Count(s.cpu, Some(i)) - Count(s.cpu, Some(j)))
  {
    assert Shape(s) && Shape(Step(s)) && Step(s).policy == s.policy && |Step(s).procs| == |s.procs|;
    hide *;
    StillGoing(s, i);
    StepKeeps(s);
    RrStep(s);
    var r, slot := Step(s), LastSlot(Step(s));
    EmptyBurstLeaves(s, r, slot);
    LeadOverStep(s, r, slot, i, j);
    CountOverTick(s, r, slot, i);
    CountOverTick(s, r, slot, j);
  }

  lemma CountOverTick(s: Sim, r: Sim, slot: Slot, i: nat)
    requires Ticked(s, r, slot)
    ensures Count(r.cpu, Some(i)) == Count(s.cpu, Some(i)) + if slot == Some(i) then 1 else 0
  {
    assert r.cpu[..|r.cpu| - 1] == s.cpu;
  }

  /** The run does not end with a process in the system. */
  lemma StillGoing(s: Sim, i: nat)
    requires Inv(s) && InSystem(s, i) && InSystem(if Done(s) then s else Step(s), i)
    ensures !Done(s) && Complete(s).completed != |s.procs|
  {
    DoneMeansAllFinished(s);
    if !Done(s) && Complete(s).completed == |s.procs| {
      LastStepEnds(s);
    }
    hide HooksHold, Step, Complete;
  }

  lemma EmptyBurstLeaves(s: Sim, r: Sim, slot: Slot)
    requires Inv(s) && Ticked(s, r, slot)
    ensures slot.Some? && slot.value < |s.procs| && s.procs[slot.value].burst == 0 ==> !InSystem(r, slot.value)
  {
    hide HooksHold;
    if slot.Some? && slot.value < |s.procs| && s.procs[slot.value].burst == 0 {
      var i := slot.value;
      AdvanceWork(s.procs[i], i, s.next, s.running, s.now, true);
    }
    hide Advance;
  }

  ghost predicate StaysInSystem(policy: Policy, procs: seq<Record>, i: nat, k1: nat, k2: nat)
    requires ValidPolicy(policy) && Workload(procs)
  {
    forall k: nat :: k1 <= k <= k2 ==> InSystem(Run(policy, procs, k), i)
  }

  /** Over any stretch of a run in which two processes stay in the system, the numbers of CPU ticks
      they receive differ by at most one time slice, whatever else happens. */
  lemma RoundRobinIsFair(policy: Policy, procs: seq<Record>, i: nat, j: nat, k1: nat, k2: nat)
    requires policy.RR? && Workload(procs) && i != j && k1 <= k2
    requires StaysInSystem(policy, procs, i, k1, k2) && StaysInSystem(policy, procs, j, k1, k2)
    ensures -Slice(policy) <= Gap(policy, procs, i, j, k2) - Gap(policy, procs, i, j, k1) <= Slice(policy)
  {
    hide Run, Lead, Gap, StaysInSystem, Workload, SliceOk, Shape, Slice;
    SliceHolds(policy, procs, k1);
    SliceHolds(policy, procs, k2);
    LeadChange(policy, procs, i, j, k1, k2);
    LeadInRange(Run(policy, procs, k1), i, j);
    LeadInRange(Run(policy, procs, k2), i, j);
  }

  lemma StaysBetween(policy: Policy, procs: seq<Record>, i: nat, k1: nat, k2: nat)
    requires ValidPolicy(policy) && Workload(procs) && k1 < k2 && StaysInSystem(policy, procs, i, k1, k2)
    ensures InSystem(Run(policy, procs, k2 - 1), i) && InSystem(Run(policy, procs, k2), i)
    ensures StaysInSystem(policy, procs, i, k1, k2 - 1)
  {
    hide Run, InSystem;
  }

  /** Between two iterations the lead changes as the numbers of CPU ticks do. */
  ghost predicate LeadFollowsGap(policy: Policy, procs: seq<Record>, i: nat, j: nat, k1: nat, k2: nat)
    requires policy.RR? && ValidPolicy(policy) && Workload(procs)
  {
    Lead(Run(policy, procs, k2), i, j) - Lead(Run(policy, procs, k1), i, j) ==
    Gap(policy, procs, i, j, k2) - Gap(policy, procs, i, j, k1)
  }

  lemma LeadFollowsFurther(policy: Policy, procs: seq<Record>, i: nat, j: nat, k1: nat, k2: nat)
    requires policy.RR? && ValidPolicy(policy) && Workload(procs) && i != j && k1 < k2
    requires StaysInSystem(policy, procs, i, k1, k2) && StaysInSystem(policy, procs, j, k1, k2)
    requires LeadFollowsGap(policy, procs, i, j, k1, k2 - 1)
    ensures LeadFollowsGap(policy, procs, i, j, k1, k2)
  {
    hide Run, Lead, Gap, StaysInSystem, Workload;
    StaysBetween(policy, procs, i, k1, k2);
    StaysBetween(policy, procs, j, k1, k2);
    LeadOverIteration(policy, procs, i, j, k2 - 1);
  }

  lemma {:induction false} LeadChange(policy: Policy, procs: seq<Record>, i: nat, j: nat, k1: nat, k2: nat)
    requires policy.RR? && ValidPolicy(policy) && Workload(procs) && i != j && k1 <= k2
    requires StaysInSystem(policy, procs, i, k1, k2) && StaysInSystem(policy, procs, j, k1, k2)
    ensures LeadFollowsGap(policy, procs, i, j, k1, k2)
    decreases k2
  {
    if k1 < k2 {
      hide *;
      StaysBetween(policy, procs, i, k1, k2);
      StaysBetween(policy, procs, j, k1, k2);
      LeadChange(policy, procs, i, j, k1, k2 - 1);
      LeadFollowsFurther(policy, procs, i, j, k1, k2);
    } else {
      hide Run, Lead, Gap, StaysInSystem, Workload;
    }
  }

  // ---------- bounded waiting ----------

  /** Ticks the running process can still use before its slice is over. */
  function Slack(s: Sim): (k: int)
    requires Shape(s) && s.policy.RR?
    ensures 0 <= k
  {
    if s.running.Some? then Max(1, s.hooks.left) - 1 else 0
  }

  /** The rest of the current slice, and a whole slice for everybody ahead in the queue. */
  function Wait(s: Sim, i: nat): (k: int)
    requires Shape(s) && s.policy.RR?
    ensures 0 <= k
  {
    NaturalProduct(IndexOf(s.hooks.queue, i), Slice(s.policy));
    Slack(s) + IndexOf(s.hooks.queue, i) * Slice(s.policy)
  }

  lemma NaturalProduct(a: int, b: int)
    requires 0 <= a && 0 <= b
    ensures 0 <= a * b
  {
  }

  lemma OneSliceLess(a: int, b: int, q: int)
    requires a <= b - 1 && 0 <= q
    ensures a * q <= b * q - q
  {
    assert b * q - q == (b - 1) * q;
    NaturalProduct(b - 1 - a, q);
  }

  /** A waiting process is given the tick, or its wait gets shorter by at least one. */
  lemma WaitOverStep(s: Sim, r: Sim, slot: Slot, i: nat)
    requires Shape(s) && Shape(r) && s.policy.RR? && r.policy == s.policy
    requires SliceOk(s) && RrEffect(s, r, slot)
    requires i in s.hooks.queue && s.running != Some(i)
    ensures slot == Some(i) || (i in r.hooks.queue && Wait(r, i) <= Wait(s, i) - 1)
  {
    if Continues(s) {
      IndexOfConcat(s.hooks.queue, Range(s.next, r.next), i);
    } else if slot != Some(i) {
      TurnOrderKept(s, r, slot, i);
      OneSliceLess(IndexOf(r.hooks.queue, i), IndexOf(s.hooks.queue, i), Slice(s.policy));
    }
    hide Shape, QueueAtDispatch;
  }

  /** Process i gets the CPU tick number t. */
  ghost predicate GivenTick(policy: Policy, procs: seq<Record>, i: nat, t: nat)
    requires ValidPolicy(policy) && Workload(procs)
  {
    var cpu := Run(policy, procs, t + 1).cpu;
    |cpu| == t + 1 && cpu[t] == Some(i)
  }

  ghost predicate Queued(s: Sim, i: nat)
    requires Shape(s)
  {
    s.policy.RR? && i < |s.procs| && s.procs[i].phase.Ready? && i in s.hooks.queue && s.running != Some(i)
  }

  lemma ReadyIsQueued(s: Sim, i: nat)
    requires Inv(s) && s.policy.RR? && i < |s.procs| && s.procs[i].phase.Ready?
    ensures Queued(s, i) && !Done(s) && Complete(s).completed != |s.procs|
  {
    assert Waits(s.procs, None, i);
    DoneMeansAllFinished(s);
    CompleteKeeps(s);
    DoneMeansAllFinished(Complete(s));
    assert ProcOk(s.procs[i], i, s.next, s.running);
    hide HooksHold;
  }

  /** A process in the queue is dispatched within the rest of the current slice plus one slice for
      each process ahead of it. */
  lemma {:induction false} DispatchedWithinWait(policy: Policy, procs: seq<Record>, i: nat, k: nat) returns (t: nat)
    requires ValidPolicy(policy) && policy.RR? && Workload(procs) && i < |procs|
    requires Run(policy, procs, k).procs[i].phase.Ready?
    ensures k <= t <= k + Wait(Run(policy, procs, k), i) && GivenTick(policy, procs, i, t)
    decreases Wait(Run(policy, procs, k), i)
  {
    var s, r := Run(policy, procs, k), Run(policy, procs, k + 1);
    WaitIteration(policy, procs, i, k);
    if r.cpu[k] == Some(i) {
      t := k;
      hide Run;
    } else {
      hide *;
      t := DispatchedWithinWait(policy, procs, i, k + 1);
    }
  }

  lemma WaitIteration(policy: Policy, procs: seq<Record>, i: nat, k: nat)
    requires ValidPolicy(policy) && policy.RR? && Workload(procs) && i < |procs|
    requires Run(policy, procs, k).procs[i].phase.Ready?
    ensures var s, r := Run(policy, procs, k), Run(policy, procs, k + 1);
      && |r.cpu| == k + 1
      && (r.cpu[k] != Some(i) ==> r.procs[i].phase.Ready? && Wait(r, i) <= Wait(s, i) - 1)
  {
    var s, r := Run(policy, procs, k), Run(policy, procs, k + 1);
    RunHolds(policy, procs, k);
    SliceHolds(policy, procs, k);
    RunStep(policy, procs, k);
    ReadyIsQueued(s, i);
    ClockWhileRunning(policy, procs, k);
    hide Run;
    StepKeeps(s);
    RrStep(s);
    WaitOverStep(s, r, LastSlot(r), i);
    assert Queued(s, i);
    hide Step, Inv, HooksHold, RrEffect, SliceOk, Complete, Shape, Wait;
    assert |s.cpu| == k by { CpuIsClock(s); }
    if r.cpu[k] != Some(i) { StillReady(s, r, LastSlot(r), i); }
  }

  lemma CpuIsClock(s: Sim)
    requires Inv(s)
    ensures |s.cpu| == s.now
  {
  }

  lemma StillReady(s: Sim, r: Sim, slot: Slot, i: nat)
    requires Ticked(s, r, slot) && i < |s.procs| && s.procs[i].phase.Ready? && slot != Some(i)
    ensures r.procs[i].phase.Ready?
  {
  }

  /** No process waits longer than a slice for each other process before it first runs. */
  ghost predicate Responsive(s: Sim)
    requires Shape(s) && s.policy.RR?
  {
    forall i: nat :: i < |s.procs| ==> InTime(s, i)
  }

  /** One slice for each of the other processes. */
  function OthersSlices(s: Sim): int
    requires s.policy.RR?
  {
    (|s.procs| - 1) * Slice(s.policy)
  }

  ghost predicate InTime(s: Sim, i: nat)
    requires Shape(s) && s.policy.RR? && i < |s.procs|
  {
    && (s.procs[i].start != -1 ==> s.procs[i].response <= OthersSlices(s))
    && (s.procs[i].start == -1 && s.procs[i].phase.Ready? ==> s.now - s.procs[i].arrival + Wait(s, i) <= OthersSlices(s))
  }

  /** A process that has just arrived has at most everybody else ahead of it. */
  lemma NewcomerWaits(s: Sim, r: Sim, slot: Slot, i: nat)
    requires Inv(r) && r.policy.RR? && SliceOk(r) && i < |r.procs| && r.procs[i].phase.Ready?
    requires slot.Some? && slot.value < |r.procs| && !r.procs[slot.value].phase.Ready?
    requires r.running.Some? ==> r.hooks.left <= Slice(r.policy)
    ensures Wait(r, i) + 1 <= OthersSlices(r)
  {
    var q := r.hooks.queue;
    ReadyIsQueued(r, i);
    assert Distinct(q) && forall x :: x in q ==> x < |r.procs|;
    assert slot.value !in q;
    DistinctConcat(q, [slot.value]);
    DistinctFits(q + [slot.value], |r.procs|);
    OneSliceLess(IndexOf(q, i), |r.procs| - 1, Slice(r.policy));
    hide Inv;
  }

  lemma ResponseOverTick(s: Sim, r: Sim, slot: Slot)
    requires Inv(s) && Inv(r) && s.policy.RR? && r.policy == s.policy
    requires SliceOk(s) && SliceOk(r) && RrEffect(s, r, slot) && Ticked(s, r, slot)
    requires Responsive(s)
    ensures Responsive(r)
  {
    assert Shape(s) && Shape(r) && |r.procs| == |s.procs|;
    hide Inv, Ticked, RrEffect, SliceOk, InTime, Shape;
    forall i: nat | i < |r.procs| ensures InTime(r, i) {
      ResponseOfOne(s, r, slot, i);
    }
  }

  lemma ResponseOfOne(s: Sim, r: Sim, slot: Slot, i: nat)
    requires Inv(s) && Inv(r) && s.policy.RR? && r.policy == s.policy
    requires SliceOk(s) && SliceOk(r) && RrEffect(s, r, slot) && Ticked(s, r, slot)
    requires i < |s.procs| == |r.procs| && InTime(s, i)
    ensures InTime(r, i)
  {
    hide OthersSlices, Inv, Ticked, RrEffect, Wait, SliceOk, Shape;
    OthersSlicesKept(s, r);
    StartOverStep(s, r, slot, i);
    if r.procs[i].start == -1 && r.procs[i].phase.Ready? {
      WaitsInTime(s, r, slot, i);
    }
  }

  lemma OthersSlicesKept(s: Sim, r: Sim)
    requires Inv(s) && Inv(r) && s.policy.RR? && r.policy == s.policy && |r.procs| == |s.procs|
    ensures Shape(s) && Shape(r) && OthersSlices(r) == OthersSlices(s)
    ensures s.procs != [] ==> 0 <= OthersSlices(s)
  {
    if s.procs != [] { NaturalProduct(|s.procs| - 1, Slice(s.policy)); }
    hide HooksHold;
  }

  lemma WaitsInTime(s: Sim, r: Sim, slot: Slot, i: nat)
    requires Inv(s) && Inv(r) && s.policy.RR? && r.policy == s.policy
    requires SliceOk(s) && SliceOk(r) && RrEffect(s, r, slot) && Ticked(s, r, slot)
    requires i < |s.procs| == |r.procs| && r.procs[i].phase.Ready? && slot != Some(i)
    requires s.procs[i].phase.Ready? || s.procs[i].arrival == s.now
    requires r.now == s.now + 1 && r.procs[i].arrival == s.procs[i].arrival
    requires s.procs[i].phase.Ready? ==> s.now - s.procs[i].arrival + Wait(s, i) <= OthersSlices(s)
    ensures r.now - r.procs[i].arrival + Wait(r, i) <= OthersSlices(s)
  {
    assert Shape(s) && Shape(r);
    assert OthersSlices(r) == OthersSlices(s);
    hide OthersSlices, Inv, Ticked, RrEffect, Wait, SliceOk, Shape;
    if s.procs[i].phase.Ready? {
      ReadyIsQueued(s, i);
      WaitOverStep(s, r, slot, i);
    } else {
      SlotIsOccupied(s, r, slot, i);
      SliceAfter(r);
      NewcomerWaits(s, r, slot, i);
    }
  }

  lemma SliceAfter(r: Sim)
    requires Shape(r) && r.policy.RR? && SliceOk(r)
    ensures r.running.Some? ==> r.hooks.left <= Slice(r.policy)
  {
  }

  /** When and how the response time of a process is recorded. */
  lemma StartOverStep(s: Sim, r: Sim, slot: Slot, i: nat)
    requires Inv(s) && Ticked(s, r, slot) && i < |s.procs|
    ensures r.procs[i].arrival == s.procs[i].arrival && r.now == s.now + 1
    ensures s.procs[i].start != -1 ==>
      r.procs[i].start == s.procs[i].start && r.procs[i].response == s.procs[i].response
    ensures s.procs[i].start == -1 && r.procs[i].start != -1 ==>
      && slot == Some(i) && r.procs[i].response == s.now - s.procs[i].arrival
      && (s.procs[i].phase.Ready? || s.procs[i].arrival == s.now)
    ensures r.procs[i].start == -1 && r.procs[i].phase.Ready? ==>
      slot != Some(i) && s.procs[i].start == -1 && (s.procs[i].phase.Ready? || s.procs[i].arrival == s.now)
  {
    assert ProcOk(s.procs[i], i, s.next, s.running);
    hide HooksHold, Shape;
  }

  /** A tick in which somebody stays READY is given to somebody else, who is not READY afterwards. */
  lemma SlotIsOccupied(s: Sim, r: Sim, slot: Slot, i: nat)
    requires Inv(s) && Inv(r) && Ticked(s, r, slot) && i < |s.procs| && r.procs[i].phase.Ready?
    ensures slot.Some? && slot.value < |r.procs| && !r.procs[slot.value].phase.Ready?
  {
    assert ProcOk(s.procs[i], i, s.next, s.running);
    if slot.Some? {
      assert ProcOk(s.procs[slot.value], slot.value, s.next, s.running);
    }
    hide HooksHold, Shape;
  }

  lemma ResponsiveAtStart(policy: Policy, procs: seq<Record>)
    requires ValidPolicy(policy) && policy.RR? && Workload(procs)
    ensures Responsive(Initial(policy, procs))
  {
    hide Wait;
  }

  lemma ResponseOverIteration(s: Sim)
    requires Inv(s) && s.policy.RR? && SliceOk(s) && Responsive(s) && !Done(s)
    ensures Responsive(Step(s))
  {
    StepKeeps(s);
    if Complete(s).completed == |s.procs| {
      ResponseAtEnd(s, Step(s));
    } else {
      RrStep(s);
      SliceOverStep(s, Step(s), LastSlot(Step(s)));
      ResponseOverTick(s, Step(s), LastSlot(Step(s)));
    }
    hide *;
  }

  lemma ResponseAtEnd(s: Sim, r: Sim)
    requires Inv(s) && Inv(r) && s.policy.RR? && r.policy == s.policy && Responsive(s) && Ended(s, r)
    ensures Responsive(r)
  {
    CompleteKeeps(s);
    DoneMeansAllFinished(r);
    assert Shape(s) && Shape(r) && |r.procs| == |s.procs|;
    hide HooksHold, Wait, Shape, Complete;
    forall i: nat | i < |r.procs| ensures InTime(r, i) {
      assert InTime(s, i) && r.procs[i].phase.Finished? && r.procs[i] == Completed(s.procs[i], s.now);
      assert ProcOk(s.procs[i], i, s.next, s.running);
      hide OthersSlices, Ok;
    }
  }

  lemma {:induction false} RunIsResponsive(policy: Policy, procs: seq<Record>, k: nat)
    requires ValidPolicy(policy) && policy.RR? && Workload(procs)
    ensures Responsive(Run(policy, procs, k))
  {
    hide *;
    if k == 0 {
      RunStep(policy, procs, 0);
      ResponsiveAtStart(policy, procs);
    } else {
      RunIsResponsive(policy, procs, k - 1);
      RunHolds(policy, procs, k - 1);
      SliceHolds(policy, procs, k - 1);
      RunStep(policy, procs, k - 1);
      if !Done(Run(policy, procs, k - 1)) { ResponseOverIteration(Run(policy, procs, k - 1)); }
    }
  }

  /** Round robin bounds every response time by one slice for each other process. */
  lemma ResponseBound(policy: Policy, procs: seq<Record>, i: nat)
    requires ValidPolicy(policy) && policy.RR? && Workload(procs) && i < |procs|
    ensures 0 <= Final(policy, procs).procs[i].response <= (|procs| - 1) * Slice(policy)
  {
    RunIsResponsive(policy, procs, RunLength(procs));
    MetricsCountTicks(policy, procs, i);
    FinalRun(policy, procs);
    EveryRunEnds(policy, procs);
    hide Run, Final, Wait, Shape;
    assert Final(policy, procs).procs[i].start != -1;
    assert InTime(Final(policy, procs), i);
  }

  // ---------- context switches ----------

  lemma DivideBy(m: int, u: int, q: int)
    requires 1 <= q && 0 <= u < q
    ensures (m * q + u) / q == m && (m * q + u) % q == u
  {
    var x := m * q + u;
    assert x == (x / q) * q + x % q;
    var d := x / q - m;
    assert d * q == u - x % q;
    if d >= 1 { NaturalProduct(d - 1, q); }
    if d <= -1 { NaturalProduct(-d - 1, q); }
  }

  function CpuReceived(p: Record): int { p.burst - p.remaining }

  /** Slices a process has lost the CPU after: full ones, not counting the one it is in or finished in. */
  function Rounds(p: Record, q: int): int
    requires 1 <= q
  {
    if p.phase.NotArrived? || CpuReceived(p) <= 0 then 0
    else if p.phase.Ready? then CpuReceived(p) / q
    else (CpuReceived(p) - 1) / q
  }

  ghost predicate Whole(p: Record, u: int, q: int)
    requires 1 <= q
  {
    u <= CpuReceived(p) && (CpuReceived(p) - u) % q == 0
  }

  /** A waiting process has used whole slices only, the running one has begun its last one. */
  ghost predicate WholeSlices(s: Sim)
    requires Shape(s) && s.policy.RR?
  {
    forall i: nat :: i < |s.procs| && (s.procs[i].phase.Ready? || s.procs[i].phase.Running?) ==>
      Whole(s.procs[i], Used(s, i), Slice(s.policy))
  }

  function RoundsOf(s: Sim): (v: seq<int>)
    requires Shape(s) && s.policy.RR?
    ensures |v| == |s.procs|
  {
    seq(|s.procs|, i requires 0 <= i < |s.procs| => Rounds(s.procs[i], Slice(s.policy)))
  }

  /** Switches so far are paid for by used-up slices. */
  ghost predicate SwitchesPaid(s: Sim)
    requires Shape(s) && s.policy.RR?
  {
    WholeSlices(s) && s.switches <= Sum(RoundsOf(s))
  }

  /** The arithmetic of one process over one tick: x ticks received, u of them in the current slice. */
  lemma RoundsArithmetic(x: int, u: int, q: int)
    requires 1 <= q && 0 <= u <= q && u <= x && (x - u) % q == 0
    ensures u == 0 ==> x / q * q == x && (x + 1 - 1) % q == 0
    ensures 0 < u ==> (x - 1) / q == (x - u) / q
    ensures 0 < u < q ==> (x + 1 - 1) / q == (x - u) / q
    ensures u == q ==> x % q == 0 && x / q == (x - u) / q + 1
  {
    var m := (x - u) / q;
    assert x - u == m * q;
    if 0 < u { DivideBy(m, u - 1, q); }
    if 0 < u < q { DivideBy(m, u, q); }
    if u == q { assert x == (m + 1) * q + 0; DivideBy(m + 1, 0, q); }
  }

  /** What a tick does to the slice of one process: u and v are the ticks used before and after. */
  ghost predicate SliceMove(p: Record, r: Record, u: int, v: int, q: int, served: bool) {
    && 0 <= CpuReceived(p)
    && CpuReceived(r) == CpuReceived(p) + (if served && p.burst > 0 then 1 else 0)
    && match p.phase {
      case Running =>
        && 0 < u <= q && 0 < p.burst
        && if served then r.phase.Running? && v == if u < q then u + 1 else 1
           else v == 0 && if r.phase.Ready? then u == q else r.phase.Finished?
      case Finished => u == 0 == v && !served && r.phase.Finished?
      case _ =>
        && u == 0 && (p.phase.NotArrived? ==> CpuReceived(p) == 0)
        && if !served then v == 0 && (r.phase == p.phase || r.phase.Ready?)
           else if p.burst > 0 then r.phase.Running? && v == 1
           else v == 0 && r.phase.Finished? && CpuReceived(p) == 0
    }
  }

  lemma SliceMoves(s: Sim, r: Sim, slot: Slot, i: nat)
    requires Inv(s) && Inv(r) && s.policy.RR? && r.policy == s.policy
    requires SliceOk(s) && RrEffect(s, r, slot) && Ticked(s, r, slot) && i < |s.procs|
    ensures SliceMove(s.procs[i], r.procs[i], Used(s, i), Used(r, i), Slice(s.policy), slot == Some(i))
    ensures r.procs[i].phase.Running? <==> r.running == Some(i)
    ensures s.procs[i].phase.Running? <==> s.running == Some(i)
  {
    assert ProcOk(s.procs[i], i, s.next, s.running);
    assert ProcOk(r.procs[i], i, r.next, r.running);
    assert slot == Some(i) ==> 0 < Left(s.procs[i]);
    assert s.running == Some(i) ==> (Occupied(s) <==> 0 < s.procs[i].remaining) && 0 < s.procs[i].burst;
    assert SameCore(r.procs[i], Advance(s.procs[i], s.now, slot == Some(i)));
    UsedFacts(s, r, slot, i);
    hide *;
    OneSliceMoves(s.procs[i], r.procs[i], i, s.next, s.running, r.next, r.running, s.now, slot == Some(i),
                  Used(s, i), Used(r, i), Slice(s.policy));
  }

  /** The same for one process, whose slice counters are given. */
  lemma OneSliceMoves(p: Record, r: Record, i: nat, next: nat, running: Slot, next': nat, running': Slot,
                      now: int, served: bool, u: int, v: int, q: int)
    requires ProcOk(p, i, next, running) && ProcOk(r, i, next', running') && SameCore(r, Advance(p, now, served))
    requires served ==> 0 < Left(p)
    requires 1 <= q && 0 <= u <= q
    requires if running == Some(i) then 0 < u && 0 < p.burst else u == 0
    requires running' == Some(i) ==> served
    requires running' != Some(i) ==> v == 0
    requires running == Some(i) && served && running' == Some(i) && 0 < p.remaining ==> v == if u < q then u + 1 else 1
    requires running == Some(i) && !served && 0 < p.remaining ==> u == q
    requires running != Some(i) && served && running' == Some(i) ==> v == 1
    ensures SliceMove(p, r, u, v, q, served)
    ensures r.phase.Running? <==> running' == Some(i)
    ensures p.phase.Running? <==> running == Some(i)
  {
  }

  lemma UsedFacts(s: Sim, r: Sim, slot: Slot, i: nat)
    requires Shape(s) && Shape(r) && s.policy.RR? && r.policy == s.policy && i < |s.procs|
    requires SliceOk(s) && RrEffect(s, r, slot)
    ensures 0 <= Used(s, i) <= Slice(s.policy) && (s.running == Some(i) ==> 0 < Used(s, i))
    ensures s.running != Some(i) ==> Used(s, i) == 0
    ensures r.running != Some(i) ==> Used(r, i) == 0
    ensures s.running == Some(i) && slot == Some(i) && r.running == Some(i) && Occupied(s) ==>
      Used(r, i) == if Used(s, i) < Slice(s.policy) then Used(s, i) + 1 else 1
    ensures s.running == Some(i) && slot != Some(i) && Occupied(s) ==> Used(s, i) == Slice(s.policy)
    ensures s.running != Some(i) && slot == Some(i) && r.running == Some(i) ==> Used(r, i) == 1
    ensures slot == Some(i) && s.procs[i].burst > 0 ==> r.running == Some(i)
    ensures r.running == Some(i) ==> slot == Some(i)
  {
  }

  lemma RoundsOverMove(p: Record, r: Record, u: int, v: int, q: int, served: bool)
    requires 1 <= q && SliceMove(p, r, u, v, q, served)
    requires p.phase.Ready? || p.phase.Running? ==> Whole(p, u, q)
    ensures Rounds(r, q) >= Rounds(p, q) + if p.phase.Running? && r.phase.Ready? then 1 else 0
    ensures r.phase.Ready? || r.phase.Running? ==> Whole(r, v, q)
  {
    if p.phase.Ready? || p.phase.Running? {
      RoundsArithmetic(CpuReceived(p), u, q);
    } else {
      DivideBy(0, 0, q);
    }
  }

  lemma SwitchesOverTick(s: Sim, r: Sim, slot: Slot)
    requires Inv(s) && Inv(r) && s.policy.RR? && r.policy == s.policy
    requires SliceOk(s) && RrEffect(s, r, slot) && Ticked(s, r, slot) && SwitchesPaid(s)
    ensures SwitchesPaid(r)
  {
    assert Shape(s) && Shape(r) && |r.procs| == |s.procs| && WholeSlices(s) && s.switches <= Sum(RoundsOf(s));
    hide Inv, RrEffect, Ticked, Rounds, Sum, SwitchesPaid, Whole, Shape;
    forall i: nat | i < |s.procs|
      ensures RoundsOf(r)[i] >= RoundsOf(s)[i] + if s.running == Some(i) && r.procs[i].phase.Ready? then 1 else 0
      ensures r.procs[i].phase.Ready? || r.procs[i].phase.Running? ==> Whole(r.procs[i], Used(r, i), Slice(s.policy))
    {
      RoundsOfOne(s, r, slot, i);
    }
    SwitchMeansReady(s, r, slot);
    SwitchesAddUp(s, r, RoundsOf(s), RoundsOf(r));
    assert WholeSlices(r);
    NowPaid(r);
  }

  lemma NowPaid(r: Sim)
    requires Shape(r) && r.policy.RR? && WholeSlices(r) && r.switches <= Sum(RoundsOf(r))
    ensures SwitchesPaid(r)
  {
  }

  lemma RoundsOfOne(s: Sim, r: Sim, slot: Slot, i: nat)
    requires Inv(s) && Inv(r) && s.policy.RR? && r.policy == s.policy
    requires SliceOk(s) && RrEffect(s, r, slot) && Ticked(s, r, slot) && WholeSlices(s) && i < |s.procs| == |r.procs|
    ensures RoundsOf(r)[i] >= RoundsOf(s)[i] + if s.running == Some(i) && r.procs[i].phase.Ready? then 1 else 0
    ensures r.procs[i].phase.Ready? || r.procs[i].phase.Running? ==> Whole(r.procs[i], Used(r, i), Slice(s.policy))
  {
    assert Shape(s) && Shape(r);
    hide Inv, RrEffect, Ticked, Rounds, Whole, SliceOk, Used, Shape, SliceMove;
    SliceMoves(s, r, slot, i);
    RoundsOverMove(s.procs[i], r.procs[i], Used(s, i), Used(r, i), Slice(s.policy), slot == Some(i));
  }

  lemma SwitchesAddUp(s: Sim, r: Sim, v: seq<int>, w: seq<int>)
    requires |v| == |w| == |s.procs| == |r.procs| && s.switches <= r.switches <= s.switches + 1 && s.switches <= Sum(v)
    requires r.switches > s.switches ==>
      s.running.Some? && s.running.value < |r.procs| && r.procs[s.running.value].phase.Ready?
    requires forall i: nat :: i < |v| ==> w[i] >= v[i] + if s.running == Some(i) && r.procs[i].phase.Ready? then 1 else 0
    ensures r.switches <= Sum(w)
  {
    hide Sum;
    if r.switches > s.switches {
      SumUpdate(v, s.running.value, v[s.running.value] + 1);
      SumMonotone(v[s.running.value := v[s.running.value] + 1], w);
    } else {
      SumMonotone(v, w);
    }
  }

  lemma SwitchMeansReady(s: Sim, r: Sim, slot: Slot)
    requires Inv(s) && Inv(r) && s.policy.RR? && r.policy == s.policy && RrEffect(s, r, slot) && Ticked(s, r, slot)
    ensures s.switches <= r.switches <= s.switches + 1
    ensures r.switches > s.switches ==>
      s.running.Some? && s.running.value < |r.procs| && r.procs[s.running.value].phase.Ready?
  {
    if s.running.Some? { assert ProcOk(s.procs[s.running.value], s.running.value, s.next, s.running); }
    hide HooksHold, Shape;
  }

  lemma SwitchesAtStart(policy: Policy, procs: seq<Record>)
    requires ValidPolicy(policy) && policy.RR? && Workload(procs)
    ensures SwitchesPaid(Initial(policy, procs))
  {
    SumOfZeros(RoundsOf(Initial(policy, procs)));
  }

  lemma SwitchesOverIteration(s: Sim)
    requires Inv(s) && s.policy.RR? && SliceOk(s) && SwitchesPaid(s) && !Done(s)
    ensures SwitchesPaid(Step(s))
  {
    StepKeeps(s);
    if Complete(s).completed == |s.procs| {
      SwitchesAtEnd(s, Step(s));
    } else {
      RrStep(s);
      SwitchesOverTick(s, Step(s), LastSlot(Step(s)));
    }
    hide *;
  }

  lemma SwitchesAtEnd(s: Sim, r: Sim)
    requires Inv(s) && Inv(r) && s.policy.RR? && r.policy == s.policy && SwitchesPaid(s) && Ended(s, r)
    ensures SwitchesPaid(r)
  {
    CompleteKeeps(s);
    DoneMeansAllFinished(r);
    hide HooksHold, Shape, Complete, Used;
    assert RoundsOf(r) == RoundsOf(s);
  }

  lemma {:induction false} RunPaysSwitches(policy: Policy, procs: seq<Record>, k: nat)
    requires ValidPolicy(policy) && policy.RR? && Workload(procs)
    ensures SwitchesPaid(Run(policy, procs, k))
  {
    hide *;
    if k == 0 {
      RunStep(policy, procs, 0);
      SwitchesAtStart(policy, procs);
    } else {
      RunPaysSwitches(policy, procs, k - 1);
      RunHolds(policy, procs, k - 1);
      SliceHolds(policy, procs, k - 1);
      RunStep(policy, procs, k - 1);
      if !Done(Run(policy, procs, k - 1)) { SwitchesOverIteration(Run(policy, procs, k - 1)); }
    }
  }

  /** Full slices after which a process of this burst still has work to do. */
  function SlicesLost(procs: seq<Record>, q: int): seq<int>
    requires 1 <= q
  {
    seq(|procs|, i requires 0 <= i < |procs| => if procs[i].burst < 1 then 0 else (procs[i].burst - 1) / q)
  }

  /** Round robin makes at most one context switch for every full slice of an unfinished process. */
  lemma SwitchBound(policy: Policy, procs: seq<Record>)
    requires ValidPolicy(policy) && policy.RR? && Workload(procs)
    ensures Final(policy, procs).switches <= Sum(SlicesLost(procs, Slice(policy)))
  {
    RunPaysSwitches(policy, procs, RunLength(procs));
    FinalRun(policy, procs);
    FinalFacts(policy, procs);
    EveryRunEnds(policy, procs);
    FinalRounds(procs, Final(policy, procs));
    hide *;
  }

  lemma FinalRounds(procs: seq<Record>, f: Sim)
    requires Workload(procs) && Inv(f) && Tracks(procs, f) && f.policy.RR? && SwitchesPaid(f)
    requires forall i :: 0 <= i < |procs| ==> f.procs[i].phase.Finished?
    ensures f.switches <= Sum(SlicesLost(procs, Slice(f.policy)))
  {
    hide Sum, HooksHold, Schedules.WorkLeft, Schedules.WorkConserving, Used;
    forall i: nat | i < |procs| ensures f.procs[i].remaining == 0 && f.procs[i].burst == procs[i].burst {
      assert ProcOk(f.procs[i], i, f.next, f.running);
    }
    hide Inv, Tracks;
    assert RoundsOf(f) == SlicesLost(procs, Slice(f.policy));
  }
}
