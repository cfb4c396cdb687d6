/** The multi-level feedback queue: what one step does to the levels, Rule 1, priorities as a function
    of the CPU time received, and the absence of starvation. */
module Mlfq {
  import opened Basics
  import opened Processes
  import opened Model
  import opened Engine
  import opened Runs
  import opened Accounting
  import opened RoundRobin

  /** What the policy tick decides about the running process. */
  datatype Verdict =
    | Idle                   // there is none (left)
    | Boosts                 // the boost timer is up
    | Demotes(level: nat)    // its allotment is used up
    | Rotates                // its time slice is, or somebody more important has arrived
    | Keeps

  function VerdictOf(s: Sim, next: nat): (v: Verdict)
    requires Shape(s) && s.policy.MLFQ?
    ensures v.Demotes? ==> v.level < |s.policy.quantums|
  {
    if !Occupied(s) then Idle
    else
      var p := s.procs[s.running.value];
      if s.hooks.timer + 1 >= s.policy.period then Boosts
      else if p.used + 1 >= s.policy.allotments[p.priority] then
        Demotes(if p.priority < |s.policy.quantums| - 1 then p.priority + 1 else p.priority)
      else if s.hooks.left - 1 <= 0 || (s.next < next && 0 < p.priority) then Rotates
      else Keeps
  }

  /** The queues after the processes s.next, ..., next - 1 have arrived. */
  function Admitted(s: Sim, next: nat): (queues: seq<seq<nat>>)
    requires Shape(s) && s.policy.MLFQ? && s.next <= next
    ensures |queues| == |s.policy.quantums|
  {
    s.hooks.queues[0 := s.hooks.queues[0] + Range(s.next, next)]
  }

  /** The queues after the policy tick. */
  function QueuesAfterTick(s: Sim, next: nat): (queues: seq<seq<nat>>)
    requires Shape(s) && s.policy.MLFQ? && s.next <= next
    ensures |queues| == |s.policy.quantums|
  {
    var queues := Admitted(s, next);
    match VerdictOf(s, next)
    case Boosts => TopOnly(Flatten(queues) + [s.running.value], |queues|)
    case Demotes(level) => Enqueue(queues, level, s.running.value)
    case Rotates => Enqueue(queues, s.procs[s.running.value].priority, s.running.value)
    case _ => queues
  }

  /** Level and used allotment of process i after the step. */
  function LevelAfter(s: Sim, next: nat, i: nat): (r: (int, int))
    requires Shape(s) && s.policy.MLFQ? && i < |s.procs|
  {
    var p := s.procs[i];
    var v := VerdictOf(s, next);
    if Occupied(s) && s.running == Some(i) then
      match v {
        case Boosts => (0, 0)
        case Demotes(level) => (level, 0)
        case _ => (p.priority, p.used + 1)
      }
    else if s.next <= i < next || (v.Boosts? && p.phase.Ready?) then (0, 0)
    else (p.priority, p.used)
  }

  function TimerAfter(s: Sim, next: nat): int
    requires Shape(s) && s.policy.MLFQ?
  {
    match VerdictOf(s, next)
    case Idle => s.hooks.timer
    case Boosts => 0
    case _ => s.hooks.timer + 1
  }

  /** The effect of one step on levels, queues, timer, time slice and running process. */
  ghost predicate MlfqEffect(s: Sim, r: Sim, slot: Slot)
    requires Shape(s) && Shape(r) && s.policy.MLFQ? && r.policy == s.policy && |r.procs| == |s.procs|
  {
    && s.next <= r.next
    && (forall i: nat :: i < |s.procs| ==> (r.procs[i].priority, r.procs[i].used) == LevelAfter(s, r.next, i))
    && r.hooks.timer == TimerAfter(s, r.next)
    && var queues := QueuesAfterTick(s, r.next);
       if VerdictOf(s, r.next).Keeps? then
         slot == s.running == r.running && r.hooks.queues == queues && r.hooks.left == s.hooks.left - 1
       else
         var l := FirstLevel(queues, 0);
         if l == |queues| then slot == None == r.running && r.hooks.queues == queues
         else
           && slot == Some(queues[l][0]) && queues[l][0] < |s.procs|
           && r.running == (if s.procs[queues[l][0]].burst == 0 then None else slot)
           && r.procs[queues[l][0]].priority == l
           && r.hooks.queues == queues[l := queues[l][1..]]
           && r.hooks.left == s.policy.quantums[l]
  }

  /** a is s after the arrivals: newcomers stand at level 0 and may ask for preemption. */
  ghost predicate AdmittedTo(s: Sim, a: Sim)
    requires Shape(s) && Shape(a) && s.policy.MLFQ?
  {
    && a.policy == s.policy && |a.procs| == |s.procs|
    && s.next <= a.next && a.running == s.running
    && a.hooks == MlfqHooks(Admitted(s, a.next), s.hooks.timer, s.hooks.left)
    && (a.preempt <==> s.preempt || (s.running.Some? && s.next < a.next && 0 < s.procs[s.running.value].priority))
    && (forall i: nat :: i < |s.procs| ==>
          (a.procs[i].priority, a.procs[i].used) ==
            if s.next <= i < a.next then (0, 0) else (s.procs[i].priority, s.procs[i].used))
  }

  lemma {:induction false} ArriveMlfq(s: Sim)
    requires MidStep(s) && HooksHold(s, None) && s.policy.MLFQ?
    requires forall i :: 0 <= i < s.next ==> s.procs[i].arrival <= s.now
    ensures AdmittedTo(s, Arrive(s))
    decreases |s.procs| - s.next
  {
    hide HooksHold, AdmittedTo, ArriveOne;
    if s.next < |s.procs| && s.procs[s.next].arrival <= s.now && s.procs[s.next].phase.NotArrived? {
      ArriveOneKeeps(s);
      var b := ArriveOne(s);
      ArriveMlfq(b);
      ArriveOneMlfq(s);
      OneMoreAdmitted(s, b, Arrive(b));
    } else {
      NobodyAdmitted(s);
    }
  }

  lemma NobodyAdmitted(s: Sim)
    requires Shape(s) && s.policy.MLFQ?
    ensures AdmittedTo(s, s)
  {
    assert s.hooks.queues[0] + Range(s.next, s.next) == s.hooks.queues[0];
    assert Admitted(s, s.next) == s.hooks.queues;
  }

  lemma OneMoreAdmitted(s: Sim, b: Sim, a: Sim)
    requires Shape(s) && Shape(b) && Shape(a) && s.policy.MLFQ? && AdmittedOne(s, b) && AdmittedTo(b, a)
    requires s.running != Some(s.next)
    ensures AdmittedTo(s, a)
  {
    var q := s.hooks.queues[0];
    assert Range(s.next, a.next) == [s.next] + Range(s.next + 1, a.next);
    assert (q + [s.next]) + Range(s.next + 1, a.next) == q + Range(s.next, a.next);
    assert Admitted(b, a.next) == Admitted(s, a.next);
  }

  ghost predicate AdmittedOne(s: Sim, b: Sim)
    requires Shape(s) && s.policy.MLFQ?
  {
    && s.next < |s.procs| && b.policy == s.policy && |b.procs| == |s.procs|
    && b.next == s.next + 1 && b.running == s.running
    && b.hooks == MlfqHooks(Enqueue(s.hooks.queues, 0, s.next), s.hooks.timer, s.hooks.left)
    && (b.preempt <==> s.preempt || (s.running.Some? && 0 < s.procs[s.running.value].priority))
    && (forall i: nat :: i < |s.procs| ==>
          (b.procs[i].priority, b.procs[i].used) == if i == s.next then (0, 0) else (s.procs[i].priority, s.procs[i].used))
  }

  lemma ArriveOneMlfq(s: Sim)
    requires MidStep(s) && s.policy.MLFQ? && s.next < |s.procs|
    ensures AdmittedOne(s, ArriveOne(s)) && s.running != Some(s.next)
  {
    assert ProcOk(s.procs[s.next], s.next, s.next, s.running);
  }

  /** The queues list the READY processes, with the ones at level 0 in the first. */
  ghost predicate Listed(a: Sim)
    requires Shape(a) && a.policy.MLFQ?
  {
    var queues := a.hooks.queues;
    && (forall i: nat :: i in Flatten(queues) <==> i < |a.procs| && a.procs[i].phase.Ready?)
    && (forall i: nat :: i in Flatten(queues[1..]) ==> i in Flatten(queues))
    && (forall i: nat :: i in Flatten(queues) && i !in Flatten(queues[1..]) ==> i in queues[0] && a.procs[i].priority == 0)
    && (forall i: nat :: i in queues[0] ==> i in Flatten(queues))
  }

  lemma ReadyIsListed(a: Sim)
    requires Shape(a) && HooksHold(a, None) && a.policy.MLFQ?
    ensures Listed(a)
  {
    FlattenedQueues(a.procs, a.hooks.queues, None);
    hide Flatten;
  }

  /** t is s after the arrivals up to `next` and the policy tick. */
  ghost predicate TickedTo(s: Sim, t: Sim, next: nat)
    requires Shape(s) && Shape(t) && s.policy.MLFQ?
  {
    var v := VerdictOf(s, next);
    && t.policy == s.policy && |t.procs| == |s.procs| && s.next <= next
    && t.hooks == MlfqHooks(QueuesAfterTick(s, next), TimerAfter(s, next),
                            if v.Idle? || v.Boosts? then s.hooks.left else s.hooks.left - 1)
    && (t.preempt <==> !v.Idle? && !v.Keeps?)
    && t.running == (if Occupied(s) then s.running else None)
    && (forall i: nat :: i < |s.procs| ==> (t.procs[i].priority, t.procs[i].used) == LevelAfter(s, next, i))
  }

  lemma TickMlfq(c: Sim, a: Sim, t: Sim)
    requires Shape(c) && c.policy.MLFQ? && Shape(a) && AdmittedTo(c, a) && Listed(a) && !c.preempt
    requires c.running.Some? ==> c.running.value < c.next && Occupied(c)
    requires forall i: nat :: i < |a.procs| ==>
      (a.procs[i].phase.Ready? <==> c.procs[i].phase.Ready? || c.next <= i < a.next)
    requires t == Tick(a)
    ensures TickedTo(c, t, a.next)
  {
    if c.running.None? {
      assert t == a && VerdictOf(c, a.next).Idle?;
      hide Listed;
    } else {
      hide Listed, TickedTo, Tick;
      if c.hooks.timer + 1 >= c.policy.period { TickBoosts(c, a, t); } else { TickCharges(c, a, t); }
    }
  }

  lemma TickCharges(c: Sim, a: Sim, t: Sim)
    requires Shape(c) && c.policy.MLFQ? && Shape(a) && AdmittedTo(c, a) && !c.preempt
    requires c.running.Some? && c.running.value < c.next && Occupied(c) && c.hooks.timer + 1 < c.policy.period
    requires t == Tick(a)
    ensures TickedTo(c, t, a.next)
  {
    assert t == Model.Charge(a);
    hide Tick;
  }

  lemma LevelAfterBoost(c: Sim, a: Sim, i: nat)
    requires Shape(c) && c.policy.MLFQ? && Shape(a) && AdmittedTo(c, a) && Listed(a) && i < |c.procs|
    requires c.running.Some? && c.running.value < c.next && Occupied(c) && VerdictOf(c, a.next).Boosts?
    requires a.procs[i].phase.Ready? <==> c.procs[i].phase.Ready? || c.next <= i < a.next
    ensures (Model.Boost(a).procs[i].priority, Model.Boost(a).procs[i].used) == LevelAfter(c, a.next, i)
  {
    hide Flatten, VerdictOf;
  }

  lemma TickBoosts(c: Sim, a: Sim, t: Sim)
    requires Shape(c) && c.policy.MLFQ? && Shape(a) && AdmittedTo(c, a) && Listed(a)
    requires c.running.Some? && c.running.value < c.next && Occupied(c) && c.hooks.timer + 1 >= c.policy.period
    requires forall i: nat :: i < |a.procs| ==>
      (a.procs[i].phase.Ready? <==> c.procs[i].phase.Ready? || c.next <= i < a.next)
    requires t == Tick(a)
    ensures TickedTo(c, t, a.next)
  {
    assert t == Model.Boost(a) && VerdictOf(c, a.next).Boosts? && |c.procs| == |a.procs| == |t.procs|;
    hide Flatten, Tick, Listed, VerdictOf, LevelAfter, Boosted;
    forall i: nat | i < |c.procs| ensures (t.procs[i].priority, t.procs[i].used) == LevelAfter(c, a.next, i) {
      LevelAfterBoost(c, a, i);
    }
  }

  lemma StagesOfMlfq(s: Sim, c: Sim, a: Sim, t: Sim, d: Sim)
    requires Inv(s) && Stages(s, c, a, t, d) && s.policy.MLFQ?
    requires Completes(s, c) && Arrives(c, a) && Ticks(a, t) && Dispatches(t, d)
    ensures TickedTo(s, t, a.next)
  {
    hide Arrive, Tick, Dispatch, Complete, HooksHold, AdmittedTo, Listed, Flatten, TickedTo;
    ArriveMlfq(c);
    ReadyIsListed(a);
    ReadyAfterArrivals(c, a);
    if c.running.Some? { assert ProcOk(c.procs[c.running.value], c.running.value, c.next, c.running); }
    TickMlfq(c, a, t);
    LevelsUnchanged(s, c, t, a.next);
  }

  lemma ReadyAfterArrivals(c: Sim, a: Sim)
    requires MidStep(c) && Arrives(c, a)
    ensures forall i: nat :: i < |a.procs| ==>
      (a.procs[i].phase.Ready? <==> c.procs[i].phase.Ready? || c.next <= i < a.next)
  {
    hide HooksHold;
    forall i: nat | i < |a.procs|
      ensures a.procs[i].phase.Ready? <==> c.procs[i].phase.Ready? || c.next <= i < a.next
    {
      assert ProcOk(c.procs[i], i, c.next, c.running);
    }
  }

  /** A completion changes nothing the policy tick looks at. */
  lemma SameDecision(s: Sim, c: Sim, next: nat)
    requires Inv(s) && Completes(s, c) && s.policy.MLFQ? && s.next <= next
    ensures Shape(c) && VerdictOf(s, next) == VerdictOf(c, next)
    ensures QueuesAfterTick(s, next) == QueuesAfterTick(c, next) && TimerAfter(s, next) == TimerAfter(c, next)
    ensures c.running == (if Occupied(s) then s.running else None) && Occupied(c) == Occupied(s)
  {
    hide HooksHold, Flatten;
  }

  lemma SameLevelAfter(s: Sim, c: Sim, next: nat, i: nat)
    requires Inv(s) && Completes(s, c) && s.policy.MLFQ? && s.next <= next && i < |s.procs|
    ensures LevelAfter(s, next, i) == LevelAfter(c, next, i)
  {
    SameDecision(s, c, next);
    hide HooksHold, VerdictOf, QueuesAfterTick, TimerAfter;
  }

  lemma LevelsUnchanged(s: Sim, c: Sim, t: Sim, next: nat)
    requires Inv(s) && Completes(s, c) && s.policy.MLFQ? && Shape(t) && TickedTo(c, t, next)
    ensures TickedTo(s, t, next)
  {
    assert c.policy == s.policy && |c.procs| == |s.procs| && c.next == s.next && c.hooks == s.hooks && Shape(s);
    hide Inv, Completes, VerdictOf, QueuesAfterTick, TimerAfter, LevelAfter, Occupied, Shape;
    SameDecision(s, c, next);
    forall i: nat | i < |s.procs| ensures LevelAfter(s, next, i) == LevelAfter(c, next, i) {
      SameLevelAfter(s, c, next, i);
    }
  }

  /** d is t after dispatching from the first occupied level. */
  ghost predicate HeadTaken(t: Sim, d: Sim)
    requires Shape(t) && t.policy.MLFQ?
  {
    && d.next == t.next && d.hooks.MlfqHooks? && d.hooks.timer == t.hooks.timer && |d.procs| == |t.procs|
    && (if t.running.Some? && !t.preempt then d.running == t.running && d.hooks == t.hooks
        else
          var queues := t.hooks.queues;
          var l := FirstLevel(queues, 0);
          if l == |queues| then d.running == None && d.hooks.queues == queues
          else
            && d.running == Some(queues[l][0]) && queues[l][0] < |t.procs|
            && d.hooks.queues == queues[l := queues[l][1..]] && d.hooks.left == t.policy.quantums[l])
    && forall i :: 0 <= i < |t.procs| ==>
         d.procs[i].priority == t.procs[i].priority && d.procs[i].used == t.procs[i].used
  }

  lemma DispatchMlfq(t: Sim, d: Sim)
    requires Shape(t) && t.policy.MLFQ? && d == Dispatch(t)
    ensures HeadTaken(t, d)
  {
  }

  ghost predicate SameLevels(d: Sim, e: Sim) {
    && e.hooks == d.hooks && e.next == d.next && |e.procs| == |d.procs|
    && forall i :: 0 <= i < |d.procs| ==> e.procs[i].priority == d.procs[i].priority && e.procs[i].used == d.procs[i].used
  }

  lemma ExecuteMlfq(d: Sim)
    requires Shape(d)
    ensures SameLevels(d, Execute(d))
  {
  }

  ghost predicate HeadsAtLevel(t: Sim)
    requires Shape(t) && t.policy.MLFQ?
  {
    var l := FirstLevel(t.hooks.queues, 0);
    l < |t.hooks.queues| && t.hooks.queues[l][0] < |t.procs| ==> t.procs[t.hooks.queues[l][0]].priority == l
  }

  lemma HeadsAfterTick(a: Sim, t: Sim)
    requires Ticks(a, t) && t.policy.MLFQ?
    ensures HeadsAtLevel(t)
  {
    LowestLevel(t.procs, t.hooks.queues, if t.preempt then t.running else None);
    hide FirstLevel;
  }

  lemma MlfqStep(s: Sim)
    requires Inv(s) && !Done(s) && s.policy.MLFQ? && Complete(s).completed != |s.procs|
    ensures MlfqEffect(s, Step(s), LastSlot(Step(s)))
  {
    var c := Complete(s);
    var a := Arrive(c);
    var t := Tick(a);
    var d := Dispatch(t);
    var e := Execute(d);
    assert Stages(s, c, a, t, d) && Shape(s) && Shape(t) && Shape(e) && Step(s) == e && t.policy == s.policy && e.policy == s.policy;
    assert t.next == a.next && |e.procs| == |s.procs| by { StagesHold(s, c, a, t, d); hide HooksHold, Complete, Arrive, Tick, Dispatch; }
    hide *;
    StagesHold(s, c, a, t, d);
    DispatchMlfq(t, d);
    ExecuteStage(s, c, a, t, d);
    StagesOfMlfq(s, c, a, t, d);
    ExecuteMlfq(d);
    RunningAfter(s, c, a, t, d);
    HeadsAfterTick(a, t);
    SlotIsLast(s, e, d.running);
    MlfqEffectHolds(s, t, d, e);
  }

  lemma MlfqEffectHolds(s: Sim, t: Sim, d: Sim, e: Sim)
    requires Inv(s) && Shape(t) && Shape(e) && s.policy.MLFQ? && t.policy == s.policy && e.policy == s.policy
    requires |e.procs| == |s.procs|
    requires TickedTo(s, t, t.next) && HeadTaken(t, d) && HeadsAtLevel(t) && SameLevels(d, e)
    requires d.running.Some? ==> d.running.value < |s.procs|
    requires e.running == if d.running.Some? && s.procs[d.running.value].burst == 0 then None else d.running
    ensures MlfqEffect(s, e, d.running)
  {
    hide QueuesAfterTick, LevelAfter, FirstLevel, HooksHold;
  }

  // ---------- Rule 1 and the bounds of the counters ----------

  ghost predicate InQueueOrRunning(s: Sim, i: nat) {
    i < |s.procs| && (s.procs[i].phase.Ready? || s.procs[i].phase.Running?)
  }

  /** Nobody who waits has a more important level than the running process; slice, allotment and
      boost timer are within their configured bounds. */
  ghost predicate LevelsOk(s: Sim)
    requires Shape(s) && s.policy.MLFQ?
  {
    && 0 <= s.hooks.timer < s.policy.period
    && (s.running.Some? ==>
          && 1 <= s.hooks.left <= s.policy.quantums[s.procs[s.running.value].priority]
          && forall i: nat :: i < |s.procs| && s.procs[i].phase.Ready? ==>
               s.procs[s.running.value].priority <= s.procs[i].priority)
    && (forall i: nat :: InQueueOrRunning(s, i) ==>
          0 <= s.procs[i].used < s.policy.allotments[s.procs[i].priority])
  }

  /** Where everybody who is in a queue or running comes from. */
  lemma Origins(s: Sim, r: Sim, slot: Slot, i: nat)
    requires Inv(s) && Inv(r) && s.policy.MLFQ? && r.policy == s.policy && |r.procs| == |s.procs|
    requires MlfqEffect(s, r, slot) && Ticked(s, r, slot)
    requires InQueueOrRunning(r, i)
    ensures s.next <= i < r.next || (InQueueOrRunning(s, i) && i < s.next && 0 < Left(s.procs[i]))
    ensures s.running == Some(i) ==> Occupied(s)
    ensures r.procs[i].phase.Running? ==> slot == Some(i)
    ensures r.procs[i].phase.Ready? ==> slot != Some(i) && i in r.hooks.queues[r.procs[i].priority]
  {
    assert ProcOk(s.procs[i], i, s.next, s.running);
    assert ProcOk(r.procs[i], i, r.next, r.running);
    assert r.procs[i].phase.Ready? ==> Waits(r.procs, None, i);
    hide MlfqEffect, Shape;
  }

  lemma UsedAfterVerdict(s: Sim, next: nat, i: nat)
    requires Shape(s) && s.policy.MLFQ? && LevelsOk(s) && i < |s.procs|
    requires s.next <= i < next || (InQueueOrRunning(s, i) && i < s.next)
    requires s.running == Some(i) ==> Occupied(s) && i < s.next
    ensures var (p, u) := LevelAfter(s, next, i);
      0 <= p < |s.policy.quantums| && 0 <= u < s.policy.allotments[p]
  {
  }

  lemma UsedWithinAllotment(s: Sim, r: Sim, slot: Slot, i: nat)
    requires Inv(s) && Inv(r) && s.policy.MLFQ? && r.policy == s.policy && |r.procs| == |s.procs|
    requires MlfqEffect(s, r, slot) && Ticked(s, r, slot) && LevelsOk(s)
    requires InQueueOrRunning(r, i)
    ensures i < |r.procs| && 0 <= r.procs[i].priority < |s.policy.allotments|
    ensures 0 <= r.procs[i].used < s.policy.allotments[r.procs[i].priority]
  {
    assert i < |r.procs| && Shape(s);
    assert (r.procs[i].priority, r.procs[i].used) == LevelAfter(s, r.next, i);
    assert |s.policy.allotments| == |s.policy.quantums|;
    assert ProcOk(s.procs[i], i, s.next, s.running) && (s.running == Some(i) ==> i < s.next);
    hide *;
    Origins(s, r, slot, i);
    UsedAfterVerdict(s, r.next, i);
  }

  lemma RuleOneOverTick(s: Sim, r: Sim, slot: Slot, i: nat)
    requires Inv(s) && Inv(r) && s.policy.MLFQ? && r.policy == s.policy && |r.procs| == |s.procs|
    requires MlfqEffect(s, r, slot) && Ticked(s, r, slot) && LevelsOk(s)
    requires slot.Some? && i < |r.procs| && r.procs[i].phase.Ready?
    ensures slot.value < |r.procs| && r.procs[slot.value].priority <= r.procs[i].priority
    ensures r.running.Some? ==> r.running == slot
  {
    assert Shape(s) && Shape(r);
    assert slot.value < |s.procs|;
    assert ProcOk(s.procs[i], i, s.next, s.running);
    hide Inv, Ticked, QueuesAfterTick, Shape, MlfqEffect;
    Origins(s, r, slot, i);
    RuleOneHolds(s, r, slot, i);
  }

  lemma RuleOneHolds(s: Sim, r: Sim, slot: Slot, i: nat)
    requires Shape(s) && Shape(r) && s.policy.MLFQ? && r.policy == s.policy && |r.procs| == |s.procs|
    requires MlfqEffect(s, r, slot) && LevelsOk(s) && slot.Some? && slot.value < |r.procs| && i < |r.procs|
    requires slot != Some(i) && i in r.hooks.queues[r.procs[i].priority]
    requires s.next <= i < r.next || (InQueueOrRunning(s, i) && i < s.next)
    requires s.running == Some(i) ==> Occupied(s)
    requires s.procs[i].phase.Running? ==> s.running == Some(i)
    ensures r.procs[slot.value].priority <= r.procs[i].priority
    ensures r.running.Some? ==> r.running == slot
  {
    hide QueuesAfterTick;
    if !VerdictOf(s, r.next).Keeps? {
      var queues := QueuesAfterTick(s, r.next);
      var l := FirstLevel(queues, 0);
      assert queues[r.procs[i].priority] != [];
      hide LevelsOk, LevelAfter, VerdictOf;
    }
  }

  lemma CountersOverTick(s: Sim, r: Sim, slot: Slot)
    requires Shape(s) && Shape(r) && s.policy.MLFQ? && r.policy == s.policy && |r.procs| == |s.procs|
    requires MlfqEffect(s, r, slot) && LevelsOk(s)
    ensures 0 <= r.hooks.timer < s.policy.period
    ensures r.running.Some? ==> 1 <= r.hooks.left <= s.policy.quantums[r.procs[r.running.value].priority]
  {
    hide QueuesAfterTick, FirstLevel;
    if r.running.Some? {
      var i := r.running.value;
      assert (r.procs[i].priority, r.procs[i].used) == LevelAfter(s, r.next, i);
    }
  }

  lemma LevelsOverTick(s: Sim, r: Sim, slot: Slot)
    requires Inv(s) && Inv(r) && s.policy.MLFQ? && r.policy == s.policy && |r.procs| == |s.procs|
    requires MlfqEffect(s, r, slot) && Ticked(s, r, slot) && LevelsOk(s)
    ensures LevelsOk(r)
  {
    CountersOverTick(s, r, slot);
    forall i: nat | InQueueOrRunning(r, i)
      ensures 0 <= r.procs[i].used < r.policy.allotments[r.procs[i].priority]
    {
      UsedWithinAllotment(s, r, slot, i);
    }
    RunningHasSlot(s, r, slot);
    forall i: nat | r.running.Some? && i < |r.procs| && r.procs[i].phase.Ready?
      ensures r.procs[r.running.value].priority <= r.procs[i].priority
    {
      RuleOneOverTick(s, r, slot, i);
    }
    hide Inv, Ticked, MlfqEffect;
  }

  lemma RunningHasSlot(s: Sim, r: Sim, slot: Slot)
    requires Shape(s) && Shape(r) && s.policy.MLFQ? && r.policy == s.policy && |r.procs| == |s.procs|
    requires MlfqEffect(s, r, slot)
    ensures r.running.Some? ==> slot.Some?
  {
    hide QueuesAfterTick, FirstLevel, LevelAfter;
  }

  lemma LevelsAtStart(policy: Policy, procs: seq<Record>)
    requires ValidPolicy(policy) && policy.MLFQ? && Workload(procs)
    ensures LevelsOk(Initial(policy, procs))
  {
  }

  lemma LevelsAtEnd(s: Sim, r: Sim)
    requires Inv(s) && Inv(r) && s.policy.MLFQ? && r.policy == s.policy && Ended(s, r) && LevelsOk(s)
    ensures LevelsOk(r)
  {
    CompleteKeeps(s);
    DoneMeansAllFinished(r);
    hide HooksHold, Shape, Complete;
  }

  lemma LevelsOverIteration(s: Sim)
    requires Inv(s) && s.policy.MLFQ? && LevelsOk(s) && !Done(s)
    ensures LevelsOk(Step(s))
  {
    assert Shape(s);
    hide *;
    StepKeeps(s);
    if Complete(s).completed == |s.procs| {
      LevelsAtEnd(s, Step(s));
    } else {
      MlfqStep(s);
      LevelsOverTick(s, Step(s), LastSlot(Step(s)));
    }
  }

  /** At every step boundary of an MLFQ run. */
  lemma {:induction false} LevelsHold(policy: Policy, procs: seq<Record>, k: nat)
    requires ValidPolicy(policy) && policy.MLFQ? && Workload(procs)
    ensures LevelsOk(Run(policy, procs, k))
  {
    hide *;
    if k == 0 {
      RunStep(policy, procs, 0);
      LevelsAtStart(policy, procs);
    } else {
      LevelsHold(policy, procs, k - 1);
      RunHolds(policy, procs, k - 1);
      RunStep(policy, procs, k - 1);
      if !Done(Run(policy, procs, k - 1)) { LevelsOverIteration(Run(policy, procs, k - 1)); }
    }
  }

  /** The structure of the queues at every step boundary, and Rule 1: whoever has been given the tick, and
      whoever is running, has a level at least as important as everybody who waits. */
  lemma StructureAndRuleOne(policy: Policy, procs: seq<Record>, k: nat)
    requires ValidPolicy(policy) && policy.MLFQ? && Workload(procs)
    ensures var s := Run(policy, procs, k);
      && (forall l :: 0 <= l < |s.hooks.queues| ==> Distinct(s.hooks.queues[l]))
      && (forall l, i: nat :: 0 <= l < |s.hooks.queues| && i in s.hooks.queues[l] ==>
            i < |procs| && s.procs[i].phase.Ready? && s.procs[i].priority == l)
      && (forall i: nat :: i < |procs| && s.procs[i].phase.Ready? ==> i in s.hooks.queues[s.procs[i].priority])
      && (s.running.Some? ==> forall i: nat :: i < |procs| && s.procs[i].phase.Ready? ==>
            s.procs[s.running.value].priority <= s.procs[i].priority)
      && ServedAboveWaiting(s)
  {
    RunHolds(policy, procs, k);
    LevelsHold(policy, procs, k);
    StructureOf(Run(policy, procs, k));
    LastTickObeysRuleOne(policy, procs, k);
    hide *;
  }

  /** Rule 1 for the process that got the last tick, which need not be running any more: a process without
      work gives the CPU back at once. */
  ghost predicate ServedAboveWaiting(s: Sim) {
    LastSlot(s).Some? ==>
      && LastSlot(s).value < |s.procs|
      && forall i: nat :: i < |s.procs| && s.procs[i].phase.Ready? ==>
           s.procs[LastSlot(s).value].priority <= s.procs[i].priority
  }

  lemma NobodyServedAtStart(policy: Policy, procs: seq<Record>)
    requires ValidPolicy(policy) && Workload(procs)
    ensures ServedAboveWaiting(Initial(policy, procs))
  {
  }

  lemma RuleOneAtEnd(s: Sim, r: Sim)
    requires Inv(s) && Inv(r) && Ended(s, r) && ServedAboveWaiting(s)
    ensures ServedAboveWaiting(r)
  {
    CompleteKeeps(s);
    DoneMeansAllFinished(r);
    hide HooksHold, Shape, Complete;
  }

  lemma RuleOneOfSlot(s: Sim, r: Sim)
    requires Inv(s) && Inv(r) && s.policy.MLFQ? && r.policy == s.policy && |r.procs| == |s.procs|
    requires MlfqEffect(s, r, LastSlot(r)) && Ticked(s, r, LastSlot(r)) && LevelsOk(s)
    ensures ServedAboveWaiting(r)
  {
    var slot := LastSlot(r);
    assert slot.Some? ==> slot.value < |r.procs|;
    forall i: nat | slot.Some? && i < |r.procs| && r.procs[i].phase.Ready?
      ensures r.procs[slot.value].priority <= r.procs[i].priority
    {
      RuleOneOverTick(s, r, slot, i);
    }
    hide Inv, Ticked, MlfqEffect, LevelsOk, LastSlot;
  }

  lemma RuleOneOverIteration(s: Sim)
    requires Inv(s) && s.policy.MLFQ? && LevelsOk(s) && !Done(s) && ServedAboveWaiting(s)
    ensures ServedAboveWaiting(Step(s))
  {
    assert Shape(s);
    hide *;
    StepKeeps(s);
    if Complete(s).completed == |s.procs| {
      RuleOneAtEnd(s, Step(s));
    } else {
      MlfqStep(s);
      RuleOneOfSlot(s, Step(s));
    }
  }

  lemma {:induction false} LastTickObeysRuleOne(policy: Policy, procs: seq<Record>, k: nat)
    requires ValidPolicy(policy) && policy.MLFQ? && Workload(procs)
    ensures ServedAboveWaiting(Run(policy, procs, k))
  {
    hide *;
    if k == 0 {
      RunStep(policy, procs, 0);
      NobodyServedAtStart(policy, procs);
    } else {
      LastTickObeysRuleOne(policy, procs, k - 1);
      LevelsHold(policy, procs, k - 1);
      RunHolds(policy, procs, k - 1);
      RunStep(policy, procs, k - 1);
      if !Done(Run(policy, procs, k - 1)) { RuleOneOverIteration(Run(policy, procs, k - 1)); }
    }
  }

  lemma StructureOf(s: Sim)
    requires Inv(s) && s.policy.MLFQ? && LevelsOk(s)
    ensures (forall l :: 0 <= l < |s.hooks.queues| ==> Distinct(s.hooks.queues[l]))
    ensures (forall l, i: nat :: 0 <= l < |s.hooks.queues| && i in s.hooks.queues[l] ==>
            i < |s.procs| && s.procs[i].phase.Ready? && s.procs[i].priority == l)
    ensures forall i: nat :: i < |s.procs| && s.procs[i].phase.Ready? ==> i in s.hooks.queues[s.procs[i].priority]
    ensures (s.running.Some? ==> forall i: nat :: i < |s.procs| && s.procs[i].phase.Ready? ==>
            s.procs[s.running.value].priority <= s.procs[i].priority)
  {
    forall i: nat | i < |s.procs| && s.procs[i].phase.Ready? ensures i in s.hooks.queues[s.procs[i].priority] {
      assert Waits(s.procs, None, i);
    }
  }

  // ---------- priority as a function of the CPU time received ----------

  /** Whether the policy tick of the next step boosts everybody. */
  predicate BoostsNext(s: Sim)
    requires Shape(s) && s.policy.MLFQ?
  {
    Occupied(s) && s.hooks.timer + 1 >= s.policy.period
  }

  /** CPU ticks process i has received since it arrived or since the last boost, up to iteration k. */
  function SinceBoost(policy: Policy, procs: seq<Record>, i: nat, k: nat): int
    requires ValidPolicy(policy) && policy.MLFQ? && Workload(procs)
  {
    if k == 0 then 0
    else
      var s, r := Run(policy, procs, k - 1), Run(policy, procs, k);
      if r.now == s.now then SinceBoost(policy, procs, i, k - 1)
      else
        (if BoostsNext(s) then 0 else SinceBoost(policy, procs, i, k - 1)) +
        if LastSlot(r) == Some(i) then 1 else 0
  }

  /** Allotments of the levels above. */
  function AllotmentAbove(allotments: seq<int>, level: nat): int
    requires level <= |allotments|
  {
    Sum(allotments[..level])
  }

  /** A process at level p that has used u ticks of its allotment there has been charged for x ticks:
      all of the levels above, and u; at the last level the allotment may have been used up repeatedly. */
  ghost predicate Charged(allotments: seq<int>, p: int, u: int, x: int) {
    && 0 <= p < |allotments| && 0 <= u < allotments[p]
    && if p < |allotments| - 1 then x == AllotmentAbove(allotments, p) + u
       else x >= AllotmentAbove(allotments, p) + u && (x - AllotmentAbove(allotments, p) - u) % allotments[p] == 0
  }

  /** The last tick of the running process has not been charged yet. */
  ghost predicate ChargedSince(s: Sim, i: nat, since: int)
    requires Shape(s) && s.policy.MLFQ?
  {
    && (InQueueOrRunning(s, i) ==>
          Charged(s.policy.allotments, s.procs[i].priority, s.procs[i].used,
                  since - if s.running == Some(i) then 1 else 0))
    && (i < |s.procs| && s.procs[i].phase.NotArrived? ==> since == 0)
  }

  lemma FreshCharge(allotments: seq<int>)
    requires |allotments| >= 1 && 1 <= allotments[0]
    ensures Charged(allotments, 0, 0, 0)
  {
    assert allotments[..0] == [];
  }

  /** One more tick, with the level it leads to. */
  lemma ChargeOneTick(allotments: seq<int>, p: int, u: int, x: int)
    requires Charged(allotments, p, u, x)
    requires forall l :: 0 <= l < |allotments| ==> 1 <= allotments[l]
    ensures u + 1 < allotments[p] ==> Charged(allotments, p, u + 1, x + 1)
    ensures u + 1 >= allotments[p] ==>
      Charged(allotments, if p < |allotments| - 1 then p + 1 else p, 0, x + 1)
  {
    if u + 1 >= allotments[p] {
      if p < |allotments| - 1 {
        assert allotments[..p + 1][..p] == allotments[..p];
      } else {
        var q := allotments[p];
        var d := x - AllotmentAbove(allotments, p) - u;
        var m := d / q;
        assert d == m * q;
        assert d + q == (m + 1) * q + 0;
        NaturalProduct(m + 1, q);
        DivideBy(m + 1, 0, q);
      }
    }
  }

  lemma ChargedOverTick(s: Sim, r: Sim, slot: Slot, i: nat, since: int)
    requires Inv(s) && Inv(r) && s.policy.MLFQ? && r.policy == s.policy && |r.procs| == |s.procs|
    requires MlfqEffect(s, r, slot) && Ticked(s, r, slot) && LevelsOk(s) && ChargedSince(s, i, since)
    ensures ChargedSince(r, i, (if BoostsNext(s) then 0 else since) + if slot == Some(i) then 1 else 0)
  {
    assert Shape(s) && Shape(r);
    hide Inv, Ticked, MlfqEffect, Charged, LevelsOk, InQueueOrRunning, Shape, BoostsNext;
    if i < |s.procs| && r.procs[i].phase.NotArrived? {
      UntouchedSlot(s, r, slot, i);
      NoBoostAtArrival(s, i, since);
    }
    if InQueueOrRunning(r, i) {
      ChargedInSystem(s, r, slot, i, since);
    }
  }

  lemma NoBoostAtArrival(s: Sim, i: nat, since: int)
    requires Shape(s) && s.policy.MLFQ? && ChargedSince(s, i, since) && i < |s.procs| && s.procs[i].phase.NotArrived?
    ensures since == 0
  {
  }

  lemma ChargedInSystem(s: Sim, r: Sim, slot: Slot, i: nat, since: int)
    requires Inv(s) && Inv(r) && s.policy.MLFQ? && r.policy == s.policy && |r.procs| == |s.procs|
    requires MlfqEffect(s, r, slot) && Ticked(s, r, slot) && ChargedSince(s, i, since) && InQueueOrRunning(r, i)
    ensures Charged(r.policy.allotments, r.procs[i].priority, r.procs[i].used,
                    (if BoostsNext(s) then 0 else since) + (if slot == Some(i) then 1 else 0)
                    - if r.running == Some(i) then 1 else 0)
  {
    assert Shape(s) && Shape(r) && i < |s.procs|;
    assert (r.procs[i].priority, r.procs[i].used) == LevelAfter(s, r.next, i);
    assert ProcOk(s.procs[i], i, s.next, s.running);
    assert s.procs[i].phase.NotArrived? ==> since == 0;
    assert s.next <= i < r.next ==> s.procs[i].phase.NotArrived? && s.running != Some(i);
    assert s.procs[i].phase.Running? <==> s.running == Some(i);
    var x := since - if s.running == Some(i) then 1 else 0;
    hide Inv, Ticked, MlfqEffect, Charged, LevelAfter, Shape, BoostsNext, Occupied;
    Origins(s, r, slot, i);
    RunningIsSlot(s, r, slot, i);
    ChargedByVerdict(s, r.next, i, x, since);
  }

  /** Level and use after the step, against the ticks charged by then. */
  lemma ChargedByVerdict(s: Sim, next: nat, i: nat, x: int, since: int)
    requires Shape(s) && s.policy.MLFQ? && i < |s.procs|
    requires x == since - if s.running == Some(i) then 1 else 0
    requires s.running == Some(i) ==> Occupied(s)
    requires s.procs[i].phase.Running? <==> s.running == Some(i)
    requires if s.next <= i < next then since == 0 && s.running != Some(i)
             else InQueueOrRunning(s, i) && Charged(s.policy.allotments, s.procs[i].priority, s.procs[i].used, x)
    ensures var (p, u) := LevelAfter(s, next, i);
      Charged(s.policy.allotments, p, u, if BoostsNext(s) then 0 else since)
  {
    FreshCharge(s.policy.allotments);
    if !(s.next <= i < next) {
      ChargeOneTick(s.policy.allotments, s.procs[i].priority, s.procs[i].used, x);
    }
    hide Charged;
  }

  lemma UntouchedSlot(s: Sim, r: Sim, slot: Slot, i: nat)
    requires Inv(r) && Ticked(s, r, slot) && i < |s.procs| && r.procs[i].phase.NotArrived?
    ensures s.procs[i].phase.NotArrived? && slot != Some(i) && s.now < s.procs[i].arrival
  {
    hide HooksHold;
  }

  lemma RunningIsSlot(s: Sim, r: Sim, slot: Slot, i: nat)
    requires Inv(r) && Ticked(s, r, slot) && InQueueOrRunning(r, i)
    ensures slot == Some(i) <==> r.running == Some(i)
  {
    assert ProcOk(r.procs[i], i, r.next, r.running);
    hide HooksHold, Shape;
  }

  lemma SinceBoostStep(policy: Policy, procs: seq<Record>, i: nat, k: nat)
    requires ValidPolicy(policy) && policy.MLFQ? && Workload(procs)
    ensures SinceBoost(policy, procs, i, 0) == 0
    ensures var s, r := Run(policy, procs, k), Run(policy, procs, k + 1);
      SinceBoost(policy, procs, i, k + 1) ==
        if r.now == s.now then SinceBoost(policy, procs, i, k)
        else
          (if BoostsNext(s) then 0 else SinceBoost(policy, procs, i, k)) + if LastSlot(r) == Some(i) then 1 else 0
  {
    hide Run;
  }

  lemma ChargedAtStart(policy: Policy, procs: seq<Record>, i: nat)
    requires ValidPolicy(policy) && policy.MLFQ? && Workload(procs)
    ensures ChargedSince(Initial(policy, procs), i, 0)
  {
  }

  lemma ChargedAtEnd(s: Sim, r: Sim, i: nat, since: int)
    requires Inv(s) && Inv(r) && s.policy.MLFQ? && r.policy == s.policy && Ended(s, r) && ChargedSince(s, i, since)
    ensures r.now == s.now && ChargedSince(r, i, since)
  {
    CompleteKeeps(s);
    DoneMeansAllFinished(r);
    hide HooksHold, Shape, Complete;
  }

  lemma ChargedOverIteration(s: Sim, i: nat, since: int)
    requires Inv(s) && s.policy.MLFQ? && LevelsOk(s) && ChargedSince(s, i, since) && !Done(s)
    ensures var r := Step(s);
      ChargedSince(r, i, if r.now == s.now then since
                         else (if BoostsNext(s) then 0 else since) + if LastSlot(r) == Some(i) then 1 else 0)
  {
    assert Shape(s);
    hide *;
    StepKeeps(s);
    if Complete(s).completed == |s.procs| {
      ChargedAtEnd(s, Step(s), i, since);
    } else {
      MlfqStep(s);
      ClockOfTick(s, Step(s), LastSlot(Step(s)));
      ChargedOverTick(s, Step(s), LastSlot(Step(s)), i, since);
    }
  }

  lemma ClockOfTick(s: Sim, r: Sim, slot: Slot)
    requires Ticked(s, r, slot)
    ensures r.now == s.now + 1
  {
  }

  lemma {:induction false} ChargedAlong(policy: Policy, procs: seq<Record>, i: nat, k: nat)
    requires ValidPolicy(policy) && policy.MLFQ? && Workload(procs)
    ensures ChargedSince(Run(policy, procs, k), i, SinceBoost(policy, procs, i, k))
  {
    hide *;
    if k == 0 {
      RunStep(policy, procs, 0);
      ChargedAtStart(policy, procs, i);
      SinceBoostStep(policy, procs, i, 0);
    } else {
      ChargedAlong(policy, procs, i, k - 1);
      SinceBoostStep(policy, procs, i, k - 1);
      LevelsHold(policy, procs, k - 1);
      RunHolds(policy, procs, k - 1);
      RunStep(policy, procs, k - 1);
      if !Done(Run(policy, procs, k - 1)) {
        ChargedOverIteration(Run(policy, procs, k - 1), i, SinceBoost(policy, procs, i, k - 1));
      }
    }
  }

  /** The level of a process is determined by the CPU time it has received since its arrival or the last
      boost, however that time was interrupted: its use of the allotments of all higher levels plus
      its use at this level (below the last level exactly, at the last modulo the allotment). */
  lemma LevelIsCpuReceived(policy: Policy, procs: seq<Record>, i: nat, k: nat)
    requires ValidPolicy(policy) && policy.MLFQ? && Workload(procs)
    requires InQueueOrRunning(Run(policy, procs, k), i)
    ensures var s := Run(policy, procs, k);
      Charged(policy.allotments, s.procs[i].priority, s.procs[i].used,
              SinceBoost(policy, procs, i, k) - if s.running == Some(i) then 1 else 0)
  {
    ChargedAlong(policy, procs, i, k);
    hide Run, SinceBoost, Charged;
  }

  // ---------- no starvation ----------

  function CountUnfinished(s: Sim, i: nat): (v: seq<int>)
    ensures |v| == |s.procs|
  {
    seq(|s.procs|, p requires 0 <= p < |s.procs| => if p != i && 0 < Left(s.procs[p]) then 1 else 0)
  }

  /** Steps that can still pass without advancing the boost timer while i waits: one for each other
      process that finishes, and the next step if nobody is (still) running. */
  function Skips(s: Sim, i: nat): int
    requires Shape(s)
  {
    Sum(CountUnfinished(s, i)) + if Occupied(s) then 0 else 1
  }

  function TopSlack(s: Sim): int
    requires Shape(s) && s.policy.MLFQ?
  {
    if s.running.Some? then Max(1, s.hooks.left) - 1 else 0
  }

  /** Upper bound for the steps before process i, which waits, is given the CPU. */
  function Patience(s: Sim, i: nat): int
    requires Shape(s) && s.policy.MLFQ? && i < |s.procs|
  {
    var q := s.policy.quantums[0];
    if s.procs[i].priority == 0 then TopSlack(s) + IndexOf(s.hooks.queues[0], i) * q
    else s.policy.period - s.hooks.timer + Skips(s, i) + (|s.procs| - 1) * q
  }

  lemma SkipsOverTick(s: Sim, r: Sim, slot: Slot, i: nat)
    requires Inv(s) && Inv(r) && Ticked(s, r, slot) && |r.procs| == |s.procs|
    requires slot.Some? && slot != Some(i) && r.running == (if s.procs[slot.value].burst == 0 then None else slot)
    ensures Skips(r, i) <= Skips(s, i) - if Occupied(s) then 0 else 1
  {
    var j := slot.value;
    var v := CountUnfinished(s, i);
    forall p: nat | p < |s.procs| ensures Left(r.procs[p]) == Left(s.procs[p]) - if p == j then 1 else 0 {
      assert ProcOk(s.procs[p], p, s.next, s.running);
      AdvanceWork(s.procs[p], p, s.next, s.running, s.now, slot == Some(p));
    }
    assert Left(r.procs[j]) == 0 <==> !Occupied(r) by { assert ProcOk(r.procs[j], j, r.next, r.running); }
    hide Inv, Ticked, Left, Sum, Occupied;
    if Left(r.procs[j]) == 0 {
      assert CountUnfinished(r, i) == v[j := 0];
      SumUpdate(v, j, 0);
    } else {
      assert CountUnfinished(r, i) == v;
    }
  }

  lemma IndexInPrefix(a: seq<nat>, b: seq<nat>, x: nat)
    requires a <= b && x in a
    ensures IndexOf(b, x) == IndexOf(a, x)
  {
    assert b == a + b[|a|..];
    IndexOfConcat(a, b[|a|..], x);
  }

  /** Whatever the tick does, level 0 only grows at its end. */
  lemma TopOnlyGrows(s: Sim, next: nat)
    requires Shape(s) && s.policy.MLFQ? && s.next <= next
    ensures s.hooks.queues[0] <= QueuesAfterTick(s, next)[0]
    ensures VerdictOf(s, next).Boosts? ==> FirstLevel(QueuesAfterTick(s, next), 0) == 0
  {
    assert s.hooks.queues[0] <= Admitted(s, next)[0] <= Flatten(Admitted(s, next));
  }

  lemma TopPatience(s: Sim, r: Sim, slot: Slot, i: nat)
    requires Shape(s) && Shape(r) && s.policy.MLFQ? && r.policy == s.policy && |r.procs| == |s.procs|
    requires MlfqEffect(s, r, slot) && LevelsOk(s)
    requires i < |s.procs| && s.procs[i].phase.Ready? && s.procs[i].priority == 0 && i in s.hooks.queues[0]
    requires slot != Some(i) && r.procs[i].priority == 0
    ensures Patience(r, i) <= Patience(s, i) - 1
  {
    var q := s.policy.quantums[0];
    var queues := QueuesAfterTick(s, r.next);
    TopOnlyGrows(s, r.next);
    IndexInPrefix(s.hooks.queues[0], queues[0], i);
    assert queues[0] != [];
    if VerdictOf(s, r.next).Keeps? {
      assert s.hooks.left > 1;
    } else {
      assert FirstLevel(queues, 0) == 0;
      assert queues[0][0] != i;
      OneSliceLess(IndexOf(r.hooks.queues[0], i), IndexOf(s.hooks.queues[0], i), q);
    }
    hide MlfqEffect, LevelsOk, QueuesAfterTick, FirstLevel, Shape;
  }

  /** Whoever has just come to level 0 has at most everybody else ahead. */
  lemma PatienceOfNewcomer(r: Sim, slot: Slot, i: nat)
    requires Inv(r) && r.policy.MLFQ? && LevelsOk(r)
    requires i < |r.procs| && r.procs[i].phase.Ready? && r.procs[i].priority == 0
    requires slot.Some? && slot.value < |r.procs| && !r.procs[slot.value].phase.Ready?
    ensures Patience(r, i) <= (|r.procs| - 1) * r.policy.quantums[0] - 1
  {
    var q := r.hooks.queues[0];
    StructureOf(r);
    assert slot.value !in q;
    DistinctConcat(q, [slot.value]);
    DistinctFits(q + [slot.value], |r.procs|);
    OneSliceLess(IndexOf(q, i), |r.procs| - 1, r.policy.quantums[0]);
    assert r.running.Some? ==> r.procs[r.running.value].priority == 0 && r.hooks.left <= r.policy.quantums[0];
    hide Inv, LevelsOk;
  }

  lemma LowerPatience(s: Sim, r: Sim, i: nat)
    requires Shape(s) && Shape(r) && s.policy.MLFQ? && r.policy == s.policy && |r.procs| == |s.procs|
    requires i < |s.procs| && s.procs[i].priority > 0 && s.hooks.timer < s.policy.period
    requires
      if r.procs[i].priority == 0 then
        Patience(r, i) <= (|r.procs| - 1) * r.policy.quantums[0] - 1 && 0 <= Skips(s, i)
      else
        && r.hooks.timer == s.hooks.timer + (if Occupied(s) then 1 else 0)
        && Skips(r, i) <= Skips(s, i) - if Occupied(s) then 0 else 1
    ensures Patience(r, i) <= Patience(s, i) - 1
  {
    hide Skips, Occupied;
  }

  lemma LowPatience(s: Sim, r: Sim, slot: Slot, i: nat)
    requires Inv(s) && Inv(r) && s.policy.MLFQ? && r.policy == s.policy && |r.procs| == |s.procs|
    requires MlfqEffect(s, r, slot) && Ticked(s, r, slot) && LevelsOk(s) && LevelsOk(r)
    requires i < s.next && i < |s.procs| && s.procs[i].phase.Ready? && s.procs[i].priority > 0 && s.running != Some(i)
    requires slot.Some? && slot.value < |s.procs| && slot != Some(i)
    requires r.procs[i].phase.Ready? && !r.procs[slot.value].phase.Ready?
    ensures Patience(r, i) <= Patience(s, i) - 1
  {
    assert Shape(s) && Shape(r) && 0 <= r.procs[i].priority;
    hide *;
    SlotOfStep(s, r, slot);
    SkipsNatural(s, i);
    LevelOfWaiting(s, r, slot, i);
    if VerdictOf(s, r.next).Boosts? {
      PatienceOfNewcomer(r, slot, i);
    } else {
      SkipsOverTick(s, r, slot, i);
    }
    LowerPatience(s, r, i);
  }

  /** What the step does to timer and level while i waits below level 0. */
  lemma LevelOfWaiting(s: Sim, r: Sim, slot: Slot, i: nat)
    requires Shape(s) && Shape(r) && s.policy.MLFQ? && r.policy == s.policy && |r.procs| == |s.procs|
    requires MlfqEffect(s, r, slot) && LevelsOk(s) && slot.Some?
    requires i < s.next && s.procs[i].phase.Ready? && s.procs[i].priority > 0 && s.running != Some(i)
    ensures VerdictOf(s, r.next).Boosts? ==> r.procs[i].priority == 0
    ensures !VerdictOf(s, r.next).Boosts? ==>
      && r.procs[i].priority == s.procs[i].priority
      && r.hooks.timer == s.hooks.timer + if Occupied(s) then 1 else 0
    ensures s.hooks.timer < s.policy.period
  {
    assert (r.procs[i].priority, r.procs[i].used) == LevelAfter(s, r.next, i);
    TopOnlyGrows(s, r.next);
    hide QueuesAfterTick, FirstLevel;
  }

  lemma ReadyIsNotRunning(s: Sim, i: nat)
    requires Inv(s) && i < |s.procs| && s.procs[i].phase.Ready?
    ensures s.running != Some(i)
  {
  }

  lemma SlotOfStep(s: Sim, r: Sim, slot: Slot)
    requires Inv(s) && s.policy.MLFQ? && r.policy == s.policy && |r.procs| == |s.procs| && Shape(r)
    requires MlfqEffect(s, r, slot) && slot.Some?
    ensures slot.value < |s.procs| && r.running == if s.procs[slot.value].burst == 0 then None else slot
  {
    hide HooksHold, QueuesAfterTick, FirstLevel;
  }

  lemma SkipsNatural(s: Sim, i: nat)
    requires Shape(s)
    ensures 0 <= Skips(s, i) <= |s.procs| + 1
    ensures i < |s.procs| ==> Skips(s, i) <= |s.procs|
  {
    var v := CountUnfinished(s, i);
    SumBounds(v);
    var ones := seq(|s.procs|, p requires 0 <= p => if p == i then 0 else 1);
    SumMonotone(v, ones);
    IndicatorSize(|s.procs|, i);
  }

  lemma {:induction false} IndicatorSize(n: nat, i: nat)
    ensures Sum(seq(n, p requires 0 <= p => if p == i then 0 else 1)) == if i < n then n - 1 else n
  {
    if n > 0 {
      var v := seq(n, p requires 0 <= p => if p == i then 0 else 1);
      assert v[..n - 1] == seq(n - 1, p requires 0 <= p => if p == i then 0 else 1);
      IndicatorSize(n - 1, i);
    }
  }

  lemma PatienceOverTick(s: Sim, r: Sim, slot: Slot, i: nat)
    requires Inv(s) && Inv(r) && s.policy.MLFQ? && r.policy == s.policy && |r.procs| == |s.procs|
    requires MlfqEffect(s, r, slot) && Ticked(s, r, slot) && LevelsOk(s) && LevelsOk(r)
    requires i < |s.procs| && s.procs[i].phase.Ready? && slot != Some(i)
    ensures r.procs[i].phase.Ready? && Patience(r, i) <= Patience(s, i) - 1
  {
    StillReady(s, r, slot, i);
    SlotIsOccupied(s, r, slot, i);
    NewcomersWereAway(s, r, i);
    ReadyIsNotRunning(s, i);
    if s.procs[i].priority > 0 {
      LowPatience(s, r, slot, i);
    } else {
      StructureOf(s);
      assert (r.procs[i].priority, r.procs[i].used) == LevelAfter(s, r.next, i);
      hide Inv, Ticked;
      TopPatience(s, r, slot, i);
    }
    hide Inv, Ticked, MlfqEffect, LevelsOk, Patience;
  }

  lemma NewcomersWereAway(s: Sim, r: Sim, i: nat)
    requires Inv(s) && i < |s.procs| && s.procs[i].phase.Ready?
    ensures i < s.next
  {
    hide HooksHold;
  }

  lemma PatienceNatural(s: Sim, i: nat)
    requires Shape(s) && s.policy.MLFQ? && i < |s.procs| && LevelsOk(s)
    ensures 0 <= Patience(s, i)
  {
    SkipsNatural(s, i);
    NaturalProduct(IndexOf(s.hooks.queues[0], i), s.policy.quantums[0]);
    NaturalProduct(|s.procs| - 1, s.policy.quantums[0]);
    hide Skips, IndexOf;
  }

  /** The bound in terms of the configuration and the number of processes n. */
  function StarvationBound(policy: Policy, n: nat): int
    requires policy.MLFQ? && 1 <= |policy.quantums|
  {
    policy.period + n + (n - 1) * policy.quantums[0]
  }

  lemma PatienceBound(s: Sim, i: nat)
    requires Inv(s) && s.policy.MLFQ? && LevelsOk(s) && i < |s.procs| && s.procs[i].phase.Ready?
    ensures 0 <= Patience(s, i) <= StarvationBound(s.policy, |s.procs|)
  {
    PatienceNatural(s, i);
    if s.procs[i].priority > 0 {
      SkipsNatural(s, i);
      hide Inv, Skips;
    } else {
      StructureOf(s);
      TopPatienceBound(s, i);
      hide Inv, LevelsOk;
    }
  }

  lemma TopPatienceBound(s: Sim, i: nat)
    requires Inv(s) && s.policy.MLFQ? && LevelsOk(s) && i < |s.procs| && s.procs[i].phase.Ready?
    requires s.procs[i].priority == 0 && i in s.hooks.queues[0] && Distinct(s.hooks.queues[0])
    requires forall j: nat :: j in s.hooks.queues[0] ==> j < |s.procs| && s.procs[j].phase.Ready?
    ensures TopSlack(s) + IndexOf(s.hooks.queues[0], i) * s.policy.quantums[0] <= (|s.procs| - 1) * s.policy.quantums[0]
  {
    var queue, q := s.hooks.queues[0], s.policy.quantums[0];
    if s.running.Some? {
      ReadyIsNotRunning(s, i);
      var j := s.running.value;
      assert s.procs[j].phase.Running? by { assert ProcOk(s.procs[j], j, s.next, s.running); }
      assert j !in queue;
      DistinctConcat(queue, [j]);
      DistinctFits(queue + [j], |s.procs|);
      OneSliceLess(IndexOf(queue, i), |s.procs| - 1, q);
    } else {
      DistinctFits(queue, |s.procs|);
      OneSliceLess(IndexOf(queue, i), |s.procs|, q);
      assert |s.procs| * q - q == (|s.procs| - 1) * q;
    }
    hide Inv;
  }

  lemma PatienceIteration(policy: Policy, procs: seq<Record>, i: nat, k: nat)
    requires ValidPolicy(policy) && policy.MLFQ? && Workload(procs) && i < |procs|
    requires Run(policy, procs, k).procs[i].phase.Ready?
    ensures var s, r := Run(policy, procs, k), Run(policy, procs, k + 1);
      && |r.cpu| == k + 1
      && (r.cpu[k] != Some(i) ==> r.procs[i].phase.Ready? && Patience(r, i) <= Patience(s, i) - 1)
  {
    var s, r := Run(policy, procs, k), Run(policy, procs, k + 1);
    assert |s.procs| == |procs| && s.policy == policy;
    hide *;
    RunHolds(policy, procs, k);
    RunHolds(policy, procs, k + 1);
    LevelsHold(policy, procs, k);
    LevelsHold(policy, procs, k + 1);
    RunStep(policy, procs, k);
    ReadyGoesOn(s, i);
    ClockWhileRunning(policy, procs, k);
    StepKeeps(s);
    MlfqStep(s);
    CpuIsClock(s);
    CpuOfTick(s, r, LastSlot(r));
    if LastSlot(r) != Some(i) { PatienceOverTick(s, r, LastSlot(r), i); }
  }

  lemma CpuOfTick(s: Sim, r: Sim, slot: Slot)
    requires Ticked(s, r, slot)
    ensures |r.cpu| == |s.cpu| + 1 && r.cpu[|s.cpu|] == slot && LastSlot(r) == slot && |r.procs| == |s.procs|
  {
  }

  /** A run does not end while somebody is READY. */
  lemma ReadyGoesOn(s: Sim, i: nat)
    requires Inv(s) && i < |s.procs| && s.procs[i].phase.Ready?
    ensures !Done(s) && Complete(s).completed != |s.procs|
  {
    DoneMeansAllFinished(s);
    CompleteKeeps(s);
    DoneMeansAllFinished(Complete(s));
    assert ProcOk(s.procs[i], i, s.next, s.running);
    hide HooksHold;
  }

  lemma {:induction false} DispatchedWithinPatience(policy: Policy, procs: seq<Record>, i: nat, k: nat) returns (t: nat)
    requires ValidPolicy(policy) && policy.MLFQ? && Workload(procs) && i < |procs|
    requires Run(policy, procs, k).procs[i].phase.Ready?
    ensures k <= t <= k + Patience(Run(policy, procs, k), i) && GivenTick(policy, procs, i, t)
    decreases Patience(Run(policy, procs, k), i)
  {
    var r := Run(policy, procs, k + 1);
    assert |r.procs| == |procs| && r.policy == policy && Shape(r) && Shape(Run(policy, procs, k));
    PatienceIteration(policy, procs, i, k);
    if r.cpu[k] == Some(i) {
      t := k;
      LevelsHold(policy, procs, k);
      PatienceNatural(Run(policy, procs, k), i);
      hide Run, Patience, LevelsOk;
    } else {
      hide *;
      LevelsHold(policy, procs, k + 1);
      PatienceNatural(r, i);
      t := DispatchedWithinPatience(policy, procs, i, k + 1);
    }
  }

  /** MLFQ starves nobody: a READY process is given the CPU within the boost period, one step for every
      process, and one time slice of the top level for every other process. */
  lemma NoStarvation(policy: Policy, procs: seq<Record>, i: nat, k: nat)
    requires ValidPolicy(policy) && policy.MLFQ? && Workload(procs) && i < |procs|
    requires Run(policy, procs, k).procs[i].phase.Ready?
    ensures exists t: nat :: k <= t <= k + StarvationBound(policy, |procs|) && GivenTick(policy, procs, i, t)
  {
    var s := Run(policy, procs, k);
    assert |s.procs| == |procs| && s.policy == policy && 1 <= |policy.quantums|;
    hide *;
    RunHolds(policy, procs, k);
    LevelsHold(policy, procs, k);
    PatienceBound(s, i);
    var t := DispatchedWithinPatience(policy, procs, i, k);
  }

  // ---------- response times ----------

  /** Nobody leaves level 0 before having run. */
  ghost predicate FreshAtTop(s: Sim) {
    forall i: nat :: i < |s.procs| && s.procs[i].start == -1 ==> s.procs[i].priority == 0
  }

  lemma FreshOverTick(s: Sim, r: Sim, slot: Slot)
    requires Inv(s) && s.policy.MLFQ? && Shape(r) && r.policy == s.policy && |r.procs| == |s.procs|
    requires MlfqEffect(s, r, slot) && Ticked(s, r, slot) && FreshAtTop(s)
    ensures FreshAtTop(r)
  {
    forall i: nat | i < |r.procs| && r.procs[i].start == -1 ensures r.procs[i].priority == 0 {
      StartOverStep(s, r, slot, i);
      assert s.procs[i].start == -1;
      assert ProcOk(s.procs[i], i, s.next, s.running);
      assert (r.procs[i].priority, r.procs[i].used) == LevelAfter(s, r.next, i);
      hide Inv, Ticked, MlfqEffect, VerdictOf;
    }
  }

  lemma FreshAtEnd(s: Sim, r: Sim)
    requires Inv(s) && Ended(s, r) && FreshAtTop(s)
    ensures FreshAtTop(r)
  {
    CompleteKeeps(s);
    hide HooksHold, Shape, Complete;
  }

  lemma FreshAtStart(policy: Policy, procs: seq<Record>)
    requires ValidPolicy(policy) && Workload(procs)
    ensures FreshAtTop(Initial(policy, procs))
  {
  }

  lemma FreshOverIteration(s: Sim)
    requires Inv(s) && s.policy.MLFQ? && !Done(s) && FreshAtTop(s)
    ensures FreshAtTop(Step(s))
  {
    assert Shape(s);
    hide *;
    StepKeeps(s);
    if Complete(s).completed == |s.procs| {
      FreshAtEnd(s, Step(s));
    } else {
      MlfqStep(s);
      FreshOverTick(s, Step(s), LastSlot(Step(s)));
    }
  }

  lemma {:induction false} FreshStayAtTop(policy: Policy, procs: seq<Record>, k: nat)
    requires ValidPolicy(policy) && policy.MLFQ? && Workload(procs)
    ensures FreshAtTop(Run(policy, procs, k))
  {
    hide *;
    if k == 0 {
      RunStep(policy, procs, 0);
      FreshAtStart(policy, procs);
    } else {
      FreshStayAtTop(policy, procs, k - 1);
      RunHolds(policy, procs, k - 1);
      RunStep(policy, procs, k - 1);
      if !Done(Run(policy, procs, k - 1)) { FreshOverIteration(Run(policy, procs, k - 1)); }
    }
  }

  /** One top time slice for each of the other processes. */
  function OthersTopSlices(s: Sim): int
    requires Shape(s) && s.policy.MLFQ?
  {
    (|s.procs| - 1) * s.policy.quantums[0]
  }

  /** Whoever has run has run in time, and whoever has not still can. */
  ghost predicate Prompt(s: Sim, i: nat)
    requires Shape(s) && s.policy.MLFQ? && i < |s.procs|
  {
    && (s.procs[i].start != -1 ==> s.procs[i].response <= OthersTopSlices(s))
    && (s.procs[i].start == -1 && s.procs[i].phase.Ready? ==>
          s.now - s.procs[i].arrival + Patience(s, i) <= OthersTopSlices(s))
  }

  ghost predicate AllPrompt(s: Sim)
    requires Shape(s) && s.policy.MLFQ?
  {
    forall i: nat :: i < |s.procs| ==> Prompt(s, i)
  }

  lemma PromptOverTick(s: Sim, r: Sim, slot: Slot, i: nat)
    requires Inv(s) && Inv(r) && s.policy.MLFQ? && r.policy == s.policy && |r.procs| == |s.procs|
    requires MlfqEffect(s, r, slot) && Ticked(s, r, slot) && LevelsOk(s) && LevelsOk(r) && FreshAtTop(r)
    requires i < |s.procs| && Prompt(s, i)
    ensures Prompt(r, i)
  {
    hide Inv, Ticked, MlfqEffect, LevelsOk, Patience, Shape, FreshAtTop, OthersTopSlices;
    OthersTopSlicesKept(s, r);
    StartOverStep(s, r, slot, i);
    PatienceNatural(s, i);
    if r.procs[i].start == -1 && r.procs[i].phase.Ready? {
      FreshPriority(r, i);
      if s.procs[i].phase.Ready? {
        PatienceOverTick(s, r, slot, i);
      } else {
        SlotIsOccupied(s, r, slot, i);
        NewcomerInTime(r, slot, i);
      }
    }
  }

  lemma OthersTopSlicesKept(s: Sim, r: Sim)
    requires Inv(s) && Inv(r) && s.policy.MLFQ? && r.policy == s.policy && |r.procs| == |s.procs|
    ensures Shape(s) && Shape(r) && OthersTopSlices(r) == OthersTopSlices(s)
    ensures s.procs != [] ==> 0 <= OthersTopSlices(s)
  {
    if s.procs != [] { NaturalProduct(|s.procs| - 1, s.policy.quantums[0]); }
    hide HooksHold;
  }

  lemma FreshPriority(r: Sim, i: nat)
    requires FreshAtTop(r) && i < |r.procs| && r.procs[i].start == -1
    ensures r.procs[i].priority == 0
  {
  }

  lemma NewcomerInTime(r: Sim, slot: Slot, i: nat)
    requires Inv(r) && r.policy.MLFQ? && LevelsOk(r)
    requires i < |r.procs| && r.procs[i].phase.Ready? && r.procs[i].priority == 0
    requires slot.Some? && slot.value < |r.procs| && !r.procs[slot.value].phase.Ready?
    ensures Patience(r, i) <= OthersTopSlices(r) - 1
  {
    hide Patience, Inv, LevelsOk;
    PatienceOfNewcomer(r, slot, i);
  }

  lemma PromptAtEnd(s: Sim, r: Sim)
    requires Inv(s) && Inv(r) && s.policy.MLFQ? && r.policy == s.policy && AllPrompt(s) && Ended(s, r)
    ensures AllPrompt(r)
  {
    CompleteKeeps(s);
    DoneMeansAllFinished(r);
    assert Shape(s) && Shape(r) && |r.procs| == |s.procs| && OthersTopSlices(r) == OthersTopSlices(s);
    hide HooksHold, Patience, Shape, Complete, OthersTopSlices;
    forall i: nat | i < |r.procs| ensures Prompt(r, i) {
      assert Prompt(s, i) && r.procs[i].phase.Finished? && r.procs[i] == Completed(s.procs[i], s.now);
      assert ProcOk(s.procs[i], i, s.next, s.running);
    }
  }

  lemma PromptAtStart(policy: Policy, procs: seq<Record>)
    requires ValidPolicy(policy) && policy.MLFQ? && Workload(procs)
    ensures AllPrompt(Initial(policy, procs))
  {
    hide Patience;
  }

  lemma PromptOverIteration(s: Sim)
    requires Inv(s) && s.policy.MLFQ? && LevelsOk(s) && !Done(s) && FreshAtTop(s) && AllPrompt(s)
    ensures AllPrompt(Step(s))
  {
    var r := Step(s);
    assert Shape(s) && Shape(r) && r.policy == s.policy && |r.procs| == |s.procs|;
    assert forall i: nat :: i < |s.procs| ==> Prompt(s, i);
    hide *;
    StepKeeps(s);
    if Complete(s).completed == |s.procs| {
      PromptAtEnd(s, r);
    } else {
      MlfqStep(s);
      LevelsOverTick(s, r, LastSlot(r));
      FreshOverTick(s, r, LastSlot(r));
      forall i: nat | i < |r.procs| ensures Prompt(r, i) {
        PromptOverTick(s, r, LastSlot(r), i);
      }
      NowAllPrompt(r);
    }
  }

  lemma NowAllPrompt(r: Sim)
    requires Shape(r) && r.policy.MLFQ? && forall i: nat :: i < |r.procs| ==> Prompt(r, i)
    ensures AllPrompt(r)
  {
  }

  lemma {:induction false} RunIsPrompt(policy: Policy, procs: seq<Record>, k: nat)
    requires ValidPolicy(policy) && policy.MLFQ? && Workload(procs)
    ensures AllPrompt(Run(policy, procs, k))
  {
    hide *;
    if k == 0 {
      RunStep(policy, procs, 0);
      PromptAtStart(policy, procs);
    } else {
      RunIsPrompt(policy, procs, k - 1);
      RunHolds(policy, procs, k - 1);
      LevelsHold(policy, procs, k - 1);
      FreshStayAtTop(policy, procs, k - 1);
      RunStep(policy, procs, k - 1);
      if !Done(Run(policy, procs, k - 1)) { PromptOverIteration(Run(policy, procs, k - 1)); }
    }
  }

  /** MLFQ bounds every response time by one top time slice for each other process, whatever the boost
      period and the lower levels are. */
  lemma ResponseBound(policy: Policy, procs: seq<Record>, i: nat)
    requires ValidPolicy(policy) && policy.MLFQ? && Workload(procs) && i < |procs|
    ensures 0 <= Final(policy, procs).procs[i].response <= (|procs| - 1) * policy.quantums[0]
  {
    RunIsPrompt(policy, procs, RunLength(procs));
    MetricsCountTicks(policy, procs, i);
    FinalRun(policy, procs);
    hide Run, Final, Patience, Shape;
    assert Final(policy, procs).procs[i].start != -1;
    assert Prompt(Final(policy, procs), i);
  }
}
