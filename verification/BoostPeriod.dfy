/** How far the boost period bounds the time a process waits: for up to two processes it does, under every
    configuration, and for more it does not. */
module BoostPeriod {
  import opened Basics
  import opened Processes
  import opened Model
  import opened Engine
  import opened Runs
  import opened Accounting
  import opened RoundRobin
  import opened Mlfq

  /** Nobody waits for more than `bound` ticks on end: whoever is READY after a tick that went to
      somebody else is given one of the next ones, the `bound`-th at the latest. */
  ghost predicate WaitsAtMost(policy: Policy, procs: seq<Record>, bound: int)
    requires ValidPolicy(policy) && Workload(procs)
  {
    forall i: nat, k: nat :: i < |procs| && Run(policy, procs, k).procs[i].phase.Ready? ==>
      exists t: nat :: k <= t < k + bound && GivenTick(policy, procs, i, t)
  }

  /** The documented promise, for all configurations with this boost period and all workloads of n processes. */
  ghost predicate PeriodBoundsWaits(period: int, n: nat) {
    forall policy, procs ::
      ValidPolicy(policy) && policy.MLFQ? && policy.period == period && Workload(procs) && |procs| == n ==>
        WaitsAtMost(policy, procs, period)
  }

  // ---------- up to two processes ----------

  /** Everybody but i has arrived, and does not wait. */
  ghost predicate OnlyWaiter(s: Sim, i: nat) {
    forall j: nat :: j < |s.procs| && j != i ==> !s.procs[j].phase.NotArrived? && !s.procs[j].phase.Ready?
  }

  lemma OnlyWaiterAfterTick(s: Sim, r: Sim, slot: Slot, i: nat)
    requires Inv(s) && Inv(r) && Ticked(s, r, slot) && |r.procs| == |s.procs| <= 2
    requires i < |r.procs| && r.procs[i].phase.Ready?
    ensures OnlyWaiter(r, i)
  {
    SlotIsOccupied(s, r, slot, i);
    assert ProcOk(r.procs[slot.value], slot.value, r.next, r.running);
    assert r.procs[slot.value].arrival < r.now;
    hide HooksHold, Shape;
  }

  lemma NobodyReadyAtStart(policy: Policy, procs: seq<Record>, i: nat)
    requires ValidPolicy(policy) && Workload(procs) && i < |procs|
    ensures !Initial(policy, procs).procs[i].phase.Ready?
  {
  }

  lemma NobodyReadyWhenDone(s: Sim, i: nat)
    requires Inv(s) && i < |s.procs|
    ensures Done(s) ==> !s.procs[i].phase.Ready?
  {
    DoneMeansAllFinished(s);
    hide Inv;
  }

  lemma NobodyReadyAtEnd(s: Sim, r: Sim, i: nat)
    requires Inv(r) && Ended(s, r) && i < |r.procs|
    ensures !r.procs[i].phase.Ready?
  {
    DoneMeansAllFinished(r);
    hide Inv;
  }

  lemma OnlyWaiterAfterStep(s: Sim, i: nat)
    requires Inv(s) && !Done(s) && |s.procs| <= 2
    requires i < |Step(s).procs| && Step(s).procs[i].phase.Ready?
    ensures OnlyWaiter(Step(s), i)
  {
    assert |Step(s).procs| == |s.procs| by { assert Shape(s); }
    hide *;
    StepKeeps(s);
    if Complete(s).completed == |s.procs| {
      NobodyReadyAtEnd(s, Step(s), i);
    } else {
      OnlyWaiterAfterTick(s, Step(s), LastSlot(Step(s)), i);
    }
  }

  /** Of two processes only one can wait. */
  lemma OneWaitsForTheOther(policy: Policy, procs: seq<Record>, i: nat, k: nat)
    requires ValidPolicy(policy) && Workload(procs) && |procs| <= 2 && i < |procs|
    requires Run(policy, procs, k).procs[i].phase.Ready?
    ensures OnlyWaiter(Run(policy, procs, k), i)
  {
    assert |Run(policy, procs, k).procs| == |procs|;
    hide *;
    RunStep(policy, procs, 0);
    if k == 0 {
      NobodyReadyAtStart(policy, procs, i);
    } else {
      RunHolds(policy, procs, k - 1);
      RunStep(policy, procs, k - 1);
      NobodyReadyWhenDone(Run(policy, procs, k - 1), i);
      OnlyWaiterAfterStep(Run(policy, procs, k - 1), i);
    }
  }

  /** Ticks the other process can still get before the boost. */
  function UntilBoost(s: Sim): int
    requires Shape(s) && s.policy.MLFQ?
  {
    if Occupied(s) then s.policy.period - s.hooks.timer - 1 else 0
  }

  lemma ReadyNeedsTick(s: Sim, i: nat)
    requires Inv(s) && i < |s.procs| && s.procs[i].phase.Ready?
    ensures 0 < Left(s.procs[i]) && s.procs[i].arrival <= s.now && i < s.next
  {
    assert ProcOk(s.procs[i], i, s.next, s.running);
    hide HooksHold, Shape;
  }

  /** Nobody but the waiting process and the running one needs the tick. */
  lemma OtherIsRunning(s: Sim, r: Sim, slot: Slot, i: nat)
    requires Inv(s) && Ticked(s, r, slot) && OnlyWaiter(s, i) && i < |s.procs| && s.procs[i].phase.Ready? && slot != Some(i)
    ensures Occupied(s)
  {
    ReadyNeedsTick(s, i);
    var j := slot.value;
    assert ProcOk(s.procs[j], j, s.next, s.running);
    hide HooksHold, Shape;
  }

  lemma NobodyElseComes(s: Sim, r: Sim, i: nat)
    requires Inv(s) && OnlyWaiter(s, i) && i < |s.procs| && s.procs[i].phase.Ready?
    requires Shape(r) && |r.procs| == |s.procs| && s.next <= r.next
    ensures r.next == s.next
  {
    var j := if s.next < |s.procs| then s.next else i;
    assert ProcOk(s.procs[j], j, s.next, s.running);
    hide HooksHold;
  }

  /** A boost puts the only process that waits at the head of level 0. */
  lemma BoostServesTheWaiter(s: Sim, i: nat)
    requires Inv(s) && s.policy.MLFQ? && LevelsOk(s) && OnlyWaiter(s, i) && i < |s.procs| && s.procs[i].phase.Ready?
    requires VerdictOf(s, s.next).Boosts?
    ensures var queues := QueuesAfterTick(s, s.next);
      FirstLevel(queues, 0) == 0 && queues[0] != [] && queues[0][0] == i
  {
    StructureOf(s);
    assert s.hooks.queues[0] + Range(s.next, s.next) == s.hooks.queues[0];
    assert Admitted(s, s.next) == s.hooks.queues;
    FlattenMembers(s.hooks.queues);
    assert i in s.hooks.queues[s.procs[i].priority];
    var flat := Flatten(s.hooks.queues);
    assert flat[0] in flat;
    var l :| 0 <= l < |s.hooks.queues| && flat[0] in s.hooks.queues[l];
    assert s.procs[flat[0]].phase.Ready?;
    assert QueuesAfterTick(s, s.next)[0] == flat + [s.running.value];
    hide Inv, LevelsOk, Flatten;
  }

  lemma UntilBoostOverTick(s: Sim, r: Sim, slot: Slot, i: nat)
    requires Inv(s) && s.policy.MLFQ? && r.policy == s.policy && |r.procs| == |s.procs| && Shape(r)
    requires MlfqEffect(s, r, slot) && Ticked(s, r, slot) && LevelsOk(s) && OnlyWaiter(s, i)
    requires i < |s.procs| && s.procs[i].phase.Ready? && slot != Some(i)
    ensures UntilBoost(r) <= UntilBoost(s) - 1
  {
    OtherIsRunning(s, r, slot, i);
    NobodyElseComes(s, r, i);
    if VerdictOf(s, s.next).Boosts? {
      BoostServesTheWaiter(s, i);
      hide Inv, LevelsOk, QueuesAfterTick, Ticked;
      assert false;
    }
    hide Inv, Ticked, QueuesAfterTick, FirstLevel, LevelAfter;
  }

  lemma UntilBoostIteration(policy: Policy, procs: seq<Record>, i: nat, k: nat)
    requires ValidPolicy(policy) && policy.MLFQ? && Workload(procs) && |procs| <= 2 && i < |procs|
    requires Run(policy, procs, k).procs[i].phase.Ready?
    ensures var s, r := Run(policy, procs, k), Run(policy, procs, k + 1);
      && |r.cpu| == k + 1
      && (r.cpu[k] != Some(i) ==> r.procs[i].phase.Ready? && UntilBoost(r) <= UntilBoost(s) - 1)
  {
    var s, r := Run(policy, procs, k), Run(policy, procs, k + 1);
    assert |s.procs| == |procs| && s.policy == policy && Shape(r) && r.policy == policy;
    hide *;
    OneWaitsForTheOther(policy, procs, i, k);
    RunHolds(policy, procs, k);
    LevelsHold(policy, procs, k);
    RunStep(policy, procs, k);
    ReadyGoesOn(s, i);
    ClockWhileRunning(policy, procs, k);
    StepKeeps(s);
    MlfqStep(s);
    CpuIsClock(s);
    CpuOfTick(s, r, LastSlot(r));
    if LastSlot(r) != Some(i) {
      UntilBoostOverTick(s, r, LastSlot(r), i);
      StillReady(s, r, LastSlot(r), i);
    }
  }

  lemma UntilBoostBounds(s: Sim)
    requires Shape(s) && s.policy.MLFQ? && LevelsOk(s)
    ensures 0 <= UntilBoost(s) <= s.policy.period - 1
  {
  }

  lemma {:induction false} DispatchedByBoost(policy: Policy, procs: seq<Record>, i: nat, k: nat) returns (t: nat)
    requires ValidPolicy(policy) && policy.MLFQ? && Workload(procs) && |procs| <= 2 && i < |procs|
    requires Run(policy, procs, k).procs[i].phase.Ready?
    ensures k <= t <= k + UntilBoost(Run(policy, procs, k)) && GivenTick(policy, procs, i, t)
    decreases UntilBoost(Run(policy, procs, k))
  {
    var r := Run(policy, procs, k + 1);
    assert |r.procs| == |procs| && r.policy == policy && Shape(r) && Shape(Run(policy, procs, k));
    UntilBoostIteration(policy, procs, i, k);
    LevelsHold(policy, procs, k);
    UntilBoostBounds(Run(policy, procs, k));
    if r.cpu[k] == Some(i) {
      t := k;
      hide Run, UntilBoost, LevelsOk;
    } else {
      hide *;
      LevelsHold(policy, procs, k + 1);
      UntilBoostBounds(r);
      t := DispatchedByBoost(policy, procs, i, k + 1);
    }
  }

  /** With up to two processes the boost period bounds every wait, whatever the levels, quantums,
      allotments and workload are. */
  lemma TwoWaitOnePeriod(policy: Policy, procs: seq<Record>)
    requires ValidPolicy(policy) && policy.MLFQ? && Workload(procs) && |procs| <= 2
    ensures WaitsAtMost(policy, procs, policy.period)
  {
    forall i: nat, k: nat | i < |procs| && Run(policy, procs, k).procs[i].phase.Ready?
      ensures exists t: nat :: k <= t < k + policy.period && GivenTick(policy, procs, i, t)
    {
      LevelsHold(policy, procs, k);
      UntilBoostBounds(Run(policy, procs, k));
      var t := DispatchedByBoost(policy, procs, i, k);
      hide Run, UntilBoost, LevelsOk, GivenTick;
    }
    hide Run, GivenTick;
  }

  // ---------- more than two processes ----------

  lemma {:induction false} SomebodyStartsLate(waits: seq<int>, bound: int) returns (i: nat)
    requires Distinct(waits) && forall j :: 0 <= j < |waits| ==> 0 <= waits[j]
    requires 0 <= bound < |waits|
    ensures i < |waits| && bound <= waits[i]
  {
    var small: seq<nat> := waits;
    if forall j :: 0 <= j < |waits| ==> waits[j] < bound {
      DistinctFits(small, bound);
      assert false;
    }
    i :| i < |waits| && bound <= waits[i];
  }

  function Responses(s: Sim): (v: seq<int>)
    ensures |v| == |s.procs|
  {
    seq(|s.procs|, j requires 0 <= j < |s.procs| => s.procs[j].response)
  }

  lemma ResponseDatesFirstTick(policy: Policy, procs: seq<Record>, j: nat)
    requires ValidPolicy(policy) && Workload(procs) && j < |procs| && ArriveTogether(procs)
    ensures var f := Final(policy, procs);
      var t := procs[0].arrival + f.procs[j].response;
      0 <= f.procs[j].response && 0 <= t < |f.cpu| && f.cpu[t] == Some(j)
  {
    assert procs[j].arrival == procs[0].arrival && 0 <= procs[j].arrival;
    hide Final, Workload, ArriveTogether, ReadyTicks, Label, Count;
    MetricsCountTicks(policy, procs, j);
  }

  /** Whatever the policy: of n processes that arrive together, one first runs n - 1 ticks or more later. */
  lemma SomebodyWaits(policy: Policy, procs: seq<Record>) returns (i: nat)
    requires ValidPolicy(policy) && Workload(procs) && 1 <= |procs| && ArriveTogether(procs)
    ensures i < |procs| && Final(policy, procs).procs[i].response >= |procs| - 1
  {
    var f := Final(policy, procs);
    var waits := Responses(f);
    assert |f.procs| == |procs| && forall j :: 0 <= j < |procs| ==> waits[j] == f.procs[j].response;
    hide *;
    forall j: nat | j < |procs|
      ensures 0 <= waits[j] && 0 <= procs[0].arrival + waits[j] < |f.cpu| && f.cpu[procs[0].arrival + waits[j]] == Some(j)
    {
      ResponseDatesFirstTick(policy, procs, j);
    }
    i := SomebodyStartsLate(waits, |procs| - 1);
  }

  /** As soon as more than boost_period + 1 processes arrive together, somebody waits for longer than
      the boost period, under every configuration. */
  lemma BoostPeriodIsNoBound(policy: Policy, procs: seq<Record>) returns (i: nat)
    requires ValidPolicy(policy) && policy.MLFQ? && Workload(procs) && policy.period + 1 < |procs|
    requires ArriveTogether(procs)
    ensures i < |procs| && policy.period < Final(policy, procs).procs[i].response <= Final(policy, procs).procs[i].waiting
  {
    i := SomebodyWaits(policy, procs);
    MetricsCountTicks(policy, procs, i);
    hide Final, Run;
  }

  // ---------- the longest rotation ----------

  /** One level whose time slice is the boost period, and whose allotment no slice uses up. */
  function SlowTurns(period: int): (policy: Policy)
    requires 1 <= period
    ensures ValidPolicy(policy) && policy.MLFQ? && policy.period == period
  {
    MLFQ([period], [period + 1], period)
  }

  /** Everybody arrives at time 0 with more work than one boost period. */
  ghost predicate LongTogether(procs: seq<Record>, period: int) {
    Workload(procs) && 2 <= |procs| && forall i :: 0 <= i < |procs| ==> procs[i].arrival == 0 && period < procs[i].burst
  }

  /** The queue while process r is running in the first rotation. */
  function QueueBehind(r: nat, n: nat): seq<nat>
    requires r < n
  {
    Range(r + 1, n) + Range(0, r)
  }

  /** CPU ticks process i has received when process r has had m ticks of its first slice. */
  function Share(i: nat, r: nat, m: int, period: int): int {
    if i < r then period else if i == r then m else 0
  }

  /** Process r has had m ticks of its first slice, everybody before it a whole slice, and nobody behind it a tick. */
  ghost predicate FirstTurn(procs: seq<Record>, s: Sim, r: nat, m: int, period: int)
    requires 1 <= period
  {
    && s.policy == SlowTurns(period) && Shape(s) && |s.procs| == |procs| && r < |procs| && 1 <= m <= period
    && s.next == |procs| && s.running == Some(r) && LastSlot(s) == Some(r)
    && s.hooks == MlfqHooks([QueueBehind(r, |procs|)], m - 1, period - m + 1) && s.now == r * period + m
    && forall i: nat :: i < |procs| ==>
         && Left(s.procs[i]) == procs[i].burst - Share(i, r, m, period) && s.procs[i].burst == procs[i].burst
         && s.procs[i].used == (if i == r then m - 1 else 0)
         && s.procs[i].start == (if i <= r then i * period else -1)
  }

  lemma WorkGoesOn(s: Sim, i: nat)
    requires Inv(s) && i < |s.procs| && 0 < Left(s.procs[i])
    ensures !Done(s) && Complete(s).completed != |s.procs|
  {
    DoneMeansAllFinished(s);
    CompleteKeeps(s);
    DoneMeansAllFinished(Complete(s));
    assert ProcOk(s.procs[i], i, s.next, s.running);
    hide HooksHold;
  }

  lemma AllArrived(s: Sim, r: Sim, slot: Slot)
    requires Inv(s) && Inv(r) && Ticked(s, r, slot) && s.procs != []
    requires forall i :: 0 <= i < |s.procs| ==> s.procs[i].arrival == 0
    ensures r.next == |s.procs|
  {
    var j := if r.next < |r.procs| then r.next else 0;
    LeftOverTick(s, r, slot, j);
    hide HooksHold, Shape, Ticked;
  }

  lemma LeftOverTick(s: Sim, r: Sim, slot: Slot, i: nat)
    requires Inv(s) && Ticked(s, r, slot) && i < |s.procs|
    ensures Left(r.procs[i]) == Left(s.procs[i]) - if slot == Some(i) then 1 else 0
    ensures r.procs[i].burst == s.procs[i].burst && r.procs[i].arrival == s.procs[i].arrival
    ensures r.procs[i].start == if slot == Some(i) && s.procs[i].start == -1 then s.now else s.procs[i].start
    ensures r.now == s.now + 1 && LastSlot(r) == slot && |r.procs| == |s.procs|
  {
    assert ProcOk(s.procs[i], i, s.next, s.running);
    AdvanceWork(s.procs[i], i, s.next, s.running, s.now, slot == Some(i));
    StartOverAdvance(s.procs[i], i, s.next, s.running, s.now, slot == Some(i));
    hide HooksHold, Shape, Advance;
  }

  /** During a slice the running process keeps the CPU; the boost ends it. */
  lemma VerdictInTurn(procs: seq<Record>, s: Sim, r: nat, m: int, period: int)
    requires LongTogether(procs, period) && 1 <= period && Inv(s) && FirstTurn(procs, s, r, m, period)
    ensures Occupied(s) && s.procs[r].priority == 0
    ensures VerdictOf(s, |procs|) == if m < period then Keeps else Boosts
    ensures QueuesAfterTick(s, |procs|) == [QueueBehind(r, |procs|) + if m < period then [] else [r]]
  {
    assert ProcOk(s.procs[r], r, s.next, s.running);
    assert Left(s.procs[r]) == procs[r].burst - m;
    var q := QueueBehind(r, |procs|);
    assert q + Range(|procs|, |procs|) == q;
    assert Admitted(s, |procs|) == [q];
    assert Flatten([q]) == q + Flatten([]) == q;
    assert q + [] == q;
    hide Inv, QueueBehind;
  }

  lemma QueueMovesUp(r: nat, n: nat)
    requires r + 1 < n
    ensures QueueBehind(r, n) + [r] == [r + 1] + QueueBehind(r + 1, n)
  {
    assert Range(r + 1, n) == [r + 1] + Range(r + 2, n);
    assert Range(0, r) + [r] == Range(0, r + 1);
  }

  /** What the step does to the level and the queue during a slice and at its end. */
  lemma QueueInTurn(procs: seq<Record>, s: Sim, s': Sim, slot: Slot, r: nat, m: int, period: int)
    requires LongTogether(procs, period) && 1 <= period && Inv(s) && FirstTurn(procs, s, r, m, period)
    requires Shape(s') && s'.policy == s.policy && |s'.procs| == |s.procs| && s'.next == |procs| && MlfqEffect(s, s', slot)
    ensures m < period ==> slot == s'.running == Some(r) && s'.hooks == MlfqHooks([QueueBehind(r, |procs|)], m, period - m)
    ensures m == period && r + 1 < |procs| ==>
      slot == s'.running == Some(r + 1) && s'.hooks == MlfqHooks([QueueBehind(r + 1, |procs|)], 0, period)
  {
    VerdictInTurn(procs, s, r, m, period);
    if m < period {
      assert QueueBehind(r, |procs|) + [] == QueueBehind(r, |procs|);
    } else if r + 1 < |procs| {
      QueueMovesUp(r, |procs|);
      var queues := QueuesAfterTick(s, |procs|);
      assert queues[0][1..] == QueueBehind(r + 1, |procs|);
      assert queues[0 := queues[0][1..]] == [QueueBehind(r + 1, |procs|)];
      assert s.procs[r + 1].burst > 0;
    }
    hide Inv, QueueBehind, QueuesAfterTick, VerdictOf, LevelAfter;
  }

  /** The allotment used, one step later. */
  lemma UsedInTurn(procs: seq<Record>, s: Sim, s': Sim, slot: Slot, r: nat, m: int, period: int, i: nat)
    requires LongTogether(procs, period) && 1 <= period && Inv(s) && FirstTurn(procs, s, r, m, period)
    requires Shape(s') && s'.policy == s.policy && |s'.procs| == |s.procs| && s'.next == |procs| && MlfqEffect(s, s', slot)
    requires i < |procs|
    ensures s'.procs[i].used == if m < period && i == r then m else 0
  {
    VerdictInTurn(procs, s, r, m, period);
    assert (s'.procs[i].priority, s'.procs[i].used) == LevelAfter(s, s'.next, i);
    hide Inv, QueueBehind, QueuesAfterTick, VerdictOf;
  }

  /** The position in the rotation one tick later. */
  function NextTurn(r: nat, m: int, period: int): (nat, int) {
    if m < period then (r, m + 1) else (r + 1, 1)
  }

  lemma TickInTurn(procs: seq<Record>, s: Sim, s': Sim, slot: Slot, r: nat, m: int, period: int)
    requires 1 <= period && FirstTurn(procs, s, r, m, period)
    requires Inv(s') && s'.policy == s.policy && |s'.procs| == |s.procs| && MlfqEffect(s, s', slot)
    ensures |procs| == |s.procs| && Shape(s') && s'.next == |procs| && r < |procs| && 1 <= m <= period
    ensures s.now == r * period + m && s.policy == SlowTurns(period)
    ensures forall i: nat :: i < |procs| ==>
      && Left(s.procs[i]) == procs[i].burst - Share(i, r, m, period) && s.procs[i].burst == procs[i].burst
      && s.procs[i].start == if i <= r then i * period else -1
    ensures (r + 1) * period == r * period + period
  {
    hide QueueBehind, SlowTurns, HooksHold, QueuesAfterTick, LevelAfter;
  }

  lemma TurnOverTick(procs: seq<Record>, s: Sim, s': Sim, slot: Slot, r: nat, m: int, period: int)
    requires LongTogether(procs, period) && 1 <= period && Inv(s) && FirstTurn(procs, s, r, m, period)
    requires Inv(s') && s'.policy == s.policy && |s'.procs| == |s.procs|
    requires MlfqEffect(s, s', slot) && Ticked(s, s', slot) && (m == period ==> r + 1 < |procs|)
    ensures var (r', m') := NextTurn(r, m, period);
      FirstTurn(procs, s', r', m', period)
  {
    var (r', m') := NextTurn(r, m, period);
    hide Inv, Ticked, MlfqEffect, LongTogether, Left, QueueBehind, SlowTurns, Shape, LastSlot;
    TickInTurn(procs, s, s', slot, r, m, period);
    QueueInTurn(procs, s, s', slot, r, m, period);
    forall i: nat | i < |procs|
      ensures Left(s'.procs[i]) == procs[i].burst - Share(i, r', m', period) && s'.procs[i].burst == procs[i].burst
      ensures s'.procs[i].used == (if i == r' then m' - 1 else 0)
      ensures s'.procs[i].start == if i <= r' then i * period else -1
    {
      hide FirstTurn;
      LeftOverTick(s, s', slot, i);
      UsedInTurn(procs, s, s', slot, r, m, period, i);
    }
    LeftOverTick(s, s', slot, r);
  }

  lemma QueueAtFirst(procs: seq<Record>, s: Sim, s': Sim, slot: Slot, period: int)
    requires LongTogether(procs, period) && 1 <= period && s == Initial(SlowTurns(period), procs)
    requires Shape(s') && s'.policy == s.policy && |s'.procs| == |s.procs| && s'.next == |procs| && MlfqEffect(s, s', slot)
    ensures slot == s'.running == Some(0) && s'.hooks == MlfqHooks([QueueBehind(0, |procs|)], 0, period)
    ensures forall i: nat :: i < |procs| ==> s'.procs[i].used == 0
  {
    var n := |procs|;
    assert s.hooks.queues == [[]] && [] + Range(0, n) == Range(0, n);
    assert Admitted(s, n) == [Range(0, n)] && VerdictOf(s, n) == Idle;
    assert Range(1, n) + Range(0, 0) == Range(1, n) == Range(0, n)[1..];
    assert [Range(0, n)][0 := Range(0, n)[1..]] == [QueueBehind(0, n)];
    forall i: nat | i < n ensures s'.procs[i].used == 0 {
      assert (s'.procs[i].priority, s'.procs[i].used) == LevelAfter(s, s'.next, i);
    }
    hide QueueBehind;
  }

  lemma TurnsBegin(procs: seq<Record>, s: Sim, s': Sim, slot: Slot, period: int)
    requires LongTogether(procs, period) && 1 <= period && Inv(s) && s == Initial(SlowTurns(period), procs)
    requires Inv(s') && s'.policy == s.policy && |s'.procs| == |s.procs| && MlfqEffect(s, s', slot) && Ticked(s, s', slot)
    ensures FirstTurn(procs, s', 0, 1, period)
  {
    var n := |procs|;
    assert forall i: nat :: i < n ==> Left(s.procs[i]) == s.procs[i].burst == procs[i].burst && s.procs[i].start == -1;
    assert s.policy == SlowTurns(period) && s.now == 0 && |s.procs| == n >= 2 && Shape(s');
    hide Inv, Ticked, MlfqEffect, Left, QueueBehind, SlowTurns, Initial, LastSlot, Shape;
    AllArrived(s, s', slot);
    QueueAtFirst(procs, s, s', slot, period);
    hide LongTogether;
    forall i: nat | i < n
      ensures Left(s'.procs[i]) == procs[i].burst - Share(i, 0, 1, period) && s'.procs[i].burst == procs[i].burst
      ensures s'.procs[i].start == if i == 0 then 0 else -1
    {
      LeftOverTick(s, s', slot, i);
    }
    LeftOverTick(s, s', slot, 0);
  }

  lemma TurnBefore(r: nat, m: int, period: int)
    requires 1 <= period && 1 <= m <= period
    ensures 0 <= r * period && (r == 0 && m == 1 ==> r * period + m == 1)
    ensures r > 0 ==> 0 <= (r - 1) * period && (r - 1) * period + period == r * period
  {
    NaturalProduct(r, period);
    if r > 0 { NaturalProduct(r - 1, period); }
  }

  /** The first rotation: after k ticks, r whole slices and m ticks more, it is the turn of process r. */
  lemma {:induction false} Rotation(procs: seq<Record>, r: nat, m: int, period: int, k: nat)
    requires 1 <= period && LongTogether(procs, period) && r < |procs| && 1 <= m <= period && k == r * period + m
    ensures FirstTurn(procs, Run(SlowTurns(period), procs, k), r, m, period)
    decreases r, m
  {
    assert NextTurn(r, m - 1, period) == (r, m) && (r > 0 && m == 1 ==> NextTurn(r - 1, period, period) == (r, m));
    hide *;
    TurnBefore(r, m, period);
    if r == 0 && m == 1 {
      RotationStarts(procs, period);
    } else {
      var (r0, m0) := if m > 1 then (r, m - 1) else (r - 1, period);
      Rotation(procs, r0, m0, period, k - 1);
      RotationGoesOn(procs, r0, m0, period, k - 1);
    }
  }

  lemma RotationStarts(procs: seq<Record>, period: int)
    requires 1 <= period && LongTogether(procs, period)
    ensures FirstTurn(procs, Run(SlowTurns(period), procs, 1), 0, 1, period)
  {
    var policy := SlowTurns(period);
    var s := Initial(policy, procs);
    assert 0 < |procs| && Workload(procs) && 0 < Left(s.procs[0]) && s.policy == policy && |s.procs| == |procs|;
    hide *;
    RunStep(policy, procs, 0);
    InitialHolds(policy, procs);
    WorkGoesOn(s, 0);
    StepKeeps(s);
    MlfqStep(s);
    CpuOfTick(s, Step(s), LastSlot(Step(s)));
    TurnsBegin(procs, s, Step(s), LastSlot(Step(s)), period);
  }

  lemma RotationGoesOn(procs: seq<Record>, r: nat, m: int, period: int, k: nat)
    requires 1 <= period && LongTogether(procs, period)
    requires FirstTurn(procs, Run(SlowTurns(period), procs, k), r, m, period) && (m == period ==> r + 1 < |procs|)
    ensures var (r', m') := NextTurn(r, m, period);
      FirstTurn(procs, Run(SlowTurns(period), procs, k + 1), r', m', period)
  {
    var policy := SlowTurns(period);
    var s := Run(policy, procs, k);
    assert Workload(procs) && |s.procs| == |procs| && s.policy == policy && r < |procs| && period < procs[r].burst;
    assert 0 < Left(s.procs[r]);
    hide *;
    RunStep(policy, procs, k);
    RunHolds(policy, procs, k);
    WorkGoesOn(s, r);
    StepKeeps(s);
    MlfqStep(s);
    CpuOfTick(s, Step(s), LastSlot(Step(s)));
    TurnOverTick(procs, s, Step(s), LastSlot(Step(s)), r, m, period);
  }

  lemma StartOverIteration(s: Sim, i: nat)
    requires Inv(s) && i < |s.procs| && s.procs[i].start != -1
    ensures (if Done(s) then s else Step(s)).procs[i].start == s.procs[i].start
  {
    if !Done(s) {
      StepKeeps(s);
      if Complete(s).completed == |s.procs| {
        CompleteKeeps(s);
        LastStepEnds(s);
        hide Step, HooksHold, Complete;
      } else {
        LeftOverTick(s, Step(s), LastSlot(Step(s)), i);
        hide Step, Inv, Complete;
      }
    }
  }

  /** A recorded start is never changed. */
  lemma {:induction false} StartStays(policy: Policy, procs: seq<Record>, i: nat, k: nat, l: nat)
    requires ValidPolicy(policy) && Workload(procs) && i < |procs| && k <= l && Run(policy, procs, k).procs[i].start != -1
    ensures Run(policy, procs, l).procs[i].start == Run(policy, procs, k).procs[i].start
    decreases l
  {
    if k < l {
      assert |Run(policy, procs, l - 1).procs| == |procs|;
      hide *;
      StartStays(policy, procs, i, k, l - 1);
      RunHolds(policy, procs, l - 1);
      RunStep(policy, procs, l - 1);
      StartOverIteration(Run(policy, procs, l - 1), i);
    }
  }

  lemma FinalStart(policy: Policy, procs: seq<Record>, i: nat, k: nat)
    requires ValidPolicy(policy) && Workload(procs) && i < |procs| && Run(policy, procs, k).procs[i].start != -1
    ensures Final(policy, procs).procs[i].start == Run(policy, procs, k).procs[i].start
  {
    var m := RunLength(procs);
    var l := k + m;
    hide Run;
    StartStays(policy, procs, i, k, l);
    EveryRunEnds(policy, procs);
    FinalRun(policy, procs);
    StaysDone(policy, procs, m, l);
    hide Final, RunLength;
  }

  /** Each of the processes that arrive together first waits for a whole boost period for everybody before
      it: the bound on MLFQ response times is attained, and no multiple of the boost period bounds
      them for all numbers of processes. */
  lemma LongestRotation(procs: seq<Record>, period: int, i: nat)
    requires 1 <= period && LongTogether(procs, period) && i < |procs|
    ensures Final(SlowTurns(period), procs).procs[i].response == i * period
  {
    var policy := SlowTurns(period);
    assert Workload(procs) && procs[i].arrival == 0;
    NaturalProduct(i, period);
    Rotation(procs, i, 1, period, i * period + 1);
    var s := Run(policy, procs, i * period + 1);
    assert s.procs[i].start == i * period;
    hide Run, FirstTurn, LongTogether;
    FinalStart(policy, procs, i, i * period + 1);
    MetricsCountTicks(policy, procs, i);
    hide *;
  }

  lemma WaitsBehind(procs: seq<Record>, s: Sim, period: int, i: nat)
    requires 1 <= period && LongTogether(procs, period) && Inv(s) && FirstTurn(procs, s, 0, 1, period) && 0 < i < |procs|
    ensures s.procs[i].phase.Ready?
  {
    assert ProcOk(s.procs[i], i, s.next, s.running);
    assert 0 < Left(s.procs[i]);
    hide HooksHold, Shape;
  }

  lemma NotGivenInTurn(policy: Policy, procs: seq<Record>, r: nat, m: int, period: int, t: nat, i: nat)
    requires ValidPolicy(policy) && Workload(procs) && 1 <= period
    requires FirstTurn(procs, Run(policy, procs, t + 1), r, m, period) && i != r
    ensures !GivenTick(policy, procs, i, t)
  {
    hide Run;
  }

  lemma WaitsLonger(policy: Policy, procs: seq<Record>, bound: int, i: nat, k: nat)
    requires ValidPolicy(policy) && Workload(procs) && i < |procs| && Run(policy, procs, k).procs[i].phase.Ready?
    requires forall t: nat :: k <= t < k + bound ==> !GivenTick(policy, procs, i, t)
    ensures !WaitsAtMost(policy, procs, bound)
  {
    hide Run, GivenTick, Workload;
  }

  lemma ThirdNotServed(procs: seq<Record>, period: int, t: nat)
    requires 1 <= t <= period && LongTogether(procs, period) && 3 <= |procs|
    ensures ValidPolicy(SlowTurns(period)) && Workload(procs) && !GivenTick(SlowTurns(period), procs, 2, t)
  {
    assert Workload(procs);
    hide *;
    if t < period {
      Rotation(procs, 0, t + 1, period, t + 1);
      NotGivenInTurn(SlowTurns(period), procs, 0, t + 1, period, t, 2);
    } else {
      Rotation(procs, 1, 1, period, t + 1);
      NotGivenInTurn(SlowTurns(period), procs, 1, 1, period, t, 2);
    }
  }

  lemma ThirdIsReady(procs: seq<Record>, period: int)
    requires 1 <= period && LongTogether(procs, period) && 3 <= |procs|
    ensures ValidPolicy(SlowTurns(period)) && Workload(procs) && Run(SlowTurns(period), procs, 1).procs[2].phase.Ready?
  {
    assert Workload(procs);
    hide *;
    TurnBefore(0, 1, period);
    Rotation(procs, 0, 1, period, 1);
    RunHolds(SlowTurns(period), procs, 1);
    WaitsBehind(procs, Run(SlowTurns(period), procs, 1), period, 2);
  }

  /** With three or more such processes, the third waits for more than the boost period. */
  lemma ThirdWaitsTooLong(procs: seq<Record>, period: int)
    requires 1 <= period && LongTogether(procs, period) && 3 <= |procs|
    ensures ValidPolicy(SlowTurns(period)) && Workload(procs) && !WaitsAtMost(SlowTurns(period), procs, period)
  {
    hide *;
    ThirdIsReady(procs, period);
    forall t: nat | 1 <= t < 1 + period ensures !GivenTick(SlowTurns(period), procs, 2, t) {
      ThirdNotServed(procs, period, t);
    }
    WaitsLonger(SlowTurns(period), procs, period, 2, 1);
  }

  function EqualProcesses(n: nat, period: int): (procs: seq<Record>)
    requires 0 <= period
    ensures |procs| == n
  {
    seq(n, i => NewRecord("P", 0, period + 1))
  }

  lemma EqualProcessesAreLong(n: nat, period: int)
    requires 1 <= period && 2 <= n
    ensures LongTogether(EqualProcesses(n, period), period)
  {
  }

  /** The boost period bounds every wait, under every configuration with that period and for every
      workload of n processes, if and only if n is at most 2. */
  lemma PeriodBoundsWaitsExactlyUpToTwo(period: int, n: nat)
    requires 1 <= period
    ensures PeriodBoundsWaits(period, n) <==> n <= 2
  {
    if n <= 2 {
      forall policy, procs |
        ValidPolicy(policy) && policy.MLFQ? && policy.period == period && Workload(procs) && |procs| == n
        ensures WaitsAtMost(policy, procs, period)
      {
        TwoWaitOnePeriod(policy, procs);
      }
    } else {
      var procs := EqualProcesses(n, period);
      EqualProcessesAreLong(n, period);
      ThirdWaitsTooLong(procs, period);
    }
    hide Workload, ValidPolicy, WaitsAtMost, LongTogether, EqualProcesses;
  }
}
