/** MLFQ, round robin and FCFS never look at burst times: two runs that differ only in bursts are
    indistinguishable until a process whose bursts differ completes. SJF and STCF do look. */
module Blindness {
  import opened Basics
  import opened Processes
  import opened Model
  import opened Engine
  import opened Runs
  import opened Scanning

  predicate Heuristic(policy: Policy) {
    policy.FCFS? || policy.RR? || policy.MLFQ?
  }

  /** Same process up to its burst: everything else, also the CPU time received, is equal. */
  predicate Alike(p: Record, q: Record) {
    && q == p.(burst := q.burst, remaining := p.remaining + q.burst - p.burst)
    && (p.phase.Finished? ==> p == q)
  }

  ghost predicate AllAlike(s: Sim, t: Sim) {
    && |t.procs| == |s.procs| && t == s.(procs := t.procs)
    && forall i :: 0 <= i < |s.procs| ==> Alike(s.procs[i], t.procs[i])
  }

  /** In neither state is a process with different bursts about to complete. */
  ghost predicate NobodyTellsAt(s: Sim, t: Sim, i: Slot) {
    i.Some? && i.value < |s.procs| && i.value < |t.procs| && s.procs[i.value].burst != t.procs[i.value].burst ==>
      0 < s.procs[i.value].remaining && 0 < t.procs[i.value].remaining
  }

  lemma CompleteBlind(s: Sim, t: Sim)
    requires Shape(s) && Shape(t) && AllAlike(s, t) && NobodyTellsAt(s, t, s.running)
    ensures AllAlike(Complete(s), Complete(t))
  {
  }

  lemma ArriveOneBlind(s: Sim, t: Sim)
    requires Shape(s) && Shape(t) && AllAlike(s, t) && Heuristic(s.policy) && s.next < |s.procs|
    requires s.procs[s.next].phase.NotArrived?
    ensures AllAlike(ArriveOne(s), ArriveOne(t))
  {
  }

  lemma {:induction false} ArriveBlind(s: Sim, t: Sim)
    requires Shape(s) && Shape(t) && AllAlike(s, t) && Heuristic(s.policy)
    ensures AllAlike(Arrive(s), Arrive(t))
    decreases |s.procs| - s.next
  {
    if s.next < |s.procs| && s.procs[s.next].arrival <= s.now && s.procs[s.next].phase.NotArrived? {
      ArriveOneBlind(s, t);
      ArriveBlind(ArriveOne(s), ArriveOne(t));
      hide ArriveOne;
    }
  }

  lemma TickBlind(s: Sim, t: Sim)
    requires Shape(s) && Shape(t) && AllAlike(s, t) && Heuristic(s.policy)
    requires s.running.Some? ==>
      && 0 < s.procs[s.running.value].remaining && 0 < t.procs[s.running.value].remaining
      && s.procs[s.running.value].phase.Running?
    requires forall i: nat :: i < |s.procs| && s.procs[i].phase.Finished? ==> !WaitsForBoost(s, i)
    ensures AllAlike(Tick(s), Tick(t))
  {
    if s.running.Some? {
      if s.policy.MLFQ? {
        if s.hooks.timer + 1 >= s.policy.period { BoostBlind(s, t); } else { ChargeBlind(s, t); }
        hide Model.Boost, Model.Charge, AllAlike;
        assert Tick(s) == (if s.hooks.timer + 1 >= s.policy.period then Model.Boost(s) else Model.Charge(s));
        assert Tick(t) == (if t.hooks.timer + 1 >= t.policy.period then Model.Boost(t) else Model.Charge(t));
      } else {
        hide Flatten;
      }
    }
  }

  lemma BoostedBlind(a: seq<Record>, b: seq<Record>, queues: seq<seq<nat>>)
    requires |a| == |b| && |queues| >= 1 && forall i :: 0 <= i < |a| ==> Alike(a[i], b[i])
    requires forall i: nat :: i < |a| && a[i].phase.Finished? ==> i !in queues[0] && i !in Flatten(queues[1..])
    ensures forall i :: 0 <= i < |a| ==> Alike(Boosted(a, queues)[i], Boosted(b, queues)[i])
    ensures forall i :: 0 <= i < |a| ==> Boosted(a, queues)[i].phase == a[i].phase
  {
    hide Flatten;
  }

  lemma BoostBlind(s: Sim, t: Sim)
    requires Shape(s) && Shape(t) && AllAlike(s, t) && s.policy.MLFQ? && s.running.Some?
    requires s.procs[s.running.value].phase.Running?
    requires forall i: nat :: i < |s.procs| && s.procs[i].phase.Finished? ==> !WaitsForBoost(s, i)
    ensures AllAlike(Model.Boost(s), Model.Boost(t)) && t.hooks.timer == s.hooks.timer && t.policy == s.policy
  {
    hide Flatten, Boosted;
    BoostedBlind(s.procs, t.procs, s.hooks.queues);
    hide WaitsForBoost;
  }

  lemma ChargeBlind(s: Sim, t: Sim)
    requires Shape(s) && Shape(t) && AllAlike(s, t) && s.policy.MLFQ? && s.running.Some?
    requires s.procs[s.running.value].phase.Running?
    ensures AllAlike(Model.Charge(s), Model.Charge(t)) && t.hooks.timer == s.hooks.timer && t.policy == s.policy
  {
  }

  /** i stands in one of the queues a boost empties. */
  ghost predicate WaitsForBoost(s: Sim, i: nat) {
    s.hooks.MlfqHooks? && |s.hooks.queues| >= 1 && (i in s.hooks.queues[0] || i in Flatten(s.hooks.queues[1..]))
  }

  lemma {:induction false} ScanBlind(policy: Policy, a: seq<Record>, b: seq<Record>, k: nat)
    requires policy.FCFS? && |a| == |b| && k <= |a|
    requires forall i :: 0 <= i < |a| ==> a[i].phase == b[i].phase && a[i].arrival == b[i].arrival
    ensures Scan(policy, a, k) == Scan(policy, b, k)
  {
    if k > 0 { ScanBlind(policy, a, b, k - 1); }
  }

  lemma NextBlind(s: Sim, t: Sim)
    requires Shape(s) && Shape(t) && AllAlike(s, t) && Heuristic(s.policy)
    ensures var next := NextProcess(s.policy, Candidates(s), s.hooks);
      && NextProcess(t.policy, Candidates(t), t.hooks) == next
      && (next.0.Some? ==> next.0.value < |s.procs|)
  {
    if s.policy.FCFS? { ScanBlind(s.policy, Candidates(s), Candidates(t), |s.procs|); }
  }

  lemma DispatchBlind(s: Sim, t: Sim)
    requires Shape(s) && Shape(t) && AllAlike(s, t) && Heuristic(s.policy)
    ensures AllAlike(Dispatch(s), Dispatch(t))
  {
    NextBlind(s, t);
    hide NextProcess, Shape;
  }

  lemma ExecuteBlind(s: Sim, t: Sim)
    requires Shape(s) && Shape(t) && AllAlike(s, t) && NobodyTellsAt(s, t, s.running)
    requires s.running.Some? ==> s.procs[s.running.value].phase.Running?
    requires forall i :: 0 <= i < |s.procs| ==> 0 <= s.procs[i].remaining && 0 <= t.procs[i].remaining
    ensures AllAlike(Execute(s), Execute(t))
  {
  }

  // ---------- one step ----------

  /** No process whose bursts differ has finished. */
  ghost predicate NoneTold(s: Sim, t: Sim) {
    forall i :: 0 <= i < |s.procs| && i < |t.procs| && s.procs[i].burst != t.procs[i].burst ==>
      !s.procs[i].phase.Finished? && !t.procs[i].phase.Finished?
  }

  lemma FinishedStays(s: Sim, i: nat)
    requires Inv(s) && !Done(s) && i < |s.procs|
    requires s.procs[i].phase.Finished? || (s.running == Some(i) && s.procs[i].remaining == 0)
    ensures Step(s).procs[i].phase.Finished? && Step(s).procs[i].burst == s.procs[i].burst
  {
    StepKeeps(s);
    if Complete(s).completed == |s.procs| {
      hide HooksHold;
    } else {
      FinishedOverTick(s, Step(s), LastSlot(Step(s)), i);
      hide Step, Inv, Complete;
    }
  }

  lemma FinishedOverTick(s: Sim, r: Sim, slot: Slot, i: nat)
    requires Inv(s) && Ticked(s, r, slot) && i < |s.procs|
    requires s.procs[i].phase.Finished? || (s.running == Some(i) && s.procs[i].remaining == 0)
    ensures r.procs[i].phase.Finished? && r.procs[i].burst == s.procs[i].burst
  {
    assert ProcOk(s.procs[i], i, s.next, s.running);
    hide HooksHold, Shape;
  }

  lemma BurstsStay(s: Sim, i: nat)
    requires Inv(s) && !Done(s) && i < |s.procs|
    ensures i < |Step(s).procs| && Step(s).procs[i].burst == s.procs[i].burst
  {
    assert Shape(s);
    if Complete(s).completed == |s.procs| {
      LastStepEnds(s);
      CompleteKeeps(s);
      hide *;
      BurstAtCompletion(s, Complete(s), i);
    } else {
      StepKeeps(s);
      hide *;
      BurstOverTick(s, Step(s), LastSlot(Step(s)), i);
    }
  }

  lemma BurstAtCompletion(s: Sim, c: Sim, i: nat)
    requires Completes(s, c) && i < |s.procs|
    ensures i < |c.procs| && c.procs[i].burst == s.procs[i].burst
  {
    hide HooksHold, MidStep;
  }

  lemma BurstOverTick(s: Sim, r: Sim, slot: Slot, i: nat)
    requires Ticked(s, r, slot) && i < |s.procs|
    ensures i < |r.procs| && r.procs[i].burst == s.procs[i].burst
  {
  }

  lemma StepBlind(s: Sim, t: Sim)
    requires Inv(s) && Inv(t) && AllAlike(s, t) && Heuristic(s.policy) && !Done(s)
    requires NoneTold(Step(s), Step(t))
    ensures AllAlike(Step(s), Step(t))
  {
    if s.running.Some? && s.procs[s.running.value].burst != t.procs[s.running.value].burst {
      BurstsStay(s, s.running.value);
      BurstsStay(t, s.running.value);
      if s.procs[s.running.value].remaining == 0 { FinishedStays(s, s.running.value); }
      if t.procs[s.running.value].remaining == 0 { FinishedStays(t, s.running.value); }
      assert NobodyTellsAt(s, t, s.running) by { RemainingNatural(s); RemainingNatural(t); hide Inv, Step; }
    }
    assert Shape(s) && Shape(t) && t.policy == s.policy;
    CompleteBlind(s, t);
    hide Inv, Complete, NoneTold;
    CompleteKeeps(s);
    CompleteKeeps(t);
    var c1, c2 := Complete(s), Complete(t);
    if c1.completed != |s.procs| {
      StagesBlind(s, t, c1, Arrive(c1), Tick(Arrive(c1)), Dispatch(Tick(Arrive(c1))),
                  c2, Arrive(c2), Tick(Arrive(c2)), Dispatch(Tick(Arrive(c2))));
    }
  }

  lemma RemainingNatural(s: Sim)
    requires Inv(s)
    ensures forall i :: 0 <= i < |s.procs| ==> 0 <= s.procs[i].remaining
  {
  }

  lemma StagesBlind(s: Sim, t: Sim, c1: Sim, a1: Sim, t1: Sim, d1: Sim, c2: Sim, a2: Sim, t2: Sim, d2: Sim)
    requires Inv(s) && Inv(t) && Heuristic(s.policy)
    requires Stages(s, c1, a1, t1, d1) && Stages(t, c2, a2, t2, d2) && AllAlike(c1, c2) && c1.policy == s.policy
    requires NoneTold(Execute(d1), Execute(d2))
    ensures AllAlike(Execute(d1), Execute(d2))
  {
    StagesHold(s, c1, a1, t1, d1);
    StagesHold(t, c2, a2, t2, d2);
    assert Shape(c1) && Shape(c2) && Shape(a1) && Shape(a2) && Shape(t1) && Shape(t2) && Shape(d1) && Shape(d2);
    ArriveBlind(c1, c2);
    TickIsBlindTo(a1, a2);
    hide Complete, Arrive, Tick, Dispatch, HooksHold, Inv;
    DispatchBlind(t1, t2);
    ExecutionTells(d1, d2);
    ExecuteBlind(d1, d2);
  }

  lemma TickIsBlindTo(s: Sim, t: Sim)
    requires MidStep(s) && MidStep(t) && AllAlike(s, t) && Heuristic(s.policy) && HooksHold(s, None)
    ensures AllAlike(Tick(s), Tick(t))
  {
    forall i: nat | i < |s.procs| && s.procs[i].phase.Finished? ensures !WaitsForBoost(s, i) {
      if s.policy.MLFQ? { FlattenedQueues(s.procs, s.hooks.queues, None); }
    }
    if s.running.Some? { assert ProcOk(s.procs[s.running.value], s.running.value, s.next, s.running); }
    hide HooksHold, WaitsForBoost, Tick;
    TickBlind(s, t);
  }

  lemma ExecutionTells(s: Sim, t: Sim)
    requires Ok(s) && Ok(t) && AllAlike(s, t) && NoneTold(Execute(s), Execute(t))
    ensures NobodyTellsAt(s, t, s.running)
    ensures s.running.Some? ==> s.procs[s.running.value].phase.Running?
    ensures forall i :: 0 <= i < |s.procs| ==> 0 <= s.procs[i].remaining && 0 <= t.procs[i].remaining
  {
    if s.running.Some? {
      var j := s.running.value;
      assert ProcOk(s.procs[j], j, s.next, s.running);
      if s.procs[j].burst != t.procs[j].burst {
        assert Execute(s).procs[j].burst != Execute(t).procs[j].burst;
      }
    }
    hide Shape;
  }

  // ---------- whole runs ----------

  ghost predicate SameExceptBursts(a: seq<Record>, b: seq<Record>) {
    |a| == |b| && forall i :: 0 <= i < |a| ==> a[i].pid == b[i].pid && a[i].arrival == b[i].arrival
  }

  lemma StartBlind(policy: Policy, a: seq<Record>, b: seq<Record>)
    requires ValidPolicy(policy) && Workload(a) && Workload(b) && SameExceptBursts(a, b)
    ensures AllAlike(Initial(policy, a), Initial(policy, b))
  {
  }

  lemma KeepsFinished(s: Sim, r: Sim, i: nat)
    requires Inv(s) && i < |s.procs| && (r == s || (!Done(s) && r == Step(s)))
    ensures i < |r.procs| && r.procs[i].burst == s.procs[i].burst
    ensures s.procs[i].phase.Finished? ==> r.procs[i].phase.Finished?
  {
    if r != s {
      BurstsStay(s, i);
      if s.procs[i].phase.Finished? { FinishedStays(s, i); }
    }
    hide Inv, Step;
  }

  lemma NoneToldBefore(s: Sim, t: Sim, r: Sim, q: Sim)
    requires Inv(s) && Inv(t) && |s.procs| == |t.procs| && NoneTold(r, q)
    requires r == s || (!Done(s) && r == Step(s))
    requires q == t || (!Done(t) && q == Step(t))
    ensures NoneTold(s, t)
  {
    forall i: nat | i < |s.procs| && s.procs[i].burst != t.procs[i].burst
      ensures !s.procs[i].phase.Finished? && !t.procs[i].phase.Finished?
    {
      KeepsFinished(s, r, i);
      KeepsFinished(t, q, i);
    }
    hide Inv, Step;
  }

  lemma AlikeAreDoneTogether(s: Sim, t: Sim)
    requires AllAlike(s, t)
    ensures Done(s) <==> Done(t)
  {
  }

  lemma BlindIteration(s: Sim, t: Sim, r: Sim, q: Sim)
    requires Inv(s) && Inv(t) && AllAlike(s, t) && Heuristic(s.policy) && NoneTold(r, q)
    requires r == (if Done(s) then s else Step(s)) && q == (if Done(t) then t else Step(t))
    ensures AllAlike(r, q)
  {
    assert Shape(s) && Shape(t);
    hide *;
    AlikeAreDoneTogether(s, t);
    if !Done(s) { StepBlind(s, t); }
  }

  lemma NoneToldEarlier(policy: Policy, a: seq<Record>, b: seq<Record>, k: nat)
    requires ValidPolicy(policy) && Workload(a) && Workload(b) && SameExceptBursts(a, b)
    requires NoneTold(Run(policy, a, k + 1), Run(policy, b, k + 1))
    ensures NoneTold(Run(policy, a, k), Run(policy, b, k))
  {
    assert |a| == |b|;
    hide *;
    RunHolds(policy, a, k);
    RunHolds(policy, b, k);
    RunStep(policy, a, k);
    RunStep(policy, b, k);
    NoneToldBefore(Run(policy, a, k), Run(policy, b, k), Run(policy, a, k + 1), Run(policy, b, k + 1));
  }

  lemma BlindOneMore(policy: Policy, a: seq<Record>, b: seq<Record>, k: nat)
    requires ValidPolicy(policy) && Heuristic(policy) && Workload(a) && Workload(b)
    requires AllAlike(Run(policy, a, k), Run(policy, b, k))
    requires NoneTold(Run(policy, a, k + 1), Run(policy, b, k + 1))
    ensures AllAlike(Run(policy, a, k + 1), Run(policy, b, k + 1))
  {
    hide *;
    RunHolds(policy, a, k);
    RunHolds(policy, b, k);
    RunStep(policy, a, k);
    RunStep(policy, b, k);
    BlindIteration(Run(policy, a, k), Run(policy, b, k), Run(policy, a, k + 1), Run(policy, b, k + 1));
  }

  /** Two runs of MLFQ, round robin or FCFS on workloads that differ only in bursts have the same queues,
      levels, counters, running process and CPU history, in every state before a process whose
      bursts differ has completed in either run. */
  lemma {:induction false} BlindToBursts(policy: Policy, a: seq<Record>, b: seq<Record>, k: nat)
    requires ValidPolicy(policy) && Heuristic(policy) && Workload(a) && Workload(b) && SameExceptBursts(a, b)
    requires NoneTold(Run(policy, a, k), Run(policy, b, k))
    ensures AllAlike(Run(policy, a, k), Run(policy, b, k))
  {
    if k == 0 {
      hide *;
      RunStep(policy, a, 0);
      RunStep(policy, b, 0);
      StartBlind(policy, a, b);
    } else {
      hide *;
      NoneToldEarlier(policy, a, b, k - 1);
      BlindToBursts(policy, a, b, k - 1);
      BlindOneMore(policy, a, b, k - 1);
    }
  }

  // ---------- the policies that are not blind ----------

  /** Two processes that arrive together, with the given bursts. */
  function Pair(first: int, second: int): seq<Record> {
    [NewRecord("A", 0, first), NewRecord("B", 0, second)]
  }

  lemma PairIsWorkload(first: int, second: int)
    requires 0 <= first && 0 <= second
    ensures Workload(Pair(first, second))
  {
  }

  /** After one step the CPU has been given to `first`, and nobody has finished. */
  ghost predicate BeganWith(procs: seq<Record>, s: Sim, first: nat) {
    && s.cpu == [Some(first)] && |s.procs| == |procs|
    && forall i :: 0 <= i < |s.procs| ==> !s.procs[i].phase.Finished? && s.procs[i].burst == procs[i].burst
  }

  lemma ShortestIsServed(s: Sim, r: Sim, j: nat)
    requires Inv(s) && (s.policy.SJF? || s.policy.STCF?) && s.procs != [] && s.now == s.procs[0].arrival
    requires Ticked(s, r, LastSlot(r)) && ScanEffect(s, r, LastSlot(r)) && LastSlot(r) == Some(j)
    ensures j < |s.procs| && s.procs[j].arrival == s.now
    ensures forall i :: 0 <= i < |s.procs| && s.procs[i].arrival == s.now ==> s.procs[j].burst <= s.procs[i].burst
  {
    NobodyYet(s);
    ScanIsBest(s.policy, Present(s));
    assert forall i :: 0 <= i < |s.procs| ==> (Present(s)[i].phase.Ready? <==> s.procs[i].arrival == s.now);
    hide HooksHold, Scan, Complete, Advance;
  }

  lemma SomebodyIsServed(s: Sim, r: Sim)
    requires Inv(s) && s.procs != [] && s.now == s.procs[0].arrival && Ticked(s, r, LastSlot(r))
    ensures LastSlot(r).Some?
  {
    NobodyYet(s);
    assert 0 < Left(s.procs[0]);
    hide HooksHold, Complete, Advance;
  }

  lemma CpuGrows(s: Sim, r: Sim, slot: Slot)
    requires Ticked(s, r, slot)
    ensures r.cpu == s.cpu + [slot]
  {
  }

  lemma StartByBurst(s: Sim) returns (j: nat)
    requires Inv(s) && (s.policy.SJF? || s.policy.STCF?) && s.procs != [] && s.now == s.procs[0].arrival
    ensures !Done(s) && Step(s).cpu == s.cpu + [Some(j)]
    ensures j < |s.procs| && s.procs[j].arrival == s.now
    ensures forall i :: 0 <= i < |s.procs| && s.procs[i].arrival == s.now ==> s.procs[j].burst <= s.procs[i].burst
  {
    var r := Step(s);
    assert Scans(s.policy);
    hide *;
    NobodyYet(s);
    StepKeeps(s);
    ScanningStep(s);
    SomebodyIsServed(s, r);
    j := LastSlot(r).value;
    ShortestIsServed(s, r, j);
    CpuGrows(s, r, LastSlot(r));
  }

  /** SJF and STCF idle until the first arrival and then begin with a shortest of the processes that
      arrive first. */
  lemma ShortestGoesFirst(policy: Policy, procs: seq<Record>) returns (j: nat)
    requires ValidPolicy(policy) && (policy.SJF? || policy.STCF?) && Workload(procs) && procs != []
    ensures 0 <= procs[0].arrival && j < |procs| && procs[j].arrival == procs[0].arrival
    ensures forall i :: 0 <= i < |procs| && procs[i].arrival == procs[0].arrival ==> procs[j].burst <= procs[i].burst
    ensures Run(policy, procs, procs[0].arrival + 1).cpu == Repeated(None, procs[0].arrival) + [Some(j)]
  {
    hide *;
    var s := FirstIsDue(policy, procs);
    RunStep(policy, procs, procs[0].arrival);
    j := StartByBurst(s);
  }

  /** SJF and STCF begin with the shorter of the two. */
  lemma ShorterGoesFirst(policy: Policy, first: int, second: int)
    requires (policy.SJF? || policy.STCF?) && ValidPolicy(policy)
    requires 1 <= first && 1 <= second && first != second && Workload(Pair(first, second))
    ensures BeganWith(Pair(first, second), Run(policy, Pair(first, second), 1), if first < second then 0 else 1)
  {
    var procs := Pair(first, second);
    var s := Initial(policy, procs);
    assert s.procs == procs && s.cpu == [] && !Done(s) && Complete(s) == s && s.policy == policy && s.next == 0 && s.now == 0;
    assert Present(s) == seq(2, i requires 0 <= i < 2 => procs[i].(phase := Ready));
    hide *;
    RunStep(policy, procs, 0);
    InitialHolds(policy, procs);
    StepKeeps(s);
    ScanningStep(s);
    ShorterIsBest(s, first, second);
    BeginsWith(procs, s, Step(s), if first < second then 0 else 1);
  }

  lemma ShorterIsBest(s: Sim, first: int, second: int)
    requires (s.policy.SJF? || s.policy.STCF?) && first != second
    requires |s.procs| == 2 && Present(s) == seq(2, i requires 0 <= i < 2 => Pair(first, second)[i].(phase := Ready))
    ensures Scan(s.policy, Present(s), 2) == Some(if first < second then 0 else 1)
  {
    ScanIsBest(s.policy, Present(s));
    assert Present(s)[0].phase.Ready? && Present(s)[1].phase.Ready?;
    hide Scan, Present;
  }

  lemma BeginsWith(procs: seq<Record>, s: Sim, r: Sim, first: nat)
    requires Inv(s) && s.procs == procs && s.cpu == [] && s.running == None && Ticked(s, r, LastSlot(r)) && ScanEffect(s, r, LastSlot(r))
    requires Scan(s.policy, Present(s), |procs|) == Some(first)
    requires forall i :: 0 <= i < |procs| ==> procs[i].phase.NotArrived? && 1 <= procs[i].burst == procs[i].remaining
    ensures BeganWith(procs, r, first)
  {
    hide HooksHold, Scan, Present;
  }

  /** The policy hands out the CPU in the same way on workloads that differ only in bursts, as long as no
      process whose bursts differ has completed. */
  ghost predicate IsBlind(policy: Policy)
    requires ValidPolicy(policy)
  {
    forall a, b, k: nat ::
      Workload(a) && Workload(b) && SameExceptBursts(a, b) && NoneTold(Run(policy, a, k), Run(policy, b, k)) ==>
        Run(policy, a, k).cpu == Run(policy, b, k).cpu
  }

  lemma BlindIfHeuristic(policy: Policy)
    requires ValidPolicy(policy) && Heuristic(policy)
    ensures IsBlind(policy)
  {
    hide Run, AllAlike;
    forall a, b, k: nat |
      Workload(a) && Workload(b) && SameExceptBursts(a, b) && NoneTold(Run(policy, a, k), Run(policy, b, k))
      ensures Run(policy, a, k).cpu == Run(policy, b, k).cpu
    {
      BlindToBursts(policy, a, b, k);
      SameCpu(Run(policy, a, k), Run(policy, b, k));
    }
    hide Workload, SameExceptBursts, NoneTold;
  }

  lemma SameCpu(s: Sim, t: Sim)
    requires AllAlike(s, t)
    ensures s.cpu == t.cpu
  {
  }

  lemma NotBlindOtherwise(policy: Policy)
    requires ValidPolicy(policy) && !Heuristic(policy)
    ensures !IsBlind(policy)
  {
    var a, b := Pair(1, 2), Pair(3, 2);
    assert SameExceptBursts(a, b) && (policy.SJF? || policy.STCF?);
    PairIsWorkload(1, 2);
    PairIsWorkload(3, 2);
    hide Workload, Run, Pair;
    ShorterGoesFirst(policy, 1, 2);
    ShorterGoesFirst(policy, 3, 2);
    DifferentBeginnings(a, b, Run(policy, a, 1), Run(policy, b, 1));
  }

  lemma DifferentBeginnings(a: seq<Record>, b: seq<Record>, s: Sim, t: Sim)
    requires BeganWith(a, s, 0) && BeganWith(b, t, 1)
    ensures NoneTold(s, t) && s.cpu != t.cpu
  {
  }

  lemma BlindExactlyWhenHeuristic(policy: Policy)
    requires ValidPolicy(policy)
    ensures IsBlind(policy) <==> Heuristic(policy)
  {
    if Heuristic(policy) { BlindIfHeuristic(policy); } else { NotBlindOtherwise(policy); }
    hide IsBlind;
  }
}
