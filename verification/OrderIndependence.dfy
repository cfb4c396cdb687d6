/** Under SJF and STCF the order of the input, and the order the sort leaves among equal keys, do not
    matter: two arrangements of the same workload run in step, process by process. */
module OrderIndependence {
  import opened Basics
  import opened Processes
  import opened Model
  import opened Engine
  import opened Runs
  import opened Scanning
  import Schedules
  import Fcfs
  import RoundRobin
  import Mlfq
  import Blindness
  import StartOrder

  predicate ByBurst(policy: Policy) {
    policy.SJF? || policy.STCF?
  }

  /** pi sends each position to where the process stands in the other arrangement, rho sends it back. */
  ghost predicate Rearranges(pi: seq<nat>, rho: seq<nat>, n: nat) {
    && |pi| == |rho| == n
    && (forall i :: 0 <= i < n ==> pi[i] < n && rho[pi[i]] == i)
    && (forall j :: 0 <= j < n ==> rho[j] < n && pi[rho[j]] == j)
  }

  function Image(pi: seq<nat>, slot: Slot): Slot {
    if slot.Some? && slot.value < |pi| then Some(pi[slot.value]) else None
  }

  ghost predicate Matches(pi: seq<nat>, a: seq<Record>, b: seq<Record>) {
    && |a| == |b| == |pi|
    && forall i :: 0 <= i < |a| ==> pi[i] < |b| && b[pi[i]] == a[i]
  }

  /** The two simulations are at the same point, up to the arrangement. */
  ghost predicate Aligned(pi: seq<nat>, s: Sim, t: Sim) {
    && t.policy == s.policy && t.now == s.now && t.preempt == s.preempt
    && t.running == Image(pi, s.running)
    && Matches(pi, s.procs, t.procs)
  }

  /** ... and they have recorded the same. */
  ghost predicate InStep(pi: seq<nat>, s: Sim, t: Sim) {
    && Aligned(pi, s, t)
    && t.switches == s.switches && t.completed == s.completed && t.log == s.log
  }

  ghost predicate DistinctPids(procs: seq<Record>) {
    forall i, j :: 0 <= i < j < |procs| ==> procs[i].pid != procs[j].pid
  }

  /** With distinct PIDs a best candidate is unique. */
  lemma BestIsUnique(policy: Policy, procs: seq<Record>, i: nat, j: nat)
    requires ByBurst(policy) && DistinctPids(procs) && IsBest(policy, procs, i) && IsBest(policy, procs, j)
    ensures i == j
  {
    if i != j {
      PidLessTotal(procs[i].pid, procs[j].pid);
    }
  }

  lemma BestMoves(policy: Policy, pi: seq<nat>, rho: seq<nat>, a: seq<Record>, b: seq<Record>, i: nat)
    requires Rearranges(pi, rho, |a|) && Matches(pi, a, b) && IsBest(policy, a, i)
    ensures IsBest(policy, b, pi[i])
  {
    forall j | 0 <= j < |b| && b[j].phase.Ready? ensures !Prefer(policy, b[j], b[pi[i]]) {
      assert b[j] == a[rho[j]];
    }
  }

  /** The scans of the two arrangements find the same process. */
  lemma ScansMatch(policy: Policy, pi: seq<nat>, rho: seq<nat>, a: seq<Record>, b: seq<Record>)
    requires ByBurst(policy) && Rearranges(pi, rho, |a|) && Matches(pi, a, b) && DistinctPids(b)
    ensures Scan(policy, b, |b|) == Image(pi, Scan(policy, a, |a|))
  {
    ScanIsBest(policy, a);
    ScanIsBest(policy, b);
    var x, y := Scan(policy, a, |a|), Scan(policy, b, |b|);
    if x.Some? {
      BestMoves(policy, pi, rho, a, b, x.value);
      assert b[pi[x.value]].phase.Ready?;
      BestIsUnique(policy, b, y.value, pi[x.value]);
    } else {
      forall j | 0 <= j < |b| ensures !b[j].phase.Ready? {
        assert b[j] == a[rho[j]];
      }
    }
  }

  // ---------- stage by stage ----------

  lemma CompleteInStep(pi: seq<nat>, rho: seq<nat>, s: Sim, t: Sim)
    requires Shape(s) && Shape(t) && Rearranges(pi, rho, |s.procs|) && InStep(pi, s, t)
    ensures InStep(pi, Complete(s), Complete(t))
  {
  }

  lemma AlignedBack(pi: seq<nat>, rho: seq<nat>, s: Sim, t: Sim)
    requires Shape(s) && Rearranges(pi, rho, |s.procs|) && Aligned(pi, s, t)
    ensures Rearranges(rho, pi, |t.procs|) && Aligned(rho, t, s)
  {
  }

  /** Exactly the processes before `next` have arrived by now. */
  ghost predicate ArrivedUpTo(s: Sim, next: nat) {
    s.next <= next <= |s.procs| && forall i :: 0 <= i < |s.procs| ==> (i < next <==> s.procs[i].arrival <= s.now)
  }

  /** A newcomer shorter than the running process arrives in one arrangement if he does in the other. */
  lemma SameNewcomers(pi: seq<nat>, rho: seq<nat>, s: Sim, t: Sim, sNext: nat, tNext: nat)
    requires Ok(s) && Ok(t) && Rearranges(pi, rho, |s.procs|) && Aligned(pi, s, t)
    requires ArrivedUpTo(s, sNext) && ArrivedUpTo(t, tNext)
    ensures ShorterArrives(s, sNext) ==> ShorterArrives(t, tNext)
  {
    hide Shape;
    if ShorterArrives(s, sNext) {
      var i :| s.next <= i < sNext && s.procs[i].remaining < s.procs[s.running.value].remaining;
      var j := pi[i];
      assert t.procs[j] == s.procs[i];
      assert ProcOk(s.procs[i], i, s.next, s.running) && ProcOk(t.procs[j], j, t.next, t.running);
    }
  }

  lemma UpToNext(s: Sim, a: Sim)
    requires Arrives(s, a)
    ensures ArrivedUpTo(s, a.next)
  {
    assert a.next <= |a.procs|;
    hide HooksHold, MidStep;
  }

  lemma AlignedArrivals(pi: seq<nat>, s: Sim, t: Sim, a: Sim, b: Sim)
    requires InStep(pi, s, t) && ArrivalsOf(s, a) && ArrivalsOf(t, b)
    requires ShorterArrives(s, a.next) <==> ShorterArrives(t, b.next)
    ensures InStep(pi, a, b)
  {
    hide ShorterArrives, Arrived;
  }

  lemma MidStepIsOk(s: Sim)
    requires MidStep(s)
    ensures Ok(s)
  {
    hide Ok;
  }

  lemma ArriveInStep(pi: seq<nat>, rho: seq<nat>, s: Sim, t: Sim)
    requires MidStep(s) && MidStep(t) && Scans(s.policy) && Rearranges(pi, rho, |s.procs|) && InStep(pi, s, t)
    requires Arrives(s, Arrive(s)) && Arrives(t, Arrive(t))
    requires forall i :: 0 <= i < s.next ==> s.procs[i].arrival <= s.now
    requires forall i :: 0 <= i < t.next ==> t.procs[i].arrival <= t.now
    ensures InStep(pi, Arrive(s), Arrive(t))
  {
    assert Aligned(pi, s, t) && t.policy == s.policy;
    var a, b := Arrive(s), Arrive(t);
    hide *;
    MidStepIsOk(s);
    MidStepIsOk(t);
    ArriveScanning(s);
    ArriveScanning(t);
    UpToNext(s, a);
    UpToNext(t, b);
    NewcomersInStep(pi, rho, s, t, a.next, b.next);
    AlignedArrivals(pi, s, t, a, b);
  }

  lemma NewcomersInStep(pi: seq<nat>, rho: seq<nat>, s: Sim, t: Sim, sNext: nat, tNext: nat)
    requires Ok(s) && Ok(t) && Rearranges(pi, rho, |s.procs|) && Aligned(pi, s, t)
    requires ArrivedUpTo(s, sNext) && ArrivedUpTo(t, tNext)
    ensures ShorterArrives(s, sNext) <==> ShorterArrives(t, tNext)
  {
    AlignedBack(pi, rho, s, t);
    SameNewcomers(pi, rho, s, t, sNext, tNext);
    SameNewcomers(rho, pi, t, s, tNext, sNext);
    hide *;
  }

  lemma DispatchInStep(pi: seq<nat>, rho: seq<nat>, s: Sim, t: Sim)
    requires Shape(s) && Shape(t) && ByBurst(s.policy) && Rearranges(pi, rho, |s.procs|) && InStep(pi, s, t)
    requires DistinctPids(t.procs)
    ensures InStep(pi, Dispatch(s), Dispatch(t))
  {
    ScansMatch(s.policy, pi, rho, Candidates(s), Candidates(t));
    assert NextProcess(s.policy, Candidates(s), s.hooks).0 == Scan(s.policy, Candidates(s), |s.procs|);
    assert NextProcess(t.policy, Candidates(t), t.hooks).0 == Scan(t.policy, Candidates(t), |t.procs|);
    hide NextProcess, Scan;
  }

  lemma ExecuteInStep(pi: seq<nat>, rho: seq<nat>, s: Sim, t: Sim)
    requires Shape(s) && Shape(t) && Rearranges(pi, rho, |s.procs|) && InStep(pi, s, t)
    ensures InStep(pi, Execute(s), Execute(t))
  {
  }

  // ---------- one step ----------

  lemma StagesInStep(pi: seq<nat>, rho: seq<nat>, s: Sim, t: Sim,
                     c1: Sim, a1: Sim, t1: Sim, d1: Sim, c2: Sim, a2: Sim, t2: Sim, d2: Sim)
    requires Inv(s) && Inv(t) && ByBurst(s.policy) && Rearranges(pi, rho, |s.procs|) && InStep(pi, s, t)
    requires Stages(s, c1, a1, t1, d1) && Stages(t, c2, a2, t2, d2) && InStep(pi, c1, c2) && DistinctPids(t.procs)
    ensures InStep(pi, Execute(d1), Execute(d2))
  {
    StagesHold(s, c1, a1, t1, d1);
    StagesHold(t, c2, a2, t2, d2);
    ScanningStages(s, c1, a1, t1, d1);
    ScanningStages(t, c2, a2, t2, d2);
    PidsStay(t, c2, a2);
    hide HooksHold, Complete, Arrive, Tick, Dispatch, InStep;
    assert InStep(pi, s, t) && InStep(pi, c1, c2);
    EarlierArrived(s, c1);
    EarlierArrived(t, c2);
    hide Inv, MidStep, Completes, Ok;
    ArriveInStep(pi, rho, c1, c2);
    DispatchInStep(pi, rho, t1, t2);
    ExecuteInStep(pi, rho, d1, d2);
  }

  lemma EarlierArrived(s: Sim, c: Sim)
    requires Inv(s) && Completes(s, c)
    ensures forall i :: 0 <= i < c.next ==> c.procs[i].arrival <= c.now
  {
    hide HooksHold;
  }

  lemma PidsStay(s: Sim, c: Sim, a: Sim)
    requires Completes(s, c) && Arrives(c, a) && DistinctPids(s.procs)
    ensures DistinctPids(a.procs)
  {
    hide HooksHold, MidStep;
  }

  lemma StepInStep(pi: seq<nat>, rho: seq<nat>, s: Sim, t: Sim)
    requires Inv(s) && Inv(t) && ByBurst(s.policy) && Rearranges(pi, rho, |s.procs|) && InStep(pi, s, t)
    requires DistinctPids(t.procs)
    ensures InStep(pi, Step(s), Step(t))
  {
    assert Shape(s) && Shape(t);
    assert |s.procs| == |t.procs|;
    CompleteInStep(pi, rho, s, t);
    var c1, c2 := Complete(s), Complete(t);
    hide Inv, Complete, Arrive, Tick, Dispatch, Execute, Aligned;
    assert c1.completed == c2.completed;
    if c1.completed != |s.procs| {
      StagesInStep(pi, rho, s, t, c1, Arrive(c1), Tick(Arrive(c1)), Dispatch(Tick(Arrive(c1))),
                   c2, Arrive(c2), Tick(Arrive(c2)), Dispatch(Tick(Arrive(c2))));
    }
  }

  // ---------- whole runs ----------

  lemma StartInStep(policy: Policy, pi: seq<nat>, a: seq<Record>, b: seq<Record>)
    requires ValidPolicy(policy) && Workload(a) && Workload(b) && Matches(pi, a, b)
    ensures InStep(pi, Initial(policy, a), Initial(policy, b))
  {
  }

  lemma PidsKept(procs: seq<Record>, s: Sim)
    requires Tracks(procs, s) && DistinctPids(procs)
    ensures DistinctPids(s.procs)
  {
    hide Schedules.WorkLeft, Schedules.WorkConserving;
  }

  lemma DoneTogether(pi: seq<nat>, s: Sim, t: Sim)
    requires InStep(pi, s, t)
    ensures Done(s) <==> Done(t)
    ensures |s.procs| == |t.procs| == |pi|
  {
  }

  lemma {:induction false} RunsInStep(policy: Policy, pi: seq<nat>, rho: seq<nat>, a: seq<Record>, b: seq<Record>, k: nat)
    requires ValidPolicy(policy) && ByBurst(policy) && Workload(a) && Workload(b)
    requires Rearranges(pi, rho, |a|) && Matches(pi, a, b) && DistinctPids(b)
    ensures InStep(pi, Run(policy, a, k), Run(policy, b, k))
  {
    hide *;
    if k == 0 {
      RunStep(policy, a, 0);
      RunStep(policy, b, 0);
      StartInStep(policy, pi, a, b);
    } else {
      RunsInStep(policy, pi, rho, a, b, k - 1);
      RunHolds(policy, a, k - 1);
      RunHolds(policy, b, k - 1);
      RunTracks(policy, b, k - 1);
      RunStep(policy, a, k - 1);
      RunStep(policy, b, k - 1);
      var s, t := Run(policy, a, k - 1), Run(policy, b, k - 1);
      DoneTogether(pi, s, t);
      PidsKept(b, t);
      if !Done(s) { StepInStep(pi, rho, s, t); }
    }
  }

  ghost function Position(procs: seq<Record>, p: Record): (i: nat)
    requires p in procs
    ensures i < |procs| && procs[i] == p
  {
    var i: nat :| i < |procs| && procs[i] == p;
    i
  }

  /** Two arrangements of the same processes, the PIDs being distinct. */
  ghost predicate SameProcesses(a: seq<Record>, b: seq<Record>) {
    multiset(a) == multiset(b) && DistinctPids(a)
  }

  ghost function Arrangement(a: seq<Record>, b: seq<Record>): (pi: seq<nat>)
    requires multiset(a) == multiset(b)
    ensures |pi| == |a| && forall i :: 0 <= i < |a| ==> pi[i] < |b| && b[pi[i]] == a[i]
  {
    assert forall i :: 0 <= i < |a| ==> a[i] in multiset(b) by { assert forall i :: 0 <= i < |a| ==> a[i] in multiset(a); }
    seq(|a|, i requires 0 <= i < |a| => Position(b, a[i]))
  }

  lemma ArrangementsRearrange(a: seq<Record>, b: seq<Record>)
    requires SameProcesses(a, b)
    ensures |a| == |b| && DistinctPids(b)
    ensures Rearranges(Arrangement(a, b), Arrangement(b, a), |a|) && Matches(Arrangement(a, b), a, b)
  {
    assert |multiset(a)| == |a| && |multiset(b)| == |b|;
    var pi, rho := Arrangement(a, b), Arrangement(b, a);
    forall i: nat | i < |a| ensures rho[pi[i]] == i {
      assert a[rho[pi[i]]].pid == a[i].pid;
    }
    OtherPids(a, b, pi, rho);
    forall j: nat | j < |b| ensures pi[rho[j]] == j {
      assert b[pi[rho[j]]].pid == b[j].pid;
    }
  }

  /** An arrangement is onto by counting. */
  lemma Onto(pi: seq<nat>, i: nat) returns (x: nat)
    requires Distinct(pi) && (forall k :: 0 <= k < |pi| ==> pi[k] < |pi|) && i < |pi|
    ensures x < |pi| && pi[x] == i
  {
    DistinctSize(pi);
    BelowSize(|pi|);
    SubsetSize(Members(pi), Below(|pi|));
    assert i in Below(|pi|);
    x :| x < |pi| && pi[x] == i;
  }

  lemma OtherPids(a: seq<Record>, b: seq<Record>, pi: seq<nat>, rho: seq<nat>)
    requires |a| == |b| == |pi| == |rho| && DistinctPids(a)
    requires forall i :: 0 <= i < |a| ==> pi[i] < |b| && b[pi[i]] == a[i]
    requires forall j :: 0 <= j < |b| ==> rho[j] < |a| && a[rho[j]] == b[j]
    requires forall i :: 0 <= i < |a| ==> rho[pi[i]] == i
    ensures DistinctPids(b)
  {
    var n := |a|;
    forall i, j | 0 <= i < j < n ensures pi[i] != pi[j] {
      assert rho[pi[i]] != rho[pi[j]];
    }
    forall i: nat, j: nat | i < j < n ensures b[i].pid != b[j].pid {
      var x := Onto(pi, i);
      var y := Onto(pi, j);
      assert x < y || y < x;
    }
  }

  /** SJF and STCF: any two arrangements of the same processes that are sorted by the comparator, in
      whatever order it leaves ties, run alike at every step: the same Gantt log, clock and
      switches, and for every PID the same record. */
  lemma OrderDoesNotMatter(policy: Policy, a: seq<Record>, b: seq<Record>, k: nat)
    requires ValidPolicy(policy) && ByBurst(policy) && Workload(a) && Workload(b) && SameProcesses(a, b)
    ensures SameOutcome(Run(policy, a, k), Run(policy, b, k))
    ensures SameOutcome(Final(policy, a), Final(policy, b))
  {
    hide *;
    SameAt(policy, a, b, k);
    var m, n := RunLength(a), RunLength(b);
    SameAt(policy, a, b, m + n);
    FinalRun(policy, a);
    FinalRun(policy, b);
    EveryRunEnds(policy, a);
    EveryRunEnds(policy, b);
    StaysDone(policy, a, m, m + n);
    StaysDone(policy, b, n, m + n);
  }

  lemma SameAt(policy: Policy, a: seq<Record>, b: seq<Record>, k: nat)
    requires ValidPolicy(policy) && ByBurst(policy) && Workload(a) && Workload(b) && SameProcesses(a, b)
    ensures SameOutcome(Run(policy, a, k), Run(policy, b, k))
  {
    var pi, rho := Arrangement(a, b), Arrangement(b, a);
    hide *;
    ArrangementsRearrange(a, b);
    RunsInStep(policy, pi, rho, a, b, k);
    RunTracks(policy, b, k);
    KeepsPids(policy, a, b, k);
    MatchedOutcomes(pi, rho, Run(policy, a, k), Run(policy, b, k));
  }

  lemma KeepsPids(policy: Policy, a: seq<Record>, b: seq<Record>, k: nat)
    requires ValidPolicy(policy) && Workload(a) && Workload(b) && Tracks(b, Run(policy, b, k)) && DistinctPids(b)
    ensures DistinctPids(Run(policy, b, k).procs)
  {
    hide Run;
    PidsKept(b, Run(policy, b, k));
  }

  ghost predicate SameOutcome(s: Sim, t: Sim) {
    && |s.procs| == |t.procs| && t.log == s.log && t.now == s.now && t.switches == s.switches && t.completed == s.completed
    && (forall i, j :: 0 <= i < |s.procs| && 0 <= j < |t.procs| && s.procs[i].pid == t.procs[j].pid ==> s.procs[i] == t.procs[j])
    && (forall i :: 0 <= i < |s.procs| ==> s.procs[i] in t.procs)
  }

  lemma MatchedOutcomes(pi: seq<nat>, rho: seq<nat>, s: Sim, t: Sim)
    requires Rearranges(pi, rho, |s.procs|) && InStep(pi, s, t) && DistinctPids(t.procs)
    ensures SameOutcome(s, t)
  {
    forall i, j | 0 <= i < |s.procs| && 0 <= j < |t.procs| && s.procs[i].pid == t.procs[j].pid
      ensures s.procs[i] == t.procs[j]
    {
      assert t.procs[pi[i]] == s.procs[i];
    }
  }

  // ---------- the policies whose outcome depends on the order ----------

  /** Somebody is due, and nothing has happened before. */
  ghost predicate AtTheStart(s: Sim) {
    && Inv(s) && !Done(s) && Complete(s).completed != |s.procs|
    && s.procs != [] && s.procs[0].arrival == s.now && s.procs[0].phase.NotArrived? && s.next == 0 && s.running == None
  }

  lemma StartsWithNobody(s: Sim)
    requires Inv(s) && s.procs != [] && s.now == s.procs[0].arrival
    ensures AtTheStart(s)
  {
    NobodyYet(s);
    hide Inv, Complete;
  }

  lemma EmptyLevels(procs: seq<Record>, queues: seq<seq<nat>>)
    requires Placed(procs, queues, None) && forall i: nat :: !Waits(procs, None, i)
    ensures forall l :: 0 <= l < |queues| ==> queues[l] == []
  {
    forall l: nat | l < |queues| ensures queues[l] == [] {
      assert forall i: nat :: i in queues[l] ==> Waits(procs, None, i);
      hide Waits, Placed;
      NoMembers(queues[l]);
    }
  }

  lemma NobodyWaits(s: Sim)
    requires AtTheStart(s)
    ensures s.policy.RR? ==> s.hooks.queue == []
    ensures s.policy.MLFQ? ==> forall l :: 0 <= l < |s.hooks.queues| ==> s.hooks.queues[l] == []
    ensures 0 < Left(s.procs[0])
  {
    assert forall i: nat :: i < |s.procs| ==> ProcOk(s.procs[i], i, s.next, s.running);
    assert forall i: nat :: !Waits(s.procs, None, i);
    hide Complete;
    if s.policy.RR? { NoMembers(s.hooks.queue); }
    if s.policy.MLFQ? { EmptyLevels(s.procs, s.hooks.queues); }
  }

  lemma SomebodyComes(s: Sim, r: Sim, slot: Slot)
    requires AtTheStart(s) && Inv(r) && Ticked(s, r, slot)
    ensures 0 < r.next && slot.Some?
  {
    NobodyWaits(s);
    hide HooksHold, Complete;
  }

  lemma FcfsStart(s: Sim)
    requires AtTheStart(s) && s.policy.FCFS?
    ensures LastSlot(Step(s)) == Some(0)
  {
    NobodyWaits(s);
    StepKeeps(s);
    Fcfs.FcfsStep(s);
    SomebodyComes(s, Step(s), LastSlot(Step(s)));
    hide Step, Complete, HooksHold, Inv;
  }

  lemma RoundRobinStart(s: Sim)
    requires AtTheStart(s) && s.policy.RR?
    ensures LastSlot(Step(s)) == Some(0)
  {
    NobodyWaits(s);
    StepKeeps(s);
    RoundRobin.RrStep(s);
    SomebodyComes(s, Step(s), LastSlot(Step(s)));
    assert Shape(s);
    hide Step, Complete, Inv, Ticked;
    assert RoundRobin.QueueAtDispatch(s, Step(s).next)[0] == 0;
  }

  lemma MlfqStart(s: Sim)
    requires AtTheStart(s) && s.policy.MLFQ?
    ensures LastSlot(Step(s)) == Some(0)
  {
    NobodyWaits(s);
    StepKeeps(s);
    Mlfq.MlfqStep(s);
    SomebodyComes(s, Step(s), LastSlot(Step(s)));
    assert Shape(s);
    hide Step, Complete, Inv, Ticked, Mlfq.LevelAfter;
    assert Mlfq.VerdictOf(s, Step(s).next) == Mlfq.Idle;
    assert Mlfq.QueuesAfterTick(s, Step(s).next)[0][0] == 0;
  }

  lemma StartOfHeuristic(s: Sim)
    requires Inv(s) && Blindness.Heuristic(s.policy) && s.procs != [] && s.now == s.procs[0].arrival
    ensures !Done(s) && Step(s).log == s.log + [Label(s.procs, Some(0))]
  {
    StartsWithNobody(s);
    hide Step, Inv;
    if s.policy.FCFS? { FcfsStart(s); } else if s.policy.RR? { RoundRobinStart(s); } else { MlfqStart(s); }
    StepKeeps(s);
    hide Label, Complete, Done;
  }

  lemma SameFirstLabel(procs: seq<Record>, s: Sim)
    requires procs != [] && |s.procs| == |procs| && s.procs[0].pid == procs[0].pid && s.procs[0].burst == procs[0].burst
    ensures Label(s.procs, Some(0)) == Label(procs, Some(0))
  {
  }

  /** FCFS, round robin and MLFQ idle until the first arrival and then begin with the first entry of the
      process array. */
  lemma FirstGoesFirst(policy: Policy, procs: seq<Record>)
    requires ValidPolicy(policy) && Blindness.Heuristic(policy) && Workload(procs) && procs != []
    ensures 0 <= procs[0].arrival
    ensures Run(policy, procs, procs[0].arrival + 1).log == Repeated("-", procs[0].arrival) + [Label(procs, Some(0))]
  {
    hide *;
    var s := FirstIsDue(policy, procs);
    RunStep(policy, procs, procs[0].arrival);
    StartOfHeuristic(s);
    SameFirstLabel(procs, s);
  }

  function Twins(first: string, second: string): seq<Record> {
    [NewRecord(first, 0, 1), NewRecord(second, 0, 1)]
  }

  lemma TwinsAreWorkload(first: string, second: string)
    requires FirstChar(first) == FirstChar(second) && |first| < MAX_PID_LEN && |second| < MAX_PID_LEN
    ensures Workload(Twins(first, second))
    ensures multiset(Twins(first, second)) == multiset(Twins(second, first))
  {
  }

  /** Any two arrangements of the same processes lead to the same outcome at every step. */
  ghost predicate IgnoresOrder(policy: Policy)
    requires ValidPolicy(policy)
  {
    forall a, b, k: nat ::
      Workload(a) && Workload(b) && SameProcesses(a, b) ==> SameOutcome(Run(policy, a, k), Run(policy, b, k))
  }

  lemma HeuristicsSeeOrder(policy: Policy)
    requires ValidPolicy(policy) && !ByBurst(policy)
    ensures !IgnoresOrder(policy)
  {
    var a, b := Twins("P1", "P2"), Twins("P2", "P1");
    TwinsAreWorkload("P1", "P2");
    TwinsAreWorkload("P2", "P1");
    assert a[0].arrival == b[0].arrival == 0;
    assert SameProcesses(a, b) && Label(a, Some(0)) == "P1" && Label(b, Some(0)) == "P2";
    assert "P1"[1] != "P2"[1];
    hide Run, Workload, Twins, Label;
    FirstGoesFirst(policy, a);
    FirstGoesFirst(policy, b);
    assert Run(policy, a, 1).log[0] != Run(policy, b, 1).log[0];
    hide SameProcesses;
  }

  /** The documented determinism holds on all workloads for SJF and STCF and for no other policy. */
  lemma OrderIgnoredExactlyByBurst(policy: Policy)
    requires ValidPolicy(policy)
    ensures IgnoresOrder(policy) <==> ByBurst(policy)
  {
    if ByBurst(policy) {
      forall a, b, k: nat | Workload(a) && Workload(b) && SameProcesses(a, b)
        ensures SameOutcome(Run(policy, a, k), Run(policy, b, k))
      {
        SameAt(policy, a, b, k);
      }
      hide Run, Workload, SameOutcome, SameProcesses;
    } else {
      HeuristicsSeeOrder(policy);
      hide *;
    }
  }

  // ---------- the workloads on which the outcome depends on the order ----------

  /** All that the input and the sort leave open about this workload has no influence on the outcome. */
  ghost predicate Determined(policy: Policy, a: seq<Record>)
    requires ValidPolicy(policy) && Workload(a)
  {
    forall b :: Workload(b) && SameProcesses(a, b) ==> SameOutcome(Final(policy, a), Final(policy, b))
  }

  /** In order and without gaps means at its own place. */
  lemma IncreasingIsIdentity(pi: seq<nat>, i: nat)
    requires i < |pi| && (forall j :: 0 <= j < |pi| ==> pi[j] < |pi|)
    requires forall j, k :: 0 <= j < k < |pi| ==> pi[j] < pi[k]
    ensures pi[i] == i
  {
    AtLeastIdentity(pi, i);
    AtMostIdentity(pi, i);
  }

  lemma {:induction false} AtLeastIdentity(pi: seq<nat>, i: nat)
    requires i < |pi| && forall j, k :: 0 <= j < k < |pi| ==> pi[j] < pi[k]
    ensures i <= pi[i]
  {
    if i > 0 { AtLeastIdentity(pi, i - 1); }
  }

  lemma {:induction false} AtMostIdentity(pi: seq<nat>, i: nat)
    requires i < |pi| && (forall j :: 0 <= j < |pi| ==> pi[j] < |pi|)
    requires forall j, k :: 0 <= j < k < |pi| ==> pi[j] < pi[k]
    ensures pi[i] <= i
    decreases |pi| - i
  {
    if i < |pi| - 1 { AtMostIdentity(pi, i + 1); }
  }

  lemma TiesDecided(a: seq<Record>, i: nat, j: nat)
    requires i < j < |a| && Fcfs.FirstCharsDecide(a) && DistinctPids(a)
    ensures CompareArrival(a[i], a[j]) != 0
    ensures CompareArrival(a[j], a[i]) == -CompareArrival(a[i], a[j])
  {
  }

  /** If the comparator tells all processes apart, the sort has only one possible result. */
  lemma SortedIsUnique(a: seq<Record>, b: seq<Record>)
    requires Workload(a) && Workload(b) && SameProcesses(a, b) && Fcfs.FirstCharsDecide(a)
    ensures a == b
  {
    var pi := Arrangement(a, b);
    ArrangementsRearrange(a, b);
    forall i: nat, j: nat | i < j < |a| ensures pi[i] < pi[j] {
      TiesDecided(a, i, j);
      assert b[pi[i]] == a[i] && b[pi[j]] == a[j];
      hide CompareArrival, Arrangement;
    }
    forall i: nat | i < |a| ensures a[i] == b[i] {
      IncreasingIsIdentity(pi, i);
    }
    hide Workload, SameProcesses, Arrangement;
  }

  lemma PidsOfFinal(policy: Policy, a: seq<Record>)
    requires ValidPolicy(policy) && Workload(a)
    ensures var f := Final(policy, a);
      |f.procs| == |a| && forall i :: 0 <= i < |a| ==> f.procs[i].pid == a[i].pid
  {
    hide *;
    FinalFacts(policy, a);
    InputsStay(a, Final(policy, a));
  }

  lemma SameAsItself(policy: Policy, a: seq<Record>)
    requires ValidPolicy(policy) && Workload(a) && DistinctPids(a)
    ensures SameOutcome(Final(policy, a), Final(policy, a))
  {
    PidsOfFinal(policy, a);
    hide Final, Workload;
  }

  /** Of two processes the comparator does not tell apart, either can be made to run first. */
  lemma SwappedRunsOtherwise(policy: Policy, a: seq<Record>, i: nat, j: nat)
    requires ValidPolicy(policy) && Blindness.Heuristic(policy) && Workload(a)
    requires i < j < |a| && CompareArrival(a[i], a[j]) == 0
    ensures Workload(Fcfs.Swapped(a, i, j))
    ensures !SameOutcome(Final(policy, a), Final(policy, Fcfs.Swapped(a, i, j)))
  {
    var b := Fcfs.Swapped(a, i, j);
    assert |b| == |a| && b[i] == a[j] && b[j] == a[i];
    Fcfs.SwappedIsSorted(a, i, j);
    hide Final, Workload, Fcfs.Swapped;
    StartOrder.FirstRunsInArrayOrder(policy, a, i, j);
    StartOrder.FirstRunsInArrayOrder(policy, b, i, j);
    PidsOfFinal(policy, a);
    PidsOfFinal(policy, b);
    var f, g := Final(policy, a), Final(policy, b);
    assert f.procs[i].pid == g.procs[j].pid && f.procs[j].pid == g.procs[i].pid;
  }

  lemma UndecidedTies(policy: Policy, a: seq<Record>)
    requires ValidPolicy(policy) && Blindness.Heuristic(policy) && Workload(a) && DistinctPids(a)
    requires !Fcfs.FirstCharsDecide(a)
    ensures !Determined(policy, a)
  {
    var i, j :| 0 <= i < j < |a| && a[i].arrival == a[j].arrival
      && a[i].pid != a[j].pid && FirstChar(a[i].pid) == FirstChar(a[j].pid);
    var b := Fcfs.Swapped(a, i, j);
    SwappedRunsOtherwise(policy, a, i, j);
    assert SameProcesses(a, b);
    hide Final, Workload, SameOutcome, Fcfs.Swapped, DistinctPids, SameProcesses, Fcfs.FirstCharsDecide;
  }

  /** The outcome of a workload is independent of its input order and of the order the sort leaves among
      ties exactly if the policy chooses by burst or the first characters of the PIDs decide the ties. */
  lemma DeterminedExactlyWhen(policy: Policy, a: seq<Record>)
    requires ValidPolicy(policy) && Workload(a) && DistinctPids(a)
    ensures Determined(policy, a) <==> ByBurst(policy) || Fcfs.FirstCharsDecide(a)
  {
    if ByBurst(policy) {
      forall b | Workload(b) && SameProcesses(a, b) ensures SameOutcome(Final(policy, a), Final(policy, b)) {
        OrderDoesNotMatter(policy, a, b, 0);
      }
    } else if Fcfs.FirstCharsDecide(a) {
      forall b | Workload(b) && SameProcesses(a, b) ensures SameOutcome(Final(policy, a), Final(policy, b)) {
        SortedIsUnique(a, b);
        SameAsItself(policy, a);
      }
    } else {
      UndecidedTies(policy, a);
    }
    hide Final, Run, Workload, SameOutcome, SameProcesses, DistinctPids, Fcfs.FirstCharsDecide;
  }
}
