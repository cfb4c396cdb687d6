/** First come, first served: the tick-by-tick simulation computes a closed recurrence, and "first"
    among simultaneous arrivals means only as much as the one-character comparator says. */
module Fcfs {
  import opened Basics
  import opened Processes
  import opened Model
  import opened Engine
  import opened Runs
  import opened Scanning

  /** The time from which the CPU is free for the i-th process, and the time it starts. */
  function FreeAt(procs: seq<Record>, i: nat): int
    requires i <= |procs|
    decreases i, 0
  {
    if i == 0 then 0 else StartOf(procs, i - 1) + Max(1, procs[i - 1].burst)
  }

  function StartOf(procs: seq<Record>, i: nat): int
    requires i < |procs|
    decreases i, 1
  {
    Max(procs[i].arrival, FreeAt(procs, i))
  }

  // ---------- one step ----------

  /** The tick goes to the running process while it has work left, and then to the first process
      in the array that needs one. */
  ghost predicate ServesFirst(s: Sim, slot: Slot)
    requires Shape(s)
  {
    if Occupied(s) then slot == s.running
    else slot.Some? ==> slot.value < |s.procs| && forall i :: 0 <= i < slot.value ==> Left(s.procs[i]) == 0
  }

  lemma FcfsStep(s: Sim)
    requires Inv(s) && !Done(s) && s.policy.FCFS? && Complete(s).completed != |s.procs|
    ensures ServesFirst(s, LastSlot(Step(s)))
  {
    assert Shape(s);
    hide *;
    StepKeeps(s);
    ScanningStep(s);
    FirstIsServed(s, Step(s), LastSlot(Step(s)));
  }

  /** Whoever still needs a tick and has arrived is READY for the dispatcher, unless he runs. */
  lemma DueIsPresent(s: Sim, i: nat)
    requires Inv(s) && i < |s.procs| && s.procs[i].arrival <= s.now && 0 < Left(s.procs[i]) && !Occupied(s)
    ensures Present(s)[i].phase.Ready?
  {
    assert ProcOk(s.procs[i], i, s.next, s.running);
    hide HooksHold;
  }

  lemma SortedPresent(s: Sim)
    requires Inv(s)
    ensures forall i, j :: 0 <= i < j < |s.procs| ==> Present(s)[i].arrival <= Present(s)[j].arrival
  {
    hide HooksHold;
  }

  lemma FirstIsServed(s: Sim, r: Sim, slot: Slot)
    requires Inv(s) && s.policy.FCFS? && ScanEffect(s, r, slot) && Ticked(s, r, slot)
    ensures ServesFirst(s, slot)
  {
    if !Occupied(s) && slot.Some? {
      SortedPresent(s);
      ScanIsFirst(Present(s), |s.procs|);
      forall i: nat | i < slot.value ensures Left(s.procs[i]) == 0 {
        LeftNatural(s, i);
        if 0 < Left(s.procs[i]) { DueIsPresent(s, i); }
        hide Present, Scan, Occupied, Inv, Ticked, Left;
      }
    }
    hide HooksHold, Present, Scan;
  }

  lemma LeftNatural(s: Sim, i: nat)
    requires Inv(s) && i < |s.procs|
    ensures 0 <= Left(s.procs[i])
    ensures forall j :: i < j < |s.procs| ==> s.procs[i].arrival <= s.procs[j].arrival
  {
    assert ProcOk(s.procs[i], i, s.next, s.running);
    hide HooksHold;
  }

  // ---------- the recurrence ----------

  /** The first k processes start and finish when the recurrence says, and nobody else has started. */
  ghost predicate OnTime(procs: seq<Record>, p: Record, i: nat, k: nat, now: int)
    requires i < |procs|
  {
    && SameInputs(p, procs[i])
    && if k <= i then p.start == -1 && p.remaining == p.burst && !p.phase.Finished? && !p.phase.Running?
       else
         && p.start == StartOf(procs, i)
         && if p.phase.Finished? then p.finish == p.start + p.burst
            else p.phase.Running? && i == k - 1 && 0 < p.burst && now == p.start + p.burst - p.remaining
  }

  ghost predicate Served(procs: seq<Record>, s: Sim, k: nat) {
    && k <= |procs| == |s.procs|
    && (forall i :: 0 <= i < |procs| ==> OnTime(procs, s.procs[i], i, k, s.now))
    && ((forall i :: 0 <= i < k ==> s.procs[i].phase.Finished?) ==>
          FreeAt(procs, k) <= s.now && (k < |procs| ==> s.now <= StartOf(procs, k)))
  }

  /** The tick goes to the last process started or starts the next one, on time. */
  ghost predicate SlotFits(procs: seq<Record>, s: Sim, slot: Slot, k: nat)
    requires k <= |procs| == |s.procs|
  {
    match slot
    case None => (k < |procs| ==> s.now < procs[k].arrival) && forall i :: 0 <= i < k ==> Left(s.procs[i]) == 0
    case Some(j) =>
      if j == k then k < |procs| && s.now == StartOf(procs, k) && forall i :: 0 <= i < k ==> Left(s.procs[i]) == 0
      else 0 < k && j == k - 1 && s.procs[j].phase.Running? && 0 < s.procs[j].remaining
  }

  lemma NotStarted(procs: seq<Record>, s: Sim, k: nat)
    requires Inv(s) && Served(procs, s, k)
    ensures k < |procs| ==> 0 < Left(s.procs[k])
    ensures forall i :: 0 <= i < k && 0 < Left(s.procs[i]) ==> i == k - 1 && s.running == Some(i) && 0 < s.procs[i].remaining
    ensures forall i :: 0 <= i < |procs| ==> s.procs[i].arrival == procs[i].arrival
  {
    hide HooksHold, Shape, StartOf, FreeAt;
    forall i: nat | i < |procs|
      ensures k == i ==> 0 < Left(s.procs[k])
      ensures i < k && 0 < Left(s.procs[i]) ==> i == k - 1 && s.running == Some(i) && 0 < s.procs[i].remaining
      ensures s.procs[i].arrival == procs[i].arrival
    {
      assert ProcOk(s.procs[i], i, s.next, s.running) && OnTime(procs, s.procs[i], i, k, s.now);
    }
  }

  lemma SlotIsLastOrNext(procs: seq<Record>, s: Sim, r: Sim, slot: Slot, k: nat)
    requires Workload(procs) && Inv(s) && Served(procs, s, k) && Ticked(s, r, slot) && ServesFirst(s, slot)
    ensures SlotFits(procs, s, slot, k)
  {
    hide HooksHold, Advance, StartOf, FreeAt;
    NotStarted(procs, s, k);
    assert forall i :: 0 <= i < k && s.procs[i].phase.Running? ==> s.running == Some(i);
    if slot.Some? {
      assert ProcOk(s.procs[slot.value], slot.value, s.next, s.running);
      if Occupied(s) {
        assert ProcOk(s.procs[s.running.value], s.running.value, s.next, s.running);
      } else {
        assert slot == Some(k);
        CpuFreed(procs, s, k);
        FreeAfter(procs, k);
      }
    }
  }

  lemma FreeAfter(procs: seq<Record>, k: nat)
    requires k <= |procs|
    ensures FreeAt(procs, k) == if k == 0 then 0 else StartOf(procs, k - 1) + Max(1, procs[k - 1].burst)
    ensures k < |procs| ==> StartOf(procs, k) == Max(procs[k].arrival, FreeAt(procs, k))
  {
  }

  /** Once all that have been started are through, the next one can start from now on. */
  lemma CpuFreed(procs: seq<Record>, s: Sim, k: nat)
    requires Served(procs, s, k)
    requires forall i :: 0 <= i < k && s.procs[i].phase.Running? ==> s.procs[i].remaining == 0
    ensures FreeAt(procs, k) <= s.now && (k < |procs| ==> s.now <= StartOf(procs, k))
  {
    hide StartOf, FreeAt, SameInputs;
    if k > 0 && s.procs[k - 1].phase.Running? {
      LastThrough(procs, s, k);
    } else {
      forall i: nat | i < k ensures s.procs[i].phase.Finished? {
        FinishedOrLast(procs, s, k, i);
        hide *;
      }
      hide OnTime;
    }
  }

  lemma LastThrough(procs: seq<Record>, s: Sim, k: nat)
    requires Served(procs, s, k) && 0 < k && s.procs[k - 1].phase.Running? && s.procs[k - 1].remaining == 0
    ensures FreeAt(procs, k) == s.now && (k < |procs| ==> s.now <= StartOf(procs, k))
  {
    FreeAfter(procs, k);
    assert OnTime(procs, s.procs[k - 1], k - 1, k, s.now);
    hide Served, StartOf, FreeAt;
  }

  lemma FinishedOrLast(procs: seq<Record>, s: Sim, k: nat, i: nat)
    requires Served(procs, s, k) && i < k
    ensures s.procs[i].phase.Finished? || (i == k - 1 && s.procs[i].phase.Running?)
  {
    assert OnTime(procs, s.procs[i], i, k, s.now);
  }

  lemma OneServed(procs: seq<Record>, s: Sim, slot: Slot, k: nat, i: nat, r: Record)
    requires Inv(s) && Served(procs, s, k) && SlotFits(procs, s, slot, k) && i < |procs|
    requires SameCore(r, Advance(s.procs[i], s.now, slot == Some(i)))
    ensures OnTime(procs, r, i, if slot == Some(k) then k + 1 else k, s.now + 1)
  {
    hide HooksHold, StartOf, FreeAt, Shape;
    assert ProcOk(s.procs[i], i, s.next, s.running);
    assert OnTime(procs, s.procs[i], i, k, s.now);
  }

  lemma CpuIsFree(procs: seq<Record>, s: Sim, slot: Slot, k: nat)
    requires Inv(s) && Served(procs, s, k) && SlotFits(procs, s, slot, k)
    requires slot.Some? ==> slot.value < |s.procs|
    ensures var k' := if slot == Some(k) then k + 1 else k;
      (forall i :: 0 <= i < k' ==> Advance(s.procs[i], s.now, slot == Some(i)).phase.Finished?) ==>
        FreeAt(procs, k') <= s.now + 1 && (k' < |procs| ==> s.now + 1 <= StartOf(procs, k'))
  {
    var k' := if slot == Some(k) then k + 1 else k;
    FreeAfter(procs, k');
    hide HooksHold, Shape, StartOf, FreeAt;
    if slot.Some? {
      assert ProcOk(s.procs[slot.value], slot.value, s.next, s.running);
      assert Advance(s.procs[slot.value], s.now, true).phase.Finished? ==> slot == Some(k) && procs[k].burst == 0;
    } else {
      FreeAfter(procs, k);
      CpuFreed(procs, s, k);
    }
  }

  lemma ServedOverTick(procs: seq<Record>, s: Sim, r: Sim, slot: Slot, k: nat) returns (k': nat)
    requires Workload(procs) && Inv(s) && Served(procs, s, k) && Ticked(s, r, slot) && ServesFirst(s, slot)
    ensures Served(procs, r, k')
  {
    k' := if slot == Some(k) then k + 1 else k;
    SlotIsLastOrNext(procs, s, r, slot, k);
    forall i: nat | i < |procs| ensures OnTime(procs, r.procs[i], i, k', r.now) {
      OneServed(procs, s, slot, k, i, r.procs[i]);
    }
    CpuIsFree(procs, s, slot, k);
    assert forall i: nat :: i < |procs| ==> r.procs[i].phase == Advance(s.procs[i], s.now, slot == Some(i)).phase;
    hide HooksHold, Advance, Inv, StartOf, FreeAt, OnTime;
  }

  lemma ServedAtStart(policy: Policy, procs: seq<Record>)
    requires ValidPolicy(policy) && Workload(procs)
    ensures Served(procs, Initial(policy, procs), 0)
  {
  }

  lemma ServedAtEnd(procs: seq<Record>, s: Sim, r: Sim, k: nat)
    requires Workload(procs) && Inv(s) && Inv(r) && Ended(s, r) && Completes(s, r) && Served(procs, s, k)
    ensures Served(procs, r, k)
  {
    hide HooksHold, Shape, StartOf, FreeAt;
    NotStarted(procs, s, k);
    assert k == |procs|;
    assert forall i :: 0 <= i < k ==> ProcOk(s.procs[i], i, s.next, s.running);
    CpuFreed(procs, s, k);
  }

  lemma ServedOverIteration(procs: seq<Record>, s: Sim, k: nat) returns (k': nat)
    requires Workload(procs) && Inv(s) && !Done(s) && s.policy.FCFS? && Served(procs, s, k)
    ensures Served(procs, Step(s), k')
  {
    StepKeeps(s);
    if Complete(s).completed == |s.procs| {
      CompleteKeeps(s);
      LastStepEnds(s);
      k' := k;
      hide Step, Complete, Inv, Served, Completes, Ended;
      ServedAtEnd(procs, s, Step(s), k);
    } else {
      hide Step, Complete, Inv, Served, Ticked, ServesFirst;
      FcfsStep(s);
      k' := ServedOverTick(procs, s, Step(s), LastSlot(Step(s)), k);
    }
  }

  lemma {:induction false} FcfsRun(procs: seq<Record>, k: nat) returns (served: nat)
    requires ValidPolicy(FCFS) && Workload(procs)
    ensures Served(procs, Run(FCFS, procs, k), served)
  {
    hide *;
    if k == 0 {
      ServedAtStart(FCFS, procs);
      RunStep(FCFS, procs, 0);
      served := 0;
    } else {
      served := FcfsRun(procs, k - 1);
      RunHolds(FCFS, procs, k - 1);
      RunStep(FCFS, procs, k - 1);
      if !Done(Run(FCFS, procs, k - 1)) { served := ServedOverIteration(procs, Run(FCFS, procs, k - 1), served); }
    }
  }

  /** The simulated FCFS times are the closed recurrence: each process starts when it has arrived and
      its predecessor is through, and runs to its end; a process without work holds the CPU for a tick. */
  lemma FcfsRecurrence(procs: seq<Record>, i: nat)
    requires Workload(procs) && i < |procs|
    ensures var p := Final(FCFS, procs).procs[i];
      && p.start == Max(procs[i].arrival, if i == 0 then 0 else FreeAt(procs, i))
      && p.finish == p.start + procs[i].burst
      && FreeAt(procs, i + 1) == p.start + Max(1, procs[i].burst)
  {
    assert ValidPolicy(FCFS);
    hide Final, Run, Workload, Served, FreeAt, StartOf;
    var k := FcfsRun(procs, RunLength(procs));
    FinalRun(FCFS, procs);
    EveryRunEnds(FCFS, procs);
    AllServed(procs, Final(FCFS, procs), k, i);
  }

  lemma AllServed(procs: seq<Record>, f: Sim, k: nat, i: nat)
    requires Served(procs, f, k) && i < |procs| && (forall j :: 0 <= j < |procs| ==> f.procs[j].phase.Finished?)
    ensures var p := f.procs[i];
      && p.start == Max(procs[i].arrival, if i == 0 then 0 else FreeAt(procs, i))
      && p.finish == p.start + procs[i].burst
      && FreeAt(procs, i + 1) == p.start + Max(1, procs[i].burst)
  {
    assert OnTime(procs, f.procs[i], i, k, f.now);
  }

  lemma {:induction false} FreeAtGrows(procs: seq<Record>, i: nat, j: nat)
    requires i < j <= |procs|
    ensures StartOf(procs, i) + Max(1, procs[i].burst) <= FreeAt(procs, j)
    decreases j
  {
    FreeAfter(procs, j);
    if i < j - 1 { FreeAtGrows(procs, i, j - 1); }
    hide FreeAt;
  }

  /** FCFS serves in array order: an earlier entry is through before a later one starts. */
  lemma FcfsServesInArrayOrder(procs: seq<Record>, i: nat, j: nat)
    requires Workload(procs) && i < j < |procs|
    ensures var f := Final(FCFS, procs);
      f.procs[i].start + Max(1, procs[i].burst) <= f.procs[j].start
  {
    FcfsRecurrence(procs, i);
    FcfsRecurrence(procs, j);
    FreeAtGrows(procs, i, j);
    FreeAfter(procs, i);
    hide Final, FreeAt;
  }

  // ---------- the comparator ----------

  /** The comparator looks at arrival times and then at the first characters. */
  lemma ComparatorMeans(a: Record, b: Record)
    requires a.pid != "" && b.pid != ""
    ensures CompareArrival(a, b) < 0 <==> a.arrival < b.arrival || (a.arrival == b.arrival && a.pid[0] < b.pid[0])
    ensures CompareArrival(a, b) == 0 <==> a.arrival == b.arrival && a.pid[0] == b.pid[0]
  {
  }

  /** The program's PIDs do not begin with the terminator. */
  ghost predicate IsText(pid: string) {
    pid == "" || pid[0] != '\0'
  }

  /** Ties in a sorted workload are in the order of the first characters. */
  lemma TiesByFirstChar(procs: seq<Record>, i: nat, j: nat)
    requires Workload(procs) && i < j < |procs| && procs[i].pid != "" && procs[j].pid != ""
    ensures procs[i].arrival <= procs[j].arrival
    ensures procs[i].arrival == procs[j].arrival ==> procs[i].pid[0] <= procs[j].pid[0]
  {
    assert CompareArrival(procs[i], procs[j]) <= 0;
    hide Workload, CompareArrival;
    ComparatorMeans(procs[i], procs[j]);
  }

  /** An empty PID comes before any other that arrives together with it. */
  lemma EmptyPidFirst(a: Record, b: Record)
    requires a.arrival == b.arrival && a.pid == "" && IsText(b.pid)
    ensures b.pid == "" ==> CompareArrival(a, b) == 0
    ensures b.pid != "" ==> CompareArrival(a, b) < 0 < CompareArrival(b, a)
  {
    assert b.pid != "" ==> b.pid[0] as int != 0;
  }

  /** The order of the sorted array: by arrival, and among those that arrive together the empty PIDs first and
      then by first character. */
  ghost predicate InOrderOfFirstChars(procs: seq<Record>) {
    forall i, j :: 0 <= i < j < |procs| ==>
      && procs[i].arrival <= procs[j].arrival
      && (procs[i].arrival == procs[j].arrival && procs[i].pid != "" ==>
            procs[j].pid != "" && procs[i].pid[0] <= procs[j].pid[0])
  }

  lemma SortedMeans(procs: seq<Record>)
    requires forall i :: 0 <= i < |procs| ==> IsText(procs[i].pid)
    ensures SortedByArrival(procs) <==> InOrderOfFirstChars(procs)
  {
    forall i, j | 0 <= i < j < |procs|
      ensures CompareArrival(procs[i], procs[j]) <= 0 <==>
        && procs[i].arrival <= procs[j].arrival
        && (procs[i].arrival == procs[j].arrival && procs[i].pid != "" ==>
              procs[j].pid != "" && procs[i].pid[0] <= procs[j].pid[0])
    {
      CompareMeans(procs[i], procs[j]);
    }
    hide CompareArrival;
  }

  lemma CompareMeans(a: Record, b: Record)
    requires IsText(a.pid) && IsText(b.pid)
    ensures CompareArrival(a, b) <= 0 <==>
      && a.arrival <= b.arrival
      && (a.arrival == b.arrival && a.pid != "" ==> b.pid != "" && a.pid[0] <= b.pid[0])
  {
    if a.pid != "" && b.pid != "" {
      ComparatorMeans(a, b);
    } else if a.pid != "" {
      if a.arrival == b.arrival { EmptyPidFirst(b, a); }
    } else {
      if a.arrival == b.arrival { EmptyPidFirst(a, b); }
    }
  }

  // ---------- ties in the process array ----------

  /** Processes that arrive together stand in alphabetical order of their PIDs. */
  ghost predicate AlphabeticalTies(procs: seq<Record>) {
    forall i, j :: 0 <= i < j < |procs| && procs[i].arrival == procs[j].arrival ==>
      !PidLess(procs[j].pid, procs[i].pid)
  }

  /** The one character the comparator looks at tells apart all PIDs that arrive together. */
  ghost predicate FirstCharsDecide(procs: seq<Record>) {
    forall i, j :: 0 <= i < j < |procs| && procs[i].arrival == procs[j].arrival && procs[i].pid != procs[j].pid ==>
      FirstChar(procs[i].pid) != FirstChar(procs[j].pid)
  }

  /** In terms of the characters. */
  lemma DecisionMeans(procs: seq<Record>)
    requires forall i :: 0 <= i < |procs| ==> IsText(procs[i].pid)
    ensures FirstCharsDecide(procs) <==>
      forall i, j :: 0 <= i < j < |procs| && procs[i].arrival == procs[j].arrival && procs[i].pid != procs[j].pid ==>
        procs[i].pid == "" || procs[j].pid == "" || procs[i].pid[0] != procs[j].pid[0]
  {
    forall i, j | 0 <= i < j < |procs| && procs[i].arrival == procs[j].arrival && procs[i].pid != procs[j].pid
      ensures FirstChar(procs[i].pid) != FirstChar(procs[j].pid) <==>
        procs[i].pid == "" || procs[j].pid == "" || procs[i].pid[0] != procs[j].pid[0]
    {
      SameFirstChar(procs[i].pid, procs[j].pid);
    }
    hide FirstChar;
  }

  lemma SameFirstChar(a: string, b: string)
    requires IsText(a) && IsText(b) && a != b
    ensures FirstChar(a) != FirstChar(b) <==> a == "" || b == "" || a[0] != b[0]
  {
  }

  function Swapped(procs: seq<Record>, i: nat, j: nat): (q: seq<Record>)
    requires i < j < |procs|
    ensures |q| == |procs|
    ensures multiset(q) == multiset(procs)
  {
    procs[i := procs[j]][j := procs[i]]
  }

  lemma SwappedIsSorted(procs: seq<Record>, i: nat, j: nat)
    requires Workload(procs) && i < j < |procs| && CompareArrival(procs[i], procs[j]) == 0
    ensures Workload(Swapped(procs, i, j))
  {
    var q := Swapped(procs, i, j);
    forall k, l | 0 <= k < l < |q| ensures CompareArrival(q[k], q[l]) <= 0 {
      assert CompareArrival(procs[k], procs[l]) <= 0;
      assert k < i ==> CompareArrival(procs[k], procs[i]) <= 0;
      assert i < l ==> CompareArrival(procs[i], procs[l]) <= 0;
      assert k < j ==> CompareArrival(procs[k], procs[j]) <= 0;
      assert j < l ==> CompareArrival(procs[j], procs[l]) <= 0;
      assert i < k ==> CompareArrival(procs[i], procs[k]) <= 0;
      assert l < j ==> CompareArrival(procs[l], procs[j]) <= 0;
    }
  }

  lemma FirstCharLess(a: string, b: string)
    requires FirstChar(a) < FirstChar(b)
    ensures !PidLess(b, a)
  {
  }

  lemma SameDecision(procs: seq<Record>, q: seq<Record>, x: Record, y: Record)
    requires FirstCharsDecide(procs) && multiset(q) == multiset(procs) && x in q && y in q
    requires x.arrival == y.arrival && x.pid != y.pid
    ensures FirstChar(x.pid) != FirstChar(y.pid)
  {
    assert x in multiset(q) && y in multiset(q);
    assert x in procs && y in procs;
    var i: nat :| i < |procs| && procs[i] == x;
    var j: nat :| j < |procs| && procs[j] == y;
    assert i < j || j < i;
  }

  /** Ties are alphabetical whatever the sort does exactly if the first characters decide them: for
      PIDs such as P1 and P2 the documented order is not guaranteed. */
  lemma AlphabeticalTiesExactlyWhen(procs: seq<Record>)
    requires Workload(procs)
    ensures FirstCharsDecide(procs) <==>
      forall q: seq<Record> :: Workload(q) && multiset(q) == multiset(procs) ==> AlphabeticalTies(q)
  {
    if FirstCharsDecide(procs) {
      forall q: seq<Record> | Workload(q) && multiset(q) == multiset(procs) ensures AlphabeticalTies(q) {
        forall i, j | 0 <= i < j < |q| && q[i].arrival == q[j].arrival
          ensures !PidLess(q[j].pid, q[i].pid)
        {
          assert CompareArrival(q[i], q[j]) <= 0;
          if q[i].pid != q[j].pid {
            SameDecision(procs, q, q[i], q[j]);
            FirstCharLess(q[i].pid, q[j].pid);
          } else {
            PidLessIrreflexive(q[i].pid);
          }
        }
      }
    } else {
      var i, j :| 0 <= i < j < |procs| && procs[i].arrival == procs[j].arrival
        && procs[i].pid != procs[j].pid && FirstChar(procs[i].pid) == FirstChar(procs[j].pid);
      PidLessTotal(procs[i].pid, procs[j].pid);
      SwappedIsSorted(procs, i, j);
      var q := Swapped(procs, i, j);
      if PidLess(procs[j].pid, procs[i].pid) {
        assert !AlphabeticalTies(procs);
      } else {
        assert q[i] == procs[j] && q[j] == procs[i];
        assert !AlphabeticalTies(q);
      }
    }
  }
}
