/** The three policies that choose by scanning the process array: FCFS, SJF and STCF. */
module Scanning {
  import opened Basics
  import opened Processes
  import opened Model
  import opened Engine

  predicate Scans(policy: Policy) {
    policy.FCFS? || policy.SJF? || policy.STCF?
  }

  // ---------- the order in which candidates are preferred ----------

  lemma {:induction false} PidLessTransitive(a: string, b: string, c: string)
    requires PidLess(a, b) && PidLess(b, c)
    ensures PidLess(a, c)
  {
    if a != "" && a[0] == b[0] == c[0] {
      PidLessTransitive(a[1..], b[1..], c[1..]);
    }
  }

  lemma {:induction false} PidLessIrreflexive(a: string)
    ensures !PidLess(a, a)
  {
    if a != "" { PidLessIrreflexive(a[1..]); }
  }

  lemma {:induction false} PidLessTotal(a: string, b: string)
    requires a != b
    ensures PidLess(a, b) || PidLess(b, a)
  {
    if a != "" && b != "" && a[0] == b[0] {
      assert a == [a[0]] + a[1..] && b == [b[0]] + b[1..];
      PidLessTotal(a[1..], b[1..]);
    }
  }

  /** At the first difference k the character of a is the smaller one, or a has ended. */
  ghost predicate DecidedAt(a: string, b: string, k: nat) {
    k <= |a| && k < |b| && a[..k] == b[..k] && (k == |a| || a[k] < b[k])
  }

  lemma {:induction false} FirstDifference(a: string, b: string) returns (k: nat)
    requires PidLess(a, b)
    ensures DecidedAt(a, b, k)
  {
    k := 0;
    if a != "" && a[0] == b[0] {
      var j := FirstDifference(a[1..], b[1..]);
      k := j + 1;
      assert a[..k] == [a[0]] + a[1..][..j] && b[..k] == [b[0]] + b[1..][..j];
    }
  }

  lemma {:induction false} LessAtDifference(a: string, b: string, k: nat)
    requires DecidedAt(a, b, k)
    ensures PidLess(a, b)
  {
    if k > 0 {
      assert a[0] == a[..k][0] == b[..k][0] == b[0];
      assert a[1..][..k - 1] == a[..k][1..] && b[1..][..k - 1] == b[..k][1..];
      LessAtDifference(a[1..], b[1..], k - 1);
    }
  }

  /** The order of PIDs is that of `strcmp`: character by character, and a prefix comes first. */
  lemma PidLessMeans(a: string, b: string)
    ensures PidLess(a, b) <==>
      exists k :: 0 <= k <= |a| && k < |b| && a[..k] == b[..k] && (k == |a| || a[k] < b[k])
  {
    if PidLess(a, b) {
      var k := FirstDifference(a, b);
      assert 0 <= k <= |a| && k < |b| && a[..k] == b[..k] && (k == |a| || a[k] < b[k]);
    }
    if k: nat :| k <= |a| && k < |b| && a[..k] == b[..k] && (k == |a| || a[k] < b[k]) {
      LessAtDifference(a, b, k);
    }
  }

  lemma PreferTransitive(policy: Policy, p: Record, q: Record, r: Record)
    requires Prefer(policy, p, q) && Prefer(policy, q, r)
    ensures Prefer(policy, p, r)
  {
    if PidLess(p.pid, q.pid) && PidLess(q.pid, r.pid) { PidLessTransitive(p.pid, q.pid, r.pid); }
  }

  lemma PreferIrreflexive(policy: Policy, p: Record)
    ensures !Prefer(policy, p, p)
  {
    PidLessIrreflexive(p.pid);
  }

  /** b is READY and no READY process is preferred to it. */
  ghost predicate IsBest(policy: Policy, procs: seq<Record>, b: nat) {
    && b < |procs| && procs[b].phase.Ready?
    && forall i :: 0 <= i < |procs| && procs[i].phase.Ready? ==> !Prefer(policy, procs[i], procs[b])
  }

  lemma {:induction false} ScanNoBetter(policy: Policy, procs: seq<Record>, k: nat)
    requires k <= |procs|
    ensures var best := Scan(policy, procs, k);
      best.Some? ==>
        forall i :: 0 <= i < k && procs[i].phase.Ready? ==> !Prefer(policy, procs[i], procs[best.value])
  {
    if k > 0 {
      ScanNoBetter(policy, procs, k - 1);
      var old' := Scan(policy, procs, k - 1);
      var best := Scan(policy, procs, k);
      PreferIrreflexive(policy, procs[k - 1]);
      if old'.None? {
        ScanFinds(policy, procs, k - 1);
      } else if best != old' {
        forall i | 0 <= i < k - 1 && procs[i].phase.Ready?
          ensures !Prefer(policy, procs[i], procs[k - 1])
        {
          if Prefer(policy, procs[i], procs[k - 1]) {
            PreferTransitive(policy, procs[i], procs[k - 1], procs[old'.value]);
          }
        }
      }
    }
  }

  /** The scan returns a best READY process, and nothing only if nobody is READY. */
  lemma ScanIsBest(policy: Policy, procs: seq<Record>)
    ensures var best := Scan(policy, procs, |procs|);
      if best.Some? then IsBest(policy, procs, best.value)
      else forall i :: 0 <= i < |procs| ==> !procs[i].phase.Ready?
  {
    ScanFinds(policy, procs, |procs|);
    ScanNoBetter(policy, procs, |procs|);
  }

  lemma {:induction false} FcfsScanEarliest(procs: seq<Record>, k: nat)
    requires k <= |procs|
    ensures var best := Scan(FCFS, procs, k);
      best.Some? ==> forall i :: 0 <= i < k && procs[i].phase.Ready? ==>
        && procs[best.value].arrival <= procs[i].arrival
        && (procs[best.value].arrival == procs[i].arrival ==> best.value <= i)
  {
    if k > 0 {
      FcfsScanEarliest(procs, k - 1);
      ScanFinds(FCFS, procs, k - 1);
    }
  }

  /** What the scan finds, in terms of the records: FCFS compares arrival times and then positions, SJF burst
      times and STCF remaining times, both then arrival times and then PIDs. */
  lemma ScanByKeys(policy: Policy, procs: seq<Record>, i: nat)
    requires Scans(policy) && i < |procs| && procs[i].phase.Ready?
    ensures var best := Scan(policy, procs, |procs|);
      best.Some? && procs[best.value].phase.Ready? &&
      var p, q := procs[best.value], procs[i];
      && (policy.FCFS? ==> p.arrival < q.arrival || (p.arrival == q.arrival && best.value <= i))
      && (policy.SJF? ==> p.burst <= q.burst)
      && (policy.STCF? ==> p.remaining <= q.remaining)
      && ((policy.SJF? && p.burst == q.burst) || (policy.STCF? && p.remaining == q.remaining) ==>
            && p.arrival <= q.arrival
            && (p.arrival == q.arrival ==> !PidLess(q.pid, p.pid)))
  {
    ScanIsBest(policy, procs);
    FcfsScanEarliest(procs, |procs|);
    hide Scan;
  }

  // ---------- the stages of a step under a scanning policy ----------

  /** Somebody has just arrived who is shorter than what is left of the running process. */
  ghost predicate ShorterArrives(c: Sim, upTo: nat) {
    && c.running.Some? && c.running.value < |c.procs|
    && exists i :: c.next <= i < upTo <= |c.procs| && c.procs[i].remaining < c.procs[c.running.value].remaining
  }

  /** The arrival stage under a scanning policy. */
  ghost predicate ArrivalsOf(s: Sim, a: Sim) {
    && s.next <= a.next <= |s.procs| && |a.procs| == |s.procs| && a.running == s.running
    && (forall i :: 0 <= i < |s.procs| ==> a.procs[i] == Arrived(s.procs[i], s.now))
    && (a.preempt <==> s.preempt || (s.policy.STCF? && ShorterArrives(s, a.next)))
    && a == s.(procs := a.procs, next := a.next, preempt := a.preempt)
  }

  /** ... and of one arrival. */
  ghost predicate ArrivalOf(s: Sim, b: Sim) {
    && b.next == s.next + 1 <= |s.procs| && |b.procs| == |s.procs| && b.running == s.running
    && b.procs == s.procs[s.next := Arrived(s.procs[s.next], s.now)]
    && (s.running.Some? ==> s.running.value < |s.procs| && s.running.value != s.next)
    && (b.preempt <==> s.preempt || (s.policy.STCF? && s.running.Some? &&
                                     s.procs[s.next].remaining < s.procs[s.running.value].remaining))
    && b == s.(procs := b.procs, next := b.next, preempt := b.preempt)
  }

  lemma ArriveOneScanning(s: Sim)
    requires MidStep(s) && Scans(s.policy) && s.next < |s.procs| && s.procs[s.next].arrival <= s.now
    requires s.procs[s.next].phase.NotArrived?
    ensures ArrivalOf(s, ArriveOne(s))
  {
    assert ProcOk(s.procs[s.next], s.next, s.next, s.running);
  }

  lemma OneMoreArrival(s: Sim, b: Sim, a: Sim)
    requires ArrivalOf(s, b) && ArrivalsOf(b, a)
    ensures ArrivalsOf(s, a)
  {
    assert forall i :: 0 <= i < |s.procs| ==> b.procs[i].remaining == s.procs[i].remaining;
    if s.running.Some? && ShorterArrives(s, a.next) {
      var i :| s.next <= i < a.next && s.procs[i].remaining < s.procs[s.running.value].remaining;
      assert i == s.next || b.procs[i].remaining < b.procs[s.running.value].remaining;
    }
    if s.running.Some? && ShorterArrives(b, a.next) {
      var i :| b.next <= i < a.next && b.procs[i].remaining < b.procs[s.running.value].remaining;
      assert s.procs[i].remaining < s.procs[s.running.value].remaining;
    }
  }

  lemma NoArrivals(s: Sim)
    requires MidStep(s)
    requires forall i :: 0 <= i < s.next ==> s.procs[i].arrival <= s.now
    requires !(s.next < |s.procs| && s.procs[s.next].arrival <= s.now && s.procs[s.next].phase.NotArrived?)
    ensures ArrivalsOf(s, s)
  {
    assert forall i :: 0 <= i < |s.procs| ==> ProcOk(s.procs[i], i, s.next, s.running);
    assert s.next <= |s.procs|;
    hide Shape;
  }

  lemma ScanningHooks(s: Sim)
    requires Shape(s) && Scans(s.policy)
    ensures HooksHold(s, None)
  {
  }

  lemma {:induction false} ArriveScanning(s: Sim)
    requires MidStep(s) && Scans(s.policy)
    requires forall i :: 0 <= i < s.next ==> s.procs[i].arrival <= s.now
    ensures ArrivalsOf(s, Arrive(s))
    decreases |s.procs| - s.next
  {
    assert Shape(s);
    if s.next < |s.procs| && s.procs[s.next].arrival <= s.now && s.procs[s.next].phase.NotArrived? {
      var b := ArriveOne(s);
      assert Arrive(s) == Arrive(b);
      ScanningHooks(s);
      hide ArriveOne, ArrivalsOf, MidStep, Shape, HooksHold, Arrive;
      ArriveOneKeeps(s);
      ArriveOneScanning(s);
      ArriveScanning(b);
      OneMoreArrival(s, b, Arrive(b));
    } else {
      NoArrivals(s);
      hide ArrivalsOf, MidStep;
    }
  }

  /** The process array the dispatcher scans: the running process counts as READY. */
  function Candidates(s: Sim): (procs: seq<Record>)
    requires Shape(s)
    ensures |procs| == |s.procs|
  {
    if s.running.Some? then s.procs[s.running.value := s.procs[s.running.value].(phase := Ready)] else s.procs
  }

  /** Under a scanning policy the policy tick does nothing, and the dispatcher either keeps the
      running process or takes the result of a scan. */
  lemma ScanningStages(s: Sim, c: Sim, a: Sim, t: Sim, d: Sim)
    requires Inv(s) && Stages(s, c, a, t, d) && Scans(s.policy)
    ensures Completes(s, c) && t == a && c.next <= a.next && a.running == c.running
    ensures forall i :: 0 <= i < |s.procs| ==> a.procs[i] == Arrived(Completed(s.procs[i], s.now), s.now)
    ensures a.preempt <==> s.policy.STCF? && ShorterArrives(c, a.next)
    ensures a == c.(procs := a.procs, next := a.next, preempt := a.preempt)
    ensures d.running == if a.running.Some? && !a.preempt then a.running
                         else Scan(s.policy, Candidates(a), |s.procs|)
    ensures d == a.(procs := d.procs, running := d.running, switches := d.switches, preempt := false)
    ensures d.switches == s.switches + if a.running.Some? && d.running != a.running then 1 else 0
  {
    CompleteKeeps(s);
    ArriveScanning(c);
    hide Complete, Arrive, Completed, Arrived, Ok, Inv;
  }

  // ---------- one step ----------

  /** The process array after completions and arrivals. */
  function Present(s: Sim): (procs: seq<Record>)
    ensures |procs| == |s.procs|
  {
    seq(|s.procs|, i requires 0 <= i < |s.procs| => Arrived(Completed(s.procs[i], s.now), s.now))
  }

  /** Who gets the tick, and when that counts as a context switch. */
  ghost predicate ScanEffect(s: Sim, r: Sim, slot: Slot)
    requires Shape(s)
  {
    && s.next <= r.next
    && (!Occupied(s) ==> slot == Scan(s.policy, Present(s), |s.procs|))
    && (Occupied(s) && (!s.policy.STCF? || s.next == r.next) ==> slot == s.running && r.switches == s.switches)
    && r.switches == s.switches + (if Occupied(s) && slot != s.running then 1 else 0)
  }

  lemma ScanningStep(s: Sim)
    requires Inv(s) && !Done(s) && Scans(s.policy) && Complete(s).completed != |s.procs|
    ensures ScanEffect(s, Step(s), LastSlot(Step(s)))
  {
    var c := Complete(s);
    var a := Arrive(c);
    var t := Tick(a);
    var d := Dispatch(t);
    StagesHold(s, c, a, t, d);
    ScanningStages(s, c, a, t, d);
    ExecuteStage(s, c, a, t, d);
    RunningAfter(s, c, a, t, d);
    assert Shape(s);
    ScanEffectHolds(s, c, a, d, Execute(d));
    hide Complete, Arrive, Tick, Dispatch, Execute, HooksHold, Inv, Scan, Candidates, Shape, ScanEffect, Ok, MidStep, Executed;
  }

  lemma ScanEffectHolds(s: Sim, c: Sim, a: Sim, d: Sim, e: Sim)
    requires Shape(s) && Completes(s, c) && Arrives(c, a) && Ticked(s, e, d.running)
    requires a.preempt <==> s.policy.STCF? && ShorterArrives(c, a.next)
    requires d.running == if a.running.Some? && !a.preempt then a.running else Scan(s.policy, Candidates(a), |s.procs|)
    requires forall i :: 0 <= i < |s.procs| ==> a.procs[i] == Arrived(Completed(s.procs[i], s.now), s.now)
    requires d.switches == s.switches + if a.running.Some? && d.running != a.running then 1 else 0
    requires e.next == d.next == a.next && e.switches == d.switches
    ensures ScanEffect(s, e, LastSlot(e))
  {
    if !Occupied(s) {
      assert a.running.None? && Candidates(a) == Present(s);
    }
    hide HooksHold, Arrived, Advance, Scan;
  }

  // ---------- who gets the tick ----------

  /** The process array as the dispatcher of this step scans it: after completions and arrivals, and with
      a running process that is not through counting as READY. */
  function Contenders(s: Sim): (procs: seq<Record>)
    ensures |procs| == |s.procs|
  {
    seq(|s.procs|, i requires 0 <= i < |s.procs| =>
      var p := Arrived(Completed(s.procs[i], s.now), s.now);
      if p.phase.Running? then p.(phase := Ready) else p)
  }

  lemma CandidatesAreContenders(s: Sim, a: Sim)
    requires Shape(a) && Ok(a) && |a.procs| == |s.procs|
    requires forall i :: 0 <= i < |s.procs| ==> a.procs[i] == Arrived(Completed(s.procs[i], s.now), s.now)
    ensures Candidates(a) == Contenders(s)
  {
    assert forall i :: 0 <= i < |a.procs| ==> ProcOk(a.procs[i], i, a.next, a.running);
    hide Shape, Arrived, Completed;
  }

  /** A tick under a scanning policy goes to the running process, if it has work left, or to the scan. */
  lemma ScanOrStay(s: Sim)
    requires Inv(s) && !Done(s) && Scans(s.policy) && Complete(s).completed != |s.procs|
    ensures var slot := LastSlot(Step(s));
      (Occupied(s) && slot == s.running) || slot == Scan(s.policy, Contenders(s), |s.procs|)
  {
    var c := Complete(s);
    var a := Arrive(c);
    var t := Tick(a);
    var d := Dispatch(t);
    assert Stages(s, c, a, t, d) && Step(s) == Execute(d) && Shape(s) && Shape(a) && |a.procs| == |s.procs|;
    hide *;
    StagesHold(s, c, a, t, d);
    ScanningStages(s, c, a, t, d);
    ExecuteStage(s, c, a, t, d);
    SlotIsLast(s, Execute(d), d.running);
    MidStepOk(c, a);
    CandidatesAreContenders(s, a);
    StillOccupied(s, c);
  }

  lemma MidStepOk(c: Sim, a: Sim)
    requires Arrives(c, a)
    ensures Ok(a)
  {
    hide Ok, HooksHold;
  }

  lemma StillOccupied(s: Sim, c: Sim)
    requires Shape(s) && Completes(s, c)
    ensures c.running.Some? ==> Occupied(s) && c.running == s.running
  {
    hide HooksHold, Ok;
  }

  /** Whoever has arrived and is not through competes for the tick, with his own keys. */
  lemma DueContends(s: Sim, i: nat)
    requires Inv(s) && i < |s.procs| && s.procs[i].arrival <= s.now && 0 < Left(s.procs[i])
    ensures var p := Contenders(s)[i];
      && p.phase.Ready? && p.pid == s.procs[i].pid && p.arrival == s.procs[i].arrival
      && p.burst == s.procs[i].burst && p.remaining == s.procs[i].remaining
  {
    assert ProcOk(s.procs[i], i, s.next, s.running);
    hide HooksHold, Shape;
  }

  // ---------- FCFS takes the first READY process ----------

  /** Because the array is sorted by arrival, the FCFS scan returns the first READY entry. */
  lemma {:induction false} ScanIsFirst(procs: seq<Record>, k: nat)
    requires k <= |procs|
    requires forall i, j :: 0 <= i < j < |procs| ==> procs[i].arrival <= procs[j].arrival
    ensures var best := Scan(FCFS, procs, k);
      best.Some? ==> forall i :: 0 <= i < best.value ==> !procs[i].phase.Ready?
  {
    if k > 0 {
      ScanIsFirst(procs, k - 1);
      ScanFinds(FCFS, procs, k - 1);
    }
  }
}
