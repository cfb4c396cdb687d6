/** One-CPU schedules of a set of jobs, independent of any policy: what every work-conserving
    schedule has in common, and why giving the CPU to the job with the least work left is optimal. */
module Schedules {
  import opened Basics

  datatype Job = Job(arrival: int, work: nat)

  type Slot = Option<nat>

  /** Work left after one tick. */
  function Serve(w: seq<int>, slot: Slot): (r: seq<int>)
    ensures |r| == |w|
  {
    if slot.Some? && slot.value < |w| && w[slot.value] > 0
    then w[slot.value := w[slot.value] - 1] else w
  }

  /** Work left after the first t ticks of a plan (beyond its end the CPU idles). */
  function WorkLeft(jobs: seq<Job>, plan: seq<Slot>, t: nat): (w: seq<int>)
    ensures |w| == |jobs|
    ensures forall i :: 0 <= i < |w| ==> 0 <= w[i] <= jobs[i].work
  {
    if t == 0 then seq(|jobs|, i requires 0 <= i < |jobs| => jobs[i].work)
    else if t > |plan| then WorkLeft(jobs, plan, t - 1)
    else Serve(WorkLeft(jobs, plan, t - 1), plan[t - 1])
  }

  /** Job i is in the system at time t: it has arrived and is not finished. */
  predicate Pending(jobs: seq<Job>, plan: seq<Slot>, t: nat, i: nat)
    requires i < |jobs|
  {
    jobs[i].arrival <= t && 0 < WorkLeft(jobs, plan, t)[i]
  }

  ghost function PendingSet(jobs: seq<Job>, plan: seq<Slot>, t: nat): set<nat> {
    set i: nat | i < |jobs| && Pending(jobs, plan, t, i)
  }

  /** The CPU is only ever given to a pending job. */
  ghost predicate Legal(jobs: seq<Job>, plan: seq<Slot>) {
    forall t: nat :: t < |plan| && plan[t].Some? ==>
      plan[t].value < |jobs| && Pending(jobs, plan, t, plan[t].value)
  }

  /** ... and idles only when no job is pending. */
  ghost predicate WorkConserving(jobs: seq<Job>, plan: seq<Slot>) {
    && Legal(jobs, plan)
    && forall t: nat, i: nat :: t < |plan| && i < |jobs| && plan[t].None? ==> !Pending(jobs, plan, t, i)
  }

  /** ... and goes to a pending job with the least work left. */
  ghost predicate ShortestFirst(jobs: seq<Job>, plan: seq<Slot>) {
    && WorkConserving(jobs, plan)
    && forall t: nat, i: nat :: t < |plan| && plan[t].Some? && i < |jobs| && Pending(jobs, plan, t, i) ==>
         WorkLeft(jobs, plan, t)[plan[t].value] <= WorkLeft(jobs, plan, t)[i]
  }

  /** Every job is finished at the end of the plan. */
  ghost predicate Finishes(jobs: seq<Job>, plan: seq<Slot>) {
    forall i :: 0 <= i < |jobs| ==> WorkLeft(jobs, plan, |plan|)[i] == 0
  }

  // ---------- dominance ----------

  /** The jobs that have arrived by time t, with their work left; the others count as 0. */
  function Visible(jobs: seq<Job>, t: int, w: seq<int>): (v: seq<int>)
    requires |w| == |jobs|
    ensures |v| == |jobs|
    ensures forall i :: 0 <= i < |v| ==> v[i] == if jobs[i].arrival <= t then w[i] else 0
  {
    seq(|jobs|, i requires 0 <= i < |jobs| => if jobs[i].arrival <= t then w[i] else 0)
  }

  ghost function Without(v: seq<int>, s: set<nat>): (r: seq<int>)
    ensures |r| == |v|
    ensures forall i: nat :: i < |v| ==> r[i] == if i in s then 0 else v[i]
  {
    seq(|v|, i requires 0 <= i < |v| => if i in s then 0 else v[i])
  }

  /** Work that remains when the jobs in s are disregarded. */
  ghost function Rest(v: seq<int>, s: set<nat>): int {
    Sum(Without(v, s))
  }

  /** For any k: disregarding the best k jobs, x has no more work left than y. In terms of work
      sorted in descending order this says that every tail sum of x is at most that of y. */
  ghost predicate Dominates(x: seq<int>, y: seq<int>) {
    forall s: set<nat> :: Covered(x, y, s)
  }

  ghost predicate Covered(x: seq<int>, y: seq<int>, s: set<nat>) {
    exists s': set<nat> :: |s'| <= |s| && Rest(x, s') <= Rest(y, s)
  }

  ghost predicate Natural(v: seq<int>) {
    forall i :: 0 <= i < |v| ==> 0 <= v[i]
  }

  /** Serving a job outside s removes one unit from the rest. */
  lemma RestServed(v: seq<int>, s: set<nat>, j: nat)
    requires j < |v| && 0 < v[j]
    ensures Rest(Serve(v, Some(j)), s) == Rest(v, s) - if j in s then 0 else 1
  {
    if j in s {
      assert Without(Serve(v, Some(j)), s) == Without(v, s);
    } else {
      assert Without(Serve(v, Some(j)), s) == Without(v, s)[j := v[j] - 1];
      SumUpdate(Without(v, s), j, v[j] - 1);
    }
  }

  /** Exchanging a disregarded job for one that is no smaller. */
  lemma RestExchange(v: seq<int>, s: set<nat>, m: nat, i: nat)
    requires m < |v| && i < |v| && m in s && i !in s && v[m] <= v[i]
    ensures |s - {m} + {i}| == |s|
    ensures Rest(v, s - {m} + {i}) <= Rest(v, s)
  {
    var a := Without(v, s);
    assert Without(v, s - {m} + {i}) == a[i := 0][m := v[m]];
    SumUpdate(a, i, 0);
    SumUpdate(a[i := 0], m, v[m]);
  }

  lemma RestOfNothing(v: seq<int>, s: set<nat>)
    requires forall i: nat :: i < |v| && i !in s ==> v[i] == 0
    ensures Rest(v, s) == 0
  {
    SumOfZeros(Without(v, s));
  }

  lemma RestNatural(v: seq<int>, s: set<nat>)
    requires Natural(v)
    ensures 0 <= Rest(v, s)
    ensures Rest(v, s) == 0 ==> forall i: nat :: i < |v| && i !in s ==> v[i] == 0
  {
    SumBounds(Without(v, s));
    assert forall i: nat :: i < |v| && i !in s ==> v[i] == Without(v, s)[i];
  }

  /** j is a positive entry of v that is as small as any other. */
  ghost predicate Smallest(v: seq<int>, j: nat) {
    j < |v| && 0 < v[j] && forall i :: 0 <= i < |v| && 0 < v[i] ==> v[j] <= v[i]
  }

  /** One tick: x serves its smallest job (if it has any), y serves any job or none. */
  lemma DominanceOverTick(x: seq<int>, y: seq<int>, sx: Slot, sy: Slot)
    requires |x| == |y| && Natural(x) && Natural(y) && Dominates(x, y)
    requires if sx.Some? then Smallest(x, sx.value) else forall i :: 0 <= i < |x| ==> x[i] == 0
    requires sy.Some? ==> sy.value < |y| && 0 < y[sy.value]
    ensures Dominates(Serve(x, sx), Serve(y, sy))
  {
    forall s: set<nat> ensures Covered(Serve(x, sx), Serve(y, sy), s) {
      assert Covered(x, y, s);
      var s': set<nat> :| |s'| <= |s| && Rest(x, s') <= Rest(y, s);
      if sx.Some? {
        ServedWitness(x, y, sx.value, sy, s, s');
      } else {
        RestOfNothing(x, s');
        RestNatural(Serve(y, sy), s);
        assert |s'| <= |s| && Rest(Serve(x, sx), s') <= Rest(Serve(y, sy), s);
      }
    }
  }

  lemma ServedWitness(x: seq<int>, y: seq<int>, m: nat, sy: Slot, s: set<nat>, s': set<nat>)
    requires |x| == |y| && Natural(x) && Natural(y) && Smallest(x, m)
    requires sy.Some? ==> sy.value < |y| && 0 < y[sy.value]
    requires |s'| <= |s| && Rest(x, s') <= Rest(y, s)
    ensures Covered(Serve(x, Some(m)), Serve(y, sy), s)
  {
    hide Rest, Covered;
    if sy.Some? { RestServed(y, s, sy.value); }
    RestServed(x, s', m);
    if m !in s' {
      CoveredBy(Serve(x, Some(m)), Serve(y, sy), s, s');
    } else if i: nat :| i < |x| && i !in s' && 0 < x[i] {
      var r := s' - {m} + {i};
      RestExchange(x, s', m, i);
      RestServed(x, r, m);
      CoveredBy(Serve(x, Some(m)), Serve(y, sy), s, r);
    } else {
      RestOfNothing(Serve(x, Some(m)), s');
      RestNatural(Serve(y, sy), s);
      CoveredBy(Serve(x, Some(m)), Serve(y, sy), s, s');
    }
  }

  lemma CoveredBy(x: seq<int>, y: seq<int>, s: set<nat>, r: set<nat>)
    requires |r| <= |s| && Rest(x, r) <= Rest(y, s)
    ensures Covered(x, y, s)
  {
  }

  /** Arrivals: jobs that counted 0 in both get the same work in both. */
  lemma DominanceOverArrivals(x: seq<int>, y: seq<int>, x': seq<int>, y': seq<int>)
    requires |x| == |y| == |x'| == |y'| && Natural(x') && Dominates(x, y)
    requires forall i :: 0 <= i < |x| ==> (x'[i] == x[i] && y'[i] == y[i]) || (x[i] == 0 == y[i] && x'[i] == y'[i])
    ensures Dominates(x', y')
  {
    forall s: set<nat> ensures Covered(x', y', s) {
      var came := set i: nat | i in s && i < |x| && !(x'[i] == x[i] && y'[i] == y[i]);
      assert Covered(x, y, s - came);
      var r: set<nat> :| |r| <= |s - came| && Rest(x, r) <= Rest(y, s - came);
      assert |r + came| <= |s| by {
        UnionSize(r, came);
        assert |s| == |s - came| + |came| by { assert s == (s - came) + came; }
      }
      ArrivalRests(x, y, x', y', s, came, r);
      CoveredBy(x', y', s, r + came);
    }
  }

  lemma ArrivalRests(x: seq<int>, y: seq<int>, x': seq<int>, y': seq<int>, s: set<nat>, came: set<nat>, r: set<nat>)
    requires |x| == |y| == |x'| == |y'| && Natural(x')
    requires forall i :: 0 <= i < |x| ==> (x'[i] == x[i] && y'[i] == y[i]) || (x[i] == 0 == y[i] && x'[i] == y'[i])
    requires forall i: nat :: i in came <==> i in s && i < |x| && !(x'[i] == x[i] && y'[i] == y[i])
    requires Rest(x, r) <= Rest(y, s - came)
    ensures Rest(x', r + came) <= Rest(y', s)
  {
    var d := seq(|x|, i requires 0 <= i < |x| => if i in s then 0 else y'[i] - y[i]);
    var e := seq(|x|, i requires 0 <= i < |x| => Without(x, r)[i] + d[i]);
    SumOfSums(Without(y, s - came), d, Without(y', s));
    SumOfSums(Without(x, r), d, e);
    SumMonotone(Without(x', r + came), e);
  }

  lemma UnionSize<T>(a: set<T>, b: set<T>)
    ensures |a + b| <= |a| + |b|
  {
    assert a + b == a + (b - a);
    assert |b| == |b * a| + |b - a| by { assert b == b * a + (b - a); }
  }

  ghost function Support(v: seq<int>): set<nat> {
    set i: nat | i < |v| && 0 < v[i]
  }

  /** A dominating vector has no more positive entries. */
  lemma DominanceCounts(x: seq<int>, y: seq<int>)
    requires |x| == |y| && Natural(x) && Natural(y) && Dominates(x, y)
    ensures |Support(x)| <= |Support(y)|
  {
    var s := Support(y);
    RestOfNothing(y, s);
    assert Covered(x, y, s);
    var s': set<nat> :| |s'| <= |s| && Rest(x, s') <= Rest(y, s);
    RestNatural(x, s');
    SubsetSize(Support(x), s');
  }

  // ---------- schedules ----------

  function SlotAt(plan: seq<Slot>, t: nat): Slot {
    if t < |plan| then plan[t] else None
  }

  lemma WorkLeftStep(jobs: seq<Job>, plan: seq<Slot>, t: nat)
    ensures WorkLeft(jobs, plan, t + 1) == Serve(WorkLeft(jobs, plan, t), SlotAt(plan, t))
  {
  }

  /** A job is untouched until it has arrived. */
  lemma {:induction false} Untouched(jobs: seq<Job>, plan: seq<Slot>, t: nat, i: nat)
    requires Legal(jobs, plan) && i < |jobs| && t <= jobs[i].arrival
    ensures WorkLeft(jobs, plan, t)[i] == jobs[i].work
  {
    if t > 0 {
      hide WorkLeft;
      Untouched(jobs, plan, t - 1, i);
      WorkLeftStep(jobs, plan, t - 1);
    } else {
      hide Legal;
    }
  }

  function VisibleWork(jobs: seq<Job>, plan: seq<Slot>, t: nat): (v: seq<int>)
    ensures |v| == |jobs|
  {
    Visible(jobs, t, WorkLeft(jobs, plan, t))
  }

  /** From one time to the next: the tick is served, then the newcomers become visible. */
  lemma VisibleStep(jobs: seq<Job>, plan: seq<Slot>, t: nat)
    requires Legal(jobs, plan)
    ensures var v := Serve(VisibleWork(jobs, plan, t), SlotAt(plan, t));
      forall i: nat :: i < |jobs| ==>
        && v[i] == (if jobs[i].arrival <= t then WorkLeft(jobs, plan, t + 1)[i] else 0)
        && VisibleWork(jobs, plan, t + 1)[i] == if jobs[i].arrival == t + 1 then jobs[i].work else v[i]
  {
    var w, slot := WorkLeft(jobs, plan, t), SlotAt(plan, t);
    WorkLeftStep(jobs, plan, t);
    LegalSlot(jobs, plan, t);
    forall i: nat | i < |jobs|
      ensures Serve(Visible(jobs, t, w), slot)[i] == if jobs[i].arrival <= t then Serve(w, slot)[i] else 0
      ensures jobs[i].arrival == t + 1 ==> WorkLeft(jobs, plan, t + 1)[i] == jobs[i].work
    {
      ServeVisible(jobs, t, w, slot, i);
      if jobs[i].arrival == t + 1 { Untouched(jobs, plan, t + 1, i); }
    }
    hide WorkLeft, Serve, SlotAt, Legal;
  }

  lemma LegalSlot(jobs: seq<Job>, plan: seq<Slot>, t: nat)
    requires Legal(jobs, plan)
    ensures var slot := SlotAt(plan, t);
      slot.Some? ==> slot.value < |jobs| && jobs[slot.value].arrival <= t
  {
    hide WorkLeft;
    assert t < |plan| && plan[t].Some? ==> Pending(jobs, plan, t, plan[t].value);
  }

  lemma ServeVisible(jobs: seq<Job>, t: nat, w: seq<int>, slot: Slot, i: nat)
    requires |w| == |jobs| && i < |jobs| && (slot.Some? ==> slot.value < |jobs| && jobs[slot.value].arrival <= t)
    ensures Serve(Visible(jobs, t, w), slot)[i] == if jobs[i].arrival <= t then Serve(w, slot)[i] else 0
  {
  }

  lemma DominatesItself(x: seq<int>)
    ensures Dominates(x, x)
  {
    forall s: set<nat> ensures Covered(x, x, s) { CoveredBy(x, x, s, s); }
  }

  lemma SameStart(jobs: seq<Job>, p: seq<Slot>, q: seq<Slot>)
    ensures WorkLeft(jobs, p, 0) == WorkLeft(jobs, q, 0)
    ensures VisibleWork(jobs, p, 0) == VisibleWork(jobs, q, 0)
  {
  }

  /** The dominance argument along two whole schedules. */
  lemma {:induction false} DominanceAlong(jobs: seq<Job>, best: seq<Slot>, other: seq<Slot>, t: nat)
    requires ShortestFirst(jobs, best) && Legal(jobs, other)
    requires t <= |best| || Finishes(jobs, best)
    ensures Dominates(VisibleWork(jobs, best, t), VisibleWork(jobs, other, t))
  {
    hide *;
    if t == 0 {
      SameStart(jobs, best, other);
      DominatesItself(VisibleWork(jobs, best, 0));
    } else {
      DominanceAlong(jobs, best, other, t - 1);
      DominanceStep(jobs, best, other, t - 1);
    }
  }

  lemma DominanceStep(jobs: seq<Job>, best: seq<Slot>, other: seq<Slot>, t: nat)
    requires ShortestFirst(jobs, best) && Legal(jobs, other)
    requires t < |best| || Finishes(jobs, best)
    requires Dominates(VisibleWork(jobs, best, t), VisibleWork(jobs, other, t))
    ensures Dominates(VisibleWork(jobs, best, t + 1), VisibleWork(jobs, other, t + 1))
  {
    hide WorkLeft, Dominates, Smallest;
    VisibleStep(jobs, best, t);
    VisibleStep(jobs, other, t);
    ServesSmallest(jobs, best, t);
    hide ShortestFirst, Finishes;
    var x, y := VisibleWork(jobs, best, t), VisibleWork(jobs, other, t);
    var sx, sy := SlotAt(best, t), SlotAt(other, t);
    if sy.Some? { assert Pending(jobs, other, t, sy.value); }
    hide Legal;
    DominanceOverTick(x, y, sx, sy);
    hide Serve, VisibleWork, Pending;
    DominanceOverArrivals(Serve(x, sx), Serve(y, sy), VisibleWork(jobs, best, t + 1), VisibleWork(jobs, other, t + 1));
  }

  lemma ServesSmallest(jobs: seq<Job>, best: seq<Slot>, t: nat)
    requires ShortestFirst(jobs, best) && (t < |best| || Finishes(jobs, best))
    ensures var v, slot := VisibleWork(jobs, best, t), SlotAt(best, t);
      if slot.Some? then Smallest(v, slot.value) else forall i :: 0 <= i < |v| ==> v[i] == 0
  {
    var v, slot := VisibleWork(jobs, best, t), SlotAt(best, t);
    if slot.Some? {
      assert Pending(jobs, best, t, slot.value);
      forall i: nat | i < |v| && 0 < v[i] ensures v[slot.value] <= v[i] {
        assert Pending(jobs, best, t, i);
      }
    } else {
      forall i: nat | i < |v| ensures v[i] == 0 {
        if t < |best| { assert !Pending(jobs, best, t, i); } else { WorkNeverGrows(jobs, best, |best|, t, i); }
      }
    }
  }

  lemma {:induction false} WorkNeverGrows(jobs: seq<Job>, plan: seq<Slot>, t: nat, u: nat, i: nat)
    requires t <= u && i < |jobs|
    ensures WorkLeft(jobs, plan, u)[i] <= WorkLeft(jobs, plan, t)[i]
    decreases u
  {
    if t < u {
      WorkNeverGrows(jobs, plan, t, u - 1, i);
      WorkLeftStep(jobs, plan, u - 1);
    }
  }

  /** At every time, giving the CPU to the job with the least work left leaves no more jobs in
      the system than any other schedule of the same jobs. */
  lemma FewestPending(jobs: seq<Job>, best: seq<Slot>, other: seq<Slot>, t: nat)
    requires ShortestFirst(jobs, best) && Legal(jobs, other)
    requires t <= |best| || Finishes(jobs, best)
    ensures |PendingSet(jobs, best, t)| <= |PendingSet(jobs, other, t)|
  {
    DominanceAlong(jobs, best, other, t);
    DominanceCounts(VisibleWork(jobs, best, t), VisibleWork(jobs, other, t));
    assert PendingSet(jobs, best, t) == Support(VisibleWork(jobs, best, t));
    assert PendingSet(jobs, other, t) == Support(VisibleWork(jobs, other, t));
  }

  // ---------- time in the system ----------

  /** For each job, the number of ticks before time t at which it was in the system. */
  function TimeInSystem(jobs: seq<Job>, plan: seq<Slot>, t: nat): (v: seq<int>)
    ensures |v| == |jobs|
  {
    if t == 0 then seq(|jobs|, _ => 0)
    else
      seq(|jobs|, i requires 0 <= i < |jobs| =>
        TimeInSystem(jobs, plan, t - 1)[i] + if Pending(jobs, plan, t - 1, i) then 1 else 0)
  }

  lemma {:induction false} IndicatorSum(v: seq<int>, s: set<nat>)
    requires forall i: nat :: i < |v| ==> v[i] == if i in s then 1 else 0
    requires forall i :: i in s ==> i < |v|
    ensures Sum(v) == |s|
  {
    if v != [] {
      var n := |v| - 1;
      IndicatorSum(v[..n], s - {n});
    } else {
      assert s == {};
    }
  }

  /** Summing over jobs or over time counts the same. */
  lemma TotalTimeStep(jobs: seq<Job>, plan: seq<Slot>, t: nat)
    ensures Sum(TimeInSystem(jobs, plan, t + 1)) == Sum(TimeInSystem(jobs, plan, t)) + |PendingSet(jobs, plan, t)|
  {
    var d := seq(|jobs|, i requires 0 <= i < |jobs| => if Pending(jobs, plan, t, i) then 1 else 0);
    IndicatorSum(d, PendingSet(jobs, plan, t));
    SumOfSums(TimeInSystem(jobs, plan, t), d, TimeInSystem(jobs, plan, t + 1));
  }

  /** ... and therefore the least total time in the system. */
  lemma {:induction false} LeastTotalTime(jobs: seq<Job>, best: seq<Slot>, other: seq<Slot>, t: nat)
    requires ShortestFirst(jobs, best) && Legal(jobs, other)
    requires t <= |best| || Finishes(jobs, best)
    ensures Sum(TimeInSystem(jobs, best, t)) <= Sum(TimeInSystem(jobs, other, t))
  {
    if t > 0 {
      LeastTotalTime(jobs, best, other, t - 1);
      FewestPending(jobs, best, other, t - 1);
      TotalTimeStep(jobs, best, t - 1);
      TotalTimeStep(jobs, other, t - 1);
    }
  }

  // ---------- what work-conserving schedules share ----------

  /** All work-conserving schedules of the same jobs have the same total work left at all times,
      and idle at the same times. */
  lemma {:induction false} SameBacklog(jobs: seq<Job>, p: seq<Slot>, q: seq<Slot>, t: nat)
    requires WorkConserving(jobs, p) && WorkConserving(jobs, q) && t <= |p| && t <= |q|
    ensures Sum(VisibleWork(jobs, p, t)) == Sum(VisibleWork(jobs, q, t))
    ensures Sum(WorkLeft(jobs, p, t)) == Sum(WorkLeft(jobs, q, t))
    ensures t < |p| && t < |q| ==> (p[t].None? <==> q[t].None?)
  {
    hide *;
    if t == 0 {
      SameStart(jobs, p, q);
    } else {
      SameBacklog(jobs, p, q, t - 1);
      BacklogStep(jobs, p, t - 1);
      BacklogStep(jobs, q, t - 1);
    }
    if t < |p| { IdleIffNoBacklog(jobs, p, t); }
    if t < |q| { IdleIffNoBacklog(jobs, q, t); }
  }

  ghost function Newcomers(jobs: seq<Job>, t: int): (v: seq<int>)
    ensures |v| == |jobs|
  {
    seq(|jobs|, i requires 0 <= i < |jobs| => if jobs[i].arrival == t then jobs[i].work as int else 0)
  }

  lemma BacklogStep(jobs: seq<Job>, p: seq<Slot>, t: nat)
    requires WorkConserving(jobs, p) && t < |p|
    ensures var d := if p[t].Some? then 1 else 0;
      && Sum(WorkLeft(jobs, p, t + 1)) == Sum(WorkLeft(jobs, p, t)) - d
      && Sum(VisibleWork(jobs, p, t + 1)) == Sum(VisibleWork(jobs, p, t)) - d + Sum(Newcomers(jobs, t + 1))
  {
    hide WorkLeft, Sum;
    var v := VisibleWork(jobs, p, t);
    WorkLeftStep(jobs, p, t);
    VisibleStep(jobs, p, t);
    SumOfSums(Serve(v, p[t]), Newcomers(jobs, t + 1), VisibleWork(jobs, p, t + 1));
    if p[t].Some? {
      var j := p[t].value;
      assert Pending(jobs, p, t, j);
      SumUpdate(v, j, v[j] - 1);
      SumUpdate(WorkLeft(jobs, p, t), j, WorkLeft(jobs, p, t)[j] - 1);
    }
  }

  lemma IdleIffNoBacklog(jobs: seq<Job>, p: seq<Slot>, t: nat)
    requires WorkConserving(jobs, p) && t < |p|
    ensures p[t].None? <==> Sum(VisibleWork(jobs, p, t)) == 0
  {
    var v := VisibleWork(jobs, p, t);
    SumBounds(v);
    if p[t].Some? {
      assert Pending(jobs, p, t, p[t].value);
      assert 0 < v[p[t].value];
    } else {
      forall i: nat | i < |v| ensures v[i] == 0 { assert !Pending(jobs, p, t, i); }
      SumOfZeros(v);
    }
  }

  /** A work-conserving schedule that has worked all the time since the last arrival is not late. */
  lemma {:induction false} ClockBound(jobs: seq<Job>, p: seq<Slot>, last: nat, t: nat)
    requires WorkConserving(jobs, p) && t <= |p|
    requires forall i :: 0 <= i < |jobs| ==> jobs[i].arrival <= last
    requires forall u: nat :: u < t ==> 0 < Sum(WorkLeft(jobs, p, u))
    ensures t <= last + Sum(WorkLeft(jobs, p, 0)) - Sum(WorkLeft(jobs, p, t))
  {
    hide *;
    if t > 0 {
      ClockBound(jobs, p, last, t - 1);
      BacklogStep(jobs, p, t - 1);
      if p[t - 1].None? {
        IdleMeansEarly(jobs, p, last, t - 1);
      }
    }
  }

  /** While work is left, the CPU idles only before the last arrival. */
  lemma IdleMeansEarly(jobs: seq<Job>, p: seq<Slot>, last: nat, t: nat)
    requires WorkConserving(jobs, p) && t < |p| && p[t].None?
    requires forall i :: 0 <= i < |jobs| ==> jobs[i].arrival <= last
    requires 0 < Sum(WorkLeft(jobs, p, t))
    ensures t < last
    ensures Sum(WorkLeft(jobs, p, t)) <= Sum(WorkLeft(jobs, p, 0))
  {
    hide WorkLeft, Sum;
    var w := WorkLeft(jobs, p, t);
    if t >= last {
      forall i: nat | i < |w| ensures w[i] == 0 { assert !Pending(jobs, p, t, i); }
      SumOfZeros(w);
    }
    hide WorkConserving;
    forall i: nat | i < |w| ensures w[i] <= WorkLeft(jobs, p, 0)[i] { WorkNeverGrows(jobs, p, 0, t, i); }
    SumMonotone(w, WorkLeft(jobs, p, 0));
  }

  // ---------- extending a plan by one tick ----------

  lemma {:induction false} WorkLeftOfPrefix(jobs: seq<Job>, plan: seq<Slot>, slot: Slot, t: nat)
    requires t <= |plan|
    ensures WorkLeft(jobs, plan + [slot], t) == WorkLeft(jobs, plan, t)
  {
    if t > 0 {
      WorkLeftOfPrefix(jobs, plan, slot, t - 1);
      WorkLeftStep(jobs, plan, t - 1);
      WorkLeftStep(jobs, plan + [slot], t - 1);
    }
  }

  lemma PendingOfPrefix(jobs: seq<Job>, plan: seq<Slot>, slot: Slot)
    ensures forall t: nat, i: nat :: t <= |plan| && i < |jobs| ==>
      Pending(jobs, plan + [slot], t, i) == Pending(jobs, plan, t, i)
  {
    forall t: nat, i: nat | t <= |plan| && i < |jobs|
      ensures Pending(jobs, plan + [slot], t, i) == Pending(jobs, plan, t, i)
    {
      WorkLeftOfPrefix(jobs, plan, slot, t);
    }
  }

  lemma ExtendConserving(jobs: seq<Job>, plan: seq<Slot>, slot: Slot)
    requires WorkConserving(jobs, plan)
    requires slot.Some? ==> slot.value < |jobs| && Pending(jobs, plan, |plan|, slot.value)
    requires slot.None? ==> forall i: nat :: i < |jobs| ==> !Pending(jobs, plan, |plan|, i)
    ensures WorkConserving(jobs, plan + [slot])
  {
    hide Pending, WorkLeft;
    var longer := plan + [slot];
    PendingOfPrefix(jobs, plan, slot);
    forall t: nat | t < |longer| && longer[t].Some?
      ensures longer[t].value < |jobs| && Pending(jobs, longer, t, longer[t].value)
    {
      assert t < |plan| ==> Pending(jobs, plan, t, plan[t].value);
    }
    forall t: nat, i: nat | t < |longer| && i < |jobs| && longer[t].None?
      ensures !Pending(jobs, longer, t, i)
    {
      assert t < |plan| ==> !Pending(jobs, plan, t, i);
    }
  }

  lemma WorkLeftExtended(jobs: seq<Job>, plan: seq<Slot>, slot: Slot)
    ensures WorkLeft(jobs, plan + [slot], |plan| + 1) == Serve(WorkLeft(jobs, plan, |plan|), slot)
  {
    WorkLeftOfPrefix(jobs, plan, slot, |plan|);
    WorkLeftStep(jobs, plan + [slot], |plan|);
  }

  lemma ExtendShortest(jobs: seq<Job>, plan: seq<Slot>, slot: Slot)
    requires ShortestFirst(jobs, plan) && WorkConserving(jobs, plan + [slot])
    requires slot.Some? ==> slot.value < |jobs| && forall i: nat :: i < |jobs| && Pending(jobs, plan, |plan|, i) ==>
      WorkLeft(jobs, plan, |plan|)[slot.value] <= WorkLeft(jobs, plan, |plan|)[i]
    ensures ShortestFirst(jobs, plan + [slot])
  {
    var longer := plan + [slot];
    PendingOfPrefix(jobs, plan, slot);
    hide Pending, WorkLeft, WorkConserving;
    forall t: nat, i: nat | t < |longer| && longer[t].Some? && i < |jobs| && Pending(jobs, longer, t, i)
      ensures longer[t].value < |jobs| && WorkLeft(jobs, longer, t)[longer[t].value] <= WorkLeft(jobs, longer, t)[i]
    {
      WorkLeftOfPrefix(jobs, plan, slot, t);
      assert Pending(jobs, plan, t, i);
      LegalIndex(jobs, longer, t);
    }
  }

  lemma LegalIndex(jobs: seq<Job>, plan: seq<Slot>, t: nat)
    requires WorkConserving(jobs, plan) && t < |plan| && plan[t].Some?
    ensures plan[t].value < |jobs|
  {
  }

  lemma {:induction false} TimeOfPrefix(jobs: seq<Job>, plan: seq<Slot>, slot: Slot, t: nat)
    requires t <= |plan| + 1
    ensures TimeInSystem(jobs, plan + [slot], t) == TimeInSystem(jobs, plan, t)
  {
    if t > 0 {
      TimeOfPrefix(jobs, plan, slot, t - 1);
      PendingOfPrefix(jobs, plan, slot);
      hide Pending;
    }
  }
}
