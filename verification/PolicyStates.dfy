/** The private states of the two policies with queues, and their operations on process objects. */
module PolicyStates {
  import opened Basics
  import opened Processes
  import opened Model
  import opened Queues

  ghost function Ids(c: seq<Process>): (ids: seq<nat>)
    ensures |ids| == |c| && forall i :: 0 <= i < |c| ==> ids[i] == c[i].id
  {
    seq(|c|, i requires 0 <= i < |c| => c[i].id)
  }

  ghost function SlotOf(p: Process?): Slot {
    if p == null then None else Some(p.id)
  }

  ghost function Records(processes: seq<Process>): (r: seq<Record>)
    reads processes
    ensures |r| == |processes| && forall i :: 0 <= i < |r| ==> r[i] == processes[i].Rec()
  {
    if processes == [] then []
    else Records(processes[..|processes| - 1]) + [processes[|processes| - 1].Rec()]
  }

  /** The id of a process is its position in the array. */
  ghost predicate Indexed(processes: seq<Process>) {
    forall i :: 0 <= i < |processes| ==> processes[i].id == i
  }

  /** p is one of the processes of this array. */
  ghost predicate Member(processes: seq<Process>, p: Process) {
    p.id < |processes| && processes[p.id] == p
  }

  ghost predicate Owns(processes: seq<Process>, c: seq<Process>) {
    forall i :: 0 <= i < |c| ==> Member(processes, c[i])
  }

  lemma OneMoreOwned(processes: seq<Process>, c: seq<Process>, p: Process)
    requires Owns(processes, c) && Member(processes, p)
    ensures Owns(processes, c + [p])
  {
    hide Member;
  }

  lemma OneMoreId(c: seq<Process>, p: Process)
    ensures Ids(c + [p]) == Ids(c) + [p.id]
  {
  }

  /** Private state of round robin. */
  class RrState {
    const readyQueue: Queue
    var currentQuantum: int
    ghost const owner: seq<Process>
    ghost var repr: set<object>

    ghost predicate Valid()
      reads `repr, repr
    {
      && this !in repr && Indexed(owner) && (forall p :: p in owner ==> p !in repr)
      && readyQueue in repr && (forall n :: n in readyQueue.spine ==> n in repr)
      && readyQueue.Valid() && Owns(owner, readyQueue.Contents())
    }

    ghost function Waiting(): seq<nat>
      requires Valid()
      reads `repr, repr
    {
      Ids(readyQueue.Contents())
    }

    constructor (quantum: int, ghost owner: seq<Process>)
      requires Indexed(owner)
      ensures Valid() && fresh(repr) && this.owner == owner
      ensures Waiting() == [] && currentQuantum == quantum
    {
      readyQueue := new Queue();
      currentQuantum := quantum;
      this.owner := owner;
      new;
      repr := {readyQueue};
    }

    method Enqueue(p: Process)
      requires Valid() && Member(owner, p)
      modifies this, repr
      ensures Valid() && (forall x :: x in repr ==> x in old(repr) || fresh(x)) && currentQuantum == old(currentQuantum)
      ensures Waiting() == old(Waiting()) + [p.id]
    {
      hide Queue.Valid, Queue.Contents, Owns;
      OneMoreOwned(owner, readyQueue.Contents(), p);
      readyQueue.Enqueue(p);
      repr := repr + {readyQueue.spine[|readyQueue.spine| - 1]};
      OneMoreId(old(readyQueue.Contents()), p);
    }

    method OnArrival(p: Process)
      requires Valid() && Member(owner, p)
      modifies this, repr
      ensures Valid() && (forall x :: x in repr ==> x in old(repr) || fresh(x)) && currentQuantum == old(currentQuantum)
      ensures Waiting() == old(Waiting()) + [p.id]
    {
      Enqueue(p);
    }

    method NextProcess(quantum: int) returns (next: Process?)
      requires Valid()
      modifies this, repr
      ensures Valid() && repr == old(repr)
      ensures old(Waiting()) == [] ==>
        next == null && Waiting() == [] && currentQuantum == old(currentQuantum)
      ensures old(Waiting()) != [] ==>
        && next != null && next.id == old(Waiting())[0] && Member(owner, next)
        && Waiting() == old(Waiting())[1..] && currentQuantum == quantum
    {
      next := readyQueue.Dequeue();
      if next != null {
        currentQuantum := quantum;
      }
      assert |old(readyQueue.spine)| == 0 ==> old(Waiting()) == [] && Waiting() == [];
      assert |old(readyQueue.spine)| > 0 ==> |old(Waiting())| > 0 && Waiting() == old(Waiting())[1..];
    }

    /** The slice of the current process gets shorter; it queues up when it is over. */
    method OnTick(current: Process) returns (preempt: bool)
      requires Valid() && Member(owner, current)
      modifies this, repr
      ensures Valid() && (forall x :: x in repr ==> x in old(repr) || fresh(x))
      ensures currentQuantum == old(currentQuantum) - 1
      ensures preempt <==> currentQuantum <= 0 && current.remainingTime > 0
      ensures Waiting() == old(Waiting()) + if preempt then [current.id] else []
    {
      currentQuantum := currentQuantum - 1;
      preempt := false;
      assert current in owner && current !in repr;
      hide Valid, Waiting;
      if currentQuantum <= 0 && current.remainingTime > 0 {
        preempt := true;
        Enqueue(current);
      }
    }

    method OnFinish()
      requires Valid()
      modifies this, repr
      ensures Valid() && Waiting() == []
    {
      readyQueue.Free();
      assert |Waiting()| == 0;
    }
  }

  // ---------- the multi-level queue ----------

  /** Two levels share no nodes. */
  ghost predicate Apart(a: MlfqQueue, b: MlfqQueue)
    reads a, b
  {
    a != b && forall n :: n in a.spine ==> n !in b.spine
  }

  ghost function LevelIds(queues: seq<MlfqQueue>): (ids: seq<seq<nat>>)
    reads queues
    ensures |ids| == |queues| && forall l :: 0 <= l < |ids| ==> ids[l] == Ids(queues[l].Contents())
  {
    if queues == [] then [] else LevelIds(queues[..|queues| - 1]) + [Ids(queues[|queues| - 1].Contents())]
  }

  // ---------- the priority boost, on values ----------

  /** Exactly the processes listed have been moved to level 0 with a fresh allotment. */
  ghost predicate Raised(now: seq<Record>, was: seq<Record>, moved: seq<nat>) {
    && |now| == |was|
    && forall i :: 0 <= i < |was| ==> now[i] == if i in moved then was[i].(priority := 0, used := 0) else was[i]
  }

  lemma RaisedTwice(a: seq<Record>, b: seq<Record>, c: seq<Record>, x: seq<nat>, y: seq<nat>)
    requires Raised(b, a, x) && Raised(c, b, y)
    ensures Raised(c, a, x + y)
  {
  }

  lemma RaiseAt(was: seq<Record>, now: seq<Record>, i: nat)
    requires |now| == |was| && i < |was| && now[i] == was[i].(priority := 0, used := 0)
    requires forall j :: 0 <= j < |was| && j != i ==> now[j] == was[j]
    ensures Raised(now, was, [i])
  {
  }

  lemma {:induction false} FlattenSnoc(queues: seq<seq<nat>>, q: seq<nat>)
    ensures Flatten(queues + [q]) == Flatten(queues) + q
  {
    if queues == [] {
      assert (queues + [q])[1..] == [];
    } else {
      assert (queues + [q])[1..] == queues[1..] + [q];
      FlattenSnoc(queues[1..], q);
    }
  }

  lemma NothingRaised(was: seq<Record>)
    ensures Raised(was, was, [])
  {
  }

  ghost function Pending(p: Process?): (ids: seq<nat>)
    ensures ids == if p == null then [] else [p.id]
  {
    if p == null then [] else [p.id]
  }

  /** In the middle of draining one level: some processes have come to the end of level 0, the one just
      taken out is pending, and no other level has changed. */
  ghost predicate Draining(was: seq<seq<nat>>, now: seq<seq<nat>>, level: nat, moved: seq<nat>, pending: seq<nat>) {
    && |now| == |was| && 1 <= level < |was| && now[0] == was[0] + moved
    && (forall l :: 1 <= l < |was| && l != level ==> now[l] == was[l])
    && was[level] == moved + pending + now[level] && (pending == [] ==> now[level] == [])
  }

  lemma DrainStarts(was: seq<seq<nat>>, now: seq<seq<nat>>, level: nat, pending: seq<nat>)
    requires 1 <= level < |was|
    requires was[level] == [] ==> pending == [] && now == was
    requires was[level] != [] ==> pending == [was[level][0]] && now == was[level := was[level][1..]]
    ensures Draining(was, now, level, [], pending)
  {
  }

  /** One round: id comes to the end of level 0, and the next head is taken out. */
  lemma DrainGoesOn(was: seq<seq<nat>>, a: seq<seq<nat>>, b: seq<seq<nat>>, c: seq<seq<nat>>, level: nat,
                    moved: seq<nat>, id: nat, pending: seq<nat>)
    requires Draining(was, a, level, moved, [id]) && b == Model.Enqueue(a, 0, id)
    requires b[level] == [] ==> pending == [] && c == b
    requires b[level] != [] ==> pending == [b[level][0]] && c == b[level := b[level][1..]]
    ensures Draining(was, c, level, moved + [id], pending)
    ensures |c[level]| + |pending| == |a[level]|
  {
  }

  /** Level i has been emptied into level 0. */
  ghost function Emptied(queues: seq<seq<nat>>, i: nat): (r: seq<seq<nat>>)
    requires 1 <= i < |queues|
  {
    queues[0 := queues[0] + queues[i]][i := []]
  }

  lemma DrainIsOver(was: seq<seq<nat>>, now: seq<seq<nat>>, level: nat, moved: seq<nat>)
    requires Draining(was, now, level, moved, [])
    ensures moved == was[level] && now == Emptied(was, level)
  {
  }

  /** The queues after the levels 1, ..., i - 1 have been emptied into level 0. */
  ghost function Drained(queues: seq<seq<nat>>, i: nat): (r: seq<seq<nat>>)
    requires 1 <= i <= |queues|
    ensures |r| == |queues| && r[0] == queues[0] + Flatten(queues[1..i])
    ensures forall l :: 1 <= l < i ==> r[l] == []
    ensures forall l :: i <= l < |queues| ==> r[l] == queues[l]
  {
    seq(|queues|, l requires 0 <= l < |queues| =>
      if l == 0 then queues[0] + Flatten(queues[1..i]) else if l < i then [] else queues[l])
  }

  lemma DrainOneMore(queues: seq<seq<nat>>, i: nat)
    requires 1 <= i < |queues|
    ensures Flatten(queues[1..i + 1]) == Flatten(queues[1..i]) + queues[i]
    ensures Drained(queues, i + 1) == Emptied(Drained(queues, i), i)
    ensures Drained(queues, i)[i] == queues[i]
  {
    assert queues[1..i + 1] == queues[1..i] + [queues[i]];
    FlattenSnoc(queues[1..i], queues[i]);
    var a, b := Drained(queues, i), Drained(queues, i + 1);
    assert b[0] == a[0] + queues[i];
    assert forall l :: 0 <= l < |queues| ==> b[l] == Emptied(a, i)[l];
  }

  lemma DrainBegins(queues: seq<seq<nat>>)
    requires 1 <= |queues|
    ensures Flatten(queues[1..1]) == [] && Drained(queues, 1) == queues
  {
    assert queues[1..1] == [];
    assert Flatten(queues[1..1]) == [];
    assert queues[0] + [] == queues[0];
    hide Drained, Flatten;
  }

  lemma TopLevelIsAll(queues: seq<seq<nat>>, n: nat)
    requires 1 <= n
    ensures TopOnly(Flatten(queues), n)[0] == Flatten(queues)
  {
  }

  lemma DrainEnds(queues: seq<seq<nat>>)
    requires 1 <= |queues|
    ensures Drained(queues, |queues|) == TopOnly(Flatten(queues), |queues|)
  {
    assert queues[1..|queues|] == queues[1..];
    assert Flatten(queues) == queues[0] + Flatten(queues[1..]);
    hide Drained, TopOnly, Flatten;
  }

  /** The allotments of the processes listed have been reset. */
  ghost predicate Refreshed(now: seq<Record>, was: seq<Record>, listed: seq<nat>) {
    && |now| == |was|
    && forall i :: 0 <= i < |was| ==> now[i] == if i in listed then was[i].(used := 0) else was[i]
  }

  lemma OnlyOneDiffers(was: seq<Record>, now: seq<Record>, i: nat)
    requires |now| == |was| && i < |was| && forall j :: 0 <= j < |was| && j != i ==> now[j] == was[j]
    ensures now == was[i := now[i]]
  {
  }

  lemma RefreshedAt(was: seq<Record>, now: seq<Record>, i: nat)
    requires |now| == |was| && i < |was| && now[i] == was[i].(used := 0)
    requires forall j :: 0 <= j < |was| && j != i ==> now[j] == was[j]
    ensures Refreshed(now, was, [i])
  {
  }

  lemma RefreshedTwice(a: seq<Record>, b: seq<Record>, c: seq<Record>, listed: seq<nat>, k: nat)
    requires k < |listed| && RefreshedUpTo(b, a, listed, k) && Refreshed(c, b, [listed[k]])
    ensures RefreshedUpTo(c, a, listed, k + 1)
  {
    assert listed[..k + 1] == listed[..k] + [listed[k]];
  }

  ghost predicate RefreshedUpTo(now: seq<Record>, was: seq<Record>, listed: seq<nat>, k: nat) {
    k <= |listed| && Refreshed(now, was, listed[..k])
  }

  lemma NothingRefreshed(was: seq<Record>, listed: seq<nat>)
    ensures RefreshedUpTo(was, was, listed, 0)
  {
  }

  lemma AllRefreshed(was: seq<Record>, now: seq<Record>, listed: seq<nat>)
    requires RefreshedUpTo(now, was, listed, |listed|)
    ensures Refreshed(now, was, listed)
  {
    assert listed[..|listed|] == listed;
  }

  lemma RaisedAndRefreshed(a: seq<Record>, b: seq<Record>, c: seq<Record>, queues: seq<seq<nat>>)
    requires 1 <= |queues| && Raised(b, a, Flatten(queues[1..])) && Refreshed(c, b, Flatten(queues))
    ensures c == Boosted(a, queues)
  {
  }

  lemma BoostEffect(s: Sim, waiting: seq<Record>, procs: seq<Record>, top: seq<seq<nat>>, levels: seq<seq<nat>>)
    requires Shape(s) && s.policy.MLFQ? && s.running.Some?
    requires waiting == Boosted(s.procs, s.hooks.queues) && Raised(procs, waiting, [s.running.value])
    requires top == TopOnly(Flatten(s.hooks.queues), |s.hooks.queues|)
    requires levels == Model.Enqueue(top, 0, s.running.value)
    ensures Model.Boost(s).procs == procs && Model.Boost(s).preempt
    ensures Model.Boost(s).hooks == MlfqHooks(levels, 0, s.hooks.left)
  {
    assert levels == TopOnly(Flatten(s.hooks.queues) + [s.running.value], |s.hooks.queues|);
    hide Flatten, Boosted;
  }

  /** The tick about to be charged uses up the allotment. */
  ghost predicate Exhausts(s: Sim)
    requires Shape(s) && s.policy.MLFQ? && s.running.Some?
  {
    var p := s.procs[s.running.value];
    p.used + 1 >= s.policy.allotments[p.priority]
  }

  /** The bill for one tick, as far as the current process is concerned: its level, its used
      allotment, and whether it queues up. */
  ghost function Bill(s: Sim): (b: (nat, int, bool))
    requires Shape(s) && s.policy.MLFQ? && s.running.Some?
    ensures b.0 < |s.policy.quantums|
  {
    var p := s.procs[s.running.value];
    if Exhausts(s) then
      (if p.priority < |s.policy.quantums| - 1 then p.priority + 1 else p.priority, 0, true)
    else
      (p.priority, p.used + 1, s.hooks.left - 1 <= 0 || s.preempt)
  }

  lemma ChargeIsBilled(s: Sim)
    requires Shape(s) && s.policy.MLFQ? && s.running.Some?
    ensures var (level, used, requeued) := Bill(s);
      var id := s.running.value;
      && Charge(s).procs == s.procs[id := s.procs[id].(priority := level, used := used)]
      && Charge(s).preempt == (s.preempt || requeued)
      && Charge(s).hooks == MlfqHooks(if requeued then Model.Enqueue(s.hooks.queues, level, id) else s.hooks.queues,
                                      s.hooks.timer + 1, s.hooks.left - 1)
  {
  }

  /** Private state of the multi-level feedback queue. */
  class MlfqState {
    const queues: seq<MlfqQueue>
    const boostPeriod: int
    var boostTimer: int
    var currentQuantum: int
    ghost const owner: seq<Process>
    ghost var repr: set<object>

    ghost predicate LevelValid(q: MlfqQueue)
      reads `repr, repr
    {
      && q in repr && (forall n :: n in q.spine ==> n in repr)
      && q.Valid() && Owns(owner, q.Contents())
    }

    ghost predicate Valid()
      reads `repr, repr
    {
      && this !in repr && Indexed(owner) && (forall p :: p in owner ==> p !in repr) && 1 <= |queues|
      && (forall l :: 0 <= l < |queues| ==> LevelValid(queues[l]))
      && (forall l, m :: 0 <= l < |queues| && 0 <= m < |queues| && l != m ==> Apart(queues[l], queues[m]))
    }

    ghost function Levels(): (levels: seq<seq<nat>>)
      requires Valid()
      reads `repr, repr
      ensures |levels| == |queues|
    {
      LevelIds(queues)
    }

    constructor (policy: Policy, ghost owner: seq<Process>)
      requires policy.MLFQ? && ValidPolicy(policy) && Indexed(owner)
      ensures Valid() && fresh(repr) && this.owner == owner && Configured(policy)
      ensures Levels() == seq(|policy.quantums|, _ => []) && boostTimer == 0 && currentQuantum == 0
    {
      var levels: seq<MlfqQueue> := [];
      ghost var nodes: set<object> := {};
      for i := 0 to |policy.quantums|
        invariant |levels| == i && nodes == set q | q in levels
        invariant forall l :: 0 <= l < i ==>
          && fresh(levels[l]) && levels[l].Valid() && levels[l].spine == []
          && levels[l].quantum == policy.quantums[l] && levels[l].allotment == policy.allotments[l]
        invariant forall l, m :: 0 <= l < i && 0 <= m < i && l != m ==> levels[l] != levels[m]
      {
        var q := new MlfqQueue(policy.quantums[i], policy.allotments[i]);
        levels := levels + [q];
        nodes := nodes + {q};
      }
      queues := levels;
      boostPeriod := policy.period;
      boostTimer := 0;
      currentQuantum := 0;
      this.owner := owner;
      repr := nodes;
    }

    twostate lemma LevelKept(q: MlfqQueue)
      requires old(LevelValid(q)) && old(repr) <= repr
      requires unchanged(q) && forall i :: 0 <= i < |q.spine| ==> unchanged(q.spine[i])
      ensures LevelValid(q) && Ids(q.Contents()) == old(Ids(q.Contents()))
    {
      q.StaysValid();
      hide MlfqQueue.Valid;
    }

    /** What happens to one level leaves the others as they are. */
    twostate lemma OneLevelChanged(level: nat)
      requires old(Valid()) && level < |queues| && old(repr) <= repr && (forall x :: x in repr ==> x in old(repr) || fresh(x))
      requires forall l :: 0 <= l < |queues| && l != level ==>
        unchanged(queues[l]) && forall i :: 0 <= i < |queues[l].spine| ==> unchanged(queues[l].spine[i])
      requires LevelValid(queues[level])
      requires forall n :: n in queues[level].spine ==> n in old(queues[level].spine) || fresh(n)
      ensures Valid()
      ensures Levels() == old(Levels())[level := Ids(queues[level].Contents())]
    {
      hide MlfqQueue.Valid, MlfqQueue.Contents, Owns;
      forall l | 0 <= l < |queues| && l != level
        ensures LevelValid(queues[l]) && Ids(queues[l].Contents()) == old(Ids(queues[l].Contents()))
      {
        LevelKept(queues[l]);
      }
      assert LevelIds(queues) == old(LevelIds(queues))[level := Ids(queues[level].Contents())] by { hide LevelValid, Apart, Ids; }
      forall l, m | 0 <= l < |queues| && 0 <= m < |queues| && l != m ensures Apart(queues[l], queues[m]) {
        assert old(Apart(queues[l], queues[m]));
      }
      hide LevelValid, Ids, Apart, LevelIds;
    }

    // The counters are no part of what Valid() and Levels() depend on.

    method SetTimer(t: int)
      requires Valid()
      modifies `boostTimer
      ensures Valid() && Levels() == old(Levels()) && Records(owner) == old(Records(owner)) && boostTimer == t
    {
      boostTimer := t;
    }

    method SetQuantum(q: int)
      requires Valid()
      modifies `currentQuantum
      ensures Valid() && Levels() == old(Levels()) && Records(owner) == old(Records(owner)) && currentQuantum == q
    {
      currentQuantum := q;
    }

    /** Everything but level `level` is out of reach of what happens to its nodes. */
    lemma OthersApart(level: nat)
      requires Valid() && level < |queues|
      ensures LevelValid(queues[level]) && Levels()[level] == Ids(queues[level].Contents())
      ensures this !in repr && forall p :: p in owner ==> p !in repr
      ensures forall l :: 0 <= l < |queues| && l != level ==>
        queues[l] != queues[level] && forall n :: n in queues[l].spine ==> n !in queues[level].spine
    {
      hide LevelValid, Indexed, Ids, MlfqQueue.Contents;
      forall l | 0 <= l < |queues| && l != level
        ensures queues[l] != queues[level] && forall n :: n in queues[l].spine ==> n !in queues[level].spine
      {
        assert Apart(queues[l], queues[level]);
      }
    }

    method Enqueue(level: nat, p: Process)
      requires Valid() && Member(owner, p) && level < |queues|
      modifies this, repr
      ensures Valid() && (forall x :: x in repr ==> x in old(repr) || fresh(x)) && old(repr) <= repr
      ensures boostTimer == old(boostTimer) && currentQuantum == old(currentQuantum)
      ensures Levels() == Model.Enqueue(old(Levels()), level, p.id) && Records(owner) == old(Records(owner))
    {
      hide MlfqQueue.Valid, MlfqQueue.Contents, Valid, Levels, Owns, Ids, Records;
      OthersApart(level);
      var q := queues[level];
      ghost var was := q.Contents();
      OneMoreOwned(owner, was, p);
      q.Enqueue(p);
      OneMoreId(was, p);
      repr := repr + {q.spine[|q.spine| - 1]};
      forall l | 0 <= l < |queues| && l != level
        ensures unchanged(queues[l]) && forall i :: 0 <= i < |queues[l].spine| ==> unchanged(queues[l].spine[i])
      {
        forall i | 0 <= i < |queues[l].spine| ensures unchanged(queues[l].spine[i]) {
          assert queues[l].spine[i] in old(queues[l].spine);
        }
      }
      OneLevelChanged(level);
    }

    method Dequeue(level: nat) returns (p: Process?)
      requires Valid() && level < |queues|
      modifies this, repr
      ensures Valid() && repr == old(repr) && Records(owner) == old(Records(owner))
      ensures boostTimer == old(boostTimer) && currentQuantum == old(currentQuantum)
      ensures old(Levels())[level] == [] ==> p == null && Levels() == old(Levels())
      ensures old(Levels())[level] != [] ==>
        && p != null && p.id == old(Levels())[level][0] && Member(owner, p) && p in owner
        && Levels() == old(Levels())[level := old(Levels())[level][1..]]
    {
      hide MlfqQueue.Valid, MlfqQueue.Contents, Valid, Levels, Records;
      OthersApart(level);
      var q := queues[level];
      p := q.Dequeue();
      forall l | 0 <= l < |queues| && l != level
        ensures unchanged(queues[l]) && forall i :: 0 <= i < |queues[l].spine| ==> unchanged(queues[l].spine[i])
      {
      }
      assert |old(q.spine)| > 0 ==> Ids(q.Contents()) == old(Ids(q.Contents()))[1..];
      hide Ids;
      OneLevelChanged(level);
    }

    /** The processes are no part of the queues, and every one is at its own place. */
    lemma MemberIsApart(p: Process)
      requires Valid() && Member(owner, p)
      ensures p in owner && p !in repr && p.id < |owner| && owner[p.id] == p
      ensures forall j :: 0 <= j < |owner| && j != p.id ==> owner[j] != p
    {
      hide LevelValid, Apart;
    }

    /** Level 0 and a fresh allotment. */
    method Refresh(p: Process)
      requires Valid() && Member(owner, p)
      modifies p
      ensures Valid() && Levels() == old(Levels())
      ensures p.id < |owner| && Raised(Records(owner), old(Records(owner)), [p.id])
    {
      hide Valid, Levels, Raised, Records, Member;
      MemberIsApart(p);
      p.priority := 0;
      p.allotmentUsed := 0;
      RaiseAt(old(Records(owner)), Records(owner), p.id);
    }

    /** To the end of level 0 with a fresh allotment: Rule 3 for newcomers and Rule 5 for everybody. */
    method MoveToTop(p: Process)
      requires Valid() && Member(owner, p)
      modifies this, repr, p
      ensures Valid() && (forall x :: x in repr ==> x in old(repr) || fresh(x))
      ensures boostTimer == old(boostTimer) && currentQuantum == old(currentQuantum)
      ensures Levels() == Model.Enqueue(old(Levels()), 0, p.id)
      ensures p.id < |owner| && Raised(Records(owner), old(Records(owner)), [p.id])
    {
      assert 1 <= |queues|;
      hide *;
      Refresh(p);
      Enqueue(0, p);
    }

    method NextProcess() returns (next: Process?)
      requires Valid()
      modifies this, repr
      ensures Valid() && repr == old(repr) && boostTimer == old(boostTimer)
      ensures var l := FirstLevel(old(Levels()), 0);
        && (l == |queues| ==> next == null && Levels() == old(Levels()) && currentQuantum == old(currentQuantum))
        && (l < |queues| ==>
              && next != null && next.id == old(Levels())[l][0] && Member(owner, next)
              && Levels() == old(Levels())[l := old(Levels())[l][1..]] && currentQuantum == queues[l].quantum)
    {
      hide Valid, Levels;
      for i := 0 to |queues|
        invariant Valid() && repr == old(repr) && boostTimer == old(boostTimer) && currentQuantum == old(currentQuantum)
        invariant Levels() == old(Levels()) && forall l :: 0 <= l < i ==> Levels()[l] == []
      {
        var p := Dequeue(i);
        if p != null {
          SetQuantum(queues[i].quantum);
          return p;
        }
      }
      return null;
    }

    /** One round of the drain loop, and the next process to be moved. */
    method DrainOne(level: nat, p: Process, ghost was: seq<seq<nat>>, ghost moved: seq<nat>) returns (next: Process?)
      requires Valid() && Member(owner, p) && 1 <= level < |queues| && Draining(was, Levels(), level, moved, [p.id])
      modifies this, repr, p
      ensures Valid() && (forall x :: x in repr ==> x in old(repr) || fresh(x))
      ensures boostTimer == old(boostTimer) && currentQuantum == old(currentQuantum)
      ensures next != null ==> Member(owner, next) && next in owner
      ensures Draining(was, Levels(), level, moved + [p.id], Pending(next))
      ensures |Levels()[level]| + |Pending(next)| == |old(Levels())[level]|
      ensures Raised(Records(owner), old(Records(owner)), [p.id])
    {
      ghost var levels := Levels();
      hide *;
      MoveToTop(p);
      ghost var after, records := Levels(), Records(owner);
      next := Dequeue(level);
      DrainGoesOn(was, levels, after, Levels(), level, moved, p.id, Pending(next));
    }

    /** The drain loop for one level: every process on it moves to the end of level 0. */
    method DrainLevel(level: nat)
      requires Valid() && 1 <= level < |queues|
      modifies this, repr, owner
      ensures Valid() && (forall x :: x in repr ==> x in old(repr) || fresh(x))
      ensures boostTimer == old(boostTimer) && currentQuantum == old(currentQuantum)
      ensures Levels() == Emptied(old(Levels()), level)
      ensures Raised(Records(owner), old(Records(owner)), old(Levels())[level])
    {
      ghost var was, recs := Levels(), Records(owner);
      ghost var moved: seq<nat> := [];
      hide *;
      var p := Dequeue(level);
      NothingRaised(recs);
      DrainStarts(was, Levels(), level, Pending(p));
      while p != null
        invariant Valid() && (forall x :: x in repr ==> x in old(repr) || fresh(x))
        invariant boostTimer == old(boostTimer) && currentQuantum == old(currentQuantum)
        invariant p != null ==> Member(owner, p) && p in owner
        invariant Draining(was, Levels(), level, moved, Pending(p))
        invariant Raised(Records(owner), recs, moved)
        decreases |Levels()[level]| + |Pending(p)|
      {
        ghost var before, id := Records(owner), p.id;
        p := DrainOne(level, p, was, moved);
        RaisedTwice(recs, before, Records(owner), moved, [id]);
        moved := moved + [id];
      }
      DrainIsOver(was, Levels(), level, moved);
    }

    method ResetAllotment(p: Process)
      requires Valid() && Member(owner, p)
      modifies p
      ensures Valid() && Levels() == old(Levels())
      ensures p.id < |owner| && Refreshed(Records(owner), old(Records(owner)), [p.id])
    {
      hide Valid, Levels, Refreshed, Records, Member;
      MemberIsApart(p);
      p.allotmentUsed := 0;
      RefreshedAt(old(Records(owner)), Records(owner), p.id);
    }

    /** Where the nodes of level 0 point to. */
    lemma TopNodes(k: nat)
      requires Valid()
      ensures |queues| > 0 && |queues[0].spine| == |Levels()[0]|
      ensures queues[0].head == MlfqQueue.NodeAt(queues[0].spine, 0)
      ensures k < |queues[0].spine| ==>
        var node := queues[0].spine[k];
        && node.next == MlfqQueue.NodeAt(queues[0].spine, k + 1)
        && Member(owner, node.process) && node.process in owner && node.process.id == Levels()[0][k]
    {
      assert LevelValid(queues[0]);
    }

    /** One node of the walk along level 0. */
    method ResetNode(node: MlfqNode, ghost k: nat, ghost recs: seq<Record>)
      requires Valid() && k < |queues[0].spine| && node == queues[0].spine[k] && k < |Levels()[0]|
      requires RefreshedUpTo(Records(owner), recs, Levels()[0], k)
      modifies owner
      ensures Valid() && Levels() == old(Levels())
      ensures RefreshedUpTo(Records(owner), recs, Levels()[0], k + 1)
      ensures queues[0].spine == old(queues[0].spine) && node.next == MlfqQueue.NodeAt(queues[0].spine, k + 1)
      ensures k + 1 <= |queues[0].spine| == |Levels()[0]|
    {
      ghost var before, ids := Records(owner), Levels()[0];
      TopNodes(k);
      NodeIn(queues[0].spine, k + 1);
      hide *;
      ResetAllotment(node.process);
      RefreshedTwice(recs, before, Records(owner), ids, k);
    }

    /** The walk along level 0. */
    method ResetAllotments()
      requires Valid()
      modifies owner
      ensures Valid() && Levels() == old(Levels())
      ensures Refreshed(Records(owner), old(Records(owner)), Levels()[0])
    {
      ghost var recs, levels, spine := Records(owner), Levels(), queues[0].spine;
      ghost var k: nat := 0;
      TopNodes(0);
      NothingRefreshed(recs, levels[0]);
      hide *;
      var node := queues[0].head;
      NodeIn(spine, 0);
      while node != null
        invariant Valid() && Levels() == levels && queues[0].spine == spine
        invariant k <= |spine| == |levels[0]|
        invariant if k < |spine| then node == spine[k] else node == null
        invariant RefreshedUpTo(Records(owner), recs, levels[0], k)
        decreases |spine| - k
      {
        ResetNode(node, k, recs);
        NodeIn(spine, k + 1);
        node := node.next;
        k := k + 1;
      }
      AllRefreshed(recs, Records(owner), levels[0]);
    }

    static lemma NodeIn(spine: seq<MlfqNode>, k: nat)
      ensures MlfqQueue.NodeAt(spine, k) == if k < |spine| then spine[k] else null
    {
    }

    /** The levels below i have been drained. */
    ghost predicate DrainedUpTo(levels: seq<seq<nat>>, recs: seq<Record>, i: nat)
      reads this, repr, owner
    {
      && Valid() && 1 <= i <= |levels| == |queues| && Levels() == Drained(levels, i)
      && Raised(Records(owner), recs, Flatten(levels[1..i]))
    }

    /** One round of the boost. */
    method DrainNext(i: nat, ghost levels: seq<seq<nat>>, ghost recs: seq<Record>)
      requires DrainedUpTo(levels, recs, i) && i < |queues|
      modifies this, repr, owner
      ensures DrainedUpTo(levels, recs, i + 1) && (forall x :: x in repr ==> x in old(repr) || fresh(x))
      ensures boostTimer == old(boostTimer) && currentQuantum == old(currentQuantum)
    {
      hide *;
      DrainedFacts(levels, recs, i);
      ghost var before := Records(owner);
      DrainOneMore(levels, i);
      DrainLevel(i);
      RaisedTwice(recs, before, Records(owner), Flatten(levels[1..i]), levels[i]);
      NowDrained(levels, recs, i + 1);
    }

    lemma DrainedFacts(levels: seq<seq<nat>>, recs: seq<Record>, i: nat)
      requires DrainedUpTo(levels, recs, i)
      ensures Valid() && 1 <= i <= |levels| == |queues| && Levels() == Drained(levels, i)
      ensures Raised(Records(owner), recs, Flatten(levels[1..i]))
    {
      hide Valid, Levels, Drained, Flatten, Raised, Records;
    }

    lemma NowDrained(levels: seq<seq<nat>>, recs: seq<Record>, i: nat)
      requires Valid() && 1 <= i <= |levels| == |queues| && Levels() == Drained(levels, i)
      requires Raised(Records(owner), recs, Flatten(levels[1..i]))
      ensures DrainedUpTo(levels, recs, i)
    {
    }

    lemma AllDrained(levels: seq<seq<nat>>, recs: seq<Record>)
      requires DrainedUpTo(levels, recs, |levels|)
      ensures Valid() && Levels() == TopOnly(Flatten(levels), |queues|) && 1 <= |levels|
      ensures Raised(Records(owner), recs, Flatten(levels[1..]))
    {
      assert levels[1..|levels|] == levels[1..];
      DrainEnds(levels);
      hide Valid, Levels, Drained, Flatten, Raised, Records, TopOnly;
    }

    /** All levels are drained into level 0, one after the other. */
    method DrainAll()
      requires Valid()
      modifies this, repr, owner
      ensures Valid() && (forall x :: x in repr ==> x in old(repr) || fresh(x))
      ensures boostTimer == old(boostTimer) && currentQuantum == old(currentQuantum)
      ensures Levels() == TopOnly(Flatten(old(Levels())), |queues|) && 1 <= |queues| == |old(Levels())|
      ensures Raised(Records(owner), old(Records(owner)), Flatten(old(Levels())[1..]))
    {
      ghost var recs, levels := Records(owner), Levels();
      assert |levels| == |queues| && 1 <= |queues|;
      DrainBegins(levels);
      NothingRaised(recs);
      NowDrained(levels, recs, 1);
      hide *;
      for i := 1 to |queues|
        invariant DrainedUpTo(levels, recs, i) && (forall x :: x in repr ==> x in old(repr) || fresh(x))
        invariant boostTimer == old(boostTimer) && currentQuantum == old(currentQuantum)
      {
        DrainNext(i, levels, recs);
      }
      AllDrained(levels, recs);
    }

    /** Rule 5 for the processes that wait: everybody moves to level 0 and every allotment is reset. */
    method BoostWaiting()
      requires Valid()
      modifies this, repr, owner
      ensures Valid() && (forall x :: x in repr ==> x in old(repr) || fresh(x))
      ensures boostTimer == old(boostTimer) && currentQuantum == old(currentQuantum)
      ensures Levels() == TopOnly(Flatten(old(Levels())), |queues|)
      ensures Records(owner) == Boosted(old(Records(owner)), old(Levels()))
    {
      hide *;
      ghost var recs, levels := Records(owner), Levels();
      DrainAll();
      ghost var before := Records(owner);
      TopLevelIsAll(levels, |queues|);
      ResetAllotments();
      RaisedAndRefreshed(recs, before, Records(owner), levels);
    }

    /** The queues, the counters and the process array are those of s. */
    ghost predicate Agrees(s: Sim)
      reads this, repr, owner
    {
      Valid() && s.procs == Records(owner) && s.hooks == MlfqHooks(Levels(), boostTimer, currentQuantum)
    }

    lemma NowBoosted(s: Sim, waiting: seq<Record>, top: seq<seq<nat>>, id: nat)
      requires Valid() && Shape(s) && s.policy.MLFQ? && s.running == Some(id)
      requires waiting == Boosted(s.procs, s.hooks.queues) && Raised(Records(owner), waiting, [id])
      requires top == TopOnly(Flatten(s.hooks.queues), |s.hooks.queues|)
      requires Levels() == Model.Enqueue(top, 0, id) && boostTimer == 0 && currentQuantum == s.hooks.left
      ensures Agrees(Model.Boost(s))
    {
      hide Valid, Levels, Records, Boosted, Raised, Shape, TopOnly, Model.Enqueue;
      BoostEffect(s, waiting, Records(owner), top, Levels());
    }

    ghost predicate Configured(policy: Policy) {
      && policy.MLFQ? && ValidPolicy(policy) && |queues| == |policy.quantums| && boostPeriod == policy.period
      && (forall l :: 0 <= l < |queues| ==>
            queues[l].quantum == policy.quantums[l] && queues[l].allotment == policy.allotments[l])
    }

    lemma AgreesFacts(s: Sim)
      requires Agrees(s)
      ensures Valid() && this !in repr && s.procs == Records(owner)
      ensures s.hooks == MlfqHooks(Levels(), boostTimer, currentQuantum) && |Levels()| == |queues| && 1 <= |queues|
    {
      hide Levels, Records, LevelValid, Apart, Indexed;
    }

    method Boost(current: Process, ghost s: Sim)
      requires Agrees(s) && Shape(s) && s.policy.MLFQ? && s.running == Some(current.id) && Member(owner, current)
      modifies this, repr, owner
      ensures Agrees(Model.Boost(s)) && (forall x :: x in repr ==> x in old(repr) || fresh(x))
    {
      hide *;
      AgreesFacts(s);
      MemberIsApart(current);
      BoostWaiting();
      ghost var waiting, top := Records(owner), Levels();
      SetTimer(0);
      MoveToTop(current);
      NowBoosted(s, waiting, top, current.id);
    }

    /** One tick is charged to the allotment; if that exhausts it, the process drops a level. */
    method Pay(current: Process) returns (exhausted: bool)
      requires Valid() && Member(owner, current) && 0 <= current.priority < |queues|
      modifies current
      ensures Valid() && Levels() == old(Levels()) && current.id < |owner|
      ensures exhausted <==> old(current.allotmentUsed) + 1 >= queues[old(current.priority)].allotment
      ensures current.priority == old(current.priority) + if exhausted && old(current.priority) < |queues| - 1 then 1 else 0
      ensures current.allotmentUsed == if exhausted then 0 else old(current.allotmentUsed) + 1
      ensures current.Rec() == old(current.Rec()).(priority := current.priority, used := current.allotmentUsed)
      ensures Records(owner) == old(Records(owner))[current.id := current.Rec()]
    {
      hide Valid, Levels, Records, Member, Indexed;
      MemberIsApart(current);
      current.allotmentUsed := current.allotmentUsed + 1;
      exhausted := current.allotmentUsed >= queues[current.priority].allotment;
      if exhausted {
        if current.priority < |queues| - 1 {
          current.priority := current.priority + 1;
        }
        current.allotmentUsed := 0;
      }
      assert current.Rec() == old(current.Rec()).(priority := current.priority, used := current.allotmentUsed);
      hide Process.Rec;
      OnlyOneDiffers(old(Records(owner)), Records(owner), current.id);
    }

    /** What the current process has paid is its bill. */
    lemma PaidTheBill(s: Sim, current: Process, level: int, used: int, exhausted: bool)
      requires Shape(s) && Configured(s.policy) && s.running == Some(current.id)
      requires var p := s.procs[current.id];
        && (exhausted <==> p.used + 1 >= queues[p.priority].allotment)
        && level == p.priority + (if exhausted && p.priority < |queues| - 1 then 1 else 0)
        && used == if exhausted then 0 else p.used + 1
      ensures 0 <= level < |queues| && Bill(s).0 == level && Bill(s).1 == used && exhausted == Exhausts(s)
    {
    }

    /** The current process has paid for its tick, and still has to queue up where it must. */
    ghost predicate Paid(current: Process, s: Sim)
      reads this, repr, owner, current
    {
      && Valid() && Shape(s) && s.policy.MLFQ? && s.running == Some(current.id) && Member(owner, current)
      && 0 <= current.priority < |queues| && current.priority == Bill(s).0
      && Records(owner) == s.procs[current.id := s.procs[current.id].(priority := Bill(s).0, used := Bill(s).1)]
      && Levels() == s.hooks.queues && boostTimer == s.hooks.timer + 1 && currentQuantum == s.hooks.left - 1
    }

    lemma NowCharged(s: Sim, id: nat)
      requires Valid() && Shape(s) && s.policy.MLFQ? && s.running == Some(id)
      requires var (level, used, requeued) := Bill(s);
        && Records(owner) == s.procs[id := s.procs[id].(priority := level, used := used)]
        && Levels() == (if requeued then Model.Enqueue(s.hooks.queues, level, id) else s.hooks.queues)
      requires boostTimer == s.hooks.timer + 1 && currentQuantum == s.hooks.left - 1
      ensures Agrees(Model.Charge(s))
    {
      ChargeIsBilled(s);
      hide Valid, Levels, Records, Bill, Model.Charge, Shape;
    }

    lemma PaidInFull(current: Process, s: Sim)
      requires Paid(current, s) && !Bill(s).2
      ensures Agrees(Model.Charge(s))
    {
      hide Valid, Levels, Records, Bill, Shape, Member, Agrees;
      NowCharged(s, current.id);
    }

    lemma PaidFacts(current: Process, s: Sim)
      requires Paid(current, s)
      ensures Valid() && Member(owner, current) && 0 <= current.priority < |queues| && current.priority == Bill(s).0
      ensures Shape(s) && s.policy.MLFQ? && s.running == Some(current.id)
      ensures Records(owner) == s.procs[current.id := s.procs[current.id].(priority := Bill(s).0, used := Bill(s).1)]
      ensures Levels() == s.hooks.queues && boostTimer == s.hooks.timer + 1 && currentQuantum == s.hooks.left - 1
    {
      hide Valid, Levels, Records, Bill, Shape, Member;
    }

    /** The process that has paid goes to the end of its level. */
    method QueueUp(current: Process, ghost s: Sim)
      requires Paid(current, s) && Bill(s).2
      modifies this, repr
      ensures Agrees(Model.Charge(s)) && (forall x :: x in repr ==> x in old(repr) || fresh(x))
    {
      hide *;
      PaidFacts(current, s);
      Enqueue(current.priority, current);
      NowCharged(s, current.id);
    }

    /** The first part of the charge: slice and allotment. */
    method PayBill(current: Process, ghost s: Sim) returns (exhausted: bool)
      requires Valid() && Shape(s) && Configured(s.policy) && s.running == Some(current.id) && Member(owner, current)
      requires s.procs == Records(owner) && s.hooks == MlfqHooks(Levels(), boostTimer - 1, currentQuantum)
      modifies `currentQuantum, current
      ensures Paid(current, s) && exhausted == Exhausts(s)
    {
      hide *;
      BillFacts(s, current);
      SetQuantum(currentQuantum - 1);
      exhausted := Pay(current);
      PaidTheBill(s, current, current.priority, current.allotmentUsed, exhausted);
      NowPaid(current, s, old(current.Rec()));
    }

    lemma NowPaid(current: Process, s: Sim, was: Record)
      requires Valid() && Shape(s) && s.policy.MLFQ? && s.running == Some(current.id) && Member(owner, current)
      requires 0 <= current.priority < |queues| && current.priority == Bill(s).0 && current.allotmentUsed == Bill(s).1
      requires was == s.procs[current.id] && current.Rec() == was.(priority := current.priority, used := current.allotmentUsed)
      requires Records(owner) == s.procs[current.id := current.Rec()]
      requires Levels() == s.hooks.queues && boostTimer == s.hooks.timer + 1 && currentQuantum == s.hooks.left - 1
      ensures Paid(current, s)
    {
      hide Valid, Levels, Records, Bill, Shape, Member;
    }

    /** Rules 2 and 4: the current process pays for its tick and may have to queue up. */
    method Charge(current: Process, preemptRequested: bool, ghost s: Sim) returns (preempt: bool)
      requires Valid() && Shape(s) && Configured(s.policy) && s.running == Some(current.id) && Member(owner, current)
      requires s.procs == Records(owner) && s.preempt == preemptRequested
      requires s.hooks == MlfqHooks(Levels(), boostTimer - 1, currentQuantum)
      modifies this, repr, owner
      ensures preempt == Model.Charge(s).preempt
      ensures Agrees(Model.Charge(s)) && (forall x :: x in repr ==> x in old(repr) || fresh(x))
    {
      ChargeFacts(s, current);
      hide *;
      preempt := preemptRequested;
      var exhausted := PayBill(current, s);
      PaidFacts(current, s);
      if exhausted {
        preempt := true;
        QueueUp(current, s);
      } else if currentQuantum <= 0 {
        preempt := true;
        QueueUp(current, s);
      } else if preempt {
        QueueUp(current, s);
      } else {
        PaidInFull(current, s);
      }
    }

    lemma ChargeFacts(s: Sim, current: Process)
      requires Valid() && Shape(s) && Configured(s.policy) && s.running == Some(current.id) && Member(owner, current)
      requires s.hooks == MlfqHooks(Levels(), boostTimer - 1, currentQuantum)
      ensures current in owner && s.policy.MLFQ?
      ensures Bill(s).2 == (Exhausts(s) || s.hooks.left - 1 <= 0 || s.preempt)
      ensures Model.Charge(s).preempt == (s.preempt || Bill(s).2)
    {
      ChargeIsBilled(s);
      hide Model.Charge, Valid, Levels, Records;
    }

    lemma BillFacts(s: Sim, current: Process)
      requires Valid() && Shape(s) && Configured(s.policy) && s.running == Some(current.id) && Member(owner, current)
      requires s.procs == Records(owner)
      requires s.hooks == MlfqHooks(Levels(), boostTimer - 1, currentQuantum)
      ensures s.policy.MLFQ? && 0 <= current.priority < |queues|
      ensures s.procs[current.id].priority == current.priority && s.procs[current.id].used == current.allotmentUsed
      ensures s.procs[current.id] == current.Rec()
      ensures s.hooks.queues == Levels() && s.hooks.left == currentQuantum && s.hooks.timer == boostTimer - 1
    {
      assert s.procs[current.id] == current.Rec();
      hide Valid, Levels, Records;
    }

    /** The boost when its time has come, and otherwise the charge for the tick. */
    method BoostOrCharge(current: Process, preemptRequested: bool, ghost s: Sim) returns (preempt: bool)
      requires Valid() && Shape(s) && Configured(s.policy) && s.running == Some(current.id) && Member(owner, current)
      requires s.procs == Records(owner) && s.preempt == preemptRequested
      requires s.hooks == MlfqHooks(Levels(), boostTimer - 1, currentQuantum)
      modifies this, repr, owner
      ensures preempt == TickHook(s).preempt
      ensures Agrees(TickHook(s)) && (forall x :: x in repr ==> x in old(repr) || fresh(x))
    {
      ghost var later := s.(hooks := s.hooks.(timer := s.hooks.timer + 1));
      TickChoice(s, later);
      hide *;
      if boostTimer >= boostPeriod {
        preempt := true;
        Boost(current, later);
      } else {
        preempt := Charge(current, preemptRequested, s);
      }
    }

    /** The hook that runs while a process executes. */
    method OnTick(current: Process, preemptRequested: bool, ghost s: Sim) returns (preempt: bool)
      requires Agrees(s) && Shape(s) && Configured(s.policy) && s.running == Some(current.id) && Member(owner, current)
      requires s.preempt == preemptRequested
      modifies this, repr, owner
      ensures preempt == TickHook(s).preempt
      ensures Agrees(TickHook(s)) && (forall x :: x in repr ==> x in old(repr) || fresh(x))
    {
      assert Valid() && s.procs == Records(owner) && s.hooks == MlfqHooks(Levels(), boostTimer, currentQuantum);
      assert s.running.Some?;
      hide *;
      SetTimer(boostTimer + 1);
      preempt := BoostOrCharge(current, preemptRequested, s);
    }

    lemma TickChoice(s: Sim, later: Sim)
      requires Valid() && Shape(s) && Configured(s.policy) && s.running.Some?
      requires s.procs == Records(owner) && s.hooks == MlfqHooks(Levels(), boostTimer - 1, currentQuantum)
      requires later == s.(hooks := s.hooks.(timer := s.hooks.timer + 1))
      ensures Agrees(later) && Shape(later) && later.policy.MLFQ? && later.running == s.running
      ensures Model.Boost(later) == Model.Boost(s) && Model.Boost(s).preempt
      ensures TickHook(s) == if boostTimer >= boostPeriod then Model.Boost(s) else Model.Charge(s)
    {
      hide Valid, Levels, Records, Model.Charge, Flatten, Boosted;
    }

    /** The levels before i are empty. */
    ghost predicate EmptyBefore(i: nat)
      requires Valid()
      reads this, repr
    {
      i <= |Levels()| && forall l :: 0 <= l < i ==> Levels()[l] == []
    }

    lemma NothingEmpty()
      requires Valid()
      ensures EmptyBefore(0) && |Levels()| == |queues|
    {
      hide Valid, Levels;
    }

    lemma OneMoreEmpty(i: nat)
      requires Valid() && i < |queues| && EmptyBefore(i) && Levels()[i] == []
      ensures EmptyBefore(i + 1)
    {
      hide Valid, Levels;
    }

    /** Takes everything out of one queue. */
    method DiscardLevel(i: nat)
      requires Valid() && i < |queues| && EmptyBefore(i)
      modifies this, repr
      ensures Valid() && repr == old(repr) && EmptyBefore(i + 1)
    {
      hide Valid, Levels;
      var p := Dequeue(i);
      while p != null
        invariant Valid() && repr == old(repr) && EmptyBefore(i)
        invariant p == null ==> Levels()[i] == []
        decreases |Levels()[i]| + if p == null then 0 else 1
      {
        p := Dequeue(i);
      }
      OneMoreEmpty(i);
    }

    /** Takes everything out of every queue. */
    method OnFinish()
      requires Valid()
      modifies this, repr
      ensures Valid() && forall l :: 0 <= l < |queues| ==> Levels()[l] == []
    {
      hide Valid, Levels;
      NothingEmpty();
      for i := 0 to |queues|
        invariant Valid() && repr == old(repr) && EmptyBefore(i)
      {
        DiscardLevel(i);
      }
    }
  }
}
