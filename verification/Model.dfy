/** The simulator as a state machine on values. `Sim` is the whole engine and policy state and
    each function below is one stage or hook of the program, branch for branch. The classes in
    Scheduler.dfy refine these functions; every theorem is about runs of `Step`. */
module Model {
  import opened Basics
  import opened Processes

  /** The policy together with the part of the configuration it reads. */
  datatype Policy =
    | FCFS
    | SJF
    | STCF
    | RR(quantum: int)
    | MLFQ(quantums: seq<int>, allotments: seq<int>, period: int)

  /** The private state of a policy; the scanning policies have none. */
  datatype Hooks =
    | NoHooks
    | RrHooks(queue: seq<nat>, left: int)
    | MlfqHooks(queues: seq<seq<nat>>, timer: int, left: int)

  type Slot = Option<nat>

  /** `cpu` records which process each clock tick was given to (also the tick that a process
      without work takes up), `log` the Gantt entry written in that tick. */
  datatype Sim = Sim(
    policy: Policy, procs: seq<Record>, now: int, next: nat, running: Slot, preempt: bool,
    switches: nat, completed: nat, hooks: Hooks, cpu: seq<Slot>, log: seq<string>)

  const MAX_MLFQ_QUEUES := 10

  /** What the configuration parser guarantees. */
  ghost predicate ValidPolicy(p: Policy) {
    p.MLFQ? ==>
      && 1 <= |p.quantums| == |p.allotments| <= MAX_MLFQ_QUEUES
      && (forall i :: 0 <= i < |p.quantums| ==> 1 <= p.quantums[i] && 1 <= p.allotments[i])
      && 1 <= p.period
  }

  /** The configurations of the program: 1 to 10 levels, everything else positive. */
  lemma ConfigurationsAllowed(quantums: seq<int>, allotments: seq<int>, period: int)
    ensures ValidPolicy(MLFQ(quantums, allotments, period)) <==>
      && 1 <= |quantums| <= 10 && |allotments| == |quantums| && 1 <= period
      && (forall q :: q in quantums ==> 0 < q) && (forall a :: a in allotments ==> 0 < a)
  {
    assert forall i :: 0 <= i < |quantums| ==> quantums[i] in quantums;
    assert forall i :: 0 <= i < |allotments| ==> allotments[i] in allotments;
  }

  ghost predicate AllBelow(q: seq<nat>, n: nat) {
    forall k :: 0 <= k < |q| ==> q[k] < n
  }

  /** Type-level well-formedness: every index the program dereferences is one. */
  ghost predicate Shape(s: Sim) {
    && ValidPolicy(s.policy)
    && s.next <= |s.procs|
    && (s.running.Some? ==> s.running.value < |s.procs|)
    && match s.policy {
      case RR(_) => s.hooks.RrHooks? && AllBelow(s.hooks.queue, |s.procs|)
      case MLFQ(quantums, _, _) =>
        && s.hooks.MlfqHooks?
        && |s.hooks.queues| == |quantums|
        && (forall l :: 0 <= l < |quantums| ==> AllBelow(s.hooks.queues[l], |s.procs|))
        && (forall i :: 0 <= i < |s.procs| ==> 0 <= s.procs[i].priority < |quantums|)
      case _ => s.hooks.NoHooks?
    }
  }

  // ---------- the order of the process array ----------

  /** First character of a PID; the terminator when it is empty. */
  function FirstChar(pid: string): int {
    if pid == "" then 0 else pid[0] as int
  }

  /** The comparator handed to the library sort: arrival time, then one character of the PID. */
  function CompareArrival(a: Record, b: Record): int {
    if a.arrival != b.arrival then a.arrival - b.arrival
    else FirstChar(a.pid) - FirstChar(b.pid)
  }

  ghost predicate SortedByArrival(procs: seq<Record>) {
    forall i, j :: 0 <= i < j < |procs| ==> CompareArrival(procs[i], procs[j]) <= 0
  }

  /** Lexicographic order of PIDs (`strcmp(a, b) < 0`). */
  predicate PidLess(a: string, b: string) {
    if b == "" then false
    else if a == "" then true
    else if a[0] != b[0] then a[0] < b[0]
    else PidLess(a[1..], b[1..])
  }

  // ---------- policy hooks ----------

  /** p replaces q as the candidate in the scan of a policy without a queue. */
  predicate Prefer(policy: Policy, p: Record, q: Record) {
    match policy
    case SJF =>
      if p.burst != q.burst then p.burst < q.burst
      else if p.arrival != q.arrival then p.arrival < q.arrival
      else PidLess(p.pid, q.pid)
    case STCF =>
      if p.remaining != q.remaining then p.remaining < q.remaining
      else if p.arrival != q.arrival then p.arrival < q.arrival
      else PidLess(p.pid, q.pid)
    case _ => p.arrival < q.arrival
  }

  /** Candidate after scanning the first k entries of the process array. */
  function Scan(policy: Policy, procs: seq<Record>, k: nat): (best: Slot)
    requires k <= |procs|
    ensures best.Some? ==> best.value < k
  {
    if k == 0 then None
    else
      var best := Scan(policy, procs, k - 1);
      if procs[k - 1].phase.Ready? && (best.None? || Prefer(policy, procs[k - 1], procs[best.value]))
      then Some(k - 1) else best
  }

  function Enqueue(queues: seq<seq<nat>>, level: nat, i: nat): seq<seq<nat>>
    requires level < |queues|
  {
    queues[level := queues[level] + [i]]
  }

  /** The first level from l on whose queue is not empty; |queues| when there is none. */
  function FirstLevel(queues: seq<seq<nat>>, l: nat): (r: nat)
    requires l <= |queues|
    ensures l <= r <= |queues|
    ensures r < |queues| ==> queues[r] != []
    ensures forall m :: l <= m < r ==> queues[m] == []
    decreases |queues| - l
  {
    if l == |queues| || queues[l] != [] then l else FirstLevel(queues, l + 1)
  }

  function Flatten(queues: seq<seq<nat>>): seq<nat> {
    if queues == [] then [] else queues[0] + Flatten(queues[1..])
  }

  lemma {:induction false} FlattenMembers(queues: seq<seq<nat>>)
    ensures forall x :: x in Flatten(queues) <==> exists l :: 0 <= l < |queues| && x in queues[l]
  {
    if queues != [] {
      FlattenMembers(queues[1..]);
      forall x | exists l :: 0 <= l < |queues| && x in queues[l]
        ensures x in Flatten(queues)
      {
        var l :| 0 <= l < |queues| && x in queues[l];
        if l > 0 { assert x in queues[1..][l - 1]; }
      }
      forall x | x in Flatten(queues)
        ensures exists l :: 0 <= l < |queues| && x in queues[l]
      {
        if x !in queues[0] {
          var rest := queues[1..];
          assert x in Flatten(rest);
          var l :| 0 <= l < |rest| && x in rest[l];
          assert x in queues[l + 1];
        }
      }
    }
  }

  /** Level by level from the top, and each in its own order. */
  lemma {:induction false} FlattenInOrder(queues: seq<seq<nat>>, l: nat)
    requires l < |queues|
    ensures Flatten(queues) == Flatten(queues[..l]) + queues[l] + Flatten(queues[l + 1..])
  {
    if l > 0 {
      FlattenInOrder(queues[1..], l - 1);
      assert queues[..l][1..] == queues[1..][..l - 1];
      assert queues[1..][l..] == queues[l + 1..] && queues[1..][l - 1] == queues[l];
    } else {
      assert queues[..0] == [];
    }
  }

  lemma {:induction false} FlattenBelow(queues: seq<seq<nat>>, n: nat)
    requires forall l :: 0 <= l < |queues| ==> AllBelow(queues[l], n)
    ensures AllBelow(Flatten(queues), n)
  {
    if queues != [] {
      FlattenBelow(queues[1..], n);
    }
  }

  /** Queues of which only level 0 is occupied. */
  function TopOnly(q: seq<nat>, levels: nat): (r: seq<seq<nat>>)
    requires 1 <= levels
    ensures |r| == levels && r[0] == q
    ensures forall l :: 1 <= l < levels ==> r[l] == []
  {
    [q] + seq(levels - 1, _ => [])
  }

  function ArrivalHook(s: Sim, i: nat): (r: Sim)
    requires Shape(s) && i < |s.procs|
    ensures Shape(r) && |r.procs| == |s.procs| && r.policy == s.policy
  {
    match s.policy
    case RR(_) => s.(hooks := s.hooks.(queue := s.hooks.queue + [i]))
    case STCF =>
      if s.running.Some? && s.procs[i].remaining < s.procs[s.running.value].remaining
      then s.(preempt := true) else s
    case MLFQ(_, _, _) =>
      var procs := s.procs[i := s.procs[i].(priority := 0, used := 0)];
      s.(procs := procs,
         hooks := s.hooks.(queues := Enqueue(s.hooks.queues, 0, i)),
         preempt := s.preempt || (s.running.Some? && procs[i].priority < procs[s.running.value].priority))
    case _ => s
  }

  function NextProcess(policy: Policy, procs: seq<Record>, hooks: Hooks): (r: (Slot, Hooks))
    requires policy.RR? ==> hooks.RrHooks?
    requires policy.MLFQ? ==> hooks.MlfqHooks? && |hooks.queues| == |policy.quantums|
  {
    match policy
    case RR(quantum) =>
      if hooks.queue == [] then (None, hooks)
      else (Some(hooks.queue[0]), RrHooks(hooks.queue[1..], quantum))
    case MLFQ(quantums, _, _) =>
      var l := FirstLevel(hooks.queues, 0);
      if l == |hooks.queues| then (None, hooks)
      else (Some(hooks.queues[l][0]),
            MlfqHooks(hooks.queues[l := hooks.queues[l][1..]], hooks.timer, quantums[l]))
    case _ => (Scan(policy, procs, |procs|), hooks)
  }

  /** The boost of the waiting processes: those below level 0 move up, everyone's allotment restarts. */
  function Boosted(procs: seq<Record>, queues: seq<seq<nat>>): (r: seq<Record>)
    requires |queues| >= 1
    ensures |r| == |procs|
    ensures forall i :: 0 <= i < |procs| ==> r[i].priority in {0, procs[i].priority}
  {
    var lower := Flatten(queues[1..]);
    seq(|procs|, i requires 0 <= i < |procs| =>
      if i in lower then procs[i].(priority := 0, used := 0)
      else if i in queues[0] then procs[i].(used := 0)
      else procs[i])
  }

  /** Rule 5: everything that waits, and then the current process, moves to level 0. */
  function Boost(s: Sim): (r: Sim)
    requires Shape(s) && s.policy.MLFQ? && s.running.Some?
    ensures Shape(r) && |r.procs| == |s.procs| && r.policy == s.policy && r.running == s.running
  {
    var r := s.running.value;
    var h := s.hooks;
    var procs := Boosted(s.procs, h.queues);
    FlattenBelow(h.queues, |s.procs|);
    s.(procs := procs[r := procs[r].(priority := 0, used := 0)],
       preempt := true,
       hooks := MlfqHooks(TopOnly(Flatten(h.queues) + [r], |h.queues|), 0, h.left))
  }

  /** Rules 2 and 4: the current process pays for one tick and may lose the CPU or a level. */
  function Charge(s: Sim): (r: Sim)
    requires Shape(s) && s.policy.MLFQ? && s.running.Some?
    ensures Shape(r) && |r.procs| == |s.procs| && r.policy == s.policy && r.running == s.running
  {
    var r := s.running.value;
    var h := s.hooks;
    var p := s.procs[r];
    if p.used + 1 >= s.policy.allotments[p.priority] then
      var level := if p.priority < |h.queues| - 1 then p.priority + 1 else p.priority;
      s.(procs := s.procs[r := p.(priority := level, used := 0)],
         preempt := true,
         hooks := MlfqHooks(Enqueue(h.queues, level, r), h.timer + 1, h.left - 1))
    else if h.left - 1 <= 0 || s.preempt then
      s.(procs := s.procs[r := p.(used := p.used + 1)],
         preempt := true,
         hooks := MlfqHooks(Enqueue(h.queues, p.priority, r), h.timer + 1, h.left - 1))
    else
      s.(procs := s.procs[r := p.(used := p.used + 1)],
         hooks := MlfqHooks(h.queues, h.timer + 1, h.left - 1))
  }

  function TickHook(s: Sim): (r: Sim)
    requires Shape(s) && s.running.Some?
    ensures Shape(r) && |r.procs| == |s.procs| && r.policy == s.policy && r.running == s.running
  {
    var r := s.running.value;
    match s.policy
    case RR(_) =>
      var left := s.hooks.left - 1;
      if left <= 0 && s.procs[r].remaining > 0
      then s.(preempt := true, hooks := RrHooks(s.hooks.queue + [r], left))
      else s.(hooks := RrHooks(s.hooks.queue, left))
    case MLFQ(_, _, period) =>
      if s.hooks.timer + 1 >= period then Boost(s) else Charge(s)
    case _ => s
  }

  // ---------- engine stages ----------

  function Complete(s: Sim): (r: Sim)
    requires Shape(s)
    ensures Shape(r) && |r.procs| == |s.procs| && r.policy == s.policy
  {
    if s.running.Some? && s.procs[s.running.value].remaining == 0 then
      s.(procs := s.procs[s.running.value := FinishRecord(s.procs[s.running.value], s.now)],
         completed := s.completed + 1,
         running := None)
    else s
  }

  function Arrive(s: Sim): (r: Sim)
    requires Shape(s)
    ensures Shape(r) && |r.procs| == |s.procs| && r.policy == s.policy
    decreases |s.procs| - s.next
  {
    if s.next < |s.procs| && s.procs[s.next].arrival <= s.now && s.procs[s.next].phase.NotArrived?
    then Arrive(ArriveOne(s)) else s
  }

  function ArriveOne(s: Sim): (r: Sim)
    requires Shape(s) && s.next < |s.procs|
    ensures Shape(r) && |r.procs| == |s.procs| && r.policy == s.policy && r.next == s.next + 1
  {
    ArrivalHook(s.(procs := s.procs[s.next := s.procs[s.next].(phase := Ready)]), s.next).(next := s.next + 1)
  }

  function Tick(s: Sim): (r: Sim)
    requires Shape(s)
    ensures Shape(r) && |r.procs| == |s.procs| && r.policy == s.policy
  {
    if s.running.Some? then TickHook(s) else s
  }

  function Dispatch(s: Sim): (r: Sim)
    requires Shape(s)
    ensures Shape(r) && |r.procs| == |s.procs| && r.policy == s.policy
  {
    if s.running.Some? && !s.preempt then s
    else
      var procs := if s.running.Some?
                   then s.procs[s.running.value := s.procs[s.running.value].(phase := Ready)]
                   else s.procs;
      var (next, hooks) := NextProcess(s.policy, procs, s.hooks);
      if next != s.running then
        s.(procs := if next.Some? then procs[next.value := StartRecord(procs[next.value], s.now)] else procs,
           switches := s.switches + if s.running.Some? then 1 else 0,
           running := next, hooks := hooks, preempt := false)
      else
        s.(procs := if s.running.Some?
                    then procs[s.running.value := procs[s.running.value].(phase := Running)]
                    else procs,
           hooks := hooks, preempt := false)
  }

  function Execute(s: Sim): (r: Sim)
    requires Shape(s)
    ensures Shape(r) && |r.procs| == |s.procs| && r.policy == s.policy
  {
    if s.running.None? then
      s.(now := s.now + 1, cpu := s.cpu + [None], log := s.log + ["-"])
    else
      var r := s.running.value;
      if s.procs[r].remaining == 0 then
        s.(procs := s.procs[r := FinishRecord(s.procs[r], s.now)],
           completed := s.completed + 1, running := None,
           now := s.now + 1, cpu := s.cpu + [s.running], log := s.log + ["-"])
      else
        s.(procs := s.procs[r := TickRecord(s.procs[r])],
           now := s.now + 1, cpu := s.cpu + [s.running], log := s.log + [s.procs[r].pid])
  }

  /** One iteration of the simulation loop. */
  function Step(s: Sim): (r: Sim)
    requires Shape(s)
    ensures Shape(r) && |r.procs| == |s.procs| && r.policy == s.policy
  {
    var c := Complete(s);
    if c.completed == |c.procs| then c else Execute(Dispatch(Tick(Arrive(c))))
  }

  // ---------- whole runs ----------

  /** A workload as the parser and the sort hand it over. */
  ghost predicate Workload(procs: seq<Record>) {
    && SortedByArrival(procs)
    && forall i :: 0 <= i < |procs| ==>
         && 0 <= procs[i].arrival && 0 <= procs[i].burst
         && procs[i] == NewRecord(procs[i].pid, procs[i].arrival, procs[i].burst)
  }

  function InitialHooks(policy: Policy): Hooks {
    match policy
    case RR(quantum) => RrHooks([], quantum)
    case MLFQ(quantums, _, _) => MlfqHooks(seq(|quantums|, _ => []), 0, 0)
    case _ => NoHooks
  }

  function Initial(policy: Policy, procs: seq<Record>): (s: Sim)
    requires ValidPolicy(policy) && Workload(procs)
    ensures Shape(s)
  {
    Sim(policy, procs, 0, 0, None, false, 0, 0, InitialHooks(policy), [], [])
  }

  predicate Done(s: Sim) {
    s.completed >= |s.procs|
  }

  /** The state after k iterations of the loop, which stops when every process has completed. */
  function At(s: Sim, k: nat): (r: Sim)
    requires Shape(s)
    ensures Shape(r) && |r.procs| == |s.procs| && r.policy == s.policy
    decreases k, 1
  {
    if k == 0 then s else Iteration(s, k)
  }

  /** The effect of the k-th iteration. */
  function Iteration(s: Sim, k: nat): (r: Sim)
    requires Shape(s) && 0 < k
    ensures Shape(r) && |r.procs| == |s.procs| && r.policy == s.policy
    decreases k, 0
  {
    var t := At(s, k - 1);
    if Done(t) then t else Step(t)
  }
}
