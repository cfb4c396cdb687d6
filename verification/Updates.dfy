/** The single updates of which the stages of a step consist, on values, and how the stages are put
    together from them. The methods of Scheduler.dfy perform one update each. */
module Updates {
  import opened Basics
  import opened Processes
  import opened Model
  import opened PolicyStates
  import opened Gantt

  ghost function WithPhase(s: Sim, i: nat, phase: Phase): Sim
    requires i < |s.procs|
  {
    s.(procs := s.procs[i := s.procs[i].(phase := phase)])
  }

  ghost function Given(s: Sim, next: Slot): Sim {
    s.(running := next, switches := s.switches + if s.running.Some? then 1 else 0)
  }

  ghost function Started(s: Sim, i: nat): Sim
    requires i < |s.procs|
  {
    s.(procs := s.procs[i := StartRecord(s.procs[i], s.now)])
  }

  ghost function Cleared(s: Sim): Sim {
    s.(preempt := false)
  }

  ghost function Released(s: Sim): (r: Sim)
    requires s.running.Some? ==> s.running.value < |s.procs|
  {
    if s.running.Some? then WithPhase(s, s.running.value, Ready) else s
  }

  /** What is left of dispatching once the policy has made its choice. */
  ghost function Switched(s: Sim, next: Slot): (r: Sim)
    requires s.running.Some? ==> s.running.value < |s.procs|
    requires next.Some? ==> next.value < |s.procs|
  {
    if next != s.running then
      Cleared(if next.Some? then Started(Given(s, next), next.value) else Given(s, next))
    else
      Cleared(if s.running.Some? then WithPhase(s, s.running.value, Running) else s)
  }

  ghost function FinishedNow(s: Sim, i: nat): Sim
    requires i < |s.procs|
  {
    s.(procs := s.procs[i := FinishRecord(s.procs[i], s.now)], completed := s.completed + 1, running := None)
  }

  ghost function Worked(s: Sim, i: nat): Sim
    requires i < |s.procs|
  {
    s.(procs := s.procs[i := TickRecord(s.procs[i])])
  }

  ghost function Logged(s: Sim, entry: string): Sim {
    s.(log := s.log + [entry])
  }

  ghost function Clocked(s: Sim, slot: Slot): Sim {
    s.(now := s.now + 1, cpu := s.cpu + [slot])
  }

  // ---------- updates keep the shape ----------

  lemma PhaseKeepsShape(s: Sim, i: nat, phase: Phase)
    requires Shape(s) && i < |s.procs|
    ensures Shape(WithPhase(s, i, phase))
  {
  }

  lemma StartKeepsShape(s: Sim, i: nat)
    requires Shape(s) && i < |s.procs|
    ensures Shape(Started(s, i))
  {
  }

  lemma FinishKeepsShape(s: Sim, i: nat)
    requires Shape(s) && i < |s.procs|
    ensures Shape(FinishedNow(s, i))
  {
  }

  lemma TickKeepsShape(s: Sim, i: nat)
    requires Shape(s) && i < |s.procs|
    ensures Shape(Worked(s, i))
  {
  }

  lemma NextKeepsShape(s: Sim)
    requires Shape(s)
    ensures Shape(s.(hooks := NextProcess(s.policy, s.procs, s.hooks).1))
  {
  }

  // ---------- stages in parts ----------

  lemma MlfqArrival(s: Sim, i: nat, r: Sim)
    requires Shape(s) && s.policy.MLFQ? && i < |s.procs| && Raised(r.procs, s.procs, [i])
    requires r == s.(procs := r.procs, hooks := s.hooks.(queues := Enqueue(s.hooks.queues, 0, i)), preempt := r.preempt)
    requires r.preempt == (s.preempt || (s.running.Some? && r.procs[i].priority < r.procs[s.running.value].priority))
    ensures r == ArrivalHook(s, i)
  {
  }

  lemma ArrivalHookFrame(s: Sim, i: nat)
    requires Shape(s) && i < |s.procs|
    ensures ArrivalHook(s, i).next == s.next && ArrivalHook(s, i).running == s.running
  {
  }

  lemma TickHookFrame(s: Sim)
    requires Shape(s) && s.running.Some?
    ensures var t := TickHook(s);
      t == s.(procs := t.procs, hooks := t.hooks, preempt := t.preempt)
  {
  }

  lemma DispatchInParts(s: Sim, hooks: Hooks, next: Slot)
    requires Shape(s) && (s.running.None? || s.preempt) && Shape(Released(s))
    requires (next, hooks) == NextProcess(s.policy, Released(s).procs, s.hooks)
    requires next.Some? ==> next.value < |s.procs|
    ensures Dispatch(s) == Switched(Released(s).(hooks := hooks), next)
  {
  }

  lemma CompleteInParts(s: Sim)
    requires Shape(s)
    ensures Complete(s) == if s.running.Some? && s.procs[s.running.value].remaining == 0
                           then FinishedNow(s, s.running.value) else s
  {
  }

  /** A tick as the program performs it, one update after the other. */
  lemma ExecuteInParts(s: Sim)
    requires Shape(s)
    ensures s.running.None? ==> Execute(s) == Clocked(Logged(s, "-"), s.running)
    ensures s.running.Some? && s.procs[s.running.value].remaining == 0 ==>
      Execute(s) == Clocked(Logged(FinishedNow(s, s.running.value), "-"), s.running)
    ensures s.running.Some? && s.procs[s.running.value].remaining != 0 ==>
      Execute(s) == Clocked(Logged(Worked(s, s.running.value), s.procs[s.running.value].pid), s.running)
  {
  }

  lemma StepInParts(s: Sim)
    requires Shape(s)
    ensures var c := Complete(s);
      Step(s) == if c.completed == |c.procs| then c else Execute(Dispatch(Tick(Arrive(c))))
  {
  }

  lemma JoinedSnoc(entries: seq<string>, entry: string)
    ensures Joined(entries + [entry]) == Appended(Joined(entries), entry)
  {
    assert (entries + [entry])[..|entries|] == entries;
  }
}
