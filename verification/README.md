# CPU scheduling simulator: a verified model

The program simulates one CPU in whole ticks. A workload is a list of processes with an arrival time and
a burst time. An engine (`src/core/scheduler.c`) performs the same stages in every tick: completion,
arrivals, policy tick, dispatch, execution, clock. One of five policies (FCFS, SJF, STCF, round robin,
MLFQ) takes part through hooks. A Gantt log and per-process metrics are recorded.

This project models the engine, all five policies, both linked queues, the process lifecycle and the Gantt
log, and proves what they guarantee over whole runs, for every workload, every configuration and every
length of run.

## How it is built

There are two layers.

* `Model.dfy` describes the simulator on values: `Sim` is the complete engine and policy state, and `Step`
  is one iteration of the loop, stage by stage and branch by branch. `Runs.Run(policy, procs, k)` is the
  state after k iterations and `Runs.Final(policy, procs)` the state in which the loop stops. All theorems
  about runs are about these two functions.
* `Processes.dfy`, `Queues.dfy`, `PolicyStates.dfy`, `Updates.dfy`, `Scheduler.dfy`, `Gantt.dfy` and `Chart.dfy` hold the
  program in its own form: process objects, linked nodes with head and tail pointers, counters, loops and
  arrays updated in place. Each method is proved to compute the function of the first layer; the last one
  is `SchedulerState.RunSimulation`, which terminates and leaves the state `Final`, so that every theorem
  about `Final` is a theorem about the objects.

Between the two, `Engine.dfy` proves the invariant every step keeps under every policy and what a step does
to one process; `Schedules.dfy` is a theory of one-CPU schedules that knows nothing about the simulator, and
is the independent reference against which the runs are compared.

| file | content |
|---|---|
| Basics, Processes, Model | vocabulary, process records and objects, the simulator on values |
| Engine, Schedules, Runs, Accounting | invariants, abstract schedules, runs and their end, what the metrics count |
| Scanning, Choices, Stcf, Fcfs, Switches | the scanning policies: choice and its ties, optimality, comparator and recurrence, context switches |
| RoundRobin, Mlfq, BoostPeriod | the queueing policies: fairness, waiting and response bounds, levels, starvation, the boost period |
| Blindness, StartOrder, OrderIndependence, Coincidence | relations between two runs, and the order of first runs on which they rest |
| Queues, PolicyStates, Updates, Scheduler | the program with its objects |
| Gantt, Chart | the log, its tokenizer and the blocks of the chart |

Conventions of the program that matter for the statements: arrival and burst times are not negative; for MLFQ
the parser guarantees 1 to 10 queues, positive quantums and allotments and a positive boost period
(`Model.ValidPolicy`); the sort is any permutation ordered by the comparator (`Model.Workload`). A process
without work still takes up the tick in which it is dispatched, so that its effective work is `max(1, burst)`.
`Sim.cpu` records which process each tick was given to.

## Where the code and its documentation differ

* `README.md:132` of the program promises alphabetical tie-breaking and deterministic results. The comparator looks at one
  character of the PID, so that the sorted array is alphabetical on ties whatever the sort does exactly if the
  first characters tell the tied PIDs apart (`Fcfs.AlphabeticalTiesExactlyWhen`). The outcome of a workload is
  determined exactly if that is so or the policy is SJF or STCF (`OrderIndependence.DeterminedExactlyWhen`):
  the other policies first run the processes in array order (`StartOrder.FirstRunsInArrayOrder`), and
  only SJF and STCF are deterministic on all workloads (`OrderIndependence.OrderIgnoredExactlyByBurst`).
* `docs/mlfq_design.md:137` claims that with a boost period of 50 nobody starves for more than 50 time units.
  The boost timer skips ticks, and the waiting processes take turns after a boost. The period bounds every wait,
  under all configurations with that period and for all workloads of n processes, if and only if n is at
  most 2 (`BoostPeriod.PeriodBoundsWaitsExactlyUpToTwo`); some configuration lets the last of n processes wait
  for n - 1 whole periods (`BoostPeriod.LongestRotation`), and with more than period + 1 simultaneous processes
  every configuration breaks the promise (`BoostPeriod.BoostPeriodIsNoBound`). A larger bound holds always
  (`Mlfq.NoStarvation`).
* `tests/configs/mlfq_config.txt:11` writes -1 for an unlimited quantum; the parser rejects it
  (`src/core/parser.c:128`), and the model has positive quantums only.
* A round robin quantum of 0, the default when none is given, acts as 1 (`Coincidence.NoQuantumIsOne`).

## Model

| member | source | states |
|---|---|---|
| `Processes.Process.constructor` | src/core/process.c:13-27 | a new object is the new record: PID cut to 15 characters, all work remaining, not started, not arrived |
| `Processes.PidsAreCut` | include/process.h:4 | PIDs of up to 15 characters are kept as they are, longer ones keep their first 15 |
| `Model.ConfigurationsAllowed` | src/core/parser.c:91-166 | the MLFQ configurations covered are exactly those with 1 to 10 queues, positive quantums and allotments and a positive period |
| `Model.FlattenInOrder` | src/algorithms/mlfq.c:132-139 | draining lists the levels from the top down, each in its own order |
| `Processes.Process.Start` | src/core/process.c:134-140 | the first start alone fixes start and response time; every start makes the process run |
| `Processes.Process.Tick` | src/core/process.c:146-150 | one unit of remaining work less, never below zero |
| `Processes.Process.Finish` | src/core/process.c:157-162 | finish, turnaround and waiting time are recorded from the clock |
| `Queues.Queue.constructor` | src/utils/queue.c:9-13 | a new queue is valid and empty |
| `Queues.Queue.Enqueue` | src/utils/queue.c:20-38 | the nodes stay an acyclic list ending in the tail, with the size its length; the contents grow by one at the back |
| `Queues.Queue.Dequeue` | src/utils/queue.c:45-60 | the front process is returned and removed; an empty queue returns null and stays as it is |
| `Queues.Queue.IsEmpty` | src/utils/queue.c:66-68 | the size test is true exactly for the empty contents |
| `Queues.Queue.Free` | src/utils/queue.c:74-78 | draining ends, with head and tail null and size 0 |
| `Queues.MlfqQueue.Enqueue` | src/algorithms/mlfq.c:38-53 | as above for the queue without a size |
| `Queues.MlfqQueue.Dequeue` | src/algorithms/mlfq.c:55-65 | as above for the queue without a size |
| `PolicyStates.RrState.constructor` | src/algorithms/rr.c:21-26 | an empty ready queue and the configured quantum |
| `PolicyStates.RrState.OnArrival` | src/algorithms/rr.c:32-35 | the newcomer joins at the back |
| `PolicyStates.RrState.NextProcess` | src/algorithms/rr.c:42-49 | the front of the queue is taken and the slice counter restarts; with nobody waiting nothing changes |
| `PolicyStates.RrState.OnTick` | src/algorithms/rr.c:57-67 | the slice gets shorter; preemption is requested exactly when it is over and work is left, and exactly then the process is put back |
| `PolicyStates.RrState.OnFinish` | src/algorithms/rr.c:69-76 | nobody is left in the queue |
| `PolicyStates.MlfqState.constructor` | src/algorithms/mlfq.c:67-93 | the configured number of empty, separate queues with their quantums and allotments |
| `PolicyStates.MlfqState.MoveToTop` | src/algorithms/mlfq.c:95-100 | priority and used allotment of this process alone become 0 and it joins level 0 at the back |
| `PolicyStates.MlfqState.NextProcess` | src/algorithms/mlfq.c:111-123 | the head of the first occupied level is taken and the slice is that level's quantum |
| `PolicyStates.MlfqState.DrainLevel` | src/algorithms/mlfq.c:134-138 | the inner drain loop ends, appends the level to level 0 in order, and raises exactly its members |
| `PolicyStates.MlfqState.ResetAllotments` | src/algorithms/mlfq.c:142-146 | the walk along level 0 resets the allotments of exactly its members |
| `PolicyStates.MlfqState.BoostWaiting` | src/algorithms/mlfq.c:132-146 | afterwards level 0 is the concatenation of all levels, top first, the others are empty, and the records are those of the boost |
| `PolicyStates.MlfqState.Boost` | src/algorithms/mlfq.c:131-158 | the boost of the waiting processes and then of the current one: `Model.Boost` |
| `PolicyStates.MlfqState.Pay` | src/algorithms/mlfq.c:167-179 | one tick is charged; the allotment is exhausted exactly when the comparison says so, and only then the process drops a level, unless it is on the last |
| `PolicyStates.MlfqState.Charge` | src/algorithms/mlfq.c:162-187 | allotment, demotion, rotation and preemption of the current process as in the model |
| `PolicyStates.MlfqState.OnTick` | src/algorithms/mlfq.c:125-188 | queues, timers, records and the preemption flag after the hook are those of `Model.TickHook` |
| `PolicyStates.MlfqState.OnFinish` | src/algorithms/mlfq.c:190-203 | every level is emptied |
| `Scheduler.SchedulerState.constructor` | src/core/scheduler.c:36-52 | from the processes as the sort leaves them, a state in which nothing has happened yet |
| `Scheduler.SchedulerState.HandleCompletions` | src/core/scheduler.c:62-68 | the whole state becomes `Model.Complete` of the old one |
| `Scheduler.SchedulerState.HandleArrivals` | src/core/scheduler.c:77-90 | the loop computes `Model.Arrive`: all due processes enter, in array order, through the policy hook |
| `Scheduler.SchedulerState.StcfOnArrival` | src/algorithms/stcf.c:38-45 | preemption is requested exactly if the newcomer needs less than the running process |
| `Scheduler.SchedulerState.RrOnArrival` | src/algorithms/rr.c:32-35 | the whole state becomes `Model.ArrivalHook` of the old one: nothing but the queue changes |
| `Scheduler.SchedulerState.MlfqOnArrival` | src/algorithms/mlfq.c:95-109 | level 0 for the newcomer, and preemption if the running process stands lower |
| `Scheduler.SchedulerState.FcfsNextProcess` | src/algorithms/fcfs.c:4-14 | the loop over the array returns the model's scan for FCFS: a READY process of earliest arrival, the first such in the array |
| `Scheduler.SchedulerState.SjfNextProcess` | src/algorithms/sjf.c:4-24 | the loop over the array returns the model's scan for SJF: a READY process of least burst, among those of earliest arrival, among those of first PID |
| `Scheduler.SchedulerState.StcfNextProcess` | src/algorithms/stcf.c:12-30 | the loop over the array returns the model's scan for STCF: a READY process of least remaining time, among those of earliest arrival, among those of first PID |
| `Scheduler.SchedulerState.NextProcess` | include/scheduler.h:68-87 | every policy's choice is `Model.NextProcess`, and nothing but the policy's own state changes |
| `Scheduler.SchedulerState.RrOnTick` | src/algorithms/rr.c:57-67 | the whole state becomes `Model.TickHook` of the old one |
| `Scheduler.SchedulerState.MlfqOnTick` | src/algorithms/mlfq.c:125-188 | the whole state becomes `Model.TickHook` of the old one |
| `Scheduler.SchedulerState.HandleDispatch` | src/core/scheduler.c:102-118 | the whole state becomes `Model.Dispatch` of the old one |
| `Scheduler.SchedulerState.ExecuteTick` | src/core/scheduler.c:148-167 | instant completion, execution or idling, with log and clock: `Model.Execute` |
| `Scheduler.SchedulerState.StepSimulation` | src/core/scheduler.c:131-168 | one iteration in place is `Model.Step`, for all five policies |
| `Scheduler.SchedulerState.OnInit` | src/core/scheduler.c:180-182 | with the policy's fresh state the object is the initial state of the run |
| `Scheduler.SchedulerState.OnFinish` | src/core/scheduler.c:188-190 | the policy's state is thrown away and everything recorded stays |
| `Scheduler.SchedulerState.RunSimulation` | src/core/scheduler.c:176-191 | the simulation terminates and leaves records, clock, switches and log text of `Runs.Final` |
| `Engine.DoneMeansAllFinished` | src/core/scheduler.c:183-185 | the completion counter reaches n exactly when every process has finished |
| `Engine.ArriveKeeps` | src/core/scheduler.c:77-90 | after the arrival stage exactly the processes due by now have arrived, each is in its queue once, and nothing else has changed |
| `Engine.TickKeeps` | src/algorithms/mlfq.c:125-188 | after the policy tick the running process stands in the queues, once, exactly if preemption is requested |
| `Engine.NextProcessWorks` | include/scheduler.h:68-87 | the contract of every policy: it names a waiting process whenever there is one, and takes it out of its queues |
| `Engine.DispatchKeeps` | src/core/scheduler.c:102-118 | the CPU is idle after dispatch only if nobody is READY; nobody is lost or duplicated in the queues |
| `Engine.StepKeeps` | src/core/scheduler.c:131-168 | every step keeps the invariant, and gives its tick to an arrived process that needs it unless there is none |
| `Engine.SwitchesCounted` | src/core/scheduler.c:109-110 | a context switch is counted exactly when a process with work left loses the CPU |
| `Scanning.PidLessMeans` | src/algorithms/sjf.c:16 | PIDs are ordered as by `strcmp`: by the first character that differs, and a proper prefix comes first |
| `Scanning.ScanByKeys` | src/algorithms/sjf.c:4-24 | the scan finds a READY process if there is one: for FCFS by arrival and position, for SJF by burst, arrival and PID, for STCF by remaining time, arrival and PID |
| `Scanning.ScanOrStay` | src/core/scheduler.c:102-118 | a tick under FCFS, SJF or STCF goes to the running process, if it has work left, or to what the scan of all processes due finds |
| `Choices.ShortestThenEarliestThenPid` | src/algorithms/stcf.c:5-30 | in every run, whoever SJF or STCF gives the CPU to has the least burst or remaining time of all that are due, the earliest arrival among those, and no PID among those comes before its own |
| `Scanning.ScanningStep` | src/algorithms/stcf.c:12-45 | under FCFS, SJF and STCF a running process keeps the CPU unless, for STCF, somebody arrives; otherwise the tick goes to the scan |
| `Runs.RunHolds` | src/core/scheduler.c:176-191 | the invariant holds in every reachable state of every policy |
| `Runs.RunTracks` | src/core/scheduler.c:131-191 | every run is a work-conserving schedule of its workload, and the records say what work is left in it |
| `Runs.EveryRunEnds` | src/core/scheduler.c:176-191 | every run of every policy ends with all processes finished, by the last arrival plus the sum of the effective work |
| `Runs.DoneIsFinal` | src/core/scheduler.c:183-185 | the loop stops in the final state however long it is allowed to run |
| `Runs.SameFinalClock` | src/core/scheduler.c:131-191 | any two policies end at the same clock and leave the CPU unoccupied in exactly the same ticks |
| `Schedules.SameBacklog` | src/core/scheduler.c:102-118 | all work-conserving schedules of a workload have the same outstanding work at every time |
| `Accounting.MetricsCountTicks` | include/process.h:94-104 | at the end log length equals the clock, each process got max(1, burst) ticks, its start is its first tick, its waiting time is the number of its READY ticks, and 0 <= response <= waiting |
| `Accounting.BooksBalance` | src/core/process.c:134-162 | at every iteration the records agree with the ticks handed out so far |
| `Accounting.TurnaroundIsTimeInSystem` | src/core/process.c:157-162 | the recorded turnaround times are the times the jobs spend in the abstract schedule |
| `Schedules.FewestPending` | src/algorithms/stcf.c:5-11 | a shortest-first schedule has at every time no more unfinished jobs than any legal schedule |
| `Schedules.LeastTotalTime` | src/algorithms/stcf.c:5-11 | and so the least total time in the system |
| `Stcf.StepRunsShortest` | src/algorithms/stcf.c:12-45 | every step keeps the running process one of least remaining time and serves one that needs least |
| `Stcf.StcfFewestUnfinished` | src/algorithms/stcf.c:5-11 | at every time no other schedule of the workload has fewer processes in the system than STCF |
| `Stcf.StcfLeastTotalTime` | src/algorithms/stcf.c:5-11 | no schedule at all has a smaller total time in the system than STCF's total turnaround, up to one tick for each empty burst |
| `Stcf.StcfLeastTurnaround` | src/algorithms/stcf.c:5-11 | STCF has the least total turnaround and the least total waiting time of all policies of the simulator |
| `RoundRobin.RrStep` | src/algorithms/rr.c:32-67 | what a step does to queue, slice, running process and switches; same-tick arrivals queue ahead of the expiring process |
| `RoundRobin.RoundRobinIsFair` | src/algorithms/rr.c:42-67 | while two processes stay in the system, the ticks they receive differ by at most one slice |
| `RoundRobin.DispatchedWithinWait` | src/algorithms/rr.c:32-67 | a waiting process is dispatched within the rest of the slice plus one slice for each process ahead |
| `RoundRobin.ResponseBound` | docs/design-notes.md:127 | every response time is at most n - 1 slices |
| `RoundRobin.SwitchBound` | src/core/scheduler.c:102-118 | the switches are at most the sum of (burst - 1) / quantum over the bursts |
| `Mlfq.MlfqStep` | src/algorithms/mlfq.c:95-188 | what a step does to levels, queues, timer, slice and running process |
| `Mlfq.StructureAndRuleOne` | src/algorithms/mlfq.c:95-188 | in every reachable state the levels partition the READY processes, each at its priority, and nobody waits above the running process or above the one that got the last tick |
| `Mlfq.LevelIsCpuReceived` | src/algorithms/mlfq.c:128-188 | priority and used allotment are a function of the CPU time received since arrival or boost, however often the process was preempted |
| `Mlfq.NoStarvation` | src/algorithms/mlfq.c:125-158 | a READY process is given a tick within boost period + n + (n - 1) top quantums |
| `Mlfq.ResponseBound` | src/algorithms/mlfq.c:95-188 | every response time is at most n - 1 top quantums, whatever the boost period and the lower levels are |
| `BoostPeriod.TwoWaitOnePeriod` | src/algorithms/mlfq.c:125-158 | with up to two processes nobody waits for more than the boost period on end, under every configuration and workload |
| `BoostPeriod.SomebodyWaits` | src/core/scheduler.c:131-168 | of n processes that arrive together one has a response time of at least n - 1, whatever the policy |
| `BoostPeriod.BoostPeriodIsNoBound` | docs/mlfq_design.md:137 | with more than period + 1 simultaneous processes somebody waits longer than the boost period, under every configuration |
| `BoostPeriod.LongestRotation` | src/algorithms/mlfq.c:125-188 | one level with the period as quantum: of n long processes the i-th (from 0) first runs after exactly i periods, so that the response bound is attained |
| `BoostPeriod.ThirdWaitsTooLong` | docs/mlfq_design.md:137 | and the third waits for more than the boost period |
| `BoostPeriod.PeriodBoundsWaitsExactlyUpToTwo` | docs/mlfq_design.md:137 | the boost period bounds every wait for all configurations and all workloads of n processes if and only if n is at most 2 |
| `Blindness.BlindToBursts` | src/algorithms/mlfq.c:95-188 | two runs of MLFQ, RR or FCFS that differ only in bursts agree in every other respect until a process with different bursts completes |
| `Blindness.ShortestGoesFirst` | src/algorithms/sjf.c:4-24 | SJF and STCF idle until the first arrival and then begin with a shortest of the processes that arrive first |
| `Blindness.BlindExactlyWhenHeuristic` | src/algorithms/stcf.c:12-30 | a policy is blind to burst times if and only if it is FCFS, RR or MLFQ |
| `OrderIndependence.OrderDoesNotMatter` | src/algorithms/stcf.c:12-45 | SJF and STCF: any sorted arrangement of the same processes with distinct PIDs gives the same log, clock, switches and records per PID at every step |
| `StartOrder.FirstRunsInArrayOrder` | src/algorithms/rr.c:32-49 | FCFS, RR and MLFQ first run the processes in the order the sort has left, however they are preempted and boosted |
| `OrderIndependence.FirstGoesFirst` | src/core/scheduler.c:14-34 | FCFS, RR and MLFQ idle until the first arrival and then begin with the first entry the sort has left |
| `OrderIndependence.SortedIsUnique` | src/core/scheduler.c:14-24 | if the comparator tells all processes apart the sort has one possible result |
| `OrderIndependence.DeterminedExactlyWhen` | README.md:132 | the outcome of a workload is independent of the input order and of the ties the sort leaves if and only if the policy is SJF or STCF or the first characters decide the ties |
| `OrderIndependence.OrderIgnoredExactlyByBurst` | README.md:132 | on all workloads it is so exactly for SJF and STCF |
| `Fcfs.ComparatorMeans` | src/core/scheduler.c:14-24 | the comparator orders by arrival time and then by the first characters, and calls equal exactly what agrees in both |
| `Fcfs.EmptyPidFirst` | src/core/scheduler.c:23 | an empty PID comes before any other |
| `Fcfs.SortedMeans` | src/core/scheduler.c:34 | an array is sorted if and only if arrivals ascend and, among equal ones, empty PIDs come first and then first characters ascend |
| `Fcfs.TiesByFirstChar` | src/core/scheduler.c:14-34 | in every workload tied processes stand in the order of their first characters |
| `Fcfs.DecisionMeans` | src/core/scheduler.c:23 | the first characters decide the ties if and only if tied different PIDs differ in them, or one of them is empty |
| `Fcfs.FcfsStep` | src/algorithms/fcfs.c:4-14 | the tick goes to the running process and then to the first entry that needs one |
| `Fcfs.FcfsRecurrence` | src/algorithms/fcfs.c:4-14 | start = max(arrival, free), finish = start + burst, next free = start + max(1, burst), in array order |
| `Fcfs.FcfsServesInArrayOrder` | src/core/scheduler.c:14-34 | an earlier entry of the sorted array is through before a later one starts |
| `Fcfs.AlphabeticalTiesExactlyWhen` | src/core/scheduler.c:14-24 | ties are alphabetical under every outcome of the sort if and only if first characters tell the tied PIDs apart |
| `Switches.NonPreemptiveResponse` | src/core/scheduler.c:102-118 | FCFS and SJF make no switches, and response equals waiting time |
| `Switches.StcfSwitchBound` | src/algorithms/stcf.c:38-45 | STCF makes at most n - 1 switches |
| `Coincidence.LongQuantumIsFcfs` | tests/README.md:159 | RR with a quantum no burst exceeds is FCFS in trace, switches and metrics, at every step |
| `Coincidence.NoQuantumIsOne` | src/algorithms/rr.c:61-62 | RR with a quantum of 0 or less is RR with quantum 1 |
| `Coincidence.SimultaneousStcfIsSjf` | src/algorithms/stcf.c:38-45 | if all arrive together STCF is SJF in trace, switches and metrics, at every step |
| `Coincidence.SimultaneousSjfLeastTurnaround` | src/algorithms/sjf.c:4-24 | and then SJF, too, has the least total turnaround and waiting time of all policies |
| `Coincidence.OneQueueIsRoundRobin` | src/algorithms/mlfq.c:160-188 | MLFQ with one queue, allotment = quantum and a boost period of at least the total work is RR with that quantum |
| `Gantt.GanttLog.constructor` | src/core/gantt.c:6-11 | the empty log |
| `Gantt.GanttLog.Append` | src/core/gantt.c:13-30 | the entry is appended, with a separator exactly if the log is not empty |
| `Gantt.JoinedText` | src/core/gantt.c:13-30 | the text of the log, character by character: the entries in order with exactly one separator between any two, and nothing else |
| `Gantt.LeadingEmpty` | src/core/gantt.c:19 | empty entries at the beginning leave no trace in it |
| `Gantt.TokensConcat` | src/core/gantt.c:61-66 | the tokens of two texts with a separator between them are the tokens of both |
| `Gantt.NextToken` | src/core/gantt.c:62-66 | one call of the tokenizer yields the next non-empty piece |
| `Gantt.CountSegments` | src/core/gantt.c:43-50 | the counting loop reserves one place for every piece, empty or not, but a trailing empty one |
| `Gantt.SegmentsCounted` | src/core/gantt.c:43-50 | that is the number of separators, and one more for a rest behind the last of them |
| `Gantt.PlainEntriesFitExactly` | src/core/gantt.c:43-52 | for the log of entries that are non-empty and free of the separator, one place for each entry |
| `Gantt.TokensFit` | src/core/gantt.c:43-66 | the place reserved is always enough |
| `Gantt.Split` | src/core/gantt.c:39-71 | the array holds all tokens in order; none is dropped for lack of space |
| `Gantt.RoundTrip` | src/core/gantt.c:13-71 | splitting gives back the appended entries if and only if each is non-empty and free of the separator |
| `Chart.FillBlocks` | src/core/gantt.c:177-202 | the loop fills the array, within its bounds, with a run-length code of the entries |
| `Chart.CodeIsUnique` | src/core/gantt.c:177-202 | that code is determined by the entries |
| `Chart.CodeIsLossless` | src/core/gantt.c:177-202 | its expansion gives the entries back if and only if each fits the label of a block, and then neighbouring labels differ |
| `Chart.LogShows` | src/core/scheduler.c:148-165 | the log entry of a tick is the PID of the process that got it, and a dash if nobody did or that process has no work |
| `Chart.LogRoundTrip` | src/core/gantt.c:13-71 | the log of a run has one entry per clock tick and splits back into them if and only if the PIDs of the processes with work are non-empty and free of the separator |
| `Chart.RunLogsFit` | src/core/process.c:13-15 | the entries of every run fit the labels, so that its chart is a lossless code of its log |

## Left out

* Command line, workload and configuration parsing (`src/core/parser.c`, the `parse_*` functions of
  `src/core/process.c`): their results appear as `Model.Workload` and `Model.ValidPolicy`.
* Printing: the metrics table, widths and padding of the chart, and the view that samples every tenth entry
  when there are more than 50 (`src/core/gantt.c:88-175`).
* `main.c`, the lookup of policies by name and the thin `schedule_*` wrappers.
* Averages in floating point: the statements are about integer sums.
* Allocation failure, freeing of memory, the cleanup functions and overflow of machine integers.
* Scheduler.SchedulerState.constructor: starts from the array after the call of the library sort at
  `src/core/scheduler.c:34`, because a process object carries its position in the sorted array.
* The algorithm of the library sort: any permutation ordered by the comparator is allowed as its result.
* Tables of function pointers: the hooks of a policy are chosen by a tag, and a hook a policy does not have
  changes nothing.
* The counter of completions is a field of the scheduler object, because the program passes a pointer to a
  local variable.
* PIDs are compared as sequences of non-negative characters; bytes outside ASCII are not modelled.
* The text of the log in the state of a run is the sequence of its entries; `Scheduler.SchedulerState` ties
  it to the joined text.
* Processes with a negative burst never finish in the program, and no statement covers them.
