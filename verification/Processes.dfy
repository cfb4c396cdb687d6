/** One simulated process: its record, the lifecycle transitions on that record, and the
    mutable object whose methods perform them in place. */
module Processes {
  import opened Basics

  datatype Phase = NotArrived | Ready | Running | Finished

  datatype Record = Record(
    pid: string, arrival: int, burst: int,
    remaining: int, start: int, finish: int, priority: int, used: int,
    turnaround: int, waiting: int, response: int,
    phase: Phase)

  const MAX_PID_LEN := 16

  function Truncated(pid: string): string {
    if |pid| < MAX_PID_LEN then pid else pid[..MAX_PID_LEN - 1]
  }

  /** A buffer of 16 characters keeps PIDs of up to 15 characters as they are, and 15 characters of longer ones. */
  lemma PidsAreCut(pid: string, arrival: int, burst: int)
    ensures |pid| <= 15 ==> NewRecord(pid, arrival, burst).pid == pid
    ensures 15 < |pid| ==> NewRecord(pid, arrival, burst).pid == pid[..15]
    ensures Truncated(pid) == NewRecord(pid, arrival, burst).pid
  {
  }

  function TurnaroundTime(finish: int, arrival: int): int { finish - arrival }

  function WaitingTime(turnaround: int, burst: int): int { turnaround - burst }

  function ResponseTime(start: int, arrival: int): int { start - arrival }

  function NewRecord(pid: string, arrival: int, burst: int): Record {
    Record(Truncated(pid), arrival, burst, burst, -1, 0, 0, 0, 0, 0, 0, NotArrived)
  }

  function StartRecord(p: Record, now: int): Record {
    if p.start == -1
    then p.(start := now, response := ResponseTime(now, p.arrival), phase := Running)
    else p.(phase := Running)
  }

  function TickRecord(p: Record): Record {
    if p.remaining > 0 then p.(remaining := p.remaining - 1) else p
  }

  function FinishRecord(p: Record, now: int): Record {
    var turnaround := TurnaroundTime(now, p.arrival);
    p.(phase := Finished, finish := now, turnaround := turnaround, waiting := WaitingTime(turnaround, p.burst))
  }

  /** The process objects of one simulation form an array; `id` is the position in it,
      so that a pointer to a process denotes an index. */
  class Process {
    ghost const id: nat
    const pid: string
    const arrivalTime: int
    const burstTime: int
    var remainingTime: int
    var startTime: int
    var finishTime: int
    var priority: int
    var allotmentUsed: int
    var turnaroundTime: int
    var waitingTime: int
    var responseTime: int
    var state: Phase

    ghost function Rec(): Record
      reads this
    {
      Record(pid, arrivalTime, burstTime, remainingTime, startTime, finishTime, priority, allotmentUsed,
             turnaroundTime, waitingTime, responseTime, state)
    }

    constructor (ghost id: nat, pid: string, arrivalTime: int, burstTime: int)
      ensures this.id == id
      ensures Rec() == NewRecord(pid, arrivalTime, burstTime)
      ensures this.pid == if |pid| <= 15 then pid else pid[..15]
      ensures this.arrivalTime == arrivalTime && this.burstTime == remainingTime == burstTime && startTime == -1
      ensures finishTime == priority == allotmentUsed == turnaroundTime == waitingTime == responseTime == 0
      ensures state == NotArrived
    {
      this.id := id;
      this.pid := Truncated(pid);
      this.arrivalTime := arrivalTime;
      this.burstTime := burstTime;
      remainingTime := burstTime;
      startTime := -1;
      finishTime := 0;
      priority := 0;
      allotmentUsed := 0;
      turnaroundTime := 0;
      waitingTime := 0;
      responseTime := 0;
      state := NotArrived;
    }

    method Start(currentTime: int)
      modifies this
      ensures Rec() == StartRecord(old(Rec()), currentTime)
    {
      if startTime == -1 {
        startTime := currentTime;
        responseTime := ResponseTime(startTime, arrivalTime);
      }
      state := Running;
    }

    method Tick()
      modifies this
      ensures Rec() == TickRecord(old(Rec()))
    {
      if remainingTime > 0 {
        remainingTime := remainingTime - 1;
      }
    }

    method Finish(currentTime: int)
      modifies this
      ensures Rec() == FinishRecord(old(Rec()), currentTime)
    {
      state := Finished;
      finishTime := currentTime;
      turnaroundTime := TurnaroundTime(finishTime, arrivalTime);
      waitingTime := WaitingTime(turnaroundTime, burstTime);
    }
  }
}
