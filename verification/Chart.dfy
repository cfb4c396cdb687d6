/** The blocks of the Gantt chart are a run-length code of the log entries, and the log of every run
    comes back from its text. */
module Chart {
  import opened Basics
  import opened Processes
  import opened Model
  import opened Engine
  import opened Runs
  import opened Accounting
  import opened Gantt
  import Schedules

  datatype Block = Block(pid: string, start: int, end: int, duration: int)

  // ---------- run-length codes ----------

  /** One block stands for equal entries, under the label that fits its buffer. */
  ghost predicate Codes(b: Block, e: seq<string>) {
    && 0 <= b.start < b.end == b.start + b.duration <= |e|
    && b.pid == Truncated(e[b.start])
    && forall t :: b.start <= t < b.end ==> e[t] == e[b.start]
  }

  /** The blocks cover the first n entries without gaps, each as long as it can be. */
  ghost predicate CodesUpTo(blocks: seq<Block>, e: seq<string>, n: nat) {
    && (forall k :: 0 <= k < |blocks| ==> Codes(blocks[k], e))
    && (if blocks == [] then n == 0 else blocks[0].start == 0 && blocks[|blocks| - 1].end == n)
    && (forall k :: 0 < k < |blocks| ==>
          blocks[k].start == blocks[k - 1].end && e[blocks[k].start] != e[blocks[k - 1].start])
  }

  ghost predicate RunLengthCode(blocks: seq<Block>, e: seq<string>) {
    CodesUpTo(blocks, e, |e|)
  }

  /** The last block stands for other entries than the ones to come. */
  ghost predicate LastDiffers(blocks: seq<Block>, e: seq<string>, current: string) {
    blocks != [] ==>
      var start := blocks[|blocks| - 1].start;
      0 <= start < |e| && e[start] != current
  }

  lemma OneMoreBlock(blocks: seq<Block>, e: seq<string>, n: nat, b: Block)
    requires CodesUpTo(blocks, e, n) && b.start == n && 0 < b.duration && b.end == n + b.duration <= |e|
    requires b.pid == Truncated(e[n]) && forall t :: n <= t < b.end ==> e[t] == e[n]
    requires LastDiffers(blocks, e, e[n])
    ensures CodesUpTo(blocks + [b], e, b.end)
    ensures b.end < |e| && e[b.end] != e[n] ==> LastDiffers(blocks + [b], e, e[b.end])
    ensures b.end == |e| ==> RunLengthCode(blocks + [b], e)
  {
    hide Truncated;
  }

  lemma NoBlocks(e: seq<string>, current: string)
    ensures CodesUpTo([], e, 0) && LastDiffers([], e, current)
  {
  }

  /** The loop that fills the array of blocks; it looks one position past the end. */
  method FillBlocks(entries: array<string>, total: nat) returns (blocks: array<Block>, count: nat)
    requires 0 < total <= entries.Length
    ensures fresh(blocks) && 0 < count <= blocks.Length == total
    ensures RunLengthCode(blocks[..count], entries[..total])
  {
    hide *;
    ghost var e := entries[..total];
    blocks := new Block[total];
    count := 0;
    var current := entries[0];
    var start, duration := 0, 0;
    var i := 0;
    NoBlocks(e, current);
    assert blocks[..0] == [];
    while i <= total
      invariant 0 <= i <= total + 1 && entries[..total] == e && count <= total
      invariant i <= total ==>
        && 0 <= count <= start < total && start + duration == i && (0 < i ==> 0 < duration)
        && current == e[start] && forall t :: start <= t < i ==> e[t] == current
      invariant i <= total ==> CodesUpTo(blocks[..count], e, start) && LastDiffers(blocks[..count], e, current)
      invariant total < i ==> 0 < count && RunLengthCode(blocks[..count], e)
    {
      assert e[0] == entries[0] && (i < total ==> e[i] == entries[i]);
      if i < total && entries[i] == current {
        duration := duration + 1;
      } else {
        ghost var before := blocks[..count];
        var b := Block(Truncated(current), start, start + duration, duration);
        blocks[count] := b;
        count := count + 1;
        OneMoreBlock(before, e, start, b);
        assert blocks[..count] == before + [b];
        if i < total {
          current := entries[i];
          start := i;
          duration := 1;
        }
      }
      i := i + 1;
    }
  }

  // ---------- what a code means ----------

  function Expansion(blocks: seq<Block>): seq<string> {
    if blocks == [] then []
    else
      var b := blocks[|blocks| - 1];
      Expansion(blocks[..|blocks| - 1]) + seq(Max(0, b.duration), _ => b.pid)
  }

  lemma WithoutLast(blocks: seq<Block>, e: seq<string>, n: nat)
    requires CodesUpTo(blocks, e, n) && blocks != []
    ensures var b := blocks[|blocks| - 1];
      CodesUpTo(blocks[..|blocks| - 1], e, b.start) && Codes(b, e) && b.end == n
  {
  }

  /** The expansion has the labels of the covered entries, in order. */
  lemma {:induction false} ExpansionShows(blocks: seq<Block>, e: seq<string>, n: nat)
    requires CodesUpTo(blocks, e, n)
    ensures n <= |e| && |Expansion(blocks)| == n
    ensures forall t :: 0 <= t < n ==> Expansion(blocks)[t] == Truncated(e[t])
  {
    if blocks != [] {
      WithoutLast(blocks, e, n);
      ExpansionShows(blocks[..|blocks| - 1], e, blocks[|blocks| - 1].start);
    }
  }

  ghost predicate FitLabels(e: seq<string>) {
    forall t :: 0 <= t < |e| ==> |e[t]| < MAX_PID_LEN
  }

  /** The blocks are a lossless code exactly if every entry fits the label of a block; then
      neighbouring blocks have different labels. */
  lemma CodeIsLossless(blocks: seq<Block>, e: seq<string>)
    requires RunLengthCode(blocks, e)
    ensures Expansion(blocks) == e <==> FitLabels(e)
    ensures FitLabels(e) ==> forall k :: 0 < k < |blocks| ==> blocks[k].pid != blocks[k - 1].pid
  {
    ExpansionShows(blocks, e, |e|);
    if FitLabels(e) {
      assert Expansion(blocks) == e;
    } else {
      var t :| 0 <= t < |e| && MAX_PID_LEN <= |e[t]|;
      assert |Expansion(blocks)[t]| < |e[t]|;
    }
  }

  /** There is only one such code. */
  lemma {:induction false} CodeIsUnique(a: seq<Block>, b: seq<Block>, e: seq<string>, n: nat)
    requires CodesUpTo(a, e, n) && CodesUpTo(b, e, n)
    ensures a == b
  {
    if a != [] && b != [] {
      WithoutLast(a, e, n);
      WithoutLast(b, e, n);
      var x, y := a[|a| - 1], b[|b| - 1];
      LastStarts(a, b, e, n);
      LastStarts(b, a, e, n);
      CodeIsUnique(a[..|a| - 1], b[..|b| - 1], e, x.start);
      assert a == a[..|a| - 1] + [x] && b == b[..|b| - 1] + [y];
    }
  }

  lemma LastStarts(a: seq<Block>, b: seq<Block>, e: seq<string>, n: nat)
    requires CodesUpTo(a, e, n) && CodesUpTo(b, e, n) && a != [] && b != []
    ensures a[|a| - 1].start >= b[|b| - 1].start
  {
    var x, y := a[|a| - 1], b[|b| - 1];
    if |b| > 1 {
      var z := b[|b| - 2];
      assert Codes(z, e) && Codes(x, e) && Codes(y, e);
      assert e[z.end - 1] == e[z.start] && y.start == z.end && e[y.start] != e[z.start];
    }
  }

  // ---------- the log of a run ----------

  /** The PIDs that show up in the log: those of the processes with work. */
  ghost predicate PlainPids(procs: seq<Record>) {
    forall i :: 0 <= i < |procs| && 0 < procs[i].burst ==> Plain(procs[i].pid)
  }

  lemma {:induction false} OccursIfCounted<T>(s: seq<T>, x: T) returns (k: nat)
    requires 0 < Count(s, x)
    ensures k < |s| && s[k] == x
  {
    if s[|s| - 1] == x {
      k := |s| - 1;
    } else {
      k := OccursIfCounted(s[..|s| - 1], x);
    }
  }

  /** The text of the log of any run splits back into its entries, one per clock tick, exactly if the
      PIDs of the processes with work are non-empty and free of the separator. */
  lemma LogRoundTrip(policy: Policy, procs: seq<Record>)
    requires ValidPolicy(policy) && Workload(procs)
    ensures var f := Final(policy, procs);
      && |f.log| == f.now
      && (Tokens(Joined(f.log)) == f.log <==> PlainPids(procs))
  {
    var f := Final(policy, procs);
    hide Final, Tokens, Joined, Inv, Tracks;
    LogLabels(policy, procs);
    RoundTrip(f.log);
    assert Plain("-");
    if PlainPids(procs) {
      assert forall e :: e in f.log ==> Plain(e);
    } else {
      var i: nat :| i < |procs| && 0 < procs[i].burst && !Plain(procs[i].pid);
      MetricsCountTicks(policy, procs, i);
      var t := OccursIfCounted(f.cpu, Some(i));
      assert f.log[t] == procs[i].pid;
      assert f.log[t] in f.log;
    }
  }

  lemma LogLabels(policy: Policy, procs: seq<Record>)
    requires ValidPolicy(policy) && Workload(procs)
    ensures var f := Final(policy, procs);
      && |f.log| == |f.cpu| == f.now
      && forall t: nat :: t < |f.log| ==> f.log[t] == Label(procs, f.cpu[t])
  {
    if procs == [] {
      RunStep(policy, procs, 0);
      DoneIsFinal(policy, procs, 0);
    } else {
      MetricsCountTicks(policy, procs, 0);
    }
    hide Final, Run;
  }

  lemma ServedExists(procs: seq<Record>, f: Sim, t: nat)
    requires Tracks(procs, f) && t < |f.cpu|
    ensures f.cpu[t].Some? ==> f.cpu[t].value < |procs|
  {
    hide Schedules.WorkLeft, Schedules.Pending;
  }

  /** The log of a run: a dash for every tick that is idle or taken up by a process without work, and
      otherwise the PID of the process that got the tick. */
  lemma LogShows(policy: Policy, procs: seq<Record>, t: nat)
    requires ValidPolicy(policy) && Workload(procs) && t < |Final(policy, procs).cpu|
    ensures var f := Final(policy, procs);
      && t < |f.log|
      && (f.cpu[t].None? ==> f.log[t] == "-")
      && (f.cpu[t].Some? ==>
            && f.cpu[t].value < |procs|
            && f.log[t] == if procs[f.cpu[t].value].burst == 0 then "-" else procs[f.cpu[t].value].pid)
  {
    assert forall i :: 0 <= i < |procs| ==> 0 <= procs[i].burst;
    hide Final, Inv, Tracks, Workload;
    FinalFacts(policy, procs);
    ServedExists(procs, Final(policy, procs), t);
    LogLabels(policy, procs);
  }

  /** PIDs are cut to size when a process is initialized, so that every log entry fits its block and
      the chart of a run is a lossless code of its log. */
  lemma RunLogsFit(policy: Policy, procs: seq<Record>, blocks: seq<Block>)
    requires ValidPolicy(policy) && Workload(procs) && RunLengthCode(blocks, Final(policy, procs).log)
    ensures Expansion(blocks) == Final(policy, procs).log
    ensures forall k :: 0 < k < |blocks| ==> blocks[k].pid != blocks[k - 1].pid
  {
    var log := Final(policy, procs).log;
    LogLabels(policy, procs);
    forall t | 0 <= t < |log| ensures |log[t]| < MAX_PID_LEN {
      assert log[t] == Label(procs, Final(policy, procs).cpu[t]);
    }
    CodeIsLossless(blocks, log);
    hide Final;
  }
}
