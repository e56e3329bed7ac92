/**
 * The process table shared by every scheduling policy: the `Process`
 * record, the reset that runs before each policy, and the aggregates the
 * report is computed from.
 */
module Processes {

  /** Size of the process table and of the round-robin ready queue. */
  const MaxProcesses := 100

  /**
   * One simulated task. `pid`, `arrival`, `burst` and `priority` describe
   * the workload; the other fields are the per-run state that every policy
   * fills in. `completed` is the C `is_completed` flag (0 or 1).
   */
  datatype Process = Process(
    pid: int,
    arrival: int,
    burst: int,
    priority: int,
    remaining: int,
    waiting: int,
    turnaround: int,
    finish: int,
    completed: bool)

  /** The record as `reset_processes` leaves it. */
  function Reset(x: Process): Process
  {
    x.(remaining := x.burst, waiting := 0, turnaround := 0, finish := 0, completed := false)
  }

  function ResetAll(ps: seq<Process>): (r: seq<Process>)
    ensures |r| == |ps|
    ensures forall i :: 0 <= i < |ps| ==> r[i] == Reset(ps[i])
  {
    seq(|ps|, i requires 0 <= i < |ps| => Reset(ps[i]))
  }

  /** Two records describe the same task: no policy writes these four fields. */
  predicate SameTask(x: Process, y: Process)
  {
    x.pid == y.pid && x.arrival == y.arrival && x.burst == y.burst && x.priority == y.priority
  }

  predicate SameWorkload(a: seq<Process>, b: seq<Process>)
  {
    |a| == |b| && forall i :: 0 <= i < |a| ==> SameTask(a[i], b[i])
  }

  /** What SJF and both round-robin variants read before their first decision. */
  predicate Runnable(x: Process)
  {
    !x.completed && x.remaining == x.burst
  }

  /** The metrics of a finished process obey the conservation law of the report. */
  predicate Accounted(x: Process)
  {
    x.turnaround == x.finish - x.arrival && x.waiting == x.turnaround - x.burst
  }

  /** Number of set `is_completed` flags. */
  function CountCompleted(ps: seq<Process>): (c: nat)
    ensures c <= |ps|
  {
    if ps == [] then 0 else (if ps[0].completed then 1 else 0) + CountCompleted(ps[1..])
  }

  /** Latest arrival in the table (0 for an empty table). */
  function LatestArrival(ps: seq<Process>): (m: int)
    ensures forall i :: 0 <= i < |ps| ==> ps[i].arrival <= m
  {
    if ps == [] then 0
    else
      var m := LatestArrival(ps[1..]);
      assert forall i :: 1 <= i < |ps| ==> ps[i] == ps[1..][i - 1];
      if ps[0].arrival > m then ps[0].arrival else m
  }

  /** Sum of waiting times; the report prints it divided by n. */
  function TotalWaiting(ps: seq<Process>): int
  {
    if ps == [] then 0 else ps[0].waiting + TotalWaiting(ps[1..])
  }

  /** Sum of turnaround times; the report prints it divided by n. */
  function TotalTurnaround(ps: seq<Process>): int
  {
    if ps == [] then 0 else ps[0].turnaround + TotalTurnaround(ps[1..])
  }

  /**
   * `reset_processes`: restores the per-run fields of the first n records
   * and leaves everything else alone.
   */
  method ResetProcesses(p: array<Process>, n: int)
    requires 0 <= n <= p.Length
    modifies p
    ensures forall i :: 0 <= i < n ==> p[i] == Reset(old(p[i]))
    ensures forall i :: 0 <= i < n ==> SameTask(p[i], old(p[i])) && Runnable(p[i])
    ensures forall i :: 0 <= i < n ==> p[i].waiting == p[i].turnaround == p[i].finish == 0
    ensures forall i :: n <= i < p.Length ==> p[i] == old(p[i])
  {
    for i := 0 to n
      invariant forall k :: 0 <= k < i ==> p[k] == Reset(old(p[k]))
      invariant forall k :: i <= k < p.Length ==> p[k] == old(p[k])
    {
      p[i] := p[i].(remaining := p[i].burst);
      p[i] := p[i].(waiting := 0);
      p[i] := p[i].(turnaround := 0);
      p[i] := p[i].(finish := 0);
      p[i] := p[i].(completed := false);
    }
  }

  /** Resetting twice is resetting once. */
  lemma ResetIdempotent(ps: seq<Process>)
    ensures ResetAll(ResetAll(ps)) == ResetAll(ps)
  {
  }

  /**
   * Runs never interfere: after a reset, the table depends only on the
   * workload fields, whatever an earlier run left behind.
   */
  lemma ResetForgetsEarlierRuns(a: seq<Process>, b: seq<Process>)
    requires SameWorkload(a, b)
    ensures ResetAll(a) == ResetAll(b)
  {
  }

  /** A reset table is runnable and still describes the same workload. */
  lemma ResetGivesRunnable(ps: seq<Process>)
    ensures SameWorkload(ResetAll(ps), ps)
    ensures forall i :: 0 <= i < |ps| ==> Runnable(ResetAll(ps)[i])
    ensures CountCompleted(ResetAll(ps)) == 0
  {
    CountNoneCompleted(ResetAll(ps));
  }

  lemma {:induction false} CountNoneCompleted(ps: seq<Process>)
    requires forall i :: 0 <= i < |ps| ==> !ps[i].completed
    ensures CountCompleted(ps) == 0
  {
    if ps != [] {
      assert forall i :: 0 <= i < |ps| - 1 ==> ps[1..][i] == ps[i + 1];
      CountNoneCompleted(ps[1..]);
    }
  }

  lemma {:induction false} CountAllCompleted(ps: seq<Process>)
    requires CountCompleted(ps) == |ps|
    ensures forall i :: 0 <= i < |ps| ==> ps[i].completed
  {
    if ps != [] {
      CountAllCompleted(ps[1..]);
      forall i | 0 <= i < |ps| ensures ps[i].completed {
        if i > 0 {
          assert ps[1..][i - 1] == ps[i];
        }
      }
    }
  }

  lemma {:induction false} CountAllCompletedConverse(ps: seq<Process>)
    requires forall i :: 0 <= i < |ps| ==> ps[i].completed
    ensures CountCompleted(ps) == |ps|
  {
    if ps != [] {
      assert forall i :: 0 <= i < |ps| - 1 ==> ps[1..][i] == ps[i + 1];
      CountAllCompletedConverse(ps[1..]);
    }
  }

  /** Setting one flag that was clear raises the count by exactly one. */
  lemma {:induction false} CountAfterCompleting(ps: seq<Process>, i: int, x: Process)
    requires 0 <= i < |ps| && !ps[i].completed && x.completed
    ensures CountCompleted(ps[i := x]) == CountCompleted(ps) + 1
  {
    if i > 0 {
      assert ps[i := x][1..] == ps[1..][i - 1 := x];
      CountAfterCompleting(ps[1..], i - 1, x);
    } else {
      assert ps[i := x][1..] == ps[1..];
    }
  }

  /** Rewriting one record without touching its flag keeps the count. */
  lemma {:induction false} CountAfterUpdate(ps: seq<Process>, i: int, x: Process)
    requires 0 <= i < |ps| && ps[i].completed == x.completed
    ensures CountCompleted(ps[i := x]) == CountCompleted(ps)
  {
    if i > 0 {
      assert ps[i := x][1..] == ps[1..][i - 1 := x];
      CountAfterUpdate(ps[1..], i - 1, x);
    } else {
      assert ps[i := x][1..] == ps[1..];
    }
  }

  /** While some flag is clear, the count is below n. */
  lemma {:induction false} CountBelowWhenPending(ps: seq<Process>, i: int)
    requires 0 <= i < |ps| && !ps[i].completed
    ensures CountCompleted(ps) < |ps|
  {
    if i > 0 {
      assert ps[1..][i - 1] == ps[i];
      CountBelowWhenPending(ps[1..], i - 1);
    }
  }

  lemma SameWorkloadTrans(a: seq<Process>, b: seq<Process>, c: seq<Process>)
    requires SameWorkload(a, b) && SameWorkload(b, c)
    ensures SameWorkload(a, c)
  {
  }

  lemma SameWorkloadUpdate(ps: seq<Process>, i: int, x: Process)
    requires 0 <= i < |ps| && SameTask(ps[i], x)
    ensures SameWorkload(ps, ps[i := x])
  {
  }

  /** The latest arrival depends only on the workload. */
  lemma {:induction false} LatestArrivalOfSameWorkload(a: seq<Process>, b: seq<Process>)
    requires SameWorkload(a, b)
    ensures LatestArrival(a) == LatestArrival(b)
  {
    if a != [] {
      assert SameWorkload(a[1..], b[1..]) by {
        forall i | 0 <= i < |a| - 1 ensures SameTask(a[1..][i], b[1..][i]) {
          assert a[1..][i] == a[i + 1] && b[1..][i] == b[i + 1];
        }
      }
      LatestArrivalOfSameWorkload(a[1..], b[1..]);
    }
  }
}
