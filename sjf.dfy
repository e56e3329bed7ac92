/**
 * `simulate_SJF`: non-preemptive shortest job first. Each pass selects,
 * among the arrived unfinished processes, the first one with the smallest
 * burst and runs it to completion; with nothing to select the clock
 * advances by one.
 */
module ShortestJobFirst {
  import opened Processes

  /** The initial `min_burst`: a burst this large is never selected. */
  const Sentinel := 99999

  /** What the selection scan considers: arrived by `clock` and not finished. */
  predicate Eligible(x: Process, clock: int)
  {
    x.arrival <= clock && !x.completed
  }

  /**
   * The selection loop from index i on, `idx`/`min` being what it has
   * found so far: a strictly smaller burst replaces the candidate.
   */
  function PickFrom(ps: seq<Process>, clock: int, i: int, idx: int, min: int): int
    requires 0 <= i <= |ps|
    decreases |ps| - i
  {
    if i == |ps| then idx
    else if Eligible(ps[i], clock) && ps[i].burst < min then PickFrom(ps, clock, i + 1, i, ps[i].burst)
    else PickFrom(ps, clock, i + 1, idx, min)
  }

  /** The index the selection loop leaves in `idx` (-1 for none). */
  function Shortest(ps: seq<Process>, clock: int): int
  {
    PickFrom(ps, clock, 0, -1, Sentinel)
  }

  /**
   * k is the first eligible process with the smallest burst, and that burst
   * is below the sentinel.
   */
  predicate FirstMinimal(ps: seq<Process>, clock: int, k: int)
  {
    0 <= k < |ps| && Eligible(ps[k], clock) && ps[k].burst < Sentinel &&
    (forall j :: 0 <= j < |ps| && Eligible(ps[j], clock) ==> ps[k].burst <= ps[j].burst) &&
    (forall j :: 0 <= j < k && Eligible(ps[j], clock) ==> ps[k].burst < ps[j].burst)
  }

  /** What the selection loop knows after scanning indices below i. */
  predicate BestBelow(ps: seq<Process>, clock: int, i: int, idx: int, min: int)
    requires 0 <= i <= |ps|
  {
    if idx == -1 then
      min == Sentinel &&
      forall j :: 0 <= j < i && Eligible(ps[j], clock) ==> ps[j].burst >= Sentinel
    else
      0 <= idx < i && Eligible(ps[idx], clock) && min == ps[idx].burst && min < Sentinel &&
      (forall j :: 0 <= j < i && Eligible(ps[j], clock) ==> min <= ps[j].burst) &&
      (forall j :: 0 <= j < idx && Eligible(ps[j], clock) ==> min < ps[j].burst)
  }

  lemma {:induction false} PickFromSpec(ps: seq<Process>, clock: int, i: int, idx: int, min: int)
    requires 0 <= i <= |ps| && BestBelow(ps, clock, i, idx, min)
    ensures var r := PickFrom(ps, clock, i, idx, min);
      (r == -1 && forall j :: 0 <= j < |ps| && Eligible(ps[j], clock) ==> ps[j].burst >= Sentinel) ||
      FirstMinimal(ps, clock, r)
    decreases |ps| - i
  {
    if i < |ps| {
      if Eligible(ps[i], clock) && ps[i].burst < min {
        PickFromSpec(ps, clock, i + 1, i, ps[i].burst);
      } else {
        PickFromSpec(ps, clock, i + 1, idx, min);
      }
    }
  }

  /**
   * The selection: -1 exactly when no eligible process has a burst below
   * the sentinel; otherwise the lowest index among the eligible processes
   * of minimal burst (the strict `<` keeps the first minimum).
   */
  lemma ShortestSpec(ps: seq<Process>, clock: int)
    ensures Shortest(ps, clock) == -1 <==>
      forall j :: 0 <= j < |ps| && Eligible(ps[j], clock) ==> ps[j].burst >= Sentinel
    ensures Shortest(ps, clock) != -1 ==> FirstMinimal(ps, clock, Shortest(ps, clock))
  {
    PickFromSpec(ps, clock, 0, -1, Sentinel);
  }

  /** Running the selected process to completion from `clock`. */
  function Complete(x: Process, clock: int): Process
  {
    x.(waiting := clock - x.arrival, finish := clock + x.burst,
       turnaround := clock + x.burst - x.arrival, completed := true)
  }

  /** Every burst is below the sentinel, so every process can be selected. */
  predicate Selectable(ps: seq<Process>)
  {
    forall i :: 0 <= i < |ps| ==> ps[i].burst < Sentinel
  }

  /** `while (completed < n)` from the given clock and counter. */
  function SjfRun(ps: seq<Process>, clock: int, completed: int): (r: seq<Process>)
    requires Selectable(ps) && completed == CountCompleted(ps)
    ensures SameWorkload(ps, r) && CountCompleted(r) == |ps|
    decreases |ps| - completed, LatestArrival(ps) - clock
  {
    if completed >= |ps| then ps
    else
      var idx := Shortest(ps, clock);
      ShortestSpec(ps, clock);
      if idx == -1 then
        IdleMeansPendingArrival(ps, clock);
        SjfRun(ps, clock + 1, completed)
      else
        var next := ps[idx := Complete(ps[idx], clock)];
        CountAfterCompleting(ps, idx, next[idx]);
        LatestArrivalOfSameWorkload(ps, next);
        var r := SjfRun(next, clock + ps[idx].burst, completed + 1);
        assert SameWorkload(ps, next);
        r
  }

  /**
   * One selection of the main loop, the new table given element-wise:
   * the selected record completes at `clock` and nothing else changes.
   */
  lemma SjfRunSelects(ps: seq<Process>, clock: int, completed: int, idx: int, next: seq<Process>)
    requires Selectable(ps) && completed == CountCompleted(ps) && completed < |ps|
    requires 0 <= idx < |ps| && Shortest(ps, clock) == idx
    requires |next| == |ps| && next[idx] == Complete(ps[idx], clock)
    requires next[..idx] == ps[..idx] && next[idx + 1..] == ps[idx + 1..]
    ensures Selectable(next) && CountCompleted(next) == completed + 1
    ensures SjfRun(ps, clock, completed) == SjfRun(next, clock + ps[idx].burst, completed + 1)
  {
    ShortestSpec(ps, clock);
    forall i | 0 <= i < |ps| && i != idx
      ensures next[i] == ps[i]
    {
      if i < idx {
        assert next[..idx][i] == ps[..idx][i];
      } else {
        assert next[idx + 1..][i - idx - 1] == ps[idx + 1..][i - idx - 1];
      }
    }
    assert next == ps[idx := Complete(ps[idx], clock)];
    CountAfterCompleting(ps, idx, next[idx]);
  }

  /** With work left and nothing eligible, the pass only moves the clock by one. */
  lemma SjfRunIdles(ps: seq<Process>, clock: int, completed: int)
    requires Selectable(ps) && completed == CountCompleted(ps) && completed < |ps|
    requires forall j :: 0 <= j < |ps| ==> !Eligible(ps[j], clock)
    ensures Shortest(ps, clock) == -1
    ensures SjfRun(ps, clock, completed) == SjfRun(ps, clock + 1, completed)
  {
    ShortestSpec(ps, clock);
  }

  /** Nothing selectable with work left means some process has yet to arrive. */
  lemma IdleMeansPendingArrival(ps: seq<Process>, clock: int)
    requires Selectable(ps) && CountCompleted(ps) < |ps|
    requires Shortest(ps, clock) == -1
    ensures LatestArrival(ps) > clock
  {
    ShortestSpec(ps, clock);
    if forall i :: 0 <= i < |ps| ==> ps[i].completed {
      CountAllCompletedConverse(ps);
    }
  }

  /** No process is marked completed, as after `reset_processes`. */
  predicate NoneCompleted(ps: seq<Process>)
  {
    forall i :: 0 <= i < |ps| ==> !ps[i].completed
  }

  /**
   * The table `simulate_SJF` leaves behind. The source starts its counter
   * at zero, so it relies on no flag being set.
   */
  function Sjf(ps: seq<Process>): (r: seq<Process>)
    requires Selectable(ps) && NoneCompleted(ps)
    ensures SameWorkload(ps, r) && CountCompleted(r) == |ps|
  {
    CountNoneCompleted(ps);
    SjfRun(ps, 0, 0)
  }

  /**
   * Per process during a run: finished processes carry metrics that obey
   * the conservation law with a non-negative waiting time; no process's
   * remaining time is ever touched.
   */
  ghost predicate SjfOk(ps0: seq<Process>, ps: seq<Process>)
  {
    SameWorkload(ps0, ps) &&
    forall i :: 0 <= i < |ps| ==>
      ps[i].remaining == ps0[i].remaining &&
      (ps[i].completed ==> Accounted(ps[i]) && ps[i].waiting >= 0)
  }

  lemma {:induction false} SjfRunOk(ps0: seq<Process>, ps: seq<Process>, clock: int, completed: int)
    requires Selectable(ps) && completed == CountCompleted(ps) && SjfOk(ps0, ps)
    ensures SjfOk(ps0, SjfRun(ps, clock, completed))
    decreases |ps| - completed, LatestArrival(ps) - clock
  {
    if completed < |ps| {
      var idx := Shortest(ps, clock);
      ShortestSpec(ps, clock);
      if idx == -1 {
        IdleMeansPendingArrival(ps, clock);
        SjfRunOk(ps0, ps, clock + 1, completed);
      } else {
        var next := ps[idx := Complete(ps[idx], clock)];
        SjfRunSelects(ps, clock, completed, idx, next);
        SjfOkAfterComplete(ps0, ps, idx, clock);
        SjfRunOk(ps0, next, clock + ps[idx].burst, completed + 1);
      }
    }
  }

  /** Once a process is finished, its record stays as it is for the rest of the run. */
  lemma {:induction false} SjfRunKeepsFinished(ps: seq<Process>, clock: int, completed: int, i: int)
    requires Selectable(ps) && completed == CountCompleted(ps)
    requires 0 <= i < |ps| && ps[i].completed
    ensures SjfRun(ps, clock, completed)[i] == ps[i]
    decreases |ps| - completed, LatestArrival(ps) - clock
  {
    if completed < |ps| {
      var idx := Shortest(ps, clock);
      ShortestSpec(ps, clock);
      if idx == -1 {
        IdleMeansPendingArrival(ps, clock);
        SjfRunKeepsFinished(ps, clock + 1, completed, i);
      } else {
        var next := ps[idx := Complete(ps[idx], clock)];
        CountAfterCompleting(ps, idx, next[idx]);
        SjfRunKeepsFinished(next, clock + ps[idx].burst, completed + 1, i);
      }
    }
  }

  /** Completing an eligible process from a clock no earlier than its arrival keeps `SjfOk`. */
  lemma SjfOkAfterComplete(ps0: seq<Process>, ps: seq<Process>, idx: int, clock: int)
    requires SjfOk(ps0, ps) && 0 <= idx < |ps| && ps[idx].arrival <= clock
    ensures SjfOk(ps0, ps[idx := Complete(ps[idx], clock)])
  {
  }

  /**
   * A whole run: the same tasks, every process completed exactly once
   * (the count of set flags is n), remaining times untouched, and each
   * finished with non-negative waiting and `turnaround == waiting + burst`.
   */
  lemma SjfComplete(ps: seq<Process>)
    requires Selectable(ps) && NoneCompleted(ps)
    ensures var r := Sjf(ps);
      SameWorkload(ps, r) && CountCompleted(r) == |ps| &&
      forall i :: 0 <= i < |r| ==>
        r[i].completed && r[i].remaining == ps[i].remaining && Accounted(r[i]) &&
        r[i].waiting >= 0 && r[i].turnaround == r[i].waiting + r[i].burst
  {
    var r := Sjf(ps);
    CountNoneCompleted(ps);
    SjfRunOk(ps, ps, 0, 0);
    CountAllCompleted(r);
  }

  /** The selection loop of `simulate_SJF`. */
  method SelectShortest(p: array<Process>, n: int, clock: int) returns (idx: int)
    requires 0 <= n <= p.Length
    ensures idx == Shortest(p[..n], clock)
  {
    idx := -1;
    var minBurst := Sentinel;
    for i := 0 to n
      invariant PickFrom(p[..n], clock, i, idx, minBurst) == Shortest(p[..n], clock)
    {
      if p[i].arrival <= clock && !p[i].completed {
        if p[i].burst < minBurst {
          minBurst := p[i].burst;
          idx := i;
        }
      }
    }
  }

  /** `simulate_SJF(p, n)` on a reset table whose bursts are below the sentinel. */
  method SimulateSJF(p: array<Process>, n: int)
    requires 0 <= n <= p.Length
    requires Selectable(p[..n]) && NoneCompleted(p[..n])
    modifies p
    ensures p[..n] == Sjf(old(p[..n]))
    ensures forall i :: n <= i < p.Length ==> p[i] == old(p[i])
  {
    ghost var final := Sjf(p[..n]);
    CountNoneCompleted(p[..n]);
    var clock, completed := 0, 0;
    while completed < n
      invariant Selectable(p[..n]) && completed == CountCompleted(p[..n])
      invariant SjfRun(p[..n], clock, completed) == final
      invariant forall i :: n <= i < p.Length ==> p[i] == old(p[i])
      decreases n - completed, LatestArrival(p[..n]) - clock
    {
      ghost var ps := p[..n];
      var idx := SelectShortest(p, n, clock);
      ShortestSpec(ps, clock);
      if idx != -1 {
        ghost var next := ps[idx := Complete(ps[idx], clock)];
        assert next[..idx] == ps[..idx] && next[idx + 1..] == ps[idx + 1..];
        SjfRunSelects(ps, clock, completed, idx, next);
        clock := RunToCompletion(p, idx, clock);
        completed := completed + 1;
        assert p[..n] == next;
      } else {
        IdleMeansPendingArrival(ps, clock);
        clock := clock + 1;
      }
    }
  }

  /** The selected process runs its whole burst from `clock`. */
  method RunToCompletion(p: array<Process>, idx: int, clock: int) returns (next: int)
    requires 0 <= idx < p.Length
    modifies p
    ensures p[idx] == Complete(old(p[idx]), clock) && next == clock + p[idx].burst
    ensures forall k :: 0 <= k < p.Length && k != idx ==> p[k] == old(p[k])
  {
    var x := p[idx];
    x := x.(waiting := clock - x.arrival);
    next := clock + x.burst;
    x := x.(finish := next);
    x := x.(turnaround := x.finish - x.arrival);
    x := x.(completed := true);
    p[idx] := x;
  }
}
