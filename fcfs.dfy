/**
 * `simulate_FCFS`: processes are served in array order, each as soon as
 * both the CPU is free and the process has arrived.
 */
module FirstComeFirstServed {
  import opened Processes

  /**
   * `current_time` after the first k processes: the clock jumps to an
   * arrival when the CPU would otherwise idle, then runs the whole burst.
   */
  function Clock(ps: seq<Process>, k: int): int
    requires 0 <= k <= |ps|
    decreases k
  {
    if k == 0 then 0
    else
      var c := Clock(ps, k - 1);
      if c < ps[k - 1].arrival then ps[k - 1].arrival + ps[k - 1].burst else c + ps[k - 1].burst
  }

  /** When process i gets the CPU: the later of the clock and its arrival. */
  function StartTime(ps: seq<Process>, i: int): (t: int)
    requires 0 <= i < |ps|
    ensures t >= ps[i].arrival && t >= Clock(ps, i)
    ensures t == ps[i].arrival || t == Clock(ps, i)
  {
    var c := Clock(ps, i);
    if c < ps[i].arrival then ps[i].arrival else c
  }

  /** The metrics of a process that starts at `start` and runs to completion. */
  function Serve(x: Process, start: int): Process
  {
    x.(waiting := start - x.arrival, finish := start + x.burst, turnaround := start + x.burst - x.arrival)
  }

  /** The table `simulate_FCFS` leaves behind. */
  function Fcfs(ps: seq<Process>): (r: seq<Process>)
    ensures |r| == |ps|
  {
    seq(|ps|, i requires 0 <= i < |ps| => Serve(ps[i], StartTime(ps, i)))
  }

  /** `simulate_FCFS(p, n)`. */
  method SimulateFCFS(p: array<Process>, n: int)
    requires 0 <= n <= p.Length
    modifies p
    ensures p[..n] == Fcfs(old(p[..n]))
    ensures forall i :: n <= i < p.Length ==> p[i] == old(p[i])
  {
    ghost var ps := p[..n];
    var current := 0;
    for i := 0 to n
      invariant current == Clock(ps, i)
      invariant forall k :: 0 <= k < i ==> p[k] == Fcfs(ps)[k]
      invariant forall k :: i <= k < p.Length ==> p[k] == old(p[k])
    {
      ServeStep(ps, i);
      current := ServeNext(p, i, current);
    }
    assert p[..n] == Fcfs(ps);
  }

  /** One iteration: process i is served from the later of `current` and its arrival. */
  method ServeNext(p: array<Process>, i: int, current: int) returns (next: int)
    requires 0 <= i < p.Length
    modifies p
    ensures var start := if current < old(p[i]).arrival then old(p[i]).arrival else current;
      p[i] == Serve(old(p[i]), start) && next == start + p[i].burst
    ensures forall k :: 0 <= k < p.Length && k != i ==> p[k] == old(p[k])
  {
    var x := p[i];
    next := current;
    if next < x.arrival {
      next := x.arrival;
    }
    x := x.(waiting := next - x.arrival);
    next := next + x.burst;
    x := x.(finish := next);
    x := x.(turnaround := x.finish - x.arrival);
    p[i] := x;
  }

  /** Serving process i moves the clock from `Clock(ps, i)` to `Clock(ps, i + 1)`. */
  lemma ServeStep(ps: seq<Process>, i: int)
    requires 0 <= i < |ps|
    ensures Fcfs(ps)[i] == Serve(ps[i], StartTime(ps, i))
    ensures Clock(ps, i + 1) == StartTime(ps, i) + ps[i].burst
  {
  }

  /**
   * Every served process: same task, untouched `remaining`/`completed`,
   * non-negative waiting, `turnaround == waiting + burst`, and a finish
   * one burst after its start, which is no earlier than its arrival.
   */
  lemma FcfsMetrics(ps: seq<Process>)
    ensures SameWorkload(ps, Fcfs(ps))
    ensures forall i :: 0 <= i < |ps| ==>
      var y := Fcfs(ps)[i];
      y.remaining == ps[i].remaining && y.completed == ps[i].completed &&
      y.waiting >= 0 && Accounted(y) && y.turnaround == y.waiting + y.burst &&
      y.finish == StartTime(ps, i) + y.burst && y.finish == Clock(ps, i + 1)
  {
  }

  /** With non-negative bursts the clock never moves back. */
  lemma {:induction false} ClockMonotone(ps: seq<Process>, j: int, k: int)
    requires forall i :: 0 <= i < |ps| ==> ps[i].burst >= 0
    requires 0 <= j <= k <= |ps|
    ensures Clock(ps, j) <= Clock(ps, k)
    decreases k
  {
    if j < k {
      ClockMonotone(ps, j, k - 1);
    }
  }

  /**
   * Executions never overlap and follow array order: a process starts no
   * earlier than every earlier process has finished. In particular finish
   * times are non-decreasing in index.
   */
  lemma NoOverlap(ps: seq<Process>)
    requires forall i :: 0 <= i < |ps| ==> ps[i].burst >= 0
    ensures forall i, j :: 0 <= i < j < |ps| ==> Fcfs(ps)[i].finish <= StartTime(ps, j)
    ensures forall i, j :: 0 <= i <= j < |ps| ==> Fcfs(ps)[i].finish <= Fcfs(ps)[j].finish
  {
    forall i, j | 0 <= i < j < |ps| ensures Fcfs(ps)[i].finish <= StartTime(ps, j) {
      ClockMonotone(ps, i + 1, j);
    }
  }

  predicate SortedByArrival(ps: seq<Process>)
  {
    forall i, j :: 0 <= i < j < |ps| ==> ps[i].arrival <= ps[j].arrival
  }

  /**
   * On arrival-sorted input (which the source relies on) the CPU idles only
   * when nothing is waiting: if the clock has to jump to process i's
   * arrival, no unserved process had arrived by then.
   */
  lemma IdleOnlyWhenNothingWaits(ps: seq<Process>)
    requires SortedByArrival(ps)
    ensures forall i, j :: 0 <= i <= j < |ps| && Clock(ps, i) < StartTime(ps, i) ==>
      ps[j].arrival > Clock(ps, i)
  {
  }

  /**
   * On arrival-sorted input with non-negative bursts, processes start in
   * order of arrival: a process that arrived strictly earlier starts no later.
   */
  lemma ServedInArrivalOrder(ps: seq<Process>)
    requires SortedByArrival(ps)
    requires forall i :: 0 <= i < |ps| ==> ps[i].burst >= 0
    ensures forall i, j :: 0 <= i < |ps| && 0 <= j < |ps| && ps[i].arrival < ps[j].arrival ==>
      StartTime(ps, i) <= StartTime(ps, j)
  {
    forall i, j | 0 <= i < |ps| && 0 <= j < |ps| && ps[i].arrival < ps[j].arrival
      ensures StartTime(ps, i) <= StartTime(ps, j)
    {
      assert i < j;
      NoOverlap(ps);
      assert Fcfs(ps)[i].finish == StartTime(ps, i) + ps[i].burst;
    }
  }
}
