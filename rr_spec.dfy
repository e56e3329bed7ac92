/**
 * Round robin, as a function of the scheduler's state. One `Step` is one
 * pass of the `while (completed < n)` loop of `simulate_RR` and
 * `simulate_RR_with_penalty`; the inner `for` loops (the arrival scans and
 * the tick-by-tick slice) are `ScanFrom` and `Ticks`.
 */
module RoundRobinSpec {
  import opened Processes

  datatype Option<T> = None | Some(value: T)

  /**
   * `Plain` is `simulate_RR`. `Penalized(penalty, rescanWhenIdle)` is
   * `simulate_RR_with_penalty` when `rescanWhenIdle` is false (its
   * empty-queue branch only moves the clock), and the variant whose
   * empty-queue branch scans for arrivals like `simulate_RR` when it is true.
   */
  datatype Policy = Plain | Penalized(penalty: int, rescanWhenIdle: bool)

  predicate Admissible(policy: Policy)
  {
    policy.Penalized? ==> policy.penalty >= 0
  }

  /** Whether the empty-queue branch scans for arrivals. */
  predicate RescansWhenIdle(policy: Policy)
  {
    policy.Plain? || policy.rescanWhenIdle
  }

  /**
   * The three arrival scans of the source:
   * `AtStart`      arrival <= clock                              (the scan before the loop)
   * `ArrivedNow`   arrival == clock and not in_queue             (every tick of a slice)
   * `ArrivedSoFar` arrival <= clock, not in_queue, not completed (idle branch, after a penalty)
   */
  datatype Admission = AtStart | ArrivedNow | ArrivedSoFar

  /**
   * The scheduler's state. `log` is `queue[0..tail)`: every index ever
   * enqueued, in order; the ready queue proper is `log[head..]`.
   * `inQueue` is the `in_queue` flag array, which is never cleared.
   */
  datatype RRState = RRState(
    procs: seq<Process>,
    log: seq<int>,
    head: int,
    inQueue: seq<bool>,
    clock: int,
    completed: int,
    lastPid: int)

  /** The shape every state has: flags per process, queue entries are indices. */
  predicate Shaped(s: RRState)
  {
    |s.inQueue| == |s.procs| && 0 <= s.head <= |s.log| &&
    forall k :: 0 <= k < |s.log| ==> 0 <= s.log[k] < |s.procs|
  }

  function Pending(s: RRState): seq<int>
    requires 0 <= s.head <= |s.log|
  {
    s.log[s.head..]
  }

  predicate Admits(s: RRState, rule: Admission, i: int)
    requires Shaped(s) && 0 <= i < |s.procs|
  {
    var x := s.procs[i];
    match rule
    case AtStart => x.arrival <= s.clock
    case ArrivedNow => x.arrival == s.clock && !s.inQueue[i]
    case ArrivedSoFar => x.arrival <= s.clock && !s.inQueue[i] && !x.completed
  }

  /**
   * An arrival scan over indices `from` to n - 1: each process the rule
   * admits is appended to the queue and flagged, in index order.
   */
  function ScanFrom(s: RRState, rule: Admission, from: int): (r: RRState)
    requires Shaped(s) && 0 <= from <= |s.procs|
    ensures Shaped(r)
    ensures r.procs == s.procs && r.head == s.head && r.clock == s.clock
    ensures r.completed == s.completed && r.lastPid == s.lastPid
    ensures s.log <= r.log
    decreases |s.procs| - from
  {
    if from == |s.procs| then s
    else if Admits(s, rule, from) then
      ScanFrom(s.(log := s.log + [from], inQueue := s.inQueue[from := true]), rule, from + 1)
    else ScanFrom(s, rule, from + 1)
  }

  function Scan(s: RRState, rule: Admission): (r: RRState)
    requires Shaped(s)
    ensures Shaped(r)
    ensures r.procs == s.procs && r.head == s.head && r.clock == s.clock
    ensures r.completed == s.completed && r.lastPid == s.lastPid
    ensures s.log <= r.log
  {
    ScanFrom(s, rule, 0)
  }

  /** One tick of a running slice: the clock moves and exact arrivals join. */
  function Tick(s: RRState): (r: RRState)
    requires Shaped(s)
    ensures Shaped(r)
    ensures r.procs == s.procs && r.head == s.head && r.clock == s.clock + 1
    ensures r.completed == s.completed && r.lastPid == s.lastPid
    ensures s.log <= r.log
  {
    Scan(s.(clock := s.clock + 1), ArrivedNow)
  }

  /** k ticks in a row (none at all when k <= 0). */
  function Ticks(s: RRState, k: int): (r: RRState)
    requires Shaped(s)
    ensures Shaped(r)
    ensures r.procs == s.procs && r.head == s.head && r.clock == s.clock + (if k < 0 then 0 else k)
    ensures r.completed == s.completed && r.lastPid == s.lastPid
    ensures s.log <= r.log
    decreases if k < 0 then 0 else k
  {
    if k <= 0 then s else Tick(Ticks(s, k - 1))
  }

  /** The length of a slice: the quantum, or less when less time remains. */
  function Slice(remaining: int, quantum: int): int
  {
    if remaining > quantum then quantum else remaining
  }

  /** Whether dispatching `idx` costs a context switch. */
  predicate Switches(s: RRState, idx: int)
    requires Shaped(s) && 0 <= idx < |s.procs|
  {
    s.lastPid != -1 && s.procs[idx].pid != s.lastPid
  }

  /** The penalty block: charge a switch, admit what arrived meanwhile, remember the pid. */
  function Charge(s: RRState, idx: int, penalty: int): (r: RRState)
    requires Shaped(s) && 0 <= idx < |s.procs|
    ensures Shaped(r)
    ensures r.procs == s.procs && r.head == s.head && r.completed == s.completed
    ensures r.lastPid == s.procs[idx].pid
    ensures r.clock == s.clock + (if Switches(s, idx) then penalty else 0)
    ensures s.log <= r.log
  {
    var pid := s.procs[idx].pid;
    if Switches(s, idx) then Scan(s.(clock := s.clock + penalty), ArrivedSoFar).(lastPid := pid)
    else s.(lastPid := pid)
  }

  /** After the slice: finish the process, or put it back at the tail. */
  function Settle(s: RRState, idx: int, slice: int): (r: RRState)
    requires Shaped(s) && 0 <= idx < |s.procs|
    ensures Shaped(r)
    ensures |r.procs| == |s.procs| && r.head == s.head && r.clock == s.clock
    ensures r.inQueue == s.inQueue && r.lastPid == s.lastPid
    ensures s.log <= r.log && |r.log| <= |s.log| + 1
  {
    var x := s.procs[idx];
    var remaining := x.remaining - slice;
    if remaining == 0 then
      var finish := s.clock;
      var turnaround := finish - x.arrival;
      var done := x.(remaining := remaining, finish := finish, turnaround := turnaround,
                     waiting := turnaround - x.burst, completed := true);
      s.(procs := s.procs[idx := done], completed := s.completed + 1)
    else
      s.(procs := s.procs[idx := x.(remaining := remaining)], log := s.log + [idx])
  }

  /** Dequeue the head, charge the switch if any, run one slice, settle. */
  function Dispatch(s: RRState, quantum: int, policy: Policy): (r: RRState)
    requires Shaped(s) && s.head < |s.log|
    ensures Shaped(r)
    ensures |r.procs| == |s.procs| && r.head == s.head + 1 && s.log <= r.log
  {
    var idx := s.log[s.head];
    var s1 := s.(head := s.head + 1);
    var s2 := if policy.Penalized? then Charge(s1, idx, policy.penalty) else s1;
    var slice := Slice(s2.procs[idx].remaining, quantum);
    Settle(Ticks(s2, slice), idx, slice)
  }

  /** The empty-queue branch. */
  function Idle(s: RRState, policy: Policy): (r: RRState)
    requires Shaped(s)
    ensures Shaped(r)
    ensures r.procs == s.procs && r.head == s.head && r.clock == s.clock + 1 && s.log <= r.log
  {
    var s1 := s.(clock := s.clock + 1);
    if RescansWhenIdle(policy) then Scan(s1, ArrivedSoFar) else s1
  }

  /** One pass of the main loop. */
  function Step(s: RRState, quantum: int, policy: Policy): (r: RRState)
    requires Shaped(s)
    ensures Shaped(r)
    ensures |r.procs| == |s.procs| && s.head <= r.head && s.log <= r.log
  {
    if s.head == |s.log| then Idle(s, policy) else Dispatch(s, quantum, policy)
  }

  /** The locals as declared: empty queue, no flag set, clock 0, no previous pid. */
  function Start(ps: seq<Process>): (r: RRState)
    ensures Shaped(r)
  {
    RRState(ps, [], 0, seq(|ps|, _ => false), 0, 0, -1)
  }

  /** The state before the main loop: everything arrived by tick 0 is queued. */
  function Init(ps: seq<Process>): (r: RRState)
    ensures Shaped(r)
  {
    Scan(Start(ps), AtStart)
  }

  /** The ready queue has run dry although some process is unfinished. */
  predicate Stalled(s: RRState)
  {
    s.completed < |s.procs| && s.head == |s.log|
  }
}
