/**
 * `simulate_RR` and `simulate_RR_with_penalty` over the process array, with
 * the C locals: a 100-slot `queue` whose `tail` never wraps, the sticky
 * `in_queue` flags, `head`, `current_time`, `completed` and `last_pid`.
 * Every method is proved to compute the state that `RoundRobinRun.Run`
 * describes.
 */
module RoundRobinSimulate {
  import opened Processes
  import opened RoundRobinSpec
  import opened RoundRobinInvariant
  import opened RoundRobinRun

  /** The locals of a round-robin function, read as a specification state. */
  ghost function View(p: array<Process>, n: int, queue: array<int>, inQueue: array<bool>,
                      head: int, tail: int, clock: int, completed: int, lastPid: int): RRState
    requires 0 <= n <= p.Length && n <= inQueue.Length && 0 <= tail <= queue.Length
    reads p, queue, inQueue
  {
    RRState(p[..n], queue[..tail], head, inQueue[..n], clock, completed, lastPid)
  }

  /**
   * One arrival scan over the whole table: every process that the admission
   * test `rule` admits is appended at the tail and flagged.
   */
  method AdmitArrivals(p: array<Process>, n: int, queue: array<int>, inQueue: array<bool>,
                       tail: int, clock: int, rule: Admission,
                       ghost head: int, ghost completed: int, ghost lastPid: int)
    returns (newTail: int)
    requires 0 <= n <= p.Length && n <= inQueue.Length && 0 <= tail <= queue.Length
    requires Shaped(View(p, n, queue, inQueue, head, tail, clock, completed, lastPid))
    requires |Scan(View(p, n, queue, inQueue, head, tail, clock, completed, lastPid), rule).log| <= queue.Length
    modifies queue, inQueue
    ensures tail <= newTail <= queue.Length
    ensures View(p, n, queue, inQueue, head, newTail, clock, completed, lastPid) ==
            Scan(old(View(p, n, queue, inQueue, head, tail, clock, completed, lastPid)), rule)
  {
    ghost var cur := View(p, n, queue, inQueue, head, tail, clock, completed, lastPid);
    ghost var goal := Scan(cur, rule);
    newTail := tail;
    for i := 0 to n
      invariant tail <= newTail <= queue.Length
      invariant cur == View(p, n, queue, inQueue, head, newTail, clock, completed, lastPid)
      invariant Shaped(cur) && ScanFrom(cur, rule, i) == goal
    {
      var admit := match rule
        case AtStart => p[i].arrival <= clock
        case ArrivedNow => p[i].arrival == clock && !inQueue[i]
        case ArrivedSoFar => p[i].arrival <= clock && !inQueue[i] && !p[i].completed;
      assert admit == Admits(cur, rule, i);
      if admit {
        ghost var w := cur.(log := cur.log + [i], inQueue := cur.inQueue[i := true]);
        assert |w.log| <= |ScanFrom(w, rule, i + 1).log|;
        newTail := Enqueue(queue, inQueue, n, newTail, i);
        cur := w;
      }
    }
  }

  /** Append process i at the tail of the queue and set its flag. */
  method Enqueue(queue: array<int>, inQueue: array<bool>, n: int, tail: int, i: int) returns (newTail: int)
    requires 0 <= i < n <= inQueue.Length && 0 <= tail < queue.Length
    modifies queue, inQueue
    ensures newTail == tail + 1
    ensures queue[..newTail] == old(queue[..tail]) + [i]
    ensures inQueue[..n] == old(inQueue[..n])[i := true]
  {
    queue[tail] := i;
    newTail := tail + 1;
    inQueue[i] := true;
    assert queue[..newTail] == old(queue[..tail]) + [i];
  }

  /** Later ticks of a slice only extend the queue log of earlier ones. */
  lemma {:induction false} TicksPrefix(s: RRState, j: int, k: int)
    requires Shaped(s) && 0 <= j <= k
    ensures Ticks(s, j).log <= Ticks(s, k).log
    decreases k
  {
    if j < k {
      TicksPrefix(s, j, k - 1);
    }
  }

  /**
   * The slice: `slice` ticks, each moving the clock by one and then admitting exact arrivals.
   */
  method RunSlice(p: array<Process>, n: int, queue: array<int>, inQueue: array<bool>,
                  tail: int, clock: int, slice: int,
                  ghost head: int, ghost completed: int, ghost lastPid: int)
    returns (newTail: int, newClock: int)
    requires 0 <= n <= p.Length && n <= inQueue.Length && 0 <= tail <= queue.Length && slice >= 0
    requires Shaped(View(p, n, queue, inQueue, head, tail, clock, completed, lastPid))
    requires |Ticks(View(p, n, queue, inQueue, head, tail, clock, completed, lastPid), slice).log| <= queue.Length
    modifies queue, inQueue
    ensures tail <= newTail <= queue.Length && newClock == clock + slice
    ensures View(p, n, queue, inQueue, head, newTail, newClock, completed, lastPid) ==
            Ticks(old(View(p, n, queue, inQueue, head, tail, clock, completed, lastPid)), slice)
  {
    ghost var v0 := View(p, n, queue, inQueue, head, tail, clock, completed, lastPid);
    newTail, newClock := tail, clock;
    for t := 0 to slice
      invariant tail <= newTail <= queue.Length && newClock == clock + t
      invariant View(p, n, queue, inQueue, head, newTail, newClock, completed, lastPid) == Ticks(v0, t)
    {
      TicksPrefix(v0, t + 1, slice);
      newTail, newClock := TickOnce(p, n, queue, inQueue, newTail, newClock, head, completed, lastPid);
    }
  }

  /** One `t` of the slice: `current_time++` and the exact-arrival scan. */
  method TickOnce(p: array<Process>, n: int, queue: array<int>, inQueue: array<bool>,
                  tail: int, clock: int,
                  ghost head: int, ghost completed: int, ghost lastPid: int)
    returns (newTail: int, newClock: int)
    requires 0 <= n <= p.Length && n <= inQueue.Length && 0 <= tail <= queue.Length
    requires Shaped(View(p, n, queue, inQueue, head, tail, clock, completed, lastPid))
    requires |Tick(View(p, n, queue, inQueue, head, tail, clock, completed, lastPid)).log| <= queue.Length
    modifies queue, inQueue
    ensures tail <= newTail <= queue.Length && newClock == clock + 1
    ensures View(p, n, queue, inQueue, head, newTail, newClock, completed, lastPid) ==
            Tick(old(View(p, n, queue, inQueue, head, tail, clock, completed, lastPid)))
  {
    ghost var v := View(p, n, queue, inQueue, head, tail, clock, completed, lastPid);
    newClock := clock + 1;
    assert View(p, n, queue, inQueue, head, tail, newClock, completed, lastPid) == v.(clock := v.clock + 1);
    newTail := AdmitArrivals(p, n, queue, inQueue, tail, newClock, ArrivedNow, head, completed, lastPid);
  }

  /** Log bounds inside one dispatch: each phase only extends the log of the one before. */
  ghost predicate PhasesNest(s: RRState, quantum: int, policy: Policy)
    requires Shaped(s) && s.head < |s.log|
  {
    var idx := s.log[s.head];
    var s1 := s.(head := s.head + 1);
    var s2 := if policy.Penalized? then Charge(s1, idx, policy.penalty) else s1;
    var slice := Slice(s2.procs[idx].remaining, quantum);
    s2.procs == s.procs && 0 < slice &&
    s2.log <= Ticks(s2, slice).log <= Dispatch(s, quantum, policy).log &&
    (policy.Penalized? && Switches(s1, idx) ==>
       Scan(s1.(clock := s1.clock + policy.penalty), ArrivedSoFar).log == s2.log)
  }

  lemma DispatchPhases(s: RRState, quantum: int, policy: Policy)
    requires Inv(s) && s.head < |s.log| && quantum > 0 && Admissible(policy)
    ensures PhasesNest(s, quantum, policy)
  {
    var idx := s.log[s.head];
    assert !s.procs[idx].completed && ProcOk(s, idx);
    PhasesNestWhenPending(s, quantum, policy);
  }

  lemma PhasesNestWhenPending(s: RRState, quantum: int, policy: Policy)
    requires Shaped(s) && s.head < |s.log| && quantum > 0
    requires s.procs[s.log[s.head]].remaining > 0
    ensures PhasesNest(s, quantum, policy)
  {
  }

  /**
   * The penalty block: if a previous pid differs from the dispatched one,
   * charge the switch and admit what arrived meanwhile; then remember the pid.
   */
  method ChargeSwitch(p: array<Process>, n: int, queue: array<int>, inQueue: array<bool>,
                      idx: int, penalty: int,
                      ghost head: int, tail: int, clock: int, ghost completed: int, lastPid: int)
    returns (tail': int, clock': int, lastPid': int)
    requires 0 <= n <= p.Length && n <= inQueue.Length && 0 <= tail <= queue.Length && 0 <= idx < n
    requires Shaped(View(p, n, queue, inQueue, head, tail, clock, completed, lastPid))
    requires |Charge(View(p, n, queue, inQueue, head, tail, clock, completed, lastPid), idx, penalty).log|
             <= queue.Length
    modifies queue, inQueue
    ensures tail <= tail' <= queue.Length
    ensures View(p, n, queue, inQueue, head, tail', clock', completed, lastPid') ==
            Charge(old(View(p, n, queue, inQueue, head, tail, clock, completed, lastPid)), idx, penalty)
  {
    tail', clock' := tail, clock;
    if lastPid != -1 && p[idx].pid != lastPid {
      clock' := clock' + penalty;
      tail' := AdmitArrivals(p, n, queue, inQueue, tail', clock', ArrivedSoFar, head, completed, lastPid);
    }
    lastPid' := p[idx].pid;
  }

  /**
   * After the slice: `remaining_time -= slice`; at zero the process is
   * finished with its metrics, otherwise it goes back to the tail.
   */
  method SettleRunning(p: array<Process>, n: int, queue: array<int>, inQueue: array<bool>,
                       idx: int, slice: int,
                       ghost head: int, tail: int, clock: int, completed: int, ghost lastPid: int)
    returns (tail': int, completed': int)
    requires 0 <= n <= p.Length && n <= inQueue.Length && 0 <= tail <= queue.Length && 0 <= idx < n
    requires Shaped(View(p, n, queue, inQueue, head, tail, clock, completed, lastPid))
    requires |Settle(View(p, n, queue, inQueue, head, tail, clock, completed, lastPid), idx, slice).log|
             <= queue.Length
    modifies p, queue
    ensures tail <= tail' <= queue.Length
    ensures View(p, n, queue, inQueue, head, tail', clock, completed', lastPid) ==
            Settle(old(View(p, n, queue, inQueue, head, tail, clock, completed, lastPid)), idx, slice)
    ensures forall i :: n <= i < p.Length ==> p[i] == old(p[i])
  {
    p[idx] := p[idx].(remaining := p[idx].remaining - slice);
    if p[idx].remaining == 0 {
      p[idx] := p[idx].(finish := clock);
      p[idx] := p[idx].(turnaround := p[idx].finish - p[idx].arrival);
      p[idx] := p[idx].(waiting := p[idx].turnaround - p[idx].burst);
      p[idx] := p[idx].(completed := true);
      tail', completed' := tail, completed + 1;
    } else {
      queue[tail] := idx;
      tail', completed' := tail + 1, completed;
    }
  }

  /**
   * One pass of the main loop with a non-empty queue: dequeue, the penalty
   * block (penalty variant only), the slice, and the settlement.
   */
  method DispatchNext(p: array<Process>, n: int, queue: array<int>, inQueue: array<bool>,
                      quantum: int, policy: Policy,
                      head: int, tail: int, clock: int, completed: int, lastPid: int, ghost s: RRState)
    returns (head': int, tail': int, clock': int, completed': int, lastPid': int)
    requires 0 <= n <= p.Length && n <= inQueue.Length && 0 <= tail <= queue.Length
    requires quantum > 0 && Admissible(policy)
    requires s == View(p, n, queue, inQueue, head, tail, clock, completed, lastPid)
    requires Inv(s) && head < tail && |Dispatch(s, quantum, policy).log| <= queue.Length
    modifies p, queue, inQueue
    ensures 0 <= tail' <= queue.Length
    ensures View(p, n, queue, inQueue, head', tail', clock', completed', lastPid') == Dispatch(s, quantum, policy)
    ensures forall i :: n <= i < p.Length ==> p[i] == old(p[i])
  {
    DispatchPhases(s, quantum, policy);
    var idx, slice;
    idx, slice, head', tail', clock', lastPid' :=
      RunHead(p, n, queue, inQueue, quantum, policy, head, tail, clock, completed, lastPid, s);
    assert Settle(View(p, n, queue, inQueue, head', tail', clock', completed, lastPid'), idx, slice) ==
           Dispatch(s, quantum, policy);
    tail', completed' := SettleRunning(p, n, queue, inQueue, idx, slice, head', tail', clock', completed, lastPid');
  }

  /** Dequeue, the penalty block and the slice: everything before the settlement. */
  method RunHead(p: array<Process>, n: int, queue: array<int>, inQueue: array<bool>,
                 quantum: int, policy: Policy,
                 head: int, tail: int, clock: int, ghost completed: int, lastPid: int, ghost s: RRState)
    returns (idx: int, slice: int, head': int, tail': int, clock': int, lastPid': int)
    requires 0 <= n <= p.Length && n <= inQueue.Length && 0 <= tail <= queue.Length
    requires s == View(p, n, queue, inQueue, head, tail, clock, completed, lastPid)
    requires Shaped(s) && head < tail && PhasesNest(s, quantum, policy)
    requires |Dispatch(s, quantum, policy).log| <= queue.Length
    modifies queue, inQueue
    ensures idx == s.log[s.head] && 0 <= tail' <= queue.Length
    ensures var s2 := if policy.Penalized? then Charge(s.(head := s.head + 1), idx, policy.penalty)
                      else s.(head := s.head + 1);
      slice == Slice(s2.procs[idx].remaining, quantum) &&
      View(p, n, queue, inQueue, head', tail', clock', completed, lastPid') == Ticks(s2, slice)
  {
    idx := queue[head];
    assert idx == s.log[s.head];
    ghost var s1 := s.(head := s.head + 1);
    ghost var s2 := if policy.Penalized? then Charge(s1, idx, policy.penalty) else s1;
    assert |Ticks(s2, Slice(s2.procs[idx].remaining, quantum)).log| <= queue.Length;
    assert View(p, n, queue, inQueue, head + 1, tail, clock, completed, lastPid) == s1;
    head', tail', clock', lastPid' := DequeueAndCharge(p, n, queue, inQueue, idx, policy, head, tail, clock, completed, lastPid);
    assert View(p, n, queue, inQueue, head', tail', clock', completed, lastPid') == s2;
    slice := if p[idx].remaining > quantum then quantum else p[idx].remaining;
    assert slice == Slice(s2.procs[idx].remaining, quantum);
    tail', clock' := RunSlice(p, n, queue, inQueue, tail', clock', slice, head', completed, lastPid');
  }

  /** `idx = queue[head++]`, then the penalty block of the penalty variant. */
  method DequeueAndCharge(p: array<Process>, n: int, queue: array<int>, inQueue: array<bool>,
                          idx: int, policy: Policy,
                          head: int, tail: int, clock: int, ghost completed: int, lastPid: int)
    returns (head': int, tail': int, clock': int, lastPid': int)
    requires 0 <= n <= p.Length && n <= inQueue.Length && 0 <= tail <= queue.Length && 0 <= idx < n
    requires Shaped(View(p, n, queue, inQueue, head, tail, clock, completed, lastPid)) && head < tail
    requires policy.Penalized? ==>
      |Charge(View(p, n, queue, inQueue, head + 1, tail, clock, completed, lastPid), idx, policy.penalty).log|
      <= queue.Length
    modifies queue, inQueue
    ensures head' == head + 1 && tail <= tail' <= queue.Length
    ensures var s1 := old(View(p, n, queue, inQueue, head + 1, tail, clock, completed, lastPid));
      View(p, n, queue, inQueue, head', tail', clock', completed, lastPid') ==
      if policy.Penalized? then Charge(s1, idx, policy.penalty) else s1
  {
    head' := head + 1;
    tail', clock', lastPid' := tail, clock, lastPid;
    if policy.Penalized? {
      tail', clock', lastPid' :=
        ChargeSwitch(p, n, queue, inQueue, idx, policy.penalty, head', tail', clock', completed, lastPid');
    }
  }

  /**
   * The enqueues of a run that finishes all fit in the queue: every state
   * on the way has a log that is a prefix of the final one.
   */
  lemma NextFits(s: RRState, quantum: int, policy: Policy, final: RRState)
    requires Inv(s) && quantum > 0 && Admissible(policy) && s.completed < |s.procs|
    requires Run(s, quantum, policy) == Some(final)
    ensures s.head == |s.log| ==> RescansWhenIdle(policy)
    ensures Inv(Step(s, quantum, policy))
    ensures Run(Step(s, quantum, policy), quantum, policy) == Some(final)
    ensures Step(s, quantum, policy).log <= final.log
  {
    StepKeeps(s, quantum, policy);
    RunExtends(Step(s, quantum, policy), quantum, policy);
  }

  /** One pass of `while (completed < n)`: the empty-queue branch or a dispatch. */
  method Pass(p: array<Process>, n: int, queue: array<int>, inQueue: array<bool>,
              quantum: int, policy: Policy,
              head: int, tail: int, clock: int, completed: int, lastPid: int, ghost s: RRState)
    returns (head': int, tail': int, clock': int, completed': int, lastPid': int)
    requires 0 <= n <= p.Length && n <= inQueue.Length && 0 <= tail <= queue.Length
    requires quantum > 0 && Admissible(policy)
    requires s == View(p, n, queue, inQueue, head, tail, clock, completed, lastPid)
    requires Inv(s) && |Step(s, quantum, policy).log| <= queue.Length
    modifies p, queue, inQueue
    ensures 0 <= tail' <= queue.Length
    ensures View(p, n, queue, inQueue, head', tail', clock', completed', lastPid') == Step(s, quantum, policy)
    ensures forall i :: n <= i < p.Length ==> p[i] == old(p[i])
  {
    if head == tail {
      head', tail', clock', completed', lastPid' := head, tail, clock + 1, completed, lastPid;
      if RescansWhenIdle(policy) {
        tail' := AdmitArrivals(p, n, queue, inQueue, tail', clock', ArrivedSoFar, head', completed', lastPid');
      }
    } else {
      head', tail', clock', completed', lastPid' :=
        DispatchNext(p, n, queue, inQueue, quantum, policy, head, tail, clock, completed, lastPid, s);
    }
  }

  /**
   * The common body of `simulate_RR` and `simulate_RR_with_penalty`: the
   * initial scan, then `while (completed < n)` passes until every process
   * is finished. The run must finish (`Finish(...).Some?`) and its
   * enqueues must fit the 100 queue slots.
   */
  method RoundRobin(p: array<Process>, n: int, quantum: int, policy: Policy)
    requires 0 <= n <= p.Length && n <= MaxProcesses && quantum > 0 && Admissible(policy)
    requires WellFormed(p[..n])
    requires Finish(p[..n], quantum, policy).Some?
    requires Enqueues(p[..n], quantum, policy) <= MaxProcesses
    modifies p
    ensures p[..n] == Finish(old(p[..n]), quantum, policy).value.procs
    ensures forall i :: n <= i < p.Length ==> p[i] == old(p[i])
  {
    ghost var ps := p[..n];
    ghost var final := Finish(ps, quantum, policy).value;
    var queue := new int[MaxProcesses];
    var inQueue := new bool[MaxProcesses](_ => false);
    var head, tail, clock, completed, lastPid := 0, 0, 0, 0, -1;
    InitInv(ps);
    assert inQueue[..n] == Start(ps).inQueue;
    assert View(p, n, queue, inQueue, head, tail, clock, completed, lastPid) == Start(ps);
    RunExtends(Init(ps), quantum, policy);
    tail := AdmitArrivals(p, n, queue, inQueue, tail, clock, AtStart, head, completed, lastPid);
    MainLoop(p, n, queue, inQueue, quantum, policy, tail, final);
  }

  /** `while (completed < n)`, from the state after the initial scan to the end of the run. */
  method MainLoop(p: array<Process>, n: int, queue: array<int>, inQueue: array<bool>,
                  quantum: int, policy: Policy, tail0: int, ghost final: RRState)
    requires 0 <= n <= p.Length && n <= inQueue.Length && 0 <= tail0 <= queue.Length
    requires quantum > 0 && Admissible(policy)
    requires Inv(View(p, n, queue, inQueue, 0, tail0, 0, 0, -1))
    requires Run(View(p, n, queue, inQueue, 0, tail0, 0, 0, -1), quantum, policy) == Some(final)
    requires |final.log| <= queue.Length
    modifies p, queue, inQueue
    ensures p[..n] == final.procs
    ensures forall i :: n <= i < p.Length ==> p[i] == old(p[i])
  {
    var head, tail, clock, completed, lastPid := 0, tail0, 0, 0, -1;
    while completed < n
      invariant 0 <= tail <= queue.Length
      invariant Inv(View(p, n, queue, inQueue, head, tail, clock, completed, lastPid))
      invariant Run(View(p, n, queue, inQueue, head, tail, clock, completed, lastPid), quantum, policy) == Some(final)
      invariant forall i :: n <= i < p.Length ==> p[i] == old(p[i])
      decreases Work(p[..n]), LatestArrival(p[..n]) - clock
    {
      ghost var s := View(p, n, queue, inQueue, head, tail, clock, completed, lastPid);
      NextFits(s, quantum, policy, final);
      StepKeeps(s, quantum, policy);
      head, tail, clock, completed, lastPid :=
        Pass(p, n, queue, inQueue, quantum, policy, head, tail, clock, completed, lastPid, s);
    }
  }

  /** `simulate_RR(p, n, quantum)`. */
  method SimulateRR(p: array<Process>, n: int, quantum: int)
    requires 0 <= n <= p.Length && n <= MaxProcesses && quantum > 0
    requires WellFormed(p[..n])
    requires Enqueues(p[..n], quantum, Plain) <= MaxProcesses
    modifies p
    ensures Schedule(old(p[..n]), quantum, Plain) == Some(p[..n])
    ensures forall i :: n <= i < p.Length ==> p[i] == old(p[i])
  {
    ScheduleTerminates(p[..n], quantum, Plain);
    RoundRobin(p, n, quantum, Plain);
  }

  /**
   * `simulate_RR_with_penalty(p, n, quantum, penalty)` as written: callable
   * only on a workload whose ready queue never runs dry early.
   */
  method SimulateRRWithPenalty(p: array<Process>, n: int, quantum: int, penalty: int)
    requires 0 <= n <= p.Length && n <= MaxProcesses && quantum > 0 && penalty >= 0
    requires WellFormed(p[..n])
    requires Schedule(p[..n], quantum, Penalized(penalty, false)).Some?
    requires Enqueues(p[..n], quantum, Penalized(penalty, false)) <= MaxProcesses
    modifies p
    ensures Schedule(old(p[..n]), quantum, Penalized(penalty, false)) == Some(p[..n])
    ensures forall i :: n <= i < p.Length ==> p[i] == old(p[i])
  {
    RoundRobin(p, n, quantum, Penalized(penalty, false));
  }

  /**
   * The penalty variant with its empty-queue branch scanning for arrivals
   * like `simulate_RR`: it finishes on every well-formed table.
   */
  method SimulateRRWithPenaltyRescan(p: array<Process>, n: int, quantum: int, penalty: int)
    requires 0 <= n <= p.Length && n <= MaxProcesses && quantum > 0 && penalty >= 0
    requires WellFormed(p[..n])
    requires Enqueues(p[..n], quantum, Penalized(penalty, true)) <= MaxProcesses
    modifies p
    ensures Schedule(old(p[..n]), quantum, Penalized(penalty, true)) == Some(p[..n])
    ensures forall i :: n <= i < p.Length ==> p[i] == old(p[i])
  {
    ScheduleTerminates(p[..n], quantum, Penalized(penalty, true));
    RoundRobin(p, n, quantum, Penalized(penalty, true));
  }
}
