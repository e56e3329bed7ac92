/**
 * What one dispatch of either round-robin variant does: the slice, the
 * penalty rule, the record of the running process, and the order in which
 * arrivals and the preempted process join the queue.
 */
module RoundRobinDispatch {
  import opened Processes
  import opened RoundRobinSpec
  import opened RoundRobinInvariant

  /**
   * From s to r the log only grew, no flag was cleared, and every appended
   * entry is a process that was not queued in s and is flagged in r.
   */
  ghost predicate NewArrivals(s: RRState, r: RRState)
    requires Shaped(s) && Shaped(r) && |r.procs| == |s.procs|
  {
    s.log <= r.log &&
    (forall i :: 0 <= i < |s.procs| && s.inQueue[i] ==> r.inQueue[i]) &&
    (forall k :: |s.log| <= k < |r.log| ==> !s.inQueue[r.log[k]] && r.inQueue[r.log[k]])
  }

  lemma NewArrivalsTrans(s: RRState, t: RRState, r: RRState)
    requires Shaped(s) && Shaped(t) && Shaped(r) && |t.procs| == |s.procs| == |r.procs|
    requires NewArrivals(s, t) && NewArrivals(t, r)
    ensures NewArrivals(s, r)
  {
    forall k | |s.log| <= k < |r.log| ensures !s.inQueue[r.log[k]] && r.inQueue[r.log[k]] {
      if k < |t.log| {
        assert r.log[k] == t.log[k];
      }
    }
  }

  /**
   * A scan that only admits unqueued processes (every scan but the first)
   * appends newly flagged processes in index order, and raises exactly the
   * flags of the processes it admits.
   */
  lemma ScanAppends(s: RRState, rule: Admission)
    requires Shaped(s) && rule != AtStart
    ensures NewArrivals(s, Scan(s, rule))
    ensures forall i :: 0 <= i < |s.procs| ==>
      Scan(s, rule).inQueue[i] == (s.inQueue[i] || Admits(s, rule, i))
    ensures forall j, k :: |s.log| <= j < k < |Scan(s, rule).log| ==>
      Scan(s, rule).log[j] < Scan(s, rule).log[k]
  {
    var r := Scan(s, rule);
    var a := Admitted(s, rule, 0);
    ScanEffect(s, rule);
    AdmittedSound(s, rule, 0);
    AdmittedIncreasing(s, rule, 0);
    forall k | |s.log| <= k < |r.log| ensures !s.inQueue[r.log[k]] && r.inQueue[r.log[k]] {
      assert r.log[k] == a[k - |s.log|];
    }
    forall j, k | |s.log| <= j < k < |r.log| ensures r.log[j] < r.log[k] {
      assert r.log[j] == a[j - |s.log|] && r.log[k] == a[k - |s.log|];
    }
  }

  /** The ticks of a slice only append processes that were not queued. */
  lemma {:induction false} TicksAppend(s: RRState, k: int)
    requires Shaped(s)
    ensures NewArrivals(s, Ticks(s, k))
    decreases if k < 0 then 0 else k
  {
    if k > 0 {
      TicksAppend(s, k - 1);
      var t := Ticks(s, k - 1);
      ScanAppends(t.(clock := t.clock + 1), ArrivedNow);
      NewArrivalsTrans(s, t, Ticks(s, k));
    }
  }

  /**
   * The penalty rule: the clock jumps by `penalty` exactly when a different
   * pid follows a previous one; `last_pid` becomes the dispatched pid; after
   * the jump every arrived, unqueued, unfinished process joins the queue.
   */
  lemma ChargeEffect(s: RRState, idx: int, penalty: int)
    requires Shaped(s) && 0 <= idx < |s.procs|
    ensures var r := Charge(s, idx, penalty);
      r.clock == s.clock + (if s.lastPid != -1 && s.procs[idx].pid != s.lastPid then penalty else 0) &&
      r.lastPid == s.procs[idx].pid && r.procs == s.procs && r.head == s.head &&
      NewArrivals(s, r) &&
      forall i :: 0 <= i < |s.procs| ==>
        (r.inQueue[i] <==>
           s.inQueue[i] ||
           (Switches(s, idx) && s.procs[i].arrival <= s.clock + penalty && !s.procs[i].completed))
  {
    if Switches(s, idx) {
      ScanAppends(s.(clock := s.clock + penalty), ArrivedSoFar);
    }
  }

  /**
   * One dispatch from a main-loop state: the clock moves by the penalty (if
   * charged) plus the slice; the head advances by one; `last_pid` is
   * updated by the penalty variant only.
   */
  lemma DispatchTiming(s: RRState, quantum: int, policy: Policy)
    requires Inv(s) && s.head < |s.log| && quantum > 0 && Admissible(policy)
    ensures var idx := s.log[s.head];
      var r := Dispatch(s, quantum, policy);
      var charged := policy.Penalized? && s.lastPid != -1 && s.procs[idx].pid != s.lastPid;
      r.clock == s.clock + (if charged then policy.penalty else 0) + Slice(s.procs[idx].remaining, quantum) &&
      r.head == s.head + 1 &&
      r.lastPid == (if policy.Penalized? then s.procs[idx].pid else s.lastPid)
  {
    var idx := s.log[s.head];
    BeforeSettle(s, quantum, policy);
    var s1 := s.(head := s.head + 1);
    var s2 := if policy.Penalized? then Charge(s1, idx, policy.penalty) else s1;
    assert s2.procs == s.procs;
    var slice := Slice(s2.procs[idx].remaining, quantum);
    var s3 := Ticks(s2, slice);
    assert ProcOk(s, idx);
    assert s3.clock == s2.clock + slice;
  }

  /**
   * One dispatch rewrites only the running process's record: its remaining
   * time drops by the slice and never below zero; it is completed exactly
   * when that reaches zero, and then it finishes now, with turnaround and
   * waiting computed from its arrival and burst, and `completed` counts it.
   */
  lemma DispatchRecord(s: RRState, quantum: int, policy: Policy)
    requires Inv(s) && s.head < |s.log| && quantum > 0 && Admissible(policy)
    ensures var idx := s.log[s.head];
      var x := s.procs[idx];
      var r := Dispatch(s, quantum, policy);
      var y := r.procs[idx];
      |r.procs| == |s.procs| &&
      (forall i :: 0 <= i < |s.procs| && i != idx ==> r.procs[i] == s.procs[i]) &&
      SameTask(y, x) &&
      y.remaining == x.remaining - Slice(x.remaining, quantum) >= 0 &&
      (y.completed <==> y.remaining == 0) &&
      (y.completed ==>
         y.finish == r.clock && Accounted(y) && y.waiting >= 0 && r.completed == s.completed + 1) &&
      (!y.completed ==> y == x.(remaining := y.remaining) && r.completed == s.completed)
  {
    var idx := s.log[s.head];
    BeforeSettle(s, quantum, policy);
    var s1 := s.(head := s.head + 1);
    var s2 := if policy.Penalized? then Charge(s1, idx, policy.penalty) else s1;
    var slice := Slice(s2.procs[idx].remaining, quantum);
    HeadHasRun(s);
    SettleRecord(Ticks(s2, slice), idx, slice, quantum);
  }

  /** A pass of the main loop never rewrites a finished record. */
  lemma StepKeepsFinished(s: RRState, quantum: int, policy: Policy, i: int)
    requires Inv(s) && quantum > 0 && Admissible(policy)
    requires 0 <= i < |s.procs| && s.procs[i].completed
    ensures Step(s, quantum, policy).procs[i] == s.procs[i]
  {
    if s.head < |s.log| {
      DispatchRecord(s, quantum, policy);
      HeadHasRun(s);
    }
  }

  /** The head of the queue is unfinished and has run no longer than it has been present. */
  lemma HeadHasRun(s: RRState)
    requires Inv(s) && s.head < |s.log|
    ensures var x := s.procs[s.log[s.head]];
      !x.completed && s.clock - x.arrival >= x.burst - x.remaining
  {
    assert ProcOk(s, s.log[s.head]);
  }

  /** What settling does to the running process's record. */
  lemma SettleRecord(s: RRState, idx: int, slice: int, quantum: int)
    requires Mid(s, idx) && idx != -1 && quantum > 0
    requires slice == Slice(s.procs[idx].remaining, quantum)
    requires s.clock - s.procs[idx].arrival >= s.procs[idx].burst - s.procs[idx].remaining + slice
    ensures var x := s.procs[idx];
      var r := Settle(s, idx, slice);
      var y := r.procs[idx];
      (forall i :: 0 <= i < |s.procs| && i != idx ==> r.procs[i] == s.procs[i]) &&
      SameTask(y, x) &&
      y.remaining == x.remaining - slice >= 0 &&
      (y.completed <==> y.remaining == 0) &&
      (y.completed ==>
         y.finish == r.clock && Accounted(y) && y.waiting >= 0 && r.completed == s.completed + 1) &&
      (!y.completed ==> y == x.(remaining := y.remaining) && r.completed == s.completed)
  {
    assert ProcOk(s, idx);
  }

  /**
   * Queue order of one dispatch: the processes that arrive during the
   * penalty and the slice are appended first, in the order they were
   * detected; a preempted process goes behind all of them.
   */
  lemma DispatchQueue(s: RRState, quantum: int, policy: Policy)
    requires Inv(s) && s.head < |s.log| && quantum > 0 && Admissible(policy)
    ensures var idx := s.log[s.head];
      var r := Dispatch(s, quantum, policy);
      var end := if r.procs[idx].completed then |r.log| else |r.log| - 1;
      s.log <= r.log && |s.log| <= end &&
      (!r.procs[idx].completed ==> r.log[end] == idx) &&
      (forall k :: |s.log| <= k < end ==> !s.inQueue[r.log[k]] && r.log[k] != idx)
  {
    var idx := s.log[s.head];
    RunArrivals(s, quantum, policy);
    assert ProcOk(s, idx);
    SettleAppends(s, quantum, policy);
  }

  /** `DispatchQueue` from the facts it needs about the dispatched process. */
  lemma SettleAppends(s: RRState, quantum: int, policy: Policy)
    requires Shaped(s) && s.head < |s.log|
    requires var idx := s.log[s.head];
      s.inQueue[idx] && !s.procs[idx].completed
    requires var idx := s.log[s.head];
      var s1 := s.(head := s.head + 1);
      var s2 := if policy.Penalized? then Charge(s1, idx, policy.penalty) else s1;
      NewArrivals(s1, Ticks(s2, Slice(s2.procs[idx].remaining, quantum)))
    ensures var idx := s.log[s.head];
      var r := Dispatch(s, quantum, policy);
      var end := if r.procs[idx].completed then |r.log| else |r.log| - 1;
      s.log <= r.log && |s.log| <= end &&
      (!r.procs[idx].completed ==> r.log[end] == idx) &&
      (forall k :: |s.log| <= k < end ==> !s.inQueue[r.log[k]] && r.log[k] != idx)
  {
    var idx := s.log[s.head];
    var s1 := s.(head := s.head + 1);
    var s2 := if policy.Penalized? then Charge(s1, idx, policy.penalty) else s1;
    var slice := Slice(s2.procs[idx].remaining, quantum);
    var s3 := Ticks(s2, slice);
    var r := Dispatch(s, quantum, policy);
    assert r == Settle(s3, idx, slice);
    assert r.procs[idx].completed ==> r.log == s3.log;
    assert !r.procs[idx].completed ==> r.log == s3.log + [idx];
  }

  /** Between the dequeue and the settle, the queue only gains new arrivals. */
  lemma RunArrivals(s: RRState, quantum: int, policy: Policy)
    requires Inv(s) && s.head < |s.log| && quantum > 0 && Admissible(policy)
    ensures var idx := s.log[s.head];
      var s1 := s.(head := s.head + 1);
      var s2 := if policy.Penalized? then Charge(s1, idx, policy.penalty) else s1;
      NewArrivals(s1, Ticks(s2, Slice(s2.procs[idx].remaining, quantum)))
  {
    var idx := s.log[s.head];
    var s1 := s.(head := s.head + 1);
    var s2 := if policy.Penalized? then Charge(s1, idx, policy.penalty) else s1;
    var slice := Slice(s2.procs[idx].remaining, quantum);
    if policy.Penalized? {
      ChargeEffect(s1, idx, policy.penalty);
    }
    TicksAppend(s2, slice);
    NewArrivalsTrans(s1, s2, Ticks(s2, slice));
  }
}
