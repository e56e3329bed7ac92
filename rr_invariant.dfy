/**
 * What every round-robin state reachable from `Init` satisfies, why one
 * pass of the main loop keeps it, and the run to completion built on it.
 */
module RoundRobinInvariant {
  import opened Processes
  import opened RoundRobinSpec

  // ---------------------------------------------------------------------
  // What one arrival scan appends
  // ---------------------------------------------------------------------

  /** The indices `from..n-1` that a scan admits, in index order. */
  function Admitted(s: RRState, rule: Admission, from: int): (a: seq<int>)
    requires Shaped(s) && 0 <= from <= |s.procs|
    decreases |s.procs| - from
  {
    if from == |s.procs| then []
    else (if Admits(s, rule, from) then [from] else []) + Admitted(s, rule, from + 1)
  }

  /** Every index a scan admits lies in `from..n-1` and passes the admission test. */
  lemma {:induction false} AdmittedSound(s: RRState, rule: Admission, from: int)
    requires Shaped(s) && 0 <= from <= |s.procs|
    ensures forall k :: 0 <= k < |Admitted(s, rule, from)| ==>
      from <= Admitted(s, rule, from)[k] < |s.procs| && Admits(s, rule, Admitted(s, rule, from)[k])
    decreases |s.procs| - from
  {
    if from < |s.procs| {
      AdmittedSound(s, rule, from + 1);
      var rest := Admitted(s, rule, from + 1);
      if Admits(s, rule, from) {
        assert Admitted(s, rule, from) == [from] + rest;
      } else {
        assert Admitted(s, rule, from) == rest;
      }
    }
  }

  /** Every index in `from..n-1` that passes the admission test is admitted. */
  lemma {:induction false} AdmittedComplete(s: RRState, rule: Admission, from: int)
    requires Shaped(s) && 0 <= from <= |s.procs|
    ensures forall i :: from <= i < |s.procs| && Admits(s, rule, i) ==> i in Admitted(s, rule, from)
    decreases |s.procs| - from
  {
    if from < |s.procs| {
      AdmittedComplete(s, rule, from + 1);
      var rest := Admitted(s, rule, from + 1);
      if Admits(s, rule, from) {
        assert Admitted(s, rule, from) == [from] + rest;
      } else {
        assert Admitted(s, rule, from) == rest;
      }
    }
  }

  /** A scan admits in increasing index order, so each index at most once. */
  lemma {:induction false} AdmittedIncreasing(s: RRState, rule: Admission, from: int)
    requires Shaped(s) && 0 <= from <= |s.procs|
    ensures forall j, k :: 0 <= j < k < |Admitted(s, rule, from)| ==>
      Admitted(s, rule, from)[j] < Admitted(s, rule, from)[k]
    decreases |s.procs| - from
  {
    if from < |s.procs| {
      AdmittedIncreasing(s, rule, from + 1);
      var rest := Admitted(s, rule, from + 1);
      AdmittedAbove(s, rule, from + 1);
      if Admits(s, rule, from) {
        PrependSmaller(from, rest);
      }
    }
  }

  lemma {:induction false} AdmittedAbove(s: RRState, rule: Admission, from: int)
    requires Shaped(s) && 0 <= from <= |s.procs|
    ensures forall k :: 0 <= k < |Admitted(s, rule, from)| ==> from <= Admitted(s, rule, from)[k]
    decreases |s.procs| - from
  {
    if from < |s.procs| {
      AdmittedAbove(s, rule, from + 1);
    }
  }

  lemma PrependSmaller(x: int, a: seq<int>)
    requires forall k :: 0 <= k < |a| ==> x < a[k]
    requires forall j, k :: 0 <= j < k < |a| ==> a[j] < a[k]
    ensures forall j, k :: 0 <= j < k < |[x] + a| ==> ([x] + a)[j] < ([x] + a)[k]
  {
    forall j, k | 0 <= j < k < |[x] + a| ensures ([x] + a)[j] < ([x] + a)[k] {
      assert ([x] + a)[k] == a[k - 1];
      if j > 0 {
        assert ([x] + a)[j] == a[j - 1];
      }
    }
  }

  /** A scan admits exactly the indices it accepts, each once, in increasing order. */
  lemma AdmittedMembers(s: RRState, rule: Admission, from: int)
    requires Shaped(s) && 0 <= from <= |s.procs|
    ensures forall k :: 0 <= k < |Admitted(s, rule, from)| ==>
      from <= Admitted(s, rule, from)[k] < |s.procs| && Admits(s, rule, Admitted(s, rule, from)[k])
    ensures forall i :: from <= i < |s.procs| && Admits(s, rule, i) ==> i in Admitted(s, rule, from)
    ensures forall j, k :: 0 <= j < k < |Admitted(s, rule, from)| ==>
      Admitted(s, rule, from)[j] < Admitted(s, rule, from)[k]
  {
    AdmittedSound(s, rule, from);
    AdmittedComplete(s, rule, from);
    AdmittedIncreasing(s, rule, from);
  }

  /** Admission of i depends only on the table, the clock and in_queue[i]. */
  lemma {:induction false} AdmittedFrame(s: RRState, t: RRState, rule: Admission, from: int)
    requires Shaped(s) && Shaped(t) && 0 <= from <= |s.procs|
    requires t.procs == s.procs && t.clock == s.clock
    requires forall i :: from <= i < |s.procs| ==> t.inQueue[i] == s.inQueue[i]
    ensures Admitted(t, rule, from) == Admitted(s, rule, from)
    decreases |s.procs| - from
  {
    if from < |s.procs| {
      AdmittedFrame(s, t, rule, from + 1);
    }
  }

  /** The scan appends the admitted indices and raises exactly their flags. */
  lemma ScanFromEffect(s: RRState, rule: Admission, from: int)
    requires Shaped(s) && 0 <= from <= |s.procs|
    ensures ScanFrom(s, rule, from).log == s.log + Admitted(s, rule, from)
    ensures forall i :: 0 <= i < |s.procs| ==>
      ScanFrom(s, rule, from).inQueue[i] == (s.inQueue[i] || (from <= i && Admits(s, rule, i)))
  {
    ScanFromLog(s, rule, from);
    ScanFromFlags(s, rule, from);
  }

  lemma AppendAssoc(a: seq<int>, b: seq<int>, c: seq<int>)
    ensures (a + b) + c == a + (b + c)
  {
  }

  lemma {:induction false} ScanFromLog(s: RRState, rule: Admission, from: int)
    requires Shaped(s) && 0 <= from <= |s.procs|
    ensures ScanFrom(s, rule, from).log == s.log + Admitted(s, rule, from)
    decreases |s.procs| - from
  {
    if from < |s.procs| {
      if Admits(s, rule, from) {
        var t := s.(log := s.log + [from], inQueue := s.inQueue[from := true]);
        var rest := Admitted(s, rule, from + 1);
        ScanFromLog(t, rule, from + 1);
        calc {
          ScanFrom(s, rule, from).log;
          ScanFrom(t, rule, from + 1).log;
          t.log + Admitted(t, rule, from + 1);
          { AdmittedFrame(s, t, rule, from + 1); }
          (s.log + [from]) + rest;
          { AppendAssoc(s.log, [from], rest); }
          s.log + ([from] + rest);
          s.log + Admitted(s, rule, from);
        }
      } else {
        ScanFromLog(s, rule, from + 1);
      }
    }
  }

  lemma {:induction false} ScanFromFlags(s: RRState, rule: Admission, from: int)
    requires Shaped(s) && 0 <= from <= |s.procs|
    ensures forall i :: 0 <= i < |s.procs| ==>
      ScanFrom(s, rule, from).inQueue[i] == (s.inQueue[i] || (from <= i && Admits(s, rule, i)))
    decreases |s.procs| - from
  {
    if from < |s.procs| {
      if Admits(s, rule, from) {
        var t := s.(log := s.log + [from], inQueue := s.inQueue[from := true]);
        ScanFromFlags(t, rule, from + 1);
        forall i | from < i < |s.procs| ensures Admits(t, rule, i) == Admits(s, rule, i) {
        }
      } else {
        ScanFromFlags(s, rule, from + 1);
      }
    }
  }

  lemma ScanEffect(s: RRState, rule: Admission)
    requires Shaped(s)
    ensures Scan(s, rule).log == s.log + Admitted(s, rule, 0)
    ensures forall i :: 0 <= i < |s.procs| ==>
      Scan(s, rule).inQueue[i] == (s.inQueue[i] || Admits(s, rule, i))
  {
    ScanFromEffect(s, rule, 0);
  }

  // ---------------------------------------------------------------------
  // The invariant
  // ---------------------------------------------------------------------

  /**
   * The ready queue `log[head..]` holds distinct indices of queued, unfinished
   * processes, and every queued unfinished process other than the one
   * holding the CPU (`running`, or -1) waits in it.
   */
  ghost predicate QueueOk(s: RRState, running: int)
    requires Shaped(s)
  {
    (forall j, k :: s.head <= j < k < |s.log| ==> s.log[j] != s.log[k]) &&
    (forall k :: s.head <= k < |s.log| ==>
       s.inQueue[s.log[k]] && !s.procs[s.log[k]].completed && s.log[k] != running) &&
    (forall i :: 0 <= i < |s.procs| && s.inQueue[i] && !s.procs[i].completed && i != running ==>
       i in s.log[s.head..])
  }

  /** in_queue[i] is set exactly for the processes that have arrived by `clock`. */
  ghost predicate SyncedAt(s: RRState, clock: int)
    requires Shaped(s)
  {
    forall i :: 0 <= i < |s.procs| ==> (s.inQueue[i] <==> s.procs[i].arrival <= clock)
  }

  /**
   * Per process: positive burst; a finished process was queued, has no work
   * left and carries its metrics (conservation law, non-negative waiting,
   * finish no later than now); an unfinished one has 0 < remaining <= burst,
   * has run no longer than it has been in the system, and has not run at
   * all if it has not arrived.
   */
  ghost predicate ProcOk(s: RRState, i: int)
    requires Shaped(s) && 0 <= i < |s.procs|
  {
    var x := s.procs[i];
    x.burst > 0 &&
    (x.completed ==>
       s.inQueue[i] && x.remaining == 0 && Accounted(x) && x.waiting >= 0 && x.finish <= s.clock) &&
    (!x.completed ==>
       0 < x.remaining <= x.burst &&
       (s.inQueue[i] ==> s.clock - x.arrival >= x.burst - x.remaining) &&
       (!s.inQueue[i] ==> x.remaining == x.burst))
  }

  ghost predicate ProcsOk(s: RRState)
    requires Shaped(s)
  {
    forall i :: 0 <= i < |s.procs| ==> ProcOk(s, i)
  }

  /** The invariant at any point of a pass, with `running` off the queue. */
  ghost predicate Mid(s: RRState, running: int)
  {
    Shaped(s) && QueueOk(s, running) && SyncedAt(s, s.clock) && ProcsOk(s) &&
    s.completed == CountCompleted(s.procs) &&
    (running != -1 ==>
       0 <= running < |s.procs| && s.inQueue[running] && !s.procs[running].completed)
  }

  /** The invariant of the main loop. */
  ghost predicate Inv(s: RRState)
  {
    Mid(s, -1)
  }

  /** Sum of remaining work: what every dispatch reduces. */
  function Work(ps: seq<Process>): int
  {
    if ps == [] then 0 else ps[0].remaining + Work(ps[1..])
  }

  // ---------------------------------------------------------------------
  // Small facts
  // ---------------------------------------------------------------------

  lemma {:induction false} WorkNonNegative(ps: seq<Process>)
    requires forall i :: 0 <= i < |ps| ==> ps[i].remaining >= 0
    ensures Work(ps) >= 0
  {
    if ps != [] {
      assert forall i :: 0 <= i < |ps| - 1 ==> ps[1..][i] == ps[i + 1];
      WorkNonNegative(ps[1..]);
    }
  }

  lemma {:induction false} WorkAfterUpdate(ps: seq<Process>, i: int, x: Process)
    requires 0 <= i < |ps|
    ensures Work(ps[i := x]) == Work(ps) - ps[i].remaining + x.remaining
  {
    if i > 0 {
      assert ps[i := x][1..] == ps[1..][i - 1 := x];
      WorkAfterUpdate(ps[1..], i - 1, x);
    } else {
      assert ps[i := x][1..] == ps[1..];
    }
  }

  /** ProcOk only gets easier as the clock moves forward. */
  lemma ClockForward(s: RRState, clock: int)
    requires Shaped(s) && ProcsOk(s) && clock >= s.clock
    ensures ProcsOk(s.(clock := clock))
  {
    var t := s.(clock := clock);
    forall i | 0 <= i < |s.procs| ensures ProcOk(t, i) {
      assert ProcOk(s, i);
    }
  }

  // ---------------------------------------------------------------------
  // Each phase of a pass keeps the invariant
  // ---------------------------------------------------------------------

  /**
   * After the clock moved from `before` to `s.clock` (by one tick for the
   * exact-arrival scan), a scan admits exactly the processes that are not
   * queued and have arrived by now.
   */
  lemma ScanAdmitsArrivals(s: RRState, rule: Admission, before: int)
    requires Shaped(s) && ProcsOk(s) && SyncedAt(s, before) && before <= s.clock
    requires rule == ArrivedSoFar || (rule == ArrivedNow && s.clock == before + 1)
    ensures forall i :: 0 <= i < |s.procs| ==>
      (Admits(s, rule, i) <==> !s.inQueue[i] && s.procs[i].arrival <= s.clock)
  {
    forall i | 0 <= i < |s.procs|
      ensures Admits(s, rule, i) <==> !s.inQueue[i] && s.procs[i].arrival <= s.clock
    {
      assert ProcOk(s, i);
    }
  }

  lemma ScanSyncs(s: RRState, rule: Admission, before: int)
    requires Shaped(s) && ProcsOk(s) && SyncedAt(s, before) && before <= s.clock
    requires rule == ArrivedSoFar || (rule == ArrivedNow && s.clock == before + 1)
    ensures SyncedAt(Scan(s, rule), s.clock)
  {
    ScanEffect(s, rule);
    ScanAdmitsArrivals(s, rule, before);
  }

  lemma ScanKeepsProcs(s: RRState, rule: Admission, before: int)
    requires Shaped(s) && ProcsOk(s) && SyncedAt(s, before) && before <= s.clock
    requires rule == ArrivedSoFar || (rule == ArrivedNow && s.clock == before + 1)
    ensures ProcsOk(Scan(s, rule))
  {
    var r := Scan(s, rule);
    ScanEffect(s, rule);
    ScanAdmitsArrivals(s, rule, before);
    forall i | 0 <= i < |s.procs| ensures ProcOk(r, i) {
      assert ProcOk(s, i);
    }
  }

  /** The entries a scan appends are new to the queue and distinct. */
  lemma ScanKeepsDistinct(s: RRState, rule: Admission, running: int, before: int)
    requires Shaped(s) && QueueOk(s, running) && ProcsOk(s)
    requires SyncedAt(s, before) && before <= s.clock
    requires rule == ArrivedSoFar || (rule == ArrivedNow && s.clock == before + 1)
    ensures var r := Scan(s, rule);
      forall j, k :: r.head <= j < k < |r.log| ==> r.log[j] != r.log[k]
  {
    var r := Scan(s, rule);
    var a := Admitted(s, rule, 0);
    ScanEffect(s, rule);
    AdmittedSound(s, rule, 0);
    AdmittedIncreasing(s, rule, 0);
    ScanAdmitsArrivals(s, rule, before);
    forall j, k | r.head <= j < k < |r.log| ensures r.log[j] != r.log[k] {
      if k >= |s.log| && j < |s.log| {
        assert s.inQueue[r.log[j]];
        assert r.log[k] == a[k - |s.log|];
      } else if j >= |s.log| {
        assert r.log[j] == a[j - |s.log|] && r.log[k] == a[k - |s.log|];
      }
    }
  }

  /** The entries a scan appends are queued, unfinished and not the running process. */
  lemma ScanKeepsEntries(s: RRState, rule: Admission, running: int, before: int)
    requires Shaped(s) && QueueOk(s, running) && ProcsOk(s)
    requires running != -1 ==> 0 <= running < |s.procs| && s.inQueue[running]
    requires SyncedAt(s, before) && before <= s.clock
    requires rule == ArrivedSoFar || (rule == ArrivedNow && s.clock == before + 1)
    ensures var r := Scan(s, rule);
      forall k :: r.head <= k < |r.log| ==>
        r.inQueue[r.log[k]] && !r.procs[r.log[k]].completed && r.log[k] != running
  {
    var r := Scan(s, rule);
    var a := Admitted(s, rule, 0);
    ScanEffect(s, rule);
    AdmittedSound(s, rule, 0);
    ScanAdmitsArrivals(s, rule, before);
    forall k | r.head <= k < |r.log|
      ensures r.inQueue[r.log[k]] && !r.procs[r.log[k]].completed && r.log[k] != running
    {
      if k >= |s.log| {
        var i := r.log[k];
        assert i == a[k - |s.log|];
        assert ProcOk(s, i);
      } else {
        assert r.log[k] == s.log[k];
      }
    }
  }

  /** After a scan every queued unfinished process other than the running one waits. */
  lemma ScanKeepsWaiting(s: RRState, rule: Admission, running: int, before: int)
    requires Shaped(s) && QueueOk(s, running) && ProcsOk(s)
    requires SyncedAt(s, before) && before <= s.clock
    requires rule == ArrivedSoFar || (rule == ArrivedNow && s.clock == before + 1)
    ensures var r := Scan(s, rule);
      forall i :: 0 <= i < |r.procs| && r.inQueue[i] && !r.procs[i].completed && i != running ==>
        i in r.log[r.head..]
  {
    var r := Scan(s, rule);
    var a := Admitted(s, rule, 0);
    ScanEffect(s, rule);
    AdmittedComplete(s, rule, 0);
    ScanAdmitsArrivals(s, rule, before);
    forall i | 0 <= i < |r.procs| && r.inQueue[i] && !r.procs[i].completed && i != running
      ensures i in r.log[r.head..]
    {
      if s.inQueue[i] {
        assert i in s.log[s.head..];
        var k :| s.head <= k < |s.log| && s.log[k] == i;
        assert r.log[k] == i;
      } else {
        assert i in a;
        var k :| 0 <= k < |a| && a[k] == i;
        assert r.log[|s.log| + k] == i;
      }
    }
  }

  lemma ScanKeepsQueue(s: RRState, rule: Admission, running: int, before: int)
    requires Shaped(s) && QueueOk(s, running) && ProcsOk(s)
    requires running != -1 ==> 0 <= running < |s.procs| && s.inQueue[running]
    requires SyncedAt(s, before) && before <= s.clock
    requires rule == ArrivedSoFar || (rule == ArrivedNow && s.clock == before + 1)
    ensures QueueOk(Scan(s, rule), running)
  {
    ScanKeepsDistinct(s, rule, running, before);
    ScanKeepsEntries(s, rule, running, before);
    ScanKeepsWaiting(s, rule, running, before);
  }

  /** A scan after the clock moved restores the invariant. */
  lemma ScanRestores(s: RRState, rule: Admission, running: int, before: int)
    requires Shaped(s) && QueueOk(s, running) && ProcsOk(s)
    requires s.completed == CountCompleted(s.procs)
    requires running != -1 ==>
      0 <= running < |s.procs| && s.inQueue[running] && !s.procs[running].completed
    requires SyncedAt(s, before) && before <= s.clock
    requires rule == ArrivedSoFar || (rule == ArrivedNow && s.clock == before + 1)
    ensures Mid(Scan(s, rule), running)
  {
    ScanSyncs(s, rule, before);
    ScanKeepsProcs(s, rule, before);
    ScanKeepsQueue(s, rule, running, before);
    ScanEffect(s, rule);
  }

  /** Taking the head off the queue makes it the running process. */
  lemma Dequeue(s: RRState)
    requires Inv(s) && s.head < |s.log|
    ensures Mid(s.(head := s.head + 1), s.log[s.head])
  {
    var idx := s.log[s.head];
    var t := s.(head := s.head + 1);
    DequeueKeepsProcs(s);
    assert s.log[s.head..] == [idx] + t.log[t.head..];
    forall i | 0 <= i < |t.procs| && t.inQueue[i] && !t.procs[i].completed && i != idx
      ensures i in t.log[t.head..]
    {
      assert i in s.log[s.head..];
    }
  }

  lemma DequeueKeepsProcs(s: RRState)
    requires Shaped(s) && ProcsOk(s) && s.head < |s.log|
    ensures ProcsOk(s.(head := s.head + 1))
  {
    var t := s.(head := s.head + 1);
    forall i | 0 <= i < |t.procs| ensures ProcOk(t, i) {
      assert ProcOk(s, i);
    }
  }

  /** The penalty block keeps the invariant and never moves the clock back. */
  lemma ChargeKeeps(s: RRState, idx: int, penalty: int)
    requires Mid(s, idx) && idx != -1 && penalty >= 0
    ensures Mid(Charge(s, idx, penalty), idx)
  {
    if Switches(s, idx) {
      ChargedSwitchKeeps(s, idx, penalty);
    } else {
      MidIgnoresLastPid(s, idx, s.procs[idx].pid);
    }
  }

  /** A charged switch: the clock jumps, a rescan follows, the pid is remembered. */
  lemma ChargedSwitchKeeps(s: RRState, idx: int, penalty: int)
    requires Mid(s, idx) && idx != -1 && penalty >= 0 && Switches(s, idx)
    ensures Mid(Scan(s.(clock := s.clock + penalty), ArrivedSoFar).(lastPid := s.procs[idx].pid), idx)
  {
    var t := s.(clock := s.clock + penalty);
    ClockForward(s, t.clock);
    ScanRestores(t, ArrivedSoFar, idx, s.clock);
    MidIgnoresLastPid(Scan(t, ArrivedSoFar), idx, s.procs[idx].pid);
  }

  lemma MidIgnoresLastPid(s: RRState, running: int, pid: int)
    requires Mid(s, running)
    ensures Mid(s.(lastPid := pid), running)
  {
    var t := s.(lastPid := pid);
    assert forall i :: 0 <= i < |s.procs| ==> ProcOk(s, i) == ProcOk(t, i);
  }

  /** One tick of a slice keeps the invariant. */
  lemma TickKeeps(s: RRState, running: int)
    requires Mid(s, running)
    ensures Mid(Tick(s), running)
  {
    var u := s.(clock := s.clock + 1);
    ClockForward(s, u.clock);
    ScanRestores(u, ArrivedNow, running, s.clock);
  }

  lemma {:induction false} TicksKeep(s: RRState, k: int, running: int)
    requires Mid(s, running)
    ensures Mid(Ticks(s, k), running)
    decreases if k < 0 then 0 else k
  {
    if k > 0 {
      TicksKeep(s, k - 1, running);
      LastTickKeeps(s, k, running);
    }
  }

  lemma LastTickKeeps(s: RRState, k: int, running: int)
    requires k > 0 && Shaped(s) && Mid(Ticks(s, k - 1), running)
    ensures Mid(Ticks(s, k), running)
  {
    TickKeeps(Ticks(s, k - 1), running);
  }

  /** The running process's record after settling satisfies the per-process invariant. */
  lemma SettleKeepsProcs(s: RRState, idx: int, slice: int, quantum: int)
    requires Mid(s, idx) && idx != -1 && quantum > 0
    requires slice == Slice(s.procs[idx].remaining, quantum)
    requires s.clock - s.procs[idx].arrival >= s.procs[idx].burst - s.procs[idx].remaining + slice
    ensures var r := Settle(s, idx, slice);
      r.procs == s.procs[idx := r.procs[idx]] && SameTask(r.procs[idx], s.procs[idx]) &&
      r.procs[idx].completed == (s.procs[idx].remaining <= quantum) &&
      ProcsOk(r)
  {
    var r := Settle(s, idx, slice);
    assert ProcOk(s, idx);
    forall i | 0 <= i < |s.procs| ensures ProcOk(r, i) {
      assert ProcOk(s, i);
    }
  }

  /** Finishing the running process leaves the queue as it was. */
  lemma SettleFinishes(s: RRState, idx: int, slice: int, quantum: int)
    requires Mid(s, idx) && idx != -1 && quantum > 0
    requires slice == Slice(s.procs[idx].remaining, quantum)
    requires s.procs[idx].remaining <= quantum
    requires s.clock - s.procs[idx].arrival >= s.procs[idx].burst - s.procs[idx].remaining + slice
    ensures Inv(Settle(s, idx, slice))
  {
    var r := Settle(s, idx, slice);
    SettleKeepsProcs(s, idx, slice, quantum);
    CountAfterCompleting(s.procs, idx, r.procs[idx]);
    assert r.log == s.log;
    assert QueueOk(r, -1);
  }

  /** A process with work left goes back to the tail of the queue. */
  lemma SettleRequeues(s: RRState, idx: int, slice: int, quantum: int)
    requires Mid(s, idx) && idx != -1 && quantum > 0
    requires slice == Slice(s.procs[idx].remaining, quantum)
    requires s.procs[idx].remaining > quantum
    requires s.clock - s.procs[idx].arrival >= s.procs[idx].burst - s.procs[idx].remaining + slice
    ensures Inv(Settle(s, idx, slice))
  {
    var r := Settle(s, idx, slice);
    SettleKeepsProcs(s, idx, slice, quantum);
    CountAfterUpdate(s.procs, idx, r.procs[idx]);
    RequeueOk(s, idx, slice);
  }

  /** Putting the running process back at the tail closes the queue invariant. */
  lemma RequeueOk(s: RRState, idx: int, slice: int)
    requires Shaped(s) && QueueOk(s, idx) && 0 <= idx < |s.procs|
    requires s.inQueue[idx] && !s.procs[idx].completed && 0 < slice < s.procs[idx].remaining
    ensures QueueOk(Settle(s, idx, slice), -1)
  {
    var r := Settle(s, idx, slice);
    assert r.log == s.log + [idx];
    assert r.log[r.head..] == s.log[s.head..] + [idx];
    forall i | 0 <= i < |r.procs| && r.inQueue[i] && !r.procs[i].completed
      ensures i in r.log[r.head..]
    {
      if i != idx {
        assert i in s.log[s.head..];
      }
    }
  }

  /**
   * Settling the running process after a slice it has had time to run
   * restores the main-loop invariant.
   */
  lemma SettleKeeps(s: RRState, idx: int, slice: int, quantum: int)
    requires Mid(s, idx) && idx != -1 && quantum > 0
    requires slice == Slice(s.procs[idx].remaining, quantum)
    requires s.clock - s.procs[idx].arrival >= s.procs[idx].burst - s.procs[idx].remaining + slice
    ensures Inv(Settle(s, idx, slice))
  {
    if s.procs[idx].remaining <= quantum {
      SettleFinishes(s, idx, slice, quantum);
    } else {
      SettleRequeues(s, idx, slice, quantum);
    }
  }

  /**
   * Dequeue, penalty and slice: the running process is off the queue,
   * its record untouched, and the clock has moved by at least the slice.
   */
  lemma BeforeSettle(s: RRState, quantum: int, policy: Policy)
    requires Inv(s) && s.head < |s.log| && quantum > 0 && Admissible(policy)
    ensures var idx := s.log[s.head];
      var s1 := s.(head := s.head + 1);
      var s2 := if policy.Penalized? then Charge(s1, idx, policy.penalty) else s1;
      var slice := Slice(s2.procs[idx].remaining, quantum);
      var s3 := Ticks(s2, slice);
      Mid(s3, idx) && s3.procs == s.procs && s3.clock >= s.clock + slice &&
      Dispatch(s, quantum, policy) == Settle(s3, idx, slice)
  {
    var idx := s.log[s.head];
    var s1 := s.(head := s.head + 1);
    Dequeue(s);
    var s2 := if policy.Penalized? then Charge(s1, idx, policy.penalty) else s1;
    if policy.Penalized? {
      ChargeKeeps(s1, idx, policy.penalty);
    }
    assert Mid(s2, idx) && s2.procs == s.procs && s2.clock >= s.clock;
    var slice := Slice(s2.procs[idx].remaining, quantum);
    TicksKeep(s2, slice, idx);
  }

  /** A dispatch keeps the invariant. */
  lemma DispatchKeeps(s: RRState, quantum: int, policy: Policy)
    requires Inv(s) && s.head < |s.log| && quantum > 0 && Admissible(policy)
    ensures Inv(Dispatch(s, quantum, policy))
  {
    var idx := s.log[s.head];
    BeforeSettle(s, quantum, policy);
    var s1 := s.(head := s.head + 1);
    var s2 := if policy.Penalized? then Charge(s1, idx, policy.penalty) else s1;
    var slice := Slice(s2.procs[idx].remaining, quantum);
    var s3 := Ticks(s2, slice);
    assert ProcOk(s, idx);
    assert s.inQueue[idx];
    SettleKeeps(s3, idx, slice, quantum);
  }

  /** A dispatch keeps the workload and strictly reduces the remaining work. */
  lemma DispatchProgress(s: RRState, quantum: int, policy: Policy)
    requires Inv(s) && s.head < |s.log| && quantum > 0 && Admissible(policy)
    ensures SameWorkload(s.procs, Dispatch(s, quantum, policy).procs)
    ensures Work(Dispatch(s, quantum, policy).procs) < Work(s.procs)
  {
    var idx := s.log[s.head];
    assert !s.procs[idx].completed;
    assert ProcOk(s, idx);
    DispatchWork(s, quantum, policy);
  }

  lemma DispatchWork(s: RRState, quantum: int, policy: Policy)
    requires Shaped(s) && s.head < |s.log| && quantum > 0 && Admissible(policy)
    requires s.procs[s.log[s.head]].remaining > 0
    ensures SameWorkload(s.procs, Dispatch(s, quantum, policy).procs)
    ensures Work(Dispatch(s, quantum, policy).procs) < Work(s.procs)
  {
    var idx := s.log[s.head];
    var s1 := s.(head := s.head + 1);
    var s2 := if policy.Penalized? then Charge(s1, idx, policy.penalty) else s1;
    var slice := Slice(s2.procs[idx].remaining, quantum);
    var s3 := Ticks(s2, slice);
    assert s3.procs == s.procs;
    assert Settle(s3, idx, slice) == Dispatch(s, quantum, policy);
    SettleOneRecord(s3, idx, slice);
    var y := Settle(s3, idx, slice).procs[idx];
    WorkAfterUpdate(s.procs, idx, y);
    SameWorkloadUpdate(s.procs, idx, y);
  }

  /** Settling rewrites the running record alone, lowering `remaining` by the slice. */
  lemma SettleOneRecord(s: RRState, idx: int, slice: int)
    requires Shaped(s) && 0 <= idx < |s.procs|
    ensures var y := Settle(s, idx, slice).procs[idx];
      Settle(s, idx, slice).procs == s.procs[idx := y] &&
      SameTask(s.procs[idx], y) && y.remaining == s.procs[idx].remaining - slice
  {
  }

  /** An idle pass that rescans keeps the invariant. */
  lemma IdleKeeps(s: RRState, policy: Policy)
    requires Inv(s) && s.head == |s.log| && RescansWhenIdle(policy)
    ensures Inv(Idle(s, policy))
  {
    var t := s.(clock := s.clock + 1);
    ClockForward(s, t.clock);
    ScanRestores(t, ArrivedSoFar, -1, s.clock);
  }

  /** An unfinished process off the queue has not arrived yet. */
  lemma StalledWaitsForArrival(s: RRState)
    requires Inv(s) && Stalled(s)
    ensures LatestArrival(s.procs) > s.clock
  {
    if forall i :: 0 <= i < |s.procs| ==> s.procs[i].completed {
      CountAllCompletedConverse(s.procs);
    } else {
      var i :| 0 <= i < |s.procs| && !s.procs[i].completed;
      assert !s.inQueue[i];
    }
  }

  /**
   * One pass of the main loop keeps the invariant and the workload, and
   * makes progress: less work left, or (idle) the clock closer to the
   * last arrival.
   */
  lemma StepKeeps(s: RRState, quantum: int, policy: Policy)
    requires Inv(s) && quantum > 0 && Admissible(policy)
    requires s.completed < |s.procs|
    requires s.head == |s.log| ==> RescansWhenIdle(policy)
    ensures Inv(Step(s, quantum, policy))
    ensures SameWorkload(s.procs, Step(s, quantum, policy).procs)
    ensures Work(s.procs) >= 0
    ensures var r := Step(s, quantum, policy);
      Work(r.procs) < Work(s.procs) ||
      (Work(r.procs) == Work(s.procs) &&
       0 <= LatestArrival(r.procs) - r.clock < LatestArrival(s.procs) - s.clock)
  {
    forall i | 0 <= i < |s.procs| ensures s.procs[i].remaining >= 0 {
      assert ProcOk(s, i);
    }
    WorkNonNegative(s.procs);
    var r := Step(s, quantum, policy);
    if s.head == |s.log| {
      IdleKeeps(s, policy);
      StalledWaitsForArrival(s);
    } else {
      DispatchKeeps(s, quantum, policy);
      DispatchProgress(s, quantum, policy);
    }
    LatestArrivalOfSameWorkload(s.procs, r.procs);
  }
}
