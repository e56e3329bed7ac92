/**
 * Round robin run to completion: the state before the main loop, the loop
 * itself, what a finished schedule satisfies, and when the penalty variant
 * never finishes.
 */
module RoundRobinRun {
  import opened Processes
  import opened RoundRobinSpec
  import opened RoundRobinInvariant
  import opened RoundRobinDispatch

  /** A table as `reset_processes` leaves it, with positive bursts. */
  predicate WellFormed(ps: seq<Process>)
  {
    forall i :: 0 <= i < |ps| ==> ps[i].burst > 0 && Runnable(ps[i])
  }

  /** The initial scan queues exactly the processes arrived by tick 0, in index order. */
  lemma InitQueue(ps: seq<Process>)
    requires WellFormed(ps)
    ensures var r := Init(ps);
      r.procs == ps && r.clock == 0 && r.head == 0 && r.completed == 0 && r.lastPid == -1 &&
      (forall i :: 0 <= i < |ps| ==> (r.inQueue[i] <==> ps[i].arrival <= 0)) &&
      (forall i :: 0 <= i < |ps| && ps[i].arrival <= 0 ==> i in r.log) &&
      (forall k :: 0 <= k < |r.log| ==> ps[r.log[k]].arrival <= 0) &&
      (forall j, k :: 0 <= j < k < |r.log| ==> r.log[j] < r.log[k])
  {
    ScanEffect(Start(ps), AtStart);
    AdmittedMembers(Start(ps), AtStart, 0);
    forall i | 0 <= i < |ps| && ps[i].arrival <= 0 ensures i in Init(ps).log {
      assert Admits(Start(ps), AtStart, i);
    }
  }

  /** The scan before the main loop establishes the invariant. */
  lemma InitInv(ps: seq<Process>)
    requires WellFormed(ps)
    ensures Inv(Init(ps))
    ensures Init(ps).procs == ps && Init(ps).clock == 0 && Init(ps).head == 0
    ensures Init(ps).completed == 0 && Init(ps).lastPid == -1
  {
    var r := Init(ps);
    InitQueue(ps);
    CountNoneCompleted(ps);
    assert ProcsOk(r) by {
      forall i | 0 <= i < |ps| ensures ProcOk(r, i) {
        assert r.inQueue[i] == (ps[i].arrival <= 0);
      }
    }
    assert QueueOk(r, -1);
  }

  /**
   * `while (completed < n) { ... }` from state s. `None` when the ready
   * queue runs dry under a policy that does not rescan: from there on the
   * loop only moves the clock (see `StallIsPermanent`).
   */
  function Run(s: RRState, quantum: int, policy: Policy): (r: Option<RRState>)
    requires Inv(s) && quantum > 0 && Admissible(policy)
    ensures r.Some? ==> Inv(r.value) && r.value.completed == |r.value.procs|
    ensures r.Some? ==> SameWorkload(s.procs, r.value.procs)
    decreases Work(s.procs), LatestArrival(s.procs) - s.clock
  {
    if s.completed >= |s.procs| then Some(s)
    else if s.head == |s.log| && !RescansWhenIdle(policy) then None
    else
      StepKeeps(s, quantum, policy);
      var t := Step(s, quantum, policy);
      var r := Run(t, quantum, policy);
      if r.Some? then SameWorkloadTrans(s.procs, t.procs, r.value.procs); r else r
  }

  /** The final state of a whole run, from the reset table. */
  function Finish(ps: seq<Process>, quantum: int, policy: Policy): (r: Option<RRState>)
    requires WellFormed(ps) && quantum > 0 && Admissible(policy)
    ensures r.Some? ==> Inv(r.value) && r.value.completed == |ps|
    ensures r.Some? ==> SameWorkload(ps, r.value.procs)
  {
    InitInv(ps);
    Run(Init(ps), quantum, policy)
  }

  /** The table a whole run leaves behind, if the run ends. */
  function Schedule(ps: seq<Process>, quantum: int, policy: Policy): (r: Option<seq<Process>>)
    requires WellFormed(ps) && quantum > 0 && Admissible(policy)
  {
    match Finish(ps, quantum, policy)
    case None => None
    case Some(s) => Some(s.procs)
  }

  /** How many times a finished run writes `queue[tail++]`; 0 for a run that never ends. */
  function Enqueues(ps: seq<Process>, quantum: int, policy: Policy): (k: nat)
    requires WellFormed(ps) && quantum > 0 && Admissible(policy)
  {
    match Finish(ps, quantum, policy)
    case None => 0
    case Some(s) => |s.log|
  }

  /**
   * A finished schedule: the same tasks, every one completed with no time
   * left, its metrics obeying the conservation law, never a negative
   * waiting time, and no process finishing before it could have run.
   */
  lemma ScheduleIsComplete(ps: seq<Process>, quantum: int, policy: Policy)
    requires WellFormed(ps) && quantum > 0 && Admissible(policy)
    requires Schedule(ps, quantum, policy).Some?
    ensures var out := Schedule(ps, quantum, policy).value;
      SameWorkload(ps, out) &&
      forall i :: 0 <= i < |out| ==>
        out[i].completed && out[i].remaining == 0 && Accounted(out[i]) &&
        out[i].waiting >= 0 && out[i].finish >= out[i].arrival + out[i].burst
  {
    var s := Finish(ps, quantum, policy).value;
    CountAllCompleted(s.procs);
    forall i | 0 <= i < |s.procs|
      ensures s.procs[i].completed && s.procs[i].remaining == 0 && Accounted(s.procs[i])
      ensures s.procs[i].waiting >= 0 && s.procs[i].finish >= s.procs[i].arrival + s.procs[i].burst
    {
      assert ProcOk(s, i);
    }
  }

  /** Under plain round robin (and the rescanning variant) every run ends. */
  lemma {:induction false} RunTerminates(s: RRState, quantum: int, policy: Policy)
    requires Inv(s) && quantum > 0 && Admissible(policy) && RescansWhenIdle(policy)
    ensures Run(s, quantum, policy).Some?
    decreases Work(s.procs), LatestArrival(s.procs) - s.clock
  {
    if s.completed < |s.procs| {
      StepKeeps(s, quantum, policy);
      RunTerminates(Step(s, quantum, policy), quantum, policy);
    }
  }

  lemma ScheduleTerminates(ps: seq<Process>, quantum: int, policy: Policy)
    requires WellFormed(ps) && quantum > 0 && Admissible(policy) && RescansWhenIdle(policy)
    ensures Schedule(ps, quantum, policy).Some?
  {
    InitInv(ps);
    RunTerminates(Init(ps), quantum, policy);
  }

  // ---------------------------------------------------------------------
  // The empty-queue branch of the penalty variant
  // ---------------------------------------------------------------------

  /** k passes of the main loop, whatever `completed` says. */
  function Steps(s: RRState, quantum: int, policy: Policy, k: nat): (r: RRState)
    requires Shaped(s)
    ensures Shaped(r)
    decreases k
  {
    if k == 0 then s else Steps(Step(s, quantum, policy), quantum, policy, k - 1)
  }

  /**
   * Once the queue is empty with work left, a policy that does not rescan
   * only moves the clock: after any number of passes nothing else has
   * changed and the loop condition still holds.
   */
  lemma {:induction false} StallIsPermanent(s: RRState, quantum: int, policy: Policy, k: nat)
    requires Shaped(s) && Stalled(s) && !RescansWhenIdle(policy)
    ensures Steps(s, quantum, policy, k) == s.(clock := s.clock + k)
    ensures Stalled(Steps(s, quantum, policy, k))
    decreases k
  {
    if k > 0 {
      var t := Step(s, quantum, policy);
      assert t == s.(clock := s.clock + 1);
      StallIsPermanent(t, quantum, policy, k - 1);
    }
  }

  /** `Run` answers `None` exactly when the loop reaches a permanent stall. */
  lemma {:induction false} RunNoneMeansStall(s: RRState, quantum: int, policy: Policy)
    requires Inv(s) && quantum > 0 && Admissible(policy)
    requires Run(s, quantum, policy).None?
    ensures !RescansWhenIdle(policy)
    ensures exists k: nat :: Stalled(Steps(s, quantum, policy, k))
    decreases Work(s.procs), LatestArrival(s.procs) - s.clock
  {
    if RescansWhenIdle(policy) {
      RunTerminates(s, quantum, policy);
    } else if Stalled(s) {
      assert Steps(s, quantum, policy, 0) == s;
    } else {
      StepKeeps(s, quantum, policy);
      var t := Step(s, quantum, policy);
      RunNoneMeansStall(t, quantum, policy);
      var k: nat :| Stalled(Steps(t, quantum, policy, k));
      assert Steps(s, quantum, policy, k + 1) == Steps(t, quantum, policy, k);
    }
  }

  /**
   * As written, the penalty variant never finishes a workload in which
   * nothing arrives at tick 0: the first pass finds the queue empty and the
   * empty-queue branch never looks for arrivals.
   */
  lemma LateStartHangs(ps: seq<Process>, quantum: int, penalty: int)
    requires WellFormed(ps) && quantum > 0 && penalty >= 0 && |ps| > 0
    requires forall i :: 0 <= i < |ps| ==> ps[i].arrival > 0
    ensures Schedule(ps, quantum, Penalized(penalty, false)).None?
    ensures Schedule(ps, quantum, Penalized(penalty, true)).Some?
  {
    if |Init(ps).log| > 0 {
      InitEntryArrived(ps, 0);
      assert false;
    }
    InitInv(ps);
    assert Stalled(Init(ps));
    ScheduleTerminates(ps, quantum, Penalized(penalty, true));
  }

  lemma InitEntryArrived(ps: seq<Process>, k: int)
    requires WellFormed(ps) && 0 <= k < |Init(ps).log|
    ensures ps[Init(ps).log[k]].arrival <= 0
  {
    InitQueue(ps);
  }

  /** The smallest such workload: one process arriving at tick 1. */
  const LateArrival := [Process(1, 1, 1, 0, 1, 0, 0, 0, false)]

  lemma LateArrivalHangs()
    ensures Schedule(LateArrival, 4, Penalized(1, false)).None?
    ensures Schedule(LateArrival, 4, Plain).Some?
    ensures Schedule(LateArrival, 4, Penalized(1, true)).Some?
  {
    LateStartHangs(LateArrival, 4, 1);
    ScheduleTerminates(LateArrival, 4, Plain);
  }

  /**
   * Whenever the penalty variant as written does finish, the rescanning
   * variant finishes in the same state: the two differ only in a branch
   * that such a run never takes.
   */
  lemma {:induction false} RescanAgrees(s: RRState, quantum: int, penalty: int)
    requires Inv(s) && quantum > 0 && penalty >= 0
    requires Run(s, quantum, Penalized(penalty, false)).Some?
    ensures Run(s, quantum, Penalized(penalty, true)) == Run(s, quantum, Penalized(penalty, false))
    decreases Work(s.procs), LatestArrival(s.procs) - s.clock
  {
    if s.completed < |s.procs| {
      var asWritten := Penalized(penalty, false);
      assert s.head < |s.log|;
      assert Step(s, quantum, asWritten) == Step(s, quantum, Penalized(penalty, true));
      StepKeeps(s, quantum, asWritten);
      RescanAgrees(Step(s, quantum, asWritten), quantum, penalty);
    }
  }

  lemma ScheduleRescanAgrees(ps: seq<Process>, quantum: int, penalty: int)
    requires WellFormed(ps) && quantum > 0 && penalty >= 0
    requires Schedule(ps, quantum, Penalized(penalty, false)).Some?
    ensures Schedule(ps, quantum, Penalized(penalty, true)) == Schedule(ps, quantum, Penalized(penalty, false))
  {
    InitInv(ps);
    RescanAgrees(Init(ps), quantum, penalty);
  }

  /** Once a process is finished, its record stays as it is for the rest of the run. */
  lemma {:induction false} RunKeepsFinished(s: RRState, quantum: int, policy: Policy, i: int)
    requires Inv(s) && quantum > 0 && Admissible(policy)
    requires Run(s, quantum, policy).Some?
    requires 0 <= i < |s.procs| && s.procs[i].completed
    ensures Run(s, quantum, policy).value.procs[i] == s.procs[i]
    decreases Work(s.procs), LatestArrival(s.procs) - s.clock
  {
    if s.completed < |s.procs| {
      StepKeeps(s, quantum, policy);
      StepKeepsFinished(s, quantum, policy, i);
      RunKeepsFinished(Step(s, quantum, policy), quantum, policy, i);
    }
  }

  /** The queue log only grows during a run, and the head only moves forward. */
  lemma {:induction false} RunExtends(s: RRState, quantum: int, policy: Policy)
    requires Inv(s) && quantum > 0 && Admissible(policy)
    requires Run(s, quantum, policy).Some?
    ensures s.log <= Run(s, quantum, policy).value.log
    ensures s.head <= Run(s, quantum, policy).value.head
    decreases Work(s.procs), LatestArrival(s.procs) - s.clock
  {
    if s.completed < |s.procs| {
      StepKeeps(s, quantum, policy);
      RunExtends(Step(s, quantum, policy), quantum, policy);
    }
  }
}
