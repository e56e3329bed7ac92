# CPU scheduling simulator: a verified model

`scheduler.c` simulates four CPU scheduling policies over a table of at most
100 `Process` records. Each record describes a task (`pid`, arrival time,
burst time and an unused priority) and holds the metrics that a run fills
in: remaining time, waiting time, turnaround time, finish time and a
completed flag. Before each policy runs, `reset_processes` restores those
per-run fields. The four policies are:

- **first come, first served**: serves processes in array order and lets the
  clock jump over idle gaps;
- **non-preemptive shortest job first**: a linear scan with a strict `<`
  against the sentinel 99999, so the first minimum wins; when nothing is
  eligible the clock advances by one tick;
- **round robin**: a 100-slot FIFO array whose `tail` never wraps, with an
  `in_queue` flag array that is never cleared. Arrivals are detected tick
  by tick during a slice;
- **round robin with a context-switch penalty**: before a dispatch, the
  clock jumps by `penalty` when a different pid follows a previous one.
  Everything that arrived during the jump is then admitted in one bulk scan.

`main` fills in ten processes, resets them and runs FCFS, SJF and the penalty
variant with quantum 4 and penalty 1. The autograder checks the printed
averages of waiting time: 19.20, 16.50 and 24.00.

## How the model is built

Each policy is an imperative method over `array<Process>`, like the C
function it models. Its postcondition ties the final array to a functional
specification of the whole run:

| method | final array | specification |
|---|---|---|
| `SimulateFCFS` | `Fcfs(old(p[..n]))` | `Fcfs`, built on `Clock`/`StartTime` |
| `SimulateSJF` | `Sjf(old(p[..n]))` | `Sjf`, built on `Shortest`/`SjfRun` |
| both RR methods | `Some(p[..n])` equals `Schedule(old(p[..n]), quantum, policy)` | `Schedule` |

Round robin is specified as a state machine over `RRState`:

- the queue array is the log `queue[0..tail)` of every enqueued index, and the ready queue is `log[head..]`;
- `in_queue`, the clock, `completed` and `last_pid` are fields of the state;
- one `Step` is one pass of the main loop, and `Run` iterates `Step`;
- `Run` answers `None` for the endless loop of the penalty variant (see Findings).

The methods keep ghost views of their local arrays equal to these states at
every loop iteration. Lemmas then prove the properties of the specifications:

- the queue invariant `Inv`;
- the timing and penalty rules, the queue order and the metrics;
- termination;
- the exact tables and totals on `main`'s workload.

Termination of the SJF and round-robin loops is argued with a measure the
source does not have: the total remaining work (or the number of unfinished
processes), then the distance from the clock to the latest arrival, which
idle ticks shrink. `LatestArrival` and its helper lemmas serve only that argument.

The penalty variant on the workload is proved dispatch by dispatch. The 18
dispatches, the states in between and the final table `P18` are spelled out
in `workload_rr.dfy`.

Modules:

| module | file | contents |
|---|---|---|
| `Processes` | `processes.dfy` | record, reset, counters, totals |
| `FirstComeFirstServed` | `fcfs.dfy` | FCFS |
| `ShortestJobFirst` | `sjf.dfy` | SJF |
| `RoundRobinSpec` | `rr_spec.dfy` | round-robin state machine |
| `RoundRobinInvariant` | `rr_invariant.dfy` | invariant and progress |
| `RoundRobinDispatch` | `rr_dispatch.dfy` | what one dispatch does |
| `RoundRobinRun` | `rr_run.dfy` | whole runs, termination, stall |
| `RoundRobinSimulate` | `rr_simulate.dfy` | the imperative methods |
| `Workload` | `workload.dfy` | `main`'s workload, FCFS and SJF on it |
| `PenaltyWorkload` | `workload_rr.dfy` | the penalty variant on it |

The comment in the penalty variant's empty-queue branch (scheduler.c:169)
says "Arrival check logic remains the same as before...", but the branch
contains no arrival check: it only advances the clock. The model follows the
code (see Findings). The autograder's
comments name the targets 21.30 and 26.10 and a "2ms penalty". The values it
actually checks are 19.20 and 24.00, and `main` passes penalty 1, so the
model proves the checked values.

## Model

| member | source | states |
|---|---|---|
| Processes.ResetProcesses | scheduler.c:19-27 | for every i < n: remaining becomes burst; waiting, turnaround and finish become 0; the flag is cleared. pid, arrival, burst and priority are unchanged, and so are the records from n on |
| Processes.ResetIdempotent | scheduler.c:19-27 | resetting a table twice gives the same table as resetting it once |
| Processes.ResetForgetsEarlierRuns | scheduler.c:19-27 | two tables with the same workload fields are equal after a reset, so a policy run cannot affect the next one in `main` |
| Processes.ResetGivesRunnable | scheduler.c:19-27 | a reset table has the same workload, every record is unfinished with remaining == burst, and no flag is counted |
| Processes.CountAllCompleted | scheduler.c:66 | when the completed counter equals n, every flag is set |
| Processes.CountAfterCompleting | scheduler.c:85-86 | setting one clear flag raises the number of set flags by exactly one, as `completed++` does |
| Processes.CountBelowWhenPending | scheduler.c:66 | while some flag is clear the count is below n, so the loop goes on |
| FirstComeFirstServed.StartTime | scheduler.c:51-53 | a process starts at the later of the clock and its arrival: no earlier than either, and equal to one of them |
| FirstComeFirstServed.ServeNext | scheduler.c:51-57 | one loop iteration writes the record served from max(clock, arrival) and returns that start plus the burst. Other records are untouched |
| FirstComeFirstServed.SimulateFCFS | scheduler.c:47-58 | the first n records become `Fcfs` of their old values. Records from n on are untouched |
| FirstComeFirstServed.ServeStep | scheduler.c:54-56 | process i is served from its start time, and the clock after it is that start plus its burst |
| FirstComeFirstServed.FcfsMetrics | scheduler.c:54-57 | same tasks; remaining and the flag untouched; waiting ≥ 0; turnaround = finish − arrival = waiting + burst; finish = start + burst = the clock after it |
| FirstComeFirstServed.ClockMonotone | scheduler.c:50-56 | with non-negative bursts the clock never moves back |
| FirstComeFirstServed.NoOverlap | scheduler.c:50-56 | a process starts no earlier than every earlier one has finished, and finish times are non-decreasing in index |
| FirstComeFirstServed.IdleOnlyWhenNothingWaits | scheduler.c:49-53 | on arrival-sorted input the clock jumps to process i's arrival only when no unserved process has arrived |
| FirstComeFirstServed.ServedInArrivalOrder | scheduler.c:49-50 | on arrival-sorted input a process that arrived strictly earlier starts no later |
| ShortestJobFirst.PickFromSpec | scheduler.c:71-78 | from any partial result consistent with the indices already scanned, the rest of the scan yields either -1 (no eligible burst below the sentinel) or the first minimal index |
| ShortestJobFirst.ShortestSpec | scheduler.c:67-78 | the selection is -1 exactly when no arrived, unfinished process has a burst below 99999. Otherwise it is eligible, has the least burst among eligible processes, and precedes every other eligible process with that burst |
| ShortestJobFirst.SelectShortest | scheduler.c:67-78 | the selection loop returns `Shortest` of the table |
| ShortestJobFirst.SjfRun | scheduler.c:66-90 | the main loop ends (selectable bursts) with the same tasks and every flag counted |
| ShortestJobFirst.SjfRunSelects | scheduler.c:80-86 | a selected index is run to completion at the current clock, only its record changes, the counter rises by one, and the clock moves by its burst |
| ShortestJobFirst.SjfRunIdles | scheduler.c:87-88 | with nothing eligible, the pass selects -1 and only advances the clock by one tick |
| ShortestJobFirst.IdleMeansPendingArrival | scheduler.c:87-88 | an idle pass with work left happens only while some process has yet to arrive, so idling ends |
| ShortestJobFirst.Sjf | scheduler.c:63-90 | from a reset table, the run has the same tasks and every process completed |
| ShortestJobFirst.SjfRunOk | scheduler.c:72-86 | along the run, remaining times are untouched and every finished record obeys turnaround = finish − arrival and waiting = turnaround − burst ≥ 0 |
| ShortestJobFirst.SjfRunKeepsFinished | scheduler.c:80-86 | a finished record is never rewritten for the rest of the run: the scan never selects it again |
| ShortestJobFirst.SjfOkAfterComplete | scheduler.c:81-85 | completing a process that has arrived keeps those record facts |
| ShortestJobFirst.SjfComplete | scheduler.c:63-90 | every process completed exactly once (the count of flags is n), remaining untouched, waiting ≥ 0 and turnaround = waiting + burst |
| ShortestJobFirst.RunToCompletion | scheduler.c:81-85 | the selected record is completed at the clock and the clock moves by its burst. Other records are untouched |
| ShortestJobFirst.SimulateSJF | scheduler.c:63-90 | the first n records become `Sjf` of their old values. Records from n on are untouched |
| RoundRobinSpec.ScanFrom | scheduler.c:101-106 | an arrival scan only appends to the queue and changes nothing but the queue and the flags |
| RoundRobinSpec.Tick | scheduler.c:124-133 | one tick moves the clock by exactly one and only appends to the queue |
| RoundRobinSpec.Ticks | scheduler.c:124-133 | a slice of k ticks moves the clock by exactly k and only appends to the queue |
| RoundRobinSpec.Charge | scheduler.c:177-187 | the penalty block moves the clock by the penalty exactly on a switch, sets `last_pid` to the dispatched pid, and only appends to the queue |
| RoundRobinSpec.Settle | scheduler.c:135-146 | settling leaves the clock and flags alone and appends at most one entry |
| RoundRobinSpec.Dispatch | scheduler.c:120-146 | a dispatch advances the head by exactly one and only appends to the queue |
| RoundRobinSpec.Idle | scheduler.c:109-117 | the empty-queue branch moves the clock by exactly one and leaves the records and the head alone |
| RoundRobinSpec.Step | scheduler.c:108-147 | a pass never moves the head back and only appends to the queue |
| RoundRobinInvariant.AdmittedSound | scheduler.c:101-106 | every index a scan appends passes its admission test |
| RoundRobinInvariant.AdmittedComplete | scheduler.c:101-106 | every index that passes the admission test is appended |
| RoundRobinInvariant.AdmittedIncreasing | scheduler.c:101-106 | a scan appends in increasing index order |
| RoundRobinInvariant.ScanEffect | scheduler.c:101-106 | a scan appends exactly the admitted indices and raises exactly their flags |
| RoundRobinInvariant.ScanAdmitsArrivals | scheduler.c:124-133 | with flags in step with arrivals, the exact-arrival tick scan (and likewise the bulk scan after a penalty, lines 180-185) admits precisely the unqueued processes that have arrived by now |
| RoundRobinInvariant.DispatchKeeps | scheduler.c:120-146 | a dispatch keeps `Inv`. Queue entries from head to tail are distinct, flagged and unfinished, and every queued unfinished process is among them. A flag is set iff the process has arrived, and `completed` equals the number of set flags. Each record is either finished with its metrics or has 0 < remaining ≤ burst |
| RoundRobinInvariant.DispatchProgress | scheduler.c:135 | a dispatch keeps the workload and strictly lowers the total remaining work |
| RoundRobinInvariant.IdleKeeps | scheduler.c:109-117 | the rescanning empty-queue branch keeps `Inv` |
| RoundRobinInvariant.StalledWaitsForArrival | scheduler.c:109-117 | an empty queue with work left means some process has yet to arrive |
| RoundRobinInvariant.StepKeeps | scheduler.c:108-147 | a pass keeps `Inv` and the workload. The remaining work drops, or stays put while the clock moves closer to the latest arrival |
| RoundRobinDispatch.ScanAppends | scheduler.c:127-132 | the tick scan, like the scans at lines 111-116 and 180-185 and unlike the first one, appends only unflagged processes, in index order, flags exactly them, and never clears a flag |
| RoundRobinDispatch.TicksAppend | scheduler.c:124-133 | the ticks of a slice only append processes that were not queued |
| RoundRobinDispatch.ChargeEffect | scheduler.c:177-187 | the clock jumps by `penalty` iff `last_pid != -1` and the pid differs. `last_pid` becomes the dispatched pid. After the jump, a flag is raised exactly for the processes that have arrived and are neither queued nor completed |
| RoundRobinDispatch.DispatchTiming | scheduler.c:173-201 | a dispatch moves the clock by the charged penalty plus min(remaining, quantum) and the head by one. `last_pid` changes only under the penalty variant |
| RoundRobinDispatch.DispatchRecord | scheduler.c:203-214 | only the running record changes. remaining drops by the slice and never below 0. The record is completed iff that reaches 0, and then finish = clock, the metrics obey the conservation law, waiting ≥ 0 and `completed` rises by one |
| RoundRobinDispatch.StepKeepsFinished | scheduler.c:108-147 | a pass of the main loop never rewrites a finished record: idle passes touch no record, and a dispatch rewrites only the dequeued, unfinished one |
| RoundRobinDispatch.HeadHasRun | scheduler.c:120 | the dequeued process is unfinished and has run no longer than it has been present |
| RoundRobinDispatch.SettleRecord | scheduler.c:135-142 | settling computes the running record's metrics as the source does, with waiting ≥ 0 |
| RoundRobinDispatch.DispatchQueue | scheduler.c:124-146 | processes arriving during the penalty and the slice are appended first, none of them queued before; a preempted process goes behind all of them |
| RoundRobinRun.InitQueue | scheduler.c:101-106 | the scan before the loop queues exactly the processes arrived by tick 0, in index order, and flags exactly them |
| RoundRobinRun.InitInv | scheduler.c:96-106 | the state before the main loop satisfies `Inv`, with clock 0, head 0 and no previous pid |
| RoundRobinRun.Run | scheduler.c:108-147 | a run that ends keeps `Inv` and the workload and leaves every process completed |
| RoundRobinRun.Finish | scheduler.c:95-147 | a whole run that ends from a reset table satisfies `Inv` with every process completed and the same workload |
| RoundRobinRun.ScheduleIsComplete | scheduler.c:135-146 | every output record is completed with no time left and the metrics of the conservation law, with waiting ≥ 0 and finish ≥ arrival + burst |
| RoundRobinRun.RunTerminates | scheduler.c:108-147 | plain round robin (and a rescanning empty-queue branch) always finishes from a state satisfying `Inv` |
| RoundRobinRun.ScheduleTerminates | scheduler.c:95-149 | plain round robin finishes on every reset table with positive bursts and quantum > 0 |
| RoundRobinRun.StallIsPermanent | scheduler.c:167-171 | once the penalty variant's queue is empty with work left, every further pass moves only the clock |
| RoundRobinRun.RunNoneMeansStall | scheduler.c:166-171 | a run that never ends is one that reaches a permanent stall, and only the non-rescanning variant can |
| RoundRobinRun.LateStartHangs | scheduler.c:159-171 | the penalty variant as written never finishes when nothing arrives at tick 0, while the rescanning variant does |
| RoundRobinRun.InitEntryArrived | scheduler.c:159-164 | every process queued before the loop has arrived by tick 0 |
| RoundRobinRun.LateArrivalHangs | scheduler.c:167-171 | one process arriving at tick 1: the penalty variant as written never finishes; plain and rescanning round robin do |
| RoundRobinRun.RescanAgrees | scheduler.c:167-171 | whenever the as-written penalty run ends, the rescanning variant ends in the same state |
| RoundRobinRun.ScheduleRescanAgrees | scheduler.c:152-217 | whenever the as-written penalty variant finishes, the corrected variant produces the same table |
| RoundRobinRun.RunKeepsFinished | scheduler.c:137-142 | once a process is finished, its finish, turnaround and waiting times (its whole record) stay as they are for the rest of the run |
| RoundRobinRun.RunExtends | scheduler.c:97 | during a run, `tail` only grows (earlier entries stay) and `head` only advances |
| RoundRobinSimulate.AdmitArrivals | scheduler.c:101-106 | an arrival-scan loop (this one and those at lines 111-116, 127-132 and 180-185) leaves the queue and flags exactly as `Scan` says |
| RoundRobinSimulate.Enqueue | scheduler.c:103-104 | the queue gains the index at its tail and that flag is set |
| RoundRobinSimulate.TicksPrefix | scheduler.c:124-133 | the queue after fewer ticks is a prefix of the queue after more |
| RoundRobinSimulate.RunSlice | scheduler.c:124-133 | the slice loop leaves exactly the state `Ticks` says, the clock moved by the slice |
| RoundRobinSimulate.TickOnce | scheduler.c:125-132 | one tick leaves exactly the state `Tick` says |
| RoundRobinSimulate.ChargeSwitch | scheduler.c:177-187 | the penalty block leaves exactly the state `Charge` says |
| RoundRobinSimulate.SettleRunning | scheduler.c:135-146 | the settlement leaves exactly the state `Settle` says. Records from n on are untouched |
| RoundRobinSimulate.DequeueAndCharge | scheduler.c:173-187 | the dequeue and the penalty block leave exactly the state `Charge` says; the head advances by one |
| RoundRobinSimulate.RunHead | scheduler.c:120-133 | dequeue, charge and slice leave exactly `Ticks` of the charged state, with the source's slice |
| RoundRobinSimulate.DispatchNext | scheduler.c:120-146 | a pass with a non-empty queue leaves exactly the state `Dispatch` says |
| RoundRobinSimulate.NextFits | scheduler.c:97 | every intermediate queue of a finishing run is a prefix of the final one, so it fits when the final one does |
| RoundRobinSimulate.Pass | scheduler.c:108-147 | one pass of the main loop leaves exactly the state `Step` says |
| RoundRobinSimulate.MainLoop | scheduler.c:108-147 | the main loop leaves the records the run ends with |
| RoundRobinSimulate.RoundRobin | scheduler.c:95-147 | the common body leaves the records of `Finish` |
| RoundRobinSimulate.SimulateRR | scheduler.c:95-149 | the first n records become the table of plain round robin's run (which always ends). Records from n on are untouched |
| RoundRobinSimulate.SimulateRRWithPenalty | scheduler.c:152-217 | the first n records become the table of the penalty run. Records from n on are untouched |
| RoundRobinSimulate.SimulateRRWithPenaltyRescan | scheduler.c:152-217 | the corrected penalty variant, whose empty-queue branch rescans, always finishes. The first n records become its table, and records from n on are untouched |
| Workload.TableIsMainAfterReset | scheduler.c:224-233 | whatever the ten slots held, `main`'s filling loop plus the reset yields `Table`, up to the priority |
| Workload.TableIsReady | scheduler.c:224-225 | the workload is reset, has positive bursts below the sentinel and is sorted by arrival |
| Workload.TurnaroundIsWaitingPlusBurst | scheduler.c:37-38 | with every record accounted, total turnaround is total waiting plus total burst |
| Workload.FcfsExample | scheduler.c:47-58 | arrivals 0, 2, 4 with bursts 5, 3, 2 finish at 5, 8, 10 after waiting 0, 3, 4 |
| Workload.FcfsOnTable | scheduler.c:234 | FCFS on the workload leaves the table `FcfsTable` |
| Workload.FcfsReport | autograder.py:65 | FCFS on the workload: total waiting 192 (average 19.20), total turnaround 248 |
| Workload.SjfOnTable | scheduler.c:237 | SJF on the workload selects P1, P3, P6, P2, P9, P5, P7, P4, P10, P8 and leaves `S10` |
| Workload.SjfReport | autograder.py:73 | SJF on the workload: total waiting 165 (average 16.50), total turnaround 221 |
| PenaltyWorkload.PenaltyStart | scheduler.c:159-164 | the workload's run starts from `D0`, with P1 alone in the queue |
| PenaltyWorkload.PenaltyDone | scheduler.c:166 | after the 18th dispatch every process is complete and the loop stops |
| PenaltyWorkload.PenaltyOnTable | scheduler.c:241 | `simulate_RR_with_penalty(proc, 10, 4, 1)` on the workload ends after 18 queue writes and leaves `P18` |
| PenaltyWorkload.PenaltyReport | autograder.py:81 | the penalty run on the workload ends and fits the queue. Total waiting is 240 (average 24.00) and total turnaround 296 |
| PenaltyWorkload.PenaltyRescanOnTable | scheduler.c:167-171 | on the workload, the rescanning variant leaves the same table `P18`: the branch where the two differ is never taken |

## Left out

- `print_stats` (scheduler.c:29-43): formatting and the float averages are not modelled. The model proves the integer totals (`TotalWaiting`, `TotalTurnaround`) that the averages divide by n.
- `main`'s call order is not modelled as a sequence of calls. `TableIsMainAfterReset` and `ResetForgetsEarlierRuns` state why each policy starts from the same `Table`.
- Plain round robin has no workload vector, because its call in `main` is commented out.
- `main` never sets `priority`, so its value is indeterminate. The workload uses 0 for it; no policy reads it, and every policy leaves it unchanged.
- C `int` overflow is not modelled: integers are unbounded. The workload's values are far from the limits.
- The 100-slot arrays are preconditions. The round-robin methods require `n <= MaxProcesses` and that a run's queue writes fit (`Enqueues(...) <= MaxProcesses`). Beyond that the source writes past its arrays. `tail` never wraps, in the model as in the source.
- ShortestJobFirst.SimulateSJF: requires every burst below 99999 (`Selectable`), because the source never selects such a process and then loops forever. It also requires no completed flag, as `reset_processes` leaves the table.
- RoundRobinSimulate.SimulateRR: requires quantum > 0, because otherwise the source never finishes. It also requires a reset table with burst > 0 (`WellFormed`). The source also finishes a process with a zero or negative burst at its first dispatch, without a tick; the model does not cover that case.
- RoundRobinSimulate.SimulateRRWithPenalty: requires burst > 0, quantum > 0 and penalty ≥ 0. It also requires that the run ends (`Schedule(...).Some?`), because the source as written loops forever otherwise (see Findings). `LateStartHangs` and `StallIsPermanent` characterise the loop it does not end.
- The local queue is modelled as `array<int>` plus `array<bool>` of 100 slots. The proofs reason about the ghost view `queue[..tail]` of the queue array.

## Findings

| source | as written | input that shows it | evidently intended | confidence | as-written member | corrected member |
|---|---|---|---|---|---|---|
| scheduler.c:167-171 | the penalty variant's empty-queue branch only increments the clock and never scans for arrivals; its comment says the arrival check is the same as in `simulate_RR` | one process arriving at tick 1 with burst 1 (quantum 4, penalty 1), or any workload where nothing arrives at tick 0: the loop never ends | rescan as in scheduler.c:109-117. Then every well-formed workload finishes (`RoundRobinRun.ScheduleTerminates`), with the same result wherever the code as written finishes (`RoundRobinRun.ScheduleRescanAgrees`) | not executed | RoundRobinRun.LateArrivalHangs | RoundRobinSimulate.SimulateRRWithPenaltyRescan |
