/**
 * The workload `main` runs: ten processes, filled in by `main` and then
 * reset, and the waiting-time totals FCFS and SJF reach on it. The report
 * prints each total divided by n = 10.
 */
module Workload {
  import opened Processes
  import opened FirstComeFirstServed
  import opened ShortestJobFirst

  const Arrivals: seq<int> := [0, 2, 4, 5, 8, 10, 12, 15, 18, 20]
  const Bursts: seq<int> := [20, 2, 1, 5, 3, 1, 4, 10, 2, 8]

  /** Record i as `main` writes it over whatever the slot held before. */
  function MainRecord(i: int, prior: Process): Process
    requires 0 <= i < 10
  {
    prior.(pid := i + 1, arrival := Arrivals[i], burst := Bursts[i])
  }

  /**
   * The table every policy starts from. `main` never sets `priority`;
   * 0 stands for that value, which no policy reads.
   */
  const Table: seq<Process> := [
    Process(1, 0, 20, 0, 20, 0, 0, 0, false),
    Process(2, 2, 2, 0, 2, 0, 0, 0, false),
    Process(3, 4, 1, 0, 1, 0, 0, 0, false),
    Process(4, 5, 5, 0, 5, 0, 0, 0, false),
    Process(5, 8, 3, 0, 3, 0, 0, 0, false),
    Process(6, 10, 1, 0, 1, 0, 0, 0, false),
    Process(7, 12, 4, 0, 4, 0, 0, 0, false),
    Process(8, 15, 10, 0, 10, 0, 0, 0, false),
    Process(9, 18, 2, 0, 2, 0, 0, 0, false),
    Process(10, 20, 8, 0, 8, 0, 0, 0, false)]

  /**
   * Whatever the ten slots held, `main`'s filling loop followed by
   * `reset_processes` yields `Table`, up to the priority left in the slot.
   */
  lemma TableIsMainAfterReset(prior: seq<Process>)
    requires |prior| == 10
    ensures forall i :: 0 <= i < 10 ==>
      Reset(MainRecord(i, prior[i])) == Table[i].(priority := prior[i].priority)
  {
  }

  /** The run satisfies what each policy asks of its input. */
  lemma TableIsReady()
    ensures forall i :: 0 <= i < |Table| ==> Runnable(Table[i]) && Table[i].burst > 0
    ensures Selectable(Table) && NoneCompleted(Table) && SortedByArrival(Table)
  {
  }

  /** With every record accounted, total turnaround is total waiting plus total burst. */
  lemma {:induction false} TurnaroundIsWaitingPlusBurst(ps: seq<Process>)
    requires forall i :: 0 <= i < |ps| ==> Accounted(ps[i])
    ensures TotalTurnaround(ps) == TotalWaiting(ps) + TotalBurst(ps)
  {
    if ps != [] {
      assert forall i :: 0 <= i < |ps| - 1 ==> ps[1..][i] == ps[i + 1];
      TurnaroundIsWaitingPlusBurst(ps[1..]);
    }
  }

  function TotalBurst(ps: seq<Process>): int
  {
    if ps == [] then 0 else ps[0].burst + TotalBurst(ps[1..])
  }

  /**
   * Three arrival-sorted processes arriving at 0, 2, 4 with bursts 5, 3, 2:
   * FCFS finishes them at 5, 8, 10 after waiting 0, 3, 4.
   */
  lemma FcfsExample()
    ensures var r := Fcfs([Process(1, 0, 5, 0, 5, 0, 0, 0, false),
                           Process(2, 2, 3, 0, 3, 0, 0, 0, false),
                           Process(3, 4, 2, 0, 2, 0, 0, 0, false)]);
      r[0].finish == 5 && r[1].finish == 8 && r[2].finish == 10 &&
      r[0].waiting == 0 && r[1].waiting == 3 && r[2].waiting == 4
  {
  }

  /** What FCFS leaves in the table. */
  const FcfsTable: seq<Process> := [
    Process(1, 0, 20, 0, 20, 0, 20, 20, false),
    Process(2, 2, 2, 0, 2, 18, 20, 22, false),
    Process(3, 4, 1, 0, 1, 18, 19, 23, false),
    Process(4, 5, 5, 0, 5, 18, 23, 28, false),
    Process(5, 8, 3, 0, 3, 20, 23, 31, false),
    Process(6, 10, 1, 0, 1, 21, 22, 32, false),
    Process(7, 12, 4, 0, 4, 20, 24, 36, false),
    Process(8, 15, 10, 0, 10, 21, 31, 46, false),
    Process(9, 18, 2, 0, 2, 28, 30, 48, false),
    Process(10, 20, 8, 0, 8, 28, 36, 56, false)]

  /** The clock after each of the first nine FCFS services. */
  lemma FcfsClocks()
    ensures Clock(Table, 1) == 20 && Clock(Table, 2) == 22 && Clock(Table, 3) == 23
    ensures Clock(Table, 4) == 28 && Clock(Table, 5) == 31 && Clock(Table, 6) == 32
    ensures Clock(Table, 7) == 36 && Clock(Table, 8) == 46 && Clock(Table, 9) == 48
  {
    assert Clock(Table, 1) == 20;
    assert Clock(Table, 2) == 22;
    assert Clock(Table, 3) == 23;
    assert Clock(Table, 4) == 28;
    assert Clock(Table, 5) == 31;
    assert Clock(Table, 6) == 32;
    assert Clock(Table, 7) == 36;
    assert Clock(Table, 8) == 46;
  }

  lemma FcfsAt(i: int)
    requires 0 <= i < 10
    ensures Fcfs(Table)[i] == FcfsTable[i]
  {
    FcfsClocks();
    if i == 0 {} else if i == 1 {} else if i == 2 {} else if i == 3 {} else if i == 4 {}
    else if i == 5 {} else if i == 6 {} else if i == 7 {} else if i == 8 {} else {}
  }

  /** FCFS on the workload leaves `FcfsTable`. */
  lemma FcfsOnTable()
    ensures Fcfs(Table) == FcfsTable
  {
    forall i | 0 <= i < 10
      ensures Fcfs(Table)[i] == FcfsTable[i]
    {
      FcfsAt(i);
    }
  }

  lemma FcfsTableTotals(r: seq<Process>)
    requires r == FcfsTable
    ensures TotalWaiting(r) == 192 && TotalTurnaround(r) == 248
  {
  }

  /** FCFS on the workload: total waiting 192 (average 19.20), total turnaround 248. */
  lemma FcfsReport()
    ensures TotalWaiting(Fcfs(Table)) == 192 && TotalTurnaround(Fcfs(Table)) == 248
  {
    FcfsOnTable();
    FcfsTableTotals(Fcfs(Table));
  }

  // The successive tables of SJF on the workload, one per selection.
  const S1: seq<Process> := [
    Process(1, 0, 20, 0, 20, 0, 20, 20, true),
    Process(2, 2, 2, 0, 2, 0, 0, 0, false),
    Process(3, 4, 1, 0, 1, 0, 0, 0, false),
    Process(4, 5, 5, 0, 5, 0, 0, 0, false),
    Process(5, 8, 3, 0, 3, 0, 0, 0, false),
    Process(6, 10, 1, 0, 1, 0, 0, 0, false),
    Process(7, 12, 4, 0, 4, 0, 0, 0, false),
    Process(8, 15, 10, 0, 10, 0, 0, 0, false),
    Process(9, 18, 2, 0, 2, 0, 0, 0, false),
    Process(10, 20, 8, 0, 8, 0, 0, 0, false)]

  const S2: seq<Process> := [
    Process(1, 0, 20, 0, 20, 0, 20, 20, true),
    Process(2, 2, 2, 0, 2, 0, 0, 0, false),
    Process(3, 4, 1, 0, 1, 16, 17, 21, true),
    Process(4, 5, 5, 0, 5, 0, 0, 0, false),
    Process(5, 8, 3, 0, 3, 0, 0, 0, false),
    Process(6, 10, 1, 0, 1, 0, 0, 0, false),
    Process(7, 12, 4, 0, 4, 0, 0, 0, false),
    Process(8, 15, 10, 0, 10, 0, 0, 0, false),
    Process(9, 18, 2, 0, 2, 0, 0, 0, false),
    Process(10, 20, 8, 0, 8, 0, 0, 0, false)]

  const S3: seq<Process> := [
    Process(1, 0, 20, 0, 20, 0, 20, 20, true),
    Process(2, 2, 2, 0, 2, 0, 0, 0, false),
    Process(3, 4, 1, 0, 1, 16, 17, 21, true),
    Process(4, 5, 5, 0, 5, 0, 0, 0, false),
    Process(5, 8, 3, 0, 3, 0, 0, 0, false),
    Process(6, 10, 1, 0, 1, 11, 12, 22, true),
    Process(7, 12, 4, 0, 4, 0, 0, 0, false),
    Process(8, 15, 10, 0, 10, 0, 0, 0, false),
    Process(9, 18, 2, 0, 2, 0, 0, 0, false),
    Process(10, 20, 8, 0, 8, 0, 0, 0, false)]

  const S4: seq<Process> := [
    Process(1, 0, 20, 0, 20, 0, 20, 20, true),
    Process(2, 2, 2, 0, 2, 20, 22, 24, true),
    Process(3, 4, 1, 0, 1, 16, 17, 21, true),
    Process(4, 5, 5, 0, 5, 0, 0, 0, false),
    Process(5, 8, 3, 0, 3, 0, 0, 0, false),
    Process(6, 10, 1, 0, 1, 11, 12, 22, true),
    Process(7, 12, 4, 0, 4, 0, 0, 0, false),
    Process(8, 15, 10, 0, 10, 0, 0, 0, false),
    Process(9, 18, 2, 0, 2, 0, 0, 0, false),
    Process(10, 20, 8, 0, 8, 0, 0, 0, false)]

  const S5: seq<Process> := [
    Process(1, 0, 20, 0, 20, 0, 20, 20, true),
    Process(2, 2, 2, 0, 2, 20, 22, 24, true),
    Process(3, 4, 1, 0, 1, 16, 17, 21, true),
    Process(4, 5, 5, 0, 5, 0, 0, 0, false),
    Process(5, 8, 3, 0, 3, 0, 0, 0, false),
    Process(6, 10, 1, 0, 1, 11, 12, 22, true),
    Process(7, 12, 4, 0, 4, 0, 0, 0, false),
    Process(8, 15, 10, 0, 10, 0, 0, 0, false),
    Process(9, 18, 2, 0, 2, 6, 8, 26, true),
    Process(10, 20, 8, 0, 8, 0, 0, 0, false)]

  const S6: seq<Process> := [
    Process(1, 0, 20, 0, 20, 0, 20, 20, true),
    Process(2, 2, 2, 0, 2, 20, 22, 24, true),
    Process(3, 4, 1, 0, 1, 16, 17, 21, true),
    Process(4, 5, 5, 0, 5, 0, 0, 0, false),
    Process(5, 8, 3, 0, 3, 18, 21, 29, true),
    Process(6, 10, 1, 0, 1, 11, 12, 22, true),
    Process(7, 12, 4, 0, 4, 0, 0, 0, false),
    Process(8, 15, 10, 0, 10, 0, 0, 0, false),
    Process(9, 18, 2, 0, 2, 6, 8, 26, true),
    Process(10, 20, 8, 0, 8, 0, 0, 0, false)]

  const S7: seq<Process> := [
    Process(1, 0, 20, 0, 20, 0, 20, 20, true),
    Process(2, 2, 2, 0, 2, 20, 22, 24, true),
    Process(3, 4, 1, 0, 1, 16, 17, 21, true),
    Process(4, 5, 5, 0, 5, 0, 0, 0, false),
    Process(5, 8, 3, 0, 3, 18, 21, 29, true),
    Process(6, 10, 1, 0, 1, 11, 12, 22, true),
    Process(7, 12, 4, 0, 4, 17, 21, 33, true),
    Process(8, 15, 10, 0, 10, 0, 0, 0, false),
    Process(9, 18, 2, 0, 2, 6, 8, 26, true),
    Process(10, 20, 8, 0, 8, 0, 0, 0, false)]

  const S8: seq<Process> := [
    Process(1, 0, 20, 0, 20, 0, 20, 20, true),
    Process(2, 2, 2, 0, 2, 20, 22, 24, true),
    Process(3, 4, 1, 0, 1, 16, 17, 21, true),
    Process(4, 5, 5, 0, 5, 28, 33, 38, true),
    Process(5, 8, 3, 0, 3, 18, 21, 29, true),
    Process(6, 10, 1, 0, 1, 11, 12, 22, true),
    Process(7, 12, 4, 0, 4, 17, 21, 33, true),
    Process(8, 15, 10, 0, 10, 0, 0, 0, false),
    Process(9, 18, 2, 0, 2, 6, 8, 26, true),
    Process(10, 20, 8, 0, 8, 0, 0, 0, false)]

  const S9: seq<Process> := [
    Process(1, 0, 20, 0, 20, 0, 20, 20, true),
    Process(2, 2, 2, 0, 2, 20, 22, 24, true),
    Process(3, 4, 1, 0, 1, 16, 17, 21, true),
    Process(4, 5, 5, 0, 5, 28, 33, 38, true),
    Process(5, 8, 3, 0, 3, 18, 21, 29, true),
    Process(6, 10, 1, 0, 1, 11, 12, 22, true),
    Process(7, 12, 4, 0, 4, 17, 21, 33, true),
    Process(8, 15, 10, 0, 10, 0, 0, 0, false),
    Process(9, 18, 2, 0, 2, 6, 8, 26, true),
    Process(10, 20, 8, 0, 8, 18, 26, 46, true)]

  const S10: seq<Process> := [
    Process(1, 0, 20, 0, 20, 0, 20, 20, true),
    Process(2, 2, 2, 0, 2, 20, 22, 24, true),
    Process(3, 4, 1, 0, 1, 16, 17, 21, true),
    Process(4, 5, 5, 0, 5, 28, 33, 38, true),
    Process(5, 8, 3, 0, 3, 18, 21, 29, true),
    Process(6, 10, 1, 0, 1, 11, 12, 22, true),
    Process(7, 12, 4, 0, 4, 17, 21, 33, true),
    Process(8, 15, 10, 0, 10, 31, 41, 56, true),
    Process(9, 18, 2, 0, 2, 6, 8, 26, true),
    Process(10, 20, 8, 0, 8, 18, 26, 46, true)]

  // Selection k of SJF on the workload: the state before it is well formed,
  // the scan picks the stated index, and the next table differs only there.
  lemma SjfChoice1()
    ensures Shortest(Table, 0) == 0
    ensures S1[0] == Complete(Table[0], 0) && Table[0].burst == 20
    ensures S1[..0] == Table[..0] && S1[1..] == Table[1..]
  {
  }

  lemma SjfChoice2()
    ensures Shortest(S1, 20) == 2
    ensures S2[2] == Complete(S1[2], 20) && S1[2].burst == 1
    ensures S2[..2] == S1[..2] && S2[3..] == S1[3..]
  {
  }

  lemma SjfChoice3()
    ensures Shortest(S2, 21) == 5
    ensures S3[5] == Complete(S2[5], 21) && S2[5].burst == 1
    ensures S3[..5] == S2[..5] && S3[6..] == S2[6..]
  {
  }

  lemma SjfChoice4()
    ensures Shortest(S3, 22) == 1
    ensures S4[1] == Complete(S3[1], 22) && S3[1].burst == 2
    ensures S4[..1] == S3[..1] && S4[2..] == S3[2..]
  {
  }

  lemma SjfChoice5()
    ensures Shortest(S4, 24) == 8
    ensures S5[8] == Complete(S4[8], 24) && S4[8].burst == 2
    ensures S5[..8] == S4[..8] && S5[9..] == S4[9..]
  {
  }

  lemma SjfChoice6()
    ensures Shortest(S5, 26) == 4
    ensures S6[4] == Complete(S5[4], 26) && S5[4].burst == 3
    ensures S6[..4] == S5[..4] && S6[5..] == S5[5..]
  {
  }

  lemma SjfChoice7()
    ensures Shortest(S6, 29) == 6
    ensures S7[6] == Complete(S6[6], 29) && S6[6].burst == 4
    ensures S7[..6] == S6[..6] && S7[7..] == S6[7..]
  {
  }

  lemma SjfChoice8()
    ensures Shortest(S7, 33) == 3
    ensures S8[3] == Complete(S7[3], 33) && S7[3].burst == 5
    ensures S8[..3] == S7[..3] && S8[4..] == S7[4..]
  {
  }

  lemma SjfChoice9()
    ensures Shortest(S8, 38) == 9
    ensures S9[9] == Complete(S8[9], 38) && S8[9].burst == 8
    ensures S9[..9] == S8[..9] && S9[10..] == S8[10..]
  {
  }

  lemma SjfChoice10()
    ensures Shortest(S9, 46) == 7
    ensures S10[7] == Complete(S9[7], 46) && S9[7].burst == 10
    ensures S10[..7] == S9[..7] && S10[8..] == S9[8..]
  {
  }

  lemma SjfStep1()
    requires Selectable(Table) && CountCompleted(Table) == 0
    ensures Selectable(S1) && CountCompleted(S1) == 1
    ensures SjfRun(Table, 0, 0) == SjfRun(S1, 20, 1)
  {
    SjfChoice1();
    SjfRunSelects(Table, 0, 0, 0, S1);
  }

  lemma SjfStep2()
    requires Selectable(S1) && CountCompleted(S1) == 1
    ensures Selectable(S2) && CountCompleted(S2) == 2
    ensures SjfRun(S1, 20, 1) == SjfRun(S2, 21, 2)
  {
    SjfChoice2();
    SjfRunSelects(S1, 20, 1, 2, S2);
  }

  lemma SjfStep3()
    requires Selectable(S2) && CountCompleted(S2) == 2
    ensures Selectable(S3) && CountCompleted(S3) == 3
    ensures SjfRun(S2, 21, 2) == SjfRun(S3, 22, 3)
  {
    SjfChoice3();
    SjfRunSelects(S2, 21, 2, 5, S3);
  }

  lemma SjfStep4()
    requires Selectable(S3) && CountCompleted(S3) == 3
    ensures Selectable(S4) && CountCompleted(S4) == 4
    ensures SjfRun(S3, 22, 3) == SjfRun(S4, 24, 4)
  {
    SjfChoice4();
    SjfRunSelects(S3, 22, 3, 1, S4);
  }

  lemma SjfStep5()
    requires Selectable(S4) && CountCompleted(S4) == 4
    ensures Selectable(S5) && CountCompleted(S5) == 5
    ensures SjfRun(S4, 24, 4) == SjfRun(S5, 26, 5)
  {
    SjfChoice5();
    SjfRunSelects(S4, 24, 4, 8, S5);
  }

  lemma SjfStep6()
    requires Selectable(S5) && CountCompleted(S5) == 5
    ensures Selectable(S6) && CountCompleted(S6) == 6
    ensures SjfRun(S5, 26, 5) == SjfRun(S6, 29, 6)
  {
    SjfChoice6();
    SjfRunSelects(S5, 26, 5, 4, S6);
  }

  lemma SjfStep7()
    requires Selectable(S6) && CountCompleted(S6) == 6
    ensures Selectable(S7) && CountCompleted(S7) == 7
    ensures SjfRun(S6, 29, 6) == SjfRun(S7, 33, 7)
  {
    SjfChoice7();
    SjfRunSelects(S6, 29, 6, 6, S7);
  }

  lemma SjfStep8()
    requires Selectable(S7) && CountCompleted(S7) == 7
    ensures Selectable(S8) && CountCompleted(S8) == 8
    ensures SjfRun(S7, 33, 7) == SjfRun(S8, 38, 8)
  {
    SjfChoice8();
    SjfRunSelects(S7, 33, 7, 3, S8);
  }

  lemma SjfStep9()
    requires Selectable(S8) && CountCompleted(S8) == 8
    ensures Selectable(S9) && CountCompleted(S9) == 9
    ensures SjfRun(S8, 38, 8) == SjfRun(S9, 46, 9)
  {
    SjfChoice9();
    SjfRunSelects(S8, 38, 8, 9, S9);
  }

  lemma SjfStep10()
    requires Selectable(S9) && CountCompleted(S9) == 9
    ensures Selectable(S10) && CountCompleted(S10) == 10
    ensures SjfRun(S9, 46, 9) == SjfRun(S10, 56, 10)
  {
    SjfChoice10();
    SjfRunSelects(S9, 46, 9, 7, S10);
  }


  lemma SjfFirstFive()
    ensures Selectable(Table) && CountCompleted(Table) == 0
    ensures Selectable(S5) && CountCompleted(S5) == 5
    ensures SjfRun(Table, 0, 0) == SjfRun(S5, 26, 5)
  {
    CountNoneCompleted(Table);
    SjfStep1();
    SjfStep2();
    SjfStep3();
    SjfStep4();
    SjfStep5();
  }

  lemma SjfLastFive()
    requires Selectable(S5) && CountCompleted(S5) == 5
    ensures SjfRun(S5, 26, 5) == S10
  {
    SjfStep6();
    SjfStep7();
    SjfStep8();
    SjfStep9();
    SjfStep10();
  }

  /**
   * SJF on the workload selects P1, P3, P6, P2, P9, P5, P7, P4, P10, P8
   * (starting at 0, 20, 21, 22, 24, 26, 29, 33, 38, 46) and leaves `S10`.
   */
  lemma SjfOnTable()
    ensures Selectable(Table) && NoneCompleted(Table)
    ensures Sjf(Table) == S10
  {
    SjfWholeRun();
  }

  lemma SjfWholeRun()
    ensures Selectable(Table) && NoneCompleted(Table)
    ensures SjfRun(Table, 0, 0) == S10
  {
    TableIsReady();
    SjfFirstFive();
    SjfLastFive();
  }

  lemma SjfTableTotals(r: seq<Process>)
    requires r == S10
    ensures TotalWaiting(r) == 165 && TotalTurnaround(r) == 221
  {
  }

  /** SJF on the workload: total waiting 165 (average 16.50), total turnaround 221. */
  lemma SjfReport()
    ensures Selectable(Table) && NoneCompleted(Table)
    ensures TotalWaiting(Sjf(Table)) == 165 && TotalTurnaround(Sjf(Table)) == 221
  {
    SjfOnTable();
    SjfTableTotals(Sjf(Table));
  }
}
