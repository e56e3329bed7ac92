/**
 * `simulate_RR_with_penalty(proc, 10, 4, 1)` on the workload `main` runs:
 * the state before each of the 18 dispatches, after each penalty block and
 * after each tick of each slice, and the totals the report prints.
 */
module PenaltyWorkload {
  import opened Processes
  import opened RoundRobinSpec
  import opened RoundRobinInvariant
  import opened RoundRobinRun
  import opened Workload

  const D0: RRState := RRState(Table, [0], 0, [true, false, false, false, false, false, false, false, false, false], 0, 0, -1)

  const C0: RRState := RRState(Table, [0], 1, [true, false, false, false, false, false, false, false, false, false], 0, 0, 1)

  const T0_1: RRState := RRState(Table, [0], 1, [true, false, false, false, false, false, false, false, false, false], 1, 0, 1)

  const T0_2: RRState := RRState(Table, [0, 1], 1, [true, true, false, false, false, false, false, false, false, false], 2, 0, 1)

  const T0_3: RRState := RRState(Table, [0, 1], 1, [true, true, false, false, false, false, false, false, false, false], 3, 0, 1)

  const T0_4: RRState := RRState(Table, [0, 1, 2], 1, [true, true, true, false, false, false, false, false, false, false], 4, 0, 1)

  const P1: seq<Process> := [
    Process(1, 0, 20, 0, 16, 0, 0, 0, false),
    Process(2, 2, 2, 0, 2, 0, 0, 0, false),
    Process(3, 4, 1, 0, 1, 0, 0, 0, false),
    Process(4, 5, 5, 0, 5, 0, 0, 0, false),
    Process(5, 8, 3, 0, 3, 0, 0, 0, false),
    Process(6, 10, 1, 0, 1, 0, 0, 0, false),
    Process(7, 12, 4, 0, 4, 0, 0, 0, false),
    Process(8, 15, 10, 0, 10, 0, 0, 0, false),
    Process(9, 18, 2, 0, 2, 0, 0, 0, false),
    Process(10, 20, 8, 0, 8, 0, 0, 0, false)]

  const D1: RRState := RRState(P1, [0, 1, 2, 0], 1, [true, true, true, false, false, false, false, false, false, false], 4, 0, 1)

  const C1: RRState := RRState(P1, [0, 1, 2, 0, 3], 2, [true, true, true, true, false, false, false, false, false, false], 5, 0, 2)

  const T1_1: RRState := RRState(P1, [0, 1, 2, 0, 3], 2, [true, true, true, true, false, false, false, false, false, false], 6, 0, 2)

  const T1_2: RRState := RRState(P1, [0, 1, 2, 0, 3], 2, [true, true, true, true, false, false, false, false, false, false], 7, 0, 2)

  const P2: seq<Process> := [
    Process(1, 0, 20, 0, 16, 0, 0, 0, false),
    Process(2, 2, 2, 0, 0, 3, 5, 7, true),
    Process(3, 4, 1, 0, 1, 0, 0, 0, false),
    Process(4, 5, 5, 0, 5, 0, 0, 0, false),
    Process(5, 8, 3, 0, 3, 0, 0, 0, false),
    Process(6, 10, 1, 0, 1, 0, 0, 0, false),
    Process(7, 12, 4, 0, 4, 0, 0, 0, false),
    Process(8, 15, 10, 0, 10, 0, 0, 0, false),
    Process(9, 18, 2, 0, 2, 0, 0, 0, false),
    Process(10, 20, 8, 0, 8, 0, 0, 0, false)]

  const D2: RRState := RRState(P2, [0, 1, 2, 0, 3], 2, [true, true, true, true, false, false, false, false, false, false], 7, 1, 2)

  const C2: RRState := RRState(P2, [0, 1, 2, 0, 3, 4], 3, [true, true, true, true, true, false, false, false, false, false], 8, 1, 3)

  const T2_1: RRState := RRState(P2, [0, 1, 2, 0, 3, 4], 3, [true, true, true, true, true, false, false, false, false, false], 9, 1, 3)

  const P3: seq<Process> := [
    Process(1, 0, 20, 0, 16, 0, 0, 0, false),
    Process(2, 2, 2, 0, 0, 3, 5, 7, true),
    Process(3, 4, 1, 0, 0, 4, 5, 9, true),
    Process(4, 5, 5, 0, 5, 0, 0, 0, false),
    Process(5, 8, 3, 0, 3, 0, 0, 0, false),
    Process(6, 10, 1, 0, 1, 0, 0, 0, false),
    Process(7, 12, 4, 0, 4, 0, 0, 0, false),
    Process(8, 15, 10, 0, 10, 0, 0, 0, false),
    Process(9, 18, 2, 0, 2, 0, 0, 0, false),
    Process(10, 20, 8, 0, 8, 0, 0, 0, false)]

  const D3: RRState := RRState(P3, [0, 1, 2, 0, 3, 4], 3, [true, true, true, true, true, false, false, false, false, false], 9, 2, 3)

  const C3: RRState := RRState(P3, [0, 1, 2, 0, 3, 4, 5], 4, [true, true, true, true, true, true, false, false, false, false], 10, 2, 1)

  const T3_1: RRState := RRState(P3, [0, 1, 2, 0, 3, 4, 5], 4, [true, true, true, true, true, true, false, false, false, false], 11, 2, 1)

  const T3_2: RRState := RRState(P3, [0, 1, 2, 0, 3, 4, 5, 6], 4, [true, true, true, true, true, true, true, false, false, false], 12, 2, 1)

  const T3_3: RRState := RRState(P3, [0, 1, 2, 0, 3, 4, 5, 6], 4, [true, true, true, true, true, true, true, false, false, false], 13, 2, 1)

  const T3_4: RRState := RRState(P3, [0, 1, 2, 0, 3, 4, 5, 6], 4, [true, true, true, true, true, true, true, false, false, false], 14, 2, 1)

  const P4: seq<Process> := [
    Process(1, 0, 20, 0, 12, 0, 0, 0, false),
    Process(2, 2, 2, 0, 0, 3, 5, 7, true),
    Process(3, 4, 1, 0, 0, 4, 5, 9, true),
    Process(4, 5, 5, 0, 5, 0, 0, 0, false),
    Process(5, 8, 3, 0, 3, 0, 0, 0, false),
    Process(6, 10, 1, 0, 1, 0, 0, 0, false),
    Process(7, 12, 4, 0, 4, 0, 0, 0, false),
    Process(8, 15, 10, 0, 10, 0, 0, 0, false),
    Process(9, 18, 2, 0, 2, 0, 0, 0, false),
    Process(10, 20, 8, 0, 8, 0, 0, 0, false)]

  const D4: RRState := RRState(P4, [0, 1, 2, 0, 3, 4, 5, 6, 0], 4, [true, true, true, true, true, true, true, false, false, false], 14, 2, 1)

  const C4: RRState := RRState(P4, [0, 1, 2, 0, 3, 4, 5, 6, 0, 7], 5, [true, true, true, true, true, true, true, true, false, false], 15, 2, 4)

  const T4_1: RRState := RRState(P4, [0, 1, 2, 0, 3, 4, 5, 6, 0, 7], 5, [true, true, true, true, true, true, true, true, false, false], 16, 2, 4)

  const T4_2: RRState := RRState(P4, [0, 1, 2, 0, 3, 4, 5, 6, 0, 7], 5, [true, true, true, true, true, true, true, true, false, false], 17, 2, 4)

  const T4_3: RRState := RRState(P4, [0, 1, 2, 0, 3, 4, 5, 6, 0, 7, 8], 5, [true, true, true, true, true, true, true, true, true, false], 18, 2, 4)

  const T4_4: RRState := RRState(P4, [0, 1, 2, 0, 3, 4, 5, 6, 0, 7, 8], 5, [true, true, true, true, true, true, true, true, true, false], 19, 2, 4)

  const P5: seq<Process> := [
    Process(1, 0, 20, 0, 12, 0, 0, 0, false),
    Process(2, 2, 2, 0, 0, 3, 5, 7, true),
    Process(3, 4, 1, 0, 0, 4, 5, 9, true),
    Process(4, 5, 5, 0, 1, 0, 0, 0, false),
    Process(5, 8, 3, 0, 3, 0, 0, 0, false),
    Process(6, 10, 1, 0, 1, 0, 0, 0, false),
    Process(7, 12, 4, 0, 4, 0, 0, 0, false),
    Process(8, 15, 10, 0, 10, 0, 0, 0, false),
    Process(9, 18, 2, 0, 2, 0, 0, 0, false),
    Process(10, 20, 8, 0, 8, 0, 0, 0, false)]

  const D5: RRState := RRState(P5, [0, 1, 2, 0, 3, 4, 5, 6, 0, 7, 8, 3], 5, [true, true, true, true, true, true, true, true, true, false], 19, 2, 4)

  const C5: RRState := RRState(P5, [0, 1, 2, 0, 3, 4, 5, 6, 0, 7, 8, 3, 9], 6, [true, true, true, true, true, true, true, true, true, true], 20, 2, 5)

  const T5_1: RRState := RRState(P5, [0, 1, 2, 0, 3, 4, 5, 6, 0, 7, 8, 3, 9], 6, [true, true, true, true, true, true, true, true, true, true], 21, 2, 5)

  const T5_2: RRState := RRState(P5, [0, 1, 2, 0, 3, 4, 5, 6, 0, 7, 8, 3, 9], 6, [true, true, true, true, true, true, true, true, true, true], 22, 2, 5)

  const T5_3: RRState := RRState(P5, [0, 1, 2, 0, 3, 4, 5, 6, 0, 7, 8, 3, 9], 6, [true, true, true, true, true, true, true, true, true, true], 23, 2, 5)

  const P6: seq<Process> := [
    Process(1, 0, 20, 0, 12, 0, 0, 0, false),
    Process(2, 2, 2, 0, 0, 3, 5, 7, true),
    Process(3, 4, 1, 0, 0, 4, 5, 9, true),
    Process(4, 5, 5, 0, 1, 0, 0, 0, false),
    Process(5, 8, 3, 0, 0, 12, 15, 23, true),
    Process(6, 10, 1, 0, 1, 0, 0, 0, false),
    Process(7, 12, 4, 0, 4, 0, 0, 0, false),
    Process(8, 15, 10, 0, 10, 0, 0, 0, false),
    Process(9, 18, 2, 0, 2, 0, 0, 0, false),
    Process(10, 20, 8, 0, 8, 0, 0, 0, false)]

  const D6: RRState := RRState(P6, [0, 1, 2, 0, 3, 4, 5, 6, 0, 7, 8, 3, 9], 6, [true, true, true, true, true, true, true, true, true, true], 23, 3, 5)

  const C6: RRState := RRState(P6, [0, 1, 2, 0, 3, 4, 5, 6, 0, 7, 8, 3, 9], 7, [true, true, true, true, true, true, true, true, true, true], 24, 3, 6)

  const T6_1: RRState := RRState(P6, [0, 1, 2, 0, 3, 4, 5, 6, 0, 7, 8, 3, 9], 7, [true, true, true, true, true, true, true, true, true, true], 25, 3, 6)

  const P7: seq<Process> := [
    Process(1, 0, 20, 0, 12, 0, 0, 0, false),
    Process(2, 2, 2, 0, 0, 3, 5, 7, true),
    Process(3, 4, 1, 0, 0, 4, 5, 9, true),
    Process(4, 5, 5, 0, 1, 0, 0, 0, false),
    Process(5, 8, 3, 0, 0, 12, 15, 23, true),
    Process(6, 10, 1, 0, 0, 14, 15, 25, true),
    Process(7, 12, 4, 0, 4, 0, 0, 0, false),
    Process(8, 15, 10, 0, 10, 0, 0, 0, false),
    Process(9, 18, 2, 0, 2, 0, 0, 0, false),
    Process(10, 20, 8, 0, 8, 0, 0, 0, false)]

  const D7: RRState := RRState(P7, [0, 1, 2, 0, 3, 4, 5, 6, 0, 7, 8, 3, 9], 7, [true, true, true, true, true, true, true, true, true, true], 25, 4, 6)

  const C7: RRState := RRState(P7, [0, 1, 2, 0, 3, 4, 5, 6, 0, 7, 8, 3, 9], 8, [true, true, true, true, true, true, true, true, true, true], 26, 4, 7)

  const T7_1: RRState := RRState(P7, [0, 1, 2, 0, 3, 4, 5, 6, 0, 7, 8, 3, 9], 8, [true, true, true, true, true, true, true, true, true, true], 27, 4, 7)

  const T7_2: RRState := RRState(P7, [0, 1, 2, 0, 3, 4, 5, 6, 0, 7, 8, 3, 9], 8, [true, true, true, true, true, true, true, true, true, true], 28, 4, 7)

  const T7_3: RRState := RRState(P7, [0, 1, 2, 0, 3, 4, 5, 6, 0, 7, 8, 3, 9], 8, [true, true, true, true, true, true, true, true, true, true], 29, 4, 7)

  const T7_4: RRState := RRState(P7, [0, 1, 2, 0, 3, 4, 5, 6, 0, 7, 8, 3, 9], 8, [true, true, true, true, true, true, true, true, true, true], 30, 4, 7)

  const P8: seq<Process> := [
    Process(1, 0, 20, 0, 12, 0, 0, 0, false),
    Process(2, 2, 2, 0, 0, 3, 5, 7, true),
    Process(3, 4, 1, 0, 0, 4, 5, 9, true),
    Process(4, 5, 5, 0, 1, 0, 0, 0, false),
    Process(5, 8, 3, 0, 0, 12, 15, 23, true),
    Process(6, 10, 1, 0, 0, 14, 15, 25, true),
    Process(7, 12, 4, 0, 0, 14, 18, 30, true),
    Process(8, 15, 10, 0, 10, 0, 0, 0, false),
    Process(9, 18, 2, 0, 2, 0, 0, 0, false),
    Process(10, 20, 8, 0, 8, 0, 0, 0, false)]

  const D8: RRState := RRState(P8, [0, 1, 2, 0, 3, 4, 5, 6, 0, 7, 8, 3, 9], 8, [true, true, true, true, true, true, true, true, true, true], 30, 5, 7)

  const C8: RRState := RRState(P8, [0, 1, 2, 0, 3, 4, 5, 6, 0, 7, 8, 3, 9], 9, [true, true, true, true, true, true, true, true, true, true], 31, 5, 1)

  const T8_1: RRState := RRState(P8, [0, 1, 2, 0, 3, 4, 5, 6, 0, 7, 8, 3, 9], 9, [true, true, true, true, true, true, true, true, true, true], 32, 5, 1)

  const T8_2: RRState := RRState(P8, [0, 1, 2, 0, 3, 4, 5, 6, 0, 7, 8, 3, 9], 9, [true, true, true, true, true, true, true, true, true, true], 33, 5, 1)

  const T8_3: RRState := RRState(P8, [0, 1, 2, 0, 3, 4, 5, 6, 0, 7, 8, 3, 9], 9, [true, true, true, true, true, true, true, true, true, true], 34, 5, 1)

  const T8_4: RRState := RRState(P8, [0, 1, 2, 0, 3, 4, 5, 6, 0, 7, 8, 3, 9], 9, [true, true, true, true, true, true, true, true, true, true], 35, 5, 1)

  const P9: seq<Process> := [
    Process(1, 0, 20, 0, 8, 0, 0, 0, false),
    Process(2, 2, 2, 0, 0, 3, 5, 7, true),
    Process(3, 4, 1, 0, 0, 4, 5, 9, true),
    Process(4, 5, 5, 0, 1, 0, 0, 0, false),
    Process(5, 8, 3, 0, 0, 12, 15, 23, true),
    Process(6, 10, 1, 0, 0, 14, 15, 25, true),
    Process(7, 12, 4, 0, 0, 14, 18, 30, true),
    Process(8, 15, 10, 0, 10, 0, 0, 0, false),
    Process(9, 18, 2, 0, 2, 0, 0, 0, false),
    Process(10, 20, 8, 0, 8, 0, 0, 0, false)]

  const D9: RRState := RRState(P9, [0, 1, 2, 0, 3, 4, 5, 6, 0, 7, 8, 3, 9, 0], 9, [true, true, true, true, true, true, true, true, true, true], 35, 5, 1)

  const C9: RRState := RRState(P9, [0, 1, 2, 0, 3, 4, 5, 6, 0, 7, 8, 3, 9, 0], 10, [true, true, true, true, true, true, true, true, true, true], 36, 5, 8)

  const T9_1: RRState := RRState(P9, [0, 1, 2, 0, 3, 4, 5, 6, 0, 7, 8, 3, 9, 0], 10, [true, true, true, true, true, true, true, true, true, true], 37, 5, 8)

  const T9_2: RRState := RRState(P9, [0, 1, 2, 0, 3, 4, 5, 6, 0, 7, 8, 3, 9, 0], 10, [true, true, true, true, true, true, true, true, true, true], 38, 5, 8)

  const T9_3: RRState := RRState(P9, [0, 1, 2, 0, 3, 4, 5, 6, 0, 7, 8, 3, 9, 0], 10, [true, true, true, true, true, true, true, true, true, true], 39, 5, 8)

  const T9_4: RRState := RRState(P9, [0, 1, 2, 0, 3, 4, 5, 6, 0, 7, 8, 3, 9, 0], 10, [true, true, true, true, true, true, true, true, true, true], 40, 5, 8)

  const P10: seq<Process> := [
    Process(1, 0, 20, 0, 8, 0, 0, 0, false),
    Process(2, 2, 2, 0, 0, 3, 5, 7, true),
    Process(3, 4, 1, 0, 0, 4, 5, 9, true),
    Process(4, 5, 5, 0, 1, 0, 0, 0, false),
    Process(5, 8, 3, 0, 0, 12, 15, 23, true),
    Process(6, 10, 1, 0, 0, 14, 15, 25, true),
    Process(7, 12, 4, 0, 0, 14, 18, 30, true),
    Process(8, 15, 10, 0, 6, 0, 0, 0, false),
    Process(9, 18, 2, 0, 2, 0, 0, 0, false),
    Process(10, 20, 8, 0, 8, 0, 0, 0, false)]

  const D10: RRState := RRState(P10, [0, 1, 2, 0, 3, 4, 5, 6, 0, 7, 8, 3, 9, 0, 7], 10, [true, true, true, true, true, true, true, true, true, true], 40, 5, 8)

  const C10: RRState := RRState(P10, [0, 1, 2, 0, 3, 4, 5, 6, 0, 7, 8, 3, 9, 0, 7], 11, [true, true, true, true, true, true, true, true, true, true], 41, 5, 9)

  const T10_1: RRState := RRState(P10, [0, 1, 2, 0, 3, 4, 5, 6, 0, 7, 8, 3, 9, 0, 7], 11, [true, true, true, true, true, true, true, true, true, true], 42, 5, 9)

  const T10_2: RRState := RRState(P10, [0, 1, 2, 0, 3, 4, 5, 6, 0, 7, 8, 3, 9, 0, 7], 11, [true, true, true, true, true, true, true, true, true, true], 43, 5, 9)

  const P11: seq<Process> := [
    Process(1, 0, 20, 0, 8, 0, 0, 0, false),
    Process(2, 2, 2, 0, 0, 3, 5, 7, true),
    Process(3, 4, 1, 0, 0, 4, 5, 9, true),
    Process(4, 5, 5, 0, 1, 0, 0, 0, false),
    Process(5, 8, 3, 0, 0, 12, 15, 23, true),
    Process(6, 10, 1, 0, 0, 14, 15, 25, true),
    Process(7, 12, 4, 0, 0, 14, 18, 30, true),
    Process(8, 15, 10, 0, 6, 0, 0, 0, false),
    Process(9, 18, 2, 0, 0, 23, 25, 43, true),
    Process(10, 20, 8, 0, 8, 0, 0, 0, false)]

  const D11: RRState := RRState(P11, [0, 1, 2, 0, 3, 4, 5, 6, 0, 7, 8, 3, 9, 0, 7], 11, [true, true, true, true, true, true, true, true, true, true], 43, 6, 9)

  const C11: RRState := RRState(P11, [0, 1, 2, 0, 3, 4, 5, 6, 0, 7, 8, 3, 9, 0, 7], 12, [true, true, true, true, true, true, true, true, true, true], 44, 6, 4)

  const T11_1: RRState := RRState(P11, [0, 1, 2, 0, 3, 4, 5, 6, 0, 7, 8, 3, 9, 0, 7], 12, [true, true, true, true, true, true, true, true, true, true], 45, 6, 4)

  const P12: seq<Process> := [
    Process(1, 0, 20, 0, 8, 0, 0, 0, false),
    Process(2, 2, 2, 0, 0, 3, 5, 7, true),
    Process(3, 4, 1, 0, 0, 4, 5, 9, true),
    Process(4, 5, 5, 0, 0, 35, 40, 45, true),
    Process(5, 8, 3, 0, 0, 12, 15, 23, true),
    Process(6, 10, 1, 0, 0, 14, 15, 25, true),
    Process(7, 12, 4, 0, 0, 14, 18, 30, true),
    Process(8, 15, 10, 0, 6, 0, 0, 0, false),
    Process(9, 18, 2, 0, 0, 23, 25, 43, true),
    Process(10, 20, 8, 0, 8, 0, 0, 0, false)]

  const D12: RRState := RRState(P12, [0, 1, 2, 0, 3, 4, 5, 6, 0, 7, 8, 3, 9, 0, 7], 12, [true, true, true, true, true, true, true, true, true, true], 45, 7, 4)

  const C12: RRState := RRState(P12, [0, 1, 2, 0, 3, 4, 5, 6, 0, 7, 8, 3, 9, 0, 7], 13, [true, true, true, true, true, true, true, true, true, true], 46, 7, 10)

  const T12_1: RRState := RRState(P12, [0, 1, 2, 0, 3, 4, 5, 6, 0, 7, 8, 3, 9, 0, 7], 13, [true, true, true, true, true, true, true, true, true, true], 47, 7, 10)

  const T12_2: RRState := RRState(P12, [0, 1, 2, 0, 3, 4, 5, 6, 0, 7, 8, 3, 9, 0, 7], 13, [true, true, true, true, true, true, true, true, true, true], 48, 7, 10)

  const T12_3: RRState := RRState(P12, [0, 1, 2, 0, 3, 4, 5, 6, 0, 7, 8, 3, 9, 0, 7], 13, [true, true, true, true, true, true, true, true, true, true], 49, 7, 10)

  const T12_4: RRState := RRState(P12, [0, 1, 2, 0, 3, 4, 5, 6, 0, 7, 8, 3, 9, 0, 7], 13, [true, true, true, true, true, true, true, true, true, true], 50, 7, 10)

  const P13: seq<Process> := [
    Process(1, 0, 20, 0, 8, 0, 0, 0, false),
    Process(2, 2, 2, 0, 0, 3, 5, 7, true),
    Process(3, 4, 1, 0, 0, 4, 5, 9, true),
    Process(4, 5, 5, 0, 0, 35, 40, 45, true),
    Process(5, 8, 3, 0, 0, 12, 15, 23, true),
    Process(6, 10, 1, 0, 0, 14, 15, 25, true),
    Process(7, 12, 4, 0, 0, 14, 18, 30, true),
    Process(8, 15, 10, 0, 6, 0, 0, 0, false),
    Process(9, 18, 2, 0, 0, 23, 25, 43, true),
    Process(10, 20, 8, 0, 4, 0, 0, 0, false)]

  const D13: RRState := RRState(P13, [0, 1, 2, 0, 3, 4, 5, 6, 0, 7, 8, 3, 9, 0, 7, 9], 13, [true, true, true, true, true, true, true, true, true, true], 50, 7, 10)

  const C13: RRState := RRState(P13, [0, 1, 2, 0, 3, 4, 5, 6, 0, 7, 8, 3, 9, 0, 7, 9], 14, [true, true, true, true, true, true, true, true, true, true], 51, 7, 1)

  const T13_1: RRState := RRState(P13, [0, 1, 2, 0, 3, 4, 5, 6, 0, 7, 8, 3, 9, 0, 7, 9], 14, [true, true, true, true, true, true, true, true, true, true], 52, 7, 1)

  const T13_2: RRState := RRState(P13, [0, 1, 2, 0, 3, 4, 5, 6, 0, 7, 8, 3, 9, 0, 7, 9], 14, [true, true, true, true, true, true, true, true, true, true], 53, 7, 1)

  const T13_3: RRState := RRState(P13, [0, 1, 2, 0, 3, 4, 5, 6, 0, 7, 8, 3, 9, 0, 7, 9], 14, [true, true, true, true, true, true, true, true, true, true], 54, 7, 1)

  const T13_4: RRState := RRState(P13, [0, 1, 2, 0, 3, 4, 5, 6, 0, 7, 8, 3, 9, 0, 7, 9], 14, [true, true, true, true, true, true, true, true, true, true], 55, 7, 1)

  const P14: seq<Process> := [
    Process(1, 0, 20, 0, 4, 0, 0, 0, false),
    Process(2, 2, 2, 0, 0, 3, 5, 7, true),
    Process(3, 4, 1, 0, 0, 4, 5, 9, true),
    Process(4, 5, 5, 0, 0, 35, 40, 45, true),
    Process(5, 8, 3, 0, 0, 12, 15, 23, true),
    Process(6, 10, 1, 0, 0, 14, 15, 25, true),
    Process(7, 12, 4, 0, 0, 14, 18, 30, true),
    Process(8, 15, 10, 0, 6, 0, 0, 0, false),
    Process(9, 18, 2, 0, 0, 23, 25, 43, true),
    Process(10, 20, 8, 0, 4, 0, 0, 0, false)]

  const D14: RRState := RRState(P14, [0, 1, 2, 0, 3, 4, 5, 6, 0, 7, 8, 3, 9, 0, 7, 9, 0], 14, [true, true, true, true, true, true, true, true, true, true], 55, 7, 1)

  const C14: RRState := RRState(P14, [0, 1, 2, 0, 3, 4, 5, 6, 0, 7, 8, 3, 9, 0, 7, 9, 0], 15, [true, true, true, true, true, true, true, true, true, true], 56, 7, 8)

  const T14_1: RRState := RRState(P14, [0, 1, 2, 0, 3, 4, 5, 6, 0, 7, 8, 3, 9, 0, 7, 9, 0], 15, [true, true, true, true, true, true, true, true, true, true], 57, 7, 8)

  const T14_2: RRState := RRState(P14, [0, 1, 2, 0, 3, 4, 5, 6, 0, 7, 8, 3, 9, 0, 7, 9, 0], 15, [true, true, true, true, true, true, true, true, true, true], 58, 7, 8)

  const T14_3: RRState := RRState(P14, [0, 1, 2, 0, 3, 4, 5, 6, 0, 7, 8, 3, 9, 0, 7, 9, 0], 15, [true, true, true, true, true, true, true, true, true, true], 59, 7, 8)

  const T14_4: RRState := RRState(P14, [0, 1, 2, 0, 3, 4, 5, 6, 0, 7, 8, 3, 9, 0, 7, 9, 0], 15, [true, true, true, true, true, true, true, true, true, true], 60, 7, 8)

  const P15: seq<Process> := [
    Process(1, 0, 20, 0, 4, 0, 0, 0, false),
    Process(2, 2, 2, 0, 0, 3, 5, 7, true),
    Process(3, 4, 1, 0, 0, 4, 5, 9, true),
    Process(4, 5, 5, 0, 0, 35, 40, 45, true),
    Process(5, 8, 3, 0, 0, 12, 15, 23, true),
    Process(6, 10, 1, 0, 0, 14, 15, 25, true),
    Process(7, 12, 4, 0, 0, 14, 18, 30, true),
    Process(8, 15, 10, 0, 2, 0, 0, 0, false),
    Process(9, 18, 2, 0, 0, 23, 25, 43, true),
    Process(10, 20, 8, 0, 4, 0, 0, 0, false)]

  const D15: RRState := RRState(P15, [0, 1, 2, 0, 3, 4, 5, 6, 0, 7, 8, 3, 9, 0, 7, 9, 0, 7], 15, [true, true, true, true, true, true, true, true, true, true], 60, 7, 8)

  const C15: RRState := RRState(P15, [0, 1, 2, 0, 3, 4, 5, 6, 0, 7, 8, 3, 9, 0, 7, 9, 0, 7], 16, [true, true, true, true, true, true, true, true, true, true], 61, 7, 10)

  const T15_1: RRState := RRState(P15, [0, 1, 2, 0, 3, 4, 5, 6, 0, 7, 8, 3, 9, 0, 7, 9, 0, 7], 16, [true, true, true, true, true, true, true, true, true, true], 62, 7, 10)

  const T15_2: RRState := RRState(P15, [0, 1, 2, 0, 3, 4, 5, 6, 0, 7, 8, 3, 9, 0, 7, 9, 0, 7], 16, [true, true, true, true, true, true, true, true, true, true], 63, 7, 10)

  const T15_3: RRState := RRState(P15, [0, 1, 2, 0, 3, 4, 5, 6, 0, 7, 8, 3, 9, 0, 7, 9, 0, 7], 16, [true, true, true, true, true, true, true, true, true, true], 64, 7, 10)

  const T15_4: RRState := RRState(P15, [0, 1, 2, 0, 3, 4, 5, 6, 0, 7, 8, 3, 9, 0, 7, 9, 0, 7], 16, [true, true, true, true, true, true, true, true, true, true], 65, 7, 10)

  const P16: seq<Process> := [
    Process(1, 0, 20, 0, 4, 0, 0, 0, false),
    Process(2, 2, 2, 0, 0, 3, 5, 7, true),
    Process(3, 4, 1, 0, 0, 4, 5, 9, true),
    Process(4, 5, 5, 0, 0, 35, 40, 45, true),
    Process(5, 8, 3, 0, 0, 12, 15, 23, true),
    Process(6, 10, 1, 0, 0, 14, 15, 25, true),
    Process(7, 12, 4, 0, 0, 14, 18, 30, true),
    Process(8, 15, 10, 0, 2, 0, 0, 0, false),
    Process(9, 18, 2, 0, 0, 23, 25, 43, true),
    Process(10, 20, 8, 0, 0, 37, 45, 65, true)]

  const D16: RRState := RRState(P16, [0, 1, 2, 0, 3, 4, 5, 6, 0, 7, 8, 3, 9, 0, 7, 9, 0, 7], 16, [true, true, true, true, true, true, true, true, true, true], 65, 8, 10)

  const C16: RRState := RRState(P16, [0, 1, 2, 0, 3, 4, 5, 6, 0, 7, 8, 3, 9, 0, 7, 9, 0, 7], 17, [true, true, true, true, true, true, true, true, true, true], 66, 8, 1)

  const T16_1: RRState := RRState(P16, [0, 1, 2, 0, 3, 4, 5, 6, 0, 7, 8, 3, 9, 0, 7, 9, 0, 7], 17, [true, true, true, true, true, true, true, true, true, true], 67, 8, 1)

  const T16_2: RRState := RRState(P16, [0, 1, 2, 0, 3, 4, 5, 6, 0, 7, 8, 3, 9, 0, 7, 9, 0, 7], 17, [true, true, true, true, true, true, true, true, true, true], 68, 8, 1)

  const T16_3: RRState := RRState(P16, [0, 1, 2, 0, 3, 4, 5, 6, 0, 7, 8, 3, 9, 0, 7, 9, 0, 7], 17, [true, true, true, true, true, true, true, true, true, true], 69, 8, 1)

  const T16_4: RRState := RRState(P16, [0, 1, 2, 0, 3, 4, 5, 6, 0, 7, 8, 3, 9, 0, 7, 9, 0, 7], 17, [true, true, true, true, true, true, true, true, true, true], 70, 8, 1)

  const P17: seq<Process> := [
    Process(1, 0, 20, 0, 0, 50, 70, 70, true),
    Process(2, 2, 2, 0, 0, 3, 5, 7, true),
    Process(3, 4, 1, 0, 0, 4, 5, 9, true),
    Process(4, 5, 5, 0, 0, 35, 40, 45, true),
    Process(5, 8, 3, 0, 0, 12, 15, 23, true),
    Process(6, 10, 1, 0, 0, 14, 15, 25, true),
    Process(7, 12, 4, 0, 0, 14, 18, 30, true),
    Process(8, 15, 10, 0, 2, 0, 0, 0, false),
    Process(9, 18, 2, 0, 0, 23, 25, 43, true),
    Process(10, 20, 8, 0, 0, 37, 45, 65, true)]

  const D17: RRState := RRState(P17, [0, 1, 2, 0, 3, 4, 5, 6, 0, 7, 8, 3, 9, 0, 7, 9, 0, 7], 17, [true, true, true, true, true, true, true, true, true, true], 70, 9, 1)

  const C17: RRState := RRState(P17, [0, 1, 2, 0, 3, 4, 5, 6, 0, 7, 8, 3, 9, 0, 7, 9, 0, 7], 18, [true, true, true, true, true, true, true, true, true, true], 71, 9, 8)

  const T17_1: RRState := RRState(P17, [0, 1, 2, 0, 3, 4, 5, 6, 0, 7, 8, 3, 9, 0, 7, 9, 0, 7], 18, [true, true, true, true, true, true, true, true, true, true], 72, 9, 8)

  const T17_2: RRState := RRState(P17, [0, 1, 2, 0, 3, 4, 5, 6, 0, 7, 8, 3, 9, 0, 7, 9, 0, 7], 18, [true, true, true, true, true, true, true, true, true, true], 73, 9, 8)

  const P18: seq<Process> := [
    Process(1, 0, 20, 0, 0, 50, 70, 70, true),
    Process(2, 2, 2, 0, 0, 3, 5, 7, true),
    Process(3, 4, 1, 0, 0, 4, 5, 9, true),
    Process(4, 5, 5, 0, 0, 35, 40, 45, true),
    Process(5, 8, 3, 0, 0, 12, 15, 23, true),
    Process(6, 10, 1, 0, 0, 14, 15, 25, true),
    Process(7, 12, 4, 0, 0, 14, 18, 30, true),
    Process(8, 15, 10, 0, 0, 48, 58, 73, true),
    Process(9, 18, 2, 0, 0, 23, 25, 43, true),
    Process(10, 20, 8, 0, 0, 37, 45, 65, true)]

  const D18: RRState := RRState(P18, [0, 1, 2, 0, 3, 4, 5, 6, 0, 7, 8, 3, 9, 0, 7, 9, 0, 7], 18, [true, true, true, true, true, true, true, true, true, true], 73, 10, 8)

  /** One more tick of a slice. */
  lemma TicksNext(c: RRState, k: int, t: RRState, u: RRState)
    requires Shaped(c) && k >= 0 && Ticks(c, k) == t && Tick(t) == u
    ensures Ticks(c, k + 1) == u
  {
  }

  /** A dispatch assembled from its charge, its ticks and its settle. */
  lemma DispatchIs(s: RRState, quantum: int, policy: Policy, idx: int, c: RRState, slice: int, t: RRState, r: RRState)
    requires Shaped(s) && s.head < |s.log| && s.log[s.head] == idx && 0 <= idx < |s.procs|
    requires policy.Penalized? && Charge(s.(head := s.head + 1), idx, policy.penalty) == c
    requires slice == Slice(c.procs[idx].remaining, quantum)
    requires Ticks(c, slice) == t && Settle(t, idx, slice) == r
    ensures Dispatch(s, quantum, policy) == r
  {
  }

  /** The state before the initial scan. */
  const Unqueued: RRState := RRState(Table, [], 0, [false, false, false, false, false, false, false, false, false, false], 0, 0, -1)

  /** The scan before the loop queues P1 alone. */
  lemma InitOnTable()
    ensures Init(Table) == D0
  {
    assert Start(Table) == Unqueued by {
      assert Start(Table).inQueue == Unqueued.inQueue;
    }
    AdmitInit(Unqueued);
    RaiseInit(Unqueued);
    ScanIs(Unqueued, AtStart, [0], D0);
  }

  /** A scan that admits exactly `added` appends it and raises exactly the admitted flags. */
  lemma ScanIs(s: RRState, rule: Admission, added: seq<int>, r: RRState)
    requires Shaped(s)
    requires Admitted(s, rule, 0) == added
    requires |r.inQueue| == |s.inQueue| && r == s.(log := s.log + added, inQueue := r.inQueue)
    requires forall i :: 0 <= i < |s.inQueue| ==> r.inQueue[i] == (s.inQueue[i] || i in added)
    ensures Scan(s, rule) == r
  {
    ScanEffect(s, rule);
    AdmittedSound(s, rule, 0);
    AdmittedComplete(s, rule, 0);
    assert Scan(s, rule).inQueue == r.inQueue;
  }

  lemma Charge0()
    ensures Charge(D0.(head := 1), 0, 1) == C0
  {
  }

  lemma Tick0_1()
    ensures Tick(C0) == T0_1
  {
  }

  lemma Tick0_2()
    ensures Tick(T0_1) == T0_2
  {
    Admit0_2(T0_1.(clock := 2));
    Raise0_2(T0_1.(clock := 2));
    ScanIs(T0_1.(clock := 2), ArrivedNow, [1], T0_2);
  }

  lemma Tick0_3()
    ensures Tick(T0_2) == T0_3
  {
  }

  lemma Tick0_4()
    ensures Tick(T0_3) == T0_4
  {
    Admit0_4(T0_3.(clock := 4));
    Raise0_4(T0_3.(clock := 4));
    ScanIs(T0_3.(clock := 4), ArrivedNow, [2], T0_4);
  }

  lemma Slice0()
    ensures Ticks(C0, 4) == T0_4
  {
    Tick0_1();
    Tick0_2();
    Tick0_3();
    Tick0_4();
    TicksNext(C0, 0, C0, T0_1);
    TicksNext(C0, 1, T0_1, T0_2);
    TicksNext(C0, 2, T0_2, T0_3);
    TicksNext(C0, 3, T0_3, T0_4);
  }

  lemma Queue0()
    ensures Shaped(D0) && D0.head < |D0.log| && D0.log[D0.head] == 0
  {
  }

  lemma Settle0()
    ensures Settle(T0_4, 0, 4) == D1
  {
  }

  /** Dispatch 1 runs P1 for 4 ticks. */
  lemma Dispatch0()
    ensures Dispatch(D0, 4, Penalized(1, false)) == D1
  {
    Queue0();
    Charge0();
    Slice0();
    Settle0();
    DispatchIs(D0, 4, Penalized(1, false), 0, C0, 4, T0_4, D1);
  }

  lemma Run0()
    requires Inv(D0)
    ensures Inv(D1) && Run(D0, 4, Penalized(1, false)) == Run(D1, 4, Penalized(1, false))
  {
    Dispatch0();
    StepKeeps(D0, 4, Penalized(1, false));
  }

  lemma Charge1()
    ensures Charge(D1.(head := 2), 1, 1) == C1
  {
    Admit1_0(D1.(head := 2, clock := 5));
    Raise1_0(D1.(head := 2, clock := 5));
    ScanIs(D1.(head := 2, clock := 5), ArrivedSoFar, [3], C1.(lastPid := 1));
  }

  lemma Tick1_1()
    ensures Tick(C1) == T1_1
  {
  }

  lemma Tick1_2()
    ensures Tick(T1_1) == T1_2
  {
  }

  lemma Slice1()
    ensures Ticks(C1, 2) == T1_2
  {
    Tick1_1();
    Tick1_2();
    TicksNext(C1, 0, C1, T1_1);
    TicksNext(C1, 1, T1_1, T1_2);
  }

  lemma Queue1()
    ensures Shaped(D1) && D1.head < |D1.log| && D1.log[D1.head] == 1
  {
  }

  lemma Settle1()
    ensures Settle(T1_2, 1, 2) == D2
  {
  }

  /** Dispatch 2 runs P2 for 2 ticks after a switch. */
  lemma Dispatch1()
    ensures Dispatch(D1, 4, Penalized(1, false)) == D2
  {
    Queue1();
    Charge1();
    Slice1();
    Settle1();
    DispatchIs(D1, 4, Penalized(1, false), 1, C1, 2, T1_2, D2);
  }

  lemma Run1()
    requires Inv(D1)
    ensures Inv(D2) && Run(D1, 4, Penalized(1, false)) == Run(D2, 4, Penalized(1, false))
  {
    Dispatch1();
    StepKeeps(D1, 4, Penalized(1, false));
  }

  lemma Charge2()
    ensures Charge(D2.(head := 3), 2, 1) == C2
  {
    Admit2_0(D2.(head := 3, clock := 8));
    Raise2_0(D2.(head := 3, clock := 8));
    ScanIs(D2.(head := 3, clock := 8), ArrivedSoFar, [4], C2.(lastPid := 2));
  }

  lemma Tick2_1()
    ensures Tick(C2) == T2_1
  {
  }

  lemma Slice2()
    ensures Ticks(C2, 1) == T2_1
  {
    Tick2_1();
    TicksNext(C2, 0, C2, T2_1);
  }

  lemma Queue2()
    ensures Shaped(D2) && D2.head < |D2.log| && D2.log[D2.head] == 2
  {
  }

  lemma Settle2()
    ensures Settle(T2_1, 2, 1) == D3
  {
  }

  /** Dispatch 3 runs P3 for 1 tick after a switch. */
  lemma Dispatch2()
    ensures Dispatch(D2, 4, Penalized(1, false)) == D3
  {
    Queue2();
    Charge2();
    Slice2();
    Settle2();
    DispatchIs(D2, 4, Penalized(1, false), 2, C2, 1, T2_1, D3);
  }

  lemma Run2()
    requires Inv(D2)
    ensures Inv(D3) && Run(D2, 4, Penalized(1, false)) == Run(D3, 4, Penalized(1, false))
  {
    Dispatch2();
    StepKeeps(D2, 4, Penalized(1, false));
  }

  lemma Charge3()
    ensures Charge(D3.(head := 4), 0, 1) == C3
  {
    Admit3_0(D3.(head := 4, clock := 10));
    Raise3_0(D3.(head := 4, clock := 10));
    ScanIs(D3.(head := 4, clock := 10), ArrivedSoFar, [5], C3.(lastPid := 3));
  }

  lemma Tick3_1()
    ensures Tick(C3) == T3_1
  {
  }

  lemma Tick3_2()
    ensures Tick(T3_1) == T3_2
  {
    Admit3_2(T3_1.(clock := 12));
    Raise3_2(T3_1.(clock := 12));
    ScanIs(T3_1.(clock := 12), ArrivedNow, [6], T3_2);
  }

  lemma Tick3_3()
    ensures Tick(T3_2) == T3_3
  {
  }

  lemma Tick3_4()
    ensures Tick(T3_3) == T3_4
  {
  }

  lemma Slice3()
    ensures Ticks(C3, 4) == T3_4
  {
    Tick3_1();
    Tick3_2();
    Tick3_3();
    Tick3_4();
    TicksNext(C3, 0, C3, T3_1);
    TicksNext(C3, 1, T3_1, T3_2);
    TicksNext(C3, 2, T3_2, T3_3);
    TicksNext(C3, 3, T3_3, T3_4);
  }

  lemma Queue3()
    ensures Shaped(D3) && D3.head < |D3.log| && D3.log[D3.head] == 0
  {
  }

  lemma Settle3()
    ensures Settle(T3_4, 0, 4) == D4
  {
  }

  /** Dispatch 4 runs P1 for 4 ticks after a switch. */
  lemma Dispatch3()
    ensures Dispatch(D3, 4, Penalized(1, false)) == D4
  {
    Queue3();
    Charge3();
    Slice3();
    Settle3();
    DispatchIs(D3, 4, Penalized(1, false), 0, C3, 4, T3_4, D4);
  }

  lemma Run3()
    requires Inv(D3)
    ensures Inv(D4) && Run(D3, 4, Penalized(1, false)) == Run(D4, 4, Penalized(1, false))
  {
    Dispatch3();
    StepKeeps(D3, 4, Penalized(1, false));
  }

  lemma Charge4()
    ensures Charge(D4.(head := 5), 3, 1) == C4
  {
    Admit4_0(D4.(head := 5, clock := 15));
    Raise4_0(D4.(head := 5, clock := 15));
    ScanIs(D4.(head := 5, clock := 15), ArrivedSoFar, [7], C4.(lastPid := 1));
  }

  lemma Tick4_1()
    ensures Tick(C4) == T4_1
  {
  }

  lemma Tick4_2()
    ensures Tick(T4_1) == T4_2
  {
  }

  lemma Tick4_3()
    ensures Tick(T4_2) == T4_3
  {
    Admit4_3(T4_2.(clock := 18));
    Raise4_3(T4_2.(clock := 18));
    ScanIs(T4_2.(clock := 18), ArrivedNow, [8], T4_3);
  }

  lemma Tick4_4()
    ensures Tick(T4_3) == T4_4
  {
  }

  lemma Slice4()
    ensures Ticks(C4, 4) == T4_4
  {
    Tick4_1();
    Tick4_2();
    Tick4_3();
    Tick4_4();
    TicksNext(C4, 0, C4, T4_1);
    TicksNext(C4, 1, T4_1, T4_2);
    TicksNext(C4, 2, T4_2, T4_3);
    TicksNext(C4, 3, T4_3, T4_4);
  }

  lemma Queue4()
    ensures Shaped(D4) && D4.head < |D4.log| && D4.log[D4.head] == 3
  {
  }

  lemma Settle4()
    ensures Settle(T4_4, 3, 4) == D5
  {
  }

  /** Dispatch 5 runs P4 for 4 ticks after a switch. */
  lemma Dispatch4()
    ensures Dispatch(D4, 4, Penalized(1, false)) == D5
  {
    Queue4();
    Charge4();
    Slice4();
    Settle4();
    DispatchIs(D4, 4, Penalized(1, false), 3, C4, 4, T4_4, D5);
  }

  lemma Run4()
    requires Inv(D4)
    ensures Inv(D5) && Run(D4, 4, Penalized(1, false)) == Run(D5, 4, Penalized(1, false))
  {
    Dispatch4();
    StepKeeps(D4, 4, Penalized(1, false));
  }

  lemma Charge5()
    ensures Charge(D5.(head := 6), 4, 1) == C5
  {
    Admit5_0(D5.(head := 6, clock := 20));
    Raise5_0(D5.(head := 6, clock := 20));
    ScanIs(D5.(head := 6, clock := 20), ArrivedSoFar, [9], C5.(lastPid := 4));
  }

  lemma Tick5_1()
    ensures Tick(C5) == T5_1
  {
  }

  lemma Tick5_2()
    ensures Tick(T5_1) == T5_2
  {
  }

  lemma Tick5_3()
    ensures Tick(T5_2) == T5_3
  {
  }

  lemma Slice5()
    ensures Ticks(C5, 3) == T5_3
  {
    Tick5_1();
    Tick5_2();
    Tick5_3();
    TicksNext(C5, 0, C5, T5_1);
    TicksNext(C5, 1, T5_1, T5_2);
    TicksNext(C5, 2, T5_2, T5_3);
  }

  lemma Queue5()
    ensures Shaped(D5) && D5.head < |D5.log| && D5.log[D5.head] == 4
  {
  }

  lemma Settle5()
    ensures Settle(T5_3, 4, 3) == D6
  {
  }

  /** Dispatch 6 runs P5 for 3 ticks after a switch. */
  lemma Dispatch5()
    ensures Dispatch(D5, 4, Penalized(1, false)) == D6
  {
    Queue5();
    Charge5();
    Slice5();
    Settle5();
    DispatchIs(D5, 4, Penalized(1, false), 4, C5, 3, T5_3, D6);
  }

  lemma Run5()
    requires Inv(D5)
    ensures Inv(D6) && Run(D5, 4, Penalized(1, false)) == Run(D6, 4, Penalized(1, false))
  {
    Dispatch5();
    StepKeeps(D5, 4, Penalized(1, false));
  }

  lemma Charge6()
    ensures Charge(D6.(head := 7), 5, 1) == C6
  {
  }

  lemma Tick6_1()
    ensures Tick(C6) == T6_1
  {
  }

  lemma Slice6()
    ensures Ticks(C6, 1) == T6_1
  {
    Tick6_1();
    TicksNext(C6, 0, C6, T6_1);
  }

  lemma Queue6()
    ensures Shaped(D6) && D6.head < |D6.log| && D6.log[D6.head] == 5
  {
  }

  lemma Settle6()
    ensures Settle(T6_1, 5, 1) == D7
  {
  }

  /** Dispatch 7 runs P6 for 1 tick after a switch. */
  lemma Dispatch6()
    ensures Dispatch(D6, 4, Penalized(1, false)) == D7
  {
    Queue6();
    Charge6();
    Slice6();
    Settle6();
    DispatchIs(D6, 4, Penalized(1, false), 5, C6, 1, T6_1, D7);
  }

  lemma Run6()
    requires Inv(D6)
    ensures Inv(D7) && Run(D6, 4, Penalized(1, false)) == Run(D7, 4, Penalized(1, false))
  {
    Dispatch6();
    StepKeeps(D6, 4, Penalized(1, false));
  }

  lemma Charge7()
    ensures Charge(D7.(head := 8), 6, 1) == C7
  {
  }

  lemma Tick7_1()
    ensures Tick(C7) == T7_1
  {
  }

  lemma Tick7_2()
    ensures Tick(T7_1) == T7_2
  {
  }

  lemma Tick7_3()
    ensures Tick(T7_2) == T7_3
  {
  }

  lemma Tick7_4()
    ensures Tick(T7_3) == T7_4
  {
  }

  lemma Slice7()
    ensures Ticks(C7, 4) == T7_4
  {
    Tick7_1();
    Tick7_2();
    Tick7_3();
    Tick7_4();
    TicksNext(C7, 0, C7, T7_1);
    TicksNext(C7, 1, T7_1, T7_2);
    TicksNext(C7, 2, T7_2, T7_3);
    TicksNext(C7, 3, T7_3, T7_4);
  }

  lemma Queue7()
    ensures Shaped(D7) && D7.head < |D7.log| && D7.log[D7.head] == 6
  {
  }

  lemma Settle7()
    ensures Settle(T7_4, 6, 4) == D8
  {
  }

  /** Dispatch 8 runs P7 for 4 ticks after a switch. */
  lemma Dispatch7()
    ensures Dispatch(D7, 4, Penalized(1, false)) == D8
  {
    Queue7();
    Charge7();
    Slice7();
    Settle7();
    DispatchIs(D7, 4, Penalized(1, false), 6, C7, 4, T7_4, D8);
  }

  lemma Run7()
    requires Inv(D7)
    ensures Inv(D8) && Run(D7, 4, Penalized(1, false)) == Run(D8, 4, Penalized(1, false))
  {
    Dispatch7();
    StepKeeps(D7, 4, Penalized(1, false));
  }

  lemma Charge8()
    ensures Charge(D8.(head := 9), 0, 1) == C8
  {
  }

  lemma Tick8_1()
    ensures Tick(C8) == T8_1
  {
  }

  lemma Tick8_2()
    ensures Tick(T8_1) == T8_2
  {
  }

  lemma Tick8_3()
    ensures Tick(T8_2) == T8_3
  {
  }

  lemma Tick8_4()
    ensures Tick(T8_3) == T8_4
  {
  }

  lemma Slice8()
    ensures Ticks(C8, 4) == T8_4
  {
    Tick8_1();
    Tick8_2();
    Tick8_3();
    Tick8_4();
    TicksNext(C8, 0, C8, T8_1);
    TicksNext(C8, 1, T8_1, T8_2);
    TicksNext(C8, 2, T8_2, T8_3);
    TicksNext(C8, 3, T8_3, T8_4);
  }

  lemma Queue8()
    ensures Shaped(D8) && D8.head < |D8.log| && D8.log[D8.head] == 0
  {
  }

  lemma Settle8()
    ensures Settle(T8_4, 0, 4) == D9
  {
  }

  /** Dispatch 9 runs P1 for 4 ticks after a switch. */
  lemma Dispatch8()
    ensures Dispatch(D8, 4, Penalized(1, false)) == D9
  {
    Queue8();
    Charge8();
    Slice8();
    Settle8();
    DispatchIs(D8, 4, Penalized(1, false), 0, C8, 4, T8_4, D9);
  }

  lemma Run8()
    requires Inv(D8)
    ensures Inv(D9) && Run(D8, 4, Penalized(1, false)) == Run(D9, 4, Penalized(1, false))
  {
    Dispatch8();
    StepKeeps(D8, 4, Penalized(1, false));
  }

  lemma Charge9()
    ensures Charge(D9.(head := 10), 7, 1) == C9
  {
  }

  lemma Tick9_1()
    ensures Tick(C9) == T9_1
  {
  }

  lemma Tick9_2()
    ensures Tick(T9_1) == T9_2
  {
  }

  lemma Tick9_3()
    ensures Tick(T9_2) == T9_3
  {
  }

  lemma Tick9_4()
    ensures Tick(T9_3) == T9_4
  {
  }

  lemma Slice9()
    ensures Ticks(C9, 4) == T9_4
  {
    Tick9_1();
    Tick9_2();
    Tick9_3();
    Tick9_4();
    TicksNext(C9, 0, C9, T9_1);
    TicksNext(C9, 1, T9_1, T9_2);
    TicksNext(C9, 2, T9_2, T9_3);
    TicksNext(C9, 3, T9_3, T9_4);
  }

  lemma Queue9()
    ensures Shaped(D9) && D9.head < |D9.log| && D9.log[D9.head] == 7
  {
  }

  lemma Settle9()
    ensures Settle(T9_4, 7, 4) == D10
  {
  }

  /** Dispatch 10 runs P8 for 4 ticks after a switch. */
  lemma Dispatch9()
    ensures Dispatch(D9, 4, Penalized(1, false)) == D10
  {
    Queue9();
    Charge9();
    Slice9();
    Settle9();
    DispatchIs(D9, 4, Penalized(1, false), 7, C9, 4, T9_4, D10);
  }

  lemma Run9()
    requires Inv(D9)
    ensures Inv(D10) && Run(D9, 4, Penalized(1, false)) == Run(D10, 4, Penalized(1, false))
  {
    Dispatch9();
    StepKeeps(D9, 4, Penalized(1, false));
  }

  lemma Charge10()
    ensures Charge(D10.(head := 11), 8, 1) == C10
  {
  }

  lemma Tick10_1()
    ensures Tick(C10) == T10_1
  {
  }

  lemma Tick10_2()
    ensures Tick(T10_1) == T10_2
  {
  }

  lemma Slice10()
    ensures Ticks(C10, 2) == T10_2
  {
    Tick10_1();
    Tick10_2();
    TicksNext(C10, 0, C10, T10_1);
    TicksNext(C10, 1, T10_1, T10_2);
  }

  lemma Queue10()
    ensures Shaped(D10) && D10.head < |D10.log| && D10.log[D10.head] == 8
  {
  }

  lemma Settle10()
    ensures Settle(T10_2, 8, 2) == D11
  {
  }

  /** Dispatch 11 runs P9 for 2 ticks after a switch. */
  lemma Dispatch10()
    ensures Dispatch(D10, 4, Penalized(1, false)) == D11
  {
    Queue10();
    Charge10();
    Slice10();
    Settle10();
    DispatchIs(D10, 4, Penalized(1, false), 8, C10, 2, T10_2, D11);
  }

  lemma Run10()
    requires Inv(D10)
    ensures Inv(D11) && Run(D10, 4, Penalized(1, false)) == Run(D11, 4, Penalized(1, false))
  {
    Dispatch10();
    StepKeeps(D10, 4, Penalized(1, false));
  }

  lemma Charge11()
    ensures Charge(D11.(head := 12), 3, 1) == C11
  {
  }

  lemma Tick11_1()
    ensures Tick(C11) == T11_1
  {
  }

  lemma Slice11()
    ensures Ticks(C11, 1) == T11_1
  {
    Tick11_1();
    TicksNext(C11, 0, C11, T11_1);
  }

  lemma Queue11()
    ensures Shaped(D11) && D11.head < |D11.log| && D11.log[D11.head] == 3
  {
  }

  lemma Settle11()
    ensures Settle(T11_1, 3, 1) == D12
  {
  }

  /** Dispatch 12 runs P4 for 1 tick after a switch. */
  lemma Dispatch11()
    ensures Dispatch(D11, 4, Penalized(1, false)) == D12
  {
    Queue11();
    Charge11();
    Slice11();
    Settle11();
    DispatchIs(D11, 4, Penalized(1, false), 3, C11, 1, T11_1, D12);
  }

  lemma Run11()
    requires Inv(D11)
    ensures Inv(D12) && Run(D11, 4, Penalized(1, false)) == Run(D12, 4, Penalized(1, false))
  {
    Dispatch11();
    StepKeeps(D11, 4, Penalized(1, false));
  }

  lemma Charge12()
    ensures Charge(D12.(head := 13), 9, 1) == C12
  {
  }

  lemma Tick12_1()
    ensures Tick(C12) == T12_1
  {
  }

  lemma Tick12_2()
    ensures Tick(T12_1) == T12_2
  {
  }

  lemma Tick12_3()
    ensures Tick(T12_2) == T12_3
  {
  }

  lemma Tick12_4()
    ensures Tick(T12_3) == T12_4
  {
  }

  lemma Slice12()
    ensures Ticks(C12, 4) == T12_4
  {
    Tick12_1();
    Tick12_2();
    Tick12_3();
    Tick12_4();
    TicksNext(C12, 0, C12, T12_1);
    TicksNext(C12, 1, T12_1, T12_2);
    TicksNext(C12, 2, T12_2, T12_3);
    TicksNext(C12, 3, T12_3, T12_4);
  }

  lemma Queue12()
    ensures Shaped(D12) && D12.head < |D12.log| && D12.log[D12.head] == 9
  {
  }

  lemma Settle12()
    ensures Settle(T12_4, 9, 4) == D13
  {
  }

  /** Dispatch 13 runs P10 for 4 ticks after a switch. */
  lemma Dispatch12()
    ensures Dispatch(D12, 4, Penalized(1, false)) == D13
  {
    Queue12();
    Charge12();
    Slice12();
    Settle12();
    DispatchIs(D12, 4, Penalized(1, false), 9, C12, 4, T12_4, D13);
  }

  lemma Run12()
    requires Inv(D12)
    ensures Inv(D13) && Run(D12, 4, Penalized(1, false)) == Run(D13, 4, Penalized(1, false))
  {
    Dispatch12();
    StepKeeps(D12, 4, Penalized(1, false));
  }

  lemma Charge13()
    ensures Charge(D13.(head := 14), 0, 1) == C13
  {
  }

  lemma Tick13_1()
    ensures Tick(C13) == T13_1
  {
  }

  lemma Tick13_2()
    ensures Tick(T13_1) == T13_2
  {
  }

  lemma Tick13_3()
    ensures Tick(T13_2) == T13_3
  {
  }

  lemma Tick13_4()
    ensures Tick(T13_3) == T13_4
  {
  }

  lemma Slice13()
    ensures Ticks(C13, 4) == T13_4
  {
    Tick13_1();
    Tick13_2();
    Tick13_3();
    Tick13_4();
    TicksNext(C13, 0, C13, T13_1);
    TicksNext(C13, 1, T13_1, T13_2);
    TicksNext(C13, 2, T13_2, T13_3);
    TicksNext(C13, 3, T13_3, T13_4);
  }

  lemma Queue13()
    ensures Shaped(D13) && D13.head < |D13.log| && D13.log[D13.head] == 0
  {
  }

  lemma Settle13()
    ensures Settle(T13_4, 0, 4) == D14
  {
  }

  /** Dispatch 14 runs P1 for 4 ticks after a switch. */
  lemma Dispatch13()
    ensures Dispatch(D13, 4, Penalized(1, false)) == D14
  {
    Queue13();
    Charge13();
    Slice13();
    Settle13();
    DispatchIs(D13, 4, Penalized(1, false), 0, C13, 4, T13_4, D14);
  }

  lemma Run13()
    requires Inv(D13)
    ensures Inv(D14) && Run(D13, 4, Penalized(1, false)) == Run(D14, 4, Penalized(1, false))
  {
    Dispatch13();
    StepKeeps(D13, 4, Penalized(1, false));
  }

  lemma Charge14()
    ensures Charge(D14.(head := 15), 7, 1) == C14
  {
  }

  lemma Tick14_1()
    ensures Tick(C14) == T14_1
  {
  }

  lemma Tick14_2()
    ensures Tick(T14_1) == T14_2
  {
  }

  lemma Tick14_3()
    ensures Tick(T14_2) == T14_3
  {
  }

  lemma Tick14_4()
    ensures Tick(T14_3) == T14_4
  {
  }

  lemma Slice14()
    ensures Ticks(C14, 4) == T14_4
  {
    Tick14_1();
    Tick14_2();
    Tick14_3();
    Tick14_4();
    TicksNext(C14, 0, C14, T14_1);
    TicksNext(C14, 1, T14_1, T14_2);
    TicksNext(C14, 2, T14_2, T14_3);
    TicksNext(C14, 3, T14_3, T14_4);
  }

  lemma Queue14()
    ensures Shaped(D14) && D14.head < |D14.log| && D14.log[D14.head] == 7
  {
  }

  lemma Settle14()
    ensures Settle(T14_4, 7, 4) == D15
  {
  }

  /** Dispatch 15 runs P8 for 4 ticks after a switch. */
  lemma Dispatch14()
    ensures Dispatch(D14, 4, Penalized(1, false)) == D15
  {
    Queue14();
    Charge14();
    Slice14();
    Settle14();
    DispatchIs(D14, 4, Penalized(1, false), 7, C14, 4, T14_4, D15);
  }

  lemma Run14()
    requires Inv(D14)
    ensures Inv(D15) && Run(D14, 4, Penalized(1, false)) == Run(D15, 4, Penalized(1, false))
  {
    Dispatch14();
    StepKeeps(D14, 4, Penalized(1, false));
  }

  lemma Charge15()
    ensures Charge(D15.(head := 16), 9, 1) == C15
  {
  }

  lemma Tick15_1()
    ensures Tick(C15) == T15_1
  {
  }

  lemma Tick15_2()
    ensures Tick(T15_1) == T15_2
  {
  }

  lemma Tick15_3()
    ensures Tick(T15_2) == T15_3
  {
  }

  lemma Tick15_4()
    ensures Tick(T15_3) == T15_4
  {
  }

  lemma Slice15()
    ensures Ticks(C15, 4) == T15_4
  {
    Tick15_1();
    Tick15_2();
    Tick15_3();
    Tick15_4();
    TicksNext(C15, 0, C15, T15_1);
    TicksNext(C15, 1, T15_1, T15_2);
    TicksNext(C15, 2, T15_2, T15_3);
    TicksNext(C15, 3, T15_3, T15_4);
  }

  lemma Queue15()
    ensures Shaped(D15) && D15.head < |D15.log| && D15.log[D15.head] == 9
  {
  }

  lemma Settle15()
    ensures Settle(T15_4, 9, 4) == D16
  {
  }

  /** Dispatch 16 runs P10 for 4 ticks after a switch. */
  lemma Dispatch15()
    ensures Dispatch(D15, 4, Penalized(1, false)) == D16
  {
    Queue15();
    Charge15();
    Slice15();
    Settle15();
    DispatchIs(D15, 4, Penalized(1, false), 9, C15, 4, T15_4, D16);
  }

  lemma Run15()
    requires Inv(D15)
    ensures Inv(D16) && Run(D15, 4, Penalized(1, false)) == Run(D16, 4, Penalized(1, false))
  {
    Dispatch15();
    StepKeeps(D15, 4, Penalized(1, false));
  }

  lemma Charge16()
    ensures Charge(D16.(head := 17), 0, 1) == C16
  {
  }

  lemma Tick16_1()
    ensures Tick(C16) == T16_1
  {
  }

  lemma Tick16_2()
    ensures Tick(T16_1) == T16_2
  {
  }

  lemma Tick16_3()
    ensures Tick(T16_2) == T16_3
  {
  }

  lemma Tick16_4()
    ensures Tick(T16_3) == T16_4
  {
  }

  lemma Slice16()
    ensures Ticks(C16, 4) == T16_4
  {
    Tick16_1();
    Tick16_2();
    Tick16_3();
    Tick16_4();
    TicksNext(C16, 0, C16, T16_1);
    TicksNext(C16, 1, T16_1, T16_2);
    TicksNext(C16, 2, T16_2, T16_3);
    TicksNext(C16, 3, T16_3, T16_4);
  }

  lemma Queue16()
    ensures Shaped(D16) && D16.head < |D16.log| && D16.log[D16.head] == 0
  {
  }

  lemma Settle16()
    ensures Settle(T16_4, 0, 4) == D17
  {
  }

  /** Dispatch 17 runs P1 for 4 ticks after a switch. */
  lemma Dispatch16()
    ensures Dispatch(D16, 4, Penalized(1, false)) == D17
  {
    Queue16();
    Charge16();
    Slice16();
    Settle16();
    DispatchIs(D16, 4, Penalized(1, false), 0, C16, 4, T16_4, D17);
  }

  lemma Run16()
    requires Inv(D16)
    ensures Inv(D17) && Run(D16, 4, Penalized(1, false)) == Run(D17, 4, Penalized(1, false))
  {
    Dispatch16();
    StepKeeps(D16, 4, Penalized(1, false));
  }

  lemma Charge17()
    ensures Charge(D17.(head := 18), 7, 1) == C17
  {
  }

  lemma Tick17_1()
    ensures Tick(C17) == T17_1
  {
  }

  lemma Tick17_2()
    ensures Tick(T17_1) == T17_2
  {
  }

  lemma Slice17()
    ensures Ticks(C17, 2) == T17_2
  {
    Tick17_1();
    Tick17_2();
    TicksNext(C17, 0, C17, T17_1);
    TicksNext(C17, 1, T17_1, T17_2);
  }

  lemma Queue17()
    ensures Shaped(D17) && D17.head < |D17.log| && D17.log[D17.head] == 7
  {
  }

  lemma Settle17()
    ensures Settle(T17_2, 7, 2) == D18
  {
  }

  /** Dispatch 18 runs P8 for 2 ticks after a switch. */
  lemma Dispatch17()
    ensures Dispatch(D17, 4, Penalized(1, false)) == D18
  {
    Queue17();
    Charge17();
    Slice17();
    Settle17();
    DispatchIs(D17, 4, Penalized(1, false), 7, C17, 2, T17_2, D18);
  }

  lemma Run17()
    requires Inv(D17)
    ensures Inv(D18) && Run(D17, 4, Penalized(1, false)) == Run(D18, 4, Penalized(1, false))
  {
    Dispatch17();
    StepKeeps(D17, 4, Penalized(1, false));
  }

  lemma PenaltyFirstHalf()
    requires Inv(D0)
    ensures Inv(D9) && Run(D0, 4, Penalized(1, false)) == Run(D9, 4, Penalized(1, false))
  {
    Run0();
    Run1();
    Run2();
    Run3();
    Run4();
    Run5();
    Run6();
    Run7();
    Run8();
  }

  lemma PenaltySecondHalf()
    requires Inv(D9)
    ensures Inv(D18) && Run(D9, 4, Penalized(1, false)) == Run(D18, 4, Penalized(1, false))
  {
    Run9();
    Run10();
    Run11();
    Run12();
    Run13();
    Run14();
    Run15();
    Run16();
    Run17();
  }

  /**
   * `simulate_RR_with_penalty(proc, 10, 4, 1)` on the workload ends after
   * 18 dispatches at time 73, having written 18 queue slots, and leaves `P18`.
   */
  lemma PenaltyOnTable()
    ensures WellFormed(Table)
    ensures Finish(Table, 4, Penalized(1, false)) == Some(D18)
    ensures Schedule(Table, 4, Penalized(1, false)) == Some(P18)
    ensures Enqueues(Table, 4, Penalized(1, false)) == 18
  {
    PenaltyFinish();
  }

  lemma PenaltyFinish()
    ensures WellFormed(Table)
    ensures Finish(Table, 4, Penalized(1, false)) == Some(D18)
  {
    PenaltyStart();
    PenaltyFirstHalf();
    PenaltySecondHalf();
    PenaltyDone();
  }

  /** The workload is well formed and its run starts from `D0`. */
  lemma PenaltyStart()
    ensures WellFormed(Table) && Inv(D0)
    ensures Finish(Table, 4, Penalized(1, false)) == Run(D0, 4, Penalized(1, false))
  {
    TableIsReady();
    InitInv(Table);
    InitOnTable();
  }

  /** After the last dispatch every process is complete and the run stops. */
  lemma PenaltyDone()
    requires Inv(D18)
    ensures Run(D18, 4, Penalized(1, false)) == Some(D18)
  {
  }

  lemma PenaltyTableTotals(r: seq<Process>)
    requires r == P18
    ensures TotalWaiting(r) == 240 && TotalTurnaround(r) == 296
  {
  }

  /**
   * Round robin with penalty on the workload: the run ends, fits the
   * 100-slot queue, and totals waiting 240 (average 24.00) and turnaround 296.
   */
  lemma PenaltyReport()
    ensures WellFormed(Table)
    ensures Schedule(Table, 4, Penalized(1, false)).Some? && Enqueues(Table, 4, Penalized(1, false)) <= MaxProcesses
    ensures TotalWaiting(Schedule(Table, 4, Penalized(1, false)).value) == 240
    ensures TotalTurnaround(Schedule(Table, 4, Penalized(1, false)).value) == 296
  {
    PenaltyOnTable();
    PenaltyTableTotals(P18);
  }


  /** The rescanning variant leaves the same table on the workload. */
  lemma PenaltyRescanOnTable()
    ensures WellFormed(Table)
    ensures Schedule(Table, 4, Penalized(1, true)) == Some(P18)
  {
    PenaltyOnTable();
    ScheduleRescanAgrees(Table, 4, 1);
  }

  lemma AdmitInit(s: RRState)
    requires s == Unqueued
    ensures Shaped(s) && Admitted(s, AtStart, 0) == [0]
  {
    assert Admitted(s, AtStart, 10) == [];
    assert Admitted(s, AtStart, 9) == [];
    assert Admitted(s, AtStart, 8) == [];
    assert Admitted(s, AtStart, 7) == [];
    assert Admitted(s, AtStart, 6) == [];
    assert Admitted(s, AtStart, 5) == [];
    assert Admitted(s, AtStart, 4) == [];
    assert Admitted(s, AtStart, 3) == [];
    assert Admitted(s, AtStart, 2) == [];
    assert Admitted(s, AtStart, 1) == [];
    assert Admitted(s, AtStart, 0) == [0];
  }

  lemma RaiseInit(s: RRState)
    requires s == Unqueued
    ensures |D0.inQueue| == |s.inQueue| && D0 == s.(log := s.log + [0], inQueue := D0.inQueue)
    ensures forall i :: 0 <= i < |s.inQueue| ==> D0.inQueue[i] == (s.inQueue[i] || i in [0])
  {
  }

  lemma Admit0_2(s: RRState)
    requires s == T0_1.(clock := 2)
    ensures Shaped(s) && Admitted(s, ArrivedNow, 0) == [1]
  {
    assert Admitted(s, ArrivedNow, 10) == [];
    assert Admitted(s, ArrivedNow, 9) == [];
    assert Admitted(s, ArrivedNow, 8) == [];
    assert Admitted(s, ArrivedNow, 7) == [];
    assert Admitted(s, ArrivedNow, 6) == [];
    assert Admitted(s, ArrivedNow, 5) == [];
    assert Admitted(s, ArrivedNow, 4) == [];
    assert Admitted(s, ArrivedNow, 3) == [];
    assert Admitted(s, ArrivedNow, 2) == [];
    assert Admitted(s, ArrivedNow, 1) == [1];
    assert Admitted(s, ArrivedNow, 0) == [1];
  }

  lemma Raise0_2(s: RRState)
    requires s == T0_1.(clock := 2)
    ensures |T0_2.inQueue| == |s.inQueue| && T0_2 == s.(log := s.log + [1], inQueue := T0_2.inQueue)
    ensures forall i :: 0 <= i < |s.inQueue| ==> T0_2.inQueue[i] == (s.inQueue[i] || i in [1])
  {
  }

  lemma Admit0_4(s: RRState)
    requires s == T0_3.(clock := 4)
    ensures Shaped(s) && Admitted(s, ArrivedNow, 0) == [2]
  {
    assert Admitted(s, ArrivedNow, 10) == [];
    assert Admitted(s, ArrivedNow, 9) == [];
    assert Admitted(s, ArrivedNow, 8) == [];
    assert Admitted(s, ArrivedNow, 7) == [];
    assert Admitted(s, ArrivedNow, 6) == [];
    assert Admitted(s, ArrivedNow, 5) == [];
    assert Admitted(s, ArrivedNow, 4) == [];
    assert Admitted(s, ArrivedNow, 3) == [];
    assert Admitted(s, ArrivedNow, 2) == [2];
    assert Admitted(s, ArrivedNow, 1) == [2];
    assert Admitted(s, ArrivedNow, 0) == [2];
  }

  lemma Raise0_4(s: RRState)
    requires s == T0_3.(clock := 4)
    ensures |T0_4.inQueue| == |s.inQueue| && T0_4 == s.(log := s.log + [2], inQueue := T0_4.inQueue)
    ensures forall i :: 0 <= i < |s.inQueue| ==> T0_4.inQueue[i] == (s.inQueue[i] || i in [2])
  {
  }

  lemma Admit1_0(s: RRState)
    requires s == D1.(head := 2, clock := 5)
    ensures Shaped(s) && Admitted(s, ArrivedSoFar, 0) == [3]
  {
    assert Admitted(s, ArrivedSoFar, 10) == [];
    assert Admitted(s, ArrivedSoFar, 9) == [];
    assert Admitted(s, ArrivedSoFar, 8) == [];
    assert Admitted(s, ArrivedSoFar, 7) == [];
    assert Admitted(s, ArrivedSoFar, 6) == [];
    assert Admitted(s, ArrivedSoFar, 5) == [];
    assert Admitted(s, ArrivedSoFar, 4) == [];
    assert Admitted(s, ArrivedSoFar, 3) == [3];
    assert Admitted(s, ArrivedSoFar, 2) == [3];
    assert Admitted(s, ArrivedSoFar, 1) == [3];
    assert Admitted(s, ArrivedSoFar, 0) == [3];
  }

  lemma Raise1_0(s: RRState)
    requires s == D1.(head := 2, clock := 5)
    ensures |C1.(lastPid := 1).inQueue| == |s.inQueue| && C1.(lastPid := 1) == s.(log := s.log + [3], inQueue := C1.(lastPid := 1).inQueue)
    ensures forall i :: 0 <= i < |s.inQueue| ==> C1.(lastPid := 1).inQueue[i] == (s.inQueue[i] || i in [3])
  {
  }

  lemma Admit2_0(s: RRState)
    requires s == D2.(head := 3, clock := 8)
    ensures Shaped(s) && Admitted(s, ArrivedSoFar, 0) == [4]
  {
    assert Admitted(s, ArrivedSoFar, 10) == [];
    assert Admitted(s, ArrivedSoFar, 9) == [];
    assert Admitted(s, ArrivedSoFar, 8) == [];
    assert Admitted(s, ArrivedSoFar, 7) == [];
    assert Admitted(s, ArrivedSoFar, 6) == [];
    assert Admitted(s, ArrivedSoFar, 5) == [];
    assert Admitted(s, ArrivedSoFar, 4) == [4];
    assert Admitted(s, ArrivedSoFar, 3) == [4];
    assert Admitted(s, ArrivedSoFar, 2) == [4];
    assert Admitted(s, ArrivedSoFar, 1) == [4];
    assert Admitted(s, ArrivedSoFar, 0) == [4];
  }

  lemma Raise2_0(s: RRState)
    requires s == D2.(head := 3, clock := 8)
    ensures |C2.(lastPid := 2).inQueue| == |s.inQueue| && C2.(lastPid := 2) == s.(log := s.log + [4], inQueue := C2.(lastPid := 2).inQueue)
    ensures forall i :: 0 <= i < |s.inQueue| ==> C2.(lastPid := 2).inQueue[i] == (s.inQueue[i] || i in [4])
  {
  }

  lemma Admit3_0(s: RRState)
    requires s == D3.(head := 4, clock := 10)
    ensures Shaped(s) && Admitted(s, ArrivedSoFar, 0) == [5]
  {
    assert Admitted(s, ArrivedSoFar, 10) == [];
    assert Admitted(s, ArrivedSoFar, 9) == [];
    assert Admitted(s, ArrivedSoFar, 8) == [];
    assert Admitted(s, ArrivedSoFar, 7) == [];
    assert Admitted(s, ArrivedSoFar, 6) == [];
    assert Admitted(s, ArrivedSoFar, 5) == [5];
    assert Admitted(s, ArrivedSoFar, 4) == [5];
    assert Admitted(s, ArrivedSoFar, 3) == [5];
    assert Admitted(s, ArrivedSoFar, 2) == [5];
    assert Admitted(s, ArrivedSoFar, 1) == [5];
    assert Admitted(s, ArrivedSoFar, 0) == [5];
  }

  lemma Raise3_0(s: RRState)
    requires s == D3.(head := 4, clock := 10)
    ensures |C3.(lastPid := 3).inQueue| == |s.inQueue| && C3.(lastPid := 3) == s.(log := s.log + [5], inQueue := C3.(lastPid := 3).inQueue)
    ensures forall i :: 0 <= i < |s.inQueue| ==> C3.(lastPid := 3).inQueue[i] == (s.inQueue[i] || i in [5])
  {
  }

  lemma Admit3_2(s: RRState)
    requires s == T3_1.(clock := 12)
    ensures Shaped(s) && Admitted(s, ArrivedNow, 0) == [6]
  {
    assert Admitted(s, ArrivedNow, 10) == [];
    assert Admitted(s, ArrivedNow, 9) == [];
    assert Admitted(s, ArrivedNow, 8) == [];
    assert Admitted(s, ArrivedNow, 7) == [];
    assert Admitted(s, ArrivedNow, 6) == [6];
    assert Admitted(s, ArrivedNow, 5) == [6];
    assert Admitted(s, ArrivedNow, 4) == [6];
    assert Admitted(s, ArrivedNow, 3) == [6];
    assert Admitted(s, ArrivedNow, 2) == [6];
    assert Admitted(s, ArrivedNow, 1) == [6];
    assert Admitted(s, ArrivedNow, 0) == [6];
  }

  lemma Raise3_2(s: RRState)
    requires s == T3_1.(clock := 12)
    ensures |T3_2.inQueue| == |s.inQueue| && T3_2 == s.(log := s.log + [6], inQueue := T3_2.inQueue)
    ensures forall i :: 0 <= i < |s.inQueue| ==> T3_2.inQueue[i] == (s.inQueue[i] || i in [6])
  {
  }

  lemma Admit4_0(s: RRState)
    requires s == D4.(head := 5, clock := 15)
    ensures Shaped(s) && Admitted(s, ArrivedSoFar, 0) == [7]
  {
    assert Admitted(s, ArrivedSoFar, 10) == [];
    assert Admitted(s, ArrivedSoFar, 9) == [];
    assert Admitted(s, ArrivedSoFar, 8) == [];
    assert Admitted(s, ArrivedSoFar, 7) == [7];
    assert Admitted(s, ArrivedSoFar, 6) == [7];
    assert Admitted(s, ArrivedSoFar, 5) == [7];
    assert Admitted(s, ArrivedSoFar, 4) == [7];
    assert Admitted(s, ArrivedSoFar, 3) == [7];
    assert Admitted(s, ArrivedSoFar, 2) == [7];
    assert Admitted(s, ArrivedSoFar, 1) == [7];
    assert Admitted(s, ArrivedSoFar, 0) == [7];
  }

  lemma Raise4_0(s: RRState)
    requires s == D4.(head := 5, clock := 15)
    ensures |C4.(lastPid := 1).inQueue| == |s.inQueue| && C4.(lastPid := 1) == s.(log := s.log + [7], inQueue := C4.(lastPid := 1).inQueue)
    ensures forall i :: 0 <= i < |s.inQueue| ==> C4.(lastPid := 1).inQueue[i] == (s.inQueue[i] || i in [7])
  {
  }

  lemma Admit4_3(s: RRState)
    requires s == T4_2.(clock := 18)
    ensures Shaped(s) && Admitted(s, ArrivedNow, 0) == [8]
  {
    assert Admitted(s, ArrivedNow, 10) == [];
    assert Admitted(s, ArrivedNow, 9) == [];
    assert Admitted(s, ArrivedNow, 8) == [8];
    assert Admitted(s, ArrivedNow, 7) == [8];
    assert Admitted(s, ArrivedNow, 6) == [8];
    assert Admitted(s, ArrivedNow, 5) == [8];
    assert Admitted(s, ArrivedNow, 4) == [8];
    assert Admitted(s, ArrivedNow, 3) == [8];
    assert Admitted(s, ArrivedNow, 2) == [8];
    assert Admitted(s, ArrivedNow, 1) == [8];
    assert Admitted(s, ArrivedNow, 0) == [8];
  }

  lemma Raise4_3(s: RRState)
    requires s == T4_2.(clock := 18)
    ensures |T4_3.inQueue| == |s.inQueue| && T4_3 == s.(log := s.log + [8], inQueue := T4_3.inQueue)
    ensures forall i :: 0 <= i < |s.inQueue| ==> T4_3.inQueue[i] == (s.inQueue[i] || i in [8])
  {
  }

  lemma Admit5_0(s: RRState)
    requires s == D5.(head := 6, clock := 20)
    ensures Shaped(s) && Admitted(s, ArrivedSoFar, 0) == [9]
  {
    assert Admitted(s, ArrivedSoFar, 10) == [];
    assert Admitted(s, ArrivedSoFar, 9) == [9];
    assert Admitted(s, ArrivedSoFar, 8) == [9];
    assert Admitted(s, ArrivedSoFar, 7) == [9];
    assert Admitted(s, ArrivedSoFar, 6) == [9];
    assert Admitted(s, ArrivedSoFar, 5) == [9];
    assert Admitted(s, ArrivedSoFar, 4) == [9];
    assert Admitted(s, ArrivedSoFar, 3) == [9];
    assert Admitted(s, ArrivedSoFar, 2) == [9];
    assert Admitted(s, ArrivedSoFar, 1) == [9];
    assert Admitted(s, ArrivedSoFar, 0) == [9];
  }

  lemma Raise5_0(s: RRState)
    requires s == D5.(head := 6, clock := 20)
    ensures |C5.(lastPid := 4).inQueue| == |s.inQueue| && C5.(lastPid := 4) == s.(log := s.log + [9], inQueue := C5.(lastPid := 4).inQueue)
    ensures forall i :: 0 <= i < |s.inQueue| ==> C5.(lastPid := 4).inQueue[i] == (s.inQueue[i] || i in [9])
  {
  }

}
