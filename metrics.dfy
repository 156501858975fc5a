/**
 * The numeric part of `calculate_detailed_metrics` (src/schedulers/base.py):
 * per-process statistics folded from the ledger, their totals, and the
 * averages and utilisation derived from them.
 */
module Metrics {
  import opened Wrappers
  import opened Processes
  import opened ProcessLists
  import opened Ledger

  /** One value of the `process_stats` dictionary. */
  datatype ProcessStats = ProcessStats(
    arrivalTime: int, burstTime: int, lastEnd: int, totalRunTime: int, startTime: Option<int>)

  function StatsOf(p: Process, h: seq<Execution>): ProcessStats
  {
    ProcessStats(p.arrivalTime, p.burstTime, LastEnd(h, p.processId),
                 RunTime(h, p.processId), FirstStart(h, p.processId))
  }

  function Turnaround(s: ProcessStats): int
  {
    s.lastEnd - s.arrivalTime
  }

  function WaitTime(s: ProcessStats): int
  {
    Turnaround(s) - s.totalRunTime
  }

  function TotalTurnaround(ps: seq<Process>, h: seq<Execution>): int
  {
    if ps == [] then 0 else TotalTurnaround(ps[..|ps| - 1], h) + Turnaround(StatsOf(ps[|ps| - 1], h))
  }

  function TotalWaiting(ps: seq<Process>, h: seq<Execution>): int
  {
    if ps == [] then 0 else TotalWaiting(ps[..|ps| - 1], h) + WaitTime(StatsOf(ps[|ps| - 1], h))
  }

  function TotalRunTime(ps: seq<Process>, h: seq<Execution>): int
  {
    if ps == [] then 0 else TotalRunTime(ps[..|ps| - 1], h) + RunTime(h, ps[|ps| - 1].processId)
  }

  /**
   * The integer quantities behind the returned metrics: the two totals and the
   * process count behind the averages, busy and elapsed time behind the
   * utilisation, and the context-switch counter.
   */
  datatype Metrics = Metrics(
    totalWaitingTime: int, totalTurnaroundTime: int, totalProcesses: nat,
    cpuBusyTime: int, totalTime: int, contextSwitches: int)

  function MetricsOf(ps: seq<Process>, h: seq<Execution>, currentTime: int, contextSwitches: int): Metrics
  {
    Metrics(TotalWaiting(ps, h), TotalTurnaround(ps, h), |ps|, BusyTime(h), currentTime, contextSwitches)
  }

  /** A quotient that falls back to 0 when its divisor is not positive. */
  function Ratio(num: int, den: int): (r: real)
    ensures den > 0 ==> r * den as real == num as real
    ensures den <= 0 ==> r == 0.0
  {
    if den > 0 then num as real / den as real else 0.0
  }

  function AverageWaitingTime(m: Metrics): real
  {
    Ratio(m.totalWaitingTime, m.totalProcesses)
  }

  function AverageTurnaroundTime(m: Metrics): real
  {
    Ratio(m.totalTurnaroundTime, m.totalProcesses)
  }

  /** `cpu_utilization`, as a percentage. */
  function CpuUtilization(m: Metrics): real
  {
    Ratio(m.cpuBusyTime, m.totalTime) * 100.0
  }

  /** A busy time within the elapsed time gives a utilisation between 0 and 100 percent. */
  lemma CpuUtilizationBounds(m: Metrics)
    requires 0 <= m.cpuBusyTime <= m.totalTime
    ensures 0.0 <= CpuUtilization(m) <= 100.0
  {
    if m.totalTime > 0 {
      var r := m.cpuBusyTime as real / m.totalTime as real;
      assert r * m.totalTime as real == m.cpuBusyTime as real;
      assert (1.0 - r) * m.totalTime as real == (m.totalTime - m.cpuBusyTime) as real;
    }
  }

  /** Summed waiting is summed turnaround less summed running time. */
  lemma {:induction false} TotalWaitingIsTurnaroundLessRunTime(ps: seq<Process>, h: seq<Execution>)
    ensures TotalWaiting(ps, h) == TotalTurnaround(ps, h) - TotalRunTime(ps, h)
  {
    if ps != [] {
      TotalWaitingIsTurnaroundLessRunTime(ps[..|ps| - 1], h);
    }
  }

  /** The shares one entry adds to the running times of all processes. */
  function SharesOf(ps: seq<Process>, e: Execution): int
  {
    if ps == [] then 0 else SharesOf(ps[..|ps| - 1], e) + RunShare(e, ps[|ps| - 1].processId)
  }

  lemma {:induction false} TotalRunTimeAppend(ps: seq<Process>, h: seq<Execution>, e: Execution)
    ensures TotalRunTime(ps, h + [e]) == TotalRunTime(ps, h) + SharesOf(ps, e)
  {
    if ps != [] {
      TotalRunTimeAppend(ps[..|ps| - 1], h, e);
      RunTimeAppend(h, e, ps[|ps| - 1].processId);
    }
  }

  /** With unique ids, an entry adds its duration to exactly the one process it names. */
  lemma {:induction false} SharesOfDistinct(ps: seq<Process>, e: Execution)
    requires DistinctIds(ps)
    ensures SharesOf(ps, e) == if e.processId in Ids(ps) then RunShare(e, e.processId) else 0
  {
    if ps != [] {
      var init := ps[..|ps| - 1];
      assert DistinctIds(init);
      SharesOfDistinct(init, e);
      assert Ids(ps) == Ids(init) + [ps[|ps| - 1].processId];
      if ps[|ps| - 1].processId == e.processId {
        assert e.processId !in Ids(init) by {
          forall i | 0 <= i < |init|
            ensures Ids(init)[i] != e.processId
          {
            assert ps[i].processId != ps[|ps| - 1].processId;
          }
        }
      }
    }
  }

  /** Busy time is the sum, over the processes, of their running times. */
  lemma {:induction false} BusyTimeIsTotalRunTime(ps: seq<Process>, h: seq<Execution>)
    requires DistinctIds(ps)
    requires forall i :: 0 <= i < |h| ==> h[i].processId in Ids(ps)
    ensures BusyTime(h) == TotalRunTime(ps, h)
  {
    if h == [] {
      TotalRunTimeOfEmptyLedger(ps);
    } else {
      var init, e := h[..|h| - 1], h[|h| - 1];
      BusyTimeIsTotalRunTime(ps, init);
      assert h == init + [e];
      TotalRunTimeAppend(ps, init, e);
      SharesOfDistinct(ps, e);
      BusyTimeAppend(init, e);
    }
  }

  lemma {:induction false} TotalRunTimeOfEmptyLedger(ps: seq<Process>)
    ensures TotalRunTime(ps, []) == 0
  {
    if ps != [] {
      TotalRunTimeOfEmptyLedger(ps[..|ps| - 1]);
    }
  }
}
