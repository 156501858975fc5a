/**
 * The execution ledger (`ProcessExecution` records in `execution_history`) and
 * the folds the metrics take over it. Every fold is written over the ledger in
 * order, last entry last, as the source's loops visit it.
 */
module Ledger {
  import opened Wrappers
  import opened Processes

  /** The process ran during [startTime, endTime). */
  datatype Execution = Execution(processId: int, startTime: int, endTime: int, state: ProcessState)

  function Duration(e: Execution): int
  {
    e.endTime - e.startTime
  }

  /** Duration an entry contributes to a process's running time. */
  function RunShare(e: Execution, id: int): int
  {
    if e.processId == id && e.state == Running then Duration(e) else 0
  }

  /** `total_run_time`: the durations of the process's RUNNING entries, summed. */
  function RunTime(h: seq<Execution>, id: int): int
  {
    if h == [] then 0 else RunTime(h[..|h| - 1], id) + RunShare(h[|h| - 1], id)
  }

  /** Number of entries of one process. */
  function EntryCount(h: seq<Execution>, id: int): nat
  {
    if h == [] then 0 else EntryCount(h[..|h| - 1], id) + (if h[|h| - 1].processId == id then 1 else 0)
  }

  /** `last_end`: the latest end among the process's entries, folded from 0. */
  function LastEnd(h: seq<Execution>, id: int): (r: int)
    ensures r >= 0
    ensures forall i :: 0 <= i < |h| && h[i].processId == id ==> h[i].endTime <= r
    ensures r == 0 || exists i :: 0 <= i < |h| && h[i].processId == id && h[i].endTime == r
  {
    if h == [] then 0
    else
      var m := LastEnd(h[..|h| - 1], id);
      var e := h[|h| - 1];
      if e.processId == id && e.endTime > m then e.endTime else m
  }

  /** `start_time`: the earliest start among the process's entries; None is the `inf` it starts from. */
  function FirstStart(h: seq<Execution>, id: int): (r: Option<int>)
    ensures r.None? <==> forall i :: 0 <= i < |h| ==> h[i].processId != id
    ensures r.Some? ==> forall i :: 0 <= i < |h| && h[i].processId == id ==> r.value <= h[i].startTime
    ensures r.Some? ==> exists i :: 0 <= i < |h| && h[i].processId == id && h[i].startTime == r.value
  {
    if h == [] then None
    else
      var m := FirstStart(h[..|h| - 1], id);
      var e := h[|h| - 1];
      if e.processId != id then m
      else if m.None? || e.startTime < m.value then Some(e.startTime)
      else m
  }

  /** `cpu_busy_time`: the durations of all RUNNING entries, summed. */
  function BusyTime(h: seq<Execution>): int
  {
    if h == [] then 0
    else BusyTime(h[..|h| - 1]) + (if h[|h| - 1].state == Running then Duration(h[|h| - 1]) else 0)
  }

  /** Number of positions where an entry's process differs from the one before it. */
  function Switches(h: seq<Execution>): nat
  {
    if |h| <= 1 then 0
    else Switches(h[..|h| - 1]) + (if h[|h| - 2].processId != h[|h| - 1].processId then 1 else 0)
  }

  /** Appending an entry changes a process's running time by that entry's share only. */
  lemma RunTimeAppend(h: seq<Execution>, e: Execution, id: int)
    ensures RunTime(h + [e], id) == RunTime(h, id) + RunShare(e, id)
  {
    assert (h + [e])[..|h|] == h;
  }

  lemma LastEndAppend(h: seq<Execution>, e: Execution, id: int)
    ensures LastEnd(h + [e], id) == if e.processId == id && e.endTime > LastEnd(h, id) then e.endTime else LastEnd(h, id)
  {
    assert (h + [e])[..|h|] == h;
  }

  lemma EntryCountAppend(h: seq<Execution>, e: Execution, id: int)
    ensures EntryCount(h + [e], id) == EntryCount(h, id) + (if e.processId == id then 1 else 0)
  {
    assert (h + [e])[..|h|] == h;
  }

  /** A context switch is counted exactly when the new entry's process differs from the last one's. */
  lemma SwitchesAppend(h: seq<Execution>, e: Execution)
    ensures Switches(h + [e]) == Switches(h) + (if h != [] && h[|h| - 1].processId != e.processId then 1 else 0)
  {
    assert (h + [e])[..|h|] == h;
  }

  lemma BusyTimeAppend(h: seq<Execution>, e: Execution)
    ensures BusyTime(h + [e]) == BusyTime(h) + (if e.state == Running then Duration(e) else 0)
  {
    assert (h + [e])[..|h|] == h;
  }

  /** When no entry lasts longer than one unit, the busy time is at most the number of entries. */
  lemma {:induction false} BusyTimeAtMostEntries(h: seq<Execution>)
    requires forall i :: 0 <= i < |h| ==> Duration(h[i]) <= 1
    ensures BusyTime(h) <= |h|
  {
    if h != [] {
      BusyTimeAtMostEntries(h[..|h| - 1]);
    }
  }

  /** A process without entries has run for no time. */
  lemma {:induction false} RunTimeWithoutEntries(h: seq<Execution>, id: int)
    requires forall i :: 0 <= i < |h| ==> h[i].processId != id
    ensures RunTime(h, id) == 0 && EntryCount(h, id) == 0
  {
    if h != [] {
      RunTimeWithoutEntries(h[..|h| - 1], id);
    }
  }

  /** When every entry of the process is a RUNNING entry of exactly one unit, its running time counts its entries. */
  lemma {:induction false} RunTimeCountsUnitEntries(h: seq<Execution>, id: int)
    requires forall i :: 0 <= i < |h| && h[i].processId == id ==> h[i].state == Running && Duration(h[i]) == 1
    ensures RunTime(h, id) == EntryCount(h, id)
  {
    if h != [] {
      RunTimeCountsUnitEntries(h[..|h| - 1], id);
    }
  }

  /**
   * Entries of one process at strictly increasing integer starts, each one unit long
   * and none before `from`, fit between `from` and the process's last end.
   */
  lemma {:induction false} EntriesFitBeforeLastEnd(h: seq<Execution>, id: int, from: int)
    requires 0 <= from
    requires forall i, j :: 0 <= i < j < |h| ==> h[i].startTime < h[j].startTime
    requires forall i :: 0 <= i < |h| && h[i].processId == id ==> from <= h[i].startTime && Duration(h[i]) == 1
    ensures EntryCount(h, id) <= LastEnd(h, id) - from || EntryCount(h, id) == 0
  {
    if h != [] {
      var init, e := h[..|h| - 1], h[|h| - 1];
      EntriesFitBeforeLastEnd(init, id, from);
      if e.processId == id {
        forall i | 0 <= i < |init| && init[i].processId == id
          ensures init[i].endTime <= e.startTime
        {
          assert init[i] == h[i];
        }
        if EntryCount(init, id) != 0 {
          var k :| 0 <= k < |init| && init[k].processId == id && init[k].endTime == LastEnd(init, id);
        }
      }
    }
  }
}
