/** Shortest-job-first selection that keeps running the job it chose (src/schedulers/sjf.py). */
module Sjf {
  import opened Wrappers
  import opened Processes
  import opened ProcessLists

  /**
   * `min(eligible, key=remaining_time)`: the first eligible process with the
   * least remaining time (Python's `min` keeps the first minimum it meets).
   */
  function ShortestIndex(q: seq<Process>, completed: seq<int>, useIpc: bool): (r: Option<nat>)
    reads q
    ensures r.None? <==> forall j :: 0 <= j < |q| ==> !Eligible(q[j], completed, useIpc)
    ensures r.Some? ==> r.value < |q| && Eligible(q[r.value], completed, useIpc)
    ensures r.Some? ==> forall j :: 0 <= j < |q| && Eligible(q[j], completed, useIpc) ==>
                          q[r.value].remainingTime <= q[j].remainingTime
    ensures r.Some? ==> forall j :: 0 <= j < r.value && Eligible(q[j], completed, useIpc) ==>
                          q[r.value].remainingTime < q[j].remainingTime
  {
    if q == [] then None
    else
      var m := ShortestIndex(q[..|q| - 1], completed, useIpc);
      var last := |q| - 1;
      if !Eligible(q[last], completed, useIpc) then m
      else if m.None? || q[last].remainingTime < q[m.value].remainingTime then Some(last)
      else m
  }

  /** The remembered process is still queued and may run, so it is continued. */
  predicate Continues(current: Option<int>, q: seq<Process>, completed: seq<int>, useIpc: bool)
  {
    current.Some? && IndexOfId(q, current.value).Some?
    && Eligible(q[IndexOfId(q, current.value).value], completed, useIpc)
  }

  /**
   * One call of `SJFScheduler.get_next_process`, given the remembered process id.
   * A queued, runnable remembered process is selected again however short the
   * others are; a queued one that may not run is forgotten; otherwise the
   * shortest eligible process is selected and remembered.
   */
  function Step(current: Option<int>, q: seq<Process>, completed: seq<int>, useIpc: bool): (s: Selection)
    reads q
    ensures q == [] ==> s == Selection(None, current)
    ensures s.selected.Some? ==> s.selected.value < |q| && Eligible(q[s.selected.value], completed, useIpc)
    ensures q != [] && Continues(current, q, completed, useIpc) ==>
              s == Selection(IndexOfId(q, current.value), current)
    ensures q != [] && !Continues(current, q, completed, useIpc) ==>
              && s.selected == ShortestIndex(q, completed, useIpc)
              && (s.selected.Some? ==> s.current == Some(q[s.selected.value].processId))
              && (s.selected.None? && current.Some? && IndexOfId(q, current.value).Some? ==> s.current == None)
              && (s.selected.None? && (current.None? || IndexOfId(q, current.value).None?) ==> s.current == current)
    ensures s.selected.None? <==> q == [] || forall j :: 0 <= j < |q| ==> !Eligible(q[j], completed, useIpc)
  {
    if q == [] then Selection(None, current)
    else
      var queued := current.Some? && IndexOfId(q, current.value).Some?;
      if queued && Eligible(q[IndexOfId(q, current.value).value], completed, useIpc) then
        Selection(IndexOfId(q, current.value), current)
      else
        var kept := if queued then None else current;
        match ShortestIndex(q, completed, useIpc)
        case None => Selection(None, kept)
        case Some(i) => Selection(Some(i), Some(q[i].processId))
  }

  class SjfScheduler {
    /** `current_process`, remembered by its id. */
    var currentProcess: Option<int>

    constructor ()
      ensures currentProcess == None
    {
      currentProcess := None;
    }

    method GetNextProcess(readyQueue: seq<Process>, completed: seq<int>, useIpc: bool) returns (r: Process?)
      modifies this
      ensures var s := Step(old(currentProcess), readyQueue, completed, useIpc);
              && currentProcess == s.current
              && r == (if s.selected.Some? then readyQueue[s.selected.value] else null)
      ensures r != null ==> r in readyQueue
    {
      var s := Step(currentProcess, readyQueue, completed, useIpc);
      currentProcess := s.current;
      r := if s.selected.Some? then readyQueue[s.selected.value] else null;
    }
  }
}
