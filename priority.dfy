/** Preemptive priority selection (src/schedulers/priority.py); a lower value is a higher priority. */
module Priority {
  import opened Wrappers
  import opened Processes
  import opened ProcessLists

  /** `min(eligible, key=priority)`: the first eligible process with the least priority value. */
  function HighestPriorityIndex(q: seq<Process>, completed: seq<int>, useIpc: bool): (r: Option<nat>)
    ensures r.None? <==> forall j :: 0 <= j < |q| ==> !Eligible(q[j], completed, useIpc)
    ensures r.Some? ==> r.value < |q| && Eligible(q[r.value], completed, useIpc)
    ensures r.Some? ==> forall j :: 0 <= j < |q| && Eligible(q[j], completed, useIpc) ==>
                          q[r.value].priority <= q[j].priority
    ensures r.Some? ==> forall j :: 0 <= j < r.value && Eligible(q[j], completed, useIpc) ==>
                          q[r.value].priority < q[j].priority
  {
    if q == [] then None
    else
      var m := HighestPriorityIndex(q[..|q| - 1], completed, useIpc);
      var last := |q| - 1;
      if !Eligible(q[last], completed, useIpc) then m
      else if m.None? || q[last].priority < q[m.value].priority then Some(last)
      else m
  }

  /** The remembered process is queued and strictly more urgent than the candidate at position c. */
  predicate Keeps(current: Option<int>, q: seq<Process>, c: nat)
    requires c < |q|
  {
    current.Some? && IndexOfId(q, current.value).Some?
    && q[IndexOfId(q, current.value).value].priority < q[c].priority
  }

  /**
   * One call of `PriorityScheduler.get_next_process`. The candidate is the most
   * urgent eligible process; the remembered process is kept instead only when
   * it is queued and strictly more urgent (an equal priority does not keep it).
   * Whatever is returned is at least as urgent as every eligible queued process,
   * and a kept process is never itself eligible, so without dependency mode the
   * candidate is always taken.
   */
  function Step(current: Option<int>, q: seq<Process>, completed: seq<int>, useIpc: bool): (s: Selection)
    ensures s.selected.None? <==> forall j :: 0 <= j < |q| ==> !Eligible(q[j], completed, useIpc)
    ensures s.selected.None? ==> s.current == current
    ensures s.selected.Some? ==>
              && s.selected.value < |q|
              && forall j :: 0 <= j < |q| && Eligible(q[j], completed, useIpc) ==>
                   q[s.selected.value].priority <= q[j].priority
    ensures s.selected.Some? && s.selected != HighestPriorityIndex(q, completed, useIpc) ==>
              && s.current == current && current.Some?
              && s.selected == IndexOfId(q, current.value)
              && Keeps(current, q, HighestPriorityIndex(q, completed, useIpc).value)
              && !Eligible(q[s.selected.value], completed, useIpc)
    ensures s.selected.Some? && s.selected == HighestPriorityIndex(q, completed, useIpc) ==>
              && !Keeps(current, q, s.selected.value)
              && s.current == Some(q[s.selected.value].processId)
  {
    match HighestPriorityIndex(q, completed, useIpc)
    case None => Selection(None, current)
    case Some(c) =>
      if Keeps(current, q, c) then Selection(IndexOfId(q, current.value), current)
      else Selection(Some(c), Some(q[c].processId))
  }

  class PriorityScheduler {
    /** `current_process`, remembered by its id. */
    var currentProcess: Option<int>

    constructor ()
      ensures currentProcess == None
    {
      currentProcess := None;
    }

    method GetNextProcess(readyQueue: seq<Process>, completed: seq<int>, useIpc: bool) returns (r: Process?)
      modifies this
      ensures var s := Step(old(currentProcess), readyQueue, completed, useIpc);
              && currentProcess == s.current
              && r == (if s.selected.Some? then readyQueue[s.selected.value] else null)
      ensures r != null ==> r in readyQueue
    {
      var s := Step(currentProcess, readyQueue, completed, useIpc);
      currentProcess := s.current;
      r := if s.selected.Some? then readyQueue[s.selected.value] else null;
    }
  }
}
