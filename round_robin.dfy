/** Round-robin selection with a time quantum (src/schedulers/round_robin.py). */
module RoundRobin {
  import opened Wrappers
  import opened Processes
  import opened ProcessLists

  /**
   * The dependency-mode scan: while the head may not run, move it to the
   * tail, at most once round the list; the runnable process found stays at
   * the head.
   */
  method RunnableHead(moved: seq<Process>, completed: seq<int>) returns (r: Process?, queue: seq<Process>)
    ensures multiset(queue) == multiset(moved)
    ensures match FirstEligibleIndex(moved, completed, true)
            case Some(k) => r == moved[k] && queue == Rotate(moved, k)
            case None => r == null && queue == moved
  {
    queue := moved;
    var n := |queue|;
    var i := 0;
    while i < n
      invariant 0 <= i <= n == |moved|
      invariant queue == Rotate(moved, i)
      invariant forall j :: 0 <= j < i ==> !moved[j].CanExecute(completed)
    {
      RotateStep(moved, i);
      var process := queue[0];
      if process.CanExecute(completed) {
        RotateIsPermutation(moved, i);
        return process, queue;
      }
      queue := queue[1..] + [queue[0]];
      i := i + 1;
    }
    RotateEnds(moved);
    r := null;
  }

  class RoundRobinScheduler {
    const timeQuantum: int
    /** `current_process`, remembered by its id. */
    var currentProcess: Option<int>
    var currentQuantum: int

    constructor (timeQuantum: int)
      ensures this.timeQuantum == timeQuantum
      ensures currentProcess == None && currentQuantum == 0
    {
      this.timeQuantum := timeQuantum;
      currentProcess := None;
      currentQuantum := 0;
    }

    /** The remembered process is still queued and has quantum left, so it runs again. */
    predicate Continues(q: seq<Process>)
      reads this
    {
      currentProcess.Some? && IndexOfId(q, currentProcess.value).Some? && currentQuantum < timeQuantum
    }

    /**
     * `RoundRobinScheduler.get_next_process`. The list the source rotates in
     * place is returned as `queue`, a permutation of `readyQueue`.
     * A continuation increments the quantum counter, so one slice is the
     * selecting call plus `timeQuantum` continuations. Otherwise the remembered
     * process, if queued, goes to the tail; then the head is taken (quantum 0),
     * or in dependency mode each head that may not run is rotated to the tail
     * until a runnable head is found, at most once round the list.
     */
    method GetNextProcess(readyQueue: seq<Process>, completed: seq<int>, useIpc: bool)
      returns (r: Process?, queue: seq<Process>)
      modifies this
      ensures multiset(queue) == multiset(readyQueue)
      ensures r != null ==> r in readyQueue
      ensures readyQueue == [] ==>
                r == null && queue == [] && currentProcess == old(currentProcess) && currentQuantum == old(currentQuantum)
      ensures readyQueue != [] && old(Continues(readyQueue)) ==>
                && r == readyQueue[IndexOfId(readyQueue, old(currentProcess).value).value]
                && queue == readyQueue
                && currentProcess == old(currentProcess)
                && currentQuantum == old(currentQuantum) + 1
      ensures readyQueue != [] && !old(Continues(readyQueue)) ==>
                var moved := Requeued(old(currentProcess), readyQueue);
                match FirstEligibleIndex(moved, completed, useIpc)
                case Some(k) =>
                  && r == moved[k] && queue == Rotate(moved, k)
                  && currentProcess == Some(moved[k].processId) && currentQuantum == 0
                case None =>
                  && r == null && queue == moved
                  && currentProcess == old(currentProcess) && currentQuantum == old(currentQuantum)
    {
      queue := readyQueue;
      if queue == [] {
        return null, queue;
      }
      if Continues(queue) {
        currentQuantum := currentQuantum + 1;
        r := queue[IndexOfId(queue, currentProcess.value).value];
        return;
      }
      queue := Requeued(currentProcess, queue);
      ghost var moved := queue;
      if useIpc {
        r, queue := RunnableHead(queue, completed);
        if r != null {
          currentProcess := Some(r.processId);
          currentQuantum := 0;
        }
      } else {
        currentProcess := Some(queue[0].processId);
        currentQuantum := 0;
        RotateEnds(moved);
        return queue[0], queue;
      }
    }
  }
}
