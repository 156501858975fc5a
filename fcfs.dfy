/** First-come-first-served selection (src/schedulers/fcfs.py). */
module Fcfs {
  import opened Wrappers
  import opened Processes
  import opened ProcessLists

  /**
   * `FCFSScheduler.get_next_process`: the head of the queue, or in dependency
   * mode the first queued process whose dependencies have all completed.
   * It is a pure search: neither the queue nor any scheduler state changes.
   */
  function NextProcess(readyQueue: seq<Process>, completed: seq<int>, useIpc: bool): (r: Process?)
    ensures readyQueue == [] ==> r == null
    ensures !useIpc && readyQueue != [] ==> r == readyQueue[0]
    ensures r == null <==> forall j :: 0 <= j < |readyQueue| ==> !Eligible(readyQueue[j], completed, useIpc)
    ensures r != null ==> exists i :: 0 <= i < |readyQueue| && r == readyQueue[i]
                                      && Eligible(r, completed, useIpc)
                                      && forall j :: 0 <= j < i ==> !Eligible(readyQueue[j], completed, useIpc)
  {
    if readyQueue == [] then null
    else if useIpc then
      match FirstEligibleIndex(readyQueue, completed, true)
      case None => null
      case Some(i) => readyQueue[i]
    else readyQueue[0]
  }
}
