/**
 * The simulation engine of src/schedulers/base.py: the `Scheduler` base class
 * with its discrete-time loop, bound to one of the six selection policies,
 * and the metrics computed afterwards from the ledger.
 */
module Engine {
  import opened Wrappers
  import opened Processes
  import opened ProcessLists
  import opened Ledger
  import opened Metrics
  import opened Accounting
  import Fcfs
  import Sjf
  import RoundRobin
  import Priority
  import Mlq
  import Ipc

  /** The subclass a scheduler is, with the state that subclass keeps. */
  datatype Policy =
    | FirstComeFirstServed
    | ShortestJobFirst(sjf: Sjf.SjfScheduler)
    | RoundRobinPolicy(rr: RoundRobin.RoundRobinScheduler)
    | PriorityPolicy(priority: Priority.PriorityScheduler)
    | MultiLevelQueue(mlq: Mlq.MlqScheduler)
    | InterProcess(ipc: Ipc.IpcScheduler)
  {
    function Objects(): set<object>
    {
      match this
      case FirstComeFirstServed => {}
      case ShortestJobFirst(s) => {s}
      case RoundRobinPolicy(s) => {s}
      case PriorityPolicy(s) => {s}
      case MultiLevelQueue(s) => {s}
      case InterProcess(s) => {s}
    }

    /** The policies that, without dependency checks, never leave a non-empty ready queue unserved. */
    predicate WorkConserving()
    {
      FirstComeFirstServed? || ShortestJobFirst? || RoundRobinPolicy? || PriorityPolicy?
    }
  }

  /** One ledger entry folded into its process's record: `max` into the last end, `min` into the first start, and its duration into the running time when RUNNING. */
  function Absorb(s: ProcessStats, e: Execution): ProcessStats
  {
    var lastEnd := if s.lastEnd >= e.endTime then s.lastEnd else e.endTime;
    var start := if s.startTime.None? || e.startTime < s.startTime.value then Some(e.startTime) else s.startTime;
    var run := if e.state == Running then s.totalRunTime + Duration(e) else s.totalRunTime;
    ProcessStats(s.arrivalTime, s.burstTime, lastEnd, run, start)
  }

  lemma StatsOfSnoc(p: Process, h: seq<Execution>, e: Execution)
    ensures StatsOf(p, h + [e]) == if e.processId == p.processId then Absorb(StatsOf(p, h), e) else StatsOf(p, h)
  {
    assert (h + [e])[..|h|] == h;
  }

  /** The first loop of `calculate_detailed_metrics`: a record per process with nothing folded in yet. */
  method InitialStats(ps: seq<Process>) returns (stats: map<int, ProcessStats>)
    requires DistinctIds(ps)
    ensures forall i :: 0 <= i < |ps| ==> ps[i].processId in stats && stats[ps[i].processId] == StatsOf(ps[i], [])
  {
    stats := map[];
    var i := 0;
    while i < |ps|
      invariant 0 <= i <= |ps|
      invariant forall j :: 0 <= j < i ==> ps[j].processId in stats && stats[ps[j].processId] == StatsOf(ps[j], [])
    {
      var p := ps[i];
      stats := stats[p.processId := ProcessStats(p.arrivalTime, p.burstTime, 0, 0, None)];
      i := i + 1;
    }
  }

  /** Folds the ledger into `process_stats`, one record per process. */
  method CollectStats(ps: seq<Process>, h: seq<Execution>) returns (stats: map<int, ProcessStats>)
    requires DistinctIds(ps)
    requires forall k :: 0 <= k < |h| ==> h[k].processId in Ids(ps)
    ensures forall i :: 0 <= i < |ps| ==> ps[i].processId in stats && stats[ps[i].processId] == StatsOf(ps[i], h)
  {
    stats := InitialStats(ps);
    var k := 0;
    while k < |h|
      invariant 0 <= k <= |h|
      invariant forall j :: 0 <= j < |ps| ==> ps[j].processId in stats && stats[ps[j].processId] == StatsOf(ps[j], h[..k])
    {
      var e := h[k];
      assert h[..k + 1] == h[..k] + [e];
      ghost var j0 :| 0 <= j0 < |ps| && Ids(ps)[j0] == e.processId;
      stats := stats[e.processId := Absorb(stats[e.processId], e)];
      forall j | 0 <= j < |ps|
        ensures stats[ps[j].processId] == StatsOf(ps[j], h[..k + 1])
      {
        StatsOfSnoc(ps[j], h[..k], e);
      }
      k := k + 1;
    }
    assert h[..|h|] == h;
  }

  /** Sums the per-process turnaround and waiting times over the records. */
  method SumTimes(ps: seq<Process>, h: seq<Execution>, stats: map<int, ProcessStats>)
    returns (totalWaiting: int, totalTurnaround: int)
    requires forall i :: 0 <= i < |ps| ==> ps[i].processId in stats && stats[ps[i].processId] == StatsOf(ps[i], h)
    ensures totalWaiting == TotalWaiting(ps, h) && totalTurnaround == TotalTurnaround(ps, h)
  {
    totalWaiting, totalTurnaround := 0, 0;
    var i := 0;
    while i < |ps|
      invariant 0 <= i <= |ps|
      invariant totalWaiting == TotalWaiting(ps[..i], h) && totalTurnaround == TotalTurnaround(ps[..i], h)
    {
      var s := stats[ps[i].processId];
      var turnaround := s.lastEnd - s.arrivalTime;
      var waiting := turnaround - s.totalRunTime;
      totalWaiting := totalWaiting + waiting;
      totalTurnaround := totalTurnaround + turnaround;
      assert ps[..i + 1][..i] == ps[..i];
      i := i + 1;
    }
    assert ps[..|ps|] == ps;
  }

  /** `cpu_busy_time`: the durations of the RUNNING entries, summed. */
  method SumBusyTime(h: seq<Execution>) returns (busy: int)
    ensures busy == BusyTime(h)
  {
    busy := 0;
    var k := 0;
    while k < |h|
      invariant 0 <= k <= |h|
      invariant busy == BusyTime(h[..k])
    {
      if h[k].state == Running {
        busy := busy + (h[k].endTime - h[k].startTime);
      }
      assert h[..k + 1][..k] == h[..k];
      k := k + 1;
    }
    assert h[..|h|] == h;
  }

  /** A remembered process id may run: every process of ps with that id is eligible given the completed ids. */
  ghost predicate RunnableId(id: Option<int>, ps: seq<Process>, completed: seq<int>, useIpc: bool)
  {
    id.Some? ==> forall i :: 0 <= i < |ps| && ps[i].processId == id.value ==> Eligible(ps[i], completed, useIpc)
  }

  /** Remembering an eligible process of ps, whose ids are unique, remembers a runnable id. */
  lemma RunnableChosen(p: Process, ps: seq<Process>, completed: seq<int>, useIpc: bool)
    requires DistinctIds(ps) && p in ps && Eligible(p, completed, useIpc)
    ensures RunnableId(Some(p.processId), ps, completed, useIpc)
  {
    forall i | 0 <= i < |ps| && ps[i].processId == p.processId
      ensures Eligible(ps[i], completed, useIpc)
    {
      SameIdSameProcess(ps, ps[i], p);
    }
  }

  /** A runnable id stays runnable as more processes complete. */
  lemma RunnableLater(id: Option<int>, ps: seq<Process>, completed: seq<int>, more: seq<int>, useIpc: bool)
    requires RunnableId(id, ps, completed, useIpc)
    requires forall x :: x in completed ==> x in more
    ensures RunnableId(id, ps, more, useIpc)
  {
    if id.Some? && useIpc {
      forall i | 0 <= i < |ps| && ps[i].processId == id.value
        ensures ps[i].CanExecute(more)
      {
        CanExecuteMonotone(ps[i], completed, more);
      }
    }
  }

  class Scheduler {
    const name: string
    const useIpc: bool
    const policy: Policy
    var currentTime: int
    var executionHistory: seq<Execution>
    var readyQueue: seq<Process>
    var completedProcesses: seq<int>
    var contextSwitches: int
    var allProcesses: seq<Process>

    /** The state `__init__` leaves: clock at 0, every list empty, no switches counted. */
    predicate Cleared()
      reads this
    {
      currentTime == 0 && executionHistory == [] && readyQueue == [] && completedProcesses == []
      && contextSwitches == 0 && allProcesses == []
    }

    /** The state a policy needs before a run: MLQ's level maps and IPC's graph well formed. */
    ghost predicate PolicyReady()
      reads policy.Objects()
    {
      match policy
      case MultiLevelQueue(mlq) => mlq.Valid()
      case InterProcess(ipc) => ipc.Valid()
      case _ => true
    }

    constructor FcfsScheduler(useIpc: bool)
      ensures name == "FCFS" && this.useIpc == useIpc && policy == FirstComeFirstServed
      ensures Cleared() && PolicyReady() && RemembersNothing()
    {
      name, this.useIpc, policy := "FCFS", useIpc, FirstComeFirstServed;
      currentTime, executionHistory, readyQueue, completedProcesses, contextSwitches, allProcesses := 0, [], [], [], 0, [];
    }

    constructor SjfScheduler(useIpc: bool)
      ensures name == "SJF" && this.useIpc == useIpc && policy.ShortestJobFirst?
      ensures fresh(policy.sjf) && policy.sjf.currentProcess == None
      ensures Cleared() && PolicyReady() && RemembersNothing()
    {
      var s := new Sjf.SjfScheduler();
      name, this.useIpc, policy := "SJF", useIpc, ShortestJobFirst(s);
      currentTime, executionHistory, readyQueue, completedProcesses, contextSwitches, allProcesses := 0, [], [], [], 0, [];
    }

    constructor RoundRobinScheduler(timeQuantum: int, useIpc: bool)
      ensures name == "Round Robin" && this.useIpc == useIpc && policy.RoundRobinPolicy?
      ensures fresh(policy.rr) && policy.rr.timeQuantum == timeQuantum
      ensures policy.rr.currentProcess == None && policy.rr.currentQuantum == 0
      ensures Cleared() && PolicyReady() && RemembersNothing()
    {
      var s := new RoundRobin.RoundRobinScheduler(timeQuantum);
      name, this.useIpc, policy := "Round Robin", useIpc, RoundRobinPolicy(s);
      currentTime, executionHistory, readyQueue, completedProcesses, contextSwitches, allProcesses := 0, [], [], [], 0, [];
    }

    constructor PriorityScheduler(useIpc: bool)
      ensures name == "Priority" && this.useIpc == useIpc && policy.PriorityPolicy?
      ensures fresh(policy.priority) && policy.priority.currentProcess == None
      ensures Cleared() && PolicyReady() && RemembersNothing()
    {
      var s := new Priority.PriorityScheduler();
      name, this.useIpc, policy := "Priority", useIpc, PriorityPolicy(s);
      currentTime, executionHistory, readyQueue, completedProcesses, contextSwitches, allProcesses := 0, [], [], [], 0, [];
    }

    constructor MlqScheduler(timeQuantum: int, useIpc: bool, queueAlgorithms: Option<map<string, string>>)
      ensures name == "Multi-Level Queue" && this.useIpc == useIpc && policy.MultiLevelQueue?
      ensures fresh(policy.mlq) && policy.mlq.timeQuantum == timeQuantum
      ensures policy.mlq.queueAlgorithms ==
                if queueAlgorithms.Some? && queueAlgorithms.value != map[] then queueAlgorithms.value
                else Mlq.DefaultAlgorithms()
      ensures policy.mlq.levelStates ==
                map[A := Mlq.LevelState(None, 0), B := Mlq.LevelState(None, 0), C := Mlq.LevelState(None, 0)]
      ensures policy.mlq.queues == map[A := [], B := [], C := []]
      ensures Cleared() && PolicyReady() && RemembersNothing()
    {
      var s := new Mlq.MlqScheduler(timeQuantum, queueAlgorithms);
      name, this.useIpc, policy := "Multi-Level Queue", useIpc, MultiLevelQueue(s);
      currentTime, executionHistory, readyQueue, completedProcesses, contextSwitches, allProcesses := 0, [], [], [], 0, [];
    }

    /** `IPCScheduler()` passes no `use_ipc`, so the base class's flag stays False. */
    constructor IpcScheduler()
      ensures name == "IPC" && !useIpc && policy.InterProcess?
      ensures fresh(policy.ipc) && policy.ipc.dependencyGraph == map[]
      ensures Cleared() && PolicyReady() && RemembersNothing()
    {
      var s := new Ipc.IpcScheduler();
      name, useIpc, policy := "IPC", false, InterProcess(s);
      currentTime, executionHistory, readyQueue, completedProcesses, contextSwitches, allProcesses := 0, [], [], [], 0, [];
    }

    /** The policy's state fits the processes ps of the current run. */
    ghost predicate PolicyOk(ps: seq<Process>)
      reads policy.Objects()
    {
      && PolicyReady()
      && (policy.InterProcess? ==>
            forall i :: 0 <= i < |ps| ==> ps[i].processId in policy.ipc.dependencyGraph)
    }

    /** Neither the engine nor any process of ps is one of the policy's objects. */
    ghost predicate Separate(ps: seq<Process>)
    {
      this !in policy.Objects() && forall i :: 0 <= i < |ps| ==> ps[i] !in policy.Objects()
    }

    /** The engine's state as a value. */
    ghost function Snap(): Snapshot
      reads this, allProcesses
    {
      Snapshot(allProcesses, Views(allProcesses), executionHistory, readyQueue, completedProcesses, contextSwitches)
    }

    /** The invariant at the top of each iteration of the main loop. */
    ghost predicate Inv()
      reads this, allProcesses, policy.Objects()
    {
      Consistent(Snap(), currentTime, currentTime) && PolicyOk(allProcesses)
    }

    /**
     * Every process id the policy remembers may run. Round robin continues a
     * remembered process, and the priority policy may keep one, without
     * asking whether it may run; each MLQ level state does the same. SJF asks
     * again, and FCFS and IPC remember nothing.
     */
    ghost predicate RemembersRunnable(ps: seq<Process>, completed: seq<int>)
      reads policy.Objects()
    {
      match policy
      case RoundRobinPolicy(s) => RunnableId(s.currentProcess, ps, completed, useIpc)
      case PriorityPolicy(s) => RunnableId(s.currentProcess, ps, completed, useIpc)
      case MultiLevelQueue(s) =>
        forall level: QueueLevel :: level in s.levelStates ==>
          RunnableId(s.levelStates[level].currentProcess, ps, completed, useIpc)
      case _ => true
    }

    /** The policy remembers no process id, as every constructor leaves it. */
    ghost predicate RemembersNothing()
      reads policy.Objects()
    {
      match policy
      case RoundRobinPolicy(s) => s.currentProcess == None
      case PriorityPolicy(s) => s.currentProcess == None
      case MultiLevelQueue(s) => forall level: QueueLevel :: level in s.levelStates ==> s.levelStates[level].currentProcess == None
      case _ => true
    }

    /** A policy that remembers nothing remembers only runnable ids, whatever has completed. */
    lemma NothingRemembered(ps: seq<Process>, completed: seq<int>)
      requires RemembersNothing()
      ensures RemembersRunnable(ps, completed)
    {
    }

    /** Whether selection honours dependencies: `use_ipc` is set, or the policy is IPC, which always does. */
    predicate DependencyMode()
    {
      useIpc || policy.InterProcess?
    }

    /** What the loop keeps in dependency mode: remembered ids may run, and every entry follows its dependencies' completion. */
    ghost predicate Ordered()
      reads this, allProcesses, policy.Objects()
    {
      RemembersRunnable(allProcesses, completedProcesses) && (DependencyMode() ==> DependenciesFirst(Snap()))
    }

    /** The remembered ids stay runnable as more processes complete. */
    lemma RemembersLater(ps: seq<Process>, completed: seq<int>, more: seq<int>)
      requires RemembersRunnable(ps, completed)
      requires forall x :: x in completed ==> x in more
      ensures RemembersRunnable(ps, more)
    {
      match policy
      case RoundRobinPolicy(s) => RunnableLater(s.currentProcess, ps, completed, more, useIpc);
      case PriorityPolicy(s) => RunnableLater(s.currentProcess, ps, completed, more, useIpc);
      case MultiLevelQueue(s) =>
        forall level: QueueLevel | level in s.levelStates
          ensures RunnableId(s.levelStates[level].currentProcess, ps, more, useIpc)
        {
          RunnableLater(s.levelStates[level].currentProcess, ps, completed, more, useIpc);
        }
      case _ =>
    }

    /** `add_to_history`. */
    method AddToHistory(p: Process, startTime: int, endTime: int, state: ProcessState)
      modifies this`executionHistory
      ensures executionHistory == old(executionHistory) + [Execution(p.processId, startTime, endTime, state)]
    {
      executionHistory := executionHistory + [Execution(p.processId, startTime, endTime, state)];
    }

    method Advance(p: Process, executionTime: int)
      requires executionTime == Slice(p.remainingTime)
      modifies p`state, p`remainingTime, p`completionTime, p`turnaroundTime, p`waitingTime
      ensures View(p) == Ran(old(View(p)), currentTime)
    {
      p.state := Running;
      p.remainingTime := p.remainingTime - executionTime;
      if p.remainingTime == 0 {
        p.state := Terminated;
        UpdateProcessMetrics(p);
      }
    }

    /** `update_process_metrics`: stamps the current clock, before it advances, as the completion time. */
    method UpdateProcessMetrics(p: Process)
      modifies p`completionTime, p`turnaroundTime, p`waitingTime
      ensures p.completionTime == currentTime
      ensures p.turnaroundTime == p.completionTime - p.arrivalTime
      ensures p.waitingTime == p.turnaroundTime - p.burstTime
    {
      p.completionTime := currentTime;
      p.turnaroundTime := p.completionTime - p.arrivalTime;
      p.waitingTime := p.turnaroundTime - p.burstTime;
    }

    /** Admission: every NEW process arriving now becomes READY and joins the tail of the ready queue, in list order. */
    method Admit()
      requires DistinctIds(allProcesses) && Separate(allProcesses)
      modifies this`readyQueue, allProcesses`state
      ensures unchanged(policy.Objects())
      ensures Snap() == AdmitStep(old(Snap()), currentTime)
    {
      ghost var s0 := Snap();
      var q := AdmitArrivals(allProcesses, readyQueue, currentTime);
      readyQueue := q;
      assert Snap() == s0.(views := AdmittedViews(s0.views, currentTime), readyQueue := q);
    }

    /** The admission loop over the process list. */
    static method AdmitArrivals(ps: seq<Process>, q: seq<Process>, t: int) returns (q': seq<Process>)
      requires DistinctIds(ps)
      modifies ps`state
      ensures q' == Admission(q, ps, old(Views(ps)), t, |ps|)
      ensures Views(ps) == AdmittedViews(old(Views(ps)), t)
    {
      ghost var vs := Views(ps);
      var n := |ps|;
      var i := 0;
      q' := q;
      while i < n
        invariant 0 <= i <= n
        invariant q' == Admission(q, ps, vs, t, i)
        invariant forall j :: 0 <= j < n ==> View(ps[j]) == if j < i then Admitted(vs[j], t) else vs[j]
      {
        var p := ps[i];
        assert forall j :: 0 <= j < n && j != i ==> ps[j].processId != p.processId;
        if p.arrivalTime == t && p.state == New {
          p.state := Ready;
          q' := q' + [p];
        }
        i := i + 1;
      }
      assert Views(ps) == AdmittedViews(vs, t) by {
        forall j | 0 <= j < n
          ensures Views(ps)[j] == AdmittedViews(vs, t)[j]
        {
        }
      }
    }

    /**
     * `get_next_process` of the bound policy; round robin's reordering of the
     * ready queue is kept. `raised` reports the KeyError of an MLQ policy
     * whose map has no entry for a level it reaches.
     */
    method SelectNext() returns (r: Process?, raised: bool)
      requires PolicyOk(allProcesses) && Separate(allProcesses) && DistinctIds(allProcesses)
      requires forall i :: 0 <= i < |readyQueue| ==> readyQueue[i] in allProcesses
      modifies this`readyQueue, policy.Objects()
      ensures PolicyOk(allProcesses)
      ensures Snap() == old(Snap()).(readyQueue := readyQueue)
      ensures r != null ==> r in readyQueue && r in allProcesses
      ensures multiset(readyQueue) == multiset(old(readyQueue))
      ensures policy.WorkConserving() && !useIpc && old(readyQueue) != [] ==> r != null
      ensures old(RemembersRunnable(allProcesses, completedProcesses)) ==> RemembersRunnable(allProcesses, completedProcesses)
      ensures old(RemembersRunnable(allProcesses, completedProcesses)) && r != null ==> Eligible(r, completedProcesses, useIpc)
      ensures policy.InterProcess? && r != null ==> r.CanExecute(completedProcesses)
      ensures raised ==> r == null && readyQueue == old(readyQueue)
      ensures raised ==> policy.MultiLevelQueue? && !policy.mlq.NamesEveryLevel()
    {
      var q;
      r, q, raised := Dispatch(readyQueue, completedProcesses, allProcesses);
      readyQueue := q;
    }

    /**
     * The policy's `get_next_process` on the ready queue rq, whose processes
     * belong to ps; the round-robin policy also hands back the queue it rotated.
     */
    method Dispatch(rq: seq<Process>, completed: seq<int>, ghost ps: seq<Process>)
      returns (r: Process?, q: seq<Process>, raised: bool)
      requires PolicyOk(ps) && DistinctIds(ps)
      requires forall i :: 0 <= i < |rq| ==> rq[i] in ps
      modifies policy.Objects()
      ensures PolicyOk(ps)
      ensures multiset(q) == multiset(rq)
      ensures r != null ==> r in q && r in ps
      ensures !policy.RoundRobinPolicy? ==> q == rq
      ensures policy.FirstComeFirstServed? ==> r == Fcfs.NextProcess(rq, completed, useIpc)
      ensures policy.WorkConserving() && !useIpc && rq != [] ==> r != null
      ensures old(RemembersRunnable(ps, completed)) ==> RemembersRunnable(ps, completed)
      ensures old(RemembersRunnable(ps, completed)) && r != null ==> Eligible(r, completed, useIpc)
      ensures policy.InterProcess? && r != null ==> r.CanExecute(completed)
      ensures raised ==> r == null
      ensures !policy.MultiLevelQueue? ==> !raised
      ensures policy.MultiLevelQueue? ==> (raised <==> policy.mlq.Raised(old(policy.mlq.levelStates), rq, completed, useIpc))
      ensures raised ==> policy.MultiLevelQueue? && !policy.mlq.NamesEveryLevel()
    {
      q, raised := rq, false;
      match policy
      case FirstComeFirstServed =>
        r := Fcfs.NextProcess(rq, completed, useIpc);
      case ShortestJobFirst(s) =>
        r := s.GetNextProcess(rq, completed, useIpc);
      case RoundRobinPolicy(s) =>
        ghost var before, continues := s.currentProcess, s.Continues(rq);
        r, q := s.GetNextProcess(rq, completed, useIpc);
        if r != null {
          assert r in multiset(q);
          if RunnableId(before, ps, completed, useIpc) {
            if rq != [] && continues {
              ghost var i :| 0 <= i < |ps| && ps[i] == r;
            } else {
              RunnableChosen(r, ps, completed, useIpc);
            }
          }
        }
      case PriorityPolicy(s) =>
        ghost var before := s.currentProcess;
        r := s.GetNextProcess(rq, completed, useIpc);
        if r != null && RunnableId(before, ps, completed, useIpc) {
          ghost var i :| 0 <= i < |ps| && ps[i] == r;
          RunnableChosen(r, ps, completed, useIpc);
        }
      case MultiLevelQueue(s) =>
        r, raised := DispatchMlq(s, rq, completed, ps);
      case InterProcess(s) =>
        ghost var chains, paths;
        r, chains, paths := s.GetNextProcess(rq, completed);
    }

    /** The MLQ case of `Dispatch`: the level scan, which may raise KeyError, keeping the remembered ids runnable. */
    method DispatchMlq(s: Mlq.MlqScheduler, rq: seq<Process>, completed: seq<int>, ghost ps: seq<Process>)
      returns (r: Process?, raised: bool)
      requires policy == MultiLevelQueue(s) && s.Valid() && DistinctIds(ps)
      requires forall i :: 0 <= i < |rq| ==> rq[i] in ps
      modifies s
      ensures s.Valid()
      ensures r != null ==> r in rq && r in ps
      ensures raised ==> r == null
      ensures raised <==> s.Raised(old(s.levelStates), rq, completed, useIpc)
      ensures raised ==> !s.NamesEveryLevel()
      ensures old(RemembersRunnable(ps, completed)) ==> RemembersRunnable(ps, completed)
      ensures old(RemembersRunnable(ps, completed)) && r != null ==> Eligible(r, completed, useIpc)
    {
      ghost var before := s.levelStates;
      r, raised := s.GetNextProcess(rq, completed, useIpc);
      if s.NamesEveryLevel() {
        s.CompleteMapNeverRaises(before, rq, completed, useIpc);
      }
      if old(RemembersRunnable(ps, completed)) {
        if r != null {
          ghost var i :| 0 <= i < |ps| && ps[i] == r;
          assert RunnableId(before[r.queueLevel].currentProcess, ps, completed, useIpc);
          RunnableChosen(r, ps, completed, useIpc);
        }
        forall level: QueueLevel | level in s.levelStates
          ensures RunnableId(s.levelStates[level].currentProcess, ps, completed, useIpc)
        {
          assert level in before;
        }
      }
    }

    /**
     * One unit of the selected process, the one at position ip of the run's
     * list: a context switch when the previous entry was another process's,
     * `min(1, remaining_time)` taken off, the entry logged, and on reaching
     * zero the process TERMINATED, recorded as completed, removed from the
     * ready queue and stamped.
     */
    method Execute(p: Process, ghost ip: nat)
      requires DistinctIds(allProcesses)
      requires ip < |allProcesses| && allProcesses[ip] == p
      requires p in readyQueue && Separate(allProcesses)
      modifies this`executionHistory, this`contextSwitches, this`completedProcesses, this`readyQueue
      modifies p`state, p`remainingTime, p`completionTime, p`turnaroundTime, p`waitingTime
      ensures unchanged(policy.Objects())
      ensures Snap() == RunStep(old(Snap()), ip, currentTime)
    {
      if executionHistory != [] && executionHistory[|executionHistory| - 1].processId != p.processId {
        contextSwitches := contextSwitches + 1;
      }
      var executionTime := if p.remainingTime < 1 then p.remainingTime else 1;
      AddToHistory(p, currentTime, currentTime + executionTime, Running);
      Advance(p, executionTime);
      if p.remainingTime == 0 {
        completedProcesses := completedProcesses + [p.processId];
        var k := IndexOfId(readyQueue, p.processId);
        readyQueue := RemoveAt(readyQueue, k.value);
      }
      forall j | 0 <= j < |allProcesses| && j != ip
        ensures unchanged(allProcesses[j])
      {
        assert allProcesses[j].processId != allProcesses[ip].processId;
      }
      assert unchanged(policy.Objects());
      RunAssembled(ip);
    }

    /** The field-by-field effect of `Execute` on the process at ip, assembled into one `RunStep`. */
    twostate lemma RunAssembled(ip: nat)
      requires allProcesses == old(allProcesses) && ip < |allProcesses|
      requires forall j :: 0 <= j < |allProcesses| && j != ip ==> unchanged(allProcesses[j])
      requires View(allProcesses[ip]) == Ran(old(View(allProcesses[ip])), currentTime)
      requires executionHistory == old(executionHistory) + [EntryOf(old(View(allProcesses[ip])), currentTime)]
      requires contextSwitches == old(contextSwitches) + SwitchCost(old(executionHistory), allProcesses[ip].processId)
      requires completedProcesses ==
                 if allProcesses[ip].remainingTime == 0 then old(completedProcesses) + [allProcesses[ip].processId]
                 else old(completedProcesses)
      requires readyQueue ==
                 if allProcesses[ip].remainingTime == 0 && IndexOfId(old(readyQueue), allProcesses[ip].processId).Some?
                 then RemoveAt(old(readyQueue), IndexOfId(old(readyQueue), allProcesses[ip].processId).value)
                 else old(readyQueue)
      ensures Snap() == RunStep(old(Snap()), ip, currentTime)
    {
      assert Views(allProcesses) == old(Views(allProcesses))[ip := View(allProcesses[ip])];
    }

    /**
     * One iteration of the main loop, clock advance included: the snapshot
     * moves by one `TickStep`, where q is the ready queue the policy left and
     * `run` the position in the run's list of the process it chose.
     */
    method Tick() returns (ghost s2: Snapshot, ghost run: Option<nat>, raised: bool)
      requires DistinctIds(allProcesses) && PolicyOk(allProcesses) && Separate(allProcesses)
      requires forall i :: 0 <= i < |readyQueue| ==> readyQueue[i] in allProcesses
      modifies this`readyQueue, this`executionHistory, this`contextSwitches, this`completedProcesses, this`currentTime
      modifies allProcesses`state, allProcesses`remainingTime, allProcesses`completionTime,
               allProcesses`turnaroundTime, allProcesses`waitingTime
      modifies policy.Objects()
      ensures PolicyOk(allProcesses)
      ensures currentTime == old(currentTime) + if raised then 0 else 1
      ensures s2 == AdmitStep(old(Snap()), old(currentTime)).(readyQueue := s2.readyQueue)
      ensures raised ==> run.None? && s2 == AdmitStep(old(Snap()), old(currentTime))
      ensures raised ==> policy.MultiLevelQueue? && !policy.mlq.NamesEveryLevel()
      ensures multiset(s2.readyQueue) == multiset(AdmitStep(old(Snap()), old(currentTime)).readyQueue)
      ensures run.Some? ==> run.value < |s2.processes| && s2.processes[run.value] in s2.readyQueue
      ensures Snap() == if run.Some? then RunStep(s2, run.value, old(currentTime)) else s2
      ensures old(RemembersRunnable(allProcesses, completedProcesses)) ==> RemembersRunnable(allProcesses, completedProcesses)
      ensures old(RemembersRunnable(allProcesses, completedProcesses)) && DependencyMode() && run.Some? ==>
                s2.processes[run.value].CanExecute(s2.completed)
    {
      ghost var s0 := Snap();
      Admit();
      assert forall i :: 0 <= i < |readyQueue| ==> readyQueue[i] in allProcesses by {
        AdmissionListed(s0.readyQueue, s0.processes, s0.views, currentTime, |s0.processes|);
      }
      s2, run, raised := Serve();
      if !raised {
        AdvanceClock();
      }
    }

    /** The selection and execution steps of a tick, after admission; a raised KeyError runs nothing. */
    method Serve() returns (ghost s2: Snapshot, ghost run: Option<nat>, raised: bool)
      requires DistinctIds(allProcesses) && PolicyOk(allProcesses) && Separate(allProcesses)
      requires forall i :: 0 <= i < |readyQueue| ==> readyQueue[i] in allProcesses
      modifies this`readyQueue, this`executionHistory, this`contextSwitches, this`completedProcesses
      modifies allProcesses`state, allProcesses`remainingTime, allProcesses`completionTime,
               allProcesses`turnaroundTime, allProcesses`waitingTime
      modifies policy.Objects()
      ensures PolicyOk(allProcesses)
      ensures s2 == old(Snap()).(readyQueue := s2.readyQueue)
      ensures multiset(s2.readyQueue) == multiset(old(readyQueue))
      ensures raised ==> run.None? && s2 == old(Snap())
      ensures raised ==> policy.MultiLevelQueue? && !policy.mlq.NamesEveryLevel()
      ensures run.Some? ==> run.value < |s2.processes| && s2.processes[run.value] in s2.readyQueue
      ensures Snap() == if run.Some? then RunStep(s2, run.value, currentTime) else s2
      ensures old(RemembersRunnable(allProcesses, completedProcesses)) ==> RemembersRunnable(allProcesses, completedProcesses)
      ensures old(RemembersRunnable(allProcesses, completedProcesses)) && DependencyMode() && run.Some? ==>
                s2.processes[run.value].CanExecute(s2.completed)
    {
      var p;
      p, raised := SelectNext();
      s2 := Snap();
      run := None;
      if p != null {
        ghost var ip := IndexOfId(allProcesses, p.processId).value;
        SameIdSameProcess(allProcesses, p, allProcesses[ip]);
        Execute(p, ip);
        run := Some(ip);
      }
      if RemembersRunnable(allProcesses, s2.completed) {
        RemembersLater(allProcesses, s2.completed, completedProcesses);
      }
    }

    /** The clock advance at the end of each iteration; the snapshot does not include the clock. */
    method AdvanceClock()
      modifies this`currentTime
      ensures currentTime == old(currentTime) + 1
      ensures Snap() == old(Snap())
    {
      currentTime := currentTime + 1;
    }

    /**
     * `schedule`: forget the previous run (the policy's own state is kept),
     * reset every process, and tick until every process has completed. The
     * source loops without bound; here at most `fuel` ticks run, and
     * `finished` says whether the source's loop would have stopped. `raised`
     * says that the run ended in the KeyError of an MLQ policy whose map has
     * no entry for a level: it stops after that tick's admission.
     */
    method Schedule(processes: seq<Process>, fuel: nat) returns (history: seq<Execution>, finished: bool, raised: bool)
      requires DistinctIds(processes)
      requires forall i :: 0 <= i < |processes| ==> processes[i].burstTime >= 0
      requires PolicyReady()
      modifies this, processes, policy.Objects()
      ensures allProcesses == processes && history == executionHistory
      ensures !raised ==> Inv()
      ensures raised ==> currentTime < fuel
      ensures raised ==> policy.MultiLevelQueue? && !policy.mlq.NamesEveryLevel()
      ensures finished <==> |completedProcesses| >= |processes|
      ensures raised ==> !finished
      ensures !finished && !raised ==> currentTime == fuel
      ensures finished ==> forall i :: 0 <= i < |processes| ==>
                processes[i].state == Terminated && RunTime(history, processes[i].processId) == processes[i].burstTime
      ensures old(RemembersRunnable(processes, [])) && DependencyMode() ==> DependenciesFirst(Snap())
    {
      Prepare(processes);
      Begin(processes);
      assert DependenciesFirst(Snap());
      raised := RunTicks(fuel);
      history := executionHistory;
      finished := |completedProcesses| >= |processes|;
      if finished {
        FinishedRanBursts();
      }
    }

    /** The IPC policy builds its dependency graph over the processes before the run; the other policies need nothing. */
    method Prepare(processes: seq<Process>)
      requires PolicyReady()
      modifies policy.Objects()
      ensures PolicyOk(processes) && Separate(processes)
      ensures old(RemembersRunnable(processes, [])) ==> RemembersRunnable(processes, [])
    {
      if policy.InterProcess? {
        policy.ipc.BuildDependencyGraph(processes);
        assert forall i :: 0 <= i < |processes| ==> processes[i].processId in Ipc.PidSet(processes);
      }
    }

    /** Once every process has completed, each one is TERMINATED and the ledger gives it exactly its burst time. */
    lemma FinishedRanBursts()
      requires Inv() && |completedProcesses| >= |allProcesses|
      ensures forall i :: 0 <= i < |allProcesses| ==>
                allProcesses[i].state == Terminated && RunTime(executionHistory, allProcesses[i].processId) == allProcesses[i].burstTime
    {
      var s := Snap();
      AllTerminatedWhenCounted(s.views);
      forall i | 0 <= i < |allProcesses|
        ensures allProcesses[i].state == Terminated && RunTime(s.history, allProcesses[i].processId) == allProcesses[i].burstTime
      {
        assert s.views[i] == View(allProcesses[i]);
        TerminatedRanBurst(s.views[i], s.history, currentTime, currentTime, s.completed);
      }
    }

    /** The start of `schedule`: an empty ledger and ready queue at time 0, and every process reset. */
    method Begin(processes: seq<Process>)
      requires DistinctIds(processes) && Separate(processes) && PolicyOk(processes)
      requires forall i :: 0 <= i < |processes| ==> processes[i].burstTime >= 0
      modifies this, processes
      ensures Inv() && allProcesses == processes
      ensures currentTime == 0 && executionHistory == [] && readyQueue == [] && completedProcesses == [] && contextSwitches == 0
      ensures forall i :: 0 <= i < |processes| ==> processes[i].AtDefaults()
      ensures unchanged(policy.Objects())
    {
      currentTime, executionHistory, readyQueue, completedProcesses, contextSwitches := 0, [], [], [], 0;
      allProcesses := processes;
      ResetAll(processes);
      assert unchanged(policy.Objects());
      Started();
    }

    /** The fields `schedule` sets before its loop, with every process at its defaults, satisfy the loop invariant. */
    lemma Started()
      requires currentTime == 0 && executionHistory == [] && readyQueue == [] && completedProcesses == [] && contextSwitches == 0
      requires DistinctIds(allProcesses) && PolicyOk(allProcesses)
      requires forall i :: 0 <= i < |allProcesses| ==> allProcesses[i].burstTime >= 0 && allProcesses[i].AtDefaults()
      ensures Inv()
    {
      var ps := allProcesses;
      assert Snap() == Start(ps) by {
        forall i | 0 <= i < |ps|
          ensures Snap().views[i] == Start(ps).views[i]
        {
        }
      }
      StartConsistent(ps);
    }

    /** The main loop of `schedule`, cut off after `fuel` ticks or by a KeyError. */
    method RunTicks(fuel: nat) returns (raised: bool)
      requires Inv() && Separate(allProcesses) && 0 <= currentTime <= fuel
      modifies this`readyQueue, this`executionHistory, this`contextSwitches, this`completedProcesses, this`currentTime
      modifies allProcesses`state, allProcesses`remainingTime, allProcesses`completionTime,
               allProcesses`turnaroundTime, allProcesses`waitingTime
      modifies policy.Objects()
      ensures !raised ==> Inv()
      ensures !raised ==> |completedProcesses| >= |allProcesses| || currentTime == fuel
      ensures raised ==> |completedProcesses| < |allProcesses| && currentTime < fuel
      ensures raised ==> policy.MultiLevelQueue? && !policy.mlq.NamesEveryLevel()
      ensures old(Ordered()) ==> Ordered()
    {
      raised := false;
      while !raised && |completedProcesses| < |allProcesses| && currentTime < fuel
        invariant Separate(allProcesses) && 0 <= currentTime <= fuel
        invariant !raised ==> Inv()
        invariant raised ==> |completedProcesses| < |allProcesses| && currentTime < fuel
        invariant raised ==> policy.MultiLevelQueue? && !policy.mlq.NamesEveryLevel()
        invariant old(Ordered()) ==> Ordered()
        decreases fuel - currentTime, if raised then 0 else 1
      {
        ghost var s := Snap();
        ghost var t := currentTime;
        ghost var ordered := Ordered();
        TickReady();
        ghost var s2, run;
        s2, run, raised := Tick();
        if raised {
          if ordered && DependencyMode() {
            AdmitKeepsDependenciesFirst(s, t);
          }
        } else {
          TickKeepsInv(s, t, s2, run);
          if ordered && DependencyMode() {
            TickKeepsOrder(s, t, s2, run);
          }
        }
      }
    }

    /** The invariant gives what a tick needs. */
    lemma TickReady()
      requires Inv()
      ensures DistinctIds(allProcesses) && PolicyOk(allProcesses)
      ensures forall i :: 0 <= i < |readyQueue| ==> readyQueue[i] in allProcesses
      ensures Consistent(Snap(), currentTime, currentTime)
    {
      assert Queued(Snap());
    }

    /** A tick that moved the snapshot s of tick t as `Tick` promises restores the invariant at t + 1. */
    lemma TickKeepsInv(s: Snapshot, t: int, s2: Snapshot, run: Option<nat>)
      requires Consistent(s, t, t) && PolicyOk(allProcesses) && currentTime == t + 1
      requires s2 == AdmitStep(s, t).(readyQueue := s2.readyQueue)
      requires multiset(s2.readyQueue) == multiset(AdmitStep(s, t).readyQueue)
      requires run.Some? ==> run.value < |s2.processes| && s2.processes[run.value] in s2.readyQueue
      requires Snap() == if run.Some? then RunStep(s2, run.value, t) else s2
      ensures Inv()
    {
      assert Snap() == TickStep(s, t, s2.readyQueue, run);
      TickConsistent(s, t, s2.readyQueue, run);
    }

    /** A tick that runs only a process whose dependencies have completed keeps every entry after its dependencies' completion. */
    lemma TickKeepsOrder(s: Snapshot, t: int, s2: Snapshot, run: Option<nat>)
      requires Consistent(s, t, t) && DependenciesFirst(s)
      requires s2 == AdmitStep(s, t).(readyQueue := s2.readyQueue)
      requires multiset(s2.readyQueue) == multiset(AdmitStep(s, t).readyQueue)
      requires run.Some? ==> run.value < |s2.processes| && s2.processes[run.value] in s2.readyQueue
      requires run.Some? ==> s2.processes[run.value].CanExecute(s2.completed)
      requires Snap() == if run.Some? then RunStep(s2, run.value, t) else s2
      ensures DependenciesFirst(Snap())
    {
      ReorderedRunnable(s, t, s2.readyQueue);
      TickKeepsDependenciesFirst(s, t, s2.readyQueue, run);
      assert Snap() == TickStep(s, t, s2.readyQueue, run);
    }

    /** The reset loop of `schedule`. */
    static method ResetAll(ps: seq<Process>)
      requires DistinctIds(ps)
      modifies ps
      ensures forall i :: 0 <= i < |ps| ==> ps[i].AtDefaults()
    {
      var i := 0;
      while i < |ps|
        invariant 0 <= i <= |ps|
        invariant forall j :: 0 <= j < i ==> ps[j].AtDefaults()
      {
        ps[i].Reset();
        i := i + 1;
      }
    }

    /**
     * `calculate_detailed_metrics`, without its text report: the integer
     * quantities behind the returned dictionary (averages and utilisation
     * are `AverageWaitingTime`, `AverageTurnaroundTime` and `CpuUtilization`
     * of the result). Every logged process id must be a key of the stats.
     */
    method CalculateDetailedMetrics() returns (m: Metrics)
      requires DistinctIds(allProcesses)
      requires forall k :: 0 <= k < |executionHistory| ==> executionHistory[k].processId in Ids(allProcesses)
      ensures m == MetricsOf(allProcesses, executionHistory, currentTime, contextSwitches)
    {
      var stats := CollectStats(allProcesses, executionHistory);
      var totalWaiting, totalTurnaround := SumTimes(allProcesses, executionHistory, stats);
      var busy := SumBusyTime(executionHistory);
      m := Metrics(totalWaiting, totalTurnaround, |allProcesses|, busy, currentTime, contextSwitches);
    }
  }

  /** For a run whose burst times are not negative, the CPU utilisation reported lies between 0 and 100 percent. */
  lemma UtilizationWithinBounds(s: Scheduler)
    requires s.Inv()
    ensures 0.0 <= CpuUtilization(MetricsOf(s.allProcesses, s.executionHistory, s.currentTime, s.contextSwitches)) <= 100.0
  {
    BusyTimeWithinElapsed(s.executionHistory, s.currentTime, Ids(s.allProcesses));
    CpuUtilizationBounds(MetricsOf(s.allProcesses, s.executionHistory, s.currentTime, s.contextSwitches));
  }

  /**
   * After a finished run: the busy time is the sum of the burst times, the
   * total turnaround at least that, and the total waiting time not negative.
   */
  lemma FinishedRunMetrics(s: Scheduler)
    requires s.Inv()
    requires forall i :: 0 <= i < |s.allProcesses| ==> s.allProcesses[i].state == Terminated
    ensures var m := MetricsOf(s.allProcesses, s.executionHistory, s.currentTime, s.contextSwitches);
            && m.cpuBusyTime == TotalBurst(s.allProcesses)
            && m.totalTurnaroundTime >= TotalBurst(s.allProcesses)
            && m.totalWaitingTime >= 0
  {
    var ps := s.allProcesses;
    var h := s.executionHistory;
    assert forall i :: 0 <= i < |ps| ==> Views(ps)[i].state == Terminated;
    FinishedTotals(ps, Views(ps), h, Ids(ps), s.currentTime, s.currentTime, s.completedProcesses);
    BusyTimeIsTotalRunTime(ps, h);
  }
}
