/**
 * The process record of the simulator (src/process.py): identity and scheduling
 * inputs, which never change during a run, and the runtime fields the engine
 * updates in place.
 */
module Processes {
  import opened Wrappers

  datatype QueueType = FCFS | SJF | RR

  /** The three queue levels, in declaration order A, B, C. */
  datatype QueueLevel = A | B | C

  datatype ProcessState = New | Ready | Running | Waiting | Terminated

  /** The enum value of a level; for each level its name and its value are the same string. */
  function LevelValue(level: QueueLevel): string
  {
    match level
    case A => "A"
    case B => "B"
    case C => "C"
  }

  /** `QueueLevel[name]`: lookup by member name; any other string is a KeyError (None). */
  function LevelByName(name: string): (r: Option<QueueLevel>)
    ensures r.Some? <==> name == "A" || name == "B" || name == "C"
    ensures r.Some? ==> LevelValue(r.value) == name
  {
    if name == "A" then Some(A)
    else if name == "B" then Some(B)
    else if name == "C" then Some(C)
    else None
  }

  /** The six identity fields of a process: what `copy`, `to_dict` and `from_dict` carry. */
  datatype ProcessSpec = ProcessSpec(
    processId: int, arrivalTime: int, burstTime: int, priority: int,
    queueLevel: QueueLevel, dependencies: seq<int>)

  /** The dictionary `to_dict` produces: the level is stored as its string value. */
  datatype ProcessDict = ProcessDict(
    processId: int, arrivalTime: int, burstTime: int, priority: int,
    queueLevel: string, dependencies: seq<int>)

  /** The pure part of `from_dict`: decode the level name, keep everything else. */
  function SpecFromDict(d: ProcessDict): (r: Option<ProcessSpec>)
    ensures r.Some? <==> LevelByName(d.queueLevel).Some?
    ensures r.Some? ==> LevelValue(r.value.queueLevel) == d.queueLevel
    ensures r.Some? ==> (r.value.processId == d.processId && r.value.arrivalTime == d.arrivalTime
                      && r.value.burstTime == d.burstTime && r.value.priority == d.priority
                      && r.value.dependencies == d.dependencies)
  {
    match LevelByName(d.queueLevel)
    case None => None
    case Some(level) =>
      Some(ProcessSpec(d.processId, d.arrivalTime, d.burstTime, d.priority, level, d.dependencies))
  }

  class Process {
    const processId: int
    const arrivalTime: int
    const burstTime: int
    const priority: int
    const queueLevel: QueueLevel
    const dependencies: seq<int>

    var remainingTime: int
    var startTime: int
    var completionTime: int
    var waitingTime: int
    var turnaroundTime: int
    var state: ProcessState
    var currentQuantum: int

    /** Runtime fields as a freshly created (or reset) process has them. */
    ghost predicate AtDefaults()
      reads this
    {
      && remainingTime == burstTime
      && startTime == 0 && completionTime == 0
      && waitingTime == 0 && turnaroundTime == 0
      && state == New && currentQuantum == 0
    }

    /** The dataclass constructor followed by `__post_init__`, which sets `remaining_time` to the burst. */
    constructor (processId: int, arrivalTime: int, burstTime: int, priority: int,
                 queueLevel: QueueLevel, dependencies: seq<int>)
      ensures Spec() == ProcessSpec(processId, arrivalTime, burstTime, priority, queueLevel, dependencies)
      ensures AtDefaults()
    {
      this.processId := processId;
      this.arrivalTime := arrivalTime;
      this.burstTime := burstTime;
      this.priority := priority;
      this.queueLevel := queueLevel;
      this.dependencies := dependencies;
      remainingTime, startTime, completionTime := 0, 0, 0;
      waitingTime, turnaroundTime := 0, 0;
      state, currentQuantum := New, 0;
      remainingTime := burstTime;
    }

    function Spec(): ProcessSpec
    {
      ProcessSpec(processId, arrivalTime, burstTime, priority, queueLevel, dependencies)
    }

    /** The `queue_type` property. */
    function QueueType(): QueueType
    {
      match queueLevel
      case A => FCFS
      case B => SJF
      case C => RR
    }

    predicate IsDependentOn(id: int)
    {
      id in dependencies
    }

    /** Every declared dependency is among the completed process ids. */
    predicate CanExecute(completed: seq<int>)
    {
      forall i :: 0 <= i < |dependencies| ==> dependencies[i] in completed
    }

    /** Restore every runtime field; the identity fields are constants and stay as they are. */
    method Reset()
      modifies this
      ensures AtDefaults()
    {
      remainingTime := burstTime;
      startTime := 0;
      completionTime := 0;
      waitingTime := 0;
      turnaroundTime := 0;
      state := New;
      currentQuantum := 0;
    }

    /** A new record with the same identity (dependencies are a value, so the copy shares nothing). */
    method Copy() returns (c: Process)
      ensures fresh(c)
      ensures c.Spec() == Spec() && c.AtDefaults()
    {
      c := new Process(processId, arrivalTime, burstTime, priority, queueLevel, dependencies);
    }

    function ToDict(): (d: ProcessDict)
      ensures SpecFromDict(d) == Some(Spec())
    {
      ProcessDict(processId, arrivalTime, burstTime, priority, LevelValue(queueLevel), dependencies)
    }

    /** `from_dict`: a new process from a dictionary, or a KeyError for an unknown level name. */
    static method FromDict(d: ProcessDict) returns (r: Result<Process, string>)
      ensures r.Failure? <==> SpecFromDict(d).None?
      ensures r.Success? ==> fresh(r.value) && Some(r.value.Spec()) == SpecFromDict(d) && r.value.AtDefaults()
    {
      match LevelByName(d.queueLevel)
      case None =>
        r := Failure("KeyError");
      case Some(level) =>
        var p := new Process(d.processId, d.arrivalTime, d.burstTime, d.priority, level, d.dependencies);
        r := Success(p);
    }
  }

  /** `Scheduler.can_execute`: without dependency mode every process is eligible. */
  predicate Eligible(p: Process, completed: seq<int>, useIpc: bool)
  {
    !useIpc || p.CanExecute(completed)
  }

  lemma QueueTypeIsBijective(p: Process, q: Process)
    ensures p.QueueType() == q.QueueType() <==> p.queueLevel == q.queueLevel
    ensures p.queueLevel == A ==> p.QueueType() == FCFS
    ensures p.queueLevel == B ==> p.QueueType() == SJF
    ensures p.queueLevel == C ==> p.QueueType() == RR
  {
  }

  lemma CanExecuteIffAllDependenciesCompleted(p: Process, completed: seq<int>)
    ensures p.CanExecute(completed) <==> forall id :: p.IsDependentOn(id) ==> id in completed
    ensures p.dependencies == [] ==> p.CanExecute(completed)
  {
    if forall id :: p.IsDependentOn(id) ==> id in completed {
      forall i | 0 <= i < |p.dependencies|
        ensures p.dependencies[i] in completed
      {
        assert p.IsDependentOn(p.dependencies[i]);
      }
    }
  }

  /** Completing more processes never blocks a process that could already run. */
  lemma CanExecuteMonotone(p: Process, completed: seq<int>, more: seq<int>)
    requires forall id :: id in completed ==> id in more
    requires p.CanExecute(completed)
    ensures p.CanExecute(more)
  {
    forall i | 0 <= i < |p.dependencies|
      ensures p.dependencies[i] in more
    {
      var id := p.dependencies[i];
      assert id in completed;
      assert id in more;
    }
  }
}
