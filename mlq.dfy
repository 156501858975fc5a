/**
 * Multi-level queue selection (src/schedulers/mlq.py): the ready queue is split
 * by queue level, and levels A, B, C are tried in that order, each with its own
 * algorithm and its own remembered state.
 */
module Mlq {
  import opened Wrappers
  import opened Processes
  import opened ProcessLists
  import Fcfs
  import Sjf

  /** One value of `level_states`. */
  datatype LevelState = LevelState(currentProcess: Option<int>, currentQuantum: int)

  /**
   * Across one or more calls, every level remembers what it remembered
   * before, nothing, or the id `id` (the process just returned).
   */
  ghost predicate Remembered(before: map<QueueLevel, LevelState>, after: map<QueueLevel, LevelState>, id: Option<int>)
  {
    forall l: QueueLevel :: l in before ==>
      && l in after
      && (|| after[l].currentProcess == before[l].currentProcess
          || after[l].currentProcess == None
          || after[l].currentProcess == id)
  }

  /** A call that only keeps or forgets, followed by one that may also remember id, may remember id. */
  lemma RememberedThen(a: map<QueueLevel, LevelState>, b: map<QueueLevel, LevelState>,
                       c: map<QueueLevel, LevelState>, id: Option<int>)
    requires Remembered(a, b, None) && Remembered(b, c, id)
    ensures Remembered(a, c, id)
  {
    forall l: QueueLevel | l in a
      ensures l in c && (c[l].currentProcess == a[l].currentProcess || c[l].currentProcess == None || c[l].currentProcess == id)
    {
      assert l in b;
    }
  }

  /** Changing one level's state to one that keeps, forgets or remembers id changes nothing else. */
  lemma RememberedUpdate(before: map<QueueLevel, LevelState>, level: QueueLevel, st: LevelState, id: Option<int>)
    requires level in before
    requires st.currentProcess == before[level].currentProcess || st.currentProcess == None || st.currentProcess == id
    ensures Remembered(before, before[level := st], id)
  {
  }

  /** The level at position i of the scan order. */
  function LevelAt(i: nat): (level: QueueLevel)
    requires i < 3
    ensures Rank(level) == i
  {
    [A, B, C][i]
  }

  /** Position of a level in the scan order. */
  function Rank(level: QueueLevel): (r: nat)
    ensures r < 3
  {
    match level
    case A => 0
    case B => 1
    case C => 2
  }

  function DefaultAlgorithms(): map<string, string>
  {
    map["A" := "RR", "B" := "FCFS", "C" := "SJF"]
  }

  /** The processes of one level, in ready-queue order. */
  function LevelList(q: seq<Process>, level: QueueLevel): (r: seq<Process>)
    ensures |r| <= |q|
  {
    if q == [] then []
    else LevelList(q[..|q| - 1], level) + (if q[|q| - 1].queueLevel == level then [q[|q| - 1]] else [])
  }

  /** A level list holds exactly the queued processes of that level. */
  lemma {:induction false} LevelListMembers(q: seq<Process>, level: QueueLevel, p: Process)
    ensures p in LevelList(q, level) <==> p in q && p.queueLevel == level
  {
    if q != [] {
      var init, last := q[..|q| - 1], q[|q| - 1];
      LevelListMembers(init, level, p);
      assert q == init + [last];
    }
  }

  /** A level list draws only on the queue, so what it reads the queue reads. */
  lemma LevelListWithin(q: seq<Process>, level: QueueLevel)
    ensures forall p :: p in LevelList(q, level) ==> p in q
  {
    forall p | p in LevelList(q, level) ensures p in q {
      LevelListMembers(q, level, p);
    }
  }

  /** A level list holds each process of its level as often as the queue does, and no other process. */
  lemma {:induction false} LevelListCount(q: seq<Process>, level: QueueLevel, p: Process)
    ensures multiset(LevelList(q, level))[p] == if p.queueLevel == level then multiset(q)[p] else 0
  {
    if q != [] {
      var init, last := q[..|q| - 1], q[|q| - 1];
      LevelListCount(init, level, p);
      assert q == init + [last];
    }
  }

  /** The three level lists split the ready queue: every occurrence of a process lands in exactly one of them. */
  lemma LevelListsPartition(q: seq<Process>, p: Process)
    ensures multiset(q)[p] == multiset(LevelList(q, A))[p] + multiset(LevelList(q, B))[p] + multiset(LevelList(q, C))[p]
  {
    LevelListCount(q, A, p);
    LevelListCount(q, B, p);
    LevelListCount(q, C, p);
  }

  /** The round-robin branch continues the level's remembered process. */
  predicate RrContinues(st: LevelState, q: seq<Process>, timeQuantum: int)
  {
    st.currentProcess.Some? && IndexOfId(q, st.currentProcess.value).Some? && st.currentQuantum < timeQuantum
  }

  /** Some queued process is allowed to run. */
  predicate AnyEligible(q: seq<Process>, completed: seq<int>, useIpc: bool)
  {
    exists i :: 0 <= i < |q| && Eligible(q[i], completed, useIpc)
  }

  /** Reordering a list does not change whether some process in it may run. */
  lemma AnyEligiblePermutation(a: seq<Process>, b: seq<Process>, completed: seq<int>, useIpc: bool)
    requires multiset(a) == multiset(b)
    ensures AnyEligible(a, completed, useIpc) == AnyEligible(b, completed, useIpc)
  {
    if AnyEligible(a, completed, useIpc) {
      var i :| 0 <= i < |a| && Eligible(a[i], completed, useIpc);
      assert a[i] in multiset(b);
      var j :| 0 <= j < |b| && b[j] == a[i];
    }
    if AnyEligible(b, completed, useIpc) {
      var j :| 0 <= j < |b| && Eligible(b[j], completed, useIpc);
      assert b[j] in multiset(a);
      var i :| 0 <= i < |a| && a[i] == b[j];
    }
  }

  /**
   * When `get_next_process_by_algorithm` returns a process for a level whose
   * list is q and whose state is st: the list is non-empty, the algorithm is
   * one of the three it knows, and either the round-robin branch continues its
   * remembered process (without re-checking dependencies) or some process in
   * the list may run.
   */
  predicate Yields(st: LevelState, q: seq<Process>, algorithm: string, completed: seq<int>,
                   useIpc: bool, timeQuantum: int)
  {
    && q != []
    && (algorithm == "FCFS" || algorithm == "SJF" || algorithm == "RR")
    && ((algorithm == "RR" && RrContinues(st, q, timeQuantum)) || AnyEligible(q, completed, useIpc))
  }

  /** What one call of `get_next_process_by_algorithm` yields for a level: the process, the level's new state and its list afterwards. */
  datatype LevelOutcome = LevelOutcome(selected: Process?, state: LevelState, list: seq<Process>)

  /** The SJF branch on a non-empty level: `Sjf.Step` with the level's remembered process; the list is not reordered. */
  function SjfStep(st: LevelState, q: seq<Process>, completed: seq<int>, useIpc: bool): LevelOutcome
    reads q
  {
    var s := Sjf.Step(st.currentProcess, q, completed, useIpc);
    LevelOutcome(if s.selected.Some? then q[s.selected.value] else null, st.(currentProcess := s.current), q)
  }

  /**
   * The RR branch on a non-empty level: continue the remembered process while
   * the counter is below the quantum; otherwise move the remembered process to
   * the tail, then pop each head and append it before testing it.
   */
  function RrStep(st: LevelState, q: seq<Process>, completed: seq<int>, useIpc: bool, timeQuantum: int): LevelOutcome
  {
    if RrContinues(st, q, timeQuantum) then
      LevelOutcome(q[IndexOfId(q, st.currentProcess.value).value], st.(currentQuantum := st.currentQuantum + 1), q)
    else
      RrScan(st, q, completed, useIpc)
  }

  /** The RR branch once the remembered process does not continue: requeue it, then scan with rotation. */
  function RrScan(st: LevelState, q: seq<Process>, completed: seq<int>, useIpc: bool): LevelOutcome
  {
    var moved := Requeued(st.currentProcess, q);
    match FirstEligibleIndex(moved, completed, useIpc)
    case Some(k) => LevelOutcome(moved[k], LevelState(Some(moved[k].processId), 0), Rotate(moved, k + 1))
    case None => LevelOutcome(null, st, moved)
  }

  /**
   * One call of `get_next_process_by_algorithm` on a level whose list is q and
   * whose state is st: FCFS is the stand-alone first-come-first-served choice
   * and keeps the state; an empty list or an unknown algorithm yields nothing
   * and changes nothing.
   */
  function LevelStep(st: LevelState, q: seq<Process>, algorithm: string, completed: seq<int>,
                     useIpc: bool, timeQuantum: int): (o: LevelOutcome)
    reads q
    ensures q == [] || (algorithm != "FCFS" && algorithm != "SJF" && algorithm != "RR") ==> o == LevelOutcome(null, st, q)
    ensures algorithm == "FCFS" ==> o.state == st && o.list == q
  {
    if q == [] then LevelOutcome(null, st, q)
    else if algorithm == "FCFS" then LevelOutcome(Fcfs.NextProcess(q, completed, useIpc), st, q)
    else if algorithm == "SJF" then SjfStep(st, q, completed, useIpc)
    else if algorithm == "RR" then RrStep(st, q, completed, useIpc, timeQuantum)
    else LevelOutcome(null, st, q)
  }

  /** The SJF step yields exactly when some queued process may run, picks only such a process and remembers it. */
  lemma SjfStepFacts(st: LevelState, q: seq<Process>, completed: seq<int>, useIpc: bool)
    ensures var o := SjfStep(st, q, completed, useIpc);
            && (o.selected != null <==> AnyEligible(q, completed, useIpc))
            && (o.selected != null ==> o.selected in q && Eligible(o.selected, completed, useIpc))
            && (o.selected != null ==> o.state.currentProcess == Some(o.selected.processId))
            && o.list == q
  {
  }

  /**
   * The RR step yields when it continues its remembered process or some queued
   * process may run; a process it picks afresh may run; it remembers what it
   * returns, and only reorders the list.
   */
  lemma RrStepFacts(st: LevelState, q: seq<Process>, completed: seq<int>, useIpc: bool, timeQuantum: int)
    ensures var o := RrStep(st, q, completed, useIpc, timeQuantum);
            && (o.selected != null <==> RrContinues(st, q, timeQuantum) || AnyEligible(q, completed, useIpc))
            && (o.selected != null ==> o.selected in q && o.state.currentProcess == Some(o.selected.processId))
            && (o.selected != null && !RrContinues(st, q, timeQuantum) ==> Eligible(o.selected, completed, useIpc))
            && multiset(o.list) == multiset(q)
  {
    if !RrContinues(st, q, timeQuantum) {
      var moved := Requeued(st.currentProcess, q);
      AnyEligiblePermutation(moved, q, completed, useIpc);
      match FirstEligibleIndex(moved, completed, useIpc)
      case Some(k) =>
        RotateIsPermutation(moved, k + 1);
        assert moved[k] in multiset(q);
      case None =>
    }
  }

  /**
   * What a level step promises: it yields a process exactly when `Yields`
   * holds, the process comes from the level's list, the list is only
   * reordered, a process picked afresh may run, and SJF and RR remember the
   * process they return.
   */
  lemma LevelStepFacts(st: LevelState, q: seq<Process>, algorithm: string, completed: seq<int>,
                       useIpc: bool, timeQuantum: int)
    ensures var o := LevelStep(st, q, algorithm, completed, useIpc, timeQuantum);
            && (o.selected != null <==> Yields(st, q, algorithm, completed, useIpc, timeQuantum))
            && (o.selected != null ==> o.selected in q)
            && multiset(o.list) == multiset(q)
            && (o.selected != null && algorithm != "FCFS" ==> o.state.currentProcess == Some(o.selected.processId))
            && (o.selected != null && !(algorithm == "RR" && RrContinues(st, q, timeQuantum)) ==>
                  Eligible(o.selected, completed, useIpc))
            && (o.selected != null ==>
                  Eligible(o.selected, completed, useIpc) || Some(o.selected.processId) == st.currentProcess)
            && (|| o.state.currentProcess == st.currentProcess || o.state.currentProcess == None
                || (o.selected != null && o.state.currentProcess == Some(o.selected.processId)))
  {
    if q != [] {
      if algorithm == "SJF" {
        SjfStepFacts(st, q, completed, useIpc);
      } else if algorithm == "RR" {
        RrStepFacts(st, q, completed, useIpc, timeQuantum);
      }
    }
  }

  /**
   * The scan of the RR branch: pop the head, append it to the tail, and stop
   * at the first process allowed to run, at most once round the list.
   */
  method RotatingScan(moved: seq<Process>, completed: seq<int>, useIpc: bool) returns (r: Process?, queue: seq<Process>)
    ensures multiset(queue) == multiset(moved)
    ensures match FirstEligibleIndex(moved, completed, useIpc)
            case Some(k) => r == moved[k] && queue == Rotate(moved, k + 1)
            case None => r == null && queue == moved
  {
    queue := moved;
    var n := |queue|;
    var i := 0;
    while i < n
      invariant 0 <= i <= n == |moved|
      invariant queue == Rotate(moved, i)
      invariant forall j :: 0 <= j < i ==> !Eligible(moved[j], completed, useIpc)
    {
      RotateStep(moved, i);
      var process := queue[0];
      queue := queue[1..] + [queue[0]];
      if !useIpc || process.CanExecute(completed) {
        RotateIsPermutation(moved, i + 1);
        return process, queue;
      }
      i := i + 1;
    }
    RotateEnds(moved);
    r := null;
  }

  class MlqScheduler {
    const timeQuantum: int
    const queueAlgorithms: map<string, string>
    var levelStates: map<QueueLevel, LevelState>
    var queues: map<QueueLevel, seq<Process>>

    ghost predicate Valid()
      reads this
    {
      forall level: QueueLevel :: level in levelStates && level in queues
    }

    /** `queue_algorithms` has an entry for each level. */
    predicate NamesEveryLevel()
    {
      "A" in queueAlgorithms && "B" in queueAlgorithms && "C" in queueAlgorithms
    }

    /** `queue_algorithms` has an entry for this level. */
    predicate Names(level: QueueLevel)
    {
      LevelValue(level) in queueAlgorithms
    }

    /**
     * `queue_algorithms or {...}`: a missing or empty map gives the defaults
     * A→RR, B→FCFS, C→SJF; any other map is taken as it is, even one that
     * leaves a level out.
     */
    constructor (timeQuantum: int, queueAlgorithms: Option<map<string, string>>)
      ensures Valid()
      ensures this.timeQuantum == timeQuantum
      ensures this.queueAlgorithms ==
                if queueAlgorithms.Some? && queueAlgorithms.value != map[] then queueAlgorithms.value
                else DefaultAlgorithms()
      ensures levelStates == map[A := LevelState(None, 0), B := LevelState(None, 0), C := LevelState(None, 0)]
      ensures queues == map[A := [], B := [], C := []]
    {
      this.timeQuantum := timeQuantum;
      this.queueAlgorithms :=
        if queueAlgorithms.Some? && queueAlgorithms.value != map[] then queueAlgorithms.value
        else DefaultAlgorithms();
      levelStates := map[A := LevelState(None, 0), B := LevelState(None, 0), C := LevelState(None, 0)];
      queues := map[A := [], B := [], C := []];
      new;
      forall level: QueueLevel ensures level in levelStates && level in queues {
        match level
        case A =>
        case B =>
        case C =>
      }
    }

    function Algorithm(level: QueueLevel): string
      requires Names(level)
    {
      queueAlgorithms[LevelValue(level)]
    }

    /** Whether a level of ready queue q yields a process, given the level states: it has an algorithm, and that algorithm yields. */
    ghost predicate LevelYields(states: map<QueueLevel, LevelState>, q: seq<Process>, level: QueueLevel,
                                completed: seq<int>, useIpc: bool)
      requires level in states
    {
      Names(level) && Yields(states[level], LevelList(q, level), Algorithm(level), completed, useIpc, timeQuantum)
    }

    /** Looking up the algorithm of a level of ready queue q raises KeyError: the level's list is not empty and the map has no entry for it. */
    ghost predicate LevelRaises(q: seq<Process>, level: QueueLevel)
    {
      LevelList(q, level) != [] && !Names(level)
    }

    /** `get_next_process` raises KeyError on ready queue q: some level raises before any level yields a process. */
    ghost predicate Raised(states: map<QueueLevel, LevelState>, q: seq<Process>, completed: seq<int>, useIpc: bool)
      requires forall level: QueueLevel :: level in states
    {
      exists level: QueueLevel :: LevelRaises(q, level) &&
        forall l: QueueLevel :: Rank(l) < Rank(level) ==> !LevelYields(states, q, l, completed, useIpc)
    }

    /** With an entry for each level, as the defaults have, `get_next_process` never raises. */
    lemma CompleteMapNeverRaises(states: map<QueueLevel, LevelState>, q: seq<Process>, completed: seq<int>, useIpc: bool)
      requires NamesEveryLevel() && forall level: QueueLevel :: level in states
      ensures !Raised(states, q, completed, useIpc)
    {
      forall level: QueueLevel
        ensures Names(level)
      {
        match level
        case A =>
        case B =>
        case C =>
      }
    }

    /** The step a level of ready queue q takes on its rebuilt list, given the level states. */
    ghost function StepOf(states: map<QueueLevel, LevelState>, q: seq<Process>, level: QueueLevel,
                          completed: seq<int>, useIpc: bool): LevelOutcome
      requires Names(level) && level in states
      reads set p | p in q
    {
      LevelListWithin(q, level);
      LevelStep(states[level], LevelList(q, level), Algorithm(level), completed, useIpc, timeQuantum)
    }

    /** `update_queues`: three fresh lists, one per level, each in ready-queue order. */
    method UpdateQueues(readyQueue: seq<Process>)
      requires Valid()
      modifies this`queues
      ensures Valid()
      ensures forall level: QueueLevel :: queues[level] == LevelList(readyQueue, level)
    {
      queues := map[A := [], B := [], C := []];
      forall level: QueueLevel ensures level in queues {
        match level
        case A =>
        case B =>
        case C =>
      }
      var i := 0;
      while i < |readyQueue|
        invariant 0 <= i <= |readyQueue|
        invariant forall level: QueueLevel :: level in queues && queues[level] == LevelList(readyQueue[..i], level)
      {
        var p := readyQueue[i];
        assert readyQueue[..i + 1][..i] == readyQueue[..i];
        queues := queues[p.queueLevel := queues[p.queueLevel] + [p]];
        i := i + 1;
      }
      assert readyQueue[..i] == readyQueue;
    }

    /** The SJF branch of `get_next_process_by_algorithm`, with the level's own remembered process. */
    method NextShortest(level: QueueLevel, completed: seq<int>, useIpc: bool) returns (r: Process?)
      requires Valid() && queues[level] != []
      modifies this`levelStates
      ensures Valid()
      ensures var o := SjfStep(old(levelStates[level]), queues[level], completed, useIpc);
              && r == o.selected && levelStates == old(levelStates)[level := o.state]
    {
      var st := levelStates[level];
      var queue := queues[level];
      var s := Sjf.Step(st.currentProcess, queue, completed, useIpc);
      levelStates := levelStates[level := st.(currentProcess := s.current)];
      r := if s.selected.Some? then queue[s.selected.value] else null;
    }

    /**
     * The RR branch of `get_next_process_by_algorithm`. It continues the level's
     * remembered process while the quantum counter is below the quantum;
     * otherwise, after moving the remembered process to the tail, it pops each
     * head and appends it BEFORE testing it, so the process it selects ends at
     * the tail of the level list.
     */
    method NextRoundRobin(level: QueueLevel, completed: seq<int>, useIpc: bool) returns (r: Process?)
      requires Valid() && queues[level] != []
      modifies this`levelStates, this`queues
      ensures Valid()
      ensures var o := RrStep(old(levelStates[level]), old(queues[level]), completed, useIpc, timeQuantum);
              && r == o.selected
              && levelStates == old(levelStates)[level := o.state]
              && queues == old(queues)[level := o.list]
    {
      var st := levelStates[level];
      var queue := queues[level];
      if RrContinues(st, queue, timeQuantum) {
        levelStates := levelStates[level := st.(currentQuantum := st.currentQuantum + 1)];
        assert queues == queues[level := queue];
        return queue[IndexOfId(queue, st.currentProcess.value).value];
      }
      r := ScanLevel(level, completed, useIpc);
    }

    /** The scan half of the RR branch, on the level's list and state as they stand. */
    method ScanLevel(level: QueueLevel, completed: seq<int>, useIpc: bool) returns (r: Process?)
      requires Valid()
      modifies this`levelStates, this`queues
      ensures Valid()
      ensures var o := RrScan(old(levelStates[level]), old(queues[level]), completed, useIpc);
              && r == o.selected
              && levelStates == old(levelStates)[level := o.state]
              && queues == old(queues)[level := o.list]
    {
      var st := levelStates[level];
      var moved := Requeued(st.currentProcess, queues[level]);
      ghost var o := RrScan(st, queues[level], completed, useIpc);
      var rotated;
      r, rotated := RotatingScan(moved, completed, useIpc);
      var next := if r != null then LevelState(Some(r.processId), 0) else st;
      assert r == o.selected && rotated == o.list && next == o.state;
      queues := queues[level := rotated];
      levelStates := levelStates[level := next];
    }

    /**
     * `get_next_process_by_algorithm` on the list `queues[level]`: FCFS behaves
     * as the stand-alone scheduler, SJF and RR as the two methods above; an
     * empty list or an unknown algorithm name gives no process and changes nothing.
     */
    method NextByAlgorithm(level: QueueLevel, algorithm: string, completed: seq<int>, useIpc: bool)
      returns (r: Process?)
      requires Valid()
      modifies this`levelStates, this`queues
      ensures Valid()
      ensures var o := LevelStep(old(levelStates[level]), old(queues[level]), algorithm, completed, useIpc, timeQuantum);
              && r == o.selected
              && levelStates == old(levelStates)[level := o.state]
              && queues == old(queues)[level := o.list]
    {
      var queue := queues[level];
      if queue == [] {
        return null;
      }
      if algorithm == "FCFS" {
        r := Fcfs.NextProcess(queue, completed, useIpc);
      } else if algorithm == "SJF" {
        r := NextShortest(level, completed, useIpc);
      } else if algorithm == "RR" {
        r := NextRoundRobin(level, completed, useIpc);
      } else {
        r := null;
      }
    }

    /**
     * One pass of the level loop of `get_next_process`: an empty level is
     * skipped; a non-empty one looks up its algorithm, which raises KeyError
     * when the map has no entry for the level, and otherwise takes the
     * level's step on its rebuilt list.
     */
    method TryLevel(level: QueueLevel, readyQueue: seq<Process>, completed: seq<int>, useIpc: bool)
      returns (r: Process?, raised: bool)
      requires Valid() && queues[level] == LevelList(readyQueue, level)
      modifies this`levelStates, this`queues
      ensures Valid()
      ensures queues == old(queues)[level := queues[level]] && levelStates == old(levelStates)[level := levelStates[level]]
      ensures raised <==> LevelRaises(readyQueue, level)
      ensures raised ==> r == null && levelStates == old(levelStates) && queues == old(queues)
      ensures Names(level) ==>
                var o := StepOf(old(levelStates), readyQueue, level, completed, useIpc);
                r == o.selected && levelStates[level] == o.state && queues[level] == o.list
      ensures (r != null) == LevelYields(old(levelStates), readyQueue, level, completed, useIpc)
      ensures r != null ==> r in readyQueue && r.queueLevel == level
      ensures r != null ==> Eligible(r, completed, useIpc) || Some(r.processId) == old(levelStates[level].currentProcess)
      ensures Remembered(old(levelStates), levelStates, if r != null then Some(r.processId) else None)
    {
      raised := false;
      if queues[level] == [] || !Names(level) {
        raised := queues[level] != [];
        assert queues == queues[level := queues[level]] && levelStates == levelStates[level := levelStates[level]];
        RememberedUpdate(levelStates, level, levelStates[level], None);
        return null, raised;
      }
      LevelStepFacts(levelStates[level], queues[level], Algorithm(level), completed, useIpc, timeQuantum);
      r := NextByAlgorithm(level, Algorithm(level), completed, useIpc);
      if r != null {
        LevelListMembers(readyQueue, level, r);
      }
      RememberedUpdate(old(levelStates), level, levelStates[level], if r != null then Some(r.processId) else None);
    }

    /**
     * One pass of the scan over the levels, for the level at position i: the
     * levels before it yielded nothing, and it and those after it still have
     * their rebuilt lists and the states `before` gave them.
     */
    method Visit(i: nat, readyQueue: seq<Process>, completed: seq<int>, useIpc: bool,
                 ghost before: map<QueueLevel, LevelState>) returns (r: Process?, raised: bool)
      requires i < 3 && Valid() && forall level: QueueLevel :: level in before
      requires forall level: QueueLevel :: Rank(level) >= i ==>
                 queues[level] == LevelList(readyQueue, level) && levelStates[level] == before[level]
      requires Remembered(before, levelStates, None)
      modifies this`levelStates, this`queues
      ensures Valid()
      ensures raised <==> LevelRaises(readyQueue, LevelAt(i))
      ensures r == null ==>
                && (forall level: QueueLevel :: Rank(level) >= i + 1 ==>
                      queues[level] == LevelList(readyQueue, level) && levelStates[level] == before[level])
                && !LevelYields(before, readyQueue, LevelAt(i), completed, useIpc)
                && Remembered(before, levelStates, None)
      ensures r != null ==>
                && !raised && r in readyQueue && r.queueLevel == LevelAt(i)
                && LevelYields(before, readyQueue, r.queueLevel, completed, useIpc)
                && (var o := StepOf(before, readyQueue, r.queueLevel, completed, useIpc);
                    r == o.selected && levelStates[r.queueLevel] == o.state && queues[r.queueLevel] == o.list)
                && (forall level: QueueLevel :: Rank(level) > i ==>
                      levelStates[level] == before[level] && queues[level] == LevelList(readyQueue, level))
                && (Eligible(r, completed, useIpc) || Some(r.processId) == before[r.queueLevel].currentProcess)
                && Remembered(before, levelStates, Some(r.processId))
    {
      var level := LevelAt(i);
      ghost var q0, s0 := queues, levelStates;
      r, raised := TryLevel(level, readyQueue, completed, useIpc);
      forall l: QueueLevel | l != level
        ensures queues[l] == q0[l] && levelStates[l] == s0[l]
      {
      }
      if Names(level) {
        assert StepOf(s0, readyQueue, level, completed, useIpc) == StepOf(before, readyQueue, level, completed, useIpc);
      }
      RememberedThen(before, s0, levelStates, if r != null then Some(r.processId) else None);
    }

    /**
     * `MLQScheduler.get_next_process`: rebuild the level lists, then return the
     * first process a level yields, scanning A, B, C; a level that yields
     * nothing, even a non-empty one, falls through to the next, and a
     * non-empty level the map has no entry for raises KeyError, reported as
     * `raised`. The ready queue itself is never changed, so rotations of a
     * level list only last until the next rebuild.
     */
    method GetNextProcess(readyQueue: seq<Process>, completed: seq<int>, useIpc: bool) returns (r: Process?, raised: bool)
      requires Valid()
      modifies this`levelStates, this`queues
      ensures Valid()
      ensures r != null ==> r in readyQueue
      ensures raised <==> Raised(old(levelStates), readyQueue, completed, useIpc)
      ensures raised ==> r == null
      ensures !raised ==>
                (r == null <==> forall level: QueueLevel :: !LevelYields(old(levelStates), readyQueue, level, completed, useIpc))
      ensures r != null ==>
                && LevelYields(old(levelStates), readyQueue, r.queueLevel, completed, useIpc)
                && forall level: QueueLevel :: Rank(level) < Rank(r.queueLevel) ==>
                     !LevelYields(old(levelStates), readyQueue, level, completed, useIpc) && !LevelRaises(readyQueue, level)
      ensures r != null ==>
                var o := StepOf(old(levelStates), readyQueue, r.queueLevel, completed, useIpc);
                && r == o.selected && levelStates[r.queueLevel] == o.state && queues[r.queueLevel] == o.list
      ensures r != null ==>
                forall level: QueueLevel :: Rank(level) > Rank(r.queueLevel) ==>
                  levelStates[level] == old(levelStates[level]) && queues[level] == LevelList(readyQueue, level)
      ensures r != null ==>
                Eligible(r, completed, useIpc) || Some(r.processId) == old(levelStates[r.queueLevel].currentProcess)
      ensures Remembered(old(levelStates), levelStates, if r != null then Some(r.processId) else None)
    {
      UpdateQueues(readyQueue);
      var i := 0;
      while i < 3
        invariant 0 <= i <= 3
        invariant Valid()
        invariant forall level: QueueLevel :: Rank(level) >= i ==>
                    queues[level] == LevelList(readyQueue, level) && levelStates[level] == old(levelStates[level])
        invariant forall level: QueueLevel :: Rank(level) < i ==>
                    !LevelYields(old(levelStates), readyQueue, level, completed, useIpc) && !LevelRaises(readyQueue, level)
        invariant Remembered(old(levelStates), levelStates, None)
      {
        r, raised := Visit(i, readyQueue, completed, useIpc, old(levelStates));
        if raised {
          assert LevelRaises(readyQueue, LevelAt(i));
          return;
        }
        if r != null {
          NotRaisedPast(old(levelStates), readyQueue, completed, useIpc, r.queueLevel);
          return;
        }
        i := i + 1;
      }
      r, raised := null, false;
    }

    /** When a level yields and no earlier level raises, no level raises before a level yields. */
    lemma NotRaisedPast(states: map<QueueLevel, LevelState>, q: seq<Process>, completed: seq<int>, useIpc: bool,
                        level: QueueLevel)
      requires forall l: QueueLevel :: l in states
      requires LevelYields(states, q, level, completed, useIpc)
      requires forall l: QueueLevel :: Rank(l) < Rank(level) ==> !LevelRaises(q, l)
      ensures !Raised(states, q, completed, useIpc)
    {
    }
  }
}
