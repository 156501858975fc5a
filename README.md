# CPU scheduler simulator — a Dafny model of its core

This project models the simulation engine of the `cpu_scheduler` repository and proves properties of it.

The engine runs a discrete-time loop: the `Scheduler` base class in `src/schedulers/base.py`. On each tick it:

- admits the processes that arrive on that tick into the ready queue;
- asks a selection policy for one process;
- runs that process for one time unit and appends a RUNNING entry to the execution history (the ledger);
- counts a context switch when the process differs from the previous entry's;
- retires the process once its remaining time reaches zero.

After the run, `calculate_detailed_metrics` folds the ledger into per-process statistics, totals, averages and CPU utilisation.

## What is modelled

- **The process record** (`src/process.py`). `Processes.Process` is a class. Its six identity fields are constants; its runtime fields are updated in place. It also models `reset`, `copy`, `queue_type`, `can_execute` and the `to_dict`/`from_dict` pair.
- **The engine** (`Engine.Scheduler`). A class with the base class's fields, bound to one of six policies through the `Policy` datatype. `Schedule` is the `schedule` loop, written as nested methods: `Begin`, `RunTicks`, `Tick`, `Admit`, `Serve`, `SelectNext` and `Execute`.
  - Every tick is proved to move the engine's state, taken as a value (`Accounting.Snapshot`), by one `TickStep`.
  - The loop invariant `Accounting.Consistent` ties each process's fields to the ledger. It is proved to hold on entry and to be kept by each tick.
  - In dependency mode (`use_ipc` or the IPC policy), every ledger entry is proved to start after each dependency of its process has terminated (`Accounting.DependenciesFirst`).
  - Consequences of the invariant: a terminated process ran exactly its burst time; busy time is within elapsed time; utilisation lies between 0 and 100 percent. The invariant assumes that no burst time is negative (see "## Left out").
- **The ledger and the metrics** (`Ledger`, `Metrics`). These are pure folds over the ledger in the order the source visits it. `CalculateDetailedMetrics` computes them with loops and is proved equal to the folds.
- **The six policies**, one module each:
  - `Fcfs`;
  - `Sjf`, which keeps running the job it chose;
  - `RoundRobin`, with the quantum counter and the in-place rotation;
  - `Priority`, preemptive;
  - `Mlq`, with per-level lists and per-level state;
  - `Ipc`, with the reverse-dependency graph and the depth-first chain length.

  Each policy that remembers a process is a class whose `GetNextProcess` is proved against a pure `Step` function or a full case split.

Membership tests and removals on process lists compare process ids. Ids are required to be unique.

Quirks of the code that the model keeps as written:

- `update_process_metrics` stamps `completion_time` with the clock before the clock advances. For a process with a positive burst time, its own turnaround and waiting times are therefore one less than the ledger-based ones of the metrics (`Accounting.MetricsVersusStamps`). A process with burst time 0 gets one empty entry at its completion tick, and the two agree (`Accounting.ZeroBurstMatchesStamps`).
- A round-robin continuation increments the counter and returns the same process, while `current_quantum < time_quantum`. A slice is therefore one selecting call plus `time_quantum` continuations.
- Priority keeps the remembered process only when its priority value is strictly lower than the candidate's. It may keep a process that, in dependency mode, is not itself eligible.
- MLQ falls through to the next level when a non-empty level yields nothing. A custom `queue_algorithms` map that leaves a level out is accepted; the lookup raises KeyError only when the scan reaches that level with a non-empty list, and the run ends there. The model reports this as `raised`. Its level lists are rebuilt on every call, so the RR branch's rotations last only until the next call.
- The IPC policy always checks dependencies, while its base-class flag `use_ipc` stays False.
- The chain-length search shares one visited set, so it stops even on cyclic graphs. The length it finds depends on the order the set is iterated.
- `schedule` does not reset a policy's own state (remembered process, quantum counters, level states). The round-robin, priority and MLQ continuations do not check `can_execute`. So the proof that every ledger entry starts after its process's dependencies terminated (`Engine.Scheduler.Schedule`) assumes that the ids the policy remembers at the start may run. A new scheduler remembers none.

The source's `while` loop need not end: a process with a negative arrival time is never admitted. In dependency mode (`use_ipc`, or the IPC policy), a dependency cycle blocks the processes on it and their dependents, and so does a dependency on an id outside the run. In MLQ, a non-empty level whose algorithm name is not FCFS, SJF or RR never yields, so its processes never run. `Schedule` therefore takes a `fuel` bound on the number of ticks and reports whether the source's loop condition was met.

## Model

| member | source | states |
|---|---|---|
| Processes.LevelByName | src/process.py:13-16 | `QueueLevel[name]` succeeds exactly for "A", "B", "C", and the level found has that string as its value |
| Processes.SpecFromDict | src/process.py:91-101 | decoding a dictionary fails exactly for an unknown level name; otherwise it keeps all five other fields and a level whose value is the given name |
| Processes.Process.constructor | src/process.py:25-44 | a new process has the given identity, `remaining_time == burst_time` and every other runtime field at its default, state NEW |
| Processes.Process.Reset | src/process.py:61-68 | after `reset` every runtime field is at its default and `remaining_time == burst_time`; identity fields are constants |
| Processes.Process.Copy | src/process.py:70-78 | the copy is a fresh object with the same six identity fields and default runtime fields |
| Processes.Process.ToDict | src/process.py:80-89 | decoding the dictionary `to_dict` produces gives back the process's identity: `from_dict(to_dict(p))` round-trips |
| Processes.Process.FromDict | src/process.py:91-101 | `from_dict` fails (KeyError) exactly for an unknown level name, else returns a fresh process with the decoded identity and defaults |
| Processes.QueueTypeIsBijective | src/process.py:46-53 | `queue_type` maps A, B, C to FCFS, SJF, RR, and two processes share a queue type exactly when they share a level |
| Processes.CanExecuteIffAllDependenciesCompleted | src/process.py:55-59 | `can_execute(completed)` holds iff every id the process `is_dependent_on` is completed; it holds vacuously with no dependencies |
| Processes.CanExecuteMonotone | src/process.py:58-59 | completing more processes never makes a runnable process blocked |
| ProcessLists.IndexOfId | src/schedulers/base.py:113 | the position used by `x in q` / `q.remove(x)`: absent iff no element has the id, otherwise the first element with that id |
| ProcessLists.FirstEligibleIndex | src/schedulers/fcfs.py:14-22 | the first queued process that may run, none iff no process may run, and the head whenever dependency checks are off |
| ProcessLists.Requeued | src/schedulers/round_robin.py:23-26 | moving the remembered process to the tail is a permutation of the queue and puts that process last |
| ProcessLists.RemoveAtMultiset | src/schedulers/base.py:113 | removing one element takes exactly that element out of the queue's multiset |
| ProcessLists.MoveToBackIsPermutation | src/schedulers/round_robin.py:25-26 | `remove` then `append` permutes the list and leaves the moved process at the tail |
| ProcessLists.RotateIsPermutation | src/schedulers/round_robin.py:35 | any number of `append(pop(0))` steps permutes the list |
| ProcessLists.RotateStep | src/schedulers/round_robin.py:29-35 | one more `append(pop(0))` takes the current head to the tail, advancing the rotation by one |
| ProcessLists.RotateEnds | src/schedulers/round_robin.py:29-35 | rotating by zero or by the whole length gives the list back |
| ProcessLists.DistinctIdsOccurrence | src/schedulers/base.py:87 | with unique ids a process occurs in the list at most once |
| ProcessLists.SameIdSameProcess | src/schedulers/base.py:113 | with unique ids, two listed processes with the same id are the same process, so comparing by id is comparing processes |
| Fcfs.NextProcess | src/schedulers/fcfs.py:9-22 | none for an empty queue; the head without dependency checks; otherwise the first process whose dependencies are done, none iff there is none |
| Sjf.ShortestIndex | src/schedulers/sjf.py:21-29 | `min(..., key=remaining_time)`: an eligible process with the least remaining time, before every other one with that time; none iff none is eligible |
| Sjf.Step | src/schedulers/sjf.py:10-32 | a queued, runnable remembered process is chosen again whatever the others' times; a queued blocked one is forgotten; otherwise the shortest eligible process is chosen and remembered; none iff the queue is empty or nothing is eligible |
| Sjf.SjfScheduler.constructor | src/schedulers/sjf.py:6-8 | no process is remembered |
| Sjf.SjfScheduler.GetNextProcess | src/schedulers/sjf.py:10-32 | the result and the remembered process are those of `Step`; the queue is left alone and the result is queued |
| Priority.HighestPriorityIndex | src/schedulers/priority.py:14-22 | `min(..., key=priority)`: an eligible process with the least priority value, before every other one with it; none iff none is eligible |
| Priority.Step | src/schedulers/priority.py:10-30 | the choice is at least as urgent as every eligible queued process; the remembered process is kept only when queued and strictly more urgent than the candidate (equal does not keep it), in which case nothing changes and it is not eligible itself; otherwise the candidate is chosen and remembered |
| Priority.PriorityScheduler.constructor | src/schedulers/priority.py:6-8 | no process is remembered |
| Priority.PriorityScheduler.GetNextProcess | src/schedulers/priority.py:10-30 | the result and the remembered process are those of `Step`; the queue is left alone |
| RoundRobin.RunnableHead | src/schedulers/round_robin.py:28-36 | the dependency-mode scan returns the first runnable process with the queue rotated to bring it to the head, or none with the queue as it was |
| RoundRobin.RoundRobinScheduler.constructor | src/schedulers/round_robin.py:6-10 | the quantum is stored, no process is remembered and the counter is 0 |
| RoundRobin.RoundRobinScheduler.GetNextProcess | src/schedulers/round_robin.py:12-50 | empty queue: none, nothing changes; a queued remembered process with quantum left is returned again with the counter incremented; otherwise it moves to the tail and the first eligible process (the head without dependency checks) is selected with counter 0, or none with the state kept; the queue is always a permutation of its input |
| Mlq.LevelListMembers | src/schedulers/mlq.py:28-33 | a level list holds exactly the queued processes of that level |
| Mlq.LevelListCount | src/schedulers/mlq.py:28-33 | a level list holds each process of its level as often as the ready queue does, and no other process |
| Mlq.LevelListsPartition | src/schedulers/mlq.py:28-33 | the three level lists split the ready queue: every occurrence lands in exactly one of them |
| Mlq.AnyEligiblePermutation | src/schedulers/mlq.py:80-91 | reordering a level list does not change whether some process in it may run |
| Mlq.RotatingScan | src/schedulers/mlq.py:84-93 | each head is popped and appended before it is tested, so the process selected ends at the tail (rotation one past it); none with the list unrotated after a full turn |
| Mlq.LevelStep | src/schedulers/mlq.py:35-96 | the level step as a value: an empty list or an unknown algorithm name yields nothing and changes neither state nor list; FCFS never changes the level's state or list |
| Mlq.SjfStepFacts | src/schedulers/mlq.py:49-67 | the SJF branch yields a process exactly when one may run; the process is listed and may run, it is remembered, and the list is left alone |
| Mlq.RrStepFacts | src/schedulers/mlq.py:69-96 | the RR branch yields a process exactly when it continues or one may run; the process is listed and remembered; one found by the scan may run; the list is only permuted |
| Mlq.LevelStepFacts | src/schedulers/mlq.py:35-96 | a level yields exactly when `Yields` says; the result is listed and the list permuted; SJF and RR remember the result; the result may run unless it is an RR continuation of the remembered process; the level otherwise keeps or forgets what it remembered |
| Mlq.RememberedUpdate | src/schedulers/mlq.py:35-96 | a step that changes one level's state to keep, forget or remember the result leaves every level keeping, forgetting or remembering the result |
| Mlq.RememberedThen | src/schedulers/mlq.py:102-111 | levels that only kept or forgot, followed by one that remembers the result, give levels that keep, forget or remember the result |
| Mlq.LevelAt | src/schedulers/mlq.py:102 | `for level in QueueLevel` visits the levels in scan order: position i holds the level of rank i |
| Mlq.MlqScheduler.constructor | src/schedulers/mlq.py:6-26 | empty level lists, no remembered process per level; the given map, even one that leaves a level out, or the defaults A→RR, B→FCFS, C→SJF when none (or an empty map) is given |
| Mlq.MlqScheduler.UpdateQueues | src/schedulers/mlq.py:28-33 | each level's list is rebuilt as the ready queue's processes of that level, in queue order |
| Mlq.MlqScheduler.NextShortest | src/schedulers/mlq.py:49-67 | the result and the level's new state are those of `SjfStep`: `Sjf.Step` on the level's remembered process; no other level's state changes |
| Mlq.MlqScheduler.NextRoundRobin | src/schedulers/mlq.py:69-96 | the result, the level's new state and its list are those of `RrStep`: a continuation increments the counter; otherwise the requeue and scan of `RrScan`; no other level changes |
| Mlq.MlqScheduler.ScanLevel | src/schedulers/mlq.py:77-93 | the requeue and scan path of the RR branch: the result, the level's new state and its list are those of `RrScan`; no other level changes |
| Mlq.MlqScheduler.NextByAlgorithm | src/schedulers/mlq.py:35-96 | the result, the level's new state and its list are those of `LevelStep` on the level's old state and list; only that level's state and list change |
| Mlq.MlqScheduler.TryLevel | src/schedulers/mlq.py:103-110 | one level of the scan on its rebuilt list: it raises exactly when the list is non-empty and the map has no entry for the level, and then changes nothing; otherwise the result, state and list are that level's `LevelStep`; it yields exactly when `LevelYields`; the result is queued at that level and may run or is the level's remembered process; every level keeps, forgets or remembers the result |
| Mlq.MlqScheduler.Visit | src/schedulers/mlq.py:102-111 | one iteration for the level at position i: it raises exactly when that level raises; when it yields, its `LevelStep` outcome with every later level untouched; otherwise it yielded nothing, later levels are untouched and every level only kept or forgot |
| Mlq.MlqScheduler.GetNextProcess | src/schedulers/mlq.py:98-113 | raises KeyError exactly when a level raises before any level yields, and then returns nothing; otherwise none iff no level yields, and the result comes from the first level, in order A, B, C, that yields, falling through non-empty levels that yield nothing; the chosen level's result, state and list are its `LevelStep`; higher levels keep their state; the result may run or is its level's remembered process; every level keeps, forgets or remembers the result |
| Mlq.MlqScheduler.CompleteMapNeverRaises | src/schedulers/mlq.py:22-26 | with an entry for every level, as the default map has, `get_next_process` never raises KeyError |
| Ipc.PidSetSnoc | src/schedulers/ipc.py:17-19 | adding a process to the list adds its id to the node set |
| Ipc.DependentsOfSnoc | src/schedulers/ipc.py:22-25 | adding a process adds it to the dependents of exactly the ids it depends on |
| Ipc.DependentsAreNodes | src/schedulers/ipc.py:11-25 | every dependent recorded in the graph is itself a node |
| Ipc.DistinctPathWithin | src/schedulers/ipc.py:27-38 | a chain without repeated nodes is no longer than the set of nodes it visits |
| Ipc.EligibleList | src/schedulers/ipc.py:52-58 | the filtered list holds only queued processes whose dependencies are done, and is empty iff none are |
| Ipc.EligibleListCount | src/schedulers/ipc.py:52-58 | each process whose dependencies are done is in the list as often as in the queue, and no other process is |
| Ipc.EligibleListKeepsOrder | src/schedulers/ipc.py:52-58 | the list keeps queue order: the eligible processes of each prefix of the queue are a prefix of it |
| Ipc.IndependentList | src/schedulers/ipc.py:61 | the filtered list holds only processes without dependencies, and is empty iff none are |
| Ipc.IndependentListCount | src/schedulers/ipc.py:61 | each process without dependencies is in the list as often as in its input, and no other process is |
| Ipc.IndependentListKeepsOrder | src/schedulers/ipc.py:61 | the list keeps input order: the independent processes of each prefix are a prefix of it |
| Ipc.FirstMaxIndex | src/schedulers/ipc.py:67-84 | `max` with a tuple key: no key exceeds the chosen one, and every earlier key is strictly smaller |
| Ipc.FirstMaxOfIndependent | src/schedulers/ipc.py:65-72 | the independent process `max` picks has a key that no member's key exceeds |
| Ipc.IndependentFound | src/schedulers/ipc.py:52-61 | a queued process without dependencies is among the independent eligible ones |
| Ipc.IndependentChoiceIsMaximal | src/schedulers/ipc.py:52-72 | the independent process chosen has a key (dependents, earliest arrival) that no queued process without dependencies exceeds |
| Ipc.IpcScheduler.constructor | src/schedulers/ipc.py:6-9 | an empty graph and an empty process table |
| Ipc.IpcScheduler.BuildDependencyGraph | src/schedulers/ipc.py:11-25 | the previous graph is forgotten; the nodes are exactly the given ids, each mapped to the ids of the processes that list it as a dependency; unknown dependency ids are skipped |
| Ipc.IpcScheduler.AddNodes | src/schedulers/ipc.py:17-19 | every given id becomes a node with no dependents and an entry in the process table |
| Ipc.IpcScheduler.AddEdges | src/schedulers/ipc.py:22-25 | each node's set becomes exactly its dependents among the given processes |
| Ipc.IpcScheduler.RecordDependent | src/schedulers/ipc.py:23-25 | a process is added to the set of each of its dependencies that is a node, and to no other |
| Ipc.IpcScheduler.GetDependencyChainLength | src/schedulers/ipc.py:27-38 | 0 with nothing visited for a visited id; otherwise the id is marked and the length is that of a real repetition-free dependency chain from it through newly visited nodes, at least 1, at most the number newly visited, and 1 when all its dependents were already visited |
| Ipc.IpcScheduler.ChainRanking | src/schedulers/ipc.py:77-84 | each candidate's key is (chain length from a fresh visited set, dependents, earliest arrival); each chain length lies between 1 and the number of graph nodes, is the length of a real repetition-free dependency chain from the candidate, and is 1 when the candidate has no dependents but itself |
| Ipc.IpcScheduler.CandidateKey | src/schedulers/ipc.py:79-83 | one candidate's key: chain length from a fresh visited set, number of dependents, and negated arrival; the length is between 1 and the node count, witnessed by a repetition-free chain from the candidate, and 1 when it has no dependents but itself |
| Ipc.IpcScheduler.GetNextProcess | src/schedulers/ipc.py:40-84 | none iff no queued process has all dependencies done (checked whatever `use_ipc` says); the first independent one with most dependents, then earliest arrival, if any; otherwise the first maximum of (chain length, dependents, earliest arrival), each chain length witnessed by a repetition-free dependency chain and 1 for a process without other dependents |
| Ledger.LastEnd | src/schedulers/base.py:142 | `last_end` is the greatest end among the process's entries, or 0 with none |
| Ledger.FirstStart | src/schedulers/base.py:143 | `start_time` is the least start among the process's entries, and stays unset (`inf`) exactly when it has none |
| Ledger.RunTimeAppend | src/schedulers/base.py:144-145 | a new entry adds its duration to its own process's running time only when RUNNING |
| Ledger.LastEndAppend | src/schedulers/base.py:142 | a new entry raises its process's last end to its own end when later |
| Ledger.EntryCountAppend | src/schedulers/base.py:102-107 | a new entry adds one to its own process's entry count |
| Ledger.SwitchesAppend | src/schedulers/base.py:94-95 | a switch is counted for a new entry exactly when the ledger is non-empty and its last entry is another process's |
| Ledger.BusyTimeAppend | src/schedulers/base.py:194-198 | a new entry adds its duration to the busy time when RUNNING |
| Ledger.BusyTimeAtMostEntries | src/schedulers/base.py:194-198 | with entries of at most one unit, busy time is at most the number of entries |
| Ledger.RunTimeWithoutEntries | src/schedulers/base.py:140-145 | a process without entries has no running time and no entries |
| Ledger.RunTimeCountsUnitEntries | src/schedulers/base.py:98-107 | when each of its entries is one RUNNING unit, a process's running time is its entry count |
| Ledger.EntriesFitBeforeLastEnd | src/schedulers/base.py:142 | unit entries at increasing starts, none before `from`, all fit between `from` and the last end |
| Metrics.Ratio | src/schedulers/base.py:176-177 | a quotient times its positive divisor gives the numerator back; it is 0 when the divisor is not positive |
| Metrics.CpuUtilizationBounds | src/schedulers/base.py:203 | a busy time within the elapsed time gives a utilisation between 0 and 100 percent |
| Metrics.TotalWaitingIsTurnaroundLessRunTime | src/schedulers/base.py:155-173 | total waiting time is total turnaround less total running time |
| Metrics.TotalRunTimeAppend | src/schedulers/base.py:140-145 | one more entry adds to the total running time exactly its shares for the listed processes |
| Metrics.SharesOfDistinct | src/schedulers/base.py:140-145 | with unique ids an entry's duration counts for exactly the one process it names |
| Metrics.BusyTimeIsTotalRunTime | src/schedulers/base.py:140-145 | when every entry names a listed process, busy time is the sum of the processes' running times |
| Accounting.ResetTracked | src/process.py:61-68 | a freshly reset process satisfies the per-process invariant before the first tick |
| Accounting.AdmissionListed | src/schedulers/base.py:83-87 | admission adds only processes of the run to the ready queue |
| Accounting.AdmissionCount | src/schedulers/base.py:83-87 | admission adds a process once if it arrives on this tick while NEW, and otherwise not at all |
| Accounting.AdmitKeepsTracked | src/schedulers/base.py:83-87 | admission keeps each process's invariant and records this tick as admitted |
| Accounting.OtherTickKeepsTracked | src/schedulers/base.py:81-116 | a tick that runs another process, or nothing, keeps this process's invariant |
| Accounting.RunKeepsTracked | src/schedulers/base.py:98-114 | running a READY or RUNNING process for `min(1, remaining)` keeps its invariant, whether or not it terminates |
| Accounting.RunEntries | src/schedulers/base.py:98-107 | every entry of the run process still starts after its arrival and lasts one unit for a positive burst |
| Accounting.RunLastEnd | src/schedulers/base.py:110-116 | when a run terminates a process, its last entry ends at its completion stamp plus one (plus zero for a zero burst) |
| Accounting.LedgerStep | src/schedulers/base.py:102-107 | a tick adds at most one RUNNING entry of at most one unit, starting at the tick, so the ledger keeps increasing starts |
| Accounting.TerminatedRanBurst | src/schedulers/base.py:98-114 | a terminated process was given exactly its burst time by the ledger |
| Accounting.MetricsVersusStamps | src/schedulers/base.py:61-65 | for a terminated process with a positive burst, the metrics' turnaround and waiting times are each one more than the process's own, and the metrics' waiting time is never negative |
| Accounting.ZeroBurstMatchesStamps | src/schedulers/base.py:61-65 | for a terminated process with burst 0, the metrics' turnaround and waiting times equal the ones stamped on the process |
| Accounting.BusyTimeWithinElapsed | src/schedulers/base.py:193-198 | the busy time is between 0 and the elapsed time |
| Accounting.BusyTimeNonNegative | src/schedulers/base.py:194-198 | entries of non-negative duration give a non-negative busy time |
| Accounting.TerminatedStats | src/schedulers/base.py:155-157 | a terminated process ran for its burst, with a turnaround at least its burst and a non-negative waiting time |
| Accounting.FinishedTotals | src/schedulers/base.py:148-173 | when every process has terminated, the total running time is the total burst, total turnaround is at least that, and total waiting is non-negative |
| Accounting.SumsOfFinished | src/schedulers/base.py:155-173 | per-process running, turnaround and waiting facts add up to the same facts for the totals |
| Accounting.AllTerminatedWhenCounted | src/schedulers/base.py:81 | as many terminations as processes means every process terminated, so the loop condition is exact |
| Accounting.TerminatedCountUpdate | src/schedulers/base.py:110-112 | changing one process's state changes the count by that process's change only |
| Accounting.TerminatedCountSame | src/schedulers/base.py:83-87 | steps that do not change which processes are terminated keep the count |
| Accounting.StartConsistent | src/schedulers/base.py:69-78 | the state `schedule` starts its loop from satisfies the loop invariant |
| Accounting.AdmitStepConsistent | src/schedulers/base.py:83-87 | admission keeps the invariant and marks this tick as admitted |
| Accounting.AdmitQueued | src/schedulers/base.py:83-87 | after admission the ready queue still holds each READY or RUNNING process exactly once, and nothing else |
| Accounting.ReorderConsistent | src/schedulers/base.py:90 | a policy that permutes the ready queue keeps the invariant |
| Accounting.RunStepConsistent | src/schedulers/base.py:92-114 | running the selected active process keeps the invariant, and that process is found in the ready queue |
| Accounting.ActiveIsQueued | src/schedulers/base.py:113 | a READY or RUNNING process is in the ready queue under its own id, so `remove` finds it |
| Accounting.RunLedgered | src/schedulers/base.py:94-112 | after a run the ids stay unique, the ledger stays well formed, the switch counter counts the ledger's switches and each terminated process is completed once |
| Accounting.RunQueued | src/schedulers/base.py:110-113 | after a run the ready queue holds exactly the still-active processes, once each |
| Accounting.RunAllTracked | src/schedulers/base.py:98-114 | after a run every process satisfies its invariant |
| Accounting.IdleConsistent | src/schedulers/base.py:92-116 | a tick that runs nothing keeps the invariant for the next tick |
| Accounting.AdmittedListed | src/schedulers/base.py:83-90 | after admission every queued process belongs to the run |
| Accounting.TickConsistent | src/schedulers/base.py:81-116 | a whole tick (admission, any permutation by the policy, at most one run) keeps the invariant at the next tick |
| Accounting.AdmitKeepsDependenciesFirst | src/schedulers/base.py:83-87 | admission keeps every ledger entry after its dependencies' completion, since it changes no terminated process and no entry |
| Accounting.ConsistentCompletedBefore | src/schedulers/base.py:110-114 | under the loop invariant every completed process is TERMINATED with a completion tick before the current one |
| Accounting.RunKeepsDependenciesFirst | src/schedulers/base.py:94-114 | running a process whose dependencies have all completed adds an entry that starts after each of them terminated, and keeps the older entries' order |
| Accounting.RunnableFacts | src/schedulers/base.py:90-92 | under the loop invariant every queued process is READY or RUNNING and every completed one terminated earlier |
| Accounting.ReorderedRunnable | src/schedulers/base.py:83-92 | after admission and the policy's reordering the facts a run needs hold |
| Accounting.TickKeepsDependenciesFirst | src/schedulers/base.py:81-116 | a tick whose run process, if any, had every dependency completed keeps every ledger entry after its dependencies' completion |
| Engine.StatsOfSnoc | src/schedulers/base.py:140-145 | one more entry changes only its own process's record, folded in with max, min and the RUNNING sum |
| Engine.InitialStats | src/schedulers/base.py:130-137 | every process starts with last end 0, run time 0 and no start |
| Engine.CollectStats | src/schedulers/base.py:139-145 | the loop over the ledger leaves each process's record equal to the folds `LastEnd`, `RunTime` and `FirstStart` over the whole ledger |
| Engine.SumTimes | src/schedulers/base.py:148-173 | the loop over the records sums turnaround `last_end − arrival` and waiting `turnaround − run time` over the processes |
| Engine.SumBusyTime | src/schedulers/base.py:193-198 | the busy time is the sum of the RUNNING durations |
| Engine.Scheduler.FcfsScheduler | src/schedulers/fcfs.py:6-7 | an FCFS engine with cleared state; the policy remembers nothing |
| Engine.Scheduler.SjfScheduler | src/schedulers/sjf.py:6-8 | an SJF engine with cleared state and no remembered process; the policy remembers nothing |
| Engine.Scheduler.RoundRobinScheduler | src/schedulers/round_robin.py:6-10 | a round-robin engine with the given quantum, no remembered process and counter 0; the policy remembers nothing |
| Engine.Scheduler.PriorityScheduler | src/schedulers/priority.py:6-8 | a priority engine with cleared state and no remembered process; the policy remembers nothing |
| Engine.Scheduler.MlqScheduler | src/schedulers/mlq.py:6-26 | a multi-level-queue engine with the given quantum; the algorithm map is the given one, even one that leaves a level out, unless it is missing or empty, then A→RR, B→FCFS, C→SJF; every level remembers no process with counter 0 and has an empty list |
| Engine.Scheduler.IpcScheduler | src/schedulers/ipc.py:6-9 | an IPC engine whose base flag `use_ipc` is False, with an empty graph; the policy remembers nothing |
| Engine.Scheduler.AddToHistory | src/schedulers/base.py:51-59 | the ledger gains exactly one entry at its end |
| Engine.Scheduler.Advance | src/schedulers/base.py:98-114 | the process becomes RUNNING with its slice taken off, and TERMINATED and stamped on reaching zero |
| Engine.Scheduler.UpdateProcessMetrics | src/schedulers/base.py:61-65 | completion is the current clock; turnaround is completion less arrival, waiting is turnaround less burst |
| Engine.Scheduler.Admit | src/schedulers/base.py:83-87 | the engine state moves by exactly one admission step; the policy is untouched |
| Engine.Scheduler.AdmitArrivals | src/schedulers/base.py:83-87 | the loop appends the arriving NEW processes in list order and makes them READY |
| Engine.Scheduler.SelectNext | src/schedulers/base.py:90 | only the ready queue's order changes, the result is a queued process of the run, and a work-conserving policy without dependency checks serves a non-empty queue; when the ids the policy remembers may run, they still may and the result may run; IPC's result always has its dependencies completed; a raised KeyError returns nothing, leaves the queue alone and comes only from an MLQ map that leaves a level out |
| Engine.Scheduler.Dispatch | src/schedulers/base.py:90 | the bound policy's `get_next_process`: the queue is permuted (only by round robin), the result is queued, FCFS is `Fcfs.NextProcess`; when the ids the policy remembers may run, they still may and the result may run; IPC's result always has its dependencies completed; only MLQ raises, exactly when its scan raises KeyError, and then returns nothing |
| Engine.Scheduler.DispatchMlq | src/schedulers/mlq.py:98-113 | the MLQ case: it raises exactly when the scan raises KeyError, which needs a map that leaves a level out; the result is queued; remembered ids that may run still may, and then so may the result |
| Engine.Scheduler.Execute | src/schedulers/base.py:92-114 | the engine state moves by exactly one `RunStep`: switch counted, entry logged, slice taken, and on termination completed, removed and stamped |
| Engine.Scheduler.Tick | src/schedulers/base.py:81-116 | one iteration is admission, a permutation by the policy, at most one run of a queued process, and the clock advanced by one; a raised KeyError stops after admission, runs nothing and leaves the clock; remembered ids that may run still may, and then in dependency mode the process run had every dependency completed |
| Engine.Scheduler.Serve | src/schedulers/base.py:89-114 | selection and execution after admission: a permutation by the policy and at most one run of a queued process, none when KeyError is raised; remembered ids that may run still may, and then in dependency mode the process run had every dependency completed |
| Engine.Scheduler.AdvanceClock | src/schedulers/base.py:116 | the clock advances by one and nothing else changes |
| Engine.Scheduler.Schedule | src/schedulers/base.py:67-118 | unless KeyError is raised the run ends with the loop invariant; it finished exactly when every process completed, in which case each is TERMINATED and ran exactly its burst time; a raised KeyError leaves the run unfinished and needs an MLQ map that leaves a level out; in dependency mode, when the policy starts remembering only ids that may run, every ledger entry starts after each dependency of its process has terminated |
| Engine.Scheduler.Prepare | src/schedulers/ipc.py:86-89 | the IPC policy's graph is rebuilt over the processes before the loop, so every process is a node; remembered ids that may run still may |
| Engine.Scheduler.FinishedRanBursts | src/schedulers/base.py:81-112 | once every process has completed, each is TERMINATED and the ledger gives it exactly its burst time |
| Engine.Scheduler.Begin | src/schedulers/base.py:69-78 | the clock, ledger, queue, completed list and counter are cleared, every process is reset, the policy's state is kept, and the loop invariant holds |
| Engine.Scheduler.Started | src/schedulers/base.py:69-78 | the cleared fields with every process at its defaults satisfy the loop invariant |
| Engine.Scheduler.RunTicks | src/schedulers/base.py:81-116 | the loop keeps its invariant and stops when every process completed, the fuel ran out or KeyError was raised; it keeps `Ordered`: remembered ids may run and, in dependency mode, every ledger entry starts after each dependency of its process has terminated |
| Engine.Scheduler.TickReady | src/schedulers/base.py:81-90 | the invariant gives unique ids and a ready queue of the run's processes |
| Engine.Scheduler.TickKeepsInv | src/schedulers/base.py:81-116 | a tick as `Tick` promises it restores the invariant at the next tick |
| Engine.Scheduler.TickKeepsOrder | src/schedulers/base.py:81-116 | a tick that runs only a process whose dependencies have completed keeps every ledger entry after its dependencies' completion |
| Engine.Scheduler.RemembersLater | src/schedulers/base.py:110-112 | completing more processes keeps the policy's remembered ids runnable |
| Engine.Scheduler.NothingRemembered | src/schedulers/base.py:67-81 | a policy that remembers no process, as every constructor leaves it, remembers only ids that may run |
| Engine.RunnableChosen | src/process.py:58-59 | with unique ids, remembering an eligible process of the run remembers an id that may run |
| Engine.RunnableLater | src/process.py:58-59 | a remembered id that may run still may after more processes complete |
| Engine.Scheduler.ResetAll | src/schedulers/base.py:77-78 | every process is back at its defaults |
| Engine.Scheduler.CalculateDetailedMetrics | src/schedulers/base.py:120-207 | the computed totals, process count, busy time, elapsed time and switch count are the ledger folds of `MetricsOf` |
| Engine.UtilizationWithinBounds | src/schedulers/base.py:193-203 | at any point of a run whose burst times are not negative, the reported utilisation lies between 0 and 100 percent |
| Engine.FinishedRunMetrics | src/schedulers/base.py:148-198 | after a finished run the busy time is the total burst, total turnaround is at least that, and total waiting is non-negative |

## Left out

- `save_processes`, `load_processes` and `create_processes` in `src/process.py`: JSON file I/O and random generation, with no scheduling logic.
- The text report of `calculate_detailed_metrics` and `calculate_metrics`, which only returns the metrics part. Averages and utilisation are exact reals (`AverageWaitingTime`, `AverageTurnaroundTime`, `CpuUtilization`) rather than floats. The `inf` start sentinel is `None`.
- The duplicated `ProcessExecution` definition and imports at the top of `src/schedulers/base.py`: the record is modelled once, as `Ledger.Execution`.
- `src/visualizer/*` and `main.py`: rendering and a driver.
- RoundRobin.RoundRobinScheduler.constructor and Engine.Scheduler.RoundRobinScheduler: the quantum is a required integer. The source's default (`time_quantum=None`) calls `random.randint` without importing `random`, so it raises NameError.
- Mlq.MlqScheduler.constructor and Engine.Scheduler.MlqScheduler: the quantum is a required integer. With the source's default (`time_quantum=None`), the RR branch's comparison `current_quantum >= time_quantum` at mlq.py:74 raises TypeError on the first call that finds a remembered process. The model does not capture this.
- Engine.Scheduler.Schedule: runs at most `fuel` ticks. The source's loop is unbounded and does not end when a process is never admitted (negative arrival time), when a process in dependency mode waits on a dependency cycle or on an id outside the run, or when an MLQ level with an unknown algorithm name holds a process. `finished` reports whether the source's loop condition was met.
- Engine.Scheduler.Dispatch: states the exact choice only for FCFS. For the other policies it states that the result is queued, that the queue is permuted and that a work-conserving policy serves a non-empty queue. Each policy's own `GetNextProcess` states its exact choice.
- Engine.Scheduler.SelectNext: weaker than the policies' contracts in the same way as `Dispatch`.
- Engine.Scheduler.Tick: states that the chosen process is queued and is run, not which process the policy chose.
- Engine.Scheduler.Serve: states that the chosen process is queued and is run, not which process the policy chose, as for `Tick`.
- Engine.Scheduler.Schedule: after a raised KeyError the state left behind is not stated to satisfy the loop invariant; the source then returns no history.
- Engine.Scheduler.Schedule: requires every burst time to be non-negative. The source accepts any: with a negative burst b, `min(1, remaining_time)` is b, so the process ends in one tick with an entry of negative length, and the busy time and utilisation come out negative.
- Engine.Scheduler.Begin: requires non-negative burst times, for the same reason as `Schedule`.
- Engine.Scheduler.Started: requires non-negative burst times, for the same reason as `Schedule`.
- Accounting.StartConsistent: requires non-negative burst times, since the loop invariant describes a process that runs in unit slices.
- Accounting.ResetTracked: requires a non-negative burst time, for the same reason as `StartConsistent`.
- Engine.UtilizationWithinBounds: holds only for runs whose burst times are not negative. With one process of burst −5 arriving at 0, the source reports a utilisation of −500 percent.
- Mlq.MlqScheduler.GetNextProcess: for a level tried before the chosen one it states that the level yielded nothing and kept or forgot its remembered process, not its exact new state and list.
- Engine.Scheduler.Schedule: the dependency order is proved only when the policy starts the run remembering ids that may run, as a new scheduler does. `schedule` keeps the policy's state across calls, so a second run may continue a round-robin process remembered from the first run before its dependencies complete.
- Ipc.IpcScheduler.GetDependencyChainLength: the length depends on the order Python iterates a set. The model explores dependents in any order and states bounds and a real chain, not a fixed value.
- Ipc.IpcScheduler.GetNextProcess: for the dependent-process case the chain lengths are a ghost result, for the same reason; the ranking is stated over them.
- Ipc.IpcScheduler.GetNextProcess: requires every eligible queued process to be a node of the graph. In the source a missing node raises KeyError; `schedule` always builds the graph first, so it cannot happen there.
- Equality of processes is by id, as the engine uses unique ids. Python's dataclass equality compares all fields.
