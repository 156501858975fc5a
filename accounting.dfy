/**
 * What the engine loop of src/schedulers/base.py keeps true about each process
 * and about the ledger, stated over snapshots of a process's fields, with one
 * lemma per kind of step a tick takes and the consequences for the metrics.
 */
module Accounting {
  import opened Wrappers
  import opened Processes
  import opened ProcessLists
  import opened Ledger
  import opened Metrics

  /** The fields of a process at one moment. */
  datatype ProcessView = ProcessView(
    processId: int, arrivalTime: int, burstTime: int,
    remainingTime: int, startTime: int, completionTime: int,
    waitingTime: int, turnaroundTime: int, state: ProcessState, currentQuantum: int)

  /**
   * The ledger after the engine has run ticks 0 .. bound-1: at most one entry
   * per tick, each a RUNNING entry of a known process lasting at most one
   * unit, with starts strictly increasing.
   */
  ghost predicate LedgerOk(h: seq<Execution>, bound: int, ids: seq<int>)
  {
    && 0 <= bound
    && |h| <= bound
    && (forall k :: 0 <= k < |h| ==>
          && h[k].state == Running
          && 0 <= h[k].startTime < bound
          && 0 <= Duration(h[k]) <= 1
          && h[k].processId in ids)
    && (forall i, j :: 0 <= i < j < |h| ==> h[i].startTime < h[j].startTime)
  }

  /**
   * One process, given the ledger h up to tick `bound` and the processes
   * admitted on ticks before `admitted`:
   * - it is NEW exactly while not yet admitted, and never WAITING;
   * - it is TERMINATED exactly when its id is in `completed`;
   * - its remaining time is its burst time less the time the ledger gives it;
   * - each of its entries starts no earlier than its arrival, lasts one unit
   *   when its burst time is positive, and exists for a zero burst only once
   *   it has terminated;
   * - once TERMINATED its completion time is the tick of its last unit, so
   *   its last entry ends one tick later (at the same tick for a zero burst),
   *   and turnaround and waiting are derived from it; before that the three
   *   stay 0;
   * - start time and quantum counter keep the values `reset` gave them.
   */
  ghost predicate Tracked(v: ProcessView, h: seq<Execution>, bound: int, admitted: int, completed: seq<int>)
  {
    && v.burstTime >= 0
    && v.state != Waiting
    && (v.state == New <==> !(0 <= v.arrivalTime < admitted))
    && (v.processId in completed <==> v.state == Terminated)
    && v.remainingTime == v.burstTime - RunTime(h, v.processId)
    && v.remainingTime >= 0
    && (v.state != Terminated && v.burstTime >= 1 ==> v.remainingTime >= 1)
    && (forall k :: 0 <= k < |h| && h[k].processId == v.processId ==>
          && v.state != New
          && v.arrivalTime <= h[k].startTime
          && (v.burstTime >= 1 ==> Duration(h[k]) == 1)
          && (v.burstTime == 0 ==> v.state == Terminated))
    && (v.state == Terminated ==>
          && v.remainingTime == 0
          && v.arrivalTime <= v.completionTime < bound
          && v.turnaroundTime == v.completionTime - v.arrivalTime
          && v.waitingTime == v.turnaroundTime - v.burstTime
          && LastEnd(h, v.processId) == v.completionTime + (if v.burstTime >= 1 then 1 else 0))
    && (v.state != Terminated ==> v.completionTime == 0 && v.turnaroundTime == 0 && v.waitingTime == 0)
    && v.startTime == 0 && v.currentQuantum == 0
  }

  function View(p: Process): ProcessView
    reads p
  {
    ProcessView(p.processId, p.arrivalTime, p.burstTime, p.remainingTime, p.startTime,
                p.completionTime, p.waitingTime, p.turnaroundTime, p.state, p.currentQuantum)
  }

  /** The snapshot `reset` leaves behind. */
  function ResetView(processId: int, arrivalTime: int, burstTime: int): ProcessView
  {
    ProcessView(processId, arrivalTime, burstTime, burstTime, 0, 0, 0, 0, New, 0)
  }

  /** Before the first tick every reset process is tracked. */
  lemma ResetTracked(processId: int, arrivalTime: int, burstTime: int)
    requires burstTime >= 0
    ensures Tracked(ResetView(processId, arrivalTime, burstTime), [], 0, 0, [])
  {
  }

  /** Admission on tick t: a NEW process arriving at t becomes READY, every other process is left as it was. */
  function Admitted(v: ProcessView, t: int): ProcessView
  {
    if v.arrivalTime == t && v.state == New then v.(state := Ready) else v
  }

  /** The snapshots of a list of processes. */
  ghost function Views(ps: seq<Process>): (r: seq<ProcessView>)
    reads ps
    ensures |r| == |ps|
  {
    seq(|ps|, i reads ps requires 0 <= i < |ps| => View(ps[i]))
  }

  /**
   * The ready queue q after the first n processes of the list have been
   * considered for admission on tick t: those whose snapshots arrive at t
   * while NEW are appended, in list order.
   */
  function Admission(q: seq<Process>, ps: seq<Process>, vs: seq<ProcessView>, t: int, n: nat): seq<Process>
    requires n <= |ps| == |vs|
  {
    if n == 0 then q
    else
      var r := Admission(q, ps, vs, t, n - 1);
      if vs[n - 1].arrivalTime == t && vs[n - 1].state == New then r + [ps[n - 1]] else r
  }

  /** Admission only adds listed processes to the queue. */
  lemma {:induction false} AdmissionListed(q: seq<Process>, ps: seq<Process>, vs: seq<ProcessView>, t: int, n: nat)
    requires n <= |ps| == |vs|
    ensures forall k :: 0 <= k < |Admission(q, ps, vs, t, n)| ==>
              Admission(q, ps, vs, t, n)[k] in q || Admission(q, ps, vs, t, n)[k] in ps
  {
    if n > 0 {
      AdmissionListed(q, ps, vs, t, n - 1);
    }
  }

  /** Admission adds a process that no other entry of the list repeats once if its snapshot arrives at t while NEW, and otherwise not at all. */
  lemma {:induction false} AdmissionCount(q: seq<Process>, ps: seq<Process>, vs: seq<ProcessView>, t: int, n: nat, j: int)
    requires n <= |ps| == |vs| && 0 <= j < |ps|
    requires forall k :: 0 <= k < |ps| && k != j ==> ps[k] != ps[j]
    ensures multiset(Admission(q, ps, vs, t, n))[ps[j]] ==
            multiset(q)[ps[j]] + if j < n && vs[j].arrivalTime == t && vs[j].state == New then 1 else 0
  {
    if n > 0 {
      var r := Admission(q, ps, vs, t, n - 1);
      AdmissionCount(q, ps, vs, t, n - 1, j);
      if vs[n - 1].arrivalTime == t && vs[n - 1].state == New {
        assert Admission(q, ps, vs, t, n) == r + [ps[n - 1]];
        assert multiset(r + [ps[n - 1]])[ps[j]] == multiset(r)[ps[j]] + if n - 1 == j then 1 else 0;
      } else {
        assert Admission(q, ps, vs, t, n) == r;
      }
    }
  }

  lemma AdmitKeepsTracked(v: ProcessView, h: seq<Execution>, t: int, completed: seq<int>)
    requires 0 <= t
    requires Tracked(v, h, t, t, completed)
    ensures Tracked(Admitted(v, t), h, t, t + 1, completed)
  {
  }

  /** A tick that ends without running this process. */
  lemma OtherTickKeepsTracked(v: ProcessView, h: seq<Execution>, e: seq<Execution>, t: int,
                              completed: seq<int>, completed': seq<int>)
    requires Tracked(v, h, t, t + 1, completed)
    requires |e| <= 1 && forall k :: 0 <= k < |e| ==> e[k].processId != v.processId
    requires v.processId in completed' <==> v.processId in completed
    ensures Tracked(v, h + e, t + 1, t + 1, completed')
  {
    if e != [] {
      RunTimeAppend(h, e[0], v.processId);
      LastEndAppend(h, e[0], v.processId);
      assert forall k :: 0 <= k < |h| ==> (h + e)[k] == h[k];
    } else {
      assert h + e == h;
    }
  }

  /** The running time one tick gives the selected process: `min(1, remaining_time)`. */
  function Slice(remaining: int): int
  {
    if remaining < 1 then remaining else 1
  }

  /** The ledger entry of a tick that runs v at time t. */
  function EntryOf(v: ProcessView, t: int): Execution
  {
    Execution(v.processId, t, t + Slice(v.remainingTime), Running)
  }

  /**
   * The selected process after running one slice at tick t: RUNNING with the
   * slice taken off, or, when nothing remains, TERMINATED with completion
   * time t (the clock has not yet advanced) and turnaround and waiting derived
   * from it.
   */
  function Ran(v: ProcessView, t: int): ProcessView
  {
    var r := v.remainingTime - Slice(v.remainingTime);
    if r == 0 then
      v.(state := Terminated, remainingTime := 0, completionTime := t,
         turnaroundTime := t - v.arrivalTime, waitingTime := t - v.arrivalTime - v.burstTime)
    else v.(state := Running, remainingTime := r)
  }

  lemma RunKeepsTracked(v: ProcessView, h: seq<Execution>, ids: seq<int>, t: int, completed: seq<int>)
    requires LedgerOk(h, t, ids)
    requires Tracked(v, h, t, t + 1, completed)
    requires v.state == Ready || v.state == Running
    ensures Tracked(Ran(v, t), h + [EntryOf(v, t)], t + 1, t + 1,
                    if Ran(v, t).state == Terminated then completed + [v.processId] else completed)
  {
    RunTimeAppend(h, EntryOf(v, t), v.processId);
    RunEntries(v, h, t, completed);
    RunLastEnd(v, h, ids, t, completed);
  }

  /** After the run, every entry of the process still fits the tracked shape. */
  lemma RunEntries(v: ProcessView, h: seq<Execution>, t: int, completed: seq<int>)
    requires Tracked(v, h, t, t + 1, completed)
    requires v.state == Ready || v.state == Running
    ensures var h' := h + [EntryOf(v, t)];
            var v' := Ran(v, t);
            forall k :: 0 <= k < |h'| && h'[k].processId == v.processId ==>
              && v'.state != New
              && v.arrivalTime <= h'[k].startTime
              && (v.burstTime >= 1 ==> Duration(h'[k]) == 1)
              && (v.burstTime == 0 ==> v'.state == Terminated)
  {
    var h' := h + [EntryOf(v, t)];
    assert forall k :: 0 <= k < |h| ==> h'[k] == h[k];
    if v.burstTime == 0 {
      RunTimeWithoutEntries(h, v.processId);
    }
  }

  /** A run that terminates the process leaves its last entry ending at the completion stamp, plus one for a positive burst. */
  lemma RunLastEnd(v: ProcessView, h: seq<Execution>, ids: seq<int>, t: int, completed: seq<int>)
    requires LedgerOk(h, t, ids)
    requires Tracked(v, h, t, t + 1, completed)
    requires v.state == Ready || v.state == Running
    ensures Ran(v, t).state == Terminated ==>
              && v.arrivalTime <= t
              && LastEnd(h + [EntryOf(v, t)], v.processId) == t + (if v.burstTime >= 1 then 1 else 0)
  {
    var e := EntryOf(v, t);
    LastEndAppend(h, e, v.processId);
    if v.burstTime == 0 {
      assert forall k :: 0 <= k < |h| ==> h[k].processId != v.processId;
      RunTimeWithoutEntries(h, v.processId);
      assert LastEnd(h, v.processId) == 0;
    } else {
      assert forall k :: 0 <= k < |h| && h[k].processId == v.processId ==> h[k].endTime <= t;
      assert LastEnd(h, v.processId) <= t;
    }
  }

  /** A tick adds at most its own entry to the ledger. */
  lemma LedgerStep(h: seq<Execution>, e: seq<Execution>, ids: seq<int>, t: int)
    requires LedgerOk(h, t, ids)
    requires |e| <= 1
    requires forall k :: 0 <= k < |e| ==>
               e[k].state == Running && e[k].startTime == t && 0 <= Duration(e[k]) <= 1 && e[k].processId in ids
    ensures LedgerOk(h + e, t + 1, ids)
  {
    assert forall k :: 0 <= k < |h| ==> (h + e)[k] == h[k];
  }

  /** A terminated process received exactly its burst time. */
  lemma TerminatedRanBurst(v: ProcessView, h: seq<Execution>, bound: int, admitted: int, completed: seq<int>)
    requires Tracked(v, h, bound, admitted, completed)
    requires v.state == Terminated
    ensures RunTime(h, v.processId) == v.burstTime
  {
  }

  /**
   * For a terminated process with a positive burst, the turnaround the
   * metrics compute from the ledger is one more than the one the engine
   * stamped on the process, because the stamp is taken before the clock
   * advances; the metrics' waiting time is likewise one more than the
   * engine's, and is never negative, while the engine's can be -1.
   */
  lemma {:induction false} MetricsVersusStamps(v: ProcessView, h: seq<Execution>, ids: seq<int>, bound: int,
                                               admitted: int, completed: seq<int>, p: Process)
    requires LedgerOk(h, bound, ids)
    requires Tracked(v, h, bound, admitted, completed)
    requires v.state == Terminated && v.burstTime >= 1
    requires p.processId == v.processId && p.arrivalTime == v.arrivalTime && p.burstTime == v.burstTime
    ensures Turnaround(StatsOf(p, h)) == v.turnaroundTime + 1
    ensures WaitTime(StatsOf(p, h)) == v.waitingTime + 1
    ensures WaitTime(StatsOf(p, h)) >= 0
    ensures v.waitingTime >= -1
    ensures Turnaround(StatsOf(p, h)) >= v.burstTime
  {
    var id := v.processId;
    RunTimeCountsUnitEntries(h, id);
    assert 0 <= v.arrivalTime by {
      assert v.state != New;
    }
    EntriesFitBeforeLastEnd(h, id, v.arrivalTime);
  }

  /**
   * A terminated process with burst 0 ran one empty slice at its completion
   * tick, so the metrics' turnaround and waiting times equal the stamped ones.
   */
  lemma ZeroBurstMatchesStamps(v: ProcessView, h: seq<Execution>, ids: seq<int>, bound: int,
                               admitted: int, completed: seq<int>, p: Process)
    requires LedgerOk(h, bound, ids)
    requires Tracked(v, h, bound, admitted, completed)
    requires v.state == Terminated && v.burstTime == 0
    requires p.processId == v.processId && p.arrivalTime == v.arrivalTime && p.burstTime == v.burstTime
    ensures Turnaround(StatsOf(p, h)) == v.turnaroundTime
    ensures WaitTime(StatsOf(p, h)) == v.waitingTime
  {
  }

  /** Every tick logs at most one unit, so the CPU was busy for no longer than the elapsed time. */
  lemma BusyTimeWithinElapsed(h: seq<Execution>, bound: int, ids: seq<int>)
    requires LedgerOk(h, bound, ids)
    ensures 0 <= BusyTime(h) <= bound
  {
    BusyTimeAtMostEntries(h);
    BusyTimeNonNegative(h);
  }

  lemma {:induction false} BusyTimeNonNegative(h: seq<Execution>)
    requires forall k :: 0 <= k < |h| ==> 0 <= Duration(h[k])
    ensures 0 <= BusyTime(h)
  {
    if h != [] {
      BusyTimeNonNegative(h[..|h| - 1]);
    }
  }

  /** The snapshot v is of process p: same id, arrival and burst. */
  predicate Describes(v: ProcessView, p: Process)
  {
    v.processId == p.processId && v.arrivalTime == p.arrivalTime && v.burstTime == p.burstTime
  }

  /** What a terminated process contributes to the metrics: its burst as running time, a turnaround no shorter than that, and a waiting time that is never negative. */
  lemma TerminatedStats(v: ProcessView, h: seq<Execution>, ids: seq<int>, bound: int,
                        admitted: int, completed: seq<int>, p: Process)
    requires LedgerOk(h, bound, ids)
    requires Tracked(v, h, bound, admitted, completed)
    requires v.state == Terminated && Describes(v, p)
    ensures RunTime(h, p.processId) == p.burstTime
    ensures Turnaround(StatsOf(p, h)) >= p.burstTime
    ensures WaitTime(StatsOf(p, h)) >= 0
  {
    if v.burstTime >= 1 {
      MetricsVersusStamps(v, h, ids, bound, admitted, completed, p);
    }
  }

  function TotalBurst(ps: seq<Process>): int
  {
    if ps == [] then 0 else TotalBurst(ps[..|ps| - 1]) + ps[|ps| - 1].burstTime
  }

  /**
   * Once every process has terminated: the ledger gives each exactly its
   * burst time, total turnaround is at least the summed bursts, and total
   * waiting is not negative.
   */
  lemma FinishedTotals(ps: seq<Process>, vs: seq<ProcessView>, h: seq<Execution>, ids: seq<int>,
                                          bound: int, admitted: int, completed: seq<int>)
    requires |vs| == |ps|
    requires LedgerOk(h, bound, ids)
    requires forall i :: 0 <= i < |ps| ==>
               Describes(vs[i], ps[i]) && Tracked(vs[i], h, bound, admitted, completed) && vs[i].state == Terminated
    ensures TotalRunTime(ps, h) == TotalBurst(ps)
    ensures TotalTurnaround(ps, h) >= TotalBurst(ps)
    ensures TotalWaiting(ps, h) >= 0
  {
    forall i | 0 <= i < |ps|
      ensures RunTime(h, ps[i].processId) == ps[i].burstTime
      ensures Turnaround(StatsOf(ps[i], h)) >= ps[i].burstTime && WaitTime(StatsOf(ps[i], h)) >= 0
    {
      TerminatedStats(vs[i], h, ids, bound, admitted, completed, ps[i]);
    }
    SumsOfFinished(ps, h);
  }

  /** The per-process facts of `TerminatedStats`, summed over the processes. */
  lemma {:induction false} SumsOfFinished(ps: seq<Process>, h: seq<Execution>)
    requires forall i :: 0 <= i < |ps| ==>
               && RunTime(h, ps[i].processId) == ps[i].burstTime
               && Turnaround(StatsOf(ps[i], h)) >= ps[i].burstTime
               && WaitTime(StatsOf(ps[i], h)) >= 0
    ensures TotalRunTime(ps, h) == TotalBurst(ps)
    ensures TotalTurnaround(ps, h) >= TotalBurst(ps)
    ensures TotalWaiting(ps, h) >= 0
  {
    if ps != [] {
      var n := |ps| - 1;
      SumsOfFinished(ps[..n], h);
    }
  }

  /** Number of TERMINATED snapshots. */
  function TerminatedCount(vs: seq<ProcessView>): (r: nat)
    ensures r <= |vs|
  {
    if vs == [] then 0 else TerminatedCount(vs[..|vs| - 1]) + (if vs[|vs| - 1].state == Terminated then 1 else 0)
  }

  /** As many terminations as processes means every process terminated. */
  lemma {:induction false} AllTerminatedWhenCounted(vs: seq<ProcessView>)
    requires TerminatedCount(vs) >= |vs|
    ensures forall i :: 0 <= i < |vs| ==> vs[i].state == Terminated
  {
    if vs != [] {
      var n := |vs| - 1;
      AllTerminatedWhenCounted(vs[..n]);
      assert forall i :: 0 <= i < n ==> vs[i] == vs[..n][i];
    }
  }

  lemma {:induction false} NoneTerminated(vs: seq<ProcessView>)
    requires forall i :: 0 <= i < |vs| ==> vs[i].state != Terminated
    ensures TerminatedCount(vs) == 0
  {
    if vs != [] {
      NoneTerminated(vs[..|vs| - 1]);
    }
  }

  lemma {:induction false} TerminatedCountUpdate(vs: seq<ProcessView>, i: nat, w: ProcessView)
    requires i < |vs|
    ensures TerminatedCount(vs[i := w]) ==
              TerminatedCount(vs) - (if vs[i].state == Terminated then 1 else 0) + (if w.state == Terminated then 1 else 0)
  {
    var n := |vs| - 1;
    if i < n {
      TerminatedCountUpdate(vs[..n], i, w);
      assert vs[i := w][..n] == vs[..n][i := w];
    } else {
      assert vs[i := w][..n] == vs[..n];
    }
  }

  lemma {:induction false} TerminatedCountSame(vs: seq<ProcessView>, ws: seq<ProcessView>)
    requires |vs| == |ws|
    requires forall i :: 0 <= i < |vs| ==> (vs[i].state == Terminated <==> ws[i].state == Terminated)
    ensures TerminatedCount(vs) == TerminatedCount(ws)
  {
    if vs != [] {
      var n := |vs| - 1;
      TerminatedCountSame(vs[..n], ws[..n]);
    }
  }

  /** A READY or RUNNING process: one that belongs in the ready queue. */
  predicate Active(v: ProcessView)
  {
    v.state == Ready || v.state == Running
  }

  /**
   * The engine's state between two steps of a tick: the processes of the
   * run with their snapshots, the ledger, the ready queue, the completed ids
   * and the context-switch counter.
   */
  datatype Snapshot = Snapshot(
    processes: seq<Process>, views: seq<ProcessView>, history: seq<Execution>,
    readyQueue: seq<Process>, completed: seq<int>, contextSwitches: int)

  /**
   * Everything the main loop keeps, with the ledger covering ticks before
   * `bound` and admissions done for ticks before `admitted`: unique ids, a
   * well-formed ledger whose switches are the counter, unique completed ids
   * of known processes, a ready queue holding each READY or RUNNING process
   * exactly once and nothing else, and every process tracked.
   */
  ghost predicate Consistent(s: Snapshot, bound: int, admitted: int)
  {
    Ledgered(s, bound) && Queued(s) && AllTracked(s, bound, admitted)
  }

  /** Unique ids, snapshots of those processes, a well-formed ledger counted by the switch counter, one completed id per terminated process. */
  ghost predicate Ledgered(s: Snapshot, bound: int)
  {
    && |s.views| == |s.processes|
    && 0 <= bound
    && DistinctIds(s.processes)
    && (forall i :: 0 <= i < |s.processes| ==> Describes(s.views[i], s.processes[i]))
    && LedgerOk(s.history, bound, Ids(s.processes))
    && s.contextSwitches == Switches(s.history)
    && |s.completed| == TerminatedCount(s.views)
  }

  /** The ready queue holds each READY or RUNNING process exactly once, and nothing else. */
  ghost predicate Queued(s: Snapshot)
    requires |s.views| == |s.processes|
  {
    && (forall i :: 0 <= i < |s.readyQueue| ==> s.readyQueue[i] in s.processes)
    && (forall i :: 0 <= i < |s.processes| ==>
          multiset(s.readyQueue)[s.processes[i]] == if Active(s.views[i]) then 1 else 0)
  }

  ghost predicate AllTracked(s: Snapshot, bound: int, admitted: int)
    requires |s.views| == |s.processes|
  {
    forall i :: 0 <= i < |s.processes| ==> Tracked(s.views[i], s.history, bound, admitted, s.completed)
  }

  /** The state `schedule` starts the loop from: every process reset, everything else empty. */
  function Start(ps: seq<Process>): (s: Snapshot)
    ensures |s.views| == |ps|
  {
    Snapshot(ps, seq(|ps|, i requires 0 <= i < |ps| => ResetView(ps[i].processId, ps[i].arrivalTime, ps[i].burstTime)),
             [], [], [], 0)
  }

  lemma StartConsistent(ps: seq<Process>)
    requires DistinctIds(ps)
    requires forall i :: 0 <= i < |ps| ==> ps[i].burstTime >= 0
    ensures Consistent(Start(ps), 0, 0)
  {
    var s := Start(ps);
    forall i | 0 <= i < |ps|
      ensures Tracked(s.views[i], [], 0, 0, [])
    {
      ResetTracked(ps[i].processId, ps[i].arrivalTime, ps[i].burstTime);
    }
    NoneTerminated(s.views);
  }

  /** Admission on tick t, applied to every snapshot. */
  function AdmittedViews(vs: seq<ProcessView>, t: int): (r: seq<ProcessView>)
    ensures |r| == |vs|
  {
    seq(|vs|, i requires 0 <= i < |vs| => Admitted(vs[i], t))
  }

  /** The admission step of tick t: the arrivals become READY and join the tail of the ready queue in list order. */
  function AdmitStep(s: Snapshot, t: int): Snapshot
    requires |s.views| == |s.processes|
  {
    s.(views := AdmittedViews(s.views, t), readyQueue := Admission(s.readyQueue, s.processes, s.views, t, |s.processes|))
  }

  lemma AdmitStepConsistent(s: Snapshot, t: int)
    requires Consistent(s, t, t)
    ensures Consistent(AdmitStep(s, t), t, t + 1)
  {
    var s' := AdmitStep(s, t);
    assert Ledgered(s', t) by {
      assert s'.processes == s.processes && s'.history == s.history && s'.completed == s.completed;
      TerminatedCountSame(s.views, s'.views);
      assert forall i :: 0 <= i < |s.processes| ==> Describes(s'.views[i], s.processes[i]) by {
        assert forall i :: 0 <= i < |s.processes| ==> s'.views[i] == Admitted(s.views[i], t);
      }
    }
    AdmitQueued(s, t);
    forall i | 0 <= i < |s.processes|
      ensures Tracked(s'.views[i], s.history, t, t + 1, s.completed)
    {
      AdmitKeepsTracked(s.views[i], s.history, t, s.completed);
    }
  }

  lemma AdmitQueued(s: Snapshot, t: int)
    requires Ledgered(s, t) && Queued(s)
    ensures Queued(AdmitStep(s, t))
  {
    var s' := AdmitStep(s, t);
    AdmissionListed(s.readyQueue, s.processes, s.views, t, |s.processes|);
    forall i | 0 <= i < |s.processes|
      ensures multiset(s'.readyQueue)[s.processes[i]] == if Active(s'.views[i]) then 1 else 0
    {
      assert forall k :: 0 <= k < |s.processes| && k != i ==> s.processes[k].processId != s.processes[i].processId;
      AdmissionCount(s.readyQueue, s.processes, s.views, t, |s.processes|, i);
    }
  }

  /** A policy may reorder the ready queue; any permutation keeps the state consistent. */
  lemma ReorderConsistent(s: Snapshot, q: seq<Process>, bound: int, admitted: int)
    requires Consistent(s, bound, admitted)
    requires multiset(q) == multiset(s.readyQueue)
    ensures Consistent(s.(readyQueue := q), bound, admitted)
  {
    forall i | 0 <= i < |q|
      ensures q[i] in s.processes
    {
      assert q[i] in multiset(s.readyQueue);
    }
  }

  /** The context switch an entry for process id adds after ledger h. */
  function SwitchCost(h: seq<Execution>, id: int): int
  {
    if h != [] && h[|h| - 1].processId != id then 1 else 0
  }

  /**
   * The execution step of tick t for the process at index ip: its slice is
   * logged and counted as a switch when the previous entry was another
   * process's; if it terminates, its id is completed and it leaves the ready
   * queue.
   */
  function RunStep(s: Snapshot, ip: nat, t: int): Snapshot
    requires ip < |s.views| == |s.processes|
  {
    var v := s.views[ip];
    var v' := Ran(v, t);
    var k := IndexOfId(s.readyQueue, v.processId);
    var done := v'.state == Terminated;
    Snapshot(s.processes, s.views[ip := v'], s.history + [EntryOf(v, t)],
             if done && k.Some? then RemoveAt(s.readyQueue, k.value) else s.readyQueue,
             if done then s.completed + [v.processId] else s.completed,
             s.contextSwitches + SwitchCost(s.history, v.processId))
  }

  lemma RunStepConsistent(s: Snapshot, ip: nat, t: int)
    requires Consistent(s, t, t + 1)
    requires ip < |s.processes| && Active(s.views[ip])
    ensures IndexOfId(s.readyQueue, s.views[ip].processId).Some?
    ensures Consistent(RunStep(s, ip, t), t + 1, t + 1)
  {
    assert Tracked(s.views[ip], s.history, t, t + 1, s.completed);
    RunLedgered(s, ip, t);
    RunQueued(s, ip, t);
    RunAllTracked(s, ip, t);
  }

  /** The process at ip is in the ready queue, under its own id. */
  lemma ActiveIsQueued(s: Snapshot, ip: nat)
    requires |s.views| == |s.processes| && DistinctIds(s.processes)
    requires forall i :: 0 <= i < |s.processes| ==> Describes(s.views[i], s.processes[i])
    requires Queued(s)
    requires ip < |s.processes| && Active(s.views[ip])
    ensures s.processes[ip] in s.readyQueue
    ensures var k := IndexOfId(s.readyQueue, s.views[ip].processId);
            k.Some? && s.readyQueue[k.value] == s.processes[ip]
  {
    var ps := s.processes;
    assert multiset(s.readyQueue)[ps[ip]] == 1;
    var k := IndexOfId(s.readyQueue, s.views[ip].processId);
    assert k.Some? by {
      var j :| 0 <= j < |s.readyQueue| && s.readyQueue[j] == ps[ip];
      assert s.readyQueue[j].processId == s.views[ip].processId;
    }
    SameIdSameProcess(ps, ps[ip], s.readyQueue[k.value]);
  }

  lemma RunLedgered(s: Snapshot, ip: nat, t: int)
    requires Ledgered(s, t)
    requires ip < |s.processes| && Active(s.views[ip]) && s.views[ip].remainingTime >= 0
    ensures Ledgered(RunStep(s, ip, t), t + 1)
  {
    var ps := s.processes;
    var v := s.views[ip];
    var e := EntryOf(v, t);
    var s' := RunStep(s, ip, t);
    assert |s'.completed| == TerminatedCount(s'.views) by {
      TerminatedCountUpdate(s.views, ip, Ran(v, t));
    }
    assert LedgerOk(s'.history, t + 1, Ids(ps)) by {
      assert Ids(ps)[ip] == v.processId;
      LedgerStep(s.history, [e], Ids(ps), t);
    }
    assert s'.contextSwitches == Switches(s'.history) by {
      SwitchesAppend(s.history, e);
    }
    forall i | 0 <= i < |ps|
      ensures Describes(s'.views[i], ps[i])
    {
      if i != ip {
        assert s'.views[i] == s.views[i];
      }
    }
  }

  lemma RunQueued(s: Snapshot, ip: nat, t: int)
    requires Ledgered(s, t) && Queued(s)
    requires ip < |s.processes| && Active(s.views[ip])
    ensures IndexOfId(s.readyQueue, s.views[ip].processId).Some?
    ensures Queued(RunStep(s, ip, t))
  {
    var ps := s.processes;
    var s' := RunStep(s, ip, t);
    ActiveIsQueued(s, ip);
    var k := IndexOfId(s.readyQueue, s.views[ip].processId);
    if s'.views[ip].state == Terminated {
      RemoveAtMultiset(s.readyQueue, k.value);
      forall j | 0 <= j < |s'.readyQueue|
        ensures s'.readyQueue[j] in ps
      {
        assert s'.readyQueue[j] in multiset(s.readyQueue);
      }
    }
    forall i | 0 <= i < |ps|
      ensures multiset(s'.readyQueue)[ps[i]] == if Active(s'.views[i]) then 1 else 0
    {
      if i != ip {
        assert ps[i] != ps[ip] by {
          assert ps[i].processId != ps[ip].processId;
        }
      }
    }
  }

  lemma RunAllTracked(s: Snapshot, ip: nat, t: int)
    requires Ledgered(s, t) && AllTracked(s, t, t + 1)
    requires ip < |s.processes| && Active(s.views[ip])
    ensures AllTracked(RunStep(s, ip, t), t + 1, t + 1)
  {
    var ps := s.processes;
    var v := s.views[ip];
    var e := EntryOf(v, t);
    var s' := RunStep(s, ip, t);
    forall i | 0 <= i < |ps|
      ensures Tracked(s'.views[i], s'.history, t + 1, t + 1, s'.completed)
    {
      if i == ip {
        RunKeepsTracked(v, s.history, Ids(ps), t, s.completed);
      } else {
        assert ps[i].processId != ps[ip].processId;
        OtherTickKeepsTracked(s.views[i], s.history, [e], t, s.completed, s'.completed);
      }
    }
  }

  /** A tick that runs nothing keeps the state consistent for the next tick. */
  lemma IdleConsistent(s: Snapshot, t: int)
    requires Consistent(s, t, t + 1)
    ensures Consistent(s, t + 1, t + 1)
  {
    LedgerStep(s.history, [], Ids(s.processes), t);
    assert s.history + [] == s.history;
    forall i | 0 <= i < |s.processes|
      ensures Tracked(s.views[i], s.history, t + 1, t + 1, s.completed)
    {
      OtherTickKeepsTracked(s.views[i], s.history, [], t, s.completed, s.completed);
    }
  }

  /**
   * One whole tick: admission, the policy's reordering of the ready queue
   * into q, and one slice of the process at position `run` of the list, if
   * the policy chose one.
   */
  function TickStep(s: Snapshot, t: int, q: seq<Process>, run: Option<nat>): Snapshot
    requires |s.views| == |s.processes|
    requires run.Some? ==> run.value < |s.processes|
  {
    var s' := AdmitStep(s, t).(readyQueue := q);
    if run.Some? then RunStep(s', run.value, t) else s'
  }

  /** After admission every queued process is one of the run's processes. */
  lemma AdmittedListed(s: Snapshot, t: int)
    requires Consistent(s, t, t)
    ensures forall i :: 0 <= i < |AdmitStep(s, t).readyQueue| ==> AdmitStep(s, t).readyQueue[i] in s.processes
  {
    AdmitStepConsistent(s, t);
  }

  /** A tick taken from a consistent state at the top of the loop ends in a consistent state one tick later. */
  lemma TickConsistent(s: Snapshot, t: int, q: seq<Process>, run: Option<nat>)
    requires Consistent(s, t, t)
    requires multiset(q) == multiset(AdmitStep(s, t).readyQueue)
    requires run.Some? ==> run.value < |s.processes| && s.processes[run.value] in q
    ensures Consistent(TickStep(s, t, q, run), t + 1, t + 1)
  {
    var s1 := AdmitStep(s, t);
    AdmitStepConsistent(s, t);
    ReorderConsistent(s1, q, t, t + 1);
    var s2 := s1.(readyQueue := q);
    if run.Some? {
      var ip := run.value;
      assert Active(s2.views[ip]) by {
        assert multiset(q)[s.processes[ip]] > 0;
      }
      RunStepConsistent(s2, ip, t);
    } else {
      IdleConsistent(s2, t);
    }
  }

  /**
   * What dependency mode keeps about the ledger: every completed id is a
   * process of the run, and a process has an entry only after each of its
   * dependencies completed: each dependency is a process of the run, and it
   * is TERMINATED with a completion tick before the entry starts.
   */
  ghost predicate DependenciesFirst(s: Snapshot)
    requires |s.views| == |s.processes|
  {
    && (forall c :: c in s.completed ==> c in Ids(s.processes))
    && (forall k, i :: 0 <= k < |s.history| && 0 <= i < |s.processes| && s.history[k].processId == s.processes[i].processId ==>
          forall d :: d in s.processes[i].dependencies ==> d in Ids(s.processes))
    && (forall k, i, j ::
          (&& 0 <= k < |s.history| && 0 <= i < |s.processes| && 0 <= j < |s.processes|
           && s.history[k].processId == s.processes[i].processId
           && s.processes[j].processId in s.processes[i].dependencies) ==>
            s.views[j].state == Terminated && s.views[j].completionTime < s.history[k].startTime)
  }

  /** Admission only turns NEW processes READY, so completed processes and the ledger stay as they were. */
  lemma AdmitKeepsDependenciesFirst(s: Snapshot, t: int)
    requires |s.views| == |s.processes| && DependenciesFirst(s)
    ensures DependenciesFirst(AdmitStep(s, t))
  {
    var s' := AdmitStep(s, t);
    forall j | 0 <= j < |s.processes| && s.views[j].state == Terminated
      ensures s'.views[j] == s.views[j]
    {
    }
  }

  /**
   * What running a process on tick t needs of the state for the dependency
   * order: unique ids, snapshots of those processes, and every completed
   * process TERMINATED on a tick before t.
   */
  ghost predicate CompletedBefore(s: Snapshot, t: int)
  {
    && |s.views| == |s.processes| && DistinctIds(s.processes)
    && (forall i :: 0 <= i < |s.processes| ==> Describes(s.views[i], s.processes[i]))
    && (forall j :: 0 <= j < |s.processes| && s.views[j].processId in s.completed ==>
          s.views[j].state == Terminated && s.views[j].completionTime < t)
  }

  lemma ConsistentCompletedBefore(s: Snapshot, bound: int, admitted: int)
    requires Consistent(s, bound, admitted)
    ensures CompletedBefore(s, bound)
  {
    forall j | 0 <= j < |s.processes| && s.views[j].processId in s.completed
      ensures s.views[j].state == Terminated && s.views[j].completionTime < bound
    {
      assert Tracked(s.views[j], s.history, bound, admitted, s.completed);
    }
  }

  /**
   * Running the process at ip on tick t keeps the dependency order when every
   * dependency of that process has completed: each one is then a TERMINATED
   * process whose completion tick is before t.
   */
  lemma RunKeepsDependenciesFirst(s: Snapshot, ip: nat, t: int)
    requires CompletedBefore(s, t) && DependenciesFirst(s)
    requires ip < |s.processes| && Active(s.views[ip])
    requires s.processes[ip].CanExecute(s.completed)
    ensures DependenciesFirst(RunStep(s, ip, t))
  {
    var ps := s.processes;
    var s' := RunStep(s, ip, t);
    var n := |s.history|;
    assert s'.history == s.history + [EntryOf(s.views[ip], t)];
    assert Ids(ps)[ip] == s.views[ip].processId;
    forall c | c in s'.completed
      ensures c in Ids(ps)
    {
    }
    forall k, i | 0 <= k < |s'.history| && 0 <= i < |ps| && s'.history[k].processId == ps[i].processId
      ensures forall d :: d in ps[i].dependencies ==> d in Ids(ps)
    {
      if k < n {
        assert s'.history[k] == s.history[k];
      } else {
        assert i == ip by {
          assert ps[i].processId == ps[ip].processId;
        }
        forall d | d in ps[i].dependencies
          ensures d in Ids(ps)
        {
          var x :| 0 <= x < |ps[ip].dependencies| && ps[ip].dependencies[x] == d;
        }
      }
    }
    forall k, i, j | 0 <= k < |s'.history| && 0 <= i < |ps| && 0 <= j < |ps|
        && s'.history[k].processId == ps[i].processId && ps[j].processId in ps[i].dependencies
      ensures s'.views[j].state == Terminated && s'.views[j].completionTime < s'.history[k].startTime
    {
      if k < n {
        assert s'.history[k] == s.history[k];
      } else {
        assert i == ip by {
          assert ps[i].processId == ps[ip].processId;
        }
        var x :| 0 <= x < |ps[ip].dependencies| && ps[ip].dependencies[x] == ps[j].processId;
        assert s.views[j].processId in s.completed;
      }
      assert j != ip;
    }
  }

  /** In a consistent state, the facts the run lemma needs hold, and every queued process is active. */
  lemma RunnableFacts(s: Snapshot, t: int)
    requires Consistent(s, t, t + 1)
    ensures CompletedBefore(s, t)
    ensures forall i :: 0 <= i < |s.processes| && s.processes[i] in s.readyQueue ==> Active(s.views[i])
  {
    ConsistentCompletedBefore(s, t, t + 1);
    forall i | 0 <= i < |s.processes| && s.processes[i] in s.readyQueue
      ensures Active(s.views[i])
    {
      assert multiset(s.readyQueue)[s.processes[i]] > 0;
    }
  }

  /** After admission and the policy's reordering q, the run lemma's facts hold of the reordered state. */
  lemma ReorderedRunnable(s: Snapshot, t: int, q: seq<Process>)
    requires Consistent(s, t, t)
    requires multiset(q) == multiset(AdmitStep(s, t).readyQueue)
    ensures var s2 := AdmitStep(s, t).(readyQueue := q);
      && CompletedBefore(s2, t)
      && (forall i :: 0 <= i < |s2.processes| && s2.processes[i] in q ==> Active(s2.views[i]))
  {
    AdmitStepConsistent(s, t);
    ReorderConsistent(AdmitStep(s, t), q, t, t + 1);
    RunnableFacts(AdmitStep(s, t).(readyQueue := q), t);
  }

  /**
   * A whole tick keeps the dependency order when the process it runs, if any,
   * is active after admission and had every dependency completed (the state
   * facts come from `ReorderedRunnable`).
   */
  lemma TickKeepsDependenciesFirst(s: Snapshot, t: int, q: seq<Process>, run: Option<nat>)
    requires |s.views| == |s.processes| && DependenciesFirst(s)
    requires run.Some? ==> run.value < |s.processes|
    requires run.Some? ==> CompletedBefore(AdmitStep(s, t).(readyQueue := q), t)
    requires run.Some? ==> Active(AdmitStep(s, t).views[run.value])
    requires run.Some? ==> s.processes[run.value].CanExecute(s.completed)
    ensures DependenciesFirst(TickStep(s, t, q, run))
  {
    var s2 := AdmitStep(s, t).(readyQueue := q);
    AdmitKeepsDependenciesFirst(s, t);
    assert DependenciesFirst(s2) by {
      assert s2.views == AdmitStep(s, t).views && s2.completed == s.completed;
    }
    if run.Some? {
      RunKeepsDependenciesFirst(s2, run.value, t);
    }
  }
}
