/**
 * Dependency-aware selection (src/schedulers/ipc.py): a reverse-dependency
 * graph over the scheduled processes, a depth-first chain length over it, and
 * a choice among the processes whose dependencies have all completed.
 */
module Ipc {
  import opened Processes

  /** The ids of a list of processes. */
  function PidSet(ps: seq<Process>): set<int>
  {
    set i | 0 <= i < |ps| :: ps[i].processId
  }

  /** The ids of the processes that list `id` among their dependencies. */
  function DependentsOf(ps: seq<Process>, id: int): set<int>
  {
    set i | 0 <= i < |ps| && id in ps[i].dependencies :: ps[i].processId
  }

  lemma PidSetSnoc(ps: seq<Process>, p: Process)
    ensures PidSet(ps + [p]) == PidSet(ps) + {p.processId}
  {
    var qs := ps + [p];
    assert forall k :: 0 <= k < |ps| ==> qs[k] == ps[k];
    assert qs[|ps|] == p;
  }

  lemma DependentsOfSnoc(ps: seq<Process>, p: Process, id: int)
    ensures DependentsOf(ps + [p], id) == DependentsOf(ps, id) + (if id in p.dependencies then {p.processId} else {})
  {
    var qs := ps + [p];
    assert forall k :: 0 <= k < |ps| ==> qs[k] == ps[k];
    assert qs[|ps|] == p;
  }

  /** A non-empty set has a member to pick. */
  lemma NonEmptyHasMember(s: set<int>)
    requires s != {}
    ensures exists d :: d in s
  {
    if forall d :: d !in s {
      assert false;
    }
  }

  /** A graph mapping each process id to its dependents' ids only names processes of the list. */
  lemma DependentsAreNodes(ps: seq<Process>, graph: map<int, set<int>>)
    requires graph.Keys == PidSet(ps)
    requires forall id :: id in graph ==> graph[id] == DependentsOf(ps, id)
    ensures Closed(graph)
  {
    forall id, d | id in graph && d in graph[id]
      ensures d in graph
    {
      var k :| 0 <= k < |ps| && id in ps[k].dependencies && ps[k].processId == d;
    }
  }

  /** Every dependent recorded in the graph is itself a node of the graph. */
  predicate Closed(graph: map<int, set<int>>)
  {
    forall id, d :: id in graph && d in graph[id] ==> d in graph
  }

  predicate Distinct(path: seq<int>)
  {
    forall i, j :: 0 <= i < j < |path| ==> path[i] != path[j]
  }

  /** A path through the graph: each node after the first depends on the one before it. */
  predicate IsChain(graph: map<int, set<int>>, path: seq<int>)
  {
    && (forall k :: 0 <= k < |path| ==> path[k] in graph)
    && (forall k :: 0 <= k < |path| - 1 ==> path[k + 1] in graph[path[k]])
  }

  /** A path without repeated nodes fits inside any set holding all its nodes. */
  lemma {:induction false} DistinctPathWithin(path: seq<int>, s: set<int>)
    requires Distinct(path)
    requires forall k :: 0 <= k < |path| ==> path[k] in s
    ensures |path| <= |s|
  {
    if path != [] {
      var rest := path[1..];
      forall k | 0 <= k < |rest|
        ensures rest[k] in s - {path[0]}
      {
        assert rest[k] == path[k + 1];
      }
      DistinctPathWithin(rest, s - {path[0]});
    }
  }

  /** The processes of q whose dependencies have all completed, in queue order. */
  function EligibleList(q: seq<Process>, completed: seq<int>): (r: seq<Process>)
    ensures |r| <= |q|
    ensures forall i :: 0 <= i < |r| ==> r[i] in q && r[i].CanExecute(completed)
    ensures r == [] <==> forall j :: 0 <= j < |q| ==> !q[j].CanExecute(completed)
  {
    if q == [] then []
    else
      var init := q[..|q| - 1];
      var r := EligibleList(init, completed);
      assert forall j :: 0 <= j < |init| ==> init[j] == q[j];
      r + (if q[|q| - 1].CanExecute(completed) then [q[|q| - 1]] else [])
  }

  /** Every process of q whose dependencies are done is in the list, as often as in q; no other process is. */
  lemma {:induction false} EligibleListCount(q: seq<Process>, completed: seq<int>, p: Process)
    ensures multiset(EligibleList(q, completed))[p] == if p.CanExecute(completed) then multiset(q)[p] else 0
  {
    if q != [] {
      var init := q[..|q| - 1];
      EligibleListCount(init, completed, p);
      assert q == init + [q[|q| - 1]];
    }
  }

  /** Filtering keeps queue order: the eligible processes of a prefix of q come first, in the same order. */
  lemma {:induction false} EligibleListKeepsOrder(q: seq<Process>, completed: seq<int>, j: nat)
    requires j <= |q|
    ensures EligibleList(q[..j], completed) <= EligibleList(q, completed)
    decreases |q|
  {
    if j < |q| {
      var init := q[..|q| - 1];
      EligibleListKeepsOrder(init, completed, j);
      assert init[..j] == q[..j];
    } else {
      assert q[..j] == q;
    }
  }

  /** The processes of ps without dependencies, in order. */
  function IndependentList(ps: seq<Process>): (r: seq<Process>)
    ensures |r| <= |ps|
    ensures forall i :: 0 <= i < |r| ==> r[i] in ps && r[i].dependencies == []
    ensures r == [] <==> forall j :: 0 <= j < |ps| ==> ps[j].dependencies != []
  {
    if ps == [] then []
    else
      var init := ps[..|ps| - 1];
      var r := IndependentList(init);
      assert forall j :: 0 <= j < |init| ==> init[j] == ps[j];
      r + (if ps[|ps| - 1].dependencies == [] then [ps[|ps| - 1]] else [])
  }

  /** Every process of ps without dependencies is in the list, as often as in ps; no other process is. */
  lemma {:induction false} IndependentListCount(ps: seq<Process>, p: Process)
    ensures multiset(IndependentList(ps))[p] == if p.dependencies == [] then multiset(ps)[p] else 0
  {
    if ps != [] {
      var init := ps[..|ps| - 1];
      IndependentListCount(init, p);
      assert ps == init + [ps[|ps| - 1]];
    }
  }

  /** Filtering keeps list order: the independent processes of a prefix of ps come first, in the same order. */
  lemma {:induction false} IndependentListKeepsOrder(ps: seq<Process>, j: nat)
    requires j <= |ps|
    ensures IndependentList(ps[..j]) <= IndependentList(ps)
    decreases |ps|
  {
    if j < |ps| {
      var init := ps[..|ps| - 1];
      IndependentListKeepsOrder(init, j);
      assert init[..j] == ps[..j];
    } else {
      assert ps[..j] == ps;
    }
  }

  /** A ranking tuple, compared lexicographically as Python compares tuples. */
  datatype Key = Key(chain: int, dependents: int, negArrival: int)

  predicate KeyLess(a: Key, b: Key)
  {
    || a.chain < b.chain
    || (a.chain == b.chain && a.dependents < b.dependents)
    || (a.chain == b.chain && a.dependents == b.dependents && a.negArrival < b.negArrival)
  }

  /**
   * Python's `max` with a key: the first position whose key no other key
   * exceeds, since a later key replaces the running maximum only when it is
   * strictly greater.
   */
  function FirstMaxIndex(keys: seq<Key>): (r: nat)
    requires keys != []
    ensures r < |keys|
    ensures forall j :: 0 <= j < |keys| ==> !KeyLess(keys[r], keys[j])
    ensures forall j :: 0 <= j < r ==> KeyLess(keys[j], keys[r])
  {
    if |keys| == 1 then 0
    else
      var m := FirstMaxIndex(keys[..|keys| - 1]);
      assert forall j :: 0 <= j < |keys| - 1 ==> keys[..|keys| - 1][j] == keys[j];
      if KeyLess(keys[m], keys[|keys| - 1]) then |keys| - 1 else m
  }

  /** The key of an independent process: how many processes wait on it, then earliest arrival. */
  function IndependentKeys(graph: map<int, set<int>>, ps: seq<Process>): (r: seq<Key>)
    requires forall i :: 0 <= i < |ps| ==> ps[i].processId in graph
    ensures |r| == |ps|
    ensures forall i :: 0 <= i < |ps| ==> r[i] == Key(0, |graph[ps[i].processId]|, -ps[i].arrivalTime)
  {
    seq(|ps|, i requires 0 <= i < |ps| => Key(0, |graph[ps[i].processId]|, -ps[i].arrivalTime))
  }

  /** The key of a dependent process: its chain length, then its dependent count, then earliest arrival. */
  function ChainKeys(graph: map<int, set<int>>, ps: seq<Process>, chains: seq<nat>): (r: seq<Key>)
    requires |chains| == |ps|
    requires forall i :: 0 <= i < |ps| ==> ps[i].processId in graph
    ensures |r| == |ps|
    ensures forall i :: 0 <= i < |ps| ==> r[i] == Key(chains[i], |graph[ps[i].processId]|, -ps[i].arrivalTime)
  {
    seq(|ps|, i requires 0 <= i < |ps| => Key(chains[i], |graph[ps[i].processId]|, -ps[i].arrivalTime))
  }

  /**
   * The independent process `max` picks from queue q has a key no queued
   * process without dependencies exceeds: such a process may always run, so
   * the filters keep it.
   */
  lemma IndependentChoiceIsMaximal(graph: map<int, set<int>>, q: seq<Process>, completed: seq<int>, j: nat)
    requires forall i :: 0 <= i < |q| && q[i].CanExecute(completed) ==> q[i].processId in graph
    requires j < |q| && q[j].dependencies == []
    ensures var independent := IndependentList(EligibleList(q, completed));
            && independent != []
            && var r := independent[FirstMaxIndex(IndependentKeys(graph, independent))];
               !KeyLess(Key(0, |graph[r.processId]|, -r.arrivalTime), Key(0, |graph[q[j].processId]|, -q[j].arrivalTime))
  {
    ghost var independent := IndependentList(EligibleList(q, completed));
    IndependentFound(q, completed, j);
    IndependentInGraph(graph, q, completed);
    FirstMaxOfIndependent(graph, independent, q[j]);
    ghost var r := independent[FirstMaxIndex(IndependentKeys(graph, independent))];
    assert !KeyLess(Key(0, |graph[r.processId]|, -r.arrivalTime), Key(0, |graph[q[j].processId]|, -q[j].arrivalTime));
  }

  /** A queued process without dependencies is among the independent eligible ones. */
  lemma IndependentFound(q: seq<Process>, completed: seq<int>, j: nat)
    requires j < |q| && q[j].dependencies == []
    ensures q[j] in IndependentList(EligibleList(q, completed))
  {
    var e := EligibleList(q, completed);
    CanExecuteIffAllDependenciesCompleted(q[j], completed);
    EligibleListCount(q, completed, q[j]);
    assert q[j] in multiset(q);
    assert q[j] in e;
    IndependentListCount(e, q[j]);
    assert q[j] in multiset(IndependentList(e));
  }

  /** The independent eligible processes of q are nodes of the graph when the eligible ones are. */
  lemma IndependentInGraph(graph: map<int, set<int>>, q: seq<Process>, completed: seq<int>)
    requires forall i :: 0 <= i < |q| && q[i].CanExecute(completed) ==> q[i].processId in graph
    ensures var independent := IndependentList(EligibleList(q, completed));
            forall i :: 0 <= i < |independent| ==> independent[i].processId in graph
  {
    var e := EligibleList(q, completed);
    var independent := IndependentList(e);
    forall i | 0 <= i < |independent|
      ensures independent[i].processId in graph
    {
      var x := independent[i];
      var n :| 0 <= n < |e| && e[n] == x;
      var m :| 0 <= m < |q| && q[m] == x;
    }
  }

  /** The key of the first maximum of a list is not below the key of any member. */
  lemma FirstMaxOfIndependent(graph: map<int, set<int>>, ps: seq<Process>, x: Process)
    requires forall i :: 0 <= i < |ps| ==> ps[i].processId in graph
    requires x in ps
    ensures var r := ps[FirstMaxIndex(IndependentKeys(graph, ps))];
            !KeyLess(Key(0, |graph[r.processId]|, -r.arrivalTime), Key(0, |graph[x.processId]|, -x.arrivalTime))
  {
    var keys := IndependentKeys(graph, ps);
    var m := FirstMaxIndex(keys);
    var k :| 0 <= k < |ps| && ps[k] == x;
    assert !KeyLess(keys[m], keys[k]);
  }

  class IpcScheduler {
    /** process id -> ids of the processes that depend on it */
    var dependencyGraph: map<int, set<int>>
    /** process id -> the process record */
    var processInfo: map<int, Process>

    ghost predicate Valid()
      reads this
    {
      Closed(dependencyGraph)
    }

    constructor ()
      ensures Valid()
      ensures dependencyGraph == map[] && processInfo == map[]
    {
      dependencyGraph := map[];
      processInfo := map[];
    }

    /**
     * `build_dependency_graph`: forget the previous graph, make a node for every
     * given process, and record each process under every dependency id that
     * is itself a node; dependency ids of unknown processes are skipped.
     */
    method BuildDependencyGraph(processes: seq<Process>)
      modifies this
      ensures Valid()
      ensures dependencyGraph.Keys == PidSet(processes)
      ensures forall id :: id in dependencyGraph ==> dependencyGraph[id] == DependentsOf(processes, id)
      ensures processInfo.Keys == PidSet(processes)
      ensures forall id :: id in processInfo ==> processInfo[id] in processes && processInfo[id].processId == id
    {
      dependencyGraph := map[];
      processInfo := map[];
      AddNodes(processes);
      AddEdges(processes);
      DependentsAreNodes(processes, dependencyGraph);
    }

    /** The first loop of `build_dependency_graph`: a node with no dependents, and an info entry, per process. */
    method AddNodes(processes: seq<Process>)
      requires dependencyGraph == map[] && processInfo == map[]
      modifies this`dependencyGraph, this`processInfo
      ensures dependencyGraph.Keys == PidSet(processes) == processInfo.Keys
      ensures forall id :: id in dependencyGraph ==> dependencyGraph[id] == {}
      ensures forall id :: id in processInfo ==> processInfo[id] in processes && processInfo[id].processId == id
    {
      var i := 0;
      while i < |processes|
        invariant 0 <= i <= |processes|
        invariant dependencyGraph.Keys == PidSet(processes[..i]) == processInfo.Keys
        invariant forall id :: id in dependencyGraph ==> dependencyGraph[id] == {}
        invariant forall id :: id in processInfo ==> processInfo[id] in processes && processInfo[id].processId == id
      {
        var p := processes[i];
        assert processes[..i + 1] == processes[..i] + [p];
        PidSetSnoc(processes[..i], p);
        dependencyGraph := dependencyGraph[p.processId := {}];
        processInfo := processInfo[p.processId := p];
        i := i + 1;
      }
      assert processes[..i] == processes;
    }

    /** The second loop of `build_dependency_graph`: each process recorded under its dependencies that are nodes. */
    method AddEdges(processes: seq<Process>)
      requires forall id :: id in dependencyGraph ==> dependencyGraph[id] == {}
      modifies this`dependencyGraph
      ensures dependencyGraph.Keys == old(dependencyGraph.Keys)
      ensures forall id :: id in dependencyGraph ==> dependencyGraph[id] == DependentsOf(processes, id)
    {
      var i := 0;
      while i < |processes|
        invariant 0 <= i <= |processes|
        invariant dependencyGraph.Keys == old(dependencyGraph.Keys)
        invariant forall id :: id in dependencyGraph ==> dependencyGraph[id] == DependentsOf(processes[..i], id)
      {
        var p := processes[i];
        RecordDependent(p);
        assert processes[..i + 1] == processes[..i] + [p];
        forall id | id in dependencyGraph
          ensures dependencyGraph[id] == DependentsOf(processes[..i + 1], id)
        {
          DependentsOfSnoc(processes[..i], p, id);
        }
        i := i + 1;
      }
      assert processes[..i] == processes;
    }

    /** The inner loop of `build_dependency_graph`: add p under each of its dependencies that is a node. */
    method RecordDependent(p: Process)
      modifies this`dependencyGraph
      ensures dependencyGraph.Keys == old(dependencyGraph.Keys)
      ensures forall id :: id in dependencyGraph ==>
                dependencyGraph[id] == old(dependencyGraph[id]) + (if id in p.dependencies then {p.processId} else {})
    {
      var j := 0;
      while j < |p.dependencies|
        invariant 0 <= j <= |p.dependencies|
        invariant dependencyGraph.Keys == old(dependencyGraph.Keys)
        invariant forall id :: id in dependencyGraph ==>
                    dependencyGraph[id] == old(dependencyGraph[id]) + (if id in p.dependencies[..j] then {p.processId} else {})
      {
        var depId := p.dependencies[j];
        assert p.dependencies[..j + 1] == p.dependencies[..j] + [depId];
        if depId in dependencyGraph {
          dependencyGraph := dependencyGraph[depId := dependencyGraph[depId] + {p.processId}];
        }
        j := j + 1;
      }
      assert p.dependencies[..j] == p.dependencies;
    }

    /**
     * `get_dependency_chain_length`: 0 for an id already visited; otherwise the
     * id is marked visited and the result is one more than the longest chain
     * found among its dependents, searched in any order with the visited set
     * shared across the whole search (so every node is entered at most once
     * and the search ends even on a cyclic graph). The result is the length
     * of a real dependency chain starting at the id and made of nodes this
     * call visited.
     */
    method GetDependencyChainLength(id: int, visited: set<int>)
      returns (length: nat, visitedAfter: set<int>, ghost chain: seq<int>)
      requires Valid()
      requires id in visited || id in dependencyGraph
      ensures visited <= visitedAfter <= visited + dependencyGraph.Keys
      ensures id in visited ==> length == 0 && visitedAfter == visited
      ensures id !in visited ==> id in visitedAfter && 1 <= length <= |visitedAfter - visited|
      ensures id !in visited && dependencyGraph[id] <= visited + {id} ==> length == 1
      ensures |chain| == length && IsChain(dependencyGraph, chain) && Distinct(chain)
      ensures length > 0 ==> chain[0] == id
      ensures forall k :: 0 <= k < |chain| ==> chain[k] in visitedAfter - visited
      decreases dependencyGraph.Keys - visited
    {
      if id in visited {
        return 0, visited, [];
      }
      visitedAfter := visited + {id};
      var maxChain: nat := 0;
      ghost var best: seq<int> := [];
      var remaining := dependencyGraph[id];
      while remaining != {}
        invariant remaining <= dependencyGraph[id]
        invariant visited + {id} <= visitedAfter <= visited + dependencyGraph.Keys
        invariant |best| == maxChain
        invariant IsChain(dependencyGraph, best) && Distinct(best)
        invariant best != [] ==> best[0] in dependencyGraph[id]
        invariant forall k :: 0 <= k < |best| ==> best[k] in visitedAfter - visited - {id}
        invariant dependencyGraph[id] <= visited + {id} ==> maxChain == 0
        decreases remaining
      {
        NonEmptyHasMember(remaining);
        var dependentId :| dependentId in remaining;
        remaining := remaining - {dependentId};
        assert dependencyGraph.Keys - visitedAfter < dependencyGraph.Keys - visited by {
          assert id in dependencyGraph.Keys - visited;
        }
        var chainLength, after, path := GetDependencyChainLength(dependentId, visitedAfter);
        if chainLength > maxChain {
          maxChain := chainLength;
          best := path;
        }
        visitedAfter := after;
      }
      length := maxChain + 1;
      chain := [id] + best;
      forall k | 0 <= k < |chain| - 1
        ensures chain[k + 1] in dependencyGraph[chain[k]]
      {
        if k > 0 {
          assert chain[k] == best[k - 1] && chain[k + 1] == best[k];
        }
      }
      DistinctPathWithin(chain, visitedAfter - visited);
    }

    /** path is a dependency chain of exactly `length` distinct processes that starts at id. */
    ghost predicate ChainWitness(id: int, length: nat, path: seq<int>)
      reads this
    {
      |path| == length > 0 && path[0] == id && IsChain(dependencyGraph, path) && Distinct(path)
    }

    /**
     * The keys `max` computes for the candidates when none is independent:
     * each candidate's chain length, searched with a fresh visited set, its
     * dependent count and its negated arrival time.
     */
    method ChainRanking(candidates: seq<Process>) returns (keys: seq<Key>, ghost chains: seq<nat>, ghost paths: seq<seq<int>>)
      requires Valid()
      requires forall i :: 0 <= i < |candidates| ==> candidates[i].processId in dependencyGraph
      ensures |chains| == |candidates| && |paths| == |candidates|
      ensures forall i :: 0 <= i < |candidates| ==> 1 <= chains[i] <= |dependencyGraph|
      ensures forall i :: 0 <= i < |candidates| ==> ChainWitness(candidates[i].processId, chains[i], paths[i])
      ensures forall i :: 0 <= i < |candidates| && dependencyGraph[candidates[i].processId] <= {candidates[i].processId} ==>
                chains[i] == 1
      ensures keys == ChainKeys(dependencyGraph, candidates, chains)
    {
      keys, chains, paths := [], [], [];
      var i := 0;
      while i < |candidates|
        invariant 0 <= i <= |candidates|
        invariant |chains| == i && |keys| == i && |paths| == i
        invariant forall k :: 0 <= k < i ==> 1 <= chains[k] <= |dependencyGraph|
        invariant forall k :: 0 <= k < i ==> ChainWitness(candidates[k].processId, chains[k], paths[k])
        invariant forall k :: 0 <= k < i && dependencyGraph[candidates[k].processId] <= {candidates[k].processId} ==>
                    chains[k] == 1
        invariant forall k :: 0 <= k < i ==>
                    keys[k] == Key(chains[k], |dependencyGraph[candidates[k].processId]|, -candidates[k].arrivalTime)
      {
        var key, length, chain := CandidateKey(candidates[i]);
        chains, paths, keys := chains + [length], paths + [chain], keys + [key];
        i := i + 1;
      }
    }

    /** One candidate's key: its chain length from a fresh search, its dependent count and its negated arrival. */
    method CandidateKey(p: Process) returns (key: Key, ghost length: nat, ghost chain: seq<int>)
      requires Valid() && p.processId in dependencyGraph
      ensures 1 <= length <= |dependencyGraph| && ChainWitness(p.processId, length, chain)
      ensures dependencyGraph[p.processId] <= {p.processId} ==> length == 1
      ensures key == Key(length, |dependencyGraph[p.processId]|, -p.arrivalTime)
    {
      var n, _, c := GetDependencyChainLength(p.processId, {});
      DistinctPathWithin(c, dependencyGraph.Keys);
      length, chain := n, c;
      key := Key(n, |dependencyGraph[p.processId]|, -p.arrivalTime);
    }

    /**
     * `IPCScheduler.get_next_process`. Dependencies are always checked. Among
     * the processes that may run, one without dependencies wins if there is
     * any: the first with the most dependents, then the earliest arrival.
     * Otherwise every candidate's chain length is searched with a fresh
     * visited set and the first maximum of (chain length, dependents, earliest
     * arrival) wins. The chain lengths, which depend on the order the search
     * takes, come back as a ghost result.
     */
    method GetNextProcess(readyQueue: seq<Process>, completed: seq<int>)
      returns (r: Process?, ghost chains: seq<nat>, ghost paths: seq<seq<int>>)
      requires Valid()
      requires forall i :: 0 <= i < |readyQueue| && readyQueue[i].CanExecute(completed) ==>
                 readyQueue[i].processId in dependencyGraph
      ensures r == null <==> forall i :: 0 <= i < |readyQueue| ==> !readyQueue[i].CanExecute(completed)
      ensures r != null ==> r in readyQueue && r.CanExecute(completed)
      ensures var e := EligibleList(readyQueue, completed);
              var independent := IndependentList(e);
              independent != [] ==> r == independent[FirstMaxIndex(IndependentKeys(dependencyGraph, independent))]
      ensures var e := EligibleList(readyQueue, completed);
              e != [] && IndependentList(e) == [] ==>
                && |chains| == |e| && |paths| == |e|
                && (forall i :: 0 <= i < |e| ==> 1 <= chains[i] <= |dependencyGraph|)
                && (forall i :: 0 <= i < |e| ==> ChainWitness(e[i].processId, chains[i], paths[i]))
                && (forall i :: 0 <= i < |e| && dependencyGraph[e[i].processId] <= {e[i].processId} ==> chains[i] == 1)
                && r == e[FirstMaxIndex(ChainKeys(dependencyGraph, e, chains))]
    {
      chains, paths := [], [];
      if readyQueue == [] {
        return null, chains, paths;
      }
      var eligible := EligibleList(readyQueue, completed);
      if eligible == [] {
        return null, chains, paths;
      }
      var independent := IndependentList(eligible);
      if independent != [] {
        r := independent[FirstMaxIndex(IndependentKeys(dependencyGraph, independent))];
        return r, chains, paths;
      }
      assert forall k :: 0 <= k < |eligible| ==> eligible[k].processId in dependencyGraph by {
        forall k | 0 <= k < |eligible|
          ensures eligible[k].processId in dependencyGraph
        {
          var j :| 0 <= j < |readyQueue| && readyQueue[j] == eligible[k];
        }
      }
      var keys;
      keys, chains, paths := ChainRanking(eligible);
      r := eligible[FirstMaxIndex(keys)];
    }
  }
}
