/**
 * The Python list operations the schedulers apply to lists of processes.
 * Process ids are unique, so `x in q` and `q.remove(x)` compare by id.
 */
module ProcessLists {
  import opened Wrappers
  import opened Processes

  function Ids(q: seq<Process>): seq<int>
  {
    seq(|q|, i requires 0 <= i < |q| => q[i].processId)
  }

  predicate DistinctIds(q: seq<Process>)
  {
    forall i, j :: 0 <= i < j < |q| ==> q[i].processId != q[j].processId
  }

  /** Position of the first process with this id (`x in q` holds exactly when there is one). */
  function IndexOfId(q: seq<Process>, id: int): (r: Option<nat>)
    ensures r.None? <==> forall j :: 0 <= j < |q| ==> q[j].processId != id
    ensures r.Some? ==> r.value < |q| && q[r.value].processId == id
    ensures r.Some? ==> forall j :: 0 <= j < r.value ==> q[j].processId != id
  {
    if q == [] then None
    else if q[0].processId == id then Some(0)
    else
      match IndexOfId(q[1..], id)
      case None => None
      case Some(k) => Some(k + 1)
  }

  function RemoveAt(q: seq<Process>, i: nat): seq<Process>
    requires i < |q|
  {
    q[..i] + q[i + 1..]
  }

  /** `q.remove(x); q.append(x)` for the element at position i. */
  function MoveToBack(q: seq<Process>, i: nat): seq<Process>
    requires i < |q|
  {
    RemoveAt(q, i) + [q[i]]
  }

  /** The list after k times `q.append(q.pop(0))`. */
  function Rotate(q: seq<Process>, k: nat): seq<Process>
    requires k <= |q|
  {
    q[k..] + q[..k]
  }

  /** Position of the first process that may run; without dependency mode that is the head. */
  function FirstEligibleIndex(q: seq<Process>, completed: seq<int>, useIpc: bool): (r: Option<nat>)
    ensures r.None? <==> forall j :: 0 <= j < |q| ==> !Eligible(q[j], completed, useIpc)
    ensures r.Some? ==> r.value < |q| && Eligible(q[r.value], completed, useIpc)
    ensures r.Some? ==> forall j :: 0 <= j < r.value ==> !Eligible(q[j], completed, useIpc)
    ensures !useIpc && q != [] ==> r == Some(0)
  {
    if q == [] then None
    else if Eligible(q[0], completed, useIpc) then Some(0)
    else
      match FirstEligibleIndex(q[1..], completed, useIpc)
      case None => None
      case Some(k) => Some(k + 1)
  }

  lemma RemoveAtMultiset(q: seq<Process>, i: nat)
    requires i < |q|
    ensures multiset(RemoveAt(q, i)) == multiset(q) - multiset{q[i]}
  {
    assert q == q[..i] + [q[i]] + q[i + 1..];
  }

  lemma MoveToBackIsPermutation(q: seq<Process>, i: nat)
    requires i < |q|
    ensures multiset(MoveToBack(q, i)) == multiset(q)
    ensures |MoveToBack(q, i)| == |q|
    ensures MoveToBack(q, i)[|q| - 1] == q[i]
  {
    RemoveAtMultiset(q, i);
  }

  lemma RotateIsPermutation(q: seq<Process>, k: nat)
    requires k <= |q|
    ensures multiset(Rotate(q, k)) == multiset(q)
    ensures |Rotate(q, k)| == |q|
  {
    assert q == q[..k] + q[k..];
  }

  /** One more `q.append(q.pop(0))` turns Rotate(q, k) into Rotate(q, k + 1). */
  lemma RotateStep(q: seq<Process>, k: nat)
    requires k < |q|
    ensures Rotate(q, k)[0] == q[k]
    ensures Rotate(q, k + 1) == Rotate(q, k)[1..] + [Rotate(q, k)[0]]
  {
    assert q[..k + 1] == q[..k] + [q[k]];
  }

  lemma RotateEnds(q: seq<Process>)
    ensures Rotate(q, 0) == q && Rotate(q, |q|) == q
  {
  }

  /** With unique ids a process occurs at most once, and an id names one process. */
  lemma DistinctIdsOccurrence(q: seq<Process>, p: Process)
    requires DistinctIds(q)
    ensures multiset(q)[p] <= 1
  {
    if q != [] {
      assert q == [q[0]] + q[1..];
      DistinctIdsOccurrence(q[1..], p);
      if q[0] == p {
        assert forall j :: 1 <= j < |q| ==> q[j].processId != p.processId;
        assert multiset(q[1..])[p] == 0;
      }
    }
  }

  lemma SameIdSameProcess(q: seq<Process>, p: Process, r: Process)
    requires DistinctIds(q) && p in q && r in q && p.processId == r.processId
    ensures p == r
  {
    var i :| 0 <= i < |q| && q[i] == p;
    var j :| 0 <= j < |q| && q[j] == r;
    assert !(i < j) && !(j < i);
  }

  /** One policy call's outcome: the position it selects, if any, and the process id it remembers afterwards. */
  datatype Selection = Selection(selected: Option<nat>, current: Option<int>)

  /** The list after `q.remove(current); q.append(current)` when the remembered process is in it. */
  function Requeued(current: Option<int>, q: seq<Process>): (r: seq<Process>)
    ensures multiset(r) == multiset(q) && |r| == |q|
    ensures current.Some? && IndexOfId(q, current.value).Some? ==> r[|r| - 1].processId == current.value
  {
    if current.Some? && IndexOfId(q, current.value).Some? then
      var i := IndexOfId(q, current.value).value;
      MoveToBackIsPermutation(q, i);
      MoveToBack(q, i)
    else q
  }
}
