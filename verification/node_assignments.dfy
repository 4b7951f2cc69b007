/**
 * NodeAssignments: the job-id to node-name solution. A builder collects
 * `assign(id, name)` calls into a hash map (the last call for an id wins;
 * a null name is stored as a key with no node), and `build` wraps that
 * map in an unmodifiable view. The view is live in Java; here a built
 * solution is the builder's map as it stood at `build`.
 *
 * The Java class defines neither `equals` nor `hashCode`, yet its callers
 * compare and hash solutions as values; this model gives the type value
 * equality, as a datatype. The external scheduler's own NodeAssignments
 * class is not part of this model; it is taken to be this one.
 */
module Assignments {
  import opened Base
  import opened Host

  /** A built solution. `None` under a key is an id assigned to null. */
  datatype NodeAssignments = NodeAssignments(entries: map<int, Option<string>>)

  /** The accumulating builder. */
  datatype Builder = Builder(pending: map<int, Option<string>>)

  function NewBuilder(): (b: Builder)
    ensures b.pending == map[]
  {
    Builder(map[])
  }

  /** `Builder.assign`: overwrite whatever `id` held before. */
  function Assign(b: Builder, id: int, nodeName: Option<string>): (r: Builder)
    ensures r.pending.Keys == b.pending.Keys + {id}
    ensures r.pending[id] == nodeName
    ensures forall other :: other in b.pending && other != id ==> r.pending[other] == b.pending[other]
  {
    Builder(b.pending[id := nodeName])
  }

  /** `Builder.build`: the builder's map behind an unmodifiable view, as it stands now. */
  function Build(b: Builder): (a: NodeAssignments)
    ensures a.entries == b.pending
  {
    NodeAssignments(b.pending)
  }

  /** `NodeAssignments.empty()`. */
  function Empty(): (a: NodeAssignments)
    ensures Size(a) == 0
    ensures forall id :: NodeName(a, id) == None
  {
    Build(NewBuilder())
  }

  /** `nodeName(int)`: null both for an absent id and for an id assigned null. */
  function NodeName(a: NodeAssignments, taskId: int): (r: Option<string>)
    ensures r.Some? <==> taskId in a.entries && a.entries[taskId].Some?
    ensures r.Some? ==> a.entries[taskId] == r
  {
    if taskId in a.entries then a.entries[taskId] else None
  }

  /** `nodeName(Queue.Item)`: looks the item up by its id. */
  function NodeNameOf(a: NodeAssignments, item: Item): (r: Option<string>)
    ensures r == NodeName(a, item.id)
  {
    NodeName(a, item.id)
  }

  /** `size()`: the number of distinct ids, those assigned null included. */
  function Size(a: NodeAssignments): (n: nat)
    ensures n == |a.entries.Keys|
  {
    |a.entries|
  }

  // ---------------------------------------------------------------------
  // A whole builder session

  /** One `assign(id, nodeName)` call. */
  datatype Assignment = Assignment(id: int, nodeName: Option<string>)

  /** Run `assign` for every pair, in order, on `b`. */
  function AssignAll(b: Builder, calls: seq<Assignment>): Builder
    decreases |calls|
  {
    if |calls| == 0 then b
    else AssignAll(Assign(b, calls[0].id, calls[0].nodeName), calls[1..])
  }

  /** `builder().assign(..)...assign(..).build()`. */
  function FromCalls(calls: seq<Assignment>): NodeAssignments {
    Build(AssignAll(NewBuilder(), calls))
  }

  /** The ids mentioned by a sequence of calls. */
  function Ids(calls: seq<Assignment>): (ids: set<int>)
    ensures forall id :: id in ids <==> exists k :: 0 <= k < |calls| && calls[k].id == id
  {
    set k | 0 <= k < |calls| :: calls[k].id
  }

  /**
   * The reference meaning of a session for one id: the name given by the
   * last call for that id, if any (searched from the end).
   */
  function LastAssigned(calls: seq<Assignment>, id: int): Option<Option<string>>
    decreases |calls|
  {
    if |calls| == 0 then None
    else if calls[|calls| - 1].id == id then Some(calls[|calls| - 1].nodeName)
    else LastAssigned(calls[..|calls| - 1], id)
  }

  lemma {:induction false} AssignAllSnoc(b: Builder, calls: seq<Assignment>, c: Assignment)
    ensures AssignAll(b, calls + [c]) == Assign(AssignAll(b, calls), c.id, c.nodeName)
    decreases |calls|
  {
    if |calls| == 0 {
      assert calls + [c] == [c];
    } else {
      assert (calls + [c])[1..] == calls[1..] + [c];
      AssignAllSnoc(Assign(b, calls[0].id, calls[0].nodeName), calls[1..], c);
    }
  }

  /**
   * The builder's map after a session: its keys are exactly the ids
   * mentioned, and each key holds the name of the last call for it.
   */
  lemma {:induction false} AssignAllMeaning(calls: seq<Assignment>)
    ensures AssignAll(NewBuilder(), calls).pending.Keys == Ids(calls)
    ensures forall id :: id in Ids(calls) ==>
      LastAssigned(calls, id) == Some(AssignAll(NewBuilder(), calls).pending[id])
    ensures forall id :: id !in Ids(calls) ==> LastAssigned(calls, id) == None
    decreases |calls|
  {
    if |calls| > 0 {
      var init := calls[..|calls| - 1];
      var c := calls[|calls| - 1];
      assert calls == init + [c];
      AssignAllMeaning(init);
      AssignAllSnoc(NewBuilder(), init, c);
      assert Ids(calls) == Ids(init) + {c.id};
    }
  }

  /** After a session, `nodeName(id)` answers with the last call for `id`. */
  lemma LastAssignWins(calls: seq<Assignment>, id: int)
    ensures NodeName(FromCalls(calls), id) ==
      (match LastAssigned(calls, id) case None => None case Some(n) => n)
  {
    AssignAllMeaning(calls);
  }

  /** After a session, `size()` counts the distinct ids, those assigned null included. */
  lemma SizeCountsDistinctIds(calls: seq<Assignment>)
    ensures Size(FromCalls(calls)) == |Ids(calls)|
  {
    AssignAllMeaning(calls);
  }

  /** Assigning null keeps the key: it is counted by `size` yet looked up as null. */
  lemma NullAssignmentCounted(b: Builder, id: int)
    ensures NodeName(Build(Assign(b, id, None)), id) == None
    ensures Size(Build(Assign(b, id, None))) == Size(Build(b)) + (if id in b.pending then 0 else 1)
  {
    if id in b.pending {
      assert b.pending[id := None].Keys == b.pending.Keys;
    } else {
      assert b.pending[id := None].Keys == b.pending.Keys + {id};
    }
  }
}
