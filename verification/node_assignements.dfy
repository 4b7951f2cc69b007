/**
 * NodeAssignements: the legacy spelling of the solution type, kept by the
 * source beside NodeAssignments. Same builder discipline, but the lookup
 * is `taskNodeName(id)` and there is no `empty()` and no item lookup.
 */
module LegacyAssignments {
  import opened Base
  import Assignments

  datatype NodeAssignements = NodeAssignements(assignments: map<int, Option<string>>)

  datatype Builder = Builder(assignments: map<int, Option<string>>)

  function NewBuilder(): (b: Builder)
    ensures b.assignments == map[]
  {
    Builder(map[])
  }

  /** `Builder.assign`: the last call for an id wins. */
  function Assign(b: Builder, id: int, nodeName: Option<string>): (r: Builder)
    ensures r.assignments.Keys == b.assignments.Keys + {id}
    ensures r.assignments[id] == nodeName
    ensures forall other :: other in b.assignments && other != id ==> r.assignments[other] == b.assignments[other]
  {
    Builder(b.assignments[id := nodeName])
  }

  /** `Builder.build`: the builder's map behind an unmodifiable view, as it stands now; the built value has accessors only. */
  function Build(b: Builder): (a: NodeAssignements)
    ensures a.assignments == b.assignments
  {
    NodeAssignements(b.assignments)
  }

  /** `taskNodeName(id)`: null for an id never assigned or assigned null. */
  function TaskNodeName(a: NodeAssignements, taskId: int): (r: Option<string>)
    ensures taskId !in a.assignments ==> r == None
    ensures taskId in a.assignments ==> r == a.assignments[taskId]
  {
    if taskId in a.assignments then a.assignments[taskId] else None
  }

  /** `size()`: the number of distinct ids assigned. */
  function Size(a: NodeAssignements): (n: nat)
    ensures n == |a.assignments.Keys|
  {
    |a.assignments|
  }

  function AssignAll(b: Builder, calls: seq<Assignments.Assignment>): Builder
    decreases |calls|
  {
    if |calls| == 0 then b
    else AssignAll(Assign(b, calls[0].id, calls[0].nodeName), calls[1..])
  }

  /**
   * The legacy builder and the current one agree call for call: after
   * the same session, both maps hold the same entries.
   */
  lemma {:induction false} AgreesWithNodeAssignments(
    legacy: Builder, current: Assignments.Builder, calls: seq<Assignments.Assignment>)
    requires legacy.assignments == current.pending
    ensures AssignAll(legacy, calls).assignments == Assignments.AssignAll(current, calls).pending
    decreases |calls|
  {
    if |calls| > 0 {
      AgreesWithNodeAssignments(
        Assign(legacy, calls[0].id, calls[0].nodeName),
        Assignments.Assign(current, calls[0].id, calls[0].nodeName),
        calls[1..]);
    }
  }

  /**
   * Hence the legacy lookups carry the same meaning: `taskNodeName(id)`
   * is the name of the last `assign` for `id` (null if never assigned),
   * and `size` counts the distinct ids.
   */
  lemma LegacyLastAssignWins(calls: seq<Assignments.Assignment>, id: int)
    ensures TaskNodeName(Build(AssignAll(NewBuilder(), calls)), id) ==
      (match Assignments.LastAssigned(calls, id) case None => None case Some(n) => n)
    ensures Size(Build(AssignAll(NewBuilder(), calls))) == |Assignments.Ids(calls)|
  {
    AgreesWithNodeAssignments(NewBuilder(), Assignments.NewBuilder(), calls);
    Assignments.LastAssignWins(calls, id);
    Assignments.SizeCountsDistinctIds(calls);
  }
}
