/**
 * The external scheduler's dispatcher (externalscheduler/Dispatcher):
 * Jenkins asks whether a node may take an item, and the answer is read
 * off the planner's current solution, read from the solution the planner
 * stores on every question (the fetching is the updater's). An inactive planner (no solution) admits everything.
 */
module ExternalDispatcher {
  import opened Base
  import opened Host
  import opened Assignments

  /** `notAssignedToNode`: names the item and the node by their strings. */
  function NotAssignedCause(item: Item, node: Node): (cause: string)
    ensures StartsWith(cause, "External scheduler decided not to assign ")
    ensures |cause| == |"External scheduler decided not to assign  to "| + |item.text| + |node.text|
  {
    "External scheduler decided not to assign " + item.text + " to " + node.text
  }

  /**
   * `assignToNode`: with no solution, yes; otherwise exactly when the
   * node's self label equals the item's assigned node (a null name equals
   * no label). With a solution the decision is logged under `itemName`,
   * which dereferences the item's task, so a taskless item throws.
   */
  function AssignToNode(solution: Option<NodeAssignments>, node: Node, item: Item): (r: Result<bool>)
    ensures solution.None? ==> r == Ok(true)
    ensures r.Throw? <==> solution.Some? && item.task.None?
    ensures r.Throw? ==> r.exc == NullPointer
    ensures r.Ok? && solution.Some? ==>
      (r.value <==> item.id in solution.value.entries && solution.value.entries[item.id] == Some(node.selfLabel))
  {
    if solution.None? then Ok(true)
    else
      var onNode := NodeNameOf(solution.value, item) == Some(node.selfLabel);
      if item.task.None? then Throw(NullPointer) else Ok(onNode)
  }

  /** `canTake`: admit, block with a cause naming the item and the node, or throw what `assignToNode` throws. */
  function CanTake(solution: Option<NodeAssignments>, node: Node, item: Item): (r: Result<Verdict>)
    ensures solution.None? ==> r == Ok(Admit)
    ensures r.Throw? <==> solution.Some? && item.task.None?
    ensures r.Throw? ==> r.exc == NullPointer
    ensures r.Ok? && solution.Some? ==>
      (r.value == Admit <==> item.id in solution.value.entries && solution.value.entries[item.id] == Some(node.selfLabel))
    ensures r.Ok? && r.value.Block? ==> r.value.cause == NotAssignedCause(item, node)
  {
    match AssignToNode(solution, node, item)
    case Throw(e) => Throw(e)
    case Ok(onNode) => if onNode then Ok(Admit) else Ok(Block(NotAssignedCause(item, node)))
  }

  /** An item the active solution leaves out, or leaves unassigned, is blocked on every node (or throws, when taskless). */
  lemma UnassignedBlockedEverywhere(solution: NodeAssignments, item: Item, node: Node)
    requires NodeName(solution, item.id).None?
    ensures item.task.Some? ==> CanTake(Some(solution), node, item).Ok? && CanTake(Some(solution), node, item).value.Block?
    ensures item.task.None? ==> CanTake(Some(solution), node, item) == Throw(NullPointer)
  {
  }

  /** An active solution admits an item on one node label at most. */
  lemma AdmitsOneLabel(solution: NodeAssignments, item: Item, n1: Node, n2: Node)
    requires CanTake(Some(solution), n1, item) == Ok(Admit) && CanTake(Some(solution), n2, item) == Ok(Admit)
    ensures n1.selfLabel == n2.selfLabel
  {
  }

  /** The blockage text contains both the item's and the node's strings. */
  lemma CauseNamesBoth(item: Item, node: Node)
    ensures Contains(NotAssignedCause(item, node), item.text)
    ensures Contains(NotAssignedCause(item, node), node.text)
  {
    var lead := "External scheduler decided not to assign ";
    var cause := NotAssignedCause(item, node);
    assert OccursAt(cause, |lead|, item.text) by {
      assert cause[|lead|..|lead| + |item.text|] == item.text;
    }
    var at := |lead| + |item.text| + |" to "|;
    assert OccursAt(cause, at, node.text) by {
      assert cause[at..at + |node.text|] == node.text;
    }
  }

  /**
   * The verdict depends on nothing but the solution, the node's self label,
   * the item's id and whether it has a task: other fields of the node and
   * item make no difference to whether it admits.
   */
  lemma DecidedByLabelAndId(solution: Option<NodeAssignments>, n1: Node, n2: Node, i1: Item, i2: Item)
    requires n1.selfLabel == n2.selfLabel && i1.id == i2.id
    requires i1.task.Some? <==> i2.task.Some?
    ensures CanTake(solution, n1, i1) == Ok(Admit) <==> CanTake(solution, n2, i2) == Ok(Admit)
  {
  }
}
