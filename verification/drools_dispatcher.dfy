/**
 * The Drools planner's standalone dispatcher (droolsplanner/Dispatcher):
 * each question fetches the solution from the planner proxy, and then an
 * item may run only if the solution gives it a node, and a node may take
 * it only if it is that node, compared by node name. The dispatcher's
 * descriptor declares no `getPlanner()`; the proxy it asks is read as the
 * one `getPlannerProxy()` returns.
 */
module DroolsDispatcher {
  import opened Base
  import opened Host
  import opened Json
  import opened Assignments
  import opened Transport
  import opened PlannerProxy
  import QueueSerializerService

  /** The one cause of blockage every refusal shares. */
  const NotAssigned: string := "Drools Planner decided not at assign the job to any node"

  /** The decision for `canRun` once the solution is known: blocked exactly when it gives the item no node. */
  function RunVerdict(solution: NodeAssignments, item: Item): (v: Verdict)
    ensures v.Block? <==> !(item.id in solution.entries && solution.entries[item.id].Some?)
    ensures v.Block? ==> v.cause == NotAssigned
  {
    if NodeNameOf(solution, item).None? then Block(NotAssigned) else Admit
  }

  /** The decision for `canTake` once the solution is known: admitted exactly on the node it names. */
  function TakeVerdict(solution: NodeAssignments, node: Node, item: Item): (v: Verdict)
    ensures v == Admit <==> item.id in solution.entries && solution.entries[item.id] == Some(node.nodeName)
    ensures v.Block? ==> v.cause == NotAssigned
  {
    if Some(node.nodeName) == NodeNameOf(solution, item) then Admit else Block(NotAssigned)
  }

  /**
   * `canRun`: every question fetches the solution from the planner proxy
   * first. A failed fetch escapes (unwrapped, as the proxy raises it);
   * otherwise the item is blocked exactly when the fetched solution gives
   * it no node.
   */
  function CanRun(p: Proxy, reply: Reply<Json>, item: Item): (r: Step<Verdict>)
    ensures r.proxy == p
    ensures !p.started ==> r == Step(p, [], Throw(IllegalState("Remote planner not started")))
    ensures r.result.Ok? <==> p.started && p.url.Some? && reply.outcome == Delivered
                              && QueueSerializerService.Deserialize(reply.body).Ok?
    ensures r.result.Ok? ==> (r.result.value.Block? <==>
              !(item.id in QueueSerializerService.Deserialize(reply.body).value.entries
                && QueueSerializerService.Deserialize(reply.body).value.entries[item.id].Some?))
    ensures r.result.Ok? && r.result.value.Block? ==> r.result.value.cause == NotAssigned
  {
    var got := PlannerProxy.Solution(p, reply);
    match got.result
    case Throw(e) => Step(p, got.calls, Throw(e))
    case Ok(solution) => Step(p, got.calls, Ok(RunVerdict(solution, item)))
  }

  /**
   * `canTake`: the same fetch, then admitted exactly on the node whose
   * name the fetched solution gives the item.
   */
  function CanTake(p: Proxy, reply: Reply<Json>, node: Node, item: Item): (r: Step<Verdict>)
    ensures r.proxy == p
    ensures !p.started ==> r == Step(p, [], Throw(IllegalState("Remote planner not started")))
    ensures r.result.Ok? <==> p.started && p.url.Some? && reply.outcome == Delivered
                              && QueueSerializerService.Deserialize(reply.body).Ok?
    ensures r.result == Ok(Admit) <==>
              QueueSerializerService.Deserialize(reply.body).Ok? && p.started && p.url.Some? && reply.outcome == Delivered
              && item.id in QueueSerializerService.Deserialize(reply.body).value.entries
              && QueueSerializerService.Deserialize(reply.body).value.entries[item.id] == Some(node.nodeName)
    ensures r.result.Ok? && r.result.value.Block? ==> r.result.value.cause == NotAssigned
  {
    var got := PlannerProxy.Solution(p, reply);
    match got.result
    case Throw(e) => Step(p, got.calls, Throw(e))
    case Ok(solution) => Step(p, got.calls, Ok(TakeVerdict(solution, node, item)))
  }

  /** Both questions make the same call and fail the same way: each is one fetch of the solution. */
  lemma QuestionsFetchAlike(p: Proxy, reply: Reply<Json>, node: Node, item: Item)
    ensures CanRun(p, reply, item).calls == CanTake(p, reply, node, item).calls == PlannerProxy.Solution(p, reply).calls
    ensures CanRun(p, reply, item).result.Throw? <==> CanTake(p, reply, node, item).result.Throw?
    ensures CanRun(p, reply, item).result.Throw? ==> CanRun(p, reply, item).result == CanTake(p, reply, node, item).result
  {
  }

  /** When both questions see the same reply, a node that may take an item implies the item may run. */
  lemma TakeImpliesRun(p: Proxy, reply: Reply<Json>, node: Node, item: Item)
    requires CanTake(p, reply, node, item).result == Ok(Admit)
    ensures CanRun(p, reply, item).result == Ok(Admit)
  {
  }

  /** An item that may run is taken by every node bearing the name the solution gives it. */
  lemma RunImpliesSomeTaker(solution: NodeAssignments, item: Item)
    requires RunVerdict(solution, item) == Admit
    ensures NodeNameOf(solution, item).Some?
    ensures forall node: Node :: Some(node.nodeName) == NodeNameOf(solution, item) ==> TakeVerdict(solution, node, item) == Admit
  {
  }

  /** An unassigned item is blocked on every node, with the shared cause. */
  lemma UnassignedBlockedEverywhere(solution: NodeAssignments, item: Item, node: Node)
    requires NodeNameOf(solution, item).None?
    ensures RunVerdict(solution, item) == Block(NotAssigned)
    ensures TakeVerdict(solution, node, item) == Block(NotAssigned)
  {
  }
}
