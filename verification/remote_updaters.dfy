/**
 * The three periodic updaters, each a Jenkins PeriodicWork that starts at
 * once and recurs every five seconds. The external scheduler's updater
 * drives ExternalPlanner directly. The other two call `sendQueue` and
 * `fetchSolution` on objects this model does not give those operations
 * (DroolsPlanner and ExternalScheduler), so for them only the order of the
 * two calls is modelled, with how each call ends as a parameter.
 */
module RemoteUpdaters {
  import opened Base
  import opened Host
  import opened Assignments
  import opened Transport
  import ExternalPlanner
  import RestPlanner

  /** `getInitialDelay`, in milliseconds. */
  const InitialDelay: nat := 0

  /** `getRecurrencePeriod`, in milliseconds. */
  const RecurrencePeriod: nat := 5 * 1000

  /** The two calls an updater makes. */
  datatype Action = SendQueue | FetchSolution

  /** What one run did: the calls in order, and the exception it ended with, if any. */
  datatype Run = Run(actions: seq<Action>, raised: Option<Exc>)

  /** The first call's outcome decides whether the run goes on. */
  function Then(first: Action, outcome: Result<bool>, next: Option<(Action, Result<bool>)>): Run {
    match outcome
    case Throw(e) => Run([first], Some(e))
    case Ok(_) =>
      match next
      case None => Run([first], None)
      case Some((second, o)) => Run([first, second], if o.Throw? then Some(o.exc) else None)
  }

  /**
   * The Drools updater: send the queue, and only when the planner reports
   * it was not updated, fetch the solution.
   */
  function DroolsRun(sent: Result<bool>, fetched: Result<bool>): (r: Run)
    ensures |r.actions| > 0 && r.actions[0] == SendQueue
    ensures FetchSolution in r.actions <==> sent == Ok(false)
    ensures sent.Throw? ==> r.raised == Some(sent.exc)
    ensures sent == Ok(true) ==> r == Run([SendQueue], None)
  {
    Then(SendQueue, sent, if sent == Ok(false) then Some((FetchSolution, fetched)) else None)
  }

  /** The REST-service updater: fetch the solution, then send the queue. */
  function RestServiceRun(fetched: Result<bool>, sent: Result<bool>): (r: Run)
    ensures fetched.Ok? ==> r.actions == [FetchSolution, SendQueue]
    ensures fetched.Throw? ==> r == Run([FetchSolution], Some(fetched.exc))
  {
    Then(FetchSolution, fetched, Some((SendQueue, sent)))
  }

  /** How one external-scheduler run ends: the solution's GET, the codec's encoding of the queue, its PUT and POST. */
  datatype Remote = Remote(solution: Reply<NodeAssignments>, query: Result<()>, put: Outcome, post: Outcome)

  /**
   * The external scheduler's updater: fetch the solution, then send the
   * queue; an exception from the fetch ends the run before the send.
   */
  function ExternalRun(ep: ExternalPlanner.Planner, sp: Snapshot, rem: Remote): (r: ExternalPlanner.Step<bool>)
    ensures ExternalPlanner.FetchSolution(ep, rem.solution).result.Throw? ==>
      r.planner == ep && r.result == Throw(ExternalPlanner.FetchSolution(ep, rem.solution).result.exc)
    ensures r.planner.serverUrl == ep.serverUrl
    ensures ExternalPlanner.AssumeActive(r.planner) == ExternalPlanner.AssumeActive(ep)
  {
    var f := ExternalPlanner.FetchSolution(ep, rem.solution);
    match f.result
    case Throw(e) => ExternalPlanner.Step(f.planner, f.calls, f.poked, Throw(e))
    case Ok(_) =>
      var s := ExternalPlanner.SendQueue(f.planner, sp, rem.query, rem.put, rem.post);
      ExternalPlanner.Step(s.planner, f.calls + s.calls, f.poked, s.result)
  }

  /**
   * Within one run, the queue goes out with the solution just fetched: a
   * running planner first answers its GET, then receives a PUT carrying
   * that solution, with nothing between the two. When the codec fails to
   * encode, the GET is the run's only call and the codec's exception ends it.
   */
  lemma ExternalRunSendsFreshSolution(ep: ExternalPlanner.Planner, sp: Snapshot, rem: Remote)
    requires ExternalPlanner.AssumeActive(ep) && ep.remote.value.status == RestPlanner.Running
    requires rem.solution.outcome == Delivered
    ensures var fetched := ExternalPlanner.FetchSolution(ep, rem.solution).planner;
      && ExternalPlanner.CurrentSolution(fetched) == Some(rem.solution.body)
      && |ExternalRun(ep, sp, rem).calls| > 0
      && ExternalRun(ep, sp, rem).calls[0] == Call(Get, RestPlanner.Resource(""), Delivered)
    ensures rem.query.Ok? ==>
      ExternalRun(ep, sp, rem).calls[..2] == [Call(Get, RestPlanner.Resource(""), Delivered), Call(Put, RestPlanner.Resource(""), rem.put)]
    ensures rem.query.Throw? ==>
      ExternalRun(ep, sp, rem).calls == [Call(Get, RestPlanner.Resource(""), Delivered)] && ExternalRun(ep, sp, rem).result == Throw(rem.query.exc)
  {
    var f := ExternalPlanner.FetchSolution(ep, rem.solution);
    var s := ExternalPlanner.SendQueue(f.planner, sp, rem.query, rem.put, rem.post);
    if rem.query.Ok? {
      assert (f.calls + s.calls)[..2] == [f.calls[0], s.calls[0]];
    } else {
      assert f.calls + s.calls == f.calls;
    }
  }

  /** An inactive external scheduler runs without any remote call and stays inactive. */
  lemma InactiveRunIsQuiet(ep: ExternalPlanner.Planner, sp: Snapshot, rem: Remote)
    requires !ExternalPlanner.AssumeActive(ep)
    ensures ExternalRun(ep, sp, rem) == ExternalPlanner.Step(ep, [], false, Ok(false))
  {
  }
}
