/**
 * ExternalPlanner: the external scheduler's client-side state, one shared
 * instance holding the current RestPlanner (null while the scheduler is
 * inactive) and the last solution fetched, plus its descriptor's
 * configured server URL.
 *
 * `reloadPlanner` has two versions here. `ReloadPlannerAsWritten` follows
 * the source, which answers null when the configured URL is the one the
 * current planner already uses, so re-saving an unchanged configuration
 * deactivates the scheduler and leaves the remote planner running
 * unstopped. `ReloadPlanner` keeps the current planner in that case, as
 * the comment beside the check and DroolsPlanner's `updatePlanner` both
 * intend; the configuration operations use it.
 */
module ExternalPlanner {
  import opened Base
  import opened Host
  import opened Assignments
  import opened Transport
  import RestPlanner

  /** The shared instance's fields together with the descriptor's URL. */
  datatype Planner = Planner(serverUrl: Option<string>, remote: Option<RestPlanner.State>, solution: Option<NodeAssignments>)

  /**
   * What one operation leaves: the state, the calls made, whether the
   * Jenkins queue was asked to re-evaluate (`updateQueue`), and the outcome.
   */
  datatype Step<T> = Step(planner: Planner, calls: seq<Call>, poked: bool, result: Result<T>)

  /**
   * How attaching a planner ends: the DELETE stopping the old one, the new
   * one's info page, how the codec encodes the state with the empty
   * solution, and the new one's first POST.
   */
  datatype Attach = Attach(delete: Outcome, info: Reply<string>, query: Result<()>, post: Outcome)

  // ---------------------------------------------------------------------
  // The shared instance

  /** `assumeActive`: the scheduler intercepts Jenkins' queue exactly while a planner is attached. */
  predicate AssumeActive(ep: Planner) {
    ep.remote.Some?
  }

  /** `currentSolution`: null while inactive, the empty solution before the first fetch. */
  function CurrentSolution(ep: Planner): (r: Option<NodeAssignments>)
    ensures r.None? <==> !AssumeActive(ep)
    ensures AssumeActive(ep) && ep.solution.Some? ==> r == ep.solution
    ensures AssumeActive(ep) && ep.solution.None? ==> r == Some(Empty())
  {
    if !AssumeActive(ep) then None
    else if ep.solution.Some? then ep.solution
    else Some(Empty())
  }

  /**
   * `fetchSolution` when solutions are compared by identity, as
   * `Object.equals` does for a class that does not override it: every
   * successful GET decodes a new object, so it never equals the stored
   * one and every successful fetch pokes the queue.
   */
  function FetchSolutionAsWritten(ep: Planner, reply: Reply<NodeAssignments>): (r: Step<Option<NodeAssignments>>)
    ensures !AssumeActive(ep) ==> r == Step(ep, [], false, Ok(None))
    ensures r.result.Throw? ==> r.planner == ep && !r.poked
    ensures r.result.Ok? && AssumeActive(ep) ==> r.poked && r.planner == ep.(solution := Some(reply.body))
  {
    if !AssumeActive(ep) then Step(ep, [], false, Ok(None))
    else
      var s := RestPlanner.Solution(ep.remote.value, reply);
      match s.result
      case Throw(e) => Step(ep, s.calls, false, Throw(e))
      case Ok(sol) => Step(ep.(solution := Some(sol)), s.calls, true, Ok(Some(sol)))
  }

  /** As written, fetching an unchanged solution still makes Jenkins re-evaluate its queue. */
  lemma RefetchPokesAsWritten(ep: Planner, reply: Reply<NodeAssignments>)
    requires FetchSolutionAsWritten(ep, reply).result.Ok? && AssumeActive(ep)
    ensures var again := FetchSolutionAsWritten(FetchSolutionAsWritten(ep, reply).planner, reply);
      again.result == FetchSolutionAsWritten(ep, reply).result && again.poked
  {
  }

  /**
   * `fetchSolution` with solutions compared by value: while
   * inactive, null and nothing else. Otherwise GET the solution, store it,
   * and poke the queue when it differs from the one stored before (a first solution always differs from null). A
   * failed GET escapes and stores nothing.
   */
  function FetchSolution(ep: Planner, reply: Reply<NodeAssignments>): (r: Step<Option<NodeAssignments>>)
    ensures !AssumeActive(ep) ==> r == Step(ep, [], false, Ok(None))
    ensures r.result.Throw? ==> r.planner == ep && !r.poked
    ensures r.result.Ok? && AssumeActive(ep) ==>
      && r.result.value == Some(reply.body)
      && r.planner == ep.(solution := Some(reply.body))
      && (r.poked <==> ep.solution != Some(reply.body))
    ensures r.result.Ok? <==> !AssumeActive(ep) || (ep.remote.value.status == RestPlanner.Running && reply.outcome == Delivered)
  {
    if !AssumeActive(ep) then Step(ep, [], false, Ok(None))
    else
      var s := RestPlanner.Solution(ep.remote.value, reply);
      match s.result
      case Throw(e) => Step(ep, s.calls, false, Throw(e))
      case Ok(sol) => Step(ep.(solution := Some(sol)), s.calls, Some(sol) != ep.solution, Ok(Some(sol)))
  }

  /** The queue is poked once per change of solution: fetching the same solution again stays quiet. */
  lemma RefetchSameSolutionQuiet(ep: Planner, reply: Reply<NodeAssignments>)
    requires FetchSolution(ep, reply).result.Ok?
    ensures var again := FetchSolution(FetchSolution(ep, reply).planner, reply);
      again.result == FetchSolution(ep, reply).result && !again.poked
  {
  }

  /**
   * `sendQueue`: while inactive, false with no call; otherwise queue the
   * state with the current solution through the planner (`query`: how the
   * codec encodes them).
   */
  function SendQueue(ep: Planner, sp: Snapshot, query: Result<()>, put: Outcome, post: Outcome): (r: Step<bool>)
    ensures !AssumeActive(ep) ==> r == Step(ep, [], false, Ok(false))
    ensures AssumeActive(ep) ==>
      var q := RestPlanner.Queue(ep.remote.value, Some(sp), CurrentSolution(ep), query, put, post);
      r == Step(ep.(remote := Some(q.planner)), q.calls, false, q.result)
    ensures r.planner.serverUrl == ep.serverUrl && r.planner.solution == ep.solution
    ensures AssumeActive(r.planner) == AssumeActive(ep)
  {
    if !AssumeActive(ep) then Step(ep, [], false, Ok(false))
    else
      var q := RestPlanner.Queue(ep.remote.value, Some(sp), CurrentSolution(ep), query, put, post);
      Step(ep.(remote := Some(q.planner)), q.calls, false, q.result)
  }

  /**
   * While active, `sendQueue` fails only with a transport failure or the
   * codec's own exception, and a success leaves the planner RUNNING.
   */
  lemma SendQueueOutcomes(ep: Planner, sp: Snapshot, query: Result<()>, put: Outcome, post: Outcome)
    requires AssumeActive(ep)
    ensures var r := SendQueue(ep, sp, query, put, post);
      r.result.Throw? ==>
        || (query.Throw? && r.result.exc == query.exc && r.calls == [])
        || r.result.exc in {ClientHandler, PlannerError(CauseText(UniformError)), PlannerError(CauseText(HandlerError))}
    ensures query.Throw? ==> SendQueue(ep, sp, query, put, post).result == Throw(query.exc)
    ensures SendQueue(ep, sp, query, put, post).result.Ok? ==> SendQueue(ep, sp, query, put, post).planner.remote.value.status == RestPlanner.Running
  {
  }

  // ---------------------------------------------------------------------
  // Descriptor

  /** `configure` appends a slash to a URL that lacks one. */
  function Normalize(form: string): (url: string)
    ensures EndsWith(url, "/")
    ensures StartsWith(url, form)
    ensures url == form <==> EndsWith(form, "/")
    ensures |url| <= |form| + 1
  {
    if EndsWith(form, "/") then form else form + "/"
  }

  lemma NormalizeIdempotent(form: string)
    ensures Normalize(Normalize(form)) == Normalize(form)
  {
  }

  /**
   * The outcome of reloading: the state the current planner object is
   * left in, the calls made, and the planner to install (None: none).
   */
  datatype Reload = Reload(previous: Option<RestPlanner.State>, calls: seq<Call>, result: Result<Option<RestPlanner.State>>)

  /** A new planner for `url`, constructed and started with the empty solution, and the calls made on the way. */
  datatype Started = Started(calls: seq<Call>, result: Result<RestPlanner.State>)

  /**
   * Construct a planner for `url` and queue the state with the empty
   * solution. Every failure is a PlannerException, except an exception of
   * the codec's, which escapes as it is; nothing is deleted.
   */
  function Start(url: string, sp: Snapshot, rem: Attach): (r: Started)
    ensures r.result.Throw? ==> r.result.exc.PlannerError? || (rem.query.Throw? && r.result.exc == rem.query.exc)
    ensures r.result.Ok? ==> r.result.value.url == url && r.result.value.status == RestPlanner.Running
    ensures CountVerb(r.calls, Delete) == 0
  {
    var created := RestPlanner.Create(Some(url), rem.info);
    assert CountVerb(created.calls, Delete) == 0;
    match created.result
    case Throw(e) => Started(created.calls, Throw(e))
    case Ok(made) =>
      var q := RestPlanner.Queue(made, Some(sp), Some(Empty()), rem.query, rem.post, rem.post);
      assert CountVerb(q.calls, Delete) == 0;
      CountVerbAppend(created.calls, q.calls, Delete);
      match q.result
      case Throw(e) => Started(created.calls + q.calls, Throw(e))
      case Ok(_) => Started(created.calls + q.calls, Ok(q.planner))
  }

  /**
   * The part of `reloadPlanner` after the same-URL check, shared by both
   * versions: stop the current planner if any, then start a new one for
   * the URL. The reload returns the state the old planner object is left in.
   */
  function Attaching(url: string, current: Option<RestPlanner.State>, sp: Snapshot, rem: Attach): (r: Reload)
    ensures r.previous == (if current.Some? then Some(current.value.(status := RestPlanner.Stopped)) else None)
    ensures r.result.Throw? ==> r.result.exc.PlannerError? || (rem.query.Throw? && r.result.exc == rem.query.exc)
    ensures r.result.Ok? ==> r.result.value.Some?
    ensures r.result.Ok? ==> r.result.value.value.url == url && r.result.value.value.status == RestPlanner.Running
    ensures current.Some? && current.value.status == RestPlanner.Running ==>
      |r.calls| > 0 && r.calls[0] == Call(Delete, RestPlanner.Resource(""), rem.delete)
    ensures CountVerb(r.calls, Delete) == (if current.Some? && current.value.status == RestPlanner.Running then 1 else 0)
  {
    if current.None? then
      var st := Start(url, sp, rem);
      Reload(None, st.calls, if st.result.Ok? then Ok(Some(st.result.value)) else Throw(st.result.exc))
    else
      var stopped := RestPlanner.Stop(current.value, rem.delete);
      var previous := Some(stopped.planner);
      if stopped.result.Throw? then Reload(previous, stopped.calls, Throw(stopped.result.exc))
      else
        var st := Start(url, sp, rem);
        CountVerbAppend(stopped.calls, st.calls, Delete);
        Reload(previous, stopped.calls + st.calls, if st.result.Ok? then Ok(Some(st.result.value)) else Throw(st.result.exc))
  }

  /**
   * `reloadPlanner` as the source has it: no URL configured, or one that
   * does not parse (`parses` false), gives null; so does a URL equal to
   * the current planner's, before anything is stopped.
   */
  function ReloadPlannerAsWritten(serverUrl: Option<string>, parses: bool, current: Option<RestPlanner.State>, sp: Snapshot, rem: Attach): (r: Reload)
    ensures serverUrl.None? || !parses ==> r == Reload(current, [], Ok(None))
    ensures serverUrl.Some? && parses && current.Some? && serverUrl.value == current.value.url ==> r == Reload(current, [], Ok(None))
    ensures r.result.Ok? && r.result.value.Some? ==> serverUrl.Some? && r.result.value.value.url == serverUrl.value
  {
    if serverUrl.None? || !parses then Reload(current, [], Ok(None))
    else if current.Some? && serverUrl.value == current.value.url then Reload(current, [], Ok(None))
    else Attaching(serverUrl.value, current, sp, rem)
  }

  /** `reloadPlanner` as intended: a URL equal to the current planner's keeps that planner. */
  function ReloadPlanner(serverUrl: Option<string>, parses: bool, current: Option<RestPlanner.State>, sp: Snapshot, rem: Attach): (r: Reload)
    ensures serverUrl.None? || !parses ==> r == Reload(current, [], Ok(None))
    ensures serverUrl.Some? && parses && current.Some? && serverUrl.value == current.value.url ==> r == Reload(current, [], Ok(current))
    ensures r.result.Ok? && r.result.value.Some? ==> serverUrl.Some? && r.result.value.value.url == serverUrl.value
  {
    if serverUrl.None? || !parses then Reload(current, [], Ok(None))
    else if current.Some? && serverUrl.value == current.value.url then Reload(current, [], Ok(current))
    else Attaching(serverUrl.value, current, sp, rem)
  }

  /** `getPlanner`: a PlannerException while reloading leaves no planner; anything else escapes. */
  function GetPlanner(reload: Reload): (r: Result<Option<RestPlanner.State>>)
    ensures reload.result.Throw? && reload.result.exc.PlannerError? ==> r == Ok(None)
    ensures reload.result.Throw? && !reload.result.exc.PlannerError? ==> r == reload.result
    ensures reload.result.Ok? ==> r == reload.result
  {
    match reload.result
    case Ok(p) => Ok(p)
    case Throw(e) => if e.PlannerError? then Ok(None) else Throw(e)
  }

  /**
   * `planner = getPlanner(...)`: store the reloaded planner. When the
   * reload escapes, the assignment never happens and the field keeps
   * `held`, the planner object it referred to (perhaps stopped by now).
   */
  function Install(ep: Planner, url: Option<string>, reload: Reload, held: Option<RestPlanner.State>): (r: Step<bool>)
    ensures r.planner.serverUrl == url && r.planner.solution == ep.solution && r.calls == reload.calls
    ensures GetPlanner(reload).Ok? ==> r.planner.remote == GetPlanner(reload).value && r.result == Ok(true)
    ensures GetPlanner(reload).Throw? ==> r.planner.remote == held && r.result == Throw(GetPlanner(reload).exc)
  {
    match GetPlanner(reload)
    case Ok(p) => Step(ep.(serverUrl := url, remote := p), reload.calls, false, Ok(true))
    case Throw(e) => Step(ep.(serverUrl := url, remote := held), reload.calls, false, Throw(e))
  }

  /**
   * The descriptor's constructor: load the saved URL and attach a planner
   * for it, passing no current planner. It fails only with an exception of
   * the codec's, and then the shared instance keeps the planner it held.
   */
  function Load(ep: Planner, savedUrl: Option<string>, parses: bool, sp: Snapshot, rem: Attach): (r: Step<bool>)
    ensures r.planner.serverUrl == savedUrl && r.planner.solution == ep.solution
    ensures r.result.Ok? && AssumeActive(r.planner) ==> savedUrl.Some? && parses && r.planner.remote.value.url == savedUrl.value
    ensures r.result.Throw? ==> rem.query.Throw? && r.result == Throw(rem.query.exc) && !rem.query.exc.PlannerError?
    ensures r.result.Throw? ==> r.planner.remote == ep.remote
    ensures CountVerb(r.calls, Delete) == 0
  {
    Install(ep, savedUrl, ReloadPlanner(savedUrl, parses, None, sp, rem), ep.remote)
  }

  /** `configure` as the source has it. */
  function ConfigureAsWritten(ep: Planner, form: string, parses: bool, sp: Snapshot, rem: Attach): (r: Step<bool>)
    ensures r.planner.serverUrl == Some(Normalize(form))
    ensures r.result.Ok? ==> r.result.value
    ensures r.result.Ok? && AssumeActive(r.planner) ==> r.planner.remote.value.url == Normalize(form)
  {
    var url := Some(Normalize(form));
    var reload := ReloadPlannerAsWritten(url, parses, ep.remote, sp, rem);
    Install(ep, url, reload, reload.previous)
  }

  /**
   * `configure`: store the normalized URL and reload the planner for it.
   * It fails only with an exception of the codec's, and then keeps the
   * old planner object, stopped if the reload got that far.
   */
  function Configure(ep: Planner, form: string, parses: bool, sp: Snapshot, rem: Attach): (r: Step<bool>)
    ensures r.planner.serverUrl == Some(Normalize(form)) && r.planner.solution == ep.solution
    ensures r.result.Ok? ==> r.result.value
    ensures r.result.Ok? && AssumeActive(r.planner) ==> r.planner.remote.value.url == Normalize(form)
    ensures r.result.Throw? ==> rem.query.Throw? && r.result == Throw(rem.query.exc) && !rem.query.exc.PlannerError?
    ensures r.result.Throw? && ep.remote.Some? ==> r.planner.remote.Some? && r.planner.remote.value.url == ep.remote.value.url
  {
    var url := Some(Normalize(form));
    var reload := ReloadPlanner(url, parses, ep.remote, sp, rem);
    Install(ep, url, reload, reload.previous)
  }

  /**
   * The source's defect: saving the configuration unchanged while a
   * planner is attached drops that planner without a call, so the
   * scheduler goes inactive and the remote planner is never stopped.
   */
  lemma ResaveDeactivatesAsWritten(ep: Planner, sp: Snapshot, rem: Attach)
    requires AssumeActive(ep)
    requires EndsWith(ep.remote.value.url, "/")
    ensures var r := ConfigureAsWritten(ep, ep.remote.value.url, true, sp, rem);
      && !AssumeActive(r.planner)
      && r.calls == []
      && CurrentSolution(r.planner) == None
  {
  }

  /** Configuring is idempotent: once a planner is attached, saving the same form again changes nothing and calls nothing. */
  lemma ConfigureIdempotent(ep: Planner, form: string, sp: Snapshot, rem: Attach, rem2: Attach)
    requires Configure(ep, form, true, sp, rem).result.Ok?
    requires AssumeActive(Configure(ep, form, true, sp, rem).planner)
    ensures var once := Configure(ep, form, true, sp, rem).planner;
      Configure(once, form, true, sp, rem2) == Step(once, [], false, Ok(true))
  {
    NormalizeIdempotent(form);
  }

  /** Configuring a different URL stops a running planner first: exactly one DELETE, before anything else. */
  lemma ConfigureNewUrlStopsOld(ep: Planner, form: string, sp: Snapshot, rem: Attach)
    requires AssumeActive(ep) && ep.remote.value.status == RestPlanner.Running
    requires Normalize(form) != ep.remote.value.url
    ensures var r := Configure(ep, form, true, sp, rem);
      CountVerb(r.calls, Delete) == 1 && r.calls[0] == Call(Delete, RestPlanner.Resource(""), rem.delete)
  {
  }
}
