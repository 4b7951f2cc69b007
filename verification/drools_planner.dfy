/**
 * DroolsPlanner: the plugin's first integration. Its descriptor holds the
 * configured server URL and a lazily created PlannerProxy; its dispatcher
 * caches the last solution together with the hash of the state it was
 * computed for, and asks the proxy again only when that hash changes.
 *
 * The state provider is a parameter here (a snapshot with its Java
 * `hashCode`), and so is how each remote call ends.
 */
module DroolsPlanner {
  import opened Base
  import opened Host
  import opened Json
  import opened Assignments
  import opened Transport
  import PlannerProxy
  import QueueSerializerService
  import DroolsDispatcher

  // ---------------------------------------------------------------------
  // Descriptor

  /** The descriptor's fields: the proxy (null until first needed) and the configured URL. */
  datatype Descriptor = Descriptor(proxy: Option<PlannerProxy.Proxy>, serverUrl: Option<Url>)

  /** What a descriptor operation leaves: the descriptor, the calls made, and the outcome. */
  datatype DStep<T> = DStep(desc: Descriptor, calls: seq<Call>, result: Result<T>)

  /**
   * `updatePlanner`: keep the proxy when it already addresses the
   * configured URL; otherwise start a fresh proxy for that URL with empty
   * assignments and keep it only if that first `queue` returns. The
   * previous proxy is dropped without being stopped. With a proxy present
   * and no URL configured, the URL comparison dereferences null.
   */
  function UpdatePlanner(d: Descriptor, sp: Snapshot, send: Outcome): (r: DStep<bool>)
    ensures r.desc.serverUrl == d.serverUrl
    ensures d.proxy.Some? && d.serverUrl.None? ==> r == DStep(d, [], Throw(NullPointer))
    ensures d.proxy.Some? && d.serverUrl.Some? && d.serverUrl == d.proxy.value.url ==> r == DStep(d, [], Ok(true))
    ensures r.result.Throw? ==> r.desc == d
    ensures r.result.Ok? ==> r.desc.proxy.Some? && r.desc.proxy.value.url == d.serverUrl
    ensures r.result.Ok? && r.desc.proxy != d.proxy ==> r.desc.proxy.value.started && |r.calls| == 1
    ensures CountVerb(r.calls, Delete) == 0
  {
    if d.proxy.Some? && d.serverUrl.None? then DStep(d, [], Throw(NullPointer))
    else if d.proxy.Some? && d.serverUrl == d.proxy.value.url then DStep(d, [], Ok(true))
    else
      var q := PlannerProxy.Queue(PlannerProxy.Create(d.serverUrl), Some(sp), Some(Empty()), send);
      match q.result
      case Ok(p) => DStep(d.(proxy := Some(p)), q.calls, Ok(true))
      case Throw(e) => DStep(d, q.calls, Throw(e))
  }

  /** `getPlannerProxy`: the proxy, created through `updatePlanner` when there is none yet. */
  function GetPlannerProxy(d: Descriptor, sp: Snapshot, send: Outcome): (r: DStep<PlannerProxy.Proxy>)
    ensures d.proxy.Some? ==> r == DStep(d, [], Ok(d.proxy.value))
    ensures r.result.Ok? ==> r.desc.proxy == Some(r.result.value)
    ensures r.result.Throw? ==> r.desc == d
    ensures r.desc.serverUrl == d.serverUrl
  {
    if d.proxy.Some? then DStep(d, [], Ok(d.proxy.value))
    else
      var u := UpdatePlanner(d, sp, send);
      match u.result
      case Ok(_) => DStep(u.desc, u.calls, Ok(u.desc.proxy.value))
      case Throw(e) => DStep(d, u.calls, Throw(e))
  }

  /**
   * `configure`: a form value that is not a URL (None) fails the form and
   * changes nothing; otherwise the URL is stored (and saved) before the
   * planner is updated, so it stays stored even if that update throws.
   */
  function Configure(d: Descriptor, formUrl: Option<Url>, sp: Snapshot, send: Outcome): (r: DStep<bool>)
    ensures formUrl.None? ==> r == DStep(d, [], Throw(FormFailure("serverUrl")))
    ensures formUrl.Some? ==> r.desc.serverUrl == formUrl
    ensures r.result.Ok? ==> r.result.value && r.desc.proxy.Some? && r.desc.proxy.value.url == formUrl
    ensures CountVerb(r.calls, Delete) == 0
  {
    if formUrl.None? then DStep(d, [], Throw(FormFailure("serverUrl")))
    else UpdatePlanner(d.(serverUrl := formUrl), sp, send)
  }

  /** Reconfiguring the URL the proxy already addresses keeps the proxy, with no remote call. */
  lemma ConfigureSameUrlKeepsProxy(d: Descriptor, sp: Snapshot, send: Outcome)
    requires d.proxy.Some? && d.proxy.value.url.Some?
    ensures Configure(d, d.proxy.value.url, sp, send) == DStep(d.(serverUrl := d.proxy.value.url), [], Ok(true))
  {
  }

  /**
   * Reconfiguring a new URL starts a fresh proxy with one POST to it and
   * never stops the old one: the old planner is left running remotely.
   */
  lemma ConfigureNewUrlAbandonsOld(d: Descriptor, url: Url, sp: Snapshot)
    requires d.proxy.Some? && d.proxy.value.started && !d.proxy.value.stopped
    requires d.proxy.value.url != Some(url)
    requires QueueSerializerService.Serialize(sp, Empty()).Ok?
    ensures var r := Configure(d, Some(url), sp, Delivered);
      && r.result == Ok(true)
      && r.calls == [Call(Post, PlannerProxy.Resource(""), Delivered)]
      && r.desc.proxy == Some(PlannerProxy.Proxy(Some(url), true, false))
  {
  }

  // ---------------------------------------------------------------------
  // Dispatcher

  /** The dispatcher's fields: the cached solution and the hash of the state it answers. */
  datatype Dispatcher = Dispatcher(assignments: NodeAssignments, lastState: Int32)

  /** The field initialisers, before the constructor's first `update`. */
  const Initial: Dispatcher := Dispatcher(Empty(), -1)

  /** How the remote calls of one `update` end: a lazy proxy creation, the queue, the solution GET. */
  datatype Remote = Remote(create: Outcome, send: Outcome, reply: Reply<Json>)

  /** What a dispatcher operation leaves: both objects, the calls made, and the outcome. */
  datatype Tick<T> = Tick(disp: Dispatcher, desc: Descriptor, calls: seq<Call>, result: Result<T>)

  /**
   * `update`: when the state's hash equals the one last recorded, nothing.
   * Otherwise queue the state with the cached assignments, fetch the
   * solution, and only then record the new hash; any exception on the way
   * escapes and leaves the dispatcher as it was. `Ok(true)` reports a refresh.
   */
  function Update(disp: Dispatcher, desc: Descriptor, sp: Snapshot, hash: Int32, rem: Remote): (r: Tick<bool>)
    ensures disp.lastState == hash ==> r == Tick(disp, desc, [], Ok(false))
    ensures r.result.Throw? ==> r.disp == disp && disp.lastState != hash
    ensures r.result.Ok? ==> r.disp.lastState == hash
    ensures r.result == Ok(true) <==> disp.lastState != hash && r.result.Ok?
    ensures r.result == Ok(true) ==>
      && |r.calls| >= 2
      && r.calls[|r.calls| - 1] == Call(Get, PlannerProxy.Resource(""), Delivered)
      && QueueSerializerService.Deserialize(rem.reply.body) == Ok(r.disp.assignments)
    ensures r.desc.serverUrl == desc.serverUrl
  {
    if disp.lastState == hash then Tick(disp, desc, [], Ok(false))
    else
      var g := GetPlannerProxy(desc, sp, rem.create);
      match g.result
      case Throw(e) => Tick(disp, g.desc, g.calls, Throw(e))
      case Ok(proxy) =>
        var q := PlannerProxy.Queue(proxy, Some(sp), Some(disp.assignments), rem.send);
        var desc1 := g.desc.(proxy := Some(q.proxy));
        match q.result
        case Throw(e) => Tick(disp, desc1, g.calls + q.calls, Throw(e))
        case Ok(_) =>
          var s := PlannerProxy.Solution(q.proxy, rem.reply);
          var calls := g.calls + q.calls + s.calls;
          match s.result
          case Throw(e) => Tick(disp, desc1, calls, Throw(e))
          case Ok(a) => Tick(Dispatcher(a, hash), desc1, calls, Ok(true))
  }

  /** The constructor: the field initialisers followed by one `update`. */
  function Create(desc: Descriptor, sp: Snapshot, hash: Int32, rem: Remote): (r: Tick<bool>)
    ensures r.result.Throw? ==> r.disp == Initial
  {
    Update(Initial, desc, sp, hash, rem)
  }

  /** `canRun`: update, then block the item exactly when the solution gives it no node. */
  function CanRun(disp: Dispatcher, desc: Descriptor, sp: Snapshot, hash: Int32, rem: Remote, item: Item): (r: Tick<Verdict>)
    ensures r.result.Throw? <==> Update(disp, desc, sp, hash, rem).result.Throw?
    ensures r.result.Ok? ==> r.disp.lastState == hash
    ensures r.result.Ok? ==>
      (r.result.value.Block? <==> !(item.id in r.disp.assignments.entries && r.disp.assignments.entries[item.id].Some?))
    ensures r.result.Ok? && r.result.value.Block? ==> r.result.value.cause == DroolsDispatcher.NotAssigned
  {
    var u := Update(disp, desc, sp, hash, rem);
    match u.result
    case Throw(e) => Tick(u.disp, u.desc, u.calls, Throw(e))
    case Ok(_) =>
      var v := if NodeNameOf(u.disp.assignments, item).None? then Block(DroolsDispatcher.NotAssigned) else Admit;
      Tick(u.disp, u.desc, u.calls, Ok(v))
  }

  /** `canTake`: every node is refused, whatever the solution says. */
  function CanTake(disp: Dispatcher, node: Node, item: Item): (v: Verdict)
    ensures v.Block? && v.cause == DroolsDispatcher.NotAssigned
  {
    Block(DroolsDispatcher.NotAssigned)
  }

  /**
   * After a refresh, asking again about the same state makes no remote
   * call and returns the cached verdict, whatever the remote would answer.
   */
  lemma SameStateServedFromCache(disp: Dispatcher, desc: Descriptor, sp: Snapshot, hash: Int32, rem: Remote, rem2: Remote, item: Item)
    requires Update(disp, desc, sp, hash, rem).result.Ok?
    ensures var u := Update(disp, desc, sp, hash, rem);
      var again := CanRun(u.disp, u.desc, sp, hash, rem2, item);
      && again.calls == [] && again.disp == u.disp
      && (again.result == Ok(Admit) <==> NodeNameOf(u.disp.assignments, item).Some?)
  {
  }

  /** A failed update records nothing, so the next question about the same state asks the remote again. */
  lemma FailedUpdateRetried(disp: Dispatcher, desc: Descriptor, sp: Snapshot, hash: Int32, rem: Remote, rem2: Remote)
    requires Update(disp, desc, sp, hash, rem).result.Throw?
    ensures var u := Update(disp, desc, sp, hash, rem);
      u.disp.lastState != hash && Update(u.disp, u.desc, sp, hash, rem2).result != Ok(false)
  {
  }

  /**
   * The initial hash doubles as "never updated": a state whose Java hash
   * is -1 is never sent by the constructor, and every item is then refused
   * with the empty solution until the state changes.
   */
  lemma SentinelHashNeverSent(desc: Descriptor, sp: Snapshot, rem: Remote, item: Item)
    ensures Create(desc, sp, -1, rem) == Tick(Initial, desc, [], Ok(false))
    ensures CanRun(Initial, desc, sp, -1, rem, item) == Tick(Initial, desc, [], Ok(Block(DroolsDispatcher.NotAssigned)))
  {
  }

  /** With any other hash the constructor does send the state: the lazy proxy's POST comes first. */
  lemma ConstructorQueues(url: Url, sp: Snapshot, hash: Int32, rem: Remote)
    requires hash != -1
    requires QueueSerializerService.Serialize(sp, Empty()).Ok?
    ensures var r := Create(Descriptor(None, Some(url)), sp, hash, rem);
      |r.calls| > 0 && r.calls[0] == Call(Post, PlannerProxy.Resource(""), rem.create)
  {
  }
}
