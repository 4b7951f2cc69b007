/**
 * PlannerProxy: the older planner client. Instead of one status it keeps
 * two flags that only ever go from false to true: `started` (set by the
 * first `queue`, before its POST is sent) and `stopped` (set by the first
 * `stop` after start, before its DELETE is sent). Remote failures escape
 * as Jersey's own exceptions. Bodies go through QueueSerializerService.
 *
 * The URL is not checked on construction. Every remote call resolves its
 * resource against it, and for a null URL that resolution fails and the
 * handler then dereferences the null URL to build its message: each
 * remote call of a proxy without a URL throws NullPointerException.
 */
module PlannerProxy {
  import opened Base
  import opened Host
  import opened Json
  import opened Assignments
  import opened Transport
  import QueueSerializerService

  /** Every resource lives below this path, resolved against the planner URL. */
  const Prefix: string := "/rest/hudsonQueue"

  function Resource(suffix: string): string {
    Prefix + suffix
  }

  datatype Proxy = Proxy(url: Option<Url>, started: bool, stopped: bool)

  /** What one operation leaves: the proxy, the calls it made, and what it returned or threw. */
  datatype Step<T> = Step(proxy: Proxy, calls: seq<Call>, result: Result<T>)

  /** `new PlannerProxy(url)`: neither started nor stopped. */
  function Create(url: Option<Url>): (p: Proxy)
    ensures p.url == url && !p.started && !p.stopped
  {
    Proxy(url, false, false)
  }

  /** `remoteUrl`: the constructor's URL, null included. */
  function RemoteUrl(p: Proxy): Option<Url> {
    p.url
  }

  /**
   * `queue`: refuse null assignments; serialize the state (which throws
   * NullPointerException for a null provider or a snapshot it cannot
   * serialize); then PUT when started, otherwise mark the proxy started and
   * POST. `stopped` is not consulted. Returns the proxy itself.
   */
  function Queue(p: Proxy, sp: Option<Snapshot>, a: Option<NodeAssignments>, send: Outcome): (r: Step<Proxy>)
    ensures a.None? ==> r == Step(p, [], Throw(IllegalArgument("No assignments provided")))
    ensures r.proxy.url == p.url && r.proxy.stopped == p.stopped
    ensures r.proxy.started <==> p.started || |r.calls| == 1
    ensures |r.calls| <= 1
    ensures |r.calls| == 1 <==> a.Some? && sp.Some? && QueueSerializerService.Serialize(sp.value, a.value).Ok? && p.url.Some?
    ensures |r.calls| == 1 ==> r.calls[0] == Call(if p.started then Put else Post, Resource(""), send)
    ensures r.result.Ok? <==> |r.calls| == 1 && send == Delivered
    ensures r.result.Ok? ==> r.result.value == r.proxy
    ensures |r.calls| == 1 && send != Delivered ==> r.result == Throw(Raised(send))
    ensures a.Some? && |r.calls| == 0 ==> r.result == Throw(NullPointer)
  {
    if a.None? then Step(p, [], Throw(IllegalArgument("No assignments provided")))
    else if sp.None? || QueueSerializerService.Serialize(sp.value, a.value).Throw? then Step(p, [], Throw(NullPointer))
    else if p.url.None? then Step(p, [], Throw(NullPointer))
    else
      var next := p.(started := true);
      var call := Call(if p.started then Put else Post, Resource(""), send);
      if send == Delivered then Step(next, [call], Ok(next))
      else Step(next, [call], Throw(Raised(send)))
  }

  /** A GET that needs a started proxy; a failed GET escapes unwrapped. */
  function Fetch(p: Proxy, suffix: string, reply: Reply<Json>): (r: Step<Json>)
    ensures r.proxy == p
    ensures !p.started ==> r == Step(p, [], Throw(IllegalState("Remote planner not started")))
    ensures p.started && p.url.None? ==> r == Step(p, [], Throw(NullPointer))
    ensures p.started && p.url.Some? ==> r.calls == [Call(Get, Resource(suffix), reply.outcome)]
    ensures r.result.Ok? <==> p.started && p.url.Some? && reply.outcome == Delivered
    ensures r.result.Ok? ==> r.result.value == reply.body
    ensures p.started && p.url.Some? && reply.outcome != Delivered ==> r.result == Throw(Raised(reply.outcome))
  {
    if !p.started then Step(p, [], Throw(IllegalState("Remote planner not started")))
    else if p.url.None? then Step(p, [], Throw(NullPointer))
    else
      var calls := [Call(Get, Resource(suffix), reply.outcome)];
      if reply.outcome == Delivered then Step(p, calls, Ok(reply.body))
      else Step(p, calls, Throw(Raised(reply.outcome)))
  }

  /** `score`: GET `/score` and decode it with `getScore`. */
  function Score(p: Proxy, reply: Reply<Json>): (r: Step<Int32>)
    ensures r.proxy == p
    ensures !p.started ==> r == Step(p, [], Throw(IllegalState("Remote planner not started")))
    ensures r.result.Ok? <==> p.started && p.url.Some? && reply.outcome == Delivered
                              && QueueSerializerService.GetScore(reply.body).Ok?
    ensures r.result.Ok? ==> r.result == QueueSerializerService.GetScore(reply.body)
  {
    var got := Fetch(p, "/score", reply);
    match got.result
    case Throw(e) => Step(p, got.calls, Throw(e))
    case Ok(body) => Step(p, got.calls, QueueSerializerService.GetScore(body))
  }

  /** `solution`: GET the planner resource and decode it with `deserialize`. */
  function Solution(p: Proxy, reply: Reply<Json>): (r: Step<NodeAssignments>)
    ensures r.proxy == p
    ensures !p.started ==> r == Step(p, [], Throw(IllegalState("Remote planner not started")))
    ensures r.result.Ok? <==> p.started && p.url.Some? && reply.outcome == Delivered
                              && QueueSerializerService.Deserialize(reply.body).Ok?
    ensures r.result.Ok? ==> r.result == QueueSerializerService.Deserialize(reply.body)
  {
    var got := Fetch(p, "", reply);
    match got.result
    case Throw(e) => Step(p, got.calls, Throw(e))
    case Ok(body) => Step(p, got.calls, QueueSerializerService.Deserialize(body))
  }

  /**
   * `stop`: nothing before the proxy is started; the first stop after
   * that marks it stopped and then sends the DELETE; later stops only log.
   */
  function Stop(p: Proxy, delete: Outcome): (r: Step<Proxy>)
    ensures r.proxy.url == p.url && r.proxy.started == p.started
    ensures r.proxy.stopped <==> p.stopped || p.started
    ensures |r.calls| == 1 <==> p.started && !p.stopped && p.url.Some?
    ensures |r.calls| == 1 ==> r.calls[0] == Call(Delete, Resource(""), delete)
    ensures |r.calls| != 1 ==> r.calls == []
    ensures r.result.Throw? <==> p.started && !p.stopped && (p.url.None? || delete != Delivered)
    ensures r.result.Ok? ==> r.result.value == r.proxy
  {
    if !p.started || p.stopped then Step(p, [], Ok(p))
    else
      var next := p.(stopped := true);
      if p.url.None? then Step(next, [], Throw(NullPointer))
      else
        var calls := [Call(Delete, Resource(""), delete)];
        if delete == Delivered then Step(next, calls, Ok(next))
        else Step(next, calls, Throw(Raised(delete)))
  }

  /** `stopped` is never consulted by `queue`: a stopped proxy still sends its updates with a PUT. */
  lemma QueueAfterStop(p: Proxy, delete: Outcome, sp: Snapshot, a: NodeAssignments, send: Outcome)
    requires p.started && p.url.Some?
    requires QueueSerializerService.Serialize(sp, a).Ok?
    ensures var stopped := Stop(p, delete).proxy;
      && stopped.stopped
      && Queue(stopped, Some(sp), Some(a), send).calls == [Call(Put, Resource(""), send)]
  {
  }

  // ---------------------------------------------------------------------
  // Whole lifetimes

  /** One proxy operation, with the outcome its call will meet. */
  datatype Command =
    | QueueCall(send: Outcome)
    | ScoreCall(reply: Reply<Json>)
    | SolutionCall(reply: Reply<Json>)
    | StopCall(delete: Outcome)

  /** Run one operation with non-null arguments; whatever it throws, the caller carries on. */
  function Exec(p: Proxy, c: Command, sp: Snapshot, a: NodeAssignments): (Proxy, seq<Call>) {
    match c
    case QueueCall(send) => var s := Queue(p, Some(sp), Some(a), send); (s.proxy, s.calls)
    case ScoreCall(reply) => var s := Score(p, reply); (s.proxy, s.calls)
    case SolutionCall(reply) => var s := Solution(p, reply); (s.proxy, s.calls)
    case StopCall(delete) => var s := Stop(p, delete); (s.proxy, s.calls)
  }

  function Run(p: Proxy, cmds: seq<Command>, sp: Snapshot, a: NodeAssignments): (Proxy, seq<Call>)
    decreases |cmds|
  {
    if |cmds| == 0 then (p, [])
    else
      var init := Run(p, cmds[..|cmds| - 1], sp, a);
      var last := Exec(init.0, cmds[|cmds| - 1], sp, a);
      (last.0, init.1 + last.1)
  }

  /** One operation: the flags only rise, and a DELETE is sent exactly when `stopped` rises on a proxy with a URL. */
  lemma ExecDeletes(p: Proxy, c: Command, sp: Snapshot, a: NodeAssignments)
    requires p.stopped ==> p.started
    ensures var r := Exec(p, c, sp, a);
      && r.0.url == p.url
      && (p.started ==> r.0.started) && (p.stopped ==> r.0.stopped)
      && (r.0.stopped ==> r.0.started)
      && CountVerb(r.1, Delete) == (if !p.stopped && r.0.stopped && p.url.Some? then 1 else 0)
  {
    var r := Exec(p, c, sp, a);
    if |r.1| == 1 {
      assert r.1[..0] == [];
    }
  }

  /**
   * Over the whole life of a proxy there is at most one DELETE, and
   * exactly one once the proxy has a URL and has been stopped; the flags
   * only rise, and `stopped` implies `started`.
   */
  lemma {:induction false} AtMostOneDelete(url: Option<Url>, cmds: seq<Command>, sp: Snapshot, a: NodeAssignments)
    ensures var r := Run(Create(url), cmds, sp, a);
      && r.0.url == url
      && (r.0.stopped ==> r.0.started)
      && CountVerb(r.1, Delete) == (if r.0.stopped && url.Some? then 1 else 0)
    decreases |cmds|
  {
    if |cmds| > 0 {
      var init := Run(Create(url), cmds[..|cmds| - 1], sp, a);
      AtMostOneDelete(url, cmds[..|cmds| - 1], sp, a);
      var last := Exec(init.0, cmds[|cmds| - 1], sp, a);
      ExecDeletes(init.0, cmds[|cmds| - 1], sp, a);
      CountVerbAppend(init.1, last.1, Delete);
    }
  }

  /** `remoteUrl` answers the constructor's URL, null included, whatever operations ran since. */
  lemma RemoteUrlKept(url: Option<Url>, cmds: seq<Command>, sp: Snapshot, a: NodeAssignments)
    ensures RemoteUrl(Run(Create(url), cmds, sp, a).0) == url
  {
    AtMostOneDelete(url, cmds, sp, a);
  }

  /** Before the first `queue`, `score` and `solution` refuse, with no remote call. */
  lemma NotStartedRefuses(url: Option<Url>, reply: Reply<Json>)
    ensures Score(Create(url), reply) == Step(Create(url), [], Throw(IllegalState("Remote planner not started")))
    ensures Solution(Create(url), reply) == Step(Create(url), [], Throw(IllegalState("Remote planner not started")))
  {
  }

  /** The first `queue` marks the proxy started even when its POST fails. */
  lemma StartedEvenIfPostFails(url: Url, sp: Snapshot, a: NodeAssignments, send: Outcome)
    requires QueueSerializerService.Serialize(sp, a).Ok?
    requires send != Delivered
    ensures var r := Queue(Create(Some(url)), Some(sp), Some(a), send);
      && r.proxy.started
      && r.calls == [Call(Post, Resource(""), send)]
      && r.result == Throw(Raised(send))
  {
  }
}
