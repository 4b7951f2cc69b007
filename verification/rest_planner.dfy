/**
 * RestPlanner: the client of the remote planner's REST interface. Two
 * states: STOPPED (initial) and RUNNING. The first `queue` creates the
 * remote session with a POST; later ones update it with a PUT, falling back
 * to one POST when the server rejects the PUT. `stop` deletes the session.
 * STOPPED is not terminal: a stopped planner is started again by `queue`.
 *
 * The request and response bodies go through a codec (`Translator`) that
 * is not part of this model: a queued state is not represented, a GET's
 * reply carries the already-decoded value, and how `buildQuery` ends for
 * the state being queued is a parameter (`query`): it returns the text, or
 * the exception it throws escapes `queue`.
 */
module RestPlanner {
  import opened Base
  import opened Host
  import opened Assignments
  import opened Transport

  /** Every resource lives below this path, resolved against the planner URL. */
  const Prefix: string := "rest/hudsonQueue"

  /** The planner's info page must open with this text... */
  const InfoPrefix: string := "hudson-queue-planning : "

  /** ...and the planner's name ends at the first occurrence of this one. */
  const InfoSuffix: string := " on URL"

  function Resource(suffix: string): string {
    Prefix + suffix
  }

  datatype Status = Running | Stopped

  /** A constructed client: its URL, the name the planner reported, its status. */
  datatype State = State(url: Url, name: string, status: Status)

  /** What one operation leaves: the client, the calls it made, and what it returned or threw. */
  datatype Step<T> = Step(planner: State, calls: seq<Call>, result: Result<T>)

  // ---------------------------------------------------------------------
  // Construction: `^hudson-queue-planning : (.*?) on URL`

  /** A character the regex `.` does not match. */
  predicate LineTerminator(c: char) {
    c == '\n' || c == '\r' || c as int == 0x85 || c as int == 0x2028 || c as int == 0x2029
  }

  /** The group can end at `i`: `.` matches every character before it, and the suffix follows. */
  predicate GroupEndsAt(rest: string, i: int) {
    0 <= i <= |rest| && OccursAt(rest, i, InfoSuffix)
    && forall k :: 0 <= k < i ==> !LineTerminator(rest[k])
  }

  /** The reluctant `(.*?)`: try to end the group at `i`, else consume one more character. */
  function LazyGroup(rest: string, i: nat): (r: Option<string>)
    requires i <= |rest|
    requires forall k :: 0 <= k < i ==> !LineTerminator(rest[k])
    requires forall j :: 0 <= j < i ==> !OccursAt(rest, j, InfoSuffix)
    ensures r.Some? ==> i <= |r.value| <= |rest| && r.value == rest[..|r.value|] && GroupEndsAt(rest, |r.value|)
    ensures r.Some? ==> forall j :: 0 <= j < |r.value| ==> !GroupEndsAt(rest, j)
    ensures r.None? ==> forall j :: 0 <= j <= |rest| ==> !GroupEndsAt(rest, j)
    decreases |rest| - i
  {
    if OccursAt(rest, i, InfoSuffix) then Some(rest[..i])
    else if i < |rest| && !LineTerminator(rest[i]) then LazyGroup(rest, i + 1)
    else None
  }

  /**
   * `fetchPlannerName`: the text between the opening and the first
   * " on URL", if the info text has that shape on its first line.
   */
  function PlannerName(info: string): (r: Option<string>)
    ensures r.Some? <==> StartsWith(info, InfoPrefix) && exists i :: GroupEndsAt(info[|InfoPrefix|..], i)
    ensures r.Some? ==> |InfoPrefix| + |r.value| <= |info| && info == InfoPrefix + r.value + info[|InfoPrefix| + |r.value|..]
    ensures r.Some? ==> StartsWith(info[|InfoPrefix| + |r.value|..], InfoSuffix)
    ensures r.Some? ==> forall k :: 0 <= k < |r.value| ==> !LineTerminator(r.value[k])
    ensures r.Some? ==> forall j :: 0 <= j < |r.value| ==> !GroupEndsAt(info[|InfoPrefix|..], j)
  {
    if StartsWith(info, InfoPrefix) then
      var rest := info[|InfoPrefix|..];
      var r := LazyGroup(rest, 0);
      assert info == InfoPrefix + rest;
      assert r.Some? ==> rest == r.value + rest[|r.value|..];
      assert r.Some? ==> info[|InfoPrefix| + |r.value|..] == rest[|r.value|..];
      r
    else None
  }

  /** Nothing in a name the planner could report spells " on URL" where it would end the group early. */
  lemma SuffixCannotStraddle(name: string, tail: string, i: int)
    requires !Contains(name, InfoSuffix)
    requires 0 <= i < |name|
    ensures !OccursAt(name + InfoSuffix + tail, i, InfoSuffix)
  {
    var s := name + InfoSuffix + tail;
    if i + |InfoSuffix| <= |name| {
      assert s[i..i + |InfoSuffix|] == name[i..i + |InfoSuffix|];
      assert !OccursAt(name, i, InfoSuffix);
    } else {
      // The window would have to read the suffix's opening blank at offset |name| - i.
      var d := |name| - i;
      var w := s[i..i + |InfoSuffix|];
      assert w[d] == s[|name|] == ' ';
      if d != 3 {
        assert w[d] != InfoSuffix[d];
      } else {
        assert w[4] == s[|name| + 1] == 'o';
        assert w[4] != InfoSuffix[4];
      }
    }
  }

  /**
   * The info page of a planner named `name` yields that name, whatever
   * follows " on URL", provided the name is one line and does not itself
   * spell " on URL".
   */
  lemma PlannerNameRoundTrip(name: string, tail: string)
    requires forall k :: 0 <= k < |name| ==> !LineTerminator(name[k])
    requires !Contains(name, InfoSuffix)
    ensures PlannerName(InfoPrefix + name + InfoSuffix + tail) == Some(name)
  {
    var info := InfoPrefix + name + InfoSuffix + tail;
    var rest := info[|InfoPrefix|..];
    assert rest == name + InfoSuffix + tail;
    assert GroupEndsAt(rest, |name|) by {
      assert rest[|name|..|name| + |InfoSuffix|] == InfoSuffix;
    }
    forall j | 0 <= j < |name|
      ensures !GroupEndsAt(rest, j)
    {
      SuffixCannotStraddle(name, tail, j);
    }
    var r := PlannerName(info);
    assert r.Some?;
    assert GroupEndsAt(rest, |r.value|);
    assert |r.value| == |name|;
    assert r.value == rest[..|name|] == name;
  }

  /** The result of the constructor: the calls made, and the client or the exception. */
  datatype Created = Created(calls: seq<Call>, result: Result<State>)

  /**
   * `new RestPlanner(url)`: refuse a null URL, then GET the info page and
   * read the planner's name from it. The client starts STOPPED.
   */
  function Create(url: Option<Url>, info: Reply<string>): (r: Created)
    ensures url.None? ==> r == Created([], Throw(IllegalArgument("No URL provided")))
    ensures url.Some? ==> r.calls == [Call(Get, Resource("/info"), info.outcome)]
    ensures r.result.Ok? <==> url.Some? && info.outcome == Delivered && PlannerName(info.body).Some?
    ensures r.result.Ok? ==> r.result.value == State(url.value, PlannerName(info.body).value, Stopped)
    ensures url.Some? && info.outcome != Delivered ==>
      r.result == Throw(PlannerError("Cannot get remote planner info for " + url.value))
    ensures url.Some? && info.outcome == Delivered && PlannerName(info.body).None? ==>
      r.result == Throw(PlannerError("Not a drools planner: " + info.body))
  {
    match url
    case None => Created([], Throw(IllegalArgument("No URL provided")))
    case Some(u) =>
      var calls := [Call(Get, Resource("/info"), info.outcome)];
      if info.outcome != Delivered then Created(calls, Throw(PlannerError("Cannot get remote planner info for " + u)))
      else match PlannerName(info.body)
        case None => Created(calls, Throw(PlannerError("Not a drools planner: " + info.body)))
        case Some(name) => Created(calls, Ok(State(u, name, Stopped)))
  }

  // ---------------------------------------------------------------------
  // Operations

  /** `remoteUrl`: the constructor's URL. */
  function RemoteUrl(p: State): Url {
    p.url
  }

  /** `sendQueue`: POST; only a delivered POST makes the planner RUNNING. */
  function SendQueue(p: State, post: Outcome): (r: Step<bool>)
    ensures r.calls == [Call(Post, Resource(""), post)]
    ensures post == Delivered ==> r.planner == p.(status := Running) && r.result == Ok(true)
    ensures post != Delivered ==> r.planner == p && r.result == Throw(PlannerError(CauseText(post)))
  {
    var calls := [Call(Post, Resource(""), post)];
    if post == Delivered then Step(p.(status := Running), calls, Ok(true))
    else Step(p, calls, Throw(PlannerError(CauseText(post))))
  }

  /**
   * `queue`: null arguments are refused before any call, and so is a
   * state the codec fails to encode (`query`), whose exception escapes. A
   * RUNNING planner is updated with a PUT (a rejected PUT falls back to
   * one POST, a connection failure escapes unwrapped), any other is
   * started with a POST.
   */
  function Queue(p: State, sp: Option<Snapshot>, a: Option<NodeAssignments>, query: Result<()>, put: Outcome, post: Outcome): (r: Step<bool>)
    ensures a.None? ==> r == Step(p, [], Throw(IllegalArgument("No assignments")))
    ensures a.Some? && sp.None? ==> r == Step(p, [], Throw(IllegalArgument("No stateProvider")))
    ensures a.Some? && sp.Some? && query.Throw? ==> r == Step(p, [], Throw(query.exc))
    ensures r.planner.url == p.url && r.planner.name == p.name
    ensures r.result.Ok? ==> r.result.value && r.planner.status == Running
    ensures r.calls == [] ==> r.planner == p
    ensures Ready(sp, a, query) && p.status == Stopped ==> r == SendQueue(p, post)
    ensures Ready(sp, a, query) && p.status == Running ==>
      && |r.calls| > 0
      && r.calls[0] == Call(Put, Resource(""), put)
      && (put == Delivered ==> r == Step(p, [r.calls[0]], Ok(true)))
      && (put == HandlerError ==> r == Step(p, [r.calls[0]], Throw(ClientHandler)))
      && (put == UniformError ==> r.calls == [r.calls[0], Call(Post, Resource(""), post)] && r.planner == p)
  {
    if a.None? then Step(p, [], Throw(IllegalArgument("No assignments")))
    else if sp.None? then Step(p, [], Throw(IllegalArgument("No stateProvider")))
    else if query.Throw? then Step(p, [], Throw(query.exc))
    else if p.status == Running then
      var putCall := Call(Put, Resource(""), put);
      if put == Delivered then Step(p, [putCall], Ok(true))
      else if put == HandlerError then Step(p, [putCall], Throw(ClientHandler))
      else
        var fallback := SendQueue(p, post);
        Step(fallback.planner, [putCall] + fallback.calls, fallback.result)
    else SendQueue(p, post)
  }

  /** Both arguments present and the state encoded: `queue` reaches the network. */
  predicate Ready(sp: Option<Snapshot>, a: Option<NodeAssignments>, query: Result<()>) {
    a.Some? && sp.Some? && query.Ok?
  }

  /** A GET that needs a RUNNING planner; a failed GET is wrapped. */
  function Fetch<T>(p: State, suffix: string, reply: Reply<T>): (r: Step<T>)
    ensures r.planner == p
    ensures p.status != Running ==> r.calls == [] && r.result == Throw(IllegalState("Remote planner not running"))
    ensures p.status == Running ==> r.calls == [Call(Get, Resource(suffix), reply.outcome)]
    ensures p.status == Running && reply.outcome == Delivered ==> r.result == Ok(reply.body)
    ensures p.status == Running && reply.outcome != Delivered ==> r.result == Throw(PlannerError(CauseText(reply.outcome)))
  {
    if p.status != Running then Step(p, [], Throw(IllegalState("Remote planner not running")))
    else
      var calls := [Call(Get, Resource(suffix), reply.outcome)];
      if reply.outcome == Delivered then Step(p, calls, Ok(reply.body))
      else Step(p, calls, Throw(PlannerError(CauseText(reply.outcome))))
  }

  /** `score`: GET `/score` from a RUNNING planner. */
  function Score<S>(p: State, reply: Reply<S>): (r: Step<S>)
    ensures r.planner == p
    ensures r.result.Ok? <==> p.status == Running && reply.outcome == Delivered
    ensures r.result.Ok? ==> r.result.value == reply.body && r.calls == [Call(Get, Resource("/score"), Delivered)]
    ensures p.status != Running ==> r.calls == [] && r.result == Throw(IllegalState("Remote planner not running"))
  {
    Fetch(p, "/score", reply)
  }

  /** `solution`: GET the planner resource itself from a RUNNING planner. */
  function Solution(p: State, reply: Reply<NodeAssignments>): (r: Step<NodeAssignments>)
    ensures r.planner == p
    ensures r.result.Ok? <==> p.status == Running && reply.outcome == Delivered
    ensures r.result.Ok? ==> r.result.value == reply.body && r.calls == [Call(Get, Resource(""), Delivered)]
    ensures p.status != Running ==> r.calls == [] && r.result == Throw(IllegalState("Remote planner not running"))
  {
    Fetch(p, "", reply)
  }

  /**
   * `stop`: a planner that is not RUNNING only logs. A RUNNING one becomes
   * STOPPED before the DELETE is sent, so it is STOPPED even when the
   * DELETE fails.
   */
  function Stop(p: State, delete: Outcome): (r: Step<State>)
    ensures r.planner == p.(status := Stopped)
    ensures p.status != Running ==> r.calls == [] && r.result == Ok(p)
    ensures p.status == Running ==> r.calls == [Call(Delete, Resource(""), delete)]
    ensures p.status == Running && delete == Delivered ==> r.result == Ok(r.planner)
    ensures p.status == Running && delete != Delivered ==> r.result == Throw(PlannerError(CauseText(delete)))
  {
    var stopped := p.(status := Stopped);
    if p.status != Running then Step(stopped, [], Ok(p))
    else
      var calls := [Call(Delete, Resource(""), delete)];
      if delete == Delivered then Step(stopped, calls, Ok(stopped))
      else Step(stopped, calls, Throw(PlannerError(CauseText(delete))))
  }

  /**
   * STOPPED is not terminal: after any stop, a delivered POST runs the
   * planner again; only a state the codec fails to encode keeps it
   * STOPPED, with no call.
   */
  lemma RestartAfterStop(p: State, delete: Outcome, sp: Snapshot, a: NodeAssignments, query: Result<()>, put: Outcome)
    ensures var q := Queue(Stop(p, delete).planner, Some(sp), Some(a), query, put, Delivered);
      && (q.planner.status == Running <==> query.Ok?)
      && (query.Ok? ==> q.result == Ok(true) && q.calls == [Call(Post, Resource(""), Delivered)])
      && (query.Throw? ==> q.result == Throw(query.exc) && q.calls == [])
  {
  }

  // ---------------------------------------------------------------------
  // Sessions: the status is a function of the calls made

  /** One client operation, with the outcomes its calls will meet. */
  datatype Command =
    | QueueCall(query: Result<()>, put: Outcome, post: Outcome)
    | ScoreCall(outcome: Outcome)
    | SolutionCall(outcome: Outcome)
    | StopCall(outcome: Outcome)

  /** Run one operation with non-null arguments; whatever it throws, the caller carries on. */
  function Exec(p: State, c: Command, sp: Snapshot, a: NodeAssignments): (r: (State, seq<Call>))
    ensures r.0.url == p.url && r.0.name == p.name
  {
    match c
    case QueueCall(query, put, post) => var s := Queue(p, Some(sp), Some(a), query, put, post); (s.planner, s.calls)
    case ScoreCall(o) => var s := Score(p, Reply(o, 0)); (s.planner, s.calls)
    case SolutionCall(o) => var s := Solution(p, Reply(o, a)); (s.planner, s.calls)
    case StopCall(o) => var s := Stop(p, o); (s.planner, s.calls)
  }

  function Run(p: State, cmds: seq<Command>, sp: Snapshot, a: NodeAssignments): (r: (State, seq<Call>))
    ensures r.0.url == p.url && r.0.name == p.name
    decreases |cmds|
  {
    if |cmds| == 0 then (p, [])
    else
      var init := Run(p, cmds[..|cmds| - 1], sp, a);
      var last := Exec(init.0, cmds[|cmds| - 1], sp, a);
      (last.0, init.1 + last.1)
  }

  /** `remoteUrl` answers the constructor's URL, whatever operations ran since. */
  lemma RemoteUrlKept(url: Url, info: Reply<string>, cmds: seq<Command>, sp: Snapshot, a: NodeAssignments)
    requires Create(Some(url), info).result.Ok?
    ensures RemoteUrl(Run(Create(Some(url), info).result.value, cmds, sp, a).0) == url
  {
  }

  /** Whether a remote session exists after `calls`: a delivered POST opens one, a DELETE closes it. */
  function SessionOpen(open: bool, calls: seq<Call>): bool
    decreases |calls|
  {
    if |calls| == 0 then open
    else
      var c := calls[|calls| - 1];
      if c.verb == Post && c.outcome == Delivered then true
      else if c.verb == Delete then false
      else SessionOpen(open, calls[..|calls| - 1])
  }

  /** Every PUT, GET and DELETE of the trace is issued while a session is open. */
  predicate InSession(open: bool, calls: seq<Call>) {
    forall k :: 0 <= k < |calls| && calls[k].verb != Post ==> SessionOpen(open, calls[..k])
  }

  lemma {:induction false} SessionOpenAppend(open: bool, a: seq<Call>, b: seq<Call>)
    ensures SessionOpen(open, a + b) == SessionOpen(SessionOpen(open, a), b)
    decreases |b|
  {
    if |b| == 0 {
      assert a + b == a;
    } else {
      assert (a + b)[..|a + b| - 1] == a + b[..|b| - 1];
      SessionOpenAppend(open, a, b[..|b| - 1]);
    }
  }

  lemma InSessionAppend(open: bool, a: seq<Call>, b: seq<Call>)
    requires InSession(open, a)
    requires InSession(SessionOpen(open, a), b)
    ensures InSession(open, a + b)
  {
    forall k | 0 <= k < |a + b| && (a + b)[k].verb != Post
      ensures SessionOpen(open, (a + b)[..k])
    {
      if k < |a| {
        assert (a + b)[..k] == a[..k];
      } else {
        assert (a + b)[..k] == a + b[..k - |a|];
        SessionOpenAppend(open, a, b[..k - |a|]);
      }
    }
  }

  lemma ExecInSession(p: State, c: Command, sp: Snapshot, a: NodeAssignments)
    ensures var r := Exec(p, c, sp, a);
      && SessionOpen(p.status == Running, r.1) == (r.0.status == Running)
      && InSession(p.status == Running, r.1)
  {
    var r := Exec(p, c, sp, a);
    var open := p.status == Running;
    if |r.1| == 1 {
      assert r.1[..0] == [];
    } else if |r.1| == 2 {
      assert r.1[..0] == [];
      assert r.1[..1] == [r.1[0]];
      assert SessionOpen(open, r.1[..1]) == open;
    }
  }

  /**
   * Over any sequence of operations the client is RUNNING exactly when
   * its calls leave a session open, and it never sends a PUT, a GET or a
   * DELETE outside a session.
   */
  lemma {:induction false} RunInSession(p: State, cmds: seq<Command>, sp: Snapshot, a: NodeAssignments)
    ensures var r := Run(p, cmds, sp, a);
      && SessionOpen(p.status == Running, r.1) == (r.0.status == Running)
      && InSession(p.status == Running, r.1)
    decreases |cmds|
  {
    if |cmds| > 0 {
      var init := Run(p, cmds[..|cmds| - 1], sp, a);
      RunInSession(p, cmds[..|cmds| - 1], sp, a);
      ExecInSession(init.0, cmds[|cmds| - 1], sp, a);
      var last := Exec(init.0, cmds[|cmds| - 1], sp, a);
      SessionOpenAppend(p.status == Running, init.1, last.1);
      InSessionAppend(p.status == Running, init.1, last.1);
    }
  }
}
