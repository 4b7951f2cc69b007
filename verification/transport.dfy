/**
 * The HTTP client both planner clients talk through, reduced to what the
 * clients observe: each remote call either is delivered or fails with one
 * of Jersey's two exceptions (a non-success status, or a connection-level
 * failure). Every call is logged with its method (section 9.3 of RFC 9110)
 * and the resource path it addresses, below the planner URL.
 */
module Transport {
  import opened Base

  datatype Verb = Get | Post | Put | Delete

  /** How a remote call ended. */
  datatype Outcome =
    | Delivered     // 2xx
    | UniformError  // UniformInterfaceException: the server answered with a failure status
    | HandlerError  // ClientHandlerException: no usable answer (connection, I/O)

  /** One remote call as issued, and how it ended. */
  datatype Call = Call(verb: Verb, resource: string, outcome: Outcome)

  /** The answer to a GET: its outcome, and the body when it was delivered. */
  datatype Reply<T> = Reply(outcome: Outcome, body: T)

  /** The Jersey exception a failed call raises, unwrapped. */
  function Raised(o: Outcome): (e: Exc)
    requires o != Delivered
    ensures o == UniformError <==> e == UniformInterface
    ensures o == HandlerError <==> e == ClientHandler
  {
    match o
    case UniformError => UniformInterface
    case HandlerError => ClientHandler
  }

  /** The text a failed call's exception prints as. */
  function CauseText(o: Outcome): (s: string)
    requires o != Delivered
  {
    if o == UniformError then "com.sun.jersey.api.client.UniformInterfaceException"
    else "com.sun.jersey.api.client.ClientHandlerException"
  }

  /** How many calls of the trace use `verb`. */
  function CountVerb(calls: seq<Call>, verb: Verb): (n: nat)
    ensures n <= |calls|
    ensures n == 0 <==> forall k :: 0 <= k < |calls| ==> calls[k].verb != verb
    decreases |calls|
  {
    if |calls| == 0 then 0
    else CountVerb(calls[..|calls| - 1], verb) + (if calls[|calls| - 1].verb == verb then 1 else 0)
  }

  lemma {:induction false} CountVerbAppend(a: seq<Call>, b: seq<Call>, verb: Verb)
    ensures CountVerb(a + b, verb) == CountVerb(a, verb) + CountVerb(b, verb)
    decreases |b|
  {
    if |b| == 0 {
      assert a + b == a;
    } else {
      assert (a + b)[..|a + b| - 1] == a + b[..|b| - 1];
      CountVerbAppend(a, b[..|b| - 1], verb);
    }
  }
}
