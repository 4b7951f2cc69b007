/**
 * CachingPlanner: a decorator that forwards `queue` only when the state
 * it is given differs from the last one forwarded, and memoises `score`
 * and `solution` until the next forwarded `queue`. "Differs" is judged by
 * a fingerprint of the two arguments' hash codes, which are inputs here.
 *
 * The delegate is any planner: its answers are parameters, and the calls
 * the decorator makes on it are returned as a trace.
 */
module CachingPlanner {
  import opened Base
  import opened Assignments

  /** The decorator's fields: the last forwarded fingerprint, the cached score and solution. */
  datatype Cache = Cache(remoteState: Option<int>, remoteScore: Option<Int32>, remoteSolution: Option<NodeAssignments>)

  /** A call made on the delegate. */
  datatype Delegated =
    | Queued(stateHash: Int32, assignmentsHash: Int32)
    | ScoreFetched
    | SolutionFetched
    | StopPassed
    | UrlPassed

  datatype Step<T> = Step(cache: Cache, calls: seq<Delegated>, result: Result<T>)

  /** `new CachingPlanner(planner)`: nothing stored, nothing cached. */
  function Create(): (c: Cache)
    ensures c.remoteState.None? && c.remoteScore.None? && c.remoteSolution.None?
  {
    Cache(None, None, None)
  }

  // ---------------------------------------------------------------------
  // Fingerprints

  /**
   * `fingerprint` as written: `+` binds tighter than `<<`, so the state's
   * hash is shifted, as a 32-bit `int`, by the `int` sum `32 + h(assignments)`;
   * only then is the result widened to `long`. Since a shift reads only the
   * low five bits of its distance, the 32 is lost: the fingerprint is the
   * state's hash shifted by the assignments' hash, and an assignments hash
   * that is a multiple of 32 leaves the state's hash as it is.
   */
  function FingerprintAsWritten(stateHash: Int32, assignmentsHash: Int32): (f: Int32)
    ensures f == ShiftLeft32(stateHash, assignmentsHash)
    ensures assignmentsHash % 32 == 0 ==> f == stateHash
    ensures stateHash == 0 ==> f == 0
  {
    var distance := Wrap32(32 + assignmentsHash);
    Wrap32Mod32(assignmentsHash);
    ShiftLeft32Low5(stateHash, distance, assignmentsHash);
    ShiftLeft32(stateHash, distance)
  }

  /**
   * The unbounded value of `((long) stateHash << 32) + assignmentsHash`:
   * the state's hash in the high word, the assignments' hash added below
   * it. Java wraps this sum modulo 2^64, which changes it only for state
   * hash -2^31 with a negative assignments hash; the lower bound below
   * includes those values unwrapped.
   */
  function Fingerprint(stateHash: Int32, assignmentsHash: Int32): (f: int)
    ensures -TwoTo31 * TwoTo32 - TwoTo31 <= f < TwoTo31 * TwoTo32
  {
    stateHash * TwoTo32 + assignmentsHash
  }

  /** Distinct hash pairs give distinct fingerprints. */
  lemma FingerprintInjective(hs1: Int32, ha1: Int32, hs2: Int32, ha2: Int32)
    requires Fingerprint(hs1, ha1) == Fingerprint(hs2, ha2)
    ensures hs1 == hs2 && ha1 == ha2
  {
    assert (hs1 - hs2) * TwoTo32 == ha2 - ha1;
  }

  /**
   * The fingerprint as written collides: a state hashing to 0 gives 0
   * whatever the assignments, and assignment hashes 0 and 32 shift by the
   * same distance.
   */
  lemma FingerprintAsWrittenCollides(assignmentsHash: Int32, stateHash: Int32)
    ensures FingerprintAsWritten(0, assignmentsHash) == 0
    ensures FingerprintAsWritten(stateHash, 0) == FingerprintAsWritten(stateHash, 32)
    ensures FingerprintAsWritten(stateHash, 0) == stateHash
  {
  }

  // ---------------------------------------------------------------------
  // Operations

  /**
   * `queue`, for a given fingerprint: forward when it differs from the
   * stored one, then clear the caches and store it. An exception from the
   * delegate's `queue` escapes before the caches are touched.
   */
  function QueueWith(c: Cache, key: int, stateHash: Int32, assignmentsHash: Int32, delegate: Result<bool>): (r: Step<()>)
    ensures c.remoteState == Some(key) ==> r == Step(c, [], Ok(()))
    ensures c.remoteState != Some(key) ==> r.calls == [Queued(stateHash, assignmentsHash)]
    ensures c.remoteState != Some(key) && delegate.Ok? ==> r == Step(Cache(Some(key), None, None), r.calls, Ok(()))
    ensures c.remoteState != Some(key) && delegate.Throw? ==> r.cache == c && r.result == Throw(delegate.exc)
  {
    if c.remoteState == Some(key) then Step(c, [], Ok(()))
    else
      var calls := [Queued(stateHash, assignmentsHash)];
      match delegate
      case Throw(e) => Step(c, calls, Throw(e))
      case Ok(_) => Step(Cache(Some(key), None, None), calls, Ok(()))
  }

  /**
   * `queue` keyed by the fingerprint as written: a call is skipped exactly
   * when the stored key is the state's hash shifted by the assignments'.
   */
  function QueueAsWritten(c: Cache, stateHash: Int32, assignmentsHash: Int32, delegate: Result<bool>): (r: Step<()>)
    ensures r.calls == [] <==> c.remoteState == Some(ShiftLeft32(stateHash, assignmentsHash))
    ensures r.calls != [] ==> r.calls == [Queued(stateHash, assignmentsHash)]
    ensures r.calls != [] && delegate.Ok? ==> r.cache == Cache(Some(ShiftLeft32(stateHash, assignmentsHash)), None, None)
  {
    QueueWith(c, FingerprintAsWritten(stateHash, assignmentsHash), stateHash, assignmentsHash, delegate)
  }

  /** `queue` keyed by the intended fingerprint: a call is skipped exactly when both hashes are the stored ones. */
  function Queue(c: Cache, stateHash: Int32, assignmentsHash: Int32, delegate: Result<bool>): (r: Step<()>)
    ensures r.calls == [] <==> c.remoteState == Some(Fingerprint(stateHash, assignmentsHash))
    ensures r.calls != [] ==> r.calls == [Queued(stateHash, assignmentsHash)]
    ensures r.calls != [] && delegate.Ok? ==> r.cache == Cache(Some(Fingerprint(stateHash, assignmentsHash)), None, None)
  {
    QueueWith(c, Fingerprint(stateHash, assignmentsHash), stateHash, assignmentsHash, delegate)
  }

  /** `score`: ask the delegate only when no score is cached; cache what it returns. */
  function Score(c: Cache, fetched: Result<Int32>): (r: Step<Int32>)
    ensures c.remoteScore.Some? ==> r == Step(c, [], Ok(c.remoteScore.value))
    ensures c.remoteScore.None? ==> r.calls == [ScoreFetched] && r.result == fetched
    ensures c.remoteScore.None? && fetched.Ok? ==> r.cache == c.(remoteScore := Some(fetched.value))
    ensures c.remoteScore.None? && fetched.Throw? ==> r.cache == c
  {
    if c.remoteScore.Some? then Step(c, [], Ok(c.remoteScore.value))
    else match fetched
      case Ok(s) => Step(c.(remoteScore := Some(s)), [ScoreFetched], Ok(s))
      case Throw(e) => Step(c, [ScoreFetched], Throw(e))
  }

  /** `solution`: ask the delegate only when no solution is cached; a null answer is not cached. */
  function Solution(c: Cache, fetched: Result<Option<NodeAssignments>>): (r: Step<Option<NodeAssignments>>)
    ensures c.remoteSolution.Some? ==> r == Step(c, [], Ok(c.remoteSolution))
    ensures c.remoteSolution.None? ==> r.calls == [SolutionFetched] && r.result == fetched
    ensures c.remoteSolution.None? && fetched.Ok? ==> r.cache == c.(remoteSolution := fetched.value)
    ensures c.remoteSolution.None? && fetched.Throw? ==> r.cache == c
  {
    if c.remoteSolution.Some? then Step(c, [], Ok(c.remoteSolution))
    else match fetched
      case Ok(s) => Step(c.(remoteSolution := s), [SolutionFetched], Ok(s))
      case Throw(e) => Step(c, [SolutionFetched], Throw(e))
  }

  /** `stop`: passed straight to the delegate, whose answer is returned; the caches are kept. */
  function Stop<P>(c: Cache, delegate: Result<P>): (r: Step<P>)
    ensures r.cache == c && r.result == delegate
    ensures Delegated.StopPassed in r.calls && |r.calls| == 1
  {
    Step(c, [StopPassed], delegate)
  }

  /** `remoteUrl`: passed straight to the delegate; the caches are kept. */
  function RemoteUrl<U>(c: Cache, delegate: Result<U>): (r: Step<U>)
    ensures r.cache == c && r.result == delegate
    ensures Delegated.UrlPassed in r.calls && |r.calls| == 1
  {
    Step(c, [UrlPassed], delegate)
  }

  // ---------------------------------------------------------------------
  // Properties over several calls

  /**
   * `stop` and `remoteUrl` make exactly one delegate call each, return its
   * answer and leave the caches alone: a cached score is still served,
   * without a fetch, after either.
   */
  lemma PassThrough<P, U>(c: Cache, stopped: Result<P>, url: Result<U>, fetched: Result<Int32>)
    requires c.remoteScore.Some?
    ensures Stop(c, stopped).calls == [StopPassed] && Stop(c, stopped).result == stopped
    ensures RemoteUrl(c, url).calls == [UrlPassed] && RemoteUrl(c, url).result == url
    ensures Score(Stop(c, stopped).cache, fetched) == Step(c, [], Ok(c.remoteScore.value))
    ensures Score(RemoteUrl(c, url).cache, fetched) == Step(c, [], Ok(c.remoteScore.value))
  {
  }

  /** The first `queue` after construction always reaches the delegate. */
  lemma FirstQueueForwarded(stateHash: Int32, assignmentsHash: Int32, delegate: Result<bool>)
    ensures Queue(Create(), stateHash, assignmentsHash, delegate).calls == [Queued(stateHash, assignmentsHash)]
  {
  }

  /** Two identical consecutive `queue` calls reach the delegate once, and the second changes nothing. */
  lemma DuplicateQueueForwardedOnce(c: Cache, stateHash: Int32, assignmentsHash: Int32, d1: Result<bool>, d2: Result<bool>)
    requires d1.Ok?
    ensures var first := Queue(c, stateHash, assignmentsHash, d1);
      var second := Queue(first.cache, stateHash, assignmentsHash, d2);
      && |first.calls| + |second.calls| <= 1
      && second.cache == first.cache
  {
  }

  /** A `queue` with different hashes always reaches the delegate, and clears both caches. */
  lemma ChangedQueueForwarded(c: Cache, hs1: Int32, ha1: Int32, hs2: Int32, ha2: Int32, d1: Result<bool>, d2: Result<bool>)
    requires d1.Ok? && d2.Ok?
    requires (hs1, ha1) != (hs2, ha2)
    ensures var first := Queue(c, hs1, ha1, d1);
      var second := Queue(first.cache, hs2, ha2, d2);
      && second.calls == [Queued(hs2, ha2)]
      && second.cache.remoteScore.None? && second.cache.remoteSolution.None?
  {
    if Fingerprint(hs1, ha1) == Fingerprint(hs2, ha2) {
      FingerprintInjective(hs1, ha1, hs2, ha2);
    }
  }

  /** As written, a change of assignments from hash 0 to hash 32 is not forwarded: the planner keeps the stale state. */
  lemma ChangeLostAsWritten(c: Cache, stateHash: Int32, d1: Result<bool>, d2: Result<bool>)
    requires d1.Ok?
    ensures var first := QueueAsWritten(c, stateHash, 0, d1);
      QueueAsWritten(first.cache, stateHash, 32, d2).calls == []
  {
    var first := QueueAsWritten(c, stateHash, 0, d1);
    var key := ShiftLeft32(stateHash, 0);
    assert key == stateHash == ShiftLeft32(stateHash, 32);
    assert first.cache.remoteState == Some(key);
  }

  /** N `score` calls with nothing cached, on a delegate that answers: one fetch, and every call returns its answer. */
  function Scores(c: Cache, answers: seq<Result<Int32>>): (Cache, seq<Delegated>, seq<Result<Int32>>)
    decreases |answers|
  {
    if |answers| == 0 then (c, [], [])
    else
      var init := Scores(c, answers[..|answers| - 1]);
      var last := Score(init.0, answers[|answers| - 1]);
      (last.cache, init.1 + last.calls, init.2 + [last.result])
  }

  lemma {:induction false} ScoreFetchedOnce(c: Cache, answers: seq<Result<Int32>>)
    requires |answers| > 0 && answers[0].Ok?
    requires c.remoteScore.None?
    ensures var r := Scores(c, answers);
      && r.1 == [ScoreFetched]
      && |r.2| == |answers|
      && (forall k :: 0 <= k < |r.2| ==> r.2[k] == answers[0])
      && r.0 == c.(remoteScore := Some(answers[0].value))
    decreases |answers|
  {
    if |answers| > 1 {
      ScoreFetchedOnce(c, answers[..|answers| - 1]);
      assert answers[..|answers| - 1][0] == answers[0];
    } else {
      assert answers[..0] == [];
    }
  }

  function Solutions(c: Cache, answers: seq<Result<Option<NodeAssignments>>>): (Cache, seq<Delegated>, seq<Result<Option<NodeAssignments>>>)
    decreases |answers|
  {
    if |answers| == 0 then (c, [], [])
    else
      var init := Solutions(c, answers[..|answers| - 1]);
      var last := Solution(init.0, answers[|answers| - 1]);
      (last.cache, init.1 + last.calls, init.2 + [last.result])
  }

  /** N `solution` calls with nothing cached, on a delegate that answers a solution: one fetch, one answer. */
  lemma {:induction false} SolutionFetchedOnce(c: Cache, answers: seq<Result<Option<NodeAssignments>>>)
    requires |answers| > 0 && answers[0].Ok? && answers[0].value.Some?
    requires c.remoteSolution.None?
    ensures var r := Solutions(c, answers);
      && r.1 == [SolutionFetched]
      && |r.2| == |answers|
      && (forall k :: 0 <= k < |r.2| ==> r.2[k] == answers[0])
      && r.0 == c.(remoteSolution := answers[0].value)
    decreases |answers|
  {
    if |answers| > 1 {
      SolutionFetchedOnce(c, answers[..|answers| - 1]);
      assert answers[..|answers| - 1][0] == answers[0];
    } else {
      assert answers[..0] == [];
    }
  }

  /** A forwarded `queue` between two `score` calls makes the second fetch again. */
  lemma ScoreRefetchedAfterQueue(c: Cache, s1: Result<Int32>, stateHash: Int32, assignmentsHash: Int32, s2: Result<Int32>)
    requires c.remoteState != Some(Fingerprint(stateHash, assignmentsHash))
    ensures var a := Score(c, s1);
      var q := Queue(a.cache, stateHash, assignmentsHash, Ok(true));
      Score(q.cache, s2).calls == [ScoreFetched]
  {
  }
}
