/**
 * ExternalScheduler: the pluggable front of the external scheduler. Its
 * descriptor keeps the list of configured schedulers (null until first
 * read or configured); the first one is the active scheduler, and
 * without any the default scheduler answers. Scheduler implementations
 * are type parameters here.
 */
module ExternalScheduler {
  import opened Base

  /** The descriptor's list of configured schedulers; None while never read or configured. */
  datatype Descriptor<S> = Descriptor(builders: Option<seq<S>>)

  /** Which scheduler answers: the first configured one, or the default. */
  datatype Active<S> = Configured(scheduler: S) | DefaultScheduler

  /** `configuredProviders`: the list, created empty on first read. */
  function ConfiguredProviders<S>(d: Descriptor<S>): (r: (Descriptor<S>, seq<S>))
    ensures r.0.builders == Some(r.1)
    ensures d.builders.Some? ==> r == (d, d.builders.value)
    ensures d.builders.None? ==> r.1 == []
  {
    match d.builders
    case Some(list) => (d, list)
    case None => (Descriptor(Some([])), [])
  }

  /** `activeScheduler`: the first configured scheduler, the default one when there is none. */
  function ActiveScheduler<S>(d: Descriptor<S>): (r: (Descriptor<S>, Active<S>))
    ensures r.0 == ConfiguredProviders(d).0
    ensures r.1.Configured? <==> |ConfiguredProviders(d).1| > 0
    ensures r.1.Configured? ==> r.1.scheduler == ConfiguredProviders(d).1[0]
  {
    var (d1, list) := ConfiguredProviders(d);
    if |list| > 0 then (d1, Configured(list[0])) else (d1, DefaultScheduler)
  }

  /** `currentSolution`: whatever the active scheduler's `solution` answers. */
  function CurrentSolution<S, R>(d: Descriptor<S>, solution: Active<S> -> R): (r: (Descriptor<S>, R))
    ensures r.0 == ActiveScheduler(d).0
    ensures r.1 == solution(ActiveScheduler(d).1)
  {
    var (d1, active) := ActiveScheduler(d);
    (d1, solution(active))
  }

  /**
   * `configure`: rebuild the list from the form; when the rebuild fails
   * with an IOException (None) the form fails and the old list stays,
   * otherwise the new list replaces it whole.
   */
  function Configure<S>(d: Descriptor<S>, rebuilt: Option<seq<S>>): (r: (Descriptor<S>, Result<bool>))
    ensures rebuilt.None? ==> r == (d, Throw(FormFailure("rebuildHetero failed")))
    ensures rebuilt.Some? ==> r == (Descriptor(Some(rebuilt.value)), Ok(true))
  {
    match rebuilt
    case None => (d, Throw(FormFailure("rebuildHetero failed")))
    case Some(list) => (Descriptor(Some(list)), Ok(true))
  }

  /** After a successful configure, the first scheduler of the form is the active one; an empty form falls back to the default. */
  lemma ConfigureSelectsFirst<S>(d: Descriptor<S>, list: seq<S>)
    ensures var d1 := Configure(d, Some(list)).0;
      && (|list| > 0 ==> ActiveScheduler(d1).1 == Configured(list[0]))
      && (|list| == 0 ==> ActiveScheduler(d1).1 == DefaultScheduler)
      && ActiveScheduler(d1).0 == d1
  {
  }

  /** A failed configure leaves the active scheduler as it was. */
  lemma FailedConfigureKeepsActive<S>(d: Descriptor<S>)
    ensures ActiveScheduler(Configure(d, None).0) == ActiveScheduler(d)
  {
  }

  /** Reading the list is idempotent: the lazy creation happens once and the second read sees its result. */
  lemma ReadTwiceSame<S>(d: Descriptor<S>)
    ensures ActiveScheduler(ActiveScheduler(d).0) == ActiveScheduler(d)
  {
  }
}
