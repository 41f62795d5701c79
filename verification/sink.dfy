/** One-sided consumers: a `Result` or `Option` variant is handed to a
    callback and the rest is returned (src/sink/sink_result.rs,
    src/sink/sink_option.rs). The callback's effect is modelled by its call
    trace: the arguments it was invoked with, in order. */
module Sink {
  import opened Containers

  /** What a consumer did: the value it returned and the arguments its
      callback received, in order. */
  datatype Sunk<+R, +A> = Sunk(returned: R, calls: seq<A>)

  /** `Result::sink_ok`: an `Ok` payload goes to the callback once and `None`
      is returned; an `Err` payload is returned and the callback is not called. */
  function SinkOk<T, E>(r: Result<T, E>): (s: Sunk<Option<E>, T>)
    ensures |s.calls| <= 1
    ensures |s.calls| == 1 <==> s.returned.None?
    ensures |s.calls| == 1 <==> r.Ok?
    ensures r.Ok? ==> s.calls[0] == r.value
    ensures r.Err? ==> s.returned.value == r.error
  {
    match r
    case Ok(t) => Sunk(None, [t])
    case Err(e) => Sunk(Some(e), [])
  }

  /** `Result::sink_err`: an `Err` payload goes to the callback once and
      `None` is returned; an `Ok` payload is returned and the callback is not
      called. */
  function SinkErr<T, E>(r: Result<T, E>): (s: Sunk<Option<T>, E>)
    ensures |s.calls| <= 1
    ensures |s.calls| == 1 <==> s.returned.None?
    ensures |s.calls| == 1 <==> r.Err?
    ensures r.Err? ==> s.calls[0] == r.error
    ensures r.Ok? ==> s.returned.value == r.value
  {
    match r
    case Ok(t) => Sunk(Some(t), [])
    case Err(e) => Sunk(None, [e])
  }

  /** Exchanges the two variants of a result. */
  function Swap<T, E>(r: Result<T, E>): Result<E, T>
  {
    match r
    case Ok(t) => Err(t)
    case Err(e) => Ok(e)
  }

  /** `sink_err` is `sink_ok` with the variants exchanged. */
  lemma SinkErrIsSwappedSinkOk<T, E>(r: Result<T, E>)
    ensures SinkErr(r) == SinkOk(Swap(r))
  {
  }

  /** A trace of a one-sided consumer: either the callback ran once and
      nothing was returned, or it never ran and a value was returned. */
  predicate OneSided<X, A>(s: Sunk<Option<X>, A>)
  {
    (|s.calls| == 1 && s.returned.None?) || (|s.calls| == 0 && s.returned.Some?)
  }

  /** The result a `sink_ok` trace came from. */
  function UnsinkOk<T, E>(s: Sunk<Option<E>, T>): Result<T, E>
    requires OneSided(s)
  {
    if |s.calls| == 1 then Ok(s.calls[0]) else Err(s.returned.value)
  }

  /** `sink_ok` loses nothing: the callback's argument and the returned
      value together determine the result consumed, and every one-sided
      trace is produced by exactly one result. */
  lemma SinkOkRoundTrip<T, E>(r: Result<T, E>, s: Sunk<Option<E>, T>)
    ensures OneSided(SinkOk(r)) && UnsinkOk(SinkOk(r)) == r
    ensures OneSided(s) ==> SinkOk(UnsinkOk(s)) == s
  {
  }

  /** `sink_err` loses nothing either. */
  lemma SinkErrRoundTrip<T, E>(r: Result<T, E>)
    ensures OneSided(SinkErr(r)) && Swap(UnsinkOk(SinkErr(r))) == r
  {
  }

  /** `Option::sink`: a `Some` payload goes to the callback once, unchanged;
      `None` never calls it. */
  function Sink<T>(o: Option<T>): (calls: seq<T>)
    ensures |calls| == (if o.Some? then 1 else 0)
    ensures o.Some? ==> calls[0] == o.value
  {
    match o
    case Some(x) => [x]
    case None => []
  }

  /** The option a `sink` trace came from. */
  function UnsinkOption<T>(calls: seq<T>): Option<T>
  {
    if |calls| == 0 then None else Some(calls[0])
  }

  /** `sink` loses nothing: the option is recovered from the calls. */
  lemma SinkRoundTrip<T>(o: Option<T>)
    ensures UnsinkOption(Sink(o)) == o
  {
  }

  /** `sink_ok` calls its callback exactly as `sink` does on `Result::ok`. */
  lemma SinkOkCallsAsSink<T, E>(r: Result<T, E>)
    ensures SinkOk(r).calls == Sink(OkOf(r))
    ensures SinkOk(r).returned == ErrOf(r)
  {
  }
}
