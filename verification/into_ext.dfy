/** Postfix constructors: any value into a `Result` or an `Option`
    (src/into/into_result.rs, src/into/into_option.rs). */
module IntoExt {
  import opened Containers
  import opened Panics
  import Sink

  /** `into_ok`: the value as the success of a result of any error type. */
  function IntoOk<T, E>(x: T): (r: Result<T, E>)
    ensures r.Ok? && r.value == x
  {
    Ok(x)
  }

  /** `into_err`: the value as the error of a result of any success type. */
  function IntoErr<T, E>(x: E): (r: Result<T, E>)
    ensures r.Err? && r.error == x
  {
    Err(x)
  }

  /** `into_some`: the value as a present option. */
  function IntoSome<T>(x: T): (o: Option<T>)
    ensures o.Some? && o.value == x
  {
    Some(x)
  }

  /** `into_none`: an absent option of any type; the value is dropped. */
  function IntoNone<T, U>(x: T): (o: Option<U>)
    ensures o.None?
  {
    None
  }

  /** Each constructor is undone by the matching extraction: unwrapping an
      `into_ok` returns the value, and `Result::ok`/`Result::err` recover what
      `into_ok`/`into_err` stored. */
  lemma IntoResultRoundTrip<T, E>(x: T, e: E, debug: E -> string)
    ensures Unwrap(IntoOk<T, E>(x), debug) == Returned(x)
    ensures OkOf(IntoOk<T, E>(x)) == Some(x) && ErrOf(IntoOk<T, E>(x)) == None
    ensures ErrOf(IntoErr<T, E>(e)) == Some(e) && OkOf(IntoErr<T, E>(e)) == None
  {
  }

  /** `into_some` hands its value to a sink exactly once; `into_none` never
      does, whatever value it dropped. */
  lemma IntoOptionSinks<T, U>(x: T, y: T)
    ensures Sink.Sink(IntoSome(x)) == [x]
    ensures Sink.Sink(IntoNone<T, U>(x)) == [] && IntoNone<T, U>(x) == IntoNone<T, U>(y)
  {
  }

  /** The documented examples. */
  lemma IntoExamples()
    ensures IntoOk<int, ()>(42) == Ok(42)
    ensures IntoErr<(), string>("error") == Err("error")
    ensures IntoSome(42) == Some(42)
    ensures IntoNone<int, string>(42) == None
  {
  }
}
