/** The crate's top-level combinators: handling the error of a `UnitResult`
    (src/handle_err.rs), unwrapping into a result with another error type
    (src/unwrap_ok.rs) and replacing a result by an error (src/or_err.rs). */
module Combinators {
  import opened Containers
  import opened Panics
  import Sink
  import MapExt

  /** `handle_err`: the error of a `UnitResult` goes to the callback once;
      `Ok(())` never calls it. Returns the callback's call trace. */
  function HandleErr<E>(r: UnitResult<E>): (calls: seq<E>)
    ensures |calls| == (if r.Err? then 1 else 0)
    ensures r.Err? ==> calls[0] == r.error
  {
    match r
    case Err(e) => [e]
    case Ok(_) => []
  }

  /** `handle_err` calls its callback exactly as `sink` does on
      `Result::err` and as `sink_err` does; nothing about the unit success is
      lost, so the result is recovered from the calls. */
  lemma HandleErrIsSink<E>(r: UnitResult<E>)
    ensures HandleErr(r) == Sink.Sink(ErrOf(r))
    ensures HandleErr(r) == Sink.SinkErr(r).calls
    ensures r == (if |HandleErr(r)| == 0 then Ok(()) else Err(HandleErr(r)[0]))
  {
    match r
    case Ok(u) => assert u == ();
    case Err(_) =>
  }

  /** `unwrap_ok`: `self.unwrap().into_ok()`. An `Ok` is returned with the
      same value under a new error type; an `Err` panics with
      `Result::unwrap`'s message, which renders the error with its `Debug`. */
  function UnwrapOk<T, EIn, EOut>(r: Result<T, EIn>, debug: EIn -> string)
    : (c: Call<Result<T, EOut>>)
    ensures c.Returned? <==> r.Ok?
    ensures c.Returned? ==> c.value.Ok? && c.value.value == r.value
    ensures r.Err? ==> c.message == UnwrapFailed + ": " + debug(r.error)
  {
    AndThen(Unwrap(r, debug), (t: T) => Ok(t))
  }

  /** `expect_ok`: `self.expect(msg).into_ok()`. An `Err` panics with a
      message that starts with `msg`, followed by the error's `Debug`. */
  function ExpectOk<T, EIn, EOut>(r: Result<T, EIn>, msg: string, debug: EIn -> string)
    : (c: Call<Result<T, EOut>>)
    ensures c.Returned? <==> r.Ok?
    ensures c.Returned? ==> c.value.Ok? && c.value.value == r.value
    ensures r.Err? ==> c.message == msg + ": " + debug(r.error)
  {
    AndThen(Expect(r, msg, debug), (t: T) => Ok(t))
  }

  /** When they return, both re-type the error and keep the success: the
      result is the input with its (absent) error mapped away. The two differ
      only in the panic message. */
  lemma UnwrapOkKeepsSuccess<T, EIn, EOut>(r: Result<T, EIn>, msg: string, debug: EIn -> string, e: EOut)
    ensures r.Ok? ==> UnwrapOk<T, EIn, EOut>(r, debug) == Returned(MapExt.MapErrTo(r, e))
    ensures UnwrapOk<T, EIn, EOut>(r, debug) == ExpectOk<T, EIn, EOut>(r, UnwrapFailed, debug)
  {
  }

  /** The documentation's example: `Ok(42)` unwraps to `Ok(42)`. */
  lemma UnwrapOkExample(debug: string -> string)
    ensures var r: Result<int, string> := Ok(42);
      UnwrapOk<int, string, ()>(r, debug) == Returned(Ok(42))
      && ExpectOk<int, string, ()>(r, "Expected Ok", debug) == Returned(Ok(42))
  {
  }

  /** `or_err`: always `Err(err)`. Despite the name, an `Ok` is not kept:
      the input is discarded entirely. */
  function OrErr<T, E, EOut>(r: Result<T, E>, err: EOut): (r': Result<T, EOut>)
    ensures r'.Err?
    ensures r'.error == err
  {
    Err(err)
  }

  /** The result of `or_err` does not depend on the input at all; in
      particular an `Ok` becomes an error, as the documentation's example
      asserts. */
  lemma OrErrDiscardsInput<T, E, EOut>(r: Result<T, E>, s: Result<T, E>, err: EOut)
    ensures OrErr(r, err) == OrErr(s, err)
    ensures OrErr(r, err) != MapExt.MapErrTo(r, err) <==> r.Ok?
  {
  }
}
