/** A call that may panic. A panic does not return to the caller; it is
    modelled as a distinct outcome carrying the panic message, so that a
    contract can say both when the call returns and what it panics with. The
    three panicking primitives of the standard library that the crate calls are
    modelled here with the messages the standard library documents. */
module Panics {
  import opened Containers

  /** The outcome of a call: it returned `value`, or it panicked with `message`. */
  datatype Call<+T> = Returned(value: T) | Panicked(message: string)

  /** Runs `f` on the value of a call that returned; a panic propagates unchanged. */
  function AndThen<T, U>(c: Call<T>, f: T -> U): (c': Call<U>)
    ensures c'.Returned? <==> c.Returned?
    ensures c.Returned? ==> c'.value == f(c.value)
    ensures c.Panicked? ==> c'.message == c.message
  {
    match c
    case Returned(t) => Returned(f(t))
    case Panicked(m) => Panicked(m)
  }

  /** `assert!(cond, "{}", msg)`: returns when `cond` holds, else panics with `msg`. */
  function Assert(cond: bool, msg: string): (c: Call<()>)
    ensures c.Returned? <==> cond
    ensures c.Panicked? ==> c.message == msg
  {
    if cond then Returned(()) else Panicked(msg)
  }

  /** The fixed text of `Result::unwrap`'s panic, before the error's `Debug` rendering. */
  const UnwrapFailed: string := "called `Result::unwrap()` on an `Err` value"

  /** `Result::expect(msg)`: the `Ok` payload, or a panic whose message is
      `msg`, a colon and a space, and the `Debug` rendering of the error. */
  function Expect<T, E>(r: Result<T, E>, msg: string, debug: E -> string): (c: Call<T>)
    ensures c.Returned? <==> r.Ok?
    ensures r.Ok? ==> c.value == r.value
    ensures r.Err? ==> c.message == msg + ": " + debug(r.error)
  {
    match r
    case Ok(t) => Returned(t)
    case Err(e) => Panicked(msg + ": " + debug(e))
  }

  /** `Result::unwrap`: `Result::expect` with the standard library's own message. */
  function Unwrap<T, E>(r: Result<T, E>, debug: E -> string): (c: Call<T>)
    ensures c.Returned? <==> r.Ok?
    ensures r.Ok? ==> c.value == r.value
    ensures r.Err? ==> c.message == UnwrapFailed + ": " + debug(r.error)
  {
    Expect(r, UnwrapFailed, debug)
  }
}
