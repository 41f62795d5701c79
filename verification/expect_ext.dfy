/** Assertions on `Option` and unwrapping a result that cannot fail
    (src/expect/expect_none.rs, src/expect/unwrap_never.rs). */
module ExpectExt {
  import opened Containers
  import opened Panics

  /** The message `unwrap_none` panics with. */
  const UnwrapNoneFailed: string := "called `Option::unwrap_none()` on a `Some` value"

  /** `unwrap_none`: returns when the option is `None`, else panics with a
      fixed message. */
  function UnwrapNone<T>(o: Option<T>): (c: Call<()>)
    ensures c.Returned? <==> o.None?
    ensures c.Panicked? ==> c.message == UnwrapNoneFailed
  {
    Assert(o.None?, UnwrapNoneFailed)
  }

  /** `expect_none`: returns when the option is `None`, else panics with `msg`. */
  function ExpectNone<T>(o: Option<T>, msg: string): (c: Call<()>)
    ensures c.Returned? <==> o.None?
    ensures c.Panicked? ==> c.message == msg
  {
    Assert(o.None?, msg)
  }

  /** `unwrap_none` is `expect_none` with its fixed message, and neither
      depends on the payload of a `Some`. */
  lemma UnwrapNoneIsExpectNone<T>(o: Option<T>, x: T, y: T, msg: string)
    ensures UnwrapNone(o) == ExpectNone(o, UnwrapNoneFailed)
    ensures ExpectNone(Some(x), msg) == ExpectNone(Some(y), msg)
  {
  }

  /** `unwrap_never`: the success value. A result that cannot fail is always
      `Ok`, so there is no error case and nothing to panic about. */
  function UnwrapNever<T(00)>(r: InfallibleResult<T>): (v: T)
    ensures r == Ok(v)
  {
    match r
    case Ok(v) => v
  }

  /** `unwrap_never` gives what `Result::unwrap` gives on the same value, and
      that `unwrap` returns. */
  lemma UnwrapNeverIsUnwrap<T(00)>(r: InfallibleResult<T>, debug: Infallible -> string)
    ensures Unwrap(r, debug) == Returned(UnwrapNever(r))
  {
  }
}
