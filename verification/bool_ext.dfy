/** Extensions of `bool`: guards that become a `Result` or an `Option`
    (src/bool/then.rs) and assertions (src/bool/expect.rs). */
module BoolExt {
  import opened Containers
  import opened Panics

  /** `then_err`: `Err(err)` when the condition holds, `Ok(())` otherwise. */
  function ThenErr<E>(b: bool, err: E): (r: UnitResult<E>)
    ensures r.Err? <==> b
    ensures r.Err? ==> r.error == err
  {
    if b then Err(err) else Ok(())
  }

  /** `then_none`: `None` when the condition holds, `Some(())` otherwise. */
  function ThenNone(b: bool): (o: Option<()>)
    ensures o.None? <==> b
  {
    if b then None else Some(())
  }

  /** The two guards fail on the same conditions, for every error value, and
      the option guard is the result guard with its error dropped. */
  lemma ThenErrAgreesWithThenNone<E>(b: bool, err: E)
    ensures ThenErr(b, err).Err? <==> ThenNone(b).None?
    ensures ThenNone(b) == OkOf(ThenErr(b, err))
  {
  }

  /** Unsigned 32-bit integers. */
  type U32 = n: int | 0 <= n < 0x1_0000_0000

  /** The documentation's `filter_even_numbers`: returns early through
      `(number % 2 == 0).then_none()?`, so an even number gives `None` and an
      odd one is returned. */
  function FilterEvenNumbers(number: U32): (o: Option<U32>)
    ensures o.None? <==> number % 2 == 0
    ensures o.Some? ==> o.value == number
  {
    var guard := ThenNone(number % 2 == 0);
    if guard.None? then None else Some(number)
  }

  /** The documentation's two examples. */
  lemma FilterEvenNumbersExamples()
    ensures FilterEvenNumbers(42) == None
    ensures FilterEvenNumbers(43) == Some(43)
  {
  }

  /** `expect_true`: returns when the value is `true`, else panics with `msg`. */
  function ExpectTrue(b: bool, msg: string): (c: Call<()>)
    ensures c.Returned? <==> b
    ensures c.Panicked? ==> c.message == msg
  {
    Assert(b, msg)
  }

  /** `expect_false`: returns when the value is `false`, else panics with `msg`. */
  function ExpectFalse(b: bool, msg: string): (c: Call<()>)
    ensures c.Returned? <==> !b
    ensures c.Panicked? ==> c.message == msg
  {
    Assert(!b, msg)
  }

  /** Whatever the value, exactly one of the two assertions returns. */
  lemma ExactlyOneExpectReturns(b: bool, msgTrue: string, msgFalse: string)
    ensures ExpectTrue(b, msgTrue).Returned? != ExpectFalse(b, msgFalse).Returned?
    ensures ExpectFalse(b, msgFalse) == ExpectTrue(!b, msgFalse)
  {
  }
}
