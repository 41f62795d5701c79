/** Mapping a variant to a fixed value (src/map/result_map_to.rs,
    src/map/result_map_err_to.rs, src/map/option_map_to.rs). Each is the
    standard `map` with a closure that ignores its argument. */
module MapExt {
  import opened Containers

  /** `Result::map_to`: an `Ok` payload is replaced by `other`; an `Err`
      passes through unchanged. */
  function MapTo<T, E, U>(r: Result<T, E>, other: U): (r': Result<U, E>)
    ensures r'.Ok? <==> r.Ok?
    ensures r'.Ok? ==> r'.value == other
    ensures r'.Err? ==> r'.error == r.error
  {
    Map(r, _ => other)
  }

  /** `Result::map_err_to`: an `Err` payload is replaced by `other`; an `Ok`
      passes through unchanged. */
  function MapErrTo<T, E, F>(r: Result<T, E>, other: F): (r': Result<T, F>)
    ensures r'.Err? <==> r.Err?
    ensures r'.Err? ==> r'.error == other
    ensures r'.Ok? ==> r'.value == r.value
  {
    MapErr(r, _ => other)
  }

  /** `Option::map_to`: a `Some` payload is replaced by `value`; `None` stays. */
  function OptionMapTo<T, U>(o: Option<T>, value: U): (o': Option<U>)
    ensures o'.Some? <==> o.Some?
    ensures o'.Some? ==> o'.value == value
  {
    OptionMap(o, _ => value)
  }

  /** The payload replaced does not matter, and mapping twice is mapping to
      the last value: the result depends only on which variant was held. */
  lemma MapToForgetsPayload<T, E, U>(r: Result<T, E>, s: Result<T, E>, a: U, b: U)
    ensures r.Ok? == s.Ok? && (r.Err? ==> r == s) ==> MapTo(r, a) == MapTo(s, a)
    ensures MapTo(MapTo(r, a), b) == MapTo(r, b)
  {
  }

  /** The same for `map_err_to`. */
  lemma MapErrToForgetsPayload<T, E, F>(r: Result<T, E>, s: Result<T, E>, a: F, b: F)
    ensures r.Err? == s.Err? && (r.Ok? ==> r == s) ==> MapErrTo(r, a) == MapErrTo(s, a)
    ensures MapErrTo(MapErrTo(r, a), b) == MapErrTo(r, b)
  {
  }

  /** The same for the `Option` version. */
  lemma OptionMapToForgetsPayload<T, U>(o: Option<T>, p: Option<T>, a: U, b: U)
    ensures o.Some? == p.Some? ==> OptionMapTo(o, a) == OptionMapTo(p, a)
    ensures OptionMapTo(OptionMapTo(o, a), b) == OptionMapTo(o, b)
  {
  }

  /** The documentation's examples. */
  lemma MapToExamples()
    ensures var r: Result<int, ()> := Ok(42); MapTo(r, true) == Ok(true)
    ensures var r: Result<(), int> := Err(42); MapErrTo(r, false) == Err(false)
    ensures OptionMapTo(Some(42), "something") == Some("something")
  {
  }
}
