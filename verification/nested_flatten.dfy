/** Flattening a two-layer `Result<Result<T, EInner>, EOuter>` into a
    one-layer result whose error, a `NestedError`, records which layer failed
    (src/nested/flatten_err.rs). */
module NestedFlatten {
  import opened Containers

  /** The error of a flattened result: the inner layer's error or the outer
      layer's. The derived `is_inner`/`is_outer` tests are Dafny's own
      discriminators `Inner?` and `Outer?`. */
  datatype NestedError<+EInner, +EOuter> = Inner(inner: EInner) | Outer(outer: EOuter)

  /** `flatten_err`: the inner success if both layers succeed; otherwise the
      error of the layer that failed, tagged with that layer. An outer error
      leaves nothing inside to inspect. */
  function FlattenErr<T, EInner, EOuter>(r: Result<Result<T, EInner>, EOuter>)
    : (f: Result<T, NestedError<EInner, EOuter>>)
    ensures f.Ok? <==> r.Ok? && r.value.Ok?
    ensures f.Ok? ==> f.value == r.value.value
    ensures f.Err? && f.error.Outer? <==> r.Err?
    ensures r.Err? ==> f.error.outer == r.error
    ensures f.Err? && f.error.Inner? <==> r.Ok? && r.value.Err?
    ensures r.Ok? && r.value.Err? ==> f.error.inner == r.value.error
  {
    match r
    case Ok(Ok(v)) => Ok(v)
    case Ok(Err(e)) => Err(Inner(e))
    case Err(e) => Err(Outer(e))
  }

  /** The inverse of `FlattenErr`: rebuilds the two layers from the tag. */
  function Unflatten<T, EInner, EOuter>(f: Result<T, NestedError<EInner, EOuter>>)
    : Result<Result<T, EInner>, EOuter>
  {
    match f
    case Ok(v) => Ok(Ok(v))
    case Err(Inner(e)) => Ok(Err(e))
    case Err(Outer(e)) => Err(e)
  }

  /** Flattening loses nothing: the nested result can be rebuilt from it, and
      every flat result is the flattening of exactly one nested result. */
  lemma FlattenErrRoundTrip<T, EInner, EOuter>(
    r: Result<Result<T, EInner>, EOuter>, f: Result<T, NestedError<EInner, EOuter>>)
    ensures Unflatten(FlattenErr(r)) == r
    ensures FlattenErr(Unflatten(f)) == f
    ensures FlattenErr(r) == f <==> r == Unflatten(f)
  {
  }

  /** The derived `try_unwrap_inner`: the inner payload if the tag is `Inner`,
      otherwise the error handed back unchanged. */
  function TryUnwrapInner<EInner, EOuter>(e: NestedError<EInner, EOuter>)
    : (t: Result<EInner, NestedError<EInner, EOuter>>)
    ensures t.Ok? <==> e.Inner?
    ensures t.Ok? ==> e == Inner(t.value)
    ensures t.Err? ==> t.error == e
  {
    match e
    case Inner(x) => Ok(x)
    case Outer(_) => Err(e)
  }

  /** The derived `try_unwrap_outer`: the outer payload if the tag is `Outer`,
      otherwise the error handed back unchanged. */
  function TryUnwrapOuter<EInner, EOuter>(e: NestedError<EInner, EOuter>)
    : (t: Result<EOuter, NestedError<EInner, EOuter>>)
    ensures t.Ok? <==> e.Outer?
    ensures t.Ok? ==> e == Outer(t.value)
    ensures t.Err? ==> t.error == e
  {
    match e
    case Outer(x) => Ok(x)
    case Inner(_) => Err(e)
  }

  /** Exactly one of the two narrowings succeeds on any error, and the one that
      succeeds recovers the payload. */
  lemma TryUnwrapExactlyOne<EInner, EOuter>(e: NestedError<EInner, EOuter>)
    ensures TryUnwrapInner(e).Ok? != TryUnwrapOuter(e).Ok?
    ensures TryUnwrapInner(e).Ok? ==> e == Inner(TryUnwrapInner(e).value)
    ensures TryUnwrapOuter(e).Ok? ==> e == Outer(TryUnwrapOuter(e).value)
  {
  }

  /** The derived `unwrap_inner`, which panics unless the tag is `Inner`. */
  function UnwrapInner<EInner, EOuter>(e: NestedError<EInner, EOuter>): (x: EInner)
    requires e.Inner?
    ensures Inner(x) == e
  {
    e.inner
  }

  /** The derived `unwrap_outer`, which panics unless the tag is `Outer`. */
  function UnwrapOuter<EInner, EOuter>(e: NestedError<EInner, EOuter>): (x: EOuter)
    requires e.Outer?
    ensures Outer(x) == e
  {
    e.outer
  }

  /** `Display`: the text of whichever error is held, with nothing added.
      `showInner` and `showOuter` are the two payload types' own `Display`. */
  function Display<EInner, EOuter>(
    e: NestedError<EInner, EOuter>, showInner: EInner -> string, showOuter: EOuter -> string)
    : (s: string)
    ensures e.Inner? ==> s == showInner(e.inner)
    ensures e.Outer? ==> s == showOuter(e.outer)
  {
    match e
    case Outer(x) => showOuter(x)
    case Inner(x) => showInner(x)
  }

  /** `Error::source`: always present, and it is the held error itself, seen
      through `asDynInner` or `asDynOuter` as an erased error of type `Dyn`. */
  function Source<EInner, EOuter, Dyn>(
    e: NestedError<EInner, EOuter>, asDynInner: EInner -> Dyn, asDynOuter: EOuter -> Dyn)
    : (s: Option<Dyn>)
    ensures s.Some?
    ensures e.Inner? ==> s.value == asDynInner(e.inner)
    ensures e.Outer? ==> s.value == asDynOuter(e.outer)
  {
    match e
    case Outer(x) => Some(asDynOuter(x))
    case Inner(x) => Some(asDynInner(x))
  }

  /** A failed flattening displays as the error of the layer that failed. */
  lemma FlattenErrDisplaysFailingLayer<T, EInner, EOuter>(
    r: Result<Result<T, EInner>, EOuter>, showInner: EInner -> string, showOuter: EOuter -> string)
    requires FlattenErr(r).Err?
    ensures r.Err? ==> Display(FlattenErr(r).error, showInner, showOuter) == showOuter(r.error)
    ensures r.Ok? ==> Display(FlattenErr(r).error, showInner, showOuter) == showInner(r.value.error)
  {
  }
}
