/** The two built-in containers the library extends, Rust's `Result<T, E>` and
    `Option<T>`, the crate's aliases `UnitResult<E>` and `InfallibleResult<T>`,
    and the few standard-library combinators the extensions are written with. */
module Containers {

  /** A success value `Ok` or an error value `Err`. */
  datatype Result<+T, +E> = Ok(value: T) | Err(error: E)

  /** A present value `Some` or the absent marker `None`. */
  datatype Option<+T> = None | Some(value: T)

  /** A result whose success carries no information. */
  type UnitResult<E> = Result<(), E>

  /** Rust's `Infallible` has no values at all. Dafny cannot declare a type
      without values unless its emptiness is left unchecked, so the error slot
      gets a placeholder type here and the emptiness is carried by
      `InfallibleResult`, which admits no `Err`. */
  type Infallible = ()

  /** A result that cannot fail: every value of this type is an `Ok`. */
  type InfallibleResult<T(00)> = r: Result<T, Infallible> | r.Ok?
    ghost witness (var x: T :| true; Ok(x))

  /** `Result::map`: applies `f` to an `Ok` payload, passes an `Err` through. */
  function Map<T, E, U>(r: Result<T, E>, f: T -> U): (r': Result<U, E>)
    ensures r'.Ok? <==> r.Ok?
    ensures r.Ok? ==> r'.value == f(r.value)
    ensures r.Err? ==> r'.error == r.error
  {
    match r
    case Ok(t) => Ok(f(t))
    case Err(e) => Err(e)
  }

  /** `Result::map_err`: applies `f` to an `Err` payload, passes an `Ok` through. */
  function MapErr<T, E, F>(r: Result<T, E>, f: E -> F): (r': Result<T, F>)
    ensures r'.Err? <==> r.Err?
    ensures r.Err? ==> r'.error == f(r.error)
    ensures r.Ok? ==> r'.value == r.value
  {
    match r
    case Ok(t) => Ok(t)
    case Err(e) => Err(f(e))
  }

  /** `Option::map`. */
  function OptionMap<T, U>(o: Option<T>, f: T -> U): (o': Option<U>)
    ensures o'.Some? <==> o.Some?
    ensures o.Some? ==> o'.value == f(o.value)
  {
    match o
    case Some(t) => Some(f(t))
    case None => None
  }

  /** `Result::ok`: the success payload, if any. */
  function OkOf<T, E>(r: Result<T, E>): (o: Option<T>)
    ensures o.Some? <==> r.Ok?
    ensures r.Ok? ==> o.value == r.value
  {
    match r
    case Ok(t) => Some(t)
    case Err(_) => None
  }

  /** `Result::err`: the error payload, if any. */
  function ErrOf<T, E>(r: Result<T, E>): (o: Option<E>)
    ensures o.Some? <==> r.Err?
    ensures r.Err? ==> o.value == r.error
  {
    match r
    case Ok(_) => None
    case Err(e) => Some(e)
  }
}
