/** Erasing the errors of a nested `Result`, one to four layers deep, into a
    single erased error type (src/nested/box_err.rs). The erased
    `Box<dyn Error>` is an opaque type parameter `Dyn`; boxing the error of
    layer j is a function `erase_j` from that layer's error type into `Dyn`.
    Layers are numbered from the inside: layer 1 holds the success value. */
module NestedBox {
  import opened Containers
  import opened NestedFlatten

  /** Nesting is supported for one to four layers. */
  const MaxDepth: nat := 4

  /** One layer: the success passes through, the error is erased. */
  function BoxErr1<T, E1, Dyn>(r: Result<T, E1>, erase1: E1 -> Dyn): (b: Result<T, Dyn>)
    ensures b.Ok? <==> r.Ok?
    ensures r.Ok? ==> b.value == r.value
    ensures r.Err? ==> b.error == erase1(r.error)
  {
    MapErr(r, erase1)
  }

  /** Two layers: an outer error is erased at once; an outer success is
      boxed as one layer. */
  function BoxErr2<T, E1, E2, Dyn>(
    r: Result<Result<T, E1>, E2>, erase1: E1 -> Dyn, erase2: E2 -> Dyn)
    : (b: Result<T, Dyn>)
    ensures b.Ok? <==> r.Ok? && r.value.Ok?
    ensures b.Ok? ==> b.value == r.value.value
    ensures r.Err? ==> b.error == erase2(r.error)
    ensures r.Ok? && r.value.Err? ==> b.error == erase1(r.value.error)
  {
    match r
    case Ok(inner) => BoxErr1(inner, erase1)
    case Err(e) => Err(erase2(e))
  }

  /** Three layers: the outermost failing layer's error, erased, or the
      innermost success. */
  function BoxErr3<T, E1, E2, E3, Dyn>(
    r: Result<Result<Result<T, E1>, E2>, E3>,
    erase1: E1 -> Dyn, erase2: E2 -> Dyn, erase3: E3 -> Dyn)
    : (b: Result<T, Dyn>)
    ensures b.Ok? <==> r.Ok? && r.value.Ok? && r.value.value.Ok?
    ensures b.Ok? ==> b.value == r.value.value.value
    ensures r.Err? ==> b.error == erase3(r.error)
    ensures r.Ok? && r.value.Err? ==> b.error == erase2(r.value.error)
    ensures r.Ok? && r.value.Ok? && r.value.value.Err? ==> b.error == erase1(r.value.value.error)
  {
    match r
    case Ok(inner) => BoxErr2(inner, erase1, erase2)
    case Err(e) => Err(erase3(e))
  }

  /** Four layers, the deepest nesting supported. */
  function BoxErr4<T, E1, E2, E3, E4, Dyn>(
    r: Result<Result<Result<Result<T, E1>, E2>, E3>, E4>,
    erase1: E1 -> Dyn, erase2: E2 -> Dyn, erase3: E3 -> Dyn, erase4: E4 -> Dyn)
    : (b: Result<T, Dyn>)
    ensures b.Ok? <==> r.Ok? && r.value.Ok? && r.value.value.Ok? && r.value.value.value.Ok?
    ensures b.Ok? ==> b.value == r.value.value.value.value
    ensures r.Err? ==> b.error == erase4(r.error)
    ensures r.Ok? && r.value.Err? ==> b.error == erase3(r.value.error)
    ensures r.Ok? && r.value.Ok? && r.value.value.Err? ==> b.error == erase2(r.value.value.error)
    ensures r.Ok? && r.value.Ok? && r.value.value.Ok? && r.value.value.value.Err?
      ==> b.error == erase1(r.value.value.value.error)
  {
    match r
    case Ok(inner) => BoxErr3(inner, erase1, erase2, erase3)
    case Err(e) => Err(erase4(e))
  }

  /** How many layers are unwrapped is fixed by the requested success type,
      not by the value: boxing a two-layer result as one layer keeps the inner
      result whole, even when it is an error that two-layer boxing reports. */
  lemma BoxErr1KeepsNestedSuccess<T, E1, E2, Dyn>(
    inner: Result<T, E1>, erase1: E1 -> Dyn, erase2: E2 -> Dyn)
    ensures BoxErr1(Ok(inner), erase2) == Ok(inner)
    ensures BoxErr2(Ok(inner), erase1, erase2).Ok? <==> inner.Ok?
  {
  }

  /** For two layers, boxing is flattening followed by erasing the nested
      error: the same outcome, the same success value, and the erased error is
      the source of the `NestedError`. */
  lemma BoxErr2IsErasedFlattenErr<T, E1, E2, Dyn>(
    r: Result<Result<T, E1>, E2>, erase1: E1 -> Dyn, erase2: E2 -> Dyn)
    ensures BoxErr2(r, erase1, erase2).Ok? <==> FlattenErr(r).Ok?
    ensures FlattenErr(r).Ok? ==> BoxErr2(r, erase1, erase2).value == FlattenErr(r).value
    ensures FlattenErr(r).Err? ==>
      Some(BoxErr2(r, erase1, erase2).error) == Source(FlattenErr(r).error, erase1, erase2)
  {
  }

  /** Unlike flattening, boxing forgets which layer failed: an outer and an
      inner failure that erase to the same value give the same result. */
  lemma BoxErr2ForgetsLayer<T, E1, E2, Dyn>(
    outerFails: Result<Result<T, E1>, E2>, innerFails: Result<Result<T, E1>, E2>,
    erase1: E1 -> Dyn, erase2: E2 -> Dyn)
    requires outerFails.Err? && innerFails.Ok? && innerFails.value.Err?
    requires erase2(outerFails.error) == erase1(innerFails.value.error)
    ensures BoxErr2(outerFails, erase1, erase2) == BoxErr2(innerFails, erase1, erase2)
    ensures FlattenErr(outerFails) != FlattenErr(innerFails)
  {
  }

  // ---------------------------------------------------------------------------
  // The four impls as one recursion over the depth, capped at MaxDepth.

  /** A nested result whose errors have all been erased to `Dyn`: the
      innermost layer holds the success value, any other layer holds the next
      layer in. Which depth a value has is recorded by `HasDepth`, as the
      nesting of its type would be. */
  datatype Layers<T, Dyn> = Innermost(last: Result<T, Dyn>) | Layer(next: Result<Layers<T, Dyn>, Dyn>)

  /** `n` is a value of the `k`-layer type: `k - 1` wrapping layers around an
      innermost one, as far as the successes reach. */
  predicate HasDepth<T, Dyn>(n: Layers<T, Dyn>, k: nat)
  {
    match n
    case Innermost(_) => k == 1
    case Layer(r) => k > 1 && (r.Ok? ==> HasDepth(r.value, k - 1))
  }

  /** The layer reached from the outside after passing through `j` successful
      layers, or `None` when an outer layer failed first or there are fewer. */
  function Reach<T, Dyn>(n: Layers<T, Dyn>, j: nat): Option<Layers<T, Dyn>>
    decreases j
  {
    if j == 0 then Some(n)
    else match n
      case Innermost(_) => None
      case Layer(r) => if r.Ok? then Reach(r.value, j - 1) else None
  }

  /** The error held by a layer itself, if that layer failed. */
  function ErrorAt<T, Dyn>(m: Layers<T, Dyn>): Option<Dyn>
  {
    match m
    case Innermost(r) => ErrOf(r)
    case Layer(r) => ErrOf(r)
  }

  /** `box_err` at any supported depth `k`: the success is the innermost
      payload, reached only when every layer from the outside in succeeded. */
  function BoxLayers<T, Dyn>(n: Layers<T, Dyn>, k: nat): (b: Result<T, Dyn>)
    requires 1 <= k <= MaxDepth && HasDepth(n, k)
    decreases k
    ensures b.Ok? ==> Reach(n, k - 1) == Some(Innermost(Ok(b.value)))
    ensures Reach(n, k - 1).Some? && Reach(n, k - 1).value.Innermost? ==>
      b == Reach(n, k - 1).value.last
  {
    match n
    case Innermost(r) => r
    case Layer(Ok(inner)) => BoxLayers(inner, k - 1)
    case Layer(Err(e)) => Err(e)
  }

  /** A layer is reached only through successes: every layer outside it
      succeeded. So a failing layer that is reached is the outermost failure. */
  lemma {:induction false} ReachPassesOnlySuccesses<T, Dyn>(n: Layers<T, Dyn>, i: nat, j: nat)
    requires i < j && Reach(n, j).Some?
    ensures Reach(n, i).Some? && Reach(n, i).value.Layer? && ErrorAt(Reach(n, i).value).None?
    decreases i
  {
    match n
    case Layer(r) =>
      if i > 0 {
        ReachPassesOnlySuccesses(r.value, i - 1, j - 1);
      }
  }

  /** A failure of `box_err` comes from a layer reached from the outside:
      the returned `j` is that layer, and its own error is the one reported. */
  lemma {:induction false} FailureIsReached<T, Dyn>(n: Layers<T, Dyn>, k: nat) returns (j: nat)
    requires 1 <= k <= MaxDepth && HasDepth(n, k) && BoxLayers(n, k).Err?
    ensures j < k && Reach(n, j).Some? && ErrorAt(Reach(n, j).value) == Some(BoxLayers(n, k).error)
    decreases k
  {
    assert Reach(n, 0) == Some(n);
    match n
    case Innermost(r) =>
      j := 0;
    case Layer(r) =>
      if r.Ok? {
        var j' := FailureIsReached(r.value, k - 1);
        j := j' + 1;
        assert Reach(n, j) == Reach(r.value, j');
      } else {
        j := 0;
      }
  }

  /** Conversely, a failing layer reached from the outside is within the
      depth, and `box_err` reports its error. */
  lemma {:induction false} ReachedFailureIsReported<T, Dyn>(n: Layers<T, Dyn>, k: nat, j: nat, d: Dyn)
    requires 1 <= k <= MaxDepth && HasDepth(n, k)
    requires Reach(n, j).Some? && ErrorAt(Reach(n, j).value) == Some(d)
    ensures j < k && BoxLayers(n, k) == Err(d)
    decreases j
  {
    if j == 0 {
      assert Reach(n, 0) == Some(n);
    } else {
      match n
      case Layer(r) =>
        ReachedFailureIsReported(r.value, k - 1, j - 1, d);
    }
  }

  /** `box_err` fails exactly with the erased error of a failing layer that is
      reached from the outside, which by `ReachPassesOnlySuccesses` is the
      outermost failing layer. */
  lemma BoxLayersErr<T, Dyn>(n: Layers<T, Dyn>, k: nat, d: Dyn)
    requires 1 <= k <= MaxDepth && HasDepth(n, k)
    ensures BoxLayers(n, k) == Err(d) <==>
      exists j :: 0 <= j < k && Reach(n, j).Some? && ErrorAt(Reach(n, j).value) == Some(d)
  {
    if BoxLayers(n, k) == Err(d) {
      var j := FailureIsReached(n, k);
    }
    forall j | 0 <= j < k && Reach(n, j).Some? && ErrorAt(Reach(n, j).value) == Some(d)
      ensures BoxLayers(n, k) == Err(d)
    {
      ReachedFailureIsReported(n, k, j, d);
    }
  }

  // ---------------------------------------------------------------------------
  // Each fixed-depth impl is the recursion at its depth.

  /** A one-layer result with its error erased. */
  function Embed1<T, E1, Dyn>(r: Result<T, E1>, erase1: E1 -> Dyn): (n: Layers<T, Dyn>)
    ensures HasDepth(n, 1)
  {
    Innermost(MapErr(r, erase1))
  }

  /** A two-layer result with each layer's error erased. */
  function Embed2<T, E1, E2, Dyn>(
    r: Result<Result<T, E1>, E2>, erase1: E1 -> Dyn, erase2: E2 -> Dyn)
    : (n: Layers<T, Dyn>)
    ensures HasDepth(n, 2)
  {
    match r
    case Ok(inner) => Layer(Ok(Embed1(inner, erase1)))
    case Err(e) => Layer(Err(erase2(e)))
  }

  /** A three-layer result with each layer's error erased. */
  function Embed3<T, E1, E2, E3, Dyn>(
    r: Result<Result<Result<T, E1>, E2>, E3>,
    erase1: E1 -> Dyn, erase2: E2 -> Dyn, erase3: E3 -> Dyn)
    : (n: Layers<T, Dyn>)
    ensures HasDepth(n, 3)
  {
    match r
    case Ok(inner) => Layer(Ok(Embed2(inner, erase1, erase2)))
    case Err(e) => Layer(Err(erase3(e)))
  }

  /** A four-layer result with each layer's error erased. */
  function Embed4<T, E1, E2, E3, E4, Dyn>(
    r: Result<Result<Result<Result<T, E1>, E2>, E3>, E4>,
    erase1: E1 -> Dyn, erase2: E2 -> Dyn, erase3: E3 -> Dyn, erase4: E4 -> Dyn)
    : (n: Layers<T, Dyn>)
    ensures HasDepth(n, 4)
  {
    match r
    case Ok(inner) => Layer(Ok(Embed3(inner, erase1, erase2, erase3)))
    case Err(e) => Layer(Err(erase4(e)))
  }

  /** The four fixed-depth impls agree with the one recursion at depths 1 to 4. */
  lemma {:induction false} BoxErrIsBoxLayers<T, E1, E2, E3, E4, Dyn>(
    r1: Result<T, E1>,
    r2: Result<Result<T, E1>, E2>,
    r3: Result<Result<Result<T, E1>, E2>, E3>,
    r4: Result<Result<Result<Result<T, E1>, E2>, E3>, E4>,
    erase1: E1 -> Dyn, erase2: E2 -> Dyn, erase3: E3 -> Dyn, erase4: E4 -> Dyn)
    ensures BoxErr1(r1, erase1) == BoxLayers(Embed1(r1, erase1), 1)
    ensures BoxErr2(r2, erase1, erase2) == BoxLayers(Embed2(r2, erase1, erase2), 2)
    ensures BoxErr3(r3, erase1, erase2, erase3) == BoxLayers(Embed3(r3, erase1, erase2, erase3), 3)
    ensures BoxErr4(r4, erase1, erase2, erase3, erase4)
      == BoxLayers(Embed4(r4, erase1, erase2, erase3, erase4), 4)
  {
  }
}
