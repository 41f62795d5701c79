# fluent_result in Dafny

A model of `fluent_result`, a small Rust crate of extension methods
("combinators") on the built-in `Result<T, E>` and `Option<T>`. `Result` and
`Option` become Dafny datatypes (`containers.dfy`), and every combinator
becomes a pure function with a postcondition that fixes its output. Each
operation is then tied to a partner: its inverse, a reference definition, or a
relation to another operation.

The two parts with structure are these:

- **`flatten_err`** (`nested_flatten.dfy`). It turns `Result<Result<T, EInner>, EOuter>`
  into `Result<T, NestedError<EInner, EOuter>>`, where the tag says which layer failed.
  An explicit inverse, `Unflatten`, shows that nothing is lost.
- **`box_err`** (`nested_box.dfy`). It handles one to four layers. It stops at the
  outermost failing layer and erases that layer's error into one uniform type.
  - `Box<dyn Error>` is modelled as an opaque type parameter `Dyn`.
  - Each layer j supplies its own erase function `Ej -> Dyn`.
  - The four fixed-depth impls are `BoxErr1` to `BoxErr4`.
  - A single recursion over a depth-indexed value, `BoxLayers` (capped at
    `MaxDepth = 4`), is proved equal to all four.
  - A proof by induction shows that its error is the erased error of the
    outermost failing layer.

How the rest is modelled:

- **Panics.** A panic does not return to the caller. It is modelled as the
  outcome `Panicked(message)` of `Call<T>` (`panics.dfy`), which lets a
  contract state both when the call returns and what it panics with.
  - `assert!`, `Result::unwrap` and `Result::expect` are modelled with the
    messages the Rust standard library documents.
  - The derived `unwrap_inner`/`unwrap_outer` of `NestedError` use a
    `requires` instead, because the derive macro's message is not part of
    the source.
- **Callbacks.** A callback (`sink_ok`, `sink_err`, `sink`, `handle_err`) is
  modelled by its call trace: the sequence of arguments it received.
- **Rust's `Display` and `Debug`** are function parameters.

## Model

| member | source | states |
|---|---|---|
| NestedFlatten.FlattenErr | src/nested/flatten_err.rs:34-40 | The result is `Ok` exactly when both layers are `Ok`, and it carries the inner value. The error is tagged `Outer` exactly when the outer layer failed, and `Inner` exactly when the outer layer succeeded and the inner one failed. Each tag carries its layer's payload unchanged. |
| NestedFlatten.FlattenErrRoundTrip | src/nested/flatten_err.rs:35-39 | Flattening is a bijection. `Unflatten` rebuilds the nested result from the flat one, and every flat result comes from exactly one nested result, so no information is lost. |
| NestedFlatten.TryUnwrapInner | src/nested/flatten_err.rs:49-57 | The derived `try_unwrap_inner` succeeds exactly when the tag is `Inner` and yields that payload. Otherwise it hands the error back unchanged. |
| NestedFlatten.TryUnwrapOuter | src/nested/flatten_err.rs:49-57 | The derived `try_unwrap_outer` succeeds exactly when the tag is `Outer` and yields that payload. Otherwise it hands the error back unchanged. |
| NestedFlatten.TryUnwrapExactlyOne | src/nested/flatten_err.rs:52-57 | For every `NestedError`, exactly one of the two narrowings succeeds, and the one that succeeds rebuilds the error. |
| NestedFlatten.UnwrapInner | src/nested/flatten_err.rs:49-54 | The derived `unwrap_inner` can be called only on an `Inner` (otherwise it panics) and returns its payload. |
| NestedFlatten.UnwrapOuter | src/nested/flatten_err.rs:49-56 | The derived `unwrap_outer` can be called only on an `Outer` (otherwise it panics) and returns its payload. |
| NestedFlatten.Display | src/nested/flatten_err.rs:64-69 | An `Inner(e)` or `Outer(e)` displays exactly as `e` does. |
| NestedFlatten.Source | src/nested/flatten_err.rs:77-82 | `source()` is always `Some`, and for both variants it is the wrapped error itself. |
| NestedFlatten.FlattenErrDisplaysFailingLayer | src/nested/flatten_err.rs:59-70 | A failed flattening displays as the error of the layer that failed. |
| NestedBox.BoxErr1 | src/nested/box_err.rs:53-56 | With one layer, `Ok(v)` stays `Ok(v)` and `Err(e)` becomes `Err(erase(e))`. |
| NestedBox.BoxErr2 | src/nested/box_err.rs:66-72 | With two layers, the result is `Ok` exactly when both layers are `Ok`, and it carries the innermost value. An outer error is erased without looking inside. An inner error is erased when the outer layer succeeded. |
| NestedBox.BoxErr3 | src/nested/box_err.rs:83-89 | With three layers, the result is `Ok` exactly when every layer is `Ok`. Otherwise it is the erased error of the outermost failing layer. |
| NestedBox.BoxErr4 | src/nested/box_err.rs:101-107 | With four layers, the result is `Ok` exactly when every layer is `Ok`. Otherwise it is the erased error of the outermost failing layer. |
| NestedBox.BoxErr1KeepsNestedSuccess | src/nested/box_err.rs:47-56 | How many layers are unwrapped depends on the requested success type. Boxing a two-layer value as one layer leaves the inner `Result` whole, even an inner `Err` that two-layer boxing would report. |
| NestedBox.BoxErr2IsErasedFlattenErr | src/nested/box_err.rs:11-12 | For two layers, `box_err` and `flatten_err` agree on success and on the success value. The boxed error is the `source()` of the `NestedError`. |
| NestedBox.BoxErr2ForgetsLayer | src/nested/box_err.rs:40-44 | Boxing discards which layer failed. An outer failure and an inner failure with the same erased value box identically, although `flatten_err` tells them apart. |
| NestedBox.BoxLayers | src/nested/box_err.rs:35-44 | At any supported depth `k` (1 to 4), the result is `Ok(v)` only when the innermost layer is reached through successes and holds `Ok(v)`. Reaching the innermost layer gives exactly its result. |
| NestedBox.ReachPassesOnlySuccesses | src/nested/box_err.rs:37-38 | Every layer outside a reached layer succeeded. So the reached failing layer is the outermost failure. |
| NestedBox.FailureIsReached | src/nested/box_err.rs:68-71 | When `box_err` fails, the failure comes from a layer reached from the outside, within the depth, whose own error is the one reported. |
| NestedBox.ReachedFailureIsReported | src/nested/box_err.rs:68-71 | A failing layer reached from the outside lies within the depth, and `box_err` reports its erased error. |
| NestedBox.BoxLayersErr | src/nested/box_err.rs:40-44 | `box_err` fails with `d` exactly when some layer that is reached from the outside failed with the erased error `d`. |
| NestedBox.BoxErrIsBoxLayers | src/nested/box_err.rs:8-9 | The 1-, 2-, 3- and 4-layer impls each equal the single depth-capped recursion at their depth. |
| Sink.SinkOk | src/sink/sink_result.rs:61-70 | `Ok(t)` calls the sink exactly once, with `t`, and returns `None`. `Err(e)` never calls it and returns `Some(e)`. The sink runs exactly when `None` is returned, and never more than once. |
| Sink.SinkErr | src/sink/sink_result.rs:73-82 | `Err(e)` calls the sink exactly once, with `e`, and returns `None`. `Ok(t)` never calls it and returns `Some(t)`. The sink runs exactly when `None` is returned, and never more than once. |
| Sink.SinkErrIsSwappedSinkOk | src/sink/sink_result.rs:28-55 | `sink_err` behaves as `sink_ok` does on the result with its variants exchanged. |
| Sink.SinkOkRoundTrip | src/sink/sink_result.rs:1-7 | The sunk payload and the returned option together determine the consumed result, and every one-sided trace comes from exactly one result. The returned option holds exactly the variant that was not sunk. |
| Sink.SinkErrRoundTrip | src/sink/sink_result.rs:32-33 | `sink_err` also loses nothing: the consumed result can be rebuilt from its trace. |
| Sink.Sink | src/sink/sink_option.rs:21-30 | `Some(x)` calls the sink exactly once, with `x`. `None` never calls it. |
| Sink.SinkRoundTrip | src/sink/sink_option.rs:11-13 | The sunk payload reaches the callback unchanged, so the option can be recovered from the calls. |
| Sink.SinkOkCallsAsSink | src/sink/sink_result.rs:65-69 | `sink_ok` calls its sink exactly as `sink` does on `Result::ok`, and returns `Result::err`. |
| Combinators.HandleErr | src/handle_err.rs:21-30 | On a `UnitResult`, `Err(e)` calls the function exactly once, with `e`. `Ok(())` never calls it. |
| Combinators.HandleErrIsSink | src/handle_err.rs:12-14 | The captured value equals the error payload. `handle_err` calls the function exactly as `sink` does on `Result::err` and as `sink_err` does, and the unit result can be rebuilt from its calls. |
| BoolExt.ThenErr | src/bool/then.rs:53-55 | The result is `Err(err)` exactly when the value is `true`, and `Ok(())` otherwise. |
| BoolExt.ThenNone | src/bool/then.rs:57-59 | The result is `None` exactly when the value is `true`, and `Some(())` otherwise. |
| BoolExt.ThenErrAgreesWithThenNone | src/bool/then.rs:53-59 | For every error value, `then_err` fails exactly when `then_none` is `None`. `then_none` is `then_err` with the error dropped. |
| BoolExt.FilterEvenNumbers | src/bool/then.rs:40-43 | The documentation's `filter_even_numbers` returns `None` exactly for even input and `Some(n)` for odd input `n`. |
| BoolExt.FilterEvenNumbersExamples | src/bool/then.rs:45-46 | `filter_even_numbers(42)` is `None` and `filter_even_numbers(43)` is `Some(43)`. |
| BoolExt.ExpectTrue | src/bool/expect.rs:13-15 | Returns exactly when the value is `true`. Otherwise it panics with exactly `msg`. |
| BoolExt.ExpectFalse | src/bool/expect.rs:18-20 | Returns exactly when the value is `false`. Otherwise it panics with exactly `msg`. |
| BoolExt.ExactlyOneExpectReturns | src/bool/expect.rs:5-7 | For any value, exactly one of `expect_true` and `expect_false` returns, and `expect_false` is `expect_true` on the negation. |
| ExpectExt.UnwrapNone | src/expect/expect_none.rs:48-53 | Returns exactly when the option is `None`. On `Some` it panics with the fixed message "called `Option::unwrap_none()` on a `Some` value". |
| ExpectExt.ExpectNone | src/expect/expect_none.rs:55-57 | Returns exactly when the option is `None`. On `Some` it panics with `msg`. |
| ExpectExt.UnwrapNoneIsExpectNone | src/expect/expect_none.rs:48-57 | `unwrap_none` is `expect_none` with the fixed message, and neither depends on the payload of a `Some`. |
| ExpectExt.UnwrapNever | src/expect/unwrap_never.rs:31-35 | On a result whose error type is uninhabited, the result is `Ok(v)` and `v` is returned, with no precondition and no error case. |
| ExpectExt.UnwrapNeverIsUnwrap | src/expect/unwrap_never.rs:9-14 | `unwrap_never` gives the same value as `Result::unwrap` on the same result, and that `unwrap` never panics. |
| MapExt.MapTo | src/map/result_map_to.rs:26-28 | `Ok(_)` becomes `Ok(other)`. `Err(e)` stays `Err(e)`. `is_ok` is preserved. |
| MapExt.MapErrTo | src/map/result_map_err_to.rs:26-28 | `Err(_)` becomes `Err(other)`. `Ok(t)` stays `Ok(t)`. `is_err` is preserved. |
| MapExt.OptionMapTo | src/map/option_map_to.rs:15-18 | `Some(_)` becomes `Some(value)`. `None` stays `None`. |
| MapExt.MapToForgetsPayload | src/map/result_map_to.rs:10 | The replaced `Ok` payload does not affect the result, and mapping twice is the same as mapping once to the last value. |
| MapExt.MapErrToForgetsPayload | src/map/result_map_err_to.rs:10 | The replaced `Err` payload does not affect the result, and mapping twice is the same as mapping once to the last value. |
| MapExt.OptionMapToForgetsPayload | src/map/option_map_to.rs:17 | The replaced `Some` payload does not affect the result, and mapping twice is the same as mapping once to the last value. |
| MapExt.MapToExamples | src/map/result_map_to.rs:16-17 | `Ok(42).map_to(true)` is `Ok(true)`, `Err(42).map_err_to(false)` is `Err(false)`, and `Some(42).map_to("something")` is `Some("something")`. |
| IntoExt.IntoOk | src/into/into_result.rs:19-24 | Always `Ok`, carrying the value unchanged. |
| IntoExt.IntoErr | src/into/into_result.rs:43-48 | Always `Err`, carrying the value unchanged. |
| IntoExt.IntoSome | src/into/into_option.rs:12-17 | Always `Some`, carrying the value unchanged. |
| IntoExt.IntoNone | src/into/into_option.rs:37-42 | Always `None`, for any target type. The input is ignored. |
| IntoExt.IntoResultRoundTrip | src/into/into_result.rs:61-71 | Unwrapping `into_ok(x)` returns `x`, and `Result::ok`/`Result::err` recover exactly what `into_ok`/`into_err` stored. |
| IntoExt.IntoOptionSinks | src/into/into_option.rs:31-35 | `into_some(x)` feeds `x` to a sink exactly once. `into_none` never does, whatever value it dropped. |
| IntoExt.IntoExamples | tests/result-into.rs:3-25 | `42.into_ok() == Ok(42)`, `"error".into_err() == Err("error")`, `42.into_some() == Some(42)`, and `42.into_none()` is `None`. |
| Combinators.UnwrapOk | src/unwrap_ok.rs:53-56 | Returns exactly when the input is `Ok`, and then returns `Ok` with the same value under a new error type. On `Err` it panics with `Result::unwrap`'s message and the error's `Debug` rendering. |
| Combinators.ExpectOk | src/unwrap_ok.rs:58-60 | Returns exactly when the input is `Ok`, and then returns `Ok` with the same value. On `Err` it panics with a message that starts with `msg`, followed by the error's `Debug` rendering. |
| Combinators.UnwrapOkKeepsSuccess | src/unwrap_ok.rs:3-8 | When `unwrap_ok` returns, its result is the input with only the error type replaced. `unwrap_ok` is `expect_ok` with `unwrap`'s message. |
| Combinators.UnwrapOkExample | src/unwrap_ok.rs:22-28 | `Ok(42)` unwraps to `Ok(42)` under both `unwrap_ok` and `expect_ok`. |
| Combinators.OrErr | src/or_err.rs:27-33 | The result is always `Err(err)`, whatever the input. |
| Combinators.OrErrDiscardsInput | src/or_err.rs:18-23 | The input is discarded entirely. `or_err` differs from replacing the error exactly when the input is `Ok`, which becomes an error as the documentation's example asserts. |

## Where the documentation and the code disagree

The model follows the code in each case:

- `map_to`: src/map/result_map_to.rs:8 says the `Err` variant is replaced. The
  code, at line 27, replaces the `Ok` payload and keeps `Err`.
- `or_err`: src/or_err.rs:6 describes it as changing the error type. The code,
  at line 31, always returns `Err(err)` and drops an `Ok` value. The example at
  lines 20-22 asserts this.
- `expect_ok`: src/unwrap_ok.rs:37 says it panics "with the provided message".
  It calls `Result::expect`, so the actual message is `msg`, then `": "`, then
  the error's `Debug` rendering.

## Left out

- Logging wrappers (src/log_err.rs and src/log/): their purpose is emitting
  `tracing` events, which is I/O. Their value-level behaviour is only
  returning `self` or `Result::ok`.
- Duplicate snapshots of the same definitions: src/bool.rs,
  src/bool/then_err.rs, src/then_none.rs, src/expect_none.rs,
  src/unwrap_never.rs, src/sink.rs, src/sink_err.rs, src/map_to.rs,
  src/into/into_ok.rs, src/into_ok.rs, src/into_err.rs, src/into/into_some.rs,
  src/into_some.rs, src/into/into_none.rs, src/ok_or_panic.rs and
  src/into_ok_or_panic.rs. Each one's behaviour is one of the modelled
  functions.
- The borrowing variants `as_ok`, `as_ok_mut` and `as_some`: references add
  nothing over the owned versions.
- The heap representation of erased errors: `Box`, vtables, `'static` bounds
  and runtime downcasting. An erased error is an opaque value.
- The `dbg`/`rls` `assert_*` variants re-exported by src/bool/mod.rs and
  src/expect/mod.rs: their definitions are not part of this model.
- `unsafe` `unwrap_unchecked` and its undefined behaviour, and
  `#[track_caller]` locations. `UnwrapNever` is total on a type that admits
  no `Err`.
- ExpectExt.UnwrapNever: Rust's `Infallible` has no values, but Dafny cannot
  declare an empty type without leaving its emptiness unchecked. So the error
  slot holds a placeholder type, and the emptiness is carried by
  `InfallibleResult<T>`, a subset type that admits only `Ok`. Its success type
  must be nonempty (`T(00)`).
- Sealing, module wiring, re-exports and Cargo feature gates: they are crate
  plumbing with no behaviour.
- The derived `Debug`, `PartialEq` and `Eq` of `NestedError`: they are Dafny's
  built-in equality.
- The derived panic messages of `unwrap_inner`/`unwrap_outer`: they are not
  stated in the source, so those two members use a `requires`.
