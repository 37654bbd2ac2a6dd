# A verified model of `SettableFuture`

The Go package `future` provides `SettableFuture`. It is a single-assignment result cell. A producer stores one `(value, err)` pair with `Set`, which closes the future's `done` channel. Any number of consumers can then do three things:

- read the pair with `Done`, `Err`, `Value` and `Result`;
- wait for it with `Wait`, bounded by a `context.Context`;
- react to it with `Then`, whose callback runs only when no error was stored, and `Catch`, whose callback runs only when an error was stored.

The model has three modules:

- `Types` (types.dfy) holds the values involved. Go's `nil` is `None` in `Option`. Errors are the two a context reports (`Canceled`, `DeadlineExceeded`) or a producer's `Failure(message)`. A context is `Live`, `Cancelled` or `Expired`, and `Err()` follows Go's `ctx.Err()`.
- `Lifecycle` (lifecycle.dfy) is the future as a pure state machine.
  - `State` is `Pending` or `Completed(value, err)`.
  - `Step` is the effect of one operation. `Run` is the effect of a sequence of operations on one thread of control. Such a sequence may end by panicking (a second `Set`) or by blocking forever (waiting on a future nobody sets).
  - `Step` follows the documented behaviour where the Go code deviates from it. Two `...AsWritten` definitions model the code as written, and "## Findings" records both deviations.
  - The lemmas prove single assignment and callback dispatch for every sequence of operations.
- `Future` (future.dfy) is the `SettableFuture` class of future.go. Its fields are `value`, `err` and `done`. The untyped `interface{}` value becomes a type parameter `T`. Every method is proved against `Lifecycle`.
  - Callbacks are `Callback` objects that record each argument they are invoked with. "Called exactly once with v" and "never called" can therefore be stated directly.
  - Blocking is a precondition. `Then` and `Catch` require the future to be done. `Wait` requires the future or the context to be done.
  - Go's `select` chooses at random when both of its cases are ready. `Wait` models this with a nondeterministic choice, and its postcondition is the disjunction of the two possible outcomes.

## Model

| member | source | states |
|---|---|---|
| `Types.Context.Err` | future.go:73-76 | `ctx.Err()` is nil exactly while the context is live; once it is done it is `Canceled` or `DeadlineExceeded`, never a producer's error |
| `Future.SettableFuture.New` | future.go:30-37 | a new future is valid, pending, with nil value and nil error |
| `Future.SettableFuture.Set` | future.go:39-45 | on a future that is not yet done (setting twice is fatal), stores exactly `(v, e)`, marks it done, and agrees with `Lifecycle.Step` for `Set` |
| `Future.SettableFuture.Done` | future.go:47-51 | true exactly when the future has been set; changes nothing |
| `Future.SettableFuture.Err` | future.go:53-58 | the stored error, nil before `Set`; changes nothing |
| `Future.SettableFuture.Value` | future.go:60-63 | the stored value, nil before `Set`; changes nothing |
| `Future.SettableFuture.Result` | future.go:65-68 | the stored pair, `(nil, nil)` before `Set`; changes nothing |
| `Future.SettableFuture.Wait` | future.go:70-80 | when the future or the context is done, returns either `(nil, ctx.Err())` (context done) or the stored pair (future done), never a mix; the stored pair if the context is live; `(nil, ctx.Err())` with a non-nil error on a pending future |
| `Future.SettableFuture.Then` | future.go:82-104 | on a done future, invokes the callback exactly once with the stored value iff the stored error is nil (a nil value included, as documented; see "## Findings"), otherwise not at all; returns the same future, unchanged; agrees with `Lifecycle.Step` for `Then` |
| `Future.SettableFuture.Catch` | future.go:106-115 | on a done future, invokes the callback exactly once with the stored error iff it is non-nil, otherwise not at all; returns the same future, unchanged; agrees with `Lifecycle.Step` for `Catch` |
| `Future.Callback.Invoke` | future.go:101 | an invocation of a callback appends its argument to the callback's record and nothing else |
| `Future.SetThenRead` | future.go:31-80 | a new future is not done; after `Set(v, nil)` it is done, and `Value`, `Err`, `Result` and `Wait` on a live context give exactly `v` and nil |
| `Future.WaitCancelled` | future.go:73-76 | `Wait` on a pending future with a done context returns nil and the context's non-nil error, and the future stays pending |
| `Future.ThenCatchOnSuccess` | future.go:99-114 | `Then(...).Catch(...)` on a future set to `(v, nil)` calls the `Then` callback once with `v` and never the `Catch` callback |
| `Future.ThenCatchOnFailure` | future.go:99-114 | `Then(...).Catch(...)` on a future set to `(nil, e)` never calls the `Then` callback and calls the `Catch` callback once with `e` |
| `Lifecycle.CompletedIsFinal` | future.go:39-45 | single assignment: after completion, no sequence of operations changes the stored pair or un-completes the future; none blocks; a sequence panics exactly when it contains another `Set` |
| `Lifecycle.NewFutureSettlesOnce` | future.go:30-45 | from a new future, a sequence that does not block ends in the state its first `Set` stored (pending if none); it completes normally only with at most one `Set`, and it panics only with two or more |
| `Lifecycle.SucceededFutureNeverCatches` | future.go:99-114 | on a future completed with nil error, every `Then` callback gets the stored value (one call per `Then` when nothing panics) and no `Catch` callback is ever called |
| `Lifecycle.FailedFutureNeverThens` | future.go:99-114 | on a future completed with error `e`, every `Catch` callback gets `e` (one call per `Catch` when nothing panics) and no `Then` callback is ever called |
| `Lifecycle.CallbacksSeeSettledResult` | future.go:82-114 | from a new future, no callback runs before `Set`; every argument passed to a `Then` or `Catch` callback is the value or error the first `Set` stored |
| `Lifecycle.FirstSetAsWrittenAgrees` | future.go:41-45 | on a new future, `Set` as written does not panic, and it stores the same pair that `Lifecycle.Step` stores |
| `Lifecycle.SecondSetOverwritesAsWritten` | future.go:41-45 | for every future already set and every different pair, `Set` as written panics but has already replaced the stored pair; `Lifecycle.Step` instead panics and keeps the old pair |
| `Lifecycle.RecoveredSecondSetOverwrites` | future.go:41-45 | as written, a second `Set` whose panic is recovered has replaced both the stored value and the stored error |
| `Lifecycle.NilValueThenPanicsAsWritten` | future.go:99-103 | on a completed future, `Then` as written panics exactly when both the stored value and the stored error are nil (`reflect.Value.Call` rejects the zero `Value` that a nil value becomes), whereas `Lifecycle.Step` calls the callback once with nil; on every other completed future the two agree |

## Left out

- Channels, `select`, goroutine scheduling and memory visibility (happens-before) are not modelled. A blocking call instead requires what it would wait for. `Then` and `Catch` require `done`, and `Wait` requires the future or the context to be done. A lifecycle sequence that would block ends with status `Blocked`.
- `Done()` returns the `done` channel in Go. Here it returns whether that channel is closed.
- `context.Context` is reduced to its state (live, cancelled, past its deadline) and its `Err()`. Deadlines, timers and cancellation propagation are not modelled.
- The reflection checks at the start of `Then` (future.go:87-97) are not modelled. They panic when the callback is not a one-argument function without results. Here the callback has a static type, `Callback<Option<T>>`, so a malformed callback cannot be written.
- The dynamic typing of `interface{}` is replaced by a type parameter `T`.
- Callbacks are modelled only by the arguments they receive. Any other effect they have is not modelled, including a callback that calls back into the future.
- SettableFuture.Then: on a future set to `(nil, nil)` it calls the callback once with nil, as its documentation promises. The Go code panics there instead (second "## Findings" row, `Lifecycle.NilValueThenPanicsAsWritten`).
- CompletedIsFinal: it states the corrected behaviour, in which only a second `Set` panics. As written, a `Then` on a future set to `(nil, nil)` panics too (second "## Findings" row).
- NewFutureSettlesOnce: it states the corrected behaviour, in which a sequence panics only with two or more `Set`s. As written, `Set(nil, nil)` followed by `Then` panics after one `Set` (second "## Findings" row).
- SucceededFutureNeverCatches: for a nil value it states the corrected behaviour, one callback call per `Then`. As written, the first `Then` panics (second "## Findings" row).
- The transforming, generic `Then` that future_test.go exercises (`New[int]`, callbacks returning `(T, error)`) does not exist in future.go and is not modelled.

## Findings

| source | as written | input that shows it | evidently intended | confidence | as-written member | corrected member |
|---|---|---|---|---|---|---|
| future.go:41-45 | `Set` stores `value` and `err` before `close(f.done)`. On a future that is already done, the close panics only after the stored pair has been overwritten. | `Set(1, nil)`, then `Set(2, errors.New("bad"))` with the panic recovered by the caller: `Value()` is 2 and `Err()` is "bad" | single assignment: a rejected second `Set` leaves the stored pair unchanged (close first, or check `done` before writing) | low, not executed (a caller must recover the panic to observe it) | `Lifecycle.SecondSetOverwritesAsWritten` | `Lifecycle.CompletedIsFinal` |
| future.go:99-103 | With a nil error, `Then` passes the stored value through `reflect.ValueOf` to `reflect.Value.Call`. A nil value becomes the zero `reflect.Value`, and `Call` panics on a zero `Value` argument before the callback runs. | `Set(nil, nil)`, then `Then(func(v interface{}) {})`: panics with "reflect: Call using zero Value argument" | the callback is invoked with nil, as the comment at future.go:82-83 says it is whenever a nil error was set | medium, not executed | `Lifecycle.NilValueThenPanicsAsWritten` | `Lifecycle.SucceededFutureNeverCatches` |

The class `SettableFuture` and `Lifecycle.Step` use the corrected behaviour in both cases:
- `Set` requires a future that is not yet done, and `Lifecycle.Step` rejects a second `Set` without touching the stored pair.
- `Then` calls its callback with the stored value whenever the stored error is nil, even when that value is nil.
