/** The future as a pure state machine: its two states, what each operation of
    `SettableFuture` does to them, and what a whole sequence of operations does.
    The class in module Future is proved against these definitions. */
module Lifecycle {
  import opened Types

  /** Pending until the one `Set`; then completed with the stored (value, err) pair. */
  datatype State<T> = Pending | Completed(value: Option<T>, err: Option<Error>)

  /** The operations that act on a future (the getters only observe, see `Result`). */
  datatype Op<T> =
    | SetOp(v: Option<T>, e: Option<Error>)
    | WaitOp(ctx: Context)
    | ThenOp
    | CatchOp

  /** How a sequence of operations ends on a single thread of control: it ran to its
      end, it hit a panic (a second `Set`), or it blocked forever (nobody else sets). */
  datatype Status = Running | Panicked | Blocked

  /** The state reached, and the arguments handed to `Then` callbacks and to `Catch`
      callbacks, in order. */
  datatype Outcome<T> = Outcome(status: Status, state: State<T>,
                                valuesPassed: seq<Option<T>>, errorsPassed: seq<Error>)

  /** What `Result()` (and `Value()`, `Err()`) observe: nil and nil until completion. */
  function Observed<T>(s: State<T>): (Option<T>, Option<Error>)
  {
    match s
    case Pending => (None, None)
    case Completed(v, e) => (v, e)
  }

  /** `Wait` returns at once when the future is done or the context is done. */
  predicate WaitReady<T>(s: State<T>, ctx: Context)
  {
    s.Completed? || ctx.Done()
  }

  /** The results `Wait` may return: the context's error with a nil value when the
      context is done, or the stored pair when the future is done. When both are
      ready either may be returned, but nothing else. */
  ghost predicate WaitMayReturn<T>(s: State<T>, ctx: Context, r: (Option<T>, Option<Error>))
  {
    (ctx.Done() && r == (None, ctx.Err())) || (s.Completed? && r == Observed(s))
  }

  /** The arguments `Then` passes to its callback on a completed future. */
  function ThenArgs<T>(s: State<T>): seq<Option<T>>
    requires s.Completed?
  {
    if s.err.None? then [s.value] else []
  }

  /** The arguments `Catch` passes to its callback on a completed future. */
  function CatchArgs<T>(s: State<T>): seq<Error>
    requires s.Completed?
  {
    if s.err.Some? then [s.err.value] else []
  }

  /** One operation. A second `Set` panics and leaves the stored pair as it was. `Then`
      with a nil error calls its callback with the stored value even when that value is
      nil (the Go code panics there instead, see `ThenAsWritten`). */
  function Step<T>(s: State<T>, op: Op<T>): Outcome<T>
  {
    match op
    case SetOp(v, e) =>
      if s.Pending? then Outcome(Running, Completed(v, e), [], []) else Outcome(Panicked, s, [], [])
    case WaitOp(ctx) =>
      Outcome(if WaitReady(s, ctx) then Running else Blocked, s, [], [])
    case ThenOp =>
      if s.Pending? then Outcome(Blocked, s, [], []) else Outcome(Running, s, ThenArgs(s), [])
    case CatchOp =>
      if s.Pending? then Outcome(Blocked, s, [], []) else Outcome(Running, s, [], CatchArgs(s))
  }

  /** A sequence of operations, stopping at the first one that panics or blocks. */
  function Run<T>(s: State<T>, ops: seq<Op<T>>): Outcome<T>
    decreases |ops|
  {
    if ops == [] then Outcome(Running, s, [], [])
    else
      var first := Step(s, ops[0]);
      if first.status != Running then first
      else
        var rest := Run(first.state, ops[1..]);
        rest.(valuesPassed := first.valuesPassed + rest.valuesPassed,
              errorsPassed := first.errorsPassed + rest.errorsPassed)
  }

  /** How many `Set` operations a sequence holds. */
  function Sets<T>(ops: seq<Op<T>>): nat
    decreases |ops|
  {
    if ops == [] then 0 else (if ops[0].SetOp? then 1 else 0) + Sets(ops[1..])
  }

  /** How many `Then` operations a sequence holds. */
  function Thens<T>(ops: seq<Op<T>>): nat
    decreases |ops|
  {
    if ops == [] then 0 else (if ops[0].ThenOp? then 1 else 0) + Thens(ops[1..])
  }

  /** How many `Catch` operations a sequence holds. */
  function Catches<T>(ops: seq<Op<T>>): nat
    decreases |ops|
  {
    if ops == [] then 0 else (if ops[0].CatchOp? then 1 else 0) + Catches(ops[1..])
  }

  /** The state the first `Set` of a sequence produces from a new future. */
  function Settled<T>(ops: seq<Op<T>>): State<T>
    decreases |ops|
  {
    if ops == [] then Pending
    else if ops[0].SetOp? then Completed(ops[0].v, ops[0].e)
    else Settled(ops[1..])
  }

  /** Single assignment: once completed, no sequence of operations changes the stored
      pair or makes the future pending again, nothing blocks, and the sequence panics
      exactly when it tries another `Set`. */
  lemma {:induction false} CompletedIsFinal<T>(s: State<T>, ops: seq<Op<T>>)
    requires s.Completed?
    ensures Run(s, ops).state == s
    ensures Run(s, ops).status != Blocked
    ensures Run(s, ops).status == Panicked <==> Sets(ops) > 0
    decreases |ops|
  {
    if ops != [] {
      if !ops[0].SetOp? {
        CompletedIsFinal(s, ops[1..]);
      }
    }
  }

  /** From a new future, a sequence that does not block ends in the state its first
      `Set` produced (pending if it has none); it runs to its end only if it sets at
      most once, and it panics only if it sets twice or more. */
  lemma {:induction false} NewFutureSettlesOnce<T>(ops: seq<Op<T>>)
    ensures Run(Pending, ops).status != Blocked ==> Run(Pending, ops).state == Settled(ops)
    ensures Run(Pending, ops).status == Running ==> Sets(ops) <= 1
    ensures Run(Pending, ops).status == Panicked ==> Sets(ops) >= 2
    decreases |ops|
  {
    if ops != [] {
      match ops[0]
      case SetOp(v, e) =>
        CompletedIsFinal(Completed(v, e), ops[1..]);
      case WaitOp(ctx) =>
        NewFutureSettlesOnce(ops[1..]);
      case ThenOp =>
      case CatchOp =>
    }
  }

  /** A future completed without error hands its value to every `Then` callback, once
      per `Then`, and never calls a `Catch` callback. */
  lemma {:induction false} SucceededFutureNeverCatches<T>(v: Option<T>, ops: seq<Op<T>>)
    ensures Run(Completed(v, None), ops).errorsPassed == []
    ensures forall x :: x in Run(Completed(v, None), ops).valuesPassed ==> x == v
    ensures Run(Completed(v, None), ops).status == Running ==>
              |Run(Completed(v, None), ops).valuesPassed| == Thens(ops)
    decreases |ops|
  {
    if ops != [] && !ops[0].SetOp? {
      SucceededFutureNeverCatches(v, ops[1..]);
    }
  }

  /** A future completed with error `e` hands `e` to every `Catch` callback, once per
      `Catch`, and never calls a `Then` callback. */
  lemma {:induction false} FailedFutureNeverThens<T>(v: Option<T>, e: Error, ops: seq<Op<T>>)
    ensures Run(Completed(v, Some(e)), ops).valuesPassed == []
    ensures forall x :: x in Run(Completed(v, Some(e)), ops).errorsPassed ==> x == e
    ensures Run(Completed(v, Some(e)), ops).status == Running ==>
              |Run(Completed(v, Some(e)), ops).errorsPassed| == Catches(ops)
    decreases |ops|
  {
    if ops != [] && !ops[0].SetOp? {
      FailedFutureNeverThens(v, e, ops[1..]);
    }
  }

  /** No callback runs before the future completes: from a new future, every callback
      argument comes from the state the first `Set` stored. */
  lemma {:induction false} CallbacksSeeSettledResult<T>(ops: seq<Op<T>>)
    ensures forall x :: x in Run(Pending, ops).valuesPassed ==>
              Settled(ops).Completed? && Settled(ops).err.None? && x == Settled(ops).value
    ensures forall x :: x in Run(Pending, ops).errorsPassed ==>
              Settled(ops).Completed? && Settled(ops).err == Some(x)
    decreases |ops|
  {
    if ops != [] {
      match ops[0]
      case SetOp(v, e) =>
        if e.None? {
          SucceededFutureNeverCatches(v, ops[1..]);
        } else {
          FailedFutureNeverThens(v, e.value, ops[1..]);
        }
      case WaitOp(ctx) =>
        CallbacksSeeSettledResult(ops[1..]);
      case ThenOp =>
      case CatchOp =>
    }
  }

  /** The raw fields of `SettableFuture`. */
  datatype Fields<T> = Fields(value: Option<T>, err: Option<Error>, done: bool)

  /** `Set` in the order the Go code performs it: both fields are written first and only
      then is the `done` channel closed, which panics if it was already closed. Returns
      the fields afterwards and whether it panicked. */
  function SetAsWritten<T>(f: Fields<T>, v: Option<T>, e: Option<Error>): (Fields<T>, bool)
  {
    (Fields(v, e, true), f.done)
  }

  /** On a new future, `Set` as written does not panic and stores what `Step` stores. */
  lemma FirstSetAsWrittenAgrees<T>(f: Fields<T>, v: Option<T>, e: Option<Error>)
    requires f == Fields(None, None, false)
    ensures !SetAsWritten(f, v, e).1 && SetAsWritten(f, v, e).0.done
    ensures Step(Pending, SetOp(v, e)).state ==
              Completed(SetAsWritten(f, v, e).0.value, SetAsWritten(f, v, e).0.err)
  {
  }

  /** On a future already set, `Set` as written panics and yet has replaced the stored pair
      by any different one, where `Step` rejects the second `Set` and keeps the pair. */
  lemma SecondSetOverwritesAsWritten<T>(f: Fields<T>, v: Option<T>, e: Option<Error>)
    requires f.done
    requires (v, e) != (f.value, f.err)
    ensures SetAsWritten(f, v, e).1
    ensures (SetAsWritten(f, v, e).0.value, SetAsWritten(f, v, e).0.err) != (f.value, f.err)
    ensures Step(Completed(f.value, f.err), SetOp(v, e)) ==
              Outcome(Panicked, Completed(f.value, f.err), [], [])
  {
  }

  /** A second `Set` whose panic the caller recovers from has replaced the stored pair. */
  lemma RecoveredSecondSetOverwrites()
    ensures var (first, panicked1) := SetAsWritten(Fields(None, None, false), Some(1), None);
            var (second, panicked2) := SetAsWritten(first, Some(2), Some(Failure("bad")));
            !panicked1 && panicked2 && second.value != first.value && second.err != first.err
  {
  }

  /** `Then` on a completed future as the Go code performs it: with a nil error it hands
      the stored value to `reflect.Value.Call`, and a nil value becomes the zero
      `reflect.Value`, on which `Call` panics before the callback runs. */
  function ThenAsWritten<T>(s: State<T>): Outcome<T>
    requires s.Completed?
  {
    if s.err.None? && s.value.None? then Outcome(Panicked, s, [], [])
    else Outcome(Running, s, ThenArgs(s), [])
  }

  /** As written, `Then` panics instead of calling its callback exactly on a future set
      to (nil, nil), where `Step` calls the callback once with nil; on every other
      completed future the two agree. */
  lemma NilValueThenPanicsAsWritten<T>(s: State<T>)
    requires s.Completed?
    ensures ThenAsWritten(s).status == Panicked <==> s.value.None? && s.err.None?
    ensures ThenAsWritten(s) == Step(s, ThenOp) <==> !(s.value.None? && s.err.None?)
    ensures s.value.None? && s.err.None? ==> Step(s, ThenOp) == Outcome(Running, s, [None], [])
  {
  }
}
