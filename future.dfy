/** `SettableFuture`: a one-shot cell holding a (value, err) pair, set once by its
    producer and then read, waited on and reacted to by any number of consumers.
    Blocking is a precondition here: an operation that would block until the future
    is set requires that it already is. */
module Future {
  import opened Types
  import Lifecycle

  /** A callback handed to `Then` or `Catch`. Its only effect in this model is to
      record the argument of each invocation, in order. */
  class Callback<A> {
    var received: seq<A>

    constructor Create()
      ensures received == []
    {
      received := [];
    }

    /** Invoke the callback with `a`. */
    method Invoke(a: A)
      modifies this
      ensures received == old(received) + [a]
    {
      received := received + [a];
    }
  }

  class SettableFuture<T> {
    var value: Option<T>
    var err: Option<Error>
    /** True once the `done` channel is closed. */
    var done: bool

    /** Only `Set` writes the pair, and it closes `done` as it does so: until then both
        are nil. */
    ghost predicate Valid()
      reads this
    {
      !done ==> value.None? && err.None?
    }

    /** The abstract state of the future. */
    ghost function State(): Lifecycle.State<T>
      reads this
    {
      if done then Lifecycle.Completed(value, err) else Lifecycle.Pending
    }

    /** A new future: pending, with nil value and nil error. */
    constructor New()
      ensures Valid()
      ensures State() == Lifecycle.Pending
      ensures !done && value.None? && err.None?
    {
      value := None;
      err := None;
      done := false;
    }

    /** Store the result and mark the future done. Setting a done future is a fatal
        error (closing a closed channel), so it is not done yet. */
    method Set(v: Option<T>, e: Option<Error>)
      requires Valid()
      requires !done
      modifies this
      ensures Valid()
      ensures Lifecycle.Step(old(State()), Lifecycle.SetOp(v, e)) == Lifecycle.Outcome(Lifecycle.Running, State(), [], [])
      ensures done && Lifecycle.Observed(State()) == (v, e)
    {
      value := v;
      err := e;
      done := true;
    }

    /** Whether the result has been set. */
    method Done() returns (d: bool)
      requires Valid()
      ensures d <==> State().Completed?
    {
      d := done;
    }

    /** The stored error: nil until the future is set. */
    method Err() returns (e: Option<Error>)
      requires Valid()
      ensures e == Lifecycle.Observed(State()).1
      ensures !done ==> e.None?
    {
      e := err;
    }

    /** The stored value: nil until the future is set. */
    method Value() returns (v: Option<T>)
      requires Valid()
      ensures v == Lifecycle.Observed(State()).0
      ensures !done ==> v.None?
    {
      v := value;
    }

    /** The stored pair: nil and nil until the future is set. */
    method Result() returns (v: Option<T>, e: Option<Error>)
      requires Valid()
      ensures (v, e) == Lifecycle.Observed(State())
      ensures !done ==> v.None? && e.None?
    {
      v := value;
      e := err;
    }

    /** Return as soon as the context is done or the future is: the context's error
        with a nil value in the first case, the stored pair in the second. When both
        are ready the choice is arbitrary, as Go's `select` makes it. */
    method Wait(ctx: Context) returns (v: Option<T>, e: Option<Error>)
      requires Valid()
      requires Lifecycle.WaitReady(State(), ctx)
      ensures Lifecycle.WaitMayReturn(State(), ctx, (v, e))
      ensures !ctx.Done() ==> (v, e) == Lifecycle.Observed(State())
      ensures !done ==> v.None? && e == ctx.Err() && e.Some?
    {
      if ctx.Done() && done {
        if * {
          v, e := None, ctx.Err();
        } else {
          v, e := value, err;
        }
      } else if ctx.Done() {
        v, e := None, ctx.Err();
      } else {
        v, e := value, err;
      }
    }

    /** Once the future is set: call `onValue` with the stored value if no error was
        stored, call nothing otherwise, and return this same future. */
    method Then(onValue: Callback<Option<T>>) returns (g: SettableFuture<T>)
      requires Valid()
      requires done
      modifies onValue
      ensures g == this && g.Valid()
      ensures onValue.received == old(onValue.received) + Lifecycle.ThenArgs(State())
      ensures err.None? ==> onValue.received == old(onValue.received) + [value]
      ensures err.Some? ==> onValue.received == old(onValue.received)
      ensures Lifecycle.Step(State(), Lifecycle.ThenOp) ==
                Lifecycle.Outcome(Lifecycle.Running, State(), onValue.received[|old(onValue.received)|..], [])
    {
      if err.None? {
        onValue.Invoke(value);
      }
      g := this;
    }

    /** Once the future is set: call `onError` with the stored error if there is one,
        call nothing otherwise, and return this same future. */
    method Catch(onError: Callback<Error>) returns (g: SettableFuture<T>)
      requires Valid()
      requires done
      modifies onError
      ensures g == this && g.Valid()
      ensures onError.received == old(onError.received) + Lifecycle.CatchArgs(State())
      ensures err.Some? ==> onError.received == old(onError.received) + [err.value]
      ensures err.None? ==> onError.received == old(onError.received)
      ensures Lifecycle.Step(State(), Lifecycle.CatchOp) ==
                Lifecycle.Outcome(Lifecycle.Running, State(), [], onError.received[|old(onError.received)|..])
    {
      if err.Some? {
        onError.Invoke(err.value);
      }
      g := this;
    }
  }

  /** A new future is not done; once set to (v, nil) it is done, and every reader, and a
      wait on a live context, return exactly v and nil. */
  method SetThenRead<T>(v: T) returns (doneBefore: bool, doneAfter: bool, value: Option<T>,
                                       err: Option<Error>, result: (Option<T>, Option<Error>),
                                       waited: (Option<T>, Option<Error>))
    ensures !doneBefore && doneAfter
    ensures value == Some(v) && err.None?
    ensures result == (Some(v), None)
    ensures waited == (Some(v), None)
  {
    var f := new SettableFuture<T>.New();
    doneBefore := f.Done();
    f.Set(Some(v), None);
    doneAfter := f.Done();
    value := f.Value();
    err := f.Err();
    var rv, re := f.Result();
    result := (rv, re);
    var wv, we := f.Wait(Live);
    waited := (wv, we);
  }

  /** Waiting on a pending future with a context that is already done returns nil and
      the context's error, and leaves the future pending. */
  method WaitCancelled<T>(ctx: Context) returns (v: Option<T>, e: Option<Error>, doneAfter: bool)
    requires ctx.Done()
    ensures v.None? && e == ctx.Err() && e.Some?
    ensures !doneAfter
  {
    var f := new SettableFuture<T>.New();
    v, e := f.Wait(ctx);
    doneAfter := f.Done();
  }

  /** `Then(...).Catch(...)` on a future set to (v, nil) calls the `Then` callback once,
      with v, and never the `Catch` callback. */
  method ThenCatchOnSuccess<T>(v: T) returns (thenArgs: seq<Option<T>>, catchArgs: seq<Error>)
    ensures thenArgs == [Some(v)]
    ensures catchArgs == []
  {
    var f := new SettableFuture<T>.New();
    f.Set(Some(v), None);
    var onValue := new Callback<Option<T>>.Create();
    var onError := new Callback<Error>.Create();
    var g := f.Then(onValue);
    g := g.Catch(onError);
    thenArgs, catchArgs := onValue.received, onError.received;
  }

  /** `Then(...).Catch(...)` on a future set to (nil, e) never calls the `Then` callback
      and calls the `Catch` callback once, with e. */
  method ThenCatchOnFailure<T>(e: Error) returns (thenArgs: seq<Option<T>>, catchArgs: seq<Error>)
    ensures thenArgs == []
    ensures catchArgs == [e]
  {
    var f := new SettableFuture<T>.New();
    f.Set(None, Some(e));
    var onValue := new Callback<Option<T>>.Create();
    var onError := new Callback<Error>.Create();
    var g := f.Then(onValue);
    g := g.Catch(onError);
    thenArgs, catchArgs := onValue.received, onError.received;
  }
}
