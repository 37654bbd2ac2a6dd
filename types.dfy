/** Values the future stores and the context that bounds a wait.
    Go's `nil` (for the untyped value and for `error`) is `None`. */
module Types {

  /** An optional value: `None` stands for Go's `nil`. */
  datatype Option<+T> = None | Some(value: T)

  /** The errors a caller can observe: the two a `context.Context` reports once it is
      done, and any other error a producer stores in the future. */
  datatype Error = Canceled | DeadlineExceeded | Failure(message: string)

  /** A `context.Context` as `Wait` sees it: still live, cancelled explicitly,
      or past its deadline. */
  datatype Context = Live | Cancelled | Expired {

    /** True once the context's `Done()` channel is closed. */
    predicate Done() {
      !Live?
    }

    /** `ctx.Err()`: nil while the context is live, otherwise why it ended. */
    function Err(): (r: Option<Error>)
      ensures r.None? <==> !Done()
      ensures r.Some? ==> !r.value.Failure?
    {
      match this
      case Live => None
      case Cancelled => Some(Canceled)
      case Expired => Some(DeadlineExceeded)
    }
  }
}
