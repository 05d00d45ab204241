/** Optional values, results that may carry an error, and mapping a step that may
    fail over a sequence (the plugin's `W.map` over fetched entries and its
    `data.map` over a collection both behave this way). */
module Results {

  datatype Option<+T> = None | Some(value: T) {
    function GetOr(default: T): T {
      if Some? then value else default
    }
  }

  datatype Result<+T, +E> = Success(value: T) | Failure(error: E) {
    predicate IsFailure() {
      Failure?
    }

    function PropagateFailure<U>(): Result<U, E>
      requires Failure?
    {
      Failure(error)
    }

    function Extract(): T
      requires Success?
    {
      value
    }
  }

  /** Index `i` is the first element of `xs` on which `f` fails. */
  ghost predicate FirstFailureAt<A, B, E>(f: A -> Result<B, E>, xs: seq<A>, i: int) {
    && 0 <= i < |xs|
    && f(xs[i]).Failure?
    && forall j | 0 <= j < i :: f(xs[j]).Success?
  }

  /** Applies `f` to every element in order. The result succeeds exactly when every
      application does, keeps the order and the length, and otherwise carries the
      error of the first element that failed. */
  function MapAll<A, B, E>(f: A -> Result<B, E>, xs: seq<A>): (r: Result<seq<B>, E>)
    ensures r.Success? <==> forall i | 0 <= i < |xs| :: f(xs[i]).Success?
    ensures r.Success? ==> |r.value| == |xs| && forall i | 0 <= i < |xs| :: r.value[i] == f(xs[i]).value
    ensures r.Failure? ==> exists i :: FirstFailureAt(f, xs, i) && r.error == f(xs[i]).error
    decreases |xs|
  {
    if xs == [] then Success([])
    else
      match f(xs[0])
      case Failure(e) =>
        assert FirstFailureAt(f, xs, 0);
        Failure(e)
      case Success(y) =>
        match MapAll(f, xs[1..])
        case Failure(e) =>
          assert forall k | FirstFailureAt(f, xs[1..], k) :: FirstFailureAt(f, xs, k + 1) && xs[1..][k] == xs[k + 1];
          Failure(e)
        case Success(ys) =>
          assert forall i | 1 <= i < |xs| :: xs[i] == xs[1..][i - 1];
          Success([y] + ys)
  }
}
