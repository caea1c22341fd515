/** Failure-carrying results, used where the Python code raises or returns None. */
module Wrappers {

  datatype Option<+T> = None | Some(value: T)

  datatype Result<+R, +E> = Success(value: R) | Failure(error: E)

  /**
   * Applies `f` to each element in order, as a Python loop that appends to a list does; the
   * first element whose result is a failure stops the whole, and its index is reported.
   */
  function MapResult<A, B, E>(f: A -> Result<B, E>, xs: seq<A>): Result<seq<B>, (nat, E)>
    decreases |xs|
  {
    if xs == [] then Success([])
    else
      var n := |xs| - 1;
      match MapResult(f, xs[..n])
      case Failure(e) => Failure(e)
      case Success(ys) =>
        match f(xs[n])
        case Failure(e) => Failure((n, e))
        case Success(y) => Success(ys + [y])
  }

  /** One result per element, in order; success exactly when every element succeeds. */
  lemma {:induction false} MapResultPointwise<A, B, E>(f: A -> Result<B, E>, xs: seq<A>)
    ensures MapResult(f, xs).Success? <==> forall k :: 0 <= k < |xs| ==> f(xs[k]).Success?
    ensures MapResult(f, xs).Success? ==> |MapResult(f, xs).value| == |xs|
    ensures MapResult(f, xs).Success? ==> forall k :: 0 <= k < |xs| ==> MapResult(f, xs).value[k] == f(xs[k]).value
    decreases |xs|
  {
    if xs != [] {
      var n := |xs| - 1;
      MapResultPointwise(f, xs[..n]);
      assert forall k :: 0 <= k < n ==> xs[..n][k] == xs[k];
    }
  }

  /** The failure reported is that of the first element that fails. */
  lemma FirstFailureReported<A, B, E>(f: A -> Result<B, E>, xs: seq<A>, i: nat)
    requires i < |xs| && f(xs[i]).Failure?
    requires forall k :: 0 <= k < i ==> f(xs[k]).Success?
    ensures MapResult(f, xs) == Failure((i, f(xs[i]).error))
  {
    assert xs[..i + 1][..i] == xs[..i];
    assert forall k :: 0 <= k < i ==> xs[..i][k] == xs[k];
    MapResultPointwise(f, xs[..i]);
    FailurePersists(f, xs, i + 1);
  }

  /** A failure among the first `n` elements is the failure of the whole sequence. */
  lemma {:induction false} FailurePersists<A, B, E>(f: A -> Result<B, E>, xs: seq<A>, n: nat)
    requires n <= |xs|
    requires MapResult(f, xs[..n]).Failure?
    ensures MapResult(f, xs) == MapResult(f, xs[..n])
    decreases |xs| - n
  {
    if n < |xs| {
      assert xs[..n + 1][..n] == xs[..n];
      FailurePersists(f, xs, n + 1);
    } else {
      assert xs[..n] == xs;
    }
  }

  /** The loop that computes `MapResult`: append each result, stop at the first failure. */
  method MapUntilFailure<A, B, E>(f: A -> Result<B, E>, xs: seq<A>) returns (r: Result<seq<B>, (nat, E)>)
    ensures r == MapResult(f, xs)
  {
    var ys: seq<B> := [];
    var k := 0;
    while k < |xs|
      invariant 0 <= k <= |xs|
      invariant MapResult(f, xs[..k]) == Success(ys)
    {
      assert xs[..k + 1][..k] == xs[..k];
      var y := f(xs[k]);
      if y.Failure? {
        FailurePersists(f, xs, k + 1);
        return Failure((k, y.error));
      }
      ys := ys + [y.value];
      k := k + 1;
    }
    assert xs[..k] == xs;
    r := Success(ys);
  }
}
