/** Option and Result values standing for Python's `None`/value and
    raised exceptions, and the order-preserving filter that every list
    comprehension `[x for x in xs if p(x)]` of the client denotes. */
module Wrappers {

  datatype Option<+T> = None | Some(value: T) {
    function GetOr(default: T): T {
      match this
      case Some(v) => v
      case None => default
    }
  }

  datatype Result<+T, +E> = Success(value: T) | Failure(error: E) {
    predicate IsFailure() {
      Failure?
    }

    function PropagateFailure<U>(): Result<U, E>
      requires Failure?
    {
      Failure(error)
    }

    function Extract(): T
      requires Success?
    {
      value
    }
  }

  /** `[x for x in xs if keep(x)]`. */
  function Keep<T>(xs: seq<T>, keep: T -> bool): seq<T>
  {
    if xs == [] then []
    else Keep(xs[..|xs| - 1], keep) + (if keep(xs[|xs| - 1]) then [xs[|xs| - 1]] else [])
  }

  /** Filtering distributes over concatenation: the kept elements keep
      their relative order. */
  lemma {:induction false} KeepAppend<T>(xs: seq<T>, ys: seq<T>, keep: T -> bool)
    ensures Keep(xs + ys, keep) == Keep(xs, keep) + Keep(ys, keep)
  {
    if ys == [] {
      assert xs + ys == xs;
    } else {
      var ys' := ys[..|ys| - 1];
      assert (xs + ys)[..|xs + ys| - 1] == xs + ys';
      assert (xs + ys)[|xs + ys| - 1] == ys[|ys| - 1];
      KeepAppend(xs, ys', keep);
    }
  }

  /** An element is kept exactly when it occurs in the input and passes
      the test. */
  lemma {:induction false} KeepMembers<T>(xs: seq<T>, keep: T -> bool, x: T)
    ensures x in Keep(xs, keep) <==> x in xs && keep(x)
  {
    if xs != [] {
      var init := xs[..|xs| - 1];
      KeepMembers(init, keep, x);
      assert xs == init + [xs[|xs| - 1]];
    }
  }

  /** Everything that is kept passes the test, and nothing is invented. */
  lemma {:induction false} KeepAllPass<T>(xs: seq<T>, keep: T -> bool)
    ensures |Keep(xs, keep)| <= |xs|
    ensures forall i :: 0 <= i < |Keep(xs, keep)| ==> keep(Keep(xs, keep)[i])
  {
    if xs != [] {
      KeepAllPass(xs[..|xs| - 1], keep);
    }
  }

  /** If every element passes, nothing is dropped. */
  lemma {:induction false} KeepAll<T>(xs: seq<T>, keep: T -> bool)
    requires forall i :: 0 <= i < |xs| ==> keep(xs[i])
    ensures Keep(xs, keep) == xs
  {
    if xs != [] {
      KeepAll(xs[..|xs| - 1], keep);
    }
  }
}
