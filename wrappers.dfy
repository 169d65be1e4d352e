/** Failure-compatible wrappers shared by every module of the model. */
module Wrappers {

  /** An optional value: `None` stands for Python's `None`. */
  datatype Option<+T> = None | Some(value: T) {
    predicate IsFailure() { None? }

    function PropagateFailure<U>(): Option<U>
      requires None?
    {
      None
    }

    function Extract(): T
      requires Some?
    {
      value
    }
  }

  /** The outcome of an operation that may raise: `Failure` carries the exception. */
  datatype Result<+R, +E> = Success(value: R) | Failure(error: E) {
    predicate IsFailure() { Failure? }

    function PropagateFailure<U>(): Result<U, E>
      requires Failure?
    {
      Failure(error)
    }

    function Extract(): R
      requires Success?
    {
      value
    }
  }

  /** A loop that builds a value for each item from `k` on and appends it to `acc`,
      stopping at the first item that cannot be built. */
  function Collect<T, U, E>(f: T -> Result<U, E>, xs: seq<T>, k: nat, acc: seq<U>): Result<seq<U>, E>
    requires k <= |xs|
    decreases |xs| - k
  {
    if k == |xs| then Success(acc)
    else
      var x :- f(xs[k]);
      Collect(f, xs, k + 1, acc + [x])
  }

  /** The loop builds every item exactly when each one can be built; it then appends one
      value per item, in order. */
  lemma {:induction false} CollectSpec<T, U, E>(f: T -> Result<U, E>, xs: seq<T>, k: nat, acc: seq<U>)
    requires k <= |xs|
    ensures Collect(f, xs, k, acc).Success? <==> forall j | k <= j < |xs| :: f(xs[j]).Success?
    ensures Collect(f, xs, k, acc).Success? ==>
      var v := Collect(f, xs, k, acc).value;
      && |v| == |acc| + (|xs| - k)
      && (forall i | 0 <= i < |acc| :: v[i] == acc[i])
      && forall j | k <= j < |xs| :: f(xs[j]) == Success(v[|acc| + (j - k)])
    decreases |xs| - k
  {
    if k < |xs| && f(xs[k]).Success? {
      var next := acc + [f(xs[k]).value];
      CollectSpec(f, xs, k + 1, next);
    }
  }

  /** A loop started with nothing collected yields one value per item, in order. */
  lemma {:induction false} CollectEach<T, U, E>(f: T -> Result<U, E>, xs: seq<T>, v: seq<U>)
    requires Collect(f, xs, 0, []) == Success(v)
    ensures |v| == |xs| && forall j | 0 <= j < |xs| :: f(xs[j]) == Success(v[j])
  {
    var none: seq<U> := [];
    CollectSpec(f, xs, 0, none);
    forall j | 0 <= j < |xs|
      ensures f(xs[j]) == Success(v[j])
    {
      assert f(xs[j]) == Success(v[|none| + (j - 0)]);
    }
  }
}
