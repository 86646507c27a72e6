/** Option and Result, named as in Rust, usable with `:-` so that a chain of
    fallible steps reads like the `?` operator of the modelled code. */
module Wrappers {

  datatype Option<+T> = None | Some(value: T)

  datatype Result<+T, +E> = Ok(value: T) | Err(error: E) {

    predicate IsFailure() {
      Err?
    }

    function PropagateFailure<U>(): Result<U, E>
      requires Err?
    {
      Err(error)
    }

    function Extract(): T
      requires Ok?
    {
      value
    }
  }

  /** The first `n` steps run in order, as a loop whose body ends in `?`:
      their values when every one succeeds, otherwise the error of the first
      that fails. */
  function Collect<T, E>(steps: seq<Result<T, E>>, n: nat): Result<seq<T>, E>
    requires n <= |steps|
  {
    if n == 0 then Ok([])
    else
      var before :- Collect(steps, n - 1);
      var last :- steps[n - 1];
      Ok(before + [last])
  }

  /** Collecting succeeds exactly when every step does, and then it holds
      each step's value in order. */
  lemma {:induction false} CollectSucceeds<T, E>(steps: seq<Result<T, E>>, n: nat)
    requires n <= |steps|
    ensures Collect(steps, n).Ok? <==> forall i :: 0 <= i < n ==> steps[i].Ok?
    ensures Collect(steps, n).Ok? ==>
      |Collect(steps, n).value| == n &&
      forall i :: 0 <= i < n ==> Collect(steps, n).value[i] == steps[i].value
  {
    if n > 0 {
      CollectSucceeds(steps, n - 1);
    }
  }

  /** Collecting stops at the first step that fails and reports its error. */
  lemma {:induction false} CollectFirstFailure<T, E>(steps: seq<Result<T, E>>, k: nat, n: nat)
    requires k < n <= |steps|
    requires forall i :: 0 <= i < k ==> steps[i].Ok?
    requires steps[k].Err?
    ensures Collect(steps, n) == Err(steps[k].error)
  {
    if n == k + 1 {
      CollectSucceeds(steps, k);
    } else {
      CollectFirstFailure(steps, k, n - 1);
    }
  }

  /** Once collecting has failed, running more steps keeps that failure. */
  lemma {:induction false} CollectKeepsFailure<T, E>(steps: seq<Result<T, E>>, m: nat, n: nat)
    requires m <= n <= |steps|
    requires Collect(steps, m).Err?
    ensures Collect(steps, n) == Collect(steps, m)
  {
    if m < n {
      CollectKeepsFailure(steps, m, n - 1);
    }
  }
}
