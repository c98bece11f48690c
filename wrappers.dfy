/** Option and Result types used for the source's `None` values and raised exceptions. */
module Wrappers {

  datatype Option<+T> = None | Some(value: T) {
    function GetOr(default: T): T {
      match this
      case Some(v) => v
      case None => default
    }
  }

  /** `Err` stands for an exception the source raises; `Ok` for a normal return. */
  datatype Result<+T, +E> = Ok(value: T) | Err(error: E) {
    predicate IsFailure() {
      Err?
    }

    function PropagateFailure<U>(): Result<U, E>
      requires Err?
    {
      Err(error)
    }

    function Extract(): T
      requires Ok?
    {
      value
    }
  }

  /** The values of the first `n` results, or the first failure among them. */
  function CollectUpTo<T, E>(rs: seq<Result<T, E>>, n: nat): Result<seq<T>, E>
    requires n <= |rs|
  {
    if n == 0 then Ok([])
    else
      var vs :- CollectUpTo(rs, n - 1);
      var v :- rs[n - 1];
      Ok(vs + [v])
  }

  /** One more successful result extends the collected values. */
  lemma CollectStep<T, E>(rs: seq<Result<T, E>>, n: nat)
    requires n < |rs| && CollectUpTo(rs, n).Ok? && rs[n].Ok?
    ensures CollectUpTo(rs, n + 1) == Ok(CollectUpTo(rs, n).value + [rs[n].value])
  {
  }

  lemma {:induction false} CollectSticks<T, E>(rs: seq<Result<T, E>>, n: nat, m: nat)
    requires n <= m <= |rs|
    requires CollectUpTo(rs, n).Err?
    ensures CollectUpTo(rs, m) == CollectUpTo(rs, n)
    decreases m - n
  {
    if n < m {
      CollectSticks(rs, n, m - 1);
    }
  }

  /** Collecting succeeds exactly when every result does, and fails with the first failure. */
  lemma {:induction false} CollectMeaning<T, E>(rs: seq<Result<T, E>>, n: nat)
    requires n <= |rs|
    ensures CollectUpTo(rs, n).Ok? <==> forall i :: 0 <= i < n ==> rs[i].Ok?
    ensures CollectUpTo(rs, n).Ok? ==>
      |CollectUpTo(rs, n).value| == n &&
      forall i :: 0 <= i < n ==> CollectUpTo(rs, n).value[i] == rs[i].value
    ensures CollectUpTo(rs, n).Err? ==>
      exists j :: 0 <= j < n && rs[j] == Err(CollectUpTo(rs, n).error) &&
        forall i :: 0 <= i < j ==> rs[i].Ok?
  {
    if n > 0 {
      CollectMeaning(rs, n - 1);
    }
  }

  /** The first present value among the first `n` options. */
  function FirstSome<E>(xs: seq<Option<E>>, n: nat): Option<E>
    requires n <= |xs|
  {
    if n == 0 then None
    else
      match FirstSome(xs, n - 1)
      case Some(e) => Some(e)
      case None => xs[n - 1]
  }

  lemma {:induction false} FirstSomeSticks<E>(xs: seq<Option<E>>, n: nat, m: nat)
    requires n <= m <= |xs|
    requires FirstSome(xs, n).Some?
    ensures FirstSome(xs, m) == FirstSome(xs, n)
    decreases m - n
  {
    if n < m {
      FirstSomeSticks(xs, n, m - 1);
    }
  }

  /** `FirstSome` is none exactly when all are none, and otherwise the leftmost present one. */
  lemma {:induction false} FirstSomeMeaning<E>(xs: seq<Option<E>>, n: nat)
    requires n <= |xs|
    ensures FirstSome(xs, n).None? <==> forall i :: 0 <= i < n ==> xs[i].None?
    ensures FirstSome(xs, n).Some? ==>
      exists j :: 0 <= j < n && xs[j] == FirstSome(xs, n) && forall i :: 0 <= i < j ==> xs[i].None?
  {
    if n > 0 {
      FirstSomeMeaning(xs, n - 1);
    }
  }

  /** The leftmost present element is what `FirstSome` finds over the whole sequence. */
  lemma FirstSomeAt<E>(xs: seq<Option<E>>, k: nat)
    requires k < |xs| && xs[k].Some?
    requires forall i :: 0 <= i < k ==> xs[i].None?
    ensures FirstSome(xs, |xs|) == xs[k]
  {
    FirstSomeMeaning(xs, k);
    assert FirstSome(xs, k + 1) == xs[k];
    FirstSomeSticks(xs, k + 1, |xs|);
  }
}
