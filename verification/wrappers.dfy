/** Option and Result, used wherever the modelled code returns "nothing" or throws. */
module Wrappers {
  datatype Option<T> = None | Some(value: T)

  /** `Err` stands for a thrown exception; the message names the failing check. */
  datatype Result<T> = Ok(value: T) | Err(error: string)
  {
    predicate IsFailure() { Err? }

    function PropagateFailure<U>(): Result<U>
      requires Err?
    {
      Err(error)
    }

    function Extract(): T
      requires Ok?
    {
      value
    }
  }

  /** `f` applied to each element in order; the first failure is the result. */
  function MapResults<T, U>(f: T -> Result<U>, xs: seq<T>): (r: Result<seq<U>>)
    ensures r.Ok? ==> |r.value| == |xs|
  {
    if xs == [] then Ok([])
    else
      var prev :- MapResults(f, xs[..|xs| - 1]);
      var last :- f(xs[|xs| - 1]);
      Ok(prev + [last])
  }

  /** The mapping succeeds iff every element does, and then holds each element's value at its index. */
  lemma {:induction false} MapResultsMeaning<T, U>(f: T -> Result<U>, xs: seq<T>)
    ensures MapResults(f, xs).Ok? <==> forall i :: 0 <= i < |xs| ==> f(xs[i]).Ok?
    ensures MapResults(f, xs).Ok? ==> forall i :: 0 <= i < |xs| ==> f(xs[i]) == Ok(MapResults(f, xs).value[i])
  {
    if xs != [] {
      var init := xs[..|xs| - 1];
      MapResultsMeaning(f, init);
      assert forall i :: 0 <= i < |init| ==> init[i] == xs[i];
    }
  }

  /** Mapping a concatenation succeeds iff mapping both parts does, and gives the parts' values in order. */
  lemma {:induction false} MapResultsAppend<T, U>(f: T -> Result<U>, a: seq<T>, b: seq<T>)
    ensures MapResults(f, a + b).Ok? <==> MapResults(f, a).Ok? && MapResults(f, b).Ok?
    ensures MapResults(f, a + b).Ok? ==> MapResults(f, a + b).value == MapResults(f, a).value + MapResults(f, b).value
  {
    if b == [] {
      assert a + b == a;
    } else {
      var init := b[..|b| - 1];
      assert (a + b)[..|a + b| - 1] == a + init;
      assert (a + b)[|a + b| - 1] == b[|b| - 1];
      MapResultsAppend(f, a, init);
    }
  }

  /** Once a prefix fails, the whole mapping fails the same way. */
  lemma {:induction false} MapResultsStop<T, U>(f: T -> Result<U>, xs: seq<T>, n: nat)
    requires n <= |xs| && MapResults(f, xs[..n]).Err?
    ensures MapResults(f, xs) == MapResults(f, xs[..n])
    decreases |xs| - n
  {
    if n < |xs| {
      assert xs[..n + 1][..n] == xs[..n];
      MapResultsStop(f, xs, n + 1);
    } else {
      assert xs[..n] == xs;
    }
  }
}
