/** Option and Result, the failure-carrying values used throughout the model
    in place of Go's `(value, error)` pairs. */
module Wrappers {

  datatype Option<+T> = None | Some(value: T) {
    function GetOr(default: T): T {
      match this
      case Some(v) => v
      case None => default
    }
  }

  datatype Result<+T, +E> = Ok(value: T) | Err(error: E) {
    predicate IsFailure() { Err? }

    function PropagateFailure<U>(): Result<U, E>
      requires Err?
    {
      Err(error)
    }

    function Extract(): T
      requires Ok?
    {
      value
    }

    /** The value, or `default` on failure: Go code that ignores an error
        and keeps the zero value of the result. */
    function GetOr(default: T): T {
      match this
      case Ok(v) => v
      case Err(_) => default
    }
  }

  /** Concatenation regrouped; the loops that collect results one at a time
      use it to move an element from the pending suffix to the result. */
  lemma AppendAssoc<X>(a: seq<X>, b: seq<X>, d: seq<X>)
    ensures (a + b) + d == a + (b + d)
  {
  }

  /** A prefix one longer is the prefix followed by the next element. */
  lemma PrefixStep<X>(s: seq<X>, i: nat)
    requires i < |s|
    ensures s[..i + 1] == s[..i] + [s[i]]
  {
  }

  /** Every element of `xs` that a loop stopping at its first `None`
      reaches is `ready`: the first element, and the rest when the first
      yields a value. */
  predicate Reached<X, Y>(xs: seq<X>, ready: X -> bool, step: X -> Option<Y>)
    decreases |xs|
  {
    xs != [] ==> ready(xs[0]) && (step(xs[0]).Some? ==> Reached(xs[1..], ready, step))
  }

  /** The values `step` yields over `xs` up to its first `None`: what a loop
      collects when it stops at the first step that yields nothing. */
  function Collect<X, Y>(xs: seq<X>, step: X -> Option<Y>): seq<Y>
    decreases |xs|
  {
    if xs == [] then []
    else match step(xs[0])
      case None => []
      case Some(y) => [y] + Collect(xs[1..], step)
  }

  /** The collected values are the leading yields of `step`, in order, from
      elements that are `ready`; when fewer values than elements are
      collected, the next element is reached, is `ready` and yields
      nothing. */
  lemma {:induction false} CollectPrefix<X, Y>(xs: seq<X>, ready: X -> bool, step: X -> Option<Y>)
    requires Reached(xs, ready, step)
    ensures |Collect(xs, step)| <= |xs|
    ensures forall j :: 0 <= j < |Collect(xs, step)| ==>
      ready(xs[j]) && step(xs[j]) == Some(Collect(xs, step)[j])
    ensures |Collect(xs, step)| < |xs| ==>
      ready(xs[|Collect(xs, step)|]) && step(xs[|Collect(xs, step)|]).None?
    decreases |xs|
  {
    if xs != [] && step(xs[0]).Some? {
      var rest := xs[1..];
      CollectPrefix(rest, ready, step);
      assert Collect(xs, step) == [step(xs[0]).value] + Collect(rest, step);
      forall j | 1 <= j < |xs|
        ensures xs[j] == rest[j - 1]
      {
      }
    }
  }

  /** A first `None` bounds the number of collected values, and when every
      element yields a value there is one per element. */
  lemma {:induction false} CollectStops<X, Y>(xs: seq<X>, step: X -> Option<Y>)
    ensures forall k :: 0 <= k < |xs| && step(xs[k]).None? ==> |Collect(xs, step)| <= k
    ensures (forall k :: 0 <= k < |xs| ==> step(xs[k]).Some?) ==> |Collect(xs, step)| == |xs|
    decreases |xs|
  {
    if xs != [] && step(xs[0]).Some? {
      var rest := xs[1..];
      CollectStops(rest, step);
      assert Collect(xs, step) == [step(xs[0]).value] + Collect(rest, step);
      forall j | 1 <= j < |xs|
        ensures xs[j] == rest[j - 1]
      {
      }
    }
  }
}
