/** Option and Result, used for JavaScript's `undefined` results and for
    exceptions: a `Failure` carries the thrown error's message. */
module Wrappers {

  datatype Option<+T> = None | Some(value: T) {

    /** Turns a missing value into a failure carrying `error`. */
    function ToResult<E>(error: E): Result<T, E> {
      match this
      case Some(v) => Success(v)
      case None => Failure(error)
    }
  }

  datatype Result<+R, +E> = Success(value: R) | Failure(error: E) {

    predicate IsFailure() {
      Failure?
    }

    function PropagateFailure<U>(): Result<U, E>
      requires Failure?
    {
      Failure(error)
    }

    function Extract(): R
      requires Success?
    {
      value
    }
  }

  /** `items.map(f)` with a callback that may throw: the callback runs on the
      items in order, and the first item it throws on ends the whole map with
      that error. */
  function MapOrThrow<A, B>(f: A -> Result<B, string>, items: seq<A>): (r: Result<seq<B>, string>)
    ensures r.Success? <==> forall i :: 0 <= i < |items| ==> f(items[i]).Success?
    ensures r.Failure? ==>
      exists i :: 0 <= i < |items| && f(items[i]) == Failure(r.error)
        && forall j :: 0 <= j < i ==> f(items[j]).Success?
    ensures r.Success? ==>
      |r.value| == |items| && forall i :: 0 <= i < |items| ==> f(items[i]) == Success(r.value[i])
    decreases |items|
  {
    if |items| == 0 then Success([])
    else
      match f(items[0])
      case Failure(e) => Failure(e)
      case Success(first) =>
        var rest := MapOrThrow(f, items[1..]);
        assert forall i :: 1 <= i < |items| ==> items[i] == items[1..][i - 1];
        match rest
        case Failure(e) => Failure(e)
        case Success(tail) => Success([first] + tail)
  }
}
