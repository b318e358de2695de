/** Optional values and results with an error, usable with `:-`. */
module Wrappers {

  /** A value that may be absent: JavaScript's `undefined` or `null`. */
  datatype Option<+T> = None | Some(value: T) {

    /** `this ?? default`: the value when present, the default otherwise. */
    function GetOr(default: T): T {
      match this
      case Some(v) => v
      case None => default
    }
  }

  /** The outcome of an operation that may throw: a value or the error thrown. */
  datatype Result<+T, +E> = Ok(value: T) | Err(error: E) {

    predicate IsFailure() {
      Err?
    }

    function PropagateFailure<U>(): Result<U, E>
      requires Err?
    {
      Err(error)
    }

    function Extract(): T
      requires Ok?
    {
      value
    }
  }

  /** `a ?? b`: the first of two optional values that is present. */
  function Or<T>(a: Option<T>, b: Option<T>): (r: Option<T>)
    ensures a.Some? ==> r == a
    ensures a.None? ==> r == b
  {
    if a.Some? then a else b
  }

  /**
   * Evaluates a list of results from left to right, as `map` does when each
   * call may throw: the first error stops the evaluation, otherwise all values.
   */
  function Collect<T, E(==)>(rs: seq<Result<T, E>>): (r: Result<seq<T>, E>)
    ensures r.Ok? <==> forall i :: 0 <= i < |rs| ==> rs[i].Ok?
    ensures r.Ok? ==> |r.value| == |rs| && forall i :: 0 <= i < |rs| ==> r.value[i] == rs[i].value
    ensures r.Err? ==> exists i :: 0 <= i < |rs| && rs[i].Err? && rs[i].error == r.error && forall j :: 0 <= j < i ==> rs[j].Ok?
  {
    if rs == [] then Ok([])
    else if rs[0].Err? then Err(rs[0].error)
    else
      match Collect(rs[1..])
      case Ok(vs) => Ok([rs[0].value] + vs)
      case Err(e) =>
        var i :| 0 <= i < |rs| - 1 && rs[1..][i].Err? && rs[1..][i].error == e && forall j :: 0 <= j < i ==> rs[1..][j].Ok?;
        assert rs[i + 1].Err? && rs[i + 1].error == e && forall j :: 0 <= j < i + 1 ==> rs[j].Ok?;
        Err(e)
  }

  /** The error of a failed `Collect` is that of a result that failed, with every earlier one a value. */
  lemma CollectFailure<T, E>(rs: seq<Result<T, E>>, e: E)
    requires Collect(rs) == Err(e)
    ensures exists i :: 0 <= i < |rs| && rs[i] == Err(e) && forall j :: 0 <= j < i ==> rs[j].Ok?
  {
    var i :| 0 <= i < |rs| && rs[i].Err? && rs[i].error == e && forall j :: 0 <= j < i ==> rs[j].Ok?;
    assert rs[i] == Err(e);
  }
}
