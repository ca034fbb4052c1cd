/** Option and Result values shared by every module of the model. */
module Common {

  /** An optional value: `None` stands for a key missing from a reply document. */
  datatype Option<+T> = None | Some(value: T) {
    /** Python's `d.get(key, default)`. */
    function GetOr(default: T): T {
      if Some? then value else default
    }
  }

  /** The outcome of an operation that can raise. */
  datatype Result<+T, +E> = Ok(value: T) | Err(error: E)

  /** Applies `f` to each element in order; the first failure stops the whole. */
  function TryMap<T, U, E>(xs: seq<T>, f: T -> Result<U, E>): (r: Result<seq<U>, E>)
    ensures r.Ok? <==> forall k :: 0 <= k < |xs| ==> f(xs[k]).Ok?
    ensures r.Ok? ==>
              |r.value| == |xs| &&
              forall k :: 0 <= k < |xs| ==> f(xs[k]) == Ok(r.value[k])
  {
    if xs == [] then Ok([])
    else
      var head := f(xs[0]);
      var tail := TryMap(xs[1..], f);
      assert forall k :: 1 <= k < |xs| ==> xs[k] == xs[1..][k - 1];
      if head.Err? then Err(head.error)
      else if tail.Err? then Err(tail.error)
      else Ok([head.value] + tail.value)
  }

  /** A failed `TryMap` reports the error of the first element that fails. */
  lemma {:induction false} TryMapFirstFailure<T, U, E>(xs: seq<T>, f: T -> Result<U, E>, k: nat)
    requires k < |xs| && f(xs[k]).Err?
    requires forall j :: 0 <= j < k ==> f(xs[j]).Ok?
    ensures TryMap(xs, f) == Err(f(xs[k]).error)
  {
    var tail := xs[1..];
    if k > 0 {
      assert f(xs[0]).Ok?;
      forall j | 0 <= j < k - 1
        ensures f(tail[j]).Ok?
      {
        assert tail[j] == xs[j + 1];
      }
      assert tail[k - 1] == xs[k];
      TryMapFirstFailure(tail, f, k - 1);
    }
  }

  /** The error of a failed `TryMap` is the error of one of the elements. */
  lemma {:induction false} TryMapErrorFrom<T, U, E>(xs: seq<T>, f: T -> Result<U, E>)
    ensures TryMap(xs, f).Err? ==> exists k :: 0 <= k < |xs| && f(xs[k]) == Err(TryMap(xs, f).error)
  {
    if xs != [] && f(xs[0]).Ok? && TryMap(xs, f).Err? {
      TryMapErrorFrom(xs[1..], f);
      var k :| 0 <= k < |xs| - 1 && f(xs[1..][k]) == Err(TryMap(xs[1..], f).error);
      assert xs[1..][k] == xs[k + 1];
    }
  }
}
