/** Option and Result, and the `collect` of an iterator of Results into a Result of a sequence. */
module Wrappers {

  datatype Option<+T> = None | Some(value: T) {
    predicate IsFailure() { None? }

    function PropagateFailure<U>(): Option<U>
      requires None?
    {
      None
    }

    function Extract(): T
      requires Some?
    {
      value
    }
  }

  datatype Result<+T, +E> = Ok(value: T) | Err(error: E) {
    predicate IsFailure() { Err? }

    function PropagateFailure<U>(): Result<U, E>
      requires Err?
    {
      Err(error)
    }

    function Extract(): T
      requires Ok?
    {
      value
    }
  }

  /** Rust's `xs.into_iter().map(f).collect::<Result<Vec<_>, _>>()`: the images of all
      elements in order, or the error of the first element whose image is an error. */
  function Collect<A, B, E>(xs: seq<A>, f: A -> Result<B, E>): (r: Result<seq<B>, E>)
    ensures r.Ok? ==> |r.value| == |xs| && forall i :: 0 <= i < |xs| ==> f(xs[i]) == Ok(r.value[i])
    ensures r.Err? <==> exists i :: 0 <= i < |xs| && f(xs[i]).Err?
    ensures r.Err? ==> exists i :: 0 <= i < |xs| && f(xs[i]) == Err(r.error)
                                     && forall j :: 0 <= j < i ==> f(xs[j]).Ok?
    decreases |xs|
  {
    if |xs| == 0 then Ok([])
    else
      match f(xs[0])
      case Err(e) => Err(e)
      case Ok(y) =>
        match Collect(xs[1..], f)
        case Err(e) =>
          ghost var i :| 0 <= i < |xs[1..]| && f(xs[1..][i]) == Err(e)
                         && forall j :: 0 <= j < i ==> f(xs[1..][j]).Ok?;
          assert f(xs[i + 1]) == Err(e);
          Err(e)
        case Ok(ys) => Ok([y] + ys)
  }

  /** Collecting one more element whose image is Ok appends that image. */
  lemma {:induction false} CollectSnoc<A, B, E>(xs: seq<A>, x: A, f: A -> Result<B, E>)
    requires Collect(xs, f).Ok? && f(x).Ok?
    ensures Collect(xs + [x], f) == Ok(Collect(xs, f).value + [f(x).value])
    decreases |xs|
  {
    if |xs| == 0 {
      assert xs + [x] == [x] && [x][1..] == [];
      assert Collect([x][1..], f) == Ok([]);
      assert Collect([x], f) == Ok([f(x).value] + []);
      assert Collect(xs, f).value == [];
      assert [f(x).value] + [] == [] + [f(x).value];
    } else {
      assert (xs + [x])[1..] == xs[1..] + [x];
      CollectSnoc(xs[1..], x, f);
      assert [f(xs[0]).value] + (Collect(xs[1..], f).value + [f(x).value])
          == ([f(xs[0]).value] + Collect(xs[1..], f).value) + [f(x).value];
    }
  }

  /** Collecting stops at the first element whose image is an error. */
  lemma CollectFailsAt<A, B, E>(xs: seq<A>, i: nat, f: A -> Result<B, E>)
    requires i < |xs| && Collect(xs[..i], f).Ok? && f(xs[i]).Err?
    ensures Collect(xs, f) == Err(f(xs[i]).error)
  {
    forall k | 0 <= k < i ensures f(xs[k]).Ok? {
      assert xs[..i][k] == xs[k];
    }
    var r := Collect(xs, f);
    assert r.Err? by {
      assert 0 <= i < |xs| && f(xs[i]).Err?;
    }
    var j :| 0 <= j < |xs| && f(xs[j]) == Err(r.error) && forall k :: 0 <= k < j ==> f(xs[k]).Ok?;
    assert j == i;
  }
}
