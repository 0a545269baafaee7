/** Optional values, results of operations that can fail, and the loop that stops at
    the first failure. A Python exception raised inside a loop is modelled by `Err`. */
module Results {

  datatype Option<+T> = None | Some(value: T)

  datatype Result<+T, +E> = Ok(value: T) | Err(error: E) {

    predicate IsFailure() {
      Err?
    }

    function PropagateFailure<U>(): Result<U, E>
      requires Err?
    {
      Err(error)
    }

    function Extract(): T
      requires Ok?
    {
      value
    }
  }

  /** Applies `f` to the elements of `xs` from left to right and collects the results;
      the first failure ends the walk, as a raise inside a Python `for` loop does. */
  function TryMap<A, B, E>(xs: seq<A>, f: A --> Result<B, E>): Result<seq<B>, E>
    requires forall i :: 0 <= i < |xs| ==> f.requires(xs[i])
    decreases |xs|
  {
    if xs == [] then Ok([])
    else
      match TryMap(xs[..|xs| - 1], f)
      case Err(e) => Err(e)
      case Ok(done) =>
        match f(xs[|xs| - 1])
        case Err(e) => Err(e)
        case Ok(y) => Ok(done + [y])
  }

  /** The walk succeeds exactly when every element succeeds, and then the i-th result
      is the i-th element's. */
  lemma {:induction false} TryMapOk<A, B, E>(xs: seq<A>, f: A --> Result<B, E>)
    requires forall i :: 0 <= i < |xs| ==> f.requires(xs[i])
    ensures TryMap(xs, f).Ok? <==> forall i :: 0 <= i < |xs| ==> f(xs[i]).Ok?
    ensures TryMap(xs, f).Ok? ==>
              |TryMap(xs, f).value| == |xs| &&
              forall i :: 0 <= i < |xs| ==> TryMap(xs, f).value[i] == f(xs[i]).value
    decreases |xs|
  {
    if xs != [] {
      var init := xs[..|xs| - 1];
      TryMapOk(init, f);
      assert forall i :: 0 <= i < |init| ==> init[i] == xs[i];
    }
  }

  /** A failed walk reports the failure of the first element that fails. */
  lemma {:induction false} TryMapFirstError<A, B, E>(xs: seq<A>, f: A --> Result<B, E>)
    requires forall i :: 0 <= i < |xs| ==> f.requires(xs[i])
    requires TryMap(xs, f).Err?
    ensures exists k :: 0 <= k < |xs| && f(xs[k]) == Err(TryMap(xs, f).error) &&
                        forall j :: 0 <= j < k ==> f(xs[j]).Ok?
    decreases |xs|
  {
    var init := xs[..|xs| - 1];
    assert forall i :: 0 <= i < |init| ==> init[i] == xs[i];
    if TryMap(init, f).Err? {
      TryMapFirstError(init, f);
      var k :| 0 <= k < |init| && f(init[k]) == Err(TryMap(init, f).error) &&
                forall j :: 0 <= j < k ==> f(init[j]).Ok?;
      assert f(xs[k]) == Err(TryMap(xs, f).error);
    } else {
      TryMapOk(init, f);
      var k := |xs| - 1;
      assert f(xs[k]) == Err(TryMap(xs, f).error);
    }
  }

  /** One more step of the walk over a prefix. */
  lemma TryMapStep<A, B, E>(xs: seq<A>, f: A --> Result<B, E>, i: nat)
    requires forall i :: 0 <= i < |xs| ==> f.requires(xs[i])
    requires i < |xs|
    ensures TryMap(xs[..i + 1], f) ==
            match TryMap(xs[..i], f)
            case Err(e) => Err(e)
            case Ok(done) =>
              match f(xs[i])
              case Err(e) => Err(e)
              case Ok(y) => Ok(done + [y])
  {
    assert xs[..i + 1][..i] == xs[..i];
  }

  /** A walk whose every element succeeds collects exactly their results. */
  lemma TryMapAllOk<A, B, E>(xs: seq<A>, f: A --> Result<B, E>, ys: seq<B>)
    requires forall i :: 0 <= i < |xs| ==> f.requires(xs[i])
    requires |ys| == |xs| && forall i :: 0 <= i < |xs| ==> f(xs[i]) == Ok(ys[i])
    ensures TryMap(xs, f) == Ok(ys)
  {
    TryMapOk(xs, f);
    assert TryMap(xs, f).value == ys;
  }

  /** Every collected result is the result of some element. */
  lemma TryMapMember<A, B, E>(xs: seq<A>, f: A --> Result<B, E>, y: B)
    requires forall i :: 0 <= i < |xs| ==> f.requires(xs[i])
    requires TryMap(xs, f).Ok? && y in TryMap(xs, f).value
    ensures exists i :: 0 <= i < |xs| && f(xs[i]) == Ok(y)
  {
    TryMapOk(xs, f);
    var i :| 0 <= i < |TryMap(xs, f).value| && TryMap(xs, f).value[i] == y;
    assert f(xs[i]) == Ok(y);
  }

  /** A walk whose first failing element is the k-th fails with that element's error. */
  lemma TryMapErrAt<A, B, E>(xs: seq<A>, f: A --> Result<B, E>, k: nat)
    requires forall i :: 0 <= i < |xs| ==> f.requires(xs[i])
    requires k < |xs| && f(xs[k]).Err? && forall j :: 0 <= j < k ==> f(xs[j]).Ok?
    ensures TryMap(xs, f) == Err(f(xs[k]).error)
  {
    var init := xs[..k];
    assert forall j :: 0 <= j < k ==> init[j] == xs[j];
    TryMapOk(init, f);
    TryMapStep(xs, f, k);
    TryMapPrefixError(xs, f, k + 1);
  }

  /** Once a prefix fails, the whole walk fails with the same error. */
  lemma {:induction false} TryMapPrefixError<A, B, E>(xs: seq<A>, f: A --> Result<B, E>, k: nat)
    requires forall i :: 0 <= i < |xs| ==> f.requires(xs[i])
    requires k <= |xs| && TryMap(xs[..k], f).Err?
    ensures TryMap(xs, f) == TryMap(xs[..k], f)
    decreases |xs|
  {
    if k == |xs| {
      assert xs[..k] == xs;
    } else {
      var init := xs[..|xs| - 1];
      assert init[..k] == xs[..k];
      TryMapPrefixError(init, f, k);
    }
  }

  ghost predicate Pointwise<A, B, E>(xs: seq<A>, f: A --> Result<B, E>, ys: seq<B>)
    requires |ys| <= |xs| && forall i :: 0 <= i < |xs| ==> f.requires(xs[i])
  {
    forall k :: 0 <= k < |ys| ==> f(xs[k]) == Ok(ys[k])
  }

  lemma PointwiseStep<A, B, E>(xs: seq<A>, f: A --> Result<B, E>, ys: seq<B>, y: B)
    requires |ys| < |xs| && forall i :: 0 <= i < |xs| ==> f.requires(xs[i])
    requires Pointwise(xs, f, ys) && f(xs[|ys|]) == Ok(y)
    ensures Pointwise(xs, f, ys + [y])
  {
  }

  lemma PointwiseErr<A, B, E>(xs: seq<A>, f: A --> Result<B, E>, ys: seq<B>)
    requires |ys| < |xs| && forall i :: 0 <= i < |xs| ==> f.requires(xs[i])
    requires Pointwise(xs, f, ys) && f(xs[|ys|]).Err?
    ensures TryMap(xs, f) == Err(f(xs[|ys|]).error)
  {
    TryMapErrAt(xs, f, |ys|);
  }

  lemma PointwiseAll<A, B, E>(xs: seq<A>, f: A --> Result<B, E>, ys: seq<B>)
    requires |ys| == |xs| && forall i :: 0 <= i < |xs| ==> f.requires(xs[i])
    requires Pointwise(xs, f, ys)
    ensures TryMap(xs, f) == Ok(ys)
  {
    TryMapAllOk(xs, f, ys);
  }
}
