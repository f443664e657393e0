/**
 * EnumerableExtensions.ArgMin: the element with the smallest selector
 * value, as one Aggregate fold over the sequence. Elements may be null
 * (`None`); the selector's float results are exact reals.
 */
module Enumerables {
  import opened Wrappers

  /** Aggregate without a seed throws on an empty sequence. */
  datatype ArgMinError = NoElements

  /** The fold step: a null candidate is always replaced, otherwise only by a non-null element with a smaller value. */
  function Keep<T>(current: Option<T>, e: Option<T>, selector: T -> real): Option<T>
  {
    if current.None? || (e.Some? && selector(e.value) < selector(current.value)) then e else current
  }

  /** Aggregate seeded with the first element: the fold of Keep over the rest, left to right. */
  function Aggregate<T>(xs: seq<Option<T>>, selector: T -> real): (r: Option<T>)
    requires xs != []
    ensures r in xs
    decreases |xs|
  {
    if |xs| == 1 then xs[0]
    else Keep(Aggregate(xs[..|xs| - 1], selector), xs[|xs| - 1], selector)
  }

  /** ArgMin: the fold's result, or the error Aggregate throws on an empty sequence. */
  function ArgMin<T>(xs: seq<Option<T>>, selector: T -> real): (r: Result<Option<T>, ArgMinError>)
    ensures r.Err? <==> xs == []
    ensures r.Ok? ==> r.value in xs
  {
    if xs == [] then Err(NoElements) else Ok(Aggregate(xs, selector))
  }

  /**
   * ArgMin is null only when every element is null. Otherwise it is the
   * first non-null element whose value is the smallest: no non-null
   * element has a smaller value, and every non-null element before it has
   * a larger one.
   */
  lemma {:induction false} ArgMinIsFirstMinimum<T>(xs: seq<Option<T>>, selector: T -> real)
    requires xs != []
    ensures var r := Aggregate(xs, selector);
      (r.None? <==> forall i :: 0 <= i < |xs| ==> xs[i].None?) &&
      (r.Some? ==>
        (forall i :: 0 <= i < |xs| && xs[i].Some? ==> selector(r.value) <= selector(xs[i].value)) &&
        exists i :: 0 <= i < |xs| && xs[i] == r &&
          forall j :: 0 <= j < i && xs[j].Some? ==> selector(xs[j].value) > selector(r.value))
    decreases |xs|
  {
    var r := Aggregate(xs, selector);
    if |xs| > 1 {
      var n := |xs| - 1;
      var p, e := xs[..n], xs[n];
      ArgMinIsFirstMinimum(p, selector);
      var cur := Aggregate(p, selector);
      assert forall i :: 0 <= i < n ==> xs[i] == p[i];
      if cur.None? {
        assert r == e;
        if e.Some? {
          assert xs[n] == r;
        }
      } else if e.Some? && selector(e.value) < selector(cur.value) {
        assert r == e && xs[n] == r;
      } else {
        assert r == cur;
        var i :| 0 <= i < n && p[i] == cur &&
          forall j :: 0 <= j < i && p[j].Some? ==> selector(p[j].value) > selector(cur.value);
        assert xs[i] == r;
      }
    }
  }

  /** The elements of a list of non-null references, as Aggregate sees them. */
  function NonNull<T>(xs: seq<T>): (r: seq<Option<T>>)
    ensures |r| == |xs| && forall i :: 0 <= i < |xs| ==> r[i] == Some(xs[i])
  {
    seq(|xs|, i requires 0 <= i < |xs| => Some(xs[i]))
  }

  /** Over non-null elements ArgMin is the first element of smallest value. */
  lemma ArgMinOfNonNull<T>(xs: seq<T>, selector: T -> real)
    requires xs != []
    ensures var r := ArgMin(NonNull(xs), selector);
      r.Ok? && r.value.Some? &&
      (forall j :: 0 <= j < |xs| ==> selector(r.value.value) <= selector(xs[j])) &&
      exists i :: 0 <= i < |xs| && xs[i] == r.value.value &&
        forall j :: 0 <= j < i ==> selector(xs[j]) > selector(xs[i])
  {
    var ys := NonNull(xs);
    ArgMinIsFirstMinimum(ys, selector);
    var r := Aggregate(ys, selector);
    assert ys[0].Some?;
    assert r.Some?;
    forall j | 0 <= j < |xs|
      ensures selector(r.value) <= selector(xs[j])
    {
      assert ys[j].Some?;
    }
    var i :| 0 <= i < |ys| && ys[i] == r &&
      forall j :: 0 <= j < i && ys[j].Some? ==> selector(ys[j].value) > selector(r.value);
    assert xs[i] == r.value;
    forall j | 0 <= j < i
      ensures selector(xs[j]) > selector(xs[i])
    {
      assert ys[j].Some?;
    }
  }

  /** A single element is its own ArgMin, null or not. */
  lemma ArgMinOfOne<T>(x: Option<T>, selector: T -> real)
    ensures ArgMin([x], selector) == Ok(x)
  {
  }
}
