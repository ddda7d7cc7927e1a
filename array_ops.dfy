/**
 * The JavaScript array built-ins the payment code relies on — `filter`,
 * `map`, `filter(..).shift()` and `reduce` without an initial value. `map`
 * and `filter` state what every element of the result is; `filter` is shown
 * complete only as far as the code needs (`FilterNonEmpty`); `filter(..).shift()`
 * is the earliest match and `reduce` equals a reference sum.
 */
module ArrayOps {
  import opened Wrappers

  /** `xs.filter(p)`: the elements of `xs` that satisfy `p`, in their order. */
  function Filter<T>(xs: seq<T>, p: T -> bool): (r: seq<T>)
    ensures |r| <= |xs|
    ensures forall i :: 0 <= i < |r| ==> p(r[i]) && r[i] in xs
  {
    if xs == [] then [] else (if p(xs[0]) then [xs[0]] else []) + Filter(xs[1..], p)
  }

  /** A filter keeps something exactly when some element satisfies the predicate. */
  lemma {:induction false} FilterNonEmpty<T>(xs: seq<T>, p: T -> bool)
    ensures |Filter(xs, p)| > 0 <==> exists i :: 0 <= i < |xs| && p(xs[i])
  {
    if xs != [] {
      FilterNonEmpty(xs[1..], p);
      if !p(xs[0]) {
        if exists i :: 0 <= i < |xs| && p(xs[i]) {
          var i :| 0 <= i < |xs| && p(xs[i]);
          assert xs[1..][i - 1] == xs[i];
        }
      }
    }
  }

  /** `xs.map(f)`. */
  function Map<T, U>(xs: seq<T>, f: T -> U): (r: seq<U>)
    ensures |r| == |xs|
    ensures forall i :: 0 <= i < |xs| ==> r[i] == f(xs[i])
  {
    if xs == [] then [] else [f(xs[0])] + Map(xs[1..], f)
  }

  /** `k` is the index of the first element of `xs` that satisfies `p`. */
  ghost predicate IsFirstWhere<T>(xs: seq<T>, p: T -> bool, k: int) {
    0 <= k < |xs| && p(xs[k]) && forall j :: 0 <= j < k ==> !p(xs[j])
  }

  /** `xs.filter(p).shift()`: the first element satisfying `p`, or `undefined`. */
  function FirstWhere<T>(xs: seq<T>, p: T -> bool): (r: Option<T>)
    ensures r.Some? ==> r.value in xs && p(r.value)
  {
    var matching := Filter(xs, p);
    if |matching| == 0 then None else Some(matching[0])
  }

  /** `filter(..).shift()` is absent exactly when nothing matches, and is otherwise the earliest match. */
  lemma {:induction false} FirstWhereIsEarliest<T>(xs: seq<T>, p: T -> bool)
    ensures FirstWhere(xs, p).None? <==> forall i :: 0 <= i < |xs| ==> !p(xs[i])
    ensures forall k :: IsFirstWhere(xs, p, k) ==> FirstWhere(xs, p) == Some(xs[k])
  {
    FilterNonEmpty(xs, p);
    if xs != [] {
      FirstWhereIsEarliest(xs[1..], p);
      if !p(xs[0]) {
        assert Filter(xs, p) == Filter(xs[1..], p);
        forall k | IsFirstWhere(xs, p, k)
          ensures FirstWhere(xs, p) == Some(xs[k])
        {
          assert k > 0;
          assert IsFirstWhere(xs[1..], p, k - 1);
        }
      } else {
        forall k | IsFirstWhere(xs, p, k)
          ensures FirstWhere(xs, p) == Some(xs[k])
        {
          assert k == 0;
        }
      }
    }
  }

  /** Reference sum of exact amounts, folded from the right and starting at zero. */
  function Sum(xs: seq<real>): (r: real) {
    if xs == [] then 0.0 else xs[0] + Sum(xs[1..])
  }

  lemma {:induction false} SumConcat(a: seq<real>, b: seq<real>)
    ensures Sum(a + b) == Sum(a) + Sum(b)
  {
    if a != [] {
      assert (a + b)[1..] == a[1..] + b;
      SumConcat(a[1..], b);
    } else {
      assert a + b == b;
    }
  }

  /**
   * `xs.reduce((p, c) => p + c)` with no initial value: folded from the left,
   * starting with the first element. JavaScript throws on an empty list, so
   * callers guard against it.
   */
  function ReduceSum(xs: seq<real>): (r: real)
    requires |xs| > 0
    ensures r == Sum(xs)
  {
    if |xs| == 1 then xs[0]
    else
      var init, last := xs[..|xs| - 1], xs[|xs| - 1];
      assert xs == init + [last];
      SumConcat(init, [last]);
      ReduceSum(init) + last
  }
}
