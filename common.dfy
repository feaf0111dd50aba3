/** Option and Result values used by every other module. */
module Common {

  datatype Option<+T> = None | Some(value: T)

  /** The outcome of an operation that Python would end by raising. */
  datatype Result<+T, +E> = Ok(value: T) | Err(error: E)

  function MaxReal(a: real, b: real): real
  {
    if a >= b then a else b
  }

  function MinReal(a: real, b: real): real
  {
    if a <= b then a else b
  }

  /** sum() of a list of numbers, left to right. */
  function Sum(xs: seq<real>): real
  {
    if xs == [] then 0.0 else Sum(xs[..|xs| - 1]) + xs[|xs| - 1]
  }

  /** The arithmetic mean, 0.0 for an empty list. */
  function Mean(xs: seq<real>): real
  {
    if xs == [] then 0.0 else Sum(xs) / |xs| as real
  }

  lemma {:induction false} SumBounded(xs: seq<real>, lo: real, hi: real)
    requires forall k :: 0 <= k < |xs| ==> lo <= xs[k] <= hi
    ensures lo * |xs| as real <= Sum(xs) <= hi * |xs| as real
  {
    if xs == [] {
      assert Sum(xs) == 0.0;
    } else {
      var init := xs[..|xs| - 1];
      assert forall k :: 0 <= k < |init| ==> init[k] == xs[k];
      SumBounded(init, lo, hi);
      assert Sum(xs) == Sum(init) + xs[|xs| - 1];
      Distributes(lo, |xs| as real, |init| as real, 1.0);
      Distributes(hi, |xs| as real, |init| as real, 1.0);
    }
  }

  /** A mean lies between any lower and upper bound of the values. */
  lemma {:induction false} MeanBetween(xs: seq<real>, lo: real, hi: real)
    requires xs != []
    requires forall k :: 0 <= k < |xs| ==> lo <= xs[k] <= hi
    ensures lo <= Mean(xs) <= hi
  {
    SumBounded(xs, lo, hi);
    var n := |xs| as real;
    DivBounds(lo * n, Sum(xs), hi * n, n);
    assert lo * n / n == lo && hi * n / n == hi;
  }

  lemma DivBounds(a: real, b: real, c: real, n: real)
    requires n > 0.0 && a <= b <= c
    ensures a / n <= b / n <= c / n
  {
  }

  lemma MulBounds(lo: real, s: real, hi: real, w: real)
    requires lo <= s <= hi && w >= 0.0
    ensures lo * w <= s * w <= hi * w
  {
  }

  /** Non-negative weights have a positive sum exactly when one of them is positive. */
  lemma {:induction false} SumPositive(ws: seq<real>)
    requires forall k :: 0 <= k < |ws| ==> ws[k] >= 0.0
    ensures Sum(ws) >= 0.0
    ensures Sum(ws) > 0.0 <==> exists k :: 0 <= k < |ws| && ws[k] > 0.0
  {
    if ws != [] {
      var init := ws[..|ws| - 1];
      assert forall k :: 0 <= k < |init| ==> init[k] == ws[k];
      SumPositive(init);
      if exists k :: 0 <= k < |ws| && ws[k] > 0.0 {
        var k :| 0 <= k < |ws| && ws[k] > 0.0;
        if k < |init| {
          assert init[k] > 0.0;
        }
      }
    }
  }

  lemma Distributes(a: real, t: real, b: real, c: real)
    requires t == b + c
    ensures a * t == a * b + a * c
  {
  }

  /** Every value multiplied by c. */
  function Scale(c: real, ws: seq<real>): (r: seq<real>)
    ensures |r| == |ws|
    ensures forall k :: 0 <= k < |ws| ==> r[k] == c * ws[k]
  {
    seq(|ws|, k requires 0 <= k < |ws| => c * ws[k])
  }

  /** A common factor comes out of a sum. */
  lemma {:induction false} SumScale(c: real, ws: seq<real>, cws: seq<real>)
    requires |cws| == |ws|
    requires forall k :: 0 <= k < |ws| ==> cws[k] == c * ws[k]
    ensures Sum(cws) == c * Sum(ws)
  {
    if ws == [] {
      assert cws == [];
      assert Sum(ws) == 0.0 && Sum(cws) == 0.0;
    } else {
      var n := |ws| - 1;
      var wi, ci := ws[..n], cws[..n];
      assert forall k :: 0 <= k < n ==> wi[k] == ws[k] && ci[k] == cws[k];
      SumScale(c, wi, ci);
      assert Sum(ws) == Sum(wi) + ws[n];
      assert Sum(cws) == Sum(ci) + cws[n];
      Distributes(c, Sum(ws), Sum(wi), ws[n]);
    }
  }

  /** Sums are monotone in each value. */
  lemma {:induction false} SumMonotone(xs: seq<real>, ys: seq<real>)
    requires |xs| == |ys|
    requires forall k :: 0 <= k < |xs| ==> xs[k] <= ys[k]
    ensures Sum(xs) <= Sum(ys)
  {
    if xs == [] {
      assert ys == [];
      assert Sum(xs) == 0.0 && Sum(ys) == 0.0;
    } else {
      var n := |xs| - 1;
      assert forall k :: 0 <= k < n ==> xs[..n][k] == xs[k] && ys[..n][k] == ys[k];
      SumMonotone(xs[..n], ys[..n]);
      assert Sum(xs) == Sum(xs[..n]) + xs[n];
      assert Sum(ys) == Sum(ys[..n]) + ys[n];
    }
  }

  /** Values each between lo and hi times their weight sum to between lo and hi times the weight sum. */
  lemma {:induction false} SumDominated(ps: seq<real>, ws: seq<real>, lo: real, hi: real)
    requires |ps| == |ws|
    requires forall k :: 0 <= k < |ws| ==> lo * ws[k] <= ps[k] <= hi * ws[k]
    ensures lo * Sum(ws) <= Sum(ps) <= hi * Sum(ws)
  {
    SumMonotone(Scale(lo, ws), ps);
    SumMonotone(ps, Scale(hi, ws));
    SumScale(lo, ws, Scale(lo, ws));
    SumScale(hi, ws, Scale(hi, ws));
  }

  /** The ratio of two such sums, over a positive weight sum, lies between lo and hi. */
  lemma {:induction false} RatioBetween(ps: seq<real>, ws: seq<real>, lo: real, hi: real)
    requires |ps| == |ws|
    requires forall k :: 0 <= k < |ws| ==> lo * ws[k] <= ps[k] <= hi * ws[k]
    requires Sum(ws) > 0.0
    ensures lo <= Sum(ps) / Sum(ws) <= hi
  {
    SumDominated(ps, ws, lo, hi);
    RatioBounds(lo, hi, Sum(ps), Sum(ws));
  }

  lemma RatioBounds(lo: real, hi: real, p: real, w: real)
    requires w > 0.0 && lo * w <= p <= hi * w
    ensures lo <= p / w <= hi
  {
    DivBounds(lo * w, p, hi * w, w);
    assert lo * w / w == lo && hi * w / w == hi;
  }
}
