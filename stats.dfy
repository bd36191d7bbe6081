/** Column statistics as numpy computes them with `mean(axis=0)` and `std(axis=0)`:
    the arithmetic mean and the population variance (ddof = 0) of a column. */
module Stats {

  function Sum(xs: seq<real>): real
  {
    if xs == [] then 0.0 else xs[0] + Sum(xs[1..])
  }

  function Mean(xs: seq<real>): real
    requires |xs| > 0
  {
    Sum(xs) / (|xs| as real)
  }

  /** The squared deviations of a column from `m`. */
  function SquaredDeviations(xs: seq<real>, m: real): seq<real>
  {
    seq(|xs|, i requires 0 <= i < |xs| => (xs[i] - m) * (xs[i] - m))
  }

  /** Population variance: the mean squared deviation from the mean. */
  function Variance(xs: seq<real>): real
    requires |xs| > 0
  {
    Mean(SquaredDeviations(xs, Mean(xs)))
  }

  /** `s` is the population standard deviation of `xs`. */
  predicate IsStd(xs: seq<real>, s: real)
    requires |xs| > 0
  {
    s >= 0.0 && s * s == Variance(xs)
  }

  /** Sums are linear: a column built point by point as a*x + b*y sums to a*Sum(x) + b*Sum(y). */
  lemma {:induction false} SumCombination(xs: seq<real>, ys: seq<real>, zs: seq<real>, a: real, b: real)
    requires |xs| == |zs| && |ys| == |zs|
    requires forall i :: 0 <= i < |zs| ==> zs[i] == a * xs[i] + b * ys[i]
    ensures Sum(zs) == a * Sum(xs) + b * Sum(ys)
  {
    if zs != [] {
      var xt, yt, zt := xs[1..], ys[1..], zs[1..];
      forall i | 0 <= i < |zt| ensures zt[i] == a * xt[i] + b * yt[i] {
        assert zt[i] == zs[i + 1] && xt[i] == xs[i + 1] && yt[i] == ys[i + 1];
      }
      SumCombination(xt, yt, zt, a, b);
      Distribute(a, xs[0], Sum(xt));
      Distribute(b, ys[0], Sum(yt));
    }
  }

  /** A column built point by point as a*x + c sums to a*Sum(x) + n*c. */
  lemma {:induction false} SumAffine(xs: seq<real>, zs: seq<real>, a: real, c: real)
    requires |xs| == |zs|
    requires forall i :: 0 <= i < |zs| ==> zs[i] == a * xs[i] + c
    ensures Sum(zs) == a * Sum(xs) + c * (|zs| as real)
  {
    if zs != [] {
      var xt, zt := xs[1..], zs[1..];
      forall i | 0 <= i < |zt| ensures zt[i] == a * xt[i] + c {
        assert zt[i] == zs[i + 1] && xt[i] == xs[i + 1];
      }
      SumAffine(xt, zt, a, c);
      Distribute(a, xs[0], Sum(xt));
      Distribute(c, 1.0, |zt| as real);
    }
  }

  /** Scaling every value of a column scales its sum. */
  lemma {:induction false} SumScale(xs: seq<real>, zs: seq<real>, a: real)
    requires |xs| == |zs|
    requires forall i :: 0 <= i < |zs| ==> zs[i] == a * xs[i]
    ensures Sum(zs) == a * Sum(xs)
  {
    if zs != [] {
      var xt, zt := xs[1..], zs[1..];
      forall i | 0 <= i < |zt| ensures zt[i] == a * xt[i] {
        assert zt[i] == zs[i + 1] && xt[i] == xs[i + 1];
      }
      SumScale(xt, zt, a);
      Distribute(a, xs[0], Sum(xt));
    }
  }

  /** Means are linear too. */
  lemma MeanOfCombination(xs: seq<real>, ys: seq<real>, zs: seq<real>, a: real, b: real)
    requires |xs| == |zs| && |ys| == |zs| && |zs| > 0
    requires forall i :: 0 <= i < |zs| ==> zs[i] == a * xs[i] + b * ys[i]
    ensures Mean(zs) == a * Mean(xs) + b * Mean(ys)
  {
    SumCombination(xs, ys, zs, a, b);
    QuotientOfCombination(Sum(xs), Sum(ys), Sum(zs), a, b, |zs| as real);
  }

  lemma QuotientOfCombination(sx: real, sy: real, sz: real, a: real, b: real, n: real)
    requires n > 0.0 && sz == a * sx + b * sy
    ensures sz / n == a * (sx / n) + b * (sy / n)
  {
  }

  lemma Distribute(a: real, p: real, q: real)
    ensures a * (p + q) == a * p + a * q
  {
  }

  /** A column of positive values has a positive mean. */
  lemma {:induction false} MeanPositive(xs: seq<real>)
    requires |xs| > 0
    requires forall i :: 0 <= i < |xs| ==> xs[i] > 0.0
    ensures Mean(xs) > 0.0
  {
    SumPositive(xs);
  }

  lemma {:induction false} SumPositive(xs: seq<real>)
    requires |xs| > 0
    requires forall i :: 0 <= i < |xs| ==> xs[i] > 0.0
    ensures Sum(xs) > 0.0
  {
    if |xs| > 1 {
      SumPositive(xs[1..]);
    }
  }

  /** The mean of a single value is that value. */
  lemma MeanSingleton(v: real)
    ensures Mean([v]) == v
  {
    assert [v][1..] == [];
    assert Sum([v]) == v + Sum([]);
  }

  /** A constant column has variance zero: standardising it would divide by zero. */
  lemma ConstantHasZeroVariance(xs: seq<real>)
    requires |xs| > 0
    requires forall i :: 0 <= i < |xs| ==> xs[i] == xs[0]
    ensures Variance(xs) == 0.0
  {
    MeanOfConstant(xs, xs[0]);
    var d := SquaredDeviations(xs, xs[0]);
    forall i | 0 <= i < |d| ensures d[i] == 0.0 {
      assert xs[i] - xs[0] == 0.0;
    }
    MeanOfConstant(d, 0.0);
  }

  /** A column whose values all equal `c` has mean `c`. */
  lemma MeanOfConstant(xs: seq<real>, c: real)
    requires |xs| > 0
    requires forall i :: 0 <= i < |xs| ==> xs[i] == c
    ensures Mean(xs) == c
  {
    SumConstant(xs, c);
    QuotientOfProduct(c, |xs| as real);
  }

  lemma {:induction false} SumConstant(xs: seq<real>, c: real)
    requires forall i :: 0 <= i < |xs| ==> xs[i] == c
    ensures Sum(xs) == c * (|xs| as real)
  {
    if xs != [] {
      SumConstant(xs[1..], c);
    }
  }

  lemma QuotientOfProduct(c: real, n: real)
    requires n > 0.0
    ensures (c * n) / n == c
  {
  }

  /** Standardising a column by its mean and standard deviation gives mean 0 and
      population variance 1, provided the deviation is not zero. */
  lemma StandardizedColumn(xs: seq<real>, sd: real, zs: seq<real>)
    requires |xs| > 0 && sd > 0.0 && IsStd(xs, sd)
    requires |zs| == |xs|
    requires forall i :: 0 <= i < |zs| ==> zs[i] == (xs[i] - Mean(xs)) / sd
    ensures Mean(zs) == 0.0
    ensures Variance(zs) == 1.0
  {
    StandardizedMean(xs, sd, zs);
    StandardizedSquares(xs, sd, zs);
  }

  lemma StandardizedMean(xs: seq<real>, sd: real, zs: seq<real>)
    requires |xs| > 0 && sd > 0.0
    requires |zs| == |xs|
    requires forall i :: 0 <= i < |zs| ==> zs[i] == (xs[i] - Mean(xs)) / sd
    ensures Mean(zs) == 0.0
  {
    var n := |xs| as real;
    var m := Mean(xs);
    forall i | 0 <= i < |zs| ensures zs[i] == (1.0 / sd) * xs[i] + (-m / sd) {
      ShiftDivide(xs[i], m, sd);
    }
    SumAffine(xs, zs, 1.0 / sd, -m / sd);
    assert |zs| as real == n;
    CenteredSumZero(Sum(xs), m, n, sd, Sum(zs));
  }

  lemma StandardizedSquares(xs: seq<real>, sd: real, zs: seq<real>)
    requires |xs| > 0 && sd > 0.0 && IsStd(xs, sd)
    requires |zs| == |xs|
    requires forall i :: 0 <= i < |zs| ==> zs[i] == (xs[i] - Mean(xs)) / sd
    requires Mean(zs) == 0.0
    ensures Variance(zs) == 1.0
  {
    var k := 1.0 / (sd * sd);
    SumOfScaledSquares(xs, sd, zs, k);
    UnitVariance(Sum(SquaredDeviations(xs, Mean(xs))), Sum(SquaredDeviations(zs, 0.0)), |xs| as real, sd, k);
  }

  lemma SumOfScaledSquares(xs: seq<real>, sd: real, zs: seq<real>, k: real)
    requires |xs| > 0 && sd != 0.0 && k == 1.0 / (sd * sd)
    requires |zs| == |xs|
    requires forall i :: 0 <= i < |zs| ==> zs[i] == (xs[i] - Mean(xs)) / sd
    ensures Sum(SquaredDeviations(zs, 0.0)) == k * Sum(SquaredDeviations(xs, Mean(xs)))
  {
    ScaledSquares(xs, Mean(xs), sd, zs, k);
    SumScale(SquaredDeviations(xs, Mean(xs)), SquaredDeviations(zs, 0.0), k);
  }

  /** Dividing every deviation by `sd` divides every squared deviation by sd*sd. */
  lemma ScaledSquares(xs: seq<real>, m: real, sd: real, zs: seq<real>, k: real)
    requires sd != 0.0 && k == 1.0 / (sd * sd)
    requires |zs| == |xs|
    requires forall i :: 0 <= i < |zs| ==> zs[i] == (xs[i] - m) / sd
    ensures forall i :: 0 <= i < |zs| ==> SquaredDeviations(zs, 0.0)[i] == k * SquaredDeviations(xs, m)[i]
  {
    var d := SquaredDeviations(xs, m);
    var e := SquaredDeviations(zs, 0.0);
    forall i | 0 <= i < |e| ensures e[i] == k * d[i] {
      SquareDivide(xs[i], m, sd, zs[i], d[i], e[i], k);
    }
  }

  lemma ShiftDivide(x: real, m: real, sd: real)
    requires sd != 0.0
    ensures (x - m) / sd == (1.0 / sd) * x + (-m / sd)
  {
  }

  lemma SquareDivide(x: real, m: real, sd: real, z: real, dx: real, dz: real, k: real)
    requires sd != 0.0 && k == 1.0 / (sd * sd)
    requires z == (x - m) / sd && dx == (x - m) * (x - m) && dz == (z - 0.0) * (z - 0.0)
    ensures dz == k * dx
  {
  }

  lemma CenteredSumZero(s: real, m: real, n: real, sd: real, t: real)
    requires n > 0.0 && sd != 0.0 && m == s / n
    requires t == (1.0 / sd) * s + (-m / sd) * n
    ensures t / n == 0.0
  {
  }

  lemma UnitVariance(sd2: real, se2: real, n: real, sd: real, k: real)
    requires n > 0.0 && sd > 0.0 && k == 1.0 / (sd * sd)
    requires sd * sd == sd2 / n
    requires se2 == k * sd2
    ensures se2 / n == 1.0
  {
  }
}
