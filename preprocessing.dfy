/** The two per-frustum transforms of preprocessing.py: `rotate_to_center` turns the
    top-down (x, y) plane about the origin, which brings the centroid direction onto
    the x axis when the centroid's y is not negative and turns it the wrong way, to
    twice its angle below the axis, otherwise; `scale_standard` standardises the three
    coordinate columns and keeps the labels. */
module Preprocessing {
  import opened Stats
  import opened Points

  function Abs(r: real): real
  {
    if r < 0.0 then -r else r
  }

  /** The angle that lines 17-21 derive from the top-down centroid m = (mean x, mean y),
      given by its cosine, its sine and the centroid's length `norm` (np.linalg.norm). */
  datatype CentroidAngle = CentroidAngle(cos: real, sin: real, norm: real)

  /** `a` is the angle rotate_to_center computes for `f`: norm = |m|, cos = mx / |m| and
      sin = sin(arccos(cos)) = |my| / |m|, never negative because arccos returns an angle
      in [0, pi]. The two quotients are stated multiplied out. A centroid at the origin
      has no such angle: the source divides by a zero norm there. An empty frustum is
      rotated to an empty one, whatever the angle. */
  predicate IsCentroidAngle(f: Frustum, a: CentroidAngle)
  {
    |f| == 0 ||
    (var m := ColumnMeans(f);
     a.norm > 0.0 && a.norm * a.norm == m.x * m.x + m.y * m.y &&
     a.cos * a.norm == m.x && a.sin * a.norm == Abs(m.y))
  }

  /** One row times the rotation matrix [[cos, -sin], [sin, cos]] (a row vector on the left). */
  function RotateXY(p: Point, c: real, s: real): (r: Point)
    ensures r.z == p.z && r.tag == p.tag
    ensures c == 1.0 && s == 0.0 ==> r == p
  {
    Point(p.x * c + p.y * s, p.y * c - p.x * s, p.z, p.tag)
  }

  /** Every row's (x, y) turned by the angle with cosine `c` and sine `s`. */
  function Rotate(f: Frustum, c: real, s: real): (r: Frustum)
    ensures |r| == |f|
    ensures Zs(r) == Zs(f) && Labels(r) == Labels(f)
  {
    seq(|f|, i requires 0 <= i < |f| => RotateXY(f[i], c, s))
  }

  /** `rotate_to_center`: the frustum turned by its centroid angle; z and the label pass through. */
  function RotateToCenter(f: Frustum, a: CentroidAngle): (r: Frustum)
    requires IsCentroidAngle(f, a)
    ensures |r| == |f|
    ensures Zs(r) == Zs(f) && Labels(r) == Labels(f)
  {
    Rotate(f, a.cos, a.sin)
  }

  /** Squared top-down distance of two rows. */
  function SqDistXY(p: Point, q: Point): real
  {
    (p.x - q.x) * (p.x - q.x) + (p.y - q.y) * (p.y - q.y)
  }

  /** Squared top-down length of a row. */
  function SqNormXY(p: Point): real
  {
    p.x * p.x + p.y * p.y
  }

  /** The centroid angle lies on the unit circle, in its upper half. */
  lemma CentroidAngleOnUnitCircle(f: Frustum, a: CentroidAngle)
    requires |f| > 0 && IsCentroidAngle(f, a)
    ensures a.cos * a.cos + a.sin * a.sin == 1.0
    ensures a.sin >= 0.0
  {
    var m := ColumnMeans(f);
    UnitCircle(m.x, m.y, a.norm, a.cos, a.sin);
    if a.sin < 0.0 {
      NegativeTimesPositive(a.sin, a.norm);
    }
  }

  /** (c, s) = (mx, |my|) / n with n = |(mx, my)| is a point of the unit circle. */
  lemma UnitCircle(mx: real, my: real, n: real, c: real, s: real)
    requires n > 0.0 && n * n == mx * mx + my * my
    requires c * n == mx && s * n == Abs(my)
    ensures c * c + s * s == 1.0
  {
    AbsSquare(my);
    ScaledSquare(c, n, mx);
    ScaledSquare(s, n, Abs(my));
    UnitCircleCancel(c * c, s * s, n, n, mx * mx, Abs(my) * Abs(my), my * my);
  }

  /** The last step of UnitCircle. The norm is passed twice so that the solver sees a
      product of two names rather than a square. */
  lemma UnitCircleCancel(cc: real, ss: real, n: real, n': real, p: real, q: real, r: real)
    requires n == n' && n > 0.0
    requires cc * (n * n') == p && ss * (n * n') == q && q == r && n * n' == p + r
    ensures cc + ss == 1.0
  {
    ProductPositive(n, n');
    CancelFactor(cc + ss, 1.0, n * n');
  }

  lemma AbsSquare(v: real)
    ensures Abs(v) * Abs(v) == v * v
  {
  }

  lemma ScaledSquare(c: real, n: real, m: real)
    requires c * n == m
    ensures (c * c) * (n * n) == m * m
  {
  }

  lemma ProductPositive(a: real, b: real)
    requires a > 0.0 && b > 0.0
    ensures a * b > 0.0
  {
  }

  lemma NegativeTimesPositive(a: real, b: real)
    requires a < 0.0 && b > 0.0
    ensures a * b < 0.0
  {
  }

  lemma CancelFactor(k: real, t: real, n: real)
    requires n > 0.0 && k * n == t * n
    ensures k == t
  {
  }

  /** A rotation keeps a row's top-down length. */
  lemma RotateXYPreservesNorm(p: Point, c: real, s: real)
    requires c * c + s * s == 1.0
    ensures SqNormXY(RotateXY(p, c, s)) == SqNormXY(p)
  {
    RotationIdentity(p.x, p.y, c, s);
  }

  lemma RotationIdentity(x: real, y: real, c: real, s: real)
    ensures (x * c + y * s) * (x * c + y * s) + (y * c - x * s) * (y * c - x * s)
         == (x * x + y * y) * (c * c + s * s)
  {
  }

  /** A rotation keeps the top-down distance between any two rows. */
  lemma RotateXYPreservesDistance(p: Point, q: Point, c: real, s: real)
    requires c * c + s * s == 1.0
    ensures SqDistXY(RotateXY(p, c, s), RotateXY(q, c, s)) == SqDistXY(p, q)
  {
    var d := Point(p.x - q.x, p.y - q.y, 0.0, 0.0);
    RotationIsLinear(p.x, p.y, q.x, q.y, c, s);
    RotateXYPreservesNorm(d, c, s);
  }

  lemma RotationIsLinear(px: real, py: real, qx: real, qy: real, c: real, s: real)
    ensures (px * c + py * s) - (qx * c + qy * s) == (px - qx) * c + (py - qy) * s
    ensures (py * c - px * s) - (qy * c - qx * s) == (py - qy) * c - (px - qx) * s
  {
  }

  /** rotate_to_center is a rigid motion of the top-down plane: every row keeps its
      distance from the origin and every pair of rows keeps its distance. */
  lemma RotateToCenterIsRigid(f: Frustum, a: CentroidAngle, i: nat, j: nat)
    requires IsCentroidAngle(f, a)
    requires i < |f| && j < |f|
    ensures SqNormXY(RotateToCenter(f, a)[i]) == SqNormXY(f[i])
    ensures SqDistXY(RotateToCenter(f, a)[i], RotateToCenter(f, a)[j]) == SqDistXY(f[i], f[j])
  {
    CentroidAngleOnUnitCircle(f, a);
    RotateXYPreservesNorm(f[i], a.cos, a.sin);
    RotateXYPreservesDistance(f[i], f[j], a.cos, a.sin);
  }

  /** The rotated frustum's centroid is the original centroid rotated by the same angle. */
  lemma RotatedCentroid(f: Frustum, a: CentroidAngle)
    requires |f| > 0 && IsCentroidAngle(f, a)
    ensures var m, m' := ColumnMeans(f), ColumnMeans(RotateToCenter(f, a));
      m'.x == a.cos * m.x + a.sin * m.y && m'.y == a.cos * m.y - a.sin * m.x &&
      m'.z == m.z && m'.tag == m.tag
  {
    RotatedMeanX(f, a.cos, a.sin);
    RotatedMeanY(f, a.cos, a.sin);
  }

  lemma RotatedMeanX(f: Frustum, c: real, s: real)
    requires |f| > 0
    ensures Mean(Xs(Rotate(f, c, s))) == c * Mean(Xs(f)) + s * Mean(Ys(f))
  {
    RotatedColumnX(f, c, s);
    MeanOfCombination(Xs(f), Ys(f), Xs(Rotate(f, c, s)), c, s);
  }

  lemma RotatedMeanY(f: Frustum, c: real, s: real)
    requires |f| > 0
    ensures Mean(Ys(Rotate(f, c, s))) == c * Mean(Ys(f)) - s * Mean(Xs(f))
  {
    RotatedColumnY(f, c, s);
    MeanOfCombination(Ys(f), Xs(f), Ys(Rotate(f, c, s)), c, -s);
    NegatedTerm(c * Mean(Ys(f)), s, Mean(Xs(f)));
  }

  lemma RotatedColumnX(f: Frustum, c: real, s: real)
    ensures forall i :: 0 <= i < |f| ==> Xs(Rotate(f, c, s))[i] == c * Xs(f)[i] + s * Ys(f)[i]
  {
  }

  lemma RotatedColumnY(f: Frustum, c: real, s: real)
    ensures forall i :: 0 <= i < |f| ==> Ys(Rotate(f, c, s))[i] == c * Ys(f)[i] + -s * Xs(f)[i]
  {
    forall i | 0 <= i < |f| ensures Ys(Rotate(f, c, s))[i] == c * Ys(f)[i] + -s * Xs(f)[i] {
      RotatedY(f[i], c, s);
    }
  }

  lemma NegatedTerm(u: real, s: real, v: real)
    ensures u + -s * v == u - s * v
  {
  }

  lemma RotatedY(p: Point, c: real, s: real)
    ensures RotateXY(p, c, s).y == c * p.y + -s * p.x
  {
  }

  /** What the docstring promises, where it holds: when the centroid lies on the
      non-negative side of the x axis it is turned onto the positive x axis, at its
      own distance from the origin, so the rotated frustum has mean y zero. */
  lemma RotateToCenterAlignsCentroid(f: Frustum, a: CentroidAngle)
    requires |f| > 0 && IsCentroidAngle(f, a)
    requires ColumnMeans(f).y >= 0.0
    ensures ColumnMeans(RotateToCenter(f, a)).x == a.norm
    ensures ColumnMeans(RotateToCenter(f, a)).y == 0.0
  {
    var m := ColumnMeans(f);
    RotatedCentroid(f, a);
    Aligned(m.x, m.y, a.norm, a.cos, a.sin);
  }

  /** When the centroid has negative y the sine computed through arccos has the wrong
      sign: the frustum is turned by the centroid's angle in the wrong direction, so the
      centroid ends at twice its angle below the x axis, and the rotated mean y is
      2 * mx * my / |m|. */
  lemma RotateToCenterOverturnsCentroid(f: Frustum, a: CentroidAngle)
    requires |f| > 0 && IsCentroidAngle(f, a)
    requires ColumnMeans(f).y < 0.0
    ensures var m := ColumnMeans(f);
      ColumnMeans(RotateToCenter(f, a)).y == 2.0 * m.x * m.y / a.norm
  {
    var m := ColumnMeans(f);
    RotatedCentroid(f, a);
    Overturned(m.x, m.y, a.norm, a.cos, a.sin);
  }

  /** The docstring's claim, mean y of the rotated frustum is 0, holds exactly when the
      centroid does not lie below the x axis, or lies on the y axis. */
  lemma RotateToCenterCentersIff(f: Frustum, a: CentroidAngle)
    requires |f| > 0 && IsCentroidAngle(f, a)
    ensures var m := ColumnMeans(f);
      ColumnMeans(RotateToCenter(f, a)).y == 0.0 <==> m.y >= 0.0 || m.x == 0.0
  {
    var m := ColumnMeans(f);
    if m.y >= 0.0 {
      RotateToCenterAlignsCentroid(f, a);
    } else {
      RotateToCenterOverturnsCentroid(f, a);
      OverturnedZero(m.x, m.y, a.norm);
    }
  }

  /** The centroid (3, -4): cos = 3/5 and sin = 4/5, and the rotation sends it to
      (-1.4, -4.8), not onto the x axis. */
  lemma RotateToCenterExample()
    ensures IsCentroidAngle([Point(3.0, -4.0, 0.0, 0.0)], CentroidAngle(0.6, 0.8, 5.0))
    ensures ColumnMeans(RotateToCenter([Point(3.0, -4.0, 0.0, 0.0)], CentroidAngle(0.6, 0.8, 5.0)))
         == Point(-1.4, -4.8, 0.0, 0.0)
  {
    var p := Point(3.0, -4.0, 0.0, 0.0);
    ColumnMeansSingleton(p);
    ColumnMeansSingleton(Point(-1.4, -4.8, 0.0, 0.0));
    assert RotateToCenter([p], CentroidAngle(0.6, 0.8, 5.0)) == [Point(-1.4, -4.8, 0.0, 0.0)];
  }

  lemma Aligned(mx: real, my: real, n: real, c: real, s: real)
    requires n > 0.0 && n * n == mx * mx + my * my
    requires c * n == mx && s * n == Abs(my) && my >= 0.0
    ensures c * mx + s * my == n
    ensures c * my - s * mx == 0.0
  {
    assert s * n == my;
    ExpandTimes(c, s, mx, my, n);
    Substitute(c * n, mx, mx);
    Substitute(s * n, my, my);
    Substitute(c * n, mx, my);
    Substitute(s * n, my, mx);
    SumOfEquals((c * mx + s * my) * n, (c * n) * mx, (s * n) * my, mx * mx, my * my, n * n);
    CancelFactor(c * mx + s * my, n, n);
    DifferenceOfEquals((c * my - s * mx) * n, (c * n) * my, (s * n) * mx, mx * my, my * mx);
    ZeroFactor(c * my - s * mx, n);
  }

  lemma Overturned(mx: real, my: real, n: real, c: real, s: real)
    requires n > 0.0 && c * n == mx && s * n == Abs(my) && my < 0.0
    ensures c * my - s * mx == 2.0 * mx * my / n
  {
    assert s * n == -my;
    ExpandTimes(c, s, mx, my, n);
    Substitute(c * n, mx, my);
    Substitute(s * n, -my, mx);
    DifferenceOf((c * my - s * mx) * n, (c * n) * my, (s * n) * mx, mx * my, -my * mx);
    QuotientOf(c * my - s * mx, n, 2.0 * mx * my);
  }

  lemma OverturnedZero(mx: real, my: real, n: real)
    requires n > 0.0 && my < 0.0
    ensures 2.0 * mx * my / n == 0.0 <==> mx == 0.0
  {
    if mx != 0.0 {
      ProductNonZero(2.0 * mx, my);
    }
  }

  lemma ExpandTimes(c: real, s: real, mx: real, my: real, n: real)
    ensures (c * mx + s * my) * n == (c * n) * mx + (s * n) * my
    ensures (c * my - s * mx) * n == (c * n) * my - (s * n) * mx
  {
  }

  lemma Substitute(u: real, v: real, w: real)
    requires u == v
    ensures u * w == v * w
  {
  }

  lemma SumOfEquals(a: real, b: real, c: real, d: real, e: real, f: real)
    requires a == b + c && b == d && c == e && f == d + e
    ensures a == f
  {
  }

  lemma DifferenceOfEquals(a: real, b: real, c: real, d: real, e: real)
    requires a == b - c && b == d && c == e && d == e
    ensures a == 0.0
  {
  }

  lemma DifferenceOf(a: real, b: real, c: real, d: real, e: real)
    requires a == b - c && b == d && c == e
    ensures a == d - e
  {
  }

  lemma ZeroFactor(k: real, n: real)
    requires n > 0.0 && k * n == 0.0
    ensures k == 0.0
  {
  }

  lemma QuotientOf(y: real, n: real, t: real)
    requires n > 0.0 && y * n == t
    ensures y == t / n
  {
  }

  lemma ProductNonZero(a: real, b: real)
    requires a != 0.0 && b != 0.0
    ensures a * b != 0.0
  {
  }

  /** `sd` is the row `points.std(axis=0)` that scale_standard divides by, and the
      division is defined: the three coordinate columns do not have zero spread. The
      label column's deviation is computed too but its quotient is thrown away, so
      it may be zero. An empty frustum needs no statistics. */
  predicate IsScaleRow(f: Frustum, sd: Point)
  {
    |f| == 0 || (IsColumnStd(f, sd) && sd.x > 0.0 && sd.y > 0.0 && sd.z > 0.0)
  }

  /** `scale_standard`: every coordinate column has its mean subtracted and is divided by
      its standard deviation; the label column is passed through unscaled. */
  function ScaleStandard(f: Frustum, sd: Point): (r: Frustum)
    requires IsScaleRow(f, sd)
    ensures |r| == |f| && Labels(r) == Labels(f)
  {
    if |f| == 0 then []
    else
      var m := ColumnMeans(f);
      seq(|f|, i requires 0 <= i < |f| =>
        Point((f[i].x - m.x) / sd.x, (f[i].y - m.y) / sd.y, (f[i].z - m.z) / sd.z, f[i].tag))
  }

  /** After scale_standard every coordinate column has mean 0 and population variance 1. */
  lemma ScaleStandardStandardizes(f: Frustum, sd: Point)
    requires |f| > 0 && IsScaleRow(f, sd)
    ensures var r := ScaleStandard(f, sd);
      Mean(Xs(r)) == 0.0 && Variance(Xs(r)) == 1.0 &&
      Mean(Ys(r)) == 0.0 && Variance(Ys(r)) == 1.0 &&
      Mean(Zs(r)) == 0.0 && Variance(Zs(r)) == 1.0
  {
    var r := ScaleStandard(f, sd);
    assert forall i :: 0 <= i < |r| ==> Xs(r)[i] == (Xs(f)[i] - Mean(Xs(f))) / sd.x;
    StandardizedColumn(Xs(f), sd.x, Xs(r));
    assert forall i :: 0 <= i < |r| ==> Ys(r)[i] == (Ys(f)[i] - Mean(Ys(f))) / sd.y;
    StandardizedColumn(Ys(f), sd.y, Ys(r));
    assert forall i :: 0 <= i < |r| ==> Zs(r)[i] == (Zs(f)[i] - Mean(Zs(f))) / sd.z;
    StandardizedColumn(Zs(f), sd.z, Zs(r));
  }

  /** scale_standard loses nothing: multiplying back by the deviations and adding the
      means gives the original coordinates. */
  lemma ScaleStandardInvertible(f: Frustum, sd: Point, i: nat)
    requires |f| > 0 && IsScaleRow(f, sd) && i < |f|
    ensures var r, m := ScaleStandard(f, sd), ColumnMeans(f);
      r[i].x * sd.x + m.x == f[i].x && r[i].y * sd.y + m.y == f[i].y && r[i].z * sd.z + m.z == f[i].z
  {
    var m := ColumnMeans(f);
    ScaledPoint(f, sd, i);
    UnscalePoint(f[i], m, sd, ScaleStandard(f, sd)[i]);
  }

  lemma ScaledPoint(f: Frustum, sd: Point, i: nat)
    requires |f| > 0 && IsScaleRow(f, sd) && i < |f|
    ensures var m := ColumnMeans(f);
      ScaleStandard(f, sd)[i] == Point((f[i].x - m.x) / sd.x, (f[i].y - m.y) / sd.y, (f[i].z - m.z) / sd.z, f[i].tag)
  {
  }

  lemma UnscalePoint(v: Point, m: Point, sd: Point, p: Point)
    requires sd.x > 0.0 && sd.y > 0.0 && sd.z > 0.0
    requires p == Point((v.x - m.x) / sd.x, (v.y - m.y) / sd.y, (v.z - m.z) / sd.z, v.tag)
    ensures p.x * sd.x + m.x == v.x && p.y * sd.y + m.y == v.y && p.z * sd.z + m.z == v.z
  {
    Unscale(v.x, m.x, sd.x, p.x);
    Unscale(v.y, m.y, sd.y, p.y);
    Unscale(v.z, m.z, sd.z, p.z);
  }

  lemma Unscale(v: real, m: real, d: real, q: real)
    requires d > 0.0 && q == (v - m) / d
    ensures q * d + m == v
  {
  }

  /** A frustum whose x coordinates are all equal has no scale row: its x deviation
      would be zero and the source would divide by it. */
  lemma ConstantColumnHasNoScaleRow(f: Frustum, sd: Point)
    requires |f| > 0
    requires forall i :: 0 <= i < |f| ==> f[i].x == f[0].x
    ensures !IsScaleRow(f, sd)
  {
    var xs := Xs(f);
    ConstantHasZeroVariance(xs);
    if IsScaleRow(f, sd) {
      assert sd.x * sd.x == Variance(xs);
      SquareOfPositive(sd.x, sd.x, Variance(xs));
      assert false;
    }
  }

  lemma SquareOfPositive(a: real, a': real, v: real)
    requires a == a' && a > 0.0 && a * a' == v
    ensures v != 0.0
  {
    ProductPositive(a, a');
    assert a * a' > 0.0;
    assert v == a * a';
  }
}
