/** The data model: a frustum is a ragged list of labelled points (an N x 4 matrix
    whose columns are x, y, z and the per-point label); coordinates without the
    label are 3-vectors. */
module Points {
  import opened Stats

  datatype Vec3 = Vec3(x: real, y: real, z: real)

  /** One row of a frustum: (x, y, z, label), the label held in `tag`. Also used for a row of per-column
      statistics, as `points.mean(axis=0)` and `points.std(axis=0)` return. */
  datatype Point = Point(x: real, y: real, z: real, tag: real)

  type Frustum = seq<Point>

  function Xs(f: seq<Point>): seq<real>
  {
    seq(|f|, i requires 0 <= i < |f| => f[i].x)
  }

  function Ys(f: seq<Point>): seq<real>
  {
    seq(|f|, i requires 0 <= i < |f| => f[i].y)
  }

  function Zs(f: seq<Point>): seq<real>
  {
    seq(|f|, i requires 0 <= i < |f| => f[i].z)
  }

  /** Column 3, `frustum[:, 3]`. */
  function Labels(f: seq<Point>): seq<real>
  {
    seq(|f|, i requires 0 <= i < |f| => f[i].tag)
  }

  /** A row without its label, `row[:3]`. */
  function Head3(p: Point): Vec3
  {
    Vec3(p.x, p.y, p.z)
  }

  /** Columns 0-2, `frustum[:, :3]`. */
  function Coords(f: seq<Point>): seq<Vec3>
  {
    seq(|f|, i requires 0 <= i < |f| => Head3(f[i]))
  }

  /** `mean(axis=0)`: the unweighted mean of every column. */
  function ColumnMeans(f: seq<Point>): Point
    requires |f| > 0
  {
    Point(Mean(Xs(f)), Mean(Ys(f)), Mean(Zs(f)), Mean(Labels(f)))
  }

  /** `sd` is `std(axis=0)`: the population standard deviation of every column. */
  predicate IsColumnStd(f: seq<Point>, sd: Point)
  {
    |f| > 0 && IsStd(Xs(f), sd.x) && IsStd(Ys(f), sd.y) && IsStd(Zs(f), sd.z) && IsStd(Labels(f), sd.tag)
  }

  /** The mean row of a single row is that row. */
  lemma ColumnMeansSingleton(p: Point)
    ensures ColumnMeans([p]) == p
  {
    assert Xs([p]) == [p.x] && Ys([p]) == [p.y] && Zs([p]) == [p.z] && Labels([p]) == [p.tag];
    MeanSingleton(p.x);
    MeanSingleton(p.y);
    MeanSingleton(p.z);
    MeanSingleton(p.tag);
  }
}
