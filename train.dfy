/** The data preparation of train.py: reading the frustums of one class from a
    directory, preprocessing the training and the validation sets, splitting points
    from labels, sampling a fixed number of points per frustum and the random flip. */
module Train {
  import opened Wrappers
  import opened Stats
  import opened Points
  import opened Preprocessing
  import opened Listing

  /** `FLIPPING_TENSOR`: multiplying a point by it mirrors the y axis. */
  const FlippingTensor: Vec3 := Vec3(1.0, -1.0, 1.0)

  // ---------------------------------------------------------------- read_raw_data

  /** The two arrays an .npz file holds. */
  datatype NpzFile = NpzFile(className: string, points: Frustum)

  /** How the test `if sample_limit and num_samples >= sample_limit` caps the count:
      None and 0 are falsy and never stop the loop, a positive limit stops it once that
      many frustums are read, and a negative limit stops it after the first one. */
  function Cap(sampleLimit: Option<int>): (c: Option<nat>)
    ensures c.None? <==> sampleLimit.None? || sampleLimit.value == 0
    ensures c.Some? ==> c.value > 0
    ensures sampleLimit.Some? && sampleLimit.value > 0 ==> c == Some(sampleLimit.value)
    ensures sampleLimit.Some? && sampleLimit.value < 0 ==> c == Some(1)
  {
    match sampleLimit
    case None => None
    case Some(limit) => if limit == 0 then None else if limit > 0 then Some(limit) else Some(1)
  }

  predicate InFiles(names: seq<string>, files: map<string, NpzFile>)
  {
    forall i :: 0 <= i < |names| ==> names[i] in files
  }

  /** The names, in order, whose file holds frustums of class `cls`. */
  function Matching(names: seq<string>, files: map<string, NpzFile>, cls: string): (r: seq<string>)
    requires InFiles(names, files)
    ensures |r| <= |names|
    ensures forall i :: 0 <= i < |r| ==> r[i] in files && files[r[i]].className == cls
  {
    if names == [] then []
    else (if files[names[0]].className == cls then [names[0]] else []) + Matching(names[1..], files, cls)
  }

  /** At most `cap` leading elements. */
  function Take<T>(xs: seq<T>, cap: Option<nat>): (r: seq<T>)
    ensures |r| <= |xs| && r == xs[..|r|]
    ensures cap.None? ==> r == xs
    ensures cap.Some? ==> |r| == (if |xs| < cap.value then |xs| else cap.value)
  {
    match cap
    case None => xs
    case Some(k) => if |xs| <= k then xs else xs[..k]
  }

  /** The names `read_raw_data` loads, in the order it loads them. */
  function SelectedNames(listing: seq<string>, files: map<string, NpzFile>, cls: string, sampleLimit: Option<int>): (r: seq<string>)
    requires forall name :: name in listing && IsNpz(name) ==> name in files
    ensures forall i :: 0 <= i < |r| ==> r[i] in files && files[r[i]].className == cls
  {
    var npz := NpzOnly(SortNames(listing));
    NpzNamesAreFiles(listing, files);
    Take(Matching(npz, files, cls), Cap(sampleLimit))
  }

  function PointsOf(names: seq<string>, files: map<string, NpzFile>): seq<Frustum>
    requires InFiles(names, files)
  {
    seq(|names|, i requires 0 <= i < |names| => files[names[i]].points)
  }

  /** `read_raw_data`: the directory is the listing `os.listdir` returns (in any order)
      together with the contents of its files. */
  method ReadRawData(listing: seq<string>, files: map<string, NpzFile>, allowedClass: string, sampleLimit: Option<int>)
    returns (data: seq<Frustum>)
    requires forall name :: name in listing && IsNpz(name) ==> name in files
    ensures data == PointsOf(SelectedNames(listing, files, allowedClass, sampleLimit), files)
  {
    var names := SortNames(listing);
    names := NpzOnly(names);
    NpzNamesAreFiles(listing, files);
    var cap := Cap(sampleLimit);
    data := [];
    var numSamples := 0;
    ghost var chosen: seq<string> := [];
    for idx := 0 to |names|
      invariant chosen == Matching(names[..idx], files, allowedClass)
      invariant forall i :: 0 <= i < |chosen| ==> chosen[i] in files
      invariant data == PointsOf(chosen, files)
      invariant numSamples == |chosen|
      invariant cap.Some? ==> numSamples < cap.value
    {
      MatchingStep(names, idx, files, allowedClass);
      var file := files[names[idx]];
      if file.className != allowedClass {
        continue;
      }
      PointsOfAppend(chosen, names[idx], files);
      data := data + [file.points];
      chosen := chosen + [names[idx]];
      numSamples := numSamples + 1;
      if sampleLimit.Some? && sampleLimit.value != 0 && numSamples >= sampleLimit.value {
        TakeAtLimit(names, idx, files, allowedClass, cap);
        return;
      }
    }
    TakeBelowLimit(names, files, allowedClass, cap);
  }

  /** One more step of the loop extends the selection by the visited name when it matches. */
  lemma MatchingStep(names: seq<string>, idx: nat, files: map<string, NpzFile>, cls: string)
    requires InFiles(names, files) && idx < |names|
    ensures InFiles(names[..idx], files)
    ensures Matching(names[..idx + 1], files, cls)
         == Matching(names[..idx], files, cls) + (if files[names[idx]].className == cls then [names[idx]] else [])
  {
    MatchingAppend(names[..idx], names[idx], files, cls);
    assert names[..idx + 1] == names[..idx] + [names[idx]];
  }

  lemma PointsOfAppend(names: seq<string>, name: string, files: map<string, NpzFile>)
    requires InFiles(names, files) && name in files
    ensures InFiles(names + [name], files)
    ensures PointsOf(names + [name], files) == PointsOf(names, files) + [files[name].points]
  {
  }

  /** Breaking out once the limit is reached leaves exactly the first `limit` matches. */
  lemma TakeAtLimit(names: seq<string>, idx: nat, files: map<string, NpzFile>, cls: string, cap: Option<nat>)
    requires InFiles(names, files) && idx < |names|
    requires cap.Some? && |Matching(names[..idx + 1], files, cls)| >= cap.value
    requires |Matching(names[..idx + 1], files, cls)| <= cap.value
    ensures Take(Matching(names, files, cls), cap) == Matching(names[..idx + 1], files, cls)
  {
    MatchingConcat(names[..idx + 1], names[idx + 1..], files, cls);
    assert names[..idx + 1] + names[idx + 1..] == names;
  }

  /** Running off the end of the names without reaching the limit keeps every match. */
  lemma TakeBelowLimit(names: seq<string>, files: map<string, NpzFile>, cls: string, cap: Option<nat>)
    requires InFiles(names, files)
    requires cap.Some? ==> |Matching(names[..|names|], files, cls)| < cap.value
    ensures Take(Matching(names, files, cls), cap) == Matching(names[..|names|], files, cls)
  {
    assert names[..|names|] == names;
  }

  lemma NpzNamesAreFiles(listing: seq<string>, files: map<string, NpzFile>)
    requires forall name :: name in listing && IsNpz(name) ==> name in files
    ensures InFiles(NpzOnly(SortNames(listing)), files)
    ensures forall name :: name in NpzOnly(SortNames(listing)) ==> name in listing && IsNpz(name)
  {
    var sorted := SortNames(listing);
    SortNamesSortsAndPermutes(listing);
    var npz := NpzOnly(sorted);
    forall name | name in npz ensures name in listing && IsNpz(name) {
      NpzOnlyMembership(sorted, name);
      assert name in multiset(sorted);
    }
  }

  lemma {:induction false} MatchingAppend(names: seq<string>, name: string, files: map<string, NpzFile>, cls: string)
    requires InFiles(names, files)
    requires name in files
    ensures Matching(names + [name], files, cls)
         == Matching(names, files, cls) + (if files[name].className == cls then [name] else [])
  {
    if names != [] {
      assert (names + [name])[1..] == names[1..] + [name];
      MatchingAppend(names[1..], name, files, cls);
    }
  }

  lemma {:induction false} MatchingConcat(a: seq<string>, b: seq<string>, files: map<string, NpzFile>, cls: string)
    requires InFiles(a, files) && InFiles(b, files)
    ensures InFiles(a + b, files)
    ensures Matching(a + b, files, cls) == Matching(a, files, cls) + Matching(b, files, cls)
  {
    if a == [] {
      assert a + b == b;
    } else {
      assert (a + b)[1..] == a[1..] + b;
      assert (a + b)[0] == a[0];
      MatchingConcat(a[1..], b, files, cls);
    }
  }

  /** Every name `read_raw_data` loads is a listed .npz file of the requested class, the
      names come in Python's sorted order, and a truthy limit bounds their number. */
  lemma SelectedNamesProperties(listing: seq<string>, files: map<string, NpzFile>, cls: string, sampleLimit: Option<int>)
    requires forall name :: name in listing && IsNpz(name) ==> name in files
    ensures var sel := SelectedNames(listing, files, cls, sampleLimit);
      (forall i :: 0 <= i < |sel| ==> sel[i] in listing && IsNpz(sel[i]) && files[sel[i]].className == cls) &&
      SortedNames(sel) &&
      (sampleLimit.Some? && sampleLimit.value > 0 ==> |sel| <= sampleLimit.value) &&
      (sampleLimit.Some? && sampleLimit.value < 0 ==> |sel| <= 1)
  {
    var sorted := SortNames(listing);
    SortNamesSortsAndPermutes(listing);
    NpzOnlyKeepsOrder(sorted);
    var npz := NpzOnly(sorted);
    NpzNamesAreFiles(listing, files);
    var m := Matching(npz, files, cls);
    MatchingIsSubsequence(npz, files, cls);
    var sel := SelectedNames(listing, files, cls, sampleLimit);
    assert forall i :: 0 <= i < |sel| ==> sel[i] == m[i];
  }

  /** The limit keeps the first matches and no fewer than it allows: a positive limit
      loads `limit` frustums when there are that many, a negative one loads the first
      match when there is one, and a limit of 0 is no limit at all. */
  lemma SelectedNamesAreFirstMatches(listing: seq<string>, files: map<string, NpzFile>, cls: string, sampleLimit: Option<int>)
    requires forall name :: name in listing && IsNpz(name) ==> name in files
    ensures InFiles(NpzOnly(SortNames(listing)), files)
    ensures var m, sel := Matching(NpzOnly(SortNames(listing)), files, cls), SelectedNames(listing, files, cls, sampleLimit);
      sel == m[..|sel|] &&
      (sampleLimit.None? ==> sel == m) &&
      (sampleLimit.Some? && sampleLimit.value > 0 ==>
        |sel| == if |m| < sampleLimit.value then |m| else sampleLimit.value) &&
      (sampleLimit.Some? && sampleLimit.value < 0 && |m| > 0 ==> sel == m[..1])
    ensures SelectedNames(listing, files, cls, Some(0)) == SelectedNames(listing, files, cls, None)
  {
    NpzNamesAreFiles(listing, files);
  }

  /** Matching keeps the names of class `cls`, in their order. */
  lemma {:induction false} MatchingIsSubsequence(names: seq<string>, files: map<string, NpzFile>, cls: string)
    requires InFiles(names, files)
    ensures forall name :: name in Matching(names, files, cls) ==> name in names
    ensures SortedNames(names) ==> SortedNames(Matching(names, files, cls))
  {
    if names != [] {
      var tail := names[1..];
      MatchingIsSubsequence(tail, files, cls);
      var m := Matching(names, files, cls);
      var mt := Matching(tail, files, cls);
      if files[names[0]].className == cls {
        assert m == [names[0]] + mt;
      } else {
        assert m == mt;
      }
      if SortedNames(names) {
        assert SortedNames(tail) by {
          forall i, j | 0 <= i < j < |tail| ensures NameLeq(tail[i], tail[j]) {
            assert tail[i] == names[i + 1] && tail[j] == names[j + 1];
          }
        }
        if files[names[0]].className == cls {
          forall j | 0 <= j < |mt| ensures NameLeq(names[0], mt[j]) {
            assert mt[j] in mt;
            var k :| 0 <= k < |tail| && tail[k] == mt[j];
            assert names[k + 1] == mt[j];
          }
          forall i, j | 0 <= i < j < |m| ensures NameLeq(m[i], m[j]) {
            if i > 0 {
              assert m[i] == mt[i - 1] && m[j] == mt[j - 1];
            } else {
              assert m[j] == mt[j - 1];
            }
          }
        }
      }
    }
  }

  /** Without a limit `read_raw_data` loads exactly the listed .npz files of class `cls`. */
  lemma UnlimitedSelectionIsComplete(listing: seq<string>, files: map<string, NpzFile>, cls: string, name: string)
    requires forall name :: name in listing && IsNpz(name) ==> name in files
    ensures name in SelectedNames(listing, files, cls, None)
        <==> name in listing && IsNpz(name) && files[name].className == cls
  {
    var sorted := SortNames(listing);
    SortNamesSortsAndPermutes(listing);
    NpzOnlyMembership(sorted, name);
    assert name in sorted <==> name in multiset(sorted);
    NpzNamesAreFiles(listing, files);
    MatchingMembership(NpzOnly(sorted), files, cls, name);
  }

  lemma {:induction false} MatchingMembership(names: seq<string>, files: map<string, NpzFile>, cls: string, name: string)
    requires InFiles(names, files)
    ensures name in Matching(names, files, cls) <==> name in names && files[name].className == cls
  {
    if names != [] {
      MatchingMembership(names[1..], files, cls, name);
      assert names == [names[0]] + names[1..];
    }
  }

  // ---------------------------------------------------------------- preprocess_raw_train

  /** `preprocess_raw_train`: every frustum is rotated and standardised; the scale factor
      and the mean returned are the unweighted means, over the frustums, of the per-frustum
      deviation rows and mean rows, cut to the three coordinates. */
  method PreprocessRawTrain(frustums: seq<Frustum>, angles: seq<CentroidAngle>, sds: seq<Point>)
    returns (scaled: seq<Frustum>, scaleFactor: Vec3, mean: Vec3)
    requires |frustums| > 0 && |angles| == |frustums| && |sds| == |frustums|
    requires forall i :: 0 <= i < |frustums| ==> |frustums[i]| > 0 && IsCentroidAngle(frustums[i], angles[i])
    requires forall i :: 0 <= i < |frustums| ==> IsScaleRow(RotateToCenter(frustums[i], angles[i]), sds[i])
    ensures |scaled| == |frustums|
    ensures forall i :: 0 <= i < |frustums| ==>
      scaled[i] == ScaleStandard(RotateToCenter(frustums[i], angles[i]), sds[i])
    ensures scaleFactor == Head3(ColumnMeans(sds))
    ensures mean == Head3(ColumnMeans(RotatedMeans(frustums, angles)))
    ensures scaleFactor.x > 0.0 && scaleFactor.y > 0.0 && scaleFactor.z > 0.0
  {
    scaled := [];
    var scaleFactorList: seq<Point> := [];
    var meanList: seq<Point> := [];
    ghost var rows := RotatedMeans(frustums, angles);
    for i := 0 to |frustums|
      invariant |scaled| == i && scaleFactorList == sds[..i]
      invariant forall j :: 0 <= j < i ==> scaled[j] == ScaleStandard(RotateToCenter(frustums[j], angles[j]), sds[j])
      invariant meanList == rows[..i]
    {
      var rotatedPoints := RotateToCenter(frustums[i], angles[i]);
      var scaledPoints := ScaleStandard(rotatedPoints, sds[i]);
      scaled := scaled + [scaledPoints];
      scaleFactorList := scaleFactorList + [sds[i]];
      assert rows[..i + 1] == rows[..i] + [ColumnMeans(rotatedPoints)];
      meanList := meanList + [ColumnMeans(rotatedPoints)];
    }
    assert rows[..|frustums|] == rows && sds[..|sds|] == sds;
    scaleFactor := Head3(ColumnMeans(scaleFactorList));
    mean := Head3(ColumnMeans(meanList));
    ScaleFactorPositive(frustums, angles, sds);
  }

  /** The mean rows of the rotated frustums, one per frustum. */
  function RotatedMeans(frustums: seq<Frustum>, angles: seq<CentroidAngle>): (rows: seq<Point>)
    requires |angles| == |frustums|
    requires forall i :: 0 <= i < |frustums| ==> |frustums[i]| > 0 && IsCentroidAngle(frustums[i], angles[i])
    ensures |rows| == |frustums|
  {
    seq(|frustums|, i requires 0 <= i < |frustums| => ColumnMeans(RotateToCenter(frustums[i], angles[i])))
  }

  /** The averaged deviations are positive, so preprocess_raw_val can divide by them. */
  lemma ScaleFactorPositive(frustums: seq<Frustum>, angles: seq<CentroidAngle>, sds: seq<Point>)
    requires |frustums| > 0 && |angles| == |frustums| && |sds| == |frustums|
    requires forall i :: 0 <= i < |frustums| ==> |frustums[i]| > 0 && IsCentroidAngle(frustums[i], angles[i])
    requires forall i :: 0 <= i < |frustums| ==> IsScaleRow(RotateToCenter(frustums[i], angles[i]), sds[i])
    ensures var s := ColumnMeans(sds); s.x > 0.0 && s.y > 0.0 && s.z > 0.0
  {
    assert forall i :: 0 <= i < |sds| ==> sds[i].x > 0.0 && sds[i].y > 0.0 && sds[i].z > 0.0;
    MeanPositive(Xs(sds));
    MeanPositive(Ys(sds));
    MeanPositive(Zs(sds));
  }

  /** When no training frustum has its centroid below the x axis, every rotated frustum
      has mean y zero, and so has the mean the training set hands on. */
  lemma TrainMeanCentered(frustums: seq<Frustum>, angles: seq<CentroidAngle>)
    requires |frustums| > 0 && |angles| == |frustums|
    requires forall i :: 0 <= i < |frustums| ==> |frustums[i]| > 0 && IsCentroidAngle(frustums[i], angles[i])
    requires forall i :: 0 <= i < |frustums| ==> ColumnMeans(frustums[i]).y >= 0.0
    ensures ColumnMeans(RotatedMeans(frustums, angles)).y == 0.0
  {
    var rows := RotatedMeans(frustums, angles);
    forall i | 0 <= i < |rows| ensures Ys(rows)[i] == 0.0 {
      RotateToCenterAlignsCentroid(frustums[i], angles[i]);
    }
    SumConstant(Ys(rows), 0.0);
  }

  // ---------------------------------------------------------------- preprocess_raw_val

  /** `(xyz - mean) / scale_factor` for one point. */
  function StandardizePoint(v: Vec3, mean: Vec3, scale: Vec3): Vec3
    requires scale.x != 0.0 && scale.y != 0.0 && scale.z != 0.0
  {
    Vec3((v.x - mean.x) / scale.x, (v.y - mean.y) / scale.y, (v.z - mean.z) / scale.z)
  }

  function Standardize(vs: seq<Vec3>, mean: Vec3, scale: Vec3): (r: seq<Vec3>)
    requires scale.x != 0.0 && scale.y != 0.0 && scale.z != 0.0
    ensures |r| == |vs|
  {
    seq(|vs|, i requires 0 <= i < |vs| => StandardizePoint(vs[i], mean, scale))
  }

  /** The inverse of Standardize: scale back and add the mean. */
  function Unstandardize(vs: seq<Vec3>, mean: Vec3, scale: Vec3): (r: seq<Vec3>)
    ensures |r| == |vs|
  {
    seq(|vs|, i requires 0 <= i < |vs| =>
      Vec3(vs[i].x * scale.x + mean.x, vs[i].y * scale.y + mean.y, vs[i].z * scale.z + mean.z))
  }

  lemma StandardizeInvertible(vs: seq<Vec3>, mean: Vec3, scale: Vec3)
    requires scale.x != 0.0 && scale.y != 0.0 && scale.z != 0.0
    ensures Unstandardize(Standardize(vs, mean, scale), mean, scale) == vs
  {
    var r := Unstandardize(Standardize(vs, mean, scale), mean, scale);
    forall i | 0 <= i < |vs| ensures r[i] == vs[i] {
      Rescale(vs[i].x, mean.x, scale.x);
      Rescale(vs[i].y, mean.y, scale.y);
      Rescale(vs[i].z, mean.z, scale.z);
    }
  }

  lemma Rescale(v: real, m: real, d: real)
    requires d != 0.0
    ensures ((v - m) / d) * d + m == v
  {
  }

  /** `preprocess_raw_val`: every frustum is rotated to its centre and its coordinates are
      standardised with the training set's mean and scale factor; the labels are kept. */
  method PreprocessRawVal(frustums: seq<Frustum>, angles: seq<CentroidAngle>, scaleFactor: Vec3, mean: Vec3)
    returns (valX: seq<seq<Vec3>>, valY: seq<seq<real>>)
    requires |angles| == |frustums|
    requires forall i :: 0 <= i < |frustums| ==> IsCentroidAngle(frustums[i], angles[i])
    requires scaleFactor.x != 0.0 && scaleFactor.y != 0.0 && scaleFactor.z != 0.0
    ensures |valX| == |frustums| && |valY| == |frustums|
    ensures forall i :: 0 <= i < |frustums| ==>
      valX[i] == Standardize(Coords(RotateToCenter(frustums[i], angles[i])), mean, scaleFactor)
    ensures forall i :: 0 <= i < |frustums| ==> valY[i] == Labels(frustums[i])
  {
    valX := [];
    valY := [];
    for i := 0 to |frustums|
      invariant |valX| == i && |valY| == i
      invariant forall j :: 0 <= j < i ==>
        valX[j] == Standardize(Coords(RotateToCenter(frustums[j], angles[j])), mean, scaleFactor)
      invariant forall j :: 0 <= j < i ==> valY[j] == Labels(frustums[j])
    {
      var rotatedPoints := RotateToCenter(frustums[i], angles[i]);
      var x := Standardize(Coords(rotatedPoints), mean, scaleFactor);
      var y := Labels(rotatedPoints);
      valX := valX + [x];
      valY := valY + [y];
    }
  }

  /** Standardising with a frustum's own mean and deviation rows is what scale_standard
      does to its coordinates. */
  lemma StandardizeMatchesScaleStandard(g: Frustum, sd: Point)
    requires |g| > 0 && IsScaleRow(g, sd)
    ensures Standardize(Coords(g), Head3(ColumnMeans(g)), Head3(sd)) == Coords(ScaleStandard(g, sd))
  {
  }

  /** Training on one frustum and validating on the same frustum agree: the validation
      coordinates equal the scaled training coordinates. */
  lemma TrainAndValAgreeOnOneFrustum(f: Frustum, a: CentroidAngle, sd: Point)
    requires |f| > 0 && IsCentroidAngle(f, a) && IsScaleRow(RotateToCenter(f, a), sd)
    ensures var g := RotateToCenter(f, a);
      ColumnMeans([sd]) == sd &&
      Standardize(Coords(g), Head3(ColumnMeans(RotatedMeans([f], [a]))), Head3(ColumnMeans([sd])))
        == Coords(ScaleStandard(g, sd))
  {
    var g := RotateToCenter(f, a);
    assert RotatedMeans([f], [a]) == [ColumnMeans(g)];
    ColumnMeansSingleton(ColumnMeans(g));
    ColumnMeansSingleton(sd);
    StandardizeMatchesScaleStandard(g, sd);
  }

  // ---------------------------------------------------------------- data_and_label_split

  /** Puts coordinates and labels back together, row by row. */
  function Join(xs: seq<Vec3>, ys: seq<real>): (f: Frustum)
    requires |xs| == |ys|
    ensures |f| == |xs|
  {
    seq(|xs|, i requires 0 <= i < |xs| => Point(xs[i].x, xs[i].y, xs[i].z, ys[i]))
  }

  /** `data_and_label_split`: columns 0-2 of every frustum, and column 3. */
  method DataAndLabelSplit(frustums: seq<Frustum>) returns (dataX: seq<seq<Vec3>>, dataY: seq<seq<real>>)
    ensures |dataX| == |frustums| && |dataY| == |frustums|
    ensures forall i :: 0 <= i < |frustums| ==> dataX[i] == Coords(frustums[i]) && dataY[i] == Labels(frustums[i])
  {
    dataX := [];
    dataY := [];
    for i := 0 to |frustums|
      invariant |dataX| == i && |dataY| == i
      invariant forall j :: 0 <= j < i ==> dataX[j] == Coords(frustums[j]) && dataY[j] == Labels(frustums[j])
    {
      dataX := dataX + [Coords(frustums[i])];
      dataY := dataY + [Labels(frustums[i])];
    }
  }

  /** Splitting loses nothing: joining the two halves gives the frustum back. */
  lemma JoinSplit(f: Frustum)
    ensures Join(Coords(f), Labels(f)) == f
  {
  }

  /** And joining then splitting gives the two halves back. */
  lemma SplitJoin(xs: seq<Vec3>, ys: seq<real>)
    requires |xs| == |ys|
    ensures Coords(Join(xs, ys)) == xs && Labels(Join(xs, ys)) == ys
  {
  }

  // ---------------------------------------------------------------- sample_data

  /** `tf.random.uniform((num_points,), maxval=n, dtype=tf.int32)`: num_points indices in [0, n). */
  predicate IsMask(mask: seq<int>, numPoints: nat, n: nat)
  {
    |mask| == numPoints && forall k :: 0 <= k < |mask| ==> 0 <= mask[k] < n
  }

  /** `tf.gather(xs, mask)`. */
  function Gather<T>(xs: seq<T>, mask: seq<int>): (r: seq<T>)
    requires forall k :: 0 <= k < |mask| ==> 0 <= mask[k] < |xs|
    ensures |r| == |mask|
    ensures forall k :: 0 <= k < |r| ==> r[k] in xs
  {
    seq(|mask|, k requires 0 <= k < |mask| => xs[mask[k]])
  }

  /** Sampling the same indices from the coordinates and from the labels keeps every
      label with its point: it is the same as sampling the labelled rows. */
  lemma GatherKeepsLabelsAligned(xs: seq<Vec3>, ys: seq<real>, mask: seq<int>)
    requires |xs| == |ys|
    requires forall k :: 0 <= k < |mask| ==> 0 <= mask[k] < |xs|
    ensures Join(Gather(xs, mask), Gather(ys, mask)) == Gather(Join(xs, ys), mask)
  {
  }

  datatype SampleError = EmptyFrustum(index: nat)

  /** `sample_data`: from every frustum, num_points points drawn with replacement, and
      their labels. The random draws are the parameter `masks`. A frustum without points
      leaves the draw nothing to choose from and the source fails there. */
  method SampleData(points: seq<seq<Vec3>>, labels: seq<seq<real>>, numPoints: nat, masks: seq<seq<int>>)
    returns (r: Result<(seq<seq<Vec3>>, seq<seq<real>>), SampleError>)
    requires |labels| == |points| && |masks| == |points|
    requires forall i :: 0 <= i < |points| ==> |labels[i]| == |points[i]|
    requires forall i :: 0 <= i < |points| && (|points[i]| > 0 || numPoints == 0) ==>
      IsMask(masks[i], numPoints, |points[i]|)
    ensures r.Err? <==> numPoints > 0 && exists i :: 0 <= i < |points| && |points[i]| == 0
    ensures r.Err? ==> var i := r.error.index;
      i < |points| && |points[i]| == 0 && forall j :: 0 <= j < i ==> |points[j]| > 0
    ensures r.Ok? ==> |r.value.0| == |points| && |r.value.1| == |points|
    ensures r.Ok? ==> forall i :: 0 <= i < |points| ==>
      IsMask(masks[i], numPoints, |points[i]|) &&
      r.value.0[i] == Gather(points[i], masks[i]) && r.value.1[i] == Gather(labels[i], masks[i])
  {
    var bigPoints: seq<seq<Vec3>> := [];
    var bigLabels: seq<seq<real>> := [];
    for ind := 0 to |points|
      invariant |bigPoints| == ind && |bigLabels| == ind
      invariant numPoints > 0 ==> forall j :: 0 <= j < ind ==> |points[j]| > 0
      invariant forall j :: 0 <= j < ind ==>
        IsMask(masks[j], numPoints, |points[j]|) &&
        bigPoints[j] == Gather(points[j], masks[j]) && bigLabels[j] == Gather(labels[j], masks[j])
    {
      if |points[ind]| == 0 && numPoints > 0 {
        return Err(EmptyFrustum(ind));
      }
      var mask := masks[ind];
      bigPoints := bigPoints + [Gather(points[ind], mask)];
      bigLabels := bigLabels + [Gather(labels[ind], mask)];
    }
    r := Ok((bigPoints, bigLabels));
  }

  // ---------------------------------------------------------------- flip

  /** Component-wise product, as `points * FLIPPING_TENSOR` broadcasts it. */
  function Times(v: Vec3, w: Vec3): Vec3
  {
    Vec3(v.x * w.x, v.y * w.y, v.z * w.z)
  }

  /** `flip`: when the uniform draw `u` is at least 0.5 every point is multiplied by
      FLIPPING_TENSOR; the labels are returned as they are. */
  function Flip(points: seq<Vec3>, labels: seq<real>, u: real): (r: (seq<Vec3>, seq<real>))
    ensures r.1 == labels && |r.0| == |points|
    ensures u < 0.5 ==> r.0 == points
  {
    if u >= 0.5 then (seq(|points|, i requires 0 <= i < |points| => Times(points[i], FlippingTensor)), labels)
    else (points, labels)
  }

  /** A flip mirrors y and nothing else, and never touches the labels. */
  lemma FlipMirrorsY(points: seq<Vec3>, labels: seq<real>, u: real)
    ensures var (p, l) := Flip(points, labels, u);
      l == labels && |p| == |points| &&
      forall i :: 0 <= i < |p| ==>
        p[i] == (if u >= 0.5 then Vec3(points[i].x, -points[i].y, points[i].z) else points[i])
  {
  }

  /** The same draw applied twice gives the points back. */
  lemma FlipTwice(points: seq<Vec3>, labels: seq<real>, u: real)
    ensures Flip(Flip(points, labels, u).0, Flip(points, labels, u).1, u) == (points, labels)
  {
    var p := Flip(Flip(points, labels, u).0, labels, u).0;
    assert |p| == |points|;
    forall i | 0 <= i < |p| ensures p[i] == points[i] {
      if u >= 0.5 {
        NegateTwice(points[i].y);
      }
    }
    assert p == points;
  }

  lemma NegateTwice(y: real)
    ensures (y * -1.0) * -1.0 == y
  {
  }
}
