# F-PointNet-tiny data preparation, modelled in Dafny

This project models the data preparation of a small Frustum-PointNet trainer.

- Every frustum is a list of points `(x, y, z, label)`.
- `read_raw_data` reads the frustums of one object class from a directory of `.npz` files.
- `rotate_to_center` turns every frustum about the vertical axis. Its top-down centroid then lies on the depth axis when the centroid's y is not negative; otherwise it is turned the wrong way, to twice its angle below the axis, and its rotated y is 2·mx·my/|m| (`RotateToCenterOverturnsCentroid`, `RotateToCenterCentersIff`).
- `scale_standard` standardises the three coordinate columns by their mean and population standard deviation, and keeps the labels.
- `preprocess_raw_train` averages the per-frustum statistics into one mean and one scale factor.
- `preprocess_raw_val` applies that mean and scale factor to the validation frustums.
- `data_and_label_split` separates the coordinates from the labels.
- `sample_data` draws a fixed number of points per frustum with replacement.
- `flip` mirrors the y axis with probability one half.

The modules are:

- `Wrappers`: `Option` and `Result`.
- `Stats`: numpy's `mean(axis=0)` and `std(axis=0)` on one column, with ddof 0.
- `Points`: points, frustums and their columns.
- `Listing`: Python's string order, `sorted` and the `.npz` filter.
- `Preprocessing`: `preprocessing.py`.
- `Train`: `train.py`.

Numbers are mathematical reals. Loops that build lists in `train.py` are methods with loops and invariants. Each is proved equal to a specification function, and the properties are proved about that function.

Where the rotation needs `arccos`, `cos`, `sin` and `norm`, the model takes a `CentroidAngle` as a parameter. `IsCentroidAngle` states the facts that hold of it:

- `norm` is the length of the top-down centroid `(mx, my)`;
- `cos * norm == mx`;
- `sin * norm == |my|`, because `arccos` lands in [0, π].

`scale_standard`'s `std` is likewise a parameter row `sd`, and `IsColumnStd` relates it to the variance.

## Model

| member | source | states |
|---|---|---|
| Train.FlippingTensor | train.py:10 | the constant (1, −1, 1) |
| Train.Cap | train.py:33-34 | there is no cap exactly when the limit is `None` or 0, the falsy values; a positive limit caps at itself and a negative limit caps at 1 |
| Train.Take | train.py:33-34 | the capped names are a prefix of the matches, all of them without a cap, and otherwise as many as the cap or as there are matches, whichever is smaller |
| Train.Matching | train.py:26-27 | only names whose file holds the allowed class are kept, and no more names than were given |
| Train.SelectedNames | train.py:13-36 | every selected name is a file of the allowed class |
| Train.ReadRawData | train.py:13-36 | the loop, with its `continue` and `break`, loads exactly the frustums of the selected names, in order |
| Train.NpzNamesAreFiles | train.py:14-15 | the sorted, filtered names are all listed `.npz` files |
| Train.MatchingAppend | train.py:20-29 | visiting one more name extends the selection by that name exactly when it has the class |
| Train.MatchingConcat | train.py:20-34 | selecting over a concatenation is the concatenation of the selections, which justifies stopping early |
| Train.TakeAtLimit | train.py:33-34 | once the count reaches the limit, breaking leaves exactly the first `limit` matching names |
| Train.TakeBelowLimit | train.py:20-36 | finishing the loop below the limit keeps every matching name |
| Train.SelectedNamesAreFirstMatches | train.py:20-34 | the loaded names are the first matches; a positive limit loads exactly `limit` of them when there are that many and all of them otherwise; a negative limit loads the first match when there is one; a limit of 0 loads the same as no limit |
| Train.SelectedNamesProperties | train.py:13-36 | selected names are listed `.npz` files of the class, in sorted order, at most `limit` of them when the limit is positive and at most one when it is negative |
| Train.MatchingIsSubsequence | train.py:20-29 | the class filter only drops names and keeps sorted input sorted |
| Train.UnlimitedSelectionIsComplete | train.py:13-36 | without a limit, a name is selected if and only if it is a listed `.npz` file of the class |
| Train.MatchingMembership | train.py:26-27 | a name survives the class filter if and only if it is given and has the class |
| Listing.NameLeq | train.py:14 | the order `sorted` uses on strings, code point by code point with a proper prefix first; every name is at most itself |
| Listing.SortNames | train.py:14 | `sorted` keeps the number of names |
| Listing.IsNpz | train.py:15 | `filename.endswith('.npz')`: the last four characters are `.npz` |
| Listing.NpzOnly | train.py:15 | the comprehension keeps only `.npz` names and never adds one |
| Listing.NameLeqTotal | train.py:14 | the string order used by `sorted` is total |
| Listing.NameLeqTransitive | train.py:14 | the string order is transitive |
| Listing.NameLeqAntisymmetric | train.py:14 | the string order is antisymmetric |
| Listing.InsertPermutes | train.py:14 | inserting adds exactly one name |
| Listing.InsertSorted | train.py:14 | inserting keeps a list sorted |
| Listing.SortNamesSortsAndPermutes | train.py:14 | `sorted` returns a sorted permutation of the listing |
| Listing.NpzOnlyMembership | train.py:15 | a name survives the filter if and only if it is listed and ends in `.npz` |
| Listing.NpzOnlyKeepsOrder | train.py:15 | the filter keeps a sorted list sorted |
| Preprocessing.IsCentroidAngle | preprocessing.py:17-21 | the angle facts `arccos`, `cos` and `sin` give for a non-empty frustum: a positive centroid length `norm`, cos·norm = mean x and sin·norm = abs(mean y) |
| Preprocessing.RotateXY | preprocessing.py:26 | one row times the rotation matrix keeps z and the label, and the identity rotation keeps the row |
| Preprocessing.Rotate | preprocessing.py:23-27 | the rotation keeps the number of points, the z column and the labels |
| Preprocessing.RotateToCenter | preprocessing.py:7-27 | the same, for the centroid's own angle |
| Preprocessing.CentroidAngleOnUnitCircle | preprocessing.py:17-21 | cos² + sin² = 1 and sin ≥ 0 for the angle taken from the centroid |
| Preprocessing.RotateXYPreservesNorm | preprocessing.py:23-26 | the rotation keeps every point's top-down distance from the origin |
| Preprocessing.RotateXYPreservesDistance | preprocessing.py:23-26 | the rotation keeps top-down distances between points |
| Preprocessing.RotateToCenterIsRigid | preprocessing.py:7-27 | a rotated frustum has the same top-down norms and pairwise distances as the original |
| Preprocessing.RotatedCentroid | preprocessing.py:23-27 | the rotated centroid is the rotation of the centroid; z and label means are unchanged |
| Preprocessing.RotatedMeanX | preprocessing.py:26 | the mean of the rotated x column is c·mean x + s·mean y |
| Preprocessing.RotatedMeanY | preprocessing.py:26 | the mean of the rotated y column is c·mean y − s·mean x |
| Preprocessing.RotateToCenterAlignsCentroid | preprocessing.py:8-9 | when the centroid's y is not negative, the rotated mean y is 0 and the rotated mean x is the centroid's length |
| Preprocessing.RotateToCenterOverturnsCentroid | preprocessing.py:17-26 | when the centroid's y is negative, the rotated mean y is 2·mx·my/norm, which is 0 only when mx is 0 (`RotateToCenterCentersIff`) |
| Preprocessing.RotateToCenterExample | preprocessing.py:17-26 | the centroid (3, −4) gets cos 0.6 and sin 0.8 and is sent to (−1.4, −4.8), not onto the x axis |
| Preprocessing.RotateToCenterCentersIff | preprocessing.py:8-9 | the rotated mean y is 0 if and only if the centroid's y is not negative or its x is 0 |
| Preprocessing.IsScaleRow | preprocessing.py:39-40 | `sd` is the row `std(axis=0)` of a non-empty frustum, and its three coordinate deviations are positive so the division at line 40 is defined |
| Preprocessing.ScaleStandard | preprocessing.py:30-42 | standardising keeps the number of points and the labels |
| Preprocessing.ScaleStandardStandardizes | preprocessing.py:39-42 | every standardised coordinate column has mean 0 and population variance 1 |
| Preprocessing.ScaleStandardInvertible | preprocessing.py:40 | multiplying back by the deviation and adding the mean recovers every coordinate |
| Preprocessing.ConstantColumnHasNoScaleRow | preprocessing.py:39-40 | a frustum whose x column is constant has no positive deviation to divide by |
| Stats.Mean | preprocessing.py:17 | `mean` of one column: the sum over the count |
| Stats.Variance | preprocessing.py:39 | the population variance (ddof 0): the mean squared deviation from the mean |
| Stats.IsStd | preprocessing.py:39 | `s` is the non-negative square root of the population variance |
| Points.ColumnMeans | preprocessing.py:17 | `mean(axis=0)`: the mean of each of the four columns |
| Points.IsColumnStd | preprocessing.py:39 | `std(axis=0)`: each of the four entries is its column's population standard deviation |
| Stats.MeanOfConstant | preprocessing.py:40 | a column whose values are all c has mean c |
| Stats.StandardizedColumn | preprocessing.py:39-40 | (x − mean)/std has mean 0 and variance 1 |
| Stats.MeanOfCombination | preprocessing.py:26 | the mean of a·x + b·y is a·mean x + b·mean y |
| Stats.ConstantHasZeroVariance | preprocessing.py:39 | a constant column has standard deviation 0 |
| Stats.MeanPositive | train.py:53 | the mean of positive values is positive |
| Train.PreprocessRawTrain | train.py:38-56 | every frustum is rotated then standardised; the scale factor and the mean are the column means, over frustums, of the deviation rows and mean rows, cut to three columns; the scale factor is positive |
| Train.RotatedMeans | train.py:51 | `mean_list`: the mean row of every rotated frustum, one per frustum |
| Train.ScaleFactorPositive | train.py:53 | the averaged scale factor is positive in all three coordinates |
| Train.TrainMeanCentered | train.py:46-54 | if no training centroid lies below the x axis, the mean handed on has y = 0 |
| Train.Standardize | train.py:68 | standardising keeps the number of points |
| Train.StandardizeInvertible | train.py:68 | standardising with a nonzero scale factor is undone by scaling back and adding the mean |
| Train.PreprocessRawVal | train.py:59-74 | every validation frustum is rotated, its coordinates are standardised with the training statistics, and its labels are kept |
| Train.StandardizeMatchesScaleStandard | train.py:68 | standardising with a frustum's own statistics is what `scale_standard` does to its coordinates |
| Points.ColumnMeansSingleton | train.py:53-54 | the mean row of one row is that row |
| Train.TrainAndValAgreeOnOneFrustum | train.py:38-74 | with one training frustum, validating on it reproduces its scaled training coordinates |
| Train.Join | train.py:76-83 | joining coordinates and labels gives one point per pair |
| Train.DataAndLabelSplit | train.py:76-83 | the outputs are the coordinate columns and the label column of every frustum |
| Train.JoinSplit | train.py:76-83 | joining the split halves gives the frustum back |
| Train.SplitJoin | train.py:76-83 | splitting a joined frustum gives the halves back |
| Train.Gather | train.py:98-99 | a gather returns one element of the input per index |
| Train.IsMask | train.py:94-96 | `num_points` indices, each in [0, size/3), the number of points in the frustum |
| Train.GatherKeepsLabelsAligned | train.py:98-99 | gathering coordinates and labels with the same mask keeps every label with its point |
| Train.SampleData | train.py:85-104 | an error occurs exactly when points are requested from an empty frustum, where the draw has no value to choose; otherwise each output gathers `num_points` in-range indices from the points and labels |
| Train.Flip | train.py:107-112 | a flip keeps the labels and the number of points, and a draw below 0.5 keeps the points |
| Train.FlipMirrorsY | train.py:107-112 | a flip on a draw ≥ 0.5 negates every y and nothing else; the labels never change |
| Train.FlipTwice | train.py:107-112 | flipping twice with the same draw gives back the points |

## Left out

- Reading files, `os.listdir` and `np.load` are left out. The directory is a listing plus a map from names to file contents. A listed `.npz` file missing from the map is excluded by a precondition.
- The command line, `main`, `get_arguments`, the `tf.data` pipeline, batching, the network, its training and the `__main__` script of `preprocessing.py` are left out. None of them is data preparation.
- `mock_file.py` is not part of this model.
- Randomness is a parameter. The masks of `sample_data` and the uniform draw `u` of `flip` are inputs.
- Floating point, `arccos`, `cos`, `sin`, `sqrt` and `std` are modelled on exact reals. The angle and the deviation row are parameters constrained by `IsCentroidAngle` and `IsColumnStd`.
- Preprocessing.RotateToCenter: a frustum whose centroid is the origin, where the source divides by zero and produces NaN, is excluded. `IsCentroidAngle` requires a positive norm.
- Preprocessing.ScaleStandard: a frustum with a zero coordinate deviation, where the source divides by zero, is excluded. `IsScaleRow` requires positive deviations. The label column's deviation is computed but unused, so it may be zero.
- Train.PreprocessRawTrain: calls `scale_standard(…, cache_values=True)`. That variant returns the deviation row and the mean row, and it does not exist in `preprocessing.py`. The model takes it to return the four-column deviation row and mean row of the rotated frustum. An empty training set, where the source averages an empty array, is excluded by a precondition. So is an empty frustum in the training set: the source takes the mean of its empty slice, which is NaN, and that NaN row makes `scale_factor` and `mean` NaN at lines 53-54. `RotatedMeans`, `ScaleFactorPositive` and `TrainMeanCentered` carry the same precondition.
- Train.PreprocessRawVal: a zero scale factor is excluded by a precondition. Training always produces a positive one (`ScaleFactorPositive`).
- Train.SampleData: a negative `num_points`, which TensorFlow rejects as a shape, is excluded by the type `nat`.
- Train.SampleData: the error value carries the index of the first empty frustum. That index is a model addition: the source fails with TensorFlow's `InvalidArgumentError` ("Need minval < maxval"), which names no frustum, and under `@tf.function` the per-frustum draws are not ordered.
- Train.SampleData: the extra axis added by `tf.expand_dims` and the final `tf.stack` are not modelled. The result is a sequence of per-frustum samples.
- Listing.SortNames: sort stability is not modelled. Names in one directory are unique.
- Stats.ConstantHasZeroVariance: proves only that a constant column has zero variance, not the converse.
