# K-means clustering engine, modelled in Dafny

This project models the engine class `KMeansCluster` of `k_means_clustering.py`.
The engine holds a point table of `numRows` rows with `dimensions` real
coordinates each. It also holds `k` centroids, an assignment vector with one
cluster index per row, and an error total. Three operations change or read
that state:

- The **expectation step** assigns every row to its nearest centroid under
  Euclidean distance. A tie goes to the lowest index, because a later centroid
  replaces the current choice only when it is strictly nearer. The step also
  recomputes the error total as the sum of the rows' distances to their
  centroids.
- The **maximisation step** counts the rows of each cluster and sums their
  coordinates. It then moves every centroid to the mean of its rows.
- The **label output** writes, row by row, the name of the row's cluster.

Construction checks the configuration first. It fails when the number of
cluster names is not `k`, and otherwise when the input file is missing. It
then builds the name map `0..k-1 -> name`.

The project has two modules.

- `KMeansSpec` (`kmeans_spec.dfy`) is the pure specification over
  `seq<seq<real>>`. It defines:
  - the squared distance `SqDist`;
  - the nearest centroid `Nearest`, a scan with the lowest-index tie-break;
  - `IsNearest`, a declarative characterisation of the nearest centroid;
  - the assignment `Assignment`;
  - the cost `Cost`;
  - per-cluster `Count`, `Total` and `Mean`.

  It also holds the lemmas about these definitions: optimality and uniqueness
  of the nearest centroid, least cost of the assignment, counts adding up to
  the number of rows, and the mean minimising the squared deviation.
- `KMeansClustering` (`kmeans_clustering.dfy`) is the imperative model. It
  defines:
  - the class `KMeansCluster`: the centroids in an `array2<real>`, the
    assignment in an `array<int>`, the error total in a mutable field;
  - the construction helpers `MapNames` and `Create`.

  Each method mirrors the loops of the Python code. It is proved against the
  specification functions, with loop invariants.

## Model

| member | source | states |
|---|---|---|
| KMeansClustering.MapNames | k_means_clustering.py:101-105 | the map's keys are exactly `0..k-1` and key `i` maps to the `i`-th name |
| KMeansClustering.Create | k_means_clustering.py:13-33 | a name count other than `k` fails with the name-count error; otherwise a missing input file fails with the input error; otherwise an engine is built with the given `k`, names, point table and initial centroids, the name map `0..k-1 -> names`, every row in cluster 0 and no error total |
| KMeansClustering.KMeansCluster.constructor | k_means_clustering.py:13-33 | the engine keeps `k`, the names, the point table and its dimensionality; the name map is `0..k-1 -> names`; the centroids are the initial ones; every row starts in cluster 0; there is no error total yet |
| KMeansClustering.KMeansCluster.SquaredDistance | k_means_clustering.py:55-57 | the per-dimension accumulation equals the squared Euclidean distance `SqDist` between the row and the centroid |
| KMeansClustering.KMeansCluster.ClosestCentroid | k_means_clustering.py:52-61 | the index returned is a nearest centroid and every lower index is strictly farther (`IsNearest`); the returned squared distance is the one to that centroid |
| KMeansClustering.KMeansCluster.ExpectationStep | k_means_clustering.py:48-64 | every entry is overwritten with the nearest centroid, `Assignment`, so every entry is in `0..k-1`; the error total is replaced by the sum over rows of `sqrt` of the squared distance to the assigned centroid; for any strictly increasing `sqrt`, every entry is also the centroid the root-comparing scan `NearestInRoot` picks; only the assignment and the error total change |
| KMeansClustering.KMeansCluster.Tally | k_means_clustering.py:68-74 | `counts[c]` is the number of rows assigned to `c`, and `totals[d, c]` is the sum of coordinate `d` over those rows |
| KMeansClustering.KMeansCluster.MaximisationStep | k_means_clustering.py:66-79 | every centroid becomes the mean of the rows assigned to it; the assignment and the point table are unchanged |
| KMeansClustering.KMeansCluster.WriteResults | k_means_clustering.py:121-122 | one label per row, in row order, and the label of a row is the name of its cluster |
| KMeansSpec.SqDistTo | k_means_clustering.py:55-57 | a sum of squared coordinate differences is never negative |
| KMeansSpec.NearestIn | k_means_clustering.py:54-61 | the scan over the first `n` centroids picks one of them |
| KMeansSpec.NearestInIsNearest | k_means_clustering.py:59-61 | the scan's choice is at least as near as every centroid scanned, and every lower index is strictly farther: the first strict improvement wins |
| KMeansSpec.AssignmentIsNearest | k_means_clustering.py:51-62 | every row's assigned centroid is in range, is at least as near as any centroid, and is strictly nearer than every centroid of lower index |
| KMeansSpec.NearestUnique | k_means_clustering.py:59-61 | `IsNearest(p, cs, j)` holds if and only if `j` is the index the scan picks |
| KMeansSpec.NearestEverywhere | k_means_clustering.py:51-62 | an assignment that sends every row to a nearest centroid equals `Assignment` |
| KMeansSpec.AssignNext | k_means_clustering.py:62-63 | writing a nearest choice for row `n` extends a nearest prefix by one row and adds that row's distance to the running error |
| KMeansSpec.NearestInRoot | k_means_clustering.py:52-61 | the scan as written, comparing square roots of the squared distances and replacing the choice only on a strictly smaller root, picks one of the first `n` centroids |
| KMeansSpec.NearestInRootAgrees | k_means_clustering.py:52-61 | under any strictly increasing root, the root-comparing scan and the squared-distance scan pick the same centroid on every prefix of the centroids |
| KMeansSpec.AssignmentUnderRoot | k_means_clustering.py:51-62 | under any strictly increasing root, every row's entry of `Assignment` is the centroid the root-comparing scan picks for that row |
| KMeansSpec.CostUpToMinimal | k_means_clustering.py:49-63 | over any prefix of rows, the nearest assignment costs no more than any other in-range assignment, for any distance that grows with the squared distance |
| KMeansSpec.AssignmentHasLeastCost | k_means_clustering.py:49-63 | the error total of the expectation step is the least error total over all assignments of rows to clusters |
| KMeansSpec.Assignment | k_means_clustering.py:51-62 | one entry per row, each in `0..k-1` |
| KMeansSpec.CountUpTo | k_means_clustering.py:71-72 | the count over the first `n` rows is at most `n` |
| KMeansSpec.CountIsCardinality | k_means_clustering.py:69-72 | the count of cluster `c` is the number of rows whose entry is `c` |
| KMeansSpec.CountsSumToRows | k_means_clustering.py:69-72 | when every entry is in `0..k-1`, the counts of the `k` clusters add up to the number of rows |
| KMeansSpec.SqDevExpand | k_means_clustering.py:71-78 | a cluster's squared deviation from `y` in one coordinate is the sum of squares, minus `2 y` times the total, plus the count times `y²` |
| KMeansSpec.MeanMinimisesSqDev | k_means_clustering.py:66-79 | in every coordinate, the mean the maximisation step writes has the least squared deviation from the cluster's rows of any value: the step minimises the squared error, not the error total of the expectation step |
| KMeansSpec.MeanCanRaiseErrorTotal | k_means_clustering.py:67 | on the rows 0, 0 and 10 in one cluster, moving the centroid from 0 to the mean raises the error total of unsquared distances from 10 to 40/3, for any root that maps a square to the absolute value |

## Left out

- File input and output: reading the CSV into the point table, counting its lines, and writing the result file. The point table and the initial centroids are constructor arguments, and `WriteResults` returns the labels.
- KMeansClustering.Create: requires, on the success path only, a non-empty rectangular point table and `k` initial centroids of its width. An empty input file makes `_set_dimensions` (k_means_clustering.py:85) fail on its first `__next__`; the model excludes that case rather than modelling the error.
- KMeansClustering.Create: the check that the input file exists is a boolean argument, `inputFound`, because the model has no file system. The order of the two checks is kept.
- Random seeding of the centroids with uniform values in `[-10, 10]`. Randomness is outside the model, so the initial centroids are given.
- The `em_algorithm` loop and its progress printing. The loop stops only when the error total repeats exactly, and nothing bounds the number of rounds. One round of each step is modelled; the repetition is not.
- The `error = …` line with three decimals. Float formatting is not modelled.
- Floating point: coordinates are exact reals, so rounding, infinities and NaN do not occur. `math.sqrt` is the parameter `sqrt` of `ExpectationStep`, because Dafny's reals have no square root.
- KMeansClustering.KMeansCluster.ClosestCentroid: compares squared distances, while the Python code compares their square roots. `KMeansSpec.NearestInRootAgrees` proves that the squared-distance scan and the root-comparing scan `NearestInRoot` pick the same centroid for any strictly increasing root, and `ExpectationStep` ensures its entries equal the root scan's picks. The `float("inf")` starting distance is a flag that is false until the first centroid is taken.
- KMeansClustering.KMeansCluster.ExpectationStep: requires `sqrt` to be strictly increasing on the non-negative reals, as `math.sqrt` is; nothing else about the square root is modelled.
- KMeansClustering.KMeansCluster.ExpectationStep: requires `k >= 1`. With no centroids the Python code would store `None` into the integer assignment array and fail.
- KMeansClustering.KMeansCluster.ExpectationStep: adds up the error in a local variable and stores it once every row is done. The Python code zeroes the field first and adds to it row by row. The value after the step is the same.
- KMeansClustering.KMeansCluster.MaximisationStep: requires every cluster to have at least one row. For an empty cluster the Python code divides `0.0` by `0.0` and stores NaN coordinates, which exact reals cannot represent.
- The `int16` type of the assignment array. Cluster indices are unbounded integers, so no wrap-around occurs for `k` above 32767.
- The counts are integers, where the Python code uses a float array. They are equal for any realistic row count.
- The dead test `closestDistance is None` on line 59 can never be true, so the model leaves it out.
- `data_generator.py` and both `__main__` blocks are test-data tooling and a demo run.

## Findings

| source | as written | input that shows it | evidently intended | confidence | as-written member | corrected member |
|---|---|---|---|---|---|---|
| k_means_clustering.py:67 | the comment says the maximisation step minimises `total_error_metric`, which lines 58 and 63 define as a sum of unsquared Euclidean distances | one-dimensional rows 0, 0 and 10, all in cluster 0: the error total is 10 with the centroid at 0 and 40/3 at the mean | moving each centroid to its cluster's mean minimises the squared error, coordinate by coordinate | high, proved on the model; not executed | KMeansSpec.MeanCanRaiseErrorTotal | KMeansSpec.MeanMinimisesSqDev |
