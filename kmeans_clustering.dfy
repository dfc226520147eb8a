/** The K-means engine: a class that owns the point table, the centroid
    set, the assignment vector and the error total, with the expectation
    step, the maximisation step and the label output, each proved against
    the specification in KMeansSpec. */
module KMeansClustering {
  import opened KMeansSpec

  datatype Option<T> = None | Some(value: T)

  datatype Result<T, E> = Ok(value: T) | Err(error: E)

  /** Why construction fails: the name list does not have one name per
      cluster (an IndexError in the Python code), or the input file is not
      there (an IOError). */
  datatype InitError = ClusterNameCountMismatch | InputFileMissing

  /** The name map: cluster index `i` in `0..k-1` to `clusterNames[i]`,
      built one entry at a time. */
  method MapNames(k: nat, clusterNames: seq<string>) returns (nameMap: map<int, string>)
    requires k <= |clusterNames|
    ensures forall i :: i in nameMap <==> 0 <= i < k
    ensures forall i :: 0 <= i < k ==> nameMap[i] == clusterNames[i]
  {
    nameMap := map[];
    for i := 0 to k
      invariant forall j :: j in nameMap <==> 0 <= j < i
      invariant forall j :: 0 <= j < i ==> nameMap[j] == clusterNames[j]
    {
      nameMap := nameMap[i := clusterNames[i]];
    }
  }

  /** Validates the configuration and builds the engine. The name count is
      checked first, then the presence of the input file, which the caller
      reports as `inputFound`. The point table and the initial centroids,
      which the Python code reads from the file and draws at random, are given. */
  method Create(k: nat, clusterNames: seq<string>, inputFound: bool,
                inputData: seq<Point>, initialCentroids: seq<Point>)
    returns (r: Result<KMeansCluster, InitError>)
    requires |clusterNames| == k && inputFound ==>
      1 <= |inputData| && Rectangular(inputData, |inputData[0]|)
    requires |clusterNames| == k && inputFound ==>
      |initialCentroids| == k && Rectangular(initialCentroids, |inputData[0]|)
    ensures |clusterNames| != k ==> r == Err(ClusterNameCountMismatch)
    ensures |clusterNames| == k && !inputFound ==> r == Err(InputFileMissing)
    ensures |clusterNames| == k && inputFound ==> r.Ok?
    ensures r.Ok? ==> var e := r.value;
      && fresh(e) && fresh(e.centroids) && fresh(e.currentCluster)
      && e.Valid() && e.NamesMapped() && e.k == k && e.clusterNames == clusterNames
      && e.inputData == inputData && e.dimensions == |inputData[0]|
      && e.Centroids() == initialCentroids
      && e.currentCluster[..] == seq(|inputData|, _ => 0)
      && e.totalErrorMetric == None
  {
    if |clusterNames| != k {
      return Err(ClusterNameCountMismatch);
    }
    if !inputFound {
      return Err(InputFileMissing);
    }
    var engine := new KMeansCluster(k, clusterNames, inputData, initialCentroids);
    return Ok(engine);
  }

  class KMeansCluster {
    const k: nat
    ghost const clusterNames: seq<string>
    const nameMap: map<int, string>
    const dimensions: nat
    const numRows: nat
    /** The point table; the engine never writes to it. */
    const inputData: seq<Point>
    /** `k` rows of `dimensions` coordinates, overwritten in place. */
    const centroids: array2<real>
    /** One cluster index per row. */
    const currentCluster: array<int>
    var totalErrorMetric: Option<real>

    /** The shapes the engine keeps: `numRows` points of `dimensions`
        coordinates, `k` centroids of as many, one cluster index per row. */
    ghost predicate Valid()
    {
      && |inputData| == numRows && Rectangular(inputData, dimensions)
      && centroids.Length0 == k && centroids.Length1 == dimensions
      && currentCluster.Length == numRows
    }

    /** The name map has the keys `0..k-1` and sends `i` to the `i`-th name. */
    ghost predicate NamesMapped()
    {
      && |clusterNames| == k
      && (forall i :: i in nameMap <==> 0 <= i < k)
      && (forall i :: 0 <= i < k ==> nameMap[i] == clusterNames[i])
    }

    /** Every row's cluster index names one of the `k` clusters. */
    predicate AssignmentInRange()
      reads currentCluster
    {
      InRange(currentCluster[..], k)
    }

    /** The centroid set as a sequence of points. */
    ghost function Centroids(): (cs: seq<Point>)
      reads centroids
      ensures |cs| == centroids.Length0 && Rectangular(cs, centroids.Length1)
    {
      seq(centroids.Length0, c requires 0 <= c < centroids.Length0 reads centroids =>
        seq(centroids.Length1, d requires 0 <= d < centroids.Length1 reads centroids => centroids[c, d]))
    }

    /** The engine for `k` clusters named by `clusterNames` over the given
        point table; every row starts in cluster 0 and there is no error
        total yet. */
    constructor (k: nat, clusterNames: seq<string>, inputData: seq<Point>, initialCentroids: seq<Point>)
      requires |clusterNames| == k
      requires 1 <= |inputData| && Rectangular(inputData, |inputData[0]|)
      requires |initialCentroids| == k && Rectangular(initialCentroids, |inputData[0]|)
      ensures Valid() && NamesMapped() && fresh(centroids) && fresh(currentCluster)
      ensures this.k == k && this.clusterNames == clusterNames
      ensures this.inputData == inputData && dimensions == |inputData[0]|
      ensures Centroids() == initialCentroids
      ensures currentCluster[..] == seq(|inputData|, _ => 0)
      ensures totalErrorMetric == None
    {
      var dims := |inputData[0]|;
      var names := MapNames(k, clusterNames);
      this.k := k;
      this.clusterNames := clusterNames;
      nameMap := names;
      dimensions := dims;
      numRows := |inputData|;
      this.inputData := inputData;
      centroids := new real[k, dims]((c, d) requires 0 <= c < k && 0 <= d < dims => initialCentroids[c][d]);
      currentCluster := new int[|inputData|](_ => 0);
      totalErrorMetric := None;
      new;
      assert forall c :: 0 <= c < k ==> Centroids()[c] == initialCentroids[c];
    }

    /** Squared distance from row `row` to centroid `centroid`, summed one
        dimension at a time. */
    method SquaredDistance(row: nat, centroid: nat) returns (tmp: real)
      requires Valid() && row < numRows && centroid < k
      ensures tmp == SqDist(inputData[row], Centroids()[centroid])
    {
      ghost var p, q := inputData[row], Centroids()[centroid];
      tmp := 0.0;
      for dimension := 0 to dimensions
        invariant tmp == SqDistTo(p, q, dimension)
      {
        tmp := tmp + Square(inputData[row][dimension] - centroids[centroid, dimension]);
      }
    }

    /** Assigns every row to its nearest centroid and recomputes the error
        total, from zero, as the sum of the rows' distances to their
        centroids. The distance is `sqrt` of the squared distance; `sqrt` is
        a parameter because Dafny's reals have no square root, and any
        strictly increasing function stands for it. The total is
        accumulated in a local and stored once every row is done. */
    method ExpectationStep(sqrt: real -> real)
      requires Valid() && k >= 1 && StrictlyIncreasing(sqrt)
      modifies currentCluster, this`totalErrorMetric
      ensures AssignmentInRange()
      ensures currentCluster[..] == Assignment(inputData, Centroids(), dimensions)
      ensures forall i :: 0 <= i < numRows ==>
        currentCluster[i] == NearestInRoot(inputData[i], Centroids(), sqrt, k)
      ensures totalErrorMetric == Some(Cost(inputData, Centroids(), dimensions, currentCluster[..], sqrt))
    {
      ghost var cs := Centroids();
      var error := 0.0;
      for row := 0 to numRows
        invariant Centroids() == cs
        invariant forall i :: 0 <= i < row ==> 0 <= currentCluster[i] < k
        invariant NearestUpTo(inputData, cs, dimensions, currentCluster[..], row)
        invariant error == CostUpTo(inputData, cs, dimensions, currentCluster[..], sqrt, row)
      {
        var closestCentroid, closestSquared := ClosestCentroid(row, cs);
        AssignNext(inputData, cs, dimensions, currentCluster[..], row, closestCentroid, sqrt);
        currentCluster[row] := closestCentroid;
        error := error + sqrt(closestSquared);
      }
      totalErrorMetric := Some(error);
      NearestEverywhere(inputData, cs, dimensions, currentCluster[..]);
      AssignmentUnderRoot(inputData, cs, dimensions, sqrt);
    }

    /** The centroid nearest to row `row` and the row's squared distance to
        it, scanning the centroids in index order and moving to a later one
        only when it is strictly nearer. `cs` names the centroid set. */
    method ClosestCentroid(row: nat, ghost cs: seq<Point>) returns (closestCentroid: nat, closestSquared: real)
      requires Valid() && k >= 1 && row < numRows && cs == Centroids()
      ensures IsNearest(inputData[row], cs, closestCentroid)
      ensures closestSquared == SqDist(inputData[row], cs[closestCentroid])
    {
      ghost var p := inputData[row];
      // `found` is false while the closest distance is still infinite.
      var found := false;
      closestSquared, closestCentroid := 0.0, 0;
      for centroid := 0 to k
        invariant found <==> centroid > 0
        invariant closestCentroid <= centroid && (found ==> closestCentroid < centroid)
        invariant found ==> closestSquared == SqDist(p, cs[closestCentroid])
        invariant forall c :: 0 <= c < centroid ==> closestSquared <= SqDist(p, cs[c])
        invariant forall c :: 0 <= c < closestCentroid ==> SqDist(p, cs[c]) > closestSquared
      {
        var tmp := SquaredDistance(row, centroid);
        if !found || tmp < closestSquared {
          closestSquared := tmp;
          closestCentroid := centroid;
          found := true;
        }
      }
    }

    /** Counts the rows of each cluster and sums their coordinates:
        `counts[c]` rows are assigned to `c`, and `totals[d, c]` is the sum
        of coordinate `d` over them. */
    method Tally() returns (counts: array<int>, totals: array2<real>)
      requires Valid() && AssignmentInRange()
      ensures fresh(counts) && fresh(totals)
      ensures counts.Length == k && totals.Length0 == dimensions && totals.Length1 == k
      ensures forall c :: 0 <= c < k ==> counts[c] == Count(currentCluster[..], c)
      ensures forall d, c :: 0 <= d < dimensions && 0 <= c < k ==>
        totals[d, c] == Total(inputData, dimensions, currentCluster[..], c, d)
    {
      ghost var a := currentCluster[..];
      totals := new real[dimensions, k]((d, c) => 0.0);
      counts := new int[k](_ => 0);
      for row := 0 to numRows
        invariant forall c :: 0 <= c < k ==> counts[c] == CountUpTo(a, c, row)
        invariant forall d, c :: 0 <= d < dimensions && 0 <= c < k ==>
          totals[d, c] == TotalUpTo(inputData, a, c, d, row)
      {
        var cluster := currentCluster[row];
        counts[cluster] := counts[cluster] + 1;
        for dimension := 0 to dimensions
          invariant forall c :: 0 <= c < k ==> counts[c] == CountUpTo(a, c, row + 1)
          invariant forall d, c :: 0 <= d < dimensions && 0 <= c < k ==>
            totals[d, c] == TotalUpTo(inputData, a, c, d, if d < dimension then row + 1 else row)
        {
          totals[dimension, cluster] := totals[dimension, cluster] + inputData[row][dimension];
        }
      }
    }

    /** Moves every centroid to the mean of the rows assigned to it. An
        empty cluster would divide by zero, so every cluster must have a
        row. */
    method MaximisationStep()
      requires Valid() && AssignmentInRange()
      requires NoEmptyCluster(currentCluster[..], k)
      modifies centroids
      ensures unchanged(currentCluster)
      ensures Centroids() == Means(inputData, dimensions, currentCluster[..], k)
    {
      ghost var a := currentCluster[..];
      var counts, totals := Tally();
      label tallied:
      for centroid := 0 to k
        invariant unchanged@tallied(counts, totals)
        invariant forall c, d :: 0 <= c < centroid && 0 <= d < dimensions ==>
          centroids[c, d] == Mean(inputData, dimensions, a, c, d)
      {
        assert counts[centroid] == Count(a, centroid) > 0;
        for dimension := 0 to dimensions
          invariant unchanged@tallied(counts, totals)
          invariant forall c, d :: 0 <= c < centroid && 0 <= d < dimensions ==>
            centroids[c, d] == Mean(inputData, dimensions, a, c, d)
          invariant forall d :: 0 <= d < dimension ==>
            centroids[centroid, d] == Mean(inputData, dimensions, a, centroid, d)
        {
          centroids[centroid, dimension] := totals[dimension, centroid] / (counts[centroid] as real);
        }
      }
      ghost var means := Means(inputData, dimensions, a, k);
      assert forall c :: 0 <= c < k ==> Centroids()[c] == means[c];
    }

    /** The label of every row, in row order: the name of the row's
        cluster. */
    method WriteResults() returns (labels: seq<string>)
      requires Valid() && NamesMapped() && AssignmentInRange()
      ensures |labels| == numRows
      ensures forall row :: 0 <= row < numRows ==> labels[row] == clusterNames[currentCluster[row]]
    {
      labels := [];
      for row := 0 to numRows
        invariant |labels| == row
        invariant forall i :: 0 <= i < row ==> labels[i] == clusterNames[currentCluster[i]]
      {
        labels := labels + [nameMap[currentCluster[row]]];
      }
    }
  }
}
