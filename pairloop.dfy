/** The all-pairs loop shared by angular_dispersion_calculation and
    cos_disp_calculations: for every extracted point i it collects the distances
    and relative angles to the points j > i, one row per i, and the rows are then
    concatenated. The relative angles of a row come from calc_rel_angle_crossn,
    whose single-pair branch serves the one row of length 1. At the last i the
    row is empty, the guard skips the angle computation, and the angle row of the
    previous iteration is appended a second time; `[:-1]` drops it again. */
module PairStatistics {
  import opened Common
  import opened PyArray
  import opened UpperTriangle
  import opened RelativeAngle
  import opened PixelExtraction

  /** dx**2 + dy**2 on the integer pixel offsets. */
  function SquaredDistance(dx: int, dy: int): int {
    dx * dx + dy * dy
  }

  /** The distance of points i and j: sqrt of their squared pixel distance. */
  function PairDistance(m: Numerics, x: seq<int>, y: seq<int>, i: nat, j: nat): real
    requires |y| == |x| && i < |x| && j < |x|
  {
    m.sqrt(SquaredDistance(x[i] - x[j], y[i] - y[j]) as real)
  }

  /** The relative angle the loop computes for the pair i < j of n = |phi| points:
      row i has n - 1 - i entries, so only row n - 2 takes the single-pair branch. */
  function LoopAngle(m: Numerics, phi: seq<real>, i: nat, j: nat): real
    requires i < j < |phi|
  {
    if i + 2 == |phi| then SingleAngle(m, phi[i], phi[j]) else BatchAngle(m, phi[i], phi[j])
  }

  /** `delta_r_arr` at outer index i. */
  function DistanceRow(m: Numerics, x: seq<int>, y: seq<int>, i: nat): (r: seq<real>)
    requires |y| == |x| && i < |x|
    ensures |r| == |x| - 1 - i
  {
    seq(|x| - 1 - i, k requires 0 <= k < |x| - 1 - i => PairDistance(m, x, y, i, i + 1 + k))
  }

  /** `delta_phi_arr` as computed at outer index i, for every i but the last. */
  function AngleRow(m: Numerics, phi: seq<real>, i: nat): (r: seq<real>)
    requires i + 1 < |phi|
    ensures |r| == |phi| - 1 - i
  {
    seq(|phi| - 1 - i, k requires 0 <= k < |phi| - 1 - i => LoopAngle(m, phi, i, i + 1 + k))
  }

  /** The lists `delta_r` and `delta_phi` when the loop ends: one row per point each. */
  datatype PairRows = PairRows(distances: seq<seq<real>>, angles: seq<seq<real>>)

  /** What the loop leaves behind for n points: row i of the distances is
      DistanceRow(i), row i of the angles is AngleRow(i) for i < n - 1, and the
      last angle row repeats the one before it. */
  predicate LoopRows(m: Numerics, x: seq<int>, y: seq<int>, phi: seq<real>, rows: PairRows)
    requires |x| == |phi| && |y| == |phi|
  {
    var n := |phi|;
    && |rows.distances| == n && |rows.angles| == n
    && (forall i :: 0 <= i < n ==> rows.distances[i] == DistanceRow(m, x, y, i))
    && (forall i :: 0 <= i < n - 1 ==> rows.angles[i] == AngleRow(m, phi, i))
    && (n >= 2 ==> rows.angles[n - 1] == rows.angles[n - 2])
  }

  /** Lines 76-78 (dev 40-42) at outer index i: the offsets to every later point
      and their Euclidean lengths. */
  method DistanceRowAt(m: Numerics, x: seq<int>, y: seq<int>, i: nat) returns (deltaRArr: seq<real>)
    requires |y| == |x| && i < |x|
    ensures deltaRArr == DistanceRow(m, x, y, i)
  {
    var n := |x|;
    var dx := seq(n - 1 - i, k requires 0 <= k < n - 1 - i => x[i] - x[i + 1 + k]);
    var dy := seq(n - 1 - i, k requires 0 <= k < n - 1 - i => y[i] - y[i + 1 + k]);
    deltaRArr := seq(|dx|, k requires 0 <= k < |dx| => m.sqrt(SquaredDistance(dx[k], dy[k]) as real));
    forall k | 0 <= k < n - 1 - i
      ensures deltaRArr[k] == PairDistance(m, x, y, i, i + 1 + k)
    {
    }
  }

  /** Lines 80 and 83 (dev 45 and 48) at an outer index i whose row is not empty:
      phi[i] repeated against every later angle, through calc_rel_angle_crossn. */
  method AngleRowAt(m: Numerics, phi: seq<real>, i: nat) returns (deltaPhiArr: seq<real>)
    requires i + 1 < |phi|
    ensures deltaPhiArr == AngleRow(m, phi, i)
  {
    var n := |phi|;
    var phiRef := seq(n - 1 - i, _ => phi[i]);
    var rel := CalcRelAngleCrossn(m, phiRef, phi[i + 1..]);
    assert rel.Angles? && |rel.values| == n - 1 - i;
    forall k | 0 <= k < n - 1 - i
      ensures rel.values[k] == LoopAngle(m, phi, i, i + 1 + k)
    {
      assert phiRef[k] == phi[i] && phi[i + 1..][k] == phi[i + 1 + k];
    }
    deltaPhiArr := rel.values;
  }

  /** The pair loop. `deltaPhiArr` is None until it is first assigned; reading it
      unassigned (one point only) is the UnboundLocalError of the append. */
  method AccumulatePairs(m: Numerics, x: seq<int>, y: seq<int>, phi: seq<real>) returns (r: Result<PairRows>)
    requires |x| == |phi| && |y| == |phi|
    ensures r.Err? <==> |phi| == 1
    ensures r.Err? ==> r.error == UnboundDeltaPhiArr
    ensures r.Ok? ==> LoopRows(m, x, y, phi, r.value)
  {
    var n := |phi|;
    var deltaR: seq<seq<real>> := [];
    var deltaPhi: seq<seq<real>> := [];
    var deltaPhiArr: Option<seq<real>> := None;
    for i := 0 to n
      invariant |deltaR| == i && |deltaPhi| == i
      invariant forall r :: 0 <= r < i ==> deltaR[r] == DistanceRow(m, x, y, r)
      invariant forall r :: 0 <= r < i && r < n - 1 ==> deltaPhi[r] == AngleRow(m, phi, r)
      invariant forall r :: 1 <= r < i && r == n - 1 ==> deltaPhi[r] == AngleRow(m, phi, n - 2)
      invariant n == 1 ==> i == 0
      invariant i == 0 ==> deltaPhiArr == None
      invariant 0 < i < n ==> deltaPhiArr == Some(AngleRow(m, phi, i - 1))
    {
      var deltaRArr := DistanceRowAt(m, x, y, i);
      var szPhi := |deltaRArr|;
      if szPhi > 0 {
        var row := AngleRowAt(m, phi, i);
        deltaPhiArr := Some(row);
      }
      if deltaPhiArr.None? {
        return Err(UnboundDeltaPhiArr);
      }
      deltaR := deltaR + [deltaRArr];
      deltaPhi := deltaPhi + [deltaPhiArr.value];
    }
    r := Ok(PairRows(deltaR, deltaPhi));
  }

  /** Lines 91-92 (dev 56-57) before scaling: np.concatenate of the distance rows
      and of the angle rows without the last one; numpy refuses to concatenate an
      empty list. */
  function ConcatenatePairs(rows: PairRows): (r: Result<(seq<real>, seq<real>)>)
    ensures r.Err? <==> |rows.distances| == 0 || |rows.angles| <= 1
    ensures r.Err? ==> r.error == EmptyConcatenate
  {
    var kept := Slice(rows.angles, 0, -1);
    if |rows.distances| == 0 || |kept| == 0 then Err(EmptyConcatenate)
    else Ok((Flatten(rows.distances), Flatten(kept)))
  }

  /** Reference definition: the distance of every pair i < j, in visiting order. */
  function PairDistances(m: Numerics, x: seq<int>, y: seq<int>): seq<real>
    requires |y| == |x|
  {
    var ps := UpperPairs(|x|);
    seq(|ps|, k requires 0 <= k < |ps| => PairDistance(m, x, y, ps[k].0, ps[k].1))
  }

  /** Reference definition: the relative angle of every pair i < j, in visiting order. */
  function PairAngles(m: Numerics, phi: seq<real>): seq<real>
  {
    var ps := UpperPairs(|phi|);
    seq(|ps|, k requires 0 <= k < |ps| => LoopAngle(m, phi, ps[k].0, ps[k].1))
  }

  function DistanceAt(m: Numerics, x: seq<int>, y: seq<int>): (nat, nat) --> real
    requires |y| == |x|
  {
    (a: nat, b: nat) requires a < b < |x| => PairDistance(m, x, y, a, b)
  }

  function AngleAt(m: Numerics, phi: seq<real>): (nat, nat) --> real
  {
    (a: nat, b: nat) requires a < b < |phi| => LoopAngle(m, phi, a, b)
  }

  /** Both reference lists hold one entry per unordered pair: n(n-1)/2. */
  lemma PairListsLength(m: Numerics, x: seq<int>, y: seq<int>, phi: seq<real>)
    requires |x| == |phi| && |y| == |phi|
    ensures |PairDistances(m, x, y)| == |phi| * (|phi| - 1) / 2
    ensures |PairAngles(m, phi)| == |phi| * (|phi| - 1) / 2
  {
    UpperPairsExact(|phi|);
  }

  /** The main alignment result: for at least two points, concatenating the rows
      the loop leaves (with the stale last angle row dropped) yields exactly the
      distance and the relative angle of every pair i < j, in the same order, so
      entry k of both lists belongs to the same pair. */
  lemma PairsAligned(m: Numerics, x: seq<int>, y: seq<int>, phi: seq<real>, rows: PairRows)
    requires |x| == |phi| && |y| == |phi| && |phi| >= 2
    requires LoopRows(m, x, y, phi, rows)
    ensures ConcatenatePairs(rows) == Ok((PairDistances(m, x, y), PairAngles(m, phi)))
  {
    DistancesAligned(m, x, y, phi, rows);
    AnglesAligned(m, x, y, phi, rows);
  }

  lemma DistancesAligned(m: Numerics, x: seq<int>, y: seq<int>, phi: seq<real>, rows: PairRows)
    requires |x| == |phi| && |y| == |phi| && |phi| >= 2
    requires LoopRows(m, x, y, phi, rows)
    ensures Flatten(rows.distances) == PairDistances(m, x, y)
  {
    var n := |phi|;
    FlattenRows(rows.distances, n, DistanceAt(m, x, y), n);
    assert rows.distances[..n] == rows.distances;
  }

  lemma AnglesAligned(m: Numerics, x: seq<int>, y: seq<int>, phi: seq<real>, rows: PairRows)
    requires |x| == |phi| && |y| == |phi| && |phi| >= 2
    requires LoopRows(m, x, y, phi, rows)
    ensures Flatten(Slice(rows.angles, 0, -1)) == PairAngles(m, phi)
  {
    var n := |phi|;
    SliceDropLast(rows.angles);
    FlattenRows(rows.angles, n, AngleAt(m, phi), n - 1);
    assert PairsBefore(n, n) == PairsBefore(n, n - 1) + RowPairs(n, n - 1);
  }

  /** The last iteration: its distance row is empty while its angle row is the
      stale length-1 row of pair (n-2, n-1), so before `[:-1]` the angle list is one
      entry longer than the distance list, and `[:-1]` removes exactly that row. */
  lemma LastIteration(m: Numerics, x: seq<int>, y: seq<int>, phi: seq<real>, rows: PairRows)
    requires |x| == |phi| && |y| == |phi| && |phi| >= 2
    requires LoopRows(m, x, y, phi, rows)
    ensures rows.distances[|phi| - 1] == []
    ensures rows.angles[|phi| - 1] == [SingleAngle(m, phi[|phi| - 2], phi[|phi| - 1])]
    ensures |Flatten(rows.angles)| == |Flatten(rows.distances)| + 1
    ensures Slice(rows.angles, 0, -1) == rows.angles[..|phi| - 1]
  {
    var n := |phi|;
    SliceDropLast(rows.angles);
    assert AngleRow(m, phi, n - 2)[0] == LoopAngle(m, phi, n - 2, n - 1);
    FlattenedLengths(m, x, y, phi, rows);
  }

  lemma FlattenedLengths(m: Numerics, x: seq<int>, y: seq<int>, phi: seq<real>, rows: PairRows)
    requires |x| == |phi| && |y| == |phi| && |phi| >= 2
    requires LoopRows(m, x, y, phi, rows)
    ensures |Flatten(rows.angles)| == |Flatten(rows.distances)| + 1
  {
    var n := |phi|;
    FlattenRows(rows.distances, n, DistanceAt(m, x, y), n - 1);
    FlattenRows(rows.angles, n, AngleAt(m, phi), n - 1);
    var ds, ans := rows.distances, rows.angles;
    assert ds == ds[..n - 1] + [ds[n - 1]];
    assert ans == ans[..n - 1] + [ans[n - 1]];
    FlattenSnoc(ds[..n - 1], ds[n - 1]);
    FlattenSnoc(ans[..n - 1], ans[n - 1]);
  }

  /** The last visited pair is (n-2, n-1) and every earlier pair has i < n - 2. */
  lemma {:induction false} LastPair(n: nat)
    requires n >= 2
    ensures |UpperPairs(n)| >= 1
    ensures UpperPairs(n)[|UpperPairs(n)| - 1] == (n - 2, n - 1)
    ensures forall k :: 0 <= k < |UpperPairs(n)| - 1 ==> UpperPairs(n)[k].0 < n - 2
  {
    var prev: seq<Pair> := PairsBefore(n, n - 2);
    assert PairsBefore(n, n) == PairsBefore(n, n - 1) + RowPairs(n, n - 1);
    assert PairsBefore(n, n - 1) == prev + RowPairs(n, n - 2);
    assert RowPairs(n, n - 2) == [(n - 2, n - 1)];
    assert UpperPairs(n) == prev + [(n - 2, n - 1)];
  }

  /** Only the pair (n-2, n-1), the last one, goes through the single-pair branch
      (raw dot product); every other pair goes through the batch branch (absolute
      dot product). */
  lemma SingleBranchOnlyForLastPair(m: Numerics, phi: seq<real>)
    requires |phi| >= 2
    ensures var ps, angles := UpperPairs(|phi|), PairAngles(m, phi);
      && |angles| == |ps| >= 1
      && angles[|ps| - 1] == SingleAngle(m, phi[|phi| - 2], phi[|phi| - 1])
      && forall k :: 0 <= k < |ps| - 1 ==> angles[k] == BatchAngle(m, phi[ps[k].0], phi[ps[k].1])
  {
    LastPair(|phi|);
  }

  /** Where the last pair's directions have a non-negative dot product, every
      entry of the angle list is the batch-branch angle. */
  lemma AllBatchOnNonNegativeLastDot(m: Numerics, phi: seq<real>)
    requires |phi| >= 2
    requires DirDot(m, phi[|phi| - 2], phi[|phi| - 1]) >= 0.0
    ensures var ps := UpperPairs(|phi|);
      forall k :: 0 <= k < |ps| ==> PairAngles(m, phi)[k] == BatchAngle(m, phi[ps[k].0], phi[ps[k].1])
  {
    SingleBranchOnlyForLastPair(m, phi);
    BranchesAgreeOnNonNegativeDot(m, phi[|phi| - 2], phi[|phi| - 1]);
  }

  lemma SquareAtLeastOne(d: int)
    requires d != 0
    ensures d * d >= 1
  {
    if d < 0 {
      assert d * d == (-d) * (-d);
    }
  }

  /** Extracted cells are pairwise distinct, so every pair of extracted points is at
      squared pixel distance at least 1. */
  lemma ExtractedPairsApart(g: Grid, i: nat, j: nat)
    requires i < j < |ValidPixels(g)|
    ensures var ps := ValidPixels(g);
      SquaredDistance(RowIndices(ps)[i] - RowIndices(ps)[j], ColIndices(ps)[i] - ColIndices(ps)[j]) >= 1
  {
    var ps := ValidPixels(g);
    ValidPixelsExact(g);
    assert RowMajorBefore(ps[i], ps[j]);
    var dx, dy := RowIndices(ps)[i] - RowIndices(ps)[j], ColIndices(ps)[i] - ColIndices(ps)[j];
    if dx != 0 {
      SquareAtLeastOne(dx);
      assert dy * dy >= 0;
    } else {
      SquareAtLeastOne(dy);
    }
  }
}
