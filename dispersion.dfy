/** angular_dispersion_calculation and linear_fit: extraction of the valid pixels,
    the pair loop, the conversion of pair distances to physical units, the
    bin-count rule, the evenly spaced bin edges, the two binned means of the cosine
    of the relative angles (against distance and against squared distance) and
    the sentinel 1 put in front of each. */
module DispersionAnalysis {
  import opened Common
  import opened PyArray
  import opened PixelExtraction
  import opened UpperTriangle
  import opened PairStatistics

  /** linear_fit(x, m, b) = m * x + b at one point. */
  function LinearFitAt(x: real, slope: real, intercept: real): real {
    slope * x + intercept
  }

  /** linear_fit applied elementwise to an array. */
  function LinearFit(xs: seq<real>, slope: real, intercept: real): seq<real>
  {
    seq(|xs|, k requires 0 <= k < |xs| => LinearFitAt(xs[k], slope, intercept))
  }

  /** The line can be read back from its values: the intercept is its value at 0,
      and the slope is the difference quotient of any two distinct points. */
  lemma LinearFitRecovers(x1: real, x2: real, slope: real, intercept: real)
    requires x1 != x2
    ensures LinearFitAt(0.0, slope, intercept) == intercept
    ensures (LinearFitAt(x2, slope, intercept) - LinearFitAt(x1, slope, intercept)) / (x2 - x1) == slope
  {
    var d := x2 - x1;
    assert LinearFitAt(x2, slope, intercept) - LinearFitAt(x1, slope, intercept) == slope * d;
  }

  /** Two lines that agree at two distinct points are the same line. */
  lemma LinearFitDetermined(x1: real, x2: real, m1: real, b1: real, m2: real, b2: real)
    requires x1 != x2
    requires LinearFitAt(x1, m1, b1) == LinearFitAt(x1, m2, b2)
    requires LinearFitAt(x2, m1, b1) == LinearFitAt(x2, m2, b2)
    ensures m1 == m2 && b1 == b2
  {
    LinearFitRecovers(x1, x2, m1, b1);
    LinearFitRecovers(x1, x2, m2, b2);
    assert (m1 - m2) * (x2 - x1) == 0.0;
  }

  /** The number of bins: 21 without a beam, else five per beam over the edge length,
      rounded down. */
  function NBins(edgeLength: real, beamResolution: real): (r: int)
    ensures beamResolution == 0.0 ==> r == 21
    ensures beamResolution != 0.0 ==>
      r as real <= edgeLength / beamResolution * 5.0 < r as real + 1.0
  {
    if beamResolution == 0.0 then 21 else (edgeLength / beamResolution * 5.0).Floor
  }

  /** The four arrays returned: the binned mean cosine against distance, the bin
      edges, the binned mean cosine against squared distance, the squared edges. */
  datatype Curves = Curves(cosDisp: seq<real>, binEdgesNorm: seq<real>, cosDispSq: seq<real>, binEdgesSq: seq<real>)

  /** Lines 95-115 on the concatenated pair lists: the edge in pixels, the bin count,
      the edges, the two binned means and the sentinels. The edges scipy returns are
      the edges it was given. */
  function BinCurves(m: Numerics, binned: BinnedMean, deltaR: seq<real>, deltaPhi: seq<real>,
                     edgeLength: real, beamResolution: real, pixelScale: real): (r: Result<Curves>)
    ensures r == Err(ZeroPixelScale) <==> pixelScale == 0.0
    ensures pixelScale != 0.0 && NBins(edgeLength, beamResolution) < 0 ==> r == Err(NegativeBinCount)
    ensures r.Ok? ==> |r.value.cosDisp| >= 1 && r.value.cosDisp[0] == 1.0
    ensures r.Ok? ==> |r.value.cosDispSq| >= 1 && r.value.cosDispSq[0] == 1.0
  {
    if pixelScale == 0.0 then Err(ZeroPixelScale)
    else
      var binEdge := edgeLength / pixelScale;
      var nbins := NBins(edgeLength, beamResolution);
      if nbins < 0 then Err(NegativeBinCount)
      else
        var binEdges := Scaled(Linspace(0.0, binEdge, nbins), pixelScale);
        var cosines := Cosines(m, deltaPhi);
        match (binned(deltaR, cosines, binEdges), binned(Squared(deltaR), cosines, Squared(binEdges)))
        case (Some(cosDisp), Some(cosDispSq)) =>
          Ok(Curves([1.0] + cosDisp, binEdges, [1.0] + cosDispSq, Squared(binEdges)))
        case _ => Err(BinningFailed)
  }

  /** What the binning produces, given a binned_statistic that returns one value per
      bin: the edges are nbins evenly spaced values from 0 to edge_length (the
      division by pixel_scale and the multiplication by it cancel), the squared
      edges are their squares, and each curve is 1 followed by the binned means,
      so it is as long as the edge list. */
  lemma BinCurvesShape(m: Numerics, binned: BinnedMean, deltaR: seq<real>, deltaPhi: seq<real>,
                       edgeLength: real, beamResolution: real, pixelScale: real)
    requires OneValuePerBin(binned)
    requires BinCurves(m, binned, deltaR, deltaPhi, edgeLength, beamResolution, pixelScale).Ok?
    ensures var c := BinCurves(m, binned, deltaR, deltaPhi, edgeLength, beamResolution, pixelScale).value;
      var nbins := NBins(edgeLength, beamResolution);
      && nbins >= 0
      && c.binEdgesNorm == Linspace(0.0, edgeLength, nbins)
      && c.binEdgesSq == Squared(c.binEdgesNorm)
      && |c.cosDisp| == nbins && |c.cosDispSq| == nbins
      && c.cosDisp == [1.0] + binned(deltaR, Cosines(m, deltaPhi), c.binEdgesNorm).value
      && c.cosDispSq == [1.0] + binned(Squared(deltaR), Cosines(m, deltaPhi), c.binEdgesSq).value
  {
    ScaledLinspace(edgeLength, pixelScale, NBins(edgeLength, beamResolution));
  }

  /** The distances of all pairs of valid pixels, in pixels. */
  function PixelDistances(m: Numerics, data: Grid): seq<real> {
    var ps := ValidPixels(data);
    PairDistances(m, RowIndices(ps), ColIndices(ps))
  }

  /** The relative angles of all pairs of valid pixels. */
  function PixelAngles(m: Numerics, data: Grid): seq<real> {
    PairAngles(m, AnglesOf(ValidPixels(data)))
  }

  /** For n valid pixels both pair lists have n(n-1)/2 entries. */
  lemma PixelPairsLength(m: Numerics, data: Grid)
    ensures var n := |ValidPixels(data)|;
      |PixelDistances(m, data)| == n * (n - 1) / 2 && |PixelAngles(m, data)| == n * (n - 1) / 2
  {
    var ps := ValidPixels(data);
    PairListsLength(m, RowIndices(ps), ColIndices(ps), AnglesOf(ps));
  }

  /** Valid pixels are distinct cells, so if sqrt is positive from 1 on, every pair
      distance is positive. */
  lemma PixelDistancesPositive(m: Numerics, data: Grid)
    requires forall v: real :: v >= 1.0 ==> m.sqrt(v) > 0.0
    ensures forall k :: 0 <= k < |PixelDistances(m, data)| ==> PixelDistances(m, data)[k] > 0.0
  {
    var ps := ValidPixels(data);
    var pairs := UpperPairs(|ps|);
    forall k | 0 <= k < |PixelDistances(m, data)|
      ensures PixelDistances(m, data)[k] > 0.0
    {
      ExtractedPairsApart(data, pairs[k].0, pairs[k].1);
    }
  }

  /** angular_dispersion_calculation: no valid pixel fails at the concatenation, a
      single one at the unbound `delta_phi_arr`; from two on, the curves are those of
      the distances (times pixel_scale) and relative angles of all pairs of valid
      pixels. */
  method AngularDispersionCalculation(m: Numerics, binned: BinnedMean, data: Grid,
                                      edgeLength: real, beamResolution: real, pixelScale: real)
    returns (r: Result<Curves>)
    ensures |ValidPixels(data)| == 0 ==> r == Err(EmptyConcatenate)
    ensures |ValidPixels(data)| == 1 ==> r == Err(UnboundDeltaPhiArr)
    ensures |ValidPixels(data)| >= 2 ==>
      r == BinCurves(m, binned, Scaled(PixelDistances(m, data), pixelScale), PixelAngles(m, data),
                     edgeLength, beamResolution, pixelScale)
  {
    var x, y, ang := ExtractValidPixels(data);
    var phi := ang;
    var rows := AccumulatePairs(m, x, y, phi);
    if rows.Err? {
      return Err(rows.error);
    }
    var flat := ConcatenatePairs(rows.value);
    if flat.Err? {
      return Err(flat.error);
    }
    PairsAligned(m, x, y, phi, rows.value);
    var deltaR := Scaled(flat.value.0, pixelScale);
    var deltaPhi := flat.value.1;
    r := BinCurves(m, binned, deltaR, deltaPhi, edgeLength, beamResolution, pixelScale);
  }
}
