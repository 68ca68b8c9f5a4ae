/** The development copy of the pipeline: cos_disp_calculations, which returns the
    pair distances (converted with 10/512 * ds_scale) and relative angles, and the
    bookkeeping of multi_fit up to the residual: the 21 bin edges, the three binned
    means, the sentinels, the linear-fit window and the residual b2_l. */
module DcfPython {
  import opened Common
  import opened PyArray
  import opened PixelExtraction
  import opened PairStatistics
  import opened DispersionAnalysis

  /** delta_r * 10 / 512 * ds_scale, elementwise and in that order. */
  function ToParsec(v: seq<real>, dsScale: real): (r: seq<real>)
    ensures |r| == |v|
  {
    seq(|v|, k requires 0 <= k < |v| => v[k] * 10.0 / 512.0 * dsScale)
  }

  /** The conversion is a plain scaling by 10/512 * ds_scale. */
  lemma ToParsecIsScaling(v: seq<real>, dsScale: real)
    ensures ToParsec(v, dsScale) == Scaled(v, 10.0 / 512.0 * dsScale)
  {
    forall k | 0 <= k < |v|
      ensures ToParsec(v, dsScale)[k] == Scaled(v, 10.0 / 512.0 * dsScale)[k]
    {
      var a := v[k];
      assert a * 10.0 / 512.0 * dsScale == a * (10.0 / 512.0 * dsScale);
    }
  }

  /** cos_disp_calculations: the same extraction and pair loop as
      angular_dispersion_calculation, returning the converted distances and the
      relative angles of all pairs of valid pixels. */
  method CosDispCalculations(m: Numerics, data: Grid, dsScale: real) returns (r: Result<(seq<real>, seq<real>)>)
    ensures |ValidPixels(data)| == 0 ==> r == Err(EmptyConcatenate)
    ensures |ValidPixels(data)| == 1 ==> r == Err(UnboundDeltaPhiArr)
    ensures |ValidPixels(data)| >= 2 ==>
      r == Ok((Scaled(PixelDistances(m, data), 10.0 / 512.0 * dsScale), PixelAngles(m, data)))
  {
    var x, y, ang := ExtractValidPixels(data);
    var phi := ang;
    var rows := AccumulatePairs(m, x, y, phi);
    if rows.Err? {
      return Err(rows.error);
    }
    var flat := ConcatenatePairs(rows.value);
    if flat.Err? {
      return Err(flat.error);
    }
    PairsAligned(m, x, y, phi, rows.value);
    ToParsecIsScaling(flat.value.0, dsScale);
    var deltaR := ToParsec(flat.value.0, dsScale);
    var deltaPhi := flat.value.1;
    r := Ok((deltaR, deltaPhi));
  }

  /** bin_range: 21 evenly spaced values from 0 to outer_distance, each shifted by
      half a pixel and converted with 10/512 * ds_scale. */
  function BinRange(outerDistance: real, dsScale: real): (r: seq<real>)
    ensures |r| == 21
  {
    var base := Linspace(0.0, outerDistance, 21);
    seq(21, k requires 0 <= k < 21 => (base[k] + 0.5) * 10.0 / 512.0 * dsScale)
  }

  /** Entry k of bin_range in closed form: (k * outer / 20 + 0.5) * 10/512 * ds_scale. */
  function EdgeValue(outerDistance: real, dsScale: real, kr: real): real {
    (kr * outerDistance / 20.0 + 0.5) * 10.0 / 512.0 * dsScale
  }

  lemma BinRangeFormula(outerDistance: real, dsScale: real, k: nat)
    requires k < 21
    ensures BinRange(outerDistance, dsScale)[k] == EdgeValue(outerDistance, dsScale, k as real)
  {
    var base := Linspace(0.0, outerDistance, 21);
    assert base[k] == 0.0 + (k as real) * ((outerDistance - 0.0) / 20.0);
  }

  lemma SquareMonotone(a: real, b: real)
    requires 0.0 < a < b
    ensures a * a < b * b
  {
    assert a * a < a * b;
    assert a * b < b * b;
  }

  lemma NonNegativeProduct(a: real, b: real)
    requires a >= 0.0 && b >= 0.0
    ensures a * b >= 0.0
  {
  }

  lemma ConversionMonotone(u: real, w: real, dsScale: real)
    requires 0.0 < u < w && dsScale > 0.0
    ensures 0.0 < u * 10.0 / 512.0 * dsScale < w * 10.0 / 512.0 * dsScale
  {
    var p, q := u * 10.0 / 512.0, w * 10.0 / 512.0;
    assert 0.0 < p < q;
    assert p * dsScale < q * dsScale;
  }

  lemma ShiftedStep(outerDistance: real, kr: real)
    requires outerDistance > 0.0 && kr >= 0.0
    ensures 0.0 < kr * outerDistance / 20.0 + 0.5 < (kr + 1.0) * outerDistance / 20.0 + 0.5
  {
    NonNegativeProduct(kr, outerDistance);
    assert (kr + 1.0) * outerDistance == kr * outerDistance + outerDistance;
  }

  lemma EdgeValueStep(outerDistance: real, dsScale: real, kr: real)
    requires outerDistance > 0.0 && dsScale > 0.0 && kr >= 0.0
    ensures 0.0 < EdgeValue(outerDistance, dsScale, kr) < EdgeValue(outerDistance, dsScale, kr + 1.0)
  {
    ShiftedStep(outerDistance, kr);
    ConversionMonotone(kr * outerDistance / 20.0 + 0.5, (kr + 1.0) * outerDistance / 20.0 + 0.5, dsScale);
  }

  lemma BinRangeStep(outerDistance: real, dsScale: real, k: nat)
    requires outerDistance > 0.0 && dsScale > 0.0 && k < 20
    ensures 0.0 < BinRange(outerDistance, dsScale)[k] < BinRange(outerDistance, dsScale)[k + 1]
  {
    BinRangeFormula(outerDistance, dsScale, k);
    BinRangeFormula(outerDistance, dsScale, k + 1);
    assert (k + 1) as real == k as real + 1.0;
    EdgeValueStep(outerDistance, dsScale, k as real);
  }

  /** For a positive outer distance and scale the edges are positive and strictly
      increasing, and so are their squares (the edges of the second binning). */
  lemma BinRangeIncreasing(outerDistance: real, dsScale: real)
    requires outerDistance > 0.0 && dsScale > 0.0
    ensures forall k :: 0 <= k < 21 ==> BinRange(outerDistance, dsScale)[k] > 0.0
    ensures forall k :: 0 <= k < 20 ==> BinRange(outerDistance, dsScale)[k] < BinRange(outerDistance, dsScale)[k + 1]
    ensures forall k :: 0 <= k < 20 ==> Squared(BinRange(outerDistance, dsScale))[k] < Squared(BinRange(outerDistance, dsScale))[k + 1]
  {
    var r := BinRange(outerDistance, dsScale);
    forall k | 0 <= k < 20
      ensures 0.0 < r[k] < r[k + 1]
    {
      BinRangeStep(outerDistance, dsScale, k);
    }
    assert r[19] < r[20];
    SquaresIncreasing(r);
  }

  lemma SquaresIncreasing(r: seq<real>)
    requires forall k :: 0 <= k < |r| ==> r[k] > 0.0
    requires forall k :: 0 <= k < |r| - 1 ==> r[k] < r[k + 1]
    ensures forall k :: 0 <= k < |r| - 1 ==> Squared(r)[k] < Squared(r)[k + 1]
  {
    forall k | 0 <= k < |r| - 1
      ensures Squared(r)[k] < Squared(r)[k + 1]
    {
      SquareMonotone(r[k], r[k + 1]);
    }
  }

  /** The arrays multi_fit works on after the sentinels of lines 72-75: the bin
      edges and squared bin edges with 0 in front, the binned mean cosines with 1 in
      front. */
  datatype FitArrays = FitArrays(binEdges: seq<real>, cosDisp: seq<real>, binEdgesSq: seq<real>, cosDispSq: seq<real>)

  /** Lines 65-75. The binning at line 70 repeats the call of line 68 with the same
      arguments, whose result it replaces, so one call stands for both. */
  function MultiFitSetup(m: Numerics, binned: BinnedMean, deltaR: seq<real>, deltaPhi: seq<real>,
                         dsScale: real, outerDistance: real): (r: Result<FitArrays>)
    ensures r.Err? ==> r.error == BinningFailed
    ensures r.Ok? ==> |r.value.binEdges| == 22 && r.value.binEdges[0] == 0.0
    ensures r.Ok? ==> |r.value.binEdgesSq| == 22 && r.value.binEdgesSq[0] == 0.0
    ensures r.Ok? ==> |r.value.cosDisp| >= 1 && r.value.cosDisp[0] == 1.0
    ensures r.Ok? ==> |r.value.cosDispSq| >= 1 && r.value.cosDispSq[0] == 1.0
  {
    var binRange := BinRange(outerDistance, dsScale);
    var cosines := Cosines(m, deltaPhi);
    match (binned(Squared(deltaR), cosines, Squared(binRange)), binned(deltaR, cosines, binRange))
    case (Some(cosDispSq), Some(cosDisp)) =>
      Ok(FitArrays([0.0] + binRange, [1.0] + cosDisp, [0.0] + Squared(binRange), [1.0] + cosDispSq))
    case _ => Err(BinningFailed)
  }

  /** With one value per bin, the sentinels leave 22 edges against 21 values, every
      original entry shifted one place to the right. */
  lemma MultiFitSetupShape(m: Numerics, binned: BinnedMean, deltaR: seq<real>, deltaPhi: seq<real>,
                           dsScale: real, outerDistance: real)
    requires OneValuePerBin(binned)
    requires MultiFitSetup(m, binned, deltaR, deltaPhi, dsScale, outerDistance).Ok?
    ensures var a := MultiFitSetup(m, binned, deltaR, deltaPhi, dsScale, outerDistance).value;
      var binRange := BinRange(outerDistance, dsScale);
      && |a.cosDisp| == 21 && |a.cosDispSq| == 21
      && (forall k :: 0 <= k < 21 ==> a.binEdges[k + 1] == binRange[k])
      && (forall k :: 0 <= k < 21 ==> a.binEdgesSq[k + 1] == binRange[k] * binRange[k])
      && a.cosDisp[1..] == binned(deltaR, Cosines(m, deltaPhi), binRange).value
      && a.cosDispSq[1..] == binned(Squared(deltaR), Cosines(m, deltaPhi), Squared(binRange)).value
  {
  }

  /** The fitted line, and the residual of line 81. */
  datatype LinearFitResult = LinearFitResult(slope: real, intercept: real, residual: seq<real>)

  /** b2_l = linear_fit(bin_edges[:-1]**2, m, b) - (1 - cos_disp), for the fitted
      slope and intercept. */
  function Residual(a: FitArrays, slope: real, intercept: real): (r: seq<real>)
    requires |a.binEdges| == |a.cosDisp| + 1
    ensures |r| == |a.cosDisp|
  {
    var xs := Squared(Slice(a.binEdges, 0, -1));
    var line := LinearFit(xs, slope, intercept);
    var gap := OneMinus(a.cosDisp);
    seq(|a.cosDisp|, k requires 0 <= k < |a.cosDisp| => line[k] - gap[k])
  }

  /** Entry k of the residual is m * bin_edges[k]^2 + b - (1 - cos_disp[k]); with the
      sentinels in place its first entry is the intercept, and adding 1 - cos_disp
      back gives the fitted line exactly. */
  lemma ResidualEntries(a: FitArrays, slope: real, intercept: real)
    requires |a.binEdges| == |a.cosDisp| + 1
    ensures forall k :: 0 <= k < |a.cosDisp| ==>
      Residual(a, slope, intercept)[k] == slope * (a.binEdges[k] * a.binEdges[k]) + intercept - (1.0 - a.cosDisp[k])
    ensures forall k :: 0 <= k < |a.cosDisp| ==>
      Residual(a, slope, intercept)[k] + (1.0 - a.cosDisp[k]) == LinearFitAt(a.binEdges[k] * a.binEdges[k], slope, intercept)
    ensures |a.cosDisp| >= 1 && a.binEdges[0] == 0.0 && a.cosDisp[0] == 1.0 ==>
      Residual(a, slope, intercept)[0] == intercept
  {
    SliceDropLast(a.binEdges);
  }

  /** The window of an array passed to the linear fit: a[fit0:fitf]. */
  function FitWindow(a: seq<real>, fit0: int, fitf: int): (r: seq<real>)
    ensures 0 <= fit0 <= fitf <= |a| ==> r == a[fit0..fitf]
  {
    Slice(a, fit0, fitf)
  }

  /** Line 78 as written: it reads the names `start` and `end`, bound nowhere, so
      once the set-up succeeds multi_fit raises NameError before any fit. */
  function MultiFitAsWritten(m: Numerics, binned: BinnedMean, fit: CurveFit, deltaR: seq<real>, deltaPhi: seq<real>,
                             dsScale: real, outerDistance: real, fit0: int, fitf: int): (r: Result<LinearFitResult>)
    ensures r.Err?
  {
    match MultiFitSetup(m, binned, deltaR, deltaPhi, dsScale, outerDistance)
    case Err(e) => Err(e)
    case Ok(_) => Err(UndefinedName)
  }

  /** The intended line 78: fit linear_fit to 1 - cos_disp_sq against the squared
      edges over the same window [fit0:fitf], then build the residual of line 81. */
  function MultiFit(m: Numerics, binned: BinnedMean, fit: CurveFit, deltaR: seq<real>, deltaPhi: seq<real>,
                    dsScale: real, outerDistance: real, fit0: int, fitf: int): (r: Result<LinearFitResult>)
    requires OneValuePerBin(binned)
    ensures r.Ok? ==> |r.value.residual| == 21
  {
    match MultiFitSetup(m, binned, deltaR, deltaPhi, dsScale, outerDistance)
    case Err(e) => Err(e)
    case Ok(a) =>
      MultiFitSetupShape(m, binned, deltaR, deltaPhi, dsScale, outerDistance);
      match fit(FitWindow(a.binEdgesSq, fit0, fitf), FitWindow(OneMinus(a.cosDispSq), fit0, fitf))
      case None => Err(FitFailed)
      case Some((slope, intercept)) => Ok(LinearFitResult(slope, intercept, Residual(a, slope, intercept)))
  }

  /** The intended fit window pairs each value with the lower edge of its bin: for
      0 <= fit0 <= fitf <= 21 both windows have fitf - fit0 points, entry k being the
      squared edge and 1 - cos_disp_sq at the same index fit0 + k; the default
      window 7..17 has 10 points. Entry 0, where fit0 = 0, is the sentinel pair
      (0, 0). */
  lemma FitWindowAligned(m: Numerics, binned: BinnedMean, deltaR: seq<real>, deltaPhi: seq<real>,
                         dsScale: real, outerDistance: real, fit0: int, fitf: int)
    requires OneValuePerBin(binned)
    requires MultiFitSetup(m, binned, deltaR, deltaPhi, dsScale, outerDistance).Ok?
    requires 0 <= fit0 <= fitf <= 21
    ensures var a := MultiFitSetup(m, binned, deltaR, deltaPhi, dsScale, outerDistance).value;
      var xs, ys := FitWindow(a.binEdgesSq, fit0, fitf), FitWindow(OneMinus(a.cosDispSq), fit0, fitf);
      && |xs| == |ys| == fitf - fit0
      && (forall k :: 0 <= k < fitf - fit0 ==> xs[k] == a.binEdgesSq[fit0 + k] && ys[k] == 1.0 - a.cosDispSq[fit0 + k])
      && (fit0 == 0 < fitf ==> xs[0] == 0.0 && ys[0] == 0.0)
    ensures fit0 == 7 && fitf == 17 ==> fitf - fit0 == 10
  {
    MultiFitSetupShape(m, binned, deltaR, deltaPhi, dsScale, outerDistance);
  }

  /** The discrepancy of line 78: whenever the set-up succeeds and the intended fit
      converges, the code as written raises NameError where the intended code
      returns the fitted line and its residual. */
  lemma LineSeventyEightFails(m: Numerics, binned: BinnedMean, fit: CurveFit, deltaR: seq<real>, deltaPhi: seq<real>,
                              dsScale: real, outerDistance: real, fit0: int, fitf: int)
    requires OneValuePerBin(binned)
    requires MultiFitSetup(m, binned, deltaR, deltaPhi, dsScale, outerDistance).Ok?
    ensures MultiFitAsWritten(m, binned, fit, deltaR, deltaPhi, dsScale, outerDistance, fit0, fitf) == Err(UndefinedName)
    ensures var a := MultiFitSetup(m, binned, deltaR, deltaPhi, dsScale, outerDistance).value;
      var window := fit(FitWindow(a.binEdgesSq, fit0, fitf), FitWindow(OneMinus(a.cosDispSq), fit0, fitf));
      window.Some? ==>
        MultiFit(m, binned, fit, deltaR, deltaPhi, dsScale, outerDistance, fit0, fitf)
          == Ok(LinearFitResult(window.value.0, window.value.1, Residual(a, window.value.0, window.value.1)))
  {
  }

  /** With the sentinels in place, the first residual entry of the intended fit is
      the fitted intercept. */
  lemma MultiFitResidualStartsAtIntercept(m: Numerics, binned: BinnedMean, fit: CurveFit, deltaR: seq<real>, deltaPhi: seq<real>,
                                          dsScale: real, outerDistance: real, fit0: int, fitf: int)
    requires OneValuePerBin(binned)
    requires MultiFit(m, binned, fit, deltaR, deltaPhi, dsScale, outerDistance, fit0, fitf).Ok?
    ensures var f := MultiFit(m, binned, fit, deltaR, deltaPhi, dsScale, outerDistance, fit0, fitf).value;
      f.residual[0] == f.intercept
  {
    var a := MultiFitSetup(m, binned, deltaR, deltaPhi, dsScale, outerDistance).value;
    MultiFitSetupShape(m, binned, deltaR, deltaPhi, dsScale, outerDistance);
    var f := MultiFit(m, binned, fit, deltaR, deltaPhi, dsScale, outerDistance, fit0, fitf).value;
    ResidualEntries(a, f.slope, f.intercept);
  }
}
