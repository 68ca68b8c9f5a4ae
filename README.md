# MDCF-Python core in Dafny

This project models the core of MDCF-Python. That pipeline estimates the
dispersion of polarisation angles over a map for the Davis–Chandrasekhar–Fermi
method. The model covers two source files:

- `src/dispersion_analysis.py`:
  - `calc_rel_angle_crossn`, the wrap-safe relative angle of two polarisation angles;
  - `angular_dispersion_calculation`, which extracts the valid pixels, builds the
    distance and relative angle of every pair, and bins the cosine of the relative
    angle against distance and against squared distance;
  - `linear_fit`.
- `dev/dcf_python.py`:
  - `cos_disp_calculations`, the same extraction and pair loop with a different unit
    conversion;
  - the bookkeeping part of `multi_fit`: bin edges, sentinels, fit window and residual.

The modules, one file each:

| module | file | models |
|---|---|---|
| `Common` | common.dfy | Option/Result, the Python exceptions, the opaque numerical library |
| `PyArray` | pyarray.dfy | Python slicing, `np.linspace`, `np.concatenate`, elementwise arithmetic |
| `UpperTriangle` | triangle.dfy | the order in which the pair loop visits the pairs i < j |
| `PixelExtraction` | extraction.dfy | the row-major scan that keeps the cells that are not NaN |
| `RelativeAngle` | relangle.dfy | `calc_rel_angle_crossn` |
| `PairStatistics` | pairloop.dfy | the pair loop and the concatenation after it |
| `DispersionAnalysis` | dispersion.dfy | `angular_dispersion_calculation`, `linear_fit` |
| `DcfPython` | dcf.dfy | `cos_disp_calculations`, `multi_fit` lines 65-81 |

Modelling choices:

- **Numerical library.** sin, cos, sqrt and arctan2 are uninterpreted functions over the
  reals, bundled in the `Numerics` record and passed as a parameter. Where a lemma needs a
  fact about them (sin² + cos² = 1, sqrt(0) = 0, a range of arctan2), the fact is a
  `requires` of that lemma. The cross-product, dot-product and absolute-value arithmetic
  around them is exact.
- **Library calls.** `scipy.stats.binned_statistic` is the parameter `binned`. Lemmas
  that need its shape assume only `OneValuePerBin`: whenever it returns, it returns one
  value per bin. `scipy.optimize.curve_fit` is the parameter `fit`. Either one returning
  `None` stands for the library raising.
- **Maps.** A map is a sequence of rows of `Option<real>`, and `None` stands for NaN.
- **Errors.** Every exception on the modelled paths is an `Err` value:
  - no valid pixel: `np.concatenate` raises (`EmptyConcatenate`);
  - exactly one valid pixel: `delta_phi_arr` is read before any assignment (`UnboundDeltaPhiArr`);
  - `pixel_scale == 0`: the division by it raises (`ZeroPixelScale`);
  - negative bin count: `np.linspace` raises (`NegativeBinCount`).
- **Behaviour kept as the code has it.**
  - With no valid pixel the code does not return empty curves: it raises at
    `np.concatenate` (src/dispersion_analysis.py:91).
  - The single-pair branch of `calc_rel_angle_crossn` (src/dispersion_analysis.py:26)
    passes the raw dot product to arctan2; the batch branch (line 51) passes its absolute
    value. The model keeps both branches as written. `BranchesDisagreeOnAntiParallel`
    shows that they differ, and `SingleBranchOnlyForLastPair` shows that in the pair loop
    this affects exactly one pair: (n-2, n-1).

## Model

| member | source | states |
|---|---|---|
| PyArray.SliceBound | src/dispersion_analysis.py:89 | A Python slice bound normalises into 0..len: it is kept when in range, counts from the end when negative, and is clamped otherwise |
| PyArray.SliceDropLast | src/dispersion_analysis.py:89 | `s[:-1]` is `s` without its last element, and is empty on an empty list |
| PyArray.SliceInRange | dev/dcf_python.py:78 | An in-range Python slice `s[lo:hi]` is exactly the elements lo..hi-1 |
| PyArray.Linspace | src/dispersion_analysis.py:108 | `np.linspace(start, stop, num)` has num entries, starts at start, ends at stop from two entries on, and has a constant step (stop-start)/(num-1) |
| PyArray.ScaledLinspace | src/dispersion_analysis.py:95-108 | Dividing the edge length by pixel_scale and multiplying the linspace back by it gives exactly linspace(0, edge_length, nbins) |
| UpperTriangle.PairsBeforeLength | src/dispersion_analysis.py:75-77 | The first i outer iterations visit i(2n-i-1)/2 pairs |
| UpperTriangle.PairsBeforeMembers | src/dispersion_analysis.py:75-77 | A pair is visited in the first i outer iterations if and only if its first index is below i and below its second index, which is below n |
| UpperTriangle.PairsBeforeOrdered | src/dispersion_analysis.py:75-77 | The visited pairs come in strictly increasing lexicographic order |
| UpperTriangle.UpperPairsExact | src/dispersion_analysis.py:75-92 | The loop visits n(n-1)/2 pairs, exactly the pairs i < j < n, in lexicographic order, with no pair twice |
| UpperTriangle.FlattenRows | src/dispersion_analysis.py:85-92 | Rows built as the loop builds them (row r holding f(r, j) for j > r) concatenate into f over the visited pairs in visiting order |
| PixelExtraction.ExtractValidPixels | src/dispersion_analysis.py:58-68 | The nested scan returns x, y and ang as the parallel row, column and angle lists of the valid cells in row-major order |
| PixelExtraction.ScanRow | src/dispersion_analysis.py:61-65 | The inner loop over the columns of row i extends the lists of the first i rows into the lists of the first i+1 rows |
| PixelExtraction.ValidPixelsExact | src/dispersion_analysis.py:60-65 | A pixel is extracted if and only if its cell holds that angle (not NaN), and the extracted list is strictly increasing in row-major order, so no cell comes twice |
| PixelExtraction.AllMissingIsEmpty | src/dispersion_analysis.py:60-65 | A map that is NaN everywhere yields no pixels |
| PixelExtraction.AllValidCount | src/dispersion_analysis.py:60-65 | An n-by-m map without NaN yields n·m pixels in row-major order |
| PixelExtraction.GridPixelsMembers | dev/dcf_python.py:21-26 | After the first r rows of the scan, a pixel has been collected if and only if its row is below r and its cell holds its angle |
| RelativeAngle.CalcRelAngleCrossn | src/dispersion_analysis.py:9-52 | Empty first input gives None. A second input that does not fit gives a shape error: an empty one for a single element (index error), any length other than the first input's for several elements (reshape error). Otherwise one angle per element of the first input: the single-pair formula for one element, the batch formula elementwise for several |
| RelativeAngle.ClosedForms | src/dispersion_analysis.py:17-25 | CdC is the square of sin t2·cos t1 − cos t2·sin t1 and never negative; vdgr is sin t1·sin t2 + cos t1·cos t2 |
| RelativeAngle.SwapInvariant | src/dispersion_analysis.py:17-51 | CdC, vdgr and both branch formulas are symmetric in the two angles |
| RelativeAngle.SameAngle | src/dispersion_analysis.py:17-25 | An angle against itself has CdC = 0 and vdgr = sin² + cos² |
| RelativeAngle.SelfAngleIsZero | src/dispersion_analysis.py:26 | Given sin² + cos² = 1, sqrt(0) = 0 and arctan2(0, 1) = 0, both branches give 0 for an angle against itself |
| RelativeAngle.BatchArgumentsNonNegative | src/dispersion_analysis.py:51 | With sqrt non-negative on non-negative reals, both arctan2 arguments of the batch branch are non-negative |
| RelativeAngle.AngleRanges | src/dispersion_analysis.py:26 | With arctan2 ranging as the real one does, the batch branch lies in [0, π/2] and the single branch in [0, π] |
| RelativeAngle.BranchesAgreeOnNonNegativeDot | src/dispersion_analysis.py:26 | The two branches agree whenever vdgr is non-negative |
| RelativeAngle.BranchesDisagreeOnAntiParallel | src/dispersion_analysis.py:26 | With the real values of sin, cos, sqrt and arctan2 at the points involved, angles 0 and π give π in the single branch but 0 in the batch branch |
| PairStatistics.DistanceRowAt | src/dispersion_analysis.py:76-78 | `delta_r_arr` at index i is the list of distances from point i to every later point |
| PairStatistics.AngleRowAt | src/dispersion_analysis.py:79-83 | `delta_phi_arr` at an index i below n-1 lists the relative angles from point i to every later point: the single-pair formula when the row has length 1, the batch formula otherwise |
| PairStatistics.AccumulatePairs | src/dispersion_analysis.py:75-86 | The loop fails on the unbound `delta_phi_arr` exactly when there is one point. Otherwise distance row i and angle row i are those of point i, and the last angle row repeats the one before it |
| PairStatistics.ConcatenatePairs | src/dispersion_analysis.py:88-92 | Concatenation fails with an empty-list error exactly when there are no distance rows or at most one angle row |
| PairStatistics.PairsAligned | src/dispersion_analysis.py:75-92 | For n ≥ 2 the concatenated lists are exactly the distance and the relative angle of every pair i < j, in the same order, so entry k of both belongs to the same pair |
| PairStatistics.DistancesAligned | dev/dcf_python.py:39-56 | The concatenated distance rows are the distances of all pairs in visiting order |
| PairStatistics.AnglesAligned | dev/dcf_python.py:39-57 | The angle rows without the last one concatenate into the relative angles of all pairs in visiting order |
| PairStatistics.PairListsLength | src/dispersion_analysis.py:75-92 | Both pair lists have n(n-1)/2 entries |
| PairStatistics.LastIteration | src/dispersion_analysis.py:82-89 | At i = n-1 the distance row is empty while the angle row is the stale one of pair (n-2, n-1). Before `[:-1]` the angle list is one entry longer, and `[:-1]` removes exactly that row |
| PairStatistics.LastPair | src/dispersion_analysis.py:75-77 | The last visited pair is (n-2, n-1), and every earlier pair has first index below n-2 |
| PairStatistics.SingleBranchOnlyForLastPair | src/dispersion_analysis.py:79-83 | Only the last pair, (n-2, n-1), gets the single-pair formula; every other pair gets the batch formula |
| PairStatistics.AllBatchOnNonNegativeLastDot | src/dispersion_analysis.py:26-51 | If the last pair's dot product is non-negative, every pair's angle equals the batch formula |
| PairStatistics.ExtractedPairsApart | src/dispersion_analysis.py:76-78 | Two distinct extracted pixels are at squared pixel distance at least 1 |
| DispersionAnalysis.LinearFitRecovers | src/dispersion_analysis.py:146-150 | The line's value at 0 is b, and its difference quotient between any two distinct points is m |
| DispersionAnalysis.LinearFitDetermined | src/dispersion_analysis.py:146-150 | Two lines that agree at two distinct points have the same m and b |
| DispersionAnalysis.NBins | src/dispersion_analysis.py:99-104 | With beam resolution 0 there are 21 bins; otherwise the bin count is the floor of edge_length/beam_resolution·5 |
| DispersionAnalysis.BinCurves | src/dispersion_analysis.py:95-115 | Fails on pixel_scale = 0 and on a negative bin count; on success both curves start with the sentinel 1 |
| DispersionAnalysis.BinCurvesShape | src/dispersion_analysis.py:108-115 | On success the edges are nbins evenly spaced values from 0 to edge_length and the squared edges are their squares. Each curve is 1 followed by the binned means, as long as the edge list |
| DispersionAnalysis.PixelPairsLength | src/dispersion_analysis.py:70-92 | For n valid pixels both pair lists have n(n-1)/2 entries |
| DispersionAnalysis.PixelDistancesPositive | src/dispersion_analysis.py:76-78 | If sqrt is positive from 1 on, every pair distance between valid pixels is positive |
| DispersionAnalysis.AngularDispersionCalculation | src/dispersion_analysis.py:55-115 | No valid pixel fails at the concatenation and one valid pixel fails on the unbound angle row. From two on, the result is the binning of all pair distances (times pixel_scale) and pair relative angles of the valid pixels |
| DcfPython.ToParsecIsScaling | dev/dcf_python.py:56 | `delta_r * 10 / 512 * ds_scale` scales every distance by 10/512·ds_scale |
| DcfPython.CosDispCalculations | dev/dcf_python.py:16-58 | Same failures as above for zero and one valid pixel. From two on, it returns the distances of all pairs of valid pixels times 10/512·ds_scale and their relative angles, aligned pair for pair |
| DcfPython.BinRange | dev/dcf_python.py:65 | `bin_range` has 21 entries |
| DcfPython.BinRangeFormula | dev/dcf_python.py:65 | Entry k of `bin_range` is (k·outer/20 + 0.5)·10/512·ds_scale |
| DcfPython.BinRangeIncreasing | dev/dcf_python.py:65-69 | For positive outer distance and scale the edges are positive and strictly increasing, and so are their squares |
| DcfPython.MultiFitSetup | dev/dcf_python.py:65-75 | Binning failures propagate. On success both edge arrays have 22 entries starting with 0, and both cosine arrays start with 1 |
| DcfPython.MultiFitSetupShape | dev/dcf_python.py:68-75 | With one value per bin, the cosine arrays have 21 entries, and every original edge, squared edge and binned mean is shifted one place right |
| DcfPython.Residual | dev/dcf_python.py:81 | `b2_l` has one entry per cosine value |
| DcfPython.ResidualEntries | dev/dcf_python.py:81 | Entry k of `b2_l` is m·edge_k² + b − (1 − cos_disp_k); adding 1 − cos_disp_k back gives the fitted line; with the sentinels the first entry is b |
| DcfPython.FitWindow | dev/dcf_python.py:78 | An in-range window `a[fit0:fitf]` is exactly entries fit0..fitf-1 |
| DcfPython.FitWindowAligned | dev/dcf_python.py:61-78 | For 0 ≤ fit0 ≤ fitf ≤ 21 both fit windows have fitf − fit0 points, each pairing a squared edge with 1 − cos_disp_sq at the same index. The defaults 7 and 17 give 10 points |
| DcfPython.MultiFitAsWritten | dev/dcf_python.py:78 | As written, multi_fit always fails: with the binning error, or with NameError on `start`/`end` |
| DcfPython.MultiFit | dev/dcf_python.py:78-81 | The intended fit over [fit0:fitf] yields a residual of 21 entries |
| DcfPython.LineSeventyEightFails | dev/dcf_python.py:78 | Whenever set-up succeeds, the code as written raises NameError, while the intended code returns the fitted line and its residual whenever the fit converges |
| DcfPython.MultiFitResidualStartsAtIntercept | dev/dcf_python.py:72-81 | For the intended fit, the first residual entry equals the fitted intercept |

## Left out

- FITS input, region cutouts (`data_cut`), `Imshow`, all plotting (dev/dcf_python.py:91-112) and every `print`: these are I/O and display.
- `gauss_function`, `total_gauss_function`, `turbulent_cells`, `Stokes_Polarization` and the Gaussian fit at dev/dcf_python.py:84-89: these are float formulas outside the modelled core.
- sin, cos, sqrt, arctan2: uninterpreted, as are the internals of `binned_statistic` and `curve_fit`. The model does not derive bin membership, NaN for empty bins, or fit convergence. IEEE rounding, NaN and infinities in arithmetic are not modelled; arithmetic is over the reals.
- `binned_statistic`'s returned edges: taken to be the edges it was given.
- dev/dcf_python.py:68: line 70 repeats the same call with the same arguments and replaces its result, so `MultiFitSetup` makes that binning once.
- The squared pixel distance is an unbounded integer. Overflow of numpy's fixed-width integers is not modelled.
- The ragged `np.array(delta_r)` at src/dispersion_analysis.py:88 and dev/dcf_python.py:53 is taken as a list of rows. Recent numpy versions reject ragged lists there with ValueError; the model does not represent that.
- The `try`/`except` around `np.cross` (src/dispersion_analysis.py:37-40): its failure path is not modelled, because the cross product of 3-vectors does not fail.
- A map is a sequence of rows, and the scan walks each row to its own length. For a numpy 2D array every row has the shape's column count.
- dev/dcf_python.py uses `calc_rel_angle_crossn`, `linear_fit`, `curve_fit`, `gauss_function` and `Imshow` without defining or importing them (its imports are lines 1-6). The model uses the definitions from src/dispersion_analysis.py and scipy's `curve_fit` (the parameter `fit`), and does not model the NameError each would raise. At line 78 the first undefined name evaluated is `curve_fit`, before `start`; `MultiFitAsWritten` returns the same NameError either way.
- DispersionAnalysis.AngularDispersionCalculation: `pixel_scale` is taken to be a Python float, so a zero scale raises ZeroDivisionError. A numpy float would give infinity with a warning, and that path is not modelled.
- RelativeAngle.AngleRanges, RelativeAngle.SelfAngleIsZero, RelativeAngle.BranchesDisagreeOnAntiParallel, DispersionAnalysis.PixelDistancesPositive: these hold only under the stated assumptions about the opaque functions, not for all of them.
- DcfPython.MultiFit: requires that `binned_statistic` returns one value per bin. Without that, the residual's two operands need not have equal length.

## Findings

| source | as written | input that shows it | evidently intended | confidence | as-written member | corrected member |
|---|---|---|---|---|---|---|
| dev/dcf_python.py:78 | The y data of the linear fit is `1-cos_disp_sq[start:end]`, but `start` and `end` are bound nowhere, so multi_fit raises NameError (already at `curve_fit`, which the file never imports, when run on its own) | any call whose binning succeeds, e.g. the default window fit0 = 7, fitf = 17 | `1-cos_disp_sq[fit0:fitf]`, the same window as the x data | high; not executed | DcfPython.MultiFitAsWritten | DcfPython.MultiFit |
