/** Shared vocabulary of the model: optional and fallible results, the Python
    exceptions raised on the modelled paths, and the numerical library
    functions the model leaves uninterpreted. */
module Common {

  datatype Option<T> = None | Some(value: T)

  /** The exceptions the analysis code can raise on the paths this model covers. */
  datatype PyError =
    | UnboundDeltaPhiArr  // UnboundLocalError: with one valid pixel `delta_phi_arr` is never assigned
    | EmptyConcatenate    // ValueError: np.concatenate of an empty list of arrays
    | ZeroPixelScale      // ZeroDivisionError: edge_length / pixel_scale
    | NegativeBinCount    // ValueError: np.linspace asked for a negative number of samples
    | BinningFailed       // scipy.stats.binned_statistic raised
    | FitFailed           // scipy.optimize.curve_fit raised
    | UndefinedName       // NameError: a name that is never bound

  datatype Result<T> = Ok(value: T) | Err(error: PyError)

  /** numpy's sin, cos, sqrt and arctan2, taken as uninterpreted functions over the reals. */
  datatype Numerics = Numerics(
    sin: real -> real,
    cos: real -> real,
    sqrt: real -> real,
    atan2: (real, real) -> real)

  /** scipy.stats.binned_statistic(samples, values, 'mean', bins = edges), statistic part only;
      None when the library raises. */
  type BinnedMean = (seq<real>, seq<real>, seq<real>) -> Option<seq<real>>

  /** All the model assumes of binned_statistic: whenever it returns, it returns one value per bin. */
  ghost predicate OneValuePerBin(binned: BinnedMean) {
    forall samples, values, edges ::
      binned(samples, values, edges).Some? ==> |binned(samples, values, edges).value| + 1 == |edges|
  }

  /** scipy.optimize.curve_fit for a fixed two-parameter model: the fitted parameters from
      (xdata, ydata), or None when the fit raises. */
  type CurveFit = (seq<real>, seq<real>) -> Option<(real, real)>
}
