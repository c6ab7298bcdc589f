/** The single-predictor linearity check of the web app (app/core/linearity.py). */
module AppLinearity {
  import opened Wrappers
  import opened Types
  import opened Library
  import opened Config
  import Dicts

  const Recommendation := "Consider transforming your features or engineering new ones."

  /** `y - y_pred`, elementwise; pandas raises on operands of different lengths. */
  function Subtract(y: seq<real>, yPred: seq<real>): (r: Result<seq<real>, CheckError>)
    ensures r.Err? <==> |y| != |yPred|
    ensures r.Err? ==> r.error == LengthMismatch
    ensures r.Ok? ==> |r.value| == |y| && forall i :: 0 <= i < |y| ==> r.value[i] + yPred[i] == y[i]
  {
    if |y| != |yPred| then Err(LengthMismatch)
    else Ok(seq(|y|, i requires 0 <= i < |y| => y[i] - yPred[i]))
  }

  /**
   * `check_linearity(X, y, return_plot)`: `X` is always reshaped into one
   * column, so there is no skip path. The check passes iff the R² of the
   * linear-regression predictions is strictly above 0.7.
   */
  function CheckLinearity(stats: Statistics, x: seq<real>, y: seq<real>, returnPlot: bool)
    : (r: Result<AssumptionResult, CheckError>)
    ensures var yPred := stats.linearRegressionPredict(x, y);
      && (r.Err? <==> |yPred| != |y|)
      && (r.Err? ==> r.error == LengthMismatch)
    ensures r.Ok? ==> r.value.name == "linearity" && VerdictConsistent(r.value)
    ensures r.Ok? ==> (
      var yPred := stats.linearRegressionPredict(x, y);
      var r2 := stats.r2Score(y, yPred);
      && (r.value.passed <==> r2 > 0.7)
      && r.value.severity == Some(stats.classifySeverity(r2, R2SeverityTable))
      && r.value.fitted == Some(yPred)
      && r.value.residuals.Some? && |r.value.residuals.value| == |y|
      && (forall i :: 0 <= i < |y| ==> r.value.residuals.value[i] + yPred[i] == y[i])
      && (r.value.plotBase64.Some? <==> returnPlot)
      && r.value.plots.None?)
  {
    var yPred := stats.linearRegressionPredict(x, y);
    match Subtract(y, yPred)
    case Err(e) => Err(e)
    case Ok(residuals) =>
      var r2 := stats.r2Score(y, yPred);
      var passed := r2 > LinearityR2Threshold;
      Ok(AssumptionResult(
        name := "linearity",
        passed := passed,
        summary := stats.summarize("linearity", [r2], passed),
        details := Dicts.FromPairs([("r_squared", Num(r2)), ("r2_threshold", Num(LinearityR2Threshold))]),
        residuals := Some(residuals),
        fitted := Some(yPred),
        plotBase64 := if returnPlot then Some(stats.render("Residuals vs Fitted (Linearity Check)", [yPred, residuals])) else None,
        severity := Some(stats.classifySeverity(r2, R2SeverityTable)),
        recommendation := if passed then None else Some(Recommendation),
        flag := Some(if passed then Info else Warning)))
  }

  /** The details hold exactly `r_squared` and `r2_threshold = 0.7`, in that order. */
  lemma DetailsKeys(stats: Statistics, x: seq<real>, y: seq<real>, returnPlot: bool)
    requires CheckLinearity(stats, x, y, returnPlot).Ok?
    ensures var r2 := stats.r2Score(y, stats.linearRegressionPredict(x, y));
      CheckLinearity(stats, x, y, returnPlot).value.details ==
        Dicts.Dict(["r_squared", "r2_threshold"], map["r_squared" := Num(r2), "r2_threshold" := Num(0.7)])
  {
    var r2 := stats.r2Score(y, stats.linearRegressionPredict(x, y));
    Dicts.FromPairsTwo("r_squared", Num(r2), "r2_threshold", Num(LinearityR2Threshold));
  }

  /** The residuals are the only sequence whose sum with the predictions is `y`. */
  lemma ResidualsAreUnique(stats: Statistics, x: seq<real>, y: seq<real>, returnPlot: bool, e: seq<real>)
    requires CheckLinearity(stats, x, y, returnPlot).Ok?
    requires |e| == |y| && forall i :: 0 <= i < |y| ==> e[i] + stats.linearRegressionPredict(x, y)[i] == y[i]
    ensures CheckLinearity(stats, x, y, returnPlot).value.residuals == Some(e)
  {
    var res := CheckLinearity(stats, x, y, returnPlot).value.residuals.value;
    assert |res| == |e| && forall i :: 0 <= i < |y| ==> res[i] == e[i];
    assert res == e;
  }
}
