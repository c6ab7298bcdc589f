/** The linearity check with a shared model wrapper (src/core/linearity.py). */
module Linearity {
  import opened Wrappers
  import opened Types
  import opened Library
  import opened Config
  import Dicts
  import ModelUtils

  const SkipSummary := "Linearity check not run: only supports one predictor."
  const SkipNote := "Linearity check skipped — only valid for single predictor inputs."
  const Recommendation := "Consider transforming your features or engineering new ones."

  /** The record returned for a frame with more than one column. */
  function SkipResult(): (r: AssumptionResult)
    ensures SkipRecord(r) && r.name == "linearity"
  {
    AssumptionResult(
      name := "linearity", passed := true, summary := SkipSummary,
      details := Dicts.FromPairs([("note", Text(SkipNote))]),
      plotBase64 := None, severity := Some(Low), recommendation := None, flag := Some(Info))
  }

  /** The single predictor the check fits on: a Series as it is, or the
      first column of a frame (`X.iloc[:, 0]`), which a frame without
      columns does not have. */
  function SinglePredictor(x: Predictors): (r: Result<Predictors, CheckError>)
    requires x.Series? || |x.columns| <= 1
    ensures x.Series? ==> r == Ok(x)
    ensures x.Frame? && |x.columns| == 0 ==> r == Err(IndexOutOfRange)
    ensures x.Frame? && |x.columns| == 1 ==> r == Ok(Series(x.columns[0].values))
  {
    if x.Series? then Ok(x)
    else if |x.columns| == 0 then Err(IndexOutOfRange)
    else Ok(Series(x.columns[0].values))
  }

  /** The verdict on a fitted single-predictor model. */
  function Assess(stats: Statistics, y: seq<real>, returnPlot: bool, w: ModelWrapper): AssumptionResult
  {
    var residuals := w.Residuals();
    var yPred := w.Fitted();
    var r2 := stats.r2Score(y, yPred);
    var passed := r2 > LinearityR2Threshold;
    AssumptionResult(
      name := "linearity",
      passed := passed,
      summary := stats.summarize("linearity", [r2], passed),
      details := Dicts.FromPairs([("r_squared", Num(r2)), ("r2_threshold", Num(LinearityR2Threshold))]),
      residuals := Some(residuals),
      fitted := Some(yPred),
      plotBase64 := if returnPlot then Some(stats.render("Residuals vs Fitted (Linearity Check)", [yPred, residuals])) else None,
      severity := Some(stats.classifySeverity(r2, R2SeverityTable)),
      recommendation := if passed then None else Some(Recommendation),
      flag := Some(if passed then Info else Warning))
  }

  /**
   * `check_linearity(X, y, return_plot, model_wrapper)`. A frame with more
   * than one column is skipped before any wrapper is read or built;
   * otherwise the supplied wrapper is used, or a "linear" one is built on
   * the single predictor, and the check passes iff R² > 0.7 strictly.
   */
  function CheckLinearity(stats: Statistics, x: Predictors, y: seq<real>, returnPlot: bool,
                          modelWrapper: Option<ModelWrapper>): (r: Result<AssumptionResult, CheckError>)
    ensures x.Frame? && |x.columns| > 1 ==> r.Ok? && SkipRecord(r.value) && r.value.name == "linearity"
    ensures x.Frame? && |x.columns| == 0 ==> r == Err(IndexOutOfRange)
    ensures r.Ok? ==> r.value.name == "linearity" && VerdictConsistent(r.value)
    ensures x.Series? || |x.columns| == 1 ==> (
      var single := if x.Series? then x else Series(x.columns[0].values);
      var w := ModelUtils.ResolveWrapper(modelWrapper, single, y, stats);
      var r2 := stats.r2Score(y, w.Fitted());
      && r.Ok?
      && (r.value.passed <==> r2 > 0.7)
      && r.value.severity == Some(stats.classifySeverity(r2, R2SeverityTable))
      && r.value.residuals == Some(w.Residuals()) && r.value.fitted == Some(w.Fitted())
      && (r.value.plotBase64.Some? <==> returnPlot))
  {
    if x.Frame? && |x.columns| > 1 then Ok(SkipResult())
    else
      match SinglePredictor(x)
      case Err(e) => Err(e)
      case Ok(single) => Ok(Assess(stats, y, returnPlot, ModelUtils.ResolveWrapper(modelWrapper, single, y, stats)))
  }

  /** The skip path ignores the supplied wrapper and the plot request. */
  lemma SkipIgnoresWrapper(stats: Statistics, x: Predictors, y: seq<real>, p1: bool, p2: bool,
                           w1: Option<ModelWrapper>, w2: Option<ModelWrapper>)
    requires x.Frame? && |x.columns| > 1
    ensures CheckLinearity(stats, x, y, p1, w1) == CheckLinearity(stats, x, y, p2, w2)
  {
  }

  /** A wrapper is built, with model type "linear", only when none is supplied. */
  lemma UsesSuppliedWrapper(stats: Statistics, x: Predictors, y: seq<real>, returnPlot: bool, w: ModelWrapper)
    requires x.Series?
    ensures CheckLinearity(stats, x, y, returnPlot, Some(w)).value.residuals == Some(w.Residuals())
    ensures CheckLinearity(stats, x, y, returnPlot, None).value.residuals ==
      Some(ModelUtils.GetModelWrapper("linear", x, y, stats).value.value.Residuals())
  {
  }

  /** The non-skip details hold exactly `r_squared`, the R² of the wrapper's
      fitted values, and `r2_threshold = 0.7`. */
  lemma DetailsKeys(stats: Statistics, x: Predictors, y: seq<real>, returnPlot: bool, w: Option<ModelWrapper>)
    requires x.Series? || |x.columns| == 1
    ensures var single := if x.Series? then x else Series(x.columns[0].values);
      var r2 := stats.r2Score(y, ModelUtils.ResolveWrapper(w, single, y, stats).Fitted());
      CheckLinearity(stats, x, y, returnPlot, w).value.details ==
        Dicts.Dict(["r_squared", "r2_threshold"], map["r_squared" := Num(r2), "r2_threshold" := Num(0.7)])
  {
    var single := if x.Series? then x else Series(x.columns[0].values);
    var r2 := stats.r2Score(y, ModelUtils.ResolveWrapper(w, single, y, stats).Fitted());
    Dicts.FromPairsTwo("r_squared", Num(r2), "r2_threshold", Num(0.7));
  }
}
