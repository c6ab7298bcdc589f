/** The Breusch-Pagan homoscedasticity check (app/core/homoscedasticity.py). */
module AppHomoscedasticity {
  import opened Wrappers
  import opened Types
  import opened Library
  import opened Config
  import Dicts

  const Recommendation := "Consider using weighted least squares or transforming your response variable."

  /**
   * `check_homoscedasticity(X, y, return_plot)`: fit OLS on `X` as one
   * column; the check passes iff the Breusch-Pagan p-value of the
   * residuals is strictly above 0.05.
   */
  function CheckHomoscedasticity(stats: Statistics, x: seq<real>, y: seq<real>, returnPlot: bool): (r: AssumptionResult)
    ensures r.name == "homoscedasticity" && VerdictConsistent(r)
    ensures var model := stats.ols(Series(x), y);
      var pval := stats.breuschPaganPval(model.resid, x);
      && (r.passed <==> pval > 0.05)
      && r.severity == Some(stats.classifySeverity(pval, PvalSeverityTable))
      && r.residuals == Some(model.resid) && r.fitted == Some(model.fittedValues)
    ensures r.plotBase64.Some? <==> returnPlot
    ensures r.plots.None?
  {
    var model := stats.ols(Series(x), y);
    var residuals := model.resid;
    var fitted := model.fittedValues;
    var pval := stats.breuschPaganPval(residuals, x);
    var passed := pval > HomoscedasticityPvalThreshold;
    AssumptionResult(
      name := "homoscedasticity",
      passed := passed,
      summary := stats.summarize("homoscedasticity", [pval], passed),
      details := Dicts.FromPairs([("breusch_pagan_pval", Num(pval)),
                                  ("homoscedasticity_pval_threshold", Num(HomoscedasticityPvalThreshold))]),
      residuals := Some(residuals),
      fitted := Some(fitted),
      plotBase64 := if returnPlot then Some(stats.render("Residuals vs Fitted (Homoscedasticity Check)", [fitted, residuals])) else None,
      severity := Some(stats.classifySeverity(pval, PvalSeverityTable)),
      recommendation := if passed then None else Some(Recommendation),
      flag := Some(if passed then Info else Warning))
  }

  /** The details hold exactly the p-value and the 0.05 threshold, in that order. */
  lemma DetailsKeys(stats: Statistics, x: seq<real>, y: seq<real>, returnPlot: bool)
    ensures var pval := stats.breuschPaganPval(stats.ols(Series(x), y).resid, x);
      CheckHomoscedasticity(stats, x, y, returnPlot).details ==
        Dicts.Dict(["breusch_pagan_pval", "homoscedasticity_pval_threshold"],
                   map["breusch_pagan_pval" := Num(pval), "homoscedasticity_pval_threshold" := Num(0.05)])
  {
    var pval := stats.breuschPaganPval(stats.ols(Series(x), y).resid, x);
    Dicts.FromPairsTwo("breusch_pagan_pval", Num(pval), "homoscedasticity_pval_threshold", Num(HomoscedasticityPvalThreshold));
  }

  /** The verdict and severity do not depend on whether a plot is drawn. */
  lemma VerdictIgnoresPlot(stats: Statistics, x: seq<real>, y: seq<real>)
    ensures CheckHomoscedasticity(stats, x, y, true).passed == CheckHomoscedasticity(stats, x, y, false).passed
    ensures CheckHomoscedasticity(stats, x, y, true).severity == CheckHomoscedasticity(stats, x, y, false).severity
    ensures CheckHomoscedasticity(stats, x, y, true).details == CheckHomoscedasticity(stats, x, y, false).details
  {
  }
}
