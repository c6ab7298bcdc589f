/** The Durbin-Watson independence check (src/core/independence.py). */
module Independence {
  import opened Wrappers
  import opened Types
  import opened Library
  import opened Config
  import Dicts
  import ModelUtils

  const Recommendation := "Check for autocorrelation in residuals. Consider using time series models (e.g., ARIMA) or adding lag features."

  /** `f"{DW_LOWER_BOUND}-{DW_UPPER_BOUND}"` for the configured band. */
  const ExpectedRange := "1.5-2.5"

  /** The residual and autocorrelation plots, drawn only on request. */
  function Plots(stats: Statistics, returnPlot: bool, residuals: seq<real>, yPred: seq<real>): (ps: seq<Plot>)
    ensures !returnPlot ==> ps == []
    ensures returnPlot ==> (
      && |ps| == 2
      && ps[0].title == "Residual Plot" && ps[0].kind == "residplot"
      && ps[1].title == "ACF" && ps[1].kind == "acf")
  {
    if !returnPlot then []
    else [Plot("Residual Plot", "residplot", stats.render("Residuals vs Fitted", [yPred, residuals])),
          Plot("ACF", "acf", stats.render("Autocorrelation Function (ACF) of Residuals", [residuals]))]
  }

  /**
   * `check_independence(X, y, return_plot, model_wrapper)`: the Durbin-Watson
   * statistic of the wrapper's residuals must lie in the closed band
   * [1.5, 2.5]. The check never fails with an error.
   */
  function CheckIndependence(stats: Statistics, x: Predictors, y: seq<real>, returnPlot: bool,
                             modelWrapper: Option<ModelWrapper>): (r: AssumptionResult)
    ensures r.name == "independence" && VerdictConsistent(r)
    ensures var w := ModelUtils.ResolveWrapper(modelWrapper, x, y, stats);
      var dw := stats.durbinWatson(w.Residuals());
      && (r.passed <==> 1.5 <= dw && dw <= 2.5)
      && r.severity == Some(stats.classifySeverity(dw, Band(1.5, 2.5)))
      && r.residuals == Some(w.Residuals()) && r.fitted == Some(w.Fitted())
    ensures r.plotBase64.None? && r.plots.Some?
    ensures returnPlot <==> |r.plots.value| == 2
    ensures !returnPlot <==> r.plots.value == []
  {
    var w := ModelUtils.ResolveWrapper(modelWrapper, x, y, stats);
    var residuals := w.Residuals();
    var yPred := w.Fitted();
    var dw := stats.durbinWatson(residuals);
    var passed := DurbinWatsonLower <= dw <= DurbinWatsonUpper;
    AssumptionResult(
      name := "independence",
      passed := passed,
      summary := stats.summarize("independence", [dw], passed),
      details := Dicts.FromPairs([("durbin_watson", Num(dw)), ("expected_range", Text(ExpectedRange))]),
      residuals := Some(residuals),
      fitted := Some(yPred),
      plots := Some(Plots(stats, returnPlot, residuals, yPred)),
      severity := Some(stats.classifySeverity(dw, Band(DurbinWatsonLower, DurbinWatsonUpper))),
      recommendation := if passed then None else Some(Recommendation),
      flag := Some(if passed then Info else Warning))
  }

  /** Both ends of the band pass, as does the no-autocorrelation value 2, and
      values just outside fail. */
  lemma BandIsClosed(stats: Statistics, x: Predictors, y: seq<real>, returnPlot: bool, w: ModelWrapper)
    ensures var dw := stats.durbinWatson(w.Residuals());
      (dw == 1.5 || dw == 2.0 || dw == 2.5) ==> CheckIndependence(stats, x, y, returnPlot, Some(w)).passed
    ensures var dw := stats.durbinWatson(w.Residuals());
      (dw < 1.5 || dw > 2.5) ==> CheckIndependence(stats, x, y, returnPlot, Some(w)).recommendation == Some(Recommendation)
  {
  }

  /** The details hold exactly the statistic and the expected band, in that order. */
  lemma DetailsKeys(stats: Statistics, x: Predictors, y: seq<real>, returnPlot: bool, w: Option<ModelWrapper>)
    ensures var dw := stats.durbinWatson(ModelUtils.ResolveWrapper(w, x, y, stats).Residuals());
      CheckIndependence(stats, x, y, returnPlot, w).details ==
        Dicts.Dict(["durbin_watson", "expected_range"],
                   map["durbin_watson" := Num(dw), "expected_range" := Text("1.5-2.5")])
  {
    var dw := stats.durbinWatson(ModelUtils.ResolveWrapper(w, x, y, stats).Residuals());
    Dicts.FromPairsTwo("durbin_watson", Num(dw), "expected_range", Text(ExpectedRange));
  }

  /** The verdict depends on the residuals only: plots do not change it. */
  lemma VerdictIgnoresPlots(stats: Statistics, x: Predictors, y: seq<real>, w: Option<ModelWrapper>)
    ensures CheckIndependence(stats, x, y, true, w).passed == CheckIndependence(stats, x, y, false, w).passed
    ensures CheckIndependence(stats, x, y, true, w).severity == CheckIndependence(stats, x, y, false, w).severity
  {
  }
}
