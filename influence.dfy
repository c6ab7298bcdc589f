/** The influential-observation check (src/core/influence.py). */
module Influence {
  import opened Wrappers
  import opened Types
  import opened Library
  import opened Config
  import opened Reductions
  import Dicts
  import ModelUtils

  const Recommendation := "Investigate high-leverage or influential observations. Points with high Cook's Distance, DFBETAs, or leverage may unduly influence the model. Consider robust regression methods or removing these points after further review."

  /** The influence measures of the wrapper the check uses. */
  function Measures(stats: Statistics, x: Predictors, y: seq<real>, modelWrapper: Option<ModelWrapper>): InfluenceStats
  {
    ModelUtils.ResolveWrapper(modelWrapper, x, y, stats).GetInfluence()
  }

  /** Every entry of `s` is at most `c`. */
  predicate AllAtMost(s: seq<real>, c: real) {
    forall i :: 0 <= i < |s| ==> s[i] <= c
  }

  /** "Fail if any one exceeds threshold": the three maxima are within their
      thresholds exactly when every single measure is. */
  function Passes(cooks: seq<real>, leverage: seq<real>, absDfbetas: seq<real>,
                  cooksThresh: real, leverageThresh: real, dfbetaCutoff: real): (passed: bool)
    requires |cooks| > 0 && |leverage| > 0 && |absDfbetas| > 0
    ensures passed <==> AllAtMost(cooks, cooksThresh) && AllAtMost(leverage, leverageThresh)
                        && AllAtMost(absDfbetas, dfbetaCutoff)
  {
    MaxAtMostIff(cooks, cooksThresh);
    MaxAtMostIff(leverage, leverageThresh);
    MaxAtMostIff(absDfbetas, dfbetaCutoff);
    Max(cooks) <= cooksThresh && Max(leverage) <= leverageThresh && Max(absDfbetas) <= dfbetaCutoff
  }

  /** The detail pairs, in the order the source writes them. */
  function DetailPairs(maxCook: real, cooksThresh: real, maxLeverage: real, leverageThresh: real,
                       meanLeverage: real, maxDfbeta: real, dfbetaCutoff: real, extreme: nat): seq<(string, DetailValue)>
  {
    [("max_cooks_distance", Num(maxCook)),
     ("cooks_distance_threshold", Num(cooksThresh)),
     ("max_leverage", Num(maxLeverage)),
     ("leverage_threshold", Num(leverageThresh)),
     ("mean_leverage", Num(meanLeverage)),
     ("max_dfbeta", Num(maxDfbeta)),
     ("dfbeta_threshold", Num(dfbetaCutoff)),
     ("num_large_dfbetas", Int(extreme))]
  }

  /** The Cook's distance stem plot and the leverage/residual influence plot. */
  function Plots(stats: Statistics, returnPlot: bool, w: ModelWrapper): (ps: seq<Plot>)
    ensures !returnPlot ==> ps == []
    ensures returnPlot ==> (
      && |ps| == 2
      && ps[0].title == "Cook's Distance" && ps[0].kind == "cooks_distance"
      && ps[1].title == "Influence Plot (Leverage vs Residuals)" && ps[1].kind == "influence_plot")
  {
    if !returnPlot then []
    else [Plot("Cook's Distance", "cooks_distance",
               stats.render("Cook's Distance by Observation", [w.GetInfluence().cooksDistance])),
          Plot("Influence Plot (Leverage vs Residuals)", "influence_plot",
               stats.render("Influence Plot", [w.GetInfluence().hatMatrixDiag, w.Residuals()]))]
  }

  /**
   * `check_influence(X, y, return_plot, model_wrapper)`. Taking the maximum
   * of an empty Cook's, leverage or DFBETA array raises, as does unpacking
   * the one-dimensional shape of a Series and dividing by zero observations.
   * Otherwise the check passes iff no Cook's distance exceeds 0.1, no
   * leverage exceeds `2p/n` and no |DFBETA| exceeds the DFBETA threshold.
   */
  function CheckInfluence(stats: Statistics, x: Predictors, y: seq<real>, returnPlot: bool,
                          modelWrapper: Option<ModelWrapper>): (r: Result<AssumptionResult, CheckError>)
    ensures var m := Measures(stats, x, y, modelWrapper);
      var empty := |m.cooksDistance| == 0 || |m.hatMatrixDiag| == 0 || |m.dfbetas| == 0;
      && (empty ==> r == Err(EmptyReduction))
      && (!empty && x.Series? ==> r == Err(ShapeUnpack))
      && (!empty && x.Frame? && x.rows == 0 ==> r == Err(ZeroDivision))
      && (r.Ok? <==> !empty && x.Frame? && x.rows > 0)
    ensures r.Ok? ==> r.value.name == "influence" && VerdictConsistent(r.value)
    ensures r.Ok? ==> r.value.residuals.None? && r.value.fitted.None? && r.value.plotBase64.None?
    ensures r.Ok? ==> r.value.plots.Some? && (|r.value.plots.value| == 2 <==> returnPlot)
    ensures r.Ok? ==> (
      var m := Measures(stats, x, y, modelWrapper);
      && (r.value.passed <==>
            && AllAtMost(m.cooksDistance, 0.1)
            && AllAtMost(m.hatMatrixDiag, LeverageThreshold(x.rows, |x.columns|))
            && AllAtMost(AbsAll(m.dfbetas), stats.dfbetaThreshold(x.rows)))
      && r.value.severity == Some(stats.classifySeverity(Max(m.cooksDistance), CooksSeverityTable)))
  {
    var w := ModelUtils.ResolveWrapper(modelWrapper, x, y, stats);
    var inf := w.GetInfluence();
    if |inf.cooksDistance| == 0 || |inf.hatMatrixDiag| == 0 || |inf.dfbetas| == 0 then Err(EmptyReduction)
    else if x.Series? then Err(ShapeUnpack)
    else if x.rows == 0 then Err(ZeroDivision)
    else
      var cooks, leverage, dfbetas := inf.cooksDistance, inf.hatMatrixDiag, AbsAll(inf.dfbetas);
      var maxCook, meanLeverage, maxLeverage, maxDfbeta := Max(cooks), Mean(leverage), Max(leverage), Max(dfbetas);
      var n, p := x.rows, |x.columns|;
      var cooksThresh, leverageThresh, dfbetaCutoff := CooksThreshold(n), LeverageThreshold(n, p), stats.dfbetaThreshold(n);
      var extreme := CountAbove(dfbetas, dfbetaCutoff);
      var passed := Passes(cooks, leverage, dfbetas, cooksThresh, leverageThresh, dfbetaCutoff);
      Ok(AssumptionResult(
        name := "influence",
        passed := passed,
        summary := stats.summarize("influence", [maxCook], passed),
        details := Dicts.FromPairs(DetailPairs(maxCook, cooksThresh, maxLeverage, leverageThresh,
                                               meanLeverage, maxDfbeta, dfbetaCutoff, extreme)),
        plots := Some(Plots(stats, returnPlot, w)),
        flag := Some(if !passed then Warning else Info),
        severity := Some(stats.classifySeverity(maxCook, CooksSeverityTable)),
        recommendation := if passed then None else Some(Recommendation)))
  }

  /** The value `details` holds under `key`, for a successful check. */
  function Detail(stats: Statistics, x: Predictors, y: seq<real>, returnPlot: bool,
                  w: Option<ModelWrapper>, key: string): Option<DetailValue>
  {
    var r := CheckInfluence(stats, x, y, returnPlot, w);
    if r.Ok? then r.value.details.Get(key) else None
  }

  // Each detail is found under its key, one key per lemma.

  lemma DetailMaxCook(a: real, b: real, c: real, d: real, e: real, f: real, g: real, h: nat)
    ensures Dicts.FromPairs(DetailPairs(a, b, c, d, e, f, g, h)).Get("max_cooks_distance") == Some(Num(a))
  {
    Dicts.FromPairsLast(DetailPairs(a, b, c, d, e, f, g, h), 0);
  }

  lemma DetailCookThreshold(a: real, b: real, c: real, d: real, e: real, f: real, g: real, h: nat)
    ensures Dicts.FromPairs(DetailPairs(a, b, c, d, e, f, g, h)).Get("cooks_distance_threshold") == Some(Num(b))
  {
    Dicts.FromPairsLast(DetailPairs(a, b, c, d, e, f, g, h), 1);
  }

  lemma DetailMaxLeverage(a: real, b: real, c: real, d: real, e: real, f: real, g: real, h: nat)
    ensures Dicts.FromPairs(DetailPairs(a, b, c, d, e, f, g, h)).Get("max_leverage") == Some(Num(c))
  {
    Dicts.FromPairsLast(DetailPairs(a, b, c, d, e, f, g, h), 2);
  }

  lemma DetailLeverageThreshold(a: real, b: real, c: real, d: real, e: real, f: real, g: real, h: nat)
    ensures Dicts.FromPairs(DetailPairs(a, b, c, d, e, f, g, h)).Get("leverage_threshold") == Some(Num(d))
  {
    Dicts.FromPairsLast(DetailPairs(a, b, c, d, e, f, g, h), 3);
  }

  lemma DetailMeanLeverage(a: real, b: real, c: real, d: real, e: real, f: real, g: real, h: nat)
    ensures Dicts.FromPairs(DetailPairs(a, b, c, d, e, f, g, h)).Get("mean_leverage") == Some(Num(e))
  {
    Dicts.FromPairsLast(DetailPairs(a, b, c, d, e, f, g, h), 4);
  }

  lemma DetailMaxDfbeta(a: real, b: real, c: real, d: real, e: real, f: real, g: real, h: nat)
    ensures Dicts.FromPairs(DetailPairs(a, b, c, d, e, f, g, h)).Get("max_dfbeta") == Some(Num(f))
  {
    Dicts.FromPairsLast(DetailPairs(a, b, c, d, e, f, g, h), 5);
  }

  lemma DetailDfbetaThreshold(a: real, b: real, c: real, d: real, e: real, f: real, g: real, h: nat)
    ensures Dicts.FromPairs(DetailPairs(a, b, c, d, e, f, g, h)).Get("dfbeta_threshold") == Some(Num(g))
  {
    Dicts.FromPairsLast(DetailPairs(a, b, c, d, e, f, g, h), 6);
  }

  lemma DetailLargeDfbetas(a: real, b: real, c: real, d: real, e: real, f: real, g: real, h: nat)
    ensures Dicts.FromPairs(DetailPairs(a, b, c, d, e, f, g, h)).Get("num_large_dfbetas") == Some(Int(h))
  {
    Dicts.FromPairsLast(DetailPairs(a, b, c, d, e, f, g, h), 7);
  }

  /** The eight details of a successful check, each holding the reduction
      the source computes. */
  lemma DetailsHold(stats: Statistics, x: Predictors, y: seq<real>, returnPlot: bool,
                    w: Option<ModelWrapper>)
    requires CheckInfluence(stats, x, y, returnPlot, w).Ok?
    ensures var m := Measures(stats, x, y, w);
      var cutoff := stats.dfbetaThreshold(x.rows);
      && |m.cooksDistance| > 0 && |m.hatMatrixDiag| > 0 && |m.dfbetas| > 0 && x.Frame? && x.rows > 0
      && Detail(stats, x, y, returnPlot, w, "max_cooks_distance") == Some(Num(Max(m.cooksDistance)))
      && Detail(stats, x, y, returnPlot, w, "cooks_distance_threshold") == Some(Num(0.1))
      && Detail(stats, x, y, returnPlot, w, "max_leverage") == Some(Num(Max(m.hatMatrixDiag)))
      && Detail(stats, x, y, returnPlot, w, "leverage_threshold") == Some(Num(LeverageThreshold(x.rows, |x.columns|)))
      && Detail(stats, x, y, returnPlot, w, "mean_leverage") == Some(Num(Mean(m.hatMatrixDiag)))
      && Detail(stats, x, y, returnPlot, w, "max_dfbeta") == Some(Num(Max(AbsAll(m.dfbetas))))
      && Detail(stats, x, y, returnPlot, w, "dfbeta_threshold") == Some(Num(cutoff))
      && Detail(stats, x, y, returnPlot, w, "num_large_dfbetas") == Some(Int(CountAbove(AbsAll(m.dfbetas), cutoff)))
  {
    var m := Measures(stats, x, y, w);
    var n, p := x.rows, |x.columns|;
    var a, b, c, d := Max(m.cooksDistance), CooksThreshold(n), Max(m.hatMatrixDiag), LeverageThreshold(n, p);
    var e, f, g := Mean(m.hatMatrixDiag), Max(AbsAll(m.dfbetas)), stats.dfbetaThreshold(n);
    var h := CountAbove(AbsAll(m.dfbetas), g);
    var ps := DetailPairs(a, b, c, d, e, f, g, h);
    assert CheckInfluence(stats, x, y, returnPlot, w).value.details == Dicts.FromPairs(ps);
    DetailMaxCook(a, b, c, d, e, f, g, h);
    DetailCookThreshold(a, b, c, d, e, f, g, h);
    DetailMaxLeverage(a, b, c, d, e, f, g, h);
    DetailLeverageThreshold(a, b, c, d, e, f, g, h);
    DetailMeanLeverage(a, b, c, d, e, f, g, h);
    DetailMaxDfbeta(a, b, c, d, e, f, g, h);
    DetailDfbetaThreshold(a, b, c, d, e, f, g, h);
    DetailLargeDfbetas(a, b, c, d, e, f, g, h);
  }

  /** A passing check reports no large DFBETA, and the count is zero exactly
      when the largest |DFBETA| is within the cutoff. */
  lemma PassedMeansNoLargeDfbetas(stats: Statistics, x: Predictors, y: seq<real>, returnPlot: bool,
                                  w: Option<ModelWrapper>)
    requires CheckInfluence(stats, x, y, returnPlot, w).Ok?
    ensures var m := Measures(stats, x, y, w);
      var cutoff := stats.dfbetaThreshold(x.rows);
      && |m.dfbetas| > 0
      && (CountAbove(AbsAll(m.dfbetas), cutoff) == 0 <==> Max(AbsAll(m.dfbetas)) <= cutoff)
      && (CheckInfluence(stats, x, y, returnPlot, w).value.passed ==> CountAbove(AbsAll(m.dfbetas), cutoff) == 0)
  {
    var m := Measures(stats, x, y, w);
    CountAboveZeroIffMax(AbsAll(m.dfbetas), stats.dfbetaThreshold(x.rows));
  }

  /** The reported mean leverage never exceeds the reported maximum leverage. */
  lemma MeanLeverageAtMostMax(stats: Statistics, x: Predictors, y: seq<real>, returnPlot: bool,
                              w: Option<ModelWrapper>)
    requires CheckInfluence(stats, x, y, returnPlot, w).Ok?
    ensures var m := Measures(stats, x, y, w);
      |m.hatMatrixDiag| > 0 && Mean(m.hatMatrixDiag) <= Max(m.hatMatrixDiag)
  {
    MeanAtMostMax(Measures(stats, x, y, w).hatMatrixDiag);
  }

  /** The severity follows the largest Cook's distance only: two inputs
      with the same largest Cook's distance get the same severity. */
  lemma SeverityFollowsMaxCook(stats: Statistics, x1: Predictors, x2: Predictors, y1: seq<real>, y2: seq<real>,
                               p1: bool, p2: bool, w1: Option<ModelWrapper>, w2: Option<ModelWrapper>)
    requires CheckInfluence(stats, x1, y1, p1, w1).Ok? && CheckInfluence(stats, x2, y2, p2, w2).Ok?
    requires Max(Measures(stats, x1, y1, w1).cooksDistance) == Max(Measures(stats, x2, y2, w2).cooksDistance)
    ensures CheckInfluence(stats, x1, y1, p1, w1).value.severity == CheckInfluence(stats, x2, y2, p2, w2).value.severity
  {
  }
}
