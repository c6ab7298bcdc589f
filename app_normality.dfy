/** The three-test normality check of the web app (app/core/normality.py). */
module AppNormality {
  import opened Wrappers
  import opened Types
  import opened Library
  import opened Config
  import opened Reductions
  import Dicts

  const Recommendation := "Consider log-transforming Y or using robust regression."

  const TestsUsed: seq<string> := [
    "Shapiro-Wilk (tests overall shape)",
    "D'Agostino-Pearson (tests skew/kurtosis)",
    "Anderson-Darling (emphasizes tails)"]

  /** The Anderson-Darling sub-verdict: the statistic must be strictly below
      the 5% critical value, the third entry of the critical values. */
  function AndersonPassed(a: AndersonResult): (passed: bool)
    requires |a.criticalValues| >= 3
    ensures passed <==> a.statistic < a.criticalValues[2]
  {
    a.statistic < a.criticalValues[2]
  }

  /** The Anderson-Darling severity: low when it passed, high otherwise,
      with no moderate tier. */
  function AndersonSeverity(passed: bool): (s: Severity)
    ensures s != Moderate
    ensures s == Low <==> passed
  {
    if passed then Low else High
  }

  /** `sum([...]) >= 2`: at least two of the three sub-tests passed. */
  function Majority(shapiroPassed: bool, dagostinoPassed: bool, andersonPassed: bool): (passed: bool)
    ensures passed <==> (shapiroPassed && dagostinoPassed) || (shapiroPassed && andersonPassed)
                        || (dagostinoPassed && andersonPassed)
  {
    MajorityOfThree(shapiroPassed, dagostinoPassed, andersonPassed);
    CountTrue([shapiroPassed, dagostinoPassed, andersonPassed]) >= 2
  }

  /** The worst of the three severities under low < moderate < high. */
  function WorstOfThree(s1: Severity, s2: Severity, s3: Severity): (w: Severity)
    ensures s1.AtMost(w) && s2.AtMost(w) && s3.AtMost(w)
    ensures w == s1 || w == s2 || w == s3
  {
    var ss := [s1, s2, s3];
    assert ss[0] == s1 && ss[1] == s2 && ss[2] == s3;
    Worst(ss)
  }

  /** The Q-Q plot and the residual histogram, drawn only on request. */
  function Plots(stats: Statistics, returnPlot: bool, residuals: seq<real>): (ps: seq<Plot>)
    ensures !returnPlot ==> ps == []
    ensures returnPlot ==> (
      && |ps| == 2
      && ps[0].title == "Q-Q Plot" && ps[0].kind == "qq"
      && ps[1].title == "Histogram" && ps[1].kind == "histogram")
  {
    if !returnPlot then []
    else [Plot("Q-Q Plot", "qq", stats.render("Q-Q Plot (Normality Check)", [residuals])),
          Plot("Histogram", "histogram", stats.render("Histogram of Residuals", [residuals]))]
  }

  /** The detail pairs, in the source's order. */
  function DetailPairs(shapiroPval: real, dagostinoPval: real, andersonStat: real, andersonCritical: real)
    : seq<(string, DetailValue)>
  {
    [("shapiro_pval", Num(shapiroPval)),
     ("dagostino_pval", Num(dagostinoPval)),
     ("anderson_stat", Num(andersonStat)),
     ("anderson_critical_5pct", Num(andersonCritical)),
     ("normality_pval_threshold", Num(NormalityPvalThreshold)),
     ("tests_used:", TextList(TestsUsed))]
  }

  /**
   * `check_normality(X, y, return_plot)`: the Shapiro-Wilk and
   * D'Agostino-Pearson tests pass for p strictly above 0.05 and the
   * Anderson-Darling test passes below its 5% critical value; the check
   * passes when at least two of the three pass, and its severity is the
   * worst of the three. Fewer than three critical values make the index
   * raise.
   */
  function CheckNormality(stats: Statistics, x: seq<real>, y: seq<real>, returnPlot: bool)
    : (r: Result<AssumptionResult, CheckError>)
    ensures var residuals := stats.ols(Series(x), y).resid;
      && (r.Err? <==> |stats.anderson(residuals).criticalValues| < 3)
      && (r.Err? ==> r.error == IndexOutOfRange)
    ensures r.Ok? ==> r.value.name == "normality" && VerdictConsistent(r.value)
    ensures r.Ok? ==> (
      var model := stats.ols(Series(x), y);
      var a := stats.anderson(model.resid);
      var sp := stats.shapiroPval(model.resid);
      var dp := stats.normaltestPval(model.resid);
      var shapiroPassed, dagostinoPassed, andersonPassed := sp > 0.05, dp > 0.05, a.statistic < a.criticalValues[2];
      var s1, s2 := stats.classifySeverity(sp, PvalSeverityTable), stats.classifySeverity(dp, PvalSeverityTable);
      var s3 := if andersonPassed then Low else High;
      && (r.value.passed <==> (shapiroPassed && dagostinoPassed) || (shapiroPassed && andersonPassed)
                              || (dagostinoPassed && andersonPassed))
      && r.value.severity.Some?
      && s1.AtMost(r.value.severity.value) && s2.AtMost(r.value.severity.value) && s3.AtMost(r.value.severity.value)
      && (r.value.severity.value == s1 || r.value.severity.value == s2 || r.value.severity.value == s3)
      && (!andersonPassed ==> r.value.severity == Some(High))
      && r.value.residuals == Some(model.resid) && r.value.fitted == Some(model.fittedValues)
      && r.value.plotBase64.None? && r.value.plots.Some?
      && (!returnPlot ==> r.value.plots.value == [])
      && (returnPlot ==> |r.value.plots.value| == 2))
  {
    var model := stats.ols(Series(x), y);
    var residuals := model.resid;
    var fitted := model.fittedValues;
    var shapiroPval := stats.shapiroPval(residuals);
    var shapiroPassed := shapiroPval > NormalityPvalThreshold;
    var shapiroSeverity := stats.classifySeverity(shapiroPval, PvalSeverityTable);
    var dagostinoPval := stats.normaltestPval(residuals);
    var dagostinoPassed := dagostinoPval > NormalityPvalThreshold;
    var dagostinoSeverity := stats.classifySeverity(dagostinoPval, PvalSeverityTable);
    var a := stats.anderson(residuals);
    if |a.criticalValues| < 3 then Err(IndexOutOfRange)
    else
      var andersonPassed := AndersonPassed(a);
      var andersonSeverity := AndersonSeverity(andersonPassed);
      var severity := WorstOfThree(shapiroSeverity, dagostinoSeverity, andersonSeverity);
      var passed := Majority(shapiroPassed, dagostinoPassed, andersonPassed);
      Ok(AssumptionResult(
        name := "normality",
        passed := passed,
        summary := stats.summarize("normality", [shapiroPval, dagostinoPval, a.statistic, a.criticalValues[2]], passed),
        details := Dicts.FromPairs(DetailPairs(shapiroPval, dagostinoPval, a.statistic, a.criticalValues[2])),
        residuals := Some(residuals),
        fitted := Some(fitted),
        plots := Some(Plots(stats, returnPlot, residuals)),
        severity := Some(severity),
        recommendation := if passed then None else Some(Recommendation),
        flag := Some(if passed then Info else Warning)))
  }

  // Each detail is found under its key, one key per lemma.

  lemma DetailShapiro(sp: real, dp: real, stat: real, crit: real)
    ensures Dicts.FromPairs(DetailPairs(sp, dp, stat, crit)).Get("shapiro_pval") == Some(Num(sp))
  {
    Dicts.FromPairsLast(DetailPairs(sp, dp, stat, crit), 0);
  }

  lemma DetailDagostino(sp: real, dp: real, stat: real, crit: real)
    ensures Dicts.FromPairs(DetailPairs(sp, dp, stat, crit)).Get("dagostino_pval") == Some(Num(dp))
  {
    Dicts.FromPairsLast(DetailPairs(sp, dp, stat, crit), 1);
  }

  lemma DetailAndersonStat(sp: real, dp: real, stat: real, crit: real)
    ensures Dicts.FromPairs(DetailPairs(sp, dp, stat, crit)).Get("anderson_stat") == Some(Num(stat))
  {
    Dicts.FromPairsLast(DetailPairs(sp, dp, stat, crit), 2);
  }

  lemma DetailAndersonCritical(sp: real, dp: real, stat: real, crit: real)
    ensures Dicts.FromPairs(DetailPairs(sp, dp, stat, crit)).Get("anderson_critical_5pct") == Some(Num(crit))
  {
    Dicts.FromPairsLast(DetailPairs(sp, dp, stat, crit), 3);
  }

  lemma DetailThreshold(sp: real, dp: real, stat: real, crit: real)
    ensures Dicts.FromPairs(DetailPairs(sp, dp, stat, crit)).Get("normality_pval_threshold") == Some(Num(0.05))
  {
    Dicts.FromPairsLast(DetailPairs(sp, dp, stat, crit), 4);
  }

  lemma DetailTestsUsed(sp: real, dp: real, stat: real, crit: real)
    ensures Dicts.FromPairs(DetailPairs(sp, dp, stat, crit)).Get("tests_used:") == Some(TextList(TestsUsed))
  {
    Dicts.FromPairsLast(DetailPairs(sp, dp, stat, crit), 5);
  }

  /** The six details of a successful check, each holding what the source stores. */
  lemma DetailsHold(stats: Statistics, x: seq<real>, y: seq<real>, returnPlot: bool)
    requires CheckNormality(stats, x, y, returnPlot).Ok?
    ensures var residuals := stats.ols(Series(x), y).resid;
      var a := stats.anderson(residuals);
      var d := CheckNormality(stats, x, y, returnPlot).value.details;
      && |a.criticalValues| >= 3
      && d.Get("shapiro_pval") == Some(Num(stats.shapiroPval(residuals)))
      && d.Get("dagostino_pval") == Some(Num(stats.normaltestPval(residuals)))
      && d.Get("anderson_stat") == Some(Num(a.statistic))
      && d.Get("anderson_critical_5pct") == Some(Num(a.criticalValues[2]))
      && d.Get("normality_pval_threshold") == Some(Num(0.05))
      && d.Get("tests_used:") == Some(TextList(TestsUsed))
  {
    var residuals := stats.ols(Series(x), y).resid;
    var a := stats.anderson(residuals);
    var sp, dp := stats.shapiroPval(residuals), stats.normaltestPval(residuals);
    var ps := DetailPairs(sp, dp, a.statistic, a.criticalValues[2]);
    assert CheckNormality(stats, x, y, returnPlot).value.details == Dicts.FromPairs(ps);
    DetailShapiro(sp, dp, a.statistic, a.criticalValues[2]);
    DetailDagostino(sp, dp, a.statistic, a.criticalValues[2]);
    DetailAndersonStat(sp, dp, a.statistic, a.criticalValues[2]);
    DetailAndersonCritical(sp, dp, a.statistic, a.criticalValues[2]);
    DetailThreshold(sp, dp, a.statistic, a.criticalValues[2]);
    DetailTestsUsed(sp, dp, a.statistic, a.criticalValues[2]);
  }

  /** Passing both p-value tests passes the check whatever Anderson-Darling
      says, and failing both fails it whatever Anderson-Darling says. */
  lemma TwoPvalueTestsDecide(stats: Statistics, x: seq<real>, y: seq<real>, returnPlot: bool)
    requires CheckNormality(stats, x, y, returnPlot).Ok?
    ensures var residuals := stats.ols(Series(x), y).resid;
      var sp, dp := stats.shapiroPval(residuals), stats.normaltestPval(residuals);
      && (sp > 0.05 && dp > 0.05 ==> CheckNormality(stats, x, y, returnPlot).value.passed)
      && (sp <= 0.05 && dp <= 0.05 ==> !CheckNormality(stats, x, y, returnPlot).value.passed)
  {
  }
}
