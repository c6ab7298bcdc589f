/** The multicollinearity check over per-feature VIFs (src/core/multicollinearity.py). */
module Multicollinearity {
  import opened Wrappers
  import opened Types
  import opened Library
  import opened Config
  import opened Reductions
  import Dicts

  const SkipSummary := "Only one predictor — multicollinearity not applicable."
  const SkipNote := "Multicollinearity requires at least two predictor variables."
  const Recommendation := "Consider removing one of the correlated features or combining them into a single feature"

  /** One row of the `vif_data` frame. `passed` is the source's 1/0 column. */
  datatype VifRow = VifRow(feature: string, vif: real, passed: int, severity: Severity)

  /** `X.values`, given column by column. */
  function ColumnValues(columns: seq<Column>): (m: seq<seq<real>>)
    ensures |m| == |columns| && forall i :: 0 <= i < |columns| ==> m[i] == columns[i].values
  {
    seq(|columns|, i requires 0 <= i < |columns| => columns[i].values)
  }

  /** `[variance_inflation_factor(X.values, i) for i in range(X.shape[1])]`:
      exactly one VIF per column, in column order. */
  function Vifs(stats: Statistics, columns: seq<Column>): (v: seq<real>)
    ensures |v| == |columns|
    ensures forall i :: 0 <= i < |columns| ==> v[i] == stats.vif(ColumnValues(columns), i)
  {
    var m := ColumnValues(columns);
    seq(|columns|, i requires 0 <= i < |columns| => stats.vif(m, i))
  }

  /** The `vif_data` frame, column by column as the source fills it. */
  function VifTable(stats: Statistics, columns: seq<Column>): (t: seq<VifRow>)
    ensures |t| == |columns|
  {
    var v := Vifs(stats, columns);
    seq(|columns|, i requires 0 <= i < |columns| =>
      VifRow(columns[i].name, v[i],
             if v[i] <= VifThreshold as real then 1 else 0,
             stats.classifySeverity(v[i], VifSeverityTable)))
  }

  /** The per-feature severities of the table. */
  function Severities(t: seq<VifRow>): (s: seq<Severity>)
    ensures |s| == |t| && forall i :: 0 <= i < |t| ==> s[i] == t[i].severity
  {
    seq(|t|, i requires 0 <= i < |t| => t[i].severity)
  }

  /** The worst per-feature severity: at least every row's, and one row's. */
  function OverallSeverity(t: seq<VifRow>): (w: Severity)
    requires |t| > 0
    ensures forall i :: 0 <= i < |t| ==> t[i].severity.AtMost(w)
    ensures exists i :: 0 <= i < |t| && t[i].severity == w
  {
    var ss := Severities(t);
    var w := Worst(ss);
    var i :| 0 <= i < |ss| && ss[i] == w;
    w
  }

  /** `all(vif_data["VIF"] < 5)`, with the literal 5 of the source. */
  function AllBelowFive(v: seq<real>): (passed: bool)
    requires |v| > 0
    ensures passed <==> Max(v) < 5.0
  {
    MaxBelowIff(v, 5.0);
    forall i :: 0 <= i < |v| ==> v[i] < 5.0
  }

  function VifKey(feature: string): string { feature + " (VIF)" }
  function ThresholdKey(feature: string): string { feature + " threshold" }

  /** The `details` dict: every feature's VIF, then every feature's threshold,
      then the maximum VIF and the VIF threshold. */
  function DetailPairs(columns: seq<Column>, v: seq<real>): (ps: seq<(string, DetailValue)>)
    requires |v| == |columns| > 0
    ensures |ps| == 2 * |columns| + 2
  {
    seq(|columns|, i requires 0 <= i < |columns| => (VifKey(columns[i].name), Num(v[i])))
    + seq(|columns|, i requires 0 <= i < |columns| => (ThresholdKey(columns[i].name), Int(VifThreshold)))
    + [("max_variance_inflation_factor", Num(Max(v))), ("multicollinearity_vif_threshold", Int(VifThreshold))]
  }

  /** The `details` dict built from the detail pairs. */
  function VifDetails(columns: seq<Column>, v: seq<real>): Details
    requires |v| == |columns| > 0
  {
    Dicts.FromPairs(DetailPairs(columns, v))
  }

  /** The record returned for fewer than two columns. */
  function SkipResult(): (r: AssumptionResult)
    ensures SkipRecord(r) && r.name == "multicollinearity"
  {
    AssumptionResult(
      name := "multicollinearity", passed := true, summary := SkipSummary,
      details := Dicts.FromPairs([("note", Text(SkipNote))]),
      plotBase64 := None, severity := Some(Low), recommendation := None, flag := Some(Info))
  }

  /** The verdict on a frame of at least two columns. */
  function Assess(stats: Statistics, columns: seq<Column>, returnPlot: bool): (r: AssumptionResult)
    requires |columns| >= 2
    ensures r.name == "multicollinearity"
    ensures r.recommendation.None? <==> r.passed
    ensures r.flag == Some(if r.passed then Info else Warning)
    ensures r.residuals.None? && r.fitted.None? && r.plots.None?
    ensures r.passed <==> Max(Vifs(stats, columns)) < 5.0
    ensures r.severity.Some?
    ensures var t := VifTable(stats, columns);
      && (forall i :: 0 <= i < |t| ==> t[i].severity.AtMost(r.severity.value))
      && (exists i :: 0 <= i < |t| && t[i].severity == r.severity.value)
    ensures r.plotBase64.Some? <==> returnPlot
  {
    var t := VifTable(stats, columns);
    var v := Vifs(stats, columns);
    var severity := OverallSeverity(t);
    var passed := AllBelowFive(v);
    AssumptionResult(
      name := "multicollinearity",
      passed := passed,
      summary := stats.summarize("multicollinearity", [Max(v)], passed),
      details := VifDetails(columns, v),
      plotBase64 := if returnPlot then Some(stats.render("Correlation of feature values", ColumnValues(columns))) else None,
      severity := Some(severity),
      recommendation := if passed then None else Some(Recommendation),
      flag := Some(if passed then Info else Warning))
  }

  /**
   * `check_multicollinearity(X, y, return_plot, model_wrapper)`. A Series
   * has no second dimension, so reading `X.shape[1]` raises; a frame with
   * fewer than two columns is skipped; otherwise the check passes iff every
   * VIF is strictly below 5, and its severity is the worst of the
   * per-feature severities. The model wrapper is never used.
   */
  function CheckMulticollinearity(stats: Statistics, x: Predictors, y: seq<real>, returnPlot: bool,
                                  modelWrapper: Option<ModelWrapper>): (r: Result<AssumptionResult, CheckError>)
    ensures x.Series? <==> r.Err?
    ensures x.Series? ==> r.error == IndexOutOfRange
    ensures x.Frame? && |x.columns| < 2 ==> r.Ok? && SkipRecord(r.value)
    ensures r.Ok? ==> r.value.name == "multicollinearity" && VerdictConsistent(r.value)
    ensures r.Ok? ==> r.value.residuals.None? && r.value.fitted.None? && r.value.plots.None?
    ensures x.Frame? && |x.columns| >= 2 ==> r == Ok(Assess(stats, x.columns, returnPlot))
  {
    if x.Series? then Err(IndexOutOfRange)
    else if |x.columns| < 2 then Ok(SkipResult())
    else Ok(Assess(stats, x.columns, returnPlot))
  }

  /** `t in s` for strings: `t` occurs somewhere in `s`. */
  predicate Contains(s: string, t: string)
    decreases |s|
  {
    t <= s || (|s| > 0 && Contains(s[1..], t))
  }

  /** An occurrence at position `i` is an occurrence. */
  lemma {:induction false} ContainsAt(s: string, t: string, i: nat)
    requires i + |t| <= |s| && s[i..i + |t|] == t
    ensures Contains(s, t)
    decreases i
  {
    if i > 0 {
      assert s[1..][i - 1..i - 1 + |t|] == s[i..i + |t|];
      ContainsAt(s[1..], t, i - 1);
    }
  }

  /** "not applicable" starts at position 39 of the skip summary. */
  lemma NotApplicableAt39()
    ensures |SkipSummary| >= 53 && SkipSummary[39..53] == "not applicable"
  {
    var head, tail := "Only one predictor — multicollinearity ", "not applicable";
    assert SkipSummary == head + tail + ".";
    assert |head| == 39;
    assert (head + tail + ".")[39..53] == tail;
  }

  /** The skip record's summary contains "not applicable". */
  lemma SkipSaysNotApplicable(stats: Statistics, x: Predictors, y: seq<real>, returnPlot: bool,
                              w: Option<ModelWrapper>)
    requires x.Frame? && |x.columns| < 2
    ensures Contains(CheckMulticollinearity(stats, x, y, returnPlot, w).value.summary, "not applicable")
  {
    NotApplicableAt39();
    ContainsAt(SkipSummary, "not applicable", 39);
  }

  /** A VIF of exactly 5 passes the per-feature column (`<= VIF_THRESHOLD`)
      but fails the overall verdict (`< 5`). */
  lemma VifOfFiveSplitsVerdicts(stats: Statistics, x: Predictors, y: seq<real>, returnPlot: bool,
                                w: Option<ModelWrapper>, i: nat)
    requires x.Frame? && |x.columns| >= 2 && i < |x.columns|
    requires Vifs(stats, x.columns)[i] == 5.0
    ensures VifTable(stats, x.columns)[i].passed == 1
    ensures !CheckMulticollinearity(stats, x, y, returnPlot, w).value.passed
  {
  }

  /** The per-feature column passes exactly when the VIF is at most the threshold. */
  lemma PerFeaturePass(stats: Statistics, columns: seq<Column>, i: nat)
    requires i < |columns|
    ensures VifTable(stats, columns)[i].feature == columns[i].name
    ensures VifTable(stats, columns)[i].vif == Vifs(stats, columns)[i]
    ensures VifTable(stats, columns)[i].passed == 1 <==> Vifs(stats, columns)[i] <= 5.0
    ensures VifTable(stats, columns)[i].severity == stats.classifySeverity(Vifs(stats, columns)[i], VifSeverityTable)
  {
  }

  /** The last character of a string. */
  function Last(s: string): char
    requires |s| > 0
  {
    s[|s| - 1]
  }

  lemma KeyEndings(f: string, g: string)
    ensures Last(VifKey(f)) == ')' && Last(ThresholdKey(f)) == 'd'
    ensures VifKey(f) != ThresholdKey(g)
    ensures VifKey(f) != "max_variance_inflation_factor" && VifKey(f) != "multicollinearity_vif_threshold"
    ensures ThresholdKey(f) != "max_variance_inflation_factor"
  {
    assert Last(VifKey(f)) == Last(" (VIF)");
    assert Last(ThresholdKey(g)) == Last(" threshold");
    assert Last("max_variance_inflation_factor") == 'r';
    assert Last("multicollinearity_vif_threshold") == 'd';
  }

  /** Two VIF keys are equal only for equal feature names. */
  lemma VifKeyInjective(f: string, g: string)
    requires VifKey(f) == VifKey(g)
    ensures f == g
  {
    assert |f| == |g|;
    assert f == VifKey(f)[..|f|];
    assert g == VifKey(g)[..|g|];
  }

  /** Each threshold key maps to 5: only threshold pairs, and possibly the
      overall threshold pair, can carry that key, and all carry 5. */
  lemma DetailThreshold(columns: seq<Column>, v: seq<real>, i: nat)
    requires |v| == |columns| > 0 && i < |columns|
    ensures Dicts.FromPairs(DetailPairs(columns, v)).Get(ThresholdKey(columns[i].name)) == Some(Int(5))
  {
    var n := |columns|;
    var ps := DetailPairs(columns, v);
    var f := columns[i].name;
    assert ps[n + i].0 == ThresholdKey(f);
    forall j | 0 <= j < |ps| && ps[j].0 == ThresholdKey(f) ensures ps[j].1 == Int(5) {
      if j < n {
        KeyEndings(columns[j].name, f);
      } else if j == 2 * n {
        KeyEndings(f, f);
      }
    }
    Dicts.FromPairsUniform(ps, ThresholdKey(f), Int(5));
  }

  /** Every VIF key is present; it maps to the column's own VIF when no later
      column has the same name. */
  lemma DetailVif(columns: seq<Column>, v: seq<real>, i: nat)
    requires |v| == |columns| > 0 && i < |columns|
    ensures VifKey(columns[i].name) in Dicts.FromPairs(DetailPairs(columns, v)).values
    ensures (forall j :: i < j < |columns| ==> columns[j].name != columns[i].name) ==>
      Dicts.FromPairs(DetailPairs(columns, v)).Get(VifKey(columns[i].name)) == Some(Num(v[i]))
  {
    var n := |columns|;
    var ps := DetailPairs(columns, v);
    var f := columns[i].name;
    assert ps[i] == (VifKey(f), Num(v[i]));
    Dicts.FromPairsHas(ps, VifKey(f));
    if forall j :: i < j < n ==> columns[j].name != f {
      forall j | i < j < |ps| ensures ps[j].0 != ps[i].0 {
        if j < n {
          if ps[j].0 == ps[i].0 { VifKeyInjective(columns[j].name, f); }
        } else if j < 2 * n {
          KeyEndings(f, columns[j - n].name);
        } else {
          KeyEndings(f, f);
        }
      }
      Dicts.FromPairsLast(ps, i);
    }
  }

  /** The two trailing keys: the maximum VIF and the VIF threshold. */
  lemma DetailSummaryKeys(columns: seq<Column>, v: seq<real>)
    requires |v| == |columns| > 0
    ensures Dicts.FromPairs(DetailPairs(columns, v)).Get("max_variance_inflation_factor") == Some(Num(Max(v)))
    ensures Dicts.FromPairs(DetailPairs(columns, v)).Get("multicollinearity_vif_threshold") == Some(Int(5))
  {
    var n := |columns|;
    var ps := DetailPairs(columns, v);
    assert ps[2 * n] == ("max_variance_inflation_factor", Num(Max(v)));
    Dicts.FromPairsLast(ps, 2 * n);
    assert ps[2 * n + 1] == ("multicollinearity_vif_threshold", Int(5));
    Dicts.FromPairsLast(ps, 2 * n + 1);
  }

  /**
   * For every column, `details` holds "`<feature>` threshold" = 5 and
   * "`<feature>` (VIF)"; the latter is the column's own VIF when no later
   * column has the same name (a repeated name keeps the last VIF). It also
   * holds the maximum VIF and the VIF threshold.
   */
  lemma DetailsPerFeature(stats: Statistics, x: Predictors, y: seq<real>, returnPlot: bool,
                          w: Option<ModelWrapper>, i: nat)
    requires x.Frame? && |x.columns| >= 2 && i < |x.columns|
    ensures var d := CheckMulticollinearity(stats, x, y, returnPlot, w).value.details;
      && d.Get(ThresholdKey(x.columns[i].name)) == Some(Int(5))
      && VifKey(x.columns[i].name) in d.values
      && ((forall j :: i < j < |x.columns| ==> x.columns[j].name != x.columns[i].name) ==>
            d.Get(VifKey(x.columns[i].name)) == Some(Num(Vifs(stats, x.columns)[i])))
      && d.Get("max_variance_inflation_factor") == Some(Num(Max(Vifs(stats, x.columns))))
      && d.Get("multicollinearity_vif_threshold") == Some(Int(5))
  {
    var v := Vifs(stats, x.columns);
    assert CheckMulticollinearity(stats, x, y, returnPlot, w).value.details == Dicts.FromPairs(DetailPairs(x.columns, v));
    DetailThreshold(x.columns, v, i);
    DetailVif(x.columns, v, i);
    DetailSummaryKeys(x.columns, v);
  }
}
