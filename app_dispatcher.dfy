/** Dispatch of the web app's checks by name (app/core/dispatcher.py). */
module AppDispatcher {
  import opened Wrappers
  import opened Types
  import opened Library
  import opened AppRegistry
  import Dicts
  import AppLinearity
  import AppHomoscedasticity

  /** `check_linearity` as a registered check. */
  function LinearityCheck(stats: Statistics): CheckFn {
    (x: seq<real>, y: seq<real>, returnPlot: bool) => AppLinearity.CheckLinearity(stats, x, y, returnPlot)
  }

  /** `check_homoscedasticity` as a registered check; it never raises. */
  function HomoscedasticityCheck(stats: Statistics): CheckFn {
    (x: seq<real>, y: seq<real>, returnPlot: bool) => Ok(AppHomoscedasticity.CheckHomoscedasticity(stats, x, y, returnPlot))
  }

  /** The dispatcher's own `ASSUMPTION_CHECKS` literal. Both functions are
      decorated with the default model types. */
  function DispatchTable(stats: Statistics): (d: Dicts.Dict<TaggedCheck>)
    ensures d.Valid()
    ensures d.keys == ["linearity", "homoscedasticity"]
    ensures d.values == map["linearity" := TaggedCheck(LinearityCheck(stats), "linearity", DefaultModelTypes),
                            "homoscedasticity" := TaggedCheck(HomoscedasticityCheck(stats), "homoscedasticity", DefaultModelTypes)]
  {
    var lin := TaggedCheck(LinearityCheck(stats), "linearity", DefaultModelTypes);
    var hom := TaggedCheck(HomoscedasticityCheck(stats), "homoscedasticity", DefaultModelTypes);
    Dicts.FromPairsTwo("linearity", lin, "homoscedasticity", hom);
    Dicts.FromPairsValid([("linearity", lin), ("homoscedasticity", hom)]);
    Dicts.FromPairs([("linearity", lin), ("homoscedasticity", hom)])
  }

  /**
   * `check_assumption(name, X, y, return_plot)`: an unknown name raises a
   * `ValueError` naming it; a known one returns what its check returns.
   */
  function CheckAssumption(table: Dicts.Dict<TaggedCheck>, name: string, x: seq<real>, y: seq<real>, returnPlot: bool)
    : (r: Result<AssumptionResult, CheckError>)
    ensures name !in table.values ==> r.Err? && r.error == UnknownAssumption(name) && r.error.IsValueError()
    ensures name !in table.values ==> r.error.Message() == "Unknown assumption: '" + name + "'"
    ensures name in table.values ==> r == table.values[name].run(x, y, returnPlot)
  {
    if name !in table.values then Err(UnknownAssumption(name))
    else table.values[name].run(x, y, returnPlot)
  }

  /**
   * `run_all_checks(X, y, return_plot)`: run every check in table order and
   * collect the results under the checks' names. The first check that
   * raises aborts the run with its error.
   */
  method RunAllChecks(table: Dicts.Dict<TaggedCheck>, x: seq<real>, y: seq<real>, returnPlot: bool)
    returns (r: Result<Dicts.Dict<AssumptionResult>, CheckError>)
    requires table.Valid()
    ensures r.Ok? <==> forall i :: 0 <= i < |table.keys| ==> CheckAssumption(table, table.keys[i], x, y, returnPlot).Ok?
    ensures r.Ok? ==> r.value.Valid() && r.value.keys == table.keys
    ensures r.Ok? ==> forall i :: 0 <= i < |table.keys| ==>
      r.value.Get(table.keys[i]) == Some(CheckAssumption(table, table.keys[i], x, y, returnPlot).value)
    ensures r.Err? ==> exists i :: (
      && 0 <= i < |table.keys|
      && (forall j :: 0 <= j < i ==> CheckAssumption(table, table.keys[j], x, y, returnPlot).Ok?)
      && CheckAssumption(table, table.keys[i], x, y, returnPlot) == Err(r.error))
  {
    var results: Dicts.Dict<AssumptionResult> := Dicts.Empty();
    var i := 0;
    while i < |table.keys|
      invariant 0 <= i <= |table.keys|
      invariant results.Valid() && results.keys == table.keys[..i]
      invariant forall j :: 0 <= j < i ==> CheckAssumption(table, table.keys[j], x, y, returnPlot).Ok?
      invariant forall j :: 0 <= j < i ==>
        results.Get(table.keys[j]) == Some(CheckAssumption(table, table.keys[j], x, y, returnPlot).value)
    {
      var name := table.keys[i];
      var result := table.values[name].run(x, y, returnPlot);
      assert CheckAssumption(table, name, x, y, returnPlot) == result;
      if result.Err? {
        return Err(result.error);
      }
      assert name !in results.keys;
      results := results.Put(name, result.value);
      assert table.keys[..i + 1] == table.keys[..i] + [name];
      i := i + 1;
    }
    assert table.keys[..i] == table.keys;
    return Ok(results);
  }

  /** An unknown name such as "banana" is rejected with a `ValueError`. */
  lemma UnknownNameRaises(stats: Statistics, x: seq<real>, y: seq<real>, returnPlot: bool)
    ensures CheckAssumption(DispatchTable(stats), "banana", x, y, returnPlot) == Err(UnknownAssumption("banana"))
    ensures CheckAssumption(DispatchTable(stats), "normality", x, y, returnPlot).Err?
  {
  }

  /** The two known names run exactly their checks. */
  lemma KnownNamesRunTheirChecks(stats: Statistics, x: seq<real>, y: seq<real>, returnPlot: bool)
    ensures CheckAssumption(DispatchTable(stats), "linearity", x, y, returnPlot)
      == AppLinearity.CheckLinearity(stats, x, y, returnPlot)
    ensures CheckAssumption(DispatchTable(stats), "homoscedasticity", x, y, returnPlot)
      == Ok(AppHomoscedasticity.CheckHomoscedasticity(stats, x, y, returnPlot))
  {
  }

  /** Running all checks of the dispatcher's table on inputs where the
      linearity check succeeds yields exactly its two results, linearity first. */
  method RunDispatchTable(stats: Statistics, x: seq<real>, y: seq<real>, returnPlot: bool)
    returns (r: Result<Dicts.Dict<AssumptionResult>, CheckError>)
    ensures r.Ok? <==> AppLinearity.CheckLinearity(stats, x, y, returnPlot).Ok?
    ensures r.Ok? ==> r.value.keys == ["linearity", "homoscedasticity"]
    ensures r.Ok? ==> r.value.Get("linearity") == Some(AppLinearity.CheckLinearity(stats, x, y, returnPlot).value)
    ensures r.Ok? ==> r.value.Get("homoscedasticity") == Some(AppHomoscedasticity.CheckHomoscedasticity(stats, x, y, returnPlot))
    ensures r.Err? ==> AppLinearity.CheckLinearity(stats, x, y, returnPlot) == Err(r.error)
  {
    var table := DispatchTable(stats);
    KnownNamesRunTheirChecks(stats, x, y, returnPlot);
    r := RunAllChecks(table, x, y, returnPlot);
    if r.Ok? {
      assert CheckAssumption(table, table.keys[0], x, y, returnPlot).Ok?;
    } else {
      var i :| 0 <= i < |table.keys|
        && (forall j :: 0 <= j < i ==> CheckAssumption(table, table.keys[j], x, y, returnPlot).Ok?)
        && CheckAssumption(table, table.keys[i], x, y, returnPlot) == Err(r.error);
      assert i == 0;
    }
  }
}
