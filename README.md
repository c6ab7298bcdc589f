# Regression assumption checker: verdict, registry and dispatch model

This project models the decision layer of a regression-assumption diagnostic toolkit. The toolkit takes the predictors `X` and response `y` of a linear model. It runs a set of named checks: linearity, homoscedasticity, normality, multicollinearity, independence and influence. Each check returns a uniform `AssumptionResult` record:

- a pass/fail verdict;
- a severity (low < moderate < high);
- a recommendation, present only on failure;
- an info/warning flag;
- the residuals and fitted values it used;
- the requested plots;
- a `details` dict of the statistics behind the verdict.

The numeric routines of the statistics library are opaque. These are OLS fitting, R², Breusch-Pagan, Shapiro-Wilk, D'Agostino-Pearson, Anderson-Darling, Durbin-Watson, VIF, the influence measures and the DFBETA cutoff `2/sqrt(n)`. Severity classification, plotting and summary formatting are opaque too. All of them are fields of one datatype, `Library.Statistics`, which every check receives. The model states and proves what each check does with those outputs:

- which comparisons it makes, strict or inclusive;
- how it combines sub-verdicts;
- how it aggregates severities;
- which keys it writes into `details`;
- when it skips;
- when it raises.

The modules follow the repository:

- `Types` is the result record, the severity and flag vocabularies, and the errors a check can raise (exceptions become `Err` values of a `Result`).
- `Dicts` is Python's insertion-ordered `dict`. Assigning to an existing key replaces its value but keeps its position. A literal or comprehension is the dict built by assigning its pairs in order.
- `Reductions` holds the numpy reductions the checks apply: `max`, `mean`, `abs`, the count above a cutoff and a boolean sum.
- `Config` holds the thresholds and severity tables.
- `Library` holds the input shapes (a Series, or a DataFrame with named columns), the model wrapper and the opaque statistics.
- `ModelUtils` is the model-type factory and the "use the supplied wrapper or build a linear one" guard.
- `Linearity`, `Multicollinearity`, `Independence` and `Influence` are the checks that take a shared model wrapper.
- `AppLinearity`, `AppHomoscedasticity` and `AppNormality` are the web app's checks, which fit their own model.
- `AppRegistry` is the decorator-filled registry, a class whose `Register` method updates its key order and check map in place.
- `AppDispatcher` is the dispatcher's static table, the lookup-or-raise `CheckAssumption`, and `RunAllChecks`, a loop that fills the results dict.

## Model

| member | source | states |
|---|---|---|
| Types.Severity.Rank | src/core/types.py:22 | each severity has a rank below three |
| Types.RankOrder | app/core/normality.py:73 | low, moderate and high have ranks 0, 1 and 2, their positions in the source's list, and no two severities share a rank |
| Types.Worse | app/core/normality.py:71-74 | the worse of two severities is at least both and is one of them |
| Types.Worst | src/core/multicollinearity.py:72-75 | the `max` by severity rank of a non-empty list is an element of it and at least every element |
| Types.OptionalFieldsDefaultAbsent | src/core/types.py:14-24 | a record built from only the four required fields has every optional field absent |
| Dicts.PutKey | app/core/registry.py:33 | assigning a key adds it at the end if it is new and keeps the key order otherwise; distinct keys stay distinct |
| Dicts.InsertionOrderKeys | app/core/registry.py:10-12 | a dict that starts empty lists, after any assignments, each assigned name exactly once and nothing else |
| Dicts.Dict.Put | app/core/dispatcher.py:65 | `results[name] = v` stores `v` under `name`, leaves every other key untouched, keeps validity and appends only a new key |
| Dicts.Dict.Get | app/core/dispatcher.py:41 | a lookup finds a value exactly when the key is present, and it is the stored value |
| Dicts.FromPairsOrder | src/core/multicollinearity.py:103-108 | a dict literal lists its keys in first-insertion order of its pairs |
| Dicts.FromPairsLast | src/core/multicollinearity.py:94-97 | in a literal or comprehension, the last pair with a key decides that key's value |
| Reductions.Max | src/core/influence.py:43 | the maximum of a non-empty array is one of its elements and at least every element |
| Reductions.AbsAll | src/core/influence.py:46 | definition: `np.abs`, elementwise, keeping the length |
| Reductions.MaxAtMostIff | src/core/influence.py:58-62 | the maximum is within a bound exactly when every element is |
| Reductions.MaxBelowIff | src/core/multicollinearity.py:78 | the maximum is strictly below a bound exactly when every element is |
| Reductions.CountAboveZero | src/core/influence.py:55 | the count of entries strictly above a cutoff is zero exactly when every entry is at most the cutoff |
| Reductions.CountAboveZeroIffMax | src/core/influence.py:55 | the count above the cutoff is zero exactly when the maximum is within it |
| Reductions.MeanAtMostMax | src/core/influence.py:44-45 | on non-empty data the mean never exceeds the maximum |
| Reductions.MajorityOfThree | app/core/normality.py:76 | a boolean sum of three values is at least 2 exactly when some two of them are true |
| Config.SeverityTableDirections | src/config.py:48-57 | the R², VIF and Cook's tables decrease from high to low; the p-value table increases (inverted direction) |
| Config.DurbinWatsonBandProper | src/config.py:21 | the Durbin-Watson band (1.5, 2.5) has lower < upper |
| Config.CooksThresholdConstant | src/config.py:24-26 | the Cook's threshold is 0.1 whatever the sample size |
| Config.LeverageAsProduct | src/config.py:29-31 | the leverage threshold times n is 2p |
| Config.LeverageIncreasesInP | src/config.py:29-31 | the leverage threshold strictly increases with the number of predictors |
| Config.LeverageDecreasesInN | src/config.py:29-31 | the leverage threshold strictly decreases with the number of observations, for p > 0 |
| ModelUtils.GetModelWrapper | src/models/utils.py:6-12 | "linear" and only "linear" gives a wrapper fitted on `(X, y)`; "PLACEHOLDER" and only it gives None; every other string and only those raise `ValueError` naming the type |
| ModelUtils.UnsupportedMessage | src/models/utils.py:11-12 | the error for an unsupported type reads "Unsupported model type: " followed by the type |
| ModelUtils.MatchingIsCaseSensitive | src/models/utils.py:7-9 | "Linear" and "placeholder" both raise: matching is exact |
| ModelUtils.ResolveWrapper | src/core/independence.py:56-59 | a supplied wrapper is used as is; otherwise it is the one the factory builds for "linear" |
| Linearity.SkipResult | src/core/linearity.py:43-58 | the skip record is named "linearity", passes with low severity and the info flag, and has no recommendation, residuals, fitted values or plot |
| Linearity.SinglePredictor | src/core/linearity.py:59 | a Series is used as is; a one-column frame becomes its first column; a frame without columns raises an index error |
| Linearity.CheckLinearity | src/core/linearity.py:42-113 | more than one column skips; no columns raises; otherwise passed iff R² > 0.7 strictly, severity is the classifier on R² with the R² table, residuals and fitted values are the wrapper's, a plot exactly when requested; recommendation absent iff passed; flag info iff passed, else warning |
| Linearity.SkipIgnoresWrapper | src/core/linearity.py:42-58 | on the skip path the result is the same whatever wrapper or plot flag is given |
| Linearity.UsesSuppliedWrapper | src/core/linearity.py:62-65 | a supplied wrapper's residuals are reported; without one, the factory's "linear" wrapper's are |
| Linearity.DetailsKeys | src/core/linearity.py:106 | off the skip path, details are exactly `r_squared` (the R²) then `r2_threshold` = 0.7 |
| Multicollinearity.ColumnValues | src/core/multicollinearity.py:60 | definition: `X.values`, one column of values per predictor, in order |
| Multicollinearity.Vifs | src/core/multicollinearity.py:57-61 | definition: one VIF per column, in column order, each the library's VIF of that column index |
| Multicollinearity.VifTable | src/core/multicollinearity.py:57-69 | the per-feature frame has one row per column |
| Multicollinearity.PerFeaturePass | src/core/multicollinearity.py:57-69 | each row carries its feature's name and VIF; its pass column is 1 exactly when the VIF is at most 5; its severity is the classifier on the VIF with the VIF table |
| Multicollinearity.Severities | src/core/multicollinearity.py:67-69 | definition: the severity column, each row's severity in order |
| Multicollinearity.OverallSeverity | src/core/multicollinearity.py:71-75 | the overall severity is at least every feature's severity and equals one of them |
| Multicollinearity.AllBelowFive | src/core/multicollinearity.py:78 | the verdict holds exactly when the largest VIF is strictly below 5 |
| Multicollinearity.DetailPairs | src/core/multicollinearity.py:94-108 | details are built from 2n + 2 pairs for n features |
| Multicollinearity.SkipResult | src/core/multicollinearity.py:42-54 | the skip record is named "multicollinearity", passes with low severity and the info flag, and has no recommendation, residuals, fitted values or plot |
| Multicollinearity.Assess | src/core/multicollinearity.py:56-132 | passed iff every VIF is strictly below 5; severity is the worst per-feature severity; recommendation absent iff passed; flag info iff passed, else warning; a plot exactly when requested; no residuals, fitted values or plots list |
| Multicollinearity.CheckMulticollinearity | src/core/multicollinearity.py:41-132 | a Series raises on `X.shape[1]`; fewer than two columns skip; otherwise the result is the verdict above; the wrapper is never used |
| Multicollinearity.ContainsAt | src/core/multicollinearity.py:46 | a string that matches at some position is contained |
| Multicollinearity.NotApplicableAt39 | src/core/multicollinearity.py:46 | "not applicable" occurs in the skip summary, at position 39 |
| Multicollinearity.SkipSaysNotApplicable | src/core/multicollinearity.py:46 | the skip summary contains "not applicable" as a substring |
| Multicollinearity.VifOfFiveSplitsVerdicts | src/core/multicollinearity.py:64-78 | a VIF of exactly 5 passes its per-feature row but fails the overall verdict |
| Multicollinearity.KeyEndings | src/core/multicollinearity.py:94-108 | a "(VIF)" key never collides with a "threshold" key or with the two trailing keys |
| Multicollinearity.VifKeyInjective | src/core/multicollinearity.py:95 | two features get the same "(VIF)" key only when their names are equal |
| Multicollinearity.DetailThreshold | src/core/multicollinearity.py:98-101 | every "`<feature>` threshold" key holds 5 |
| Multicollinearity.DetailVif | src/core/multicollinearity.py:94-97 | every "`<feature>` (VIF)" key is present, and holds that column's VIF unless a later column has the same name |
| Multicollinearity.DetailSummaryKeys | src/core/multicollinearity.py:106-107 | `max_variance_inflation_factor` holds the maximum VIF; `multicollinearity_vif_threshold` holds 5 |
| Multicollinearity.DetailsPerFeature | src/core/multicollinearity.py:94-108 | a check on at least two columns has all of the detail entries above |
| Independence.Plots | src/core/independence.py:91-117 | no plots unless requested; when requested, the residual plot (`residplot`) then the ACF plot (`acf`) |
| Independence.CheckIndependence | src/core/independence.py:55-134 | passed iff 1.5 <= DW <= 2.5 on the wrapper's residuals; severity is the classifier on DW with the band; residuals and fitted values are the wrapper's; recommendation absent iff passed; flag info iff passed, else warning; plots list empty exactly when not requested and of two entries exactly when requested |
| Independence.BandIsClosed | src/core/independence.py:72 | DW of 1.5, 2.0 or 2.5 passes; outside the band the recommendation is given |
| Independence.DetailsKeys | src/core/independence.py:124-127 | details are exactly `durbin_watson` (the statistic) then `expected_range` = "1.5-2.5" |
| Independence.VerdictIgnoresPlots | src/core/independence.py:72-75 | asking for plots changes neither the verdict nor the severity |
| Influence.Passes | src/core/influence.py:58-62 | passed exactly when every Cook's distance, every leverage and every absolute DFBETA is within its threshold |
| Influence.Plots | src/core/influence.py:79-105 | no plots unless requested; when requested, the Cook's distance plot then the influence plot |
| Influence.CheckInfluence | src/core/influence.py:34-127 | an empty measure array raises on `max`; a Series raises on unpacking `X.shape`; zero rows divides by zero; otherwise passed iff the three measures are all within 0.1, 2p/n and the DFBETA cutoff; severity is the classifier on the largest Cook's distance; recommendation absent iff passed; flag info iff passed, else warning; no residuals, fitted values or single plot |
| Influence.DetailMaxCook | src/core/influence.py:114 | `max_cooks_distance` holds the maximum Cook's distance passed in |
| Influence.DetailCookThreshold | src/core/influence.py:115 | `cooks_distance_threshold` holds the Cook's threshold |
| Influence.DetailMaxLeverage | src/core/influence.py:116 | `max_leverage` holds the maximum leverage |
| Influence.DetailLeverageThreshold | src/core/influence.py:117 | `leverage_threshold` holds the leverage threshold |
| Influence.DetailMeanLeverage | src/core/influence.py:118 | `mean_leverage` holds the mean leverage |
| Influence.DetailMaxDfbeta | src/core/influence.py:119 | `max_dfbeta` holds the maximum absolute DFBETA |
| Influence.DetailDfbetaThreshold | src/core/influence.py:120 | `dfbeta_threshold` holds the DFBETA cutoff |
| Influence.DetailLargeDfbetas | src/core/influence.py:121 | `num_large_dfbetas` holds the count of large DFBETAs |
| Influence.DetailsHold | src/core/influence.py:113-122 | a successful check's details hold each maximum, the mean leverage, each threshold and the count of absolute DFBETAs strictly above the cutoff |
| Influence.PassedMeansNoLargeDfbetas | src/core/influence.py:54-62 | the large-DFBETA count is zero exactly when the largest absolute DFBETA is within the cutoff, and a passing check reports zero |
| Influence.MeanLeverageAtMostMax | src/core/influence.py:44-45 | the reported mean leverage never exceeds the reported maximum leverage |
| Influence.SeverityFollowsMaxCook | src/core/influence.py:65 | two successful checks with the same largest Cook's distance get the same severity |
| AppLinearity.Subtract | app/core/linearity.py:39 | `y - y_pred` raises on different lengths; otherwise each residual plus the prediction is `y` |
| AppLinearity.CheckLinearity | app/core/linearity.py:35-83 | no skip path; raises only when the prediction length differs from `y`; passed iff R² > 0.7 strictly; severity is the classifier on R²; residuals + fitted = y elementwise; a plot exactly when requested; recommendation absent iff passed; flag info iff passed, else warning |
| AppLinearity.DetailsKeys | app/core/linearity.py:76 | details are exactly `r_squared` then `r2_threshold` = 0.7 |
| AppLinearity.ResidualsAreUnique | app/core/linearity.py:38-39 | the reported residuals are the only sequence that adds to the predictions to give `y` |
| AppHomoscedasticity.CheckHomoscedasticity | app/core/homoscedasticity.py:36-88 | passed iff the Breusch-Pagan p-value > 0.05 strictly; severity is the classifier on the p-value with the p-value table; residuals and fitted values are the OLS fit's; a plot exactly when requested; recommendation absent iff passed; flag info iff passed, else warning |
| AppHomoscedasticity.DetailsKeys | app/core/homoscedasticity.py:78-81 | details are exactly `breusch_pagan_pval` then `homoscedasticity_pval_threshold` = 0.05 |
| AppHomoscedasticity.VerdictIgnoresPlot | app/core/homoscedasticity.py:43-47 | asking for a plot changes neither verdict, severity nor details |
| AppNormality.AndersonPassed | app/core/normality.py:62-64 | Anderson-Darling passes iff its statistic is strictly below the third (5%) critical value |
| AppNormality.AndersonSeverity | app/core/normality.py:68 | the Anderson-Darling severity is never moderate, and is low exactly when it passed |
| AppNormality.Majority | app/core/normality.py:76 | the check passes exactly when some two of the three sub-tests pass |
| AppNormality.WorstOfThree | app/core/normality.py:71-74 | the overall severity is at least each of the three and equals one of them |
| AppNormality.Plots | app/core/normality.py:87-110 | no plots unless requested; when requested, the Q-Q plot (`qq`) then the histogram (`histogram`) |
| AppNormality.CheckNormality | app/core/normality.py:40-145 | fewer than three critical values raise an index error; otherwise passed iff at least two of Shapiro p > 0.05, D'Agostino p > 0.05 and Anderson stat < 5% critical; severity is the worst of the three, and high whenever Anderson fails; recommendation absent iff passed; flag info iff passed, else warning; plots empty unless requested, two when requested |
| AppNormality.DetailShapiro | app/core/normality.py:128 | `shapiro_pval` holds the Shapiro-Wilk p-value |
| AppNormality.DetailDagostino | app/core/normality.py:129 | `dagostino_pval` holds the D'Agostino-Pearson p-value |
| AppNormality.DetailAndersonStat | app/core/normality.py:130 | `anderson_stat` holds the Anderson-Darling statistic |
| AppNormality.DetailAndersonCritical | app/core/normality.py:131 | `anderson_critical_5pct` holds the 5% critical value |
| AppNormality.DetailThreshold | app/core/normality.py:132 | `normality_pval_threshold` holds 0.05 |
| AppNormality.DetailTestsUsed | app/core/normality.py:133-137 | `tests_used:` (with its trailing colon) holds the three test descriptions |
| AppNormality.DetailsHold | app/core/normality.py:127-138 | a successful check's details hold the two p-values, the statistic, the critical value, the threshold and the test list |
| AppNormality.TwoPvalueTestsDecide | app/core/normality.py:47-76 | when both p-value tests pass the check passes, and when both fail it fails, whatever Anderson-Darling says |
| AppRegistry.AssumptionTable.constructor | app/core/registry.py:10-12 | the registry starts empty |
| AppRegistry.AssumptionTable.Table | app/core/registry.py:10-12 | the registry seen as a dict has its keys and checks and is a valid dict |
| AppRegistry.AssumptionTable.Register | app/core/registry.py:30-34 | the returned check is the given function tagged with the name and model types; it is stored under the name, every other entry is unchanged, and the key order gains the name only if it is new |
| AppRegistry.AssumptionTable.RegisterDefault | app/core/registry.py:17-18 | with no model types given, the check is tagged `["linear"]` |
| AppRegistry.KeysAreRegisteredNames | app/core/registry.py:33 | the registry's keys are exactly the names registered so far, each once, and exactly those keys hold a check |
| AppRegistry.ReRegistrationKeepsPosition | app/core/registry.py:33 | re-registering a name keeps the key order and the name's position |
| AppDispatcher.DispatchTable | app/core/dispatcher.py:13-19 | the table holds exactly "linearity" then "homoscedasticity", each bound to its check |
| AppDispatcher.CheckAssumption | app/core/dispatcher.py:41-44 | an unknown name raises a `ValueError` reading "Unknown assumption: '<name>'"; a known name returns exactly its check's result |
| AppDispatcher.RunAllChecks | app/core/dispatcher.py:63-66 | succeeds exactly when every check succeeds; then the results have exactly the table's keys in table order, each holding what `CheckAssumption` returns for it; otherwise the error is that of the first check that raises |
| AppDispatcher.UnknownNameRaises | app/core/dispatcher.py:41-42 | "banana" raises an unknown-assumption error, and so does "normality", which the table does not hold |
| AppDispatcher.KnownNamesRunTheirChecks | app/core/dispatcher.py:44 | "linearity" and "homoscedasticity" run exactly their checks |
| AppDispatcher.RunDispatchTable | app/core/dispatcher.py:63-66 | running the table gives exactly linearity then homoscedasticity, unless the linearity check raises, whose error is then returned |

## Left out

- Statistics: OLS, R², the Breusch-Pagan, Shapiro-Wilk, D'Agostino-Pearson, Anderson-Darling and Durbin-Watson tests, VIF, the influence measures and `2/np.sqrt(n)` are opaque functions of `Library.Statistics`. They are foreign numeric code. Statistics are exact reals, so floating-point rounding and NaN comparisons are not modelled.
- Errors raised inside the library are not modelled: a singular fit, too few observations for a test, and so on. Only the errors the checks' own code raises are: indexing, `max` of an empty array, shape unpacking, division by zero, unequal lengths in `y - y_pred`, and the two `ValueError`s raised by hand.
- `classify_severity` and `build_result` come from `src/utils.py` and `app/utils.py`. Their bodies are not part of this model. The classifier is the opaque field `classifySeverity`, and its tiering is not invented. It receives either a severity table or, in the independence check, the `(lower, upper)` tuple. `build_result` is the `AssumptionResult` constructor with its defaults.
- app/core/types.py declares the record without its last four fields, but the app checks pass severity, recommendation and flag to `build_result`. The model uses the full record of src/core/types.py for both.
- Plotting and base64 encoding are left out: a plot is an opaque `render` token, present exactly when requested. Summary strings with `{:.2f}`/`{:.4f}` formatting are opaque `summarize` tokens. Only the fixed skip summaries are written out.
- `DataFrame.corr()` and the OLS model given to `influence_plot` are not modelled separately: they only feed plots.
- The model wrapper classes (src/models/linear_model_wrapper.py, app/models/base_model_wrapper.py) are a datatype holding the data and an opaque fit. "PLACEHOLDER" in the factory returns None; a check then fails on `None.residuals()`, and that path is not modelled, since `ResolveWrapper` only ever asks for "linear".
- Library.ModelWrapper.GetInfluence: the influence check calls `model_wrapper.get_influence()`. Neither wrapper class in the repository's shown files defines that method. The model assumes the base wrapper of src/models supplies it, and that it returns the fitted model's influence measures. A wrapper without the method would raise `AttributeError`; that path is not modelled.
- AppRegistry.AssumptionTable.Register: the attributes `_assumption_name` and `_model_types` are set on the function object itself. The model copies them into a `TaggedCheck`, so aliasing is not captured: the same function registered twice ends up with one set of attributes. Neither is the default `model_types` list shared between registrations.
- The app checks register themselves into the registry's `ASSUMPTION_CHECKS` when imported. The dispatcher uses its own literal table instead. The model has both, but not the import-time registration order.
- tests/test_dispatcher.py:23 expects a `run_all_checks` that takes a `model_type` and returns a `(results, wrapper)` tuple. No such function exists in app/core/dispatcher.py:47-66. The modelled dispatcher returns only the results dict, runs every check in its table, and raises `ValueError` for an unknown name. The model follows the shown code.
- Influence.DetailsHold: states the value under each of the eight keys but not the key order of the dict.
- AppNormality.DetailsHold: states the value under each of the six keys but not the key order of the dict.
- Multicollinearity.DetailsPerFeature: states every feature's VIF and threshold entries and the two trailing entries, but not the key order of the dict.
- These members are definitions without a contract of their own. Each one's properties are stated on the rows named here:
  - Linearity.Assess and Multicollinearity.VifDetails: on Linearity.CheckLinearity, Multicollinearity.Assess and Multicollinearity.DetailsPerFeature.
  - Config.CooksThreshold (src/config.py:24-26): on Config.CooksThresholdConstant.
  - Config.LeverageThreshold (src/config.py:29-31): on Config.LeverageAsProduct, Config.LeverageIncreasesInP and Config.LeverageDecreasesInN.
  - Reductions.Mean (`np.mean`, src/core/influence.py:44): on Reductions.MeanAtMostMax.
  - Reductions.CountAbove (src/core/influence.py:55): on Reductions.CountAboveZero.
  - Reductions.CountTrue (app/core/normality.py:76): on Reductions.MajorityOfThree.
  - Dicts.FromPairs and Dicts.InsertionOrder (dict literals, comprehensions and dict assignment): on Dicts.FromPairsOrder, Dicts.FromPairsLast, Dicts.FromPairsHas and Dicts.InsertionOrderKeys.
  - Multicollinearity.VifKey and Multicollinearity.ThresholdKey (the keys at src/core/multicollinearity.py:95 and 99): on Multicollinearity.KeyEndings and Multicollinearity.VifKeyInjective.
  - Influence.DetailPairs (src/core/influence.py:113-122): on the Influence.Detail* rows.
  - AppNormality.DetailPairs (app/core/normality.py:127-138): on the AppNormality.Detail* rows.
  - Types.CheckError.Message (the messages at src/models/utils.py:12 and app/core/dispatcher.py:42): on ModelUtils.UnsupportedMessage and AppDispatcher.CheckAssumption.
- Report renderers (src/report.py, app/report.py) and the simulated data generators are left out: they are console, file and random-number I/O.
- Tests that depend on code this model does not include are not used as evidence. These include the tuple-returning dispatcher, the `homoskedasticity` module and the subprocess run of the CLI.
