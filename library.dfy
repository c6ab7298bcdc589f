/**
 * The collaborators the checks call but do not define: the input data
 * shapes, the statistics library (statsmodels, scipy, scikit-learn), the
 * severity classifier, plotting and summary formatting. Every numeric
 * routine is an opaque function here; the checks only decide what to do
 * with its outputs.
 */
module Library {
  import opened Types

  /** One named column of a predictor frame. */
  datatype Column = Column(name: string, values: seq<real>)

  /** A predictor given as a pandas Series (one dimension) or as a DataFrame
      of `rows` observations and named columns. */
  datatype Predictors = Series(values: seq<real>) | Frame(rows: nat, columns: seq<Column>)

  /** The per-observation influence measures of a fitted OLS model: Cook's
      distances, the hat-matrix diagonal (leverage) and the standardized
      DFBETAs (every entry of the observation-by-coefficient matrix). */
  datatype InfluenceStats = InfluenceStats(cooksDistance: seq<real>, hatMatrixDiag: seq<real>, dfbetas: seq<real>)

  /** A fitted ordinary-least-squares model (with an intercept added). */
  datatype OlsFit = OlsFit(resid: seq<real>, fittedValues: seq<real>, influence: InfluenceStats)

  /** What `scipy.stats.anderson` returns. */
  datatype AndersonResult = AndersonResult(statistic: real, criticalValues: seq<real>)

  /** The linear model wrapper: the data it was built on and its fitted model. */
  datatype ModelWrapper = LinearModelWrapper(x: Predictors, y: seq<real>, model: OlsFit) {
    function Residuals(): seq<real> { model.resid }
    function Fitted(): seq<real> { model.fittedValues }
    function GetInfluence(): InfluenceStats { model.influence }
  }

  /** The library routines, as opaque functions of their inputs. */
  datatype Statistics = Statistics(
    /** `sm.OLS(y, sm.add_constant(X)).fit()`. */
    ols: (Predictors, seq<real>) -> OlsFit,
    /** `LinearRegression().fit(X, y).predict(X)` for a single column `X`. */
    linearRegressionPredict: (seq<real>, seq<real>) -> seq<real>,
    /** `r2_score(y, y_pred)`. */
    r2Score: (seq<real>, seq<real>) -> real,
    /** The p-value of `het_breuschpagan(residuals, add_constant(X))`. */
    breuschPaganPval: (seq<real>, seq<real>) -> real,
    /** The p-value of `shapiro(residuals)`. */
    shapiroPval: seq<real> -> real,
    /** The p-value of `normaltest(residuals)`. */
    normaltestPval: seq<real> -> real,
    /** `anderson(residuals, dist="norm")`. */
    anderson: seq<real> -> AndersonResult,
    /** `durbin_watson(resids=residuals)`. */
    durbinWatson: seq<real> -> real,
    /** `variance_inflation_factor(X.values, i)`, with `X` given column by column. */
    vif: (seq<seq<real>>, nat) -> real,
    /** `influence_dfbeta_threshold(n)`, that is `2 / np.sqrt(n)`. */
    dfbetaThreshold: nat -> real,
    /** `classify_severity(value, thresholds)`. */
    classifySeverity: (real, Tiers) -> Severity,
    /** Draw a figure with this title from these series and base64-encode it. */
    render: (string, seq<seq<real>>) -> string,
    /** The formatted one-line summary of a check from its statistics and verdict. */
    summarize: (string, seq<real>, bool) -> string)
}
