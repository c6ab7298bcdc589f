/**
 * Pass/fail thresholds and severity tables (src/config.py; app/config.py
 * holds the same values for the checks under app/).
 */
module Config {
  import opened Types

  /** R² must be strictly above this for linearity to pass. */
  const LinearityR2Threshold: real := 0.7

  /** The Breusch-Pagan p-value must be strictly above this. */
  const HomoscedasticityPvalThreshold: real := 0.05

  /** Each normality p-value sub-test passes strictly above this. */
  const NormalityPvalThreshold: real := 0.05

  /** The variance inflation factor threshold; an int in the source. */
  const VifThreshold: int := 5

  /** The Durbin-Watson band `(1.5, 2.5)`. */
  const DurbinWatsonLower: real := 1.5
  const DurbinWatsonUpper: real := 2.5

  const R2SeverityTable: Tiers := Table(0.9, 0.7, 0.5)
  const PvalSeverityTable: Tiers := Table(0.01, 0.05, 0.1)
  const VifSeverityTable: Tiers := Table(10.0, 5.0, 0.0)
  const CooksSeverityTable: Tiers := Table(0.5, 0.2, 0.1)

  /** The Cook's distance threshold: the constant 0.1, whatever `n` is. */
  function CooksThreshold(n: int): real
  {
    0.1
  }

  /** The leverage threshold `2 * p / n` for `p` predictors and `n` observations. */
  function LeverageThreshold(n: int, p: int): real
    requires n != 0
  {
    2.0 * (p as real) / (n as real)
  }

  /** High is the largest boundary and low the smallest. */
  predicate Descending(t: Tiers) {
    t.Table? && t.high > t.moderate > t.low
  }

  /** High is the smallest boundary and low the largest (metrics where low is bad). */
  predicate Ascending(t: Tiers) {
    t.Table? && t.high < t.moderate < t.low
  }

  /** R², VIF and Cook's tables decrease from high to low; the p-value table is inverted. */
  lemma SeverityTableDirections()
    ensures Descending(R2SeverityTable) && Descending(VifSeverityTable) && Descending(CooksSeverityTable)
    ensures Ascending(PvalSeverityTable)
  {
  }

  /** The Durbin-Watson band is a proper interval. */
  lemma DurbinWatsonBandProper()
    ensures DurbinWatsonLower < DurbinWatsonUpper
  {
  }

  /** The Cook's threshold does not depend on the sample size. */
  lemma CooksThresholdConstant(n: int, m: int)
    ensures CooksThreshold(n) == CooksThreshold(m) == 0.1
  {
  }

  /** `2p/n` written as a product, for `n` positive. */
  lemma LeverageAsProduct(n: int, p: int)
    requires n > 0
    ensures LeverageThreshold(n, p) * (n as real) == 2.0 * (p as real)
  {
  }

  /** More predictors give a strictly larger leverage threshold. */
  lemma LeverageIncreasesInP(n: int, p1: int, p2: int)
    requires n > 0 && p1 < p2
    ensures LeverageThreshold(n, p1) < LeverageThreshold(n, p2)
  {
    var a, b, d := 2.0 * (p1 as real), 2.0 * (p2 as real), n as real;
    DivideStrictly(a, b, d);
  }

  /** More observations give a strictly smaller leverage threshold, for `p > 0`. */
  lemma LeverageDecreasesInN(n1: int, n2: int, p: int)
    requires 0 < n1 < n2 && p > 0
    ensures LeverageThreshold(n1, p) > LeverageThreshold(n2, p)
  {
    var a, d1, d2 := 2.0 * (p as real), n1 as real, n2 as real;
    DivideByLarger(a, d1, d2);
  }

  /** `a < b` and `d > 0` give `a / d < b / d`. */
  lemma DivideStrictly(a: real, b: real, d: real)
    requires a < b && d > 0.0
    ensures a / d < b / d
  {
    assert b / d - a / d == (b - a) / d;
  }

  /** `a > 0` and `0 < d1 < d2` give `a / d1 > a / d2`. */
  lemma DivideByLarger(a: real, d1: real, d2: real)
    requires a > 0.0 && 0.0 < d1 < d2
    ensures a / d1 > a / d2
  {
    assert a / d1 - a / d2 == a * (d2 - d1) / (d1 * d2);
    assert a * (d2 - d1) > 0.0;
    assert d1 * d2 > 0.0;
  }
}
