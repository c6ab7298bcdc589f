/**
 * The uniform result record every assumption check returns, its severity and
 * flag vocabularies, and the errors a check can raise (src/core/types.py).
 */
module Types {
  import opened Wrappers
  import Dicts

  /** The documented severities, ordered low < moderate < high. */
  datatype Severity = Low | Moderate | High {

    /** Position in the list `["low", "moderate", "high"]`. */
    function Rank(): (n: nat)
      ensures n < 3
    {
      match this
      case Low => 0
      case Moderate => 1
      case High => 2
    }

    /** `this` is no worse than `other`. */
    predicate AtMost(other: Severity) {
      Rank() <= other.Rank()
    }
  }

  /** The ranks order the severities low < moderate < high, and no two
      severities share a rank. */
  lemma RankOrder()
    ensures Low.Rank() == 0 && Moderate.Rank() == 1 && High.Rank() == 2
    ensures forall a: Severity, b: Severity :: a.Rank() == b.Rank() ==> a == b
  {
  }

  /** The documented UI flags. */
  datatype Flag = Info | Warning | Critical

  /**
   * What `classify_severity` is given as its second argument: a
   * `{"high", "moderate", "low"}` table, or a `(lower, upper)` pair.
   */
  datatype Tiers = Table(high: real, moderate: real, low: real) | Band(lower: real, upper: real)

  /** A value in a `details` dict: a float, an int, a string or a list of strings. */
  datatype DetailValue = Num(r: real) | Int(i: int) | Text(s: string) | TextList(items: seq<string>)

  /** The `details` dict of a result. */
  type Details = Dicts.Dict<DetailValue>

  /** One entry of `plots`: the dict `{"title", "type", "image"}`. */
  datatype Plot = Plot(title: string, kind: string, image: string)

  /**
   * The `AssumptionResult` dataclass. `name`, `passed`, `summary` and
   * `details` are required; every other field defaults to absent.
   */
  datatype AssumptionResult = AssumptionResult(
    name: string,
    passed: bool,
    summary: string,
    details: Details,
    residuals: Option<seq<real>> := None,
    fitted: Option<seq<real>> := None,
    plotBase64: Option<string> := None,
    plots: Option<seq<Plot>> := None,
    severity: Option<Severity> := None,
    recommendation: Option<string> := None,
    flag: Option<Flag> := None)

  /** The exceptions a check or a lookup can raise. */
  datatype CheckError =
    | UnknownAssumption(assumption: string)     // ValueError raised by the dispatcher
    | UnsupportedModelType(modelType: string)   // ValueError raised by the model factory
    | IndexOutOfRange                           // IndexError from positional indexing
    | ShapeUnpack                               // ValueError unpacking a 1-D shape into (n, p)
    | EmptyReduction                            // ValueError from a maximum over an empty array
    | ZeroDivision                              // ZeroDivisionError
    | LengthMismatch                            // ValueError from element-wise arithmetic on unequal lengths
  {
    /** The error is a `ValueError` rather than another exception class. */
    predicate IsValueError() {
      !IndexOutOfRange? && !ZeroDivision?
    }

    /** The message text the source writes for the errors it raises itself. */
    function Message(): (m: string)
      requires UnknownAssumption? || UnsupportedModelType?
    {
      if UnknownAssumption? then "Unknown assumption: '" + assumption + "'"
      else "Unsupported model type: " + modelType
    }
  }

  /** The worse of two severities. */
  function Worse(a: Severity, b: Severity): (w: Severity)
    ensures a.AtMost(w) && b.AtMost(w)
    ensures w == a || w == b
  {
    if a.Rank() < b.Rank() then b else a
  }

  /** `max(severities, key=["low", "moderate", "high"].index)`. */
  function Worst(ss: seq<Severity>): (w: Severity)
    requires |ss| > 0
    ensures w in ss
    ensures forall i :: 0 <= i < |ss| ==> ss[i].AtMost(w)
  {
    if |ss| == 1 then ss[0] else Worse(ss[0], Worst(ss[1..]))
  }

  /** The recommendation is absent exactly when the check passed, and the
      flag is "info" when it passed and "warning" when it failed. */
  ghost predicate VerdictConsistent(r: AssumptionResult) {
    && (r.recommendation.None? <==> r.passed)
    && r.flag == Some(if r.passed then Info else Warning)
  }

  /** The record of a check that is deliberately not applicable: it passes
      with low severity and the info flag, and carries no recommendation,
      residuals, fitted values or plot. */
  ghost predicate SkipRecord(r: AssumptionResult) {
    && r.passed
    && r.severity == Some(Low)
    && r.flag == Some(Info)
    && r.recommendation.None?
    && r.residuals.None? && r.fitted.None?
    && r.plotBase64.None? && r.plots.None?
  }

  /** `build_result` called with only the required fields leaves every optional field absent. */
  lemma OptionalFieldsDefaultAbsent(name: string, passed: bool, summary: string, details: Details)
    ensures var r := AssumptionResult(name, passed, summary, details);
      && r.name == name && r.passed == passed && r.summary == summary && r.details == details
      && r.residuals.None? && r.fitted.None? && r.plotBase64.None? && r.plots.None?
      && r.severity.None? && r.recommendation.None? && r.flag.None?
  {
  }
}
