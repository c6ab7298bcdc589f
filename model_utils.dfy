/** The model-type factory (src/models/utils.py). */
module ModelUtils {
  import opened Wrappers
  import opened Types
  import opened Library

  /**
   * `get_model_wrapper(model_type, X, y)`: exact, case-sensitive matching,
   * tested in order. "linear" gives a fitted linear wrapper, "PLACEHOLDER"
   * falls through its `...` body and returns None, anything else raises.
   */
  function GetModelWrapper(modelType: string, x: Predictors, y: seq<real>, stats: Statistics)
    : (r: Result<Option<ModelWrapper>, CheckError>)
    ensures r.Ok? && r.value.Some? <==> modelType == "linear"
    ensures modelType == "linear" ==>
      r.value.value.x == x && r.value.value.y == y && r.value.value.model == stats.ols(x, y)
    ensures r == Ok(None) <==> modelType == "PLACEHOLDER"
    ensures r.Err? <==> modelType != "linear" && modelType != "PLACEHOLDER"
    ensures r.Err? ==> r.error == UnsupportedModelType(modelType) && r.error.IsValueError()
  {
    if modelType == "linear" then Ok(Some(LinearModelWrapper(x, y, stats.ols(x, y))))
    else if modelType == "PLACEHOLDER" then Ok(None)
    else Err(UnsupportedModelType(modelType))
  }

  /** The error message for an unsupported model type names that type. */
  lemma UnsupportedMessage(modelType: string, x: Predictors, y: seq<real>, stats: Statistics)
    requires modelType != "linear" && modelType != "PLACEHOLDER"
    ensures var r := GetModelWrapper(modelType, x, y, stats);
      r.Err? && r.error.Message() == "Unsupported model type: " + modelType
  {
  }

  /** Matching is case-sensitive: "Linear" is not "linear". */
  lemma MatchingIsCaseSensitive(x: Predictors, y: seq<real>, stats: Statistics)
    ensures GetModelWrapper("Linear", x, y, stats).Err?
    ensures GetModelWrapper("placeholder", x, y, stats).Err?
  {
    assert "Linear"[0] != "linear"[0];
    assert "placeholder"[0] != "PLACEHOLDER"[0];
  }

  /**
   * The guard at the head of each src check: use the supplied wrapper, or
   * else build one with model type "linear".
   */
  function ResolveWrapper(supplied: Option<ModelWrapper>, x: Predictors, y: seq<real>, stats: Statistics)
    : (w: ModelWrapper)
    ensures supplied.Some? ==> w == supplied.value
    ensures supplied.None? ==> GetModelWrapper("linear", x, y, stats) == Ok(Some(w))
  {
    if supplied.Some? then supplied.value else GetModelWrapper("linear", x, y, stats).value.value
  }
}
