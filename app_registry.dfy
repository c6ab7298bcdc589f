/**
 * The process-wide check registry filled by the `register_assumption`
 * decorator (app/core/registry.py).
 */
module AppRegistry {
  import opened Wrappers
  import opened Types
  import Dicts

  /** `AssumptionCheck`: a check on `(X, y, return_plot)`; a check that
      raises gives `Err`. */
  type CheckFn = (seq<real>, seq<real>, bool) -> Result<AssumptionResult, CheckError>

  /** A registered function together with the `_assumption_name` and
      `_model_types` attributes the decorator sets on it. */
  datatype TaggedCheck = TaggedCheck(run: CheckFn, assumptionName: string, modelTypes: seq<string>)

  /** The default `model_types` of the decorator. */
  const DefaultModelTypes: seq<string> := ["linear"]

  /** The `ASSUMPTION_CHECKS` dict: its keys in insertion order and the
      check stored under each. `history` is every name registered so far. */
  class AssumptionTable {
    var keys: seq<string>
    var checks: map<string, TaggedCheck>
    ghost var history: seq<string>

    /** The keys are the insertion order of the registered names, and
        exactly the keys hold a check. */
    ghost predicate Valid()
      reads this
    {
      keys == Dicts.InsertionOrder(history) && forall k :: k in checks <==> k in keys
    }

    /** The registry starts empty. */
    constructor ()
      ensures Valid()
      ensures keys == [] && checks == map[] && history == []
    {
      keys := [];
      checks := map[];
      history := [];
    }

    /** The table as a dict value. */
    function Table(): (d: Dicts.Dict<TaggedCheck>)
      reads this
      ensures Valid() ==> d.Valid()
      ensures d.keys == keys && d.values == checks
    {
      Dicts.InsertionOrderKeys(history);
      Dicts.Dict(keys, checks)
    }

    /**
     * `register_assumption(name, model_types)(f)`: tag `f` with the name
     * and model types, store it under `name` (replacing an earlier check
     * with that name, which keeps its position), and return it.
     */
    method Register(name: string, f: CheckFn, modelTypes: seq<string>) returns (g: TaggedCheck)
      requires Valid()
      modifies this
      ensures Valid()
      ensures g.run == f && g.assumptionName == name && g.modelTypes == modelTypes
      ensures checks == old(checks)[name := g]
      ensures keys == Dicts.PutKey(old(keys), name)
      ensures history == old(history) + [name]
    {
      g := TaggedCheck(f, name, modelTypes);
      ghost var h := history + [name];
      assert h[..|h| - 1] == history;
      checks := checks[name := g];
      keys := Dicts.PutKey(keys, name);
      history := h;
    }

    /** The decorator with its default model types. */
    method RegisterDefault(name: string, f: CheckFn) returns (g: TaggedCheck)
      requires Valid()
      modifies this
      ensures Valid()
      ensures g == TaggedCheck(f, name, ["linear"])
      ensures checks == old(checks)[name := g]
      ensures keys == Dicts.PutKey(old(keys), name)
      ensures history == old(history) + [name]
    {
      g := Register(name, f, DefaultModelTypes);
    }
  }

  /** After any sequence of registrations on a fresh registry, its keys are
      exactly the names registered, each listed once. */
  lemma KeysAreRegisteredNames(t: AssumptionTable)
    requires t.Valid()
    ensures Dicts.Distinct(t.keys)
    ensures forall k :: k in t.keys <==> k in t.history
    ensures forall k :: k in t.checks <==> k in t.history
  {
    Dicts.InsertionOrderKeys(t.history);
  }

  /** Registering an existing name leaves the key order as it was;
      registering a new one appends it. */
  lemma ReRegistrationKeepsPosition(keys: seq<string>, name: string, i: nat)
    requires i < |keys| && keys[i] == name
    ensures Dicts.PutKey(keys, name) == keys
    ensures Dicts.PutKey(keys, name)[i] == name
  {
    assert name in keys;
  }
}
