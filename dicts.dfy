/**
 * Python's `dict` with string keys: iteration follows first insertion, and
 * assigning to a key that is already present replaces its value but keeps
 * its position.
 */
module Dicts {
  import opened Wrappers

  /** All elements of `s` are different. */
  ghost predicate Distinct(s: seq<string>) {
    forall i, j :: 0 <= i < j < |s| ==> s[i] != s[j]
  }

  /** The key order after assigning to key `k` (`d[k] = v`). */
  function PutKey(keys: seq<string>, k: string): (r: seq<string>)
    ensures k in r
    ensures forall j :: j in r <==> j in keys || j == k
    ensures Distinct(keys) ==> Distinct(r)
    ensures |keys| <= |r| && r[..|keys|] == keys
  {
    if k in keys then keys else keys + [k]
  }

  /** The key order of a dict that starts empty and is assigned `names` in turn. */
  function InsertionOrder(names: seq<string>): seq<string>
  {
    if names == [] then [] else PutKey(InsertionOrder(names[..|names| - 1]), names[|names| - 1])
  }

  /** The insertion order holds every assigned name exactly once and nothing else. */
  lemma {:induction false} InsertionOrderKeys(names: seq<string>)
    ensures Distinct(InsertionOrder(names))
    ensures forall k :: k in InsertionOrder(names) <==> k in names
  {
    if names != [] {
      var init := names[..|names| - 1];
      InsertionOrderKeys(init);
      assert names == init + [names[|names| - 1]];
    }
  }

  /** A dict: its keys in iteration order, and the value stored under each. */
  datatype Dict<V> = Dict(keys: seq<string>, values: map<string, V>) {

    /** Keys are listed once each, and exactly the keys that hold a value. */
    ghost predicate Valid() {
      Distinct(keys) && forall k :: k in values <==> k in keys
    }

    /** `d[k] = v`. */
    function Put(k: string, v: V): (d: Dict<V>)
      ensures Valid() ==> d.Valid()
      ensures k in d.values && d.values[k] == v
      ensures forall j :: j != k ==> (j in d.values <==> j in values) && (j in values ==> d.values[j] == values[j])
      ensures k in keys ==> d.keys == keys
      ensures k !in keys ==> d.keys == keys + [k]
    {
      Dict(PutKey(keys, k), values[k := v])
    }

    /** `d.get(k)`. */
    function Get(k: string): (r: Option<V>)
      ensures r.Some? <==> k in values
      ensures r.Some? ==> r.value == values[k]
    {
      if k in values then Some(values[k]) else None
    }
  }

  /** The empty dict `{}`. */
  function Empty<V>(): (d: Dict<V>)
    ensures d.Valid() && d.keys == [] && d.values == map[]
  {
    Dict([], map[])
  }

  /** The dict built by assigning each pair in turn: a literal or a comprehension. */
  function FromPairs<V>(ps: seq<(string, V)>): Dict<V>
  {
    if ps == [] then Empty() else FromPairs(ps[..|ps| - 1]).Put(ps[|ps| - 1].0, ps[|ps| - 1].1)
  }

  /** A one-entry literal `{k: v}`. */
  lemma FromPairsOne<V>(k: string, v: V)
    ensures FromPairs([(k, v)]) == Dict([k], map[k := v])
  {
    assert [(k, v)][..0] == [];
  }

  /** A two-entry literal `{k1: v1, k2: v2}` with different keys. */
  lemma FromPairsTwo<V>(k1: string, v1: V, k2: string, v2: V)
    requires k1 != k2
    ensures FromPairs([(k1, v1), (k2, v2)]) == Dict([k1, k2], map[k1 := v1, k2 := v2])
  {
    assert [(k1, v1), (k2, v2)][..1] == [(k1, v1)];
    FromPairsOne(k1, v1);
  }

  /** The keys of `ps`, in order, with repetitions. */
  function PairKeys<V>(ps: seq<(string, V)>): (r: seq<string>)
    ensures |r| == |ps| && forall i :: 0 <= i < |ps| ==> r[i] == ps[i].0
  {
    seq(|ps|, i requires 0 <= i < |ps| => ps[i].0)
  }

  /** A dict built from pairs is valid. */
  lemma {:induction false} FromPairsValid<V>(ps: seq<(string, V)>)
    ensures FromPairs(ps).Valid()
  {
    if ps != [] {
      FromPairsValid(ps[..|ps| - 1]);
    }
  }

  /** A dict built from pairs lists its keys in first-insertion order. */
  lemma {:induction false} FromPairsOrder<V>(ps: seq<(string, V)>)
    ensures FromPairs(ps).keys == InsertionOrder(PairKeys(ps))
  {
    if ps != [] {
      var init := ps[..|ps| - 1];
      FromPairsOrder(init);
      var last := ps[|ps| - 1];
      var names := PairKeys(ps);
      assert names[..|names| - 1] == PairKeys(init);
      assert names[|names| - 1] == last.0;
      calc {
        FromPairs(ps).keys;
        FromPairs(init).Put(last.0, last.1).keys;
        PutKey(FromPairs(init).keys, last.0);
        PutKey(InsertionOrder(PairKeys(init)), last.0);
        InsertionOrder(names);
      }
    }
  }

  /** A dict built from pairs holds exactly the keys of the pairs. */
  lemma {:induction false} FromPairsHas<V>(ps: seq<(string, V)>, k: string)
    ensures k in FromPairs(ps).values <==> exists i :: 0 <= i < |ps| && ps[i].0 == k
  {
    if ps != [] {
      var init := ps[..|ps| - 1];
      FromPairsHas(init, k);
      if k in FromPairs(init).values {
        var i :| 0 <= i < |init| && init[i].0 == k;
        assert ps[i].0 == k;
      }
      if exists i :: 0 <= i < |ps| && ps[i].0 == k {
        var i :| 0 <= i < |ps| && ps[i].0 == k;
        if i < |init| {
          assert init[i].0 == k;
        }
      }
    }
  }

  /** When every pair with key `k` carries `v`, and some pair has key `k`,
      the dict maps `k` to `v`. */
  lemma {:induction false} FromPairsUniform<V>(ps: seq<(string, V)>, k: string, v: V)
    requires exists i :: 0 <= i < |ps| && ps[i].0 == k
    requires forall i :: 0 <= i < |ps| && ps[i].0 == k ==> ps[i].1 == v
    ensures k in FromPairs(ps).values && FromPairs(ps).values[k] == v
  {
    var init := ps[..|ps| - 1];
    if ps[|ps| - 1].0 != k {
      var i :| 0 <= i < |ps| && ps[i].0 == k;
      assert init[i].0 == k;
      FromPairsUniform(init, k, v);
    }
  }

  /** The last pair with a given key decides that key's value. */
  lemma {:induction false} FromPairsLast<V>(ps: seq<(string, V)>, i: nat)
    requires i < |ps|
    requires forall j :: i < j < |ps| ==> ps[j].0 != ps[i].0
    ensures ps[i].0 in FromPairs(ps).values && FromPairs(ps).values[ps[i].0] == ps[i].1
  {
    if i < |ps| - 1 {
      var init := ps[..|ps| - 1];
      FromPairsLast(init, i);
    }
  }
}
