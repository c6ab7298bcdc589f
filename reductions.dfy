/** The numpy reductions the checks apply to the library's outputs. */
module Reductions {

  /** `np.max`: the largest element of a non-empty sequence. */
  function Max(s: seq<real>): (m: real)
    requires |s| > 0
    ensures m in s
    ensures forall i :: 0 <= i < |s| ==> s[i] <= m
  {
    if |s| == 1 then s[0]
    else var rest := Max(s[1..]); if s[0] < rest then rest else s[0]
  }

  /** `np.sum`. */
  function Sum(s: seq<real>): real
  {
    if s == [] then 0.0 else s[0] + Sum(s[1..])
  }

  /** `np.mean` of a non-empty sequence. */
  function Mean(s: seq<real>): real
    requires |s| > 0
  {
    Sum(s) / (|s| as real)
  }

  /** Absolute value. */
  function Abs(x: real): (r: real)
    ensures r >= 0.0 && (r == x || r == -x)
  {
    if x < 0.0 then -x else x
  }

  /** `np.abs` applied element-wise. */
  function AbsAll(s: seq<real>): (r: seq<real>)
    ensures |r| == |s|
    ensures forall i :: 0 <= i < |s| ==> r[i] == Abs(s[i])
  {
    seq(|s|, i requires 0 <= i < |s| => Abs(s[i]))
  }

  /** `np.sum(s > c)`: how many elements are strictly above `c`. */
  function CountAbove(s: seq<real>, c: real): nat
  {
    if s == [] then 0 else (if s[0] > c then 1 else 0) + CountAbove(s[1..], c)
  }

  /** `sum(bs)` over booleans: how many are true. */
  function CountTrue(bs: seq<bool>): nat
  {
    if bs == [] then 0 else (if bs[0] then 1 else 0) + CountTrue(bs[1..])
  }

  /** No element is above the cutoff exactly when the count above it is zero. */
  lemma {:induction false} CountAboveZero(s: seq<real>, c: real)
    ensures CountAbove(s, c) == 0 <==> forall i :: 0 <= i < |s| ==> s[i] <= c
  {
    if s != [] {
      CountAboveZero(s[1..], c);
      assert forall i :: 1 <= i < |s| ==> s[i] == s[1..][i - 1];
    }
  }

  /** The count above a cutoff is zero exactly when the maximum does not exceed it. */
  lemma CountAboveZeroIffMax(s: seq<real>, c: real)
    requires |s| > 0
    ensures CountAbove(s, c) == 0 <==> Max(s) <= c
  {
    CountAboveZero(s, c);
  }

  /** The maximum is within a bound exactly when every element is. */
  lemma MaxAtMostIff(s: seq<real>, c: real)
    requires |s| > 0
    ensures Max(s) <= c <==> forall i :: 0 <= i < |s| ==> s[i] <= c
  {
    if Max(s) > c {
      var i :| 0 <= i < |s| && s[i] == Max(s);
    }
  }

  /** The maximum is strictly below a bound exactly when every element is. */
  lemma MaxBelowIff(s: seq<real>, c: real)
    requires |s| > 0
    ensures Max(s) < c <==> forall i :: 0 <= i < |s| ==> s[i] < c
  {
    if Max(s) >= c {
      var i :| 0 <= i < |s| && s[i] == Max(s);
    }
  }

  /** One induction step of the sum bound, on plain numbers. */
  lemma SumStep(x: real, total: real, k: real, n: real, m: real)
    requires k >= 0.0 && n == k + 1.0 && total <= k * m && x <= m
    ensures x + total <= n * m
  {
    assert n * m == k * m + m;
  }

  /** The sum of `n` elements that are all at most `m` is at most `n * m`. */
  lemma {:induction false} SumAtMostLengthTimesBound(s: seq<real>, n: real, m: real)
    requires n == |s| as real
    requires forall i :: 0 <= i < |s| ==> s[i] <= m
    ensures Sum(s) <= n * m
  {
    if s != [] {
      var rest := s[1..];
      assert forall i :: 0 <= i < |rest| ==> rest[i] == s[i + 1];
      SumAtMostLengthTimesBound(rest, n - 1.0, m);
      SumStep(s[0], Sum(rest), n - 1.0, n, m);
    }
  }

  /** On non-empty data the mean never exceeds the maximum. */
  lemma MeanAtMostMax(s: seq<real>)
    requires |s| > 0
    ensures Mean(s) <= Max(s)
  {
    SumOverLengthAtMostBound(s, |s| as real, Max(s));
  }

  /** The sum divided by the length `n` is at most any bound on the elements. */
  lemma SumOverLengthAtMostBound(s: seq<real>, n: real, m: real)
    requires |s| > 0 && n == |s| as real
    requires forall i :: 0 <= i < |s| ==> s[i] <= m
    ensures Sum(s) / n <= m
  {
    SumAtMostLengthTimesBound(s, n, m);
    DivideBound(Sum(s), n, m);
  }

  /** Dividing a bound `t <= n * m` by a positive `n`. */
  lemma DivideBound(t: real, n: real, m: real)
    requires n > 0.0 && t <= n * m
    ensures t / n <= m
  {
    assert t / n * n == t;
  }

  /** Three booleans: at least two are true exactly when some pair of them is. */
  lemma MajorityOfThree(a: bool, b: bool, c: bool)
    ensures CountTrue([a, b, c]) >= 2 <==> (a && b) || (a && c) || (b && c)
  {
    assert [a, b, c][1..] == [b, c];
    assert [b, c][1..] == [c];
    assert [c][1..] == [];
    assert CountTrue([c]) == (if c then 1 else 0);
    assert CountTrue([b, c]) == (if b then 1 else 0) + (if c then 1 else 0);
  }
}
