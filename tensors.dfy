/**
 * The hidden-state values that embedding extraction reduces. A hidden-state tensor of
 * a batch is indexed [sequence][token][hidden unit]; values are reals, so that the
 * mean and `mut_mean` divisions are exact.
 */
module Tensors {

  /** The hidden vector of one token, or one reduced embedding. */
  type Vec = seq<real>

  /** One hidden-state tensor of a batch: [sequence][token][hidden unit]. */
  type Hidden = seq<seq<Vec>>

  function Zeros(d: nat): (v: Vec)
    ensures |v| == d && forall i :: 0 <= i < d ==> v[i] == 0.0
  {
    seq(d, _ => 0.0)
  }

  /** `torch.add` on two vectors of the same width. */
  function Add(a: Vec, b: Vec): Vec
    requires |a| == |b|
  {
    seq(|a|, i requires 0 <= i < |a| => a[i] + b[i])
  }

  /** `torch.div(a, n)` */
  function DivBy(a: Vec, n: nat): Vec
    requires n > 0
  {
    seq(|a|, i requires 0 <= i < |a| => a[i] / (n as real))
  }

  /** Every token vector has width `w`. */
  predicate Tokens(toks: seq<Vec>, w: nat) {
    forall u :: 0 <= u < |toks| ==> |toks[u]| == w
  }

  /** `x` has shape (b, t, w). */
  predicate Rect(x: Hidden, b: nat, t: nat, w: nat) {
    |x| == b && forall r :: 0 <= r < b ==> |x[r]| == t && Tokens(x[r], w)
  }

  /** The sum of hidden unit `i` over the tokens. */
  function ColumnSum(toks: seq<Vec>, i: nat): real
    requires forall u :: 0 <= u < |toks| ==> i < |toks[u]|
  {
    if toks == [] then 0.0 else ColumnSum(toks[..|toks| - 1], i) + toks[|toks| - 1][i]
  }

  /** `torch.sum(x, dim=1)` for one sequence: the elementwise sum over the token axis. */
  function SumTokens(toks: seq<Vec>, w: nat): (s: Vec)
    requires Tokens(toks, w)
    ensures |s| == w
  {
    seq(w, i requires 0 <= i < w => ColumnSum(toks, i))
  }

  /** `torch.mean(x, dim=1)` for one sequence: the sum divided by the number of tokens. */
  function MeanTokens(toks: seq<Vec>, w: nat): (m: Vec)
    requires Tokens(toks, w) && |toks| > 0
    ensures |m| == w
  {
    DivBy(SumTokens(toks, w), |toks|)
  }

  /** Adding one more token adds its vector to the sum. */
  lemma SumTokensSnoc(toks: seq<Vec>, v: Vec, w: nat)
    requires Tokens(toks, w) && |v| == w
    ensures Tokens(toks + [v], w)
    ensures SumTokens(toks + [v], w) == Add(SumTokens(toks, w), v)
  {
    assert (toks + [v])[..|toks|] == toks;
  }

  /** The sum over one token is that token. */
  lemma SumTokensSingle(v: Vec)
    ensures Tokens([v], |v|)
    ensures SumTokens([v], |v|) == v
  {
    forall i | 0 <= i < |v| ensures SumTokens([v], |v|)[i] == v[i] {
      assert [v][..0] == [];
      assert ColumnSum([v], i) == ColumnSum([], i) + v[i];
    }
  }

  /** Over tokens that all carry the same vector `v`, each hidden unit sums to `t * v[i]`. */
  lemma {:induction false} ColumnSumOfConstant(toks: seq<Vec>, v: Vec, i: nat)
    requires i < |v| && forall u :: 0 <= u < |toks| ==> toks[u] == v
    ensures ColumnSum(toks, i) == (|toks| as real) * v[i]
  {
    if toks != [] {
      ColumnSumOfConstant(toks[..|toks| - 1], v, i);
    }
  }

  /** The mean over tokens that all carry the same vector is that vector. */
  lemma {:induction false} MeanOfConstant(toks: seq<Vec>, v: Vec)
    requires |toks| > 0 && forall u :: 0 <= u < |toks| ==> toks[u] == v
    ensures Tokens(toks, |v|)
    ensures MeanTokens(toks, |v|) == v
  {
    var t := |toks| as real;
    forall i | 0 <= i < |v| ensures MeanTokens(toks, |v|)[i] == v[i] {
      ColumnSumOfConstant(toks, v, i);
      assert SumTokens(toks, |v|)[i] == t * v[i];
      assert (t * v[i]) / t == v[i];
    }
  }
}
