/**
 * plmfit/models/pretrained_models.py, `ESMFamily.extract_embeddings` and
 * `AnkhFamily.extract_embeddings`: every batch's hidden-state stack is reduced once per
 * (layer, reduction) pair, in layer-major order, into one buffer of shape
 * len(layer) × len(reduction) × N × D. The `mut_mean` reduction changes the stack in
 * place, and later pairs of the same batch see the change.
 */
module FanOut {
  import opened Results
  import opened PyText
  import opened Tensors
  import opened Batching

  /** The two families that fan out over several layers and reductions. */
  datatype Family = ESM | Ankh

  /** The `layer` argument: an int is wrapped into a one-element list. */
  datatype LayerArg = OneLayer(layer: int) | LayerList(layers: seq<int>)

  /** The `reduction` argument: a str is wrapped into a one-element list. */
  datatype ReductionArg = OneReduction(reduction: string) | ReductionList(reductions: seq<string>)

  function Layers(arg: LayerArg): seq<int> {
    match arg
    case OneLayer(l) => [l]
    case LayerList(ls) => ls
  }

  function Reductions(arg: ReductionArg): seq<string> {
    match arg
    case OneReduction(r) => [r]
    case ReductionList(rs) => rs
  }

  /** A hidden-state stack as the backbone returns it for a batch of `b` sequences: at
      least one tensor, each of shape (b, t, d), with at least one token. */
  predicate Stack(out: seq<Hidden>, b: nat, t: nat, d: nat) {
    |out| > 0 && t > 0 && forall l :: 0 <= l < |out| ==> Rect(out[l], b, t, d)
  }

  /** The reduction keywords a family handles; every other one reaches the final raise. */
  predicate Accepts(family: Family, reduction: string) {
    || reduction == "mean" || reduction == "sum" || reduction == "eos"
    || (family == ESM && reduction == "bos")
    || StartsWith(reduction, "pos") || reduction == "mut_mean"
  }

  /** `hidden_states[lay]` with `lay` outside the stack. */
  const LayerOutOfRange: Error := IndexError("tuple index out of range")
  /** A token position outside the token axis. */
  const TokenOutOfRange: Error := IndexError("index is out of bounds for the token dimension")
  /** `raise 'Unsupported reduction option'`: raising a str is itself a TypeError. */
  const Unsupported: Error := TypeError("exceptions must derive from BaseException")
  /** A backbone output that is not a stack of (batch, tokens, D) tensors. */
  const ShapeMismatch: Error := RuntimeError("hidden states do not match the embedding buffer")

  /** The rows one reduction contributes: one D-vector per sequence of the batch. */
  predicate Block(rows: seq<Vec>, b: nat, d: nat) {
    |rows| == b && Tokens(rows, d)
  }

  /** Slot values indexed [j][k]: `m` layers, `n` reductions, `b` rows of width `d` each. */
  predicate Blocks(vals: seq<seq<seq<Vec>>>, m: nat, n: nat, b: nat, d: nat) {
    |vals| == m && forall j :: 0 <= j < m ==> |vals[j]| == n && forall k :: 0 <= k < n ==> Block(vals[j][k], b, d)
  }

  /** `torch.mean(out[lay], dim=1)` */
  function MeanRows(x: Hidden, b: nat, t: nat, d: nat): (rows: seq<Vec>)
    requires Rect(x, b, t, d) && t > 0
    ensures Block(rows, b, d)
  {
    seq(b, r requires 0 <= r < b => MeanTokens(x[r], d))
  }

  /** `torch.sum(out[lay], dim=1)` */
  function SumRows(x: Hidden, b: nat, t: nat, d: nat): (rows: seq<Vec>)
    requires Rect(x, b, t, d)
    ensures Block(rows, b, d)
  {
    seq(b, r requires 0 <= r < b => SumTokens(x[r], d))
  }

  /** `out[lay][:, u]` */
  function TokenRows(x: Hidden, b: nat, t: nat, d: nat, u: nat): (rows: seq<Vec>)
    requires Rect(x, b, t, d) && u < t
    ensures Block(rows, b, d)
  {
    seq(b, r requires 0 <= r < b => x[r][u])
  }

  /** The positions of `mut_pos` on a token axis of length `t`, negative ones counted from
      the end; None when one of them is out of range. */
  function ResolvePositions(ps: seq<int>, t: nat): (r: Option<seq<nat>>)
    ensures r.Some? <==> forall i :: 0 <= i < |ps| ==> PyIndex(ps[i], t).Some?
    ensures r.Some? ==> |r.value| == |ps| && forall i :: 0 <= i < |ps| ==> PyIndex(ps[i], t) == Some(r.value[i])
  {
    if ps == [] then Some([])
    else
      var front := ResolvePositions(ps[..|ps| - 1], t);
      var last := PyIndex(ps[|ps| - 1], t);
      if front.None? then None
      else if last.None? then None
      else Some(front.value + [last.value])
  }

  /** `for pos in mut_pos[1:]: out[lay][:, f] = torch.add(out[lay][:, f], out[lay][:, pos])`
      on the tokens of one sequence: token `f` accumulates, every other token stays. */
  function MutFold(toks: seq<Vec>, f: nat, ps: seq<nat>, d: nat): (r: seq<Vec>)
    requires Tokens(toks, d) && f < |toks| && forall i :: 0 <= i < |ps| ==> ps[i] < |toks|
    ensures |r| == |toks| && Tokens(r, d)
    ensures forall u :: 0 <= u < |toks| && u != f ==> r[u] == toks[u]
  {
    if ps == [] then toks
    else
      var prev := MutFold(toks, f, ps[..|ps| - 1], d);
      prev[f := Add(prev[f], prev[ps[|ps| - 1]])]
  }

  /** The `mut_mean` branch once the positions `qs` are resolved: the changed tensor, whose
      token `qs[0]` has accumulated the others, and per sequence that token divided by
      `len(mut_pos)`. */
  function MutMean(x: Hidden, b: nat, t: nat, d: nat, qs: seq<nat>): (r: (seq<Vec>, Hidden))
    requires Rect(x, b, t, d) && |qs| > 0 && forall i :: 0 <= i < |qs| ==> qs[i] < t
    ensures Block(r.0, b, d) && Rect(r.1, b, t, d)
    ensures forall row, u :: 0 <= row < b && 0 <= u < t && u != qs[0] ==> r.1[row][u] == x[row][u]
  {
    var changed := seq(b, row requires 0 <= row < b => MutFold(x[row], qs[0], qs[1..], d));
    (seq(b, row requires 0 <= row < b => DivBy(changed[row][qs[0]], |qs|)), changed)
  }

  /** The result of one (layer, reduction) pair: its rows and the stack as it is afterwards. */
  datatype Step = Step(rows: seq<Vec>, stack: seq<Hidden>)

  /** One pass of the inner loop body: reduction `reduction` of `hidden_states[lay]`. The
      keyword is tested first, then the layer index, then what the branch needs. */
  function FanStep(family: Family, out: seq<Hidden>, b: nat, t: nat, d: nat, lay: int, reduction: string, mutPos: Option<seq<int>>): (r: Result<Step>)
    requires Stack(out, b, t, d)
    ensures r.Ok? ==> Block(r.value.rows, b, d) && |r.value.stack| == |out| && Stack(r.value.stack, b, t, d)
    ensures r.Ok? && reduction != "mut_mean" ==> r.value.stack == out
  {
    var li := PyIndex(lay, |out|);
    if reduction == "mean" then
      if li.None? then Err(LayerOutOfRange) else Ok(Step(MeanRows(out[li.value], b, t, d), out))
    else if reduction == "sum" then
      if li.None? then Err(LayerOutOfRange) else Ok(Step(SumRows(out[li.value], b, t, d), out))
    else if reduction == "eos" then
      if li.None? then Err(LayerOutOfRange) else Ok(Step(TokenRows(out[li.value], b, t, d, t - 1), out))
    else if family == ESM && reduction == "bos" then
      if li.None? then Err(LayerOutOfRange) else Ok(Step(TokenRows(out[li.value], b, t, d, 0), out))
    else if StartsWith(reduction, "pos") then
      if li.None? then Err(LayerOutOfRange)
      else
        var k := ParseInt(reduction[3..]);
        if k.None? then Err(ValueError("invalid literal for int() with base 10"))
        else
          var u := PyIndex(k.value, t);
          if u.None? then Err(TokenOutOfRange) else Ok(Step(TokenRows(out[li.value], b, t, d, u.value), out))
    else if reduction == "mut_mean" then
      if mutPos.None? then Err(TypeError("object of type 'NoneType' has no len()"))
      else if mutPos.value == [] then Err(IndexError("list index out of range"))
      else if li.None? then Err(LayerOutOfRange)
      else
        var qs := ResolvePositions(mutPos.value, t);
        if qs.None? then Err(TokenOutOfRange)
        else
          var m := MutMean(out[li.value], b, t, d, qs.value);
          Ok(Step(m.0, out[li.value := m.1]))
    else Err(Unsupported)
  }

  /** The inner loop over `reduction[:n]` for one layer, threading the stack. */
  function LayerFan(family: Family, out: seq<Hidden>, b: nat, t: nat, d: nat, lay: int, reductions: seq<string>, mutPos: Option<seq<int>>, n: nat): (r: Result<(seq<seq<Vec>>, seq<Hidden>)>)
    requires Stack(out, b, t, d) && n <= |reductions|
    ensures r.Ok? ==> |r.value.0| == n && (forall k :: 0 <= k < n ==> Block(r.value.0[k], b, d))
    ensures r.Ok? ==> |r.value.1| == |out| && Stack(r.value.1, b, t, d)
  {
    if n == 0 then Ok(([], out))
    else
      var prev := LayerFan(family, out, b, t, d, lay, reductions, mutPos, n - 1);
      if prev.Err? then Err(prev.error)
      else
        var step := FanStep(family, prev.value.1, b, t, d, lay, reductions[n - 1], mutPos);
        if step.Err? then Err(step.error)
        else Ok((prev.value.0 + [step.value.rows], step.value.stack))
  }

  /** Both loops over `layer[:m]` and every reduction, threading the stack. */
  function Fan(family: Family, out: seq<Hidden>, b: nat, t: nat, d: nat, layers: seq<int>, reductions: seq<string>, mutPos: Option<seq<int>>, m: nat): (r: Result<(seq<seq<seq<Vec>>>, seq<Hidden>)>)
    requires Stack(out, b, t, d) && m <= |layers|
    ensures r.Ok? ==> Blocks(r.value.0, m, |reductions|, b, d)
    ensures r.Ok? ==> |r.value.1| == |out| && Stack(r.value.1, b, t, d)
  {
    if m == 0 then Ok(([], out))
    else
      var prev := Fan(family, out, b, t, d, layers, reductions, mutPos, m - 1);
      if prev.Err? then Err(prev.error)
      else
        var row := LayerFan(family, prev.value.1, b, t, d, layers[m - 1], reductions, mutPos, |reductions|);
        if row.Err? then Err(row.error)
        else Ok((prev.value.0 + [row.value.0], row.value.1))
  }

  /** The token count of a stack for a batch of `b` sequences, when it is a well-formed one. */
  function StackTokens(out: seq<Hidden>, b: nat, d: nat): (t: Option<nat>)
    ensures t.Some? <==> b > 0 && |out| > 0 && |out[0]| == b && Stack(out, b, |out[0][0]|, d)
    ensures t.Some? ==> Stack(out, b, t.value, d)
  {
    if b > 0 && |out| > 0 && |out[0]| == b && Stack(out, b, |out[0][0]|, d) then Some(|out[0][0]|) else None
  }

  /** What one batch writes into slot [j][k]: the batch's rows, all computed from the one
      hidden-state stack the backbone returned for it. */
  function BatchSlots(family: Family, out: seq<Hidden>, b: nat, d: nat, layers: seq<int>, reductions: seq<string>, mutPos: Option<seq<int>>): (r: Result<seq<seq<seq<Vec>>>>)
    ensures r.Ok? ==> Blocks(r.value, |layers|, |reductions|, b, d)
  {
    var t := StackTokens(out, b, d);
    if t.None? then Err(ShapeMismatch)
    else
      var fan := Fan(family, out, b, t.value, d, layers, reductions, mutPos, |layers|);
      if fan.Err? then Err(fan.error) else Ok(fan.value.0)
  }

  /** What batch `q` of the encoded sequences `encs` writes, slot by slot, when the
      backbone `forward` maps a batch to its hidden-state stack. */
  function BatchResult(family: Family, encs: seq<seq<int>>, batch: nat, d: nat, layers: seq<int>, reductions: seq<string>, mutPos: Option<seq<int>>, forward: seq<seq<int>> -> seq<Hidden>, q: nat): (r: Result<seq<seq<seq<Vec>>>>)
    requires batch > 0 && q < NumBatches(|encs|, batch)
    ensures r.Ok? ==> Blocks(r.value, |layers|, |reductions|, BatchLen(q, batch, |encs|), d)
  {
    var rows := Batch(encs, q, batch);
    BatchSlots(family, forward(rows), |rows|, d, layers, reductions, mutPos)
  }

  // ---------------------------------------------------------------------------
  // Properties
  // ---------------------------------------------------------------------------

  /** A reduction ends in the final raise exactly when the family does not handle it. */
  lemma FanStepUnsupported(family: Family, out: seq<Hidden>, b: nat, t: nat, d: nat, lay: int, reduction: string, mutPos: Option<seq<int>>)
    requires Stack(out, b, t, d)
    ensures FanStep(family, out, b, t, d, lay, reduction, mutPos) == Err(Unsupported) <==> !Accepts(family, reduction)
  {
  }

  /** ESM and Ankh reduce alike, except that Ankh has no 'bos' branch: there 'bos' reaches
      the raise, while ESM takes token 0 of every sequence. */
  lemma FamiliesDifferOnlyOnBos(out: seq<Hidden>, b: nat, t: nat, d: nat, lay: int, reduction: string, mutPos: Option<seq<int>>)
    requires Stack(out, b, t, d)
    ensures reduction != "bos" ==> FanStep(ESM, out, b, t, d, lay, reduction, mutPos) == FanStep(Ankh, out, b, t, d, lay, reduction, mutPos)
    ensures FanStep(Ankh, out, b, t, d, lay, "bos", mutPos) == Err(Unsupported)
    ensures PyIndex(lay, |out|).Some? ==>
      var x := out[PyIndex(lay, |out|).value];
      var r := FanStep(ESM, out, b, t, d, lay, "bos", mutPos);
      r.Ok? && forall row :: 0 <= row < b ==> r.value.rows[row] == x[row][0]
  {
    assert "bos"[..3][0] != "pos"[0];
  }

  /** The tokens of a sequence at the given positions. */
  function Select(toks: seq<Vec>, ps: seq<nat>): (s: seq<Vec>)
    requires forall i :: 0 <= i < |ps| ==> ps[i] < |toks|
    ensures |s| == |ps| && forall i :: 0 <= i < |ps| ==> s[i] == toks[ps[i]]
  {
    seq(|ps|, i requires 0 <= i < |ps| => toks[ps[i]])
  }

  /** When no later position is the first one, the accumulating token ends as the sum of
      the tokens at all the positions. */
  lemma {:induction false} MutFoldSums(toks: seq<Vec>, f: nat, ps: seq<nat>, d: nat)
    requires Tokens(toks, d) && f < |toks| && forall i :: 0 <= i < |ps| ==> ps[i] < |toks| && ps[i] != f
    ensures Tokens(Select(toks, [f] + ps), d)
    ensures MutFold(toks, f, ps, d)[f] == SumTokens(Select(toks, [f] + ps), d)
  {
    var sel := Select(toks, [f] + ps);
    if ps == [] {
      SumTokensSingle(toks[f]);
      assert sel == [toks[f]];
    } else {
      var front := ps[..|ps| - 1];
      var last := ps[|ps| - 1];
      MutFoldSums(toks, f, front, d);
      var prev := MutFold(toks, f, front, d);
      assert prev[last] == toks[last];
      assert sel == Select(toks, [f] + front) + [toks[last]];
      SumTokensSnoc(Select(toks, [f] + front), toks[last], d);
    }
  }

  /** With distinct positions (none after the first repeats it), `mut_mean` gives each
      sequence the mean of its tokens at `mut_pos`. */
  lemma MutMeanIsMean(x: Hidden, b: nat, t: nat, d: nat, qs: seq<nat>)
    requires Rect(x, b, t, d) && |qs| > 0 && forall i :: 0 <= i < |qs| ==> qs[i] < t
    requires forall i :: 1 <= i < |qs| ==> qs[i] != qs[0]
    ensures forall row :: 0 <= row < b ==> Tokens(Select(x[row], qs), d)
    ensures forall row :: 0 <= row < b ==> MutMean(x, b, t, d, qs).0[row] == MeanTokens(Select(x[row], qs), d)
  {
    forall row | 0 <= row < b
      ensures Tokens(Select(x[row], qs), d)
      ensures MutMean(x, b, t, d, qs).0[row] == MeanTokens(Select(x[row], qs), d)
    {
      assert [qs[0]] + qs[1..] == qs;
      MutFoldSums(x[row], qs[0], qs[1..], d);
    }
  }

  /** The side effect of `mut_mean` is visible to the reductions after it: with `reduction ==
      ['mut_mean', f'pos{p}']`, where `p` is the first mutated position, the second slot
      holds the sum of the tokens at `mut_pos` rather than the backbone's token `p`, and the
      first slot that sum divided by `len(mut_pos)`. */
  lemma {:induction false} MutMeanSeenByLaterReduction(family: Family, out: seq<Hidden>, b: nat, t: nat, d: nat, lay: int, ps: seq<int>, qs: seq<nat>)
    requires Stack(out, b, t, d) && PyIndex(lay, |out|).Some?
    requires |ps| > 0 && ResolvePositions(ps, t) == Some(qs)
    requires forall i :: 1 <= i < |qs| ==> qs[i] != qs[0]
    ensures
      var x := out[PyIndex(lay, |out|).value];
      var reductions := ["mut_mean", "pos" + IntToString(qs[0])];
      var r := LayerFan(family, out, b, t, d, lay, reductions, Some(ps), 2);
      && r.Ok?
      && (forall row :: 0 <= row < b ==> Tokens(Select(x[row], qs), d))
      && (forall row :: 0 <= row < b ==> r.value.0[1][row] == SumTokens(Select(x[row], qs), d))
      && (forall row :: 0 <= row < b ==> r.value.0[0][row] == DivBy(SumTokens(Select(x[row], qs), d), |qs|))
  {
    var li := PyIndex(lay, |out|).value;
    var x := out[li];
    var reductions := ["mut_mean", "pos" + IntToString(qs[0])];
    var m := MutMean(x, b, t, d, qs);
    MutMeanStep(family, out, b, t, d, lay, ps, qs);
    PosStep(family, out[li := m.1], b, t, d, lay, qs[0], Some(ps));
    assert reductions[0] == "mut_mean" && reductions[1] == "pos" + IntToString(qs[0]);
    assert LayerFan(family, out, b, t, d, lay, reductions, Some(ps), 0) == Ok(([], out));
    assert LayerFan(family, out, b, t, d, lay, reductions, Some(ps), 1) == Ok(([] + [m.0], out[li := m.1]));
    forall row | 0 <= row < b
      ensures Tokens(Select(x[row], qs), d)
      ensures m.1[row][qs[0]] == SumTokens(Select(x[row], qs), d)
    {
      assert [qs[0]] + qs[1..] == qs;
      MutFoldSums(x[row], qs[0], qs[1..], d);
    }
  }

  /** The `mut_mean` step with resolvable positions. */
  lemma MutMeanStep(family: Family, out: seq<Hidden>, b: nat, t: nat, d: nat, lay: int, ps: seq<int>, qs: seq<nat>)
    requires Stack(out, b, t, d) && PyIndex(lay, |out|).Some?
    requires |ps| > 0 && ResolvePositions(ps, t) == Some(qs)
    ensures
      var li := PyIndex(lay, |out|).value;
      var m := MutMean(out[li], b, t, d, qs);
      FanStep(family, out, b, t, d, lay, "mut_mean", Some(ps)) == Ok(Step(m.0, out[li := m.1]))
  {
    assert "mut_mean"[..3][0] != "pos"[0];
  }

  /** `f'pos{u}'` for a token index `u` in range reads token `u`. */
  lemma PosStep(family: Family, out: seq<Hidden>, b: nat, t: nat, d: nat, lay: int, u: nat, mutPos: Option<seq<int>>)
    requires Stack(out, b, t, d) && PyIndex(lay, |out|).Some? && u < t
    ensures
      var li := PyIndex(lay, |out|).value;
      FanStep(family, out, b, t, d, lay, "pos" + IntToString(u), mutPos) == Ok(Step(TokenRows(out[li], b, t, d, u), out))
  {
    var pos := "pos" + IntToString(u);
    assert pos[3..] == IntToString(u);
    ParseIntOfIntToString(u);
    assert StartsWith(pos, "pos");
    assert pos[0] == 'p';
  }

  /** A `mut_mean` leaves the other layers and the other tokens of its layer as they were. */
  lemma MutMeanFrame(family: Family, out: seq<Hidden>, b: nat, t: nat, d: nat, lay: int, ps: seq<int>)
    requires Stack(out, b, t, d) && FanStep(family, out, b, t, d, lay, "mut_mean", Some(ps)).Ok?
    ensures
      var s := FanStep(family, out, b, t, d, lay, "mut_mean", Some(ps)).value.stack;
      var li := PyIndex(lay, |out|).value;
      var f := PyIndex(ps[0], t).value;
      && PyIndex(lay, |out|).Some? && |ps| > 0 && PyIndex(ps[0], t).Some?
      && (forall l :: 0 <= l < |out| && l != li ==> s[l] == out[l])
      && (forall row, u :: 0 <= row < b && 0 <= u < t && u != f ==> s[li][row][u] == out[li][row][u])
  {
    assert "mut_mean"[..3][0] != "pos"[0];
  }

  /** Once a reduction of a layer fails, the whole layer fails with that exception. */
  lemma {:induction false} LayerFanErr(family: Family, out: seq<Hidden>, b: nat, t: nat, d: nat, lay: int, reductions: seq<string>, mutPos: Option<seq<int>>, k: nat, n: nat)
    requires Stack(out, b, t, d) && k <= n <= |reductions|
    requires LayerFan(family, out, b, t, d, lay, reductions, mutPos, k).Err?
    ensures LayerFan(family, out, b, t, d, lay, reductions, mutPos, n) == LayerFan(family, out, b, t, d, lay, reductions, mutPos, k)
    decreases n
  {
    if k < n {
      LayerFanErr(family, out, b, t, d, lay, reductions, mutPos, k, n - 1);
    }
  }

  /** Once a layer fails, the whole fan-out fails with that exception. */
  lemma {:induction false} FanErr(family: Family, out: seq<Hidden>, b: nat, t: nat, d: nat, layers: seq<int>, reductions: seq<string>, mutPos: Option<seq<int>>, j: nat, m: nat)
    requires Stack(out, b, t, d) && j <= m <= |layers|
    requires Fan(family, out, b, t, d, layers, reductions, mutPos, j).Err?
    ensures Fan(family, out, b, t, d, layers, reductions, mutPos, m) == Fan(family, out, b, t, d, layers, reductions, mutPos, j)
    decreases m
  {
    if j < m {
      FanErr(family, out, b, t, d, layers, reductions, mutPos, j, m - 1);
    }
  }

  /** One more reduction extends the layer's rows by the step's rows, or fails with the
      step's exception. */
  lemma LayerFanNext(family: Family, out: seq<Hidden>, b: nat, t: nat, d: nat, lay: int, reductions: seq<string>, mutPos: Option<seq<int>>, k: nat, done: seq<seq<Vec>>, cur: seq<Hidden>)
    requires Stack(out, b, t, d) && k < |reductions|
    requires LayerFan(family, out, b, t, d, lay, reductions, mutPos, k) == Ok((done, cur))
    ensures Stack(cur, b, t, d)
    ensures
      var step := FanStep(family, cur, b, t, d, lay, reductions[k], mutPos);
      LayerFan(family, out, b, t, d, lay, reductions, mutPos, k + 1)
        == if step.Err? then Err(step.error) else Ok((done + [step.value.rows], step.value.stack))
  {
  }

  /** One more layer extends the rows by that layer's rows, or fails with its exception. */
  lemma FanNext(family: Family, out: seq<Hidden>, b: nat, t: nat, d: nat, layers: seq<int>, reductions: seq<string>, mutPos: Option<seq<int>>, j: nat, done: seq<seq<seq<Vec>>>, cur: seq<Hidden>)
    requires Stack(out, b, t, d) && j < |layers|
    requires Fan(family, out, b, t, d, layers, reductions, mutPos, j) == Ok((done, cur))
    ensures Stack(cur, b, t, d)
    ensures
      var row := LayerFan(family, cur, b, t, d, layers[j], reductions, mutPos, |reductions|);
      Fan(family, out, b, t, d, layers, reductions, mutPos, j + 1)
        == if row.Err? then Err(row.error) else Ok((done + [row.value.0], row.value.1))
  {
  }

  /** The loop over layers after layer `j`: its rows extend the rows so far, or its
      exception is the whole fan-out's. */
  lemma FanAdvance(family: Family, out: seq<Hidden>, b: nat, t: nat, d: nat, layers: seq<int>, reductions: seq<string>, mutPos: Option<seq<int>>, j: nat, done: seq<seq<seq<Vec>>>, cur: seq<Hidden>, row: Result<(seq<seq<Vec>>, seq<Hidden>)>)
    requires Stack(out, b, t, d) && j < |layers|
    requires Fan(family, out, b, t, d, layers, reductions, mutPos, j) == Ok((done, cur))
    requires row == LayerFan(family, cur, b, t, d, layers[j], reductions, mutPos, |reductions|)
    ensures row.Err? ==> Fan(family, out, b, t, d, layers, reductions, mutPos, |layers|) == Err(row.error)
    ensures row.Ok? ==> Fan(family, out, b, t, d, layers, reductions, mutPos, j + 1) == Ok((done + [row.value.0], row.value.1))
  {
    FanNext(family, out, b, t, d, layers, reductions, mutPos, j, done, cur);
    if row.Err? {
      FanErr(family, out, b, t, d, layers, reductions, mutPos, j + 1, |layers|);
    }
  }
}
