/**
 * plmfit/models/pretrained_models.py, `ProGenFamily.extract_embeddings`: one layer and
 * one reduction per run. For every batch the backbone returns its logits and its tuple of
 * hidden states; the `layer` description picks one of them, the `reduction` turns it into
 * one vector per sequence, and the vectors go to rows `[i, i + batch_size)` of a zero
 * buffer of shape N × D, which is saved as a single file.
 */
module ProGen {
  import opened Results
  import opened PyText
  import opened Tensors
  import opened Batching
  import opened FanOut
  import opened EmbeddingFiles
  import opened Utils

  // ---------------------------------------------------------------------------
  // The layer description
  // ---------------------------------------------------------------------------

  /** The `layer` argument: the int default `11`, or a str such as 'last' or '5'. */
  datatype LayerSpec = IntLayer(n: int) | StrLayer(s: string)

  /** What one forward pass returns: the hidden states (the input embeddings, then one per
      transformer block) and the logits. */
  datatype Output = Output(hidden: seq<Hidden>, logits: Hidden)

  /** `str(layer)`, as it appears in the file name. */
  function LayerText(layer: LayerSpec): string {
    match layer
    case IntLayer(n) => IntToString(n)
    case StrLayer(s) => s
  }

  /** `layer.isdigit()` on an int raises. */
  const NoIsDigit: Error := AttributeError("isdigit")

  /** `selected_layer_index` among `L` hidden states: 'last', 'middle' and 'first' name
      blocks, a digit string is a number, any other str falls back to 0. An int `layer`
      reaches `layer.isdigit()`, which does not exist on int. */
  function LayerIndex(layer: LayerSpec, L: nat): Result<int> {
    match layer
    case IntLayer(_) => Err(NoIsDigit)
    case StrLayer(s) =>
      if s == "last" then Ok(L - 1)
      else if s == "middle" then Ok(1 + (L - 1) / 2)
      else if s == "first" then Ok(1)
      else if IsDigitString(s) then Ok(DigitsValue(s))
      else Ok(0)
  }

  /** `out`: the logits for 'logits', else `hidden_states[selected_layer_index]`. */
  function SelectOut(layer: LayerSpec, o: Output): Result<Hidden> {
    if layer == StrLayer("logits") then Ok(o.logits)
    else
      var idx := LayerIndex(layer, |o.hidden|);
      if idx.Err? then Err(idx.error)
      else
        var p := PyIndex(idx.value, |o.hidden|);
        if p.None? then Err(LayerOutOfRange) else Ok(o.hidden[p.value])
  }

  /** With 13 hidden states (input embeddings and 12 blocks), 'first', 'middle' and 'last'
      pick 1, 7 and 12. */
  lemma NamedLayersOfThirteen()
    ensures LayerIndex(StrLayer("first"), 13) == Ok(1)
    ensures LayerIndex(StrLayer("middle"), 13) == Ok(7)
    ensures LayerIndex(StrLayer("last"), 13) == Ok(12)
  {
  }

  /** With at least one transformer block, the named layers are blocks, not the input
      embeddings, and they come in order: first <= middle <= last. */
  lemma NamedLayersAreBlocks(L: nat)
    requires L >= 2
    ensures
      var first := LayerIndex(StrLayer("first"), L).value;
      var middle := LayerIndex(StrLayer("middle"), L).value;
      var last := LayerIndex(StrLayer("last"), L).value;
      1 == first <= middle <= last == L - 1
  {
  }

  /** A layer written out as a number selects that hidden state, when there is one. */
  lemma {:induction false} NumberedLayer(n: nat, o: Output)
    requires n < |o.hidden|
    ensures SelectOut(StrLayer(NatToString(n)), o) == Ok(o.hidden[n])
  {
    var s := NatToString(n);
    DigitsValueOfNat(n);
    assert IsDigit(s[0]);
    assert s != "logits" && s != "last" && s != "middle" && s != "first" by {
      assert !IsDigit('l') && !IsDigit('m') && !IsDigit('f');
    }
  }

  /** Any other str silently selects the input embeddings `hidden_states[0]`. */
  lemma UnknownLayerIsEmbeddings(s: string, o: Output)
    requires s != "logits" && s != "last" && s != "middle" && s != "first" && !IsDigitString(s)
    requires |o.hidden| > 0
    ensures SelectOut(StrLayer(s), o) == Ok(o.hidden[0])
  {
  }

  /** An int `layer`, the default `11` among them, never selects anything. */
  lemma IntLayerRaises(n: int, o: Output)
    ensures SelectOut(IntLayer(n), o) == Err(NoIsDigit)
  {
  }

  // ---------------------------------------------------------------------------
  // The reduction
  // ---------------------------------------------------------------------------

  /** The reduction keywords tested before the numeric fallback. */
  predicate IsKeyword(reduction: string) {
    reduction == "mean" || reduction == "sum" || reduction == "bos" || reduction == "eos"
  }

  const Unsupported: Error := ValueError("Unsupported reduction option")
  const FloatIndex: Error := IndexError("only integers, slices, ellipsis, None and boolean tensors are valid indices")

  /** The rows the reduction computes from `out` of shape (b, t, w): the mean or sum over
      tokens, the first or last token, or the token `convert_to_number(reduction)`. */
  function ProGenReduce(x: Hidden, b: nat, t: nat, w: nat, reduction: string, parseFloat: string -> Option<real>): (r: Result<seq<Vec>>)
    requires Rect(x, b, t, w) && t > 0
    ensures r.Ok? ==> Block(r.value, b, w)
  {
    if reduction == "mean" then Ok(MeanRows(x, b, t, w))
    else if reduction == "sum" then Ok(SumRows(x, b, t, w))
    else if reduction == "bos" then Ok(TokenRows(x, b, t, w, 0))
    else if reduction == "eos" then Ok(TokenRows(x, b, t, w, t - 1))
    else
      match ConvertToNumber(reduction, parseFloat)
      case Some(IntNumber(k)) =>
        var u := PyIndex(k, t);
        if u.None? then Err(TokenOutOfRange) else Ok(TokenRows(x, b, t, w, u.value))
      case Some(FloatNumber(_)) => Err(FloatIndex)
      case None => Err(Unsupported)
  }

  /** A number written out by `str` picks that token, counted from the end when negative;
      `0` is the same as 'bos' and `-1` the same as 'eos'. */
  lemma {:induction false} NumericReduction(x: Hidden, b: nat, t: nat, w: nat, k: int, parseFloat: string -> Option<real>)
    requires Rect(x, b, t, w) && t > 0
    ensures PyIndex(k, t).Some? ==> ProGenReduce(x, b, t, w, IntToString(k), parseFloat) == Ok(TokenRows(x, b, t, w, PyIndex(k, t).value))
    ensures PyIndex(k, t).None? ==> ProGenReduce(x, b, t, w, IntToString(k), parseFloat) == Err(TokenOutOfRange)
    ensures k == 0 ==> ProGenReduce(x, b, t, w, IntToString(k), parseFloat) == ProGenReduce(x, b, t, w, "bos", parseFloat)
    ensures k == -1 ==> ProGenReduce(x, b, t, w, IntToString(k), parseFloat) == ProGenReduce(x, b, t, w, "eos", parseFloat)
  {
    var s := IntToString(k);
    ConvertToNumberOfIntToString(k, parseFloat);
    assert !IsKeyword(s) by {
      assert IsDigit(s[0]) || s[0] == '-';
    }
  }

  /** The reduction is rejected with a ValueError exactly when it is no keyword and
      `convert_to_number` gives None; every keyword and every number is accepted, up to
      the token index being in range and an int. */
  lemma ReductionRejected(x: Hidden, b: nat, t: nat, w: nat, reduction: string, parseFloat: string -> Option<real>)
    requires Rect(x, b, t, w) && t > 0
    ensures ProGenReduce(x, b, t, w, reduction, parseFloat) == Err(Unsupported) <==>
      !IsKeyword(reduction) && ConvertToNumber(reduction, parseFloat).None?
    ensures IsKeyword(reduction) ==> ProGenReduce(x, b, t, w, reduction, parseFloat).Ok?
  {
  }

  // ---------------------------------------------------------------------------
  // One batch
  // ---------------------------------------------------------------------------

  /** The shape (t, w) of `out` for a batch of `b` sequences, when it is a well-formed
      (b, t, w) tensor with at least one token. */
  function Shape(x: Hidden, b: nat): (s: Option<(nat, nat)>)
    ensures s.Some? <==> b > 0 && |x| == b && |x[0]| > 0 && Rect(x, b, |x[0]|, |x[0][0]|)
    ensures s.Some? ==> s.value.0 > 0 && Rect(x, b, s.value.0, s.value.1)
  {
    if b > 0 && |x| == b && |x[0]| > 0 && Rect(x, b, |x[0]|, |x[0][0]|) then Some((|x[0]|, |x[0][0]|)) else None
  }

  /** The arguments of one run: the encoded sequences, the batch size, the width `D` of
      the buffer, the layer and the reduction, the backbone `forward` and Python's float
      grammar `parseFloat`. */
  datatype Config = Config(encs: seq<seq<int>>, batch: nat, d: nat, layer: LayerSpec, reduction: string,
                           forward: seq<seq<int>> -> Output, parseFloat: string -> Option<real>)

  function Batches(cfg: Config): nat
    requires cfg.batch > 0
  {
    NumBatches(|cfg.encs|, cfg.batch)
  }

  /** What batch `q` writes into the buffer, or the exception it raises: the selected
      output, reduced, and then copied into rows of width `D`, which fails when the
      reduced rows are of another width (the logits, say). */
  function Outcome(cfg: Config, q: nat): (r: Result<seq<Vec>>)
    requires cfg.batch > 0 && q < Batches(cfg)
    ensures r.Ok? ==> Block(r.value, BatchLen(q, cfg.batch, |cfg.encs|), cfg.d)
  {
    var rows := Batch(cfg.encs, q, cfg.batch);
    var out := SelectOut(cfg.layer, cfg.forward(rows));
    if out.Err? then Err(out.error)
    else
      var shape := Shape(out.value, |rows|);
      if shape.None? then Err(ShapeMismatch)
      else
        var red := ProGenReduce(out.value, |rows|, shape.value.0, shape.value.1, cfg.reduction, cfg.parseFloat);
        if red.Err? then Err(red.error)
        else if shape.value.1 != cfg.d then Err(ShapeMismatch)
        else Ok(red.value)
  }

  /** With an int `layer` every non-empty run fails in its first batch. */
  lemma IntLayerFailsFirstBatch(cfg: Config)
    requires cfg.batch > 0 && |cfg.encs| > 0 && cfg.layer.IntLayer?
    ensures Batches(cfg) > 0 && Outcome(cfg, 0) == Err(NoIsDigit)
  {
  }

  /** An unsupported reduction fails the first batch with a ValueError, provided the
      layer selects a well-formed output. */
  lemma UnsupportedFailsFirstBatch(cfg: Config)
    requires cfg.batch > 0 && |cfg.encs| > 0
    requires !IsKeyword(cfg.reduction) && ConvertToNumber(cfg.reduction, cfg.parseFloat).None?
    requires
      var out := SelectOut(cfg.layer, cfg.forward(Batch(cfg.encs, 0, cfg.batch)));
      out.Ok? && Shape(out.value, BatchLen(0, cfg.batch, |cfg.encs|)).Some?
    ensures Batches(cfg) > 0 && Outcome(cfg, 0) == Err(Unsupported)
  {
    var rows := Batch(cfg.encs, 0, cfg.batch);
    var out := SelectOut(cfg.layer, cfg.forward(rows));
    var shape := Shape(out.value, |rows|);
    ReductionRejected(out.value, |rows|, shape.value.0, shape.value.1, cfg.reduction, cfg.parseFloat);
  }

  // ---------------------------------------------------------------------------
  // The batch loop
  // ---------------------------------------------------------------------------

  /** Every batch before `c` succeeds. */
  ghost predicate BatchesOk(cfg: Config, c: nat)
    requires cfg.batch > 0 && c <= Batches(cfg)
  {
    forall q :: 0 <= q < c ==> Outcome(cfg, q).Ok?
  }

  /** The buffer rows the first `c` batches write, concatenated in loader order. */
  ghost function Written(cfg: Config, c: nat): (rows: seq<Vec>)
    requires cfg.batch > 0 && c <= Batches(cfg) && BatchesOk(cfg, c)
    ensures |rows| == Filled(c, cfg.batch, |cfg.encs|)
  {
    if c == 0 then []
    else
      FilledAt(c - 1, cfg.batch, |cfg.encs|);
      Written(cfg, c - 1) + Outcome(cfg, c - 1).value
  }

  /** `embs[start : start + len(rows), :] = rows`: only those rows change. */
  method WriteRows(embs: array<Vec>, start: nat, rows: seq<Vec>)
    requires start + |rows| <= embs.Length
    modifies embs
    ensures forall r :: 0 <= r < |rows| ==> embs[start + r] == rows[r]
    ensures forall e :: 0 <= e < embs.Length && !(start <= e < start + |rows|) ==> embs[e] == old(embs[e])
  {
    var r := 0;
    while r < |rows|
      invariant 0 <= r <= |rows|
      invariant forall r' :: 0 <= r' < r ==> embs[start + r'] == rows[r']
      invariant forall e :: 0 <= e < embs.Length && !(start <= e < start + r) ==> embs[e] == old(embs[e])
    {
      embs[start + r] := rows[r];
      r := r + 1;
    }
  }

  /** One pass of the batch loop body for batch `q`, whose first row is the counter `i`. */
  method FillBatch(cfg: Config, i: nat, ghost q: nat, embs: array<Vec>) returns (failure: Option<Error>)
    requires cfg.batch > 0 && q < Batches(cfg) && i == BatchStart(q, cfg.batch) && embs.Length == |cfg.encs|
    modifies embs
    ensures failure.None? <==> Outcome(cfg, q).Ok?
    ensures failure.Some? ==> Outcome(cfg, q) == Err(failure.value)
    ensures Outcome(cfg, q).Ok? ==>
      forall r :: 0 <= r < BatchLen(q, cfg.batch, |cfg.encs|) ==> embs[i + r] == Outcome(cfg, q).value[r]
    ensures forall e :: 0 <= e < i ==> embs[e] == old(embs[e])
  {
    var n := |cfg.encs|;
    var end := if i + cfg.batch < n then i + cfg.batch else n;
    BatchesContiguous(q, cfg.batch, n);
    var batch := cfg.encs[i..end];
    assert batch == Batch(cfg.encs, q, cfg.batch);
    var output := cfg.forward(batch);
    var out: Hidden;
    if cfg.layer == StrLayer("logits") {
      out := output.logits;
    } else {
      var hiddenStates := output.hidden;
      var selected := LayerIndex(cfg.layer, |hiddenStates|);
      if selected.Err? {
        return Some(selected.error);
      }
      var p := PyIndex(selected.value, |hiddenStates|);
      if p.None? {
        return Some(LayerOutOfRange);
      }
      out := hiddenStates[p.value];
    }
    var shape := Shape(out, |batch|);
    if shape.None? {
      return Some(ShapeMismatch);
    }
    var rows := ProGenReduce(out, |batch|, shape.value.0, shape.value.1, cfg.reduction, cfg.parseFloat);
    if rows.Err? {
      return Some(rows.error);
    }
    if shape.value.1 != cfg.d {
      return Some(ShapeMismatch);
    }
    WriteRows(embs, i, rows.value);
    failure := None;
  }

  /** The buffer holds the rows of the first `c` batches, all of which succeeded. */
  ghost predicate Filling(cfg: Config, embs: array<Vec>, c: nat)
    requires cfg.batch > 0 && c <= Batches(cfg) && embs.Length == |cfg.encs|
    reads embs
  {
    && BatchesOk(cfg, c)
    && forall e :: 0 <= e < Filled(c, cfg.batch, |cfg.encs|) ==> embs[e] == Written(cfg, c)[e]
  }

  /** Once batch `q` has written its rows after those of the earlier batches, the buffer
      holds the first `q + 1` batches' rows. */
  lemma WrittenExtends(cfg: Config, embs: array<Vec>, q: nat)
    requires cfg.batch > 0 && q < Batches(cfg) && Outcome(cfg, q).Ok? && embs.Length == |cfg.encs|
    requires Filling(cfg, embs, q)
    requires forall r :: 0 <= r < BatchLen(q, cfg.batch, |cfg.encs|) ==> embs[BatchStart(q, cfg.batch) + r] == Outcome(cfg, q).value[r]
    ensures Filling(cfg, embs, q + 1)
  {
    var i := BatchStart(q, cfg.batch);
    FilledAt(q, cfg.batch, |cfg.encs|);
    assert BatchesOk(cfg, q + 1);
    forall e | 0 <= e < Filled(q + 1, cfg.batch, |cfg.encs|)
      ensures embs[e] == Written(cfg, q + 1)[e]
    {
      if e >= i {
        assert embs[i + (e - i)] == Outcome(cfg, q).value[e - i];
      }
    }
  }

  /** The state of the batch loop before batch `q`: the counter, the log, and a buffer
      holding the rows of every earlier batch. */
  ghost predicate Progress(cfg: Config, embs: array<Vec>, i: nat, q: nat, logged: seq<nat>)
    requires cfg.batch > 0 && embs.Length == |cfg.encs|
    reads embs
  {
    Counted(i, q, logged, cfg.batch, |cfg.encs|) && Filling(cfg, embs, q)
  }

  /** What the batch loop ends with: the counter logged after each batch that ran; an error
      exactly when some batch raised, the one of the first such batch; otherwise the whole
      buffer assembled from every batch. */
  ghost predicate Looped(cfg: Config, embs: array<Vec>, failure: Option<Error>, logged: seq<nat>)
    requires cfg.batch > 0 && embs.Length == |cfg.encs|
    reads embs
  {
    && (forall c :: 0 <= c < |logged| ==> logged[c] == BatchStart(c + 1, cfg.batch))
    && |logged| <= Batches(cfg) && BatchesOk(cfg, |logged|)
    && (failure.None? <==> BatchesOk(cfg, Batches(cfg)))
    && (failure.Some? ==> |logged| < Batches(cfg) && Outcome(cfg, |logged|) == Err(failure.value))
    && (failure.None? ==> |logged| == Batches(cfg) && embs[..] == Written(cfg, Batches(cfg)))
  }

  /** One pass of the batch loop with its bookkeeping. */
  method Advance(cfg: Config, embs: array<Vec>, i: nat, ghost q: nat, logged: seq<nat>) returns (failure: Option<Error>, i': nat, logged': seq<nat>)
    requires cfg.batch > 0 && i < |cfg.encs| && embs.Length == |cfg.encs|
    requires Progress(cfg, embs, i, q, logged)
    modifies embs
    ensures failure.Some? ==> Looped(cfg, embs, failure, logged) && logged' == logged
    ensures failure.None? ==> Progress(cfg, embs, i', q + 1, logged') && i' == i + cfg.batch
  {
    FilledAt(q, cfg.batch, |cfg.encs|);
    failure := FillBatch(cfg, i, q, embs);
    if failure.Some? {
      return failure, i, logged;
    }
    WrittenExtends(cfg, embs, q);
    CountedNext(i, q, logged, cfg.batch, |cfg.encs|);
    i' := i + cfg.batch;
    logged' := logged + [i'];
  }

  /** The loop condition failing means every batch ran and the buffer is complete. */
  lemma LoopDone(cfg: Config, embs: array<Vec>, i: nat, q: nat, logged: seq<nat>)
    requires cfg.batch > 0 && i >= |cfg.encs| && embs.Length == |cfg.encs|
    requires Progress(cfg, embs, i, q, logged)
    ensures Looped(cfg, embs, None, logged)
  {
    FilledAt(q, cfg.batch, |cfg.encs|);
    assert forall e :: 0 <= e < |cfg.encs| ==> embs[..][e] == Written(cfg, q)[e];
  }

  /** The batch loop over `DataLoader(encs, batch_size)`. */
  method FillAll(cfg: Config, embs: array<Vec>) returns (failure: Option<Error>, logged: seq<nat>)
    requires cfg.batch > 0 && embs.Length == |cfg.encs|
    modifies embs
    ensures Looped(cfg, embs, failure, logged)
  {
    logged := [];
    var i := 0;
    ghost var q := 0;
    while i < |cfg.encs|
      invariant Progress(cfg, embs, i, q, logged)
      decreases |cfg.encs| - i
    {
      failure, i, logged := Advance(cfg, embs, i, q, logged);
      if failure.Some? {
        return;
      }
      q := q + 1;
    }
    LoopDone(cfg, embs, i, q, logged);
    failure := None;
  }

  /** What a run with a positive batch size ends with: the counter logged after each batch
      that ran; an error exactly when some batch raised, the one of the first such batch;
      otherwise one file named after the layer and the reduction, holding every batch's
      rows in loader order. */
  ghost predicate Extracted(cfg: Config, dataType: string, name: string, r: Result<SavedFile>, logged: seq<nat>)
    requires cfg.batch > 0
  {
    && (forall c :: 0 <= c < |logged| ==> logged[c] == BatchStart(c + 1, cfg.batch))
    && |logged| <= Batches(cfg) && BatchesOk(cfg, |logged|)
    && (r.Ok? <==> BatchesOk(cfg, Batches(cfg)))
    && (r.Err? ==> |logged| < Batches(cfg) && Outcome(cfg, |logged|) == Err(r.error))
    && (r.Ok? ==> |logged| == Batches(cfg))
    && (r.Ok? ==> r.value == SavedFile(FileName(dataType, name, LayerText(cfg.layer), cfg.reduction), Written(cfg, Batches(cfg))))
  }

  /** `extract_embeddings(data_type, batch_size, layer, reduction)` of the ProGen model
      `name` on the encoded sequences `encs`: the saved file or the exception, and the
      counter values logged after each batch. */
  method ExtractEmbeddings(dataType: string, name: string, encs: seq<seq<int>>, batchSize: int, layer: LayerSpec, reduction: string,
                           d: nat, forward: seq<seq<int>> -> Output, parseFloat: string -> Option<real>)
    returns (r: Result<SavedFile>, logged: seq<nat>)
    ensures batchSize <= 0 ==> r == Err(ValueError("batch_size should be a positive integer value")) && logged == []
    ensures forall c :: 0 <= c < |logged| ==> logged[c] == (c + 1) * batchSize
    ensures batchSize > 0 ==> Extracted(Config(encs, batchSize as nat, d, layer, reduction, forward, parseFloat), dataType, name, r, logged)
  {
    var checked := CheckBatchSize(batchSize);
    if checked.Err? {
      return Err(checked.error), [];
    }
    var cfg := Config(encs, checked.value, d, layer, reduction, forward, parseFloat);
    var embs := new Vec[|encs|](_ => Zeros(d));
    var failure;
    failure, logged := FillAll(cfg, embs);
    forall c | 0 <= c < |logged| ensures logged[c] == (c + 1) * batchSize {
      StartIsProduct(c + 1, cfg.batch);
    }
    if failure.Some? {
      return Err(failure.value), logged;
    }
    r := Ok(SavedFile(FileName(dataType, name, LayerText(layer), reduction), embs[..]));
  }
}
