/**
 * plmfit/models/pretrained_models.py, the loops of `ESMFamily.extract_embeddings` and
 * `AnkhFamily.extract_embeddings`: a zero buffer `embs` of shape
 * len(layer) × len(reduction) × N × D, filled batch by batch with the row counter `i`,
 * then saved slot by slot. Each step is proved to compute what the functions of
 * `FanOut` specify.
 */
module Extraction {
  import opened Results
  import opened PyText
  import opened Tensors
  import opened Batching
  import opened FanOut
  import opened EmbeddingFiles
  import Utils
  import LanguageModels

  /** `embs[j, k]` as a sequence of rows. */
  function SlotRows(embs: array3<Vec>, j: nat, k: nat): (rows: seq<Vec>)
    requires j < embs.Length0 && k < embs.Length1
    reads embs
    ensures |rows| == embs.Length2 && forall e :: 0 <= e < |rows| ==> rows[e] == embs[j, k, e]
  {
    seq(embs.Length2, e requires 0 <= e < embs.Length2 reads embs => embs[j, k, e])
  }

  /** The `mut_mean` branch on the tensor `x = out[lay]` with resolved positions `qs`:
      the loop over `mut_pos[1:]` adds each token into token `qs[0]` of every sequence,
      then that token is divided by `len(mut_pos)`. */
  method ApplyMutMean(x: Hidden, b: nat, t: nat, d: nat, qs: seq<nat>) returns (rows: seq<Vec>, y: Hidden)
    requires Rect(x, b, t, d) && |qs| > 0 && forall i :: 0 <= i < |qs| ==> qs[i] < t
    ensures (rows, y) == MutMean(x, b, t, d, qs)
  {
    var f := qs[0];
    y := x;
    var i := 1;
    while i < |qs|
      invariant 1 <= i <= |qs|
      invariant |y| == b && forall row :: 0 <= row < b ==> y[row] == MutFold(x[row], f, qs[1..i], d)
    {
      var p := qs[i];
      var y0 := y;
      y := seq(b, row requires 0 <= row < b => y0[row][f := Add(y0[row][f], y0[row][p])]);
      forall row | 0 <= row < b
        ensures y[row] == MutFold(x[row], f, qs[1..i + 1], d)
      {
        assert qs[1..i + 1][..i - 1] == qs[1..i];
      }
      i := i + 1;
    }
    assert qs[1..i] == qs[1..];
    assert y == MutMean(x, b, t, d, qs).1;
    rows := seq(b, row requires 0 <= row < b => DivBy(y[row][f], |qs|));
  }

  /** One pass of the inner loop body. Only the `mut_mean` branch, which changes the
      stack, runs here as a loop; every other reduction keyword reads the stack and is
      the value `FanStep` gives. */
  method Reduce(family: Family, out: seq<Hidden>, b: nat, t: nat, d: nat, lay: int, reduction: string, mutPos: Option<seq<int>>) returns (r: Result<Step>)
    requires Stack(out, b, t, d)
    ensures r == FanStep(family, out, b, t, d, lay, reduction, mutPos)
  {
    if reduction != "mut_mean" {
      return FanStep(family, out, b, t, d, lay, reduction, mutPos);
    }
    assert "mut_mean"[..3][0] != "pos"[0];
    if mutPos.None? {
      return Err(TypeError("object of type 'NoneType' has no len()"));
    }
    if mutPos.value == [] {
      return Err(IndexError("list index out of range"));
    }
    var li := PyIndex(lay, |out|);
    if li.None? {
      return Err(LayerOutOfRange);
    }
    var qs := ResolvePositions(mutPos.value, t);
    if qs.None? {
      return Err(TokenOutOfRange);
    }
    var rows, y := ApplyMutMean(out[li.value], b, t, d, qs.value);
    r := Ok(Step(rows, out[li.value := y]));
  }

  /** `embs[j, k, start : start + len(rows), :] = rows`: only those cells change. */
  method WriteSlot(embs: array3<Vec>, j: nat, k: nat, start: nat, rows: seq<Vec>)
    requires j < embs.Length0 && k < embs.Length1 && start + |rows| <= embs.Length2
    modifies embs
    ensures forall r :: 0 <= r < |rows| ==> embs[j, k, start + r] == rows[r]
    ensures forall a, c, e ::
      (0 <= a < embs.Length0 && 0 <= c < embs.Length1 && 0 <= e < embs.Length2 && !(a == j && c == k && start <= e < start + |rows|))
      ==> embs[a, c, e] == old(embs[a, c, e])
  {
    var r := 0;
    while r < |rows|
      invariant 0 <= r <= |rows|
      invariant forall r' :: 0 <= r' < r ==> embs[j, k, start + r'] == rows[r']
      invariant forall a, c, e ::
        (0 <= a < embs.Length0 && 0 <= c < embs.Length1 && 0 <= e < embs.Length2 && !(a == j && c == k && start <= e < start + r))
        ==> embs[a, c, e] == old(embs[a, c, e])
    {
      embs[j, k, start + r] := rows[r];
      r := r + 1;
    }
  }

  /** The loop over `reduction` for the layer `lay` of one batch, from the stack `out0`:
      the rows of every reduction in order, and the stack as the reductions left it. */
  method ReduceLayer(family: Family, out0: seq<Hidden>, b: nat, t: nat, d: nat, lay: int, reductions: seq<string>, mutPos: Option<seq<int>>)
    returns (r: Result<(seq<seq<Vec>>, seq<Hidden>)>)
    requires Stack(out0, b, t, d)
    ensures r == LayerFan(family, out0, b, t, d, lay, reductions, mutPos, |reductions|)
  {
    var out := out0;
    var done := [];
    var k := 0;
    while k < |reductions|
      invariant 0 <= k <= |reductions|
      invariant LayerFan(family, out0, b, t, d, lay, reductions, mutPos, k) == Ok((done, out))
    {
      LayerFanNext(family, out0, b, t, d, lay, reductions, mutPos, k, done, out);
      var step := Reduce(family, out, b, t, d, lay, reductions[k], mutPos);
      if step.Err? {
        LayerFanErr(family, out0, b, t, d, lay, reductions, mutPos, k + 1, |reductions|);
        return Err(step.error);
      }
      done := done + [step.value.rows];
      out := step.value.stack;
      k := k + 1;
    }
    return Ok((done, out));
  }

  /** The loops over `layer` and `reduction` for one batch whose hidden-state stack is
      `out0`: the rows of every (layer, reduction) slot, or the first exception. */
  method ReduceBatch(family: Family, out0: seq<Hidden>, b: nat, t: nat, d: nat, layers: seq<int>, reductions: seq<string>, mutPos: Option<seq<int>>)
    returns (r: Result<(seq<seq<seq<Vec>>>, seq<Hidden>)>)
    requires Stack(out0, b, t, d)
    ensures r == Fan(family, out0, b, t, d, layers, reductions, mutPos, |layers|)
  {
    var out := out0;
    var done := [];
    var j := 0;
    while j < |layers|
      invariant 0 <= j <= |layers|
      invariant Fan(family, out0, b, t, d, layers, reductions, mutPos, j) == Ok((done, out))
    {
      var next := ReduceLayer(family, out, b, t, d, layers[j], reductions, mutPos);
      FanAdvance(family, out0, b, t, d, layers, reductions, mutPos, j, done, out, next);
      if next.Err? {
        return Err(next.error);
      }
      done := done + [next.value.0];
      out := next.value.1;
      j := j + 1;
    }
    return Ok((done, out));
  }

  /** `embs[j, k, start : start + b] = block[j][k]` for every slot: only those rows change. */
  method WriteBlock(embs: array3<Vec>, start: nat, block: seq<seq<seq<Vec>>>, b: nat)
    requires |block| == embs.Length0 && start + b <= embs.Length2
    requires forall j :: 0 <= j < |block| ==> |block[j]| == embs.Length1 && forall k :: 0 <= k < embs.Length1 ==> |block[j][k]| == b
    modifies embs
    ensures forall j, k, r :: 0 <= j < embs.Length0 && 0 <= k < embs.Length1 && 0 <= r < b ==> embs[j, k, start + r] == block[j][k][r]
    ensures forall a, c, e ::
      (0 <= a < embs.Length0 && 0 <= c < embs.Length1 && 0 <= e < embs.Length2 && !(start <= e < start + b))
      ==> embs[a, c, e] == old(embs[a, c, e])
  {
    var j := 0;
    while j < embs.Length0
      invariant 0 <= j <= embs.Length0
      invariant forall j', k, r :: 0 <= j' < j && 0 <= k < embs.Length1 && 0 <= r < b ==> embs[j', k, start + r] == block[j'][k][r]
      invariant forall a, c, e ::
        (0 <= a < embs.Length0 && 0 <= c < embs.Length1 && 0 <= e < embs.Length2 && !(start <= e < start + b))
        ==> embs[a, c, e] == old(embs[a, c, e])
    {
      var k := 0;
      while k < embs.Length1
        invariant 0 <= k <= embs.Length1
        invariant forall j', k', r :: 0 <= j' < j && 0 <= k' < embs.Length1 && 0 <= r < b ==> embs[j', k', start + r] == block[j'][k'][r]
        invariant forall k', r :: 0 <= k' < k && 0 <= r < b ==> embs[j, k', start + r] == block[j][k'][r]
        invariant forall a, c, e ::
          (0 <= a < embs.Length0 && 0 <= c < embs.Length1 && 0 <= e < embs.Length2 && !(start <= e < start + b))
          ==> embs[a, c, e] == old(embs[a, c, e])
      {
        WriteSlot(embs, j, k, start, block[j][k]);
        k := k + 1;
      }
      j := j + 1;
    }
  }

  /** The arguments of one extraction run, with the backbone `forward` that maps a batch
      to its hidden-state stack and the width `d` of its hidden vectors. */
  datatype Config = Config(family: Family, encs: seq<seq<int>>, batch: nat, d: nat, layers: seq<int>, reductions: seq<string>,
                           mutPos: Option<seq<int>>, forward: seq<seq<int>> -> seq<Hidden>)

  /** The number of batches the loader yields for `cfg`. */
  function Batches(cfg: Config): nat
    requires cfg.batch > 0
  {
    NumBatches(|cfg.encs|, cfg.batch)
  }

  /** What batch `q` of the loader computes: the reduced rows of every slot, or the
      exception its forward pass and reductions raise. */
  function Outcome(cfg: Config, q: nat): (r: Result<seq<seq<seq<Vec>>>>)
    requires cfg.batch > 0 && q < Batches(cfg)
    ensures r.Ok? ==> Blocks(r.value, |cfg.layers|, |cfg.reductions|, BatchLen(q, cfg.batch, |cfg.encs|), cfg.d)
  {
    BatchResult(cfg.family, cfg.encs, cfg.batch, cfg.d, cfg.layers, cfg.reductions, cfg.mutPos, cfg.forward, q)
  }

  /** Every batch before `c` succeeds. */
  ghost predicate BatchesOk(cfg: Config, c: nat)
    requires cfg.batch > 0 && c <= Batches(cfg)
  {
    forall q :: 0 <= q < c ==> Outcome(cfg, q).Ok?
  }

  /** Slot [j][k] of the buffer as the first `c` batches leave it: the rows each of them
      computed for the slot, concatenated in loader order. */
  ghost function Slot(cfg: Config, j: nat, k: nat, c: nat): (rows: seq<Vec>)
    requires cfg.batch > 0 && j < |cfg.layers| && k < |cfg.reductions| && c <= Batches(cfg) && BatchesOk(cfg, c)
    ensures |rows| == Filled(c, cfg.batch, |cfg.encs|)
  {
    if c == 0 then []
    else
      FilledAt(c - 1, cfg.batch, |cfg.encs|);
      Slot(cfg, j, k, c - 1) + Outcome(cfg, c - 1).value[j][k]
  }

  /** The files the save loop writes, grouped by layer: `files[j][k]` is
      `torch.save(embs[j, k], ...)` under the name of `layer[j]` and `reduction[k]`. */
  function SavedFiles(embs: array3<Vec>, dataType: string, version: string, layers: seq<int>, reductions: seq<string>): (files: seq<seq<SavedFile>>)
    requires embs.Length0 == |layers| && embs.Length1 == |reductions|
    reads embs
  {
    seq(|layers|, j requires 0 <= j < |layers| reads embs =>
      seq(|reductions|, k requires 0 <= k < |reductions| reads embs =>
        SavedFile(FileName(dataType, version, IntToString(layers[j]), reductions[k]), SlotRows(embs, j, k))))
  }

  /** The save loop: `torch.save(embs[j, k], ...)` for every layer `j` and, inside, every
      reduction `k`. */
  method Save(embs: array3<Vec>, dataType: string, version: string, layers: seq<int>, reductions: seq<string>) returns (saved: seq<seq<SavedFile>>)
    requires embs.Length0 == |layers| && embs.Length1 == |reductions|
    ensures saved == SavedFiles(embs, dataType, version, layers, reductions)
  {
    ghost var all := SavedFiles(embs, dataType, version, layers, reductions);
    saved := [];
    var j := 0;
    while j < |layers|
      invariant 0 <= j <= |layers|
      invariant saved == all[..j]
    {
      var files := [];
      var k := 0;
      while k < |reductions|
        invariant 0 <= k <= |reductions|
        invariant files == all[j][..k]
      {
        files := files + [SavedFile(FileName(dataType, version, IntToString(layers[j]), reductions[k]), SlotRows(embs, j, k))];
        k := k + 1;
      }
      assert files == all[j];
      assert all[..j + 1] == all[..j] + [files];
      saved := saved + [files];
      j := j + 1;
    }
  }

  /** The files in the order they are written: layer by layer. */
  function Flatten(files: seq<seq<SavedFile>>): (flat: seq<SavedFile>)
  {
    if files == [] then [] else Flatten(files[..|files| - 1]) + files[|files| - 1]
  }

  /** Files named after `layer[j]` and `reduction[k]`, written layer by layer, are written
      under the names `SaveNames` lists, in that order. */
  lemma {:induction false} SaveOrder(files: seq<seq<SavedFile>>, dataType: string, version: string, layers: seq<int>, reductions: seq<string>)
    requires |files| == |layers|
    requires forall j :: 0 <= j < |files| ==> |files[j]| == |reductions|
    requires forall j, k :: 0 <= j < |files| && 0 <= k < |reductions| ==>
      files[j][k].name == FileName(dataType, version, IntToString(layers[j]), reductions[k])
    ensures |Flatten(files)| == |SaveNames(dataType, version, layers, reductions)|
    ensures forall i :: 0 <= i < |Flatten(files)| ==> Flatten(files)[i].name == SaveNames(dataType, version, layers, reductions)[i]
  {
    if files != [] {
      var m := |files| - 1;
      SaveOrder(files[..m], dataType, version, layers[..m], reductions);
      var front := Flatten(files[..m]);
      var names := SaveNames(dataType, version, layers[..m], reductions);
      forall i | 0 <= i < |Flatten(files)|
        ensures Flatten(files)[i].name == SaveNames(dataType, version, layers, reductions)[i]
      {
        if i >= |front| {
          assert Flatten(files)[i] == files[m][i - |front|];
        }
      }
    }
  }

  /** One pass of the batch loop: run the backbone on batch `q`, whose first row is the
      counter `i`, and reduce its hidden states into rows `[i, i + len(batch))` of every
      slot. */
  method FillBatch(cfg: Config, i: nat, ghost q: nat, embs: array3<Vec>) returns (failure: Option<Error>)
    requires cfg.batch > 0 && q < Batches(cfg) && i == BatchStart(q, cfg.batch)
    requires embs.Length0 == |cfg.layers| && embs.Length1 == |cfg.reductions| && embs.Length2 == |cfg.encs|
    modifies embs
    ensures failure.None? <==> Outcome(cfg, q).Ok?
    ensures failure.Some? ==> Outcome(cfg, q) == Err(failure.value)
    ensures Outcome(cfg, q).Ok? ==>
      forall j, k, r :: 0 <= j < |cfg.layers| && 0 <= k < |cfg.reductions| && 0 <= r < BatchEnd(q, cfg.batch, |cfg.encs|) - i ==>
        embs[j, k, i + r] == Outcome(cfg, q).value[j][k][r]
    ensures forall a, c, e :: 0 <= a < embs.Length0 && 0 <= c < embs.Length1 && 0 <= e < i ==> embs[a, c, e] == old(embs[a, c, e])
  {
    var n := |cfg.encs|;
    var end := if i + cfg.batch < n then i + cfg.batch else n;
    BatchesContiguous(q, cfg.batch, n);
    var rows := cfg.encs[i..end];
    assert rows == Batch(cfg.encs, q, cfg.batch);
    var out := cfg.forward(rows);
    var t := StackTokens(out, |rows|, cfg.d);
    if t.None? {
      return Some(ShapeMismatch);
    }
    var fan := ReduceBatch(cfg.family, out, |rows|, t.value, cfg.d, cfg.layers, cfg.reductions, cfg.mutPos);
    if fan.Err? {
      return Some(fan.error);
    }
    WriteBlock(embs, i, fan.value.0, |rows|);
    failure := None;
  }

  /** The buffer holds, in every slot, the rows of the first `c` batches, all of which
      succeeded. */
  ghost predicate Filling(cfg: Config, embs: array3<Vec>, c: nat)
    requires cfg.batch > 0 && c <= Batches(cfg)
    requires embs.Length0 == |cfg.layers| && embs.Length1 == |cfg.reductions| && embs.Length2 == |cfg.encs|
    reads embs
  {
    && BatchesOk(cfg, c)
    && forall j, k, e :: 0 <= j < |cfg.layers| && 0 <= k < |cfg.reductions| && 0 <= e < Filled(c, cfg.batch, |cfg.encs|) ==>
      embs[j, k, e] == Slot(cfg, j, k, c)[e]
  }

  /** Once batch `q` has written its rows after the rows of the earlier batches, the
      buffer holds the first `q + 1` batches' rows of every slot. */
  lemma SlotExtends(cfg: Config, embs: array3<Vec>, q: nat)
    requires cfg.batch > 0 && q < Batches(cfg) && Outcome(cfg, q).Ok?
    requires embs.Length0 == |cfg.layers| && embs.Length1 == |cfg.reductions| && embs.Length2 == |cfg.encs|
    requires Filling(cfg, embs, q)
    requires forall j, k, r :: 0 <= j < |cfg.layers| && 0 <= k < |cfg.reductions| && 0 <= r < BatchEnd(q, cfg.batch, |cfg.encs|) - BatchStart(q, cfg.batch) ==>
      embs[j, k, BatchStart(q, cfg.batch) + r] == Outcome(cfg, q).value[j][k][r]
    ensures Filling(cfg, embs, q + 1)
  {
    var i := BatchStart(q, cfg.batch);
    FilledAt(q, cfg.batch, |cfg.encs|);
    assert BatchesOk(cfg, q + 1);
    forall j, k, e | 0 <= j < |cfg.layers| && 0 <= k < |cfg.reductions| && 0 <= e < Filled(q + 1, cfg.batch, |cfg.encs|)
      ensures embs[j, k, e] == Slot(cfg, j, k, q + 1)[e]
    {
      if e >= i {
        assert embs[j, k, i + (e - i)] == Outcome(cfg, q).value[j][k][e - i];
      }
    }
  }

  /** One pass of the batch loop, from a buffer holding the rows of the earlier batches:
      afterwards it holds this batch's rows too, unless the batch raised. */
  method NextBatch(cfg: Config, i: nat, ghost q: nat, embs: array3<Vec>) returns (failure: Option<Error>)
    requires cfg.batch > 0 && q < Batches(cfg) && i == BatchStart(q, cfg.batch)
    requires embs.Length0 == |cfg.layers| && embs.Length1 == |cfg.reductions| && embs.Length2 == |cfg.encs|
    requires Filling(cfg, embs, q)
    modifies embs
    ensures failure.None? <==> Outcome(cfg, q).Ok?
    ensures failure.Some? ==> Outcome(cfg, q) == Err(failure.value)
    ensures failure.None? ==> Filling(cfg, embs, q + 1)
  {
    FilledAt(q, cfg.batch, |cfg.encs|);
    failure := FillBatch(cfg, i, q, embs);
    if failure.None? {
      SlotExtends(cfg, embs, q);
    }
  }

  /** The state of the batch loop before batch `q`: the counter and the log, and a buffer
      holding the rows of every earlier batch. */
  ghost predicate Progress(cfg: Config, embs: array3<Vec>, i: nat, q: nat, logged: seq<nat>)
    requires cfg.batch > 0
    requires embs.Length0 == |cfg.layers| && embs.Length1 == |cfg.reductions| && embs.Length2 == |cfg.encs|
    reads embs
  {
    Counted(i, q, logged, cfg.batch, |cfg.encs|) && Filling(cfg, embs, q)
  }

  /** What the batch loop ends with: the counter logged after each batch that ran; an
      error exactly when some batch raised, the one of the first such batch, which is where
      the loop stopped; otherwise every slot of the buffer assembled from every batch. */
  ghost predicate Looped(cfg: Config, embs: array3<Vec>, failure: Option<Error>, logged: seq<nat>)
    requires cfg.batch > 0
    requires embs.Length0 == |cfg.layers| && embs.Length1 == |cfg.reductions| && embs.Length2 == |cfg.encs|
    reads embs
  {
    && (forall c :: 0 <= c < |logged| ==> logged[c] == BatchStart(c + 1, cfg.batch))
    && |logged| <= Batches(cfg) && BatchesOk(cfg, |logged|)
    && (failure.None? <==> BatchesOk(cfg, Batches(cfg)))
    && (failure.Some? ==> |logged| < Batches(cfg) && Outcome(cfg, |logged|) == Err(failure.value))
    && (failure.None? ==> |logged| == Batches(cfg))
    && (failure.None? ==> forall j, k :: 0 <= j < |cfg.layers| && 0 <= k < |cfg.reductions| ==> SlotRows(embs, j, k) == Slot(cfg, j, k, Batches(cfg)))
  }

  /** One pass of the batch loop with its bookkeeping: unless the batch raises, the counter
      advances by `batch_size` and is logged, and the buffer holds this batch's rows too. */
  method Advance(cfg: Config, embs: array3<Vec>, i: nat, ghost q: nat, logged: seq<nat>) returns (failure: Option<Error>, i': nat, logged': seq<nat>)
    requires cfg.batch > 0 && i < |cfg.encs|
    requires embs.Length0 == |cfg.layers| && embs.Length1 == |cfg.reductions| && embs.Length2 == |cfg.encs|
    requires Progress(cfg, embs, i, q, logged)
    modifies embs
    ensures failure.Some? ==> Looped(cfg, embs, failure, logged) && logged' == logged
    ensures failure.None? ==> Progress(cfg, embs, i', q + 1, logged') && i' == i + cfg.batch
  {
    failure := NextBatch(cfg, i, q, embs);
    if failure.Some? {
      return failure, i, logged;
    }
    CountedNext(i, q, logged, cfg.batch, |cfg.encs|);
    i' := i + cfg.batch;
    logged' := logged + [i'];
  }

  /** The loop condition failing means every batch ran. */
  lemma LoopDone(cfg: Config, embs: array3<Vec>, i: nat, q: nat, logged: seq<nat>)
    requires cfg.batch > 0 && i >= |cfg.encs|
    requires embs.Length0 == |cfg.layers| && embs.Length1 == |cfg.reductions| && embs.Length2 == |cfg.encs|
    requires Progress(cfg, embs, i, q, logged)
    ensures Looped(cfg, embs, None, logged)
  {
    AllFilled(cfg, embs, q);
  }

  /** Once every batch has written its rows, every slot is complete. */
  lemma AllFilled(cfg: Config, embs: array3<Vec>, q: nat)
    requires cfg.batch > 0 && q == Batches(cfg)
    requires embs.Length0 == |cfg.layers| && embs.Length1 == |cfg.reductions| && embs.Length2 == |cfg.encs|
    requires Filling(cfg, embs, q)
    ensures BatchesOk(cfg, q)
    ensures forall j, k :: 0 <= j < |cfg.layers| && 0 <= k < |cfg.reductions| ==> SlotRows(embs, j, k) == Slot(cfg, j, k, q)
  {
    FilledAt(q, cfg.batch, |cfg.encs|);
    forall j, k | 0 <= j < |cfg.layers| && 0 <= k < |cfg.reductions|
      ensures SlotRows(embs, j, k) == Slot(cfg, j, k, q)
    {
      assert forall e :: 0 <= e < |cfg.encs| ==> SlotRows(embs, j, k)[e] == Slot(cfg, j, k, q)[e];
    }
  }

  /** The batch loop over `DataLoader(encs, batch_size)`, from a buffer of zeros: the
      counter `i` advances by `batch_size` after every batch and is logged. It stops at the
      first batch that raises. */
  method FillAll(cfg: Config, embs: array3<Vec>) returns (failure: Option<Error>, logged: seq<nat>)
    requires cfg.batch > 0
    requires embs.Length0 == |cfg.layers| && embs.Length1 == |cfg.reductions| && embs.Length2 == |cfg.encs|
    modifies embs
    ensures Looped(cfg, embs, failure, logged)
  {
    logged := [];
    var i := 0;
    ghost var q := 0;
    while i < |cfg.encs|
      invariant Progress(cfg, embs, i, q, logged)
      decreases |cfg.encs| - i
    {
      failure, i, logged := Advance(cfg, embs, i, q, logged);
      if failure.Some? {
        return;
      }
      q := q + 1;
    }
    LoopDone(cfg, embs, i, q, logged);
    failure := None;
  }

  /** The run's arguments once `batch_size` is known to be positive: a scalar `layer`
      or `reduction` wrapped into a list. */
  function Setup(family: Family, encs: seq<seq<int>>, batchSize: int, layer: LayerArg, reduction: ReductionArg, mutPos: Option<seq<int>>, d: nat, forward: seq<seq<int>> -> seq<Hidden>): Config
    requires batchSize > 0
  {
    Config(family, encs, batchSize, d, Layers(layer), Reductions(reduction), mutPos, forward)
  }

  /** What a run with a positive batch size ends with: the counter logged after each
      batch that ran; an error exactly when some batch raised, the one of the first such
      batch, which is where the loop stopped; otherwise one file per (layer, reduction),
      layer-major, under the names `SaveNames` gives, whose rows are slot [j][k] assembled
      from every batch. */
  ghost predicate Extracted(cfg: Config, dataType: string, version: string, r: Result<seq<seq<SavedFile>>>, logged: seq<nat>)
    requires cfg.batch > 0
  {
    && (forall c :: 0 <= c < |logged| ==> logged[c] == BatchStart(c + 1, cfg.batch))
    && |logged| <= Batches(cfg) && BatchesOk(cfg, |logged|)
    && (r.Ok? <==> BatchesOk(cfg, Batches(cfg)))
    && (r.Err? ==> |logged| < Batches(cfg) && Outcome(cfg, |logged|) == Err(r.error))
    && (r.Ok? ==> |logged| == Batches(cfg) && |r.value| == |cfg.layers|)
    && (r.Ok? ==> forall j :: 0 <= j < |cfg.layers| ==> |r.value[j]| == |cfg.reductions|)
    && (r.Ok? ==> forall j, k :: 0 <= j < |cfg.layers| && 0 <= k < |cfg.reductions| ==>
      && r.value[j][k].name == FileName(dataType, version, IntToString(cfg.layers[j]), cfg.reductions[k])
      && r.value[j][k].rows == Slot(cfg, j, k, Batches(cfg)))
  }

  /** The batch loop and the save loop of one run. */
  method Run(cfg: Config, dataType: string, version: string) returns (r: Result<seq<seq<SavedFile>>>, logged: seq<nat>)
    requires cfg.batch > 0
    ensures Extracted(cfg, dataType, version, r, logged)
  {
    var embs := new Vec[|cfg.layers|, |cfg.reductions|, |cfg.encs|]((_, _, _) => Zeros(cfg.d));
    var failure;
    failure, logged := FillAll(cfg, embs);
    if failure.Some? {
      return Err(failure.value), logged;
    }
    var saved := Save(embs, dataType, version, cfg.layers, cfg.reductions);
    return Ok(saved), logged;
  }

  /** `extract_embeddings(data_type, batch_size, layer, reduction, mut_pos)` of the ESM or
      Ankh family `family` named `version` (for Ankh, the run once `py_model` holds the
      encoder stack, see `AnkhExtractEmbeddings`), on the encoded sequences `encs`, with the
      backbone `forward` returning a batch's hidden-state stack and `d` the width of its
      hidden vectors. Returns the saved files, or the exception, and the counter values the
      loop logs after each batch. */
  method ExtractEmbeddings(family: Family, dataType: string, version: string, encs: seq<seq<int>>, batchSize: int, layer: LayerArg, reduction: ReductionArg, mutPos: Option<seq<int>>, d: nat, forward: seq<seq<int>> -> seq<Hidden>)
    returns (r: Result<seq<seq<SavedFile>>>, logged: seq<nat>)
    ensures batchSize <= 0 ==> r == Err(ValueError("batch_size should be a positive integer value")) && logged == []
    ensures forall c :: 0 <= c < |logged| ==> logged[c] == (c + 1) * batchSize
    ensures batchSize > 0 ==> Extracted(Setup(family, encs, batchSize, layer, reduction, mutPos, d, forward), dataType, version, r, logged)
  {
    var checked := CheckBatchSize(batchSize);
    if checked.Err? {
      return Err(checked.error), [];
    }
    r, logged := Run(Setup(family, encs, batchSize, layer, reduction, mutPos, d, forward), dataType, version);
    forall c | 0 <= c < |logged| ensures logged[c] == (c + 1) * batchSize {
      StartIsProduct(c + 1, batchSize);
    }
  }

  /** `AnkhFamily.extract_embeddings` on the model object `m`. The data loader checks the
      batch size; then `self.py_model = self.py_model.encoder` reads the `encoder`
      attribute of whatever `py_model` holds and keeps the encoder stack for good; then the
      batches run. The stack has no `encoder` attribute, so the swap fails on every later
      call. */
  method AnkhExtractEmbeddings(m: LanguageModels.LanguageModel, dataType: string, version: string, encs: seq<seq<int>>, batchSize: int, layer: LayerArg, reduction: ReductionArg, mutPos: Option<seq<int>>, d: nat, forward: seq<seq<int>> -> seq<Hidden>)
    returns (r: Result<seq<seq<SavedFile>>>, logged: seq<nat>)
    requires m.family == LanguageModels.AnkhModel
    modifies m
    ensures m.head == old(m.head) && m.headName == old(m.headName) && m.noParameters == old(m.noParameters)
    ensures m.counted == old(m.counted)
    ensures batchSize <= 0 ==> r == Err(ValueError("batch_size should be a positive integer value")) && logged == [] && m.pyModel == old(m.pyModel)
    ensures batchSize > 0 ==> m.pyModel == LanguageModels.EncoderStack
    ensures batchSize > 0 && old(m.pyModel) == LanguageModels.EncoderStack ==> r == Err(AttributeError("encoder")) && logged == []
    ensures batchSize > 0 && old(m.pyModel) == LanguageModels.WholeModel ==>
      Extracted(Setup(Ankh, encs, batchSize, layer, reduction, mutPos, d, forward), dataType, version, r, logged)
  {
    var checked := CheckBatchSize(batchSize);
    if checked.Err? {
      return Err(checked.error), [];
    }
    if m.pyModel == LanguageModels.EncoderStack {
      return Err(AttributeError("encoder")), [];
    }
    m.pyModel := LanguageModels.EncoderStack;
    r, logged := ExtractEmbeddings(Ankh, dataType, version, encs, batchSize, layer, reduction, mutPos, d, forward);
  }

  /** Extracting twice from one freshly loaded Ankh model: the first call runs, the second
      fails with an AttributeError before any batch, whatever its arguments. */
  method AnkhExtractTwice(backbone: seq<Utils.Parameter>, dataType: string, version: string, encs: seq<seq<int>>, batchSize: int, layer: LayerArg, reduction: ReductionArg, mutPos: Option<seq<int>>, d: nat, forward: seq<seq<int>> -> seq<Hidden>,
                          layer2: LayerArg, reduction2: ReductionArg)
    returns (first: Result<seq<seq<SavedFile>>>, second: Result<seq<seq<SavedFile>>>)
    ensures batchSize > 0 ==> exists logged :: Extracted(Setup(Ankh, encs, batchSize, layer, reduction, mutPos, d, forward), dataType, version, first, logged)
    ensures batchSize > 0 ==> second == Err(AttributeError("encoder"))
    ensures batchSize <= 0 ==> first == second == Err(ValueError("batch_size should be a positive integer value"))
  {
    var m := new LanguageModels.LanguageModel(LanguageModels.AnkhModel, backbone);
    var logged, logged2;
    first, logged := AnkhExtractEmbeddings(m, dataType, version, encs, batchSize, layer, reduction, mutPos, d, forward);
    second, logged2 := AnkhExtractEmbeddings(m, dataType, version, encs, batchSize, layer2, reduction2, mutPos, d, forward);
  }
}
