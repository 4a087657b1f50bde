/**
 * `DataLoader(TensorDataset(encs), batch_size, shuffle=False)` as used by every
 * `extract_embeddings`, and the row counter `i` that each loop advances by
 * `batch_size` after a batch: batch `k` is written to buffer rows
 * `[i, i + batch_size)`, clipped to the number of sequences.
 *
 * The counter is defined by repeated addition, as the loop computes it; the lemmas at the
 * end relate it to `k * b`, `⌈n / b⌉`, `r / b` and `r % b`.
 */
module Batching {
  import opened Results

  /** The first buffer row of batch `k`: the counter `i` after `k` batches. */
  function BatchStart(k: nat, b: nat): nat {
    if k == 0 then 0 else BatchStart(k - 1, b) + b
  }

  /** One past the last buffer row of batch `k`: `min(i + batch_size, n)`. */
  function BatchEnd(k: nat, b: nat, n: nat): nat {
    if BatchStart(k, b) + b < n then BatchStart(k, b) + b else n
  }

  /** The number of batches the loader yields: the first `k` whose start is at or past
      the end of the data. */
  function NumBatches(n: nat, b: nat): (k: nat)
    requires b > 0
    ensures BatchStart(k, b) >= n && (k == 0 || BatchStart(k - 1, b) < n)
    ensures k == 0 <==> n == 0
    decreases n
  {
    if n == 0 then 0 else 1 + NumBatches(if n <= b then 0 else n - b, b)
  }

  /** The counter only grows. */
  lemma {:induction false} StartMono(k1: nat, k2: nat, b: nat)
    requires k1 <= k2
    ensures BatchStart(k1, b) <= BatchStart(k2, b)
    decreases k2
  {
    if k1 < k2 {
      StartMono(k1, k2 - 1, b);
    }
  }

  /** The sequences of batch `k`. */
  function Batch<T>(rows: seq<T>, k: nat, b: nat): (batch: seq<T>)
    requires b > 0 && k < NumBatches(|rows|, b)
    ensures |batch| == BatchEnd(k, b, |rows|) - BatchStart(k, b) > 0
    ensures forall t :: 0 <= t < |batch| ==> batch[t] == rows[BatchStart(k, b) + t]
  {
    StartMono(k, NumBatches(|rows|, b) - 1, b);
    rows[BatchStart(k, b)..BatchEnd(k, b, |rows|)]
  }

  /** `DataLoader(..., batch_size)` accepts positive batch sizes only. */
  function CheckBatchSize(batchSize: int): (r: Result<nat>)
    ensures r.Ok? <==> batchSize > 0
    ensures r.Ok? ==> r.value == batchSize && r.value > 0
  {
    if batchSize <= 0 then Err(ValueError("batch_size should be a positive integer value"))
    else Ok(batchSize as nat)
  }

  /** An earlier batch ends at or before the start of a later one. */
  lemma BatchEndBefore(q: nat, c: nat, b: nat, n: nat)
    requires q < c
    ensures BatchEnd(q, b, n) <= BatchStart(c, b)
  {
    StartMono(q + 1, c, b);
  }

  /** Two different batches write disjoint row ranges. */
  lemma BatchesDisjoint(k1: nat, k2: nat, b: nat, n: nat, r: nat)
    requires b > 0 && k1 != k2
    requires BatchStart(k1, b) <= r < BatchEnd(k1, b, n)
    ensures !(BatchStart(k2, b) <= r < BatchEnd(k2, b, n))
  {
    if k1 < k2 {
      BatchEndBefore(k1, k2, b, n);
    } else {
      BatchEndBefore(k2, k1, b, n);
    }
  }

  /** The batches, in order, cover rows `[0, n)`: each starts inside the data and ends
      where the next one starts, the last one at `n`. */
  lemma BatchesContiguous(k: nat, b: nat, n: nat)
    requires b > 0 && k < NumBatches(n, b)
    ensures BatchStart(k, b) < n
    ensures BatchEnd(k, b, n) == (if k + 1 == NumBatches(n, b) then n else BatchStart(k + 1, b))
  {
    StartMono(k, NumBatches(n, b) - 1, b);
    if k + 1 < NumBatches(n, b) {
      StartMono(k + 1, NumBatches(n, b) - 1, b);
    }
  }

  /** The number of sequences in batch `k`: `len(batch)`, between 1 and `b`. */
  function BatchLen(k: nat, b: nat, n: nat): (len: nat)
    requires b > 0 && k < NumBatches(n, b)
    ensures 0 < len <= b && BatchStart(k, b) + len == BatchEnd(k, b, n)
  {
    BatchesContiguous(k, b, n);
    BatchEnd(k, b, n) - BatchStart(k, b)
  }

  /** The batch that writes row `r`: how many whole batches fit before it. */
  function BatchIndex(r: nat, b: nat): nat
    requires b > 0
    decreases r
  {
    if r < b then 0 else 1 + BatchIndex(r - b, b)
  }

  /** Every row below `n` is written by batch `BatchIndex(r, b)`, even when `b` does not
      divide `n`. */
  lemma {:induction false} BatchesCover(b: nat, n: nat, r: nat)
    requires b > 0 && r < n
    ensures BatchIndex(r, b) < NumBatches(n, b)
    ensures BatchStart(BatchIndex(r, b), b) <= r < BatchEnd(BatchIndex(r, b), b, n)
    decreases r
  {
    var q := BatchIndex(r, b);
    if r >= b {
      BatchesCover(b, n - b, r - b);
      StartShift(q - 1, b);
    }
  }

  /** Skipping the first batch shifts every later start down by `b`. */
  lemma {:induction false} StartShift(k: nat, b: nat)
    ensures BatchStart(k + 1, b) == BatchStart(k, b) + b
  {
  }

  /** A row inside the range of batch `c` belongs to batch `c`. */
  lemma BatchOf(b: nat, n: nat, row: nat, c: nat)
    requires b > 0 && BatchStart(c, b) <= row < BatchEnd(c, b, n)
    ensures BatchIndex(row, b) == c
  {
    BatchesCover(b, n, row);
    if BatchIndex(row, b) != c {
      BatchesDisjoint(BatchIndex(row, b), c, b, n, row);
    }
  }

  // ---------------------------------------------------------------------------
  // The counter in closed form
  // ---------------------------------------------------------------------------

  /** After `k` batches the counter is `k * batch_size`. */
  lemma {:induction false} StartIsProduct(k: nat, b: nat)
    ensures BatchStart(k, b) == k * b
  {
    if k > 0 {
      StartIsProduct(k - 1, b);
      assert k * b == (k - 1) * b + b;
    }
  }

  /** The loader yields ⌈n / b⌉ batches. */
  lemma NumBatchesIsCeiling(n: nat, b: nat)
    requires b > 0
    ensures NumBatches(n, b) == (n + b - 1) / b
  {
    var k := NumBatches(n, b);
    StartIsProduct(k, b);
    if k > 0 {
      StartIsProduct(k - 1, b);
      assert (k - 1) * b == k * b - b;
    }
    assert k * b <= n + b - 1 < k * b + b;
    DivUnique(n + b - 1, b, k);
  }

  /** The row `r` sits at offset `r % b` of batch `r / b`. */
  lemma BatchIndexIsDiv(r: nat, b: nat)
    requires b > 0
    ensures BatchIndex(r, b) == r / b
    ensures r - BatchStart(BatchIndex(r, b), b) == r % b
  {
    var q := BatchIndex(r, b);
    BatchesCover(b, r + 1, r);
    StartIsProduct(q, b);
    assert BatchStart(q, b) <= r < BatchStart(q, b) + b;
    DivUnique(r, b, q);
  }

  /** `x / b == q` when `q * b <= x < q * b + b`. */
  lemma DivUnique(x: nat, b: nat, q: nat)
    requires b > 0 && q * b <= x < q * b + b
    ensures x / b == q && x % b == x - q * b
  {
    var d := x / b;
    assert d * b + x % b == x;
    if d < q {
      MulMono(d + 1, q, b);
      assert false;
    } else if d > q {
      MulMono(q + 1, d, b);
      assert false;
    }
  }

  /** Multiplying by a natural number keeps the order. */
  lemma {:induction false} MulMono(a: nat, c: nat, b: nat)
    requires a <= c
    ensures a * b <= c * b
    decreases c - a
  {
    if a < c {
      MulMono(a, c - 1, b);
      assert c * b == (c - 1) * b + b;
    }
  }

  /** The counter ends at ⌈n / b⌉ · b: the least multiple of `b` that is at least `n`. */
  lemma CounterEnd(b: nat, n: nat)
    requires b > 0
    ensures BatchStart(NumBatches(n, b), b) == NumBatches(n, b) * b >= n
    ensures forall m: nat {:trigger m * b} :: m * b >= n ==> m * b >= NumBatches(n, b) * b
  {
    var k := NumBatches(n, b);
    StartIsProduct(k, b);
    forall m: nat | m * b >= n ensures m * b >= k * b {
      if m < k {
        StartMono(m, k - 1, b);
        StartIsProduct(m, b);
        assert false;
      }
      MulMono(k, m, b);
    }
  }

  // ---------------------------------------------------------------------------
  // Rows written so far
  // ---------------------------------------------------------------------------

  /** The rows written after the first `c` batches: `[0, Filled(c))`. */
  function Filled(c: nat, b: nat, n: nat): nat {
    if c == 0 then 0 else BatchEnd(c - 1, b, n)
  }

  /** Batch `c` starts where the first `c` batches stopped, and all batches together fill
      exactly the `n` rows. */
  lemma {:induction false} FilledAt(c: nat, b: nat, n: nat)
    requires b > 0 && c <= NumBatches(n, b)
    ensures c < NumBatches(n, b) ==> Filled(c, b, n) == BatchStart(c, b)
    ensures c == NumBatches(n, b) ==> Filled(c, b, n) == n
    ensures Filled(c, b, n) <= n
  {
    if c > 0 {
      BatchesContiguous(c - 1, b, n);
    }
  }

  // ---------------------------------------------------------------------------
  // The counter of the batch loop
  // ---------------------------------------------------------------------------

  /** The counter `i` after `q` batches, and the values logged so far. */
  ghost predicate Counted(i: nat, q: nat, logged: seq<nat>, b: nat, n: nat)
    requires b > 0
  {
    && q <= NumBatches(n, b) && i == BatchStart(q, b) && (i < n <==> q < NumBatches(n, b))
    && |logged| == q && forall c :: 0 <= c < q ==> logged[c] == BatchStart(c + 1, b)
  }

  /** One more batch advances the counter by `b` and logs it. */
  lemma CountedNext(i: nat, q: nat, logged: seq<nat>, b: nat, n: nat)
    requires b > 0 && Counted(i, q, logged, b, n) && i < n
    ensures Counted(i + b, q + 1, logged + [i + b], b, n)
  {
    BatchesContiguous(q, b, n);
    if q + 1 < NumBatches(n, b) {
      BatchesContiguous(q + 1, b, n);
    }
  }
}
