/**
 * plmfit/models/pretrained_models.py, `ESMFamily.categorical_encode` and
 * `AnkhFamily.categorical_encode`: a matrix filled with the '<pad>' id, `max_len + 2`
 * columns wide for ESM and `max_len + 1` for Ankh, whose row `itr` starts with the ids
 * the tokenizer returns for sequence `itr`. The ids are copied as they are: nothing is
 * truncated, and ids longer than the row make the copy fail.
 */
module FamilyEncoders {
  import opened Results
  import opened Utils
  import opened FanOut

  const FamilyPadKey: string := "<pad>"

  /** Copying more ids than the row holds into `seq_tokens[itr][:len(ids)]`. */
  const RowOverflow: Error := RuntimeError("The expanded size of the tensor must match the existing size")

  /** The number of columns: room for `max_len` residues and the tokens the family's
      tokenizer adds (ESM: a CLS and an EOS token, Ankh: an EOS token). */
  function FamilyWidth(family: Family, maxLen: nat): (w: nat)
    ensures w > maxLen
  {
    match family
    case ESM => maxLen + 2
    case Ankh => maxLen + 1
  }

  /** Every sequence's ids fit into a row of `width` columns. */
  predicate AllFit(seqs: seq<string>, tok: Tokenizer, width: nat) {
    forall i :: 0 <= i < |seqs| ==> |tok.encode(seqs[i])| <= width
  }

  /** What `categorical_encode(seqs, tokenizer, max_len)` returns, row by row, or the error
      it raises: the KeyError of a missing '<pad>', or the failed copy of a sequence whose
      ids do not fit. */
  function FamilyEncoding(family: Family, seqs: seq<string>, tok: Tokenizer, maxLen: nat): Result<seq<seq<int>>> {
    var width := FamilyWidth(family, maxLen);
    if FamilyPadKey !in tok.vocab then Err(KeyError(FamilyPadKey))
    else if !AllFit(seqs, tok, width) then Err(RowOverflow)
    else Ok(seq(|seqs|, r requires 0 <= r < |seqs| => PadTo(tok.encode(seqs[r]), width, tok.vocab[FamilyPadKey])))
  }

  /** The encoding succeeds exactly when '<pad>' is in the vocabulary and every sequence's
      ids fit; the matrix then has one row per sequence and the family's width. */
  lemma FamilyEncodingShape(family: Family, seqs: seq<string>, tok: Tokenizer, maxLen: nat)
    ensures FamilyEncoding(family, seqs, tok, maxLen).Ok? <==>
      FamilyPadKey in tok.vocab && AllFit(seqs, tok, FamilyWidth(family, maxLen))
    ensures FamilyEncoding(family, seqs, tok, maxLen).Err? && FamilyPadKey in tok.vocab ==>
      FamilyEncoding(family, seqs, tok, maxLen).error == RowOverflow
    ensures FamilyEncoding(family, seqs, tok, maxLen).Ok? ==>
      var rows := FamilyEncoding(family, seqs, tok, maxLen).value;
      |rows| == |seqs| && forall r :: 0 <= r < |rows| ==> |rows[r]| == FamilyWidth(family, maxLen)
  {
  }

  /** Row `r` is the tokenizer's ids for sequence `r`, unchanged, then the '<pad>' id up to
      the full width. */
  lemma FamilyRowLayout(family: Family, seqs: seq<string>, tok: Tokenizer, maxLen: nat, r: nat)
    requires r < |seqs| && FamilyEncoding(family, seqs, tok, maxLen).Ok?
    ensures
      var row := FamilyEncoding(family, seqs, tok, maxLen).value[r];
      var ids := tok.encode(seqs[r]);
      && |ids| <= |row| == FamilyWidth(family, maxLen)
      && row[..|ids|] == ids
      && forall j :: |ids| <= j < |row| ==> row[j] == tok.vocab[FamilyPadKey]
  {
  }

  /** Whatever Ankh encodes, ESM encodes too, with one more '<pad>' column. */
  lemma {:induction false} EsmRowExtendsAnkh(seqs: seq<string>, tok: Tokenizer, maxLen: nat)
    requires FamilyEncoding(Ankh, seqs, tok, maxLen).Ok?
    ensures FamilyEncoding(ESM, seqs, tok, maxLen).Ok?
    ensures
      var esm := FamilyEncoding(ESM, seqs, tok, maxLen).value;
      var ankh := FamilyEncoding(Ankh, seqs, tok, maxLen).value;
      |esm| == |ankh| && forall r :: 0 <= r < |esm| ==> esm[r] == ankh[r] + [tok.vocab[FamilyPadKey]]
  {
    var pad := tok.vocab[FamilyPadKey];
    var esm := FamilyEncoding(ESM, seqs, tok, maxLen).value;
    var ankh := FamilyEncoding(Ankh, seqs, tok, maxLen).value;
    forall r | 0 <= r < |esm| ensures esm[r] == ankh[r] + [pad] {
      var ids := tok.encode(seqs[r]);
      assert esm[r] == ids + seq(maxLen + 2 - |ids|, _ => pad);
      assert ankh[r] == ids + seq(maxLen + 1 - |ids|, _ => pad);
      assert seq(maxLen + 2 - |ids|, _ => pad) == seq(maxLen + 1 - |ids|, _ => pad) + [pad];
    }
  }

  /** A sequence whose ids fill `max_len + 2` columns fits the ESM row but not the Ankh
      row. */
  lemma AnkhRejectsEsmFullRow(seqs: seq<string>, tok: Tokenizer, maxLen: nat, r: nat)
    requires FamilyPadKey in tok.vocab && AllFit(seqs, tok, maxLen + 2)
    requires r < |seqs| && |tok.encode(seqs[r])| == maxLen + 2
    ensures FamilyEncoding(ESM, seqs, tok, maxLen).Ok?
    ensures FamilyEncoding(Ankh, seqs, tok, maxLen) == Err(RowOverflow)
  {
  }

  /** `categorical_encode`: a pad-filled matrix whose row prefixes are overwritten one
      sequence at a time; a sequence that does not fit stops the loop. */
  method FamilyCategoricalEncode(family: Family, seqs: seq<string>, tok: Tokenizer, maxLen: nat)
    returns (r: Result<array2<int>>)
    ensures FamilyEncoding(family, seqs, tok, maxLen).Err? <==> r.Err?
    ensures r.Err? ==> r.error == FamilyEncoding(family, seqs, tok, maxLen).error
    ensures r.Ok? ==> fresh(r.value) && Rows(r.value) == FamilyEncoding(family, seqs, tok, maxLen).value
  {
    if FamilyPadKey !in tok.vocab {
      return Err(KeyError(FamilyPadKey));
    }
    var pad := tok.vocab[FamilyPadKey];
    var width := match family case ESM => maxLen + 2 case Ankh => maxLen + 1;
    var seqTokens := new int[|seqs|, width]((_, _) => pad);
    var itr := 0;
    while itr < |seqs|
      invariant 0 <= itr <= |seqs| && width == FamilyWidth(family, maxLen)
      invariant forall i :: 0 <= i < itr ==> |tok.encode(seqs[i])| <= width
      invariant forall i, j :: 0 <= i < |seqs| && 0 <= j < width ==>
        seqTokens[i, j] == if i < itr then PadTo(tok.encode(seqs[i]), width, pad)[j] else pad
    {
      var ids := tok.encode(seqs[itr]);
      if |ids| > width {
        return Err(RowOverflow);
      }
      WriteRowPrefix(seqTokens, itr, ids);
      itr := itr + 1;
    }
    var spec := FamilyEncoding(family, seqs, tok, maxLen);
    assert Rows(seqTokens) == spec.value by {
      forall i | 0 <= i < |seqs| ensures Rows(seqTokens)[i] == spec.value[i] {
        assert Rows(seqTokens)[i] == PadTo(tok.encode(seqs[i]), width, pad);
      }
    }
    return Ok(seqTokens);
  }
}
