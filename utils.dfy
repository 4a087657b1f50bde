/**
 * plmfit/shared_utils/utils.py: the ProGen-family token encoder, parameter
 * counting and flag setting, the FASTA reader and `convert_to_number`.
 */
module Utils {
  import opened Results
  import opened PyText

  // ---------------------------------------------------------------------------
  // Tokenizer and categorical encoding
  // ---------------------------------------------------------------------------

  const PadKey: string := "<|pad|>"
  const BosKey: string := "<|bos|>"
  const EosKey: string := "<|eos|>"

  /** A tokenizer: its vocabulary (`get_vocab()`) and its encode function, which stays
      uninterpreted: `encode(seq, add_special_tokens=False).ids` of the `tokenizers`
      library for ProGen, `AutoTokenizer.encode(seq)` with the model's own special tokens
      for ESM and Ankh. */
  datatype Tokenizer = Tokenizer(vocab: map<string, int>, encode: string -> seq<int>)

  function Min(a: int, b: int): int { if a < b then a else b }

  /** The number of columns: `max_len + int(add_bos) + int(add_eos)`. */
  function EncodedWidth(maxLen: nat, addBos: bool, addEos: bool): nat {
    maxLen + (if addBos then 1 else 0) + (if addEos then 1 else 0)
  }

  /** The vocabulary holds every special token a call with these flags looks up. */
  predicate HasSpecials(vocab: map<string, int>, addBos: bool, addEos: bool) {
    PadKey in vocab && (addBos ==> BosKey in vocab) && (addEos ==> EosKey in vocab)
  }

  /** The tokens written for one sequence before padding: the optional BOS id, at most
      `max_len` ids of the sequence, the optional EOS id. */
  function CoreTokens(vocab: map<string, int>, ids: seq<int>, maxLen: nat, addBos: bool, addEos: bool): seq<int>
    requires HasSpecials(vocab, addBos, addEos)
  {
    (if addBos then [vocab[BosKey]] else []) + ids[..Min(|ids|, maxLen)] + (if addEos then [vocab[EosKey]] else [])
  }

  /** `row` followed by `pad` up to `width` columns. */
  function PadTo(row: seq<int>, width: nat, pad: int): (r: seq<int>)
    requires |row| <= width
    ensures |r| == width && r[..|row|] == row
    ensures forall j :: |row| <= j < width ==> r[j] == pad
  {
    row + seq(width - |row|, _ => pad)
  }

  /** The row produced for one input sequence. */
  function EncodedRow(tok: Tokenizer, s: string, maxLen: nat, addBos: bool, addEos: bool): seq<int>
    requires HasSpecials(tok.vocab, addBos, addEos)
  {
    var core := CoreTokens(tok.vocab, tok.encode(s), maxLen, addBos, addEos);
    PadTo(core, EncodedWidth(maxLen, addBos, addEos), tok.vocab[PadKey])
  }

  /** What `categorical_encode(seqs, tokenizer, max_len, add_bos, add_eos)` returns, row by
      row, or the KeyError it raises: '<|pad|>' is looked up first, '<|bos|>' and '<|eos|>'
      only while encoding a first sequence. */
  function Encoding(seqs: seq<string>, tok: Tokenizer, maxLen: nat, addBos: bool, addEos: bool): Result<seq<seq<int>>>
  {
    if PadKey !in tok.vocab then Err(KeyError(PadKey))
    else if |seqs| > 0 && addBos && BosKey !in tok.vocab then Err(KeyError(BosKey))
    else if |seqs| > 0 && addEos && EosKey !in tok.vocab then Err(KeyError(EosKey))
    else if |seqs| == 0 then Ok([])
    else Ok(seq(|seqs|, r requires 0 <= r < |seqs| => EncodedRow(tok, seqs[r], maxLen, addBos, addEos)))
  }

  /** The second cut, `sequence[:internal_max_len]`, never removes a token: the BOS id, the
      at most `max_len` ids and the EOS id always fit. */
  lemma CoreTokensFit(vocab: map<string, int>, ids: seq<int>, maxLen: nat, addBos: bool, addEos: bool)
    requires HasSpecials(vocab, addBos, addEos)
    ensures |CoreTokens(vocab, ids, maxLen, addBos, addEos)| <= EncodedWidth(maxLen, addBos, addEos)
    ensures |CoreTokens(vocab, ids, maxLen, addBos, addEos)| == EncodedWidth(maxLen, addBos, addEos) <==> |ids| >= maxLen
  {
  }

  /** The matrix has one row per sequence and `max_len + add_bos + add_eos` columns, and it
      is an error exactly when a needed special token is missing. */
  lemma EncodingShape(seqs: seq<string>, tok: Tokenizer, maxLen: nat, addBos: bool, addEos: bool)
    ensures Encoding(seqs, tok, maxLen, addBos, addEos).Ok? <==>
      PadKey in tok.vocab && (|seqs| > 0 ==> HasSpecials(tok.vocab, addBos, addEos))
    ensures Encoding(seqs, tok, maxLen, addBos, addEos).Ok? ==>
      var rows := Encoding(seqs, tok, maxLen, addBos, addEos).value;
      |rows| == |seqs| && forall r :: 0 <= r < |rows| ==> |rows[r]| == EncodedWidth(maxLen, addBos, addEos)
  {
  }

  /** Row `r` is the BOS id if requested, the first `min(len(ids), max_len)` ids of sequence
      `r`, the EOS id if requested, then the pad id up to full width. */
  lemma {:induction false} EncodingRowLayout(seqs: seq<string>, tok: Tokenizer, maxLen: nat, addBos: bool, addEos: bool, r: nat)
    requires r < |seqs| && HasSpecials(tok.vocab, addBos, addEos)
    ensures Encoding(seqs, tok, maxLen, addBos, addEos).Ok?
    ensures
      var row := Encoding(seqs, tok, maxLen, addBos, addEos).value[r];
      var ids := tok.encode(seqs[r]);
      var b := if addBos then 1 else 0;
      var n := Min(|ids|, maxLen);
      && |row| == EncodedWidth(maxLen, addBos, addEos)
      && (addBos ==> row[0] == tok.vocab[BosKey])
      && (forall t :: 0 <= t < n ==> row[b + t] == ids[t])
      && (addEos ==> row[b + n] == tok.vocab[EosKey])
      && (forall j :: b + n + (if addEos then 1 else 0) <= j < |row| ==> row[j] == tok.vocab[PadKey])
  {
    var row := Encoding(seqs, tok, maxLen, addBos, addEos).value[r];
    var ids := tok.encode(seqs[r]);
    var core := CoreTokens(tok.vocab, ids, maxLen, addBos, addEos);
    assert row == PadTo(core, EncodedWidth(maxLen, addBos, addEos), tok.vocab[PadKey]);
    var b := if addBos then 1 else 0;
    var n := Min(|ids|, maxLen);
    assert |core| == b + n + (if addEos then 1 else 0);
    assert row[..|core|] == core;
    forall t | 0 <= t < n ensures row[b + t] == ids[t] {
      assert core[b + t] == ids[..n][t];
    }
  }

  /** A sequence with `max_len + 5` ids keeps exactly its first `max_len` ids, the specials
      around them, and no padding. */
  lemma {:induction false} EncodingTruncates(seqs: seq<string>, tok: Tokenizer, maxLen: nat, addBos: bool, addEos: bool, r: nat)
    requires r < |seqs| && HasSpecials(tok.vocab, addBos, addEos)
    requires |tok.encode(seqs[r])| == maxLen + 5
    ensures Encoding(seqs, tok, maxLen, addBos, addEos).Ok?
    ensures Encoding(seqs, tok, maxLen, addBos, addEos).value[r] ==
      (if addBos then [tok.vocab[BosKey]] else []) + tok.encode(seqs[r])[..maxLen] + (if addEos then [tok.vocab[EosKey]] else [])
  {
    var ids := tok.encode(seqs[r]);
    var core := CoreTokens(tok.vocab, ids, maxLen, addBos, addEos);
    assert |core| == EncodedWidth(maxLen, addBos, addEos);
    assert Encoding(seqs, tok, maxLen, addBos, addEos).value[r] == PadTo(core, |core|, tok.vocab[PadKey]);
  }

  /** Each row depends on its own sequence only: changing any other sequence leaves it as is. */
  lemma {:induction false} EncodingRowIsLocal(seqs: seq<string>, seqs': seq<string>, tok: Tokenizer, maxLen: nat, addBos: bool, addEos: bool, r: nat)
    requires |seqs| == |seqs'| && r < |seqs| && seqs[r] == seqs'[r]
    requires Encoding(seqs, tok, maxLen, addBos, addEos).Ok?
    ensures Encoding(seqs', tok, maxLen, addBos, addEos).Ok?
    ensures Encoding(seqs, tok, maxLen, addBos, addEos).value[r] == Encoding(seqs', tok, maxLen, addBos, addEos).value[r]
  {
  }

  /** The rows of a matrix. */
  ghost function Rows(m: array2<int>): (rows: seq<seq<int>>)
    reads m
    ensures |rows| == m.Length0 && forall i :: 0 <= i < |rows| ==> |rows[i]| == m.Length1
  {
    seq(m.Length0, i requires 0 <= i < m.Length0 reads m => seq(m.Length1, j requires 0 <= j < m.Length1 reads m => m[i, j]))
  }

  /** `tokens[r, :len(row)] = row`: overwrites the prefix of row `r` and nothing else. */
  method WriteRowPrefix(tokens: array2<int>, r: nat, row: seq<int>)
    requires r < tokens.Length0 && |row| <= tokens.Length1
    modifies tokens
    ensures forall i, j :: 0 <= i < tokens.Length0 && 0 <= j < tokens.Length1 ==>
      tokens[i, j] == if i == r && j < |row| then row[j] else old(tokens[i, j])
  {
    var j := 0;
    while j < |row|
      invariant 0 <= j <= |row|
      invariant forall i, c :: 0 <= i < tokens.Length0 && 0 <= c < tokens.Length1 ==>
        tokens[i, c] == if i == r && c < j then row[c] else old(tokens[i, c])
    {
      tokens[r, j] := row[j];
      j := j + 1;
    }
  }

  /** `categorical_encode`: a pad-filled matrix whose rows are overwritten one sequence at a
      time. */
  method CategoricalEncode(seqs: seq<string>, tok: Tokenizer, maxLen: nat, addBos: bool, addEos: bool)
    returns (r: Result<array2<int>>)
    ensures Encoding(seqs, tok, maxLen, addBos, addEos).Err? <==> r.Err?
    ensures r.Err? ==> r.error == Encoding(seqs, tok, maxLen, addBos, addEos).error
    ensures r.Ok? ==> fresh(r.value) && Rows(r.value) == Encoding(seqs, tok, maxLen, addBos, addEos).value
  {
    var vocab := tok.vocab;
    if PadKey !in vocab {
      return Err(KeyError(PadKey));
    }
    var pad := vocab[PadKey];
    var width := maxLen + (if addBos then 1 else 0) + (if addEos then 1 else 0);
    var tokens := new int[|seqs|, width]((_, _) => pad);
    var itr := 0;
    while itr < |seqs|
      invariant 0 <= itr <= |seqs|
      invariant itr > 0 ==> HasSpecials(vocab, addBos, addEos)
      invariant forall i, j :: 0 <= i < |seqs| && 0 <= j < width ==>
        tokens[i, j] == if i < itr then EncodedRow(tok, seqs[i], maxLen, addBos, addEos)[j] else pad
    {
      var ids := tok.encode(seqs[itr]);
      var sequence := [];
      if addBos {
        if BosKey !in vocab {
          return Err(KeyError(BosKey));
        }
        sequence := sequence + [vocab[BosKey]];
      }
      sequence := sequence + ids[..Min(|ids|, maxLen)];
      if addEos {
        if EosKey !in vocab {
          return Err(KeyError(EosKey));
        }
        sequence := sequence + [vocab[EosKey]];
      }
      var truncated := sequence[..Min(|sequence|, width)];
      assert truncated == CoreTokens(vocab, ids, maxLen, addBos, addEos);
      WriteRowPrefix(tokens, itr, truncated);
      itr := itr + 1;
    }
    var spec := Encoding(seqs, tok, maxLen, addBos, addEos);
    assert Rows(tokens) == spec.value by {
      if |seqs| > 0 {
        forall i | 0 <= i < |seqs| ensures Rows(tokens)[i] == spec.value[i] {
          assert Rows(tokens)[i] == EncodedRow(tok, seqs[i], maxLen, addBos, addEos);
        }
      }
    }
    return Ok(tokens);
  }

  // ---------------------------------------------------------------------------
  // Parameters
  // ---------------------------------------------------------------------------

  /** A parameter tensor of a torch module: its element count and its `requires_grad` flag. */
  class Parameter {
    const numel: nat
    var requiresGrad: bool

    constructor (numel: nat, requiresGrad: bool)
      ensures this.numel == numel && this.requiresGrad == requiresGrad
    {
      this.numel := numel;
      this.requiresGrad := requiresGrad;
    }
  }

  /** The number of scalar weights in a list of parameters. */
  function TotalNumel(ps: seq<Parameter>): nat {
    if ps == [] then 0 else TotalNumel(ps[..|ps| - 1]) + ps[|ps| - 1].numel
  }

  /** Counting is additive over concatenated parameter lists. */
  lemma {:induction false} TotalNumelAppend(a: seq<Parameter>, b: seq<Parameter>)
    ensures TotalNumel(a + b) == TotalNumel(a) + TotalNumel(b)
    decreases |b|
  {
    if b == [] {
      assert a + b == a;
    } else {
      assert (a + b)[..|a + b| - 1] == a + b[..|b| - 1];
      assert (a + b)[|a + b| - 1] == b[|b| - 1];
      TotalNumelAppend(a, b[..|b| - 1]);
    }
  }

  /** The count does not depend on the order of the parameters. */
  lemma {:induction false} TotalNumelPermutation(a: seq<Parameter>, b: seq<Parameter>)
    requires multiset(a) == multiset(b)
    ensures TotalNumel(a) == TotalNumel(b)
    decreases |a|
  {
    if a != [] {
      var x := a[|a| - 1];
      assert x in multiset(b);
      var k :| 0 <= k < |b| && b[k] == x;
      assert b == b[..k] + [x] + b[k + 1..];
      assert a == a[..|a| - 1] + [x];
      assert multiset(b) == multiset(b[..k]) + multiset{x} + multiset(b[k + 1..]);
      assert multiset(a) == multiset(a[..|a| - 1]) + multiset{x};
      assert multiset(b[..k] + b[k + 1..]) == multiset(b[..k]) + multiset(b[k + 1..]);
      assert multiset(b[..k] + b[k + 1..]) == multiset(b) - multiset{x};
      assert multiset(a[..|a| - 1]) == multiset(a) - multiset{x};
      TotalNumelPermutation(a[..|a| - 1], b[..k] + b[k + 1..]);
      TotalNumelAppend(b[..k], b[k + 1..]);
      TotalNumelAppend(b[..k] + [x], b[k + 1..]);
      TotalNumelAppend(b[..k], [x]);
      assert TotalNumel([x]) == x.numel by { assert [x][..0] == []; }
    }
  }

  /** `get_parameters(model, print_w_mat)`: the total element count of the model's
      parameters; `print_w_mat` only prints. */
  method GetParameters(ps: seq<Parameter>, printWMat: bool) returns (s: nat)
    ensures s == TotalNumel(ps)
  {
    s := 0;
    var c := 0;
    while c < |ps|
      invariant 0 <= c <= |ps|
      invariant s == TotalNumel(ps[..c])
    {
      assert ps[..c + 1][..c] == ps[..c];
      s := s + ps[c].numel;
      c := c + 1;
    }
    assert ps[..c] == ps;
  }

  /** `set_trainable_parameters(model, ft)`: every parameter becomes trainable, whatever `ft`
      says; nothing else changes. */
  method SetTrainableParameters(ps: seq<Parameter>, ft: string)
    modifies set p | p in ps
    ensures forall p :: p in ps ==> p.requiresGrad
  {
    var c := 0;
    while c < |ps|
      invariant 0 <= c <= |ps|
      invariant forall i :: 0 <= i < c ==> ps[i].requiresGrad
    {
      ps[c].requiresGrad := true;
      c := c + 1;
    }
  }

  // ---------------------------------------------------------------------------
  // read_fasta
  // ---------------------------------------------------------------------------

  /** A non-blank line of a FASTA file, after stripping: a header `>id` or a line of data. */
  datatype Line = Header(id: string) | Data(text: string)

  /** How `read_fasta` reads one line: stripped, dropped when blank, a header when it
      starts with '>'. */
  function CleanLine(line: string): seq<Line> {
    var t := Strip(line);
    if t == [] then [] else if StartsWith(t, ">") then [Header(t[1..])] else [Data(t)]
  }

  /** The non-blank lines of a file, in order. */
  function CleanLines(lines: seq<string>): seq<Line> {
    if lines == [] then [] else CleanLine(lines[0]) + CleanLines(lines[1..])
  }

  /** One FASTA record: the header text after '>' and its data lines. */
  datatype FastaRecord = FastaRecord(id: string, data: seq<string>)

  /** The number of data lines before the next header. */
  function DataRun(ls: seq<Line>): (n: nat)
    ensures n <= |ls|
  {
    if ls == [] || ls[0].Header? then 0 else 1 + DataRun(ls[1..])
  }

  /** A data run is made of data lines and ends at a header or at the end of the file. */
  lemma {:induction false} DataRunStops(ls: seq<Line>)
    ensures forall i :: 0 <= i < DataRun(ls) ==> ls[i].Data?
    ensures DataRun(ls) < |ls| ==> ls[DataRun(ls)].Header?
    decreases |ls|
  {
    if ls != [] && ls[0].Data? {
      DataRunStops(ls[1..]);
      forall i | 1 <= i < DataRun(ls) ensures ls[i].Data? {
        assert ls[i] == ls[1..][i - 1];
      }
    }
  }

  /** The text of a line inside a data run (a header never is one). */
  function Text(l: Line): string {
    if l.Data? then l.text else []
  }

  /** The texts of a run of data lines. */
  function Texts(ls: seq<Line>): seq<string> {
    seq(|ls|, i requires 0 <= i < |ls| => Text(ls[i]))
  }

  /** The records of a file's clean lines: each header with the data lines up to the next
      header; data lines before the first header belong to no record. */
  function Records(ls: seq<Line>): seq<FastaRecord>
    decreases |ls|
  {
    if ls == [] then []
    else if ls[0].Data? then Records(ls[1..])
    else
      var n := DataRun(ls[1..]);
      [FastaRecord(ls[0].id, Texts(ls[1..1 + n]))] + Records(ls[1 + n..])
  }

  /** `''.join(parts)` */
  function Concat(parts: seq<string>): string {
    if parts == [] then "" else Concat(parts[..|parts| - 1]) + parts[|parts| - 1]
  }

  /** A dict filled record by record: a later record with the same header replaces an
      earlier one. */
  function ToDict(rs: seq<FastaRecord>): map<string, string> {
    if rs == [] then map[]
    else ToDict(rs[..|rs| - 1])[rs[|rs| - 1].id := Concat(rs[|rs| - 1].data)]
  }

  /** What `read_fasta` returns for a file with these lines. */
  function FastaDict(lines: seq<string>): map<string, string> {
    ToDict(Records(CleanLines(lines)))
  }

  /** The record still open while reading, if any. */
  function Flush(current: Option<FastaRecord>): seq<FastaRecord> {
    if current.Some? then [current.value] else []
  }

  /** The records `read_fasta` completes from the clean lines `ls` onward, while `current`
      is the record it has open (if any): the line-by-line reading of the file. */
  function Reading(ls: seq<Line>, current: Option<FastaRecord>): seq<FastaRecord>
    decreases |ls|
  {
    if ls == [] then Flush(current)
    else if ls[0].Header? then Flush(current) + Reading(ls[1..], Some(FastaRecord(ls[0].id, [])))
    else Reading(ls[1..], Extend(current, ls[0]))
  }

  /** Leading data lines belong to no record. */
  lemma {:induction false} RecordsSkipsData(ls: seq<Line>)
    ensures Records(ls) == Records(ls[DataRun(ls)..])
    decreases |ls|
  {
    if ls != [] && ls[0].Data? {
      RecordsSkipsData(ls[1..]);
      assert ls[1..][DataRun(ls[1..])..] == ls[DataRun(ls)..];
    }
  }

  /** The record `current` after the data line `l`: `current_sequence.append(line)` when a
      record is open, nothing otherwise. */
  function Extend(current: Option<FastaRecord>, l: Line): Option<FastaRecord> {
    if current.Some? then Some(FastaRecord(current.value.id, current.value.data + [Text(l)])) else None
  }

  /** Reading `ls` with `current` open finds the open record completed by the data lines up
      to the next header, then the records of the rest. */
  ghost predicate ReadsAsRecords(ls: seq<Line>, current: Option<FastaRecord>) {
    var n := DataRun(ls);
    Reading(ls, current) ==
      (if current.Some? then [FastaRecord(current.value.id, current.value.data + Texts(ls[..n]))] else [])
      + Records(ls[n..])
  }

  lemma {:induction false} ReadsAsRecordsAtHeader(ls: seq<Line>, current: Option<FastaRecord>)
    requires ls != [] && ls[0].Header?
    requires ReadsAsRecords(ls[1..], Some(FastaRecord(ls[0].id, [])))
    ensures ReadsAsRecords(ls, current)
  {
    var m := DataRun(ls[1..]);
    assert ls[1..][..m] == ls[1..1 + m];
    assert ls[1..][m..] == ls[1 + m..];
    var rec := FastaRecord(ls[0].id, Texts(ls[1..1 + m]));
    assert [] + Texts(ls[1..1 + m]) == Texts(ls[1..1 + m]);
    assert Reading(ls[1..], Some(FastaRecord(ls[0].id, []))) == [rec] + Records(ls[1 + m..]);
    assert Records(ls) == [rec] + Records(ls[1 + m..]);
    assert ls[..0] == [] && ls[0..] == ls;
    if current.Some? {
      assert current.value.data + Texts([]) == current.value.data;
    }
  }

  lemma {:induction false} ReadsAsRecordsAtData(ls: seq<Line>, current: Option<FastaRecord>)
    requires ls != [] && ls[0].Data?
    requires ReadsAsRecords(ls[1..], Extend(current, ls[0]))
    ensures ReadsAsRecords(ls, current)
  {
    var m := DataRun(ls[1..]);
    assert DataRun(ls) == 1 + m;
    assert ls[1..][m..] == ls[1 + m..];
    if current.Some? {
      var c := current.value;
      assert Texts(ls[..1 + m]) == [ls[0].text] + Texts(ls[1..][..m]);
      assert c.data + Texts(ls[..1 + m]) == c.data + [ls[0].text] + Texts(ls[1..][..m]);
    } else {
      assert Records(ls) == Records(ls[1..]);
      RecordsSkipsData(ls[1..]);
      RecordsSkipsData(ls);
    }
  }

  /** Reading line by line finds exactly the records: the open record takes the data lines
      up to the next header, and each header then opens the next one. */
  lemma {:induction false} ReadingIsRecords(ls: seq<Line>, current: Option<FastaRecord>)
    ensures ReadsAsRecords(ls, current)
    ensures current.None? ==> Reading(ls, current) == Records(ls)
    decreases |ls|
  {
    if ls == [] {
      assert Texts(ls[..0]) == [];
      if current.Some? {
        assert current.value.data + [] == current.value.data;
      }
    } else if ls[0].Header? {
      ReadingIsRecords(ls[1..], Some(FastaRecord(ls[0].id, [])));
      ReadsAsRecordsAtHeader(ls, current);
    } else {
      ReadingIsRecords(ls[1..], Extend(current, ls[0]));
      ReadsAsRecordsAtData(ls, current);
    }
    if current.None? {
      RecordsSkipsData(ls);
    }
  }

  /** Reading the clean lines that follow line `n` starts with that line's own. */
  lemma {:induction false} CleanLinesFrom(lines: seq<string>, n: nat)
    requires n < |lines|
    ensures CleanLines(lines[n..]) == CleanLine(lines[n]) + CleanLines(lines[n + 1..])
  {
    assert lines[n..][1..] == lines[n + 1..];
  }

  /** A blank line changes nothing. */
  lemma {:induction false} ReadBlank(lines: seq<string>, n: nat, current: Option<FastaRecord>)
    requires n < |lines| && Strip(lines[n]) == []
    ensures Reading(CleanLines(lines[n..]), current) == Reading(CleanLines(lines[n + 1..]), current)
  {
    CleanLinesFrom(lines, n);
    assert CleanLine(lines[n]) + CleanLines(lines[n + 1..]) == CleanLines(lines[n + 1..]);
  }

  /** A header closes the open record, if any, and opens its own. */
  lemma {:induction false} ReadHeader(lines: seq<string>, n: nat, current: Option<FastaRecord>, closed: seq<FastaRecord>)
    requires n < |lines| && Strip(lines[n]) != [] && StartsWith(Strip(lines[n]), ">")
    ensures closed + Reading(CleanLines(lines[n..]), current) ==
      (closed + Flush(current)) + Reading(CleanLines(lines[n + 1..]), Some(FastaRecord(Strip(lines[n])[1..], [])))
  {
    CleanLinesFrom(lines, n);
    var rest := CleanLines(lines[n + 1..]);
    assert CleanLine(lines[n]) == [Header(Strip(lines[n])[1..])];
    assert ([Header(Strip(lines[n])[1..])] + rest)[1..] == rest;
  }

  /** A data line extends the open record, if any. */
  lemma {:induction false} ReadData(lines: seq<string>, n: nat, current: Option<FastaRecord>)
    requires n < |lines| && Strip(lines[n]) != [] && !StartsWith(Strip(lines[n]), ">")
    ensures Reading(CleanLines(lines[n..]), current) ==
      Reading(CleanLines(lines[n + 1..]), Extend(current, Data(Strip(lines[n]))))
  {
    CleanLinesFrom(lines, n);
    var rest := CleanLines(lines[n + 1..]);
    assert CleanLine(lines[n]) == [Data(Strip(lines[n]))];
    assert ([Data(Strip(lines[n]))] + rest)[1..] == rest;
  }

  lemma {:induction false} ToDictSnoc(rs: seq<FastaRecord>, r: FastaRecord)
    ensures ToDict(rs + [r]) == ToDict(rs)[r.id := Concat(r.data)]
  {
    assert (rs + [r])[..|rs|] == rs;
  }

  /** `read_fasta(file)` over the file's lines. */
  method ReadFasta(lines: seq<string>) returns (sequences: map<string, string>)
    ensures sequences == FastaDict(lines)
  {
    sequences := map[];
    var currentId: Option<string> := None;
    var currentSequence: seq<string> := [];
    ghost var all := Records(CleanLines(lines));
    ghost var closed: seq<FastaRecord> := [];
    ghost var open: Option<FastaRecord> := None;
    ReadingIsRecords(CleanLines(lines), None);
    assert lines[0..] == lines;
    var n := 0;
    while n < |lines|
      invariant 0 <= n <= |lines|
      invariant sequences == ToDict(closed)
      invariant open == if currentId.Some? then Some(FastaRecord(currentId.value, currentSequence)) else None
      invariant all == closed + Reading(CleanLines(lines[n..]), open)
    {
      var line := Strip(lines[n]);
      if line == [] {
        ReadBlank(lines, n, open);
      } else if StartsWith(line, ">") {
        ReadHeader(lines, n, open, closed);
        if currentId.Some? {
          ToDictSnoc(closed, open.value);
          sequences := sequences[currentId.value := Concat(currentSequence)];
          closed := closed + [open.value];
        } else {
          assert closed + Flush(open) == closed;
        }
        currentId := Some(line[1..]);
        currentSequence := [];
        open := Some(FastaRecord(line[1..], []));
      } else {
        ReadData(lines, n, open);
        if currentId.Some? {
          currentSequence := currentSequence + [line];
        }
        open := Extend(open, Data(line));
      }
      n := n + 1;
    }
    assert lines[n..] == [];
    if currentId.Some? {
      ToDictSnoc(closed, open.value);
      sequences := sequences[currentId.value := Concat(currentSequence)];
    } else {
      assert closed + [] == closed;
    }
  }

  /** The ids of the header lines, in file order. */
  function HeaderIds(ls: seq<Line>): seq<string> {
    if ls == [] then [] else (if ls[0].Header? then [ls[0].id] else []) + HeaderIds(ls[1..])
  }

  /** The ids of the records of a sequence. */
  function RecordIds(rs: seq<FastaRecord>): (ids: seq<string>)
    ensures |ids| == |rs| && forall i :: 0 <= i < |rs| ==> ids[i] == rs[i].id
  {
    seq(|rs|, i requires 0 <= i < |rs| => rs[i].id)
  }

  lemma RecordIdsAppend(a: seq<FastaRecord>, b: seq<FastaRecord>)
    ensures RecordIds(a + b) == RecordIds(a) + RecordIds(b)
  {
    assert forall i :: 0 <= i < |a + b| ==> RecordIds(a + b)[i] == (RecordIds(a) + RecordIds(b))[i];
  }

  lemma {:induction false} HeaderIdsOfDataRun(ls: seq<Line>, n: nat)
    requires n <= |ls| && forall i :: 0 <= i < n ==> ls[i].Data?
    ensures HeaderIds(ls) == HeaderIds(ls[n..])
    decreases n
  {
    if n > 0 {
      HeaderIdsOfDataRun(ls[1..], n - 1);
      assert ls[1..][n - 1..] == ls[n..];
    }
  }

  /** There is one record per header line, in the same order: no header is lost, and data
      lines never make a record. */
  lemma {:induction false} RecordsFollowHeaders(ls: seq<Line>)
    ensures RecordIds(Records(ls)) == HeaderIds(ls)
    decreases |ls|
  {
    if ls != [] {
      if ls[0].Data? {
        RecordsFollowHeaders(ls[1..]);
      } else {
        var n := DataRun(ls[1..]);
        var rest := ls[1 + n..];
        RecordsFollowHeaders(rest);
        DataRunStops(ls[1..]);
        HeaderIdsOfDataRun(ls[1..], n);
        assert ls[1..][n..] == rest;
        var r := FastaRecord(ls[0].id, Texts(ls[1..1 + n]));
        assert Records(ls) == [r] + Records(rest);
        RecordIdsAppend([r], Records(rest));
      }
    }
  }

  /** The dict's keys are exactly the ids of the records. */
  lemma {:induction false} ToDictKeys(rs: seq<FastaRecord>)
    ensures forall k :: k in ToDict(rs) <==> k in RecordIds(rs)
    decreases |rs|
  {
    if rs != [] {
      var front := rs[..|rs| - 1];
      ToDictKeys(front);
      assert RecordIds(rs) == RecordIds(front) + [rs[|rs| - 1].id];
    }
  }

  /** For a repeated id the last record wins: the dict maps an id to the sequence of the
      last record carrying it. */
  lemma {:induction false} ToDictLastWins(rs: seq<FastaRecord>, j: nat)
    requires j < |rs| && forall i :: j < i < |rs| ==> rs[i].id != rs[j].id
    ensures rs[j].id in ToDict(rs) && ToDict(rs)[rs[j].id] == Concat(rs[j].data)
    decreases |rs|
  {
    if j < |rs| - 1 {
      ToDictLastWins(rs[..|rs| - 1], j);
    }
  }

  /** The keys of `read_fasta`'s dict are exactly the header ids of the file. */
  lemma FastaDictKeys(lines: seq<string>)
    ensures forall k :: k in FastaDict(lines) <==> k in HeaderIds(CleanLines(lines))
  {
    RecordsFollowHeaders(CleanLines(lines));
    ToDictKeys(Records(CleanLines(lines)));
  }

  /** A file without any header line gives an empty dict: data before the first header is
      dropped. */
  lemma FastaDictNoHeader(lines: seq<string>)
    requires HeaderIds(CleanLines(lines)) == []
    ensures FastaDict(lines) == map[]
  {
    FastaDictKeys(lines);
  }

  /** Each header maps to the concatenation of its data lines up to the next header; when the
      same header occurs again later, the later record's data wins. */
  lemma FastaDictValue(lines: seq<string>, j: nat)
    requires j < |Records(CleanLines(lines))|
    requires var rs := Records(CleanLines(lines)); forall i :: j < i < |rs| ==> rs[i].id != rs[j].id
    ensures var r := Records(CleanLines(lines))[j]; r.id in FastaDict(lines) && FastaDict(lines)[r.id] == Concat(r.data)
  {
    ToDictLastWins(Records(CleanLines(lines)), j);
  }

  // ---------------------------------------------------------------------------
  // convert_to_number
  // ---------------------------------------------------------------------------

  /** The value `convert_to_number` returns: an `int`, or a `float` shown as a real. */
  datatype Number = IntNumber(i: int) | FloatNumber(f: real)

  /** `convert_to_number(s)`: `int(s)` if that succeeds, else `float(s)` if that succeeds,
      else None. Python's float grammar is the parameter `parseFloat`. */
  function ConvertToNumber(s: string, parseFloat: string -> Option<real>): (r: Option<Number>)
    ensures ParseInt(s).Some? ==> r == Some(IntNumber(ParseInt(s).value))
    ensures ParseInt(s).None? && parseFloat(s).Some? ==> r == Some(FloatNumber(parseFloat(s).value))
    ensures r.None? <==> ParseInt(s).None? && parseFloat(s).None?
  {
    match ParseInt(s)
    case Some(i) => Some(IntNumber(i))
    case None =>
      match parseFloat(s)
      case Some(f) => Some(FloatNumber(f))
      case None => None
  }

  /** Any integer written out by `str` converts back to that integer, whatever `float`
      accepts. */
  lemma ConvertToNumberOfIntToString(n: int, parseFloat: string -> Option<real>)
    ensures ConvertToNumber(IntToString(n), parseFloat) == Some(IntNumber(n))
  {
    ParseIntOfIntToString(n);
  }
}
