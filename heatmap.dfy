/**
 * results_visualization/heatmap_creator.py, `collect_metrics` on a list of JSON result
 * files: one entry per distinct file name, classified by first match against fixed name
 * lists, then the table columns pandas derives from the entries, the `mlp` filter, and
 * the orders of the heatmap's axes.
 */
module Heatmap {
  import opened Results
  import opened PyText

  const ModelOrder: seq<string> := ["proteinbert", "progen2-small", "esm2_t33_650M_UR50D",
                                    "progen2-medium", "esm2_t36_3B_UR50D", "progen2-xlarge", "esm2_t48_15B_UR50D"]
  const LayerOrder: seq<string> := ["first", "quarter1", "middle", "quarter3", "last"]
  const ReductionOrder: seq<string> := ["mean", "cls"]
  const ReductionMethods: seq<string> := ["mean", "bos", "eos"]

  function HeadOrder(useMlp: bool): seq<string> {
    if useMlp then ["linear", "mlp"] else ["linear"]
  }

  // ---------------------------------------------------------------------------
  // Classifying a file name
  // ---------------------------------------------------------------------------

  /** `os.path.basename(path)`: what follows the last '/'. */
  function Basename(path: string): string {
    if path == [] || path[|path| - 1] == '/' then []
    else Basename(path[..|path| - 1]) + [path[|path| - 1]]
  }

  /** `next((m for m in order if m in name), None)` */
  function FirstMatch(order: seq<string>, name: string): Option<string>
    decreases |order|
  {
    if order == [] then None
    else if Contains(name, order[0]) then Some(order[0])
    else FirstMatch(order[1..], name)
  }

  /** The match is the earliest entry of the list that occurs in the name, wherever in the
      name it occurs; None exactly when no entry occurs. */
  lemma {:induction false} FirstMatchIsEarliest(order: seq<string>, name: string)
    ensures FirstMatch(order, name).None? <==> forall k :: 0 <= k < |order| ==> !Contains(name, order[k])
    ensures FirstMatch(order, name).Some? ==>
      exists k :: 0 <= k < |order| && order[k] == FirstMatch(order, name).value && Contains(name, order[k])
        && forall j :: 0 <= j < k ==> !Contains(name, order[j])
    decreases |order|
  {
    if order != [] && !Contains(name, order[0]) {
      FirstMatchIsEarliest(order[1..], name);
      if FirstMatch(order, name).Some? {
        var k :| 0 <= k < |order[1..]| && order[1..][k] == FirstMatch(order, name).value && Contains(name, order[1..][k])
          && forall j :: 0 <= j < k ==> !Contains(name, order[1..][j]);
        assert order[k + 1] == order[1..][k];
        assert forall j :: 0 < j < k + 1 ==> order[j] == order[1..][j - 1];
      }
      forall k | 0 < k < |order| ensures order[k] == order[1..][k - 1] {
      }
    }
  }

  /** List order decides, not position in the name: a name mentioning 'last' before
      'first' is classified as layer 'first'. */
  lemma ListOrderWins()
    ensures FirstMatch(LayerOrder, "last_first") == Some("first")
  {
    var name := "last_first";
    assert name[5..][..5] == "first";
    assert OccursAt(name, "first", 5);
    ContainsIff(name, "first");
  }

  // ---------------------------------------------------------------------------
  // Entries
  // ---------------------------------------------------------------------------

  /** A result file: its path and the `metrics` object of its JSON (empty when absent). */
  datatype JsonFile = JsonFile(path: string, metrics: map<string, real>)

  /** The metrics an entry carries for the task type. */
  datatype Metrics =
    | Classification(accuracy: Option<real>, mcc: Option<real>)
    | Regression(rmse: Option<real>, spearman: Option<real>)
    | NoMetrics

  datatype Entry = Entry(file: string, model: Option<string>, layer: Option<string>, reduction: Option<string>,
                         head: Option<string>, metrics: Metrics)

  /** `metrics.get(key, None)` */
  function Get(metrics: map<string, real>, key: string): Option<real> {
    if key in metrics then Some(metrics[key]) else None
  }

  /** The entry built for one file. */
  function MakeEntry(f: JsonFile, taskType: string, heads: seq<string>): Entry {
    var name := Basename(f.path);
    var metrics :=
      if taskType == "classification" then Classification(Get(f.metrics, "accuracy"), Get(f.metrics, "mcc"))
      else if taskType == "regression" then Regression(Get(f.metrics, "rmse"), Get(f.metrics, "spearman"))
      else NoMetrics;
    Entry(name, FirstMatch(ModelOrder, name), FirstMatch(LayerOrder, name), FirstMatch(ReductionMethods, name),
          FirstMatch(heads, name), metrics)
  }

  /** The file names of the entries `make` builds for `files`. */
  function Names(files: seq<JsonFile>, make: JsonFile -> Entry): set<string> {
    set i | 0 <= i < |files| :: make(files[i]).file
  }

  /** The entries the loop appends, `make` building each one: a file whose name an earlier
      file already had adds nothing. */
  function Dedup(files: seq<JsonFile>, make: JsonFile -> Entry): seq<Entry> {
    if files == [] then []
    else
      var front := files[..|files| - 1];
      var last := files[|files| - 1];
      Dedup(front, make) + (if make(last).file in Names(front, make) then [] else [make(last)])
  }

  /** The entry builder of one run. */
  function Maker(taskType: string, heads: seq<string>): JsonFile -> Entry {
    f => MakeEntry(f, taskType, heads)
  }

  /** The entries of `collect_metrics`. */
  function Collect(files: seq<JsonFile>, taskType: string, heads: seq<string>): seq<Entry> {
    Dedup(files, Maker(taskType, heads))
  }

  /** The names of the first `k` files, one more. */
  lemma NamesSnoc(files: seq<JsonFile>, make: JsonFile -> Entry, k: nat)
    requires k < |files|
    ensures Names(files[..k + 1], make) == Names(files[..k], make) + {make(files[k]).file}
  {
    var a := files[..k + 1];
    assert a[..k] == files[..k];
    forall n | n in Names(a, make) ensures n in Names(files[..k], make) + {make(files[k]).file} {
      var i :| 0 <= i < |a| && n == make(a[i]).file;
      if i < k {
        assert files[..k][i] == a[i];
      }
    }
  }

  /** One more file: its name joins the names seen, and its entry is appended unless the
      name was seen before. */
  lemma DedupSnoc(files: seq<JsonFile>, make: JsonFile -> Entry, k: nat)
    requires k < |files|
    ensures Names(files[..k + 1], make) == Names(files[..k], make) + {make(files[k]).file}
    ensures Dedup(files[..k + 1], make) ==
      Dedup(files[..k], make) + (if make(files[k]).file in Names(files[..k], make) then [] else [make(files[k])])
  {
    NamesSnoc(files, make, k);
    assert files[..k + 1][..k] == files[..k];
  }

  /** The loop over `json_files` with the set `seen_filenames` and the list `data`. */
  method CollectEntries(files: seq<JsonFile>, taskType: string, useMlp: bool) returns (data: seq<Entry>)
    ensures data == Collect(files, taskType, HeadOrder(useMlp))
  {
    var heads := if useMlp then ["linear", "mlp"] else ["linear"];
    ghost var make := Maker(taskType, heads);
    data := [];
    var seen: set<string> := {};
    var k := 0;
    while k < |files|
      invariant 0 <= k <= |files|
      invariant seen == Names(files[..k], make)
      invariant data == Dedup(files[..k], make)
    {
      var entry := MakeEntry(files[k], taskType, heads);
      var name := entry.file;
      assert entry == make(files[k]);
      DedupSnoc(files, make, k);
      if name !in seen {
        seen := seen + {name};
        data := data + [entry];
      }
      k := k + 1;
    }
    assert files[..k] == files;
  }

  /** Every entry carries the name of some file. */
  lemma {:induction false} DedupNames(files: seq<JsonFile>, make: JsonFile -> Entry)
    ensures forall e :: e in Dedup(files, make) ==> e.file in Names(files, make)
    decreases |files|
  {
    if files != [] {
      var n := |files| - 1;
      DedupNames(files[..n], make);
      NamesSnoc(files, make, n);
      assert files[..n + 1] == files;
    }
  }

  /** Every entry is built from a file that is the first with its name. */
  lemma {:induction false} DedupFrom(files: seq<JsonFile>, make: JsonFile -> Entry)
    ensures forall e :: e in Dedup(files, make) ==>
      exists i :: 0 <= i < |files| && e == make(files[i]) && e.file !in Names(files[..i], make)
    decreases |files|
  {
    if files != [] {
      var n := |files| - 1;
      var front := files[..n];
      DedupFrom(front, make);
      forall e | e in Dedup(files, make)
        ensures exists i :: 0 <= i < |files| && e == make(files[i]) && e.file !in Names(files[..i], make)
      {
        if e in Dedup(front, make) {
          var i :| 0 <= i < |front| && e == make(front[i]) && e.file !in Names(front[..i], make);
          assert front[..i] == files[..i];
          assert files[i] == front[i];
        } else {
          assert e == make(files[n]);
        }
      }
    }
  }

  /** No two entries share a file name. */
  lemma {:induction false} DedupDistinct(files: seq<JsonFile>, make: JsonFile -> Entry)
    ensures forall a, b :: 0 <= a < b < |Dedup(files, make)| ==> Dedup(files, make)[a].file != Dedup(files, make)[b].file
    decreases |files|
  {
    if files != [] {
      var n := |files| - 1;
      var front := files[..n];
      DedupDistinct(front, make);
      DedupNames(front, make);
      var c := Dedup(front, make);
      var all := Dedup(files, make);
      forall a, b | 0 <= a < b < |all| ensures all[a].file != all[b].file {
        assert all[a] == c[a];
        if b < |c| {
          assert all[b] == c[b];
        } else {
          assert c[a] in c;
        }
      }
    }
  }

  /** Every file's name gets an entry. */
  lemma {:induction false} DedupCovers(files: seq<JsonFile>, make: JsonFile -> Entry)
    ensures forall i :: 0 <= i < |files| ==> exists e :: e in Dedup(files, make) && e.file == make(files[i]).file
    decreases |files|
  {
    if files != [] {
      var n := |files| - 1;
      var front := files[..n];
      DedupCovers(front, make);
      var c := Dedup(front, make);
      var all := Dedup(files, make);
      forall i | 0 <= i < |files| ensures exists e :: e in all && e.file == make(files[i]).file {
        if i < n {
          assert files[i] == front[i];
          var e :| e in c && e.file == make(front[i]).file;
          assert e in all;
        } else if make(files[n]).file in Names(front, make) {
          var j :| 0 <= j < |front| && make(files[n]).file == make(front[j]).file;
          var e :| e in c && e.file == make(front[j]).file;
          assert e in all;
        } else {
          assert all[|all| - 1] == make(files[n]);
        }
      }
    }
  }

  /** Every entry of `collect_metrics` is built from the first file with its name. */
  lemma CollectFirstWins(files: seq<JsonFile>, taskType: string, heads: seq<string>)
    ensures forall e :: e in Collect(files, taskType, heads) ==>
      exists i :: (0 <= i < |files| && e == MakeEntry(files[i], taskType, heads)
                   && forall j :: 0 <= j < i ==> Basename(files[j].path) != Basename(files[i].path))
  {
    var make := Maker(taskType, heads);
    DedupFrom(files, make);
    forall e | e in Collect(files, taskType, heads)
      ensures exists i :: (0 <= i < |files| && e == MakeEntry(files[i], taskType, heads)
                           && forall j :: 0 <= j < i ==> Basename(files[j].path) != Basename(files[i].path))
    {
      var i :| 0 <= i < |files| && e == make(files[i]) && e.file !in Names(files[..i], make);
      forall j | 0 <= j < i ensures Basename(files[j].path) != Basename(files[i].path) {
        assert files[..i][j] == files[j];
        assert make(files[j]).file in Names(files[..i], make);
      }
    }
  }

  /** No two entries of `collect_metrics` share a file name. */
  lemma CollectDistinct(files: seq<JsonFile>, taskType: string, heads: seq<string>)
    ensures forall a, b :: 0 <= a < b < |Collect(files, taskType, heads)| ==>
      Collect(files, taskType, heads)[a].file != Collect(files, taskType, heads)[b].file
  {
    DedupDistinct(files, Maker(taskType, heads));
  }

  /** Some entry carries the file name. */
  predicate HasEntry(entries: seq<Entry>, name: string) {
    exists e :: e in entries && e.file == name
  }

  /** Every file's name has an entry of `collect_metrics`. */
  lemma CollectCovers(files: seq<JsonFile>, taskType: string, heads: seq<string>)
    ensures forall i :: 0 <= i < |files| ==> HasEntry(Collect(files, taskType, heads), Basename(files[i].path))
  {
    var make := Maker(taskType, heads);
    DedupCovers(files, make);
    forall i | 0 <= i < |files| ensures HasEntry(Collect(files, taskType, heads), Basename(files[i].path)) {
      var e :| e in Dedup(files, make) && e.file == make(files[i]).file;
      assert make(files[i]) == MakeEntry(files[i], taskType, heads);
      assert e in Collect(files, taskType, heads) && e.file == Basename(files[i].path);
    }
  }

  /** The file a collected entry was built from. */
  lemma CollectedFrom(files: seq<JsonFile>, taskType: string, heads: seq<string>, e: Entry) returns (i: nat)
    requires e in Collect(files, taskType, heads)
    ensures i < |files| && e == MakeEntry(files[i], taskType, heads)
  {
    DedupFrom(files, Maker(taskType, heads));
    i :| 0 <= i < |files| && e == MakeEntry(files[i], taskType, heads);
  }

  // ---------------------------------------------------------------------------
  // The table
  // ---------------------------------------------------------------------------

  /** `replace({'bos': 'cls', 'eos': 'cls'})` on one value. */
  function Rename(r: Option<string>): Option<string> {
    if r == Some("bos") || r == Some("eos") then Some("cls") else r
  }

  /** 'bos' and 'eos' both become 'cls' and 'mean' stays, so every reduction method ends up
      a label of the row axis; a missing value stays missing, and renaming twice changes
      nothing more. */
  lemma RenameReduction(r: Option<string>)
    ensures Rename(r).None? <==> r.None?
    ensures r.Some? && r.value in ReductionMethods ==>
      Rename(r).value in ReductionOrder && (Rename(r).value == "mean" <==> r.value == "mean")
    ensures Rename(Rename(r)) == Rename(r)
  {
  }

  /** A classification entry carries the file's 'accuracy' and 'mcc', a regression entry its
      'rmse' and 'spearman', each present exactly when the JSON holds that metric; any other
      task type adds no metric. */
  lemma EntryMetrics(f: JsonFile, taskType: string, heads: seq<string>)
    ensures var m := MakeEntry(f, taskType, heads).metrics;
      && (taskType == "classification" ==>
           (m.Classification?
            && (m.accuracy.Some? <==> "accuracy" in f.metrics) && (m.mcc.Some? <==> "mcc" in f.metrics)
            && (m.accuracy.Some? ==> m.accuracy.value == f.metrics["accuracy"])
            && (m.mcc.Some? ==> m.mcc.value == f.metrics["mcc"])))
      && (taskType == "regression" ==>
           (m.Regression?
            && (m.rmse.Some? <==> "rmse" in f.metrics) && (m.spearman.Some? <==> "spearman" in f.metrics)
            && (m.rmse.Some? ==> m.rmse.value == f.metrics["rmse"])
            && (m.spearman.Some? ==> m.spearman.value == f.metrics["spearman"])))
      && (taskType != "classification" && taskType != "regression" ==> m == NoMetrics)
    ensures MakeEntry(f, taskType, heads).file == Basename(f.path)
  {
  }

  /** `a + ' + ' + b` on two columns: missing when either value is. */
  function Label(a: Option<string>, b: Option<string>): (l: Option<string>)
    ensures l.Some? <==> a.Some? && b.Some?
    ensures l.Some? ==> l.value == a.value + " + " + b.value
  {
    if a.Some? && b.Some? then Some(a.value + " + " + b.value) else None
  }

  /** A row of the DataFrame: the entry with its reduction renamed, and the two label
      columns. */
  datatype Row = Row(entry: Entry, modelHead: Option<string>, layerReduction: Option<string>)

  function MakeRow(e: Entry): Row {
    var e' := e.(reduction := Rename(e.reduction));
    Row(e', Label(e'.model, e'.head), Label(e'.layer, e'.reduction))
  }

  /** `pd.DataFrame(data)` and its derived columns; a frame built from no entries has no
      'Reduction' column to read. */
  function Frame(entries: seq<Entry>): (r: Result<seq<Row>>)
    ensures r.Ok? ==> |r.value| == |entries|
    ensures r.Ok? ==> forall i :: 0 <= i < |entries| ==> r.value[i] == MakeRow(entries[i])
  {
    if entries == [] then Err(KeyError("Reduction"))
    else Ok(seq(|entries|, i requires 0 <= i < |entries| => MakeRow(entries[i])))
  }

  /** Whether the row's 'Model + Head' label contains 'mlp'. */
  predicate HasMlp(row: Row)
    requires row.modelHead.Some?
  {
    Contains(row.modelHead.value, "mlp")
  }

  /** The rows whose 'Model + Head' does not contain 'mlp'. */
  function WithoutMlp(rows: seq<Row>): seq<Row>
    requires forall i :: 0 <= i < |rows| ==> rows[i].modelHead.Some?
  {
    if rows == [] then []
    else
      var last := rows[|rows| - 1];
      WithoutMlp(rows[..|rows| - 1]) + (if HasMlp(last) then [] else [last])
  }

  /** `df[~df['Model + Head'].str.contains('mlp')]` when `use_mlp` is false; a missing label
      makes the mask non-boolean and `~` fails on it. */
  function DropMlp(rows: seq<Row>, useMlp: bool): Result<seq<Row>> {
    if useMlp then Ok(rows)
    else if exists i :: 0 <= i < |rows| && rows[i].modelHead.None? then Err(TypeError("bad operand type for unary ~: 'float'"))
    else Ok(WithoutMlp(rows))
  }

  /** The table `collect_metrics` pivots, or the error it raises first. */
  function Table(files: seq<JsonFile>, taskType: string, useMlp: bool): Result<seq<Row>> {
    var frame := Frame(Collect(files, taskType, HeadOrder(useMlp)));
    if frame.Err? then frame else DropMlp(frame.value, useMlp)
  }

  /** `collect_metrics(json_files, data_type, task_type, use_mlp)` up to the pivot. */
  method CollectMetrics(files: seq<JsonFile>, taskType: string, useMlp: bool) returns (r: Result<seq<Row>>)
    ensures r == Table(files, taskType, useMlp)
  {
    var data := CollectEntries(files, taskType, useMlp);
    var frame := Frame(data);
    if frame.Err? {
      return frame;
    }
    r := DropMlp(frame.value, useMlp);
  }

  /** The filter keeps exactly the rows whose label does not contain 'mlp'. */
  lemma {:induction false} WithoutMlpKeeps(rows: seq<Row>)
    requires forall i :: 0 <= i < |rows| ==> rows[i].modelHead.Some?
    ensures forall r :: r in WithoutMlp(rows) <==> r in rows && !HasMlp(r)
    decreases |rows|
  {
    if rows != [] {
      var n := |rows| - 1;
      WithoutMlpKeeps(rows[..n]);
      assert rows == rows[..n] + [rows[n]];
      assert WithoutMlp(rows) == WithoutMlp(rows[..n]) + (if HasMlp(rows[n]) then [] else [rows[n]]);
    }
  }

  /** With no label containing 'mlp', the filter keeps every row, in order. */
  lemma {:induction false} WithoutMlpKeepsAll(rows: seq<Row>)
    requires forall i :: 0 <= i < |rows| ==> rows[i].modelHead.Some? && !HasMlp(rows[i])
    ensures WithoutMlp(rows) == rows
    decreases |rows|
  {
    if rows != [] {
      var n := |rows| - 1;
      WithoutMlpKeepsAll(rows[..n]);
      assert rows == rows[..n] + [rows[n]];
    }
  }

  /** 'p' occurs in no model name but at its start, and not at all in ' + linear'. */
  lemma NoInnerP(m: string)
    requires m in ModelOrder || m == " + linear"
    ensures forall j :: 0 < j < |m| ==> m[j] != 'p'
    ensures m == " + linear" ==> m == [] || m[0] != 'p'
  {
  }

  /** No label built from a model name and the head 'linear' contains 'mlp'. */
  lemma NoMlpLabel(m: string)
    requires m in ModelOrder
    ensures !Contains(m + " + linear", "mlp")
  {
    var s := m + " + linear";
    ContainsIff(s, "mlp");
    if Contains(s, "mlp") {
      var i :| OccursAt(s, "mlp", i);
      assert s[i + 2] == s[i..i + 3][2] == 'p';
      NoInnerP(m);
      NoInnerP(" + linear");
      assert false;
    }
  }

  /** Without `use_mlp` the filter fails exactly when some row lacks a model or a head,
      and otherwise removes nothing, since no label of a model and the head 'linear'
      contains 'mlp'. */
  lemma MlpFilterKeepsAll(rows: seq<Row>)
    requires forall i :: 0 <= i < |rows| ==> rows[i].modelHead.Some? ==>
      exists m :: m in ModelOrder && rows[i].modelHead.value == m + " + linear"
    ensures DropMlp(rows, false).Err? <==> exists i :: 0 <= i < |rows| && rows[i].modelHead.None?
    ensures DropMlp(rows, false).Ok? ==> DropMlp(rows, false).value == rows
  {
    if DropMlp(rows, false).Ok? {
      forall i | 0 <= i < |rows| ensures !HasMlp(rows[i]) {
        var m :| m in ModelOrder && rows[i].modelHead.value == m + " + linear";
        NoMlpLabel(m);
      }
      WithoutMlpKeepsAll(rows);
    }
  }

  // ---------------------------------------------------------------------------
  // The axes
  // ---------------------------------------------------------------------------

  /** `[a + ' + ' + b for a in as_ for b in bs]`: major order on `as_`. */
  function Pairs(as_: seq<string>, bs: seq<string>): (ps: seq<string>)
    ensures |ps| == |as_| * |bs|
  {
    if as_ == [] then []
    else Pairs(as_[..|as_| - 1], bs) + seq(|bs|, k requires 0 <= k < |bs| => as_[|as_| - 1] + " + " + bs[k])
  }

  /** Label `j * len(bs) + k` pairs `as_[j]` with `bs[k]`. */
  lemma {:induction false} PairsAt(as_: seq<string>, bs: seq<string>, j: nat, k: nat)
    requires j < |as_| && k < |bs|
    ensures j * |bs| + k < |as_| * |bs|
    ensures Pairs(as_, bs)[j * |bs| + k] == as_[j] + " + " + bs[k]
    decreases |as_|
  {
    var front := as_[..|as_| - 1];
    var n := |bs|;
    assert |as_| * n == |front| * n + n;
    if j < |front| {
      PairsAt(front, bs, j, k);
      assert as_[j] == front[j];
    } else {
      assert j * n == |front| * n;
    }
  }

  /** The column order `model_head_order` and the row order `layer_reduction_order`. */
  function ModelHeadOrder(useMlp: bool): seq<string> {
    Pairs(ModelOrder, HeadOrder(useMlp))
  }

  function LayerReductionOrder(): seq<string> {
    Pairs(LayerOrder, ReductionOrder)
  }

  /** Ten row labels, layer-major; seven or fourteen column labels, model-major. */
  lemma AxisOrders(useMlp: bool)
    ensures |LayerReductionOrder()| == 10 && |ModelHeadOrder(useMlp)| == 7 * |HeadOrder(useMlp)|
    ensures forall j, k :: 0 <= j < 5 && 0 <= k < 2 ==> LayerReductionOrder()[j * 2 + k] == LayerOrder[j] + " + " + ReductionOrder[k]
    ensures forall j, k :: 0 <= j < 7 && 0 <= k < |HeadOrder(useMlp)| ==>
      && j * |HeadOrder(useMlp)| + k < |ModelHeadOrder(useMlp)|
      && ModelHeadOrder(useMlp)[j * |HeadOrder(useMlp)| + k] == ModelOrder[j] + " + " + HeadOrder(useMlp)[k]
  {
    forall j, k | 0 <= j < 5 && 0 <= k < 2 ensures LayerReductionOrder()[j * 2 + k] == LayerOrder[j] + " + " + ReductionOrder[k] {
      PairsAt(LayerOrder, ReductionOrder, j, k);
    }
    forall j, k | 0 <= j < 7 && 0 <= k < |HeadOrder(useMlp)|
      ensures && j * |HeadOrder(useMlp)| + k < |ModelHeadOrder(useMlp)|
              && ModelHeadOrder(useMlp)[j * |HeadOrder(useMlp)| + k] == ModelOrder[j] + " + " + HeadOrder(useMlp)[k]
    {
      PairsAt(ModelOrder, HeadOrder(useMlp), j, k);
    }
  }

  /** A match is an entry of its list. */
  lemma FirstMatchIn(order: seq<string>, name: string)
    ensures FirstMatch(order, name).Some? ==> FirstMatch(order, name).value in order
  {
    FirstMatchIsEarliest(order, name);
  }

  /** The model, layer and head of an entry come from their lists, and its reduction
      from the methods 'mean', 'bos' and 'eos'. */
  predicate Listed(e: Entry, heads: seq<string>) {
    && (e.model.Some? ==> e.model.value in ModelOrder)
    && (e.layer.Some? ==> e.layer.value in LayerOrder)
    && (e.reduction.Some? ==> e.reduction.value in ReductionMethods)
    && (e.head.Some? ==> e.head.value in heads)
  }

  /** Every entry is classified by the lists. */
  lemma EntryFromLists(f: JsonFile, taskType: string, heads: seq<string>)
    ensures Listed(MakeEntry(f, taskType, heads), heads)
  {
    var name := Basename(f.path);
    FirstMatchIn(ModelOrder, name);
    FirstMatchIn(LayerOrder, name);
    FirstMatchIn(ReductionMethods, name);
    FirstMatchIn(heads, name);
  }

  /** Every label the row of a classified entry carries is on the heatmap's axes, so
      reindexing keeps it. */
  lemma RowLabelsOnAxes(e: Entry, useMlp: bool)
    requires Listed(e, HeadOrder(useMlp))
    ensures MakeRow(e).layerReduction.Some? ==> MakeRow(e).layerReduction.value in LayerReductionOrder()
    ensures MakeRow(e).modelHead.Some? ==> MakeRow(e).modelHead.value in ModelHeadOrder(useMlp)
  {
    var heads := HeadOrder(useMlp);
    var row := MakeRow(e);
    if row.layerReduction.Some? {
      var j :| 0 <= j < 5 && LayerOrder[j] == e.layer.value;
      var k := if Rename(e.reduction).value == "mean" then 0 else 1;
      PairsAt(LayerOrder, ReductionOrder, j, k);
    }
    if row.modelHead.Some? {
      var j :| 0 <= j < 7 && ModelOrder[j] == e.model.value;
      var k :| 0 <= k < |heads| && heads[k] == e.head.value;
      PairsAt(ModelOrder, heads, j, k);
    }
  }

  /** Every label of a collected row is on the heatmap's axes. */
  lemma LabelsOnAxes(files: seq<JsonFile>, taskType: string, useMlp: bool, e: Entry)
    requires e in Collect(files, taskType, HeadOrder(useMlp))
    ensures MakeRow(e).layerReduction.Some? ==> MakeRow(e).layerReduction.value in LayerReductionOrder()
    ensures MakeRow(e).modelHead.Some? ==> MakeRow(e).modelHead.value in ModelHeadOrder(useMlp)
  {
    CollectFromLists(files, taskType, HeadOrder(useMlp));
    RowLabelsOnAxes(e, useMlp);
  }

  /** Every collected entry is classified by the lists. */
  lemma CollectFromLists(files: seq<JsonFile>, taskType: string, heads: seq<string>)
    ensures forall e :: e in Collect(files, taskType, heads) ==> Listed(e, heads)
  {
    forall e | e in Collect(files, taskType, heads) ensures Listed(e, heads) {
      var i := CollectedFrom(files, taskType, heads, e);
      EntryFromLists(files[i], taskType, heads);
    }
  }

  /** Without `use_mlp`, the table of entries classified by the lists is
      every entry, unless some entry lacks a model or a head. */
  lemma DropMlpOfListed(entries: seq<Entry>)
    requires entries != []
    requires forall i :: 0 <= i < |entries| ==> Listed(entries[i], HeadOrder(false))
    ensures DropMlp(Frame(entries).value, false).Ok? <==>
      forall i :: 0 <= i < |entries| ==> entries[i].model.Some? && entries[i].head.Some?
    ensures DropMlp(Frame(entries).value, false).Ok? ==> DropMlp(Frame(entries).value, false).value == Frame(entries).value
  {
    var rows := Frame(entries).value;
    forall i | 0 <= i < |rows| && rows[i].modelHead.Some?
      ensures exists m :: m in ModelOrder && rows[i].modelHead.value == m + " + linear"
    {
      assert rows[i] == MakeRow(entries[i]);
      assert entries[i].head.value in HeadOrder(false);
    }
    MlpFilterKeepsAll(rows);
    assert (exists i :: 0 <= i < |rows| && rows[i].modelHead.None?) <==>
           (exists i :: 0 <= i < |entries| && (entries[i].model.None? || entries[i].head.None?)) by {
      forall i | 0 <= i < |rows| ensures rows[i].modelHead.None? <==> entries[i].model.None? || entries[i].head.None? {
        assert rows[i] == MakeRow(entries[i]);
      }
    }
  }

  /** Without `use_mlp`, the table of a non-empty run is every collected entry, unless
      some file name matches no model or no head. */
  lemma TableWithoutMlp(files: seq<JsonFile>, taskType: string)
    requires Collect(files, taskType, HeadOrder(false)) != []
    ensures var entries := Collect(files, taskType, HeadOrder(false));
      Table(files, taskType, false).Ok? <==> forall i :: 0 <= i < |entries| ==> entries[i].model.Some? && entries[i].head.Some?
    ensures Table(files, taskType, false).Ok? ==>
      Table(files, taskType, false).value == Frame(Collect(files, taskType, HeadOrder(false))).value
  {
    var entries := Collect(files, taskType, HeadOrder(false));
    CollectFromLists(files, taskType, HeadOrder(false));
    forall i | 0 <= i < |entries| ensures Listed(entries[i], HeadOrder(false)) {
      assert entries[i] in entries;
    }
    DropMlpOfListed(entries);
  }
}
