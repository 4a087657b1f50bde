/**
 * The file names under which `extract_embeddings` saves its embeddings:
 * `{data_type}_{model}_embs_layer{layer}_{reduction}.pt`, where `model` is the ProGen
 * model name or the ESM/Ankh version, and one file is written per (layer, reduction).
 */
module EmbeddingFiles {
  import opened PyText
  import opened Tensors

  /** One `torch.save(tensor, path)` of an embedding buffer: the file name and the N saved
      rows. */
  datatype SavedFile = SavedFile(name: string, rows: seq<Vec>)

  /** `f'{data_type}_{model}_embs_layer{layer}_{reduction}.pt'` */
  function FileName(dataType: string, model: string, layer: string, reduction: string): string {
    dataType + "_" + model + "_embs_layer" + layer + "_" + reduction + ".pt"
  }

  predicate NoUnderscore(s: string) {
    forall i :: 0 <= i < |s| ==> s[i] != '_'
  }

  /** The names the ESM and Ankh extractions save, layer-major: for every `layer[j]` the
      names for every `reduction[k]` in order. */
  function SaveNames(dataType: string, version: string, layers: seq<int>, reductions: seq<string>): (names: seq<string>)
    ensures |names| == |layers| * |reductions|
  {
    if layers == [] then []
    else
      SaveNames(dataType, version, layers[..|layers| - 1], reductions)
      + seq(|reductions|, k requires 0 <= k < |reductions| => FileName(dataType, version, IntToString(layers[|layers| - 1]), reductions[k]))
  }

  /** Slot (j, k) of the buffer is saved under the name of `layer[j]` and `reduction[k]`,
      at position `j * len(reduction) + k` of the save order. */
  lemma {:induction false} SaveNamesAt(dataType: string, version: string, layers: seq<int>, reductions: seq<string>, j: nat, k: nat)
    requires j < |layers| && k < |reductions|
    ensures j * |reductions| + k < |layers| * |reductions|
    ensures SaveNames(dataType, version, layers, reductions)[j * |reductions| + k]
      == FileName(dataType, version, IntToString(layers[j]), reductions[k])
    decreases |layers|
  {
    var front := layers[..|layers| - 1];
    var n := |reductions|;
    assert |layers| * n == |front| * n + n;
    if j < |front| {
      SaveNamesAt(dataType, version, front, reductions, j, k);
      assert layers[j] == front[j];
    } else {
      assert j * n == |front| * n;
    }
  }

  /** In `p + l + "_" + r + ".pt"` with no '_' in `l`, the first '_' at or after `|p|` is
      the one right after `l`. */
  lemma LayerEndsAtUnderscore(p: string, l: string, r: string)
    requires NoUnderscore(l)
    ensures (p + l + "_" + r + ".pt")[|p| + |l|] == '_'
    ensures forall i :: |p| <= i < |p| + |l| ==> (p + l + "_" + r + ".pt")[i] != '_'
  {
    var s := p + l + "_" + r + ".pt";
    forall i | |p| <= i < |p| + |l| ensures s[i] != '_' {
      assert s[i] == l[i - |p|];
    }
  }

  /** The layer text of a name ends at the first '_' after the fixed prefix, so two names
      with the same data type and model are equal only for the same layer and reduction. */
  lemma FileNameInjective(dataType: string, model: string, l1: string, r1: string, l2: string, r2: string)
    requires NoUnderscore(l1) && NoUnderscore(l2)
    requires FileName(dataType, model, l1, r1) == FileName(dataType, model, l2, r2)
    ensures l1 == l2 && r1 == r2
  {
    var p := dataType + "_" + model + "_embs_layer";
    var s1 := FileName(dataType, model, l1, r1);
    var s2 := FileName(dataType, model, l2, r2);
    assert s1 == p + l1 + "_" + r1 + ".pt";
    assert s2 == p + l2 + "_" + r2 + ".pt";
    LayerEndsAtUnderscore(p, l1, r1);
    LayerEndsAtUnderscore(p, l2, r2);
    assert |l1| == |l2|;
    assert l1 == s1[|p|..|p| + |l1|] == s2[|p|..|p| + |l2|] == l2;
    assert r1 == s1[|p| + |l1| + 1..|s1| - 3] == s2[|p| + |l2| + 1..|s2| - 3] == r2;
  }

  /** `str(layer)` never contains '_'. */
  lemma IntToStringNoUnderscore(n: int)
    ensures NoUnderscore(IntToString(n))
  {
  }

  /** Two slots are saved under the same name exactly when they have the same layer and the
      same reduction; a repeated (layer, reduction) pair overwrites its earlier file. */
  lemma SaveNamesCollide(dataType: string, version: string, layers: seq<int>, reductions: seq<string>, j1: nat, k1: nat, j2: nat, k2: nat)
    requires j1 < |layers| && k1 < |reductions| && j2 < |layers| && k2 < |reductions|
    ensures j1 * |reductions| + k1 < |layers| * |reductions| && j2 * |reductions| + k2 < |layers| * |reductions|
    ensures SaveNames(dataType, version, layers, reductions)[j1 * |reductions| + k1]
      == SaveNames(dataType, version, layers, reductions)[j2 * |reductions| + k2]
      <==> layers[j1] == layers[j2] && reductions[k1] == reductions[k2]
  {
    SaveNamesAt(dataType, version, layers, reductions, j1, k1);
    SaveNamesAt(dataType, version, layers, reductions, j2, k2);
    IntToStringNoUnderscore(layers[j1]);
    IntToStringNoUnderscore(layers[j2]);
    if FileName(dataType, version, IntToString(layers[j1]), reductions[k1])
      == FileName(dataType, version, IntToString(layers[j2]), reductions[k2]) {
      FileNameInjective(dataType, version, IntToString(layers[j1]), reductions[k1], IntToString(layers[j2]), reductions[k2]);
      IntToStringInjective(layers[j1], layers[j2]);
    }
  }
}
