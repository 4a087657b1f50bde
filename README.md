# plmfit bookkeeping core in Dafny

plmfit is a toolkit for fine-tuning protein language models (ProGen, ESM, Ankh) and for
extracting their embeddings. This project models the integer, sequence and string
bookkeeping that surrounds the neural networks, and proves what that bookkeeping
guarantees. The networks stay abstract: a backbone's forward pass is a function parameter
that returns a hidden-state stack, and a tokenizer is a vocabulary map plus an encode
function.

What is modelled, module by module:

- **`PyText`** (`py_text.dfy`): the Python semantics the code relies on:
  - `str.strip`, `startswith` and the substring test `a in b`;
  - `isdigit`, `int(s)` and `str(n)`;
  - indexing with negative indices.
- **`Results`** (`results.dfy`): `Option`, `Result`, and the Python exception kinds the code raises.
- **`Utils`** (`utils.dfy`): the functions of `plmfit/shared_utils/utils.py`:
  - `categorical_encode`, the ProGen-family encoder: a pad-filled `array2` whose row prefixes are overwritten in a loop;
  - `get_parameters` and `set_trainable_parameters`, over a `Parameter` class;
  - `read_fasta`, a line loop that is proved to return the dict of the file's header-delimited records;
  - `convert_to_number`.
- **`DataExplore`** (`data_explore.dfy`): `parse_fasta`, the single-record reader.
- **`FamilyEncoders`** (`family_encoders.dfy`): the ESM and Ankh `categorical_encode` methods.
- **`Batching`** (`batching.dfy`): `DataLoader(..., shuffle=False)` batches and the row counter `i += batch_size`. Batch `k` writes rows `[k·B, min(k·B + B, N))`.
- **`Tensors`** (`tensors.dfy`): hidden values as `real`, so that the mean and `mut_mean` divisions are exact.
- **`EmbeddingFiles`** (`embedding_files.dfy`): the saved file names `{data_type}_{model}_embs_layer{layer}_{reduction}.pt`.
- **`ProGen`** (`progen_extract.dfy`): `ProGenFamily.extract_embeddings`:
  - the layer description (`first`, `middle`, `last`, digits, `logits`);
  - the reductions, including the numeric fallback through `convert_to_number`;
  - the batch loop over an `array<Vec>` buffer.
- **`FanOut`** (`fan_out.dfy`): the ESM/Ankh reduction of one batch for every (layer, reduction) pair, as functions. This includes the in-place effect of `mut_mean` on the shared hidden-state stack.
- **`Extraction`** (`fan_out_extract.dfy`): the ESM/Ankh `extract_embeddings` loops over an `array3<Vec>` buffer, each method proved against the `FanOut` functions, and the save loop.
- **`LanguageModels`** (`language_model.dfy`): a class holding the `head`, `head_name` and `no_parameters` fields. It models `concat_task_specific_head` and the head check that starts `fine_tune`.
- **`Heads`** (`downstream_heads.dfy`): the task-specific heads as layer lists:
  - `MLP` layer construction and the `init_weights` index rule;
  - `LinearHead` construction and its forward branching;
  - the `AdapterLayer` chain.
- **`Heatmap`** (`heatmap.dfy`): `collect_metrics` up to the pivot:
  - first-match classification of file names;
  - de-duplication by file name;
  - the derived label columns;
  - the `mlp` filter;
  - the axis orders.

Behaviour of the code worth noting:

- Errors are the Python exceptions the code raises, such as `KeyError`, `ValueError`, `TypeError`, `IndexError` and `AssertionError`.
- `AdapterLayer.forward` has no residual connection.
- The ESM and Ankh encoders do not truncate. A sequence whose ids are longer than the row makes the copy fail.
- An unknown ProGen layer string selects the input embeddings `hidden_states[0]` and does not fail.
- The default ProGen `layer=11` is an int, so it fails at `layer.isdigit()`.
- `mut_mean` uses the one `mut_pos` list for every sequence. It also adds into the hidden state in place.
- Ankh has no `bos` branch.
- `fine_tune` without a head fails by assertion, or earlier by reading the never-assigned `head` attribute.

## Model

| member | source | states |
|---|---|---|
| PyText.LStripIsSuffix | plmfit/shared_utils/utils.py:113 | `lstrip` removes a prefix made only of white space and leaves a string that does not start with white space |
| PyText.RStripIsPrefix | plmfit/shared_utils/utils.py:113 | `rstrip` removes a suffix made only of white space and leaves a string that does not end with white space |
| PyText.Strip | plmfit/shared_utils/utils.py:113 | defines `line.strip()` as `lstrip` followed by `rstrip` over Python's white-space set |
| PyText.StripIsSlice | plmfit/shared_utils/utils.py:113 | `line.strip()` is a slice of the line; everything removed at either end is white space; the result neither starts nor ends with white space |
| PyText.StripUnchanged | plmfit/shared_utils/utils.py:113 | a line without white space at either end strips to itself |
| PyText.StripAllSpace | plmfit/shared_utils/utils.py:113-115 | a line of white space only strips to '' and is skipped as blank |
| PyText.ContainsIff | results_visualization/heatmap_creator.py:65-74 | `sub in s` holds exactly when `sub` occurs at some position of `s` |
| PyText.ParseInt | plmfit/shared_utils/utils.py:157 | `int(s)` succeeds only on a string that is not blank |
| PyText.NatToString | plmfit/models/pretrained_models.py:437 | `str(n)` of a natural number is a non-empty string of digits |
| PyText.IntToString | plmfit/models/pretrained_models.py:437 | `str(n)` of an int is non-empty and made of digits and '-' |
| PyText.DigitsValueOfNat | plmfit/models/pretrained_models.py:258 | the digit string `str(n)` has the value `n` |
| PyText.DigitStringIsGroups | plmfit/models/pretrained_models.py:258 | every string `isdigit()` accepts is a literal `int()` accepts |
| PyText.ParseIntOfIntToString | plmfit/shared_utils/utils.py:157 | `int(str(n)) == n` for every int |
| PyText.IntToStringInjective | plmfit/models/pretrained_models.py:437 | different layer numbers print differently |
| PyText.PyIndex | plmfit/models/pretrained_models.py:261 | `xs[i]` is defined exactly for `-n <= i < n`; a negative index counts from the end |
| Batching.NumBatches | plmfit/models/pretrained_models.py:220-221 | the loader yields the first `k` batches whose start reaches `N`; there are none exactly when `N == 0` |
| Batching.StartMono | plmfit/models/pretrained_models.py:283 | the counter `i` never decreases |
| Batching.Batch | plmfit/models/pretrained_models.py:233 | batch `k` holds sequences `start..end` in dataset order, and is never empty |
| Batching.CheckBatchSize | plmfit/models/pretrained_models.py:220-221 | the loader accepts a batch size exactly when it is positive |
| Batching.BatchEndBefore | plmfit/models/pretrained_models.py:266-283 | an earlier batch's rows end at or before a later batch's first row |
| Batching.BatchesDisjoint | plmfit/models/pretrained_models.py:266-283 | two different batches never write the same buffer row |
| Batching.BatchesContiguous | plmfit/models/pretrained_models.py:266-283 | each batch ends where the next starts; the last one ends at `N`, also when `B` does not divide `N` |
| Batching.BatchLen | plmfit/models/pretrained_models.py:233-266 | a batch has between 1 and `B` sequences, exactly its row range |
| Batching.BatchesCover | plmfit/models/pretrained_models.py:226-283 | every row below `N` is written by some batch |
| Batching.StartShift | plmfit/models/pretrained_models.py:283 | each batch advances the counter by exactly `B` |
| Batching.BatchOf | plmfit/models/pretrained_models.py:266-283 | a row inside batch `c`'s range belongs to batch `c` and to no other |
| Batching.StartIsProduct | plmfit/models/pretrained_models.py:228-283 | after `k` batches the counter is `k·B` |
| Batching.NumBatchesIsCeiling | plmfit/models/pretrained_models.py:220-221 | the loader yields ⌈N/B⌉ batches |
| Batching.BatchIndexIsDiv | plmfit/models/pretrained_models.py:266 | row `r` sits at offset `r % B` of batch `r / B` |
| Batching.CounterEnd | plmfit/models/pretrained_models.py:228-283 | the counter ends at ⌈N/B⌉·B, the least multiple of `B` not below `N` |
| Batching.FilledAt | plmfit/models/pretrained_models.py:226-283 | the first `c` batches fill rows `[0, c·B)`, and all batches fill exactly `[0, N)` |
| Batching.CountedNext | plmfit/models/pretrained_models.py:283-285 | one more batch advances the counter by `B` and logs the new value |
| Tensors.Zeros | plmfit/models/pretrained_models.py:226 | `torch.zeros` gives a vector of width `D` whose entries are all 0 |
| Tensors.SumTokens | plmfit/models/pretrained_models.py:270 | the sum over the token axis has the hidden width |
| Tensors.MeanTokens | plmfit/models/pretrained_models.py:266 | the mean over the token axis has the hidden width |
| Tensors.SumTokensSnoc | plmfit/models/pretrained_models.py:270 | one more token adds its vector to the sum |
| Tensors.SumTokensSingle | plmfit/models/pretrained_models.py:270 | the sum over one token is that token |
| Tensors.ColumnSumOfConstant | plmfit/models/pretrained_models.py:270 | over `T` tokens that all carry the vector `v`, the sum is `T·v` |
| Tensors.MeanOfConstant | plmfit/models/pretrained_models.py:266 | the mean over tokens that all carry the vector `v` is `v` |
| EmbeddingFiles.SaveNames | plmfit/models/pretrained_models.py:433-437 | the save loop writes `len(layer)·len(reduction)` names |
| EmbeddingFiles.SaveNamesAt | plmfit/models/pretrained_models.py:433-437 | name number `j·len(reduction)+k` is the one for `layer[j]` and `reduction[k]` (layer-major order) |
| EmbeddingFiles.LayerEndsAtUnderscore | plmfit/models/pretrained_models.py:437 | in a saved name, the layer text ends at the first '_' after the fixed prefix |
| EmbeddingFiles.FileName | plmfit/models/pretrained_models.py:437 | defines the saved file name `{data_type}_{version}_embs_layer{layer}_{reduction}.pt` |
| EmbeddingFiles.FileNameInjective | plmfit/models/pretrained_models.py:437 | two names with the same data type and model are equal only for the same layer and the same reduction |
| EmbeddingFiles.IntToStringNoUnderscore | plmfit/models/pretrained_models.py:437 | `str(layer)` contains no '_' |
| EmbeddingFiles.SaveNamesCollide | plmfit/models/pretrained_models.py:433-437 | two slots share a file name exactly when they have the same layer and the same reduction, so a repeated pair overwrites its earlier file |
| Utils.PadTo | plmfit/shared_utils/utils.py:58-76 | a row is its tokens, then the pad id up to the full width |
| Utils.CoreTokensFit | plmfit/shared_utils/utils.py:67-72 | BOS, at most `max_len` ids and EOS always fit the width; the second cut at `internal_max_len` never removes a token |
| Utils.Encoding | plmfit/shared_utils/utils.py:50-81 | defines what `categorical_encode` returns row by row, or its KeyError: '<\|pad\|>' is looked up first, '<\|bos\|>' and '<\|eos\|>' only when there is a sequence and they are requested |
| Utils.EncodingShape | plmfit/shared_utils/utils.py:56-69 | the result has `len(seqs)` rows of `max_len + add_bos + add_eos` columns; it fails exactly when '<\|pad\|>' is missing, or '<\|bos\|>' / '<\|eos\|>' is missing while requested |
| Utils.EncodingRowLayout | plmfit/shared_utils/utils.py:58-76 | row `r` is the BOS id if requested, the first `min(len(ids), max_len)` ids of sequence `r`, the EOS id if requested, then the pad id |
| Utils.EncodingTruncates | plmfit/shared_utils/utils.py:67-72 | a sequence of `max_len + 5` ids keeps exactly its first `max_len` ids, with the specials around them and no padding |
| Utils.EncodingRowIsLocal | plmfit/shared_utils/utils.py:59-76 | each row depends only on its own sequence |
| Utils.WriteRowPrefix | plmfit/shared_utils/utils.py:76 | `seq_tokens[itr, :len] = row` overwrites that prefix and nothing else |
| Utils.CategoricalEncode | plmfit/shared_utils/utils.py:50-82 | the fill loop returns exactly the `Encoding` matrix, or the `KeyError` that `Encoding` gives |
| Utils.TotalNumelAppend | plmfit/shared_utils/utils.py:85-95 | counting parameters is additive over concatenated parameter lists |
| Utils.TotalNumelPermutation | plmfit/shared_utils/utils.py:88-93 | the count does not depend on the order of the parameters |
| Utils.GetParameters | plmfit/shared_utils/utils.py:85-95 | returns the total `numel` of all parameters, whatever `print_w_mat` is |
| Utils.SetTrainableParameters | plmfit/shared_utils/utils.py:98-103 | every parameter ends with `requires_grad` true, whatever `ft` is; nothing else changes |
| Utils.DataRunStops | plmfit/shared_utils/utils.py:123-126 | a run of data lines ends at a header or at the end of the file |
| Utils.RecordsSkipsData | plmfit/shared_utils/utils.py:125-126 | data lines before the first header belong to no record |
| Utils.ReadsAsRecordsAtHeader | plmfit/shared_utils/utils.py:117-122 | a header closes the open record and opens its own |
| Utils.ReadsAsRecordsAtData | plmfit/shared_utils/utils.py:123-126 | a data line extends the open record, if there is one |
| Utils.ReadingIsRecords | plmfit/shared_utils/utils.py:111-130 | reading line by line yields exactly the header-delimited records |
| Utils.CleanLinesFrom | plmfit/shared_utils/utils.py:112-115 | the stripped non-blank lines from line `n` on start with line `n`'s own |
| Utils.ReadBlank | plmfit/shared_utils/utils.py:113-115 | a blank line changes nothing |
| Utils.ReadHeader | plmfit/shared_utils/utils.py:117-122 | a header line completes the open record and starts an empty one |
| Utils.ReadData | plmfit/shared_utils/utils.py:123-126 | a data line is appended to the open record, or ignored when none is open |
| Utils.ToDictSnoc | plmfit/shared_utils/utils.py:120 | storing a record sets its id to the joined data, replacing an earlier value |
| Utils.ReadFasta | plmfit/shared_utils/utils.py:106-132 | the line loop returns exactly the dict of the file's records |
| Utils.HeaderIdsOfDataRun | plmfit/shared_utils/utils.py:123-126 | data lines add no header ids |
| Utils.RecordsFollowHeaders | plmfit/shared_utils/utils.py:117-126 | there is one record per header line, in file order |
| Utils.ToDictKeys | plmfit/shared_utils/utils.py:120 | the dict's keys are exactly the record ids |
| Utils.ToDictLastWins | plmfit/shared_utils/utils.py:120 | for a repeated id, the last record with that id wins |
| Utils.FastaDict | plmfit/shared_utils/utils.py:106-132 | defines the dict `read_fasta` returns: the records of the stripped non-blank lines, each id mapped to its joined data lines |
| Utils.FastaDictKeys | plmfit/shared_utils/utils.py:106-132 | the keys of `read_fasta` are exactly the header ids of the file |
| Utils.FastaDictNoHeader | plmfit/shared_utils/utils.py:125-132 | a file without a header gives `{}` |
| Utils.FastaDictValue | plmfit/shared_utils/utils.py:117-130 | each header maps to the join of its data lines up to the next header; a header with none maps to ''; the last duplicate wins |
| Utils.ConvertToNumber | plmfit/shared_utils/utils.py:154-164 | the int when `int(s)` succeeds, else the float when `float(s)` does, else None; None exactly when both fail |
| Utils.ConvertToNumberOfIntToString | plmfit/shared_utils/utils.py:154-157 | `str(n)` converts back to the int `n`, whatever `float` accepts |
| DataExplore.ParseFasta | plmfit/shared_utils/data_explore.py:115-127 | the loop returns the last header's id and the join of all other stripped lines; `log` does not change the result |
| DataExplore.NoHeaderNoId | plmfit/shared_utils/data_explore.py:117-121 | without a header line the id is '' |
| DataExplore.LastHeaderIdIsLast | plmfit/shared_utils/data_explore.py:119-121 | the id is the stripped text after '>' of the last header line |
| DataExplore.ParseFastaOfEmpty | plmfit/shared_utils/data_explore.py:117-127 | an empty file gives ('', '') |
| DataExplore.DataConcatAppend | plmfit/shared_utils/data_explore.py:119-123 | the sequence is the in-order join over all non-header lines, including those before the first header |
| DataExplore.IndentedHeaderIsData | plmfit/shared_utils/data_explore.py:120-123 | a line with white space before its '>' is appended as data, and the id is unchanged |
| FamilyEncoders.FamilyWidth | plmfit/models/pretrained_models.py:483 | the ESM and Ankh widths (`max_len+2` and `max_len+1`) exceed `max_len` |
| FamilyEncoders.FamilyEncoding | plmfit/models/pretrained_models.py:482-487 | defines what the ESM and Ankh `categorical_encode` return: a KeyError without '<pad>', a failed copy when some id list is longer than the row, else each id list padded with '<pad>' to the family width |
| FamilyEncoders.FamilyEncodingShape | plmfit/models/pretrained_models.py:482-487 | the encoding succeeds exactly when '<pad>' exists and every id list fits; it then has one row per sequence at the family width; a missing '<pad>' raises KeyError |
| FamilyEncoders.FamilyRowLayout | plmfit/models/pretrained_models.py:482-487 | row `r` is the tokenizer's full id list, untruncated, then '<pad>' ids |
| FamilyEncoders.EsmRowExtendsAnkh | plmfit/models/pretrained_models.py:604-609 | whatever Ankh encodes, ESM encodes with one more '<pad>' column |
| FamilyEncoders.AnkhRejectsEsmFullRow | plmfit/models/pretrained_models.py:604-609 | ids that fill `max_len+2` columns fit ESM but make the Ankh copy fail |
| FamilyEncoders.FamilyCategoricalEncode | plmfit/models/pretrained_models.py:482-487 | the fill loop returns exactly the `FamilyEncoding` matrix, or its error |
| FanOut.MeanRows | plmfit/models/pretrained_models.py:410 | `torch.mean(out[lay], dim=1)` gives one `D`-vector per sequence |
| FanOut.SumRows | plmfit/models/pretrained_models.py:412 | `torch.sum(out[lay], dim=1)` gives one `D`-vector per sequence |
| FanOut.TokenRows | plmfit/models/pretrained_models.py:414-418 | `out[lay][:, u]` gives one `D`-vector per sequence |
| FanOut.ResolvePositions | plmfit/models/pretrained_models.py:421-423 | the `mut_pos` indices resolve exactly when each is in range, negative ones from the end |
| FanOut.MutFold | plmfit/models/pretrained_models.py:422-423 | the accumulation changes token `f_pos` only |
| FanOut.MutMean | plmfit/models/pretrained_models.py:419-424 | the `mut_mean` branch leaves every token other than `mut_pos[0]` unchanged and yields one vector per sequence |
| FanOut.Stack | plmfit/models/pretrained_models.py:405 | defines the well-formed hidden-state stack of one forward pass: at least one tensor, each of shape (batch, tokens, D), with at least one token |
| FanOut.FanStep | plmfit/models/pretrained_models.py:409-426 | a reduction yields one vector per sequence; only `mut_mean` changes the stack |
| FanOut.LayerFan | plmfit/models/pretrained_models.py:408-426 | the reductions of one layer yield one block per reduction |
| FanOut.Fan | plmfit/models/pretrained_models.py:406-426 | a batch yields a `len(layer) × len(reduction)` grid of blocks |
| FanOut.StackTokens | plmfit/models/pretrained_models.py:405 | the token count is known exactly when the stack is well formed |
| FanOut.BatchSlots | plmfit/models/pretrained_models.py:405-426 | every slot of a batch is computed from that batch's single hidden-state stack |
| FanOut.BatchResult | plmfit/models/pretrained_models.py:403-426 | batch `q` yields `len(batch)` rows for every slot |
| FanOut.FanStepUnsupported | plmfit/models/pretrained_models.py:409-426 | a reduction reaches the final raise exactly when the family lacks a branch for it |
| FanOut.FamiliesDifferOnlyOnBos | plmfit/models/pretrained_models.py:573-588 | ESM and Ankh agree on every reduction except 'bos': Ankh raises on it, ESM takes token 0 |
| FanOut.Select | plmfit/models/pretrained_models.py:422-423 | the tokens of one sequence at the `mut_pos` positions, in order: one per position, each the token at that position |
| FanOut.MutFoldSums | plmfit/models/pretrained_models.py:422-423 | when no later position repeats the first, token `f_pos` ends as the sum of the tokens at all positions |
| FanOut.MutMeanIsMean | plmfit/models/pretrained_models.py:419-424 | with non-repeating positions, `mut_mean` writes the mean of the tokens at `mut_pos` |
| FanOut.MutMeanSeenByLaterReduction | plmfit/models/pretrained_models.py:419-424 | after `mut_mean`, token `mut_pos[0]` of that layer holds the sum, and a later reduction reading it sees the change |
| FanOut.MutMeanStep | plmfit/models/pretrained_models.py:419-424 | with resolvable positions, `mut_mean` writes the resolved rows and the changed layer back into the stack |
| FanOut.PosStep | plmfit/models/pretrained_models.py:417-418 | `pos<u>` for an in-range `u` reads token `u` and leaves the stack as it is |
| FanOut.MutMeanFrame | plmfit/models/pretrained_models.py:422-423 | `mut_mean` leaves the other layers, and the other tokens of its own layer, unchanged |
| FanOut.LayerFanErr | plmfit/models/pretrained_models.py:408-426 | once a reduction raises, the whole layer fails with that exception |
| FanOut.FanErr | plmfit/models/pretrained_models.py:406-426 | once a layer fails, the whole batch fails with that exception |
| FanOut.LayerFanNext | plmfit/models/pretrained_models.py:408-426 | one more reduction appends its block, or raises its exception |
| FanOut.FanNext | plmfit/models/pretrained_models.py:406-426 | one more layer appends its blocks, or raises its exception |
| FanOut.FanAdvance | plmfit/models/pretrained_models.py:406-426 | the result of layer `j` extends the grid, or is the whole batch's exception |
| Extraction.ApplyMutMean | plmfit/models/pretrained_models.py:419-424 | the in-place `mut_mean` loop computes exactly the `MutMean` rows and the changed tensor |
| Extraction.Reduce | plmfit/models/pretrained_models.py:409-426 | one pass of the reduction body computes exactly `FanStep`, running the `mut_mean` loop on the stack in place |
| Extraction.WriteSlot | plmfit/models/pretrained_models.py:410 | `embs[j,k,i:i+b] = rows` writes those cells and nothing else |
| Extraction.ReduceLayer | plmfit/models/pretrained_models.py:408-426 | the loop over reductions computes exactly `LayerFan` |
| Extraction.ReduceBatch | plmfit/models/pretrained_models.py:406-426 | the loops over layers and reductions compute exactly `Fan` |
| Extraction.WriteBlock | plmfit/models/pretrained_models.py:410-424 | writing one batch's grid sets its rows in every slot and nothing else |
| Extraction.Outcome | plmfit/models/pretrained_models.py:403-426 | a batch that succeeds yields a full grid of `len(batch)` rows per slot |
| Extraction.Slot | plmfit/models/pretrained_models.py:395-428 | slot `[j][k]` after `c` batches holds exactly the rows filled so far |
| Extraction.Save | plmfit/models/pretrained_models.py:433-439 | the save loop writes one file per slot, named after `layer[j]` and `reduction[k]` |
| Extraction.SaveOrder | plmfit/models/pretrained_models.py:433-437 | files are written layer by layer in the order `SaveNames` gives |
| Extraction.FillBatch | plmfit/models/pretrained_models.py:404-426 | a batch writes its rows into every slot, or reports the exception of `Outcome`; earlier rows are untouched |
| Extraction.SlotExtends | plmfit/models/pretrained_models.py:403-428 | a batch's rows written after the earlier ones complete the first `q+1` batches |
| Extraction.NextBatch | plmfit/models/pretrained_models.py:403-428 | unless the batch raises, the buffer afterwards holds its rows too |
| Extraction.Advance | plmfit/models/pretrained_models.py:403-429 | a loop pass either stops at the batch's exception, or advances `i` by `batch_size` and logs it |
| Extraction.LoopDone | plmfit/models/pretrained_models.py:403 | when the loop ends without error, every batch ran |
| Extraction.AllFilled | plmfit/models/pretrained_models.py:403-428 | after every batch, every slot holds the rows of every batch |
| Extraction.FillAll | plmfit/models/pretrained_models.py:395-429 | the batch loop from zeros ends at the first failing batch's exception, or with every slot complete |
| Extraction.Run | plmfit/models/pretrained_models.py:395-439 | the batch and save loops give the first exception, or one file per (layer, reduction) holding its slot |
| Extraction.ExtractEmbeddings | plmfit/models/pretrained_models.py:363-440 | a non-positive batch size raises ValueError; the logged counters are `(c+1)·batch_size`; otherwise, with scalars wrapped into lists, the result is what `Extracted` states |
| Extraction.AnkhExtractEmbeddings | plmfit/models/pretrained_models.py:553-561 | on an Ankh model object: a non-positive batch size raises ValueError and leaves `py_model` alone; otherwise `py_model` becomes the encoder stack, and the run is what `Extracted` states when it held the whole model, and an AttributeError when it already held the stack; head fields and parameter count unchanged |
| Extraction.AnkhExtractTwice | plmfit/models/pretrained_models.py:561 | on one freshly loaded Ankh model, the first extraction runs and a second one fails with AttributeError, whatever its arguments |
| ProGen.LayerIndex | plmfit/models/pretrained_models.py:246-258 | defines `selected_layer_index`: 'last', 'middle' and 'first' name blocks, a digit string is its number, any other string is 0, and an int layer fails at `isdigit` |
| ProGen.SelectOut | plmfit/models/pretrained_models.py:235-261 | defines `out`: the logits for 'logits', else the hidden state at `selected_layer_index` with Python indexing, or the IndexError |
| ProGen.NamedLayersOfThirteen | plmfit/models/pretrained_models.py:247-255 | with 13 hidden states, 'first', 'middle' and 'last' resolve to 1, 7 and 12 |
| ProGen.NamedLayersAreBlocks | plmfit/models/pretrained_models.py:247-255 | with at least one block, the named layers are blocks, in range, and in order `first <= middle <= last` |
| ProGen.NumberedLayer | plmfit/models/pretrained_models.py:256-261 | a digit string selects the hidden state it names |
| ProGen.UnknownLayerIsEmbeddings | plmfit/models/pretrained_models.py:256-261 | any other string selects `hidden_states[0]` |
| ProGen.IntLayerRaises | plmfit/models/pretrained_models.py:256-258 | an int layer, the default 11 included, fails at `layer.isdigit()` |
| ProGen.ProGenReduce | plmfit/models/pretrained_models.py:265-281 | every successful reduction yields one vector per sequence |
| ProGen.NumericReduction | plmfit/models/pretrained_models.py:277-279 | a numeric reduction `k` reads token `k` (from the end when negative) or raises IndexError; '0' equals 'bos' and '-1' equals 'eos' |
| ProGen.ReductionRejected | plmfit/models/pretrained_models.py:277-281 | ValueError is raised exactly for a non-keyword that is not a number; keywords always succeed |
| ProGen.Shape | plmfit/models/pretrained_models.py:263-281 | the shape (tokens, width) of the selected output exactly when it is a well-formed (batch, tokens, width) tensor with at least one token |
| ProGen.Outcome | plmfit/models/pretrained_models.py:233-281 | a successful batch yields `len(batch)` rows of width `D` |
| ProGen.IntLayerFailsFirstBatch | plmfit/models/pretrained_models.py:233-258 | with an int layer, a non-empty run fails in its first batch |
| ProGen.UnsupportedFailsFirstBatch | plmfit/models/pretrained_models.py:265-281 | an unsupported reduction fails the first batch with ValueError |
| ProGen.Written | plmfit/models/pretrained_models.py:226-283 | the rows written by the first `c` batches, as many as those batches filled |
| ProGen.WriteRows | plmfit/models/pretrained_models.py:266 | `embs[i:i+b] = rows` writes those rows only |
| ProGen.FillBatch | plmfit/models/pretrained_models.py:233-281 | a batch writes its rows at `i`, or reports its exception; earlier rows are untouched |
| ProGen.WrittenExtends | plmfit/models/pretrained_models.py:233-283 | a batch's rows written after the earlier ones complete the first `q+1` batches |
| ProGen.Advance | plmfit/models/pretrained_models.py:233-285 | a loop pass stops at the batch's exception, or advances `i` by `batch_size` and logs it |
| ProGen.LoopDone | plmfit/models/pretrained_models.py:233 | when the loop ends without error, every batch ran and the buffer is complete |
| ProGen.FillAll | plmfit/models/pretrained_models.py:226-285 | the batch loop ends at the first exception, or with every batch's rows in loader order |
| ProGen.ExtractEmbeddings | plmfit/models/pretrained_models.py:187-293 | a non-positive batch size raises ValueError; the logged counters are `(c+1)·batch_size`; otherwise one file named after layer and reduction holds all rows, or the first exception is raised |
| LanguageModels.LanguageModel.constructor | plmfit/models/pretrained_models.py:32-35 | a new model holds the whole loaded model, has `head_name` 'none', no head assigned, and the backbone's parameters counted |
| LanguageModels.LanguageModel.ConcatTaskSpecificHead | plmfit/models/pretrained_models.py:179-185 | ProGen stores the head and its class name and adds exactly the head's parameter count; a None head fails after the first two assignments; ESM and Ankh change nothing |
| LanguageModels.LanguageModel.FineTuneGuard | plmfit/models/pretrained_models.py:297-299 | fine-tuning fails unless a head is attached: AttributeError while `head` was never assigned, AssertionError for None; ESM then fails on `head_type` |
| LanguageModels.AttachThenFineTune | plmfit/models/pretrained_models.py:179-185 | after attaching a head, ProGen trains under the head's class name with the head counted; ESM still fails; Ankh returns at once |
| LanguageModels.FineTuneWithoutHead | plmfit/models/pretrained_models.py:297 | a fresh ProGen or ESM model cannot be fine-tuned |
| Heads.Forward | plmfit/models/downstream_heads.py:85-88 | defines `MLP.forward`: the layers applied to `x` one after the other in list order |
| Heads.ForwardAppend | plmfit/models/downstream_heads.py:85-88 | the forward pass applies the layers strictly in list order: running two lists one after the other equals running their concatenation |
| Heads.ChainWidthAppend | plmfit/models/downstream_heads.py:63-81 | the widths through a concatenation of layer lists compose |
| Heads.ChainWidthOne | plmfit/models/downstream_heads.py:66-73 | a Linear layer maps its input width to its output width; LayerNorm keeps its width; other layers keep any width |
| Heads.ChainWidthNeutral | plmfit/models/downstream_heads.py:67-70 | dropout and activation layers keep the width |
| Heads.ForwardLast | plmfit/models/downstream_heads.py:85-88 | the output is the last layer applied to what the earlier layers produce |
| Heads.InitPlan | plmfit/models/downstream_heads.py:93-103 | one initialisation rule per layer |
| Heads.MLPLayers | plmfit/models/downstream_heads.py:59-81 | defines the layer list `MLP.__init__` builds: Linear, Dropout, the optional hidden activation, Linear, and for a task containing 'classification' the output activation twice, or the KeyError of a missing `output_activation` |
| Heads.MLPLayersShape | plmfit/models/downstream_heads.py:63-81 | the list has `3 + [hidden act] + 2·[classification]` layers; a classification task without `output_activation` raises KeyError |
| Heads.MLPWidths | plmfit/models/downstream_heads.py:66-73 | the two Linear layers meet at `hidden_dim`: width `input_dim` in, width `output_dim` out |
| Heads.NoNearZeroInit | plmfit/models/downstream_heads.py:90-103 | index `len-2` is never a Linear layer, so every Linear layer, the output one included, gets Xavier |
| Heads.MLP.constructor | plmfit/models/downstream_heads.py:59-63 | a new MLP has its task and an empty layer list |
| Heads.MLP.Append | plmfit/models/downstream_heads.py:63-81 | appending adds the layer at the end and changes nothing else |
| Heads.MLP.InitWeights | plmfit/models/downstream_heads.py:90-103 | the loop assigns every layer the rule `InitPlan` gives |
| Heads.NewMLP | plmfit/models/downstream_heads.py:58-83 | `MLP(config)` has exactly the `MLPLayers` list and the `InitPlan` rules, or raises the KeyError that `MLPLayers` gives |
| Heads.MLPClassificationOutput | plmfit/models/downstream_heads.py:76-88 | for classification, the output is the output activation applied twice to the output Linear layer's result |
| Heads.NewLinearHead | plmfit/models/downstream_heads.py:8-20 | a single Linear(input_dim→output_dim), initialised near zero for 'classification'; the activation is set exactly for 'classification' with an `output_activation` |
| Heads.LinearForward | plmfit/models/downstream_heads.py:22-26 | defines `LinearHead.forward`: the linear layer, then the activation when the task is 'classification' and one is set |
| Heads.LinearHeadActivation | plmfit/models/downstream_heads.py:22-26 | the forward pass applies the activation exactly for task 'classification' with an activation configured, and otherwise returns the raw linear output |
| Heads.TaskTestsDiffer | plmfit/models/downstream_heads.py:76-81 | 'binary_classification' counts as classification for MLP (substring test) but not for LinearHead (equality test) |
| Heads.AdapterLayers | plmfit/models/downstream_heads.py:122-126 | the adapter runs five layers, starting with LayerNorm(in_features) |
| Heads.AdapterKeepsWidth | plmfit/models/downstream_heads.py:109-126 | width `in_features` goes down to `bottleneck_dim` and back to `in_features` |
| Heads.AdapterHasNoResidual | plmfit/models/downstream_heads.py:122-126 | the output depends on the input only through the LayerNorm; no residual is added |
| Heatmap.FirstMatch | results_visualization/heatmap_creator.py:65-74 | defines `next((m for m in order if m in name), None)` |
| Heatmap.FirstMatchIsEarliest | results_visualization/heatmap_creator.py:65-74 | the match is the earliest list entry occurring anywhere in the name; None exactly when no entry occurs |
| Heatmap.ListOrderWins | results_visualization/heatmap_creator.py:68 | list order decides: 'last_first' is classified as layer 'first' |
| Heatmap.FirstMatchIn | results_visualization/heatmap_creator.py:65-74 | a match is an entry of its list |
| Heatmap.EntryFromLists | results_visualization/heatmap_creator.py:63-89 | an entry's model, layer, reduction and head come from their lists |
| Heatmap.MakeEntry | results_visualization/heatmap_creator.py:63-97 | defines the entry built for one file: its base name, the first model, layer, reduction and head occurring in it, and the metrics of its task type |
| Heatmap.EntryMetrics | results_visualization/heatmap_creator.py:83-97 | classification entries carry accuracy and MCC, regression entries RMSE and Spearman, each None when absent; any other task carries none; the entry is keyed by the base name |
| Heatmap.DedupSnoc | results_visualization/heatmap_creator.py:77-80 | a file adds its name to the seen names, and adds an entry only if the name is new |
| Heatmap.CollectEntries | results_visualization/heatmap_creator.py:52-98 | the loop with `seen_filenames` builds exactly the de-duplicated entries |
| Heatmap.DedupNames | results_visualization/heatmap_creator.py:77-80 | every entry carries a file's name |
| Heatmap.DedupFrom | results_visualization/heatmap_creator.py:77-80 | every entry is built from the first file with its name |
| Heatmap.DedupDistinct | results_visualization/heatmap_creator.py:77-80 | no two entries share a file name |
| Heatmap.DedupCovers | results_visualization/heatmap_creator.py:77-80 | every file's name gets an entry |
| Heatmap.CollectFirstWins | results_visualization/heatmap_creator.py:77-80 | of files sharing a name, the first one's entry is kept |
| Heatmap.CollectDistinct | results_visualization/heatmap_creator.py:77-80 | the collected entries have distinct file names |
| Heatmap.CollectCovers | results_visualization/heatmap_creator.py:57-98 | every file's name has a collected entry |
| Heatmap.CollectedFrom | results_visualization/heatmap_creator.py:57-98 | each collected entry is the entry of some file |
| Heatmap.CollectFromLists | results_visualization/heatmap_creator.py:57-98 | every collected entry is classified by the lists |
| Heatmap.Rename | results_visualization/heatmap_creator.py:104 | defines `replace({'bos': 'cls', 'eos': 'cls'})` on one value |
| Heatmap.RenameReduction | results_visualization/heatmap_creator.py:104 | 'bos' and 'eos' become 'cls'; 'mean' stays; every reduction method lands on the row-axis labels; missing stays missing |
| Heatmap.Label | results_visualization/heatmap_creator.py:105-106 | `a + ' + ' + b` is present exactly when both parts are |
| Heatmap.Frame | results_visualization/heatmap_creator.py:101-106 | one row per entry with its derived labels; no entries fails with KeyError('Reduction') |
| Heatmap.CollectMetrics | results_visualization/heatmap_creator.py:42-113 | `collect_metrics` up to the pivot computes exactly `Table`: the filtered rows, or the first error |
| Heatmap.WithoutMlpKeeps | results_visualization/heatmap_creator.py:112-113 | the filter keeps exactly the rows whose label does not contain 'mlp' |
| Heatmap.WithoutMlpKeepsAll | results_visualization/heatmap_creator.py:112-113 | with no 'mlp' label, the filter keeps every row in order |
| Heatmap.NoMlpLabel | results_visualization/heatmap_creator.py:112-113 | no model name combined with 'linear' contains 'mlp' |
| Heatmap.DropMlp | results_visualization/heatmap_creator.py:112-113 | defines the `mlp` filter: nothing removed with `use_mlp`, else a TypeError when some label is missing, else the rows whose label does not contain 'mlp' |
| Heatmap.MlpFilterKeepsAll | results_visualization/heatmap_creator.py:112-113 | without `use_mlp`, the filter fails exactly when a label is missing, and otherwise removes nothing |
| Heatmap.DropMlpOfListed | results_visualization/heatmap_creator.py:112-113 | for classified entries, the filter succeeds exactly when every entry has a model and a head, and keeps them all |
| Heatmap.TableWithoutMlp | results_visualization/heatmap_creator.py:101-113 | without `use_mlp`, the table of a non-empty run is every collected row, unless a file matches no model or no head |
| Heatmap.Pairs | results_visualization/heatmap_creator.py:127-129 | the product list has `len(as)·len(bs)` labels |
| Heatmap.PairsAt | results_visualization/heatmap_creator.py:127-129 | label `j·len(bs)+k` is `as[j] + ' + ' + bs[k]`, major order on `as` |
| Heatmap.AxisOrders | results_visualization/heatmap_creator.py:127-129 | 10 row labels, layer-major; 7 or 14 column labels, model-major |
| Heatmap.RowLabelsOnAxes | results_visualization/heatmap_creator.py:104-133 | every label of a classified entry's row is on the heatmap's axes, so reindexing keeps it |
| Heatmap.LabelsOnAxes | results_visualization/heatmap_creator.py:104-133 | every label of a collected row is on the heatmap's axes |

## Left out

- Devices, autocast, the logger and timing, `os.makedirs`, and `torch.save`/`torch.load`: saving is modelled as returning the named buffers, and the read-back at `pretrained_models.py:289-292` is not modelled.
- Loading datasets, models and tokenizers (`utils.load_*`): the encoded sequences, the backbone's forward pass and the tokenizer are parameters of the model.
- Floating point: hidden values are exact reals, so rounding is not modelled. Python's `float()` grammar is the parameter `parseFloat`.
- Weight-initialisation distributions and all head arithmetic: a layer is a kind with its dimensions, and applying it is an uninterpreted function.
- `get_activation_function` is not part of this model (it is imported from `utils.py` but not defined there), so activations are kept by name. The same holds for `nn.relu` in `AdapterLayer.forward`, which torch does not define: the adapter's activation is kept as the layer kind 'relu', and the AttributeError that call would raise is not modelled.
- `CnnReg`: its convolution and pooling are outside the layer-list structure.
- A missing `task`, `input_dim` or similar config key in the heads: only the optional `output_activation` lookup is modelled as a KeyError.
- Unicode: `isdigit`, `int()` and `str.strip` are modelled over ASCII digits and Python's white-space set. Non-ASCII digits are not modelled.
- Utils.GetParameters: the counter `c` of parameters is not modelled, since it is never read.
- Antiberty, ProteinBERT and Sapies families, `plmfit.py`, the fine-tuning training loop, `normalized_score`, plotting, `PCA_2d`, `results_matrices.py` and `rbd_dms_evaluator.py`.
- The heatmap's SSH/SFTP download, JSON parsing, the CSV branch of `collect_metrics`, the duplicate report, pandas `pivot`/`reindex` and seaborn plotting: the model stops at the table that is pivoted, and states which labels its axes hold.
- LanguageModels.LanguageModel.constructor: the backbone's parameter list is given; for Ankh that list stands for the encoder's parameters only, as counted at `pretrained_models.py:521`.
- LanguageModels.LanguageModel.FineTuneGuard: models only the first step of `fine_tune`. `assert` statements removed by `python -O` are not modelled.
- FanOut.FanStep: a backbone output whose tensors do not have the shape (batch, tokens, D), which torch would reject or broadcast, is modelled as one error value (`ShapeMismatch`). So is an output with zero tokens, for which torch would give NaN for `mean`, zeros for `sum` and an IndexError for `eos`/`bos`/`pos`.
- ProGen.Outcome: follows the same rule as `FanOut.FanStep`. A mis-shaped or zero-token output (`ProGen.Shape` is None) is the one error value `ShapeMismatch`, not what torch would do with it.
