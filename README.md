# Test-support bookkeeping of the XGBoost Python test suite

This project models the sequential bookkeeping in `tests/python/testing.py`, the
test-support module of XGBoost's Python test suite, and proves properties of it in Dafny:

- **`make_sparse_regression`** (module `SparseRegression`, with `Partition` and
  `Stacking`). The feature axis is split among `min(cpu_count, n_features)`
  workers. Worker `t` seeds its generator with `1994 * t`, draws a chunk of sparse
  columns, and accumulates a partial target from its non-empty columns. The chunks
  are stitched column-wise in worker order and the partial targets are summed. On
  request, the dense array replaces every zero with NaN (`Cell.Missing`).
- **`TestDataset.set_params`**: an in-place update of the caller's parameter
  dictionary (class `TestDatasets.Params`).
- **`TestDataset.get_external_dmat`**: cuts the rows into ten batches of
  `n // 10 + 1` rows, guarded by `assert end != beg`, and wraps them in an
  `IteratorForTest`.
- **`IteratorForTest`** (module `DataIteration`): a class whose cursor `it` is
  advanced by `Next` and rewound by `Reset`.
- **`no_multiple`** (module `SkipConditions`): combines skip conditions.
- **The label rule of `make_categorical`** (module `Categorical`).

The random number generator is not modelled. What worker `t` draws is the value of a
function parameter `sample(seed, width)`. That value holds the sparse chunk and the
weight vectors (`rng.random((n_samples, 1))`), one per non-empty column, in the
order the loop consumes them. The thread pool becomes one sequential loop over
partition indices. Because the source collects results in submission order, the
outcome is the same. The model is a function of its inputs, so two runs with the
same parameters and the same worker count give identical results.

Facts about the batch guard, which the model makes precise:
- The guard rejects a batch only when the batch starts exactly at the end of the rows.
- This happens for every `n < 10`, for `n = 90`, and for some other sizes up to 90.
- It never happens for `n > 90`.
- A batch that starts beyond the end passes the guard as an empty slice. With 15
  rows, batch 8 is `[16, 15)`.

Where the source and its design description differ, the model follows the source:
- No argument is validated by the test module itself. The only range check is the
  one `sparse.random` makes on the density `1 - sparsity`, which must lie in
  `[0, 1]`. It fails inside every worker and is re-raised when the first result is
  collected (line 396). The model returns `Failure(DensityOutOfRange)`.
- `n_features = 0` fails because the worker count is then 0 and the thread pool
  refuses zero workers (line 389). Stacking no blocks would raise as well. The model
  returns `Failure(NoWorkers)`.
- The exception type is not modelled.

## Model

| member | source | states |
|---|---|---|
| `Stacking.Concat` | tests/python/testing.py:194-195 | computes the blocks laid end to end in order (`np.concatenate(..., axis=0)`, and `sparse.hstack` of column chunks at line 402) |
| `Partition.ChunkWidth` | tests/python/testing.py:367-371 | computes worker `t`'s width: `n_features // n_threads`, except the last worker takes `n_features - t * thread_size` |
| `Partition.Offset` | tests/python/testing.py:367 | computes the column at which worker `t`'s chunk starts, `t * thread_size` |
| `SparseRegression.Seed` | tests/python/testing.py:366 | computes worker `t`'s generator seed, `1994 * t` |
| `SparseRegression.Density` | tests/python/testing.py:376 | computes the density asked of `sparse.random`, `1 - sparsity` |
| `SparseRegression.DensityInRange` | tests/python/testing.py:373-378 | holds when `sparse.random` accepts the density, that is when it lies in `[0, 1]` |
| `SparseRegression.Stored` | tests/python/testing.py:382 | computes the number of stored entries of a column, `indptr[i + 1] - indptr[i]` |
| `SparseRegression.Contribution` | tests/python/testing.py:384 | computes one column's term, `X[:, i].toarray() * weights * 0.2`, with absent entries read as 0 |
| `SparseRegression.TargetOf` | tests/python/testing.py:365-386 | computes worker `t`'s partial target from the draw seeded with `1994 * t`; it has `n_samples` entries |
| `SparseRegression.Chunks` | tests/python/testing.py:388-398 | computes the list of chunks in submission order, worker `t`'s drawn from seed `1994 * t` with its chunk width |
| `SparseRegression.ToArray` | tests/python/testing.py:412 | computes `toarray()` of the stitched columns, row-major, with absent entries as 0 |
| `SparseRegression.MaskZeros` | tests/python/testing.py:413 | computes `arr[arr == 0] = nan` on values: zeros become missing, other cells are kept |
| `TestDatasets.PerBatch` | tests/python/testing.py:228 | computes `n_samples // n_batches + 1` with ten batches |
| `TestDatasets.BatchBegin` | tests/python/testing.py:233 | computes `beg = i * per_batch` |
| `TestDatasets.BatchEnd` | tests/python/testing.py:234 | computes `end = min((i + 1) * per_batch, n_samples)` |
| `TestDatasets.StartsAtEnd` | tests/python/testing.py:233-235 | holds when batch `i` starts exactly at `n`, where `end == beg` |
| `TestDatasets.GuardFails` | tests/python/testing.py:232-235 | holds when some of the ten batches trips `assert end != beg` |
| `TestDatasets.PySlice` | tests/python/testing.py:236-237 | computes Python's slice `s[beg:end]` for non-negative bounds: clamped to the length, empty when `beg >= end` |
| `TestDatasets.Batch` | tests/python/testing.py:236-237 | computes batch `i` of rows or labels, the slice `[beg, end)` |
| `TestDatasets.BatchesOf` | tests/python/testing.py:230-239 | computes the ten batches in order (`predictor`, `response`) |
| `TestDatasets.WithObjective` | tests/python/testing.py:210-211 | computes the dictionary after writing `objective` and `eval_metric` |
| `Categorical.RowSum` | tests/python/testing.py:317-320 | computes the sum of a row's codes over the given columns, as the label accumulates them |
| `Partition.WorkerCount` | tests/python/testing.py:362-363 | the worker count is `min(cpu_count, n_features)`: at most each, and equal to one of them |
| `Partition.ChunkWidthValue` | tests/python/testing.py:367-371 | every chunk has width at least 1; every chunk but the last has width `n_features // n_threads`; the last also takes the remainder `n_features % n_threads` |
| `Partition.WidthPrefixSum` | tests/python/testing.py:367-371 | the chunks before worker `t` cover exactly `t * (n_features // n_threads)` columns, so worker `t`'s chunk starts at that offset |
| `Partition.WidthsSum` | tests/python/testing.py:367-371 | the chunk widths sum to exactly `n_features` |
| `Stacking.ConcatLength` | tests/python/testing.py:402 | the stacked result is exactly as long as all blocks together |
| `Stacking.ConcatAt` | tests/python/testing.py:402 | element `j` of block `t` lands at the combined length of the earlier blocks plus `j`, so blocks keep their order and do not overlap |
| `SparseRegression.StoredZero` | tests/python/testing.py:382-383 | a column has no stored entries (`indptr[i+1] - indptr[i] == 0`) exactly when every entry is absent |
| `SparseRegression.WorkerTarget` | tests/python/testing.py:379-386 | a worker's partial target has one entry per sample |
| `SparseRegression.TargetIgnoresEmptyColumns` | tests/python/testing.py:381-384 | dropping every empty column changes neither the worker's target nor which weight vector each remaining column uses: empty columns contribute nothing and consume no draw |
| `SparseRegression.EmptyChunkTargetIsZero` | tests/python/testing.py:379-386 | a chunk with no stored entry yields the all-zero target |
| `SparseRegression.AccumulateTarget` | tests/python/testing.py:379-386 | the per-column loop computes `WorkerTarget`: zeros, plus each non-empty column times its weight vector times 0.2 |
| `SparseRegression.RandomCsc` | tests/python/testing.py:365-386 | fails exactly when the density is out of range; otherwise worker `t` returns the chunk drawn from seed `1994 * t` with its chunk width and `n_samples`-long columns, and the target accumulated from it |
| `SparseRegression.SumTargets` | tests/python/testing.py:403-405 | the summed target has `n_samples` entries |
| `SparseRegression.SumTargetsAt` | tests/python/testing.py:403-405 | entry `i` of the summed target is the sum over workers of entry `i` of their targets |
| `SparseRegression.SumOfZeroTargets` | tests/python/testing.py:403-405 | summing all-zero targets gives the all-zero target |
| `SparseRegression.Targets` | tests/python/testing.py:393-400 | one partial target per worker (`len(y_results) == n_threads`), each of `n_samples` entries |
| `SparseRegression.StitchedShape` | tests/python/testing.py:402-408 | the stitched matrix has `n_features` columns of `n_samples` rows, and its block widths are the partition's widths |
| `SparseRegression.StitchedColumn` | tests/python/testing.py:388-402 | column `Offset(t) + j` of the stitched matrix is column `j` of worker `t`'s chunk (submission order, not completion order) |
| `SparseRegression.ToArrayAt` | tests/python/testing.py:412 | `toarray()` has `n_rows * n_cols` cells; cell `r * n_cols + c` holds entry `r` of column `c`, with absent entries read as zero |
| `SparseRegression.ReplaceZerosWithMissing` | tests/python/testing.py:413 | in place, every zero cell becomes missing and every other cell is unchanged |
| `SparseRegression.DenseWithMissing` | tests/python/testing.py:411-413 | copies `toarray()` into a fresh array and masks its zeros in place; the resulting cells are `MaskZeros` of the row-major array, `n_rows * n_cols` of them |
| `SparseRegression.DenseConversionAt` | tests/python/testing.py:411-414 | dense conversion keeps the shape; each cell is the entry densified (stored non-zero keeps its value, anything else is missing) |
| `SparseRegression.ZeroIndistinguishableFromAbsent` | tests/python/testing.py:413 | a stored zero and an absent entry both become missing; a non-zero value is kept |
| `SparseRegression.AllMissingWhenNoneStored` | tests/python/testing.py:411-414 | densifying columns that store nothing yields only missing cells |
| `SparseRegression.SparseRegressionOf` | tests/python/testing.py:360-416 | fails with `NoWorkers` exactly when `n_features == 0`, and otherwise with `DensityOutOfRange` exactly when `1 - sparsity` is outside `[0, 1]`; otherwise the matrix has `n_samples` rows and `n_features` columns (dense: `n_samples * n_features` cells), is dense exactly when `as_dense`, and the target has `n_samples` entries |
| `SparseRegression.MakeSparseRegression` | tests/python/testing.py:360-416 | the sequential worker loop, stitching, summing and in-place dense conversion compute `SparseRegressionOf`; the first worker's failure is returned; it fails exactly when `n_features == 0` or the density is out of range; the target has `n_samples` entries |
| `SparseRegression.SparseResultColumn` | tests/python/testing.py:388-416 | in the sparse result, column `Offset(t) + j` is column `j` of the chunk worker `t` drew from seed `1994 * t` |
| `SparseRegression.DenseResultCell` | tests/python/testing.py:411-414 | cell `(r, c)` of the dense result is entry `(r, c)` of the sparse result, densified |
| `SparseRegression.ResultTargetAt` | tests/python/testing.py:403-409 | entry `i` of the returned target is the sum over workers of entry `i` of their partial targets |
| `SparseRegression.FullySparseResult` | tests/python/testing.py:379-414 | when nothing is stored anywhere (sparsity 1), the target is all zeros and every dense cell is missing |
| `SkipConditions.NoMultiple` | tests/python/testing.py:156-164 | the condition holds iff some argument's condition holds; the reason is that of the first firing argument, or `''` if none fires |
| `DataIteration.IteratorForTest.constructor` | tests/python/testing.py:174-179 | requires as many label batches as data batches; starts with the cursor at 0 |
| `DataIteration.IteratorForTest.Next` | tests/python/testing.py:181-188 | at the end it returns 0 and does not move; otherwise it delivers batch `it` with its labels, advances by one and returns 1 |
| `DataIteration.IteratorForTest.Reset` | tests/python/testing.py:190-191 | rewinds the cursor to 0 |
| `DataIteration.IteratorForTest.AsArrays` | tests/python/testing.py:193-196 | fails (`np.concatenate` of an empty list raises) exactly when there are no batches; otherwise both concatenated arrays are as long as their batches together, and element `j` of row batch `t` and of label batch `t` sits at its stacked position |
| `DataIteration.ConsumeAfterReset` | tests/python/testing.py:181-191 | after `reset`, exactly `len(X)` calls of `next` return 1, delivering every batch and its labels once in order, and the next call returns 0 |
| `TestDatasets.TruncToInt` | tests/python/testing.py:213 | `int()` truncates toward zero: the result is within 1 of the input, on the side of zero |
| `TestDatasets.MaxOf` | tests/python/testing.py:213 | `np.max` returns an element of the labels that is at least every label |
| `TestDatasets.SetParamsOf` | tests/python/testing.py:209-214 | fails exactly for `multi:softmax` with no labels. Otherwise it sets `objective` and `eval_metric` from the dataset, and `num_class = int(max(y) + 1)` only for `multi:softmax`. The key set grows by exactly those keys, and every other key keeps its value |
| `TestDatasets.SetParamsIdempotent` | tests/python/testing.py:209-214 | setting the parameters a second time changes nothing |
| `TestDatasets.SetParams` | tests/python/testing.py:209-214 | updates the caller's dictionary in place to `SetParamsOf` and returns that same dictionary; on failure `objective` and `eval_metric` have already been written |
| `TestDatasets.EndMeetsBegin` | tests/python/testing.py:233-235 | `end == beg` exactly when batch `i` starts at `n` |
| `TestDatasets.FirstBatchesAt` | tests/python/testing.py:232-239 | list entry `i` is batch `i`, the slice `[i * per_batch, min((i + 1) * per_batch, n))` |
| `TestDatasets.CutBatches` | tests/python/testing.py:226-239 | fails iff some of the ten batches starts exactly at `n`, reporting the first such batch; otherwise returns the ten slices of rows and of labels |
| `TestDatasets.GetExternalDmat` | tests/python/testing.py:225-241 | fails iff the guard trips; otherwise returns an iterator at position 0 over the ten row batches and label batches |
| `TestDatasets.BatchEmptiness` | tests/python/testing.py:233-237 | a batch holds rows iff it starts before `n`; a batch starting past `n` is empty yet passes the guard |
| `TestDatasets.SmallDatasetsFail` | tests/python/testing.py:226-235 | with fewer than ten rows the guard always trips |
| `TestDatasets.LargeDatasetsPass` | tests/python/testing.py:226-235 | with more than ninety rows the guard never trips |
| `TestDatasets.GuardExamples` | tests/python/testing.py:226-237 | 0 and 90 rows trip the guard; 15 rows pass even though batch 8 is `[16, 15)` and empty |
| `TestDatasets.BatchPrefix` | tests/python/testing.py:232-239 | the first `m` batches laid end to end are the rows before the `m`-th batch start, capped at `n` |
| `TestDatasets.BatchesCoverRows` | tests/python/testing.py:232-239 | the ten batches are contiguous, disjoint and in order, and cover every row. Concatenated they give back the rows, and also the labels when there are as many labels as rows |
| `TestDatasets.ExternalBatchesRoundTrip` | tests/python/testing.py:236-241 | `as_arrays` of the iterator built from the ten batches succeeds and gives back the dataset's rows and labels |
| `Categorical.MakeCategoricalLabel` | tests/python/testing.py:316-321 | the features are code columns 1 to `n_features`, and each label is the sum of all `n_features + 1` codes of its row plus 1 |
| `Categorical.RowSumBounds` | tests/python/testing.py:312-321 | with codes in `[0, n_categories)`, a row sum over `k` columns lies in `[0, k * (n_categories - 1)]` |
| `Categorical.LabelRange` | tests/python/testing.py:312-321 | every label lies in `[1, (n_features + 1) * (n_categories - 1) + 1]` |

## Left out

- The fallback path of `make_sparse_regression` for old numpy (`RandomState`, lines 347-358) is not modelled; it is an environment-capability branch with its own library calls.
- Random generation (`default_rng`, `sparse.random`, `rng.random`, `RandomState.randint`) is foreign code: its outputs are inputs to the model (`sample`, `codes`), required to have the requested shape.
- The thread pool is modelled as one sequential loop that runs each worker and collects its result in partition order; the separate submission and collection loops of the source are merged.
- Floating point: values are `real`, so rounding, NaN comparison semantics and `-0.0` are not modelled; NaN is the `Missing` cell.
- The sparse formats: a chunk and the result are kept as their sequence of columns (`None` for an absent entry); the CSC-to-CSR conversion of `hstack(..., format="csr")` is a change of representation and is not modelled.
- The density check is the only argument validation of `sparse.random` modelled; `sample` stands for the generator at the call's density, so how the density shapes the draw is not modelled, nor a NaN `sparsity`.
- DataIteration.IteratorForTest.constructor: the source's `assert len(X) == len(y)` is a precondition rather than a failure path; its only caller, `get_external_dmat`, always passes ten row batches and ten label batches.
- `multiprocessing.cpu_count()` is a parameter, at least 1; negative shape arguments are excluded by the types (`nat`).
- `get_external_dmat` builds an `xgb.DMatrix` from the iterator; that library construction is not modelled, and the method returns the iterator instead.
- `IteratorForTest.next` passes the batch to the library's `input_data` callback; the model returns it as an out-parameter. `.copy()` and `gc.collect()` have no counterpart.
- `make_categorical`: the pandas `category` dtype conversion and the one-hot encoding of the returned frame are not modelled; int64 overflow of the label is not modelled.
- `set_params`: labels are reals and dictionary values are limited to text, integers, floats and booleans.
- `TestDataset.get_dmat`, `get_device_dmat`, `__repr__` and the `w`/`margin` fields are library wrappers and are not modelled.
- The import-probing skip predicates (`no_ubjson` … `no_graphviz`, `skip_s390x`), dataset download and caching (`get_*`, `memory.cache`), `get_sparse`, `softmax`, `softprob_obj`, `eval_error_metric*`, `non_increasing`, the hypothesis strategies, `DirectoryExcursion` and `captured_output` are environment, I/O, floating-point or library code and are not modelled.
- `include/xgboost/objective.h` is an interface and registry declaration, not part of this model.
