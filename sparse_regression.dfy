/** The multi-worker generator behind `make_sparse_regression`: each worker
    draws a chunk of sparse columns and a partial target, the chunks are
    stitched together column-wise in worker order, the partial targets are
    summed, and the dense form marks every zero as missing.

    The random generator is not modelled: what worker `t` draws is given by
    `sample(Seed(t), width)`, a function of its seed and its chunk width,
    standing for the generator at the call's density `1 - sparsity`. */
module SparseRegression {
  import opened Wrappers
  import opened Stacking
  import opened Partition

  /** One column of a compressed-sparse-column chunk; `None` where no entry is stored. */
  type Column = seq<Option<real>>

  /** A cell of a dense array; `Missing` stands for NaN. */
  datatype Cell = Num(v: real) | Missing

  /** What one worker's generator yields: the sparse chunk, then one weight
      vector (`rng.random((n_samples, 1))`) per non-empty column, in column order. */
  datatype Draw = Draw(chunk: seq<Column>, weights: seq<seq<real>>)

  /** The returned design matrix: the row-compressed sparse matrix (kept as its
      columns), or the dense row-major array. */
  datatype Matrix =
    | Csr(nRows: nat, columns: seq<Column>)
    | Dense(nRows: nat, nCols: nat, cells: seq<Cell>)

  datatype Generated = Generated(X: Matrix, y: seq<real>)

  /** Why a call fails. With no features the worker count is 0 and the thread
      pool refuses to start with no workers (stacking no blocks would raise as
      well). A density `1 - sparsity` outside `[0, 1]` makes every worker's
      `sparse.random` raise, and collecting the first result re-raises it. */
  datatype GenerateError = NoWorkers | DensityOutOfRange

  const SEED_BASE: int := 1994
  const WEIGHT_SCALE: real := 0.2

  /** The fraction of stored entries asked of `sparse.random`. */
  function Density(sparsity: real): real
  {
    1.0 - sparsity
  }

  /** `sparse.random` accepts only densities in `[0, 1]`. */
  predicate DensityInRange(sparsity: real)
  {
    0.0 <= Density(sparsity) <= 1.0
  }

  /** Worker `t`'s generator seed. */
  function Seed(t: nat): int
  {
    SEED_BASE * t
  }

  // ---------------------------------------------------------------------------
  // Columns and their contributions to the target

  /** Number of stored entries of a column (`indptr[i + 1] - indptr[i]`). */
  function Stored(c: Column): nat
  {
    if c == [] then 0 else Stored(c[..|c| - 1]) + (if c[|c| - 1].Some? then 1 else 0)
  }

  /** A column has no stored entry exactly when all its entries are absent. */
  lemma {:induction false} StoredZero(c: Column)
    ensures Stored(c) == 0 <==> forall r :: 0 <= r < |c| ==> c[r] == None
  {
    if c != [] {
      var init := c[..|c| - 1];
      StoredZero(init);
      assert forall r :: 0 <= r < |init| ==> init[r] == c[r];
    }
  }

  /** Number of columns with at least one stored entry. */
  function CountNonEmpty(cols: seq<Column>): nat
  {
    if cols == [] then 0
    else CountNonEmpty(cols[..|cols| - 1]) + (if Stored(cols[|cols| - 1]) != 0 then 1 else 0)
  }

  lemma {:induction false} CountNonEmptyPrefix(cols: seq<Column>, i: nat)
    requires i <= |cols|
    ensures CountNonEmpty(cols[..i]) <= CountNonEmpty(cols)
  {
    if i < |cols| {
      CountNonEmptyPrefix(cols[..|cols| - 1], i);
      assert cols[..|cols| - 1][..i] == cols[..i];
    } else {
      assert cols[..i] == cols;
    }
  }

  /** The value `toarray()` gives an entry: absent entries read as zero. */
  function DenseValue(e: Option<real>): real
  {
    match e
    case None => 0.0
    case Some(v) => v
  }

  function Zeros(n: nat): seq<real>
  {
    seq(n, _ => 0.0)
  }

  function AddVec(a: seq<real>, b: seq<real>): seq<real>
    requires |a| == |b|
  {
    seq(|a|, i requires 0 <= i < |a| => a[i] + b[i])
  }

  /** `X[:, i].toarray() * w * 0.2` for one column and its weight vector. */
  function Contribution(c: Column, w: seq<real>): seq<real>
    requires |c| == |w|
  {
    seq(|c|, r requires 0 <= r < |c| => DenseValue(c[r]) * w[r] * WEIGHT_SCALE)
  }

  predicate ColumnsShaped(cols: seq<Column>, n: nat)
  {
    forall i :: 0 <= i < |cols| ==> |cols[i]| == n
  }

  predicate VectorsShaped(vs: seq<seq<real>>, n: nat)
  {
    forall k :: 0 <= k < |vs| ==> |vs[k]| == n
  }

  /** A draw for a chunk of `width` columns of `n` rows: one weight vector per
      non-empty column. */
  predicate DrawFits(d: Draw, n: nat, width: nat)
  {
    && |d.chunk| == width
    && ColumnsShaped(d.chunk, n)
    && VectorsShaped(d.weights, n)
    && |d.weights| == CountNonEmpty(d.chunk)
  }

  /** The generator yields draws of the requested shape for every seed. */
  ghost predicate SamplerFits(sample: (int, nat) -> Draw, n: nat)
  {
    forall seed: int, width: nat :: DrawFits(sample(seed, width), n, width)
  }

  /** One worker's target: starting from zeros, every non-empty column adds its
      contribution, weighted by the next unused weight vector; an empty column
      adds nothing and uses no weight vector. */
  function WorkerTarget(n: nat, cols: seq<Column>, ws: seq<seq<real>>): (y: seq<real>)
    requires ColumnsShaped(cols, n) && VectorsShaped(ws, n) && CountNonEmpty(cols) <= |ws|
    ensures |y| == n
  {
    if cols == [] then Zeros(n)
    else
      var init, last := cols[..|cols| - 1], cols[|cols| - 1];
      var prev := WorkerTarget(n, init, ws);
      if Stored(last) == 0 then prev
      else AddVec(prev, Contribution(last, ws[CountNonEmpty(init)]))
  }

  /** The columns that have at least one stored entry, in order. */
  function NonEmptyColumns(cols: seq<Column>): seq<Column>
  {
    if cols == [] then []
    else
      var init, last := cols[..|cols| - 1], cols[|cols| - 1];
      NonEmptyColumns(init) + (if Stored(last) != 0 then [last] else [])
  }

  lemma {:induction false} NonEmptyColumnsFacts(cols: seq<Column>, n: nat)
    requires ColumnsShaped(cols, n)
    ensures ColumnsShaped(NonEmptyColumns(cols), n)
    ensures CountNonEmpty(NonEmptyColumns(cols)) == CountNonEmpty(cols)
  {
    if cols != [] {
      var init, last := cols[..|cols| - 1], cols[|cols| - 1];
      NonEmptyColumnsFacts(init, n);
      var f := NonEmptyColumns(init);
      if Stored(last) != 0 {
        assert NonEmptyColumns(cols) == f + [last];
        assert (f + [last])[..|f|] == f;
      } else {
        assert NonEmptyColumns(cols) == f;
      }
    }
  }

  /** Only non-empty columns matter: dropping every empty column changes
      neither the target nor which weight vector each remaining column uses. */
  lemma {:induction false} TargetIgnoresEmptyColumns(n: nat, cols: seq<Column>, ws: seq<seq<real>>)
    requires ColumnsShaped(cols, n) && VectorsShaped(ws, n) && CountNonEmpty(cols) <= |ws|
    ensures ColumnsShaped(NonEmptyColumns(cols), n)
    ensures CountNonEmpty(NonEmptyColumns(cols)) == CountNonEmpty(cols)
    ensures WorkerTarget(n, cols, ws) == WorkerTarget(n, NonEmptyColumns(cols), ws)
  {
    NonEmptyColumnsFacts(cols, n);
    if cols != [] {
      var init, last := cols[..|cols| - 1], cols[|cols| - 1];
      TargetIgnoresEmptyColumns(n, init, ws);
      var f := NonEmptyColumns(init);
      if Stored(last) != 0 {
        assert NonEmptyColumns(cols) == f + [last];
        assert (f + [last])[..|f|] == f;
      } else {
        assert NonEmptyColumns(cols) == f;
      }
    }
  }

  /** A chunk with no stored entry at all contributes a zero target. */
  lemma {:induction false} EmptyChunkTargetIsZero(n: nat, cols: seq<Column>, ws: seq<seq<real>>)
    requires ColumnsShaped(cols, n) && VectorsShaped(ws, n) && CountNonEmpty(cols) <= |ws|
    requires forall i :: 0 <= i < |cols| ==> Stored(cols[i]) == 0
    ensures WorkerTarget(n, cols, ws) == Zeros(n)
  {
    if cols != [] {
      EmptyChunkTargetIsZero(n, cols[..|cols| - 1], ws);
    }
  }

  /** The accumulation loop of one worker. */
  method AccumulateTarget(n: nat, cols: seq<Column>, ws: seq<seq<real>>) returns (y: seq<real>)
    requires ColumnsShaped(cols, n) && VectorsShaped(ws, n) && CountNonEmpty(cols) <= |ws|
    ensures y == WorkerTarget(n, cols, ws)
  {
    y := Zeros(n);
    var k := 0;
    for i := 0 to |cols|
      invariant k == CountNonEmpty(cols[..i]) <= CountNonEmpty(cols)
      invariant y == WorkerTarget(n, cols[..i], ws)
    {
      assert cols[..i + 1][..i] == cols[..i];
      CountNonEmptyPrefix(cols, i + 1);
      var size := Stored(cols[i]);
      if size != 0 {
        y := AddVec(y, Contribution(cols[i], ws[k]));
        k := k + 1;
      }
    }
    assert cols[..|cols|] == cols;
  }

  /** Worker `t` (`random_csc(t)`): draws its chunk from the generator seeded
      with `1994 * t` and accumulates its partial target; `sparse.random`
      raises when the density is out of range. */
  method RandomCsc(nSamples: nat, nFeatures: nat, nThreads: nat, t: nat, sparsity: real, sample: (int, nat) -> Draw)
    returns (r: Result<(seq<Column>, seq<real>), GenerateError>)
    requires 1 <= nThreads <= nFeatures && t < nThreads
    requires SamplerFits(sample, nSamples)
    ensures r.Failure? <==> !DensityInRange(sparsity)
    ensures r.Failure? ==> r.error == DensityOutOfRange
    ensures r.Success? ==>
      var (x, y) := r.value;
      && |x| == ChunkWidth(nFeatures, nThreads, t) && ColumnsShaped(x, nSamples)
      && x == sample(Seed(t), ChunkWidth(nFeatures, nThreads, t)).chunk
      && CountNonEmpty(x) <= |sample(Seed(t), ChunkWidth(nFeatures, nThreads, t)).weights|
      && y == WorkerTarget(nSamples, x, sample(Seed(t), ChunkWidth(nFeatures, nThreads, t)).weights)
  {
    if !DensityInRange(sparsity) {
      return Failure(DensityOutOfRange);
    }
    var width := ChunkWidth(nFeatures, nThreads, t);
    var d := sample(Seed(t), width);
    assert DrawFits(d, nSamples, width);
    var y := AccumulateTarget(nSamples, d.chunk, d.weights);
    r := Success((d.chunk, y));
  }

  // ---------------------------------------------------------------------------
  // Summing the partial targets

  /** Sum of a sequence of reals. */
  function SumReals(s: seq<real>): real
  {
    if s == [] then 0.0 else SumReals(s[..|s| - 1]) + s[|s| - 1]
  }

  /** Element-wise sum of the workers' target vectors (`np.sum(..., axis=1)`
      after stacking them as columns). */
  function SumTargets(n: nat, ys: seq<seq<real>>): (y: seq<real>)
    requires VectorsShaped(ys, n)
    ensures |y| == n
  {
    if ys == [] then Zeros(n) else AddVec(SumTargets(n, ys[..|ys| - 1]), ys[|ys| - 1])
  }

  /** Entry `i` of the summed target is the sum of entry `i` of every worker's target. */
  lemma {:induction false} SumTargetsAt(n: nat, ys: seq<seq<real>>, i: nat)
    requires VectorsShaped(ys, n) && i < n
    ensures SumTargets(n, ys)[i] == SumReals(seq(|ys|, t requires 0 <= t < |ys| => ys[t][i]))
  {
    var col := seq(|ys|, t requires 0 <= t < |ys| => ys[t][i]);
    if ys != [] {
      var init := ys[..|ys| - 1];
      SumTargetsAt(n, init, i);
      assert col[..|ys| - 1] == seq(|init|, t requires 0 <= t < |init| => init[t][i]);
    }
  }

  lemma {:induction false} SumOfZeroTargets(n: nat, ys: seq<seq<real>>)
    requires VectorsShaped(ys, n)
    requires forall t :: 0 <= t < |ys| ==> ys[t] == Zeros(n)
    ensures SumTargets(n, ys) == Zeros(n)
  {
    if ys != [] {
      SumOfZeroTargets(n, ys[..|ys| - 1]);
    }
  }

  // ---------------------------------------------------------------------------
  // Dense conversion

  function DenseCell(e: Option<real>): Cell
  {
    Num(DenseValue(e))
  }

  /** Row `r` of the dense array. */
  function DenseRow(cols: seq<Column>, r: nat): seq<Cell>
    requires forall c :: 0 <= c < |cols| ==> r < |cols[c]|
  {
    seq(|cols|, c requires 0 <= c < |cols| => DenseCell(cols[c][r]))
  }

  /** `toarray()`: the row-major dense array, absent entries as zero. */
  function ToArray(nRows: nat, cols: seq<Column>): seq<Cell>
    requires ColumnsShaped(cols, nRows)
  {
    Concat(seq(nRows, r requires 0 <= r < nRows => DenseRow(cols, r)))
  }

  /** The dense array has one cell per row and column; cell `(r, c)` is at
      `r * n_cols + c` and holds entry `r` of column `c`. */
  lemma ToArrayAt(nRows: nat, cols: seq<Column>, r: nat, c: nat)
    requires ColumnsShaped(cols, nRows) && r < nRows && c < |cols|
    ensures |ToArray(nRows, cols)| == nRows * |cols|
    ensures r * |cols| + c < nRows * |cols|
    ensures ToArray(nRows, cols)[r * |cols| + c] == DenseCell(cols[c][r])
  {
    var rows := seq(nRows, r' requires 0 <= r' < nRows => DenseRow(cols, r'));
    ConcatLength(rows);
    ConcatAt(rows, r, c);
    SumOfConstant(Lengths(rows), |cols|);
    SumOfConstant(Lengths(rows)[..r], |cols|);
  }

  lemma ToArrayLength(nRows: nat, cols: seq<Column>)
    requires ColumnsShaped(cols, nRows)
    ensures |ToArray(nRows, cols)| == nRows * |cols|
  {
    var rows := seq(nRows, r' requires 0 <= r' < nRows => DenseRow(cols, r'));
    ConcatLength(rows);
    SumOfConstant(Lengths(rows), |cols|);
  }

  /** `arr[arr == 0] = np.nan` as a function of the array's contents. */
  function MaskZeros(s: seq<Cell>): seq<Cell>
  {
    seq(|s|, i requires 0 <= i < |s| => if s[i] == Num(0.0) then Missing else s[i])
  }

  /** Overwrites every zero cell with the missing marker, in place. */
  method ReplaceZerosWithMissing(a: array<Cell>)
    modifies a
    ensures a[..] == MaskZeros(old(a[..]))
  {
    for i := 0 to a.Length
      invariant forall k :: 0 <= k < i ==> a[k] == (if old(a[k]) == Num(0.0) then Missing else old(a[k]))
      invariant forall k :: i <= k < a.Length ==> a[k] == old(a[k])
    {
      if a[i] == Num(0.0) {
        a[i] := Missing;
      }
    }
  }

  /** What the dense form holds for one sparse entry: a stored non-zero value
      keeps its value; an absent entry and a stored zero both become missing. */
  function Densified(e: Option<real>): Cell
  {
    if e.Some? && e.value != 0.0 then Num(e.value) else Missing
  }

  /** Dense conversion keeps the shape and turns each entry into `Densified`. */
  lemma DenseConversionAt(nRows: nat, cols: seq<Column>, r: nat, c: nat)
    requires ColumnsShaped(cols, nRows) && r < nRows && c < |cols|
    ensures |MaskZeros(ToArray(nRows, cols))| == nRows * |cols|
    ensures r * |cols| + c < nRows * |cols|
    ensures MaskZeros(ToArray(nRows, cols))[r * |cols| + c] == Densified(cols[c][r])
  {
    ToArrayAt(nRows, cols, r, c);
  }

  /** Stored zeros cannot be told apart from absent entries once densified. */
  lemma ZeroIndistinguishableFromAbsent()
    ensures Densified(Some(0.0)) == Densified(None) == Missing
    ensures forall v: real :: v != 0.0 ==> Densified(Some(v)) == Num(v)
  {
  }

  // ---------------------------------------------------------------------------
  // The whole generator

  /** The chunk of every worker, in worker order. */
  function Chunks(nSamples: nat, nFeatures: nat, nThreads: nat, sample: (int, nat) -> Draw): seq<seq<Column>>
    requires 1 <= nThreads <= nFeatures
  {
    seq(nThreads, t requires 0 <= t < nThreads => sample(Seed(t), ChunkWidth(nFeatures, nThreads, t)).chunk)
  }

  /** The partial target of worker `t`, from the draw seeded with `1994 * t`. */
  function TargetOf(nSamples: nat, nFeatures: nat, nThreads: nat, sample: (int, nat) -> Draw, t: nat): (y: seq<real>)
    requires 1 <= nThreads <= nFeatures && SamplerFits(sample, nSamples) && t < nThreads
    ensures |y| == nSamples
  {
    var d := sample(Seed(t), ChunkWidth(nFeatures, nThreads, t));
    assert DrawFits(d, nSamples, ChunkWidth(nFeatures, nThreads, t));
    WorkerTarget(nSamples, d.chunk, d.weights)
  }

  /** The partial target of every worker, in worker order. */
  function Targets(nSamples: nat, nFeatures: nat, nThreads: nat, sample: (int, nat) -> Draw): (ys: seq<seq<real>>)
    requires 1 <= nThreads <= nFeatures && SamplerFits(sample, nSamples)
    ensures |ys| == nThreads && VectorsShaped(ys, nSamples)
  {
    seq(nThreads, t requires 0 <= t < nThreads => TargetOf(nSamples, nFeatures, nThreads, sample, t))
  }

  /** The stitched chunks have one column per feature, each of `n_samples` rows. */
  lemma StitchedShape(nSamples: nat, nFeatures: nat, nThreads: nat, sample: (int, nat) -> Draw)
    requires 1 <= nThreads <= nFeatures && SamplerFits(sample, nSamples)
    ensures Lengths(Chunks(nSamples, nFeatures, nThreads, sample)) == Widths(nFeatures, nThreads)
    ensures |Concat(Chunks(nSamples, nFeatures, nThreads, sample))| == nFeatures
    ensures ColumnsShaped(Concat(Chunks(nSamples, nFeatures, nThreads, sample)), nSamples)
  {
    var chunks := Chunks(nSamples, nFeatures, nThreads, sample);
    forall t | 0 <= t < nThreads
      ensures |chunks[t]| == ChunkWidth(nFeatures, nThreads, t)
      ensures ColumnsShaped(chunks[t], nSamples)
    {
      assert DrawFits(sample(Seed(t), ChunkWidth(nFeatures, nThreads, t)), nSamples, ChunkWidth(nFeatures, nThreads, t));
    }
    ConcatLength(chunks);
    WidthsSum(nFeatures, nThreads);
    ConcatShaped(chunks, nSamples);
  }

  lemma {:induction false} ConcatShaped(chunks: seq<seq<Column>>, n: nat)
    requires forall t :: 0 <= t < |chunks| ==> ColumnsShaped(chunks[t], n)
    ensures ColumnsShaped(Concat(chunks), n)
  {
    if chunks != [] {
      ConcatShaped(chunks[..|chunks| - 1], n);
    }
  }

  /** The specification of `make_sparse_regression` (multi-worker path). */
  function SparseRegressionOf(cpuCount: nat, nSamples: nat, nFeatures: nat, sparsity: real, asDense: bool, sample: (int, nat) -> Draw)
    : (r: Result<Generated, GenerateError>)
    requires cpuCount >= 1 && SamplerFits(sample, nSamples)
    ensures r.Failure? <==> nFeatures == 0 || !DensityInRange(sparsity)
    ensures r.Failure? ==> (r.error == NoWorkers <==> nFeatures == 0)
    ensures r.Success? ==> |r.value.y| == nSamples && (r.value.X.Dense? <==> asDense)
    ensures r.Success? && r.value.X.Csr? ==>
      r.value.X.nRows == nSamples && |r.value.X.columns| == nFeatures && ColumnsShaped(r.value.X.columns, nSamples)
    ensures r.Success? && r.value.X.Dense? ==>
      r.value.X.nRows == nSamples && r.value.X.nCols == nFeatures && |r.value.X.cells| == nSamples * nFeatures
  {
    if nFeatures == 0 then Failure(NoWorkers)
    else if !DensityInRange(sparsity) then Failure(DensityOutOfRange)
    else
      var nThreads := WorkerCount(cpuCount, nFeatures);
      StitchedShape(nSamples, nFeatures, nThreads, sample);
      var columns := Concat(Chunks(nSamples, nFeatures, nThreads, sample));
      var y := SumTargets(nSamples, Targets(nSamples, nFeatures, nThreads, sample));
      if asDense then
        ToArrayLength(nSamples, columns);
        Success(Generated(Dense(nSamples, nFeatures, MaskZeros(ToArray(nSamples, columns))), y))
      else
        Success(Generated(Csr(nSamples, columns), y))
  }

  /** `csr.toarray()` into a fresh array, then `arr[arr == 0] = nan` in place. */
  method DenseWithMissing(nRows: nat, cols: seq<Column>) returns (cells: seq<Cell>)
    requires ColumnsShaped(cols, nRows)
    ensures cells == MaskZeros(ToArray(nRows, cols))
    ensures |cells| == nRows * |cols|
  {
    var dense := ToArray(nRows, cols);
    var arr := new Cell[|dense|](i requires 0 <= i < |dense| => dense[i]);
    assert arr[..] == dense;
    ReplaceZerosWithMissing(arr);
    ToArrayLength(nRows, cols);
    cells := arr[..];
  }

  /** `make_sparse_regression`: the workers run one after another in
      partition order, which is the order their results are collected in. */
  method MakeSparseRegression(cpuCount: nat, nSamples: nat, nFeatures: nat, sparsity: real, asDense: bool, sample: (int, nat) -> Draw)
    returns (r: Result<Generated, GenerateError>)
    requires cpuCount >= 1 && SamplerFits(sample, nSamples)
    ensures r == SparseRegressionOf(cpuCount, nSamples, nFeatures, sparsity, asDense, sample)
    ensures r.Failure? <==> nFeatures == 0 || !DensityInRange(sparsity)
    ensures r.Success? ==> |r.value.y| == nSamples
  {
    if nFeatures == 0 {
      return Failure(NoWorkers);
    }
    var nThreads := WorkerCount(cpuCount, nFeatures);
    ghost var chunks := Chunks(nSamples, nFeatures, nThreads, sample);
    ghost var targets := Targets(nSamples, nFeatures, nThreads, sample);
    var xResults: seq<seq<Column>> := [];
    var yResults: seq<seq<real>> := [];
    for t := 0 to nThreads
      invariant t > 0 ==> DensityInRange(sparsity)
      invariant xResults == chunks[..t]
      invariant yResults == targets[..t]
    {
      var res := RandomCsc(nSamples, nFeatures, nThreads, t, sparsity, sample);
      if res.Failure? {
        return Failure(res.error);
      }
      xResults := xResults + [res.value.0];
      yResults := yResults + [res.value.1];
    }
    assert |yResults| == nThreads;
    assert xResults == chunks && yResults == targets;
    StitchedShape(nSamples, nFeatures, nThreads, sample);
    var columns := Concat(xResults);
    var y := SumTargets(nSamples, yResults);
    assert |columns| == nFeatures && |y| == nSamples;
    if asDense {
      var cells := DenseWithMissing(nSamples, columns);
      r := Success(Generated(Dense(nSamples, nFeatures, cells), y));
    } else {
      r := Success(Generated(Csr(nSamples, columns), y));
    }
  }

  /** Column `Offset(t) + j` of the stitched matrix is column `j` of worker
      `t`'s chunk: chunks are placed side by side in worker order, whichever
      worker finishes first. */
  lemma StitchedColumn(nSamples: nat, nFeatures: nat, nThreads: nat, sample: (int, nat) -> Draw, t: nat, j: nat)
    requires 1 <= nThreads <= nFeatures && SamplerFits(sample, nSamples)
    requires t < nThreads && j < ChunkWidth(nFeatures, nThreads, t)
    ensures Offset(nFeatures, nThreads, t) + j < nFeatures == |Concat(Chunks(nSamples, nFeatures, nThreads, sample))|
    ensures Concat(Chunks(nSamples, nFeatures, nThreads, sample))[Offset(nFeatures, nThreads, t) + j]
         == sample(Seed(t), ChunkWidth(nFeatures, nThreads, t)).chunk[j]
  {
    var chunks := Chunks(nSamples, nFeatures, nThreads, sample);
    StitchedShape(nSamples, nFeatures, nThreads, sample);
    assert |chunks[t]| == ChunkWidth(nFeatures, nThreads, t);
    ConcatAt(chunks, t, j);
    WidthPrefixSum(nFeatures, nThreads, t);
  }

  /** In the sparse result, column `Offset(t) + j` is column `j` of the chunk
      drawn by worker `t` from seed `1994 * t`. */
  lemma SparseResultColumn(cpuCount: nat, nSamples: nat, nFeatures: nat, sparsity: real, sample: (int, nat) -> Draw, t: nat, j: nat)
    requires cpuCount >= 1 && SamplerFits(sample, nSamples) && nFeatures >= 1 && DensityInRange(sparsity)
    requires t < WorkerCount(cpuCount, nFeatures) && j < ChunkWidth(nFeatures, WorkerCount(cpuCount, nFeatures), t)
    ensures Offset(nFeatures, WorkerCount(cpuCount, nFeatures), t) + j < nFeatures
    ensures SparseRegressionOf(cpuCount, nSamples, nFeatures, sparsity, false, sample).value.X.columns[Offset(nFeatures, WorkerCount(cpuCount, nFeatures), t) + j]
         == sample(Seed(t), ChunkWidth(nFeatures, WorkerCount(cpuCount, nFeatures), t)).chunk[j]
  {
    StitchedColumn(nSamples, nFeatures, WorkerCount(cpuCount, nFeatures), sample, t, j);
  }

  /** In the dense result, cell `(r, c)` is the stitched entry `(r, c)`
      densified: a stored non-zero keeps its value, anything else is missing. */
  lemma DenseResultCell(cpuCount: nat, nSamples: nat, nFeatures: nat, sparsity: real, sample: (int, nat) -> Draw, r: nat, c: nat)
    requires cpuCount >= 1 && SamplerFits(sample, nSamples) && DensityInRange(sparsity)
    requires r < nSamples && c < nFeatures
    ensures r * nFeatures + c < nSamples * nFeatures
    ensures SparseRegressionOf(cpuCount, nSamples, nFeatures, sparsity, true, sample).value.X.cells[r * nFeatures + c]
         == Densified(SparseRegressionOf(cpuCount, nSamples, nFeatures, sparsity, false, sample).value.X.columns[c][r])
  {
    var nThreads := WorkerCount(cpuCount, nFeatures);
    StitchedShape(nSamples, nFeatures, nThreads, sample);
    DenseConversionAt(nSamples, Concat(Chunks(nSamples, nFeatures, nThreads, sample)), r, c);
  }

  /** Entry `i` of the target is the sum over workers of entry `i` of their
      partial targets. */
  lemma ResultTargetAt(cpuCount: nat, nSamples: nat, nFeatures: nat, sparsity: real, asDense: bool, sample: (int, nat) -> Draw, i: nat)
    requires cpuCount >= 1 && SamplerFits(sample, nSamples) && nFeatures >= 1 && DensityInRange(sparsity) && i < nSamples
    ensures var ys := Targets(nSamples, nFeatures, WorkerCount(cpuCount, nFeatures), sample);
      SparseRegressionOf(cpuCount, nSamples, nFeatures, sparsity, asDense, sample).value.y[i]
      == SumReals(seq(|ys|, t requires 0 <= t < |ys| => ys[t][i]))
  {
    var ys := Targets(nSamples, nFeatures, WorkerCount(cpuCount, nFeatures), sample);
    SumTargetsAt(nSamples, ys, i);
  }

  /** With sparsity 1 (no entry stored anywhere) the target is all zeros and
      the dense form is entirely missing. */
  lemma FullySparseResult(cpuCount: nat, nSamples: nat, nFeatures: nat, sparsity: real, asDense: bool, sample: (int, nat) -> Draw)
    requires cpuCount >= 1 && SamplerFits(sample, nSamples) && nFeatures >= 1 && DensityInRange(sparsity)
    requires forall seed: int, width: nat, i :: 0 <= i < |sample(seed, width).chunk| ==> Stored(sample(seed, width).chunk[i]) == 0
    ensures SparseRegressionOf(cpuCount, nSamples, nFeatures, sparsity, asDense, sample).value.y == Zeros(nSamples)
    ensures asDense ==> forall k :: 0 <= k < nSamples * nFeatures ==>
      SparseRegressionOf(cpuCount, nSamples, nFeatures, sparsity, asDense, sample).value.X.cells[k] == Missing
  {
    var nThreads := WorkerCount(cpuCount, nFeatures);
    var ys := Targets(nSamples, nFeatures, nThreads, sample);
    forall t | 0 <= t < nThreads
      ensures ys[t] == Zeros(nSamples)
    {
      var d := sample(Seed(t), ChunkWidth(nFeatures, nThreads, t));
      assert DrawFits(d, nSamples, ChunkWidth(nFeatures, nThreads, t));
      EmptyChunkTargetIsZero(nSamples, d.chunk, d.weights);
    }
    SumOfZeroTargets(nSamples, ys);
    if asDense {
      var chunks := Chunks(nSamples, nFeatures, nThreads, sample);
      StitchedShape(nSamples, nFeatures, nThreads, sample);
      ConcatNoneStored(chunks);
      AllMissingWhenNoneStored(nSamples, Concat(chunks));
    }
  }

  /** A row-major index splits into a row below `nRows` and a column below `nCols`. */
  lemma SplitIndex(k: nat, nRows: nat, nCols: nat)
    requires k < nRows * nCols
    ensures nCols > 0 && k / nCols < nRows && k % nCols < nCols
    ensures (k / nCols) * nCols + k % nCols == k
  {
    assert nCols > 0;
  }

  /** Densifying columns that store nothing yields only missing cells. */
  lemma AllMissingWhenNoneStored(nRows: nat, cols: seq<Column>)
    requires ColumnsShaped(cols, nRows)
    requires forall c :: 0 <= c < |cols| ==> Stored(cols[c]) == 0
    ensures |MaskZeros(ToArray(nRows, cols))| == nRows * |cols|
    ensures forall k :: 0 <= k < nRows * |cols| ==> MaskZeros(ToArray(nRows, cols))[k] == Missing
  {
    ToArrayLength(nRows, cols);
    forall k | 0 <= k < nRows * |cols|
      ensures MaskZeros(ToArray(nRows, cols))[k] == Missing
    {
      SplitIndex(k, nRows, |cols|);
      var r, c := k / |cols|, k % |cols|;
      DenseConversionAt(nRows, cols, r, c);
      StoredZero(cols[c]);
    }
  }

  lemma {:induction false} ConcatNoneStored(chunks: seq<seq<Column>>)
    requires forall t, i :: 0 <= t < |chunks| && 0 <= i < |chunks[t]| ==> Stored(chunks[t][i]) == 0
    ensures forall c :: 0 <= c < |Concat(chunks)| ==> Stored(Concat(chunks)[c]) == 0
  {
    if chunks != [] {
      ConcatNoneStored(chunks[..|chunks| - 1]);
    }
  }
}
