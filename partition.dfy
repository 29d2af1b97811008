/** How `make_sparse_regression` splits the feature axis among its workers:
    the worker count, the width of each contiguous chunk of columns and the
    column at which each chunk starts. */
module Partition {
  import opened Stacking

  /** `min(cpu_count(), n_features)`: never more workers than columns. */
  function WorkerCount(cpuCount: nat, nFeatures: nat): (w: nat)
    ensures w <= cpuCount && w <= nFeatures
    ensures w == cpuCount || w == nFeatures
  {
    Min(cpuCount, nFeatures)
  }

  /** The offset of the last chunk leaves room for a whole chunk and the
      remainder of the division. */
  lemma LastOffset(nFeatures: nat, nThreads: nat)
    requires 1 <= nThreads
    ensures (nThreads - 1) * (nFeatures / nThreads) + nFeatures / nThreads + nFeatures % nThreads == nFeatures
  {
    var q := nFeatures / nThreads;
    assert (nThreads - 1) * q + q == nThreads * q;
  }

  /** Width of worker `t`'s chunk: `n_features // n_threads`, except the last
      worker, which takes whatever the others leave. */
  function ChunkWidth(nFeatures: nat, nThreads: nat, t: nat): nat
    requires 1 <= nThreads <= nFeatures && t < nThreads
  {
    var threadSize := nFeatures / nThreads;
    if t == nThreads - 1 then
      LastOffset(nFeatures, nThreads);
      nFeatures - t * threadSize
    else
      threadSize
  }

  /** The widths of all chunks, in worker order. */
  function Widths(nFeatures: nat, nThreads: nat): seq<nat>
    requires 1 <= nThreads <= nFeatures
  {
    seq(nThreads, t requires 0 <= t < nThreads => ChunkWidth(nFeatures, nThreads, t))
  }

  /** First column of worker `t`'s chunk. */
  function Offset(nFeatures: nat, nThreads: nat, t: nat): nat
    requires 1 <= nThreads
  {
    t * (nFeatures / nThreads)
  }

  /** Every chunk is non-empty; all but the last have width
      `n_features // n_threads`, and the last also takes the remainder. */
  lemma ChunkWidthValue(nFeatures: nat, nThreads: nat, t: nat)
    requires 1 <= nThreads <= nFeatures && t < nThreads
    ensures ChunkWidth(nFeatures, nThreads, t) >= 1
    ensures t < nThreads - 1 ==> ChunkWidth(nFeatures, nThreads, t) == nFeatures / nThreads
    ensures t == nThreads - 1 ==>
      ChunkWidth(nFeatures, nThreads, t) == nFeatures / nThreads + nFeatures % nThreads
  {
    LastOffset(nFeatures, nThreads);
    assert nFeatures / nThreads >= 1 by {
      assert nThreads * 1 <= nFeatures;
    }
  }

  /** The chunks before worker `t` cover exactly the columns before its offset. */
  lemma {:induction false} WidthPrefixSum(nFeatures: nat, nThreads: nat, t: nat)
    requires 1 <= nThreads <= nFeatures && t < nThreads
    ensures SumOf(Widths(nFeatures, nThreads)[..t]) == Offset(nFeatures, nThreads, t)
  {
    var ws := Widths(nFeatures, nThreads);
    if t > 0 {
      WidthPrefixSum(nFeatures, nThreads, t - 1);
      assert ws[..t][..t - 1] == ws[..t - 1];
      ChunkWidthValue(nFeatures, nThreads, t - 1);
      assert (t - 1) * (nFeatures / nThreads) + nFeatures / nThreads == t * (nFeatures / nThreads);
    }
  }

  /** The chunk widths add up to exactly `n_features`. */
  lemma WidthsSum(nFeatures: nat, nThreads: nat)
    requires 1 <= nThreads <= nFeatures
    ensures SumOf(Widths(nFeatures, nThreads)) == nFeatures
  {
    var ws := Widths(nFeatures, nThreads);
    WidthPrefixSum(nFeatures, nThreads, nThreads - 1);
    ChunkWidthValue(nFeatures, nThreads, nThreads - 1);
    LastOffset(nFeatures, nThreads);
    assert ws[..nThreads] == ws;
  }
}
