/** `TestDataset`: a named dataset with the objective and metric it is trained
    with. It fills in training parameters and cuts its rows into ten batches
    for the external-memory iterator. */
module TestDatasets {
  import opened Wrappers
  import opened Stacking
  import opened DataIteration

  /** A value in a training-parameter dictionary. */
  datatype ParamValue = Text(s: string) | Integer(i: int) | Float(d: real) | Flag(b: bool)

  /** A dataset: its rows `X`, its labels `y`, and the objective and metric. */
  datatype TestDataset<R> = TestDataset(name: string, X: seq<R>, y: seq<real>, objective: string, metric: string)

  /** The parameter dictionary passed in by a test, which `SetParams` updates in place. */
  class Params {
    var entries: map<string, ParamValue>

    constructor (entries: map<string, ParamValue>)
      ensures this.entries == entries
    {
      this.entries := entries;
    }
  }

  const MULTI_SOFTMAX := "multi:softmax"

  /** `np.max` of an empty label array raises. */
  datatype SetParamsError = EmptyLabels

  /** Python's `int()` of a float: truncation toward zero. */
  function TruncToInt(x: real): (i: int)
    ensures x >= 0.0 ==> i as real <= x < i as real + 1.0
    ensures x < 0.0 ==> i as real - 1.0 < x <= i as real
  {
    if x >= 0.0 then x.Floor else -((-x).Floor)
  }

  /** `np.max` of a non-empty array. */
  function MaxOf(s: seq<real>): (m: real)
    requires |s| > 0
    ensures exists k :: 0 <= k < |s| && s[k] == m
    ensures forall k :: 0 <= k < |s| ==> s[k] <= m
  {
    if |s| == 1 then s[0]
    else
      var m := MaxOf(s[..|s| - 1]);
      if s[|s| - 1] > m then s[|s| - 1] else m
  }

  /** The two entries written unconditionally. */
  function WithObjective<R>(ds: TestDataset<R>, m: map<string, ParamValue>): map<string, ParamValue>
  {
    m["objective" := Text(ds.objective)]["eval_metric" := Text(ds.metric)]
  }

  /** What `set_params` leaves in the dictionary: `objective` and
      `eval_metric` from the dataset and, for `multi:softmax`, `num_class`
      as the largest label plus one. Every other key keeps its value. */
  function SetParamsOf<R>(ds: TestDataset<R>, m: map<string, ParamValue>): (r: Result<map<string, ParamValue>, SetParamsError>)
    ensures r.Failure? <==> ds.objective == MULTI_SOFTMAX && |ds.y| == 0
    ensures r.Success? ==>
      r.value.Keys == m.Keys + {"objective", "eval_metric"} + (if ds.objective == MULTI_SOFTMAX then {"num_class"} else {})
    ensures r.Success? ==> r.value["objective"] == Text(ds.objective) && r.value["eval_metric"] == Text(ds.metric)
    ensures r.Success? && ds.objective == MULTI_SOFTMAX ==>
      r.value["num_class"] == Integer(TruncToInt(MaxOf(ds.y) + 1.0))
    ensures r.Success? ==> forall k :: (k in m && k != "objective" && k != "eval_metric"
      && (k != "num_class" || ds.objective != MULTI_SOFTMAX)) ==> r.value[k] == m[k]
  {
    var written := WithObjective(ds, m);
    if ds.objective == MULTI_SOFTMAX then
      if |ds.y| == 0 then Failure(EmptyLabels)
      else Success(written["num_class" := Integer(TruncToInt(MaxOf(ds.y) + 1.0))])
    else
      Success(written)
  }

  /** Setting the parameters twice is the same as setting them once. */
  lemma SetParamsIdempotent<R>(ds: TestDataset<R>, m: map<string, ParamValue>)
    requires SetParamsOf(ds, m).Success?
    ensures SetParamsOf(ds, SetParamsOf(ds, m).value) == SetParamsOf(ds, m)
  {
    var once := SetParamsOf(ds, m).value;
    var twice := SetParamsOf(ds, once).value;
    assert twice.Keys == once.Keys;
    assert forall k :: k in once ==> twice[k] == once[k];
    assert twice == once;
  }

  /** `set_params`: updates the caller's dictionary in place and returns that
      same dictionary. When the labels are empty under `multi:softmax`, it
      raises after `objective` and `eval_metric` have already been written. */
  method SetParams<R>(ds: TestDataset<R>, params: Params) returns (r: Result<Params, SetParamsError>)
    modifies params
    ensures r.Success? ==> r.value == params
    ensures r.Failure? <==> SetParamsOf(ds, old(params.entries)).Failure?
    ensures r.Success? ==> params.entries == SetParamsOf(ds, old(params.entries)).value
    ensures r.Failure? ==> params.entries == WithObjective(ds, old(params.entries))
  {
    params.entries := params.entries["objective" := Text(ds.objective)];
    params.entries := params.entries["eval_metric" := Text(ds.metric)];
    if ds.objective == MULTI_SOFTMAX {
      if |ds.y| == 0 {
        return Failure(EmptyLabels);
      }
      params.entries := params.entries["num_class" := Integer(TruncToInt(MaxOf(ds.y) + 1.0))];
    }
    r := Success(params);
  }

  // ---------------------------------------------------------------------------
  // Batches for the external-memory iterator

  const N_BATCHES: nat := 10

  /** Rows per batch: `n // 10 + 1`. */
  function PerBatch(n: nat): nat
  {
    n / N_BATCHES + 1
  }

  function BatchBegin(n: nat, i: nat): nat
  {
    i * PerBatch(n)
  }

  /** `min((i + 1) * per_batch, n)`. */
  function BatchEnd(n: nat, i: nat): nat
  {
    Min(BatchBegin(n, i + 1), n)
  }

  lemma NextBegin(n: nat, i: nat)
    ensures BatchBegin(n, i + 1) == BatchBegin(n, i) + PerBatch(n)
  {
  }

  /** A batch is empty by the guard's test exactly when it starts at the end. */
  lemma EndMeetsBegin(n: nat, i: nat)
    ensures BatchEnd(n, i) == BatchBegin(n, i) <==> StartsAtEnd(n, i)
  {
    NextBegin(n, i);
  }

  /** Python's slice `s[beg:end]` for non-negative bounds: both bounds are
      clamped to the length, and a slice whose start is not before its end is empty. */
  function PySlice<T>(s: seq<T>, beg: nat, end: nat): (r: seq<T>)
  {
    var lo := if beg < |s| then beg else |s|;
    var hi := if end < |s| then end else |s|;
    if lo >= hi then [] else s[lo..hi]
  }

  /** Batch `i` starts exactly at the end of the rows. */
  predicate StartsAtEnd(n: nat, i: nat)
  {
    BatchBegin(n, i) == n
  }

  /** The `end != beg` assertion trips on some batch. */
  predicate GuardFails(n: nat)
  {
    exists i :: 0 <= i < N_BATCHES && StartsAtEnd(n, i)
  }

  /** Batch `i` of `s` for `n` rows: `s[i * per_batch : min((i + 1) * per_batch, n)]`. */
  function Batch<T>(s: seq<T>, n: nat, i: nat): seq<T>
  {
    PySlice(s, BatchBegin(n, i), BatchEnd(n, i))
  }

  /** The first `m` batches of `s` for `n` rows. */
  function FirstBatches<T>(s: seq<T>, n: nat, m: nat): (bs: seq<seq<T>>)
    ensures |bs| == m
  {
    if m == 0 then [] else FirstBatches(s, n, m - 1) + [Batch(s, n, m - 1)]
  }

  lemma {:induction false} FirstBatchesAt<T>(s: seq<T>, n: nat, m: nat, i: nat)
    requires i < m
    ensures FirstBatches(s, n, m)[i] == Batch(s, n, i)
  {
    if i < m - 1 {
      FirstBatchesAt(s, n, m - 1, i);
    }
  }

  /** The ten batches of `s` for `n` rows. */
  function BatchesOf<T>(s: seq<T>, n: nat): seq<seq<T>>
  {
    FirstBatches(s, n, N_BATCHES)
  }

  /** The assertion failed at batch `index`. */
  datatype BatchError = EmptyBatch(index: nat)

  /** The loop of `get_external_dmat`: cuts rows and labels into ten
      batches. The `end != beg` guard rejects a batch exactly when it starts
      at the end of the rows, and the first such batch stops the loop. */
  method CutBatches<R>(X: seq<R>, y: seq<real>) returns (r: Result<(seq<seq<R>>, seq<seq<real>>), BatchError>)
    ensures r.Failure? <==> GuardFails(|X|)
    ensures r.Failure? ==>
      && r.error.index < N_BATCHES && StartsAtEnd(|X|, r.error.index)
      && forall j :: 0 <= j < r.error.index ==> !StartsAtEnd(|X|, j)
    ensures r.Success? ==> r.value == (BatchesOf(X, |X|), BatchesOf(y, |X|))
  {
    var n := |X|;
    var predictor: seq<seq<R>> := [];
    var response: seq<seq<real>> := [];
    for i := 0 to N_BATCHES
      invariant predictor == FirstBatches(X, n, i) && response == FirstBatches(y, n, i)
      invariant forall j :: 0 <= j < i ==> !StartsAtEnd(n, j)
    {
      var beg := BatchBegin(n, i);
      var end := BatchEnd(n, i);
      EndMeetsBegin(n, i);
      if end == beg {
        assert StartsAtEnd(n, i);
        return Failure(EmptyBatch(i));
      }
      predictor := predictor + [PySlice(X, beg, end)];
      response := response + [PySlice(y, beg, end)];
    }
    r := Success((predictor, response));
  }

  /** `get_external_dmat`: wraps the ten batches in an `IteratorForTest`
      (from which the library builds its matrix). */
  method GetExternalDmat<R>(ds: TestDataset<R>) returns (r: Result<IteratorForTest<R, real>, BatchError>)
    ensures r.Failure? <==> GuardFails(|ds.X|)
    ensures r.Success? ==>
      && r.value.Valid() && r.value.it == 0
      && r.value.X == BatchesOf(ds.X, |ds.X|) && r.value.y == BatchesOf(ds.y, |ds.X|)
  {
    var batches := CutBatches(ds.X, ds.y);
    if batches.Failure? {
      return Failure(batches.error);
    }
    var it := new IteratorForTest(batches.value.0, batches.value.1);
    r := Success(it);
  }

  /** A batch holds rows exactly when it starts before the end. A batch that
      starts past the end is empty yet passes the `end != beg` guard; only one
      that starts exactly at the end is rejected. */
  lemma BatchEmptiness<T>(s: seq<T>, i: nat)
    ensures Batch(s, |s|, i) != [] <==> BatchBegin(|s|, i) < |s|
    ensures BatchBegin(|s|, i) > |s| ==> Batch(s, |s|, i) == [] && BatchEnd(|s|, i) != BatchBegin(|s|, i)
  {
    EndMeetsBegin(|s|, i);
  }

  /** Fewer than ten rows always trip the guard (at batch `n`, batch size 1). */
  lemma SmallDatasetsFail(n: nat)
    requires n < N_BATCHES
    ensures GuardFails(n)
  {
    assert StartsAtEnd(n, n);
  }

  /** More than ninety rows never trip the guard. */
  lemma LargeDatasetsPass(n: nat)
    requires n > 90
    ensures !GuardFails(n)
  {
    var pb := PerBatch(n);
    forall i | 0 <= i < N_BATCHES
      ensures !StartsAtEnd(n, i)
    {
      assert i * pb <= 9 * pb;
    }
  }

  /** 0 and 90 rows trip the guard; 15 rows pass it even though batch 8 is
      the empty range [16, 15). */
  lemma GuardExamples<T>(s: seq<T>)
    requires |s| == 15
    ensures GuardFails(0) && GuardFails(90) && !GuardFails(15)
    ensures BatchBegin(15, 8) == 16 && BatchEnd(15, 8) == 15 && BatchesOf(s, 15)[8] == []
  {
    assert StartsAtEnd(0, 0);
    assert StartsAtEnd(90, 9);
    forall i | 0 <= i < N_BATCHES
      ensures !StartsAtEnd(15, i)
    {
    }
    FirstBatchesAt(s, 15, N_BATCHES, 8);
  }

  /** A prefix of `s` followed by the next slice is a longer prefix. */
  lemma PrefixThenSlice<T>(s: seq<T>, b: nat, e: nat)
    requires b <= e
    ensures s[..Min(b, |s|)] + PySlice(s, b, Min(e, |s|)) == s[..Min(e, |s|)]
  {
    if b < |s| {
      assert s[..b] + s[b..Min(e, |s|)] == s[..Min(e, |s|)];
    }
  }

  /** The first `m` batches, laid end to end, are the rows before the
      `m`-th batch start (or all rows when that start is past the end). */
  lemma {:induction false} BatchPrefix<T>(s: seq<T>, m: nat)
    ensures Concat(FirstBatches(s, |s|, m)) == s[..Min(BatchBegin(|s|, m), |s|)]
  {
    var n := |s|;
    if m > 0 {
      BatchPrefix(s, m - 1);
      ConcatAppend(FirstBatches(s, n, m - 1), Batch(s, n, m - 1));
      NextBegin(n, m - 1);
      PrefixThenSlice(s, BatchBegin(n, m - 1), BatchBegin(n, m));
    }
  }

  /** The batches are contiguous, disjoint, in order, and cover every row:
      laid end to end they give back the rows (and, for as many labels as
      rows, the labels). */
  lemma BatchesCoverRows<R>(ds: TestDataset<R>)
    ensures Concat(BatchesOf(ds.X, |ds.X|)) == ds.X
    ensures |ds.y| == |ds.X| ==> Concat(BatchesOf(ds.y, |ds.X|)) == ds.y
  {
    var n := |ds.X|;
    assert BatchBegin(n, N_BATCHES) >= n;
    BatchPrefix(ds.X, N_BATCHES);
    if |ds.y| == n {
      BatchPrefix(ds.y, N_BATCHES);
    }
  }

  /** Round trip: the arrays of the iterator built by `get_external_dmat` are
      the dataset's rows and labels. */
  lemma ExternalBatchesRoundTrip<R>(ds: TestDataset<R>, it: IteratorForTest<R, real>)
    requires |ds.y| == |ds.X|
    requires it.X == BatchesOf(ds.X, |ds.X|) && it.y == BatchesOf(ds.y, |ds.X|)
    ensures it.AsArrays() == Some((ds.X, ds.y))
  {
    BatchesCoverRows(ds);
  }
}
