/** `IteratorForTest`: hands a list of batches (and their labels) to the
    library one at a time through `next`, and starts over on `reset`. */
module DataIteration {
  import opened Wrappers
  import opened Stacking

  class IteratorForTest<R, L> {
    /** The batches of rows and their labels. */
    const X: seq<seq<R>>
    const y: seq<seq<L>>
    /** Index of the next batch to hand out. */
    var it: nat

    ghost predicate Valid()
      reads this
    {
      |X| == |y| && it <= |X|
    }

    /** Construction demands as many label batches as data batches. */
    constructor (X: seq<seq<R>>, y: seq<seq<L>>)
      requires |X| == |y|
      ensures Valid() && this.X == X && this.y == y && it == 0
    {
      this.X := X;
      this.y := y;
      it := 0;
    }

    /** Returns 0 and stays put once every batch has been handed out; otherwise
        delivers batch `it` with its labels, advances, and returns 1. */
    method Next() returns (ret: int, delivered: Option<(seq<R>, seq<L>)>)
      requires Valid()
      modifies this`it
      ensures Valid()
      ensures old(it) == |X| ==> ret == 0 && delivered == None && it == old(it)
      ensures old(it) < |X| ==>
        ret == 1 && delivered == Some((X[old(it)], y[old(it)])) && it == old(it) + 1
    {
      if it == |X| {
        return 0, None;
      }
      delivered := Some((X[it], y[it]));
      it := it + 1;
      ret := 1;
    }

    /** Rewinds to the first batch. */
    method Reset()
      requires Valid()
      modifies this`it
      ensures Valid() && it == 0
    {
      it := 0;
    }

    /** `as_arrays`: all batches, and all labels, laid end to end in order.
        Concatenating an empty list of batches raises, which is `None` here. */
    function AsArrays(): (r: Option<(seq<R>, seq<L>)>)
      ensures r.None? <==> |X| == 0 || |y| == 0
      ensures r.Some? ==> |r.value.0| == SumOf(Lengths(X)) && |r.value.1| == SumOf(Lengths(y))
      ensures r.Some? ==> forall t, j :: 0 <= t < |X| && 0 <= j < |X[t]| ==>
        Position(X, t, j) < |r.value.0| && r.value.0[Position(X, t, j)] == X[t][j]
      ensures r.Some? ==> forall t, j :: 0 <= t < |y| && 0 <= j < |y[t]| ==>
        Position(y, t, j) < |r.value.1| && r.value.1[Position(y, t, j)] == y[t][j]
    {
      if |X| == 0 || |y| == 0 then None
      else
        ConcatLength(X);
        ConcatLength(y);
        forall t, j | 0 <= t < |X| && 0 <= j < |X[t]|
          ensures Position(X, t, j) < |Concat(X)| && Concat(X)[Position(X, t, j)] == X[t][j]
        {
          ConcatAt(X, t, j);
        }
        forall t, j | 0 <= t < |y| && 0 <= j < |y[t]|
          ensures Position(y, t, j) < |Concat(y)| && Concat(y)[Position(y, t, j)] == y[t][j]
        {
          ConcatAt(y, t, j);
        }
        Some((Concat(X), Concat(y)))
    }
  }

  /** How the library consumes the iterator: `reset`, then `next` until it
      returns 0. Exactly `len(X)` calls return 1, delivering every batch once,
      in order. */
  method ConsumeAfterReset<R, L>(iter: IteratorForTest<R, L>)
    returns (batches: seq<seq<R>>, labels: seq<seq<L>>, successes: nat, calls: nat)
    requires iter.Valid()
    modifies iter
    ensures iter.Valid() && iter.it == |iter.X|
    ensures batches == iter.X && labels == iter.y
    ensures successes == |iter.X| && calls == successes + 1
  {
    iter.Reset();
    batches, labels, successes, calls := [], [], 0, 0;
    while true
      invariant iter.Valid()
      invariant successes == iter.it == calls
      invariant batches == iter.X[..iter.it] && labels == iter.y[..iter.it]
      decreases |iter.X| - iter.it
    {
      var ret, item := iter.Next();
      calls := calls + 1;
      if ret == 0 {
        break;
      }
      batches := batches + [item.value.0];
      labels := labels + [item.value.1];
      successes := successes + 1;
    }
    assert iter.X[..iter.it] == iter.X && iter.y[..iter.it] == iter.y;
  }
}
