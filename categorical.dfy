/** The label rule of `make_categorical`: with `n_features + 1` integer code
    columns drawn from `[0, n_categories)`, the first column only feeds the
    label, the rest are the features, and each label is the sum of the row's
    codes plus one. */
module Categorical {

  predicate CodesShaped(codes: seq<seq<int>>, nSamples: nat)
  {
    forall i :: 0 <= i < |codes| ==> |codes[i]| == nSamples
  }

  /** Sum over the given columns of their entry in row `r`. */
  function RowSum(cols: seq<seq<int>>, r: nat): int
    requires forall i :: 0 <= i < |cols| ==> r < |cols[i]|
  {
    if cols == [] then 0 else RowSum(cols[..|cols| - 1], r) + cols[|cols| - 1][r]
  }

  /** Splits off column 0 and accumulates the labels column by column
      (`label += df.iloc[:, i]`), then adds one. */
  method MakeCategoricalLabel(nSamples: nat, nFeatures: nat, codes: seq<seq<int>>)
    returns (features: seq<seq<int>>, labels: seq<int>)
    requires |codes| == nFeatures + 1 && CodesShaped(codes, nSamples)
    ensures features == codes[1..]
    ensures |labels| == nSamples
    ensures forall r :: 0 <= r < nSamples ==> labels[r] == RowSum(codes, r) + 1
  {
    labels := codes[0];
    features := codes[1..];
    for i := 0 to nFeatures
      invariant |labels| == nSamples
      invariant forall r :: 0 <= r < nSamples ==> labels[r] == RowSum(codes[..i + 1], r)
    {
      assert codes[..i + 2][..i + 1] == codes[..i + 1];
      labels := seq(nSamples, r requires 0 <= r < nSamples => labels[r] + features[i][r]);
    }
    assert codes[..nFeatures + 1] == codes;
    labels := seq(nSamples, r requires 0 <= r < nSamples => labels[r] + 1);
  }

  /** With every code in `[0, n_categories)`, a row sum over `k` columns lies
      in `[0, k * (n_categories - 1)]`. */
  lemma {:induction false} RowSumBounds(cols: seq<seq<int>>, r: nat, nCategories: nat)
    requires nCategories >= 1
    requires forall i :: 0 <= i < |cols| ==> r < |cols[i]| && 0 <= cols[i][r] < nCategories
    ensures 0 <= RowSum(cols, r) <= |cols| * (nCategories - 1)
  {
    if cols != [] {
      RowSumBounds(cols[..|cols| - 1], r, nCategories);
      assert (|cols| - 1) * (nCategories - 1) + (nCategories - 1) == |cols| * (nCategories - 1);
    }
  }

  /** Every label lies in `[1, (n_features + 1) * (n_categories - 1) + 1]`. */
  lemma LabelRange(nSamples: nat, nFeatures: nat, nCategories: nat, codes: seq<seq<int>>, r: nat)
    requires nCategories >= 1
    requires |codes| == nFeatures + 1 && CodesShaped(codes, nSamples) && r < nSamples
    requires forall i, s :: 0 <= i < |codes| && 0 <= s < nSamples ==> 0 <= codes[i][s] < nCategories
    ensures 1 <= RowSum(codes, r) + 1 <= (nFeatures + 1) * (nCategories - 1) + 1
  {
    RowSumBounds(codes, r, nCategories);
  }
}
