/** Concatenation of blocks laid end to end: numpy's `concatenate` along the
    first axis, and scipy's `hstack` of column chunks (a matrix stored as a
    sequence of its columns). */
module Stacking {

  /** Python's `min` of two naturals. */
  function Min(a: nat, b: nat): nat
  {
    if a < b then a else b
  }

  /** Sum of a sequence of naturals. */
  function SumOf(s: seq<nat>): nat
  {
    if s == [] then 0 else SumOf(s[..|s| - 1]) + s[|s| - 1]
  }

  /** The length of each block, in order. */
  function Lengths<T>(parts: seq<seq<T>>): seq<nat>
  {
    seq(|parts|, i requires 0 <= i < |parts| => |parts[i]|)
  }

  /** The blocks laid end to end, in order. */
  function Concat<T>(parts: seq<seq<T>>): seq<T>
  {
    if parts == [] then [] else Concat(parts[..|parts| - 1]) + parts[|parts| - 1]
  }

  /** Appending one block appends its elements. */
  lemma ConcatAppend<T>(parts: seq<seq<T>>, b: seq<T>)
    ensures Concat(parts + [b]) == Concat(parts) + b
  {
    assert (parts + [b])[..|parts|] == parts;
  }

  /** A sum of equal terms is a product. */
  lemma {:induction false} SumOfConstant(s: seq<nat>, c: nat)
    requires forall i :: 0 <= i < |s| ==> s[i] == c
    ensures SumOf(s) == |s| * c
  {
    if s != [] {
      SumOfConstant(s[..|s| - 1], c);
      assert SumOf(s) == (|s| - 1) * c + c;
    }
  }

  /** Dropping the last block removes the last length. */
  lemma LengthsInit<T>(parts: seq<seq<T>>, t: nat)
    requires t <= |parts|
    ensures Lengths(parts)[..t] == Lengths(parts[..t])
  {
  }

  /** The concatenation is exactly as long as all blocks together. */
  lemma {:induction false} ConcatLength<T>(parts: seq<seq<T>>)
    ensures |Concat(parts)| == SumOf(Lengths(parts))
  {
    if parts != [] {
      var init := parts[..|parts| - 1];
      ConcatLength(init);
      LengthsInit(parts, |parts| - 1);
    }
  }

  /** Where element `j` of block `t` lands: the combined length of the blocks
      before `t`, plus `j`. */
  function Position<T>(parts: seq<seq<T>>, t: nat, j: nat): nat
    requires t <= |parts|
  {
    SumOf(Lengths(parts)[..t]) + j
  }

  /** Element `j` of block `t` sits at its `Position`: blocks keep their order
      and do not overlap. */
  lemma {:induction false} ConcatAt<T>(parts: seq<seq<T>>, t: nat, j: nat)
    requires t < |parts| && j < |parts[t]|
    ensures Position(parts, t, j) < |Concat(parts)|
    ensures Concat(parts)[Position(parts, t, j)] == parts[t][j]
  {
    var init := parts[..|parts| - 1];
    ConcatLength(init);
    LengthsInit(parts, t);
    if t == |parts| - 1 {
      assert parts[..t] == init;
    } else {
      ConcatAt(init, t, j);
      LengthsInit(init, t);
      assert init[..t] == parts[..t];
    }
  }
}
