/**
 * `np.argmax` / `torch.argmax` over the last axis. Scores are abstracted to
 * integers; only their order matters. Both libraries return the FIRST index
 * holding the maximum when several do.
 */
module Tensors {

  /** The index of the first maximal element of a non-empty score row. */
  function ArgMax(xs: seq<int>): (k: nat)
    requires |xs| > 0
    ensures k < |xs|
    ensures forall j :: 0 <= j < |xs| ==> xs[j] <= xs[k]
    ensures forall j :: 0 <= j < k ==> xs[j] < xs[k]
  {
    if |xs| == 1 then 0
    else
      var k := ArgMax(xs[..|xs| - 1]);
      if xs[|xs| - 1] > xs[k] then |xs| - 1 else k
  }

  /** The contract of ArgMax pins down one index: any index with both properties is it. */
  lemma ArgMaxUnique(xs: seq<int>, k: nat)
    requires k < |xs|
    requires forall j :: 0 <= j < |xs| ==> xs[j] <= xs[k]
    requires forall j :: 0 <= j < k ==> xs[j] < xs[k]
    ensures ArgMax(xs) == k
  {
  }

  /** A row whose entry k beats every other entry has argmax k. */
  lemma ArgMaxOfPeak(xs: seq<int>, k: nat)
    requires k < |xs|
    requires forall j :: 0 <= j < |xs| && j != k ==> xs[j] < xs[k]
    ensures ArgMax(xs) == k
  {
  }

  predicate NonEmptyRows(rows: seq<seq<int>>)
  {
    forall i :: 0 <= i < |rows| ==> |rows[i]| > 0
  }

  /** `argmax(rows, axis=-1)`: one index per row, in row order. */
  function ArgMaxRows(rows: seq<seq<int>>): (ks: seq<nat>)
    requires NonEmptyRows(rows)
    ensures |ks| == |rows|
    ensures forall i :: 0 <= i < |rows| ==> ks[i] == ArgMax(rows[i]) && ks[i] < |rows[i]|
  {
    seq(|rows|, i requires 0 <= i < |rows| => ArgMax(rows[i]))
  }
}
