/** Order-preserving selection of elements from a sequence. */
module Subsequences {

  /** `a` is `b` with some elements left out: `idx` picks, in increasing order, the
      position in `b` of each element of `a`. */
  ghost predicate EmbedsVia<T>(a: seq<T>, b: seq<T>, idx: seq<nat>) {
    && |idx| == |a|
    && (forall j :: 0 <= j < |idx| ==> idx[j] < |b| && a[j] == b[idx[j]])
    && (forall j, j' :: 0 <= j < j' < |idx| ==> idx[j] < idx[j'])
  }

  ghost predicate IsSubsequence<T>(a: seq<T>, b: seq<T>) {
    exists idx :: EmbedsVia(a, b, idx)
  }
}
