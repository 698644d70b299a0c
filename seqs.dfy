/** Small facts about sequence slices that loops over a sequence use. */
module Seqs {
  /** Taking one more element of a slice appends that element. */
  lemma SliceExtend<T>(s: seq<T>, i: int, j: int)
    requires 0 <= i <= j < |s|
    ensures s[i..j + 1] == s[i..j] + [s[j]]
  {
  }

  /**
   * In a sequence made of a prefix of `a` and the rest of `b`, replacing the
   * first element taken from `b` by `a`'s moves the split one place on.
   */
  lemma SpliceAdvance<T>(a: seq<T>, b: seq<T>, i: int)
    requires |a| == |b| && 0 <= i < |a|
    ensures (a[..i] + b[i..])[i := a[i]] == a[..i + 1] + b[i + 1..]
  {
  }
}
