/** Order-preserving subsequences, the shape of every `filter` in the application. */
module Seqs {

  /** `a` can be obtained from `b` by leaving elements out, without reordering the rest. */
  predicate IsSubsequence<T(==)>(a: seq<T>, b: seq<T>)
    decreases |b|
  {
    a == [] || (b != [] && ((a[0] == b[0] && IsSubsequence(a[1..], b[1..])) || IsSubsequence(a, b[1..])))
  }
}
