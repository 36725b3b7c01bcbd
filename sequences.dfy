/** A relation on sequences shared by the list filters. */
module Sequences {
  /** `a` is `b` with some elements left out, the rest in their order: each element of `b`
      is either matched by the next element of `a` or skipped. */
  predicate IsSubsequence<T(==)>(a: seq<T>, b: seq<T>)
    decreases |b|
  {
    if b == [] then a == []
    else (a != [] && a[0] == b[0] && IsSubsequence(a[1..], b[1..])) || IsSubsequence(a, b[1..])
  }
}
