/** Small facts shared by several agents: distinct sequences and ordering of real products. */
module Comum {

  /** No element appears twice. */
  predicate Distintos<T(==)>(s: seq<T>)
  {
    forall i, j :: 0 <= i < j < |s| ==> s[i] != s[j]
  }

  /** Multiplying by a non-negative factor keeps `<=`. */
  lemma MultiplicaMonotona(a: real, b: real, c: real)
    requires a <= b && c >= 0.0
    ensures a * c <= b * c && c * a <= c * b
  {
  }

  /** Multiplying by a positive factor keeps `<`. */
  lemma MultiplicaEstrita(a: real, b: real, c: real)
    requires a < b && c > 0.0
    ensures a * c < b * c
  {
  }
}
