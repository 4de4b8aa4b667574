/** Sums of real sequences, accumulated left to right as the source's loops and `sum()` do. */
module Somas {

  /** Sum of `s`, defined on the prefix so that it matches an accumulator loop. */
  function Sum(s: seq<real>): real
  {
    if s == [] then 0.0 else Sum(s[..|s| - 1]) + s[|s| - 1]
  }

  lemma {:induction false} SumAppend(s: seq<real>, x: real)
    ensures Sum(s + [x]) == Sum(s) + x
  {
    assert (s + [x])[..|s + [x]| - 1] == s;
  }

  lemma {:induction false} SumNonNegative(s: seq<real>)
    requires forall i :: 0 <= i < |s| ==> s[i] >= 0.0
    ensures Sum(s) >= 0.0
  {
    if s != [] {
      SumNonNegative(s[..|s| - 1]);
    }
  }

  /** Every term multiplied by `c` multiplies the sum by `c`. */
  lemma {:induction false} SumScale(s: seq<real>, t: seq<real>, c: real)
    requires |t| == |s|
    requires forall i :: 0 <= i < |s| ==> t[i] == c * s[i]
    ensures Sum(t) == c * Sum(s)
  {
    if s != [] {
      SumScale(s[..|s| - 1], t[..|t| - 1], c);
    }
  }
}
