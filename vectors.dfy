/** The element-wise numpy operations the Antoine engine applies to its data vectors, and the
    reductions (`sum`, `mean`, `min`, `max`) it takes of them. */
module Vectors {

  function Abs(x: real): (r: real)
    ensures 0.0 <= r && (r == x || r == -x)
  {
    if x < 0.0 then -x else x
  }

  function Max2(x: real, y: real): (r: real)
    ensures x <= r && y <= r && (r == x || r == y)
  {
    if x < y then y else x
  }

  /** `s + c`. */
  function Shift(s: seq<real>, c: real): (r: seq<real>)
    ensures |r| == |s|
    ensures forall i :: 0 <= i < |s| ==> r[i] == s[i] + c
  {
    seq(|s|, i requires 0 <= i < |s| => s[i] + c)
  }

  /** `s * f`. */
  function Scale(s: seq<real>, f: real): (r: seq<real>)
    ensures |r| == |s|
    ensures forall i :: 0 <= i < |s| ==> r[i] == s[i] * f
  {
    seq(|s|, i requires 0 <= i < |s| => s[i] * f)
  }

  /** A scalar function applied element by element, as a numpy ufunc is. */
  function Apply(f: real -> real, s: seq<real>): (r: seq<real>)
    ensures |r| == |s|
    ensures forall i :: 0 <= i < |s| ==> r[i] == f(s[i])
  {
    seq(|s|, i requires 0 <= i < |s| => f(s[i]))
  }

  function Sum(s: seq<real>): real
    decreases |s|
  {
    if s == [] then 0.0 else Sum(s[..|s| - 1]) + s[|s| - 1]
  }

  function Mean(s: seq<real>): real
    requires |s| > 0
  {
    Sum(s) / (|s| as real)
  }

  /** `np.min`: an element of `s` that no element undercuts. */
  function Min(s: seq<real>): (r: real)
    requires |s| > 0
    ensures exists i :: 0 <= i < |s| && r == s[i]
    ensures forall i :: 0 <= i < |s| ==> r <= s[i]
    decreases |s|
  {
    if |s| == 1 then s[0]
    else
      var m := Min(s[..|s| - 1]);
      assert forall i :: 0 <= i < |s| - 1 ==> s[..|s| - 1][i] == s[i];
      if s[|s| - 1] < m then s[|s| - 1] else m
  }

  /** `np.max`: an element of `s` that no element exceeds. */
  function Max(s: seq<real>): (r: real)
    requires |s| > 0
    ensures exists i :: 0 <= i < |s| && r == s[i]
    ensures forall i :: 0 <= i < |s| ==> s[i] <= r
    decreases |s|
  {
    if |s| == 1 then s[0]
    else
      var m := Max(s[..|s| - 1]);
      assert forall i :: 0 <= i < |s| - 1 ==> s[..|s| - 1][i] == s[i];
      if m < s[|s| - 1] then s[|s| - 1] else m
  }

  /** Shifting every element shifts the minimum: `min(s + c) == min(s) + c`. */
  lemma MinShift(s: seq<real>, c: real)
    requires |s| > 0
    ensures Min(Shift(s, c)) == Min(s) + c
  {
    var i :| 0 <= i < |s| && Min(s) == s[i];
    var j :| 0 <= j < |s| && Min(Shift(s, c)) == Shift(s, c)[j];
    assert Min(Shift(s, c)) <= Shift(s, c)[i];
    assert Min(s) <= s[j];
  }
}
