/** The Python built-ins the game logic relies on, over unbounded reals:
    `abs`, `min` of a list, `list.index` and the truncating `int()`. */
module Builtins {

  function Abs(x: real): (r: real)
    ensures r >= 0.0
    ensures r == x || r == -x
  {
    if x < 0.0 then -x else x
  }

  /** `min(s)`: an element of `s` no larger than any other. */
  function Min(s: seq<real>): (m: real)
    requires |s| > 0
    ensures m in s
    ensures forall i :: 0 <= i < |s| ==> m <= s[i]
  {
    if |s| == 1 then s[0]
    else
      var rest := Min(s[1..]);
      if s[0] <= rest then s[0] else rest
  }

  /** `s.index(v)`: the position of the first occurrence of `v`. */
  function IndexOf(s: seq<real>, v: real): (i: nat)
    requires v in s
    ensures i < |s| && s[i] == v
    ensures forall j :: 0 <= j < i ==> s[j] != v
  {
    if s[0] == v then 0 else 1 + IndexOf(s[1..], v)
  }

  /** `int(x)` on a float: truncation toward zero (not Dafny's `Floor`). */
  function Trunc(x: real): (n: int)
    ensures x >= 0.0 ==> n as real <= x < n as real + 1.0
    ensures x < 0.0 ==> n as real - 1.0 < x <= n as real
  {
    if x >= 0.0 then x.Floor else -((-x).Floor)
  }

  /** A real holding a whole number, as `int(...)` produces. */
  predicate Integral(x: real) {
    x == x.Floor as real
  }

  /** `int(x)` lands on a whole number and never moves past `x` away from zero. */
  lemma TruncIntegral(x: real)
    ensures Integral(Trunc(x) as real)
    ensures x >= 0.0 ==> 0.0 <= Trunc(x) as real <= x
  {
  }

  /** Truncating a value above a whole number `h` never drops below `h`:
      this is why taking `int(score)` as a new record never lowers the record. */
  lemma TruncAboveIntegral(x: real, h: real)
    requires Integral(h) && x > h
    ensures Trunc(x) as real >= h
  {
    if x >= 0.0 {
      assert h.Floor <= x.Floor;
    }
  }

  /** Multiplying by a non-negative factor preserves order. */
  lemma MulMonotone(a: real, b: real, c: real)
    requires a >= 0.0 && b <= c
    ensures a * b <= a * c && b * a <= c * a
  {
    assert a * c - a * b == a * (c - b);
    MulNonNegative(a, c - b);
  }

  lemma MulNonNegative(a: real, b: real)
    requires a >= 0.0 && b >= 0.0
    ensures a * b >= 0.0
  {
  }
}
