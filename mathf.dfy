/** The few UnityEngine.Mathf functions the paddle and the brick use, with the
    semantics Unity documents for them, over ideal reals (and ints for the
    integer Clamp overload). */
module Mathf {

  /** Mathf.Clamp(value, min, max): tests `value < min` first, then `value > max`,
      so with inverted bounds (min > max) a value below min yields min. */
  function Clamp(v: real, lo: real, hi: real): (r: real)
    ensures lo <= hi ==> lo <= r <= hi
    ensures lo <= v <= hi ==> r == v
    ensures lo <= hi && v < lo ==> r == lo
    ensures lo <= hi && v > hi ==> r == hi
  {
    if v < lo then lo else if v > hi then hi else v
  }

  /** Mathf.Clamp(int value, int min, int max), same order of tests. */
  function ClampInt(v: int, lo: int, hi: int): (r: int)
    ensures lo <= hi ==> lo <= r <= hi
    ensures lo <= v <= hi ==> r == v
  {
    if v < lo then lo else if v > hi then hi else v
  }

  /** Mathf.Clamp01(value). */
  function Clamp01(t: real): (r: real)
    ensures 0.0 <= r <= 1.0
    ensures 0.0 <= t <= 1.0 ==> r == t
  {
    Clamp(t, 0.0, 1.0)
  }

  /** Mathf.Lerp(a, b, t) = a + (b - a) * Clamp01(t). */
  function Lerp(a: real, b: real, t: real): (r: real)
    ensures a <= b ==> a <= r <= b
    ensures t <= 0.0 ==> r == a
    ensures t >= 1.0 ==> r == b
  {
    var c := Clamp01(t);
    ScaleWithinUnit(b - a, c);
    a + (b - a) * c
  }

  /** Mathf.InverseLerp(a, b, value): 0 when a == b, otherwise the clamped
      fraction of the way from a to b. */
  function InverseLerp(a: real, b: real, v: real): (r: real)
    ensures 0.0 <= r <= 1.0
    ensures a == b ==> r == 0.0
    ensures a < b && v <= a ==> r == 0.0
    ensures a < b && v >= b ==> r == 1.0
  {
    if a != b then
      QuotientAtLeastOne(v - a, b - a);
      Clamp01((v - a) / (b - a))
    else 0.0
  }

  /** A length scaled by a fraction of [0, 1] stays within [0, length]. */
  lemma ScaleWithinUnit(d: real, c: real)
    requires 0.0 <= c <= 1.0
    ensures d >= 0.0 ==> 0.0 <= d * c <= d
  {
    if d >= 0.0 {
      assert d * c <= d * 1.0;
    }
  }

  /** A quotient whose numerator reaches its positive denominator is at least 1. */
  lemma QuotientAtLeastOne(n: real, d: real)
    requires d != 0.0
    ensures 0.0 < d <= n ==> n / d >= 1.0
  {
    assert n / d * d == n;
  }

  /** Clamping twice into the same non-empty interval is clamping once. */
  lemma ClampIdempotent(v: real, lo: real, hi: real)
    requires lo <= hi
    ensures Clamp(Clamp(v, lo, hi), lo, hi) == Clamp(v, lo, hi)
  {
  }

  /** Round trip: the fraction of a point Lerp puts on a proper interval is the
      fraction that was given. */
  lemma InverseLerpOfLerp(a: real, b: real, t: real)
    requires a < b
    requires 0.0 <= t <= 1.0
    ensures InverseLerp(a, b, Lerp(a, b, t)) == t
  {
    var d := b - a;
    assert Lerp(a, b, t) - a == d * t;
    assert (d * t) / d == t;
  }

  /** Round trip the other way: Lerp of the fraction of a point of [a, b] is
      that point, also on a one-point interval. */
  lemma LerpOfInverseLerp(a: real, b: real, x: real)
    requires a <= b
    requires a <= x <= b
    ensures Lerp(a, b, InverseLerp(a, b, x)) == x
  {
    if a < b {
      var d := b - a;
      var t := (x - a) / d;
      assert 0.0 <= t <= 1.0;
      assert d * t == x - a;
    }
  }
}
