/**
 * Ecliptic longitudes in degrees and `normalizeDegrees`, which both
 * services/astronomyService.ts and services/scoring.ts define identically.
 */
module Angles {
  import opened JsMath

  /** A longitude on the ecliptic, in [0, 360). */
  type Degrees = d: real | 0.0 <= d < 360.0

  /**
   * `normalizeDegrees`: the JavaScript remainder by 360, moved up by 360 when it is
   * negative. The result is the representative of `deg` modulo 360 in [0, 360):
   * `deg` minus the floored multiple of 360.
   */
  function NormalizeDegrees(deg: real): (d: Degrees)
    ensures d == deg - 360.0 * ((deg / 360.0).Floor as real)
  {
    var r := JsRem(deg, 360.0);
    var d := if r < 0.0 then r + 360.0 else r;
    FlooredRepresentative(deg, r);
    d
  }

  /** The truncated remainder, corrected when negative, is the floored one. */
  lemma FlooredRepresentative(deg: real, r: real)
    requires r == JsRem(deg, 360.0)
    ensures var d := if r < 0.0 then r + 360.0 else r;
      d == deg - 360.0 * ((deg / 360.0).Floor as real)
  {
    var t := Trunc(deg / 360.0);
    assert r == deg - 360.0 * (t as real);
    var d := if r < 0.0 then r + 360.0 else r;
    var k := if r < 0.0 then t - 1 else t;
    assert d == deg - 360.0 * (k as real);
    FloorOfShift(deg, d, k);
  }

  /** If `deg` is `d` plus `k` turns with `d` in [0, 360), the floored quotient of `deg` by 360 is `k`. */
  lemma FloorOfShift(deg: real, d: real, k: int)
    requires 0.0 <= d < 360.0
    requires deg == d + 360.0 * (k as real)
    ensures (deg / 360.0).Floor == k
  {
    assert deg / 360.0 == d / 360.0 + k as real;
  }

  /**
   * Uniqueness of the normal form: a longitude in [0, 360) that differs from `deg`
   * by a whole number of turns is `NormalizeDegrees(deg)`.
   */
  lemma NormalizeUnique(deg: real, d: real, k: int)
    requires 0.0 <= d < 360.0
    requires deg == d + 360.0 * (k as real)
    ensures NormalizeDegrees(deg) == d
  {
    FloorOfShift(deg, d, k);
  }

  /** Adding whole turns does not change the normal form. */
  lemma NormalizePeriodic(deg: real, k: int)
    ensures NormalizeDegrees(deg + 360.0 * (k as real)) == NormalizeDegrees(deg)
  {
    var d := NormalizeDegrees(deg);
    var f := (deg / 360.0).Floor;
    NormalizeUnique(deg + 360.0 * (k as real), d, f + k);
  }

  /** A longitude already in [0, 360) is its own normal form. */
  lemma NormalizeIdentity(deg: real)
    requires 0.0 <= deg < 360.0
    ensures NormalizeDegrees(deg) == deg
  {
    NormalizeUnique(deg, deg, 0);
  }

  /** Normalising part of a sum first does not change the normal form of the sum. */
  lemma NormalizeAbsorb(x: real, y: real)
    ensures NormalizeDegrees(NormalizeDegrees(x) + y) == NormalizeDegrees(x + y)
  {
    var k := (x / 360.0).Floor;
    NormalizePeriodic(NormalizeDegrees(x) + y, k);
  }
}
