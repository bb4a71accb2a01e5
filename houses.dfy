/**
 * Sign, whole-sign house and sect derivations of services/astronomyService.ts:
 * `getSign`, the planet house formula, the midheaven house formula and
 * `calculateSect`.
 */
module Houses {
  import opened JsMath
  import opened Angles
  import opened Types

  /** `getSign`: the sign whose 30-degree band holds the longitude. */
  function GetSign(lon: Degrees): (s: SignId)
    ensures 30.0 * (s as real) <= lon < 30.0 * (s as real) + 30.0
  {
    (lon / 30.0).Floor
  }

  /** The longitude at which a sign begins: `signId * 30`. */
  function SignStart(s: SignId): (deg: int)
    ensures 0 <= deg < 360 && deg % 30 == 0 && GetSign(deg as real) == s
  {
    s * 30
  }

  /**
   * The whole-sign house `(sign - ascSign + 12) % 12 + 1`: the house, counted from
   * the ascendant's sign as house 1, whose sign is `sign`.
   */
  function WholeSignHouse(sign: SignId, ascSign: SignId): (h: HouseNumber)
    ensures (ascSign + h - 1) % 12 == sign
  {
    (sign - ascSign + 12) % 12 + 1
  }

  /** The house that holds a sign is unique, and a body in the ascendant's sign is in house 1. */
  lemma WholeSignHouseUnique(sign: SignId, ascSign: SignId, h: HouseNumber)
    ensures (ascSign + h - 1) % 12 == sign <==> WholeSignHouse(sign, ascSign) == h
    ensures WholeSignHouse(ascSign, ascSign) == 1
  {
  }

  /** Sign `s`, in house `i + 1`, is `sign` exactly when `sign` lies in that same house. */
  lemma HouseSignUnique(ascSign: SignId, sign: SignId, house: int, s: SignId, i: int)
    requires house == WholeSignHouse(sign, ascSign) && WholeSignHouse(s, ascSign) == i + 1
    ensures s == sign <==> i == house - 1
  {
    assert i == house - 1 ==> s == (ascSign + i) % 12 == sign;
  }

  /** The sign six signs on lies six houses on. */
  lemma OppositeHouse(sign: SignId, ascSign: SignId)
    ensures WholeSignHouse((sign + 6) % 12, ascSign) == (WholeSignHouse(sign, ascSign) + 5) % 12 + 1
  {
    var opposite := (sign + 6) % 12;
    assert opposite == if sign < 6 then sign + 6 else sign - 6;
    var h: int := WholeSignHouse(sign, ascSign);
    assert h == if sign >= ascSign then sign - ascSign + 1 else sign - ascSign + 13;
    assert WholeSignHouse(opposite, ascSign)
      == if opposite >= ascSign then opposite - ascSign + 1 else opposite - ascSign + 13;
    assert (h + 5) % 12 + 1 == if h <= 6 then h + 6 else h - 6;
  }

  /**
   * The midheaven's house as calculateChart writes it:
   * `normalizeDegrees(mcSign - ascSign + 1 + 12) % 12 || 12`, where `|| 12` turns a
   * remainder of 0 into 12. It agrees with the planet formula.
   */
  function MidheavenHouse(mcSign: SignId, ascSign: SignId): (h: int)
    ensures h == WholeSignHouse(mcSign, ascSign)
  {
    var x := mcSign - ascSign + 1 + 12;
    var n := NormalizeDegrees(x as real);
    NormalizeIdentity(x as real);
    var r := JsRem(n, 12.0);
    IntegralRemainder(x);
    // `r` is integral, so taking its floor only changes its type.
    if r == 0.0 then 12 else r.Floor
  }

  /** The JavaScript remainder of an integral number in [2, 24] by 12 is its integer remainder. */
  lemma IntegralRemainder(x: int)
    requires 2 <= x <= 24
    ensures JsRem(x as real, 12.0) == (x % 12) as real
  {
    var q, r := x / 12, x % 12;
    assert x == 12 * q + r;
    assert (x as real) / 12.0 == q as real + (r as real) / 12.0;
    assert Trunc((x as real) / 12.0) == q;
  }

  /**
   * `calculateSect`: a day chart when the Sun lies 180 to 360 degrees past the
   * ascendant, measured forward along the zodiac, i.e. above the horizon.
   */
  function CalculateSect(ascendantDeg: real, sunDeg: real): bool
  {
    NormalizeDegrees(sunDeg - ascendantDeg) >= 180.0
  }

  /**
   * The sect test in terms of any whole-turn representative: if the Sun is `arc`
   * degrees past the ascendant (plus whole turns), with `arc` in [0, 360), the chart
   * is diurnal exactly when `arc` is at least 180.
   */
  lemma SectByArc(ascendantDeg: real, sunDeg: real, arc: real, turns: int)
    requires 0.0 <= arc < 360.0
    requires sunDeg - ascendantDeg == arc + 360.0 * (turns as real)
    ensures CalculateSect(ascendantDeg, sunDeg) <==> arc >= 180.0
  {
    NormalizeUnique(sunDeg - ascendantDeg, arc, turns);
  }

  /** Moving the ascendant to the opposite point (the descendant) swaps day and night. */
  lemma {:induction false} SectOppositeAscendant(ascendantDeg: real, sunDeg: real)
    ensures CalculateSect(ascendantDeg + 180.0, sunDeg) == !CalculateSect(ascendantDeg, sunDeg)
  {
    var x := sunDeg - ascendantDeg;
    var rel := NormalizeDegrees(x);
    var k := (x / 360.0).Floor;
    if rel >= 180.0 {
      NormalizeUnique(x - 180.0, rel - 180.0, k);
    } else {
      NormalizeUnique(x - 180.0, rel + 180.0, k - 1);
    }
  }

  /**
   * With the ascendant at 0 degrees of its sign, the degree test agrees with the
   * whole-sign test: a day chart exactly when the Sun is in houses 7 to 12.
   */
  lemma {:induction false} SectMatchesUpperHouses(ascSign: SignId, sunDeg: Degrees)
    ensures CalculateSect(30.0 * (ascSign as real), sunDeg) <==> WholeSignHouse(GetSign(sunDeg), ascSign) >= 7
  {
    var s := GetSign(sunDeg);
    var f := sunDeg - 30.0 * (s as real);
    var x := sunDeg - 30.0 * (ascSign as real);
    var h := WholeSignHouse(s, ascSign);
    if s >= ascSign {
      assert h == s - ascSign + 1;
      NormalizeUnique(x, 30.0 * ((s - ascSign) as real) + f, 0);
    } else {
      assert h == s - ascSign + 13;
      NormalizeUnique(x, 30.0 * ((s - ascSign + 12) as real) + f, -1);
    }
  }
}
