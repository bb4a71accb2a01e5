/**
 * Planet condition scoring of services/scoring.ts: `calculateConditionScore`, which
 * starts from 50 and adds or subtracts points rule by rule, recording each
 * adjustment, and `analyzePositiveNegative`, which scores the sect's benefic and
 * malefic and labels them.
 */
module Scoring {
  import opened Wrappers
  import opened Seqs
  import opened Angles
  import opened Types
  import opened Dignity

  /**
   * `angleDiff`: the separation of two longitudes, going the shorter way round.
   */
  function AngleDiff(a: Degrees, b: Degrees): (diff: real)
    ensures 0.0 <= diff <= 180.0
  {
    var d := if a - b < 0.0 then b - a else a - b;
    if d > 180.0 then 360.0 - d else d
  }

  /** The separation is the same measured from either end. */
  lemma AngleDiffSymmetric(a: Degrees, b: Degrees)
    ensures AngleDiff(a, b) == AngleDiff(b, a)
  {
  }

  /** The separation is the shorter of the two arcs between the longitudes, forward and backward. */
  lemma {:induction false} AngleDiffShorterArc(a: Degrees, b: Degrees)
    ensures var fwd, back := NormalizeDegrees(b - a), NormalizeDegrees(a - b);
      AngleDiff(a, b) == if fwd <= back then fwd else back
  {
    if a == b {
      NormalizeIdentity(0.0);
    } else if a < b {
      NormalizeIdentity(b - a);
      NormalizeUnique(a - b, 360.0 - (b - a), -1);
    } else {
      NormalizeIdentity(a - b);
      NormalizeUnique(b - a, 360.0 - (a - b), -1);
    }
  }

  /** `getTraditionalRuler`: the classical ruler of each sign. */
  function TraditionalRuler(signId: SignId): (p: PlanetId)
    ensures p in {Sun, Moon, Mercury, Venus, Mars, Jupiter, Saturn}
  {
    [Mars, Venus, Mercury, Moon, Sun, Mercury, Venus, Mars, Jupiter, Saturn, Saturn, Jupiter][signId]
  }

  /** The scoring's ruler of each sign is the first ruler the sign table lists for it. */
  lemma TraditionalRulerListed(signId: SignId)
    ensures PlanetName(TraditionalRuler(signId)) == ZodiacSigns[signId].rulers[0].name
  {
  }

  /** The seven classical planets, the only ones the dignity tables of the scoring list. */
  predicate Classical(p: PlanetId)
  {
    p in {Sun, Moon, Mercury, Venus, Mars, Jupiter, Saturn}
  }

  /** The `exaltations` table; planets it does not list have no entry. */
  function ExaltationOf(p: PlanetId): Option<SignId>
  {
    match p
    case Sun => Some(0)
    case Moon => Some(1)
    case Mercury => Some(5)
    case Venus => Some(11)
    case Mars => Some(9)
    case Jupiter => Some(3)
    case Saturn => Some(6)
    case _ => None
  }

  /** The `falls` table. */
  function FallOf(p: PlanetId): Option<SignId>
  {
    match p
    case Sun => Some(6)
    case Moon => Some(7)
    case Mercury => Some(11)
    case Venus => Some(5)
    case Mars => Some(3)
    case Jupiter => Some(9)
    case Saturn => Some(0)
    case _ => None
  }

  /** The `detriments` table; an unlisted planet has none (`?.includes` is falsy). */
  function DetrimentsOf(p: PlanetId): seq<SignId>
  {
    match p
    case Sun => [10]
    case Moon => [9]
    case Mercury => [8, 11]
    case Venus => [0, 7]
    case Mars => [1, 6]
    case Jupiter => [2, 5]
    case Saturn => [3, 4]
    case _ => []
  }

  /** The `joys` table: the house in which each classical planet rejoices. */
  function JoyOf(p: PlanetId): Option<HouseNumber>
  {
    match p
    case Mercury => Some(1)
    case Moon => Some(3)
    case Venus => Some(5)
    case Mars => Some(6)
    case Sun => Some(9)
    case Jupiter => Some(11)
    case Saturn => Some(12)
    case _ => None
  }

  /**
   * The scoring tables agree with `getDignity` on the classical planets, except
   * where `getDignity` reports only its first match: Mercury in Virgo is exalted for
   * the scoring but only in its domicile for `getDignity`, and Mercury in Pisces is
   * in its fall for the scoring but only in detriment for `getDignity`.
   */
  lemma ScoringTablesMatchDignity(p: PlanetId, s: SignId)
    requires Classical(p)
    ensures TraditionalRuler(s) == p <==> GetDignity(p, s) == Some(Domicile)
    ensures s in DetrimentsOf(p) <==> GetDignity(p, s) == Some(Detriment)
    ensures ExaltationOf(p) == Some(s) <==> (GetDignity(p, s) == Some(Exaltation) || (p == Mercury && s == 5))
    ensures FallOf(p) == Some(s) <==> (GetDignity(p, s) == Some(Fall) || (p == Mercury && s == 11))
  {
  }

  /** `getPlanetById`: the first position with the given id. */
  function PlanetById(planets: seq<PlanetPosition>, id: PlanetId): (r: Option<PlanetPosition>)
    ensures r.None? <==> forall i :: 0 <= i < |planets| ==> planets[i].id != id
    ensures r.Some? ==> r.value.id == id && r.value in planets
  {
    FindFirst(planets, (p: PlanetPosition) => p.id == id)
  }

  /** When the first planet with the id is at index `k`, `getPlanetById` returns that one. */
  lemma PlanetByIdFirst(planets: seq<PlanetPosition>, id: PlanetId, k: int)
    requires FirstMatchAt(planets, (p: PlanetPosition) => p.id == id, k)
    ensures PlanetById(planets, id) == Some(planets[k])
  {
    FindFirstAt(planets, (p: PlanetPosition) => p.id == id, k);
  }

  /** Every recorded adjustment is non-zero and typed by its sign. */
  predicate WellSigned(details: seq<ConditionDetail>)
  {
    forall i :: 0 <= i < |details| ==>
      details[i].score != 0 && (details[i].score > 0 <==> details[i].kind == Positive)
  }

  function Pos(description: string, score: int): ConditionDetail
  {
    ConditionDetail(description, score, Positive)
  }

  function Neg(description: string, score: int): ConditionDetail
  {
    ConditionDetail(description, score, Negative)
  }

  lemma WellSignedAppend(a: seq<ConditionDetail>, b: seq<ConditionDetail>)
    requires WellSigned(a) && WellSigned(b)
    ensures WellSigned(a + b)
  {
    forall i | 0 <= i < |a + b|
      ensures (a + b)[i].score != 0 && ((a + b)[i].score > 0 <==> (a + b)[i].kind == Positive)
    {
      if i >= |a| {
        assert (a + b)[i] == b[i - |a|];
      }
    }
  }

  /** The sum of the recorded adjustments. */
  function SumScores(details: seq<ConditionDetail>): int
  {
    if details == [] then 0 else SumScores(details[..|details| - 1]) + details[|details| - 1].score
  }

  /** The sum over three lists in a row is the sum of their sums. */
  lemma SumScoresOfThree(a: seq<ConditionDetail>, b: seq<ConditionDetail>, c: seq<ConditionDetail>)
    ensures SumScores(a + b + c) == SumScores(a) + SumScores(b) + SumScores(c)
  {
    SumScoresAppend(a, b);
    SumScoresAppend(a + b, c);
  }

  /** The sum over a concatenation is the sum of the sums. */
  lemma {:induction false} SumScoresAppend(a: seq<ConditionDetail>, b: seq<ConditionDetail>)
    ensures SumScores(a + b) == SumScores(a) + SumScores(b)
  {
    if b != [] {
      assert (a + b)[..|a + b| - 1] == a + b[..|b| - 1];
      SumScoresAppend(a, b[..|b| - 1]);
    } else {
      assert a + b == a;
    }
  }

  /** Recording one more adjustment adds its score to the sum. */
  lemma SumScoresPush(details: seq<ConditionDetail>, d: ConditionDetail)
    ensures SumScores(details + [d]) == SumScores(details) + d.score
  {
    assert (details + [d])[..|details|] == details;
  }

  // --- A. Essential dignity ---

  /** The sign's traditional ruler stands in a sign that the planet rules. */
  predicate MutualReception(planet: PlanetPosition, planets: seq<PlanetPosition>)
  {
    var ruler := PlanetById(planets, TraditionalRuler(planet.signId));
    ruler.Some? && TraditionalRuler(ruler.value.signId) == planet.id
  }

  /** The adjustments of essential dignity and debility. */
  const DomicileDetail: ConditionDetail := Pos("Domicilio", 15)
  const ReceptionDetail: ConditionDetail := Pos("Recepción Mutua", 5)
  const ExaltationDetail: ConditionDetail := Pos("Exaltación", 10)
  const FallDetail: ConditionDetail := Neg("Caída", -15)
  const DetrimentDetail: ConditionDetail := Neg("Detrimento", -10)
  const PeregrineDetail: ConditionDetail := Neg("Peregrino", -5)

  /** The adjustment `d` when its rule applies, nothing otherwise. */
  function When(applies: bool, d: ConditionDetail): (ds: seq<ConditionDetail>)
    ensures d in ds <==> applies
    ensures ds == [] || ds == [d]
  {
    if applies then [d] else []
  }

  /** The essential-dignity adjustments, in the order they are recorded. */
  function EssentialDetails(planet: PlanetPosition, planets: seq<PlanetPosition>): seq<ConditionDetail>
  {
    var domicile := TraditionalRuler(planet.signId) == planet.id;
    var reception := !domicile && MutualReception(planet, planets);
    var exalted := ExaltationOf(planet.id) == Some(planet.signId);
    DignityDetails(domicile, reception, exalted, FallOf(planet.id) == Some(planet.signId), planet.signId in DetrimentsOf(planet.id))
  }

  /** The adjustments recorded for the outcomes of the domicile, reception, exaltation, fall and detriment rules. */
  function DignityDetails(domicile: bool, reception: bool, exalted: bool, fall: bool, detriment: bool): seq<ConditionDetail>
  {
    RulerDetails(domicile, reception)
    + TableDetails(exalted, fall, detriment)
    + When(!(domicile || exalted || reception), PeregrineDetail)
  }

  /** Domicile when the planet rules its sign, otherwise mutual reception when it holds. */
  function RulerDetails(domicile: bool, reception: bool): seq<ConditionDetail>
  {
    if domicile then [DomicileDetail] else When(reception, ReceptionDetail)
  }

  /** Exaltation, fall and detriment, each when its table says so. */
  function TableDetails(exalted: bool, fall: bool, detriment: bool): seq<ConditionDetail>
  {
    When(exalted, ExaltationDetail) + When(fall, FallDetail) + When(detriment, DetrimentDetail)
  }

  /** The essential-dignity adjustments are non-zero and typed by their sign. */
  lemma DignityDetailsWellSigned(domicile: bool, reception: bool, exalted: bool, fall: bool, detriment: bool)
    ensures WellSigned(DignityDetails(domicile, reception, exalted, fall, detriment))
  {
  }

  /** Each dignity detail is in the record exactly when its condition holds. */
  lemma DignityMembership(domicile: bool, reception: bool, exalted: bool, fall: bool, detriment: bool)
    requires reception ==> !domicile
    ensures var ds := DignityDetails(domicile, reception, exalted, fall, detriment);
      && (DomicileDetail in ds <==> domicile) && (ReceptionDetail in ds <==> reception)
      && (ExaltationDetail in ds <==> exalted) && (FallDetail in ds <==> fall)
      && (DetrimentDetail in ds <==> detriment) && (PeregrineDetail in ds <==> !(domicile || exalted || reception))
  {
    var r, t := RulerDetails(domicile, reception), TableDetails(exalted, fall, detriment);
    assert DomicileDetail !in t && ReceptionDetail !in t && PeregrineDetail !in r + t;
    assert ExaltationDetail !in r && FallDetail !in r && DetrimentDetail !in r;
  }

  /**
   * Domicile and mutual reception exclude each other: domicile is recorded exactly
   * when the planet rules its sign, mutual reception exactly when it does not and
   * the sign's ruler stands in a sign the planet rules.
   */
  lemma DomicileOrReception(planet: PlanetPosition, planets: seq<PlanetPosition>)
    ensures var ds := EssentialDetails(planet, planets);
      && !(DomicileDetail in ds && ReceptionDetail in ds)
      && (DomicileDetail in ds <==> TraditionalRuler(planet.signId) == planet.id)
      && (ReceptionDetail in ds <==> TraditionalRuler(planet.signId) != planet.id && MutualReception(planet, planets))
  {
    DignityMembership(TraditionalRuler(planet.signId) == planet.id,
      TraditionalRuler(planet.signId) != planet.id && MutualReception(planet, planets),
      ExaltationOf(planet.id) == Some(planet.signId), FallOf(planet.id) == Some(planet.signId),
      planet.signId in DetrimentsOf(planet.id));
  }

  /** Exaltation, fall and detriment are recorded exactly as their tables say. */
  lemma ExaltationFallDetriment(planet: PlanetPosition, planets: seq<PlanetPosition>)
    ensures var ds := EssentialDetails(planet, planets);
      && (ExaltationDetail in ds <==> ExaltationOf(planet.id) == Some(planet.signId))
      && (FallDetail in ds <==> FallOf(planet.id) == Some(planet.signId))
      && (DetrimentDetail in ds <==> planet.signId in DetrimentsOf(planet.id))
  {
    DignityMembership(TraditionalRuler(planet.signId) == planet.id,
      TraditionalRuler(planet.signId) != planet.id && MutualReception(planet, planets),
      ExaltationOf(planet.id) == Some(planet.signId), FallOf(planet.id) == Some(planet.signId),
      planet.signId in DetrimentsOf(planet.id));
  }

  /** A planet is peregrine exactly when it has none of domicile, exaltation and mutual reception. */
  lemma PeregrineIff(planet: PlanetPosition, planets: seq<PlanetPosition>)
    ensures var ds := EssentialDetails(planet, planets);
      PeregrineDetail in ds <==> !(DomicileDetail in ds || ExaltationDetail in ds || ReceptionDetail in ds)
  {
    DignityMembership(TraditionalRuler(planet.signId) == planet.id,
      TraditionalRuler(planet.signId) != planet.id && MutualReception(planet, planets),
      ExaltationOf(planet.id) == Some(planet.signId), FallOf(planet.id) == Some(planet.signId),
      planet.signId in DetrimentsOf(planet.id));
  }

  // --- B. House and C. joys ---

  /** The accidental-dignity adjustment of the house. */
  function HouseDetails(house: HouseNumber): (ds: seq<ConditionDetail>)
  {
    if house in [1, 4, 7, 10] then [Pos("Casa Angular", 10)]
    else if house in [3, 6, 9, 12] then
      if house == 9 then [Pos("Casa 9 (Gozo del Sol)", 5)] else [Neg("Casa Cadente", -5)]
    else []
  }

  /**
   * Exactly one house component applies: angular houses +10, the ninth +5, the other
   * cadent houses -5, and the succedent houses nothing.
   */
  lemma HouseComponent(house: HouseNumber)
    ensures house in {1, 4, 7, 10} <==> HouseDetails(house) == [Pos("Casa Angular", 10)]
    ensures house == 9 <==> HouseDetails(house) == [Pos("Casa 9 (Gozo del Sol)", 5)]
    ensures house in {3, 6, 12} <==> HouseDetails(house) == [Neg("Casa Cadente", -5)]
    ensures house in {2, 5, 8, 11} <==> HouseDetails(house) == []
  {
  }

  /** The joy adjustment, added on top of the house component. */
  function JoyDetails(planet: PlanetPosition): (ds: seq<ConditionDetail>)
    ensures |ds| <= 1
    ensures ds != [] <==> JoyOf(planet.id) == Some(planet.house)
    ensures ds != [] ==> ds[0].description == "Gozo Planetario" && ds[0].score == 10 && ds[0].kind == Positive
  {
    if JoyOf(planet.id) == Some(planet.house) then [Pos("Gozo Planetario", 10)] else []
  }

  /** Each house is the joy of at most one planet. */
  lemma JoysDistinct(p: PlanetId, q: PlanetId)
    requires JoyOf(p).Some? && JoyOf(p) == JoyOf(q)
    ensures p == q
  {
  }

  // --- D. Solar phase and retrogradation ---

  /** The solar-phase adjustment: cazimi within 17 minutes of arc, combust within 8 degrees, under the beams within 15. */
  function SolarPhaseDetails(planet: PlanetPosition, planets: seq<PlanetPosition>): (ds: seq<ConditionDetail>)
  {
    var sun := PlanetById(planets, Sun);
    if sun.None? || planet.id == Sun then []
    else
      var dist := AngleDiff(planet.longitude, sun.value.longitude);
      if dist < 17.0 / 60.0 then [Pos("Cazimi", 15)]
      else if dist < 8.0 then [Neg("Combusto", -15)]
      else if dist < 15.0 then [Neg("Bajo los Rayos", -5)]
      else []
  }

  /**
   * The Sun has no solar phase; any other planet, when the chart has a Sun, gets at
   * most one of cazimi, combust and under the beams, by its separation from the Sun.
   */
  lemma SolarPhaseRules(planet: PlanetPosition, planets: seq<PlanetPosition>)
    ensures planet.id == Sun ==> SolarPhaseDetails(planet, planets) == []
    ensures |SolarPhaseDetails(planet, planets)| <= 1
    ensures planet.id != Sun && PlanetById(planets, Sun).Some? ==>
      var dist := AngleDiff(planet.longitude, PlanetById(planets, Sun).value.longitude);
      && (SolarPhaseDetails(planet, planets) == [Pos("Cazimi", 15)] <==> dist < 17.0 / 60.0)
      && (SolarPhaseDetails(planet, planets) == [Neg("Combusto", -15)] <==> 17.0 / 60.0 <= dist < 8.0)
      && (SolarPhaseDetails(planet, planets) == [Neg("Bajo los Rayos", -5)] <==> 8.0 <= dist < 15.0)
      && (SolarPhaseDetails(planet, planets) == [] <==> dist >= 15.0)
  {
  }

  /** The retrograde penalty, for the five planets that can station. */
  function RetrogradeDetails(planet: PlanetPosition): (ds: seq<ConditionDetail>)
    ensures ds != [] <==> planet.id in {Mercury, Venus, Mars, Jupiter, Saturn} && planet.isRetrograde
    ensures |ds| <= 1
    ensures ds != [] ==> ds[0].description == "Retrógrado" && ds[0].score == -10 && ds[0].kind == Negative
  {
    if planet.id in [Mercury, Venus, Mars, Jupiter, Saturn] && planet.isRetrograde then [Neg("Retrógrado", -10)] else []
  }

  // --- E. Aspects ---

  datatype AspectKind = Conjunction | Opposition | Trine | Square | SuperiorSquare

  /** How many signs `other` lies past `planet`, 0 to 11. */
  function SignDistance(planet: PlanetPosition, other: PlanetPosition): (d: int)
    ensures 0 <= d < 12 && (planet.signId + d) % 12 == other.signId
  {
    (other.signId - planet.signId + 12) % 12
  }

  /** The sign distances at which each aspect is cast. */
  predicate WholeSignMatch(kind: AspectKind, signDist: int)
  {
    match kind
    case Conjunction => signDist == 0
    case Opposition => signDist == 6
    case Trine => signDist == 4 || signDist == 8
    case Square => signDist == 3 || signDist == 9
    case SuperiorSquare => signDist == 9
  }

  /** `checkAspect`: the aspect holds by whole sign and within an orb of 3 degrees. */
  function CheckAspect(planet: PlanetPosition, other: PlanetPosition, kind: AspectKind): (holds: bool)
    ensures holds ==> AngleDiff(planet.longitude, other.longitude) <= 3.0
    ensures holds <==> WholeSignMatch(kind, SignDistance(planet, other)) && AngleDiff(planet.longitude, other.longitude) <= 3.0
  {
    var signDist := (other.signId - planet.signId + 12) % 12;
    var isWholeSignMatch :=
      (kind == Conjunction && signDist == 0)
      || (kind == Opposition && signDist == 6)
      || (kind == Trine && (signDist == 4 || signDist == 8))
      || (kind == Square && (signDist == 3 || signDist == 9))
      || (kind == SuperiorSquare && signDist == 9);
    if !isWholeSignMatch then false
    else AngleDiff(planet.longitude, other.longitude) <= 3.0
  }

  /** Conjunction, opposition, trine and superior square are cast at different sign distances. */
  lemma AspectsExclusive(planet: PlanetPosition, other: PlanetPosition)
    ensures !(CheckAspect(planet, other, SuperiorSquare) && CheckAspect(planet, other, Opposition))
    ensures !(CheckAspect(planet, other, SuperiorSquare) && CheckAspect(planet, other, Conjunction))
    ensures !(CheckAspect(planet, other, Opposition) && CheckAspect(planet, other, Conjunction))
    ensures !(CheckAspect(planet, other, Conjunction) && CheckAspect(planet, other, Trine))
    ensures !(CheckAspect(planet, other, Trine) && CheckAspect(planet, other, SuperiorSquare))
  {
  }

  const Malefics: seq<PlanetId> := [Mars, Saturn]

  const Benefics: seq<PlanetId> := [Venus, Jupiter]

  /** The maltreatment by one malefic: superior square, else opposition, else conjunction. */
  function MaltreatmentBy(planet: PlanetPosition, planets: seq<PlanetPosition>, maleficId: PlanetId): (ds: seq<ConditionDetail>)
    ensures |ds| <= 1
  {
    if maleficId == planet.id then []
    else match PlanetById(planets, maleficId)
      case None => []
      case Some(malefic) =>
        if CheckAspect(planet, malefic, SuperiorSquare) then [Neg("Dominado por " + malefic.name + " (Cuadratura Superior)", -15)]
        else if CheckAspect(planet, malefic, Opposition) then [Neg("Oposición de " + malefic.name, -10)]
        else if CheckAspect(planet, malefic, Conjunction) then [Neg("Conjunción con " + malefic.name, -10)]
        else []
  }

  /** The bonification by one benefic: conjunction, else trine, else superior square. */
  function BonificationBy(planet: PlanetPosition, planets: seq<PlanetPosition>, beneficId: PlanetId): (ds: seq<ConditionDetail>)
    ensures |ds| <= 1
  {
    if beneficId == planet.id then []
    else match PlanetById(planets, beneficId)
      case None => []
      case Some(benefic) =>
        if CheckAspect(planet, benefic, Conjunction) then [Pos("Conjunción con " + benefic.name, 10)]
        else if CheckAspect(planet, benefic, Trine) then [Pos("Trígono de " + benefic.name, 5)]
        else if CheckAspect(planet, benefic, SuperiorSquare) then [Pos("Dominio de " + benefic.name + " (Cuadratura Superior)", 8)]
        else []
  }

  /** The maltreatments by the malefics of `ids`, in order. */
  function Maltreatments(planet: PlanetPosition, planets: seq<PlanetPosition>, ids: seq<PlanetId>): (ds: seq<ConditionDetail>)
    ensures |ds| <= |ids|
  {
    if ids == [] then []
    else Maltreatments(planet, planets, ids[..|ids| - 1]) + MaltreatmentBy(planet, planets, ids[|ids| - 1])
  }

  /** The bonifications by the benefics of `ids`, in order. */
  function Bonifications(planet: PlanetPosition, planets: seq<PlanetPosition>, ids: seq<PlanetId>): (ds: seq<ConditionDetail>)
    ensures |ds| <= |ids|
  {
    if ids == [] then []
    else Bonifications(planet, planets, ids[..|ids| - 1]) + BonificationBy(planet, planets, ids[|ids| - 1])
  }

  /**
   * A malefic never maltreats itself; otherwise it maltreats by superior square
   * (-15) exactly when that aspect holds, and by opposition or conjunction (-10)
   * exactly when one of those holds instead.
   */
  lemma MaltreatmentRules(planet: PlanetPosition, planets: seq<PlanetPosition>, maleficId: PlanetId)
    ensures maleficId == planet.id ==> MaltreatmentBy(planet, planets, maleficId) == []
    ensures maleficId != planet.id && PlanetById(planets, maleficId).Some? ==>
      var m, ds := PlanetById(planets, maleficId).value, MaltreatmentBy(planet, planets, maleficId);
      && (ds != [] && ds[0].score == -15 <==> CheckAspect(planet, m, SuperiorSquare))
      && (ds != [] && ds[0].score == -10 <==> CheckAspect(planet, m, Opposition) || CheckAspect(planet, m, Conjunction))
      && (ds == [] <==> !CheckAspect(planet, m, SuperiorSquare) && !CheckAspect(planet, m, Opposition) && !CheckAspect(planet, m, Conjunction))
  {
    AngleDiffSymmetric(planet.longitude, planet.longitude);
    if maleficId != planet.id && PlanetById(planets, maleficId).Some? {
      AspectsExclusive(planet, PlanetById(planets, maleficId).value);
    }
  }

  /**
   * A benefic never bonifies itself; otherwise it bonifies by conjunction (+10),
   * trine (+5) or superior square (+8) exactly when that aspect holds.
   */
  lemma BonificationRules(planet: PlanetPosition, planets: seq<PlanetPosition>, beneficId: PlanetId)
    ensures beneficId == planet.id ==> BonificationBy(planet, planets, beneficId) == []
    ensures beneficId != planet.id && PlanetById(planets, beneficId).Some? ==>
      var b, ds := PlanetById(planets, beneficId).value, BonificationBy(planet, planets, beneficId);
      && (ds != [] && ds[0].score == 10 <==> CheckAspect(planet, b, Conjunction))
      && (ds != [] && ds[0].score == 5 <==> CheckAspect(planet, b, Trine))
      && (ds != [] && ds[0].score == 8 <==> CheckAspect(planet, b, SuperiorSquare))
      && (ds == [] <==> !CheckAspect(planet, b, Conjunction) && !CheckAspect(planet, b, Trine) && !CheckAspect(planet, b, SuperiorSquare))
  {
    if beneficId != planet.id && PlanetById(planets, beneficId).Some? {
      AspectsExclusive(planet, PlanetById(planets, beneficId).value);
    }
  }

  /** Besiegement: Mars and Saturn in the signs either side of the planet. */
  function BesiegementDetails(planet: PlanetPosition, planets: seq<PlanetPosition>): (ds: seq<ConditionDetail>)
  {
    var mars := PlanetById(planets, Mars);
    var saturn := PlanetById(planets, Saturn);
    if mars.Some? && saturn.Some? && planet.id != Mars && planet.id != Saturn then
      var pSign := planet.signId;
      var prevSign := (pSign - 1 + 12) % 12;
      var nextSign := (pSign + 1) % 12;
      var flanked1 := mars.value.signId == prevSign && saturn.value.signId == nextSign;
      var flanked2 := saturn.value.signId == prevSign && mars.value.signId == nextSign;
      if flanked1 || flanked2 then [Neg("Asedio (Encierro entre Maléficos)", -20)] else []
    else []
  }

  /**
   * A planet other than Mars and Saturn is besieged exactly when Mars and Saturn
   * occupy the two signs adjacent to its own, one on each side, in either order.
   */
  lemma BesiegementRule(planet: PlanetPosition, planets: seq<PlanetPosition>)
    ensures planet.id in {Mars, Saturn} ==> BesiegementDetails(planet, planets) == []
    ensures var mars, saturn := PlanetById(planets, Mars), PlanetById(planets, Saturn);
      planet.id !in {Mars, Saturn} && mars.Some? && saturn.Some? ==>
        (BesiegementDetails(planet, planets) != [] <==>
          {SignDistance(planet, mars.value), SignDistance(planet, saturn.value)} == {1, 11})
  {
    var mars, saturn := PlanetById(planets, Mars), PlanetById(planets, Saturn);
    if planet.id !in {Mars, Saturn} && mars.Some? && saturn.Some? {
      FlankedByDistance(planet.signId, mars.value.signId, saturn.value.signId);
    }
  }

  /** Sitting in the signs either side of p means lying one and eleven signs on from it. */
  lemma FlankedByDistance(p: SignId, m: SignId, s: SignId)
    ensures ((m == (p - 1 + 12) % 12 && s == (p + 1) % 12) || (s == (p - 1 + 12) % 12 && m == (p + 1) % 12))
      <==> {(m - p + 12) % 12, (s - p + 12) % 12} == {1, 11}
  {
    var dm, ds := (m - p + 12) % 12, (s - p + 12) % 12;
    if {dm, ds} == {1, 11} {
      assert dm in {1, 11} && ds in {1, 11};
      assert 1 in {dm, ds} && 11 in {dm, ds};
    }
  }

  /** Appending in two steps appends the two parts together. */
  lemma ConcatAssociative<T>(a: seq<T>, b: seq<T>, c: seq<T>)
    ensures (a + b) + c == a + (b + c)
  {
  }

  /**
   * One more malefic of `ids` adds what that malefic does: a record that extends `prefix`
   * by the first `i` of them, extended by the next, extends it by the first `i + 1`.
   */
  lemma MaltreatmentsStep(planet: PlanetPosition, planets: seq<PlanetPosition>, ids: seq<PlanetId>, i: int,
           prefix: seq<ConditionDetail>, before: seq<ConditionDetail>, after: seq<ConditionDetail>)
    requires 0 <= i < |ids|
    requires before == prefix + Maltreatments(planet, planets, ids[..i])
    requires after == before + MaltreatmentBy(planet, planets, ids[i])
    ensures after == prefix + Maltreatments(planet, planets, ids[..i + 1])
  {
    var next := ids[..i + 1];
    assert next[..|next| - 1] == ids[..i] && next[|next| - 1] == ids[i];
    var done, one := Maltreatments(planet, planets, ids[..i]), MaltreatmentBy(planet, planets, ids[i]);
    assert Maltreatments(planet, planets, next) == done + one;
    ConcatAssociative(prefix, done, one);
  }

  /**
   * One more benefic of `ids` adds what that benefic does: a record that extends `prefix`
   * by the first `i` of them, extended by the next, extends it by the first `i + 1`.
   */
  lemma BonificationsStep(planet: PlanetPosition, planets: seq<PlanetPosition>, ids: seq<PlanetId>, i: int,
           prefix: seq<ConditionDetail>, before: seq<ConditionDetail>, after: seq<ConditionDetail>)
    requires 0 <= i < |ids|
    requires before == prefix + Bonifications(planet, planets, ids[..i])
    requires after == before + BonificationBy(planet, planets, ids[i])
    ensures after == prefix + Bonifications(planet, planets, ids[..i + 1])
  {
    var next := ids[..i + 1];
    assert next[..|next| - 1] == ids[..i] && next[|next| - 1] == ids[i];
    var done, one := Bonifications(planet, planets, ids[..i]), BonificationBy(planet, planets, ids[i]);
    assert Bonifications(planet, planets, next) == done + one;
    ConcatAssociative(prefix, done, one);
  }

  /** The accidental adjustments: house, joy, solar phase and retrogradation, in that order. */
  function AccidentalDetails(planet: PlanetPosition, planets: seq<PlanetPosition>): seq<ConditionDetail>
  {
    HouseDetails(planet.house) + JoyDetails(planet) + SolarPhaseDetails(planet, planets) + RetrogradeDetails(planet)
  }

  /** The aspect adjustments: maltreatment, besiegement and bonification, in that order. */
  function AspectDetails(planet: PlanetPosition, planets: seq<PlanetPosition>): seq<ConditionDetail>
  {
    Maltreatments(planet, planets, Malefics) + BesiegementDetails(planet, planets) + Bonifications(planet, planets, Benefics)
  }

  /** The whole record of adjustments, in the order `calculateConditionScore` makes them. */
  function ConditionDetails(planet: PlanetPosition, planets: seq<PlanetPosition>): seq<ConditionDetail>
  {
    EssentialDetails(planet, planets) + AccidentalDetails(planet, planets) + AspectDetails(planet, planets)
  }

  /** Every recorded adjustment is non-zero, and positive exactly when typed Positive. */
  lemma ConditionDetailsWellSigned(planet: PlanetPosition, planets: seq<PlanetPosition>)
    ensures WellSigned(ConditionDetails(planet, planets))
  {
    var domicile := TraditionalRuler(planet.signId) == planet.id;
    DignityDetailsWellSigned(domicile, !domicile && MutualReception(planet, planets), ExaltationOf(planet.id) == Some(planet.signId),
      FallOf(planet.id) == Some(planet.signId), planet.signId in DetrimentsOf(planet.id));
    AccidentalWellSigned(planet, planets);
    AspectWellSigned(planet, planets);
    WellSignedAppend(EssentialDetails(planet, planets), AccidentalDetails(planet, planets));
    WellSignedAppend(EssentialDetails(planet, planets) + AccidentalDetails(planet, planets), AspectDetails(planet, planets));
  }

  /** The house, joy, solar-phase and retrogradation adjustments are well signed. */
  lemma AccidentalWellSigned(planet: PlanetPosition, planets: seq<PlanetPosition>)
    ensures WellSigned(AccidentalDetails(planet, planets))
  {
    var h, j, p, r := HouseDetails(planet.house), JoyDetails(planet), SolarPhaseDetails(planet, planets), RetrogradeDetails(planet);
    assert WellSigned(h) && WellSigned(j) && WellSigned(p) && WellSigned(r);
    WellSignedAppend(h, j);
    WellSignedAppend(h + j, p);
    WellSignedAppend(h + j + p, r);
  }

  /** The maltreatment, besiegement and bonification adjustments are well signed. */
  lemma AspectWellSigned(planet: PlanetPosition, planets: seq<PlanetPosition>)
    ensures WellSigned(AspectDetails(planet, planets))
  {
    var m, b, o := Maltreatments(planet, planets, Malefics), BesiegementDetails(planet, planets), Bonifications(planet, planets, Benefics);
    MaltreatmentsWellSigned(planet, planets, Malefics);
    BonificationsWellSigned(planet, planets, Benefics);
    assert WellSigned(b);
    WellSignedAppend(m, b);
    WellSignedAppend(m + b, o);
  }

  /** Every maltreatment takes points away and is typed Negative. */
  lemma {:induction false} MaltreatmentsWellSigned(planet: PlanetPosition, planets: seq<PlanetPosition>, ids: seq<PlanetId>)
    ensures WellSigned(Maltreatments(planet, planets, ids))
    decreases |ids|
  {
    if ids != [] {
      MaltreatmentsWellSigned(planet, planets, ids[..|ids| - 1]);
      assert WellSigned(MaltreatmentBy(planet, planets, ids[|ids| - 1]));
      WellSignedAppend(Maltreatments(planet, planets, ids[..|ids| - 1]), MaltreatmentBy(planet, planets, ids[|ids| - 1]));
    }
  }

  /** Every bonification adds points and is typed Positive. */
  lemma {:induction false} BonificationsWellSigned(planet: PlanetPosition, planets: seq<PlanetPosition>, ids: seq<PlanetId>)
    ensures WellSigned(Bonifications(planet, planets, ids))
    decreases |ids|
  {
    if ids != [] {
      BonificationsWellSigned(planet, planets, ids[..|ids| - 1]);
      assert WellSigned(BonificationBy(planet, planets, ids[|ids| - 1]));
      WellSignedAppend(Bonifications(planet, planets, ids[..|ids| - 1]), BonificationBy(planet, planets, ids[|ids| - 1]));
    }
  }

  /** The score record of a planet: base 50 plus every recorded adjustment, no summary yet. */
  function Condition(planet: PlanetPosition, planets: seq<PlanetPosition>): ScoredPlanet
  {
    var ds := ConditionDetails(planet, planets);
    ScoredPlanet(planet.id, planet.name, 50, 50 + SumScores(ds), "", ds)
  }

  /**
   * `calculateConditionScore`: walks the rules in order, adding each adjustment to
   * the running score and recording it.
   */
  method CalculateConditionScore(planet: PlanetPosition, chart: ChartData) returns (scored: ScoredPlanet)
    ensures scored.details == ConditionDetails(planet, chart.planets)
    ensures scored.totalScore == scored.baseScore + SumScores(scored.details)
    ensures scored == Condition(planet, chart.planets)
  {
    var essential, essentialScore := EssentialDignity(planet, chart.planets);
    var accidental, accidentalScore := AccidentalDignity(planet, chart.planets);
    var aspects, aspectScore := AspectConditions(planet, chart.planets);
    var details := essential + accidental + aspects;
    var score := 50 + essentialScore + accidentalScore + aspectScore;
    assert details == ConditionDetails(planet, chart.planets);
    assert score == 50 + SumScores(details) by {
      SumScoresOfThree(essential, accidental, aspects);
    }
    scored := ScoredPlanet(planet.id, planet.name, 50, score, "", details);
    IsCondition(scored, planet, chart.planets);
  }

  /** A record with the planet's id and name, base 50, no summary, and the planet's adjustments and their total, is its condition. */
  lemma IsCondition(scored: ScoredPlanet, planet: PlanetPosition, planets: seq<PlanetPosition>)
    requires scored.planetId == planet.id && scored.planetName == planet.name
    requires scored.baseScore == 50 && scored.conditionSummary == ""
    requires scored.details == ConditionDetails(planet, planets)
    requires scored.totalScore == 50 + SumScores(scored.details)
    ensures scored == Condition(planet, planets)
  {
  }

  /** Sections B to D of `calculateConditionScore`: house, joy, solar phase and retrogradation. */
  method AccidentalDignity(planet: PlanetPosition, planets: seq<PlanetPosition>) returns (details: seq<ConditionDetail>, score: int)
    ensures details == AccidentalDetails(planet, planets)
    ensures score == SumScores(details)
  {
    details, score := AddHouse(planet.house, [], 0);
    details, score := AddJoy(planet, details, score);
    details, score := AddSolarPhase(planet, planets, details, score);
    details, score := AddRetrograde(planet, details, score);
    assert [] + HouseDetails(planet.house) == HouseDetails(planet.house);
  }

  /** Section B: +10 in an angular house, +5 in the ninth, -5 in the other cadent houses. */
  method AddHouse(house: HouseNumber, details0: seq<ConditionDetail>, score0: int) returns (details: seq<ConditionDetail>, score: int)
    requires score0 == SumScores(details0)
    ensures details == details0 + HouseDetails(house)
    ensures score == SumScores(details)
  {
    details, score := details0, score0;
    if house in [1, 4, 7, 10] {
      SumScoresPush(details, Pos("Casa Angular", 10));
      details, score := details + [Pos("Casa Angular", 10)], score + 10;
    } else if house in [3, 6, 9, 12] {
      if house == 9 {
        SumScoresPush(details, Pos("Casa 9 (Gozo del Sol)", 5));
        details, score := details + [Pos("Casa 9 (Gozo del Sol)", 5)], score + 5;
      } else {
        SumScoresPush(details, Neg("Casa Cadente", -5));
        details, score := details + [Neg("Casa Cadente", -5)], score - 5;
      }
    } else {
      assert details == details0 + [];
    }
  }

  /** Section C: +10 when the planet is in the house of its joy. */
  method AddJoy(planet: PlanetPosition, details0: seq<ConditionDetail>, score0: int) returns (details: seq<ConditionDetail>, score: int)
    requires score0 == SumScores(details0)
    ensures details == details0 + JoyDetails(planet)
    ensures score == SumScores(details)
  {
    details, score := details0, score0;
    if JoyOf(planet.id) == Some(planet.house) {
      SumScoresPush(details, Pos("Gozo Planetario", 10));
      details, score := details + [Pos("Gozo Planetario", 10)], score + 10;
    } else {
      assert details == details0 + [];
    }
  }

  /** Section D, solar phase: +15 cazimi, -15 combust, -5 under the beams, by the separation from the Sun. */
  method AddSolarPhase(planet: PlanetPosition, planets: seq<PlanetPosition>, details0: seq<ConditionDetail>, score0: int)
    returns (details: seq<ConditionDetail>, score: int)
    requires score0 == SumScores(details0)
    ensures details == details0 + SolarPhaseDetails(planet, planets)
    ensures score == SumScores(details)
  {
    details, score := details0, score0;
    var sun := PlanetById(planets, Sun);
    if sun.Some? && planet.id != Sun {
      var dist := AngleDiff(planet.longitude, sun.value.longitude);
      if dist < 17.0 / 60.0 {
        SumScoresPush(details, Pos("Cazimi", 15));
        details, score := details + [Pos("Cazimi", 15)], score + 15;
      } else if dist < 8.0 {
        SumScoresPush(details, Neg("Combusto", -15));
        details, score := details + [Neg("Combusto", -15)], score - 15;
      } else if dist < 15.0 {
        SumScoresPush(details, Neg("Bajo los Rayos", -5));
        details, score := details + [Neg("Bajo los Rayos", -5)], score - 5;
      } else {
        assert details == details0 + [];
      }
    } else {
      assert details == details0 + [];
    }
  }

  /** Section D, retrogradation: -10 for a retrograde Mercury, Venus, Mars, Jupiter or Saturn. */
  method AddRetrograde(planet: PlanetPosition, details0: seq<ConditionDetail>, score0: int) returns (details: seq<ConditionDetail>, score: int)
    requires score0 == SumScores(details0)
    ensures details == details0 + RetrogradeDetails(planet)
    ensures score == SumScores(details)
  {
    details, score := details0, score0;
    if planet.id in [Mercury, Venus, Mars, Jupiter, Saturn] && planet.isRetrograde {
      SumScoresPush(details, Neg("Retrógrado", -10));
      details, score := details + [Neg("Retrógrado", -10)], score - 10;
    } else {
      assert details == details0 + [];
    }
  }

  /** Section E of `calculateConditionScore`: maltreatment by the malefics, besiegement, bonification by the benefics. */
  method AspectConditions(planet: PlanetPosition, planets: seq<PlanetPosition>) returns (details: seq<ConditionDetail>, score: int)
    ensures details == AspectDetails(planet, planets)
    ensures score == SumScores(details)
  {
    details, score := Maltreat(planet, planets, [], 0);
    details, score := AddBesiegement(planet, planets, details, score);
    details, score := Bonify(planet, planets, details, score);
    assert [] + Maltreatments(planet, planets, Malefics) == Maltreatments(planet, planets, Malefics);
  }

  /** One malefic of the malefics loop: -15 for its superior square, else -10 for its opposition, else -10 for its conjunction. */
  method AddMaltreatment(planet: PlanetPosition, planets: seq<PlanetPosition>, maleficId: PlanetId,
                         details0: seq<ConditionDetail>, score0: int) returns (details: seq<ConditionDetail>, score: int)
    requires score0 == SumScores(details0)
    ensures details == details0 + MaltreatmentBy(planet, planets, maleficId)
    ensures score == SumScores(details)
  {
    details, score := details0, score0;
    assert details == details0 + [];
    if maleficId == planet.id {
      assert MaltreatmentBy(planet, planets, maleficId) == [];
      return;
    }
    var found := PlanetById(planets, maleficId);
    if found.None? {
      assert MaltreatmentBy(planet, planets, maleficId) == [];
      return;
    }
    var malefic := found.value;
    if CheckAspect(planet, malefic, SuperiorSquare) {
      var d := Neg("Dominado por " + malefic.name + " (Cuadratura Superior)", -15);
      assert MaltreatmentBy(planet, planets, maleficId) == [d];
      SumScoresPush(details, d);
      details, score := details + [d], score - 15;
    } else if CheckAspect(planet, malefic, Opposition) {
      var d := Neg("Oposición de " + malefic.name, -10);
      assert MaltreatmentBy(planet, planets, maleficId) == [d];
      SumScoresPush(details, d);
      details, score := details + [d], score - 10;
    } else if CheckAspect(planet, malefic, Conjunction) {
      var d := Neg("Conjunción con " + malefic.name, -10);
      assert MaltreatmentBy(planet, planets, maleficId) == [d];
      SumScoresPush(details, d);
      details, score := details + [d], score - 10;
    } else {
      assert MaltreatmentBy(planet, planets, maleficId) == [];
    }
  }

  /** Besiegement: -20 when Mars and Saturn occupy the signs either side of the planet. */
  method AddBesiegement(planet: PlanetPosition, planets: seq<PlanetPosition>, details0: seq<ConditionDetail>, score0: int)
    returns (details: seq<ConditionDetail>, score: int)
    requires score0 == SumScores(details0)
    ensures details == details0 + BesiegementDetails(planet, planets)
    ensures score == SumScores(details)
  {
    details, score := details0, score0;
    assert details == details0 + [];
    var mars := PlanetById(planets, Mars);
    var saturn := PlanetById(planets, Saturn);
    if mars.Some? && saturn.Some? && planet.id != Mars && planet.id != Saturn {
      var pSign: int := planet.signId;
      var prevSign := (pSign - 1 + 12) % 12;
      var nextSign := (pSign + 1) % 12;
      var flanked1 := mars.value.signId == prevSign && saturn.value.signId == nextSign;
      var flanked2 := saturn.value.signId == prevSign && mars.value.signId == nextSign;
      if flanked1 || flanked2 {
        var d := Neg("Asedio (Encierro entre Maléficos)", -20);
        assert BesiegementDetails(planet, planets) == [d];
        SumScoresPush(details, d);
        details, score := details + [d], score - 20;
      } else {
        assert BesiegementDetails(planet, planets) == [];
      }
    } else {
      assert BesiegementDetails(planet, planets) == [];
    }
  }

  /** One benefic of the benefics loop: +10 for its conjunction, else +5 for its trine, else +8 for its superior square. */
  method AddBonification(planet: PlanetPosition, planets: seq<PlanetPosition>, beneficId: PlanetId,
                         details0: seq<ConditionDetail>, score0: int) returns (details: seq<ConditionDetail>, score: int)
    requires score0 == SumScores(details0)
    ensures details == details0 + BonificationBy(planet, planets, beneficId)
    ensures score == SumScores(details)
  {
    details, score := details0, score0;
    assert details == details0 + [];
    if beneficId == planet.id {
      assert BonificationBy(planet, planets, beneficId) == [];
      return;
    }
    var found := PlanetById(planets, beneficId);
    if found.None? {
      assert BonificationBy(planet, planets, beneficId) == [];
      return;
    }
    var benefic := found.value;
    if CheckAspect(planet, benefic, Conjunction) {
      var d := Pos("Conjunción con " + benefic.name, 10);
      assert BonificationBy(planet, planets, beneficId) == [d];
      SumScoresPush(details, d);
      details, score := details + [d], score + 10;
    } else if CheckAspect(planet, benefic, Trine) {
      var d := Pos("Trígono de " + benefic.name, 5);
      assert BonificationBy(planet, planets, beneficId) == [d];
      SumScoresPush(details, d);
      details, score := details + [d], score + 5;
    } else if CheckAspect(planet, benefic, SuperiorSquare) {
      var d := Pos("Dominio de " + benefic.name + " (Cuadratura Superior)", 8);
      assert BonificationBy(planet, planets, beneficId) == [d];
      SumScoresPush(details, d);
      details, score := details + [d], score + 8;
    } else {
      assert BonificationBy(planet, planets, beneficId) == [];
    }
  }

  /** The malefics loop of `calculateConditionScore`: each malefic in turn, and the points it takes away. */
  method Maltreat(planet: PlanetPosition, planets: seq<PlanetPosition>, details0: seq<ConditionDetail>, score0: int)
    returns (details: seq<ConditionDetail>, score: int)
    requires score0 == SumScores(details0)
    ensures details == details0 + Maltreatments(planet, planets, Malefics)
    ensures score == SumScores(details)
  {
    details, score := details0, score0;
    assert details == details0 + Maltreatments(planet, planets, Malefics[..0]);
    for i := 0 to |Malefics|
      invariant details == details0 + Maltreatments(planet, planets, Malefics[..i])
      invariant score == SumScores(details)
    {
      ghost var before := details;
      details, score := AddMaltreatment(planet, planets, Malefics[i], details, score);
      MaltreatmentsStep(planet, planets, Malefics, i, details0, before, details);
    }
    assert Malefics[..|Malefics|] == Malefics;
  }

  /** The benefics loop of `calculateConditionScore`: each benefic in turn, and the points it adds. */
  method Bonify(planet: PlanetPosition, planets: seq<PlanetPosition>, details0: seq<ConditionDetail>, score0: int)
    returns (details: seq<ConditionDetail>, score: int)
    requires score0 == SumScores(details0)
    ensures details == details0 + Bonifications(planet, planets, Benefics)
    ensures score == SumScores(details)
  {
    details, score := details0, score0;
    assert details == details0 + Bonifications(planet, planets, Benefics[..0]);
    for i := 0 to |Benefics|
      invariant details == details0 + Bonifications(planet, planets, Benefics[..i])
      invariant score == SumScores(details)
    {
      ghost var before := details;
      details, score := AddBonification(planet, planets, Benefics[i], details, score);
      BonificationsStep(planet, planets, Benefics, i, details0, before, details);
    }
    assert Benefics[..|Benefics|] == Benefics;
  }

  /** The domicile and mutual-reception steps of `calculateConditionScore`: at most one of the two is recorded. */
  method RulerDignity(planet: PlanetPosition, planets: seq<PlanetPosition>) returns (details: seq<ConditionDetail>, score: int)
    ensures var domicile := TraditionalRuler(planet.signId) == planet.id;
      var reception := !domicile && MutualReception(planet, planets);
      && details == RulerDetails(domicile, reception)
      && score == SumScores(details)
  {
    details, score := [], 0;
    var rulerId := TraditionalRuler(planet.signId);
    if rulerId == planet.id {
      SumScoresPush(details, DomicileDetail);
      details, score := details + [DomicileDetail], score + 15;
    } else {
      var rulerPlanet := PlanetById(planets, rulerId);
      if rulerPlanet.Some? {
        var rulerOfRulerId := TraditionalRuler(rulerPlanet.value.signId);
        if rulerOfRulerId == planet.id {
          SumScoresPush(details, ReceptionDetail);
          details, score := details + [ReceptionDetail], score + 5;
        }
      }
    }
  }

  /** The exaltation, fall and detriment steps of `calculateConditionScore`, each by its table. */
  method TableDignity(planet: PlanetPosition) returns (details: seq<ConditionDetail>, score: int)
    ensures details == TableDetails(ExaltationOf(planet.id) == Some(planet.signId),
      FallOf(planet.id) == Some(planet.signId), planet.signId in DetrimentsOf(planet.id))
    ensures score == SumScores(details)
  {
    details, score := [], 0;
    var signId := planet.signId;
    var exalted := ExaltationOf(planet.id) == Some(signId);
    var fall := FallOf(planet.id) == Some(signId);
    var detriment := signId in DetrimentsOf(planet.id);
    if exalted {
      SumScoresPush(details, ExaltationDetail);
      details, score := details + [ExaltationDetail], score + 10;
    }
    assert details == When(exalted, ExaltationDetail);
    if fall {
      SumScoresPush(details, FallDetail);
      details, score := details + [FallDetail], score - 15;
    }
    assert details == When(exalted, ExaltationDetail) + When(fall, FallDetail);
    if detriment {
      SumScoresPush(details, DetrimentDetail);
      details, score := details + [DetrimentDetail], score - 10;
    }
  }

  /** The essential-dignity block of `calculateConditionScore`: the adjustments and their sum. */
  method EssentialDignity(planet: PlanetPosition, planets: seq<PlanetPosition>) returns (details: seq<ConditionDetail>, score: int)
    ensures details == EssentialDetails(planet, planets)
    ensures score == SumScores(details)
  {
    var signId := planet.signId;
    var rulerId := TraditionalRuler(signId);
    var rulerDetails, rulerScore := RulerDignity(planet, planets);
    var tableDetails, tableScore := TableDignity(planet);
    details, score := rulerDetails + tableDetails, rulerScore + tableScore;
    var exalted := ExaltationOf(planet.id) == Some(signId);
    var hasDignity := rulerId == planet.id || exalted || ReceptionDetail in details;
    if !hasDignity {
      details, score := details + [PeregrineDetail], score - 5;
    }
    EssentialParts(planet, planets, rulerDetails, tableDetails, hasDignity, details);
    PeregrineScore(rulerDetails, tableDetails, rulerScore, tableScore, hasDignity, details, score);
  }

  /** The running score of the essential-dignity block is the sum of the adjustments it records. */
  lemma PeregrineScore(r: seq<ConditionDetail>, t: seq<ConditionDetail>, rs: int, ts: int,
                       hasDignity: bool, details: seq<ConditionDetail>, score: int)
    requires details == if hasDignity then r + t else r + t + [PeregrineDetail]
    requires rs == SumScores(r) && ts == SumScores(t)
    requires score == if hasDignity then rs + ts else rs + ts - 5
    ensures score == SumScores(details)
  {
    SumScoresAppend(r, t);
    SumScoresPush(r + t, PeregrineDetail);
  }

  /** `DignityParts` for the rule outcomes of one planet. */
  lemma EssentialParts(planet: PlanetPosition, planets: seq<PlanetPosition>,
                       r: seq<ConditionDetail>, t: seq<ConditionDetail>, hasDignity: bool, details: seq<ConditionDetail>)
    requires var domicile := TraditionalRuler(planet.signId) == planet.id;
      r == RulerDetails(domicile, !domicile && MutualReception(planet, planets))
    requires t == TableDetails(ExaltationOf(planet.id) == Some(planet.signId),
      FallOf(planet.id) == Some(planet.signId), planet.signId in DetrimentsOf(planet.id))
    requires hasDignity == (TraditionalRuler(planet.signId) == planet.id || ExaltationOf(planet.id) == Some(planet.signId) || ReceptionDetail in r + t)
    requires details == if hasDignity then r + t else r + t + [PeregrineDetail]
    ensures details == EssentialDetails(planet, planets)
  {
    var domicile := TraditionalRuler(planet.signId) == planet.id;
    DignityParts(domicile, !domicile && MutualReception(planet, planets), ExaltationOf(planet.id) == Some(planet.signId),
      FallOf(planet.id) == Some(planet.signId), planet.signId in DetrimentsOf(planet.id), r, t, hasDignity, details);
  }

  /**
   * The domicile-and-reception adjustments followed by the table adjustments, and
   * then the peregrine one when none of domicile, exaltation and reception is
   * recorded, are the essential-dignity adjustments.
   */
  lemma DignityParts(domicile: bool, reception: bool, exalted: bool, fall: bool, detriment: bool,
                     r: seq<ConditionDetail>, t: seq<ConditionDetail>, hasDignity: bool, details: seq<ConditionDetail>)
    requires reception ==> !domicile
    requires r == RulerDetails(domicile, reception)
    requires t == TableDetails(exalted, fall, detriment)
    requires hasDignity == (domicile || exalted || ReceptionDetail in r + t)
    requires details == if hasDignity then r + t else r + t + [PeregrineDetail]
    ensures details == DignityDetails(domicile, reception, exalted, fall, detriment)
  {
    assert ReceptionDetail !in t;
    assert ReceptionDetail in r + t <==> reception;
    if hasDignity {
      assert r + t + When(false, PeregrineDetail) == r + t;
    }
  }

  /** The summary of the sect's benefic: impeded below 40, very dignified above 60. */
  function PositiveSummary(totalScore: int): (summary: string)
    ensures summary == "Impedido" <==> totalScore < 40
    ensures summary == "Muy Dignificado" <==> totalScore > 60
    ensures summary == "Favorable" <==> 40 <= totalScore <= 60
  {
    if totalScore < 40 then "Impedido"
    else if totalScore > 60 then "Muy Dignificado" else "Favorable"
  }

  /** The summary of the sect's malefic: domesticated above 60, difficult below 40. */
  function NegativeSummary(totalScore: int): (summary: string)
    ensures summary == "Constructivo / Domesticado" <==> totalScore > 60
    ensures summary == "Difícil" <==> totalScore < 40
    ensures summary == "Moderado" <==> 40 <= totalScore <= 60
  {
    if totalScore > 60 then "Constructivo / Domesticado"
    else if totalScore < 40 then "Difícil" else "Moderado"
  }

  /** The benefic of the sect: Jupiter by day, Venus by night. */
  function SectBenefic(isDay: bool): PlanetId
  {
    if isDay then Jupiter else Venus
  }

  /** The malefic the analysis takes for the sect: Mars by day, Saturn by night. */
  function SectMalefic(isDay: bool): PlanetId
  {
    if isDay then Mars else Saturn
  }

  /**
   * `analyzePositiveNegative`: scores the sect's benefic and malefic and labels
   * them; fails when either is missing from the chart.
   */
  method AnalyzePositiveNegative(chart: ChartData) returns (r: Result<PositiveNegativeAnalysis, string>)
    ensures r.Err? <==> PlanetById(chart.planets, SectBenefic(chart.isDayChart)).None? || PlanetById(chart.planets, SectMalefic(chart.isDayChart)).None?
    ensures r.Err? ==> r.error == "Planets missing from chart data"
    ensures r.Ok? ==>
      var pos, neg := PlanetById(chart.planets, SectBenefic(chart.isDayChart)).value, PlanetById(chart.planets, SectMalefic(chart.isDayChart)).value;
      && r.value.sect == (if chart.isDayChart then "Diurna" else "Nocturna")
      && r.value.mostPositive == Condition(pos, chart.planets).(conditionSummary := PositiveSummary(Condition(pos, chart.planets).totalScore))
      && r.value.mostNegative == Condition(neg, chart.planets).(conditionSummary := NegativeSummary(Condition(neg, chart.planets).totalScore))
  {
    var isDay := chart.isDayChart;
    var posId := if isDay then Jupiter else Venus;
    var negId := if isDay then Mars else Saturn;
    var posPlanet := PlanetById(chart.planets, posId);
    var negPlanet := PlanetById(chart.planets, negId);
    if posPlanet.None? || negPlanet.None? {
      return Err("Planets missing from chart data");
    }
    var posResult := CalculateConditionScore(posPlanet.value, chart);
    var negResult := CalculateConditionScore(negPlanet.value, chart);
    if posResult.totalScore < 40 {
      posResult := posResult.(conditionSummary := "Impedido");
    } else {
      posResult := posResult.(conditionSummary := if posResult.totalScore > 60 then "Muy Dignificado" else "Favorable");
    }
    if negResult.totalScore > 60 {
      negResult := negResult.(conditionSummary := "Constructivo / Domesticado");
    } else {
      negResult := negResult.(conditionSummary := if negResult.totalScore < 40 then "Difícil" else "Moderado");
    }
    r := Ok(PositiveNegativeAnalysis(if isDay then "Diurna" else "Nocturna", posResult, negResult));
  }
}
