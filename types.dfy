/**
 * The records of types.ts: planet identifiers, the static zodiac table, and the
 * shapes of positions, houses, profections, lots, charts and condition scores.
 */
module Types {
  import opened Wrappers
  import opened Angles

  /** `PlanetId`; its string values are given by `PlanetName`. */
  datatype PlanetId =
    | Sun | Moon | Mercury | Venus | Mars | Jupiter | Saturn
    | Uranus | Neptune | Pluto | Chiron | NorthNode | SouthNode
    | Ascendant | Midheaven

  /** The string value of each `PlanetId` enum member. */
  function PlanetName(p: PlanetId): string
  {
    match p
    case Sun => "Sol"
    case Moon => "Luna"
    case Mercury => "Mercurio"
    case Venus => "Venus"
    case Mars => "Marte"
    case Jupiter => "Júpiter"
    case Saturn => "Saturno"
    case Uranus => "Urano"
    case Neptune => "Neptuno"
    case Pluto => "Plutón"
    case Chiron => "Quirón"
    case NorthNode => "Nodo Norte"
    case SouthNode => "Nodo Sur"
    case Ascendant => "Ascendente"
    case Midheaven => "Medio Cielo"
  }

  /** A zodiac sign index, Aries = 0 through Pisces = 11. */
  type SignId = i: int | 0 <= i < 12

  /** A house number, 1 through 12. */
  type HouseNumber = h: int | 1 <= h <= 12 witness 1

  /** A month as JavaScript's `Date.getMonth()` gives it: January = 0. */
  type Month = m: int | 0 <= m < 12

  /** The calendar fields of a JavaScript `Date` that the profection logic reads. */
  datatype CalendarDate = CalendarDate(year: int, month: Month, day: int)

  /** The ruler kinds 'Tradicional', 'Moderno' and 'Único'. */
  datatype RulerType = Traditional | Modern | Sole

  datatype RulerDef = RulerDef(name: string, kind: RulerType)

  datatype ZodiacSign = ZodiacSign(id: int, name: string, symbol: string, element: string, rulers: seq<RulerDef>)

  /** `ZODIAC_SIGNS`. */
  const ZodiacSigns: seq<ZodiacSign> := [
    ZodiacSign(0, "Aries", "♈", "Fuego", [RulerDef("Marte", Sole)]),
    ZodiacSign(1, "Tauro", "♉", "Tierra", [RulerDef("Venus", Sole)]),
    ZodiacSign(2, "Géminis", "♊", "Aire", [RulerDef("Mercurio", Sole)]),
    ZodiacSign(3, "Cáncer", "♋", "Agua", [RulerDef("Luna", Sole)]),
    ZodiacSign(4, "Leo", "♌", "Fuego", [RulerDef("Sol", Sole)]),
    ZodiacSign(5, "Virgo", "♍", "Tierra", [RulerDef("Mercurio", Sole)]),
    ZodiacSign(6, "Libra", "♎", "Aire", [RulerDef("Venus", Sole)]),
    ZodiacSign(7, "Escorpio", "♏", "Agua", [RulerDef("Marte", Traditional), RulerDef("Plutón", Modern)]),
    ZodiacSign(8, "Sagitario", "♐", "Fuego", [RulerDef("Júpiter", Sole)]),
    ZodiacSign(9, "Capricornio", "♑", "Tierra", [RulerDef("Saturno", Sole)]),
    ZodiacSign(10, "Acuario", "♒", "Aire", [RulerDef("Saturno", Traditional), RulerDef("Urano", Modern)]),
    ZodiacSign(11, "Piscis", "♓", "Agua", [RulerDef("Júpiter", Traditional), RulerDef("Neptuno", Modern)])
  ]

  /**
   * The sign names in zodiac order, as the return and transit lookups and the
   * profection-corpus validator write them out.
   */
  const SignNames: seq<string> := [
    "Aries", "Tauro", "Géminis", "Cáncer", "Leo", "Virgo",
    "Libra", "Escorpio", "Sagitario", "Capricornio", "Acuario", "Piscis"]

  /** The four elements, in the order in which they recur around the zodiac. */
  const Elements: seq<string> := ["Fuego", "Tierra", "Aire", "Agua"]

  /** Essential dignities 'Domicilio', 'Exaltación', 'Detrimento' and 'Caída'. */
  datatype Dignity = Domicile | Exaltation | Detriment | Fall

  datatype PlanetPosition = PlanetPosition(
    id: PlanetId,
    name: string,
    longitude: Degrees,
    speed: real,
    isRetrograde: bool,
    signId: SignId,
    house: HouseNumber,
    symbol: string,
    dignity: Option<Dignity>)

  /** A ruler of a house's sign and the house that ruler occupies (0 when it is not in the chart). */
  datatype RulerInfo = RulerInfo(name: string, kind: RulerType, house: int)

  datatype HouseData = HouseData(
    houseNumber: HouseNumber,
    signId: SignId,
    signName: string,
    degreeStart: int,
    rulers: seq<RulerInfo>)

  /** `ProfectionData`. The house number is an int: negative ages give house numbers below 1. */
  datatype ProfectionData = ProfectionData(age: int, houseNumber: int, signId: SignId, ruler: string, timeLord: string)

  datatype HermeticLot = HermeticLot(
    key: string,
    name: string,
    longitude: Degrees,
    signId: SignId,
    house: HouseNumber,
    symbol: string,
    meaning: string)

  /** The fields `calculateChart` fills in (it leaves `birthDate` unset). */
  datatype ChartData = ChartData(
    name: string,
    planets: seq<PlanetPosition>,
    ascendant: PlanetPosition,
    midheaven: PlanetPosition,
    houses: seq<HouseData>,
    profection: ProfectionData,
    hermeticLots: seq<HermeticLot>,
    zodiacOffset: int,
    isDayChart: bool)

  /** The detail types 'Positive' and 'Negative'. */
  datatype DetailType = Positive | Negative

  datatype ConditionDetail = ConditionDetail(description: string, score: int, kind: DetailType)

  datatype ScoredPlanet = ScoredPlanet(
    planetId: PlanetId,
    planetName: string,
    baseScore: int,
    totalScore: int,
    conditionSummary: string,
    details: seq<ConditionDetail>)

  /** The fields of `PositiveNegativeAnalysis` that `analyzePositiveNegative` fills in. */
  datatype PositiveNegativeAnalysis = PositiveNegativeAnalysis(
    sect: string,
    mostPositive: ScoredPlanet,
    mostNegative: ScoredPlanet)

  /** The sign table has twelve entries and entry `i` carries id `i`. */
  lemma ZodiacSignsIndexed()
    ensures |ZodiacSigns| == 12
    ensures forall i :: 0 <= i < 12 ==> ZodiacSigns[i].id == i
  {
  }

  /**
   * Every sign has one or two rulers and the first is 'Único' or 'Tradicional';
   * exactly Scorpio, Aquarius and Pisces have two, 'Tradicional' then 'Moderno'.
   */
  lemma ZodiacRulerShapes()
    ensures forall i :: 0 <= i < |ZodiacSigns| ==>
      var rs := ZodiacSigns[i].rulers;
      && 1 <= |rs| <= 2
      && (rs[0].kind == Sole || rs[0].kind == Traditional)
      && (|rs| == 2 <==> i in {7, 10, 11})
      && (|rs| == 2 ==> rs[0].kind == Traditional && rs[1].kind == Modern)
      && (|rs| == 1 ==> rs[0].kind == Sole)
  {
  }

  /** Elements recur Fuego, Tierra, Aire, Agua with the sign index modulo 4. */
  lemma ElementsCycle()
    ensures forall i :: 0 <= i < |ZodiacSigns| ==> ZodiacSigns[i].element == Elements[i % 4]
  {
  }

  /** The enum's string values are pairwise distinct, so lookups by name identify a planet. */
  lemma PlanetNameInjective(p: PlanetId, q: PlanetId)
    requires PlanetName(p) == PlanetName(q)
    ensures p == q
  {
  }

  /** The written-out sign names are the names of the sign table, in the same order. */
  lemma SignNamesMatchTable()
    ensures |SignNames| == |ZodiacSigns|
    ensures forall i :: 0 <= i < |SignNames| ==> SignNames[i] == ZodiacSigns[i].name
  {
  }

  /** No two signs share a name. */
  lemma SignNamesDistinct(i: int, j: int)
    requires 0 <= i < |SignNames| && 0 <= j < |SignNames| && SignNames[i] == SignNames[j]
    ensures i == j
  {
  }
}
