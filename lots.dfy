/**
 * `calculateHermeticLots` of services/astronomyService.ts: the seven Hermetic lots,
 * each projected from the ascendant by the arc between two points, with the order
 * of the two points reversed in a night chart.
 */
module Lots {
  import opened Wrappers
  import opened Seqs
  import opened Angles
  import opened Types
  import opened Houses

  /**
   * `getPos`: the longitude of the first position with the given id, or 0 when the
   * list holds none (a longitude of 0 is falsy, so `|| 0` leaves it at 0).
   */
  function PositionOf(planets: seq<PlanetPosition>, id: PlanetId): (lon: real)
    ensures (forall i :: 0 <= i < |planets| ==> planets[i].id != id) ==> lon == 0.0
    ensures forall k :: FirstMatchAt(planets, (p: PlanetPosition) => p.id == id, k) ==> lon == planets[k].longitude
  {
    var found := FindFirst(planets, (p: PlanetPosition) => p.id == id);
    FirstMatchFound(planets, (p: PlanetPosition) => p.id == id);
    if found.Some? && found.value.longitude != 0.0 then found.value.longitude else 0.0
  }

  /** The lot keys, in the order in which the lots are returned. */
  const LotKeys: seq<string> := ["fortune", "spirit", "eros", "necessity", "courage", "victory", "nemesis"]

  /** `createLot`: the sign of the longitude and its whole-sign house from the ascendant's sign. */
  function CreateLot(key: string, name: string, lon: Degrees, symbol: string, meaning: string, ascSign: SignId): (lot: HermeticLot)
    ensures lot.key == key && lot.name == name && lot.symbol == symbol && lot.meaning == meaning && lot.longitude == lon
    ensures 30.0 * (lot.signId as real) <= lon < 30.0 * (lot.signId as real) + 30.0
    ensures (ascSign + lot.house - 1) % 12 == lot.signId
  {
    var signId := GetSign(lon);
    HermeticLot(key, name, lon, signId, WholeSignHouse(signId, ascSign), symbol, meaning)
  }

  /**
   * The point `ascendant + to - from`, normalised: it lies past the ascendant by the
   * arc from `from` to `to`.
   */
  function Project(ascendant: real, to: real, from: real): (p: Degrees)
    ensures Arc(ascendant, p) == Arc(from, to)
  {
    var p := NormalizeDegrees(ascendant + to - from);
    NormalizeAbsorb(ascendant + to - from, -ascendant);
    assert ascendant + to - from + -ascendant == to - from;
    p
  }

  /**
   * The arc from `from` to `to`, measured forward along the zodiac, in [0, 360).
   */
  function Arc(from: real, to: real): (a: Degrees)
  {
    NormalizeDegrees(to - from)
  }

  /** A lot: past the ascendant by the arc from `from` to `to` by day, and from `to` to `from` by night. */
  function Lot(isDayChart: bool, ascendant: real, from: real, to: real): (p: Degrees)
    ensures Arc(ascendant, p) == if isDayChart then Arc(from, to) else Arc(to, from)
  {
    if isDayChart then Project(ascendant, to, from) else Project(ascendant, from, to)
  }

  /** The seven lot longitudes, in key order. */
  datatype LotPoints = LotPoints(
    fortune: Degrees, spirit: Degrees, eros: Degrees, necessity: Degrees,
    courage: Degrees, victory: Degrees, nemesis: Degrees)

  /**
   * The lot formulas. Each lot lies past the ascendant by the arc between its two
   * points: by day Fortune by the arc from the Sun to the Moon, Spirit from the Moon
   * to the Sun, Eros from Spirit to Venus, Necessity from Mercury to Fortune, Courage
   * from Mars to Fortune, Victory from Spirit to Jupiter, Nemesis from Saturn to
   * Fortune; by night each of these arcs is taken in the opposite direction.
   */
  function LotLongitudes(isDayChart: bool, ascendant: real, planets: seq<PlanetPosition>): (l: LotPoints)
    ensures var sun, moon := PositionOf(planets, Sun), PositionOf(planets, Moon);
      && Arc(ascendant, l.fortune) == (if isDayChart then Arc(sun, moon) else Arc(moon, sun))
      && Arc(ascendant, l.spirit) == (if isDayChart then Arc(moon, sun) else Arc(sun, moon))
    ensures var venus := PositionOf(planets, Venus);
      Arc(ascendant, l.eros) == (if isDayChart then Arc(l.spirit, venus) else Arc(venus, l.spirit))
    ensures var mercury := PositionOf(planets, Mercury);
      Arc(ascendant, l.necessity) == (if isDayChart then Arc(mercury, l.fortune) else Arc(l.fortune, mercury))
    ensures var mars := PositionOf(planets, Mars);
      Arc(ascendant, l.courage) == (if isDayChart then Arc(mars, l.fortune) else Arc(l.fortune, mars))
    ensures var jupiter := PositionOf(planets, Jupiter);
      Arc(ascendant, l.victory) == (if isDayChart then Arc(l.spirit, jupiter) else Arc(jupiter, l.spirit))
    ensures var saturn := PositionOf(planets, Saturn);
      Arc(ascendant, l.nemesis) == (if isDayChart then Arc(saturn, l.fortune) else Arc(l.fortune, saturn))
  {
    var sun := PositionOf(planets, Sun);
    var moon := PositionOf(planets, Moon);
    var mercury := PositionOf(planets, Mercury);
    var venus := PositionOf(planets, Venus);
    var mars := PositionOf(planets, Mars);
    var jupiter := PositionOf(planets, Jupiter);
    var saturn := PositionOf(planets, Saturn);
    var fortune := Lot(isDayChart, ascendant, sun, moon);
    var spirit := Lot(isDayChart, ascendant, moon, sun);
    var eros := Lot(isDayChart, ascendant, spirit, venus);
    var necessity := Lot(isDayChart, ascendant, mercury, fortune);
    var courage := Lot(isDayChart, ascendant, mars, fortune);
    var victory := Lot(isDayChart, ascendant, spirit, jupiter);
    var nemesis := Lot(isDayChart, ascendant, saturn, fortune);
    LotPoints(fortune, spirit, eros, necessity, courage, victory, nemesis)
  }

  /** The lot longitudes in key order. */
  function InKeyOrder(l: LotPoints): (pts: seq<Degrees>)
    ensures |pts| == 7 && pts[0] == l.fortune && pts[1] == l.spirit && pts[6] == l.nemesis
  {
    [l.fortune, l.spirit, l.eros, l.necessity, l.courage, l.victory, l.nemesis]
  }

  const LotNames: seq<string> := ["Fortuna", "Espíritu", "Eros", "Necesidad", "Coraje", "Victoria", "Némesis"]

  const LotSymbols: seq<string> := ["⊗", "⊙", "♥", "⚗", "⚔", "♛", "⚖"]

  const LotMeanings: seq<string> := [
    "Salud, cuerpo, prosperidad y circunstancias materiales.",
    "Voluntad, acción, carrera y lo que hacemos activamente.",
    "Deseos, apetitos, amor y relaciones sociales.",
    "Limitaciones, obligaciones, luchas inevitables.",
    "Audacia, acción atrevida, y toma de riesgos.",
    "Éxito, logros, y la superación de obstáculos.",
    "Causas de infortunio, obstáculos y enemigos ocultos."
  ]

  /** `calculateHermeticLots`: one `createLot` per key, in key order. */
  function HermeticLots(isDayChart: bool, ascendant: real, planets: seq<PlanetPosition>, ascSign: SignId): (lots: seq<HermeticLot>)
    ensures |lots| == 7
    ensures forall i :: 0 <= i < 7 ==>
      && lots[i].key == LotKeys[i]
      && lots[i].longitude == InKeyOrder(LotLongitudes(isDayChart, ascendant, planets))[i]
      && lots[i].signId == GetSign(lots[i].longitude)
      && lots[i].house == WholeSignHouse(lots[i].signId, ascSign)
  {
    CreateLots(InKeyOrder(LotLongitudes(isDayChart, ascendant, planets)), ascSign)
  }

  /** One lot per key, at the longitude listed for it. */
  function CreateLots(pts: seq<Degrees>, ascSign: SignId): (lots: seq<HermeticLot>)
    requires |pts| == 7
    ensures |lots| == 7
    ensures forall i :: 0 <= i < 7 ==>
      && lots[i].key == LotKeys[i]
      && lots[i].longitude == pts[i]
      && lots[i].signId == GetSign(pts[i])
      && lots[i].house == WholeSignHouse(lots[i].signId, ascSign)
  {
    seq(7, i requires 0 <= i < 7 => CreateLot(LotKeys[i], LotNames[i], pts[i], LotSymbols[i], LotMeanings[i], ascSign))
  }

  /** For the same positions, the day Fortune is the night Spirit and the day Spirit the night Fortune. */
  lemma FortuneSpiritSwap(ascendant: real, planets: seq<PlanetPosition>)
    ensures LotLongitudes(true, ascendant, planets).fortune == LotLongitudes(false, ascendant, planets).spirit
    ensures LotLongitudes(true, ascendant, planets).spirit == LotLongitudes(false, ascendant, planets).fortune
  {
  }

  /** By day, with the ascendant at 100, the Sun at 90 and the Moon at 200: Fortune 210, Spirit 350. */
  lemma DayVector(planets: seq<PlanetPosition>)
    requires PositionOf(planets, Sun) == 90.0 && PositionOf(planets, Moon) == 200.0
    ensures LotLongitudes(true, 100.0, planets).fortune == 210.0
    ensures LotLongitudes(true, 100.0, planets).spirit == 350.0
  {
    NormalizeIdentity(210.0);
    NormalizeUnique(-10.0, 350.0, -1);
  }

  /** By night, with the ascendant at 100, the Sun at 200 and the Moon at 300: Fortune 0, Spirit 200. */
  lemma NightVector(planets: seq<PlanetPosition>)
    requires PositionOf(planets, Sun) == 200.0 && PositionOf(planets, Moon) == 300.0
    ensures LotLongitudes(false, 100.0, planets).fortune == 0.0
    ensures LotLongitudes(false, 100.0, planets).spirit == 200.0
  {
    NormalizeIdentity(0.0);
    NormalizeIdentity(200.0);
  }
}
