/**
 * The rule part of `calculateChart` in services/astronomyService.ts: placing the
 * bodies in signs and whole-sign houses, the lunar nodes and Chiron, the twelve
 * house records with the houses of their rulers, the sect, the profection and the
 * lots. Longitudes and the raw motion over the sampling interval are inputs.
 */
module Chart {
  import opened Wrappers
  import opened Seqs
  import opened Angles
  import opened Types
  import opened Houses
  import opened Dignity
  import opened Profection
  import opened Lots

  /** An entry of `celestialBodies`. */
  datatype Body = Body(id: PlanetId, name: string, symbol: string)

  /** `celestialBodies`, in the order in which the chart lists them. */
  const CelestialBodies: seq<Body> := [
    Body(Sun, "Sol", "☉"),
    Body(Moon, "Luna", "☽"),
    Body(Mercury, "Mercurio", "☿"),
    Body(Venus, "Venus", "♀"),
    Body(Mars, "Marte", "♂"),
    Body(Jupiter, "Júpiter", "♃"),
    Body(Saturn, "Saturno", "♄"),
    Body(Uranus, "Urano", "♅"),
    Body(Neptune, "Neptuno", "♆"),
    Body(Pluto, "Plutón", "♇")
  ]

  /** A body's ecliptic longitude and its change in longitude over the sampling interval. */
  datatype BodyReading = BodyReading(longitude: Degrees, rawSpeed: real)

  /**
   * The motion of a body over 0.01 day: a change below -350 degrees is a pass
   * through 0 Aries, so a full turn is added back.
   */
  function BodySpeed(raw: real): (speed: real)
    ensures -360.0 < raw ==> speed >= -350.0
    ensures speed == raw || speed == raw + 360.0
    ensures raw >= -350.0 ==> speed == raw
  {
    if raw < -350.0 then raw + 360.0 else raw
  }

  /**
   * Chiron's motion over one hour: a change below -300 degrees is a forward pass
   * through 0 Aries and one above 300 a backward pass, each corrected by a turn.
   */
  function ChironSpeed(raw: real): (speed: real)
    ensures speed == raw || speed == raw + 360.0 || speed == raw - 360.0
    ensures -360.0 < raw < 360.0 ==> -300.0 <= speed <= 300.0
    ensures -300.0 <= raw <= 300.0 ==> speed == raw
  {
    var s := raw;
    var s := if raw < -300.0 then s + 360.0 else s;
    if raw > 300.0 then s - 360.0 else s
  }

  /** A position placed in its sign and in the whole-sign house counted from the ascendant's sign. */
  predicate Placed(p: PlanetPosition, ascSign: SignId)
  {
    p.signId == GetSign(p.longitude) && p.house == WholeSignHouse(p.signId, ascSign)
  }

  /**
   * A position record: the sign of the longitude, the whole-sign house of that sign
   * and, when `withDignity` holds, the dignity of the body in that sign.
   */
  function Position(id: PlanetId, name: string, lon: Degrees, speed: real, isRetrograde: bool, symbol: string,
                    withDignity: bool, ascSign: SignId): (p: PlanetPosition)
    ensures Placed(p, ascSign)
    ensures p.id == id && p.name == name && p.longitude == lon && p.symbol == symbol
    ensures p.speed == speed && p.isRetrograde == isRetrograde
    ensures p.dignity == if withDignity then GetDignity(id, p.signId) else None
  {
    var signId := GetSign(lon);
    var house := WholeSignHouse(signId, ascSign);
    PlanetPosition(id, name, lon, speed, isRetrograde, signId, house, symbol,
      if withDignity then GetDignity(id, signId) else None)
  }

  /** One mapped entry of `celestialBodies`: retrograde exactly when its corrected motion is negative. */
  function PlaceBody(body: Body, reading: BodyReading, ascSign: SignId): (p: PlanetPosition)
    ensures Placed(p, ascSign)
    ensures p.id == body.id && p.name == body.name && p.symbol == body.symbol && p.longitude == reading.longitude
    ensures p.speed == BodySpeed(reading.rawSpeed) && (p.isRetrograde <==> p.speed < 0.0)
    ensures p.dignity == GetDignity(p.id, p.signId)
  {
    var speed := BodySpeed(reading.rawSpeed);
    Position(body.id, body.name, reading.longitude, speed, speed < 0.0, body.symbol, true, ascSign)
  }

  /** `celestialBodies.map(...)`. */
  function PlaceBodies(readings: seq<BodyReading>, ascSign: SignId): (bodies: seq<PlanetPosition>)
    requires |readings| == |CelestialBodies|
    ensures |bodies| == |CelestialBodies|
    ensures forall i :: 0 <= i < |CelestialBodies| ==> bodies[i] == PlaceBody(CelestialBodies[i], readings[i], ascSign)
  {
    seq(|CelestialBodies|, i requires 0 <= i < |CelestialBodies| => PlaceBody(CelestialBodies[i], readings[i], ascSign))
  }

  /**
   * `sign.rulers.map(...)`: each ruler with the house of the first chart position
   * bearing its name, or 0 when there is none.
   */
  function RulerInfos(rulers: seq<RulerDef>, planets: seq<PlanetPosition>): (infos: seq<RulerInfo>)
    ensures |infos| == |rulers|
    ensures forall j :: 0 <= j < |rulers| ==> infos[j].name == rulers[j].name && infos[j].kind == rulers[j].kind
    ensures forall j :: 0 <= j < |rulers| ==>
      && ((forall k :: 0 <= k < |planets| ==> planets[k].name != rulers[j].name) ==> infos[j].house == 0)
      && (forall k :: FirstMatchAt(planets, (p: PlanetPosition) => p.name == rulers[j].name, k) ==> infos[j].house == planets[k].house)
      && ((exists k :: 0 <= k < |planets| && planets[k].name == rulers[j].name) ==> 1 <= infos[j].house <= 12)
  {
    seq(|rulers|, j requires 0 <= j < |rulers| => RulerInfoOf(rulers[j], planets))
  }

  function RulerInfoOf(ruler: RulerDef, planets: seq<PlanetPosition>): (info: RulerInfo)
    ensures info.name == ruler.name && info.kind == ruler.kind
    ensures (forall k :: 0 <= k < |planets| ==> planets[k].name != ruler.name) ==> info.house == 0
    ensures forall k :: FirstMatchAt(planets, (p: PlanetPosition) => p.name == ruler.name, k) ==> info.house == planets[k].house
    ensures (exists k :: 0 <= k < |planets| && planets[k].name == ruler.name) ==> 1 <= info.house <= 12
  {
    var found := FindFirst(planets, (p: PlanetPosition) => p.name == ruler.name);
    forall k | FirstMatchAt(planets, (p: PlanetPosition) => p.name == ruler.name, k)
      ensures found == Some(planets[k])
    {
      FindFirstAt(planets, (p: PlanetPosition) => p.name == ruler.name, k);
    }
    RulerInfo(ruler.name, ruler.kind, if found.Some? then found.value.house else 0)
  }

  /** The record of house `i + 1`, as the `Array.from` callback builds it. */
  function HouseRecord(i: int, ascSign: SignId, planets: seq<PlanetPosition>): (h: HouseData)
    requires 0 <= i < 12
    ensures h.houseNumber == i + 1 && WholeSignHouse(h.signId, ascSign) == h.houseNumber
    ensures h.signName == ZodiacSigns[h.signId].name && h.degreeStart == SignStart(h.signId)
    ensures h.rulers == RulerInfos(ZodiacSigns[h.signId].rulers, planets)
  {
    var signIndex := (ascSign + i) % 12;
    var sign := ZodiacSigns[signIndex];
    HouseData(i + 1, signIndex, sign.name, SignStart(signIndex), RulerInfos(sign.rulers, planets))
  }

  /** The twelve house records. */
  function HouseRecords(ascSign: SignId, planets: seq<PlanetPosition>): (houses: seq<HouseData>)
    ensures |houses| == 12
    ensures forall i :: 0 <= i < 12 ==> houses[i] == HouseRecord(i, ascSign, planets)
  {
    seq(12, i requires 0 <= i < 12 => HouseRecord(i, ascSign, planets))
  }

  /** Each sign heads exactly one house, so a position's house record carries the position's sign. */
  lemma HouseRecordOfPosition(ascSign: SignId, planets: seq<PlanetPosition>, p: PlanetPosition)
    requires Placed(p, ascSign)
    ensures HouseRecords(ascSign, planets)[p.house - 1].signId == p.signId
    ensures forall i :: 0 <= i < 12 && HouseRecords(ascSign, planets)[i].signId == p.signId ==> i == p.house - 1
  {
    var houses := HouseRecords(ascSign, planets);
    forall i | 0 <= i < 12
      ensures houses[i].signId == p.signId <==> i == p.house - 1
    {
      assert houses[i] == HouseRecord(i, ascSign, planets);
      HouseSignUnique(ascSign, p.signId, p.house, houses[i].signId, i);
    }
  }


  /** The sign opposite a longitude is six signs on. */
  lemma {:induction false} OppositeSign(lon: Degrees)
    ensures GetSign(NormalizeDegrees(lon + 180.0)) == (GetSign(lon) + 6) % 12
  {
    var s := GetSign(lon);
    if lon < 180.0 {
      NormalizeIdentity(lon + 180.0);
      assert 30.0 * ((s + 6) as real) <= lon + 180.0 < 30.0 * ((s + 6) as real) + 30.0;
      SignBandUnique(lon + 180.0, GetSign(lon + 180.0), s + 6);
    } else {
      NormalizeUnique(lon + 180.0, lon - 180.0, 1);
      assert 30.0 * ((s - 6) as real) <= lon - 180.0 < 30.0 * ((s - 6) as real) + 30.0;
      SignBandUnique(lon - 180.0, GetSign(lon - 180.0), s - 6);
    }
  }

  lemma SignBandUnique(lon: real, s: int, t: int)
    requires 30.0 * (s as real) <= lon < 30.0 * (s as real) + 30.0
    requires 30.0 * (t as real) <= lon < 30.0 * (t as real) + 30.0
    ensures s == t
  {
  }

  /** The number of entries `calculateChart` lists in `planets`: ten bodies, the two nodes and Chiron. */
  const PlanetCount := 13

  /** The identifiers of the chart's positions, in order. */
  const ChartOrder: seq<PlanetId> := [Sun, Moon, Mercury, Venus, Mars, Jupiter, Saturn, Uranus, Neptune, Pluto, NorthNode, SouthNode, Chiron]

  /**
   * The chart: ascendant and midheaven, the ten bodies, the nodes and Chiron, the
   * house records, the profection for `now`, the sect and the lots. The profection
   * of a birth after `now` can fail (see `ProfectionByAge`), and then so does the chart.
   */
  method CalculateChart(name: string, birth: CalendarDate, now: CalendarDate, ascLongitude: Degrees, mcLongitude: Degrees,
                        readings: seq<BodyReading>, northNode: Degrees, chiron: BodyReading)
    returns (chart: Option<ChartData>)
    requires |readings| == |CelestialBodies|
    ensures chart.Some? <==> CalculateProfection(birth, now, GetSign(ascLongitude)).Some?
    ensures chart.Some? ==> ChartInvariant(chart.value, ascLongitude, mcLongitude, readings, northNode, chiron)
    ensures chart.Some? ==> chart.value.profection == CalculateProfection(birth, now, GetSign(ascLongitude)).value
    ensures chart.Some? ==> chart.value.name == name
  {
    var ascSign := GetSign(ascLongitude);
    var ascendant := PlanetPosition(Ascendant, "Ascendente", ascLongitude, 0.0, false, ascSign, 1, "ASC", None);
    var mcSign := GetSign(mcLongitude);
    var midheaven := PlanetPosition(Midheaven, "Medio Cielo", mcLongitude, 0.0, false, mcSign,
      MidheavenHouse(mcSign, ascSign), "MC", None);
    assert midheaven == Position(Midheaven, "Medio Cielo", mcLongitude, 0.0, false, "MC", false, ascSign);

    var planets := ListPositions(readings, northNode, chiron, ascSign);
    var houses := HouseRecords(ascSign, planets);

    var profection := CalculateProfection(birth, now, ascSign);
    if profection.None? {
      return None;
    }

    var sun := FindFirst(planets, (p: PlanetPosition) => p.id == Sun);
    FindFirstAt(planets, (p: PlanetPosition) => p.id == Sun, 0);
    var isDayChart := if sun.Some? then CalculateSect(ascLongitude, sun.value.longitude) else true;

    var hermeticLots := HermeticLots(isDayChart, ascLongitude, planets, ascSign);

    chart := Some(ChartData(name, planets, ascendant, midheaven, houses, profection.value, hermeticLots, SignStart(ascSign), isDayChart));
  }

  /** The `planets` list of `calculateChart`: the ten bodies, then the North Node, the South Node opposite it, and Chiron. */
  method ListPositions(readings: seq<BodyReading>, northNode: Degrees, chiron: BodyReading, ascSign: SignId)
    returns (planets: seq<PlanetPosition>)
    requires |readings| == |CelestialBodies|
    ensures PositionsMatch(planets, ascSign, readings, northNode, chiron)
  {
    var bodies := PlaceBodies(readings, ascSign);
    planets := bodies;

    var northNodePosition := Position(NorthNode, "Nodo Norte", northNode, -0.05, true, "☊", true, ascSign);
    planets := planets + [northNodePosition];

    var southNode := NormalizeDegrees(northNode + 180.0);
    var southNodePosition := Position(SouthNode, "Nodo Sur", southNode, -0.05, true, "☋", true, ascSign);
    planets := planets + [southNodePosition];

    var chironSpeed := ChironSpeed(chiron.rawSpeed);
    var chironPosition := Position(Chiron, "Quirón", chiron.longitude, chironSpeed, chironSpeed < 0.0, "⚷", false, ascSign);
    planets := planets + [chironPosition];

    assert planets == bodies + [northNodePosition, southNodePosition, chironPosition];
    PositionsInOrder(readings, northNode, chiron, ascSign);
  }

  /** The ten bodies are listed in chart order. */
  lemma BodyOrder()
    ensures forall i :: 0 <= i < |CelestialBodies| ==> CelestialBodies[i].id == ChartOrder[i]
  {
  }

  /**
   * The positions of a chart: in chart order, each in its sign and whole-sign house;
   * the bodies at their readings, retrograde exactly when their corrected motion is
   * negative; the nodes opposite each other and always retrograde; Chiron without
   * a dignity.
   */
  ghost predicate PositionsMatch(planets: seq<PlanetPosition>, ascSign: SignId, readings: seq<BodyReading>, northNode: Degrees, chiron: BodyReading)
    requires |readings| == |CelestialBodies|
  {
    && |planets| == PlanetCount
    && (forall i :: 0 <= i < PlanetCount ==> planets[i].id == ChartOrder[i] && Placed(planets[i], ascSign))
    && (forall i :: 0 <= i < |CelestialBodies| ==>
          && planets[i].name == CelestialBodies[i].name
          && planets[i].symbol == CelestialBodies[i].symbol
          && planets[i].longitude == readings[i].longitude
          && planets[i].speed == BodySpeed(readings[i].rawSpeed)
          && (planets[i].isRetrograde <==> planets[i].speed < 0.0))
    && (forall i :: 0 <= i < 12 ==> planets[i].dignity == GetDignity(planets[i].id, planets[i].signId))
    && planets[10].name == "Nodo Norte" && planets[10].symbol == "☊"
    && planets[10].longitude == northNode && planets[10].speed == -0.05 && planets[10].isRetrograde
    && planets[11].name == "Nodo Sur" && planets[11].symbol == "☋"
    && planets[11].longitude == NormalizeDegrees(northNode + 180.0) && planets[11].speed == -0.05 && planets[11].isRetrograde
    && planets[12].name == "Quirón" && planets[12].symbol == "⚷"
    && planets[12].longitude == chiron.longitude && planets[12].speed == ChironSpeed(chiron.rawSpeed) && planets[12].dignity.None?
    && (planets[12].isRetrograde <==> planets[12].speed < 0.0)
  }

  /** The ten bodies followed by the North Node, the South Node and Chiron satisfy `PositionsMatch`. */
  lemma PositionsInOrder(readings: seq<BodyReading>, northNode: Degrees, chiron: BodyReading, ascSign: SignId)
    requires |readings| == |CelestialBodies|
    ensures var chironSpeed := ChironSpeed(chiron.rawSpeed);
      PositionsMatch(PlaceBodies(readings, ascSign) + [
        Position(NorthNode, "Nodo Norte", northNode, -0.05, true, "☊", true, ascSign),
        Position(SouthNode, "Nodo Sur", NormalizeDegrees(northNode + 180.0), -0.05, true, "☋", true, ascSign),
        Position(Chiron, "Quirón", chiron.longitude, chironSpeed, chironSpeed < 0.0, "⚷", false, ascSign)],
        ascSign, readings, northNode, chiron)
  {
    BodyOrder();
  }

  /** What a chart built from these inputs satisfies. */
  ghost predicate ChartInvariant(c: ChartData, ascLongitude: Degrees, mcLongitude: Degrees, readings: seq<BodyReading>,
                                 northNode: Degrees, chiron: BodyReading)
    requires |readings| == |CelestialBodies|
  {
    var ascSign := GetSign(ascLongitude);
    // the ascendant heads house 1; the midheaven is placed like any body, without a dignity
    && c.ascendant == PlanetPosition(Ascendant, "Ascendente", ascLongitude, 0.0, false, ascSign, 1, "ASC", None)
    && c.midheaven == Position(Midheaven, "Medio Cielo", mcLongitude, 0.0, false, "MC", false, ascSign)
    && c.zodiacOffset == SignStart(ascSign)
    && PositionsMatch(c.planets, ascSign, readings, northNode, chiron)
    // the house records
    && c.houses == HouseRecords(ascSign, c.planets)
    // the sect follows the Sun, and the lots follow the sect
    && c.isDayChart == CalculateSect(ascLongitude, readings[0].longitude)
    && c.hermeticLots == HermeticLots(c.isDayChart, ascLongitude, c.planets, ascSign)
  }

  /** In a built chart, each position's house record carries the position's sign. */
  lemma ChartPositionsInHouseRecords(c: ChartData, ascLongitude: Degrees, readings: seq<BodyReading>, northNode: Degrees, chiron: BodyReading, i: int)
    requires |readings| == |CelestialBodies|
    requires PositionsMatch(c.planets, GetSign(ascLongitude), readings, northNode, chiron)
    requires c.houses == HouseRecords(GetSign(ascLongitude), c.planets)
    requires 0 <= i < |c.planets|
    ensures c.houses[c.planets[i].house - 1].signId == c.planets[i].signId
  {
    HouseRecordOfPosition(GetSign(ascLongitude), c.planets, c.planets[i]);
  }

  /** In a built chart, the South Node lies in the sign opposite the North Node and six houses on. */
  lemma NodesOpposite(c: ChartData, ascLongitude: Degrees, readings: seq<BodyReading>, northNode: Degrees, chiron: BodyReading)
    requires |readings| == |CelestialBodies|
    requires PositionsMatch(c.planets, GetSign(ascLongitude), readings, northNode, chiron)
    ensures c.planets[11].signId == (c.planets[10].signId + 6) % 12
    ensures c.planets[11].house == (c.planets[10].house + 5) % 12 + 1
  {
    var ascSign := GetSign(ascLongitude);
    var n, s := c.planets[10], c.planets[11];
    assert Placed(n, ascSign) && Placed(s, ascSign);
    OppositeSign(northNode);
    OppositeHouse(n.signId, ascSign);
  }

  /** The index in `celestialBodies` of ruler `j` of sign `i`. */
  function RulerBody(i: SignId, j: int): (k: int)
    requires 0 <= j < |ZodiacSigns[i].rulers|
    ensures 0 <= k < |CelestialBodies| && CelestialBodies[k].name == ZodiacSigns[i].rulers[j].name
  {
    var bodyIndex := [[4], [3], [2], [1], [0], [2], [3], [4, 9], [5], [6], [6, 7], [5, 8]];
    assert |bodyIndex[i]| == |ZodiacSigns[i].rulers|;
    bodyIndex[i][j]
  }

  /**
   * In a built chart (see `ChartInvariant`) every ruler of every house is found among the positions, so
   * each house record gives its rulers a house from 1 to 12, never the 0 of a
   * missing ruler.
   */
  lemma EveryRulerPlaced(c: ChartData, ascLongitude: Degrees, readings: seq<BodyReading>, northNode: Degrees, chiron: BodyReading)
    requires |readings| == |CelestialBodies|
    requires PositionsMatch(c.planets, GetSign(ascLongitude), readings, northNode, chiron)
    requires c.houses == HouseRecords(GetSign(ascLongitude), c.planets)
    ensures forall i, j :: 0 <= i < |c.houses| && 0 <= j < |c.houses[i].rulers| ==> 1 <= c.houses[i].rulers[j].house <= 12
  {
    forall i, j | 0 <= i < |c.houses| && 0 <= j < |c.houses[i].rulers|
      ensures 1 <= c.houses[i].rulers[j].house <= 12
    {
      var h := c.houses[i];
      assert h == HouseRecord(i, GetSign(ascLongitude), c.planets);
      RulerOfSignPlaced(c.planets, h.signId, j);
    }
  }

  /** When the positions list the bodies in order, every ruler of a sign is found among them. */
  lemma RulerOfSignPlaced(planets: seq<PlanetPosition>, s: SignId, j: int)
    requires |planets| >= |CelestialBodies|
    requires forall k :: 0 <= k < |CelestialBodies| ==> planets[k].name == CelestialBodies[k].name
    requires 0 <= j < |ZodiacSigns[s].rulers|
    ensures 1 <= RulerInfos(ZodiacSigns[s].rulers, planets)[j].house <= 12
  {
    var k := RulerBody(s, j);
    assert planets[k].name == ZodiacSigns[s].rulers[j].name;
  }
}
