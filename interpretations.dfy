/**
 * The interpretation lookups of services/interpretations.ts. The JSON files that
 * services/loader.ts imports on demand are a `Corpus` of maps: a loader's key that
 * has no file is a key absent from its map (the loader then yields null), and a JSON
 * object is a map from its keys to texts or to further objects.
 */
module Interpretations {
  import opened Wrappers
  import opened Text
  import opened Types
  import Lots

  /** A JSON object whose values are texts. */
  type TextTable = map<string, string>

  /** A JSON object whose values are objects of texts. */
  type NestedTable = map<string, TextTable>

  /** Every JSON file the lookups read, by loader. */
  datatype Corpus = Corpus(
    planets: map<string, NestedTable>,              // planet name -> sign name -> house -> text
    points: map<string, TextTable>,                 // point name -> sign name -> text
    rulers: map<int, TextTable>,                    // house whose ruler is read -> house the ruler is in -> text
    lots: map<string, NestedTable>,                 // lot key -> sign name -> house -> text
    profections: map<int, TextTable>,               // profected house -> "<sign>_Day" / "<sign>_Night" -> text
    planetReturns: map<string, NestedTable>,        // planet name -> sign name -> house -> text
    ascTransits: map<string, NestedTable>,          // planet name -> sign name -> "1" -> text
    maleficRemedies: map<string, NestedTable>,      // planet name -> house -> sign name -> text
    beneficHarmonization: map<string, NestedTable>, // planet name -> house -> sign name -> text
    blogLinks: map<string, TextTable>)              // planet name -> sign name -> link

  /** The houses with a ruler file and a profection file. */
  const Houses: set<int> := set h | 1 <= h <= 12

  /** The planet files: the thirteen bodies of the chart, by name. */
  const PlanetFiles: set<string> := set p | p in [Sun, Moon, Mercury, Venus, Mars, Jupiter, Saturn, Uranus, Neptune, Pluto, Chiron, NorthNode, SouthNode] :: PlanetName(p)

  /** The table holds a non-empty text under the key, which JavaScript's `||` keeps. */
  predicate HasText(table: TextTable, key: string)
  {
    key in table && table[key] != ""
  }

  /** `table[key] || fallback`: the stored text, or the fallback when it is absent or empty. */
  function TextOr(table: TextTable, key: string, fallback: string): (r: string)
    ensures HasText(table, key) ==> r == table[key]
    ensures !HasText(table, key) ==> r == fallback
  {
    if HasText(table, key) then table[key] else fallback
  }

  const NoInterpretation: string := "Interpretación no disponible."
  const ComingSoon: string := "Descripción detallada próximamente."
  const NoRemedy: string := "Remedio no disponible."
  const NoHarmonization: string := "Armonización no disponible."
  const Loading: string := "Cargando..."

  /** `getRulerInterpretationAsync`: what the ruler of `sourceHouse` means when it stands in `targetHouse`. */
  function GetRulerInterpretation(c: Corpus, sourceHouse: int, targetHouse: int): (r: string)
    ensures sourceHouse in c.rulers && HasText(c.rulers[sourceHouse], IntToString(targetHouse)) ==>
      r == c.rulers[sourceHouse][IntToString(targetHouse)]
    ensures !(sourceHouse in c.rulers && HasText(c.rulers[sourceHouse], IntToString(targetHouse))) ==>
      r == NoInterpretation
  {
    if sourceHouse in c.rulers then TextOr(c.rulers[sourceHouse], IntToString(targetHouse), NoInterpretation)
    else NoInterpretation
  }

  /** The fallback for a point (Ascendant or Midheaven) in a sign. */
  function PointFallback(planet: string, sign: string): string
  {
    "Interpretación no disponible para " + planet + " en " + sign + "."
  }

  /** The fallback for a planet in a sign and house. */
  function PlanetFallback(planet: string, sign: string, house: int): string
  {
    "Interpretación no disponible para " + planet + " en " + sign + " casa " + IntToString(house) + "."
  }

  /**
   * `generateInterpretationAsync`: a point's table, when there is one for the name,
   * is read by sign alone; otherwise the planet's table is read by sign and house.
   */
  function GenerateInterpretation(c: Corpus, planet: string, sign: string, house: int): (r: string)
    ensures planet in c.points ==>
      r == if HasText(c.points[planet], sign) then c.points[planet][sign] else PointFallback(planet, sign)
    ensures (planet !in c.points && planet in c.planets && sign in c.planets[planet]
             && HasText(c.planets[planet][sign], IntToString(house)))
      ==> r == c.planets[planet][sign][IntToString(house)]
    ensures (planet !in c.points && !(planet in c.planets && sign in c.planets[planet]
             && HasText(c.planets[planet][sign], IntToString(house))))
      ==> r == PlanetFallback(planet, sign, house)
  {
    if planet in c.points then TextOr(c.points[planet], sign, PointFallback(planet, sign))
    else if planet in c.planets && sign in c.planets[planet] then
      TextOr(c.planets[planet][sign], IntToString(house), PlanetFallback(planet, sign, house))
    else PlanetFallback(planet, sign, house)
  }

  /** A point's table takes precedence: the planet tables are then never read, nor is the house. */
  lemma PointTakesPrecedence(c: Corpus, planets: map<string, NestedTable>, planet: string, sign: string, house: int, otherHouse: int)
    requires planet in c.points
    ensures GenerateInterpretation(c, planet, sign, house) == GenerateInterpretation(c.(planets := planets), planet, sign, otherHouse)
  {
  }

  /** 'Day' or 'Night', by the chart's sect. */
  function SectSuffix(isDayChart: bool): string
  {
    if isDayChart then "Day" else "Night"
  }

  /** The key of a profection text: the sign name, an underscore and the sect. */
  function ProfectionKey(signName: string, isDayChart: bool): string
  {
    signName + "_" + SectSuffix(isDayChart)
  }

  /** A profection key ends in 'y' for the day and in 't' for the night. */
  lemma KeyEndsWithSect(signName: string, isDayChart: bool)
    ensures var k := ProfectionKey(signName, isDayChart);
      |k| > 0 && k[|k| - 1] == if isDayChart then 'y' else 't'
  {
  }

  /** Different signs or sects never share a profection key. */
  lemma ProfectionKeyInjective(s1: string, d1: bool, s2: string, d2: bool)
    requires ProfectionKey(s1, d1) == ProfectionKey(s2, d2)
    ensures s1 == s2 && d1 == d2
  {
    KeyEndsWithSect(s1, d1);
    KeyEndsWithSect(s2, d2);
    var k, n := ProfectionKey(s1, d1), |"_" + SectSuffix(d1)|;
    assert s1 == k[..|k| - n] == s2;
  }

  /** The fallback when no profection file exists for the house. */
  function NoProfectionHouse(houseNumber: int): string
  {
    "Interpretación de profección no disponible para la Casa " + IntToString(houseNumber) + "."
  }

  /** The fallback when the house's file has no text for the sign and sect. */
  function NoProfectionKey(signName: string, isDayChart: bool, houseNumber: int): string
  {
    "Interpretación de profección no disponible para " + signName + " (" + SectSuffix(isDayChart)
      + ") en Casa " + IntToString(houseNumber) + "."
  }

  /**
   * `generateProfectionInterpretationAsync`: the text for the profected sign and
   * the chart's sect in the profected house's file. The time lord is not read.
   */
  function GenerateProfectionInterpretation(c: Corpus, timeLord: string, houseNumber: int, signName: string, isDayChart: bool): (r: string)
    ensures houseNumber !in c.profections ==> r == NoProfectionHouse(houseNumber)
    ensures houseNumber in c.profections ==>
      r == if HasText(c.profections[houseNumber], ProfectionKey(signName, isDayChart))
           then c.profections[houseNumber][ProfectionKey(signName, isDayChart)]
           else NoProfectionKey(signName, isDayChart, houseNumber)
  {
    if houseNumber !in c.profections then NoProfectionHouse(houseNumber)
    else
      var key := signName + "_" + SectSuffix(isDayChart);
      TextOr(c.profections[houseNumber], key, NoProfectionKey(signName, isDayChart, houseNumber))
  }

  /** The time lord does not change the profection text. */
  lemma ProfectionIgnoresTimeLord(c: Corpus, t1: string, t2: string, houseNumber: int, signName: string, isDayChart: bool)
    ensures GenerateProfectionInterpretation(c, t1, houseNumber, signName, isDayChart)
         == GenerateProfectionInterpretation(c, t2, houseNumber, signName, isDayChart)
  {
  }

  /** `generateLotInterpretationAsync`: the empty string on any miss. */
  function GenerateLotInterpretation(c: Corpus, lotKey: string, signName: string, houseNumber: int): (r: string)
    ensures r != "" <==> lotKey in c.lots && signName in c.lots[lotKey] && HasText(c.lots[lotKey][signName], IntToString(houseNumber))
    ensures r != "" ==> r == c.lots[lotKey][signName][IntToString(houseNumber)]
  {
    if lotKey in c.lots && signName in c.lots[lotKey] then TextOr(c.lots[lotKey][signName], IntToString(houseNumber), "")
    else ""
  }

  /**
   * `signs[signId]` read as a property key or spliced into a text: the sign's name,
   * or "undefined" for an index outside the array.
   */
  function SignNameOf(signId: int): (name: string)
    ensures 0 <= signId < 12 ==> name == ZodiacSigns[signId].name
    ensures !(0 <= signId < 12) ==> name == "undefined"
  {
    SignNamesMatchTable();
    if 0 <= signId < |SignNames| then SignNames[signId] else "undefined"
  }

  /** Replacing a placeholder that starts with '{' leaves a text without '{' as it is. */
  lemma {:induction false} NoPlaceholder(s: string, pat: string, rep: string)
    requires '{' !in s && |pat| > 0 && pat[0] == '{'
    ensures ReplaceFirst(s, pat, rep) == s
  {
    IndexOfFirst(s, pat);
    forall i | 0 <= i <= |s|
      ensures !OccursAt(s, pat, i)
    {
      if i + |pat| <= |s| {
        assert s[i..i + |pat|][0] == s[i] != '{';
      }
    }
  }

  /**
   * `generateReturnInterpretation`: the text for the planet's return to the sign in
   * the house, with the first '{sign}' and then the first '{house}' filled in.
   */
  function GenerateReturnInterpretation(c: Corpus, planetId: string, signId: int, house: int): (r: string)
    ensures var signName := SignNameOf(signId);
      && (!(planetId in c.planetReturns && signName in c.planetReturns[planetId]) ==> r == ComingSoon)
      && (planetId in c.planetReturns && signName in c.planetReturns[planetId] && !HasText(c.planetReturns[planetId][signName], IntToString(house)) ==> r == ComingSoon)
      && (planetId in c.planetReturns && signName in c.planetReturns[planetId] && HasText(c.planetReturns[planetId][signName], IntToString(house)) ==>
            r == ReplaceFirst(ReplaceFirst(c.planetReturns[planetId][signName][IntToString(house)], "{sign}", signName), "{house}", IntToString(house)))
  {
    var signName := SignNameOf(signId);
    if planetId in c.planetReturns && signName in c.planetReturns[planetId] then
      var text := TextOr(c.planetReturns[planetId][signName], IntToString(house), ComingSoon);
      NoPlaceholder(ComingSoon, "{sign}", signName);
      NoPlaceholder(ComingSoon, "{house}", IntToString(house));
      ReplaceFirst(ReplaceFirst(text, "{sign}", signName), "{house}", IntToString(house))
    else ComingSoon
  }

  /** A stored return text without placeholders is given back unchanged. */
  lemma ReturnTextVerbatim(c: Corpus, planetId: string, signId: int, house: int)
    requires planetId in c.planetReturns && SignNameOf(signId) in c.planetReturns[planetId]
    requires HasText(c.planetReturns[planetId][SignNameOf(signId)], IntToString(house))
    requires '{' !in c.planetReturns[planetId][SignNameOf(signId)][IntToString(house)]
    ensures GenerateReturnInterpretation(c, planetId, signId, house) == c.planetReturns[planetId][SignNameOf(signId)][IntToString(house)]
  {
    var text := c.planetReturns[planetId][SignNameOf(signId)][IntToString(house)];
    NoPlaceholder(text, "{sign}", SignNameOf(signId));
    NoPlaceholder(text, "{house}", IntToString(house));
  }

  /**
   * `generateAscendantTransitInterpretation`: the planet's transit text for the
   * sign, stored under house "1", with the first '{sign}' filled in.
   */
  function GenerateAscendantTransitInterpretation(c: Corpus, planetId: string, signId: int): (r: string)
    ensures var signName := SignNameOf(signId);
      && (!(planetId in c.ascTransits && signName in c.ascTransits[planetId] && HasText(c.ascTransits[planetId][signName], "1")) ==> r == ComingSoon)
      && (planetId in c.ascTransits && signName in c.ascTransits[planetId] && HasText(c.ascTransits[planetId][signName], "1") ==>
            r == ReplaceFirst(c.ascTransits[planetId][signName]["1"], "{sign}", signName))
  {
    var signName := SignNameOf(signId);
    if planetId in c.ascTransits && signName in c.ascTransits[planetId] then
      var text := TextOr(c.ascTransits[planetId][signName], "1", ComingSoon);
      NoPlaceholder(ComingSoon, "{sign}", signName);
      ReplaceFirst(text, "{sign}", signName)
    else ComingSoon
  }

  /** Whether a remedies table has an entry for the planet and house. */
  predicate HasEntry(table: map<string, NestedTable>, planetName: string, houseKey: string)
  {
    planetName in table && houseKey in table[planetName]
  }

  /**
   * `getHarmonizationRemedyAsync`: the malefic remedies are consulted first, then the
   * benefic harmonizations; the answer is empty only when neither has the planet
   * and house.
   */
  function GetHarmonizationRemedy(c: Corpus, planetName: string, house: int, signName: string): (r: string)
    ensures r == "" <==> !HasEntry(c.maleficRemedies, planetName, IntToString(house)) && !HasEntry(c.beneficHarmonization, planetName, IntToString(house))
    ensures HasEntry(c.maleficRemedies, planetName, IntToString(house)) ==>
      r == TextOr(c.maleficRemedies[planetName][IntToString(house)], signName, NoRemedy)
    ensures !HasEntry(c.maleficRemedies, planetName, IntToString(house)) && HasEntry(c.beneficHarmonization, planetName, IntToString(house)) ==>
      r == TextOr(c.beneficHarmonization[planetName][IntToString(house)], signName, NoHarmonization)
  {
    var h := IntToString(house);
    if planetName in c.maleficRemedies && h in c.maleficRemedies[planetName] then
      TextOr(c.maleficRemedies[planetName][h], signName, NoRemedy)
    else if planetName in c.beneficHarmonization && h in c.beneficHarmonization[planetName] then
      TextOr(c.beneficHarmonization[planetName][h], signName, NoHarmonization)
    else ""
  }

  /** When the malefic remedies cover the planet and house, the benefic table is never read. */
  lemma MaleficRemediesFirst(c: Corpus, benefics: map<string, NestedTable>, planetName: string, house: int, signName: string)
    requires HasEntry(c.maleficRemedies, planetName, IntToString(house))
    ensures GetHarmonizationRemedy(c, planetName, house, signName)
         == GetHarmonizationRemedy(c.(beneficHarmonization := benefics), planetName, house, signName)
  {
  }

  /** `getBlogLinkAsync`: the stored link, if any. */
  function GetBlogLink(c: Corpus, planetName: string, signName: string): (link: Option<string>)
    ensures link.Some? <==> planetName in c.blogLinks && signName in c.blogLinks[planetName]
    ensures link.Some? ==> link.value == c.blogLinks[planetName][signName]
  {
    if planetName in c.blogLinks && signName in c.blogLinks[planetName] then Some(c.blogLinks[planetName][signName])
    else None
  }

  /** With the ruler and profection loaders' key domains, a house outside 1..12 gets the ruler and profection fallbacks. */
  lemma UnknownHouseFallsBack(c: Corpus, house: int, target: int, timeLord: string, sign: string, isDayChart: bool)
    requires c.rulers.Keys == Houses && c.profections.Keys == Houses && !(1 <= house <= 12)
    ensures GetRulerInterpretation(c, house, target) == NoInterpretation
    ensures GenerateProfectionInterpretation(c, timeLord, house, sign, isDayChart) == NoProfectionHouse(house)
  {
    assert house !in c.rulers && house !in c.profections;
  }

  /** With the lot loader's key domain, a key that is not one of the seven lots gives the empty text. */
  lemma UnknownLotIsEmpty(c: Corpus, lotKey: string, sign: string, house: int)
    requires c.lots.Keys == (set k | k in Lots.LotKeys) && lotKey !in Lots.LotKeys
    ensures GenerateLotInterpretation(c, lotKey, sign, house) == ""
  {
    assert lotKey !in c.lots.Keys;
  }

  /** With the point and planet loaders' key domains, a name with neither a point nor a planet file gets the planet fallback. */
  lemma UnknownNameFallsBack(c: Corpus, planet: string, sign: string, house: int)
    requires c.planets.Keys == PlanetFiles && c.points.Keys == {"Ascendente", "Medio Cielo"}
    requires planet !in PlanetFiles && planet !in {"Ascendente", "Medio Cielo"}
    ensures GenerateInterpretation(c, planet, sign, house) == PlanetFallback(planet, sign, house)
  {
    assert planet !in c.points.Keys && planet !in c.planets.Keys;
  }

  // The synchronous variants kept for compatibility answer a constant.

  function GetRulerInterpretationSync(sourceHouse: int, targetHouse: int): string { Loading }

  function GenerateInterpretationSync(planet: string, sign: string, house: int, rulerName: string, rulerHouse: int): string { Loading }

  function GenerateProfectionInterpretationSync(timeLord: string, houseNumber: int, signName: string, isDayChart: bool): string { Loading }

  function GenerateLotInterpretationSync(lotKey: string, signName: string, houseNumber: int): string { "" }

  function GetHarmonizationRemedySync(planetName: string, house: int, signName: string): string { Loading }

  function GetBlogLinkSync(planetName: string, signName: string): Option<string> { None }

  /** The synchronous variants ignore their arguments. */
  lemma DeprecatedVariantsConstant(h1: int, h2: int, s1: string, s2: string, b: bool)
    ensures GetRulerInterpretationSync(h1, h2) == GetRulerInterpretationSync(h2, h1) == "Cargando..."
    ensures GenerateInterpretationSync(s1, s2, h1, s1, h2) == "Cargando..."
    ensures GenerateProfectionInterpretationSync(s1, h1, s2, b) == "Cargando..."
    ensures GenerateLotInterpretationSync(s1, s2, h1) == ""
    ensures GetHarmonizationRemedySync(s1, h1, s2) == "Cargando..."
    ensures GetBlogLinkSync(s1, s2) == None
  {
  }
}
