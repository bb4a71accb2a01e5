# Hellenistic chart rules, in Dafny

This project models the rule layer of a Hellenistic-astrology web application,
Astro.MetaReiki. It takes the ecliptic longitudes that an ephemeris gives, together
with a birth date. From them it derives the signs, the whole-sign houses and the sect
(day or night chart). It also derives the annual profection and its time lord, and
the seven Hermetic lots. It then scores the condition of the sect benefic and the sect
malefic, and looks up interpretation texts in a corpus of JSON tables.

It also models two other pieces:
- the profection timeline, which lists the profections from six years before the
  current age to six years after;
- the batch check, which tests that the profection tables of houses 2 to 6 have an
  entry for every sign by day and by night.

Modules, one per concern of the application:

- `Wrappers`, `JsMath`, `Text`, `Seqs`: `Option`/`Result`, and the JavaScript
  behaviour the rules depend on.
  - `Math.trunc` and the truncating `%`.
  - Decimal `toString` of integers.
  - `String.prototype.replace` with a string pattern.
  - `Array.prototype.find`.
- `Types`: the records of types.ts and the `ZODIAC_SIGNS` table.
- `Angles`: `normalizeDegrees`, which is defined identically in
  services/astronomyService.ts and services/scoring.ts.
- `Houses`: `getSign`, the whole-sign house formulas and `calculateSect`.
- `Dignity`: `getDignity`.
- `Profection`: `calculateProfectionByAge`, and `calculateProfection` with the current
  date as a parameter.
- `Lots`: `calculateHermeticLots`.
- `Chart`: the derivations of `calculateChart`. It is a method that builds the chart
  from the ephemeris readings.
- `Scoring`: services/scoring.ts.
  - `calculateConditionScore` is a method that adds up the adjustments one by one.
    It is proved to give the base score plus the sum of an adjustment list defined
    rule by rule.
  - `analyzePositiveNegative`.
- `Interpretations`: services/interpretations.ts. Each loader of services/loader.ts
  becomes a map of a `Corpus`.
- `Timeline`: the `timelineItems` loop and `getProfectionDateRange` of
  components/ProfectionTimeline.tsx.
- `Validator`: validate_profection_batch.js. The file system is a map from the house
  to what its file holds.

Longitudes are exact `real`s. Integers are unbounded; the only wrap-around in the
rules is the remainder by 12 or by 360, and it is written out. JavaScript's `%`
truncates toward zero, so a negative age profects to a house of 0 or below. When the
sign index is negative as well, reading `ZODIAC_SIGNS` fails. `ProfectionByAge` models
that failure with `None`.

### Where the code and the system's design description differ

The model follows the code in each case:

- **Houses.** The description says houses are cusp-to-cusp intervals. The code uses
  whole-sign houses, counted from the ascendant's sign.
- **Sect.** The description says a day chart is one with the Sun in houses 7 to 12.
  The code asks whether the Sun lies 180° to 360° past the ascendant degree.
  `Houses.SectMatchesUpperHouses` proves the two tests agree when the ascendant is at
  0° of its sign.
- **Scoring.** The description gives domicile +5 and exaltation +4, plus triplicity,
  and a ranking of all planets. The code uses its own point values, and has no
  triplicity or ranking. It scores only the sect benefic (Jupiter by day, Venus by
  night) and the sect malefic (Mars by day, Saturn by night).
- **Profections.** The description rejects negative ages. The code computes them, and
  the chart's age can be negative for a birth date after the current date.
- **Missing interpretations.** The description calls a missing text an error. The
  code returns a fallback text.
- **Corpus check.** The description checks houses 1 to 12 at start-up. The batch
  check covers only houses 2 to 6, and it reports through its exit code.

## Model

| member | source | states |
|---|---|---|
| Angles.NormalizeDegrees | services/astronomyService.ts:7-11 | the truncated remainder, raised by 360 when negative, is deg minus the floored multiple of 360, and lies in [0, 360) |
| Angles.NormalizeUnique | services/astronomyService.ts:7-11 | a value in [0, 360) that differs from deg by whole turns is the normal form of deg |
| Angles.NormalizePeriodic | services/astronomyService.ts:7-11 | whole turns added to the input do not change the result |
| Angles.NormalizeIdentity | services/astronomyService.ts:7-11 | a longitude already in [0, 360) is returned unchanged |
| Angles.NormalizeAbsorb | services/astronomyService.ts:7-11 | normalising one term of a sum first gives the same normal form as normalising the sum |
| JsMath.JsRem | services/astronomyService.ts:8 | JavaScript `%` by a positive modulus: in [0, m) for x >= 0 and in (-m, 0] for x < 0, and x minus it is a whole number of m |
| JsMath.JsRemUnique | services/astronomyService.ts:8 | those three facts fix the value: any r with them is `JsRem(x, m)`, so it is x - m * trunc(x / m) |
| JsMath.JsIntRem | services/astronomyService.ts:317 | `age % 12` on integers: the Euclidean remainder for a non-negative a; for a negative one a value in (-12, 0] that differs from a by a multiple of 12, which fixes it as -((-a) mod 12); a itself when |a| < 12 |
| Text.IntToString | services/interpretations.ts:32 | `toString` of an integer: non-empty, digits only, with a leading '-' exactly for negatives |
| Text.ParseNatToString | services/interpretations.ts:32 | the decimal text of a natural number reads back as that number |
| Text.IntToStringInjective | services/interpretations.ts:32 | different integers have different texts, so house keys never collide |
| Text.IndexOf | services/interpretations.ts:140 | the search for a pattern gives -1 or an index at which the pattern fits inside the text |
| Text.IndexOfFirst | services/interpretations.ts:140 | -1 exactly when the pattern occurs nowhere; otherwise the pattern occurs at the index and at no earlier one |
| Text.ReplaceFirst | services/interpretations.ts:140 | the text unchanged when the search finds nothing, otherwise the text with the replacement in place of the occurrence found |
| Text.ReplaceFirstReplacesFirst | services/interpretations.ts:140 | `replace` with a string pattern replaces the first occurrence and only it, or returns the text unchanged when there is none |
| Seqs.FindFirst | services/scoring.ts:38-40 | `find`: None exactly when no element passes, otherwise the element at the first index that passes |
| Seqs.FindFirstAt | services/scoring.ts:38-40 | when index k is the first that passes, `find` returns the element at k |
| Types.ZodiacSignsIndexed | types.ts:109-122 | the sign table has twelve entries and entry i has id i |
| Types.ZodiacRulerShapes | types.ts:109-122 | every sign has one or two rulers; exactly Scorpio, Aquarius and Pisces have two, traditional then modern |
| Types.ElementsCycle | types.ts:109-122 | the elements run fire, earth, air, water with the sign index modulo 4 |
| Types.PlanetNameInjective | types.ts:15-31 | no two planet identifiers share a string value |
| Types.SignNamesMatchTable | validate_profection_batch.js:4-7 | the written-out sign names of the check are the names of the sign table, in order |
| Types.SignNamesDistinct | types.ts:109-122 | no two signs share a name |
| Houses.GetSign | services/astronomyService.ts:75-77 | the sign is the 30-degree band that holds the longitude |
| Houses.SignStart | services/astronomyService.ts:593 | `degreeStart`: a multiple of 30 in [0, 360) that lies in the sign it starts |
| Houses.WholeSignHouse | services/astronomyService.ts:496 | the house h is the one whose sign, counted from the ascendant's sign, is the body's sign |
| Houses.WholeSignHouseUnique | services/astronomyService.ts:496 | that house is unique, and a body in the ascendant's sign is in house 1 |
| Houses.OppositeHouse | services/astronomyService.ts:496 | the sign six signs on lies six houses on |
| Houses.MidheavenHouse | services/astronomyService.ts:471 | the midheaven formula, which turns a remainder of 0 into 12, gives the same house as the formula for the bodies |
| Houses.SectByArc | services/astronomyService.ts:13-33 | a day chart exactly when the Sun lies at least 180 degrees past the ascendant, measured forward |
| Houses.SectOppositeAscendant | services/astronomyService.ts:13-33 | putting the ascendant at the opposite point swaps day and night |
| Houses.SectMatchesUpperHouses | services/astronomyService.ts:13-33 | with the ascendant at 0 degrees of its sign, a day chart exactly when the Sun is in whole-sign houses 7 to 12 |
| Dignity.MercuryFirstMatch | services/astronomyService.ts:254-259 | the first test wins: Mercury in Virgo is domicile, Mercury in Pisces is detriment, and Mercury is never reported exalted or fallen |
| Dignity.UnlistedBodies | services/astronomyService.ts:237-314 | Chiron, the ascendant and the midheaven have no dignity in any sign |
| Dignity.PartialTables | services/astronomyService.ts:292-311 | Neptune and Pluto have no exaltation or fall; the nodes have no domicile or detriment |
| Dignity.DignityOpposition | services/astronomyService.ts:237-314 | the table follows the traditional scheme: detriment in the sign opposite each domicile, fall in the sign opposite the exaltation, both ways |
| Profection.ProfectionRulerName | services/astronomyService.ts:321 | the ruler found by type, with the fallback to the first ruler, is always the sign's first ruler |
| Profection.ProfectionByAge | services/astronomyService.ts:316-332 | defined for every age >= 0, with house age mod 12 + 1 and sign ascSign + age mod 12; for a negative age, with k = (-age) mod 12, it fails exactly when k exceeds the ascendant's sign index, and otherwise gives house 1 - k in sign ascSign - k; the time lord is the sign's ruler |
| Profection.ProfectedSignOnProfectedHouse | services/astronomyService.ts:316-332 | the profected sign is the whole-sign house sign of the profected house |
| Profection.ProfectionPeriodic | services/astronomyService.ts:316-332 | profections repeat every twelve years |
| Profection.ProfectionAtBirth | services/astronomyService.ts:316-332 | age 0 is house 1, in the ascendant's sign |
| Profection.NegativeAge | services/astronomyService.ts:316-332 | a negative age never activates a house from 2 to 12 |
| Profection.AgeOn | services/astronomyService.ts:334-341 | the age is the number of birthdays reached: the age-th birthday is reached by now and the next one is not |
| Profection.AgeOnUnique | services/astronomyService.ts:334-341 | no other count of years has that property |
| Profection.CalculateProfection | services/astronomyService.ts:334-344 | the profection, when it exists, is for the number of birthdays reached by the current date, and its time lord is the sign's ruler |
| Profection.ProfectionFromBirth | services/astronomyService.ts:334-344 | from the day of birth on, the profection exists and is that of the completed years, in house age mod 12 + 1 |
| Lots.PositionOf | services/astronomyService.ts:353 | `getPos`: the longitude of the first position with the id, or 0 when there is none |
| Lots.CreateLot | services/astronomyService.ts:410-418 | the lot keeps its key, name, symbol, meaning and longitude, lies in the sign whose band holds it, and its house holds that sign |
| Lots.Project | services/astronomyService.ts:367-409 | `normalizeDegrees(asc + a - b)` lies past the ascendant by the arc from b to a |
| Lots.Lot | services/astronomyService.ts:367-408 | a lot derived by sect lies past the ascendant by the arc from its first point to its second by day, and by the reversed arc by night |
| Lots.LotLongitudes | services/astronomyService.ts:367-409 | each lot lies past the ascendant by its arc, Sun to Moon for Fortune by day and so on, with each arc reversed by night |
| Lots.CreateLots | services/astronomyService.ts:410-428 | seven lots, each with its key in key order, its longitude, the sign whose band holds it and the whole-sign house of that sign |
| Lots.HermeticLots | services/astronomyService.ts:420-428 | seven lots in key order, each at its formula's longitude, in its sign and whole-sign house |
| Lots.FortuneSpiritSwap | services/astronomyService.ts:367-377 | the day Fortune is the night Spirit, and the day Spirit the night Fortune |
| Chart.BodySpeed | services/astronomyService.ts:499-504 | the motion is raw, or raw plus a turn when below -350; after the correction it is never below -350 |
| Chart.ChironSpeed | services/astronomyService.ts:554-559 | the motion is corrected by at most one turn, into [-300, 300] for a raw motion within one turn, and unchanged inside [-300, 300] |
| Chart.Position | services/astronomyService.ts:526-571 | a node or Chiron record is in its sign and whole-sign house, with the given fields and the dignity only when asked |
| Chart.PlaceBody | services/astronomyService.ts:489-519 | a body is in its sign and house at its reading, retrograde exactly when its corrected motion is negative, with its dignity in that sign |
| Chart.PlaceBodies | services/astronomyService.ts:476-519 | the ten bodies are placed in the order of `celestialBodies` |
| Chart.RulerInfos | services/astronomyService.ts:580-587 | each ruler keeps its name and type; its house is that of the first position of that name, or 0 when there is none |
| Chart.RulerInfoOf | services/astronomyService.ts:581-586 | one ruler's entry, as above |
| Chart.HouseRecord | services/astronomyService.ts:574-597 | house i + 1 holds the sign i signs past the ascendant's, with that sign's name, start degree and rulers |
| Chart.HouseRecords | services/astronomyService.ts:574-597 | twelve house records, in house order |
| Chart.HouseRecordOfPosition | services/astronomyService.ts:574-597 | the record of a position's house carries the position's sign, and no other record does |
| Chart.OppositeSign | services/astronomyService.ts:228 | the South Node longitude, the North Node plus 180 normalised, lies six signs on |
| Chart.CalculateChart | services/astronomyService.ts:431-615 | a chart exists exactly when its profection does; it carries the name and the profection for the current date and satisfies `ChartInvariant`: the ascendant record (id, name "Ascendente", symbol "ASC", speed 0, house 1, no dignity), the midheaven at its longitude in its sign and whole-sign house, the positions as `ListPositions` states, the house records, the sect from the Sun and the lots of that sect |
| Chart.BodyOrder | services/astronomyService.ts:476-487 | the ten bodies come in the chart's order |
| Chart.PositionsInOrder | services/astronomyService.ts:489-571 | the bodies, then the North Node, the South Node and Chiron, are in order and each in its sign and house; the nodes are opposite and retrograde; Chiron has no dignity |
| Chart.ListPositions | services/astronomyService.ts:476-571 | the ten bodies in table order with their names, symbols, readings, corrected speeds and dignities, retrograde exactly when moving backwards; then "Nodo Norte" ☊ and "Nodo Sur" ☋ opposite it, both at speed -0.05 and retrograde; then "Quirón" ⚷ at its corrected speed, without a dignity; each in its sign and whole-sign house |
| Chart.ChartPositionsInHouseRecords | services/astronomyService.ts:574-597 | in a built chart, each position's house record carries the position's sign |
| Chart.NodesOpposite | services/astronomyService.ts:538-550 | in a built chart, the South Node is in the sign opposite the North Node and six houses on |
| Chart.RulerBody | types.ts:109-122 | every ruler named in the sign table is one of the ten bodies |
| Chart.EveryRulerPlaced | services/astronomyService.ts:580-587 | in a built chart, every ruler of every house is found, so its house is 1 to 12 and never 0 |
| Scoring.AngleDiff | services/scoring.ts:11-15 | the separation of two longitudes lies in [0, 180] |
| Scoring.AngleDiffSymmetric | services/scoring.ts:11-15 | the separation does not depend on the order of the two longitudes |
| Scoring.AngleDiffShorterArc | services/scoring.ts:11-15 | the separation is the shorter of the forward and backward arcs |
| Scoring.TraditionalRuler | services/scoring.ts:18-36 | the ruler is one of the seven classical planets |
| Scoring.TraditionalRulerListed | services/scoring.ts:18-36 | the ruler is the first ruler in the sign table |
| Scoring.ScoringTablesMatchDignity | services/scoring.ts:77-104 | the scoring tables agree with `getDignity` on domicile and detriment, and on exaltation and fall except Mercury in Virgo and Pisces |
| Scoring.PlanetById | services/scoring.ts:38-40 | None exactly when no position has the id, otherwise a listed position with that id |
| Scoring.PlanetByIdFirst | services/scoring.ts:38-40 | the position returned is the first one with the id |
| Scoring.SumScoresAppend | services/scoring.ts:42-299 | the sum of the adjustments of two lists is the sum of their sums |
| Scoring.DignityDetailsWellSigned | services/scoring.ts:46-119 | the essential-dignity adjustments are non-zero and positive exactly when typed Positive, whatever conditions hold |
| Scoring.DignityMembership | services/scoring.ts:46-119 | each essential-dignity adjustment is recorded exactly when its condition holds, peregrine exactly when none of domicile, exaltation and reception does |
| Scoring.DomicileOrReception | services/scoring.ts:50-66 | domicile is recorded exactly when the planet rules its sign; mutual reception exactly when it does not and the sign's ruler is in a sign it rules |
| Scoring.ExaltationFallDetriment | services/scoring.ts:86-108 | exaltation, fall and detriment are recorded exactly when their tables say so |
| Scoring.PeregrineIff | services/scoring.ts:110-119 | peregrine is recorded exactly when none of domicile, exaltation and reception is |
| Scoring.HouseComponent | services/scoring.ts:121-141 | angular houses +10, house 9 +5, the other cadent houses -5, succedent houses nothing, each as an if-and-only-if |
| Scoring.JoyDetails | services/scoring.ts:143-157 | "Gozo Planetario", +10, Positive, recorded exactly when the planet is in its joy house |
| Scoring.JoysDistinct | services/scoring.ts:145-153 | no two planets share a joy house |
| Scoring.SolarPhaseRules | services/scoring.ts:159-179 | none for the Sun; otherwise cazimi, combust, under the beams or nothing, each exactly in its band of separation from the Sun |
| Scoring.RetrogradeDetails | services/scoring.ts:181-187 | "Retrógrado", -10, Negative, recorded once, exactly for a retrograde Mercury, Venus, Mars, Jupiter or Saturn |
| Scoring.SignDistance | services/scoring.ts:198 | the distance in signs lies in 0..11 and leads from the planet's sign to the other's |
| Scoring.CheckAspect | services/scoring.ts:196-220 | the aspect holds exactly when its sign distance matches and the orb is at most 3 degrees |
| Scoring.AspectsExclusive | services/scoring.ts:196-220 | conjunction, opposition, trine and superior square never hold together |
| Scoring.MaltreatmentBy | services/scoring.ts:222-243 | one malefic records at most one adjustment |
| Scoring.BonificationBy | services/scoring.ts:268-289 | one benefic records at most one adjustment |
| Scoring.Maltreatments | services/scoring.ts:222-243 | the malefics of a list record at most one adjustment each |
| Scoring.Bonifications | services/scoring.ts:268-289 | the benefics of a list record at most one adjustment each |
| Scoring.MaltreatmentRules | services/scoring.ts:222-243 | no malefic maltreats itself; otherwise -15 exactly for a superior square, -10 exactly for an opposition or a conjunction, nothing otherwise |
| Scoring.BonificationRules | services/scoring.ts:268-289 | no benefic bonifies itself; otherwise +10, +5 or +8 exactly for a conjunction, a trine or a superior square, and nothing exactly when none of the three holds |
| Scoring.BesiegementRule | services/scoring.ts:245-266 | a planet other than Mars and Saturn is besieged exactly when Mars and Saturn occupy the two signs on either side of it |
| Scoring.AccidentalWellSigned | services/scoring.ts:121-187 | every house, joy, solar-phase and retrograde adjustment is non-zero and typed by its sign |
| Scoring.MaltreatmentsWellSigned | services/scoring.ts:222-243 | every maltreatment recorded for a list of malefics is non-zero and typed by its sign |
| Scoring.BonificationsWellSigned | services/scoring.ts:268-289 | every bonification recorded for a list of benefics is non-zero and typed by its sign |
| Scoring.AspectWellSigned | services/scoring.ts:189-289 | every maltreatment, besiegement and bonification adjustment is non-zero and typed by its sign |
| Scoring.ConditionDetailsWellSigned | services/scoring.ts:42-289 | every recorded adjustment is non-zero and typed by its sign |
| Scoring.CalculateConditionScore | services/scoring.ts:42-299 | the details are the rule-by-rule adjustment list and the total is the base 50 plus their sum |
| Scoring.Maltreat | services/scoring.ts:222-243 | the loop over the malefics extends the running record by their maltreatments, and its score stays the sum |
| Scoring.Bonify | services/scoring.ts:268-289 | the loop over the benefics extends the running record by their bonifications, and its score stays the sum |
| Scoring.RulerDignity | services/scoring.ts:47-66 | domicile +15 when the planet rules its sign, otherwise mutual reception +5 when found; the score is the sum of what is recorded |
| Scoring.TableDignity | services/scoring.ts:77-108 | exaltation +10, fall -15 and detriment -10, each recorded when its table says so; the score is the sum of what is recorded |
| Scoring.EssentialDignity | services/scoring.ts:46-119 | the essential-dignity steps record the essential adjustments and score the essential points |
| Scoring.AccidentalDignity | services/scoring.ts:121-187 | the house, joy, solar-phase and retrograde steps, in that order, record the accidental adjustments, and the score is their sum |
| Scoring.AddHouse | services/scoring.ts:121-141 | adds +10 for an angular house, +5 for the ninth, -5 for the other cadent houses: the running record grows by `HouseDetails` and the score stays its sum |
| Scoring.AddJoy | services/scoring.ts:143-157 | adds +10 in the joy house: the record grows by `JoyDetails` and the score stays its sum |
| Scoring.AddSolarPhase | services/scoring.ts:159-179 | adds +15, -15 or -5 by the separation from the Sun: the record grows by `SolarPhaseDetails` and the score stays its sum |
| Scoring.AddRetrograde | services/scoring.ts:181-187 | adds -10 for a retrograde planet of the five: the record grows by `RetrogradeDetails` and the score stays its sum |
| Scoring.AspectConditions | services/scoring.ts:189-289 | the malefics loop, the besiegement step and the benefics loop, in that order, record the aspect adjustments, and the score is their sum |
| Scoring.AddMaltreatment | services/scoring.ts:222-243 | one malefic: -15, -10 or -10 in the order superior square, opposition, conjunction; the record grows by `MaltreatmentBy` and the score stays its sum |
| Scoring.AddBesiegement | services/scoring.ts:245-266 | adds -20 when Mars and Saturn flank the planet: the record grows by `BesiegementDetails` and the score stays its sum |
| Scoring.AddBonification | services/scoring.ts:268-289 | one benefic: +10, +5 or +8 in the order conjunction, trine, superior square; the record grows by `BonificationBy` and the score stays its sum |
| Scoring.PositiveSummary | services/scoring.ts:326-331 | "Impedido" below 40, "Muy Dignificado" above 60, "Favorable" otherwise, each an if-and-only-if |
| Scoring.NegativeSummary | services/scoring.ts:336-340 | "Constructivo / Domesticado" above 60, "Difícil" below 40, "Moderado" otherwise, each an if-and-only-if |
| Scoring.AnalyzePositiveNegative | services/scoring.ts:301-347 | an error exactly when the sect benefic or malefic is missing; otherwise the sect, and both planets' scores with their summaries |
| Interpretations.TextOr | services/interpretations.ts:32 | the stored text when present and non-empty, else the fallback |
| Interpretations.GetRulerInterpretation | services/interpretations.ts:29-35 | the ruler text for the target house in the source house's table, else the fixed fallback |
| Interpretations.GenerateInterpretation | services/interpretations.ts:44-65 | a point's table is read first; otherwise the planet's text for the sign and house; each miss gives its own fallback |
| Interpretations.PointTakesPrecedence | services/interpretations.ts:49-53 | for a point, neither the planet tables nor the house affect the result |
| Interpretations.KeyEndsWithSect | services/interpretations.ts:91-92 | a profection key ends in 'y' by day and in 't' by night |
| Interpretations.ProfectionKeyInjective | services/interpretations.ts:91-92 | different signs or sects never share a profection key |
| Interpretations.GenerateProfectionInterpretation | services/interpretations.ts:79-95 | the house fallback when the house has no table; otherwise the text under sign_Day or sign_Night, else the key fallback |
| Interpretations.ProfectionIgnoresTimeLord | services/interpretations.ts:79-95 | the time lord never changes the text |
| Interpretations.GenerateLotInterpretation | services/interpretations.ts:108-118 | non-empty exactly when the lot's table has a text for the sign and house, and then that text |
| Interpretations.SignNameOf | services/interpretations.ts:134-135 | the name of the sign table for 0..11, and "undefined" outside it |
| Interpretations.NoPlaceholder | services/interpretations.ts:140 | replacing a '{' placeholder leaves a text without '{' unchanged |
| Interpretations.GenerateReturnInterpretation | services/interpretations.ts:129-144 | the stored return text with '{sign}' and then '{house}' filled in, or "coming soon" when the sign or the house text is missing |
| Interpretations.ReturnTextVerbatim | services/interpretations.ts:138-141 | a stored text without placeholders is returned as stored |
| Interpretations.GenerateAscendantTransitInterpretation | services/interpretations.ts:200-214 | the text under "1" with '{sign}' filled in, or "coming soon" when it is missing |
| Interpretations.GetHarmonizationRemedy | services/interpretations.ts:146-167 | empty exactly when neither table has the planet and house; otherwise the malefic remedy first, then the benefic harmonization, each with its own fallback |
| Interpretations.MaleficRemediesFirst | services/interpretations.ts:151-157 | when the malefic table covers the planet and house, the benefic table is never read |
| Interpretations.GetBlogLink | services/interpretations.ts:180-189 | a link exactly when the planet's table has the sign, and then the stored link |
| Interpretations.UnknownHouseFallsBack | services/loader.ts:27-67 | with files for houses 1 to 12 only, any other house gets the ruler and profection fallbacks |
| Interpretations.UnknownLotIsEmpty | services/loader.ts:43-51 | with files for the seven lots only, any other key gives the empty text |
| Interpretations.UnknownNameFallsBack | services/loader.ts:4-24 | a name with neither a point nor a planet file gets the planet fallback |
| Interpretations.DeprecatedVariantsConstant | services/interpretations.ts:37-198 | the synchronous variants answer "Cargando...", "" or no link, whatever their arguments |
| Timeline.DateRangeInjective | components/ProfectionTimeline.tsx:22-29 | the range names its start year, so different ages give different ranges |
| Timeline.DateRangeAsWritten | components/ProfectionTimeline.tsx:19-29 | with a birth date present, the range is `ProfectionDateRange` |
| Timeline.MissingBirthDateRange | components/ProfectionTimeline.tsx:19-29 | without a birth date every range is "undefined NaN - undefined NaN", which is no real range |
| Timeline.WindowSize | components/ProfectionTimeline.tsx:16-33 | at most 13 items; exactly 13 from age 6 on; none only below age -6; the last is six years after the current age |
| Timeline.BuildTimeline | components/ProfectionTimeline.tsx:31-47 | the loop yields the window of entries from the first age shown, as many as `WindowSize` allows |
| Timeline.TimelineItems | components/ProfectionTimeline.tsx:31-47 | item k of the built timeline is the item of age first + k |
| Timeline.EntryContents | components/ProfectionTimeline.tsx:37-46 | the item of an age holds the profection of that age, in house age mod 12 + 1 and the sign that many signs past the ascendant's, with that sign's name and symbol and the year of life from that birthday |
| Timeline.WindowAt | components/ProfectionTimeline.tsx:31-47 | item k of a window is the entry for the window's first age plus k |
| Timeline.WindowAges | components/ProfectionTimeline.tsx:31-64 | ages are consecutive, never negative and within six years of the current age; for a current age >= 0, exactly one item is current |
| Timeline.CurrentItemIsChartProfection | components/ProfectionTimeline.tsx:13-47 | from the day of birth on, the current item carries the chart's own profection |
| Validator.ExpectedKeys | validate_profection_batch.js:9-16 | the nested loops collect exactly every sign name with every suffix |
| Validator.ExpectedKeyIsProfectionKey | validate_profection_batch.js:12-16 | each expected key is the key the profection lookup builds for that sign and sect |
| Validator.ExpectedKeysDistinct | validate_profection_batch.js:12-16 | different signs or suffixes give different keys |
| Validator.ExpectedKeyCount | validate_profection_batch.js:4-16 | there are 24 expected keys |
| Validator.CheckHouse | validate_profection_batch.js:21-57 | no file, an unreadable file, or the expected keys the file lacks and the keys it has beyond them |
| Validator.PassedIffComplete | validate_profection_batch.js:38-52 | a file passes exactly when it holds every expected key; keys beyond them only warn |
| Validator.ValidateProfectionBatch | validate_profection_batch.js:18-64 | one outcome per house 2 to 6, in order; exit code 1 exactly when some house failed, else 0 |
| Validator.OnlyHousesTwoToSix | validate_profection_batch.js:18 | files of other houses never change the exit code |
| Validator.PassedFileServesEveryKey | validate_profection_batch.js:38-52 | a house whose table passes has an entry under every sign's day and night profection key |

## Left out

- The ephemeris is not part of this model: `calculateAscendant`, `calculateMidheaven`,
  `calculateChiron`, `calculateNodesVector` and the astronomy-engine calls. Their
  results (longitudes, and the change in longitude over the sampling interval) are
  inputs of `Chart.CalculateChart`. The nodes' fixed motion of -0.05 is kept.
- Parsing the birth date and time in a time zone is not modelled. Neither is reading
  the clock in `calculateProfection`. The birth date and the current date are
  calendar dates passed in.
- JavaScript floating point is not modelled. Longitudes are exact reals.
- `HOUSE_THEMES` and the other definitions come from definitions.json, which is not
  part of this model, so the `theme` fields are dropped.
- `BirthData`'s location and time zone are not modelled; only the name is kept.
- The loaders' asynchronous imports and promises are not modelled. A loader is a map,
  and a key without a file is a key absent from the map.
- All console output is left out: the `console.warn` of the synchronous stubs and the
  log, error and warning lines of the batch check.
- Rendering is left out: React, `TimelineItem`, and the `isCurrent` styling beyond the
  predicate itself.
- Validator.CheckHouse: the missing and extra keys are sets. They do not keep the order
  in which the script lists them.
- Validator.FileState: every failure inside the `try` block (a read error, malformed
  JSON, `null` content) is one `Unparsable` state, without its message.
- Interpretations.GetBlogLink: whether the stored link is empty is not distinguished.
  The stored value is returned as it is.
- Text.ReplaceFirst: the special `$` patterns of `String.prototype.replace` are not
  modelled. The replacements used (sign names and house numbers) contain no `$`.
- Timeline.BuildTimeline: it takes the birth date as a calendar date. The component
  reads `data.birthDate`, which the chart does not have (see Findings).
  `Timeline.DateRangeAsWritten` models what the component shows instead.
- Dignity.GetDignity: it is the lookup table itself and has no contract of its own.
  Its properties are stated by lemmas: `Dignity.DignityOpposition` (the traditional
  oppositions), `Dignity.MercuryFirstMatch` (first-match order),
  `Dignity.UnlistedBodies`, `Dignity.PartialTables`, and
  `Scoring.ScoringTablesMatchDignity` (agreement with the scoring tables).

## Findings

| source | as written | input that shows it | evidently intended | confidence | as-written member | corrected member |
|---|---|---|---|---|---|---|
| components/ProfectionTimeline.tsx:19-29 | the date range is computed from `data.birthDate`, which `calculateChart` (services/astronomyService.ts:605-615) never sets | any chart from `calculateChart`: `new Date(undefined)` is an invalid date, so every item shows "undefined NaN - undefined NaN" | each item shows the month of birth and the year its profection begins and ends | high (not executed) | Timeline.MissingBirthDateRange | Timeline.DateRangeInjective |
