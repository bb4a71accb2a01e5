/**
 * Annual profections of services/astronomyService.ts: `calculateProfectionByAge`
 * (one whole-sign house per year of age, counted from the ascendant's sign) and
 * `calculateProfection`, which first works out the age from the birth date and the
 * current date. The current date is a parameter here.
 */
module Profection {
  import opened Wrappers
  import opened JsMath
  import opened Seqs
  import opened Types
  import opened Houses

  /**
   * The profection ruler of a sign: the name of its first ruler typed 'Tradicional'
   * or 'Único', falling back to its first ruler when that name is missing or empty.
   */
  function ProfectionRulerName(signId: SignId): (name: string)
    ensures name == ZodiacSigns[signId].rulers[0].name
  {
    ZodiacRulerShapes();
    var sign := ZodiacSigns[signId];
    var found := FindFirst(sign.rulers, (r: RulerDef) => r.kind == Traditional || r.kind == Sole);
    FindFirstAt(sign.rulers, (r: RulerDef) => r.kind == Traditional || r.kind == Sole, 0);
    if found.Some? && found.value.name != "" then found.value.name else sign.rulers[0].name
  }

  /**
   * `calculateProfectionByAge`. JavaScript's `%` keeps the sign of the age, so a
   * negative age can give a negative sign index; `ZODIAC_SIGNS` has no entry there
   * and reading its rulers throws, which is `None` here.
   */
  function ProfectionByAge(age: int, ascSignId: SignId): (r: Option<ProfectionData>)
    ensures age >= 0 ==> r.Some?
    ensures r.Some? ==> r.value.age == age && r.value.ruler == r.value.timeLord
    ensures r.Some? ==> r.value.ruler == ZodiacSigns[r.value.signId].rulers[0].name
    ensures age >= 0 ==> r.value.houseNumber == age % 12 + 1 && r.value.signId == (ascSignId + age % 12) % 12
    ensures age < 0 ==> var k := (-age) % 12;
      && (r.None? <==> ascSignId < k)
      && (r.Some? ==> r.value.houseNumber == 1 - k && r.value.signId == ascSignId - k)
  {
    var housesAdvanced := JsIntRem(age, 12);
    var houseNumber := housesAdvanced + 1;
    var signIndex := JsIntRem(ascSignId + housesAdvanced, 12);
    if signIndex < 0 then
      None
    else
      var rulerName := ProfectionRulerName(signIndex);
      Some(ProfectionData(age, houseNumber, signIndex, rulerName, rulerName))
  }

  /** The profected sign is the sign on the profected house, counted from the ascendant's sign. */
  lemma ProfectedSignOnProfectedHouse(age: nat, ascSignId: SignId)
    ensures var p := ProfectionByAge(age, ascSignId).value;
      1 <= p.houseNumber <= 12 && WholeSignHouse(p.signId, ascSignId) == p.houseNumber
  {
    var p := ProfectionByAge(age, ascSignId).value;
    WholeSignHouseUnique(p.signId, ascSignId, p.houseNumber);
  }

  /** Profections repeat every twelve years. */
  lemma {:induction false} ProfectionPeriodic(age: nat, ascSignId: SignId)
    ensures var p, q := ProfectionByAge(age, ascSignId).value, ProfectionByAge(age + 12, ascSignId).value;
      p.houseNumber == q.houseNumber && p.signId == q.signId && p.timeLord == q.timeLord
  {
    assert (age + 12) % 12 == age % 12;
  }

  /** At age 0 the profection is the first house, in the ascendant's sign. */
  lemma ProfectionAtBirth(ascSignId: SignId)
    ensures ProfectionByAge(0, ascSignId).value.houseNumber == 1
    ensures ProfectionByAge(0, ascSignId).value.signId == ascSignId
  {
  }

  /**
   * A negative age never activates a house from 2 to 12: either reading the sign
   * table fails, or the house number is 1 or below.
   */
  lemma NegativeAge(age: int, ascSignId: SignId)
    requires age < 0
    ensures ProfectionByAge(age, ascSignId).None? || ProfectionByAge(age, ascSignId).value.houseNumber <= 1
  {
  }

  /**
   * The `years`-th anniversary of `birth` (its month and day in year
   * `birth.year + years`) falls on or before `now`.
   */
  predicate BirthdayReached(birth: CalendarDate, now: CalendarDate, years: int)
  {
    var y := birth.year + years;
    y < now.year || (y == now.year && (birth.month < now.month || (birth.month == now.month && birth.day <= now.day)))
  }

  /**
   * The age in `calculateProfection`: the difference of the years, less one when the
   * birth month and day have not yet come round this year. It is the number of
   * anniversaries reached.
   */
  function AgeOn(birth: CalendarDate, now: CalendarDate): (age: int)
    ensures BirthdayReached(birth, now, age) && !BirthdayReached(birth, now, age + 1)
  {
    var years := now.year - birth.year;
    var m := now.month - birth.month;
    if m < 0 || (m == 0 && now.day < birth.day) then years - 1 else years
  }

  /** Anniversaries are reached in order, so the age is the only count with that property. */
  lemma AgeOnUnique(birth: CalendarDate, now: CalendarDate, k: int)
    requires BirthdayReached(birth, now, k) && !BirthdayReached(birth, now, k + 1)
    ensures k == AgeOn(birth, now)
  {
    var a := AgeOn(birth, now);
    if k < a {
      assert false;
    } else if k > a {
      assert false;
    }
  }

  /**
   * `calculateProfection` with the current date as a parameter: the profection for
   * the number of anniversaries of the birth reached by `now`.
   */
  function CalculateProfection(birth: CalendarDate, now: CalendarDate, ascSignId: SignId): (r: Option<ProfectionData>)
    ensures r.Some? ==> BirthdayReached(birth, now, r.value.age) && !BirthdayReached(birth, now, r.value.age + 1)
    ensures r.Some? ==> r.value.ruler == ZodiacSigns[r.value.signId].rulers[0].name
  {
    ProfectionByAge(AgeOn(birth, now), ascSignId)
  }

  /**
   * From the day of birth on, the profection exists and is the one for the number of
   * completed years of life.
   */
  lemma ProfectionFromBirth(birth: CalendarDate, now: CalendarDate, ascSignId: SignId)
    requires BirthdayReached(birth, now, 0)
    ensures var r := CalculateProfection(birth, now, ascSignId);
      && r.Some?
      && r.value.age >= 0
      && BirthdayReached(birth, now, r.value.age) && !BirthdayReached(birth, now, r.value.age + 1)
      && r.value.houseNumber == r.value.age % 12 + 1
  {
    var a := AgeOn(birth, now);
    if a < 0 {
      assert false;
    }
  }
}
