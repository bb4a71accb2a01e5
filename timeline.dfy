/**
 * The profection timeline of components/ProfectionTimeline.tsx: the profection
 * of every age from six years before the current age to six years after, skipping
 * negative ages, each with the sign's name and symbol and the year it covers.
 */
module Timeline {
  import opened Wrappers
  import opened Text
  import opened Types
  import opened Profection

  /** The month abbreviations the date ranges use, January first. */
  const MonthAbbreviations: seq<string> := ["Ene", "Feb", "Mar", "Abr", "May", "Jun", "Jul", "Ago", "Sep", "Oct", "Nov", "Dic"]

  /** One item of the timeline: the profection and what is displayed with it. */
  datatype TimelineEntry = TimelineEntry(profection: ProfectionData, signName: string, signSymbol: string, dateRange: string)

  /**
   * `getProfectionDateRange`: the year of life that starts at the `age`-th birthday,
   * as month and year at either end.
   */
  function ProfectionDateRange(birth: CalendarDate, age: int): (range: string)
  {
    var startYear := birth.year + age;
    var endYear := startYear + 1;
    var monthName := MonthAbbreviations[birth.month];
    (monthName + " ") + (IntToString(startYear) + " " + ("- " + monthName + " " + IntToString(endYear)))
  }

  /** A decimal integer contains no space. */
  lemma NoSpaceInNumber(i: int)
    ensures ' ' !in IntToString(i)
  {
    var s := IntToString(i);
    forall k | 0 <= k < |s|
      ensures s[k] != ' '
    {
      if k > 0 || i >= 0 {
        assert IsDigit(s[k]);
      }
    }
  }

  /** In a word free of spaces followed by a space, the first space is right after the word. */
  lemma FirstSpaceAfterWord(a: string, r: string)
    requires ' ' !in a
    ensures var x := a + " " + r;
      x[|a|] == ' ' && forall k :: 0 <= k < |a| ==> x[k] != ' '
  {
    var x := a + " " + r;
    forall k | 0 <= k < |a|
      ensures x[k] != ' '
    {
      assert x[k] == a[k];
    }
  }

  /** Two texts that both start with a word free of spaces and then a space start with the same word. */
  lemma SameFirstWord(a: string, b: string, r1: string, r2: string)
    requires ' ' !in a && ' ' !in b
    requires a + " " + r1 == b + " " + r2
    ensures a == b
  {
    var x := a + " " + r1;
    FirstSpaceAfterWord(a, r1);
    FirstSpaceAfterWord(b, r2);
    assert |a| == |b|;
    assert a == x[..|a|] == b;
  }

  /** Equal texts with a common prefix have equal remainders. */
  lemma DropCommonPrefix(p: string, t1: string, t2: string)
    requires p + t1 == p + t2
    ensures t1 == t2
  {
    assert t1 == (p + t1)[|p|..];
    assert t2 == (p + t2)[|p|..];
  }

  /** A date range names the year it starts, so different ages give different ranges. */
  lemma DateRangeInjective(birth: CalendarDate, a1: int, a2: int)
    requires ProfectionDateRange(birth, a1) == ProfectionDateRange(birth, a2)
    ensures a1 == a2
  {
    var m := MonthAbbreviations[birth.month];
    var y1, y2 := IntToString(birth.year + a1), IntToString(birth.year + a2);
    DropCommonPrefix(m + " ", y1 + " " + ("- " + m + " " + IntToString(birth.year + a1 + 1)), y2 + " " + ("- " + m + " " + IntToString(birth.year + a2 + 1)));
    NoSpaceInNumber(birth.year + a1);
    NoSpaceInNumber(birth.year + a2);
    SameFirstWord(y1, y2, "- " + m + " " + IntToString(birth.year + a1 + 1), "- " + m + " " + IntToString(birth.year + a2 + 1));
    IntToStringInjective(birth.year + a1, birth.year + a2);
  }

  /**
   * The date range as the component computes it from the chart's `birthDate`
   * field: `None` stands for a missing field, which JavaScript turns into an invalid
   * date whose year is NaN and whose month indexes no name.
   */
  function DateRangeAsWritten(birthDate: Option<CalendarDate>, age: int): (range: string)
    ensures birthDate.Some? ==> range == ProfectionDateRange(birthDate.value, age)
  {
    match birthDate
    case Some(birth) => ProfectionDateRange(birth, age)
    case None => "undefined" + " " + "NaN" + " - " + "undefined" + " " + "NaN"
  }

  /**
   * A chart built by `calculateChart` has no `birthDate`, so every item of its
   * timeline shows the same range, naming neither a month nor a year.
   */
  lemma MissingBirthDateRange(a1: int, a2: int)
    ensures DateRangeAsWritten(None, a1) == "undefined NaN - undefined NaN"
    ensures DateRangeAsWritten(None, a1) == DateRangeAsWritten(None, a2)
    ensures forall birth: CalendarDate :: DateRangeAsWritten(None, a1) != ProfectionDateRange(birth, a1)
  {
    forall birth: CalendarDate
      ensures DateRangeAsWritten(None, a1) != ProfectionDateRange(birth, a1)
    {
      MonthInitialIsCapital(birth.month);
      assert ProfectionDateRange(birth, a1)[0] == MonthAbbreviations[birth.month][0] != 'u';
      assert DateRangeAsWritten(None, a1)[0] == 'u';
    }
  }

  /** Every month abbreviation starts with a capital letter. */
  lemma MonthInitialIsCapital(month: int)
    requires 0 <= month < 12
    ensures |MonthAbbreviations[month]| > 0 && 'A' <= MonthAbbreviations[month][0] <= 'Z'
  {
  }

  /** The timeline item for an age that is not negative. */
  function Entry(age: nat, ascSignId: SignId, birth: CalendarDate): TimelineEntry
  {
    var profection := ProfectionByAge(age, ascSignId).value;
    var sign := ZodiacSigns[profection.signId];
    TimelineEntry(profection, sign.name, sign.symbol, ProfectionDateRange(birth, age))
  }

  /**
   * The item of an age: the profection of that age, which activates house
   * `age % 12 + 1` in the sign that many signs past the ascendant's, with that sign's
   * name and symbol and the year of life from that birthday.
   */
  lemma EntryContents(age: nat, ascSignId: SignId, birth: CalendarDate)
    ensures var e := Entry(age, ascSignId, birth);
      && e.profection == ProfectionByAge(age, ascSignId).value
      && e.profection.age == age && e.profection.houseNumber == age % 12 + 1
      && e.profection.signId == (ascSignId + age % 12) % 12
      && e.signName == ZodiacSigns[e.profection.signId].name && e.signSymbol == ZodiacSigns[e.profection.signId].symbol
      && e.dateRange == ProfectionDateRange(birth, age)
  {
  }

  /** The fields of a timeline item, as the loop fills them in. */
  lemma EntryFields(age: nat, ascSignId: SignId, birth: CalendarDate)
    ensures var profection := ProfectionByAge(age, ascSignId).value;
      Entry(age, ascSignId, birth)
      == TimelineEntry(profection, ZodiacSigns[profection.signId].name, ZodiacSigns[profection.signId].symbol, ProfectionDateRange(birth, age))
  {
  }

  /** The item of every age, for one ascendant sign and birth date. */
  function EntryOf(ascSignId: SignId, birth: CalendarDate): nat -> TimelineEntry
  {
    (age: nat) => Entry(age, ascSignId, birth)
  }

  /** The items `entry` gives for `n` consecutive ages starting at `first`. */
  function Window(first: nat, n: nat, entry: nat -> TimelineEntry): (w: seq<TimelineEntry>)
    ensures |w| == n
  {
    if n == 0 then [] else Window(first, n - 1, entry) + [entry(first + n - 1)]
  }

  /** A window one age longer ends with the item of that age. */
  lemma WindowStep(first: nat, n: nat, entry: nat -> TimelineEntry)
    ensures Window(first, n + 1, entry) == Window(first, n, entry) + [entry(first + n)]
  {
  }

  /** Item `k` of a window is the item of the `k`-th age after its first. */
  lemma {:induction false} WindowAt(first: nat, n: nat, k: nat, entry: nat -> TimelineEntry)
    requires k < n
    ensures Window(first, n, entry)[k] == entry(first + k)
  {
    if k < n - 1 {
      WindowAt(first, n - 1, k, entry);
    }
  }

  /** The item of an age carries the profection of that age. */
  lemma EntryAge(age: nat, ascSignId: SignId, birth: CalendarDate)
    ensures Entry(age, ascSignId, birth).profection.age == age
  {
  }

  /** The item built for the age after a window extends the window by one. */
  lemma AppendEntry(first: nat, n: nat, age: nat, ascSignId: SignId, birth: CalendarDate, item: TimelineEntry)
    requires age == first + n
    requires var profection := ProfectionByAge(age, ascSignId).value;
      item == TimelineEntry(profection, ZodiacSigns[profection.signId].name, ZodiacSigns[profection.signId].symbol, ProfectionDateRange(birth, age))
    ensures Window(first, n + 1, EntryOf(ascSignId, birth)) == Window(first, n, EntryOf(ascSignId, birth)) + [item]
  {
    EntryFields(age, ascSignId, birth);
    WindowStep(first, n, EntryOf(ascSignId, birth));
  }

  /**
   * Item `k` of a built timeline is the item of age `FirstAge(currentAge) + k`, whose
   * contents `EntryContents` gives.
   */
  lemma TimelineItems(currentAge: int, ascSignId: SignId, birth: CalendarDate, items: seq<TimelineEntry>, k: int)
    requires items == Window(FirstAge(currentAge), WindowSize(currentAge), EntryOf(ascSignId, birth))
    requires 0 <= k < |items|
    ensures items[k] == Entry(FirstAge(currentAge) + k, ascSignId, birth)
  {
    WindowAt(FirstAge(currentAge), WindowSize(currentAge), k, EntryOf(ascSignId, birth));
  }

  /** The first age shown: six before the current one, but never below zero. */
  function FirstAge(currentAge: int): nat
  {
    if currentAge - 6 < 0 then 0 else currentAge - 6
  }

  /** How many ages the window shows. */
  function WindowSize(currentAge: int): (n: nat)
    ensures n <= 13
    ensures currentAge >= 6 ==> n == 13
    ensures n == 0 <==> currentAge < -6
    ensures n > 0 ==> FirstAge(currentAge) + n - 1 == currentAge + 6
  {
    if currentAge + 6 < 0 then 0 else currentAge + 6 - FirstAge(currentAge) + 1
  }

  /**
   * The `timelineItems` loop: every age from `currentAge - 6` to `currentAge + 6`,
   * skipping negative ones, in increasing order.
   */
  method BuildTimeline(currentAge: int, ascSignId: SignId, birth: CalendarDate) returns (items: seq<TimelineEntry>)
    ensures items == Window(FirstAge(currentAge), WindowSize(currentAge), EntryOf(ascSignId, birth))
  {
    items := [];
    var startAge := currentAge - 6;
    var endAge := currentAge + 6;
    for age := startAge to endAge + 1
      invariant |items| == if age < 0 then 0 else age - FirstAge(currentAge)
      invariant items == Window(FirstAge(currentAge), |items|, EntryOf(ascSignId, birth))
    {
      if age < 0 {
        continue;
      }
      var profection := ProfectionByAge(age, ascSignId).value;
      var sign := ZodiacSigns[profection.signId];
      var item := TimelineEntry(profection, sign.name, sign.symbol, ProfectionDateRange(birth, age));
      AppendEntry(FirstAge(currentAge), |items|, age, ascSignId, birth, item);
      items := items + [item];
    }
  }

  /** `isCurrent`: the item whose age is the chart's current age. */
  predicate IsCurrent(item: TimelineEntry, currentAge: int)
  {
    item.profection.age == currentAge
  }

  /**
   * The window's ages are consecutive, never negative, and within six years of the
   * current age; for a current age that is not negative, exactly one item is current,
   * at index `currentAge - FirstAge(currentAge)`.
   */
  lemma WindowAges(currentAge: int, ascSignId: SignId, birth: CalendarDate, items: seq<TimelineEntry>)
    requires items == Window(FirstAge(currentAge), WindowSize(currentAge), EntryOf(ascSignId, birth))
    ensures forall k :: 0 <= k < |items| ==>
      items[k].profection.age >= 0 && currentAge - 6 <= items[k].profection.age <= currentAge + 6
    ensures forall k :: 0 < k < |items| ==> items[k].profection.age == items[k - 1].profection.age + 1
    ensures currentAge >= 0 ==>
      var c := currentAge - FirstAge(currentAge);
      && 0 <= c < |items| && IsCurrent(items[c], currentAge)
      && forall k :: 0 <= k < |items| && k != c ==> !IsCurrent(items[k], currentAge)
  {
    forall k | 0 <= k < |items|
      ensures items[k].profection.age == FirstAge(currentAge) + k
    {
      WindowAt(FirstAge(currentAge), WindowSize(currentAge), k, EntryOf(ascSignId, birth));
      EntryAge(FirstAge(currentAge) + k, ascSignId, birth);
    }
  }

  /** From the day of birth on, the current item of a chart's timeline carries the chart's own profection. */
  lemma CurrentItemIsChartProfection(birth: CalendarDate, now: CalendarDate, ascSignId: SignId, items: seq<TimelineEntry>)
    requires BirthdayReached(birth, now, 0)
    requires var age := CalculateProfection(birth, now, ascSignId).value.age;
      items == Window(FirstAge(age), WindowSize(age), EntryOf(ascSignId, birth))
    ensures var p := CalculateProfection(birth, now, ascSignId).value;
      var c := p.age - FirstAge(p.age);
      0 <= c < |items| && items[c].profection == p
  {
    ProfectionFromBirth(birth, now, ascSignId);
    var age := CalculateProfection(birth, now, ascSignId).value.age;
    WindowAt(FirstAge(age), WindowSize(age), age - FirstAge(age), EntryOf(ascSignId, birth));
  }
}
