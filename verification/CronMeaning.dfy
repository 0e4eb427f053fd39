/** What whole cron expressions mean: those written field by field, the aliases, and one that
    only leap days satisfy. */
module CronMeaning {
  import opened Wrappers
  import opened Gregorian
  import opened Cron
  import opened CronSearch
  import Text

  // -------------------------------------------------------- five fields

  lemma AliasesStartAlike(s: string)
    requires s in ALIASES
    ensures s != "" && s[0] == '@'
  {
  }

  /** The fields of an expression: those of its alias, or its own words. */
  function Expanded(expression: string): string {
    var lowered := Text.Lower(Text.Strip(expression));
    if lowered in ALIASES then ALIASES[lowered] else Text.Strip(expression)
  }

  /** What an accepted expression of these fields parses to. */
  function OfFields(fields: seq<string>): Option<Schedule>
    requires |fields| == 5
  {
    var mi, ho := ParseField(fields[0], MINUTE_LIMITS), ParseField(fields[1], HOUR_LIMITS);
    var dm, mo := ParseField(fields[2], DAY_LIMITS), ParseField(fields[3], MONTH_LIMITS);
    var dw := ParseField(fields[4], WEEKDAY_LIMITS);
    if mi.None? || ho.None? || dm.None? || mo.None? || dw.None? then None
    else Some(Schedule(mi.value, ho.value, dm.value, mo.value, dw.value))
  }

  lemma FieldsParse(expression: string, fields: seq<string>)
    requires Text.Words(Expanded(expression)) == fields && |fields| == 5
    ensures ParseSchedule(expression) == OfFields(fields)
  {
  }

  lemma NoAlias(text: string)
    requires text != "" && text[0] != '@' && Text.Strip(text) == text
    ensures Expanded(text) == text
  {
    var lowered := Text.Lower(text);
    assert lowered[0] != '@';
    if lowered in ALIASES {
      AliasesStartAlike(lowered);
    }
  }

  /** An expression written as five lists of chunks. */
  function ScheduleText(mi: seq<Chunk>, ho: seq<Chunk>, dm: seq<Chunk>, mo: seq<Chunk>, dw: seq<Chunk>): string {
    Text.Join([FieldText(mi), FieldText(ho), FieldText(dm), FieldText(mo), FieldText(dw)], ' ')
  }

  /** The chunks of one field, of numbers and of names of that field. */
  predicate WellWritten(cs: seq<Chunk>, lim: Limits) { cs != [] && forall c <- cs :: Written(c, lim) }

  ghost predicate AllAccepted(cs: seq<Chunk>, lim: Limits) { forall c <- cs :: Accepts(c, lim) }

  ghost predicate Means(field: Field, cs: seq<Chunk>, lim: Limits) {
    && AllAccepted(cs, lim)
    && (forall x :: x in field.values <==> FieldAdmits(cs, lim, x))
    && (field.any <==> cs == [Star])
  }

  lemma FieldRead(cs: seq<Chunk>, lim: Limits)
    requires PlainNames(lim) && 0 <= lim.minimum <= lim.maximum && WellWritten(cs, lim)
    ensures Text.IsWord(FieldText(cs)) && FieldText(cs)[0] != '@'
    ensures var field := ParseField(FieldText(cs), lim);
      (field.Some? <==> AllAccepted(cs, lim)) && (field.Some? ==> Means(field.value, cs, lim))
  {
    FieldClean(cs, lim);
    FieldMeaning(cs, lim);
    StartsPlain(cs, lim);
  }

  lemma StartsPlain(cs: seq<Chunk>, lim: Limits)
    requires PlainNames(lim) && WellWritten(cs, lim)
    ensures FieldText(cs) != "" && FieldText(cs)[0] != '@'
  {
    var c := cs[0];
    assert c in cs;
    RenderedChunkClean(c, lim);
    RenderedChunkPlain(c, lim);
    assert RenderAll(cs)[0] == Render(c);
    assert FieldText(cs)[0] == Render(c)[0];
  }

  lemma ReadFive(fields: seq<string>)
    requires |fields| == 5 && Text.IsWord(fields[0]) && fields[0][0] != '@'
    requires forall i :: 0 <= i < 5 ==> Text.IsWord(fields[i])
    ensures Text.Words(Expanded(Text.Join(fields, ' '))) == fields
  {
    var text := Text.Join(fields, ' ');
    Text.WordsJoin(fields);
    Text.JoinEnds(fields, ' ');
    StripPlain(text);
    NoAlias(text);
  }

  /** An expression written as five lists of chunks is accepted if and only if each field
      accepts its chunks, and then each field means what they say. */
  lemma ScheduleMeaning(mi: seq<Chunk>, ho: seq<Chunk>, dm: seq<Chunk>, mo: seq<Chunk>, dw: seq<Chunk>)
    requires WellWritten(mi, MINUTE_LIMITS) && WellWritten(ho, HOUR_LIMITS) && WellWritten(dm, DAY_LIMITS)
    requires WellWritten(mo, MONTH_LIMITS) && WellWritten(dw, WEEKDAY_LIMITS)
    ensures var r := ParseSchedule(ScheduleText(mi, ho, dm, mo, dw));
      && (r.Some? <==> AllAccepted(mi, MINUTE_LIMITS) && AllAccepted(ho, HOUR_LIMITS) && AllAccepted(dm, DAY_LIMITS)
                       && AllAccepted(mo, MONTH_LIMITS) && AllAccepted(dw, WEEKDAY_LIMITS))
      && (r.Some? ==>
            && Means(r.value.minute, mi, MINUTE_LIMITS) && Means(r.value.hour, ho, HOUR_LIMITS)
            && Means(r.value.dayOfMonth, dm, DAY_LIMITS) && Means(r.value.month, mo, MONTH_LIMITS)
            && Means(r.value.dayOfWeek, dw, WEEKDAY_LIMITS))
  {
    FieldRead(mi, MINUTE_LIMITS);
    FieldRead(ho, HOUR_LIMITS);
    FieldRead(dm, DAY_LIMITS);
    LimitsArePlain(MONTH_LIMITS);
    FieldRead(mo, MONTH_LIMITS);
    LimitsArePlain(WEEKDAY_LIMITS);
    FieldRead(dw, WEEKDAY_LIMITS);
    var fields := [FieldText(mi), FieldText(ho), FieldText(dm), FieldText(mo), FieldText(dw)];
    ReadFive(fields);
    FieldsParse(Text.Join(fields, ' '), fields);
  }

  // -------------------------------------------------------------- the aliases

  lemma OnceAnHour()
    ensures Text.Join(["0", "*", "*", "*", "*"], ' ') == "0 * * * *"
    ensures Text.Join(["0", "0", "*", "*", "*"], ' ') == "0 0 * * *"
  {
  }

  lemma OnceAWeek()
    ensures Text.Join(["0", "0", "*", "*", "0"], ' ') == "0 0 * * 0"
  {
  }

  lemma OnceAMonth()
    ensures Text.Join(["0", "0", "1", "*", "*"], ' ') == "0 0 1 * *"
  {
  }

  lemma OnceAYear()
    ensures Text.Join(["0", "0", "1", "1", "*"], ' ') == "0 0 1 1 *"
  {
  }

  /** What `0`, `1` and `*` parse to in the fields of the aliases. */
  lemma SmallFields()
    ensures ParseField("0", MINUTE_LIMITS) == ParseField("0", HOUR_LIMITS) == Some(Field(false, {0}))
    ensures ParseField("1", DAY_LIMITS) == Some(Field(false, {1}))
    ensures ParseField("1", MONTH_LIMITS) == Some(Field(false, {1}))
    ensures ParseField("0", WEEKDAY_LIMITS) == Some(Field(false, {0}))
  {
    assert Text.Decimal(0) == "0" && Text.Decimal(1) == "1";
    NumberField(0, MINUTE_LIMITS);
    NumberField(0, HOUR_LIMITS);
    NumberField(1, DAY_LIMITS);
    LimitsArePlain(MONTH_LIMITS);
    NumberField(1, MONTH_LIMITS);
    LimitsArePlain(WEEKDAY_LIMITS);
    NumberField(0, WEEKDAY_LIMITS);
  }

  lemma StarFields()
    ensures ParseField("*", HOUR_LIMITS) == Some(Field(true, Steps(0, 23, 1)))
    ensures ParseField("*", DAY_LIMITS) == Some(Field(true, Steps(1, 31, 1)))
    ensures ParseField("*", MONTH_LIMITS) == Some(Field(true, Steps(1, 12, 1)))
    ensures ParseField("*", WEEKDAY_LIMITS) == Some(Field(true, Steps(0, 6, 1)))
  {
    StarField(HOUR_LIMITS);
    StarField(DAY_LIMITS);
    StarField(MONTH_LIMITS);
    StarField(WEEKDAY_LIMITS);
  }

  lemma AliasParses(text: string, name: string, meaning: string, fields: seq<string>)
    requires Text.Lower(Text.Strip(text)) == name && name in ALIASES && ALIASES[name] == meaning
    requires meaning == Text.Join(fields, ' ') && |fields| == 5 && forall i :: 0 <= i < 5 ==> Text.IsWord(fields[i])
    ensures ParseSchedule(text) == OfFields(fields)
  {
    Text.WordsJoin(fields);
    FieldsParse(text, fields);
  }

  /** Does the text name the alias, in whatever cases and blanks around it? */
  predicate IsAlias(text: string, name: string) { Text.Lower(Text.Strip(text)) == name }

  /** The field admits just one value, or is `*`. */
  predicate Fixed(field: Field, low: int, high: int, only: Option<int>) {
    field == match only case Some(v) => Field(false, {v}) case None => Field(true, Steps(low, high, 1))
  }

  /** Each field of the schedule is `*` or fixed, as told. */
  predicate Fixes(r: Option<Schedule>, mi: Option<int>, ho: Option<int>, dm: Option<int>, mo: Option<int>, dw: Option<int>) {
    && r.Some? && Fixed(r.value.minute, 0, 59, mi) && Fixed(r.value.hour, 0, 23, ho)
    && Fixed(r.value.dayOfMonth, 1, 31, dm) && Fixed(r.value.month, 1, 12, mo) && Fixed(r.value.dayOfWeek, 0, 6, dw)
  }

  predicate Meets(only: Option<int>, x: int) { only.Some? ==> x == only.value }

  lemma FixedAdmits(field: Field, low: int, high: int, only: Option<int>, x: int)
    requires Fixed(field, low, high, only) && low <= x <= high
    ensures (x in field.values <==> Meets(only, x)) && (field.any <==> only.None?)
  {
    assert OnStep(x, low, 1);
  }

  /** A schedule with at most one of its day fields fixed fires where all fixed values are
      met. */
  lemma FixedRule(s: Schedule, d: Date, hour: int, minute: int,
                  mi: Option<int>, ho: Option<int>, dm: Option<int>, mo: Option<int>, dw: Option<int>)
    requires Fixes(Some(s), mi, ho, dm, mo, dw) && (dm.None? || dw.None?)
    requires ValidDate(d) && ValidClock(hour, minute)
    ensures Rule(s, d, hour, minute) <==>
      Meets(mi, minute) && Meets(ho, hour) && Meets(dm, d.day) && Meets(mo, d.month) && Meets(dw, DayOfWeek(d))
  {
    FixedAdmits(s.minute, 0, 59, mi, minute);
    FixedAdmits(s.hour, 0, 23, ho, hour);
    FixedAdmits(s.dayOfMonth, 1, 31, dm, d.day);
    FixedAdmits(s.month, 1, 12, mo, d.month);
    FixedAdmits(s.dayOfWeek, 0, 6, dw, DayOfWeek(d));
  }

  /** `text` is accepted, and fires at just the clock times that `when` tells. */
  ghost predicate FiresWhen(text: string, d: Date, hour: int, minute: int, when: bool)
    requires 1 <= d.month <= 12
  {
    ParseSchedule(text).Some? && (Rule(ParseSchedule(text).value, d, hour, minute) <==> when)
  }

  lemma HourlyParses(text: string)
    requires IsAlias(text, "@hourly")
    ensures ParseSchedule(text) == OfFields(["0", "*", "*", "*", "*"])
  {
    OnceAnHour();
    AliasParses(text, "@hourly", "0 * * * *", ["0", "*", "*", "*", "*"]);
  }

  lemma HourlyFields()
    ensures Fixes(OfFields(["0", "*", "*", "*", "*"]), Some(0), None, None, None, None)
  {
    SmallFields();
    StarFields();
  }

  lemma DailyParses(text: string)
    requires IsAlias(text, "@daily")
    ensures ParseSchedule(text) == OfFields(["0", "0", "*", "*", "*"])
  {
    OnceAnHour();
    AliasParses(text, "@daily", "0 0 * * *", ["0", "0", "*", "*", "*"]);
  }

  lemma DailyFields()
    ensures Fixes(OfFields(["0", "0", "*", "*", "*"]), Some(0), Some(0), None, None, None)
  {
    SmallFields();
    StarFields();
  }

  lemma WeeklyParses(text: string)
    requires IsAlias(text, "@weekly")
    ensures ParseSchedule(text) == OfFields(["0", "0", "*", "*", "0"])
  {
    OnceAWeek();
    AliasParses(text, "@weekly", "0 0 * * 0", ["0", "0", "*", "*", "0"]);
  }

  lemma WeeklyFields()
    ensures Fixes(OfFields(["0", "0", "*", "*", "0"]), Some(0), Some(0), None, None, Some(0))
  {
    SmallFields();
    StarFields();
  }

  lemma MonthlyParses(text: string)
    requires IsAlias(text, "@monthly")
    ensures ParseSchedule(text) == OfFields(["0", "0", "1", "*", "*"])
  {
    OnceAMonth();
    AliasParses(text, "@monthly", "0 0 1 * *", ["0", "0", "1", "*", "*"]);
  }

  lemma MonthlyFields()
    ensures Fixes(OfFields(["0", "0", "1", "*", "*"]), Some(0), Some(0), Some(1), None, None)
  {
    SmallFields();
    StarFields();
  }

  lemma YearlyParses(text: string)
    requires IsAlias(text, "@yearly")
    ensures ParseSchedule(text) == OfFields(["0", "0", "1", "1", "*"])
  {
    OnceAYear();
    AliasParses(text, "@yearly", "0 0 1 1 *", ["0", "0", "1", "1", "*"]);
  }

  lemma YearlyFields()
    ensures Fixes(OfFields(["0", "0", "1", "1", "*"]), Some(0), Some(0), Some(1), Some(1), None)
  {
    SmallFields();
    StarFields();
  }

  /** When the aliases fire: each full hour, each midnight, and midnight of Sundays, of the
      first of each month, and of 1 January. */
  lemma AliasMeaning(text: string, d: Date, hour: int, minute: int)
    requires ValidDate(d) && ValidClock(hour, minute)
    ensures IsAlias(text, "@hourly") ==> FiresWhen(text, d, hour, minute, minute == 0)
    ensures IsAlias(text, "@daily") ==> FiresWhen(text, d, hour, minute, minute == 0 && hour == 0)
    ensures IsAlias(text, "@weekly") ==> FiresWhen(text, d, hour, minute, minute == 0 && hour == 0 && DayOfWeek(d) == 0)
    ensures IsAlias(text, "@monthly") ==> FiresWhen(text, d, hour, minute, minute == 0 && hour == 0 && d.day == 1)
    ensures IsAlias(text, "@yearly") ==> FiresWhen(text, d, hour, minute, minute == 0 && hour == 0 && d.day == 1 && d.month == 1)
  {
    if IsAlias(text, "@hourly") { HourlyMeaning(text, d, hour, minute); }
    if IsAlias(text, "@daily") { DailyMeaning(text, d, hour, minute); }
    if IsAlias(text, "@weekly") { WeeklyMeaning(text, d, hour, minute); }
    if IsAlias(text, "@monthly") { MonthlyMeaning(text, d, hour, minute); }
    if IsAlias(text, "@yearly") { YearlyMeaning(text, d, hour, minute); }
  }

  lemma HourlyMeaning(text: string, d: Date, hour: int, minute: int)
    requires IsAlias(text, "@hourly") && ValidDate(d) && ValidClock(hour, minute)
    ensures FiresWhen(text, d, hour, minute, minute == 0)
  {
    HourlyParses(text);
    HourlyFields();
    FixedRule(ParseSchedule(text).value, d, hour, minute, Some(0), None, None, None, None);
  }

  lemma DailyMeaning(text: string, d: Date, hour: int, minute: int)
    requires IsAlias(text, "@daily") && ValidDate(d) && ValidClock(hour, minute)
    ensures FiresWhen(text, d, hour, minute, minute == 0 && hour == 0)
  {
    DailyParses(text);
    DailyFields();
    FixedRule(ParseSchedule(text).value, d, hour, minute, Some(0), Some(0), None, None, None);
  }

  lemma WeeklyMeaning(text: string, d: Date, hour: int, minute: int)
    requires IsAlias(text, "@weekly") && ValidDate(d) && ValidClock(hour, minute)
    ensures FiresWhen(text, d, hour, minute, minute == 0 && hour == 0 && DayOfWeek(d) == 0)
  {
    WeeklyParses(text);
    WeeklyFields();
    FixedRule(ParseSchedule(text).value, d, hour, minute, Some(0), Some(0), None, None, Some(0));
  }

  lemma MonthlyMeaning(text: string, d: Date, hour: int, minute: int)
    requires IsAlias(text, "@monthly") && ValidDate(d) && ValidClock(hour, minute)
    ensures FiresWhen(text, d, hour, minute, minute == 0 && hour == 0 && d.day == 1)
  {
    MonthlyParses(text);
    MonthlyFields();
    FixedRule(ParseSchedule(text).value, d, hour, minute, Some(0), Some(0), Some(1), None, None);
  }

  lemma YearlyMeaning(text: string, d: Date, hour: int, minute: int)
    requires IsAlias(text, "@yearly") && ValidDate(d) && ValidClock(hour, minute)
    ensures FiresWhen(text, d, hour, minute, minute == 0 && hour == 0 && d.day == 1 && d.month == 1)
  {
    YearlyParses(text);
    YearlyFields();
    FixedRule(ParseSchedule(text).value, d, hour, minute, Some(0), Some(0), Some(1), Some(1), None);
  }

  // ---------------------------------------------------------- a leap day

  const LEAP_DAY_FIELDS: seq<string> := ["0", "0", "29", "2", "*"]

  const LEAP_DAY := Schedule(Field(false, {0}), Field(false, {0}), Field(false, {29}), Field(false, {2}),
    Field(true, Steps(0, 6, 1)))

  lemma LeapDayFieldsParse()
    ensures ParseField("0", MINUTE_LIMITS) == Some(LEAP_DAY.minute)
    ensures ParseField("0", HOUR_LIMITS) == Some(LEAP_DAY.hour)
    ensures ParseField("29", DAY_LIMITS) == Some(LEAP_DAY.dayOfMonth)
    ensures ParseField("2", MONTH_LIMITS) == Some(LEAP_DAY.month)
    ensures ParseField("*", WEEKDAY_LIMITS) == Some(LEAP_DAY.dayOfWeek)
  {
    assert Text.Decimal(0) == "0" && Text.Decimal(2) == "2" && Text.Decimal(29) == "29";
    NumberField(0, MINUTE_LIMITS);
    NumberField(0, HOUR_LIMITS);
    NumberField(29, DAY_LIMITS);
    LimitsArePlain(MONTH_LIMITS);
    NumberField(2, MONTH_LIMITS);
    StarField(WEEKDAY_LIMITS);
  }

  lemma LeapDayText()
    ensures Text.Join(LEAP_DAY_FIELDS, ' ') == "0 0 29 2 *"
  {
  }

  lemma LeapDayParses()
    ensures ParseSchedule(Text.Join(LEAP_DAY_FIELDS, ' ')) == Some(LEAP_DAY)
  {
    ReadFive(LEAP_DAY_FIELDS);
    LeapDayFieldsParse();
    FieldsParse(Text.Join(LEAP_DAY_FIELDS, ' '), LEAP_DAY_FIELDS);
  }

  /** `0 0 29 2 *` is accepted, and only leap days satisfy it: a schedule whose search
      succeeds from some instants and raises from others. */
  lemma LeapDayAccepted()
    ensures ParseSchedule("0 0 29 2 *") == Some(LEAP_DAY)
    ensures ByDayOfMonth(LEAP_DAY) && !HasOrdinaryDate(LEAP_DAY) && HasLeapDay(LEAP_DAY)
    ensures exists t :: NextAfter(LEAP_DAY, t).Some?
    ensures exists t :: NextAfter(LEAP_DAY, t).None?
  {
    LeapDayText();
    LeapDayParses();
    LeapDayFires(LEAP_DAY);
    SearchFailsAfterLeapDay(LEAP_DAY);
  }
}
