/** The calendar search of a cron schedule: which minutes match, the bounded forward
    search for the next one, and exactly when that search can fail. */
module CronSearch {
  import opened Wrappers
  import opened Gregorian
  import opened Cron
  import Text

  const MINUTE: int := 60_000_000     // microseconds
  const DAY: int := 1440              // minutes
  const WINDOW: nat := 1_054_080      // 366 * 24 * 60 * 2 candidate minutes: 732 days

  datatype Schedule = Schedule(minute: Field, hour: Field, dayOfMonth: Field, month: Field, dayOfWeek: Field)

  ghost predicate Valid(s: Schedule) {
    && ValidField(s.minute, MINUTE_LIMITS)
    && ValidField(s.hour, HOUR_LIMITS)
    && ValidField(s.dayOfMonth, DAY_LIMITS)
    && ValidField(s.month, MONTH_LIMITS)
    && ValidField(s.dayOfWeek, WEEKDAY_LIMITS)
  }

  const ALIASES: map<string, string> := map[
    "@hourly" := "0 * * * *", "@daily" := "0 0 * * *", "@weekly" := "0 0 * * 0",
    "@monthly" := "0 0 1 * *", "@yearly" := "0 0 1 1 *"]

  function ParseSchedule(expression: string): (r: Option<Schedule>)
    ensures r.Some? ==> Valid(r.value)
  {
    var stripped := Text.Strip(expression);
    var lowered := Text.Lower(stripped);
    var fields := Text.Words(if lowered in ALIASES then ALIASES[lowered] else stripped);
    if |fields| != 5 then None
    else
      var mi, ho := ParseField(fields[0], MINUTE_LIMITS), ParseField(fields[1], HOUR_LIMITS);
      var dm, mo := ParseField(fields[2], DAY_LIMITS), ParseField(fields[3], MONTH_LIMITS);
      var dw := ParseField(fields[4], WEEKDAY_LIMITS);
      if mi.None? || ho.None? || dm.None? || mo.None? || dw.None? then None
      else
        ParsedFieldValid(fields[0], MINUTE_LIMITS);
        ParsedFieldValid(fields[1], HOUR_LIMITS);
        ParsedFieldValid(fields[2], DAY_LIMITS);
        ParsedFieldValid(fields[3], MONTH_LIMITS);
        ParsedFieldValid(fields[4], WEEKDAY_LIMITS);
        Some(Schedule(mi.value, ho.value, dm.value, mo.value, dw.value))
  }

  // --------------------------------------------------------------- matching

  /** Day number of minute `k`. */
  function DayOf(k: int): int { k / DAY + 1 }

  /** Python's `weekday()`: Monday is 0. */
  function Weekday(n: int): int { (n + 6) % 7 }

  function CronWeekday(n: int): int { (Weekday(n) + 1) % 7 }

  predicate DayMatches(s: Schedule, n: int) {
    var d := DateOf(n);
    && d.month in s.month.values
    && var dom, dow := d.day in s.dayOfMonth.values, CronWeekday(n) in s.dayOfWeek.values;
       if s.dayOfMonth.any && s.dayOfWeek.any then true
       else if s.dayOfMonth.any then dow
       else if s.dayOfWeek.any then dom
       else dom || dow
  }

  /** Does the schedule fire at minute `k`? */
  predicate Matches(s: Schedule, k: int) {
    && k % 60 in s.minute.values
    && k / 60 % 24 in s.hour.values
    && DayMatches(s, DayOf(k))
  }

  /** An instant at which the schedule fires: a whole matching minute. */
  predicate FiresAt(s: Schedule, x: int) {
    x % MINUTE == 0 && Matches(s, x / MINUTE)
  }

  // ---------------------------------------------------------- the firing rule

  /** The instant of minute `minute` of hour `hour` of a date. */
  function InstantAt(d: Date, hour: int, minute: int): int
    requires 1 <= d.month <= 12
  {
    ((Ordinal(d) - 1) * 1440 + hour * 60 + minute) * 60_000_000
  }

  predicate ValidClock(hour: int, minute: int) { 0 <= hour < 24 && 0 <= minute < 60 }

  /** Days of the week from Sunday, 0, to Saturday, 6; 1 January of year 1 is a Monday. */
  function DayOfWeek(d: Date): (w: int)
    requires 1 <= d.month <= 12
    ensures 0 <= w <= 6
  {
    Ordinal(d) % 7
  }

  /** The rule of the two day fields: while one of them is `*` both must admit the day,
      otherwise one of them is enough. */
  ghost predicate DayRule(s: Schedule, d: Date)
    requires 1 <= d.month <= 12
  {
    var byMonth, byWeek := d.day in s.dayOfMonth.values, DayOfWeek(d) in s.dayOfWeek.values;
    if s.dayOfMonth.any || s.dayOfWeek.any then byMonth && byWeek else byMonth || byWeek
  }

  /** The rule by which a schedule fires at a date and clock time. */
  ghost predicate Rule(s: Schedule, d: Date, hour: int, minute: int)
    requires 1 <= d.month <= 12
  {
    minute in s.minute.values && hour in s.hour.values && d.month in s.month.values && DayRule(s, d)
  }

  /** `x` is a clock time at which the rule holds. */
  ghost predicate Due(s: Schedule, x: int) {
    exists d, hour, minute ::
      ValidDate(d) && ValidClock(hour, minute) && x == InstantAt(d, hour, minute) && Rule(s, d, hour, minute)
  }

  // ------------------------------------------------------ matching is the rule

  lemma CronWeekdayOf(n: int)
    ensures CronWeekday(n) == n % 7
  {
  }

  /** In an accepted schedule a `*` field admits every day. */
  lemma StarAdmits(s: Schedule, d: Date)
    requires Valid(s) && ValidDate(d)
    ensures s.dayOfMonth.any ==> d.day in s.dayOfMonth.values
    ensures s.dayOfWeek.any ==> DayOfWeek(d) in s.dayOfWeek.values
  {
    assert OnStep(d.day, 1, 1) && OnStep(DayOfWeek(d), 0, 1);
  }

  lemma DayMatchesIff(s: Schedule, d: Date)
    requires Valid(s) && ValidDate(d)
    ensures DayMatches(s, Ordinal(d)) <==> d.month in s.month.values && DayRule(s, d)
  {
    DateOfOrdinal(d);
    CronWeekdayOf(Ordinal(d));
    StarAdmits(s, d);
  }

  /** The minute of an instant, taken apart. */
  lemma ClockOf(d: Date, hour: int, minute: int)
    requires ValidDate(d) && ValidClock(hour, minute)
    ensures var x := InstantAt(d, hour, minute); var k := x / MINUTE;
      x % MINUTE == 0 && k % 60 == minute && k / 60 % 24 == hour && DayOf(k) == Ordinal(d)
  {
    var k := (Ordinal(d) - 1) * 1440 + hour * 60 + minute;
    assert InstantAt(d, hour, minute) == k * MINUTE;
    assert k * MINUTE / MINUTE == k;
    ClockOfMinute(Ordinal(d) - 1, hour, minute);
  }

  lemma ClockOfMinute(days: int, hour: int, minute: int)
    requires ValidClock(hour, minute)
    ensures var k := days * 1440 + hour * 60 + minute;
      k % 60 == minute && k / 60 % 24 == hour && k / 1440 == days
  {
    var k := days * 1440 + hour * 60 + minute;
    assert k / 60 == days * 24 + hour;
  }

  /** Every whole minute is a clock time of a date. */
  lemma ClockExists(x: int) returns (d: Date, hour: int, minute: int)
    requires x % MINUTE == 0
    ensures ValidDate(d) && ValidClock(hour, minute) && x == InstantAt(d, hour, minute)
  {
    var k := x / MINUTE;
    d, hour, minute := DateOf(DayOf(k)), k / 60 % 24, k % 60;
    ClockSplit(k);
    assert x == k * MINUTE;
  }

  lemma ClockSplit(k: int)
    ensures k == k / 1440 * 1440 + k / 60 % 24 * 60 + k % 60
  {
    assert k / 60 / 24 == k / 1440;
  }

  /** A schedule fires at a clock time of a date if and only if the rule holds of it. */
  lemma FiresByRule(s: Schedule, d: Date, hour: int, minute: int)
    requires Valid(s) && ValidDate(d) && ValidClock(hour, minute)
    ensures FiresAt(s, InstantAt(d, hour, minute)) <==> Rule(s, d, hour, minute)
  {
    ClockOf(d, hour, minute);
    DayMatchesIff(s, d);
  }

  lemma FiresIffDue(s: Schedule, x: int)
    requires Valid(s)
    ensures FiresAt(s, x) <==> Due(s, x)
  {
    if FiresAt(s, x) {
      var d, hour, minute := ClockExists(x);
      FiresByRule(s, d, hour, minute);
    }
    if Due(s, x) {
      var d, hour, minute :|
        ValidDate(d) && ValidClock(hour, minute) && x == InstantAt(d, hour, minute) && Rule(s, d, hour, minute);
      FiresByRule(s, d, hour, minute);
    }
  }

  /** `0 0 13 * 5` fires on the thirteenth of a month that is no Friday, and on a Friday
      that is no thirteenth. */
  lemma ThirteenthOrFriday(s: Schedule, d: Date)
    requires Valid(s) && ValidDate(d) && !s.dayOfMonth.any && !s.dayOfWeek.any
    requires s.minute.values == {0} && s.hour.values == {0} && d.month in s.month.values
    requires s.dayOfMonth.values == {13} && s.dayOfWeek.values == {5}
    ensures FiresAt(s, InstantAt(d, 0, 0)) <==> d.day == 13 || DayOfWeek(d) == 5
  {
    FiresByRule(s, d, 0, 0);
  }

  // ----------------------------------------------------------------- search

  /** `r` names the least matching minute of [lo, hi), if there is one. */
  ghost predicate LeastMatch(s: Schedule, lo: int, hi: int, r: Option<int>) {
    match r
    case Some(k) => lo <= k < hi && Matches(s, k) && forall j :: lo <= j < k ==> !Matches(s, j)
    case None => forall j :: lo <= j < hi ==> !Matches(s, j)
  }

  function MatchesOf(s: Schedule): int -> bool { k => Matches(s, k) }

  ghost predicate NoneIn(matches: int -> bool, lo: int, hi: int) {
    forall j :: lo <= j < hi ==> !matches(j)
  }

  ghost predicate LeastIn(matches: int -> bool, lo: int, hi: int, r: Option<int>) {
    match r
    case Some(k) => lo <= k < hi && matches(k) && NoneIn(matches, lo, k)
    case None => NoneIn(matches, lo, hi)
  }

  function Search(matches: int -> bool, k: int, end: int): (r: Option<int>)
    ensures LeastIn(matches, k, end, r)
    decreases end - k
  {
    if k >= end then None
    else if matches(k) then Some(k)
    else Search(matches, k + 1, end)
  }

  lemma LeastInMatches(s: Schedule, lo: int, hi: int, r: Option<int>)
    requires LeastIn(MatchesOf(s), lo, hi, r)
    ensures LeastMatch(s, lo, hi, r)
  {
    forall j | lo <= j < if r.Some? then r.value else hi ensures !Matches(s, j) {
      assert !MatchesOf(s)(j);
    }
    if r.Some? {
      assert MatchesOf(s)(r.value);
    }
  }

  /** The first candidate after instant `t`: the next whole minute. */
  function FirstCandidate(t: int): int { t / MINUTE + 1 }

  /** The minute found by the search from instant `t`; None where the code raises. */
  function NextMinute(s: Schedule, t: int): (r: Option<int>)
    ensures LeastMatch(s, FirstCandidate(t), FirstCandidate(t) + WINDOW, r)
  {
    var r := Search(MatchesOf(s), FirstCandidate(t), FirstCandidate(t) + WINDOW);
    LeastInMatches(s, FirstCandidate(t), FirstCandidate(t) + WINDOW, r);
    r
  }

  function AtMinute(r: Option<int>): Option<int> {
    match r case None => None case Some(k) => Some(k * MINUTE)
  }

  /** `next_after` as a function on instants. */
  function NextAfter(s: Schedule, t: int): Option<int> { AtMinute(NextMinute(s, t)) }

  /** `first_fire_at` as a function on instants. */
  function FirstFireAt(s: Schedule, t: int): Option<int> {
    if t % MINUTE == 0 && Matches(s, t / MINUTE) then Some(t) else NextAfter(s, t)
  }

  /** The least clock time after `t` at which the rule holds, if the search finds one in
      its 732 days. */
  method ComputeNextAfter(s: Schedule, t: int) returns (r: Option<int>)
    ensures r == NextAfter(s, t)
    ensures Valid(s) ==> FirstByRule(s, t, r)
  {
    var candidate := FirstCandidate(t);
    for i := 0 to WINDOW
      invariant candidate == FirstCandidate(t) + i
      invariant NoneIn(MatchesOf(s), FirstCandidate(t), candidate)
    {
      if Matches(s, candidate) {
        FoundIsNext(s, t, Some(candidate), NextMinute(s, t));
        SearchKeepsRule(s, t);
        return Some(candidate * MINUTE);
      }
      candidate := candidate + 1;
    }
    FoundIsNext(s, t, None, NextMinute(s, t));
    SearchKeepsRule(s, t);
    return None;
  }

  lemma FoundIsNext(s: Schedule, t: int, found: Option<int>, next: Option<int>)
    requires next == NextMinute(s, t)
    requires NoneIn(MatchesOf(s), FirstCandidate(t), if found.Some? then found.value else FirstCandidate(t) + WINDOW)
    requires found.Some? ==>
      FirstCandidate(t) <= found.value < FirstCandidate(t) + WINDOW && MatchesOf(s)(found.value)
    ensures AtMinute(found) == NextAfter(s, t)
  {
    forall j | FirstCandidate(t) <= j < if found.Some? then found.value else FirstCandidate(t) + WINDOW
      ensures !Matches(s, j)
    {
      assert !MatchesOf(s)(j);
    }
    LeastMatchUnique(s, FirstCandidate(t), FirstCandidate(t) + WINDOW, found, next);
  }

  lemma LeastMatchUnique(s: Schedule, lo: int, hi: int, a: Option<int>, b: Option<int>)
    requires LeastMatch(s, lo, hi, a) && LeastMatch(s, lo, hi, b)
    ensures a == b
  {
  }

  // ------------------------------------------------- minimality, enumeration

  /** `next_after` yields the least fire instant strictly after `t`. */
  lemma NextAfterIsLeast(s: Schedule, t: int)
    ensures match NextAfter(s, t)
      case Some(u) => t < u && FiresAt(s, u) && forall x :: t < x < u ==> !FiresAt(s, x)
      case None => forall x :: t < x && x / MINUTE < FirstCandidate(t) + WINDOW ==> !FiresAt(s, x)
  {
    match NextMinute(s, t)
    case Some(k) =>
      assert k * MINUTE / MINUTE == k && k * MINUTE % MINUTE == 0;
      forall x | t < x < k * MINUTE ensures !FiresAt(s, x) {
        if x % MINUTE == 0 {
          assert FirstCandidate(t) <= x / MINUTE < k;
        }
      }
    case None =>
      forall x | t < x && x / MINUTE < FirstCandidate(t) + WINDOW ensures !FiresAt(s, x) {
        if x % MINUTE == 0 {
          assert FirstCandidate(t) <= x / MINUTE;
        }
      }
  }

  /** `first_fire_at` yields the least fire instant at or after `t`. */
  lemma FirstFireAtIsLeast(s: Schedule, t: int)
    ensures match FirstFireAt(s, t)
      case Some(u) => t <= u && FiresAt(s, u) && forall x :: t <= x < u ==> !FiresAt(s, x)
      case None => forall x :: t <= x && x / MINUTE < FirstCandidate(t) + WINDOW ==> !FiresAt(s, x)
  {
    NextAfterIsLeast(s, t);
  }

  function FiresOf(s: Schedule): int -> bool { x => FiresAt(s, x) }

  /** `fs` lists every instant of `fires` from `t` up to its last element, once, in order. */
  ghost predicate Lists(fires: int -> bool, t: int, fs: seq<int>) {
    && (forall i, j :: 0 <= i < j < |fs| ==> fs[i] < fs[j])
    && (forall i :: 0 <= i < |fs| ==> t <= fs[i] && fires(fs[i]))
    && (fs != [] ==> forall x :: t <= x <= fs[|fs| - 1] && fires(x) ==> x in fs)
  }

  /** The search from `t`, inclusive or strict, gives the least fire instant. */
  ghost predicate Least(fires: int -> bool, from: int, r: Option<int>) {
    r.Some? ==> from <= r.value && fires(r.value) && forall x :: from <= x < r.value ==> !fires(x)
  }

  lemma ExtendsList(fires: int -> bool, t: int, before: seq<int>, r: Option<int>)
    requires Lists(fires, t, before) && r.Some?
    requires Least(fires, if before == [] then t else before[|before| - 1] + 1, r)
    ensures Lists(fires, t, before + [r.value])
  {
    var fs := before + [r.value];
    forall x | t <= x <= r.value && fires(x) ensures x in fs {
      if before != [] && x <= before[|before| - 1] {
        assert x in before;
      } else {
        assert fs[|before|] == r.value;
      }
    }
  }

  /** The next element of the iteration, given the elements before it. */
  function NextOf(s: Schedule, t: int, before: seq<int>): Option<int> {
    if before == [] then FirstFireAt(s, t) else NextAfter(s, before[|before| - 1])
  }

  lemma NextOfIsLeast(s: Schedule, t: int, before: seq<int>)
    ensures Least(FiresOf(s), if before == [] then t else before[|before| - 1] + 1, NextOf(s, t, before))
  {
    if before == [] {
      FirstFireAtIsLeast(s, t);
    } else {
      NextAfterIsLeast(s, before[|before| - 1]);
    }
  }

  /** The first `n` results of `next`, each from those before it, until there is none. */
  function Iterate(next: seq<int> -> Option<int>, n: nat): (fs: seq<int>)
    ensures |fs| <= n
  {
    if n == 0 then []
    else
      var before := Iterate(next, n - 1);
      if |before| < n - 1 || next(before).None? then before else before + [next(before).value]
  }

  lemma {:induction false} IterateLists(fires: int -> bool, t: int, next: seq<int> -> Option<int>, n: nat)
    requires forall before ::
      Least(fires, if before == [] then t else before[|before| - 1] + 1, next(before))
    ensures Lists(fires, t, Iterate(next, n))
    ensures |Iterate(next, n)| < n ==> next(Iterate(next, n)).None?
  {
    if n > 0 {
      IterateLists(fires, t, next, n - 1);
      var before := Iterate(next, n - 1);
      if |before| == n - 1 && next(before).Some? {
        ExtendsList(fires, t, before, next(before));
      }
    }
  }

  /** The first `n` fire instants from `t`, by iterating the search until it raises. */
  function Fires(s: Schedule, t: int, n: nat): (fs: seq<int>)
    ensures |fs| <= n
  {
    Iterate(before => NextOf(s, t, before), n)
  }

  /** The iteration lists every fire instant from `t` on with no gap and no repeat,
      and stops early only where the search raises. */
  lemma FiresEnumerate(s: Schedule, t: int, n: nat)
    ensures Lists(FiresOf(s), t, Fires(s, t, n))
    ensures |Fires(s, t, n)| < n ==> NextOf(s, t, Fires(s, t, n)).None?
  {
    forall before ensures Least(FiresOf(s), if before == [] then t else before[|before| - 1] + 1, NextOf(s, t, before)) {
      NextOfIsLeast(s, t, before);
    }
    IterateLists(FiresOf(s), t, before => NextOf(s, t, before), n);
  }

  // ------------------------------------------------- the search and the rule

  /** `r` is the first instant after `t` at which the rule holds; none, only if it holds
      nowhere in the next 732 days. */
  ghost predicate FirstByRule(s: Schedule, t: int, r: Option<int>) {
    match r
    case Some(u) => t < u && Due(s, u) && forall x :: t < x < u ==> !Due(s, x)
    case None => forall x :: t < x <= t + 732 * 86_400_000_000 ==> !Due(s, x)
  }

  lemma SearchKeepsRule(s: Schedule, t: int)
    ensures Valid(s) ==> FirstByRule(s, t, NextAfter(s, t))
  {
    if Valid(s) {
      NextAfterByRule(s, t);
    }
  }

  /** `next_after(t)` is the first instant after `t` at which the rule holds; where it
      raises, the rule holds nowhere in the next 732 days. */
  lemma NextAfterByRule(s: Schedule, t: int)
    requires Valid(s)
    ensures FirstByRule(s, t, NextAfter(s, t))
  {
    NextAfterIsLeast(s, t);
    match NextAfter(s, t)
    case Some(u) =>
      FiresIffDue(s, u);
      forall x | t < x < u ensures !Due(s, x) {
        FiresIffDue(s, x);
      }
    case None =>
      forall x | t < x <= t + 732 * 86_400_000_000 ensures !Due(s, x) {
        WindowReaches(t, x);
        FiresIffDue(s, x);
      }
  }

  lemma WindowReaches(t: int, x: int)
    requires x <= t + 732 * 86_400_000_000
    ensures x / MINUTE < FirstCandidate(t) + WINDOW
  {
  }

  /** `first_fire_at(t)` is the first instant from `t` on at which the rule holds. */
  lemma FirstFireAtByRule(s: Schedule, t: int)
    requires Valid(s)
    ensures match FirstFireAt(s, t)
      case Some(u) => t <= u && Due(s, u) && forall x :: t <= x < u ==> !Due(s, x)
      case None => forall x :: t <= x <= t + 732 * 86_400_000_000 ==> !Due(s, x)
  {
    FirstFireAtIsLeast(s, t);
    FiresIffDue(s, t);
    match FirstFireAt(s, t)
    case Some(u) =>
      FiresIffDue(s, u);
      forall x | t <= x < u ensures !Due(s, x) {
        FiresIffDue(s, x);
      }
    case None => NextAfterByRule(s, t);
  }

  ghost function DueOf(s: Schedule): int -> bool { x => Due(s, x) }

  /** Iterating the search lists every instant at which the rule holds, from `t` on. */
  lemma FiresByRuleEnumerate(s: Schedule, t: int, n: nat)
    requires Valid(s)
    ensures Lists(DueOf(s), t, Fires(s, t, n))
    ensures |Fires(s, t, n)| < n ==> NextOf(s, t, Fires(s, t, n)).None?
  {
    FiresEnumerate(s, t, n);
    forall x ensures FiresOf(s)(x) == DueOf(s)(x) {
      FiresIffDue(s, x);
    }
    SameLists(FiresOf(s), DueOf(s), t, Fires(s, t, n));
  }

  lemma SameLists(f: int -> bool, g: int -> bool, t: int, fs: seq<int>)
    requires Lists(f, t, fs) && forall x :: f(x) == g(x)
    ensures Lists(g, t, fs)
  {
  }

  // --------------------------------------------------------------- totality

  /** Some (month, day) pair of the two parsed sets is a date of every year. */
  ghost predicate HasOrdinaryDate(s: Schedule) {
    exists m, d :: m in s.month.values && d in s.dayOfMonth.values && IsOrdinary(m, d)
  }

  predicate IsOrdinary(m: int, d: int) { d <= DaysInMonth(1, m) }

  predicate HasLeapDay(s: Schedule) { 2 in s.month.values && 29 in s.dayOfMonth.values }

  /** Only the day of the month decides the day. */
  predicate ByDayOfMonth(s: Schedule) { s.dayOfWeek.any && !s.dayOfMonth.any }

  /** The first whole calendar year after day `n` ends within 731 days. */
  lemma WholeYearAhead(n: int) returns (y: int)
    ensures n <= DaysBeforeYear(y) && DaysBeforeYear(y) + DaysInYear(y) <= n + 731
  {
    var d := DateOf(n);
    y := d.year + 1;
    DayFitsYear(d);
    YearLength(d.year);
    NoTwoLeapYears(d.year);
  }

  lemma NoTwoLeapYears(year: int)
    ensures DaysInYear(year) + DaysInYear(year + 1) <= 731
  {
    if year % 4 == 0 {
      assert (year + 1) % 4 == 1;
    }
  }

  /** Each weekday falls on one of the first seven days of any month. */
  lemma WeekdayInMonth(y: int, m: int, w: int) returns (d: int)
    requires 1 <= m <= 12 && 0 <= w <= 6
    ensures 1 <= d <= 7 && CronWeekday(Ordinal(Date(y, m, d))) == w
  {
    var n := Ordinal(Date(y, m, 0));
    d := (w - n - 1) % 7 + 1;
    assert Ordinal(Date(y, m, d)) == n + d;
    CronWeekdayOf(n + d);
    WeekdayReached(n, w, d);
  }

  lemma WeekdayReached(n: int, w: int, d: int)
    requires 0 <= w <= 6 && d == (w - n - 1) % 7 + 1
    ensures (n + d) % 7 == w
  {
    var q := (w - n - 1) / 7;
    assert n + d == w - 7 * q;
  }

  lemma Pick<T>(values: set<T>) returns (v: T)
    requires values != {}
    ensures v in values
  {
    v :| v in values;
  }

  /** A matching day yields a matching minute inside it. */
  lemma MinuteInDay(s: Schedule, n: int) returns (k: int)
    requires Valid(s) && DayMatches(s, n)
    ensures Matches(s, k) && (n - 1) * DAY <= k < n * DAY
  {
    var mi := Pick(s.minute.values);
    var h := Pick(s.hour.values);
    k := MinuteAt(n, h, mi);
  }

  lemma MinuteAt(n: int, h: int, mi: int) returns (k: int)
    requires 0 <= h < 24 && 0 <= mi < 60
    ensures k % 60 == mi && k / 60 % 24 == h && DayOf(k) == n && (n - 1) * DAY <= k < n * DAY
  {
    k := (n - 1) * DAY + 60 * h + mi;
    assert k / 60 == (n - 1) * 24 + h;
  }

  /** Days wholly after the day of `t`, up to the 731st, lie inside the window. */
  lemma DayInWindow(t: int, n: int, k: int)
    requires DayOf(FirstCandidate(t)) < n <= DayOf(FirstCandidate(t)) + 731
    requires (n - 1) * DAY <= k < n * DAY
    ensures FirstCandidate(t) <= k < FirstCandidate(t) + WINDOW
  {
  }

  /** Every year holds a day the schedule matches. */
  lemma MatchingDayInYear(s: Schedule, y: int) returns (d: Date)
    requires Valid(s) && (ByDayOfMonth(s) ==> HasOrdinaryDate(s))
    ensures d.year == y && ValidDate(d) && DayMatches(s, Ordinal(d))
  {
    if ByDayOfMonth(s) {
      var m, day :| m in s.month.values && day in s.dayOfMonth.values && IsOrdinary(m, day);
      d := Date(y, m, day);
    } else {
      var m := Pick(s.month.values);
      var w := Pick(s.dayOfWeek.values);
      var day := WeekdayInMonth(y, m, w);
      d := Date(y, m, day);
    }
    DateOfOrdinal(d);
  }

  lemma SearchSucceeds(s: Schedule, t: int)
    requires Valid(s) && (ByDayOfMonth(s) ==> HasOrdinaryDate(s))
    ensures NextAfter(s, t).Some?
  {
    var n := DayOf(FirstCandidate(t));
    var y := WholeYearAhead(n);
    var d := MatchingDayInYear(s, y);
    DayFitsYear(d);
    var k := MinuteInDay(s, Ordinal(d));
    DayInWindow(t, Ordinal(d), k);
  }

  /** Without an ordinary date, only 29 February can match. */
  lemma OnlyLeapDay(s: Schedule, n: int)
    requires Valid(s) && ByDayOfMonth(s) && !HasOrdinaryDate(s) && DayMatches(s, n)
    ensures HasLeapDay(s) && DateOf(n).month == 2 && DateOf(n).day == 29 && IsLeap(DateOf(n).year)
  {
    var d := DateOf(n);
    assert !IsOrdinary(d.month, d.day);
  }

  const MARCH_2000: int := 730_180  // day number of 1 March 2000

  lemma SearchFailsAfterLeapDay(s: Schedule)
    requires Valid(s) && ByDayOfMonth(s) && !HasOrdinaryDate(s)
    ensures NextAfter(s, (MARCH_2000 - 1) * DAY * MINUTE).None?
  {
    var t := (MARCH_2000 - 1) * DAY * MINUTE;
    var r := NextMinute(s, t);
    if r.Some? {
      var n := DayOf(r.value);
      assert MARCH_2000 <= n <= MARCH_2000 + 732;
      var d := DateOf(n);
      OnlyLeapDay(s, n);
      DayFitsYear(d);
      YearsAround2000(d);
      assert false;
    }
  }

  /** The two years from March 2000 hold no leap day. */
  lemma YearsAround2000(d: Date)
    requires ValidDate(d) && d.month == 2 && d.day == 29 && IsLeap(d.year)
    ensures !(MARCH_2000 <= Ordinal(d) <= MARCH_2000 + 732)
  {
    DayFitsYear(d);
    assert DaysBeforeYear(2000) == 730_119 && DaysBeforeYear(2004) == 731_580;
    if d.year < 2000 {
      YearsGrow(d.year, 2000);
    } else if d.year == 2000 {
      assert DaysBeforeMonth(2000, 2) == 31;
    } else {
      assert d.year >= 2004;
      if d.year > 2004 {
        YearsGrow(2004, d.year);
      }
    }
  }

  /** The search succeeds from every instant exactly when the day is not left to the
      day of the month alone, or the two parsed sets hold a date of ordinary years. */
  lemma SearchTotalIff(s: Schedule)
    requires Valid(s)
    ensures (forall t :: NextAfter(s, t).Some?) <==> (ByDayOfMonth(s) ==> HasOrdinaryDate(s))
  {
    if ByDayOfMonth(s) && !HasOrdinaryDate(s) {
      SearchFailsAfterLeapDay(s);
    } else {
      forall t ensures NextAfter(s, t).Some? {
        SearchSucceeds(s, t);
      }
    }
  }

  lemma LeapDayFires(s: Schedule)
    requires Valid(s) && ByDayOfMonth(s) && HasLeapDay(s)
    ensures exists t :: NextAfter(s, t).Some?
  {
    var d := Date(2000, 2, 29);
    DateOfOrdinal(d);
    var k := MinuteInDay(s, Ordinal(d));
    BeforeMinute(s, k);
  }

  lemma BeforeMinute(s: Schedule, k: int)
    requires Matches(s, k)
    ensures NextAfter(s, (k - 1) * MINUTE).Some?
  {
    assert FirstCandidate((k - 1) * MINUTE) == k;
  }

  lemma NothingFires(s: Schedule, t: int)
    requires Valid(s) && ByDayOfMonth(s) && !HasOrdinaryDate(s) && !HasLeapDay(s)
    ensures NextAfter(s, t).None?
  {
    var r := NextMinute(s, t);
    if r.Some? {
      OnlyLeapDay(s, DayOf(r.value));
    }
  }

  /** The search fails from every instant exactly when, besides, 29 February is
      not among the dates either. */
  lemma SearchNeverIff(s: Schedule)
    requires Valid(s)
    ensures (forall t :: NextAfter(s, t).None?) <==> (ByDayOfMonth(s) && !HasOrdinaryDate(s) && !HasLeapDay(s))
  {
    if ByDayOfMonth(s) && !HasOrdinaryDate(s) {
      if HasLeapDay(s) {
        LeapDayFires(s);
      } else {
        forall t ensures NextAfter(s, t).None? {
          NothingFires(s, t);
        }
      }
    } else {
      SearchSucceeds(s, 0);
    }
  }
}
