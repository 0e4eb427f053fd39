/** The two kinds of schedule source: fixed intervals and cron expressions. */
module Timetables {
  import opened Wrappers
  import opened Schedule
  import Runs = ScheduleRuns
  import Backlog = ScheduleBacklog
  import Retries = ScheduleRetries
  import Raises = ScheduleRaises
  import Cron = CronSearch
  import Meaning = CronMeaning
  import opened Gregorian

  function Every(step: int, overlap: Overlap, maxQueued: nat, immediate: bool): Config {
    Config(now => Some(now + step), at => Some(at + step), overlap, maxQueued, immediate)
  }

  function OnCron(s: Cron.Schedule, overlap: Overlap, maxQueued: nat, immediate: bool): Config {
    Config(now => Cron.FirstFireAt(s, now), at => Cron.NextAfter(s, at), overlap, maxQueued, immediate)
  }

  lemma EveryIsValid(step: int, overlap: Overlap, maxQueued: nat, immediate: bool)
    requires step > 0 && maxQueued >= 1
    ensures ValidConfig(Every(step, overlap, maxQueued, immediate))
  {
  }

  lemma OnCronIsValid(s: Cron.Schedule, overlap: Overlap, maxQueued: nat, immediate: bool)
    requires maxQueued >= 1
    ensures ValidConfig(OnCron(s, overlap, maxQueued, immediate))
  {
    var c := OnCron(s, overlap, maxQueued, immediate);
    forall at | c.next(at).Some? ensures at < c.next(at).value {
      Cron.NextAfterIsLeast(s, at);
    }
  }

  /** The run begins with the opening, and has no resume. */
  predicate OpensOnce(es: seq<Runs.Event>, at: int) {
    es != [] && es[0] == Runs.Opening(at) && forall e <- es :: !e.ResumeFromPause?
  }

  /** The first `n` times, `step` apart. */
  function Steps(first: int, step: int, n: nat): (xs: seq<int>)
    ensures |xs| == n
  {
    seq(n, i requires 0 <= i < n => first + i * step)
  }

  /** A source with an interval, opened at `at`, collects the times one interval after
      another, from one interval after its opening on. */
  lemma EveryTimes(step: int, overlap: Overlap, maxQueued: nat, immediate: bool, at: int, es: seq<Runs.Event>)
    requires step > 0 && maxQueued >= 1 && OpensOnce(es, at)
    ensures var w := Runs.After(Every(step, overlap, maxQueued, immediate), es);
      w.Some? ==> w.value.collected == Steps(at + step, step, |w.value.collected|)
  {
    var c := Every(step, overlap, maxQueued, immediate);
    if Runs.After(c, es).Some? {
      EveryIsValid(step, overlap, maxQueued, immediate);
      ChainFromOpening(c, es, at);
      EveryIsEvenly(step, overlap, maxQueued, immediate, Runs.After(c, es).value.collected, at);
    }
  }

  lemma EveryIsEvenly(step: int, overlap: Overlap, maxQueued: nat, immediate: bool, xs: seq<int>, at: int)
    requires var c := Every(step, overlap, maxQueued, immediate);
      Backlog.Chain(c.next, xs) && (xs != [] ==> Some(xs[0]) == c.first(at))
    ensures xs == Steps(at + step, step, |xs|)
  {
    ChainIsEvenly(Every(step, overlap, maxQueued, immediate), xs, at + step, step);
  }

  lemma ChainFromOpening(c: Config, es: seq<Runs.Event>, at: int)
    requires ValidConfig(c) && c.first(at).Some? && OpensOnce(es, at) && Runs.After(c, es).Some?
    ensures var xs := Runs.After(c, es).value.collected; Backlog.Chain(c.next, xs) && (xs != [] ==> Some(xs[0]) == c.first(at))
  {
    StaysOpened(c, at, es);
    Backlog.AlwaysFollows(c, es);
  }

  lemma ChainIsEvenly(c: Config, xs: seq<int>, first: int, step: int)
    requires (forall x :: c.next(x) == Some(x + step)) && Backlog.Chain(c.next, xs) && (xs != [] ==> xs[0] == first)
    ensures xs == Steps(first, step, |xs|)
  {
    forall i | 0 <= i < |xs| ensures xs[i] == first + i * step {
      SpacedBy(c, step, xs, i);
    }
  }

  lemma StaysOpened(c: Config, at: int, es: seq<Runs.Event>)
    requires c.first(at).Some? && OpensOnce(es, at) && Runs.After(c, es).Some?
    ensures Runs.After(c, es).value.start == c.first(at)
  {
    var first, rest := [Runs.Opening(at)], es[1..];
    assert first + rest == es && first[..0] == [] && Runs.After(c, []) == Some(Runs.Start(c));
    var inv := (w: Runs.World) => w.s.initialized && w.start == c.first(at);
    var allowed := (w: Runs.World, e: Runs.Event) => !e.ResumeFromPause?;
    assert inv(Runs.After(c, first).value);
    forall w, e | inv(w) && Runs.Enabled(w, e) && allowed(w, e) ensures inv(Runs.Step(c, w, e)) {
      KeepsStart(c, w, e);
    }
    assert Runs.AllowedBy(c, first, rest, allowed);
    Runs.RunKeepsFrom(c, inv, first, rest, allowed);
  }

  lemma KeepsStart(c: Config, w: Runs.World, e: Runs.Event)
    requires w.s.initialized && Runs.Enabled(w, e) && !e.ResumeFromPause?
    ensures Runs.Step(c, w, e).start == w.start && Runs.Step(c, w, e).s.initialized
  {
    if e.Fetching? {
      Runs.FetchingState(c, w, e.openedAt, e.now, e.limit);
      Retries.FetchOpens(c, w.s, e.openedAt, e.now, e.limit);
    }
  }

  lemma {:induction false} SpacedBy(c: Config, step: int, xs: seq<int>, i: nat)
    requires (forall at :: c.next(at) == Some(at + step)) && Backlog.Chain(c.next, xs) && i < |xs|
    ensures xs[i] == xs[0] + i * step
  {
    if i > 0 {
      SpacedBy(c, step, xs, i - 1);
      assert c.next(xs[i - 1]) == Some(xs[i]);
      assert (i - 1) * step + step == i * step;
    }
  }

  /** The day of an instant. */
  function DayOfInstant(x: int): int { Cron.DayOf(x / Cron.MINUTE) }

  /** No later fire on the same day. */
  ghost predicate LastOfDay(s: Cron.Schedule, x: int) {
    forall y :: x < y && DayOfInstant(y) == DayOfInstant(x) ==> !Cron.FiresAt(s, y)
  }

  /** The last fire of a leap day has no successor in the search window when only
      leap days match. */
  lemma LeapDayHasNoSuccessor(s: Cron.Schedule, x: int)
    requires Cron.Valid(s) && Cron.ByDayOfMonth(s) && !Cron.HasOrdinaryDate(s) && Cron.FiresAt(s, x)
    requires LastOfDay(s, x)
    ensures Cron.NextAfter(s, x).None?
  {
    var r := Cron.NextMinute(s, x);
    if r.Some? {
      var n, n' := DayOfInstant(x), Cron.DayOf(r.value);
      Cron.OnlyLeapDay(s, n);
      Cron.OnlyLeapDay(s, n');
      var y := r.value * Cron.MINUTE;
      assert y / Cron.MINUTE == r.value && Cron.FiresAt(s, y) && x < y;
      assert n < n' <= n + 733;
      LeapDaysApart(DateOf(n), DateOf(n'));
      assert false;
    }
  }

  lemma LeapYearsApart(a: int, b: int)
    requires IsLeap(a) && IsLeap(b) && a < b
    ensures a + 4 <= b
  {
    assert a % 4 == 0 && b % 4 == 0;
  }

  lemma LeapDaysApart(a: Date, b: Date)
    requires ValidDate(a) && ValidDate(b) && a.month == b.month == 2 && a.day == b.day == 29
    requires IsLeap(a.year) && IsLeap(b.year) && Ordinal(a) < Ordinal(b)
    ensures Ordinal(b) >= Ordinal(a) + 1461
  {
    assert DaysBeforeMonth(a.year, 2) == 31 && DaysBeforeMonth(b.year, 2) == 31;
    if b.year < a.year {
      YearsGrow(b.year, a.year);
    }
    LeapYearsApart(a.year, b.year);
    FourYears(a.year);
    if b.year > a.year + 4 {
      YearsGrow(a.year + 4, b.year);
    }
  }

  lemma LeapIsFourth(y: int)
    requires y % 4 == 0
    ensures !IsLeap(y + 1) && !IsLeap(y + 2) && !IsLeap(y + 3)
  {
    assert (y + 1) % 4 == 1;
    assert (y + 2) % 4 == 2;
    assert (y + 3) % 4 == 3;
  }

  lemma FourYears(y: int)
    requires IsLeap(y)
    ensures DaysBeforeYear(y + 4) == DaysBeforeYear(y) + 1461
  {
    LeapIsFourth(y);
    var lengths := [DaysBeforeYear(y), DaysBeforeYear(y + 1), DaysBeforeYear(y + 2), DaysBeforeYear(y + 3)];
    assert lengths[1] == lengths[0] + 366 by { YearLength(y); }
    assert lengths[2] == lengths[1] + 365 by { YearLength(y + 1); }
    assert lengths[3] == lengths[2] + 365 by { YearLength(y + 2); }
    assert DaysBeforeYear(y + 4) == lengths[3] + 365 by { YearLength(y + 3); }
  }

  lemma SameDayInWindow(x: int, y: int)
    requires x < y && DayOfInstant(y) == DayOfInstant(x)
    ensures y / Cron.MINUTE < Cron.FirstCandidate(x) + Cron.WINDOW
  {
  }

  /** A fire has no successor in the search window if and only if only leap days match and
      it is the last one of its day. */
  lemma NoSuccessorIff(s: Cron.Schedule, x: int)
    requires Cron.Valid(s) && Cron.FiresAt(s, x)
    ensures Cron.NextAfter(s, x).None? <==> Cron.ByDayOfMonth(s) && !Cron.HasOrdinaryDate(s) && LastOfDay(s, x)
  {
    if Cron.NextAfter(s, x).None? {
      Cron.SearchTotalIff(s);
      Cron.NextAfterIsLeast(s, x);
      forall y | x < y && DayOfInstant(y) == DayOfInstant(x) ensures !Cron.FiresAt(s, y) {
        SameDayInWindow(x, y);
      }
    } else if Cron.ByDayOfMonth(s) && !Cron.HasOrdinaryDate(s) && LastOfDay(s, x) {
      LeapDayHasNoSuccessor(s, x);
    }
  }

  /** So a cron source delivers a fire time as a scheduled run in no run at all, if and
      only if only leap days match and it is the last fire of its day: keeping it needs its
      successor, and that search raises. */
  lemma CronRunLostIff(s: Cron.Schedule, overlap: Overlap, maxQueued: nat, immediate: bool, x: int)
    requires Cron.Valid(s) && Cron.FiresAt(s, x) && maxQueued >= 1
    ensures var c := OnCron(s, overlap, maxQueued, immediate);
      Raises.NeverDelivered(c, x) <==> Cron.ByDayOfMonth(s) && !Cron.HasOrdinaryDate(s) && LastOfDay(s, x)
  {
    NoSuccessorIff(s, x);
    OnCronIsValid(s, overlap, maxQueued, immediate);
    Raises.LostIff(OnCron(s, overlap, maxQueued, immediate), x);
  }

  /** Midnight of 29 February, and nothing else. */
  ghost predicate FiresOnLeapDays(s: Cron.Schedule) {
    && Cron.ByDayOfMonth(s) && s.minute.values == s.hour.values == {0}
    && s.month.values == {2} && s.dayOfMonth.values == {29}
  }

  lemma SameMidnight(j: int, k: int)
    requires j % 60 == 0 && j / 60 % 24 == 0 && k % Cron.DAY == 0 && Cron.DayOf(j) == Cron.DayOf(k)
    ensures j == k
  {
  }

  lemma Midnight(k: int)
    requires k % Cron.DAY == 0
    ensures k % 60 == 0 && k / 60 % 24 == 0
  {
  }

  lemma MidnightFires(s: Cron.Schedule, k: int, d: Date)
    requires FiresOnLeapDays(s) && k % Cron.DAY == 0
    requires DateOf(Cron.DayOf(k)) == d && d.month == 2 && d.day == 29
    ensures Cron.Matches(s, k)
  {
    Midnight(k);
    assert Cron.DayMatches(s, Cron.DayOf(k));
  }

  lemma MidnightIsLast(s: Cron.Schedule, k: int, y: int)
    requires FiresOnLeapDays(s)
    requires k * Cron.MINUTE < y && k % Cron.DAY == 0 && DayOfInstant(y) == Cron.DayOf(k)
    ensures !Cron.FiresAt(s, y)
  {
    if Cron.FiresAt(s, y) {
      SameMidnight(y / Cron.MINUTE, k);
    }
  }

  lemma MidnightOf29February(s: Cron.Schedule, k: int, d: Date)
    requires FiresOnLeapDays(s)
    requires d.month == 2 && d.day == 29 && IsLeap(d.year) && k == (Ordinal(d) - 1) * Cron.DAY
    ensures Cron.FiresAt(s, k * Cron.MINUTE) && LastOfDay(s, k * Cron.MINUTE)
  {
    var x := k * Cron.MINUTE;
    assert x / Cron.MINUTE == k && x % Cron.MINUTE == 0 && Cron.DayOf(k) == Ordinal(d);
    DateOfOrdinal(d);
    MidnightFires(s, k, d);
    forall y | x < y && DayOfInstant(y) == DayOfInstant(x) ensures !Cron.FiresAt(s, y) {
      MidnightIsLast(s, k, y);
    }
  }

  /** A source on `0 0 29 2 *` loses midnight of every 29 February. */
  lemma LeapDayRunLost(s: Cron.Schedule, d: Date, overlap: Overlap, maxQueued: nat, immediate: bool)
    requires Cron.ParseSchedule("0 0 29 2 *") == Some(s) && maxQueued >= 1
    requires d.month == 2 && d.day == 29 && IsLeap(d.year)
    ensures var x := (Ordinal(d) - 1) * Cron.DAY * Cron.MINUTE;
      Cron.FiresAt(s, x) && Raises.NeverDelivered(OnCron(s, overlap, maxQueued, immediate), x)
  {
    Meaning.LeapDayAccepted();
    var k := (Ordinal(d) - 1) * Cron.DAY;
    MidnightOf29February(s, k, d);
    CronRunLostIff(s, overlap, maxQueued, immediate, k * Cron.MINUTE);
  }
}
