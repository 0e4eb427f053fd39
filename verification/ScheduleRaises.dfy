/** Fetches whose search for a successor raises: when they do, and what is lost. */
module ScheduleRaises {
  import opened Wrappers
  import opened Schedule
  import opened ScheduleRuns
  import opened ScheduleBacklog

  // --------------------------------------------------------------- when

  /** The `n`-th fire time from `at` on. */
  function Nth(next: int -> Option<int>, at: int, n: nat): Option<int>
    decreases n
  {
    if n == 0 then Some(at)
    else
      match next(at)
      case None => None
      case Some(successor) => Nth(next, successor, n - 1)
  }

  /** Among the first `max` fire times from `at` on, one that is due has no successor. */
  ghost predicate Breaks(next: int -> Option<int>, at: int, now: int, max: nat) {
    exists n: nat :: n < max && DeadEnd(next, Nth(next, at, n), now)
  }

  predicate DeadEnd(next: int -> Option<int>, t: Option<int>, now: int) {
    t.Some? && t.value <= now && next(t.value).None?
  }

  lemma {:induction false} NthIsLater(c: Config, at: int, n: nat)
    requires ValidConfig(c) && Nth(c.next, at, n).Some?
    ensures at <= Nth(c.next, at, n).value
    decreases n
  {
    if n > 0 {
      NthIsLater(c, c.next(at).value, n - 1);
    }
  }

  /** A collection raises exactly if the due chain reaches a run without a successor
      within the limit. */
  lemma {:induction false} CollectRaisesIff(c: Config, at: int, now: int, max: nat)
    requires ValidConfig(c)
    ensures Collect(c.next, at, now, max).raised <==> Breaks(c.next, at, now, max)
    decreases max
  {
    var next := c.next;
    if at > now || max == 0 {
      forall n: nat | n < max ensures !DeadEnd(next, Nth(next, at, n), now) {
        if Nth(next, at, n).Some? {
          NthIsLater(c, at, n);
        }
      }
    } else if next(at).None? {
      assert DeadEnd(next, Nth(next, at, 0), now);
    } else {
      var successor := next(at).value;
      CollectRaisesIff(c, successor, now, max - 1);
      forall n: nat ensures Nth(next, at, n + 1) == Nth(next, successor, n) {}
      if Breaks(next, at, now, max) {
        var n: nat :| n < max && DeadEnd(next, Nth(next, at, n), now);
        assert n > 0 && DeadEnd(next, Nth(next, successor, n - 1), now);
      }
      if Breaks(next, successor, now, max - 1) {
        var n: nat :| n < max - 1 && DeadEnd(next, Nth(next, successor, n), now);
        assert DeadEnd(next, Nth(next, at, n + 1), now);
      }
    }
  }

  /** Does the fetch get as far as collecting due runs? */
  predicate Collects(c: Config, s: State, now: int, limit: nat) {
    && ReadyCount(s.retries, now, limit) == 0
    && !(s.pendingImmediate && (c.overlap == Allow || s.inflight == 0))
    && !(c.overlap == Queue && s.inflight == 0 && s.queued != [])
    && s.nextFireAt.Some?
  }

  lemma ScheduledRaisesIff(c: Config, s: State, now: int, limit: nat)
    requires ValidConfig(c)
    ensures FetchScheduled(c, s, now, limit).1.Raised?
      <==> !(c.overlap == Queue && s.inflight == 0 && s.queued != []) && s.nextFireAt.Some?
           && Breaks(c.next, s.nextFireAt.value, now, MAX_DUE)
  {
    if s.nextFireAt.Some? {
      CollectRaisesIff(c, s.nextFireAt.value, now, MAX_DUE);
    }
  }

  /** An immediate run is only put off where the source is busy and does not allow overlap. */
  lemma ImmediateRaisesIff(c: Config, s: State, now: int, limit: nat)
    requires ValidConfig(c) && limit >= 1 && s.pendingImmediate && ReadyCount(s.retries, now, limit) == 0
    ensures FetchOpened(c, s, now, limit).1.Raised?
      <==> Collects(c, s, now, limit) && Breaks(c.next, s.nextFireAt.value, now, MAX_DUE)
  {
    var s' := HandleDue(c, s.(pendingImmediate := false), [now], limit);
    assert Started(c, s, [now], limit) == [] <==> c.overlap != Allow && s.inflight > 0;
    if Started(c, s, [now], limit) == [] {
      ScheduledRaisesIff(c, s', now, limit);
    }
  }

  lemma OpenedRaisesIff(c: Config, s: State, now: int, limit: nat)
    requires ValidConfig(c) && limit >= 1
    ensures FetchOpened(c, s, now, limit).1.Raised?
      <==> Collects(c, s, now, limit) && Breaks(c.next, s.nextFireAt.value, now, MAX_DUE)
  {
    if ReadyCount(s.retries, now, limit) == 0 {
      if s.pendingImmediate {
        ImmediateRaisesIff(c, s, now, limit);
      } else {
        ScheduledRaisesIff(c, s, now, limit);
      }
    }
  }

  /** A fetch raises exactly if the cursor cannot be set at all, or if it comes to collect
      due runs and the chain of them reaches, within 1000 runs, one without a successor. */
  lemma FetchRaisesIff(c: Config, s: State, openedAt: int, now: int, limit: int)
    requires ValidConfig(c)
    ensures var (s1, ok) := Open(c, s, openedAt);
      var m := if limit < 1 then 1 else limit;
      var breaks := Collects(c, s1, now, m) && Breaks(c.next, s1.nextFireAt.value, now, MAX_DUE);
      Fetch(c, s, openedAt, now, limit).1.Raised? <==> !ok || breaks
  {
    var (s1, ok) := Open(c, s, openedAt);
    OpenedRaisesIff(c, s1, now, if limit < 1 then 1 else limit);
  }

  // ------------------------------------------------------------ what is lost

  /** The cursor stands on a run without a successor. */
  ghost predicate Stalled(c: Config, w: World) {
    w.s.initialized && w.s.nextFireAt.Some? && c.next(w.s.nextFireAt.value).None?
  }

  lemma StalledSchedule(c: Config, s: State, now: int, limit: nat)
    requires s.nextFireAt.Some? && c.next(s.nextFireAt.value).None?
    ensures var (s', outcome) := FetchScheduled(c, s, now, limit);
      s'.nextFireAt == s.nextFireAt && s'.initialized == s.initialized && (outcome.Due? ==> outcome.runs == [])
  {
  }

  lemma StalledFetch(c: Config, s: State, now: int, limit: nat)
    requires limit >= 1 && s.nextFireAt.Some? && c.next(s.nextFireAt.value).None?
    ensures var (s', outcome) := FetchOpened(c, s, now, limit);
      s'.nextFireAt == s.nextFireAt && s'.initialized == s.initialized && (outcome.Due? ==> outcome.runs == [])
  {
    if s.pendingImmediate {
      StalledSchedule(c, HandleDue(c, s.(pendingImmediate := false), [now], limit), now, limit);
    } else {
      StalledSchedule(c, s, now, limit);
    }
  }

  lemma StalledStep(c: Config, w: World, e: Event)
    requires Stalled(c, w) && Enabled(w, e) && !e.ResumeFromPause?
    ensures var w' := Step(c, w, e);
      Stalled(c, w') && w'.s.nextFireAt == w.s.nextFireAt && w'.collected == w.collected
  {
    if e.Fetching? {
      FetchingStep(c, w, e.openedAt, e.now, e.limit);
      StalledFetch(c, w.s, e.now, if e.limit < 1 then 1 else e.limit);
    }
  }

  /** Once the cursor stands on a run without a successor, nothing more is collected until
      a resume. */
  lemma NothingCollectedWhileStalled(c: Config, before: seq<Event>, after: seq<Event>)
    requires After(c, before).Some? && Stalled(c, After(c, before).value)
    requires After(c, before + after).Some? && forall e <- after :: !e.ResumeFromPause?
    ensures var w, w' := After(c, before).value, After(c, before + after).value;
      Stalled(c, w') && w'.s.nextFireAt == w.s.nextFireAt && w'.collected == w.collected
  {
    var w := After(c, before).value;
    var inv := (v: World) => Stalled(c, v) && v.s.nextFireAt == w.s.nextFireAt && v.collected == w.collected;
    var allowed := (v: World, e: Event) => !e.ResumeFromPause?;
    forall v, e | inv(v) && Enabled(v, e) && allowed(v, e) ensures inv(Step(c, v, e)) {
      StalledStep(c, v, e);
    }
    assert AllowedBy(c, before, after, allowed);
    RunKeepsFrom(c, inv, before, after, allowed);
  }

  /** A raising fetch leaves the cursor on the run without a successor and records
      nothing. */
  lemma RaiseStalls(c: Config, w: World, openedAt: int, now: int, limit: int)
    requires ValidConfig(c) && Open(c, w.s, openedAt).1 && Fetch(c, w.s, openedAt, now, limit).1.Raised?
    ensures var s1 := Open(c, w.s, openedAt).0;
      && s1.nextFireAt.Some?
      && var found := Collect(c.next, s1.nextFireAt.value, now, MAX_DUE);
         var w' := Step(c, w, Fetching(openedAt, now, limit));
         Stalled(c, w') && w'.s.nextFireAt == Some(found.cursor) && w'.collected == w.collected && found.raised
  {
    FetchRaisesIff(c, w.s, openedAt, now, limit);
    var s1 := Open(c, w.s, openedAt).0;
    CollectFinds(c, s1.nextFireAt.value, now, MAX_DUE);
    FetchingStep(c, w, openedAt, now, limit);
    RaisedState(c, s1, now, if limit < 1 then 1 else limit);
  }

  lemma RaisedState(c: Config, s: State, now: int, limit: nat)
    requires limit >= 1 && s.nextFireAt.Some? && FetchOpened(c, s, now, limit).1.Raised?
    ensures var found := Collect(c.next, s.nextFireAt.value, now, MAX_DUE);
      var s' := FetchOpened(c, s, now, limit).0;
      found.raised && s'.nextFireAt == Some(found.cursor) && s'.initialized == s.initialized
  {
  }

  lemma InRange(xs: seq<int>, x: int)
    requires Increasing(xs) && x in xs
    ensures xs[0] <= x <= Last(xs)
  {
    var i :| 0 <= i < |xs| && xs[i] == x;
  }

  /** The runs a raising fetch had found, and the one it stopped at, are delivered neither
      by it nor by anything that follows until a resume, those with a successor
      included. */
  lemma RaiseLosesRuns(c: Config, before: seq<Event>, e: Event, after: seq<Event>, x: int)
    requires ValidConfig(c) && After(c, before).Some? && e.Fetching? && forall e <- after :: !e.ResumeFromPause?
    requires Open(c, After(c, before).value.s, e.openedAt).1
    requires Fetch(c, After(c, before).value.s, e.openedAt, e.now, e.limit).1.Raised?
    requires FoundBy(c, After(c, before).value.s, e.openedAt, e.now, x)
    ensures var run := After(c, before + [e] + after); run.Some? ==> x !in run.value.delivered
  {
    var w := After(c, before).value;
    AlwaysFollows(c, before);
    AfterNext(c, before, e);
    RaiseStalls(c, w, e.openedAt, e.now, e.limit);
    FoundIsLater(c, w, e.openedAt, e.now, x);
    UncollectedStaysUndelivered(c, before + [e], after, x);
  }

  lemma AfterNext(c: Config, es: seq<Event>, e: Event)
    requires After(c, es).Some? && Enabled(After(c, es).value, e)
    ensures After(c, es + [e]) == Some(Step(c, After(c, es).value, e))
  {
    var all := es + [e];
    assert all[..|all| - 1] == es && all[|all| - 1] == e;
  }

  lemma UncollectedStaysUndelivered(c: Config, first: seq<Event>, after: seq<Event>, x: int)
    requires ValidConfig(c) && After(c, first).Some? && Stalled(c, After(c, first).value)
    requires x !in After(c, first).value.collected && forall e <- after :: !e.ResumeFromPause?
    ensures var run := After(c, first + after); run.Some? ==> x !in run.value.delivered
  {
    AlwaysFollows(c, first + after);
    if After(c, first + after).Some? {
      NothingCollectedWhileStalled(c, first, after);
    }
  }

  /** The runs a collection finds, with the one it stops at. */
  predicate FoundBy(c: Config, s: State, openedAt: int, now: int, x: int) {
    var at := Open(c, s, openedAt).0.nextFireAt;
    && at.Some?
    && var found := Collect(c.next, at.value, now, MAX_DUE);
       x in found.runs || x == found.cursor
  }

  lemma FoundIsLater(c: Config, w: World, openedAt: int, now: int, x: int)
    requires ValidConfig(c) && CursorFollows(c, w) && Open(c, w.s, openedAt).1 && FoundBy(c, w.s, openedAt, now, x)
    ensures x !in w.collected
  {
    var at := Open(c, w.s, openedAt).0.nextFireAt.value;
    var found := Collect(c.next, at, now, MAX_DUE);
    CollectFinds(c, at, now, MAX_DUE);
    ChainIncreases(c, found.runs);
    if x in found.runs {
      InRange(found.runs, x);
    }
    assert at <= x;
    ChainIncreases(c, w.collected);
    assert w.collected != [] ==> w.s.initialized && Last(w.collected) < at;
    if w.collected != [] {
      AllUpTo(w.collected);
    }
  }

  lemma AllUpTo(xs: seq<int>)
    requires Increasing(xs) && xs != []
    ensures forall x <- xs :: x <= Last(xs)
  {
    forall x | x in xs ensures x <= Last(xs) {
      InRange(xs, x);
    }
  }

  // -------------------------------------------------------- exactly which runs

  /** No run of the source delivers `at` as a scheduled run. */
  ghost predicate NeverDelivered(c: Config, at: int) {
    forall es :: After(c, es).Some? ==> at !in After(c, es).value.delivered
  }

  /** A time the source can start from is delivered in no run, if and only if it has no
      successor. */
  lemma LostIff(c: Config, at: int)
    requires ValidConfig(c) && c.first(at) == Some(at)
    ensures c.next(at).None? <==> NeverDelivered(c, at)
  {
    if c.next(at).None? {
      forall es | After(c, es).Some? ensures at !in After(c, es).value.delivered {
        RunWithoutSuccessorLost(c, es, at);
      }
    } else {
      var es := DeliveringRun(c, at);
    }
  }

  /** Resuming at `at` and fetching once delivers the run. */
  lemma DeliveringRun(c: Config, at: int) returns (es: seq<Event>)
    requires ValidConfig(c) && c.first(at) == Some(at) && c.next(at).Some?
    ensures After(c, es).Some? && at in After(c, es).value.delivered
  {
    var resume, fetch := ResumeFromPause(at), Fetching(at, at, 1);
    es := [resume, fetch];
    assert es[..1] == [resume] && [resume][..0] == [];
    assert After(c, []) == Some(Start(c));
    var w := Step(c, Start(c), resume);
    assert After(c, [resume]) == Some(w);
    CollectsItself(c, at);
    FetchingStep(c, w, at, at, 1);
    var (s', outcome) := FetchOpened(c, w.s, at, 1);
    assert outcome.Due? && outcome.started == Fresh([at], w.s.sequence);
    assert FreshTimes(outcome, 0) == [at];
  }

  lemma CollectsItself(c: Config, at: int)
    requires ValidConfig(c) && c.next(at).Some?
    ensures Collect(c.next, at, at, MAX_DUE) == Collected([at], c.next(at).value, false)
  {
    assert Collect(c.next, c.next(at).value, at, MAX_DUE - 1) == Collected([], c.next(at).value, false);
  }
}
