/** The run a source may start with, before any schedule. */
module ScheduleImmediate {
  import opened Wrappers
  import opened Schedule
  import opened ScheduleRuns

  /** Neither a resume nor a fetch that got past the opening. */
  predicate Passes(c: Config, w: World, e: Event) {
    match e
    case ResumeFromPause(_) => false
    case Fetching(openedAt, _, _) => !Open(c, w.s, openedAt).1
    case _ => true
  }

  /** Every event of the run passed over the immediate run. */
  ghost predicate Untouched(c: Config, es: seq<Event>)
    requires After(c, es).Some?
  {
    es == [] ||
    var n := |es| - 1;
    Untouched(c, es[..n]) && Passes(c, After(c, es[..n]).value, es[n])
  }

  /** A fetch past the opening spends the immediate run; so does a resume. */
  lemma StepPending(c: Config, w: World, e: Event)
    requires Conserved(w) && Enabled(w, e)
    ensures Step(c, w, e).s.pendingImmediate <==> w.s.pendingImmediate && Passes(c, w, e)
  {
    match e
    case Fetching(openedAt, now, limit) =>
      FetchingState(c, w, openedAt, now, limit);
      FetchPending(c, w.s, openedAt, now, limit);
    case _ =>
  }

  lemma FetchPending(c: Config, s: State, openedAt: int, now: int, limit: int)
    requires s.pendingImmediate ==> s.retries == []
    ensures Fetch(c, s, openedAt, now, limit).0.pendingImmediate <==> s.pendingImmediate && !Open(c, s, openedAt).1
  {
    if Open(c, s, openedAt).1 {
      FetchSpends(c, Open(c, s, openedAt).0, now, if limit < 1 then 1 else limit);
    }
  }

  lemma FetchSpends(c: Config, s: State, now: int, limit: nat)
    requires s.pendingImmediate ==> s.retries == []
    ensures !FetchOpened(c, s, now, limit).0.pendingImmediate
  {
    if s.pendingImmediate {
      ScheduledKeepsPending(c, HandleDue(c, s.(pendingImmediate := false), [now], limit), now, limit);
    } else {
      ScheduledKeepsPending(c, s, now, limit);
    }
  }

  lemma ScheduledKeepsPending(c: Config, s: State, now: int, limit: nat)
    ensures FetchScheduled(c, s, now, limit).0.pendingImmediate == s.pendingImmediate
  {
  }

  lemma {:induction false} PendingIff(c: Config, es: seq<Event>)
    requires After(c, es).Some?
    ensures After(c, es).value.s.pendingImmediate <==> c.immediate && Untouched(c, es)
  {
    if es != [] {
      var n := |es| - 1;
      PendingIff(c, es[..n]);
      AlwaysConserved(c, es[..n]);
      StepPending(c, After(c, es[..n]).value, es[n]);
    }
  }

  lemma PendingGoesFirst(c: Config, s: State, now: int, limit: nat)
    requires limit >= 1 && (s.pendingImmediate ==> s.retries == [] && s.inflight == 0 && s.sequence == 0)
    ensures var outcome := FetchOpened(c, s, now, limit).1;
      && (outcome.Immediate? <==> s.pendingImmediate)
      && (s.pendingImmediate ==> outcome == Immediate(Envelope(now, 0, 0)))
  {
    if s.pendingImmediate {
      assert Started(c, s, [now], limit) == [now];
    }
  }

  /** In every run, a fetch hands out an immediate run if and only if the source is to start
      with one and this is the first fetch to get past the opening, before any resume;
      whatever the overlap policy, it is one run, scheduled for the time of the fetch. */
  lemma ImmediateIff(c: Config, es: seq<Event>, openedAt: int, now: int, limit: int)
    requires After(c, es).Some?
    ensures var w := After(c, es).value; var outcome := Fetch(c, w.s, openedAt, now, limit).1;
      && (outcome.Immediate? <==> c.immediate && Untouched(c, es) && Open(c, w.s, openedAt).1)
      && (outcome.Immediate? ==> outcome.Deliveries() == [Envelope(now, 0, 0)])
  {
    var w := After(c, es).value;
    PendingIff(c, es);
    AlwaysConserved(c, es);
    var (s1, ok) := Open(c, w.s, openedAt);
    if ok {
      PendingGoesFirst(c, s1, now, if limit < 1 then 1 else limit);
    }
  }
}
