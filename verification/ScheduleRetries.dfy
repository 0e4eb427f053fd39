/** When a delivery that is to be retried comes back. */
module ScheduleRetries {
  import opened Wrappers
  import opened Schedule
  import opened ScheduleRuns

  /** What a fetch in this world hands out. */
  function Deliveries(c: Config, w: World, e: Event): seq<Envelope>
    requires e.Fetching?
  {
    Fetch(c, w.s, e.openedAt, e.now, e.limit).1.Deliveries()
  }

  /** Does the event hand out run `number`? */
  ghost predicate HandsOut(c: Config, w: World, e: Event, number: nat) {
    e.Fetching? && exists d :: d in Deliveries(c, w, e) && d.number == number
  }

  /** The entry waits, with its time and its envelope, and no other one of its run does. */
  ghost predicate Waits(w: World, readyAt: int, d: Envelope) {
    && (exists i :: 0 <= i < |w.s.retries| && w.s.retries[i].readyAt == readyAt && w.s.retries[i].envelope == d)
    && forall i, j ::
         (0 <= i < |w.s.retries| && 0 <= j < |w.s.retries|
          && w.s.retries[i].envelope.number == w.s.retries[j].envelope.number == d.number) ==> i == j
  }

  // ------------------------------------------------------------ one entry a run

  lemma {:induction false} CountsAt(es: seq<Envelope>, i: nat, j: nat, k: nat)
    requires i < j < |es| && es[i].number == es[j].number == k
    ensures Count(es, k) >= 2
  {
    CountAppend(es[..i + 1], es[i + 1..], k);
    assert es == es[..i + 1] + es[i + 1..];
    CountsOnce(es[..i + 1], i, k);
    CountsOnce(es[i + 1..], j - i - 1, k);
  }

  lemma {:induction false} CountsOnce(es: seq<Envelope>, i: nat, k: nat)
    requires i < |es| && es[i].number == k
    ensures Count(es, k) >= 1
  {
    if i > 0 {
      CountsOnce(es[1..], i - 1, k);
    }
  }

  /** No run waits twice. */
  lemma WaitsOnce(w: World, i: nat, j: nat)
    requires Conserved(w) && i < |w.s.retries| && j < |w.s.retries|
    requires w.s.retries[i].envelope.number == w.s.retries[j].envelope.number
    ensures i == j
  {
    var es, k := Envelopes(w.s.retries), w.s.retries[i].envelope.number;
    assert Places(w, k) <= 1;
    if i < j {
      CountsAt(es, i, j, k);
    } else if j < i {
      CountsAt(es, j, i, k);
    }
  }

  lemma WaitingIsIssued(w: World, i: nat)
    requires Conserved(w) && i < |w.s.retries|
    ensures w.s.retries[i].envelope.number < w.s.sequence
  {
    var k := w.s.retries[i].envelope.number;
    CountsOnce(Envelopes(w.s.retries), i, k);
    assert Places(w, k) >= 1;
  }

  lemma WaitsAt(w: World, i: nat)
    requires Conserved(w) && i < |w.s.retries|
    ensures Waits(w, w.s.retries[i].readyAt, w.s.retries[i].envelope)
  {
    forall a, b | 0 <= a < |w.s.retries| && 0 <= b < |w.s.retries|
      && w.s.retries[a].envelope.number == w.s.retries[b].envelope.number == w.s.retries[i].envelope.number
      ensures a == b
    {
      WaitsOnce(w, a, b);
    }
  }

  // --------------------------------------------------------------- the waiting

  /** The time from which a delivery retried at `now` may come back. */
  function Due(now: int, delay: Option<int>): int {
    if delay.Some? && delay.value > 0 then now + delay.value else now
  }

  /** A retried delivery waits until its time, with one more attempt. */
  lemma RetryStarts(c: Config, w: World, i: nat, now: int, delay: Option<int>)
    requires Conserved(w) && i < |w.outstanding|
    ensures var d := w.outstanding[i];
      Waits(Step(c, w, RetryLater(i, now, delay)), Due(now, delay), d.(attempts := d.attempts + 1))
  {
    var e, d := RetryLater(i, now, delay), w.outstanding[i];
    var w' := Step(c, w, e);
    StepConserves(c, w, e);
    var r := RetryOf(w.s, d, now, delay);
    PushMembers(w.s.retries, r);
    assert r in w'.s.retries;
    var k :| 0 <= k < |w'.s.retries| && w'.s.retries[k] == r;
    WaitsAt(w', k);
  }

  /** Entries keep waiting but for those a fetch hands out. */
  lemma StillQueued(c: Config, w: World, e: Event, i: nat)
    requires Enabled(w, e) && i < |w.s.retries|
    requires !HandsOut(c, w, e, w.s.retries[i].envelope.number)
    ensures w.s.retries[i] in Step(c, w, e).s.retries
  {
    match e
    case Fetching(openedAt, now, limit) => FetchLeaves(c, w, e, i);
    case RetryLater(k, now, delay) => PushMembers(w.s.retries, RetryOf(w.s, w.outstanding[k], now, delay));
    case _ =>
  }

  lemma FetchLeaves(c: Config, w: World, e: Event, i: nat)
    requires e.Fetching? && i < |w.s.retries| && !HandsOut(c, w, e, w.s.retries[i].envelope.number)
    ensures w.s.retries[i] in Step(c, w, e).s.retries
  {
    FetchIssues(c, w.s, e.openedAt, e.now, e.limit);
    FetchingState(c, w, e.openedAt, e.now, e.limit);
    var (s', outcome) := Fetch(c, w.s, e.openedAt, e.now, e.limit);
    if outcome.Retried? {
      var n := |outcome.batch|;
      forall j | 0 <= j < n ensures HandsOut(c, w, e, w.s.retries[j].envelope.number) {
        assert outcome.batch[j] == w.s.retries[j].envelope && outcome.batch[j] in Deliveries(c, w, e);
      }
      assert i >= n && w.s.retries[n..][i - n] == w.s.retries[i];
    }
  }

  lemma StepWaits(c: Config, w: World, e: Event, readyAt: int, d: Envelope)
    requires Conserved(w) && Enabled(w, e) && Waits(w, readyAt, d) && !HandsOut(c, w, e, d.number)
    ensures Waits(Step(c, w, e), readyAt, d)
  {
    var i :| 0 <= i < |w.s.retries| && w.s.retries[i].readyAt == readyAt && w.s.retries[i].envelope == d;
    var w' := Step(c, w, e);
    StillQueued(c, w, e, i);
    StepConserves(c, w, e);
    var k :| 0 <= k < |w'.s.retries| && w'.s.retries[k] == w.s.retries[i];
    WaitsAt(w', k);
  }

  /** What a fetch hands out of this run is the waiting envelope, no earlier than its time. */
  lemma ServedWhenDue(c: Config, w: World, e: Event, readyAt: int, d: Envelope, x: Envelope)
    requires Conserved(w) && Waits(w, readyAt, d) && e.Fetching?
    requires x in Deliveries(c, w, e) && x.number == d.number
    ensures x == d && e.now >= readyAt
  {
    FetchIssues(c, w.s, e.openedAt, e.now, e.limit);
    var outcome := Fetch(c, w.s, e.openedAt, e.now, e.limit).1;
    var i :| 0 <= i < |w.s.retries| && w.s.retries[i].readyAt == readyAt && w.s.retries[i].envelope == d;
    if outcome.Retried? {
      var n := |outcome.batch|;
      var j :| 0 <= j < n && outcome.batch[j] == x;
      assert outcome.batch[j] == w.s.retries[j].envelope;
      WaitsOnce(w, i, j);
      BatchIsReady(c, w.s, e.openedAt, e.now, e.limit);
    } else {
      WaitingIsIssued(w, i);
      FreshAreNew(c, w, e, x);
    }
  }

  lemma BatchIsReady(c: Config, s: State, openedAt: int, now: int, limit: int)
    requires Fetch(c, s, openedAt, now, limit).1.Retried?
    ensures var n := |Fetch(c, s, openedAt, now, limit).1.batch|;
      n <= |s.retries| && forall j :: 0 <= j < n ==> s.retries[j].readyAt <= now
  {
    var n := ReadyCount(s.retries, now, if limit < 1 then 1 else limit);
    if n == 0 {
      NoRetryWithoutReady(c, s, openedAt, now, limit);
    } else {
      assert Fetch(c, s, openedAt, now, limit).1 == Retried(Envelopes(s.retries[..n]));
    }
  }

  lemma FreshAreNew(c: Config, w: World, e: Event, x: Envelope)
    requires e.Fetching? && !Fetch(c, w.s, e.openedAt, e.now, e.limit).1.Retried? && x in Deliveries(c, w, e)
    ensures x.number >= w.s.sequence
  {
    FetchIssues(c, w.s, e.openedAt, e.now, e.limit);
    var outcome := Fetch(c, w.s, e.openedAt, e.now, e.limit).1;
    var runs := FreshTimes(outcome, e.now);
    OpenKeepsSequence(c, w.s, e.openedAt);
    assert Deliveries(c, w, e) == Fresh(runs, w.s.sequence);
    var i :| 0 <= i < |runs| && Fresh(runs, w.s.sequence)[i] == x;
  }

  lemma OpenKeepsSequence(c: Config, s: State, now: int)
    ensures Open(c, s, now).0.sequence == s.sequence && Open(c, s, now).0.retries == s.retries
  {
  }

  // ------------------------------------------------------------------ whole runs

  /** No event of `es` hands out run `number`. */
  ghost predicate LeavesAlone(c: Config, before: seq<Event>, es: seq<Event>, number: nat) {
    AllowedBy(c, before, es, (w, e) => !HandsOut(c, w, e, number))
  }

  lemma KeepsWaiting(c: Config, before: seq<Event>, es: seq<Event>, readyAt: int, d: Envelope)
    requires After(c, before).Some? && Waits(After(c, before).value, readyAt, d)
    requires After(c, before + es).Some? && LeavesAlone(c, before, es, d.number)
    ensures Waits(After(c, before + es).value, readyAt, d)
  {
    AlwaysConserved(c, before);
    var inv := w => Conserved(w) && Waits(w, readyAt, d);
    var allowed := (w, e) => !HandsOut(c, w, e, d.number);
    forall w, e | inv(w) && Enabled(w, e) && allowed(w, e) ensures inv(Step(c, w, e)) {
      StepConserves(c, w, e);
      StepWaits(c, w, e, readyAt, d);
    }
    RunKeepsFrom(c, inv, before, es, allowed);
  }

  /** The run up to the retry of an outstanding delivery, and on to a fetch that may hand
      it out again for the first time. */
  ghost predicate RetriedThen(c: Config, before: seq<Event>, i: nat, now: int, delay: Option<int>, between: seq<Event>) {
    && After(c, before).Some? && i < |After(c, before).value.outstanding|
    && After(c, before + [RetryLater(i, now, delay)] + between).Some?
    && LeavesAlone(c, before + [RetryLater(i, now, delay)], between, After(c, before).value.outstanding[i].number)
  }

  lemma WaitsMeanwhile(c: Config, before: seq<Event>, i: nat, now: int, delay: Option<int>, between: seq<Event>)
    requires RetriedThen(c, before, i, now, delay, between)
    ensures var d := After(c, before).value.outstanding[i];
      Waits(After(c, before + [RetryLater(i, now, delay)] + between).value, Due(now, delay), d.(attempts := d.attempts + 1))
  {
    var w := After(c, before).value;
    var e := RetryLater(i, now, delay);
    AlwaysConserved(c, before);
    RetryStarts(c, w, i, now, delay);
    var all := before + [e];
    assert all[..|all| - 1] == before && all[|all| - 1] == e;
    KeepsWaiting(c, all, between, Due(now, delay), w.outstanding[i].(attempts := w.outstanding[i].attempts + 1));
  }

  /** In every run: a delivery retried at `now` comes back from no fetch whose clock is
      before `now` plus its delay, a negative or absent one counting as none; and it comes
      back as it left, with one more attempt. */
  lemma RetryComesWhenDue(c: Config, before: seq<Event>, i: nat, now: int, delay: Option<int>, between: seq<Event>,
                          fetch: Event, x: Envelope)
    requires RetriedThen(c, before, i, now, delay, between) && fetch.Fetching?
    requires var w := After(c, before + [RetryLater(i, now, delay)] + between).value;
      x in Deliveries(c, w, fetch) && x.number == After(c, before).value.outstanding[i].number
    ensures fetch.now >= now && (delay.Some? ==> fetch.now >= now + delay.value)
    ensures var d := After(c, before).value.outstanding[i];
      x == Envelope(d.scheduledAt, d.number, d.attempts + 1)
  {
    var d := After(c, before).value.outstanding[i];
    var es := before + [RetryLater(i, now, delay)] + between;
    WaitsMeanwhile(c, before, i, now, delay, between);
    AlwaysConserved(c, es);
    ServedWhenDue(c, After(c, es).value, fetch, Due(now, delay), d.(attempts := d.attempts + 1), x);
  }

  // ------------------------------------------------------------- is served, too

  /** A source that has issued runs has its cursor set. */
  ghost predicate OpenOnceIssued(w: World) { w.s.sequence > 0 ==> w.s.initialized }

  lemma AlwaysOpen(c: Config, es: seq<Event>)
    ensures var w := After(c, es); w.Some? ==> OpenOnceIssued(w.value)
  {
    var inv := w => OpenOnceIssued(w);
    forall w, e | inv(w) && Enabled(w, e) ensures inv(Step(c, w, e)) {
      StepOpens(c, w, e);
    }
    RunKeeps(c, inv, es);
  }

  lemma StepOpens(c: Config, w: World, e: Event)
    requires OpenOnceIssued(w) && Enabled(w, e)
    ensures OpenOnceIssued(Step(c, w, e))
  {
    match e
    case Fetching(openedAt, now, limit) =>
      FetchingState(c, w, openedAt, now, limit);
      FetchOpens(c, w.s, openedAt, now, limit);
    case _ =>
  }

  lemma FetchOpens(c: Config, s: State, openedAt: int, now: int, limit: int)
    ensures var s' := Fetch(c, s, openedAt, now, limit).0;
      if Open(c, s, openedAt).1 then s'.initialized else s'.sequence == s.sequence && s'.initialized == s.initialized
  {
    var (s1, ok) := Open(c, s, openedAt);
    if ok {
      FetchStaysOpen(c, s1, now, if limit < 1 then 1 else limit);
    }
  }

  lemma FetchStaysOpen(c: Config, s: State, now: int, limit: nat)
    ensures FetchOpened(c, s, now, limit).0.initialized == s.initialized
  {
    if s.pendingImmediate {
      ScheduledStaysOpen(c, HandleDue(c, s.(pendingImmediate := false), [now], limit), now, limit);
    } else {
      ScheduledStaysOpen(c, s, now, limit);
    }
  }

  lemma ScheduledStaysOpen(c: Config, s: State, now: int, limit: nat)
    ensures FetchScheduled(c, s, now, limit).0.initialized == s.initialized
  {
  }

  /** The entry at place `i` is handed out exactly if it is ready and less than the limit
      stand before it. */
  lemma ServedIff(c: Config, w: World, e: Event, i: nat)
    requires Conserved(w) && RetriesOrdered(w.s) && w.s.initialized && e.Fetching? && i < |w.s.retries|
    ensures HandsOut(c, w, e, w.s.retries[i].envelope.number) <==>
      w.s.retries[i].readyAt <= e.now && i < if e.limit < 1 then 1 else e.limit
  {
    var r, m := w.s.retries[i], if e.limit < 1 then 1 else e.limit;
    ReadyRetriesFirst(c, w.s, e.openedAt, e.now, e.limit);
    var outcome := Fetch(c, w.s, e.openedAt, e.now, e.limit).1;
    if HandsOut(c, w, e, r.envelope.number) {
      var x :| x in Deliveries(c, w, e) && x.number == r.envelope.number;
      WaitsAt(w, i);
      ServedWhenDue(c, w, e, r.readyAt, r.envelope, x);
      if !outcome.Retried? {
        WaitingIsIssued(w, i);
        FreshAreNew(c, w, e, x);
      } else {
        var j :| 0 <= j < |outcome.batch| && outcome.batch[j] == x;
        assert outcome.batch[j] == w.s.retries[j].envelope;
        WaitsOnce(w, i, j);
      }
    }
    if r.readyAt <= e.now && i < m {
      assert r in w.s.retries;
      ServesUpTo(w.s.retries, |outcome.batch|, e.now, m, i);
      assert outcome.batch[i] == r.envelope && outcome.batch[i] in Deliveries(c, w, e);
    }
  }

  /** A batch of ready entries reaches every ready one within the limit. */
  lemma ServesUpTo(rs: seq<Retry>, n: nat, now: int, limit: nat, i: nat)
    requires n <= |rs| && LeastReady(rs, n, now, limit) && Ordered(rs)
    requires i < |rs| && rs[i].readyAt <= now && i < limit
    ensures i < n
  {
  }

  /** The place of the retried run among those that wait: how many come before it by time
      and, at the same time, by the order in which their retries were asked for. */
  function Place(retries: seq<Retry>, number: nat): (i: nat)
    ensures i <= |retries|
    ensures i < |retries| ==> retries[i].envelope.number == number
    ensures forall k :: 0 <= k < i ==> retries[k].envelope.number != number
  {
    if retries == [] || retries[0].envelope.number == number then 0 else 1 + Place(retries[1..], number)
  }

  /** And it does come back: a fetch hands it out if and only if its clock has reached that
      time and fewer than its limit wait in front of it. */
  lemma RetryServedIff(c: Config, before: seq<Event>, i: nat, now: int, delay: Option<int>, between: seq<Event>, fetch: Event)
    requires RetriedThen(c, before, i, now, delay, between) && fetch.Fetching?
    ensures var w := After(c, before + [RetryLater(i, now, delay)] + between).value;
      var number := After(c, before).value.outstanding[i].number;
      HandsOut(c, w, fetch, number) <==>
        && fetch.now >= (if delay.Some? && delay.value > 0 then now + delay.value else now)
        && Place(w.s.retries, number) < if fetch.limit < 1 then 1 else fetch.limit
  {
    var d := After(c, before).value.outstanding[i];
    var es := before + [RetryLater(i, now, delay)] + between;
    var w := After(c, es).value;
    WaitsMeanwhile(c, before, i, now, delay, between);
    AlwaysConserved(c, es);
    AlwaysOrdered(c, es);
    AlwaysOpen(c, es);
    var k := Place(w.s.retries, d.number);
    WaitingIsIssued(w, k);
    ServedIff(c, w, fetch, k);
  }
}
