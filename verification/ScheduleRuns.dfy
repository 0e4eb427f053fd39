/** Whole runs of a schedule source: any interleaving of fetches, settlements of
    outstanding deliveries and pauses, with what each state owes to its past. */
module ScheduleRuns {
  import opened Wrappers
  import opened Schedule

  /** A source together with its past: who holds each delivery, and, since the cursor
      was last set, the due runs collected, the fresh runs delivered from them, and
      whether a search has raised. */
  datatype World = World(
    s: State,
    outstanding: seq<Envelope>,
    acked: seq<Envelope>,
    failed: seq<Envelope>,
    start: Option<int>,
    collected: seq<int>,
    delivered: seq<int>,
    dropped: int,
    broken: bool)

  datatype Event =
    | Opening(now: int)
    | Fetching(openedAt: int, now: int, limit: int)
    | Ack(i: nat)
    | Fail(i: nat)
    | RetryLater(i: nat, now: int, delay: Option<int>)
    | ResumeFromPause(now: int)

  function Start(c: Config): World {
    World(Initial(c), [], [], [], None, [], [], 0, false)
  }

  function Without<T>(xs: seq<T>, i: nat): (r: seq<T>)
    requires i < |xs|
    ensures multiset(r) + multiset{xs[i]} == multiset(xs)
  {
    assert xs == xs[..i] + [xs[i]] + xs[i + 1..];
    xs[..i] + xs[i + 1..]
  }

  /** A settlement names one outstanding delivery; nothing else is restricted. */
  predicate Enabled(w: World, e: Event) {
    match e
    case Ack(i) => i < |w.outstanding|
    case Fail(i) => i < |w.outstanding|
    case RetryLater(i, _, _) => i < |w.outstanding|
    case _ => true
  }

  function Step(c: Config, w: World, e: Event): World
    requires Enabled(w, e)
  {
    match e
    case Opening(now) => Opened(w, Open(c, w.s, now).0)
    case Fetching(openedAt, now, limit) =>
      var w1 := Opened(w, Open(c, w.s, openedAt).0);
      var (s', outcome) := Fetch(c, w.s, openedAt, now, limit);
      Recorded(c, w1, s', outcome)
    case Ack(i) => w.(s := Finish(w.s), outstanding := Without(w.outstanding, i), acked := w.acked + [w.outstanding[i]])
    case Fail(i) => w.(s := Finish(w.s), outstanding := Without(w.outstanding, i), failed := w.failed + [w.outstanding[i]])
    case RetryLater(i, now, delay) =>
      w.(s := FinishRetry(w.s, w.outstanding[i], now, delay), outstanding := Without(w.outstanding, i))
    case ResumeFromPause(now) =>
      var s' := ResumeAfterPause(c, w.s, now).0;
      var moved := ResumeAfterPause(c, w.s, now).1;
      w.(s := s', start := s'.nextFireAt, collected := [], delivered := [], dropped := 0, broken := w.broken && !moved)
  }

  function Opened(w: World, s': State): World {
    if w.s.initialized then w else w.(s := s', start := s'.nextFireAt)
  }

  /** What a fetch adds to the record. */
  function Recorded(c: Config, w: World, s': State, outcome: Outcome): World {
    var w' := w.(s := s', outstanding := w.outstanding + outcome.Deliveries());
    match outcome
    case Raised => w'.(broken := w.broken || s'.nextFireAt.Some?)
    case Retried(_) => w'
    case Immediate(_) => w'
    case Resumed(run) => w'.(delivered := w.delivered + [run.scheduledAt])
    case Due(runs, started) =>
      var times := FreshTimes(outcome, 0);
      w'.(collected := w.collected + runs, delivered := w.delivered + times,
          dropped := w.dropped + |w.s.queued| + |runs| - |started| - |s'.queued|)
  }

  /** The world after a sequence of events; None if one was not possible where it came. */
  function After(c: Config, es: seq<Event>): Option<World> {
    if es == [] then Some(Start(c))
    else
      match After(c, es[..|es| - 1])
      case None => None
      case Some(w) => if Enabled(w, es[|es| - 1]) then Some(Step(c, w, es[|es| - 1])) else None
  }

  /** What holds at the start, and is kept by every step, holds in every run. */
  lemma {:induction false} RunKeeps(c: Config, inv: World -> bool, es: seq<Event>)
    requires inv(Start(c)) && forall w, e :: inv(w) && Enabled(w, e) ==> inv(Step(c, w, e))
    ensures var w := After(c, es); w.Some? ==> inv(w.value)
  {
    if es != [] {
      RunKeeps(c, inv, es[..|es| - 1]);
    }
  }

  lemma OneMore(c: Config, es: seq<Event>, e: Event)
    requires After(c, es + [e]).Some?
    ensures After(c, es).Some? && Enabled(After(c, es).value, e)
    ensures After(c, es + [e]).value == Step(c, After(c, es).value, e)
  {
    var all := es + [e];
    assert all[..|all| - 1] == es && all[|all| - 1] == e;
  }

  /** Every event of `es`, coming after `before`, is one that `allowed` admits. */
  ghost predicate AllowedBy(c: Config, before: seq<Event>, es: seq<Event>, allowed: (World, Event) -> bool) {
    forall k :: 0 <= k < |es| && After(c, before + es[..k]).Some? ==> allowed(After(c, before + es[..k]).value, es[k])
  }

  lemma AllowedBefore(c: Config, before: seq<Event>, es: seq<Event>, allowed: (World, Event) -> bool, n: nat)
    requires AllowedBy(c, before, es, allowed) && n <= |es|
    ensures AllowedBy(c, before, es[..n], allowed)
    ensures n < |es| && After(c, before + es[..n]).Some? ==> allowed(After(c, before + es[..n]).value, es[n])
  {
    forall k | 0 <= k < n && After(c, before + es[..n][..k]).Some?
      ensures allowed(After(c, before + es[..n][..k]).value, es[..n][k])
    {
      assert es[..n][..k] == es[..k];
    }
  }

  /** What holds at some point, and is kept by all steps of the kind that follow, holds at
      the end. */
  lemma {:induction false} RunKeepsFrom(c: Config, inv: World -> bool, before: seq<Event>, es: seq<Event>,
                                        allowed: (World, Event) -> bool)
    requires After(c, before).Some? && inv(After(c, before).value)
    requires forall w, e :: inv(w) && Enabled(w, e) && allowed(w, e) ==> inv(Step(c, w, e))
    requires After(c, before + es).Some? && AllowedBy(c, before, es, allowed)
    ensures inv(After(c, before + es).value)
  {
    if es == [] {
      assert before + es == before;
    } else {
      var n := |es| - 1;
      assert before + es == before + es[..n] + [es[n]];
      OneMore(c, before + es[..n], es[n]);
      AllowedBefore(c, before, es, allowed, n);
      RunKeepsFrom(c, inv, before, es[..n], allowed);
    }
  }

  // ------------------------------------------------------------ conservation

  /** How often run number `k` occurs among `es`. */
  function Count(es: seq<Envelope>, k: nat): nat {
    if es == [] then 0 else (if es[0].number == k then 1 else 0) + Count(es[1..], k)
  }

  /** The places where run `k` is: with a handler, waiting for its retry,
      acknowledged, or failed. */
  function Places(w: World, k: nat): nat {
    Count(w.outstanding, k) + Count(Envelopes(w.s.retries), k) + Count(w.acked, k) + Count(w.failed, k)
  }

  /** Every run issued so far is in exactly one place, and no other run is anywhere;
      the in-flight counter counts the outstanding deliveries. */
  ghost predicate Conserved(w: World) {
    && w.s.inflight == |w.outstanding|
    && (forall k: nat :: Places(w, k) == if k < w.s.sequence then 1 else 0)
    && (w.s.pendingImmediate ==> w.s.sequence == 0 && w.s.queued == [] && w.s.retries == [] && w.s.inflight == 0)
  }

  lemma {:induction false} CountAppend(a: seq<Envelope>, b: seq<Envelope>, k: nat)
    ensures Count(a + b, k) == Count(a, k) + Count(b, k)
  {
    if a == [] {
      assert a + b == b;
    } else {
      CountAppend(a[1..], b, k);
      assert (a + b)[1..] == a[1..] + b;
    }
  }

  lemma CountWithout(es: seq<Envelope>, i: nat, k: nat)
    requires i < |es|
    ensures Count(es, k) == Count(Without(es, i), k) + (if es[i].number == k then 1 else 0)
  {
    CountAppend(es[..i], es[i + 1..], k);
    CountAppend(es[..i], [es[i]] + es[i + 1..], k);
    assert es == es[..i] + ([es[i]] + es[i + 1..]);
    assert ([es[i]] + es[i + 1..])[1..] == es[i + 1..];
  }

  lemma {:induction false} CountPush(retries: seq<Retry>, e: Retry, k: nat)
    ensures Count(Envelopes(Push(retries, e)), k)
      == Count(Envelopes(retries), k) + (if e.envelope.number == k then 1 else 0)
  {
    if retries == [] || Before(e, retries[0]) {
      assert Envelopes([e] + retries)[1..] == Envelopes(retries);
    } else {
      CountPush(retries[1..], e, k);
      assert Envelopes(Push(retries, e))[1..] == Envelopes(Push(retries[1..], e));
      assert Envelopes(retries)[1..] == Envelopes(retries[1..]);
    }
  }

  lemma CountSplit(retries: seq<Retry>, n: nat, k: nat)
    requires n <= |retries|
    ensures Count(Envelopes(retries), k) == Count(Envelopes(retries[..n]), k) + Count(Envelopes(retries[n..]), k)
  {
    CountAppend(Envelopes(retries[..n]), Envelopes(retries[n..]), k);
    assert Envelopes(retries) == Envelopes(retries[..n]) + Envelopes(retries[n..]);
  }

  lemma {:induction false} CountFresh(runs: seq<int>, first: nat, k: nat)
    ensures Count(Fresh(runs, first), k) == if first <= k < first + |runs| then 1 else 0
    decreases |runs|
  {
    if runs != [] {
      CountFresh(runs[1..], first + 1, k);
      assert Fresh(runs, first)[1..] == Fresh(runs[1..], first + 1);
    }
  }

  /** Handing out `runs` as fresh deliveries keeps the account. */
  lemma IssueConserves(w: World, w': World, runs: seq<int>)
    requires Conserved(w)
    requires IssuesFresh(w.s, w'.s, runs)
    requires w'.outstanding == w.outstanding + Fresh(runs, w.s.sequence)
    requires w'.acked == w.acked && w'.failed == w.failed
    ensures Conserved(w')
  {
    forall k: nat ensures Places(w', k) == if k < w'.s.sequence then 1 else 0 {
      assert Places(w, k) == if k < w.s.sequence then 1 else 0;
      CountAppend(w.outstanding, Fresh(runs, w.s.sequence), k);
      CountFresh(runs, w.s.sequence, k);
    }
  }

  /** From `s` to `s'` exactly `runs` were issued, and no retry was touched. */
  ghost predicate IssuesFresh(s: State, s': State, runs: seq<int>) {
    && s'.retries == s.retries && s'.retrySequence == s.retrySequence
    && s'.sequence == s.sequence + |runs| && s'.inflight == s.inflight + |runs|
    && (s'.pendingImmediate ==> s.pendingImmediate && runs == [] && s'.queued == s.queued)
  }

  /** The scheduled times of the fresh runs a fetch at `now` hands out. */
  function FreshTimes(outcome: Outcome, now: int): seq<int> {
    match outcome
    case Raised => []
    case Retried(_) => []
    case Immediate(run) => [now]
    case Resumed(run) => [run.scheduledAt]
    case Due(_, started) => seq(|started|, i requires 0 <= i < |started| => started[i].scheduledAt)
  }

  lemma ScheduledIssuesFresh(c: Config, s: State, now: int, limit: nat)
    requires !s.pendingImmediate
    ensures var (s', outcome) := FetchScheduled(c, s, now, limit);
      && !outcome.Retried? && !outcome.Immediate?
      && IssuesFresh(s, s', FreshTimes(outcome, now))
      && outcome.Deliveries() == Fresh(FreshTimes(outcome, now), s.sequence)
  {
    var (s', outcome) := FetchScheduled(c, s, now, limit);
    if outcome.Due? {
      assert outcome.started == Fresh(FreshTimes(outcome, now), s.sequence);
    }
  }

  /** What a fetch from `s` hands out: the least ready retries, or freshly numbered runs. */
  ghost predicate IssuedFrom(s: State, s': State, outcome: Outcome, now: int) {
    if outcome.Retried? then
      var n := |outcome.batch|;
      && 0 < n <= |s.retries| && outcome.batch == Envelopes(s.retries[..n])
      && s' == s.(retries := s.retries[n..], inflight := s.inflight + n)
    else
      && IssuesFresh(s, s', FreshTimes(outcome, now))
      && outcome.Deliveries() == Fresh(FreshTimes(outcome, now), s.sequence)
  }

  lemma ImmediateIssues(c: Config, s: State, now: int, limit: nat)
    requires s.pendingImmediate && ReadyCount(s.retries, now, limit) == 0
    ensures var (s', outcome) := FetchOpened(c, s, now, limit); IssuedFrom(s, s', outcome, now)
  {
    var t := s.(pendingImmediate := false);
    var s2 := HandleDue(c, t, [now], limit);
    assert Started(c, t, [now], limit) == Started(c, s, [now], limit);
    if Started(c, s, [now], limit) == [] {
      ScheduledIssuesFresh(c, s2, now, limit);
    } else {
      assert Started(c, s, [now], limit) == [now];
    }
  }

  lemma OpenedIssues(c: Config, s: State, now: int, limit: nat)
    ensures var (s', outcome) := FetchOpened(c, s, now, limit); IssuedFrom(s, s', outcome, now)
  {
    if ReadyCount(s.retries, now, limit) == 0 {
      if s.pendingImmediate {
        ImmediateIssues(c, s, now, limit);
      } else {
        ScheduledIssuesFresh(c, s, now, limit);
      }
    }
  }

  /** A fetch hands out either the least ready retries or fresh runs, never both. */
  lemma FetchIssues(c: Config, s: State, openedAt: int, now: int, limit: int)
    ensures var (s', outcome) := Fetch(c, s, openedAt, now, limit); IssuedFrom(Open(c, s, openedAt).0, s', outcome, now)
  {
    var (s1, ok) := Open(c, s, openedAt);
    if ok {
      OpenedIssues(c, s1, now, if limit < 1 then 1 else limit);
    }
  }

  lemma BatchConserves(w: World, w': World, n: nat)
    requires Conserved(w) && 0 < n <= |w.s.retries|
    requires w'.s.retries == w.s.retries[n..] && w'.s.inflight == w.s.inflight + n
    requires w'.s.sequence == w.s.sequence && (w'.s.pendingImmediate ==> w.s.pendingImmediate)
    requires w'.outstanding == w.outstanding + Envelopes(w.s.retries[..n])
    requires w'.acked == w.acked && w'.failed == w.failed
    ensures Conserved(w')
  {
    forall k: nat ensures Places(w', k) == if k < w'.s.sequence then 1 else 0 {
      assert Places(w, k) == if k < w.s.sequence then 1 else 0;
      CountAppend(w.outstanding, Envelopes(w.s.retries[..n]), k);
      CountSplit(w.s.retries, n, k);
    }
  }

  /** A fetch adds its deliveries to the outstanding ones and keeps the account. */
  lemma FetchConserves(c: Config, w: World, w': World, openedAt: int, now: int, limit: int)
    requires Conserved(w)
    requires w'.acked == w.acked && w'.failed == w.failed
    requires w'.s == Fetch(c, w.s, openedAt, now, limit).0
    requires w'.outstanding == w.outstanding + Fetch(c, w.s, openedAt, now, limit).1.Deliveries()
    ensures Conserved(w')
  {
    FetchIssues(c, w.s, openedAt, now, limit);
    var outcome := Fetch(c, w.s, openedAt, now, limit).1;
    if outcome.Retried? {
      BatchConserves(w, w', |outcome.batch|);
    } else {
      IssueConserves(w, w', FreshTimes(outcome, now));
    }
  }

  lemma SettleConserves(w: World, w': World, i: nat)
    requires Conserved(w) && i < |w.outstanding|
    requires w'.s == Finish(w.s) && w'.outstanding == Without(w.outstanding, i)
    requires (w'.acked == w.acked + [w.outstanding[i]] && w'.failed == w.failed)
          || (w'.failed == w.failed + [w.outstanding[i]] && w'.acked == w.acked)
    ensures Conserved(w')
  {
    forall k: nat ensures Places(w', k) == if k < w'.s.sequence then 1 else 0 {
      assert Places(w, k) == if k < w.s.sequence then 1 else 0;
      CountWithout(w.outstanding, i, k);
      CountAppend(w.acked, [w.outstanding[i]], k);
      CountAppend(w.failed, [w.outstanding[i]], k);
    }
  }

  lemma RetryConserves(w: World, w': World, i: nat, e: Retry)
    requires Conserved(w) && i < |w.outstanding| && e.envelope.number == w.outstanding[i].number
    requires w'.s == Finish(w.s).(retrySequence := w'.s.retrySequence, retries := Push(w.s.retries, e))
    requires w'.outstanding == Without(w.outstanding, i) && w'.acked == w.acked && w'.failed == w.failed
    ensures Conserved(w')
  {
    forall k: nat ensures Places(w', k) == if k < w'.s.sequence then 1 else 0 {
      assert Places(w, k) == if k < w.s.sequence then 1 else 0;
      CountWithout(w.outstanding, i, k);
      CountPush(w.s.retries, e, k);
    }
  }

  lemma UntouchedConserves(w: World, w': World)
    requires Conserved(w)
    requires w'.outstanding == w.outstanding && w'.acked == w.acked && w'.failed == w.failed
    requires w'.s.retries == w.s.retries && w'.s.sequence == w.s.sequence && w'.s.inflight == w.s.inflight
    requires w'.s.pendingImmediate ==> w.s.pendingImmediate && w'.s.queued == w.s.queued
    ensures Conserved(w')
  {
    forall k: nat ensures Places(w', k) == if k < w'.s.sequence then 1 else 0 {
      assert Places(w, k) == if k < w.s.sequence then 1 else 0;
    }
  }

  /** What a fetching step does to the holders of deliveries. */
  lemma FetchingFrame(c: Config, w: World, openedAt: int, now: int, limit: int)
    ensures var w' := Step(c, w, Fetching(openedAt, now, limit));
      var (s', outcome) := Fetch(c, w.s, openedAt, now, limit);
      && w'.s == s' && w'.outstanding == w.outstanding + outcome.Deliveries()
      && w'.acked == w.acked && w'.failed == w.failed
  {
  }

  lemma StepConserves(c: Config, w: World, e: Event)
    requires Conserved(w) && Enabled(w, e)
    ensures Conserved(Step(c, w, e))
  {
    match e
    case Opening(now) =>
      UntouchedConserves(w, Step(c, w, e));
    case Fetching(openedAt, now, limit) =>
      FetchingFrame(c, w, openedAt, now, limit);
      FetchConserves(c, w, Step(c, w, e), openedAt, now, limit);
    case Ack(i) =>
      SettleConserves(w, Step(c, w, e), i);
    case Fail(i) =>
      SettleConserves(w, Step(c, w, e), i);
    case RetryLater(i, now, delay) =>
      RetryConserves(w, Step(c, w, e), i, RetryOf(w.s, w.outstanding[i], now, delay));
    case ResumeFromPause(now) =>
      UntouchedConserves(w, Step(c, w, e));
  }

  /** In every run: each issued run is in exactly one place and the in-flight counter
      is the number of outstanding deliveries. */
  lemma AlwaysConserved(c: Config, es: seq<Event>)
    ensures var w := After(c, es); w.Some? ==> Conserved(w.value)
  {
    var inv := w => Conserved(w);
    forall w, e | inv(w) && Enabled(w, e) ensures inv(Step(c, w, e)) {
      StepConserves(c, w, e);
    }
    RunKeeps(c, inv, es);
  }

  // ------------------------------------------------------------- retry order

  ghost predicate Ordered(rs: seq<Retry>) {
    forall i, j :: 0 <= i < j < |rs| ==> Before(rs[i], rs[j]) && rs[i].order != rs[j].order
  }

  /** The retry queue is strictly ordered by its first two components, on sequence
      numbers that never repeat: no comparison reaches an envelope. */
  ghost predicate RetriesOrdered(s: State) {
    Ordered(s.retries) && forall r <- s.retries :: r.order <= s.retrySequence
  }

  lemma PushMembers(retries: seq<Retry>, e: Retry)
    ensures forall r :: r in Push(retries, e) <==> r == e || r in retries
  {
    forall r ensures r in Push(retries, e) <==> r == e || r in retries {
      assert r in Push(retries, e) <==> r in multiset(Push(retries, e));
    }
  }

  lemma {:induction false} PushKeepsOrder(retries: seq<Retry>, e: Retry)
    requires Ordered(retries) && forall r <- retries :: r.order < e.order
    ensures Ordered(Push(retries, e))
  {
    if retries == [] || Before(e, retries[0]) {
      forall j | 0 <= j < |retries| ensures Before(e, retries[j]) && e.order != retries[j].order {
        assert retries[j] in retries;
      }
    } else {
      PushKeepsOrder(retries[1..], e);
      var rest := Push(retries[1..], e);
      PushMembers(retries[1..], e);
      forall j | 0 <= j < |rest| ensures Before(retries[0], rest[j]) && retries[0].order != rest[j].order {
        assert rest[j] in rest;
        if rest[j] != e {
          FirstBefore(retries, rest[j]);
        }
      }
    }
  }

  lemma FirstBefore(retries: seq<Retry>, r: Retry)
    requires Ordered(retries) && retries != [] && r in retries[1..]
    ensures Before(retries[0], r) && retries[0].order != r.order
  {
    var k :| 1 <= k < |retries| && retries[k] == r;
  }

  lemma FetchKeepsOrder(c: Config, s: State, openedAt: int, now: int, limit: int)
    requires RetriesOrdered(s)
    ensures RetriesOrdered(Fetch(c, s, openedAt, now, limit).0)
  {
    FetchIssues(c, s, openedAt, now, limit);
    var (s', outcome) := Fetch(c, s, openedAt, now, limit);
    IssuedKeepsOrder(Open(c, s, openedAt).0, s', outcome, now);
  }

  lemma IssuedKeepsOrder(s: State, s': State, outcome: Outcome, now: int)
    requires RetriesOrdered(s) && IssuedFrom(s, s', outcome, now)
    ensures RetriesOrdered(s')
  {
  }

  lemma RetryKeepsOrder(s: State, e: Envelope, now: int, delay: Option<int>)
    requires RetriesOrdered(s)
    ensures RetriesOrdered(FinishRetry(s, e, now, delay))
  {
    var r := RetryOf(s, e, now, delay);
    PushKeepsOrder(s.retries, r);
    PushMembers(s.retries, r);
  }

  lemma FetchingState(c: Config, w: World, openedAt: int, now: int, limit: int)
    ensures Step(c, w, Fetching(openedAt, now, limit)).s == Fetch(c, w.s, openedAt, now, limit).0
  {
  }

  lemma StepKeepsOrder(c: Config, w: World, e: Event)
    requires Enabled(w, e) && RetriesOrdered(w.s)
    ensures RetriesOrdered(Step(c, w, e).s)
  {
    match e {
      case Fetching(openedAt, now, limit) =>
        FetchKeepsOrder(c, w.s, openedAt, now, limit);
        FetchingState(c, w, openedAt, now, limit);
      case RetryLater(i, now, delay) =>
        RetryKeepsOrder(w.s, w.outstanding[i], now, delay);
      case _ =>
    }
  }

  lemma AlwaysOrdered(c: Config, es: seq<Event>)
    ensures var w := After(c, es); w.Some? ==> RetriesOrdered(w.value.s)
  {
    var inv := (w: World) => RetriesOrdered(w.s);
    forall w, e | inv(w) && Enabled(w, e) ensures inv(Step(c, w, e)) {
      StepKeepsOrder(c, w, e);
    }
    RunKeeps(c, inv, es);
  }

  /** `n` entries of `rs` make up the batch due at `now`: the least ready ones, as
      many as the limit allows. */
  ghost predicate LeastReady(rs: seq<Retry>, n: nat, now: int, limit: nat)
    requires n <= |rs|
  {
    && n <= limit
    && (forall i :: 0 <= i < n ==> rs[i].readyAt <= now)
    && (forall i, j :: 0 <= i < n <= j < |rs| ==> Before(rs[i], rs[j]))
    && (n < limit ==> forall j :: n <= j < |rs| ==> rs[j].readyAt > now)
  }

  lemma ReadyCountIsLeast(rs: seq<Retry>, now: int, limit: nat)
    requires Ordered(rs)
    ensures LeastReady(rs, ReadyCount(rs, now, limit), now, limit)
  {
  }

  /** A fetch serves retries exactly when one is ready, before any fresh run; it takes
      the least ready ones, and stops only at its limit or when nothing ready is left. */
  lemma ReadyRetriesFirst(c: Config, s: State, openedAt: int, now: int, limit: int)
    requires RetriesOrdered(s) && Open(c, s, openedAt).1
    ensures var (s', outcome) := Fetch(c, s, openedAt, now, limit);
      && (outcome.Retried? <==> exists r :: r in s.retries && r.readyAt <= now)
      && (outcome.Retried? ==>
            var n := |outcome.batch|;
            && 0 < n <= |s.retries|
            && LeastReady(s.retries, n, now, if limit < 1 then 1 else limit)
            && outcome.batch == Envelopes(s.retries[..n]) && s'.retries == s.retries[n..])
  {
    FetchIssues(c, s, openedAt, now, limit);
    var m := if limit < 1 then 1 else limit;
    ReadyCountIsLeast(s.retries, now, m);
    var n := ReadyCount(s.retries, now, m);
    var outcome := Fetch(c, s, openedAt, now, limit).1;
    if n == 0 {
      NoRetryWithoutReady(c, s, openedAt, now, limit);
      assert forall r <- s.retries :: r.readyAt > now;
    } else {
      assert s.retries[0] in s.retries && s.retries[0].readyAt <= now;
      assert outcome == Retried(Envelopes(s.retries[..n]));
    }
  }

  lemma NoRetryWithoutReady(c: Config, s: State, openedAt: int, now: int, limit: int)
    requires ReadyCount(s.retries, now, if limit < 1 then 1 else limit) == 0
    ensures !Fetch(c, s, openedAt, now, limit).1.Retried?
  {
  }
}
