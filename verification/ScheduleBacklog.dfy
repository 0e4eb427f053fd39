/** The fire cursor and the backlog over whole runs: collected times form one gapless
    chain, the backlog is its newest part, and fresh runs leave in scheduled order. */
module ScheduleBacklog {
  import opened Wrappers
  import opened Schedule
  import opened ScheduleRuns

  function Last(xs: seq<int>): int
    requires xs != []
  {
    xs[|xs| - 1]
  }

  ghost predicate Increasing(xs: seq<int>) {
    forall i, j :: 0 <= i < j < |xs| ==> xs[i] < xs[j]
  }

  /** Each time is the successor of the one before it, and has a successor itself. */
  ghost predicate Chain(next: int -> Option<int>, xs: seq<int>) {
    forall i :: 0 <= i < |xs| ==>
      next(xs[i]).Some? && (i + 1 < |xs| ==> next(xs[i]) == Some(xs[i + 1]))
  }

  lemma {:induction false} ChainIncreases(c: Config, xs: seq<int>)
    requires ValidConfig(c) && Chain(c.next, xs)
    ensures Increasing(xs)
  {
    if xs != [] {
      var front := xs[..|xs| - 1];
      ChainIncreases(c, front);
      if front != [] {
        assert c.next(xs[|xs| - 2]) == Some(xs[|xs| - 1]);
      }
    }
  }

  lemma ChainAppend(next: int -> Option<int>, a: seq<int>, b: seq<int>)
    requires Chain(next, a) && Chain(next, b)
    requires a != [] && b != [] ==> next(Last(a)) == Some(b[0])
    ensures Chain(next, a + b)
  {
  }

  /** What one collection from the cursor `at` finds. */
  lemma {:induction false} CollectFinds(c: Config, at: int, now: int, max: nat)
    requires ValidConfig(c)
    ensures var next := c.next; var r := Collect(next, at, now, max);
      && Chain(next, r.runs) && |r.runs| <= max && at <= r.cursor
      && (forall x <- r.runs :: x <= now)
      && (r.runs != [] ==> r.runs[0] == at)
      && Some(r.cursor) == (if r.runs == [] then Some(at) else next(Last(r.runs)))
      && (r.raised ==> r.cursor <= now && next(r.cursor).None?)
      && (!r.raised ==> |r.runs| == max || r.cursor > now)
    decreases max
  {
    var next := c.next;
    if at <= now && max > 0 {
      if next(at).Some? {
        CollectFinds(c, next(at).value, now, max - 1);
        var rest := Collect(next, next(at).value, now, max - 1);
        ChainAppend(next, [at], rest.runs);
      }
    }
  }

  // ------------------------------------------------------------- the cursor

  /** The times collected since the cursor was set run from where it was set to just
      before where it stands; once a search has raised, it stands still. */
  ghost predicate CursorFollows(c: Config, w: World) {
    && (w.s.initialized <==> w.s.nextFireAt.Some?)
    && (w.start.Some? <==> w.s.nextFireAt.Some?)
    && Chain(c.next, w.collected)
    && (w.collected != [] ==> w.start == Some(w.collected[0]) && w.s.nextFireAt.Some? && Last(w.collected) < w.s.nextFireAt.value)
    && (w.broken ==> w.s.nextFireAt.Some? && c.next(w.s.nextFireAt.value).None?)
    && (!w.broken ==> w.s.nextFireAt == if w.collected == [] then w.start else c.next(Last(w.collected)))
  }

  /** Fresh runs leave in strictly increasing scheduled time, each of them collected;
      under `queue` the backlog is the newest part of the collected times, and as long
      as nothing overflowed, delivered and queued runs are all of them, in order. */
  ghost predicate BacklogFollows(c: Config, w: World) {
    && DeliveredFollows(w.collected, w.delivered) && QueueFollows(c, w.collected, w.s.queued)
    && |w.collected| == |w.delivered| + |w.s.queued| + w.dropped && w.dropped >= 0
    && (w.delivered != [] && w.s.queued != [] ==> Last(w.delivered) < w.s.queued[0])
    && (w.dropped == 0 ==> w.collected == w.delivered + w.s.queued)
  }

  ghost predicate DeliveredFollows(collected: seq<int>, delivered: seq<int>) {
    Increasing(delivered) && forall x <- delivered :: x in collected
  }

  ghost predicate QueueFollows(c: Config, collected: seq<int>, queued: seq<int>) {
    && |queued| <= |collected| && |queued| <= c.maxQueued
    && queued == collected[|collected| - |queued|..]
    && (c.overlap != Queue ==> queued == [])
  }

  /** `q` is the newest part of `xs`. */
  predicate IsSuffix(q: seq<int>, xs: seq<int>) {
    |q| <= |xs| && q == xs[|xs| - |q|..]
  }

  lemma SuffixExtends(q: seq<int>, xs: seq<int>, due: seq<int>, max: nat)
    requires IsSuffix(q, xs)
    ensures IsSuffix(Newest(q + due, max), xs + due)
  {
    var all := q + due;
    assert all == (xs + due)[|xs| - |q|..];
  }

  /** A busy `queue` source moves the due runs to its backlog. */
  lemma QueuedKeepsBacklog(c: Config, w: World, w': World, due: seq<int>)
    requires c.overlap == Queue && BacklogFollows(c, w)
    requires Increasing(w.collected + due)
    requires w'.collected == w.collected + due && w'.delivered == w.delivered
    requires w'.s.queued == Newest(w.s.queued + due, c.maxQueued)
    requires w'.dropped == w.dropped + |w.s.queued| + |due| - |w'.s.queued|
    ensures BacklogFollows(c, w')
  {
    SuffixExtends(w.s.queued, w.collected, due, c.maxQueued);
    forall x | x in w.delivered ensures x in w'.collected {
      assert x in w.collected;
    }
    if w.delivered != [] && w'.s.queued != [] {
      DeliveredBeforeQueued(w, w', due);
    }
    if w'.dropped == 0 {
      assert w'.s.queued == w.s.queued + due;
      Regroup(w.delivered, w.s.queued, due);
    }
  }

  lemma Regroup(a: seq<int>, b: seq<int>, c: seq<int>)
    ensures (a + b) + c == a + (b + c)
  {
  }

  lemma DeliveredBeforeQueued(w: World, w': World, due: seq<int>)
    requires Increasing(w.collected + due) && (forall x <- w.delivered :: x in w.collected)
    requires w.delivered != [] && (w.s.queued != [] ==> Last(w.delivered) < w.s.queued[0])
    requires IsSuffix(w.s.queued, w.collected) && IsSuffix(w'.s.queued, w.s.queued + due) && w'.s.queued != []
    ensures Last(w.delivered) < w'.s.queued[0]
  {
    var all := w.collected + due;
    var v := Last(w.delivered);
    assert v in w.delivered;
    var i :| 0 <= i < |w.collected| && w.collected[i] == v;
    assert all[i] == v;
    var j := |all| - |w'.s.queued|;
    assert w'.s.queued[0] == all[j];
    if w.s.queued != [] {
      var k := |w.collected| - |w.s.queued|;
      assert all[k] == w.s.queued[0] && k <= j;
    }
  }

  lemma DeliveredIncreases(collected: seq<int>, delivered: seq<int>, due: seq<int>, started: seq<int>)
    requires Increasing(collected + due) && Increasing(delivered) && forall x <- delivered :: x in collected
    requires |started| <= |due| && (started == due[..|started|] || started == [due[|due| - 1]])
    ensures Increasing(delivered + started)
  {
    var all, out := collected + due, delivered + started;
    forall i, j | 0 <= i < j < |out| ensures out[i] < out[j] {
      if i < |delivered| <= j {
        assert delivered[i] in delivered;
        var k :| 0 <= k < |collected| && collected[k] == delivered[i];
        var m := if started == due[..|started|] then j - |delivered| else |due| - 1;
        assert all[k] == out[i] && all[|collected| + m] == out[j];
      } else if |delivered| <= i {
        assert all[|collected| + i - |delivered|] == out[i];
        assert all[|collected| + j - |delivered|] == out[j];
      }
    }
  }

  /** An idle source with an empty backlog starts some of the due runs and queues a part. */
  lemma StartedKeepsBacklog(c: Config, w: World, w': World, due: seq<int>, started: seq<int>)
    requires BacklogFollows(c, w) && w.s.queued == [] && due != []
    requires Increasing(w.collected + due)
    requires |started| <= |due|
    requires started == due[..|started|] || (started == [due[|due| - 1]] && w'.s.queued == [])
    requires |started| + |w'.s.queued| <= |due| && (|w'.s.queued| > 0 ==> c.overlap == Queue)
    requires |w'.s.queued| <= c.maxQueued && IsSuffix(w'.s.queued, due)
    requires w'.collected == w.collected + due && w'.delivered == w.delivered + started
    requires w'.dropped == w.dropped + |due| - |started| - |w'.s.queued|
    ensures BacklogFollows(c, w')
  {
    DeliveredIncreases(w.collected, w.delivered, due, started);
    StartedCollected(w.collected, w.delivered, due, started);
    SuffixOfLonger(w'.s.queued, w.collected, due);
    if w'.s.queued != [] {
      LastBeforeQueue(w, w', due, started);
    }
    if w'.dropped == 0 {
      assert w.delivered + [] == w.delivered;
      NothingDropped(w.collected, due, started, w'.s.queued);
    }
  }

  lemma StartedCollected(collected: seq<int>, delivered: seq<int>, due: seq<int>, started: seq<int>)
    requires due != [] && |started| <= |due| && (started == due[..|started|] || started == [due[|due| - 1]])
    requires forall x <- delivered :: x in collected
    ensures forall x <- delivered + started :: x in collected + due
  {
    forall x | x in started ensures x in due {
      var i :| 0 <= i < |started| && started[i] == x;
    }
  }

  lemma SuffixOfLonger(q: seq<int>, xs: seq<int>, due: seq<int>)
    requires IsSuffix(q, due)
    ensures IsSuffix(q, xs + due)
  {
  }

  lemma NothingDropped(collected: seq<int>, due: seq<int>, started: seq<int>, queued: seq<int>)
    requires |started| + |queued| == |due| && IsSuffix(queued, due) && due != []
    requires started == due[..|started|] || (started == [due[|due| - 1]] && queued == [])
    ensures collected + due == collected + started + queued
  {
    assert started == due[..|started|];
    assert started + queued == due;
  }

  lemma LastBeforeQueue(w: World, w': World, due: seq<int>, started: seq<int>)
    requires Increasing(w.collected + due) && (forall x <- w.delivered :: x in w.collected)
    requires |started| + |w'.s.queued| <= |due| && started == due[..|started|]
    requires IsSuffix(w'.s.queued, due) && w'.s.queued != []
    requires w'.delivered == w.delivered + started
    ensures w'.delivered != [] ==> Last(w'.delivered) < w'.s.queued[0]
  {
    var all := w.collected + due;
    assert w'.s.queued[0] == all[|all| - |w'.s.queued|];
    if started != [] {
      assert Last(w'.delivered) == all[|w.collected| + |started| - 1];
    } else if w.delivered != [] {
      assert Last(w.delivered) in w.collected;
      var k :| 0 <= k < |w.collected| && w.collected[k] == Last(w.delivered);
      assert all[k] == Last(w'.delivered);
    }
  }

  lemma DeliveredGoesOn(collected: seq<int>, delivered: seq<int>, k: nat)
    requires Increasing(delivered) && k < |collected| && (delivered != [] ==> Last(delivered) < collected[k])
    ensures Increasing(delivered + [collected[k]])
  {
    forall i | 0 <= i < |delivered| ensures delivered[i] < collected[k] {
      assert delivered[i] <= Last(delivered);
    }
  }

  lemma ResumedKeepsBacklog(c: Config, w: World, w': World)
    requires BacklogFollows(c, w) && c.overlap == Queue && w.s.queued != [] && Increasing(w.collected)
    requires w'.collected == w.collected && w'.dropped == w.dropped
    requires w'.s.queued == w.s.queued[1..] && w'.delivered == w.delivered + [w.s.queued[0]]
    ensures BacklogFollows(c, w')
  {
    OldestQueued(c, w.collected, w.s.queued);
    OldestDelivered(w.collected, w.delivered, w.s.queued);
    if w.dropped == 0 {
      OldestMoves(w.delivered, w.s.queued);
    }
  }

  lemma OldestQueued(c: Config, collected: seq<int>, queued: seq<int>)
    requires queued != [] && QueueFollows(c, collected, queued) && Increasing(collected)
    ensures QueueFollows(c, collected, queued[1..]) && (queued[1..] != [] ==> queued[0] < queued[1..][0])
  {
    OldestLeaves(collected, queued);
  }

  lemma OldestDelivered(collected: seq<int>, delivered: seq<int>, queued: seq<int>)
    requires queued != [] && IsSuffix(queued, collected) && Increasing(collected) && Increasing(delivered)
    requires (forall x <- delivered :: x in collected) && (delivered != [] ==> Last(delivered) < queued[0])
    ensures DeliveredFollows(collected, delivered + [queued[0]]) && Last(delivered + [queued[0]]) == queued[0]
  {
    OldestLeaves(collected, queued);
    DeliveredGoesOn(collected, delivered, |collected| - |queued|);
    assert forall x <- delivered + [queued[0]] :: x in delivered || x == queued[0];
  }

  lemma OldestMoves(delivered: seq<int>, queued: seq<int>)
    requires queued != []
    ensures delivered + queued == (delivered + [queued[0]]) + queued[1..]
  {
    Regroup(delivered, [queued[0]], queued[1..]);
    assert [queued[0]] + queued[1..] == queued;
  }

  /** The oldest run of a backlog is collected, and the others are still the newest part. */
  lemma OldestLeaves(collected: seq<int>, queued: seq<int>)
    requires queued != [] && IsSuffix(queued, collected) && Increasing(collected)
    ensures queued[0] == collected[|collected| - |queued|] && queued[0] in collected && IsSuffix(queued[1..], collected)
    ensures |queued| > 1 ==> queued[0] < queued[1]
  {
    var k := |collected| - |queued|;
    assert collected[k..][1..] == collected[k + 1..];
    assert |queued| > 1 ==> queued[1] == collected[k + 1];
  }

  /** The cursor moves past `runs`, the next stretch of the chain. */
  lemma CursorAdvances(c: Config, w: World, w': World, runs: seq<int>, cursor: int)
    requires ValidConfig(c) && CursorFollows(c, w) && w.s.nextFireAt.Some? && Chain(c.next, runs)
    requires runs != [] ==> runs[0] == w.s.nextFireAt.value
    requires Some(cursor) == if runs == [] then w.s.nextFireAt else c.next(Last(runs))
    requires w'.start == w.start && w'.broken == w.broken && w'.s.initialized == w.s.initialized
    requires w'.s.nextFireAt == Some(cursor) && w'.collected == w.collected + runs
    ensures CursorFollows(c, w') && Chain(c.next, w.collected + runs) && Increasing(w.collected + runs)
  {
    assert runs != [] ==> c.next(runs[0]).Some?;
    if runs == [] {
      assert w'.collected == w.collected;
    } else {
      assert Last(w'.collected) == Last(runs);
    }
    ChainAppend(c.next, w.collected, runs);
    ChainIncreases(c, w.collected + runs);
  }

  /** The due runs of one collection go where the policy says. */
  lemma DueKeepsBacklog(c: Config, w: World, w': World, s1: State, due: seq<int>, limit: nat)
    requires ValidConfig(c) && limit >= 1 && BacklogFollows(c, w) && Increasing(w.collected + due)
    requires c.overlap == Queue && w.s.inflight == 0 ==> w.s.queued == []
    requires s1.queued == w.s.queued && s1.inflight == w.s.inflight
    requires w'.s.queued == Backlog(c, s1, due, limit)
    requires w'.collected == w.collected + due && w'.delivered == w.delivered + Started(c, s1, due, limit)
    requires w'.dropped == w.dropped + |w.s.queued| + |due| - |Started(c, s1, due, limit)| - |w'.s.queued|
    ensures BacklogFollows(c, w')
  {
    if due == [] {
      assert w'.collected == w.collected && w'.delivered == w.delivered && w'.s.queued == w.s.queued;
    } else if w.s.inflight > 0 && c.overlap != Allow {
      assert w'.delivered == w.delivered;
      if c.overlap == Queue {
        QueuedKeepsBacklog(c, w, w', due);
      } else {
        NothingDelivered(c, w, w', due);
      }
    } else {
      IdleSplitsDue(c, s1, due, limit);
      StartedKeepsBacklog(c, w, w', due, Started(c, s1, due, limit));
    }
  }

  /** An idle source starts a prefix or the last of the due runs, and queues only under
      `queue`. */
  lemma IdleSplitsDue(c: Config, s: State, due: seq<int>, limit: nat)
    requires due != [] && limit >= 1 && s.queued == [] && (s.inflight == 0 || c.overlap == Allow)
    ensures var started, queued := Started(c, s, due, limit), Backlog(c, s, due, limit);
      && |started| <= |due|
      && (started == due[..|started|] || (started == [due[|due| - 1]] && queued == []))
      && |started| + |queued| <= |due| && (|queued| > 0 ==> c.overlap == Queue)
      && |queued| <= c.maxQueued && IsSuffix(queued, due)
  {
    if c.overlap == Queue && |due| > 1 {
      assert s.queued + due[1..] == due[1..];
      assert |due[1..]| == |due| - 1;
    }
  }

  lemma NothingDelivered(c: Config, w: World, w': World, due: seq<int>)
    requires BacklogFollows(c, w) && c.overlap != Queue && due != []
    requires w'.s.queued == [] && w'.collected == w.collected + due && w'.delivered == w.delivered
    requires w'.dropped == w.dropped + |due|
    ensures BacklogFollows(c, w')
  {
    assert forall x :: x in w.collected ==> x in w'.collected;
  }

  /** A step that leaves cursor, backlog and record alone keeps both. */
  lemma QuietKeeps(c: Config, w: World, w': World)
    requires CursorFollows(c, w) && BacklogFollows(c, w)
    requires w'.s.queued == w.s.queued && w'.s.nextFireAt == w.s.nextFireAt && w'.s.initialized == w.s.initialized
    requires w'.start == w.start && w'.collected == w.collected && w'.delivered == w.delivered
    requires w'.dropped == w.dropped && w'.broken == w.broken
    ensures CursorFollows(c, w') && BacklogFollows(c, w')
  {
  }

  lemma DueKeeps(c: Config, w: World, now: int, limit: nat)
    requires ValidConfig(c) && limit >= 1 && CursorFollows(c, w) && BacklogFollows(c, w)
    requires w.s.nextFireAt.Some? && FetchScheduled(c, w.s, now, limit).1.Due?
    ensures var (s', outcome) := FetchScheduled(c, w.s, now, limit); var w' := Recorded(c, w, s', outcome);
      CursorFollows(c, w') && BacklogFollows(c, w')
  {
    var found := Collect(c.next, w.s.nextFireAt.value, now, MAX_DUE);
    ScheduledIsDue(c, w.s, now, limit);
    CollectFinds(c, w.s.nextFireAt.value, now, MAX_DUE);
    FoundKeeps(c, w, w.s.(nextFireAt := Some(found.cursor)), found.runs, found.cursor, limit);
  }

  lemma ScheduledIsDue(c: Config, s: State, now: int, limit: nat)
    requires s.nextFireAt.Some? && FetchScheduled(c, s, now, limit).1.Due?
    ensures !(c.overlap == Queue && s.inflight == 0 && s.queued != [])
    ensures var found := Collect(c.next, s.nextFireAt.value, now, MAX_DUE);
      var s1 := s.(nextFireAt := Some(found.cursor));
      && !found.raised
      && FetchScheduled(c, s, now, limit)
         == (HandleDue(c, s1, found.runs, limit), Due(found.runs, Fresh(Started(c, s1, found.runs, limit), s1.sequence)))
  {
  }

  lemma FoundKeeps(c: Config, w: World, s1: State, runs: seq<int>, cursor: int, limit: nat)
    requires ValidConfig(c) && limit >= 1 && CursorFollows(c, w) && BacklogFollows(c, w) && w.s.nextFireAt.Some?
    requires !(c.overlap == Queue && w.s.inflight == 0 && w.s.queued != [])
    requires s1 == w.s.(nextFireAt := Some(cursor)) && Chain(c.next, runs)
    requires runs != [] ==> runs[0] == w.s.nextFireAt.value
    requires Some(cursor) == if runs == [] then w.s.nextFireAt else c.next(Last(runs))
    ensures var w' := Recorded(c, w, HandleDue(c, s1, runs, limit), Due(runs, Fresh(Started(c, s1, runs, limit), s1.sequence)));
      CursorFollows(c, w') && BacklogFollows(c, w')
  {
    var w' := Recorded(c, w, HandleDue(c, s1, runs, limit), Due(runs, Fresh(Started(c, s1, runs, limit), s1.sequence)));
    DueRecorded(c, w, s1, runs, limit);
    CursorAdvances(c, w, w', runs, cursor);
    DueKeepsBacklog(c, w, w', s1, runs, limit);
  }

  /** What handling due runs adds to the record. */
  lemma DueRecorded(c: Config, w: World, s1: State, due: seq<int>, limit: nat)
    ensures var started := Started(c, s1, due, limit);
      var w' := Recorded(c, w, HandleDue(c, s1, due, limit), Due(due, Fresh(started, s1.sequence)));
      && w'.delivered == w.delivered + started && w'.collected == w.collected + due
      && w'.dropped == w.dropped + |w.s.queued| + |due| - |started| - |w'.s.queued|
  {
    var outcome := Due(due, Fresh(Started(c, s1, due, limit), s1.sequence));
    assert FreshTimes(outcome, 0) == Started(c, s1, due, limit);
  }

  /** A raising search loses the runs just found and leaves the cursor where it failed. */
  lemma RaisedKeeps(c: Config, w: World, now: int, limit: nat)
    requires ValidConfig(c) && CursorFollows(c, w) && BacklogFollows(c, w)
    requires w.s.nextFireAt.Some? && FetchScheduled(c, w.s, now, limit).1.Raised?
    ensures var (s', outcome) := FetchScheduled(c, w.s, now, limit); var w' := Recorded(c, w, s', outcome);
      CursorFollows(c, w') && BacklogFollows(c, w')
  {
    CollectFinds(c, w.s.nextFireAt.value, now, MAX_DUE);
  }

  lemma FetchScheduledKeeps(c: Config, w: World, now: int, limit: nat)
    requires ValidConfig(c) && limit >= 1 && CursorFollows(c, w) && BacklogFollows(c, w)
    requires w.s.nextFireAt.Some?
    ensures var (s', outcome) := FetchScheduled(c, w.s, now, limit); var w' := Recorded(c, w, s', outcome);
      CursorFollows(c, w') && BacklogFollows(c, w')
  {
    var (s', outcome) := FetchScheduled(c, w.s, now, limit);
    if outcome.Resumed? {
      ChainIncreases(c, w.collected);
      ResumedKeepsBacklog(c, w, Recorded(c, w, s', outcome));
    } else if outcome.Due? {
      DueKeeps(c, w, now, limit);
    } else {
      RaisedKeeps(c, w, now, limit);
    }
  }

  lemma OpenedKeeps(c: Config, w: World, now: int)
    requires CursorFollows(c, w) && BacklogFollows(c, w)
    ensures CursorFollows(c, Opened(w, Open(c, w.s, now).0)) && BacklogFollows(c, Opened(w, Open(c, w.s, now).0))
  {
  }

  /** An immediate run goes straight out: nothing precedes it. */
  lemma ImmediateIsFirst(c: Config, s: State, now: int, limit: nat)
    requires s.queued == [] && s.inflight == 0 && limit >= 1
    ensures Started(c, s, [now], limit) == [now] && Backlog(c, s, [now], limit) == []
  {
  }

  /** Retries and immediate runs leave cursor and backlog alone. */
  lemma OpenedIsQuiet(c: Config, s: State, now: int, limit: nat)
    requires limit >= 1 && (s.pendingImmediate ==> s.queued == [] && s.inflight == 0)
    requires ReadyCount(s.retries, now, limit) > 0 || s.pendingImmediate
    ensures var (s', outcome) := FetchOpened(c, s, now, limit);
      && (outcome.Retried? || outcome.Immediate?)
      && s'.queued == s.queued && s'.nextFireAt == s.nextFireAt && s'.initialized == s.initialized
  {
    if ReadyCount(s.retries, now, limit) == 0 {
      ImmediateIsFirst(c, s, now, limit);
      ImmediateIsFirst(c, s.(pendingImmediate := false), now, limit);
    }
  }

  lemma OpenedIsScheduled(c: Config, s: State, now: int, limit: nat)
    requires ReadyCount(s.retries, now, limit) == 0 && !s.pendingImmediate
    ensures FetchOpened(c, s, now, limit) == FetchScheduled(c, s, now, limit)
  {
  }

  lemma QuietRecord(c: Config, w: World, s': State, outcome: Outcome)
    requires CursorFollows(c, w) && BacklogFollows(c, w) && (outcome.Retried? || outcome.Immediate?)
    requires s'.queued == w.s.queued && s'.nextFireAt == w.s.nextFireAt && s'.initialized == w.s.initialized
    ensures CursorFollows(c, Recorded(c, w, s', outcome)) && BacklogFollows(c, Recorded(c, w, s', outcome))
  {
    QuietKeeps(c, w, Recorded(c, w, s', outcome));
  }

  lemma FetchOpenedKeeps(c: Config, w: World, now: int, limit: nat)
    requires ValidConfig(c) && limit >= 1 && CursorFollows(c, w) && BacklogFollows(c, w)
    requires w.s.nextFireAt.Some? && (w.s.pendingImmediate ==> w.s.queued == [] && w.s.inflight == 0)
    ensures var (s', outcome) := FetchOpened(c, w.s, now, limit); var w' := Recorded(c, w, s', outcome);
      CursorFollows(c, w') && BacklogFollows(c, w')
  {
    if ReadyCount(w.s.retries, now, limit) > 0 || w.s.pendingImmediate {
      OpenedIsQuiet(c, w.s, now, limit);
      QuietRecord(c, w, FetchOpened(c, w.s, now, limit).0, FetchOpened(c, w.s, now, limit).1);
    } else {
      OpenedIsScheduled(c, w.s, now, limit);
      FetchScheduledKeeps(c, w, now, limit);
    }
  }

  lemma FetchingStep(c: Config, w: World, openedAt: int, now: int, limit: int)
    ensures var (s1, ok) := Open(c, w.s, openedAt);
      var m := if limit < 1 then 1 else limit;
      var (s', outcome) := if ok then FetchOpened(c, s1, now, m) else (s1, Raised);
      Step(c, w, Fetching(openedAt, now, limit)) == Recorded(c, Opened(w, s1), s', outcome)
  {
  }

  /** An opened source has its cursor set, and an immediate run precedes everything. */
  lemma OpenIsReady(c: Config, w: World, openedAt: int)
    requires (w.s.initialized <==> w.s.nextFireAt.Some?) && Open(c, w.s, openedAt).1
    requires w.s.pendingImmediate ==> w.s.queued == [] && w.s.inflight == 0
    ensures var w1 := Opened(w, Open(c, w.s, openedAt).0);
      w1.s == Open(c, w.s, openedAt).0 && w1.s.nextFireAt.Some?
      && (w1.s.pendingImmediate ==> w1.s.queued == [] && w1.s.inflight == 0)
  {
  }

  lemma OpenFetchKeeps(c: Config, w: World, w1: World, openedAt: int, now: int, m: nat)
    requires ValidConfig(c) && Conserved(w) && CursorFollows(c, w) && BacklogFollows(c, w) && m >= 1
    requires Open(c, w.s, openedAt).1 && w1 == Opened(w, Open(c, w.s, openedAt).0)
    ensures var (s', outcome) := FetchOpened(c, w1.s, now, m); var w' := Recorded(c, w1, s', outcome);
      w1.s == Open(c, w.s, openedAt).0 && CursorFollows(c, w') && BacklogFollows(c, w')
  {
    OpenedKeeps(c, w, openedAt);
    OpenIsReady(c, w, openedAt);
    FetchOpenedKeeps(c, w1, now, m);
  }

  lemma FetchKeeps(c: Config, w: World, w': World, openedAt: int, now: int, m: nat)
    requires ValidConfig(c) && Conserved(w) && CursorFollows(c, w) && BacklogFollows(c, w) && m >= 1
    requires var (s1, ok) := Open(c, w.s, openedAt);
      var (s', outcome) := if ok then FetchOpened(c, s1, now, m) else (s1, Raised);
      w' == Recorded(c, Opened(w, s1), s', outcome)
    ensures CursorFollows(c, w') && BacklogFollows(c, w')
  {
    var (s1, ok) := Open(c, w.s, openedAt);
    if ok {
      OpenFetchKeeps(c, w, Opened(w, s1), openedAt, now, m);
    } else {
      QuietKeeps(c, w, w');
    }
  }

  lemma ResumeKeeps(c: Config, w: World, now: int)
    requires CursorFollows(c, w) && BacklogFollows(c, w)
    ensures var w' := Step(c, w, ResumeFromPause(now)); CursorFollows(c, w') && BacklogFollows(c, w')
  {
    NothingYet(c, Step(c, w, ResumeFromPause(now)));
  }

  lemma NothingYet(c: Config, w: World)
    requires w.collected == [] && w.delivered == [] && w.s.queued == [] && w.dropped == 0
    ensures BacklogFollows(c, w)
  {
  }

  /** Settling a delivery touches neither cursor nor backlog. */
  lemma SettledKeeps(c: Config, w: World, e: Event)
    requires CursorFollows(c, w) && BacklogFollows(c, w) && Enabled(w, e)
    requires e.Ack? || e.Fail? || e.RetryLater?
    ensures CursorFollows(c, Step(c, w, e)) && BacklogFollows(c, Step(c, w, e))
  {
    QuietKeeps(c, w, Step(c, w, e));
  }

  lemma StepKeeps(c: Config, w: World, e: Event)
    requires ValidConfig(c) && Conserved(w) && CursorFollows(c, w) && BacklogFollows(c, w)
    requires Enabled(w, e)
    ensures CursorFollows(c, Step(c, w, e)) && BacklogFollows(c, Step(c, w, e))
  {
    match e
    case Opening(now) => OpenedKeeps(c, w, now);
    case Fetching(openedAt, now, limit) =>
      FetchingStep(c, w, openedAt, now, limit);
      FetchKeeps(c, w, Step(c, w, e), openedAt, now, if limit < 1 then 1 else limit);
    case ResumeFromPause(now) => ResumeKeeps(c, w, now);
    case _ => SettledKeeps(c, w, e);
  }

  /** In every run, the cursor and the backlog follow the collected times. */
  lemma AlwaysFollows(c: Config, es: seq<Event>)
    requires ValidConfig(c)
    ensures var w := After(c, es); w.Some? ==> CursorFollows(c, w.value) && BacklogFollows(c, w.value)
  {
    var inv := w => Conserved(w) && CursorFollows(c, w) && BacklogFollows(c, w);
    forall w, e | inv(w) && Enabled(w, e) ensures inv(Step(c, w, e)) {
      StepConserves(c, w, e);
      StepKeeps(c, w, e);
    }
    RunKeeps(c, inv, es);
  }

  /** The outcome is one fresh run started with nothing in flight, or hands out none. */
  predicate StartsIdle(s: State, outcome: Outcome) {
    !outcome.Retried? && outcome.Deliveries() != [] ==> s.inflight == 0 && |outcome.Deliveries()| == 1
  }

  lemma ScheduledStartsIdle(c: Config, s: State, now: int, limit: nat)
    requires c.overlap != Allow
    ensures StartsIdle(s, FetchScheduled(c, s, now, limit).1)
  {
  }

  lemma OpenedStartsIdle(c: Config, s: State, now: int, limit: nat)
    requires c.overlap != Allow
    ensures StartsIdle(s, FetchOpened(c, s, now, limit).1)
  {
    if ReadyCount(s.retries, now, limit) == 0 {
      if s.pendingImmediate {
        var s' := HandleDue(c, s.(pendingImmediate := false), [now], limit);
        if Started(c, s, [now], limit) == [] {
          ScheduledStartsIdle(c, s', now, limit);
        } else {
          assert s.inflight == 0;
        }
      } else {
        ScheduledStartsIdle(c, s, now, limit);
      }
    }
  }

  /** Outside `allow`, a fresh run starts only when nothing is in flight, and alone. */
  lemma FreshOnlyWhenIdle(c: Config, w: World, openedAt: int, now: int, limit: int)
    requires Conserved(w) && c.overlap != Allow
    ensures var outcome := Fetch(c, w.s, openedAt, now, limit).1;
      !outcome.Retried? && outcome.Deliveries() != [] ==> w.outstanding == [] && |outcome.Deliveries()| == 1
  {
    OpenedStartsIdle(c, Open(c, w.s, openedAt).0, now, if limit < 1 then 1 else limit);
  }

  /** A fetch passes over due runs only for its policy's reason: `allow` has filled the
      limit, `skip` is busy or has started the newest run, `queue` has a full backlog. */
  lemma DropsHaveAReason(c: Config, w: World, w': World, openedAt: int, now: int, limit: int)
    requires Conserved(w) && BacklogFollows(c, w)
    requires w' == Step(c, w, Fetching(openedAt, now, limit))
    ensures w'.dropped > w.dropped ==> DropReason(c, w, w', if limit < 1 then 1 else limit)
  {
    FetchingStep(c, w, openedAt, now, limit);
    var (s1, ok) := Open(c, w.s, openedAt);
    var m := if limit < 1 then 1 else limit;
    if ok {
      RecordedDrops(c, Opened(w, s1), now, m);
      var (s', outcome) := FetchOpened(c, s1, now, m);
      assert w' == Recorded(c, Opened(w, s1), s', outcome);
    }
  }

  ghost predicate DropReason(c: Config, w: World, w': World, limit: nat) {
    match c.overlap
    case Allow => |w'.delivered| == |w.delivered| + limit
    case Skip => w.outstanding != []
              || (w'.delivered != [] && w'.collected != [] && Last(w'.delivered) == Last(w'.collected))
    case Queue => |w'.s.queued| == c.maxQueued
  }

  lemma RecordedDrops(c: Config, w: World, now: int, limit: nat)
    requires limit >= 1 && w.s.inflight == |w.outstanding|
    requires w.s.pendingImmediate ==> w.s.queued == [] && w.s.inflight == 0
    ensures var (s', outcome) := FetchOpened(c, w.s, now, limit); var w' := Recorded(c, w, s', outcome);
      w'.dropped > w.dropped ==> DropReason(c, w, w', limit)
  {
    var (s', outcome) := FetchOpened(c, w.s, now, limit);
    if outcome.Due? {
      DueDrops(c, w.s, now, limit);
      assert FreshTimes(outcome, 0) == Started(c, w.s, outcome.runs, limit);
    }
  }

  /** Runs go missing only as the overlap policy says. */
  predicate Missing(c: Config, s: State, due: seq<int>, limit: nat, started: seq<int>, queued: seq<int>) {
    |s.queued| + |due| > |started| + |queued| ==>
      match c.overlap
      case Allow => |started| == limit
      case Skip => s.inflight > 0 || (due != [] && started == [Last(due)])
      case Queue => |queued| == c.maxQueued
  }

  lemma HandlingDrops(c: Config, s: State, due: seq<int>, limit: nat)
    requires limit >= 1
    ensures Missing(c, s, due, limit, Started(c, s, due, limit), Backlog(c, s, due, limit))
  {
  }

  lemma ScheduledDrops(c: Config, s: State, now: int, limit: nat)
    requires limit >= 1 && FetchScheduled(c, s, now, limit).1.Due?
    ensures var (s', outcome) := FetchScheduled(c, s, now, limit);
      var started := Started(c, s, outcome.runs, limit);
      outcome.started == Fresh(started, s.sequence) && Missing(c, s, outcome.runs, limit, started, s'.queued)
  {
    if s.nextFireAt.Some? {
      var found := Collect(c.next, s.nextFireAt.value, now, MAX_DUE);
      HandlingDrops(c, s.(nextFireAt := Some(found.cursor)), found.runs, limit);
    }
  }

  lemma DueDrops(c: Config, s: State, now: int, limit: nat)
    requires limit >= 1 && FetchOpened(c, s, now, limit).1.Due?
    requires s.pendingImmediate ==> s.queued == [] && s.inflight == 0
    ensures var (s', outcome) := FetchOpened(c, s, now, limit);
      var started := Started(c, s, outcome.runs, limit);
      outcome.started == Fresh(started, s.sequence) && Missing(c, s, outcome.runs, limit, started, s'.queued)
  {
    if s.pendingImmediate {
      ImmediateIsFirst(c, s, now, limit);
    }
    ScheduledDrops(c, s, now, limit);
  }

  /** A run without a successor never leaves the source, whatever happens. */
  lemma RunWithoutSuccessorLost(c: Config, es: seq<Event>, at: int)
    requires ValidConfig(c) && c.next(at).None?
    ensures var w := After(c, es); w.Some? ==> at !in w.value.delivered
  {
    AlwaysFollows(c, es);
  }

  /** One fetch collects at most 1000 due runs, and fewer only if none is left that is due. */
  lemma AtMostThousand(c: Config, w: World, openedAt: int, now: int, limit: int)
    requires ValidConfig(c) && Fetch(c, w.s, openedAt, now, limit).1.Due?
    ensures var (s', outcome) := Fetch(c, w.s, openedAt, now, limit);
      && |outcome.runs| <= 1000 && (forall x <- outcome.runs :: x <= now)
      && (|outcome.runs| < 1000 && s'.nextFireAt.Some? ==> s'.nextFireAt.value > now)
  {
    OpenedCollects(c, Open(c, w.s, openedAt).0, now, if limit < 1 then 1 else limit);
  }

  lemma OpenedCollects(c: Config, s: State, now: int, limit: nat)
    requires ValidConfig(c) && FetchOpened(c, s, now, limit).1.Due?
    ensures var (s', outcome) := FetchOpened(c, s, now, limit);
      && |outcome.runs| <= 1000 && (forall x <- outcome.runs :: x <= now)
      && (|outcome.runs| < 1000 && s'.nextFireAt.Some? ==> s'.nextFireAt.value > now)
  {
    if s.pendingImmediate {
      ScheduledCollects(c, HandleDue(c, s.(pendingImmediate := false), [now], limit), now, limit);
    } else {
      ScheduledCollects(c, s, now, limit);
    }
  }

  lemma ScheduledCollects(c: Config, s: State, now: int, limit: nat)
    requires ValidConfig(c) && FetchScheduled(c, s, now, limit).1.Due?
    ensures var (s', outcome) := FetchScheduled(c, s, now, limit);
      && |outcome.runs| <= 1000 && (forall x <- outcome.runs :: x <= now)
      && (|outcome.runs| < 1000 && s'.nextFireAt.Some? ==> s'.nextFireAt.value > now)
  {
    if s.nextFireAt.Some? {
      CollectFinds(c, s.nextFireAt.value, now, MAX_DUE);
    }
  }
}
