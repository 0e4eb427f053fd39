/** The schedule source itself: one object whose fields each call updates, proved to
    follow the rules of `Schedule`. */
module ScheduleSource {
  import opened Wrappers
  import opened Schedule

  function Prepend(runs: seq<int>, c: Collected): Collected { c.(runs := runs + c.runs) }

  lemma PrependOne(runs: seq<int>, at: int, c: Collected)
    ensures Prepend(runs, Prepend([at], c)) == Prepend(runs + [at], c)
  {
    assert runs + ([at] + c.runs) == (runs + [at]) + c.runs;
  }

  lemma NothingHandled(c: Config, s: State, due: seq<int>, limit: nat)
    requires due == [] || limit < 1
    ensures HandleDue(c, s, due, limit) == s && Started(c, s, due, limit) == []
  {
  }

  /** Without `queue` the backlog plays no part. */
  lemma HandledUnqueued(c: Config, s: State, due: seq<int>, limit: nat)
    requires c.overlap != Queue
    ensures HandleDue(c, s, due, limit) == Issue(s, Started(c, s, due, limit))
  {
  }

  lemma HandledQueued(c: Config, s: State, due: seq<int>, limit: nat)
    requires c.overlap == Queue && due != [] && limit >= 1
    ensures s.inflight > 0 ==>
      Started(c, s, due, limit) == [] && HandleDue(c, s, due, limit) == s.(queued := Newest(s.queued + due, c.maxQueued))
    ensures s.inflight == 0 ==>
      && Started(c, s, due, limit) == [due[0]]
      && HandleDue(c, s, due, limit) == Issue(s, [due[0]]).(
           queued := if |due| > 1 then Newest(s.queued + due[1..], c.maxQueued) else s.queued)
  {
  }

  class Source {
    const config: Config
    var initialized: bool
    var pendingImmediate: bool
    var nextFireAt: Option<int>
    var inflight: nat
    var sequence: nat
    var queuedRuns: seq<int>
    var retryHeap: seq<Retry>
    var retrySequence: nat

    function Abs(): State
      reads this
    {
      State(initialized, pendingImmediate, nextFireAt, inflight, sequence, queuedRuns, retryHeap, retrySequence)
    }

    constructor (config: Config)
      ensures this.config == config && Abs() == Initial(config)
    {
      this.config := config;
      initialized, pendingImmediate, nextFireAt := false, config.immediate, None;
      inflight, sequence, queuedRuns := 0, 0, [];
      retryHeap, retrySequence := [], 0;
    }

    /** `open`; false where the first search raises. */
    method Open(now: int) returns (ok: bool)
      modifies this
      ensures (Abs(), ok) == Schedule.Open(config, old(Abs()), now)
    {
      ok := true;
      if !initialized {
        var at := config.first(now);
        if at.None? {
          return false;
        }
        nextFireAt := at;
        initialized := true;
      }
    }

    method ResumeAfterPause(now: int) returns (ok: bool)
      modifies this
      ensures (Abs(), ok) == Schedule.ResumeAfterPause(config, old(Abs()), now)
    {
      pendingImmediate := false;
      queuedRuns := [];
      var at := config.first(now);
      if at.None? {
        return false;
      }
      nextFireAt := at;
      initialized := true;
      ok := true;
    }

    /** The deliveries of one fetch; None where a search raises. */
    method Fetch(openedAt: int, now: int, limit: int) returns (deliveries: Option<seq<Envelope>>)
      modifies this
      ensures var (s', outcome) := Schedule.Fetch(config, old(Abs()), openedAt, now, limit);
        && Abs() == s'
        && deliveries == (if outcome.Raised? then None else Some(outcome.Deliveries()))
    {
      var ok := Open(openedAt);
      if ok {
        deliveries := FetchLocked(now, if limit < 1 then 1 else limit);
      } else {
        deliveries := None;
      }
    }

    /** The part of a fetch that follows the opening. */
    method FetchLocked(now: int, limit: nat) returns (deliveries: Option<seq<Envelope>>)
      modifies this
      ensures var (s', outcome) := FetchOpened(config, old(Abs()), now, limit);
        && Abs() == s'
        && deliveries == (if outcome.Raised? then None else Some(outcome.Deliveries()))
    {
      var retried := DrainRetry(now, limit);
      if retried != [] {
        return Some(retried);
      }
      assert Abs() == old(Abs());
      deliveries := FetchFresh(now, limit);
    }

    /** What a fetch does when no retry is ready. */
    method FetchFresh(now: int, limit: nat) returns (deliveries: Option<seq<Envelope>>)
      requires ReadyCount(retryHeap, now, limit) == 0
      modifies this
      ensures var (s', outcome) := FetchOpened(config, old(Abs()), now, limit);
        && Abs() == s'
        && deliveries == (if outcome.Raised? then None else Some(outcome.Deliveries()))
    {
      if pendingImmediate {
        pendingImmediate := false;
        var immediate := HandleDueRuns([now], limit);
        if immediate != [] {
          assert immediate == [Envelope(now, old(sequence), 0)];
          return Some(immediate);
        }
      }
      deliveries := FetchNextScheduled(now, limit);
    }

    method FetchNextScheduled(now: int, limit: nat) returns (deliveries: Option<seq<Envelope>>)
      modifies this
      ensures var (s', outcome) := FetchScheduled(config, old(Abs()), now, limit);
        && Abs() == s'
        && deliveries == (if outcome.Raised? then None else Some(outcome.Deliveries()))
    {
      if config.overlap == Queue && inflight == 0 && queuedRuns != [] {
        var at := queuedRuns[0];
        queuedRuns := queuedRuns[1..];
        var run := MakeDelivery(at);
        return Some([run]);
      }
      var due := CollectDueRuns(now, MAX_DUE);
      if due.None? {
        return None;
      }
      if due.value == [] {
        return Some([]);
      }
      var started := HandleDueRuns(due.value, limit);
      return Some(started);
    }

    method DrainRetry(now: int, limit: nat) returns (deliveries: seq<Envelope>)
      modifies this`retryHeap, this`inflight
      ensures var n := ReadyCount(old(retryHeap), now, limit);
        && Abs() == old(Abs()).(retries := old(retryHeap)[n..], inflight := old(inflight) + n)
        && deliveries == Envelopes(old(retryHeap)[..n])
    {
      deliveries := [];
      ghost var all, n := retryHeap, ReadyCount(retryHeap, now, limit);
      ghost var k := 0;
      while retryHeap != [] && |deliveries| < limit
        invariant |deliveries| == k <= n && inflight == old(inflight) + k
        invariant retryHeap == all[k..] && deliveries == Envelopes(all[..k])
        decreases |retryHeap|
      {
        var head := retryHeap[0];
        if head.readyAt > now {
          break;
        }
        retryHeap := retryHeap[1..];
        inflight := inflight + 1;
        deliveries := deliveries + [head.envelope];
        k := k + 1;
      }
    }

    /** The due runs, at most `maxDue`; None where the search for a successor raises. */
    method CollectDueRuns(now: int, maxDue: nat) returns (due: Option<seq<int>>)
      modifies this`nextFireAt
      ensures match old(nextFireAt)
        case None => due == Some([]) && nextFireAt.None?
        case Some(at) =>
          var found := Collect(config.next, at, now, maxDue);
          && nextFireAt == Some(found.cursor)
          && due == (if found.raised then None else Some(found.runs))
    {
      if nextFireAt.None? {
        return Some([]);
      }
      var runs := [];
      ghost var found := Collect(config.next, nextFireAt.value, now, maxDue);
      assert found == found.(runs := [] + found.runs);
      while nextFireAt.value <= now && |runs| < maxDue
        invariant nextFireAt.Some? && |runs| <= maxDue
        invariant found == Prepend(runs, Collect(config.next, nextFireAt.value, now, maxDue - |runs|))
        decreases maxDue - |runs|
      {
        var next := config.next(nextFireAt.value);
        if next.None? {
          return None;
        }
        PrependOne(runs, nextFireAt.value, Collect(config.next, next.value, now, maxDue - |runs| - 1));
        runs := runs + [nextFireAt.value];
        nextFireAt := next;
      }
      assert runs + [] == runs;
      return Some(runs);
    }

    method MakeDeliveries(runs: seq<int>) returns (deliveries: seq<Envelope>)
      modifies this
      ensures deliveries == Fresh(runs, old(sequence))
      ensures Abs() == Issue(old(Abs()), runs)
    {
      deliveries := [];
      for i := 0 to |runs|
        invariant deliveries == Fresh(runs[..i], old(sequence))
        invariant Abs() == Issue(old(Abs()), runs[..i])
      {
        var run := MakeDelivery(runs[i]);
        deliveries := deliveries + [run];
      }
      assert runs[..|runs|] == runs;
    }

    method HandleDueRuns(due: seq<int>, limit: nat) returns (deliveries: seq<Envelope>)
      modifies this
      ensures Abs() == HandleDue(config, old(Abs()), due, limit)
      ensures deliveries == Fresh(Started(config, old(Abs()), due, limit), old(sequence))
    {
      deliveries := [];
      if due == [] || limit < 1 {
        NothingHandled(config, Abs(), due, limit);
        return;
      }
      match config.overlap {
        case Allow =>
          HandledUnqueued(config, Abs(), due, limit);
          deliveries := MakeDeliveries(if |due| <= limit then due else due[..limit]);
        case Skip =>
          HandledUnqueued(config, Abs(), due, limit);
          if inflight == 0 {
            deliveries := StartOne(due[|due| - 1]);
          }
        case Queue =>
          HandledQueued(config, Abs(), due, limit);
          deliveries := StartOrQueue(due);
      }
    }

    /** The queue policy: a busy source queues all due runs, an idle one starts the first. */
    method StartOrQueue(due: seq<int>) returns (deliveries: seq<Envelope>)
      requires due != []
      modifies this
      ensures deliveries == if old(inflight) > 0 then [] else Fresh([due[0]], old(sequence))
      ensures Abs() == if old(inflight) > 0 then old(Abs()).(queued := Newest(old(queuedRuns) + due, config.maxQueued))
        else Issue(old(Abs()), [due[0]]).(
          queued := if |due| > 1 then Newest(old(queuedRuns) + due[1..], config.maxQueued) else old(queuedRuns))
    {
      if inflight > 0 {
        QueueRuns(due);
        return [];
      }
      deliveries := StartOne(due[0]);
      if |due| > 1 {
        QueueRuns(due[1..]);
      }
    }

    method StartOne(at: int) returns (deliveries: seq<Envelope>)
      modifies this`sequence, this`inflight
      ensures deliveries == Fresh([at], old(sequence))
      ensures sequence == old(sequence) + 1 && inflight == old(inflight) + 1
      ensures Abs() == Issue(old(Abs()), [at])
    {
      var run := MakeDelivery(at);
      return [run];
    }

    /** Appends to the backlog and drops its oldest runs beyond the bound. */
    method QueueRuns(runs: seq<int>)
      modifies this`queuedRuns
      ensures queuedRuns == Newest(old(queuedRuns) + runs, config.maxQueued)
    {
      queuedRuns := queuedRuns + runs;
      ghost var all := queuedRuns;
      var overflow := |queuedRuns| - config.maxQueued;
      var dropped := 0;
      while dropped < overflow
        invariant 0 <= dropped && (dropped <= overflow || dropped == 0)
        invariant dropped <= |all| && queuedRuns == all[dropped..]
      {
        queuedRuns := queuedRuns[1..];
        dropped := dropped + 1;
      }
    }

    method MakeDelivery(at: int) returns (run: Envelope)
      modifies this`sequence, this`inflight
      ensures run == Envelope(at, old(sequence), 0)
      ensures sequence == old(sequence) + 1 && inflight == old(inflight) + 1
    {
      run := Envelope(at, sequence, 0);
      sequence := sequence + 1;
      inflight := inflight + 1;
    }

    method FinishSuccess()
      modifies this
      ensures Abs() == Finish(old(Abs()))
    {
      inflight := Clamped(inflight - 1);
    }

    method FinishFailure()
      modifies this
      ensures Abs() == Finish(old(Abs()))
    {
      inflight := Clamped(inflight - 1);
    }

    method FinishRetry(e: Envelope, now: int, delay: Option<int>)
      modifies this
      ensures Abs() == Schedule.FinishRetry(old(Abs()), e, now, delay)
    {
      var wait := if delay.Some? && delay.value > 0 then delay.value else 0;
      inflight := Clamped(inflight - 1);
      retrySequence := retrySequence + 1;
      var entry := Retry(now + wait, retrySequence, e.(attempts := e.attempts + 1));
      assert entry == RetryOf(old(Abs()), e, now, delay);
      retryHeap := Push(retryHeap, entry);
    }
  }
}
