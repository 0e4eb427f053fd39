/** The scheduling rules of a schedule source, as functions on its state: when runs
    fall due, how each overlap policy treats them, the retry queue, and settlement.
    `ScheduleSource` carries them out step by step. */
module Schedule {
  import opened Wrappers

  datatype Overlap = Allow | Skip | Queue

  /** The settings a source is built with.  `first(now)` and `next(at)` are its fire
      functions; they yield None where the source's cron search raises. */
  datatype Config = Config(
    first: int -> Option<int>,
    next: int -> Option<int>,
    overlap: Overlap,
    maxQueued: nat,
    immediate: bool)

  /** What construction guarantees: room for one queued run, and later successors. */
  ghost predicate ValidConfig(c: Config) {
    c.maxQueued >= 1 && forall at :: c.next(at).Some? ==> at < c.next(at).value
  }

  /** A run as its handler sees it: scheduled time, number, and failed attempts. */
  datatype Envelope = Envelope(scheduledAt: int, number: nat, attempts: nat)

  datatype Retry = Retry(readyAt: int, order: nat, envelope: Envelope)

  datatype State = State(
    initialized: bool,
    pendingImmediate: bool,
    nextFireAt: Option<int>,
    inflight: nat,
    sequence: nat,
    queued: seq<int>,
    retries: seq<Retry>,      // the retry heap, least first
    retrySequence: nat)

  function Initial(c: Config): State {
    State(false, c.immediate, None, 0, 0, [], [], 0)
  }

  // ------------------------------------------------------------ retry queue

  /** Tuple order on the first two components; the envelope is never compared. */
  predicate Before(a: Retry, b: Retry) {
    a.readyAt < b.readyAt || (a.readyAt == b.readyAt && a.order < b.order)
  }

  function Push(retries: seq<Retry>, e: Retry): (r: seq<Retry>)
    ensures |r| == |retries| + 1
    ensures multiset(r) == multiset(retries) + multiset{e}
  {
    if retries == [] || Before(e, retries[0]) then [e] + retries
    else
      assert retries == [retries[0]] + retries[1..];
      [retries[0]] + Push(retries[1..], e)
  }

  /** How many of the least entries one batch takes: ready ones, up to `limit`. */
  function ReadyCount(retries: seq<Retry>, now: int, limit: nat): (n: nat)
    ensures n <= |retries| && n <= limit
    ensures forall i :: 0 <= i < n ==> retries[i].readyAt <= now
    ensures n < |retries| && n < limit ==> retries[n].readyAt > now
  {
    if retries == [] || limit == 0 || retries[0].readyAt > now then 0
    else 1 + ReadyCount(retries[1..], now, limit - 1)
  }

  function Envelopes(retries: seq<Retry>): seq<Envelope> {
    seq(|retries|, i requires 0 <= i < |retries| => retries[i].envelope)
  }

  // ---------------------------------------------------------------- due runs

  const MAX_DUE: nat := 1000

  /** What one collection finds: the due runs, the advanced cursor, and whether the
      search for a successor raised (then the runs found so far are lost). */
  datatype Collected = Collected(runs: seq<int>, cursor: int, raised: bool)

  function Collect(next: int -> Option<int>, at: int, now: int, max: nat): Collected
    decreases max
  {
    if at > now || max == 0 then Collected([], at, false)
    else
      match next(at)
      case None => Collected([], at, true)
      case Some(successor) =>
        var rest := Collect(next, successor, now, max - 1);
        rest.(runs := [at] + rest.runs)
  }

  /** Fresh deliveries for `runs`, numbered from `first`. */
  function Fresh(runs: seq<int>, first: nat): (es: seq<Envelope>)
    ensures |es| == |runs|
  {
    seq(|runs|, i requires 0 <= i < |runs| => Envelope(runs[i], first + i, 0))
  }

  function Issue(s: State, runs: seq<int>): State {
    s.(sequence := s.sequence + |runs|, inflight := s.inflight + |runs|)
  }

  /** The newest `max` of `runs`. */
  function Newest(runs: seq<int>, max: nat): (r: seq<int>)
    ensures |r| <= max && |r| <= |runs|
    ensures r == runs[|runs| - |r|..]
    ensures |r| < max ==> r == runs
  {
    if |runs| <= max then runs else runs[|runs| - max..]
  }

  /** The runs of `due` started at once under each overlap policy. */
  function Started(c: Config, s: State, due: seq<int>, limit: nat): (runs: seq<int>) {
    if due == [] || limit < 1 then []
    else match c.overlap
      case Allow => if |due| <= limit then due else due[..limit]
      case Skip => if s.inflight > 0 then [] else [due[|due| - 1]]
      case Queue => if s.inflight > 0 then [] else [due[0]]
  }

  /** The backlog once `due` has been handled. */
  function Backlog(c: Config, s: State, due: seq<int>, limit: nat): seq<int> {
    if due == [] || limit < 1 || c.overlap != Queue then s.queued
    else if s.inflight > 0 then Newest(s.queued + due, c.maxQueued)
    else if |due| > 1 then Newest(s.queued + due[1..], c.maxQueued)
    else s.queued
  }

  function HandleDue(c: Config, s: State, due: seq<int>, limit: nat): State {
    Issue(s.(queued := Backlog(c, s, due, limit)), Started(c, s, due, limit))
  }

  // -------------------------------------------------------------- operations

  /** Why a fetch returned what it returned. */
  datatype Outcome =
    | Raised                    // a cron search failed; nothing is delivered
    | Retried(batch: seq<Envelope>)
    | Immediate(run: Envelope)
    | Resumed(run: Envelope)    // the oldest run of the backlog
    | Due(runs: seq<int>, started: seq<Envelope>)
  {
    function Deliveries(): seq<Envelope> {
      match this
      case Raised => []
      case Retried(batch) => batch
      case Immediate(run) => [run]
      case Resumed(run) => [run]
      case Due(_, started) => started
    }
  }

  function Open(c: Config, s: State, now: int): (State, bool) {
    if s.initialized then (s, true)
    else
      match c.first(now)
      case None => (s, false)
      case Some(at) => (s.(initialized := true, nextFireAt := Some(at)), true)
  }

  /** One fetch; `openedAt` and `now` are its two readings of the clock. */
  function Fetch(c: Config, s: State, openedAt: int, now: int, limit: int): (State, Outcome) {
    var (ready, ok) := Open(c, s, openedAt);
    if !ok then (ready, Raised)
    else FetchOpened(c, ready, now, if limit < 1 then 1 else limit)
  }

  function FetchOpened(c: Config, s: State, now: int, limit: nat): (State, Outcome) {
    var n := ReadyCount(s.retries, now, limit);
    if n > 0 then
      (s.(retries := s.retries[n..], inflight := s.inflight + n), Retried(Envelopes(s.retries[..n])))
    else if s.pendingImmediate then
      var s' := HandleDue(c, s.(pendingImmediate := false), [now], limit);
      if Started(c, s, [now], limit) != [] then (s', Immediate(Envelope(now, s.sequence, 0)))
      else FetchScheduled(c, s', now, limit)
    else FetchScheduled(c, s, now, limit)
  }

  function FetchScheduled(c: Config, s: State, now: int, limit: nat): (State, Outcome) {
    if c.overlap == Queue && s.inflight == 0 && s.queued != [] then
      (Issue(s.(queued := s.queued[1..]), [s.queued[0]]), Resumed(Envelope(s.queued[0], s.sequence, 0)))
    else
      match s.nextFireAt
      case None => (s, Due([], []))
      case Some(at) =>
        var found := Collect(c.next, at, now, MAX_DUE);
        var s' := s.(nextFireAt := Some(found.cursor));
        if found.raised then (s', Raised)
        else
          (HandleDue(c, s', found.runs, limit),
           Due(found.runs, Fresh(Started(c, s', found.runs, limit), s.sequence)))
  }

  function Clamped(n: int): nat { if n < 0 then 0 else n }

  /** `finish_success` and `finish_failure`. */
  function Finish(s: State): State { s.(inflight := Clamped(s.inflight - 1)) }

  /** The entry `finish_retry` queues for a delivery retried at `now`. */
  function RetryOf(s: State, e: Envelope, now: int, delay: Option<int>): Retry {
    var wait := if delay.Some? && delay.value > 0 then delay.value else 0;
    Retry(now + wait, s.retrySequence + 1, e.(attempts := e.attempts + 1))
  }

  function FinishRetry(s: State, e: Envelope, now: int, delay: Option<int>): State {
    Finish(s).(retrySequence := s.retrySequence + 1, retries := Push(s.retries, RetryOf(s, e, now, delay)))
  }

  function ResumeAfterPause(c: Config, s: State, now: int): (State, bool) {
    var cleared := s.(pendingImmediate := false, queued := []);
    match c.first(now)
    case None => (cleared, false)
    case Some(at) => (cleared.(initialized := true, nextFireAt := Some(at)), true)
  }
}
