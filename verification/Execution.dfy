/** One execution of a delivery: hooks, handler, routing, sinks and settlement, with
    every external call answered by an arbitrary world and written to a log. */
module Execution {
  import opened Wrappers
  import Retry

  // ------------------------------------------------------------------ the task

  /** A message body; None is Python's None. */
  type Body = Option<int>

  datatype Sink = Sink(id: nat, pollInterval: real)
  datatype Binding = Binding(sink: Sink, transformed: bool)
  datatype Target =
    | Bound(binding: Binding)
    | Route(conditional: bool, chosen: seq<Binding>, otherwise: seq<Binding>)
  datatype Capture = Off | Terminal | All

  /** A task: its numbers of hooks, emit targets, dead-letter sinks, retry policy and
      failure capture. */
  datatype Task = Task(before: nat, afterSuccess: nat, onFailure: nat,
                       targets: seq<Target>, deadLetters: seq<Sink>,
                       policy: Retry.Policy, capture: Capture)

  /** Whether deliveries are settled, and whether the production dispatcher is used. */
  datatype Mode = Mode(settles: bool, production: bool)

  const PRODUCTION := Mode(true, true)
  const DRY_RUN := Mode(false, false)
  const SEND_ATTEMPTS: nat := 2

  // ----------------------------------------------------------------- the world

  datatype ConnectorErrorKind = Disconnected | Transient | Throttled | Misconfigured | Permanent | Uncertain
  datatype Exc = Cancelled | TimedOut | Connector(kind: ConnectorErrorKind, retryDelay: Option<real>) | OtherError

  datatype Stage =
    | DeliveryStage | BeforeStage | HandlerStage | AfterStage | RouteStage | TransformStage | SinkStage | AckStage | FailureStage
  datatype Event = STARTED | SUCCEEDED | CANCELLED | RETRIED | FAILED | DEAD_LETTERED
  datatype HookKind = BEFORE | AFTER_SUCCESS | ON_FAILURE

  datatype Call =
    | Start
    | Emit(event: Event)
    | Checkpoint(stage: Stage, completed: bool)
    | Hook(hook: HookKind, index: nat)
    | Handle
    | Decide(index: nat)
    | Transform(index: nat)
    | Send(sink: Sink, body: Body)
    | SendDead(sink: Sink)
    | Dispatch(sink: Sink, dead: bool)
    | Backoff(seconds: real)
    | Ack
    | Requeue(delay: Option<real>)
    | Reject
    | Record

  datatype Reply = Raises(exc: Exc) | Answers(body: Body, flag: bool)
  datatype Entry = Entry(call: Call, reply: Reply)
  type Log = seq<Entry>

  /** What every call answers, given all that happened before it. */
  datatype World = World(reply: (Log, Call) -> Reply, stopping: Log -> bool, draw: Log -> Retry.Draw)

  // --------------------------------------------------------------- the outcome

  datatype Completion = Running | Succeeded | Failed | CancelledRun
  datatype Action = ACK | RETRY | DEAD_LETTER | FAIL

  datatype Outcome = Outcome(completion: Completion, result: Body, selected: seq<Sink>,
                             action: Option<Action>, retryDelay: Option<real>,
                             failure: Option<Retry.FailureKind>, failureStage: Option<Stage>,
                             deadLetterAttempted: bool, deadLetterPublished: Option<bool>, terminal: bool)

  const FRESH := Outcome(Running, None, [], None, None, None, None, false, None, false)

  /** An execution so far: its log, the exception being raised if any, the active stage
      and the outcome record. */
  datatype Run = Run(log: Log, err: Option<Exc>, stage: Stage, out: Outcome)

  function Do(w: World, r: Run, call: Call): Run {
    if r.err.Some? then r
    else
      var reply := w.reply(r.log, call);
      r.(log := r.log + [Entry(call, reply)], err := if reply.Raises? then Some(reply.exc) else None)
  }

  /** The answer to the last call. */
  function LastBody(r: Run): Body {
    if r.log != [] && r.log[|r.log| - 1].reply.Answers? then r.log[|r.log| - 1].reply.body else None
  }

  predicate LastFlag(r: Run) {
    r.log != [] && r.log[|r.log| - 1].reply.Answers? && r.log[|r.log| - 1].reply.flag
  }

  function Enter(w: World, r: Run, stage: Stage): Run {
    if r.err.Some? then r else Do(w, r.(stage := stage), Checkpoint(stage, false))
  }

  function Leave(w: World, r: Run): Run { Do(w, r, Checkpoint(r.stage, true)) }

  function Hooks(w: World, r: Run, kind: HookKind, i: nat, n: nat, suppress: bool): Run
    decreases n - i
  {
    if r.err.Some? || i >= n then r
    else
      var h := Do(w, r, Hook(kind, i));
      if suppress && h.err.Some? && h.err.value != Cancelled then Hooks(w, h.(err := None), kind, i + 1, n, suppress)
      else Hooks(w, h, kind, i + 1, n, suppress)
  }

  // --------------------------------------------------------- routing and sinks

  /** The bindings of the targets from `i` on, `bs` being those before. */
  function Select(w: World, r: Run, targets: seq<Target>, i: nat, bs: seq<Binding>): (Run, seq<Binding>)
    requires i <= |targets|
    decreases |targets| - i
  {
    if r.err.Some? || i == |targets| then (r, bs)
    else
      match targets[i]
      case Bound(b) => Select(w, r, targets, i + 1, bs + [b])
      case Route(conditional, chosen, otherwise) =>
        if !conditional then Select(w, r, targets, i + 1, bs + chosen)
        else
          var d := Do(w, r, Decide(i));
          Select(w, d, targets, i + 1, bs + if LastFlag(d) then chosen else otherwise)
  }

  /** The bodies for the bindings from `i` on, `done` being those before. */
  function Prepare(w: World, r: Run, bindings: seq<Binding>, i: nat, done: seq<(Sink, Body)>): (Run, seq<(Sink, Body)>)
    requires i <= |bindings|
    decreases |bindings| - i
  {
    if r.err.Some? || i == |bindings| then (r, done)
    else if !bindings[i].transformed then Prepare(w, r, bindings, i + 1, done + [(bindings[i].sink, r.out.result)])
    else
      var x := Do(w, r, Transform(i));
      Prepare(w, x, bindings, i + 1, done + [(bindings[i].sink, LastBody(x))])
  }

  predicate Retryable(kind: ConnectorErrorKind) { kind in {Disconnected, Transient, Throttled} }

  function RetryDelay(kind: ConnectorErrorKind, retryDelay: Option<real>, fallback: real): real {
    match retryDelay
    case Some(d) => Retry.Max(0.0, d)
    case None => if kind.Throttled? then Retry.Max(fallback, 1.0) else Retry.Max(fallback, 0.0)
  }

  /** `_send_to_sink`: a second try after a retryable connector error, unless the app
      shuts down while waiting for it. */
  function SendToSink(w: World, r: Run, sink: Sink, body: Body, tries: nat): Run
    requires 0 < tries
    decreases tries
  {
    var s := Do(w, r, Send(sink, body));
    if r.err.Some? || s.err.None? || !s.err.value.Connector? || !Retryable(s.err.value.kind) || tries == 1 then s
    else
      var delay := RetryDelay(s.err.value.kind, s.err.value.retryDelay, sink.pollInterval);
      if delay <= 0.0 || w.stopping(s.log) then SendToSink(w, s.(err := None), sink, body, tries - 1)
      else
        var b := Do(w, s.(err := None), Backoff(delay));
        if b.err.None? then b.(err := s.err)
        else if b.err.value.TimedOut? then SendToSink(w, b.(err := None), sink, body, tries - 1)
        else b
  }

  function DispatchOne(w: World, m: Mode, r: Run, sink: Sink, body: Body): Run {
    if m.production then SendToSink(w, r, sink, body, SEND_ATTEMPTS) else Do(w, r, Dispatch(sink, false))
  }

  function SendAll(w: World, m: Mode, r: Run, envelopes: seq<(Sink, Body)>): Run
    decreases |envelopes|
  {
    if r.err.Some? || envelopes == [] then r
    else SendAll(w, m, DispatchOne(w, m, r.(stage := SinkStage), envelopes[0].0, envelopes[0].1), envelopes[1..])
  }

  // ------------------------------------------------------------------ the body

  function Begin(w: World): Run {
    Do(w, Do(w, Run([], None, DeliveryStage, FRESH), Start), Emit(STARTED))
  }

  function RunBefore(w: World, t: Task, r: Run): Run {
    Leave(w, Hooks(w, Enter(w, r, BeforeStage), BEFORE, 0, t.before, false))
  }

  function RunHandler(w: World, r: Run): Run {
    var h := Do(w, Enter(w, r, HandlerStage), Handle);
    if h.err.Some? then h else Leave(w, h.(out := h.out.(result := LastBody(h))))
  }

  function RunAfter(w: World, t: Task, r: Run): Run {
    Leave(w, Hooks(w, Enter(w, r, AfterStage), AFTER_SUCCESS, 0, t.afterSuccess, false))
  }

  function SinksOf(bindings: seq<Binding>): seq<Sink> {
    seq(|bindings|, i requires 0 <= i < |bindings| => bindings[i].sink)
  }

  function RunRoute(w: World, t: Task, r: Run): (Run, seq<Binding>) {
    var s := Select(w, Enter(w, r, RouteStage), t.targets, 0, []);
    if s.0.err.Some? then s else (Leave(w, s.0.(out := s.0.out.(selected := SinksOf(s.1)))), s.1)
  }

  function RunTransform(w: World, r: Run, bindings: seq<Binding>): (Run, seq<(Sink, Body)>) {
    var p := Prepare(w, Enter(w, r, TransformStage), bindings, 0, []);
    (Leave(w, p.0), p.1)
  }

  function RunSinks(w: World, t: Task, m: Mode, r: Run): Run {
    if r.err.Some? || r.out.result.None? || t.targets == [] then r
    else
      var s := RunRoute(w, t, r);
      var p := RunTransform(w, s.0, s.1);
      SendAll(w, m, p.0, p.1)
  }

  function RunAck(w: World, m: Mode, r: Run): Run {
    if r.err.Some? then r
    else
      var a := Enter(w, r.(out := r.out.(action := Some(ACK))), AckStage);
      var b := if m.settles then Do(w, a, Ack) else a;
      var c := Do(w, Leave(w, b), Emit(SUCCEEDED));
      if c.err.Some? then c else c.(out := c.out.(completion := Succeeded, terminal := true))
  }

  /** The run up to the acknowledgement. */
  function UpToAck(w: World, t: Task, m: Mode): Run {
    RunSinks(w, t, m, RunAfter(w, t, RunHandler(w, RunBefore(w, t, Begin(w)))))
  }

  // --------------------------------------------------------------- on failure

  function WriteCapture(w: World, t: Task, r: Run): Run {
    if r.err.Some? || t.capture.Off? || (t.capture.Terminal? && !r.out.terminal) then r
    else
      var c := Do(w, r, Record);
      if c.err.Some? && c.err.value != Cancelled then c.(err := None) else c
  }

  function ApplyRetry(w: World, m: Mode, r: Run, delay: Option<real>): Run {
    var a := Do(w, r, Checkpoint(DeliveryStage, false));
    Do(w, if m.settles then Do(w, a, Requeue(delay)) else a, Checkpoint(DeliveryStage, true))
  }

  /** Sends to the dead-letter sinks in order; `sent` tells whether one send was real. */
  function DeadAll(w: World, m: Mode, r: Run, sinks: seq<Sink>, sent: bool): (Run, bool)
    decreases |sinks|
  {
    if r.err.Some? || sinks == [] then (r, sent)
    else
      var d := Do(w, r, if m.production then SendDead(sinks[0]) else Dispatch(sinks[0], true));
      DeadAll(w, m, d, sinks[1..], sent || m.production || LastFlag(d))
  }

  /** A failed dead-letter publication: the delivery is retried, the policy not asked. */
  function DeadLetterFailed(w: World, m: Mode, r: Run): Run {
    var out := r.out.(deadLetterAttempted := true, deadLetterPublished := Some(false), action := Some(RETRY));
    Do(w, ApplyRetry(w, m, r.(err := None, out := out), None), Emit(RETRIED))
  }

  /** `_fail_delivery`: whether the delivery failed for good; a failing `fail` is
      answered by a retry. */
  function FailDelivery(w: World, m: Mode, r: Run): (Run, bool) {
    if !m.settles then (r, true)
    else
      var c := Do(w, r, Checkpoint(DeliveryStage, false));
      var f := Do(w, c, Reject);
      if c.err.None? && f.err.Some? && f.err.value != Cancelled then
        (Do(w, Do(w, f.(err := None), Requeue(None)), Checkpoint(DeliveryStage, true)), false)
      else (Do(w, f, Checkpoint(DeliveryStage, true)), true)
  }

  function FailAndReport(w: World, t: Task, m: Mode, r: Run): Run {
    var f := FailDelivery(w, m, r);
    if f.0.err.Some? then f.0
    else
      var action := if f.1 then f.0.out.action else Some(RETRY);
      WriteCapture(w, t, Do(w, f.0.(out := f.0.out.(terminal := f.1, action := action)), Emit(FAILED)))
  }

  function GiveUp(w: World, t: Task, m: Mode, r: Run): Run {
    if t.deadLetters == [] then FailAndReport(w, t, m, r.(out := r.out.(action := Some(FAIL))))
    else
      var d := DeadAll(w, m, r.(out := r.out.(action := Some(DEAD_LETTER))), t.deadLetters, false);
      if d.0.err.Some? && d.0.err.value != Cancelled then WriteCapture(w, t, DeadLetterFailed(w, m, d.0))
      else if d.0.err.Some? then d.0
      else
        var published := if d.1 then Some(true) else None;
        var out := d.0.out.(deadLetterAttempted := d.1, deadLetterPublished := published);
        FailAndReport(w, t, m, Do(w, d.0.(out := out), Emit(DEAD_LETTERED)))
  }

  function OnFailure(w: World, t: Task, r: Run, kind: Retry.FailureKind): Run {
    var out := r.out.(failure := Some(kind), failureStage := Some(r.stage), completion := Failed);
    var entered := Do(w, r.(err := None, out := out), Checkpoint(FailureStage, false));
    Do(w, Hooks(w, entered, ON_FAILURE, 0, t.onFailure, true), Checkpoint(FailureStage, true))
  }

  /** `_handle_failure`, with the attempts recorded in the delivery's envelope. */
  function HandleFailure(w: World, t: Task, m: Mode, attempts: nat, r: Run, kind: Retry.FailureKind): Run {
    var f := OnFailure(w, t, r, kind);
    if f.err.Some? then f
    else
      match Retry.OnError(t.policy, attempts, kind, w.draw(f.log))
      case Retry(delay) =>
        var a := ApplyRetry(w, m, f.(out := f.out.(action := Some(RETRY), retryDelay := delay)), delay);
        WriteCapture(w, t, Do(w, a, Emit(RETRIED)))
      case Fail => GiveUp(w, t, m, f)
  }

  function HandleCancelled(w: World, t: Task, m: Mode, r: Run): Run {
    var out := r.out.(failure := Some(Retry.CANCELLED), failureStage := Some(r.stage), action := Some(RETRY),
                      completion := CancelledRun, terminal := false);
    var c := Do(w, r.(err := None, out := out), Emit(CANCELLED));
    var q := if m.settles then Do(w, c, Requeue(None)) else c;
    var e := WriteCapture(w, t, Do(w, q, Emit(RETRIED)));
    if e.err.Some? then e else e.(err := Some(Cancelled))
  }

  function Finish(w: World, t: Task, m: Mode, attempts: nat, r: Run): Run {
    match r.err
    case None => r
    case Some(Cancelled) => HandleCancelled(w, t, m, r)
    case Some(TimedOut) => HandleFailure(w, t, m, attempts, r, Retry.TIMEOUT)
    case Some(_) => HandleFailure(w, t, m, attempts, r, Retry.ERROR)
  }

  /** `execute`: an outcome is returned where `err` is None, raised otherwise. */
  function Execute(w: World, t: Task, m: Mode, attempts: nat): Run {
    Finish(w, t, m, attempts, RunAck(w, m, UpToAck(w, t, m)))
  }
}
