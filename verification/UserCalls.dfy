/** The order in which one execution calls the user's code, and that it makes each such
    call at most once. */
module UserCalls {
  import opened Wrappers
  import opened Execution
  import Retry
  import opened DryRun

  /** The six groups of user calls, in the order an execution makes them. */
  function Phase(call: Call): nat
    requires IsUser(call)
  {
    match call
    case Handle => 1
    case Decide(_) => 3
    case Transform(_) => 4
    case Hook(hook, _) => if hook.BEFORE? then 0 else if hook.AFTER_SUCCESS? then 2 else 5
  }

  const END: nat := 6

  function Place(call: Call): nat
    requires IsUser(call)
  {
    if call.Handle? then 0 else call.index
  }

  /** A user call that comes before place `index` of the phase; any other call does. */
  predicate Precedes(call: Call, phase: nat, index: nat) {
    IsUser(call) ==> Phase(call) < phase || (Phase(call) == phase && Place(call) < index)
  }

  /** User calls stand in strictly increasing order of phase and place. */
  predicate InOrder(log: Log) {
    forall j, k :: 0 <= j < k < |log| && IsUser(log[k].call) ==>
      Precedes(log[j].call, Phase(log[k].call), Place(log[k].call))
  }

  predicate UpTo(log: Log, phase: nat, index: nat) {
    InOrder(log) && forall k :: 0 <= k < |log| ==> Precedes(log[k].call, phase, index)
  }

  lemma Later(log: Log, phase: nat, index: nat, phase': nat, index': nat)
    requires UpTo(log, phase, index) && (phase < phase' || (phase == phase' && index <= index'))
    ensures UpTo(log, phase', index')
  {
  }

  // ------------------------------------------------------------- single calls

  lemma Quiet(w: World, r: Run, call: Call, phase: nat, index: nat)
    requires UpTo(r.log, phase, index) && !IsUser(call)
    ensures UpTo(Do(w, r, call).log, phase, index)
  {
  }

  lemma Called(w: World, r: Run, call: Call)
    requires IsUser(call) && UpTo(r.log, Phase(call), Place(call))
    ensures UpTo(Do(w, r, call).log, Phase(call), Place(call) + 1)
  {
    Later(r.log, Phase(call), Place(call), Phase(call), Place(call) + 1);
  }

  lemma Stages(w: World, r: Run, stage: Stage, phase: nat, index: nat)
    requires UpTo(r.log, phase, index)
    ensures UpTo(Enter(w, r, stage).log, phase, index) && UpTo(Leave(w, r).log, phase, index)
  {
    Quiet(w, r.(stage := stage), Checkpoint(stage, false), phase, index);
    Quiet(w, r, Checkpoint(r.stage, true), phase, index);
  }

  // ----------------------------------------------------------------- the loops

  lemma {:induction false} HooksInOrder(w: World, r: Run, kind: HookKind, i: nat, n: nat, suppress: bool)
    requires UpTo(r.log, Phase(Hook(kind, i)), i)
    ensures UpTo(Hooks(w, r, kind, i, n, suppress).log, Phase(Hook(kind, i)) + 1, 0)
    decreases n - i
  {
    if r.err.Some? || i >= n {
      Later(r.log, Phase(Hook(kind, i)), i, Phase(Hook(kind, i)) + 1, 0);
    } else {
      var h := Do(w, r, Hook(kind, i));
      Called(w, r, Hook(kind, i));
      HooksInOrder(w, h, kind, i + 1, n, suppress);
      HooksInOrder(w, h.(err := None), kind, i + 1, n, suppress);
    }
  }

  lemma {:induction false} SelectInOrder(w: World, r: Run, targets: seq<Target>, i: nat, bs: seq<Binding>)
    requires i <= |targets| && UpTo(r.log, 3, i)
    ensures UpTo(Select(w, r, targets, i, bs).0.log, 4, 0)
    decreases |targets| - i
  {
    if r.err.Some? || i == |targets| {
      Later(r.log, 3, i, 4, 0);
    } else {
      Later(r.log, 3, i, 3, i + 1);
      match targets[i]
      case Bound(b) => SelectInOrder(w, r, targets, i + 1, bs + [b]);
      case Route(conditional, chosen, otherwise) =>
        Called(w, r, Decide(i));
        var d := Do(w, r, Decide(i));
        SelectInOrder(w, r, targets, i + 1, bs + chosen);
        SelectInOrder(w, d, targets, i + 1, bs + if LastFlag(d) then chosen else otherwise);
    }
  }

  lemma {:induction false} PrepareInOrder(w: World, r: Run, bindings: seq<Binding>, i: nat, done: seq<(Sink, Body)>)
    requires i <= |bindings| && UpTo(r.log, 4, i)
    ensures UpTo(Prepare(w, r, bindings, i, done).0.log, 5, 0)
    decreases |bindings| - i
  {
    if r.err.Some? || i == |bindings| {
      Later(r.log, 4, i, 5, 0);
    } else {
      Later(r.log, 4, i, 4, i + 1);
      Called(w, r, Transform(i));
      var x := Do(w, r, Transform(i));
      PrepareInOrder(w, r, bindings, i + 1, done + [(bindings[i].sink, r.out.result)]);
      PrepareInOrder(w, x, bindings, i + 1, done + [(bindings[i].sink, LastBody(x))]);
    }
  }

  lemma {:induction false} SendQuiet(w: World, r: Run, sink: Sink, body: Body, tries: nat)
    requires 0 < tries && UpTo(r.log, 5, 0)
    ensures UpTo(SendToSink(w, r, sink, body, tries).log, 5, 0)
    decreases tries
  {
    var s := Do(w, r, Send(sink, body));
    Quiet(w, r, Send(sink, body), 5, 0);
    if r.err.None? && s.err.Some? && s.err.value.Connector? && tries > 1 {
      var delay := RetryDelay(s.err.value.kind, s.err.value.retryDelay, sink.pollInterval);
      var b := Do(w, s.(err := None), Backoff(delay));
      Quiet(w, s.(err := None), Backoff(delay), 5, 0);
      SendQuiet(w, s.(err := None), sink, body, tries - 1);
      SendQuiet(w, b.(err := None), sink, body, tries - 1);
    }
  }

  lemma {:induction false} SendAllQuiet(w: World, m: Mode, r: Run, envelopes: seq<(Sink, Body)>)
    requires UpTo(r.log, 5, 0)
    ensures UpTo(SendAll(w, m, r, envelopes).log, 5, 0)
    decreases |envelopes|
  {
    if r.err.None? && envelopes != [] {
      var s := r.(stage := SinkStage);
      SendQuiet(w, s, envelopes[0].0, envelopes[0].1, SEND_ATTEMPTS);
      Quiet(w, s, Dispatch(envelopes[0].0, false), 5, 0);
      SendAllQuiet(w, m, DispatchOne(w, m, s, envelopes[0].0, envelopes[0].1), envelopes[1..]);
    }
  }

  lemma {:induction false} DeadAllQuiet(w: World, m: Mode, r: Run, sinks: seq<Sink>, sent: bool)
    requires UpTo(r.log, END, 0)
    ensures UpTo(DeadAll(w, m, r, sinks, sent).0.log, END, 0)
    decreases |sinks|
  {
    if r.err.None? && sinks != [] {
      var call := if m.production then SendDead(sinks[0]) else Dispatch(sinks[0], true);
      var d := Do(w, r, call);
      Quiet(w, r, call, END, 0);
      DeadAllQuiet(w, m, d, sinks[1..], sent || m.production || LastFlag(d));
    }
  }

  // ------------------------------------------------------------------ the body

  lemma BeginQuiet(w: World)
    ensures UpTo(Begin(w).log, 0, 0)
  {
    var r := Run([], None, DeliveryStage, FRESH);
    Quiet(w, r, Start, 0, 0);
    Quiet(w, Do(w, r, Start), Emit(STARTED), 0, 0);
  }

  lemma BeforeInOrder(w: World, t: Task, r: Run)
    requires UpTo(r.log, 0, 0)
    ensures UpTo(RunBefore(w, t, r).log, 1, 0)
  {
    var e := Enter(w, r, BeforeStage);
    Stages(w, r, BeforeStage, 0, 0);
    HooksInOrder(w, e, BEFORE, 0, t.before, false);
    Stages(w, Hooks(w, e, BEFORE, 0, t.before, false), BeforeStage, 1, 0);
  }

  lemma HandlerInOrder(w: World, r: Run)
    requires UpTo(r.log, 1, 0)
    ensures UpTo(RunHandler(w, r).log, 2, 0)
  {
    Stages(w, r, HandlerStage, 1, 0);
    var e := Enter(w, r, HandlerStage);
    var h := Do(w, e, Handle);
    Called(w, e, Handle);
    Later(h.log, 1, 1, 2, 0);
    Stages(w, h.(out := h.out.(result := LastBody(h))), HandlerStage, 2, 0);
  }

  lemma AfterInOrder(w: World, t: Task, r: Run)
    requires UpTo(r.log, 2, 0)
    ensures UpTo(RunAfter(w, t, r).log, 3, 0)
  {
    var e := Enter(w, r, AfterStage);
    Stages(w, r, AfterStage, 2, 0);
    HooksInOrder(w, e, AFTER_SUCCESS, 0, t.afterSuccess, false);
    Stages(w, Hooks(w, e, AFTER_SUCCESS, 0, t.afterSuccess, false), AfterStage, 3, 0);
  }

  lemma RouteInOrder(w: World, t: Task, r: Run)
    requires UpTo(r.log, 3, 0)
    ensures UpTo(RunRoute(w, t, r).0.log, 4, 0)
  {
    Stages(w, r, RouteStage, 3, 0);
    SelectInOrder(w, Enter(w, r, RouteStage), t.targets, 0, []);
    var s := Select(w, Enter(w, r, RouteStage), t.targets, 0, []);
    Stages(w, s.0.(out := s.0.out.(selected := SinksOf(s.1))), RouteStage, 4, 0);
  }

  lemma TransformInOrder(w: World, r: Run, bindings: seq<Binding>)
    requires UpTo(r.log, 4, 0)
    ensures UpTo(RunTransform(w, r, bindings).0.log, 5, 0)
  {
    Stages(w, r, TransformStage, 4, 0);
    PrepareInOrder(w, Enter(w, r, TransformStage), bindings, 0, []);
    Stages(w, Prepare(w, Enter(w, r, TransformStage), bindings, 0, []).0, TransformStage, 5, 0);
  }

  lemma SinksInOrder(w: World, t: Task, m: Mode, r: Run)
    requires UpTo(r.log, 3, 0)
    ensures UpTo(RunSinks(w, t, m, r).log, 5, 0)
  {
    if r.err.Some? || r.out.result.None? || t.targets == [] {
      Later(r.log, 3, 0, 5, 0);
    } else {
      var s := RunRoute(w, t, r);
      RouteInOrder(w, t, r);
      TransformInOrder(w, s.0, s.1);
      var p := RunTransform(w, s.0, s.1);
      SendAllQuiet(w, m, p.0, p.1);
    }
  }

  lemma BodyInOrder(w: World, t: Task, m: Mode)
    ensures UpTo(UpToAck(w, t, m).log, 5, 0)
  {
    BeginQuiet(w);
    BeforeInOrder(w, t, Begin(w));
    HandlerInOrder(w, RunBefore(w, t, Begin(w)));
    AfterInOrder(w, t, RunHandler(w, RunBefore(w, t, Begin(w))));
    SinksInOrder(w, t, m, RunAfter(w, t, RunHandler(w, RunBefore(w, t, Begin(w)))));
  }

  lemma AckQuiet(w: World, m: Mode, r: Run)
    requires UpTo(r.log, 5, 0)
    ensures UpTo(RunAck(w, m, r).log, 5, 0)
  {
    var started := r.(out := r.out.(action := Some(ACK)));
    var a := Enter(w, started, AckStage);
    Stages(w, started, AckStage, 5, 0);
    Quiet(w, a, Ack, 5, 0);
    var b := if m.settles then Do(w, a, Ack) else a;
    Stages(w, b, AckStage, 5, 0);
    Quiet(w, Leave(w, b), Emit(SUCCEEDED), 5, 0);
  }

  // ---------------------------------------------------------------- on failure

  lemma CaptureQuiet(w: World, t: Task, r: Run)
    requires UpTo(r.log, END, 0)
    ensures UpTo(WriteCapture(w, t, r).log, END, 0)
  {
    Quiet(w, r, Record, END, 0);
  }

  lemma RetryQuiet(w: World, m: Mode, r: Run, delay: Option<real>)
    requires UpTo(r.log, END, 0)
    ensures UpTo(ApplyRetry(w, m, r, delay).log, END, 0)
  {
    var a := Do(w, r, Checkpoint(DeliveryStage, false));
    Quiet(w, r, Checkpoint(DeliveryStage, false), END, 0);
    Quiet(w, a, Requeue(delay), END, 0);
    Quiet(w, if m.settles then Do(w, a, Requeue(delay)) else a, Checkpoint(DeliveryStage, true), END, 0);
  }

  lemma FailQuiet(w: World, m: Mode, r: Run)
    requires UpTo(r.log, END, 0)
    ensures UpTo(FailDelivery(w, m, r).0.log, END, 0)
  {
    var c := Do(w, r, Checkpoint(DeliveryStage, false));
    var f := Do(w, c, Reject);
    Quiet(w, r, Checkpoint(DeliveryStage, false), END, 0);
    Quiet(w, c, Reject, END, 0);
    Quiet(w, f, Checkpoint(DeliveryStage, true), END, 0);
    Quiet(w, f.(err := None), Requeue(None), END, 0);
    Quiet(w, Do(w, f.(err := None), Requeue(None)), Checkpoint(DeliveryStage, true), END, 0);
  }

  lemma ReportQuiet(w: World, t: Task, m: Mode, r: Run)
    requires UpTo(r.log, END, 0)
    ensures UpTo(FailAndReport(w, t, m, r).log, END, 0)
  {
    var f := FailDelivery(w, m, r);
    FailQuiet(w, m, r);
    var action := if f.1 then f.0.out.action else Some(RETRY);
    var done := f.0.(out := f.0.out.(terminal := f.1, action := action));
    Quiet(w, done, Emit(FAILED), END, 0);
    CaptureQuiet(w, t, Do(w, done, Emit(FAILED)));
  }

  lemma RefusedQuiet(w: World, m: Mode, r: Run)
    requires UpTo(r.log, END, 0)
    ensures UpTo(DeadLetterFailed(w, m, r).log, END, 0)
  {
    var out := r.out.(deadLetterAttempted := true, deadLetterPublished := Some(false), action := Some(RETRY));
    RetryQuiet(w, m, r.(err := None, out := out), None);
    Quiet(w, ApplyRetry(w, m, r.(err := None, out := out), None), Emit(RETRIED), END, 0);
  }

  lemma GiveUpQuiet(w: World, t: Task, m: Mode, r: Run)
    requires UpTo(r.log, END, 0)
    ensures UpTo(GiveUp(w, t, m, r).log, END, 0)
  {
    ReportQuiet(w, t, m, r.(out := r.out.(action := Some(FAIL))));
    var started := r.(out := r.out.(action := Some(DEAD_LETTER)));
    var d := DeadAll(w, m, started, t.deadLetters, false);
    DeadAllQuiet(w, m, started, t.deadLetters, false);
    RefusedQuiet(w, m, d.0);
    CaptureQuiet(w, t, DeadLetterFailed(w, m, d.0));
    var published := if d.1 then Some(true) else None;
    var sent := d.0.(out := d.0.out.(deadLetterAttempted := d.1, deadLetterPublished := published));
    Quiet(w, sent, Emit(DEAD_LETTERED), END, 0);
    ReportQuiet(w, t, m, Do(w, sent, Emit(DEAD_LETTERED)));
  }

  lemma OnFailureInOrder(w: World, t: Task, r: Run, kind: Retry.FailureKind)
    requires UpTo(r.log, 5, 0)
    ensures UpTo(OnFailure(w, t, r, kind).log, END, 0)
  {
    var out := r.out.(failure := Some(kind), failureStage := Some(r.stage), completion := Failed);
    var started := r.(err := None, out := out);
    var entered := Do(w, started, Checkpoint(FailureStage, false));
    Quiet(w, started, Checkpoint(FailureStage, false), 5, 0);
    HooksInOrder(w, entered, ON_FAILURE, 0, t.onFailure, true);
    Quiet(w, Hooks(w, entered, ON_FAILURE, 0, t.onFailure, true), Checkpoint(FailureStage, true), END, 0);
  }

  lemma FailureInOrder(w: World, t: Task, m: Mode, attempts: nat, r: Run, kind: Retry.FailureKind)
    requires UpTo(r.log, 5, 0)
    ensures UpTo(HandleFailure(w, t, m, attempts, r, kind).log, END, 0)
  {
    OnFailureInOrder(w, t, r, kind);
    var f := OnFailure(w, t, r, kind);
    match Retry.OnError(t.policy, attempts, kind, w.draw(f.log))
    case Retry(delay) =>
      var g := f.(out := f.out.(action := Some(RETRY), retryDelay := delay));
      RetryQuiet(w, m, g, delay);
      Quiet(w, ApplyRetry(w, m, g, delay), Emit(RETRIED), END, 0);
      CaptureQuiet(w, t, Do(w, ApplyRetry(w, m, g, delay), Emit(RETRIED)));
    case Fail => GiveUpQuiet(w, t, m, f);
  }

  lemma CancelledQuiet(w: World, t: Task, m: Mode, r: Run)
    requires UpTo(r.log, END, 0)
    ensures UpTo(HandleCancelled(w, t, m, r).log, END, 0)
  {
    var out := r.out.(failure := Some(Retry.CANCELLED), failureStage := Some(r.stage), action := Some(RETRY),
                      completion := CancelledRun, terminal := false);
    var started := r.(err := None, out := out);
    var c := Do(w, started, Emit(CANCELLED));
    Quiet(w, started, Emit(CANCELLED), END, 0);
    Quiet(w, c, Requeue(None), END, 0);
    var q := if m.settles then Do(w, c, Requeue(None)) else c;
    Quiet(w, q, Emit(RETRIED), END, 0);
    CaptureQuiet(w, t, Do(w, q, Emit(RETRIED)));
  }

  lemma FinishInOrder(w: World, t: Task, m: Mode, attempts: nat, r: Run)
    requires UpTo(r.log, 5, 0)
    ensures InOrder(Finish(w, t, m, attempts, r).log)
  {
    Later(r.log, 5, 0, END, 0);
    match r.err
    case None =>
    case Some(Cancelled) => CancelledQuiet(w, t, m, r);
    case Some(TimedOut) => FailureInOrder(w, t, m, attempts, r, Retry.TIMEOUT);
    case Some(_) => FailureInOrder(w, t, m, attempts, r, Retry.ERROR);
  }

  /** In every world one execution calls the hooks before, the handler, the hooks after, the
      predicates, the transforms and the failure hooks in this order, each of them by
      rising index, and so no user call twice. */
  lemma UserCallsOnce(w: World, t: Task, m: Mode, attempts: nat)
    ensures var log := Execute(w, t, m, attempts).log;
      && InOrder(log)
      && forall j, k :: 0 <= j < k < |log| && IsUser(log[j].call) ==> log[j].call != log[k].call
  {
    BodyInOrder(w, t, m);
    AckQuiet(w, m, UpToAck(w, t, m));
    FinishInOrder(w, t, m, attempts, RunAck(w, m, UpToAck(w, t, m)));
  }
}
