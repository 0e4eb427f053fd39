/** Which settlement calls complete in one execution, and what must have happened before. */
module Settlement {
  import opened Wrappers
  import opened Execution
  import Retry

  // ------------------------------------------------------------- reading a log

  datatype Class =
    HookCall | HandleCall | DecideCall | TransformCall | SendCall | DeadCall |
    AckCall | RequeueCall | RejectCall | ReportCall

  function ClassOf(call: Call): Class {
    match call
    case Hook(_, _) => HookCall
    case Handle => HandleCall
    case Decide(_) => DecideCall
    case Transform(_) => TransformCall
    case Send(_, _) => SendCall
    case Backoff(_) => SendCall
    case Dispatch(_, dead) => if dead then DeadCall else SendCall
    case SendDead(_) => DeadCall
    case Ack => AckCall
    case Requeue(_) => RequeueCall
    case Reject => RejectCall
    case _ => ReportCall
  }

  const SETTLING: set<Class> := {AckCall, RequeueCall, RejectCall}

  predicate IsSettling(call: Call) { call.Ack? || call.Requeue? || call.Reject? }

  predicate Settles(e: Entry) { IsSettling(e.call) && e.reply.Answers? }

  predicate Accepts(e: Entry) { e.call.Send? && e.reply.Answers? }

  predicate AcceptsDead(e: Entry) { e.call.SendDead? && e.reply.Answers? }

  /** The calls of the entries that satisfy `f`, in order. */
  function Calls(log: Log, f: Entry -> bool): seq<Call> {
    if log == [] then []
    else
      var n := |log| - 1;
      Calls(log[..n], f) + if f(log[n]) then [log[n].call] else []
  }

  /** `b` continues `a` with calls of these classes only. */
  ghost predicate Added(a: Log, b: Log, classes: set<Class>) {
    a <= b && forall i :: |a| <= i < |b| ==> ClassOf(b[i].call) in classes
  }

  lemma {:induction false} CallsKept(a: Log, b: Log, classes: set<Class>, f: Entry -> bool)
    requires Added(a, b, classes) && forall e :: f(e) ==> ClassOf(e.call) !in classes
    ensures Calls(b, f) == Calls(a, f)
    decreases |b|
  {
    if |a| == |b| {
      assert a == b;
    } else {
      var n := |b| - 1;
      CallsKept(a, b[..n], classes, f);
      assert ClassOf(b[n].call) in classes;
    }
  }

  /** One call adds itself where it counts. */
  lemma CallsDone(w: World, r: Run, call: Call, f: Entry -> bool)
    requires r.err.None?
    ensures var d := Do(w, r, call);
      Calls(d.log, f) == Calls(r.log, f) + if f(Entry(call, w.reply(r.log, call))) then [call] else []
  {
    assert Do(w, r, call).log[..|r.log|] == r.log;
  }

  lemma AddedTrans(a: Log, b: Log, c: Log, classes: set<Class>)
    requires Added(a, b, classes) && Added(b, c, classes)
    ensures Added(a, c, classes)
  {
  }

  // ------------------------------------------------------ what the loops call

  lemma {:induction false} HooksAdd(w: World, r: Run, kind: HookKind, i: nat, n: nat, suppress: bool)
    ensures Added(r.log, Hooks(w, r, kind, i, n, suppress).log, {HookCall})
    decreases n - i
  {
    if r.err.None? && i < n {
      var h := Do(w, r, Hook(kind, i));
      HooksAdd(w, if suppress && h.err.Some? && h.err.value != Cancelled then h.(err := None) else h, kind, i + 1, n, suppress);
    }
  }

  lemma {:induction false} SelectAdds(w: World, r: Run, targets: seq<Target>, i: nat, bs: seq<Binding>)
    requires i <= |targets|
    ensures Added(r.log, Select(w, r, targets, i, bs).0.log, {DecideCall})
    decreases |targets| - i
  {
    if r.err.None? && i < |targets| {
      match targets[i]
      case Bound(b) => SelectAdds(w, r, targets, i + 1, bs + [b]);
      case Route(conditional, chosen, otherwise) =>
        if !conditional {
          SelectAdds(w, r, targets, i + 1, bs + chosen);
        } else {
          var d := Do(w, r, Decide(i));
          SelectAdds(w, d, targets, i + 1, bs + if LastFlag(d) then chosen else otherwise);
        }
    }
  }

  lemma {:induction false} PrepareAdds(w: World, r: Run, bindings: seq<Binding>, i: nat, done: seq<(Sink, Body)>)
    requires i <= |bindings|
    ensures Added(r.log, Prepare(w, r, bindings, i, done).0.log, {TransformCall})
    decreases |bindings| - i
  {
    if r.err.None? && i < |bindings| {
      if !bindings[i].transformed {
        PrepareAdds(w, r, bindings, i + 1, done + [(bindings[i].sink, r.out.result)]);
      } else {
        var x := Do(w, r, Transform(i));
        PrepareAdds(w, x, bindings, i + 1, done + [(bindings[i].sink, LastBody(x))]);
      }
    }
  }

  lemma {:induction false} SendToSinkAdds(w: World, r: Run, sink: Sink, body: Body, tries: nat)
    requires 0 < tries
    ensures Added(r.log, SendToSink(w, r, sink, body, tries).log, {SendCall})
    decreases tries
  {
    var s := Do(w, r, Send(sink, body));
    if !(r.err.Some? || s.err.None? || !s.err.value.Connector? || !Retryable(s.err.value.kind) || tries == 1) {
      var delay := RetryDelay(s.err.value.kind, s.err.value.retryDelay, sink.pollInterval);
      SendToSinkAdds(w, s.(err := None), sink, body, tries - 1);
      SendToSinkAdds(w, Do(w, s.(err := None), Backoff(delay)).(err := None), sink, body, tries - 1);
    }
  }

  lemma {:induction false} SendAllAdds(w: World, m: Mode, r: Run, envelopes: seq<(Sink, Body)>)
    ensures Added(r.log, SendAll(w, m, r, envelopes).log, {SendCall})
    decreases |envelopes|
  {
    if r.err.None? && envelopes != [] {
      var s := r.(stage := SinkStage);
      SendToSinkAdds(w, s, envelopes[0].0, envelopes[0].1, SEND_ATTEMPTS);
      SendAllAdds(w, m, DispatchOne(w, m, s, envelopes[0].0, envelopes[0].1), envelopes[1..]);
    }
  }

  lemma {:induction false} DeadAllAdds(w: World, m: Mode, r: Run, sinks: seq<Sink>, sent: bool)
    ensures Added(r.log, DeadAll(w, m, r, sinks, sent).0.log, {DeadCall})
    decreases |sinks|
  {
    if r.err.None? && sinks != [] {
      var d := Do(w, r, if m.production then SendDead(sinks[0]) else Dispatch(sinks[0], true));
      DeadAllAdds(w, m, d, sinks[1..], sent || m.production || LastFlag(d));
    }
  }

  // ------------------------------------------------------ what the stages call

  const PRELUDE: set<Class> := {HookCall, HandleCall, ReportCall}
  const BODY: set<Class> := PRELUDE + {DecideCall, TransformCall, SendCall}

  lemma BeforeAdds(w: World, t: Task, r: Run)
    ensures Added(r.log, RunBefore(w, t, r).log, PRELUDE)
  {
    HooksAdd(w, Enter(w, r, BeforeStage), BEFORE, 0, t.before, false);
  }

  lemma HandlerAdds(w: World, r: Run)
    ensures Added(r.log, RunHandler(w, r).log, PRELUDE)
  {
  }

  lemma AfterAdds(w: World, t: Task, r: Run)
    ensures Added(r.log, RunAfter(w, t, r).log, PRELUDE)
  {
    HooksAdd(w, Enter(w, r, AfterStage), AFTER_SUCCESS, 0, t.afterSuccess, false);
  }

  lemma PreludeAdds(w: World, t: Task)
    ensures Added([], RunAfter(w, t, RunHandler(w, RunBefore(w, t, Begin(w)))).log, PRELUDE)
  {
    var a := Begin(w);
    var b := RunBefore(w, t, a);
    BeforeAdds(w, t, a);
    var c := RunHandler(w, b);
    HandlerAdds(w, b);
    AfterAdds(w, t, c);
    AddedTrans([], b.log, c.log, PRELUDE);
    AddedTrans([], c.log, RunAfter(w, t, c).log, PRELUDE);
  }

  lemma SinksAdd(w: World, t: Task, m: Mode, r: Run)
    ensures Added(r.log, RunSinks(w, t, m, r).log, BODY)
  {
    if !(r.err.Some? || r.out.result.None? || t.targets == []) {
      SelectAdds(w, Enter(w, r, RouteStage), t.targets, 0, []);
      var s := RunRoute(w, t, r);
      assert Added(r.log, s.0.log, BODY);
      PrepareAdds(w, Enter(w, s.0, TransformStage), s.1, 0, []);
      var p := RunTransform(w, s.0, s.1);
      assert Added(s.0.log, p.0.log, BODY);
      SendAllAdds(w, m, p.0, p.1);
    }
  }

  lemma UpToAckAdds(w: World, t: Task, m: Mode)
    ensures Added([], UpToAck(w, t, m).log, BODY)
  {
    PreludeAdds(w, t);
    SinksAdd(w, t, m, RunAfter(w, t, RunHandler(w, RunBefore(w, t, Begin(w)))));
  }

  lemma CaptureAdds(w: World, t: Task, r: Run)
    ensures Added(r.log, WriteCapture(w, t, r).log, {ReportCall})
  {
  }

  lemma OnFailureAdds(w: World, t: Task, r: Run, kind: Retry.FailureKind)
    ensures Added(r.log, OnFailure(w, t, r, kind).log, {HookCall, ReportCall})
  {
    var out := r.out.(failure := Some(kind), failureStage := Some(r.stage), completion := Failed);
    var entered := Do(w, r.(err := None, out := out), Checkpoint(FailureStage, false));
    HooksAdd(w, entered, ON_FAILURE, 0, t.onFailure, true);
  }

  // ------------------------------------------------------------- settlement

  function Settlements(log: Log): seq<Call> { Calls(log, Settles) }

  lemma Unsettled(a: Log, b: Log, classes: set<Class>)
    requires Added(a, b, classes) && classes !! SETTLING
    ensures Settlements(b) == Settlements(a)
  {
    CallsKept(a, b, classes, Settles);
  }

  /** The settlement an outcome stands for. */
  function SettlementOf(out: Outcome): Option<Call> {
    match out.action
    case None => None
    case Some(ACK) => Some(Ack)
    case Some(RETRY) => Some(Requeue(out.retryDelay))
    case Some(_) => Some(Reject)
  }

  predicate OneMore(before: seq<Call>, after: seq<Call>) { before <= after && |after| <= |before| + 1 }

  /** Did the run settle, beyond `before`, at most once, and as its outcome says if it
      returns? */
  predicate SettlesOnce(before: seq<Call>, x: Run) {
    && OneMore(before, Settlements(x.log))
    && (x.err.None? ==> SettlementOf(x.out).Some? && Settlements(x.log) == before + [SettlementOf(x.out).value])
  }

  lemma Done(w: World, r: Run, call: Call)
    ensures var d := Do(w, r, call);
      Settlements(d.log) == Settlements(r.log)
        + if r.err.None? && IsSettling(call) && d.err.None? then [call] else []
  {
    if r.err.None? {
      CallsDone(w, r, call, Settles);
    }
  }

  /** A settlement call between two reports. */
  lemma BracketSettles(w: World, r: Run, first: Call, settling: Call, last: Call)
    requires r.err.None? && !IsSettling(first) && IsSettling(settling) && !IsSettling(last)
    ensures var b := Do(w, Do(w, r, first), settling); var c := Do(w, b, last);
      && (Settlements(c.log) == Settlements(r.log) || Settlements(c.log) == Settlements(r.log) + [settling])
      && (b.err.None? <==> Settlements(c.log) == Settlements(r.log) + [settling])
  {
    var a := Do(w, r, first);
    Done(w, r, first);
    Done(w, a, settling);
    Done(w, Do(w, a, settling), last);
  }

  lemma CaptureSettles(before: seq<Call>, w: World, t: Task, r: Run)
    requires SettlesOnce(before, r)
    ensures SettlesOnce(before, WriteCapture(w, t, r))
  {
    CaptureAdds(w, t, r);
    Unsettled(r.log, WriteCapture(w, t, r).log, {ReportCall});
  }

  lemma ReportSettles(before: seq<Call>, w: World, r: Run, call: Call)
    requires SettlesOnce(before, r) && ClassOf(call).ReportCall?
    ensures SettlesOnce(before, Do(w, r, call))
  {
    Done(w, r, call);
  }

  lemma ApplyRetrySettles(w: World, m: Mode, r: Run, delay: Option<real>)
    requires m.settles && r.err.None? && r.out.action == Some(RETRY) && r.out.retryDelay == delay
    ensures SettlesOnce(Settlements(r.log), ApplyRetry(w, m, r, delay))
  {
    BracketSettles(w, r, Checkpoint(DeliveryStage, false), Requeue(delay), Checkpoint(DeliveryStage, true));
  }

  /** A `fail` that went through or was cancelled leaves at most the rejection. */
  lemma RejectionSettles(w: World, m: Mode, r: Run)
    requires m.settles && r.err.None? && FailDelivery(w, m, r).1
    ensures var f := FailDelivery(w, m, r).0;
      && OneMore(Settlements(r.log), Settlements(f.log))
      && (f.err.None? ==> Settlements(f.log) == Settlements(r.log) + [Reject])
  {
    BracketSettles(w, r, Checkpoint(DeliveryStage, false), Reject, Checkpoint(DeliveryStage, true));
  }

  /** A `fail` that raised leaves at most the retry that answers it. */
  lemma RefusedFailSettles(w: World, m: Mode, r: Run)
    requires m.settles && r.err.None? && !FailDelivery(w, m, r).1
    ensures var f := FailDelivery(w, m, r).0;
      && OneMore(Settlements(r.log), Settlements(f.log))
      && (f.err.None? ==> Settlements(f.log) == Settlements(r.log) + [Requeue(None)])
  {
    var c := Do(w, r, Checkpoint(DeliveryStage, false));
    Done(w, r, Checkpoint(DeliveryStage, false));
    Done(w, c, Reject);
    RequeueSettles(w, Do(w, c, Reject).(err := None));
  }

  lemma RequeueSettles(w: World, r: Run)
    requires r.err.None?
    ensures var f := Do(w, Do(w, r, Requeue(None)), Checkpoint(DeliveryStage, true));
      && OneMore(Settlements(r.log), Settlements(f.log))
      && (f.err.None? ==> Settlements(f.log) == Settlements(r.log) + [Requeue(None)])
  {
    var d := Do(w, r, Requeue(None));
    Done(w, r, Requeue(None));
    Silent(w, d, Checkpoint(DeliveryStage, true));
  }

  /** A call that settles nothing. */
  lemma Silent(w: World, r: Run, call: Call)
    requires !IsSettling(call)
    ensures Settlements(Do(w, r, call).log) == Settlements(r.log) && (Do(w, r, call).err.None? ==> r.err.None?)
  {
    Done(w, r, call);
    assert Settlements(r.log) + [] == Settlements(r.log);
  }

  lemma FailDeliverySettles(w: World, m: Mode, r: Run)
    requires m.settles && r.err.None?
    ensures var f := FailDelivery(w, m, r);
      && OneMore(Settlements(r.log), Settlements(f.0.log)) && f.0.out == r.out
      && (f.0.err.None? ==> Settlements(f.0.log) == Settlements(r.log) + [if f.1 then Reject else Requeue(None)])
  {
    if FailDelivery(w, m, r).1 {
      RejectionSettles(w, m, r);
    } else {
      RefusedFailSettles(w, m, r);
    }
  }

  lemma FailAndReportSettles(w: World, t: Task, m: Mode, r: Run)
    requires m.settles && r.out.action in {Some(FAIL), Some(DEAD_LETTER)} && r.out.retryDelay.None?
    ensures r.err.None? ==> SettlesOnce(Settlements(r.log), FailAndReport(w, t, m, r))
  {
    if r.err.None? {
      FailDeliverySettles(w, m, r);
      var f := FailDelivery(w, m, r);
      if f.0.err.None? {
        var action := if f.1 then f.0.out.action else Some(RETRY);
        var g := f.0.(out := f.0.out.(terminal := f.1, action := action));
        ReportSettles(Settlements(r.log), w, g, Emit(FAILED));
        CaptureSettles(Settlements(r.log), w, t, Do(w, g, Emit(FAILED)));
      }
    }
  }

  lemma DeadLetterFailedSettles(w: World, m: Mode, r: Run)
    requires m.settles && r.out.retryDelay.None?
    ensures SettlesOnce(Settlements(r.log), DeadLetterFailed(w, m, r))
  {
    var out := r.out.(deadLetterAttempted := true, deadLetterPublished := Some(false), action := Some(RETRY));
    var q := r.(err := None, out := out);
    ApplyRetrySettles(w, m, q, None);
    ReportSettles(Settlements(r.log), w, ApplyRetry(w, m, q, None), Emit(RETRIED));
  }

  lemma {:induction false} DeadAllKeeps(w: World, m: Mode, r: Run, sinks: seq<Sink>, sent: bool)
    ensures DeadAll(w, m, r, sinks, sent).0.out == r.out
    decreases |sinks|
  {
    if r.err.None? && sinks != [] {
      var d := Do(w, r, if m.production then SendDead(sinks[0]) else Dispatch(sinks[0], true));
      DeadAllKeeps(w, m, d, sinks[1..], sent || m.production || LastFlag(d));
    }
  }

  lemma GiveUpSettles(w: World, t: Task, m: Mode, r: Run)
    requires m.settles && r.err.None? && r.out.retryDelay.None?
    ensures SettlesOnce(Settlements(r.log), GiveUp(w, t, m, r))
  {
    if t.deadLetters == [] {
      FailAndReportSettles(w, t, m, r.(out := r.out.(action := Some(FAIL))));
    } else {
      var q := r.(out := r.out.(action := Some(DEAD_LETTER)));
      var d := DeadAll(w, m, q, t.deadLetters, false);
      DeadAllAdds(w, m, q, t.deadLetters, false);
      DeadAllKeeps(w, m, q, t.deadLetters, false);
      Unsettled(r.log, d.0.log, {DeadCall});
      if d.0.err.Some? && d.0.err.value != Cancelled {
        DeadLetterFailedSettles(w, m, d.0);
        CaptureSettles(Settlements(r.log), w, t, DeadLetterFailed(w, m, d.0));
      } else if d.0.err.None? {
        var published := if d.1 then Some(true) else None;
        var e := d.0.(out := d.0.out.(deadLetterAttempted := d.1, deadLetterPublished := published));
        Done(w, e, Emit(DEAD_LETTERED));
        var g := Do(w, e, Emit(DEAD_LETTERED));
        FailAndReportSettles(w, t, m, g);
      }
    }
  }

  lemma HandleFailureSettles(w: World, t: Task, m: Mode, attempts: nat, r: Run, kind: Retry.FailureKind)
    requires m.settles && r.out.retryDelay.None?
    ensures SettlesOnce(Settlements(r.log), HandleFailure(w, t, m, attempts, r, kind))
  {
    var f := OnFailure(w, t, r, kind);
    OnFailureAdds(w, t, r, kind);
    OnFailureKeeps(w, t, r, kind);
    Unsettled(r.log, f.log, {HookCall, ReportCall});
    if f.err.None? {
      match Retry.OnError(t.policy, attempts, kind, w.draw(f.log))
      case Retry(delay) =>
        var q := f.(out := f.out.(action := Some(RETRY), retryDelay := delay));
        ApplyRetrySettles(w, m, q, delay);
        ReportSettles(Settlements(r.log), w, ApplyRetry(w, m, q, delay), Emit(RETRIED));
        CaptureSettles(Settlements(r.log), w, t, Do(w, ApplyRetry(w, m, q, delay), Emit(RETRIED)));
      case Fail => GiveUpSettles(w, t, m, f);
    }
  }

  lemma {:induction false} HooksKeep(w: World, r: Run, kind: HookKind, i: nat, n: nat, suppress: bool)
    ensures var h := Hooks(w, r, kind, i, n, suppress); h.out == r.out && h.stage == r.stage
    decreases n - i
  {
    if r.err.None? && i < n {
      var h := Do(w, r, Hook(kind, i));
      HooksKeep(w, if suppress && h.err.Some? && h.err.value != Cancelled then h.(err := None) else h, kind, i + 1, n, suppress);
    }
  }

  lemma OnFailureKeeps(w: World, t: Task, r: Run, kind: Retry.FailureKind)
    ensures OnFailure(w, t, r, kind).out
      == r.out.(failure := Some(kind), failureStage := Some(r.stage), completion := Failed)
  {
    var out := r.out.(failure := Some(kind), failureStage := Some(r.stage), completion := Failed);
    HooksKeep(w, Do(w, r.(err := None, out := out), Checkpoint(FailureStage, false)), ON_FAILURE, 0, t.onFailure, true);
  }

  // ----------------------------------------------- the record along the way

  lemma {:induction false} SelectKeeps(w: World, r: Run, targets: seq<Target>, i: nat, bs: seq<Binding>)
    requires i <= |targets|
    ensures var s := Select(w, r, targets, i, bs).0; s.out == r.out && s.stage == r.stage
    decreases |targets| - i
  {
    if r.err.None? && i < |targets| {
      match targets[i]
      case Bound(b) => SelectKeeps(w, r, targets, i + 1, bs + [b]);
      case Route(conditional, chosen, otherwise) =>
        if !conditional {
          SelectKeeps(w, r, targets, i + 1, bs + chosen);
        } else {
          var d := Do(w, r, Decide(i));
          SelectKeeps(w, d, targets, i + 1, bs + if LastFlag(d) then chosen else otherwise);
        }
    }
  }

  lemma {:induction false} PrepareKeeps(w: World, r: Run, bindings: seq<Binding>, i: nat, done: seq<(Sink, Body)>)
    requires i <= |bindings|
    ensures var p := Prepare(w, r, bindings, i, done).0; p.out == r.out && p.stage == r.stage
    decreases |bindings| - i
  {
    if r.err.None? && i < |bindings| {
      if !bindings[i].transformed {
        PrepareKeeps(w, r, bindings, i + 1, done + [(bindings[i].sink, r.out.result)]);
      } else {
        var x := Do(w, r, Transform(i));
        PrepareKeeps(w, x, bindings, i + 1, done + [(bindings[i].sink, LastBody(x))]);
      }
    }
  }

  lemma {:induction false} SendToSinkKeeps(w: World, r: Run, sink: Sink, body: Body, tries: nat)
    requires 0 < tries
    ensures var s := SendToSink(w, r, sink, body, tries); s.out == r.out && s.stage == r.stage
    decreases tries
  {
    var s := Do(w, r, Send(sink, body));
    if !(r.err.Some? || s.err.None? || !s.err.value.Connector? || !Retryable(s.err.value.kind) || tries == 1) {
      var delay := RetryDelay(s.err.value.kind, s.err.value.retryDelay, sink.pollInterval);
      SendToSinkKeeps(w, s.(err := None), sink, body, tries - 1);
      SendToSinkKeeps(w, Do(w, s.(err := None), Backoff(delay)).(err := None), sink, body, tries - 1);
    }
  }

  lemma {:induction false} SendAllKeeps(w: World, m: Mode, r: Run, envelopes: seq<(Sink, Body)>)
    ensures SendAll(w, m, r, envelopes).out == r.out
    decreases |envelopes|
  {
    if r.err.None? && envelopes != [] {
      var s := r.(stage := SinkStage);
      SendToSinkKeeps(w, s, envelopes[0].0, envelopes[0].1, SEND_ATTEMPTS);
      SendAllKeeps(w, m, DispatchOne(w, m, s, envelopes[0].0, envelopes[0].1), envelopes[1..]);
    }
  }

  lemma BeforeKeeps(w: World, t: Task, r: Run)
    ensures RunBefore(w, t, r).out == r.out
  {
    HooksKeep(w, Enter(w, r, BeforeStage), BEFORE, 0, t.before, false);
  }

  lemma HandlerKeeps(w: World, r: Run)
    ensures var c := RunHandler(w, r); c.out == r.out.(result := c.out.result)
  {
  }

  lemma AfterKeeps(w: World, t: Task, c: Run)
    ensures var r := RunAfter(w, t, c);
      c.log <= r.log && r.out == c.out && (c.err.Some? ==> r.err.Some?)
  {
    HooksKeep(w, Enter(w, c, AfterStage), AFTER_SUCCESS, 0, t.afterSuccess, false);
    HooksAdd(w, Enter(w, c, AfterStage), AFTER_SUCCESS, 0, t.afterSuccess, false);
  }

  lemma RouteKeeps(w: World, t: Task, r: Run)
    ensures var s := RunRoute(w, t, r).0; s.out == r.out.(selected := s.out.selected)
  {
    SelectKeeps(w, Enter(w, r, RouteStage), t.targets, 0, []);
  }

  lemma TransformKeeps(w: World, r: Run, bindings: seq<Binding>)
    ensures RunTransform(w, r, bindings).0.out == r.out
  {
    PrepareKeeps(w, Enter(w, r, TransformStage), bindings, 0, []);
  }

  lemma SinksKeep(w: World, t: Task, m: Mode, r: Run)
    ensures var x := RunSinks(w, t, m, r);
      x.out == r.out.(selected := x.out.selected) && (r.err.Some? ==> x.err.Some?)
  {
    if !(r.err.Some? || r.out.result.None? || t.targets == []) {
      var s := RunRoute(w, t, r);
      RouteKeeps(w, t, r);
      var p := RunTransform(w, s.0, s.1);
      TransformKeeps(w, s.0, s.1);
      SendAllKeeps(w, m, p.0, p.1);
    }
  }

  /** Up to the acknowledgement only the result and the selected sinks are recorded. */
  lemma UpToAckKeeps(w: World, t: Task, m: Mode)
    ensures var out := UpToAck(w, t, m).out; out == FRESH.(result := out.result, selected := out.selected)
  {
    var a := Begin(w);
    var b := RunBefore(w, t, a);
    BeforeKeeps(w, t, a);
    var c := RunHandler(w, b);
    HandlerKeeps(w, b);
    AfterKeeps(w, t, c);
    SinksKeep(w, t, m, RunAfter(w, t, c));
  }

  // ---------------------------------------------------------- the settlement

  /** The run of the body, the acknowledgement included. */
  function Attempt(w: World, t: Task, m: Mode): Run { RunAck(w, m, UpToAck(w, t, m)) }

  /** The acknowledgement went through, but a call after it raised. */
  predicate RaisedAfterAck(w: World, t: Task) {
    var b := Attempt(w, t, PRODUCTION);
    Settlements(b.log) == [Ack] && b.err.Some?
  }

  /** The two calls after the ack never raise. */
  ghost predicate QuietAfterAck(w: World) {
    forall log :: w.reply(log, Checkpoint(AckStage, true)).Answers? && w.reply(log, Emit(SUCCEEDED)).Answers?
  }

  /** The calls of `RunAck`, one by one. */
  lemma AckSteps(w: World, r: Run) returns (q: Run, a: Run, c: Run, d: Run, e: Run)
    requires r.err.None?
    ensures q == r.(out := r.out.(action := Some(ACK)), stage := AckStage)
    ensures a == Do(w, q, Checkpoint(AckStage, false)) && c == Do(w, a, Ack) && d == Do(w, c, Checkpoint(AckStage, true))
    ensures e == Do(w, d, Emit(SUCCEEDED))
    ensures var b := RunAck(w, PRODUCTION, r);
      b == if e.err.Some? then e else e.(out := e.out.(completion := Succeeded, terminal := true))
  {
    q := r.(out := r.out.(action := Some(ACK)), stage := AckStage);
    a := Do(w, q, Checkpoint(AckStage, false));
    c := Do(w, a, Ack);
    d := Do(w, c, Checkpoint(AckStage, true));
    e := Do(w, d, Emit(SUCCEEDED));
    assert a == Enter(w, r.(out := r.out.(action := Some(ACK))), AckStage) && d == Leave(w, c);
  }

  lemma AckSettles(w: World, r: Run)
    requires r.err.None?
    ensures var b := RunAck(w, PRODUCTION, r);
      && (Settlements(b.log) == Settlements(r.log) || Settlements(b.log) == Settlements(r.log) + [Ack])
      && b.out.retryDelay == r.out.retryDelay && b.out.action == Some(ACK)
      && (b.err.None? ==> Settlements(b.log) == Settlements(r.log) + [Ack])
      && (QuietAfterAck(w) && b.err.Some? ==> Settlements(b.log) == Settlements(r.log))
  {
    var q, a, c, d, e := AckSteps(w, r);
    BracketSettles(w, q, Checkpoint(AckStage, false), Ack, Checkpoint(AckStage, true));
    Done(w, d, Emit(SUCCEEDED));
  }

  lemma UpToAckSettles(w: World, t: Task) returns (r: Run)
    ensures r == UpToAck(w, t, PRODUCTION) && Settlements(r.log) == [] && r.out.retryDelay.None?
  {
    r := UpToAck(w, t, PRODUCTION);
    UpToAckAdds(w, t, PRODUCTION);
    UpToAckKeeps(w, t, PRODUCTION);
    Unsettled([], r.log, BODY);
  }

  lemma BodySettles(w: World, t: Task)
    ensures var b := Attempt(w, t, PRODUCTION);
      && (Settlements(b.log) == [] || Settlements(b.log) == [Ack]) && b.out.retryDelay.None?
      && (b.err.None? ==> Settlements(b.log) == [Ack] && b.out.action == Some(ACK))
      && (QuietAfterAck(w) && b.err.Some? ==> Settlements(b.log) == [])
  {
    var r := UpToAckSettles(w, t);
    if r.err.None? {
      AckSettles(w, r);
    }
  }

  lemma CancelledSettles(w: World, t: Task, r: Run)
    requires r.out.retryDelay.None?
    ensures var x := HandleCancelled(w, t, PRODUCTION, r);
      x.err.Some? && OneMore(Settlements(r.log), Settlements(x.log))
  {
    var out := r.out.(failure := Some(Retry.CANCELLED), failureStage := Some(r.stage), action := Some(RETRY),
                      completion := CancelledRun, terminal := false);
    var q := r.(err := None, out := out);
    var c := Do(w, q, Emit(CANCELLED));
    var d := Do(w, c, Requeue(None));
    BracketSettles(w, q, Emit(CANCELLED), Requeue(None), Emit(RETRIED));
    CaptureAdds(w, t, Do(w, d, Emit(RETRIED)));
    Unsettled(Do(w, d, Emit(RETRIED)).log, WriteCapture(w, t, Do(w, d, Emit(RETRIED))).log, {ReportCall});
  }

  /** Whatever the world does, the settlement calls that complete are: an ack, if the
      body got that far, and after a failure or a cancellation at most one more.  When an
      outcome is returned the last one is what the outcome says, and it is the only one
      exactly unless a call after the ack raised. */
  lemma ExecuteSettles(w: World, t: Task, attempts: nat)
    ensures var x := Execute(w, t, PRODUCTION, attempts);
      && (RaisedAfterAck(w, t) ==> [Ack] <= Settlements(x.log))
      && |Settlements(x.log)| <= (if RaisedAfterAck(w, t) then 2 else 1)
      && (x.err.None? ==> SettlementOf(x.out).Some?)
      && (x.err.None? ==>
            Settlements(x.log) == (if RaisedAfterAck(w, t) then [Ack] else []) + [SettlementOf(x.out).value])
  {
    BodySettles(w, t);
    var b := Attempt(w, t, PRODUCTION);
    if b.err.Some? {
      match b.err.value
      case Cancelled => CancelledSettles(w, t, b);
      case TimedOut => HandleFailureSettles(w, t, PRODUCTION, attempts, b, Retry.TIMEOUT);
      case _ => HandleFailureSettles(w, t, PRODUCTION, attempts, b, Retry.ERROR);
    }
  }

  /** Where nothing raises after the ack, one settlement at most, and exactly one for
      every returned outcome. */
  lemma SettledOnce(w: World, t: Task, attempts: nat)
    requires QuietAfterAck(w)
    ensures var x := Execute(w, t, PRODUCTION, attempts);
      |Settlements(x.log)| <= 1 && (x.err.None? ==> |Settlements(x.log)| == 1)
  {
    BodySettles(w, t);
    ExecuteSettles(w, t, attempts);
  }

  // --------------------------------------------------- when settling twice

  /** Reports and settlements answer, but for the report of success, and nobody cancels. */
  ghost predicate Calm(w: World) {
    forall log, call ::
      && (ClassOf(call) in {AckCall, RequeueCall, RejectCall, ReportCall} && call != Emit(SUCCEEDED) ==> w.reply(log, call).Answers?)
      && w.reply(log, call) != Raises(Cancelled)
  }

  lemma DoCalm(w: World, r: Run, call: Call)
    requires Calm(w) && r.err.None? && ClassOf(call) in {AckCall, RequeueCall, RejectCall, ReportCall} && call != Emit(SUCCEEDED)
    ensures Do(w, r, call).err.None?
  {
    assert w.reply(r.log, call).Answers?;
  }

  lemma {:induction false} HooksCalm(w: World, r: Run, kind: HookKind, i: nat, n: nat)
    requires Calm(w) && r.err.None?
    ensures Hooks(w, r, kind, i, n, true).err.None?
    decreases n - i
  {
    if i < n {
      var h := Do(w, r, Hook(kind, i));
      HooksCalm(w, if h.err.Some? then h.(err := None) else h, kind, i + 1, n);
    }
  }

  lemma ApplyRetryCalm(w: World, m: Mode, r: Run, delay: Option<real>)
    requires Calm(w) && r.err.None?
    ensures ApplyRetry(w, m, r, delay).err.None?
  {
    var a := Do(w, r, Checkpoint(DeliveryStage, false));
    DoCalm(w, r, Checkpoint(DeliveryStage, false));
    DoCalm(w, a, Requeue(delay));
    DoCalm(w, if m.settles then Do(w, a, Requeue(delay)) else a, Checkpoint(DeliveryStage, true));
  }

  lemma CaptureCalm(w: World, t: Task, r: Run)
    requires Calm(w) && r.err.None?
    ensures WriteCapture(w, t, r).err.None?
  {
    DoCalm(w, r, Record);
  }

  lemma FailAndReportCalm(w: World, t: Task, m: Mode, r: Run)
    requires Calm(w) && r.err.None?
    ensures FailAndReport(w, t, m, r).err.None?
  {
    if m.settles {
      DoCalm(w, r, Checkpoint(DeliveryStage, false));
      var c := Do(w, r, Checkpoint(DeliveryStage, false));
      DoCalm(w, c, Reject);
      DoCalm(w, Do(w, c, Reject), Checkpoint(DeliveryStage, true));
    }
    var f := FailDelivery(w, m, r);
    var action := if f.1 then f.0.out.action else Some(RETRY);
    var q := f.0.(out := f.0.out.(terminal := f.1, action := action));
    DoCalm(w, q, Emit(FAILED));
    CaptureCalm(w, t, Do(w, q, Emit(FAILED)));
  }

  lemma {:induction false} DeadAllCalm(w: World, m: Mode, r: Run, sinks: seq<Sink>, sent: bool)
    requires Calm(w) && r.err != Some(Cancelled)
    ensures DeadAll(w, m, r, sinks, sent).0.err != Some(Cancelled)
    decreases |sinks|
  {
    if r.err.None? && sinks != [] {
      var call := if m.production then SendDead(sinks[0]) else Dispatch(sinks[0], true);
      assert w.reply(r.log, call) != Raises(Cancelled);
      var d := Do(w, r, call);
      DeadAllCalm(w, m, d, sinks[1..], sent || m.production || LastFlag(d));
    }
  }

  lemma GiveUpCalm(w: World, t: Task, m: Mode, r: Run)
    requires Calm(w) && r.err.None?
    ensures GiveUp(w, t, m, r).err.None?
  {
    if t.deadLetters == [] {
      FailAndReportCalm(w, t, m, r.(out := r.out.(action := Some(FAIL))));
    } else {
      var q := r.(out := r.out.(action := Some(DEAD_LETTER)));
      DeadAllCalm(w, m, q, t.deadLetters, false);
      var d := DeadAll(w, m, q, t.deadLetters, false);
      if d.0.err.Some? {
        var out := d.0.out.(deadLetterAttempted := true, deadLetterPublished := Some(false), action := Some(RETRY));
        ApplyRetryCalm(w, m, d.0.(err := None, out := out), None);
        DoCalm(w, ApplyRetry(w, m, d.0.(err := None, out := out), None), Emit(RETRIED));
        CaptureCalm(w, t, DeadLetterFailed(w, m, d.0));
      } else {
        var published := if d.1 then Some(true) else None;
        var e := d.0.(out := d.0.out.(deadLetterAttempted := d.1, deadLetterPublished := published));
        DoCalm(w, e, Emit(DEAD_LETTERED));
        FailAndReportCalm(w, t, m, Do(w, e, Emit(DEAD_LETTERED)));
      }
    }
  }

  lemma HandleFailureCalm(w: World, t: Task, m: Mode, attempts: nat, r: Run, kind: Retry.FailureKind)
    requires Calm(w)
    ensures HandleFailure(w, t, m, attempts, r, kind).err.None?
  {
    var out := r.out.(failure := Some(kind), failureStage := Some(r.stage), completion := Failed);
    var q := r.(err := None, out := out);
    DoCalm(w, q, Checkpoint(FailureStage, false));
    var e := Do(w, q, Checkpoint(FailureStage, false));
    HooksCalm(w, e, ON_FAILURE, 0, t.onFailure);
    DoCalm(w, Hooks(w, e, ON_FAILURE, 0, t.onFailure, true), Checkpoint(FailureStage, true));
    var f := OnFailure(w, t, r, kind);
    match Retry.OnError(t.policy, attempts, kind, w.draw(f.log))
    case Retry(delay) =>
      var g := f.(out := f.out.(action := Some(RETRY), retryDelay := delay));
      ApplyRetryCalm(w, m, g, delay);
      DoCalm(w, ApplyRetry(w, m, g, delay), Emit(RETRIED));
      CaptureCalm(w, t, Do(w, ApplyRetry(w, m, g, delay), Emit(RETRIED)));
    case Fail => GiveUpCalm(w, t, m, f);
  }

  /** A delivery is settled twice, with a returned outcome, in every calm world in which
      the ack went through and the report of success did not. */
  lemma SettledTwice(w: World, t: Task, attempts: nat)
    requires Calm(w) && RaisedAfterAck(w, t) && Attempt(w, t, PRODUCTION).err != Some(Cancelled)
    ensures var x := Execute(w, t, PRODUCTION, attempts);
      x.err.None? && |Settlements(x.log)| == 2 && Settlements(x.log)[0] == Ack
  {
    ExecuteSettles(w, t, attempts);
    HandleFailureCalm(w, t, PRODUCTION, attempts, Attempt(w, t, PRODUCTION), Retry.TIMEOUT);
    HandleFailureCalm(w, t, PRODUCTION, attempts, Attempt(w, t, PRODUCTION), Retry.ERROR);
  }

  /** It does happen: a task without hooks and sinks whose success report raises. */
  lemma SettledTwiceExample() returns (w: World, t: Task)
    ensures var x := Execute(w, t, PRODUCTION, 0);
      x.err.None? && |Settlements(x.log)| == 2 && Settlements(x.log)[0] == Ack
  {
    t := Task(0, 0, 0, [], [], Retry.MaxAttempts(3, None), Off);
    w := World((log, call) => if call == Emit(SUCCEEDED) then Raises(OtherError) else Answers(None, false),
               log => false, log => 0.0);
    QuietUntilAck(w, t);
    var r := UpToAckSettles(w, t);
    SuccessUnreported(w, r);
    SettledTwice(w, t, 0);
  }

  lemma SuccessUnreported(w: World, r: Run)
    requires Calm(w) && r.err.None? && Settlements(r.log) == []
    requires forall log :: w.reply(log, Emit(SUCCEEDED)) == Raises(OtherError)
    ensures var b := RunAck(w, PRODUCTION, r); b.err == Some(OtherError) && Settlements(b.log) == [Ack]
  {
    var q, a, c, d, e := AckSteps(w, r);
    DoCalm(w, q, Checkpoint(AckStage, false));
    DoCalm(w, a, Ack);
    DoCalm(w, c, Checkpoint(AckStage, true));
    BracketSettles(w, q, Checkpoint(AckStage, false), Ack, Checkpoint(AckStage, true));
    Done(w, d, Emit(SUCCEEDED));
  }

  lemma QuietUntilAck(w: World, t: Task)
    requires t.before == t.afterSuccess == 0 && t.targets == []
    requires forall log, call :: call != Emit(SUCCEEDED) ==> w.reply(log, call).Answers?
    ensures UpToAck(w, t, PRODUCTION).err.None?
  {
    var a := Begin(w);
    var b := RunBefore(w, t, a);
    QuietStages(w, t, a);
    var c := RunHandler(w, b);
    QuietStages(w, t, b);
    QuietStages(w, t, c);
  }

  lemma QuietStages(w: World, t: Task, r: Run)
    requires t.before == t.afterSuccess == 0 && r.err.None?
    requires forall log, call :: call != Emit(SUCCEEDED) ==> w.reply(log, call).Answers?
    ensures RunBefore(w, t, r).err.None? && RunHandler(w, r).err.None? && RunAfter(w, t, r).err.None?
  {
  }
}
