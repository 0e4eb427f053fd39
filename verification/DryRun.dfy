/** A dry run, which neither sends nor settles, predicts the production run. */
module DryRun {
  import opened Wrappers
  import opened Execution
  import Retry

  predicate IsUser(call: Call) { call.Hook? || call.Handle? || call.Decide? || call.Transform? }

  /** In both worlds the user's code does the same, and everything else succeeds.  No
      execution makes a user call twice (`UserCalls.UserCallsOnce`), so user code may answer
      by the call alone. */
  ghost predicate SameUserCode(w: World, v: World) {
    && (forall a, b, call :: IsUser(call) ==> w.reply(a, call) == v.reply(b, call))
    && (forall log, call :: !IsUser(call) ==> w.reply(log, call).Answers? && v.reply(log, call).Answers?)
    && (forall a, b :: w.draw(a) == v.draw(b))
  }

  /** The outcome without what it says of dead letters having been sent. */
  function Predicted(out: Outcome): Outcome { out.(deadLetterAttempted := false, deadLetterPublished := None) }

  predicate Alike(r: Run, s: Run) {
    r.err == s.err && r.stage == s.stage && Predicted(r.out) == Predicted(s.out)
  }

  ghost predicate Succeeds(w: World) { forall log, call :: !IsUser(call) ==> w.reply(log, call).Answers? }

  // ------------------------------------------------------------- single calls

  /** A call outside the user's code changes nothing but the log. */
  lemma Silent(w: World, r: Run, call: Call)
    requires Succeeds(w) && !IsUser(call)
    ensures var d := Do(w, r, call); d.err == r.err && d.stage == r.stage && d.out == r.out
  {
    assert w.reply(r.log, call).Answers?;
  }

  lemma SameCall(w: World, v: World, r: Run, s: Run, call: Call)
    requires SameUserCode(w, v) && Alike(r, s)
    ensures Alike(Do(w, r, call), Do(v, s, call))
    ensures r.err.None? && IsUser(call) ==>
      LastBody(Do(w, r, call)) == LastBody(Do(v, s, call)) && LastFlag(Do(w, r, call)) == LastFlag(Do(v, s, call))
  {
    if IsUser(call) {
      assert w.reply(r.log, call) == v.reply(s.log, call);
    } else {
      assert w.reply(r.log, call).Answers? && v.reply(s.log, call).Answers?;
    }
  }

  lemma SameEnter(w: World, v: World, r: Run, s: Run, stage: Stage)
    requires SameUserCode(w, v) && Alike(r, s)
    ensures Alike(Enter(w, r, stage), Enter(v, s, stage))
  {
    SameCall(w, v, r.(stage := stage), s.(stage := stage), Checkpoint(stage, false));
  }

  lemma {:induction false} SameHooks(w: World, v: World, r: Run, s: Run, kind: HookKind, i: nat, n: nat, suppress: bool)
    requires SameUserCode(w, v) && Alike(r, s)
    ensures Alike(Hooks(w, r, kind, i, n, suppress), Hooks(v, s, kind, i, n, suppress))
    decreases n - i
  {
    if r.err.None? && i < n {
      SameCall(w, v, r, s, Hook(kind, i));
      var h, g := Do(w, r, Hook(kind, i)), Do(v, s, Hook(kind, i));
      if suppress && h.err.Some? && h.err.value != Cancelled {
        SameHooks(w, v, h.(err := None), g.(err := None), kind, i + 1, n, suppress);
      } else {
        SameHooks(w, v, h, g, kind, i + 1, n, suppress);
      }
    }
  }

  lemma {:induction false} SameSelect(w: World, v: World, r: Run, s: Run, targets: seq<Target>, i: nat, bs: seq<Binding>)
    requires SameUserCode(w, v) && Alike(r, s) && i <= |targets|
    ensures var x, y := Select(w, r, targets, i, bs), Select(v, s, targets, i, bs);
      Alike(x.0, y.0) && (x.0.err.None? ==> x.1 == y.1)
    decreases |targets| - i
  {
    if r.err.None? && i < |targets| {
      match targets[i]
      case Bound(b) => SameSelect(w, v, r, s, targets, i + 1, bs + [b]);
      case Route(conditional, chosen, otherwise) =>
        if !conditional {
          SameSelect(w, v, r, s, targets, i + 1, bs + chosen);
        } else {
          SameCall(w, v, r, s, Decide(i));
          SameSelect(w, v, Do(w, r, Decide(i)), Do(v, s, Decide(i)), targets, i + 1,
                     bs + if LastFlag(Do(w, r, Decide(i))) then chosen else otherwise);
        }
    }
  }

  lemma {:induction false} SamePrepare(w: World, v: World, r: Run, s: Run, bindings: seq<Binding>, i: nat,
                                       done: seq<(Sink, Body)>)
    requires SameUserCode(w, v) && Alike(r, s) && i <= |bindings|
    ensures var x, y := Prepare(w, r, bindings, i, done), Prepare(v, s, bindings, i, done);
      Alike(x.0, y.0) && (x.0.err.None? ==> x.1 == y.1)
    decreases |bindings| - i
  {
    if r.err.None? && i < |bindings| {
      if !bindings[i].transformed {
        SamePrepare(w, v, r, s, bindings, i + 1, done + [(bindings[i].sink, r.out.result)]);
      } else {
        SameCall(w, v, r, s, Transform(i));
        var x := Do(w, r, Transform(i));
        SamePrepare(w, v, x, Do(v, s, Transform(i)), bindings, i + 1, done + [(bindings[i].sink, LastBody(x))]);
      }
    }
  }

  /** Sending everywhere succeeds, and leaves the sink stage active if there was a send. */
  lemma {:induction false} SendAllSucceeds(w: World, m: Mode, r: Run, envelopes: seq<(Sink, Body)>)
    requires Succeeds(w)
    ensures var s := SendAll(w, m, r, envelopes);
      && s.err == r.err && s.out == r.out
      && s.stage == if r.err.Some? || envelopes == [] then r.stage else SinkStage
    decreases |envelopes|
  {
    if r.err.None? && envelopes != [] {
      var q := r.(stage := SinkStage);
      Silent(w, q, Send(envelopes[0].0, envelopes[0].1));
      Silent(w, q, Dispatch(envelopes[0].0, false));
      SendAllSucceeds(w, m, DispatchOne(w, m, q, envelopes[0].0, envelopes[0].1), envelopes[1..]);
    }
  }

  lemma {:induction false} DeadAllSucceeds(w: World, m: Mode, r: Run, sinks: seq<Sink>, sent: bool)
    requires Succeeds(w)
    ensures var d := DeadAll(w, m, r, sinks, sent).0; d.err == r.err && d.stage == r.stage && d.out == r.out
    decreases |sinks|
  {
    if r.err.None? && sinks != [] {
      var call := if m.production then SendDead(sinks[0]) else Dispatch(sinks[0], true);
      Silent(w, r, call);
      var d := Do(w, r, call);
      DeadAllSucceeds(w, m, d, sinks[1..], sent || m.production || LastFlag(d));
    }
  }

  // -------------------------------------------------------------- the stages

  lemma SameBegin(w: World, v: World)
    requires SameUserCode(w, v)
    ensures Alike(Begin(w), Begin(v))
  {
    var r := Run([], None, DeliveryStage, FRESH);
    SameCall(w, v, r, r, Start);
    SameCall(w, v, Do(w, r, Start), Do(v, r, Start), Emit(STARTED));
  }

  lemma SameBefore(w: World, v: World, t: Task, r: Run, s: Run)
    requires SameUserCode(w, v) && Alike(r, s)
    ensures Alike(RunBefore(w, t, r), RunBefore(v, t, s))
  {
    var a, b := Enter(w, r, BeforeStage), Enter(v, s, BeforeStage);
    SameEnter(w, v, r, s, BeforeStage);
    SameHooks(w, v, a, b, BEFORE, 0, t.before, false);
    var h, g := Hooks(w, a, BEFORE, 0, t.before, false), Hooks(v, b, BEFORE, 0, t.before, false);
    SameCall(w, v, h, g, Checkpoint(h.stage, true));
  }

  lemma SameAfter(w: World, v: World, t: Task, r: Run, s: Run)
    requires SameUserCode(w, v) && Alike(r, s)
    ensures Alike(RunAfter(w, t, r), RunAfter(v, t, s))
  {
    var a, b := Enter(w, r, AfterStage), Enter(v, s, AfterStage);
    SameEnter(w, v, r, s, AfterStage);
    SameHooks(w, v, a, b, AFTER_SUCCESS, 0, t.afterSuccess, false);
    var h, g := Hooks(w, a, AFTER_SUCCESS, 0, t.afterSuccess, false), Hooks(v, b, AFTER_SUCCESS, 0, t.afterSuccess, false);
    SameCall(w, v, h, g, Checkpoint(h.stage, true));
  }

  lemma SameHandler(w: World, v: World, r: Run, s: Run)
    requires SameUserCode(w, v) && Alike(r, s)
    ensures Alike(RunHandler(w, r), RunHandler(v, s))
  {
    var a, b := Enter(w, r, HandlerStage), Enter(v, s, HandlerStage);
    SameEnter(w, v, r, s, HandlerStage);
    SameCall(w, v, a, b, Handle);
    var h, g := Do(w, a, Handle), Do(v, b, Handle);
    if h.err.None? {
      var h', g' := h.(out := h.out.(result := LastBody(h))), g.(out := g.out.(result := LastBody(g)));
      SameCall(w, v, h', g', Checkpoint(h'.stage, true));
    }
  }

  lemma SameRoute(w: World, v: World, t: Task, r: Run, s: Run)
    requires SameUserCode(w, v) && Alike(r, s)
    ensures var x, y := RunRoute(w, t, r), RunRoute(v, t, s); Alike(x.0, y.0) && (x.0.err.None? ==> x.1 == y.1)
  {
    SameEnter(w, v, r, s, RouteStage);
    var a, b := Enter(w, r, RouteStage), Enter(v, s, RouteStage);
    SameSelect(w, v, a, b, t.targets, 0, []);
    var x, y := Select(w, a, t.targets, 0, []), Select(v, b, t.targets, 0, []);
    if x.0.err.None? {
      var x', y' := x.0.(out := x.0.out.(selected := SinksOf(x.1))), y.0.(out := y.0.out.(selected := SinksOf(y.1)));
      SameCall(w, v, x', y', Checkpoint(x'.stage, true));
    }
  }

  lemma SameTransform(w: World, v: World, r: Run, s: Run, bindings: seq<Binding>)
    requires SameUserCode(w, v) && Alike(r, s)
    ensures var x, y := RunTransform(w, r, bindings), RunTransform(v, s, bindings);
      Alike(x.0, y.0) && (x.0.err.None? ==> x.1 == y.1)
  {
    SameEnter(w, v, r, s, TransformStage);
    var a, b := Enter(w, r, TransformStage), Enter(v, s, TransformStage);
    SamePrepare(w, v, a, b, bindings, 0, []);
    var x, y := Prepare(w, a, bindings, 0, []), Prepare(v, b, bindings, 0, []);
    SameCall(w, v, x.0, y.0, Checkpoint(x.0.stage, true));
  }

  lemma TransformOfFailed(w: World, r: Run, bindings: seq<Binding>)
    requires r.err.Some?
    ensures RunTransform(w, r, bindings).0 == r
  {
  }

  lemma SameSinks(w: World, v: World, t: Task, r: Run, s: Run)
    requires SameUserCode(w, v) && Alike(r, s)
    ensures Alike(RunSinks(w, t, PRODUCTION, r), RunSinks(v, t, DRY_RUN, s))
  {
    if !(r.err.Some? || r.out.result.None? || t.targets == []) {
      SameRoute(w, v, t, r, s);
      var x, y := RunRoute(w, t, r), RunRoute(v, t, s);
      if x.0.err.Some? {
        TransformOfFailed(w, x.0, x.1);
        TransformOfFailed(v, y.0, y.1);
      } else {
        SameTransform(w, v, x.0, y.0, x.1);
      }
      var p, q := RunTransform(w, x.0, x.1), RunTransform(v, y.0, y.1);
      SendAllSucceeds(w, PRODUCTION, p.0, p.1);
      SendAllSucceeds(v, DRY_RUN, q.0, q.1);
    }
  }

  lemma SameAck(w: World, v: World, r: Run, s: Run)
    requires SameUserCode(w, v) && Alike(r, s)
    ensures Alike(RunAck(w, PRODUCTION, r), RunAck(v, DRY_RUN, s))
  {
    if r.err.None? {
      var r', s' := r.(out := r.out.(action := Some(ACK))), s.(out := s.out.(action := Some(ACK)));
      SameEnter(w, v, r', s', AckStage);
      var a, b := Enter(w, r', AckStage), Enter(v, s', AckStage);
      Silent(w, a, Ack);
      SameCall(w, v, Do(w, a, Ack), b, Checkpoint(AckStage, true));
      SameCall(w, v, Leave(w, Do(w, a, Ack)), Leave(v, b), Emit(SUCCEEDED));
    }
  }

  lemma SameBody(w: World, v: World, t: Task)
    requires SameUserCode(w, v)
    ensures Alike(RunAck(w, PRODUCTION, UpToAck(w, t, PRODUCTION)), RunAck(v, DRY_RUN, UpToAck(v, t, DRY_RUN)))
  {
    SameBegin(w, v);
    var a, b := RunBefore(w, t, Begin(w)), RunBefore(v, t, Begin(v));
    SameBefore(w, v, t, Begin(w), Begin(v));
    var c, d := RunHandler(w, a), RunHandler(v, b);
    SameHandler(w, v, a, b);
    var e, f := RunAfter(w, t, c), RunAfter(v, t, d);
    SameAfter(w, v, t, c, d);
    SameSinks(w, v, t, e, f);
    SameAck(w, v, RunSinks(w, t, PRODUCTION, e), RunSinks(v, t, DRY_RUN, f));
  }

  // --------------------------------------------------------------- on failure

  lemma CaptureSilent(w: World, t: Task, r: Run)
    requires Succeeds(w)
    ensures var c := WriteCapture(w, t, r); c.err == r.err && c.stage == r.stage && c.out == r.out
  {
    Silent(w, r, Record);
  }

  lemma ApplyRetrySilent(w: World, m: Mode, r: Run, delay: Option<real>)
    requires Succeeds(w)
    ensures var c := ApplyRetry(w, m, r, delay); c.err == r.err && c.stage == r.stage && c.out == r.out
  {
    var a := Do(w, r, Checkpoint(DeliveryStage, false));
    Silent(w, r, Checkpoint(DeliveryStage, false));
    Silent(w, a, Requeue(delay));
    Silent(w, if m.settles then Do(w, a, Requeue(delay)) else a, Checkpoint(DeliveryStage, true));
  }

  lemma FailAndReportSucceeds(w: World, t: Task, m: Mode, r: Run)
    requires Succeeds(w) && r.err.None?
    ensures var f := FailAndReport(w, t, m, r);
      f.err.None? && f.stage == r.stage && f.out == r.out.(terminal := true)
  {
    var c := Do(w, r, Checkpoint(DeliveryStage, false));
    var f := Do(w, c, Reject);
    Silent(w, r, Checkpoint(DeliveryStage, false));
    Silent(w, c, Reject);
    Silent(w, f, Checkpoint(DeliveryStage, true));
    var d := FailDelivery(w, m, r).0;
    Silent(w, d.(out := d.out.(terminal := true)), Emit(FAILED));
    CaptureSilent(w, t, Do(w, d.(out := d.out.(terminal := true)), Emit(FAILED)));
  }

  lemma GiveUpSucceeds(w: World, t: Task, m: Mode, r: Run)
    requires Succeeds(w) && r.err.None?
    ensures var g := GiveUp(w, t, m, r);
      && g.err.None? && g.stage == r.stage
      && Predicted(g.out) == Predicted(r.out.(terminal := true,
           action := Some(if t.deadLetters == [] then FAIL else DEAD_LETTER)))
  {
    if t.deadLetters == [] {
      FailAndReportSucceeds(w, t, m, r.(out := r.out.(action := Some(FAIL))));
    } else {
      var q := r.(out := r.out.(action := Some(DEAD_LETTER)));
      DeadAllSucceeds(w, m, q, t.deadLetters, false);
      var d := DeadAll(w, m, q, t.deadLetters, false);
      var published := if d.1 then Some(true) else None;
      var e := d.0.(out := d.0.out.(deadLetterAttempted := d.1, deadLetterPublished := published));
      Silent(w, e, Emit(DEAD_LETTERED));
      FailAndReportSucceeds(w, t, m, Do(w, e, Emit(DEAD_LETTERED)));
    }
  }

  lemma SameFailure(w: World, v: World, t: Task, attempts: nat, r: Run, s: Run, kind: Retry.FailureKind)
    requires SameUserCode(w, v) && Alike(r, s)
    ensures Alike(HandleFailure(w, t, PRODUCTION, attempts, r, kind), HandleFailure(v, t, DRY_RUN, attempts, s, kind))
  {
    var f, g := OnFailure(w, t, r, kind), OnFailure(v, t, s, kind);
    SameOnFailure(w, v, t, r, s, kind);
    if f.err.None? {
      assert w.draw(f.log) == v.draw(g.log);
      match Retry.OnError(t.policy, attempts, kind, w.draw(f.log))
      case Retry(delay) =>
        RetrySucceeds(w, t, PRODUCTION, f, delay);
        RetrySucceeds(v, t, DRY_RUN, g, delay);
      case Fail =>
        GiveUpSucceeds(w, t, PRODUCTION, f);
        GiveUpSucceeds(v, t, DRY_RUN, g);
    }
  }

  lemma RetrySucceeds(w: World, t: Task, m: Mode, f: Run, delay: Option<real>)
    requires Succeeds(w)
    ensures var q := f.(out := f.out.(action := Some(RETRY), retryDelay := delay));
      var x := WriteCapture(w, t, Do(w, ApplyRetry(w, m, q, delay), Emit(RETRIED)));
      x.err == f.err && x.stage == f.stage && x.out == q.out
  {
    var q := f.(out := f.out.(action := Some(RETRY), retryDelay := delay));
    ApplyRetrySilent(w, m, q, delay);
    Silent(w, ApplyRetry(w, m, q, delay), Emit(RETRIED));
    CaptureSilent(w, t, Do(w, ApplyRetry(w, m, q, delay), Emit(RETRIED)));
  }

  lemma SameOnFailure(w: World, v: World, t: Task, r: Run, s: Run, kind: Retry.FailureKind)
    requires SameUserCode(w, v) && Alike(r, s)
    ensures Alike(OnFailure(w, t, r, kind), OnFailure(v, t, s, kind))
  {
    var r' := r.(err := None, out := r.out.(failure := Some(kind), failureStage := Some(r.stage), completion := Failed));
    var s' := s.(err := None, out := s.out.(failure := Some(kind), failureStage := Some(s.stage), completion := Failed));
    SameCall(w, v, r', s', Checkpoint(FailureStage, false));
    var a, b := Do(w, r', Checkpoint(FailureStage, false)), Do(v, s', Checkpoint(FailureStage, false));
    SameHooks(w, v, a, b, ON_FAILURE, 0, t.onFailure, true);
    SameCall(w, v, Hooks(w, a, ON_FAILURE, 0, t.onFailure, true), Hooks(v, b, ON_FAILURE, 0, t.onFailure, true),
             Checkpoint(FailureStage, true));
  }

  lemma SameCancelled(w: World, v: World, t: Task, r: Run, s: Run)
    requires SameUserCode(w, v) && Alike(r, s)
    ensures Alike(HandleCancelled(w, t, PRODUCTION, r), HandleCancelled(v, t, DRY_RUN, s))
  {
    CancelledSucceeds(w, t, PRODUCTION, r);
    CancelledSucceeds(v, t, DRY_RUN, s);
  }

  lemma CancelledSucceeds(w: World, t: Task, m: Mode, r: Run)
    requires Succeeds(w)
    ensures var x := HandleCancelled(w, t, m, r);
      && x.err == Some(Cancelled) && x.stage == r.stage
      && x.out == r.out.(failure := Some(Retry.CANCELLED), failureStage := Some(r.stage), action := Some(RETRY),
                         completion := CancelledRun, terminal := false)
  {
    var q := r.(err := None, out := r.out.(failure := Some(Retry.CANCELLED), failureStage := Some(r.stage),
                                           action := Some(RETRY), completion := CancelledRun, terminal := false));
    var c := Do(w, q, Emit(CANCELLED));
    Silent(w, q, Emit(CANCELLED));
    Silent(w, c, Requeue(None));
    var d := if m.settles then Do(w, c, Requeue(None)) else c;
    Silent(w, d, Emit(RETRIED));
    CaptureSilent(w, t, Do(w, d, Emit(RETRIED)));
  }

  /** With the user's code doing the same and all sends and settlements succeeding, the
      dry run ends as the production run does: same exception or none, same stage, and
      the same completion, action, delay, failure, terminal flag and selected sinks. */
  lemma DryRunPredicts(w: World, v: World, t: Task, attempts: nat)
    requires SameUserCode(w, v)
    ensures Alike(Execute(w, t, PRODUCTION, attempts), Execute(v, t, DRY_RUN, attempts))
  {
    SameBody(w, v, t);
    var b, c := RunAck(w, PRODUCTION, UpToAck(w, t, PRODUCTION)), RunAck(v, DRY_RUN, UpToAck(v, t, DRY_RUN));
    if b.err.Some? {
      match b.err.value
      case Cancelled => SameCancelled(w, v, t, b, c);
      case TimedOut => SameFailure(w, v, t, attempts, b, c, Retry.TIMEOUT);
      case _ => SameFailure(w, v, t, attempts, b, c, Retry.ERROR);
    }
  }

  // ---------------------------------------------------------- hands off

  /** Does the call touch a sink or the delivery? */
  predicate Touches(call: Call) {
    call.Send? || call.Backoff? || call.SendDead? || call.Ack? || call.Requeue? || call.Reject?
  }

  ghost predicate HandsOff(log: Log) { forall i :: 0 <= i < |log| ==> !Touches(log[i].call) }

  lemma {:induction false} HooksOff(w: World, r: Run, kind: HookKind, i: nat, n: nat, suppress: bool)
    requires HandsOff(r.log)
    ensures HandsOff(Hooks(w, r, kind, i, n, suppress).log)
    decreases n - i
  {
    if r.err.None? && i < n {
      var h := Do(w, r, Hook(kind, i));
      HooksOff(w, if suppress && h.err.Some? && h.err.value != Cancelled then h.(err := None) else h, kind, i + 1, n, suppress);
    }
  }

  lemma {:induction false} SelectOff(w: World, r: Run, targets: seq<Target>, i: nat, bs: seq<Binding>)
    requires i <= |targets| && HandsOff(r.log)
    ensures HandsOff(Select(w, r, targets, i, bs).0.log)
    decreases |targets| - i
  {
    if r.err.None? && i < |targets| {
      match targets[i]
      case Bound(b) => SelectOff(w, r, targets, i + 1, bs + [b]);
      case Route(conditional, chosen, otherwise) =>
        var d := if conditional then Do(w, r, Decide(i)) else r;
        SelectOff(w, d, targets, i + 1, bs + if !conditional || LastFlag(d) then chosen else otherwise);
    }
  }

  lemma {:induction false} PrepareOff(w: World, r: Run, bindings: seq<Binding>, i: nat, done: seq<(Sink, Body)>)
    requires i <= |bindings| && HandsOff(r.log)
    ensures HandsOff(Prepare(w, r, bindings, i, done).0.log)
    decreases |bindings| - i
  {
    if r.err.None? && i < |bindings| {
      var x := if bindings[i].transformed then Do(w, r, Transform(i)) else r;
      var body := if bindings[i].transformed then LastBody(x) else r.out.result;
      PrepareOff(w, x, bindings, i + 1, done + [(bindings[i].sink, body)]);
    }
  }

  lemma {:induction false} SendAllOff(w: World, r: Run, envelopes: seq<(Sink, Body)>)
    requires HandsOff(r.log)
    ensures HandsOff(SendAll(w, DRY_RUN, r, envelopes).log)
    decreases |envelopes|
  {
    if r.err.None? && envelopes != [] {
      SendAllOff(w, DispatchOne(w, DRY_RUN, r.(stage := SinkStage), envelopes[0].0, envelopes[0].1), envelopes[1..]);
    }
  }

  lemma {:induction false} DeadAllOff(w: World, r: Run, sinks: seq<Sink>, sent: bool)
    requires HandsOff(r.log)
    ensures HandsOff(DeadAll(w, DRY_RUN, r, sinks, sent).0.log)
    decreases |sinks|
  {
    if r.err.None? && sinks != [] {
      var d := Do(w, r, Dispatch(sinks[0], true));
      DeadAllOff(w, d, sinks[1..], sent || LastFlag(d));
    }
  }

  lemma BeginOff(w: World)
    ensures HandsOff(Begin(w).log)
  {
  }

  lemma BeforeOff(w: World, t: Task, r: Run)
    requires HandsOff(r.log)
    ensures HandsOff(RunBefore(w, t, r).log)
  {
    HooksOff(w, Enter(w, r, BeforeStage), BEFORE, 0, t.before, false);
  }

  lemma HandlerOff(w: World, r: Run)
    requires HandsOff(r.log)
    ensures HandsOff(RunHandler(w, r).log)
  {
  }

  lemma AfterOff(w: World, t: Task, r: Run)
    requires HandsOff(r.log)
    ensures HandsOff(RunAfter(w, t, r).log)
  {
    HooksOff(w, Enter(w, r, AfterStage), AFTER_SUCCESS, 0, t.afterSuccess, false);
  }

  lemma BodyOff(w: World, t: Task)
    ensures HandsOff(RunAck(w, DRY_RUN, UpToAck(w, t, DRY_RUN)).log)
  {
    var a := Begin(w);
    BeginOff(w);
    BeforeOff(w, t, a);
    var b := RunBefore(w, t, a);
    HandlerOff(w, b);
    AfterOff(w, t, RunHandler(w, b));
    var c := RunAfter(w, t, RunHandler(w, b));
    SinksOff(w, t, c);
    AckOff(w, RunSinks(w, t, DRY_RUN, c));
  }

  lemma SinksOff(w: World, t: Task, r: Run)
    requires HandsOff(r.log)
    ensures HandsOff(RunSinks(w, t, DRY_RUN, r).log)
  {
    if !(r.err.Some? || r.out.result.None? || t.targets == []) {
      SelectOff(w, Enter(w, r, RouteStage), t.targets, 0, []);
      var s := RunRoute(w, t, r);
      PrepareOff(w, Enter(w, s.0, TransformStage), s.1, 0, []);
      var p := RunTransform(w, s.0, s.1);
      SendAllOff(w, p.0, p.1);
    }
  }

  lemma AckOff(w: World, r: Run)
    requires HandsOff(r.log)
    ensures HandsOff(RunAck(w, DRY_RUN, r).log)
  {
  }

  lemma FailureOff(w: World, t: Task, attempts: nat, r: Run, kind: Retry.FailureKind)
    requires HandsOff(r.log)
    ensures HandsOff(HandleFailure(w, t, DRY_RUN, attempts, r, kind).log)
  {
    var r' := r.(err := None, out := r.out.(failure := Some(kind), failureStage := Some(r.stage), completion := Failed));
    HooksOff(w, Do(w, r', Checkpoint(FailureStage, false)), ON_FAILURE, 0, t.onFailure, true);
    var f := OnFailure(w, t, r, kind);
    assert HandsOff(f.log);
    if f.err.None? {
      match Retry.OnError(t.policy, attempts, kind, w.draw(f.log))
      case Retry(delay) =>
        RetryOff(w, t, f.(out := f.out.(action := Some(RETRY), retryDelay := delay)), delay);
      case Fail => GiveUpOff(w, t, f);
    }
  }

  lemma RetryOff(w: World, t: Task, r: Run, delay: Option<real>)
    requires HandsOff(r.log)
    ensures HandsOff(WriteCapture(w, t, Do(w, ApplyRetry(w, DRY_RUN, r, delay), Emit(RETRIED))).log)
  {
  }

  lemma FailAndReportOff(w: World, t: Task, r: Run)
    requires HandsOff(r.log)
    ensures HandsOff(FailAndReport(w, t, DRY_RUN, r).log)
  {
  }

  lemma GiveUpOff(w: World, t: Task, r: Run)
    requires HandsOff(r.log)
    ensures HandsOff(GiveUp(w, t, DRY_RUN, r).log)
  {
    if t.deadLetters == [] {
      FailAndReportOff(w, t, r.(out := r.out.(action := Some(FAIL))));
    } else {
      var q := r.(out := r.out.(action := Some(DEAD_LETTER)));
      DeadAllOff(w, q, t.deadLetters, false);
      var d := DeadAll(w, DRY_RUN, q, t.deadLetters, false);
      var out := d.0.out.(deadLetterAttempted := true, deadLetterPublished := Some(false), action := Some(RETRY));
      RetryOff(w, t, d.0.(err := None, out := out), None);
      var published := if d.1 then Some(true) else None;
      var e := d.0.(out := d.0.out.(deadLetterAttempted := d.1, deadLetterPublished := published));
      FailAndReportOff(w, t, Do(w, e, Emit(DEAD_LETTERED)));
    }
  }

  /** In no world does a dry run touch a sink or settle the delivery. */
  lemma DryRunHandsOff(w: World, t: Task, attempts: nat)
    ensures HandsOff(Execute(w, t, DRY_RUN, attempts).log)
  {
    BodyOff(w, t);
    var b := RunAck(w, DRY_RUN, UpToAck(w, t, DRY_RUN));
    if b.err.Some? {
      match b.err.value
      case Cancelled => CancelledOff(w, t, b);
      case TimedOut => FailureOff(w, t, attempts, b, Retry.TIMEOUT);
      case _ => FailureOff(w, t, attempts, b, Retry.ERROR);
    }
  }

  lemma CancelledOff(w: World, t: Task, r: Run)
    requires HandsOff(r.log)
    ensures HandsOff(HandleCancelled(w, t, DRY_RUN, r).log)
  {
  }
}
