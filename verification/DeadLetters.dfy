/** Failing a delivery for good, and what a failed dead letter does instead. */
module DeadLetters {
  import opened Wrappers
  import opened Execution
  import opened Settlement
  import opened Ordering
  import Retry

  // ------------------------------------------------------------ reading a log

  function DeadSent(log: Log): seq<Call> { Calls(log, AcceptsDead) }

  function SendDeads(sinks: seq<Sink>): seq<Call> {
    seq(|sinks|, i requires 0 <= i < |sinks| => SendDead(sinks[i]))
  }

  /** Some dead-letter sink refused. */
  predicate DeadRefused(log: Log) { exists e <- log :: e.call.SendDead? && e.reply.Raises? }

  lemma RefusedStays(a: Log, b: Log, classes: set<Class>)
    requires Added(a, b, classes) && DeadCall !in classes
    ensures DeadRefused(b) <==> DeadRefused(a)
  {
    if DeadRefused(b) {
      var e :| e in b && e.call.SendDead? && e.reply.Raises?;
      var i :| 0 <= i < |b| && b[i] == e;
      assert i < |a|;
      assert a[i] in a;
    }
    if DeadRefused(a) {
      var e :| e in a && e.call.SendDead? && e.reply.Raises?;
      assert e in b;
    }
  }

  lemma DeadDone(w: World, r: Run, call: Call)
    requires r.err.None?
    ensures var d := Do(w, r, call);
      && DeadSent(d.log) == DeadSent(r.log) + (if call.SendDead? && d.err.None? then [call] else [])
      && (DeadRefused(d.log) <==> DeadRefused(r.log) || (call.SendDead? && d.err.Some?))
  {
    CallsDone(w, r, call, AcceptsDead);
    var d := Do(w, r, call);
    var last := d.log[|d.log| - 1];
    assert last in d.log;
    assert forall e :: e in d.log <==> e in r.log || e == last;
  }

  /** The accepting dead-letter sinks are a prefix, all of them exactly when none refuses. */
  lemma {:induction false} DeadAllAccepted(w: World, r: Run, sinks: seq<Sink>, sent: bool)
    requires r.err.None?
    ensures var d := DeadAll(w, PRODUCTION, r, sinks, sent).0;
      && DeadSent(d.log) <= DeadSent(r.log) + SendDeads(sinks)
      && (d.err.None? <==> DeadSent(d.log) == DeadSent(r.log) + SendDeads(sinks))
      && (DeadRefused(d.log) <==> DeadRefused(r.log) || d.err.Some?)
    decreases |sinks|
  {
    if sinks != [] {
      var d := Do(w, r, SendDead(sinks[0]));
      DeadDone(w, r, SendDead(sinks[0]));
      assert SendDeads(sinks) == [SendDead(sinks[0])] + SendDeads(sinks[1..]);
      if d.err.None? {
        DeadAllAccepted(w, d, sinks[1..], true);
      }
    }
  }

  // ------------------------------------------------------------- the rejection

  /** A rejection after `a` comes with just these dead letters accepted. */
  ghost predicate RejectsWith(a: Log, x: Run, dead: seq<Call>) {
    forall i :: |a| <= i < |x.log| && x.log[i].call == Reject ==> DeadSent(x.log[..i]) == dead
  }

  lemma FailAndReportRejects(w: World, t: Task, r: Run)
    ensures RejectsWith(r.log, FailAndReport(w, t, PRODUCTION, r), DeadSent(r.log))
  {
    var x := FailAndReport(w, t, PRODUCTION, r);
    forall i | |r.log| <= i < |x.log| && x.log[i].call == Reject ensures DeadSent(x.log[..i]) == DeadSent(r.log) {
      RejectPlace(w, t, r, i);
      CallsKept(r.log, x.log[..i], {ReportCall}, AcceptsDead);
    }
  }

  lemma RejectPlace(w: World, t: Task, r: Run, i: nat)
    requires var x := FailAndReport(w, t, PRODUCTION, r); |r.log| <= i < |x.log| && x.log[i].call == Reject
    ensures Added(r.log, FailAndReport(w, t, PRODUCTION, r).log[..i], {ReportCall})
  {
    assert i == |r.log| + 1;
  }

  lemma DeadStep(w: World, q: Run, sinks: seq<Sink>) returns (d: (Run, bool))
    requires q.err.None?
    ensures d == DeadAll(w, PRODUCTION, q, sinks, false) && Added(q.log, d.0.log, {DeadCall})
    ensures d.0.err.None? ==> DeadSent(d.0.log) == DeadSent(q.log) + SendDeads(sinks)
  {
    d := DeadAll(w, PRODUCTION, q, sinks, false);
    DeadAllAdds(w, PRODUCTION, q, sinks, false);
    DeadAllAccepted(w, q, sinks, false);
  }

  lemma GiveUpRejects(w: World, t: Task, r: Run)
    requires r.err.None?
    ensures RejectsWith(r.log, GiveUp(w, t, PRODUCTION, r), DeadSent(r.log) + SendDeads(t.deadLetters))
  {
    if t.deadLetters == [] {
      assert DeadSent(r.log) + SendDeads([]) == DeadSent(r.log);
      FailAndReportRejects(w, t, r.(out := r.out.(action := Some(FAIL))));
    } else {
      PublishingRejects(w, t, r);
    }
  }

  lemma PublishingRejects(w: World, t: Task, r: Run)
    requires r.err.None? && t.deadLetters != []
    ensures RejectsWith(r.log, GiveUp(w, t, PRODUCTION, r), DeadSent(r.log) + SendDeads(t.deadLetters))
  {
    var d := DeadStep(w, r.(out := r.out.(action := Some(DEAD_LETTER))), t.deadLetters);
    if d.0.err.Some? {
      PublicationFails(w, t, d.0, r.log);
    } else {
      var published := if d.1 then Some(true) else None;
      PublishedRejects(w, t, r.log, d.0.(out := d.0.out.(deadLetterAttempted := d.1, deadLetterPublished := published)));
    }
  }

  lemma PublishedRejects(w: World, t: Task, a: Log, e: Run)
    requires e.err.None? && Added(a, e.log, {DeadCall})
    ensures RejectsWith(a, FailAndReport(w, t, PRODUCTION, Do(w, e, Emit(DEAD_LETTERED))), DeadSent(e.log))
  {
    DeadDone(w, e, Emit(DEAD_LETTERED));
    var f := Do(w, e, Emit(DEAD_LETTERED));
    FailAndReportRejects(w, t, f);
    FailAndReportAdds(w, t, PRODUCTION, f);
    EarlierAreDead(a, f.log, FailAndReport(w, t, PRODUCTION, f), {DeadCall, ReportCall}, DeadSent(f.log));
  }

  lemma PublicationFails(w: World, t: Task, d: Run, a: Log)
    requires d.err.Some? && Added(a, d.log, {DeadCall})
    ensures var x := if d.err.value != Cancelled then WriteCapture(w, t, DeadLetterFailed(w, PRODUCTION, d)) else d;
      forall i :: |a| <= i < |x.log| ==> x.log[i].call != Reject
  {
    DeadLetterFailedAdds(w, PRODUCTION, d);
    CaptureAdds(w, t, DeadLetterFailed(w, PRODUCTION, d));
    var x := if d.err.value != Cancelled then WriteCapture(w, t, DeadLetterFailed(w, PRODUCTION, d)) else d;
    assert Added(a, x.log, {DeadCall, RequeueCall, ReportCall});
    forall i | |a| <= i < |x.log| ensures x.log[i].call != Reject {
      ClassAt(a, x.log, {DeadCall, RequeueCall, ReportCall}, i);
    }
  }

  lemma EarlierAreDead(a: Log, b: Log, x: Run, classes: set<Class>, dead: seq<Call>)
    requires Added(a, b, classes) && RejectCall !in classes && b <= x.log && RejectsWith(b, x, dead)
    ensures RejectsWith(a, x, dead)
  {
    forall i | |a| <= i < |x.log| && x.log[i].call == Reject ensures DeadSent(x.log[..i]) == dead {
      assert i < |b| ==> ClassOf(b[i].call) in classes;
    }
  }

  /** Did the policy decide to fail? */
  ghost predicate PolicyFails(p: Retry.Policy, attempts: nat, kind: Retry.FailureKind) {
    exists u: Retry.Draw :: Retry.OnError(p, attempts, kind, u).Fail?
  }

  predicate NeverRejects(a: Log, x: Run) {
    forall i :: |a| <= i < |x.log| ==> x.log[i].call != Reject
  }

  lemma AddedNeverRejects(a: Log, x: Run, classes: set<Class>)
    requires Added(a, x.log, classes) && RejectCall !in classes
    ensures NeverRejects(a, x)
  {
    forall i | |a| <= i < |x.log| ensures x.log[i].call != Reject {
      ClassAt(a, x.log, classes, i);
    }
  }

  lemma RetryNeverRejects(w: World, t: Task, f: Run, delay: Option<real>)
    ensures var x := WriteCapture(w, t, Do(w, ApplyRetry(w, PRODUCTION, f, delay), Emit(RETRIED)));
      Added(f.log, x.log, {RequeueCall, ReportCall})
  {
    ApplyRetryAdds(w, PRODUCTION, f, delay);
    CaptureAdds(w, t, Do(w, ApplyRetry(w, PRODUCTION, f, delay), Emit(RETRIED)));
  }

  lemma HandleFailureRejects(w: World, t: Task, attempts: nat, r: Run, kind: Retry.FailureKind)
    ensures var x := HandleFailure(w, t, PRODUCTION, attempts, r, kind);
      || NeverRejects(r.log, x)
      || (PolicyFails(t.policy, attempts, kind)
          && RejectsWith(r.log, x, DeadSent(r.log) + SendDeads(t.deadLetters)))
  {
    var f := OnFailure(w, t, r, kind);
    OnFailureAdds(w, t, r, kind);
    if f.err.Some? {
      AddedNeverRejects(r.log, f, {HookCall, ReportCall});
    } else {
      match Retry.OnError(t.policy, attempts, kind, w.draw(f.log))
      case Retry(delay) =>
        var g := f.(out := f.out.(action := Some(RETRY), retryDelay := delay));
        RetryNeverRejects(w, t, g, delay);
        var x := WriteCapture(w, t, Do(w, ApplyRetry(w, PRODUCTION, g, delay), Emit(RETRIED)));
        AddedNeverRejects(r.log, x, {HookCall, RequeueCall, ReportCall});
      case Fail =>
        assert PolicyFails(t.policy, attempts, kind);
        FailingRejects(w, t, r.log, f);
    }
  }

  lemma FailingRejects(w: World, t: Task, a: Log, f: Run)
    requires f.err.None? && Added(a, f.log, {HookCall, ReportCall})
    ensures RejectsWith(a, GiveUp(w, t, PRODUCTION, f), DeadSent(a) + SendDeads(t.deadLetters))
  {
    CallsKept(a, f.log, {HookCall, ReportCall}, AcceptsDead);
    GiveUpRejects(w, t, f);
    GiveUpAdds(w, t, PRODUCTION, f);
    EarlierAreDead(a, f.log, GiveUp(w, t, PRODUCTION, f), {HookCall, ReportCall}, DeadSent(a) + SendDeads(t.deadLetters));
  }

  /** The failure kind of what the body raised. */
  function KindOf(exc: Exc): Retry.FailureKind { if exc.TimedOut? then Retry.TIMEOUT else Retry.ERROR }

  lemma BodyAdds(w: World, t: Task)
    ensures Added([], Attempt(w, t, PRODUCTION).log, BODY + {AckCall})
  {
    var r := UpToAck(w, t, PRODUCTION);
    UpToAckAdds(w, t, PRODUCTION);
    RunAckAdds(w, r);
  }

  lemma RunAckAdds(w: World, r: Run)
    ensures Added(r.log, RunAck(w, PRODUCTION, r).log, {AckCall, ReportCall})
  {
    if r.err.None? {
      var q, a, c, d, e := AckSteps(w, r);
    }
  }

  lemma FinishRejects(w: World, t: Task, attempts: nat, b: Run)
    ensures var x := Finish(w, t, PRODUCTION, attempts, b);
      || NeverRejects(b.log, x)
      || (b.err.Some? && b.err.value != Cancelled && PolicyFails(t.policy, attempts, KindOf(b.err.value))
          && RejectsWith(b.log, x, DeadSent(b.log) + SendDeads(t.deadLetters)))
  {
    if b.err.Some? {
      match b.err.value
      case Cancelled =>
        HandleCancelledAdds(w, t, PRODUCTION, b);
        AddedNeverRejects(b.log, HandleCancelled(w, t, PRODUCTION, b), {RequeueCall, ReportCall});
      case TimedOut => HandleFailureRejects(w, t, attempts, b, Retry.TIMEOUT);
      case _ => HandleFailureRejects(w, t, attempts, b, Retry.ERROR);
    }
  }

  /** A delivery is rejected only when the body raised something other than a
      cancellation, the policy said to fail, and every dead-letter sink has accepted, in
      order. */
  lemma RejectAfterDeadLetters(w: World, t: Task, attempts: nat, i: nat)
    requires var x := Execute(w, t, PRODUCTION, attempts); i < |x.log| && x.log[i].call == Reject
    ensures var b := Attempt(w, t, PRODUCTION);
      && b.err.Some? && b.err.value != Cancelled && PolicyFails(t.policy, attempts, KindOf(b.err.value))
      && DeadSent(Execute(w, t, PRODUCTION, attempts).log[..i]) == SendDeads(t.deadLetters)
  {
    var b := Attempt(w, t, PRODUCTION);
    BodyAdds(w, t);
    RejectInFinish(w, t, attempts, b, i);
  }

  lemma NotInBody(a: Log, log: Log, i: nat)
    requires Added([], a, BODY + {AckCall}) && a <= log && i < |log| && log[i].call == Reject
    ensures i >= |a|
  {
    assert forall k :: 0 <= k < |a| ==> log[k] == a[k] && ClassOf(a[k].call) in BODY + {AckCall};
  }

  lemma RejectInFinish(w: World, t: Task, attempts: nat, b: Run, i: nat)
    requires Added([], b.log, BODY + {AckCall})
    requires var x := Finish(w, t, PRODUCTION, attempts, b); i < |x.log| && x.log[i].call == Reject
    ensures b.err.Some? && b.err.value != Cancelled && PolicyFails(t.policy, attempts, KindOf(b.err.value))
    ensures DeadSent(Finish(w, t, PRODUCTION, attempts, b).log[..i]) == SendDeads(t.deadLetters)
  {
    var x := Finish(w, t, PRODUCTION, attempts, b);
    CallsKept([], b.log, BODY + {AckCall}, AcceptsDead);
    FinishAdds(w, t, PRODUCTION, attempts, b);
    FinishRejects(w, t, attempts, b);
    NotInBody(b.log, x.log, i);
  }

  // --------------------------------------------------- a refused dead letter

  /** A returned outcome that says the publication failed comes from a refusal, asks for
      a plain retry and is not terminal; one that does not comes without a refusal. */
  ghost predicate PublishedHonestly(x: Run) {
    x.err.None? ==>
      && (x.out.deadLetterPublished == Some(false) <==> DeadRefused(x.log))
      && (DeadRefused(x.log) ==> x.out.action == Some(RETRY) && x.out.retryDelay.None? && !x.out.terminal)
  }

  lemma FailAndReportHonestly(w: World, t: Task, r: Run)
    requires !DeadRefused(r.log) && r.out.deadLetterPublished != Some(false)
    ensures PublishedHonestly(FailAndReport(w, t, PRODUCTION, r))
  {
    var x := FailAndReport(w, t, PRODUCTION, r);
    FailAndReportAdds(w, t, PRODUCTION, r);
    RefusedStays(r.log, x.log, {RequeueCall, RejectCall, ReportCall});
    assert x.out.deadLetterPublished == r.out.deadLetterPublished;
  }

  lemma DeadLetterFailedHonestly(w: World, t: Task, r: Run)
    requires DeadRefused(r.log) && r.out.retryDelay.None? && !r.out.terminal
    ensures PublishedHonestly(WriteCapture(w, t, DeadLetterFailed(w, PRODUCTION, r)))
  {
    var x := WriteCapture(w, t, DeadLetterFailed(w, PRODUCTION, r));
    DeadLetterFailedAdds(w, PRODUCTION, r);
    CaptureAdds(w, t, DeadLetterFailed(w, PRODUCTION, r));
    RefusedStays(r.log, x.log, {RequeueCall, ReportCall});
  }

  /** No outcome yet that a dead letter could contradict. */
  ghost predicate Unpublished(r: Run) {
    !DeadRefused(r.log) && r.out.deadLetterPublished.None? && r.out.retryDelay.None? && !r.out.terminal
  }

  lemma GiveUpHonestly(w: World, t: Task, r: Run)
    requires r.err.None? && Unpublished(r)
    ensures PublishedHonestly(GiveUp(w, t, PRODUCTION, r))
  {
    if t.deadLetters == [] {
      FailAndReportHonestly(w, t, r.(out := r.out.(action := Some(FAIL))));
    } else {
      var q := r.(out := r.out.(action := Some(DEAD_LETTER)));
      var d := DeadAll(w, PRODUCTION, q, t.deadLetters, false);
      DeadAllAccepted(w, q, t.deadLetters, false);
      DeadAllKeeps(w, PRODUCTION, q, t.deadLetters, false);
      if d.0.err.Some? && d.0.err.value != Cancelled {
        DeadLetterFailedHonestly(w, t, d.0);
      } else if d.0.err.None? {
        var published := if d.1 then Some(true) else None;
        var e := d.0.(out := d.0.out.(deadLetterAttempted := d.1, deadLetterPublished := published));
        DeadDone(w, e, Emit(DEAD_LETTERED));
        FailAndReportHonestly(w, t, Do(w, e, Emit(DEAD_LETTERED)));
      }
    }
  }

  lemma HandleFailureHonestly(w: World, t: Task, attempts: nat, r: Run, kind: Retry.FailureKind)
    requires Unpublished(r)
    ensures PublishedHonestly(HandleFailure(w, t, PRODUCTION, attempts, r, kind))
  {
    var f := OnFailure(w, t, r, kind);
    OnFailureAdds(w, t, r, kind);
    OnFailureKeeps(w, t, r, kind);
    RefusedStays(r.log, f.log, {HookCall, ReportCall});
    if f.err.None? {
      match Retry.OnError(t.policy, attempts, kind, w.draw(f.log))
      case Retry(delay) =>
        var g := f.(out := f.out.(action := Some(RETRY), retryDelay := delay));
        RetryNeverRejects(w, t, g, delay);
        var x := WriteCapture(w, t, Do(w, ApplyRetry(w, PRODUCTION, g, delay), Emit(RETRIED)));
        RefusedStays(g.log, x.log, {RequeueCall, ReportCall});
      case Fail => GiveUpHonestly(w, t, f);
    }
  }

  /** A refused dead letter always ends in a plain retry that is not terminal and leaves
      the delivery unrejected, whatever the policy says and however many attempts were
      made; and an outcome that reports a failed publication comes from a refusal. */
  lemma RefusedDeadLetterRetries(w: World, t: Task, attempts: nat)
    ensures PublishedHonestly(Execute(w, t, PRODUCTION, attempts))
  {
    var b := Attempt(w, t, PRODUCTION);
    BodyAdds(w, t);
    RefusedStays([], b.log, BODY + {AckCall});
    BodyRecord(w, t);
    if b.err.Some? {
      match b.err.value
      case Cancelled =>
      case TimedOut => HandleFailureHonestly(w, t, attempts, b, Retry.TIMEOUT);
      case _ => HandleFailureHonestly(w, t, attempts, b, Retry.ERROR);
    }
  }

  lemma BodyRecord(w: World, t: Task)
    ensures var b := Attempt(w, t, PRODUCTION);
      && b.out.deadLetterPublished.None? && b.out.retryDelay.None? && (b.err.Some? ==> !b.out.terminal)
  {
    var r := UpToAck(w, t, PRODUCTION);
    UpToAckKeeps(w, t, PRODUCTION);
    if r.err.None? {
      var q, a, c, d, e := AckSteps(w, r);
    }
  }

  // ----------------------------------------------------------- cancellation

  /** Cancelling the execution asks for the delivery again, even where the ack has
      already gone through. */
  lemma CancelledRetries(w: World, t: Task, attempts: nat)
    requires Attempt(w, t, PRODUCTION).err == Some(Cancelled)
    requires forall log :: w.reply(log, Emit(CANCELLED)).Answers? && w.reply(log, Requeue(None)).Answers?
    ensures var x := Execute(w, t, PRODUCTION, attempts);
      && x.err.Some?
      && Settlements(x.log) == Settlements(Attempt(w, t, PRODUCTION).log) + [Requeue(None)]
  {
    var b := Attempt(w, t, PRODUCTION);
    var out := b.out.(failure := Some(Retry.CANCELLED), failureStage := Some(b.stage), action := Some(RETRY),
                      completion := CancelledRun, terminal := false);
    var q := b.(err := None, out := out);
    var c := Do(w, q, Emit(CANCELLED));
    var d := Do(w, c, Requeue(None));
    assert c.err.None? && d.err.None?;
    BracketSettles(w, q, Emit(CANCELLED), Requeue(None), Emit(RETRIED));
    CaptureAdds(w, t, Do(w, d, Emit(RETRIED)));
    Unsettled(Do(w, d, Emit(RETRIED)).log, WriteCapture(w, t, Do(w, d, Emit(RETRIED))).log, {ReportCall});
  }
}
