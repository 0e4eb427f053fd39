/** What has happened by the time a delivery is acknowledged or failed. */
module Ordering {
  import opened Wrappers
  import opened Execution
  import opened Settlement
  import Retry

  // ------------------------------------------------------------ reading a log

  /** The call is in the log, answered with this body. */
  ghost predicate Answered(log: Log, call: Call, body: Body) {
    exists e <- log :: e.call == call && e.reply.Answers? && e.reply.body == body
  }

  /** The predicate of target `i` held. */
  predicate Said(log: Log, i: nat) {
    exists e <- log :: e.call == Decide(i) && e.reply.Answers? && e.reply.flag
  }

  function PickOne(target: Target, held: bool): seq<Binding> {
    match target
    case Bound(b) => [b]
    case Route(conditional, chosen, otherwise) => if !conditional || held then chosen else otherwise
  }

  /** The bindings that the first `n` targets choose by the answers in the log. */
  function Picks(targets: seq<Target>, n: nat, log: Log): seq<Binding>
    requires n <= |targets|
  {
    if n == 0 then [] else Picks(targets, n - 1, log) + PickOne(targets[n - 1], Said(log, n - 1))
  }

  /** The accepted sends are one per chosen binding, in order, each with the transformed
      body or else the handler's result. */
  ghost predicate Delivered(t: Task, log: Log, result: Body, sent: seq<Call>) {
    if result.None? || t.targets == [] then sent == []
    else
      var picks := Picks(t.targets, |t.targets|, log);
      && |sent| == |picks|
      && forall k :: 0 <= k < |sent| ==>
        && sent[k].Send? && sent[k].sink == picks[k].sink
        && if picks[k].transformed then Answered(log, Transform(k), sent[k].body) else sent[k].body == result
  }

  ghost predicate SinksAre(sent: seq<Call>, sinks: seq<Sink>) {
    |sent| == |sinks| && forall k :: 0 <= k < |sent| ==> sent[k].Send? && sent[k].sink == sinks[k]
  }

  lemma AnsweredStays(a: Log, b: Log, call: Call, body: Body)
    requires a <= b && Answered(a, call, body)
    ensures Answered(b, call, body)
  {
    var e :| e in a && e.call == call && e.reply.Answers? && e.reply.body == body;
    assert e in b;
  }

  lemma {:induction false} PicksStay(targets: seq<Target>, n: nat, a: Log, b: Log)
    requires n <= |targets| && a <= b && forall i, j :: 0 <= i < n && |a| <= j < |b| ==> b[j].call != Decide(i)
    ensures Picks(targets, n, b) == Picks(targets, n, a)
  {
    if n > 0 {
      PicksStay(targets, n - 1, a, b);
      if Said(b, n - 1) {
        var e :| e in b && e.call == Decide(n - 1) && e.reply.Answers? && e.reply.flag;
        assert e in a;
      }
      if Said(a, n - 1) {
        var e :| e in a && e.call == Decide(n - 1) && e.reply.Answers? && e.reply.flag;
        assert e in b;
      }
    }
  }

  // ----------------------------------------------------------------- routing

  /** No predicate from target `i` on has been asked. */
  predicate NotAsked(log: Log, i: nat) { forall e <- log :: e.call.Decide? ==> e.call.index < i }

  /** Asking the predicate of target `n` settles the choice of the first `n + 1`. */
  lemma AskedPicks(w: World, r: Run, targets: seq<Target>, n: nat)
    requires r.err.None? && n < |targets| && NotAsked(r.log, n)
    ensures var d := Do(w, r, Decide(n));
      && NotAsked(d.log, n + 1)
      && Picks(targets, n, d.log) == Picks(targets, n, r.log)
      && (Said(d.log, n) <==> LastFlag(d))
  {
    var d := Do(w, r, Decide(n));
    PicksStay(targets, n, r.log, d.log);
    var last := d.log[|d.log| - 1];
    assert last in d.log;
    if Said(d.log, n) {
      var e :| e in d.log && e.call == Decide(n) && e.reply.Answers? && e.reply.flag;
      assert e == last || e in r.log;
    }
  }

  lemma {:induction false} SelectPicks(w: World, r: Run, targets: seq<Target>, i: nat, bs: seq<Binding>)
    requires i <= |targets| && r.err.None? && NotAsked(r.log, i) && bs == Picks(targets, i, r.log)
    ensures var s := Select(w, r, targets, i, bs);
      s.0.err.None? ==> s.1 == Picks(targets, |targets|, s.0.log)
    decreases |targets| - i
  {
    if i < |targets| {
      match targets[i]
      case Bound(b) => SelectPicks(w, r, targets, i + 1, bs + [b]);
      case Route(conditional, chosen, otherwise) =>
        if !conditional {
          SelectPicks(w, r, targets, i + 1, bs + chosen);
        } else {
          var d := Do(w, r, Decide(i));
          AskedPicks(w, r, targets, i);
          if d.err.None? {
            SelectPicks(w, d, targets, i + 1, bs + if LastFlag(d) then chosen else otherwise);
          } else {
            assert Select(w, d, targets, i + 1, bs + if LastFlag(d) then chosen else otherwise).0.err.Some?;
          }
        }
    }
  }

  // -------------------------------------------------------------- transforms

  /** Envelope `k` goes to the sink of binding `k`, with the body it asks for. */
  ghost predicate Envelopes(log: Log, bindings: seq<Binding>, n: nat, result: Body, done: seq<(Sink, Body)>)
    requires n <= |bindings|
  {
    && |done| == n
    && forall k :: 0 <= k < n ==>
      && done[k].0 == bindings[k].sink
      && if bindings[k].transformed then Answered(log, Transform(k), done[k].1) else done[k].1 == result
  }

  lemma EnvelopesStay(a: Log, b: Log, bindings: seq<Binding>, n: nat, result: Body, done: seq<(Sink, Body)>)
    requires n <= |bindings| && a <= b && Envelopes(a, bindings, n, result, done)
    ensures Envelopes(b, bindings, n, result, done)
  {
    forall k | 0 <= k < n && bindings[k].transformed ensures Answered(b, Transform(k), done[k].1) {
      AnsweredStays(a, b, Transform(k), done[k].1);
    }
  }

  lemma {:induction false} PrepareEnvelopes(w: World, r: Run, bindings: seq<Binding>, i: nat, done: seq<(Sink, Body)>)
    requires i <= |bindings| && r.err.None? && Envelopes(r.log, bindings, i, r.out.result, done)
    ensures var p := Prepare(w, r, bindings, i, done);
      p.0.err.None? ==> Envelopes(p.0.log, bindings, |bindings|, r.out.result, p.1)
    decreases |bindings| - i
  {
    if i < |bindings| {
      if !bindings[i].transformed {
        PrepareEnvelopes(w, r, bindings, i + 1, done + [(bindings[i].sink, r.out.result)]);
      } else {
        var x := Do(w, r, Transform(i));
        var more := done + [(bindings[i].sink, LastBody(x))];
        if x.err.None? {
          EnvelopesStay(r.log, x.log, bindings, i, r.out.result, done);
          assert x.log[|x.log| - 1] in x.log && Answered(x.log, Transform(i), LastBody(x));
          PrepareEnvelopes(w, x, bindings, i + 1, more);
        } else {
          assert Prepare(w, x, bindings, i + 1, more).0.err.Some?;
        }
      }
    }
  }

  // ------------------------------------------------------------------- sinks

  function Sent(log: Log): seq<Call> { Calls(log, Accepts) }

  function Sends(envelopes: seq<(Sink, Body)>): seq<Call> {
    seq(|envelopes|, i requires 0 <= i < |envelopes| => Send(envelopes[i].0, envelopes[i].1))
  }

  lemma SentDone(w: World, r: Run, call: Call)
    requires r.err.None?
    ensures var d := Do(w, r, call); Sent(d.log) == Sent(r.log) + if call.Send? && d.err.None? then [call] else []
  {
    CallsDone(w, r, call, Accepts);
  }

  lemma NothingSent(w: World, r: Run, call: Call)
    requires r.err.None? && !call.Send?
    ensures Sent(Do(w, r, call).log) == Sent(r.log)
  {
    SentDone(w, r, call);
    assert Sent(r.log) + [] == Sent(r.log);
  }

  /** What a log counts grows by one accepted send with each call that is one. */
  ghost predicate CountsSends(w: World, sent: Log -> seq<Call>) {
    forall r: Run, call: Call {:trigger Do(w, r, call)} :: r.err.None? ==>
      sent(Do(w, r, call).log) == if call.Send? && Do(w, r, call).err.None? then sent(r.log) + [call] else sent(r.log)
  }

  lemma {:induction false} SendToSinkCounts(w: World, sent: Log -> seq<Call>, r: Run, sink: Sink, body: Body, tries: nat)
    requires 0 < tries && r.err.None? && CountsSends(w, sent)
    ensures var s := SendToSink(w, r, sink, body, tries);
      sent(s.log) == if s.err.None? then sent(r.log) + [Send(sink, body)] else sent(r.log)
    decreases tries
  {
    var s := Do(w, r, Send(sink, body));
    if !(s.err.None? || !s.err.value.Connector? || !Retryable(s.err.value.kind) || tries == 1) {
      var delay := RetryDelay(s.err.value.kind, s.err.value.retryDelay, sink.pollInterval);
      var again := s.(err := None);
      if delay <= 0.0 || w.stopping(s.log) {
        SendToSinkCounts(w, sent, again, sink, body, tries - 1);
      } else {
        var b := Do(w, again, Backoff(delay));
        if b.err == Some(TimedOut) {
          SendToSinkCounts(w, sent, b.(err := None), sink, body, tries - 1);
        }
      }
    }
  }

  /** A send that returns was accepted once; one that raises was not. */
  lemma SendToSinkAccepted(w: World, r: Run, sink: Sink, body: Body, tries: nat)
    requires 0 < tries && r.err.None?
    ensures var s := SendToSink(w, r, sink, body, tries);
      Sent(s.log) == Sent(r.log) + if s.err.None? then [Send(sink, body)] else []
  {
    forall r: Run, call: Call {:trigger Do(w, r, call)} | r.err.None?
      ensures Sent(Do(w, r, call).log) == if call.Send? && Do(w, r, call).err.None? then Sent(r.log) + [call] else Sent(r.log)
    {
      SentDone(w, r, call);
    }
    SendToSinkCounts(w, Sent, r, sink, body, tries);
    assert Sent(r.log) + [] == Sent(r.log);
  }

  /** The accepted envelopes are a prefix, and all of them exactly when nothing raises. */
  lemma {:induction false} SendAllAccepted(w: World, m: Mode, r: Run, envelopes: seq<(Sink, Body)>)
    requires m.production && r.err.None?
    ensures var s := SendAll(w, m, r, envelopes);
      && Sent(s.log) <= Sent(r.log) + Sends(envelopes)
      && (s.err.None? <==> Sent(s.log) == Sent(r.log) + Sends(envelopes))
    decreases |envelopes|
  {
    if envelopes != [] {
      var e := envelopes[0];
      SendToSinkAccepted(w, r.(stage := SinkStage), e.0, e.1, SEND_ATTEMPTS);
      var d := DispatchOne(w, m, r.(stage := SinkStage), e.0, e.1);
      assert Sends(envelopes) == [Send(e.0, e.1)] + Sends(envelopes[1..]);
      if d.err.None? {
        SendAllAccepted(w, m, d, envelopes[1..]);
      }
    }
  }

  /** Up to here nothing was asked and nothing sent, and the handler answered `result`. */
  ghost predicate Handled(r: Run) {
    Sent(r.log) == [] && NotAsked(r.log, 0) && Answered(r.log, Handle, r.out.result)
  }

  lemma PreludeHandles(w: World, t: Task)
    ensures var r := RunAfter(w, t, RunHandler(w, RunBefore(w, t, Begin(w))));
      r.err.None? ==> Handled(r)
  {
    var b := RunBefore(w, t, Begin(w));
    var c := RunHandler(w, b);
    var r := RunAfter(w, t, c);
    PreludeAdds(w, t);
    NothingAsked(r.log);
    HandlerAnswers(w, b);
    AfterKeeps(w, t, c);
    if r.err.None? {
      AnsweredStays(c.log, r.log, Handle, c.out.result);
    }
  }

  lemma NothingAsked(log: Log)
    requires Added([], log, PRELUDE)
    ensures Sent(log) == [] && NotAsked(log, 0)
  {
    CallsKept([], log, PRELUDE, Accepts);
    forall e | e in log ensures !e.call.Decide? {
      var i :| 0 <= i < |log| && log[i] == e;
      assert ClassOf(log[i].call) in PRELUDE;
    }
  }

  lemma HandlerAnswers(w: World, b: Run)
    ensures var c := RunHandler(w, b); c.err.None? ==> Answered(c.log, Handle, c.out.result)
  {
    var h := Do(w, Enter(w, b, HandlerStage), Handle);
    if h.err.None? {
      assert h.log[|h.log| - 1] in h.log && Answered(h.log, Handle, LastBody(h));
      AnsweredStays(h.log, RunHandler(w, b).log, Handle, LastBody(h));
    }
  }

  // -------------------------------------------------------- the acknowledgement

  lemma NotAskedLater(a: Log, b: Log, classes: set<Class>, n: nat)
    requires Added(a, b, classes) && DecideCall !in classes
    ensures forall i, j :: 0 <= i < n && |a| <= j < |b| ==> b[j].call != Decide(i)
  {
    forall i, j | 0 <= i < n && |a| <= j < |b| ensures b[j].call != Decide(i) {
      assert ClassOf(b[j].call) in classes;
    }
  }

  lemma EnterStep(w: World, r: Run, stage: Stage) returns (e: Run)
    requires Sent(r.log) == []
    ensures e == Enter(w, r, stage) && Sent(e.log) == [] && e.out == r.out && Added(r.log, e.log, {ReportCall})
  {
    e := Enter(w, r, stage);
    if r.err.None? {
      NothingSent(w, r.(stage := stage), Checkpoint(stage, false));
      OneReport(w, r.(stage := stage), Checkpoint(stage, false));
    }
  }

  lemma OneReport(w: World, r: Run, call: Call)
    requires r.err.None? && call.Checkpoint?
    ensures Added(r.log, Do(w, r, call).log, {ReportCall}) && Do(w, r, call).out == r.out
  {
  }

  lemma LeaveStep(w: World, r: Run) returns (e: Run)
    requires Sent(r.log) == []
    ensures e == Leave(w, r) && Sent(e.log) == [] && e.out == r.out && Added(r.log, e.log, {ReportCall})
    ensures e.err.None? ==> r.err.None?
  {
    e := Leave(w, r);
    if r.err.None? {
      NothingSent(w, r, Checkpoint(r.stage, true));
      OneReport(w, r, Checkpoint(r.stage, true));
    }
  }

  lemma SelectStep(w: World, t: Task, e: Run) returns (s: (Run, seq<Binding>))
    requires Sent(e.log) == [] && NotAsked(e.log, 0)
    ensures s == Select(w, e, t.targets, 0, [])
    ensures Sent(s.0.log) == [] && s.0.out == e.out && e.log <= s.0.log
    ensures s.0.err.None? ==> s.1 == Picks(t.targets, |t.targets|, s.0.log)
  {
    s := Select(w, e, t.targets, 0, []);
    if e.err.None? {
      SelectPicks(w, e, t.targets, 0, []);
    }
    SelectAdds(w, e, t.targets, 0, []);
    SelectKeeps(w, e, t.targets, 0, []);
    CallsKept(e.log, s.0.log, {DecideCall}, Accepts);
  }

  lemma RouteStep(w: World, t: Task, r: Run)
    requires r.err.None? && Handled(r)
    ensures var s := RunRoute(w, t, r);
      s.0.err.None? ==>
        && s.1 == Picks(t.targets, |t.targets|, s.0.log) && Sent(s.0.log) == [] && r.log <= s.0.log
        && s.0.out == r.out.(selected := SinksOf(s.1))
  {
    var e := EnterStep(w, r, RouteStage);
    var s := SelectStep(w, t, e);
    if s.0.err.None? {
      var q := s.0.(out := s.0.out.(selected := SinksOf(s.1)));
      var d := LeaveStep(w, q);
      NotAskedLater(q.log, d.log, {ReportCall}, |t.targets|);
      PicksStay(t.targets, |t.targets|, q.log, d.log);
    }
  }

  lemma PrepareStep(w: World, e: Run, bindings: seq<Binding>) returns (p: (Run, seq<(Sink, Body)>))
    requires Sent(e.log) == []
    ensures p == Prepare(w, e, bindings, 0, [])
    ensures Sent(p.0.log) == [] && p.0.out == e.out && Added(e.log, p.0.log, {TransformCall})
    ensures p.0.err.None? ==> Envelopes(p.0.log, bindings, |bindings|, e.out.result, p.1)
  {
    p := Prepare(w, e, bindings, 0, []);
    if e.err.None? {
      PrepareEnvelopes(w, e, bindings, 0, []);
    }
    PrepareAdds(w, e, bindings, 0, []);
    PrepareKeeps(w, e, bindings, 0, []);
    CallsKept(e.log, p.0.log, {TransformCall}, Accepts);
  }

  lemma TransformStep(w: World, t: Task, r: Run, bindings: seq<Binding>)
    requires Sent(r.log) == []
    ensures var p := RunTransform(w, r, bindings);
      p.0.err.None? ==>
        && Envelopes(p.0.log, bindings, |bindings|, r.out.result, p.1) && Sent(p.0.log) == [] && p.0.out == r.out
        && Added(r.log, p.0.log, {ReportCall, TransformCall})
  {
    var e := EnterStep(w, r, TransformStage);
    var p := PrepareStep(w, e, bindings);
    var d := LeaveStep(w, p.0);
    if d.err.None? {
      EnvelopesStay(p.0.log, d.log, bindings, |bindings|, r.out.result, p.1);
    }
  }

  lemma SendStep(w: World, t: Task, r: Run, bindings: seq<Binding>, envelopes: seq<(Sink, Body)>)
    requires r.err.None? && Sent(r.log) == [] && t.targets != [] && r.out.result.Some?
    requires bindings == Picks(t.targets, |t.targets|, r.log)
    requires Envelopes(r.log, bindings, |bindings|, r.out.result, envelopes)
    ensures var s := SendAll(w, PRODUCTION, r, envelopes);
      s.err.None? ==> Delivered(t, s.log, r.out.result, Sent(s.log)) && SinksAre(Sent(s.log), SinksOf(bindings))
  {
    var s := SendAll(w, PRODUCTION, r, envelopes);
    SendAllAccepted(w, PRODUCTION, r, envelopes);
    SendAllAdds(w, PRODUCTION, r, envelopes);
    NotAskedLater(r.log, s.log, {SendCall}, |t.targets|);
    PicksStay(t.targets, |t.targets|, r.log, s.log);
    EnvelopesStay(r.log, s.log, bindings, |bindings|, r.out.result, envelopes);
  }

  /** After the route: the chosen bindings are transformed and sent. */
  lemma RoutedDeliver(w: World, t: Task, r: Run, bindings: seq<Binding>)
    requires r.err.None? && Sent(r.log) == [] && t.targets != [] && r.out.result.Some?
    requires bindings == Picks(t.targets, |t.targets|, r.log)
    ensures var p := RunTransform(w, r, bindings); var x := SendAll(w, PRODUCTION, p.0, p.1);
      x.err.None? ==>
        && Delivered(t, x.log, r.out.result, Sent(x.log)) && SinksAre(Sent(x.log), SinksOf(bindings)) && x.out == r.out
  {
    var p := RunTransform(w, r, bindings);
    TransformStep(w, t, r, bindings);
    if p.0.err.None? {
      NotAskedLater(r.log, p.0.log, {ReportCall, TransformCall}, |t.targets|);
      PicksStay(t.targets, |t.targets|, r.log, p.0.log);
      SendStep(w, t, p.0, bindings, p.1);
      SendAllKeeps(w, PRODUCTION, p.0, p.1);
    }
  }

  lemma SinksDeliver(w: World, t: Task, r: Run)
    requires r.err.None? && Handled(r) && r.out.selected == []
    ensures var x := RunSinks(w, t, PRODUCTION, r);
      x.err.None? ==>
        Delivered(t, x.log, x.out.result, Sent(x.log)) && SinksAre(Sent(x.log), x.out.selected)
  {
    if r.out.result.Some? && t.targets != [] {
      var s := RunRoute(w, t, r);
      RouteStep(w, t, r);
      if s.0.err.None? {
        RoutedDeliver(w, t, s.0, s.1);
      } else {
        RouteFails(w, t, s.0, s.1);
      }
    }
  }

  lemma RouteFails(w: World, t: Task, r: Run, bindings: seq<Binding>)
    requires r.err.Some?
    ensures RunTransform(w, r, bindings).0.err.Some?
  {
  }

  lemma UpToAckDelivers(w: World, t: Task) returns (r: Run)
    ensures r == UpToAck(w, t, PRODUCTION)
    ensures r.err.None? ==> Delivered(t, r.log, r.out.result, Sent(r.log)) && SinksAre(Sent(r.log), r.out.selected)
  {
    var b := RunBefore(w, t, Begin(w));
    var c := RunHandler(w, b);
    var a := RunAfter(w, t, c);
    r := RunSinks(w, t, PRODUCTION, a);
    PreludeHandles(w, t);
    PreludeSelectsNothing(w, t);
    if a.err.None? {
      SinksDeliver(w, t, a);
    }
  }

  lemma PreludeSelectsNothing(w: World, t: Task)
    ensures RunAfter(w, t, RunHandler(w, RunBefore(w, t, Begin(w)))).out.selected == []
  {
    var b := RunBefore(w, t, Begin(w));
    BeforeKeeps(w, t, Begin(w));
    HandlerKeeps(w, b);
    AfterKeeps(w, t, RunHandler(w, b));
  }

  // --------------------------------------------------- what comes afterwards

  /** What handling a failure calls: never user routing, sinks or the ack. */
  const AFTERMATH: set<Class> := {HookCall, DeadCall, RequeueCall, RejectCall, ReportCall}

  lemma FailDeliveryAdds(w: World, m: Mode, r: Run)
    ensures Added(r.log, FailDelivery(w, m, r).0.log, {RequeueCall, RejectCall, ReportCall})
  {
  }

  lemma FailAndReportAdds(w: World, t: Task, m: Mode, r: Run)
    ensures Added(r.log, FailAndReport(w, t, m, r).log, {RequeueCall, RejectCall, ReportCall})
  {
    var f := FailDelivery(w, m, r);
    FailDeliveryAdds(w, m, r);
    if f.0.err.None? {
      var action := if f.1 then f.0.out.action else Some(RETRY);
      CaptureAdds(w, t, Do(w, f.0.(out := f.0.out.(terminal := f.1, action := action)), Emit(FAILED)));
    }
  }

  lemma DeadLetterFailedAdds(w: World, m: Mode, r: Run)
    ensures Added(r.log, DeadLetterFailed(w, m, r).log, {RequeueCall, ReportCall})
  {
  }

  lemma GiveUpAdds(w: World, t: Task, m: Mode, r: Run)
    ensures Added(r.log, GiveUp(w, t, m, r).log, AFTERMATH)
  {
    if t.deadLetters == [] {
      FailAndReportAdds(w, t, m, r.(out := r.out.(action := Some(FAIL))));
    } else {
      var q := r.(out := r.out.(action := Some(DEAD_LETTER)));
      var d := DeadAll(w, m, q, t.deadLetters, false);
      DeadAllAdds(w, m, q, t.deadLetters, false);
      DeadLetterFailedAdds(w, m, d.0);
      CaptureAdds(w, t, DeadLetterFailed(w, m, d.0));
      var published := if d.1 then Some(true) else None;
      var e := d.0.(out := d.0.out.(deadLetterAttempted := d.1, deadLetterPublished := published));
      FailAndReportAdds(w, t, m, Do(w, e, Emit(DEAD_LETTERED)));
    }
  }

  lemma ApplyRetryAdds(w: World, m: Mode, r: Run, delay: Option<real>)
    ensures Added(r.log, ApplyRetry(w, m, r, delay).log, {RequeueCall, ReportCall})
  {
  }

  lemma HandleFailureAdds(w: World, t: Task, m: Mode, attempts: nat, r: Run, kind: Retry.FailureKind)
    ensures Added(r.log, HandleFailure(w, t, m, attempts, r, kind).log, AFTERMATH)
  {
    var f := OnFailure(w, t, r, kind);
    OnFailureAdds(w, t, r, kind);
    if f.err.None? {
      match Retry.OnError(t.policy, attempts, kind, w.draw(f.log))
      case Retry(delay) =>
        var g := f.(out := f.out.(action := Some(RETRY), retryDelay := delay));
        ApplyRetryAdds(w, m, g, delay);
        CaptureAdds(w, t, Do(w, ApplyRetry(w, m, g, delay), Emit(RETRIED)));
      case Fail => GiveUpAdds(w, t, m, f);
    }
  }

  lemma HandleCancelledAdds(w: World, t: Task, m: Mode, r: Run)
    ensures Added(r.log, HandleCancelled(w, t, m, r).log, {RequeueCall, ReportCall})
  {
  }

  lemma FinishAdds(w: World, t: Task, m: Mode, attempts: nat, r: Run)
    ensures Added(r.log, Finish(w, t, m, attempts, r).log, AFTERMATH)
  {
    if r.err.Some? {
      HandleCancelledAdds(w, t, m, r);
      HandleFailureAdds(w, t, m, attempts, r, Retry.TIMEOUT);
      HandleFailureAdds(w, t, m, attempts, r, Retry.ERROR);
    }
  }

  lemma ClassAt(a: Log, b: Log, classes: set<Class>, i: nat)
    requires Added(a, b, classes) && |a| <= i < |b|
    ensures ClassOf(b[i].call) in classes
  {
  }

  lemma AckCalled(w: World, r: Run, i: nat)
    requires var b := RunAck(w, PRODUCTION, r); |r.log| <= i < |b.log| && b.log[i].call == Ack
    ensures r.err.None? && i == |r.log| + 1 && Added(r.log, RunAck(w, PRODUCTION, r).log[..i], {ReportCall})
  {
    if r.err.None? {
      var q, a, c, d, e := AckSteps(w, r);
    }
  }

  /** The acknowledgement is called at one place only, after the body. */
  lemma AckPlace(w: World, t: Task, attempts: nat, r: Run, b: Run, x: Run, i: nat)
    requires Added([], r.log, BODY) && b == RunAck(w, PRODUCTION, r) && Added(b.log, x.log, AFTERMATH)
    requires i < |x.log| && x.log[i].call == Ack
    ensures r.err.None? && i == |r.log| + 1 && Added(r.log, x.log[..i], {ReportCall})
  {
    if i >= |b.log| {
      ClassAt(b.log, x.log, AFTERMATH, i);
    }
    if i < |r.log| {
      RunAckGrows(w, r);
      assert b.log[i] == r.log[i];
      ClassAt([], r.log, BODY, i);
    }
    AckCalled(w, r, i);
    assert x.log[..i] == b.log[..i];
  }

  lemma RunAckGrows(w: World, r: Run)
    ensures r.log <= RunAck(w, PRODUCTION, r).log
  {
    if r.err.None? {
      var q, a, c, d, e := AckSteps(w, r);
    }
  }

  /** When the ack is called, every chosen sink has accepted its envelope, in the order
      of the targets, and the outcome names those sinks. */
  lemma AckAfterSinks(w: World, t: Task, attempts: nat, i: nat)
    requires var x := Execute(w, t, PRODUCTION, attempts); i < |x.log| && x.log[i].call == Ack
    ensures var x := Execute(w, t, PRODUCTION, attempts);
      var body := UpToAck(w, t, PRODUCTION);
      && Answered(x.log[..i], Handle, body.out.result)
      && Delivered(t, x.log[..i], body.out.result, Sent(x.log[..i]))
      && SinksAre(Sent(x.log[..i]), body.out.selected)
  {
    var r := UpToAckDelivers(w, t);
    var b := RunAck(w, PRODUCTION, r);
    FinishAdds(w, t, PRODUCTION, attempts, b);
    UpToAckAdds(w, t, PRODUCTION);
    AckPlace(w, t, attempts, r, b, Execute(w, t, PRODUCTION, attempts), i);
    UpToAckHandled(w, t);
    var before := Execute(w, t, PRODUCTION, attempts).log[..i];
    AnsweredStays(r.log, before, Handle, r.out.result);
    DeliveredStays(t, r.log, before, r.out.result);
  }

  lemma DeliveredStays(t: Task, a: Log, b: Log, result: Body)
    requires Added(a, b, {ReportCall}) && Delivered(t, a, result, Sent(a))
    ensures Sent(b) == Sent(a) && Delivered(t, b, result, Sent(b))
  {
    CallsKept(a, b, {ReportCall}, Accepts);
    NotAskedLater(a, b, {ReportCall}, |t.targets|);
    PicksStay(t.targets, |t.targets|, a, b);
    if result.Some? && t.targets != [] {
      var picks := Picks(t.targets, |t.targets|, a);
      forall k | 0 <= k < |picks| && picks[k].transformed ensures Answered(b, Transform(k), Sent(a)[k].body) {
        AnsweredStays(a, b, Transform(k), Sent(a)[k].body);
      }
    }
  }

  lemma UpToAckHandled(w: World, t: Task)
    ensures var r := UpToAck(w, t, PRODUCTION); r.err.None? ==> Answered(r.log, Handle, r.out.result)
  {
    var a := RunAfter(w, t, RunHandler(w, RunBefore(w, t, Begin(w))));
    PreludeHandles(w, t);
    SinksAdd(w, t, PRODUCTION, a);
    SinksKeep(w, t, PRODUCTION, a);
    var r := RunSinks(w, t, PRODUCTION, a);
    if r.err.None? && a.err.None? {
      AnsweredStays(a.log, r.log, Handle, a.out.result);
    }
  }
}
