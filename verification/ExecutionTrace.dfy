/** The course of one execution: its checkpoints, hooks, settlements, events and captures in
    their order, and the stage and kind of a failure. */
module ExecutionTrace {
  import opened Wrappers
  import opened Execution
  import opened Settlement
  import Retry

  /** All calls but those for the emit targets and to sinks. */
  predicate Audible(call: Call) {
    !call.Decide? && !call.Transform? && !call.Send? && !call.SendDead? && !call.Dispatch? && !call.Backoff?
  }

  predicate Heard(e: Entry) { Audible(e.call) }

  function Trace(log: Log): seq<Call> { Calls(log, Heard) }

  lemma Quietly(w: World, r: Run, call: Call)
    requires !Audible(call)
    ensures Trace(Do(w, r, call).log) == Trace(r.log)
  {
    if r.err.None? {
      CallsDone(w, r, call, Heard);
      assert Trace(r.log) + [] == Trace(r.log);
    }
  }

  lemma Loudly(w: World, r: Run, call: Call)
    requires r.err.None? && Audible(call)
    ensures Trace(Do(w, r, call).log) == Trace(r.log) + [call]
  {
    CallsDone(w, r, call, Heard);
  }

  /** Where nothing was raised, the call was made. */
  lemma Said(w: World, r: Run, call: Call)
    requires Audible(call) && Do(w, r, call).err.None?
    ensures r.err.None? && Trace(Do(w, r, call).log) == Trace(r.log) + [call]
  {
    Loudly(w, r, call);
  }

  /** The calls of a stage, between its two checkpoints. */
  function Within(stage: Stage, calls: seq<Call>): seq<Call> {
    [Checkpoint(stage, false)] + calls + [Checkpoint(stage, true)]
  }

  // ------------------------------------------------------------------ the hooks

  /** The hooks of a kind from the `i`-th on, in order. */
  function HooksFrom(kind: HookKind, i: nat, n: nat): seq<Call>
    decreases n - i
  {
    if i >= n then [] else [Hook(kind, i)] + HooksFrom(kind, i + 1, n)
  }

  /** `b` is `a` with a part of `calls`, from their first on; all of them, if nothing was
      raised. */
  predicate Begun(a: seq<Call>, b: seq<Call>, calls: seq<Call>, raised: bool) {
    a <= b && b <= a + calls && (!raised ==> b == a + calls)
  }

  lemma BegunNothing(a: seq<Call>, calls: seq<Call>)
    ensures Begun(a, a, calls, true) && Begun(a, a, [], true) && Begun(a, a, [], false)
  {
  }

  /** A stage that was entered, with some of its calls, and left, unless these raised. */
  lemma BegunWithin(a: seq<Call>, b: seq<Call>, c: seq<Call>, stage: Stage, calls: seq<Call>, raised: bool, again: bool)
    requires Begun(a + [Checkpoint(stage, false)], b, calls, raised)
    requires if raised then c == b && again else c == b + [Checkpoint(stage, true)]
    ensures Begun(a, c, Within(stage, calls), again)
  {
    assert a + Within(stage, calls) == a + [Checkpoint(stage, false)] + calls + [Checkpoint(stage, true)];
  }

  lemma EnterHeard(w: World, r: Run, stage: Stage)
    requires r.err.None?
    ensures var e := Enter(w, r, stage); Trace(e.log) == Trace(r.log) + [Checkpoint(stage, false)] && e.stage == stage && e.out == r.out
  {
    Loudly(w, r.(stage := stage), Checkpoint(stage, false));
  }

  lemma LeaveHeard(w: World, r: Run)
    ensures var l := Leave(w, r);
      l.out == r.out && if r.err.Some? then l == r else Trace(l.log) == Trace(r.log) + [Checkpoint(r.stage, true)]
  {
    if r.err.None? {
      Loudly(w, r, Checkpoint(r.stage, true));
    }
  }

  lemma BegunMore(a: seq<Call>, b: seq<Call>, call: Call, rest: seq<Call>, raised: bool)
    requires Begun(a + [call], b, rest, raised)
    ensures Begun(a, b, [call] + rest, raised)
  {
    assert a + ([call] + rest) == a + [call] + rest;
  }

  lemma BegunOne(a: seq<Call>, call: Call, rest: seq<Call>)
    ensures Begun(a, a + [call], [call] + rest, true)
  {
    assert a + ([call] + rest) == a + [call] + rest;
  }

  lemma BegunThen(a: seq<Call>, b: seq<Call>, c: seq<Call>, first: seq<Call>, rest: seq<Call>, raised: bool, again: bool)
    requires Begun(a, b, first, raised) && (if raised then c == b else Begun(b, c, rest, again))
    ensures Begun(a, c, first + rest, raised || again)
  {
    assert a + (first + rest) == a + first + rest;
  }

  lemma HooksStep(w: World, r: Run, kind: HookKind, i: nat, n: nat)
    requires r.err.None? && i < n
    ensures var h := Do(w, r, Hook(kind, i));
      Hooks(w, r, kind, i, n, false) == if h.err.Some? then h else Hooks(w, h, kind, i + 1, n, false)
  {
  }

  /** Without suppression the hooks are called in order up to one that raises. */
  lemma {:induction false} HooksHeard(w: World, r: Run, kind: HookKind, i: nat, n: nat)
    requires r.err.None?
    ensures var h := Hooks(w, r, kind, i, n, false);
      Begun(Trace(r.log), Trace(h.log), HooksFrom(kind, i, n), h.err.Some?)
    decreases n - i
  {
    if i < n {
      var h := Do(w, r, Hook(kind, i));
      Loudly(w, r, Hook(kind, i));
      HooksStep(w, r, kind, i, n);
      if h.err.None? {
        HooksHeard(w, h, kind, i + 1, n);
        var x := Hooks(w, h, kind, i + 1, n, false);
        BegunMore(Trace(r.log), Trace(x.log), Hook(kind, i), HooksFrom(kind, i + 1, n), x.err.Some?);
      } else {
        BegunOne(Trace(r.log), Hook(kind, i), HooksFrom(kind, i + 1, n));
      }
    }
  }

  lemma SuppressedStep(w: World, r: Run, kind: HookKind, i: nat, n: nat)
    requires r.err.None? && i < n
    ensures var h := Do(w, r, Hook(kind, i));
      Hooks(w, r, kind, i, n, true)
        == if h.err.Some? && h.err.value == Cancelled then h else Hooks(w, h.(err := None), kind, i + 1, n, true)
  {
    var h := Do(w, r, Hook(kind, i));
    if h.err.Some? && h.err.value == Cancelled {
      assert Hooks(w, h, kind, i + 1, n, true) == h;
    }
  }

  /** With suppression all of them are, unless one is cancelled. */
  lemma {:induction false} SuppressedHooksHeard(w: World, r: Run, kind: HookKind, i: nat, n: nat)
    requires r.err.None?
    ensures var h := Hooks(w, r, kind, i, n, true);
      h.err.None? ==> Trace(h.log) == Trace(r.log) + HooksFrom(kind, i, n)
    decreases n - i
  {
    if i < n {
      var h := Do(w, r, Hook(kind, i));
      Loudly(w, r, Hook(kind, i));
      SuppressedStep(w, r, kind, i, n);
      if !(h.err.Some? && h.err.value == Cancelled) {
        SuppressedHooksHeard(w, h.(err := None), kind, i + 1, n);
        assert Trace(r.log) + HooksFrom(kind, i, n) == Trace(r.log) + [Hook(kind, i)] + HooksFrom(kind, i + 1, n);
      }
    } else {
      assert Trace(r.log) + [] == Trace(r.log);
    }
  }

  // ------------------------------------------------------------- routes and sinks

  lemma {:induction false} SelectQuiet(w: World, r: Run, targets: seq<Target>, i: nat, bs: seq<Binding>)
    requires i <= |targets|
    ensures Trace(Select(w, r, targets, i, bs).0.log) == Trace(r.log)
    decreases |targets| - i
  {
    if r.err.None? && i < |targets| {
      match targets[i]
      case Bound(b) => SelectQuiet(w, r, targets, i + 1, bs + [b]);
      case Route(conditional, chosen, otherwise) =>
        var d := Do(w, r, Decide(i));
        Quietly(w, r, Decide(i));
        SelectQuiet(w, r, targets, i + 1, bs + chosen);
        SelectQuiet(w, d, targets, i + 1, bs + if LastFlag(d) then chosen else otherwise);
    }
  }

  lemma {:induction false} PrepareQuiet(w: World, r: Run, bindings: seq<Binding>, i: nat, done: seq<(Sink, Body)>)
    requires i <= |bindings|
    ensures Trace(Prepare(w, r, bindings, i, done).0.log) == Trace(r.log)
    decreases |bindings| - i
  {
    if r.err.None? && i < |bindings| {
      var x := Do(w, r, Transform(i));
      Quietly(w, r, Transform(i));
      PrepareQuiet(w, r, bindings, i + 1, done + [(bindings[i].sink, r.out.result)]);
      PrepareQuiet(w, x, bindings, i + 1, done + [(bindings[i].sink, LastBody(x))]);
    }
  }

  lemma {:induction false} SendQuiet(w: World, r: Run, sink: Sink, body: Body, tries: nat)
    requires 0 < tries
    ensures Trace(SendToSink(w, r, sink, body, tries).log) == Trace(r.log)
    decreases tries
  {
    var s := Do(w, r, Send(sink, body));
    Quietly(w, r, Send(sink, body));
    if r.err.None? && s.err.Some? && s.err.value.Connector? && tries > 1 {
      var delay := RetryDelay(s.err.value.kind, s.err.value.retryDelay, sink.pollInterval);
      var b := Do(w, s.(err := None), Backoff(delay));
      Quietly(w, s.(err := None), Backoff(delay));
      SendQuiet(w, s.(err := None), sink, body, tries - 1);
      SendQuiet(w, b.(err := None), sink, body, tries - 1);
    }
  }

  lemma {:induction false} SendAllQuiet(w: World, m: Mode, r: Run, envelopes: seq<(Sink, Body)>)
    ensures Trace(SendAll(w, m, r, envelopes).log) == Trace(r.log)
    decreases |envelopes|
  {
    if r.err.None? && envelopes != [] {
      var s := r.(stage := SinkStage);
      SendQuiet(w, s, envelopes[0].0, envelopes[0].1, SEND_ATTEMPTS);
      Quietly(w, s, Dispatch(envelopes[0].0, false));
      SendAllQuiet(w, m, DispatchOne(w, m, s, envelopes[0].0, envelopes[0].1), envelopes[1..]);
    }
  }

  /** Is there something to emit, and somewhere to? */
  predicate Emitting(t: Task, result: Body) { result.Some? && t.targets != [] }

  function EmitStages(emitting: bool): seq<Call> {
    if emitting then Within(RouteStage, []) + Within(TransformStage, []) else []
  }

  lemma SinksHeard(w: World, t: Task, m: Mode, r: Run)
    requires r.err.None?
    ensures Begun(Trace(r.log), Trace(RunSinks(w, t, m, r).log), EmitStages(Emitting(t, r.out.result)), RunSinks(w, t, m, r).err.Some?)
  {
    if Emitting(t, r.out.result) {
      var s := RunRoute(w, t, r);
      RouteHeard(w, t, r);
      TransformHeard(w, s.0, s.1);
      var p := RunTransform(w, s.0, s.1);
      SendAllQuiet(w, m, p.0, p.1);
      BegunThen(Trace(r.log), Trace(s.0.log), Trace(p.0.log), Within(RouteStage, []), Within(TransformStage, []),
                s.0.err.Some?, p.0.err.Some?);
      SendAllRaised(w, m, p.0, p.1);
    } else {
      BegunNothing(Trace(r.log), []);
    }
  }

  lemma SendAllRaised(w: World, m: Mode, r: Run, envelopes: seq<(Sink, Body)>)
    ensures r.err.Some? ==> SendAll(w, m, r, envelopes) == r
  {
  }

  lemma RouteHeard(w: World, t: Task, r: Run)
    requires r.err.None?
    ensures var s := RunRoute(w, t, r).0; Begun(Trace(r.log), Trace(s.log), Within(RouteStage, []), s.err.Some?)
  {
    var e := Enter(w, r, RouteStage);
    EnterHeard(w, r, RouteStage);
    SelectQuiet(w, e, t.targets, 0, []);
    SelectKeeps(w, e, t.targets, 0, []);
    var s := Select(w, e, t.targets, 0, []);
    var left := Leave(w, s.0.(out := s.0.out.(selected := SinksOf(s.1))));
    LeaveHeard(w, s.0.(out := s.0.out.(selected := SinksOf(s.1))));
    BegunWithin(Trace(r.log), Trace(s.0.log), Trace(if s.0.err.Some? then s.0.log else left.log), RouteStage, [],
                s.0.err.Some?, if s.0.err.Some? then true else left.err.Some?);
  }

  lemma TransformHeard(w: World, r: Run, bindings: seq<Binding>)
    ensures var p := RunTransform(w, r, bindings).0;
      if r.err.Some? then p == r else Begun(Trace(r.log), Trace(p.log), Within(TransformStage, []), p.err.Some?)
  {
    if r.err.None? {
      var e := Enter(w, r, TransformStage);
      EnterHeard(w, r, TransformStage);
      PrepareQuiet(w, e, bindings, 0, []);
      PrepareKeeps(w, e, bindings, 0, []);
      var p := Prepare(w, e, bindings, 0, []).0;
      LeaveHeard(w, p);
      BegunWithin(Trace(r.log), Trace(p.log), Trace(Leave(w, p).log), TransformStage, [], p.err.Some?, Leave(w, p).err.Some?);
    }
  }

  // ------------------------------------------------------------------ the body

  /** All that is heard of an execution that nothing interrupts. */
  function Opening(): seq<Call> { [Start, Emit(STARTED)] }
  function Hooked(stage: Stage, kind: HookKind, n: nat): seq<Call> { Within(stage, HooksFrom(kind, 0, n)) }
  function Closing(m: Mode): seq<Call> { Within(AckStage, AckCall(m)) + [Emit(SUCCEEDED)] }

  function FullCourse(t: Task, m: Mode, emitting: bool): seq<Call> {
    Opening() + (Hooked(BeforeStage, BEFORE, t.before) + (Within(HandlerStage, [Handle])
      + (Hooked(AfterStage, AFTER_SUCCESS, t.afterSuccess) + (EmitStages(emitting) + Closing(m)))))
  }

  lemma BeginHeard(w: World)
    ensures Begun([], Trace(Begin(w).log), Opening(), Begin(w).err.Some?)
  {
    var r := Run([], None, DeliveryStage, FRESH);
    var s := Do(w, r, Start);
    Loudly(w, r, Start);
    assert Trace(r.log) == [] && Trace(s.log) == [] + [Start];
    if s.err.None? {
      Loudly(w, s, Emit(STARTED));
      BegunMore([], Trace(Begin(w).log), Start, [Emit(STARTED)], Begin(w).err.Some?);
    } else {
      BegunOne([], Start, [Emit(STARTED)]);
    }
    assert [Start] + [Emit(STARTED)] == Opening();
  }

  /** A stage of hooks. */
  lemma HookedHeard(w: World, r: Run, stage: Stage, kind: HookKind, n: nat)
    requires r.err.None?
    ensures var x := Leave(w, Hooks(w, Enter(w, r, stage), kind, 0, n, false));
      Begun(Trace(r.log), Trace(x.log), Hooked(stage, kind, n), x.err.Some?)
  {
    var e := Enter(w, r, stage);
    EnterHeard(w, r, stage);
    if e.err.None? {
      HooksHeard(w, e, kind, 0, n);
    } else {
      BegunNothing(Trace(e.log), HooksFrom(kind, 0, n));
    }
    var h := Hooks(w, e, kind, 0, n, false);
    HooksKeep(w, e, kind, 0, n, false);
    LeaveHeard(w, h);
    BegunWithin(Trace(r.log), Trace(h.log), Trace(Leave(w, h).log), stage, HooksFrom(kind, 0, n), h.err.Some?, Leave(w, h).err.Some?);
  }

  lemma HandlerHeard(w: World, r: Run)
    requires r.err.None?
    ensures Begun(Trace(r.log), Trace(RunHandler(w, r).log), Within(HandlerStage, [Handle]), RunHandler(w, r).err.Some?)
  {
    var e := Enter(w, r, HandlerStage);
    EnterHeard(w, r, HandlerStage);
    var h := Do(w, e, Handle);
    if e.err.None? {
      Loudly(w, e, Handle);
    }
    assert Begun(Trace(e.log), Trace(h.log), [Handle], h.err.Some?);
    var q := h.(out := h.out.(result := LastBody(h)));
    LeaveHeard(w, q);
    if h.err.None? {
      BegunWithin(Trace(r.log), Trace(h.log), Trace(Leave(w, q).log), HandlerStage, [Handle], false, Leave(w, q).err.Some?);
    } else {
      BegunWithin(Trace(r.log), Trace(h.log), Trace(h.log), HandlerStage, [Handle], true, true);
    }
  }

  lemma RaisedStays(w: World, t: Task, m: Mode, r: Run)
    requires r.err.Some?
    ensures RunBefore(w, t, r) == r && RunHandler(w, r) == r && RunAfter(w, t, r) == r && RunSinks(w, t, m, r) == r
    ensures RunAck(w, m, r) == r
  {
  }

  lemma AckHeard(w: World, m: Mode, r: Run)
    requires r.err.None?
    ensures Begun(Trace(r.log), Trace(RunAck(w, m, r).log), Closing(m), RunAck(w, m, r).err.Some?)
    ensures RunAck(w, m, r).out.result == r.out.result
  {
    var q := r.(out := r.out.(action := Some(ACK)));
    AckStageHeard(w, m, q);
    var l := AckLeft(w, m, q);
    if l.err.None? {
      Loudly(w, l, Emit(SUCCEEDED));
    }
    var c := Do(w, l, Emit(SUCCEEDED));
    BegunThen(Trace(r.log), Trace(l.log), Trace(c.log), Within(AckStage, AckCall(m)), [Emit(SUCCEEDED)], l.err.Some?, c.err.Some?);
  }

  function AckCall(m: Mode): seq<Call> { if m.settles then [Ack] else [] }

  function AckLeft(w: World, m: Mode, q: Run): Run {
    var a := Enter(w, q, AckStage);
    Leave(w, if m.settles then Do(w, a, Ack) else a)
  }

  lemma AckStageHeard(w: World, m: Mode, q: Run)
    requires q.err.None?
    ensures var l := AckLeft(w, m, q);
      l.out == q.out && Begun(Trace(q.log), Trace(l.log), Within(AckStage, AckCall(m)), l.err.Some?)
  {
    var a := Enter(w, q, AckStage);
    EnterHeard(w, q, AckStage);
    var b := if m.settles then Do(w, a, Ack) else a;
    if a.err.None? {
      Loudly(w, a, Ack);
    }
    assert Begun(Trace(a.log), Trace(b.log), AckCall(m), b.err.Some?);
    LeaveHeard(w, b);
    BegunWithin(Trace(q.log), Trace(b.log), Trace(Leave(w, b).log), AckStage, AckCall(m), b.err.Some?, Leave(w, b).err.Some?);
  }

  /** The execution is heard in order, up to where it raises. */
  lemma BodyHeard(w: World, t: Task, m: Mode)
    ensures var x := Attempt(w, t, m);
      Begun([], Trace(x.log), FullCourse(t, m, Emitting(t, x.out.result)), x.err.Some?)
  {
    var a := Begin(w);
    BeginHeard(w);
    var b := RunBefore(w, t, a);
    var c := RunHandler(w, b);
    var d := RunAfter(w, t, c);
    var e := RunSinks(w, t, m, d);
    var x := RunAck(w, m, e);
    ResultKept(w, t, m, d);
    BodyFollows(w, t, m, a);
    BodyFollows(w, t, m, b);
    BodyFollows(w, t, m, c);
    BodyFollows(w, t, m, d);
    BodyFollows(w, t, m, e);
    Chained(a, b, c, d, e, x, t, m, Emitting(t, x.out.result));
  }

  predicate RunFollows(r: Run, x: Run, calls: seq<Call>) { Follows(Trace(r.log), Trace(x.log), calls, r.err.Some?, x.err.Some?) }

  /** Whichever stage comes next. */
  lemma BodyFollows(w: World, t: Task, m: Mode, r: Run)
    ensures RunFollows(r, RunBefore(w, t, r), Hooked(BeforeStage, BEFORE, t.before))
    ensures RunFollows(r, RunHandler(w, r), Within(HandlerStage, [Handle]))
    ensures RunFollows(r, RunAfter(w, t, r), Hooked(AfterStage, AFTER_SUCCESS, t.afterSuccess))
    ensures RunFollows(r, RunSinks(w, t, m, r), EmitStages(Emitting(t, r.out.result)))
    ensures RunFollows(r, RunAck(w, m, r), Closing(m))
  {
    if r.err.None? {
      HookedHeard(w, r, BeforeStage, BEFORE, t.before);
      HandlerHeard(w, r);
      HookedHeard(w, r, AfterStage, AFTER_SUCCESS, t.afterSuccess);
      SinksHeard(w, t, m, r);
      AckHeard(w, m, r);
    } else {
      RaisedStays(w, t, m, r);
    }
  }

  lemma ResultKept(w: World, t: Task, m: Mode, d: Run)
    ensures var e := RunSinks(w, t, m, d); e.out.result == d.out.result && RunAck(w, m, e).out.result == d.out.result
  {
    SinksKeep(w, t, m, d);
    var e := RunSinks(w, t, m, d);
    if e.err.None? { AckHeard(w, m, e); } else { RaisedStays(w, t, m, e); }
  }

  /** One stage after another. */
  predicate Follows(a: seq<Call>, b: seq<Call>, calls: seq<Call>, raised: bool, again: bool) {
    if raised then b == a && again else Begun(a, b, calls, again)
  }

  lemma Chained(a: Run, b: Run, c: Run, d: Run, e: Run, x: Run, t: Task, m: Mode, emitting: bool)
    requires Begun([], Trace(a.log), Opening(), a.err.Some?)
    requires RunFollows(a, b, Hooked(BeforeStage, BEFORE, t.before)) && RunFollows(b, c, Within(HandlerStage, [Handle]))
    requires RunFollows(c, d, Hooked(AfterStage, AFTER_SUCCESS, t.afterSuccess))
    requires RunFollows(d, e, EmitStages(emitting)) && RunFollows(e, x, Closing(m))
    ensures Begun([], Trace(x.log), FullCourse(t, m, emitting), x.err.Some?)
  {
    var before, handler := Hooked(BeforeStage, BEFORE, t.before), Within(HandlerStage, [Handle]);
    var after, emits := Hooked(AfterStage, AFTER_SUCCESS, t.afterSuccess), EmitStages(emitting);
    RunThen(d, e, x, emits, Closing(m));
    RunThen(c, d, x, after, emits + Closing(m));
    RunThen(b, c, x, handler, after + (emits + Closing(m)));
    RunThen(a, b, x, before, handler + (after + (emits + Closing(m))));
    FollowsThen([], Trace(a.log), Trace(x.log), Opening(), before + (handler + (after + (emits + Closing(m)))),
                false, a.err.Some?, x.err.Some?);
  }

  lemma RunThen(r: Run, x: Run, y: Run, first: seq<Call>, rest: seq<Call>)
    requires RunFollows(r, x, first) && RunFollows(x, y, rest)
    ensures RunFollows(r, y, first + rest)
  {
    FollowsThen(Trace(r.log), Trace(x.log), Trace(y.log), first, rest, r.err.Some?, x.err.Some?, y.err.Some?);
  }

  lemma FollowsThen(a: seq<Call>, b: seq<Call>, c: seq<Call>, first: seq<Call>, rest: seq<Call>, r0: bool, r1: bool, r2: bool)
    requires Follows(a, b, first, r0, r1) && Follows(b, c, rest, r1, r2)
    ensures Follows(a, c, first + rest, r0, r2)
  {
    assert a + (first + rest) == a + first + rest;
  }

  // ---------------------------------------------------------------- on failure

  /** Is the failure captured? */
  predicate Captured(t: Task, terminal: bool) { t.capture.All? || (t.capture.Terminal? && terminal) }

  function CaptureOf(t: Task, terminal: bool): seq<Call> { if Captured(t, terminal) then [Record] else [] }

  lemma CaptureHeard(w: World, t: Task, r: Run)
    requires r.err.None?
    ensures Trace(WriteCapture(w, t, r).log) == Trace(r.log) + CaptureOf(t, r.out.terminal)
    ensures WriteCapture(w, t, r).out == r.out
  {
    if Captured(t, r.out.terminal) {
      Loudly(w, r, Record);
    } else {
      assert Trace(r.log) + [] == Trace(r.log);
    }
  }

  /** A settlement within its stage. */
  function Settling(m: Mode, calls: seq<Call>): seq<Call> { Within(DeliveryStage, if m.settles then calls else []) }

  /** A retry, and its event. */
  function RetriedBy(m: Mode, delay: Option<real>): seq<Call> { Settling(m, [Requeue(delay)]) + [Emit(RETRIED)] }

  lemma ApplyRetryHeard(w: World, m: Mode, r: Run, delay: Option<real>)
    ensures var x := ApplyRetry(w, m, r, delay);
      x.out == r.out && (x.err.None? ==> Trace(x.log) == Trace(r.log) + Settling(m, [Requeue(delay)]))
  {
    var a := Do(w, r, Checkpoint(DeliveryStage, false));
    var b := if m.settles then Do(w, a, Requeue(delay)) else a;
    var x := Do(w, b, Checkpoint(DeliveryStage, true));
    if x.err.None? {
      Loudly(w, r, Checkpoint(DeliveryStage, false));
      Loudly(w, a, Requeue(delay));
      Loudly(w, b, Checkpoint(DeliveryStage, true));
      assert Trace(x.log) == Trace(r.log) + Settling(m, [Requeue(delay)]);
    }
  }

  /** With its event. */
  lemma RetryHeard(w: World, m: Mode, r: Run, delay: Option<real>)
    ensures var x := Do(w, ApplyRetry(w, m, r, delay), Emit(RETRIED));
      x.out == r.out && (x.err.None? ==> Trace(x.log) == Trace(r.log) + RetriedBy(m, delay))
  {
    ApplyRetryHeard(w, m, r, delay);
    var a := ApplyRetry(w, m, r, delay);
    if a.err.None? {
      Loudly(w, a, Emit(RETRIED));
      assert Trace(r.log) + Settling(m, [Requeue(delay)]) + [Emit(RETRIED)] == Trace(r.log) + RetriedBy(m, delay);
    }
  }

  /** A rejection; one that is refused is followed by a retry. */
  function Rejecting(m: Mode, done: bool): seq<Call> {
    if m.settles then Within(DeliveryStage, [Reject] + if done then [] else [Requeue(None)]) else []
  }

  lemma FailDeliveryHeard(w: World, m: Mode, r: Run)
    ensures var (f, done) := FailDelivery(w, m, r);
      f.out == r.out && (f.err.None? ==> Trace(f.log) == Trace(r.log) + Rejecting(m, done))
  {
    var (x, done) := FailDelivery(w, m, r);
    if !m.settles {
      assert Trace(r.log) + [] == Trace(r.log);
    } else if x.err.None? {
      RejectHeard(w, r, m);
    }
  }

  lemma RejectHeard(w: World, r: Run, m: Mode)
    requires m.settles && FailDelivery(w, m, r).0.err.None?
    ensures var (x, done) := FailDelivery(w, m, r); Trace(x.log) == Trace(r.log) + Rejecting(m, done)
  {
    var c := Do(w, r, Checkpoint(DeliveryStage, false));
    var f := Do(w, c, Reject);
    var (x, done) := FailDelivery(w, m, r);
    if done {
      Said(w, f, Checkpoint(DeliveryStage, true));
      Said(w, c, Reject);
    } else {
      var q := f.(err := None);
      var u := Do(w, q, Requeue(None));
      Said(w, u, Checkpoint(DeliveryStage, true));
      Said(w, q, Requeue(None));
      Loudly(w, c, Reject);
    }
    Said(w, r, Checkpoint(DeliveryStage, false));
    RejectParts(Trace(r.log), m);
  }

  lemma RejectParts(a: seq<Call>, m: Mode)
    requires m.settles
    ensures a + [Checkpoint(DeliveryStage, false)] + [Reject] + [Checkpoint(DeliveryStage, true)] == a + Rejecting(m, true)
    ensures a + [Checkpoint(DeliveryStage, false)] + [Reject] + [Requeue(None)] + [Checkpoint(DeliveryStage, true)]
      == a + Rejecting(m, false)
  {
    assert Rejecting(m, true) == [Checkpoint(DeliveryStage, false), Reject, Checkpoint(DeliveryStage, true)];
    assert Rejecting(m, false) == [Checkpoint(DeliveryStage, false), Reject, Requeue(None), Checkpoint(DeliveryStage, true)];
  }

  /** After the event, perhaps a capture. */
  predicate EndsWith(before: seq<Call>, x: Run, events: seq<Call>, t: Task) {
    x.err.None? ==> Trace(x.log) == before + events + CaptureOf(t, x.out.terminal)
  }

  lemma CaptureEnds(w: World, t: Task, r: Run, before: seq<Call>, events: seq<Call>)
    requires r.err.None? ==> Trace(r.log) == before + events
    ensures EndsWith(before, WriteCapture(w, t, r), events, t)
  {
    if r.err.None? {
      CaptureHeard(w, t, r);
    }
  }

  /** The end of a failure for good. */
  function Failing(m: Mode, done: bool): seq<Call> { Rejecting(m, done) + [Emit(FAILED)] }

  lemma ReportHeard(w: World, t: Task, m: Mode, r: Run, before: seq<Call>, events: seq<Call>)
    requires r.err.None? ==> Trace(r.log) == before + events
    ensures var x := FailAndReport(w, t, m, r); EndsWith(before, x, events + Failing(m, x.out.terminal), t)
  {
    var f := FailDelivery(w, m, r);
    FailDeliveryHeard(w, m, r);
    if f.0.err.None? {
      FailDeliveryRan(w, m, r);
      var action := if f.1 then f.0.out.action else Some(RETRY);
      var q := f.0.(out := f.0.out.(terminal := f.1, action := action));
      Loudly(w, q, Emit(FAILED));
      FailingParts(before, events, m, f.1);
      CaptureEnds(w, t, Do(w, q, Emit(FAILED)), before, events + Failing(m, f.1));
      CaptureKeeps(w, t, Do(w, q, Emit(FAILED)));
    }
  }

  lemma FailingParts(before: seq<Call>, events: seq<Call>, m: Mode, done: bool)
    ensures before + events + Rejecting(m, done) + [Emit(FAILED)] == before + (events + Failing(m, done))
  {
  }

  lemma CaptureKeeps(w: World, t: Task, r: Run)
    ensures WriteCapture(w, t, r).out == r.out
  {
  }

  lemma FailDeliveryRan(w: World, m: Mode, r: Run)
    requires FailDelivery(w, m, r).0.err.None?
    ensures r.err.None?
  {
  }

  lemma {:induction false} DeadAllQuiet(w: World, m: Mode, r: Run, sinks: seq<Sink>, sent: bool)
    ensures Trace(DeadAll(w, m, r, sinks, sent).0.log) == Trace(r.log) && DeadAll(w, m, r, sinks, sent).0.out == r.out
    decreases |sinks|
  {
    if r.err.None? && sinks != [] {
      var call := if m.production then SendDead(sinks[0]) else Dispatch(sinks[0], true);
      var d := Do(w, r, call);
      Quietly(w, r, call);
      DeadAllQuiet(w, m, d, sinks[1..], sent || m.production || LastFlag(d));
    }
  }

  /** How a failure for good ends: with dead letters first, where there are sinks for them. */
  function GivingUp(t: Task, m: Mode, done: bool): seq<Call> {
    (if t.deadLetters == [] then [] else [Emit(DEAD_LETTERED)]) + Failing(m, done)
  }

  /** What came after the policy gave up: that, or a retry for a refused dead letter. */
  predicate GaveUp(before: seq<Call>, x: Run, t: Task, m: Mode) {
    EndsWith(before, x, if x.out.deadLetterPublished == Some(false) then RetriedBy(m, None) else GivingUp(t, m, x.out.terminal), t)
  }

  lemma RefusedHeard(w: World, t: Task, m: Mode, r: Run, before: seq<Call>)
    requires Trace(r.log) == before
    ensures EndsWith(before, WriteCapture(w, t, DeadLetterFailed(w, m, r)), RetriedBy(m, None), t)
    ensures WriteCapture(w, t, DeadLetterFailed(w, m, r)).out.deadLetterPublished == Some(false)
  {
    var out := r.out.(deadLetterAttempted := true, deadLetterPublished := Some(false), action := Some(RETRY));
    RetryHeard(w, m, r.(err := None, out := out), None);
    CaptureEnds(w, t, DeadLetterFailed(w, m, r), before, RetriedBy(m, None));
  }

  lemma ReportKeeps(w: World, t: Task, m: Mode, r: Run)
    ensures FailAndReport(w, t, m, r).out.deadLetterPublished == r.out.deadLetterPublished
  {
    FailDeliveryHeard(w, m, r);
  }

  lemma GiveUpHeard(w: World, t: Task, m: Mode, r: Run)
    requires r.err.None? && r.out.deadLetterPublished.None?
    ensures GaveUp(Trace(r.log), GiveUp(w, t, m, r), t, m)
  {
    var before := Trace(r.log);
    if t.deadLetters == [] {
      var q := r.(out := r.out.(action := Some(FAIL)));
      assert before + [] == before;
      ReportHeard(w, t, m, q, before, []);
      ReportKeeps(w, t, m, q);
      var x := FailAndReport(w, t, m, q);
      assert [] + Failing(m, x.out.terminal) == GivingUp(t, m, x.out.terminal);
    } else {
      var q := r.(out := r.out.(action := Some(DEAD_LETTER)));
      var d := DeadAll(w, m, q, t.deadLetters, false);
      DeadAllQuiet(w, m, q, t.deadLetters, false);
      if d.0.err.Some? && d.0.err.value != Cancelled {
        RefusedHeard(w, t, m, d.0, before);
      } else if d.0.err.None? {
        var published := if d.1 then Some(true) else None;
        var sent := d.0.(out := d.0.out.(deadLetterAttempted := d.1, deadLetterPublished := published));
        Loudly(w, sent, Emit(DEAD_LETTERED));
        ReportHeard(w, t, m, Do(w, sent, Emit(DEAD_LETTERED)), before, [Emit(DEAD_LETTERED)]);
        ReportKeeps(w, t, m, Do(w, sent, Emit(DEAD_LETTERED)));
      }
    }
  }

  lemma OnFailureHeard(w: World, t: Task, r: Run, kind: Retry.FailureKind)
    ensures var f := OnFailure(w, t, r, kind);
      f.err.None? ==> Trace(f.log) == Trace(r.log) + Hooked(FailureStage, ON_FAILURE, t.onFailure)
  {
    var out := r.out.(failure := Some(kind), failureStage := Some(r.stage), completion := Failed);
    FailureHooksHeard(w, t, r.(err := None, out := out));
  }

  lemma FailureHooksHeard(w: World, t: Task, q: Run)
    requires q.err.None?
    ensures var e := Do(w, q, Checkpoint(FailureStage, false));
      var f := Do(w, Hooks(w, e, ON_FAILURE, 0, t.onFailure, true), Checkpoint(FailureStage, true));
      f.err.None? ==> Trace(f.log) == Trace(q.log) + Hooked(FailureStage, ON_FAILURE, t.onFailure)
  {
    var e := Do(w, q, Checkpoint(FailureStage, false));
    var h := Hooks(w, e, ON_FAILURE, 0, t.onFailure, true);
    if Do(w, h, Checkpoint(FailureStage, true)).err.None? {
      Said(w, h, Checkpoint(FailureStage, true));
      HooksNeed(w, e, ON_FAILURE, 0, t.onFailure);
      Said(w, q, Checkpoint(FailureStage, false));
      SuppressedHooksHeard(w, e, ON_FAILURE, 0, t.onFailure);
      WithinParts(Trace(q.log), FailureStage, HooksFrom(ON_FAILURE, 0, t.onFailure));
    }
  }

  lemma WithinParts(a: seq<Call>, stage: Stage, calls: seq<Call>)
    ensures a + [Checkpoint(stage, false)] + calls + [Checkpoint(stage, true)] == a + Within(stage, calls)
  {
  }

  lemma HooksNeed(w: World, r: Run, kind: HookKind, i: nat, n: nat)
    ensures r.err.Some? ==> Hooks(w, r, kind, i, n, true) == r
  {
  }

  // ------------------------------------------------------------------ the theorem

  /** What is heard after the body: the failure hooks, then a retry, or giving up, and the
      capture. */
  lemma HandleFailureHeard(w: World, t: Task, m: Mode, attempts: nat, r: Run, kind: Retry.FailureKind)
    requires r.out.deadLetterPublished.None?
    ensures var f := OnFailure(w, t, r, kind);
      f.err.None? ==>
        var hooked := Trace(r.log) + Hooked(FailureStage, ON_FAILURE, t.onFailure);
        var x := HandleFailure(w, t, m, attempts, r, kind);
        if Retry.OnError(t.policy, attempts, kind, w.draw(f.log)).Retry? then EndsWith(hooked, x, RetriedBy(m, x.out.retryDelay), t)
        else GaveUp(hooked, x, t, m)
  {
    OnFailureHeard(w, t, r, kind);
    OnFailureKeeps(w, t, r, kind);
    var f := OnFailure(w, t, r, kind);
    if f.err.None? {
      match Retry.OnError(t.policy, attempts, kind, w.draw(f.log))
      case Retry(delay) =>
        var q := f.(out := f.out.(action := Some(RETRY), retryDelay := delay));
        RetryHeard(w, m, q, delay);
        var done := Do(w, ApplyRetry(w, m, q, delay), Emit(RETRIED));
        CaptureEnds(w, t, done, Trace(f.log), RetriedBy(m, delay));
        if done.err.None? {
          CaptureHeard(w, t, done);
        }
      case Fail => GiveUpHeard(w, t, m, f);
    }
  }

  // --------------------------------------------------------- stage and kind

  /** The stage a call belongs to. */
  function StageOf(call: Call): Stage {
    match call
    case Checkpoint(stage, _) => stage
    case Hook(hook, _) =>
      if hook.BEFORE? then BeforeStage else if hook.AFTER_SUCCESS? then AfterStage else FailureStage
    case Handle => HandlerStage
    case Decide(_) => RouteStage
    case Transform(_) => TransformStage
    case Send(_, _) => SinkStage
    case Backoff(_) => SinkStage
    case Dispatch(_, _) => SinkStage
    case Ack => AckStage
    case Emit(event) => if event.SUCCEEDED? then AckStage else DeliveryStage
    case _ => DeliveryStage
  }

  /** If the run has raised, its stage is that of the call it made last. */
  predicate Located(r: Run) {
    r.err.Some? ==> r.log != [] && r.stage == StageOf(r.log[|r.log| - 1].call)
  }

  lemma DoLocates(w: World, r: Run, call: Call)
    requires Located(r) && r.stage == StageOf(call)
    ensures Located(Do(w, r, call)) && Do(w, r, call).stage == r.stage
  {
  }

  lemma EnterLocates(w: World, r: Run, stage: Stage)
    requires Located(r)
    ensures Located(Enter(w, r, stage)) && (Enter(w, r, stage).err.None? ==> Enter(w, r, stage).stage == stage)
  {
  }

  lemma LeaveLocates(w: World, r: Run)
    requires Located(r)
    ensures Located(Leave(w, r)) && Leave(w, r).stage == r.stage
  {
    DoLocates(w, r, Checkpoint(r.stage, true));
  }

  lemma {:induction false} HooksLocate(w: World, r: Run, kind: HookKind, i: nat, n: nat)
    requires Located(r) && r.stage == StageOf(Hook(kind, i))
    ensures var h := Hooks(w, r, kind, i, n, false); Located(h) && h.stage == r.stage
    decreases n - i
  {
    if r.err.None? && i < n {
      DoLocates(w, r, Hook(kind, i));
      HooksLocate(w, Do(w, r, Hook(kind, i)), kind, i + 1, n);
    }
  }

  lemma {:induction false} SelectLocates(w: World, r: Run, targets: seq<Target>, i: nat, bs: seq<Binding>)
    requires i <= |targets| && Located(r) && r.stage == RouteStage
    ensures var s := Select(w, r, targets, i, bs).0; Located(s) && s.stage == RouteStage
    decreases |targets| - i
  {
    if r.err.None? && i < |targets| {
      match targets[i]
      case Bound(b) => SelectLocates(w, r, targets, i + 1, bs + [b]);
      case Route(conditional, chosen, otherwise) =>
        var d := Do(w, r, Decide(i));
        DoLocates(w, r, Decide(i));
        SelectLocates(w, r, targets, i + 1, bs + chosen);
        SelectLocates(w, d, targets, i + 1, bs + if LastFlag(d) then chosen else otherwise);
    }
  }

  lemma {:induction false} PrepareLocates(w: World, r: Run, bindings: seq<Binding>, i: nat, done: seq<(Sink, Body)>)
    requires i <= |bindings| && Located(r) && r.stage == TransformStage
    ensures var p := Prepare(w, r, bindings, i, done).0; Located(p) && p.stage == TransformStage
    decreases |bindings| - i
  {
    if r.err.None? && i < |bindings| {
      var x := Do(w, r, Transform(i));
      DoLocates(w, r, Transform(i));
      PrepareLocates(w, r, bindings, i + 1, done + [(bindings[i].sink, r.out.result)]);
      PrepareLocates(w, x, bindings, i + 1, done + [(bindings[i].sink, LastBody(x))]);
    }
  }

  lemma {:induction false} SendLocates(w: World, r: Run, sink: Sink, body: Body, tries: nat)
    requires 0 < tries && Located(r) && r.stage == SinkStage
    ensures var s := SendToSink(w, r, sink, body, tries); Located(s) && s.stage == SinkStage
    decreases tries
  {
    var s := Do(w, r, Send(sink, body));
    DoLocates(w, r, Send(sink, body));
    if r.err.None? && s.err.Some? && s.err.value.Connector? && tries > 1 {
      var delay := RetryDelay(s.err.value.kind, s.err.value.retryDelay, sink.pollInterval);
      var b := Do(w, s.(err := None), Backoff(delay));
      DoLocates(w, s.(err := None), Backoff(delay));
      SendLocates(w, s.(err := None), sink, body, tries - 1);
      SendLocates(w, b.(err := None), sink, body, tries - 1);
    }
  }

  lemma {:induction false} SendAllLocates(w: World, m: Mode, r: Run, envelopes: seq<(Sink, Body)>)
    requires Located(r)
    ensures Located(SendAll(w, m, r, envelopes))
    decreases |envelopes|
  {
    if r.err.None? && envelopes != [] {
      var s := r.(stage := SinkStage);
      SendLocates(w, s, envelopes[0].0, envelopes[0].1, SEND_ATTEMPTS);
      DoLocates(w, s, Dispatch(envelopes[0].0, false));
      SendAllLocates(w, m, DispatchOne(w, m, s, envelopes[0].0, envelopes[0].1), envelopes[1..]);
    }
  }

  lemma SinksLocate(w: World, t: Task, m: Mode, r: Run)
    requires Located(r)
    ensures Located(RunSinks(w, t, m, r))
  {
    if !(r.err.Some? || r.out.result.None? || t.targets == []) {
      var s := RunRoute(w, t, r);
      RouteLocates(w, t, r);
      TransformLocates(w, s.0, s.1);
      var p := RunTransform(w, s.0, s.1);
      SendAllLocates(w, m, p.0, p.1);
    }
  }

  lemma RouteLocates(w: World, t: Task, r: Run)
    requires Located(r)
    ensures Located(RunRoute(w, t, r).0)
  {
    var e := Enter(w, r, RouteStage);
    EnterLocates(w, r, RouteStage);
    if e.err.None? {
      SelectLocates(w, e, t.targets, 0, []);
      var s := Select(w, e, t.targets, 0, []);
      LeaveLocates(w, s.0.(out := s.0.out.(selected := SinksOf(s.1))));
    }
  }

  lemma TransformLocates(w: World, r: Run, bindings: seq<Binding>)
    requires Located(r)
    ensures Located(RunTransform(w, r, bindings).0)
  {
    var e := Enter(w, r, TransformStage);
    EnterLocates(w, r, TransformStage);
    if e.err.None? {
      PrepareLocates(w, e, bindings, 0, []);
    }
    LeaveLocates(w, Prepare(w, e, bindings, 0, []).0);
  }

  lemma BeforeLocates(w: World, t: Task, r: Run)
    requires Located(r)
    ensures Located(RunBefore(w, t, r))
  {
    var e := Enter(w, r, BeforeStage);
    EnterLocates(w, r, BeforeStage);
    if e.err.None? {
      HooksLocate(w, e, BEFORE, 0, t.before);
    }
    LeaveLocates(w, Hooks(w, e, BEFORE, 0, t.before, false));
  }

  lemma HandlerLocates(w: World, r: Run)
    requires Located(r)
    ensures Located(RunHandler(w, r))
  {
    var e := Enter(w, r, HandlerStage);
    EnterLocates(w, r, HandlerStage);
    if e.err.None? {
      DoLocates(w, e, Handle);
      var h := Do(w, e, Handle);
      LeaveLocates(w, h.(out := h.out.(result := LastBody(h))));
    }
  }

  lemma AfterLocates(w: World, t: Task, r: Run)
    requires Located(r)
    ensures Located(RunAfter(w, t, r))
  {
    var e := Enter(w, r, AfterStage);
    EnterLocates(w, r, AfterStage);
    if e.err.None? {
      HooksLocate(w, e, AFTER_SUCCESS, 0, t.afterSuccess);
    }
    LeaveLocates(w, Hooks(w, e, AFTER_SUCCESS, 0, t.afterSuccess, false));
  }

  lemma AckLocates(w: World, m: Mode, r: Run)
    requires Located(r)
    ensures Located(RunAck(w, m, r))
  {
    if r.err.None? {
      var q := r.(out := r.out.(action := Some(ACK)));
      var a := Enter(w, q, AckStage);
      EnterLocates(w, q, AckStage);
      if a.err.None? {
        DoLocates(w, a, Ack);
        var b := if m.settles then Do(w, a, Ack) else a;
        LeaveLocates(w, b);
        DoLocates(w, Leave(w, b), Emit(SUCCEEDED));
      }
    }
  }

  /** Where the attempt raised, its stage is that of the call that raised. */
  lemma AttemptLocates(w: World, t: Task, m: Mode)
    ensures Located(Attempt(w, t, m))
  {
    var r := Run([], None, DeliveryStage, FRESH);
    DoLocates(w, r, Start);
    DoLocates(w, Do(w, r, Start), Emit(STARTED));
    BeforeLocates(w, t, Begin(w));
    HandlerLocates(w, RunBefore(w, t, Begin(w)));
    AfterLocates(w, t, RunHandler(w, RunBefore(w, t, Begin(w))));
    SinksLocate(w, t, m, RunAfter(w, t, RunHandler(w, RunBefore(w, t, Begin(w)))));
    AckLocates(w, m, UpToAck(w, t, m));
  }

  /** What an outcome says of its failure. */
  datatype Failure = Failure(completion: Completion, kind: Option<Retry.FailureKind>, stage: Option<Stage>)

  function FailureOf(out: Outcome): Failure { Failure(out.completion, out.failure, out.failureStage) }

  lemma GiveUpKeepsFailure(w: World, t: Task, m: Mode, r: Run)
    ensures FailureOf(GiveUp(w, t, m, r).out) == FailureOf(r.out)
  {
    if t.deadLetters == [] {
      ReportKeepsFailure(w, t, m, r.(out := r.out.(action := Some(FAIL))));
    } else {
      var q := r.(out := r.out.(action := Some(DEAD_LETTER)));
      var d := DeadAll(w, m, q, t.deadLetters, false);
      DeadAllQuiet(w, m, q, t.deadLetters, false);
      RefusedKeepsFailure(w, t, m, d.0);
      var published := if d.1 then Some(true) else None;
      var sent := d.0.(out := d.0.out.(deadLetterAttempted := d.1, deadLetterPublished := published));
      ReportKeepsFailure(w, t, m, Do(w, sent, Emit(DEAD_LETTERED)));
    }
  }

  lemma ReportKeepsFailure(w: World, t: Task, m: Mode, r: Run)
    ensures FailureOf(FailAndReport(w, t, m, r).out) == FailureOf(r.out)
  {
    FailDeliveryHeard(w, m, r);
  }

  lemma RefusedKeepsFailure(w: World, t: Task, m: Mode, r: Run)
    ensures FailureOf(WriteCapture(w, t, DeadLetterFailed(w, m, r)).out) == FailureOf(r.out)
  {
    var out := r.out.(deadLetterAttempted := true, deadLetterPublished := Some(false), action := Some(RETRY));
    ApplyRetryHeard(w, m, r.(err := None, out := out), None);
  }

  lemma HandleFailureKeepsFailure(w: World, t: Task, m: Mode, attempts: nat, r: Run, kind: Retry.FailureKind)
    ensures FailureOf(HandleFailure(w, t, m, attempts, r, kind).out) == Failure(Failed, Some(kind), Some(r.stage))
  {
    OnFailureKeeps(w, t, r, kind);
    var f := OnFailure(w, t, r, kind);
    if f.err.None? {
      match Retry.OnError(t.policy, attempts, kind, w.draw(f.log))
      case Retry(delay) => ApplyRetryHeard(w, m, f.(out := f.out.(action := Some(RETRY), retryDelay := delay)), delay);
      case Fail => GiveUpKeepsFailure(w, t, m, f);
    }
  }

  /** An outcome names what happened: success, if nothing raised up to the end of the
      acknowledgement; or else the kind of what was raised, cancellation, timeout or error,
      and the stage of the call that raised it. */
  lemma OutcomeNames(w: World, t: Task, m: Mode, attempts: nat)
    ensures var b, x := Attempt(w, t, m), Execute(w, t, m, attempts);
      match b.err
      case None => x == b && FailureOf(x.out) == Failure(Succeeded, None, None)
      case Some(e) =>
        && b.log != []
        && FailureOf(x.out) == Failure(
             if e.Cancelled? then CancelledRun else Failed,
             Some(if e.Cancelled? then Retry.CANCELLED else if e.TimedOut? then Retry.TIMEOUT else Retry.ERROR),
             Some(StageOf(b.log[|b.log| - 1].call)))
  {
    AttemptLocates(w, t, m);
    UpToAckKeeps(w, t, m);
    var b := Attempt(w, t, m);
    match b.err
    case None => AckNames(w, m, UpToAck(w, t, m));
    case Some(Cancelled) =>
    case Some(TimedOut) => HandleFailureKeepsFailure(w, t, m, attempts, b, Retry.TIMEOUT);
    case Some(_) => HandleFailureKeepsFailure(w, t, m, attempts, b, Retry.ERROR);
  }

  lemma AckNames(w: World, m: Mode, r: Run)
    requires r.out.failure.None? && r.out.failureStage.None? && RunAck(w, m, r).err.None?
    ensures FailureOf(RunAck(w, m, r).out) == Failure(Succeeded, None, None)
  {
  }

  /** Does the policy retry the failure? */
  ghost predicate PolicyRetries(p: Retry.Policy, kind: Retry.FailureKind, attempts: nat) {
    exists leaf :: Retry.InCharge(p, leaf, kind) && attempts + 1 < Retry.Allowed(leaf)
  }

  /** What follows the failure hooks. */
  ghost function EventsAfter(t: Task, m: Mode, attempts: nat, kind: Retry.FailureKind, out: Outcome): seq<Call> {
    if PolicyRetries(t.policy, kind, attempts) then RetriedBy(m, out.retryDelay)
    else if out.deadLetterPublished == Some(false) then RetriedBy(m, None)
    else GivingUp(t, m, out.terminal)
  }

  /** The course of an execution that returns.  If it succeeds: its start, the hooks before,
      the handler, the hooks after, routes and transforms if there is something to emit, the
      acknowledgement, and each stage between its checkpoints.  If it fails: a beginning of
      that, all failure hooks, the retry, or the dead letters and the rejection, as the policy
      decides, and a capture, if all failures are captured or this one is final. */
  lemma ReturnedTrace(w: World, t: Task, m: Mode, attempts: nat)
    requires Retry.Valid(t.policy) && Execute(w, t, m, attempts).err.None?
    ensures var x := Execute(w, t, m, attempts);
      if x.out.failure.None? then Trace(x.log) == FullCourse(t, m, Emitting(t, x.out.result))
      else exists body ::
        && body <= FullCourse(t, m, Emitting(t, Attempt(w, t, m).out.result))
        && Trace(x.log) == body + Hooked(FailureStage, ON_FAILURE, t.onFailure)
             + EventsAfter(t, m, attempts, x.out.failure.value, x.out) + CaptureOf(t, x.out.terminal)
  {
    OutcomeNames(w, t, m, attempts);
    BodyHeard(w, t, m);
    var b := Attempt(w, t, m);
    match b.err
    case None =>
    case Some(Cancelled) =>
    case Some(TimedOut) => FailedTrace(w, t, m, attempts, b, Retry.TIMEOUT);
    case Some(_) => FailedTrace(w, t, m, attempts, b, Retry.ERROR);
  }

  lemma FailedTrace(w: World, t: Task, m: Mode, attempts: nat, b: Run, kind: Retry.FailureKind)
    requires Retry.Valid(t.policy) && b == Attempt(w, t, m) && HandleFailure(w, t, m, attempts, b, kind).err.None?
    requires b.err.Some?
    ensures var x := HandleFailure(w, t, m, attempts, b, kind);
      Trace(x.log) == Trace(b.log) + Hooked(FailureStage, ON_FAILURE, t.onFailure)
        + EventsAfter(t, m, attempts, kind, x.out) + CaptureOf(t, x.out.terminal)
  {
    NotYetPublished(w, t, m);
    HandleFailureHeard(w, t, m, attempts, b, kind);
    FailureHooksRan(w, t, m, attempts, b, kind);
    var f := OnFailure(w, t, b, kind);
    Retry.DecisionIff(t.policy, attempts, kind, w.draw(f.log));
  }

  lemma FailureHooksRan(w: World, t: Task, m: Mode, attempts: nat, r: Run, kind: Retry.FailureKind)
    requires HandleFailure(w, t, m, attempts, r, kind).err.None?
    ensures OnFailure(w, t, r, kind).err.None?
  {
  }

  lemma NotYetPublished(w: World, t: Task, m: Mode)
    ensures Attempt(w, t, m).out.deadLetterPublished.None?
  {
    UpToAckKeeps(w, t, m);
  }

  /** Events and settlements are never refused. */
  ghost predicate QuietReports(w: World) {
    forall log, call: Call :: call.Emit? || call.Requeue? ==> w.reply(log, call).Answers?
  }

  /** After its cancellation an execution emits that, asks for a retry, emits this, and
      captures, if all failures are. */
  function Cancelling(t: Task, m: Mode): seq<Call> {
    [Emit(CANCELLED)] + (if m.settles then [Requeue(None)] else []) + [Emit(RETRIED)] + CaptureOf(t, false)
  }

  /** That is the end of a cancelled execution, after a beginning of its course. */
  lemma CancelledTrace(w: World, t: Task, m: Mode, attempts: nat)
    requires QuietReports(w) && Attempt(w, t, m).err == Some(Cancelled)
    ensures var x := Execute(w, t, m, attempts);
      && x.err == Some(Cancelled)
      && exists body :: body <= FullCourse(t, m, Emitting(t, Attempt(w, t, m).out.result)) && Trace(x.log) == body + Cancelling(t, m)
  {
    BodyHeard(w, t, m);
    CancelHeard(w, t, m, Attempt(w, t, m));
  }

  lemma CancelHeard(w: World, t: Task, m: Mode, r: Run)
    requires QuietReports(w)
    ensures var x := HandleCancelled(w, t, m, r);
      x.err == Some(Cancelled) && Trace(x.log) == Trace(r.log) + Cancelling(t, m)
  {
    var q := CancelledRecord(r);
    HandleCancelledIs(w, t, m, r);
    CancelReports(w, m, q);
    CancelEnds(w, t, m, q);
    CancelParts(Trace(r.log), t, m);
  }

  function CancelledRecord(r: Run): Run {
    r.(err := None, out := r.out.(failure := Some(Retry.CANCELLED), failureStage := Some(r.stage), action := Some(RETRY),
                                  completion := CancelledRun, terminal := false))
  }

  lemma HandleCancelledIs(w: World, t: Task, m: Mode, r: Run)
    ensures var x, e := HandleCancelled(w, t, m, r), WriteCapture(w, t, CancelReported(w, m, CancelledRecord(r)));
      x.log == e.log && (e.err.None? ==> x.err == Some(Cancelled)) && (e.err.Some? ==> x.err == e.err)
  {
  }

  lemma CancelParts(a: seq<Call>, t: Task, m: Mode)
    ensures a + [Emit(CANCELLED)] + (if m.settles then [Requeue(None)] else []) + [Emit(RETRIED)] + CaptureOf(t, false)
      == a + Cancelling(t, m)
  {
  }

  lemma CancelEnds(w: World, t: Task, m: Mode, q: Run)
    requires CancelReported(w, m, q).err.None? && !CancelReported(w, m, q).out.terminal
    ensures var e := CancelReported(w, m, q); Trace(WriteCapture(w, t, e).log) == Trace(e.log) + CaptureOf(t, false)
    ensures var c := WriteCapture(w, t, CancelReported(w, m, q)).err; c.Some? ==> c == Some(Cancelled)
  {
    CaptureHeard(w, t, CancelReported(w, m, q));
  }

  function CancelReported(w: World, m: Mode, q: Run): Run {
    var c := Do(w, q, Emit(CANCELLED));
    Do(w, if m.settles then Do(w, c, Requeue(None)) else c, Emit(RETRIED))
  }

  lemma CancelReports(w: World, m: Mode, q: Run)
    requires QuietReports(w) && q.err.None?
    ensures var e := CancelReported(w, m, q);
      && e.err.None? && e.out == q.out
      && Trace(e.log) == Trace(q.log) + [Emit(CANCELLED)] + (if m.settles then [Requeue(None)] else []) + [Emit(RETRIED)]
  {
    Loudly(w, q, Emit(CANCELLED));
    var c := Do(w, q, Emit(CANCELLED));
    Loudly(w, c, Requeue(None));
    var s := if m.settles then Do(w, c, Requeue(None)) else c;
    Loudly(w, s, Emit(RETRIED));
    assert Trace(c.log) + [] == Trace(c.log);
  }
}
