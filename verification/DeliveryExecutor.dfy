/** The delivery executor as the program runs it: a record filled in step by step, a log
    that grows with every external call, and loops over hooks, targets, sinks and tries.
    Each method leaves the state that the run functions of `Execution` describe. */
module DeliveryExecutor {
  import opened Wrappers
  import opened Execution
  import Retry

  class Executor {
    const task: Task
    const mode: Mode
    var world: World
    var log: Log
    var stage: Stage
    var out: Outcome

    constructor (task: Task, mode: Mode, world: World)
      ensures this.task == task && this.mode == mode && this.world == world
    {
      this.task, this.mode, this.world := task, mode, world;
      log, stage, out := [], DeliveryStage, FRESH;
    }

    /** The state as a run, with the exception being raised. */
    function Now(err: Option<Exc>): Run
      reads this
    {
      Run(log, err, stage, out)
    }

    /** An external call: its answer, or the exception it raises. */
    method Request(call: Call) returns (err: Option<Exc>, body: Body, flag: bool)
      modifies this`log
      ensures Now(err) == Do(world, old(Now(None)), call)
      ensures body == LastBody(Now(err)) && flag == LastFlag(Now(err))
    {
      var reply := world.reply(log, call);
      log := log + [Entry(call, reply)];
      match reply
      case Raises(exc) => err, body, flag := Some(exc), None, false;
      case Answers(b, f) => err, body, flag := None, b, f;
    }

    method Perform(call: Call) returns (err: Option<Exc>)
      modifies this`log
      ensures Now(err) == Do(world, old(Now(None)), call)
    {
      var body, flag;
      err, body, flag := Request(call);
    }

    /** The call, unless an exception is already on its way. */
    method Unless(raised: Option<Exc>, call: Call) returns (err: Option<Exc>)
      modifies this`log
      ensures Now(err) == Do(world, old(Now(raised)), call)
    {
      if raised.Some? {
        err := raised;
      } else {
        err := Perform(call);
      }
    }

    method RunHooks(kind: HookKind, n: nat, suppress: bool) returns (err: Option<Exc>)
      modifies this`log
      ensures Now(err) == Hooks(world, old(Now(None)), kind, 0, n, suppress)
    {
      var i := 0;
      while i < n
        invariant 0 <= i <= n
        invariant Hooks(world, Now(None), kind, i, n, suppress) == Hooks(world, old(Now(None)), kind, 0, n, suppress)
      {
        err := Perform(Hook(kind, i));
        if err.Some? && !(suppress && err.value != Cancelled) {
          return;
        }
        i := i + 1;
      }
      err := None;
    }

    method SelectEmitBindings() returns (err: Option<Exc>, bindings: seq<Binding>)
      modifies this`log
      ensures var s := Select(world, old(Now(None)), task.targets, 0, []);
        Now(err) == s.0 && (err.None? ==> bindings == s.1)
    {
      bindings := [];
      var i := 0;
      while i < |task.targets|
        invariant 0 <= i <= |task.targets|
        invariant Select(world, Now(None), task.targets, i, bindings)
          == Select(world, old(Now(None)), task.targets, 0, [])
      {
        match task.targets[i] {
          case Bound(b) => bindings := bindings + [b];
          case Route(conditional, chosen, otherwise) =>
            if !conditional {
              bindings := bindings + chosen;
            } else {
              var body, held;
              err, body, held := Request(Decide(i));
              bindings := bindings + if held then chosen else otherwise;
              if err.Some? {
                return;
              }
            }
        }
        i := i + 1;
      }
      err := None;
    }

    method PrepareEmitEnvelopes(bindings: seq<Binding>) returns (err: Option<Exc>, prepared: seq<(Sink, Body)>)
      modifies this`log
      ensures var p := Prepare(world, old(Now(None)), bindings, 0, []);
        Now(err) == p.0 && (err.None? ==> prepared == p.1)
    {
      prepared := [];
      var i := 0;
      while i < |bindings|
        invariant 0 <= i <= |bindings|
        invariant Prepare(world, Now(None), bindings, i, prepared) == Prepare(world, old(Now(None)), bindings, 0, [])
      {
        var body := out.result;
        if bindings[i].transformed {
          var flag;
          err, body, flag := Request(Transform(i));
          if err.Some? {
            assert Prepare(world, Now(err), bindings, i + 1, prepared + [(bindings[i].sink, body)]).0 == Now(err);
            return;
          }
        }
        prepared := prepared + [(bindings[i].sink, body)];
        i := i + 1;
      }
      err := None;
    }

    method SendToSink(sink: Sink, body: Body) returns (err: Option<Exc>)
      modifies this`log
      ensures Now(err) == Execution.SendToSink(world, old(Now(None)), sink, body, SEND_ATTEMPTS)
    {
      var tries := SEND_ATTEMPTS;
      while true
        invariant 0 < tries
        invariant Execution.SendToSink(world, Now(None), sink, body, tries)
          == Execution.SendToSink(world, old(Now(None)), sink, body, SEND_ATTEMPTS)
        decreases tries
      {
        err := Perform(Send(sink, body));
        if err.None? || !err.value.Connector? || !Retryable(err.value.kind) || tries == 1 {
          return;
        }
        var delay := RetryDelay(err.value.kind, err.value.retryDelay, sink.pollInterval);
        if delay > 0.0 && !world.stopping(log) {
          var waited := Perform(Backoff(delay));
          if waited != Some(TimedOut) {
            err := if waited.Some? then waited else err;
            return;
          }
        }
        tries := tries - 1;
      }
    }

    method DispatchSink(sink: Sink, body: Body) returns (err: Option<Exc>)
      modifies this`log
      ensures Now(err) == DispatchOne(world, mode, old(Now(None)), sink, body)
    {
      if mode.production {
        err := SendToSink(sink, body);
      } else {
        err := Perform(Dispatch(sink, false));
      }
    }

    method SendPrepared(prepared: seq<(Sink, Body)>) returns (err: Option<Exc>)
      modifies this`log, this`stage
      ensures Now(err) == SendAll(world, mode, old(Now(None)), prepared)
    {
      var i := 0;
      while i < |prepared|
        invariant 0 <= i <= |prepared| && out == old(out) && world == old(world)
        invariant SendAll(world, mode, Now(None), prepared[i..]) == SendAll(world, mode, old(Now(None)), prepared)
      {
        ghost var rest := prepared[i..];
        stage := SinkStage;
        err := DispatchSink(prepared[i].0, prepared[i].1);
        assert rest[1..] == prepared[i + 1..];
        if err.Some? {
          return;
        }
        i := i + 1;
      }
      err := None;
    }

    /** Marks a stage as active and reports it entered. */
    method EnterStage(s: Stage) returns (err: Option<Exc>)
      modifies this`log, this`stage
      ensures Now(err) == Enter(world, old(Now(None)), s)
    {
      stage := s;
      err := Perform(Checkpoint(s, false));
    }

    method RunPrelude() returns (err: Option<Exc>)
      requires log == [] && stage == DeliveryStage && out == FRESH
      modifies this`log, this`stage, this`out
      ensures Now(err) == RunAfter(world, task, RunHandler(world, RunBefore(world, task, Begin(world))))
    {
      err := Perform(Start);
      err := Unless(err, Emit(STARTED));
      assert Now(err) == Begin(world);
      if err.None? {
        err := EnterStage(BeforeStage);
        if err.None? {
          err := RunHooks(BEFORE, task.before, false);
        }
        err := Unless(err, Checkpoint(BeforeStage, true));
      }
      if err.None? {
        err := InvokeHandler();
      }
      if err.None? {
        err := EnterStage(AfterStage);
        if err.None? {
          err := RunHooks(AFTER_SUCCESS, task.afterSuccess, false);
        }
        err := Unless(err, Checkpoint(AfterStage, true));
      }
    }

    method InvokeHandler() returns (err: Option<Exc>)
      modifies this`log, this`stage, this`out
      ensures Now(err) == RunHandler(world, old(Now(None)))
    {
      err := EnterStage(HandlerStage);
      if err.None? {
        var result, flag;
        err, result, flag := Request(Handle);
        if err.None? {
          out := out.(result := result);
          err := Perform(Checkpoint(HandlerStage, true));
        }
      }
    }

    method RouteAndSend() returns (err: Option<Exc>)
      modifies this`log, this`stage, this`out
      ensures Now(err) == RunSinks(world, task, mode, old(Now(None)))
    {
      if out.result.None? || task.targets == [] {
        return None;
      }
      var bindings, prepared;
      err, bindings := Route();
      if err.None? {
        err, prepared := PrepareStage(bindings);
        if err.None? {
          err := SendPrepared(prepared);
        }
      }
    }

    method Route() returns (err: Option<Exc>, bindings: seq<Binding>)
      modifies this`log, this`stage, this`out
      ensures var s := RunRoute(world, task, old(Now(None)));
        Now(err) == s.0 && (err.None? ==> bindings == s.1)
    {
      bindings := [];
      err := EnterStage(RouteStage);
      if err.None? {
        err, bindings := SelectEmitBindings();
        if err.None? {
          out := out.(selected := SinksOf(bindings));
          err := Perform(Checkpoint(RouteStage, true));
        }
      }
    }

    method PrepareStage(bindings: seq<Binding>) returns (err: Option<Exc>, prepared: seq<(Sink, Body)>)
      modifies this`log, this`stage
      ensures var p := RunTransform(world, old(Now(None)), bindings);
        Now(err) == p.0 && (err.None? ==> prepared == p.1)
    {
      prepared := [];
      err := EnterStage(TransformStage);
      if err.None? {
        err, prepared := PrepareEmitEnvelopes(bindings);
      }
      err := Unless(err, Checkpoint(TransformStage, true));
    }

    method Acknowledge() returns (err: Option<Exc>)
      modifies this`log, this`stage, this`out
      ensures Now(err) == RunAck(world, mode, old(Now(None)))
    {
      out := out.(action := Some(ACK));
      err := EnterStage(AckStage);
      if mode.settles {
        err := Unless(err, Ack);
      }
      err := Unless(err, Checkpoint(AckStage, true));
      err := Unless(err, Emit(SUCCEEDED));
      if err.None? {
        out := out.(completion := Succeeded, terminal := true);
      }
    }

    method ApplyRetry(delay: Option<real>) returns (err: Option<Exc>)
      modifies this`log
      ensures Now(err) == Execution.ApplyRetry(world, mode, old(Now(None)), delay)
    {
      err := Perform(Checkpoint(DeliveryStage, false));
      if mode.settles {
        err := Unless(err, Requeue(delay));
      }
      err := Unless(err, Checkpoint(DeliveryStage, true));
    }

    method CaptureFailure() returns (err: Option<Exc>)
      modifies this`log
      ensures Now(err) == WriteCapture(world, task, old(Now(None)))
    {
      err := None;
      if !task.capture.Off? && !(task.capture.Terminal? && !out.terminal) {
        err := Perform(Record);
        if err != Some(Cancelled) {
          err := None;
        }
      }
    }

    method FailDelivery() returns (err: Option<Exc>, failed: bool)
      modifies this`log
      ensures var f := Execution.FailDelivery(world, mode, old(Now(None))); Now(err) == f.0 && failed == f.1
    {
      err, failed := None, true;
      if mode.settles {
        err := Perform(Checkpoint(DeliveryStage, false));
        if err.None? {
          err := Perform(Reject);
          if err.Some? && err.value != Cancelled {
            failed := false;
            err := Perform(Requeue(None));
          }
        }
        err := Unless(err, Checkpoint(DeliveryStage, true));
      }
    }

    method FailAndReport() returns (err: Option<Exc>)
      modifies this`log, this`out
      ensures Now(err) == Execution.FailAndReport(world, task, mode, old(Now(None)))
    {
      var failed;
      err, failed := FailDelivery();
      if err.None? {
        out := out.(terminal := failed, action := if failed then out.action else Some(RETRY));
        err := Perform(Emit(FAILED));
        if err.None? {
          err := CaptureFailure();
        }
      }
    }

    /** Sends to the dead-letter sinks in order. */
    method SendDeadLetters() returns (err: Option<Exc>, sent: bool)
      modifies this`log
      ensures var d := DeadAll(world, mode, old(Now(None)), task.deadLetters, false);
        Now(err) == d.0 && (err.None? ==> sent == d.1)
    {
      sent := false;
      var i := 0;
      while i < |task.deadLetters|
        invariant 0 <= i <= |task.deadLetters|
        invariant DeadAll(world, mode, Now(None), task.deadLetters[i..], sent)
          == DeadAll(world, mode, old(Now(None)), task.deadLetters, false)
      {
        ghost var rest := task.deadLetters[i..];
        var call := if mode.production then SendDead(task.deadLetters[i]) else Dispatch(task.deadLetters[i], true);
        var body, flag;
        err, body, flag := Request(call);
        assert rest[1..] == task.deadLetters[i + 1..];
        if err.Some? {
          return;
        }
        sent := sent || mode.production || flag;
        i := i + 1;
      }
      err := None;
    }

    /** `_publish_dead_letter`: whether to go on and fail the delivery. */
    method PublishDeadLetter() returns (err: Option<Exc>, published: bool)
      modifies this`log, this`out
      ensures var d := DeadAll(world, mode, old(Now(None)), task.deadLetters, false);
        if d.0.err.Some? && d.0.err.value != Cancelled then !published && Now(err) == DeadLetterFailed(world, mode, d.0)
        else if d.0.err.Some? then Now(err) == d.0
        else
          && published
          && Now(err) == Do(world, d.0.(out := d.0.out.(deadLetterAttempted := d.1,
                                        deadLetterPublished := if d.1 then Some(true) else None)), Emit(DEAD_LETTERED))
    {
      var sent;
      err, sent := SendDeadLetters();
      published := err.None?;
      if err.Some? && err.value != Cancelled {
        out := out.(deadLetterAttempted := true, deadLetterPublished := Some(false), action := Some(RETRY));
        err := ApplyRetry(None);
        err := Unless(err, Emit(RETRIED));
      } else if err.None? {
        out := out.(deadLetterAttempted := sent, deadLetterPublished := if sent then Some(true) else None);
        err := Perform(Emit(DEAD_LETTERED));
      }
    }

    method GiveUp() returns (err: Option<Exc>)
      modifies this`log, this`out
      ensures Now(err) == Execution.GiveUp(world, task, mode, old(Now(None)))
    {
      if task.deadLetters == [] {
        out := out.(action := Some(FAIL));
        err := FailAndReport();
      } else {
        out := out.(action := Some(DEAD_LETTER));
        var published;
        err, published := PublishDeadLetter();
        if err.Some? {
          return;
        }
        if published {
          err := FailAndReport();
        } else {
          err := CaptureFailure();
        }
      }
    }

    method HandleFailure(kind: Retry.FailureKind, attempts: nat) returns (err: Option<Exc>)
      modifies this`log, this`out
      ensures Now(err) == Execution.HandleFailure(world, task, mode, attempts, old(Now(None)), kind)
    {
      err := ReportFailure(kind);
      if err.Some? {
        return;
      }
      match Retry.OnError(task.policy, attempts, kind, world.draw(log)) {
        case Retry(delay) =>
          out := out.(action := Some(RETRY), retryDelay := delay);
          err := ApplyRetry(delay);
          err := Unless(err, Emit(RETRIED));
          if err.None? {
            err := CaptureFailure();
          }
        case Fail =>
          err := GiveUp();
      }
    }

    method ReportFailure(kind: Retry.FailureKind) returns (err: Option<Exc>)
      modifies this`log, this`out
      ensures Now(err) == OnFailure(world, task, old(Now(None)), kind)
    {
      out := out.(failure := Some(kind), failureStage := Some(stage), completion := Failed);
      err := Perform(Checkpoint(FailureStage, false));
      if err.None? {
        err := RunHooks(ON_FAILURE, task.onFailure, true);
      }
      err := Unless(err, Checkpoint(FailureStage, true));
    }

    method HandleCancelled() returns (err: Option<Exc>)
      modifies this`log, this`out
      ensures Now(err) == Execution.HandleCancelled(world, task, mode, old(Now(None)))
    {
      out := out.(failure := Some(Retry.CANCELLED), failureStage := Some(stage), action := Some(RETRY),
                  completion := CancelledRun, terminal := false);
      err := Perform(Emit(CANCELLED));
      if mode.settles {
        err := Unless(err, Requeue(None));
      }
      err := Unless(err, Emit(RETRIED));
      if err.None? {
        err := CaptureFailure();
      }
      if err.None? {
        err := Some(Cancelled);
      }
    }

    method RunBody() returns (err: Option<Exc>)
      requires log == [] && stage == DeliveryStage && out == FRESH
      modifies this`log, this`stage, this`out
      ensures Now(err) == RunAck(world, mode, UpToAck(world, task, mode))
    {
      err := RunPrelude();
      if err.None? {
        err := RouteAndSend();
      }
      if err.None? {
        err := Acknowledge();
      }
    }

    /** The exception handlers of `execute`. */
    method Recover(exc: Exc, attempts: nat) returns (err: Option<Exc>)
      modifies this`log, this`out
      ensures Now(err) == Finish(world, task, mode, attempts, old(Now(Some(exc))))
    {
      match exc {
        case Cancelled => err := HandleCancelled();
        case TimedOut => err := HandleFailure(Retry.TIMEOUT, attempts);
        case _ => err := HandleFailure(Retry.ERROR, attempts);
      }
    }

    /** `execute`: fills in a fresh outcome; `err` is what leaves the method, if anything. */
    method Execute(w: World, attempts: nat) returns (err: Option<Exc>)
      modifies this
      ensures world == w && Now(err) == Execution.Execute(w, task, mode, attempts)
    {
      world, log, stage, out := w, [], DeliveryStage, FRESH;
      err := RunBody();
      if err.Some? {
        err := Recover(err.value, attempts);
      }
    }
  }
}
