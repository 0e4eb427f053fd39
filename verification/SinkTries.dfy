/** The one or two tries of a send. */
module SinkTries {
  import opened Wrappers
  import opened Execution

  /** Is a send that was answered so tried again?  Only after a connector error, and none of
      misconfiguration, of a permanent kind, or of unknown effect. */
  predicate Again(reply: Reply) {
    reply.Raises? && reply.exc.Connector? && reply.exc.kind !in {Misconfigured, Permanent, Uncertain}
  }

  /** How long the second try waits: as the error says, or the sink's interval, and at least
      a second where it throttles; never less than nothing. */
  function Wait(reply: Reply, sink: Sink): (d: real)
    requires Again(reply)
    ensures d >= 0.0
  {
    match reply.exc.retryDelay
    case Some(d) => if d < 0.0 then 0.0 else d
    case None =>
      var least := if reply.exc.kind == Throttled then 1.0 else 0.0;
      if sink.pollInterval < least then least else sink.pollInterval
  }

  function Asked(w: World, log: Log, call: Call): Entry { Entry(call, w.reply(log, call)) }

  /** The calls of a send to a sink, with their answers. */
  function Tries(w: World, log: Log, sink: Sink, body: Body): Log {
    var first := Asked(w, log, Send(sink, body));
    var log1 := log + [first];
    if !Again(first.reply) then [first]
    else if Wait(first.reply, sink) == 0.0 || w.stopping(log1) then [first, Asked(w, log1, Send(sink, body))]
    else
      var pause := Asked(w, log1, Backoff(Wait(first.reply, sink)));
      if pause.reply == Raises(TimedOut) then [first, pause, Asked(w, log1 + [pause], Send(sink, body))]
      else [first, pause]
  }

  lemma LastTry(w: World, r: Run, sink: Sink, body: Body)
    requires r.err.None?
    ensures SendToSink(w, r, sink, body, 1) == Do(w, r, Send(sink, body))
  {
  }

  lemma KindRetryable(kind: ConnectorErrorKind)
    ensures Retryable(kind) <==> kind !in {Misconfigured, Permanent, Uncertain}
  {
    match kind {
      case Disconnected =>
      case Transient =>
      case Throttled =>
      case Misconfigured =>
      case Permanent =>
      case Uncertain =>
    }
  }

  lemma WaitIsDelay(reply: Reply, sink: Sink)
    requires Again(reply)
    ensures Retryable(reply.exc.kind) && RetryDelay(reply.exc.kind, reply.exc.retryDelay, sink.pollInterval) == Wait(reply, sink)
  {
    KindRetryable(reply.exc.kind);
  }

  lemma AgainIff(reply: Reply)
    ensures Again(reply) <==> reply.Raises? && reply.exc.Connector? && Retryable(reply.exc.kind)
  {
    if reply.Raises? && reply.exc.Connector? {
      KindRetryable(reply.exc.kind);
    }
  }

  /** A send makes just these calls, and raises what the last of them does, or, where the
      shutdown ends its wait, what its first did. */
  lemma SendTries(w: World, r: Run, sink: Sink, body: Body)
    requires r.err.None?
    ensures var s := SendToSink(w, r, sink, body, SEND_ATTEMPTS); var tries := Tries(w, r.log, sink, body);
      && s.log == r.log + tries && s.out == r.out
      && var last := tries[|tries| - 1];
         s.err == if last.reply.Raises? then Some(last.reply.exc)
                  else if last.call.Backoff? then Some(tries[0].reply.exc) else None
  {
    var s := Do(w, r, Send(sink, body));
    var first := Asked(w, r.log, Send(sink, body));
    AgainIff(first.reply);
    assert s.log == r.log + [first];
    if Again(first.reply) {
      WaitIsDelay(first.reply, sink);
      var again := s.(err := None);
      LastTry(w, again, sink, body);
      if Wait(first.reply, sink) == 0.0 || w.stopping(s.log) {
        assert r.log + [first] + [Asked(w, s.log, Send(sink, body))] == r.log + [first, Asked(w, s.log, Send(sink, body))];
      } else {
        var pause := Asked(w, s.log, Backoff(Wait(first.reply, sink)));
        var b := Do(w, again, Backoff(Wait(first.reply, sink)));
        assert b.log == r.log + [first] + [pause] && r.log + [first] + [pause] == r.log + [first, pause];
        LastTry(w, b.(err := None), sink, body);
        var second := Asked(w, b.log, Send(sink, body));
        assert r.log + [first] + [pause] + [second] == r.log + [first, pause, second];
      }
    }
  }
}
