/** What a manual run reports, told from the logs of its executions. */
module ManualResults {
  import opened Wrappers
  import opened Execution
  import opened Settlement
  import opened ManualRun
  import Retry

  predicate Acked(x: Run) { exists i :: 0 <= i < |x.log| && x.log[i].call.Ack? && x.log[i].reply.Answers? }

  predicate AskedBack(x: Run) { exists i :: 0 <= i < |x.log| && x.log[i].call.Requeue? && x.log[i].reply.Answers? }

  predicate Rejected(x: Run) { exists i :: 0 <= i < |x.log| && x.log[i].call.Reject? && x.log[i].reply.Answers? }

  /** The execution returned, asked for a retry, and did not acknowledge. */
  predicate OnlyRetried(x: Run) { x.err.None? && AskedBack(x) && !Acked(x) }

  lemma {:induction false} SettlementsTell(log: Log, call: Call)
    ensures call in Settlements(log) <==> IsSettling(call) && exists i :: 0 <= i < |log| && log[i].call == call && log[i].reply.Answers?
  {
    if log != [] {
      var n := |log| - 1;
      SettlementsTell(log[..n], call);
      if call in Settlements(log[..n]) {
        var i :| 0 <= i < n && log[..n][i].call == call && log[..n][i].reply.Answers?;
        assert log[i].call == call;
      }
      if i :| 0 <= i < |log| && log[i].call == call && log[i].reply.Answers? && i < n {
        assert log[..n][i].call == call && log[..n][i].reply.Answers?;
      }
    }
  }

  /** Of an execution that returned, the settlements are told by these three. */
  lemma SettledOne(x: Run, a: Call)
    requires Settlements(x.log) == [a]
    ensures Acked(x) == a.Ack? && AskedBack(x) == a.Requeue? && Rejected(x) == a.Reject?
  {
    SettlementsTell(x.log, a);
    assert a in Settlements(x.log);
    OnlyThese(x, [a]);
  }

  lemma SettledTwo(x: Run, a: Call)
    requires Settlements(x.log) == [Ack, a]
    ensures Acked(x)
  {
    SettlementsTell(x.log, Ack);
    assert Ack in Settlements(x.log);
  }

  lemma OnlyThese(x: Run, calls: seq<Call>)
    requires Settlements(x.log) == calls
    ensures forall i :: 0 <= i < |x.log| && x.log[i].reply.Answers? && IsSettling(x.log[i].call) ==> x.log[i].call in calls
  {
    forall i | 0 <= i < |x.log| && x.log[i].reply.Answers? && IsSettling(x.log[i].call) ensures x.log[i].call in calls {
      SettlementsTell(x.log, x.log[i].call);
    }
  }

  lemma RetriedTells(x: Run)
    requires Settled(x)
    ensures Retried(x) <==> OnlyRetried(x)
  {
    if x.err.None? {
      var last := SettlementOf(x.out).value;
      if Settlements(x.log) == [last] {
        SettledOne(x, last);
      } else {
        SettledTwo(x, last);
      }
    }
  }

  /** How the run stands after an execution, as its log tells. */
  lemma AfterTells(x: Run, n: nat)
    requires Settled(x)
    ensures var p := ManualRun.After(x, UNSETTLED.(attempts := n), n + 1);
      && (p.Going? <==> OnlyRetried(x))
      && (p == Stopped(Complete(n + 1)) <==> x.err.None? && Acked(x))
      && (p == Stopped(Exhausted(n + 1)) <==> x.err.None? && Rejected(x) && !Acked(x) && !AskedBack(x))
      && forall e :: p == Stopped(Escaped(e, n + 1)) <==> x.err == Some(e)
  {
    AfterGoesOn(x, n);
    RetriedTells(x);
    if x.err.None? {
      var last := SettlementOf(x.out).value;
      if Settlements(x.log) == [last] {
        SettledOne(x, last);
        SettleOne(UNSETTLED.(attempts := n), last);
      } else {
        SettledTwo(x, last);
        SettleTwo(UNSETTLED.(attempts := n), Ack, last);
      }
    }
  }

  // ------------------------------------------------------------------ whole runs

  /** The first `n` executions, each on a delivery retried as often as there were executions
      before it, returned, asked for a retry, and did not acknowledge. */
  predicate AllRetried(exec: Executions, n: nat) {
    forall i: nat :: i < n ==> OnlyRetried(exec(i, i))
  }

  lemma AllRetriedStep(exec: Executions, n: nat)
    ensures AllRetried(exec, n + 1) <==> AllRetried(exec, n) && OnlyRetried(exec(n, n))
  {
  }

  lemma {:induction false} GoingIff(exec: Executions, n: nat)
    requires forall i: nat :: Settled(exec(i, i))
    ensures Loop(exec, n).Going? <==> AllRetried(exec, n)
  {
    if n > 0 {
      GoingIff(exec, n - 1);
      LoopCounts(exec, n - 1);
      AfterTells(exec(n - 1, n - 1), n - 1);
      AllRetriedStep(exec, n - 1);
    }
  }

  /** The last execution decides the result. */
  predicate Decides(x: Run, result: Result) {
    match result
    case Complete(_) => x.err.None? && Acked(x)
    case Exhausted(_) => x.err.None? && Rejected(x) && !Acked(x) && !AskedBack(x)
    case Escaped(e, _) => x.err == Some(e)
    case Undecided(_) => false
  }

  /** The result, told by the logs: all executions but the last asked for a retry, and the
      last one decides. */
  predicate Reports(exec: Executions, result: Result) {
    result.count >= 1 && AllRetried(exec, result.count - 1) && Decides(exec(result.count - 1, result.count - 1), result)
  }

  lemma LoopStopsIff(exec: Executions, n: nat, result: Result)
    requires (forall i: nat :: Settled(exec(i, i))) && result.count == n + 1
    ensures Loop(exec, n + 1) == Stopped(result) <==> AllRetried(exec, n) && Decides(exec(n, n), result)
  {
    GoingIff(exec, n);
    LoopCounts(exec, n);
    AfterGoesOn(exec(n, n), n);
    AfterTells(exec(n, n), n);
  }

  /** A manual run stops with a result if and only if the logs of its executions report it:
      complete, if the last one acknowledged; exhausted, if it rejected and did nothing
      else; and with an exception, if it raised that one. */
  lemma StopsWithIff(worlds: Worlds, t: Task, result: Result)
    ensures result.count >= 1 && RunFor(worlds, t, result.count) == Stopped(result)
      <==> Reports(Runs(worlds, t), result)
  {
    RunsSettle(worlds, t);
    LoopStops(Runs(worlds, t), result);
  }

  lemma LoopStops(exec: Executions, result: Result)
    requires forall i: nat :: Settled(exec(i, i))
    ensures result.count >= 1 && Loop(exec, result.count) == Stopped(result) <==> Reports(exec, result)
  {
    if result.count >= 1 {
      LoopStopsIff(exec, result.count - 1, result);
    }
  }

  // --------------------------------------------------- a handler that always fails

  /** The handler always raises `exc`; every other call is answered. */
  ghost predicate FailsWith(w: World, exc: Exc) {
    forall log, call: Call :: if call.Handle? then w.reply(log, call) == Raises(exc) else w.reply(log, call).Answers?
  }

  function KindOf(exc: Exc): Retry.FailureKind { if exc.TimedOut? then Retry.TIMEOUT else Retry.ERROR }

  lemma FailingHooks(w: World, exc: Exc, r: Run, kind: HookKind, i: nat, n: nat)
    requires FailsWith(w, exc) && r.err.None?
    ensures Hooks(w, r, kind, i, n, false).err.None?
    decreases n - i
  {
    if i < n {
      FailingHooks(w, exc, Do(w, r, Hook(kind, i)), kind, i + 1, n);
    }
  }

  lemma FailingBody(w: World, t: Task, exc: Exc)
    requires FailsWith(w, exc)
    ensures Attempt(w, t, PRODUCTION).err == Some(exc) && !RaisedAfterAck(w, t)
  {
    var a := Begin(w);
    var e := Enter(w, a, BeforeStage);
    assert e.err.None?;
    FailingHooks(w, exc, e, BEFORE, 0, t.before);
    var b := RunBefore(w, t, a);
    assert b.err.None?;
    var c := RunHandler(w, b);
    assert c.err == Some(exc);
    FailedStays(w, t, c);
    var r := UpToAckSettles(w, t);
  }

  lemma FailingIsCalm(w: World, exc: Exc)
    requires FailsWith(w, exc) && exc != Cancelled
    ensures Calm(w)
  {
  }

  /** One execution of it returns, with a retry or a rejection as the policy says. */
  lemma FailingExecution(w: World, t: Task, exc: Exc, attempts: nat)
    requires FailsWith(w, exc) && exc != Cancelled && t.deadLetters == [] && Retry.Valid(t.policy)
    ensures var x := Execute(w, t, PRODUCTION, attempts);
      && x.err.None?
      && (OnlyRetried(x) <==> exists leaf :: Retry.InCharge(t.policy, leaf, KindOf(exc)) && attempts + 1 < Retry.Allowed(leaf))
      && (!OnlyRetried(x) ==> Rejected(x) && !Acked(x) && !AskedBack(x))
  {
    FailingBody(w, t, exc);
    FailingIsCalm(w, exc);
    var b := Attempt(w, t, PRODUCTION);
    HandleFailureCalm(w, t, PRODUCTION, attempts, b, KindOf(exc));
    ExecuteFails(w, t, exc, attempts, b);
    ExecuteSettles(w, t, attempts);
    FailingAction(w, t, exc, attempts, b, KindOf(exc));
    ActionTells(Execute(w, t, PRODUCTION, attempts));
  }

  lemma ExecuteFails(w: World, t: Task, exc: Exc, attempts: nat, b: Run)
    requires b == Attempt(w, t, PRODUCTION) && b.err == Some(exc) && exc != Cancelled
    ensures Execute(w, t, PRODUCTION, attempts) == HandleFailure(w, t, PRODUCTION, attempts, b, KindOf(exc))
  {
  }

  lemma ActionTells(x: Run)
    requires x.err.None? && SettlementOf(x.out).Some? && Settlements(x.log) == [] + [SettlementOf(x.out).value]
    ensures x.out.action == Some(RETRY) ==> OnlyRetried(x)
    ensures x.out.action == Some(FAIL) ==> !OnlyRetried(x) && Rejected(x) && !Acked(x) && !AskedBack(x)
  {
    var last := SettlementOf(x.out).value;
    assert [] + [last] == [last];
    SettledOne(x, last);
  }

  lemma FailingAction(w: World, t: Task, exc: Exc, attempts: nat, r: Run, kind: Retry.FailureKind)
    requires FailsWith(w, exc) && exc != Cancelled && t.deadLetters == [] && Retry.Valid(t.policy)
    ensures var x := HandleFailure(w, t, PRODUCTION, attempts, r, kind);
      x.err.None? ==>
        if exists leaf :: Retry.InCharge(t.policy, leaf, kind) && attempts + 1 < Retry.Allowed(leaf)
        then x.out.action == Some(RETRY) else x.out.action == Some(FAIL)
  {
    var f := OnFailure(w, t, r, kind);
    if f.err.None? {
      var u := w.draw(f.log);
      Retry.DecisionIff(t.policy, attempts, kind, u);
      match Retry.OnError(t.policy, attempts, kind, u)
      case Retry(delay) =>
      case Fail => FailingReport(w, t, exc, f.(out := f.out.(action := Some(FAIL))));
    }
  }

  lemma FailingReport(w: World, t: Task, exc: Exc, r: Run)
    requires FailsWith(w, exc)
    ensures FailAndReport(w, t, PRODUCTION, r).err.None? ==> FailAndReport(w, t, PRODUCTION, r).out.action == r.out.action
  {
    var c := Do(w, r, Checkpoint(DeliveryStage, false));
    assert w.reply(c.log, Reject).Answers?;
  }

  /** The leaf in charge of the failure allows `n` attempts; without one there is one. */
  ghost predicate AttemptsFor(p: Retry.Policy, kind: Retry.FailureKind, n: nat) {
    if exists leaf :: Retry.InCharge(p, leaf, kind) then
      exists leaf :: Retry.InCharge(p, leaf, kind) && n == Retry.Allowed(leaf)
    else n == 1
  }

  /** A task that always fails, and has no dead-letter sinks, is executed exactly as often as
      the leaf in charge of its failure allows, and then reported as exhausted. */
  lemma FailingRunExact(worlds: Worlds, t: Task, exc: Exc, n: nat)
    requires (forall i :: FailsWith(worlds(i), exc)) && exc != Cancelled
    requires t.deadLetters == [] && Retry.Valid(t.policy) && AttemptsFor(t.policy, KindOf(exc), n)
    ensures n >= 1 && RunFor(worlds, t, n) == Stopped(Exhausted(n))
  {
    AllowsOne(t.policy, KindOf(exc), n);
    forall i: nat ensures FailsAs(Runs(worlds, t)(i, i), i + 1 < n) {
      FailingExecution(worlds(i), t, exc, i);
      AllowedIsExact(t.policy, KindOf(exc), n, i);
    }
    FailingReports(Runs(worlds, t), n);
    StopsWithIff(worlds, t, Exhausted(n));
  }

  /** The execution returned, with a retry or else with a rejection. */
  predicate FailsAs(x: Run, again: bool) {
    && x.err.None? && (again <==> OnlyRetried(x))
    && (!again ==> Rejected(x) && !Acked(x) && !AskedBack(x))
  }

  lemma FailingReports(exec: Executions, n: nat)
    requires n >= 1 && forall i: nat :: FailsAs(exec(i, i), i + 1 < n)
    ensures Reports(exec, Exhausted(n))
  {
  }

  lemma AllowsOne(p: Retry.Policy, kind: Retry.FailureKind, n: nat)
    requires Retry.Valid(p) && AttemptsFor(p, kind, n)
    ensures n >= 1
  {
    if leaf :| Retry.InCharge(p, leaf, kind) && n == Retry.Allowed(leaf) {
      Retry.LeafIsValid(p, leaf, kind);
    }
  }

  lemma AllowedIsExact(p: Retry.Policy, kind: Retry.FailureKind, n: nat, i: nat)
    requires Retry.Valid(p) && AttemptsFor(p, kind, n)
    ensures (exists leaf :: Retry.InCharge(p, leaf, kind) && i + 1 < Retry.Allowed(leaf)) <==> i + 1 < n
  {
    if leaf :| Retry.InCharge(p, leaf, kind) {
      var other :| Retry.InCharge(p, other, kind) && n == Retry.Allowed(other);
      forall l | Retry.InCharge(p, l, kind) ensures l == other {
        Retry.OneInCharge(p, l, other, kind);
      }
    }
  }
}
