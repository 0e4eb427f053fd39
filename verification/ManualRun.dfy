/** `run_task_once`: executing one synthetic delivery until it settles. */
module ManualRun {
  import opened Wrappers
  import opened Execution
  import opened Settlement
  import opened Ordering
  import opened DeadLetters
  import Retry

  /** The synthetic delivery: its settlement methods only record that they were called. */
  datatype Delivery = Delivery(attempts: nat, acked: bool, failed: bool, retryRequested: bool)

  const UNSETTLED := Delivery(0, false, false, false)

  function Settle(d: Delivery, call: Call): Delivery {
    match call
    case Ack => d.(acked := true)
    case Requeue(_) => d.(retryRequested := true, attempts := d.attempts + 1)
    case Reject => d.(failed := true)
    case _ => d
  }

  function SettleAll(d: Delivery, calls: seq<Call>): Delivery {
    if calls == [] then d else Settle(SettleAll(d, calls[..|calls| - 1]), calls[|calls| - 1])
  }

  /** How a manual run ends: completed, failed, undecided, or with an exception that left
      the executor; with the number of executions. */
  datatype Result = Complete(count: nat) | Exhausted(count: nat) | Undecided(count: nat) | Escaped(exc: Exc, count: nat)

  datatype Progress = Going(delivery: Delivery) | Stopped(result: Result)

  /** What an execution makes of a delivery that was still going. */
  function After(x: Run, d: Delivery, count: nat): Progress {
    var e := SettleAll(d, Settlements(x.log));
    if x.err.Some? then Stopped(Escaped(x.err.value, count))
    else if e.acked then Stopped(Complete(count))
    else if !e.retryRequested then Stopped(if e.failed then Exhausted(count) else Undecided(count))
    else Going(e.(retryRequested := false))
  }

  /** The executions of a run, by position and by the attempts of the delivery. */
  type Executions = (nat, nat) -> Run

  /** The loop after at most `n` executions. */
  function Loop(exec: Executions, n: nat): Progress {
    if n == 0 then Going(UNSETTLED)
    else
      match Loop(exec, n - 1)
      case Stopped(result) => Stopped(result)
      case Going(d) => After(exec(n - 1, d.attempts), d, n)
  }

  /** A world for each execution. */
  type Worlds = nat -> World

  function Runs(worlds: Worlds, t: Task): Executions {
    (i: nat, attempts: nat) => Execute(worlds(i), t, PRODUCTION, attempts)
  }

  /** The manual run after at most `n` executions. */
  function RunFor(worlds: Worlds, t: Task, n: nat): Progress { Loop(Runs(worlds, t), n) }

  // ------------------------------------------------------------ the delivery

  /** The synthetic delivery's own methods never raise. */
  ghost predicate Synthetic(w: World) {
    forall log, call :: call in {Start, Ack, Reject} || call.Requeue? ==> w.reply(log, call).Answers?
  }

  ghost predicate AllSynthetic(worlds: Worlds) { forall i :: Synthetic(worlds(i)) }

  /** What the settlement theorem says of a run. */
  predicate Settled(x: Run) {
    x.err.None? ==>
      && SettlementOf(x.out).Some?
      && var last := SettlementOf(x.out).value; Settlements(x.log) == [last] || Settlements(x.log) == [Ack, last]
  }

  /** The run returned after one settlement, a retry. */
  predicate Retried(x: Run) { x.err.None? && |Settlements(x.log)| == 1 && x.out.action == Some(RETRY) }

  lemma ExecutionSettles(w: World, t: Task, attempts: nat)
    ensures Settled(Execute(w, t, PRODUCTION, attempts))
  {
    ExecuteSettles(w, t, attempts);
    var x := Execute(w, t, PRODUCTION, attempts);
    if x.err.None? {
      var last := SettlementOf(x.out).value;
      assert [Ack] + [last] == [Ack, last] && [] + [last] == [last];
    }
  }

  /** The loop goes on exactly after a retry, and never stops undecided. */
  lemma AfterGoesOn(x: Run, n: nat)
    requires Settled(x)
    ensures var p := After(x, UNSETTLED.(attempts := n), n + 1);
      && (p.Going? <==> Retried(x))
      && (p.Going? ==> p.delivery == UNSETTLED.(attempts := n + 1))
      && (p.Stopped? ==> !p.result.Undecided? && p.result.count == n + 1)
  {
    if x.err.None? {
      var last := SettlementOf(x.out).value;
      SettleTwo(UNSETTLED.(attempts := n), Ack, last);
      SettleOne(UNSETTLED.(attempts := n), last);
    }
  }

  lemma SettleOne(d: Delivery, a: Call)
    ensures SettleAll(d, [a]) == Settle(d, a)
  {
    assert [a][..0] == [];
  }

  lemma SettleTwo(d: Delivery, a: Call, b: Call)
    ensures SettleAll(d, [a, b]) == Settle(Settle(d, a), b)
  {
    assert [a, b][..1] == [a];
    SettleOne(d, a);
  }

  /** Nothing but retries has happened, one for each execution, or the run has stopped,
      decided. */
  predicate Counted(p: Progress, n: nat) {
    match p
    case Going(d) => d == UNSETTLED.(attempts := n)
    case Stopped(result) => !result.Undecided? && 1 <= result.count <= n
  }

  lemma {:induction false} LoopCounts(exec: Executions, n: nat)
    requires forall i: nat :: Settled(exec(i, i))
    ensures Counted(Loop(exec, n), n)
    ensures n > 0 && Loop(exec, n).Going? ==> Retried(exec(n - 1, n - 1))
  {
    if n > 0 {
      LoopCounts(exec, n - 1);
      AfterGoesOn(exec(n - 1, n - 1), n - 1);
    }
  }

  lemma {:induction false} LoopGoesOn(exec: Executions, n: nat)
    requires forall i: nat :: Settled(exec(i, i)) && Retried(exec(i, i))
    ensures Loop(exec, n).Going?
  {
    if n > 0 {
      LoopGoesOn(exec, n - 1);
      LoopCounts(exec, n - 1);
      AfterGoesOn(exec(n - 1, n - 1), n - 1);
    }
  }

  lemma RunsSettle(worlds: Worlds, t: Task)
    ensures forall i: nat :: Settled(Runs(worlds, t)(i, i))
  {
    forall i: nat ensures Settled(Runs(worlds, t)(i, i)) {
      ExecutionSettles(worlds(i), t, i);
    }
  }

  /** While a manual run goes on, each execution has asked for one retry and done nothing
      else; and it never stops undecided. */
  lemma GoingCountsRetries(worlds: Worlds, t: Task, n: nat)
    ensures Counted(RunFor(worlds, t, n), n)
  {
    RunsSettle(worlds, t);
    LoopCounts(Runs(worlds, t), n);
  }

  // ----------------------------------------------------- a bounded number of runs

  ghost predicate PolicyRetries(p: Retry.Policy, attempts: nat) {
    exists kind, u: Retry.Draw :: Retry.OnError(p, attempts, kind, u).Retry?
  }

  lemma FailAndReportAction(w: World, t: Task, r: Run)
    requires Synthetic(w)
    ensures FailAndReport(w, t, PRODUCTION, r).err.None? ==> FailAndReport(w, t, PRODUCTION, r).out.action == r.out.action
  {
    var c := Do(w, r, Checkpoint(DeliveryStage, false));
    assert w.reply(c.log, Reject).Answers?;
  }

  lemma GiveUpAction(w: World, t: Task, r: Run)
    requires Synthetic(w) && r.err.None?
    ensures var x := GiveUp(w, t, PRODUCTION, r);
      x.err.None? && !DeadRefused(x.log) ==> x.out.action != Some(RETRY)
  {
    if t.deadLetters == [] {
      FailAndReportAction(w, t, r.(out := r.out.(action := Some(FAIL))));
    } else {
      var q := r.(out := r.out.(action := Some(DEAD_LETTER)));
      var d := DeadAll(w, PRODUCTION, q, t.deadLetters, false);
      DeadAllAccepted(w, q, t.deadLetters, false);
      DeadAllKeeps(w, PRODUCTION, q, t.deadLetters, false);
      if d.0.err.Some? && d.0.err.value != Cancelled {
        DeadLetterFailedAdds(w, PRODUCTION, d.0);
        CaptureAdds(w, t, DeadLetterFailed(w, PRODUCTION, d.0));
        RefusedStays(d.0.log, GiveUp(w, t, PRODUCTION, r).log, {RequeueCall, ReportCall});
      } else if d.0.err.None? {
        var published := if d.1 then Some(true) else None;
        var e := d.0.(out := d.0.out.(deadLetterAttempted := d.1, deadLetterPublished := published));
        FailAndReportAction(w, t, Do(w, e, Emit(DEAD_LETTERED)));
      }
    }
  }

  lemma FailureAction(w: World, t: Task, attempts: nat, r: Run, kind: Retry.FailureKind)
    requires Synthetic(w)
    ensures var x := HandleFailure(w, t, PRODUCTION, attempts, r, kind);
      x.err.None? && !DeadRefused(x.log) && x.out.action == Some(RETRY) ==> PolicyRetries(t.policy, attempts)
  {
    var f := OnFailure(w, t, r, kind);
    if f.err.None? {
      match Retry.OnError(t.policy, attempts, kind, w.draw(f.log))
      case Retry(delay) => assert PolicyRetries(t.policy, attempts);
      case Fail => GiveUpAction(w, t, f);
    }
  }

  /** Unless a dead letter is refused, only the policy retries a synthetic delivery. */
  lemma RetryByPolicy(w: World, t: Task, attempts: nat)
    requires Synthetic(w)
    ensures var x := Execute(w, t, PRODUCTION, attempts);
      x.err.None? && !DeadRefused(x.log) && x.out.action == Some(RETRY) ==> PolicyRetries(t.policy, attempts)
  {
    BodySettles(w, t);
    var b := Attempt(w, t, PRODUCTION);
    if b.err.Some? {
      match b.err.value
      case Cancelled =>
      case TimedOut => FailureAction(w, t, attempts, b, Retry.TIMEOUT);
      case _ => FailureAction(w, t, attempts, b, Retry.ERROR);
    }
  }

  /** No execution of the run meets a refused dead letter. */
  ghost predicate NoRefusals(worlds: Worlds, t: Task) {
    forall i :: !DeadRefused(Execute(worlds(i), t, PRODUCTION, i).log)
  }

  lemma RetriedBelowBound(w: World, t: Task, attempts: nat, bound: int)
    requires Synthetic(w) && Retry.BoundedBy(t.policy, bound)
    requires var x := Execute(w, t, PRODUCTION, attempts); Retried(x) && !DeadRefused(x.log)
    ensures attempts + 1 < bound
  {
    RetryByPolicy(w, t, attempts);
    var kind, u: Retry.Draw :| Retry.OnError(t.policy, attempts, kind, u).Retry?;
    Retry.RetryBelowBound(t.policy, bound, attempts, kind, u);
  }

  lemma LoopBelowBound(exec: Executions, n: nat, bound: int)
    requires forall i: nat :: Settled(exec(i, i))
    requires forall i: nat :: Retried(exec(i, i)) ==> i + 1 < bound
    requires n > 0 && Loop(exec, n).Going?
    ensures n < bound
  {
    LoopCounts(exec, n);
  }

  /** A run that is still going after `n` executions was retried by the policy, so `n` is
      below every bound of the policy. */
  lemma GoingIsBelowBound(worlds: Worlds, t: Task, n: nat, bound: int)
    requires AllSynthetic(worlds) && NoRefusals(worlds, t) && Retry.BoundedBy(t.policy, bound)
    requires n > 0 && RunFor(worlds, t, n).Going?
    ensures n < bound
  {
    RunsSettle(worlds, t);
    forall i: nat | Retried(Runs(worlds, t)(i, i)) ensures i + 1 < bound {
      RetriedBelowBound(worlds(i), t, i, bound);
    }
    LoopBelowBound(Runs(worlds, t), n, bound);
  }

  /** With no refused dead letter, the run stops within as many executions as the most
      generous leaf of the policy allows. */
  lemma StopsWithinBound(worlds: Worlds, t: Task, bound: nat)
    requires AllSynthetic(worlds) && NoRefusals(worlds, t) && Retry.BoundedBy(t.policy, bound) && bound >= 1
    ensures RunFor(worlds, t, bound).Stopped? && 1 <= RunFor(worlds, t, bound).result.count <= bound
  {
    GoingCountsRetries(worlds, t, bound);
    if RunFor(worlds, t, bound).Going? {
      GoingIsBelowBound(worlds, t, bound, bound);
    }
  }

  // ------------------------------------------------------ an unbounded run

  /** Everything answers but the handler and the dead-letter sinks. */
  function Hostile(log: Log, call: Call): Reply {
    if call.Handle? || call.SendDead? then Raises(OtherError) else Answers(None, false)
  }

  ghost predicate IsHostile(w: World) { forall log, call :: w.reply(log, call) == Hostile(log, call) }

  lemma HostileHooks(w: World, r: Run, kind: HookKind, i: nat, n: nat, suppress: bool)
    requires IsHostile(w) && r.err.None?
    ensures Hooks(w, r, kind, i, n, suppress).err.None?
    decreases n - i
  {
    if i < n {
      HostileHooks(w, Do(w, r, Hook(kind, i)), kind, i + 1, n, suppress);
    }
  }

  /** In the hostile world the body raises an error before the ack. */
  lemma HostileBody(w: World, t: Task)
    requires IsHostile(w)
    ensures Attempt(w, t, PRODUCTION).err == Some(OtherError) && !RaisedAfterAck(w, t)
  {
    var a := Begin(w);
    var e := Enter(w, a, BeforeStage);
    assert e.err.None?;
    HostileHooks(w, e, BEFORE, 0, t.before, false);
    var b := RunBefore(w, t, a);
    assert b.err.None?;
    var c := RunHandler(w, b);
    assert c.err == Some(OtherError);
    FailedStays(w, t, c);
    var r := UpToAckSettles(w, t);
  }

  lemma FailedStays(w: World, t: Task, c: Run)
    requires c.err.Some?
    ensures RunSinks(w, t, PRODUCTION, RunAfter(w, t, c)) == c && RunAck(w, PRODUCTION, c) == c
  {
  }

  lemma HostileCalm(w: World)
    requires IsHostile(w)
    ensures Calm(w) && Synthetic(w)
  {
  }

  lemma HostileGiveUp(w: World, t: Task, r: Run)
    requires IsHostile(w) && r.err.None? && t.deadLetters != []
    ensures var x := GiveUp(w, t, PRODUCTION, r); x.err.None? ==> x.out.action == Some(RETRY)
  {
    var q := r.(out := r.out.(action := Some(DEAD_LETTER)));
    var d := DeadAll(w, PRODUCTION, q, t.deadLetters, false);
    var e := Do(w, q, SendDead(t.deadLetters[0]));
    assert e.err == Some(OtherError) && DeadAll(w, PRODUCTION, e, t.deadLetters[1..], true).0 == e;
    assert d.0 == e;
  }

  lemma HostileFailure(w: World, t: Task, attempts: nat, r: Run)
    requires IsHostile(w) && t.deadLetters != []
    ensures var x := HandleFailure(w, t, PRODUCTION, attempts, r, Retry.ERROR);
      x.err.None? && x.out.action == Some(RETRY)
  {
    HostileCalm(w);
    HandleFailureCalm(w, t, PRODUCTION, attempts, r, Retry.ERROR);
    var f := OnFailure(w, t, r, Retry.ERROR);
    if f.err.None? && Retry.OnError(t.policy, attempts, Retry.ERROR, w.draw(f.log)).Fail? {
      HostileGiveUp(w, t, f);
    }
  }

  lemma HostileExecution(w: World, t: Task, attempts: nat)
    requires IsHostile(w) && t.deadLetters != []
    ensures Retried(Execute(w, t, PRODUCTION, attempts))
  {
    HostileBody(w, t);
    HostileFailure(w, t, attempts, Attempt(w, t, PRODUCTION));
    ExecuteSettles(w, t, attempts);
  }

  ghost predicate Stops(worlds: Worlds, t: Task) { exists n :: RunFor(worlds, t, n).Stopped? }

  lemma NoSinksNoRefusals(w: World, t: Task, attempts: nat)
    requires t.deadLetters == []
    ensures !DeadRefused(Execute(w, t, PRODUCTION, attempts).log)
  {
    var b := Attempt(w, t, PRODUCTION);
    BodyAdds(w, t);
    RefusedStays([], b.log, BODY + {AckCall});
    if b.err.Some? {
      HandleCancelledAdds(w, t, PRODUCTION, b);
      RefusedStays(b.log, HandleCancelled(w, t, PRODUCTION, b).log, {RequeueCall, ReportCall});
      FailureWithoutSinks(w, t, attempts, b, Retry.TIMEOUT);
      FailureWithoutSinks(w, t, attempts, b, Retry.ERROR);
    }
  }

  lemma FailureWithoutSinks(w: World, t: Task, attempts: nat, r: Run, kind: Retry.FailureKind)
    requires t.deadLetters == []
    ensures DeadRefused(HandleFailure(w, t, PRODUCTION, attempts, r, kind).log) <==> DeadRefused(r.log)
  {
    var f := OnFailure(w, t, r, kind);
    OnFailureAdds(w, t, r, kind);
    RefusedStays(r.log, f.log, {HookCall, ReportCall});
    if f.err.None? {
      match Retry.OnError(t.policy, attempts, kind, w.draw(f.log))
      case Retry(delay) =>
        var g := f.(out := f.out.(action := Some(RETRY), retryDelay := delay));
        RetryNeverRejects(w, t, g, delay);
        RefusedStays(g.log, HandleFailure(w, t, PRODUCTION, attempts, r, kind).log, {RequeueCall, ReportCall});
      case Fail =>
        var g := f.(out := f.out.(action := Some(FAIL)));
        FailAndReportAdds(w, t, PRODUCTION, g);
        RefusedStays(g.log, FailAndReport(w, t, PRODUCTION, g).log, {RequeueCall, RejectCall, ReportCall});
    }
  }

  /** In the hostile world a task with a dead-letter sink is executed for ever, whatever
      its policy. */
  lemma NeverStops(worlds: Worlds, t: Task, n: nat)
    requires t.deadLetters != [] && forall i :: IsHostile(worlds(i))
    ensures RunFor(worlds, t, n).Going?
  {
    forall k: nat ensures Retried(Runs(worlds, t)(k, k)) {
      HostileExecution(worlds(k), t, k);
    }
    RunsSettle(worlds, t);
    LoopGoesOn(Runs(worlds, t), n);
  }

  /** A run in which no dead letter is refused stops. */
  lemma UnrefusedStops(worlds: Worlds, t: Task)
    requires AllSynthetic(worlds) && NoRefusals(worlds, t)
    ensures Stops(worlds, t)
  {
    var bound := Retry.MaxLeaf(t.policy);
    var n := if bound < 1 then 1 else bound;
    Retry.BoundGrows(t.policy, bound, n);
    StopsWithinBound(worlds, t, n);
  }

  lemma StopsWithoutSinks(worlds: Worlds, t: Task)
    requires t.deadLetters == [] && AllSynthetic(worlds)
    ensures Stops(worlds, t)
  {
    forall i: nat ensures !DeadRefused(Execute(worlds(i), t, PRODUCTION, i).log) {
      NoSinksNoRefusals(worlds(i), t, i);
    }
    UnrefusedStops(worlds, t);
  }

  lemma MayNeverStop(t: Task) returns (worlds: Worlds)
    requires t.deadLetters != []
    ensures AllSynthetic(worlds) && !Stops(worlds, t)
  {
    worlds := i => World(Hostile, log => false, log => 0.0);
    forall i ensures IsHostile(worlds(i)) && Synthetic(worlds(i)) {
      HostileCalm(worlds(i));
    }
    forall n ensures RunFor(worlds, t, n).Going? {
      NeverStops(worlds, t, n);
    }
  }

  /** A manual run is sure to stop exactly when the task has no dead-letter sinks. */
  lemma StopsIff(t: Task)
    ensures t.deadLetters == [] <==> forall worlds :: AllSynthetic(worlds) ==> Stops(worlds, t)
  {
    if t.deadLetters == [] {
      forall worlds | AllSynthetic(worlds) ensures Stops(worlds, t) {
        StopsWithoutSinks(worlds, t);
      }
    } else {
      var worlds := MayNeverStop(t);
    }
  }
}
