/** The loop of `run_task_once` over a delivery that its executions change in place. */
module ManualRunner {
  import opened Wrappers
  import opened Execution
  import opened Settlement
  import opened ManualRun
  import ManualResults
  import DeliveryExecutor
  import Retry

  class SyntheticDelivery {
    var attempts: nat
    var acked: bool
    var failed: bool
    var retryRequested: bool

    constructor ()
      ensures Value() == UNSETTLED
    {
      attempts, acked, failed, retryRequested := 0, false, false, false;
    }

    function Value(): Delivery
      reads this
    {
      Delivery(attempts, acked, failed, retryRequested)
    }

    /** One of the delivery's settlement methods. */
    method Receive(call: Call)
      modifies this
      ensures Value() == Settle(old(Value()), call)
    {
      match call {
        case Ack => acked := true;
        case Requeue(_) => retryRequested, attempts := true, attempts + 1;
        case Reject => failed := true;
        case _ =>
      }
    }

    /** The settlement calls that completed in an execution, in order. */
    method ReceiveAll(log: Log)
      modifies this
      ensures Value() == SettleAll(old(Value()), Settlements(log))
    {
      var i := 0;
      while i < |log|
        invariant 0 <= i <= |log|
        invariant Value() == SettleAll(old(Value()), Settlements(log[..i]))
      {
        SettleNext(old(Value()), log, i);
        if Settles(log[i]) {
          Receive(log[i].call);
        }
        i := i + 1;
      }
      assert log[..i] == log;
    }
  }

  lemma SettleNext(d: Delivery, log: Log, i: nat)
    requires i < |log|
    ensures SettleAll(d, Settlements(log[..i + 1])) ==
      if Settles(log[i]) then Settle(SettleAll(d, Settlements(log[..i])), log[i].call)
      else SettleAll(d, Settlements(log[..i]))
  {
    var calls := Settlements(log[..i]);
    assert log[..i + 1][..i] == log[..i];
    assert (calls + [log[i].call])[..|calls|] == calls && calls + [] == calls;
  }

  /** One execution of the delivery, and how the run stands after it. */
  method RunRound(executor: DeliveryExecutor.Executor, delivery: SyntheticDelivery, w: World, count: nat)
      returns (p: Progress)
    requires executor.mode == PRODUCTION
    modifies executor, delivery
    ensures p == After(Execution.Execute(w, executor.task, PRODUCTION, old(delivery.attempts)), old(delivery.Value()), count)
    ensures p.Going? ==> delivery.Value() == p.delivery
  {
    var err := executor.Execute(w, delivery.attempts);
    delivery.ReceiveAll(executor.log);
    if err.Some? {
      return Stopped(Escaped(err.value, count));
    }
    if delivery.acked {
      return Stopped(Complete(count));
    }
    if !delivery.retryRequested {
      return Stopped(if delivery.failed then Exhausted(count) else Undecided(count));
    }
    delivery.retryRequested := false;
    p := Going(delivery.Value());
  }

  lemma CountWithinBounds(worlds: Worlds, task: Task, n: nat)
    requires AllSynthetic(worlds) && NoRefusals(worlds, task)
    requires RunFor(worlds, task, n).Going?
    ensures forall bound: nat :: bound >= 1 && Retry.BoundedBy(task.policy, bound) ==> n + 1 <= bound
  {
    forall bound: nat | bound >= 1 && Retry.BoundedBy(task.policy, bound) ensures n + 1 <= bound {
      if n > 0 {
        GoingIsBelowBound(worlds, task, n, bound);
      }
    }
  }

  ghost predicate WithinBounds(task: Task, count: nat) {
    forall bound: nat :: bound >= 1 && Retry.BoundedBy(task.policy, bound) ==> count <= bound
  }

  lemma LoopNext(exec: Executions, n: nat, d: Delivery, p: Progress)
    requires Loop(exec, n) == Going(d) && p == After(exec(n, d.attempts), d, n + 1)
    ensures Loop(exec, n + 1) == p && (p.Stopped? ==> p.result.count == n + 1)
  {
  }

  /** What the next execution does to the run. */
  lemma NextRun(worlds: Worlds, task: Task, n: nat, d: Delivery, p: Progress)
    requires RunFor(worlds, task, n) == Going(d)
    requires p == After(Execution.Execute(worlds(n), task, PRODUCTION, d.attempts), d, n + 1)
    ensures RunFor(worlds, task, n + 1) == p && (p.Stopped? ==> p.result.count == n + 1)
  {
    LoopNext(Runs(worlds, task), n, d, p);
  }

  /** A run that has stopped stays stopped. */
  lemma {:induction false} StaysStopped(worlds: Worlds, task: Task, n: nat, later: nat)
    requires n <= later && RunFor(worlds, task, n).Stopped?
    ensures RunFor(worlds, task, later) == RunFor(worlds, task, n)
    decreases later
  {
    if n < later {
      StaysStopped(worlds, task, n, later - 1);
      StoppedNext(Runs(worlds, task), later - 1);
    }
  }

  lemma StoppedNext(exec: Executions, n: nat)
    requires Loop(exec, n).Stopped?
    ensures Loop(exec, n + 1) == Loop(exec, n)
  {
  }

  lemma StopsWithin(worlds: Worlds, task: Task, n: nat)
    requires AllSynthetic(worlds) && NoRefusals(worlds, task) && RunFor(worlds, task, n).Going?
    requires RunFor(worlds, task, n + 1).Stopped?
    ensures WithinBounds(task, n + 1)
  {
    CountWithinBounds(worlds, task, n);
  }

  /** Runs the task until its delivery settles, wherever the run stops at all; unless a
      dead letter is refused it stops, within the attempts of the most generous leaf of
      the retry policy. */
  method RunTaskOnce(worlds: Worlds, task: Task) returns (result: Result)
    requires AllSynthetic(worlds) && Stops(worlds, task)
    ensures RunFor(worlds, task, result.count) == Stopped(result) && !result.Undecided?
    ensures ManualResults.Reports(Runs(worlds, task), result)
    ensures NoRefusals(worlds, task) ==> WithinBounds(task, result.count)
  {
    ghost var end: nat :| RunFor(worlds, task, end).Stopped?;
    var delivery := new SyntheticDelivery();
    var executor := new DeliveryExecutor.Executor(task, PRODUCTION, worlds(0));
    var count := 0;
    while true
      invariant fresh(delivery) && fresh(executor) && executor.task == task && executor.mode == PRODUCTION
      invariant RunFor(worlds, task, count) == Going(delivery.Value())
      invariant count < end
      decreases end - count
    {
      ghost var d := delivery.Value();
      var p := RunRound(executor, delivery, worlds(count), count + 1);
      NextRun(worlds, task, count, d, p);
      GoingCountsRetries(worlds, task, count + 1);
      if p.Stopped? {
        ManualResults.StopsWithIff(worlds, task, p.result);
        if NoRefusals(worlds, task) {
          StopsWithin(worlds, task, count);
        }
        return p.result;
      }
      if end <= count + 1 {
        StaysStopped(worlds, task, end, count + 1);
        assert false;
      }
      count := count + 1;
    }
  }
}
