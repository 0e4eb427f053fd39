/** Once a drain or a pause is reported complete, nothing more is handed to a handler. */
module Quiescence {
  import opened Wrappers
  import opened StopProtocol
  import opened StopSafety
  import opened StopClaims

  /** A loop that runs no handler, no fetch, and holds no delivery. */
  predicate Quiet(r: Runner) {
    && r.inflight == []
    && match r.pc
       case Fetching(_, _, _) => false
       case AwaitFetch(_, _, _, _) => false
       case CancelFetch(_, _, _, _) => false
       case Backoff(_, _) => false
       case Releasing(_, _, _, _) => false
       case Emitting(_) => false
       case FetchExit(batch) => batch == []
       case _ => true
  }

  lemma ParkedQuiet(r: Runner)
    requires FlagsMatch(r) && (r.flags.drainParked || r.flags.pauseParked)
    ensures Quiet(r)
  {
  }

  lemma LoopStaysQuiet(a: App, m: Moved)
    requires Quiet(m.r) && StopFetching(a, m.r.Task())
    ensures Quiet(LoopTop(a, m).r) && Quiet(BeginFetch(a, m).r) && Quiet(AfterEmptyFetch(a, m).r)
  {
    ExitStaysQuiet(m);
    ExitStaysQuiet(SetPauseParked(m, false));
  }

  lemma ExitStaysQuiet(m: Moved)
    requires m.r.inflight == []
    ensures Quiet(Exit(m).r)
  {
  }

  /** While its task must not fetch, a quiet loop stays quiet whatever happens. */
  lemma StaysQuiet(a: App, act: Action, r: Runner)
    requires Enabled(a, act) && Target(act).Some? && r == a.runners[Target(act).value]
    requires Quiet(r) && StopFetching(a, r.Task())
    ensures Quiet(Move(a, act, r).r) && Move(a, act, r).r.settings == r.settings
  {
    LoopStaysQuiet(a, Moved(r, false));
    ExitStaysQuiet(Moved(r, false));
    ExitStaysQuiet(Drop(Moved(r.(log := r.log.(cancelled := true)), false)));
    if act.Run? {
      QuietWakeRecord(a, r);
    }
  }

  // ------------------------------------------------------------------- drain

  /** A drain was requested and every loop is quiet. */
  ghost predicate DrainSettled(a: App) {
    a.drainRequested && forall i <- a.runners :: Quiet(a.runners[i])
  }

  lemma StepKeepsDrainSettled(a: App, act: Action)
    requires DrainSettled(a) && Enabled(a, act)
    ensures DrainSettled(Step(a, act)) && Step(a, act).handed == a.handed
  {
    StepRunners(a, act);
    if Target(act).Some? {
      StaysQuiet(a, act, a.runners[Target(act).value]);
    }
  }

  lemma {:induction false} DrainStaysSettled(a: App, acts: seq<Action>)
    requires DrainSettled(a)
    ensures var b := After(a, acts); b.Some? ==> DrainSettled(b.value) && b.value.handed == a.handed
    decreases |acts|
  {
    if acts != [] && Enabled(a, acts[0]) {
      StepKeepsDrainSettled(a, acts[0]);
      DrainStaysSettled(Step(a, acts[0]), acts[1..]);
    }
  }

  /** Drain quiescence: in every run, once `drain_status` says drained, no delivery is
      handed out any more, whatever requests, restarts or shutdowns follow. */
  lemma DrainedIsQuiescent(before: seq<Action>, after: seq<Action>)
    requires var a := After(START, before); a.Some? && Drained(a.value)
    ensures var a := After(START, before).value; var b := After(a, after);
      b.Some? ==> b.value.handed == a.handed
  {
    AlwaysOk(START, before);
    var a := After(START, before).value;
    forall i | i in a.runners ensures Quiet(a.runners[i]) {
      ParkedQuiet(a.runners[i]);
    }
    DrainStaysSettled(a, after);
  }

  // ------------------------------------------------------------------- pause

  /** A pause of `task` was requested and every loop of the task is quiet. */
  ghost predicate PauseSettled(a: App, task: string) {
    task in a.pausedTasks && forall i <- a.runners :: a.runners[i].Task() == task ==> Quiet(a.runners[i])
  }

  /** The deliveries of one task in the log. */
  function ForTask(log: seq<(string, Delivery)>, task: string): seq<Delivery> {
    if log == [] then []
    else (if log[0].0 == task then [log[0].1] else []) + ForTask(log[1..], task)
  }

  lemma {:induction false} OthersOnly(log: seq<(string, Delivery)>, more: seq<(string, Delivery)>, task: string)
    requires forall i :: 0 <= i < |more| ==> more[i].0 != task
    ensures ForTask(log + more, task) == ForTask(log, task)
    decreases |log| + |more|
  {
    if log != [] {
      OthersOnly(log[1..], more, task);
      assert (log + more)[1..] == log[1..] + more;
    } else if more != [] {
      OthersOnly([], more[1..], task);
      assert [] + more[1..] == more[1..] && [] + more == more;
    }
  }

  /** Neither a resume nor a restart of `task`. */
  predicate LeavesPause(act: Action, task: string) {
    act != RequestResume(task) && !(act.Unregister? && act.task == task)
  }

  lemma StepKeepsPauseSettled(a: App, act: Action, task: string)
    requires PauseSettled(a, task) && Enabled(a, act) && LeavesPause(act, task)
    ensures PauseSettled(Step(a, act), task)
    ensures ForTask(Step(a, act).handed, task) == ForTask(a.handed, task)
  {
    StepRunners(a, act);
    if Target(act).Some? {
      var r := a.runners[Target(act).value];
      if r.Task() == task {
        StaysQuiet(a, act, r);
      } else {
        MoveKeepsSettings(a, act, r);
        if act.Run? && r.pc.Emitting? {
          OthersOnly(a.handed, seq(|r.pc.batch|, i requires 0 <= i < |r.pc.batch| => (r.Task(), r.pc.batch[i])), task);
        }
      }
    }
  }

  lemma FetchKeepsSettings(a: App, r: Runner)
    requires CanWake(a, r) && (InFetch(r.pc) || r.pc.Emitting?)
    ensures Wake(a, r).r.settings == r.settings
  {
  }

  lemma InterruptKeepsSettings(r: Runner)
    ensures Interrupt(r).r.settings == r.settings
  {
    ExitRecord(Drop(Moved(r.(log := r.log.(cancelled := true)), false)));
  }

  lemma MoveKeepsSettings(a: App, act: Action, r: Runner)
    requires Enabled(a, act) && Target(act).Some? && r == a.runners[Target(act).value]
    ensures Move(a, act, r).r.settings == r.settings
  {
    match act {
      case Run(_) =>
        if InFetch(r.pc) || r.pc.Emitting? {
          FetchKeepsSettings(a, r);
        } else {
          QuietWakeRecord(a, r);
        }
      case HookRaises(_) => ExitRecord(Moved(r, false));
      case EmitRaises(_) => ExitRecord(Drop(Moved(r.(log := r.log.(emitFailed := true)), false)));
      case Cancel(_) => InterruptKeepsSettings(r);
      case _ =>
    }
  }

  lemma {:induction false} PauseStaysSettled(a: App, acts: seq<Action>, task: string)
    requires PauseSettled(a, task) && forall act <- acts :: LeavesPause(act, task)
    ensures var b := After(a, acts); b.Some? ==> ForTask(b.value.handed, task) == ForTask(a.handed, task)
    decreases |acts|
  {
    if acts != [] && Enabled(a, acts[0]) {
      StepKeepsPauseSettled(a, acts[0], task);
      PauseStaysSettled(Step(a, acts[0]), acts[1..], task);
    }
  }

  /** Pause quiescence: in every run, once `task_pause_status` says paused, no delivery
      of the task is handed out before a resume or a restart of that task. */
  lemma PausedIsQuiescent(before: seq<Action>, after: seq<Action>, task: string)
    requires var a := After(START, before); a.Some? && Paused(a.value, task)
    requires forall act <- after :: LeavesPause(act, task)
    ensures var a := After(START, before).value; var b := After(a, after);
      b.Some? ==> ForTask(b.value.handed, task) == ForTask(a.handed, task)
  {
    AlwaysOk(START, before);
    var a := After(START, before).value;
    forall i | i in a.runners && a.runners[i].Task() == task ensures Quiet(a.runners[i]) {
      ParkedQuiet(a.runners[i]);
    }
    PauseStaysSettled(a, after, task);
  }
}
