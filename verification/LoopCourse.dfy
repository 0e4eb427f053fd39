/** The course of a loop: how a fetch begins, what follows a pause, and how a shutdown ends
    it. */
module LoopCourse {
  import opened Wrappers
  import opened StopProtocol
  import opened StopSafety
  import opened StopClaims
  import opened StopBatches

  // ----------------------------------------------------------- a fetch begins

  lemma FetchAsksAll(a: App, r: Runner)
    requires CanWake(a, r) && !r.pc.Fetching? && Wake(a, r).r.pc.Fetching?
    ensures var r' := Wake(a, r).r;
      && r'.pc == Fetching(r'.pc.limit, None, false) && r'.settings == r.settings && r'.inflight == r.inflight
      && r'.pc.limit >= 1 && r'.pc.limit + |r.inflight| == r.settings.concurrency
      && !StopFetching(a, r.Task())
      && (r.pc.Top? || r.pc.WaitInflight? || r.pc.Sleep? || r.pc.PausePark? || r.pc.ResumeHook?)
      && (r.pc.PausePark? ==> !r.flags.pauseParked)
  {
  }

  lemma OnlyWakesFetch(a: App, act: Action, r: Runner)
    requires Enabled(a, act) && Target(act).Some? && r == a.runners[Target(act).value]
    requires !r.pc.Fetching? && Move(a, act, r).r.pc.Fetching?
    ensures act.Run?
  {
    if act.Cancel? {
      InterruptNeverFetches(r);
    }
  }

  lemma InterruptNeverFetches(r: Runner)
    ensures !Interrupt(r).r.pc.Fetching?
  {
  }

  /** In every run a fetch begins only where neither a shutdown, nor a drain, nor a pause of
      the task is asked for, and asks for just as many deliveries as there is room for. */
  lemma FetchBegins(acts: seq<Action>, act: Action, id: nat)
    requires After(START, acts).Some? && Enabled(After(START, acts).value, act) && id in After(START, acts).value.runners
    requires var a := After(START, acts).value; Target(act) == Some(id) && !a.runners[id].pc.Fetching?
    requires Step(After(START, acts).value, act).runners[id].pc.Fetching?
    ensures var a := After(START, acts).value; var r := a.runners[id]; var r' := Step(a, act).runners[id];
      && act == Run(id) && !a.stopping && !a.drainRequested && r.Task() !in a.pausedTasks
      && r'.pc.limit >= 1 && r'.pc.limit + |r.inflight| == r.settings.concurrency
  {
    var a := After(START, acts).value;
    OwnStep(a, act, id);
    OnlyWakesFetch(a, act, a.runners[id]);
    FetchAsksAll(a, a.runners[id]);
  }

  /** The room the loop asked for in a fetch that has not ended, whether it still waits for it,
      lets it finish, or has cancelled it. */
  function Asking(pc: Pc): Option<nat> {
    match pc
    case Fetching(limit, None, _) => Some(limit)
    case AwaitFetch(limit, None, _, _) => Some(limit)
    case CancelFetch(limit, None, _, _) => Some(limit)
    case _ => None
  }

  lemma StillAsking(a: App, act: Action, r: Runner)
    requires Enabled(a, act) && Target(act).Some? && r == a.runners[Target(act).value]
    requires Asking(r.pc).Some? && !act.FetchReturns?
    ensures Asking(Move(a, act, r).r.pc) == Asking(r.pc)
  {
  }

  /** A loop leaves its fetch only once the source has ended it: no request and no number of
      cancellations comes before that. */
  lemma {:induction false} FetchOutlives(a: App, acts: seq<Action>, id: nat)
    requires id in a.runners && Asking(a.runners[id].pc).Some? && After(a, acts).Some?
    requires forall act <- acts :: !(act.FetchReturns? && act.id == id) && !(act.Unregister? && act.id == id)
    ensures var b := After(a, acts).value; id in b.runners && Asking(b.runners[id].pc) == Asking(a.runners[id].pc)
    decreases |acts|
  {
    if acts != [] {
      StepRunners(a, acts[0]);
      if Target(acts[0]) == Some(id) {
        StillAsking(a, acts[0], a.runners[id]);
      }
      FetchOutlives(Step(a, acts[0]), acts[1..], id);
    }
  }

  // ------------------------------------------------------------- after a pause

  /** Parked for a pause, or gone on to another park, or out. */
  predicate StillPaused(pc: Pc) { pc.PausePark? || pc.DrainPark? || pc.Finishing? || pc.Done? }

  lemma PausedWake(a: App, r: Runner)
    requires RunnerOk(r) && CanWake(a, r) && StillPaused(r.pc)
    ensures var r' := Wake(a, r).r; StillPaused(r'.pc) || r'.pc.ResumeHook?
  {
  }

  lemma PausedInterrupt(r: Runner)
    requires StillPaused(r.pc)
    ensures StillPaused(Interrupt(r).r.pc)
  {
  }

  lemma PausedMove(a: App, act: Action, r: Runner)
    requires Enabled(a, act) && Target(act).Some? && r == a.runners[Target(act).value]
    requires RunnerOk(r) && StillPaused(r.pc)
    ensures var r' := Move(a, act, r).r; StillPaused(r'.pc) || r'.pc.ResumeHook?
  {
    match act
    case Run(_) => PausedWake(a, r);
    case Cancel(_) => PausedInterrupt(r);
    case _ =>
  }

  /** At some point of the run the loop is in its source's resume hook. */
  ghost predicate CallsHook(a: App, acts: seq<Action>, id: nat) {
    exists n :: 0 <= n <= |acts| && HookAt(a, acts[..n], id)
  }

  ghost predicate HookAt(a: App, acts: seq<Action>, id: nat) {
    var b := After(a, acts); b.Some? && id in b.value.runners && b.value.runners[id].pc.ResumeHook?
  }

  lemma HookLater(a: App, acts: seq<Action>, id: nat)
    requires acts != [] && Enabled(a, acts[0]) && CallsHook(Step(a, acts[0]), acts[1..], id)
    ensures CallsHook(a, acts, id)
  {
    var n :| 0 <= n <= |acts[1..]| && HookAt(Step(a, acts[0]), acts[1..][..n], id);
    assert acts[..n + 1][0] == acts[0] && acts[..n + 1][1..] == acts[1..][..n];
    assert HookAt(a, acts[..n + 1], id);
  }

  lemma {:induction false} PausedUntilHook(a: App, acts: seq<Action>, id: nat)
    requires Ok(a) && id in a.runners && StillPaused(a.runners[id].pc) && After(a, acts).Some?
    requires forall act <- acts :: !(act.Unregister? && act.id == id)
    ensures var b := After(a, acts).value; id in b.runners
    ensures CallsHook(a, acts, id) || StillPaused(After(a, acts).value.runners[id].pc)
    decreases |acts|
  {
    if acts != [] {
      StepKeepsOk(a, acts[0]);
      StepRunners(a, acts[0]);
      var a' := Step(a, acts[0]);
      if Target(acts[0]) == Some(id) {
        PausedMove(a, acts[0], a.runners[id]);
      }
      if a'.runners[id].pc.ResumeHook? {
        StaysRegistered(a', acts[1..], id);
        assert HookAt(a', acts[1..][..0], id);
        HookLater(a, acts, id);
      } else {
        PausedUntilHook(a', acts[1..], id);
        if CallsHook(a', acts[1..], id) {
          HookLater(a, acts, id);
        }
      }
    }
  }

  lemma {:induction false} StaysRegistered(a: App, acts: seq<Action>, id: nat)
    requires id in a.runners && After(a, acts).Some? && forall act <- acts :: !(act.Unregister? && act.id == id)
    ensures id in After(a, acts).value.runners
    decreases |acts|
  {
    if acts != [] {
      StepRunners(a, acts[0]);
      StaysRegistered(Step(a, acts[0]), acts[1..], id);
    }
  }

  /** In every run a loop that parked for a pause fetches again only after its source's
      resume hook. */
  lemma HookBeforeFetch(acts: seq<Action>, more: seq<Action>, id: nat)
    requires After(START, acts).Some? && id in After(START, acts).value.runners
    requires After(START, acts).value.runners[id].pc.PausePark?
    requires After(After(START, acts).value, more).Some? && forall act <- more :: !(act.Unregister? && act.id == id)
    ensures var a := After(START, acts).value; var b := After(a, more).value;
      id in b.runners && (b.runners[id].pc.Fetching? ==> CallsHook(a, more, id))
  {
    AlwaysOk(START, acts);
    PausedUntilHook(After(START, acts).value, more, id);
  }

  // --------------------------------------------------------------- a shutdown

  /** How many steps a loop has yet to go, once a shutdown was requested. */
  function Ahead(pc: Pc): nat {
    match pc
    case Done => 0
    case Finishing => 1
    case ResumeHook => 3
    case Fetching(limit, None, _) => 7 + limit
    case Fetching(_, Some(result), _) => 6 + |Batch(Some(result))|
    case AwaitFetch(limit, None, _, _) => 6 + limit
    case AwaitFetch(_, Some(result), _, _) => 5 + |Batch(Some(result))|
    case CancelFetch(limit, None, _, _) => 6 + limit
    case CancelFetch(_, Some(result), _, _) => 5 + |Batch(Some(result))|
    case Backoff(_, _) => 4
    case Releasing(batch, next, _, _) => 3 + if next <= |batch| then |batch| - next else 0
    case FetchExit(batch) => if batch == [] then 2 else 4
    case Emitting(_) => 3
    case _ => 2
  }

  /** The loop goes on by itself, or its fetch returns. */
  predicate Advances(act: Action, id: nat) {
    act == Run(id) || (act.FetchReturns? && act.id == id) || act == HookRaises(id) || act == EmitRaises(id)
  }

  function Advancing(acts: seq<Action>, id: nat): nat {
    if acts == [] then 0 else (if Advances(acts[0], id) then 1 else 0) + Advancing(acts[1..], id)
  }

  lemma WakeAdvances(a: App, r: Runner)
    requires a.stopping && CanWake(a, r) && PcOk(r.pc)
    ensures Ahead(Wake(a, r).r.pc) < Ahead(r.pc)
  {
  }

  lemma MoveAdvances(a: App, act: Action, id: nat)
    requires a.stopping && Ok(a) && Enabled(a, act) && id in a.runners && Target(act) == Some(id) && !act.Cancel?
    ensures var r := a.runners[id]; var left := Ahead(Move(a, act, r).r.pc);
      if Advances(act, id) then left < Ahead(r.pc) else left == Ahead(r.pc)
  {
    assert RunnerOk(a.runners[id]);
    if act.Run? {
      WakeAdvances(a, a.runners[id]);
    }
  }

  /** It is never stuck. */
  lemma NotStuck(a: App, id: nat)
    requires a.stopping && id in a.runners && !a.runners[id].pc.Done?
    ensures exists act :: Advances(act, id) && Enabled(a, act)
  {
    var pc := a.runners[id].pc;
    if CanWake(a, a.runners[id]) {
      assert Enabled(a, Run(id)) && Advances(Run(id), id);
    } else {
      assert Enabled(a, FetchReturns(id, Retryable)) && Advances(FetchReturns(id, Retryable), id);
    }
  }

  lemma AheadBound(a: App, id: nat)
    requires Ok(a) && id in a.runners && !Handling(a.runners[id].pc)
    ensures Ahead(a.runners[id].pc) <= 7 + a.runners[id].settings.concurrency
  {
    assert RunnerOk(a.runners[id]);
  }

  lemma StepAdvances(a: App, act: Action, id: nat)
    requires Ok(a) && a.stopping && id in a.runners && Enabled(a, act) && Undisturbed(act, id)
    ensures var a' := Step(a, act);
      && a'.stopping && id in a'.runners
      && (if Advances(act, id) then 1 else 0) + Ahead(a'.runners[id].pc) <= Ahead(a.runners[id].pc)
  {
    StepRunners(a, act);
    if Target(act) == Some(id) {
      MoveAdvances(a, act, id);
    }
  }

  lemma {:induction false} RunAdvances(a: App, acts: seq<Action>, id: nat)
    requires Ok(a) && a.stopping && id in a.runners && After(a, acts).Some? && forall act <- acts :: Undisturbed(act, id)
    ensures var b := After(a, acts).value;
      id in b.runners && b.stopping && Advancing(acts, id) + Ahead(b.runners[id].pc) <= Ahead(a.runners[id].pc)
    decreases |acts|
  {
    if acts != [] {
      assert Undisturbed(acts[0], id) && forall act <- acts[1..] :: act in acts;
      StepKeepsOk(a, acts[0]);
      StepAdvances(a, acts[0], id);
      RunAdvances(Step(a, acts[0]), acts[1..], id);
    }
  }

  /** In every run, once a shutdown was requested a loop that is not cancelled takes at most
      as many steps as its concurrency and seven more until it has ended, whatever else
      happens, and as long as it has not, it or its fetch has a step to take. */
  lemma ShutdownEnds(acts: seq<Action>, more: seq<Action>, id: nat)
    requires After(START, acts).Some? && After(START, acts).value.stopping && id in After(START, acts).value.runners
    requires After(After(START, acts).value, more).Some? && forall act <- more :: Undisturbed(act, id)
    ensures var a := After(START, acts).value; var b := After(a, more).value;
      && id in b.runners
      && Advancing(more, id) <= Ahead(a.runners[id].pc)
      && (!Handling(a.runners[id].pc) ==> Advancing(more, id) <= 7 + a.runners[id].settings.concurrency)
      && (!b.runners[id].pc.Done? ==> exists act :: Advances(act, id) && Enabled(b, act))
  {
    var a := After(START, acts).value;
    AlwaysOk(START, acts);
    if !Handling(a.runners[id].pc) {
      AheadBound(a, id);
    }
    RunAdvances(a, more, id);
    var b := After(a, more).value;
    if !b.runners[id].pc.Done? {
      NotStuck(b, id);
    }
  }

  /** A loop that goes on from outside a fetch, or leaves one without a batch, is out at once,
      with all its flags down. */
  lemma OutAtOnce(a: App, r: Runner)
    requires a.stopping && CanWake(a, r)
    requires r.pc.Top? || r.pc.WaitInflight? || r.pc.Sleep? || r.pc.PausePark? || r.pc.DrainPark? || r.pc == FetchExit([])
    ensures var r' := Wake(a, r).r; r'.pc.Finishing? && r'.flags == Flags(false, false, false) && r'.log == r.log
  {
  }
}
