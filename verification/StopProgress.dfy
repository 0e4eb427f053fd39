/** Whether a requested drain or pause can complete: exactly when no loop it waits for has
    left, or is bound to leave. */
module StopProgress {
  import opened Wrappers
  import opened StopProtocol
  import opened StopSafety
  import opened StopClaims
  import opened StopBatches

  /** The task is held back: by a drain, or else by a pause. */
  predicate HeldBack(a: App, task: string) { !a.stopping && (a.drainRequested || task in a.pausedTasks) }

  /** The loop has parked for the reason that holds it back. */
  predicate ParkedFor(a: App, r: Runner) { if a.drainRequested then r.pc.DrainPark? else r.pc.PausePark? }

  /** The loop has left, or will leave with what its fetch gave. */
  predicate Lost(r: Runner) {
    || WayOut(r.pc)
    || match r.pc
       case Fetching(_, Some(result), _) => (result.Fatal? || result.Aborted?) && !r.settings.cancelSafe
       case AwaitFetch(_, Some(result), _, _) => result.Fatal? || result.Aborted?
       case _ => false
  }

  /** It cannot park for what holds it back: it is lost, or parked for a drain that is not
      asked for. */
  predicate Gone(a: App, r: Runner) { Lost(r) || (r.pc.DrainPark? && !a.drainRequested) }

  /** A bound on the steps to parking. */
  function Distance(a: App, r: Runner): nat {
    if ParkedFor(a, r) then 0 else |r.inflight| + StepsAt(r.pc)
  }

  function StepsAt(pc: Pc): nat {
    match pc
    case ResumeHook => 3
    case Fetching(_, None, _) => 14
    case Fetching(_, Some(result), stopSeen) => 10 + |Batch(Some(result))| + if stopSeen then 0 else 1
    case AwaitFetch(_, None, _, _) => 8
    case AwaitFetch(_, Some(result), _, _) => 7 + |Batch(Some(result))|
    case CancelFetch(_, None, _, _) => 5
    case CancelFetch(_, Some(_), _, _) => 4
    case Backoff(_, _) => 6
    case Releasing(batch, next, _, _) => 4 + if next <= |batch| then |batch| - next else 0
    case FetchExit(batch) => if batch == [] then 3 else 4 + |batch|
    case Emitting(batch) => 3 + |batch|
    case _ => 1
  }

  /** Steps of a loop's own, of its handlers and of its source, none of them a failure. */
  predicate Helps(act: Action, id: nat) {
    act == Run(id) || act == SeeStop(id) || (act.HandlerEnds? && act.id == id)
    || (act.FetchReturns? && act.id == id && !act.result.Fatal?)
  }

  // ------------------------------------------------------------- the next step

  /** The step that brings a loop closer to parking. */
  function NextStep(a: App, r: Runner, id: nat): Action {
    match r.pc
    case Fetching(_, None, _) => FetchReturns(id, Got([]))
    case Fetching(_, Some(result), stopSeen) =>
      if !stopSeen && (result.Fatal? || result.Aborted?) then SeeStop(id) else Run(id)
    case AwaitFetch(_, None, _, _) => FetchReturns(id, Got([]))
    case CancelFetch(_, None, _, _) => FetchReturns(id, Got([]))
    case Top => if r.inflight != [] then HandlerEnds(id, 0) else Run(id)
    case WaitInflight => if r.inflight != [] then HandlerEnds(id, 0) else Run(id)
    case Sleep => if r.inflight != [] then HandlerEnds(id, 0) else Run(id)
    case _ => Run(id)
  }

  predicate AtHead(pc: Pc) { pc.Top? || pc.WaitInflight? || pc.Sleep? || pc.PausePark? }

  lemma HeadParks(a: App, r: Runner)
    requires HeldBack(a, r.Task()) && AtHead(r.pc) && r.inflight == []
    ensures CanWake(a, r) && ParkedFor(a, Wake(a, r).r)
  {
  }

  lemma HandlerStep(a: App, id: nat, r: Runner)
    requires id in a.runners && r == a.runners[id] && r.inflight != []
    ensures Enabled(a, HandlerEnds(id, 0)) && Move(a, HandlerEnds(id, 0), r).r == r.(inflight := r.inflight[1..])
  {
    assert RemoveAt(r.inflight, 0) == r.inflight[1..];
  }

  lemma HookStep(a: App, r: Runner)
    requires HeldBack(a, r.Task()) && r.pc.ResumeHook?
    ensures var r' := Wake(a, r).r; (r'.pc.Sleep? || r'.pc.WaitInflight?) && r'.inflight == r.inflight
  {
  }

  lemma FetchStep(a: App, r: Runner)
    requires HeldBack(a, r.Task()) && !Gone(a, r) && r.pc.Fetching? && r.pc.result.Some?
    requires r.pc.stopSeen || !(r.pc.result.value.Fatal? || r.pc.result.value.Aborted?)
    ensures var r' := Wake(a, r).r;
      !Gone(a, r') && Distance(a, r') < Distance(a, r) && r'.settings == r.settings
  {
  }

  lemma AwaitStep(a: App, r: Runner)
    requires HeldBack(a, r.Task()) && !Gone(a, r) && r.pc.AwaitFetch? && r.pc.result.Some?
    ensures var r' := Wake(a, r).r;
      !Gone(a, r') && Distance(a, r') < Distance(a, r) && r'.settings == r.settings
  {
  }

  lemma CancelStep(a: App, r: Runner)
    requires HeldBack(a, r.Task()) && !Gone(a, r) && r.pc.CancelFetch? && r.pc.result.Some?
    ensures var r' := Wake(a, r).r;
      !Gone(a, r') && Distance(a, r') < Distance(a, r) && r'.settings == r.settings
  {
  }

  lemma ReleaseStep(a: App, r: Runner)
    requires HeldBack(a, r.Task()) && !Gone(a, r) && (r.pc.Releasing? || r.pc.Backoff?) && PcOk(r.pc)
    ensures var r' := Wake(a, r).r;
      !Gone(a, r') && Distance(a, r') < Distance(a, r) && r'.settings == r.settings
  {
  }

  lemma ExitStep(a: App, r: Runner)
    requires HeldBack(a, r.Task()) && (r.pc.FetchExit? || r.pc.Emitting?) && PcOk(r.pc)
    ensures var r' := Wake(a, r).r;
      !Gone(a, r') && Distance(a, r') < Distance(a, r) && r'.settings == r.settings
  {
  }

  /** A loop that is held back and not gone has a step that brings it closer. */
  lemma Closer(a: App, id: nat, r: Runner)
    requires id in a.runners && r == a.runners[id] && HeldBack(a, r.Task()) && PcOk(r.pc)
    requires !Gone(a, r) && !ParkedFor(a, r) && (r.pc.PausePark? ==> r.inflight == [])
    ensures var act := NextStep(a, r, id);
      && Helps(act, id) && Enabled(a, act)
      && var r' := Move(a, act, r).r;
         !Gone(a, r') && Distance(a, r') < Distance(a, r) && r'.settings == r.settings
  {
    match r.pc {
      case Top => HeadCloser(a, id, r);
      case WaitInflight => HeadCloser(a, id, r);
      case Sleep => HeadCloser(a, id, r);
      case PausePark => HeadCloser(a, id, r);
      case ResumeHook => HookStep(a, r);
      case Fetching(_, result, stopSeen) =>
        if result.Some? && (stopSeen || !(result.value.Fatal? || result.value.Aborted?)) {
          FetchStep(a, r);
        }
      case AwaitFetch(_, result, _, _) =>
        if result.Some? { AwaitStep(a, r); }
      case CancelFetch(_, result, _, _) =>
        if result.Some? { CancelStep(a, r); }
      case Backoff(_, _) => ReleaseStep(a, r);
      case Releasing(_, _, _, _) => ReleaseStep(a, r);
      case FetchExit(_) => ExitStep(a, r);
      case Emitting(_) => ExitStep(a, r);
    }
  }

  lemma HeadCloser(a: App, id: nat, r: Runner)
    requires id in a.runners && r == a.runners[id] && HeldBack(a, r.Task())
    requires AtHead(r.pc) && !ParkedFor(a, r) && (r.pc.PausePark? ==> r.inflight == [])
    ensures var act := NextStep(a, r, id);
      && Helps(act, id) && Enabled(a, act)
      && var r' := Move(a, act, r).r;
         !Gone(a, r') && Distance(a, r') < Distance(a, r) && r'.settings == r.settings
  {
    if r.inflight != [] {
      HandlerStep(a, id, r);
    } else {
      HeadParks(a, r);
    }
  }

  // ------------------------------------------------------------- one loop parks

  /** The requests, which steps of runners do not touch. */
  predicate SameRequests(a: App, b: App) {
    b.stopping == a.stopping && b.drainRequested == a.drainRequested && b.pausedTasks == a.pausedTasks
  }

  lemma StepAlone(a: App, act: Action, id: nat)
    requires Enabled(a, act) && Target(act) == Some(id)
    ensures var a' := Step(a, act);
      SameRequests(a, a') && a'.runners == a.runners[id := Move(a, act, a.runners[id]).r]
  {
    StepRunners(a, act);
  }

  lemma SameDistance(a: App, b: App, r: Runner)
    requires SameRequests(a, b)
    ensures Gone(b, r) == Gone(a, r) && Distance(b, r) == Distance(a, r)
    ensures ParkedFor(b, r) == ParkedFor(a, r) && HeldBack(b, r.Task()) == HeldBack(a, r.Task())
  {
  }

  lemma {:induction false} Parks(a: App, id: nat) returns (acts: seq<Action>, b: App)
    requires Ok(a) && id in a.runners && HeldBack(a, a.runners[id].Task()) && !Gone(a, a.runners[id])
    ensures (forall act <- acts :: Helps(act, id)) && After(a, acts) == Some(b) && Ok(b) && SameRequests(a, b)
    ensures id in b.runners && b.runners == a.runners[id := b.runners[id]]
    ensures ParkedFor(b, b.runners[id]) && b.runners[id].settings == a.runners[id].settings
    decreases Distance(a, a.runners[id])
  {
    var r := a.runners[id];
    if ParkedFor(a, r) {
      acts, b := [], a;
      assert b.runners == a.runners[id := b.runners[id]];
    } else {
      assert RunnerOk(r);
      Closer(a, id, r);
      var act := NextStep(a, r, id);
      var a' := Step(a, act);
      StepAlone(a, act, id);
      StepKeepsOk(a, act);
      SameDistance(a, a', a'.runners[id]);
      var rest, c := Parks(a', id);
      acts, b := [act] + rest, c;
      assert acts[0] == act && acts[1..] == rest;
    }
  }

  lemma {:induction false} AfterBoth(a: App, acts: seq<Action>, more: seq<Action>)
    requires After(a, acts).Some?
    ensures After(a, acts + more) == After(After(a, acts).value, more)
    decreases |acts|
  {
    if acts == [] {
      assert [] + more == more;
    } else {
      AfterBoth(Step(a, acts[0]), acts[1..], more);
      assert (acts + more)[0] == acts[0] && (acts + more)[1..] == acts[1..] + more;
    }
  }

  // --------------------------------------------------------------- all of them

  /** Nothing but what runners, handlers and sources do. */
  ghost predicate Natural(act: Action) { exists id :: Helps(act, id) }

  /** From `a` to `b` the loops of `ids` have parked, and nothing else has changed. */
  ghost predicate ParkedAll(a: App, b: App, ids: set<nat>) {
    && SameRequests(a, b) && b.runners.Keys == a.runners.Keys
    && (forall id <- a.runners :: b.runners[id].settings == a.runners[id].settings)
    && (forall id <- ids :: id in b.runners && ParkedFor(b, b.runners[id]))
    && forall id <- a.runners :: id !in ids ==> b.runners[id] == a.runners[id]
  }

  lemma ParkedThen(a: App, c: App, b: App, id: nat, ids: set<nat>)
    requires id in ids && id in a.runners && id in c.runners && SameRequests(a, c)
    requires c.runners == a.runners[id := c.runners[id]] && c.runners[id].settings == a.runners[id].settings
    requires ParkedFor(c, c.runners[id]) && ParkedAll(c, b, ids - {id})
    ensures ParkedAll(a, b, ids)
  {
    SameDistance(c, b, c.runners[id]);
    assert b.runners[id] == c.runners[id];
  }

  /** All loops of `ids` park, one after the other. */
  lemma {:induction false} AllPark(a: App, ids: set<nat>) returns (acts: seq<Action>, b: App)
    requires Ok(a) && ids <= a.runners.Keys
    requires forall id <- ids :: HeldBack(a, a.runners[id].Task()) && !Gone(a, a.runners[id])
    ensures (forall act <- acts :: Natural(act)) && After(a, acts) == Some(b) && Ok(b) && ParkedAll(a, b, ids)
    decreases ids
  {
    if ids == {} {
      acts, b := [], a;
    } else {
      var id :| id in ids;
      var first, c := Parks(a, id);
      forall i | i in ids - {id} ensures HeldBack(c, c.runners[i].Task()) && !Gone(c, c.runners[i]) {
        SameDistance(a, c, a.runners[i]);
      }
      var rest, d := AllPark(c, ids - {id});
      acts, b := first + rest, d;
      AfterBoth(a, first, rest);
      ParkedThen(a, c, d, id, ids);
      NaturalBoth(first, rest, id);
    }
  }

  lemma NaturalBoth(first: seq<Action>, rest: seq<Action>, id: nat)
    requires (forall act <- first :: Helps(act, id)) && (forall act <- rest :: Natural(act))
    ensures forall act <- first + rest :: Natural(act)
  {
    forall act | act in first + rest ensures Natural(act) {
      if act in first {
        assert Helps(act, id);
      }
    }
  }

  // -------------------------------------------------------------- the lost stay

  /** Lost, or parked for a drain. */
  predicate NoPause(r: Runner) { Lost(r) || r.pc.DrainPark? }

  lemma LostMove(a: App, act: Action, r: Runner)
    requires Enabled(a, act) && Target(act).Some? && r == a.runners[Target(act).value]
    ensures var r' := Move(a, act, r).r;
      (Lost(r) ==> Lost(r')) && (NoPause(r) ==> NoPause(r') && r'.settings == r.settings)
  {
    if WayOut(r.pc) {
      WayOutStep(a, act, r);
      WayOutSettings(a, act, r);
    } else if r.pc.DrainPark? {
      DrainedMove(a, act, r);
    } else if Lost(r) {
      FatalMove(a, act, r);
    }
  }

  lemma WayOutSettings(a: App, act: Action, r: Runner)
    requires Enabled(a, act) && Target(act).Some? && r == a.runners[Target(act).value] && WayOut(r.pc)
    ensures Move(a, act, r).r.settings == r.settings
  {
    ExitRecord(Moved(r, false));
    ExitRecord(Drop(Moved(r.(log := r.log.(cancelled := true)), false)));
  }

  lemma DrainedMove(a: App, act: Action, r: Runner)
    requires Enabled(a, act) && Target(act).Some? && r == a.runners[Target(act).value] && r.pc.DrainPark?
    ensures var r' := Move(a, act, r).r; NoPause(r') && r'.settings == r.settings
  {
    ExitRecord(Moved(r, false));
    ExitRecord(Drop(Moved(r.(log := r.log.(cancelled := true)), false)));
  }

  lemma FatalMove(a: App, act: Action, r: Runner)
    requires Enabled(a, act) && Target(act).Some? && r == a.runners[Target(act).value] && Lost(r) && !WayOut(r.pc)
    ensures var r' := Move(a, act, r).r; Lost(r') && r'.settings == r.settings
  {
  }

  predicate NoRestart(acts: seq<Action>) { forall act <- acts :: !act.Unregister? }

  ghost predicate AllNatural(acts: seq<Action>) { forall act <- acts :: Natural(act) }

  predicate Keeps(act: Action, id: nat) { !(act.Unregister? && act.id == id) }

  lemma {:induction false} LostStays(a: App, acts: seq<Action>, id: nat)
    requires id in a.runners && (forall act <- acts :: Keeps(act, id)) && After(a, acts).Some?
    ensures var b := After(a, acts).value;
      && id in b.runners
      && (Lost(a.runners[id]) ==> Lost(b.runners[id]))
      && (NoPause(a.runners[id]) ==> NoPause(b.runners[id]) && b.runners[id].Task() == a.runners[id].Task())
    decreases |acts|
  {
    if acts != [] {
      assert Keeps(acts[0], id) && forall act <- acts[1..] :: act in acts;
      StepRunners(a, acts[0]);
      if Target(acts[0]) == Some(id) {
        LostMove(a, acts[0], a.runners[id]);
      }
      LostStays(Step(a, acts[0]), acts[1..], id);
    }
  }

  // ------------------------------------------------------------------ the theorems

  /** A drain that was asked for can complete without a restart, in every reachable state
      before shutdown, if and only if no registered loop has left or is bound to leave; and
      then runners, handlers and sources alone can bring it about. */
  lemma DrainCompletesIff(acts: seq<Action>)
    requires After(START, acts).Some?
    requires After(START, acts).value.drainRequested && !After(START, acts).value.stopping
    ensures var a := After(START, acts).value;
      (exists more: seq<Action> :: NoRestart(more) && After(a, more).Some? && Drained(After(a, more).value))
      <==> forall id <- a.runners :: !Lost(a.runners[id])
    ensures var a := After(START, acts).value;
      (forall id <- a.runners :: !Lost(a.runners[id])) ==>
        exists more: seq<Action> :: AllNatural(more) && After(a, more).Some? && Drained(After(a, more).value)
  {
    var a := After(START, acts).value;
    AlwaysOk(START, acts);
    if forall id <- a.runners :: !Lost(a.runners[id]) {
      var more, b := AllPark(a, a.runners.Keys);
      DrainedWhenParked(a, b);
      forall act | act in more ensures !act.Unregister? {
        var id :| Helps(act, id);
      }
    }
    if more: seq<Action> :| NoRestart(more) && After(a, more).Some? && Drained(After(a, more).value) {
      forall id | id in a.runners ensures !Lost(a.runners[id]) {
        LostStays(a, more, id);
        AlwaysOk(a, more);
        assert RunnerOk(After(a, more).value.runners[id]);
      }
    }
  }

  lemma DrainedWhenParked(a: App, b: App)
    requires a.drainRequested && SameRequests(a, b) && Ok(b) && b.runners.Keys == a.runners.Keys
    requires forall id <- a.runners.Keys :: ParkedFor(b, b.runners[id])
    ensures Drained(b)
  {
    forall id | id in b.runners ensures Idle(b.runners[id]) && b.runners[id].flags.drainParked {
      assert ParkedFor(b, b.runners[id]) && RunnerOk(b.runners[id]);
    }
  }

  function OfTask(a: App, task: string): set<nat> { set id | id in a.runners && a.runners[id].Task() == task }

  /** The same of a pause, while no drain is asked for: it can complete without a restart if
      and only if no loop of the task has left or is bound to. */
  lemma PauseCompletesIff(acts: seq<Action>, task: string)
    requires After(START, acts).Some?
    requires var a := After(START, acts).value; task in a.pausedTasks && !a.drainRequested && !a.stopping
    ensures var a := After(START, acts).value;
      (exists more: seq<Action> :: NoRestart(more) && After(a, more).Some? && Paused(After(a, more).value, task))
      <==> forall id <- OfTask(a, task) :: !NoPause(a.runners[id])
    ensures var a := After(START, acts).value;
      (forall id <- OfTask(a, task) :: !NoPause(a.runners[id])) ==>
        exists more: seq<Action> :: AllNatural(more) && After(a, more).Some? && Paused(After(a, more).value, task)
  {
    var a := After(START, acts).value;
    AlwaysOk(START, acts);
    if forall id <- OfTask(a, task) :: !NoPause(a.runners[id]) {
      var more, b := AllPark(a, OfTask(a, task));
      PausedWhenParked(a, b, task);
      forall act | act in more ensures !act.Unregister? {
        var id :| Helps(act, id);
      }
    }
    if more: seq<Action> :| NoRestart(more) && After(a, more).Some? && Paused(After(a, more).value, task) {
      forall id | id in OfTask(a, task) ensures !NoPause(a.runners[id]) {
        LostStays(a, more, id);
        AlwaysOk(a, more);
        assert RunnerOk(After(a, more).value.runners[id]);
      }
    }
  }

  lemma PausedWhenParked(a: App, b: App, task: string)
    requires task in a.pausedTasks && !a.drainRequested && !a.stopping && SameRequests(a, b) && Ok(b)
    requires b.runners.Keys == a.runners.Keys && forall id <- a.runners :: b.runners[id].settings == a.runners[id].settings
    requires forall id <- OfTask(a, task) :: ParkedFor(b, b.runners[id])
    ensures Paused(b, task)
  {
    forall id | id in b.runners && b.runners[id].Task() == task
      ensures Idle(b.runners[id]) && b.runners[id].flags.pauseParked
    {
      assert id in OfTask(a, task) && ParkedFor(b, b.runners[id]) && RunnerOk(b.runners[id]);
    }
  }
}
