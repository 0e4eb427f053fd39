/** No lost wakeup: waiters share one event that each of them clears, yet none stays
    blocked once its status holds. */
module Wakeups {
  import opened Wrappers
  import opened StopProtocol
  import opened StopSafety
  import opened StopClaims

  /** A blocked waiter finds the event clear and its status false; for a resume, only
      until shutdown is requested, which signals nothing. */
  ghost predicate Informed(a: App) {
    forall w <- a.waiters :: a.waiters[w].phase.Blocked? ==>
      !a.event && (!Status(a, a.waiters[w].topic) || (a.waiters[w].topic.OnResume? && a.stopping))
  }

  /** What the statuses can see of a runner. */
  predicate SameView(r: Runner, r': Runner) {
    && r'.settings == r.settings && r'.inflight == r.inflight && r'.flags == r.flags
  }

  predicate Silent(m: Moved, m': Moved) { !m'.notify ==> !m.notify && SameView(m.r, m'.r) }

  lemma SilentLoop(a: App, m: Moved)
    ensures Silent(m, LoopTop(a, m)) && Silent(m, BeginFetch(a, m)) && Silent(m, AfterEmptyFetch(a, m))
    ensures Silent(m, Exit(m))
  {
    SilentExit(m);
    SilentPark(m);
    SilentFetch(a, m);
    SilentFetch(a, SetDrainParked(m, false));
  }

  lemma SilentExit(m: Moved)
    ensures Silent(m, Exit(m))
  {
  }

  lemma SilentPark(m: Moved)
    ensures Silent(m, ParkForDrain(m)) && Silent(m, ParkForPause(m))
  {
  }

  lemma SilentFetch(a: App, m: Moved)
    ensures Silent(m, BeginFetch(a, m)) && Silent(m, AfterEmptyFetch(a, m))
  {
    SilentExit(m);
    SilentExit(SetPauseParked(m, false));
  }

  lemma SilentResolve(a: App, m: Moved, result: FetchResult, stopped: bool)
    ensures Silent(m, Resolve(a, m, result, stopped)) && Silent(m, ResolveHandling(m, result, 0))
  {
  }

  lemma SilentLeave(m: Moved)
    ensures Silent(m, LeaveFetch(m)) && Silent(m, LeaveFetch(Drop(m))) && Silent(m, Exit(Drop(m)))
    ensures Silent(m, At(SetFetching(Drop(m), false), FetchExit([])))
  {
    SilentExit(Drop(m));
  }

  lemma SilentInterrupt(r: Runner)
    ensures Silent(Moved(r, false), Interrupt(r))
  {
    var m := Moved(r.(log := r.log.(cancelled := true)), false);
    SilentLeave(m);
  }

  lemma SilentWake(a: App, r: Runner)
    requires CanWake(a, r)
    ensures Silent(Moved(r, false), Wake(a, r))
  {
    var m := Moved(r, false);
    match r.pc {
      case Fetching(_, result, stopSeen) =>
        if !stopSeen { SilentResolve(a, m, result.value, false); }
      case AwaitFetch(_, result, _, _) => SilentResolve(a, m, result.value, true);
      case CancelFetch(_, result, _, _) =>
        SilentLeave(m);
        SilentResolve(a, m, result.value, true);
      case Backoff(stopped, _) =>
        SilentLeave(m);
        SilentResolve(a, m, Got([]), stopped);
      case Releasing(_, _, _, _) => SilentLeave(m);
      case Emitting(batch) => assert r.inflight + [] == r.inflight;
      case _ => SilentLoop(a, m);
    }
  }

  /** A runner's step that signals nothing leaves every status as it is. */
  lemma SilentMove(a: App, act: Action, r: Runner)
    requires Enabled(a, act) && Target(act).Some? && r == a.runners[Target(act).value]
    ensures var m := Move(a, act, r); !m.notify ==> SameView(r, m.r)
  {
    match act {
      case Run(_) => SilentWake(a, r);
      case HookRaises(_) => SilentExit(Moved(r, false));
      case EmitRaises(_) => SilentExit(Drop(Moved(r.(log := r.log.(emitFailed := true)), false)));
      case Cancel(_) => SilentInterrupt(r);
      case _ =>
    }
  }

  lemma SameStatus(a: App, a': App, topic: Topic)
    requires a'.drainRequested == a.drainRequested && a'.pausedTasks == a.pausedTasks && a'.stopping == a.stopping
    requires a'.runners.Keys == a.runners.Keys
    requires forall i <- a.runners :: SameView(a.runners[i], a'.runners[i])
    ensures Status(a', topic) == Status(a, topic)
  {
    forall i | i in a.runners
      ensures Idle(a'.runners[i]) == Idle(a.runners[i]) && a'.runners[i].Task() == a.runners[i].Task()
    {
      assert SameView(a.runners[i], a'.runners[i]);
    }
    forall i | i in a'.runners ensures i in a.runners && SameView(a.runners[i], a'.runners[i]) {}
  }

  // ------------------------------------------------------------ stuck waiters

  predicate Sleeps(a: App, w: nat, topic: Topic) {
    w in a.waiters && a.waiters[w].phase.Blocked? && a.waiters[w].topic == topic
  }

  /** A blocked waiter finds the event clear, and never sleeps through its pause. */
  ghost predicate Sound(a: App) {
    forall w <- a.waiters :: a.waiters[w].phase.Blocked? ==>
      !a.event && !(a.waiters[w].topic.OnPause? && Status(a, a.waiters[w].topic))
  }

  ghost predicate StuckDrain(a: App) { Drained(a) && exists w :: Sleeps(a, w, OnDrain) }

  ghost predicate StuckResume(a: App) {
    !a.stopping && exists w, task :: Sleeps(a, w, OnResume(task)) && Resumed(a, task)
  }

  lemma InformedIff(a: App)
    ensures Informed(a) <==> Sound(a) && !StuckDrain(a) && !StuckResume(a)
  {
    if StuckDrain(a) {
      var w :| Sleeps(a, w, OnDrain);
      assert Status(a, a.waiters[w].topic);
    }
    if StuckResume(a) {
      var w, task :| Sleeps(a, w, OnResume(task)) && Resumed(a, task);
      assert Status(a, a.waiters[w].topic);
    }
    if Sound(a) && !StuckDrain(a) && !StuckResume(a) {
      forall w | w in a.waiters && a.waiters[w].phase.Blocked?
        ensures !Status(a, a.waiters[w].topic) || (a.waiters[w].topic.OnResume? && a.stopping)
      {
        match a.waiters[w].topic
        case OnDrain => assert Sleeps(a, w, OnDrain);
        case OnPause(task) =>
        case OnResume(task) => assert Sleeps(a, w, OnResume(task));
      }
    }
  }

  /** The steps that signal a change. */
  predicate Notifies(a: App, act: Action)
    requires Enabled(a, act)
  {
    if Target(act).Some? then Move(a, act, a.runners[Target(act).value]).notify
    else act.Announce? || act.RequestDrain? || act.RequestPause? || act.RequestResume? || act.Spawn?
  }

  /** After a signal nobody is blocked, whatever came before. */
  lemma SignalInforms(a: App, act: Action)
    requires Enabled(a, act) && Notifies(a, act)
    ensures Informed(Step(a, act)) && forall w <- Step(a, act).waiters :: !Step(a, act).waiters[w].phase.Blocked?
  {
    if Target(act).Some? {
      var id := Target(act).value;
      var m := Move(a, act, a.runners[id]);
      assert Step(a, act).waiters == Notify(a.(runners := a.runners[id := m.r])).waiters;
    }
  }

  /** Nothing a waiter can see has changed. */
  ghost predicate Unseen(a: App, a': App) {
    && a'.waiters == a.waiters && a'.stopping == a.stopping && (a'.event ==> a.event)
    && forall w <- a.waiters :: Status(a', a.waiters[w].topic) == Status(a, a.waiters[w].topic)
  }

  lemma UnseenKeeps(a: App, a': App)
    requires Unseen(a, a')
    ensures (Sound(a) ==> Sound(a')) && StuckDrain(a') == StuckDrain(a) && StuckResume(a') == StuckResume(a)
  {
    forall w, task | Sleeps(a, w, OnResume(task)) ensures Resumed(a', task) == Resumed(a, task) {
      assert Status(a', a.waiters[w].topic) == Status(a, a.waiters[w].topic);
    }
    forall w | Sleeps(a, w, OnDrain) ensures Drained(a') == Drained(a) {
      assert Status(a', a.waiters[w].topic) == Status(a, a.waiters[w].topic);
    }
    if StuckResume(a) {
      var w, task :| Sleeps(a, w, OnResume(task)) && Resumed(a, task);
      assert Sleeps(a', w, OnResume(task));
    }
    if StuckResume(a') {
      var w, task :| Sleeps(a', w, OnResume(task)) && Resumed(a', task);
      assert Sleeps(a, w, OnResume(task));
    }
    assert forall w :: Sleeps(a', w, OnDrain) == Sleeps(a, w, OnDrain);
  }

  lemma SilentMoveUnseen(a: App, act: Action)
    requires Enabled(a, act) && Target(act).Some? && !Notifies(a, act)
    ensures Unseen(a, Step(a, act))
  {
    var a' := Step(a, act);
    SilentMove(a, act, a.runners[Target(act).value]);
    StepRunners(a, act);
    forall w | w in a'.waiters ensures Status(a', a'.waiters[w].topic) == Status(a, a'.waiters[w].topic) {
      SameStatus(a, a', a'.waiters[w].topic);
    }
  }

  lemma ClearUnseen(a: App)
    ensures Unseen(a, Step(a, ClearEvent))
  {
    var a' := Step(a, ClearEvent);
    forall w | w in a'.waiters ensures Status(a', a'.waiters[w].topic) == Status(a, a'.waiters[w].topic) {
      SameStatus(a, a', a'.waiters[w].topic);
    }
  }

  /** A waiter that finds its status false clears the event and blocks; all others
      blocked saw it clear already. */
  lemma CheckKeeps(a: App, waiter: nat, topic: Topic)
    requires waiter !in a.waiters || !a.waiters[waiter].phase.Blocked?
    ensures var a' := Check(a, waiter, topic);
      (Sound(a) ==> Sound(a')) && StuckDrain(a') == StuckDrain(a) && StuckResume(a') == StuckResume(a)
  {
    var a' := Check(a, waiter, topic);
    forall t: Topic ensures Status(a', t) == Status(a, t) {
      SameStatus(a, a', t);
    }
    assert Status(a', OnDrain) == Status(a, OnDrain);
    forall w, t | Sleeps(a, w, t) ensures Sleeps(a', w, t) {}
    forall w, t | Sleeps(a', w, t) && Status(a, t) ensures Sleeps(a, w, t) {}
    CheckKeepsResume(a, a');
  }

  lemma CheckKeepsResume(a: App, a': App)
    requires a'.stopping == a.stopping && forall t: Topic :: Status(a', t) == Status(a, t)
    requires forall w, t :: Sleeps(a, w, t) ==> Sleeps(a', w, t)
    requires forall w, t :: Sleeps(a', w, t) && Status(a, t) ==> Sleeps(a, w, t)
    ensures StuckResume(a') == StuckResume(a) && StuckDrain(a') == StuckDrain(a)
  {
    assert Status(a', OnDrain) == Status(a, OnDrain);
    if StuckResume(a) {
      var w, task :| Sleeps(a, w, OnResume(task)) && Resumed(a, task);
      assert Sleeps(a', w, OnResume(task)) && Status(a', OnResume(task)) == Status(a, OnResume(task));
    }
    if StuckResume(a') {
      var w, task :| Sleeps(a', w, OnResume(task)) && Resumed(a', task);
      assert Status(a', OnResume(task)) == Status(a, OnResume(task)) && Sleeps(a, w, OnResume(task));
    }
  }

  /** A shutdown request signals nothing, but completes no drain and no pause, and from
      then on waiters for a resume are left to the shutdown. */
  lemma ShutdownKeeps(a: App)
    ensures var a' := Step(a, RequestShutdown);
      (Sound(a) ==> Sound(a')) && StuckDrain(a') == StuckDrain(a) && !StuckResume(a')
  {
    var a' := Step(a, RequestShutdown);
    assert forall w, t :: Sleeps(a', w, t) == Sleeps(a, w, t);
    assert Drained(a') == Drained(a);
  }

  // ----------------------------------------------------------------- restarts

  /** Without runner `i` the drain is complete. */
  ghost predicate LastForDrain(a: App, i: nat) {
    a.drainRequested && forall j <- a.runners :: j != i ==> Idle(a.runners[j]) && a.runners[j].flags.drainParked
  }

  /** Without runner `i`, and without a pause request, the task accepts work again. */
  ghost predicate LastForResume(a: App, i: nat, task: string) {
    !a.stopping && forall j <- a.runners :: j != i && a.runners[j].Task() == task ==> !a.runners[j].flags.pauseParked
  }

  ghost predicate StrandsDrain(a: App, i: nat) { LastForDrain(a, i) && exists w :: Sleeps(a, w, OnDrain) }

  ghost predicate StrandsResume(a: App, i: nat, task: string) {
    LastForResume(a, i, task) && exists w :: Sleeps(a, w, OnResume(task))
  }

  lemma UnregisteredStatus(a: App, i: nat, task: string)
    requires Enabled(a, Unregister(i, task))
    ensures var a' := Step(a, Unregister(i, task));
      && (Drained(a') <==> LastForDrain(a, i)) && !Paused(a', task)
      && (!a.stopping ==> (Resumed(a', task) <==> LastForResume(a, i, task)))
      && forall t :: t != task ==> Paused(a', t) == Paused(a, t) && Resumed(a', t) == Resumed(a, t)
  {
    var a' := Step(a, Unregister(i, task));
    assert forall j :: j in a'.runners <==> j in a.runners && j != i;
    assert forall j <- a'.runners :: a'.runners[j] == a.runners[j];
    forall t | t != task ensures Paused(a', t) == Paused(a, t) && Resumed(a', t) == Resumed(a, t) {
      assert IsPaused(a', t) == IsPaused(a, t) && a.runners[i].Task() == task;
    }
  }

  /** Dropping a runner strands exactly the drain waiters for whom it was the last one
      missing, and the waiters for a resume of its task that nothing else holds back; the
      waiters for a pause it leaves asleep rightly. */
  lemma UnregisterStrands(a: App, i: nat, task: string)
    requires Enabled(a, Unregister(i, task))
    ensures var a' := Step(a, Unregister(i, task));
      && (Sound(a) ==> Sound(a'))
      && (StuckDrain(a') <==> StuckDrain(a) || StrandsDrain(a, i))
      && (StuckResume(a') <==> StuckResume(a) || StrandsResume(a, i, task))
  {
    var a' := Step(a, Unregister(i, task));
    UnregisteredStatus(a, i, task);
    assert forall w, t :: Sleeps(a', w, t) == Sleeps(a, w, t);
    assert StuckDrain(a) ==> LastForDrain(a, i);
    ResumeStrands(a, a', i, task);
  }

  lemma ResumeStrands(a: App, a': App, i: nat, task: string)
    requires a'.stopping == a.stopping && forall w, t :: Sleeps(a', w, t) == Sleeps(a, w, t)
    requires !a.stopping ==> (Resumed(a', task) <==> LastForResume(a, i, task))
    requires forall t :: t != task ==> Resumed(a', t) == Resumed(a, t)
    ensures StuckResume(a') <==> StuckResume(a) || StrandsResume(a, i, task)
  {
    if StuckResume(a) {
      var w, t :| Sleeps(a, w, OnResume(t)) && Resumed(a, t);
      assert Sleeps(a', w, OnResume(t));
      assert t == task ==> LastForResume(a, i, task);
    }
    if StrandsResume(a, i, task) {
      var w :| Sleeps(a, w, OnResume(task));
      assert Sleeps(a', w, OnResume(task));
    }
    if StuckResume(a') {
      var w, t :| Sleeps(a', w, OnResume(t)) && Resumed(a', t);
      assert Sleeps(a, w, OnResume(t));
    }
  }

  /** So the first half of a restart keeps every waiter informed if and only if it strands
      none. */
  lemma UnregisterInformsIff(a: App, i: nat, task: string)
    requires Informed(a) && Enabled(a, Unregister(i, task))
    ensures Informed(Step(a, Unregister(i, task))) <==> !StrandsDrain(a, i) && !StrandsResume(a, i, task)
  {
    UnregisterStrands(a, i, task);
    InformedIff(a);
    InformedIff(Step(a, Unregister(i, task)));
  }

  // ------------------------------------------------------------- whole runs

  /** Is a drain waiter, or a waiter for a resume, stranded at present? */
  datatype Window = Window(drain: bool, resume: bool)

  const CLOSED := Window(false, false)

  /** Signals close the window, dropped runners may open it, and shutdown ends the wait
      for a resume. */
  ghost function NextWindow(a: App, act: Action, open: Window): Window
    requires Enabled(a, act)
  {
    if Notifies(a, act) then CLOSED
    else
      match act
      case Unregister(i, task) => Window(open.drain || StrandsDrain(a, i), open.resume || StrandsResume(a, i, task))
      case RequestShutdown => open.(resume := false)
      case _ => open
  }

  ghost function WindowAfter(a: App, acts: seq<Action>, open: Window): Window
    decreases |acts|
  {
    if acts == [] || !Enabled(a, acts[0]) then open
    else WindowAfter(Step(a, acts[0]), acts[1..], NextWindow(a, acts[0], open))
  }

  /** The window tells just who is stranded. */
  ghost predicate Tracks(a: App, open: Window) {
    Sound(a) && open.drain == StuckDrain(a) && open.resume == StuckResume(a)
  }

  lemma StepTracks(a: App, act: Action, open: Window)
    requires Tracks(a, open) && Enabled(a, act)
    ensures Tracks(Step(a, act), NextWindow(a, act, open))
  {
    var a' := Step(a, act);
    if Notifies(a, act) {
      SignalInforms(a, act);
      InformedIff(a');
    } else if Target(act).Some? {
      SilentMoveUnseen(a, act);
      UnseenKeeps(a, a');
    } else {
      match act
      case Wait(waiter, topic) => CheckKeeps(a, waiter, topic);
      case WaiterRuns(waiter) => CheckKeeps(a, waiter, a.waiters[waiter].topic);
      case ClearEvent =>
        ClearUnseen(a);
        UnseenKeeps(a, a');
      case RequestShutdown => ShutdownKeeps(a);
      case Unregister(i, task) => UnregisterStrands(a, i, task);
    }
  }

  lemma {:induction false} RunTracks(a: App, acts: seq<Action>, open: Window)
    requires Tracks(a, open)
    ensures var b := After(a, acts); b.Some? ==> Tracks(b.value, WindowAfter(a, acts, open))
    decreases |acts|
  {
    if acts != [] && Enabled(a, acts[0]) {
      StepTracks(a, acts[0], open);
      RunTracks(Step(a, acts[0]), acts[1..], NextWindow(a, acts[0], open));
    }
  }

  /** No lost wakeup, restarts included: in every run, each blocked waiter has no wake
      pending and sees a status that is still false, if and only if no dropped runner has
      stranded a waiter since the last signal. */
  lemma NoLostWakeupIff(acts: seq<Action>)
    ensures var b := After(START, acts);
      b.Some? ==> (Informed(b.value) <==> WindowAfter(START, acts, CLOSED) == CLOSED)
  {
    RunTracks(START, acts, CLOSED);
    var b := After(START, acts);
    if b.Some? {
      InformedIff(b.value);
    }
  }

  lemma {:induction false} WindowStaysClosed(a: App, acts: seq<Action>)
    requires forall act <- acts :: !act.Unregister?
    ensures WindowAfter(a, acts, CLOSED) == CLOSED
    decreases |acts|
  {
    if acts != [] && Enabled(a, acts[0]) {
      WindowStaysClosed(Step(a, acts[0]), acts[1..]);
    }
  }

  /** From any state in which waiters are informed they stay so without restarts. */
  lemma NoLostWakeup(a: App, acts: seq<Action>)
    requires Informed(a) && forall act <- acts :: !act.Unregister?
    ensures var b := After(a, acts); b.Some? ==> Informed(b.value)
  {
    InformedIff(a);
    RunTracks(a, acts, CLOSED);
    WindowStaysClosed(a, acts);
    var b := After(a, acts);
    if b.Some? {
      InformedIff(b.value);
    }
  }

  /** And whatever restarts came before, a signal after the last of them sets all right:
      the one with which a restart ends, for one. */
  lemma SignalEndsWindow(acts: seq<Action>, act: Action, more: seq<Action>, w: nat)
    requires After(START, acts).Some? && Enabled(After(START, acts).value, act)
    requires Notifies(After(START, acts).value, act) && forall x <- more :: !x.Unregister?
    ensures var b := After(Step(After(START, acts).value, act), more);
      b.Some? && w in b.value.waiters && Status(b.value, b.value.waiters[w].topic)
        && !(b.value.waiters[w].topic.OnResume? && b.value.stopping)
      ==> !b.value.waiters[w].phase.Blocked?
  {
    var a := After(START, acts).value;
    SignalInforms(a, act);
    NoLostWakeup(Step(a, act), more);
  }

  /** Draining with one loop not yet parked, and a caller waiting for the drain. */
  const WAITING: App :=
    App(false, true, {}, false, map[0 := Fresh("t", 1, true)], map[0 := Waiter(OnDrain, Blocked)], [])

  lemma WaitingReached()
    ensures After(START, [Spawn(0, "t", 1, true), RequestDrain, Wait(0, OnDrain)]) == Some(WAITING)
  {
    var a1 := Step(START, Spawn(0, "t", 1, true));
    assert a1.runners == map[0 := Fresh("t", 1, true)] && a1.waiters == map[];
    var a2 := Step(a1, RequestDrain);
    assert a2 == App(false, true, {}, true, map[0 := Fresh("t", 1, true)], map[], []);
    assert !a2.runners[0].flags.drainParked;
    var a3 := Step(a2, Wait(0, OnDrain));
    assert a3 == WAITING;
    var acts := [Spawn(0, "t", 1, true), RequestDrain, Wait(0, OnDrain)];
    assert acts[1..] == [RequestDrain, Wait(0, OnDrain)] && acts[1..][1..] == [Wait(0, OnDrain)];
    assert acts[1..][1..][1..] == [];
  }

  /** Cancelling the one runner of an app and letting it finish changes nothing else, and
      signals nothing, if the loop had not begun. */
  lemma CancelledAtStart(a: App) returns (b: App)
    requires a.runners == map[0 := Fresh("t", 1, true)]
    ensures After(a, [Cancel(0), Run(0)]) == Some(b)
    ensures exists r :: b == a.(runners := map[0 := r]) && r.pc == Done && r.settings.task == "t"
  {
    var r := Interrupt(Fresh("t", 1, true)).r;
    var a1 := Step(a, Cancel(0));
    assert a1.runners == map[0 := r];
    b := Step(a1, Run(0));
    assert b.runners == map[0 := r.(pc := Done)];
    assert [Cancel(0), Run(0)][1..] == [Run(0)] && [Run(0)][1..] == [];
  }

  lemma Unregistered(a: App) returns (b: App)
    requires a.runners == map[0 := Fresh("t", 1, true)]
    ensures After(a, [Cancel(0), Run(0), Unregister(0, "t")]) == Some(b)
    ensures b == a.(runners := map[], pausedTasks := a.pausedTasks - {"t"})
  {
    var c := CancelledAtStart(a);
    Extend(a, [Cancel(0), Run(0)], c, Unregister(0, "t"));
    assert [Cancel(0), Run(0)] + [Unregister(0, "t")] == [Cancel(0), Run(0), Unregister(0, "t")];
    b := Step(c, Unregister(0, "t"));
    assert b.runners == map[];
  }

  /** A restart drops its runner from the registry before anything is signalled: then a
      waiter is blocked although its status holds. */
  lemma RestartDelaysWaiter()
    ensures var b := After(WAITING, [Cancel(0), Run(0), Unregister(0, "t")]);
      b.Some? && 0 in b.value.waiters && b.value.waiters[0].phase.Blocked? && Drained(b.value)
  {
    var b := Unregistered(WAITING);
  }

  /** Paused, with a caller waiting for the resume of the task. */
  const PAUSED: App :=
    App(false, false, {"t"}, false, map[0 := Fresh("t", 1, true)], map[0 := Waiter(OnResume("t"), Blocked)], [])

  lemma PausedReached()
    ensures After(START, [Spawn(0, "t", 1, true), RequestPause("t"), Wait(0, OnResume("t"))]) == Some(PAUSED)
  {
    var a1 := Step(START, Spawn(0, "t", 1, true));
    assert a1.runners == map[0 := Fresh("t", 1, true)] && a1.waiters == map[];
    var a2 := Step(a1, RequestPause("t"));
    assert a2 == App(false, false, {"t"}, true, map[0 := Fresh("t", 1, true)], map[], []);
    var a3 := Step(a2, Wait(0, OnResume("t")));
    assert a3 == PAUSED;
    var acts := [Spawn(0, "t", 1, true), RequestPause("t"), Wait(0, OnResume("t"))];
    assert acts[1..] == [RequestPause("t"), Wait(0, OnResume("t"))] && acts[1..][1..] == [Wait(0, OnResume("t"))];
    assert acts[1..][1..][1..] == [];
  }

  /** The same of a waiter for a resume: the restart withdraws the pause unannounced. */
  lemma RestartDelaysResume()
    ensures var b := After(PAUSED, [Cancel(0), Run(0), Unregister(0, "t")]);
      b.Some? && 0 in b.value.waiters && b.value.waiters[0].phase.Blocked? && Resumed(b.value, "t") && !b.value.stopping
  {
    var b := Unregistered(PAUSED);
  }
}
