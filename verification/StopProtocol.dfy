/** The stop protocol of runner loops: drain, pause, resume, restart and shutdown
    requests against loops that fetch, start, release and wait.

    A step is what one coroutine does between two awaits; requests and completions may
    fall between any two steps.  A loop about to run its head (`Top`) counts as waiting,
    which only adds interleavings. */
module StopProtocol {
  import opened Wrappers

  type Delivery = nat

  /** How a fetch ends; `Aborted` if by its own cancellation. */
  datatype FetchResult = Got(batch: seq<Delivery>) | Retryable | Fatal | Aborted

  /** Where a loop is suspended, with what it holds there.  `handling` tells the awaits of
      a cancelled fetch's handler, after which the loop is left, from the ordinary ones. */
  datatype Pc =
    | Top
    | WaitInflight
    | DrainPark
    | PausePark
    | ResumeHook
    | Fetching(limit: nat, result: Option<FetchResult>, stopSeen: bool)
    // the fetch is let finish; `aborted` if a cancellation was passed on to it
    | AwaitFetch(limit: nat, result: Option<FetchResult>, aborted: bool, handling: bool)
    // the fetch was cancelled; `interrupted` if its loop was too, after that
    | CancelFetch(limit: nat, result: Option<FetchResult>, interrupted: bool, handling: bool)
    // a degraded fetch waits before giving nothing
    | Backoff(stopped: bool, handling: bool)
    // gives back `batch` from `next` on, of which the first `past` have been given back before
    | Releasing(batch: seq<Delivery>, next: nat, past: nat, handling: bool)
    | FetchExit(batch: seq<Delivery>)
    | FetchFailed
    | Emitting(batch: seq<Delivery>)
    | Sleep
    | Finishing
    | Done

  datatype Settings = Settings(task: string, concurrency: nat, cancelSafe: bool)

  datatype Flags = Flags(fetching: bool, drainParked: bool, pauseParked: bool)

  /** What became of the deliveries the fetches of one runner returned, `repeated` being
      those released once more; was the runner cancelled, and did reporting a fetched
      batch raise? */
  datatype Log = Log(claimed: seq<Delivery>, started: seq<Delivery>, released: seq<Delivery>, lost: seq<Delivery>,
                     repeated: seq<Delivery>, cancelled: bool, emitFailed: bool)

  /** One runner: its settings, in-flight handlers and flags, and where its loop waits. */
  datatype Runner = Runner(
    settings: Settings,
    inflight: seq<Delivery>,
    flags: Flags,
    pc: Pc,
    log: Log)
  {
    function Task(): string { settings.task }

    function Available(): int { settings.concurrency - |inflight| }
  }

  datatype Topic = OnDrain | OnPause(task: string) | OnResume(task: string)

  datatype Phase = Blocked | Woken | Returned

  datatype Waiter = Waiter(topic: Topic, phase: Phase)

  datatype App = App(
    stopping: bool,
    drainRequested: bool,
    pausedTasks: set<string>,
    event: bool,                         // the one shared runner-state event
    runners: map<nat, Runner>,
    waiters: map<nat, Waiter>,
    handed: seq<(string, Delivery)>)     // every delivery handed to a handler, with its task

  predicate IsDraining(a: App) { a.drainRequested && !a.stopping }

  predicate IsPaused(a: App, task: string) { task in a.pausedTasks && !a.stopping }

  predicate StopFetching(a: App, task: string) { a.stopping || IsDraining(a) || IsPaused(a, task) }

  function Fresh(task: string, concurrency: nat, cancelSafe: bool): Runner {
    Runner(Settings(task, concurrency, cancelSafe), [], Flags(false, false, false), Top, Log([], [], [], [], [], false, false))
  }

  // -------------------------------------------------------------- statuses

  predicate Idle(r: Runner) { r.inflight == [] && !r.flags.fetching }

  /** `drain_status()["drained"]`. */
  ghost predicate Drained(a: App) {
    a.drainRequested && forall i <- a.runners :: Idle(a.runners[i]) && a.runners[i].flags.drainParked
  }

  /** `task_pause_status(task)["paused"]`. */
  ghost predicate Paused(a: App, task: string) {
    IsPaused(a, task) &&
    forall i <- a.runners :: a.runners[i].Task() == task ==> Idle(a.runners[i]) && a.runners[i].flags.pauseParked
  }

  /** `task_resume_status(task)["accepting_new_work"]`. */
  ghost predicate Resumed(a: App, task: string) {
    !IsPaused(a, task) &&
    forall i <- a.runners :: a.runners[i].Task() == task ==> !a.runners[i].flags.pauseParked
  }

  ghost predicate Status(a: App, topic: Topic) {
    match topic
    case OnDrain => Drained(a)
    case OnPause(task) => Paused(a, task)
    case OnResume(task) => Resumed(a, task)
  }

  // ------------------------------------------------------ one runner's steps

  /** A runner after part of a step, and whether the part signalled a change. */
  datatype Moved = Moved(r: Runner, notify: bool)

  function SetFetching(m: Moved, value: bool): Moved {
    if m.r.flags.fetching == value then m else Moved(m.r.(flags := m.r.flags.(fetching := value)), true)
  }

  function SetDrainParked(m: Moved, value: bool): Moved {
    if m.r.flags.drainParked == value then m else Moved(m.r.(flags := m.r.flags.(drainParked := value)), true)
  }

  function SetPauseParked(m: Moved, value: bool): Moved {
    if m.r.flags.pauseParked == value then m else Moved(m.r.(flags := m.r.flags.(pauseParked := value)), true)
  }

  function At(m: Moved, pc: Pc): Moved { m.(r := m.r.(pc := pc)) }

  /** The `finally` of the loop: flags down, then wait for the handlers. */
  function Exit(m: Moved): Moved {
    At(SetFetching(SetPauseParked(SetDrainParked(m, false), false), false), Finishing)
  }

  /** A loop told to drain or pause parks once its handlers are done. */
  function ParkForDrain(m: Moved): Moved {
    if m.r.inflight != [] then At(m, WaitInflight)
    else At(SetDrainParked(SetPauseParked(m, false), true), DrainPark)
  }

  function ParkForPause(m: Moved): Moved {
    if m.r.inflight != [] then At(m, WaitInflight)
    else At(SetPauseParked(SetDrainParked(m, false), true), PausePark)
  }

  /** From the loop head to the next await. */
  function LoopTop(a: App, m: Moved): Moved {
    if a.stopping then Exit(m)
    else if IsDraining(a) then ParkForDrain(m)
    else if IsPaused(a, m.r.Task()) then ParkForPause(m)
    else if m.r.flags.pauseParked then At(SetDrainParked(m, false), ResumeHook)
    else BeginFetch(a, SetDrainParked(m, false))
  }

  /** After the resume hook, up to the await inside the fetch. */
  function BeginFetch(a: App, m: Moved): Moved {
    var m1 := SetPauseParked(m, false);
    if m1.r.Available() <= 0 then At(m1, WaitInflight)
    else if StopFetching(a, m1.r.Task()) then AfterEmptyFetch(a, m1)
    else At(SetFetching(m1, true), Fetching(m1.r.Available(), None, false))
  }

  function AfterEmptyFetch(a: App, m: Moved): Moved {
    if a.stopping then Exit(m)
    else if m.r.inflight != [] then At(m, WaitInflight)
    else At(m, Sleep)
  }

  /** A resolved fetch: release on a stop, hand on otherwise. */
  function Resolve(a: App, m: Moved, result: FetchResult, stopped: bool): Moved {
    match result
    case Fatal => LeaveFetch(m)
    case Aborted => LeaveFetch(m)
    case Retryable => At(m, Backoff(stopped, false))
    case Got(batch) => Deliver(a, m, batch, stopped)
  }

  /** An exception leaves the fetch, and then the loop. */
  function LeaveFetch(m: Moved): Moved { At(SetFetching(m, false), FetchFailed) }

  /** The handler of a cancellation takes up what the fetch gave, to release all of it,
      though the first `past` deliveries have been released. */
  function ResolveHandling(m: Moved, result: FetchResult, past: nat): Moved {
    match result
    case Got(batch) => At(m, Releasing(batch, 0, past, true))
    case Retryable => At(m, Backoff(true, true))
    case _ => LeaveFetch(m)
  }

  function Deliver(a: App, m: Moved, batch: seq<Delivery>, stopped: bool): Moved {
    if stopped || StopFetching(a, m.r.Task()) then At(m, Releasing(batch, 0, 0, false))
    else At(SetFetching(m, false), FetchExit(batch))
  }

  /** What wakes a loop: its own await ends. */
  predicate CanWake(a: App, r: Runner) {
    match r.pc
    case Fetching(_, result, stopSeen) => result.Some? || stopSeen
    case AwaitFetch(_, result, _, _) => result.Some?
    case CancelFetch(_, result, _, _) => result.Some?
    case DrainPark => a.stopping
    case Done => false
    case _ => true
  }

  /** The await of `r` ends and its loop runs to the next one. */
  function Wake(a: App, r: Runner): Moved
    requires CanWake(a, r)
  {
    var m := Moved(r, false);
    match r.pc
    case Top => LoopTop(a, m)
    case WaitInflight => LoopTop(a, m)
    case Sleep => LoopTop(a, m)
    case PausePark => LoopTop(a, m)
    case DrainPark => Exit(m)
    case ResumeHook => BeginFetch(a, m)
    case Fetching(limit, result, stopSeen) =>
      if !stopSeen then Resolve(a, m, result.value, false)
      else if r.settings.cancelSafe then At(m, CancelFetch(limit, result, false, false))
      else At(m, AwaitFetch(limit, result, false, false))
    case AwaitFetch(_, result, _, handling) =>
      if handling then ResolveHandling(m, result.value, 0) else Resolve(a, m, result.value, true)
    case CancelFetch(_, result, interrupted, handling) =>
      if interrupted then ResolveHandling(m, result.value, 0)
      else if handling then LeaveFetch(Drop(m))
      else At(SetFetching(Drop(m), false), FetchExit([]))
    case Backoff(stopped, handling) => if handling then LeaveFetch(m) else Deliver(a, m, [], stopped)
    case Releasing(_, _, _, _) => Release(m)
    case FetchExit(batch) => if batch == [] then AfterEmptyFetch(a, m) else At(m, Emitting(batch))
    case FetchFailed => Exit(m)
    case Emitting(batch) =>
      At(Moved(r.(inflight := r.inflight + batch, log := r.log.(started := r.log.started + batch)), batch != []), Top)
    case Finishing => At(m, Done)
  }

  /** One release ends, and the next begins. */
  function Release(m: Moved): Moved
    requires m.r.pc.Releasing?
  {
    var Releasing(batch, next, past, handling) := m.r.pc;
    if next >= |batch| then
      if handling then LeaveFetch(m) else At(SetFetching(m, false), FetchExit([]))
    else At(m.(r := Released(m.r, batch[next], next < past)), Releasing(batch, next + 1, past, handling))
  }

  function Released(r: Runner, d: Delivery, again: bool): Runner {
    if again then r.(log := r.log.(repeated := r.log.repeated + [d]))
    else r.(log := r.log.(released := r.log.released + [d]))
  }

  /** A cancellation reaches the loop at its await.  Inside a fetch it is handled: a
      cancel-safe fetch that has not ended is cancelled, any other is let finish and its
      batch released.  A second one cuts the handler short. */
  function Interrupt(r: Runner): Moved {
    var m := Moved(r.(log := r.log.(cancelled := true)), false);
    match r.pc
    case Fetching(limit, result, _) =>
      if result.Some? then ResolveHandling(m, result.value, 0)
      else if r.settings.cancelSafe then At(m, CancelFetch(limit, None, false, true))
      else At(m, AwaitFetch(limit, None, false, true))
    case AwaitFetch(limit, result, _, handling) =>
      if result.None? then At(m, AwaitFetch(limit, None, true, handling))
      else if handling then LeaveFetch(Drop(m))
      else ResolveHandling(m, result.value, 0)
    case CancelFetch(limit, result, _, handling) =>
      if result.None? then At(m, CancelFetch(limit, None, !handling, handling))
      else if handling then LeaveFetch(Drop(m))
      else ResolveHandling(m, result.value, 0)
    case Backoff(_, handling) => if handling then LeaveFetch(m) else At(m, Backoff(true, true))
    case Releasing(batch, next, _, handling) =>
      if handling then LeaveFetch(Drop(m)) else At(m, Releasing(batch, 0, next, true))
    case _ => Exit(Drop(m))
  }

  /** What the loop holds reaches nobody. */
  function Drop(m: Moved): Moved { m.(r := Lose(m.r, Held(m.r.pc))) }

  function Lose(r: Runner, batch: seq<Delivery>): Runner { r.(log := r.log.(lost := r.log.lost + batch)) }

  function Batch(result: Option<FetchResult>): seq<Delivery> {
    if result.Some? && result.value.Got? then result.value.batch else []
  }

  /** Deliveries claimed from the source and not yet started or released. */
  function Held(pc: Pc): seq<Delivery> {
    match pc
    case Fetching(_, result, _) => Batch(result)
    case AwaitFetch(_, result, _, _) => Batch(result)
    case CancelFetch(_, result, _, _) => Batch(result)
    case Releasing(batch, next, past, _) => Unreleased(batch, if next < past then past else next)
    case FetchExit(batch) => batch
    case Emitting(batch) => batch
    case _ => []
  }

  function Unreleased(batch: seq<Delivery>, n: nat): seq<Delivery> { if n <= |batch| then batch[n..] else [] }

  // ------------------------------------------------------------------ steps

  datatype Action =
    | Run(id: nat)                               // the await of a loop ends
    | FetchReturns(id: nat, result: FetchResult)
    | SeeStop(id: nat)                           // the stop watcher of a fetch ends
    | HookRaises(id: nat)
    | EmitRaises(id: nat)                        // reporting the fetched batch raises
    | HandlerEnds(id: nat, i: nat)
    | RequestShutdown
    | RequestDrain
    | RequestPause(task: string)
    | RequestResume(task: string)
    | Wait(waiter: nat, topic: Topic)            // a caller starts waiting on a status
    | WaiterRuns(waiter: nat)
    | ClearEvent                                 // any other waiter that clears the event
    | Announce                                   // any other change that signals it
    | Cancel(id: nat)                            // as the first half of a restart does
    | Unregister(id: nat, task: string)          // its registry entry and pause request go
    | Spawn(id: nat, task: string, concurrency: nat, cancelSafe: bool)

  predicate AcceptsResult(pc: Pc, result: FetchResult) {
    match pc
    case Fetching(limit, None, _) => !result.Aborted? && |Batch(Some(result))| <= limit
    case AwaitFetch(limit, None, aborted, _) => (result.Aborted? ==> aborted) && |Batch(Some(result))| <= limit
    case CancelFetch(limit, None, _, _) => |Batch(Some(result))| <= limit
    case _ => false
  }

  predicate Enabled(a: App, act: Action) {
    match act
    case Run(id) => id in a.runners && CanWake(a, a.runners[id])
    case FetchReturns(id, result) => id in a.runners && AcceptsResult(a.runners[id].pc, result)
    case SeeStop(id) => id in a.runners && a.runners[id].pc.Fetching? && StopFetching(a, a.runners[id].Task())
    case HookRaises(id) => id in a.runners && a.runners[id].pc.ResumeHook?
    case EmitRaises(id) => id in a.runners && a.runners[id].pc.Emitting?
    case HandlerEnds(id, i) => id in a.runners && i < |a.runners[id].inflight|
    case WaiterRuns(waiter) => waiter in a.waiters && a.waiters[waiter].phase.Woken?
    case Wait(waiter, _) => waiter !in a.waiters
    case Cancel(id) => id in a.runners && !a.runners[id].pc.Finishing? && !a.runners[id].pc.Done?
    case Unregister(id, task) => id in a.runners && a.runners[id].pc.Done? && a.runners[id].Task() == task
    case Spawn(id, _, concurrency, _) => id !in a.runners && concurrency >= 1
    case _ => true
  }

  /** `notify_runner_state_changed`: the event is set and every blocked waiter wakes. */
  function Notify(a: App): App {
    a.(event := true,
       waiters := map w <- a.waiters ::
         if a.waiters[w].phase.Blocked? then a.waiters[w].(phase := Woken) else a.waiters[w])
  }

  function Update(a: App, id: nat, m: Moved): App {
    var a' := a.(runners := a.runners[id := m.r]);
    if m.notify then Notify(a') else a'
  }

  /** The delivery log grows by what the runner started. */
  function Handing(a: App, r: Runner): seq<(string, Delivery)> {
    if r.pc.Emitting? then
      a.handed + seq(|r.pc.batch|, i requires 0 <= i < |r.pc.batch| => (r.Task(), r.pc.batch[i]))
    else a.handed
  }

  function TakeResult(r: Runner, result: FetchResult): Runner {
    var batch := Batch(Some(result));
    var log := r.log.(claimed := r.log.claimed + batch);
    match r.pc
    case Fetching(limit, _, stopSeen) => r.(pc := Fetching(limit, Some(result), stopSeen), log := log)
    case AwaitFetch(limit, _, aborted, handling) =>
      r.(pc := AwaitFetch(limit, Some(result), aborted, handling), log := log)
    case CancelFetch(limit, _, interrupted, handling) =>
      r.(pc := CancelFetch(limit, Some(result), interrupted, handling), log := log)
    case _ => r
  }

  /** A waiter checks its status; if false it clears the event and blocks. */
  ghost function Check(a: App, waiter: nat, topic: Topic): App {
    if Status(a, topic) then a.(waiters := a.waiters[waiter := Waiter(topic, Returned)])
    else a.(event := false, waiters := a.waiters[waiter := Waiter(topic, Blocked)])
  }

  function RemoveAt(xs: seq<Delivery>, i: nat): seq<Delivery>
    requires i < |xs|
  {
    xs[..i] + xs[i + 1..]
  }

  /** The runner an action moves, if it moves one. */
  function Target(act: Action): Option<nat> {
    match act
    case Run(id) => Some(id)
    case FetchReturns(id, _) => Some(id)
    case SeeStop(id) => Some(id)
    case HookRaises(id) => Some(id)
    case EmitRaises(id) => Some(id)
    case HandlerEnds(id, _) => Some(id)
    case Cancel(id) => Some(id)
    case _ => None
  }

  /** What the action does to that runner. */
  function Move(a: App, act: Action, r: Runner): Moved
    requires Enabled(a, act) && Target(act).Some? && r == a.runners[Target(act).value]
  {
    match act
    case Run(_) => Wake(a, r)
    case FetchReturns(_, result) => Moved(TakeResult(r, result), false)
    case SeeStop(_) => Moved(r.(pc := r.pc.(stopSeen := true)), false)
    case HookRaises(_) => Exit(Moved(r, false))
    case EmitRaises(_) => Exit(Drop(Moved(r.(log := r.log.(emitFailed := true)), false)))
    case HandlerEnds(_, i) => Moved(r.(inflight := RemoveAt(r.inflight, i)), true)
    case Cancel(_) => Interrupt(r)
  }

  ghost function Step(a: App, act: Action): App
    requires Enabled(a, act)
  {
    if Target(act).Some? then
      var id := Target(act).value;
      var a' := Update(a, id, Move(a, act, a.runners[id]));
      if act.Run? then a'.(handed := Handing(a, a.runners[id])) else a'
    else
      match act
      case RequestShutdown => a.(stopping := true)
      case RequestDrain => Notify(a.(drainRequested := true))
      case RequestPause(task) => Notify(a.(pausedTasks := a.pausedTasks + {task}))
      case RequestResume(task) => Notify(a.(pausedTasks := a.pausedTasks - {task}))
      case Wait(waiter, topic) => Check(a, waiter, topic)
      case WaiterRuns(waiter) => Check(a, waiter, a.waiters[waiter].topic)
      case ClearEvent => a.(event := false)
      case Announce => Notify(a)
      case Unregister(id, task) => a.(runners := a.runners - {id}, pausedTasks := a.pausedTasks - {task})
      case Spawn(id, task, concurrency, cancelSafe) =>
        Notify(a.(runners := a.runners[id := Fresh(task, concurrency, cancelSafe)]))
  }

  // ------------------------------------------------------------- whole runs

  const START: App := App(false, false, {}, false, map[], map[], [])

  /** The state after a sequence of actions; None if one was not possible where it came. */
  ghost function After(a: App, acts: seq<Action>): Option<App>
    decreases |acts|
  {
    if acts == [] then Some(a)
    else if Enabled(a, acts[0]) then After(Step(a, acts[0]), acts[1..])
    else None
  }
}
