/** What every step of the stop protocol keeps, and what follows for whole runs. */
module StopSafety {
  import opened Wrappers
  import opened StopProtocol

  // ------------------------------------------------------ flags and capacity

  predicate InFetch(pc: Pc) {
    pc.Fetching? || pc.AwaitFetch? || pc.CancelFetch? || pc.Backoff? || pc.Releasing?
  }

  /** How many deliveries the loop may yet add to the in-flight ones. */
  function Room(pc: Pc): nat {
    match pc
    case Fetching(limit, _, _) => limit
    case AwaitFetch(limit, _, _, _) => limit
    case CancelFetch(limit, _, _, _) => limit
    case _ => |Held(pc)|
  }

  /** The flags say where the loop is; a parked loop has nothing in flight; in-flight
      and claimed deliveries together never exceed the concurrency. */
  predicate FlagsMatch(r: Runner) {
    && (r.flags.drainParked <==> r.pc.DrainPark?)
    && (r.flags.pauseParked <==> r.pc.PausePark? || r.pc.ResumeHook?)
    && (r.flags.fetching <==> InFetch(r.pc))
    && (r.flags.drainParked || r.flags.pauseParked ==> r.inflight == [])
    && |r.inflight| + Room(r.pc) <= r.settings.concurrency
    && |Held(r.pc)| <= Room(r.pc)
  }

  lemma ExitFlags(m: Moved)
    requires |m.r.inflight| <= m.r.settings.concurrency
    ensures FlagsMatch(Exit(m).r)
  {
  }

  lemma AfterEmptyFetchFlags(a: App, m: Moved)
    requires |m.r.inflight| <= m.r.settings.concurrency && !m.r.flags.fetching && !m.r.flags.drainParked && !m.r.flags.pauseParked
    ensures FlagsMatch(AfterEmptyFetch(a, m).r)
  {
    ExitFlags(m);
  }

  lemma BeginFetchFlags(a: App, m: Moved)
    requires |m.r.inflight| <= m.r.settings.concurrency && !m.r.flags.fetching && !m.r.flags.drainParked
    ensures FlagsMatch(BeginFetch(a, m).r)
  {
    AfterEmptyFetchFlags(a, SetPauseParked(m, false));
  }

  lemma LoopTopFlags(a: App, m: Moved)
    requires |m.r.inflight| <= m.r.settings.concurrency && !m.r.flags.fetching && !m.r.flags.drainParked
    requires m.r.flags.pauseParked ==> m.r.inflight == []
    ensures FlagsMatch(LoopTop(a, m).r)
  {
    ExitFlags(m);
    BeginFetchFlags(a, SetDrainParked(m, false));
  }

  /** A loop inside its fetch, about to leave the wait that held `m` up. */
  predicate FetchFlags(m: Moved) {
    && m.r.flags.fetching && !m.r.flags.drainParked && !m.r.flags.pauseParked
    && |m.r.inflight| <= m.r.settings.concurrency
  }

  lemma ResolveFlags(a: App, m: Moved, result: FetchResult, stopped: bool)
    requires FetchFlags(m) && |m.r.inflight| + |Batch(Some(result))| <= m.r.settings.concurrency
    ensures FlagsMatch(Resolve(a, m, result, stopped).r)
  {
  }

  lemma LeaveFetchFlags(m: Moved)
    requires FetchFlags(m)
    ensures FlagsMatch(LeaveFetch(m).r) && FlagsMatch(LeaveFetch(Drop(m)).r)
    ensures FlagsMatch(At(SetFetching(Drop(m), false), FetchExit([])).r)
  {
  }

  lemma ResolveHandlingFlags(m: Moved, result: FetchResult, past: nat)
    requires FetchFlags(m) && |m.r.inflight| + |Batch(Some(result))| <= m.r.settings.concurrency
    ensures FlagsMatch(ResolveHandling(m, result, past).r)
  {
    LeaveFetchFlags(m);
  }

  lemma ReleaseFlags(r: Runner)
    requires FlagsMatch(r) && r.pc.Releasing?
    ensures FlagsMatch(Release(Moved(r, false)).r)
  {
    LeaveFetchFlags(Moved(r, false));
  }

  lemma InterruptKeepsFlags(r: Runner)
    requires FlagsMatch(r) && PcOk(r.pc)
    ensures FlagsMatch(Interrupt(r).r)
  {
    var m := Moved(r.(log := r.log.(cancelled := true)), false);
    match r.pc {
      case Fetching(_, result, _) =>
        if result.Some? { ResolveHandlingFlags(m, result.value, 0); }
      case AwaitFetch(_, result, _, _) =>
        LeaveFetchFlags(m);
        if result.Some? { ResolveHandlingFlags(m, result.value, 0); }
      case CancelFetch(_, result, _, _) =>
        LeaveFetchFlags(m);
        if result.Some? { ResolveHandlingFlags(m, result.value, 0); }
      case Backoff(_, _) => LeaveFetchFlags(m);
      case Releasing(_, _, _, _) => LeaveFetchFlags(m);
      case _ => ExitFlags(Drop(m));
    }
  }

  /** Only a handler knows of releases before its own. */
  predicate PcOk(pc: Pc) {
    && (pc.Emitting? ==> pc.batch != [])
    && (pc.Releasing? ==> pc.next <= |pc.batch| && pc.past <= |pc.batch| && (!pc.handling ==> pc.past == 0))
    && (pc.CancelFetch? ==> !(pc.interrupted && pc.handling))
  }

  lemma WakeKeepsFlags(a: App, r: Runner)
    requires FlagsMatch(r) && CanWake(a, r)
    ensures FlagsMatch(Wake(a, r).r)
  {
    var m := Moved(r, false);
    match r.pc {
      case Top => LoopTopFlags(a, m);
      case WaitInflight => LoopTopFlags(a, m);
      case Sleep => LoopTopFlags(a, m);
      case PausePark => LoopTopFlags(a, m);
      case DrainPark => ExitFlags(m);
      case ResumeHook => BeginFetchFlags(a, m);
      case Fetching(limit, result, stopSeen) =>
        if !stopSeen { ResolveFlags(a, m, result.value, false); }
      case AwaitFetch(_, result, _, _) =>
        ResolveFlags(a, m, result.value, true);
        ResolveHandlingFlags(m, result.value, 0);
      case CancelFetch(_, result, _, _) =>
        LeaveFetchFlags(m);
        ResolveHandlingFlags(m, result.value, 0);
      case Backoff(stopped, _) =>
        LeaveFetchFlags(m);
        ResolveFlags(a, m, Got([]), stopped);
      case Releasing(_, _, _, _) => ReleaseFlags(r);
      case FetchExit(batch) =>
        if batch == [] { AfterEmptyFetchFlags(a, m); }
      case FetchFailed => ExitFlags(m);
      case _ =>
    }
  }

  lemma ParkedHoldsNothing(r: Runner)
    requires FlagsMatch(r) && (r.flags.drainParked || r.flags.pauseParked)
    ensures Idle(r) && Held(r.pc) == [] && !(r.flags.drainParked && r.flags.pauseParked)
  {
  }

  lemma TakeResultFlags(r: Runner, result: FetchResult)
    requires FlagsMatch(r) && AcceptsResult(r.pc, result)
    ensures FlagsMatch(TakeResult(r, result))
  {
  }

  // ---------------------------------------------------------- the whole app

  predicate RunnerOk(r: Runner) { FlagsMatch(r) && PcOk(r.pc) }

  ghost predicate Ok(a: App) { forall i <- a.runners :: RunnerOk(a.runners[i]) }

  lemma LoopPc(a: App, m: Moved)
    ensures PcOk(LoopTop(a, m).r.pc) && PcOk(BeginFetch(a, m).r.pc) && PcOk(AfterEmptyFetch(a, m).r.pc) && PcOk(Exit(m).r.pc)
  {
    BeginFetchPc(a, SetDrainParked(m, false));
    BeginFetchPc(a, m);
  }

  lemma BeginFetchPc(a: App, m: Moved)
    ensures PcOk(BeginFetch(a, m).r.pc)
  {
  }

  lemma WakePc(a: App, r: Runner)
    requires PcOk(r.pc) && CanWake(a, r)
    ensures PcOk(Wake(a, r).r.pc)
  {
    var m := Moved(r, false);
    match r.pc {
      case Fetching(_, result, stopSeen) =>
      case AwaitFetch(_, result, _, _) =>
      case CancelFetch(_, result, _, _) =>
      case Backoff(_, _) =>
      case Releasing(_, _, _, _) =>
      case _ => LoopPc(a, m);
    }
  }

  lemma InterruptPc(r: Runner)
    requires PcOk(r.pc)
    ensures PcOk(Interrupt(r).r.pc)
  {
  }

  lemma ExitKeeps(m: Moved)
    requires |m.r.inflight| <= m.r.settings.concurrency
    ensures RunnerOk(Exit(m).r)
  {
    ExitFlags(m);
  }

  lemma FreshOk(task: string, concurrency: nat, cancelSafe: bool)
    ensures RunnerOk(Fresh(task, concurrency, cancelSafe))
  {
  }

  lemma MoveKeeps(a: App, act: Action, r: Runner)
    requires Enabled(a, act) && Target(act).Some? && r == a.runners[Target(act).value]
    requires RunnerOk(r)
    ensures RunnerOk(Move(a, act, r).r)
  {
    match act {
      case Run(_) =>
        WakeKeepsFlags(a, r);
        WakePc(a, r);
      case FetchReturns(_, result) => TakeResultFlags(r, result);
      case SeeStop(_) =>
      case HookRaises(_) => ExitKeeps(Moved(r, false));
      case EmitRaises(_) => ExitKeeps(Drop(Moved(r.(log := r.log.(emitFailed := true)), false)));
      case HandlerEnds(_, k) =>
      case Cancel(_) =>
        InterruptKeepsFlags(r);
        InterruptPc(r);
    }
  }

  /** A step changes at most the runner it moves. */
  lemma StepRunners(a: App, act: Action)
    requires Enabled(a, act)
    ensures Step(a, act).runners ==
      if Target(act).Some? then
        var id := Target(act).value; a.runners[id := Move(a, act, a.runners[id]).r]
      else match act
        case Unregister(id, _) => a.runners - {id}
        case Spawn(id, task, concurrency, cancelSafe) => a.runners[id := Fresh(task, concurrency, cancelSafe)]
        case _ => a.runners
  {
  }

  lemma StepKeepsOk(a: App, act: Action)
    requires Ok(a) && Enabled(a, act)
    ensures Ok(Step(a, act))
  {
    StepRunners(a, act);
    if Target(act).Some? {
      MoveKeeps(a, act, a.runners[Target(act).value]);
    } else if act.Spawn? {
      FreshOk(act.task, act.concurrency, act.cancelSafe);
    }
  }

  lemma {:induction false} AlwaysOk(a: App, acts: seq<Action>)
    requires Ok(a)
    ensures var b := After(a, acts); b.Some? ==> Ok(b.value)
    decreases |acts|
  {
    if acts != [] && Enabled(a, acts[0]) {
      StepKeepsOk(a, acts[0]);
      AlwaysOk(Step(a, acts[0]), acts[1..]);
    }
  }

  /** In every run, a parked loop holds nothing: no handler, no fetch, no claimed delivery;
      and it is parked for one reason only. */
  lemma ParkedIsQuiet(acts: seq<Action>, id: nat)
    ensures var b := After(START, acts);
      b.Some? && id in b.value.runners ==>
        var r := b.value.runners[id];
        r.flags.drainParked || r.flags.pauseParked ==>
          Idle(r) && Held(r.pc) == [] && !(r.flags.drainParked && r.flags.pauseParked)
  {
    AlwaysOk(START, acts);
  }

  /** In every run no runner has more deliveries in hand than its concurrency allows, and
      one that has left its loop holds none. */
  lemma HandsBounded(acts: seq<Action>, id: nat)
    ensures var b := After(START, acts);
      b.Some? && id in b.value.runners ==>
        var r := b.value.runners[id];
        |r.inflight| + |Held(r.pc)| <= r.settings.concurrency && (r.pc.Finishing? || r.pc.Done? ==> Held(r.pc) == [])
  {
    AlwaysOk(START, acts);
  }
}
