/** What becomes of the deliveries a runner claims: none is lost, and none released twice,
    but by the steps named here. */
module StopClaims {
  import opened Wrappers
  import opened StopProtocol
  import opened StopSafety

  // ---------------------------------------------------------- single steps

  function Tally(xs: seq<Delivery>, d: Delivery): nat { multiset(xs)[d] }

  /** Every claimed delivery is, as often as it was claimed, started, released, still
      held, or lost. */
  ghost predicate Accounted(r: Runner) {
    forall d: Delivery :: Tally(r.log.claimed, d) ==
      Tally(r.log.started, d) + Tally(r.log.released, d) + Tally(Held(r.pc), d) + Tally(r.log.lost, d)
  }

  /** What a step does with deliveries. */
  datatype Effect = Nothing | Starts | Releases | Repeats(d: Delivery) | Drops | Claims(batch: seq<Delivery>)

  /** The steps that lose deliveries, seen from the state before: the fetched batch cannot
      be reported; a fetch that was cancelled has returned a batch all the same; or a
      cancellation comes between the fetch and the start of its handlers, or once more
      while the handler of the first one has a batch to release. */
  predicate LosesBatch(act: Action, r: Runner) {
    match act
    case EmitRaises(_) => true
    case Run(_) => r.pc.CancelFetch? && !r.pc.interrupted && Batch(r.pc.result) != []
    case Cancel(_) => Held(r.pc) != [] && (r.pc.FetchExit? || r.pc.Emitting? || Handling(r.pc))
    case _ => false
  }

  /** The steps that release a delivery the loop had released before it was cancelled. */
  predicate ReleasesAgain(act: Action, r: Runner) {
    act.Run? && r.pc.Releasing? && r.pc.next < r.pc.past && r.pc.next < |r.pc.batch|
  }

  function EffectOf(act: Action, r: Runner): Effect {
    if LosesBatch(act, r) then Drops
    else if ReleasesAgain(act, r) then Repeats(r.pc.batch[r.pc.next])
    else
      match act
      case Run(_) =>
        if r.pc.Emitting? then Starts
        else if r.pc.Releasing? && r.pc.next < |r.pc.batch| then Releases
        else Nothing
      case FetchReturns(_, result) => Claims(Batch(Some(result)))
      case _ => Nothing
  }

  /** Is the loop in the handler of a cancellation? */
  predicate Handling(pc: Pc) {
    match pc
    case AwaitFetch(_, _, _, handling) => handling
    case CancelFetch(_, _, _, handling) => handling
    case Backoff(_, handling) => handling
    case Releasing(_, _, _, handling) => handling
    case _ => false
  }

  /** The log without its two marks. */
  function Plain(log: Log): Log { log.(cancelled := false, emitFailed := false) }

  predicate HasEffect(r: Runner, r': Runner, effect: Effect) {
    var log, log', held, held' := Plain(r.log), Plain(r'.log), Held(r.pc), Held(r'.pc);
    && r'.settings == r.settings
    && match effect
       case Nothing => log' == log && held' == held
       case Starts => log' == log.(started := log.started + held) && held' == []
       case Releases =>
         held != [] && log' == log.(released := log.released + [held[0]]) && held' == held[1..]
       case Repeats(d) => log' == log.(repeated := log.repeated + [d]) && held' == held
       case Drops => log' == log.(lost := log.lost + held) && held' == []
       case Claims(batch) => held == [] && log' == log.(claimed := log.claimed + batch) && held' == batch
  }

  predicate SameRecord(r: Runner, r': Runner) {
    r'.log == r.log && r'.settings == r.settings
  }

  lemma LoopTopRecord(a: App, m: Moved)
    ensures SameRecord(m.r, LoopTop(a, m).r) && Held(LoopTop(a, m).r.pc) == []
  {
    ExitRecord(m);
    ParkRecord(m);
    BeginFetchRecord(a, SetDrainParked(m, false));
  }

  lemma ParkRecord(m: Moved)
    ensures SameRecord(m.r, ParkForDrain(m).r) && Held(ParkForDrain(m).r.pc) == []
    ensures SameRecord(m.r, ParkForPause(m).r) && Held(ParkForPause(m).r.pc) == []
  {
  }

  lemma ExitRecord(m: Moved)
    ensures SameRecord(m.r, Exit(m).r) && Held(Exit(m).r.pc) == []
  {
  }

  lemma BeginFetchRecord(a: App, m: Moved)
    ensures SameRecord(m.r, BeginFetch(a, m).r) && Held(BeginFetch(a, m).r.pc) == []
  {
    AfterEmptyFetchRecord(a, SetPauseParked(m, false));
  }

  lemma AfterEmptyFetchRecord(a: App, m: Moved)
    ensures SameRecord(m.r, AfterEmptyFetch(a, m).r) && Held(AfterEmptyFetch(a, m).r.pc) == []
  {
  }

  lemma ResolveRecord(a: App, m: Moved, result: FetchResult, stopped: bool)
    ensures var r' := Resolve(a, m, result, stopped).r;
      SameRecord(m.r, r') && Held(r'.pc) == Batch(Some(result))
  {
  }

  lemma ResolveHandlingRecord(m: Moved, result: FetchResult, past: nat)
    requires past == 0
    ensures var r' := ResolveHandling(m, result, past).r;
      SameRecord(m.r, r') && Held(r'.pc) == Batch(Some(result))
  {
  }

  lemma TallyAppend(xs: seq<Delivery>, ys: seq<Delivery>, d: Delivery)
    ensures Tally(xs + ys, d) == Tally(xs, d) + Tally(ys, d)
  {
  }

  lemma EffectAccounts(r: Runner, r': Runner, effect: Effect)
    requires Accounted(r) && HasEffect(r, r', effect)
    ensures Accounted(r')
  {
    var held, held' := Held(r.pc), Held(r'.pc);
    forall d: Delivery ensures Tally(r'.log.claimed, d) ==
        Tally(r'.log.started, d) + Tally(r'.log.released, d) + Tally(held', d) + Tally(r'.log.lost, d) {
      TallyAppend(r.log.started, held, d);
      TallyAppend(r.log.lost, held, d);
      match effect {
        case Releases =>
          TallyAppend(r.log.released, [held[0]], d);
          TallyAppend([held[0]], held[1..], d);
          assert [held[0]] + held[1..] == held;
        case Claims(batch) => TallyAppend(r.log.claimed, batch, d);
        case _ =>
      }
    }
  }

  lemma ReleaseEffect(r: Runner)
    requires r.pc.Releasing? && PcOk(r.pc)
    ensures HasEffect(r, Release(Moved(r, false)).r, EffectOf(Run(0), r))
  {
  }

  lemma CancelFetchEffect(a: App, r: Runner)
    requires r.pc.CancelFetch? && CanWake(a, r) && PcOk(r.pc)
    ensures HasEffect(r, Wake(a, r).r, EffectOf(Run(0), r))
  {
    ResolveHandlingRecord(Moved(r, false), r.pc.result.value, 0);
  }

  lemma QuietWakeRecord(a: App, r: Runner)
    requires CanWake(a, r) && !r.pc.Releasing? && !r.pc.Emitting? && !r.pc.CancelFetch?
    ensures SameRecord(r, Wake(a, r).r) && Held(Wake(a, r).r.pc) == Held(r.pc)
  {
    var m := Moved(r, false);
    ExitRecord(m);
    match r.pc {
      case ResumeHook => BeginFetchRecord(a, m);
      case Fetching(_, result, stopSeen) =>
        if !stopSeen { ResolveRecord(a, m, result.value, false); }
      case AwaitFetch(_, result, _, _) =>
        ResolveRecord(a, m, result.value, true);
        ResolveHandlingRecord(m, result.value, 0);
      case Backoff(stopped, _) => ResolveRecord(a, m, Got([]), stopped);
      case FetchExit(batch) => AfterEmptyFetchRecord(a, m);
      case _ => LoopTopRecord(a, m);
    }
  }

  lemma WakeEffect(a: App, r: Runner)
    requires CanWake(a, r) && PcOk(r.pc)
    ensures HasEffect(r, Wake(a, r).r, EffectOf(Run(0), r))
  {
    match r.pc {
      case Releasing(_, _, _, _) => ReleaseEffect(r);
      case CancelFetch(_, _, _, _) => CancelFetchEffect(a, r);
      case Emitting(_) =>
      case _ => QuietWakeRecord(a, r);
    }
  }

  lemma DropRecord(m: Moved)
    ensures SameRecord(Drop(m).r, Exit(Drop(m)).r) && Held(Exit(Drop(m)).r.pc) == []
    ensures SameRecord(Drop(m).r, LeaveFetch(Drop(m)).r) && Held(LeaveFetch(Drop(m)).r.pc) == []
  {
    ExitRecord(Drop(m));
  }

  /** A first cancellation inside a fetch keeps what is held. */
  lemma HandledEffect(r: Runner)
    requires PcOk(r.pc) && InFetch(r.pc) && !Handling(r.pc)
    ensures HasEffect(r, Interrupt(r).r, Nothing) && Interrupt(r).r.log.cancelled
  {
    var m := Moved(r.(log := r.log.(cancelled := true)), false);
    match r.pc {
      case Fetching(_, result, _) =>
        if result.Some? { ResolveHandlingRecord(m, result.value, 0); }
      case AwaitFetch(_, result, _, _) =>
        if result.Some? { ResolveHandlingRecord(m, result.value, 0); }
      case CancelFetch(_, result, _, _) =>
        if result.Some? { ResolveHandlingRecord(m, result.value, 0); }
      case _ =>
    }
  }

  lemma InterruptEffect(r: Runner)
    requires PcOk(r.pc)
    ensures HasEffect(r, Interrupt(r).r, EffectOf(Cancel(0), r)) && Interrupt(r).r.log.cancelled
  {
    if InFetch(r.pc) && !Handling(r.pc) {
      HandledEffect(r);
    } else {
      DropRecord(Moved(r.(log := r.log.(cancelled := true)), false));
    }
  }

  lemma TakeResultEffect(r: Runner, result: FetchResult)
    requires AcceptsResult(r.pc, result)
    ensures HasEffect(r, TakeResult(r, result), Claims(Batch(Some(result))))
  {
  }

  /** Every step of a runner does with its deliveries what its state before says. */
  lemma MoveEffect(a: App, act: Action, r: Runner)
    requires Enabled(a, act) && Target(act).Some? && r == a.runners[Target(act).value]
    requires PcOk(r.pc)
    ensures HasEffect(r, Move(a, act, r).r, EffectOf(act, r))
  {
    match act {
      case Run(_) => WakeEffect(a, r);
      case FetchReturns(_, result) => TakeResultEffect(r, result);
      case SeeStop(_) =>
      case HookRaises(_) => ExitRecord(Moved(r, false));
      case EmitRaises(_) => DropRecord(Moved(r.(log := r.log.(emitFailed := true)), false));
      case HandlerEnds(_, k) =>
      case Cancel(_) => InterruptEffect(r);
    }
  }

  // ---------------------------------------------------- release a second time

  /** What has been released twice was released in front of the batch being released, and
      by a handler that leaves the loop. */
  ghost predicate AgainOk(r: Runner) {
    && (forall d: Delivery :: Tally(r.log.repeated, d) <= Tally(r.log.released, d))
    && match r.pc
       case Releasing(batch, next, past, _) =>
         && next <= |batch| && past <= |batch|
         && r.log.repeated == batch[..if next < past then next else past]
         && forall d: Delivery :: Tally(batch[..if next < past then past else next], d) <= Tally(r.log.released, d)
       case FetchFailed => true
       case Finishing => true
       case Done => true
       case _ => r.log.repeated == []
  }

  lemma TallyPrefix(xs: seq<Delivery>, n: nat, d: Delivery)
    requires n < |xs|
    ensures Tally(xs[..n], d) <= Tally(xs[..n + 1], d)
    ensures Tally(xs[..n + 1], d) == Tally(xs[..n], d) + Tally([xs[n]], d)
  {
    assert xs[..n + 1] == xs[..n] + [xs[n]];
    TallyAppend(xs[..n], [xs[n]], d);
  }

  lemma {:induction false} PrefixTallied(xs: seq<Delivery>, m: nat, n: nat, d: Delivery)
    requires m <= n <= |xs|
    ensures Tally(xs[..m], d) <= Tally(xs[..n], d)
    decreases n - m
  {
    if m < n {
      PrefixTallied(xs, m, n - 1, d);
      TallyPrefix(xs, n - 1, d);
    }
  }

  lemma ReleasedOnce(r: Runner, batch: seq<Delivery>, next: nat, past: nat, handling: bool)
    requires r.pc == Releasing(batch, next, past, handling) && past <= next < |batch| && AgainOk(r)
    ensures AgainOk(Released(r, batch[next], false).(pc := Releasing(batch, next + 1, past, handling)))
  {
    forall d: Delivery
      ensures Tally(r.log.released + [batch[next]], d) == Tally(r.log.released, d) + Tally([batch[next]], d)
      ensures Tally(batch[..next + 1], d) == Tally(batch[..next], d) + Tally([batch[next]], d)
    {
      TallyPrefix(batch, next, d);
      TallyAppend(r.log.released, [batch[next]], d);
    }
  }

  lemma ReleasedTwice(r: Runner, batch: seq<Delivery>, next: nat, past: nat, handling: bool)
    requires r.pc == Releasing(batch, next, past, handling) && next < past <= |batch| && AgainOk(r)
    ensures AgainOk(Released(r, batch[next], true).(pc := Releasing(batch, next + 1, past, handling)))
  {
    assert batch[..next + 1] == batch[..next] + [batch[next]];
    forall d: Delivery ensures Tally(batch[..next + 1], d) <= Tally(r.log.released, d) {
      PrefixTallied(batch, next + 1, past, d);
    }
  }

  lemma ReleaseAgainOk(r: Runner)
    requires r.pc.Releasing? && PcOk(r.pc) && AgainOk(r)
    ensures AgainOk(Release(Moved(r, false)).r)
  {
    var Releasing(batch, next, past, handling) := r.pc;
    if next == |batch| {
      assert batch[..|batch|] == batch;
      LastReleaseAgainOk(r);
    } else if next < past {
      ReleasedTwice(r, batch, next, past, handling);
    } else {
      ReleasedOnce(r, batch, next, past, handling);
    }
  }

  /** After the last release the loop goes on only if there was no handler. */
  lemma LastReleaseAgainOk(r: Runner)
    requires r.pc.Releasing? && PcOk(r.pc) && AgainOk(r) && r.pc.next >= |r.pc.batch|
    ensures AgainOk(Release(Moved(r, false)).r)
  {
  }

  lemma FirstRelease(r: Runner, batch: seq<Delivery>, handling: bool)
    requires r.log.repeated == [] && r.pc == Releasing(batch, 0, 0, handling)
    ensures AgainOk(r)
  {
    assert batch[..0] == [];
  }

  lemma ResolveAgainOk(a: App, m: Moved, result: FetchResult, stopped: bool)
    requires m.r.log.repeated == []
    ensures AgainOk(Resolve(a, m, result, stopped).r) && AgainOk(ResolveHandling(m, result, 0).r)
  {
    if result.Got? {
      FirstRelease(At(m, Releasing(result.batch, 0, 0, true)).r, result.batch, true);
      FirstRelease(At(m, Releasing(result.batch, 0, 0, false)).r, result.batch, false);
    }
  }

  lemma LoopAgainOk(a: App, m: Moved)
    requires m.r.log.repeated == []
    ensures AgainOk(LoopTop(a, m).r) && AgainOk(BeginFetch(a, m).r) && AgainOk(AfterEmptyFetch(a, m).r)
  {
    LoopTopRecord(a, m);
    BeginFetchRecord(a, m);
    AfterEmptyFetchRecord(a, m);
    LoopLeavesRelease(a, m);
  }

  lemma LoopLeavesRelease(a: App, m: Moved)
    ensures !LoopTop(a, m).r.pc.Releasing? && !BeginFetch(a, m).r.pc.Releasing? && !AfterEmptyFetch(a, m).r.pc.Releasing?
  {
    BeginFetchLeavesRelease(a, m);
    BeginFetchLeavesRelease(a, SetDrainParked(m, false));
  }

  lemma BeginFetchLeavesRelease(a: App, m: Moved)
    ensures !BeginFetch(a, m).r.pc.Releasing?
  {
  }

  /** Where the loop is on its way out. */
  predicate Leaving(pc: Pc) { pc.FetchFailed? || pc.Finishing? || pc.Done? }

  lemma LeavingAgainOk(r: Runner, r': Runner)
    requires Leaving(r'.pc) && r'.log.repeated == r.log.repeated && r'.log.released == r.log.released && AgainOk(r)
    ensures AgainOk(r')
  {
  }

  lemma WakeAgainOk(a: App, r: Runner)
    requires AgainOk(r) && PcOk(r.pc) && CanWake(a, r)
    ensures AgainOk(Wake(a, r).r)
  {
    var m := Moved(r, false);
    match r.pc {
      case Releasing(_, _, _, _) => ReleaseAgainOk(r);
      case Fetching(_, result, stopSeen) =>
        if !stopSeen { ResolveAgainOk(a, m, result.value, false); }
      case AwaitFetch(_, result, _, _) => ResolveAgainOk(a, m, result.value, true);
      case CancelFetch(_, result, _, _) => ResolveAgainOk(a, m, result.value, true);
      case Backoff(stopped, _) => ResolveAgainOk(a, m, Got([]), stopped);
      case FetchFailed => LeavingWake(a, r);
      case Finishing => LeavingWake(a, r);
      case DrainPark => DrainWake(a, r);
      case Emitting(_) =>
      case FetchExit(_) => LoopAgainOk(a, m);
      case _ => LoopAgainOk(a, m);
    }
  }

  lemma LeavingWake(a: App, r: Runner)
    requires AgainOk(r) && CanWake(a, r) && (r.pc.FetchFailed? || r.pc.Finishing?)
    ensures AgainOk(Wake(a, r).r)
  {
    ExitRecord(Moved(r, false));
    LeavingAgainOk(r, Wake(a, r).r);
  }

  lemma DrainWake(a: App, r: Runner)
    requires AgainOk(r) && CanWake(a, r) && r.pc.DrainPark?
    ensures AgainOk(Wake(a, r).r)
  {
    ExitRecord(Moved(r, false));
    LeavingAgainOk(r, Wake(a, r).r);
  }

  lemma InterruptAgainOk(a: App, r: Runner)
    requires AgainOk(r) && PcOk(r.pc)
    ensures AgainOk(Interrupt(r).r)
  {
    var m := Moved(r.(log := r.log.(cancelled := true)), false);
    match r.pc {
      case Fetching(_, result, _) =>
        if result.Some? { ResolveAgainOk(a, m, result.value, true); }
      case AwaitFetch(_, result, _, _) =>
        if result.Some? { ResolveAgainOk(a, m, result.value, true); }
      case CancelFetch(_, result, _, _) =>
        if result.Some? { ResolveAgainOk(a, m, result.value, true); }
      case Backoff(_, _) =>
      case Releasing(batch, next, past, handling) =>
        if handling {
          LeavingAgainOk(r, Interrupt(r).r);
        } else {
          assert batch[..0] == [];
        }
      case _ =>
        ExitRecord(Drop(m));
        LeavingAgainOk(r, Interrupt(r).r);
    }
  }

  lemma MoveAgainOk(a: App, act: Action, r: Runner)
    requires Enabled(a, act) && Target(act).Some? && r == a.runners[Target(act).value]
    requires PcOk(r.pc) && AgainOk(r)
    ensures AgainOk(Move(a, act, r).r)
  {
    match act {
      case Run(_) => WakeAgainOk(a, r);
      case HookRaises(_) =>
        ExitRecord(Moved(r, false));
        LeavingAgainOk(r, Move(a, act, r).r);
      case EmitRaises(_) =>
        ExitRecord(Drop(Moved(r.(log := r.log.(emitFailed := true)), false)));
        LeavingAgainOk(r, Move(a, act, r).r);
      case Cancel(_) => InterruptAgainOk(a, r);
      case _ =>
    }
  }

  // ------------------------------------------------------------------ the marks

  /** What the marks of the log have to do with losses. */
  predicate MarksOk(r: Runner) {
    && (r.log.lost != [] ==> r.settings.cancelSafe || r.log.cancelled || r.log.emitFailed)
    && (r.log.emitFailed ==> r.log.lost != [])
    && (r.pc.CancelFetch? ==> r.settings.cancelSafe && (r.pc.interrupted ==> r.log.cancelled))
    && (Handling(r.pc) || r.log.repeated != [] ==> r.log.cancelled)
  }

  lemma LoopMarks(a: App, m: Moved)
    ensures forall r' :: r' in {LoopTop(a, m).r, BeginFetch(a, m).r, AfterEmptyFetch(a, m).r, Exit(m).r} ==>
      SameRecord(m.r, r') && !r'.pc.CancelFetch? && !Handling(r'.pc)
  {
    LoopTopRecord(a, m);
    BeginFetchRecord(a, m);
    AfterEmptyFetchRecord(a, m);
    ExitRecord(m);
    FetchLoopMarks(a, m);
    FetchLoopMarks(a, SetDrainParked(m, false));
  }

  lemma FetchLoopMarks(a: App, m: Moved)
    ensures !BeginFetch(a, m).r.pc.CancelFetch? && !Handling(BeginFetch(a, m).r.pc)
  {
  }

  lemma WakeMarks(a: App, r: Runner)
    requires MarksOk(r) && PcOk(r.pc) && CanWake(a, r)
    ensures MarksOk(Wake(a, r).r)
  {
    match r.pc {
      case Fetching(_, _, _) => FetchWakeMarks(a, r);
      case AwaitFetch(_, _, _, _) => FetchWakeMarks(a, r);
      case CancelFetch(_, _, _, _) => ReleaseWakeMarks(a, r);
      case Backoff(_, _) => ReleaseWakeMarks(a, r);
      case Releasing(_, _, _, _) => ReleaseWakeMarks(a, r);
      case Emitting(_) =>
      case _ => LoopMarks(a, Moved(r, false));
    }
  }

  lemma ReleaseWakeMarks(a: App, r: Runner)
    requires MarksOk(r) && PcOk(r.pc) && CanWake(a, r) && (r.pc.CancelFetch? || r.pc.Backoff? || r.pc.Releasing?)
    ensures MarksOk(Wake(a, r).r)
  {
  }

  lemma FetchWakeMarks(a: App, r: Runner)
    requires MarksOk(r) && CanWake(a, r) && (r.pc.Fetching? || r.pc.AwaitFetch?)
    ensures MarksOk(Wake(a, r).r)
  {
    if r.pc.result.Some? {
      ResolveMarks(a, Moved(r, false), r.pc.result.value, false);
      ResolveMarks(a, Moved(r, false), r.pc.result.value, true);
    }
  }

  lemma ResolveMarks(a: App, m: Moved, result: FetchResult, stopped: bool)
    ensures var r' := Resolve(a, m, result, stopped).r; SameRecord(m.r, r') && !r'.pc.CancelFetch? && !Handling(r'.pc)
    ensures var r' := ResolveHandling(m, result, 0).r; SameRecord(m.r, r') && !r'.pc.CancelFetch?
  {
  }

  lemma InterruptMarks(r: Runner)
    requires MarksOk(r) && PcOk(r.pc)
    ensures MarksOk(Interrupt(r).r)
  {
    InterruptEffect(r);
    var m := Moved(r.(log := r.log.(cancelled := true)), false);
    ExitRecord(Drop(m));
  }

  lemma MoveMarks(a: App, act: Action, r: Runner)
    requires Enabled(a, act) && Target(act).Some? && r == a.runners[Target(act).value]
    requires MarksOk(r) && PcOk(r.pc)
    ensures MarksOk(Move(a, act, r).r)
  {
    match act {
      case Run(_) => WakeMarks(a, r);
      case HookRaises(_) => ExitRecord(Moved(r, false));
      case EmitRaises(_) => ExitRecord(Drop(Moved(r.(log := r.log.(emitFailed := true)), false)));
      case Cancel(_) => InterruptMarks(r);
      case _ =>
    }
  }

  // ------------------------------------------------------------------ whole runs

  ghost predicate ClaimsOk(r: Runner) { RunnerOk(r) && Accounted(r) && AgainOk(r) && MarksOk(r) }

  ghost predicate AllClaimsOk(a: App) { forall i <- a.runners :: ClaimsOk(a.runners[i]) }

  lemma FreshClaims(task: string, concurrency: nat, cancelSafe: bool)
    ensures ClaimsOk(Fresh(task, concurrency, cancelSafe))
  {
  }

  lemma MoveClaims(a: App, act: Action, r: Runner)
    requires Enabled(a, act) && Target(act).Some? && r == a.runners[Target(act).value]
    requires ClaimsOk(r)
    ensures ClaimsOk(Move(a, act, r).r)
  {
    var r' := Move(a, act, r).r;
    MoveKeeps(a, act, r);
    MoveEffect(a, act, r);
    EffectAccounts(r, r', EffectOf(act, r));
    MoveAgainOk(a, act, r);
    MoveMarks(a, act, r);
  }

  lemma StepKeepsClaims(a: App, act: Action)
    requires AllClaimsOk(a) && Enabled(a, act)
    ensures AllClaimsOk(Step(a, act))
  {
    StepRunners(a, act);
    if Target(act).Some? {
      MoveClaims(a, act, a.runners[Target(act).value]);
    } else if act.Spawn? {
      FreshClaims(act.task, act.concurrency, act.cancelSafe);
    }
  }

  /** Has runner `id` lost deliveries, has it released some twice? */
  datatype Story = Story(lost: bool, again: bool)

  ghost function NextStory(a: App, act: Action, id: nat, story: Story): Story
    requires Enabled(a, act)
  {
    if act.Spawn? && act.id == id then Story(false, false)
    else if Target(act) == Some(id) then
      Story(story.lost || LosesBatch(act, a.runners[id]), story.again || ReleasesAgain(act, a.runners[id]))
    else story
  }

  ghost function StoryAfter(a: App, acts: seq<Action>, id: nat, story: Story): Story
    decreases |acts|
  {
    if acts == [] || !Enabled(a, acts[0]) then story
    else StoryAfter(Step(a, acts[0]), acts[1..], id, NextStory(a, acts[0], id, story))
  }

  /** The story tells what the log of the runner holds. */
  ghost predicate Tells(a: App, id: nat, story: Story) {
    id in a.runners ==>
      story == Story(a.runners[id].log.lost != [], a.runners[id].log.repeated != [])
  }

  lemma StepTells(a: App, act: Action, id: nat, story: Story)
    requires AllClaimsOk(a) && Enabled(a, act) && Tells(a, id, story)
    ensures Tells(Step(a, act), id, NextStory(a, act, id, story))
  {
    if Target(act) == Some(id) {
      OwnStepTells(a, act, id, story);
    } else {
      StepRunners(a, act);
    }
  }

  lemma OwnStepTells(a: App, act: Action, id: nat, story: Story)
    requires AllClaimsOk(a) && Enabled(a, act) && Tells(a, id, story) && Target(act) == Some(id)
    ensures Tells(Step(a, act), id, NextStory(a, act, id, story))
  {
    var r := a.runners[id];
    var r' := Move(a, act, r).r;
    MoveTells(a, act, r);
    assert Step(a, act).runners == a.runners[id := r'] by { StepRunners(a, act); }
  }

  lemma MoveTells(a: App, act: Action, r: Runner)
    requires Enabled(a, act) && Target(act).Some? && r == a.runners[Target(act).value] && RunnerOk(r)
    ensures var r' := Move(a, act, r).r;
      && (r'.log.lost != [] <==> r.log.lost != [] || LosesBatch(act, r))
      && (r'.log.repeated != [] <==> r.log.repeated != [] || ReleasesAgain(act, r))
  {
    MoveEffect(a, act, r);
  }

  lemma {:induction false} RunTells(a: App, acts: seq<Action>, id: nat, story: Story)
    requires AllClaimsOk(a) && Tells(a, id, story)
    ensures var b := After(a, acts);
      b.Some? ==> AllClaimsOk(b.value) && Tells(b.value, id, StoryAfter(a, acts, id, story))
    decreases |acts|
  {
    if acts != [] && Enabled(a, acts[0]) {
      StepKeepsClaims(a, acts[0]);
      StepTells(a, acts[0], id, story);
      RunTells(Step(a, acts[0]), acts[1..], id, NextStory(a, acts[0], id, story));
    }
  }

  /** Under every interleaving of requests and cancellations, each delivery a runner claims
      is, as often as it was claimed, started, released, still held, or lost.  It loses
      some if and only if one of its steps was a losing one, and releases some twice, none
      of them more often than it was released before, if and only if one of its steps
      released again. */
  lemma ClaimsConserved(acts: seq<Action>, id: nat)
    ensures var b := After(START, acts);
      b.Some? && id in b.value.runners ==>
        var log, story := b.value.runners[id].log, StoryAfter(START, acts, id, Story(false, false));
        && (forall d: Delivery :: Tally(log.claimed, d) ==
              Tally(log.started, d) + Tally(log.released, d) + Tally(Held(b.value.runners[id].pc), d) + Tally(log.lost, d))
        && (log.lost != [] <==> story.lost)
        && (log.repeated != [] <==> story.again)
        && forall d: Delivery :: Tally(log.repeated, d) <= Tally(log.released, d)
  {
    RunTells(START, acts, id, Story(false, false));
  }

  /** In particular a runner that is not cancelled releases nothing twice, and, unless its
      source is cancel-safe, loses deliveries exactly if reporting a fetched batch raised. */
  lemma UncancelledConserves(acts: seq<Action>, id: nat)
    ensures var b := After(START, acts);
      b.Some? && id in b.value.runners && !b.value.runners[id].log.cancelled ==>
        var r := b.value.runners[id];
        r.log.repeated == [] && (!r.settings.cancelSafe ==> (r.log.lost != [] <==> r.log.emitFailed))
  {
    RunTells(START, acts, id, Story(false, false));
  }

  // ------------------------------------------------------------------- examples

  lemma {:induction false} Extend(from: App, acts: seq<Action>, a: App, act: Action)
    requires After(from, acts) == Some(a) && Enabled(a, act)
    ensures After(from, acts + [act]) == Some(Step(a, act))
    decreases |acts|
  {
    if acts == [] {
      assert [act][1..] == [];
    } else {
      Extend(Step(from, acts[0]), acts[1..], a, act);
      assert (acts + [act])[1..] == acts[1..] + [act];
    }
  }

  /** Runner 0 of an app without requests but, perhaps, a drain. */
  predicate Alone(a: App, r: Runner, draining: bool) {
    a.runners == map[0 := r] && !a.stopping && a.pausedTasks == {} && a.drainRequested == draining
  }

  lemma Spawned(concurrency: nat, cancelSafe: bool) returns (acts: seq<Action>, a: App)
    requires concurrency >= 1
    ensures acts == [Spawn(0, "t", concurrency, cancelSafe)] && After(START, acts) == Some(a)
    ensures Alone(a, Fresh("t", concurrency, cancelSafe), false)
  {
    acts := [Spawn(0, "t", concurrency, cancelSafe)];
    a := Step(START, acts[0]);
    Extend(START, [], START, acts[0]);
    assert [] + [acts[0]] == acts;
    assert a.runners == map[0 := Fresh("t", concurrency, cancelSafe)];
  }

  lemma Goes(acts: seq<Action>, a: App, r: Runner, draining: bool, act: Action) returns (acts': seq<Action>, a': App)
    requires After(START, acts) == Some(a) && Alone(a, r, draining) && Enabled(a, act) && Target(act) == Some(0)
    ensures acts' == acts + [act] && After(START, acts') == Some(a') && Alone(a', Move(a, act, r).r, draining)
  {
    Extend(START, acts, a, act);
    acts', a' := acts + [act], Step(a, act);
    StepRunners(a, act);
    assert a.runners[0 := Move(a, act, r).r] == map[0 := Move(a, act, r).r];
  }

  lemma DrainRequested(acts: seq<Action>, a: App, r: Runner) returns (acts': seq<Action>, a': App)
    requires After(START, acts) == Some(a) && Alone(a, r, false)
    ensures acts' == acts + [RequestDrain] && After(START, acts') == Some(a') && Alone(a', r, true)
  {
    Extend(START, acts, a, RequestDrain);
    acts', a' := acts + [RequestDrain], Step(a, RequestDrain);
  }

  /** A fresh runner has asked its source for deliveries, and got `batch`. */
  lemma Fetched(concurrency: nat, cancelSafe: bool, batch: seq<Delivery>) returns (acts: seq<Action>, a: App, r: Runner)
    requires concurrency >= 1 && |batch| <= concurrency
    ensures acts == [Spawn(0, "t", concurrency, cancelSafe), Run(0), FetchReturns(0, Got(batch))]
    ensures After(START, acts) == Some(a) && Alone(a, r, false)
    ensures r.pc == Fetching(concurrency, Some(Got(batch)), false) && r.flags.fetching
    ensures r.settings == Settings("t", concurrency, cancelSafe) && r.log == Log(batch, [], [], [], [], false, false)
  {
    r := Fresh("t", concurrency, cancelSafe);
    acts, a := Spawned(concurrency, cancelSafe);
    var r1 := Move(a, Run(0), r).r;
    assert r1.pc == Fetching(concurrency, None, false) && r1.log == r.log;
    acts, a := Goes(acts, a, r, false, Run(0));
    assert [] + batch == batch;
    r := Move(a, FetchReturns(0, Got(batch)), r1).r;
    acts, a := Goes(acts, a, r1, false, FetchReturns(0, Got(batch)));
  }

  /** A batch fetched without a stop is about to be reported. */
  lemma Reports(acts: seq<Action>, a: App, r: Runner) returns (acts': seq<Action>, a': App, r': Runner)
    requires After(START, acts) == Some(a) && Alone(a, r, false)
    requires r.pc.Fetching? && !r.pc.stopSeen && r.pc.result.Some? && r.pc.result.value.Got? && r.pc.result.value.batch != []
    ensures acts' == acts + [Run(0), Run(0)] && After(START, acts') == Some(a') && Alone(a', r', false)
    ensures r'.pc == Emitting(r.pc.result.value.batch) && r'.log == r.log
  {
    var r1 := Move(a, Run(0), r).r;
    acts', a' := Goes(acts, a, r, false, Run(0));
    r' := Move(a', Run(0), r1).r;
    acts', a' := Goes(acts', a', r1, false, Run(0));
  }

  /** Reporting a fetched batch raises: no handler is started for it, and it is not
      released. */
  lemma UnreportedIsLost(d: Delivery)
    ensures var b := After(START, [Spawn(0, "t", 1, false), Run(0), FetchReturns(0, Got([d])), Run(0), Run(0), EmitRaises(0)]);
      b.Some? && 0 in b.value.runners && b.value.runners[0].log == Log([d], [], [], [d], [], false, true)
  {
    var acts, a, r := Fetched(1, false, [d]);
    acts, a, r := Reports(acts, a, r);
    assert [] + [d] == [d];
    acts, a := Goes(acts, a, r, false, EmitRaises(0));
    assert acts == [Spawn(0, "t", 1, false), Run(0), FetchReturns(0, Got([d])), Run(0), Run(0), EmitRaises(0)];
  }

  lemma SeesStop(acts: seq<Action>, a: App, r: Runner) returns (acts': seq<Action>, a': App, r': Runner)
    requires After(START, acts) == Some(a) && Alone(a, r, true)
    requires r.pc.Fetching? && !r.pc.stopSeen && r.settings.cancelSafe
    ensures acts' == acts + [SeeStop(0), Run(0)] && After(START, acts') == Some(a') && Alone(a', r', true)
    ensures r'.pc == CancelFetch(r.pc.limit, r.pc.result, false, false) && r'.log == r.log
  {
    var r1 := Move(a, SeeStop(0), r).r;
    acts', a' := Goes(acts, a, r, true, SeeStop(0));
    r' := Move(a', Run(0), r1).r;
    acts', a' := Goes(acts', a', r1, true, Run(0));
  }

  /** The fetch of a cancel-safe source returns at the moment a drain is requested: its
      batch is dropped. */
  lemma LateBatchIsLost(d: Delivery)
    ensures var b := After(START, [Spawn(0, "t", 1, true), Run(0), FetchReturns(0, Got([d])), RequestDrain, SeeStop(0), Run(0), Run(0)]);
      b.Some? && 0 in b.value.runners && b.value.runners[0].log == Log([d], [], [], [d], [], false, false)
  {
    var acts, a, r := Fetched(1, true, [d]);
    acts, a := DrainRequested(acts, a, r);
    acts, a, r := SeesStop(acts, a, r);
    assert [] + [d] == [d];
    acts, a := Goes(acts, a, r, true, Run(0));
    assert acts == [Spawn(0, "t", 1, true), Run(0), FetchReturns(0, Got([d])), RequestDrain, SeeStop(0), Run(0), Run(0)];
  }

  lemma ReleasesNext(acts: seq<Action>, a: App, r: Runner) returns (acts': seq<Action>, a': App, r': Runner)
    requires After(START, acts) == Some(a) && Alone(a, r, true)
    requires r.pc.Releasing? && r.pc.next < |r.pc.batch|
    ensures acts' == acts + [Run(0)] && After(START, acts') == Some(a') && Alone(a', r', true)
    ensures r' == Released(r, r.pc.batch[r.pc.next], r.pc.next < r.pc.past).(
      pc := Releasing(r.pc.batch, r.pc.next + 1, r.pc.past, r.pc.handling))
  {
    r' := Move(a, Run(0), r).r;
    acts', a' := Goes(acts, a, r, true, Run(0));
  }

  lemma StartsRelease(acts: seq<Action>, a: App, r: Runner) returns (acts': seq<Action>, a': App, r': Runner)
    requires After(START, acts) == Some(a) && Alone(a, r, true)
    requires r.pc.Fetching? && !r.pc.stopSeen && r.pc.result.Some? && r.pc.result.value.Got?
    ensures acts' == acts + [Run(0)] && After(START, acts') == Some(a') && Alone(a', r', true)
    ensures r'.pc == Releasing(r.pc.result.value.batch, 0, 0, false) && r'.log == r.log
  {
    r' := Move(a, Run(0), r).r;
    acts', a' := Goes(acts, a, r, true, Run(0));
  }

  lemma CancelsRelease(acts: seq<Action>, a: App, r: Runner) returns (acts': seq<Action>, a': App, r': Runner)
    requires After(START, acts) == Some(a) && Alone(a, r, true) && r.pc.Releasing? && !r.pc.handling
    ensures acts' == acts + [Cancel(0)] && After(START, acts') == Some(a') && Alone(a', r', true)
    ensures r'.pc == Releasing(r.pc.batch, 0, r.pc.next, true) && r'.log == r.log.(cancelled := true)
  {
    r' := Move(a, Cancel(0), r).r;
    acts', a' := Goes(acts, a, r, true, Cancel(0));
  }

  /** A fetched batch is to be released for a drain; one delivery is, then the runner is
      cancelled. */
  lemma CancelledReleasing(batch: seq<Delivery>) returns (acts: seq<Action>, a: App, r: Runner)
    requires |batch| == 2
    ensures acts == [Spawn(0, "t", 2, false), Run(0), FetchReturns(0, Got(batch)), RequestDrain, Run(0), Run(0), Cancel(0)]
    ensures After(START, acts) == Some(a) && Alone(a, r, true)
    ensures r.pc == Releasing(batch, 0, 1, true) && r.log == Log(batch, [], [batch[0]], [], [], true, false)
  {
    acts, a, r := Fetched(2, false, batch);
    acts, a := DrainRequested(acts, a, r);
    acts, a, r := StartsRelease(acts, a, r);
    acts, a, r := ReleasesNext(acts, a, r);
    assert [] + [batch[0]] == [batch[0]];
    acts, a, r := CancelsRelease(acts, a, r);
  }

  /** A runner cancelled while it releases a batch starts over, and releases what it had
      released before once more. */
  lemma ReleasedAgain(d: Delivery, e: Delivery)
    ensures var b := After(START, [Spawn(0, "t", 2, false), Run(0), FetchReturns(0, Got([d, e])), RequestDrain, Run(0), Run(0),
                                   Cancel(0), Run(0), Run(0)]);
      b.Some? && 0 in b.value.runners && b.value.runners[0].log == Log([d, e], [], [d, e], [], [d], true, false)
  {
    var acts, a, r := CancelledReleasing([d, e]);
    acts, a, r := ReleasesNext(acts, a, r);
    acts, a, r := ReleasesNext(acts, a, r);
    assert [d] + [e] == [d, e] && [] + [d] == [d];
    assert acts == [Spawn(0, "t", 2, false), Run(0), FetchReturns(0, Got([d, e])), RequestDrain, Run(0), Run(0),
                    Cancel(0), Run(0), Run(0)];
  }
}
