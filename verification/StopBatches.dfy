/** What becomes of one fetched batch: released if its task must not fetch when the loop
    takes it up, and started otherwise. */
module StopBatches {
  import opened Wrappers
  import opened StopProtocol
  import opened StopSafety
  import opened StopClaims

  /** Must the task not fetch: shutdown or a drain was requested, or a pause of the task? */
  predicate MustNotFetch(a: App, task: string) { a.stopping || a.drainRequested || task in a.pausedTasks }

  /** The loop is about to take up a batch, nothing being wrong with the fetch. */
  predicate HoldsBatch(r: Runner, batch: seq<Delivery>) {
    match r.pc
    case Fetching(_, Some(Got(b)), _) => b == batch
    case AwaitFetch(_, Some(Got(b)), _, _) => b == batch
    case CancelFetch(_, Some(Got(b)), interrupted, _) => b == batch && interrupted
    case _ => false
  }

  /** It takes it up too late: its task must not fetch, or its stop watcher has ended or it
      was cancelled, and the fetch was let finish. */
  predicate TooLate(a: App, r: Runner) {
    match r.pc
    case Fetching(_, _, stopSeen) => if stopSeen then !r.settings.cancelSafe else MustNotFetch(a, r.Task())
    case AwaitFetch(_, _, _, _) => true
    case CancelFetch(_, _, _, _) => true
    case _ => false
  }

  predicate InTime(a: App, r: Runner) {
    r.pc.Fetching? && !r.pc.stopSeen && !MustNotFetch(a, r.Task())
  }

  // --------------------------------------------------------- once it is settled

  /** Since `log`, `started` was started and `released` released first of all; and as long
      as nothing more was claimed, nothing else was. */
  predicate Settled(log: Log, started: seq<Delivery>, released: seq<Delivery>, r: Runner) {
    && log.claimed <= r.log.claimed && log.lost <= r.log.lost
    && log.started + started <= r.log.started && log.released + released <= r.log.released
    && (r.log.claimed == log.claimed ==>
          Held(r.pc) == [] && r.log.started == log.started + started && r.log.released == log.released + released)
  }

  lemma PrefixGrows(xs: seq<Delivery>, ys: seq<Delivery>, more: seq<Delivery>)
    requires xs <= ys
    ensures xs <= ys + more && (ys + more == xs ==> ys == xs && more == [])
  {
  }

  lemma EffectKeepsSettled(log: Log, started: seq<Delivery>, released: seq<Delivery>, r: Runner, r': Runner, effect: Effect)
    requires Settled(log, started, released, r) && HasEffect(r, r', effect)
    ensures Settled(log, started, released, r')
  {
    var held := Held(r.pc);
    match effect {
      case Starts => PrefixGrows(log.started + started, r.log.started, held);
      case Releases => PrefixGrows(log.released + released, r.log.released, [held[0]]);
      case Drops => PrefixGrows(log.lost, r.log.lost, held);
      case Claims(batch) => PrefixGrows(log.claimed, r.log.claimed, batch);
      case _ =>
    }
  }

  // ------------------------------------------------------------ on the way there

  /** How often the loop of runner `id` runs in `acts`. */
  function Runs(acts: seq<Action>, id: nat): nat {
    if acts == [] then 0 else (if acts[0] == Run(id) then 1 else 0) + Runs(acts[1..], id)
  }

  /** The runner is still giving back the batch, with at most `left` of its steps to go. */
  predicate GivingBack(log: Log, batch: seq<Delivery>, r: Runner, left: int) {
    match r.pc
    case AwaitFetch(_, Some(Got(b)), _, _) => b == batch && r.log == log && left == |batch| + 2
    case Releasing(b, next, past, _) =>
      && b == batch && next <= |batch| && past == 0 && left == |batch| - next + 1
      && r.log == log.(released := log.released + batch[..next])
    case _ => false
  }

  /** It is still about to start the batch. */
  predicate AboutToStart(log: Log, batch: seq<Delivery>, r: Runner, left: int) {
    match r.pc
    case FetchExit(b) => b == batch && r.log == log && left == 2
    case Emitting(b) => b == batch && r.log == log && left == 1
    case _ => false
  }

  /** The runner was not replaced, nor cancelled. */
  predicate Undisturbed(act: Action, id: nat) {
    act != Cancel(id) && !(act.Unregister? && act.id == id)
  }

  lemma TakesUpToRelease(a: App, r: Runner, batch: seq<Delivery>)
    requires HoldsBatch(r, batch) && TooLate(a, r) && CanWake(a, r)
    ensures exists left :: 0 <= left <= |batch| + 2 && GivingBack(r.log, batch, Wake(a, r).r, left)
  {
    assert batch[..0] == [] && r.log.released + [] == r.log.released;
    var r' := Wake(a, r).r;
    if r'.pc.AwaitFetch? {
      assert GivingBack(r.log, batch, r', |batch| + 2);
    } else {
      assert GivingBack(r.log, batch, r', |batch| + 1);
    }
  }

  lemma AwaitsToRelease(a: App, r: Runner, log: Log, batch: seq<Delivery>)
    requires GivingBack(log, batch, r, |batch| + 2) && r.pc.AwaitFetch?
    ensures CanWake(a, r) && GivingBack(log, batch, Wake(a, r).r, |batch| + 1)
  {
    assert batch[..0] == [] && log.released + [] == log.released;
  }

  lemma ReleasesOn(a: App, r: Runner, log: Log, batch: seq<Delivery>, left: int)
    requires GivingBack(log, batch, r, left) && r.pc.Releasing? && left > 1
    ensures GivingBack(log, batch, Wake(a, r).r, left - 1)
  {
    var next := r.pc.next;
    assert batch[..next + 1] == batch[..next] + [batch[next]];
    assert log.released + batch[..next] + [batch[next]] == log.released + batch[..next + 1];
  }

  lemma ReleasesLast(a: App, r: Runner, log: Log, batch: seq<Delivery>)
    requires GivingBack(log, batch, r, 1) && r.pc.Releasing?
    ensures Settled(log, [], batch, Wake(a, r).r)
  {
    assert batch[..|batch|] == batch && log.started + [] == log.started;
  }

  /** An undisturbed step brings the release on, and finishes it in the end. */
  lemma GivesBack(a: App, act: Action, r: Runner, id: nat, log: Log, batch: seq<Delivery>, left: int)
    requires Enabled(a, act) && Target(act) == Some(id) && r == a.runners[id] && Undisturbed(act, id)
    requires GivingBack(log, batch, r, left)
    ensures var r' := Move(a, act, r).r;
      if act != Run(id) then GivingBack(log, batch, r', left)
      else if left > 1 then GivingBack(log, batch, r', left - 1)
      else Settled(log, [], batch, r')
  {
    match act {
      case Run(_) =>
        if r.pc.AwaitFetch? {
          AwaitsToRelease(a, r, log, batch);
        } else if left > 1 {
          ReleasesOn(a, r, log, batch, left);
        } else {
          ReleasesLast(a, r, log, batch);
        }
      case _ =>
    }
  }

  lemma Starts(a: App, act: Action, r: Runner, id: nat, log: Log, batch: seq<Delivery>, left: int)
    requires Enabled(a, act) && Target(act) == Some(id) && r == a.runners[id] && Undisturbed(act, id)
    requires AboutToStart(log, batch, r, left) && batch != [] && act != EmitRaises(id)
    ensures var r' := Move(a, act, r).r;
      if act != Run(id) then AboutToStart(log, batch, r', left)
      else if left > 1 then AboutToStart(log, batch, r', left - 1)
      else Settled(log, batch, [], r')
  {
    assert log.released + [] == log.released;
  }

  // ------------------------------------------------------------------ whole runs

  lemma OtherRunner(a: App, act: Action, id: nat)
    requires Enabled(a, act) && id in a.runners && Target(act) != Some(id) && Undisturbed(act, id)
    ensures id in Step(a, act).runners && Step(a, act).runners[id] == a.runners[id]
  {
    StepRunners(a, act);
  }

  lemma OwnStep(a: App, act: Action, id: nat)
    requires Enabled(a, act) && id in a.runners && Target(act) == Some(id)
    ensures id in Step(a, act).runners && Step(a, act).runners[id] == Move(a, act, a.runners[id]).r
  {
    StepRunners(a, act);
  }

  lemma StaysSettledStep(a: App, act: Action, id: nat, log: Log, started: seq<Delivery>, released: seq<Delivery>)
    requires Ok(a) && Enabled(a, act) && id in a.runners && Undisturbed(act, id)
    requires Settled(log, started, released, a.runners[id])
    ensures id in Step(a, act).runners && Settled(log, started, released, Step(a, act).runners[id])
  {
    if Target(act) == Some(id) {
      OwnStep(a, act, id);
      MoveEffect(a, act, a.runners[id]);
      EffectKeepsSettled(log, started, released, a.runners[id], Move(a, act, a.runners[id]).r, EffectOf(act, a.runners[id]));
    } else {
      OtherRunner(a, act, id);
    }
  }

  lemma {:induction false} StaysSettled(a: App, acts: seq<Action>, id: nat, log: Log,
                                        started: seq<Delivery>, released: seq<Delivery>)
    requires Ok(a) && id in a.runners && Settled(log, started, released, a.runners[id])
    requires (forall act <- acts :: Undisturbed(act, id)) && After(a, acts).Some?
    ensures var b := After(a, acts).value; id in b.runners && Settled(log, started, released, b.runners[id])
    decreases |acts|
  {
    if acts != [] {
      StepKeepsOk(a, acts[0]);
      StaysSettledStep(a, acts[0], id, log, started, released);
      StaysSettled(Step(a, acts[0]), acts[1..], id, log, started, released);
    }
  }

  /** Either still on its way, or settled, and certainly so after `left` steps. */
  ghost predicate GivenBackAfter(log: Log, batch: seq<Delivery>, b: App, id: nat, left: int, runs: nat) {
    && id in b.runners
    && ((exists l :: GivingBack(log, batch, b.runners[id], l) && runs < left)
        || Settled(log, [], batch, b.runners[id]))
  }

  lemma {:induction false} RunGivesBack(a: App, acts: seq<Action>, id: nat, log: Log, batch: seq<Delivery>, left: int)
    requires Ok(a) && id in a.runners && GivingBack(log, batch, a.runners[id], left)
    requires (forall act <- acts :: Undisturbed(act, id)) && After(a, acts).Some?
    ensures GivenBackAfter(log, batch, After(a, acts).value, id, left, Runs(acts, id))
    decreases |acts|
  {
    if acts != [] {
      var act, rest := acts[0], acts[1..];
      var a' := Step(a, act);
      StepKeepsOk(a, act);
      if Target(act) == Some(id) {
        OwnStep(a, act, id);
        GivesBack(a, act, a.runners[id], id, log, batch, left);
      } else {
        OtherRunner(a, act, id);
      }
      if act == Run(id) && left <= 1 {
        StaysSettled(a', rest, id, log, [], batch);
      } else {
        RunGivesBack(a', rest, id, log, batch, if act == Run(id) then left - 1 else left);
      }
    }
  }

  ghost predicate StartedAfter(log: Log, batch: seq<Delivery>, b: App, id: nat, left: int, runs: nat) {
    && id in b.runners
    && ((exists l :: AboutToStart(log, batch, b.runners[id], l) && runs < left)
        || Settled(log, batch, [], b.runners[id]))
  }

  lemma {:induction false} RunStarts(a: App, acts: seq<Action>, id: nat, log: Log, batch: seq<Delivery>, left: int)
    requires Ok(a) && id in a.runners && AboutToStart(log, batch, a.runners[id], left) && batch != []
    requires (forall act <- acts :: Undisturbed(act, id) && act != EmitRaises(id)) && After(a, acts).Some?
    ensures StartedAfter(log, batch, After(a, acts).value, id, left, Runs(acts, id))
    decreases |acts|
  {
    if acts != [] {
      var act, rest := acts[0], acts[1..];
      var a' := Step(a, act);
      StepKeepsOk(a, act);
      if Target(act) == Some(id) {
        OwnStep(a, act, id);
        Starts(a, act, a.runners[id], id, log, batch, left);
      } else {
        OtherRunner(a, act, id);
      }
      if act == Run(id) && left <= 1 {
        StaysSettled(a', rest, id, log, batch, []);
      } else {
        RunStarts(a', rest, id, log, batch, if act == Run(id) then left - 1 else left);
      }
    }
  }

  /** As often as a delivery was started since, it was claimed since: no delivery of the
      batch was. */
  ghost predicate StartedOnlyLater(log: Log, log': Log) {
    forall d: Delivery ::
      Tally(log'.started, d) - Tally(log.started, d) <= Tally(log'.claimed, d) - Tally(log.claimed, d)
  }

  lemma SettledStartsOnlyLater(r: Runner, r': Runner, batch: seq<Delivery>)
    requires Accounted(r) && Accounted(r') && Held(r.pc) == batch && Settled(r.log, [], batch, r')
    ensures StartedOnlyLater(r.log, r'.log)
  {
    forall d: Delivery
      ensures Tally(r'.log.started, d) - Tally(r.log.started, d) <= Tally(r'.log.claimed, d) - Tally(r.log.claimed, d)
    {
      PrefixTally(r.log.lost, r'.log.lost, d);
      PrefixTally(r.log.released + batch, r'.log.released, d);
      TallyAppend(r.log.released, batch, d);
    }
  }

  lemma PrefixTally(xs: seq<Delivery>, ys: seq<Delivery>, d: Delivery)
    requires xs <= ys
    ensures Tally(xs, d) <= Tally(ys, d)
  {
    assert ys == xs + ys[|xs|..];
    TallyAppend(xs, ys[|xs|..], d);
  }

  /** In every run: a batch that a loop takes up too late, after a shutdown, a drain or a pause
      was requested, its stop watcher ended or it was cancelled, is released whole, before
      anything else, and none of it is ever started, unless it is cancelled again. */
  lemma LateBatchReleased(acts: seq<Action>, id: nat, batch: seq<Delivery>, more: seq<Action>)
    requires After(START, acts).Some? && id in After(START, acts).value.runners
    requires var a := After(START, acts).value; HoldsBatch(a.runners[id], batch) && TooLate(a, a.runners[id])
    requires After(After(START, acts).value, [Run(id)] + more).Some? && forall act <- more :: Undisturbed(act, id)
    ensures var a := After(START, acts).value; var b := After(a, [Run(id)] + more).value;
      && id in b.runners
      && var log, log' := a.runners[id].log, b.runners[id].log;
         && (log'.started != log.started ==> log.released + batch <= log'.released)
         && StartedOnlyLater(log, log')
         && (Runs(more, id) >= |batch| + 2 ==> log.released + batch <= log'.released)
  {
    var a := After(START, acts).value;
    var r := a.runners[id];
    AlwaysOk(START, acts);
    RunTells(START, acts, id, Story(false, false));
    TakesUpLate(a, id, batch, more);
    RunTells(a, [Run(id)] + more, id, Story(r.log.lost != [], r.log.repeated != []));
    var b := After(a, [Run(id)] + more).value;
    if Settled(r.log, [], batch, b.runners[id]) {
      SettledStartsOnlyLater(r, b.runners[id], batch);
    }
  }

  lemma TakesUpLate(a: App, id: nat, batch: seq<Delivery>, more: seq<Action>)
    requires Ok(a) && id in a.runners && HoldsBatch(a.runners[id], batch) && TooLate(a, a.runners[id])
    requires After(a, [Run(id)] + more).Some? && forall act <- more :: Undisturbed(act, id)
    ensures GivenBackAfter(a.runners[id].log, batch, After(a, [Run(id)] + more).value, id, |batch| + 2, Runs(more, id))
  {
    var r := a.runners[id];
    var all := [Run(id)] + more;
    assert all[0] == Run(id) && all[1..] == more;
    OwnStep(a, Run(id), id);
    TakesUpToRelease(a, r, batch);
    var left :| 0 <= left <= |batch| + 2 && GivingBack(r.log, batch, Wake(a, r).r, left);
    StepKeepsOk(a, Run(id));
    RunGivesBack(Step(a, Run(id)), more, id, r.log, batch, left);
  }

  /** And one it takes up in time is started whole, unless reporting it raises, whatever is
      requested from then on. */
  lemma TimelyBatchStarted(acts: seq<Action>, id: nat, batch: seq<Delivery>, more: seq<Action>)
    requires After(START, acts).Some? && id in After(START, acts).value.runners && batch != []
    requires var a := After(START, acts).value; HoldsBatch(a.runners[id], batch) && InTime(a, a.runners[id])
    requires After(After(START, acts).value, [Run(id)] + more).Some?
    requires forall act <- more :: Undisturbed(act, id) && act != EmitRaises(id)
    ensures var a := After(START, acts).value; var b := After(a, [Run(id)] + more).value;
      && id in b.runners
      && var log, log' := a.runners[id].log, b.runners[id].log;
         && (log'.claimed == log.claimed ==> log'.released == log.released)
         && (Runs(more, id) >= 2 ==> log.started + batch <= log'.started)
  {
    var a := After(START, acts).value;
    var r := a.runners[id];
    AlwaysOk(START, acts);
    var all := [Run(id)] + more;
    assert all[0] == Run(id) && all[1..] == more;
    var a' := Step(a, Run(id));
    OwnStep(a, Run(id), id);
    assert AboutToStart(r.log, batch, Wake(a, r).r, 2);
    StepKeepsOk(a, Run(id));
    RunStarts(a', more, id, r.log, batch, 2);
    assert r.log.released + [] == r.log.released;
  }

  // ------------------------------------------------------------ once cancelled

  /** The loop is on its way out of a cancelled fetch, or out already. */
  predicate WayOut(pc: Pc) {
    Handling(pc) || pc.FetchFailed? || pc.Finishing? || pc.Done? || (pc.CancelFetch? && pc.interrupted)
  }

  lemma InterruptLeads(r: Runner)
    requires !(r.pc.AwaitFetch? && r.pc.result.None?)
    ensures WayOut(Interrupt(r).r.pc) && Interrupt(r).r.log.started == r.log.started
  {
    ExitRecord(Drop(Moved(r.(log := r.log.(cancelled := true)), false)));
  }

  lemma WayOutStep(a: App, act: Action, r: Runner)
    requires Enabled(a, act) && Target(act).Some? && r == a.runners[Target(act).value]
    requires WayOut(r.pc)
    ensures var r' := Move(a, act, r).r; WayOut(r'.pc) && r'.log.started == r.log.started
  {
    match act {
      case Run(_) => WayOutWake(a, r);
      case Cancel(_) => WayOutInterrupt(r);
      case _ =>
    }
  }

  lemma WayOutInterrupt(r: Runner)
    requires WayOut(r.pc)
    ensures var r' := Interrupt(r).r; WayOut(r'.pc) && r'.log.started == r.log.started
  {
    ExitRecord(Drop(Moved(r.(log := r.log.(cancelled := true)), false)));
  }

  lemma WayOutWake(a: App, r: Runner)
    requires WayOut(r.pc) && CanWake(a, r)
    ensures var r' := Wake(a, r).r; WayOut(r'.pc) && r'.log.started == r.log.started
  {
    ExitRecord(Moved(r, false));
  }

  lemma {:induction false} WayOutStays(a: App, acts: seq<Action>, id: nat)
    requires id in a.runners && WayOut(a.runners[id].pc) && After(a, acts).Some?
    requires forall act <- acts :: !(act.Unregister? && act.id == id)
    ensures var b := After(a, acts).value;
      id in b.runners && WayOut(b.runners[id].pc) && b.runners[id].log.started == a.runners[id].log.started
    decreases |acts|
  {
    if acts != [] {
      StepRunners(a, acts[0]);
      if Target(acts[0]) == Some(id) {
        WayOutStep(a, acts[0], a.runners[id]);
      }
      WayOutStays(Step(a, acts[0]), acts[1..], id);
    }
  }

  /** From its cancellation on a loop starts no delivery, unless the cancellation was passed
      on to a fetch that swallows it. */
  lemma CancelledStartsNothing(a: App, acts: seq<Action>, id: nat)
    requires Enabled(a, Cancel(id)) && !(a.runners[id].pc.AwaitFetch? && a.runners[id].pc.result.None?)
    requires After(a, [Cancel(id)] + acts).Some? && forall act <- acts :: !(act.Unregister? && act.id == id)
    ensures var b := After(a, [Cancel(id)] + acts).value;
      id in b.runners && b.runners[id].log.started == a.runners[id].log.started
  {
    var all := [Cancel(id)] + acts;
    assert all[0] == Cancel(id) && all[1..] == acts;
    InterruptLeads(a.runners[id]);
    OwnStep(a, Cancel(id), id);
    WayOutStays(Step(a, Cancel(id)), acts, id);
  }
}
