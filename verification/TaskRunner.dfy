/** The runner loop as the program runs it between two awaits: fields set step by step,
    with the app's requests read as they stand.  Each method leaves the runner that the
    step functions of `StopProtocol` describe, and has signalled a change when they do. */
module TaskRunner {
  import opened Wrappers
  import P = StopProtocol

  class Runner {
    const settings: P.Settings
    var inflight: seq<P.Delivery>
    var fetching: bool
    var drainParked: bool
    var pauseParked: bool
    var pc: P.Pc
    var log: P.Log
    var notified: bool          // has this stretch signalled a change?

    constructor (settings: P.Settings)
      ensures this.settings == settings && Now() == P.Moved(P.Fresh(settings.task, settings.concurrency, settings.cancelSafe), false)
    {
      this.settings := settings;
      inflight, fetching, drainParked, pauseParked := [], false, false, false;
      pc, log, notified := P.Top, P.Log([], [], [], [], [], false, false), false;
    }

    function Now(): P.Moved
      reads this
    {
      P.Moved(P.Runner(settings, inflight, P.Flags(fetching, drainParked, pauseParked), pc, log), notified)
    }

    method SetFetching(value: bool)
      modifies this`fetching, this`notified
      ensures Now() == P.SetFetching(old(Now()), value)
    {
      if fetching != value {
        fetching, notified := value, true;
      }
    }

    method SetDrainParked(value: bool)
      modifies this`drainParked, this`notified
      ensures Now() == P.SetDrainParked(old(Now()), value)
    {
      if drainParked != value {
        drainParked, notified := value, true;
      }
    }

    method SetPauseParked(value: bool)
      modifies this`pauseParked, this`notified
      ensures Now() == P.SetPauseParked(old(Now()), value)
    {
      if pauseParked != value {
        pauseParked, notified := value, true;
      }
    }

    /** The `finally` of the loop, up to its wait for the handlers. */
    method Exit()
      modifies this
      ensures Now() == P.Exit(old(Now()))
    {
      SetDrainParked(false);
      SetPauseParked(false);
      SetFetching(false);
      pc := P.Finishing;
    }

    /** From the loop head to the next await. */
    method RunFromTop(a: P.App)
      modifies this
      ensures Now() == P.LoopTop(a, old(Now()))
    {
      if a.stopping {
        Exit();
      } else if P.IsDraining(a) {
        if inflight != [] {
          pc := P.WaitInflight;
        } else {
          SetPauseParked(false);
          SetDrainParked(true);
          pc := P.DrainPark;
        }
      } else if P.IsPaused(a, settings.task) {
        if inflight != [] {
          pc := P.WaitInflight;
        } else {
          SetDrainParked(false);
          SetPauseParked(true);
          pc := P.PausePark;
        }
      } else {
        var resumedFromPause := pauseParked;
        SetDrainParked(false);
        if resumedFromPause {
          pc := P.ResumeHook;
        } else {
          RunFromResumed(a);
        }
      }
    }

    /** After the resume hook, up to the wait inside the fetch. */
    method RunFromResumed(a: P.App)
      modifies this
      ensures Now() == P.BeginFetch(a, old(Now()))
    {
      SetPauseParked(false);
      var available := settings.concurrency - |inflight|;
      if available <= 0 {
        pc := P.WaitInflight;
      } else if P.StopFetching(a, settings.task) {
        RunFromEmptyFetch(a);
      } else {
        SetFetching(true);
        pc := P.Fetching(available, None, false);
      }
    }

    method RunFromEmptyFetch(a: P.App)
      modifies this
      ensures Now() == P.AfterEmptyFetch(a, old(Now()))
    {
      if a.stopping {
        Exit();
      } else {
        pc := if inflight != [] then P.WaitInflight else P.Sleep;
      }
    }

    /** The fetch task has ended; `stopped` tells whether a stop was seen first. */
    method ResolveFetch(a: P.App, result: P.FetchResult, stopped: bool)
      modifies this
      ensures Now() == P.Resolve(a, old(Now()), result, stopped)
    {
      match result {
        case Fatal =>
          LeaveFetch();
        case Aborted =>
          LeaveFetch();
        case Retryable =>
          pc := P.Backoff(stopped, false);
        case Got(batch) =>
          ReleaseOrReturn(a, batch, stopped);
      }
    }

    /** An exception leaves the fetch through its `finally`. */
    method LeaveFetch()
      modifies this
      ensures Now() == P.LeaveFetch(old(Now()))
    {
      SetFetching(false);
      pc := P.FetchFailed;
    }

    /** What the loop holds reaches nobody. */
    method Drop()
      modifies this`log
      ensures Now() == P.Drop(old(Now()))
    {
      log := log.(lost := log.lost + P.Held(pc));
    }

    /** In the handler of a cancellation: takes up what the fetch gave, to release it. */
    method ResolveHandling(result: P.FetchResult)
      modifies this
      ensures Now() == P.ResolveHandling(old(Now()), result, 0)
    {
      match result {
        case Got(batch) => pc := P.Releasing(batch, 0, 0, true);
        case Retryable => pc := P.Backoff(true, true);
        case Fatal => LeaveFetch();
        case Aborted => LeaveFetch();
      }
    }

    method ReleaseOrReturn(a: P.App, batch: seq<P.Delivery>, stopped: bool)
      modifies this
      ensures Now() == P.Deliver(a, old(Now()), batch, stopped)
    {
      if stopped || P.StopFetching(a, settings.task) {
        pc := P.Releasing(batch, 0, 0, false);
      } else {
        SetFetching(false);
        pc := P.FetchExit(batch);
      }
    }

    /** Starts a handler for each delivery of the batch. */
    method StartHandlers(batch: seq<P.Delivery>)
      modifies this`inflight, this`log, this`notified
      ensures inflight == old(inflight) + batch
      ensures log == old(log).(started := old(log.started) + batch)
      ensures notified == (old(notified) || batch != [])
    {
      for i := 0 to |batch|
        invariant inflight == old(inflight) + batch[..i]
        invariant log == old(log).(started := old(log.started) + batch[..i])
        invariant notified == (old(notified) || i > 0)
      {
        inflight := inflight + [batch[i]];
        log := log.(started := log.started + [batch[i]]);
        notified := true;
      }
      assert batch[..|batch|] == batch;
    }

    /** The await of the loop ends: runs to the next one. */
    method Resume(a: P.App)
      requires P.CanWake(a, Now().r) && !notified
      modifies this
      ensures Now() == P.Wake(a, old(Now().r))
    {
      match pc {
        case Top => RunFromTop(a);
        case WaitInflight => RunFromTop(a);
        case Sleep => RunFromTop(a);
        case PausePark => RunFromTop(a);
        case DrainPark => Exit();
        case ResumeHook => RunFromResumed(a);
        case Fetching(limit, result, stopSeen) =>
          if !stopSeen {
            ResolveFetch(a, result.value, false);
          } else if settings.cancelSafe {
            pc := P.CancelFetch(limit, result, false, false);
          } else {
            pc := P.AwaitFetch(limit, result, false, false);
          }
        case AwaitFetch(_, result, _, handling) =>
          if handling {
            ResolveHandling(result.value);
          } else {
            ResolveFetch(a, result.value, true);
          }
        case Backoff(stopped, handling) =>
          if handling {
            LeaveFetch();
          } else {
            ReleaseOrReturn(a, [], stopped);
          }
        case FetchExit(batch) =>
          if batch == [] {
            RunFromEmptyFetch(a);
          } else {
            pc := P.Emitting(batch);
          }
        case FetchFailed => Exit();
        case Finishing => pc := P.Done;
        case CancelFetch(_, _, _, _) => ResumeCancelledFetch();
        case Releasing(_, _, _, _) => ResumeRelease();
        case Emitting(batch) =>
          StartHandlers(batch);
          pc := P.Top;
      }
    }

    /** A cancelled fetch has ended. */
    method ResumeCancelledFetch()
      requires pc.CancelFetch? && pc.result.Some? && !notified
      modifies this
      ensures forall a: P.App :: Now() == P.Wake(a, old(Now().r))
    {
      if pc.interrupted {
        ResolveHandling(pc.result.value);
      } else if pc.handling {
        Drop();
        LeaveFetch();
      } else {
        Drop();
        SetFetching(false);
        pc := P.FetchExit([]);
      }
    }

    /** One release has ended; the next begins, or the fetch is left. */
    method ResumeRelease()
      requires pc.Releasing? && !notified
      modifies this
      ensures Now() == P.Release(old(Now()))
    {
      var Releasing(batch, next, past, handling) := pc;
      if next < |batch| {
        if next < past {
          log := log.(repeated := log.repeated + [batch[next]]);
        } else {
          log := log.(released := log.released + [batch[next]]);
        }
        pc := P.Releasing(batch, next + 1, past, handling);
      } else if handling {
        LeaveFetch();
      } else {
        SetFetching(false);
        pc := P.FetchExit([]);
      }
    }

    /** The loop is cancelled at its await: a fetch is cancelled or let finish, and what it
        gave is released; anywhere else, or for the second time, the loop is left. */
    method Interrupt()
      requires !notified
      modifies this
      ensures Now() == P.Interrupt(old(Now().r))
    {
      log := log.(cancelled := true);
      match pc {
        case Fetching(limit, result, _) =>
          if result.Some? {
            ResolveHandling(result.value);
          } else if settings.cancelSafe {
            pc := P.CancelFetch(limit, None, false, true);
          } else {
            pc := P.AwaitFetch(limit, None, false, true);
          }
        case AwaitFetch(limit, None, _, handling) => pc := P.AwaitFetch(limit, None, true, handling);
        case AwaitFetch(_, Some(result), _, handling) => InterruptHolding(result, handling);
        case CancelFetch(limit, None, _, handling) => pc := P.CancelFetch(limit, None, !handling, handling);
        case CancelFetch(_, Some(result), _, handling) => InterruptHolding(result, handling);
        case Backoff(_, handling) =>
          if handling {
            LeaveFetch();
          } else {
            pc := P.Backoff(true, true);
          }
        case Releasing(batch, next, _, handling) =>
          if handling {
            Drop();
            LeaveFetch();
          } else {
            pc := P.Releasing(batch, 0, next, true);
          }
        case _ =>
          Drop();
          Exit();
      }
    }

    /** The fetch has ended already: its batch is released, or dropped the second time. */
    method InterruptHolding(result: P.FetchResult, handling: bool)
      modifies this
      ensures Now() == if handling then P.LeaveFetch(P.Drop(old(Now()))) else P.ResolveHandling(old(Now()), result, 0)
    {
      if handling {
        Drop();
        LeaveFetch();
      } else {
        ResolveHandling(result);
      }
    }

    /** Reporting the fetched batch raises: the loop is left, the batch reaches nobody. */
    method EmitRaises()
      requires pc.Emitting? && !notified
      modifies this
      ensures Now() == P.Exit(P.Drop(P.Moved(old(Now().r.(log := log.(emitFailed := true))), false)))
    {
      log := log.(emitFailed := true);
      Drop();
      Exit();
    }

    /** A handler has ended. */
    method HandlerDone(i: nat)
      requires i < |inflight|
      modifies this`inflight, this`notified
      ensures inflight == P.RemoveAt(old(inflight), i) && notified
    {
      inflight, notified := P.RemoveAt(inflight, i), true;
    }
  }
}
