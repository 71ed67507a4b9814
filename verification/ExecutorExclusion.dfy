/**
 * At most one non-quiescent run: exactly when no start is committed under another start's latch.
 *
 * The `starting` flag is shared. A start that timed out keeps it set until its watcher ends, and the
 * watcher ends only after releasing the workspace, when the slot is already free for the next offer.
 */
module ExecutorExclusion {
  import opened Core
  import opened Wire
  import opened Lease
  import opened ExecutorState
  import opened ExecutorProtocol
  import opened ExecutorSafety

  /** The step commits a start: settle goes on to wait for driver.start. */
  predicate CommitsStart(c: Setup, w: World, e: Event)
    requires Enabled(c, w, e)
  {
    Apply(c, w, e).settle.AwaitStart? && !w.settle.AwaitStart?
  }

  /** What start() would have to check on entry, and does not: no other start holds the latch. */
  predicate Guarded(c: Setup, w: World, e: Event)
    requires Enabled(c, w, e)
  {
    CommitsStart(c, w, e) ==> !w.starting
  }

  /** The start whose driver call has not settled, if any. */
  function PendingFence(w: World): Option<Fence> {
    if w.settle.AwaitStart? then Some(w.settle.fence)
    else if |w.late| == 1 && w.late[0].LatePending? then Some(w.late[0].fence)
    else None
  }

  /** A pending start owns the slot, and nobody else is reconciling that run. */
  ghost predicate PendingAlone(w: World) {
    PendingFence(w).Some? ==>
      var f := PendingFence(w).value;
      && SlotIs(w.snap, f) && f !in w.proofs
      && (w.live.Some? ==> w.live.value.fence != f && w.live.value.handle != f)
      && (w.recover.AwaitRecover? ==> w.recover.fence != f)
      && (w.settle.AwaitStop? ==> w.settle.fence != f)
  }

  ghost predicate Latch(w: World) {
    && |w.late| <= 1 && (w.settle.AwaitStart? ==> w.late == [])
    && (w.starting <==> w.settle.AwaitStart? || w.late != [])
  }

  /** Unproved starts hold the slot; proved ones produce no work. */
  ghost predicate Held(w: World) {
    && (forall f :: f in w.calls ==> PendingFence(w) == Some(f))
    && (forall f :: f in w.starts ==> f in w.proofs || SlotIs(w.snap, f))
    && (forall f :: f in w.running ==> f !in w.proofs)
  }

  ghost predicate Excl(w: World) {
    Latch(w) && PendingAlone(w) && Held(w)
  }

  lemma SnapKeepsExcl(w: World, t: Snapshot)
    requires Excl(w) && (w.snap.slot.Some? ==> SlotIs(t, w.snap.slot.value.fence))
    ensures Excl(w.(snap := t))
  {
  }

  lemma PcKeepsExcl(w: World, next: SettlePc)
    requires Excl(w) && !w.settle.AwaitStart? && !next.AwaitStart?
    requires next.AwaitStop? ==> PendingFence(w) != Some(next.fence)
    ensures Excl(w.(settle := next))
  {
  }

  lemma FinishKeepsExcl(w: World, g: Fence, outcome: Outcome)
    requires Inv(w) && Excl(w)
    requires SlotIs(w.snap, g) && w.snap.slot.value.mayHaveStarted ==> g in w.proofs
    ensures Excl(Finish(w, g, outcome))
  {
    var t := Finish(w, g, outcome);
    if PendingFence(w).Some? {
      var f := PendingFence(w).value;
      assert Committed(w.snap, f) by {
        if !w.settle.AwaitStart? {
          assert LateOk(w, w.late[0]);
        }
      }
      assert f != g;
    }
  }

  lemma ParkKeepsExcl(w: World, g: Fence, reason: StopReason)
    requires Excl(w)
    ensures Excl(Park(w, g, reason))
  {
    SnapKeepsExcl(w, UnknownEvent(w.snap, g, reason).state);
  }

  lemma CommitKeepsExcl(w: World, f: Fence, pass: nat)
    requires Inv(w) && Excl(w) && !w.settle.AwaitStart?
    requires StartingEvent(w.snap, f).Some? ==> !w.starting
    ensures Excl(CommitStart(w, f, pass))
  {
    CommitAdvances(w.snap, f);
    if StartingEvent(w.snap, f).Some? {
      var t := CommitStart(w, f, pass);
      assert t.late == [] && PendingFence(t) == Some(f);
    } else {
      PcKeepsExcl(w, Loop(pass + 1));
    }
  }

  lemma FinishToLoopKeepsExcl(w: World, g: Fence, outcome: Outcome, pass: nat)
    requires Inv(w) && Excl(w) && !w.settle.AwaitStart?
    requires SlotIs(w.snap, g) && w.snap.slot.value.mayHaveStarted ==> g in w.proofs
    ensures Excl(Finish(w, g, outcome).(settle := Loop(pass)))
  {
    FinishKeepsExcl(w, g, outcome);
    PcKeepsExcl(Finish(w, g, outcome), Loop(pass));
  }

  lemma ParkToKeepsExcl(w: World, g: Fence, reason: StopReason, next: SettlePc)
    requires Excl(w) && !w.settle.AwaitStart? && (next.Idle? || next.Loop?)
    ensures Excl(Park(w, g, reason).(settle := next))
  {
    ParkKeepsExcl(w, g, reason);
    PcKeepsExcl(Park(w, g, reason), next);
  }

  lemma SettleSlotKeepsExcl(c: Setup, w: World, pass: nat)
    requires Inv(w) && Excl(w) && !w.faulted && w.settle.Loop?
    requires SettleSlot(c, w, pass).settle.AwaitStart? ==> !w.starting
    ensures Excl(SettleSlot(c, w, pass))
  {
    PcKeepsExcl(w, Idle);
    if w.snap.slot.Some? {
      var run := w.snap.slot.value;
      if w.live.Some? && w.live.value.fence != run.fence {
      } else if w.live.Some? && w.live.value.outcome.Some? {
        PublishKeepsExcl(c, w, run.fence, w.live.value.outcome.value, pass);
      } else if run.phase.Prepared? {
        PreparedKeepsExcl(c, w, run.fence, pass);
      } else if run.phase.Stopping? {
        StoppingKeepsExcl(w, run, pass);
      } else {
        ParkToKeepsExcl(w, run.fence, ExecutionInterrupted, Idle);
      }
    }
  }

  lemma PreparedKeepsExcl(c: Setup, w: World, f: Fence, pass: nat)
    requires Inv(w) && Excl(w) && w.settle.Loop? && SlotIs(w.snap, f) && w.snap.slot.value.phase.Prepared?
    requires SettlePrepared(c, w, f, pass).settle.AwaitStart? ==> !w.starting
    ensures Excl(SettlePrepared(c, w, f, pass))
  {
    if !c.config.driver {
      FinishToLoopKeepsExcl(w, f, OwnFailure(DriverUnavailable), pass + 1);
    } else if c.workspace {
      PcKeepsExcl(w, Preparing(f, pass));
    } else {
      CommitKeepsExcl(w, f, pass);
    }
  }

  lemma StoppingKeepsExcl(w: World, run: DurableRun, pass: nat)
    requires Inv(w) && Excl(w) && w.settle.Loop? && w.snap.slot == Some(run) && run.phase.Stopping?
    requires w.live.Some? ==> w.live.value.fence == run.fence
    ensures Excl(SettleStopping(w, run, pass))
  {
    if !run.mayHaveStarted {
      FinishToLoopKeepsExcl(w, run.fence, OwnFailure(StoppedByDriver), pass + 1);
    } else if w.live.Some? {
      PcKeepsExcl(w, AwaitStop(run.fence, w.live.value.handle, pass));
    } else {
      ParkToKeepsExcl(w, run.fence, ExecutionInterrupted, Idle);
    }
  }

  lemma PublishKeepsExcl(c: Setup, w: World, f: Fence, outcome: Outcome, pass: nat)
    requires Inv(w) && Excl(w) && !w.settle.AwaitStart? && f in w.proofs
    ensures Excl(PublishThenFinish(c, w, f, outcome, pass))
  {
    FinishToLoopKeepsExcl(w, f, outcome, pass + 1);
    PcKeepsExcl(w, AwaitPublish(f, outcome, pass));
  }

  lemma PassKeepsExcl(c: Setup, w: World, now: int, progressId: Uuid)
    requires Inv(w) && Excl(w) && Enabled(c, w, SettlePass(now, progressId))
    requires SettleOnce(c, w, now, progressId).settle.AwaitStart? ==> !w.starting
    ensures Excl(SettleOnce(c, w, now, progressId))
  {
    PcKeepsExcl(w, Idle);
    TickKeepsInv(w, now, progressId);
    TickAdvances(w.snap, now, progressId);
    var r := TickEvent(w.snap, now, progressId);
    if w.settle.pass < 4 && !w.faulted && r.Ok? {
      SnapKeepsExcl(w, r.value.state);
      SettleSlotKeepsExcl(c, w.(snap := r.value.state), w.settle.pass);
    }
  }

  lemma ConsumeKeepsExcl(c: Setup, w: World, env: Envelope, now: int, authorized: bool, policyOk: bool, runId: Uuid)
    requires ValidConfig(c.config) && Inv(w) && Excl(w) && now >= 0
    ensures var r := ConsumeEvent(c.config, w.snap, env, now, authorized, w.ready, w.closing, policyOk, runId);
            r.Ok? ==> Excl(w.(snap := r.value.state))
  {
    var r := ConsumeEvent(c.config, w.snap, env, now, authorized, w.ready, w.closing, policyOk, runId);
    ConsumeAdvances(c.config, w.snap, env, now, authorized, w.ready, w.closing, policyOk, runId);
    if r.Ok? {
      SnapKeepsExcl(w, r.value.state);
    }
  }

  lemma TickKeepsExcl(w: World, now: int, progressId: Uuid)
    requires Inv(w) && Excl(w) && Nonnegative(now)
    ensures var r := TickEvent(w.snap, now, progressId); r.Ok? ==> Excl(w.(snap := r.value.state))
  {
    TickAdvances(w.snap, now, progressId);
    if TickEvent(w.snap, now, progressId).Ok? {
      SnapKeepsExcl(w, TickEvent(w.snap, now, progressId).value.state);
    }
  }

  lemma SnapshotEventKeepsExcl(c: Setup, w: World, e: Event)
    requires ValidConfig(c.config) && Inv(w) && Excl(w) && Enabled(c, w, e)
    requires e.Consume? || e.Tick? || e.Close?
    ensures Excl(Apply(c, w, e))
  {
    if e.Consume? {
      ConsumeKeepsExcl(c, w, e.env, e.now, e.authorized, e.policyOk, e.runId);
    } else if e.Tick? {
      TickKeepsExcl(w, e.now, e.progressId);
    } else {
      CloseKeepsExcl(c, w);
    }
  }

  lemma CloseKeepsExcl(c: Setup, w: World)
    requires Inv(w) && Excl(w)
    ensures Excl(Apply(c, w, Close))
  {
    ShutdownAdvances(w.snap);
    SnapKeepsExcl(w, ShutdownEvent(w.snap));
  }

  lemma PrepareKeepsExcl(c: Setup, w: World, ok: bool)
    requires Inv(w) && Excl(w) && Enabled(c, w, PrepareDone(ok)) && Guarded(c, w, PrepareDone(ok))
    ensures Excl(Apply(c, w, PrepareDone(ok)))
  {
    var f := w.settle.fence;
    if ok {
      CommitKeepsExcl(w, f, w.settle.pass);
    } else {
      FinishToLoopKeepsExcl(w, f, OwnFailure(WorkspacePrepareFailed), w.settle.pass + 1);
    }
  }

  lemma InvokeKeepsExcl(c: Setup, w: World)
    requires Inv(w) && Excl(w) && Enabled(c, w, Invoke)
    ensures Excl(Apply(c, w, Invoke))
  {
  }

  /** The pending start settled: nothing is in flight any more. */
  lemma SettledKeepsExcl(w: World, next: SettlePc)
    requires Excl(w) && w.settle.AwaitStart? && (next.Idle? || next.Loop?)
    ensures Excl(w.(calls := w.calls - {w.settle.fence}, starting := false, settle := next))
  {
  }

  lemma AttachKeepsExcl(w: World, f: Fence, handle: Fence)
    requires Excl(w) && PendingFence(w).None?
    ensures Excl(Attach(w, f, handle))
  {
  }

  lemma ResolvedKeepsExcl(c: Setup, w: World, handle: Fence)
    requires Inv(w) && Excl(w) && Enabled(c, w, StartResolved(handle))
    ensures Excl(Apply(c, w, StartResolved(handle)))
  {
    var f := w.settle.fence;
    SettledKeepsExcl(w, Idle);
    SettledKeepsExcl(w, Loop(w.settle.pass + 1));
    var u := w.(calls := w.calls - {f}, starting := false, settle := Idle);
    var v := w.(calls := w.calls - {f}, starting := false, settle := Loop(w.settle.pass + 1));
    AttachKeepsExcl(u, f, handle);
    AttachKeepsExcl(v, f, handle);
    SnapKeepsExcl(Attach(v, f, handle), RunningEvent(w.snap, f));
  }

  lemma StartFailureKeepsExcl(c: Setup, w: World, e: Event)
    requires Inv(w) && Excl(w) && Enabled(c, w, e) && (e.StartRejected? || e.StartTimeout?)
    ensures Excl(Apply(c, w, e))
  {
    var f := w.settle.fence;
    match e
    case StartRejected =>
      SettledKeepsExcl(w, Loop(w.settle.pass + 1));
      ParkKeepsExcl(w.(calls := w.calls - {f}, starting := false, settle := Loop(w.settle.pass + 1)), f,
          ExecutionInterrupted);
    case StartTimeout =>
      var v := w.(settle := Loop(w.settle.pass + 1), late := w.late + [LatePending(f, w.settle.invoked)]);
      assert v.late == [LatePending(f, w.settle.invoked)];
      ParkKeepsExcl(v, f, DriverStartTimeout);
  }

  lemma QuietKeepsExcl(w: World, handle: Fence, outcome: Outcome)
    requires Excl(w) && handle !in w.running && PendingFence(w) != Some(handle)
    ensures Excl(RecordQuiet(w, handle, outcome))
  {
  }

  lemma StopEventKeepsExcl(c: Setup, w: World, e: Event)
    requires Inv(w) && Excl(w) && Enabled(c, w, e)
    requires e.StopResolved? || e.StopTimeout? || e.PublishDone?
    ensures Excl(Apply(c, w, e))
  {
    if e.StopResolved? {
      StoppedKeepsExcl(c, w, e.outcome);
    } else if e.StopTimeout? {
      ParkToKeepsExcl(w, w.settle.fence, ExecutionInterrupted, Loop(w.settle.pass + 1));
    } else {
      FinishToLoopKeepsExcl(w, w.settle.fence, e.outcome, w.settle.pass + 1);
    }
  }

  lemma StoppedKeepsExcl(c: Setup, w: World, outcome: Outcome)
    requires Inv(w) && Excl(w) && Enabled(c, w, StopResolved(outcome))
    ensures Excl(Apply(c, w, StopResolved(outcome)))
  {
    var f := w.settle.fence;
    QuietKeepsInv(w, f, outcome);
    QuietKeepsExcl(w, f, outcome);
    PublishKeepsExcl(c, RecordQuiet(w, f, outcome), f, outcome, w.settle.pass);
  }

  lemma DropKeepsExcl(w: World, i: nat)
    requires Excl(w) && i < |w.late| && (w.late[i].LatePending? ==> w.late[i].fence !in w.calls)
    ensures Excl(DropLate(w, i))
  {
    assert DropLate(w, i).late == [];
  }

  lemma SetLateKeepsExcl(w: World, i: nat, l: Late)
    requires Excl(w) && i < |w.late| && !l.LatePending? && (w.late[i].LatePending? ==> w.late[i].fence !in w.calls)
    ensures Excl(SetLate(w, i, l))
  {
    assert SetLate(w, i, l).late == [l];
  }

  lemma LateResolvedKeepsExcl(c: Setup, w: World, i: nat, handle: Fence)
    requires Inv(w) && Excl(w) && Enabled(c, w, LateResolved(i, handle))
    ensures Excl(Apply(c, w, LateResolved(i, handle)))
  {
    var f := w.late[i].fence;
    assert SetLate(w, i, LateStop(f)).late == [LateStop(f)];
    assert DropLate(w, i).late == [];
  }

  lemma LateStartKeepsExcl(c: Setup, w: World, e: Event)
    requires Inv(w) && Excl(w) && Enabled(c, w, e)
    requires e.LateInvoke? || e.LateResolved? || e.LateRejected? || e.LateReleased?
    ensures Excl(Apply(c, w, e))
  {
    match e
    case LateInvoke(i) => assert Apply(c, w, e).late == [LatePending(w.late[i].fence, true)];
    case LateResolved(i, handle) => LateResolvedKeepsExcl(c, w, i, handle);
    case LateRejected(i) => assert DropLate(w, i).late == [];
    case LateReleased(i) => DropKeepsExcl(w, i);
  }

  lemma LateStopKeepsExcl(c: Setup, w: World, e: Event)
    requires Inv(w) && Excl(w) && Enabled(c, w, e)
    requires e.LateStopResolved? || e.LateStopTimeout? || e.LatePublishDone?
    ensures Excl(Apply(c, w, e))
  {
    var f := w.late[e.i].fence;
    assert LateOk(w, w.late[e.i]) && PendingFence(w).None?;
    match e
    case LateStopResolved(i, outcome) =>
      QuietKeepsInv(w, f, outcome);
      QuietKeepsExcl(w, f, outcome);
      var p := RecordQuiet(w, f, outcome);
      if w.faulted {
        DropKeepsExcl(p, i);
      } else if MustPublish(c, p, f, outcome) {
        SetLateKeepsExcl(p, i, LatePublish(f, outcome));
      } else {
        FinishKeepsExcl(p, f, outcome);
        SetLateKeepsExcl(Finish(p, f, outcome), i, LateRelease(f));
      }
    case LateStopTimeout(i) =>
      ParkKeepsExcl(w, f, DriverStartTimeout);
      DropKeepsExcl(if w.faulted then w else Park(w, f, DriverStartTimeout), i);
    case LatePublishDone(i, outcome) =>
      FinishKeepsExcl(w, f, outcome);
      SetLateKeepsExcl(Finish(w, f, outcome), i, LateRelease(f));
  }

  lemma RecoverBeginKeepsExcl(c: Setup, w: World)
    requires Inv(w) && Excl(w) && Enabled(c, w, RecoverBegin)
    ensures Excl(RecoverStart(w))
  {
    assert PendingFence(w).None?;
  }

  lemma RecoverDoneKeepsExcl(w: World, ready: bool, faulted: bool)
    requires Excl(w)
    ensures Excl(w.(recover := NoRecover, ready := ready, faulted := faulted))
  {
  }

  lemma RecoverReturnKeepsExcl(c: Setup, w: World, stopped: bool)
    requires Inv(w) && Excl(w) && Enabled(c, w, RecoverReturn(stopped))
    ensures Excl(Apply(c, w, RecoverReturn(stopped)))
  {
    var f := w.recover.fence;
    var p := if stopped then w.(proofs := w.proofs + {f}) else w;
    assert Inv(p);
    assert Excl(p);
    if w.faulted {
      RecoverDoneKeepsExcl(p, false, true);
    } else if stopped {
      FinishKeepsExcl(p, f, OwnFailure(Stopped(ExecutionInterrupted)));
      RecoverDoneKeepsExcl(Finish(p, f, OwnFailure(Stopped(ExecutionInterrupted))), true, false);
    } else {
      ParkKeepsExcl(p, f, ExecutionInterrupted);
      RecoverDoneKeepsExcl(Park(p, f, ExecutionInterrupted), true, false);
    }
  }

  lemma HandleEventKeepsExcl(c: Setup, w: World, e: Event)
    requires Inv(w) && Excl(w) && Enabled(c, w, e) && (e.HandleClosed? || e.HandleClosedFault?)
    ensures Excl(Apply(c, w, e))
  {
  }

  lemma DriverEventKeepsExcl(c: Setup, w: World, e: Event)
    requires Inv(w) && Excl(w) && Enabled(c, w, e) && (e.DriverBegins? || e.DriverEnds?)
    ensures Excl(Apply(c, w, e))
  {
  }

  lemma PlainEventKeepsExcl(c: Setup, w: World, e: Event)
    requires Inv(w) && Excl(w) && Enabled(c, w, e) && (e.Fault? || e.Crash? || e.SettleBegin? || e.SettleRecovered?)
    ensures Excl(Apply(c, w, e))
  {
  }

  lemma StartEventKeepsExcl(c: Setup, w: World, e: Event)
    requires Inv(w) && Excl(w) && Enabled(c, w, e) && Guarded(c, w, e)
    requires e.PrepareDone? || e.Invoke? || e.StartResolved? || e.StartRejected? || e.StartTimeout?
    ensures Excl(Apply(c, w, e))
  {
    if e.PrepareDone? {
      PrepareKeepsExcl(c, w, e.ok);
    } else if e.Invoke? {
      InvokeKeepsExcl(c, w);
    } else if e.StartResolved? {
      ResolvedKeepsExcl(c, w, e.handle);
    } else {
      StartFailureKeepsExcl(c, w, e);
    }
  }

  lemma WatcherKeepsExcl(c: Setup, w: World, e: Event)
    requires Inv(w) && Excl(w) && Enabled(c, w, e) && IsLate(e)
    ensures Excl(Apply(c, w, e))
  {
    if e.LateStopResolved? || e.LateStopTimeout? || e.LatePublishDone? {
      LateStopKeepsExcl(c, w, e);
    } else {
      LateStartKeepsExcl(c, w, e);
    }
  }

  lemma ExclInductive(c: Setup, w: World, e: Event)
    requires ValidConfig(c.config) && Inv(w) && Excl(w) && Enabled(c, w, e) && Guarded(c, w, e)
    ensures Excl(Apply(c, w, e))
  {
    if e.Consume? || e.Tick? || e.Close? {
      SnapshotEventKeepsExcl(c, w, e);
    } else if e.SettlePass? {
      PassKeepsExcl(c, w, e.now, e.progressId);
    } else if e.StopResolved? || e.StopTimeout? || e.PublishDone? {
      StopEventKeepsExcl(c, w, e);
    } else if IsLate(e) {
      WatcherKeepsExcl(c, w, e);
    } else if e.RecoverBegin? {
      RecoverBeginKeepsExcl(c, w);
    } else if e.RecoverReturn? {
      RecoverReturnKeepsExcl(c, w, e.stopped);
    } else if e.HandleClosed? || e.HandleClosedFault? {
      HandleEventKeepsExcl(c, w, e);
    } else if e.DriverBegins? || e.DriverEnds? {
      DriverEventKeepsExcl(c, w, e);
    } else if e.Fault? || e.Crash? || e.SettleBegin? || e.SettleRecovered? {
      PlainEventKeepsExcl(c, w, e);
    } else {
      StartEventKeepsExcl(c, w, e);
    }
  }

  lemma {:induction false} GuardedExecutionKeepsExcl(c: Setup, ws: seq<World>, es: seq<Event>, k: nat)
    requires ValidConfig(c.config) && Execution(c, ws, es) && k < |ws|
    requires forall i :: 0 <= i < k ==> Guarded(c, ws[i], es[i])
    ensures Inv(ws[k]) && Excl(ws[k])
  {
    ExecutionKeepsInv(c, ws, es, k);
    if k > 0 {
      GuardedExecutionKeepsExcl(c, ws, es, k - 1);
      ExclInductive(c, ws[k - 1], es[k - 1]);
      assert ws[k - 1 + 1] == Apply(c, ws[k - 1], es[k - 1]);
    }
  }

  /**
   * As long as every start was committed with the latch free, at most one run is not quiescent, it is
   * the one the durable slot names, and the only driver call in flight is its start.
   */
  lemma AtMostOneRun(c: Setup, ws: seq<World>, es: seq<Event>, k: nat)
    requires ValidConfig(c.config) && Execution(c, ws, es) && k < |ws|
    requires forall i :: 0 <= i < k ==> Guarded(c, ws[i], es[i])
    ensures forall f :: f in ws[k].running || f in ws[k].calls ==> HoldsSlot(ws[k].snap, f)
    ensures |ws[k].running| <= 1
  {
    GuardedExecutionKeepsExcl(c, ws, es, k);
    var w := ws[k];
    forall f | f in w.running || f in w.calls ensures HoldsSlot(w.snap, f) {
      assert f in w.starts && f !in w.proofs;
    }
    if w.running != {} {
      var f :| f in w.running;
      assert w.running == {f};
    }
  }

  // ---- The guard is needed ----

  /** A start was committed while the watcher of an earlier one, in whatever state, had not ended. */
  predicate Overlap(w: World) {
    && w.settle.AwaitStart? && !w.settle.invoked && SlotIs(w.snap, w.settle.fence)
    && w.late != []
    && !w.faulted && w.ready && w.live.None? && w.recover.NoRecover?
  }

  lemma MoveInvoke(c: Setup, w0: World, w: World) returns (t: World)
    requires Reaches(c, w0, w) && w.settle.AwaitStart? && !w.settle.invoked && !w.faulted
    ensures Reaches(c, w0, t)
    ensures t == w.(settle := AwaitStart(w.settle.fence, true, w.settle.pass), calls := w.calls + {w.settle.fence},
                    starts := w.starts + [w.settle.fence])
  {
    ReachesNext(c, w0, w, Invoke);
    t := Apply(c, w, Invoke);
  }

  lemma MoveTimeout(c: Setup, w0: World, w: World) returns (t: World)
    requires Reaches(c, w0, w) && w.settle.AwaitStart?
    ensures Reaches(c, w0, t)
    ensures t == w.(snap := UnknownEvent(w.snap, w.settle.fence, DriverStartTimeout).state,
                    settle := Loop(w.settle.pass + 1),
                    late := w.late + [LatePending(w.settle.fence, w.settle.invoked)])
  {
    ReachesNext(c, w0, w, StartTimeout);
    t := Apply(c, w, StartTimeout);
  }

  lemma MoveWatcherEndsNow(c: Setup, w0: World, w: World) returns (t: World)
    requires Reaches(c, w0, w) && w.late != [] && !w.faulted && !SlotIs(w.snap, w.late[0].fence)
    requires w.late[0].LateStop? || w.late[0].LateRelease? || (w.late[0].LatePending? && w.late[0].invoked)
    ensures Reaches(c, w0, t)
    ensures t == w.(late := w.late[1..], starting := false, calls := t.calls)
    ensures forall f :: f in w.calls && f != w.late[0].fence ==> f in t.calls
  {
    assert w.late[..0] + w.late[1..] == w.late[1..];
    var e := if w.late[0].LateStop? then LateStopTimeout(0) else if w.late[0].LateRelease? then LateReleased(0)
        else LateRejected(0);
    ReachesNext(c, w0, w, e);
    t := Apply(c, w, e);
  }

  lemma MoveWatcherOn(c: Setup, w0: World, w: World) returns (t: World)
    requires Reaches(c, w0, w) && w.late != [] && !w.faulted && w.live.None? && !SlotIs(w.snap, w.late[0].fence)
    requires w.late[0].LatePublish? || (w.late[0].LatePending? && !w.late[0].invoked)
    ensures Reaches(c, w0, t)
    ensures t.late != []
    ensures t == w.(late := [t.late[0]] + w.late[1..], calls := t.calls, starts := t.starts) && w.calls <= t.calls
    ensures t.late[0].fence == w.late[0].fence &&
            (t.late[0].LateRelease? || (t.late[0].LatePending? && t.late[0].invoked))
  {
    var e := if w.late[0].LatePublish? then LatePublishDone(0, w.late[0].outcome) else LateInvoke(0);
    ReachesNext(c, w0, w, e);
    t := Apply(c, w, e);
    assert t.late == [t.late[0]] + w.late[1..];
  }

  /** The watcher w.late[0] of another run can always end, leaving the slot alone and dropping the latch. */
  lemma MoveWatcherEnds(c: Setup, w0: World, w: World) returns (t: World)
    requires Reaches(c, w0, w) && w.late != [] && !w.faulted && w.live.None? && !SlotIs(w.snap, w.late[0].fence)
    ensures Reaches(c, w0, t)
    ensures t == w.(late := w.late[1..], starting := false, calls := t.calls, starts := t.starts)
    ensures forall f :: f in w.calls && f != w.late[0].fence ==> f in t.calls
  {
    var u := w;
    if w.late[0].LatePublish? || (w.late[0].LatePending? && !w.late[0].invoked) {
      u := MoveWatcherOn(c, w0, w);
    }
    t := MoveWatcherEndsNow(c, w0, u);
  }

  /** A parked run without a live handle ends the settle loop. */
  lemma MoveParkedPass(c: Setup, w0: World, w: World) returns (t: World)
    requires Reaches(c, w0, w) && w.settle.Loop? && !w.faulted && w.live.None?
    requires w.snap.slot.Some? && w.snap.slot.value.phase.RecoveryRequired?
    ensures Reaches(c, w0, t) && t == w.(settle := Idle)
  {
    ReachesNext(c, w0, w, SettlePass(0, 0));
    t := Apply(c, w, SettlePass(0, 0));
  }

  lemma MoveRecover(c: Setup, w0: World, w: World) returns (t: World)
    requires Reaches(c, w0, w) && !w.faulted && w.recover.NoRecover? && !w.starting && w.settle.Idle? && w.live.None?
    requires w.snap.slot.Some? && w.snap.slot.value.mayHaveStarted && w.snap.slot.value.fence !in w.running
    ensures Reaches(c, w0, t)
    ensures t == w.(snap := FinishEvent(w.snap, w.snap.slot.value.fence,
            OwnFailure(Stopped(ExecutionInterrupted))).state,
                    proofs := w.proofs + {w.snap.slot.value.fence}, ready := true)
  {
    ReachesNext(c, w0, w, RecoverBegin);
    var u := Apply(c, w, RecoverBegin);
    ReachesNext(c, w0, u, RecoverReturn(true));
    t := Apply(c, u, RecoverReturn(true));
  }

  /**
   * From any such state the executor can free the slot while the new driver call is still in flight:
   * the start times out, the old watcher drops the latch that is not its own, recovery no longer sees
   * that a start is pending, and takes the driver's answer for a proof.
   */
  lemma LatchStolen(c: Setup, w0: World, w: World) returns (t: World)
    requires Inv(w) && Overlap(w) && Reaches(c, w0, w)
    ensures Reaches(c, w0, t)
    ensures t.snap.slot.None? && w.settle.fence in t.calls
    ensures t.settle.Idle? && t.live.None? && t.recover.NoRecover? && t.ready && !t.faulted
    ensures t.closing == w.closing && t.running == w.running
    ensures t.snap.generation == w.snap.generation
    ensures t.snap.last.Some? && t.snap.last.value.fence == w.settle.fence
  {
    var w1 := MoveInvoke(c, w0, w);
    var w2 := MoveTimeout(c, w0, w1);
    assert LateOk(w, w.late[0]);
    assert w2.late[0] == w.late[0];
    var w3 := MoveWatcherEnds(c, w0, w2);
    var w4 := MoveParkedPass(c, w0, w3);
    assert w4.snap.slot.value.mayHaveStarted by {
      assert Committed(w.snap, w.settle.fence);
    }
    t := MoveRecover(c, w0, w4);
  }

  /** A held latch belongs to a start in progress or to a watcher, and a healthy executor settles only when ready. */
  predicate Owned(w: World) {
    && (w.starting ==> w.settle.AwaitStart? || w.late != [])
    && (!w.faulted && !w.settle.Idle? && !w.settle.Recovering? ==> w.ready)
  }

  lemma {:induction false} RunsOwned(c: Setup, w: World, es: seq<Event>, t: World)
    requires Steps(c, w, es) == Some(t) && Owned(w)
    ensures Owned(t)
    decreases |es|
  {
    if es != [] {
      StepOwned(c, w, es[0]);
      RunsOwned(c, Apply(c, w, es[0]), es[1..], t);
    }
  }

  lemma SlotOwned(c: Setup, w: World, pass: nat)
    requires Owned(w.(settle := Loop(pass)))
    ensures Owned(SettleSlot(c, w, pass))
  {
    if w.snap.slot.Some? {
      var run := w.snap.slot.value;
      BranchesOwned(c, w, run, pass);
      if w.live.Some? && w.live.value.outcome.Some? {
        PublishOwned(c, w, run.fence, w.live.value.outcome.value, pass);
      }
    }
  }

  lemma BranchesOwned(c: Setup, w: World, run: DurableRun, pass: nat)
    requires Owned(w.(settle := Loop(pass)))
    ensures Owned(SettlePrepared(c, w, run.fence, pass)) && Owned(SettleStopping(w, run, pass))
  {
  }

  lemma PublishOwned(c: Setup, w: World, f: Fence, outcome: Outcome, pass: nat)
    requires Owned(w.(settle := Loop(pass)))
    ensures Owned(PublishThenFinish(c, w, f, outcome, pass))
  {
  }

  lemma PassOwned(c: Setup, w: World, now: int, progressId: Uuid)
    requires w.settle.Loop? && Owned(w)
    ensures Owned(SettleOnce(c, w, now, progressId))
  {
    var ticked := TickEvent(w.snap, now, progressId);
    if ticked.Ok? {
      SlotOwned(c, w.(snap := ticked.value.state), w.settle.pass);
    }
  }

  lemma StartOwned(c: Setup, w: World, e: Event)
    requires Enabled(c, w, e) && Owned(w) && (w.settle.AwaitStart? || w.settle.Preparing?)
    requires e.StartResolved? || e.StartRejected? || e.StartTimeout? || e.PrepareDone?
    ensures Owned(Apply(c, w, e))
  {
  }

  lemma PlainOwned(c: Setup, w: World, e: Event)
    requires Enabled(c, w, e) && Owned(w) && (e.Consume? || e.Tick? || e.Close?)
    ensures Owned(Apply(c, w, e))
  {
    var t := Apply(c, w, e);
    assert t.settle == w.settle && t.late == w.late && t.starting == w.starting;
    assert t.faulted || t.ready == w.ready;
  }

  lemma StepOwned(c: Setup, w: World, e: Event)
    requires Enabled(c, w, e) && Owned(w)
    ensures Owned(Apply(c, w, e))
  {
    if e.SettlePass? {
      PassOwned(c, w, e.now, e.progressId);
    } else if e.Consume? || e.Tick? || e.Close? {
      PlainOwned(c, w, e);
    } else if e.StartResolved? || e.StartRejected? || e.StartTimeout? || e.PrepareDone? {
      StartOwned(c, w, e);
    }
  }

  /** A start was just committed under another's latch; a live handle, if any, is one a watcher is stopping. */
  ghost predicate Overlapping(w: World) {
    && w.settle.AwaitStart? && !w.settle.invoked && SlotIs(w.snap, w.settle.fence) && w.late != [] && !w.faulted &&
        w.ready
    && (w.live.None? || Watched(w))
  }

  ghost predicate Watched(w: World) {
    w.live.Some? && exists i :: 0 <= i < |w.late| && w.late[i] == LateStop(w.live.value.fence)
  }

  /** A recovery under way returns without proof. */
  lemma RecoverReturns(c: Setup, w0: World, w: World) returns (t: World)
    requires ValidConfig(c.config) && Inv(w) && Overlapping(w) && Reaches(c, w0, w)
    ensures Inv(t) && Overlapping(t) && t.settle == w.settle && Reaches(c, w0, t) && t.recover.NoRecover?
  {
    t := w;
    if w.recover.AwaitRecover? {
      ReachesNext(c, w0, w, RecoverReturn(false));
      InvInductive(c, w, RecoverReturn(false));
      t := Apply(c, w, RecoverReturn(false));
      assert t.late == w.late && t.live == w.live;
    }
  }

  /** The watched handle stops, and its watcher waits for the release. */
  lemma WatchedStops(c: Setup, w0: World, w: World) returns (t: World)
    requires ValidConfig(c.config) && Inv(w) && Overlapping(w) && Reaches(c, w0, w) && w.recover.NoRecover?
    ensures Inv(t) && Overlap(t) && t.settle == w.settle && Reaches(c, w0, t)
  {
    t := w;
    if w.live.Some? {
      var f := w.live.value.fence;
      var i :| 0 <= i < |w.late| && w.late[i] == LateStop(f);
      assert LateOk(w, w.late[i]);
      if f in w.running {
        ReachesNext(c, w0, w, DriverEnds(f));
        InvInductive(c, w, DriverEnds(f));
        t := Apply(c, w, DriverEnds(f));
      }
      var stopped, u := LateStopResolved(i, OwnFailure(StoppedByDriver)), t;
      ReachesNext(c, w0, u, stopped);
      InvInductive(c, u, stopped);
      t := Apply(c, u, stopped);
      WatchedGone(c, u, i, f);
    }
  }

  lemma WatchedGone(c: Setup, w: World, i: nat, f: Fence)
    requires i < |w.late| && w.late[i] == LateStop(f) && f !in w.running && !w.faulted
    requires w.live.Some? && w.live.value.fence == f && !SlotIs(w.snap, f)
    ensures var t := Apply(c, w, LateStopResolved(i, OwnFailure(StoppedByDriver)));
            t == w.(proofs := t.proofs, live := None, late := w.late[i := LateRelease(f)])
  {
  }

  /**
   * The guard is also necessary. Whenever a healthy executor commits a start under a held latch, some continuation
   * frees the slot with that start in flight. (A stale handle whose watcher is gone is left out: the next pass
   * finds its fence is not the slot's, and faults.)
   */
  lemma GuardNecessary(c: Setup, w: World, e: Event) returns (t: World)
    requires ValidConfig(c.config) && Reaches(c, INIT, w) && Enabled(c, w, e)
    requires CommitsStart(c, w, e) && !Guarded(c, w, e)
    requires !w.faulted && (w.live.None? || Watched(w))
    ensures Reaches(c, INIT, t) && t.snap.slot.None? && Apply(c, w, e).settle.fence in t.calls
  {
    ReachableOwned(c, w);
    CommitOverlaps(c, w, e);
    t := SlotFreed(c, INIT, Apply(c, w, e));
  }

  lemma ReachableOwned(c: Setup, w: World)
    requires ValidConfig(c.config) && Reaches(c, INIT, w)
    ensures Inv(w) && Owned(w)
  {
    InitInv();
    var es :| Steps(c, INIT, es) == Some(w);
    ReachableInv(c, INIT, w, es);
    RunsOwned(c, INIT, es, w);
  }

  lemma SlotFreed(c: Setup, w0: World, w: World) returns (t: World)
    requires ValidConfig(c.config) && Inv(w) && Overlapping(w) && Reaches(c, w0, w)
    ensures Reaches(c, w0, t) && t.snap.slot.None? && w.settle.fence in t.calls
  {
    var u := RecoverReturns(c, w0, w);
    u := WatchedStops(c, w0, u);
    t := LatchStolen(c, w0, u);
  }

  lemma CommitOverlaps(c: Setup, w: World, e: Event)
    requires ValidConfig(c.config) && Inv(w) && Owned(w) && Reaches(c, INIT, w) && Enabled(c, w, e)
    requires CommitsStart(c, w, e) && !Guarded(c, w, e)
    requires !w.faulted && (w.live.None? || Watched(w))
    ensures Inv(Apply(c, w, e)) && Overlapping(Apply(c, w, e)) && Reaches(c, INIT, Apply(c, w, e))
  {
    InvInductive(c, w, e);
    ReachesNext(c, INIT, w, e);
    CommitKeepsOthers(c, w, e);
  }

  /** Only the slot and the program counter move when a start is committed. */
  predicate OnlyCommitted(w: World, t: World) {
    && t == w.(snap := t.snap, settle := t.settle, starting := true)
    && t.settle.AwaitStart? && !t.settle.invoked && SlotIs(t.snap, t.settle.fence)
  }

  /** Nothing was committed. */
  predicate Elsewhere(t: World) {
    !t.settle.AwaitStart?
  }

  lemma SlotCommits(c: Setup, w: World, pass: nat)
    requires !w.settle.AwaitStart?
    ensures Elsewhere(SettleSlot(c, w, pass)) || OnlyCommitted(w, SettleSlot(c, w, pass))
  {
    if w.snap.slot.Some? {
      var run := w.snap.slot.value;
      if w.live.Some? && w.live.value.fence == run.fence && w.live.value.outcome.Some? {
        PublishNeverCommits(c, w, run.fence, w.live.value.outcome.value, pass);
      } else if run.phase.Prepared? {
        PreparedCommits(c, w, run.fence, pass);
      } else if run.phase.Stopping? {
        StoppingNeverCommits(w, run, pass);
      }
    }
  }

  lemma PublishNeverCommits(c: Setup, w: World, f: Fence, outcome: Outcome, pass: nat)
    ensures Elsewhere(PublishThenFinish(c, w, f, outcome, pass))
  {
  }

  lemma PreparedCommits(c: Setup, w: World, f: Fence, pass: nat)
    ensures var t := SettlePrepared(c, w, f, pass); Elsewhere(t) || OnlyCommitted(w, t)
  {
  }

  lemma StoppingNeverCommits(w: World, run: DurableRun, pass: nat)
    ensures Elsewhere(SettleStopping(w, run, pass))
  {
  }

  lemma PassCommits(c: Setup, w: World, now: int, progressId: Uuid)
    requires w.settle.Loop? && SettleOnce(c, w, now, progressId).settle.AwaitStart?
    ensures OnlyCommitted(w, SettleOnce(c, w, now, progressId))
  {
    var ticked := TickEvent(w.snap, now, progressId);
    SlotCommits(c, w.(snap := ticked.value.state), w.settle.pass);
  }

  lemma CommitKeepsOthers(c: Setup, w: World, e: Event)
    requires Enabled(c, w, e) && CommitsStart(c, w, e)
    ensures OnlyCommitted(w, Apply(c, w, e)) && (w.settle.Loop? || w.settle.Preparing?)
  {
    OnlyThese(c, w, e);
    if e.SettlePass? {
      PassCommits(c, w, e.now, e.progressId);
    }
  }

  lemma OnlyThese(c: Setup, w: World, e: Event)
    requires Enabled(c, w, e)
    ensures CommitsStart(c, w, e) ==> e.SettlePass? || e.PrepareDone?
  {
    if e.Consume? || e.Tick? || e.Close? {
      assert Apply(c, w, e).settle == w.settle;
    }
  }

  // A concrete execution: three offers of distinct tasks to an executor with a workspace port.

  const DEMO := Setup(Config(1, 2, 120000, 10000, true, false, []), true)

  function DemoOffer(task: Uuid): Envelope {
    Envelope(100 + task, 3, 2, 1, true, Some(0), Some(1000), Some(task), Some(1),
             Offer(OfferBody(Aid, false, true, false, false, Undefined, Undefined, NoDemands, Undefined, true,
                 NoContract)))
  }

  function DemoFence(task: Uuid, generation: int): Fence {
    Fence(task, 1, generation, task)
  }

  function DemoConsume(task: Uuid): Event {
    Consume(DemoOffer(task), 1, true, true, task)
  }

  lemma DemoTaken(w0: World, w: World, task: Uuid) returns (t: World)
    requires Reaches(DEMO, w0, w)
    requires w.snap.slot.None? && 0 <= w.snap.generation < 10
    requires w.snap.last.Some? ==> w.snap.last.value.fence.task != task
    requires w.ready && !w.faulted && !w.closing
    ensures Reaches(DEMO, w0, t) && t == w.(snap := t.snap)
    ensures t.snap.generation == w.snap.generation + 1 && t.snap.last == w.snap.last
    ensures SlotIs(t.snap, DemoFence(task, w.snap.generation + 1)) && t.snap.slot.value.phase.Prepared?
    ensures var run := t.snap.slot.value; run.stopReason.None? && run.leaseDeadline > 1
  {
    ReachesNext(DEMO, w0, w, DemoConsume(task));
    t := Apply(DEMO, w, DemoConsume(task));
  }

  /** An idle, ready executor takes an offer and invokes the driver for it. */
  lemma DemoStart(w0: World, w: World, task: Uuid) returns (t: World)
    requires Reaches(DEMO, w0, w)
    requires w.snap.slot.None? && 0 <= w.snap.generation < 10
    requires w.snap.last.Some? ==> w.snap.last.value.fence.task != task
    requires w.ready && !w.faulted && !w.closing && w.settle.Idle? && w.live.None?
    ensures Reaches(DEMO, w0, t)
    ensures t == w.(snap := t.snap, settle := AwaitStart(DemoFence(task, w.snap.generation + 1), false, 0),
            starting := true)
    ensures t.snap.generation == w.snap.generation + 1 && t.snap.last == w.snap.last
    ensures SlotIs(t.snap, DemoFence(task, w.snap.generation + 1)) && t.snap.slot.value.phase.Starting?
    ensures t.snap.slot.value.stopReason.None?
  {
    var w1 := DemoTaken(w0, w, task);
    ReachesNext(DEMO, w0, w1, SettleBegin);
    var w2 := Apply(DEMO, w1, SettleBegin);
    ReachesNext(DEMO, w0, w2, SettlePass(1, 0));
    var w3 := Apply(DEMO, w2, SettlePass(1, 0));
    assert w3 == w2.(settle := Preparing(DemoFence(task, w.snap.generation + 1), 0));
    ReachesNext(DEMO, w0, w3, PrepareDone(true));
    t := Apply(DEMO, w3, PrepareDone(true));
  }

  lemma DemoReady() returns (t: World)
    ensures Reaches(DEMO, INIT, t) && t == INIT.(ready := true)
  {
    ReachesItself(DEMO, INIT);
    ReachesNext(DEMO, INIT, INIT, RecoverBegin);
    t := Apply(DEMO, INIT, RecoverBegin);
  }

  /** A late handle is attached and stopped; the run is finished and its watcher waits for the release. */
  lemma MoveLateStopped(c: Setup, w0: World, w: World) returns (t: World)
    requires Reaches(c, w0, w) && !w.faulted && |w.late| == 1 && w.late[0].LatePending? && w.late[0].invoked
    requires w.late[0].fence in w.starts && w.late[0].fence !in w.running
    ensures Reaches(c, w0, t)
    ensures t == w.(snap := FinishEvent(w.snap, w.late[0].fence, OwnFailure(StoppedByDriver)).state, live := None,
                    calls := w.calls - {w.late[0].fence}, proofs := w.proofs + {w.late[0].fence},
                    late := [LateRelease(w.late[0].fence)])
  {
    var f := w.late[0].fence;
    ReachesNext(c, w0, w, LateResolved(0, f));
    var u := Apply(c, w, LateResolved(0, f));
    assert u.late == [LateStop(f)];
    ReachesNext(c, w0, u, LateStopResolved(0, OwnFailure(StoppedByDriver)));
    t := Apply(c, u, LateStopResolved(0, OwnFailure(StoppedByDriver)));
    assert t.late == [LateRelease(f)];
  }

  /** The first start times out, resolves late and is stopped; the slot is free, the latch is not. */
  lemma DemoLateRelease(w: World) returns (t: World)
    requires Reaches(DEMO, INIT, w)
    requires w == INIT.(ready := true, snap := w.snap, starting := true,
             settle := AwaitStart(DemoFence(10, 1), false, 0))
    requires SlotIs(w.snap, DemoFence(10, 1)) && w.snap.generation == 1
    ensures Reaches(DEMO, INIT, t)
    ensures t == INIT.(ready := true, snap := t.snap, starting := true, late := [LateRelease(DemoFence(10, 1))],
                       starts := [DemoFence(10, 1)], proofs := {DemoFence(10, 1)})
    ensures t.snap.slot.None? && t.snap.generation == 1 && t.snap.last.Some? &&
            t.snap.last.value.fence == DemoFence(10, 1)
  {
    var w1 := MoveInvoke(DEMO, INIT, w);
    var w2 := MoveTimeout(DEMO, INIT, w1);
    assert w2.late == [LatePending(DemoFence(10, 1), true)];
    var w3 := MoveParkedPass(DEMO, INIT, w2);
    t := MoveLateStopped(DEMO, INIT, w3);
  }

  lemma {:induction false} ReachableInv(c: Setup, w: World, t: World, es: seq<Event>)
    requires ValidConfig(c.config) && Inv(w) && Steps(c, w, es) == Some(t)
    ensures Inv(t)
    decreases |es|
  {
    if es != [] {
      InvInductive(c, w, es[0]);
      ReachableInv(c, Apply(c, w, es[0]), t, es[1..]);
    }
  }

  lemma MoveDriverBegins(c: Setup, w0: World, w: World, f: Fence) returns (t: World)
    requires Reaches(c, w0, w) && f in w.calls
    ensures Reaches(c, w0, t) && t == w.(running := w.running + {f})
  {
    ReachesNext(c, w0, w, DriverBegins(f));
    t := Apply(c, w, DriverBegins(f));
  }

  lemma DemoOverlap() returns (t: World)
    ensures Reaches(DEMO, INIT, t) && Inv(t) && Overlap(t) && t.settle.fence == DemoFence(20, 2)
    ensures t.running == {} && !t.closing && t.snap.generation == 2
  {
    var ready := DemoReady();
    var w1 := DemoStart(INIT, ready, 10);
    var w2 := DemoLateRelease(w1);
    t := DemoStart(INIT, w2, 20);
    InitInv();
    var es :| Steps(DEMO, INIT, es) == Some(t);
    ReachableInv(DEMO, INIT, t, es);
  }

  /** Without the guard two runs can be alive at once: the first one's work appears after its slot was freed. */
  lemma TwoRunsWithoutGuard() returns (t: World)
    ensures Reaches(DEMO, INIT, t)
    ensures t.running == {DemoFence(20, 2), DemoFence(30, 3)}
  {
    var w3 := DemoOverlap();
    var w4 := LatchStolen(DEMO, INIT, w3);
    var w5 := DemoStart(INIT, w4, 30);
    var w6 := MoveInvoke(DEMO, INIT, w5);
    var w7 := MoveDriverBegins(DEMO, INIT, w6, DemoFence(20, 2));
    t := MoveDriverBegins(DEMO, INIT, w7, DemoFence(30, 3));
  }
}
