/** What every execution of the durable executor keeps: start at most once, clear only on proof. */
module ExecutorSafety {
  import opened Core
  import opened Wire
  import opened Lease
  import opened ExecutorState
  import opened ExecutorProtocol

  /**
   * The start of f was committed: either the snapshot moved past its generation, or f still holds the
   * slot (or was the last to hold it) as a run that may have started.
   */
  predicate Committed(s: Snapshot, f: Fence) {
    && f.generation <= s.generation
    && (f.generation == s.generation && s.slot.Some? ==> s.slot.value.fence == f && s.slot.value.mayHaveStarted)
  }

  /** No committed start is ever forgotten by the snapshot. */
  ghost predicate Advances(s: Snapshot, t: Snapshot) {
    forall f :: Committed(s, f) ==> Committed(t, f)
  }

  ghost predicate Distinct(fs: seq<Fence>) {
    forall i, j :: 0 <= i < j < |fs| ==> fs[i] != fs[j]
  }

  ghost predicate StartsInv(w: World) {
    && Distinct(w.starts)
    && forall f :: f in w.starts || f in w.proofs ==> Committed(w.snap, f)
  }

  ghost predicate SettleInv(w: World) {
    match w.settle
    case AwaitStart(f, invoked, _) => Committed(w.snap, f) && (!invoked ==> f !in w.starts)
    case AwaitStop(f, handle, _) => Committed(w.snap, f) && handle == f
    case AwaitPublish(f, _, _) => Committed(w.snap, f) && f in w.proofs
    case Preparing(f, _) => SlotIs(w.snap, f) ==> !w.snap.slot.value.mayHaveStarted
    case _ => true
  }

  ghost predicate LateOk(w: World, l: Late) {
    && Committed(w.snap, l.fence)
    && (l.LatePending? && !l.invoked ==> l.fence !in w.starts)
    && (l.LatePublish? ==> l.fence in w.proofs)
    && (w.settle.AwaitStart? ==> w.settle.fence != l.fence)
  }

  ghost predicate LateInv(w: World) {
    && (forall i :: 0 <= i < |w.late| ==> LateOk(w, w.late[i]))
    && (forall i, j :: 0 <= i < j < |w.late| ==> w.late[i].fence != w.late[j].fence)
  }

  ghost predicate LiveInv(w: World) {
    w.live.Some? ==>
      && Committed(w.snap, w.live.value.fence) && Committed(w.snap, w.live.value.handle)
      && (w.live.value.handle == w.live.value.fence || w.faulted)
      && (w.live.value.outcome.Some? ==> w.live.value.handle in w.proofs)
  }

  ghost predicate Inv(w: World) {
    && Valid(w.snap)
    && StartsInv(w) && SettleInv(w) && LateInv(w) && LiveInv(w)
    && (w.recover.AwaitRecover? ==> Committed(w.snap, w.recover.fence))
    && (forall f :: f in w.calls || f in w.running ==> f in w.starts)
  }

  // ---- Snapshot events keep committed starts committed ----

  /** The slot's run stays, and a new one has not started. */
  predicate SlotKept(s: Snapshot, t: Snapshot) {
    && (s.slot.Some? ==> SlotIs(t, s.slot.value.fence) && t.slot.value.mayHaveStarted == s.slot.value.mayHaveStarted)
    && (s.slot.None? && t.slot.Some? ==> !t.slot.value.mayHaveStarted)
  }

  lemma OfferAdvances(c: Config, s: Snapshot, env: Envelope, now: int, allowed: bool, unexpired: bool, ready: bool,
                      closing: bool, policyOk: bool, runId: Uuid)
    requires Valid(s) && env.body.Offer?
    ensures var r := OfferEvent(c, s, env, now, allowed, unexpired, ready, closing, policyOk, runId);
            r.Ok? && Valid(r.value.state) ==> Advances(s, r.value.state) && SlotKept(s, r.value.state)
  {
  }

  lemma ControlAdvances(s: Snapshot, env: Envelope, now: int)
    requires Valid(s)
    ensures Advances(s, ControlEvent(s, env, now).state) && SlotKept(s, ControlEvent(s, env, now).state)
  {
  }

  lemma ConsumeAdvances(c: Config, s: Snapshot, env: Envelope, now: int, authorized: bool, ready: bool,
                        closing: bool, policyOk: bool, runId: Uuid)
    requires ValidConfig(c) && Valid(s) && now >= 0
    ensures var r := ConsumeEvent(c, s, env, now, authorized, ready, closing, policyOk, runId);
            r.Ok? ==> Valid(r.value.state) && Advances(s, r.value.state) && SlotKept(s, r.value.state)
  {
    ConsumeKeepsValid(c, s, env, now, authorized, ready, closing, policyOk, runId);
    var allowed := env.fromTeam == c.team && authorized && env.signed;
    var unexpired := env.exp.Some? && env.exp.value > now;
    if env.body.Offer? {
      OfferAdvances(c, s, env, now, allowed, unexpired, ready, closing, policyOk, runId);
    } else {
      ControlAdvances(s, env, now);
    }
  }

  lemma TickAdvances(s: Snapshot, now: int, progressId: Uuid)
    requires Valid(s) && Nonnegative(now)
    ensures var r := TickEvent(s, now, progressId);
            r.Ok? ==>
              && Valid(r.value.state) && Advances(s, r.value.state)
              && (s.slot.Some? ==> SlotIs(r.value.state, s.slot.value.fence) &&
                                   r.value.state.slot.value.mayHaveStarted == s.slot.value.mayHaveStarted)
              && (s.slot.None? ==> r.value.state == s)
  {
    TickKeepsValid(s, now, progressId);
  }

  lemma FinishAdvances(s: Snapshot, f: Fence, outcome: Outcome)
    requires Valid(s)
    ensures var t := FinishEvent(s, f, outcome).state; Valid(t) && Advances(s, t)
  {
    FinishKeepsValid(s, f, outcome);
  }

  lemma ParkAdvances(s: Snapshot, f: Fence, reason: StopReason)
    requires Valid(s) && Committed(s, f) && !reason.StopCancel?
    ensures var t := UnknownEvent(s, f, reason).state;
            && Valid(t) && Advances(s, t)
            && (s.slot.Some? ==> SlotIs(t, s.slot.value.fence) &&
                                 t.slot.value.mayHaveStarted == s.slot.value.mayHaveStarted)
  {
    UnknownKeepsValidIff(s, f, reason);
  }

  /** The commit before driver.start takes a fence no earlier commit had. */
  lemma CommitAdvances(s: Snapshot, f: Fence)
    requires Valid(s)
    ensures var t := StartingEvent(s, f);
            t.Some? ==> Valid(t.value) && Advances(s, t.value) && !Committed(s, f) && Committed(t.value, f)
  {
    StartKeepsValid(s, f);
  }

  lemma RunningAdvances(s: Snapshot, f: Fence)
    requires Valid(s)
    ensures Valid(RunningEvent(s, f)) && Advances(s, RunningEvent(s, f))
  {
    StartKeepsValid(s, f);
  }

  lemma ShutdownAdvances(s: Snapshot)
    requires Valid(s)
    ensures Valid(ShutdownEvent(s)) && Advances(s, ShutdownEvent(s))
    ensures s.slot.Some? ==> SlotIs(ShutdownEvent(s), s.slot.value.fence) &&
                             ShutdownEvent(s).slot.value.mayHaveStarted == s.slot.value.mayHaveStarted
  {
    ShutdownKeepsValid(s);
  }

  // ---- Preservation, one group of events at a time ----

  /** Replacing the snapshot by a later one. */
  lemma SnapKeepsInv(w: World, t: Snapshot)
    requires Inv(w) && Valid(t) && Advances(w.snap, t)
    requires w.settle.Preparing? && SlotIs(t, w.settle.fence) ==> !t.slot.value.mayHaveStarted
    ensures Inv(w.(snap := t))
  {
  }

  /** Going back to the head of the settle loop, or leaving it. */
  lemma PcKeepsInv(w: World, next: SettlePc)
    requires Inv(w) && (next.Idle? || next.Loop? || next.Recovering?)
    ensures Inv(w.(settle := next))
  {
  }

  lemma LiveGoneKeepsInv(w: World)
    requires Inv(w)
    ensures Inv(w.(live := None))
  {
  }

  lemma FlagsKeepInv(w: World, starting: bool, ready: bool, closing: bool, calls: set<Fence>)
    requires Inv(w) && calls <= w.calls
    ensures Inv(w.(starting := starting, ready := ready, closing := closing, calls := calls))
    ensures Inv(FailClosed(w))
  {
  }

  lemma SnapshotEventKeepsInv(c: Setup, w: World, e: Event)
    requires ValidConfig(c.config) && Inv(w) && Enabled(c, w, e)
    requires e.Consume? || e.Tick? || e.Close?
    ensures Inv(Apply(c, w, e))
  {
    FlagsKeepInv(w, w.starting, w.ready, true, w.calls);
    match e
    case Consume(env, now, authorized, policyOk, runId) =>
      var r := ConsumeEvent(c.config, w.snap, env, now, authorized, w.ready, w.closing, policyOk, runId);
      ConsumeAdvances(c.config, w.snap, env, now, authorized, w.ready, w.closing, policyOk, runId);
      if r.Ok? {
        SnapKeepsInv(w, r.value.state);
      }
    case Tick(now, progressId) =>
      TickKeepsInv(w, now, progressId);
    case Close =>
      ShutdownAdvances(w.snap);
      SnapKeepsInv(w.(closing := true), ShutdownEvent(w.snap));
  }

  lemma TickKeepsInv(w: World, now: int, progressId: Uuid)
    requires Inv(w) && Nonnegative(now)
    ensures var r := TickEvent(w.snap, now, progressId); r.Ok? ==> Inv(w.(snap := r.value.state))
  {
    var r := TickEvent(w.snap, now, progressId);
    TickAdvances(w.snap, now, progressId);
    if r.Ok? {
      SnapKeepsInv(w, r.value.state);
    }
  }

  lemma FinishKeepsInv(w: World, f: Fence, outcome: Outcome)
    requires Inv(w)
    ensures Inv(Finish(w, f, outcome))
  {
    FinishAdvances(w.snap, f, outcome);
    SnapKeepsInv(w, FinishEvent(w.snap, f, outcome).state);
    LiveGoneKeepsInv(w.(snap := FinishEvent(w.snap, f, outcome).state));
  }

  lemma ParkKeepsInv(w: World, f: Fence, reason: StopReason)
    requires Inv(w) && Committed(w.snap, f) && !reason.StopCancel?
    ensures Inv(Park(w, f, reason))
  {
    ParkAdvances(w.snap, f, reason);
    SnapKeepsInv(w, UnknownEvent(w.snap, f, reason).state);
  }

  lemma PublishKeepsInv(c: Setup, w: World, f: Fence, outcome: Outcome, pass: nat)
    requires Inv(w) && Committed(w.snap, f) && f in w.proofs
    ensures Inv(PublishThenFinish(c, w, f, outcome, pass))
  {
    if !MustPublish(c, w, f, outcome) {
      FinishKeepsInv(w, f, outcome);
      PcKeepsInv(Finish(w, f, outcome), Loop(pass + 1));
    }
  }

  lemma CommitKeepsInv(w: World, f: Fence, pass: nat)
    requires Inv(w)
    ensures Inv(CommitStart(w, f, pass))
  {
    PcKeepsInv(w, Loop(pass + 1));
    CommitAdvances(w.snap, f);
    if StartingEvent(w.snap, f).Some? {
      SnapKeepsInv(w.(settle := Loop(pass + 1)), StartingEvent(w.snap, f).value);
    }
  }

  lemma PreparedKeepsInv(c: Setup, w: World, f: Fence, pass: nat)
    requires Inv(w) && SlotIs(w.snap, f) && w.snap.slot.value.phase.Prepared?
    ensures Inv(Finish(w, f, OwnFailure(DriverUnavailable)).(settle := Loop(pass + 1)))
    ensures Inv(w.(settle := Preparing(f, pass)))
    ensures Inv(CommitStart(w, f, pass))
  {
    FinishKeepsInv(w, f, OwnFailure(DriverUnavailable));
    PcKeepsInv(Finish(w, f, OwnFailure(DriverUnavailable)), Loop(pass + 1));
    PcKeepsInv(w, Idle);
    CommitKeepsInv(w, f, pass);
  }

  lemma StoppingKeepsInv(w: World, f: Fence, pass: nat)
    requires Inv(w) && !w.faulted && SlotIs(w.snap, f) && (w.live.Some? ==> w.live.value.fence == f)
    ensures Inv(Finish(w, f, OwnFailure(StoppedByDriver)).(settle := Loop(pass + 1)))
    ensures w.snap.slot.value.mayHaveStarted ==> Inv(Park(w, f, ExecutionInterrupted).(settle := Idle))
    ensures w.live.Some? && w.snap.slot.value.mayHaveStarted ==>
            Inv(w.(settle := AwaitStop(f, w.live.value.handle, pass)))
  {
    FinishKeepsInv(w, f, OwnFailure(StoppedByDriver));
    PcKeepsInv(Finish(w, f, OwnFailure(StoppedByDriver)), Loop(pass + 1));
    if w.snap.slot.value.mayHaveStarted {
      ParkKeepsInv(w, f, ExecutionInterrupted);
      PcKeepsInv(Park(w, f, ExecutionInterrupted), Idle);
      PcKeepsInv(w, Idle);
    }
  }

  lemma SettleSlotKeepsInv(c: Setup, w: World, pass: nat)
    requires Inv(w) && !w.faulted && w.settle.Loop?
    ensures Inv(SettleSlot(c, w, pass))
  {
    PcKeepsInv(w, Idle);
    if w.snap.slot.Some? {
      var run := w.snap.slot.value;
      if w.live.Some? && w.live.value.fence != run.fence {
        FlagsKeepInv(w.(settle := Idle), w.starting, w.ready, w.closing, w.calls);
      } else if w.live.Some? && w.live.value.outcome.Some? {
        PublishKeepsInv(c, w, run.fence, w.live.value.outcome.value, pass);
      } else if run.phase.Prepared? {
        PreparedKeepsInv(c, w, run.fence, pass);
      } else {
        StoppingKeepsInv(w, run.fence, pass);
      }
    }
  }

  lemma SettleEventKeepsInv(c: Setup, w: World, e: Event)
    requires Inv(w) && Enabled(c, w, e) && (e.SettleBegin? || e.SettleRecovered?)
    ensures Inv(Apply(c, w, e))
  {
    FlagsKeepInv(w, w.starting, w.ready, w.closing, w.calls);
    PcKeepsInv(w, Idle);
    PcKeepsInv(w, Loop(0));
    PcKeepsInv(w, Recovering);
  }

  lemma SettlePassKeepsInv(c: Setup, w: World, now: int, progressId: Uuid)
    requires Inv(w) && Enabled(c, w, SettlePass(now, progressId))
    ensures Inv(SettleOnce(c, w, now, progressId))
  {
    FlagsKeepInv(w, w.starting, w.ready, w.closing, w.calls);
    PcKeepsInv(w, Idle);
    PcKeepsInv(FailClosed(w), Idle);
    TickKeepsInv(w, now, progressId);
    var r := TickEvent(w.snap, now, progressId);
    if w.settle.pass < 4 && !w.faulted && r.Ok? {
      SettleSlotKeepsInv(c, w.(snap := r.value.state), w.settle.pass);
    }
  }

  lemma FinishToLoopKeepsInv(w: World, f: Fence, outcome: Outcome, pass: nat)
    requires Inv(w)
    ensures Inv(Finish(w, f, outcome).(settle := Loop(pass)))
  {
    FinishKeepsInv(w, f, outcome);
    PcKeepsInv(Finish(w, f, outcome), Loop(pass));
  }

  lemma ParkToLoopKeepsInv(w: World, f: Fence, reason: StopReason, pass: nat)
    requires Inv(w) && Committed(w.snap, f) && !reason.StopCancel?
    ensures Inv(Park(w, f, reason).(settle := Loop(pass)))
  {
    ParkKeepsInv(w, f, reason);
    PcKeepsInv(Park(w, f, reason), Loop(pass));
  }

  lemma PrepareKeepsInv(c: Setup, w: World, ok: bool)
    requires Inv(w) && Enabled(c, w, PrepareDone(ok))
    ensures Inv(Apply(c, w, PrepareDone(ok)))
  {
    if ok {
      CommitKeepsInv(w, w.settle.fence, w.settle.pass);
    } else {
      FinishToLoopKeepsInv(w, w.settle.fence, OwnFailure(WorkspacePrepareFailed), w.settle.pass + 1);
    }
  }

  lemma AttachKeepsInv(w: World, f: Fence, handle: Fence)
    requires Inv(w) && Committed(w.snap, f) && Committed(w.snap, handle)
    ensures Inv(Attach(w, f, handle))
  {
    var a := w.(live := Some(Live(f, handle, None, false)));
    assert StartsInv(a) && SettleInv(a) && LateInv(a);
    if handle != f {
      assert LiveInv(FailClosed(a));
    }
  }

  lemma ResolvedKeepsInv(c: Setup, w: World, handle: Fence)
    requires Inv(w) && Enabled(c, w, StartResolved(handle))
    ensures Inv(Apply(c, w, StartResolved(handle)))
  {
    var f := w.settle.fence;
    var v := w.(calls := w.calls - {f}, starting := false);
    FlagsKeepInv(w, false, w.ready, w.closing, w.calls - {f});
    AttachKeepsInv(v, f, handle);
    var a := Attach(v, f, handle);
    if a.faulted {
      PcKeepsInv(a, Idle);
    } else {
      MarkRunningKeepsInv(a, f, w.settle.pass + 1);
    }
  }

  lemma MarkRunningKeepsInv(w: World, f: Fence, pass: nat)
    requires Inv(w) && !w.settle.Preparing?
    ensures Inv(w.(snap := RunningEvent(w.snap, f), settle := Loop(pass)))
  {
    RunningAdvances(w.snap, f);
    SnapKeepsInv(w, RunningEvent(w.snap, f));
    PcKeepsInv(w.(snap := RunningEvent(w.snap, f)), Loop(pass));
  }

  lemma RejectedKeepsInv(c: Setup, w: World)
    requires Inv(w) && Enabled(c, w, StartRejected)
    ensures Inv(Apply(c, w, StartRejected))
  {
    var f := w.settle.fence;
    FlagsKeepInv(w, false, w.ready, w.closing, w.calls - {f});
    ParkToLoopKeepsInv(w.(calls := w.calls - {f}, starting := false), f, ExecutionInterrupted, w.settle.pass + 1);
  }

  lemma InvokeKeepsInv(c: Setup, w: World)
    requires Inv(w) && Enabled(c, w, Invoke)
    ensures Inv(Apply(c, w, Invoke))
  {
  }

  lemma TimeoutKeepsInv(c: Setup, w: World)
    requires Inv(w) && Enabled(c, w, StartTimeout)
    ensures Inv(Apply(c, w, StartTimeout))
  {
    var f := w.settle.fence;
    WatchKeepsInv(w);
    ParkKeepsInv(w.(settle := Loop(w.settle.pass + 1), late := w.late + [LatePending(f, w.settle.invoked)]), f,
        DriverStartTimeout);
  }

  /** The wait is given up; a watcher stays with the call. */
  lemma WatchKeepsInv(w: World)
    requires Inv(w) && w.settle.AwaitStart?
    ensures Inv(w.(settle := Loop(w.settle.pass + 1), late := w.late + [LatePending(w.settle.fence, w.settle.invoked)]))
  {
  }

  lemma QuietKeepsInv(w: World, handle: Fence, outcome: Outcome)
    requires Inv(w) && Committed(w.snap, handle)
    ensures Inv(RecordQuiet(w, handle, outcome))
  {
  }

  lemma StopEventKeepsInv(c: Setup, w: World, e: Event)
    requires Inv(w) && Enabled(c, w, e)
    requires e.StopResolved? || e.StopTimeout? || e.PublishDone?
    ensures Inv(Apply(c, w, e))
  {
    var f := w.settle.fence;
    match e
    case StopResolved(outcome) =>
      QuietKeepsInv(w, f, outcome);
      PublishKeepsInv(c, RecordQuiet(w, f, outcome), f, outcome, w.settle.pass);
    case StopTimeout => ParkToLoopKeepsInv(w, f, ExecutionInterrupted, w.settle.pass + 1);
    case PublishDone(outcome) => FinishToLoopKeepsInv(w, f, outcome, w.settle.pass + 1);
  }

  lemma DropLateKeepsInv(w: World, i: nat)
    requires Inv(w) && i < |w.late|
    ensures Inv(DropLate(w, i))
  {
    var d := DropLate(w, i);
    forall j | 0 <= j < |d.late| ensures LateOk(d, d.late[j]) {
      assert LateOk(w, w.late[if j < i then j else j + 1]);
    }
  }

  lemma SetLateKeepsInv(w: World, i: nat, l: Late)
    requires Inv(w) && i < |w.late| && l.fence == w.late[i].fence && LateOk(w, l)
    ensures Inv(SetLate(w, i, l))
  {
  }

  lemma LateInvokeKeepsInv(c: Setup, w: World, i: nat)
    requires Inv(w) && Enabled(c, w, LateInvoke(i))
    ensures Inv(Apply(c, w, LateInvoke(i)))
  {
    var f := w.late[i].fence;
    var t := Apply(c, w, LateInvoke(i));
    assert LateOk(w, w.late[i]);
    forall j | 0 <= j < |t.late| ensures LateOk(t, t.late[j]) {
      assert LateOk(w, w.late[j]);
    }
  }

  lemma LateResolvedKeepsInv(c: Setup, w: World, i: nat, handle: Fence)
    requires Inv(w) && Enabled(c, w, LateResolved(i, handle))
    ensures Inv(Apply(c, w, LateResolved(i, handle)))
  {
    assert LateOk(w, w.late[i]);
    var f := w.late[i].fence;
    var v := w.(calls := w.calls - {f});
    FlagsKeepInv(w, w.starting, w.ready, w.closing, w.calls - {f});
    AttachKeepsInv(v, f, handle);
    var a := Attach(v, f, handle);
    if handle != f {
      DropLateKeepsInv(a, i);
    } else {
      assert LateOk(a, LateStop(f));
      SetLateKeepsInv(a, i, LateStop(f));
    }
  }

  lemma LateFinishKeepsInv(w: World, i: nat, outcome: Outcome)
    requires Inv(w) && i < |w.late|
    ensures Inv(SetLate(Finish(w, w.late[i].fence, outcome), i, LateRelease(w.late[i].fence)))
  {
    var t := Finish(w, w.late[i].fence, outcome);
    FinishKeepsInv(w, w.late[i].fence, outcome);
    assert LateOk(t, t.late[i]);
    SetLateKeepsInv(t, i, LateRelease(w.late[i].fence));
  }

  lemma LateStopResolvedKeepsInv(c: Setup, w: World, i: nat, outcome: Outcome)
    requires Inv(w) && Enabled(c, w, LateStopResolved(i, outcome))
    ensures Inv(Apply(c, w, LateStopResolved(i, outcome)))
  {
    assert LateOk(w, w.late[i]);
    var f := w.late[i].fence;
    QuietKeepsInv(w, f, outcome);
    var p := RecordQuiet(w, f, outcome);
    if w.faulted {
      DropLateKeepsInv(p, i);
    } else if MustPublish(c, p, f, outcome) {
      SetLateKeepsInv(p, i, LatePublish(f, outcome));
    } else {
      LateFinishKeepsInv(p, i, outcome);
    }
  }

  lemma LateEventKeepsInv(c: Setup, w: World, e: Event)
    requires Inv(w) && Enabled(c, w, e)
    requires e.LateRejected? || e.LateStopTimeout? || e.LatePublishDone? || e.LateReleased?
    ensures Inv(Apply(c, w, e))
  {
    assert LateOk(w, w.late[e.i]);
    var f := w.late[e.i].fence;
    match e
    case LateRejected(i) =>
      FlagsKeepInv(w, w.starting, w.ready, w.closing, w.calls - {f});
      DropLateKeepsInv(w.(calls := w.calls - {f}), i);
    case LateStopTimeout(i) =>
      ParkKeepsInv(w, f, DriverStartTimeout);
      DropLateKeepsInv(if w.faulted then w else Park(w, f, DriverStartTimeout), i);
    case LatePublishDone(i, outcome) => LateFinishKeepsInv(w, i, outcome);
    case LateReleased(i) => DropLateKeepsInv(w, i);
  }

  lemma RecoverDoneKeepsInv(w: World)
    requires Inv(w)
    ensures Inv(w.(recover := NoRecover, ready := true))
    ensures Inv(FailClosed(w).(recover := NoRecover))
  {
  }

  lemma RecoverReturnKeepsInv(c: Setup, w: World, stopped: bool)
    requires Inv(w) && Enabled(c, w, RecoverReturn(stopped))
    ensures Inv(Apply(c, w, RecoverReturn(stopped)))
  {
    var f := w.recover.fence;
    var p := if stopped then w.(proofs := w.proofs + {f}) else w;
    assert Inv(p);
    if w.faulted {
      RecoverDoneKeepsInv(p);
    } else if stopped {
      FinishKeepsInv(p, f, OwnFailure(Stopped(ExecutionInterrupted)));
      RecoverDoneKeepsInv(Finish(p, f, OwnFailure(Stopped(ExecutionInterrupted))));
    } else {
      ParkKeepsInv(p, f, ExecutionInterrupted);
      RecoverDoneKeepsInv(Park(p, f, ExecutionInterrupted));
    }
  }

  lemma RecoverBeginKeepsInv(c: Setup, w: World)
    requires Inv(w) && Enabled(c, w, RecoverBegin)
    ensures Inv(RecoverStart(w))
  {
  }

  lemma HandleEventKeepsInv(c: Setup, w: World, e: Event)
    requires Inv(w) && Enabled(c, w, e) && (e.HandleClosed? || e.HandleClosedFault?)
    ensures Inv(Apply(c, w, e))
  {
  }

  lemma DriverEventKeepsInv(c: Setup, w: World, e: Event)
    requires Inv(w) && Enabled(c, w, e) && (e.DriverBegins? || e.DriverEnds?)
    ensures Inv(Apply(c, w, e))
  {
  }

  lemma CrashKeepsInv(c: Setup, w: World, e: Event)
    requires Inv(w) && (e.Fault? || e.Crash?)
    ensures Inv(Apply(c, w, e))
  {
  }

  lemma StartEventKeepsInv(c: Setup, w: World, e: Event)
    requires Inv(w) && Enabled(c, w, e)
    requires e.PrepareDone? || e.Invoke? || e.StartResolved? || e.StartRejected? || e.StartTimeout?
    ensures Inv(Apply(c, w, e))
  {
    match e
    case PrepareDone(ok) => PrepareKeepsInv(c, w, ok);
    case Invoke => InvokeKeepsInv(c, w);
    case StartResolved(handle) => ResolvedKeepsInv(c, w, handle);
    case StartRejected => RejectedKeepsInv(c, w);
    case StartTimeout => TimeoutKeepsInv(c, w);
  }

  predicate IsLate(e: Event) {
    e.LateInvoke? || e.LateResolved? || e.LateRejected? || e.LateStopResolved? || e.LateStopTimeout? ||
        e.LatePublishDone? || e.LateReleased?
  }

  lemma WatcherKeepsInv(c: Setup, w: World, e: Event)
    requires Inv(w) && Enabled(c, w, e) && IsLate(e)
    ensures Inv(Apply(c, w, e))
  {
    if e.LateInvoke? {
      LateInvokeKeepsInv(c, w, e.i);
    } else if e.LateResolved? {
      LateResolvedKeepsInv(c, w, e.i, e.handle);
    } else if e.LateStopResolved? {
      LateStopResolvedKeepsInv(c, w, e.i, e.outcome);
    } else {
      LateEventKeepsInv(c, w, e);
    }
  }

  lemma InvInductive(c: Setup, w: World, e: Event)
    requires ValidConfig(c.config) && Inv(w) && Enabled(c, w, e)
    ensures Inv(Apply(c, w, e))
  {
    if e.Consume? || e.Tick? || e.Close? {
      SnapshotEventKeepsInv(c, w, e);
    } else if e.SettleBegin? || e.SettleRecovered? {
      SettleEventKeepsInv(c, w, e);
    } else if e.SettlePass? {
      SettlePassKeepsInv(c, w, e.now, e.progressId);
    } else if e.StopResolved? || e.StopTimeout? || e.PublishDone? {
      StopEventKeepsInv(c, w, e);
    } else if IsLate(e) {
      WatcherKeepsInv(c, w, e);
    } else if e.RecoverBegin? {
      RecoverBeginKeepsInv(c, w);
    } else if e.RecoverReturn? {
      RecoverReturnKeepsInv(c, w, e.stopped);
    } else if e.HandleClosed? || e.HandleClosedFault? {
      HandleEventKeepsInv(c, w, e);
    } else if e.DriverBegins? || e.DriverEnds? {
      DriverEventKeepsInv(c, w, e);
    } else if e.Fault? || e.Crash? {
      CrashKeepsInv(c, w, e);
    } else {
      StartEventKeepsInv(c, w, e);
    }
  }

  // ---- Theorems over whole runs ----

  lemma InitInv()
    ensures Inv(INIT)
  {
  }

  lemma {:induction false} ExecutionKeepsInv(c: Setup, ws: seq<World>, es: seq<Event>, k: nat)
    requires ValidConfig(c.config) && Execution(c, ws, es) && k < |ws|
    ensures Inv(ws[k])
  {
    if k > 0 {
      ExecutionKeepsInv(c, ws, es, k - 1);
      InvInductive(c, ws[k - 1], es[k - 1]);
      assert ws[k - 1 + 1] == Apply(c, ws[k - 1], es[k - 1]);
    }
  }

  /** driver.start is invoked at most once for each fence, over every interleaving and any number of crashes. */
  lemma StartedAtMostOnce(c: Setup, ws: seq<World>, es: seq<Event>, k: nat)
    requires ValidConfig(c.config) && Execution(c, ws, es) && k < |ws|
    ensures Distinct(ws[k].starts)
    ensures Valid(ws[k].snap)
  {
    ExecutionKeepsInv(c, ws, es, k);
  }

  predicate HoldsSlot(s: Snapshot, f: Fence) {
    SlotIs(s, f) && s.slot.value.mayHaveStarted
  }

  /** One synchronous step releases a possibly-started run only to an empty slot and only with its proof. */
  lemma FinishNeedsProof(w: World, f: Fence, g: Fence, outcome: Outcome)
    requires Valid(w.snap) && HoldsSlot(w.snap, f) && (g == f ==> f in w.proofs)
    ensures var t := Finish(w, g, outcome); HoldsSlot(t.snap, f) || (t.snap.slot.None? && f in t.proofs)
  {
  }

  lemma ParkHolds(w: World, f: Fence, g: Fence, reason: StopReason)
    requires HoldsSlot(w.snap, f)
    ensures HoldsSlot(Park(w, g, reason).snap, f)
  {
  }

  lemma SettleNeedsProof(c: Setup, w: World, pass: nat, f: Fence)
    requires Inv(w) && !w.faulted && HoldsSlot(w.snap, f)
    ensures var t := SettleSlot(c, w, pass); HoldsSlot(t.snap, f) || (t.snap.slot.None? && f in t.proofs)
  {
    var run := w.snap.slot.value;
    if w.live.Some? && w.live.value.fence == f && w.live.value.outcome.Some? {
      FinishNeedsProof(w, f, f, w.live.value.outcome.value);
    } else {
      ParkHolds(w, f, run.fence, ExecutionInterrupted);
    }
  }

  lemma SnapshotNeedsProof(c: Setup, w: World, e: Event, f: Fence)
    requires ValidConfig(c.config) && Inv(w) && Enabled(c, w, e) && HoldsSlot(w.snap, f)
    requires e.Consume? || e.Tick? || e.Close?
    ensures HoldsSlot(Apply(c, w, e).snap, f)
  {
    match e
    case Consume(env, now, authorized, policyOk, runId) =>
      ConsumeAdvances(c.config, w.snap, env, now, authorized, w.ready, w.closing, policyOk, runId);
    case Tick(now, progressId) => TickAdvances(w.snap, now, progressId);
    case Close => ShutdownAdvances(w.snap);
  }

  lemma PcNeedsProof(c: Setup, w: World, e: Event, f: Fence)
    requires Inv(w) && Enabled(c, w, e) && HoldsSlot(w.snap, f)
    requires e.PrepareDone? || e.StartRejected? || e.StartTimeout? || e.StopResolved? || e.StopTimeout? ||
             e.PublishDone?
    ensures var t := Apply(c, w, e); HoldsSlot(t.snap, f) || (t.snap.slot.None? && f in t.proofs)
  {
    var g := w.settle.fence;
    match e
    case PrepareDone(ok) => FinishNeedsProof(w, f, g, OwnFailure(WorkspacePrepareFailed));
    case StartRejected => ParkHolds(w, f, g, ExecutionInterrupted);
    case StartTimeout => ParkHolds(w, f, g, DriverStartTimeout);
    case StopResolved(outcome) => FinishNeedsProof(RecordQuiet(w, w.settle.handle, outcome), f, g, outcome);
    case StopTimeout => ParkHolds(w, f, g, ExecutionInterrupted);
    case PublishDone(outcome) => FinishNeedsProof(w, f, g, outcome);
  }

  lemma LateNeedsProof(c: Setup, w: World, e: Event, f: Fence)
    requires Inv(w) && Enabled(c, w, e) && HoldsSlot(w.snap, f)
    requires e.LateStopResolved? || e.LateStopTimeout? || e.LatePublishDone? || e.RecoverReturn?
    ensures var t := Apply(c, w, e); HoldsSlot(t.snap, f) || (t.snap.slot.None? && f in t.proofs)
  {
    match e
    case LateStopResolved(i, outcome) =>
      FinishNeedsProof(RecordQuiet(w, w.late[i].fence, outcome), f, w.late[i].fence, outcome);
    case LateStopTimeout(i) => ParkHolds(w, f, w.late[i].fence, DriverStartTimeout);
    case LatePublishDone(i, outcome) =>
      assert LateOk(w, w.late[i]);
      FinishNeedsProof(w, f, w.late[i].fence, outcome);
    case RecoverReturn(stopped) =>
      FinishNeedsProof(w.(proofs := w.proofs + {w.recover.fence}), f, w.recover.fence,
                       OwnFailure(Stopped(ExecutionInterrupted)));
      ParkHolds(w, f, w.recover.fence, ExecutionInterrupted);
  }

  /**
   * The slot of a run that may have started is given up only by a step after which its quiescence has
   * been proved (its closure or stop fulfilled, or recovery answered that it stopped), and it is given
   * up to an empty slot, never directly to another run.
   */
  lemma ClearedOnlyOnProof(c: Setup, w: World, e: Event)
    requires ValidConfig(c.config) && Inv(w) && Enabled(c, w, e)
    requires w.snap.slot.Some? && w.snap.slot.value.mayHaveStarted
    ensures var t, f := Apply(c, w, e), w.snap.slot.value.fence;
            HoldsSlot(t.snap, f) || (t.snap.slot.None? && f in t.proofs)
  {
    var f := w.snap.slot.value.fence;
    if !e.Consume? && !e.Tick? && !e.Close? && !e.SettlePass? {
      AsyncNeedsProof(c, w, e, f);
    } else if !e.SettlePass? {
      SnapshotNeedsProof(c, w, e, f);
    } else {
      PassNeedsProof(c, w, e.now, e.progressId, f);
    }
  }

  lemma AsyncNeedsProof(c: Setup, w: World, e: Event, f: Fence)
    requires Inv(w) && Enabled(c, w, e) && HoldsSlot(w.snap, f)
    requires !e.Consume? && !e.Tick? && !e.Close? && !e.SettlePass?
    ensures var t := Apply(c, w, e); HoldsSlot(t.snap, f) || (t.snap.slot.None? && f in t.proofs)
  {
    if e.PrepareDone? || e.StartRejected? || e.StartTimeout? || e.StopResolved? || e.StopTimeout? || e.PublishDone? {
      PcNeedsProof(c, w, e, f);
    } else if e.LateStopResolved? || e.LateStopTimeout? || e.LatePublishDone? || e.RecoverReturn? {
      LateNeedsProof(c, w, e, f);
    } else {
      assert Apply(c, w, e).snap == w.snap || e.StartResolved?;
    }
  }

  lemma PassNeedsProof(c: Setup, w: World, now: int, progressId: Uuid, f: Fence)
    requires Inv(w) && Enabled(c, w, SettlePass(now, progressId)) && HoldsSlot(w.snap, f)
    ensures var t := SettleOnce(c, w, now, progressId); HoldsSlot(t.snap, f) || (t.snap.slot.None? && f in t.proofs)
  {
    TickKeepsInv(w, now, progressId);
    TickAdvances(w.snap, now, progressId);
    var r := TickEvent(w.snap, now, progressId);
    if w.settle.pass < 4 && !w.faulted && r.Ok? {
      SettleNeedsProof(c, w.(snap := r.value.state), w.settle.pass, f);
    }
  }

  /** In every run: the slot of a run that may have started is cleared only with proof of its quiescence. */
  lemma RunClearsOnlyOnProof(c: Setup, ws: seq<World>, es: seq<Event>, k: nat)
    requires ValidConfig(c.config) && Execution(c, ws, es) && k < |es|
    requires ws[k].snap.slot.Some? && ws[k].snap.slot.value.mayHaveStarted
    ensures var f := ws[k].snap.slot.value.fence;
            HoldsSlot(ws[k + 1].snap, f) || (ws[k + 1].snap.slot.None? && f in ws[k + 1].proofs)
  {
    ExecutionKeepsInv(c, ws, es, k);
    ClearedOnlyOnProof(c, ws[k], es[k]);
  }
}
