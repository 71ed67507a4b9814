/** The executor is never stuck: what it started can be finished, and from wherever it is the slot can be freed. */
module ExecutorProgress {
  import opened Core
  import opened Wire
  import opened Lease
  import opened ExecutorState
  import opened ExecutorProtocol
  import opened ExecutorSafety
  import R = ExecutorReports
  import X = ExecutorExclusion

  lemma Go(c: Setup, w0: World, w: World, e: Event) returns (t: World)
    requires ValidConfig(c.config) && Reaches(c, w0, w) && Inv(w) && Enabled(c, w, e)
    ensures t == Apply(c, w, e) && Reaches(c, w0, t) && Inv(t)
  {
    ReachesNext(c, w0, w, e);
    InvInductive(c, w, e);
    t := Apply(c, w, e);
  }

  /** Nothing is going on: no handle, no call, no watcher, no recovery, no settling. */
  predicate Still(w: World) {
    && w.live.None? && w.late == [] && w.recover.NoRecover? && w.settle.Idle? && w.calls == {}
    && !w.faulted && !w.starting
  }

  // ---- From the offer to the report ----

  /** A prepared run is started: committed, invoked, and running under its handle. */
  lemma StartsRun(c: Setup, w0: World, w: World, f: Fence, now: int) returns (t: World)
    requires ValidConfig(c.config) && Reaches(c, w0, w) && Inv(w) && Still(w) && w.ready && c.config.driver
    requires SlotIs(w.snap, f) && w.snap.slot.value.phase.Prepared? && 0 <= now < w.snap.slot.value.leaseDeadline &&
             Safe(now)
    ensures Reaches(c, w0, t) && Inv(t)
    ensures SlotIs(t.snap, f) && t.snap.slot.value == w.snap.slot.value.(phase := Running, mayHaveStarted := true)
    ensures t.live == Some(Live(f, f, None, false)) && t.settle.Loop? && t.settle.pass <= 1 && t.late == []
    ensures t.recover.NoRecover? && !t.faulted && t.ready && f in t.starts && t.running == w.running
    ensures t.snap.last == w.snap.last
  {
    var t1 := CommitsPrepared(c, w0, w, f, now);
    var t2 := Go(c, w0, t1, Invoke);
    t := Go(c, w0, t2, StartResolved(f));
  }

  /** The settle loop commits the start of a prepared run. */
  lemma CommitsPrepared(c: Setup, w0: World, w: World, f: Fence, now: int) returns (t: World)
    requires ValidConfig(c.config) && Reaches(c, w0, w) && Inv(w) && Still(w) && w.ready && c.config.driver
    requires SlotIs(w.snap, f) && w.snap.slot.value.phase.Prepared? && 0 <= now < w.snap.slot.value.leaseDeadline &&
             Safe(now)
    ensures Reaches(c, w0, t) && Inv(t)
    ensures t.settle == AwaitStart(f, false, 0) && StartingEvent(w.snap, f) == Some(t.snap)
    ensures t == w.(snap := t.snap, settle := t.settle, starting := true)
  {
    var t1 := Go(c, w0, w, SettleBegin);
    PreparedPass(c, t1, f, now);
    t := Go(c, w0, t1, SettlePass(now, 0));
    if c.workspace {
      t := Go(c, w0, t, PrepareDone(true));
    }
  }

  lemma PreparedPass(c: Setup, w: World, f: Fence, now: int)
    requires w.settle == Loop(0) && !w.faulted && w.live.None? && c.config.driver && Nonnegative(now)
    requires SlotIs(w.snap, f) && w.snap.slot.value.phase.Prepared? && now < w.snap.slot.value.leaseDeadline
    ensures Apply(c, w, SettlePass(now, 0)) == if c.workspace then w.(settle := Preparing(f, 0))
            else CommitStart(w, f, 0)
  {
    assert TickEvent(w.snap, now, 0) == Ok(Unchanged(w.snap));
    assert w.(snap := w.snap) == w;
  }

  /** A run whose handle closed is reported with what it said, published first where there is a publisher. */
  lemma ReportsResult(c: Setup, w0: World, w: World, f: Fence, o: Outcome, now: int)
                      returns (t: World, e: Event, v: World)
    requires ValidConfig(c.config) && Reaches(c, w0, w) && Inv(w) && !w.faulted && w.settle.Loop? && w.settle.pass < 4
    requires SlotIs(w.snap, f) && w.snap.slot.value.phase.Running? && w.live == Some(Live(f, f, Some(o), false))
    requires 0 <= now < w.snap.slot.value.heartbeatAt && now < w.snap.slot.value.leaseDeadline && Safe(now)
    ensures Reaches(c, w0, t) && Enabled(c, t, e) && v == Apply(c, t, e)
    ensures v.snap.slot.None? && v.snap.last.Some? && v.snap.last.value.fence == f && v.snap.last.value.outcome == o
    ensures |Sends(c, t, e)| == 1 && R.Report(w.snap.slot.value, o, Sends(c, t, e)[0])
  {
    ClosedPass(c, w, f, o, now);
    R.FinishReports(w.snap, f, o);
    if MustPublish(c, w, f, o) {
      t := Go(c, w0, w, SettlePass(now, 0));
      e := PublishDone(o);
      v := Apply(c, t, e);
      assert Sends(c, t, e) == FinishEvent(w.snap, f, o).outbox;
    } else {
      t, e := w, SettlePass(now, 0);
      v := Apply(c, t, e);
      assert Sends(c, t, e) == FinishEvent(w.snap, f, o).outbox;
    }
  }

  lemma ClosedPass(c: Setup, w: World, f: Fence, o: Outcome, now: int)
    requires !w.faulted && w.settle.Loop? && w.settle.pass < 4 && Nonnegative(now)
    requires SlotIs(w.snap, f) && w.snap.slot.value.phase.Running? && w.live == Some(Live(f, f, Some(o), false))
    requires now < w.snap.slot.value.heartbeatAt && now < w.snap.slot.value.leaseDeadline
    ensures TickEvent(w.snap, now, 0) == Ok(Unchanged(w.snap))
    ensures Apply(c, w, SettlePass(now, 0)) == PublishThenFinish(c, w, f, o, w.settle.pass)
    ensures Ends(c, w, SettlePass(now, 0)) == PublishEnds(c, w, f, o)
  {
    assert w.(snap := w.snap) == w;
  }

  /**
   * A run can always be carried through: from any reachable world in which nothing is going on and a prepared run holds
   * the slot of an executor with a driver, some continuation starts it, hears its result, and reports exactly that.
   */
  lemma RunCanComplete(c: Setup, w: World, f: Fence, o: Outcome, now: int) returns (t: World, e: Event, v: World)
    requires ValidConfig(c.config) && Reaches(c, INIT, w) && Still(w) && w.ready && c.config.driver && o.ResultOutcome?
    requires SlotIs(w.snap, f) && w.snap.slot.value.phase.Prepared?
    requires 0 <= now < w.snap.slot.value.leaseDeadline && now < w.snap.slot.value.heartbeatAt && Safe(now)
    ensures Reaches(c, w, t) && Enabled(c, t, e) && v == Apply(c, t, e)
    ensures v.snap.slot.None? && v.snap.last.Some? && v.snap.last.value.fence == f && v.snap.last.value.outcome == o
    ensures |Sends(c, t, e)| == 1 && R.AboutRun(w.snap.slot.value, Sends(c, t, e)[0]) &&
            Sends(c, t, e)[0].body == Delivery(o)
  {
    X.ReachableOwned(c, w);
    ReachesItself(c, w);
    var t1 := StartsRun(c, w, w, f, now);
    if f in t1.running {
      t1 := Go(c, w, t1, DriverEnds(f));
    }
    var t2 := Go(c, w, t1, HandleClosed(o));
    t, e, v := ReportsResult(c, w, t2, f, o, now);
  }

  // ---- Stopping ----

  /** Whoever asks for a stop gets it: the settle loop waits for the handle, and ends the run when it is quiet. */
  lemma StopCanComplete(c: Setup, w: World, f: Fence, o: Outcome, now: int) returns (t: World, e: Event, v: World)
    requires ValidConfig(c.config) && Reaches(c, INIT, w) && !w.faulted && w.settle.Idle? && w.ready && Nonnegative(now)
    requires SlotIs(w.snap, f) && w.snap.slot.value.phase.Stopping? && w.snap.slot.value.mayHaveStarted
    requires w.live == Some(Live(f, f, None, false))
    ensures Reaches(c, w, t) && Enabled(c, t, e) && v == Apply(c, t, e) && v.snap.slot.None?
    ensures |Sends(c, t, e)| == 1 && R.Report(w.snap.slot.value, o, Sends(c, t, e)[0])
    ensures w.snap.slot.value.cancelMsgId.Some? ==> Sends(c, t, e)[0].body == CancelAck(false)
  {
    X.ReachableOwned(c, w);
    ReachesItself(c, w);
    t := AwaitsStop(c, w, w, f, now);
    e := StopResolved(o);
    v := Apply(c, t, e);
    QuietEnds(c, t, f, o);
  }

  lemma AwaitsStop(c: Setup, w0: World, w: World, f: Fence, now: int) returns (t: World)
    requires ValidConfig(c.config) && Reaches(c, w0, w) && Inv(w) && !w.faulted && w.settle.Idle? && w.ready &&
             Nonnegative(now)
    requires SlotIs(w.snap, f) && w.snap.slot.value.phase.Stopping? && w.snap.slot.value.mayHaveStarted
    requires w.live == Some(Live(f, f, None, false))
    ensures Reaches(c, w0, t) && t.settle == AwaitStop(f, f, 0) && t.snap == w.snap && f !in t.running
    ensures w.snap.slot.value.stopReason.Some?
  {
    var t1 := w;
    if f in w.running {
      t1 := Go(c, w0, w, DriverEnds(f));
    }
    var t2 := Go(c, w0, t1, SettleBegin);
    StoppingWaits(c, t2, f, now);
    t := Go(c, w0, t2, SettlePass(now, 0));
  }

  lemma QuietEnds(c: Setup, w: World, f: Fence, o: Outcome)
    requires w.settle == AwaitStop(f, f, 0) && f !in w.running && SlotIs(w.snap, f) &&
             w.snap.slot.value.stopReason.Some?
    ensures var v := Apply(c, w, StopResolved(o)); v.snap.slot.None?
    ensures var sent := Sends(c, w, StopResolved(o)); |sent| == 1 && R.Report(w.snap.slot.value, o, sent[0])
  {
    R.FinishReports(w.snap, f, o);
    assert Sends(c, w, StopResolved(o)) == FinishEvent(w.snap, f, o).outbox;
  }

  lemma StoppingWaits(c: Setup, w: World, f: Fence, now: int)
    requires w.settle == Loop(0) && !w.faulted && w.live == Some(Live(f, f, None, false)) && Nonnegative(now)
    requires SlotIs(w.snap, f) && w.snap.slot.value.phase.Stopping? && w.snap.slot.value.mayHaveStarted
    ensures Apply(c, w, SettlePass(now, 0)) == w.(settle := AwaitStop(f, f, 0))
  {
    assert TickEvent(w.snap, now, 0) == Ok(Unchanged(w.snap));
    assert w.(snap := w.snap) == w;
  }

  /** A handle whose closure failed proves nothing: the settle loop parks its run, and tells nobody that it ended. */
  lemma FaultyClosureParks(c: Setup, w: World, f: Fence, now: int)
    requires w.settle.Loop? && w.settle.pass < 4 && !w.faulted && SlotIs(w.snap, f) && w.snap.slot.value.phase.Running?
    requires w.live.Some? && w.live.value.fence == f && w.live.value.outcome.None? && w.live.value.closedFault
    requires 0 <= now < w.snap.slot.value.heartbeatAt && now < w.snap.slot.value.leaseDeadline && Safe(now)
    ensures var v := Apply(c, w, SettlePass(now, 0));
            && SlotIs(v.snap, f) && v.snap.slot.value.phase.RecoveryRequired?
            && v.snap.slot.value.stopReason.Some?
            && Sends(c, w, SettlePass(now, 0)) == [] && v.settle.Idle?
  {
    assert TickEvent(w.snap, now, 0) == Ok(Unchanged(w.snap));
    assert w.(snap := w.snap) == w;
  }

  /** Recovery without proof parks the run, and says it is ready; with proof it ends the run as interrupted. */
  lemma RecoveryIff(c: Setup, w: World, stopped: bool)
    requires Enabled(c, w, RecoverReturn(stopped)) && !w.faulted && SlotIs(w.snap, w.recover.fence)
    ensures var v := Apply(c, w, RecoverReturn(stopped));
            && v.ready && v.recover.NoRecover?
            && (stopped <==> v.snap.slot.None?)
            && (!stopped ==> v.snap.slot.value.phase.RecoveryRequired? && v.snap.last == w.snap.last)
            && (stopped ==> v.snap.last.Some? && w.recover.fence in v.proofs
                            && (w.snap.slot.value.stopReason.None? ==>
                                  v.snap.last.value.outcome == OwnFailure(Stopped(ExecutionInterrupted))))
  {
  }

  // ---- From anywhere to an empty slot ----

  /** Recovery of a run that may have started: once the driver's work has ended, it can prove so. */
  lemma RecoversSlot(c: Setup, w0: World, w: World, f: Fence) returns (t: World)
    requires ValidConfig(c.config) && Reaches(c, w0, w) && Inv(w) && !w.faulted && w.recover.NoRecover? && !w.starting
    requires w.settle.Idle? && w.live.None? && SlotIs(w.snap, f) && w.snap.slot.value.mayHaveStarted
    ensures Reaches(c, w0, t) && Inv(t) && t.snap.slot.None? && t.ready && !t.faulted
  {
    var t1 := w;
    if f in w.running {
      t1 := Go(c, w0, w, DriverEnds(f));
    }
    var t2 := Go(c, w0, t1, RecoverBegin);
    t := Go(c, w0, t2, RecoverReturn(true));
  }

  /** A run that never started, and is to stop, is finished by the settle loop. */
  lemma StopsUnstarted(c: Setup, w0: World, w: World, f: Fence) returns (t: World)
    requires ValidConfig(c.config) && Reaches(c, w0, w) && Inv(w) && Still(w) && w.ready
    requires SlotIs(w.snap, f) && w.snap.slot.value.phase.Stopping? && !w.snap.slot.value.mayHaveStarted
    ensures Reaches(c, w0, t) && Inv(t) && t.snap.slot.None? && t.ready && !t.faulted
  {
    var t1 := Go(c, w0, w, SettleBegin);
    StoppingPass(c, t1, f);
    t := Go(c, w0, t1, SettlePass(0, 0));
  }

  lemma StoppingPass(c: Setup, w: World, f: Fence)
    requires w.settle == Loop(0) && !w.faulted && w.live.None?
    requires SlotIs(w.snap, f) && w.snap.slot.value.phase.Stopping? && !w.snap.slot.value.mayHaveStarted
    ensures Apply(c, w, SettlePass(0, 0)) == Finish(w, f, OwnFailure(StoppedByDriver)).(settle := Loop(1))
  {
    assert TickEvent(w.snap, 0, 0) == Ok(Unchanged(w.snap));
    assert w.(snap := w.snap) == w;
  }

  /** A prepared run without a driver is refused by the settle loop. */
  lemma RefusesUndriven(c: Setup, w0: World, w: World, f: Fence) returns (t: World)
    requires ValidConfig(c.config) && Reaches(c, w0, w) && Inv(w) && Still(w) && w.ready && !c.config.driver
    requires SlotIs(w.snap, f) && w.snap.slot.value.phase.Prepared?
    ensures Reaches(c, w0, t) && Inv(t) && t.snap.slot.None? && t.ready && !t.faulted
  {
    var t1 := Go(c, w0, w, SettleBegin);
    UndrivenPass(c, t1, f);
    t := Go(c, w0, t1, SettlePass(0, 0));
  }

  lemma UndrivenPass(c: Setup, w: World, f: Fence)
    requires w.settle == Loop(0) && !w.faulted && w.live.None? && !c.config.driver && Valid(w.snap)
    requires SlotIs(w.snap, f) && w.snap.slot.value.phase.Prepared?
    ensures Apply(c, w, SettlePass(0, 0)) == Finish(w, f, OwnFailure(DriverUnavailable)).(settle := Loop(1))
  {
    assert TickEvent(w.snap, 0, 0) == Ok(Unchanged(w.snap));
    assert w.(snap := w.snap) == w;
  }

  /** A crash, and a recovery with nothing to prove: everything volatile is gone, and the executor is ready. */
  lemma Restarts(c: Setup, w0: World, w: World) returns (t: World)
    requires ValidConfig(c.config) && Reaches(c, w0, w) && Inv(w)
    ensures Reaches(c, w0, t) && Inv(t) && Still(t) && t.snap == w.snap
    ensures t.ready <==> !(w.snap.slot.Some? && w.snap.slot.value.mayHaveStarted)
  {
    t := Go(c, w0, w, Crash);
    if !(w.snap.slot.Some? && w.snap.slot.value.mayHaveStarted) {
      t := Go(c, w0, t, RecoverBegin);
    }
  }

  /** A prepared run of an executor with a driver can be carried through, with any result. */
  lemma CarriesThrough(c: Setup, w0: World, w: World, f: Fence) returns (t: World)
    requires ValidConfig(c.config) && Reaches(c, w0, w) && Inv(w) && Still(w) && w.ready && c.config.driver
    requires SlotIs(w.snap, f) && w.snap.slot.value.phase.Prepared?
    ensures Reaches(c, w0, t) && Inv(t) && t.snap.slot.None? && t.ready && !t.faulted
  {
    var t1 := StartsRun(c, w0, w, f, 0);
    if f in t1.running {
      t1 := Go(c, w0, t1, DriverEnds(f));
    }
    var o := FailOutcome(true, 0);
    var t2 := Go(c, w0, t1, HandleClosed(o));
    ClosedPass(c, t2, f, o, 0);
    t := Go(c, w0, t2, SettlePass(0, 0));
  }

  /**
   * From every reachable world, crashed, faulted, parked or in the middle of anything, some continuation leaves the
   * slot empty and the executor ready for the next offer.
   */
  lemma SlotCanBeFreed(c: Setup, w: World) returns (t: World)
    requires ValidConfig(c.config) && Reaches(c, INIT, w)
    ensures Reaches(c, w, t) && t.snap.slot.None? && t.ready && !t.faulted
  {
    X.ReachableOwned(c, w);
    ReachesItself(c, w);
    t := Restarts(c, w, w);
    if t.snap.slot.Some? {
      var f := t.snap.slot.value.fence;
      if t.snap.slot.value.mayHaveStarted {
        t := RecoversSlot(c, w, t, f);
      } else if t.snap.slot.value.phase.Stopping? {
        t := StopsUnstarted(c, w, t, f);
      } else if c.config.driver {
        t := CarriesThrough(c, w, t, f);
      } else {
        t := RefusesUndriven(c, w, t, f);
      }
    }
  }
}
