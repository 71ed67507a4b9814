/**
 * What the executor owes its lead: how each offer, cancel, renewal and tick is answered, and, over every run of the
 * protocol, what the report that empties a slot says and where its outcome came from.
 */
module ExecutorReports {
  import opened Core
  import opened Wire
  import opened Lease
  import opened ExecutorState
  import opened ExecutorProtocol
  import opened ExecutorSafety
  import Caps

  predicate AboutRun(run: DurableRun, m: Outbound) {
    m.to == run.lead && m.task == Some(run.fence.task) && m.attempt == Some(run.fence.attempt)
  }

  // ---- Offers ----

  /** The executor's gates, by number. */
  predicate Gate(k: nat, c: Config, s: Snapshot, env: Envelope, now: int, allowed: bool, unexpired: bool, ready: bool,
                 closing: bool, policyOk: bool)
    requires env.body.Offer?
  {
    var b := env.body.offer;
    var ttl, lease := OrDefault(b.offerTtlMs, c.offerTtlMsAid), OrDefault(b.leaseMs, c.leaseMsAid);
    match k
    case 0 => allowed
    case 1 => unexpired
    case 2 => ready && s.slot.None? && !closing
    case 3 =>
      && c.driver && !b.project && !b.payloadRef && env.task.Some? && env.attempt.Some? && Positive(env.attempt.value)
      && !b.demands.SomeDemands? && (b.kind.Aid? || (b.kind.Project? && c.publisher))
    case 4 =>
      PositiveField(ttl) && PositiveField(lease) && Safe(now + lease.v) && env.ts.Some? && now < env.ts.value + ttl.v
    case 5 => policyOk
    case 6 => Caps.CapabilityGate(b.requiredCaps, c.caps)
    case 7 => SupportedOffer(b)
    case 8 =>
      env.task.Some? && env.attempt.Some? && s.last.Some? && s.last.value.fence.task == env.task.value ==>
        env.attempt.value > s.last.value.fence.attempt
    case _ => true
  }

  const CODES: seq<RejectCode> :=
    [PolicyDenied, Expired, Busy, PolicyDenied, Expired, PolicyDenied, UnsupportedCaps, PolicyDenied, StaleAttempt]

  /** An offer passes when every gate does, and is refused with the code of the first gate that does not. */
  lemma DenialIff(c: Config, s: Snapshot, env: Envelope, now: int, allowed: bool, unexpired: bool, ready: bool,
                  closing: bool, policyOk: bool)
    requires env.body.Offer?
    ensures var d := OfferDenial(c, s, env, now, allowed, unexpired, ready, closing, policyOk);
            && (d.None? <==> forall k :: 0 <= k < 9 ==>
                  Gate(k, c, s, env, now, allowed, unexpired, ready, closing, policyOk))
            && (forall k :: 0 <= k < 9 && !Gate(k, c, s, env, now, allowed, unexpired, ready, closing, policyOk)
                  && (forall j :: 0 <= j < k ==> Gate(j, c, s, env, now, allowed, unexpired, ready, closing, policyOk))
                  ==> d == Some(CODES[k]))
  {
    var d := OfferDenial(c, s, env, now, allowed, unexpired, ready, closing, policyOk);
    forall k | 0 <= k < 9 && !Gate(k, c, s, env, now, allowed, unexpired, ready, closing, policyOk)
               && (forall j :: 0 <= j < k ==> Gate(j, c, s, env, now, allowed, unexpired, ready, closing, policyOk))
      ensures d == Some(CODES[k])
    {
      FirstGate(k, c, s, env, now, allowed, unexpired, ready, closing, policyOk);
    }
    if d.None? {
      AllGates(c, s, env, now, allowed, unexpired, ready, closing, policyOk);
    } else if forall k :: 0 <= k < 9 ==> Gate(k, c, s, env, now, allowed, unexpired, ready, closing, policyOk) {
      SomeGate(c, s, env, now, allowed, unexpired, ready, closing, policyOk);
    }
  }

  lemma FirstGate(k: nat, c: Config, s: Snapshot, env: Envelope, now: int, allowed: bool, unexpired: bool, ready: bool,
                  closing: bool, policyOk: bool)
    requires env.body.Offer? && k < 9 && !Gate(k, c, s, env, now, allowed, unexpired, ready, closing, policyOk)
    requires forall j :: 0 <= j < k ==> Gate(j, c, s, env, now, allowed, unexpired, ready, closing, policyOk)
    ensures OfferDenial(c, s, env, now, allowed, unexpired, ready, closing, policyOk) == Some(CODES[k])
  {
    assert k > 0 ==> Gate(0, c, s, env, now, allowed, unexpired, ready, closing, policyOk);
    assert k > 1 ==> Gate(1, c, s, env, now, allowed, unexpired, ready, closing, policyOk);
    assert k > 2 ==> Gate(2, c, s, env, now, allowed, unexpired, ready, closing, policyOk);
    assert k > 3 ==> Gate(3, c, s, env, now, allowed, unexpired, ready, closing, policyOk);
    assert k > 4 ==> Gate(4, c, s, env, now, allowed, unexpired, ready, closing, policyOk);
    assert k > 5 ==> Gate(5, c, s, env, now, allowed, unexpired, ready, closing, policyOk);
    assert k > 6 ==> Gate(6, c, s, env, now, allowed, unexpired, ready, closing, policyOk);
    assert k > 7 ==> Gate(7, c, s, env, now, allowed, unexpired, ready, closing, policyOk);
  }

  lemma AllGates(c: Config, s: Snapshot, env: Envelope, now: int, allowed: bool, unexpired: bool, ready: bool,
                 closing: bool, policyOk: bool)
    requires env.body.Offer? && OfferDenial(c, s, env, now, allowed, unexpired, ready, closing, policyOk).None?
    ensures forall k :: 0 <= k < 9 ==> Gate(k, c, s, env, now, allowed, unexpired, ready, closing, policyOk)
  {
  }

  lemma SomeGate(c: Config, s: Snapshot, env: Envelope, now: int, allowed: bool, unexpired: bool, ready: bool,
                 closing: bool, policyOk: bool)
    requires env.body.Offer?
    requires forall k :: 0 <= k < 9 ==> Gate(k, c, s, env, now, allowed, unexpired, ready, closing, policyOk)
    ensures OfferDenial(c, s, env, now, allowed, unexpired, ready, closing, policyOk).None?
  {
    assert Gate(0, c, s, env, now, allowed, unexpired, ready, closing, policyOk);
    assert Gate(1, c, s, env, now, allowed, unexpired, ready, closing, policyOk);
    assert Gate(2, c, s, env, now, allowed, unexpired, ready, closing, policyOk);
    assert Gate(3, c, s, env, now, allowed, unexpired, ready, closing, policyOk);
    assert Gate(4, c, s, env, now, allowed, unexpired, ready, closing, policyOk);
    assert Gate(5, c, s, env, now, allowed, unexpired, ready, closing, policyOk);
    assert Gate(6, c, s, env, now, allowed, unexpired, ready, closing, policyOk);
    assert Gate(7, c, s, env, now, allowed, unexpired, ready, closing, policyOk);
    assert Gate(8, c, s, env, now, allowed, unexpired, ready, closing, policyOk);
  }

  /** The envelope is for this node, from its team, authorized, signed and in time. */
  predicate Allowed(c: Config, env: Envelope, authorized: bool) {
    env.fromTeam == c.team && authorized && env.signed
  }

  predicate Unexpired(env: Envelope, now: int) {
    env.exp.Some? && env.exp.value > now
  }

  /** Every gate is open to the offer. */
  ghost predicate Admitted(c: Config, s: Snapshot, env: Envelope, now: int, authorized: bool, ready: bool,
                           closing: bool,
                           policyOk: bool)
  {
    env.body.Offer? && forall k :: 0 <= k < 9 ==>
      Gate(k, c, s, env, now, Allowed(c, env, authorized), Unexpired(env, now), ready, closing, policyOk)
  }

  /** The run an admitted offer starts with, and what its lead is told. */
  predicate TakenFor(c: Config, s: Snapshot, env: Envelope, now: int, runId: Uuid, d: Change) {
    && d.state.slot.Some? && d.state.last == s.last && d.state.generation == s.generation + 1
    && var run := d.state.slot.value;
       && env.task == Some(run.fence.task) && env.attempt == Some(run.fence.attempt) && run.fence.runId == runId
       && run.fence.generation == s.generation + 1 && run.lead == env.from && run.offerMsgId == env.msgId
       && env.body == Offer(run.offer) && run.phase.Prepared? && !run.mayHaveStarted && run.stopReason.None?
       && run.leaseMs <= c.leaseMsAid && (run.offer.leaseMs.Val? ==> run.leaseMs <= run.offer.leaseMs.v)
       && (run.leaseMs == c.leaseMsAid || run.offer.leaseMs == Val(run.leaseMs))
       && run.leaseDeadline == now + run.leaseMs && run.heartbeatAt == now + Max(1, run.leaseMs / 3)
       && run.seq_ == 0 && run.lastRenewalSeq == 0 && run.progress.None? && run.cancelMsgId.None?
       && d.effect == Some(run.fence)
       && d.outbox == [Outbound(env.from, env.task, env.attempt, Some(env.msgId),
                                Accept(Val(run.leaseMs), Val(s.generation + 1), Val(runId)))]
  }

  /**
   * Every consumed offer is answered once: accepted with the run it starts exactly when every gate is open, else
   * refused with the slot left alone; only exhausted generations fail.
   */
  lemma OfferAnswered(c: Config, s: Snapshot, env: Envelope, now: int, authorized: bool, ready: bool, closing: bool,
                      policyOk: bool, runId: Uuid)
    requires env.body.Offer? && env.to == c.node
    ensures var r := ConsumeEvent(c, s, env, now, authorized, ready, closing, policyOk, runId);
            var admitted := Admitted(c, s, env, now, authorized, ready, closing, policyOk);
            && (r.Err? <==> admitted && !Safe(s.generation + 1))
            && (r.Ok? && admitted ==> TakenFor(c, s, env, now, runId, r.value))
            && (r.Ok? && !admitted ==>
                  && r.value.state == s && r.value.effect.None? && |r.value.outbox| == 1
                  && exists code :: r.value.outbox[0] ==
                       Outbound(env.from, env.task, env.attempt, Some(env.msgId), Reject(code, false)))
  {
    DenialIff(c, s, env, now, Allowed(c, env, authorized), Unexpired(env, now), ready, closing, policyOk);
    var r := ConsumeEvent(c, s, env, now, authorized, ready, closing, policyOk, runId);
    if Admitted(c, s, env, now, authorized, ready, closing, policyOk) {
      AdmittedOffer(c, s, env, now, Allowed(c, env, authorized), Unexpired(env, now), ready, closing, policyOk);
    } else {
      var code := OfferDenial(c, s, env, now, Allowed(c, env, authorized), Unexpired(env, now), ready, closing,
          policyOk).value;
      assert r.value.outbox[0] == Outbound(env.from, env.task, env.attempt, Some(env.msgId), Reject(code, false));
    }
  }

  // ---- Cancels and renewals ----

  predicate Delivered(c: Config, env: Envelope, now: int, authorized: bool) {
    env.to == c.node && Allowed(c, env, authorized) && Unexpired(env, now)
  }

  /** A cancel that is allowed, in time, addressed to the run, and names no other generation or run id. */
  predicate Cancels(c: Config, s: Snapshot, env: Envelope, now: int, authorized: bool) {
    && Delivered(c, env, now, authorized) && env.body.Cancel? && s.slot.Some?
    && var run := s.slot.value;
       && env.from == run.lead && env.task == Some(run.fence.task) && env.attempt == Some(run.fence.attempt)
       && (env.body.generation.Undefined? || env.body.generation == Val(run.fence.generation))
       && (env.body.runId.Undefined? || env.body.runId == Val(run.fence.runId))
  }

  /** The run waits to be stopped for the cancel `id`, and nothing else of it changed. */
  predicate Cancelled(was: DurableRun, run: DurableRun, id: Uuid) {
    && run.cancelMsgId == Some(id) && run.stopReason == Some(StopCancel)
    && run.phase == (if was.phase.RecoveryRequired? then RecoveryRequired else Stopping)
    && run == was.(cancelMsgId := run.cancelMsgId, stopReason := run.stopReason, phase := run.phase)
  }

  /** A message is taken as the cancel of the run exactly when it is one; then only the stop is recorded. */
  lemma CancelIff(c: Config, s: Snapshot, env: Envelope, now: int, authorized: bool, ready: bool, closing: bool,
                  policyOk: bool, runId: Uuid)
    requires !env.body.Offer? && (s.slot.Some? ==> s.slot.value.cancelMsgId != Some(env.msgId))
    ensures var r := ConsumeEvent(c, s, env, now, authorized, ready, closing, policyOk, runId);
            && r.Ok?
            && (Cancels(c, s, env, now, authorized) <==>
                  r.value.state.slot.Some? && r.value.state.slot.value.cancelMsgId == Some(env.msgId))
            && (Cancels(c, s, env, now, authorized) ==>
                  && Cancelled(s.slot.value, r.value.state.slot.value, env.msgId)
                  && r.value.state == s.(slot := r.value.state.slot) && r.value.outbox == [])
  {
  }

  /** With the slot empty, a cancel of the last run is acknowledged with what became of it; any other is ignored. */
  lemma LateCancelIff(c: Config, s: Snapshot, env: Envelope, now: int, authorized: bool, ready: bool, closing: bool,
                      policyOk: bool, runId: Uuid)
    requires !env.body.Offer? && s.slot.None?
    ensures var r := ConsumeEvent(c, s, env, now, authorized, ready, closing, policyOk, runId);
            var mine := Delivered(c, env, now, authorized) && env.body.Cancel? && s.last.Some?
                        && env.from == s.last.value.lead && env.task == Some(s.last.value.fence.task)
                        && env.attempt == Some(s.last.value.fence.attempt);
            && r.Ok? && r.value.state == s && r.value.effect.None?
            && (mine ==> r.value.outbox == [Outbound(s.last.value.lead, env.task, env.attempt, Some(env.msgId),
                                                     CancelAck(s.last.value.outcome.ResultOutcome?))])
            && (!mine ==> r.value.outbox == [])
  {
  }

  /** A renewal the run can take: of its fence, for its last heartbeat, newer than the last, and within its lease. */
  predicate Extends(c: Config, s: Snapshot, env: Envelope, now: int, authorized: bool) {
    && Delivered(c, env, now, authorized) && env.body.Renew? && s.slot.Some?
    && var run, b := s.slot.value, env.body;
       && env.from == run.lead && env.task == Some(run.fence.task) && env.attempt == Some(run.fence.attempt)
       && (run.phase.Running? || run.phase.Starting?) && run.progress.Some?
       && b.generation == Val(run.fence.generation) && b.runId == Val(run.fence.runId)
       && b.progressMsgId == Val(run.progress.value.msgId) && b.progressSeq == Val(run.progress.value.seq_)
       && PositiveField(b.renewalSeq) && b.renewalSeq.v > run.lastRenewalSeq
       && PositiveField(b.deadlineMs) && now < run.leaseDeadline < b.deadlineMs.v <= now + run.leaseMs
  }

  /** The deadline moves exactly for such a renewal, and then to the one it names. */
  lemma RenewIff(c: Config, s: Snapshot, env: Envelope, now: int, authorized: bool, ready: bool, closing: bool,
                 policyOk: bool, runId: Uuid)
    requires Valid(s) && !env.body.Offer? && s.slot.Some?
    ensures var r := ConsumeEvent(c, s, env, now, authorized, ready, closing, policyOk, runId);
            && r.Ok? && r.value.state.slot.Some?
            && (Extends(c, s, env, now, authorized) <==>
                  r.value.state.slot.value.leaseDeadline != s.slot.value.leaseDeadline)
            && (Extends(c, s, env, now, authorized) ==>
                  r.value.state == s.(slot := Some(s.slot.value.(lastRenewalSeq := env.body.renewalSeq.v,
                                                                 leaseDeadline := env.body.deadlineMs.v,
                                                                     progress := None))))
  {
  }

  // ---- Time ----

  /** A run that is neither stopping nor parked. */
  predicate Going(s: Snapshot) {
    s.slot.Some? && !s.slot.value.phase.Stopping? && !s.slot.value.phase.RecoveryRequired?
  }

  /** A tick stops a run exactly when its lease has run out, and otherwise sends a heartbeat exactly when one is due. */
  lemma TickIff(s: Snapshot, now: int, progressId: Uuid)
    requires TickEvent(s, now, progressId).Ok?
    ensures var d := TickEvent(s, now, progressId).value;
            var expires := Going(s) && now >= s.slot.value.leaseDeadline;
            var beats := Going(s) && !expires && !s.slot.value.phase.Prepared? && now >= s.slot.value.heartbeatAt;
            && (expires ==>
                  && d.outbox == []
                  && d.state == s.(slot := Some(s.slot.value.(phase := Stopping, stopReason := Some(LeaseExpired)))))
            && (beats ==>
                  && d.state.slot.Some?
                  && var run, next := s.slot.value, d.state.slot.value;
                     && d.state == s.(slot := Some(next))
                     && next == run.(seq_ := run.seq_ + 1,
                         progress := Some(PendingProgress(progressId, run.seq_ + 1, now)),
                                     heartbeatAt := next.heartbeatAt)
                     && next.heartbeatAt == now + Max(1, run.leaseMs / 3)
                     && d.outbox == [Outbound(run.lead, Some(run.fence.task), Some(run.fence.attempt),
                         Some(run.offerMsgId),
                                              Progress(Val(next.seq_), Val(run.fence.generation),
                                                  Val(run.fence.runId)))])
            && (!expires && !beats ==> d.state == s && d.outbox == [])
  {
  }

  /** Closing stops the run of the slot, for an earlier reason if it has one; a parked run and all else stay. */
  lemma ShutdownIs(s: Snapshot)
    ensures var t := ShutdownEvent(s);
            && t == s.(slot := t.slot) && (t.slot.Some? <==> s.slot.Some?)
            && (s.slot.Some? ==>
                  var run, next := s.slot.value, t.slot.value;
                  && next == run.(phase := next.phase, stopReason := next.stopReason)
                  && next.phase == (if run.phase.RecoveryRequired? then RecoveryRequired else Stopping)
                  && (run.phase.RecoveryRequired? || run.stopReason.Some? ==> next.stopReason == run.stopReason)
                  && (!run.phase.RecoveryRequired? && run.stopReason.None? ==> next.stopReason == Some(Shutdown)))
  {
  }

  /** Parking keeps the first stop reason, and touches only the run it names. */
  lemma ParkIs(s: Snapshot, f: Fence, reason: StopReason)
    ensures var t := UnknownEvent(s, f, reason).state;
            && UnknownEvent(s, f, reason).outbox == [] && (!SlotIs(s, f) ==> t == s)
            && (SlotIs(s, f) ==>
                  && SlotIs(t, f) && t == s.(slot := t.slot) && t.slot.value.phase.RecoveryRequired?
                  && t.slot.value.stopReason ==
                      (if s.slot.value.stopReason.Some? then s.slot.value.stopReason else Some(reason))
                  && t.slot.value == s.slot.value.(phase := RecoveryRequired, stopReason := t.slot.value.stopReason))
  {
  }

  /** The fence of a step that gives up on the driver, and what it calls that. */
  function GivesUpOn(w: World, e: Event): Option<(Fence, StopReason)> {
    match e
    case StartRejected => if w.settle.AwaitStart? then Some((w.settle.fence, ExecutionInterrupted)) else None
    case StartTimeout => if w.settle.AwaitStart? then Some((w.settle.fence, DriverStartTimeout)) else None
    case StopTimeout => if w.settle.AwaitStop? then Some((w.settle.fence, ExecutionInterrupted)) else None
    case LateStopTimeout(i) =>
      if i < |w.late| && w.late[i].LateStop? && !w.faulted then Some((w.late[i].fence, DriverStartTimeout)) else None
    case RecoverReturn(stopped) =>
      if w.recover.AwaitRecover? && !stopped && !w.faulted then Some((w.recover.fence, ExecutionInterrupted)) else None
    case _ => None
  }

  /** A driver that fails or does not answer proves nothing: its run is parked, for the first reason there is. */
  lemma GivingUpParks(c: Setup, w: World, e: Event)
    requires Enabled(c, w, e) && GivesUpOn(w, e).Some?
    ensures var (f, reason) := GivesUpOn(w, e).value;
            Apply(c, w, e).snap == UnknownEvent(w.snap, f, reason).state && Sends(c, w, e) == []
  {
  }

  // ---- The report ----

  /** The outcome that counts: a recorded stop reason wins over what the driver said. */
  predicate Counts(run: DurableRun, o: Outcome, final: Outcome) {
    match run.stopReason
    case None => final == o
    case Some(reason) => final == OwnFailure(Stopped(reason))
  }

  /** What the lead is told of a run that ended with outcome o. */
  predicate Report(run: DurableRun, o: Outcome, m: Outbound) {
    && AboutRun(run, m)
    && (m.body.CancelAck? <==> run.cancelMsgId.Some?)
    && (m.body.CancelAck? ==> !m.body.completedBeforeCancel && m.replyTo == run.cancelMsgId)
    && (m.body.Delivery? <==> run.cancelMsgId.None? && run.stopReason.None? && o.ResultOutcome?)
    && (m.body.Delivery? ==> m.body.outcome == o)
    && (m.body.Fail? <==> run.cancelMsgId.None? && (run.stopReason.Some? || !o.ResultOutcome?))
    && (m.body.Fail? ==> Counts(run, o, m.body.outcome)
                         && (m.body.retryable <==> run.stopReason.None? && o.FailOutcome? && o.retryable))
    && (!m.body.CancelAck? ==> m.replyTo == Some(run.offerMsgId))
  }

  /** The steps that send anything; only consuming records an intent. */
  lemma OthersSendNothing(c: Setup, w: World, e: Event)
    requires Enabled(c, w, e)
    requires Sends(c, w, e) != [] || Intents(c, w, e) != []
    ensures e.Consume? || e.Tick? || e.SettlePass? || e.PrepareDone? || e.StopResolved? || e.PublishDone?
            || e.LateStopResolved? || e.LatePublishDone? || e.RecoverReturn?
  {
  }

  /** Finishing the run of the slot sends its report, records the same outcome, and frees the slot. */
  lemma FinishReports(s: Snapshot, f: Fence, o: Outcome)
    requires SlotIs(s, f)
    ensures var d, run := FinishEvent(s, f, o), s.slot.value;
            && |d.outbox| == 1 && Report(run, o, d.outbox[0])
            && d.state.slot.None? && d.state.generation == s.generation && d.state.last.Some?
            && d.state.last.value.fence == f && d.state.last.value.lead == run.lead
            && Counts(run, o, d.state.last.value.outcome)
  {
  }

  /** A step that takes a run out of the slot finishes it: its report goes out last, and its outcome is recorded. */
  ghost predicate EndsWith(c: Setup, w: World, e: Event, f: Fence, o: Outcome)
    requires Enabled(c, w, e)
  {
    && Ends(c, w, e) == Some((f, o)) && SlotIs(Before(w, e), f)
    && Apply(c, w, e).snap == FinishEvent(Before(w, e), f, o).state
    && var sent := Sends(c, w, e); |sent| > 0 && Report(Before(w, e).slot.value, o, sent[|sent| - 1])
  }

  lemma EndsReport(c: Setup, w: World, e: Event, f: Fence, o: Outcome)
    requires Enabled(c, w, e) && Ends(c, w, e) == Some((f, o)) && SlotIs(Before(w, e), f)
    requires Apply(c, w, e).snap == FinishEvent(Before(w, e), f, o).state
    ensures EndsWith(c, w, e, f, o)
  {
    FinishReports(Before(w, e), f, o);
    var sent := Sends(c, w, e);
    assert sent[|sent| - 1] == FinishEvent(Before(w, e), f, o).outbox[0];
  }

  lemma TickHolds(s: Snapshot, now: int, progressId: Uuid, f: Fence)
    requires SlotIs(s, f) && TickEvent(s, now, progressId).Ok?
    ensures SlotIs(TickEvent(s, now, progressId).value.state, f)
  {
  }

  lemma SlotEmptied(c: Setup, w: World, pass: nat, f: Fence)
    requires SlotIs(w.snap, f) && !SlotIs(SettleSlot(c, w, pass).snap, f)
    ensures SettleEnds(c, w).Some? && SettleEnds(c, w).value.0 == f
    ensures SettleSlot(c, w, pass).snap == FinishEvent(w.snap, f, SettleEnds(c, w).value.1).state
  {
    var run := w.snap.slot.value;
    if w.live.Some? && w.live.value.outcome.Some? {
      assert MustPublish(c, w, f, w.live.value.outcome.value) ==>
          PublishThenFinish(c, w, f, w.live.value.outcome.value, pass).snap == w.snap;
    } else if run.phase.Prepared? {
      PreparedEmptied(c, w, f, pass);
    } else {
      ParkStays(w.snap, f, ExecutionInterrupted);
    }
  }

  lemma PreparedEmptied(c: Setup, w: World, f: Fence, pass: nat)
    requires SlotIs(w.snap, f) && !SlotIs(SettlePrepared(c, w, f, pass).snap, f)
    ensures !c.config.driver
    ensures SettlePrepared(c, w, f, pass).snap == FinishEvent(w.snap, f, OwnFailure(DriverUnavailable)).state
  {
  }

  lemma ParkStays(s: Snapshot, f: Fence, reason: StopReason)
    requires SlotIs(s, f)
    ensures forall g :: SlotIs(UnknownEvent(s, g, reason).state, f)
  {
  }

  lemma PassEmptied(c: Setup, w: World, now: int, progressId: Uuid, f: Fence)
    requires w.settle.Loop? && Nonnegative(now) && SlotIs(w.snap, f) &&
             !SlotIs(SettleOnce(c, w, now, progressId).snap, f)
    ensures var e := SettlePass(now, progressId);
            && Ends(c, w, e).Some? && Ends(c, w, e).value.0 == f && SlotIs(Before(w, e), f)
            && SettleOnce(c, w, now, progressId).snap == FinishEvent(Before(w, e), f, Ends(c, w, e).value.1).state
  {
    assert Ticks(w, now, progressId);
    TickHolds(w.snap, now, progressId, f);
    SlotEmptied(c, w.(snap := Before(w, SettlePass(now, progressId))), w.settle.pass, f);
  }

  lemma ConsumeHolds(c: Setup, w: World, e: Event, f: Fence)
    requires Enabled(c, w, e) && SlotIs(w.snap, f) && (e.Consume? || e.Tick? || e.Close?)
    ensures SlotIs(Apply(c, w, e).snap, f)
  {
  }

  lemma StartHolds(c: Setup, w: World, e: Event, f: Fence)
    requires Enabled(c, w, e) && SlotIs(w.snap, f)
    requires e.StartResolved? || e.StartRejected? || e.StartTimeout? || e.StopTimeout? || e.LateStopTimeout?
    ensures SlotIs(Apply(c, w, e).snap, f)
  {
    ParkStays(w.snap, f, ExecutionInterrupted);
    ParkStays(w.snap, f, DriverStartTimeout);
  }

  lemma FinishElse(s: Snapshot, f: Fence, g: Fence, o: Outcome)
    requires SlotIs(s, f)
    ensures SlotIs(FinishEvent(s, g, o).state, f) || g == f
  {
  }

  /** The steps that finish at once. */
  lemma PrepareEmptied(c: Setup, w: World, e: Event, f: Fence)
    requires Enabled(c, w, e) && SlotIs(w.snap, f) && !SlotIs(Apply(c, w, e).snap, f) &&
             (e.PrepareDone? || e.PublishDone?)
    ensures Ends(c, w, e).Some? && Ends(c, w, e).value.0 == f
    ensures Apply(c, w, e).snap == FinishEvent(w.snap, f, Ends(c, w, e).value.1).state
  {
    forall g, o {
      FinishElse(w.snap, f, g, o);
    }
  }

  lemma StopEmptied(c: Setup, w: World, o: Outcome, f: Fence)
    requires Enabled(c, w, StopResolved(o)) && SlotIs(w.snap, f) && !SlotIs(Apply(c, w, StopResolved(o)).snap, f)
    ensures Ends(c, w, StopResolved(o)) == Some((f, o))
    ensures Apply(c, w, StopResolved(o)).snap == FinishEvent(w.snap, f, o).state
  {
    FinishElse(w.snap, f, w.settle.fence, o);
  }

  lemma RecoverEmptied(c: Setup, w: World, stopped: bool, f: Fence)
    requires Enabled(c, w, RecoverReturn(stopped)) && SlotIs(w.snap, f)
    requires !SlotIs(Apply(c, w, RecoverReturn(stopped)).snap, f)
    ensures stopped && !w.faulted && w.recover.fence == f
    ensures Apply(c, w, RecoverReturn(stopped)).snap
            == FinishEvent(w.snap, f, OwnFailure(Stopped(ExecutionInterrupted))).state
  {
    FinishElse(w.snap, f, w.recover.fence, OwnFailure(Stopped(ExecutionInterrupted)));
    ParkStays(w.snap, f, ExecutionInterrupted);
  }

  lemma LateEmptied(c: Setup, w: World, e: Event, f: Fence)
    requires Enabled(c, w, e) && SlotIs(w.snap, f) && !SlotIs(Apply(c, w, e).snap, f)
    requires e.LateStopResolved? || e.LatePublishDone?
    ensures Ends(c, w, e).Some? && Ends(c, w, e).value.0 == f
    ensures Apply(c, w, e).snap == FinishEvent(w.snap, f, Ends(c, w, e).value.1).state
  {
    forall g, o {
      FinishElse(w.snap, f, g, o);
    }
  }

  /** The only way out of the slot is through finish(), with a report. */
  lemma EmptiedIsReported(c: Setup, w: World, e: Event, f: Fence)
    requires Enabled(c, w, e) && SlotIs(w.snap, f) && !SlotIs(Apply(c, w, e).snap, f)
    ensures Ends(c, w, e).Some? && EndsWith(c, w, e, f, Ends(c, w, e).value.1)
  {
    if e.Consume? || e.Tick? || e.Close? {
      ConsumeHolds(c, w, e, f);
    } else if e.SettlePass? {
      PassEmptied(c, w, e.now, e.progressId, f);
    } else if e.PrepareDone? || e.PublishDone? {
      PrepareEmptied(c, w, e, f);
    } else if e.StopResolved? {
      StopEmptied(c, w, e.outcome, f);
    } else if e.RecoverReturn? {
      RecoverEmptied(c, w, e.stopped, f);
    } else if e.LateStopResolved? || e.LatePublishDone? {
      LateEmptied(c, w, e, f);
    } else if e.StartResolved? || e.StartRejected? || e.StartTimeout? || e.StopTimeout? || e.LateStopTimeout? {
      StartHolds(c, w, e, f);
    }
    EndsReport(c, w, e, f, Ends(c, w, e).value.1);
  }

  lemma PassEnds(c: Setup, w: World, now: int, progressId: Uuid, f: Fence, o: Outcome)
    requires Enabled(c, w, SettlePass(now, progressId)) && Ends(c, w, SettlePass(now, progressId)) == Some((f, o))
    ensures SettleOnce(c, w, now, progressId).snap == FinishEvent(Before(w, SettlePass(now, progressId)), f, o).state
  {
    var ticked := w.(snap := Before(w, SettlePass(now, progressId)));
    SlotEnds(c, ticked, w.settle.pass);
  }

  lemma SlotEnds(c: Setup, w: World, pass: nat)
    requires SettleEnds(c, w).Some?
    ensures var ends := SettleEnds(c, w).value; SettleSlot(c, w, pass).snap == FinishEvent(w.snap, ends.0, ends.1).state
  {
  }

  lemma AtOnceEnds(c: Setup, w: World, e: Event, f: Fence, o: Outcome)
    requires Enabled(c, w, e) && Ends(c, w, e) == Some((f, o))
    requires e.PrepareDone? || e.StopResolved? || e.PublishDone? || e.RecoverReturn?
    ensures Apply(c, w, e).snap == FinishEvent(w.snap, f, o).state
  {
  }

  lemma LateEnds(c: Setup, w: World, e: Event, f: Fence, o: Outcome)
    requires Enabled(c, w, e) && Ends(c, w, e) == Some((f, o)) && (e.LateStopResolved? || e.LatePublishDone?)
    ensures Apply(c, w, e).snap == FinishEvent(w.snap, f, o).state
  {
  }

  /** And whatever is handed to finish() while its run holds the slot is reported, recorded, and out of the slot. */
  lemma EndTakesEffect(c: Setup, w: World, e: Event, f: Fence, o: Outcome)
    requires Enabled(c, w, e) && Ends(c, w, e) == Some((f, o)) && SlotIs(Before(w, e), f)
    ensures EndsWith(c, w, e, f, o) && Apply(c, w, e).snap.slot.None?
  {
    if e.SettlePass? {
      PassEnds(c, w, e.now, e.progressId, f, o);
    } else if e.LateStopResolved? || e.LatePublishDone? {
      LateEnds(c, w, e, f, o);
    } else {
      AtOnceEnds(c, w, e, f, o);
    }
    EndsReport(c, w, e, f, o);
  }

  // ---- Where an outcome comes from ----

  /** The handle, its quiescence or the publisher said so of this fence. */
  predicate Tells(w: World, e: Event, f: Fence, o: Outcome) {
    match e
    case HandleClosed(told) => told == o && w.live.Some? && w.live.value.handle == f
    case StopResolved(told) => told == o && w.settle.AwaitStop? && w.settle.fence == f
    case PublishDone(told) => told == o && w.settle.AwaitPublish? && w.settle.fence == f
    case LateStopResolved(i, told) => told == o && i < |w.late| && w.late[i].fence == f
    case LatePublishDone(i, told) => told == o && i < |w.late| && w.late[i].fence == f
    case _ => false
  }

  ghost predicate Told(ws: seq<World>, es: seq<Event>, k: nat, f: Fence, o: Outcome) {
    exists j :: 0 <= j < k && j < |es| && j < |ws| && Tells(ws[j], es[j], f, o)
  }

  /** Every outcome the process still keeps was told. */
  ghost predicate Known(ws: seq<World>, es: seq<Event>, k: nat, w: World) {
    && (w.live.Some? && w.live.value.outcome.Some? ==> Told(ws, es, k, w.live.value.handle, w.live.value.outcome.value))
    && (w.settle.AwaitPublish? ==> Told(ws, es, k, w.settle.fence, w.settle.outcome))
    && (forall i :: 0 <= i < |w.late| && w.late[i].LatePublish? ==> Told(ws, es, k, w.late[i].fence, w.late[i].outcome))
  }

  lemma ToldLater(ws: seq<World>, es: seq<Event>, k: nat)
    ensures forall f, o :: Told(ws, es, k, f, o) ==> Told(ws, es, k + 1, f, o)
    ensures forall f, o :: k < |es| && k < |ws| && Tells(ws[k], es[k], f, o) ==> Told(ws, es, k + 1, f, o)
  {
  }

  /** The process keeps no outcome but those it had and those it is told now. */
  ghost predicate KeepsOnly(w: World, e: Event, t: World) {
    && (t.live.Some? && t.live.value.outcome.Some? ==>
          || (w.live.Some? && w.live.value.outcome == t.live.value.outcome &&
              w.live.value.handle == t.live.value.handle)
          || Tells(w, e, t.live.value.handle, t.live.value.outcome.value))
    && (t.settle.AwaitPublish? ==>
          || t.settle == w.settle || Tells(w, e, t.settle.fence, t.settle.outcome)
          || (w.live.Some? && w.live.value.outcome == Some(t.settle.outcome) && w.live.value.handle == t.settle.fence))
    && (forall i :: 0 <= i < |t.late| && t.late[i].LatePublish? ==>
          t.late[i] in w.late || Tells(w, e, t.late[i].fence, t.late[i].outcome))
  }

  lemma KnownStep(ws: seq<World>, es: seq<Event>, k: nat, w: World, t: World)
    requires k < |es| && k < |ws| && ws[k] == w && Known(ws, es, k, w) && KeepsOnly(w, es[k], t)
    ensures Known(ws, es, k + 1, t)
  {
    ToldLater(ws, es, k);
  }

  /** Nothing new is kept: a handle is as it was, gone, or newly attached. */
  predicate Fewer(w: World, t: World) {
    && (t.live == w.live || t.live.None? || t.live.value.outcome.None?)
    && (t.settle == w.settle || !t.settle.AwaitPublish?)
    && (forall i :: 0 <= i < |t.late| && t.late[i].LatePublish? ==> t.late[i] in w.late)
  }

  predicate HandleFits(w: World) {
    w.live.Some? ==> w.live.value.handle == w.live.value.fence || w.faulted
  }

  /** The watchers are left alone, and no outcome is taken up. */
  predicate Calm(w: World, t: World) {
    t.late == w.late && (t.live == w.live || t.live.None?) && !t.settle.AwaitPublish?
  }

  lemma PreparedCalm(c: Setup, w: World, f: Fence, pass: nat)
    ensures Calm(w, SettlePrepared(c, w, f, pass))
  {
  }

  lemma StoppingCalm(w: World, run: DurableRun, pass: nat)
    ensures Calm(w, SettleStopping(w, run, pass))
  {
  }

  /** The branches that publish nothing. */
  lemma SlotCalm(c: Setup, w: World, pass: nat)
    requires w.snap.slot.Some? && (w.live.None? || w.live.value.outcome.None?)
    ensures Calm(w, SettleSlot(c, w, pass))
  {
    var run := w.snap.slot.value;
    if w.live.None? || w.live.value.fence == run.fence {
      if run.phase.Prepared? {
        PreparedCalm(c, w, run.fence, pass);
      } else if run.phase.Stopping? {
        StoppingCalm(w, run, pass);
      }
    }
  }

  lemma SlotKeepsOnly(c: Setup, w: World, pass: nat, e: Event)
    requires HandleFits(w) && !w.faulted
    ensures KeepsOnly(w, e, SettleSlot(c, w, pass))
  {
    if w.snap.slot.None? || w.live.None? || w.live.value.outcome.None? {
      if w.snap.slot.Some? {
        SlotCalm(c, w, pass);
      }
    } else if w.live.value.fence == w.snap.slot.value.fence {
      PublishKeepsOnly(c, w, w.live.value.outcome.value, pass, e);
    }
  }

  lemma PublishKeepsOnly(c: Setup, w: World, o: Outcome, pass: nat, e: Event)
    requires w.live.Some? && w.live.value.outcome == Some(o) && w.live.value.handle == w.live.value.fence
    ensures KeepsOnly(w, e, PublishThenFinish(c, w, w.live.value.fence, o, pass))
  {
  }

  lemma PassKeepsOnly(c: Setup, w: World, now: int, progressId: Uuid)
    requires HandleFits(w) && Enabled(c, w, SettlePass(now, progressId))
    ensures KeepsOnly(w, SettlePass(now, progressId), SettleOnce(c, w, now, progressId))
  {
    var e := SettlePass(now, progressId);
    if Ticks(w, now, progressId) {
      var ticked := w.(snap := Before(w, e));
      SlotKeepsOnly(c, ticked, w.settle.pass, e);
    } else {
      assert Fewer(w, SettleOnce(c, w, now, progressId));
    }
  }

  lemma PlainFewer(c: Setup, w: World, e: Event)
    requires Enabled(c, w, e) && (e.Consume? || e.Tick? || e.Close? || e.SettleBegin? || e.SettleRecovered? || e.Fault?)
    ensures Fewer(w, Apply(c, w, e))
  {
  }

  lemma StartFewer(c: Setup, w: World, e: Event)
    requires Enabled(c, w, e)
    requires e.PrepareDone? || e.Invoke? || e.StartResolved? || e.StartRejected? || e.StartTimeout? || e.StopTimeout?
    ensures Fewer(w, Apply(c, w, e))
  {
  }

  lemma RestFewer(c: Setup, w: World, e: Event)
    requires Enabled(c, w, e)
    requires e.RecoverBegin? || e.RecoverReturn? || e.DriverBegins? || e.DriverEnds? || e.Crash?
    ensures Fewer(w, Apply(c, w, e))
  {
  }

  lemma DropFewer(w: World, i: nat)
    requires i < |w.late|
    ensures Fewer(w, DropLate(w, i)) && forall l: Late :: !l.LatePublish? ==> Fewer(w, SetLate(w, i, l))
  {
  }

  lemma LateFewer(c: Setup, w: World, e: Event)
    requires Enabled(c, w, e)
    requires e.LateInvoke? || e.LateRejected? || e.LateStopTimeout? || e.LateReleased? || e.LatePublishDone?
    ensures Fewer(w, Apply(c, w, e))
  {
    DropFewer(w, e.i);
  }

  lemma LateResolvedFewer(c: Setup, w: World, i: nat, handle: Fence)
    requires Enabled(c, w, LateResolved(i, handle))
    ensures Fewer(w, Apply(c, w, LateResolved(i, handle)))
  {
    DropFewer(w, i);
  }

  lemma StopKeepsOnly(c: Setup, w: World, o: Outcome)
    requires SettleInv(w) && Enabled(c, w, StopResolved(o))
    ensures KeepsOnly(w, StopResolved(o), Apply(c, w, StopResolved(o)))
  {
  }

  lemma LateStopKeepsOnly(c: Setup, w: World, i: nat, o: Outcome)
    requires Enabled(c, w, LateStopResolved(i, o))
    ensures KeepsOnly(w, LateStopResolved(i, o), Apply(c, w, LateStopResolved(i, o)))
  {
    var e, t := LateStopResolved(i, o), Apply(c, w, LateStopResolved(i, o));
    forall j | 0 <= j < |t.late| && t.late[j].LatePublish?
      ensures t.late[j] in w.late || Tells(w, e, t.late[j].fence, t.late[j].outcome)
    {
    }
  }

  lemma ToldKeepsOnly(c: Setup, w: World, e: Event)
    requires Enabled(c, w, e) && (e.HandleClosed? || e.HandleClosedFault? || e.PublishDone?)
    ensures KeepsOnly(w, e, Apply(c, w, e))
  {
  }

  lemma StepKeepsOnly(c: Setup, w: World, e: Event)
    requires Inv(w) && Enabled(c, w, e)
    ensures KeepsOnly(w, e, Apply(c, w, e))
  {
    if e.SettlePass? {
      PassKeepsOnly(c, w, e.now, e.progressId);
    } else if e.StopResolved? {
      StopKeepsOnly(c, w, e.outcome);
    } else if e.LateStopResolved? {
      LateStopKeepsOnly(c, w, e.i, e.outcome);
    } else if e.HandleClosed? || e.HandleClosedFault? || e.PublishDone? {
      ToldKeepsOnly(c, w, e);
    } else {
      OthersFewer(c, w, e);
    }
  }

  lemma OthersFewer(c: Setup, w: World, e: Event)
    requires Enabled(c, w, e) && !e.SettlePass? && !e.StopResolved? && !e.LateStopResolved?
    requires !e.HandleClosed? && !e.HandleClosedFault? && !e.PublishDone?
    ensures Fewer(w, Apply(c, w, e))
  {
    if e.Consume? || e.Tick? || e.Close? || e.SettleBegin? || e.SettleRecovered? || e.Fault? {
      PlainFewer(c, w, e);
    } else if e.PrepareDone? || e.Invoke? || e.StartResolved? || e.StartRejected? || e.StartTimeout? || e.StopTimeout? {
      StartFewer(c, w, e);
    } else if e.LateResolved? {
      LateResolvedFewer(c, w, e.i, e.handle);
    } else if IsLate(e) {
      LateFewer(c, w, e);
    } else {
      RestFewer(c, w, e);
    }
  }

  lemma {:induction false} RunKnown(c: Setup, ws: seq<World>, es: seq<Event>, k: nat)
    requires ValidConfig(c.config) && Execution(c, ws, es) && k < |ws|
    ensures Known(ws, es, k, ws[k])
  {
    if k > 0 {
      RunKnown(c, ws, es, k - 1);
      ExecutionKeepsInv(c, ws, es, k - 1);
      StepKeepsOnly(c, ws[k - 1], es[k - 1]);
      KnownStep(ws, es, k - 1, ws[k - 1], ws[k]);
    }
  }

  /** The failures that the executor reports on its own account. */
  predicate OwnAccount(c: Setup, e: Event, run: DurableRun, o: Outcome) {
    || (o == OwnFailure(DriverUnavailable) && !c.config.driver && !run.mayHaveStarted)
    || (o == OwnFailure(WorkspacePrepareFailed) && e == PrepareDone(false))
    || (o == OwnFailure(Stopped(ExecutionInterrupted)) && e == RecoverReturn(true))
  }

  lemma PassToldOrOwn(c: Setup, ws: seq<World>, es: seq<Event>, k: nat, f: Fence, o: Outcome)
    requires k < |es| && k < |ws| && es[k].SettlePass? && Inv(ws[k]) && Enabled(c, ws[k], es[k]) &&
             Known(ws, es, k, ws[k])
    requires Ends(c, ws[k], es[k]) == Some((f, o))
    ensures SlotIs(Before(ws[k], es[k]), f)
    ensures var run := Before(ws[k], es[k]).slot.value;
            run.stopReason.Some? || Told(ws, es, k + 1, f, o) || OwnAccount(c, es[k], run, o)
  {
    TickKeepsInv(ws[k], es[k].now, es[k].progressId);
    ToldLater(ws, es, k);
  }

  lemma ToldOrOwn(c: Setup, ws: seq<World>, es: seq<Event>, k: nat, f: Fence, o: Outcome)
    requires k < |es| && k < |ws| && Inv(ws[k]) && Enabled(c, ws[k], es[k]) && Known(ws, es, k, ws[k])
    requires Ends(c, ws[k], es[k]) == Some((f, o)) && SlotIs(Before(ws[k], es[k]), f)
    ensures var run := Before(ws[k], es[k]).slot.value;
            run.stopReason.Some? || Told(ws, es, k + 1, f, o) || OwnAccount(c, es[k], run, o)
  {
    if es[k].SettlePass? {
      PassToldOrOwn(c, ws, es, k, f, o);
    } else {
      ToldLater(ws, es, k);
    }
  }

  /** With a publisher, no result is reported that the publisher did not return: nothing skips it. */
  lemma ResultsArePublished(c: Setup, w: World, e: Event, f: Fence, o: Outcome)
    requires Enabled(c, w, e) && Ends(c, w, e) == Some((f, o)) && SlotIs(Before(w, e), f)
    requires c.config.publisher && o.ResultOutcome? && Before(w, e).slot.value.stopReason.None?
    ensures (e.PublishDone? || e.LatePublishDone?) && e.outcome == o
  {
  }

  /**
   * In every run: a step that takes a run out of the slot sends its report, records its outcome, and that outcome,
   * unless a stop reason overrides it, is what the handle, its quiescence or the publisher said of this very fence,
   * or a failure the executor owns up to.
   */
  lemma EndIsReportedAndTold(c: Setup, ws: seq<World>, es: seq<Event>, k: nat, f: Fence) returns (o: Outcome)
    requires ValidConfig(c.config) && Execution(c, ws, es) && k < |es|
    requires SlotIs(ws[k].snap, f) && !SlotIs(ws[k + 1].snap, f)
    ensures EndsWith(c, ws[k], es[k], f, o)
    ensures var run := Before(ws[k], es[k]).slot.value;
            run.stopReason.Some? || Told(ws, es, k + 1, f, o) || OwnAccount(c, es[k], run, o)
  {
    ExecutionKeepsInv(c, ws, es, k);
    RunKnown(c, ws, es, k);
    EmptiedIsReported(c, ws[k], es[k], f);
    o := Ends(c, ws[k], es[k]).value.1;
    ToldOrOwn(c, ws, es, k, f, o);
  }

  // ---- A cancel is answered ----

  /** The run of the slot waits to be stopped for the cancel `id`. */
  predicate Doomed(s: Snapshot, f: Fence, lead: Uuid, id: Uuid) {
    && SlotIs(s, f) && s.slot.value.lead == lead && s.slot.value.cancelMsgId == Some(id) &&
        s.slot.value.stopReason == Some(StopCancel)
    && (s.slot.value.phase.Stopping? || s.slot.value.phase.RecoveryRequired?)
  }

  predicate IsCancel(c: Setup, w: World, e: Event) {
    e.Consume? && Cancels(c.config, w.snap, e.env, e.now, e.authorized)
  }

  lemma DoomedConsume(c: Setup, w: World, e: Event, f: Fence, lead: Uuid, id: Uuid)
    requires Enabled(c, w, e) && Doomed(w.snap, f, lead, id) && e.Consume? && !IsCancel(c, w, e)
    ensures Doomed(Apply(c, w, e).snap, f, lead, id)
  {
  }

  lemma DoomedEvents(s: Snapshot, f: Fence, lead: Uuid, id: Uuid)
    requires Doomed(s, f, lead, id)
    ensures forall now, p :: TickEvent(s, now, p) == Ok(Unchanged(s))
    ensures forall g, reason :: Doomed(UnknownEvent(s, g, reason).state, f, lead, id)
    ensures forall g, o :: g != f ==> FinishEvent(s, g, o).state == s
    ensures forall g :: StartingEvent(s, g).None? && RunningEvent(s, g) == s
    ensures Doomed(ShutdownEvent(s), f, lead, id)
  {
  }

  lemma DoomedPass(c: Setup, w: World, now: int, progressId: Uuid, f: Fence, lead: Uuid, id: Uuid)
    requires w.settle.Loop? && Nonnegative(now) && Doomed(w.snap, f, lead, id)
    requires SlotIs(SettleOnce(c, w, now, progressId).snap, f)
    ensures Doomed(SettleOnce(c, w, now, progressId).snap, f, lead, id)
  {
    DoomedEvents(w.snap, f, lead, id);
    assert w.(snap := w.snap) == w;
  }

  lemma DoomedStart(c: Setup, w: World, e: Event, f: Fence, lead: Uuid, id: Uuid)
    requires Enabled(c, w, e) && Doomed(w.snap, f, lead, id) && SlotIs(Apply(c, w, e).snap, f)
    requires e.StartResolved? || e.StartRejected? || e.StartTimeout? || e.StopTimeout?
    ensures Doomed(Apply(c, w, e).snap, f, lead, id)
  {
    DoomedEvents(w.snap, f, lead, id);
  }

  lemma DoomedFinish(c: Setup, w: World, e: Event, f: Fence, lead: Uuid, id: Uuid)
    requires Enabled(c, w, e) && Doomed(w.snap, f, lead, id) && SlotIs(Apply(c, w, e).snap, f)
    requires e.PrepareDone? || e.StopResolved? || e.PublishDone?
    ensures Doomed(Apply(c, w, e).snap, f, lead, id)
  {
    DoomedEvents(w.snap, f, lead, id);
  }

  lemma DoomedLateFinish(c: Setup, w: World, e: Event, f: Fence, lead: Uuid, id: Uuid)
    requires Enabled(c, w, e) && Doomed(w.snap, f, lead, id) && SlotIs(Apply(c, w, e).snap, f)
    requires e.LateStopResolved? || e.LatePublishDone?
    ensures Doomed(Apply(c, w, e).snap, f, lead, id)
  {
    DoomedEvents(w.snap, f, lead, id);
  }

  lemma DoomedLate(c: Setup, w: World, e: Event, f: Fence, lead: Uuid, id: Uuid)
    requires Enabled(c, w, e) && Doomed(w.snap, f, lead, id) && IsLate(e)
    requires !e.LateStopResolved? && !e.LatePublishDone?
    ensures Doomed(Apply(c, w, e).snap, f, lead, id)
  {
    DoomedEvents(w.snap, f, lead, id);
  }

  lemma DoomedStep(c: Setup, w: World, e: Event, f: Fence, lead: Uuid, id: Uuid)
    requires Enabled(c, w, e) && Doomed(w.snap, f, lead, id) && SlotIs(Apply(c, w, e).snap, f) && !IsCancel(c, w, e)
    ensures Doomed(Apply(c, w, e).snap, f, lead, id)
  {
    DoomedEvents(w.snap, f, lead, id);
    if e.Consume? {
      DoomedConsume(c, w, e, f, lead, id);
    } else if e.SettlePass? {
      DoomedPass(c, w, e.now, e.progressId, f, lead, id);
    } else if e.LateStopResolved? || e.LatePublishDone? {
      DoomedLateFinish(c, w, e, f, lead, id);
    } else if IsLate(e) {
      DoomedLate(c, w, e, f, lead, id);
    } else if e.PrepareDone? || e.StopResolved? || e.PublishDone? {
      DoomedFinish(c, w, e, f, lead, id);
    } else if e.StartResolved? || e.StartRejected? || e.StartTimeout? || e.StopTimeout? {
      DoomedStart(c, w, e, f, lead, id);
    }
  }

  lemma DoomedNext(c: Setup, ws: seq<World>, es: seq<Event>, k: nat, f: Fence, lead: Uuid, id: Uuid)
    requires Execution(c, ws, es) && k < |es| && Doomed(ws[k].snap, f, lead, id)
    requires SlotIs(ws[k + 1].snap, f) && !IsCancel(c, ws[k], es[k])
    ensures Doomed(ws[k + 1].snap, f, lead, id)
  {
    DoomedStep(c, ws[k], es[k], f, lead, id);
  }

  lemma {:induction false} DoomedUntil(c: Setup, ws: seq<World>, es: seq<Event>, i: nat, k: nat, f: Fence,
                                       lead: Uuid, id: Uuid)
    requires Execution(c, ws, es) && i <= k < |ws| && Doomed(ws[i].snap, f, lead, id)
    requires forall j :: i < j <= k ==> SlotIs(ws[j].snap, f)
    requires forall j :: i <= j < k ==> !IsCancel(c, ws[j], es[j])
    ensures Doomed(ws[k].snap, f, lead, id)
    decreases k
  {
    if i < k {
      DoomedUntil(c, ws, es, i, k - 1, f, lead, id);
      DoomedNext(c, ws, es, k - 1, f, lead, id);
    }
  }

  /** A cancelled run that ends is acknowledged, whatever the driver said of it, and with nothing else. */
  lemma DoomedReport(c: Setup, w: World, e: Event, f: Fence, lead: Uuid, id: Uuid)
    requires Enabled(c, w, e) && Doomed(w.snap, f, lead, id) && !SlotIs(Apply(c, w, e).snap, f)
    ensures Sends(c, w, e) == [Outbound(lead, Some(f.task), Some(f.attempt), Some(id), CancelAck(false))]
  {
    EmptiedIsReported(c, w, e, f);
    DoomedEvents(w.snap, f, lead, id);
    if e.Consume? || e.Tick? {
      ConsumeHolds(c, w, e, f);
    }
    assert Before(w, e) == w.snap;
    assert Replies(c, w, e) == [];
    FinishReports(w.snap, f, Ends(c, w, e).value.1);
  }

  /**
   * In every run: once a cancel was consumed, the report that later empties the slot is the acknowledgement of that
   * cancel (of the latest, if there are several), whatever else happens in between, crashes included.
   */
  lemma CancelIsAnswered(c: Setup, ws: seq<World>, es: seq<Event>, i: nat, k: nat)
    requires ValidConfig(c.config) && Execution(c, ws, es) && i < k < |es| && IsCancel(c, ws[i], es[i])
    requires var f := ws[i].snap.slot.value.fence;
             (forall j :: i < j <= k ==> SlotIs(ws[j].snap, f)) && !SlotIs(ws[k + 1].snap, f)
    requires forall j :: i < j < k ==> !IsCancel(c, ws[j], es[j])
    ensures var env := es[i].env;
            Sends(c, ws[k], es[k]) == [Outbound(env.from, env.task, env.attempt, Some(env.msgId), CancelAck(false))]
  {
    var f, env := ws[i].snap.slot.value.fence, es[i].env;
    assert ws[i + 1] == Apply(c, ws[i], es[i]);
    assert Doomed(ws[i + 1].snap, f, env.from, env.msgId);
    DoomedUntil(c, ws, es, i + 1, k, f, env.from, env.msgId);
    DoomedReport(c, ws[k], es[k], f, env.from, env.msgId);
  }

  // ---- Closing ----

  lemma ClosingStep(c: Setup, w: World, e: Event)
    requires Enabled(c, w, e) && !e.Crash? && (w.closing || e.Close?)
    ensures Apply(c, w, e).closing
  {
    if e.SettlePass? {
      ClosingPass(c, w, e.now, e.progressId);
    }
  }

  lemma ClosingPass(c: Setup, w: World, now: int, progressId: Uuid)
    requires w.settle.Loop? && w.closing
    ensures SettleOnce(c, w, now, progressId).closing
  {
    if Ticks(w, now, progressId) {
      ClosingSlot(c, w.(snap := Before(w, SettlePass(now, progressId))), w.settle.pass);
    }
  }

  lemma ClosingSlot(c: Setup, w: World, pass: nat)
    requires w.closing
    ensures SettleSlot(c, w, pass).closing
  {
    if w.snap.slot.Some? {
      var run := w.snap.slot.value;
      assert SettlePrepared(c, w, run.fence, pass).closing && SettleStopping(w, run, pass).closing;
    }
  }

  lemma {:induction false} StaysClosing(c: Setup, ws: seq<World>, es: seq<Event>, i: nat, k: nat)
    requires Execution(c, ws, es) && i < k < |ws| && es[i].Close? && forall j :: i < j < k ==> !es[j].Crash?
    ensures ws[k].closing
    decreases k
  {
    if i < k - 1 {
      StaysClosing(c, ws, es, i, k - 1);
    }
    ClosingNext(c, ws, es, k - 1);
  }

  lemma ClosingNext(c: Setup, ws: seq<World>, es: seq<Event>, k: nat)
    requires Execution(c, ws, es) && k < |es| && (ws[k].closing || es[k].Close?) && !es[k].Crash?
    ensures ws[k + 1].closing
  {
    ClosingStep(c, ws[k], es[k]);
  }

  /** After the executor began to close it takes no run, until the process starts anew. */
  lemma ClosedTakesNothing(c: Setup, ws: seq<World>, es: seq<Event>, i: nat, k: nat)
    requires Execution(c, ws, es) && i < k < |es| && es[i].Close? && forall j :: i < j < k ==> !es[j].Crash?
    ensures Intents(c, ws[k], es[k]) == []
  {
    StaysClosing(c, ws, es, i, k);
    assert Enabled(c, ws[k], es[k]);
    TakesOnlyOpen(c, ws[k], es[k]);
  }

  /** A run is taken only by a ready executor that is not closing, into an empty slot. */
  lemma TakesOnlyOpen(c: Setup, w: World, e: Event)
    requires Enabled(c, w, e)
    ensures Intents(c, w, e) != [] ==> w.ready && !w.closing && w.snap.slot.None?
  {
  }
}
