/** The durable executor snapshot, the predicate its decoder enforces, and every event on it. */
module ExecutorState {
  import opened Core
  import opened Wire
  import opened Lease
  import Caps

  datatype Phase = Prepared | Starting | Running | Stopping | RecoveryRequired

  datatype PendingProgress = PendingProgress(msgId: Uuid, seq_: int, sentAt: int)

  datatype DurableRun = DurableRun(
    fence: Fence, phase: Phase, lead: Uuid, offerMsgId: Uuid, offer: OfferBody, mayHaveStarted: bool,
    leaseMs: int, leaseDeadline: int, heartbeatAt: int, seq_: int, lastRenewalSeq: int,
    progress: Option<PendingProgress>, cancelMsgId: Option<Uuid>, stopReason: Option<StopReason>)

  datatype Last = Last(fence: Fence, lead: Uuid, outcome: Outcome)

  datatype Snapshot = Snapshot(generation: int, slot: Option<DurableRun>, last: Option<Last>)

  const EMPTY := Snapshot(0, None, None)

  /** Static configuration of one executor. */
  datatype Config = Config(node: Uuid, team: Uuid, leaseMsAid: int, offerTtlMsAid: int,
                           driver: bool, publisher: bool, caps: seq<string>)

  predicate ValidConfig(c: Config) {
    Positive(c.leaseMsAid) && Positive(c.offerTtlMsAid)
  }

  predicate SupportedKind(b: OfferBody) {
    b.kind.Aid? || (b.kind.Project? && b.deliverables)
  }

  predicate SupportedOffer(b: OfferBody) {
    && SupportedKind(b) && b.summary && !b.project && !b.payloadRef
    && (b.leaseMs.Undefined? || PositiveField(b.leaseMs))
    && (b.offerTtlMs.Undefined? || PositiveField(b.offerTtlMs))
    && !b.demands.SomeDemands?
    && Caps.RequiredCaps(b.requiredCaps).Some?
    && b.json
  }

  /** The per-run half of the decoder. */
  predicate ValidRun(r: DurableRun, generation: int) {
    && IsLeaseFence(r.fence) && r.fence.generation == generation
    && SupportedOffer(r.offer)
    && Positive(r.leaseMs)
    && (PositiveField(r.offer.leaseMs) ==> r.leaseMs <= r.offer.leaseMs.v)
    && Positive(r.leaseDeadline) && Positive(r.heartbeatAt)
    && Nonnegative(r.seq_) && Nonnegative(r.lastRenewalSeq)
    && (r.phase.Prepared? ==> !r.mayHaveStarted)
    && (!r.phase.Prepared? && !r.phase.Stopping? ==> r.mayHaveStarted)
    && (!r.mayHaveStarted ==> r.seq_ == 0 && r.lastRenewalSeq == 0)
    && (r.seq_ == 0 ==> r.lastRenewalSeq == 0)
    && (r.seq_ > 0 && r.progress.None? ==> r.lastRenewalSeq != 0)
    && (r.cancelMsgId.Some? <==> r.stopReason == Some(StopCancel))
    && (r.phase.Prepared? || r.phase.Starting? || r.phase.Running? ==> r.stopReason.None?)
    && (r.phase.Stopping? || r.phase.RecoveryRequired? ==> r.stopReason.Some?)
    && (r.progress.Some? ==>
          && Positive(r.progress.value.seq_) && r.progress.value.seq_ == r.seq_
          && Nonnegative(r.progress.value.sentAt)
          && r.progress.value.sentAt < r.leaseDeadline && r.progress.value.sentAt < r.heartbeatAt)
  }

  /** The decoder accepts a snapshot: run and history agree on the generation counter. */
  predicate Valid(s: Snapshot) {
    && Nonnegative(s.generation)
    && (s.slot.Some? ==> ValidRun(s.slot.value, s.generation))
    && (s.last.Some? ==>
          && IsLeaseFence(s.last.value.fence)
          && s.last.value.fence.generation == s.generation - (if s.slot.None? then 0 else 1))
    && (s.last.None? ==> s.generation == (if s.slot.None? then 0 else 1))
  }

  // ---- Events ----

  /** What one committed event leaves behind: the snapshot, outgoing messages and the recorded effect. */
  datatype Change = Change(state: Snapshot, outbox: seq<Outbound>, effect: Option<Fence>)

  function Unchanged(s: Snapshot): Change {
    Change(s, [], None)
  }

  /** A message of this run: its fence rides along in the body fields that carry one. */
  function RunMessage(run: DurableRun, body: Body, replyTo: Uuid): Outbound {
    Outbound(run.lead, Some(run.fence.task), Some(run.fence.attempt), Some(replyTo), body)
  }

  /** Everything about an offer that does not depend on the slot, in the order the gates are tried. */
  function OfferDenial(c: Config, s: Snapshot, env: Envelope, now: int, allowed: bool, unexpired: bool,
                       ready: bool, closing: bool, policyOk: bool): Option<RejectCode>
    requires env.body.Offer?
  {
    var b := env.body.offer;
    var ttl, lease := OrDefault(b.offerTtlMs, c.offerTtlMsAid), OrDefault(b.leaseMs, c.leaseMsAid);
    if !allowed then Some(PolicyDenied)
    else if !unexpired then Some(Expired)
    else if !ready || s.slot.Some? || closing then Some(Busy)
    else if !c.driver || b.project || b.payloadRef || env.task.None? ||
            env.attempt.None? || !Positive(env.attempt.value) || b.demands.SomeDemands? ||
            !(b.kind.Aid? || (b.kind.Project? && c.publisher)) then Some(PolicyDenied)
    else if !PositiveField(ttl) || !PositiveField(lease) || !Safe(now + lease.v) ||
            env.ts.None? || now >= env.ts.value + ttl.v then Some(Expired)
    else if !policyOk then Some(PolicyDenied)
    else if !Caps.CapabilityGate(b.requiredCaps, c.caps) then Some(UnsupportedCaps)
    else if !SupportedOffer(b) then Some(PolicyDenied)
    else if s.last.Some? && s.last.value.fence.task == env.task.value &&
            env.attempt.value <= s.last.value.fence.attempt then Some(StaleAttempt)
    else None
  }

  /** A new run for an admitted offer. */
  function NewRun(c: Config, generation: int, env: Envelope, now: int, runId: Uuid): DurableRun
    requires env.body.Offer? && env.task.Some? && env.attempt.Some?
    requires OrDefault(env.body.offer.leaseMs, c.leaseMsAid).Val?
  {
    var leaseMs := Min(OrDefault(env.body.offer.leaseMs, c.leaseMsAid).v, c.leaseMsAid);
    DurableRun(Fence(env.task.value, env.attempt.value, generation, runId), Prepared, env.from, env.msgId,
               env.body.offer, false, leaseMs, now + leaseMs, now + Max(1, HeartbeatIntervalMs(leaseMs)),
               0, 0, None, None, None)
  }

  /** An offer no gate refuses names a task and an attempt, asks for a usable lease, and finds the slot free. */
  lemma AdmittedOffer(c: Config, s: Snapshot, env: Envelope, now: int, allowed: bool, unexpired: bool,
                      ready: bool, closing: bool, policyOk: bool)
    requires env.body.Offer? && OfferDenial(c, s, env, now, allowed, unexpired, ready, closing, policyOk).None?
    ensures env.task.Some? && env.attempt.Some? && Positive(env.attempt.value)
    ensures PositiveField(OrDefault(env.body.offer.leaseMs, c.leaseMsAid))
    ensures allowed && unexpired && s.slot.None? && ready && !closing
  {
  }

  /** task.offer: reject, or take the slot under the next generation; Err when generations are exhausted. */
  function OfferEvent(c: Config, s: Snapshot, env: Envelope, now: int, allowed: bool, unexpired: bool,
                      ready: bool, closing: bool, policyOk: bool, runId: Uuid): Result<Change>
    requires env.body.Offer?
  {
    var denial := OfferDenial(c, s, env, now, allowed, unexpired, ready, closing, policyOk);
    if denial.Some? then
      Ok(Change(s, [Outbound(env.from, env.task, env.attempt, Some(env.msgId), Reject(denial.value, false))], None))
    else if !Safe(s.generation + 1) then Err("Executor generation exhausted")
    else
      var run := NewRun(c, s.generation + 1, env, now, runId);
      Ok(Change(s.(generation := s.generation + 1, slot := Some(run)),
                [RunMessage(run, Accept(Val(run.leaseMs), Val(run.fence.generation), Val(runId)), run.offerMsgId)],
                Some(run.fence)))
  }

  /** Whatever a grant routes across teams, this executor refuses: only its own team's offers are allowed. */
  lemma CrossTeamOfferRefused(c: Config, s: Snapshot, env: Envelope, now: int, authorized: bool, ready: bool,
                              closing: bool, policyOk: bool, runId: Uuid)
    requires env.body.Offer? && env.to == c.node && env.fromTeam != c.team
    ensures ConsumeEvent(c, s, env, now, authorized, ready, closing, policyOk, runId) ==
            Ok(Change(s, [Outbound(env.from, env.task, env.attempt, Some(env.msgId), Reject(PolicyDenied, false))],
                None))
  {
  }

  predicate AddressedTo(run: DurableRun, env: Envelope) {
    env.from == run.lead && env.task == Some(run.fence.task) && env.attempt == Some(run.fence.attempt)
  }

  /** A cancel may name the run it means; a field that names another run makes it void. */
  predicate CancelMatches(run: DurableRun, b: Body)
    requires b.Cancel?
  {
    (b.generation.Undefined? || b.generation == Val(run.fence.generation)) &&
    (b.runId.Undefined? || b.runId == Val(run.fence.runId))
  }

  function CancelRun(run: DurableRun, msgId: Uuid): DurableRun {
    run.(cancelMsgId := Some(msgId), stopReason := Some(StopCancel),
         phase := if run.phase.RecoveryRequired? then RecoveryRequired else Stopping)
  }

  predicate Renewable(run: DurableRun, b: Body, now: int) {
    && b.Renew? && (run.phase.Running? || run.phase.Starting?) && run.progress.Some?
    && PositiveField(b.deadlineMs) && b.deadlineMs.v > run.leaseDeadline
    && CanApplyLeaseRenewal(b, run.fence, run.progress.value.msgId, run.progress.value.seq_,
                            run.lastRenewalSeq, now, run.leaseMs, run.leaseDeadline)
  }

  function RenewRun(run: DurableRun, b: Body): DurableRun
    requires b.Renew? && b.renewalSeq.Val? && b.deadlineMs.Val?
  {
    run.(lastRenewalSeq := b.renewalSeq.v, leaseDeadline := b.deadlineMs.v, progress := None)
  }

  /** Every other message: cancel and lease renewal of the current run, or a cancel of the last one. */
  function ControlEvent(s: Snapshot, env: Envelope, now: int): Change {
    if s.slot.None? then
      if env.body.Cancel? && s.last.Some? && env.from == s.last.value.lead &&
         env.task == Some(s.last.value.fence.task) && env.attempt == Some(s.last.value.fence.attempt)
      then Change(s, [Outbound(s.last.value.lead, env.task, env.attempt, Some(env.msgId),
                               CancelAck(s.last.value.outcome.ResultOutcome?))], None)
      else Unchanged(s)
    else
      var run := s.slot.value;
      if !AddressedTo(run, env) then Unchanged(s)
      else if env.body.Cancel? then
        if CancelMatches(run, env.body) then Unchanged(s.(slot := Some(CancelRun(run, env.msgId)))) else Unchanged(s)
      else if Renewable(run, env.body, now) then Unchanged(s.(slot := Some(RenewRun(run, env.body))))
      else Unchanged(s)
  }

  /** One consumed envelope; `authorized` is the inbox pump's latest verdict. */
  function ConsumeEvent(c: Config, s: Snapshot, env: Envelope, now: int, authorized: bool, ready: bool,
                        closing: bool, policyOk: bool, runId: Uuid): Result<Change>
  {
    if env.to != c.node then Ok(Unchanged(s))
    else
      var allowed := env.fromTeam == c.team && authorized && env.signed;
      var unexpired := env.exp.Some? && env.exp.value > now;
      if env.body.Offer? then OfferEvent(c, s, env, now, allowed, unexpired, ready, closing, policyOk, runId)
      else if allowed && unexpired then Ok(ControlEvent(s, env, now))
      else Ok(Unchanged(s))
  }

  /** Expire the lease or send a due heartbeat; progressId is the id the sealed progress message gets. */
  function TickEvent(s: Snapshot, now: int, progressId: Uuid): Result<Change> {
    if s.slot.None? then Ok(Unchanged(s))
    else
      var run := s.slot.value;
      if run.phase.Stopping? || run.phase.RecoveryRequired? then Ok(Unchanged(s))
      else if now >= run.leaseDeadline then
        Ok(Unchanged(s.(slot := Some(run.(phase := Stopping, stopReason := Some(LeaseExpired))))))
      else if run.phase.Prepared? || now < run.heartbeatAt then Ok(Unchanged(s))
      else if !Safe(run.seq_ + 1) then Err("Executor progress exhausted")
      else if !Safe(now + Max(1, HeartbeatIntervalMs(run.leaseMs))) then Err("Executor heartbeat time exhausted")
      else
        var next := run.(seq_ := run.seq_ + 1,
                         progress := Some(PendingProgress(progressId, run.seq_ + 1, now)),
                         heartbeatAt := now + Max(1, HeartbeatIntervalMs(run.leaseMs)));
        Ok(Change(s.(slot := Some(next)),
                  [RunMessage(run, Progress(Val(next.seq_), Val(run.fence.generation), Val(run.fence.runId)),
                      run.offerMsgId)],
                  None))
  }

  predicate SlotIs(s: Snapshot, f: Fence) {
    s.slot.Some? && s.slot.value.fence == f
  }

  /** A recorded stop reason overrides whatever the driver reported. */
  function FinalOutcome(run: DurableRun, outcome: Outcome): Outcome {
    if run.stopReason.Some? then OwnFailure(Stopped(run.stopReason.value)) else outcome
  }

  /** Empty the slot and report: a cancelled run is acknowledged, any other delivers its result or failure. */
  function FinishEvent(s: Snapshot, f: Fence, outcome: Outcome): Change {
    if !SlotIs(s, f) then Unchanged(s)
    else
      var run := s.slot.value;
      var final := FinalOutcome(run, outcome);
      var report :=
        if run.cancelMsgId.Some? then RunMessage(run, CancelAck(false), run.cancelMsgId.value)
        else RunMessage(run, if final.ResultOutcome? then Delivery(final)
                             else Fail(final.FailOutcome? && final.retryable, final), run.offerMsgId);
      Change(s.(slot := None, last := Some(Last(f, run.lead, final))), [report], None)
  }

  /** Park a run whose external state is not known. */
  function UnknownEvent(s: Snapshot, f: Fence, reason: StopReason): Change {
    if !SlotIs(s, f) then Unchanged(s)
    else
      var run := s.slot.value;
      Unchanged(s.(slot := Some(run.(phase := RecoveryRequired,
                                     stopReason := if run.stopReason.Some? then run.stopReason else Some(reason)))))
  }

  /** The commit that must precede driver.start. */
  function StartingEvent(s: Snapshot, f: Fence): Option<Snapshot> {
    if SlotIs(s, f) && s.slot.value.phase.Prepared?
    then Some(s.(slot := Some(s.slot.value.(phase := Starting, mayHaveStarted := true))))
    else None
  }

  function RunningEvent(s: Snapshot, f: Fence): Snapshot {
    if SlotIs(s, f) && s.slot.value.phase.Starting?
    then s.(slot := Some(s.slot.value.(phase := Running)))
    else s
  }

  function ShutdownEvent(s: Snapshot): Snapshot {
    if s.slot.None? || s.slot.value.phase.RecoveryRequired? then s
    else
      var run := s.slot.value;
      s.(slot := Some(run.(phase := Stopping,
                           stopReason := if run.stopReason.Some? then run.stopReason else Some(Shutdown))))
  }

  // ---- Every event keeps a snapshot the decoder accepts ----

  lemma OfferKeepsValid(c: Config, s: Snapshot, env: Envelope, now: int, allowed: bool, unexpired: bool,
                        ready: bool, closing: bool, policyOk: bool, runId: Uuid)
    requires ValidConfig(c) && Valid(s) && env.body.Offer? && now >= 0
    ensures var r := OfferEvent(c, s, env, now, allowed, unexpired, ready, closing, policyOk, runId);
            r.Ok? ==> Valid(r.value.state)
  {
  }

  lemma ControlKeepsValid(s: Snapshot, env: Envelope, now: int)
    requires Valid(s)
    ensures Valid(ControlEvent(s, env, now).state)
  {
  }

  lemma ConsumeKeepsValid(c: Config, s: Snapshot, env: Envelope, now: int, authorized: bool, ready: bool,
                          closing: bool, policyOk: bool, runId: Uuid)
    requires ValidConfig(c) && Valid(s) && now >= 0
    ensures var r := ConsumeEvent(c, s, env, now, authorized, ready, closing, policyOk, runId);
            r.Ok? ==> Valid(r.value.state)
  {
    var allowed := env.fromTeam == c.team && authorized && env.signed;
    var unexpired := env.exp.Some? && env.exp.value > now;
    if env.body.Offer? {
      OfferKeepsValid(c, s, env, now, allowed, unexpired, ready, closing, policyOk, runId);
    } else {
      ControlKeepsValid(s, env, now);
    }
  }

  lemma TickKeepsValid(s: Snapshot, now: int, progressId: Uuid)
    requires Valid(s) && Nonnegative(now)
    ensures var r := TickEvent(s, now, progressId); r.Ok? ==> Valid(r.value.state)
  {
  }

  lemma FinishKeepsValid(s: Snapshot, f: Fence, outcome: Outcome)
    requires Valid(s)
    ensures Valid(FinishEvent(s, f, outcome).state)
  {
  }

  /**
   * Parking a run keeps the decoder's invariant exactly when the run may have started: a prepared run
   * parked as recovery_required would be a snapshot the decoder refuses.
   */
  lemma UnknownKeepsValidIff(s: Snapshot, f: Fence, reason: StopReason)
    requires Valid(s) && !reason.StopCancel?
    ensures Valid(UnknownEvent(s, f, reason).state) <==> (SlotIs(s, f) ==> s.slot.value.mayHaveStarted)
  {
  }

  lemma StartKeepsValid(s: Snapshot, f: Fence)
    requires Valid(s)
    ensures StartingEvent(s, f).Some? ==> Valid(StartingEvent(s, f).value)
    ensures Valid(RunningEvent(s, f))
  {
  }

  lemma ShutdownKeepsValid(s: Snapshot)
    requires Valid(s)
    ensures Valid(ShutdownEvent(s))
  {
  }
}
