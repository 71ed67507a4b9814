/** The lead's state machine for one task: every event as a function of the record. */
module LeadMachine {
  import opened Core
  import opened Wire
  import opened Lease

  datatype LeadState = Drafting | Offered | Running | Reclaiming | Cancelling | Done | Failed | Escalated | Closed

  predicate IsTerminal(s: LeadState) {
    s.Done? || s.Failed? || s.Escalated? || s.Closed?
  }

  datatype Scope = Permanent | Once

  datatype HistoryOutcome =
    | HAccepted | HRejected(code: RejectCode) | HExpired | HLost | HFailRetryable | HFailFatal
    | HAcceptanceFailed | HResultDelivered | HOwnerRedispatch

  datatype HistoryEntry = HistoryEntry(node: Option<Uuid>, attempt: int, outcome: HistoryOutcome)

  datatype Record = Record(
    task: Uuid, kind: Kind, leaseMs: int, state: LeadState, attempt: int, target: Option<Uuid>,
    accepted: bool, failedBudget: int, dispatchRounds: int, renewalSeq: int,
    excluded: map<Uuid, Scope>, history: seq<HistoryEntry>,
    offerTtlUntil: Option<int>, leaseDeadline: Option<int>, drainUntil: Option<int>, drainClosed: bool,
    cancelWaitUntil: Option<int>, resultBody: Option<Outcome>, contract: Contract)

  datatype TimerName = OfferTtlTimer | LeaseTimer | DrainTimer | CancelWaitTimer

  const ACTIVE_TIMERS: set<TimerName> := {OfferTtlTimer, LeaseTimer, DrainTimer, CancelWaitTimer}

  datatype AuditEvent = StaleAttemptRejected | ReclaimAudit | EscalateAudit

  datatype Action =
    | Send(msg: Outbound)
    | Audit(event: AuditEvent)
    | RequestDispatch(nextAttempt: int)
    | Schedule(timer: TimerName, at: int)
    | CancelTimers(timers: set<TimerName>)
    | TerminalReached(state: LeadState)
    | Escalate(attempts: seq<HistoryEntry>)

  /** The record after an event, and what it asks its surroundings to do. */
  datatype Step = Step(rec: Record, actions: seq<Action>)

  function Nothing(r: Record): Step {
    Step(r, [])
  }

  function Fresh(task: Uuid, kind: Kind, p: Params): Record {
    Record(task, kind, if kind.Aid? then p.leaseMsAid else p.leaseMsProject, Drafting, 0, None, false, 0, 0, 0,
           map[], [], None, None, None, false, None, None, NoContract)
  }

  function Out(r: Record, to: Uuid, body: Body, replyTo: Option<Uuid>): Action {
    Send(Outbound(to, Some(r.task), Some(r.attempt), replyTo, body))
  }

  function Finish(r: Record, s: LeadState): Step {
    Step(r.(state := s), [CancelTimers(ACTIVE_TIMERS), TerminalReached(s)])
  }

  function OfferTtl(r: Record, offer: OfferBody, p: Params): int {
    if offer.offerTtlMs.Val? then offer.offerTtlMs.v else DefaultOfferTtlMs(r.kind, p)
  }

  /** The common tail of a first dispatch and of a redispatch. */
  function OfferAttempt(r: Record, attempt: int, target: Uuid, offer: OfferBody, now: int, p: Params): Step {
    var next := r.(attempt := attempt, target := Some(target), accepted := false, state := Offered,
                   contract := if offer.contract.NoContract? then r.contract else offer.contract,
                   offerTtlUntil := Some(now + OfferTtl(r, offer, p)), drainUntil := None, drainClosed := false);
    Step(next, [CancelTimers(ACTIVE_TIMERS), Out(next, target, Offer(offer), None),
                Schedule(OfferTtlTimer, next.offerTtlUntil.value)])
  }

  function DispatchTo(r: Record, target: Uuid, offer: OfferBody, now: int, p: Params): Step {
    if IsTerminal(r.state) || !r.state.Drafting? || offer.contract.BadContract? then Nothing(r)
    else OfferAttempt(r, 1, target, offer, now, p)
  }

  function RedispatchTo(r: Record, target: Uuid, offer: OfferBody, now: int, p: Params): Step {
    if IsTerminal(r.state) || !r.state.Drafting? || offer.contract.BadContract? then Nothing(r)
    else OfferAttempt(r, r.attempt + 1, target, offer, now, p)
  }

  /** Cancel first, redispatch later: every reclaim goes through here. */
  function BeginReclaim(r: Record, reason: CancelReason, now: int, p: Params): Step {
    var next := r.(state := Reclaiming, drainClosed := false, drainUntil := Some(now + p.drainMs));
    Step(next, [CancelTimers(ACTIVE_TIMERS)]
               + (if r.target.Some? then [Out(next, r.target.value, Cancel(reason, Undefined, Undefined), None)]
                   else [])
               + [Audit(ReclaimAudit), Schedule(DrainTimer, now + p.drainMs)])
  }

  /** Charge one of the two budgets; an exhausted one ends the task, otherwise wait for a target. */
  function BudgetOrEscalate(r: Record, p: Params, accepted: bool): Step {
    var charged := if accepted then r.(failedBudget := r.failedBudget + 1)
                   else r.(dispatchRounds := r.dispatchRounds + 1);
    if charged.failedBudget >= p.maxAttempts || charged.dispatchRounds >= p.maxDispatchRounds then
      Step(charged.(state := Escalated),
           [CancelTimers(ACTIVE_TIMERS), Audit(EscalateAudit), Escalate(r.history), TerminalReached(Escalated)])
    else Step(charged.(state := Drafting), [RequestDispatch(r.attempt + 1)])
  }

  function Note(r: Record, node: Option<Uuid>, outcome: HistoryOutcome): Record {
    r.(history := r.history + [HistoryEntry(node, r.attempt, outcome)])
  }

  /** Unsuitable nodes are excluded for good, busy ones not at all, others once. */
  function Exclude(r: Record, code: RejectCode): Record {
    if r.target.None? || code.Busy? then r
    else if code.UnsupportedCaps? || code.PolicyDenied? || code.RefusedLoop?
      then r.(excluded := r.excluded[r.target.value := Permanent])
    else r.(excluded := r.excluded[r.target.value := Once])
  }

  function ExcludeTarget(r: Record): Record {
    if r.target.Some? then r.(excluded := r.excluded[r.target.value := Once]) else r
  }

  function OnOffered(r: Record, from: Uuid, b: Body, now: int, p: Params): Step {
    if b.Accept? then
      var lease := if b.leaseMs.Val? then b.leaseMs.v else r.leaseMs;
      var deadline := now + LostAfterMs(lease, p);
      var next := r.(accepted := true, state := Running, leaseMs := lease, leaseDeadline := Some(deadline));
      Step(Note(next, Some(from), HAccepted), [CancelTimers(ACTIVE_TIMERS), Schedule(LeaseTimer, deadline)])
    else if b.Reject? then
      BudgetOrEscalate(Exclude(Note(r, Some(from), HRejected(b.code)), b.code), p, false)
    else Nothing(r)
  }

  /** A renewal needs the progress message's id and the fence and sequence number in its body. */
  predicate Renews(b: Body, msgId: Option<Uuid>) {
    b.Progress? && msgId.Some? && PositiveField(b.generation) && b.runId.Val? && PositiveField(b.seq_)
  }

  function OnRunning(r: Record, from: Uuid, b: Body, now: int, msgId: Option<Uuid>, accepts: bool, p: Params): Step {
    if b.Progress? then
      var deadline := now + LostAfterMs(r.leaseMs, p);
      var heard := r.(leaseDeadline := Some(deadline));
      var timers := [CancelTimers({LeaseTimer}), Schedule(LeaseTimer, deadline)];
      if Renews(b, msgId) then
        var next := heard.(renewalSeq := r.renewalSeq + 1);
        Step(next, timers + [Out(next, from, Renew(b.generation, b.runId, Val(msgId.value), b.seq_,
                                                   Val(next.renewalSeq), Val(now + r.leaseMs)), msgId)])
      else Step(heard, timers)
    else if b.Delivery? then
      var kept := r.(resultBody := Some(b.outcome));
      if accepts then Finish(Note(kept, Some(from), HResultDelivered), Done)
      else BeginReclaim(Note(kept, Some(from), HAcceptanceFailed), AcceptanceFailed, now, p)
    else if b.Fail? then
      if !b.retryable then Finish(Note(r, Some(from), HFailFatal), Failed)
      else BeginReclaim(Note(r, Some(from), HFailRetryable), ReclaimCancel, now, p)
    else Nothing(r)
  }

  function OnReclaiming(r: Record, b: Body, accepts: bool, p: Params): Step {
    if r.drainClosed then Nothing(r)
    else if b.Delivery? then
      var kept := r.(resultBody := Some(b.outcome));
      if accepts then Finish(Note(kept, r.target, HResultDelivered), Done)
      else Nothing(Note(kept, r.target, HAcceptanceFailed))
    else if b.Fail? then
      if !b.retryable then Finish(Note(r, r.target, HFailFatal), Failed)
      else Nothing(Note(r, r.target, HFailRetryable))
    else if b.CancelAck? then BudgetOrEscalate(r.(drainClosed := true), p, r.accepted)
    else Nothing(r)
  }

  function OnCancelling(r: Record, b: Body, accepts: bool): Step {
    if b.Delivery? then
      var kept := r.(resultBody := Some(b.outcome));
      if accepts then Finish(Note(kept, r.target, HResultDelivered), Done)
      else Nothing(Note(kept, r.target, HAcceptanceFailed))
    else if b.Fail? || b.CancelAck? then Finish(r, Closed)
    else Nothing(r)
  }

  /** A message counts only from the current target and at the current attempt. */
  function OnMessage(r: Record, from: Uuid, attempt: int, b: Body, now: int, msgId: Option<Uuid>,
                     accepts: bool, p: Params): Step
  {
    if IsTerminal(r.state) || Some(from) != r.target then Nothing(r)
    else if attempt < r.attempt then
      Step(r, [Out(r, from, Reject(StaleAttempt, false), None), Audit(StaleAttemptRejected)])
    else if attempt > r.attempt then Step(r, [Audit(StaleAttemptRejected)])
    else match r.state
      case Offered => OnOffered(r, from, b, now, p)
      case Running => OnRunning(r, from, b, now, msgId, accepts, p)
      case Reclaiming => OnReclaiming(r, b, accepts, p)
      case Cancelling => OnCancelling(r, b, accepts)
      case _ => Nothing(r)
  }

  function OnTimer(r: Record, timer: TimerName, now: int, p: Params): Step {
    if IsTerminal(r.state) then Nothing(r)
    else if timer.OfferTtlTimer? && r.state.Offered? then
      BeginReclaim(ExcludeTarget(Note(r, r.target, HExpired)), ReclaimCancel, now, p)
    else if timer.LeaseTimer? && r.state.Running? then
      if r.leaseDeadline.Some? && now < r.leaseDeadline.value then
        Step(r, [Schedule(LeaseTimer, r.leaseDeadline.value)])
      else
        var s := BeginReclaim(ExcludeTarget(Note(r, r.target, HLost)), ReclaimCancel, now, p);
        Step(s.rec, [Audit(ReclaimAudit)] + s.actions)
    else if timer.DrainTimer? && r.state.Reclaiming? && !r.drainClosed then
      BudgetOrEscalate(r.(drainClosed := true), p, r.accepted)
    else if timer.CancelWaitTimer? && r.state.Cancelling? then Finish(r, Closed)
    else Nothing(r)
  }

  function CancelByUser(r: Record, now: int, p: Params): Step {
    if IsTerminal(r.state) || r.state.Cancelling? then Nothing(r)
    else
      var next := r.(cancelWaitUntil := Some(now + p.cancelWaitMs), state := Cancelling);
      Step(next, [CancelTimers(ACTIVE_TIMERS)]
                 + (if r.target.Some? then [Out(next, r.target.value, Cancel(UserCancel, Undefined, Undefined), None)]
                     else [])
                 + [Schedule(CancelWaitTimer, now + p.cancelWaitMs)])
  }

  function RedispatchByOwner(r: Record, now: int, p: Params): Step {
    if IsTerminal(r.state) || r.state.Cancelling? || r.state.Reclaiming? then Nothing(r)
    else if r.state.Drafting? then Step(ExcludeTarget(r), [RequestDispatch(r.attempt + 1)])
    else BeginReclaim(Note(ExcludeTarget(r), r.target, HOwnerRedispatch), ReclaimCancel, now, p)
  }

  /** Everything that can happen to a task. */
  datatype Event =
    | Dispatch(target: Uuid, offer: OfferBody, now: int)
    | Redispatch(target: Uuid, offer: OfferBody, now: int)
    | Message(from: Uuid, attempt: int, body: Body, now: int, msgId: Option<Uuid>, accepts: bool)
    | Timer(timer: TimerName, now: int)
    | UserCancels(now: int)
    | OwnerRedispatches(now: int)

  function Apply(r: Record, e: Event, p: Params): Step {
    match e
    case Dispatch(target, offer, now) => DispatchTo(r, target, offer, now, p)
    case Redispatch(target, offer, now) => RedispatchTo(r, target, offer, now, p)
    case Message(from, attempt, b, now, msgId, accepts) => OnMessage(r, from, attempt, b, now, msgId, accepts, p)
    case Timer(timer, now) => OnTimer(r, timer, now, p)
    case UserCancels(now) => CancelByUser(r, now, p)
    case OwnerRedispatches(now) => RedispatchByOwner(r, now, p)
  }
}
