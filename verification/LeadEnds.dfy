/** Exactly when a lead task moves to each state, and exactly what it then records, says and asks for. */
module LeadEnds {
  import opened Core
  import opened Wire
  import opened Lease
  import opened LeadMachine

  /** A message that counts: from the current target, at the current attempt, before the task ended. */
  predicate Hears(r: Record, e: Event) {
    e.Message? && !IsTerminal(r.state) && r.target == Some(e.from) && e.attempt == r.attempt
  }

  /** The attempt's window for results is open. */
  predicate Draining(r: Record) {
    r.state.Reclaiming? && !r.drainClosed
  }

  predicate Fires(r: Record, e: Event, timer: TimerName) {
    e.Timer? && e.timer == timer
  }

  /** The lease deadline has passed when its timer fires. */
  predicate Lost(r: Record, e: Event) {
    Fires(r, e, LeaseTimer) && !(r.leaseDeadline.Some? && e.now < r.leaseDeadline.value)
  }

  /** A rejection of the open offer, or the end of a drain. */
  predicate Charges(r: Record, e: Event) {
    || (r.state.Offered? && Hears(r, e) && e.body.Reject?)
    || (Draining(r) && (Fires(r, e, DrainTimer) || (Hears(r, e) && e.body.CancelAck?)))
  }

  /** The charge uses up its budget: rejections and unanswered offers count rounds, accepted attempts failures. */
  predicate Exhausts(r: Record, e: Event, p: Params) {
    var failed := if r.state.Reclaiming? && r.accepted then 1 else 0;
    r.failedBudget + failed >= p.maxAttempts || r.dispatchRounds + (1 - failed) >= p.maxDispatchRounds
  }

  predicate Offers(r: Record, e: Event) {
    (e.Dispatch? || e.Redispatch?) && r.state.Drafting? && !e.offer.contract.BadContract?
  }

  /** What gives a running attempt up. */
  predicate GivesUp(r: Record, e: Event) {
    || (Hears(r, e) && e.body.Delivery? && !e.accepts)
    || (Hears(r, e) && e.body.Fail? && e.body.retryable)
    || Lost(r, e) || e.OwnerRedispatches?
  }

  /** The causes of moving to state s from another one. */
  predicate LeadsTo(r: Record, e: Event, p: Params, s: LeadState) {
    match s
    case Drafting => Charges(r, e) && !Exhausts(r, e, p)
    case Offered => Offers(r, e)
    case Running => r.state.Offered? && Hears(r, e) && e.body.Accept?
    case Reclaiming =>
      || (r.state.Running? && GivesUp(r, e))
      || (r.state.Offered? && (Fires(r, e, OfferTtlTimer) || e.OwnerRedispatches?))
    case Cancelling => e.UserCancels?
    case Done =>
      Hears(r, e) && e.body.Delivery? && e.accepts && (r.state.Running? || r.state.Cancelling? || Draining(r))
    case Failed => Hears(r, e) && e.body.Fail? && !e.body.retryable && (r.state.Running? || Draining(r))
    case Closed =>
      r.state.Cancelling? && (Fires(r, e, CancelWaitTimer) || (Hears(r, e) && (e.body.Fail? || e.body.CancelAck?)))
    case Escalated => Charges(r, e) && Exhausts(r, e, p)
  }

  lemma HeardOffered(r: Record, e: Event, p: Params)
    requires Hears(r, e) && r.state.Offered?
    ensures forall s :: s != r.state ==> (Apply(r, e, p).rec.state == s <==> LeadsTo(r, e, p, s))
  {
  }

  lemma HeardRunning(r: Record, e: Event, p: Params)
    requires Hears(r, e) && r.state.Running?
    ensures forall s :: s != r.state ==> (Apply(r, e, p).rec.state == s <==> LeadsTo(r, e, p, s))
  {
  }

  lemma HeardClosing(r: Record, e: Event, p: Params)
    requires Hears(r, e) && !r.state.Offered? && !r.state.Running?
    ensures forall s :: s != r.state ==> (Apply(r, e, p).rec.state == s <==> LeadsTo(r, e, p, s))
  {
  }

  lemma Unheard(r: Record, e: Event, p: Params)
    requires e.Message? && !Hears(r, e)
    ensures Apply(r, e, p).rec == r
  {
  }

  lemma Timed(r: Record, e: Event, p: Params)
    requires e.Timer? && !IsTerminal(r.state)
    ensures forall s :: s != r.state ==> (Apply(r, e, p).rec.state == s <==> LeadsTo(r, e, p, s))
  {
  }

  lemma Commanded(r: Record, e: Event, p: Params)
    requires !e.Timer? && !e.Message? && !IsTerminal(r.state)
    ensures forall s :: s != r.state ==> (Apply(r, e, p).rec.state == s <==> LeadsTo(r, e, p, s))
  {
  }

  /** A task that has not ended moves to another state exactly for that state's causes, and stays otherwise. */
  lemma NextStateIff(r: Record, e: Event, p: Params, s: LeadState)
    requires !IsTerminal(r.state) && s != r.state
    ensures Apply(r, e, p).rec.state == s <==> LeadsTo(r, e, p, s)
  {
    if e.Timer? {
      Timed(r, e, p);
    } else if !e.Message? {
      Commanded(r, e, p);
    } else if !Hears(r, e) {
      Unheard(r, e, p);
    } else if r.state.Offered? {
      HeardOffered(r, e, p);
    } else if r.state.Running? {
      HeardRunning(r, e, p);
    } else {
      HeardClosing(r, e, p);
    }
  }

  // ---- What it records ----

  /** The entry an event adds to the history, if any. */
  function Entry(r: Record, e: Event): Option<HistoryEntry> {
    if Hears(r, e) then
      var outcome :=
        if e.body.Accept? && r.state.Offered? then Some(HAccepted)
        else if e.body.Reject? && r.state.Offered? then Some(HRejected(e.body.code))
        else if e.body.Delivery? && (r.state.Running? || r.state.Cancelling? || Draining(r)) then
          Some(if e.accepts then HResultDelivered else HAcceptanceFailed)
        else if e.body.Fail? && (r.state.Running? || Draining(r)) then
          Some(if e.body.retryable then HFailRetryable else HFailFatal)
        else None;
      if outcome.Some? then Some(HistoryEntry(r.target, r.attempt, outcome.value)) else None
    else if r.state.Offered? && Fires(r, e, OfferTtlTimer) then Some(HistoryEntry(r.target, r.attempt, HExpired))
    else if r.state.Running? && Lost(r, e) then Some(HistoryEntry(r.target, r.attempt, HLost))
    else if e.OwnerRedispatches? && (r.state.Offered? || r.state.Running?) then
      Some(HistoryEntry(r.target, r.attempt, HOwnerRedispatch))
    else None
  }

  /** How long the target stays excluded for this event, if it is excluded at all. */
  function Excludes(r: Record, e: Event): Option<Scope> {
    if r.target.None? || IsTerminal(r.state) then None
    else if r.state.Offered? && Hears(r, e) && e.body.Reject? then
      match e.body.code
      case Busy => None
      case UnsupportedCaps => Some(Permanent)
      case PolicyDenied => Some(Permanent)
      case RefusedLoop => Some(Permanent)
      case _ => Some(Once)
    else if (r.state.Offered? && Fires(r, e, OfferTtlTimer)) || (r.state.Running? && Lost(r, e))
            || (e.OwnerRedispatches? && (r.state.Drafting? || r.state.Offered? || r.state.Running?)) then Some(Once)
    else None
  }

  /** The entry and the exclusion of an event. */
  predicate Records(r: Record, e: Event, next: Record) {
    && next.history == r.history + (if Entry(r, e).Some? then [Entry(r, e).value] else [])
    && next.excluded == (if Excludes(r, e).Some? then r.excluded[r.target.value := Excludes(r, e).value]
        else r.excluded)
  }

  lemma OfferedRecords(r: Record, e: Event, p: Params)
    requires Hears(r, e) && r.state.Offered?
    ensures Records(r, e, Apply(r, e, p).rec)
  {
  }

  lemma RunningRecords(r: Record, e: Event, p: Params)
    requires Hears(r, e) && r.state.Running?
    ensures Records(r, e, Apply(r, e, p).rec)
  {
  }

  lemma ClosingRecords(r: Record, e: Event, p: Params)
    requires Hears(r, e) && !r.state.Offered? && !r.state.Running?
    ensures Records(r, e, Apply(r, e, p).rec)
  {
  }

  lemma TimerRecords(r: Record, e: Event, p: Params)
    requires e.Timer? && !IsTerminal(r.state)
    ensures Records(r, e, Apply(r, e, p).rec)
  {
  }

  lemma CommandRecords(r: Record, e: Event, p: Params)
    requires !e.Timer? && !e.Message? && !IsTerminal(r.state)
    ensures Records(r, e, Apply(r, e, p).rec)
  {
  }

  /** Every event adds exactly its entry to the history, and excludes its target exactly as long as its cause says. */
  lemma HistoryIs(r: Record, e: Event, p: Params)
    requires !IsTerminal(r.state)
    ensures Records(r, e, Apply(r, e, p).rec)
  {
    if e.Timer? {
      TimerRecords(r, e, p);
    } else if !e.Message? {
      CommandRecords(r, e, p);
    } else if !Hears(r, e) {
      Unheard(r, e, p);
    } else if r.state.Offered? {
      OfferedRecords(r, e, p);
    } else if r.state.Running? {
      RunningRecords(r, e, p);
    } else {
      ClosingRecords(r, e, p);
    }
  }

  /** Which budget is charged; the attempt and its target change with an offer, acceptance with an accept. */
  predicate Charged(r: Record, e: Event, p: Params, next: Record) {
    var failed := Charges(r, e) && r.state.Reclaiming? && r.accepted;
    && next.failedBudget == r.failedBudget + (if failed then 1 else 0)
    && next.dispatchRounds == r.dispatchRounds + (if Charges(r, e) && !failed then 1 else 0)
    && next.attempt == (if !Offers(r, e) then r.attempt else if e.Dispatch? then 1 else r.attempt + 1)
    && next.target == (if Offers(r, e) then Some(e.target) else r.target)
    && next.accepted == (if Offers(r, e) then false else r.accepted || (!r.state.Running? && LeadsTo(r, e, p, Running)))
  }

  lemma OfferedCharged(r: Record, e: Event, p: Params)
    requires Hears(r, e) && r.state.Offered?
    ensures Charged(r, e, p, Apply(r, e, p).rec)
  {
  }

  lemma RunningCharged(r: Record, e: Event, p: Params)
    requires Hears(r, e) && r.state.Running?
    ensures Charged(r, e, p, Apply(r, e, p).rec)
  {
  }

  lemma ClosingCharged(r: Record, e: Event, p: Params)
    requires Hears(r, e) && !r.state.Offered? && !r.state.Running?
    ensures Charged(r, e, p, Apply(r, e, p).rec)
  {
  }

  lemma TimerCharged(r: Record, e: Event, p: Params)
    requires e.Timer? && !IsTerminal(r.state)
    ensures Charged(r, e, p, Apply(r, e, p).rec)
  {
  }

  lemma CommandCharged(r: Record, e: Event, p: Params)
    requires !e.Timer? && !e.Message? && !IsTerminal(r.state)
    ensures Charged(r, e, p, Apply(r, e, p).rec)
  {
  }

  /** Rejections and unanswered offers cost a round, accepted attempts a failure, and nothing else costs anything. */
  lemma BudgetIs(r: Record, e: Event, p: Params)
    requires !IsTerminal(r.state)
    ensures Charged(r, e, p, Apply(r, e, p).rec)
  {
    if e.Timer? {
      TimerCharged(r, e, p);
    } else if !e.Message? {
      CommandCharged(r, e, p);
    } else if !Hears(r, e) {
      Unheard(r, e, p);
    } else if r.state.Offered? {
      OfferedCharged(r, e, p);
    } else if r.state.Running? {
      RunningCharged(r, e, p);
    } else {
      ClosingCharged(r, e, p);
    }
  }

  /** The deadlines after an event. */
  predicate Deadlines(r: Record, e: Event, p: Params, next: Record) {
    && (Offers(r, e) ==>
          var usual := if r.kind.Aid? then p.offerTtlMsAid else p.offerTtlMsProject;
          next.offerTtlUntil == Some(e.now + if e.offer.offerTtlMs.Val? then e.offer.offerTtlMs.v else usual))
    && (LeadsTo(r, e, p, Running) && !r.state.Running? ==>
          && next.leaseMs == (if e.body.leaseMs.Val? then e.body.leaseMs.v else r.leaseMs)
          && next.leaseDeadline == Some(e.now + 2 * (next.leaseMs / 3) + p.graceMs))
    && (r.state.Running? && Hears(r, e) && e.body.Progress? ==>
          next.leaseDeadline == Some(e.now + 2 * (r.leaseMs / 3) + p.graceMs))
    && (LeadsTo(r, e, p, Reclaiming) && !r.state.Reclaiming? ==>
          next.drainUntil == Some(e.now + p.drainMs) && !next.drainClosed)
    && (e.UserCancels? && !r.state.Cancelling? ==> next.cancelWaitUntil == Some(e.now + p.cancelWaitMs))
    && (LeadsTo(r, e, p, Done) ==> next.resultBody == Some(e.body.outcome))
  }

  lemma HeardDeadlines(r: Record, e: Event, p: Params)
    requires Hears(r, e)
    ensures Deadlines(r, e, p, Apply(r, e, p).rec)
  {
  }

  lemma TimedDeadlines(r: Record, e: Event, p: Params)
    requires e.Timer? && !IsTerminal(r.state)
    ensures Deadlines(r, e, p, Apply(r, e, p).rec)
  {
  }

  lemma CommandDeadlines(r: Record, e: Event, p: Params)
    requires !e.Timer? && !e.Message? && !IsTerminal(r.state)
    ensures Deadlines(r, e, p, Apply(r, e, p).rec)
  {
  }

  /** The deadlines of offer, lease, drain and cancel, and the lease and result that go with them. */
  lemma DeadlinesAre(r: Record, e: Event, p: Params)
    requires !IsTerminal(r.state)
    ensures Deadlines(r, e, p, Apply(r, e, p).rec)
  {
    if e.Timer? {
      TimedDeadlines(r, e, p);
    } else if !e.Message? {
      CommandDeadlines(r, e, p);
    } else if Hears(r, e) {
      HeardDeadlines(r, e, p);
    } else {
      Unheard(r, e, p);
    }
  }

  // ---- What it says ----

  /** The one message an event sends, if any. */
  function Says(r: Record, e: Event, p: Params): Option<Outbound> {
    if IsTerminal(r.state) then None
    else if Offers(r, e) then
      Some(Outbound(e.target, Some(r.task), Some(if e.Dispatch? then 1 else r.attempt + 1), None, Offer(e.offer)))
    else if r.target.None? then None
    else if e.UserCancels? && !r.state.Cancelling? then Some(ToTarget(r, Cancel(UserCancel, Undefined, Undefined)))
    else if LeadsTo(r, e, p, Reclaiming) && !r.state.Reclaiming? then
      var refused := e.Message? && e.body.Delivery?;
      Some(ToTarget(r, Cancel(if refused then AcceptanceFailed else ReclaimCancel, Undefined, Undefined)))
    else if e.Message? && r.target == Some(e.from) && e.attempt < r.attempt then
      Some(ToTarget(r, Reject(StaleAttempt, false)))
    else if r.state.Running? && Hears(r, e) && Renews(e.body, e.msgId) then
      Some(Outbound(e.from, Some(r.task), Some(r.attempt), e.msgId,
                    Renew(e.body.generation, e.body.runId, Val(e.msgId.value), e.body.seq_, Val(r.renewalSeq + 1),
                          Val(e.now + r.leaseMs))))
    else None
  }

  function ToTarget(r: Record, b: Body): Outbound
    requires r.target.Some?
  {
    Outbound(r.target.value, Some(r.task), Some(r.attempt), None, b)
  }

  /** These actions send exactly this message. */
  predicate SendsOnly(actions: seq<Action>, m: Option<Outbound>) {
    && (forall a :: a in actions && a.Send? ==> m == Some(a.msg))
    && (m.Some? ==> Send(m.value) in actions)
  }

  lemma ReclaimSays(r: Record, reason: CancelReason, now: int, p: Params)
    ensures SendsOnly(BeginReclaim(r, reason, now, p).actions,
                      if r.target.Some? then Some(ToTarget(r, Cancel(reason, Undefined, Undefined))) else None)
  {
    var actions := BeginReclaim(r, reason, now, p).actions;
    if r.target.Some? {
      assert actions[1] == Send(ToTarget(r, Cancel(reason, Undefined, Undefined)));
    }
  }

  lemma OfferSays(r: Record, e: Event, p: Params)
    requires Offers(r, e)
    ensures SendsOnly(Apply(r, e, p).actions, Says(r, e, p))
  {
    var actions := Apply(r, e, p).actions;
    assert actions[1] == Send(Says(r, e, p).value);
  }

  lemma CancelSays(r: Record, e: Event, p: Params)
    requires e.UserCancels?
    ensures SendsOnly(Apply(r, e, p).actions, Says(r, e, p))
  {
    var actions := Apply(r, e, p).actions;
    if Says(r, e, p).Some? {
      assert actions[1] == Send(Says(r, e, p).value);
    }
  }

  lemma RunningSays(r: Record, e: Event, p: Params)
    requires r.state.Running? && Hears(r, e)
    ensures SendsOnly(Apply(r, e, p).actions, Says(r, e, p))
  {
    var b := e.body;
    if b.Delivery? && !e.accepts {
      ReclaimSays(Note(r.(resultBody := Some(b.outcome)), Some(e.from), HAcceptanceFailed), AcceptanceFailed, e.now, p);
    } else if b.Fail? && b.retryable {
      ReclaimSays(Note(r, Some(e.from), HFailRetryable), ReclaimCancel, e.now, p);
    } else if Renews(b, e.msgId) {
      assert Apply(r, e, p).actions[2] == Send(Says(r, e, p).value);
    }
  }

  lemma MessageSays(r: Record, e: Event, p: Params)
    requires e.Message? && !IsTerminal(r.state) && !(r.state.Running? && Hears(r, e))
    ensures SendsOnly(Apply(r, e, p).actions, Says(r, e, p))
  {
    if r.target == Some(e.from) && e.attempt < r.attempt {
      assert Apply(r, e, p).actions[0] == Send(Says(r, e, p).value);
    }
  }

  lemma TimerSays(r: Record, e: Event, p: Params)
    requires e.Timer? && !IsTerminal(r.state)
    ensures SendsOnly(Apply(r, e, p).actions, Says(r, e, p))
  {
    if r.state.Offered? && Fires(r, e, OfferTtlTimer) {
      ReclaimSays(ExcludeTarget(Note(r, r.target, HExpired)), ReclaimCancel, e.now, p);
    } else if r.state.Running? && Lost(r, e) {
      ReclaimSays(ExcludeTarget(Note(r, r.target, HLost)), ReclaimCancel, e.now, p);
    }
  }

  lemma OwnerSays(r: Record, e: Event, p: Params)
    requires e.OwnerRedispatches? && !IsTerminal(r.state)
    ensures SendsOnly(Apply(r, e, p).actions, Says(r, e, p))
  {
    ReclaimSays(Note(ExcludeTarget(r), r.target, HOwnerRedispatch), ReclaimCancel, e.now, p);
  }

  /** Every event sends exactly what its cause calls for: an offer, a cancel, a stale reject, a renewal, or nothing. */
  lemma SaysExactly(r: Record, e: Event, p: Params)
    ensures SendsOnly(Apply(r, e, p).actions, Says(r, e, p))
  {
    if IsTerminal(r.state) {
      assert Apply(r, e, p).actions == [];
    } else if e.Message? {
      if r.state.Running? && Hears(r, e) {
        RunningSays(r, e, p);
      } else {
        MessageSays(r, e, p);
      }
    } else if e.Timer? {
      TimerSays(r, e, p);
    } else if e.UserCancels? {
      CancelSays(r, e, p);
    } else if e.OwnerRedispatches? {
      OwnerSays(r, e, p);
    } else if Offers(r, e) {
      OfferSays(r, e, p);
    }
  }

  // ---- What it asks for ----

  /** Asking for a target, announcing an end, and escalating, each exactly when it is due. */
  ghost predicate Asks(r: Record, e: Event, p: Params, step: Step) {
    && (forall n :: RequestDispatch(n) in step.actions <==>
          n == r.attempt + 1 && (LeadsTo(r, e, p, Drafting) || (r.state.Drafting? && e.OwnerRedispatches?)))
    && (forall s :: TerminalReached(s) in step.actions <==> IsTerminal(s) && step.rec.state == s)
    && (forall h :: Escalate(h) in step.actions <==> step.rec.state.Escalated? && h == step.rec.history)
  }

  lemma OfferedAsks(r: Record, e: Event, p: Params)
    requires Hears(r, e) && r.state.Offered?
    ensures Asks(r, e, p, Apply(r, e, p))
  {
  }

  lemma RunningResultAsks(r: Record, e: Event, p: Params)
    requires Hears(r, e) && r.state.Running? && e.body.Delivery?
    ensures Asks(r, e, p, Apply(r, e, p))
  {
  }

  lemma RunningOtherAsks(r: Record, e: Event, p: Params)
    requires Hears(r, e) && r.state.Running? && !e.body.Delivery?
    ensures Asks(r, e, p, Apply(r, e, p))
  {
  }

  lemma RunningAsks(r: Record, e: Event, p: Params)
    requires Hears(r, e) && r.state.Running?
    ensures Asks(r, e, p, Apply(r, e, p))
  {
    if e.body.Delivery? {
      RunningResultAsks(r, e, p);
    } else {
      RunningOtherAsks(r, e, p);
    }
  }

  lemma DrainingAsks(r: Record, e: Event, p: Params)
    requires Hears(r, e) && r.state.Reclaiming?
    ensures Asks(r, e, p, Apply(r, e, p))
  {
  }

  lemma ClosingAsks(r: Record, e: Event, p: Params)
    requires Hears(r, e) && !r.state.Offered? && !r.state.Running? && !r.state.Reclaiming?
    ensures Asks(r, e, p, Apply(r, e, p))
  {
  }

  lemma ClosingTimerAsks(r: Record, e: Event, p: Params)
    requires e.Timer? && !IsTerminal(r.state) && (r.state.Reclaiming? || r.state.Cancelling?)
    ensures Asks(r, e, p, Apply(r, e, p))
  {
  }

  lemma OpenTimerAsks(r: Record, e: Event, p: Params)
    requires e.Timer? && !IsTerminal(r.state) && !r.state.Reclaiming? && !r.state.Cancelling?
    ensures Asks(r, e, p, Apply(r, e, p))
  {
  }

  lemma TimerAsks(r: Record, e: Event, p: Params)
    requires e.Timer? && !IsTerminal(r.state)
    ensures Asks(r, e, p, Apply(r, e, p))
  {
    if r.state.Reclaiming? || r.state.Cancelling? {
      ClosingTimerAsks(r, e, p);
    } else {
      OpenTimerAsks(r, e, p);
    }
  }

  lemma OwnerAsks(r: Record, e: Event, p: Params)
    requires e.OwnerRedispatches? && !IsTerminal(r.state)
    ensures Asks(r, e, p, Apply(r, e, p))
  {
  }

  lemma OtherAsks(r: Record, e: Event, p: Params)
    requires (e.Dispatch? || e.Redispatch? || e.UserCancels?) && !IsTerminal(r.state)
    ensures Asks(r, e, p, Apply(r, e, p))
  {
  }

  lemma CommandAsks(r: Record, e: Event, p: Params)
    requires !e.Timer? && !e.Message? && !IsTerminal(r.state)
    ensures Asks(r, e, p, Apply(r, e, p))
  {
    if e.OwnerRedispatches? {
      OwnerAsks(r, e, p);
    } else {
      OtherAsks(r, e, p);
    }
  }

  /**
   * A new target is asked for exactly when the task comes to wait for one, or its owner asks while it waits, and for
   * the next attempt; an end is announced exactly when it is reached, an escalation with the whole history.
   */
  lemma AsksExactly(r: Record, e: Event, p: Params)
    requires !IsTerminal(r.state)
    ensures Asks(r, e, p, Apply(r, e, p))
  {
    if e.Timer? {
      TimerAsks(r, e, p);
    } else if !e.Message? {
      CommandAsks(r, e, p);
    } else if !Hears(r, e) {
      Unheard(r, e, p);
    } else if r.state.Offered? {
      OfferedAsks(r, e, p);
    } else if r.state.Running? {
      RunningAsks(r, e, p);
    } else if r.state.Reclaiming? {
      DrainingAsks(r, e, p);
    } else {
      ClosingAsks(r, e, p);
    }
  }
}
