/**
 * The lead's task machine as it runs: the fields of its record updated in place, each event returning its actions.
 * A machine's history is a run, so what is proved of runs holds of every machine.
 */
module LeadTaskMachine {
  import opened Core
  import opened Wire
  import opened Lease
  import opened LeadMachine
  import LeadRuns

  class Machine {
    const task: Uuid
    const kind: Kind
    const params: Params
    var terminal: bool
    var state: LeadState
    var attempt: int
    var target: Option<Uuid>
    var accepted: bool
    var leaseMs: int
    var failedBudget: int
    var dispatchRounds: int
    var renewalSeq: int
    var excluded: map<Uuid, Scope>
    var history: seq<HistoryEntry>
    var offerTtlUntil: Option<int>
    var leaseDeadline: Option<int>
    var drainUntil: Option<int>
    var drainClosed: bool
    var cancelWaitUntil: Option<int>
    var resultBody: Option<Outcome>
    var contract: Contract
    ghost var events: seq<Event>

    /** The record a checkpoint would store. */
    ghost function Rec(): Record
      reads this
    {
      Record(task, kind, leaseMs, state, attempt, target, accepted, failedBudget, dispatchRounds, renewalSeq, excluded,
             history, offerTtlUntil, leaseDeadline, drainUntil, drainClosed, cancelWaitUntil, resultBody, contract)
    }

    ghost predicate Latched()
      reads this
    {
      terminal == IsTerminal(state)
    }

    /** The machine is where its events lead from a fresh record. */
    ghost predicate Valid()
      reads this
    {
      Latched() && Rec() == LeadRuns.Play(Fresh(task, kind, params), events, params)
    }

    /** Part of an event: the fields and the actions are those of `step`. */
    twostate predicate Part(actions: seq<Action>, step: Step)
      reads this
    {
      Latched() && Step(Rec(), actions) == step && events == old(events)
    }

    /** A whole event. */
    twostate predicate Took(e: Event, actions: seq<Action>)
      reads this
    {
      Valid() && Step(Rec(), actions) == Apply(old(Rec()), e, params) && events == old(events) + [e]
    }

    constructor (task: Uuid, kind: Kind, params: Params)
      ensures Valid() && events == [] && Rec() == Fresh(task, kind, params)
      ensures this.task == task && this.kind == kind && this.params == params
    {
      this.task, this.kind, this.params := task, kind, params;
      terminal, state, attempt, target, accepted := false, Drafting, 0, None, false;
      leaseMs := if kind.Aid? then params.leaseMsAid else params.leaseMsProject;
      failedBudget, dispatchRounds, renewalSeq := 0, 0, 0;
      excluded, history := map[], [];
      offerTtlUntil, leaseDeadline, drainUntil, drainClosed, cancelWaitUntil := None, None, None, false, None;
      resultBody, contract := None, NoContract;
      events := [];
    }

    // ---- Shared parts ----

    method End(s: LeadState) returns (actions: seq<Action>)
      requires IsTerminal(s)
      modifies this
      ensures Part(actions, Finish(old(Rec()), s))
    {
      terminal := true;
      state := s;
      return [CancelTimers(ACTIVE_TIMERS), TerminalReached(s)];
    }

    /** The current attempt's outcome goes into the history. */
    method Push(node: Option<Uuid>, outcome: HistoryOutcome)
      modifies this`history
      ensures Rec() == Note(old(Rec()), node, outcome)
    {
      history := history + [HistoryEntry(node, attempt, outcome)];
    }

    /** The exclusion table: for good, for one round, or not at all. */
    method Bar(code: RejectCode)
      modifies this`excluded
      ensures Rec() == Exclude(old(Rec()), code)
    {
      if target.Some? && !code.Busy? {
        var scope := if code.UnsupportedCaps? || code.PolicyDenied? || code.RefusedLoop? then Permanent else Once;
        excluded := excluded[target.value := scope];
      }
    }

    method BarOnce()
      modifies this`excluded
      ensures Rec() == ExcludeTarget(old(Rec()))
    {
      if target.Some? {
        excluded := excluded[target.value := Once];
      }
    }

    method Reclaim(reason: CancelReason, now: int) returns (actions: seq<Action>)
      requires Latched() && !terminal
      modifies this
      ensures Part(actions, BeginReclaim(old(Rec()), reason, now, params))
    {
      state := Reclaiming;
      drainClosed := false;
      drainUntil := Some(now + params.drainMs);
      actions := [CancelTimers(ACTIVE_TIMERS)];
      if target.Some? {
        var cancel := Cancel(reason, Undefined, Undefined);
        actions := actions + [Send(Outbound(target.value, Some(task), Some(attempt), None, cancel))];
      }
      actions := actions + [Audit(ReclaimAudit), Schedule(DrainTimer, now + params.drainMs)];
    }

    method Count(wasAccepted: bool)
      modifies this`failedBudget, this`dispatchRounds
      ensures Rec() == if wasAccepted then old(Rec()).(failedBudget := old(failedBudget) + 1)
                       else old(Rec()).(dispatchRounds := old(dispatchRounds) + 1)
    {
      if wasAccepted {
        failedBudget := failedBudget + 1;
      } else {
        dispatchRounds := dispatchRounds + 1;
      }
    }

    method Charge(wasAccepted: bool) returns (actions: seq<Action>)
      requires Latched() && !terminal
      modifies this
      ensures Part(actions, BudgetOrEscalate(old(Rec()), params, wasAccepted))
    {
      Count(wasAccepted);
      if failedBudget >= params.maxAttempts || dispatchRounds >= params.maxDispatchRounds {
        state := Escalated;
        terminal := true;
        return [CancelTimers(ACTIVE_TIMERS), Audit(EscalateAudit), Escalate(history), TerminalReached(Escalated)];
      }
      state := Drafting;
      return [RequestDispatch(attempt + 1)];
    }

    /** The attempt belongs to a node that has not answered. */
    method Place(next: int, node: Uuid, until: int)
      modifies this`attempt, this`target, this`accepted, this`offerTtlUntil
      ensures Rec() == old(Rec()).(attempt := next, target := Some(node), accepted := false,
              offerTtlUntil := Some(until))
    {
      attempt, target, accepted := next, Some(node), false;
      offerTtlUntil := Some(until);
    }

    /** The contract of the offer, if it names one; the last attempt's drain is forgotten. */
    method Adopt(named: Contract)
      modifies this`contract, this`drainUntil, this`drainClosed
      ensures Rec() == old(Rec()).(contract := if named.NoContract? then old(contract) else named,
                                   drainUntil := None, drainClosed := false)
    {
      if !named.NoContract? {
        contract := named;
      }
      drainUntil, drainClosed := None, false;
    }

    method Offering(next: int, node: Uuid, offer: OfferBody, now: int) returns (actions: seq<Action>)
      requires Latched() && !terminal
      modifies this
      ensures Part(actions, OfferAttempt(old(Rec()), next, node, offer, now, params))
    {
      var ttl := if offer.offerTtlMs.Val? then offer.offerTtlMs.v else DefaultOfferTtlMs(kind, params);
      Place(next, node, now + ttl);
      Adopt(offer.contract);
      state := LeadState.Offered;
      return [CancelTimers(ACTIVE_TIMERS), Send(Outbound(node, Some(task), Some(attempt), None, Offer(offer))),
              Schedule(OfferTtlTimer, now + ttl)];
    }

    /** The acceptance's lease, or the one assumed so far. */
    method Lease(granted: Field<int>, now: int)
      modifies this`leaseMs, this`leaseDeadline, this`accepted
      ensures var lease := if granted.Val? then granted.v else old(leaseMs);
              Rec() == old(Rec()).(accepted := true, leaseMs := lease,
                  leaseDeadline := Some(now + LostAfterMs(lease, params)))
    {
      accepted := true;
      if granted.Val? {
        leaseMs := granted.v;
      }
      leaseDeadline := Some(now + LostAfterMs(leaseMs, params));
    }

    method WhileOffered(from: Uuid, b: Body, now: int) returns (actions: seq<Action>)
      requires Latched() && state.Offered?
      modifies this
      ensures Part(actions, OnOffered(old(Rec()), from, b, now, params))
    {
      if b.Accept? {
        Lease(b.leaseMs, now);
        state := LeadState.Running;
        Push(Some(from), HAccepted);
        return [CancelTimers(ACTIVE_TIMERS), Schedule(LeaseTimer, leaseDeadline.value)];
      }
      if b.Reject? {
        Push(Some(from), HRejected(b.code));
        Bar(b.code);
        actions := Charge(false);
        return;
      }
      return [];
    }

    method WhileRunning(from: Uuid, b: Body, now: int, msgId: Option<Uuid>, accepts: bool)
                        returns (actions: seq<Action>)
      requires Latched() && state.Running?
      modifies this
      ensures Part(actions, OnRunning(old(Rec()), from, b, now, msgId, accepts, params))
    {
      if b.Progress? {
        var deadline := now + LostAfterMs(leaseMs, params);
        leaseDeadline := Some(deadline);
        actions := [CancelTimers({LeaseTimer}), Schedule(LeaseTimer, deadline)];
        if Renews(b, msgId) {
          renewalSeq := renewalSeq + 1;
          var renewal := Renew(b.generation, b.runId, Val(msgId.value), b.seq_, Val(renewalSeq), Val(now + leaseMs));
          actions := actions + [Send(Outbound(from, Some(task), Some(attempt), msgId, renewal))];
        }
        return;
      }
      if b.Delivery? {
        resultBody := Some(b.outcome);
        Push(Some(from), if accepts then HResultDelivered else HAcceptanceFailed);
        if accepts {
          actions := End(Done);
        } else {
          actions := Reclaim(AcceptanceFailed, now);
        }
        return;
      }
      if b.Fail? {
        Push(Some(from), if b.retryable then HFailRetryable else HFailFatal);
        if b.retryable {
          actions := Reclaim(ReclaimCancel, now);
        } else {
          actions := End(Failed);
        }
        return;
      }
      return [];
    }

    /** A result while the attempt is being closed still counts, if it is acceptable. */
    method LateResult(outcome: Outcome, accepts: bool) returns (actions: seq<Action>)
      requires Latched() && !terminal
      modifies this
      ensures var r := old(Rec()).(resultBody := Some(outcome));
              Part(actions, if accepts then Finish(Note(r, r.target, HResultDelivered), Done)
                            else Nothing(Note(r, r.target, HAcceptanceFailed)))
    {
      resultBody := Some(outcome);
      Push(target, if accepts then HResultDelivered else HAcceptanceFailed);
      actions := [];
      if accepts {
        actions := End(Done);
      }
    }

    method WhileReclaiming(b: Body, accepts: bool) returns (actions: seq<Action>)
      requires Latched() && state.Reclaiming?
      modifies this
      ensures Part(actions, OnReclaiming(old(Rec()), b, accepts, params))
    {
      actions := [];
      if drainClosed {
        return;
      }
      if b.Delivery? {
        actions := LateResult(b.outcome, accepts);
      } else if b.Fail? {
        Push(target, if b.retryable then HFailRetryable else HFailFatal);
        if !b.retryable {
          actions := End(Failed);
        }
      } else if b.CancelAck? {
        drainClosed := true;
        actions := Charge(accepted);
      }
    }

    method WhileCancelling(b: Body, accepts: bool) returns (actions: seq<Action>)
      requires Latched() && state.Cancelling?
      modifies this
      ensures Part(actions, OnCancelling(old(Rec()), b, accepts))
    {
      actions := [];
      if b.Delivery? {
        actions := LateResult(b.outcome, accepts);
      } else if b.Fail? || b.CancelAck? {
        actions := End(Closed);
      }
    }

    // ---- Events ----

    method DispatchTo(node: Uuid, offer: OfferBody, now: int) returns (actions: seq<Action>)
      requires Valid()
      modifies this
      ensures Took(Dispatch(node, offer, now), actions)
    {
      LeadRuns.PlaySnoc(Fresh(task, kind, params), events, Dispatch(node, offer, now), params);
      actions := [];
      if !terminal && state.Drafting? && !offer.contract.BadContract? {
        actions := Offering(1, node, offer, now);
      }
      events := events + [Dispatch(node, offer, now)];
    }

    method RedispatchTo(node: Uuid, offer: OfferBody, now: int) returns (actions: seq<Action>)
      requires Valid()
      modifies this
      ensures Took(Redispatch(node, offer, now), actions)
    {
      LeadRuns.PlaySnoc(Fresh(task, kind, params), events, Redispatch(node, offer, now), params);
      actions := [];
      if !terminal && state.Drafting? && !offer.contract.BadContract? {
        actions := Offering(attempt + 1, node, offer, now);
      }
      events := events + [Redispatch(node, offer, now)];
    }

    /** Messages count only from the current target at the current attempt. */
    method OnMessage(from: Uuid, at: int, b: Body, now: int, msgId: Option<Uuid>, accepts: bool)
      returns (actions: seq<Action>)
      requires Valid()
      modifies this
      ensures Took(Message(from, at, b, now, msgId, accepts), actions)
    {
      LeadRuns.PlaySnoc(Fresh(task, kind, params), events, Message(from, at, b, now, msgId, accepts), params);
      actions := [];
      if terminal || Some(from) != target {
      } else if at < attempt {
        var stale := Outbound(from, Some(task), Some(attempt), None, Reject(StaleAttempt, false));
        actions := [Send(stale), Audit(StaleAttemptRejected)];
      } else if at > attempt {
        actions := [Audit(StaleAttemptRejected)];
      } else {
        actions := Heard(from, b, now, msgId, accepts);
      }
      events := events + [Message(from, at, b, now, msgId, accepts)];
    }

    method Heard(from: Uuid, b: Body, now: int, msgId: Option<Uuid>, accepts: bool) returns (actions: seq<Action>)
      requires Latched() && !terminal && target == Some(from)
      modifies this
      ensures Part(actions, LeadMachine.OnMessage(old(Rec()), from, old(attempt), b, now, msgId, accepts, params))
    {
      match state {
        case Offered => actions := WhileOffered(from, b, now);
        case Running => actions := WhileRunning(from, b, now, msgId, accepts);
        case Reclaiming => actions := WhileReclaiming(b, accepts);
        case Cancelling => actions := WhileCancelling(b, accepts);
        case _ => actions := [];
      }
    }

    method OnTimer(timer: TimerName, now: int) returns (actions: seq<Action>)
      requires Valid()
      modifies this
      ensures Took(Timer(timer, now), actions)
    {
      LeadRuns.PlaySnoc(Fresh(task, kind, params), events, Timer(timer, now), params);
      actions := [];
      if !terminal {
        actions := Fired(timer, now);
      }
      events := events + [Timer(timer, now)];
    }

    method Fired(timer: TimerName, now: int) returns (actions: seq<Action>)
      requires Latched() && !terminal
      modifies this
      ensures Part(actions, LeadMachine.OnTimer(old(Rec()), timer, now, params))
    {
      actions := [];
      match timer {
        case OfferTtlTimer =>
          if state.Offered? {
            Push(target, HExpired);
            BarOnce();
            actions := Reclaim(ReclaimCancel, now);
          }
        case LeaseTimer =>
          if state.Running? {
            if leaseDeadline.Some? && now < leaseDeadline.value {
              return [Schedule(LeaseTimer, leaseDeadline.value)];
            }
            Push(target, HLost);
            BarOnce();
            var rest := Reclaim(ReclaimCancel, now);
            actions := [Audit(ReclaimAudit)] + rest;
          }
        case DrainTimer =>
          if state.Reclaiming? && !drainClosed {
            drainClosed := true;
            actions := Charge(accepted);
          }
        case CancelWaitTimer =>
          if state.Cancelling? {
            actions := End(Closed);
          }
      }
    }

    method CancelByUser(now: int) returns (actions: seq<Action>)
      requires Valid()
      modifies this
      ensures Took(UserCancels(now), actions)
    {
      LeadRuns.PlaySnoc(Fresh(task, kind, params), events, UserCancels(now), params);
      actions := [];
      if !terminal && !state.Cancelling? {
        actions := Cancelled(now);
      }
      events := events + [UserCancels(now)];
    }

    method Cancelled(now: int) returns (actions: seq<Action>)
      requires Latched() && !terminal && !state.Cancelling?
      modifies this
      ensures Part(actions, LeadMachine.CancelByUser(old(Rec()), now, params))
    {
      cancelWaitUntil, state := Some(now + params.cancelWaitMs), LeadState.Cancelling;
      actions := [CancelTimers(ACTIVE_TIMERS)];
      if target.Some? {
        var cancel := Cancel(UserCancel, Undefined, Undefined);
        actions := actions + [Send(Outbound(target.value, Some(task), Some(attempt), None, cancel))];
      }
      actions := actions + [Schedule(CancelWaitTimer, now + params.cancelWaitMs)];
    }

    method RedispatchByOwner(now: int) returns (actions: seq<Action>)
      requires Valid()
      modifies this
      ensures Took(OwnerRedispatches(now), actions)
    {
      LeadRuns.PlaySnoc(Fresh(task, kind, params), events, OwnerRedispatches(now), params);
      actions := [];
      if !terminal && !state.Cancelling? && !state.Reclaiming? {
        BarOnce();
        if state.Drafting? {
          actions := [RequestDispatch(attempt + 1)];
        } else {
          Push(target, HOwnerRedispatch);
          actions := Reclaim(ReclaimCancel, now);
        }
      }
      events := events + [OwnerRedispatches(now)];
    }
  }

  /**
   * Whatever calls a machine has had, with dispatchTo as its first dispatch only: the offers it made are bounded,
   * one followed another only after a cancel or a rejection, and its budgets account for its attempt.
   */
  lemma EveryMachineKeepsItsBudget(m: Machine)
    requires m.Valid() && m.params.maxAttempts >= 1 && m.params.maxDispatchRounds >= 1
    requires LeadRuns.Disciplined(Fresh(m.task, m.kind, m.params), m.events, m.params)
    ensures LeadRuns.RunInv(m.Rec(), m.params)
    ensures var shown := LeadRuns.Log(Fresh(m.task, m.kind, m.params), m.events, m.params);
            && LeadRuns.CancelFirst(shown)
            && LeadRuns.Offers(shown) <= m.params.maxAttempts + m.params.maxDispatchRounds - 1
  {
    LeadRuns.RunTracks(m.task, m.kind, m.events, m.params);
    LeadRuns.OffersBounded(m.task, m.kind, m.events, m.params);
  }
}
