/** Timers rebuilt after a restart against timers that were never interrupted. */
module LeadTimers {
  import opened Core
  import opened Wire
  import opened Lease
  import opened LeadMachine

  /** The timers a restarted process re-arms from the record alone. */
  function PendingTimers(r: Record): map<TimerName, int> {
    if r.state.Offered? && r.offerTtlUntil.Some? then map[OfferTtlTimer := r.offerTtlUntil.value]
    else if r.state.Running? && r.leaseDeadline.Some? then map[LeaseTimer := r.leaseDeadline.value]
    else if r.state.Reclaiming? && !r.drainClosed && r.drainUntil.Some? then map[DrainTimer := r.drainUntil.value]
    else if r.state.Cancelling? && r.cancelWaitUntil.Some? then map[CancelWaitTimer := r.cancelWaitUntil.value]
    else map[]
  }

  /** The timer a poll of the record fires at `now`, if any. */
  function DueTimer(r: Record, now: int): Option<TimerName> {
    if r.state.Offered? && r.offerTtlUntil.Some? && now >= r.offerTtlUntil.value then Some(OfferTtlTimer)
    else if r.state.Running? && r.leaseDeadline.Some? && now >= r.leaseDeadline.value then Some(LeaseTimer)
    else if r.state.Reclaiming? && !r.drainClosed && r.drainUntil.Some? && now >= r.drainUntil.value
        then Some(DrainTimer)
    else if r.state.Cancelling? && r.cancelWaitUntil.Some? && now >= r.cancelWaitUntil.value then Some(CancelWaitTimer)
    else None
  }

  /** Polling fires a timer exactly when the rebuilt one is due. */
  lemma DueIffRebuiltIsDue(r: Record, now: int, t: TimerName)
    ensures DueTimer(r, now) == Some(t) <==> t in PendingTimers(r) && PendingTimers(r)[t] <= now
  {
  }

  function ArmOne(armed: map<TimerName, int>, a: Action): map<TimerName, int> {
    match a
    case Schedule(timer, at) => armed[timer := at]
    case CancelTimers(timers) => armed - timers
    case _ => armed
  }

  /** Timers of a process that carries out every action in order. */
  function Arm(armed: map<TimerName, int>, actions: seq<Action>): map<TimerName, int>
    decreases |actions|
  {
    if actions == [] then armed else Arm(ArmOne(armed, actions[0]), actions[1..])
  }

  /** A firing timer is no longer armed; then its actions apply. */
  function Rearm(armed: map<TimerName, int>, e: Event, actions: seq<Action>): map<TimerName, int> {
    Arm(if e.Timer? then armed - {e.timer} else armed, actions)
  }

  predicate HasDeadlines(r: Record) {
    && (r.state.Offered? ==> r.offerTtlUntil.Some?)
    && (r.state.Running? ==> r.leaseDeadline.Some?)
    && (r.state.Reclaiming? ==> r.drainUntil.Some? && !r.drainClosed)
    && (r.state.Cancelling? ==> r.cancelWaitUntil.Some?)
  }

  /** The armed timers are the rebuilt ones; only a drafting task may have stale ones besides. */
  predicate InStep(r: Record, armed: map<TimerName, int>) {
    HasDeadlines(r) && (r.state.Drafting? || armed == PendingTimers(r))
  }

  lemma {:induction false} ArmConcat(armed: map<TimerName, int>, a: seq<Action>, b: seq<Action>)
    ensures Arm(armed, a + b) == Arm(Arm(armed, a), b)
    decreases |a|
  {
    if a == [] {
      assert a + b == b;
    } else {
      ArmConcat(ArmOne(armed, a[0]), a[1..], b);
      assert (a + b)[1..] == a[1..] + b;
    }
  }

  lemma {:induction false} ArmIdle(armed: map<TimerName, int>, actions: seq<Action>)
    requires forall i :: 0 <= i < |actions| ==> !actions[i].Schedule? && !actions[i].CancelTimers?
    ensures Arm(armed, actions) == armed
    decreases |actions|
  {
    if actions != [] {
      ArmIdle(armed, actions[1..]);
    }
  }

  lemma CancelAll(armed: map<TimerName, int>)
    ensures armed - ACTIVE_TIMERS == map[]
  {
    forall t: TimerName ensures t in ACTIVE_TIMERS {
      match t {
        case OfferTtlTimer =>
        case LeaseTimer =>
        case DrainTimer =>
        case CancelWaitTimer =>
      }
    }
  }

  /** Cancelling everything and scheduling one timer leaves exactly that timer. */
  lemma ArmAfresh(armed: map<TimerName, int>, mid: seq<Action>, timer: TimerName, at: int)
    requires forall i :: 0 <= i < |mid| ==> !mid[i].Schedule? && !mid[i].CancelTimers?
    ensures Arm(armed, [CancelTimers(ACTIVE_TIMERS)] + mid + [Schedule(timer, at)]) == map[timer := at]
  {
    var head, tail := [CancelTimers(ACTIVE_TIMERS)], [Schedule(timer, at)];
    ArmConcat(armed, head + mid, tail);
    ArmConcat(armed, head, mid);
    assert Arm(armed, head) == Arm(armed - ACTIVE_TIMERS, []) by {
      assert head[1..] == [];
    }
    CancelAll(armed);
    ArmIdle(map[], mid);
    assert tail[1..] == [];
    assert Arm(map[], tail) == Arm(map[][timer := at], []);
  }

  /** Ending a task leaves no timer. */
  lemma ArmNone(armed: map<TimerName, int>, rest: seq<Action>)
    requires forall i :: 0 <= i < |rest| ==> !rest[i].Schedule? && !rest[i].CancelTimers?
    ensures Arm(armed, [CancelTimers(ACTIVE_TIMERS)] + rest) == map[]
  {
    ArmConcat(armed, [CancelTimers(ACTIVE_TIMERS)], rest);
    assert [CancelTimers(ACTIVE_TIMERS)][1..] == [];
    CancelAll(armed);
    ArmIdle(map[], rest);
  }

  lemma FinishInStep(r: Record, s: LeadState, armed: map<TimerName, int>)
    requires IsTerminal(s)
    ensures var f := Finish(r, s); InStep(f.rec, Arm(armed, f.actions))
  {
    ArmNone(armed, [TerminalReached(s)]);
    assert Finish(r, s).actions == [CancelTimers(ACTIVE_TIMERS)] + [TerminalReached(s)];
  }

  lemma ReclaimInStep(r: Record, reason: CancelReason, now: int, p: Params, armed: map<TimerName, int>)
    ensures var b := BeginReclaim(r, reason, now, p); InStep(b.rec, Arm(armed, b.actions))
    ensures var b := BeginReclaim(r, reason, now, p); InStep(b.rec, Arm(armed, [Audit(ReclaimAudit)] + b.actions))
  {
    var b := BeginReclaim(r, reason, now, p);
    var mid := (if r.target.Some? then [Out(b.rec, r.target.value, Cancel(reason, Undefined, Undefined), None)] else [])
               + [Audit(ReclaimAudit)];
    assert b.actions == [CancelTimers(ACTIVE_TIMERS)] + mid + [Schedule(DrainTimer, now + p.drainMs)];
    ArmAfresh(armed, mid, DrainTimer, now + p.drainMs);
    ArmConcat(armed, [Audit(ReclaimAudit)], b.actions);
    ArmIdle(armed, [Audit(ReclaimAudit)]);
  }

  lemma BudgetInStep(r: Record, p: Params, accepted: bool, armed: map<TimerName, int>)
    ensures var b := BudgetOrEscalate(r, p, accepted); InStep(b.rec, Arm(armed, b.actions))
  {
    var b := BudgetOrEscalate(r, p, accepted);
    if b.rec.state.Escalated? {
      assert b.actions == [CancelTimers(ACTIVE_TIMERS)] + b.actions[1..];
      ArmNone(armed, b.actions[1..]);
    }
  }

  lemma OfferInStep(r: Record, attempt: int, target: Uuid, offer: OfferBody, now: int, p: Params, armed: map<TimerName,
                    int>)
    ensures var s := OfferAttempt(r, attempt, target, offer, now, p); InStep(s.rec, Arm(armed, s.actions))
  {
    var s := OfferAttempt(r, attempt, target, offer, now, p);
    ArmAfresh(armed, [s.actions[1]], OfferTtlTimer, s.rec.offerTtlUntil.value);
    assert s.actions == [CancelTimers(ACTIVE_TIMERS)] + [s.actions[1]] + [Schedule(OfferTtlTimer,
        s.rec.offerTtlUntil.value)];
  }

  lemma OfferedInStep(r: Record, from: Uuid, b: Body, now: int, p: Params, armed: map<TimerName, int>)
    requires InStep(r, armed) && r.state.Offered?
    ensures var s := OnOffered(r, from, b, now, p); InStep(s.rec, Arm(armed, s.actions))
  {
    if b.Accept? {
      var s := OnOffered(r, from, b, now, p);
      ArmAfresh(armed, [], LeaseTimer, s.rec.leaseDeadline.value);
      assert s.actions == [CancelTimers(ACTIVE_TIMERS)] + [] + [Schedule(LeaseTimer, s.rec.leaseDeadline.value)];
    } else if b.Reject? {
      BudgetInStep(Exclude(Note(r, Some(from), HRejected(b.code)), b.code), p, false, armed);
    }
  }

  lemma ProgressInStep(r: Record, from: Uuid, b: Body, now: int, msgId: Option<Uuid>, accepts: bool, p: Params,
                       armed: map<TimerName, int>)
    requires InStep(r, armed) && r.state.Running? && b.Progress?
    ensures var s := OnRunning(r, from, b, now, msgId, accepts, p); InStep(s.rec, Arm(armed, s.actions))
  {
    var s := OnRunning(r, from, b, now, msgId, accepts, p);
    var deadline := s.rec.leaseDeadline.value;
    var head, mid := [CancelTimers({LeaseTimer})], [Schedule(LeaseTimer, deadline)];
    var tail := s.actions[2..];
    assert s.actions == head + mid + tail;
    ArmConcat(armed, head + mid, tail);
    ArmConcat(armed, head, mid);
    assert head[1..] == [] && mid[1..] == [];
    assert armed - {LeaseTimer} == map[];
    assert Arm(armed, head) == Arm(ArmOne(armed, head[0]), head[1..]) == map[];
    assert Arm(map[], mid) == Arm(ArmOne(map[], mid[0]), mid[1..]) == map[LeaseTimer := deadline];
    ArmIdle(map[LeaseTimer := deadline], tail);
  }

  lemma RunningInStep(r: Record, from: Uuid, b: Body, now: int, msgId: Option<Uuid>, accepts: bool, p: Params,
                      armed: map<TimerName, int>)
    requires InStep(r, armed) && r.state.Running?
    ensures var s := OnRunning(r, from, b, now, msgId, accepts, p); InStep(s.rec, Arm(armed, s.actions))
  {
    if b.Progress? {
      ProgressInStep(r, from, b, now, msgId, accepts, p, armed);
    } else if b.Delivery? {
      var kept := r.(resultBody := Some(b.outcome));
      FinishInStep(Note(kept, Some(from), HResultDelivered), Done, armed);
      ReclaimInStep(Note(kept, Some(from), HAcceptanceFailed), AcceptanceFailed, now, p, armed);
    } else if b.Fail? {
      FinishInStep(Note(r, Some(from), HFailFatal), Failed, armed);
      ReclaimInStep(Note(r, Some(from), HFailRetryable), ReclaimCancel, now, p, armed);
    }
  }

  lemma ClosingInStep(r: Record, b: Body, accepts: bool, p: Params, armed: map<TimerName, int>)
    requires InStep(r, armed) && (r.state.Reclaiming? || r.state.Cancelling?)
    ensures r.state.Reclaiming? ==> var s := OnReclaiming(r, b, accepts, p); InStep(s.rec, Arm(armed, s.actions))
    ensures r.state.Cancelling? ==> var s := OnCancelling(r, b, accepts); InStep(s.rec, Arm(armed, s.actions))
  {
    if b.Delivery? {
      FinishInStep(Note(r.(resultBody := Some(b.outcome)), r.target, HResultDelivered), Done, armed);
    }
    FinishInStep(Note(r, r.target, HFailFatal), Failed, armed);
    FinishInStep(r, Closed, armed);
    BudgetInStep(r.(drainClosed := true), p, r.accepted, armed);
  }

  lemma MessageInStep(r: Record, e: Event, p: Params, armed: map<TimerName, int>)
    requires InStep(r, armed) && e.Message?
    ensures var s := Apply(r, e, p); InStep(s.rec, Arm(armed, s.actions))
  {
    if IsTerminal(r.state) || Some(e.from) != r.target || e.attempt != r.attempt || r.state.Drafting? {
      ArmIdle(armed, Apply(r, e, p).actions);
    } else {
      match r.state
      case Offered => OfferedInStep(r, e.from, e.body, e.now, p, armed);
      case Running => RunningInStep(r, e.from, e.body, e.now, e.msgId, e.accepts, p, armed);
      case Reclaiming => ClosingInStep(r, e.body, e.accepts, p, armed);
      case Cancelling => ClosingInStep(r, e.body, e.accepts, p, armed);
      case _ =>
    }
  }

  lemma TimerInStep(r: Record, timer: TimerName, now: int, p: Params, armed: map<TimerName, int>)
    requires InStep(r, armed) && timer in armed
    ensures var s := OnTimer(r, timer, now, p); InStep(s.rec, Arm(armed - {timer}, s.actions))
  {
    var left := armed - {timer};
    if r.state.Offered? {
      ReclaimInStep(ExcludeTarget(Note(r, r.target, HExpired)), ReclaimCancel, now, p, left);
    } else if r.state.Running? {
      if now < r.leaseDeadline.value {
        var again := [Schedule(LeaseTimer, r.leaseDeadline.value)];
        assert again[1..] == [];
        assert Arm(left, again) == Arm(ArmOne(left, again[0]), []);
        assert left[LeaseTimer := r.leaseDeadline.value] == armed;
      } else {
        ReclaimInStep(ExcludeTarget(Note(r, r.target, HLost)), ReclaimCancel, now, p, left);
      }
    } else if r.state.Reclaiming? {
      BudgetInStep(r.(drainClosed := true), p, r.accepted, left);
    } else if r.state.Cancelling? {
      FinishInStep(r, Closed, left);
    }
  }

  lemma CommandInStep(r: Record, e: Event, p: Params, armed: map<TimerName, int>)
    requires InStep(r, armed) && !e.Message? && !e.Timer?
    ensures var s := Apply(r, e, p); InStep(s.rec, Arm(armed, s.actions))
  {
    match e
    case Dispatch(target, offer, now) => OfferInStep(r, 1, target, offer, now, p, armed);
    case Redispatch(target, offer, now) => OfferInStep(r, r.attempt + 1, target, offer, now, p, armed);
    case UserCancels(now) =>
      var s := CancelByUser(r, now, p);
      if s.actions != [] {
        var mid := s.actions[1..|s.actions| - 1];
        ArmAfresh(armed, mid, CancelWaitTimer, now + p.cancelWaitMs);
        assert s.actions == [CancelTimers(ACTIVE_TIMERS)] + mid + [Schedule(CancelWaitTimer, now + p.cancelWaitMs)];
      }
    case OwnerRedispatches(now) =>
      if r.state.Drafting? {
        ArmIdle(armed, Apply(r, e, p).actions);
      } else {
        ReclaimInStep(Note(ExcludeTarget(r), r.target, HOwnerRedispatch), ReclaimCancel, now, p, armed);
      }
  }

  /** Every event keeps the armed timers in step with the record; a timer event fires an armed timer. */
  lemma StepInStep(r: Record, e: Event, p: Params, armed: map<TimerName, int>)
    requires InStep(r, armed) && (e.Timer? ==> e.timer in armed)
    ensures var s := Apply(r, e, p); InStep(s.rec, Rearm(armed, e, s.actions))
  {
    match e
    case Message(_, _, _, _, _, _) => MessageInStep(r, e, p, armed);
    case Timer(timer, now) => TimerInStep(r, timer, now, p, armed);
    case _ => CommandInStep(r, e, p, armed);
  }

  /** A run that carries its timers along: each timer event fires a timer armed at that point. */
  datatype Live = Live(rec: Record, armed: map<TimerName, int>)

  function Play(l: Live, es: seq<Event>, p: Params): Live {
    if es == [] then l
    else
      var before := Play(l, es[..|es| - 1], p);
      var s := Apply(before.rec, es[|es| - 1], p);
      Live(s.rec, Rearm(before.armed, es[|es| - 1], s.actions))
  }

  ghost predicate FiresArmed(l: Live, es: seq<Event>, p: Params) {
    forall k :: 0 <= k < |es| && es[k].Timer? ==> es[k].timer in Play(l, es[..k], p).armed
  }

  lemma {:induction false} RunInStep(task: Uuid, kind: Kind, es: seq<Event>, p: Params)
    requires FiresArmed(Live(Fresh(task, kind, p), map[]), es, p)
    ensures var l := Play(Live(Fresh(task, kind, p), map[]), es, p); InStep(l.rec, l.armed)
  {
    var l0 := Live(Fresh(task, kind, p), map[]);
    if es != [] {
      var before := es[..|es| - 1];
      assert FiresArmed(l0, before, p) by {
        forall k | 0 <= k < |before| && before[k].Timer? ensures before[k].timer in Play(l0, before[..k], p).armed {
          assert before[..k] == es[..k];
        }
      }
      RunInStep(task, kind, before, p);
      var l := Play(l0, before, p);
      StepInStep(l.rec, es[|es| - 1], p, l.armed);
    }
  }

  /** Firing a timer that the record would not rebuild does nothing, at any time. */
  lemma StaleTimerIsNoop(r: Record, armed: map<TimerName, int>, t: TimerName, now: int, p: Params)
    requires InStep(r, armed) && t in armed && t !in PendingTimers(r)
    ensures OnTimer(r, t, now, p) == Nothing(r)
  {
  }

  /** A rebuilt timer does something when it fires at its deadline. */
  lemma RebuiltTimerActs(r: Record, t: TimerName, p: Params)
    requires t in PendingTimers(r)
    ensures OnTimer(r, t, PendingTimers(r)[t], p) != Nothing(r)
  {
  }

  /**
   * Restart equivalence: after any run, the armed timers that can still do something are exactly those a
   * restarted process rebuilds from the record, at the same deadlines.
   */
  lemma RestartEquivalence(task: Uuid, kind: Kind, es: seq<Event>, p: Params, t: TimerName, at: int)
    requires FiresArmed(Live(Fresh(task, kind, p), map[]), es, p)
    ensures var l := Play(Live(Fresh(task, kind, p), map[]), es, p);
            (t in l.armed && l.armed[t] == at && exists now :: OnTimer(l.rec, t, now, p) != Nothing(l.rec))
            <==> (t in PendingTimers(l.rec) && PendingTimers(l.rec)[t] == at)
  {
    RunInStep(task, kind, es, p);
    var l := Play(Live(Fresh(task, kind, p), map[]), es, p);
    if t in PendingTimers(l.rec) {
      RebuiltTimerActs(l.rec, t, p);
    } else if t in l.armed {
      forall now ensures OnTimer(l.rec, t, now, p) == Nothing(l.rec) {
        StaleTimerIsNoop(l.rec, l.armed, t, now, p);
      }
    }
  }
}
