/** The lead's durable tasks: what a stored task must satisfy, when events keep it so, and takeover. */
module LeadTasks {
  import opened Core
  import opened Wire
  import opened Lease
  import L = LeadMachine
  import LeadRuns

  /** A durable task: the machine's record and its report sequence. */
  datatype Task = Task(rec: L.Record, taskSeq: int)

  predicate OptionalDeadline(d: Option<int>) {
    d.None? || Positive(d.value)
  }

  /** What decoding demands on every read; a task that fails it faults the lead. */
  predicate ValidTask(t: Task) {
    var r := t.rec;
    && Nonnegative(t.taskSeq) && (r.kind.Aid? || r.kind.Project?) && Nonnegative(r.attempt) && Positive(r.leaseMs)
    && Nonnegative(r.failedBudget) && Nonnegative(r.dispatchRounds) && Nonnegative(r.renewalSeq)
    && OptionalDeadline(r.offerTtlUntil) && OptionalDeadline(r.leaseDeadline)
    && OptionalDeadline(r.drainUntil) && OptionalDeadline(r.cancelWaitUntil)
    && !r.contract.BadContract?
    && if r.attempt == 0 then r.state.Drafting? && r.target.None? && t.taskSeq == 0
       else r.target.Some? && t.taskSeq >= 1
  }

  /** The machine after one event; a dispatch it asks for is answered at once when a target is available. */
  function Driven(r: L.Record, e: L.Event, select: Option<(Uuid, OfferBody)>, p: Params): L.Record {
    var s := L.Apply(r, e, p);
    if Asks(s) && select.Some? then L.RedispatchTo(s.rec, select.value.0, select.value.1, e.now, p).rec else s.rec
  }

  /** The stored task after one event: the report sequence counts net changes of state. */
  function RunEvent(t: Task, e: L.Event, select: Option<(Uuid, OfferBody)>, p: Params): Task {
    var rec := Driven(t.rec, e, select, p);
    Task(rec, if rec.state != t.rec.state then t.taskSeq + 1 else t.taskSeq)
  }

  predicate ValidParams(p: Params) {
    && Positive(p.leaseMsAid) && Positive(p.leaseMsProject) && p.graceMs >= 0 && p.drainMs >= 0 && p.cancelWaitMs >= 0
    && p.offerTtlMsAid >= 0 && p.offerTtlMsProject >= 0
  }

  /** The clock and the counters have room for one more event. */
  predicate Room(r: L.Record, now: int, p: Params) {
    && now >= 1 && Safe(now + p.drainMs) && Safe(now + p.cancelWaitMs)
    && Safe(r.attempt + 1) && Safe(r.failedBudget + 1) && Safe(r.dispatchRounds + 1)
    && Safe(r.renewalSeq + 1) && Safe(now + LostAfterMs(r.leaseMs, p))
  }

  /** Fields every event leaves in range, before the reports are counted. */
  predicate ValidRecord(r: L.Record) {
    && (r.kind.Aid? || r.kind.Project?) && Nonnegative(r.attempt) && Positive(r.leaseMs)
    && Nonnegative(r.failedBudget) && Nonnegative(r.dispatchRounds) && Nonnegative(r.renewalSeq)
    && OptionalDeadline(r.offerTtlUntil) && OptionalDeadline(r.leaseDeadline)
    && OptionalDeadline(r.drainUntil) && OptionalDeadline(r.cancelWaitUntil)
    && !r.contract.BadContract?
    && if r.attempt == 0 then r.state.Drafting? && r.target.None? else r.target.Some?
  }

  // ---- The three events that can write a task that decoding refuses ----

  predicate CancelsUndispatched(r: L.Record, e: L.Event) {
    e.UserCancels? && r.attempt == 0
  }

  /** The open offer is accepted with a lease that is not positive or puts the deadline out of range. */
  predicate AcceptsBadLease(r: L.Record, e: L.Event, p: Params) {
    && e.Message? && r.state.Offered? && r.target == Some(e.from) && e.attempt == r.attempt
    && e.body.Accept? && e.body.leaseMs.Val?
    && !(Positive(e.body.leaseMs.v) && Positive(e.now + LostAfterMs(e.body.leaseMs.v, p)))
  }

  predicate RejectsOpen(r: L.Record, e: L.Event) {
    e.Message? && e.body.Reject? && r.state.Offered? && r.target == Some(e.from) && e.attempt == r.attempt
  }

  predicate ClosesDrain(r: L.Record, e: L.Event) {
    && r.state.Reclaiming? && !r.drainClosed
    && ((e.Message? && e.body.CancelAck? && r.target == Some(e.from) && e.attempt == r.attempt) ||
        (e.Timer? && e.timer.DrainTimer?))
  }

  predicate RoundLeft(r: L.Record, accepted: bool, p: Params) {
    && r.failedBudget + (if accepted then 1 else 0) < p.maxAttempts
    && r.dispatchRounds + (if accepted then 0 else 1) < p.maxDispatchRounds
  }

  /** The event asks for a target: an attempt ended within budget, or the owner wants another node. */
  predicate AsksFor(r: L.Record, e: L.Event, p: Params) {
    || (RejectsOpen(r, e) && RoundLeft(r, false, p))
    || (ClosesDrain(r, e) && RoundLeft(r, r.accepted, p))
    || (e.OwnerRedispatches? && r.state.Drafting?)
  }

  /** An offer is made whose deadline is not a positive safe integer, by the caller or by the selector. */
  predicate OffersBadTtl(r: L.Record, e: L.Event, select: Option<(Uuid, OfferBody)>, p: Params) {
    || ((e.Dispatch? || e.Redispatch?) && r.state.Drafting? && !e.offer.contract.BadContract?
        && !Positive(e.now + L.OfferTtl(r, e.offer, p)))
    || (AsksFor(r, e, p) && select.Some? && !select.value.1.contract.BadContract?
        && !Positive(e.now + L.OfferTtl(r, select.value.1, p)))
  }

  lemma ReclaimKeepsRecord(r: L.Record, reason: CancelReason, now: int, p: Params)
    requires ValidRecord(r) && r.attempt >= 1 && ValidParams(p) && Room(r, now, p)
    ensures ValidRecord(L.BeginReclaim(r, reason, now, p).rec)
  {
  }

  lemma BudgetKeepsRecord(r: L.Record, p: Params, accepted: bool)
    requires ValidRecord(r) && r.attempt >= 1 && Safe(r.failedBudget + 1) && Safe(r.dispatchRounds + 1)
    ensures ValidRecord(L.BudgetOrEscalate(r, p, accepted).rec)
  {
  }

  lemma OfferedKeepsRecord(r: L.Record, from: Uuid, b: Body, now: int, p: Params)
    requires ValidRecord(r) && r.state.Offered? && ValidParams(p) && Room(r, now, p)
    requires b.Accept? && b.leaseMs.Val? ==> Positive(b.leaseMs.v) && Positive(now + LostAfterMs(b.leaseMs.v, p))
    ensures ValidRecord(L.OnOffered(r, from, b, now, p).rec)
  {
    if b.Reject? {
      BudgetKeepsRecord(L.Exclude(L.Note(r, Some(from), L.HRejected(b.code)), b.code), p, false);
    }
  }

  lemma RunningKeepsRecord(r: L.Record, from: Uuid, b: Body, now: int, id: Option<Uuid>, accepts: bool, p: Params)
    requires ValidRecord(r) && r.state.Running? && ValidParams(p) && Room(r, now, p)
    ensures ValidRecord(L.OnRunning(r, from, b, now, id, accepts, p).rec)
  {
    if b.Delivery? && !accepts {
      ReclaimKeepsRecord(L.Note(r.(resultBody := Some(b.outcome)), Some(from), L.HAcceptanceFailed), AcceptanceFailed,
          now, p);
    } else if b.Fail? && b.retryable {
      ReclaimKeepsRecord(L.Note(r, Some(from), L.HFailRetryable), ReclaimCancel, now, p);
    }
  }

  lemma ReclaimingKeepsRecord(r: L.Record, b: Body, accepts: bool, p: Params)
    requires ValidRecord(r) && r.state.Reclaiming? && Safe(r.failedBudget + 1) && Safe(r.dispatchRounds + 1)
    ensures ValidRecord(L.OnReclaiming(r, b, accepts, p).rec)
  {
    if !r.drainClosed && b.CancelAck? {
      BudgetKeepsRecord(r.(drainClosed := true), p, r.accepted);
    } else {
      var s := L.OnReclaiming(r, b, accepts, p).rec;
      assert s.(state := r.state, resultBody := r.resultBody, history := r.history) == r;
    }
  }

  lemma CancellingKeepsRecord(r: L.Record, b: Body, accepts: bool)
    requires ValidRecord(r) && r.state.Cancelling?
    ensures ValidRecord(L.OnCancelling(r, b, accepts).rec)
  {
  }

  lemma MessageKeepsRecord(r: L.Record, e: L.Event, p: Params)
    requires ValidRecord(r) && ValidParams(p) && Room(r, e.now, p) && e.Message? && !AcceptsBadLease(r, e, p)
    ensures ValidRecord(L.Apply(r, e, p).rec)
  {
    if L.IsTerminal(r.state) || r.target != Some(e.from) || e.attempt != r.attempt || r.state.Drafting? {
      assert L.Apply(r, e, p).rec == r;
    } else if r.state.Offered? {
      OfferedKeepsRecord(r, e.from, e.body, e.now, p);
    } else if r.state.Running? {
      RunningKeepsRecord(r, e.from, e.body, e.now, e.msgId, e.accepts, p);
    } else if r.state.Reclaiming? {
      ReclaimingKeepsRecord(r, e.body, e.accepts, p);
    } else {
      CancellingKeepsRecord(r, e.body, e.accepts);
    }
  }

  lemma TimerKeepsRecord(r: L.Record, timer: L.TimerName, now: int, p: Params)
    requires ValidRecord(r) && ValidParams(p) && Room(r, now, p)
    ensures ValidRecord(L.OnTimer(r, timer, now, p).rec)
  {
    if r.attempt >= 1 {
      ReclaimKeepsRecord(L.ExcludeTarget(L.Note(r, r.target, L.HExpired)), ReclaimCancel, now, p);
      ReclaimKeepsRecord(L.ExcludeTarget(L.Note(r, r.target, L.HLost)), ReclaimCancel, now, p);
      BudgetKeepsRecord(r.(drainClosed := true), p, r.accepted);
    }
  }

  lemma CommandKeepsRecord(r: L.Record, e: L.Event, p: Params)
    requires ValidRecord(r) && ValidParams(p) && Room(r, e.now, p) && !e.Message? && !e.Timer?
    requires !CancelsUndispatched(r, e) && !OffersBadTtl(r, e, None, p)
    ensures ValidRecord(L.Apply(r, e, p).rec)
  {
    if e.OwnerRedispatches? && r.attempt >= 1 {
      ReclaimKeepsRecord(L.Note(L.ExcludeTarget(r), r.target, L.HOwnerRedispatch), ReclaimCancel, e.now, p);
    }
  }

  lemma EventKeepsRecord(r: L.Record, e: L.Event, p: Params)
    requires ValidRecord(r) && ValidParams(p) && Room(r, e.now, p)
    requires !AcceptsBadLease(r, e, p) && !CancelsUndispatched(r, e) && !OffersBadTtl(r, e, None, p)
    ensures ValidRecord(L.Apply(r, e, p).rec)
  {
    if e.Message? {
      MessageKeepsRecord(r, e, p);
    } else if e.Timer? {
      TimerKeepsRecord(r, e.timer, e.now, p);
    } else {
      CommandKeepsRecord(r, e, p);
    }
  }

  /** An answered request keeps the record valid too. */
  lemma RedispatchKeepsRecord(r: L.Record, target: Uuid, offer: OfferBody, now: int, p: Params)
    requires ValidRecord(r) && Safe(r.attempt + 1) && Positive(now + L.OfferTtl(r, offer, p))
    ensures ValidRecord(L.RedispatchTo(r, target, offer, now, p).rec)
  {
  }

  /** Only dispatches move the attempt. */
  lemma OnlyDispatchesMove(r: L.Record, e: L.Event, p: Params)
    ensures L.Apply(r, e, p).rec.kind == r.kind && L.Apply(r, e, p).rec.task == r.task
    ensures !e.Dispatch? && !e.Redispatch? ==> L.Apply(r, e, p).rec.attempt == r.attempt
  {
    if e.Message? {
      MessagesStay(r, e, p);
    }
  }

  lemma MessagesStay(r: L.Record, e: L.Event, p: Params)
    requires e.Message?
    ensures Stays(r, L.Apply(r, e, p).rec)
  {
    ClosingStays(r, e.body, e.accepts, p);
    RunningStays(r, e.from, e.body, e.now, e.msgId, e.accepts, p);
  }

  predicate Stays(r: L.Record, s: L.Record) {
    s.attempt == r.attempt && s.kind == r.kind && s.task == r.task
  }

  lemma ClosingStays(r: L.Record, b: Body, accepts: bool, p: Params)
    ensures Stays(r, L.OnReclaiming(r, b, accepts, p).rec) && Stays(r, L.OnCancelling(r, b, accepts).rec)
  {
  }

  lemma RunningStays(r: L.Record, from: Uuid, b: Body, now: int, id: Option<Uuid>, accepts: bool, p: Params)
    ensures Stays(r, L.OnRunning(r, from, b, now, id, accepts, p).rec) && Stays(r, L.OnOffered(r, from, b, now, p).rec)
  {
  }

  /** A dispatch asks for no further dispatch. */
  lemma DispatchAsksNothing(r: L.Record, e: L.Event, p: Params)
    requires e.Dispatch? || e.Redispatch?
    ensures forall a :: a in L.Apply(r, e, p).actions ==> !a.RequestDispatch?
  {
  }

  // ---- Which events ask for a target ----

  predicate Asks(s: L.Step) {
    exists a :: a in s.actions && a.RequestDispatch?
  }

  lemma BudgetAsks(r: L.Record, p: Params, accepted: bool)
    ensures var s := L.BudgetOrEscalate(r, p, accepted);
            && (Asks(s) <==> RoundLeft(r, accepted, p)) && (Asks(s) ==> s.rec.state.Drafting?)
  {
    var s := L.BudgetOrEscalate(r, p, accepted);
    if s.rec.state.Drafting? {
      assert s.actions[0] in s.actions;
    }
  }

  lemma OfferedAsks(r: L.Record, from: Uuid, b: Body, now: int, p: Params)
    ensures var s := L.OnOffered(r, from, b, now, p);
            && (Asks(s) <==> b.Reject? && RoundLeft(r, false, p)) && (Asks(s) ==> s.rec.state.Drafting?)
  {
    if b.Reject? {
      BudgetAsks(L.Exclude(L.Note(r, Some(from), L.HRejected(b.code)), b.code), p, false);
    }
  }

  lemma RunningAsksNothing(r: L.Record, from: Uuid, b: Body, now: int, id: Option<Uuid>, accepts: bool, p: Params)
    ensures !Asks(L.OnRunning(r, from, b, now, id, accepts, p))
  {
  }

  lemma ClosingAsks(r: L.Record, b: Body, accepts: bool, p: Params)
    ensures var s := L.OnReclaiming(r, b, accepts, p);
            && (Asks(s) <==> !r.drainClosed && b.CancelAck? && RoundLeft(r, r.accepted, p))
            && (Asks(s) ==> s.rec.state.Drafting?)
    ensures !Asks(L.OnCancelling(r, b, accepts))
  {
    BudgetAsks(r.(drainClosed := true), p, r.accepted);
  }

  lemma MessageAsks(r: L.Record, e: L.Event, p: Params)
    requires e.Message?
    ensures var s := L.Apply(r, e, p); (Asks(s) <==> AsksFor(r, e, p)) && (Asks(s) ==> s.rec.state.Drafting?)
  {
    RunningAsksNothing(r, e.from, e.body, e.now, e.msgId, e.accepts, p);
    ClosingAsks(r, e.body, e.accepts, p);
    OfferedAsks(r, e.from, e.body, e.now, p);
  }

  lemma TimerAsks(r: L.Record, timer: L.TimerName, now: int, p: Params)
    ensures var s := L.OnTimer(r, timer, now, p);
            (Asks(s) <==> AsksFor(r, L.Timer(timer, now), p)) && (Asks(s) ==> s.rec.state.Drafting?)
  {
    BudgetAsks(r.(drainClosed := true), p, r.accepted);
  }

  lemma CommandAsks(r: L.Record, e: L.Event, p: Params)
    requires e.UserCancels? || e.OwnerRedispatches?
    ensures var s := L.Apply(r, e, p); (Asks(s) <==> AsksFor(r, e, p)) && (Asks(s) ==> s.rec.state.Drafting?)
  {
    var s := L.Apply(r, e, p);
    if e.OwnerRedispatches? && r.state.Drafting? {
      assert s.actions[0] in s.actions;
    }
  }

  lemma AsksIff(r: L.Record, e: L.Event, p: Params)
    ensures Asks(L.Apply(r, e, p)) <==> AsksFor(r, e, p)
    ensures Asks(L.Apply(r, e, p)) ==> L.Apply(r, e, p).rec.state.Drafting?
  {
    if e.Dispatch? || e.Redispatch? {
      DispatchAsksNothing(r, e, p);
    } else if e.Message? {
      MessageAsks(r, e, p);
    } else if e.Timer? {
      TimerAsks(r, e.timer, e.now, p);
    } else {
      CommandAsks(r, e, p);
    }
  }

  lemma DrivenKeepsRecord(r: L.Record, e: L.Event, select: Option<(Uuid, OfferBody)>, p: Params)
    requires ValidRecord(r) && ValidParams(p) && Room(r, e.now, p)
    requires !AcceptsBadLease(r, e, p) && !CancelsUndispatched(r, e) && !OffersBadTtl(r, e, select, p)
    ensures ValidRecord(Driven(r, e, select, p))
  {
    EventKeepsRecord(r, e, p);
    OnlyDispatchesMove(r, e, p);
    if e.Dispatch? || e.Redispatch? {
      DispatchAsksNothing(r, e, p);
    } else if select.Some? && !select.value.1.contract.BadContract? {
      AsksIff(r, e, p);
      if AsksFor(r, e, p) {
        RedispatchKeepsRecord(L.Apply(r, e, p).rec, select.value.0, select.value.1, e.now, p);
      }
    }
  }

  lemma DrivenLeavesDrafting(r: L.Record, e: L.Event, select: Option<(Uuid, OfferBody)>, p: Params)
    requires ValidRecord(r) && r.attempt == 0 && !e.UserCancels?
    ensures Driven(r, e, select, p).attempt != 0 ==> Driven(r, e, select, p).state.Offered?
    ensures Driven(r, e, select, p).attempt == 0 ==> Driven(r, e, select, p).state.Drafting?
  {
  }

  /**
   * An event keeps a stored task acceptable exactly when it neither cancels a task that was never dispatched,
   * nor accepts a lease that is not positive, nor makes an offer whose deadline is out of range.
   */
  lemma EventKeepsValidIff(t: Task, e: L.Event, select: Option<(Uuid, OfferBody)>, p: Params)
    requires ValidTask(t) && ValidParams(p) && Room(t.rec, e.now, p) && Safe(t.taskSeq + 1)
    ensures ValidTask(RunEvent(t, e, select, p)) <==>
              !AcceptsBadLease(t.rec, e, p) && !CancelsUndispatched(t.rec, e) && !OffersBadTtl(t.rec, e, select, p)
  {
    if CancelsUndispatched(t.rec, e) {
      assert Driven(t.rec, e, select, p) == L.CancelByUser(t.rec, e.now, p).rec;
    } else if AcceptsBadLease(t.rec, e, p) {
      assert Driven(t.rec, e, select, p).leaseMs == e.body.leaseMs.v;
    } else if OffersBadTtl(t.rec, e, select, p) {
      BadTtlShows(t.rec, e, select, p);
    } else {
      DrivenKeepsRecord(t.rec, e, select, p);
      if t.rec.attempt == 0 {
        DrivenLeavesDrafting(t.rec, e, select, p);
      } else {
        AttemptNeverZero(t.rec, e, select, p);
      }
    }
  }

  /** An offer with a bad deadline is stored with it. */
  lemma BadTtlShows(r: L.Record, e: L.Event, select: Option<(Uuid, OfferBody)>, p: Params)
    requires OffersBadTtl(r, e, select, p)
    ensures !OptionalDeadline(Driven(r, e, select, p).offerTtlUntil)
  {
    OnlyDispatchesMove(r, e, p);
    if e.Dispatch? || e.Redispatch? {
      DispatchAsksNothing(r, e, p);
    } else {
      AsksIff(r, e, p);
    }
  }

  lemma AttemptNeverZero(r: L.Record, e: L.Event, select: Option<(Uuid, OfferBody)>, p: Params)
    requires r.attempt >= 1
    ensures Driven(r, e, select, p).attempt >= 1
  {
    OnlyDispatchesMove(r, e, p);
  }

  /** The open offer is rejected by its target, another round is within budget, and a usable target is at hand. */
  predicate Reoffers(r: L.Record, e: L.Event, select: Option<(Uuid, OfferBody)>, p: Params) {
    RejectsOpen(r, e) && RoundLeft(r, false, p) && select.Some? && !select.value.1.contract.BadContract?
  }

  /**
   * The attempt moves without a report exactly when an offer is rejected and offered again in one event; then it
   * moves by one.
   */
  lemma SilentReofferIff(t: Task, e: L.Event, select: Option<(Uuid, OfferBody)>, p: Params)
    ensures var u := RunEvent(t, e, select, p);
            && (u.rec.attempt != t.rec.attempt && u.taskSeq == t.taskSeq <==> Reoffers(t.rec, e, select, p))
            && (Reoffers(t.rec, e, select, p) ==>
                  u.rec.attempt == t.rec.attempt + 1 && u.rec.state.Offered? && u.rec.target == Some(select.value.0))
  {
    var s := L.Apply(t.rec, e, p);
    OnlyDispatchesMove(t.rec, e, p);
    AsksIff(t.rec, e, p);
    if e.Dispatch? || e.Redispatch? {
      assert t.rec.state.Drafting? || s.rec == t.rec;
    }
  }

  // ---- Takeover ----

  /** Terminal tasks are archived and undispatched ones kept; a task in flight moves past its old attempt. */
  function Fenced(t: Task): Task {
    if L.IsTerminal(t.rec.state) || t.rec.attempt == 0 then t
    else t.(rec := t.rec.(attempt := t.rec.attempt + 1, state := L.Drafting))
  }

  /** The local high-water mark refuses this entry. */
  predicate Refused(tasks: map<Uuid, Task>, t: Task) {
    t.rec.task in tasks && tasks[t.rec.task].rec.attempt >= t.rec.attempt
  }

  function ImportOne(tasks: map<Uuid, Task>, t: Task): map<Uuid, Task> {
    if Refused(tasks, t) then tasks else tasks[t.rec.task := Fenced(t)]
  }

  function ImportAll(tasks: map<Uuid, Task>, entries: seq<Task>): map<Uuid, Task> {
    if entries == [] then tasks else ImportOne(ImportAll(tasks, entries[..|entries| - 1]), entries[|entries| - 1])
  }

  /** Entries up to the first one validation refuses. */
  function Sound(entries: seq<Task>): (k: nat)
    ensures k <= |entries| && (forall i :: 0 <= i < k ==> ValidTask(entries[i])) &&
            (k < |entries| ==> !ValidTask(entries[k]))
  {
    if entries == [] then 0
    else
      var front := entries[..|entries| - 1];
      var k := Sound(front);
      if k < |front| then k
      else if ValidTask(entries[|entries| - 1]) then |entries| else |entries| - 1
  }

  /** Entry by entry, each committed before the next is looked at. */
  method ImportTasks(tasks: map<Uuid, Task>, entries: seq<Task>) returns (after: map<Uuid, Task>, ok: bool)
    ensures ok <==> forall i :: 0 <= i < |entries| ==> ValidTask(entries[i])
    ensures after == ImportAll(tasks, entries[..Sound(entries)])
  {
    after := tasks;
    for i := 0 to |entries|
      invariant i <= Sound(entries)
      invariant after == ImportAll(tasks, entries[..i])
    {
      var t := entries[i];
      if !ValidTask(t) {
        return after, false;
      }
      assert entries[..i + 1][..i] == entries[..i];
      if !(t.rec.task in after && after[t.rec.task].rec.attempt >= t.rec.attempt) {
        after := after[t.rec.task := Fenced(t)];
      }
    }
    assert entries[..|entries|] == entries;
    return after, true;
  }

  /** Takeover never lowers an attempt. */
  lemma {:induction false} ImportNeverLowers(tasks: map<Uuid, Task>, entries: seq<Task>, task: Uuid)
    requires task in tasks
    ensures var u := ImportAll(tasks, entries); task in u && u[task].rec.attempt >= tasks[task].rec.attempt
    ensures var u := ImportAll(tasks, entries); u[task].rec.attempt == tasks[task].rec.attempt ==>
            u[task] == tasks[task]
    decreases |entries|
  {
    if entries != [] {
      ImportNeverLowers(tasks, entries[..|entries| - 1], task);
    }
  }

  /** The tasks of a batch, each named once. */
  predicate NamedOnce(entries: seq<Task>) {
    forall i, j :: 0 <= i < j < |entries| ==> entries[i].rec.task != entries[j].rec.task
  }

  /**
   * What a batch imports: each entry that local work is not ahead of, past its attempt and waiting for a target if it
   * was in flight; every other task is left as it is.
   */
  lemma {:induction false} ImportIs(tasks: map<Uuid, Task>, entries: seq<Task>, task: Uuid)
    requires NamedOnce(entries)
    ensures var u := ImportAll(tasks, entries);
            && (forall i :: 0 <= i < |entries| && entries[i].rec.task == task ==>
                  task in u && u[task] == if Refused(tasks, entries[i]) then tasks[task] else Fenced(entries[i]))
            && ((forall i :: 0 <= i < |entries| ==> entries[i].rec.task != task) ==>
                  (task in u <==> task in tasks) && (task in u ==> u[task] == tasks[task]))
    decreases |entries|
  {
    if entries != [] {
      var front, last := entries[..|entries| - 1], entries[|entries| - 1];
      ImportIs(tasks, front, task);
      ImportIs(tasks, front, last.rec.task);
    }
  }

  /** A task in flight is taken over past its attempt, drafting; an ended or undispatched one as it is. */
  lemma FencedIs(t: Task)
    ensures var u := Fenced(t);
            && (u == t <==> L.IsTerminal(t.rec.state) || t.rec.attempt == 0)
            && (u != t ==> u.rec.attempt == t.rec.attempt + 1 && u.rec.state.Drafting?)
            && u == t.(rec := t.rec.(attempt := u.rec.attempt, state := u.rec.state))
  {
  }

  /** A failed import leaves the tasks as they were exactly when every entry before the bad one was refused. */
  lemma {:induction false} ImportUnchangedIff(tasks: map<Uuid, Task>, entries: seq<Task>)
    ensures ImportAll(tasks, entries) == tasks <==> forall i :: 0 <= i < |entries| ==> Refused(tasks, entries[i])
    decreases |entries|
  {
    if entries != [] {
      var front, last := entries[..|entries| - 1], entries[|entries| - 1];
      ImportUnchangedIff(tasks, front);
      var mid := ImportAll(tasks, front);
      if mid != tasks {
        var i :| 0 <= i < |front| && !Refused(tasks, front[i]);
        assert !Refused(tasks, entries[i]);
        ImportedStays(tasks, entries, i);
      } else if !Refused(tasks, last) {
        ImportedStays(tasks, entries, |entries| - 1);
      }
    }
  }

  /** An entry that is not refused at the start leaves a mark that no later entry erases. */
  lemma {:induction false} ImportedStays(tasks: map<Uuid, Task>, entries: seq<Task>, i: nat)
    requires i < |entries| && !Refused(tasks, entries[i])
    ensures var u, task := ImportAll(tasks, entries), entries[i].rec.task;
            task in u && u[task].rec.attempt >= entries[i].rec.attempt && u != tasks
    decreases |entries|
  {
    var front, last := entries[..|entries| - 1], entries[|entries| - 1];
    if i < |entries| - 1 {
      ImportedStays(tasks, front, i);
    }
  }

  /** Attempt n of the task is behind it. */
  predicate Behind(r: L.Record, n: int) {
    L.IsTerminal(r.state) || r.attempt > n || (r.attempt == n == 0 && r.target.None?)
  }

  lemma StaysBehind(r: L.Record, e: L.Event, n: int, p: Params)
    requires Behind(r, n) && n >= 0 && LeadRuns.Allowed(r, e)
    ensures Behind(L.Apply(r, e, p).rec, n)
  {
    OnlyDispatchesMove(r, e, p);
    if L.IsTerminal(r.state) {
      LeadRuns.EndedAnswersNothing(r, e, p);
    }
  }

  lemma {:induction false} RunStaysBehind(r: L.Record, es: seq<L.Event>, n: int, p: Params)
    requires Behind(r, n) && n >= 0 && LeadRuns.Disciplined(r, es, p)
    ensures Behind(LeadRuns.Play(r, es, p), n)
    decreases |es|
  {
    if es != [] {
      LeadRuns.DisciplinedPrefix(r, es, p);
      RunStaysBehind(r, es[..|es| - 1], n, p);
      assert LeadRuns.Allowed(LeadRuns.Play(r, es[..|es| - 1], p), es[|es| - 1]);
      StaysBehind(LeadRuns.Play(r, es[..|es| - 1], p), es[|es| - 1], n, p);
    }
  }

  /** After a takeover, however the run goes on, no message of an attempt made before it changes the task. */
  lemma TakeoverFences(t: Task, es: seq<L.Event>, e: L.Event, p: Params)
    requires ValidTask(t) && LeadRuns.Disciplined(Fenced(t).rec, es, p) && e.Message? && e.attempt <= t.rec.attempt
    ensures var r := LeadRuns.Play(Fenced(t).rec, es, p); L.Apply(r, e, p).rec == r
  {
    RunStaysBehind(Fenced(t).rec, es, t.rec.attempt, p);
  }
}
