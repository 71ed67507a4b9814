/** The lead and an executor answering each other: what one says, the other acts on. */
module TaskExchange {
  import opened Core
  import opened Wire
  import opened Lease
  import E = ExecutorState
  import R = ExecutorReports
  import L = LeadMachine
  import LeadEnds
  import Caps

  /** Identity and times of an envelope. */
  datatype Stamp = Stamp(id: Uuid, ts: int, exp: int)

  function Seal(m: Outbound, from: Uuid, team: Uuid, stamp: Stamp): Envelope {
    Envelope(stamp.id, from, team, m.to, true, Some(stamp.ts), Some(stamp.exp), m.task, m.attempt, m.body)
  }

  /** The lead hears an executor's message of this attempt. */
  function Heard(m: Outbound, from: Uuid, now: int, id: Uuid, accepts: bool): L.Event {
    L.Message(from, if m.attempt.Some? then m.attempt.value else 0, m.body, now, Some(id), accepts)
  }

  /** The lead's task is at this run's attempt, on this executor. */
  predicate Follows(r: L.Record, run: E.DurableRun, x: Uuid) {
    !L.IsTerminal(r.state) && r.target == Some(x) && r.task == run.fence.task && r.attempt == run.fence.attempt
  }

  // ---- The offer and its answer ----

  /** What the executor says to an admitted offer puts the lead's task under way, with the lease it granted. */
  lemma AcceptIsHeard(c: E.Config, s: E.Snapshot, env: Envelope, now: int, authorized: bool, ready: bool, closing: bool,
                      policyOk: bool, runId: Uuid, r: L.Record, at: int, id: Uuid, p: Params)
    requires env.to == c.node && R.Admitted(c, s, env, now, authorized, ready, closing, policyOk) &&
             Safe(s.generation + 1)
    requires r.state.Offered? && r.target == Some(c.node) && env.attempt == Some(r.attempt)
    ensures var d := E.ConsumeEvent(c, s, env, now, authorized, ready, closing, policyOk, runId);
            && d.Ok? && R.TakenFor(c, s, env, now, runId, d.value)
            && var next := L.Apply(r, Heard(d.value.outbox[0], c.node, at, id, true), p).rec;
               && next.state.Running? && next.accepted && next.leaseMs == d.value.state.slot.value.leaseMs
               && next.leaseDeadline == Some(at + LostAfterMs(next.leaseMs, p))
  {
    R.OfferAnswered(c, s, env, now, authorized, ready, closing, policyOk, runId);
  }

  /** What it says to any other offer costs the lead a round, and no more. */
  lemma RejectIsHeard(c: E.Config, s: E.Snapshot, env: Envelope, now: int, authorized: bool, ready: bool, closing: bool,
                      policyOk: bool, runId: Uuid, r: L.Record, at: int, id: Uuid, p: Params)
    requires env.body.Offer? && env.to == c.node
    requires !R.Admitted(c, s, env, now, authorized, ready, closing, policyOk)
    requires r.state.Offered? && r.target == Some(c.node) && env.attempt == Some(r.attempt)
    ensures var d := E.ConsumeEvent(c, s, env, now, authorized, ready, closing, policyOk, runId);
            && d.Ok? && d.value.state == s && |d.value.outbox| == 1
            && var next := L.Apply(r, Heard(d.value.outbox[0], c.node, at, id, true), p).rec;
               && next.dispatchRounds == r.dispatchRounds + 1 && next.failedBudget == r.failedBudget
               && (next.state.Drafting? || next.state.Escalated?)
  {
    R.OfferAnswered(c, s, env, now, authorized, ready, closing, policyOk, runId);
    var d := E.ConsumeEvent(c, s, env, now, authorized, ready, closing, policyOk, runId);
    var e := Heard(d.value.outbox[0], c.node, at, id, true);
    LeadEnds.BudgetIs(r, e, p);
    LeadEnds.NextStateIff(r, e, p, L.Drafting);
    LeadEnds.NextStateIff(r, e, p, L.Escalated);
  }

  // ---- The report ----

  /** The run ends by its own account: it was neither cancelled nor stopped. */
  predicate Free(run: E.DurableRun) {
    run.stopReason.None? && run.cancelMsgId.None?
  }

  /**
   * The report of a run, heard by its lead while the attempt runs: a result ends the task as done when it is
   * accepted and gives the attempt up when not; a failure ends it as failed, or gives it up when it may be retried.
   */
  lemma ReportWhileRunning(run: E.DurableRun, o: Outcome, m: Outbound, r: L.Record, x: Uuid, at: int, id: Uuid,
                           accepts: bool, p: Params)
    requires R.Report(run, o, m) && Follows(r, run, x) && r.state.Running? && run.cancelMsgId.None?
    ensures var next := L.Apply(r, Heard(m, x, at, id, accepts), p).rec;
            var result, retry := Free(run) && o.ResultOutcome?, Free(run) && o.FailOutcome? && o.retryable;
            && (next.state.Done? <==> result && accepts)
            && (next.state.Failed? <==> !result && !retry)
            && (next.state.Reclaiming? <==> (result && !accepts) || retry)
            && (result ==> next.resultBody == Some(o))
  {
    var e := Heard(m, x, at, id, accepts);
    LeadEnds.NextStateIff(r, e, p, L.Done);
    LeadEnds.NextStateIff(r, e, p, L.Failed);
    LeadEnds.NextStateIff(r, e, p, L.Reclaiming);
  }

  /** The acknowledgement of a cancel closes what the lead is closing: the drain, or the task. */
  lemma AckCloses(run: E.DurableRun, o: Outcome, m: Outbound, r: L.Record, x: Uuid, at: int, id: Uuid, accepts: bool,
                  p: Params)
    requires R.Report(run, o, m) && Follows(r, run, x) && run.cancelMsgId.Some?
    ensures var next := L.Apply(r, Heard(m, x, at, id, accepts), p).rec;
            && (r.state.Cancelling? ==> next.state.Closed?)
            && (LeadEnds.Draining(r) ==> next.state.Drafting? || next.state.Escalated?)
            && (r.state.Running? || r.state.Offered? || r.state.Drafting? ==> next == r)
  {
  }

  /** A report that crosses the lead's cancel still counts: a result may complete the task, a failure closes it. */
  lemma ReportWhileClosing(run: E.DurableRun, o: Outcome, m: Outbound, r: L.Record, x: Uuid, at: int, id: Uuid,
                           accepts: bool, p: Params)
    requires R.Report(run, o, m) && Follows(r, run, x) && run.cancelMsgId.None?
    requires r.state.Cancelling? || LeadEnds.Draining(r)
    ensures var next := L.Apply(r, Heard(m, x, at, id, accepts), p).rec;
            var result, retry := Free(run) && o.ResultOutcome?, Free(run) && o.FailOutcome? && o.retryable;
            && (next.state.Done? <==> result && accepts)
            && (result && !accepts ==> next.state == r.state)
            && (!result && r.state.Cancelling? ==> next.state.Closed?)
            && (!result && r.state.Reclaiming? ==> next.state == if retry then L.Reclaiming else L.Failed)
  {
  }

  // ---- The heartbeat ----

  /** The executor's heartbeat of a run, at time t0. */
  predicate Beats(s: E.Snapshot, t0: int, id: Uuid) {
    && E.TickEvent(s, t0, id).Ok? && R.Going(s) && !s.slot.value.phase.Prepared?
    && s.slot.value.heartbeatAt <= t0 < s.slot.value.leaseDeadline
  }

  /**
   * The deadline of the run after its heartbeat of time t0 went to its lead, the lead answered at t1, and the answer
   * was consumed at t2; None if any of these says nothing, or not to the other.
   */
  function DeadlineAfterBeat(c: E.Config, s: E.Snapshot, t0: int, id: Uuid, r: L.Record, t1: int, stamp: Stamp, t2: int,
                             flags: (bool, bool, bool, Uuid), p: Params): Option<int>
  {
    var ticked := E.TickEvent(s, t0, id);
    if s.slot.None? || ticked.Err? || |ticked.value.outbox| != 1 || ticked.value.outbox[0].to != s.slot.value.lead
        then None
    else
      var says := LeadEnds.Says(r, Heard(ticked.value.outbox[0], c.node, t1, id, false), p);
      if says.None? || says.value.to != c.node then None
      else
        var d := E.ConsumeEvent(c, ticked.value.state, Seal(says.value, s.slot.value.lead, c.team, stamp), t2, true,
                                flags.0, flags.1, flags.2, flags.3);
        if d.Err? || !E.SlotIs(d.value.state, s.slot.value.fence) then None
        else Some(d.value.state.slot.value.leaseDeadline)
  }

  /** A heartbeat heard by the lead that runs the attempt, and answered before the deadline, renews. */
  lemma HeartbeatRenews(c: E.Config, s: E.Snapshot, t0: int, id: Uuid, r: L.Record, t1: int, stamp: Stamp, t2: int,
                        flags: (bool, bool, bool, Uuid), p: Params)
    requires E.Valid(s) && s.slot.Some? && Beats(s, t0, id)
    requires var run := s.slot.value;
             && Follows(r, run, c.node) && r.state.Running? && r.leaseMs == run.leaseMs
             && run.lastRenewalSeq <= r.renewalSeq && Positive(r.renewalSeq + 1) && Positive(t1 + r.leaseMs)
             && t1 <= t2 < run.leaseDeadline && stamp.exp > t2
    ensures DeadlineAfterBeat(c, s, t0, id, r, t1, stamp, t2, flags, p)
            == Some(Max(s.slot.value.leaseDeadline, t1 + s.slot.value.leaseMs))
  {
    R.TickIff(s, t0, id);
    E.TickKeepsValid(s, t0, id);
    var run, ticked := s.slot.value, E.TickEvent(s, t0, id).value;
    var says := LeadEnds.Says(r, Heard(ticked.outbox[0], c.node, t1, id, false), p).value;
    var env := Seal(says, run.lead, c.team, stamp);
    R.RenewIff(c, ticked.state, env, t2, true, flags.0, flags.1, flags.2, flags.3);
  }

  // ---- Cancel and acknowledgement ----

  /** The cancel that gives a running attempt up, consumed by the executor that holds its run. */
  function CancelOf(r: L.Record, reason: CancelReason): Outbound
    requires r.target.Some?
  {
    LeadEnds.ToTarget(r, Cancel(reason, Undefined, Undefined))
  }

  /**
   * Cancel, stop, acknowledge: the lead's cancel stops the run whatever its state, the report of that run acknowledges
   * it whatever the driver says, and the acknowledgement ends the drain.
   */
  lemma CancelClosesAttempt(c: E.Config, s: E.Snapshot, r: L.Record, reason: CancelReason, lead: Uuid, stamp: Stamp,
                            now: int, flags: (bool, bool, bool, Uuid), o: Outcome, at: int, id: Uuid, p: Params)
    requires E.Valid(s) && s.slot.Some? && Follows(r, s.slot.value, c.node) && LeadEnds.Draining(r)
    requires s.slot.value.lead == lead && stamp.exp > now && s.slot.value.cancelMsgId != Some(stamp.id)
    ensures var env := Seal(CancelOf(r, reason), lead, c.team, stamp);
            var d := E.ConsumeEvent(c, s, env, now, true, flags.0, flags.1, flags.2, flags.3);
            && d.Ok? && d.value.state.slot.Some? && R.Cancelled(s.slot.value, d.value.state.slot.value, stamp.id)
            && var f := E.FinishEvent(d.value.state, s.slot.value.fence, o);
               && f.state.slot.None? && |f.outbox| == 1 && f.outbox[0].to == lead
               && f.outbox[0].body == CancelAck(false) && f.outbox[0].replyTo == Some(stamp.id)
               && var next := L.Apply(r, Heard(f.outbox[0], c.node, at, id, false), p).rec;
                  next.state.Drafting? || next.state.Escalated?
  {
    var env := Seal(CancelOf(r, reason), lead, c.team, stamp);
    R.CancelIff(c, s, env, now, true, flags.0, flags.1, flags.2, flags.3);
    var d := E.ConsumeEvent(c, s, env, now, true, flags.0, flags.1, flags.2, flags.3).value;
    R.FinishReports(d.state, s.slot.value.fence, o);
    AckCloses(d.state.slot.value, o, E.FinishEvent(d.state, s.slot.value.fence, o).outbox[0], r, c.node, at, id, false,
        p);
  }

  // ---- A whole task ----

  /** The snapshot after the commits around driver.start. */
  function Underway(s: E.Snapshot, f: Fence): E.Snapshot
    requires E.StartingEvent(s, f).Some?
  {
    E.RunningEvent(E.StartingEvent(s, f).value, f)
  }

  /**
   * From the first offer to the end: an admitted offer, its acceptance, the driver's start and its result, and the
   * report, each consumed by the other side, complete a fresh task with exactly the driver's result.
   */
  lemma TaskCompletes(c: E.Config, s: E.Snapshot, task: Uuid, kind: Kind, offer: OfferBody, lead: Uuid, stamp: Stamp,
                      t0: int, t1: int, t2: int, t3: int, runId: Uuid, ids: (Uuid, Uuid), o: Outcome, p: Params)
    requires E.Valid(s) && s.slot.None? && Safe(s.generation + 1) && !offer.contract.BadContract? && o.ResultOutcome?
    requires R.Admitted(c, s, Seal(Outbound(c.node, Some(task), Some(1), None, Offer(offer)), lead, c.team, stamp),
                        t1, true, true, false, true)
    ensures var dispatch := L.Dispatch(c.node, offer, t0);
            var r0 := L.Apply(L.Fresh(task, kind, p), dispatch, p).rec;
            var said := LeadEnds.Says(L.Fresh(task, kind, p), dispatch, p);
            && said == Some(Outbound(c.node, Some(task), Some(1), None, Offer(offer)))
            && var taken := E.ConsumeEvent(c, s, Seal(said.value, lead, c.team, stamp), t1, true, true, false, true,
                runId);
               && taken.Ok? && taken.value.state.slot.Some? && |taken.value.outbox| == 1
               && var f := taken.value.state.slot.value.fence;
                  && E.StartingEvent(taken.value.state, f).Some?
                  && var r1 := L.Apply(r0, Heard(taken.value.outbox[0], c.node, t2, ids.0, false), p).rec;
                     var d := E.FinishEvent(Underway(taken.value.state, f), f, o);
                     && |d.outbox| == 1 && d.outbox[0].to == lead
                     && var r2 := L.Apply(r1, Heard(d.outbox[0], c.node, t3, ids.1, true), p).rec;
                        r2.state.Done? && r2.resultBody == Some(o)
  {
    var r := L.Fresh(task, kind, p);
    var r0 := L.Apply(r, L.Dispatch(c.node, offer, t0), p).rec;
    var m := Outbound(c.node, Some(task), Some(1), None, Offer(offer));
    var env := Seal(m, lead, c.team, stamp);
    AcceptIsHeard(c, s, env, t1, true, true, false, true, runId, r0, t2, ids.0, p);
    var taken := E.ConsumeEvent(c, s, env, t1, true, true, false, true, runId).value;
    var f := taken.state.slot.value.fence;
    CompletesFrom(taken.state, f, c.node, L.Apply(r0, Heard(taken.outbox[0], c.node, t2, ids.0, true), p).rec, o, t3,
        ids.1, p);
  }

  /** A run just taken, started and finished with a result, completes its running task. */
  lemma CompletesFrom(s: E.Snapshot, f: Fence, x: Uuid, r: L.Record, o: Outcome, at: int, id: Uuid, p: Params)
    requires E.SlotIs(s, f) && s.slot.value.phase.Prepared? && Free(s.slot.value) && o.ResultOutcome?
    requires r.state.Running? && Follows(r, s.slot.value, x)
    ensures E.StartingEvent(s, f).Some?
    ensures var d := E.FinishEvent(Underway(s, f), f, o);
            && |d.outbox| == 1 && d.outbox[0].to == s.slot.value.lead
            && var next := L.Apply(r, Heard(d.outbox[0], x, at, id, true), p).rec;
               next.state.Done? && next.resultBody == Some(o)
  {
    R.FinishReports(Underway(s, f), f, o);
    var run := Underway(s, f).slot.value;
    ReportWhileRunning(run, o, E.FinishEvent(Underway(s, f), f, o).outbox[0], r, x, at, id, true, p);
  }
}
