/**
 * The executor object: the stored row, decoded into a mutable state that each transaction edits in place, and the
 * volatile fields live, starting, ready, closing and faulted. Every method is the code between two awaits, and does
 * what the protocol's event of that name does; so the protocol's results hold of every executor there is.
 */
module DurableExecutor {
  import opened Core
  import opened Wire
  import opened Lease
  import opened ExecutorState
  import P = ExecutorProtocol
  import ExecutorSafety
  import ExecutorExclusion

  /** The decoded run of the slot. */
  class Run {
    const fence: Fence
    const lead: Uuid
    const offerMsgId: Uuid
    const offer: OfferBody
    const leaseMs: int
    var phase: Phase
    var mayHaveStarted: bool
    var leaseDeadline: int
    var heartbeatAt: int
    var seq_: int
    var lastRenewalSeq: int
    var progress: Option<PendingProgress>
    var cancelMsgId: Option<Uuid>
    var stopReason: Option<StopReason>

    constructor (r: DurableRun)
      ensures Row() == r
    {
      fence, lead, offerMsgId, offer, leaseMs := r.fence, r.lead, r.offerMsgId, r.offer, r.leaseMs;
      phase, mayHaveStarted, leaseDeadline, heartbeatAt := r.phase, r.mayHaveStarted, r.leaseDeadline, r.heartbeatAt;
      seq_, lastRenewalSeq, progress := r.seq_, r.lastRenewalSeq, r.progress;
      cancelMsgId, stopReason := r.cancelMsgId, r.stopReason;
    }

    function Row(): DurableRun
      reads this
    {
      DurableRun(fence, phase, lead, offerMsgId, offer, mayHaveStarted, leaseMs, leaseDeadline, heartbeatAt, seq_,
                 lastRenewalSeq, progress, cancelMsgId, stopReason)
    }

    method Cancel(msgId: Uuid)
      modifies this
      ensures Row() == CancelRun(old(Row()), msgId)
    {
      cancelMsgId := Some(msgId);
      stopReason := Some(StopCancel);
      if !phase.RecoveryRequired? {
        phase := Stopping;
      }
    }

    method Renew(b: Body)
      requires b.Renew? && b.renewalSeq.Val? && b.deadlineMs.Val?
      modifies this
      ensures Row() == RenewRun(old(Row()), b)
    {
      lastRenewalSeq := b.renewalSeq.v;
      leaseDeadline := b.deadlineMs.v;
      progress := None;
    }

    /** Enter a phase that needs a stop reason; the first recorded one stays. */
    method Halt(into: Phase, reason: StopReason)
      modifies this
      ensures Row() == old(Row()).(phase := into, stopReason := if old(stopReason).Some? then old(stopReason)
              else Some(reason))
    {
      phase := into;
      if stopReason.None? {
        stopReason := Some(reason);
      }
    }

    method Beat(now: int, progressId: Uuid)
      modifies this
      ensures Row() == old(Row()).(seq_ := old(seq_) + 1,
              progress := Some(PendingProgress(progressId, old(seq_) + 1, now)),
                                   heartbeatAt := now + Max(1, HeartbeatIntervalMs(leaseMs)))
    {
      seq_ := seq_ + 1;
      progress := Some(PendingProgress(progressId, seq_, now));
      heartbeatAt := now + Max(1, HeartbeatIntervalMs(leaseMs));
    }
  }

  /** The decoded row, edited by one transaction. */
  class State {
    var generation: int
    var slot: Run?
    var last: Option<Last>

    constructor (row: Snapshot)
      ensures Row() == row && (slot != null ==> fresh(slot))
    {
      generation, last := row.generation, row.last;
      slot := null;
      new;
      if row.slot.Some? {
        slot := new Run(row.slot.value);
      }
    }

    function Row(): Snapshot
      reads this, slot
    {
      Snapshot(generation, if slot == null then None else Some(slot.Row()), last)
    }

    /** Reject an offer, or give it the slot under the next generation. */
    method Offer(c: Config, env: Envelope, now: int, allowed: bool, unexpired: bool, ready: bool, closing: bool,
                 policyOk: bool, runId: Uuid) returns (ok: bool, outbox: seq<Outbound>, effects: seq<Fence>)
      requires env.body.Offer?
      modifies this
      ensures var r := OfferEvent(c, old(Row()), env, now, allowed, unexpired, ready, closing, policyOk, runId);
              && ok == r.Ok?
              && if ok then Row() == r.value.state && outbox == r.value.outbox && effects == Intents(r.value)
                 else Row() == old(Row())
    {
      ok, effects := true, [];
      var denial := OfferDenial(c, Row(), env, now, allowed, unexpired, ready, closing, policyOk);
      if denial.Some? {
        outbox := [Outbound(env.from, env.task, env.attempt, Some(env.msgId), Reject(denial.value, false))];
      } else if !Safe(generation + 1) {
        ok, outbox := false, [];
      } else {
        AdmittedOffer(c, Row(), env, now, allowed, unexpired, ready, closing, policyOk);
        generation := generation + 1;
        var run := NewRun(c, generation, env, now, runId);
        slot := new Run(run);
        effects := [run.fence];
        outbox := [RunMessage(run, Accept(Val(run.leaseMs), Val(generation), Val(runId)), run.offerMsgId)];
      }
    }

    /** Cancel or renew the current run, or acknowledge a cancel of the last one. */
    method Control(env: Envelope, now: int) returns (outbox: seq<Outbound>)
      modifies slot
      ensures slot == old(slot) && Row() == ControlEvent(old(Row()), env, now).state
      ensures outbox == ControlEvent(old(Row()), env, now).outbox
    {
      outbox := [];
      if slot == null {
        if env.body.Cancel? && last.Some? && env.from == last.value.lead &&
           env.task == Some(last.value.fence.task) && env.attempt == Some(last.value.fence.attempt) {
          var ack := CancelAck(last.value.outcome.ResultOutcome?);
          outbox := [Outbound(last.value.lead, env.task, env.attempt, Some(env.msgId), ack)];
        }
        return;
      }
      var run := slot.Row();
      if !AddressedTo(run, env) {
        return;
      }
      if env.body.Cancel? {
        if CancelMatches(run, env.body) {
          slot.Cancel(env.msgId);
        }
      } else if Renewable(run, env.body, now) {
        slot.Renew(env.body);
      }
    }

    /** One consumed envelope. */
    method Consume(c: Config, env: Envelope, now: int, authorized: bool, ready: bool, closing: bool, policyOk: bool,
                   runId: Uuid) returns (ok: bool, outbox: seq<Outbound>, effects: seq<Fence>)
      modifies this, slot
      ensures var r := ConsumeEvent(c, old(Row()), env, now, authorized, ready, closing, policyOk, runId);
              && ok == r.Ok?
              && if ok then Row() == r.value.state && outbox == r.value.outbox && effects == Intents(r.value)
                 else Row() == old(Row())
    {
      ok, outbox, effects := true, [], [];
      if env.to != c.node {
        return;
      }
      var allowed := env.fromTeam == c.team && authorized && env.signed;
      var unexpired := env.exp.Some? && env.exp.value > now;
      if env.body.Offer? {
        ok, outbox, effects := Offer(c, env, now, allowed, unexpired, ready, closing, policyOk, runId);
      } else if allowed && unexpired {
        outbox := Control(env, now);
      }
    }

    /** Expire the lease or send a due heartbeat. */
    method Tick(now: int, progressId: Uuid) returns (ok: bool, outbox: seq<Outbound>)
      modifies slot
      ensures slot == old(slot)
      ensures var r := TickEvent(old(Row()), now, progressId);
              && ok == r.Ok?
              && if ok then Row() == r.value.state && outbox == r.value.outbox else Row() == old(Row())
    {
      ok, outbox := true, [];
      if slot == null || slot.phase.Stopping? || slot.phase.RecoveryRequired? {
        return;
      }
      if now >= slot.leaseDeadline {
        slot.phase := Stopping;
        slot.stopReason := Some(LeaseExpired);
        return;
      }
      if slot.phase.Prepared? || now < slot.heartbeatAt {
        return;
      }
      if !Safe(slot.seq_ + 1) || !Safe(now + Max(1, HeartbeatIntervalMs(slot.leaseMs))) {
        return false, [];
      }
      slot.Beat(now, progressId);
      var beat := Progress(Val(slot.seq_), Val(slot.fence.generation), Val(slot.fence.runId));
      outbox := [RunMessage(slot.Row(), beat, slot.offerMsgId)];
    }

    /** Report the run and free the slot, if it is still this fence's. */
    method Finish(fence: Fence, outcome: Outcome) returns (outbox: seq<Outbound>)
      modifies this
      ensures Row() == FinishEvent(old(Row()), fence, outcome).state
      ensures outbox == FinishEvent(old(Row()), fence, outcome).outbox
    {
      outbox := [];
      if slot == null || slot.fence != fence {
        return;
      }
      var run, final := slot.Row(), outcome;
      if slot.stopReason.Some? {
        final := OwnFailure(Stopped(slot.stopReason.value));
      }
      if slot.cancelMsgId.Some? {
        outbox := [RunMessage(run, CancelAck(false), slot.cancelMsgId.value)];
      } else if final.ResultOutcome? {
        outbox := [RunMessage(run, Delivery(final), slot.offerMsgId)];
      } else {
        outbox := [RunMessage(run, Fail(final.FailOutcome? && final.retryable, final), slot.offerMsgId)];
      }
      last := Some(Last(fence, slot.lead, final));
      slot := null;
    }

    /** Park a run whose external state is not known. */
    method Unknown(fence: Fence, reason: StopReason)
      modifies slot
      ensures slot == old(slot) && Row() == UnknownEvent(old(Row()), fence, reason).state
    {
      if slot != null && slot.fence == fence {
        slot.Halt(RecoveryRequired, reason);
      }
    }

    /** The commit that precedes driver.start. */
    method MarkStarting(fence: Fence) returns (changed: bool)
      modifies slot
      ensures slot == old(slot) && changed == StartingEvent(old(Row()), fence).Some?
      ensures Row() == if changed then StartingEvent(old(Row()), fence).value else old(Row())
    {
      changed := slot != null && slot.fence == fence && slot.phase.Prepared?;
      if changed {
        slot.phase := Starting;
        slot.mayHaveStarted := true;
      }
    }

    method MarkRunning(fence: Fence)
      modifies slot
      ensures slot == old(slot) && Row() == RunningEvent(old(Row()), fence)
    {
      if slot != null && slot.fence == fence && slot.phase.Starting? {
        slot.phase := Running;
      }
    }

    method Shutdown()
      modifies slot
      ensures slot == old(slot) && Row() == ShutdownEvent(old(Row()))
    {
      if slot != null && !slot.phase.RecoveryRequired? {
        slot.Halt(Stopping, StopReason.Shutdown);
      }
    }
  }

  function Intents(c: Change): seq<Fence> {
    if c.effect.Some? then [c.effect.value] else []
  }

  class Executor {
    const setup: P.Setup
    var row: Snapshot                  // stored
    var outbox: seq<Outbound>          // stored with it
    var effects: seq<Fence>
    var live: Option<P.Live>
    var starting: bool
    var ready: bool
    var closing: bool
    var faulted: bool
    var settling: P.SettlePc
    var watchers: seq<P.Late>
    var recovering: P.RecoverPc
    ghost var calls: set<Fence>        // the driver, and what is known of it
    ghost var starts: seq<Fence>
    ghost var running: set<Fence>
    ghost var proofs: set<Fence>
    ghost var log: seq<P.Event>

    ghost function View(): P.World
      reads this
    {
      P.World(row, live, starting, ready, closing, faulted,
              settling, watchers, recovering, calls, starts, running, proofs)
    }

    /** The executor and its driver are where the logged events lead from the empty store. */
    ghost predicate Valid()
      reads this
    {
      P.Steps(setup, P.INIT, log) == Some(View())
    }

    /** The messages and intents of a step are committed with it, after all earlier ones. */
    twostate predicate Sent(e: P.Event)
      requires P.Enabled(setup, old(View()), e)
      reads this
    {
      && outbox == old(outbox) + P.Sends(setup, old(View()), e)
      && effects == old(effects) + P.Intents(setup, old(View()), e)
    }

    twostate predicate Did(e: P.Event)
      requires P.Enabled(setup, old(View()), e)
      reads this
    {
      View() == P.Apply(setup, old(View()), e) && log == old(log) + [e] && Valid()
    }

    ghost method Logged(w: P.World, e: P.Event)
      requires P.Steps(setup, P.INIT, log) == Some(w) && P.Enabled(setup, w, e) && View() == P.Apply(setup, w, e)
      modifies this`log
      ensures View() == old(View()) && log == old(log) + [e] && Valid()
    {
      P.StepsAppend(setup, P.INIT, log, e);
      log := log + [e];
    }

    constructor (setup: P.Setup)
      ensures Valid() && log == [] && this.setup == setup && outbox == [] && effects == []
    {
      this.setup := setup;
      row, outbox, effects, live := EMPTY, [], [], None;
      starting, ready, closing, faulted := false, false, false, false;
      settling, watchers, recovering := P.Idle, [], P.NoRecover;
      calls, starts, running, proofs, log := {}, [], {}, {}, [];
    }

    // ---- Shared parts ----

    method FailClosed()
      modifies this`faulted, this`ready
      ensures faulted && !ready
    {
      faulted, ready := true, false;
    }

    method Finish(fence: Fence, outcome: Outcome)
      modifies this`row, this`outbox, this`live
      ensures View() == P.Finish(old(View()), fence, outcome)
      ensures outbox == old(outbox) + FinishEvent(old(row), fence, outcome).outbox
    {
      var state := new State(row);
      var report := state.Finish(fence, outcome);
      row, outbox := state.Row(), outbox + report;
      if live.Some? && live.value.fence == fence {
        live := None;
      }
    }

    method Park(fence: Fence, reason: StopReason)
      modifies this`row
      ensures View() == P.Park(old(View()), fence, reason)
    {
      var state := new State(row);
      state.Unknown(fence, reason);
      row := state.Row();
    }

    /** attach(): a handle of another run latches a fault before any of its closures can count. */
    method Attach(fence: Fence, handle: Fence)
      modifies this`live, this`faulted, this`ready
      ensures View() == P.Attach(old(View()), fence, handle)
    {
      live := Some(P.Live(fence, handle, None, false));
      if handle != fence {
        FailClosed();
      }
    }

    /** quiesce() fulfilled: the live record of that handle keeps the outcome. */
    method Quiesced(handle: Fence, outcome: Outcome)
      modifies this`proofs, this`live
      ensures View() == P.RecordQuiet(old(View()), handle, outcome)
    {
      proofs := proofs + {handle};
      if live.Some? && live.value.handle == handle && live.value.outcome.None? {
        live := Some(live.value.(outcome := Some(outcome)));
      }
    }

    method MustPublish(fence: Fence, outcome: Outcome) returns (must: bool)
      ensures must == P.MustPublish(setup, View(), fence, outcome)
    {
      must := outcome.ResultOutcome? && setup.config.publisher && SlotIs(row, fence) && row.slot.value.stopReason.None?;
    }

    method PublishAndFinish(fence: Fence, outcome: Outcome, pass: nat)
      modifies this`row, this`outbox, this`live, this`settling
      ensures View() == P.PublishThenFinish(setup, old(View()), fence, outcome, pass)
      ensures outbox == old(outbox) + P.EndSends(old(row), P.PublishEnds(setup, old(View()), fence, outcome))
    {
      var must := MustPublish(fence, outcome);
      if must {
        settling := P.AwaitPublish(fence, outcome, pass);
      } else {
        Finish(fence, outcome);
        settling := P.Loop(pass + 1);
      }
    }

    method CommitStart(fence: Fence, pass: nat)
      modifies this`row, this`starting, this`settling
      ensures View() == P.CommitStart(old(View()), fence, pass)
    {
      var state := new State(row);
      var committed := state.MarkStarting(fence);
      if committed {
        row, starting, settling := state.Row(), true, P.AwaitStart(fence, false, pass);
      } else {
        settling := P.Loop(pass + 1);
      }
    }

    /** The settle loop's decision about the slot. */
    method SettleSlot(pass: nat)
      modifies this`row, this`outbox, this`live, this`settling, this`starting, this`faulted, this`ready
      ensures View() == P.SettleSlot(setup, old(View()), pass)
      ensures outbox == old(outbox) + P.EndSends(old(row), P.SettleEnds(setup, old(View())))
    {
      if row.slot.None? {
        settling := P.Idle;
        return;
      }
      var run := row.slot.value;
      if live.Some? && live.value.fence != run.fence {
        FailClosed();
        settling := P.Idle;
      } else if live.Some? && live.value.outcome.Some? {
        PublishAndFinish(run.fence, live.value.outcome.value, pass);
      } else if run.phase.Prepared? {
        SettlePrepared(run.fence, pass);
      } else if run.phase.Stopping? {
        SettleStopping(run, pass);
      } else {
        if live.Some? && live.value.closedFault && !run.phase.RecoveryRequired? {
          Park(run.fence, ExecutionInterrupted);
        }
        settling := P.Idle;
      }
    }

    method SettlePrepared(fence: Fence, pass: nat)
      modifies this`row, this`outbox, this`live, this`settling, this`starting
      ensures View() == P.SettlePrepared(setup, old(View()), fence, pass)
      ensures outbox == old(outbox) + P.EndSends(old(row), if setup.config.driver then None
                                                           else Some((fence, OwnFailure(DriverUnavailable))))
    {
      if !setup.config.driver {
        Finish(fence, OwnFailure(DriverUnavailable));
        settling := P.Loop(pass + 1);
      } else if setup.workspace {
        settling := P.Preparing(fence, pass);
      } else {
        CommitStart(fence, pass);
      }
    }

    method SettleStopping(run: DurableRun, pass: nat)
      modifies this`row, this`outbox, this`live, this`settling
      ensures View() == P.SettleStopping(old(View()), run, pass)
      ensures outbox == old(outbox) + P.EndSends(old(row), if run.mayHaveStarted then None
                                                           else Some((run.fence, OwnFailure(StoppedByDriver))))
    {
      if !run.mayHaveStarted {
        Finish(run.fence, OwnFailure(StoppedByDriver));
        settling := P.Loop(pass + 1);
      } else if live.Some? {
        settling := P.AwaitStop(run.fence, live.value.handle, pass);
      } else {
        Park(run.fence, ExecutionInterrupted);
        settling := P.Idle;
      }
    }

    method MarkRunning(fence: Fence)
      modifies this`row
      ensures View() == old(View()).(snap := RunningEvent(old(row), fence))
    {
      var state := new State(row);
      state.MarkRunning(fence);
      row := state.Row();
    }

    /** The driver's call settled. */
    method CallSettled(fence: Fence)
      modifies this`calls, this`starting
      ensures View() == old(View()).(calls := old(calls) - {fence}, starting := false)
    {
      calls, starting := calls - {fence}, false;
    }

    method DropFlags()
      modifies this`starting, this`ready, this`closing, this`faulted
      ensures View() == old(View()).(starting := false, ready := false, closing := false, faulted := false)
    {
      starting, ready, closing, faulted := false, false, false, false;
    }

    method DropWatcher(i: nat)
      requires i < |watchers|
      modifies this`watchers, this`starting
      ensures View() == P.DropLate(old(View()), i)
    {
      watchers := watchers[..i] + watchers[i + 1..];
      starting := false;
    }

    // ---- Events ----

    method Consumed(env: Envelope, now: int, authorized: bool, policyOk: bool, runId: Uuid) returns (ok: bool)
      modifies this`row, this`outbox, this`effects, this`faulted, this`ready
      ensures var w, r := old(View()),
              ConsumeEvent(setup.config, old(row), env, now, authorized, old(ready), closing, policyOk, runId);
              && ok == r.Ok? && View() == (if ok then w.(snap := r.value.state) else P.FailClosed(w))
              && if ok then outbox == old(outbox) + r.value.outbox && effects == old(effects) + Intents(r.value)
                  else outbox == old(outbox) && effects == old(effects)
    {
      var state := new State(row);
      var messages, intents;
      ok, messages, intents := state.Consume(setup.config, env, now, authorized, ready, closing, policyOk, runId);
      if ok {
        row, outbox, effects := state.Row(), outbox + messages, effects + intents;
      } else {
        FailClosed();
      }
    }

    /** The change and its messages are committed together, or the executor latches a fault. */
    method Consume(env: Envelope, now: int, authorized: bool, policyOk: bool, runId: Uuid)
      requires Valid() && P.Enabled(setup, View(), P.Consume(env, now, authorized, policyOk, runId))
      modifies this
      ensures Did(P.Consume(env, now, authorized, policyOk, runId)) &&
              Sent(P.Consume(env, now, authorized, policyOk, runId))
    {
      ghost var was := View();
      var ok := Consumed(env, now, authorized, policyOk, runId);
      Logged(was, P.Consume(env, now, authorized, policyOk, runId));
    }

    method Tick(now: int, progressId: Uuid)
      requires Valid() && P.Enabled(setup, View(), P.Tick(now, progressId))
      modifies this
      ensures Did(P.Tick(now, progressId)) && Sent(P.Tick(now, progressId))
    {
      ghost var was := View();
      var ok := Ticked(now, progressId);
      Logged(was, P.Tick(now, progressId));
    }

    method Ticked(now: int, progressId: Uuid) returns (ok: bool)
      modifies this`row, this`outbox, this`faulted, this`ready
      ensures var w, r := old(View()), TickEvent(old(row), now, progressId);
              && ok == r.Ok? && View() == (if ok then w.(snap := r.value.state) else P.FailClosed(w))
              && outbox == if ok then old(outbox) + r.value.outbox else old(outbox)
    {
      var state := new State(row);
      var messages;
      ok, messages := state.Tick(now, progressId);
      if ok {
        row, outbox := state.Row(), outbox + messages;
      } else {
        FailClosed();
      }
    }

    method Close()
      requires Valid() && P.Enabled(setup, View(), P.Close)
      modifies this`closing, this`row, this`log
      ensures Did(P.Close)
    {
      ghost var was := View();
      closing := true;
      if !faulted {
        var state := new State(row);
        state.Shutdown();
        row := state.Row();
      }
      Logged(was, P.Close);
    }

    method Settle()
      requires Valid() && P.Enabled(setup, View(), P.SettleBegin)
      modifies this`faulted, this`ready, this`settling, this`log
      ensures Did(P.SettleBegin)
    {
      ghost var was := View();
      if faulted {
        FailClosed();
      } else if !ready {
        settling := P.Recovering;
      } else {
        settling := P.Loop(0);
      }
      Logged(was, P.SettleBegin);
    }

    method Recovered()
      requires Valid() && P.Enabled(setup, View(), P.SettleRecovered)
      modifies this`settling, this`log
      ensures Did(P.SettleRecovered)
    {
      ghost var was := View();
      settling := if faulted then P.Idle else P.Loop(0);
      Logged(was, P.SettleRecovered);
    }

    method PassStep(now: int, progressId: Uuid)
      requires settling.Loop?
      modifies this`row, this`outbox, this`live, this`settling, this`starting, this`faulted, this`ready
      ensures View() == P.SettleOnce(setup, old(View()), now, progressId)
      ensures var w, r := old(View()), TickEvent(old(row), now, progressId);
              outbox == if !P.Ticks(w, now, progressId) then old(outbox)
                        else old(outbox) + (r.value.outbox + P.EndSends(r.value.state,
                            P.SettleEnds(setup, w.(snap := r.value.state))))
    {
      var pass := settling.pass;
      if pass >= 4 {
        settling := P.Idle;
      } else if faulted {
        FailClosed();
        settling := P.Idle;
      } else {
        var ok := Ticked(now, progressId);
        if ok {
          SettleSlot(pass);
        } else {
          settling := P.Idle;
        }
      }
    }

    /** One pass of the settle loop, to the next await or to its end. */
    method Pass(now: int, progressId: Uuid)
      requires Valid() && P.Enabled(setup, View(), P.SettlePass(now, progressId))
      modifies this
      ensures Did(P.SettlePass(now, progressId)) && Sent(P.SettlePass(now, progressId))
    {
      ghost var was := View();
      PassStep(now, progressId);
      Logged(was, P.SettlePass(now, progressId));
    }

    method Prepared(ok: bool)
      requires Valid() && P.Enabled(setup, View(), P.PrepareDone(ok))
      modifies this
      ensures Did(P.PrepareDone(ok)) && Sent(P.PrepareDone(ok))
    {
      ghost var was := View();
      var fence, pass := settling.fence, settling.pass;
      if ok {
        CommitStart(fence, pass);
      } else {
        Finish(fence, OwnFailure(WorkspacePrepareFailed));
        settling := P.Loop(pass + 1);
      }
      Logged(was, P.PrepareDone(ok));
    }

    method Invoke()
      requires Valid() && P.Enabled(setup, View(), P.Invoke)
      modifies this`settling, this`calls, this`starts, this`log
      ensures Did(P.Invoke)
    {
      ghost var was := View();
      var fence := settling.fence;
      settling := settling.(invoked := true);
      calls, starts := calls + {fence}, starts + [fence];
      Logged(was, P.Invoke);
    }

    /** driver.start resolved within its bound. */
    method Started(handle: Fence)
      requires Valid() && P.Enabled(setup, View(), P.StartResolved(handle))
      modifies this`calls, this`starting, this`live, this`faulted, this`ready, this`settling, this`row, this`log
      ensures Did(P.StartResolved(handle))
    {
      ghost var was := View();
      var fence, pass := settling.fence, settling.pass;
      CallSettled(fence);
      Attach(fence, handle);
      if faulted {
        settling := P.Idle;
      } else {
        MarkRunning(fence);
        settling := P.Loop(pass + 1);
      }
      Logged(was, P.StartResolved(handle));
    }

    method StartFailed()
      requires Valid() && P.Enabled(setup, View(), P.StartRejected)
      modifies this`calls, this`starting, this`row, this`settling, this`log
      ensures Did(P.StartRejected)
    {
      ghost var was := View();
      var fence, pass := settling.fence, settling.pass;
      CallSettled(fence);
      Park(fence, ExecutionInterrupted);
      settling := P.Loop(pass + 1);
      Logged(was, P.StartRejected);
    }

    /** The start keeps its watcher, and the latch, until the call itself settles. */
    method StartTimedOut()
      requires Valid() && P.Enabled(setup, View(), P.StartTimeout)
      modifies this`watchers, this`row, this`settling, this`log
      ensures Did(P.StartTimeout)
    {
      ghost var was := View();
      var fence, pass := settling.fence, settling.pass;
      watchers := watchers + [P.LatePending(fence, settling.invoked)];
      Park(fence, DriverStartTimeout);
      settling := P.Loop(pass + 1);
      Logged(was, P.StartTimeout);
    }

    method Stopped(outcome: Outcome)
      requires Valid() && P.Enabled(setup, View(), P.StopResolved(outcome))
      modifies this
      ensures Did(P.StopResolved(outcome)) && Sent(P.StopResolved(outcome))
    {
      ghost var was := View();
      var fence, pass := settling.fence, settling.pass;
      Quiesced(settling.handle, outcome);
      PublishAndFinish(fence, outcome, pass);
      Logged(was, P.StopResolved(outcome));
    }

    method StopTimedOut()
      requires Valid() && P.Enabled(setup, View(), P.StopTimeout)
      modifies this`row, this`settling, this`log
      ensures Did(P.StopTimeout)
    {
      ghost var was := View();
      var fence, pass := settling.fence, settling.pass;
      Park(fence, ExecutionInterrupted);
      settling := P.Loop(pass + 1);
      Logged(was, P.StopTimeout);
    }

    method Published(outcome: Outcome)
      requires Valid() && P.Enabled(setup, View(), P.PublishDone(outcome))
      modifies this
      ensures Did(P.PublishDone(outcome)) && Sent(P.PublishDone(outcome))
    {
      ghost var was := View();
      var fence, pass := settling.fence, settling.pass;
      Finish(fence, outcome);
      settling := P.Loop(pass + 1);
      Logged(was, P.PublishDone(outcome));
    }

    method LateInvoke(i: nat)
      requires Valid() && P.Enabled(setup, View(), P.LateInvoke(i))
      modifies this`watchers, this`calls, this`starts, this`log
      ensures Did(P.LateInvoke(i))
    {
      ghost var was := View();
      var fence := watchers[i].fence;
      watchers := watchers[i := P.LatePending(fence, true)];
      calls, starts := calls + {fence}, starts + [fence];
      Logged(was, P.LateInvoke(i));
    }

    method LateAttached(i: nat, fence: Fence, handle: Fence)
      requires i < |watchers|
      modifies this`watchers, this`starting
      ensures View() == if handle != fence then P.DropLate(old(View()), i)
              else P.SetLate(old(View()), i, P.LateStop(fence))
    {
      if handle != fence {
        DropWatcher(i);
      } else {
        watchers := watchers[i := P.LateStop(fence)];
      }
    }

    method LateStarted(i: nat, handle: Fence)
      requires Valid() && P.Enabled(setup, View(), P.LateResolved(i, handle))
      modifies this`calls, this`live, this`faulted, this`ready, this`watchers, this`starting, this`log
      ensures Did(P.LateResolved(i, handle))
    {
      ghost var was := View();
      var fence := watchers[i].fence;
      calls := calls - {fence};
      Attach(fence, handle);
      LateAttached(i, fence, handle);
      Logged(was, P.LateResolved(i, handle));
    }

    method LateFailed(i: nat)
      requires Valid() && P.Enabled(setup, View(), P.LateRejected(i))
      modifies this`calls, this`watchers, this`starting, this`log
      ensures Did(P.LateRejected(i))
    {
      ghost var was := View();
      calls := calls - {watchers[i].fence};
      DropWatcher(i);
      Logged(was, P.LateRejected(i));
    }

    method LateFinish(i: nat, fence: Fence, outcome: Outcome)
      requires i < |watchers|
      modifies this`row, this`outbox, this`live, this`watchers
      ensures var w := old(View());
              View() == if P.MustPublish(setup, w, fence, outcome) then P.SetLate(w, i, P.LatePublish(fence, outcome))
                        else P.SetLate(P.Finish(w, fence, outcome), i, P.LateRelease(fence))
      ensures outbox == old(outbox) + P.EndSends(old(row), P.PublishEnds(setup, old(View()), fence, outcome))
    {
      var must := MustPublish(fence, outcome);
      if must {
        watchers := watchers[i := P.LatePublish(fence, outcome)];
      } else {
        Finish(fence, outcome);
        watchers := watchers[i := P.LateRelease(fence)];
      }
    }

    method LateStopped(i: nat, outcome: Outcome)
      requires Valid() && P.Enabled(setup, View(), P.LateStopResolved(i, outcome))
      modifies this
      ensures Did(P.LateStopResolved(i, outcome)) && Sent(P.LateStopResolved(i, outcome))
    {
      ghost var was := View();
      var fence := watchers[i].fence;
      Quiesced(fence, outcome);
      if faulted {
        DropWatcher(i);
      } else {
        LateFinish(i, fence, outcome);
      }
      Logged(was, P.LateStopResolved(i, outcome));
    }

    method LateStopTimedOut(i: nat)
      requires Valid() && P.Enabled(setup, View(), P.LateStopTimeout(i))
      modifies this`row, this`watchers, this`starting, this`log
      ensures Did(P.LateStopTimeout(i))
    {
      ghost var was := View();
      if !faulted {
        Park(watchers[i].fence, DriverStartTimeout);
      }
      DropWatcher(i);
      Logged(was, P.LateStopTimeout(i));
    }

    method LatePublished(i: nat, outcome: Outcome)
      requires Valid() && P.Enabled(setup, View(), P.LatePublishDone(i, outcome))
      modifies this
      ensures Did(P.LatePublishDone(i, outcome)) && Sent(P.LatePublishDone(i, outcome))
    {
      ghost var was := View();
      var fence := watchers[i].fence;
      Finish(fence, outcome);
      watchers := watchers[i := P.LateRelease(fence)];
      Logged(was, P.LatePublishDone(i, outcome));
    }

    method LateReleased(i: nat)
      requires Valid() && P.Enabled(setup, View(), P.LateReleased(i))
      modifies this`watchers, this`starting, this`log
      ensures Did(P.LateReleased(i))
    {
      ghost var was := View();
      DropWatcher(i);
      Logged(was, P.LateReleased(i));
    }

    method Recover()
      requires Valid() && P.Enabled(setup, View(), P.RecoverBegin)
      modifies this`recovering, this`ready, this`log
      ensures Did(P.RecoverBegin)
    {
      ghost var was := View();
      var slot := row.slot;
      if slot.Some? && slot.value.mayHaveStarted && (live.None? || slot.value.phase.RecoveryRequired?) {
        recovering := P.AwaitRecover(slot.value.fence);
      } else {
        ready := true;
      }
      Logged(was, P.RecoverBegin);
    }

    /** A healthy recover(): proof that the old run stopped ends it, anything else parks it. */
    method Reconciled(fence: Fence, stopped: bool)
      modifies this`row, this`outbox, this`live, this`proofs, this`recovering, this`ready
      ensures var w := old(View());
              View() == (if stopped then P.Finish(w.(proofs := w.proofs + {fence}), fence,
                  OwnFailure(Failure.Stopped(ExecutionInterrupted)))
                         else P.Park(w, fence, ExecutionInterrupted)).(recover := P.NoRecover, ready := true)
      ensures outbox == old(outbox) + P.EndSends(old(row), if stopped
                        then Some((fence, OwnFailure(Failure.Stopped(ExecutionInterrupted)))) else None)
    {
      if stopped {
        proofs := proofs + {fence};
        Finish(fence, OwnFailure(Failure.Stopped(ExecutionInterrupted)));
      } else {
        Park(fence, ExecutionInterrupted);
      }
      recovering, ready := P.NoRecover, true;
    }

    method Return(stopped: bool)
      requires recovering.AwaitRecover?
      modifies this`row, this`outbox, this`live, this`proofs, this`recovering, this`ready, this`faulted
      ensures var w := old(View());
              var p := if stopped then w.(proofs := w.proofs + {w.recover.fence}) else w;
              View() == if w.faulted then P.FailClosed(p).(recover := P.NoRecover)
                        else (if stopped then P.Finish(p, w.recover.fence,
                            OwnFailure(Failure.Stopped(ExecutionInterrupted)))
                              else P.Park(p, w.recover.fence, ExecutionInterrupted)).(recover := P.NoRecover,
                                  ready := true)
      ensures outbox == old(outbox) + P.EndSends(old(row), if stopped && !old(faulted)
                        then Some((old(recovering).fence, OwnFailure(Failure.Stopped(ExecutionInterrupted)))) else None)
    {
      if faulted {
        FailClosed();
        proofs, recovering := if stopped then proofs + {recovering.fence} else proofs, P.NoRecover;
      } else {
        Reconciled(recovering.fence, stopped);
      }
    }

    method RecoverReturned(stopped: bool)
      requires Valid() && P.Enabled(setup, View(), P.RecoverReturn(stopped))
      modifies this
      ensures Did(P.RecoverReturn(stopped)) && Sent(P.RecoverReturn(stopped))
    {
      ghost var was := View();
      Return(stopped);
      Logged(was, P.RecoverReturn(stopped));
    }

    method HandleClosed(outcome: Outcome)
      requires Valid() && P.Enabled(setup, View(), P.HandleClosed(outcome))
      modifies this`proofs, this`live, this`log
      ensures Did(P.HandleClosed(outcome))
    {
      ghost var was := View();
      proofs := proofs + {live.value.handle};
      live := Some(live.value.(outcome := Some(outcome)));
      Logged(was, P.HandleClosed(outcome));
    }

    method HandleFaulted()
      requires Valid() && P.Enabled(setup, View(), P.HandleClosedFault)
      modifies this`live, this`log
      ensures Did(P.HandleClosedFault)
    {
      ghost var was := View();
      live := Some(live.value.(closedFault := true));
      Logged(was, P.HandleClosedFault);
    }

    method Fail()
      requires Valid() && P.Enabled(setup, View(), P.Fault)
      modifies this`faulted, this`ready, this`log
      ensures Did(P.Fault)
    {
      ghost var was := View();
      FailClosed();
      Logged(was, P.Fault);
    }

    /** A crash and a new process over the same store. */
    method Restart()
      requires Valid() && P.Enabled(setup, View(), P.Crash)
      modifies this`live, this`starting, this`ready, this`closing, this`faulted, this`settling, this`watchers,
               this`recovering, this`calls, this`log
      ensures Did(P.Crash)
    {
      ghost var was := View();
      DropFlags();
      live, calls := None, {};
      settling, watchers, recovering := P.Idle, [], P.NoRecover;
      Logged(was, P.Crash);
    }

    /** The driver's own moves: work that begins and ends. */
    ghost method Driver(e: P.Event)
      requires Valid() && P.Enabled(setup, View(), e) && (e.DriverBegins? || e.DriverEnds?)
      modifies this`running, this`log
      ensures Did(e)
    {
      P.StepsAppend(setup, P.INIT, log, e);
      running := if e.DriverBegins? then running + {e.fence} else running - {e.fence};
      log := log + [e];
    }
  }

  /**
   * Whatever an executor object has been through, crashes included: no fence was started twice, and its state is
   * one the protocol's invariant admits.
   */
  lemma EveryExecutorStartsOnce(x: Executor)
    requires x.Valid() && ValidConfig(x.setup.config)
    ensures ExecutorSafety.Inv(x.View())
    ensures forall i, j :: 0 <= i < j < |x.starts| ==> x.starts[i] != x.starts[j]
  {
    ExecutorSafety.InitInv();
    ExecutorExclusion.ReachableInv(x.setup, P.INIT, x.View(), x.log);
  }
}
