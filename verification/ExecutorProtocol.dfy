/**
 * The durable executor against its driver, over every interleaving.
 *
 * Each asynchronous function of the executor (settle, start, the watcher of a timed-out start, stop,
 * recover) is a program counter; one event runs the synchronous code between two awaits. The driver is
 * a non-deterministic port: a start that was invoked may produce work at any later time until its
 * quiescence was proved, and a call still in flight may produce work even then. A crash drops every
 * volatile field and keeps the snapshot.
 */
module ExecutorProtocol {
  import opened Core
  import opened Wire
  import opened Lease
  import opened ExecutorState

  datatype Live = Live(fence: Fence, handle: Fence, outcome: Option<Outcome>, closedFault: bool)

  datatype SettlePc =
    | Idle
    | Recovering                                              // waits for recover()
    | Loop(pass: nat)                                         // head of the bounded loop
    | Preparing(fence: Fence, pass: nat)                      // waits for workspace.prepare
    | AwaitStart(fence: Fence, invoked: bool, pass: nat)      // waits for driver.start, bounded
    | AwaitStop(fence: Fence, handle: Fence, pass: nat)       // waits for quiescence, bounded
    | AwaitPublish(fence: Fence, outcome: Outcome, pass: nat) // waits for publisher.publish

  /** A start whose bounded wait timed out keeps a watcher until the call itself settles. */
  datatype Late =
    | LatePending(fence: Fence, invoked: bool)
    | LateStop(fence: Fence)
    | LatePublish(fence: Fence, outcome: Outcome)
    | LateRelease(fence: Fence)                               // finished; waits for workspace.release

  datatype RecoverPc = NoRecover | AwaitRecover(fence: Fence)

  datatype World = World(
    snap: Snapshot,                                           // durable
    live: Option<Live>, starting: bool, ready: bool, closing: bool, faulted: bool,
    settle: SettlePc, late: seq<Late>, recover: RecoverPc,    // volatile
    calls: set<Fence>,                                        // driver.start calls in flight
    starts: seq<Fence>,                                       // every driver.start ever invoked
    running: set<Fence>,                                      // external work that exists now
    proofs: set<Fence>)                                       // fences proved quiescent

  const INIT := World(EMPTY, None, false, false, false, false, Idle, [], NoRecover, {}, [], {}, {})

  datatype Setup = Setup(config: Config, workspace: bool)

  datatype Event =
    | Consume(env: Envelope, now: int, authorized: bool, policyOk: bool, runId: Uuid)
    | Tick(now: int, progressId: Uuid)
    | Close
    | SettleBegin
    | SettleRecovered
    | SettlePass(now: int, progressId: Uuid)
    | PrepareDone(ok: bool)
    | Invoke
    | StartResolved(handle: Fence)
    | StartRejected
    | StartTimeout
    | StopResolved(outcome: Outcome)
    | StopTimeout
    | PublishDone(outcome: Outcome)
    | LateInvoke(i: nat)
    | LateResolved(i: nat, handle: Fence)
    | LateRejected(i: nat)
    | LateStopResolved(i: nat, outcome: Outcome)
    | LateStopTimeout(i: nat)
    | LatePublishDone(i: nat, outcome: Outcome)
    | LateReleased(i: nat)
    | RecoverBegin
    | RecoverReturn(stopped: bool)
    | HandleClosed(outcome: Outcome)
    | HandleClosedFault
    | DriverBegins(fence: Fence)
    | DriverEnds(fence: Fence)
    | Fault
    | Crash

  // ---- Pieces of synchronous code ----

  function FailClosed(w: World): World {
    w.(faulted := true, ready := false)
  }

  function Finish(w: World, f: Fence, outcome: Outcome): World {
    w.(snap := FinishEvent(w.snap, f, outcome).state,
       live := if w.live.Some? && w.live.value.fence == f then None else w.live)
  }

  function Park(w: World, f: Fence, reason: StopReason): World {
    w.(snap := UnknownEvent(w.snap, f, reason).state)
  }

  /** publishAndFinish up to its first await. */
  predicate MustPublish(c: Setup, w: World, f: Fence, outcome: Outcome) {
    outcome.ResultOutcome? && c.config.publisher && SlotIs(w.snap, f) && w.snap.slot.value.stopReason.None?
  }

  function PublishThenFinish(c: Setup, w: World, f: Fence, outcome: Outcome, pass: nat): World {
    if MustPublish(c, w, f, outcome) then w.(settle := AwaitPublish(f, outcome, pass))
    else Finish(w, f, outcome).(settle := Loop(pass + 1))
  }

  function CommitStart(w: World, f: Fence, pass: nat): World {
    match StartingEvent(w.snap, f)
    case None => w.(settle := Loop(pass + 1))
    case Some(s) => w.(snap := s, starting := true, settle := AwaitStart(f, false, pass))
  }

  /** One pass of the settle loop, from its head to the next await or to its end. */
  function SettleOnce(c: Setup, w: World, now: int, progressId: Uuid): World
    requires w.settle.Loop?
  {
    var pass := w.settle.pass;
    if pass >= 4 then w.(settle := Idle)
    else if w.faulted then FailClosed(w).(settle := Idle)
    else
      var ticked := TickEvent(w.snap, now, progressId);
      if ticked.Err? then FailClosed(w).(settle := Idle)
      else SettleSlot(c, w.(snap := ticked.value.state), pass)
  }

  function SettlePrepared(c: Setup, w: World, f: Fence, pass: nat): World {
    if !c.config.driver then Finish(w, f, OwnFailure(DriverUnavailable)).(settle := Loop(pass + 1))
    else if c.workspace then w.(settle := Preparing(f, pass))
    else CommitStart(w, f, pass)
  }

  function SettleStopping(w: World, run: DurableRun, pass: nat): World {
    if !run.mayHaveStarted then Finish(w, run.fence, OwnFailure(StoppedByDriver)).(settle := Loop(pass + 1))
    else if w.live.Some? then w.(settle := AwaitStop(run.fence, w.live.value.handle, pass))
    else Park(w, run.fence, ExecutionInterrupted).(settle := Idle)
  }

  function SettleSlot(c: Setup, w: World, pass: nat): World {
    if w.snap.slot.None? then w.(settle := Idle)
    else
      var run := w.snap.slot.value;
      if w.live.Some? && w.live.value.fence != run.fence then FailClosed(w).(settle := Idle)
      else if w.live.Some? && w.live.value.outcome.Some? then
        PublishThenFinish(c, w, run.fence, w.live.value.outcome.value, pass)
      else if run.phase.Prepared? then SettlePrepared(c, w, run.fence, pass)
      else if run.phase.Stopping? then SettleStopping(w, run, pass)
      else if w.live.Some? && w.live.value.closedFault && !run.phase.RecoveryRequired? then
        Park(w, run.fence, ExecutionInterrupted).(settle := Idle)
      else w.(settle := Idle)
  }

  /** attach(): a handle of another run latches a fault before any of its closures can count. */
  function Attach(w: World, f: Fence, handle: Fence): World {
    var attached := w.(live := Some(Live(f, handle, None, false)));
    if handle != f then FailClosed(attached) else attached
  }

  /** quiesce() fulfilled: the handle is quiescent, and the live record of that handle keeps the outcome. */
  function RecordQuiet(w: World, handle: Fence, outcome: Outcome): World {
    w.(proofs := w.proofs + {handle},
       live := if w.live.Some? && w.live.value.handle == handle && w.live.value.outcome.None?
               then Some(w.live.value.(outcome := Some(outcome))) else w.live)
  }

  function DropLate(w: World, i: nat): World
    requires i < |w.late|
  {
    w.(late := w.late[..i] + w.late[i + 1..], starting := false)
  }

  function SetLate(w: World, i: nat, l: Late): World
    requires i < |w.late|
  {
    w.(late := w.late[i := l])
  }

  function RecoverStart(w: World): World {
    var slot := w.snap.slot;
    if slot.Some? && slot.value.mayHaveStarted && (w.live.None? || slot.value.phase.RecoveryRequired?)
    then w.(recover := AwaitRecover(slot.value.fence))
    else w.(ready := true)
  }

  // ---- Enabledness: program counters, and the driver's contract ----

  predicate Enabled(c: Setup, w: World, e: Event) {
    match e
    case Consume(_, now, _, _, _) => !w.faulted && now >= 0
    case Tick(now, _) => !w.faulted && Nonnegative(now)
    case Close => true
    case SettleBegin => w.settle.Idle?
    case SettleRecovered => w.settle.Recovering? && w.recover.NoRecover? && (w.ready || w.faulted)
    case SettlePass(now, _) => w.settle.Loop? && Nonnegative(now)
    case PrepareDone(_) => w.settle.Preparing?
    case Invoke => w.settle.AwaitStart? && !w.settle.invoked && !w.faulted
    case StartResolved(handle) => w.settle.AwaitStart? && w.settle.invoked && handle in w.starts
    case StartRejected => w.settle.AwaitStart? && (w.settle.invoked || w.faulted)
    case StartTimeout => w.settle.AwaitStart?
    case StopResolved(_) => w.settle.AwaitStop? && w.settle.handle !in w.running
    case StopTimeout => w.settle.AwaitStop?
    case PublishDone(_) => w.settle.AwaitPublish?
    case LateInvoke(i) => i < |w.late| && w.late[i].LatePending? && !w.late[i].invoked && !w.faulted
    case LateResolved(i, handle) => i < |w.late| && w.late[i].LatePending? && w.late[i].invoked && handle in w.starts
    case LateRejected(i) => i < |w.late| && w.late[i].LatePending? && (w.late[i].invoked || w.faulted)
    case LateStopResolved(i, _) => i < |w.late| && w.late[i].LateStop? && w.late[i].fence !in w.running
    case LateStopTimeout(i) => i < |w.late| && w.late[i].LateStop?
    case LatePublishDone(i, _) => i < |w.late| && w.late[i].LatePublish?
    case LateReleased(i) => i < |w.late| && w.late[i].LateRelease?
    case RecoverBegin =>
      !w.faulted && w.recover.NoRecover? && !w.starting && !(w.ready && !w.settle.Idle?)
    case RecoverReturn(stopped) => w.recover.AwaitRecover? && (stopped ==> w.recover.fence !in w.running)
    case HandleClosed(_) => w.live.Some? && w.live.value.handle !in w.running
    case HandleClosedFault => w.live.Some?
    case DriverBegins(f) => f in w.calls || (f in w.starts && f !in w.proofs)
    case DriverEnds(f) => f in w.running
    case Fault => true
    case Crash => true
  }

  function Apply(c: Setup, w: World, e: Event): World
    requires Enabled(c, w, e)
  {
    match e
    case Consume(env, now, authorized, policyOk, runId) =>
      var r := ConsumeEvent(c.config, w.snap, env, now, authorized, w.ready, w.closing, policyOk, runId);
      if r.Err? then FailClosed(w) else w.(snap := r.value.state)
    case Tick(now, progressId) =>
      var r := TickEvent(w.snap, now, progressId);
      if r.Err? then FailClosed(w) else w.(snap := r.value.state)
    case Close => if w.faulted then w.(closing := true) else w.(closing := true, snap := ShutdownEvent(w.snap))
    case SettleBegin =>
      if w.faulted then FailClosed(w)
      else if !w.ready then w.(settle := Recovering)
      else w.(settle := Loop(0))
    case SettleRecovered => if w.faulted then w.(settle := Idle) else w.(settle := Loop(0))
    case SettlePass(now, progressId) => SettleOnce(c, w, now, progressId)
    case PrepareDone(ok) =>
      if ok then CommitStart(w, w.settle.fence, w.settle.pass)
      else Finish(w, w.settle.fence, OwnFailure(WorkspacePrepareFailed)).(settle := Loop(w.settle.pass + 1))
    case Invoke =>
      w.(settle := w.settle.(invoked := true), calls := w.calls + {w.settle.fence},
          starts := w.starts + [w.settle.fence])
    case StartResolved(handle) =>
      var f := w.settle.fence;
      var a := Attach(w.(calls := w.calls - {f}, starting := false), f, handle);
      if a.faulted then a.(settle := Idle)
      else a.(snap := RunningEvent(a.snap, f), settle := Loop(w.settle.pass + 1))
    case StartRejected =>
      Park(w.(calls := w.calls - {w.settle.fence}, starting := false), w.settle.fence, ExecutionInterrupted)
        .(settle := Loop(w.settle.pass + 1))
    case StartTimeout =>
      Park(w.(late := w.late + [LatePending(w.settle.fence, w.settle.invoked)]), w.settle.fence, DriverStartTimeout)
        .(settle := Loop(w.settle.pass + 1))
    case StopResolved(outcome) =>
      PublishThenFinish(c, RecordQuiet(w, w.settle.handle, outcome), w.settle.fence, outcome, w.settle.pass)
    case StopTimeout =>
      Park(w, w.settle.fence, ExecutionInterrupted).(settle := Loop(w.settle.pass + 1))
    case PublishDone(outcome) =>
      Finish(w, w.settle.fence, outcome).(settle := Loop(w.settle.pass + 1))
    case LateInvoke(i) =>
      var f := w.late[i].fence;
      SetLate(w, i, LatePending(f, true)).(calls := w.calls + {f}, starts := w.starts + [f])
    case LateResolved(i, handle) =>
      var f := w.late[i].fence;
      var a := Attach(w.(calls := w.calls - {f}), f, handle);
      if handle != f then DropLate(a, i) else SetLate(a, i, LateStop(f))
    case LateRejected(i) => DropLate(w.(calls := w.calls - {w.late[i].fence}), i)
    case LateStopResolved(i, outcome) =>
      var f := w.late[i].fence;
      var p := RecordQuiet(w, f, outcome);
      if w.faulted then DropLate(p, i)
      else if MustPublish(c, p, f, outcome) then SetLate(p, i, LatePublish(f, outcome))
      else SetLate(Finish(p, f, outcome), i, LateRelease(f))
    case LateStopTimeout(i) =>
      DropLate(if w.faulted then w else Park(w, w.late[i].fence, DriverStartTimeout), i)
    case LatePublishDone(i, outcome) => SetLate(Finish(w, w.late[i].fence, outcome), i, LateRelease(w.late[i].fence))
    case LateReleased(i) => DropLate(w, i)
    case RecoverBegin => RecoverStart(w)
    case RecoverReturn(stopped) =>
      var f := w.recover.fence;
      var p := if stopped then w.(proofs := w.proofs + {f}) else w;
      if w.faulted then FailClosed(p).(recover := NoRecover)
      else
        (if stopped then Finish(p, f, OwnFailure(Stopped(ExecutionInterrupted))) else Park(p, f, ExecutionInterrupted))
          .(recover := NoRecover, ready := true)
    case HandleClosed(outcome) =>
      w.(proofs := w.proofs + {w.live.value.handle}, live := Some(w.live.value.(outcome := Some(outcome))))
    case HandleClosedFault => w.(live := Some(w.live.value.(closedFault := true)))
    case DriverBegins(f) => w.(running := w.running + {f})
    case DriverEnds(f) => w.(running := w.running - {f})
    case Fault => FailClosed(w)
    case Crash =>
      w.(live := None, starting := false, ready := false, closing := false, faulted := false,
         settle := Idle, late := [], recover := NoRecover, calls := {})
  }

  // ---- What a step sends ----

  /** The snapshot a step ends a run in: the settle loop ticks first. */
  function Before(w: World, e: Event): Snapshot {
    if e.SettlePass? && TickEvent(w.snap, e.now, e.progressId).Ok?
    then TickEvent(w.snap, e.now, e.progressId).value.state else w.snap
  }

  /** The settle loop has something to do: it did not end before its tick. */
  predicate Ticks(w: World, now: int, progressId: Uuid)
    requires w.settle.Loop?
  {
    w.settle.pass < 4 && !w.faulted && TickEvent(w.snap, now, progressId).Ok?
  }

  /** What publishAndFinish ends at once. */
  function PublishEnds(c: Setup, w: World, f: Fence, outcome: Outcome): Option<(Fence, Outcome)> {
    if MustPublish(c, w, f, outcome) then None else Some((f, outcome))
  }

  /** The run and the outcome that one pass of the settle loop hands to finish(). */
  function SettleEnds(c: Setup, w: World): Option<(Fence, Outcome)> {
    if w.snap.slot.None? then None
    else
      var run := w.snap.slot.value;
      if w.live.Some? && w.live.value.fence != run.fence then None
      else if w.live.Some? && w.live.value.outcome.Some? then PublishEnds(c, w, run.fence, w.live.value.outcome.value)
      else if run.phase.Prepared? && !c.config.driver then Some((run.fence, OwnFailure(DriverUnavailable)))
      else if run.phase.Stopping? && !run.mayHaveStarted then Some((run.fence, OwnFailure(StoppedByDriver)))
      else None
  }

  /** The run and the outcome that a step hands to finish(), if it calls it. */
  function Ends(c: Setup, w: World, e: Event): Option<(Fence, Outcome)>
    requires Enabled(c, w, e)
  {
    match e
    case SettlePass(now, progressId) =>
      if Ticks(w, now, progressId) then SettleEnds(c, w.(snap := Before(w, e))) else None
    case PrepareDone(ok) => if ok then None else Some((w.settle.fence, OwnFailure(WorkspacePrepareFailed)))
    case StopResolved(outcome) => PublishEnds(c, w, w.settle.fence, outcome)
    case PublishDone(outcome) => Some((w.settle.fence, outcome))
    case LateStopResolved(i, outcome) => if w.faulted then None else PublishEnds(c, w, w.late[i].fence, outcome)
    case LatePublishDone(i, outcome) => Some((w.late[i].fence, outcome))
    case RecoverReturn(stopped) =>
      if stopped && !w.faulted then Some((w.recover.fence, OwnFailure(Stopped(ExecutionInterrupted)))) else None
    case _ => None
  }

  /** What consuming or ticking sends, before any report. */
  function Replies(c: Setup, w: World, e: Event): seq<Outbound>
    requires Enabled(c, w, e)
  {
    match e
    case Consume(env, now, authorized, policyOk, runId) =>
      var r := ConsumeEvent(c.config, w.snap, env, now, authorized, w.ready, w.closing, policyOk, runId);
      if r.Ok? then r.value.outbox else []
    case Tick(now, progressId) =>
      var r := TickEvent(w.snap, now, progressId);
      if r.Ok? then r.value.outbox else []
    case SettlePass(now, progressId) =>
      if Ticks(w, now, progressId) then TickEvent(w.snap, now, progressId).value.outbox else []
    case _ => []
  }

  function EndSends(s: Snapshot, ends: Option<(Fence, Outcome)>): seq<Outbound> {
    if ends.Some? then FinishEvent(s, ends.value.0, ends.value.1).outbox else []
  }

  /** Everything a step commits to the outbox, in order. */
  function Sends(c: Setup, w: World, e: Event): seq<Outbound>
    requires Enabled(c, w, e)
  {
    Replies(c, w, e) + EndSends(Before(w, e), Ends(c, w, e))
  }

  /** The executor.run intents a step records. */
  function Intents(c: Setup, w: World, e: Event): seq<Fence>
    requires Enabled(c, w, e)
  {
    if !e.Consume? then []
    else
      var r := ConsumeEvent(c.config, w.snap, e.env, e.now, e.authorized, w.ready, w.closing, e.policyOk, e.runId);
      if r.Ok? && r.value.effect.Some? then [r.value.effect.value] else []
  }

  /** A run of the system from the empty store. */
  predicate Execution(c: Setup, ws: seq<World>, es: seq<Event>) {
    && |ws| == |es| + 1 && ws[0] == INIT
    && forall i :: 0 <= i < |es| ==> Enabled(c, ws[i], es[i]) && ws[i + 1] == Apply(c, ws[i], es[i])
  }

  /** Where a list of events leads from w, if every one of them is enabled in turn. */
  function Steps(c: Setup, w: World, es: seq<Event>): Option<World>
    decreases |es|
  {
    if es == [] then Some(w)
    else if Enabled(c, w, es[0]) then Steps(c, Apply(c, w, es[0]), es[1..])
    else None
  }

  ghost predicate Reaches(c: Setup, w: World, t: World) {
    exists es :: Steps(c, w, es) == Some(t)
  }

  lemma {:induction false} StepsAppend(c: Setup, w: World, es: seq<Event>, e: Event)
    requires Steps(c, w, es).Some? && Enabled(c, Steps(c, w, es).value, e)
    ensures Steps(c, w, es + [e]) == Some(Apply(c, Steps(c, w, es).value, e))
    decreases |es|
  {
    if es == [] {
      assert Steps(c, Apply(c, w, e), []) == Some(Apply(c, w, e));
      assert ([] + [e])[1..] == [];
    } else {
      StepsAppend(c, Apply(c, w, es[0]), es[1..], e);
      assert (es + [e])[1..] == es[1..] + [e];
    }
  }

  lemma ReachesItself(c: Setup, w: World)
    ensures Reaches(c, w, w)
  {
    assert Steps(c, w, []) == Some(w);
  }

  lemma ReachesNext(c: Setup, w: World, t: World, e: Event)
    requires Reaches(c, w, t) && Enabled(c, t, e)
    ensures Reaches(c, w, Apply(c, t, e))
  {
    var es :| Steps(c, w, es) == Some(t);
    StepsAppend(c, w, es, e);
  }
}
