/**
 * One lead task and its executors on a single clock, joined by a network that may lose, duplicate and
 * reorder messages: does a new attempt ever overlap the lease of an earlier one?
 */
module LeaseProtocol {
  import opened Core
  import opened Wire
  import opened Lease
  import E = ExecutorState
  import L = LeadMachine
  import T = LeadTimers

  /** An executor: its durable snapshot, and the attempts of the task whose offers it has consumed. */
  datatype Node = Node(config: E.Config, snap: E.Snapshot, applied: set<int>)

  /**
   * Everything ever sent stays deliverable, so delivery may repeat, reorder or never happen. `hasty` is history
   * only: the attempts that an owner or an expired offer forced away too early.
   */
  datatype World = World(now: int, rec: L.Record, execs: map<Uuid, Node>, sent: set<Envelope>, hasty: set<int>)

  datatype Setting = Setting(lead: Uuid, team: Uuid, task: Uuid, p: Params)

  datatype Stamp = Stamp(id: Uuid, exp: int)

  datatype Move =
    | Advance(d: nat)
    | Foreign(env: Envelope)
    | LeadEvent(e: L.Event, stamp: Stamp)
    | LeadHears(env: Envelope, accepts: bool, stamp: Stamp)
    | Consumes(node: Uuid, env: Envelope, authorized: bool, ready: bool, closing: bool, policyOk: bool,
               runId: Uuid, stamp: Stamp)
    | Ticks(node: Uuid, stamp: Stamp)
    | Finishes(node: Uuid, fence: Fence, outcome: Outcome, stamp: Stamp)
    | Parks(node: Uuid, fence: Fence, reason: StopReason)
    | Starts(node: Uuid, fence: Fence)
    | Runs(node: Uuid, fence: Fence)
    | ShutsDown(node: Uuid)

  function Seal(s: Setting, from: Uuid, o: Outbound, now: int, stamp: Stamp): Envelope {
    Envelope(stamp.id, from, s.team, o.to, true, Some(now), Some(stamp.exp), o.task, o.attempt, o.body)
  }

  /** Sent by this lead about this task. */
  predicate Ours(s: Setting, env: Envelope) {
    env.from == s.lead && env.task == Some(s.task)
  }

  /** The event in the record's own time; timers fire only when due, dispatchTo only at attempt 0. */
  predicate LeadMay(w: World, e: L.Event) {
    && e.now == w.now && !e.Message?
    && (e.Dispatch? ==> w.rec.attempt == 0)
    && (e.Timer? ==> T.DueTimer(w.rec, w.now) == Some(e.timer))
  }

  predicate Enabled(s: Setting, w: World, m: Move) {
    match m
    case Advance(_) => true
    case Foreign(env) => env.task == Some(s.task) ==> env.from != s.lead && env.from !in w.execs
    case LeadEvent(e, _) => LeadMay(w, e)
    case LeadHears(env, _, _) => env in w.sent && env.to == s.lead && env.task == Some(s.task)
    case Consumes(node, env, _, _, _, _, _, _) => node in w.execs && env in w.sent && env.to == node
    case _ => m.node in w.execs
  }

  function Mail(s: Setting, from: Uuid, outs: seq<Outbound>, now: int, stamp: Stamp): set<Envelope> {
    set o | o in outs :: Seal(s, from, o, now, stamp)
  }

  function LeadMail(s: Setting, actions: seq<L.Action>, now: int, stamp: Stamp): set<Envelope> {
    set a | a in actions && a.Send? :: Seal(s, s.lead, a.msg, now, stamp)
  }

  // ---- When an attempt may be forced away ----

  /** The owner asks for another node while an attempt is out, or its offer expires unanswered. */
  predicate Forces(r: L.Record, e: L.Event) {
    || (e.OwnerRedispatches? && (r.state.Offered? || r.state.Running?))
    || (e.Timer? && e.timer.OfferTtlTimer? && r.state.Offered?)
  }

  function OfferTtlAt(c: E.Config, env: Envelope): Field<int>
    requires env.body.Offer?
  {
    OrDefault(env.body.offer.offerTtlMs, c.offerTtlMsAid)
  }

  function OfferLeaseAt(c: E.Config, env: Envelope): Field<int>
    requires env.body.Offer?
  {
    OrDefault(env.body.offer.leaseMs, c.leaseMsAid)
  }

  /** The executor can read the offer's times at all. */
  predicate Takeable(c: E.Config, env: Envelope) {
    env.body.Offer? && OfferTtlAt(c, env).Val? && OfferLeaseAt(c, env).Val? && env.ts.Some? && env.exp.Some?
  }

  /** The end of the lease of a run that takes the offer at the last moment this executor would. */
  function LatestEnd(c: E.Config, env: Envelope): int
    requires Takeable(c, env)
  {
    Min(env.ts.value + OfferTtlAt(c, env).v, env.exp.value) - 1 + Min(OfferLeaseAt(c, env).v, c.leaseMsAid)
  }

  predicate OffersAttempt(s: Setting, env: Envelope, n: int) {
    Ours(s, env) && env.body.Offer? && env.attempt == Some(n)
  }

  /** Whoever still takes the offer of attempt n has lost its lease by t. */
  predicate Lapses(s: Setting, w: World, n: int, t: int) {
    forall env :: env in w.sent && OffersAttempt(s, env, n) && env.to in w.execs
                  && Takeable(w.execs[env.to].config, env) ==>
      LatestEnd(w.execs[env.to].config, env) <= t
  }

  /**
   * What the lead can check before it forces an attempt away: after the drain a running attempt will have used up
   * the lease counted from the last word heard, and an open offer even the latest lease it can still lead to.
   */
  predicate Outlasted(s: Setting, w: World) {
    var until := w.now + s.p.drainMs;
    if w.rec.state.Running? then
      w.rec.leaseDeadline.Some? && w.rec.leaseDeadline.value - LostAfterMs(w.rec.leaseMs, s.p) + w.rec.leaseMs <= until
    else Lapses(s, w, w.rec.attempt, until)
  }

  predicate Hasty(s: Setting, w: World, e: L.Event) {
    Forces(w.rec, e) && !Outlasted(s, w)
  }

  function LeadStep(s: Setting, w: World, e: L.Event, stamp: Stamp): World {
    var step := L.Apply(w.rec, e, s.p);
    w.(rec := step.rec, sent := w.sent + LeadMail(s, step.actions, w.now, stamp),
       hasty := if Hasty(s, w, e) then w.hasty + {w.rec.attempt} else w.hasty)
  }

  function Hearing(env: Envelope, now: int, accepts: bool): L.Event {
    L.Message(env.from, if env.attempt.Some? then env.attempt.value else 0, env.body, now, Some(env.msgId), accepts)
  }

  function ExecStep(s: Setting, w: World, x: Uuid, node: Node, outs: seq<Outbound>, stamp: Stamp): World {
    w.(execs := w.execs[x := node], sent := w.sent + Mail(s, x, outs, w.now, stamp))
  }

  /** An offer of the task that this node consumed before is a duplicate and changes nothing. */
  predicate Duplicate(s: Setting, n: Node, env: Envelope) {
    env.body.Offer? && Ours(s, env) && env.attempt.Some? && env.attempt.value in n.applied
  }

  function AppliedAfter(s: Setting, n: Node, env: Envelope): set<int> {
    if env.body.Offer? && Ours(s, env) && env.attempt.Some? then n.applied + {env.attempt.value} else n.applied
  }

  function Next(s: Setting, w: World, m: Move): World
    requires Enabled(s, w, m)
  {
    match m
    case Advance(d) => w.(now := w.now + d)
    case Foreign(env) => w.(sent := w.sent + {env})
    case LeadEvent(e, stamp) => LeadStep(s, w, e, stamp)
    case LeadHears(env, accepts, stamp) => LeadStep(s, w, Hearing(env, w.now, accepts), stamp)
    case Consumes(x, env, authorized, ready, closing, policyOk, runId, stamp) =>
      var n := w.execs[x];
      var r := E.ConsumeEvent(n.config, n.snap, env, w.now, authorized, ready, closing, policyOk, runId);
      if Duplicate(s, n, env) || r.Err? then w
      else ExecStep(s, w, x, n.(snap := r.value.state, applied := AppliedAfter(s, n, env)), r.value.outbox, stamp)
    case Ticks(x, stamp) =>
      var r := E.TickEvent(w.execs[x].snap, w.now, stamp.id);
      if r.Err? then w else ExecStep(s, w, x, w.execs[x].(snap := r.value.state), r.value.outbox, stamp)
    case Finishes(x, f, outcome, stamp) =>
      var c := E.FinishEvent(w.execs[x].snap, f, outcome);
      ExecStep(s, w, x, w.execs[x].(snap := c.state), c.outbox, stamp)
    case Parks(x, f, reason) =>
      ExecStep(s, w, x, w.execs[x].(snap := E.UnknownEvent(w.execs[x].snap, f, reason).state), [], Stamp(0, 0))
    case Starts(x, f) =>
      var t := E.StartingEvent(w.execs[x].snap, f);
      if t.None? then w else ExecStep(s, w, x, w.execs[x].(snap := t.value), [], Stamp(0, 0))
    case Runs(x, f) =>
      ExecStep(s, w, x, w.execs[x].(snap := E.RunningEvent(w.execs[x].snap, f)), [], Stamp(0, 0))
    case ShutsDown(x) =>
      ExecStep(s, w, x, w.execs[x].(snap := E.ShutdownEvent(w.execs[x].snap)), [], Stamp(0, 0))
  }

  predicate Moves(s: Setting, w: World, m: Move, v: World) {
    Enabled(s, w, m) && v == Next(s, w, m)
  }

  ghost predicate Execution(s: Setting, ws: seq<World>, ms: seq<Move>) {
    |ws| == |ms| + 1 && forall i :: 0 <= i < |ms| ==> Moves(s, ws[i], ms[i], ws[i + 1])
  }

  /** Every lease an executor may grant is covered by the lead's loss and drain windows. */
  ghost predicate Covered(s: Setting, c: E.Config) {
    forall l :: 0 < l <= c.leaseMsAid ==> DrainCoversLease(l, s.p)
  }

  /** A task nobody has heard of, executors with any past on other tasks. */
  ghost predicate Start(s: Setting, w: World) {
    && (w.rec == L.Fresh(s.task, Aid, s.p) || w.rec == L.Fresh(s.task, Project, s.p))
    && s.lead !in w.execs && w.hasty == {}
    && (forall env :: env in w.sent ==> env.task != Some(s.task))
    && forall x :: x in w.execs ==>
         && E.ValidConfig(w.execs[x].config) && Covered(s, w.execs[x].config)
         && w.execs[x].applied == {} && Strange(s, w.execs[x].snap)
  }

  predicate Strange(s: Setting, n: E.Snapshot) {
    && (n.slot.Some? ==> n.slot.value.fence.task != s.task)
    && (n.last.Some? ==> n.last.value.fence.task != s.task)
  }

  /** The node holds the run of attempt n. */
  predicate Holds(s: Setting, n: E.Snapshot, attempt: int) {
    n.slot.Some? && n.slot.value.lead == s.lead && n.slot.value.fence.task == s.task &&
    n.slot.value.fence.attempt == attempt
  }

  // ---- The invariant ----

  ghost predicate LeadMailInv(s: Setting, w: World) {
    && s.lead !in w.execs
    && w.rec.task == s.task && w.rec.attempt >= 0
    && (forall env :: env in w.sent && Ours(s, env) ==>
          && env.attempt.Some? && env.attempt.value <= w.rec.attempt
          && (env.body.Offer? ==> env.attempt.value >= 1)
          && (env.body.Offer? && env.attempt.value == w.rec.attempt ==> w.rec.target == Some(env.to))
          && (env.body.Renew? ==>
                env.body.deadlineMs.Val? && (env.attempt.value == w.rec.attempt ==> w.rec.accepted)))
  }

  predicate Ending(b: Body) {
    b.Reject? || b.Delivery? || b.Fail? || b.CancelAck?
  }

  /** What a message from executor x to the lead says about x. */
  predicate Testifies(s: Setting, n: Node, env: Envelope) {
    && (env.body.Accept? || Ending(env.body) ==> env.attempt.Some? && env.attempt.value in n.applied)
    && (Ending(env.body) ==> !Holds(s, n.snap, env.attempt.value))
    && (env.body.Accept? ==>
          && env.body.leaseMs.Val? && 0 < env.body.leaseMs.v <= n.config.leaseMsAid
          && (Holds(s, n.snap, env.attempt.value) ==> n.snap.slot.value.leaseMs == env.body.leaseMs.v))
  }

  ghost predicate ExecMailInv(s: Setting, w: World) {
    forall env :: env in w.sent && env.from in w.execs && env.to == s.lead && env.task == Some(s.task) ==>
      Testifies(s, w.execs[env.from], env)
  }

  ghost predicate NodeInv(s: Setting, now: int, attempt: int, n: Node) {
    && E.ValidConfig(n.config) && Covered(s, n.config)
    && (forall a :: a in n.applied ==> 1 <= a <= attempt)
    && (n.snap.slot.Some? && n.snap.slot.value.lead == s.lead && n.snap.slot.value.fence.task == s.task ==>
          && n.snap.slot.value.fence.attempt in n.applied
          && n.snap.slot.value.leaseDeadline <= now + n.snap.slot.value.leaseMs
          && 0 < n.snap.slot.value.leaseMs <= n.config.leaseMsAid)
    && (n.snap.last.Some? && n.snap.last.value.lead == s.lead && n.snap.last.value.fence.task == s.task ==>
          && n.snap.last.value.fence.attempt in n.applied
          && !Holds(s, n.snap, n.snap.last.value.fence.attempt))
  }

  ghost predicate NodesInv(s: Setting, w: World) {
    forall x :: x in w.execs ==> NodeInv(s, w.now, w.rec.attempt, w.execs[x])
  }

  /** Only the current target can have consumed the current offer. */
  ghost predicate Placed(w: World) {
    forall x :: x in w.execs && w.rec.attempt in w.execs[x].applied ==> w.rec.target == Some(x)
  }

  /** The offer of attempt n can no longer be taken anywhere. */
  ghost predicate Consumed(s: Setting, w: World, n: int) {
    forall env :: env in w.sent && OffersAttempt(s, env, n) && env.to in w.execs ==> n in w.execs[env.to].applied
  }

  ghost predicate NobodyHolds(s: Setting, w: World, n: int) {
    forall x :: x in w.execs ==> !Holds(s, w.execs[x].snap, n)
  }

  /** Neither a run of attempt n nor a renewal for it reaches beyond t. */
  ghost predicate Bounded(s: Setting, w: World, n: int, t: int) {
    && (forall x :: x in w.execs && Holds(s, w.execs[x].snap, n) ==> w.execs[x].snap.slot.value.leaseDeadline <= t)
    && (forall env :: env in w.sent && Ours(s, env) && env.body.Renew? && env.attempt == Some(n)
                      && env.body.deadlineMs.Val? ==>
          env.body.deadlineMs.v <= t)
  }

  /** From t on, attempt n has no unexpired run and never will have. */
  ghost predicate Over(s: Setting, w: World, n: int, t: int) {
    || (Consumed(s, w, n) && NobodyHolds(s, w, n))
    || (Bounded(s, w, n, t) && (Consumed(s, w, n) || Lapses(s, w, n, t)))
  }

  /** A run holds the lease it was given when it took the offer, or one the lead renewed. */
  ghost predicate Sourced(s: Setting, w: World, x: Uuid, n: int, deadline: int)
    requires x in w.execs
  {
    TakenBy(s, w, x, n, w.execs[x].config, deadline) || Renewed(s, w, n, deadline)
  }

  ghost predicate TakenBy(s: Setting, w: World, x: Uuid, n: int, c: E.Config, deadline: int) {
    exists env :: env in w.sent && OffersAttempt(s, env, n) && env.to == x && Takeable(c, env) &&
        deadline <= LatestEnd(c, env)
  }

  ghost predicate Renewed(s: Setting, w: World, n: int, deadline: int) {
    exists env :: env in w.sent && Ours(s, env) && env.body.Renew? && env.attempt == Some(n) &&
        env.body.deadlineMs == Val(deadline)
  }

  ghost predicate RunsSourced(s: Setting, w: World) {
    forall x, n :: x in w.execs && Holds(s, w.execs[x].snap, n) ==>
        Sourced(s, w, x, n, w.execs[x].snap.slot.value.leaseDeadline)
  }

  ghost predicate Past(s: Setting, w: World) {
    forall n :: 1 <= n < w.rec.attempt && n !in w.hasty ==> Over(s, w, n, w.now)
  }

  /** What the lead's deadlines say about the current attempt. */
  ghost predicate Present(s: Setting, w: World) {
    var r := w.rec;
    && (r.state.Drafting? && r.attempt >= 1 && r.attempt !in w.hasty ==> Over(s, w, r.attempt, w.now))
    && (r.state.Reclaiming? && r.attempt !in w.hasty ==>
          r.drainUntil.Some? && Over(s, w, r.attempt, r.drainUntil.value))
    && (r.state.Running? ==>
          && r.accepted && r.leaseDeadline.Some? && Consumed(s, w, r.attempt) &&
              (NobodyHolds(s, w, r.attempt) || DrainCoversLease(r.leaseMs, s.p))
          && r.leaseDeadline.value - LostAfterMs(r.leaseMs, s.p) <= w.now
          && Over(s, w, r.attempt, r.leaseDeadline.value - LostAfterMs(r.leaseMs, s.p) + r.leaseMs))
    && (r.state.Offered? || r.state.Running? || r.state.Reclaiming? ==> r.attempt >= 1)
    && (r.state.Offered? ==> !r.accepted)
  }

  ghost predicate Inv(s: Setting, w: World) {
    LeadMailInv(s, w) && ExecMailInv(s, w) && NodesInv(s, w) && Placed(w) && RunsSourced(s, w) && Past(s, w) &&
        Present(s, w)
  }

  lemma StartInv(s: Setting, w: World)
    requires Start(s, w)
    ensures Inv(s, w)
  {
  }

  // ---- Time and strangers ----

  lemma OverLater(s: Setting, w: World, n: int, t: int, u: int)
    requires Over(s, w, n, t) && t <= u
    ensures Over(s, w, n, u)
  {
  }

  lemma AdvanceKeeps(s: Setting, w: World, d: nat)
    requires Inv(s, w)
    ensures Inv(s, w.(now := w.now + d))
  {
    var v := w.(now := w.now + d);
    forall n, t, u | Over(s, w, n, t) && t <= u ensures Over(s, v, n, u) {
      OverWaits(s, w, d, n, t, u);
    }
    RunsSourcedLast(s, w, v);
  }

  lemma OverWaits(s: Setting, w: World, d: nat, n: int, t: int, u: int)
    requires Over(s, w, n, t) && t <= u
    ensures Over(s, w.(now := w.now + d), n, u)
  {
    var v := w.(now := w.now + d);
    assert Consumed(s, w, n) ==> Consumed(s, v, n);
    assert NobodyHolds(s, w, n) ==> NobodyHolds(s, v, n);
    assert Bounded(s, w, n, t) ==> Bounded(s, v, n, u);
    assert Lapses(s, w, n, t) ==> Lapses(s, v, n, u);
  }

  /** More mail, and the same executors' settings: where a lease came from stays true. */
  lemma SourcedLasts(s: Setting, w: World, v: World, x: Uuid, n: int, deadline: int)
    requires x in w.execs && x in v.execs && v.execs[x].config == w.execs[x].config && w.sent <= v.sent
    requires Sourced(s, w, x, n, deadline)
    ensures Sourced(s, v, x, n, deadline)
  {
    if Renewed(s, w, n, deadline) {
      var env :| env in w.sent && Ours(s, env) && env.body.Renew? && env.attempt == Some(n) &&
          env.body.deadlineMs == Val(deadline);
      assert env in v.sent;
    } else {
      var c := w.execs[x].config;
      var env :| env in w.sent && OffersAttempt(s, env, n) && env.to == x && Takeable(c, env) &&
          deadline <= LatestEnd(c, env);
      assert env in v.sent;
    }
  }

  /** Mail that is not an offer or renewal of this task leaves every conclusion standing. */
  lemma OverWithMail(s: Setting, w: World, more: set<Envelope>, n: int, t: int)
    requires Over(s, w, n, t)
    requires forall env :: env in more && Ours(s, env) ==> !env.body.Renew? && !env.body.Offer?
    ensures Over(s, w.(sent := w.sent + more), n, t)
  {
    var v := w.(sent := w.sent + more);
    assert Consumed(s, w, n) ==> Consumed(s, v, n);
    assert NobodyHolds(s, w, n) ==> NobodyHolds(s, v, n);
    assert Bounded(s, w, n, t) ==> Bounded(s, v, n, t);
    assert Lapses(s, w, n, t) ==> Lapses(s, v, n, t);
  }

  lemma RunsSourcedLast(s: Setting, w: World, v: World)
    requires RunsSourced(s, w) && v.execs == w.execs && w.sent <= v.sent
    ensures RunsSourced(s, v)
  {
    forall x, n | x in v.execs && Holds(s, v.execs[x].snap, n)
      ensures Sourced(s, v, x, n, v.execs[x].snap.slot.value.leaseDeadline)
    {
      SourcedLasts(s, w, v, x, n, w.execs[x].snap.slot.value.leaseDeadline);
    }
  }

  lemma ForeignKeeps(s: Setting, w: World, env: Envelope)
    requires Inv(s, w) && Enabled(s, w, Foreign(env))
    ensures Inv(s, w.(sent := w.sent + {env}))
  {
    forall n, t | Over(s, w, n, t) ensures Over(s, w.(sent := w.sent + {env}), n, t) {
      OverWithMail(s, w, {env}, n, t);
    }
    RunsSourcedLast(s, w, w.(sent := w.sent + {env}));
  }

  // ---- Executor moves ----

  /** A run came from an offer the node had not consumed, or was held before, perhaps renewed since. */
  ghost predicate RunEvolves(s: Setting, w: World, x: Uuid, node: Node)
    requires x in w.execs
  {
    var was := w.execs[x];
    forall n :: Holds(s, node.snap, n) ==>
      var run := node.snap.slot.value;
      if Holds(s, was.snap, n) then
        && run.leaseMs == was.snap.slot.value.leaseMs && run.leaseDeadline <= w.now + run.leaseMs
        && (run.leaseDeadline == was.snap.slot.value.leaseDeadline || Renewed(s, w, n, run.leaseDeadline))
      else
        && n !in was.applied && n in node.applied && TakenBy(s, w, x, n, node.config, run.leaseDeadline)
        && run.leaseDeadline == w.now + run.leaseMs && 0 < run.leaseMs <= node.config.leaseMsAid
  }

  ghost predicate Evolves(s: Setting, w: World, x: Uuid, node: Node, outs: seq<Outbound>)
    requires x in w.execs
  {
    && node.config == w.execs[x].config
    && w.execs[x].applied <= node.applied
    && (w.rec.attempt in node.applied ==> w.rec.target == Some(x))
    && RunEvolves(s, w, x, node)
    && NodeInv(s, w.now, w.rec.attempt, node)
    && (forall o :: o in outs && o.to == s.lead && o.task == Some(s.task) ==>
          Testifies(s, node, Seal(s, x, o, w.now, Stamp(0, 0))))
  }

  lemma OverEvolves(s: Setting, w: World, x: Uuid, node: Node, outs: seq<Outbound>, stamp: Stamp, n: int, t: int)
    requires Inv(s, w) && x in w.execs && Evolves(s, w, x, node, outs) && Over(s, w, n, t)
    ensures Over(s, ExecStep(s, w, x, node, outs, stamp), n, t)
  {
    var mid := w.(execs := w.execs[x := node]);
    assert Consumed(s, w, n) ==> Consumed(s, mid, n);
    assert Lapses(s, w, n, t) ==> Lapses(s, mid, n, t);
    if Holds(s, node.snap, n) {
      HeldEvolves(s, w, x, node, outs, n, t);
      assert Bounded(s, mid, n, t);
    } else {
      assert NobodyHolds(s, w, n) ==> NobodyHolds(s, mid, n);
      assert Bounded(s, w, n, t) ==> Bounded(s, mid, n, t);
    }
    OverWithMail(s, mid, Mail(s, x, outs, w.now, stamp), n, t);
  }

  /** A run held now is one that was held and bounded, or was taken from an offer that lapses in time. */
  lemma HeldEvolves(s: Setting, w: World, x: Uuid, node: Node, outs: seq<Outbound>, n: int, t: int)
    requires Inv(s, w) && x in w.execs && Evolves(s, w, x, node, outs) && Over(s, w, n, t) && Holds(s, node.snap, n)
    ensures node.snap.slot.value.leaseDeadline <= t && Bounded(s, w, n, t) && (Consumed(s, w, n) || Lapses(s, w, n, t))
  {
    var run := node.snap.slot.value;
    if Holds(s, w.execs[x].snap, n) {
      assert !NobodyHolds(s, w, n);
      if run.leaseDeadline != w.execs[x].snap.slot.value.leaseDeadline {
        assert Renewed(s, w, n, run.leaseDeadline);
      }
    } else {
      var c := node.config;
      var env :| env in w.sent && OffersAttempt(s, env, n) && env.to == x && Takeable(c, env) &&
          run.leaseDeadline <= LatestEnd(c, env);
      assert !Consumed(s, w, n);
      assert Lapses(s, w, n, t);
    }
  }

  lemma EvolvedSourced(s: Setting, w: World, x: Uuid, node: Node, outs: seq<Outbound>, stamp: Stamp)
    requires Inv(s, w) && x in w.execs && Evolves(s, w, x, node, outs)
    ensures RunsSourced(s, ExecStep(s, w, x, node, outs, stamp))
  {
    var v := ExecStep(s, w, x, node, outs, stamp);
    forall y, n | y in v.execs && Holds(s, v.execs[y].snap, n)
      ensures Sourced(s, v, y, n, v.execs[y].snap.slot.value.leaseDeadline)
    {
      assert Sourced(s, w, y, n, v.execs[y].snap.slot.value.leaseDeadline);
      SourcedLasts(s, w, v, y, n, v.execs[y].snap.slot.value.leaseDeadline);
    }
  }

  lemma EvolvesKeeps(s: Setting, w: World, x: Uuid, node: Node, outs: seq<Outbound>, stamp: Stamp)
    requires Inv(s, w) && x in w.execs && Evolves(s, w, x, node, outs)
    ensures Inv(s, ExecStep(s, w, x, node, outs, stamp))
  {
    var v := ExecStep(s, w, x, node, outs, stamp);
    assert ExecMailInv(s, v) by {
      forall env | env in v.sent && env.from in v.execs && env.to == s.lead && env.task == Some(s.task)
        ensures Testifies(s, v.execs[env.from], env)
      {
        if env in w.sent {
          assert Testifies(s, w.execs[env.from], env);
        } else {
          var o :| o in outs && env == Seal(s, x, o, w.now, stamp);
          assert Testifies(s, node, Seal(s, x, o, w.now, Stamp(0, 0)));
        }
      }
    }
    forall n, t | Over(s, w, n, t) ensures Over(s, v, n, t) {
      OverEvolves(s, w, x, node, outs, stamp, n, t);
    }
    assert Consumed(s, w, w.rec.attempt) ==> Consumed(s, v, w.rec.attempt);
    EvolvedSourced(s, w, x, node, outs, stamp);
    assert LeadMailInv(s, v);
  }

  /** A consumed offer that takes no slot: the node can only have refused it, or ignored it. */
  lemma RefusalEvolves(s: Setting, w: World, x: Uuid, env: Envelope, outs: seq<Outbound>)
    requires Inv(s, w) && x in w.execs && env in w.sent && env.to == x && env.body.Offer?
    requires !Duplicate(s, w.execs[x], env)
    requires forall o :: o in outs ==>
               o.to == env.from && o.task == env.task && o.attempt == env.attempt && o.body.Reject?
    ensures Evolves(s, w, x, w.execs[x].(applied := AppliedAfter(s, w.execs[x], env)), outs)
  {
    assert NodeInv(s, w.now, w.rec.attempt, w.execs[x]);
  }

  /** A consumed offer that takes the free slot. */
  lemma TakeEvolves(s: Setting, w: World, x: Uuid, env: Envelope, run: E.DurableRun, snap: E.Snapshot, out: Outbound)
    requires Inv(s, w) && x in w.execs && env in w.sent && env.to == x && env.body.Offer?
    requires !Duplicate(s, w.execs[x], env) && w.execs[x].snap.slot.None?
    requires env.task == Some(run.fence.task) && env.attempt == Some(run.fence.attempt) && env.from == run.lead
    requires 0 < run.leaseMs <= w.execs[x].config.leaseMsAid && run.leaseDeadline == w.now + run.leaseMs
    requires Takeable(w.execs[x].config, env) && run.leaseDeadline <= LatestEnd(w.execs[x].config, env)
    requires snap.slot == Some(run) && snap.last == w.execs[x].snap.last
    requires out.body.Accept? && out.body.leaseMs == Val(run.leaseMs)
    requires out.to == env.from && out.task == env.task && out.attempt == env.attempt
    ensures Evolves(s, w, x, w.execs[x].(snap := snap, applied := AppliedAfter(s, w.execs[x], env)), [out])
  {
    assert NodeInv(s, w.now, w.rec.attempt, w.execs[x]);
    var node := w.execs[x].(snap := snap, applied := AppliedAfter(s, w.execs[x], env));
    assert RunEvolves(s, w, x, node);
  }

  /** An executor takes an offer only while neither its TTL nor the envelope has run out. */
  lemma TakenInTime(c: E.Config, snap: E.Snapshot, env: Envelope, now: int, allowed: bool, unexpired: bool,
                    ready: bool, closing: bool, policyOk: bool, runId: Uuid)
    requires env.body.Offer? && unexpired == (env.exp.Some? && env.exp.value > now)
    requires E.OfferDenial(c, snap, env, now, allowed, unexpired, ready, closing, policyOk).None?
    ensures env.task.Some? && env.attempt.Some? && Takeable(c, env)
    ensures E.NewRun(c, snap.generation + 1, env, now, runId).leaseDeadline <= LatestEnd(c, env)
  {
  }

  lemma OfferEvolves(s: Setting, w: World, m: Move)
    requires Inv(s, w) && m.Consumes? && Enabled(s, w, m) && m.env.body.Offer?
    requires !Duplicate(s, w.execs[m.node], m.env)
    requires E.ConsumeEvent(w.execs[m.node].config, w.execs[m.node].snap, m.env, w.now, m.authorized, m.ready,
                            m.closing, m.policyOk, m.runId).Ok?
    ensures var n := w.execs[m.node];
            var r := E.ConsumeEvent(n.config, n.snap, m.env, w.now, m.authorized, m.ready, m.closing, m.policyOk,
                m.runId);
            Evolves(s, w, m.node, n.(snap := r.value.state, applied := AppliedAfter(s, n, m.env)), r.value.outbox)
  {
    var n, env := w.execs[m.node], m.env;
    var c := E.ConsumeEvent(n.config, n.snap, env, w.now, m.authorized, m.ready, m.closing, m.policyOk, m.runId).value;
    var allowed := env.fromTeam == n.config.team && m.authorized && env.signed;
    var unexpired := env.exp.Some? && env.exp.value > w.now;
    var denial := E.OfferDenial(n.config, n.snap, env, w.now, allowed, unexpired, m.ready, m.closing, m.policyOk);
    if env.to != n.config.node || denial.Some? {
      RefusalEvolves(s, w, m.node, env, c.outbox);
      assert n.(snap := c.state, applied := AppliedAfter(s, n, env)) == n.(applied := AppliedAfter(s, n, env));
    } else {
      E.AdmittedOffer(n.config, n.snap, env, w.now, allowed, unexpired, m.ready, m.closing, m.policyOk);
      var run := E.NewRun(n.config, n.snap.generation + 1, env, w.now, m.runId);
      assert NodeInv(s, w.now, w.rec.attempt, n);
      TakenInTime(n.config, n.snap, env, w.now, allowed, unexpired, m.ready, m.closing, m.policyOk, m.runId);
      TakeEvolves(s, w, m.node, env, run, c.state, c.outbox[0]);
      assert c.outbox == [c.outbox[0]];
    }
  }

  lemma ControlEvolves(s: Setting, w: World, x: Uuid, env: Envelope)
    requires Inv(s, w) && x in w.execs && env in w.sent && !env.body.Offer?
    ensures var n := w.execs[x]; var c := E.ControlEvent(n.snap, env, w.now);
            Evolves(s, w, x, n.(snap := c.state), c.outbox)
  {
    var n := w.execs[x];
    assert NodeInv(s, w.now, w.rec.attempt, n);
    var c := E.ControlEvent(n.snap, env, w.now);
    assert RunEvolves(s, w, x, n.(snap := c.state));
  }

  /** Evolutions that only relabel the slot. */
  lemma RelabelEvolves(s: Setting, w: World, x: Uuid, snap: E.Snapshot)
    requires Inv(s, w) && x in w.execs
    requires snap.last == w.execs[x].snap.last
    requires snap.slot.Some? <==> w.execs[x].snap.slot.Some?
    requires snap.slot.Some? ==>
               (var was := w.execs[x].snap.slot.value;
                snap.slot.value.fence == was.fence && snap.slot.value.lead == was.lead
                && snap.slot.value.leaseMs == was.leaseMs && snap.slot.value.leaseDeadline == was.leaseDeadline)
    ensures Evolves(s, w, x, w.execs[x].(snap := snap), [])
  {
    assert NodeInv(s, w.now, w.rec.attempt, w.execs[x]);
  }

  lemma TickEvolves(s: Setting, w: World, x: Uuid, id: Uuid)
    requires Inv(s, w) && x in w.execs && E.TickEvent(w.execs[x].snap, w.now, id).Ok?
    ensures var c := E.TickEvent(w.execs[x].snap, w.now, id).value;
            Evolves(s, w, x, w.execs[x].(snap := c.state), c.outbox)
  {
    RelabelEvolves(s, w, x, E.TickEvent(w.execs[x].snap, w.now, id).value.state);
  }

  lemma FinishEvolves(s: Setting, w: World, x: Uuid, f: Fence, outcome: Outcome)
    requires Inv(s, w) && x in w.execs
    ensures var c := E.FinishEvent(w.execs[x].snap, f, outcome); Evolves(s, w, x, w.execs[x].(snap := c.state),
            c.outbox)
  {
    assert NodeInv(s, w.now, w.rec.attempt, w.execs[x]);
  }

  lemma ConsumesKeeps(s: Setting, w: World, m: Move)
    requires Inv(s, w) && m.Consumes? && Enabled(s, w, m)
    ensures Inv(s, Next(s, w, m))
  {
    var n := w.execs[m.node];
    var r := E.ConsumeEvent(n.config, n.snap, m.env, w.now, m.authorized, m.ready, m.closing, m.policyOk, m.runId);
    if !Duplicate(s, n, m.env) && r.Ok? {
      var node := n.(snap := r.value.state, applied := AppliedAfter(s, n, m.env));
      if m.env.body.Offer? {
        OfferEvolves(s, w, m);
      } else {
        ControlEvolves(s, w, m.node, m.env);
        RelabelEvolves(s, w, m.node, n.snap);
      }
      EvolvesKeeps(s, w, m.node, node, r.value.outbox, m.stamp);
    }
  }

  lemma TicksKeeps(s: Setting, w: World, x: Uuid, stamp: Stamp)
    requires Inv(s, w) && x in w.execs
    ensures Inv(s, Next(s, w, Ticks(x, stamp)))
  {
    var n := w.execs[x];
    var r := E.TickEvent(n.snap, w.now, stamp.id);
    if r.Ok? {
      TickEvolves(s, w, x, stamp.id);
      EvolvesKeeps(s, w, x, n.(snap := r.value.state), r.value.outbox, stamp);
    }
  }

  lemma FinishesKeeps(s: Setting, w: World, x: Uuid, f: Fence, outcome: Outcome, stamp: Stamp)
    requires Inv(s, w) && x in w.execs
    ensures Inv(s, Next(s, w, Finishes(x, f, outcome, stamp)))
  {
    FinishEvolves(s, w, x, f, outcome);
    var c := E.FinishEvent(w.execs[x].snap, f, outcome);
    EvolvesKeeps(s, w, x, w.execs[x].(snap := c.state), c.outbox, stamp);
  }

  /** The slot's new label, for the moves that do no more. */
  function Relabelled(snap: E.Snapshot, m: Move): E.Snapshot
    requires m.Parks? || m.Starts? || m.Runs? || m.ShutsDown?
  {
    match m
    case Parks(_, f, reason) => E.UnknownEvent(snap, f, reason).state
    case Starts(_, f) => if E.StartingEvent(snap, f).Some? then E.StartingEvent(snap, f).value else snap
    case Runs(_, f) => E.RunningEvent(snap, f)
    case ShutsDown(_) => E.ShutdownEvent(snap)
  }

  lemma RelabelKeeps(s: Setting, w: World, m: Move)
    requires Inv(s, w) && Enabled(s, w, m) && (m.Parks? || m.Starts? || m.Runs? || m.ShutsDown?)
    ensures Inv(s, Next(s, w, m))
  {
    var snap := Relabelled(w.execs[m.node].snap, m);
    if !m.Starts? || E.StartingEvent(w.execs[m.node].snap, m.fence).Some? {
      RelabelEvolves(s, w, m.node, snap);
      EvolvesKeeps(s, w, m.node, w.execs[m.node].(snap := snap), [], Stamp(0, 0));
    }
  }

  // ---- Lead moves ----

  /** The lead changes nothing an executor keeps, and speaks only at its own attempt. */
  ghost predicate Spoken(s: Setting, w: World, rec: L.Record, actions: seq<L.Action>) {
    && rec.task == w.rec.task && rec.attempt >= w.rec.attempt
    && (forall a :: a in actions && a.Send? ==>
          && a.msg.task == Some(s.task) && a.msg.attempt == Some(rec.attempt)
          && (a.msg.body.Offer? ==> rec.target == Some(a.msg.to) && rec.attempt > w.rec.attempt)
          && (a.msg.body.Renew? ==> a.msg.body.deadlineMs == Val(w.now + w.rec.leaseMs) && rec.accepted))
  }

  /** Runs, renewals and offers of an attempt the lead has nothing more to say about. */
  lemma OverSpoken(s: Setting, w: World, rec: L.Record, actions: seq<L.Action>, stamp: Stamp, n: int, t: int)
    requires Spoken(s, w, rec, actions) && Over(s, w, n, t)
    requires n < rec.attempt || forall a :: a in actions && a.Send? ==> !a.msg.body.Renew? && !a.msg.body.Offer?
    ensures Over(s, w.(rec := rec, sent := w.sent + LeadMail(s, actions, w.now, stamp)), n, t)
    ensures Consumed(s, w, n) ==> Consumed(s, w.(rec := rec, sent := w.sent + LeadMail(s, actions, w.now, stamp)), n)
  {
    var v := w.(rec := rec, sent := w.sent + LeadMail(s, actions, w.now, stamp));
    assert Consumed(s, w, n) ==> Consumed(s, v, n);
    assert NobodyHolds(s, w, n) ==> NobodyHolds(s, v, n);
    assert Bounded(s, w, n, t) ==> Bounded(s, v, n, t);
    assert Lapses(s, w, n, t) ==> Lapses(s, v, n, t);
  }

  /** Everything but the current attempt. */
  lemma SpokenKeeps(s: Setting, w: World, rec: L.Record, actions: seq<L.Action>, stamp: Stamp)
    requires Inv(s, w) && Spoken(s, w, rec, actions)
    requires rec.attempt == w.rec.attempt ==> rec.target == w.rec.target && (w.rec.accepted ==> rec.accepted)
    requires rec.attempt > w.rec.attempt ==> rec.attempt == w.rec.attempt + 1 && w.rec.state.Drafting?
    ensures var v := w.(rec := rec, sent := w.sent + LeadMail(s, actions, w.now, stamp));
            LeadMailInv(s, v) && ExecMailInv(s, v) && NodesInv(s, v) && Placed(v) && RunsSourced(s, v) && Past(s, v)
  {
    var v := w.(rec := rec, sent := w.sent + LeadMail(s, actions, w.now, stamp));
    RunsSourcedLast(s, w, v);
    forall n | 1 <= n < rec.attempt && n !in w.hasty ensures Over(s, v, n, v.now) {
      assert Over(s, w, n, w.now);
      OverSpoken(s, w, rec, actions, stamp, n, w.now);
    }
    forall env | env in v.sent && Ours(s, env) && env !in w.sent
      ensures exists a :: a in actions && a.Send? && env == Seal(s, s.lead, a.msg, w.now, stamp)
    {
    }
    assert NodesInv(s, v) by {
      forall x | x in v.execs ensures NodeInv(s, v.now, v.rec.attempt, v.execs[x]) {
        assert NodeInv(s, w.now, w.rec.attempt, w.execs[x]);
      }
    }
  }

  /** The reply tells that the offer was consumed, and there was only one offer of this attempt. */
  lemma HeardConsumed(s: Setting, w: World, env: Envelope)
    requires Inv(s, w) && env in w.sent && env.to == s.lead && env.task == Some(s.task)
    requires env.body.Accept? || Ending(env.body)
    requires env.attempt == Some(w.rec.attempt) && w.rec.target == Some(env.from)
    ensures Consumed(s, w, w.rec.attempt)
    ensures Ending(env.body) || env.from !in w.execs ==> NobodyHolds(s, w, w.rec.attempt)
    ensures env.body.Accept? && env.from in w.execs ==>
              && env.body.leaseMs.Val? && DrainCoversLease(env.body.leaseMs.v, s.p)
              && (w.rec.state.Offered? ==> Bounded(s, w, w.rec.attempt, w.now + env.body.leaseMs.v))
  {
    forall x | x in w.execs && Holds(s, w.execs[x].snap, w.rec.attempt) ensures x == env.from {
      assert NodeInv(s, w.now, w.rec.attempt, w.execs[x]);
    }
    if env.from in w.execs {
      assert Testifies(s, w.execs[env.from], env);
      assert NodeInv(s, w.now, w.rec.attempt, w.execs[env.from]);
    }
  }

  ghost predicate Speaks(s: Setting, w: World, step: L.Step) {
    && Spoken(s, w, step.rec, step.actions)
    && (step.rec.attempt == w.rec.attempt ==> step.rec.target == w.rec.target && (w.rec.accepted ==> step.rec.accepted))
    && (step.rec.attempt > w.rec.attempt ==> step.rec.attempt == w.rec.attempt + 1 && w.rec.state.Drafting?)
  }

  lemma ReclaimSpeaks(s: Setting, w: World, r: L.Record, reason: CancelReason)
    requires Inv(s, w) && Speaks(s, w, L.Nothing(r)) && r.attempt == w.rec.attempt
    ensures Speaks(s, w, L.BeginReclaim(r, reason, w.now, s.p))
  {
  }

  lemma BudgetSpeaks(s: Setting, w: World, r: L.Record, accepted: bool)
    requires Inv(s, w) && Speaks(s, w, L.Nothing(r)) && r.attempt == w.rec.attempt
    ensures Speaks(s, w, L.BudgetOrEscalate(r, s.p, accepted))
  {
  }

  lemma OfferedSpeaks(s: Setting, w: World, from: Uuid, b: Body)
    requires Inv(s, w) && w.rec.state.Offered?
    ensures Speaks(s, w, L.OnOffered(w.rec, from, b, w.now, s.p))
  {
    if b.Reject? {
      BudgetSpeaks(s, w, L.Exclude(L.Note(w.rec, Some(from), L.HRejected(b.code)), b.code), false);
    }
  }

  lemma RunningSpeaks(s: Setting, w: World, from: Uuid, b: Body, id: Option<Uuid>, accepts: bool)
    requires Inv(s, w) && w.rec.state.Running?
    ensures Speaks(s, w, L.OnRunning(w.rec, from, b, w.now, id, accepts, s.p))
  {
    if b.Delivery? && !accepts {
      var kept := w.rec.(resultBody := Some(b.outcome));
      ReclaimSpeaks(s, w, L.Note(kept, Some(from), L.HAcceptanceFailed), AcceptanceFailed);
    } else if b.Fail? && b.retryable {
      ReclaimSpeaks(s, w, L.Note(w.rec, Some(from), L.HFailRetryable), ReclaimCancel);
    }
  }

  lemma ClosingSpeaks(s: Setting, w: World, b: Body, accepts: bool)
    requires Inv(s, w)
    ensures w.rec.state.Reclaiming? ==> Speaks(s, w, L.OnReclaiming(w.rec, b, accepts, s.p))
    ensures w.rec.state.Cancelling? ==> Speaks(s, w, L.OnCancelling(w.rec, b, accepts))
  {
    BudgetSpeaks(s, w, w.rec.(drainClosed := true), w.rec.accepted);
  }

  lemma HearSpeaks(s: Setting, w: World, e: L.Event)
    requires Inv(s, w) && e.Message? && e.now == w.now
    ensures Speaks(s, w, L.Apply(w.rec, e, s.p))
  {
    if w.rec.state.Offered? {
      OfferedSpeaks(s, w, e.from, e.body);
    } else if w.rec.state.Running? {
      RunningSpeaks(s, w, e.from, e.body, e.msgId, e.accepts);
    } else {
      ClosingSpeaks(s, w, e.body, e.accepts);
    }
  }

  lemma TimerSpeaks(s: Setting, w: World, timer: L.TimerName)
    requires Inv(s, w) && T.DueTimer(w.rec, w.now) == Some(timer)
    ensures Speaks(s, w, L.OnTimer(w.rec, timer, w.now, s.p))
  {
    var r := w.rec;
    if r.state.Offered? {
      ReclaimSpeaks(s, w, L.ExcludeTarget(L.Note(r, r.target, L.HExpired)), ReclaimCancel);
    } else if r.state.Running? {
      ReclaimSpeaks(s, w, L.ExcludeTarget(L.Note(r, r.target, L.HLost)), ReclaimCancel);
    } else if r.state.Reclaiming? {
      BudgetSpeaks(s, w, r.(drainClosed := true), r.accepted);
    }
  }

  lemma OwnerSpeaks(s: Setting, w: World)
    requires Inv(s, w)
    ensures Speaks(s, w, L.RedispatchByOwner(w.rec, w.now, s.p))
    ensures Speaks(s, w, L.CancelByUser(w.rec, w.now, s.p))
  {
    ReclaimSpeaks(s, w, L.Note(L.ExcludeTarget(w.rec), w.rec.target, L.HOwnerRedispatch), ReclaimCancel);
  }

  lemma OfferSpeaks(s: Setting, w: World, target: Uuid, offer: OfferBody)
    requires Inv(s, w)
    ensures w.rec.attempt == 0 ==> Speaks(s, w, L.DispatchTo(w.rec, target, offer, w.now, s.p))
    ensures Speaks(s, w, L.RedispatchTo(w.rec, target, offer, w.now, s.p))
  {
  }

  lemma EventSpeaks(s: Setting, w: World, e: L.Event)
    requires Inv(s, w) && LeadMay(w, e)
    ensures Speaks(s, w, L.Apply(w.rec, e, s.p))
  {
    if e.Timer? {
      TimerSpeaks(s, w, e.timer);
    } else if e.Dispatch? || e.Redispatch? {
      OfferSpeaks(s, w, e.target, e.offer);
    } else {
      OwnerSpeaks(s, w);
    }
  }

  // ---- The current attempt ----

  /** A step after which the lead says neither offer nor renewal at this attempt. */
  predicate Hushed(actions: seq<L.Action>) {
    forall a :: a in actions && a.Send? ==> !a.msg.body.Offer? && !a.msg.body.Renew?
  }

  /** Turning a conclusion about the current attempt into one about the next record. */
  lemma PresentFrom(s: Setting, w: World, step: L.Step, stamp: Stamp, t: int)
    requires Inv(s, w) && Speaks(s, w, step) && step.rec.attempt == w.rec.attempt >= 1 && Hushed(step.actions)
    requires step.rec.state.Drafting? || step.rec.state.Reclaiming?
    requires w.rec.attempt in w.hasty || Over(s, w, w.rec.attempt, t)
    requires step.rec.state.Drafting? ==> t <= w.now
    requires step.rec.state.Reclaiming? ==> step.rec.drainUntil.Some? && t <= step.rec.drainUntil.value
    ensures Inv(s, w.(rec := step.rec, sent := w.sent + LeadMail(s, step.actions, w.now, stamp)))
  {
    var v := w.(rec := step.rec, sent := w.sent + LeadMail(s, step.actions, w.now, stamp));
    SpokenKeeps(s, w, step.rec, step.actions, stamp);
    if w.rec.attempt !in w.hasty {
      OverSpoken(s, w, step.rec, step.actions, stamp, w.rec.attempt, t);
      OverLater(s, v, w.rec.attempt, t, if step.rec.state.Drafting? then w.now else step.rec.drainUntil.value);
    }
  }

  /** Ends and cancellations make no claim about the current attempt. */
  lemma PresentIdle(s: Setting, w: World, step: L.Step, stamp: Stamp)
    requires Inv(s, w) && Speaks(s, w, step)
    requires L.IsTerminal(step.rec.state) || step.rec.state.Cancelling?
    ensures Inv(s, w.(rec := step.rec, sent := w.sent + LeadMail(s, step.actions, w.now, stamp)))
  {
    SpokenKeeps(s, w, step.rec, step.actions, stamp);
  }

  /** Nothing but history, exclusions or mail of no consequence. */
  lemma PresentSame(s: Setting, w: World, step: L.Step, stamp: Stamp)
    requires Inv(s, w) && Speaks(s, w, step) && Hushed(step.actions)
    requires step.rec == w.rec.(history := step.rec.history, excluded := step.rec.excluded,
             resultBody := step.rec.resultBody)
    ensures Inv(s, w.(rec := step.rec, sent := w.sent + LeadMail(s, step.actions, w.now, stamp)))
  {
    var v := w.(rec := step.rec, sent := w.sent + LeadMail(s, step.actions, w.now, stamp));
    SpokenKeeps(s, w, step.rec, step.actions, stamp);
    forall t | Over(s, w, w.rec.attempt, t) ensures Over(s, v, w.rec.attempt, t) {
      OverSpoken(s, w, step.rec, step.actions, stamp, w.rec.attempt, t);
    }
    assert Consumed(s, w, w.rec.attempt) ==> Consumed(s, v, w.rec.attempt);
  }

  lemma OfferKeeps(s: Setting, w: World, e: L.Event, stamp: Stamp)
    requires Inv(s, w) && LeadMay(w, e) && (e.Dispatch? || e.Redispatch?)
    ensures Inv(s, LeadStep(s, w, e, stamp))
  {
    EventSpeaks(s, w, e);
    var step := L.Apply(w.rec, e, s.p);
    if step.rec.attempt == w.rec.attempt {
      PresentSame(s, w, step, stamp);
    } else {
      SpokenKeeps(s, w, step.rec, step.actions, stamp);
    }
  }

  function Told(s: Setting, w: World, step: L.Step, stamp: Stamp): World {
    w.(rec := step.rec, sent := w.sent + LeadMail(s, step.actions, w.now, stamp))
  }

  /** A step on word that the attempt runs, and has a lease counted from now. */
  lemma PresentRunning(s: Setting, w: World, step: L.Step, stamp: Stamp)
    requires Inv(s, w) && Speaks(s, w, step) && step.rec.attempt == w.rec.attempt >= 1
    requires step.rec.state.Running? && step.rec.accepted
    requires step.rec.leaseDeadline == Some(w.now + LostAfterMs(step.rec.leaseMs, s.p))
    requires var v := Told(s, w, step, stamp);
             && Consumed(s, v, w.rec.attempt) && Over(s, v, w.rec.attempt, w.now + step.rec.leaseMs)
             && (NobodyHolds(s, v, w.rec.attempt) || DrainCoversLease(step.rec.leaseMs, s.p))
    ensures Inv(s, Told(s, w, step, stamp))
  {
    SpokenKeeps(s, w, step.rec, step.actions, stamp);
  }

  lemma AcceptKeeps(s: Setting, w: World, env: Envelope, accepts: bool, stamp: Stamp)
    requires Inv(s, w) && Enabled(s, w, LeadHears(env, accepts, stamp)) && env.body.Accept?
    requires w.rec.state.Offered? && w.rec.target == Some(env.from) && env.attempt == Some(w.rec.attempt)
    ensures Inv(s, LeadStep(s, w, Hearing(env, w.now, accepts), stamp))
  {
    OfferedSpeaks(s, w, env.from, env.body);
    AcceptedOver(s, w, env);
    var step := L.OnOffered(w.rec, env.from, env.body, w.now, s.p);
    AcceptOver(s, w, step, stamp);
    PresentRunning(s, w, step, stamp);
    HeardStep(s, w, env, accepts, stamp);
  }

  /** What a message of the current target and attempt does to an open offer. */
  lemma HeardStep(s: Setting, w: World, env: Envelope, accepts: bool, stamp: Stamp)
    requires w.rec.state.Offered? && w.rec.target == Some(env.from) && env.attempt == Some(w.rec.attempt)
    ensures LeadStep(s, w, Hearing(env, w.now, accepts), stamp)
            == Told(s, w, L.OnOffered(w.rec, env.from, env.body, w.now, s.p), stamp)
  {
  }

  function LeaseTold(r: L.Record, b: Body): int
    requires b.Accept?
  {
    if b.leaseMs.Val? then b.leaseMs.v else r.leaseMs
  }

  lemma AcceptedOver(s: Setting, w: World, env: Envelope)
    requires Inv(s, w) && env in w.sent && env.to == s.lead && env.task == Some(s.task) && env.body.Accept?
    requires w.rec.state.Offered? && w.rec.target == Some(env.from) && env.attempt == Some(w.rec.attempt)
    ensures Consumed(s, w, w.rec.attempt)
    ensures Over(s, w, w.rec.attempt, w.now + LeaseTold(w.rec, env.body))
    ensures NobodyHolds(s, w, w.rec.attempt) || DrainCoversLease(LeaseTold(w.rec, env.body), s.p)
  {
    HeardConsumed(s, w, env);
  }

  lemma AcceptOver(s: Setting, w: World, step: L.Step, stamp: Stamp)
    requires Speaks(s, w, step) && step.rec.attempt == w.rec.attempt && Hushed(step.actions)
    requires Consumed(s, w, w.rec.attempt) && Over(s, w, w.rec.attempt, w.now + step.rec.leaseMs)
    ensures var v := Told(s, w, step, stamp);
            && Consumed(s, v, w.rec.attempt) && Over(s, v, w.rec.attempt, w.now + step.rec.leaseMs)
            && (NobodyHolds(s, w, w.rec.attempt) ==> NobodyHolds(s, v, w.rec.attempt))
  {
    OverSpoken(s, w, step.rec, step.actions, stamp, w.rec.attempt, w.now + step.rec.leaseMs);
  }

  lemma ProgressKeeps(s: Setting, w: World, env: Envelope, accepts: bool, stamp: Stamp)
    requires Inv(s, w) && Enabled(s, w, LeadHears(env, accepts, stamp)) && env.body.Progress?
    requires w.rec.state.Running? && w.rec.target == Some(env.from) && env.attempt == Some(w.rec.attempt)
    ensures Inv(s, LeadStep(s, w, Hearing(env, w.now, accepts), stamp))
  {
    RunningSpeaks(s, w, env.from, env.body, Some(env.msgId), accepts);
    var step := L.OnRunning(w.rec, env.from, env.body, w.now, Some(env.msgId), accepts, s.p);
    ProgressOver(s, w, step, stamp);
    PresentRunning(s, w, step, stamp);
  }

  /** Word from the run: no lease of the attempt, nor the renewal it earns, reaches beyond a lease from now. */
  lemma ProgressOver(s: Setting, w: World, step: L.Step, stamp: Stamp)
    requires Inv(s, w) && w.rec.state.Running? && Speaks(s, w, step) && step.rec.attempt == w.rec.attempt
    ensures var v := Told(s, w, step, stamp);
            && Consumed(s, v, w.rec.attempt) && Over(s, v, w.rec.attempt, w.now + w.rec.leaseMs)
            && (NobodyHolds(s, w, w.rec.attempt) ==> NobodyHolds(s, v, w.rec.attempt))
  {
    var n, t := w.rec.attempt, w.now + w.rec.leaseMs;
    var v := w.(rec := step.rec, sent := w.sent + LeadMail(s, step.actions, w.now, stamp));
    assert Consumed(s, v, n);
    if NobodyHolds(s, w, n) {
      assert NobodyHolds(s, v, n);
    } else {
      assert Bounded(s, v, n, t);
    }
  }

  /** A step on word that the run of the current attempt is gone. */
  lemma GoneKeeps(s: Setting, w: World, step: L.Step, stamp: Stamp)
    requires Inv(s, w) && Speaks(s, w, step) && Hushed(step.actions) && w.rec.attempt >= 1
    requires Consumed(s, w, w.rec.attempt) && NobodyHolds(s, w, w.rec.attempt)
    requires step.rec.attempt == w.rec.attempt
    requires || L.IsTerminal(step.rec.state) || step.rec.state.Drafting?
             || (step.rec.state.Reclaiming? && step.rec.drainUntil.Some?)
    ensures Inv(s, w.(rec := step.rec, sent := w.sent + LeadMail(s, step.actions, w.now, stamp)))
  {
    if L.IsTerminal(step.rec.state) {
      PresentIdle(s, w, step, stamp);
    } else {
      var t := if step.rec.state.Drafting? then w.now else step.rec.drainUntil.value;
      assert Over(s, w, w.rec.attempt, t);
      PresentFrom(s, w, step, stamp, t);
    }
  }

  predicate EndingStep(r: L.Record, step: L.Step) {
    && Hushed(step.actions) && step.rec.attempt == r.attempt
    && (if step.rec.state == r.state
        then step.rec == r.(history := step.rec.history, excluded := step.rec.excluded,
            resultBody := step.rec.resultBody)
        else || L.IsTerminal(step.rec.state) || step.rec.state.Drafting?
             || (step.rec.state.Reclaiming? && step.rec.drainUntil.Some?))
  }

  lemma OfferedEnding(r: L.Record, from: Uuid, b: Body, now: int, p: Params)
    requires Ending(b) && r.state.Offered?
    ensures EndingStep(r, L.OnOffered(r, from, b, now, p))
  {
  }

  lemma RunningEnding(r: L.Record, from: Uuid, b: Body, now: int, id: Option<Uuid>, accepts: bool, p: Params)
    requires Ending(b) && r.state.Running?
    ensures EndingStep(r, L.OnRunning(r, from, b, now, id, accepts, p))
  {
  }

  lemma ReclaimingEnding(r: L.Record, b: Body, accepts: bool, p: Params)
    requires Ending(b) && r.state.Reclaiming?
    ensures EndingStep(r, L.OnReclaiming(r, b, accepts, p))
  {
  }

  /** What an ending message can do to the record. */
  lemma EndingShape(r: L.Record, from: Uuid, b: Body, now: int, id: Option<Uuid>, accepts: bool, p: Params)
    requires Ending(b) && r.target == Some(from) && (r.state.Offered? || r.state.Running? || r.state.Reclaiming?)
    ensures EndingStep(r, L.OnMessage(r, from, r.attempt, b, now, id, accepts, p))
  {
    if r.state.Offered? {
      OfferedEnding(r, from, b, now, p);
    } else if r.state.Running? {
      RunningEnding(r, from, b, now, id, accepts, p);
    } else {
      ReclaimingEnding(r, b, accepts, p);
    }
  }

  lemma EndingKeeps(s: Setting, w: World, env: Envelope, accepts: bool, stamp: Stamp)
    requires Inv(s, w) && Enabled(s, w, LeadHears(env, accepts, stamp)) && Ending(env.body)
    requires w.rec.state.Offered? || w.rec.state.Running? || w.rec.state.Reclaiming?
    requires w.rec.target == Some(env.from) && env.attempt == Some(w.rec.attempt)
    ensures Inv(s, LeadStep(s, w, Hearing(env, w.now, accepts), stamp))
  {
    var e := Hearing(env, w.now, accepts);
    HearSpeaks(s, w, e);
    HeardConsumed(s, w, env);
    EndingShape(w.rec, env.from, env.body, w.now, Some(env.msgId), accepts, s.p);
    var step := L.OnMessage(w.rec, env.from, w.rec.attempt, env.body, w.now, Some(env.msgId), accepts, s.p);
    if step.rec.state == w.rec.state {
      PresentSame(s, w, step, stamp);
    } else {
      GoneKeeps(s, w, step, stamp);
    }
  }

  lemma HearsKeeps(s: Setting, w: World, env: Envelope, accepts: bool, stamp: Stamp)
    requires Inv(s, w) && Enabled(s, w, LeadHears(env, accepts, stamp))
    ensures Inv(s, LeadStep(s, w, Hearing(env, w.now, accepts), stamp))
  {
    var e := Hearing(env, w.now, accepts);
    var r := w.rec;
    HearSpeaks(s, w, e);
    if L.IsTerminal(r.state) || r.state.Cancelling? {
      PresentIdle(s, w, L.Apply(r, e, s.p), stamp);
    } else if r.target != Some(env.from) || e.attempt != r.attempt || r.state.Drafting? {
      PresentSame(s, w, L.Apply(r, e, s.p), stamp);
    } else if env.body.Accept? && r.state.Offered? {
      AcceptKeeps(s, w, env, accepts, stamp);
    } else if env.body.Progress? && r.state.Running? {
      ProgressKeeps(s, w, env, accepts, stamp);
    } else if Ending(env.body) {
      EndingKeeps(s, w, env, accepts, stamp);
    } else {
      PresentSame(s, w, L.Apply(r, e, s.p), stamp);
    }
  }

  /** The heart of it: by the time a lost lease has drained, the lease itself has run out. */
  lemma LostKeeps(s: Setting, w: World, stamp: Stamp)
    requires Inv(s, w) && w.rec.state.Running? && T.DueTimer(w.rec, w.now) == Some(L.LeaseTimer)
    ensures Inv(s, LeadStep(s, w, L.Timer(L.LeaseTimer, w.now), stamp))
  {
    var e := L.Timer(L.LeaseTimer, w.now);
    EventSpeaks(s, w, e);
    var r := w.rec;
    var step := L.Apply(r, e, s.p);
    var t := r.leaseDeadline.value - LostAfterMs(r.leaseMs, s.p) + r.leaseMs;
    if NobodyHolds(s, w, r.attempt) {
      PresentFrom(s, w, step, stamp, step.rec.drainUntil.value);
    } else {
      assert t <= w.now + s.p.drainMs;
      PresentFrom(s, w, step, stamp, t);
    }
  }

  /** Counting one more attempt as hasty claims less. */
  lemma HastyGrows(s: Setting, w: World)
    requires Inv(s, w)
    ensures Inv(s, w.(hasty := w.hasty + {w.rec.attempt}))
  {
    var v := w.(hasty := w.hasty + {w.rec.attempt});
    RunsSourcedLast(s, w, v);
    forall n, t | Over(s, w, n, t) ensures Over(s, v, n, t) {
      OverSame(s, w, v, n, t);
    }
  }

  lemma OverSame(s: Setting, w: World, v: World, n: int, t: int)
    requires v.execs == w.execs && v.sent == w.sent && Over(s, w, n, t)
    ensures Over(s, v, n, t) && (Consumed(s, w, n) ==> Consumed(s, v, n))
  {
    assert Consumed(s, w, n) ==> Consumed(s, v, n);
    assert NobodyHolds(s, w, n) ==> NobodyHolds(s, v, n);
    assert Bounded(s, w, n, t) ==> Bounded(s, v, n, t);
    assert Lapses(s, w, n, t) ==> Lapses(s, v, n, t);
  }

  /** An open offer that lapses in time: no run of it, present or future, outlives t. */
  lemma OpenOfferOver(s: Setting, w: World, t: int)
    requires Inv(s, w) && w.rec.state.Offered? && Lapses(s, w, w.rec.attempt, t)
    ensures Over(s, w, w.rec.attempt, t)
  {
    var n := w.rec.attempt;
    forall x | x in w.execs && Holds(s, w.execs[x].snap, n) ensures w.execs[x].snap.slot.value.leaseDeadline <= t {
      var deadline := w.execs[x].snap.slot.value.leaseDeadline;
      assert Sourced(s, w, x, n, deadline);
      assert !Renewed(s, w, n, deadline);
    }
    assert Bounded(s, w, n, t);
  }

  /** Forcing an attempt away: outlasted by the drain, or counted as hasty. */
  lemma ForcedKeeps(s: Setting, w: World, e: L.Event, stamp: Stamp)
    requires Inv(s, w) && LeadMay(w, e) && Forces(w.rec, e)
    ensures Inv(s, LeadStep(s, w, e, stamp))
  {
    var step, until := L.Apply(w.rec, e, s.p), w.now + s.p.drainMs;
    if Hasty(s, w, e) {
      var h := w.(hasty := w.hasty + {w.rec.attempt});
      HastyGrows(s, w);
      EventSpeaks(s, h, e);
      PresentFrom(s, h, step, stamp, until);
    } else {
      EventSpeaks(s, w, e);
      if w.rec.state.Running? {
        OverLater(s, w, w.rec.attempt, w.rec.leaseDeadline.value - LostAfterMs(w.rec.leaseMs, s.p) + w.rec.leaseMs,
            until);
      } else {
        OpenOfferOver(s, w, until);
      }
      PresentFrom(s, w, step, stamp, until);
    }
  }

  lemma TimerKeeps(s: Setting, w: World, e: L.Event, stamp: Stamp)
    requires Inv(s, w) && LeadMay(w, e) && e.Timer?
    ensures Inv(s, LeadStep(s, w, e, stamp))
  {
    EventSpeaks(s, w, e);
    var r := w.rec;
    var step := L.Apply(r, e, s.p);
    match e.timer {
      case LeaseTimer => LostKeeps(s, w, stamp);
      case OfferTtlTimer => ForcedKeeps(s, w, e, stamp);
      case DrainTimer =>
        if step.rec.state.Drafting? {
          PresentFrom(s, w, step, stamp, r.drainUntil.value);
        } else {
          PresentIdle(s, w, step, stamp);
        }
      case CancelWaitTimer => PresentIdle(s, w, step, stamp);
    }
  }

  lemma OwnerKeeps(s: Setting, w: World, e: L.Event, stamp: Stamp)
    requires Inv(s, w) && LeadMay(w, e) && (e.OwnerRedispatches? || e.UserCancels?)
    ensures Inv(s, LeadStep(s, w, e, stamp))
  {
    EventSpeaks(s, w, e);
    var r := w.rec;
    var step := L.Apply(r, e, s.p);
    if L.IsTerminal(step.rec.state) || step.rec.state.Cancelling? {
      PresentIdle(s, w, step, stamp);
    } else if r.state.Drafting? || r.state.Reclaiming? {
      PresentSame(s, w, step, stamp);
    } else {
      ForcedKeeps(s, w, e, stamp);
    }
  }

  lemma EventKeeps(s: Setting, w: World, e: L.Event, stamp: Stamp)
    requires Inv(s, w) && LeadMay(w, e)
    ensures Inv(s, LeadStep(s, w, e, stamp))
  {
    if e.Timer? {
      TimerKeeps(s, w, e, stamp);
    } else if e.OwnerRedispatches? || e.UserCancels? {
      OwnerKeeps(s, w, e, stamp);
    } else {
      OfferKeeps(s, w, e, stamp);
    }
  }

  lemma LeadMoveKeeps(s: Setting, w: World, m: Move)
    requires Inv(s, w) && Enabled(s, w, m) && (m.LeadHears? || m.LeadEvent?)
    ensures Inv(s, Next(s, w, m))
  {
    if m.LeadHears? {
      HearsKeeps(s, w, m.env, m.accepts, m.stamp);
    } else {
      EventKeeps(s, w, m.e, m.stamp);
    }
  }

  lemma ExecMoveKeeps(s: Setting, w: World, m: Move)
    requires Inv(s, w) && Enabled(s, w, m)
    requires !m.LeadHears? && !m.LeadEvent? && !m.Advance? && !m.Foreign?
    ensures Inv(s, Next(s, w, m))
  {
    if m.Consumes? {
      ConsumesKeeps(s, w, m);
    } else if m.Ticks? {
      TicksKeeps(s, w, m.node, m.stamp);
    } else if m.Finishes? {
      FinishesKeeps(s, w, m.node, m.fence, m.outcome, m.stamp);
    } else {
      RelabelKeeps(s, w, m);
    }
  }

  lemma MoveKeeps(s: Setting, w: World, m: Move, v: World)
    requires Inv(s, w) && Moves(s, w, m, v)
    ensures Inv(s, v)
  {
    if m.LeadHears? || m.LeadEvent? {
      LeadMoveKeeps(s, w, m);
    } else if m.Advance? {
      AdvanceKeeps(s, w, m.d);
    } else if m.Foreign? {
      ForeignKeeps(s, w, m.env);
    } else {
      ExecMoveKeeps(s, w, m);
    }
  }

  lemma {:induction false} InvKeeps(s: Setting, ws: seq<World>, ms: seq<Move>, k: nat)
    requires Execution(s, ws, ms) && Inv(s, ws[0]) && k < |ws|
    ensures Inv(s, ws[k])
  {
    if k > 0 {
      InvKeeps(s, ws, ms, k - 1);
      assert Moves(s, ws[k - 1], ms[k - 1], ws[k - 1 + 1]);
      MoveKeeps(s, ws[k - 1], ms[k - 1], ws[k]);
    }
  }

  lemma ExecutionKeeps(s: Setting, ws: seq<World>, ms: seq<Move>, k: nat)
    requires Execution(s, ws, ms) && Start(s, ws[0]) && k < |ws|
    ensures Inv(s, ws[k])
  {
    StartInv(s, ws[0]);
    InvKeeps(s, ws, ms, k);
  }

  // ---- Main results ----

  /** Executor x holds the run of attempt n and its lease has not run out. */
  predicate LiveAt(s: Setting, w: World, x: Uuid, n: int) {
    x in w.execs && Holds(s, w.execs[x].snap, n) && w.now < w.execs[x].snap.slot.value.leaseDeadline
  }

  /**
   * Lease non-overlap: at every moment of every run, an earlier attempt has no unexpired run on any executor,
   * whatever is still in flight, unless an owner or an expired offer forced it away before it was outlasted.
   */
  lemma LeasesDoNotOverlap(s: Setting, ws: seq<World>, ms: seq<Move>, k: nat, n: int)
    requires Execution(s, ws, ms) && Start(s, ws[0]) && k < |ws|
    requires 1 <= n < ws[k].rec.attempt && n !in ws[k].hasty
    ensures forall x :: !LiveAt(s, ws[k], x, n)
  {
    ExecutionKeeps(s, ws, ms, k);
    assert Over(s, ws[k], n, ws[k].now);
  }

  /** A task no attempt of which was forced away too early has at most one unexpired run in the whole fleet. */
  lemma AtMostOneLiveRun(s: Setting, ws: seq<World>, ms: seq<Move>, k: nat, x: Uuid, n: int, y: Uuid, m: int)
    requires Execution(s, ws, ms) && Start(s, ws[0]) && k < |ws|
    requires ws[k].hasty == {}
    requires LiveAt(s, ws[k], x, n) && LiveAt(s, ws[k], y, m)
    ensures x == y && n == m
  {
    ExecutionKeeps(s, ws, ms, k);
    var w := ws[k];
    forall z, a | LiveAt(s, w, z, a) ensures a == w.rec.attempt {
      assert NodeInv(s, w.now, w.rec.attempt, w.execs[z]);
      if 1 <= a < w.rec.attempt {
        LeasesDoNotOverlap(s, ws, ms, k, a);
      }
    }
  }
}
