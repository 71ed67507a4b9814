/** Renewals keep up: in every run the lead's numbers are ahead of the executors', so that each heartbeat renews. */
module LeaseRenewal {
  import opened Core
  import opened Wire
  import opened Lease
  import E = ExecutorState
  import L = LeadMachine
  import R = ExecutorReports
  import LeadEnds
  import X = TaskExchange
  import opened LeaseProtocol

  /** Renewals in flight, and renewals taken, carry numbers the lead has given out. */
  ghost predicate Numbered(s: Setting, w: World) {
    && w.rec.renewalSeq >= 0
    && (forall env :: env in w.sent && Ours(s, env) && env.body.Renew? ==>
          env.body.renewalSeq.Val? && env.body.renewalSeq.v <= w.rec.renewalSeq)
    && (forall x :: x in w.execs && RunsTask(s, w.execs[x].snap) ==>
          w.execs[x].snap.slot.value.lastRenewalSeq <= w.rec.renewalSeq)
  }

  predicate RunsTask(s: Setting, n: E.Snapshot) {
    n.slot.Some? && n.slot.value.lead == s.lead && n.slot.value.fence.task == s.task
  }

  /** While the attempt runs, lead and executor mean the same lease. */
  ghost predicate SameLease(s: Setting, w: World) {
    w.rec.state.Running? ==>
      forall x :: x in w.execs && Holds(s, w.execs[x].snap, w.rec.attempt) ==>
        w.execs[x].snap.slot.value.leaseMs == w.rec.leaseMs
  }

  ghost predicate InStep(s: Setting, w: World) {
    Inv(s, w) && Numbered(s, w) && SameLease(s, w)
  }

  // ---- The lead's moves ----

  /** The lead's counter never goes back, and a renewal carries its new value. */
  lemma CounterGrows(r: L.Record, e: L.Event, p: Params)
    ensures L.Apply(r, e, p).rec.renewalSeq >= r.renewalSeq
  {
    if e.Message? {
      HeardGrows(r, e, p);
    } else if e.Timer? {
      TimerGrows(r, e, p);
    }
  }

  lemma HeardGrows(r: L.Record, e: L.Event, p: Params)
    requires e.Message?
    ensures L.Apply(r, e, p).rec.renewalSeq >= r.renewalSeq
  {
    if !LeadEnds.Hears(r, e) {
      LeadEnds.Unheard(r, e, p);
    } else if r.state.Offered? {
      assert L.OnOffered(r, e.from, e.body, e.now, p).rec.renewalSeq == r.renewalSeq;
    }
  }

  lemma TimerGrows(r: L.Record, e: L.Event, p: Params)
    requires e.Timer?
    ensures L.Apply(r, e, p).rec.renewalSeq == r.renewalSeq
  {
  }

  lemma RenewalIsNumbered(r: L.Record, e: L.Event, p: Params)
    requires LeadEnds.Says(r, e, p).Some? && LeadEnds.Says(r, e, p).value.body.Renew?
    ensures LeadEnds.Says(r, e, p).value.body.renewalSeq == Val(L.Apply(r, e, p).rec.renewalSeq)
  {
  }

  lemma LeadNumbers(s: Setting, w: World, e: L.Event, stamp: Stamp)
    requires Numbered(s, w)
    ensures Numbered(s, LeadStep(s, w, e, stamp))
  {
    var step, v := L.Apply(w.rec, e, s.p), LeadStep(s, w, e, stamp);
    CounterGrows(w.rec, e, s.p);
    LeadEnds.SaysExactly(w.rec, e, s.p);
    forall env | env in v.sent && Ours(s, env) && env.body.Renew?
      ensures env.body.renewalSeq.Val? && env.body.renewalSeq.v <= v.rec.renewalSeq
    {
      if env !in w.sent {
        var a :| a in step.actions && a.Send? && env == Seal(s, s.lead, a.msg, w.now, stamp);
        RenewalIsNumbered(w.rec, e, s.p);
      }
    }
  }

  /** The lease is set by the acceptance alone. */
  lemma LeaseSetByAccept(r: L.Record, e: L.Event, p: Params)
    requires L.Apply(r, e, p).rec.state.Running?
    ensures || (r.state.Running? && L.Apply(r, e, p).rec.leaseMs == r.leaseMs &&
            L.Apply(r, e, p).rec.attempt == r.attempt)
            || (r.state.Offered? && LeadEnds.Hears(r, e) && e.body.Accept? && L.Apply(r, e, p).rec.attempt == r.attempt)
  {
    if r.state.Running? {
      RunningKeepsLease(r, e, p);
    } else if !L.IsTerminal(r.state) {
      LeadEnds.NextStateIff(r, e, p, L.Running);
      LeadEnds.BudgetIs(r, e, p);
    }
  }

  lemma RunningKeepsLease(r: L.Record, e: L.Event, p: Params)
    requires r.state.Running? && L.Apply(r, e, p).rec.state.Running?
    ensures L.Apply(r, e, p).rec.leaseMs == r.leaseMs && L.Apply(r, e, p).rec.attempt == r.attempt
  {
    if e.Message? && !LeadEnds.Hears(r, e) {
      LeadEnds.Unheard(r, e, p);
    }
  }

  lemma EventSameLease(s: Setting, w: World, e: L.Event, stamp: Stamp)
    requires SameLease(s, w) && !e.Message?
    ensures SameLease(s, LeadStep(s, w, e, stamp))
  {
    if L.Apply(w.rec, e, s.p).rec.state.Running? {
      LeaseSetByAccept(w.rec, e, s.p);
    }
  }

  lemma HearsSameLease(s: Setting, w: World, env: Envelope, accepts: bool, stamp: Stamp)
    requires InStep(s, w) && Enabled(s, w, LeadHears(env, accepts, stamp))
    ensures SameLease(s, LeadStep(s, w, Hearing(env, w.now, accepts), stamp))
  {
    var e := Hearing(env, w.now, accepts);
    if L.Apply(w.rec, e, s.p).rec.state.Running? {
      LeaseSetByAccept(w.rec, e, s.p);
      if !w.rec.state.Running? {
        AcceptSameLease(s, w, env, accepts, stamp);
      }
    }
  }

  lemma AcceptSameLease(s: Setting, w: World, env: Envelope, accepts: bool, stamp: Stamp)
    requires InStep(s, w) && Enabled(s, w, LeadHears(env, accepts, stamp)) && env.body.Accept?
    requires w.rec.state.Offered? && LeadEnds.Hears(w.rec, Hearing(env, w.now, accepts))
    ensures SameLease(s, LeadStep(s, w, Hearing(env, w.now, accepts), stamp))
  {
    var v := LeadStep(s, w, Hearing(env, w.now, accepts), stamp);
    forall x | x in v.execs && Holds(s, v.execs[x].snap, v.rec.attempt)
      ensures v.execs[x].snap.slot.value.leaseMs == v.rec.leaseMs
    {
      assert NodeInv(s, w.now, w.rec.attempt, w.execs[x]);
      assert x == env.from;
      assert Testifies(s, w.execs[x], env);
    }
  }

  // ---- The executors' moves ----

  /** A run keeps its lease; its renewal number is the old one, zero, or one the lead gave out. */
  predicate RunGoesOn(s: Setting, w: World, was: E.Snapshot, now_: E.Snapshot)
  {
    RunsTask(s, now_) ==>
      var run := now_.slot.value;
      if RunsTask(s, was) && was.slot.value.fence == run.fence then
        run.leaseMs == was.slot.value.leaseMs && (run.lastRenewalSeq <= was.slot.value.lastRenewalSeq
                                                  || run.lastRenewalSeq <= w.rec.renewalSeq)
      else run.lastRenewalSeq <= 0
  }

  lemma GoesOnKeeps(s: Setting, w: World, x: Uuid, node: Node, outs: seq<Outbound>, stamp: Stamp)
    requires InStep(s, w) && x in w.execs && RunGoesOn(s, w, w.execs[x].snap, node.snap)
    requires w.rec.state.Running? && Holds(s, node.snap, w.rec.attempt) ==>
               Holds(s, w.execs[x].snap, w.rec.attempt) &&
                   node.snap.slot.value.fence == w.execs[x].snap.slot.value.fence
    requires x != s.lead
    ensures Numbered(s, ExecStep(s, w, x, node, outs, stamp)) && SameLease(s, ExecStep(s, w, x, node, outs, stamp))
  {
    var v := ExecStep(s, w, x, node, outs, stamp);
    forall env | env in v.sent && Ours(s, env) ensures env in w.sent {
    }
  }

  lemma ConsumeGoesOn(s: Setting, w: World, m: Move)
    requires InStep(s, w) && m.Consumes? && Enabled(s, w, m) && !m.env.body.Offer?
    ensures RunGoesOn(s, w, w.execs[m.node].snap, E.ControlEvent(w.execs[m.node].snap, m.env, w.now).state)
    ensures var was, now_ := w.execs[m.node].snap, E.ControlEvent(w.execs[m.node].snap, m.env, w.now).state;
            now_.slot.Some? ==> was.slot.Some? && now_.slot.value.fence == was.slot.value.fence
                                && now_.slot.value.lead == was.slot.value.lead
  {
  }

  /** While the attempt runs, its offer is consumed: nobody takes it again. */
  lemma NoSecondTake(s: Setting, w: World, m: Move)
    requires InStep(s, w) && m.Consumes? && Enabled(s, w, m) && m.env.body.Offer? &&
             !Duplicate(s, w.execs[m.node], m.env)
    requires w.rec.state.Running?
    ensures !(Ours(s, m.env) && m.env.attempt == Some(w.rec.attempt))
  {
    assert Consumed(s, w, w.rec.attempt);
  }

  lemma OfferGoesOn(s: Setting, w: World, m: Move)
    requires InStep(s, w) && m.Consumes? && Enabled(s, w, m) && m.env.body.Offer? &&
             !Duplicate(s, w.execs[m.node], m.env)
    requires E.ConsumeEvent(w.execs[m.node].config, w.execs[m.node].snap, m.env, w.now, m.authorized, m.ready,
             m.closing,
                            m.policyOk, m.runId).Ok?
    ensures var n := w.execs[m.node];
            var r := E.ConsumeEvent(n.config, n.snap, m.env, w.now, m.authorized, m.ready, m.closing, m.policyOk,
                m.runId).value;
            && RunGoesOn(s, w, n.snap, r.state)
            && (w.rec.state.Running? && Holds(s, r.state, w.rec.attempt) ==>
                  Holds(s, n.snap, w.rec.attempt) && r.state == n.snap)
  {
    if w.rec.state.Running? {
      NoSecondTake(s, w, m);
    }
  }

  lemma ConsumesInStep(s: Setting, w: World, m: Move)
    requires InStep(s, w) && m.Consumes? && Enabled(s, w, m) && m.node != s.lead
    ensures Numbered(s, Next(s, w, m)) && SameLease(s, Next(s, w, m))
  {
    var n := w.execs[m.node];
    var r := E.ConsumeEvent(n.config, n.snap, m.env, w.now, m.authorized, m.ready, m.closing, m.policyOk, m.runId);
    if !Duplicate(s, n, m.env) && r.Ok? {
      var node := n.(snap := r.value.state, applied := AppliedAfter(s, n, m.env));
      if m.env.body.Offer? {
        OfferGoesOn(s, w, m);
      } else {
        ConsumeGoesOn(s, w, m);
      }
      GoesOnKeeps(s, w, m.node, node, r.value.outbox, m.stamp);
    }
  }

  /** Ticks, ends and labels leave the run's fence, lease and numbers alone. */
  predicate SameRun(was: E.Snapshot, now_: E.Snapshot) {
    now_.slot.Some? ==>
      && was.slot.Some? && now_.slot.value.fence == was.slot.value.fence && now_.slot.value.lead == was.slot.value.lead
      && now_.slot.value.leaseMs == was.slot.value.leaseMs
      && now_.slot.value.lastRenewalSeq == was.slot.value.lastRenewalSeq
  }

  lemma SameRunKeeps(s: Setting, w: World, x: Uuid, snap: E.Snapshot, outs: seq<Outbound>, stamp: Stamp)
    requires InStep(s, w) && x in w.execs && x != s.lead && SameRun(w.execs[x].snap, snap)
    ensures var v := ExecStep(s, w, x, w.execs[x].(snap := snap), outs, stamp); Numbered(s, v) && SameLease(s, v)
  {
    GoesOnKeeps(s, w, x, w.execs[x].(snap := snap), outs, stamp);
  }

  lemma TicksInStep(s: Setting, w: World, m: Move)
    requires InStep(s, w) && m.Ticks? && Enabled(s, w, m) && m.node != s.lead
    ensures Numbered(s, Next(s, w, m)) && SameLease(s, Next(s, w, m))
  {
    var r := E.TickEvent(w.execs[m.node].snap, w.now, m.stamp.id);
    if r.Ok? {
      SameRunKeeps(s, w, m.node, r.value.state, r.value.outbox, m.stamp);
    }
  }

  lemma FinishesInStep(s: Setting, w: World, m: Move)
    requires InStep(s, w) && m.Finishes? && Enabled(s, w, m) && m.node != s.lead
    ensures Numbered(s, Next(s, w, m)) && SameLease(s, Next(s, w, m))
  {
    var c := E.FinishEvent(w.execs[m.node].snap, m.fence, m.outcome);
    SameRunKeeps(s, w, m.node, c.state, c.outbox, m.stamp);
  }

  lemma LabelsInStep(s: Setting, w: World, m: Move)
    requires InStep(s, w) && (m.Parks? || m.Starts? || m.Runs? || m.ShutsDown?) && Enabled(s, w, m) && m.node != s.lead
    ensures Numbered(s, Next(s, w, m)) && SameLease(s, Next(s, w, m))
  {
    if !m.Starts? || E.StartingEvent(w.execs[m.node].snap, m.fence).Some? {
      SameRunKeeps(s, w, m.node, Relabelled(w.execs[m.node].snap, m), [], Stamp(0, 0));
    }
  }

  lemma MoveInStep(s: Setting, w: World, m: Move, v: World)
    requires InStep(s, w) && Moves(s, w, m, v)
    ensures InStep(s, v)
  {
    MoveKeeps(s, w, m, v);
    if m.LeadEvent? {
      LeadNumbers(s, w, m.e, m.stamp);
      EventSameLease(s, w, m.e, m.stamp);
    } else if m.LeadHears? {
      LeadNumbers(s, w, Hearing(m.env, w.now, m.accepts), m.stamp);
      HearsSameLease(s, w, m.env, m.accepts, m.stamp);
    } else if m.Consumes? {
      ConsumesInStep(s, w, m);
    } else if m.Ticks? {
      TicksInStep(s, w, m);
    } else if m.Finishes? {
      FinishesInStep(s, w, m);
    } else if m.Parks? || m.Starts? || m.Runs? || m.ShutsDown? {
      LabelsInStep(s, w, m);
    }
  }

  lemma StartInStep(s: Setting, w: World)
    requires Start(s, w)
    ensures InStep(s, w)
  {
    StartInv(s, w);
  }

  lemma {:induction false} RunInStep(s: Setting, ws: seq<World>, ms: seq<Move>, k: nat)
    requires Execution(s, ws, ms) && Start(s, ws[0]) && k < |ws|
    ensures InStep(s, ws[k])
  {
    if k == 0 {
      StartInStep(s, ws[0]);
    } else {
      RunInStep(s, ws, ms, k - 1);
      assert Moves(s, ws[k - 1], ms[k - 1], ws[k - 1 + 1]);
      MoveInStep(s, ws[k - 1], ms[k - 1], ws[k]);
    }
  }

  // ---- Main result ----

  /** x holds the run of the current attempt, a heartbeat is due, and there is time to hear and to answer it. */
  predicate MayBeat(s: Setting, w: World, x: Uuid, id: Uuid, d1: nat, d2: nat, exp: int) {
    && x in w.execs && Holds(s, w.execs[x].snap, w.rec.attempt) && w.rec.state.Running? && w.rec.target == Some(x)
    && w.execs[x].config.node == x && w.execs[x].config.team == s.team && E.Valid(w.execs[x].snap)
    && X.Beats(w.execs[x].snap, w.now, id) && w.now + d1 + d2 < w.execs[x].snap.slot.value.leaseDeadline
    && exp > w.now + d1 + d2 && Positive(w.rec.renewalSeq + 1) && Positive(w.now + d1 + w.rec.leaseMs)
  }

  /** What a run guarantees of lead and executor at that moment. */
  predicate Agree(s: Setting, w: World, x: Uuid)
    requires x in w.execs && w.execs[x].snap.slot.Some?
  {
    var run := w.execs[x].snap.slot.value;
    && X.Follows(w.rec, run, x) && w.rec.leaseMs == run.leaseMs && run.lastRenewalSeq <= w.rec.renewalSeq
  }

  lemma RunAgrees(s: Setting, ws: seq<World>, ms: seq<Move>, k: nat, x: Uuid)
    requires Execution(s, ws, ms) && Start(s, ws[0]) && k < |ws| && x in ws[k].execs
    requires Holds(s, ws[k].execs[x].snap, ws[k].rec.attempt) && ws[k].rec.state.Running? && ws[k].rec.target == Some(x)
    ensures Agree(s, ws[k], x)
  {
    RunInStep(s, ws, ms, k);
    assert ws[k].rec.task == s.task;
  }

  /**
   * In every run, at every moment: the heartbeat of the run of the current attempt, heard by its lead after d1 ms, and
   * the renewal it answers with, consumed after another d2 ms and before the deadline, extend the lease to one lease
   * from when the lead heard.
   */
  lemma HeartbeatExtends(s: Setting, ws: seq<World>, ms: seq<Move>, k: nat, x: Uuid, id: Uuid, d1: nat, d2: nat,
                         stamp: X.Stamp, flags: (bool, bool, bool, Uuid))
    requires Execution(s, ws, ms) && Start(s, ws[0]) && k < |ws| && MayBeat(s, ws[k], x, id, d1, d2, stamp.exp)
    ensures var w := ws[k]; var n := w.execs[x];
            X.DeadlineAfterBeat(n.config, n.snap, w.now, id, w.rec, w.now + d1, stamp, w.now + d1 + d2, flags, s.p)
            == Some(Max(n.snap.slot.value.leaseDeadline, w.now + d1 + n.snap.slot.value.leaseMs))
  {
    RunAgrees(s, ws, ms, k, x);
    var w := ws[k];
    var n := w.execs[x];
    X.HeartbeatRenews(n.config, n.snap, w.now, id, w.rec, w.now + d1, stamp, w.now + d1 + d2, flags, s.p);
  }
}
