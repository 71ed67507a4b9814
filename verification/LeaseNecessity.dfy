/**
 * When leases do overlap: for every lease the covering inequality fails for, and, cause by cause, exactly when
 * an attempt that was forced away can still be running beside the next one.
 */
module LeaseNecessity {
  import opened Core
  import opened Wire
  import opened Lease
  import E = ExecutorState
  import L = LeadMachine
  import opened LeaseProtocol

  // ---- Runs from one world to another ----

  ghost predicate Reaches(s: Setting, w: World, v: World) {
    exists ws: seq<World>, ms: seq<Move> :: Execution(s, ws, ms) && ws[0] == w && ws[|ms|] == v
  }

  ghost predicate Reachable(s: Setting, w: World) {
    exists w0 :: Start(s, w0) && Reaches(s, w0, w)
  }

  lemma ReachesOne(s: Setting, w: World, m: Move, v: World)
    requires Moves(s, w, m, v)
    ensures Reaches(s, w, v)
  {
    var ws: seq<World>, ms: seq<Move> := [w, v], [m];
    assert Execution(s, ws, ms);
  }

  lemma Joined(s: Setting, w: World, v: World, u: World)
    requires Reaches(s, w, v) && Reaches(s, v, u)
    ensures Reaches(s, w, u)
  {
    var ws: seq<World>, ms: seq<Move> :| Execution(s, ws, ms) && ws[0] == w && ws[|ms|] == v;
    var ws2: seq<World>, ms2: seq<Move> :| Execution(s, ws2, ms2) && ws2[0] == v && ws2[|ms2|] == u;
    Concatenated(s, ws, ms, ws2, ms2);
    assert (ws + ws2[1..])[|ms + ms2|] == u;
  }

  /** Two executions, the second going on where the first ends. */
  lemma Concatenated(s: Setting, ws: seq<World>, ms: seq<Move>, ws2: seq<World>, ms2: seq<Move>)
    requires Execution(s, ws, ms) && Execution(s, ws2, ms2) && ws[|ms|] == ws2[0]
    ensures Execution(s, ws + ws2[1..], ms + ms2)
  {
    var all, moves := ws + ws2[1..], ms + ms2;
    forall i | 0 <= i < |moves| ensures Moves(s, all[i], moves[i], all[i + 1]) {
      if i < |ms| {
        MovesAt(s, ws, ms, i);
      } else {
        MovesAt(s, ws2, ms2, i - |ms|);
      }
    }
  }

  lemma MovesAt(s: Setting, ws: seq<World>, ms: seq<Move>, i: nat)
    requires Execution(s, ws, ms) && i < |ms|
    ensures Moves(s, ws[i], ms[i], ws[i + 1])
  {
  }

  lemma Step(s: Setting, w0: World, w: World, m: Move, v: World)
    requires Reaches(s, w0, w) && Moves(s, w, m, v)
    ensures Reaches(s, w0, v)
  {
    ReachesOne(s, w, m, v);
    Joined(s, w0, w, v);
  }

  lemma Waited(s: Setting, w0: World, w: World, d: nat)
    requires Reaches(s, w0, w)
    ensures Reaches(s, w0, w.(now := w.now + d))
  {
    Step(s, w0, w, Advance(d), w.(now := w.now + d));
  }

  // ---- An attempt forced away in time stays over ----

  /** e forces the current attempt away, and later a newer attempt is out while a run of it is within its lease. */
  ghost predicate ForcedOverlap(s: Setting, w: World, e: L.Event) {
    exists stamp, v, x ::
      LeadMay(w, e) && Forces(w.rec, e) && Reaches(s, LeadStep(s, w, e, stamp), v)
      && v.rec.attempt > w.rec.attempt && LiveAt(s, v, x, w.rec.attempt)
  }

  /** An attempt once forced away, or passed, is not forced away again. */
  predicate Behind(w: World, n: int) {
    w.rec.attempt > n || (w.rec.attempt == n && !w.rec.state.Offered? && !w.rec.state.Running?)
  }

  ghost predicate HastyBehind(s: Setting, w: World) {
    Inv(s, w) && forall n :: n in w.hasty ==> Behind(w, n)
  }

  /** Only a new attempt opens an offer again. */
  predicate Moved(r: L.Record, next: L.Record) {
    next.attempt > r.attempt || (next.attempt == r.attempt && !next.state.Offered? && !next.state.Running?)
  }

  lemma HeardMoved(r: L.Record, e: L.Event, p: Params)
    requires e.Message? && !r.state.Offered? && !r.state.Running?
    ensures Moved(r, L.Apply(r, e, p).rec)
  {
  }

  lemma ActedMoved(r: L.Record, e: L.Event, p: Params)
    requires !e.Message? && (e.Dispatch? ==> r.attempt == 0) && !r.state.Offered? && !r.state.Running?
    ensures Moved(r, L.Apply(r, e, p).rec)
  {
  }

  lemma AttemptGrows(r: L.Record, e: L.Event, p: Params)
    requires r.attempt >= 0 && (e.Dispatch? ==> r.attempt == 0)
    ensures L.Apply(r, e, p).rec.attempt >= r.attempt
  {
    if e.Message? {
      HeardStays(r, e, p);
    } else if e.Timer? {
      TimedStays(r, e, p);
    }
  }

  lemma HeardStays(r: L.Record, e: L.Event, p: Params)
    requires e.Message?
    ensures L.Apply(r, e, p).rec.attempt == r.attempt
  {
  }

  lemma TimedStays(r: L.Record, e: L.Event, p: Params)
    requires e.Timer?
    ensures L.Apply(r, e, p).rec.attempt == r.attempt
  {
  }

  lemma LeadStaysBehind(s: Setting, w: World, e: L.Event, stamp: Stamp, n: int)
    requires w.rec.attempt >= 0 && Behind(w, n) && (e.Dispatch? ==> w.rec.attempt == 0)
    ensures Behind(LeadStep(s, w, e, stamp), n)
  {
    AttemptGrows(w.rec, e, s.p);
    if w.rec.attempt == n {
      if e.Message? {
        HeardMoved(w.rec, e, s.p);
      } else {
        ActedMoved(w.rec, e, s.p);
      }
    }
  }

  lemma ForcedIsBehind(s: Setting, w: World, e: L.Event, stamp: Stamp)
    requires Forces(w.rec, e)
    ensures Behind(LeadStep(s, w, e, stamp), w.rec.attempt)
  {
  }

  lemma MoveStaysBehind(s: Setting, w: World, m: Move, v: World, n: int)
    requires Inv(s, w) && Moves(s, w, m, v) && Behind(w, n)
    ensures Behind(v, n) && (n !in w.hasty ==> n !in v.hasty)
  {
    if m.LeadEvent? {
      LeadStaysBehind(s, w, m.e, m.stamp, n);
    } else if m.LeadHears? {
      LeadStaysBehind(s, w, Hearing(m.env, w.now, m.accepts), m.stamp, n);
    }
  }

  lemma MoveKeepsHasty(s: Setting, w: World, m: Move, v: World)
    requires HastyBehind(s, w) && Moves(s, w, m, v)
    ensures HastyBehind(s, v)
  {
    MoveKeeps(s, w, m, v);
    forall n | n in v.hasty ensures Behind(v, n) {
      if n in w.hasty {
        MoveStaysBehind(s, w, m, v, n);
      } else {
        assert m.LeadEvent? && n == w.rec.attempt;
        ForcedIsBehind(s, w, m.e, m.stamp);
      }
    }
  }

  lemma {:induction false} RunKeepsHasty(s: Setting, ws: seq<World>, ms: seq<Move>, k: nat)
    requires Execution(s, ws, ms) && HastyBehind(s, ws[0]) && k < |ws|
    ensures HastyBehind(s, ws[k])
  {
    if k > 0 {
      RunKeepsHasty(s, ws, ms, k - 1);
      assert Moves(s, ws[k - 1], ms[k - 1], ws[k - 1 + 1]);
      MoveKeepsHasty(s, ws[k - 1], ms[k - 1], ws[k]);
    }
  }

  lemma {:induction false} RunStaysBehind(s: Setting, ws: seq<World>, ms: seq<Move>, k: nat, n: int)
    requires Execution(s, ws, ms) && Inv(s, ws[0]) && k < |ws|
    requires Behind(ws[0], n) && n !in ws[0].hasty
    ensures Inv(s, ws[k]) && Behind(ws[k], n) && n !in ws[k].hasty
  {
    if k > 0 {
      RunStaysBehind(s, ws, ms, k - 1, n);
      assert Moves(s, ws[k - 1], ms[k - 1], ws[k - 1 + 1]);
      MoveStaysBehind(s, ws[k - 1], ms[k - 1], ws[k], n);
      MoveKeeps(s, ws[k - 1], ms[k - 1], ws[k]);
    }
  }

  lemma ReachableHasty(s: Setting, w: World)
    requires Reachable(s, w)
    ensures HastyBehind(s, w)
  {
    var w0 :| Start(s, w0) && Reaches(s, w0, w);
    var ws: seq<World>, ms: seq<Move> :| Execution(s, ws, ms) && ws[0] == w0 && ws[|ms|] == w;
    StartInv(s, w0);
    RunKeepsHasty(s, ws, ms, |ms|);
  }

  lemma OverFromThere(s: Setting, u: World, v: World, n: int)
    requires Reaches(s, u, v) && Inv(s, u) && Behind(u, n) && n !in u.hasty && 1 <= n < v.rec.attempt
    ensures forall x :: !LiveAt(s, v, x, n)
  {
    var ws: seq<World>, ms: seq<Move> :| Execution(s, ws, ms) && ws[0] == u && ws[|ms|] == v;
    RunStaysBehind(s, ws, ms, |ms|, n);
    assert Over(s, v, n, v.now);
  }

  lemma OutlastedThenOver(s: Setting, w: World, e: L.Event, stamp: Stamp, v: World)
    requires HastyBehind(s, w) && LeadMay(w, e) && Forces(w.rec, e) && Outlasted(s, w)
    requires Reaches(s, LeadStep(s, w, e, stamp), v) && v.rec.attempt > w.rec.attempt
    ensures forall x :: !LiveAt(s, v, x, w.rec.attempt)
  {
    EventKeeps(s, w, e, stamp);
    ForcedIsBehind(s, w, e, stamp);
    OverFromThere(s, LeadStep(s, w, e, stamp), v, w.rec.attempt);
  }

  /** The lead's check is enough, in every reachable world and for either cause. */
  lemma OutlastedIsSafe(s: Setting, w: World, e: L.Event)
    requires Reachable(s, w) && Outlasted(s, w)
    ensures !ForcedOverlap(s, w, e)
  {
    ReachableHasty(s, w);
    forall stamp, v | LeadMay(w, e) && Forces(w.rec, e) && Reaches(s, LeadStep(s, w, e, stamp), v)
                      && v.rec.attempt > w.rec.attempt
      ensures forall x :: !LiveAt(s, v, x, w.rec.attempt)
    {
      OutlastedThenOver(s, w, e, stamp, v);
    }
  }

  // ---- One executor, one offer ----

  /** An offer any executor with a driver can take, asking for a lease of `leaseMs`. */
  function PlainOffer(leaseMs: int): OfferBody {
    OfferBody(Aid, false, true, false, false, Val(leaseMs), Undefined, NoDemands, Undefined, true, NoContract)
  }

  /** The executor's own offer TTL and lease cap. */
  function PlainConfig(s: Setting, x: Uuid, cap: int, ttl: int): E.Config {
    E.Config(x, s.team, cap, ttl, true, false, [])
  }

  predicate Sane(p: Params) {
    p.drainMs >= 0 && p.maxAttempts >= 2 && p.maxDispatchRounds >= 2
  }

  function Begin(s: Setting, x: Uuid, cap: int, ttl: int): World {
    World(0, L.Fresh(s.task, Aid, s.p), map[x := Node(PlainConfig(s, x, cap, ttl), E.EMPTY, {})], {}, {})
  }

  const LATE := MAX_SAFE

  function OfferMsg(s: Setting, x: Uuid, leaseMs: int): Envelope {
    Envelope(1, s.lead, s.team, x, true, Some(0), Some(LATE), Some(s.task), Some(1), Offer(PlainOffer(leaseMs)))
  }

  function AcceptMsg(s: Setting, x: Uuid, leaseMs: int, at: int): Envelope {
    Envelope(2, x, s.team, s.lead, true, Some(at), Some(LATE), Some(s.task), Some(1),
        Accept(Val(leaseMs), Val(1), Val(7)))
  }

  function TheRun(s: Setting, leaseMs: int, at: int): E.DurableRun {
    E.DurableRun(Fence(s.task, 1, 1, 7), E.Prepared, s.lead, 1, PlainOffer(leaseMs), false, leaseMs, at + leaseMs,
                 at + Max(1, HeartbeatIntervalMs(leaseMs)), 0, 0, None, None, None)
  }

  function TheNode(s: Setting, x: Uuid, cap: int, ttl: int, leaseMs: int, at: int): Node {
    Node(PlainConfig(s, x, cap, ttl), E.Snapshot(1, Some(TheRun(s, leaseMs, at)), None), {1})
  }

  function Dispatched(s: Setting, x: Uuid, cap: int, ttl: int, leaseMs: int): World {
    var w := Begin(s, x, cap, ttl);
    w.(rec := L.DispatchTo(w.rec, x, PlainOffer(leaseMs), 0, s.p).rec, sent := {OfferMsg(s, x, leaseMs)})
  }

  lemma Dispatch(s: Setting, x: Uuid, cap: int, ttl: int, leaseMs: int)
    ensures Reaches(s, Begin(s, x, cap, ttl), Dispatched(s, x, cap, ttl, leaseMs))
  {
    var w := Begin(s, x, cap, ttl);
    var e, stamp := L.Dispatch(x, PlainOffer(leaseMs), 0), Stamp(1, LATE);
    var actions := L.Apply(w.rec, e, s.p).actions;
    assert actions[1] in actions && Seal(s, s.lead, actions[1].msg, 0, stamp) == OfferMsg(s, x, leaseMs);
    assert LeadMail(s, actions, 0, stamp) == {OfferMsg(s, x, leaseMs)};
    assert Next(s, w, LeadEvent(e, stamp)).sent == {OfferMsg(s, x, leaseMs)};
    ReachesOne(s, w, LeadEvent(e, stamp), Dispatched(s, x, cap, ttl, leaseMs));
  }

  /** The executor's answer to the plain offer. */
  lemma Answer(s: Setting, x: Uuid, cap: int, ttl: int, leaseMs: int, at: nat)
    requires x != s.lead && 0 < leaseMs <= cap && Positive(leaseMs) && Positive(ttl) && at < ttl &&
             at + leaseMs <= MAX_SAFE
    ensures var r := E.ConsumeEvent(PlainConfig(s, x, cap, ttl), E.EMPTY, OfferMsg(s, x, leaseMs), at, true, true,
            false, true, 7);
            && r.Ok? && r.value.state == E.Snapshot(1, Some(TheRun(s, leaseMs, at)), None)
            && |r.value.outbox| == 1 && Seal(s, x, r.value.outbox[0], at, Stamp(2, LATE)) ==
                AcceptMsg(s, x, leaseMs, at)
  {
  }

  function Accepted(s: Setting, w: World, x: Uuid, cap: int, ttl: int, leaseMs: int): World {
    w.(execs := map[x := TheNode(s, x, cap, ttl, leaseMs, w.now)], sent := w.sent + {AcceptMsg(s, x, leaseMs, w.now)})
  }

  predicate Untaken(s: Setting, w: World, x: Uuid, cap: int, ttl: int, leaseMs: int) {
    && Positive(leaseMs) && leaseMs <= cap && Positive(ttl) && 0 <= w.now < ttl && w.now + leaseMs <= MAX_SAFE
    && w.execs == Begin(s, x, cap, ttl).execs && OfferMsg(s, x, leaseMs) in w.sent && x != s.lead
  }

  function Taking(s: Setting, x: Uuid, leaseMs: int): Move {
    Consumes(x, OfferMsg(s, x, leaseMs), true, true, false, true, 7, Stamp(2, LATE))
  }

  lemma TakeMoves(s: Setting, w: World, x: Uuid, cap: int, ttl: int, leaseMs: int)
    requires Untaken(s, w, x, cap, ttl, leaseMs)
    ensures Moves(s, w, Taking(s, x, leaseMs), Accepted(s, w, x, cap, ttl, leaseMs))
  {
    Answer(s, x, cap, ttl, leaseMs, w.now);
    var outs, stamp, sent := TakeOuts(s, x, cap, ttl, leaseMs, w.now), Stamp(2, LATE), AcceptMsg(s, x, leaseMs, w.now);
    assert Mail(s, x, outs, w.now, stamp) == {sent} by {
      assert outs == [outs[0]];
    }
    var node := TheNode(s, x, cap, ttl, leaseMs, w.now);
    assert AppliedAfter(s, w.execs[x], OfferMsg(s, x, leaseMs)) == {1};
    assert Next(s, w, Taking(s, x, leaseMs)).execs == map[x := node];
  }

  function TakeOuts(s: Setting, x: Uuid, cap: int, ttl: int, leaseMs: int, at: nat): (outs: seq<Outbound>)
    requires E.ConsumeEvent(PlainConfig(s, x, cap, ttl), E.EMPTY, OfferMsg(s, x, leaseMs), at, true, true, false, true,
             7).Ok?
  {
    E.ConsumeEvent(PlainConfig(s, x, cap, ttl), E.EMPTY, OfferMsg(s, x, leaseMs), at, true, true, false, true,
        7).value.outbox
  }

  lemma Take(s: Setting, w0: World, w: World, x: Uuid, cap: int, ttl: int, leaseMs: int)
    requires Reaches(s, w0, w) && Untaken(s, w, x, cap, ttl, leaseMs)
    ensures Reaches(s, w0, Accepted(s, w, x, cap, ttl, leaseMs))
  {
    TakeMoves(s, w, x, cap, ttl, leaseMs);
    Step(s, w0, w, Taking(s, x, leaseMs), Accepted(s, w, x, cap, ttl, leaseMs));
  }

  /** Attempt 1 is being drained, and the drain has passed. */
  predicate Drained(s: Setting, w: World) {
    && w.rec.state.Reclaiming? && w.rec.attempt == 1 && w.rec.drainUntil.Some? && w.rec.drainUntil.value <= w.now
    && !w.rec.drainClosed && w.rec.failedBudget == 0 && w.rec.dispatchRounds == 0
  }

  /** A drained reclaim goes back to drafting and straight on to attempt 2. */
  lemma DrainAndOffer(s: Setting, w0: World, w: World, x: Uuid) returns (v: World)
    requires Sane(s.p) && Reaches(s, w0, w) && Drained(s, w)
    ensures Reaches(s, w0, v) && v.now == w.now && v.execs == w.execs && v.hasty == w.hasty
    ensures v.rec.attempt == 2 && v.rec.state.Offered?
  {
    var drain := LeadEvent(L.Timer(L.DrainTimer, w.now), Stamp(4, LATE));
    var w1 := Next(s, w, drain);
    Step(s, w0, w, drain, w1);
    var offer := LeadEvent(L.Redispatch(x, PlainOffer(1), w.now), Stamp(5, LATE));
    v := Next(s, w1, offer);
    Step(s, w0, w1, offer, v);
  }

  /** The lead heard the acceptance at time 0. */
  lemma Running(s: Setting, x: Uuid, cap: int, ttl: int, leaseMs: int) returns (w: World)
    requires x != s.lead && 0 < leaseMs <= cap <= MAX_SAFE && Positive(ttl)
    ensures Reaches(s, Begin(s, x, cap, ttl), w)
    ensures w.now == 0 && w.hasty == {} && x in w.execs && w.execs[x].snap.slot == Some(TheRun(s, leaseMs, 0))
    ensures w.rec.state.Running? && w.rec.attempt == 1 && w.rec.leaseMs == leaseMs
    ensures w.rec.failedBudget == 0 && w.rec.dispatchRounds == 0
    ensures w.rec.leaseDeadline == Some(LostAfterMs(leaseMs, s.p))
  {
    var w0, offered := Begin(s, x, cap, ttl), Dispatched(s, x, cap, ttl, leaseMs);
    Dispatch(s, x, cap, ttl, leaseMs);
    Take(s, w0, offered, x, cap, ttl, leaseMs);
    var taken := Accepted(s, offered, x, cap, ttl, leaseMs);
    var hear := LeadHears(AcceptMsg(s, x, leaseMs, 0), true, Stamp(3, LATE));
    w := Next(s, taken, hear);
    Step(s, w0, taken, hear, w);
  }

  /**
   * The covering inequality is needed: for every lease it fails for, a lost lease leads to a second offer
   * while the first run is still within its lease, with nobody forcing anything.
   */
  lemma UncoveredLeaseOverlaps(s: Setting, x: Uuid, cap: int, ttl: int, leaseMs: int) returns (w: World)
    requires x != s.lead && 0 < leaseMs <= cap <= MAX_SAFE && Positive(ttl) && Sane(s.p) && s.p.graceMs >= 0
    requires !DrainCoversLease(leaseMs, s.p)
    ensures Reaches(s, Begin(s, x, cap, ttl), w)
    ensures w.rec.attempt == 2 && w.rec.state.Offered? && w.hasty == {} && LiveAt(s, w, x, 1)
  {
    var w0 := Begin(s, x, cap, ttl);
    var running := Running(s, x, cap, ttl, leaseMs);
    var until := LostAfterMs(leaseMs, s.p);
    Waited(s, w0, running, until);
    var late := running.(now := until);
    var lose := LeadEvent(L.Timer(L.LeaseTimer, until), Stamp(6, LATE));
    var lost := Next(s, late, lose);
    Step(s, w0, late, lose, lost);
    Waited(s, w0, lost, s.p.drainMs);
    w := DrainAndOffer(s, w0, lost.(now := lost.now + s.p.drainMs), x);
  }

  // ---- Forcing a running attempt away ----

  /** The current attempt runs under a lease of `leaseMs` and was last heard of d ms ago. */
  predicate SilentRun(s: Setting, w: World, leaseMs: int, d: int) {
    && w.rec.state.Running? && w.rec.leaseMs == leaseMs && w.rec.leaseDeadline.Some?
    && w.rec.leaseDeadline.value - LostAfterMs(leaseMs, s.p) + d == w.now
  }

  ghost predicate Coverable(s: Setting, leaseMs: int) {
    0 < leaseMs <= MAX_SAFE && forall l :: 0 < l <= leaseMs ==> DrainCoversLease(l, s.p)
  }

  lemma BeginStarts(s: Setting, x: Uuid, cap: int, ttl: int)
    requires x != s.lead && Coverable(s, cap) && Positive(ttl)
    ensures Start(s, Begin(s, x, cap, ttl))
  {
  }

  ghost predicate RunOverlap(s: Setting, leaseMs: int, d: nat) {
    exists w, e: L.Event :: Reachable(s, w) && SilentRun(s, w, leaseMs, d) && ForcedOverlap(s, w, e)
  }

  lemma RunCanOverlap(s: Setting, leaseMs: int, d: nat)
    requires Sane(s.p) && Coverable(s, leaseMs) && leaseMs > d + s.p.drainMs
    ensures RunOverlap(s, leaseMs, d)
  {
    var x := s.lead + 1;
    var w0 := Begin(s, x, leaseMs, 1);
    BeginStarts(s, x, leaseMs, 1);
    var running := Running(s, x, leaseMs, 1, leaseMs);
    Waited(s, w0, running, d);
    var w, e, stamp := running.(now := d), L.OwnerRedispatches(d), Stamp(6, LATE);
    var u := LeadStep(s, w, e, stamp);
    ReachesOne(s, u, Advance(s.p.drainMs), u.(now := u.now + s.p.drainMs));
    var v := DrainAndOffer(s, u, u.(now := u.now + s.p.drainMs), x);
    assert LiveAt(s, v, x, 1);
    assert ForcedOverlap(s, w, e);
  }

  /**
   * An owner's redispatch of a running attempt: after d ms of silence, two attempts can be live at once exactly
   * when the lease outlasts that silence and the drain together.
   */
  lemma OwnerRedispatchIff(s: Setting, leaseMs: int, d: nat)
    requires Sane(s.p) && Coverable(s, leaseMs)
    ensures RunOverlap(s, leaseMs, d) <==> leaseMs > d + s.p.drainMs
  {
    if leaseMs > d + s.p.drainMs {
      RunCanOverlap(s, leaseMs, d);
    } else if RunOverlap(s, leaseMs, d) {
      var w, e: L.Event :| Reachable(s, w) && SilentRun(s, w, leaseMs, d) && ForcedOverlap(s, w, e);
      OutlastedIsSafe(s, w, e);
    }
  }

  // ---- Forcing an open offer away ----

  /** How long this executor would still take the offer, counted from its sending. */
  function Life(c: E.Config, env: Envelope): int
    requires Takeable(c, env)
  {
    Min(OfferTtlAt(c, env).v, env.exp.value - env.ts.value)
  }

  /** The current offer went out d ms ago; an executor takes it within `life` ms, for a lease of `leaseMs`. */
  predicate OpenOffer(s: Setting, w: World, d: int, life: int, leaseMs: int) {
    && w.rec.state.Offered?
    && forall env :: env in w.sent && OffersAttempt(s, env, w.rec.attempt) && env.to in w.execs
                     && Takeable(w.execs[env.to].config, env) ==>
         var c := w.execs[env.to].config;
         env.ts.value + d == w.now && Life(c, env) == life && Min(OfferLeaseAt(c, env).v, c.leaseMsAid) == leaseMs
  }

  ghost predicate OfferOverlap(s: Setting, expired: bool, d: nat, life: int, leaseMs: int) {
    exists w, e: L.Event :: Reachable(s, w) && OpenOffer(s, w, d, life, leaseMs) && e.Timer? == expired &&
        ForcedOverlap(s, w, e)
  }

  function Forcing(expired: bool, now: int): L.Event {
    if expired then L.Timer(L.OfferTtlTimer, now) else L.OwnerRedispatches(now)
  }

  /** The attempt forced away, its run already taken or not: the drain starts. */
  lemma Forced(s: Setting, w: World, expired: bool, d: nat, stamp: Stamp)
    requires Sane(s.p) && w.rec.state.Offered? && w.rec.attempt == 1 && w.now == d
    requires w.rec.failedBudget == 0 && w.rec.dispatchRounds == 0
    requires expired ==> w.rec.offerTtlUntil.Some? && w.rec.offerTtlUntil.value <= d
    ensures LeadMay(w, Forcing(expired, d)) && Forces(w.rec, Forcing(expired, d))
    ensures var u := LeadStep(s, w, Forcing(expired, d), stamp);
            && u.now == d && u.execs == w.execs && w.sent <= u.sent
            && Drained(s, u.(now := d + s.p.drainMs))
  {
  }

  /** From a drained world in which the run of attempt 1 still has its lease. */
  lemma NextIsOut(s: Setting, w: World, e: L.Event, stamp: Stamp, u: World, x: Uuid)
    requires Sane(s.p) && LeadMay(w, e) && Forces(w.rec, e) && w.rec.attempt == 1
    requires Reaches(s, LeadStep(s, w, e, stamp), u) && Drained(s, u) && LiveAt(s, u, x, 1)
    ensures ForcedOverlap(s, w, e)
  {
    var v := DrainAndOffer(s, LeadStep(s, w, e, stamp), u, x);
    assert LiveAt(s, v, x, 1);
  }

  /** The offer is out for d ms, taken or not; then it is forced away and drained, and its run goes on. */
  lemma OverlapFrom(s: Setting, w: World, expired: bool, d: nat, life: int, leaseMs: int, u: World, x: Uuid)
    requires Sane(s.p) && Reachable(s, w) && OpenOffer(s, w, d, life, leaseMs) && w.rec.attempt == 1
    requires LeadMay(w, Forcing(expired, d)) && Forces(w.rec, Forcing(expired, d))
    requires Reaches(s, LeadStep(s, w, Forcing(expired, d), Stamp(6, LATE)), u) && Drained(s, u) && LiveAt(s, u, x, 1)
    ensures OfferOverlap(s, expired, d, life, leaseMs)
  {
    NextIsOut(s, w, Forcing(expired, d), Stamp(6, LATE), u, x);
  }

  /** The offer has been out for `at` ms and nobody took it. */
  function Waiting(s: Setting, x: Uuid, life: int, leaseMs: int, at: int): World {
    Dispatched(s, x, leaseMs, life, leaseMs).(now := at)
  }

  lemma WaitingReached(s: Setting, x: Uuid, life: int, leaseMs: int, at: nat)
    ensures Reaches(s, Begin(s, x, leaseMs, life), Waiting(s, x, life, leaseMs, at))
  {
    Dispatch(s, x, leaseMs, life, leaseMs);
    Waited(s, Begin(s, x, leaseMs, life), Dispatched(s, x, leaseMs, life, leaseMs), at);
  }

  lemma WaitingOpen(s: Setting, x: Uuid, life: int, leaseMs: int, d: nat, w: World)
    requires x != s.lead && 0 < leaseMs && life + leaseMs <= MAX_SAFE && x in w.execs && w.now == d
    requires w.execs[x].config == PlainConfig(s, x, leaseMs, life)
    requires w.rec == Waiting(s, x, life, leaseMs, d).rec
    requires forall env :: env in w.sent && Ours(s, env) ==> env == OfferMsg(s, x, leaseMs)
    ensures OpenOffer(s, w, d, life, leaseMs)
  {
  }

  /** The offer was taken before it is forced away, its acceptance still in flight. */
  lemma TakenBefore(s: Setting, expired: bool, d: nat, life: int, leaseMs: int)
    requires Sane(s.p) && Coverable(s, leaseMs) && 0 < life && life + leaseMs <= MAX_SAFE
    requires expired ==> s.p.offerTtlMsAid <= d
    requires life - 1 <= d && life - 1 + leaseMs > d + s.p.drainMs
    ensures OfferOverlap(s, expired, d, life, leaseMs)
  {
    var x := s.lead + 1;
    var w0, open, stamp := Begin(s, x, leaseMs, life), Waiting(s, x, life, leaseMs, life - 1), Stamp(6, LATE);
    BeginStarts(s, x, leaseMs, life);
    WaitingReached(s, x, life, leaseMs, life - 1);
    Take(s, w0, open, x, leaseMs, life, leaseMs);
    var taken := Accepted(s, open, x, leaseMs, life, leaseMs);
    Waited(s, w0, taken, d - (life - 1));
    var w := taken.(now := d);
    WaitingOpen(s, x, life, leaseMs, d, w);
    Forced(s, w, expired, d, stamp);
    var u := LeadStep(s, w, Forcing(expired, d), stamp);
    ReachesOne(s, u, Advance(s.p.drainMs), u.(now := d + s.p.drainMs));
    OverlapFrom(s, w, expired, d, life, leaseMs, u.(now := d + s.p.drainMs), x);
  }

  /** The offer is taken after it was forced away, while it drains. */
  lemma TakenAfter(s: Setting, expired: bool, d: nat, life: int, leaseMs: int)
    requires Sane(s.p) && Coverable(s, leaseMs) && 0 < life && life + leaseMs <= MAX_SAFE
    requires expired ==> s.p.offerTtlMsAid <= d
    requires d < life - 1 && life - 1 + leaseMs > d + s.p.drainMs
    ensures OfferOverlap(s, expired, d, life, leaseMs)
  {
    var x := s.lead + 1;
    var at, stamp := Min(life - 1, d + s.p.drainMs), Stamp(6, LATE);
    var w := Waiting(s, x, life, leaseMs, d);
    BeginStarts(s, x, leaseMs, life);
    WaitingReached(s, x, life, leaseMs, d);
    WaitingOpen(s, x, life, leaseMs, d, w);
    Forced(s, w, expired, d, stamp);
    var u := LeadStep(s, w, Forcing(expired, d), stamp);
    ReachesOne(s, u, Advance(at - d), u.(now := at));
    Take(s, u, u.(now := at), x, leaseMs, life, leaseMs);
    var taken := Accepted(s, u.(now := at), x, leaseMs, life, leaseMs);
    Waited(s, u, taken, d + s.p.drainMs - at);
    OverlapFrom(s, w, expired, d, life, leaseMs, taken.(now := d + s.p.drainMs), x);
  }

  /**
   * An open offer forced away d ms after it was sent, by its expiry or by the owner: two attempts can be live at
   * once exactly when a run that takes the offer at the last moment outlasts the d ms and the drain together.
   */
  lemma OfferForcedIff(s: Setting, expired: bool, d: nat, life: int, leaseMs: int)
    requires Sane(s.p) && Coverable(s, leaseMs) && 0 < life && life + leaseMs <= MAX_SAFE
    requires expired ==> s.p.offerTtlMsAid <= d
    ensures OfferOverlap(s, expired, d, life, leaseMs) <==> life - 1 + leaseMs > d + s.p.drainMs
  {
    if life - 1 + leaseMs > d + s.p.drainMs {
      if life - 1 <= d {
        TakenBefore(s, expired, d, life, leaseMs);
      } else {
        TakenAfter(s, expired, d, life, leaseMs);
      }
    } else if OfferOverlap(s, expired, d, life, leaseMs) {
      var w, e: L.Event :| Reachable(s, w) && OpenOffer(s, w, d, life, leaseMs) && e.Timer? == expired &&
          ForcedOverlap(s, w, e);
      assert Lapses(s, w, w.rec.attempt, w.now + s.p.drainMs);
      OutlastedIsSafe(s, w, e);
    }
  }

  /** The defaults: a full aid lease is safe from an owner only after 90 s of silence; an expired offer is not. */
  lemma DefaultForcing(s: Setting, d: nat)
    requires s.p == DEFAULT_PARAMS
    ensures RunOverlap(s, s.p.leaseMsAid, d) <==> d < 90000
    ensures d >= s.p.offerTtlMsAid ==>
              (OfferOverlap(s, true, d, s.p.offerTtlMsAid, s.p.leaseMsAid) <==> d < 99999)
  {
    forall l | 0 < l <= s.p.leaseMsAid ensures DrainCoversLease(l, s.p) {
      DefaultsCoverEveryGrantedLease(l);
    }
    OwnerRedispatchIff(s, s.p.leaseMsAid, d);
    if d >= s.p.offerTtlMsAid {
      OfferForcedIff(s, true, d, s.p.offerTtlMsAid, s.p.leaseMsAid);
    }
  }
}
