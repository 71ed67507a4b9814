/**
 * The custody chain over an unreliable network: sender outbox, gateway table, receiver inbox.
 * Frames may be lost, repeated and reordered; connections come and go; the gateway and the nodes crash.
 */
module CustodyChain {
  import opened Core
  import opened CustodyTable

  /** A tracked outbound message: its payload stays in the outbox until custody is confirmed. */
  datatype Tracked = Tracked(packet: Packet, stored: bool)

  /** Durable node state; inbox rows are never deleted. */
  datatype Node = Node(delivery: map<Uuid, Tracked>, inbox: map<(Uuid, Uuid), Digest>)

  type ConnId = nat
  type Ticket = nat

  /** Gateway side of a connection; lost in a crash. */
  datatype Conn = Conn(node: Uuid, inflight: map<Ticket, Packet>)

  datatype Frame =
    | Uplink(conn: ConnId, packet: Packet)
    | StoredFrame(conn: ConnId, from: Uuid, msgId: Uuid, digest: Digest)
    | DeliveryFrame(conn: ConnId, packet: Packet, ticket: Ticket)
    | ReceiptFrame(conn: ConnId, ticket: Ticket, from: Uuid, msgId: Uuid, digest: Digest)

  /** `owner` remembers which node opened each connection; ids are not reused. */
  datatype World = World(now: int, table: seq<Row>, nodes: map<Uuid, Node>, owner: map<ConnId, Uuid>,
                         conns: map<ConnId, Conn>, current: map<Uuid, ConnId>, frames: set<Frame>)

  datatype Event =
    | Advance(d: nat)
    | Save(node: Uuid, packet: Packet)
    | Send(conn: ConnId, msgId: Uuid)
    | Admit(conn: ConnId, packet: Packet, routed: bool)
    | HearStored(frame: Frame)
    | Forget(node: Uuid, ids: set<Uuid>)
    | Pump(conn: ConnId, window: nat, inflight: map<Ticket, Packet>)
    | Receive(frame: Frame, verified: bool, room: bool)
    | Receipt(frame: Frame)
    | Connect(conn: ConnId, node: Uuid)
    | Disconnect(conn: ConnId)
    | GatewayCrash

  predicate IsCurrent(w: World, c: ConnId) {
    c in w.conns && w.conns[c].node in w.current && w.current[w.conns[c].node] == c
  }

  predicate FromPending(rows: seq<Row>, inflight: map<Ticket, Packet>) {
    forall t :: t in inflight ==> exists i :: 0 <= i < |rows| && rows[i].payload == Some(inflight[t])
  }

  /** Retention at the sender drops stored rows only. */
  predicate AllStored(n: Node, ids: set<Uuid>) {
    forall id :: id in ids && id in n.delivery ==> n.delivery[id].stored
  }

  predicate Enabled(w: World, e: Event) {
    match e
    case Advance(_) => true
    case Save(x, _) => x in w.nodes
    case Send(c, id) =>
      c in w.owner && w.owner[c] in w.nodes && id in w.nodes[w.owner[c]].delivery &&
          !w.nodes[w.owner[c]].delivery[id].stored
    case Admit(c, p, _) => c in w.conns && Uplink(c, p) in w.frames
    case HearStored(f) => f.StoredFrame? && f in w.frames && f.conn in w.owner && w.owner[f.conn] in w.nodes
    case Forget(x, ids) => x in w.nodes && AllStored(w.nodes[x], ids)
    case Pump(c, window, inflight) =>
      IsCurrent(w, c) && FromPending(Peek(w.table, w.conns[c].node, w.now, window).1, inflight)
    case Receive(f, _, _) => f.DeliveryFrame? && f in w.frames && f.conn in w.owner && w.owner[f.conn] in w.nodes
    case Receipt(f) => f.ReceiptFrame? && f in w.frames && f.conn in w.conns
    case Connect(c, x) => c !in w.owner
    case Disconnect(_) => true
    case GatewayCrash => true
  }

  /** A message identity is bound to its first content. */
  function SaveTo(n: Node, x: Uuid, p: Packet): Node {
    if p.from != x || p.msgId in n.delivery then n
    else n.(delivery := n.delivery[p.msgId := Tracked(p, false)])
  }

  /** A custody frame releases the outbox copy only of the message it names. */
  function Confirm(n: Node, x: Uuid, from: Uuid, msgId: Uuid, digest: Digest): Node {
    if from == x && msgId in n.delivery && n.delivery[msgId].packet == digest
    then n.(delivery := n.delivery[msgId := Tracked(digest, true)])
    else n
  }

  /** The inbox commit precedes the receipt; a conflicting identity or a full inbox yields none. */
  function Accepts(n: Node, x: Uuid, p: Packet, verified: bool, room: bool): bool {
    p.to == x && verified &&
    if (p.from, p.msgId) in n.inbox then n.inbox[(p.from, p.msgId)] == p else room
  }

  function TakeIn(n: Node, p: Packet): Node {
    if (p.from, p.msgId) in n.inbox then n else n.(inbox := n.inbox[(p.from, p.msgId) := p])
  }

  function Apply(q: Limits, w: World, e: Event): World
    requires Enabled(w, e)
  {
    match e
    case Advance(d) => w.(now := w.now + d)
    case Save(x, p) => w.(nodes := w.nodes[x := SaveTo(w.nodes[x], x, p)])
    case Send(c, id) => w.(frames := w.frames + {Uplink(c, w.nodes[w.owner[c]].delivery[id].packet)})
    case Admit(c, p, routed) =>
      if p.from != w.conns[c].node || !routed then w
      else
        var (t, result) := Offer(w.table, p, w.now, q);
        w.(table := t, frames := w.frames + (if result.Stored? then {StoredFrame(c, w.conns[c].node, p.msgId, p)}
            else {}))
    case HearStored(f) =>
      var x := w.owner[f.conn];
      w.(nodes := w.nodes[x := Confirm(w.nodes[x], x, f.from, f.msgId, f.digest)])
    case Forget(x, ids) => w.(nodes := w.nodes[x := w.nodes[x].(delivery := w.nodes[x].delivery - ids)])
    case Pump(c, window, inflight) =>
      w.(table := Peek(w.table, w.conns[c].node, w.now, window).0,
         conns := w.conns[c := w.conns[c].(inflight := inflight)],
         frames := w.frames + (set t | t in inflight :: DeliveryFrame(c, inflight[t], t)))
    case Receive(f, verified, room) =>
      var x := w.owner[f.conn];
      if !Accepts(w.nodes[x], x, f.packet, verified, room) then w
      else w.(nodes := w.nodes[x := TakeIn(w.nodes[x], f.packet)],
              frames := w.frames + {ReceiptFrame(f.conn, f.ticket, f.packet.from, f.packet.msgId, f.packet)})
    case Receipt(f) =>
      var conn := w.conns[f.conn];
      if !IsCurrent(w, f.conn) || f.ticket !in conn.inflight || conn.inflight[f.ticket].to != conn.node ||
         conn.inflight[f.ticket].from != f.from || conn.inflight[f.ticket].msgId != f.msgId ||
             conn.inflight[f.ticket] != f.digest
      then w
      else
        var (t, ok) := Acknowledge(w.table, conn.node, f.from, f.msgId, f.digest, w.now);
        w.(table := t, conns := if ok then w.conns[f.conn := conn.(inflight := conn.inflight - {f.ticket})]
            else w.conns)
    case Connect(c, x) =>
      w.(owner := w.owner[c := x], conns := w.conns[c := Conn(x, map[])], current := w.current[x := c])
    case Disconnect(c) =>
      w.(conns := w.conns - {c},
         current := map x | x in w.current && w.current[x] != c :: w.current[x])
    case GatewayCrash => w.(conns := map[], current := map[])
  }

  predicate Start(w: World) {
    && w.table == [] && w.frames == {} && w.conns == map[] && w.owner == map[]
    && forall x :: x in w.nodes ==> w.nodes[x] == Node(map[], map[])
  }

  predicate Follows(q: Limits, w: World, e: Event, v: World) {
    Enabled(w, e) && v == Apply(q, w, e)
  }

  ghost predicate Execution(q: Limits, ws: seq<World>, es: seq<Event>) {
    |ws| == |es| + 1 && forall i :: 0 <= i < |es| ==> Follows(q, ws[i], es[i], ws[i + 1])
  }

  // ---- The invariant ----

  /** The gateway holds a row of this identity and digest. */
  predicate Custody(t: seq<Row>, from: Uuid, msgId: Uuid, digest: Digest) {
    Lookup(t, from, msgId).Some? && Lookup(t, from, msgId).value.digest == digest
  }

  predicate InInbox(w: World, x: Uuid, from: Uuid, msgId: Uuid, digest: Digest) {
    x in w.nodes && (from, msgId) in w.nodes[x].inbox && w.nodes[x].inbox[(from, msgId)] == digest
  }

  /** What a row's state says about the rest of the world. */
  predicate RowTruth(w: World, r: Row) {
    && r.digest.from == r.from && r.digest.msgId == r.msgId && r.digest.to == r.to && r.digest.expires == r.expiresAt
    && (r.status.Received? ==> InInbox(w, r.to, r.from, r.msgId, r.digest))
    && (r.status.Lapsed? ==> r.expiresAt <= w.now)
  }

  ghost predicate RowsTrue(w: World) {
    forall f, m :: Lookup(w.table, f, m).Some? ==> RowTruth(w, Lookup(w.table, f, m).value)
  }

  predicate FrameTruth(w: World, f: Frame) {
    match f
    case StoredFrame(c, from, msgId, digest) => Custody(w.table, from, msgId, digest)
    case ReceiptFrame(c, ticket, from, msgId, digest) => c in w.owner && InInbox(w, w.owner[c], from, msgId, digest)
    case _ => true
  }

  ghost predicate FramesTrue(w: World) {
    forall f :: f in w.frames ==> FrameTruth(w, f)
  }

  predicate TrackedTrue(w: World) {
    forall x, id :: x in w.nodes && id in w.nodes[x].delivery ==>
      var d := w.nodes[x].delivery[id];
      && d.packet.from == x && d.packet.msgId == id
      && (d.stored ==> Custody(w.table, x, id, d.packet))
  }

  predicate Owned(w: World) {
    forall c :: c in w.conns ==> c in w.owner && w.owner[c] == w.conns[c].node
  }

  ghost predicate Inv(q: Limits, w: World) {
    && ValidTable(w.table) && WithinQuota(w.table, q)
    && RowsTrue(w) && FramesTrue(w) && TrackedTrue(w) && Owned(w)
  }

  /** One table operation: identities persist with their digest, and each row change is one of the lawful ones. */
  lemma TableStep(q: Limits, t: seq<Row>, op: Op)
    requires ValidTable(t) && WithinQuota(t, q) && !op.PruneOp?
    ensures ValidTable(Do(Config(q, None), t, op)) && WithinQuota(Do(Config(q, None), t, op), q)
    ensures forall f, m :: KeyMoves(Config(q, None), op, f, m, Lookup(t, f, m),
            Lookup(Do(Config(q, None), t, op), f, m))
    ensures forall f, m, d :: Custody(t, f, m, d) ==> Custody(Do(Config(q, None), t, op), f, m, d)
  {
    var c := Config(q, None);
    DoKeeps(c, t, op);
    forall f, m ensures KeyMoves(c, op, f, m, Lookup(t, f, m), Lookup(Do(c, t, op), f, m)) {
      KeyStep(c, t, op, f, m);
    }
    forall f, m, d | Custody(t, f, m, d) ensures Custody(Do(c, t, op), f, m, d) {
      KeyStep(c, t, op, f, m);
    }
  }

  /** A step of the gateway's table that sends only true frames. */
  lemma TableKeeps(q: Limits, w: World, op: Op, v: World)
    requires Inv(q, w) && !op.PruneOp? && op.now == w.now
    requires v.table == Do(Config(q, None), w.table, op) && v.nodes == w.nodes && v.owner == w.owner && v.now == w.now
    requires w.frames <= v.frames && forall f :: f in v.frames && f !in w.frames ==> FrameTruth(v, f)
    requires Owned(v)
    requires op.AckOp? ==> InInbox(w, op.to, op.from, op.msgId, op.digest)
    ensures Inv(q, v)
  {
    TableStep(q, w.table, op);
    assert RowsTrue(v) by {
      forall f, m | Lookup(v.table, f, m).Some? ensures RowTruth(v, Lookup(v.table, f, m).value) {
        assert KeyMoves(Config(q, None), op, f, m, Lookup(w.table, f, m), Lookup(v.table, f, m));
        if Lookup(w.table, f, m).Some? {
          assert RowTruth(w, Lookup(w.table, f, m).value);
          LookupIn(w.table, f, m);
        }
      }
    }
    assert FramesTrue(v) by {
      forall f | f in v.frames ensures FrameTruth(v, f) {
        if f in w.frames {
          assert FrameTruth(w, f);
        }
      }
    }
  }

  /** Growth of the nodes' tables: inboxes keep what they have. */
  lemma NodesKeep(q: Limits, w: World, v: World)
    requires Inv(q, w) && v.table == w.table && v.now >= w.now && v.conns == w.conns
    requires v.owner == w.owner && w.nodes.Keys <= v.nodes.Keys
    requires forall x :: x in w.nodes ==> forall k :: k in w.nodes[x].inbox ==>
               k in v.nodes[x].inbox && v.nodes[x].inbox[k] == w.nodes[x].inbox[k]
    requires TrackedTrue(v)
    requires w.frames <= v.frames && forall f :: f in v.frames && f !in w.frames ==> FrameTruth(v, f)
    ensures Inv(q, v)
  {
    assert RowsTrue(v) by {
      forall f, m | Lookup(v.table, f, m).Some? ensures RowTruth(v, Lookup(v.table, f, m).value) {
        assert RowTruth(w, Lookup(w.table, f, m).value);
      }
    }
    assert FramesTrue(v) by {
      forall f | f in v.frames ensures FrameTruth(v, f) {
        if f in w.frames {
          assert FrameTruth(w, f);
        }
      }
    }
  }

  lemma AdmitKeeps(q: Limits, w: World, c: ConnId, p: Packet, routed: bool)
    requires Inv(q, w) && Enabled(w, Admit(c, p, routed))
    ensures Inv(q, Apply(q, w, Admit(c, p, routed)))
  {
    if p.from == w.conns[c].node && routed {
      var v := Apply(q, w, Admit(c, p, routed));
      var op := OfferOp(p, w.now);
      TableStep(q, w.table, op);
      if Offer(w.table, p, w.now, q).1.Stored? {
        StoredMeansCustody(w.table, p, w.now, q);
      }
      TableKeeps(q, w, op, v);
    }
  }

  /** The gateway says 'stored' only when it holds the row with that digest. */
  lemma StoredMeansCustody(t: seq<Row>, p: Packet, now: int, q: Limits)
    requires Offer(t, p, now, q).1.Stored?
    ensures Custody(Offer(t, p, now, q).0, p.from, p.msgId, p)
  {
    if Lookup(t, p.from, p.msgId).None? {
      LookupExpire(t, now, p.from, p.msgId);
      LookupAppend(Expire(t, now), NewRow(p, now), p.from, p.msgId);
    }
  }

  lemma ReceiptKeeps(q: Limits, w: World, f: Frame)
    requires Inv(q, w) && Enabled(w, Receipt(f))
    ensures Inv(q, Apply(q, w, Receipt(f)))
  {
    var v := Apply(q, w, Receipt(f));
    var conn := w.conns[f.conn];
    assert FrameTruth(w, f);
    if v != w {
      TableKeeps(q, w, AckOp(conn.node, f.from, f.msgId, f.digest, w.now), v);
    }
  }

  lemma PumpKeeps(q: Limits, w: World, c: ConnId, window: nat, inflight: map<Ticket, Packet>)
    requires Inv(q, w) && Enabled(w, Pump(c, window, inflight))
    ensures Inv(q, Apply(q, w, Pump(c, window, inflight)))
  {
    TableKeeps(q, w, PeekOp(w.conns[c].node, w.now, window), Apply(q, w, Pump(c, window, inflight)));
  }

  lemma NodeKeeps(q: Limits, w: World, e: Event)
    requires Inv(q, w) && Enabled(w, e) && (e.Save? || e.Receive? || e.Send? || e.Advance?)
    ensures Inv(q, Apply(q, w, e))
  {
    NodesKeep(q, w, Apply(q, w, e));
  }

  /** A custody frame, and retention of what such frames released. */
  lemma StoredKeeps(q: Limits, w: World, e: Event)
    requires Inv(q, w) && Enabled(w, e) && (e.HearStored? || e.Forget?)
    ensures Inv(q, Apply(q, w, e))
  {
    if e.HearStored? {
      assert FrameTruth(w, e.frame);
    }
    NodesKeep(q, w, Apply(q, w, e));
  }

  lemma ConnKeeps(q: Limits, w: World, e: Event)
    requires Inv(q, w) && Enabled(w, e) && (e.Connect? || e.Disconnect? || e.GatewayCrash?)
    ensures Inv(q, Apply(q, w, e))
  {
    var v := Apply(q, w, e);
    assert RowsTrue(v) by {
      forall f, m | Lookup(v.table, f, m).Some? ensures RowTruth(v, Lookup(v.table, f, m).value) {
        assert RowTruth(w, Lookup(w.table, f, m).value);
      }
    }
    forall f | f in v.frames ensures FrameTruth(v, f) {
      assert FrameTruth(w, f);
    }
  }

  lemma StepKeeps(q: Limits, w: World, e: Event)
    requires Inv(q, w) && Enabled(w, e)
    ensures Inv(q, Apply(q, w, e))
  {
    match e
    case Admit(c, p, routed) => AdmitKeeps(q, w, c, p, routed);
    case Pump(c, window, inflight) => PumpKeeps(q, w, c, window, inflight);
    case Receipt(f) => ReceiptKeeps(q, w, f);
    case Connect(_, _) => ConnKeeps(q, w, e);
    case Disconnect(_) => ConnKeeps(q, w, e);
    case GatewayCrash => ConnKeeps(q, w, e);
    case HearStored(_) => StoredKeeps(q, w, e);
    case Forget(_, _) => StoredKeeps(q, w, e);
    case _ => NodeKeeps(q, w, e);
  }

  lemma {:induction false} ExecutionKeeps(q: Limits, ws: seq<World>, es: seq<Event>, k: nat)
    requires Execution(q, ws, es) && Start(ws[0]) && k < |ws|
    requires q.maxEntries >= 0 && q.maxBytes >= 0 && q.perNode >= 0
    ensures Inv(q, ws[k])
  {
    if k > 0 {
      ExecutionKeeps(q, ws, es, k - 1);
      assert Follows(q, ws[k - 1], es[k - 1], ws[k - 1 + 1]);
      StepKeeps(q, ws[k - 1], es[k - 1]);
    }
  }

  // ---- Main results ----

  predicate ValidLimits(q: Limits) {
    q.maxEntries > 0 && q.maxBytes > 0 && q.perNode > 0
  }

  /** In every reachable state: 'stored' at the sender means custody at the gateway, with the same digest. */
  lemma StoredImpliesCustody(q: Limits, ws: seq<World>, es: seq<Event>, k: nat, x: Uuid, id: Uuid)
    requires Execution(q, ws, es) && Start(ws[0]) && k < |ws| && ValidLimits(q)
    requires x in ws[k].nodes && id in ws[k].nodes[x].delivery && ws[k].nodes[x].delivery[id].stored
    ensures Custody(ws[k].table, x, id, ws[k].nodes[x].delivery[id].packet)
  {
    ExecutionKeeps(q, ws, es, k);
  }

  /** In every reachable state: 'received' at the gateway means the recipient's inbox holds that message. */
  lemma ReceivedImpliesInbox(q: Limits, ws: seq<World>, es: seq<Event>, k: nat, from: Uuid, id: Uuid)
    requires Execution(q, ws, es) && Start(ws[0]) && k < |ws| && ValidLimits(q)
    requires Lookup(ws[k].table, from, id).Some? && Lookup(ws[k].table, from, id).value.status.Received?
    ensures var r := Lookup(ws[k].table, from, id).value; InInbox(ws[k], r.to, from, id, r.digest)
  {
    ExecutionKeeps(q, ws, es, k);
    LookupIn(ws[k].table, from, id);
    assert RowTruth(ws[k], Lookup(ws[k].table, from, id).value);
  }

  /** The message is with its sender, with the gateway, or with its recipient; or it has expired. */
  predicate Safe(w: World, p: Packet) {
    || (p.from in w.nodes && p.msgId in w.nodes[p.from].delivery &&
        w.nodes[p.from].delivery[p.msgId] == Tracked(p, false))
    || (Lookup(w.table, p.from, p.msgId).Some? && Lookup(w.table, p.from, p.msgId).value.payload == Some(p))
    || InInbox(w, p.to, p.from, p.msgId, p)
    || w.now >= p.expires
  }

  predicate IsTracked(w: World, p: Packet) {
    p.from in w.nodes && p.msgId in w.nodes[p.from].delivery && w.nodes[p.from].delivery[p.msgId].packet == p
  }

  /** The sender still waits for custody, or the gateway has it. */
  predicate Held(w: World, p: Packet) {
    || (p.from in w.nodes && p.msgId in w.nodes[p.from].delivery
        && w.nodes[p.from].delivery[p.msgId] == Tracked(p, false))
    || Custody(w.table, p.from, p.msgId, p)
  }

  lemma HeldStep(q: Limits, w: World, e: Event, p: Packet)
    requires Inv(q, w) && Enabled(w, e) && Held(w, p)
    ensures Held(Apply(q, w, e), p)
  {
    if Custody(w.table, p.from, p.msgId, p) {
      CustodyStep(q, w, e, p);
    } else if e.HearStored? {
      assert FrameTruth(w, e.frame);
    }
  }

  /** Custody is kept by every step: the gateway runs without retention here. */
  lemma CustodyStep(q: Limits, w: World, e: Event, p: Packet)
    requires Inv(q, w) && Enabled(w, e) && Custody(w.table, p.from, p.msgId, p)
    ensures Custody(Apply(q, w, e).table, p.from, p.msgId, p)
  {
    if e.Admit? {
      TableStep(q, w.table, OfferOp(e.packet, w.now));
    } else if e.Pump? {
      TableStep(q, w.table, PeekOp(w.conns[e.conn].node, w.now, e.window));
    } else if e.Receipt? {
      var f := e.frame;
      TableStep(q, w.table, AckOp(w.conns[f.conn].node, f.from, f.msgId, f.digest, w.now));
    }
  }

  lemma {:induction false} HeldForever(q: Limits, ws: seq<World>, es: seq<Event>, i: nat, k: nat, p: Packet)
    requires Execution(q, ws, es) && Start(ws[0]) && ValidLimits(q) && i <= k < |ws| && IsTracked(ws[i], p)
    ensures Held(ws[k], p)
    decreases k
  {
    if i < k {
      HeldForever(q, ws, es, i, k - 1, p);
      HeldNext(q, ws, es, k - 1, p);
    } else {
      ExecutionKeeps(q, ws, es, k);
      TrackedIsHeld(q, ws[k], p);
    }
  }

  lemma HeldNext(q: Limits, ws: seq<World>, es: seq<Event>, k: nat, p: Packet)
    requires Execution(q, ws, es) && Start(ws[0]) && ValidLimits(q) && k < |es| && Held(ws[k], p)
    ensures Held(ws[k + 1], p)
  {
    ExecutionKeeps(q, ws, es, k);
    assert Follows(q, ws[k], es[k], ws[k + 1]);
    HeldStep(q, ws[k], es[k], p);
  }

  lemma TrackedIsHeld(q: Limits, w: World, p: Packet)
    requires Inv(q, w) && IsTracked(w, p)
    ensures Held(w, p)
  {
  }

  /** No unexpired message is ever lost: once saved, it is somewhere durable at every later moment. */
  lemma NothingLost(q: Limits, ws: seq<World>, es: seq<Event>, i: nat, k: nat, p: Packet)
    requires Execution(q, ws, es) && Start(ws[0]) && ValidLimits(q)
    requires i <= k < |ws| && IsTracked(ws[i], p)
    ensures Safe(ws[k], p)
  {
    HeldForever(q, ws, es, i, k, p);
    ExecutionKeeps(q, ws, es, k);
    var w := ws[k];
    if Custody(w.table, p.from, p.msgId, p) {
      var r := Lookup(w.table, p.from, p.msgId).value;
      LookupIn(w.table, p.from, p.msgId);
      assert RowTruth(w, r) && ValidRow(r);
    }
  }

  // ---- Nothing is stuck ----

  /** Where a list of events leads, if each is enabled in turn. */
  function After(q: Limits, w: World, es: seq<Event>): Option<World>
    decreases |es|
  {
    if es == [] then Some(w)
    else if Enabled(w, es[0]) then After(q, Apply(q, w, es[0]), es[1..])
    else None
  }

  /** From w, some events lead to v. */
  ghost predicate Reaches(q: Limits, w: World, v: World) {
    exists es :: After(q, w, es) == Some(v)
  }

  lemma {:induction false} AfterAppend(q: Limits, w: World, es: seq<Event>, e: Event)
    requires After(q, w, es).Some? && Enabled(After(q, w, es).value, e)
    ensures After(q, w, es + [e]) == Some(Apply(q, After(q, w, es).value, e))
    decreases |es|
  {
    if es == [] {
      assert ([] + [e])[1..] == [];
      assert After(q, Apply(q, w, e), []) == Some(Apply(q, w, e));
    } else {
      AfterAppend(q, Apply(q, w, es[0]), es[1..], e);
      assert (es + [e])[1..] == es[1..] + [e];
    }
  }

  lemma ReachesNext(q: Limits, w: World, v: World, e: Event)
    requires Reaches(q, w, v) && Enabled(v, e)
    ensures Reaches(q, w, Apply(q, v, e))
  {
    var es :| After(q, w, es) == Some(v);
    AfterAppend(q, w, es, e);
  }

  /** The gateway has the row, or room for it. */
  predicate Takes(q: Limits, w: World, p: Packet) {
    || Custody(w.table, p.from, p.msgId, p)
    || (var u := Expire(w.table, w.now);
        && Lookup(w.table, p.from, p.msgId).None? && |u| < q.maxEntries && p.bytes <= q.maxBytes - Bytes(u)
        && PendingFor(u, p.to) < q.perNode)
  }

  /** The encoder and the clock let the message through. */
  predicate InTime(w: World, p: Packet) {
    ValidPacket(p) && ValidTime(w.now) && w.now < p.expires <= w.now + MAX_TRANSPORT_LIFETIME_MS
  }

  /** Sent over a new connection, it comes into custody, and the sender learns of it. */
  lemma CustodyPossible(q: Limits, w: World, p: Packet, c: ConnId) returns (v: World)
    requires Inv(q, w) && c !in w.owner && InTime(w, p) && Takes(q, w, p)
    requires p.from in w.nodes && p.msgId in w.nodes[p.from].delivery
    requires w.nodes[p.from].delivery[p.msgId] == Tracked(p, false)
    ensures Reaches(q, w, v) && Inv(q, v) && v.now == w.now && Custody(v.table, p.from, p.msgId, p)
    ensures v.nodes == w.nodes[p.from := w.nodes[p.from].(delivery := w.nodes[p.from].delivery[p.msgId := Tracked(p,
            true)])]
    ensures v.owner == w.owner[c := p.from]
  {
    assert After(q, w, []) == Some(w);
    var w1 := Opened(q, w, w, c, p.from);
    var send := Send(c, p.msgId);
    ReachesNext(q, w, w1, send);
    var w2 := Apply(q, w1, send);
    StepKeeps(q, w1, send);
    var admit := Admit(c, p, true);
    ReachesNext(q, w, w2, admit);
    var w3 := Apply(q, w2, admit);
    StepKeeps(q, w2, admit);
    AdmitStores(q, w2, c, p);
    var hear := HearStored(StoredFrame(c, p.from, p.msgId, p));
    ReachesNext(q, w, w3, hear);
    v := Apply(q, w3, hear);
    StepKeeps(q, w3, hear);
  }

  lemma Opened(q: Limits, w0: World, w: World, c: ConnId, x: Uuid) returns (v: World)
    requires Reaches(q, w0, w) && Inv(q, w) && c !in w.owner
    ensures Reaches(q, w0, v) && Inv(q, v) && IsCurrent(v, c) && v.conns[c] == Conn(x, map[])
    ensures v == w.(owner := w.owner[c := x], conns := v.conns, current := v.current)
  {
    ReachesNext(q, w0, w, Connect(c, x));
    StepKeeps(q, w, Connect(c, x));
    v := Apply(q, w, Connect(c, x));
  }

  /** With the row or room for it, an uplink of the sender is stored, and the frame that says so is sent. */
  lemma AdmitStores(q: Limits, w: World, c: ConnId, p: Packet)
    requires Inv(q, w) && Enabled(w, Admit(c, p, true)) && w.conns[c].node == p.from && InTime(w, p) && Takes(q, w, p)
    ensures var v := Apply(q, w, Admit(c, p, true));
            StoredFrame(c, p.from, p.msgId, p) in v.frames && Custody(v.table, p.from, p.msgId, p)
  {
    StoredMeansCustody(w.table, p, w.now, q);
  }

  /** What the gateway holds for a node is pumped over its connection, taken in, and acknowledged. */
  lemma ReceiptPossible(q: Limits, w: World, p: Packet, c: ConnId) returns (v: World)
    requires Inv(q, w) && c !in w.owner && ValidTime(w.now) && w.now < p.expires && p.to in w.nodes
    requires PendingRow(w.table, p, w.now)
    requires (p.from, p.msgId) in w.nodes[p.to].inbox ==> w.nodes[p.to].inbox[(p.from, p.msgId)] == p
    ensures Reaches(q, w, v) && v.now == w.now
    ensures InInbox(v, p.to, p.from, p.msgId, p)
    ensures ReceivedBy(v.table, p.to, p.from, p.msgId, p)
    ensures forall x :: x in w.nodes ==> x in v.nodes && v.nodes[x].delivery == w.nodes[x].delivery
  {
    assert After(q, w, []) == Some(w);
    var w1 := Opened(q, w, w, c, p.to);
    var w2 := Pumped(q, w, w1, p, c);
    var receive := Receive(DeliveryFrame(c, p, 0), true, true);
    ReachesNext(q, w, w2, receive);
    var w3 := Apply(q, w2, receive);
    StepKeeps(q, w2, receive);
    v := Acked(q, w, w3, p, c);
  }

  /** The pump sends the row over the connection, under a ticket. */
  lemma Pumped(q: Limits, w0: World, w: World, p: Packet, c: ConnId) returns (v: World)
    requires Reaches(q, w0, w) && Inv(q, w) && IsCurrent(w, c) && w.conns[c].node == p.to
    requires ValidTime(w.now) && PendingRow(w.table, p, w.now)
    ensures Reaches(q, w0, v) && Inv(q, v) && v.now == w.now && v.nodes == w.nodes && v.owner == w.owner
    ensures PendingRow(v.table, p, v.now) && DeliveryFrame(c, p, 0) in v.frames
    ensures IsCurrent(v, c) && v.conns[c] == Conn(p.to, map[0 := p])
  {
    var inflight: map<Ticket, Packet> := map[0 := p];
    var pump := Event.Pump(c, |w.table|, inflight);
    PendingIsPumped(w, p);
    ReachesNext(q, w0, w, pump);
    v := Apply(q, w, pump);
    StepKeeps(q, w, pump);
    assert DeliveryFrame(c, inflight[0], 0) in v.frames;
    LookupExpire(w.table, w.now, p.from, p.msgId);
  }

  /** The receipt for the ticket in flight ends the row as received. */
  lemma Acked(q: Limits, w0: World, w: World, p: Packet, c: ConnId) returns (v: World)
    requires Reaches(q, w0, w) && IsCurrent(w, c) && w.conns[c] == Conn(p.to, map[0 := p])
    requires ReceiptFrame(c, 0, p.from, p.msgId, p) in w.frames && ValidTime(w.now) && PendingRow(w.table, p, w.now)
    ensures Reaches(q, w0, v) && v.now == w.now && v.nodes == w.nodes
    ensures ReceivedBy(v.table, p.to, p.from, p.msgId, p)
  {
    var receipt := Receipt(ReceiptFrame(c, 0, p.from, p.msgId, p));
    ReachesNext(q, w0, w, receipt);
    v := Apply(q, w, receipt);
    AckReceives(w.table, p, w.now);
  }

  /** A window as long as the table shows every pending row of a node. */
  lemma PendingIsPumped(w: World, p: Packet)
    requires ValidTable(w.table) && ValidTime(w.now) && w.now < p.expires
    requires PendingRow(w.table, p, w.now)
    ensures FromPending(Peek(w.table, p.to, w.now, |w.table|).1, map[0 := p])
  {
    LookupIn(w.table, p.from, p.msgId);
    var r := Lookup(w.table, p.from, p.msgId).value;
    PeekShows(w.table, p.to, w.now, |w.table|, r);
  }

  /**
   * No message is ever stuck: from every reachable state in which an unexpired message waits at its sender, and the
   * gateway has room for it and its recipient no other message of that identity, it can still be delivered: stored,
   * received, and both known.
   */
  lemma DeliveryPossible(q: Limits, ws: seq<World>, es: seq<Event>, k: nat, p: Packet, c: ConnId, d: ConnId)
    returns (v: World)
    requires Execution(q, ws, es) && Start(ws[0]) && ValidLimits(q) && k < |ws|
    requires IsTracked(ws[k], p) && !ws[k].nodes[p.from].delivery[p.msgId].stored
    requires InTime(ws[k], p) && Takes(q, ws[k], p) && c !in ws[k].owner && d !in ws[k].owner && c != d
    requires p.to in ws[k].nodes
    requires (p.from, p.msgId) in ws[k].nodes[p.to].inbox ==> ws[k].nodes[p.to].inbox[(p.from, p.msgId)] == p
    ensures Reaches(q, ws[k], v) && InInbox(v, p.to, p.from, p.msgId, p)
    ensures IsTracked(v, p) && v.nodes[p.from].delivery[p.msgId].stored
    ensures Lookup(v.table, p.from, p.msgId).Some? && Lookup(v.table, p.from, p.msgId).value.status.Received?
  {
    ExecutionKeeps(q, ws, es, k);
    var w := CustodyPossible(q, ws[k], p, c);
    LookupIn(w.table, p.from, p.msgId);
    assert RowTruth(w, Lookup(w.table, p.from, p.msgId).value);
    if Lookup(w.table, p.from, p.msgId).value.status.Pending? {
      v := ReceiptPossible(q, w, p, d);
      ReachesJoin(q, ws[k], w, v);
    } else {
      v := w;
    }
  }

  lemma {:induction false} ReachesJoin(q: Limits, w: World, v: World, u: World)
    requires Reaches(q, w, v) && Reaches(q, v, u)
    ensures Reaches(q, w, u)
  {
    var es, fs :| After(q, w, es) == Some(v) && After(q, v, fs) == Some(u);
    AfterJoin(q, w, es, fs);
  }

  lemma {:induction false} AfterJoin(q: Limits, w: World, es: seq<Event>, fs: seq<Event>)
    requires After(q, w, es).Some?
    ensures After(q, w, es + fs) == After(q, After(q, w, es).value, fs)
    decreases |es|
  {
    if es == [] {
      assert es + fs == fs;
    } else {
      AfterJoin(q, Apply(q, w, es[0]), es[1..], fs);
      assert (es + fs)[1..] == es[1..] + fs;
    }
  }
}
