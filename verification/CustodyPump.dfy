/** Delivery of pending custody over one connection: tickets, window, retries and receipts. */
module CustodyPump {
  import opened Core
  import opened CustodyTable
  import opened CustodyStore

  type Ticket = nat

  /** A delivery awaiting its receipt; a ticket that was never sent has no lastSentAt (minus infinity). */
  datatype Flight = Flight(ticket: Ticket, packet: Packet, lastSentAt: Option<int>)

  /** A delivery frame the socket took. */
  datatype Frame = Frame(ticket: Ticket, packet: Packet, at: int)

  datatype Setup = Setup(node: Uuid, window: nat, retryMs: nat)

  // ---- One pump, on values; tickets in the order they were issued ----

  function Payloads(rows: seq<Row>): (ps: seq<Packet>)
    ensures |ps| <= |rows|
    ensures forall i :: 0 <= i < |rows| && rows[i].payload.Some? ==> rows[i].payload.value in ps
    ensures forall p :: p in ps ==> exists i :: 0 <= i < |rows| && rows[i].payload == Some(p)
  {
    if rows == [] then []
    else
      var front, last := rows[..|rows| - 1], rows[|rows| - 1];
      var ps := Payloads(front);
      assert forall i :: 0 <= i < |front| ==> rows[i] == front[i];
      if last.payload.Some? then ps + [last.payload.value] else ps
  }

  /** The pending prefix a pump works on. */
  function Prefix(c: Setup, rows: seq<Row>, now: int): (ps: seq<Packet>)
    ensures |ps| <= c.window
  {
    Payloads(CustodyTable.Peek(rows, c.node, now, c.window).1)
  }

  /** Tickets whose row left the pending prefix are dropped, the others stay as they are. */
  function Kept(fs: seq<Flight>, ps: seq<Packet>): (kept: seq<Flight>)
    ensures forall f :: f in kept <==> f in fs && f.packet in ps
  {
    if fs == [] then []
    else
      var front, last := fs[..|fs| - 1], fs[|fs| - 1];
      assert fs == front + [last];
      if last.packet in ps then Kept(front, ps) + [last] else Kept(front, ps)
  }

  function Without(fs: seq<Flight>, ticket: Ticket): (rest: seq<Flight>)
    ensures forall f :: f in rest <==> f in fs && f.ticket != ticket
  {
    if fs == [] then []
    else
      var front, last := fs[..|fs| - 1], fs[|fs| - 1];
      assert fs == front + [last];
      if last.ticket != ticket then Without(front, ticket) + [last] else Without(front, ticket)
  }

  /** The first ticket for a packet, or the number of tickets. */
  function IndexOf(fs: seq<Flight>, p: Packet): (i: nat)
    ensures i <= |fs| && (i < |fs| ==> fs[i].packet == p) && forall j :: 0 <= j < i ==> fs[j].packet != p
  {
    if fs == [] then 0
    else
      var front := fs[..|fs| - 1];
      var i := IndexOf(front, p);
      assert forall j :: 0 <= j < |front| ==> fs[j] == front[j];
      if i < |front| then i else if fs[|fs| - 1].packet == p then |front| else |fs|
  }

  predicate Due(f: Flight, now: int, retryMs: nat) {
    f.lastSentAt.None? || now - f.lastSentAt.value >= retryMs
  }

  /** How far a pump has come: the tickets, the frames sent, and whether it stopped early. */
  datatype Pass = Pass(inflight: seq<Flight>, frames: seq<Frame>, stopped: bool)

  /** One pending packet: find or issue its ticket, and send it if it is due and the socket takes it. */
  function Visit(c: Setup, a: Pass, p: Packet, ticket: Ticket, now: int, accepts: nat): Pass {
    var i := IndexOf(a.inflight, p);
    if a.stopped then a
    else if i == |a.inflight| && |a.inflight| >= c.window then a.(stopped := true)
    else
      var fs := if i < |a.inflight| then a.inflight else a.inflight + [Flight(ticket, p, None)];
      if !Due(fs[i], now, c.retryMs) then a.(inflight := fs)
      else if |a.frames| == accepts then a.(inflight := fs, stopped := true)
      else Pass(fs[i := fs[i].(lastSentAt := Some(now))], a.frames + [Frame(fs[i].ticket, p, now)], false)
  }

  /** The packets in rowid order; `accepts` is how many frames the socket takes before it refuses one. */
  function Deliver(c: Setup, fs: seq<Flight>, ps: seq<Packet>, now: int, accepts: nat, tickets: seq<Ticket>): Pass
    requires |ps| <= |tickets|
  {
    if ps == [] then Pass(fs, [], false)
    else
      var n := |ps| - 1;
      Visit(c, Deliver(c, fs, ps[..n], now, accepts, tickets), ps[n], tickets[n], now, accepts)
  }

  predicate Matches(f: Flight, from: Uuid, msgId: Uuid, digest: Digest, node: Uuid) {
    f.packet.to == node && f.packet.from == from && f.packet.msgId == msgId && f.packet == digest
  }

  predicate InFlight(fs: seq<Flight>, ticket: Ticket, from: Uuid, msgId: Uuid, digest: Digest, node: Uuid) {
    exists i :: 0 <= i < |fs| && fs[i].ticket == ticket && Matches(fs[i], from, msgId, digest, node)
  }

  // ---- A connection over its whole life ----

  /** The connection, the custody table it works on, every ticket it ever drew and every frame it ever sent. */
  datatype Link = Link(rows: seq<Row>, current: bool, inflight: seq<Flight>, issued: set<Ticket>, log: seq<Frame>)

  datatype Event =
    | Pumps(now: int, open: bool, accepts: nat, tickets: seq<Ticket>)
    | Receipt(ticket: Ticket, from: Uuid, msgId: Uuid, digest: Digest, now: int, open: bool, accepts: nat,
        tickets: seq<Ticket>)
    | Others(rows: seq<Row>)
    | Superseded

  /** Tickets are drawn at random: never one that this connection drew before. */
  predicate FreshTickets(c: Setup, issued: set<Ticket>, tickets: seq<Ticket>) {
    && |tickets| >= c.window
    && (forall i :: 0 <= i < |tickets| ==> tickets[i] !in issued)
    && forall i, j :: 0 <= i < j < |tickets| ==> tickets[i] != tickets[j]
  }

  predicate Enabled(c: Setup, l: Link, e: Event) {
    match e
    case Pumps(_, _, _, tickets) => FreshTickets(c, l.issued, tickets)
    case Receipt(_, _, _, _, _, _, _, tickets) => FreshTickets(c, l.issued, tickets)
    case Others(rows) => ValidTable(rows)
    case Superseded => true
  }

  function Drawn(tickets: seq<Ticket>): set<Ticket> {
    set i | 0 <= i < |tickets| :: tickets[i]
  }

  function PumpStep(c: Setup, l: Link, now: int, open: bool, accepts: nat, tickets: seq<Ticket>): Link
    requires |tickets| >= c.window
  {
    if !open || !l.current then l
    else
      var ps := Prefix(c, l.rows, now);
      var pass := Deliver(c, Kept(l.inflight, ps), ps, now, accepts, tickets);
      Link(CustodyTable.Peek(l.rows, c.node, now, c.window).0, true, pass.inflight, l.issued + Drawn(tickets),
           l.log + pass.frames)
  }

  function ReceiptStep(c: Setup, l: Link, ticket: Ticket, from: Uuid, msgId: Uuid, digest: Digest, now: int,
                       open: bool, accepts: nat, tickets: seq<Ticket>): Link
    requires |tickets| >= c.window
  {
    if !l.current || !InFlight(l.inflight, ticket, from, msgId, digest, c.node) then l
    else
      var (acked, ok) := CustodyTable.Acknowledge(l.rows, c.node, from, msgId, digest, now);
      if ok then PumpStep(c, l.(rows := acked, inflight := Without(l.inflight, ticket)), now, open, accepts, tickets)
      else l.(rows := acked)
  }

  function Next(c: Setup, l: Link, e: Event): Link
    requires Enabled(c, l, e)
  {
    match e
    case Pumps(now, open, accepts, tickets) => PumpStep(c, l, now, open, accepts, tickets)
    case Receipt(ticket, from, msgId, digest, now, open, accepts, tickets) =>
      ReceiptStep(c, l, ticket, from, msgId, digest, now, open, accepts, tickets)
    case Others(rows) => l.(rows := rows)
    case Superseded => l.(current := false, inflight := [])
  }

  predicate Follows(c: Setup, l: Link, e: Event, m: Link) {
    Enabled(c, l, e) && m == Next(c, l, e)
  }

  /** The life of one connection, over any table that others also work on. */
  ghost predicate Life(c: Setup, ls: seq<Link>, es: seq<Event>) {
    && |ls| == |es| + 1 && ValidTable(ls[0].rows) && ls[0] == Link(ls[0].rows, true, [], {}, [])
    && forall i :: 0 <= i < |es| ==> Follows(c, ls[i], es[i], ls[i + 1])
  }

  // ---- The invariant ----

  /** No two tickets stand for the same message. */
  predicate Distinct(fs: seq<Flight>) {
    forall i, j :: 0 <= i < j < |fs| ==> fs[i].packet != fs[j].packet && fs[i].ticket != fs[j].ticket
  }

  predicate Sound(c: Setup, fs: seq<Flight>) {
    |fs| <= c.window && Distinct(fs) && forall f :: f in fs ==> f.packet.to == c.node
  }

  /** Any two frames of one ticket carry one message and are at least the retry interval apart. */
  predicate Spaced(log: seq<Frame>, retryMs: nat) {
    forall a, b :: 0 <= a < b < |log| && log[a].ticket == log[b].ticket ==>
      log[a].packet == log[b].packet && log[b].at - log[a].at >= retryMs
  }

  /** A ticket in flight remembers a time no earlier than any of its frames. */
  predicate Remembers(fs: seq<Flight>, log: seq<Frame>) {
    forall f, a :: f in fs && 0 <= a < |log| && log[a].ticket == f.ticket ==>
      f.packet == log[a].packet && f.lastSentAt.Some? && log[a].at <= f.lastSentAt.value
  }

  predicate AllIssued(fs: seq<Flight>, issued: set<Ticket>, log: seq<Frame>) {
    (forall f :: f in fs ==> f.ticket in issued) && forall a :: 0 <= a < |log| ==> log[a].ticket in issued
  }

  predicate LogInv(c: Setup, fs: seq<Flight>, issued: set<Ticket>, log: seq<Frame>) {
    AllIssued(fs, issued, log) && Spaced(log, c.retryMs) && Remembers(fs, log)
  }

  predicate Inv(c: Setup, l: Link) {
    ValidTable(l.rows) && Sound(c, l.inflight) && LogInv(c, l.inflight, l.issued, l.log)
  }

  // ---- What a pass does to the log ----

  lemma SendKeepsLog(c: Setup, fs: seq<Flight>, issued: set<Ticket>, log: seq<Frame>, i: nat, now: int)
    requires LogInv(c, fs, issued, log) && Distinct(fs) && i < |fs| && Due(fs[i], now, c.retryMs)
    ensures LogInv(c, fs[i := fs[i].(lastSentAt := Some(now))], issued, log + [Frame(fs[i].ticket, fs[i].packet, now)])
  {
    var gs, more := fs[i := fs[i].(lastSentAt := Some(now))], log + [Frame(fs[i].ticket, fs[i].packet, now)];
    forall f | f in gs ensures f == gs[i] || (f in fs && f.ticket != fs[i].ticket) {
      var j :| 0 <= j < |gs| && gs[j] == f;
      assert j != i ==> fs[j] == f;
    }
    assert fs[i] in fs;
    assert forall a :: 0 <= a < |log| ==> more[a] == log[a];
  }

  lemma IssueKeepsLog(c: Setup, fs: seq<Flight>, issued: set<Ticket>, log: seq<Frame>, ticket: Ticket, p: Packet)
    requires LogInv(c, fs, issued, log) && ticket !in issued
    ensures LogInv(c, fs + [Flight(ticket, p, None)], issued + {ticket}, log)
  {
  }

  lemma IssueKeepsDistinct(fs: seq<Flight>, issued: set<Ticket>, ticket: Ticket, p: Packet)
    requires Distinct(fs) && IndexOf(fs, p) == |fs| && ticket !in issued && forall f :: f in fs ==> f.ticket in issued
    ensures Distinct(fs + [Flight(ticket, p, None)])
  {
    forall i | 0 <= i < |fs| ensures fs[i].ticket != ticket && fs[i].packet != p {
      assert fs[i] in fs;
    }
  }

  lemma VisitKeeps(c: Setup, a: Pass, issued: set<Ticket>, log: seq<Frame>, p: Packet, ticket: Ticket, now: int,
                   accepts: nat)
    requires Sound(c, a.inflight) && LogInv(c, a.inflight, issued, log + a.frames) && ticket !in issued &&
             p.to == c.node
    ensures var b := Visit(c, a, p, ticket, now, accepts);
            Sound(c, b.inflight) && LogInv(c, b.inflight, issued + {ticket}, log + b.frames)
  {
    var i, b := IndexOf(a.inflight, p), Visit(c, a, p, ticket, now, accepts);
    if !a.stopped && (i < |a.inflight| || |a.inflight| < c.window) {
      var fs := if i < |a.inflight| then a.inflight else a.inflight + [Flight(ticket, p, None)];
      if i == |a.inflight| {
        IssueKeepsLog(c, a.inflight, issued, log + a.frames, ticket, p);
        IssueKeepsDistinct(a.inflight, issued, ticket, p);
      }
      assert Sound(c, fs) && LogInv(c, fs, issued + {ticket}, log + a.frames);
      if Due(fs[i], now, c.retryMs) && |a.frames| != accepts {
        SendKeepsLog(c, fs, issued + {ticket}, log + a.frames, i, now);
        assert log + b.frames == log + a.frames + [Frame(fs[i].ticket, p, now)];
        forall f | f in b.inflight ensures f.packet.to == c.node {
          var j :| 0 <= j < |fs| && b.inflight[j] == f;
          assert fs[j] in fs && fs[j].packet == f.packet;
        }
      }
    }
  }

  lemma {:induction false} DeliverKeeps(c: Setup, fs: seq<Flight>, issued: set<Ticket>, log: seq<Frame>,
                                        ps: seq<Packet>,
                                        now: int, accepts: nat, tickets: seq<Ticket>)
    requires Sound(c, fs) && LogInv(c, fs, issued, log) && |ps| <= |tickets| && FreshTickets(c, issued, tickets)
    requires forall p :: p in ps ==> p.to == c.node
    ensures var b := Deliver(c, fs, ps, now, accepts, tickets);
            Sound(c, b.inflight) && LogInv(c, b.inflight, issued + Drawn(tickets[..|ps|]), log + b.frames)
    decreases |ps|
  {
    if ps == [] {
      assert log + [] == log && issued + Drawn(tickets[..0]) == issued;
    } else {
      var n := |ps| - 1;
      DeliverKeeps(c, fs, issued, log, ps[..n], now, accepts, tickets);
      DrawnNext(issued, tickets, n);
      var a := Deliver(c, fs, ps[..n], now, accepts, tickets);
      VisitKeeps(c, a, issued + Drawn(tickets[..n]), log, ps[n], tickets[n], now, accepts);
    }
  }

  lemma DrawnNext(issued: set<Ticket>, tickets: seq<Ticket>, n: nat)
    requires n < |tickets|
    ensures issued + Drawn(tickets[..n]) + {tickets[n]} == issued + Drawn(tickets[..n + 1])
  {
    assert tickets[..n + 1] == tickets[..n] + [tickets[n]];
  }

  /** A selection of the earlier tickets, and the last one. */
  lemma SnocDistinct(rest: seq<Flight>, fs: seq<Flight>)
    requires fs != [] && Distinct(fs) && Distinct(rest) && forall f :: f in rest ==> f in fs[..|fs| - 1]
    ensures Distinct(rest + [fs[|fs| - 1]])
  {
    var last := fs[|fs| - 1];
    forall i | 0 <= i < |rest| ensures rest[i].packet != last.packet && rest[i].ticket != last.ticket {
      assert rest[i] in rest;
      var j :| 0 <= j < |fs| - 1 && fs[j] == rest[i];
    }
  }

  /** Dropping tickets keeps everything that is known of the others. */
  lemma {:induction false} KeptSound(c: Setup, fs: seq<Flight>, ps: seq<Packet>)
    requires Distinct(fs)
    ensures Distinct(Kept(fs, ps)) && |Kept(fs, ps)| <= |fs|
    decreases |fs|
  {
    if fs != [] {
      var front := fs[..|fs| - 1];
      KeptSound(c, front, ps);
      SnocDistinct(Kept(front, ps), fs);
    }
  }

  lemma {:induction false} WithoutSound(fs: seq<Flight>, ticket: Ticket)
    requires Distinct(fs)
    ensures Distinct(Without(fs, ticket)) && |Without(fs, ticket)| <= |fs|
    decreases |fs|
  {
    if fs != [] {
      var front := fs[..|fs| - 1];
      WithoutSound(front, ticket);
      SnocDistinct(Without(front, ticket), fs);
    }
  }

  /** What a peek returns: packets for that node, from a table that stays valid. */
  lemma PeekedRows(c: Setup, rows: seq<Row>, now: int)
    requires ValidTable(rows)
    ensures forall p :: p in Prefix(c, rows, now) ==> p.to == c.node
    ensures ValidTable(CustodyTable.Peek(rows, c.node, now, c.window).0)
  {
    if ValidTime(now) {
      var u := Expire(rows, now);
      forall r | r in PendingRows(u, c.node) ensures ValidRow(r) && r.to == c.node && r.status.Pending? {
        var i :| 0 <= i < |u| && u[i] == r;
      }
      var found := CustodyTable.Peek(rows, c.node, now, c.window).1;
      forall p | p in Payloads(found) ensures p.to == c.node {
        var j :| 0 <= j < |found| && found[j].payload == Some(p);
        assert found[j] in PendingRows(u, c.node);
      }
    }
  }

  lemma PumpKeeps(c: Setup, l: Link, now: int, open: bool, accepts: nat, tickets: seq<Ticket>)
    requires Inv(c, l) && FreshTickets(c, l.issued, tickets)
    ensures Inv(c, PumpStep(c, l, now, open, accepts, tickets))
  {
    if open && l.current {
      var ps := Prefix(c, l.rows, now);
      PeekedRows(c, l.rows, now);
      KeptSound(c, l.inflight, ps);
      DeliverKeeps(c, Kept(l.inflight, ps), l.issued, l.log, ps, now, accepts, tickets);
      var b := Deliver(c, Kept(l.inflight, ps), ps, now, accepts, tickets);
      assert Drawn(tickets[..|ps|]) <= Drawn(tickets);
      assert AllIssued(b.inflight, l.issued + Drawn(tickets), l.log + b.frames);
    }
  }

  lemma AckedKeeps(c: Setup, l: Link, ticket: Ticket, from: Uuid, msgId: Uuid, digest: Digest, now: int)
    requires Inv(c, l)
    ensures var acked := CustodyTable.Acknowledge(l.rows, c.node, from, msgId, digest, now).0;
            Inv(c, l.(rows := acked)) && Inv(c, l.(rows := acked, inflight := Without(l.inflight, ticket)))
  {
    WithoutSound(l.inflight, ticket);
    assert ValidTable(CustodyTable.Acknowledge(l.rows, c.node, from, msgId, digest, now).0);
  }

  lemma ReceiptKeeps(c: Setup, l: Link, ticket: Ticket, from: Uuid, msgId: Uuid, digest: Digest, now: int,
                     open: bool, accepts: nat, tickets: seq<Ticket>)
    requires Inv(c, l) && FreshTickets(c, l.issued, tickets)
    ensures Inv(c, ReceiptStep(c, l, ticket, from, msgId, digest, now, open, accepts, tickets))
  {
    var (acked, ok) := CustodyTable.Acknowledge(l.rows, c.node, from, msgId, digest, now);
    AckedKeeps(c, l, ticket, from, msgId, digest, now);
    PumpKeeps(c, l.(rows := acked, inflight := Without(l.inflight, ticket)), now, open, accepts, tickets);
  }

  lemma {:induction false} LifeKeeps(c: Setup, ls: seq<Link>, es: seq<Event>, k: nat)
    requires Life(c, ls, es) && k < |ls|
    ensures Inv(c, ls[k])
  {
    if k > 0 {
      LifeKeeps(c, ls, es, k - 1);
      assert Follows(c, ls[k - 1], es[k - 1], ls[k - 1 + 1]);
      match es[k - 1]
      case Pumps(now, open, accepts, tickets) => PumpKeeps(c, ls[k - 1], now, open, accepts, tickets);
      case Receipt(ticket, from, msgId, digest, now, open, accepts, tickets) =>
        ReceiptKeeps(c, ls[k - 1], ticket, from, msgId, digest, now, open, accepts, tickets);
      case Others(_) =>
      case Superseded =>
    }
  }

  // ---- Theorems ----

  /**
   * Over the whole life of a connection, whatever the clock, the socket and the other users of the table do: two
   * frames sent under one ticket carry the same message and are at least the retry interval apart.
   */
  lemma ResendsAreSpaced(c: Setup, ls: seq<Link>, es: seq<Event>, k: nat, a: nat, b: nat)
    requires Life(c, ls, es) && k < |ls| && a < b < |ls[k].log| && ls[k].log[a].ticket == ls[k].log[b].ticket
    ensures ls[k].log[a].packet == ls[k].log[b].packet && ls[k].log[b].at - ls[k].log[a].at >= c.retryMs
  {
    LifeKeeps(c, ls, es, k);
  }

  /** At every moment the tickets in flight fit the window and no two of them name the same message. */
  lemma WindowHolds(c: Setup, ls: seq<Link>, es: seq<Event>, k: nat)
    requires Life(c, ls, es) && k < |ls|
    ensures |ls[k].inflight| <= c.window && Distinct(ls[k].inflight)
    ensures forall f :: f in ls[k].inflight ==> f.packet.to == c.node
  {
    LifeKeeps(c, ls, es, k);
  }

  /** Every ticket names a packet of the list. */
  predicate Named(fs: seq<Flight>, ps: seq<Packet>) {
    forall f :: f in fs ==> f.packet in ps
  }

  /** The packet has a ticket that is not overdue. */
  predicate Served(fs: seq<Flight>, p: Packet, now: int, retryMs: nat) {
    exists f :: f in fs && f.packet == p && f.lastSentAt.Some? && (f.lastSentAt.value == now || !Due(f, now, retryMs))
  }

  /** Distinct members of a list are no more than the list is long. */
  lemma {:induction false} Pigeonhole(fs: seq<Flight>, ps: seq<Packet>)
    requires Distinct(fs) && Named(fs, ps)
    ensures |fs| <= |ps|
    decreases |fs|
  {
    if fs != [] {
      var front, last := fs[..|fs| - 1], fs[|fs| - 1];
      assert last in fs;
      var k :| 0 <= k < |ps| && ps[k] == last.packet;
      var rest := ps[..k] + ps[k + 1..];
      forall f | f in front ensures f.packet in rest {
        var i :| 0 <= i < |front| && front[i] == f;
        assert fs[i] in fs && fs[i].packet != last.packet;
        var j :| 0 <= j < |ps| && ps[j] == f.packet;
        assert if j < k then rest[j] == ps[j] else rest[j - 1] == ps[j];
      }
      Pigeonhole(front, rest);
    }
  }

  /** A pending packet without a ticket always finds room in the window. */
  lemma RoomForMore(c: Setup, fs: seq<Flight>, ps: seq<Packet>, p: Packet, spare: Ticket)
    requires Distinct(fs) && Named(fs, ps) && p in ps && |ps| <= c.window && IndexOf(fs, p) == |fs|
    requires forall f :: f in fs ==> f.ticket != spare
    ensures |fs| < c.window
  {
    IssueKeepsDistinct(fs, set f | f in fs :: f.ticket, spare, p);
    Pigeonhole(fs + [Flight(spare, p, None)], ps);
  }

  /** One visit serves its packet, or stops because the socket refused, and never for want of room. */
  lemma VisitServes(c: Setup, a: Pass, issued: set<Ticket>, ps: seq<Packet>, p: Packet, ticket: Ticket, now: int,
                    accepts: nat)
    requires Distinct(a.inflight) && Named(a.inflight, ps) && p in ps && |ps| <= c.window
    requires ticket !in issued && (forall f :: f in a.inflight ==> f.ticket in issued)
    requires a.stopped ==> |a.frames| == accepts
    ensures var b := Visit(c, a, p, ticket, now, accepts);
            && Named(b.inflight, ps) && (b.stopped ==> |b.frames| == accepts)
            && |a.frames| <= |b.frames| <= |a.frames| + 1
            && (!b.stopped ==> !a.stopped && Served(b.inflight, p, now, c.retryMs))
            && (!b.stopped ==> forall q ::
                Served(a.inflight, q, now, c.retryMs) ==> Served(b.inflight, q, now, c.retryMs))
  {
    var i, b := IndexOf(a.inflight, p), Visit(c, a, p, ticket, now, accepts);
    if i == |a.inflight| {
      RoomForMore(c, a.inflight, ps, p, ticket);
    }
    if !a.stopped {
      var fs := if i < |a.inflight| then a.inflight else a.inflight + [Flight(ticket, p, None)];
      assert fs[i] in fs && fs[i].packet == p && |b.inflight| == |fs|;
      assert b.inflight[i] in b.inflight && b.inflight[i].packet == p;
      forall f | f in b.inflight ensures f.packet in ps {
        var j :| 0 <= j < |b.inflight| && b.inflight[j] == f;
        assert fs[j] in fs;
      }
      forall q | !b.stopped && Served(a.inflight, q, now, c.retryMs) ensures Served(b.inflight, q, now, c.retryMs) {
        var f :| f in a.inflight && f.packet == q && f.lastSentAt.Some? &&
            (f.lastSentAt.value == now || !Due(f, now, c.retryMs));
        var j :| 0 <= j < |a.inflight| && a.inflight[j] == f;
        assert b.inflight[j] in b.inflight && (j != i ==> b.inflight[j] == f);
      }
    }
  }

  /** The ticket for the next packet is one that a pass has not drawn yet. */
  lemma NextIsFresh(c: Setup, fs: seq<Flight>, issued: set<Ticket>, ps: seq<Packet>, now: int, accepts: nat,
                    tickets: seq<Ticket>)
    requires Sound(c, fs) && LogInv(c, fs, issued, []) && |ps| < |tickets| && FreshTickets(c, issued, tickets)
    requires forall p :: p in ps ==> p.to == c.node
    ensures var a := Deliver(c, fs, ps, now, accepts, tickets);
            && Distinct(a.inflight) && (forall f :: f in a.inflight ==> f.ticket in issued + Drawn(tickets[..|ps|]))
            && tickets[|ps|] !in issued + Drawn(tickets[..|ps|])
  {
    DeliverKeeps(c, fs, issued, [], ps, now, accepts, tickets);
  }

  /** The pass has dealt with the first n packets, unless the socket refused. */
  ghost predicate ServesUpTo(c: Setup, b: Pass, ps: seq<Packet>, n: nat, now: int, accepts: nat)
    requires n <= |ps|
  {
    && Named(b.inflight, ps) && |b.frames| <= n && (b.stopped ==> |b.frames| == accepts)
    && (!b.stopped ==> forall k :: 0 <= k < n ==> Served(b.inflight, ps[k], now, c.retryMs))
  }

  lemma VisitServesMore(c: Setup, a: Pass, issued: set<Ticket>, ps: seq<Packet>, n: nat, ticket: Ticket, now: int,
                        accepts: nat)
    requires n < |ps| <= c.window && ServesUpTo(c, a, ps, n, now, accepts) && Distinct(a.inflight)
    requires ticket !in issued && (forall f :: f in a.inflight ==> f.ticket in issued)
    ensures ServesUpTo(c, Visit(c, a, ps[n], ticket, now, accepts), ps, n + 1, now, accepts)
  {
    VisitServes(c, a, issued, ps, ps[n], ticket, now, accepts);
  }

  lemma {:induction false} DeliverServes(c: Setup, fs: seq<Flight>, issued: set<Ticket>, ps: seq<Packet>, n: nat,
                                         now: int,
                                         accepts: nat, tickets: seq<Ticket>)
    requires Sound(c, fs) && LogInv(c, fs, issued, []) && n <= |ps| <= c.window && FreshTickets(c, issued, tickets)
    requires Named(fs, ps) && forall p :: p in ps ==> p.to == c.node
    ensures ServesUpTo(c, Deliver(c, fs, ps[..n], now, accepts, tickets), ps, n, now, accepts)
    decreases n
  {
    if n > 0 {
      DeliverServes(c, fs, issued, ps, n - 1, now, accepts, tickets);
      assert ps[..n][..n - 1] == ps[..n - 1];
      NextIsFresh(c, fs, issued, ps[..n - 1], now, accepts, tickets);
      var a := Deliver(c, fs, ps[..n - 1], now, accepts, tickets);
      VisitServesMore(c, a, issued + Drawn(tickets[..n - 1]), ps, n - 1, tickets[n - 1], now, accepts);
    }
  }

  /**
   * What one pump achieves, at any moment of any life: every ticket names a packet of the pending prefix, and
   * unless the socket refused a frame every packet of the prefix has a ticket that is not overdue.
   */
  lemma PumpServes(c: Setup, ls: seq<Link>, es: seq<Event>, k: nat)
    requires Life(c, ls, es) && k < |es| && es[k].Pumps? && es[k].open && ls[k].current
    ensures var ps, after := Prefix(c, ls[k].rows, es[k].now), ls[k + 1].inflight;
            && Named(after, ps)
            && (c.window <= es[k].accepts ==> forall p :: p in ps ==> Served(after, p, es[k].now, c.retryMs))
  {
    LifeKeeps(c, ls, es, k);
    assert Follows(c, ls[k], es[k], ls[k + 1]);
    var l, now := ls[k], es[k].now;
    var ps := Prefix(c, l.rows, now);
    PeekedRows(c, l.rows, now);
    KeptSound(c, l.inflight, ps);
    DeliverServes(c, Kept(l.inflight, ps), l.issued, ps, |ps|, now, es[k].accepts, es[k].tickets);
    assert ps[..|ps|] == ps;
    var b := Deliver(c, Kept(l.inflight, ps), ps, now, es[k].accepts, es[k].tickets);
    if c.window <= es[k].accepts {
      StoppedShort(c, Kept(l.inflight, ps), ps, now, es[k].accepts, es[k].tickets);
      forall p | p in ps ensures Served(b.inflight, p, now, c.retryMs) {
        var j :| 0 <= j < |ps| && ps[j] == p;
      }
    }
  }

  /** A pass that stops has a packet left over, so it sent fewer frames than there are packets. */
  lemma {:induction false} StoppedShort(c: Setup, fs: seq<Flight>, ps: seq<Packet>, now: int, accepts: nat,
                                        tickets: seq<Ticket>)
    requires |ps| <= |tickets|
    ensures var b := Deliver(c, fs, ps, now, accepts, tickets); |b.frames| <= |ps| && (b.stopped ==> |b.frames| < |ps|)
    decreases |ps|
  {
    if ps != [] {
      StoppedShort(c, fs, ps[..|ps| - 1], now, accepts, tickets);
    }
  }

  /**
   * Only a receipt for a ticket in flight on the current connection, repeating its message, changes the table or
   * the tickets; one that is accepted frees its ticket for good.
   */
  lemma ReceiptFreesTicket(c: Setup, ls: seq<Link>, es: seq<Event>, k: nat)
    requires Life(c, ls, es) && k < |es| && es[k].Receipt?
    ensures var e, l := es[k], ls[k];
            var known := l.current && InFlight(l.inflight, e.ticket, e.from, e.msgId, e.digest, c.node);
            var (acked, ok) := CustodyTable.Acknowledge(l.rows, c.node, e.from, e.msgId, e.digest, e.now);
            && (!known ==> ls[k + 1] == l)
            && (known && !ok ==> ls[k + 1] == l.(rows := acked))
            && (known && ok ==> forall f :: f in ls[k + 1].inflight ==> f.ticket != e.ticket)
  {
    LifeKeeps(c, ls, es, k);
    assert Follows(c, ls[k], es[k], ls[k + 1]);
    var e, l := es[k], ls[k];
    if l.current && InFlight(l.inflight, e.ticket, e.from, e.msgId, e.digest, c.node) && e.open {
      var (acked, ok) := CustodyTable.Acknowledge(l.rows, c.node, e.from, e.msgId, e.digest, e.now);
      var ps, rest := Prefix(c, acked, e.now), Without(l.inflight, e.ticket);
      var i :| 0 <= i < |l.inflight| && l.inflight[i].ticket == e.ticket;
      assert l.inflight[i] in l.inflight && e.ticket in l.issued;
      DeliverDraws(c, Kept(rest, ps), ps, e.now, e.accepts, e.tickets);
    }
  }

  predicate Holding(fs: seq<Flight>, ticket: Ticket) {
    exists f :: f in fs && f.ticket == ticket
  }

  /** The row of this message is the node's, and received, or pending and not expired. */
  predicate Grants(c: Setup, rows: seq<Row>, from: Uuid, msgId: Uuid, digest: Digest, now: int) {
    var r := Lookup(rows, from, msgId);
    && ValidTime(now) && r.Some? && r.value.to == c.node && r.value.digest == digest
    && (r.value.status.Received? || (r.value.status.Pending? && now < r.value.expiresAt))
  }

  /**
   * A receipt that repeats the message of its ticket frees the ticket exactly when the row grants it: always while the
   * row is pending and unexpired, and then the row is received; otherwise every ticket stays in flight.
   */
  lemma ReceiptFreesIff(c: Setup, ls: seq<Link>, es: seq<Event>, k: nat)
    requires Life(c, ls, es) && k < |es| && es[k].Receipt? && ls[k].current
    requires InFlight(ls[k].inflight, es[k].ticket, es[k].from, es[k].msgId, es[k].digest, c.node)
    ensures var e, l, m := es[k], ls[k], ls[k + 1];
            var granted := Grants(c, l.rows, e.from, e.msgId, e.digest, e.now);
            && (Holding(m.inflight, e.ticket) <==> !granted)
            && (granted ==> ReceivedBy(m.rows, c.node, e.from, e.msgId, e.digest))
            && (!granted ==> m.inflight == l.inflight && m.log == l.log)
  {
    ReceiptFreesTicket(c, ls, es, k);
    assert Follows(c, ls[k], es[k], ls[k + 1]);
    var e, l, m := es[k], ls[k], ls[k + 1];
    AcknowledgeNeedsClock(l.rows, c.node, e.from, e.msgId, e.digest, e.now);
    if ValidTime(e.now) {
      AcknowledgeIff(l.rows, c.node, e.from, e.msgId, e.digest, e.now);
    }
    if Grants(c, l.rows, e.from, e.msgId, e.digest, e.now) {
      var acked := CustodyTable.Acknowledge(l.rows, c.node, e.from, e.msgId, e.digest, e.now).0;
      LookupExpire(acked, e.now, e.from, e.msgId);
    } else {
      var i :| 0 <= i < |l.inflight| && l.inflight[i].ticket == e.ticket;
      assert l.inflight[i] in m.inflight;
    }
  }

  /** A pass has the tickets it began with and those it drew. */
  lemma {:induction false} DeliverDraws(c: Setup, fs: seq<Flight>, ps: seq<Packet>, now: int, accepts: nat,
                                        tickets: seq<Ticket>)
    requires |ps| <= |tickets|
    ensures forall g :: g in Deliver(c, fs, ps, now, accepts, tickets).inflight ==>
              g.ticket in Drawn(tickets) || exists f :: f in fs && f.ticket == g.ticket
    decreases |ps|
  {
    if ps != [] {
      var n := |ps| - 1;
      DeliverDraws(c, fs, ps[..n], now, accepts, tickets);
      var a, b := Deliver(c, fs, ps[..n], now, accepts, tickets), Deliver(c, fs, ps, now, accepts, tickets);
      assert tickets[n] in Drawn(tickets);
      forall g | g in b.inflight ensures g.ticket == tickets[n] || exists f :: f in a.inflight && f.ticket == g.ticket {
        var j :| 0 <= j < |b.inflight| && b.inflight[j] == g;
        if j < |a.inflight| {
          assert a.inflight[j] in a.inflight && a.inflight[j].ticket == g.ticket;
        }
      }
    }
  }

  // ---- The code: a connection's tickets updated in place ----

  /** Once stopped, a pass stays as it is. */
  lemma {:induction false} StoppedStays(c: Setup, fs: seq<Flight>, ps: seq<Packet>, k: nat, now: int, accepts: nat,
                                        tickets: seq<Ticket>)
    requires k <= |ps| <= |tickets| && Deliver(c, fs, ps[..k], now, accepts, tickets).stopped
    ensures Deliver(c, fs, ps, now, accepts, tickets) == Deliver(c, fs, ps[..k], now, accepts, tickets)
    decreases |ps|
  {
    if k == |ps| {
      assert ps[..k] == ps;
    } else {
      var front := ps[..|ps| - 1];
      assert front[..k] == ps[..k];
      StoppedStays(c, fs, front, k, now, accepts, tickets);
    }
  }

  /** The tickets of one connection; issued and log are its history, for the specification only. */
  class Connection {
    const store: Store
    const setup: Setup
    var current: bool
    var inflight: seq<Flight>
    ghost var issued: set<Ticket>
    ghost var log: seq<Frame>

    ghost function View(): Link
      reads this, store
    {
      Link(store.rows, current, inflight, issued, log)
    }

    ghost predicate Valid()
      reads this, store
    {
      store.Valid() && Inv(setup, View())
    }

    constructor (store: Store, setup: Setup)
      requires store.Valid()
      ensures Valid() && this.store == store && this.setup == setup && View() == Link(store.rows, true, [], {}, [])
    {
      this.store, this.setup, current, inflight, issued, log := store, setup, true, [], {}, [];
    }

    method Reconcile(ps: seq<Packet>)
      modifies this`inflight
      ensures inflight == Kept(old(inflight), ps)
    {
      var was := inflight;
      var kept: seq<Flight> := [];
      for k := 0 to |was|
        invariant kept == Kept(was[..k], ps)
      {
        assert was[..k + 1][..k] == was[..k];
        if was[k].packet in ps {
          kept := kept + [was[k]];
        }
      }
      assert was[..|was|] == was;
      inflight := kept;
    }

    method Forget(ticket: Ticket)
      modifies this`inflight
      ensures inflight == Without(old(inflight), ticket)
    {
      var was := inflight;
      var rest: seq<Flight> := [];
      for k := 0 to |was|
        invariant rest == Without(was[..k], ticket)
      {
        assert was[..k + 1][..k] == was[..k];
        if was[k].ticket != ticket {
          rest := rest + [was[k]];
        }
      }
      assert was[..|was|] == was;
      inflight := rest;
    }

    method Find(p: Packet) returns (i: nat)
      ensures i == IndexOf(inflight, p)
    {
      i := 0;
      while i < |inflight| && inflight[i].packet != p
        invariant i <= |inflight|
        invariant forall j :: 0 <= j < i ==> inflight[j].packet != p
      {
        i := i + 1;
      }
    }

    /** Issue and (re)send in rowid order until the socket refuses a frame. */
    method DeliverAll(ps: seq<Packet>, now: int, accepts: nat, tickets: seq<Ticket>) returns (frames: seq<Frame>)
      requires |ps| <= |tickets|
      modifies this`inflight
      ensures var b := Deliver(setup, old(inflight), ps, now, accepts, tickets);
              inflight == b.inflight && frames == b.frames
    {
      frames := [];
      ghost var was := inflight;
      for k := 0 to |ps|
        invariant Deliver(setup, was, ps[..k], now, accepts, tickets) == Pass(inflight, frames, false)
      {
        assert ps[..k + 1][..k] == ps[..k];
        ghost var next := Deliver(setup, was, ps[..k + 1], now, accepts, tickets);
        assert next == Visit(setup, Pass(inflight, frames, false), ps[k], tickets[k], now, accepts);
        var i := Find(ps[k]);
        if i == |inflight| {
          if |inflight| >= setup.window {
            StoppedStays(setup, was, ps, k + 1, now, accepts, tickets);
            return;
          }
          inflight := inflight + [Flight(tickets[k], ps[k], None)];
        }
        var f := inflight[i];
        if f.lastSentAt.Some? && now - f.lastSentAt.value < setup.retryMs {
          continue;
        }
        if |frames| == accepts {
          StoppedStays(setup, was, ps, k + 1, now, accepts, tickets);
          return;
        }
        frames := frames + [Frame(f.ticket, f.packet, now)];
        inflight := inflight[i := f.(lastSentAt := Some(now))];
      }
      assert ps[..|ps|] == ps;
    }

    /** Peek, reconcile and deliver. */
    method Work(now: int, accepts: nat, tickets: seq<Ticket>) returns (frames: seq<Frame>)
      requires store.Valid() && |tickets| >= setup.window && current
      modifies this`inflight, this`issued, this`log, store
      ensures store.Valid() && log == old(log) + frames
      ensures View() == PumpStep(setup, old(View()), now, true, accepts, tickets)
    {
      var rows := store.Peek(setup.node, now, setup.window);
      var ps := Payloads(rows);
      Reconcile(ps);
      frames := DeliverAll(ps, now, accepts, tickets);
      issued, log := issued + Drawn(tickets), log + frames;
    }

    /** One pump; `open` is the state of the socket. */
    method Pump(now: int, open: bool, accepts: nat, tickets: seq<Ticket>) returns (frames: seq<Frame>)
      requires Valid() && FreshTickets(setup, issued, tickets)
      modifies this`inflight, this`issued, this`log, store
      ensures Valid() && View() == PumpStep(setup, old(View()), now, open, accepts, tickets) && log == old(log) + frames
    {
      PumpKeeps(setup, View(), now, open, accepts, tickets);
      frames := [];
      if open && current {
        frames := Work(now, accepts, tickets);
      }
    }

    /** The ticket is in flight for this very message; tickets are distinct, so the first one found decides. */
    method Known(ticket: Ticket, from: Uuid, msgId: Uuid, digest: Digest) returns (known: bool)
      requires Distinct(inflight)
      ensures known == InFlight(inflight, ticket, from, msgId, digest, setup.node)
    {
      for i := 0 to |inflight|
        invariant forall j :: 0 <= j < i ==> inflight[j].ticket != ticket
      {
        if inflight[i].ticket == ticket {
          return Matches(inflight[i], from, msgId, digest, setup.node);
        }
      }
      return false;
    }

    /** Only a receipt for a ticket in flight, repeating its message, touches the row; then the pump runs on. */
    method ReceiveReceipt(ticket: Ticket, from: Uuid, msgId: Uuid, digest: Digest, now: int, open: bool, accepts: nat,
                          tickets: seq<Ticket>) returns (frames: seq<Frame>)
      requires Valid() && FreshTickets(setup, issued, tickets)
      modifies this`inflight, this`issued, this`log, store
      ensures Valid() && log == old(log) + frames
      ensures View() == ReceiptStep(setup, old(View()), ticket, from, msgId, digest, now, open, accepts, tickets)
    {
      AckedKeeps(setup, View(), ticket, from, msgId, digest, now);
      var known := Known(ticket, from, msgId, digest);
      if !current || !known {
        return [];
      }
      var done := store.Acknowledge(setup.node, from, msgId, digest, now);
      frames := [];
      if done {
        Forget(ticket);
        frames := Pump(now, open, accepts, tickets);
      }
    }

    /** A newer connection of the node takes over. */
    method Supersede()
      requires Valid()
      modifies this`current, this`inflight
      ensures Valid() && View() == Next(setup, old(View()), Superseded)
    {
      current, inflight := false, [];
    }
  }
}
