/** The gateway's custody table: quotas, lifecycle of a row, and memory of message identities. */
module CustodyTable {
  import opened Core

  /**
   * An encoded envelope. Digests are injective, so a digest is modelled by the packet it is taken of.
   */
  datatype Packet = Packet(from: Uuid, msgId: Uuid, to: Uuid, expires: int, bytes: int, content: nat)

  type Digest = Packet

  datatype Status = Pending | Received | Lapsed

  datatype Row = Row(from: Uuid, msgId: Uuid, to: Uuid, digest: Digest, status: Status,
                     storedAt: int, expiresAt: int, payload: Option<Packet>)

  datatype Limits = Limits(maxEntries: int, maxBytes: int, perNode: int)

  datatype OfferResult = Stored | Full | Conflict | TooLate | Invalid

  const MAX_TRANSPORT_BYTES := 262144
  const MAX_TRANSPORT_LIFETIME_MS := 86400000
  const MAX_TIME := 8640000000000000

  predicate ValidTime(t: int) {
    -MAX_TIME <= t <= MAX_TIME
  }

  /** What the encoder lets through. */
  predicate ValidPacket(p: Packet) {
    0 < p.bytes <= MAX_TRANSPORT_BYTES && ValidTime(p.expires)
  }

  /** The row check made whenever a row is read. */
  predicate ValidRow(r: Row) {
    && ValidTime(r.storedAt) && ValidTime(r.expiresAt)
    && r.storedAt < r.expiresAt && r.expiresAt - r.storedAt <= MAX_TRANSPORT_LIFETIME_MS
    && (r.status.Pending? <==> r.payload.Some?)
    && (r.payload.Some? ==>
          var p := r.payload.value;
          ValidPacket(p) && p == r.digest && p.from == r.from && p.msgId == r.msgId && p.to == r.to &&
              p.expires == r.expiresAt)
  }

  function RowBytes(r: Row): int {
    if r.payload.Some? then r.payload.value.bytes else 0
  }

  function Bytes(t: seq<Row>): int {
    if t == [] then 0 else Bytes(t[..|t| - 1]) + RowBytes(t[|t| - 1])
  }

  function PendingFor(t: seq<Row>, to: Uuid): nat {
    if t == [] then 0
    else PendingFor(t[..|t| - 1], to) + (if t[|t| - 1].to == to && t[|t| - 1].status.Pending? then 1 else 0)
  }

  function Lookup(t: seq<Row>, from: Uuid, msgId: Uuid): Option<Row> {
    if t == [] then None
    else
      var before := Lookup(t[..|t| - 1], from, msgId);
      if before.Some? then before
      else if t[|t| - 1].from == from && t[|t| - 1].msgId == msgId then Some(t[|t| - 1])
      else None
  }

  /** The primary key. */
  predicate Unique(t: seq<Row>) {
    forall i, j :: 0 <= i < j < |t| ==> t[i].from != t[j].from || t[i].msgId != t[j].msgId
  }

  predicate ValidTable(t: seq<Row>) {
    Unique(t) && forall i :: 0 <= i < |t| ==> ValidRow(t[i])
  }

  ghost predicate WithinQuota(t: seq<Row>, q: Limits) {
    |t| <= q.maxEntries && Bytes(t) <= q.maxBytes && forall to :: PendingFor(t, to) <= q.perNode
  }

  // ---- Operations on the table, rows in rowid order ----

  function Finished(r: Row, s: Status): Row {
    r.(status := s, payload := None)
  }

  predicate Doomed(r: Row, now: int) {
    r.status.Pending? && r.expiresAt <= now
  }

  function Expire(t: seq<Row>, now: int): (u: seq<Row>)
    ensures |u| == |t|
    ensures forall i :: 0 <= i < |t| ==> u[i] == if Doomed(t[i], now) then Finished(t[i], Lapsed) else t[i]
  {
    if t == [] then []
    else
      var last := t[|t| - 1];
      Expire(t[..|t| - 1], now) + [if Doomed(last, now) then Finished(last, Lapsed) else last]
  }

  /** The row with this key ends in state s. */
  function Finish(t: seq<Row>, from: Uuid, msgId: Uuid, s: Status): (u: seq<Row>)
    ensures |u| == |t|
    ensures forall i :: 0 <= i < |t| ==>
              u[i] == if t[i].from == from && t[i].msgId == msgId then Finished(t[i], s) else t[i]
  {
    if t == [] then []
    else
      var last := t[|t| - 1];
      Finish(t[..|t| - 1], from, msgId, s) +
      [if last.from == from && last.msgId == msgId then Finished(last, s) else last]
  }

  predicate Dead(r: Row, cutoff: int) {
    !r.status.Pending? && r.storedAt <= cutoff
  }

  function Prune(t: seq<Row>, cutoff: int): (u: seq<Row>)
    ensures |u| <= |t|
    ensures forall r :: r in u <==> r in t && !Dead(r, cutoff)
  {
    if t == [] then []
    else
      var last, rest := t[|t| - 1], Prune(t[..|t| - 1], cutoff);
      assert t == t[..|t| - 1] + [last];
      if Dead(last, cutoff) then rest else rest + [last]
  }

  function NewRow(p: Packet, now: int): Row {
    Row(p.from, p.msgId, p.to, p, Pending, now, p.expires, Some(p))
  }

  function Offer(t: seq<Row>, p: Packet, now: int, q: Limits): (seq<Row>, OfferResult) {
    if !ValidPacket(p) || !ValidTime(now) then (t, Invalid)
    else
      var prior := Lookup(t, p.from, p.msgId);
      if prior.Some? then (t, if prior.value.digest == p then Stored else Conflict)
      else if now >= p.expires then (t, TooLate)
      else if p.expires - now > MAX_TRANSPORT_LIFETIME_MS then (t, Invalid)
      else
        var u := Expire(t, now);
        if |u| >= q.maxEntries || p.bytes > q.maxBytes - Bytes(u) || PendingFor(u, p.to) >= q.perNode then (u, Full)
        else (u + [NewRow(p, now)], Stored)
  }

  /** The first rows still pending for a node, in rowid order. */
  function PendingRows(t: seq<Row>, to: Uuid): (u: seq<Row>)
    ensures forall r :: r in u <==> r in t && r.to == to && r.status.Pending?
  {
    if t == [] then []
    else
      var last, rest := t[|t| - 1], PendingRows(t[..|t| - 1], to);
      assert t == t[..|t| - 1] + [last];
      if last.to == to && last.status.Pending? then rest + [last] else rest
  }

  function Peek(t: seq<Row>, to: Uuid, now: int, limit: int): (seq<Row>, seq<Row>) {
    if !ValidTime(now) || limit < 0 then (t, [])
    else
      var u := Expire(t, now);
      var rows := PendingRows(u, to);
      (u, rows[..Min(limit, |rows|)])
  }

  function Acknowledge(t: seq<Row>, to: Uuid, from: Uuid, msgId: Uuid, digest: Digest, now: int): (seq<Row>, bool) {
    if !ValidTime(now) then (t, false)
    else
      var row := Lookup(t, from, msgId);
      if row.None? || row.value.to != to || row.value.digest != digest || row.value.status.Lapsed? then (t, false)
      else if row.value.status.Received? then (t, true)
      else if now >= row.value.expiresAt then (Finish(t, from, msgId, Lapsed), false)
      else (Finish(t, from, msgId, Received), true)
  }

  function Collect(t: seq<Row>, now: int, retention: Option<nat>): seq<Row> {
    if retention.None? || !ValidTime(now) then t else Prune(t, now - retention.value)
  }

  // ---- Lookup through each operation ----

  lemma {:induction false} LookupIn(t: seq<Row>, from: Uuid, msgId: Uuid)
    requires Unique(t)
    ensures Lookup(t, from, msgId).Some? ==>
              Lookup(t, from, msgId).value in t && Lookup(t, from, msgId).value.from == from &&
                  Lookup(t, from, msgId).value.msgId == msgId
    ensures forall r :: r in t && r.from == from && r.msgId == msgId ==> Lookup(t, from, msgId) == Some(r)
    decreases |t|
  {
    if t != [] {
      var front, last := t[..|t| - 1], t[|t| - 1];
      assert t == front + [last];
      LookupIn(front, from, msgId);
    }
  }

  lemma {:induction false} LookupExpire(t: seq<Row>, now: int, from: Uuid, msgId: Uuid)
    ensures Lookup(Expire(t, now), from, msgId) ==
            match Lookup(t, from, msgId) case None => None
            case Some(r) => Some(if Doomed(r, now) then Finished(r, Lapsed) else r)
    decreases |t|
  {
    if t != [] {
      var u := Expire(t, now);
      assert u[..|u| - 1] == Expire(t[..|t| - 1], now);
      LookupExpire(t[..|t| - 1], now, from, msgId);
    }
  }

  lemma {:induction false} LookupFinish(t: seq<Row>, f: Uuid, m: Uuid, s: Status, from: Uuid, msgId: Uuid)
    ensures Lookup(Finish(t, f, m, s), from, msgId) ==
            match Lookup(t, from, msgId) case None => None
            case Some(r) => Some(if from == f && msgId == m then Finished(r, s) else r)
    decreases |t|
  {
    if t != [] {
      var u := Finish(t, f, m, s);
      assert u[..|u| - 1] == Finish(t[..|t| - 1], f, m, s);
      LookupFinish(t[..|t| - 1], f, m, s, from, msgId);
    }
  }

  lemma {:induction false} LookupAppend(t: seq<Row>, r: Row, from: Uuid, msgId: Uuid)
    ensures Lookup(t + [r], from, msgId) ==
            if Lookup(t, from, msgId).Some? then Lookup(t, from, msgId)
            else if r.from == from && r.msgId == msgId then Some(r) else None
  {
    assert (t + [r])[..|t|] == t;
  }

  lemma {:induction false} PruneUnique(t: seq<Row>, cutoff: int)
    requires Unique(t)
    ensures Unique(Prune(t, cutoff))
    decreases |t|
  {
    if t != [] {
      var front, last := t[..|t| - 1], t[|t| - 1];
      PruneUnique(front, cutoff);
      forall r | r in Prune(front, cutoff) ensures r.from != last.from || r.msgId != last.msgId {
        assert r in front;
        var i :| 0 <= i < |front| && front[i] == r;
        assert t[i] == r;
      }
    }
  }

  lemma {:induction false} LookupPrune(t: seq<Row>, cutoff: int, from: Uuid, msgId: Uuid)
    requires Unique(t)
    ensures Lookup(Prune(t, cutoff), from, msgId) ==
            match Lookup(t, from, msgId) case None => None
            case Some(r) => if Dead(r, cutoff) then None else Some(r)
  {
    PruneUnique(t, cutoff);
    LookupIn(t, from, msgId);
    LookupIn(Prune(t, cutoff), from, msgId);
  }

  // ---- Counters through each operation ----

  lemma {:induction false} ExpireCounts(t: seq<Row>, now: int, to: Uuid)
    requires forall i :: 0 <= i < |t| ==> ValidRow(t[i])
    ensures Bytes(Expire(t, now)) <= Bytes(t) && PendingFor(Expire(t, now), to) <= PendingFor(t, to)
    decreases |t|
  {
    if t != [] {
      var u := Expire(t, now);
      assert u[..|u| - 1] == Expire(t[..|t| - 1], now);
      ExpireCounts(t[..|t| - 1], now, to);
    }
  }

  lemma {:induction false} FinishCounts(t: seq<Row>, from: Uuid, msgId: Uuid, s: Status, to: Uuid)
    requires !s.Pending? && forall i :: 0 <= i < |t| ==> ValidRow(t[i])
    ensures Bytes(Finish(t, from, msgId, s)) <= Bytes(t)
    ensures PendingFor(Finish(t, from, msgId, s), to) <= PendingFor(t, to)
    decreases |t|
  {
    if t != [] {
      var u := Finish(t, from, msgId, s);
      assert u[..|u| - 1] == Finish(t[..|t| - 1], from, msgId, s);
      FinishCounts(t[..|t| - 1], from, msgId, s, to);
    }
  }

  /** Collection frees no pending byte and no pending place: terminal rows hold none. */
  lemma {:induction false} PruneCounts(t: seq<Row>, cutoff: int, to: Uuid)
    requires forall i :: 0 <= i < |t| ==> ValidRow(t[i])
    ensures Bytes(Prune(t, cutoff)) == Bytes(t) && PendingFor(Prune(t, cutoff), to) == PendingFor(t, to)
    decreases |t|
  {
    if t != [] {
      var rest, last := Prune(t[..|t| - 1], cutoff), t[|t| - 1];
      assert (rest + [last])[..|rest|] == rest;
      PruneCounts(t[..|t| - 1], cutoff, to);
    }
  }

  lemma {:induction false} AppendCounts(t: seq<Row>, r: Row, to: Uuid)
    ensures Bytes(t + [r]) == Bytes(t) + RowBytes(r)
    ensures PendingFor(t + [r], to) == PendingFor(t, to) + (if r.to == to && r.status.Pending? then 1 else 0)
  {
    assert (t + [r])[..|t|] == t;
  }

  // ---- Every operation keeps the table valid and within quota ----

  lemma {:induction false} ExpireKeeps(t: seq<Row>, now: int, q: Limits)
    requires ValidTable(t)
    ensures ValidTable(Expire(t, now))
    ensures WithinQuota(t, q) ==> WithinQuota(Expire(t, now), q)
  {
    ExpireCounts(t, now, 0);
    forall to ensures PendingFor(Expire(t, now), to) <= PendingFor(t, to) {
      ExpireCounts(t, now, to);
    }
  }

  /** One more row, when the counters leave room for it. */
  lemma {:induction false} AppendKeeps(u: seq<Row>, r: Row, q: Limits)
    requires ValidTable(u) && WithinQuota(u, q) && ValidRow(r) && Lookup(u, r.from, r.msgId).None?
    requires |u| < q.maxEntries && RowBytes(r) <= q.maxBytes - Bytes(u) && PendingFor(u, r.to) < q.perNode
    ensures ValidTable(u + [r]) && WithinQuota(u + [r], q)
  {
    LookupIn(u, r.from, r.msgId);
    AppendCounts(u, r, 0);
    forall to ensures PendingFor(u + [r], to) <= q.perNode {
      AppendCounts(u, r, to);
    }
  }

  lemma {:induction false} OfferKeeps(t: seq<Row>, p: Packet, now: int, q: Limits)
    requires ValidTable(t) && WithinQuota(t, q)
    ensures ValidTable(Offer(t, p, now, q).0) && WithinQuota(Offer(t, p, now, q).0, q)
  {
    ExpireKeeps(t, now, q);
    var u := Expire(t, now);
    if Offer(t, p, now, q).1.Stored? && Lookup(t, p.from, p.msgId).None? {
      LookupExpire(t, now, p.from, p.msgId);
      AppendKeeps(u, NewRow(p, now), q);
    }
  }

  lemma {:induction false} FinishKeeps(t: seq<Row>, from: Uuid, msgId: Uuid, s: Status, q: Limits)
    requires ValidTable(t) && WithinQuota(t, q) && !s.Pending?
    ensures ValidTable(Finish(t, from, msgId, s)) && WithinQuota(Finish(t, from, msgId, s), q)
  {
    var u := Finish(t, from, msgId, s);
    FinishCounts(t, from, msgId, s, 0);
    forall to ensures PendingFor(u, to) <= PendingFor(t, to) {
      FinishCounts(t, from, msgId, s, to);
    }
  }

  lemma {:induction false} PruneKeeps(t: seq<Row>, cutoff: int, q: Limits)
    requires ValidTable(t) && WithinQuota(t, q)
    ensures ValidTable(Prune(t, cutoff)) && WithinQuota(Prune(t, cutoff), q)
  {
    PruneUnique(t, cutoff);
    var u := Prune(t, cutoff);
    PruneCounts(t, cutoff, 0);
    forall to ensures PendingFor(u, to) == PendingFor(t, to) {
      PruneCounts(t, cutoff, to);
    }
    forall i | 0 <= i < |u| ensures ValidRow(u[i]) {
      assert u[i] in t;
    }
  }

  // ---- Runs of the table ----

  datatype Op =
    | OfferOp(p: Packet, now: int)
    | PeekOp(to: Uuid, now: int, limit: int)
    | AckOp(to: Uuid, from: Uuid, msgId: Uuid, digest: Digest, now: int)
    | PruneOp(now: int)

  datatype Config = Config(limits: Limits, retention: Option<nat>)

  function Do(c: Config, t: seq<Row>, op: Op): seq<Row> {
    match op
    case OfferOp(p, now) => Offer(t, p, now, c.limits).0
    case PeekOp(to, now, limit) => Peek(t, to, now, limit).0
    case AckOp(to, from, msgId, digest, now) => Acknowledge(t, to, from, msgId, digest, now).0
    case PruneOp(now) => Collect(t, now, c.retention)
  }

  function Run(c: Config, t: seq<Row>, ops: seq<Op>): seq<Row> {
    if ops == [] then t else Do(c, Run(c, t, ops[..|ops| - 1]), ops[|ops| - 1])
  }

  lemma {:induction false} DoKeeps(c: Config, t: seq<Row>, op: Op)
    requires ValidTable(t) && WithinQuota(t, c.limits)
    ensures ValidTable(Do(c, t, op)) && WithinQuota(Do(c, t, op), c.limits)
  {
    match op
    case OfferOp(p, now) => OfferKeeps(t, p, now, c.limits);
    case PeekOp(to, now, limit) => ExpireKeeps(t, now, c.limits);
    case AckOp(to, from, msgId, digest, now) =>
      FinishKeeps(t, from, msgId, Lapsed, c.limits);
      FinishKeeps(t, from, msgId, Received, c.limits);
    case PruneOp(now) =>
      if c.retention.Some? {
        PruneKeeps(t, now - c.retention.value, c.limits);
      }
  }

  lemma {:induction false} QuotaForever(c: Config, t: seq<Row>, ops: seq<Op>)
    requires ValidTable(t) && WithinQuota(t, c.limits)
    ensures ValidTable(Run(c, t, ops)) && WithinQuota(Run(c, t, ops), c.limits)
    decreases |ops|
  {
    if ops != [] {
      QuotaForever(c, t, ops[..|ops| - 1]);
      DoKeeps(c, Run(c, t, ops[..|ops| - 1]), ops[|ops| - 1]);
    }
  }

  /** The only ways a row changes. */
  predicate RowStep(r: Row, s: Row, op: Op) {
    || s == r
    || (r.status.Pending? && op.now >= r.expiresAt && s == Finished(r, Lapsed))
    || (r.status.Pending? && op.AckOp? && op.now < r.expiresAt && op.from == r.from && op.msgId == r.msgId
        && op.to == r.to && op.digest == r.digest && s == Finished(r, Received))
  }

  /** How one key fares in one operation: from `a` to `b`. */
  predicate KeyMoves(c: Config, op: Op, from: Uuid, msgId: Uuid, a: Option<Row>, b: Option<Row>) {
    if a.None? then
      b.Some? ==> op.OfferOp? && op.p.from == from && op.p.msgId == msgId && ValidPacket(op.p)
                  && op.now < op.p.expires && b.value == NewRow(op.p, op.now)
    else if b.None? then
      op.PruneOp? && c.retention.Some? && Dead(a.value, op.now - c.retention.value)
    else RowStep(a.value, b.value, op)
  }

  lemma {:induction false} KeyOffer(c: Config, t: seq<Row>, p: Packet, now: int, from: Uuid, msgId: Uuid)
    ensures KeyMoves(c, OfferOp(p, now), from, msgId, Lookup(t, from, msgId),
            Lookup(Offer(t, p, now, c.limits).0, from, msgId))
  {
    LookupExpire(t, now, from, msgId);
    LookupAppend(Expire(t, now), NewRow(p, now), from, msgId);
  }

  /** Ending the row of one key leaves every other key alone. */
  lemma {:induction false} KeyFinish(c: Config, t: seq<Row>, op: Op, s: Status, from: Uuid, msgId: Uuid)
    requires op.AckOp? && Lookup(t, op.from, op.msgId).Some?
    requires RowStep(Lookup(t, op.from, op.msgId).value, Finished(Lookup(t, op.from, op.msgId).value, s), op)
    ensures KeyMoves(c, op, from, msgId, Lookup(t, from, msgId), Lookup(Finish(t, op.from, op.msgId, s), from, msgId))
  {
    LookupFinish(t, op.from, op.msgId, s, from, msgId);
  }

  lemma {:induction false} KeyAck(c: Config, t: seq<Row>, op: Op, from: Uuid, msgId: Uuid)
    requires Unique(t) && op.AckOp?
    ensures KeyMoves(c, op, from, msgId, Lookup(t, from, msgId), Lookup(Do(c, t, op), from, msgId))
  {
    LookupIn(t, op.from, op.msgId);
    var row := Lookup(t, op.from, op.msgId);
    if ValidTime(op.now) && row.Some? && row.value.to == op.to && row.value.digest == op.digest &&
        row.value.status.Pending? {
      KeyFinish(c, t, op, if op.now >= row.value.expiresAt then Lapsed else Received, from, msgId);
    } else {
      assert Do(c, t, op) == t;
    }
  }

  lemma {:induction false} KeyStep(c: Config, t: seq<Row>, op: Op, from: Uuid, msgId: Uuid)
    requires Unique(t)
    ensures KeyMoves(c, op, from, msgId, Lookup(t, from, msgId), Lookup(Do(c, t, op), from, msgId))
  {
    match op
    case OfferOp(p, now) => KeyOffer(c, t, p, now, from, msgId);
    case PeekOp(to, now, limit) => LookupExpire(t, now, from, msgId);
    case AckOp(_, _, _, _, _) => KeyAck(c, t, op, from, msgId);
    case PruneOp(now) =>
      if c.retention.Some? {
        LookupPrune(t, now - c.retention.value, from, msgId);
      }
  }

  /**
   * A pending row is never dropped: after any run it is still pending with its payload, or an acknowledgement
   * by its recipient with its digest and before its expiry ended it, or an operation at or after its expiry did.
   */
  lemma {:induction false} PendingNeverLost(c: Config, t: seq<Row>, ops: seq<Op>, from: Uuid, msgId: Uuid)
    requires ValidTable(t) && WithinQuota(t, c.limits)
    requires Lookup(t, from, msgId).Some? && Lookup(t, from, msgId).value.status.Pending?
    ensures var r, now := Lookup(t, from, msgId).value, Lookup(Run(c, t, ops), from, msgId);
            || now == Some(r)
            || Acknowledged(r, ops)
            || (exists i :: 0 <= i < |ops| && ops[i].now >= r.expiresAt)
    decreases |ops|
  {
    if ops != [] {
      var front, last := ops[..|ops| - 1], ops[|ops| - 1];
      PendingNeverLost(c, t, front, from, msgId);
      QuotaForever(c, t, front);
      LookupIn(t, from, msgId);
      var r := Lookup(t, from, msgId).value;
      if Lookup(Run(c, t, front), from, msgId) == Some(r) {
        KeyStep(c, Run(c, t, front), last, from, msgId);
        assert ops[|ops| - 1] == last;
      } else if Acknowledged(r, front) {
        var i :| 0 <= i < |front| && Acks(front[i], r);
        assert ops[i] == front[i];
      } else {
        var i :| 0 <= i < |front| && front[i].now >= r.expiresAt;
        assert ops[i] == front[i];
      }
    }
  }

  predicate Acks(op: Op, r: Row) {
    op.AckOp? && op.from == r.from && op.msgId == r.msgId && op.to == r.to && op.digest == r.digest &&
        op.now < r.expiresAt
  }

  ghost predicate Acknowledged(r: Row, ops: seq<Op>) {
    exists i :: 0 <= i < |ops| && Acks(ops[i], r)
  }

  /** Without collection, an identity is bound to its digest for good and a second offer changes nothing. */
  lemma {:induction false} IdentityForever(c: Config, t: seq<Row>, ops: seq<Op>, p: Packet, now: int)
    requires ValidTable(t) && WithinQuota(t, c.limits)
    requires Lookup(t, p.from, p.msgId).Some? && ValidPacket(p) && ValidTime(now)
    requires forall i :: 0 <= i < |ops| ==> !ops[i].PruneOp?
    ensures var u := Run(c, t, ops);
            && Lookup(u, p.from, p.msgId).Some?
            && Lookup(u, p.from, p.msgId).value.digest == Lookup(t, p.from, p.msgId).value.digest
            && Offer(u, p, now, c.limits) ==
                (u, if Lookup(t, p.from, p.msgId).value.digest == p then Stored else Conflict)
    decreases |ops|
  {
    if ops != [] {
      var front := ops[..|ops| - 1];
      IdentityForever(c, t, front, p, now);
      QuotaForever(c, t, front);
      KeyStep(c, Run(c, t, front), ops[|ops| - 1], p.from, p.msgId);
    }
  }

  /** Collection forgets: a collected identity can be bound to different content. */
  lemma {:induction false} CollectionForgets(p: Packet, other: Packet, q: Limits, now: int)
    requires ValidPacket(p) && ValidPacket(other) && p.from == other.from && p.msgId == other.msgId && p != other
    requires q.maxEntries >= 1 && other.bytes <= q.maxBytes && q.perNode >= 1
    requires ValidTime(p.expires - 1) && ValidTime(now) &&
             p.expires <= now < other.expires <= now + MAX_TRANSPORT_LIFETIME_MS
    ensures var t := [Finished(NewRow(p, p.expires - 1), Lapsed)];
            && ValidTable(t) && Offer(t, other, now, q).1 == Conflict
            && Offer(Collect(t, now, Some(0)), other, now, q).1 == Stored
  {
    var t := [Finished(NewRow(p, p.expires - 1), Lapsed)];
    assert Lookup(t[..0], other.from, other.msgId) == None;
    assert t[..|t| - 1] == t[..0] == [];
    assert Prune(t, now) == [];
    assert Expire([], now) == [];
  }

  // ---- What each operation answers ----

  /** The row is received, by that recipient and with that digest. */
  predicate ReceivedBy(t: seq<Row>, to: Uuid, from: Uuid, msgId: Uuid, digest: Digest) {
    var r := Lookup(t, from, msgId);
    r.Some? && r.value.to == to && r.value.digest == digest && r.value.status.Received?
  }

  /**
   * A receipt is granted exactly when the row is received afterwards: because it was, or because it was pending, is
   * the recipient's, has that digest and has not expired. Expired, it lapses; else nothing changes.
   */
  lemma {:induction false} AcknowledgeIff(t: seq<Row>, to: Uuid, from: Uuid, msgId: Uuid, digest: Digest, now: int)
    requires ValidTime(now)
    ensures var (u, ok) := Acknowledge(t, to, from, msgId, digest, now);
            var row := Lookup(t, from, msgId);
            var mine := row.Some? && row.value.to == to && row.value.digest == digest;
            && (ok <==> ReceivedBy(u, to, from, msgId, digest))
            && (ok <==>
                  mine && (row.value.status.Received? || (row.value.status.Pending? && now < row.value.expiresAt)))
            && (mine && row.value.status.Pending? ==>
                  var s := if now < row.value.expiresAt then Received else Lapsed;
                  Lookup(u, from, msgId) == Some(Finished(row.value, s)))
            && (!(mine && row.value.status.Pending?) ==> u == t)
  {
    LookupFinish(t, from, msgId, Received, from, msgId);
    LookupFinish(t, from, msgId, Lapsed, from, msgId);
  }

  /** On an invalid clock nothing is granted and nothing changes. */
  lemma {:induction false} AcknowledgeNeedsClock(t: seq<Row>, to: Uuid, from: Uuid, msgId: Uuid, digest: Digest,
                                                 now: int)
    ensures !ValidTime(now) ==> Acknowledge(t, to, from, msgId, digest, now) == (t, false)
  {
  }

  /** A pending row that has not expired. */
  predicate PendingRow(t: seq<Row>, p: Packet, now: int) {
    var r := Lookup(t, p.from, p.msgId);
    r.Some? && r.value.to == p.to && r.value.digest == p && r.value.status.Pending? && now < r.value.expiresAt
  }

  /** The recipient's own timely receipt of a pending row is always granted, and ends it as received. */
  lemma {:induction false} AckReceives(t: seq<Row>, p: Packet, now: int)
    requires ValidTime(now) && PendingRow(t, p, now)
    ensures var (u, ok) := Acknowledge(t, p.to, p.from, p.msgId, p, now); ok && ReceivedBy(u, p.to, p.from, p.msgId, p)
  {
    AcknowledgeIff(t, p.to, p.from, p.msgId, p, now);
  }

  /** Room for one more row once the expired ones have lapsed. */
  predicate Room(t: seq<Row>, p: Packet, now: int, q: Limits) {
    var u := Expire(t, now);
    |u| < q.maxEntries && p.bytes <= q.maxBytes - Bytes(u) && PendingFor(u, p.to) < q.perNode
  }

  /**
   * An offer is stored exactly when its row is there afterwards with its digest: known with that digest, or new, in
   * time and with room, and then pending with its payload. A known identity is never rebound.
   */
  lemma {:induction false} OfferIff(t: seq<Row>, p: Packet, now: int, q: Limits)
    requires ValidPacket(p) && ValidTime(now)
    ensures var (u, r) := Offer(t, p, now, q);
            var prior := Lookup(t, p.from, p.msgId);
            var unknown := prior.None? && now < p.expires <= now + MAX_TRANSPORT_LIFETIME_MS;
            && (r.Stored? <==> (prior.Some? && prior.value.digest == p) || (unknown && Room(t, p, now, q)))
            && (r.Conflict? <==> prior.Some? && prior.value.digest != p)
            && (r.TooLate? <==> prior.None? && now >= p.expires)
            && (r.Full? <==> unknown && !Room(t, p, now, q))
            && (r.Stored? && prior.None? ==> Lookup(u, p.from, p.msgId) == Some(NewRow(p, now)))
            && (prior.Some? ==> u == t)
  {
    LookupExpire(t, now, p.from, p.msgId);
    LookupAppend(Expire(t, now), NewRow(p, now), p.from, p.msgId);
  }

  lemma {:induction false} PendingRowsLength(t: seq<Row>, to: Uuid)
    ensures |PendingRows(t, to)| <= |t|
    decreases |t|
  {
    if t != [] {
      PendingRowsLength(t[..|t| - 1], to);
    }
  }

  /** A peek as wide as the table shows every pending row of the node that has not expired. */
  lemma {:induction false} PeekShows(t: seq<Row>, to: Uuid, now: int, limit: int, r: Row)
    requires ValidTime(now) && limit >= |t| && r in t && r.to == to && r.status.Pending? && now < r.expiresAt
    ensures var rows := Peek(t, to, now, limit).1; exists i :: 0 <= i < |rows| && rows[i] == r
  {
    var u := Expire(t, now);
    var k :| 0 <= k < |t| && t[k] == r;
    assert u[k] == r && r in u;
    PendingRowsLength(u, to);
    assert r in PendingRows(u, to);
  }

  /** It never shows another node's row, one that ended, or one whose expiry has come; those have lapsed by then. */
  lemma {:induction false} PeekShowsOnly(t: seq<Row>, to: Uuid, now: int, limit: int)
    requires ValidTime(now)
    ensures var (u, rows) := Peek(t, to, now, limit);
            && (forall r :: r in rows ==> r in t && r.to == to && r.status.Pending? && now < r.expiresAt)
            && (limit >= 0 ==> forall r :: r in u && r.status.Pending? ==> now < r.expiresAt)
  {
    if limit >= 0 {
      var u := Expire(t, now);
      forall r | r in u && r.status.Pending? ensures r in t && now < r.expiresAt {
        var i :| 0 <= i < |u| && u[i] == r;
        assert u[i] == t[i];
      }
    }
  }

  /** A node's pending rows are shown in rowid order. */
  lemma {:induction false} PeekInOrder(t: seq<Row>, to: Uuid, i: nat, j: nat)
    requires Unique(t) && i < j < |PendingRows(t, to)|
    ensures exists a, b :: 0 <= a < b < |t| && t[a] == PendingRows(t, to)[i] && t[b] == PendingRows(t, to)[j]
    decreases |t|
  {
    var front, last := t[..|t| - 1], t[|t| - 1];
    assert t == front + [last];
    var rest := PendingRows(front, to);
    if j < |rest| {
      PeekInOrder(front, to, i, j);
      var a, b :| 0 <= a < b < |front| && front[a] == rest[i] && front[b] == rest[j];
      assert t[a] == front[a] && t[b] == front[b];
    } else {
      assert rest[i] in rest;
      var a :| 0 <= a < |front| && front[a] == rest[i];
      assert t[a] == front[a] && t[|t| - 1] == last;
    }
  }
}
