/**
 * Connection ownership claims with monotone fencing tokens: the in-memory registry, the SQL store, and
 * when the second refines the first.
 */
module Claims {
  import opened Core

  type Authority = string

  datatype Claim = Claim(node: Uuid, authority: Authority, generation: int, leaseExpiresAt: int)

  const MAX_TIME := 8640000000000000

  predicate ValidTime(t: int) {
    -MAX_TIME <= t <= MAX_TIME
  }

  datatype Op =
    | ClaimOp(node: Uuid, authority: Authority, now: int)
    | LookupOp(node: Uuid)
    | ReleaseOp(node: Uuid, authority: Authority, generation: int)
    | RenewOp(node: Uuid, authority: Authority, generation: int, now: int)
    | ReapOp(now: int)

  datatype Answer = Granted(claim: Claim) | Found(current: Option<Claim>) | Said(ok: bool) | Reaped(nodes: seq<Uuid>)

  // ---- The in-memory registry: an insertion-ordered map and the high-water marks ----

  datatype Local = Local(claims: seq<Claim>, highWater: map<Uuid, int>)

  function High(l: Local, node: Uuid): int {
    if node in l.highWater then l.highWater[node] else 0
  }

  function IndexOf(cs: seq<Claim>, node: Uuid): (i: nat)
    ensures i <= |cs|
    ensures i < |cs| ==> cs[i].node == node
    ensures forall k :: 0 <= k < i ==> cs[k].node != node
  {
    if cs == [] then 0
    else
      var front := cs[..|cs| - 1];
      var i := IndexOf(front, node);
      assert forall k :: 0 <= k < |front| ==> cs[k] == front[k];
      if i < |front| then i
      else if cs[|cs| - 1].node == node then |cs| - 1
      else |cs|
  }

  function Get(cs: seq<Claim>, node: Uuid): Option<Claim> {
    var i := IndexOf(cs, node);
    if i < |cs| then Some(cs[i]) else None
  }

  /** Setting a present key keeps its place; a new key goes last. */
  function Put(cs: seq<Claim>, c: Claim): seq<Claim> {
    var i := IndexOf(cs, c.node);
    if i < |cs| then cs[i := c] else cs + [c]
  }

  function Remove(cs: seq<Claim>, node: Uuid): seq<Claim> {
    var i := IndexOf(cs, node);
    if i < |cs| then cs[..i] + cs[i + 1..] else cs
  }

  function Expired(cs: seq<Claim>, now: int): seq<Uuid> {
    if cs == [] then []
    else
      var front, last := cs[..|cs| - 1], cs[|cs| - 1];
      Expired(front, now) + (if last.leaseExpiresAt <= now then [last.node] else [])
  }

  function Kept(cs: seq<Claim>, now: int): seq<Claim> {
    if cs == [] then []
    else
      var front, last := cs[..|cs| - 1], cs[|cs| - 1];
      Kept(front, now) + (if last.leaseExpiresAt <= now then [] else [last])
  }

  predicate Holds(current: Option<Claim>, authority: Authority, generation: int) {
    current.Some? && current.value.authority == authority && current.value.generation == generation
  }

  function LocalDo(l: Local, op: Op, ttl: nat): (Local, Answer) {
    match op
    case ClaimOp(node, authority, now) =>
      var c := Claim(node, authority, High(l, node) + 1, now + ttl);
      (Local(Put(l.claims, c), l.highWater[node := c.generation]), Granted(c))
    case LookupOp(node) => (l, Found(Get(l.claims, node)))
    case ReleaseOp(node, authority, generation) =>
      if Holds(Get(l.claims, node), authority, generation) then (l.(claims := Remove(l.claims, node)), Said(true))
      else (l, Said(false))
    case RenewOp(node, authority, generation, now) =>
      if Holds(Get(l.claims, node), authority, generation)
      then (l.(claims := Put(l.claims, Get(l.claims, node).value.(leaseExpiresAt := now + ttl))), Said(true))
      else (l, Said(false))
    case ReapOp(now) => (l.(claims := Kept(l.claims, now)), Reaped(Expired(l.claims, now)))
  }

  // ---- The SQL store: rows in rowid order and the sequence table ----

  datatype Row = Row(claim: Claim, claimedAt: int)

  datatype Sql = Sql(rows: seq<Row>, seqs: map<Uuid, int>)

  function Proj(rows: seq<Row>): (cs: seq<Claim>)
    ensures |cs| == |rows| && forall i :: 0 <= i < |rows| ==> cs[i] == rows[i].claim
  {
    seq(|rows|, i requires 0 <= i < |rows| => rows[i].claim)
  }

  /** The row check made on every read. */
  predicate Loads(r: Row) {
    && r.claim.authority != "" && Positive(r.claim.generation) && ValidTime(r.claimedAt)
    && ValidTime(r.claim.leaseExpiresAt) && r.claim.leaseExpiresAt >= r.claimedAt
  }

  function Upsert(rows: seq<Row>, r: Row): seq<Row> {
    var i := IndexOf(Proj(rows), r.claim.node);
    if i < |rows| then rows[i := r] else rows + [r]
  }

  function ExpiredRows(rows: seq<Row>, now: int): seq<Row> {
    if rows == [] then []
    else
      var front, last := rows[..|rows| - 1], rows[|rows| - 1];
      ExpiredRows(front, now) + (if last.claim.leaseExpiresAt <= now then [last] else [])
  }

  function KeptRows(rows: seq<Row>, now: int): seq<Row> {
    if rows == [] then []
    else
      var front, last := rows[..|rows| - 1], rows[|rows| - 1];
      KeptRows(front, now) + (if last.claim.leaseExpiresAt <= now then [] else [last])
  }

  function Nodes(rows: seq<Row>): seq<Uuid> {
    seq(|rows|, i requires 0 <= i < |rows| => rows[i].claim.node)
  }

  function SqlDo(s: Sql, op: Op, ttl: nat): Result<(Sql, Answer)> {
    match op
    case ClaimOp(node, authority, now) =>
      if authority == "" || !ValidTime(now) then Err("TypeError")
      else
        var generation := (if node in s.seqs then s.seqs[node] else 0) + 1;
        if !Positive(generation) then Err("DATABASE_CORRUPT")
        else
          var c := Claim(node, authority, generation, now + ttl);
          Ok((Sql(Upsert(s.rows, Row(c, now)), s.seqs[node := generation]), Granted(c)))
    case LookupOp(node) =>
      var i := IndexOf(Proj(s.rows), node);
      if i == |s.rows| then Ok((s, Found(None)))
      else if !Loads(s.rows[i]) then Err("DATABASE_CORRUPT")
      else Ok((s, Found(Some(s.rows[i].claim))))
    case ReleaseOp(node, authority, generation) =>
      var i := IndexOf(Proj(s.rows), node);
      if Positive(generation) && i < |s.rows| && Holds(Some(s.rows[i].claim), authority, generation)
      then Ok((s.(rows := s.rows[..i] + s.rows[i + 1..]), Said(true)))
      else Ok((s, Said(false)))
    case RenewOp(node, authority, generation, now) =>
      var i := IndexOf(Proj(s.rows), node);
      if Positive(generation) && ValidTime(now) && i < |s.rows| && Holds(Some(s.rows[i].claim), authority, generation)
      then
        var r := s.rows[i].(claim := s.rows[i].claim.(leaseExpiresAt := now + ttl));
        if r.claim.leaseExpiresAt < r.claimedAt then Err("CONSTRAINT")
        else Ok((s.(rows := s.rows[i := r]), Said(true)))
      else Ok((s, Said(false)))
    case ReapOp(now) =>
      if !ValidTime(now) then Ok((s, Reaped([])))
      else if exists i :: 0 <= i < |ExpiredRows(s.rows, now)| && !Loads(ExpiredRows(s.rows, now)[i])
      then Err("DATABASE_CORRUPT")
      else Ok((s.(rows := KeptRows(s.rows, now)), Reaped(Nodes(ExpiredRows(s.rows, now)))))
  }

  // ---- Refinement ----

  function Abs(s: Sql): Local {
    Local(Proj(s.rows), s.seqs)
  }

  predicate AllLoad(s: Sql) {
    forall i :: 0 <= i < |s.rows| ==> Loads(s.rows[i])
  }

  predicate Unique(cs: seq<Claim>) {
    forall i, j :: 0 <= i < j < |cs| ==> cs[i].node != cs[j].node
  }

  /** One claim per node, below its high-water mark. */
  predicate Sound(l: Local) {
    && Unique(l.claims)
    && (forall i :: 0 <= i < |l.claims| ==> 1 <= l.claims[i].generation <= High(l, l.claims[i].node))
    && (forall n :: n in l.highWater ==> l.highWater[n] >= 1)
  }

  /** Where the store and the registry agree on an operation. */
  predicate Agreeable(s: Sql, op: Op, ttl: nat) {
    match op
    case ClaimOp(node, authority, now) => authority != "" && ValidTime(now) && Safe(High(Abs(s), node) + 1)
    case RenewOp(node, authority, generation, now) =>
      var i := IndexOf(Proj(s.rows), node);
      i < |s.rows| && Holds(Some(s.rows[i].claim), authority, generation) ==>
        ValidTime(now) && s.rows[i].claimedAt <= now + ttl
    case ReapOp(now) => ValidTime(now) || Expired(Proj(s.rows), now) == []
    case _ => true
  }

  lemma {:induction false} ReapProj(rows: seq<Row>, now: int)
    ensures Proj(KeptRows(rows, now)) == Kept(Proj(rows), now)
    ensures Nodes(ExpiredRows(rows, now)) == Expired(Proj(rows), now)
    ensures forall r :: r in ExpiredRows(rows, now) || r in KeptRows(rows, now) ==> r in rows
    decreases |rows|
  {
    if rows != [] {
      var front, last := rows[..|rows| - 1], rows[|rows| - 1];
      ReapProj(front, now);
      assert Proj(rows)[..|rows| - 1] == Proj(front);
      assert Proj(rows) == Proj(front) + [last.claim];
      assert rows == front + [last];
    }
  }

  lemma {:induction false} NoneExpired(cs: seq<Claim>, now: int)
    requires Expired(cs, now) == []
    ensures Kept(cs, now) == cs
    decreases |cs|
  {
    if cs != [] {
      var front, last := cs[..|cs| - 1], cs[|cs| - 1];
      assert Expired(front, now) == [] && last.leaseExpiresAt > now by {
        assert |Expired(cs, now)| == |Expired(front, now)| + (if last.leaseExpiresAt <= now then 1 else 0);
      }
      NoneExpired(front, now);
      assert front + [last] == cs;
    }
  }

  lemma {:induction false} UpsertProj(rows: seq<Row>, r: Row)
    ensures Proj(Upsert(rows, r)) == Put(Proj(rows), r.claim)
  {
  }

  /** Both registries give the same answer and the same new state exactly on agreeable operations. */
  predicate SameStep(s: Sql, op: Op, ttl: nat) {
    var r := SqlDo(s, op, ttl);
    var (l, answer) := LocalDo(Abs(s), op, ttl);
    r.Ok? && r.value.1 == answer && Abs(r.value.0) == l
  }

  lemma {:induction false} ReapRefines(s: Sql, now: int, ttl: nat)
    requires AllLoad(s)
    ensures SameStep(s, ReapOp(now), ttl) <==> Agreeable(s, ReapOp(now), ttl)
  {
    ReapProj(s.rows, now);
    if ValidTime(now) {
      forall i | 0 <= i < |ExpiredRows(s.rows, now)| ensures Loads(ExpiredRows(s.rows, now)[i]) {
        assert ExpiredRows(s.rows, now)[i] in s.rows;
      }
    } else if Expired(Proj(s.rows), now) == [] {
      NoneExpired(Proj(s.rows), now);
    }
  }

  lemma {:induction false} RenewRefines(s: Sql, op: Op, ttl: nat)
    requires AllLoad(s) && Sound(Abs(s)) && op.RenewOp?
    ensures SameStep(s, op, ttl) <==> Agreeable(s, op, ttl)
  {
    var i := IndexOf(Proj(s.rows), op.node);
    if i < |s.rows| {
      var c := s.rows[i].claim.(leaseExpiresAt := op.now + ttl);
      var r := s.rows[i].(claim := c);
      assert Proj(s.rows[i := r]) == Proj(s.rows)[i := c];
    }
  }

  lemma {:induction false} ReleaseRefines(s: Sql, op: Op, ttl: nat)
    requires AllLoad(s) && Sound(Abs(s)) && op.ReleaseOp?
    ensures SameStep(s, op, ttl)
  {
    var i := IndexOf(Proj(s.rows), op.node);
    if i < |s.rows| {
      assert Proj(s.rows[..i] + s.rows[i + 1..]) == Proj(s.rows)[..i] + Proj(s.rows)[i + 1..];
    }
  }

  /** The store refines the registry exactly on these operations: the condition is the guard that fails. */
  lemma {:induction false} RefinesIff(s: Sql, op: Op, ttl: nat)
    requires AllLoad(s) && Sound(Abs(s))
    ensures SameStep(s, op, ttl) <==> Agreeable(s, op, ttl)
  {
    match op
    case ClaimOp(node, authority, now) => UpsertProj(s.rows,
        Row(Claim(node, authority, High(Abs(s), node) + 1, now + ttl), now));
    case LookupOp(node) =>
    case ReleaseOp(_, _, _) => ReleaseRefines(s, op, ttl);
    case RenewOp(_, _, _, _) => RenewRefines(s, op, ttl);
    case ReapOp(now) => ReapRefines(s, now, ttl);
  }

  // ---- Invariants of the registry ----

  lemma {:induction false} KeptIn(cs: seq<Claim>, now: int)
    requires Unique(cs)
    ensures forall c :: c in Kept(cs, now) <==> c in cs && c.leaseExpiresAt > now
    ensures Unique(Kept(cs, now))
    decreases |cs|
  {
    if cs != [] {
      var front, last := cs[..|cs| - 1], cs[|cs| - 1];
      KeptIn(front, now);
      assert cs == front + [last];
      var k := Kept(front, now);
      forall i | 0 <= i < |k| ensures k[i].node != last.node {
        assert k[i] in front;
        var j :| 0 <= j < |front| && front[j] == k[i];
        assert cs[j].node != last.node;
      }
      assert Unique(k + [last]);
    }
  }

  /** The claims change, and the high-water marks only grow. */
  ghost predicate Grown(l: Local, m: Local) {
    Sound(m) && forall n :: High(l, n) <= High(m, n)
  }

  lemma {:induction false} ReapGrows(l: Local, op: Op, ttl: nat)
    requires Sound(l) && op.ReapOp?
    ensures Grown(l, LocalDo(l, op, ttl).0)
  {
    var kept := Kept(l.claims, op.now);
    KeptIn(l.claims, op.now);
    forall i | 0 <= i < |kept| ensures kept[i] in l.claims {
      assert kept[i] in kept;
    }
  }

  lemma {:induction false} ClaimGrows(l: Local, op: Op, ttl: nat)
    requires Sound(l) && op.ClaimOp?
    ensures Grown(l, LocalDo(l, op, ttl).0)
  {
  }

  lemma {:induction false} RenewGrows(l: Local, op: Op, ttl: nat)
    requires Sound(l) && op.RenewOp?
    ensures Grown(l, LocalDo(l, op, ttl).0)
  {
  }

  lemma {:induction false} ReleaseGrows(l: Local, op: Op, ttl: nat)
    requires Sound(l) && op.ReleaseOp?
    ensures Grown(l, LocalDo(l, op, ttl).0)
  {
  }

  lemma {:induction false} SoundStep(l: Local, op: Op, ttl: nat)
    requires Sound(l)
    ensures Grown(l, LocalDo(l, op, ttl).0)
  {
    if op.ReapOp? {
      ReapGrows(l, op, ttl);
    } else if op.ClaimOp? {
      ClaimGrows(l, op, ttl);
    } else if op.RenewOp? {
      RenewGrows(l, op, ttl);
    } else if op.ReleaseOp? {
      ReleaseGrows(l, op, ttl);
    }
  }

  /** The token of a node: who owns it, under which generation. */
  predicate Current(l: Local, node: Uuid, authority: Authority, generation: int) {
    Holds(Get(l.claims, node), authority, generation)
  }

  lemma {:induction false} GetKept(cs: seq<Claim>, now: int, node: Uuid)
    requires Unique(cs)
    ensures Get(Kept(cs, now), node).Some? ==> Get(Kept(cs, now), node) == Get(cs, node)
  {
    KeptIn(cs, now);
    var k := Kept(cs, now);
    var i := IndexOf(k, node);
    if i < |k| {
      assert k[i] in cs;
      var j :| 0 <= j < |cs| && cs[j] == k[i];
    }
  }

  /** A token below the high-water mark that is not current does not become current. */
  lemma {:induction false} StaleStep(l: Local, op: Op, ttl: nat, node: Uuid, authority: Authority, generation: int)
    requires Sound(l) && generation <= High(l, node) && !Current(l, node, authority, generation)
    ensures !Current(LocalDo(l, op, ttl).0, node, authority, generation)
  {
    match op
    case ReapOp(now) => GetKept(l.claims, now, node);
    case ReleaseOp(gone, _, _) => GetRemove(l.claims, gone, node);
    case ClaimOp(n, a, now) => GetPut(l.claims, Claim(n, a, High(l, n) + 1, now + ttl), node);
    case RenewOp(n, a, g, now) =>
      if Get(l.claims, n).Some? {
        GetPut(l.claims, Get(l.claims, n).value.(leaseExpiresAt := now + ttl), node);
      }
    case LookupOp(_) =>
  }

  lemma {:induction false} GetPut(cs: seq<Claim>, c: Claim, node: Uuid)
    requires Unique(cs)
    ensures Get(Put(cs, c), node) == if node == c.node then Some(c) else Get(cs, node)
  {
    var u, i, j := Put(cs, c), IndexOf(cs, node), IndexOf(Put(cs, c), node);
    if i < |cs| {
      assert u[i].node == node;
    } else if node == c.node {
      assert u[|cs|].node == node;
    }
    if j < |cs| && node != c.node {
      assert u[j] == cs[j];
    }
  }

  lemma {:induction false} GetRemove(cs: seq<Claim>, gone: Uuid, node: Uuid)
    requires Unique(cs)
    ensures Get(Remove(cs, gone), node) == if node == gone then None else Get(cs, node)
  {
    var u, k := Remove(cs, gone), IndexOf(cs, gone);
    var i, j := IndexOf(cs, node), IndexOf(u, node);
    if k < |cs| {
      assert forall m :: 0 <= m < |u| ==> u[m] == if m < k then cs[m] else cs[m + 1];
      if i < |cs| && i != k {
        assert u[if i < k then i else i - 1] == cs[i];
      }
    }
  }

  // ---- Runs ----

  function LocalRun(l: Local, ops: seq<Op>, ttl: nat): Local {
    if ops == [] then l else LocalDo(LocalRun(l, ops[..|ops| - 1], ttl), ops[|ops| - 1], ttl).0
  }

  lemma {:induction false} LocalRunSound(l: Local, ops: seq<Op>, ttl: nat)
    requires Sound(l)
    ensures Sound(LocalRun(l, ops, ttl)) && forall n :: High(l, n) <= High(LocalRun(l, ops, ttl), n)
    decreases |ops|
  {
    if ops != [] {
      LocalRunSound(l, ops[..|ops| - 1], ttl);
      SoundStep(LocalRun(l, ops[..|ops| - 1], ttl), ops[|ops| - 1], ttl);
    }
  }

  lemma {:induction false} StaleRun(l: Local, ops: seq<Op>, ttl: nat, node: Uuid, authority: Authority, generation: int)
    requires Sound(l) && generation <= High(l, node) && !Current(l, node, authority, generation)
    ensures !Current(LocalRun(l, ops, ttl), node, authority, generation)
    decreases |ops|
  {
    if ops != [] {
      var front := ops[..|ops| - 1];
      StaleRun(l, front, ttl, node, authority, generation);
      LocalRunSound(l, front, ttl);
      StaleStep(LocalRun(l, front, ttl), ops[|ops| - 1], ttl, node, authority, generation);
    }
  }

  /** A fenced token stays fenced: once not current, it never renews, releases or owns the node again. */
  lemma {:induction false} StaleForever(l: Local, ops: seq<Op>, ttl: nat, node: Uuid, authority: Authority,
                                        generation: int, now: int)
    requires Sound(l) && generation <= High(l, node) && !Current(l, node, authority, generation)
    ensures var k := LocalRun(l, ops, ttl);
            && !Current(k, node, authority, generation)
            && LocalDo(k, RenewOp(node, authority, generation, now), ttl) == (k, Said(false))
            && LocalDo(k, ReleaseOp(node, authority, generation), ttl) == (k, Said(false))
  {
    StaleRun(l, ops, ttl, node, authority, generation);
  }

  /** Two grants for one node, with anything in between, carry increasing generations. */
  lemma {:induction false} GenerationsIncrease(l: Local, first: Op, ops: seq<Op>, second: Op, ttl: nat)
    requires Sound(l) && first.ClaimOp? && second.ClaimOp? && first.node == second.node
    ensures var (k, a) := LocalDo(l, first, ttl);
            var b := LocalDo(LocalRun(k, ops, ttl), second, ttl).1;
            a.claim.generation < b.claim.generation
  {
    SoundStep(l, first, ttl);
    LocalRunSound(LocalDo(l, first, ttl).0, ops, ttl);
  }

  /** The store's run: a failed transaction changes nothing. */
  function SqlAfter(s: Sql, op: Op, ttl: nat): Sql {
    var r := SqlDo(s, op, ttl);
    if r.Ok? then r.value.0 else s
  }

  function SqlRun(s: Sql, ops: seq<Op>, ttl: nat): Sql {
    if ops == [] then s else SqlAfter(SqlRun(s, ops[..|ops| - 1], ttl), ops[|ops| - 1], ttl)
  }

  /** Times on one clock that never runs back, well inside the range of dates. */
  predicate OnClock(ops: seq<Op>, ttl: nat) {
    && (forall i :: 0 <= i < |ops| && Timed(ops[i]) ==> ValidTime(ops[i].now) && ValidTime(ops[i].now + ttl))
    && (forall i, j :: 0 <= i < j < |ops| && Timed(ops[i]) && Timed(ops[j]) ==> ops[i].now <= ops[j].now)
    && (forall i :: 0 <= i < |ops| && ops[i].ClaimOp? ==> ops[i].authority != "")
  }

  predicate Timed(op: Op) {
    op.ClaimOp? || op.RenewOp? || op.ReapOp?
  }

  /** Every row was claimed at the time of some earlier operation. */
  predicate ClaimedBy(rows: seq<Row>, t: int) {
    forall i :: 0 <= i < |rows| ==> rows[i].claimedAt <= t
  }

  lemma {:induction false} UpsertLoads(rows: seq<Row>, r: Row, t: int)
    requires (forall i :: 0 <= i < |rows| ==> Loads(rows[i])) && Loads(r) && ClaimedBy(rows, t) && r.claimedAt <= t
    ensures forall i :: 0 <= i < |Upsert(rows, r)| ==> Loads(Upsert(rows, r)[i])
    ensures ClaimedBy(Upsert(rows, r), t)
  {
  }

  lemma {:induction false} ReapLoads(s: Sql, now: int, ttl: nat, t: int)
    requires AllLoad(s) && ClaimedBy(s.rows, t) && t <= now
    ensures var u := SqlAfter(s, ReapOp(now), ttl); AllLoad(u) && ClaimedBy(u.rows, now)
  {
    ReapProj(s.rows, now);
    var u := SqlAfter(s, ReapOp(now), ttl);
    forall i | 0 <= i < |u.rows| ensures u.rows[i] in s.rows {
      assert u.rows[i] in u.rows;
    }
  }

  lemma {:induction false} RenewLoads(s: Sql, op: Op, ttl: nat, t: int)
    requires AllLoad(s) && ClaimedBy(s.rows, t) && op.RenewOp? && t <= op.now && ValidTime(op.now + ttl)
    ensures var u := SqlAfter(s, op, ttl); AllLoad(u) && ClaimedBy(u.rows, op.now)
  {
  }

  /** How one operation at a lawful time changes the rows. */
  lemma {:induction false} LoadStep(s: Sql, op: Op, ttl: nat, t: int)
    requires AllLoad(s) && Sound(Abs(s)) && ClaimedBy(s.rows, t) && Agreeable(s, op, ttl)
    requires Timed(op) ==> t <= op.now && ValidTime(op.now) && ValidTime(op.now + ttl)
    requires op.ClaimOp? ==> op.authority != ""
    ensures var u := SqlAfter(s, op, ttl);
            AllLoad(u) && ClaimedBy(u.rows, if Timed(op) then op.now else t)
  {
    if op.ClaimOp? {
      ClaimLoads(s, op, ttl, t);
    } else if op.RenewOp? {
      RenewLoads(s, op, ttl, t);
    } else if op.ReapOp? {
      ReapLoads(s, op.now, ttl, t);
    } else if op.ReleaseOp? {
      ReleaseLoads(s, op, ttl, t);
    }
  }

  lemma {:induction false} ClaimLoads(s: Sql, op: Op, ttl: nat, t: int)
    requires AllLoad(s) && Sound(Abs(s)) && ClaimedBy(s.rows, t) && Agreeable(s, op, ttl) && op.ClaimOp?
    requires t <= op.now && ValidTime(op.now) && ValidTime(op.now + ttl) && op.authority != ""
    ensures AllLoad(SqlAfter(s, op, ttl)) && ClaimedBy(SqlAfter(s, op, ttl).rows, op.now)
  {
    UpsertLoads(s.rows, Row(Claim(op.node, op.authority, High(Abs(s), op.node) + 1, op.now + ttl), op.now), op.now);
  }

  lemma {:induction false} ReleaseLoads(s: Sql, op: Op, ttl: nat, t: int)
    requires AllLoad(s) && ClaimedBy(s.rows, t) && op.ReleaseOp?
    ensures AllLoad(SqlAfter(s, op, ttl)) && ClaimedBy(SqlAfter(s, op, ttl).rows, t)
  {
  }

  function LastTime(ops: seq<Op>, start: int): int {
    if ops == [] then start
    else if Timed(ops[|ops| - 1]) then ops[|ops| - 1].now
    else LastTime(ops[..|ops| - 1], start)
  }

  lemma {:induction false} LastTimeIs(ops: seq<Op>, start: int)
    ensures LastTime(ops, start) == start || exists i ::
            0 <= i < |ops| && Timed(ops[i]) && ops[i].now == LastTime(ops, start)
    decreases |ops|
  {
    if ops != [] && !Timed(ops[|ops| - 1]) {
      LastTimeIs(ops[..|ops| - 1], start);
      if LastTime(ops[..|ops| - 1], start) != start {
        var i :| 0 <= i < |ops| - 1 && Timed(ops[..|ops| - 1][i]) && ops[..|ops| - 1][i].now == LastTime(ops, start);
        assert ops[i] == ops[..|ops| - 1][i];
      }
    }
  }

  /**
   * Refinement over runs: from empty tables, on one clock that never runs back, the store stays in step with
   * the registry and the next operation gets the same answer from both, reap order included.
   */
  lemma {:induction false} StoreRefinesRegistry(ops: seq<Op>, op: Op, ttl: nat)
    requires OnClock(ops + [op], ttl) && |ops| < MAX_SAFE
    ensures var s, l := SqlRun(Sql([], map[]), ops, ttl), LocalRun(Local([], map[]), ops, ttl);
            Abs(s) == l && SqlDo(s, op, ttl).Ok? && SqlDo(s, op, ttl).value.1 == LocalDo(l, op, ttl).1
  {
    assert OnClock(ops, ttl) by {
      assert forall i :: 0 <= i < |ops| ==> ops[i] == (ops + [op])[i];
    }
    RunInStep(ops, ttl);
    var s := SqlRun(Sql([], map[]), ops, ttl);
    NextAgrees(s, ops, op, ttl);
    RefinesIff(s, op, ttl);
  }

  lemma {:induction false} NextAgrees(s: Sql, ops: seq<Op>, op: Op, ttl: nat)
    requires OnClock(ops + [op], ttl) && ClaimedBy(s.rows, LastTime(ops, -MAX_TIME))
    requires forall n :: High(Abs(s), n) < MAX_SAFE
    requires forall n :: High(Abs(s), n) >= 0
    ensures Agreeable(s, op, ttl) &&
            (Timed(op) ==> LastTime(ops, -MAX_TIME) <= op.now && ValidTime(op.now) && ValidTime(op.now + ttl))
    ensures op.ClaimOp? ==> op.authority != ""
  {
    LastTimeIs(ops, -MAX_TIME);
    var all := ops + [op];
    assert all[|ops|] == op;
    if LastTime(ops, -MAX_TIME) != -MAX_TIME {
      var i :| 0 <= i < |ops| && Timed(ops[i]) && ops[i].now == LastTime(ops, -MAX_TIME);
      assert all[i] == ops[i];
    }
  }

  /** Both registries in step after `n` operations, the last of them at time t. */
  ghost predicate InStep(s: Sql, l: Local, n: nat, t: int) {
    && Abs(s) == l && AllLoad(s) && Sound(l) && ClaimedBy(s.rows, t)
    && (forall node :: 0 <= High(l, node) <= n)
  }

  lemma {:induction false} StepInStep(s: Sql, l: Local, n: nat, t: int, op: Op, ttl: nat)
    requires InStep(s, l, n, t) && Agreeable(s, op, ttl)
    requires Timed(op) ==> t <= op.now && ValidTime(op.now) && ValidTime(op.now + ttl)
    requires op.ClaimOp? ==> op.authority != ""
    ensures InStep(SqlAfter(s, op, ttl), LocalDo(l, op, ttl).0, n + 1, if Timed(op) then op.now else t)
  {
    RefinesIff(s, op, ttl);
    LoadStep(s, op, ttl, t);
    SoundStep(l, op, ttl);
  }

  lemma {:induction false} RunInStep(ops: seq<Op>, ttl: nat)
    requires OnClock(ops, ttl) && |ops| < MAX_SAFE
    ensures InStep(SqlRun(Sql([], map[]), ops, ttl), LocalRun(Local([], map[]), ops, ttl), |ops|,
            LastTime(ops, -MAX_TIME))
    decreases |ops|
  {
    if ops == [] {
      assert Proj([]) == [];
    } else {
      var front, last := ops[..|ops| - 1], ops[|ops| - 1];
      assert ops == front + [last];
      assert OnClock(front, ttl);
      RunInStep(front, ttl);
      var s, l := SqlRun(Sql([], map[]), front, ttl), LocalRun(Local([], map[]), front, ttl);
      NextAgrees(s, front, last, ttl);
      StepInStep(s, l, |front|, LastTime(front, -MAX_TIME), last, ttl);
    }
  }

  /** A clock that runs back further than the lease makes the store fail where the registry renews. */
  lemma {:induction false} ClockRunsBack(node: Uuid, authority: Authority, at: int, back: int, ttl: nat)
    requires authority != "" && ValidTime(at) && ValidTime(at + ttl) && ValidTime(back) && back + ttl < at
    ensures var ops := [ClaimOp(node, authority, at)];
            && SqlDo(SqlRun(Sql([], map[]), ops, ttl), RenewOp(node, authority, 1, back), ttl) == Err("CONSTRAINT")
            && LocalDo(LocalRun(Local([], map[]), ops, ttl), RenewOp(node, authority, 1, back), ttl).1 == Said(true)
  {
    var ops := [ClaimOp(node, authority, at)];
    assert ops[..0] == [];
    var s := Sql([], map[]);
    assert SqlRun(s, ops, ttl) == SqlAfter(SqlRun(s, ops[..0], ttl), ops[0], ttl);
    assert LocalRun(Local([], map[]), ops, ttl) == LocalDo(LocalRun(Local([], map[]), ops[..0], ttl), ops[0], ttl).0;
    var c := Claim(node, authority, 1, at + ttl);
    assert SqlRun(s, ops, ttl).rows == [Row(c, at)];
    assert LocalRun(Local([], map[]), ops, ttl).claims == [c];
  }

  lemma {:induction false} ReleaseStutters(s: Sql, op: Op, ttl: nat)
    requires Sound(Abs(s)) && op.ReleaseOp?
    ensures Abs(SqlAfter(s, op, ttl)) == Abs(s) || Abs(SqlAfter(s, op, ttl)) == LocalDo(Abs(s), op, ttl).0
  {
    var i := IndexOf(Proj(s.rows), op.node);
    if i < |s.rows| {
      assert Proj(s.rows[..i] + s.rows[i + 1..]) == Proj(s.rows)[..i] + Proj(s.rows)[i + 1..];
    }
  }

  lemma {:induction false} RenewStutters(s: Sql, op: Op, ttl: nat)
    requires Sound(Abs(s)) && op.RenewOp?
    ensures Abs(SqlAfter(s, op, ttl)) == Abs(s) || Abs(SqlAfter(s, op, ttl)) == LocalDo(Abs(s), op, ttl).0
  {
    var i := IndexOf(Proj(s.rows), op.node);
    if i < |s.rows| {
      var c := s.rows[i].claim.(leaseExpiresAt := op.now + ttl);
      assert Proj(s.rows[i := s.rows[i].(claim := c)]) == Proj(s.rows)[i := c];
    }
  }

  /** Whatever the clock says, a step of the store is a step of the registry or none at all. */
  lemma {:induction false} StoreStutters(s: Sql, op: Op, ttl: nat)
    requires Sound(Abs(s))
    ensures Abs(SqlAfter(s, op, ttl)) == Abs(s) || Abs(SqlAfter(s, op, ttl)) == LocalDo(Abs(s), op, ttl).0
  {
    match op
    case ClaimOp(node, authority, now) =>
      UpsertProj(s.rows, Row(Claim(node, authority, High(Abs(s), node) + 1, now + ttl), now));
    case ReapOp(now) => ReapProj(s.rows, now);
    case LookupOp(_) =>
    case ReleaseOp(_, _, _) => ReleaseStutters(s, op, ttl);
    case RenewOp(_, _, _, _) => RenewStutters(s, op, ttl);
  }

  /** In the shared store too, a token that stopped being current stays fenced through every later run. */
  lemma {:induction false} StaleInStore(s: Sql, ops: seq<Op>, ttl: nat, node: Uuid, authority: Authority,
                                        generation: int)
    requires Sound(Abs(s)) && generation <= High(Abs(s), node) && !Current(Abs(s), node, authority, generation)
    ensures var u := SqlRun(s, ops, ttl);
            && Sound(Abs(u)) && generation <= High(Abs(u), node) && !Current(Abs(u), node, authority, generation)
    decreases |ops|
  {
    if ops != [] {
      var front, last := ops[..|ops| - 1], ops[|ops| - 1];
      StaleInStore(s, front, ttl, node, authority, generation);
      var u := SqlRun(s, front, ttl);
      StoreStutters(u, last, ttl);
      SoundStep(Abs(u), last, ttl);
      StaleStep(Abs(u), last, ttl, node, authority, generation);
    }
  }

  /** The pump relay serves a notification only for the token that is current in the shared store. */
  predicate PumpNotify(s: Sql, node: Uuid, self: Authority, generation: int) {
    Holds(Get(Proj(s.rows), node), self, generation)
  }

  /** A fenced authority never pumps again on an old token. */
  lemma {:induction false} StaleNeverPumps(s: Sql, ops: seq<Op>, ttl: nat, node: Uuid, self: Authority, generation: int)
    requires Sound(Abs(s)) && generation <= High(Abs(s), node) && !PumpNotify(s, node, self, generation)
    ensures !PumpNotify(SqlRun(s, ops, ttl), node, self, generation)
  {
    StaleInStore(s, ops, ttl, node, self, generation);
  }
}
