/**
 * The node's durable runtime tables and their transactions: inbox, R1 dedup, revision compare-and-set,
 * outbox and effect intents. A transaction that fails leaves the tables as they were.
 */
module NodeDb {
  import opened Core
  import opened Tables

  type Key = string

  /** A signed envelope; a digest is modelled by the envelope it is taken of. */
  datatype Msg = Msg(from: Uuid, msgId: Uuid, to: Uuid, kind: string, task: Option<Uuid>, attempt: Option<int>,
                     body: nat, bytes: nat)

  const MAX_TRANSPORT_BYTES := 262144

  predicate IsTask(kind: string) {
    "task." <= kind
  }

  /** Envelope validation: a task message names its task and a positive attempt. */
  predicate ValidMsg(m: Msg) {
    && m.bytes <= MAX_TRANSPORT_BYTES
    && (IsTask(m.kind) ==> m.task.Some? && m.attempt.Some? && Positive(m.attempt.value))
  }

  predicate UsesR1Dedup(kind: string) {
    IsTask(kind) && kind != "task.progress" && kind != "task.lease.renew"
  }

  datatype Decision = Pending | Applied | Duplicate | Conflict

  datatype InboxRow = InboxRow(digest: Msg, payload: Option<Msg>, decision: Decision, stateKey: Option<Key>,
      revision: int)

  datatype DeliveryRow = DeliveryRow(digest: Msg, stored: bool, storedAt: Option<int>)

  datatype OutboxRow = OutboxRow(payload: Msg, attempts: int, lastAt: int)

  datatype StateRow = StateRow(revision: int, value: nat, bytes: nat)

  datatype DedupKey = DedupKey(sender: Uuid, stateKey: Key, task: Option<Uuid>, attempt: Option<int>, kind: string)

  datatype EffectRow = EffectRow(stateKey: Key, revision: int, kind: string, bytes: nat, done: bool)

  datatype Db = Db(inbox: map<(Uuid, Uuid), InboxRow>, delivery: map<Uuid, DeliveryRow>, outbox: map<Uuid, OutboxRow>,
                   state: map<Key, StateRow>, dedup: map<DedupKey, nat>, effects: map<Key, EffectRow>)

  const EMPTY := Db(map[], map[], map[], map[], map[], map[])

  datatype Limits = Limits(maxEntries: nat, maxBytes: nat)

  // ---- Capacity: every row of every table counts ----

  function Digits(n: int): nat {
    if n < 10 then 1 else 1 + Digits(n / 10)
  }

  function InboxSize(k: (Uuid, Uuid), r: InboxRow): nat {
    264 + (if r.payload.Some? then r.payload.value.bytes else 0) + (if r.stateKey.Some? then |r.stateKey.value| else 0)
  }

  function DeliverySize(k: Uuid, r: DeliveryRow): nat {
    264
  }

  function OutboxSize(k: Uuid, r: OutboxRow): nat {
    200 + r.payload.bytes
  }

  function StateSize(k: Key, r: StateRow): nat {
    128 + |k| + r.bytes
  }

  function DedupSize(k: DedupKey, d: nat): nat {
    272 + |k.stateKey| + |k.kind| + (if k.attempt.Some? then Digits(k.attempt.value) else 4)
  }

  function EffectSize(k: Key, r: EffectRow): nat {
    128 + |k| + |r.stateKey| + |r.kind| + r.bytes
  }

  function Entries(db: Db): nat {
    |db.inbox| + |db.delivery| + |db.outbox| + |db.state| + |db.dedup| + |db.effects|
  }

  ghost function Bytes(db: Db): nat {
    Sum(db.inbox, InboxSize) + Sum(db.delivery, DeliverySize) + Sum(db.outbox, OutboxSize) +
    Sum(db.state, StateSize) + Sum(db.dedup, DedupSize) + Sum(db.effects, EffectSize)
  }

  ghost predicate WithinBudget(db: Db, q: Limits) {
    Entries(db) <= q.maxEntries && Bytes(db) <= q.maxBytes
  }

  // ---- The cross-table invariant that start-up validation enforces ----

  predicate InboxOk(db: Db, node: Uuid, k: (Uuid, Uuid), r: InboxRow) {
    && r.digest.from == k.0 && r.digest.msgId == k.1
    && if r.decision.Pending? then
         r.payload == Some(r.digest) && ValidMsg(r.digest) && r.digest.to == node && r.stateKey.None?
       else
         && r.payload.None? && r.stateKey.Some? && r.revision >= (if r.decision.Applied? then 1 else 0)
         && (r.revision == 0 || (r.stateKey.value in db.state && r.revision <= db.state[r.stateKey.value].revision))
  }

  predicate DeliveryOk(db: Db, node: Uuid, id: Uuid, r: DeliveryRow) {
    && (r.stored <==> id !in db.outbox)
    && (!r.stored ==> r.storedAt.None?)
    && r.digest.from == node && r.digest.msgId == id
    && (id in db.outbox ==> db.outbox[id].payload == r.digest && ValidMsg(r.digest))
  }

  predicate EffectOk(db: Db, r: EffectRow) {
    r.revision >= 1 && r.stateKey in db.state && r.revision <= db.state[r.stateKey].revision
  }

  predicate DedupOk(db: Db, k: DedupKey) {
    UsesR1Dedup(k.kind) && k.task.Some? && k.attempt.Some? && Positive(k.attempt.value) && k.stateKey in db.state
  }

  ghost predicate Consistent(db: Db, node: Uuid) {
    && (forall k :: k in db.inbox ==> InboxOk(db, node, k, db.inbox[k]))
    && (forall id :: id in db.delivery ==> DeliveryOk(db, node, id, db.delivery[id]))
    && db.outbox.Keys <= db.delivery.Keys
    && (forall k :: k in db.state ==> db.state[k].revision >= 1)
    && (forall k :: k in db.dedup ==> DedupOk(db, k))
    && (forall k :: k in db.effects ==> EffectOk(db, db.effects[k]))
  }

  // ---- Transactions ----

  datatype Effect = Effect(id: Key, kind: Key, bytes: nat)

  datatype Transition = Transition(state: nat, bytes: nat, outbox: seq<Msg>, effects: seq<Effect>)

  predicate ValidKey(k: Key) {
    1 <= |k| <= 1024
  }

  function SaveEntry(db: Db, node: Uuid, m: Msg, attempts: nat, lastAt: nat): Result<Db> {
    if !ValidMsg(m) || m.from != node then Err("TypeError")
    else if m.msgId in db.delivery then
      var prior := db.delivery[m.msgId];
      if prior.digest != m then Err("CONFLICT")
      else if prior.stored then Ok(db)
      else Ok(db.(outbox := db.outbox[m.msgId := OutboxRow(m, attempts, lastAt)]))
    else
      Ok(db.(delivery := db.delivery[m.msgId := DeliveryRow(m, false, None)],
             outbox := db.outbox[m.msgId := OutboxRow(m, attempts, lastAt)]))
  }

  function SaveAll(db: Db, node: Uuid, ms: seq<Msg>): Result<Db> {
    if ms == [] then Ok(db)
    else
      var front := SaveAll(db, node, ms[..|ms| - 1]);
      if front.Err? then front else SaveEntry(front.value, node, ms[|ms| - 1], 0, 0)
  }

  function AddEffect(db: Db, key: Key, revision: int, e: Effect): Result<Db> {
    if !ValidKey(e.id) || !ValidKey(e.kind) then Err("TypeError")
    else if e.id in db.effects then Err("CONSTRAINT")
    else Ok(db.(effects := db.effects[e.id := EffectRow(key, revision, e.kind, e.bytes, false)]))
  }

  function AddEffects(db: Db, key: Key, revision: int, es: seq<Effect>): Result<Db> {
    if es == [] then Ok(db)
    else
      var front := AddEffects(db, key, revision, es[..|es| - 1]);
      if front.Err? then front else AddEffect(front.value, key, revision, es[|es| - 1])
  }

  function Revision(db: Db, key: Key): int {
    if key in db.state then db.state[key].revision else 0
  }

  function PutState(db: Db, key: Key, revision: int, t: Transition): Db {
    db.(state := db.state[key := StateRow(revision, t.state, t.bytes)])
  }

  /** State, outbox and effects of one transition, under the next revision. */
  function ApplyTransition(db: Db, node: Uuid, key: Key, revision: int, t: Transition): Result<Db> {
    if !Safe(revision + 1) then Err("TypeError")
    else
      var saved := SaveAll(PutState(db, key, revision + 1, t), node, t.outbox);
      if saved.Err? then saved else AddEffects(saved.value, key, revision + 1, t.effects)
  }

  /** Whether the tables fit, asked before a commit. */
  type Capacity = Db -> bool

  ghost function Budget(q: Limits): Capacity {
    d => WithinBudget(d, q)
  }

  function Capped(db: Db, fits: Capacity): Result<Db> {
    if fits(db) then Ok(db) else Err("FULL")
  }

  function Save(db: Db, node: Uuid, fits: Capacity, m: Msg, attempts: nat, lastAt: nat): Result<Db> {
    var saved := SaveEntry(db, node, m, attempts, lastAt);
    if saved.Err? then saved else Capped(saved.value, fits)
  }

  function Advance(db: Db, node: Uuid, fits: Capacity, key: Key, expected: nat, t: Transition): Result<Db> {
    if !ValidKey(key) then Err("TypeError")
    else if Revision(db, key) != expected then Err("STALE")
    else
      var next := ApplyTransition(db, node, key, expected, t);
      if next.Err? then next else Capped(next.value, fits)
  }

  datatype Request = Request(from: Uuid, msgId: Uuid, key: Key, expected: nat)

  datatype Consumed = Missing | Decided(decision: Decision, revision: int)

  function KeyOf(m: Msg, key: Key): DedupKey {
    DedupKey(m.from, key, m.task, m.attempt, m.kind)
  }

  /** What R1 makes of a pending message. */
  function Judge(db: Db, m: Msg, key: Key): Decision {
    if !UsesR1Dedup(m.kind) || KeyOf(m, key) !in db.dedup then Applied
    else if db.dedup[KeyOf(m, key)] == m.body then Duplicate
    else Conflict
  }

  function Remember(db: Db, m: Msg, key: Key): Db {
    if UsesR1Dedup(m.kind) && KeyOf(m, key) !in db.dedup then db.(dedup := db.dedup[KeyOf(m, key) := m.body]) else db
  }

  /** The inbox update by key. */
  function Decide(db: Db, r: Request, decision: Decision, revision: int): Db {
    if (r.from, r.msgId) !in db.inbox then db
    else
      db.(inbox := db.inbox[(r.from, r.msgId) :=
        db.inbox[(r.from, r.msgId)].(payload := None, decision := decision, stateKey := Some(r.key),
            revision := revision)])
  }

  /** The tables after judging a pending message: `t` is what the transform returns when it runs. */
  function Settle(db: Db, node: Uuid, r: Request, m: Msg, t: Transition): Result<Db> {
    var judged := Judge(db, m, r.key);
    if judged.Applied? then
      var next := ApplyTransition(Remember(db, m, r.key), node, r.key, r.expected, t);
      if next.Err? then next else Ok(Decide(next.value, r, Applied, r.expected + 1))
    else Ok(Decide(db, r, judged, r.expected))
  }

  /** The transform runs only for a pending message, at the revision its caller saw. */
  predicate Ready(db: Db, r: Request) {
    && ValidKey(r.key) && (r.from, r.msgId) in db.inbox && db.inbox[(r.from, r.msgId)].decision.Pending?
    && Revision(db, r.key) == r.expected
  }

  /** The answer when it does not: unknown, already decided, claimed by another state, or stale. */
  function Answer(db: Db, r: Request): Result<Consumed> {
    if !ValidKey(r.key) then Err("TypeError")
    else if (r.from, r.msgId) !in db.inbox then Ok(Missing)
    else
      var row := db.inbox[(r.from, r.msgId)];
      if row.decision.Pending? then Err("STALE")
      else if row.stateKey != Some(r.key) then Err("CONFLICT")
      else Ok(Decided(row.decision, row.revision))
  }

  function Consume(db: Db, node: Uuid, fits: Capacity, r: Request, t: Transition): Result<(Db, Consumed)> {
    if !Ready(db, r) then
      var answer := Answer(db, r);
      if answer.Ok? then Ok((db, answer.value)) else Err(answer.error)
    else
      var m := db.inbox[(r.from, r.msgId)].digest;
      var settled := Settle(db, node, r, m, t);
      if settled.Err? then Err(settled.error)
      else if !fits(settled.value) then Err("FULL")
      else
        var judged := Judge(db, m, r.key);
        Ok((settled.value, Decided(judged, if judged.Applied? then r.expected + 1 else r.expected)))
  }

  datatype Received = New | Repeated | Clash

  function Receive(db: Db, node: Uuid, fits: Capacity, m: Msg): Result<(Db, Received)> {
    if !ValidMsg(m) || m.to != node then Err("TypeError")
    else if (m.from, m.msgId) in db.inbox then
      Ok((db, if db.inbox[(m.from, m.msgId)].digest == m then Repeated else Clash))
    else
      var next := Capped(db.(inbox := db.inbox[(m.from, m.msgId) := InboxRow(m, Some(m), Pending, None, 0)]), fits);
      if next.Err? then Err(next.error) else Ok((next.value, New))
  }

  /** A verified custody frame: the row is stamped once and its payload released. */
  function ConfirmStored(db: Db, node: Uuid, from: Uuid, msgId: Uuid, digest: Msg, now: int): (Db, bool) {
    if from != node || msgId !in db.delivery || db.delivery[msgId].digest != digest then (db, false)
    else
      var row := db.delivery[msgId];
      (db.(delivery := db.delivery[msgId := if row.stored then row else row.(stored := true, storedAt := Some(now))],
           outbox := db.outbox - {msgId}), true)
  }

  predicate Reclaimable(r: DeliveryRow, cutoff: int) {
    r.stored && r.storedAt.Some? && r.storedAt.value <= cutoff
  }

  function Prune(db: Db, cutoff: int): Db {
    db.(delivery := map id | id in db.delivery && !Reclaimable(db.delivery[id], cutoff) :: db.delivery[id])
  }

  /** Fenced completion: only the pending intent of that state and revision, current unless allowed otherwise. */
  function CompleteEffect(db: Db, id: Key, key: Key, revision: int, allowSuperseded: bool): (Db, bool) {
    if id in db.effects && db.effects[id].stateKey == key && db.effects[id].revision == revision && !db.effects[id].done
       && (allowSuperseded || Revision(db, key) == revision)
    then (db.(effects := db.effects[id := db.effects[id].(done := true)]), true)
    else (db, false)
  }

  // ---- Every transaction keeps the invariant ----

  /** Tables that differ in deliveries and outbox only. */
  lemma MailKeeps(db: Db, next: Db, node: Uuid)
    requires Consistent(db, node) && next == db.(delivery := next.delivery, outbox := next.outbox)
    requires next.outbox.Keys <= next.delivery.Keys
    requires forall id :: id in next.delivery ==> DeliveryOk(next, node, id, next.delivery[id])
    ensures Consistent(next, node)
  {
    forall k | k in next.inbox ensures InboxOk(next, node, k, next.inbox[k]) {
      assert InboxOk(db, node, k, db.inbox[k]);
    }
    forall k | k in next.effects ensures EffectOk(next, next.effects[k]) {
      assert EffectOk(db, db.effects[k]);
    }
    forall k | k in next.dedup ensures DedupOk(next, k) {
      assert DedupOk(db, k);
    }
  }

  lemma SaveEntryKeeps(db: Db, node: Uuid, m: Msg, attempts: nat, lastAt: nat)
    requires Consistent(db, node)
    ensures var r := SaveEntry(db, node, m, attempts, lastAt);
            r.Ok? ==>
              Consistent(r.value, node) && r.value == db.(delivery := r.value.delivery, outbox := r.value.outbox)
  {
    var r := SaveEntry(db, node, m, attempts, lastAt);
    if r.Ok? {
      forall id | id in r.value.delivery ensures DeliveryOk(r.value, node, id, r.value.delivery[id]) {
        if id in db.delivery {
          assert DeliveryOk(db, node, id, db.delivery[id]);
        }
      }
      MailKeeps(db, r.value, node);
    }
  }

  lemma {:induction false} SaveAllKeeps(db: Db, node: Uuid, ms: seq<Msg>)
    requires Consistent(db, node)
    ensures var r := SaveAll(db, node, ms);
            r.Ok? ==>
              Consistent(r.value, node) && r.value == db.(delivery := r.value.delivery, outbox := r.value.outbox)
    decreases |ms|
  {
    if ms != [] {
      var front := SaveAll(db, node, ms[..|ms| - 1]);
      SaveAllKeeps(db, node, ms[..|ms| - 1]);
      if front.Ok? {
        SaveEntryKeeps(front.value, node, ms[|ms| - 1], 0, 0);
      }
    }
  }

  lemma {:induction false} AddEffectsKeeps(db: Db, node: Uuid, key: Key, revision: int, es: seq<Effect>)
    requires Consistent(db, node) && key in db.state && 1 <= revision <= db.state[key].revision
    ensures var r := AddEffects(db, key, revision, es);
            r.Ok? ==> Consistent(r.value, node) && r.value == db.(effects := r.value.effects)
    decreases |es|
  {
    if es != [] {
      var front := AddEffects(db, key, revision, es[..|es| - 1]);
      AddEffectsKeeps(db, node, key, revision, es[..|es| - 1]);
      if front.Ok? && AddEffect(front.value, key, revision, es[|es| - 1]).Ok? {
        var next := AddEffect(front.value, key, revision, es[|es| - 1]).value;
        assert forall k :: k in next.inbox ==> InboxOk(front.value, node, k, next.inbox[k]);
        assert forall id :: id in next.delivery ==> DeliveryOk(front.value, node, id, next.delivery[id]);
        assert forall k :: k in next.dedup ==> DedupOk(front.value, k);
        assert forall k :: k in front.value.effects ==> EffectOk(front.value, front.value.effects[k]);
      }
    }
  }

  /** Writing a state at a later revision disturbs nothing. */
  lemma PutStateKeeps(db: Db, node: Uuid, key: Key, revision: int, t: Transition)
    requires Consistent(db, node) && revision > Revision(db, key) >= 0
    ensures Consistent(PutState(db, key, revision, t), node)
  {
    var next := PutState(db, key, revision, t);
    forall k | k in next.inbox ensures InboxOk(next, node, k, next.inbox[k]) {
      assert InboxOk(db, node, k, db.inbox[k]);
    }
    forall k | k in next.effects ensures EffectOk(next, next.effects[k]) {
      assert EffectOk(db, db.effects[k]);
    }
    forall k | k in next.dedup ensures DedupOk(next, k) {
      assert DedupOk(db, k);
    }
    forall id | id in next.delivery ensures DeliveryOk(next, node, id, next.delivery[id]) {
      assert DeliveryOk(db, node, id, db.delivery[id]);
    }
  }

  /** A whole transition, with what it leaves alone. */
  lemma ApplyKeeps(db: Db, node: Uuid, key: Key, revision: int, t: Transition)
    requires Consistent(db, node) && revision == Revision(db, key)
    ensures var r := ApplyTransition(db, node, key, revision, t);
            r.Ok? ==>
              && Consistent(r.value, node) && r.value.inbox == db.inbox && r.value.dedup == db.dedup
              && r.value.state == db.state[key := StateRow(revision + 1, t.state, t.bytes)]
  {
    if Safe(revision + 1) {
      var put := PutState(db, key, revision + 1, t);
      PutStateKeeps(db, node, key, revision + 1, t);
      SaveAllKeeps(put, node, t.outbox);
      var saved := SaveAll(put, node, t.outbox);
      if saved.Ok? {
        AddEffectsKeeps(saved.value, node, key, revision + 1, t.effects);
      }
    }
  }

  lemma {:induction false} SaveAllIgnoresDedup(db: Db, node: Uuid, ms: seq<Msg>, d: map<DedupKey, nat>)
    ensures var a, b := SaveAll(db, node, ms), SaveAll(db.(dedup := d), node, ms);
            if a.Err? then b == a else b == Ok(a.value.(dedup := d))
    decreases |ms|
  {
    if ms != [] {
      SaveAllIgnoresDedup(db, node, ms[..|ms| - 1], d);
    }
  }

  lemma {:induction false} AddEffectsIgnoresDedup(db: Db, key: Key, revision: int, es: seq<Effect>,
                                                  d: map<DedupKey, nat>)
    ensures var a, b := AddEffects(db, key, revision, es), AddEffects(db.(dedup := d), key, revision, es);
            if a.Err? then b == a else b == Ok(a.value.(dedup := d))
    decreases |es|
  {
    if es != [] {
      AddEffectsIgnoresDedup(db, key, revision, es[..|es| - 1], d);
    }
  }

  lemma ApplyIgnoresDedup(db: Db, node: Uuid, key: Key, revision: int, t: Transition, d: map<DedupKey, nat>)
    ensures var a := ApplyTransition(db, node, key, revision, t);
            var b := ApplyTransition(db.(dedup := d), node, key, revision, t);
            if a.Err? then b == a else b == Ok(a.value.(dedup := d))
  {
    var put := PutState(db, key, revision + 1, t);
    SaveAllIgnoresDedup(put, node, t.outbox, d);
    assert PutState(db.(dedup := d), key, revision + 1, t) == put.(dedup := d);
    var saved := SaveAll(put, node, t.outbox);
    if saved.Ok? {
      AddEffectsIgnoresDedup(saved.value, key, revision + 1, t.effects, d);
    }
  }

  /** What an applied message leaves: the next revision, its dedup entry, and everything consistent. */
  lemma RememberApplied(db: Db, node: Uuid, m: Msg, key: Key, t: Transition)
    requires Consistent(db, node) && ValidMsg(m)
    ensures var r := ApplyTransition(Remember(db, m, key), node, key, Revision(db, key), t);
            r.Ok? ==>
              && Consistent(r.value, node) && r.value.inbox == db.inbox
              && r.value.dedup == Remember(db, m, key).dedup
              && r.value.state == db.state[key := StateRow(Revision(db, key) + 1, t.state, t.bytes)]
  {
    var revision, d := Revision(db, key), Remember(db, m, key).dedup;
    var r := ApplyTransition(db, node, key, revision, t);
    ApplyIgnoresDedup(db, node, key, revision, t, d);
    ApplyKeeps(db, node, key, revision, t);
    assert Remember(db, m, key) == db.(dedup := d);
    if r.Ok? {
      var next := r.value.(dedup := d);
      DedupKeeps(r.value, next, node);
    }
  }

  lemma DedupKeeps(db: Db, next: Db, node: Uuid)
    requires Consistent(db, node) && next == db.(dedup := next.dedup)
    requires forall k :: k in next.dedup ==> DedupOk(next, k)
    ensures Consistent(next, node)
  {
    forall k | k in next.inbox ensures InboxOk(next, node, k, next.inbox[k]) {
      assert InboxOk(db, node, k, db.inbox[k]);
    }
    forall k | k in next.effects ensures EffectOk(next, next.effects[k]) {
      assert EffectOk(db, db.effects[k]);
    }
    forall id | id in next.delivery ensures DeliveryOk(next, node, id, next.delivery[id]) {
      assert DeliveryOk(db, node, id, db.delivery[id]);
    }
  }

  lemma InboxKeeps(db: Db, next: Db, node: Uuid)
    requires Consistent(db, node) && next == db.(inbox := next.inbox)
    requires forall k :: k in next.inbox ==> InboxOk(next, node, k, next.inbox[k])
    ensures Consistent(next, node)
  {
    forall k | k in next.dedup ensures DedupOk(next, k) {
      assert DedupOk(db, k);
    }
    forall k | k in next.effects ensures EffectOk(next, next.effects[k]) {
      assert EffectOk(db, db.effects[k]);
    }
    forall id | id in next.delivery ensures DeliveryOk(next, node, id, next.delivery[id]) {
      assert DeliveryOk(db, node, id, db.delivery[id]);
    }
  }

  lemma DecideKeeps(db: Db, node: Uuid, r: Request, decision: Decision, revision: int)
    requires Consistent(db, node) && (r.from, r.msgId) in db.inbox && !decision.Pending?
    requires revision == Revision(db, r.key) && (decision.Applied? ==> revision >= 1)
    ensures Consistent(Decide(db, r, decision, revision), node)
  {
    var next := Decide(db, r, decision, revision);
    forall k | k in next.inbox ensures InboxOk(next, node, k, next.inbox[k]) {
      assert InboxOk(db, node, k, db.inbox[k]);
    }
    InboxKeeps(db, next, node);
  }

  lemma SettleKeeps(db: Db, node: Uuid, r: Request, m: Msg, t: Transition)
    requires Consistent(db, node) && (r.from, r.msgId) in db.inbox && db.inbox[(r.from, r.msgId)].digest == m
    requires db.inbox[(r.from, r.msgId)].decision.Pending? && Revision(db, r.key) == r.expected
    ensures var c := Settle(db, node, r, m, t); c.Ok? ==> Consistent(c.value, node)
  {
    assert InboxOk(db, node, (r.from, r.msgId), db.inbox[(r.from, r.msgId)]);
    if Judge(db, m, r.key).Applied? {
      RememberApplied(db, node, m, r.key, t);
      var next := ApplyTransition(Remember(db, m, r.key), node, r.key, r.expected, t);
      if next.Ok? {
        DecideKeeps(next.value, node, r, Applied, r.expected + 1);
      }
    } else {
      DecideKeeps(db, node, r, Judge(db, m, r.key), r.expected);
    }
  }

  lemma ConsumeKeeps(db: Db, node: Uuid, fits: Capacity, r: Request, t: Transition)
    requires Consistent(db, node)
    ensures var c := Consume(db, node, fits, r, t); c.Ok? ==> Consistent(c.value.0, node)
  {
    if Ready(db, r) {
      SettleKeeps(db, node, r, db.inbox[(r.from, r.msgId)].digest, t);
    }
  }

  lemma ReceiveKeeps(db: Db, node: Uuid, fits: Capacity, m: Msg)
    requires Consistent(db, node)
    ensures var c := Receive(db, node, fits, m); c.Ok? ==> Consistent(c.value.0, node)
  {
    var c := Receive(db, node, fits, m);
    if c.Ok? && c.value.1.New? {
      var next := c.value.0;
      forall k | k in next.inbox ensures InboxOk(next, node, k, next.inbox[k]) {
        if k in db.inbox {
          assert InboxOk(db, node, k, db.inbox[k]);
        }
      }
      InboxKeeps(db, next, node);
    }
  }

  lemma ConfirmKeeps(db: Db, node: Uuid, from: Uuid, msgId: Uuid, digest: Msg, now: int)
    requires Consistent(db, node)
    ensures Consistent(ConfirmStored(db, node, from, msgId, digest, now).0, node)
  {
    var (next, ok) := ConfirmStored(db, node, from, msgId, digest, now);
    if ok {
      forall id | id in next.delivery ensures DeliveryOk(next, node, id, next.delivery[id]) {
        assert DeliveryOk(db, node, id, db.delivery[id]);
      }
      MailKeeps(db, next, node);
    }
  }

  lemma PruneKeeps(db: Db, node: Uuid, cutoff: int)
    requires Consistent(db, node)
    ensures Consistent(Prune(db, cutoff), node)
  {
    var next := Prune(db, cutoff);
    forall id | id in next.delivery ensures DeliveryOk(next, node, id, next.delivery[id]) {
      assert DeliveryOk(db, node, id, db.delivery[id]);
    }
    forall id | id in next.outbox ensures id in next.delivery {
      assert DeliveryOk(db, node, id, db.delivery[id]);
    }
    MailKeeps(db, next, node);
  }

  lemma CompleteKeeps(db: Db, node: Uuid, id: Key, key: Key, revision: int, allowSuperseded: bool)
    requires Consistent(db, node)
    ensures Consistent(CompleteEffect(db, id, key, revision, allowSuperseded).0, node)
  {
    var next := CompleteEffect(db, id, key, revision, allowSuperseded).0;
    forall k | k in next.inbox ensures InboxOk(next, node, k, next.inbox[k]) {
      assert InboxOk(db, node, k, db.inbox[k]);
    }
    forall k | k in next.effects ensures EffectOk(next, next.effects[k]) {
      assert EffectOk(db, db.effects[k]);
    }
    forall k | k in next.dedup ensures DedupOk(next, k) {
      assert DedupOk(db, k);
    }
    forall d | d in next.delivery ensures DeliveryOk(next, node, d, next.delivery[d]) {
      assert DeliveryOk(db, node, d, db.delivery[d]);
    }
  }
}
