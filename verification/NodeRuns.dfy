/** Whole runs of a node's runtime store: budget, exactly-once application, revisions that count. */
module NodeRuns {
  import opened Core
  import opened Tables
  import opened NodeDb
  import E = ExecutorState
  import W = Wire
  import Lease

  datatype Op =
    | SaveOp(m: Msg, attempts: nat, lastAt: nat)
    | AdvanceOp(key: Key, expected: nat, t: Transition)
    | ConsumeOp(r: Request, t: Transition)
    | ReceiveOp(m: Msg)
    | StoredOp(from: Uuid, msgId: Uuid, digest: Msg, now: int)
    | PruneOp(cutoff: int)
    | CompleteOp(id: Key, key: Key, revision: int, allowSuperseded: bool)

  /** A failed transaction changes nothing. */
  function Do(db: Db, node: Uuid, fits: Capacity, op: Op): Db {
    match op
    case SaveOp(m, attempts, lastAt) =>
      var r := Save(db, node, fits, m, attempts, lastAt); if r.Ok? then r.value else db
    case AdvanceOp(key, expected, t) =>
      var r := Advance(db, node, fits, key, expected, t); if r.Ok? then r.value else db
    case ConsumeOp(request, t) =>
      var r := Consume(db, node, fits, request, t); if r.Ok? then r.value.0 else db
    case ReceiveOp(m) =>
      var r := Receive(db, node, fits, m); if r.Ok? then r.value.0 else db
    case StoredOp(from, msgId, digest, now) => ConfirmStored(db, node, from, msgId, digest, now).0
    case PruneOp(cutoff) => Prune(db, cutoff)
    case CompleteOp(id, key, revision, allow) => CompleteEffect(db, id, key, revision, allow).0
  }

  lemma {:induction false} DoConsistent(db: Db, node: Uuid, fits: Capacity, op: Op)
    requires Consistent(db, node)
    ensures Consistent(Do(db, node, fits, op), node)
  {
    match op
    case SaveOp(m, attempts, lastAt) => SaveEntryKeeps(db, node, m, attempts, lastAt);
    case AdvanceOp(key, expected, t) => ApplyKeeps(db, node, key, Revision(db, key), t);
    case ConsumeOp(r, t) => ConsumeKeeps(db, node, fits, r, t);
    case ReceiveOp(m) => ReceiveKeeps(db, node, fits, m);
    case StoredOp(from, msgId, digest, now) => ConfirmKeeps(db, node, from, msgId, digest, now);
    case PruneOp(cutoff) => PruneKeeps(db, node, cutoff);
    case CompleteOp(id, key, revision, allow) => CompleteKeeps(db, node, id, key, revision, allow);
  }

  lemma {:induction false} ConfirmShrinks(db: Db, node: Uuid, from: Uuid, msgId: Uuid, digest: Msg, now: int)
    ensures var next := ConfirmStored(db, node, from, msgId, digest, now).0;
            Entries(next) <= Entries(db) && Bytes(next) <= Bytes(db)
  {
    var (next, ok) := ConfirmStored(db, node, from, msgId, digest, now);
    if ok {
      SumReplace(db.delivery, msgId, next.delivery[msgId], DeliverySize);
      OutboxShrinks(db.outbox, msgId);
    }
  }

  lemma {:induction false} OutboxShrinks(outbox: map<Uuid, OutboxRow>, msgId: Uuid)
    ensures |outbox - {msgId}| <= |outbox| && Sum(outbox - {msgId}, OutboxSize) <= Sum(outbox, OutboxSize)
  {
    if msgId in outbox {
      SumRemove(outbox, msgId, OutboxSize);
    } else {
      assert outbox - {msgId} == outbox;
    }
  }

  /** The capacity check keeps the budget; what is not checked only shrinks. */
  lemma {:induction false} DoWithinBudget(db: Db, node: Uuid, q: Limits, op: Op)
    requires WithinBudget(db, q)
    ensures WithinBudget(Do(db, node, Budget(q), op), q)
  {
    match op
    case StoredOp(from, msgId, digest, now) => ConfirmShrinks(db, node, from, msgId, digest, now);
    case PruneOp(cutoff) => SumSubset(Prune(db, cutoff).delivery, db.delivery, DeliverySize);
    case CompleteOp(id, key, revision, allow) => CompleteKeepsSize(db, q, id, key, revision, allow);
    case _ => CheckedFits(db, node, Budget(q), op);
  }

  lemma {:induction false} CompleteKeepsSize(db: Db, q: Limits, id: Key, key: Key, revision: int, allow: bool)
    requires WithinBudget(db, q)
    ensures WithinBudget(CompleteEffect(db, id, key, revision, allow).0, q)
  {
    var (next, ok) := CompleteEffect(db, id, key, revision, allow);
    if ok {
      SumReplace(db.effects, id, next.effects[id], EffectSize);
    }
  }

  lemma {:induction false} CheckedFits(db: Db, node: Uuid, fits: Capacity, op: Op)
    requires op.SaveOp? || op.AdvanceOp? || op.ConsumeOp? || op.ReceiveOp?
    ensures Do(db, node, fits, op) == db || fits(Do(db, node, fits, op))
  {
  }

  // ---- What was applied, in order ----

  /** One run of a transform: for an inbox message, or a local transition. */
  datatype Entry = Entry(key: Key, revision: int, msg: Option<Msg>)

  /** The transform that this operation ran and committed, if any. */
  function Applies(db: Db, node: Uuid, fits: Capacity, op: Op): seq<Entry> {
    match op
    case AdvanceOp(key, expected, t) =>
      if Advance(db, node, fits, key, expected, t).Ok? then [Entry(key, expected + 1, None)] else []
    case ConsumeOp(r, t) =>
      if Consume(db, node, fits, r, t).Ok? && Ready(db, r) &&
          Judge(db, db.inbox[(r.from, r.msgId)].digest, r.key).Applied?
      then [Entry(r.key, r.expected + 1, Some(db.inbox[(r.from, r.msgId)].digest))] else []
    case _ => []
  }

  datatype World = World(db: Db, log: seq<Entry>)

  function Run(node: Uuid, fits: Capacity, ops: seq<Op>): World {
    if ops == [] then World(EMPTY, [])
    else
      var w := Run(node, fits, ops[..|ops| - 1]);
      World(Do(w.db, node, fits, ops[|ops| - 1]), w.log + Applies(w.db, node, fits, ops[|ops| - 1]))
  }

  function Count(log: seq<Entry>, key: Key): nat {
    if log == [] then 0 else Count(log[..|log| - 1], key) + (if log[|log| - 1].key == key then 1 else 0)
  }

  /** Each logged message is decided as applied, under the state and revision it was applied at. */
  ghost predicate Recorded(db: Db, log: seq<Entry>) {
    forall i :: 0 <= i < |log| && log[i].msg.Some? ==>
      var m := log[i].msg.value;
      && (m.from, m.msgId) in db.inbox
      && db.inbox[(m.from, m.msgId)] == InboxRow(m, None, Applied, Some(log[i].key), log[i].revision)
      && (UsesR1Dedup(m.kind) ==> KeyOf(m, log[i].key) in db.dedup)
  }

  predicate Logs(log: seq<Entry>, k: (Uuid, Uuid)) {
    exists i :: 0 <= i < |log| && log[i].msg.Some? && (log[i].msg.value.from, log[i].msg.value.msgId) == k
  }

  ghost predicate Complete(db: Db, log: seq<Entry>) {
    forall k :: k in db.inbox && db.inbox[k].decision.Applied? ==> Logs(log, k)
  }

  predicate SameIdentity(a: Entry, b: Entry) {
    a.msg.Some? && b.msg.Some? && a.msg.value.from == b.msg.value.from && a.msg.value.msgId == b.msg.value.msgId
  }

  predicate SameR1(a: Entry, b: Entry) {
    a.msg.Some? && b.msg.Some? && UsesR1Dedup(a.msg.value.kind) &&
        KeyOf(a.msg.value, a.key) == KeyOf(b.msg.value, b.key)
  }

  predicate Once(log: seq<Entry>) {
    forall i, j :: 0 <= i < j < |log| ==> !SameIdentity(log[i], log[j]) && !SameR1(log[i], log[j])
  }

  ghost predicate Counted(db: Db, log: seq<Entry>) {
    forall key :: Revision(db, key) == Count(log, key)
  }

  ghost predicate LogInv(w: World) {
    Recorded(w.db, w.log) && Complete(w.db, w.log) && Once(w.log) && Counted(w.db, w.log)
  }

  lemma {:induction false} CountAppend(log: seq<Entry>, e: Entry, key: Key)
    ensures Count(log + [e], key) == Count(log, key) + (if e.key == key then 1 else 0)
  {
    assert (log + [e])[..|log|] == log;
  }

  /** Steps that run no transform leave inbox decisions, dedup and states alone. */
  ghost predicate Quiet(db: Db, next: Db) {
    && next.state == db.state && next.dedup == db.dedup
    && (forall k :: k in db.inbox && !db.inbox[k].decision.Pending? ==> k in next.inbox && next.inbox[k] == db.inbox[k])
    && (forall k :: k in next.inbox && next.inbox[k].decision.Applied? ==>
          k in db.inbox && db.inbox[k].decision.Applied?)
  }

  lemma {:induction false} QuietStep(w: World, next: Db)
    requires LogInv(w) && Quiet(w.db, next)
    ensures LogInv(World(next, w.log))
  {
    forall key ensures Revision(next, key) == Count(w.log, key) {
      assert Revision(w.db, key) == Count(w.log, key);
    }
  }

  /** The log stays true when a state advances without a message. */
  lemma {:induction false} AdvanceStep(w: World, next: Db, key: Key, row: StateRow)
    requires LogInv(w) && row.revision == Revision(w.db, key) + 1
    requires next.inbox == w.db.inbox && next.dedup == w.db.dedup && next.state == w.db.state[key := row]
    ensures LogInv(World(next, w.log + [Entry(key, row.revision, None)]))
  {
    var e := Entry(key, row.revision, None);
    forall k ensures Revision(next, k) == Count(w.log + [e], k) {
      CountAppend(w.log, e, k);
      assert Revision(w.db, k) == Count(w.log, k);
    }
    forall k | k in next.inbox && next.inbox[k].decision.Applied? ensures Logs(w.log + [e], k) {
      LogsAppend(w.log, e, k);
    }
  }

  lemma {:induction false} LogsAppend(log: seq<Entry>, e: Entry, k: (Uuid, Uuid))
    ensures Logs(log, k) ==> Logs(log + [e], k)
    ensures e.msg.Some? && (e.msg.value.from, e.msg.value.msgId) == k ==> Logs(log + [e], k)
  {
    if Logs(log, k) {
      var i :| 0 <= i < |log| && log[i].msg.Some? && (log[i].msg.value.from, log[i].msg.value.msgId) == k;
      assert (log + [e])[i] == log[i];
    }
    assert (log + [e])[|log|] == e;
  }

  /** A consume that ran its transform is the settled tables, within budget. */
  lemma {:induction false} ConsumeIsSettle(db: Db, node: Uuid, fits: Capacity, r: Request, t: Transition)
    requires Applies(db, node, fits, ConsumeOp(r, t)) != []
    ensures (r.from, r.msgId) in db.inbox && db.inbox[(r.from, r.msgId)].decision.Pending?
    ensures var m := db.inbox[(r.from, r.msgId)].digest;
            && Judge(db, m, r.key).Applied? && r.expected == Revision(db, r.key)
            && Settle(db, node, r, m, t) == Ok(Do(db, node, fits, ConsumeOp(r, t)))
            && Applies(db, node, fits, ConsumeOp(r, t)) == [Entry(r.key, r.expected + 1, Some(m))]
  {
  }

  /** What applying a pending message does to the tables. */
  lemma {:induction false} SettleShape(db: Db, node: Uuid, r: Request, m: Msg, t: Transition)
    requires Consistent(db, node) && (r.from, r.msgId) in db.inbox && db.inbox[(r.from, r.msgId)].digest == m
    requires db.inbox[(r.from, r.msgId)].decision.Pending? && Revision(db, r.key) == r.expected
    requires Settle(db, node, r, m, t).Ok? && Judge(db, m, r.key).Applied?
    ensures var next := Settle(db, node, r, m, t).value;
            && next.inbox == db.inbox[(r.from, r.msgId) := InboxRow(m, None, Applied, Some(r.key), r.expected + 1)]
            && next.dedup == Remember(db, m, r.key).dedup
            && next.state == db.state[r.key := StateRow(r.expected + 1, t.state, t.bytes)]
  {
    assert InboxOk(db, node, (r.from, r.msgId), db.inbox[(r.from, r.msgId)]);
    RememberApplied(db, node, m, r.key, t);
  }

  /** The log stays true when a pending message, new to R1, is applied at the next revision. */
  lemma {:induction false} LogStep(w: World, next: Db, m: Msg, key: Key, row: StateRow)
    requires LogInv(w) && (m.from, m.msgId) in w.db.inbox
    requires w.db.inbox[(m.from, m.msgId)].decision.Pending? && Judge(w.db, m, key).Applied?
    requires row.revision == Revision(w.db, key) + 1
    requires next.inbox == w.db.inbox[(m.from, m.msgId) := InboxRow(m, None, Applied, Some(key), row.revision)]
    requires next.dedup == Remember(w.db, m, key).dedup && next.state == w.db.state[key := row]
    ensures LogInv(World(next, w.log + [Entry(key, row.revision, Some(m))]))
  {
    var e := Entry(key, row.revision, Some(m));
    forall k ensures Revision(next, k) == Count(w.log + [e], k) {
      CountAppend(w.log, e, k);
      assert Revision(w.db, k) == Count(w.log, k);
    }
    forall k | k in next.inbox && next.inbox[k].decision.Applied? ensures Logs(w.log + [e], k) {
      LogsAppend(w.log, e, k);
    }
    assert Once(w.log + [e]);
    assert Recorded(next, w.log + [e]);
  }

  lemma {:induction false} ApplyStep(w: World, node: Uuid, fits: Capacity, r: Request, t: Transition)
    requires Consistent(w.db, node) && LogInv(w) && Applies(w.db, node, fits, ConsumeOp(r, t)) != []
    ensures LogInv(World(Do(w.db, node, fits, ConsumeOp(r, t)), w.log + Applies(w.db, node, fits, ConsumeOp(r, t))))
  {
    ConsumeIsSettle(w.db, node, fits, r, t);
    var m := w.db.inbox[(r.from, r.msgId)].digest;
    assert InboxOk(w.db, node, (r.from, r.msgId), w.db.inbox[(r.from, r.msgId)]);
    SettleShape(w.db, node, r, m, t);
    LogStep(w, Settle(w.db, node, r, m, t).value, m, r.key, StateRow(r.expected + 1, t.state, t.bytes));
  }

  /** A message judged a repeat is decided without running its transform. */
  lemma {:induction false} RefuseQuiet(db: Db, node: Uuid, fits: Capacity, r: Request, t: Transition)
    requires Applies(db, node, fits, ConsumeOp(r, t)) == []
    ensures Quiet(db, Do(db, node, fits, ConsumeOp(r, t)))
  {
  }

  lemma {:induction false} SaveQuiet(db: Db, node: Uuid, fits: Capacity, m: Msg, attempts: nat, lastAt: nat)
    ensures var r := Save(db, node, fits, m, attempts, lastAt); r.Ok? ==> Quiet(db, r.value)
  {
  }

  lemma {:induction false} ReceiveQuiet(db: Db, node: Uuid, fits: Capacity, m: Msg)
    ensures var r := Receive(db, node, fits, m); r.Ok? ==> Quiet(db, r.value.0)
  {
  }

  lemma {:induction false} CleanupQuiet(db: Db, node: Uuid, from: Uuid, msgId: Uuid, digest: Msg, now: int, id: Key,
                                        key: Key, revision: int, allow: bool)
    ensures Quiet(db, ConfirmStored(db, node, from, msgId, digest, now).0)
    ensures Quiet(db, Prune(db, now))
    ensures Quiet(db, CompleteEffect(db, id, key, revision, allow).0)
  {
  }

  /** Everything but an applied consume and a committed transition is quiet. */
  lemma {:induction false} OtherQuiet(db: Db, node: Uuid, fits: Capacity, op: Op)
    requires !op.ConsumeOp? && !op.AdvanceOp?
    ensures Quiet(db, Do(db, node, fits, op))
  {
    match op
    case SaveOp(m, attempts, lastAt) => SaveQuiet(db, node, fits, m, attempts, lastAt);
    case ReceiveOp(m) => ReceiveQuiet(db, node, fits, m);
    case StoredOp(from, msgId, digest, now) => CleanupQuiet(db, node, from, msgId, digest, now, [], [], 0, false);
    case PruneOp(cutoff) => assert Quiet(db, Prune(db, cutoff));
    case CompleteOp(id, key, revision, allow) => assert Quiet(db, CompleteEffect(db, id, key, revision, allow).0);
  }

  lemma {:induction false} ConsumeStep(w: World, node: Uuid, fits: Capacity, op: Op)
    requires Consistent(w.db, node) && LogInv(w) && op.ConsumeOp?
    ensures LogInv(World(Do(w.db, node, fits, op), w.log + Applies(w.db, node, fits, op)))
  {
    if Applies(w.db, node, fits, op) == [] {
      assert w.log + [] == w.log;
      RefuseQuiet(w.db, node, fits, op.r, op.t);
      QuietStep(w, Do(w.db, node, fits, op));
    } else {
      ApplyStep(w, node, fits, op.r, op.t);
    }
  }

  lemma {:induction false} TransitionStep(w: World, node: Uuid, fits: Capacity, key: Key, expected: nat, t: Transition)
    requires Consistent(w.db, node) && LogInv(w)
    ensures var op := AdvanceOp(key, expected, t);
            LogInv(World(Do(w.db, node, fits, op), w.log + Applies(w.db, node, fits, op)))
  {
    if Advance(w.db, node, fits, key, expected, t).Ok? {
      ApplyKeeps(w.db, node, key, expected, t);
      AdvanceStep(w, Advance(w.db, node, fits, key, expected, t).value, key, StateRow(expected + 1, t.state, t.bytes));
    } else {
      assert w.log + [] == w.log;
    }
  }

  lemma {:induction false} StepKeeps(w: World, node: Uuid, fits: Capacity, op: Op)
    requires Consistent(w.db, node) && LogInv(w)
    ensures LogInv(World(Do(w.db, node, fits, op), w.log + Applies(w.db, node, fits, op)))
  {
    if op.ConsumeOp? {
      ConsumeStep(w, node, fits, op);
    } else if op.AdvanceOp? {
      TransitionStep(w, node, fits, op.key, op.expected, op.t);
    } else {
      assert w.log + [] == w.log;
      OtherQuiet(w.db, node, fits, op);
      QuietStep(w, Do(w.db, node, fits, op));
    }
  }

  // ---- Main results ----

  lemma {:induction false} RunConsistent(node: Uuid, fits: Capacity, ops: seq<Op>)
    ensures Consistent(Run(node, fits, ops).db, node)
    decreases |ops|
  {
    if ops != [] {
      RunConsistent(node, fits, ops[..|ops| - 1]);
      DoConsistent(Run(node, fits, ops[..|ops| - 1]).db, node, fits, ops[|ops| - 1]);
    }
  }

  /** With the budget as capacity check, every reachable set of tables is within it. */
  lemma {:induction false} RunWithinBudget(node: Uuid, q: Limits, ops: seq<Op>)
    ensures WithinBudget(Run(node, Budget(q), ops).db, q)
    decreases |ops|
  {
    if ops != [] {
      RunWithinBudget(node, q, ops[..|ops| - 1]);
      DoWithinBudget(Run(node, Budget(q), ops[..|ops| - 1]).db, node, q, ops[|ops| - 1]);
    }
  }

  lemma {:induction false} RunLogged(node: Uuid, fits: Capacity, ops: seq<Op>)
    ensures LogInv(Run(node, fits, ops))
    decreases |ops|
  {
    if ops != [] {
      RunConsistent(node, fits, ops[..|ops| - 1]);
      RunLogged(node, fits, ops[..|ops| - 1]);
      StepKeeps(Run(node, fits, ops[..|ops| - 1]), node, fits, ops[|ops| - 1]);
    }
  }

  /** Every inbox message is applied exactly once if it is decided as applied, and otherwise never. */
  lemma {:induction false} ExactlyOnce(node: Uuid, fits: Capacity, ops: seq<Op>, from: Uuid, msgId: Uuid)
    ensures var w := Run(node, fits, ops);
            && (Logs(w.log, (from, msgId)) <==>
                  (from, msgId) in w.db.inbox && w.db.inbox[(from, msgId)].decision.Applied?)
            && (forall i, j :: 0 <= i < j < |w.log| ==> !SameIdentity(w.log[i], w.log[j]))
  {
    RunLogged(node, fits, ops);
  }

  /** Sender, state, task, attempt and R1 type together are applied at most once, ever. */
  lemma {:induction false} R1AtMostOnce(node: Uuid, fits: Capacity, ops: seq<Op>, i: nat, j: nat)
    requires i < j < |Run(node, fits, ops).log|
    ensures !SameR1(Run(node, fits, ops).log[i], Run(node, fits, ops).log[j])
  {
    RunLogged(node, fits, ops);
  }

  /** A state's revision is the number of transforms applied to it. */
  lemma {:induction false} RevisionCounts(node: Uuid, fits: Capacity, ops: seq<Op>, key: Key)
    ensures Revision(Run(node, fits, ops).db, key) == Count(Run(node, fits, ops).log, key)
  {
    RunLogged(node, fits, ops);
  }

  /** An envelope as the executor reads it: same identity fields, and an offer exactly when its type says so. */
  predicate Reads(m: Msg, env: W.Envelope) {
    && env.from == m.from && env.task == m.task && env.attempt == m.attempt
    && (env.body.Offer? <==> m.kind == "task.offer")
  }

  /** Consuming this message created a run with this fence for this lead. */
  predicate Creates(c: E.Config, s: E.Snapshot, env: W.Envelope, now: int, flags: (bool, bool, bool, bool), runId: Uuid,
                    fence: Lease.Fence)
  {
    var r := E.ConsumeEvent(c, s, env, now, flags.0, flags.1, flags.2, flags.3, runId);
    r.Ok? && r.value.effect == Some(fence)
  }

  /** A created run carries its offer's task and attempt, belongs to its sender, and waits in the slot. */
  lemma {:induction false} CreationNamesOffer(c: E.Config, s: E.Snapshot, env: W.Envelope, now: int,
                                              flags: (bool, bool, bool, bool),
                           runId: Uuid, fence: Lease.Fence)
    requires Creates(c, s, env, now, flags, runId, fence)
    ensures env.body.Offer? && env.task == Some(fence.task) && env.attempt == Some(fence.attempt)
    ensures var t := E.ConsumeEvent(c, s, env, now, flags.0, flags.1, flags.2, flags.3, runId).value.state;
            E.SlotIs(t, fence) && t.slot.value.lead == env.from
  {
  }

  /**
   * For all time, an executor creates at most one run per lead, task and attempt: two applied messages of
   * its store that both create a run never agree on all three.
   */
  lemma {:induction false} OneRunPerAttempt(node: Uuid, fits: Capacity, ops: seq<Op>, i: nat, j: nat, c: E.Config,
                         s: E.Snapshot, a: W.Envelope, nowA: int, flagsA: (bool, bool, bool, bool), runA: Uuid,
                             fenceA: Lease.Fence,
                         t: E.Snapshot, b: W.Envelope, nowB: int, flagsB: (bool, bool, bool, bool), runB: Uuid,
                             fenceB: Lease.Fence)
    requires i < j < |Run(node, fits, ops).log|
    requires var log := Run(node, fits, ops).log;
             log[i].key == log[j].key && log[i].msg.Some? && log[j].msg.Some? && Reads(log[i].msg.value, a) &&
                 Reads(log[j].msg.value, b)
    requires Creates(c, s, a, nowA, flagsA, runA, fenceA) && Creates(c, t, b, nowB, flagsB, runB, fenceB)
    ensures a.from != b.from || fenceA.task != fenceB.task || fenceA.attempt != fenceB.attempt
  {
    R1AtMostOnce(node, fits, ops, i, j);
    CreationNamesOffer(c, s, a, nowA, flagsA, runA, fenceA);
    CreationNamesOffer(c, t, b, nowB, flagsB, runB, fenceB);
  }
}
