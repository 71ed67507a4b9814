/** What a node puts out stays out: from the commit that saves a message to the custody frame that releases it. */
module NodeMail {
  import opened Core
  import opened NodeDb
  import opened NodeRuns

  /** The message waits to be sent: tracked, not stored, its payload in the outbox. */
  predicate Outgoing(db: Db, m: Msg) {
    && m.msgId in db.delivery && db.delivery[m.msgId] == DeliveryRow(m, false, None)
    && m.msgId in db.outbox && db.outbox[m.msgId].payload == m
  }

  /** Tracked under its first content, waiting or stored. */
  predicate Tracked(db: Db, m: Msg) {
    m.msgId in db.delivery && db.delivery[m.msgId].digest == m && (Outgoing(db, m) || db.delivery[m.msgId].stored)
  }

  /** The other messages are left alone. */
  predicate OthersStay(db: Db, next: Db, id: Uuid) {
    && next == db.(delivery := next.delivery, outbox := next.outbox)
    && next.delivery - {id} == db.delivery - {id} && next.outbox - {id} == db.outbox - {id}
  }

  /**
   * Saving: a new message waits to be sent, with the attempt fields given; one that waits takes the new attempt fields;
   * a stored one stays stored; and only invalid, foreign or conflicting messages are refused.
   */
  lemma SaveIs(db: Db, node: Uuid, m: Msg, attempts: nat, lastAt: nat)
    requires Consistent(db, node)
    ensures var r := SaveEntry(db, node, m, attempts, lastAt);
            && (r.Ok? <==>
                  ValidMsg(m) && m.from == node && (m.msgId in db.delivery ==> db.delivery[m.msgId].digest == m))
            && (r.Ok? ==>
                  && OthersStay(db, r.value, m.msgId) && Tracked(r.value, m)
                  && (m.msgId in db.delivery && db.delivery[m.msgId].stored ==> r.value == db)
                  && (!(m.msgId in db.delivery && db.delivery[m.msgId].stored) ==>
                        Outgoing(r.value, m) && r.value.outbox[m.msgId] == OutboxRow(m, attempts, lastAt)))
  {
    if m.msgId in db.delivery {
      assert DeliveryOk(db, node, m.msgId, db.delivery[m.msgId]);
    }
  }

  /** A message that is tracked stays tracked when more are saved, and keeps waiting if it waits. */
  lemma SaveKeepsOthers(db: Db, node: Uuid, m: Msg, attempts: nat, lastAt: nat, other: Msg)
    requires Consistent(db, node) && SaveEntry(db, node, m, attempts, lastAt).Ok?
    ensures Outgoing(db, other) ==> Outgoing(SaveEntry(db, node, m, attempts, lastAt).value, other)
    ensures Tracked(db, other) ==> Tracked(SaveEntry(db, node, m, attempts, lastAt).value, other)
  {
  }

  /** After a committed outbox, each of its messages is tracked, and whatever waited still waits. */
  lemma {:induction false} SaveAllTracks(db: Db, node: Uuid, ms: seq<Msg>, other: Msg)
    requires Consistent(db, node) && SaveAll(db, node, ms).Ok?
    ensures var next := SaveAll(db, node, ms).value;
            && (forall m :: m in ms ==> Tracked(next, m))
            && (Outgoing(db, other) ==> Outgoing(next, other)) && (Tracked(db, other) ==> Tracked(next, other))
    decreases |ms|
  {
    if ms != [] {
      var front, last := ms[..|ms| - 1], ms[|ms| - 1];
      var mid := SaveAll(db, node, front).value;
      SaveAllTracks(db, node, front, other);
      SaveAllKeeps(db, node, front);
      SaveIs(mid, node, last, 0, 0);
      SaveKeepsOthers(mid, node, last, 0, 0, other);
      forall m | m in ms ensures Tracked(SaveAll(db, node, ms).value, m) {
        assert ms == front + [last];
        if m in front {
          SaveKeepsOthers(mid, node, last, 0, 0, m);
        }
      }
    }
  }

  /** Effects touch no mail. */
  lemma {:induction false} EffectsKeepMail(db: Db, key: Key, revision: int, es: seq<Effect>)
    ensures var r := AddEffects(db, key, revision, es);
            r.Ok? ==> r.value.delivery == db.delivery && r.value.outbox == db.outbox
    decreases |es|
  {
    if es != [] {
      EffectsKeepMail(db, key, revision, es[..|es| - 1]);
    }
  }

  lemma ApplyTracks(db: Db, node: Uuid, key: Key, revision: int, t: Transition, other: Msg)
    requires Consistent(db, node) && revision == Revision(db, key) && ApplyTransition(db, node, key, revision, t).Ok?
    ensures var next := ApplyTransition(db, node, key, revision, t).value;
            && (forall m :: m in t.outbox ==> Tracked(next, m))
            && (Outgoing(db, other) ==> Outgoing(next, other)) && (Tracked(db, other) ==> Tracked(next, other))
  {
    var put := PutState(db, key, revision + 1, t);
    PutStateKeeps(db, node, key, revision + 1, t);
    SaveAllTracks(put, node, t.outbox, other);
    EffectsKeepMail(SaveAll(put, node, t.outbox).value, key, revision + 1, t.effects);
  }

  /** The messages that an operation puts out, if it commits. */
  function PutsOut(db: Db, node: Uuid, fits: Capacity, op: Op): seq<Msg> {
    match op
    case SaveOp(m, attempts, lastAt) => if Save(db, node, fits, m, attempts, lastAt).Ok? then [m] else []
    case AdvanceOp(key, expected, t) => if Advance(db, node, fits, key, expected, t).Ok? then t.outbox else []
    case ConsumeOp(r, t) => if Applies(db, node, fits, op) != [] then t.outbox else []
    case _ => []
  }

  /** The custody frame that releases this message. */
  predicate Releases(node: Uuid, op: Op, m: Msg) {
    op.StoredOp? && op.from == node && op.msgId == m.msgId && op.digest == m
  }

  /** Whatever an operation puts out is tracked; what waits keeps waiting until its release, what is stored may go. */
  ghost predicate MailStep(db: Db, node: Uuid, fits: Capacity, op: Op, next: Db) {
    && (forall m :: m in PutsOut(db, node, fits, op) ==> Tracked(next, m))
    && (forall m :: Outgoing(db, m) && !Releases(node, op, m) ==> Outgoing(next, m))
  }

  lemma SaveMail(db: Db, node: Uuid, fits: Capacity, op: Op)
    requires Consistent(db, node) && op.SaveOp?
    ensures MailStep(db, node, fits, op, Do(db, node, fits, op))
  {
    if Save(db, node, fits, op.m, op.attempts, op.lastAt).Ok? {
      SaveIs(db, node, op.m, op.attempts, op.lastAt);
      forall m | Outgoing(db, m) ensures Outgoing(Do(db, node, fits, op), m) {
        SaveKeepsOthers(db, node, op.m, op.attempts, op.lastAt, m);
      }
    }
  }

  lemma AdvanceMail(db: Db, node: Uuid, fits: Capacity, op: Op)
    requires Consistent(db, node) && op.AdvanceOp?
    ensures MailStep(db, node, fits, op, Do(db, node, fits, op))
  {
    if Advance(db, node, fits, op.key, op.expected, op.t).Ok? {
      forall m ensures (m in op.t.outbox ==> Tracked(Do(db, node, fits, op), m))
                       && (Outgoing(db, m) ==> Outgoing(Do(db, node, fits, op), m)) {
        ApplyTracks(db, node, op.key, op.expected, op.t, m);
      }
    }
  }

  lemma ConsumeMail(db: Db, node: Uuid, fits: Capacity, op: Op)
    requires Consistent(db, node) && op.ConsumeOp?
    ensures MailStep(db, node, fits, op, Do(db, node, fits, op))
  {
    var r, next := op.r, Do(db, node, fits, op);
    if Applies(db, node, fits, op) != [] {
      ConsumeIsSettle(db, node, fits, r, op.t);
      var msg := db.inbox[(r.from, r.msgId)].digest;
      assert InboxOk(db, node, (r.from, r.msgId), db.inbox[(r.from, r.msgId)]);
      var seen := Remember(db, msg, r.key);
      RememberConsistent(db, node, msg, r.key);
      var applied := ApplyTransition(seen, node, r.key, r.expected, op.t).value;
      assert next.delivery == applied.delivery && next.outbox == applied.outbox;
      forall m ensures (m in op.t.outbox ==> Tracked(next, m)) && (Outgoing(db, m) ==> Outgoing(next, m)) {
        assert Outgoing(db, m) ==> Outgoing(seen, m);
        ApplyTransitionTracks(db, node, msg, r.key, op.t, m);
      }
    } else {
      assert next.delivery == db.delivery && next.outbox == db.outbox;
    }
  }

  /** Dedup entries and mail are independent; the new entry may name a state that is only being created. */
  lemma RememberConsistent(db: Db, node: Uuid, msg: Msg, key: Key)
    requires Consistent(db, node)
    ensures Remember(db, msg, key) == db.(dedup := Remember(db, msg, key).dedup)
  {
  }

  lemma ApplyTransitionTracks(db: Db, node: Uuid, msg: Msg, key: Key, t: Transition, m: Msg)
    requires Consistent(db, node) && ApplyTransition(Remember(db, msg, key), node, key, Revision(db, key), t).Ok?
    ensures var next := ApplyTransition(Remember(db, msg, key), node, key, Revision(db, key), t).value;
            (m in t.outbox ==> Tracked(next, m)) && (Outgoing(db, m) ==> Outgoing(next, m))
  {
    var d := Remember(db, msg, key).dedup;
    RememberConsistent(db, node, msg, key);
    ApplyIgnoresDedup(db, node, key, Revision(db, key), t, d);
    ApplyTracks(db, node, key, Revision(db, key), t, m);
  }

  lemma OtherMail(db: Db, node: Uuid, fits: Capacity, op: Op)
    requires Consistent(db, node) && !op.SaveOp? && !op.AdvanceOp? && !op.ConsumeOp?
    ensures MailStep(db, node, fits, op, Do(db, node, fits, op))
  {
  }

  lemma OpMail(db: Db, node: Uuid, fits: Capacity, op: Op)
    requires Consistent(db, node)
    ensures MailStep(db, node, fits, op, Do(db, node, fits, op))
  {
    if op.SaveOp? {
      SaveMail(db, node, fits, op);
    } else if op.AdvanceOp? {
      AdvanceMail(db, node, fits, op);
    } else if op.ConsumeOp? {
      ConsumeMail(db, node, fits, op);
    } else {
      OtherMail(db, node, fits, op);
    }
  }

  // ---- Whole runs ----

  /** This operation of the run put the message out. */
  predicate PutOutAt(node: Uuid, fits: Capacity, ops: seq<Op>, i: nat, m: Msg)
    requires i < |ops|
  {
    m in PutsOut(Run(node, fits, ops[..i]).db, node, fits, ops[i])
  }

  predicate Released(node: Uuid, ops: seq<Op>, m: Msg) {
    exists j :: 0 <= j < |ops| && Releases(node, ops[j], m)
  }

  lemma ReleasedLater(node: Uuid, ops: seq<Op>, k: nat, m: Msg)
    requires k <= |ops| && Released(node, ops[..k], m)
    ensures Released(node, ops, m)
  {
    var j :| 0 <= j < k && Releases(node, ops[..k][j], m);
    assert ops[j] == ops[..k][j];
  }

  /** A stored row was released by a custody frame of its digest, and stamped with the time of one. */
  ghost predicate StoredWereReleased(node: Uuid, ops: seq<Op>, db: Db) {
    forall id :: id in db.delivery && db.delivery[id].stored ==>
      exists j :: 0 <= j < |ops| && Releases(node, ops[j], db.delivery[id].digest)
                  && db.delivery[id].storedAt == Some(ops[j].now) && db.delivery[id].digest.msgId == id
  }

  lemma {:induction false} SaveAllKeepsRows(db: Db, node: Uuid, ms: seq<Msg>)
    ensures var r := SaveAll(db, node, ms);
            r.Ok? ==> forall id :: id in r.value.delivery && r.value.delivery[id].stored ==>
              id in db.delivery && db.delivery[id] == r.value.delivery[id]
    decreases |ms|
  {
    if ms != [] {
      SaveAllKeepsRows(db, node, ms[..|ms| - 1]);
    }
  }

  lemma ApplyKeepsRows(db: Db, node: Uuid, key: Key, revision: int, t: Transition)
    ensures var r := ApplyTransition(db, node, key, revision, t);
            r.Ok? ==> forall id :: id in r.value.delivery && r.value.delivery[id].stored ==>
              id in db.delivery && db.delivery[id] == r.value.delivery[id]
  {
    if ApplyTransition(db, node, key, revision, t).Ok? {
      var put := PutState(db, key, revision + 1, t);
      SaveAllKeepsRows(put, node, t.outbox);
      EffectsKeepMail(SaveAll(put, node, t.outbox).value, key, revision + 1, t.effects);
    }
  }

  /** Only a custody frame stores a row. */
  lemma OnlyFramesStore(db: Db, node: Uuid, fits: Capacity, op: Op, id: Uuid)
    requires Consistent(db, node) && id in Do(db, node, fits, op).delivery && Do(db, node, fits, op).delivery[id].stored
    ensures var row := Do(db, node, fits, op).delivery[id];
            || (id in db.delivery && db.delivery[id] == row)
            || (Releases(node, op, row.digest) && row.storedAt == Some(op.now) && row.digest.msgId == id)
  {
    if op.AdvanceOp? {
      AdvanceStores(db, node, fits, op, id);
    } else if op.ConsumeOp? {
      ConsumeStores(db, node, fits, op, id);
    } else if op.StoredOp? {
      FrameStores(db, node, op, id);
    } else {
      OtherStores(db, node, fits, op, id);
    }
  }

  lemma FrameStores(db: Db, node: Uuid, op: Op, id: Uuid)
    requires Consistent(db, node) && op.StoredOp?
    requires var next := ConfirmStored(db, node, op.from, op.msgId, op.digest, op.now).0;
             id in next.delivery && next.delivery[id].stored
    ensures var row := ConfirmStored(db, node, op.from, op.msgId, op.digest, op.now).0.delivery[id];
            || (id in db.delivery && db.delivery[id] == row)
            || (Releases(node, op, row.digest) && row.storedAt == Some(op.now) && row.digest.msgId == id)
  {
    if id in db.delivery {
      assert DeliveryOk(db, node, id, db.delivery[id]);
    }
  }

  lemma OtherStores(db: Db, node: Uuid, fits: Capacity, op: Op, id: Uuid)
    requires op.SaveOp? || op.ReceiveOp? || op.PruneOp? || op.CompleteOp?
    requires id in Do(db, node, fits, op).delivery && Do(db, node, fits, op).delivery[id].stored
    ensures id in db.delivery && db.delivery[id] == Do(db, node, fits, op).delivery[id]
  {
  }

  lemma AdvanceStores(db: Db, node: Uuid, fits: Capacity, op: Op, id: Uuid)
    requires op.AdvanceOp? && id in Do(db, node, fits, op).delivery && Do(db, node, fits, op).delivery[id].stored
    ensures id in db.delivery && db.delivery[id] == Do(db, node, fits, op).delivery[id]
  {
    ApplyKeepsRows(db, node, op.key, op.expected, op.t);
  }

  lemma ConsumeStores(db: Db, node: Uuid, fits: Capacity, op: Op, id: Uuid)
    requires op.ConsumeOp? && id in Do(db, node, fits, op).delivery && Do(db, node, fits, op).delivery[id].stored
    ensures id in db.delivery && db.delivery[id] == Do(db, node, fits, op).delivery[id]
  {
    if Applies(db, node, fits, op) != [] {
      var r := op.r;
      ConsumeIsSettle(db, node, fits, r, op.t);
      ApplyKeepsRows(Remember(db, db.inbox[(r.from, r.msgId)].digest, r.key), node, r.key, r.expected, op.t);
    } else {
      assert Do(db, node, fits, op).delivery == db.delivery;
    }
  }

  lemma {:induction false} RunStored(node: Uuid, fits: Capacity, ops: seq<Op>)
    ensures StoredWereReleased(node, ops, Run(node, fits, ops).db)
    decreases |ops|
  {
    if ops != [] {
      var front, last := ops[..|ops| - 1], ops[|ops| - 1];
      var db, next := Run(node, fits, front).db, Run(node, fits, ops).db;
      RunStored(node, fits, front);
      RunConsistent(node, fits, front);
      forall id | id in next.delivery && next.delivery[id].stored
        ensures exists j :: 0 <= j < |ops| && Releases(node, ops[j], next.delivery[id].digest)
                  && next.delivery[id].storedAt == Some(ops[j].now) && next.delivery[id].digest.msgId == id
      {
        OnlyFramesStore(db, node, fits, last, id);
        if id in db.delivery && db.delivery[id] == next.delivery[id] {
          var j :| 0 <= j < |front| && Releases(node, front[j], db.delivery[id].digest)
                   && db.delivery[id].storedAt == Some(front[j].now) && db.delivery[id].digest.msgId == id;
          assert ops[j] == front[j];
        }
      }
    }
  }

  /**
   * In every run: each message that was saved, or put out by a committed transition, waits with its payload in the
   * outbox until a custody frame of its own digest releases it; failed commits, restarts of the tables, further
   * transitions and pruning never lose it.
   */
  lemma {:induction false} PutOutStaysOut(node: Uuid, fits: Capacity, ops: seq<Op>, i: nat, m: Msg)
    requires i < |ops| && PutOutAt(node, fits, ops, i, m)
    ensures Outgoing(Run(node, fits, ops).db, m) || Released(node, ops, m)
    decreases |ops|
  {
    var front, last := ops[..|ops| - 1], ops[|ops| - 1];
    if i == |ops| - 1 {
      PutOutNow(node, fits, ops, m);
    } else {
      assert ops[..i] == front[..i];
      PutOutStaysOut(node, fits, front, i, m);
      if Released(node, front, m) {
        ReleasedLater(node, ops, |ops| - 1, m);
      } else {
        StaysOutOnce(node, fits, ops, m);
      }
    }
  }

  lemma {:induction false} PutOutNow(node: Uuid, fits: Capacity, ops: seq<Op>, m: Msg)
    requires ops != [] && PutOutAt(node, fits, ops, |ops| - 1, m)
    ensures Outgoing(Run(node, fits, ops).db, m) || Released(node, ops, m)
  {
    var front := ops[..|ops| - 1];
    RunConsistent(node, fits, front);
    OpMail(Run(node, fits, front).db, node, fits, ops[|ops| - 1]);
    RunStored(node, fits, ops);
  }

  lemma {:induction false} StaysOutOnce(node: Uuid, fits: Capacity, ops: seq<Op>, m: Msg)
    requires ops != [] && Outgoing(Run(node, fits, ops[..|ops| - 1]).db, m)
    ensures Outgoing(Run(node, fits, ops).db, m) || Released(node, ops, m)
  {
    var front := ops[..|ops| - 1];
    RunConsistent(node, fits, front);
    OpMail(Run(node, fits, front).db, node, fits, ops[|ops| - 1]);
  }

  /** And it is released exactly by such a frame: a stored row means that the run holds one. */
  lemma StoredIffReleased(node: Uuid, fits: Capacity, ops: seq<Op>, id: Uuid)
    requires id in Run(node, fits, ops).db.delivery && Run(node, fits, ops).db.delivery[id].stored
    ensures Released(node, ops, Run(node, fits, ops).db.delivery[id].digest)
  {
    RunStored(node, fits, ops);
  }

  /** The frame of a message that waits releases it, once: stored, stamped with its time, its payload gone. */
  lemma FrameReleases(db: Db, node: Uuid, m: Msg, now: int)
    requires Consistent(db, node) && Tracked(db, m)
    ensures var (next, ok) := ConfirmStored(db, node, node, m.msgId, m, now);
            && ok && m.msgId in next.delivery && next.delivery[m.msgId].stored && m.msgId !in next.outbox
            && next.delivery[m.msgId].digest == m && OthersStay(db, next, m.msgId)
            && next.delivery[m.msgId].storedAt ==
                 (if db.delivery[m.msgId].stored then db.delivery[m.msgId].storedAt else Some(now))
  {
    assert DeliveryOk(db, node, m.msgId, db.delivery[m.msgId]);
  }
}
