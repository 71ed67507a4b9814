/** The nodes of the custody chain are the nodes' runtime stores: every store operation is a step of the chain. */
module CustodyNodes {
  import opened Core
  import D = NodeDb
  import R = NodeRuns
  import M = NodeMail
  import T = CustodyTable
  import C = CustodyChain

  /** The encoding of envelopes: the parties and the identity are read off it, and no two envelopes share one. */
  ghost predicate Encoding(pk: D.Msg -> T.Packet) {
    && (forall m :: pk(m).from == m.from && pk(m).msgId == m.msgId && pk(m).to == m.to)
    && forall a, b :: pk(a) == pk(b) ==> a == b
  }

  /** What the chain sees of a node's tables. */
  function NodeOf(db: D.Db, pk: D.Msg -> T.Packet): C.Node {
    C.Node(map id | id in db.delivery :: C.Tracked(pk(db.delivery[id].digest), db.delivery[id].stored),
           map k | k in db.inbox :: pk(db.inbox[k].digest))
  }

  function SaveEach(n: C.Node, x: Uuid, ms: seq<D.Msg>, pk: D.Msg -> T.Packet): C.Node {
    if ms == [] then n else C.SaveTo(SaveEach(n, x, ms[..|ms| - 1], pk), x, pk(ms[|ms| - 1]))
  }

  lemma SaveIsChain(db: D.Db, x: Uuid, m: D.Msg, attempts: nat, lastAt: nat, pk: D.Msg -> T.Packet)
    requires D.SaveEntry(db, x, m, attempts, lastAt).Ok? && Encoding(pk)
    ensures NodeOf(D.SaveEntry(db, x, m, attempts, lastAt).value, pk) == C.SaveTo(NodeOf(db, pk), x, pk(m))
  {
    var next := D.SaveEntry(db, x, m, attempts, lastAt).value;
    if m.msgId in db.delivery {
      Alike(db, next, pk);
    } else {
      TracksOne(db, next, m, pk);
    }
  }

  lemma TracksOne(db: D.Db, next: D.Db, m: D.Msg, pk: D.Msg -> T.Packet)
    requires next.delivery == db.delivery[m.msgId := D.DeliveryRow(m, false, None)] && next.inbox == db.inbox
    ensures NodeOf(next, pk).inbox == NodeOf(db, pk).inbox
    ensures NodeOf(next, pk).delivery == NodeOf(db, pk).delivery[m.msgId := C.Tracked(pk(m), false)]
  {
  }

  lemma {:induction false} SaveAllIsChain(db: D.Db, x: Uuid, ms: seq<D.Msg>, pk: D.Msg -> T.Packet)
    requires D.SaveAll(db, x, ms).Ok? && Encoding(pk)
    ensures NodeOf(D.SaveAll(db, x, ms).value, pk) == SaveEach(NodeOf(db, pk), x, ms, pk)
    decreases |ms|
  {
    if ms != [] {
      SaveAllIsChain(db, x, ms[..|ms| - 1], pk);
      SaveIsChain(D.SaveAll(db, x, ms[..|ms| - 1]).value, x, ms[|ms| - 1], 0, 0, pk);
    }
  }

  /** Tables that agree on mail and inbox identities look alike to the chain. */
  lemma Alike(db: D.Db, next: D.Db, pk: D.Msg -> T.Packet)
    requires next.delivery == db.delivery && next.inbox.Keys == db.inbox.Keys
    requires forall k :: k in db.inbox ==> next.inbox[k].digest == db.inbox[k].digest
    ensures NodeOf(next, pk) == NodeOf(db, pk)
  {
  }

  lemma TransitionIsChain(db: D.Db, x: Uuid, key: D.Key, revision: int, t: D.Transition, pk: D.Msg -> T.Packet)
    requires D.ApplyTransition(db, x, key, revision, t).Ok? && Encoding(pk)
    ensures D.ApplyTransition(db, x, key, revision, t).value.inbox == db.inbox
    ensures NodeOf(D.ApplyTransition(db, x, key, revision, t).value, pk) == SaveEach(NodeOf(db, pk), x, t.outbox, pk)
  {
    var put := D.PutState(db, key, revision + 1, t);
    Alike(db, put, pk);
    SaveAllIsChain(put, x, t.outbox, pk);
    SavesKeepInbox(put, x, t.outbox);
    var saved := D.SaveAll(put, x, t.outbox).value;
    EffectsKeepInbox(saved, key, revision + 1, t.effects);
    M.EffectsKeepMail(saved, key, revision + 1, t.effects);
    Alike(saved, D.AddEffects(saved, key, revision + 1, t.effects).value, pk);
  }

  lemma {:induction false} SavesKeepInbox(db: D.Db, x: Uuid, ms: seq<D.Msg>)
    ensures var r := D.SaveAll(db, x, ms); r.Ok? ==> r.value.inbox == db.inbox
    decreases |ms|
  {
    if ms != [] {
      SavesKeepInbox(db, x, ms[..|ms| - 1]);
    }
  }

  lemma {:induction false} EffectsKeepInbox(db: D.Db, key: D.Key, revision: int, es: seq<D.Effect>)
    ensures var r := D.AddEffects(db, key, revision, es); r.Ok? ==> r.value.inbox == db.inbox
    decreases |es|
  {
    if es != [] {
      EffectsKeepInbox(db, key, revision, es[..|es| - 1]);
    }
  }

  /** Saving and transitions: what they put out is saved on the chain, in order, and nothing else changes there. */
  lemma OutIsChain(db: D.Db, x: Uuid, fits: D.Capacity, op: R.Op, pk: D.Msg -> T.Packet)
    requires Encoding(pk) && (op.SaveOp? || op.AdvanceOp? || op.ConsumeOp?)
    ensures NodeOf(R.Do(db, x, fits, op), pk) == SaveEach(NodeOf(db, pk), x, M.PutsOut(db, x, fits, op), pk)
  {
    if op.SaveOp? {
      SaveOutIsChain(db, x, fits, op, pk);
    } else if op.AdvanceOp? {
      if D.Advance(db, x, fits, op.key, op.expected, op.t).Ok? {
        TransitionIsChain(db, x, op.key, op.expected, op.t, pk);
      }
    } else {
      ConsumeIsChain(db, x, fits, op, pk);
    }
  }

  lemma SaveOutIsChain(db: D.Db, x: Uuid, fits: D.Capacity, op: R.Op, pk: D.Msg -> T.Packet)
    requires Encoding(pk) && op.SaveOp?
    ensures NodeOf(R.Do(db, x, fits, op), pk) == SaveEach(NodeOf(db, pk), x, M.PutsOut(db, x, fits, op), pk)
  {
    if D.Save(db, x, fits, op.m, op.attempts, op.lastAt).Ok? {
      SaveIsChain(db, x, op.m, op.attempts, op.lastAt, pk);
      var one := [op.m];
      assert one[..|one| - 1] == [];
      assert SaveEach(NodeOf(db, pk), x, one[..|one| - 1], pk) == NodeOf(db, pk);
    }
  }

  lemma ConsumeIsChain(db: D.Db, x: Uuid, fits: D.Capacity, op: R.Op, pk: D.Msg -> T.Packet)
    requires Encoding(pk) && op.ConsumeOp?
    ensures NodeOf(R.Do(db, x, fits, op), pk) == SaveEach(NodeOf(db, pk), x, M.PutsOut(db, x, fits, op), pk)
  {
    if R.Applies(db, x, fits, op) != [] {
      AppliedIsChain(db, x, fits, op, pk);
    } else {
      Alike(db, R.Do(db, x, fits, op), pk);
    }
  }

  lemma AppliedIsChain(db: D.Db, x: Uuid, fits: D.Capacity, op: R.Op, pk: D.Msg -> T.Packet)
    requires Encoding(pk) && op.ConsumeOp? && R.Applies(db, x, fits, op) != []
    ensures NodeOf(R.Do(db, x, fits, op), pk) == SaveEach(NodeOf(db, pk), x, op.t.outbox, pk)
  {
    var r, next := op.r, R.Do(db, x, fits, op);
    R.ConsumeIsSettle(db, x, fits, r, op.t);
    var seen := D.Remember(db, db.inbox[(r.from, r.msgId)].digest, r.key);
    Alike(db, seen, pk);
    TransitionIsChain(seen, x, r.key, r.expected, op.t, pk);
    Alike(D.ApplyTransition(seen, x, r.key, r.expected, op.t).value, next, pk);
  }

  /** A custody frame is the chain's, whatever it names. */
  lemma StoredIsChain(db: D.Db, x: Uuid, from: Uuid, msgId: Uuid, digest: D.Msg, now: int, pk: D.Msg -> T.Packet)
    requires Encoding(pk)
    ensures NodeOf(D.ConfirmStored(db, x, from, msgId, digest, now).0, pk)
            == C.Confirm(NodeOf(db, pk), x, from, msgId, pk(digest))
  {
  }

  /** A delivery is taken in, or answered with a receipt, exactly when the chain's node accepts it. */
  lemma ReceiveIsChain(db: D.Db, x: Uuid, fits: D.Capacity, m: D.Msg, pk: D.Msg -> T.Packet)
    requires Encoding(pk) && D.ValidMsg(m)
    ensures var r, n := D.Receive(db, x, fits, m), NodeOf(db, pk);
            var receipt := r.Ok? && !r.value.1.Clash?;
            && (receipt <==> C.Accepts(n, x, pk(m), true, r.Ok?))
            && NodeOf(R.Do(db, x, fits, R.ReceiveOp(m)), pk) == (if receipt then C.TakeIn(n, pk(m)) else n)
  {
    var r := D.Receive(db, x, fits, m);
    if r.Ok? && r.value.1.New? {
      TakesOne(db, r.value.0, m, pk);
    }
  }

  lemma TakesOne(db: D.Db, next: D.Db, m: D.Msg, pk: D.Msg -> T.Packet)
    requires next.delivery == db.delivery
    requires next.inbox == db.inbox[(m.from, m.msgId) := D.InboxRow(m, Some(m), D.Pending, None, 0)]
    ensures NodeOf(next, pk).delivery == NodeOf(db, pk).delivery
    ensures NodeOf(next, pk).inbox == NodeOf(db, pk).inbox[(m.from, m.msgId) := pk(m)]
  {
  }

  /** Retention at the node forgets stored rows only. */
  lemma PruneIsChain(db: D.Db, x: Uuid, cutoff: int, pk: D.Msg -> T.Packet)
    ensures var ids := set id | id in db.delivery && D.Reclaimable(db.delivery[id], cutoff);
            && C.AllStored(NodeOf(db, pk), ids)
            && NodeOf(D.Prune(db, cutoff), pk) == NodeOf(db, pk).(delivery := NodeOf(db, pk).delivery - ids)
  {
  }

  /** The chain may send a message exactly when its payload is in the outbox, and it sends that payload. */
  lemma OutboxIsChain(db: D.Db, x: Uuid, id: Uuid, pk: D.Msg -> T.Packet)
    requires D.Consistent(db, x)
    ensures id in NodeOf(db, pk).delivery && !NodeOf(db, pk).delivery[id].stored <==> id in db.outbox
    ensures id in db.outbox ==> NodeOf(db, pk).delivery[id].packet == pk(db.outbox[id].payload)
  {
    if id in db.delivery {
      assert D.DeliveryOk(db, x, id, db.delivery[id]);
    }
  }
}
