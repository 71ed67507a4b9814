/** The node runtime store as it runs: each call is one transaction on the tables, committed or rolled back. */
module NodeStore {
  import opened Core
  import opened Tables
  import opened NodeDb

  /** Add up the rows of a table in any order. */
  method Total<K(!new, ==), V(!new)>(m: map<K, V>, size: (K, V) -> nat) returns (total: nat)
    ensures total == Sum(m, size)
  {
    total := 0;
    var rest := m;
    while rest != map[]
      invariant total + Sum(rest, size) == Sum(m, size)
      decreases |rest|
    {
      var k :| k in rest;
      SumRemove(rest, k, size);
      total := total + size(k, rest[k]);
      rest := rest - {k};
    }
  }

  method Fits(db: Db, q: Limits) returns (fits: bool)
    ensures fits == Budget(q)(db)
  {
    var a := Total(db.inbox, InboxSize);
    var b := Total(db.delivery, DeliverySize);
    var c := Total(db.outbox, OutboxSize);
    var d := Total(db.state, StateSize);
    var e := Total(db.dedup, DedupSize);
    var f := Total(db.effects, EffectSize);
    fits := Entries(db) <= q.maxEntries && a + b + c + d + e + f <= q.maxBytes;
  }

  /** `draft` is the open transaction: it becomes `db` on commit and is dropped on an error. */
  class Store {
    const node: Uuid
    const limits: Limits
    const retention: Option<nat>
    var db: Db
    var draft: Db

    ghost predicate Valid()
      reads this
    {
      Consistent(db, node)
    }

    constructor (node: Uuid, limits: Limits, retention: Option<nat>)
      ensures Valid() && db == EMPTY && this.node == node && this.limits == limits && this.retention == retention
    {
      this.node, this.limits, this.retention, this.db, this.draft := node, limits, retention, EMPTY, EMPTY;
    }

    /** Save the outgoing messages one after another; the first failure ends it. */
    method SaveMany(ms: seq<Msg>) returns (error: Option<string>)
      modifies this`draft
      ensures SaveAll(old(draft), node, ms) == if error.None? then Ok(draft) else Err(error.value)
    {
      ghost var start := draft;
      for i := 0 to |ms|
        invariant SaveAll(start, node, ms[..i]) == Ok(draft)
      {
        SaveStep(start, node, ms, i);
        var saved := SaveEntry(draft, node, ms[i], 0, 0);
        if saved.Err? {
          SaveFails(start, node, ms, i + 1);
          return Some(saved.error);
        }
        draft := saved.value;
      }
      assert ms[..|ms|] == ms;
      return None;
    }

    /** Record the effect intents one after another; the first failure ends it. */
    method AddMany(key: Key, revision: int, es: seq<Effect>) returns (error: Option<string>)
      modifies this`draft
      ensures AddEffects(old(draft), key, revision, es) == if error.None? then Ok(draft) else Err(error.value)
    {
      ghost var start := draft;
      for i := 0 to |es|
        invariant AddEffects(start, key, revision, es[..i]) == Ok(draft)
      {
        EffectStep(start, key, revision, es, i);
        var added := AddEffect(draft, key, revision, es[i]);
        if added.Err? {
          EffectsFail(start, key, revision, es, i + 1);
          return Some(added.error);
        }
        draft := added.value;
      }
      assert es[..|es|] == es;
      return None;
    }

    /** A whole transition inside the open transaction. */
    method Transit(key: Key, revision: int, t: Transition) returns (error: Option<string>)
      modifies this`draft
      ensures ApplyTransition(old(draft), node, key, revision, t) == if error.None? then Ok(draft) else Err(error.value)
    {
      if !Safe(revision + 1) {
        return Some("TypeError");
      }
      draft := PutState(draft, key, revision + 1, t);
      error := SaveMany(t.outbox);
      if error.None? {
        error := AddMany(key, revision + 1, t.effects);
      }
    }

    method Save(m: Msg, attempts: nat, lastAt: nat) returns (r: Result<()>)
      requires Valid()
      modifies this
      ensures Valid()
      ensures var s := NodeDb.Save(old(db), node, Budget(limits), m, attempts, lastAt);
              if s.Ok? then r.Ok? && db == s.value else r == Err(s.error) && db == old(db)
    {
      SaveEntryKeeps(db, node, m, attempts, lastAt);
      var saved := SaveEntry(db, node, m, attempts, lastAt);
      if saved.Err? {
        return Err(saved.error);
      }
      var fits := Fits(saved.value, limits);
      if !fits {
        return Err("FULL");
      }
      db := saved.value;
      return Ok(());
    }

    method Advance(key: Key, expected: nat, t: Transition) returns (r: Result<int>)
      requires Valid()
      modifies this
      ensures Valid()
      ensures var s := NodeDb.Advance(old(db), node, Budget(limits), key, expected, t);
              if s.Ok? then r == Ok(expected + 1) && db == s.value else r == Err(s.error) && db == old(db)
    {
      if !ValidKey(key) {
        return Err("TypeError");
      }
      if Revision(db, key) != expected {
        return Err("STALE");
      }
      ApplyKeeps(db, node, key, expected, t);
      draft := db;
      var error := Transit(key, expected, t);
      if error.Some? {
        return Err(error.value);
      }
      var fits := Fits(draft, limits);
      if !fits {
        return Err("FULL");
      }
      db := draft;
      return Ok(expected + 1);
    }

    /** The transaction body for a pending message. */
    method Rule(request: Request, m: Msg, t: Transition) returns (error: Option<string>)
      modifies this`draft
      ensures Settle(old(draft), node, request, m, t) == if error.None? then Ok(draft) else Err(error.value)
    {
      var judged := Judge(draft, m, request.key);
      if !judged.Applied? {
        draft := Decide(draft, request, judged, request.expected);
        return None;
      }
      draft := Remember(draft, m, request.key);
      error := Transit(request.key, request.expected, t);
      if error.None? {
        draft := Decide(draft, request, Applied, request.expected + 1);
      }
    }

    /** A pending message at the expected revision: decided and committed, or refused with nothing changed. */
    method ConsumePending(request: Request, m: Msg, t: Transition) returns (error: Option<string>)
      modifies this
      ensures var s := Settle(old(db), node, request, m, t);
              if s.Ok? && Budget(limits)(s.value) then error.None? && db == s.value
              else error == Some(if s.Ok? then "FULL" else s.error) && db == old(db)
    {
      draft := db;
      error := Rule(request, m, t);
      if error.None? {
        var fits := Fits(draft, limits);
        if !fits {
          return Some("FULL");
        }
        db := draft;
      }
    }

    /** The transaction: its answer, and the tables it leaves. */
    method Transact(request: Request, t: Transition) returns (r: Result<Consumed>)
      modifies this
      ensures var s := NodeDb.Consume(old(db), node, Budget(limits), request, t);
              if s.Ok? then r == Ok(s.value.1) && db == s.value.0 else r == Err(s.error) && db == old(db)
    {
      if !Ready(db, request) {
        return Answer(db, request);
      }
      var m := db.inbox[(request.from, request.msgId)].digest;
      var judged := Judge(db, m, request.key);
      var error := ConsumePending(request, m, t);
      if error.Some? {
        return Err(error.value);
      }
      return Ok(Decided(judged, if judged.Applied? then request.expected + 1 else request.expected));
    }

    method Consume(request: Request, t: Transition) returns (r: Result<Consumed>)
      requires Valid()
      modifies this
      ensures Valid()
      ensures var s := NodeDb.Consume(old(db), node, Budget(limits), request, t);
              if s.Ok? then r == Ok(s.value.1) && db == s.value.0 else r == Err(s.error) && db == old(db)
    {
      ConsumeKeeps(db, node, Budget(limits), request, t);
      r := Transact(request, t);
    }

    /** A full inbox is an answer, not an error. */
    method Receive(m: Msg) returns (r: Result<Received>)
      requires Valid()
      modifies this
      ensures Valid()
      ensures var s := NodeDb.Receive(old(db), node, Budget(limits), m);
              if s.Ok? then r == Ok(s.value.1) && db == s.value.0 else r == Err(s.error) && db == old(db)
    {
      ReceiveKeeps(db, node, Budget(limits), m);
      if !ValidMsg(m) || m.to != node {
        return Err("TypeError");
      }
      if (m.from, m.msgId) in db.inbox {
        return Ok(if db.inbox[(m.from, m.msgId)].digest == m then Repeated else Clash);
      }
      var next := db.(inbox := db.inbox[(m.from, m.msgId) := InboxRow(m, Some(m), Pending, None, 0)]);
      var fits := Fits(next, limits);
      if !fits {
        return Err("FULL");
      }
      db := next;
      return Ok(New);
    }

    method Stored(from: Uuid, msgId: Uuid, digest: Msg, now: int) returns (ok: bool)
      requires Valid()
      modifies this
      ensures Valid() && (db, ok) == ConfirmStored(old(db), node, from, msgId, digest, now)
    {
      ConfirmKeeps(db, node, from, msgId, digest, now);
      if from != node || msgId !in db.delivery || db.delivery[msgId].digest != digest {
        return false;
      }
      var row := db.delivery[msgId];
      if !row.stored {
        row := row.(stored := true, storedAt := Some(now));
      }
      db := db.(delivery := db.delivery[msgId := row], outbox := db.outbox - {msgId});
      return true;
    }

    method Prune(now: int)
      requires Valid()
      modifies this
      ensures Valid()
      ensures db == if retention.None? then old(db) else NodeDb.Prune(old(db), now - retention.value)
    {
      if retention.Some? {
        var cutoff := now - retention.value;
        PruneKeeps(db, node, cutoff);
        db := db.(delivery := map id | id in db.delivery && !Reclaimable(db.delivery[id], cutoff) :: db.delivery[id]);
      }
    }

    method Complete(id: Key, key: Key, revision: int, allowSuperseded: bool) returns (ok: bool)
      requires Valid()
      modifies this
      ensures Valid() && (db, ok) == CompleteEffect(old(db), id, key, revision, allowSuperseded)
    {
      CompleteKeeps(db, node, id, key, revision, allowSuperseded);
      ok := id in db.effects && db.effects[id].stateKey == key && db.effects[id].revision == revision &&
          !db.effects[id].done;
      if ok && !allowSuperseded {
        ok := Revision(db, key) == revision;
      }
      if ok {
        db := db.(effects := db.effects[id := db.effects[id].(done := true)]);
      }
    }
  }

  // ---- Loops against their folds ----

  lemma SaveStep(db: Db, node: Uuid, ms: seq<Msg>, i: nat)
    requires i < |ms| && SaveAll(db, node, ms[..i]).Ok?
    ensures SaveAll(db, node, ms[..i + 1]) == SaveEntry(SaveAll(db, node, ms[..i]).value, node, ms[i], 0, 0)
  {
    assert ms[..i + 1][..i] == ms[..i];
  }

  /** A failed prefix fails the whole. */
  lemma {:induction false} SaveFails(db: Db, node: Uuid, ms: seq<Msg>, i: nat)
    requires i <= |ms| && SaveAll(db, node, ms[..i]).Err?
    ensures SaveAll(db, node, ms) == SaveAll(db, node, ms[..i])
    decreases |ms| - i
  {
    if i == |ms| {
      assert ms[..i] == ms;
    } else {
      assert ms[..i + 1][..i] == ms[..i];
      SaveFails(db, node, ms, i + 1);
    }
  }

  lemma EffectStep(db: Db, key: Key, revision: int, es: seq<Effect>, i: nat)
    requires i < |es| && AddEffects(db, key, revision, es[..i]).Ok?
    ensures AddEffects(db, key, revision, es[..i + 1]) ==
            AddEffect(AddEffects(db, key, revision, es[..i]).value, key, revision, es[i])
  {
    assert es[..i + 1][..i] == es[..i];
  }

  lemma {:induction false} EffectsFail(db: Db, key: Key, revision: int, es: seq<Effect>, i: nat)
    requires i <= |es| && AddEffects(db, key, revision, es[..i]).Err?
    ensures AddEffects(db, key, revision, es) == AddEffects(db, key, revision, es[..i])
    decreases |es| - i
  {
    if i == |es| {
      assert es[..i] == es;
    } else {
      assert es[..i + 1][..i] == es[..i];
      EffectsFail(db, key, revision, es, i + 1);
    }
  }
}
