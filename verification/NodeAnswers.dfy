/** What each transaction of the node's store answers, and exactly what it leaves in the tables. */
module NodeAnswers {
  import opened Core
  import opened NodeDb

  // ---- Inbox ----

  /** A message for this node is taken in once, waiting with its payload; a second copy is told from a clash. */
  lemma ReceiveIs(db: Db, node: Uuid, fits: Capacity, m: Msg)
    ensures var r := Receive(db, node, fits, m);
            var known, mine := (m.from, m.msgId) in db.inbox, ValidMsg(m) && m.to == node;
            && (r.Ok? && r.value.1.New? ==>
                  && r.value.0.inbox.Keys == db.inbox.Keys + {(m.from, m.msgId)}
                  && r.value.0.inbox - {(m.from, m.msgId)} == db.inbox && r.value.0 == db.(inbox := r.value.0.inbox)
                  && r.value.0.inbox[(m.from, m.msgId)] == InboxRow(m, Some(m), Pending, None, 0) && fits(r.value.0))
            && (r.Ok? && !r.value.1.New? ==> r.value.0 == db)
            && (mine && known ==> r.Ok? && (r.value.1.Repeated? <==> db.inbox[(m.from, m.msgId)].digest == m))
            && (mine && !known ==> (if r.Ok? then r.value.1.New? else r.error == "FULL"))
            && (!mine ==> r.Err?)
  {
  }

  /** A message that fits is never refused. */
  lemma ReceiveTakes(db: Db, node: Uuid, fits: Capacity, m: Msg)
    requires ValidMsg(m) && m.to == node && (m.from, m.msgId) !in db.inbox
    requires fits(db.(inbox := db.inbox[(m.from, m.msgId) := InboxRow(m, Some(m), Pending, None, 0)]))
    ensures Receive(db, node, fits, m).Ok? && Receive(db, node, fits, m).value.1.New?
  {
  }

  // ---- Effects ----

  /** The intent is on record, pending, under that state and revision. */
  predicate Intended(db: Db, key: Key, revision: int, e: Effect) {
    e.id in db.effects && db.effects[e.id] == EffectRow(key, revision, e.kind, e.bytes, false)
  }

  /** Every effect of a transition is recorded, none twice, and older intents stay as they are. */
  lemma {:induction false} EffectsAre(db: Db, key: Key, revision: int, es: seq<Effect>)
    requires AddEffects(db, key, revision, es).Ok?
    ensures var next := AddEffects(db, key, revision, es).value;
            && next == db.(effects := next.effects)
            && (forall e :: e in es ==> Intended(next, key, revision, e) && e.id !in db.effects)
            && (forall i, j :: 0 <= i < j < |es| ==> es[i].id != es[j].id)
            && (forall id :: id in db.effects ==> id in next.effects && next.effects[id] == db.effects[id])
    decreases |es|
  {
    if es != [] {
      var front, last := es[..|es| - 1], es[|es| - 1];
      EffectsAre(db, key, revision, front);
      assert es == front + [last];
      forall i | 0 <= i < |front| ensures es[i].id != last.id {
        assert front[i] in front && Intended(AddEffects(db, key, revision, front).value, key, revision, front[i]);
      }
    }
  }

  /** Only the pending intent of this state and revision is completed, current unless superseded ones are allowed. */
  lemma CompleteIff(db: Db, id: Key, key: Key, revision: int, allow: bool)
    ensures var (next, ok) := CompleteEffect(db, id, key, revision, allow);
            && (ok <==> id in db.effects && !db.effects[id].done && db.effects[id].stateKey == key
                        && db.effects[id].revision == revision && (allow || Revision(db, key) == revision))
            && (!ok ==> next == db)
            && (ok ==> next.effects == db.effects[id := db.effects[id].(done := true)]
                       && next == db.(effects := next.effects))
  {
  }

  // ---- Transitions ----

  /** The new value is in place under the next revision, its intents recorded, and other states are as they were. */
  ghost predicate Advanced(db: Db, next: Db, key: Key, revision: int, t: Transition) {
    && key in next.state && next.state[key] == StateRow(revision + 1, t.state, t.bytes)
    && next.state - {key} == db.state - {key}
    && (forall e :: e in t.effects ==> Intended(next, key, revision + 1, e))
    && (forall id :: id in db.effects ==> id in next.effects && next.effects[id] == db.effects[id])
  }

  lemma {:induction false} SavesKeepRest(db: Db, node: Uuid, ms: seq<Msg>)
    ensures var r := SaveAll(db, node, ms);
            r.Ok? ==> r.value == db.(delivery := r.value.delivery, outbox := r.value.outbox)
    decreases |ms|
  {
    if ms != [] {
      SavesKeepRest(db, node, ms[..|ms| - 1]);
    }
  }

  lemma TransitionIs(db: Db, node: Uuid, key: Key, revision: int, t: Transition)
    requires ApplyTransition(db, node, key, revision, t).Ok?
    ensures var next := ApplyTransition(db, node, key, revision, t).value;
            Advanced(db, next, key, revision, t) && next.inbox == db.inbox && next.dedup == db.dedup
  {
    var put := PutState(db, key, revision + 1, t);
    SavesKeepRest(put, node, t.outbox);
    EffectsAre(SaveAll(put, node, t.outbox).value, key, revision + 1, t.effects);
  }

  /** A transition commits exactly at the revision its caller saw; otherwise it is stale and nothing changes. */
  lemma AdvanceIs(db: Db, node: Uuid, fits: Capacity, key: Key, expected: nat, t: Transition)
    ensures var r := Advance(db, node, fits, key, expected, t);
            && (r.Ok? ==> ValidKey(key) && Revision(db, key) == expected && fits(r.value)
                          && Advanced(db, r.value, key, expected, t) && r.value.inbox == db.inbox)
            && (ValidKey(key) && Revision(db, key) != expected ==> r == Err("STALE"))
            && (var next := ApplyTransition(db, node, key, expected, t);
                ValidKey(key) && Revision(db, key) == expected && next.Ok? && fits(next.value) ==> r == next)
  {
    if ApplyTransition(db, node, key, expected, t).Ok? {
      TransitionIs(db, node, key, expected, t);
    }
  }

  // ---- Consuming ----

  /** The row is decided: its payload released, the state and revision it was decided at on record. */
  predicate DecidedAs(db: Db, next: Db, r: Request, decision: Decision, revision: int) {
    && (r.from, r.msgId) in db.inbox && (r.from, r.msgId) in next.inbox
    && next.inbox[(r.from, r.msgId)] ==
        InboxRow(db.inbox[(r.from, r.msgId)].digest, None, decision, Some(r.key), revision)
    && next.inbox - {(r.from, r.msgId)} == db.inbox - {(r.from, r.msgId)}
  }

  /**
   * Consuming a pending message at the revision its caller saw: applied with its transition if R1 has not seen its
   * identity, else decided as a duplicate of the same body or a conflict, with the state left alone.
   */
  lemma ConsumeIs(db: Db, node: Uuid, fits: Capacity, r: Request, t: Transition)
    requires Ready(db, r)
    ensures var c, m := Consume(db, node, fits, r, t), db.inbox[(r.from, r.msgId)].digest;
            var first := !UsesR1Dedup(m.kind) || KeyOf(m, r.key) !in db.dedup;
            && (c.Ok? && first ==>
                  && c.value.1 == Decided(Applied, r.expected + 1)
                  && DecidedAs(db, c.value.0, r, Applied, r.expected + 1)
                  && Advanced(db, c.value.0, r.key, r.expected, t)
                  && (UsesR1Dedup(m.kind) ==> KeyOf(m, r.key) in c.value.0.dedup
                                              && c.value.0.dedup[KeyOf(m, r.key)] == m.body))
            && (c.Ok? && !first ==>
                  var d := if db.dedup[KeyOf(m, r.key)] == m.body then Duplicate else Conflict;
                  && c.value.1 == Decided(d, r.expected) && DecidedAs(db, c.value.0, r, d, r.expected)
                  && c.value.0 == db.(inbox := c.value.0.inbox))
  {
    var m := db.inbox[(r.from, r.msgId)].digest;
    if Judge(db, m, r.key).Applied? && ApplyTransition(Remember(db, m, r.key), node, r.key, r.expected, t).Ok? {
      TransitionIs(Remember(db, m, r.key), node, r.key, r.expected, t);
    }
  }

  /** A message decided before is answered as it was decided, by its own state only, and nothing changes. */
  lemma ConsumeAgain(db: Db, node: Uuid, fits: Capacity, r: Request, t: Transition)
    requires ValidKey(r.key) && !Ready(db, r)
    ensures var c := Consume(db, node, fits, r, t);
            && (c.Ok? ==> c.value.0 == db)
            && ((r.from, r.msgId) !in db.inbox <==> c.Ok? && c.value.1.Missing?)
            && ((r.from, r.msgId) in db.inbox ==>
                  var row := db.inbox[(r.from, r.msgId)];
                  && (row.decision.Pending? ==> c == Err("STALE"))
                  && (!row.decision.Pending? && row.stateKey == Some(r.key) ==>
                        c.Ok? && c.value.1 == Decided(row.decision, row.revision))
                  && (!row.decision.Pending? && row.stateKey != Some(r.key) ==> c == Err("CONFLICT")))
  {
  }

  // ---- Retention ----

  /** Pruning drops exactly the rows stored at or before the cutoff; what waits is never dropped. */
  lemma PruneIs(db: Db, cutoff: int)
    ensures var next := Prune(db, cutoff);
            && next == db.(delivery := next.delivery)
            && (forall id :: id in next.delivery <==>
                  id in db.delivery && !(var r := db.delivery[id];
                                         r.stored && r.storedAt.Some? && r.storedAt.value <= cutoff))
            && (forall id :: id in next.delivery ==> next.delivery[id] == db.delivery[id])
  {
  }

  // ---- Capacity ----

  /** What can be saved and fits is saved; a full store says so and keeps its tables. */
  lemma SaveTakes(db: Db, node: Uuid, fits: Capacity, m: Msg, attempts: nat, lastAt: nat)
    ensures var e, r := SaveEntry(db, node, m, attempts, lastAt), Save(db, node, fits, m, attempts, lastAt);
            r == if e.Ok? && !fits(e.value) then Err("FULL") else e
  {
  }

  /** A ready message is always decided, unless its transition fails or the tables do not fit. */
  lemma ConsumeTakes(db: Db, node: Uuid, fits: Capacity, r: Request, t: Transition)
    requires Ready(db, r)
    ensures var m := db.inbox[(r.from, r.msgId)].digest;
            var first := !UsesR1Dedup(m.kind) || KeyOf(m, r.key) !in db.dedup;
            var next := ApplyTransition(Remember(db, m, r.key), node, r.key, r.expected, t);
            var c := Consume(db, node, fits, r, t);
            && (c.Ok? ==> fits(c.value.0) && (first ==> next.Ok?))
            && (c.Err? ==> (first && next.Err? && c.error == next.error) || c.error == "FULL")
            && (var settled := Settle(db, node, r, m, t);
                (settled.Ok? <==> (first ==> next.Ok?)) && (settled.Ok? && fits(settled.value) ==> c.Ok?))
  {
  }
}
