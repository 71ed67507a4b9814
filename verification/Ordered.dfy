/**
 * Insertion-ordered maps, tables in rowid order, and the table diff that commits one map over another.
 */
module Ordered {

  /** Keys in insertion (or rowid) order, and what is stored under them. */
  datatype Table<V> = Table(order: seq<nat>, rows: map<nat, V>)

  predicate Unique(s: seq<nat>) {
    forall i, j :: 0 <= i < j < |s| ==> s[i] != s[j]
  }

  ghost predicate Valid<V>(t: Table<V>) {
    Unique(t.order) && forall k :: k in t.order <==> k in t.rows
  }

  function Empty<V>(): Table<V> {
    Table([], map[])
  }

  /** The members of s that are (not) in ks, in order. */
  function Only(s: seq<nat>, ks: set<nat>): seq<nat> {
    if s == [] then []
    else
      var front := Only(s[..|s| - 1], ks);
      if s[|s| - 1] in ks then front + [s[|s| - 1]] else front
  }

  function Except(s: seq<nat>, ks: set<nat>): seq<nat> {
    if s == [] then []
    else
      var front := Except(s[..|s| - 1], ks);
      if s[|s| - 1] in ks then front else front + [s[|s| - 1]]
  }

  lemma {:induction false} Snoc(s: seq<nat>, k: nat, ks: set<nat>)
    ensures Only(s + [k], ks) == if k in ks then Only(s, ks) + [k] else Only(s, ks)
    ensures Except(s + [k], ks) == if k in ks then Except(s, ks) else Except(s, ks) + [k]
  {
    assert (s + [k])[..|s|] == s;
  }

  /** Setting a present key keeps its place; a new key goes last. */
  function Put<V>(t: Table<V>, k: nat, v: V): Table<V> {
    Table(if k in t.rows then t.order else t.order + [k], t.rows[k := v])
  }

  function Del<V>(t: Table<V>, k: nat): Table<V> {
    Table(Except(t.order, {k}), t.rows - {k})
  }

  lemma {:induction false} OnlyIn(s: seq<nat>, ks: set<nat>)
    ensures forall k :: k in Only(s, ks) <==> k in s && k in ks
    ensures Unique(s) ==> Unique(Only(s, ks))
    decreases |s|
  {
    if s != [] {
      var front, last := s[..|s| - 1], s[|s| - 1];
      assert s == front + [last];
      OnlyIn(front, ks);
      if Unique(s) {
        NotInFront(s);
        AppendUnique(Only(front, ks), last);
      }
    }
  }

  lemma {:induction false} ExceptIn(s: seq<nat>, ks: set<nat>)
    ensures forall k :: k in Except(s, ks) <==> k in s && k !in ks
    ensures Unique(s) ==> Unique(Except(s, ks))
    decreases |s|
  {
    if s != [] {
      var front, last := s[..|s| - 1], s[|s| - 1];
      assert s == front + [last];
      ExceptIn(front, ks);
      if Unique(s) {
        NotInFront(s);
        AppendUnique(Except(front, ks), last);
      }
    }
  }

  lemma {:induction false} NotInFront(s: seq<nat>)
    requires Unique(s) && s != []
    ensures Unique(s[..|s| - 1]) && s[|s| - 1] !in s[..|s| - 1]
  {
  }

  lemma {:induction false} AppendUnique(s: seq<nat>, k: nat)
    requires Unique(s) && k !in s
    ensures Unique(s + [k])
  {
  }

  lemma {:induction false} PutValid<V>(t: Table<V>, k: nat, v: V)
    requires Valid(t)
    ensures Valid(Put(t, k, v))
  {
    if k !in t.rows {
      AppendUnique(t.order, k);
    }
  }

  lemma {:induction false} DelValid<V>(t: Table<V>, k: nat)
    requires Valid(t)
    ensures Valid(Del(t, k))
  {
    ExceptIn(t.order, {k});
  }

  // ---- The diff ----

  /** Kept keys come first and in their old order; new keys follow. */
  predicate OrderKept<V>(before: Table<V>, after: Table<V>) {
    after.order == Only(before.order, after.rows.Keys) + Except(after.order, before.rows.Keys)
  }

  function RemoveAll<V>(t: Table<V>, ks: seq<nat>): Table<V> {
    if ks == [] then t else Del(RemoveAll(t, ks[..|ks| - 1]), ks[|ks| - 1])
  }

  function PutAll<V>(t: Table<V>, after: Table<V>, ks: seq<nat>): Table<V>
    requires forall k :: k in ks ==> k in after.rows
  {
    if ks == [] then t
    else
      assert ks[|ks| - 1] in ks;
      Put(PutAll(t, after, ks[..|ks| - 1]), ks[|ks| - 1], after.rows[ks[|ks| - 1]])
  }

  /** The table after committing `after` over `before`: removals first, then upserts in the new order. */
  function Diffed<V>(before: Table<V>, after: Table<V>): Table<V>
    requires Valid(after)
  {
    PutAll(RemoveAll(before, Except(before.order, after.rows.Keys)), after, after.order)
  }

  lemma {:induction false} ExceptTwice(s: seq<nat>, a: set<nat>, b: set<nat>)
    ensures Except(Except(s, a), b) == Except(s, a + b)
    decreases |s|
  {
    if s != [] {
      ExceptTwice(s[..|s| - 1], a, b);
      Snoc(Except(s[..|s| - 1], a), s[|s| - 1], b);
    }
  }

  lemma {:induction false} ExceptNothing(s: seq<nat>, a: set<nat>)
    requires forall k :: k in s ==> k !in a
    ensures Except(s, a) == s
    decreases |s|
  {
    if s != [] {
      assert s[|s| - 1] in s;
      ExceptNothing(s[..|s| - 1], a);
    }
  }

  function Members(ks: seq<nat>): set<nat> {
    set k | k in ks
  }

  lemma {:induction false} RemoveAllIs<V>(t: Table<V>, ks: seq<nat>)
    ensures RemoveAll(t, ks) == Table(Except(t.order, Members(ks)), t.rows - Members(ks))
    decreases |ks|
  {
    if ks == [] {
      ExceptNothing(t.order, {});
      assert Members(ks) == {};
      assert t.rows - {} == t.rows;
    } else {
      var front, last := ks[..|ks| - 1], ks[|ks| - 1];
      assert ks == front + [last];
      RemoveAllIs(t, front);
      ExceptTwice(t.order, Members(front), {last});
      assert Members(ks) == Members(front) + {last};
      assert t.rows - Members(front) - {last} == t.rows - Members(ks);
    }
  }

  lemma {:induction false} OnlyIsExcept(s: seq<nat>, ks: set<nat>, gone: set<nat>)
    requires forall k :: k in s ==> (k in gone <==> k !in ks)
    ensures Except(s, gone) == Only(s, ks)
    decreases |s|
  {
    if s != [] {
      assert s[|s| - 1] in s;
      OnlyIsExcept(s[..|s| - 1], ks, gone);
    }
  }

  function Chosen<V>(rows: map<nat, V>, ks: seq<nat>): map<nat, V>
    requires forall k :: k in ks ==> k in rows
  {
    map k | k in ks :: rows[k]
  }

  lemma {:induction false} ChosenSnoc<V>(base: map<nat, V>, rows: map<nat, V>, ks: seq<nat>, k: nat)
    requires (forall j :: j in ks ==> j in rows) && k in rows
    ensures (base + Chosen(rows, ks))[k := rows[k]] == base + Chosen(rows, ks + [k])
  {
  }

  lemma {:induction false} PutAllIs<V>(t: Table<V>, after: Table<V>, ks: seq<nat>)
    requires Valid(t) && Unique(ks) && forall k :: k in ks ==> k in after.rows
    ensures PutAll(t, after, ks).order == t.order + Except(ks, t.rows.Keys)
    ensures PutAll(t, after, ks).rows == t.rows + Chosen(after.rows, ks)
    decreases |ks|
  {
    if ks != [] {
      var front, last := ks[..|ks| - 1], ks[|ks| - 1];
      assert ks == front + [last];
      NotInFront(ks);
      PutAllIs(t, after, front);
      assert last in ks;
      PutNext(t, PutAll(t, after, front), after.rows, front, last);
    }
  }

  /** One more upsert. */
  lemma {:induction false} PutNext<V>(t: Table<V>, u: Table<V>, rows: map<nat, V>, ks: seq<nat>, k: nat)
    requires (forall j :: j in ks ==> j in rows) && k in rows && k !in ks
    requires u.order == t.order + Except(ks, t.rows.Keys) && u.rows == t.rows + Chosen(rows, ks)
    ensures Put(u, k, rows[k]).order == t.order + Except(ks + [k], t.rows.Keys)
    ensures Put(u, k, rows[k]).rows == t.rows + Chosen(rows, ks + [k])
  {
    ChosenSnoc(t.rows, rows, ks, k);
    Snoc(ks, k, t.rows.Keys);
  }

  lemma {:induction false} ExceptSame(s: seq<nat>, a: set<nat>, b: set<nat>)
    requires forall k :: k in s ==> (k in a <==> k in b)
    ensures Except(s, a) == Except(s, b)
    decreases |s|
  {
    if s != [] {
      assert s[|s| - 1] in s;
      ExceptSame(s[..|s| - 1], a, b);
    }
  }

  /** After the removals: the kept keys in their old order. */
  lemma {:induction false} KeptIs<V>(before: Table<V>, after: Table<V>)
    requires Valid(before) && Valid(after)
    ensures var kept := RemoveAll(before, Except(before.order, after.rows.Keys));
            && Valid(kept) && kept.order == Only(before.order, after.rows.Keys)
            && (forall k :: k in kept.rows <==> k in before.rows && k in after.rows)
            && (forall k :: k in kept.rows ==> kept.rows[k] == before.rows[k])
  {
    var gone := Except(before.order, after.rows.Keys);
    ExceptIn(before.order, after.rows.Keys);
    RemoveAllIs(before, gone);
    OnlyIsExcept(before.order, after.rows.Keys, Members(gone));
    OnlyIn(before.order, after.rows.Keys);
  }

  /** What the diff always achieves: the new records, kept keys in their old order, then the new keys. */
  lemma {:induction false} DiffedIs<V>(before: Table<V>, after: Table<V>)
    requires Valid(before) && Valid(after)
    ensures Diffed(before, after).rows == after.rows
    ensures Diffed(before, after).order == Only(before.order, after.rows.Keys) + Except(after.order, before.rows.Keys)
  {
    KeptIs(before, after);
    var kept := RemoveAll(before, Except(before.order, after.rows.Keys));
    PutAllIs(kept, after, after.order);
    ExceptSame(after.order, kept.rows.Keys, before.rows.Keys);
    Covers(kept.rows, after);
  }

  lemma {:induction false} Covers<V>(kept: map<nat, V>, after: Table<V>)
    requires Valid(after) && forall k :: k in kept ==> k in after.rows
    ensures kept + Chosen(after.rows, after.order) == after.rows
  {
  }

  /** The round trip: the tables rebuild the new map, iteration order included, exactly when order was kept. */
  lemma {:induction false} DiffRoundTripIff<V>(before: Table<V>, after: Table<V>)
    requires Valid(before) && Valid(after)
    ensures Diffed(before, after) == after <==> OrderKept(before, after)
  {
    DiffedIs(before, after);
  }

  /** A map rebuilt from a table, row by row in rowid order. */
  function Recovered<V>(t: Table<V>): Table<V>
    requires Valid(t)
  {
    PutAll(Empty(), t, t.order)
  }

  lemma {:induction false} RecoveredIs<V>(t: Table<V>)
    requires Valid(t)
    ensures Recovered(t) == t
  {
    var empty: Table<V> := Empty();
    assert Valid(empty);
    PutAllIs(empty, t, t.order);
    ExceptNothing(t.order, {});
    assert empty.rows.Keys == {};
    Covers(map[], t);
  }

  /** The loop that reads one table. */
  method Recover<V>(t: Table<V>) returns (records: Table<V>)
    requires Valid(t)
    ensures records == Recovered(t)
  {
    records := Empty();
    for i := 0 to |t.order|
      invariant records == PutAll(Empty(), t, t.order[..i])
    {
      assert t.order[i] in t.order && t.order[..i + 1][..i] == t.order[..i];
      records := Put(records, t.order[i], t.rows[t.order[i]]);
    }
    assert t.order[..|t.order|] == t.order;
  }

  method WriteRemovals<V>(before: Table<V>, gone: seq<nat>) returns (table: Table<V>)
    ensures table == RemoveAll(before, gone)
  {
    table := before;
    for i := 0 to |gone|
      invariant table == RemoveAll(before, gone[..i])
    {
      assert gone[..i + 1][..i] == gone[..i];
      table := Del(table, gone[i]);
    }
    assert gone[..|gone|] == gone;
  }

  /** The two loops of a commit, on a table that holds `before`. */
  method WriteDiff<V(==)>(before: Table<V>, after: Table<V>) returns (table: Table<V>)
    requires Valid(before) && Valid(after)
    ensures table == Diffed(before, after)
  {
    table := WriteRemovals(before, Except(before.order, after.rows.Keys));
    ghost var kept := table;
    var order := after.order;
    for i := 0 to |order|
      invariant table == PutAll(kept, after, order[..i])
    {
      var k := order[i];
      assert k in order && order[..i + 1][..i] == order[..i];
      if k in before.rows && before.rows[k] == after.rows[k] {
        UnchangedSkip(before, after, i);
      } else {
        table := Put(table, k, after.rows[k]);
      }
    }
    assert order[..|order|] == order;
  }

  /** Not writing an unchanged record is the same as writing it. */
  lemma {:induction false} UnchangedSkip<V>(before: Table<V>, after: Table<V>, i: nat)
    requires Valid(before) && Valid(after) && i < |after.order|
    requires var k := after.order[i];
             k in after.order && k in before.rows && k in after.rows && before.rows[k] == after.rows[k]
    ensures var t := PutAll(RemoveAll(before, Except(before.order, after.rows.Keys)), after, after.order[..i]);
            Put(t, after.order[i], after.rows[after.order[i]]) == t
  {
    var k, front := after.order[i], after.order[..i];
    KeptIs(before, after);
    var kept := RemoveAll(before, Except(before.order, after.rows.Keys));
    assert Unique(front);
    PutAllIs(kept, after, front);
    var t := PutAll(kept, after, front);
    assert k in t.rows && t.rows[k] == after.rows[k];
    Rewrite(t.rows, k);
  }

  lemma {:induction false} Rewrite<V>(m: map<nat, V>, k: nat)
    requires k in m
    ensures m[k := m[k]] == m
  {
  }

  // ---- Which changes keep the order ----

  lemma {:induction false} OrderKeptSame<V>(t: Table<V>)
    requires Valid(t)
    ensures OrderKept(t, t)
  {
    OnlyIsExcept(t.order, t.rows.Keys, {});
    ExceptNothing(t.order, {});
    AllExcepted(t.order, t.rows.Keys);
  }

  lemma {:induction false} AllExcepted(s: seq<nat>, ks: set<nat>)
    requires forall k :: k in s ==> k in ks
    ensures Except(s, ks) == []
    decreases |s|
  {
    if s != [] {
      assert s[|s| - 1] in s;
      AllExcepted(s[..|s| - 1], ks);
    }
  }

  lemma {:induction false} OnlySame(s: seq<nat>, a: set<nat>, b: set<nat>)
    requires forall k :: k in s ==> (k in a <==> k in b)
    ensures Only(s, a) == Only(s, b)
    decreases |s|
  {
    if s != [] {
      assert s[|s| - 1] in s;
      OnlySame(s[..|s| - 1], a, b);
    }
  }

  /** A key that is new to both goes last. */
  lemma {:induction false} AppendKeepsOrder<V>(before: Table<V>, order: seq<nat>, keys: set<nat>, k: nat)
    requires Valid(before) && k !in before.rows && order == Only(before.order, keys) + Except(order, before.rows.Keys)
    ensures order + [k] == Only(before.order, keys + {k}) + Except(order + [k], before.rows.Keys)
  {
    OnlySame(before.order, keys, keys + {k});
    Snoc(order, k, before.rows.Keys);
  }

  /** Setting a record keeps the order unless it brings back a key that was deleted since. */
  lemma {:induction false} PutKeepsOrder<V>(before: Table<V>, t: Table<V>, k: nat, v: V)
    requires Valid(before) && Valid(t) && OrderKept(before, t) && (k in before.rows ==> k in t.rows)
    ensures OrderKept(before, Put(t, k, v))
  {
    var u := Put(t, k, v);
    if k in t.rows {
      assert u.rows.Keys == t.rows.Keys;
    } else {
      AppendKeepsOrder(before, t.order, t.rows.Keys, k);
      assert u.rows.Keys == t.rows.Keys + {k};
    }
  }

  lemma {:induction false} OnlyExcept(s: seq<nat>, ks: set<nat>, k: nat)
    ensures Except(Only(s, ks), {k}) == Only(s, ks - {k})
    decreases |s|
  {
    if s != [] {
      OnlyExcept(s[..|s| - 1], ks, k);
      Snoc(Only(s[..|s| - 1], ks), s[|s| - 1], {k});
    }
  }

  lemma {:induction false} ExceptAppend(a: seq<nat>, b: seq<nat>, ks: set<nat>)
    ensures Except(a + b, ks) == Except(a, ks) + Except(b, ks)
    decreases |b|
  {
    if b == [] {
      assert a + b == a;
    } else {
      assert (a + b)[..|a + b| - 1] == a + b[..|b| - 1];
      ExceptAppend(a, b[..|b| - 1], ks);
    }
  }

  lemma {:induction false} DelKeepsOrder<V>(before: Table<V>, t: Table<V>, k: nat)
    requires Valid(before) && Valid(t) && OrderKept(before, t)
    ensures OrderKept(before, Del(t, k))
  {
    var a, b := Only(before.order, t.rows.Keys), Except(t.order, before.rows.Keys);
    ExceptAppend(a, b, {k});
    OnlyExcept(before.order, t.rows.Keys, k);
    ExceptTwice(t.order, before.rows.Keys, {k});
    ExceptTwice(t.order, {k}, before.rows.Keys);
    assert before.rows.Keys + {k} == {k} + before.rows.Keys;
  }

  /** Bringing back a deleted key that was not the last moves it in the map but not in the table. */
  lemma {:induction false} ReinsertionReorders<V>(before: Table<V>, k: nat, v: V)
    requires Valid(before) && before.order != [] && before.order[0] == k && |before.order| >= 2
    ensures var after := Put(Del(before, k), k, v); Valid(after) && Diffed(before, after) != after
  {
    var after := Put(Del(before, k), k, v);
    DelValid(before, k);
    PutValid(Del(before, k), k, v);
    DiffedIs(before, after);
    ExceptIn(before.order, {k});
    assert before.order[1] in Except(before.order, {k});
    FirstStays(before.order, after.rows.Keys);
    assert after.order[0] != k by {
      assert Except(before.order, {k})[0] in Except(before.order, {k});
    }
  }

  lemma {:induction false} FirstStays(s: seq<nat>, ks: set<nat>)
    requires s != [] && s[0] in ks
    ensures Only(s, ks) != [] && Only(s, ks)[0] == s[0]
    decreases |s|
  {
    if |s| > 1 {
      FirstStays(s[..|s| - 1], ks);
    }
  }
}
