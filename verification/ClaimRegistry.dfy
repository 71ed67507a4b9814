/** The two claim registries as they run. */
module ClaimRegistry {
  import opened Core
  import opened Claims

  class LocalRegistry {
    const ttl: nat
    var claims: seq<Claim>
    var highWater: map<Uuid, int>

    ghost function State(): Local
      reads this
    {
      Local(claims, highWater)
    }

    ghost predicate Valid()
      reads this
    {
      Sound(State())
    }

    constructor (ttl: nat)
      ensures Valid() && State() == Local([], map[]) && this.ttl == ttl
    {
      this.ttl, claims, highWater := ttl, [], map[];
    }

    method Claim(node: Uuid, authority: Authority, now: int) returns (c: Claim)
      requires Valid()
      modifies this
      ensures Valid() && (State(), Granted(c)) == LocalDo(old(State()), ClaimOp(node, authority, now), ttl)
    {
      SoundStep(State(), ClaimOp(node, authority, now), ttl);
      var generation := (if node in highWater then highWater[node] else 0) + 1;
      highWater := highWater[node := generation];
      c := Claims.Claim.Claim(node, authority, generation, now + ttl);
      claims := Put(claims, c);
    }

    method Release(node: Uuid, authority: Authority, generation: int) returns (ok: bool)
      requires Valid()
      modifies this
      ensures Valid() && (State(), Said(ok)) == LocalDo(old(State()), ReleaseOp(node, authority, generation), ttl)
    {
      SoundStep(State(), ReleaseOp(node, authority, generation), ttl);
      var current := Get(claims, node);
      if current.None? || current.value.authority != authority || current.value.generation != generation {
        return false;
      }
      claims := Remove(claims, node);
      return true;
    }

    method Renew(node: Uuid, authority: Authority, generation: int, now: int) returns (ok: bool)
      requires Valid()
      modifies this
      ensures Valid() && (State(), Said(ok)) == LocalDo(old(State()), RenewOp(node, authority, generation, now), ttl)
    {
      SoundStep(State(), RenewOp(node, authority, generation, now), ttl);
      var current := Get(claims, node);
      if current.None? || current.value.authority != authority || current.value.generation != generation {
        return false;
      }
      claims := Put(claims, current.value.(leaseExpiresAt := now + ttl));
      return true;
    }

    /** Collect first, delete afterwards. */
    method ReapExpired(now: int) returns (expired: seq<Uuid>)
      requires Valid()
      modifies this
      ensures Valid() && (State(), Reaped(expired)) == LocalDo(old(State()), ReapOp(now), ttl)
    {
      SoundStep(State(), ReapOp(now), ttl);
      var all := claims;
      expired := [];
      for i := 0 to |all|
        invariant claims == all && highWater == old(highWater)
        invariant expired == Expired(all[..i], now)
      {
        assert all[..i + 1][..i] == all[..i];
        if all[i].leaseExpiresAt <= now {
          expired := expired + [all[i].node];
        }
      }
      assert all[..|all|] == all;
      for i := 0 to |expired|
        invariant highWater == old(highWater)
        invariant claims == Without(all, expired[..i])
      {
        WithoutStep(all, expired, i);
        claims := Remove(claims, expired[i]);
      }
      assert expired[..|expired|] == expired;
      WithoutExpired(all, now);
    }
  }

  /** The shared store; an Err is a thrown error with the transaction rolled back. */
  class ClaimStore {
    const ttl: nat
    var rows: seq<Row>
    var seqs: map<Uuid, int>

    ghost function State(): Sql
      reads this
    {
      Sql(rows, seqs)
    }

    constructor (ttl: nat)
      ensures State() == Sql([], map[]) && this.ttl == ttl
    {
      this.ttl, rows, seqs := ttl, [], map[];
    }

    method Claim(node: Uuid, authority: Authority, now: int) returns (r: Result<Claim>)
      modifies this
      ensures State() == SqlAfter(old(State()), ClaimOp(node, authority, now), ttl)
      ensures var s := SqlDo(old(State()), ClaimOp(node, authority, now), ttl);
              if s.Ok? then s.value.1.Granted? && r == Ok(s.value.1.claim) else r == Err(s.error)
    {
      if authority == "" || !ValidTime(now) {
        return Err("TypeError");
      }
      var generation := (if node in seqs then seqs[node] else 0) + 1;
      if !Positive(generation) {
        return Err("DATABASE_CORRUPT");
      }
      seqs := seqs[node := generation];
      var c := Claims.Claim.Claim(node, authority, generation, now + ttl);
      rows := Upsert(rows, Row(c, now));
      return Ok(c);
    }

    method Renew(node: Uuid, authority: Authority, generation: int, now: int) returns (r: Result<bool>)
      modifies this
      ensures State() == SqlAfter(old(State()), RenewOp(node, authority, generation, now), ttl)
      ensures var s := SqlDo(old(State()), RenewOp(node, authority, generation, now), ttl);
              if s.Ok? then s.value.1.Said? && r == Ok(s.value.1.ok) else r == Err(s.error)
    {
      if !Positive(generation) || !ValidTime(now) {
        return Ok(false);
      }
      var i := IndexOf(Proj(rows), node);
      if i == |rows| || rows[i].claim.authority != authority || rows[i].claim.generation != generation {
        return Ok(false);
      }
      if now + ttl < rows[i].claimedAt {
        return Err("CONSTRAINT");
      }
      rows := rows[i := rows[i].(claim := rows[i].claim.(leaseExpiresAt := now + ttl))];
      return Ok(true);
    }

    method ReapExpired(now: int) returns (r: Result<seq<Uuid>>)
      modifies this
      ensures State() == SqlAfter(old(State()), ReapOp(now), ttl)
      ensures var s := SqlDo(old(State()), ReapOp(now), ttl);
              if s.Ok? then s.value.1.Reaped? && r == Ok(s.value.1.nodes) else r == Err(s.error)
    {
      if !ValidTime(now) {
        return Ok([]);
      }
      var all := rows;
      var kept, gone := [], [];
      for i := 0 to |all|
        invariant kept == KeptRows(all[..i], now) && gone == ExpiredRows(all[..i], now)
      {
        assert all[..i + 1][..i] == all[..i];
        if all[i].claim.leaseExpiresAt <= now {
          gone := gone + [all[i]];
        } else {
          kept := kept + [all[i]];
        }
      }
      assert all[..|all|] == all;
      if exists i :: 0 <= i < |gone| && !Loads(gone[i]) {
        return Err("DATABASE_CORRUPT");
      }
      rows := kept;
      return Ok(Nodes(gone));
    }

    method Release(node: Uuid, authority: Authority, generation: int) returns (ok: bool)
      modifies this
      ensures SqlDo(old(State()), ReleaseOp(node, authority, generation), ttl) == Ok((State(), Said(ok)))
    {
      var i := IndexOf(Proj(rows), node);
      if !Positive(generation) || i == |rows| || rows[i].claim.authority != authority ||
          rows[i].claim.generation != generation {
        return false;
      }
      rows := rows[..i] + rows[i + 1..];
      return true;
    }
  }

  /** Deleting the listed nodes one after another. */
  function Without(cs: seq<Claim>, nodes: seq<Uuid>): seq<Claim> {
    if nodes == [] then cs else Remove(Without(cs, nodes[..|nodes| - 1]), nodes[|nodes| - 1])
  }

  lemma {:induction false} WithoutStep(cs: seq<Claim>, nodes: seq<Uuid>, i: nat)
    requires i < |nodes|
    ensures Without(cs, nodes[..i + 1]) == Remove(Without(cs, nodes[..i]), nodes[i])
  {
    assert nodes[..i + 1][..i] == nodes[..i];
  }

  lemma {:induction false} RemoveLast(cs: seq<Claim>, c: Claim)
    requires Unique(cs + [c])
    ensures Remove(cs + [c], c.node) == cs
  {
    assert forall i :: 0 <= i < |cs| ==> (cs + [c])[i].node != (cs + [c])[|cs|].node;
    assert IndexOf(cs + [c], c.node) == |cs|;
  }

  lemma {:induction false} RemoveFront(cs: seq<Claim>, c: Claim, node: Uuid)
    requires Unique(cs + [c]) && node != c.node
    ensures Remove(cs + [c], node) == Remove(cs, node) + [c]
  {
    var i, j := IndexOf(cs + [c], node), IndexOf(cs, node);
    if j < |cs| {
      assert (cs + [c])[j].node == node;
      assert i == j;
    } else {
      assert i == |cs| + 1;
    }
  }

  lemma {:induction false} RemoveUnique(cs: seq<Claim>, node: Uuid)
    requires Unique(cs)
    ensures Unique(Remove(cs, node)) && forall c :: c in Remove(cs, node) ==> c in cs
  {
  }

  /** Nodes that are not the last one's are removed from the front. */
  lemma {:induction false} WithoutFront(cs: seq<Claim>, c: Claim, nodes: seq<Uuid>)
    requires Unique(cs + [c]) && c.node !in nodes
    ensures Without(cs + [c], nodes) == Without(cs, nodes) + [c]
    ensures Unique(Without(cs, nodes) + [c])
    decreases |nodes|
  {
    if nodes != [] {
      WithoutFront(cs, c, nodes[..|nodes| - 1]);
      var w := Without(cs, nodes[..|nodes| - 1]);
      RemoveFront(w, c, nodes[|nodes| - 1]);
      RemoveUnique(w + [c], nodes[|nodes| - 1]);
    }
  }

  lemma {:induction false} ExpiredNodes(cs: seq<Claim>, now: int, node: Uuid)
    requires forall i :: 0 <= i < |cs| ==> cs[i].node != node
    ensures node !in Expired(cs, now)
    decreases |cs|
  {
    if cs != [] {
      ExpiredNodes(cs[..|cs| - 1], now, node);
    }
  }

  /** Deleting what was collected leaves exactly the unexpired claims, in order. */
  lemma {:induction false} WithoutExpired(cs: seq<Claim>, now: int)
    requires Unique(cs)
    ensures Without(cs, Expired(cs, now)) == Kept(cs, now)
    decreases |cs|
  {
    if cs != [] {
      var front, last := cs[..|cs| - 1], cs[|cs| - 1];
      assert cs == front + [last];
      WithoutExpired(front, now);
      ExpiredNodes(front, now, last.node);
      WithoutFront(front, last, Expired(front, now));
      if last.leaseExpiresAt <= now {
        var nodes := Expired(front, now) + [last.node];
        assert nodes[..|nodes| - 1] == Expired(front, now);
        RemoveLast(Kept(front, now), last);
        assert Kept(front, now) + [] == Kept(front, now);
      } else {
        assert Expired(front, now) + [] == Expired(front, now);
      }
    }
  }
}
