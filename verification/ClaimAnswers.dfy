/** What each operation on connection claims answers, and what it leaves of every node's claim. */
module ClaimAnswers {
  import opened Core
  import opened Claims

  /** The claims of all other nodes are as they were. */
  ghost predicate OthersKept(l: Local, m: Local, node: Uuid) {
    forall n :: n != node ==> Get(m.claims, n) == Get(l.claims, n) && High(m, n) == High(l, n)
  }

  lemma {:induction false} PutOthers(l: Local, m: Local, c: Claim)
    requires Sound(l) && m.claims == Put(l.claims, c)
    ensures Get(m.claims, c.node) == Some(c)
    ensures forall n :: n != c.node ==> Get(m.claims, n) == Get(l.claims, n)
  {
    GetPut(l.claims, c, c.node);
    forall n | n != c.node ensures Get(m.claims, n) == Get(l.claims, n) {
      GetPut(l.claims, c, n);
    }
  }

  /** A claim is always granted, under the next generation of its node and with a lease from now. */
  lemma {:induction false} ClaimIs(l: Local, node: Uuid, authority: Authority, now: int, ttl: nat)
    requires Sound(l)
    ensures var (m, a) := LocalDo(l, ClaimOp(node, authority, now), ttl);
            var c := Claim(node, authority, High(l, node) + 1, now + ttl);
            a == Granted(c) && Get(m.claims, node) == Some(c) && High(m, node) == c.generation && OthersKept(l, m, node)
  {
    PutOthers(l, LocalDo(l, ClaimOp(node, authority, now), ttl).0,
        Claim(node, authority, High(l, node) + 1, now + ttl));
  }

  /** A renewal is granted exactly to the current token, whose lease it then counts from now. */
  lemma {:induction false} RenewIff(l: Local, node: Uuid, authority: Authority, generation: int, now: int, ttl: nat)
    requires Sound(l)
    ensures var (m, a) := LocalDo(l, RenewOp(node, authority, generation, now), ttl);
            && a == Said(Current(l, node, authority, generation)) && OthersKept(l, m, node)
            && Get(m.claims, node) == (if Current(l, node, authority, generation)
                                       then Some(Claim(node, authority, generation, now + ttl))
                                           else Get(l.claims, node))
  {
    if Current(l, node, authority, generation) {
      var c := Get(l.claims, node).value.(leaseExpiresAt := now + ttl);
      PutOthers(l, LocalDo(l, RenewOp(node, authority, generation, now), ttl).0, c);
    }
  }

  /** A release is granted exactly to the current token, which is then gone; its generation is not given out again. */
  lemma {:induction false} ReleaseIff(l: Local, node: Uuid, authority: Authority, generation: int, ttl: nat)
    requires Sound(l)
    ensures var (m, a) := LocalDo(l, ReleaseOp(node, authority, generation), ttl);
            && a == Said(Current(l, node, authority, generation)) && OthersKept(l, m, node) &&
                m.highWater == l.highWater
            && Get(m.claims, node) == (if Current(l, node, authority, generation) then None else Get(l.claims, node))
  {
    forall n ensures Get(Remove(l.claims, node), n) == if n == node then None else Get(l.claims, n) {
      GetRemove(l.claims, node, n);
    }
  }

  lemma {:induction false} ExpiredIff(cs: seq<Claim>, now: int, node: Uuid)
    requires Unique(cs)
    ensures node in Expired(cs, now) <==> Get(cs, node).Some? && Get(cs, node).value.leaseExpiresAt <= now
    decreases |cs|
  {
    if cs != [] {
      var front, last := cs[..|cs| - 1], cs[|cs| - 1];
      assert cs == front + [last];
      ExpiredIff(front, now, node);
      var i := IndexOf(front, node);
      if i < |front| {
        assert cs[i] == front[i];
      }
    }
  }

  lemma {:induction false} KeptIff(cs: seq<Claim>, now: int, node: Uuid)
    requires Unique(cs)
    ensures Get(Kept(cs, now), node) == match Get(cs, node) case None => None
            case Some(c) => if c.leaseExpiresAt <= now then None else Some(c)
  {
    KeptIn(cs, now);
    GetKept(cs, now, node);
    var k, i := Kept(cs, now), IndexOf(cs, node);
    if i < |cs| {
      assert cs[i] in cs;
      if cs[i].leaseExpiresAt > now {
        var j :| 0 <= j < |k| && k[j] == cs[i];
        assert k[j].node == node;
      }
    }
    var j := IndexOf(k, node);
    if j < |k| {
      assert k[j] in cs;
    }
  }

  /** A reap takes exactly the claims whose lease has run out, and names them. */
  lemma {:induction false} ReapIff(l: Local, now: int, ttl: nat, node: Uuid)
    requires Sound(l)
    ensures var (m, a) := LocalDo(l, ReapOp(now), ttl);
            var out := Get(l.claims, node).Some? && Get(l.claims, node).value.leaseExpiresAt <= now;
            && a.Reaped? && (node in a.nodes <==> out) && m.highWater == l.highWater
            && Get(m.claims, node) == (if out then None else Get(l.claims, node))
  {
    ExpiredIff(l.claims, now, node);
    KeptIff(l.claims, now, node);
  }

  /** Nothing that can take this claim away happens: no other claim of its node, no release of it, no late reap. */
  predicate Spares(op: Op, c: Claim, until: int) {
    match op
    case ClaimOp(node, _, _) => node != c.node
    case ReleaseOp(node, authority, generation) => (node, authority, generation) != (c.node, c.authority, c.generation)
    case RenewOp(_, _, _, now) => true
    case ReapOp(now) => now < until
    case LookupOp(_) => true
  }

  /** The token is current, and its lease reaches at least to `until`. */
  predicate Leased(l: Local, c: Claim, until: int) {
    Current(l, c.node, c.authority, c.generation) && Get(l.claims, c.node).value.leaseExpiresAt >= until
  }

  lemma {:induction false} SparedStep(l: Local, op: Op, ttl: nat, c: Claim, until: int)
    requires Sound(l) && Leased(l, c, until) && Spares(op, c, until)
    requires op.RenewOp? && op.node == c.node ==> op.now + ttl >= until
    ensures Leased(LocalDo(l, op, ttl).0, c, until)
  {
    match op
    case ClaimOp(node, authority, now) => ClaimIs(l, node, authority, now, ttl);
    case ReleaseOp(node, authority, generation) => ReleaseIff(l, node, authority, generation, ttl);
    case RenewOp(node, authority, generation, now) => RenewIff(l, node, authority, generation, now, ttl);
    case ReapOp(now) => ReapIff(l, now, ttl, c.node);
    case LookupOp(_) =>
  }

  lemma {:induction false} SparedRun(l: Local, ops: seq<Op>, ttl: nat, c: Claim, until: int)
    requires Sound(l) && Leased(l, c, until)
    requires forall i :: 0 <= i < |ops| ==>
               Spares(ops[i], c, until) && (ops[i].RenewOp? && ops[i].node == c.node ==> ops[i].now + ttl >= until)
    ensures Leased(LocalRun(l, ops, ttl), c, until)
    decreases |ops|
  {
    if ops != [] {
      var front := ops[..|ops| - 1];
      SparedRun(l, front, ttl, c, until);
      LocalRunSound(l, front, ttl);
      SparedStep(LocalRun(l, front, ttl), ops[|ops| - 1], ttl, c, until);
    }
  }

  /**
   * A renewed claim lasts: after a renewal at `at`, whatever other nodes do and however often expired claims are
   * reaped, the token stays current until at + ttl, unless it is released or its node is claimed anew.
   */
  lemma {:induction false} RenewedLasts(l: Local, node: Uuid, authority: Authority, generation: int, at: int,
                                        ops: seq<Op>, ttl: nat)
    requires Sound(l) && Current(l, node, authority, generation)
    requires var c := Claim(node, authority, generation, at + ttl);
             forall i :: 0 <= i < |ops| ==>
               Spares(ops[i], c, at + ttl) && (ops[i].RenewOp? && ops[i].node == node ==> ops[i].now >= at)
    ensures var renewed := LocalDo(l, RenewOp(node, authority, generation, at), ttl);
            && renewed.1 == Said(true) && Current(LocalRun(renewed.0, ops, ttl), node, authority, generation)
  {
    var c, m := Claim(node, authority, generation, at + ttl),
        LocalDo(l, RenewOp(node, authority, generation, at), ttl).0;
    RenewIff(l, node, authority, generation, at, ttl);
    SoundStep(l, RenewOp(node, authority, generation, at), ttl);
    SparedRun(m, ops, ttl, c, at + ttl);
  }
}
