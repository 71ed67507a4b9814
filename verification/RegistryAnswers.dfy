/** What the centre's mutations mean: who can authenticate, which keys and tokens count, what collection takes. */
module RegistryAnswers {
  import opened Core
  import O = Ordered
  import W = Wire
  import L = LeadMachine
  import opened Registry

  /** Everything but the named rows of the node table is as it was. */
  predicate OnlyNode(s: State, v: State, id: Uuid) {
    v.nodes.rows - {id} == s.nodes.rows - {id} && v.grants == s.grants && v.tasks == s.tasks
  }

  // ---- Enrolment ----

  /** The token authenticates this node, live, with this as its newest key. */
  predicate Authenticates(s: State, token: Hash, node: Uuid, team: Uuid, key: KeyEntry) {
    var n := Auth(s, token);
    n.Ok? && n.value.id == node && n.value.team == team && |n.value.keys| > 0 && n.value.keys[|n.value.keys| - 1] == key
  }

  /** The team's owner has as many nodes as one owner may have. */
  predicate QuotaReached(s: State, team: Uuid, maxNodes: nat) {
    && team in s.teams.rows && s.teams.rows[team].owner.Some?
    && Owned(s, s.teams.rows[team].owner.value, s.nodes.order) >= maxNodes
  }

  /** The node belongs to a team of this owner. */
  predicate OwnedBy(s: State, k: Uuid, owner: string) {
    k in s.nodes.rows && s.nodes.rows[k].team in s.teams.rows && s.teams.rows[s.nodes.rows[k].team].owner == Some(owner)
  }

  function Nodes(s: State, owner: string, order: seq<nat>): set<nat> {
    set k | k in order && OwnedBy(s, k, owner)
  }

  /** The quota counts the owner's nodes, each once. */
  lemma {:induction false} OwnedCounts(s: State, owner: string, order: seq<nat>)
    requires O.Unique(order)
    ensures Owned(s, owner, order) == |Nodes(s, owner, order)|
    decreases |order|
  {
    if order != [] {
      var front, last := order[..|order| - 1], order[|order| - 1];
      assert order == front + [last];
      OwnedCounts(s, owner, front);
      var fewer := Nodes(s, owner, front);
      forall i | 0 <= i < |front| ensures front[i] != last {
        assert order[i] == front[i];
      }
      if OwnedBy(s, last, owner) {
        assert Nodes(s, owner, order) == fewer + {last};
      } else {
        assert Nodes(s, owner, order) == fewer;
      }
    }
  }

  /** An enrolment token of a team lets one node in. */
  lemma EnrollWithIff(s: State, hash: Hash, pubkey: string, node: Uuid, token: Hash, now: int, maxNodes: nat)
    requires ValidState(s) && node !in s.nodes.rows && token !in s.byToken
    ensures var r := Apply(s, EnrollWith(hash, pubkey, node, token, now, maxNodes));
            var open := hash in s.enrolls.rows && s.enrolls.rows[hash].consumedAt.None? &&
                now <= s.enrolls.rows[hash].expiresAt;
            var full := open && QuotaReached(s, s.enrolls.rows[hash].team, maxNodes);
            && (r.Ok? <==> pubkey != "" && open && !full)
            && (r.Ok? ==>
                  && Authenticates(r.value, token, node, s.enrolls.rows[hash].team, KeyEntry(1, pubkey))
                  && r.value.enrolls.rows[hash].usedBy == Some(node) && !Usable(r.value, hash, now)
                  && OnlyNode(s, r.value, node) && r.value.teams == s.teams && r.value.epoch == s.epoch + 1)
            && (pubkey == "" ==> r == Err("bad_request"))
            && (pubkey != "" && !open ==> r == Err("enroll_token"))
            && (pubkey != "" && full ==> r == Err("quota_exceeded"))
  {
    assert hash in s.enrolls.rows ==> EnrollOk(s, hash, s.enrolls.rows[hash]);
  }

  /** A team is created with its owner, or as an orphan, and nothing else happens. */
  lemma CreateTeamIs(s: State, team: Uuid, name: string, owner: Option<string>, now: int)
    requires team !in s.teams.rows
    ensures var r := Apply(s, CreateTeam(team, name, owner, now));
            && r.Ok? && r.value == s.(teams := r.value.teams)
            && r.value.teams.rows == s.teams.rows[team := Team(team, name, owner, if owner.Some? then Active
                else Orphan, now)]
  {
  }

  /** A node may found its own team. */
  lemma EnrollAloneIff(s: State, pubkey: string, team: Uuid, node: Uuid, token: Hash, now: int)
    requires node !in s.nodes.rows && team !in s.teams.rows
    ensures var r := Apply(s, EnrollAlone(pubkey, team, node, token, now));
            && (r.Ok? <==> pubkey != "")
            && (r.Ok? ==> Authenticates(r.value, token, node, team, KeyEntry(1, pubkey)) && OnlyNode(s, r.value, node)
                          && r.value.teams.rows[team] == Team(team, "self-owned", None, SelfOwned, now)
                          && r.value.teams.rows - {team} == s.teams.rows - {team} && r.value.enrolls == s.enrolls)
  {
  }

  /** A fresh token can be used until it expires. */
  lemma IssueIff(s: State, team: Uuid, hash: Hash, expiresAt: int, now: int)
    ensures var r := Apply(s, Issue(team, hash, expiresAt));
            && (r.Ok? <==> team in s.teams.rows)
            && (r.Ok? ==> (Usable(r.value, hash, now) <==> now <= expiresAt)
                          && r.value == s.(enrolls := r.value.enrolls)
                          && r.value.enrolls.rows - {hash} == s.enrolls.rows - {hash}
                          && r.value.enrolls.rows[hash].team == team)
  {
  }

  /** A token used once stays used, whatever follows: only issuing the same hash anew reopens it. */
  predicate Spent(s: State, hash: Hash) {
    hash in s.enrolls.rows ==> s.enrolls.rows[hash].consumedAt.Some?
  }

  lemma {:induction false} DropSpends(t: O.Table<Enroll>, team: Uuid, order: seq<nat>, hash: Hash)
    ensures var u := DropTokens(t, team, order);
            hash in u.rows ==> hash in t.rows && u.rows[hash] == t.rows[hash]
    decreases |order|
  {
    if order != [] {
      DropSpends(t, team, order[..|order| - 1], hash);
    }
  }

  lemma {:induction false} TeamsSpend(s: State, order: seq<nat>, now: int, ttl: int, hash: Hash)
    requires Spent(s, hash)
    ensures Spent(CollectTeams(s, order, now, ttl), hash)
    decreases |order|
  {
    if order != [] {
      TeamsSpend(s, order[..|order| - 1], now, ttl, hash);
      var t := CollectTeams(s, order[..|order| - 1], now, ttl);
      DropSpends(t.enrolls, order[|order| - 1], t.enrolls.order, hash);
    }
  }

  lemma {:induction false} NodesSpend(s: State, order: seq<nat>, now: int, ttl: int, online: set<Uuid>)
    ensures var v := CollectNodes(s, order, now, ttl, online);
            v.enrolls == s.enrolls && v.teams == s.teams && v.byToken == s.byToken
    decreases |order|
  {
    if order != [] {
      NodesSpend(s, order[..|order| - 1], now, ttl, online);
    }
  }

  lemma SpentStep(s: State, op: Op, hash: Hash)
    requires Spent(s, hash) && Apply(s, op).Ok? && !(op.Issue? && op.hash == hash)
    ensures Spent(Apply(s, op).value, hash)
  {
    if op.Gc? {
      TeamsSpend(s, s.teams.order, op.now, op.teamTtl, hash);
      var t := CollectTeams(s, s.teams.order, op.now, op.teamTtl);
      NodesSpend(t, t.nodes.order, op.now, op.nodeTtl, op.online);
    }
  }

  /** The state after a list of mutations, refused ones leaving it alone. */
  function Run(s: State, ops: seq<Op>): State {
    if ops == [] then s
    else
      var t := Run(s, ops[..|ops| - 1]);
      var r := Apply(t, ops[|ops| - 1]);
      if r.Ok? then r.value else t
  }

  /** One enrolment per token: once a token has let a node in or moved one, no later use of it succeeds. */
  lemma {:induction false} TokenWorksOnce(s: State, ops: seq<Op>, hash: Hash)
    requires Spent(s, hash) && forall i :: 0 <= i < |ops| ==> !(ops[i].Issue? && ops[i].hash == hash)
    ensures Spent(Run(s, ops), hash) && forall now :: !Usable(Run(s, ops), hash, now)
    decreases |ops|
  {
    if ops != [] {
      TokenWorksOnce(s, ops[..|ops| - 1], hash);
      var t := Run(s, ops[..|ops| - 1]);
      if Apply(t, ops[|ops| - 1]).Ok? {
        SpentStep(t, ops[|ops| - 1], hash);
      }
    }
  }

  // ---- Keys ----

  /** The last keys of a list, as many as may be kept. */
  predicate Newest(kept: seq<KeyEntry>, all: seq<KeyEntry>, max: nat) {
    |kept| == Min(|all|, max) && kept == all[|all| - |kept|..]
  }

  lemma {:induction false} ShiftIs(ks: seq<KeyEntry>, max: nat)
    ensures Shift(ks, max) == ks[if |ks| > max then |ks| - max else 0..]
    decreases |ks|
  {
    if |ks| > max && |ks| > 0 {
      ShiftIs(ks[1..], max);
    }
  }

  /**
   * A rotation needs a live node, a verified request and a key; then the newest key is the one given, at the epoch
   * after the last, behind the most recent of the old ones, and the token still authenticates the node.
   */
  lemma RotateIff(s: State, auth: Hash, pubkey: string, verified: bool, now: int, maxKeys: nat)
    requires ValidState(s) && maxKeys >= 1
    ensures var r, n := Apply(s, Rotate(auth, pubkey, verified, now, maxKeys)), Auth(s, auth);
            && (r.Ok? <==> n.Ok? && verified && pubkey != "")
            && (r.Ok? ==>
                  var were, key := n.value.keys, KeyEntry(n.value.keys[|n.value.keys| - 1].epoch + 1, pubkey);
                  && Authenticates(r.value, auth, n.value.id, n.value.team, key)
                  && Newest(r.value.nodes.rows[n.value.id].keys, were + [key], maxKeys)
                  && OnlyNode(s, r.value, n.value.id) && r.value.epoch == s.epoch + 1)
  {
    var n := Auth(s, auth);
    if n.Ok? {
      AuthenticatedNode(s, auth);
      RotatedIs(n.value.keys, pubkey, maxKeys);
    }
  }

  /** The node that a token authenticates is the one on record under its id, and has a key. */
  lemma AuthenticatedNode(s: State, auth: Hash)
    requires ValidState(s) && Auth(s, auth).Ok?
    ensures var n := Auth(s, auth).value;
            auth in s.byToken && s.byToken[auth] == n.id && n.id in s.nodes.rows && s.nodes.rows[n.id] == n &&
                |n.keys| > 0
  {
    assert TokenOk(s, auth) && NodeOk(s, s.byToken[auth], s.nodes.rows[s.byToken[auth]]);
  }

  lemma RotatedIs(keys: seq<KeyEntry>, pubkey: string, maxKeys: nat)
    requires |keys| > 0 && maxKeys >= 1
    ensures var key := KeyEntry(keys[|keys| - 1].epoch + 1, pubkey);
            var kept := Rotated(keys, pubkey, maxKeys);
            Newest(kept, keys + [key], maxKeys) && |kept| > 0 && kept[|kept| - 1] == key
  {
    ShiftIs(keys + [KeyEntry(keys[|keys| - 1].epoch + 1, pubkey)], maxKeys);
  }

  // ---- Status ----

  /** The answer to this node's token is the one its status calls for. */
  predicate Answers(s: State, token: Hash, status: NodeStatus) {
    match status
    case Live => Auth(s, token).Ok?
    case Suspended => Auth(s, token) == Err("node_suspended")
    case Revoked => Auth(s, token) == Err("node_revoked")
  }

  /** Authentication follows the status of the node the token belongs to. */
  lemma AuthFollowsStatus(s: State, token: Hash)
    requires ValidState(s) && token in s.byToken
    ensures s.byToken[token] in s.nodes.rows && Answers(s, token, s.nodes.rows[s.byToken[token]].status)
    ensures Auth(s, token).Ok? ==> Auth(s, token).value == s.nodes.rows[s.byToken[token]]
  {
    assert TokenOk(s, token);
  }

  /** Suspension, its end, and revocation, each for a known node; a revoked one can only stay revoked. */
  lemma StatusIff(s: State, node: Uuid)
    requires NodesNamed(s)
    ensures (Apply(s, Suspend(node)).Ok? <==> node in s.nodes.rows && !s.nodes.rows[node].status.Revoked?)
    ensures Apply(s, Suspend(node)).Ok? ==> Changes(s, Apply(s, Suspend(node)).value, node, Suspended)
    ensures Apply(s, Resume(node)).Ok? <==> node in s.nodes.rows
    ensures Apply(s, Resume(node)).Ok? ==>
              if s.nodes.rows[node].status.Suspended? then Changes(s, Apply(s, Resume(node)).value, node, Live)
              else Apply(s, Resume(node)).value == s
    ensures Apply(s, Revoke(node)).Ok? <==> node in s.nodes.rows
    ensures Apply(s, Revoke(node)).Ok? ==> Changes(s, Apply(s, Revoke(node)).value, node, Revoked)
  {
  }

  /** Only the status of this node changes, in a new epoch. */
  predicate Changes(s: State, v: State, node: Uuid, status: NodeStatus) {
    && node in s.nodes.rows && node in v.nodes.rows && v.nodes.rows[node] == s.nodes.rows[node].(status := status)
    && v.nodes.rows - {node} == s.nodes.rows - {node} && v.byToken == s.byToken && v.epoch == s.epoch + 1 &&
        v.teams == s.teams && v.enrolls == s.enrolls
    && v.grants == s.grants && v.tasks == s.tasks
  }

  predicate IsRevoked(s: State, node: Uuid) {
    node in s.nodes.rows && s.nodes.rows[node].status.Revoked?
  }

  lemma {:induction false} CollectKeepsRevoked(s: State, order: seq<nat>, now: int, ttl: int, online: set<Uuid>,
                                               node: Uuid)
    requires IsRevoked(s, node) && NodesNamed(s)
    ensures IsRevoked(CollectNodes(s, order, now, ttl, online), node) &&
            NodesNamed(CollectNodes(s, order, now, ttl, online))
    decreases |order|
  {
    if order != [] {
      CollectKeepsRevoked(s, order[..|order| - 1], now, ttl, online, node);
    }
  }

  lemma {:induction false} TeamsKeepNodes(s: State, order: seq<nat>, now: int, ttl: int)
    ensures CollectTeams(s, order, now, ttl).nodes == s.nodes && CollectTeams(s, order, now, ttl).byToken == s.byToken
    ensures CollectTeams(s, order, now, ttl).grants == s.grants && CollectTeams(s, order, now, ttl).tasks == s.tasks
    decreases |order|
  {
    if order != [] {
      TeamsKeepNodes(s, order[..|order| - 1], now, ttl);
    }
  }

  predicate NodesNamed(s: State) {
    forall id :: id in s.nodes.rows ==> s.nodes.rows[id].id == id
  }

  lemma RevokedStep(s: State, op: Op, node: Uuid)
    requires IsRevoked(s, node) && NodesNamed(s) && Apply(s, op).Ok?
    requires (op.EnrollAlone? || op.EnrollWith?) ==> op.node != node
    ensures IsRevoked(Apply(s, op).value, node) && NodesNamed(Apply(s, op).value)
  {
    if op.Gc? {
      TeamsKeepNodes(s, s.teams.order, op.now, op.teamTtl);
      var t := CollectTeams(s, s.teams.order, op.now, op.teamTtl);
      CollectKeepsRevoked(t, t.nodes.order, op.now, op.nodeTtl, op.online, node);
    }
  }

  /** Revocation is for good: no run of mutations, node ids being new, makes the node anything but revoked again. */
  lemma {:induction false} RevokedStaysRevoked(s: State, ops: seq<Op>, node: Uuid)
    requires IsRevoked(s, node) && NodesNamed(s)
    requires forall i :: 0 <= i < |ops| && (ops[i].EnrollAlone? || ops[i].EnrollWith?) ==> ops[i].node != node
    ensures IsRevoked(Run(s, ops), node) && NodesNamed(Run(s, ops))
    decreases |ops|
  {
    if ops != [] {
      RevokedStaysRevoked(s, ops[..|ops| - 1], node);
      var t := Run(s, ops[..|ops| - 1]);
      if Apply(t, ops[|ops| - 1]).Ok? {
        RevokedStep(t, ops[|ops| - 1], node);
      }
    }
  }

  // ---- Joining, capabilities, grants ----

  /** A live node moves to the team of a usable token, and the token is spent. */
  lemma JoinIff(s: State, auth: Hash, hash: Hash, now: int)
    requires ValidState(s)
    ensures var r, n := Apply(s, Join(auth, hash, now)), Auth(s, auth);
            && (r.Ok? <==> n.Ok? && Usable(s, hash, now))
            && (r.Ok? ==>
                  && Auth(r.value, auth) == Ok(n.value.(team := s.enrolls.rows[hash].team, lastSeen := Some(now)))
                  && !Usable(r.value, hash, now) && OnlyNode(s, r.value, n.value.id) && r.value.epoch == s.epoch + 1)
  {
    if Auth(s, auth).Ok? {
      AuthenticatedNode(s, auth);
    }
  }

  lemma PutCapsIff(s: State, auth: Hash, caps: seq<string>, changed: bool, now: int)
    requires ValidState(s)
    ensures var r, n := Apply(s, PutCaps(auth, caps, changed, now)), Auth(s, auth);
            && (r.Ok? <==> n.Ok? && NonemptyAll(caps))
            && (r.Ok? ==>
                  && Auth(r.value, auth) == Ok(n.value.(caps := caps, lastSeen := Some(now),
                                                        capsRev := n.value.capsRev + if changed then 1 else 0))
                  && OnlyNode(s, r.value, n.value.id) && r.value.epoch == s.epoch)
  {
    if Auth(s, auth).Ok? {
      AuthenticatedNode(s, auth);
    }
  }

  /** The tags one team sees of another: those of the grants between them. */
  predicate Granted(s: State, g: Grant) {
    g.id in s.grants.rows && s.grants.rows[g.id] == g
  }

  lemma GrantIff(s: State, g: Grant)
    ensures var r := Apply(s, CreateGrant(g.id, g.from, g.to, g.caps, g.expiresAt));
            && (r.Ok? <==> g.from in s.teams.rows && g.to in s.teams.rows && g.from != g.to)
            && (r.Ok? ==> Granted(r.value, g) && r.value == s.(grants := r.value.grants, epoch := s.epoch + 1)
                          && r.value.grants.rows - {g.id} == s.grants.rows - {g.id})
  {
  }

  lemma RevokeGrantIff(s: State, id: Uuid)
    ensures var r := Apply(s, RevokeGrant(id));
            && (r.Ok? <==> id in s.grants.rows)
            && (r.Ok? ==> r.value == s.(grants := r.value.grants, epoch := s.epoch + 1)
                          && r.value.grants.rows == s.grants.rows - {id})
  {
  }

  // ---- Task reports ----

  /** An older revision, or one that goes back to an earlier attempt. */
  predicate Stale(known: TaskRow, t: TaskRow) {
    t.taskSeq != known.taskSeq && (t.taskSeq < known.taskSeq || t.attempt < known.attempt)
  }

  /** A report is taken exactly from its task's lead, of its kind, further on or the same again, for a known node. */
  lemma ReportIff(s: State, auth: Hash, team: Uuid, t: TaskRow, now: int)
    requires ValidState(s)
    ensures var r, n := Apply(s, ReportTask(auth, team, t, now)), Auth(s, auth);
            var mine := n.Ok? && n.value.team == team && t.team == team && t.lead == n.value.id
                        && (t.id in s.tasks.rows ==>
                              s.tasks.rows[t.id].team == team && s.tasks.rows[t.id].lead == n.value.id);
            var known := t.id in s.tasks.rows;
            var same := known && s.tasks.rows[t.id].taskSeq == t.taskSeq;
            && (r.Ok? <==> mine && (known ==> s.tasks.rows[t.id].kind == t.kind && !Stale(s.tasks.rows[t.id], t))
                           && (same ==> s.tasks.rows[t.id] == t)
                           && (!same && t.exec.Some? ==> t.exec.value in s.nodes.rows))
            && (r.Ok? ==> t.id in r.value.tasks.rows && r.value.tasks.rows[t.id] == t
                          && r.value.tasks.rows - {t.id} == s.tasks.rows - {t.id}
                          && Auth(r.value, auth) == Ok(n.value.(lastSeen := Some(now))) && r.value.epoch == s.epoch)
  {
    if Auth(s, auth).Ok? {
      AuthenticatedNode(s, auth);
    }
  }

  // ---- Collection ----

  predicate TeamGoes(s: State, team: Uuid, now: int, ttl: int) {
    && team in s.teams.rows && s.teams.rows[team].owner.None? && !Referenced(s, team)
    && now - s.teams.rows[team].createdAt >= ttl
  }

  predicate NodeGoes(s: State, node: Uuid, now: int, ttl: int, online: set<Uuid>) {
    && node in s.nodes.rows && s.nodes.rows[node].status.Live? && node !in online
    && now - (if s.nodes.rows[node].lastSeen.Some? then s.nodes.rows[node].lastSeen.value
        else s.nodes.rows[node].joinedAt) >= ttl
  }

  lemma {:induction false} TeamsCollected(s: State, order: seq<nat>, now: int, ttl: int)
    ensures var v := CollectTeams(s, order, now, ttl);
            forall k :: k in v.teams.rows <==> k in s.teams.rows && !(k in order && TeamGoes(s, k, now, ttl))
    ensures var v := CollectTeams(s, order, now, ttl);
            forall k :: k in v.teams.rows ==> v.teams.rows[k] == s.teams.rows[k]
    decreases |order|
  {
    if order != [] {
      var front, last := order[..|order| - 1], order[|order| - 1];
      assert order == front + [last];
      TeamsCollected(s, front, now, ttl);
      TeamsKeepNodes(s, front, now, ttl);
      var t := CollectTeams(s, front, now, ttl);
      assert Referenced(t, last) <==> Referenced(s, last);
    }
  }

  lemma {:induction false} NodesCollected(s: State, order: seq<nat>, now: int, ttl: int, online: set<Uuid>)
    requires NodesNamed(s)
    ensures var v := CollectNodes(s, order, now, ttl, online);
            v.nodes.rows.Keys == s.nodes.rows.Keys && forall k :: k in s.nodes.rows ==>
              v.nodes.rows[k] == if k in order && NodeGoes(s, k, now, ttl, online)
                                 then s.nodes.rows[k].(status := Revoked, caps := []) else s.nodes.rows[k]
    decreases |order|
  {
    if order != [] {
      var front, last := order[..|order| - 1], order[|order| - 1];
      assert order == front + [last];
      NodesCollected(s, front, now, ttl, online);
      var t := CollectNodes(s, front, now, ttl, online);
      assert NodesNamed(t);
    }
  }

  /**
   * Collection takes exactly the ownerless, unreferenced teams that are old enough, and revokes exactly the live nodes
   * that are offline and were not seen for long; every other team and node is as it was.
   */
  lemma CollectIff(s: State, now: int, teamTtl: int, nodeTtl: int, online: set<Uuid>)
    requires ValidState(s)
    ensures Apply(s, Gc(now, teamTtl, nodeTtl, online)).Ok?
    ensures var v := Apply(s, Gc(now, teamTtl, nodeTtl, online)).value;
            && (forall k :: k in v.teams.rows <==> k in s.teams.rows && !TeamGoes(s, k, now, teamTtl))
            && (forall k :: k in v.teams.rows ==> v.teams.rows[k] == s.teams.rows[k])
            && v.nodes.rows.Keys == s.nodes.rows.Keys
            && (forall k :: k in s.nodes.rows ==>
                  v.nodes.rows[k] == if NodeGoes(s, k, now, nodeTtl, online)
                                     then s.nodes.rows[k].(status := Revoked, caps := []) else s.nodes.rows[k])
            && v.grants == s.grants && v.tasks == s.tasks && v.byToken == s.byToken
  {
    TeamsCollected(s, s.teams.order, now, teamTtl);
    TeamsKeepNodes(s, s.teams.order, now, teamTtl);
    var t := CollectTeams(s, s.teams.order, now, teamTtl);
    assert NodesNamed(t) by {
      forall id | id in s.nodes.rows ensures s.nodes.rows[id].id == id {
        assert NodeOk(s, id, s.nodes.rows[id]);
      }
    }
    NodesCollected(t, t.nodes.order, now, nodeTtl, online);
    NodesSpend(t, t.nodes.order, now, nodeTtl, online);
    NodesKeepRest(t, t.nodes.order, now, nodeTtl, online);
  }

  lemma {:induction false} NodesKeepRest(s: State, order: seq<nat>, now: int, ttl: int, online: set<Uuid>)
    ensures CollectNodes(s, order, now, ttl, online).grants == s.grants
    ensures CollectNodes(s, order, now, ttl, online).tasks == s.tasks
    decreases |order|
  {
    if order != [] {
      NodesKeepRest(s, order[..|order| - 1], now, ttl, online);
    }
  }
}
