/** The centre's directory: its state, its validation, and every mutation. */
module Registry {
  import opened Core
  import O = Ordered
  import L = LeadMachine
  import W = Wire

  type Hash = nat

  datatype TeamState = Active | SelfOwned | Orphan

  datatype Team = Team(id: Uuid, name: string, owner: Option<string>, state: TeamState, createdAt: int)

  datatype KeyEntry = KeyEntry(epoch: int, pubkey: string)

  datatype NodeStatus = Live | Suspended | Revoked

  datatype Node = Node(id: Uuid, team: Uuid, name: string, status: NodeStatus, keys: seq<KeyEntry>, token: Hash,
                       caps: seq<string>, capsRev: int, lastSeen: Option<int>, joinedAt: int)

  datatype Enroll = Enroll(hash: Hash, team: Uuid, expiresAt: int, usedBy: Option<Uuid>, consumedAt: Option<int>)

  datatype Grant = Grant(id: Uuid, from: Uuid, to: Uuid, caps: seq<string>, expiresAt: Option<int>)

  datatype TaskRow = TaskRow(id: Uuid, kind: W.Kind, team: Uuid, lead: Uuid, exec: Option<Uuid>, attempt: int,
                             status: L.LeadState, taskSeq: int)

  datatype State = State(teams: O.Table<Team>, nodes: O.Table<Node>, enrolls: O.Table<Enroll>, byToken: map<Hash, Uuid>,
                         grants: O.Table<Grant>, tasks: O.Table<TaskRow>, epoch: int)

  // ---- Validation ----

  predicate NonemptyAll(ss: seq<string>) {
    forall i :: 0 <= i < |ss| ==> ss[i] != ""
  }

  /** Key epochs are positive and increase; the newest is not ahead of the directory. */
  predicate KeysOk(ks: seq<KeyEntry>, epoch: int) {
    && |ks| > 0 && ks[|ks| - 1].epoch <= epoch
    && (forall i :: 0 <= i < |ks| ==> Positive(ks[i].epoch) && ks[i].pubkey != "")
    && (forall i :: 0 < i < |ks| ==> ks[i - 1].epoch < ks[i].epoch)
  }

  predicate NodeOk(s: State, id: Uuid, n: Node) {
    && n.id == id && n.team in s.teams.rows && n.name != "" && KeysOk(n.keys, s.epoch) && NonemptyAll(n.caps) &&
        Positive(n.capsRev)
    && n.token in s.byToken && s.byToken[n.token] == id
  }

  predicate EnrollOk(s: State, h: Hash, e: Enroll) {
    && e.hash == h && e.team in s.teams.rows && (e.usedBy.None? <==> e.consumedAt.None?)
    && (e.usedBy.Some? ==> e.usedBy.value in s.nodes.rows)
  }

  predicate GrantOk(s: State, id: Uuid, g: Grant) {
    g.id == id && g.from != g.to && g.from in s.teams.rows && g.to in s.teams.rows && NonemptyAll(g.caps)
  }

  predicate TaskOk(s: State, id: Uuid, t: TaskRow) {
    && t.id == id && t.team in s.teams.rows && t.lead in s.nodes.rows && (t.exec.Some? ==> t.exec.value in s.nodes.rows)
    && (t.kind.Aid? || t.kind.Project?) && Positive(t.attempt) && Nonnegative(t.taskSeq)
  }

  ghost predicate TablesOk(s: State) {
    O.Valid(s.teams) && O.Valid(s.nodes) && O.Valid(s.enrolls) && O.Valid(s.grants) && O.Valid(s.tasks)
  }

  predicate TeamOk(s: State, id: Uuid)
    requires id in s.teams.rows
  {
    s.teams.rows[id].id == id
  }

  predicate TokenOk(s: State, h: Hash)
    requires h in s.byToken
  {
    s.byToken[h] in s.nodes.rows && s.nodes.rows[s.byToken[h]].token == h
  }

  predicate RowsOk(s: State) {
    && (forall id {:trigger TeamOk(s, id)} :: id in s.teams.rows ==> TeamOk(s, id))
    && (forall id {:trigger NodeOk(s, id, s.nodes.rows[id])} :: id in s.nodes.rows ==> NodeOk(s, id, s.nodes.rows[id]))
    && (forall h {:trigger TokenOk(s, h)} :: h in s.byToken ==> TokenOk(s, h))
    && (forall h {:trigger EnrollOk(s, h, s.enrolls.rows[h])} ::
        h in s.enrolls.rows ==> EnrollOk(s, h, s.enrolls.rows[h]))
    && (forall id {:trigger GrantOk(s, id, s.grants.rows[id])} ::
        id in s.grants.rows ==> GrantOk(s, id, s.grants.rows[id]))
    && (forall id {:trigger TaskOk(s, id, s.tasks.rows[id])} :: id in s.tasks.rows ==> TaskOk(s, id, s.tasks.rows[id]))
  }

  /** Validation proper. Each node and each grant moved the directory's epoch at least once. */
  predicate Acceptable(s: State) {
    RowsOk(s) && Nonnegative(s.epoch) && s.epoch >= |s.nodes.order| + |s.grants.order|
  }

  ghost predicate ValidState(s: State) {
    TablesOk(s) && Acceptable(s)
  }

  const EMPTY := State(O.Table([], map[]), O.Table([], map[]), O.Table([], map[]), map[], O.Table([], map[]),
      O.Table([], map[]), 0)

  // ---- Mutations ----

  datatype Op =
    | CreateTeam(team: Uuid, name: string, owner: Option<string>, now: int)
    | Issue(team: Uuid, hash: Hash, expiresAt: int)
    | EnrollAlone(pubkey: string, team: Uuid, node: Uuid, token: Hash, now: int)
    | EnrollWith(hash: Hash, pubkey: string, node: Uuid, token: Hash, now: int, maxNodes: nat)
    | Join(auth: Hash, hash: Hash, now: int)
    | Rotate(auth: Hash, pubkey: string, verified: bool, now: int, maxKeys: nat)
    | Suspend(node: Uuid)
    | Resume(node: Uuid)
    | Revoke(node: Uuid)
    | PutCaps(auth: Hash, caps: seq<string>, changed: bool, now: int)
    | CreateGrant(grant: Uuid, from: Uuid, to: Uuid, caps: seq<string>, until: Option<int>)
    | RevokeGrant(grant: Uuid)
    | ReportTask(auth: Hash, team: Uuid, task: TaskRow, now: int)
    | Gc(now: int, teamTtl: int, nodeTtl: int, online: set<Uuid>)

  /** A token of a live node; suspended and revoked nodes are refused. */
  function Auth(s: State, token: Hash): Result<Node> {
    if token !in s.byToken || s.byToken[token] !in s.nodes.rows then Err("not_team_member")
    else
      var n := s.nodes.rows[s.byToken[token]];
      if n.status.Suspended? then Err("node_suspended") else if n.status.Revoked? then Err("node_revoked") else Ok(n)
  }

  function Replace(s: State, n: Node, epoch: int): State {
    s.(nodes := O.Put(s.nodes, n.id, n), epoch := epoch)
  }

  function Owned(s: State, owner: string, order: seq<nat>): nat {
    if order == [] then 0
    else
      var k := order[|order| - 1];
      Owned(s, owner, order[..|order| - 1]) +
      (if k in s.nodes.rows && s.nodes.rows[k].team in s.teams.rows &&
          s.teams.rows[s.nodes.rows[k].team].owner == Some(owner) then 1 else 0)
  }

  function AddNode(s: State, team: Uuid, pubkey: string, node: Uuid, token: Hash, now: int): State {
    s.(nodes := O.Put(s.nodes, node, Node(node, team, "node", Live, [KeyEntry(1, pubkey)], token, [], 1, None, now)),
       byToken := s.byToken[token := node], epoch := s.epoch + 1)
  }

  predicate Usable(s: State, h: Hash, now: int) {
    h in s.enrolls.rows && s.enrolls.rows[h].consumedAt.None? && now <= s.enrolls.rows[h].expiresAt
  }

  function Consume(s: State, h: Hash, node: Uuid, now: int): State
    requires h in s.enrolls.rows
  {
    s.(enrolls := O.Put(s.enrolls, h, s.enrolls.rows[h].(usedBy := Some(node), consumedAt := Some(now))))
  }

  /** The newest keys, at most `max` of them. */
  function Shift(ks: seq<KeyEntry>, max: nat): seq<KeyEntry> {
    if |ks| > max && |ks| > 0 then Shift(ks[1..], max) else ks
  }

  predicate Referenced(s: State, team: Uuid) {
    || (exists k :: k in s.nodes.rows && s.nodes.rows[k].team == team)
    || (exists k :: k in s.grants.rows && (s.grants.rows[k].from == team || s.grants.rows[k].to == team))
    || (exists k :: k in s.tasks.rows && s.tasks.rows[k].team == team)
  }

  /** Delete the enrolment tokens of a team, in table order. */
  function DropTokens(t: O.Table<Enroll>, team: Uuid, order: seq<nat>): O.Table<Enroll> {
    if order == [] then t
    else
      var rest := DropTokens(t, team, order[..|order| - 1]);
      var h := order[|order| - 1];
      if h in rest.rows && rest.rows[h].team == team then O.Del(rest, h) else rest
  }

  function Report(s: State, n: Node, team: Uuid, t: TaskRow): Result<State> {
    var known := t.id in s.tasks.rows;
    if n.team != team || t.team != team || t.lead != n.id then Err("not_team_member")
    else if known && (s.tasks.rows[t.id].team != team || s.tasks.rows[t.id].lead != n.id) then Err("not_team_member")
    else if known && s.tasks.rows[t.id].kind != t.kind then Err("task_kind_conflict")
    else if known && s.tasks.rows[t.id].taskSeq == t.taskSeq then
      if s.tasks.rows[t.id] == t then Ok(s) else Err("task_revision_conflict")
    else if known && (t.taskSeq < s.tasks.rows[t.id].taskSeq || t.attempt < s.tasks.rows[t.id].attempt)
    then Err("stale_task_report")
    else if t.exec.Some? && t.exec.value !in s.nodes.rows then Err("bad_request")
    else Ok(s.(tasks := O.Put(s.tasks, t.id, t)))
  }

  /** Authentication stamps the node as seen; the stamp is part of the same commit. */
  function Touched(n: Node, now: int): Node {
    n.(lastSeen := Some(now))
  }

  function DoIssue(s: State, team: Uuid, hash: Hash, expiresAt: int): Result<State> {
    if team !in s.teams.rows then Err("bad_request")
    else Ok(s.(enrolls := O.Put(s.enrolls, hash, Enroll(hash, team, expiresAt, None, None))))
  }

  function DoEnrollAlone(s: State, pubkey: string, team: Uuid, node: Uuid, token: Hash, now: int): Result<State> {
    if pubkey == "" then Err("bad_request")
    else Ok(AddNode(s.(teams := O.Put(s.teams, team, Team(team, "self-owned", None, SelfOwned, now))), team, pubkey,
        node, token, now))
  }

  function DoEnrollWith(s: State, hash: Hash, pubkey: string, node: Uuid, token: Hash, now: int,
                        maxNodes: nat): Result<State> {
    if pubkey == "" then Err("bad_request")
    else if !Usable(s, hash, now) then Err("enroll_token")
    else
      var team := s.enrolls.rows[hash].team;
      if team in s.teams.rows && s.teams.rows[team].owner.Some? &&
         Owned(s, s.teams.rows[team].owner.value, s.nodes.order) >= maxNodes then Err("quota_exceeded")
      else Ok(Consume(AddNode(s, team, pubkey, node, token, now), hash, node, now))
  }

  function DoJoin(s: State, auth: Hash, hash: Hash, now: int): Result<State> {
    var n := Auth(s, auth);
    if n.Err? then Err(n.error)
    else if !Usable(s, hash, now) then Err("enroll_token")
    else Ok(Consume(Replace(s, Touched(n.value, now).(team := s.enrolls.rows[hash].team), s.epoch + 1), hash,
        n.value.id, now))
  }

  function Rotated(ks: seq<KeyEntry>, pubkey: string, maxKeys: nat): seq<KeyEntry>
    requires |ks| > 0
  {
    Shift(ks + [KeyEntry(ks[|ks| - 1].epoch + 1, pubkey)], maxKeys)
  }

  function DoRotate(s: State, auth: Hash, pubkey: string, verified: bool, now: int, maxKeys: nat): Result<State> {
    var n := Auth(s, auth);
    if n.Err? then Err(n.error)
    else if !verified || pubkey == "" || |n.value.keys| == 0 then Err("bad_request")
    else Ok(Replace(s, Touched(n.value, now).(keys := Rotated(n.value.keys, pubkey, maxKeys)), s.epoch + 1))
  }

  function SetStatus(s: State, node: Uuid, status: NodeStatus): State
    requires node in s.nodes.rows
  {
    Replace(s, s.nodes.rows[node].(status := status), s.epoch + 1)
  }

  function DoSuspend(s: State, node: Uuid): Result<State> {
    if node !in s.nodes.rows then Err("bad_request")
    else if s.nodes.rows[node].status.Revoked? then Err("node_revoked")
    else Ok(SetStatus(s, node, Suspended))
  }

  function DoResume(s: State, node: Uuid): Result<State> {
    if node !in s.nodes.rows then Err("bad_request")
    else if s.nodes.rows[node].status.Suspended? then Ok(SetStatus(s, node, Live)) else Ok(s)
  }

  function DoRevoke(s: State, node: Uuid): Result<State> {
    if node !in s.nodes.rows then Err("bad_request") else Ok(SetStatus(s, node, Revoked))
  }

  /** The revision counts changes of the sorted tags only. */
  function Recapped(n: Node, caps: seq<string>, changed: bool, now: int): Node {
    Touched(n, now).(caps := caps, capsRev := if changed then n.capsRev + 1 else n.capsRev)
  }

  function DoPutCaps(s: State, auth: Hash, caps: seq<string>, changed: bool, now: int): Result<State> {
    var n := Auth(s, auth);
    if n.Err? then Err(n.error)
    else if !NonemptyAll(caps) then Err("bad_request")
    else Ok(Replace(s, Recapped(n.value, caps, changed, now), s.epoch))
  }

  function DoGrant(s: State, g: Grant): Result<State> {
    if g.from !in s.teams.rows || g.to !in s.teams.rows || g.from == g.to then Err("bad_request")
    else Ok(s.(grants := O.Put(s.grants, g.id, g), epoch := s.epoch + 1))
  }

  function DoRevokeGrant(s: State, id: Uuid): Result<State> {
    if id !in s.grants.rows then Err("bad_request") else Ok(s.(grants := O.Del(s.grants, id), epoch := s.epoch + 1))
  }

  function DoReport(s: State, auth: Hash, team: Uuid, task: TaskRow, now: int): Result<State> {
    var n := Auth(s, auth);
    if n.Err? then Err(n.error) else Report(Replace(s, Touched(n.value, now), s.epoch), n.value, team, task)
  }

  /** A team without owner, references and recent creation goes, with its enrolment tokens. */
  function DoCollectTeam(s: State, team: Uuid, now: int, ttl: int): State {
    if team !in s.teams.rows || s.teams.rows[team].owner.Some? || Referenced(s, team) ||
        now - s.teams.rows[team].createdAt < ttl then s
    else s.(teams := O.Del(s.teams, team), enrolls := DropTokens(s.enrolls, team, s.enrolls.order),
        epoch := s.epoch + 1)
  }

  /** A live node that is neither online nor seen for long is revoked; its token mapping stays. */
  function DoCollectNode(s: State, node: Uuid, now: int, ttl: int, online: bool): State {
    if node !in s.nodes.rows || !s.nodes.rows[node].status.Live? || online then s
    else
      var n := s.nodes.rows[node];
      if now - (if n.lastSeen.Some? then n.lastSeen.value else n.joinedAt) < ttl then s
      else Replace(s, n.(status := Revoked, caps := []), s.epoch + 1)
  }

  function CollectTeams(s: State, order: seq<nat>, now: int, ttl: int): State {
    if order == [] then s
    else DoCollectTeam(CollectTeams(s, order[..|order| - 1], now, ttl), order[|order| - 1], now, ttl)
  }

  function CollectNodes(s: State, order: seq<nat>, now: int, ttl: int, online: set<Uuid>): State {
    if order == [] then s
    else
      var k := order[|order| - 1];
      DoCollectNode(CollectNodes(s, order[..|order| - 1], now, ttl, online), k, now, ttl, k in online)
  }

  /** Garbage collection: first the teams, then the nodes, each in iteration order. */
  function Collected(s: State, now: int, teamTtl: int, nodeTtl: int, online: set<Uuid>): State {
    var t := CollectTeams(s, s.teams.order, now, teamTtl);
    CollectNodes(t, t.nodes.order, now, nodeTtl, online)
  }

  function Apply(s: State, op: Op): Result<State> {
    match op
    case CreateTeam(team, name, owner, now) =>
      Ok(s.(teams := O.Put(s.teams, team, Team(team, name, owner, if owner.Some? then Active else Orphan, now))))
    case Issue(team, hash, expiresAt) => DoIssue(s, team, hash, expiresAt)
    case EnrollAlone(pubkey, team, node, token, now) => DoEnrollAlone(s, pubkey, team, node, token, now)
    case EnrollWith(hash, pubkey, node, token, now, maxNodes) => DoEnrollWith(s, hash, pubkey, node, token, now,
        maxNodes)
    case Join(auth, hash, now) => DoJoin(s, auth, hash, now)
    case Rotate(auth, pubkey, verified, now, maxKeys) => DoRotate(s, auth, pubkey, verified, now, maxKeys)
    case Suspend(node) => DoSuspend(s, node)
    case Resume(node) => DoResume(s, node)
    case Revoke(node) => DoRevoke(s, node)
    case PutCaps(auth, caps, changed, now) => DoPutCaps(s, auth, caps, changed, now)
    case CreateGrant(grant, from, to, caps, until) => DoGrant(s, Grant(grant, from, to, caps, until))
    case RevokeGrant(grant) => DoRevokeGrant(s, grant)
    case ReportTask(auth, team, task, now) => DoReport(s, auth, team, task, now)
    case Gc(now, teamTtl, nodeTtl, online) => Ok(Collected(s, now, teamTtl, nodeTtl, online))
  }

  /** New identifiers are new, and counters have room: random ids do not repeat. */
  predicate WellTyped(s: State, op: Op) {
    && Safe(s.epoch + 1)
    && match op
       case CreateTeam(team, _, _, _) => team !in s.teams.rows
       case EnrollAlone(_, team, node, token, _) => team !in s.teams.rows && node !in s.nodes.rows &&
           token !in s.byToken
       case EnrollWith(_, _, node, token, _, _) => node !in s.nodes.rows && token !in s.byToken
       case Rotate(_, _, _, _, maxKeys) => maxKeys >= 3
       case PutCaps(auth, _, changed, _) => Auth(s, auth).Ok? ==> Safe(Auth(s, auth).value.capsRev + 1)
       case Gc(_, _, _, _) => Safe(s.epoch + |s.teams.order| + |s.nodes.order|)
       case CreateGrant(grant, _, _, caps, _) => grant !in s.grants.rows && NonemptyAll(caps)
       case ReportTask(_, _, task, _) => (task.kind.Aid? || task.kind.Project?) && Positive(task.attempt) &&
           Nonnegative(task.taskSeq)
       case _ => true
  }

  // ---- Validity ----

  lemma EmptyValid()
    ensures ValidState(EMPTY)
  {
  }

  /** Rows that mention teams and nodes survive when both only grow and the epoch does not go back. */
  lemma KeepRows(s: State, v: State)
    requires RowsOk(s) && v.epoch >= s.epoch
    requires forall id :: id in s.teams.rows ==> id in v.teams.rows
    requires forall id :: id in s.nodes.rows ==> id in v.nodes.rows
    requires forall id :: id in v.teams.rows ==>
               (id in s.teams.rows && v.teams.rows[id] == s.teams.rows[id]) || TeamOk(v, id)
    requires forall id :: id in v.nodes.rows ==> NodeOk(v, id, v.nodes.rows[id])
    requires forall h :: h in v.byToken ==> TokenOk(v, h)
    requires forall h :: h in v.enrolls.rows ==>
               (h in s.enrolls.rows && v.enrolls.rows[h] == s.enrolls.rows[h]) || EnrollOk(v, h, v.enrolls.rows[h])
    requires forall id :: id in v.grants.rows ==>
               (id in s.grants.rows && v.grants.rows[id] == s.grants.rows[id]) || GrantOk(v, id, v.grants.rows[id])
    requires forall id :: id in v.tasks.rows ==>
               (id in s.tasks.rows && v.tasks.rows[id] == s.tasks.rows[id]) || TaskOk(v, id, v.tasks.rows[id])
    ensures RowsOk(v)
  {
    forall id | id in v.teams.rows ensures TeamOk(v, id) {
      if id in s.teams.rows {
        assert TeamOk(s, id);
      }
    }
    forall h | h in v.enrolls.rows ensures EnrollOk(v, h, v.enrolls.rows[h]) {
      if h in s.enrolls.rows {
        assert EnrollOk(s, h, s.enrolls.rows[h]);
      }
    }
    forall id | id in v.grants.rows ensures GrantOk(v, id, v.grants.rows[id]) {
      if id in s.grants.rows {
        assert GrantOk(s, id, s.grants.rows[id]);
      }
    }
    forall id | id in v.tasks.rows ensures TaskOk(v, id, v.tasks.rows[id]) {
      if id in s.tasks.rows {
        assert TaskOk(s, id, s.tasks.rows[id]);
      }
    }
  }

  /** The same, when the nodes are untouched. */
  lemma KeepNodes(s: State, v: State)
    requires RowsOk(s) && v.epoch >= s.epoch && v.nodes == s.nodes && v.byToken == s.byToken
    requires forall id :: id in s.teams.rows ==> id in v.teams.rows
    ensures forall id :: id in v.nodes.rows ==> NodeOk(v, id, v.nodes.rows[id])
    ensures forall h :: h in v.byToken ==> TokenOk(v, h)
  {
    forall id | id in v.nodes.rows ensures NodeOk(v, id, v.nodes.rows[id]) {
      assert NodeOk(s, id, s.nodes.rows[id]);
    }
    forall h | h in v.byToken ensures TokenOk(v, h) {
      assert TokenOk(s, h);
    }
  }

  /** Replacing a node's record by one with the same identity, under an epoch that did not go back. */
  lemma ReplaceRows(s: State, n: Node, epoch: int)
    requires RowsOk(s) && n.id in s.nodes.rows && epoch >= s.epoch
    requires n.token == s.nodes.rows[n.id].token && n.team in s.teams.rows && n.name != "" && KeysOk(n.keys, epoch)
    requires NonemptyAll(n.caps) && Positive(n.capsRev)
    ensures RowsOk(Replace(s, n, epoch))
  {
    var v := Replace(s, n, epoch);
    assert NodeOk(s, n.id, s.nodes.rows[n.id]);
    forall id | id in v.nodes.rows ensures NodeOk(v, id, v.nodes.rows[id]) {
      if id != n.id {
        assert NodeOk(s, id, s.nodes.rows[id]);
      }
    }
    forall h | h in v.byToken ensures TokenOk(v, h) {
      assert TokenOk(s, h);
    }
    KeepRows(s, v);
  }

  lemma ReplaceValid(s: State, n: Node, epoch: int)
    requires ValidState(s) && n.id in s.nodes.rows && Nonnegative(epoch) && epoch >= s.epoch
    requires n.token == s.nodes.rows[n.id].token && n.team in s.teams.rows && n.name != "" && KeysOk(n.keys, epoch)
    requires NonemptyAll(n.caps) && Positive(n.capsRev)
    ensures ValidState(Replace(s, n, epoch))
  {
    O.PutValid(s.nodes, n.id, n);
    ReplaceRows(s, n, epoch);
  }

  lemma AddNodeValid(s: State, team: Uuid, pubkey: string, node: Uuid, token: Hash, now: int)
    requires ValidState(s) && team in s.teams.rows && pubkey != "" && node !in s.nodes.rows && token !in s.byToken &&
             Safe(s.epoch + 1)
    ensures ValidState(AddNode(s, team, pubkey, node, token, now))
  {
    var v := AddNode(s, team, pubkey, node, token, now);
    O.PutValid(s.nodes, node, v.nodes.rows[node]);
    forall id | id in v.nodes.rows ensures NodeOk(v, id, v.nodes.rows[id]) {
      if id != node {
        assert NodeOk(s, id, s.nodes.rows[id]);
      }
    }
    forall h | h in v.byToken ensures TokenOk(v, h) {
      if h != token {
        assert TokenOk(s, h);
      }
    }
    KeepRows(s, v);
  }

  lemma AddTeamValid(s: State, t: Team)
    requires ValidState(s)
    ensures ValidState(s.(teams := O.Put(s.teams, t.id, t)))
  {
    var v := s.(teams := O.Put(s.teams, t.id, t));
    O.PutValid(s.teams, t.id, t);
    KeepNodes(s, v);
    KeepRows(s, v);
  }

  lemma PutEnrollValid(s: State, e: Enroll)
    requires ValidState(s) && EnrollOk(s, e.hash, e)
    ensures ValidState(s.(enrolls := O.Put(s.enrolls, e.hash, e)))
  {
    var v := s.(enrolls := O.Put(s.enrolls, e.hash, e));
    O.PutValid(s.enrolls, e.hash, e);
    KeepNodes(s, v);
    KeepRows(s, v);
  }

  lemma ConsumeValid(s: State, h: Hash, node: Uuid, now: int)
    requires ValidState(s) && h in s.enrolls.rows && node in s.nodes.rows
    ensures ValidState(Consume(s, h, node, now))
  {
    assert EnrollOk(s, h, s.enrolls.rows[h]);
    PutEnrollValid(s, s.enrolls.rows[h].(usedBy := Some(node), consumedAt := Some(now)));
  }

  lemma PutGrantValid(s: State, g: Grant)
    requires ValidState(s) && GrantOk(s, g.id, g) && g.id !in s.grants.rows && Safe(s.epoch + 1)
    ensures ValidState(s.(grants := O.Put(s.grants, g.id, g), epoch := s.epoch + 1))
  {
    var v := s.(grants := O.Put(s.grants, g.id, g), epoch := s.epoch + 1);
    O.PutValid(s.grants, g.id, g);
    KeepNodes(s, v);
    KeepRows(s, v);
  }

  lemma {:induction false} ExceptShorter(s: seq<nat>, ks: set<nat>)
    ensures |O.Except(s, ks)| <= |s|
    decreases |s|
  {
    if s != [] {
      ExceptShorter(s[..|s| - 1], ks);
    }
  }

  lemma DelGrantValid(s: State, id: Uuid)
    requires ValidState(s) && Safe(s.epoch + 1)
    ensures ValidState(s.(grants := O.Del(s.grants, id), epoch := s.epoch + 1))
  {
    var v := s.(grants := O.Del(s.grants, id), epoch := s.epoch + 1);
    O.DelValid(s.grants, id);
    ExceptShorter(s.grants.order, {id});
    KeepNodes(s, v);
    KeepRows(s, v);
  }

  lemma PutTaskValid(s: State, t: TaskRow)
    requires ValidState(s) && TaskOk(s, t.id, t)
    ensures ValidState(s.(tasks := O.Put(s.tasks, t.id, t)))
  {
    var v := s.(tasks := O.Put(s.tasks, t.id, t));
    O.PutValid(s.tasks, t.id, t);
    KeepNodes(s, v);
    KeepRows(s, v);
  }

  lemma {:induction false} DropTokensIs(before: O.Table<Enroll>, t: O.Table<Enroll>, team: Uuid, order: seq<nat>)
    requires O.Valid(before) && O.Valid(t) && O.OrderKept(before, t)
    ensures var u := DropTokens(t, team, order);
            && O.Valid(u) && O.OrderKept(before, u)
            && (forall h :: h in u.rows ==> h in t.rows && u.rows[h] == t.rows[h])
            && (forall h :: h in u.rows && h in order ==> u.rows[h].team != team)
    decreases |order|
  {
    if order != [] {
      var front, h := order[..|order| - 1], order[|order| - 1];
      DropTokensIs(before, t, team, front);
      assert order == front + [h];
      var rest := DropTokens(t, team, front);
      O.DelValid(rest, h);
      O.DelKeepsOrder(before, rest, h);
    }
  }

  lemma CollectedRows(s: State, v: State, team: Uuid)
    requires RowsOk(s) && !Referenced(s, team) && v.epoch >= s.epoch
    requires v.nodes == s.nodes && v.byToken == s.byToken && v.grants == s.grants && v.tasks == s.tasks
    requires v.teams.rows == s.teams.rows - {team}
    requires forall h :: h in v.enrolls.rows ==>
               h in s.enrolls.rows && v.enrolls.rows[h] == s.enrolls.rows[h] && v.enrolls.rows[h].team != team
    ensures RowsOk(v)
  {
    forall id | id in v.teams.rows ensures TeamOk(v, id) {
      assert TeamOk(s, id);
    }
    forall h | h in v.byToken ensures TokenOk(v, h) {
      assert TokenOk(s, h);
    }
    forall id | id in v.nodes.rows ensures NodeOk(v, id, v.nodes.rows[id]) {
      assert NodeOk(s, id, s.nodes.rows[id]);
    }
    forall h | h in v.enrolls.rows ensures EnrollOk(v, h, v.enrolls.rows[h]) {
      assert EnrollOk(s, h, s.enrolls.rows[h]);
    }
    forall id | id in v.grants.rows ensures GrantOk(v, id, v.grants.rows[id]) {
      assert GrantOk(s, id, s.grants.rows[id]);
    }
    forall id | id in v.tasks.rows ensures TaskOk(v, id, v.tasks.rows[id]) {
      assert TaskOk(s, id, s.tasks.rows[id]);
    }
  }

  lemma CollectTeamValid(s: State, team: Uuid, now: int, ttl: int)
    requires ValidState(s) && Safe(s.epoch + 1)
    ensures ValidState(DoCollectTeam(s, team, now, ttl))
  {
    var v := DoCollectTeam(s, team, now, ttl);
    if v != s {
      O.DelValid(s.teams, team);
      O.OrderKeptSame(s.enrolls);
      DropTokensIs(s.enrolls, s.enrolls, team, s.enrolls.order);
      CollectedRows(s, v, team);
    }
  }

  /** Dropping the oldest keys keeps the newest, in order. */
  lemma {:induction false} ShiftKeepsKeys(ks: seq<KeyEntry>, max: nat, epoch: int)
    requires KeysOk(ks, epoch) && max >= 1
    ensures KeysOk(Shift(ks, max), epoch) && |Shift(ks, max)| <= Max(max, 0)
    ensures Shift(ks, max)[|Shift(ks, max)| - 1] == ks[|ks| - 1]
    decreases |ks|
  {
    if |ks| > max {
      ShiftKeepsKeys(ks[1..], max, epoch);
    }
  }

  lemma RotatedKeys(ks: seq<KeyEntry>, pubkey: string, maxKeys: nat, epoch: int)
    requires KeysOk(ks, epoch) && pubkey != "" && maxKeys >= 1 && Safe(epoch + 1)
    ensures KeysOk(Rotated(ks, pubkey, maxKeys), epoch + 1)
  {
    ShiftKeepsKeys(ks + [KeyEntry(ks[|ks| - 1].epoch + 1, pubkey)], maxKeys, epoch + 1);
  }

  lemma AuthNode(s: State, token: Hash)
    requires RowsOk(s) && Auth(s, token).Ok?
    ensures var n := Auth(s, token).value; n.id in s.nodes.rows && s.nodes.rows[n.id] == n && NodeOk(s, n.id, n)
  {
    assert NodeOk(s, s.byToken[token], s.nodes.rows[s.byToken[token]]);
  }

  /** A node's own record, seen again and changed where the change is lawful. */
  lemma AuthedReplaceValid(s: State, token: Hash, n: Node, epoch: int)
    requires ValidState(s) && Auth(s, token).Ok? && Nonnegative(epoch) && epoch >= s.epoch
    requires n.id == Auth(s, token).value.id && n.token == Auth(s, token).value.token &&
             n.name == Auth(s, token).value.name
    requires n.team in s.teams.rows && KeysOk(n.keys, epoch) && NonemptyAll(n.caps) && Positive(n.capsRev)
    ensures ValidState(Replace(s, n, epoch))
  {
    AuthNode(s, token);
    ReplaceValid(s, n, epoch);
  }

  function Moved(s: State, n: Node, team: Uuid, now: int): State {
    Replace(s, Touched(n, now).(team := team), s.epoch + 1)
  }

  lemma MovedValid(s: State, auth: Hash, team: Uuid, now: int)
    requires ValidState(s) && Safe(s.epoch + 1) && Auth(s, auth).Ok? && team in s.teams.rows
    ensures var v := Moved(s, Auth(s, auth).value, team, now);
            ValidState(v) && v.enrolls == s.enrolls && Auth(s, auth).value.id in v.nodes.rows
  {
    var n := Auth(s, auth).value;
    AuthNode(s, auth);
    AuthedReplaceValid(s, auth, Touched(n, now).(team := team), s.epoch + 1);
  }

  lemma JoinValid(s: State, auth: Hash, hash: Hash, now: int)
    requires ValidState(s) && Safe(s.epoch + 1) && DoJoin(s, auth, hash, now).Ok?
    ensures ValidState(DoJoin(s, auth, hash, now).value)
  {
    var n, e := Auth(s, auth).value, s.enrolls.rows[hash];
    assert EnrollOk(s, hash, e);
    MovedValid(s, auth, e.team, now);
    ConsumeValid(Moved(s, n, e.team, now), hash, n.id, now);
  }

  lemma RotateValid(s: State, auth: Hash, pubkey: string, verified: bool, now: int, maxKeys: nat)
    requires ValidState(s) && Safe(s.epoch + 1) && maxKeys >= 1 && DoRotate(s, auth, pubkey, verified, now, maxKeys).Ok?
    ensures ValidState(DoRotate(s, auth, pubkey, verified, now, maxKeys).value)
  {
    var n := Auth(s, auth).value;
    AuthNode(s, auth);
    RotatedKeys(n.keys, pubkey, maxKeys, s.epoch);
    AuthedReplaceValid(s, auth, Touched(n, now).(keys := Rotated(n.keys, pubkey, maxKeys)), s.epoch + 1);
  }

  lemma PutCapsValid(s: State, auth: Hash, caps: seq<string>, changed: bool, now: int)
    requires ValidState(s) && DoPutCaps(s, auth, caps, changed, now).Ok? && Safe(Auth(s, auth).value.capsRev + 1)
    ensures ValidState(DoPutCaps(s, auth, caps, changed, now).value)
  {
    var n := Auth(s, auth).value;
    AuthNode(s, auth);
    AuthedReplaceValid(s, auth, Recapped(n, caps, changed, now), s.epoch);
  }

  lemma ReportedValid(s: State, n: Node, team: Uuid, t: TaskRow)
    requires ValidState(s) && n.id in s.nodes.rows && n.team in s.teams.rows && Report(s, n, team, t).Ok?
    requires (t.kind.Aid? || t.kind.Project?) && Positive(t.attempt) && Nonnegative(t.taskSeq)
    ensures ValidState(Report(s, n, team, t).value)
  {
    if Report(s, n, team, t).value != s {
      PutTaskValid(s, t);
    }
  }

  lemma ReportValid(s: State, auth: Hash, team: Uuid, t: TaskRow, now: int)
    requires ValidState(s) && DoReport(s, auth, team, t, now).Ok?
    requires (t.kind.Aid? || t.kind.Project?) && Positive(t.attempt) && Nonnegative(t.taskSeq)
    ensures ValidState(DoReport(s, auth, team, t, now).value)
  {
    var n := Auth(s, auth).value;
    AuthNode(s, auth);
    AuthedReplaceValid(s, auth, Touched(n, now), s.epoch);
    ReportedValid(Replace(s, Touched(n, now), s.epoch), n, team, t);
  }

  lemma SetStatusValid(s: State, node: Uuid, status: NodeStatus)
    requires ValidState(s) && node in s.nodes.rows && Safe(s.epoch + 1)
    ensures ValidState(SetStatus(s, node, status))
  {
    assert NodeOk(s, node, s.nodes.rows[node]);
    ReplaceValid(s, s.nodes.rows[node].(status := status), s.epoch + 1);
  }

  lemma CollectNodeValid(s: State, node: Uuid, now: int, ttl: int, online: bool)
    requires ValidState(s) && Safe(s.epoch + 1)
    ensures ValidState(DoCollectNode(s, node, now, ttl, online))
  {
    if node in s.nodes.rows {
      assert NodeOk(s, node, s.nodes.rows[node]);
      ReplaceValid(s, s.nodes.rows[node].(status := Revoked, caps := []), s.epoch + 1);
    }
  }

  lemma EnrollAloneValid(s: State, pubkey: string, team: Uuid, node: Uuid, token: Hash, now: int)
    requires ValidState(s) && Safe(s.epoch + 1) && node !in s.nodes.rows && token !in s.byToken
    requires DoEnrollAlone(s, pubkey, team, node, token, now).Ok?
    ensures ValidState(DoEnrollAlone(s, pubkey, team, node, token, now).value)
  {
    var t := Team(team, "self-owned", None, SelfOwned, now);
    AddTeamValid(s, t);
    AddNodeValid(s.(teams := O.Put(s.teams, team, t)), team, pubkey, node, token, now);
  }

  lemma EnrollWithValid(s: State, hash: Hash, pubkey: string, node: Uuid, token: Hash, now: int, maxNodes: nat)
    requires ValidState(s) && Safe(s.epoch + 1) && node !in s.nodes.rows && token !in s.byToken
    requires DoEnrollWith(s, hash, pubkey, node, token, now, maxNodes).Ok?
    ensures ValidState(DoEnrollWith(s, hash, pubkey, node, token, now, maxNodes).value)
  {
    assert EnrollOk(s, hash, s.enrolls.rows[hash]);
    AddNodeValid(s, s.enrolls.rows[hash].team, pubkey, node, token, now);
    ConsumeValid(AddNode(s, s.enrolls.rows[hash].team, pubkey, node, token, now), hash, node, now);
  }

  lemma {:induction false} CollectTeamsValid(s: State, order: seq<nat>, now: int, ttl: int)
    requires ValidState(s) && Safe(s.epoch + |order|)
    ensures var v := CollectTeams(s, order, now, ttl);
            ValidState(v) && s.epoch <= v.epoch <= s.epoch + |order| && v.nodes == s.nodes
    decreases |order|
  {
    if order != [] {
      CollectTeamsValid(s, order[..|order| - 1], now, ttl);
      CollectTeamValid(CollectTeams(s, order[..|order| - 1], now, ttl), order[|order| - 1], now, ttl);
    }
  }

  lemma {:induction false} CollectNodesValid(s: State, order: seq<nat>, now: int, ttl: int, online: set<Uuid>)
    requires ValidState(s) && Safe(s.epoch + |order|)
    ensures var v := CollectNodes(s, order, now, ttl, online); ValidState(v) && s.epoch <= v.epoch <= s.epoch + |order|
    decreases |order|
  {
    if order != [] {
      var k := order[|order| - 1];
      CollectNodesValid(s, order[..|order| - 1], now, ttl, online);
      CollectNodeValid(CollectNodes(s, order[..|order| - 1], now, ttl, online), k, now, ttl, k in online);
    }
  }

  lemma CollectedValid(s: State, now: int, teamTtl: int, nodeTtl: int, online: set<Uuid>)
    requires ValidState(s) && Safe(s.epoch + |s.teams.order| + |s.nodes.order|)
    ensures ValidState(Collected(s, now, teamTtl, nodeTtl, online))
  {
    CollectTeamsValid(s, s.teams.order, now, teamTtl);
    var t := CollectTeams(s, s.teams.order, now, teamTtl);
    CollectNodesValid(t, t.nodes.order, now, nodeTtl, online);
  }

  lemma AuthOpValid(s: State, op: Op)
    requires ValidState(s) && WellTyped(s, op) && Apply(s, op).Ok? &&
             (op.Join? || op.Rotate? || op.PutCaps? || op.ReportTask?)
    ensures ValidState(Apply(s, op).value)
  {
    match op
    case Join(auth, hash, now) => JoinValid(s, auth, hash, now);
    case Rotate(auth, pubkey, verified, now, maxKeys) => RotateValid(s, auth, pubkey, verified, now, maxKeys);
    case PutCaps(auth, caps, changed, now) => PutCapsValid(s, auth, caps, changed, now);
    case ReportTask(auth, team, task, now) => ReportValid(s, auth, team, task, now);
  }

  lemma StatusOpValid(s: State, op: Op)
    requires ValidState(s) && WellTyped(s, op) && Apply(s, op).Ok? && (op.Suspend? || op.Resume? || op.Revoke?)
    ensures ValidState(Apply(s, op).value)
  {
    match op
    case Suspend(node) => SetStatusValid(s, node, Suspended);
    case Resume(node) => SetStatusValid(s, node, Live);
    case Revoke(node) => SetStatusValid(s, node, Revoked);
  }

  lemma TeamOpValid(s: State, op: Op)
    requires ValidState(s) && WellTyped(s, op) && Apply(s, op).Ok? &&
             (op.CreateTeam? || op.Issue? || op.EnrollAlone? || op.EnrollWith?)
    ensures ValidState(Apply(s, op).value)
  {
    match op
    case CreateTeam(team, name, owner, now) => AddTeamValid(s,
        Team(team, name, owner, if owner.Some? then Active else Orphan, now));
    case Issue(team, hash, expiresAt) => PutEnrollValid(s, Enroll(hash, team, expiresAt, None, None));
    case EnrollAlone(pubkey, team, node, token, now) => EnrollAloneValid(s, pubkey, team, node, token, now);
    case EnrollWith(hash, pubkey, node, token, now, maxNodes) => EnrollWithValid(s, hash, pubkey, node, token, now,
        maxNodes);
  }

  lemma GrantOpValid(s: State, op: Op)
    requires ValidState(s) && WellTyped(s, op) && Apply(s, op).Ok? && (op.CreateGrant? || op.RevokeGrant?)
    ensures ValidState(Apply(s, op).value)
  {
    match op
    case CreateGrant(grant, from, to, caps, until) => PutGrantValid(s, Grant(grant, from, to, caps, until));
    case RevokeGrant(grant) => DelGrantValid(s, grant);
  }

  /** Every mutation on well-typed input leaves a state that validation accepts. */
  lemma MutationKeepsValid(s: State, op: Op)
    requires ValidState(s) && WellTyped(s, op) && Apply(s, op).Ok?
    ensures ValidState(Apply(s, op).value)
  {
    if op.CreateTeam? || op.Issue? || op.EnrollAlone? || op.EnrollWith? {
      TeamOpValid(s, op);
    } else if op.Suspend? || op.Resume? || op.Revoke? {
      StatusOpValid(s, op);
    } else if op.CreateGrant? || op.RevokeGrant? {
      GrantOpValid(s, op);
    } else if op.Gc? {
      CollectedValid(s, op.now, op.teamTtl, op.nodeTtl, op.online);
    } else {
      AuthOpValid(s, op);
    }
  }

  /** A new grant that the mutation makes passes validation exactly when none of its capability tags is empty. */
  lemma GrantKeepsValidIff(s: State, g: Grant)
    requires ValidState(s) && g.id !in s.grants.rows && Safe(s.epoch + 1) && DoGrant(s, g).Ok?
    ensures ValidState(DoGrant(s, g).value) <==> NonemptyAll(g.caps)
  {
    var v := DoGrant(s, g).value;
    assert v.grants.rows[g.id] == g;
    if NonemptyAll(g.caps) {
      PutGrantValid(s, g);
    } else {
      assert !GrantOk(v, g.id, v.grants.rows[g.id]);
    }
  }

  /** The input that shows it: a grant of the empty tag passes the mutation and fails validation. */
  lemma EmptyCapabilityIsRefused(s: State, grant: Uuid, from: Uuid, to: Uuid)
    requires ValidState(s) && grant !in s.grants.rows && Safe(s.epoch + 1)
    requires from in s.teams.rows && to in s.teams.rows && from != to
    ensures var r := Apply(s, CreateGrant(grant, from, to, [""], None)); r.Ok? && !ValidState(r.value)
  {
    GrantKeepsValidIff(s, Grant(grant, from, to, [""], None));
    assert [""][0] == "";
  }

  // ---- Order ----

  predicate OrderKept(s: State, v: State) {
    && O.OrderKept(s.teams, v.teams) && O.OrderKept(s.nodes, v.nodes) && O.OrderKept(s.enrolls, v.enrolls)
    && O.OrderKept(s.grants, v.grants) && O.OrderKept(s.tasks, v.tasks)
  }

  lemma PutOrder<V>(t: O.Table<V>, k: nat, r: V)
    requires O.Valid(t)
    ensures O.Valid(O.Put(t, k, r)) && O.OrderKept(t, O.Put(t, k, r))
  {
    O.PutValid(t, k, r);
    O.OrderKeptSame(t);
    O.PutKeepsOrder(t, t, k, r);
  }

  lemma DelOrder<V>(t: O.Table<V>, k: nat)
    requires O.Valid(t)
    ensures O.Valid(O.Del(t, k)) && O.OrderKept(t, O.Del(t, k))
  {
    O.DelValid(t, k);
    O.OrderKeptSame(t);
    O.DelKeepsOrder(t, t, k);
  }

  /** Proper tables again, and the kept rows in their places. */
  ghost predicate Edited(s: State, v: State) {
    TablesOk(v) && OrderKept(s, v)
  }

  lemma SameOrder(s: State)
    requires TablesOk(s)
    ensures OrderKept(s, s)
  {
    O.OrderKeptSame(s.teams);
    O.OrderKeptSame(s.nodes);
    O.OrderKeptSame(s.enrolls);
    O.OrderKeptSame(s.grants);
    O.OrderKeptSame(s.tasks);
  }

  lemma ReplaceOrder(s: State, n: Node, epoch: int)
    requires TablesOk(s)
    ensures Edited(s, Replace(s, n, epoch))
  {
    SameOrder(s);
    PutOrder(s.nodes, n.id, n);
  }

  lemma JoinOrder(s: State, auth: Hash, hash: Hash, now: int)
    requires TablesOk(s) && DoJoin(s, auth, hash, now).Ok?
    ensures Edited(s, DoJoin(s, auth, hash, now).value)
  {
    SameOrder(s);
    var n, e := Auth(s, auth).value, s.enrolls.rows[hash];
    PutOrder(s.nodes, n.id, Touched(n, now).(team := e.team));
    PutOrder(s.enrolls, hash, e.(usedBy := Some(n.id), consumedAt := Some(now)));
  }

  lemma ReportShape(s: State, n: Node, team: Uuid, t: TaskRow)
    requires Report(s, n, team, t).Ok?
    ensures Report(s, n, team, t).value == s || Report(s, n, team, t).value == s.(tasks := O.Put(s.tasks, t.id, t))
  {
  }

  lemma ReportOrder(s: State, auth: Hash, team: Uuid, task: TaskRow, now: int)
    requires TablesOk(s) && DoReport(s, auth, team, task, now).Ok?
    ensures Edited(s, DoReport(s, auth, team, task, now).value)
  {
    var n := Auth(s, auth).value;
    var seen := Replace(s, Touched(n, now), s.epoch);
    ReplaceOrder(s, Touched(n, now), s.epoch);
    PutOrder(s.tasks, task.id, task);
    ReportShape(seen, n, team, task);
  }

  lemma RotateOrder(s: State, auth: Hash, pubkey: string, verified: bool, now: int, maxKeys: nat)
    requires TablesOk(s) && DoRotate(s, auth, pubkey, verified, now, maxKeys).Ok?
    ensures Edited(s, DoRotate(s, auth, pubkey, verified, now, maxKeys).value)
  {
    var n := Auth(s, auth).value;
    ReplaceOrder(s, Touched(n, now).(keys := Rotated(n.keys, pubkey, maxKeys)), s.epoch + 1);
  }

  lemma PutCapsOrder(s: State, auth: Hash, caps: seq<string>, changed: bool, now: int)
    requires TablesOk(s) && DoPutCaps(s, auth, caps, changed, now).Ok?
    ensures Edited(s, DoPutCaps(s, auth, caps, changed, now).value)
  {
    var n := Auth(s, auth).value;
    ReplaceOrder(s, Recapped(n, caps, changed, now), s.epoch);
  }

  lemma EnrolledOrder(s: State, op: Op)
    requires TablesOk(s) && Apply(s, op).Ok? && (op.EnrollAlone? || op.EnrollWith?)
    ensures Edited(s, Apply(s, op).value)
  {
    SameOrder(s);
    PutOrder(s.nodes, op.node, Apply(s, op).value.nodes.rows[op.node]);
    match op
    case EnrollAlone(_, team, _, _, now) => PutOrder(s.teams, team, Team(team, "self-owned", None, SelfOwned, now));
    case EnrollWith(hash, _, node, _, now, _) =>
      PutOrder(s.enrolls, hash, s.enrolls.rows[hash].(usedBy := Some(node), consumedAt := Some(now)));
  }

  /** Collecting a team, seen from any earlier state of the same mutation. */
  lemma CollectTeamOrder(before: State, s: State, team: Uuid, now: int, ttl: int)
    requires TablesOk(before) && TablesOk(s) && OrderKept(before, s)
    ensures var v := DoCollectTeam(s, team, now, ttl); TablesOk(v) && OrderKept(before, v) && v.nodes == s.nodes
  {
    O.DelValid(s.teams, team);
    O.DelKeepsOrder(before.teams, s.teams, team);
    DropTokensIs(before.enrolls, s.enrolls, team, s.enrolls.order);
  }

  lemma CollectNodeOrder(before: State, s: State, node: Uuid, now: int, ttl: int, online: bool)
    requires TablesOk(before) && TablesOk(s) && OrderKept(before, s) && before.nodes.rows.Keys <= s.nodes.rows.Keys
    ensures var v := DoCollectNode(s, node, now, ttl, online);
            TablesOk(v) && OrderKept(before, v) && before.nodes.rows.Keys <= v.nodes.rows.Keys
  {
    if node in s.nodes.rows {
      var n := s.nodes.rows[node].(status := Revoked, caps := []);
      O.PutValid(s.nodes, n.id, n);
      O.PutKeepsOrder(before.nodes, s.nodes, n.id, n);
    }
  }

  lemma {:induction false} CollectTeamsOrder(s: State, order: seq<nat>, now: int, ttl: int)
    requires TablesOk(s)
    ensures var v := CollectTeams(s, order, now, ttl); TablesOk(v) && OrderKept(s, v) && v.nodes == s.nodes
    decreases |order|
  {
    SameOrder(s);
    if order != [] {
      CollectTeamsOrder(s, order[..|order| - 1], now, ttl);
      CollectTeamOrder(s, CollectTeams(s, order[..|order| - 1], now, ttl), order[|order| - 1], now, ttl);
    }
  }

  lemma {:induction false} CollectNodesOrder(before: State, s: State, order: seq<nat>, now: int, ttl: int,
                                             online: set<Uuid>)
    requires TablesOk(before) && TablesOk(s) && OrderKept(before, s) && before.nodes.rows.Keys <= s.nodes.rows.Keys
    ensures var v := CollectNodes(s, order, now, ttl, online);
            TablesOk(v) && OrderKept(before, v) && before.nodes.rows.Keys <= v.nodes.rows.Keys
    decreases |order|
  {
    if order != [] {
      var front, k := order[..|order| - 1], order[|order| - 1];
      CollectNodesOrder(before, s, front, now, ttl, online);
      CollectNodeOrder(before, CollectNodes(s, front, now, ttl, online), k, now, ttl, k in online);
    }
  }

  lemma CollectedOrder(s: State, now: int, teamTtl: int, nodeTtl: int, online: set<Uuid>)
    requires TablesOk(s)
    ensures Edited(s, Collected(s, now, teamTtl, nodeTtl, online))
  {
    CollectTeamsOrder(s, s.teams.order, now, teamTtl);
    var t := CollectTeams(s, s.teams.order, now, teamTtl);
    CollectNodesOrder(s, t, t.nodes.order, now, nodeTtl, online);
  }

  lemma StatusOrder(s: State, node: Uuid, status: NodeStatus)
    requires TablesOk(s) && node in s.nodes.rows
    ensures Edited(s, SetStatus(s, node, status))
  {
    ReplaceOrder(s, s.nodes.rows[node].(status := status), s.epoch + 1);
  }

  lemma NodeOrder(s: State, op: Op)
    requires TablesOk(s) && Apply(s, op).Ok? && (op.Suspend? || op.Resume? || op.Revoke?)
    ensures Edited(s, Apply(s, op).value)
  {
    match op
    case Suspend(node) => StatusOrder(s, node, Suspended);
    case Revoke(node) => StatusOrder(s, node, Revoked);
    case Resume(node) =>
      if s.nodes.rows[node].status.Suspended? {
        StatusOrder(s, node, Live);
      } else {
        SameOrder(s);
      }
  }

  lemma TeamOpOrder(s: State, op: Op)
    requires TablesOk(s) && Apply(s, op).Ok? && (op.CreateTeam? || op.Issue?)
    ensures Edited(s, Apply(s, op).value)
  {
    SameOrder(s);
    match op
    case CreateTeam(team, name, owner, now) => PutOrder(s.teams, team,
        Team(team, name, owner, if owner.Some? then Active else Orphan, now));
    case Issue(team, hash, expiresAt) => PutOrder(s.enrolls, hash, Enroll(hash, team, expiresAt, None, None));
  }

  lemma GrantsOrder(s: State, grants: O.Table<Grant>, epoch: int)
    requires TablesOk(s) && O.Valid(grants) && O.OrderKept(s.grants, grants)
    ensures Edited(s, s.(grants := grants, epoch := epoch))
  {
    SameOrder(s);
  }

  lemma GrantOrder(s: State, g: Grant)
    requires TablesOk(s) && DoGrant(s, g).Ok?
    ensures Edited(s, DoGrant(s, g).value)
  {
    PutOrder(s.grants, g.id, g);
    GrantsOrder(s, O.Put(s.grants, g.id, g), s.epoch + 1);
  }

  lemma RevokeGrantOrder(s: State, id: Uuid)
    requires TablesOk(s) && DoRevokeGrant(s, id).Ok?
    ensures Edited(s, DoRevokeGrant(s, id).value)
  {
    DelOrder(s.grants, id);
    GrantsOrder(s, O.Del(s.grants, id), s.epoch + 1);
  }

  lemma AuthOpOrder(s: State, op: Op)
    requires TablesOk(s) && Apply(s, op).Ok? && (op.Join? || op.Rotate? || op.PutCaps? || op.ReportTask?)
    ensures Edited(s, Apply(s, op).value)
  {
    match op
    case Join(auth, hash, now) => JoinOrder(s, auth, hash, now);
    case Rotate(auth, pubkey, verified, now, maxKeys) => RotateOrder(s, auth, pubkey, verified, now, maxKeys);
    case PutCaps(auth, caps, changed, now) => PutCapsOrder(s, auth, caps, changed, now);
    case ReportTask(auth, team, task, now) => ReportOrder(s, auth, team, task, now);
  }

  /** No mutation brings back a key it deleted, so kept rows keep their places. */
  lemma MutationKeepsOrder(s: State, op: Op)
    requires TablesOk(s) && Apply(s, op).Ok?
    ensures Edited(s, Apply(s, op).value)
  {
    if op.CreateTeam? || op.Issue? {
      TeamOpOrder(s, op);
    } else if op.CreateGrant? {
      GrantOrder(s, Grant(op.grant, op.from, op.to, op.caps, op.until));
    } else if op.RevokeGrant? {
      RevokeGrantOrder(s, op.grant);
    } else if op.EnrollAlone? || op.EnrollWith? {
      EnrolledOrder(s, op);
    } else if op.Gc? {
      CollectedOrder(s, op.now, op.teamTtl, op.nodeTtl, op.online);
    } else if op.Suspend? || op.Resume? || op.Revoke? {
      NodeOrder(s, op);
    } else {
      AuthOpOrder(s, op);
    }
  }

  // ---- Tables on disk ----

  /** What is stored: five tables in rowid order and the epoch. The token index is not stored. */
  datatype Disk = Disk(teams: O.Table<Team>, nodes: O.Table<Node>, enrolls: O.Table<Enroll>, grants: O.Table<Grant>,
                       tasks: O.Table<TaskRow>, epoch: int)

  function DiskOf(s: State): Disk {
    Disk(s.teams, s.nodes, s.enrolls, s.grants, s.tasks, s.epoch)
  }

  ghost predicate DiskOk(d: Disk) {
    O.Valid(d.teams) && O.Valid(d.nodes) && O.Valid(d.enrolls) && O.Valid(d.grants) && O.Valid(d.tasks)
  }

  /** The tables after committing v over what d holds. */
  function Committed(d: Disk, v: State): Disk
    requires O.Valid(v.teams) && O.Valid(v.nodes) && O.Valid(v.enrolls) && O.Valid(v.grants) && O.Valid(v.tasks)
  {
    Disk(O.Diffed(d.teams, v.teams), O.Diffed(d.nodes, v.nodes), O.Diffed(d.enrolls, v.enrolls),
         O.Diffed(d.grants, v.grants), O.Diffed(d.tasks, v.tasks), v.epoch)
  }

  /** The token index rebuilt from the node rows, in the order given. */
  function Index(nodes: map<nat, Node>, order: seq<nat>): map<Hash, Uuid> {
    if order == [] then map[]
    else
      var k := order[|order| - 1];
      var rest := Index(nodes, order[..|order| - 1]);
      if k in nodes then rest[nodes[k].token := nodes[k].id] else rest
  }

  /** Loading: every table row by row, then the index, then validation. */
  ghost function Load(d: Disk): Result<State>
    requires DiskOk(d)
  {
    var nodes := O.Recovered(d.nodes);
    var s := State(O.Recovered(d.teams), nodes, O.Recovered(d.enrolls), Index(nodes.rows, nodes.order),
                   O.Recovered(d.grants), O.Recovered(d.tasks), d.epoch);
    if Acceptable(s) then Ok(s) else Err("DATABASE_CORRUPT")
  }

  /** Of a valid state, the part of the index for the nodes seen so far. */
  lemma {:induction false} IndexPart(s: State, order: seq<nat>)
    requires RowsOk(s) && forall k :: k in order ==> k in s.nodes.rows
    ensures var part := Index(s.nodes.rows, order);
            && (forall h :: h in part ==> h in s.byToken && part[h] == s.byToken[h])
            && (forall k :: k in order ==> s.nodes.rows[k].token in part)
    decreases |order|
  {
    if order != [] {
      var front, k := order[..|order| - 1], order[|order| - 1];
      assert order == front + [k] && k in order;
      IndexPart(s, front);
      assert NodeOk(s, k, s.nodes.rows[k]);
    }
  }

  /** Rebuilding gives back the index in memory: it is determined by the nodes. */
  lemma IndexRebuilt(s: State)
    requires RowsOk(s) && O.Valid(s.nodes)
    ensures Index(s.nodes.rows, s.nodes.order) == s.byToken
  {
    var index := Index(s.nodes.rows, s.nodes.order);
    IndexPart(s, s.nodes.order);
    forall h | h in s.byToken ensures h in index {
      assert TokenOk(s, h);
      assert s.byToken[h] in s.nodes.order;
    }
  }

  /** Loading the tables of an acceptable state gives that state back. */
  lemma LoadRebuilds(s: State)
    requires ValidState(s)
    ensures Load(DiskOf(s)) == Ok(s)
  {
    O.RecoveredIs(s.teams);
    O.RecoveredIs(s.nodes);
    O.RecoveredIs(s.enrolls);
    O.RecoveredIs(s.grants);
    O.RecoveredIs(s.tasks);
    IndexRebuilt(s);
  }

  /** A mutation's tables on disk hold its result, iteration order included. */
  lemma DiffOfAll(s: State, v: State)
    requires TablesOk(s) && Edited(s, v)
    ensures Committed(DiskOf(s), v) == DiskOf(v)
  {
    O.DiffRoundTripIff(s.teams, v.teams);
    O.DiffRoundTripIff(s.nodes, v.nodes);
    O.DiffRoundTripIff(s.enrolls, v.enrolls);
    O.DiffRoundTripIff(s.grants, v.grants);
    O.DiffRoundTripIff(s.tasks, v.tasks);
  }

  /**
   * After the commit of any mutation that passes validation, loading the tables gives exactly the state in memory:
   * records, iteration order, epoch and the token index, which is not stored.
   */
  lemma CommitRoundTrip(s: State, op: Op)
    requires TablesOk(s) && Apply(s, op).Ok?
    ensures var v := Apply(s, op).value;
            && TablesOk(v) && Committed(DiskOf(s), v) == DiskOf(v) && DiskOk(DiskOf(v))
            && (Acceptable(v) ==> Load(Committed(DiskOf(s), v)) == Ok(v))
  {
    var v := Apply(s, op).value;
    MutationKeepsOrder(s, op);
    DiffOfAll(s, v);
    if Acceptable(v) {
      LoadRebuilds(v);
    }
  }
}
