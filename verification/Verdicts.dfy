/**
 * Acceptance of PROJECT results: asynchronous verification staged before a result is consumed, a verdict
 * cache of one token per task, and everything that can happen between the two.
 */
module Verdicts {
  import opened Core
  import opened Wire
  import opened Lease
  import L = LeadMachine
  import opened LeadTasks
  import M = Manifest
  import LeadRuns

  /** A task.result as received, with what its body carries inline; its digest is the value itself. */
  datatype Result = Result(env: Envelope, signed: Option<M.Signed>, repo: bool, keyEpoch: int)

  /** What a verdict is valid for; heartbeats change none of it. */
  datatype Context = Context(task: Uuid, attempt: int, target: Option<Uuid>, kind: Kind, state: L.LeadState,
                             taskSeq: int, drainClosed: bool, contract: Contract)

  function ContextOf(t: Task): Context {
    Context(t.rec.task, t.rec.attempt, t.rec.target, t.rec.kind, t.rec.state, t.taskSeq, t.rec.drainClosed,
        t.rec.contract)
  }

  /** States in which the machine still looks at a result. */
  predicate AcceptsResult(t: Task) {
    t.rec.kind.Project? &&
    (t.rec.state.Running? || t.rec.state.Cancelling? || (t.rec.state.Reclaiming? && !t.rec.drainClosed))
  }

  /** A cache entry is an object: two stagings of the same result are two tokens. */
  datatype Token = Token(context: Context, delivery: Result, verdict: Option<bool>)

  type TokenId = nat

  /** Where a staging waits: for the collected files, then for the sender's public key. */
  datatype Stage = Collecting | Resolving(files: seq<M.File>)

  /** verdicts, tokens and stages are volatile; registry holds the registered keys. */
  datatype World = World(tasks: map<Uuid, Task>, verdicts: map<Uuid, TokenId>, tokens: map<TokenId, Token>,
                         stages: map<TokenId, Stage>, faulted: bool)

  datatype Setup = Setup(node: Uuid, team: Uuid, p: Params, registry: map<(Uuid, int), M.PublicKey>)

  datatype Event =
    | Originate(task: Uuid, kind: Kind)
    | Begin(delivery: Result, now: int, id: TokenId)
    | Collected(id: TokenId, files: Option<seq<M.File>>)
    | Resolved(id: TokenId)
    | Throws(id: TokenId)
    | Consume(delivery: Result, authorized: bool, now: int, applied: bool, select: Option<(Uuid, OfferBody)>)
    | Drive(task: Uuid, e: L.Event, select: Option<(Uuid, OfferBody)>)
    | Import(task: Uuid, t: Task)
    | Fault
    | Restart

  predicate Enabled(w: World, e: Event) {
    match e
    case Originate(task, kind) => task !in w.tasks
    case Begin(_, _, id) => id !in w.tokens
    case Collected(id, _) => id in w.stages && w.stages[id].Collecting? && id in w.tokens
    case Resolved(id) => id in w.stages && w.stages[id].Resolving? && id in w.tokens
    case Throws(id) => id in w.stages && id in w.tokens
    case Drive(task, e, _) => task in w.tasks && !e.Message?
    case _ => true
  }

  /** The acceptance function of a PROJECT task when none is injected: the cached verdict, or no. */
  predicate CacheAccepts(w: World, t: Task, d: Result) {
    && t.rec.task in w.verdicts && w.verdicts[t.rec.task] in w.tokens
    && w.tokens[w.verdicts[t.rec.task]] == Token(ContextOf(t), d, Some(true))
  }

  /** After a commit, a verdict of another context is dropped. */
  function Pruned(w: World, task: Uuid, t: Task): map<Uuid, TokenId> {
    if task in w.verdicts && w.verdicts[task] in w.tokens &&
       (!AcceptsResult(t) || w.tokens[w.verdicts[task]].context != ContextOf(t))
    then w.verdicts - {task} else w.verdicts
  }

  /** Ending a staging without a verdict withdraws its token, if it is still the task's. */
  function Withdraw(w: World, id: TokenId): World
    requires id in w.tokens
  {
    var task := w.tokens[id].context.task;
    w.(stages := w.stages - {id},
       verdicts := if w.tokens[id].verdict.None? && task in w.verdicts && w.verdicts[task] == id
                   then w.verdicts - {task} else w.verdicts)
  }

  predicate MayStage(s: Setup, w: World, d: Result, now: int) {
    && !w.faulted && d.env.body.Delivery? && d.env.to == s.node && d.env.task.Some? && d.env.fromTeam == s.team &&
        d.env.signed
    && d.env.exp.Some? && d.env.exp.value > now && d.signed.Some? && d.repo
    && d.env.task.value in w.tasks
    && var t := w.tasks[d.env.task.value];
       AcceptsResult(t) && d.env.attempt == Some(t.rec.attempt) && Some(d.env.from) == t.rec.target
  }

  function BeginStage(s: Setup, w: World, d: Result, now: int, id: TokenId): World {
    if !MayStage(s, w, d, now) then w
    else
      var task := d.env.task.value;
      var context := ContextOf(w.tasks[task]);
      if task in w.verdicts && w.verdicts[task] in w.tokens && w.tokens[w.verdicts[task]].context == context &&
         w.tokens[w.verdicts[task]].delivery == d && w.tokens[w.verdicts[task]].verdict.Some? then w
      else w.(verdicts := w.verdicts[task := id], tokens := w.tokens[id := Token(context, d, None)],
              stages := w.stages[id := Collecting])
  }

  /** The verdict on a collected delivery, against the context the token was made for. */
  predicate Passes(s: Setup, token: Token, files: seq<M.File>) {
    && token.delivery.signed.Some? && (token.delivery.env.from, token.delivery.keyEpoch) in s.registry
    && M.Verified(token.delivery.signed.value, s.registry[(token.delivery.env.from, token.delivery.keyEpoch)],
                  token.context.task, token.context.attempt, token.delivery.env.from, token.delivery.keyEpoch,
                  files, token.context.contract)
  }

  /** Back from the awaits: the verdict counts only if nothing revoked the token or moved the task. */
  function Resolve(s: Setup, w: World, id: TokenId): World
    requires id in w.tokens && id in w.stages && w.stages[id].Resolving?
  {
    var token := w.tokens[id];
    var task := token.context.task;
    if (token.delivery.env.from, token.delivery.keyEpoch) !in s.registry || task !in w.verdicts ||
        w.verdicts[task] != id ||
       task !in w.tasks || !AcceptsResult(w.tasks[task]) || ContextOf(w.tasks[task]) != token.context
    then Withdraw(w, id)
    else w.(stages := w.stages - {id},
            tokens := w.tokens[id := token.(verdict := Some(Passes(s, token, w.stages[id].files)))])
  }

  predicate Allowed(s: Setup, d: Result, authorized: bool, now: int) {
    d.env.fromTeam == s.team && authorized && d.env.signed && d.env.exp.Some? && d.env.exp.value > now
  }

  /** The task after consuming a message; an aid task accepts by its own rule, left open here. */
  function Consumed(s: Setup, w: World, t: Task, d: Result, now: int, aidAccepts: bool,
                    select: Option<(Uuid, OfferBody)>): Task {
    var accepts := if t.rec.kind.Project? then CacheAccepts(w, t, d) else aidAccepts;
    RunEvent(t, L.Message(d.env.from, if d.env.attempt.Some? then d.env.attempt.value else 0, d.env.body, now,
                          Some(d.env.msgId), accepts), select, s.p)
  }

  function ConsumeStep(s: Setup, w: World, d: Result, authorized: bool, now: int, applied: bool,
                       select: Option<(Uuid, OfferBody)>): World
  {
    if w.faulted || d.env.to != s.node || d.env.task.None? || d.env.task.value !in w.tasks then w
    else
      var task := d.env.task.value;
      var t := w.tasks[task];
      var next := if Allowed(s, d, authorized, now) && applied then Consumed(s, w, t, d, now, true, select) else t;
      w.(tasks := w.tasks[task := next],
         verdicts := if d.env.body.Delivery? then w.verdicts - {task} else Pruned(w, task, next))
  }

  function Apply(s: Setup, w: World, e: Event): World
    requires Enabled(w, e)
  {
    match e
    case Originate(task, kind) => w.(tasks := w.tasks[task := Task(L.Fresh(task, kind, s.p), 0)])
    case Begin(d, now, id) => BeginStage(s, w, d, now, id)
    case Collected(id, files) =>
      if files.None? then Withdraw(w, id) else w.(stages := w.stages[id := Resolving(files.value)])
    case Resolved(id) => Resolve(s, w, id)
    case Throws(id) => Withdraw(w, id)
    case Consume(d, authorized, now, applied, select) => ConsumeStep(s, w, d, authorized, now, applied, select)
    case Drive(task, event, select) =>
      if w.faulted then w
      else
        var next := RunEvent(w.tasks[task], event, select, s.p);
        w.(tasks := w.tasks[task := next], verdicts := Pruned(w, task, next))
    case Import(task, t) =>
      if w.faulted || !ValidTask(t) || t.rec.task != task ||
          (task in w.tasks && w.tasks[task].rec.attempt >= t.rec.attempt) then w
      else
        w.(tasks := w.tasks[task := Fenced(t)], verdicts := w.verdicts - {task})
    case Fault => w.(faulted := true, verdicts := map[])
    case Restart => World(w.tasks, map[], map[], map[], false)
  }

  // ---- The invariant ----

  /** A cached entry, decided or not, is for the task's present context. */
  ghost predicate CacheCurrent(w: World) {
    forall task :: task in w.verdicts ==>
      && w.verdicts[task] in w.tokens && task in w.tasks && AcceptsResult(w.tasks[task])
      && w.tokens[w.verdicts[task]].context == ContextOf(w.tasks[task])
  }

  ghost predicate TasksNamed(w: World) {
    forall task :: task in w.tasks ==> w.tasks[task].rec.task == task
  }

  /** A decided token is no longer being staged. */
  ghost predicate StagesOpen(w: World) {
    forall id :: id in w.stages ==> id in w.tokens && w.tokens[id].verdict.None?
  }

  /** A token's delivery comes from the target at the attempt of its context. */
  ghost predicate TokensFit(w: World) {
    forall id :: id in w.tokens ==>
      && w.tokens[id].delivery.env.attempt == Some(w.tokens[id].context.attempt)
      && w.tokens[id].context.target == Some(w.tokens[id].delivery.env.from)
  }

  ghost predicate Inv(s: Setup, w: World) {
    TokensFit(w) && CacheCurrent(w) && TasksNamed(w) && StagesOpen(w)
  }

  lemma RunEventKeepsName(t: Task, e: L.Event, select: Option<(Uuid, OfferBody)>, p: Params)
    ensures RunEvent(t, e, select, p).rec.task == t.rec.task
  {
    ApplyKeepsTask(t.rec, e, p);
  }

  lemma ApplyKeepsTask(r: L.Record, e: L.Event, p: Params)
    ensures L.Apply(r, e, p).rec.task == r.task
  {
  }

  /** A new token, undecided, for the task as it stands. */
  lemma PlantKeeps(s: Setup, w: World, task: Uuid, d: Result, id: TokenId)
    requires Inv(s, w) && id !in w.tokens && task in w.tasks && AcceptsResult(w.tasks[task])
    requires d.env.attempt == Some(w.tasks[task].rec.attempt) && Some(d.env.from) == w.tasks[task].rec.target
    ensures Inv(s, w.(verdicts := w.verdicts[task := id],
            tokens := w.tokens[id := Token(ContextOf(w.tasks[task]), d, None)],
                      stages := w.stages[id := Collecting]))
  {
    var v := w.(verdicts := w.verdicts[task := id], tokens := w.tokens[id := Token(ContextOf(w.tasks[task]), d, None)],
                stages := w.stages[id := Collecting]);
    assert TokensFit(v) && CacheCurrent(v) && StagesOpen(v);
  }

  lemma BeginKeeps(s: Setup, w: World, d: Result, now: int, id: TokenId)
    requires Inv(s, w) && id !in w.tokens
    ensures Inv(s, BeginStage(s, w, d, now, id))
  {
    if MayStage(s, w, d, now) {
      PlantKeeps(s, w, d.env.task.value, d, id);
    }
  }

  lemma WithdrawKeeps(s: Setup, w: World, id: TokenId)
    requires Inv(s, w) && id in w.tokens
    ensures Inv(s, Withdraw(w, id))
  {
    var v := Withdraw(w, id);
    assert v.tokens == w.tokens && v.tasks == w.tasks;
  }

  lemma ResolveKeeps(s: Setup, w: World, id: TokenId)
    requires Inv(s, w) && id in w.tokens && id in w.stages && w.stages[id].Resolving?
    ensures Inv(s, Resolve(s, w, id))
  {
    var v := Resolve(s, w, id);
    if v == Withdraw(w, id) {
      WithdrawKeeps(s, w, id);
    }
  }

  /** Replacing one task and pruning its entry. */
  lemma ReplaceKeeps(s: Setup, w: World, task: Uuid, next: Task, verdicts: map<Uuid, TokenId>)
    requires Inv(s, w) && next.rec.task == task
    requires verdicts == w.verdicts - {task} || (task in w.tasks && verdicts == Pruned(w, task, next))
    ensures Inv(s, w.(tasks := w.tasks[task := next], verdicts := verdicts))
  {
    var v := w.(tasks := w.tasks[task := next], verdicts := verdicts);
    assert v.tokens == w.tokens && v.stages == w.stages;
  }

  lemma StagingKeeps(s: Setup, w: World, e: Event)
    requires Inv(s, w) && Enabled(w, e) && (e.Begin? || e.Collected? || e.Resolved? || e.Throws?)
    ensures Inv(s, Apply(s, w, e))
  {
    match e
    case Begin(d, now, id) => BeginKeeps(s, w, d, now, id);
    case Collected(id, files) =>
      if files.Some? {
        CollectedKeeps(s, w, id, files.value);
      } else {
        WithdrawKeeps(s, w, id);
      }
    case Resolved(id) => ResolveKeeps(s, w, id);
    case Throws(id) => WithdrawKeeps(s, w, id);
  }

  lemma CollectedKeeps(s: Setup, w: World, id: TokenId, files: seq<M.File>)
    requires Inv(s, w) && id in w.stages
    ensures Inv(s, w.(stages := w.stages[id := Resolving(files)]))
  {
  }

  lemma DriveKeeps(s: Setup, w: World, task: Uuid, event: L.Event, select: Option<(Uuid, OfferBody)>)
    requires Inv(s, w) && Enabled(w, Drive(task, event, select))
    ensures Inv(s, Apply(s, w, Drive(task, event, select)))
  {
    var next := RunEvent(w.tasks[task], event, select, s.p);
    RunEventKeepsName(w.tasks[task], event, select, s.p);
    ReplaceKeeps(s, w, task, next, Pruned(w, task, next));
  }

  lemma OriginateKeeps(s: Setup, w: World, task: Uuid, kind: Kind)
    requires Inv(s, w) && Enabled(w, Originate(task, kind))
    ensures Inv(s, Apply(s, w, Originate(task, kind)))
  {
    assert task !in w.verdicts;
    assert w.verdicts - {task} == w.verdicts;
    ReplaceKeeps(s, w, task, Task(L.Fresh(task, kind, s.p), 0), w.verdicts);
  }

  lemma StepKeeps(s: Setup, w: World, e: Event)
    requires Inv(s, w) && Enabled(w, e)
    ensures Inv(s, Apply(s, w, e))
  {
    match e {
      case Originate(task, kind) => OriginateKeeps(s, w, task, kind);
      case Consume(d, authorized, now, applied, select) => ConsumeKeeps(s, w, d, authorized, now, applied, select);
      case Drive(task, event, select) => DriveKeeps(s, w, task, event, select);
      case Import(task, t) => ImportKeeps(s, w, task, t);
      case Fault =>
      case Restart =>
      case _ => StagingKeeps(s, w, e);
    }
  }

  lemma ConsumeKeeps(s: Setup, w: World, d: Result, authorized: bool, now: int, applied: bool,
                     select: Option<(Uuid, OfferBody)>)
    requires Inv(s, w)
    ensures Inv(s, ConsumeStep(s, w, d, authorized, now, applied, select))
  {
    if d.env.task.Some? && d.env.task.value in w.tasks {
      var task := d.env.task.value;
      var t := w.tasks[task];
      var next := if Allowed(s, d, authorized, now) && applied then Consumed(s, w, t, d, now, true, select) else t;
      var accepts := if t.rec.kind.Project? then CacheAccepts(w, t, d) else true;
      var attempt := if d.env.attempt.Some? then d.env.attempt.value else 0;
      var e := L.Message(d.env.from, attempt, d.env.body, now, Some(d.env.msgId), accepts);
      RunEventKeepsName(t, e, select, s.p);
      ReplaceKeeps(s, w, task, next, w.verdicts - {task});
      ReplaceKeeps(s, w, task, next, Pruned(w, task, next));
    }
  }

  lemma ImportKeeps(s: Setup, w: World, task: Uuid, t: Task)
    requires Inv(s, w)
    ensures Inv(s, Apply(s, w, Import(task, t)))
  {
    if !w.faulted && t.rec.task == task {
      ReplaceKeeps(s, w, task, Fenced(t), w.verdicts - {task});
    }
  }

  // ---- Runs and results ----

  predicate Start(w: World) {
    w == World(map[], map[], map[], map[], false)
  }

  predicate Follows(s: Setup, w: World, e: Event, v: World) {
    Enabled(w, e) && v == Apply(s, w, e)
  }

  ghost predicate Execution(s: Setup, ws: seq<World>, es: seq<Event>) {
    |ws| == |es| + 1 && forall i :: 0 <= i < |es| ==> Follows(s, ws[i], es[i], ws[i + 1])
  }

  lemma {:induction false} ExecutionKeeps(s: Setup, ws: seq<World>, es: seq<Event>, k: nat)
    requires Execution(s, ws, es) && Start(ws[0]) && k < |ws|
    ensures Inv(s, ws[k])
  {
    if k > 0 {
      ExecutionKeeps(s, ws, es, k - 1);
      assert Follows(s, ws[k - 1], es[k - 1], ws[k - 1 + 1]);
      StepKeeps(s, ws[k - 1], es[k - 1]);
    }
  }

  /** The state of a driven task is Done only by an accepted result, never by a redispatch. */
  lemma DoneFromMessage(t: Task, e: L.Event, select: Option<(Uuid, OfferBody)>, p: Params)
    requires !t.rec.state.Done? && RunEvent(t, e, select, p).rec.state.Done?
    ensures e.Message? && e.body.Delivery? && e.accepts && t.rec.target == Some(e.from) && e.attempt == t.rec.attempt
  {
    var s := L.Apply(t.rec, e, p);
    if s.rec.state.Done? {
      LeadRuns.DoneNeedsAcceptedResult(t.rec, e, p);
    }
  }

  // ---- Where a verdict comes from ----

  ghost predicate NoRestart(es: seq<Event>, i: nat, k: nat) {
    k <= |es| && forall m :: i <= m < k ==> !es[m].Restart?
  }

  /** Step i staged this delivery under this token, for the task as it stood, and no restart came before step k. */
  ghost predicate StagedAt(s: Setup, ws: seq<World>, es: seq<Event>, k: nat, i: nat, id: TokenId, token: Token)
    requires |ws| == |es| + 1
  {
    && i < k <= |es| && NoRestart(es, i, k) && es[i].Begin? && es[i].id == id && es[i].delivery == token.delivery
    && MayStage(s, ws[i], token.delivery, es[i].now)
    && token.context == ContextOf(ws[i].tasks[token.delivery.env.task.value])
  }

  /** After staging at i, step j brought the collector's files. */
  predicate CollectedAt(es: seq<Event>, k: nat, i: nat, j: nat, id: TokenId, files: seq<M.File>) {
    i < j < k <= |es| && es[j] == Collected(id, Some(files))
  }

  /** The whole path to a positive verdict: staged, collected, judged over exactly the collected files. */
  ghost predicate EarnedAt(s: Setup, ws: seq<World>, es: seq<Event>, k: nat, i: nat, j: nat, r: nat, id: TokenId,
                           token: Token, files: seq<M.File>)
    requires |ws| == |es| + 1
  {
    && StagedAt(s, ws, es, k, i, id, token) && CollectedAt(es, k, i, j, id, files)
    && j < r < k && es[r] == Resolved(id) && Passes(s, token, files)
  }

  ghost predicate Staged(s: Setup, ws: seq<World>, es: seq<Event>, k: nat, id: TokenId, token: Token)
    requires |ws| == |es| + 1
  {
    exists i: nat :: StagedAt(s, ws, es, k, i, id, token)
  }

  ghost predicate Gathered(s: Setup, ws: seq<World>, es: seq<Event>, k: nat, id: TokenId, token: Token,
                           files: seq<M.File>)
    requires |ws| == |es| + 1
  {
    exists i: nat, j: nat :: StagedAt(s, ws, es, k, i, id, token) && CollectedAt(es, k, i, j, id, files)
  }

  ghost predicate Earned(s: Setup, ws: seq<World>, es: seq<Event>, k: nat, id: TokenId, token: Token)
    requires |ws| == |es| + 1
  {
    exists i: nat, j: nat, r: nat, files :: EarnedAt(s, ws, es, k, i, j, r, id, token, files)
  }

  /** What the steps before k say about one token. */
  ghost predicate Traced(s: Setup, ws: seq<World>, es: seq<Event>, k: nat, id: TokenId)
    requires |ws| == |es| + 1 && k < |ws| && id in ws[k].tokens
  {
    var w := ws[k];
    && Staged(s, ws, es, k, id, w.tokens[id])
    && (id in w.stages && w.stages[id].Resolving? ==> Gathered(s, ws, es, k, id, w.tokens[id], w.stages[id].files))
    && (w.tokens[id].verdict == Some(true) ==> Earned(s, ws, es, k, id, w.tokens[id]))
  }

  /** One more step that is no restart keeps what is known of a token. */
  lemma TraceLasts(s: Setup, ws: seq<World>, es: seq<Event>, k: nat, id: TokenId, t: Token, u: Token)
    requires |ws| == |es| + 1 && k < |es| && !es[k].Restart? && t.context == u.context && t.delivery == u.delivery
    ensures Staged(s, ws, es, k, id, t) ==> Staged(s, ws, es, k + 1, id, u)
    ensures Earned(s, ws, es, k, id, t) ==> Earned(s, ws, es, k + 1, id, u)
    ensures forall files :: Gathered(s, ws, es, k, id, t, files) ==> Gathered(s, ws, es, k + 1, id, u, files)
  {
    if Staged(s, ws, es, k, id, t) {
      var i: nat :| StagedAt(s, ws, es, k, i, id, t);
      assert StagedAt(s, ws, es, k + 1, i, id, u);
    }
    if Earned(s, ws, es, k, id, t) {
      var i: nat, j: nat, r: nat, files :| EarnedAt(s, ws, es, k, i, j, r, id, t, files);
      assert StagedAt(s, ws, es, k + 1, i, id, u) && CollectedAt(es, k + 1, i, j, id, files);
      assert EarnedAt(s, ws, es, k + 1, i, j, r, id, u, files);
    }
    forall files | Gathered(s, ws, es, k, id, t, files) ensures Gathered(s, ws, es, k + 1, id, u, files) {
      var i: nat, j: nat :| StagedAt(s, ws, es, k, i, id, t) && CollectedAt(es, k, i, j, id, files);
      assert StagedAt(s, ws, es, k + 1, i, id, u) && CollectedAt(es, k + 1, i, j, id, files);
    }
  }

  /** A step that leaves token and stage of id alone. */
  lemma TraceUntouched(s: Setup, ws: seq<World>, es: seq<Event>, k: nat, id: TokenId)
    requires |ws| == |es| + 1 && k < |es| && !es[k].Restart? && id in ws[k].tokens && Traced(s, ws, es, k, id)
    requires id in ws[k + 1].tokens && ws[k + 1].tokens[id] == ws[k].tokens[id]
    requires id in ws[k + 1].stages ==> id in ws[k].stages && ws[k + 1].stages[id] == ws[k].stages[id]
    ensures Traced(s, ws, es, k + 1, id)
  {
    TraceLasts(s, ws, es, k, id, ws[k].tokens[id], ws[k].tokens[id]);
  }

  lemma TraceBegun(s: Setup, ws: seq<World>, es: seq<Event>, k: nat, id: TokenId)
    requires |ws| == |es| + 1 && k < |es| && Follows(s, ws[k], es[k], ws[k + 1])
    requires es[k].Begin? && es[k].id == id && id in ws[k + 1].tokens
    ensures Traced(s, ws, es, k + 1, id)
  {
    assert StagedAt(s, ws, es, k + 1, k, id, ws[k + 1].tokens[id]);
  }

  lemma TraceCollected(s: Setup, ws: seq<World>, es: seq<Event>, k: nat, id: TokenId, files: seq<M.File>)
    requires |ws| == |es| + 1 && k < |es| && Follows(s, ws[k], es[k], ws[k + 1])
    requires es[k] == Collected(id, Some(files)) && id in ws[k].tokens && Traced(s, ws, es, k, id)
    ensures id in ws[k + 1].tokens && Traced(s, ws, es, k + 1, id)
  {
    var token := ws[k].tokens[id];
    TraceLasts(s, ws, es, k, id, token, token);
    var i: nat :| StagedAt(s, ws, es, k, i, id, token);
    assert StagedAt(s, ws, es, k + 1, i, id, token) && CollectedAt(es, k + 1, i, k, id, files);
  }

  lemma TraceResolved(s: Setup, ws: seq<World>, es: seq<Event>, k: nat, id: TokenId)
    requires |ws| == |es| + 1 && k < |es| && Follows(s, ws[k], es[k], ws[k + 1])
    requires es[k] == Resolved(id) && id in ws[k].tokens && Traced(s, ws, es, k, id)
    ensures id in ws[k + 1].tokens && Traced(s, ws, es, k + 1, id)
  {
    var t, u, files := ws[k].tokens[id], ws[k + 1].tokens[id], ws[k].stages[id].files;
    TraceLasts(s, ws, es, k, id, t, u);
    if u != t && u.verdict == Some(true) {
      var i: nat, j: nat :| StagedAt(s, ws, es, k, i, id, t) && CollectedAt(es, k, i, j, id, files);
      assert StagedAt(s, ws, es, k + 1, i, id, u) && CollectedAt(es, k + 1, i, j, id, files);
      assert EarnedAt(s, ws, es, k + 1, i, j, k, id, u, files);
    }
  }

  /** Which steps touch a token. */
  lemma TokenSteps(s: Setup, w: World, e: Event, id: TokenId)
    requires Enabled(w, e)
    ensures var v := Apply(s, w, e);
            && (id in v.tokens && id !in w.tokens ==> e.Begin? && e.id == id)
            && (id in v.tokens ==> !e.Restart?)
            && (id in w.tokens && !e.Restart? && e != Resolved(id) && !(e.Collected? && e.id == id && e.files.Some?) ==>
                  && id in v.tokens && v.tokens[id] == w.tokens[id]
                  && (id in v.stages ==> id in w.stages && v.stages[id] == w.stages[id]))
  {
  }

  /** Every token of every run can be traced to its staging, its collected files and its judgement. */
  lemma {:induction false} TokensTraced(s: Setup, ws: seq<World>, es: seq<Event>, k: nat, id: TokenId)
    requires Execution(s, ws, es) && Start(ws[0]) && k < |ws| && id in ws[k].tokens
    ensures Traced(s, ws, es, k, id)
  {
    if k > 0 {
      assert Follows(s, ws[k - 1], es[k - 1], ws[k - 1 + 1]);
      TokenSteps(s, ws[k - 1], es[k - 1], id);
      if id in ws[k - 1].tokens {
        TokensTraced(s, ws, es, k - 1, id);
        if es[k - 1] == Resolved(id) {
          TraceResolved(s, ws, es, k - 1, id);
        } else if es[k - 1].Collected? && es[k - 1].id == id && es[k - 1].files.Some? {
          TraceCollected(s, ws, es, k - 1, id, es[k - 1].files.value);
        } else {
          TraceUntouched(s, ws, es, k - 1, id);
        }
      } else {
        TraceBegun(s, ws, es, k - 1, id);
      }
    }
  }

  /**
   * In every run, a PROJECT task becomes done only in the step k that consumes a result d from its target at its
   * attempt, and only if earlier, with no restart since, step i staged that very envelope for the task exactly as
   * it stands now, step j brought the collector's files, and step r judged d against that context over exactly
   * those files. (A takeover may import a task that is already done elsewhere.)
   */
  lemma DoneOnlyIfVerified(s: Setup, ws: seq<World>, es: seq<Event>, k: nat, task: Uuid)
    returns (i: nat, j: nat, r: nat, id: TokenId, files: seq<M.File>)
    requires Execution(s, ws, es) && Start(ws[0]) && k < |es| && !es[k].Import?
    requires task in ws[k].tasks && ws[k].tasks[task].rec.kind.Project? && !ws[k].tasks[task].rec.state.Done?
    requires task in ws[k + 1].tasks && ws[k + 1].tasks[task].rec.state.Done?
    ensures es[k].Consume? && es[k].delivery.env.body.Delivery? && es[k].delivery.env.task == Some(task)
    ensures ws[k].tasks[task].rec.target == Some(es[k].delivery.env.from)
    ensures es[k].delivery.env.attempt == Some(ws[k].tasks[task].rec.attempt)
    ensures i < j < r < k && NoRestart(es, i, k)
    ensures es[i].Begin? && es[i].id == id && es[i].delivery == es[k].delivery
    ensures task in ws[i].tasks && ContextOf(ws[i].tasks[task]) == ContextOf(ws[k].tasks[task])
    ensures es[j] == Collected(id, Some(files)) && es[r] == Resolved(id)
    ensures var d, t := es[k].delivery, ws[k].tasks[task].rec;
            && d.signed.Some? && (d.env.from, d.keyEpoch) in s.registry
            && M.Verified(d.signed.value, s.registry[(d.env.from, d.keyEpoch)], task, t.attempt, d.env.from, d.keyEpoch,
                          files, t.contract)
  {
    ExecutionKeeps(s, ws, es, k);
    assert Follows(s, ws[k], es[k], ws[k + 1]);
    var w, t := ws[k], ws[k].tasks[task];
    if es[k].Drive? {
      DoneFromMessage(t, es[k].e, es[k].select, s.p);
    }
    var d := es[k].delivery;
    var e := L.Message(d.env.from, if d.env.attempt.Some? then d.env.attempt.value else 0, d.env.body, es[k].now,
                       Some(d.env.msgId), CacheAccepts(w, t, d));
    assert ws[k + 1].tasks[task] == RunEvent(t, e, es[k].select, s.p);
    DoneFromMessage(t, e, es[k].select, s.p);
    id := w.verdicts[task];
    assert w.tokens[id] == Token(ContextOf(t), d, Some(true));
    TokensTraced(s, ws, es, k, id);
    i, j, r, files :| EarnedAt(s, ws, es, k, i, j, r, id, w.tokens[id], files);
  }

  /** A cached verdict is never stale: whatever was committed last, it is for the task's present context. */
  lemma NoStaleVerdict(s: Setup, ws: seq<World>, es: seq<Event>, k: nat, task: Uuid)
    requires Execution(s, ws, es) && Start(ws[0]) && k < |ws| && task in ws[k].verdicts
    ensures var w := ws[k];
            && w.verdicts[task] in w.tokens && task in w.tasks && AcceptsResult(w.tasks[task])
            && w.tokens[w.verdicts[task]].context == ContextOf(w.tasks[task])
  {
    ExecutionKeeps(s, ws, es, k);
  }

  /** The token stands for its task. */
  predicate Planted(w: World, task: Uuid, id: TokenId) {
    task in w.verdicts && w.verdicts[task] == id
  }

  /**
   * A revoked token is never planted again, whatever its staging does later: consume, cancel, redispatch,
   * import and fault all revoke for good (until a restart, which forgets every token).
   */
  lemma {:induction false} RevokedForGood(s: Setup, ws: seq<World>, es: seq<Event>, i: nat, k: nat, task: Uuid,
                                          id: TokenId)
    requires Execution(s, ws, es) && i <= k < |ws| && id in ws[i].tokens && !Planted(ws[i], task, id)
    requires forall j :: i <= j < k ==> !es[j].Restart?
    ensures id in ws[k].tokens && !Planted(ws[k], task, id)
    decreases k
  {
    if i < k {
      RevokedForGood(s, ws, es, i, k - 1, task, id);
      assert Follows(s, ws[k - 1], es[k - 1], ws[k - 1 + 1]);
    }
  }
}
