/** A verified delivery counts: unless its token is revoked first, it completes the task when it is consumed. */
module VerdictsEarned {
  import opened Core
  import opened Wire
  import opened Lease
  import L = LeadMachine
  import opened LeadTasks
  import M = Manifest
  import LeadRuns
  import LeadEnds
  import opened Verdicts
  import V = Verdicts

  /** Staging plants a token for the task as it stands, unless this very delivery was judged already. */
  lemma StagingPlants(s: Setup, w: World, d: V.Result, now: int, id: TokenId)
    requires Inv(s, w) && id !in w.tokens && MayStage(s, w, d, now)
    requires var task := d.env.task.value;
             task in w.verdicts && w.tokens[w.verdicts[task]].delivery == d ==> w.tokens[w.verdicts[task]].verdict.None?
    ensures var v, task := BeginStage(s, w, d, now, id), d.env.task.value;
            && Planted(v, task, id) && id in v.tokens && v.tokens[id] == Token(ContextOf(w.tasks[task]), d, None)
            && id in v.stages && v.stages[id].Collecting? && v.tasks == w.tasks && !v.faulted
  {
  }

  /** While it is planted, a token that waits for its judgement keeps its files. */
  lemma WaitingStep(s: Setup, w: World, e: Event, task: Uuid, id: TokenId, t: Token, files: seq<M.File>)
    requires Enabled(w, e) && id in w.tokens && w.tokens[id] == t && t.verdict.None? && t.context.task == task
    requires id in w.stages && w.stages[id] == Resolving(files)
    requires e != Resolved(id) && Planted(w, task, id) && Planted(Apply(s, w, e), task, id)
    ensures var v := Apply(s, w, e);
            id in v.tokens && v.tokens[id] == t && id in v.stages && v.stages[id] == Resolving(files)
  {
  }

  /** A token judged stays as it was judged. */
  lemma DecidedStep(s: Setup, w: World, e: Event, id: TokenId, t: Token)
    requires Enabled(w, e) && id in w.tokens && w.tokens[id] == t && id !in w.stages && !e.Restart?
    ensures var v := Apply(s, w, e); id in v.tokens && v.tokens[id] == t && id !in v.stages
  {
  }

  /** The token stands for its task at every step from i to k. */
  ghost predicate PlantedThrough(ws: seq<World>, i: nat, k: nat, task: Uuid, id: TokenId)
    requires k < |ws|
  {
    forall m :: i <= m <= k ==> Planted(ws[m], task, id)
  }

  lemma {:induction false} Waits(s: Setup, ws: seq<World>, es: seq<Event>, j: nat, m: nat, task: Uuid, id: TokenId,
                                 t: Token, files: seq<M.File>)
    requires Execution(s, ws, es) && j <= m < |ws| && PlantedThrough(ws, j, m, task, id)
    requires id in ws[j].tokens && ws[j].tokens[id] == t && t.verdict.None? && t.context.task == task
    requires id in ws[j].stages && ws[j].stages[id] == Resolving(files)
    requires forall n :: j <= n < m ==> es[n] != Resolved(id)
    ensures id in ws[m].tokens && ws[m].tokens[id] == t && id in ws[m].stages && ws[m].stages[id] == Resolving(files)
    decreases m
  {
    if j < m {
      Waits(s, ws, es, j, m - 1, task, id, t, files);
      assert Follows(s, ws[m - 1], es[m - 1], ws[m - 1 + 1]);
      WaitingStep(s, ws[m - 1], es[m - 1], task, id, t, files);
    }
  }

  lemma {:induction false} StaysDecided(s: Setup, ws: seq<World>, es: seq<Event>, r: nat, m: nat, task: Uuid,
                                        id: TokenId,
                                        t: Token)
    requires Execution(s, ws, es) && r <= m < |ws| && PlantedThrough(ws, r, m, task, id)
    requires id in ws[r].tokens && ws[r].tokens[id] == t && id !in ws[r].stages
    ensures id in ws[m].tokens && ws[m].tokens[id] == t
    ensures id !in ws[m].stages
    decreases m
  {
    if r < m {
      StaysDecided(s, ws, es, r, m - 1, task, id, t);
      assert Follows(s, ws[m - 1], es[m - 1], ws[m - 1 + 1]);
      DecidedStep(s, ws[m - 1], es[m - 1], id, t);
    }
  }

  /** Back from the awaits, a planted token gets the verdict its files earn. */
  lemma ResolvePlanted(s: Setup, w: World, id: TokenId, t: Token, task: Uuid, files: seq<M.File>)
    requires Inv(s, w) && Enabled(w, Resolved(id)) && w.tokens[id] == t && w.stages[id] == Resolving(files)
    requires t.context.task == task && Planted(w, task, id)
    requires (t.delivery.env.from, t.delivery.keyEpoch) in s.registry
    ensures var v := Apply(s, w, Resolved(id));
            v.tokens[id] == t.(verdict := Some(Passes(s, t, files))) && id !in v.stages && Planted(v, task, id)
  {
  }

  /** Consuming the delivery of a planted token completes its task exactly when its verdict says so. */
  lemma ConsumePlanted(s: Setup, w: World, d: V.Result, now: int, task: Uuid, id: TokenId, passed: bool,
                       select: Option<(Uuid, OfferBody)>)
    requires Inv(s, w) && !w.faulted && d.env.to == s.node && d.env.task == Some(task) && Allowed(s, d, true, now)
    requires Planted(w, task, id) && w.tokens[id].delivery == d && w.tokens[id].verdict == Some(passed)
    requires d.env.body.Delivery?
    ensures var v := ConsumeStep(s, w, d, true, now, true, select);
            && task in v.tasks && (v.tasks[task].rec.state.Done? <==> passed)
            && (passed ==> v.tasks[task].rec.resultBody == Some(d.env.body.outcome))
  {
    ContextIs(s, w, d, task, id);
    var t := w.tasks[task];
    var e := L.Message(d.env.from, d.env.attempt.value, d.env.body, now, Some(d.env.msgId), passed);
    ConsumeRuns(s, w, d, now, task, passed, select);
    AcceptedIsDone(t, e, select, s.p);
  }

  /** Consuming an allowed result runs the task's machine on it, with the cached verdict. */
  lemma ConsumeRuns(s: Setup, w: World, d: V.Result, now: int, task: Uuid, passed: bool,
                    select: Option<(Uuid, OfferBody)>)
    requires !w.faulted && d.env.to == s.node && d.env.task == Some(task) && Allowed(s, d, true, now)
    requires task in w.tasks && w.tasks[task].rec.kind.Project? && d.env.attempt.Some?
    requires CacheAccepts(w, w.tasks[task], d) <==> passed
    ensures var e := L.Message(d.env.from, d.env.attempt.value, d.env.body, now, Some(d.env.msgId), passed);
            var v := ConsumeStep(s, w, d, true, now, true, select);
            task in v.tasks && v.tasks[task] == RunEvent(w.tasks[task], e, select, s.p)
  {
  }

  /** The token of a task is for the task as it is, from its target, at its attempt. */
  lemma ContextIs(s: Setup, w: World, d: V.Result, task: Uuid, id: TokenId)
    requires Inv(s, w) && Planted(w, task, id) && w.tokens[id].delivery == d
    ensures task in w.tasks && AcceptsResult(w.tasks[task]) && w.tasks[task].rec.task == task
    ensures d.env.attempt == Some(w.tasks[task].rec.attempt) && w.tasks[task].rec.target == Some(d.env.from)
    ensures CacheAccepts(w, w.tasks[task], d) <==> w.tokens[id].verdict == Some(true)
  {
  }

  /** A result the task waits for completes it exactly when it is accepted, whatever a new target would be. */
  lemma AcceptedIsDone(t: Task, e: L.Event, select: Option<(Uuid, OfferBody)>, p: Params)
    requires AcceptsResult(t) && LeadEnds.Hears(t.rec, e) && e.body.Delivery?
    ensures RunEvent(t, e, select, p).rec.state.Done? <==> e.accepts
    ensures e.accepts ==> RunEvent(t, e, select, p).rec.resultBody == Some(e.body.outcome)
  {
    LeadEnds.NextStateIff(t.rec, e, p, L.Done);
    if e.accepts {
      LeadEnds.DeadlinesAre(t.rec, e, p);
      DoneStays(t, e, select, p);
    } else if RunEvent(t, e, select, p).rec.state.Done? {
      DoneFromMessage(t, e, select, p);
    }
  }

  lemma DoneStays(t: Task, e: L.Event, select: Option<(Uuid, OfferBody)>, p: Params)
    requires L.Apply(t.rec, e, p).rec.state.Done? && !L.IsTerminal(t.rec.state)
    ensures RunEvent(t, e, select, p).rec == L.Apply(t.rec, e, p).rec
  {
    LeadEnds.AsksExactly(t.rec, e, p);
  }

  /**
   * In every run: a delivery staged at step i, collected at j, judged at r and consumed at k, whose token nothing
   * revoked in between, completes its task exactly when it verifies over the files that were collected.
   */
  lemma VerifiedIsDone(s: Setup, ws: seq<World>, es: seq<Event>, i: nat, j: nat, r: nat, k: nat, task: Uuid,
                       id: TokenId, d: V.Result, files: seq<M.File>, now: int, select: Option<(Uuid, OfferBody)>)
    requires Execution(s, ws, es) && Start(ws[0]) && i < j < r < k < |es|
    requires es[i].Begin? && es[i].id == id && es[i].delivery == d && MayStage(s, ws[i], d, es[i].now)
    requires d.env.task == Some(task) && PlantedThrough(ws, i + 1, k, task, id)
    requires es[j] == Collected(id, Some(files)) && es[r] == Resolved(id)
    requires forall n :: j < n < r ==> es[n] != Resolved(id)
    requires (d.env.from, d.keyEpoch) in s.registry
    requires es[k] == Consume(d, true, now, true, select) && Allowed(s, d, true, now) && !ws[k].faulted
    ensures task in ws[k].tasks && task in ws[k + 1].tasks
    ensures var t := ws[k].tasks[task].rec;
            (ws[k + 1].tasks[task].rec.state.Done? <==>
               d.signed.Some? && M.Verified(d.signed.value, s.registry[(d.env.from, d.keyEpoch)], task, t.attempt,
                                            d.env.from, d.keyEpoch, files, t.contract))
  {
    ExecutionKeeps(s, ws, es, i);
    ExecutionKeeps(s, ws, es, k);
    assert Follows(s, ws[i], es[i], ws[i + 1]);
    assert Planted(ws[i + 1], task, id);
    var t0 := Token(ContextOf(ws[i].tasks[task]), d, None);
    assert ws[i + 1].tokens[id] == t0;
    Judged(s, ws, es, i, j, r, task, id, t0, files);
    assert Planted(ws[k], task, id);
    var t := t0.(verdict := Some(Passes(s, t0, files)));
    StaysDecided(s, ws, es, r + 1, k, task, id, t);
    assert Follows(s, ws[k], es[k], ws[k + 1]);
    ConsumePlanted(s, ws[k], d, now, task, id, Passes(s, t0, files), select);
  }

  lemma Judged(s: Setup, ws: seq<World>, es: seq<Event>, i: nat, j: nat, r: nat, task: Uuid, id: TokenId, t0: Token,
               files: seq<M.File>)
    requires Execution(s, ws, es) && Start(ws[0]) && i < j < r < |es| && PlantedThrough(ws, i + 1, r + 1, task, id)
    requires id in ws[i + 1].tokens && ws[i + 1].tokens[id] == t0 && t0.verdict.None? && t0.context.task == task
    requires es[j] == Collected(id, Some(files)) && es[r] == Resolved(id)
    requires forall n :: j < n < r ==> es[n] != Resolved(id)
    requires (t0.delivery.env.from, t0.delivery.keyEpoch) in s.registry
    ensures id in ws[r + 1].tokens && ws[r + 1].tokens[id] == t0.(verdict := Some(Passes(s, t0, files)))
    ensures id !in ws[r + 1].stages
  {
    ExecutionKeeps(s, ws, es, r);
    assert Follows(s, ws[r], es[r], ws[r + 1]);
    AwaitsJudgement(s, ws, es, i, j, r, task, id, t0, files);
    ResolvePlanted(s, ws[r], id, t0, task, files);
  }

  lemma AwaitsJudgement(s: Setup, ws: seq<World>, es: seq<Event>, i: nat, j: nat, r: nat, task: Uuid, id: TokenId,
                        t0: Token, files: seq<M.File>)
    requires Execution(s, ws, es) && i < j < r < |es| && PlantedThrough(ws, i + 1, r + 1, task, id)
    requires id in ws[i + 1].tokens && ws[i + 1].tokens[id] == t0 && t0.verdict.None? && t0.context.task == task
    requires es[j] == Collected(id, Some(files)) && forall n :: j < n < r ==> es[n] != Resolved(id)
    ensures id in ws[r].tokens && ws[r].tokens[id] == t0 && id in ws[r].stages && ws[r].stages[id] == Resolving(files)
    ensures Planted(ws[r], task, id)
  {
    assert Follows(s, ws[j], es[j], ws[j + 1]);
    TokenKept(s, ws, es, i + 1, j, task, id, t0);
    assert Planted(ws[j + 1], task, id);
    Waits(s, ws, es, j + 1, r, task, id, t0, files);
    assert Planted(ws[r], task, id);
  }

  /** Until its files come, a planted token is as it was staged. */
  lemma {:induction false} TokenKept(s: Setup, ws: seq<World>, es: seq<Event>, i: nat, j: nat, task: Uuid, id: TokenId,
                                     t: Token)
    requires Execution(s, ws, es) && i <= j < |es| && PlantedThrough(ws, i, j, task, id)
    requires id in ws[i].tokens && ws[i].tokens[id] == t && t.verdict.None?
    requires id in ws[j].stages && ws[j].stages[id].Collecting?
    ensures id in ws[j].tokens && ws[j].tokens[id] == t
    decreases j
  {
    if i < j {
      assert Follows(s, ws[j - 1], es[j - 1], ws[j - 1 + 1]);
      assert Planted(ws[j], task, id) && Planted(ws[j - 1], task, id);
      if es[j - 1].Begin? && es[j - 1].id == id {
        StaysKnown(s, ws, es, i, j - 1, task, id);
      } else {
        TokenSteps(s, ws[j - 1], es[j - 1], id);
        TokenKept(s, ws, es, i, j - 1, task, id, t);
      }
    }
  }

  lemma {:induction false} StaysKnown(s: Setup, ws: seq<World>, es: seq<Event>, i: nat, j: nat, task: Uuid, id: TokenId)
    requires Execution(s, ws, es) && i <= j < |ws| && PlantedThrough(ws, i, j, task, id) && id in ws[i].tokens
    ensures id in ws[j].tokens
    decreases j
  {
    if i < j {
      StaysKnown(s, ws, es, i, j - 1, task, id);
      assert Follows(s, ws[j - 1], es[j - 1], ws[j - 1 + 1]);
      assert Planted(ws[j], task, id);
      TokenSteps(s, ws[j - 1], es[j - 1], id);
    }
  }
}
