/** Task reports to the centre: one per net state change, pumped in order, converging despite losses. */
module Reports {
  import opened Core
  import opened Wire
  import opened Lease
  import opened LeadTasks
  import L = LeadMachine

  datatype Report = Report(task: Uuid, exec: Option<Uuid>, attempt: int, status: L.LeadState, kind: Kind, taskSeq: int)

  /** A durable report intent; done once the centre is known to have it or something newer. */
  datatype Intent = Intent(report: Report, done: bool)

  function ReportOf(t: Task): Report {
    Report(t.rec.task, t.rec.target, t.rec.attempt, t.rec.state, t.rec.kind, t.taskSeq)
  }

  // ---- The centre's register ----

  datatype Answer = Recorded | Obsolete | Refused

  /** One projection per task; task_seq and attempt only move forward, the kind never changes. */
  function Take(centre: map<Uuid, Report>, r: Report, execKnown: bool): (map<Uuid, Report>, Answer) {
    if r.task in centre && centre[r.task].kind != r.kind then (centre, Obsolete)
    else if r.task in centre && centre[r.task].taskSeq == r.taskSeq then
      (centre, if centre[r.task] == r then Recorded else Obsolete)
    else if r.task in centre && (r.taskSeq < centre[r.task].taskSeq || r.attempt < centre[r.task].attempt)
        then (centre, Obsolete)
    else if r.exec.Some? && !execKnown then (centre, Refused)
    else (centre[r.task := r], Recorded)
  }

  /** Whatever arrives, the centre's sequence never goes back. */
  lemma TakeMonotone(centre: map<Uuid, Report>, r: Report, execKnown: bool, task: Uuid)
    requires task in centre
    ensures var c := Take(centre, r, execKnown).0;
            task in c && centre[task].taskSeq <= c[task].taskSeq && centre[task].attempt <= c[task].attempt
  {
  }

  // ---- Lead, pump and centre together ----

  /** queues hold each task's intents in insertion order; posted is everything ever put on the wire. */
  datatype World = World(tasks: map<Uuid, Task>, queues: map<Uuid, seq<Intent>>, posted: set<Report>,
                         centre: map<Uuid, Report>)

  datatype Event =
    | Originate(task: Uuid, kind: Kind)
    | Drive(task: Uuid, e: L.Event, select: Option<(Uuid, OfferBody)>)
    | Post(task: Uuid, i: nat, reached: bool, answered: bool, execKnown: bool)
    | Late(report: Report, execKnown: bool)

  /** dispatchTo only before the first attempt; an intent is posted only after its task's earlier ones are done. */
  predicate Enabled(w: World, e: Event) {
    match e
    case Originate(task, kind) => task !in w.tasks
    case Drive(task, event, _) => task in w.tasks && task in w.queues &&
        (event.Dispatch? ==> w.tasks[task].rec.attempt == 0)
    case Post(task, i, _, _, _) =>
      && task in w.queues && i < |w.queues[task]| && !w.queues[task][i].done
      && forall j :: 0 <= j < i ==> w.queues[task][j].done
    case Late(r, _) => r in w.posted
  }

  /** One event of the lead: a net change of state appends exactly one intent. */
  function DriveStep(w: World, task: Uuid, e: L.Event, select: Option<(Uuid, OfferBody)>, p: Params): World
    requires task in w.tasks && task in w.queues
  {
    var t := w.tasks[task];
    var u := RunEvent(t, e, select, p);
    w.(tasks := w.tasks[task := u],
       queues := if u.rec.state != t.rec.state then w.queues[task := w.queues[task] + [Intent(ReportOf(u), false)]]
           else w.queues)
  }

  /** A post may be lost on the way there or on the way back; only an answer completes the intent. */
  function PostStep(w: World, task: Uuid, i: nat, reached: bool, answered: bool, execKnown: bool): World
    requires task in w.queues && i < |w.queues[task]|
  {
    var r := w.queues[task][i].report;
    var sent := w.(posted := w.posted + {r});
    if !reached then sent
    else
      var (c, answer) := Take(w.centre, r, execKnown);
      if answered && !answer.Refused?
      then sent.(centre := c, queues := w.queues[task := w.queues[task][i := Intent(r, true)]])
      else sent.(centre := c)
  }

  function Apply(w: World, e: Event, p: Params): World
    requires Enabled(w, e)
  {
    match e
    case Originate(task, kind) =>
      w.(tasks := w.tasks[task := Task(L.Fresh(task, kind, p), 0)], queues := w.queues[task := []])
    case Drive(task, event, select) => DriveStep(w, task, event, select, p)
    case Post(task, i, reached, answered, execKnown) => PostStep(w, task, i, reached, answered, execKnown)
    case Late(r, execKnown) => w.(centre := Take(w.centre, r, execKnown).0)
  }

  // ---- The invariant ----

  /** The queue of a task is the whole history of its states, numbered from 1. */
  predicate History(task: Uuid, t: Task, q: seq<Intent>) {
    && t.rec.task == task && |q| == t.taskSeq
    && (forall s :: 0 <= s < |q| ==>
          q[s].report.task == task && q[s].report.kind == t.rec.kind && q[s].report.taskSeq == s + 1)
    && (forall s, u :: 0 <= s <= u < |q| ==> q[s].report.attempt <= q[u].report.attempt)
    && (|q| > 0 ==> q[|q| - 1].report.attempt <= t.rec.attempt && q[|q| - 1].report.status == t.rec.state)
    && (if |q| == 0 then t.rec.state.Drafting? else !q[0].report.status.Drafting?)
    && (forall s :: 0 < s < |q| ==> q[s - 1].report.status != q[s].report.status)
  }

  predicate DonePrefix(q: seq<Intent>) {
    forall s, u :: 0 <= s < u < |q| && q[u].done ==> q[s].done
  }

  predicate OnRecord(queues: map<Uuid, seq<Intent>>, r: Report) {
    && r.task in queues && 1 <= r.taskSeq <= |queues[r.task]| && queues[r.task][r.taskSeq - 1].report == r
  }

  /** What is done has reached the centre, or was overtaken there. */
  predicate Reached(centre: map<Uuid, Report>, task: Uuid, q: seq<Intent>) {
    forall s :: 0 <= s < |q| && q[s].done ==> task in centre && centre[task].taskSeq >= s + 1
  }

  predicate QueueOk(centre: map<Uuid, Report>, task: Uuid, t: Task, q: seq<Intent>) {
    History(task, t, q) && DonePrefix(q) && Reached(centre, task, q)
  }

  ghost predicate Inv(w: World) {
    && w.queues.Keys == w.tasks.Keys
    && (forall task {:trigger QueueOk(w.centre, task, w.tasks[task], w.queues[task])} ::
          task in w.tasks ==> QueueOk(w.centre, task, w.tasks[task], w.queues[task]))
    && (forall r :: r in w.posted ==> OnRecord(w.queues, r))
    && (forall task :: task in w.centre ==> w.centre[task] in w.posted && w.centre[task].task == task)
  }

  /** Attempts never go back when dispatchTo is used once. */
  lemma AttemptGrows(r: L.Record, e: L.Event, select: Option<(Uuid, OfferBody)>, p: Params)
    requires e.Dispatch? ==> r.attempt == 0
    ensures Driven(r, e, select, p).attempt >= r.attempt && Driven(r, e, select, p).kind == r.kind &&
            Driven(r, e, select, p).task == r.task
  {
    OnlyDispatchesMove(r, e, p);
  }

  lemma Restate<K, V>(m: map<K, V>, k: K)
    requires k in m
    ensures m[k := m[k]] == m
  {
  }

  /** A queue keeps the reports it had. */
  predicate Extends(q: seq<Intent>, q2: seq<Intent>) {
    |q| <= |q2| && forall s :: 0 <= s < |q| ==> q2[s].report == q[s].report
  }

  /** Replacing one task and its queue by a longer history. */
  lemma QueueKeeps(w: World, task: Uuid, t: Task, q: seq<Intent>)
    requires Inv(w) && QueueOk(w.centre, task, t, q)
    requires task in w.queues ==> Extends(w.queues[task], q)
    ensures Inv(w.(tasks := w.tasks[task := t], queues := w.queues[task := q]))
  {
    var v := w.(tasks := w.tasks[task := t], queues := w.queues[task := q]);
    forall r | r in v.posted ensures OnRecord(v.queues, r) {
      assert OnRecord(w.queues, r);
    }
    forall other | other in v.tasks ensures QueueOk(v.centre, other, v.tasks[other], v.queues[other]) {
      if other != task {
        assert QueueOk(w.centre, other, w.tasks[other], w.queues[other]);
      }
    }
  }

  function Grown(t: Task, u: Task, q: seq<Intent>): seq<Intent> {
    if u.rec.state != t.rec.state then q + [Intent(ReportOf(u), false)] else q
  }

  lemma HistoryGrows(centre: map<Uuid, Report>, task: Uuid, t: Task, q: seq<Intent>, u: Task)
    requires QueueOk(centre, task, t, q)
    requires u.rec.attempt >= t.rec.attempt && u.rec.kind == t.rec.kind && u.rec.task == t.rec.task
    requires u.taskSeq == if u.rec.state != t.rec.state then t.taskSeq + 1 else t.taskSeq
    ensures QueueOk(centre, task, u, Grown(t, u, q)) && Extends(q, Grown(t, u, q))
  {
    if |q| > 0 {
      forall s | 0 <= s < |q| ensures q[s].report.attempt <= u.rec.attempt {
        assert q[s].report.attempt <= q[|q| - 1].report.attempt;
      }
    }
  }

  lemma DriveKeeps(w: World, task: Uuid, e: L.Event, select: Option<(Uuid, OfferBody)>, p: Params)
    requires Inv(w) && Enabled(w, Drive(task, e, select))
    ensures Inv(DriveStep(w, task, e, select, p))
  {
    AttemptGrows(w.tasks[task].rec, e, select, p);
    AdvanceKeeps(w, task, RunEvent(w.tasks[task], e, select, p));
  }

  lemma AdvanceKeeps(w: World, task: Uuid, u: Task)
    requires Inv(w) && task in w.tasks && task in w.queues
    requires var t := w.tasks[task];
             && u.rec.attempt >= t.rec.attempt && u.rec.kind == t.rec.kind && u.rec.task == t.rec.task
             && u.taskSeq == if u.rec.state != t.rec.state then t.taskSeq + 1 else t.taskSeq
    ensures Inv(w.(tasks := w.tasks[task := u],
                   queues := if u.rec.state != w.tasks[task].rec.state
                             then w.queues[task := w.queues[task] + [Intent(ReportOf(u), false)]] else w.queues))
  {
    var t, q := w.tasks[task], w.queues[task];
    assert QueueOk(w.centre, task, t, q);
    HistoryGrows(w.centre, task, t, q, u);
    QueueKeeps(w, task, u, Grown(t, u, q));
    Restate(w.queues, task);
  }

  /** The centre is never ahead of the lead, and two reports of one revision are the same report. */
  lemma CentreKnows(w: World, r: Report, execKnown: bool)
    requires Inv(w) && OnRecord(w.queues, r)
    ensures var (c, answer) := Take(w.centre, r, execKnown);
            && (r.task in c ==> c[r.task] == r || (r.task in w.centre && c[r.task] == w.centre[r.task]))
            && (!answer.Refused? ==> r.task in c && c[r.task].taskSeq >= r.taskSeq)
  {
    if r.task in w.centre {
      var known := w.centre[r.task];
      assert OnRecord(w.queues, known);
      assert QueueOk(w.centre, r.task, w.tasks[r.task], w.queues[r.task]);
      if known.taskSeq < r.taskSeq {
        assert w.queues[r.task][known.taskSeq - 1].report.attempt <= w.queues[r.task][r.taskSeq - 1].report.attempt;
      }
    }
  }

  lemma QueueLater(centre: map<Uuid, Report>, r: Report, execKnown: bool, task: Uuid, t: Task, q: seq<Intent>)
    requires QueueOk(centre, task, t, q)
    ensures QueueOk(Take(centre, r, execKnown).0, task, t, q)
  {
    if task in centre {
      TakeMonotone(centre, r, execKnown, task);
    }
  }

  /** The centre takes a report that was posted. */
  lemma TakeKeeps(w: World, r: Report, execKnown: bool)
    requires Inv(w) && r in w.posted
    ensures Inv(w.(centre := Take(w.centre, r, execKnown).0))
  {
    var c := Take(w.centre, r, execKnown).0;
    assert c == w.centre || c == w.centre[r.task := r];
    forall task | task in w.tasks ensures QueueOk(c, task, w.tasks[task], w.queues[task]) {
      assert QueueOk(w.centre, task, w.tasks[task], w.queues[task]);
      QueueLater(w.centre, r, execKnown, task, w.tasks[task], w.queues[task]);
    }
  }

  lemma PostKeeps(w: World, task: Uuid, i: nat, reached: bool, answered: bool, execKnown: bool)
    requires Inv(w) && Enabled(w, Post(task, i, reached, answered, execKnown))
    ensures Inv(PostStep(w, task, i, reached, answered, execKnown))
  {
    var q := w.queues[task];
    var r := q[i].report;
    assert QueueOk(w.centre, task, w.tasks[task], q);
    var sent := w.(posted := w.posted + {r});
    assert Inv(sent);
    if reached {
      TakeKeeps(sent, r, execKnown);
      CentreKnows(sent, r, execKnown);
      var (c, answer) := Take(w.centre, r, execKnown);
      if answered && !answer.Refused? {
        CompleteKeeps(sent.(centre := c), task, i);
      }
    }
  }

  /** Completing the first pending intent of a task the centre has caught up with. */
  lemma CompleteKeeps(w: World, task: Uuid, i: nat)
    requires Inv(w) && task in w.queues && i < |w.queues[task]|
    requires forall j :: 0 <= j < i ==> w.queues[task][j].done
    requires task in w.centre && w.centre[task].taskSeq >= i + 1
    ensures Inv(w.(queues := w.queues[task := w.queues[task][i := Intent(w.queues[task][i].report, true)]]))
  {
    var t, q := w.tasks[task], w.queues[task];
    var q2 := q[i := Intent(q[i].report, true)];
    assert QueueOk(w.centre, task, t, q);
    CompleteQueue(w.centre, task, t, q, i);
    QueueKeeps(w, task, t, q2);
    Restate(w.tasks, task);
  }

  lemma CompleteQueue(centre: map<Uuid, Report>, task: Uuid, t: Task, q: seq<Intent>, i: nat)
    requires QueueOk(centre, task, t, q) && i < |q| && (forall j :: 0 <= j < i ==> q[j].done)
    requires task in centre && centre[task].taskSeq >= i + 1
    ensures QueueOk(centre, task, t, q[i := Intent(q[i].report, true)])
    ensures Extends(q, q[i := Intent(q[i].report, true)])
  {
  }

  lemma StepKeeps(w: World, e: Event, p: Params)
    requires Inv(w) && Enabled(w, e)
    ensures Inv(Apply(w, e, p))
  {
    match e
    case Originate(task, kind) => QueueKeeps(w, task, Task(L.Fresh(task, kind, p), 0), []);
    case Drive(task, event, select) => DriveKeeps(w, task, event, select, p);
    case Post(task, i, reached, answered, execKnown) => PostKeeps(w, task, i, reached, answered, execKnown);
    case Late(r, execKnown) => TakeKeeps(w, r, execKnown);
  }

  // ---- Runs and results ----

  predicate Follows(w: World, e: Event, v: World, p: Params) {
    Enabled(w, e) && v == Apply(w, e, p)
  }

  ghost predicate Execution(ws: seq<World>, es: seq<Event>, p: Params) {
    |ws| == |es| + 1 && ws[0] == World(map[], map[], {}, map[])
    && forall i :: 0 <= i < |es| ==> Follows(ws[i], es[i], ws[i + 1], p)
  }

  lemma {:induction false} ExecutionKeeps(ws: seq<World>, es: seq<Event>, p: Params, k: nat)
    requires Execution(ws, es, p) && k < |ws|
    ensures Inv(ws[k])
  {
    if k > 0 {
      ExecutionKeeps(ws, es, p, k - 1);
      assert Follows(ws[k - 1], es[k - 1], ws[k - 1 + 1], p);
      StepKeeps(ws[k - 1], es[k - 1], p);
    }
  }

  /** In any run the centre's revision of a task never decreases. */
  lemma {:induction false} CentreNeverGoesBack(ws: seq<World>, es: seq<Event>, p: Params, i: nat, k: nat, task: Uuid)
    requires Execution(ws, es, p) && i <= k < |ws| && task in ws[i].centre
    ensures task in ws[k].centre && ws[i].centre[task].taskSeq <= ws[k].centre[task].taskSeq
    decreases k
  {
    if i < k {
      CentreNeverGoesBack(ws, es, p, i, k - 1, task);
      assert Follows(ws[k - 1], es[k - 1], ws[k - 1 + 1], p);
      match es[k - 1]
      case Post(t, n, reached, answered, execKnown) => TakeMonotone(ws[k - 1].centre, ws[k - 1].queues[t][n].report,
          execKnown, task);
      case Late(r, execKnown) => TakeMonotone(ws[k - 1].centre, r, execKnown, task);
      case _ =>
    }
  }

  /**
   * Convergence: whatever was lost, repeated or late, once a task's intents have drained the centre shows its
   * last report, and with it the task's present state.
   */
  lemma DrainedMeansCurrent(ws: seq<World>, es: seq<Event>, p: Params, k: nat, task: Uuid)
    requires Execution(ws, es, p) && k < |ws| && task in ws[k].tasks && task in ws[k].queues && ws[k].queues[task] != []
    requires forall s :: 0 <= s < |ws[k].queues[task]| ==> ws[k].queues[task][s].done
    ensures var w := ws[k]; var q := w.queues[task];
            && task in w.centre && w.centre[task] == q[|q| - 1].report
            && w.centre[task].taskSeq == w.tasks[task].taskSeq && w.centre[task].status == w.tasks[task].rec.state
  {
    ExecutionKeeps(ws, es, p, k);
    var w := ws[k];
    var q := w.queues[task];
    assert QueueOk(w.centre, task, w.tasks[task], q) && q[|q| - 1].done;
    assert OnRecord(w.queues, w.centre[task]);
  }

  /**
   * In every run a task's reports are exactly its net changes of state: numbered 1, 2, 3 and so on up to
   * task_seq, each with a status other than the one before, the last with the present state, and attempts
   * that never go back.
   */
  lemma ReportsAreTheHistory(ws: seq<World>, es: seq<Event>, p: Params, k: nat, task: Uuid)
    requires Execution(ws, es, p) && k < |ws| && task in ws[k].tasks
    ensures task in ws[k].queues && History(task, ws[k].tasks[task], ws[k].queues[task])
  {
    ExecutionKeeps(ws, es, p, k);
    assert QueueOk(ws[k].centre, task, ws[k].tasks[task], ws[k].queues[task]);
  }

  // ---- How far the centre's attempt may lag ----

  /** Step i drives the task by this event. */
  predicate DrivesAt(ws: seq<World>, es: seq<Event>, i: nat, task: Uuid)
    requires |ws| == |es| + 1
  {
    i < |es| && es[i].Drive? && es[i].task == task && task in ws[i].tasks
  }

  /** Offers rejected and made again in one event since the last report of the task. */
  function ReoffersSince(ws: seq<World>, es: seq<Event>, k: nat, task: Uuid, p: Params): nat
    requires |ws| == |es| + 1 && k < |ws|
  {
    if k == 0 then 0
    else if !DrivesAt(ws, es, k - 1, task) then ReoffersSince(ws, es, k - 1, task, p)
    else
      var t := ws[k - 1].tasks[task];
      if RunEvent(t, es[k - 1].e, es[k - 1].select, p).rec.state != t.rec.state then 0
      else ReoffersSince(ws, es, k - 1, task, p) + if Reoffers(t.rec, es[k - 1].e, es[k - 1].select, p) then 1 else 0
  }

  function LastReported(q: seq<Intent>): int {
    if q == [] then 0 else q[|q| - 1].report.attempt
  }

  lemma DriveLags(t: Task, e: L.Event, select: Option<(Uuid, OfferBody)>, p: Params)
    requires e.Dispatch? ==> t.rec.attempt == 0
    ensures var u := RunEvent(t, e, select, p);
            u.rec.state == t.rec.state ==>
              u.rec.attempt == t.rec.attempt + if Reoffers(t.rec, e, select, p) then 1 else 0
  {
    SilentReofferIff(t, e, select, p);
  }

  /** A step that does not drive the task leaves it, and the reports of its queue. */
  lemma OthersLeave(w: World, e: Event, task: Uuid, p: Params)
    requires Enabled(w, e) && task in w.tasks && task in w.queues && !(e.Drive? && e.task == task)
    ensures var v := Apply(w, e, p);
            && task in v.tasks && task in v.queues && v.tasks[task] == w.tasks[task]
            && |v.queues[task]| == |w.queues[task]| && LastReported(v.queues[task]) == LastReported(w.queues[task])
  {
  }

  /** The task's attempt is ahead of its last report by exactly the silent offers made since. */
  lemma {:induction false} AttemptLag(ws: seq<World>, es: seq<Event>, p: Params, k: nat, task: Uuid)
    requires Execution(ws, es, p) && k < |ws| && task in ws[k].tasks
    ensures task in ws[k].queues
    ensures ws[k].tasks[task].rec.attempt == LastReported(ws[k].queues[task]) + ReoffersSince(ws, es, k, task, p)
  {
    ExecutionKeeps(ws, es, p, k);
    if k > 0 {
      var w, e := ws[k - 1], es[k - 1];
      assert Follows(w, e, ws[k - 1 + 1], p);
      if e.Originate? && e.task == task {
        NeverDriven(ws, es, p, k - 1, task);
      } else {
        AttemptLag(ws, es, p, k - 1, task);
        if e.Drive? && e.task == task {
          DriveLags(w.tasks[task], e.e, e.select, p);
        } else {
          OthersLeave(w, e, task, p);
        }
      }
    }
  }

  lemma {:induction false} NeverDriven(ws: seq<World>, es: seq<Event>, p: Params, k: nat, task: Uuid)
    requires Execution(ws, es, p) && k < |ws| && task !in ws[k].tasks
    ensures ReoffersSince(ws, es, k, task, p) == 0
  {
    if k > 0 {
      assert Follows(ws[k - 1], es[k - 1], ws[k - 1 + 1], p);
      assert task !in ws[k - 1].tasks;
      NeverDriven(ws, es, p, k - 1, task);
    }
  }

  /**
   * Once a task's intents have drained, the attempt the centre shows is the task's exactly when no offer was
   * rejected and made again in one event since the last report; otherwise it lags by the number of those.
   */
  lemma CentreAttemptIff(ws: seq<World>, es: seq<Event>, p: Params, k: nat, task: Uuid)
    requires Execution(ws, es, p) && k < |ws| && task in ws[k].tasks && task in ws[k].queues && ws[k].queues[task] != []
    requires forall s :: 0 <= s < |ws[k].queues[task]| ==> ws[k].queues[task][s].done
    ensures task in ws[k].centre
    ensures ws[k].centre[task].attempt == ws[k].tasks[task].rec.attempt - ReoffersSince(ws, es, k, task, p)
    ensures ws[k].centre[task].attempt == ws[k].tasks[task].rec.attempt <==> ReoffersSince(ws, es, k, task, p) == 0
  {
    DrainedMeansCurrent(ws, es, p, k, task);
    AttemptLag(ws, es, p, k, task);
  }

  // ---- The pump's pass over the pending intents ----

  /** One intent: the task and its place in the task's queue. */
  datatype Slot = Slot(task: Uuid, i: nat)

  /** What the network and the centre do with one post. */
  datatype Reply = Reply(reached: bool, answered: bool, execKnown: bool)

  predicate IsSlot(w: World, s: Slot) {
    s.task in w.queues && s.i < |w.queues[s.task]|
  }

  predicate DoneAt(w: World, s: Slot) {
    IsSlot(w, s) && w.queues[s.task][s.i].done
  }

  /** The first pending intents in rowid order: an intent comes after all pending earlier ones of its task. */
  predicate RowidOrder(w: World, order: seq<Slot>) {
    && (forall k :: 0 <= k < |order| ==> IsSlot(w, order[k]) && !DoneAt(w, order[k]))
    && (forall a, b :: 0 <= a < b < |order| ==> order[a] != order[b])
    && forall k, j :: 0 <= k < |order| && 0 <= j < order[k].i && !DoneAt(w, Slot(order[k].task, j)) ==>
         Slot(order[k].task, j) in order[..k]
  }

  function PostOf(s: Slot, r: Reply): Event {
    Post(s.task, s.i, r.reached, r.answered, r.execKnown)
  }

  /** The answer that lets the pump complete the intent: recorded, or a conflict with the same or a newer revision. */
  predicate Completes(w: World, s: Slot, r: Reply)
    requires IsSlot(w, s)
  {
    r.reached && r.answered && !Take(w.centre, w.queues[s.task][s.i].report, r.execKnown).1.Refused?
  }

  /** A sequence of posts, each one a step of the whole system. */
  ghost predicate Pass(ws: seq<World>, order: seq<Slot>, replies: seq<Reply>, posts: seq<nat>, p: Params)
    requires |replies| >= |order|
  {
    && |ws| == |posts| + 1
    && (forall m :: 0 <= m < |posts| ==> posts[m] < |order|)
    && (forall m, n :: 0 <= m < n < |posts| ==> posts[m] < posts[n])
    && forall m :: 0 <= m < |posts| ==> Follows(ws[m], PostOf(order[posts[m]], replies[posts[m]]), ws[m + 1], p)
  }

  /** How many posts of a pass were completed. */
  ghost function Completed(ws: seq<World>, order: seq<Slot>, replies: seq<Reply>, posts: seq<nat>): nat
    requires |replies| >= |order| && |ws| == |posts| + 1 && forall m :: 0 <= m < |posts| ==> posts[m] < |order|
  {
    if posts == [] then 0
    else
      var n := |posts| - 1;
      Completed(ws[..|ws| - 1], order, replies, posts[..n]) +
      if IsSlot(ws[n], order[posts[n]]) && Completes(ws[n], order[posts[n]], replies[posts[n]]) then 1 else 0
  }

  lemma {:induction false} PassGrows(ws: seq<World>, order: seq<Slot>, replies: seq<Reply>, posts: seq<nat>, k: nat,
                                     v: World, p: Params)
    requires |replies| >= |order| && Pass(ws, order, replies, posts, p) && k < |order| && forall m ::
             0 <= m < |posts| ==> posts[m] < k
    requires Follows(ws[|posts|], PostOf(order[k], replies[k]), v, p)
    ensures Pass(ws + [v], order, replies, posts + [k], p)
  {
    var ws2, posts2 := ws + [v], posts + [k];
    forall m | 0 <= m < |posts2|
      ensures posts2[m] < |order| && Follows(ws2[m], PostOf(order[posts2[m]], replies[posts2[m]]), ws2[m + 1], p)
    {
      assert m < |posts| ==> ws2[m] == ws[m] && ws2[m + 1] == ws[m + 1] && posts2[m] == posts[m];
    }
  }

  lemma {:induction false} CompletedGrows(ws: seq<World>, order: seq<Slot>, replies: seq<Reply>, posts: seq<nat>,
                                          k: nat, v: World)
    requires |replies| >= |order| && |ws| == |posts| + 1 && k < |order| && forall m ::
             0 <= m < |posts| ==> posts[m] < |order|
    requires IsSlot(ws[|posts|], order[k])
    ensures forall m :: 0 <= m < |posts + [k]| ==> (posts + [k])[m] < |order|
    ensures Completed(ws + [v], order, replies, posts + [k]) ==
              Completed(ws, order, replies, posts) + if Completes(ws[|posts|], order[k], replies[k]) then 1 else 0
  {
    assert (ws + [v])[..|ws|] == ws && (posts + [k])[..|posts|] == posts;
  }

  /** What a post changes of the queues: its own intent is done if the answer completes it, nothing else. */
  lemma PostMarks(w: World, s: Slot, r: Reply, other: Slot)
    requires IsSlot(w, s)
    ensures var v := PostStep(w, s.task, s.i, r.reached, r.answered, r.execKnown);
            && (IsSlot(v, other) <==> IsSlot(w, other))
            && (DoneAt(v, other) <==> DoneAt(w, other) || (other == s && Completes(w, s, r)))
  {
  }

  lemma PostMarksAll(w: World, s: Slot, r: Reply)
    requires IsSlot(w, s)
    ensures var v := PostStep(w, s.task, s.i, r.reached, r.answered, r.execKnown);
            && (forall o :: IsSlot(v, o) <==> IsSlot(w, o))
            && (forall o :: DoneAt(v, o) <==> DoneAt(w, o) || (o == s && Completes(w, s, r)))
  {
    forall o ensures var v := PostStep(w, s.task, s.i, r.reached, r.answered, r.execKnown);
                     && (IsSlot(v, o) <==> IsSlot(w, o))
                     && (DoneAt(v, o) <==> DoneAt(w, o) || (o == s && Completes(w, s, r)))
    {
      PostMarks(w, s, r, o);
    }
  }

  /** Since the pass began only intents it has seen were completed, and none was lost. */
  ghost predicate OnlySeen(w: World, after: World, seen: seq<Slot>) {
    && (forall o :: IsSlot(w, o) <==> IsSlot(after, o))
    && (forall o :: DoneAt(w, o) ==> DoneAt(after, o))
    && (forall o :: DoneAt(after, o) && !DoneAt(w, o) ==> o in seen)
  }

  /** What was seen of a task that is not blocked is done. */
  ghost predicate Clear(after: World, seen: seq<Slot>, blocked: set<Uuid>) {
    forall o :: o in seen && o.task !in blocked ==> DoneAt(after, o)
  }

  /** A post of this task failed before place k. */
  ghost predicate Failed(after: World, order: seq<Slot>, posts: seq<nat>, k: nat, t: Uuid) {
    exists j :: 0 <= j < k && j < |order| && order[j].task == t && j in posts && !DoneAt(after, order[j])
  }

  ghost predicate Blocked(after: World, order: seq<Slot>, posts: seq<nat>, k: nat, blocked: set<Uuid>) {
    forall t :: t in blocked ==> Failed(after, order, posts, k, t)
  }

  ghost predicate Skipped(after: World, order: seq<Slot>, posts: seq<nat>, k: nat) {
    forall n :: 0 <= n < k && n < |order| && n !in posts ==> Failed(after, order, posts, n, order[n].task)
  }

  /** The slot may be posted: everything before it of its task is done. */
  lemma SlotIsEnabled(w: World, after: World, order: seq<Slot>, k: nat, blocked: set<Uuid>, r: Reply)
    requires RowidOrder(w, order) && k < |order| && order[k].task !in blocked
    requires OnlySeen(w, after, order[..k]) && Clear(after, order[..k], blocked)
    ensures IsSlot(after, order[k]) && Enabled(after, PostOf(order[k], r))
  {
    var s := order[k];
    assert IsSlot(after, s);
    assert !DoneAt(after, s) by {
      assert s !in order[..k];
    }
    forall j | 0 <= j < s.i ensures after.queues[s.task][j].done {
      var o := Slot(s.task, j);
      assert DoneAt(after, o) by {
        if !DoneAt(w, o) {
          assert o in order[..k];
        }
      }
    }
  }

  lemma FailedLasts(w: World, v: World, order: seq<Slot>, posts: seq<nat>, k: nat, m: nat, t: Uuid)
    requires Failed(w, order, posts, k, t) && k <= m < |order| && order[m].task != t
    requires forall o :: DoneAt(v, o) ==> DoneAt(w, o) || o == order[m]
    ensures Failed(v, order, posts + [m], m, t)
    ensures k <= m ==> Failed(v, order, posts + [m], k, t)
  {
    var j :| 0 <= j < k && j < |order| && order[j].task == t && j in posts && !DoneAt(w, order[j]);
    assert order[j] != order[m] && j in posts + [m];
  }

  /** The bookkeeping of one post. */
  lemma PostedKeeps(w: World, a: World, order: seq<Slot>, k: nat, blocked: set<Uuid>, r: Reply)
    requires RowidOrder(w, order) && k < |order| && order[k].task !in blocked && IsSlot(a, order[k])
    requires OnlySeen(w, a, order[..k]) && Clear(a, order[..k], blocked)
    ensures var s := order[k];
            var v := PostStep(a, s.task, s.i, r.reached, r.answered, r.execKnown);
            OnlySeen(w, v, order[..k + 1]) &&
                Clear(v, order[..k + 1], if Completes(a, s, r) then blocked else blocked + {s.task})
  {
    PostMarksAll(a, order[k], r);
    assert order[..k + 1] == order[..k] + [order[k]];
  }

  lemma PostedSkips(w: World, a: World, order: seq<Slot>, posts: seq<nat>, k: nat, blocked: set<Uuid>, r: Reply)
    requires RowidOrder(w, order) && k < |order| && order[k].task !in blocked && IsSlot(a, order[k])
    requires OnlySeen(w, a, order[..k]) && Clear(a, order[..k], blocked)
    requires Blocked(a, order, posts, k, blocked) && Skipped(a, order, posts, k)
    ensures var s := order[k];
            var v := PostStep(a, s.task, s.i, r.reached, r.answered, r.execKnown);
            && Blocked(v, order, posts + [k], k + 1, if Completes(a, s, r) then blocked else blocked + {s.task})
            && Skipped(v, order, posts + [k], k + 1)
  {
    var s := order[k];
    var v := PostStep(a, s.task, s.i, r.reached, r.answered, r.execKnown);
    PostMarksAll(a, s, r);
    assert !DoneAt(a, s) by {
      assert s !in order[..k];
    }
    forall t | t in blocked ensures Failed(v, order, posts + [k], k + 1, t) {
      FailedLasts(a, v, order, posts, k, k, t);
    }
    if !Completes(a, s, r) {
      assert k in posts + [k] && !DoneAt(v, order[k]);
    }
    forall n | 0 <= n < k + 1 && n !in posts + [k] ensures Failed(v, order, posts + [k], n, order[n].task) {
      assert n !in posts && n < k;
      SkippedTask(a, order, posts, k, n, blocked);
      FailedLasts(a, v, order, posts, n, k, order[n].task);
    }
  }

  /** A task with a failed post is blocked. */
  lemma SkippedTask(a: World, order: seq<Slot>, posts: seq<nat>, k: nat, n: nat, blocked: set<Uuid>)
    requires n < k <= |order| && Failed(a, order, posts, n, order[n].task) && Clear(a, order[..k], blocked)
    ensures order[n].task in blocked
  {
    var j :| 0 <= j < n && j < |order| && order[j].task == order[n].task && j in posts && !DoneAt(a, order[j]);
    assert order[j] in order[..k];
  }

  /** What is known after the first k places. */
  ghost predicate SoFar(w: World, after: World, order: seq<Slot>, posts: seq<nat>, k: nat, blocked: set<Uuid>)
    requires k <= |order|
  {
    && OnlySeen(w, after, order[..k]) && Clear(after, order[..k], blocked)
    && Blocked(after, order, posts, k, blocked) && Skipped(after, order, posts, k)
  }

  lemma PassedOver(w: World, after: World, order: seq<Slot>, posts: seq<nat>, k: nat, blocked: set<Uuid>)
    requires k < |order| && SoFar(w, after, order, posts, k, blocked) && order[k].task in blocked
    ensures SoFar(w, after, order, posts, k + 1, blocked)
  {
    assert order[..k + 1] == order[..k] + [order[k]];
    forall t | t in blocked ensures Failed(after, order, posts, k + 1, t) {
      assert Failed(after, order, posts, k, t);
    }
  }

  lemma PostedOn(w: World, a: World, order: seq<Slot>, posts: seq<nat>, k: nat, blocked: set<Uuid>, r: Reply)
    requires RowidOrder(w, order) && k < |order| && SoFar(w, a, order, posts, k, blocked) && order[k].task !in blocked
    ensures var s := order[k];
            && IsSlot(a, s) && Enabled(a, PostOf(s, r))
            && SoFar(w, PostStep(a, s.task, s.i, r.reached, r.answered, r.execKnown), order, posts + [k], k + 1,
                     if Completes(a, s, r) then blocked else blocked + {s.task})
  {
    SlotIsEnabled(w, a, order, k, blocked, r);
    PostedKeeps(w, a, order, k, blocked, r);
    PostedSkips(w, a, order, posts, k, blocked, r);
  }

  /** The pass so far: a run from w to `after`, whose completed posts were counted. */
  ghost predicate Ran(w: World, after: World, ws: seq<World>, order: seq<Slot>, replies: seq<Reply>, posts: seq<nat>,
                      k: nat, delivered: nat, p: Params)
    requires |replies| >= |order|
  {
    && Pass(ws, order, replies, posts, p) && ws[0] == w && ws[|posts|] == after
    && (forall m :: 0 <= m < |posts| ==> posts[m] < k)
    && delivered == Completed(ws, order, replies, posts)
  }

  lemma RanOn(w: World, after: World, ws: seq<World>, order: seq<Slot>, replies: seq<Reply>, posts: seq<nat>, k: nat,
              delivered: nat, next: World, p: Params)
    requires |replies| >= |order| && k < |order| && Ran(w, after, ws, order, replies, posts, k, delivered, p)
    requires IsSlot(after, order[k]) && Follows(after, PostOf(order[k], replies[k]), next, p)
    ensures Ran(w, next, ws + [next], order, replies, posts + [k], k + 1,
                delivered + if Completes(after, order[k], replies[k]) then 1 else 0, p)
  {
    PassGrows(ws, order, replies, posts, k, next, p);
    CompletedGrows(ws, order, replies, posts, k, next);
  }

  /**
   * One pass in rowid order, skipping tasks that failed in this pass; `replies` are the answers to come. The pass
   * is a run of the system whose steps are posts in that order, each enabled when it happens.
   */
  method Flush(w: World, order: seq<Slot>, replies: seq<Reply>, ghost p: Params)
    returns (after: World, posts: seq<nat>, delivered: nat, ghost ws: seq<World>)
    requires RowidOrder(w, order) && |replies| >= |order|
    ensures Pass(ws, order, replies, posts, p) && ws[0] == w && ws[|posts|] == after
    ensures delivered == Completed(ws, order, replies, posts)
    ensures OnlySeen(w, after, order)
    ensures forall k :: 0 <= k < |order| && k !in posts ==> Failed(after, order, posts, k, order[k].task)
  {
    after, posts, delivered, ws := w, [], 0, [w];
    var blocked: set<Uuid> := {};
    for k := 0 to |order|
      invariant Ran(w, after, ws, order, replies, posts, k, delivered, p)
      invariant SoFar(w, after, order, posts, k, blocked)
    {
      var s, r := order[k], replies[k];
      if s.task in blocked {
        PassedOver(w, after, order, posts, k, blocked);
        continue;
      }
      PostedOn(w, after, order, posts, k, blocked, r);
      var next := PostStep(after, s.task, s.i, r.reached, r.answered, r.execKnown);
      RanOn(w, after, ws, order, replies, posts, k, delivered, next, p);
      if Completes(after, s, r) {
        delivered := delivered + 1;
      } else {
        blocked := blocked + {s.task};
      }
      after, posts, ws := next, posts + [k], ws + [next];
    }
    assert order[..|order|] == order;
  }
}
