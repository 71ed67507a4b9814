/** Reports get through: what an answer means, and that every queue can be drained from wherever a run has come. */
module ReportsDrain {
  import opened Core
  import opened Wire
  import opened Lease
  import opened LeadTasks
  import L = LeadMachine
  import opened Reports

  /**
   * The centre's answer: recorded exactly when it holds this very report afterwards; obsolete exactly when it has the
   * task under another kind, at this revision with other content, or further on; else refused, for an unknown executor.
   */
  lemma TakeIff(centre: map<Uuid, Report>, r: Report, execKnown: bool)
    ensures var (c, a) := Take(centre, r, execKnown);
            var known := r.task in centre;
            var ahead := known && (centre[r.task].kind != r.kind
                                   || (centre[r.task].taskSeq == r.taskSeq && centre[r.task] != r)
                                   || (centre[r.task].taskSeq != r.taskSeq
                                       && (r.taskSeq < centre[r.task].taskSeq || r.attempt < centre[r.task].attempt)));
            && (a.Recorded? <==> r.task in c && c[r.task] == r)
            && (a.Obsolete? <==> ahead)
            && (a.Refused? <==> !ahead && !(known && centre[r.task] == r) && r.exec.Some? && !execKnown)
            && (!a.Recorded? ==> c == centre) && c - {r.task} == centre - {r.task}
  {
  }

  /** A post completes its intent exactly when it is answered, and not with a refusal; nothing else is completed. */
  lemma PostCompletesIff(w: World, task: Uuid, i: nat, reached: bool, answered: bool, execKnown: bool)
    requires Enabled(w, Post(task, i, reached, answered, execKnown))
    ensures var v, r := PostStep(w, task, i, reached, answered, execKnown), w.queues[task][i].report;
            && task in v.queues && |v.queues[task]| == |w.queues[task]| && v.queues[task][i].report == r
            && (v.queues[task][i].done <==> reached && answered && !Take(w.centre, r, execKnown).1.Refused?)
            && (forall j :: 0 <= j < |w.queues[task]| && j != i ==> v.queues[task][j] == w.queues[task][j])
            && v.queues - {task} == w.queues - {task} && v.tasks == w.tasks
            && v.centre == if reached then Take(w.centre, r, execKnown).0 else w.centre
  {
  }

  /** A change of state is reported, with the state the task then has; nothing else is. */
  lemma DriveReportsIff(w: World, task: Uuid, e: L.Event, select: Option<(Uuid, OfferBody)>, p: Params)
    requires task in w.tasks && task in w.queues
    ensures var v := DriveStep(w, task, e, select, p);
            var u := RunEvent(w.tasks[task], e, select, p);
            && task in v.tasks && v.tasks[task] == u && v.tasks - {task} == w.tasks - {task}
            && (u.rec.state != w.tasks[task].rec.state ==>
                  v.queues == w.queues[task := w.queues[task] + [Intent(ReportOf(u), false)]])
            && (u.rec.state == w.tasks[task].rec.state ==> v.queues == w.queues)
  {
  }

  function Pending(q: seq<Intent>): nat {
    if q == [] then 0 else Pending(q[..|q| - 1]) + if q[|q| - 1].done then 0 else 1
  }

  lemma {:induction false} MarkOne(q: seq<Intent>, i: nat)
    requires i < |q| && !q[i].done
    ensures Pending(q[i := Intent(q[i].report, true)]) == Pending(q) - 1
    decreases |q|
  {
    var u := q[i := Intent(q[i].report, true)];
    if i == |q| - 1 {
      assert u[..|q| - 1] == q[..|q| - 1];
    } else {
      assert u[..|q| - 1] == q[..|q| - 1][i := Intent(q[i].report, true)];
      MarkOne(q[..|q| - 1], i);
    }
  }

  function FirstPending(q: seq<Intent>): (i: nat)
    ensures i <= |q| && (i < |q| ==> !q[i].done) && forall j :: 0 <= j < i ==> q[j].done
  {
    if q == [] then 0
    else
      var front := q[..|q| - 1];
      var i := FirstPending(front);
      assert forall j :: 0 <= j < |front| ==> q[j] == front[j];
      if i < |front| then i else if q[|q| - 1].done then |q| else |front|
  }

  predicate Drained(w: World, task: Uuid) {
    task in w.queues && forall j :: 0 <= j < |w.queues[task]| ==> w.queues[task][j].done
  }

  /** One answered post of the first pending intent brings the queue nearer to its end. */
  lemma PostOne(w: World, task: Uuid, p: Params)
    requires task in w.queues && FirstPending(w.queues[task]) < |w.queues[task]|
    ensures var e := Post(task, FirstPending(w.queues[task]), true, true, true);
            Enabled(w, e) && (var v := Apply(w, e, p);
                              task in v.queues && v.tasks == w.tasks &&
                                  Pending(v.queues[task]) == Pending(w.queues[task]) - 1)
  {
    var i := FirstPending(w.queues[task]);
    PostCompletesIff(w, task, i, true, true, true);
    MarkOne(w.queues[task], i);
  }

  lemma {:induction false} Extended(ws: seq<World>, es: seq<Event>, e: Event, v: World, p: Params)
    requires Execution(ws, es, p) && Follows(ws[|es|], e, v, p)
    ensures Execution(ws + [v], es + [e], p)
  {
    var us, fs := ws + [v], es + [e];
    forall i | 0 <= i < |fs| ensures Follows(us[i], fs[i], us[i + 1], p) {
      if i < |es| {
        assert Follows(ws[i], es[i], ws[i + 1], p);
      }
    }
  }

  lemma {:induction false} DrainFrom(ws: seq<World>, es: seq<Event>, p: Params, task: Uuid)
    returns (us: seq<World>, fs: seq<Event>)
    requires Execution(ws, es, p) && task in ws[|es|].queues
    ensures Execution(us, fs, p) && |es| <= |fs| && us[..|ws|] == ws && fs[..|es|] == es
    ensures Drained(us[|fs|], task) && us[|fs|].tasks == ws[|es|].tasks
    decreases Pending(ws[|es|].queues[task])
  {
    var w := ws[|es|];
    var i := FirstPending(w.queues[task]);
    if i == |w.queues[task]| {
      us, fs := ws, es;
    } else {
      var e := Post(task, i, true, true, true);
      PostOne(w, task, p);
      Extended(ws, es, e, Apply(w, e, p), p);
      us, fs := DrainFrom(ws + [Apply(w, e, p)], es + [e], p, task);
      assert us[..|ws|] == us[..|ws| + 1][..|ws|] && fs[..|es|] == fs[..|es| + 1][..|es|];
    }
  }

  /**
   * No report is ever stuck: from every reachable state, whatever was lost so far, the pending posts of a task can all
   * be completed in order, and the centre then shows the task as it is.
   */
  lemma DrainPossible(ws: seq<World>, es: seq<Event>, p: Params, task: Uuid) returns (us: seq<World>, fs: seq<Event>)
    requires Execution(ws, es, p) && task in ws[|es|].tasks && task in ws[|es|].queues && ws[|es|].queues[task] != []
    ensures Execution(us, fs, p) && |es| <= |fs| && us[..|ws|] == ws && fs[..|es|] == es
    ensures var v := us[|fs|]; var t := ws[|es|].tasks[task];
            && Drained(v, task) && v.tasks == ws[|es|].tasks
            && task in v.centre && v.centre[task].taskSeq == t.taskSeq && v.centre[task].status == t.rec.state
  {
    us, fs := DrainFrom(ws, es, p, task);
    ReportsAreTheHistory(us, fs, p, |fs|, task);
    ReportsAreTheHistory(ws, es, p, |es|, task);
    DrainedMeansCurrent(us, fs, p, |fs|, task);
  }
}
