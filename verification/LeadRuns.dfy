/** Whole runs of one lead task: budgets, cancel before redispatch, absorbing ends. */
module LeadRuns {
  import opened Core
  import opened Wire
  import opened Lease
  import opened LeadMachine

  /** What a run shows the outside of the attempts: offers and cancels sent, rejections received. */
  datatype Item =
    | OfferSent(attempt: int, target: Uuid)
    | CancelSent(attempt: int, target: Uuid)
    | RejectReceived(attempt: int, target: Uuid)

  function Shown(a: Action): seq<Item> {
    if a.Send? && a.msg.attempt.Some? && a.msg.body.Offer? then [OfferSent(a.msg.attempt.value, a.msg.to)]
    else if a.Send? && a.msg.attempt.Some? && a.msg.body.Cancel? then [CancelSent(a.msg.attempt.value, a.msg.to)]
    else []
  }

  function SentItems(actions: seq<Action>): seq<Item> {
    if actions == [] then [] else Shown(actions[0]) + SentItems(actions[1..])
  }

  /** A rejection the machine acts on: of the open offer, by its target, at its attempt. */
  predicate RejectsOffer(r: Record, e: Event) {
    e.Message? && e.body.Reject? && r.state.Offered? && r.target == Some(e.from) && e.attempt == r.attempt
  }

  function Items(r: Record, e: Event, p: Params): seq<Item> {
    (if RejectsOffer(r, e) then [RejectReceived(e.attempt, e.from)] else []) + SentItems(Apply(r, e, p).actions)
  }

  /** dispatchTo is the first dispatch only; redispatchTo may be used at any time, also for the first offer. */
  predicate Allowed(r: Record, e: Event) {
    e.Dispatch? ==> r.attempt == 0
  }

  /** A run: the records it passes through and everything it shows. */
  function Play(r: Record, es: seq<Event>, p: Params): Record {
    if es == [] then r else Apply(Play(r, es[..|es| - 1], p), es[|es| - 1], p).rec
  }

  function Log(r: Record, es: seq<Event>, p: Params): seq<Item> {
    if es == [] then []
    else Log(r, es[..|es| - 1], p) + Items(Play(r, es[..|es| - 1], p), es[|es| - 1], p)
  }

  ghost predicate Disciplined(r: Record, es: seq<Event>, p: Params) {
    forall k :: 0 <= k < |es| ==> Allowed(Play(r, es[..k], p), es[k])
  }

  function Offers(log: seq<Item>): nat {
    if log == [] then 0 else Offers(log[..|log| - 1]) + (if log[|log| - 1].OfferSent? then 1 else 0)
  }

  /** The latest offer of a log, and whether it was rejected or cancelled since. */
  datatype Open = NoOffer | Latest(attempt: int, target: Uuid, closed: bool)

  function Follow(o: Open, item: Item): Open {
    match item
    case OfferSent(a, t) => Latest(a, t, false)
    case CancelSent(a, t) => if o.Latest? && o.attempt == a && o.target == t then o.(closed := true) else o
    case RejectReceived(a, t) => if o.Latest? && o.attempt == a && o.target == t then o.(closed := true) else o
  }

  function Summary(log: seq<Item>): Open {
    if log == [] then NoOffer else Follow(Summary(log[..|log| - 1]), log[|log| - 1])
  }

  /** An offer may follow only a closed one, and then carries the next attempt. */
  predicate MayFollow(o: Open, item: Item) {
    item.OfferSent? ==> if o.NoOffer? then item.attempt == 1 else o.closed && item.attempt == o.attempt + 1
  }

  ghost predicate CancelFirst(log: seq<Item>) {
    forall j :: 0 <= j < |log| ==> MayFollow(Summary(log[..j]), log[j])
  }

  // ---- The invariant of a run ----

  /** The open offer as the record sees it. */
  predicate Tracks(r: Record, o: Open) {
    if r.attempt == 0 then o.NoOffer? && r.target.None? && (r.state.Drafting? || r.state.Cancelling? || r.state.Closed?)
    else
      && o.Latest? && o.attempt == r.attempt && r.target == Some(o.target)
      && (r.state.Drafting? || r.state.Reclaiming? ==> o.closed)
  }

  /** Every charge of a budget ends one attempt; the attempt in flight is not charged yet. */
  predicate Accounted(r: Record) {
    && r.failedBudget >= 0 && r.dispatchRounds >= 0
    && (r.state.Drafting? || r.state.Escalated? ==> r.attempt == r.failedBudget + r.dispatchRounds)
    && (r.state.Offered? || r.state.Running? || r.state.Reclaiming? ==>
          r.attempt == r.failedBudget + r.dispatchRounds + 1)
    && 0 <= r.attempt - (r.failedBudget + r.dispatchRounds) <= 1
  }

  predicate WithinBudget(r: Record, p: Params) {
    !r.state.Escalated? ==> r.failedBudget < p.maxAttempts && r.dispatchRounds < p.maxDispatchRounds
  }

  predicate BudgetBound(r: Record, p: Params) {
    r.failedBudget <= p.maxAttempts && r.dispatchRounds <= p.maxDispatchRounds &&
    (r.failedBudget < p.maxAttempts || r.dispatchRounds < p.maxDispatchRounds)
  }

  predicate RunInv(r: Record, p: Params) {
    && Accounted(r) && WithinBudget(r, p) && BudgetBound(r, p)
    && (r.attempt == 0 ==> r.target.None? && (r.state.Drafting? || r.state.Cancelling? || r.state.Closed?))
    && (r.attempt != 0 ==> r.target.Some?)
    && !(r.state.Reclaiming? && r.drainClosed)
  }

  /** An attempt is in flight: offered, running or being reclaimed. */
  predicate InFlight(r: Record, p: Params) {
    && r.attempt == r.failedBudget + r.dispatchRounds + 1 && r.failedBudget >= 0 && r.dispatchRounds >= 0
    && r.failedBudget < p.maxAttempts && r.dispatchRounds < p.maxDispatchRounds && r.target.Some?
  }

  lemma BudgetKeeps(r: Record, p: Params, accepted: bool)
    requires InFlight(r, p)
    ensures RunInv(BudgetOrEscalate(r, p, accepted).rec, p)
  {
  }

  lemma OfferedKeeps(r: Record, from: Uuid, b: Body, now: int, p: Params)
    requires RunInv(r, p) && r.state.Offered?
    ensures RunInv(OnOffered(r, from, b, now, p).rec, p)
  {
    if b.Reject? {
      BudgetKeeps(Exclude(Note(r, Some(from), HRejected(b.code)), b.code), p, false);
    }
  }

  lemma RunningKeeps(r: Record, from: Uuid, b: Body, now: int, msgId: Option<Uuid>, accepts: bool, p: Params)
    requires RunInv(r, p) && r.state.Running?
    ensures RunInv(OnRunning(r, from, b, now, msgId, accepts, p).rec, p)
  {
  }

  lemma ReclaimingKeeps(r: Record, b: Body, accepts: bool, p: Params)
    requires RunInv(r, p) && r.state.Reclaiming?
    ensures RunInv(OnReclaiming(r, b, accepts, p).rec, p)
  {
    BudgetKeeps(r.(drainClosed := true), p, r.accepted);
  }

  lemma TimerKeeps(r: Record, timer: TimerName, now: int, p: Params)
    requires RunInv(r, p)
    ensures RunInv(OnTimer(r, timer, now, p).rec, p)
  {
    if r.state.Reclaiming? {
      BudgetKeeps(r.(drainClosed := true), p, r.accepted);
    }
  }

  lemma CommandKeeps(r: Record, e: Event, p: Params)
    requires RunInv(r, p) && Allowed(r, e) && !e.Message? && !e.Timer?
    ensures RunInv(Apply(r, e, p).rec, p)
  {
  }

  lemma StepKeepsRunInv(r: Record, e: Event, p: Params)
    requires RunInv(r, p) && Allowed(r, e)
    ensures RunInv(Apply(r, e, p).rec, p)
  {
    match e
    case Message(from, attempt, b, now, msgId, accepts) =>
      if !IsTerminal(r.state) && Some(from) == r.target && attempt == r.attempt {
        match r.state
        case Offered => OfferedKeeps(r, from, b, now, p);
        case Running => RunningKeeps(r, from, b, now, msgId, accepts, p);
        case Reclaiming => ReclaimingKeeps(r, b, accepts, p);
        case _ =>
      }
    case Timer(timer, now) => TimerKeeps(r, timer, now, p);
    case _ => CommandKeeps(r, e, p);
  }

  // ---- What each event shows ----

  lemma Reassociate(x: seq<Item>, y: seq<Item>, z: seq<Item>)
    ensures x + (y + z) == x + y + z
  {
  }

  lemma {:induction false} SentConcat(a: seq<Action>, b: seq<Action>)
    ensures SentItems(a + b) == SentItems(a) + SentItems(b)
  {
    if a == [] {
      assert a + b == b;
    } else {
      SentConcat(a[1..], b);
      assert (a + b)[1..] == a[1..] + b && (a + b)[0] == a[0];
      Reassociate(Shown(a[0]), SentItems(a[1..]), SentItems(b));
    }
  }

  lemma SentOne(a: Action)
    ensures SentItems([a]) == Shown(a)
  {
    assert SentItems([a][1..]) == [];
  }

  lemma {:induction false} SilentSends(actions: seq<Action>)
    requires forall i :: 0 <= i < |actions| && actions[i].Send? ==>
               !actions[i].msg.body.Offer? && !actions[i].msg.body.Cancel?
    ensures SentItems(actions) == []
  {
    if actions != [] {
      SilentSends(actions[1..]);
    }
  }

  lemma OfferShows(r: Record, attempt: int, target: Uuid, offer: OfferBody, now: int, p: Params)
    ensures SentItems(OfferAttempt(r, attempt, target, offer, now, p).actions) == [OfferSent(attempt, target)]
  {
    var s := OfferAttempt(r, attempt, target, offer, now, p).actions;
    SentOne(s[0]);
    SentOne(s[1]);
    SentOne(s[2]);
    SentConcat([s[0]], [s[1]]);
    SentConcat([s[0], s[1]], [s[2]]);
    assert s == [s[0], s[1]] + [s[2]] && [s[0], s[1]] == [s[0]] + [s[1]];
  }

  lemma CancelShows(r: Record, head: Action, a: Action, tail: seq<Action>)
    requires head.CancelTimers? && a.Send? && a.msg.body.Cancel? && a.msg.attempt == Some(r.attempt)
    requires forall i :: 0 <= i < |tail| ==> !tail[i].Send?
    ensures SentItems([head] + [a] + tail) == [CancelSent(r.attempt, a.msg.to)]
  {
    SentOne(head);
    SentOne(a);
    SilentSends(tail);
    SentConcat([head], [a]);
    SentConcat([head] + [a], tail);
  }

  lemma ReclaimShows(r: Record, reason: CancelReason, now: int, p: Params)
    requires r.target.Some?
    ensures SentItems(BeginReclaim(r, reason, now, p).actions) == [CancelSent(r.attempt, r.target.value)]
    ensures SentItems([Audit(ReclaimAudit)] + BeginReclaim(r, reason, now, p).actions) ==
            [CancelSent(r.attempt, r.target.value)]
  {
    var s := BeginReclaim(r, reason, now, p).actions;
    assert s == [s[0]] + [s[1]] + [s[2], s[3]];
    CancelShows(r, s[0], s[1], [s[2], s[3]]);
    SentOne(Audit(ReclaimAudit));
    SentConcat([Audit(ReclaimAudit)], s);
  }

  /** The ways an event can show: nothing, one offer, one cancel, or one rejection. */
  predicate Shows(r: Record, next: Record, items: seq<Item>) {
    || (items == [] && next.attempt == r.attempt && next.target == r.target
        && (next.state.Drafting? || next.state.Reclaiming? ==> r.state.Drafting? || r.state.Reclaiming?))
    || (|items| == 1 && items[0].OfferSent? && r.state.Drafting? && next.target == Some(items[0].target)
        && next.attempt == items[0].attempt == r.attempt + 1 && next.state.Offered?)
    || (|items| == 1 && !items[0].OfferSent? && items[0].attempt == r.attempt == next.attempt
        && r.target == next.target == Some(items[0].target) && r.attempt != 0)
  }

  lemma OfferedShows(r: Record, from: Uuid, b: Body, now: int, p: Params)
    requires RunInv(r, p) && r.state.Offered? && r.target == Some(from)
    ensures var s := OnOffered(r, from, b, now, p);
            Shows(r, s.rec, (if b.Reject? then [RejectReceived(r.attempt, from)] else []) + SentItems(s.actions))
  {
    SilentSends(OnOffered(r, from, b, now, p).actions);
  }

  lemma RunningShows(r: Record, from: Uuid, b: Body, now: int, msgId: Option<Uuid>, accepts: bool, p: Params)
    requires RunInv(r, p) && r.state.Running?
    ensures var s := OnRunning(r, from, b, now, msgId, accepts, p); Shows(r, s.rec, SentItems(s.actions))
  {
    if b.Delivery? && !accepts {
      ReclaimShows(Note(r.(resultBody := Some(b.outcome)), Some(from), HAcceptanceFailed), AcceptanceFailed, now, p);
    } else if b.Fail? && b.retryable {
      ReclaimShows(Note(r, Some(from), HFailRetryable), ReclaimCancel, now, p);
    } else {
      SilentSends(OnRunning(r, from, b, now, msgId, accepts, p).actions);
    }
  }

  lemma ClosingShows(r: Record, b: Body, accepts: bool, p: Params)
    requires RunInv(r, p)
    ensures var s := OnReclaiming(r, b, accepts, p); r.state.Reclaiming? ==> Shows(r, s.rec, SentItems(s.actions))
    ensures var s := OnCancelling(r, b, accepts); r.state.Cancelling? ==> Shows(r, s.rec, SentItems(s.actions))
  {
    SilentSends(OnReclaiming(r, b, accepts, p).actions);
    SilentSends(OnCancelling(r, b, accepts).actions);
  }

  lemma MessageShows(r: Record, e: Event, p: Params)
    requires RunInv(r, p) && e.Message?
    ensures Shows(r, Apply(r, e, p).rec, Items(r, e, p))
  {
    if IsTerminal(r.state) || Some(e.from) != r.target || e.attempt != r.attempt || r.state.Drafting? {
      SilentSends(Apply(r, e, p).actions);
    } else if r.state.Offered? {
      OfferedShows(r, e.from, e.body, e.now, p);
    } else if r.state.Running? {
      RunningShows(r, e.from, e.body, e.now, e.msgId, e.accepts, p);
    } else {
      ClosingShows(r, e.body, e.accepts, p);
    }
  }

  lemma TimerShows(r: Record, timer: TimerName, now: int, p: Params)
    requires RunInv(r, p)
    ensures var s := OnTimer(r, timer, now, p); Shows(r, s.rec, SentItems(s.actions))
  {
    var s := OnTimer(r, timer, now, p);
    if timer.OfferTtlTimer? && r.state.Offered? {
      ReclaimShows(ExcludeTarget(Note(r, r.target, HExpired)), ReclaimCancel, now, p);
    } else if timer.LeaseTimer? && r.state.Running? && !(r.leaseDeadline.Some? && now < r.leaseDeadline.value) {
      ReclaimShows(ExcludeTarget(Note(r, r.target, HLost)), ReclaimCancel, now, p);
    } else {
      SilentSends(s.actions);
    }
  }

  lemma CancelByUserShows(r: Record, now: int, p: Params)
    requires RunInv(r, p)
    ensures var s := CancelByUser(r, now, p); Shows(r, s.rec, SentItems(s.actions))
  {
    var s := CancelByUser(r, now, p);
    if s.actions != [] && r.target.Some? {
      assert s.actions == [s.actions[0]] + [s.actions[1]] + [s.actions[2]];
      CancelShows(r, s.actions[0], s.actions[1], [s.actions[2]]);
    } else {
      SilentSends(s.actions);
    }
  }

  lemma CommandShows(r: Record, e: Event, p: Params)
    requires RunInv(r, p) && Allowed(r, e) && (e.Dispatch? || e.Redispatch? || e.OwnerRedispatches?)
    ensures Shows(r, Apply(r, e, p).rec, Items(r, e, p))
  {
    var s := Apply(r, e, p);
    match e
    case Dispatch(target, offer, now) =>
      OfferShows(r, 1, target, offer, now, p);
    case Redispatch(target, offer, now) =>
      OfferShows(r, r.attempt + 1, target, offer, now, p);
    case OwnerRedispatches(now) =>
      if r.state.Offered? || r.state.Running? {
        ReclaimShows(Note(ExcludeTarget(r), r.target, HOwnerRedispatch), ReclaimCancel, now, p);
      } else {
        SilentSends(s.actions);
      }
  }

  lemma StepShows(r: Record, e: Event, p: Params)
    requires RunInv(r, p) && Allowed(r, e)
    ensures Shows(r, Apply(r, e, p).rec, Items(r, e, p))
  {
    match e
    case Message(_, _, _, _, _, _) => MessageShows(r, e, p);
    case Timer(timer, now) => TimerShows(r, timer, now, p);
    case UserCancels(now) => CancelByUserShows(r, now, p);
    case _ => CommandShows(r, e, p);
  }

  // ---- Theorems ----

  lemma SummaryAppend(log: seq<Item>, items: seq<Item>)
    requires |items| <= 1
    ensures items == [] ==> Summary(log + items) == Summary(log) && Offers(log + items) == Offers(log)
    ensures items != [] ==> Summary(log + items) == Follow(Summary(log), items[0])
    ensures items != [] ==> Offers(log + items) == Offers(log) + if items[0].OfferSent? then 1 else 0
  {
    if items == [] {
      assert log + items == log;
    } else {
      assert (log + items)[..|log + items| - 1] == log;
    }
  }

  lemma CancelFirstAppend(log: seq<Item>, items: seq<Item>)
    requires CancelFirst(log) && |items| <= 1 && (items != [] ==> MayFollow(Summary(log), items[0]))
    ensures CancelFirst(log + items)
  {
    forall j | 0 <= j < |log + items| ensures MayFollow(Summary((log + items)[..j]), (log + items)[j]) {
      if j < |log| {
        assert (log + items)[..j] == log[..j];
      } else {
        assert (log + items)[..j] == log;
      }
    }
  }

  /** The record and the log of any disciplined run agree, and its offers are ordered and counted. */
  lemma {:induction false} RunTracks(task: Uuid, kind: Kind, es: seq<Event>, p: Params)
    requires p.maxAttempts >= 1 && p.maxDispatchRounds >= 1 && Disciplined(Fresh(task, kind, p), es, p)
    ensures var r, log := Play(Fresh(task, kind, p), es, p), Log(Fresh(task, kind, p), es, p);
            RunInv(r, p) && Tracks(r, Summary(log)) && CancelFirst(log) && Offers(log) == r.attempt
  {
    var r0 := Fresh(task, kind, p);
    if es != [] {
      var before, e := es[..|es| - 1], es[|es| - 1];
      DisciplinedPrefix(r0, es, p);
      RunTracks(task, kind, before, p);
      var r, log := Play(r0, before, p), Log(r0, before, p);
      assert Allowed(r, e);
      StepKeepsRunInv(r, e, p);
      StepShows(r, e, p);
      SummaryAppend(log, Items(r, e, p));
      CancelFirstAppend(log, Items(r, e, p));
    }
  }

  /** A task makes at most maxAttempts + maxDispatchRounds - 1 offers, whatever its peers do. */
  lemma OffersBounded(task: Uuid, kind: Kind, es: seq<Event>, p: Params)
    requires p.maxAttempts >= 1 && p.maxDispatchRounds >= 1 && Disciplined(Fresh(task, kind, p), es, p)
    ensures Offers(Log(Fresh(task, kind, p), es, p)) <= p.maxAttempts + p.maxDispatchRounds - 1
  {
    RunTracks(task, kind, es, p);
  }

  /**
   * Cancel before redispatch: between two successive offers of a run the lead received a rejection of the
   * first from its target, or sent that target a cancel at the first offer's attempt.
   */
  lemma CancelBeforeRedispatch(task: Uuid, kind: Kind, es: seq<Event>, p: Params, log: seq<Item>, j: nat)
    returns (i: nat, k: nat)
    requires p.maxAttempts >= 1 && p.maxDispatchRounds >= 1 && Disciplined(Fresh(task, kind, p), es, p)
    requires log == Log(Fresh(task, kind, p), es, p)
    requires j < |log| && log[j].OfferSent? && log[j].attempt != 1
    ensures i < k < j && log[i].OfferSent? && log[i].attempt == log[j].attempt - 1
    ensures log[k] == CancelSent(log[i].attempt, log[i].target) ||
            log[k] == RejectReceived(log[i].attempt, log[i].target)
    ensures forall m :: i < m < j ==> !log[m].OfferSent?
  {
    RunTracks(task, kind, es, p);
    i, k := Justified(log, j);
  }

  lemma Justified(log: seq<Item>, j: nat) returns (i: nat, k: nat)
    requires CancelFirst(log) && j < |log| && log[j].OfferSent? && log[j].attempt != 1
    ensures i < k < j && log[i].OfferSent? && log[i].attempt == log[j].attempt - 1
    ensures log[k] == CancelSent(log[i].attempt, log[i].target) ||
            log[k] == RejectReceived(log[i].attempt, log[i].target)
    ensures forall m :: i < m < j ==> !log[m].OfferSent?
  {
    var before := log[..j];
    assert MayFollow(Summary(before), log[j]);
    i, k := WhoClosed(before);
    assert log[i] == before[i] && log[k] == before[k];
    forall m | i < m < j ensures !log[m].OfferSent? {
      assert log[m] == before[m];
    }
  }

  /** The offer a closed summary speaks of, and the item that closed it. */
  lemma {:induction false} WhoClosed(log: seq<Item>) returns (i: nat, k: nat)
    requires Summary(log).Latest? && Summary(log).closed
    ensures var o := Summary(log);
            && i < k < |log| && log[i] == OfferSent(o.attempt, o.target)
            && (log[k] == CancelSent(o.attempt, o.target) || log[k] == RejectReceived(o.attempt, o.target))
            && forall m :: i < m < |log| ==> !log[m].OfferSent?
  {
    var before, item := log[..|log| - 1], log[|log| - 1];
    var o := Summary(before);
    if o.Latest? && o.closed {
      i, k := WhoClosed(before);
    } else {
      i := WhoOffered(before);
      k := |log| - 1;
    }
  }

  lemma {:induction false} WhoOffered(log: seq<Item>) returns (i: nat)
    requires Summary(log).Latest?
    ensures i < |log| && log[i] == OfferSent(Summary(log).attempt, Summary(log).target)
    ensures forall m :: i < m < |log| ==> !log[m].OfferSent?
  {
    if log[|log| - 1].OfferSent? {
      i := |log| - 1;
    } else {
      i := WhoOffered(log[..|log| - 1]);
    }
  }

  lemma EndedAnswersNothing(r: Record, e: Event, p: Params)
    requires IsTerminal(r.state)
    ensures Apply(r, e, p) == Nothing(r) && Items(r, e, p) == []
  {
  }

  /** Ends are absorbing: however a run goes on after one, the record stays and nothing more is sent. */
  lemma {:induction false} TerminalAbsorbs(r: Record, es: seq<Event>, p: Params)
    requires IsTerminal(r.state)
    ensures Play(r, es, p) == r && Log(r, es, p) == []
    decreases |es|
  {
    if es != [] {
      TerminalAbsorbs(r, es[..|es| - 1], p);
      EndedAnswersNothing(r, es[|es| - 1], p);
    }
  }

  /** Done means: a result from the current target, at the current attempt, that passed acceptance. */
  lemma DoneNeedsAcceptedResult(r: Record, e: Event, p: Params)
    requires !r.state.Done? && Apply(r, e, p).rec.state.Done?
    ensures e.Message? && e.body.Delivery? && e.accepts
    ensures r.target == Some(e.from) && e.attempt == r.attempt
    ensures r.state.Running? || r.state.Cancelling? || (r.state.Reclaiming? && !r.drainClosed)
    ensures Apply(r, e, p).rec.resultBody == Some(e.body.outcome)
  {
  }

  /** Using dispatchTo again keeps the accounting only before the first attempt: it restarts at attempt 1. */
  lemma DispatchKeepsAccountingIff(r: Record, target: Uuid, offer: OfferBody, now: int, p: Params)
    requires RunInv(r, p) && r.state.Drafting? && !offer.contract.BadContract?
    ensures Accounted(DispatchTo(r, target, offer, now, p).rec) <==> r.attempt == 0
  {
  }

  // ---- Silent peers ----

  /** Nobody answers: only dispatches happen and timers fire, whichever and whenever. */
  predicate Silent(es: seq<Event>) {
    forall k :: 0 <= k < |es| ==> es[k].Dispatch? || es[k].Redispatch? || es[k].Timer?
  }

  /** Nobody ever accepted, so every charge is a dispatch round. */
  predicate Unanswered(r: Record, p: Params) {
    && r.failedBudget == 0 && !r.accepted
    && (r.state.Drafting? || r.state.Offered? || r.state.Reclaiming? || r.state.Escalated?)
    && (r.state.Escalated? ==> r.dispatchRounds == p.maxDispatchRounds)
  }

  /** Steps taken towards escalation: three in each round of offer, expiry and drain. */
  function Progress(r: Record): int {
    3 * r.dispatchRounds + if r.state.Offered? then 1 else if r.state.Reclaiming? then 2 else 0
  }

  /** How many events of a run changed the record. */
  function Effects(r: Record, es: seq<Event>, p: Params): nat {
    if es == [] then 0
    else
      var before := es[..|es| - 1];
      Effects(r, before, p) + if Play(r, es, p) != Play(r, before, p) then 1 else 0
  }

  lemma SilentStep(r: Record, e: Event, p: Params)
    requires RunInv(r, p) && Unanswered(r, p) && Allowed(r, e) && (e.Dispatch? || e.Redispatch? || e.Timer?)
    ensures var next := Apply(r, e, p).rec;
            Unanswered(next, p) && Progress(next) == Progress(r) + if next != r then 1 else 0
  {
  }

  /**
   * With silent peers, whatever targets, offers and times are used and in whatever order timers and dispatches
   * come: the run can end only by escalating, it escalates exactly when 3 * maxDispatchRounds of its events took
   * effect, and it has then made exactly maxDispatchRounds offers (never more before).
   */
  lemma {:induction false} SilentPeersEscalate(task: Uuid, kind: Kind, es: seq<Event>, p: Params)
    requires p.maxAttempts >= 1 && p.maxDispatchRounds >= 1 && Disciplined(Fresh(task, kind, p), es, p) && Silent(es)
    ensures var r0 := Fresh(task, kind, p);
            var r := Play(r0, es, p);
            && Unanswered(r, p) && (IsTerminal(r.state) ==> r.state.Escalated?)
            && Progress(r) == Effects(r0, es, p) <= 3 * p.maxDispatchRounds
            && (r.state.Escalated? <==> Effects(r0, es, p) == 3 * p.maxDispatchRounds)
            && Offers(Log(r0, es, p)) <= p.maxDispatchRounds
            && (r.state.Escalated? ==> Offers(Log(r0, es, p)) == p.maxDispatchRounds)
  {
    var r0 := Fresh(task, kind, p);
    RunTracks(task, kind, es, p);
    if es != [] {
      var before := es[..|es| - 1];
      DisciplinedPrefix(r0, es, p);
      SilentPeersEscalate(task, kind, before, p);
      RunTracks(task, kind, before, p);
      assert es[..|es| - 1] == before && Allowed(Play(r0, es[..|es| - 1], p), es[|es| - 1]);
      SilentStep(Play(r0, before, p), es[|es| - 1], p);
    }
  }

  lemma DisciplinedPrefix(r: Record, es: seq<Event>, p: Params)
    requires es != [] && Disciplined(r, es, p)
    ensures Disciplined(r, es[..|es| - 1], p)
  {
    var before := es[..|es| - 1];
    forall k | 0 <= k < |before| ensures Allowed(Play(r, before[..k], p), before[k]) {
      assert before[..k] == es[..k];
    }
  }

  /** One round with nobody answering: a target and an offer of its own, and the times of its three events. */
  datatype Round = Round(target: Uuid, offer: OfferBody, offeredAt: int, expiredAt: int, drainedAt: int)

  function Steps(rounds: seq<Round>): seq<Event> {
    if rounds == [] then []
    else
      var last := rounds[|rounds| - 1];
      Steps(rounds[..|rounds| - 1]) + [Redispatch(last.target, last.offer, last.offeredAt)]
      + [Timer(OfferTtlTimer, last.expiredAt)] + [Timer(DrainTimer, last.drainedAt)]
  }

  lemma PlaySnoc(r: Record, es: seq<Event>, e: Event, p: Params)
    ensures Play(r, es + [e], p) == Apply(Play(r, es, p), e, p).rec
  {
    assert (es + [e])[..|es|] == es;
  }

  /** What one unanswered round does to a task that waits for a target. */
  lemma SilentRound(r: Record, a: Round, p: Params)
    requires r.state.Drafting? && r.failedBudget == 0 && r.failedBudget < p.maxAttempts &&
             !a.offer.contract.BadContract?
    requires r.dispatchRounds < p.maxDispatchRounds
    ensures var r1 := Apply(r, Redispatch(a.target, a.offer, a.offeredAt), p).rec;
            var r2 := Apply(r1, Timer(OfferTtlTimer, a.expiredAt), p).rec;
            var r3 := Apply(r2, Timer(DrainTimer, a.drainedAt), p).rec;
            && r3.attempt == r.attempt + 1 && r3.dispatchRounds == r.dispatchRounds + 1
            && r3.failedBudget == 0 && !r3.accepted && r3.target == Some(a.target)
            && r3.state == if r3.dispatchRounds == p.maxDispatchRounds then Escalated else Drafting
  {
  }

  /** With a target always at hand it does escalate: after each round it waits for the next, and ends with the last. */
  lemma {:induction false} SilentRoundsEscalate(task: Uuid, kind: Kind, rounds: seq<Round>, p: Params)
    requires p.maxAttempts >= 1 && |rounds| <= p.maxDispatchRounds && p.maxDispatchRounds >= 1
    requires forall k :: 0 <= k < |rounds| ==> !rounds[k].offer.contract.BadContract?
    ensures var r := Play(Fresh(task, kind, p), Steps(rounds), p);
            && r.attempt == r.dispatchRounds == |rounds| && r.failedBudget == 0 && !r.accepted
            && (r.state.Escalated? <==> |rounds| == p.maxDispatchRounds) && (!r.state.Escalated? ==> r.state.Drafting?)
            && (rounds != [] ==> r.target == Some(rounds[|rounds| - 1].target))
    decreases |rounds|
  {
    if rounds != [] {
      var front, last := rounds[..|rounds| - 1], rounds[|rounds| - 1];
      SilentRoundsEscalate(task, kind, front, p);
      var r0, offer := Fresh(task, kind, p), Redispatch(last.target, last.offer, last.offeredAt);
      SilentRound(Play(r0, Steps(front), p), last, p);
      PlaySnoc(r0, Steps(front), offer, p);
      PlaySnoc(r0, Steps(front) + [offer], Timer(OfferTtlTimer, last.expiredAt), p);
      PlaySnoc(r0, Steps(front) + [offer] + [Timer(OfferTtlTimer, last.expiredAt)], Timer(DrainTimer, last.drainedAt),
          p);
    }
  }
}
