/**
 Orders placed with a client_order_id (mt5api/handlers/orders.py) over the session
 protocol: a retry never places the same id twice within the lookback window.
 */
module ClientOrders {
  import opened Options
  import opened Mt5Session

  // No order with this id is pending.
  ghost predicate NotPending(s: State, id: string) {
    forall i :: 0 <= i < |s.orders| && s.orders[i].comment == id ==> !s.orders[i].pending
  }

  // Every order with this id is out of the pending list and older than the lookback window.
  ghost predicate Cleared(s: State, id: string, since: nat) {
    forall i :: 0 <= i < |s.orders| && s.orders[i].comment == id ==>
      !s.orders[i].pending && s.orders[i].time + s.skew < since - LOOKBACK
  }

  // Every order with this id whose acceptance this process saw is older than the window.
  ghost predicate AckedOld(s: State, id: string, since: nat) {
    forall i :: 0 <= i < |s.orders| && s.orders[i].comment == id && s.orders[i].acked ==>
      s.orders[i].time + LOOKBACK < since
  }

  ghost predicate TaskInv(s: State, task: Task) {
    task.Create? ==>
      match task.at
      case Look(source, from) =>
        && from <= s.now <= from + FIND_SECONDS
        && AckedOld(s, task.id, from)
        && (task.id !in s.blind && !source.PendingOrders? ==> NotPending(s, task.id))
      case Clear(since) =>
        since <= s.now && AckedOld(s, task.id, since) && (task.id !in s.blind ==> Cleared(s, task.id, since))
      case _ => true
  }

  // What a lookup that answered "not there" has established.
  ghost predicate AnswerInv(s: State, w: Worker) {
    w.call.Lookup? && w.state == Returned(Got(false)) && w.call.id !in s.blind ==>
      match w.call.source
      case PendingOrders => NotPending(s, w.call.id)
      case OpenPositions => true
      case OrderHistory => Cleared(s, w.call.id, w.call.from)
  }

  ghost predicate PhaseInv(s: State, p: Phase) {
    match p
    case Ready(task) => TaskInv(s, task)
    case Calling(task, key) =>
      && key in s.workers
      && (!s.workers[key].call.Send? ==> TaskInv(s, task))
      && AnswerInv(s, s.workers[key])
      && (s.workers[key].placed.Some? ==> s.workers[key].placed.value == |s.orders| - 1)
    case _ => true
  }

  ghost predicate PlacedInv(s: State) {
    forall k :: k in s.workers && s.workers[k].placed.Some? ==>
      var w := s.workers[k];
      w.call.Send? && w.placed.value < |s.orders| && s.orders[w.placed.value].comment == w.call.comment
  }

  // A send that can still take effect was cleared by a search for its id.
  ghost predicate SendInv(s: State, k: nat) {
    Live(s, k) && s.workers[k].call.Send? && s.workers[k].call.viaId && s.workers[k].placed == None ==>
      var c := s.workers[k].call;
      c.since <= s.now && AckedOld(s, c.comment, c.since) && (c.comment !in s.blind ==> Cleared(s, c.comment, c.since))
  }

  ghost predicate TimeInv(s: State) {
    forall i :: 0 <= i < |s.orders| ==> s.orders[i].time <= s.now
  }

  ghost predicate RecentInv(s: State) {
    forall i :: 0 <= i < |s.orders| && s.orders[i].acked ==>
      var o := s.orders[i];
      (o.comment in s.recent && s.recent[o.comment] >= o.time) || o.time + LOOKBACK < s.now
  }

  // The earlier of two orders with one comment, the later sent by id.
  ghost predicate Repeats(s: State, i: int, j: int) {
    0 <= i < j < |s.orders| && s.orders[i].comment == s.orders[j].comment && s.orders[j].viaId
  }

  ghost predicate FarApart(s: State) {
    forall i, j :: Repeats(s, i, j) && s.orders[i].comment !in s.blind ==>
      !s.orders[i].pending && s.orders[j].time - s.orders[i].time > LOOKBACK + s.skew
  }

  ghost predicate AckedFarApart(s: State) {
    forall i, j :: Repeats(s, i, j) && s.orders[i].acked ==>
      s.orders[j].time - s.orders[i].time > LOOKBACK
  }

  ghost predicate OrderInv(s: State) {
    && s.skew + FIND_SECONDS <= SLACK
    && TimeInv(s) && PlacedInv(s) && RecentInv(s)
    && (forall sid :: sid in s.sessions ==> PhaseInv(s, s.sessions[sid].phase))
    && (forall k :: SendInv(s, k))
    && FarApart(s)
    && AckedFarApart(s)
  }

  ghost predicate SessionInv(s: State) { QueueInv(s) && CallInv(s) && SingleFlight(s) }

  // The orders of s, later: none added, none newly acknowledged, none pending again.
  ghost predicate Ages(s: State, t: State) {
    && |t.orders| == |s.orders| && s.now <= t.now && t.skew == s.skew && s.blind <= t.blind
    && forall i :: 0 <= i < |s.orders| ==>
         && t.orders[i].comment == s.orders[i].comment
         && t.orders[i].viaId == s.orders[i].viaId
         && t.orders[i].time == s.orders[i].time
         && t.orders[i].acked == s.orders[i].acked
         && (t.orders[i].pending ==> s.orders[i].pending)
  }

  lemma AgeingKeepsGaps(s: State, t: State)
    requires Ages(s, t)
    requires FarApart(s) && AckedFarApart(s)
    ensures FarApart(t) && AckedFarApart(t)
  {
    forall i, j | Repeats(t, i, j)
      ensures Repeats(s, i, j)
    {}
  }

  lemma AgeingKeepsPhase(s: State, t: State, p: Phase)
    requires Ages(s, t) && PhaseInv(s, p)
    requires p.Calling? ==> p.key in t.workers && t.workers[p.key] == s.workers[p.key]
    requires HoldsLock(p) && TaskOf(p).Create? && TaskOf(p).at.Look? ==> t.now <= TaskOf(p).at.from + FIND_SECONDS
    ensures PhaseInv(t, p)
  {
  }

  lemma AgeingKeepsSend(s: State, t: State, k: nat)
    requires Ages(s, t) && SendInv(s, k)
    requires Live(t, k) ==> Live(s, k) && t.workers[k] == s.workers[k]
    ensures SendInv(t, k)
  {
  }

  // The steps that leave orders, calls and memory alone, but for time passing.
  predicate IsQuiet(step: Step) {
    !step.Accept? && !step.Resume? && !step.SearchRecent? && !step.StartCall? && !step.Return?
  }

  lemma QuietStepKept(s: State, step: Step)
    requires SessionInv(s) && OrderInv(s) && Enabled(s, step) && IsQuiet(step)
    ensures OrderInv(Apply(s, step))
  {
    var t := Apply(s, step);
    QuietStepAges(s, step);
    AgeingKeepsGaps(s, t);
    forall k
      ensures SendInv(t, k)
    {
      AgeingKeepsSend(s, t, k);
    }
    forall sid | sid in t.sessions
      ensures PhaseInv(t, t.sessions[sid].phase)
    {
      if step.Tick? || step.OrderMoves? {
        AgeingKeepsPhase(s, t, s.sessions[sid].phase);
      } else {
        QuietPhase(s, step, sid);
      }
    }
  }

  lemma QuietStepAges(s: State, step: Step)
    requires SessionInv(s) && OrderInv(s) && Enabled(s, step) && IsQuiet(step)
    ensures var t := Apply(s, step);
      Ages(s, t) && TimeInv(t) && PlacedInv(t) && RecentInv(t) && t.workers == s.workers && t.gen >= s.gen
  {
    if step.Tick? {
      TickAges(s, step);
    } else if step.OrderMoves? {
      MoveAges(s, step);
    } else {
      SessionAges(s, step);
    }
  }

  lemma TickAges(s: State, step: Step)
    requires OrderInv(s) && Enabled(s, step) && step.Tick?
    ensures var t := Apply(s, step); Ages(s, t) && TimeInv(t) && PlacedInv(t) && RecentInv(t)
  {
  }

  lemma MoveAges(s: State, step: Step)
    requires OrderInv(s) && Enabled(s, step) && step.OrderMoves?
    ensures var t := Apply(s, step); Ages(s, t) && TimeInv(t) && PlacedInv(t) && RecentInv(t)
  {
  }

  // These change the sessions, the lock, the generation and the tracked set at most.
  lemma SessionAges(s: State, step: Step)
    requires Enabled(s, step) && IsQuiet(step) && !step.Tick? && !step.OrderMoves?
    ensures var t := Apply(s, step);
      && t.orders == s.orders && t.recent == s.recent && t.now == s.now && t.workers == s.workers
      && t.skew == s.skew && t.blind == s.blind && t.gen >= s.gen
  {
  }

  // The steps of a session, and a kill, leave every other phase as it is.
  lemma QuietPhase(s: State, step: Step, sid: nat)
    requires SessionInv(s) && OrderInv(s) && Enabled(s, step) && IsQuiet(step) && !step.Tick? && !step.OrderMoves?
    requires sid in Apply(s, step).sessions
    ensures PhaseInv(Apply(s, step), Apply(s, step).sessions[sid].phase)
  {
    var t := Apply(s, step);
    QuietStepAges(s, step);
    var p := t.sessions[sid].phase;
    if sid in s.sessions && p == s.sessions[sid].phase {
      assert t.now == s.now;
      assert PhaseInv(s, p);
      AgeingKeepsPhase(s, t, p);
    } else {
      NewPhase(s, step, sid);
    }
  }

  // A phase that such a step brings about says nothing about orders.
  lemma NewPhase(s: State, step: Step, sid: nat)
    requires SessionInv(s) && Enabled(s, step) && IsQuiet(step) && !step.Tick? && !step.OrderMoves?
    requires sid in Apply(s, step).sessions &&
             (sid in s.sessions ==> Apply(s, step).sessions[sid].phase != s.sessions[sid].phase)
    ensures PhaseInv(Apply(s, step), Apply(s, step).sessions[sid].phase)
  {
  }

  lemma SearchKept(s: State, sid: nat)
    requires SessionInv(s) && OrderInv(s) && Enabled(s, SearchRecent(sid))
    ensures OrderInv(Apply(s, SearchRecent(sid)))
  {
    var t := Apply(s, SearchRecent(sid));
    assert Ages(s, t);
    AgeingKeepsGaps(s, t);
    forall k
      ensures SendInv(t, k)
    {
      AgeingKeepsSend(s, t, k);
    }
    forall x | x in t.sessions
      ensures PhaseInv(t, t.sessions[x].phase)
    {
      if x != sid {
        AgeingKeepsPhase(s, t, s.sessions[x].phase);
      }
    }
  }

  lemma StartKept(s: State, sid: nat, call: Call)
    requires SessionInv(s) && OrderInv(s) && Enabled(s, StartCall(sid, call))
    ensures OrderInv(Apply(s, StartCall(sid, call)))
  {
    var t := Apply(s, StartCall(sid, call));
    assert Ages(s, t);
    AgeingKeepsGaps(s, t);
    assert PhaseInv(s, s.sessions[sid].phase);
    forall k
      ensures SendInv(t, k)
    {
      if k != s.nextKey {
        AgeingKeepsSend(s, t, k);
      }
    }
    forall x | x in t.sessions
      ensures PhaseInv(t, t.sessions[x].phase)
    {
      if x != sid {
        AgeingKeepsPhase(s, t, s.sessions[x].phase);
      }
    }
  }

  // A lookup that finds nothing has established what AnswerInv says.
  lemma EmptyAnswer(s: State, w: Worker)
    requires w.call.Lookup? && !Found(s, w.call.source, w.call.id, w.call.from)
    requires s.skew + FIND_SECONDS <= SLACK && TimeInv(s)
    requires TaskInv(s, Create(w.call.id, Look(w.call.source, w.call.from)))
    ensures w.call.id !in s.blind ==>
      match w.call.source
      case PendingOrders => NotPending(s, w.call.id)
      case OpenPositions => true
      case OrderHistory => Cleared(s, w.call.id, w.call.from)
  {
    forall i | 0 <= i < |s.orders| && s.orders[i].comment == w.call.id
      ensures !Listed(s.orders[i], w.call.source, w.call.from, s.skew)
    {}
  }

  lemma ReturnKept(s: State, key: nat, reply: Reply)
    requires SessionInv(s) && OrderInv(s) && Enabled(s, Return(key, reply))
    ensures OrderInv(Apply(s, Return(key, reply)))
  {
    var t := Apply(s, Return(key, reply));
    assert Ages(s, t);
    AgeingKeepsGaps(s, t);
    forall k
      ensures SendInv(t, k)
    {
      if k != key {
        AgeingKeepsSend(s, t, k);
      }
    }
    forall x | x in t.sessions
      ensures PhaseInv(t, t.sessions[x].phase)
    {
      var p := s.sessions[x].phase;
      assert PhaseInv(s, p);
      if p.Calling? && p.key == key {
        assert MayCall(p.job, s.workers[key].call);
        if s.workers[key].call.Lookup? && reply == Got(false) {
          EmptyAnswer(s, s.workers[key]);
        }
      } else {
        AgeingKeepsPhase(s, t, p);
      }
    }
  }

  // Only one thread can reach the broker, so an acceptance disturbs no other search.
  lemma AcceptKept(s: State, key: nat, pending: bool, open: bool)
    requires SessionInv(s) && OrderInv(s) && Enabled(s, Accept(key, pending, open))
    ensures OrderInv(Apply(s, Accept(key, pending, open)))
  {
    AcceptKeepsSends(s, key, pending, open);
    AcceptKeepsPhases(s, key, pending, open);
    AcceptKeepsOrders(s, key, pending, open);
  }

  lemma AcceptKeepsSends(s: State, key: nat, pending: bool, open: bool)
    requires SessionInv(s) && Enabled(s, Accept(key, pending, open))
    ensures forall k :: SendInv(Apply(s, Accept(key, pending, open)), k)
  {
    forall k
      ensures Live(s, k) ==> k == key
    {
      assert k in s.workers && s.workers[k].state.Running? && s.workers[k].gen == s.workers[key].gen ==> k == key;
    }
  }

  lemma AcceptKeepsPhases(s: State, key: nat, pending: bool, open: bool)
    requires SessionInv(s) && OrderInv(s) && Enabled(s, Accept(key, pending, open))
    ensures var t := Apply(s, Accept(key, pending, open));
      forall x :: x in t.sessions ==> PhaseInv(t, t.sessions[x].phase)
  {
    var t := Apply(s, Accept(key, pending, open));
    forall x | x in t.sessions
      ensures PhaseInv(t, t.sessions[x].phase)
    {
      var p := s.sessions[x].phase;
      assert PhaseInv(s, p) && Quiet(s, p);
      assert Live(s, key);
      if p.Calling? {
        assert p.key == key;
      }
    }
  }

  lemma AcceptKeepsOrders(s: State, key: nat, pending: bool, open: bool)
    requires OrderInv(s) && Enabled(s, Accept(key, pending, open))
    ensures var t := Apply(s, Accept(key, pending, open));
      TimeInv(t) && PlacedInv(t) && RecentInv(t) && FarApart(t) && AckedFarApart(t)
  {
    var t := Apply(s, Accept(key, pending, open));
    assert SendInv(s, key);
    forall i, j | Repeats(t, i, j)
      ensures j < |s.orders| ==> Repeats(s, i, j)
    {}
  }

  // Only the newest order can be acknowledged, so no order already follows it.
  lemma ResumeKeepsOrders(s: State, sid: nat)
    requires SessionInv(s) && OrderInv(s) && Enabled(s, Resume(sid))
    ensures var t := Apply(s, Resume(sid));
      TimeInv(t) && PlacedInv(t) && RecentInv(t) && FarApart(t) && AckedFarApart(t)
  {
    var p := s.sessions[sid].phase;
    var w := s.workers[p.key];
    assert PhaseInv(s, p);
    AcknowledgeKeeps(s, SetPhase(s, sid, Ready(AfterReply(p.job, w.call, w.state.reply))).(
      blind := s.blind + Unseen(w.call, w.state.reply)), w);
  }

  lemma AcknowledgeKeeps(s: State, next: State, w: Worker)
    requires TimeInv(s) && PlacedInv(s) && RecentInv(s) && FarApart(s) && AckedFarApart(s)
    requires next.orders == s.orders && next.workers == s.workers && next.recent == s.recent && next.now == s.now &&
             next.skew == s.skew
    requires s.blind <= next.blind && w in s.workers.Values && (w.placed.Some? ==> w.placed.value == |s.orders| - 1)
    ensures var t := Acknowledge(next, w);
      TimeInv(t) && PlacedInv(t) && RecentInv(t) && FarApart(t) && AckedFarApart(t)
  {
    var t := Acknowledge(next, w);
    var k :| k in s.workers && s.workers[k] == w;
    forall i, j | Repeats(t, i, j)
      ensures Repeats(s, i, j) && t.orders[i] == s.orders[i]
    {}
  }

  lemma ResumeKeepsPhases(s: State, sid: nat)
    requires SessionInv(s) && OrderInv(s) && Enabled(s, Resume(sid))
    ensures var t := Apply(s, Resume(sid)); forall x :: x in t.sessions ==> PhaseInv(t, t.sessions[x].phase)
  {
    ResumedPhase(s, sid);
    assert forall x :: x in s.sessions && x != sid ==> !HoldsLock(s.sessions[x].phase);
  }

  lemma ResumedPhase(s: State, sid: nat)
    requires SessionInv(s) && OrderInv(s) && Enabled(s, Resume(sid))
    ensures var t := Apply(s, Resume(sid)); sid in t.sessions && PhaseInv(t, t.sessions[sid].phase)
  {
    var t := Apply(s, Resume(sid));
    var p := s.sessions[sid].phase;
    var w := s.workers[p.key];
    assert PhaseInv(s, p) && MayCall(p.job, w.call);
    NextTask(s, p.job, w);
    if !w.call.Send? {
      AgeingKeepsTask(s.(blind := t.blind), t, AfterReply(p.job, w.call, w.state.reply));
    }
  }

  lemma AgeingKeepsTask(s: State, t: State, task: Task)
    requires t.orders == s.orders && t.now == s.now && t.skew == s.skew && t.blind == s.blind && TaskInv(s, task)
    ensures TaskInv(t, task)
  {
  }

  // What the task knows once its call has come back.
  lemma NextTask(s: State, task: Task, w: Worker)
    requires MayCall(task, w.call) && w.state.Returned? && AnswerInv(s, w) && (!w.call.Send? ==> TaskInv(s, task))
    ensures var next := AfterReply(task, w.call, w.state.reply);
      if w.call.Send? then next.Create? ==> next.at.Over?
      else TaskInv(s.(blind := s.blind + Unseen(w.call, w.state.reply)), next)
  {
  }

  lemma ResumeKept(s: State, sid: nat)
    requires SessionInv(s) && OrderInv(s) && Enabled(s, Resume(sid))
    ensures OrderInv(Apply(s, Resume(sid)))
  {
    var t := Apply(s, Resume(sid));
    assert Quiet(s, s.sessions[sid].phase);
    assert forall k :: Live(t, k) ==> Live(s, k);
    ResumeKeepsOrders(s, sid);
    ResumeKeepsPhases(s, sid);
  }

  lemma OrderKept(s: State, step: Step)
    requires SessionInv(s) && OrderInv(s) && Enabled(s, step)
    ensures OrderInv(Apply(s, step))
  {
    match step
    case SearchRecent(sid) => SearchKept(s, sid);
    case StartCall(sid, call) => StartKept(s, sid, call);
    case Accept(key, pending, open) => AcceptKept(s, key, pending, open);
    case Return(key, reply) => ReturnKept(s, key, reply);
    case Resume(sid) => ResumeKept(s, sid);
    case _ => QuietStepKept(s, step);
  }

  // ---------------------------------------------------------------- whole runs

  lemma {:induction false} SessionInvExec(s: State, steps: seq<Step>)
    requires Runs(s, steps) && QueueInv(s) && CallInv(s)
    requires !s.stray ==> SingleFlight(s)
    ensures var t := Exec(s, steps); QueueInv(t) && CallInv(t) && (!t.stray ==> SingleFlight(t))
    decreases |steps|
  {
    if steps != [] {
      var t := Apply(s, steps[0]);
      QueueKept(s, steps[0]);
      CallKept(s, steps[0]);
      if !t.stray {
        SingleFlightKept(s, steps[0]);
      }
      SessionInvExec(t, steps[1..]);
    }
  }

  lemma {:induction false} StrayStays(s: State, steps: seq<Step>)
    requires Runs(s, steps) && s.stray
    ensures Exec(s, steps).stray
    decreases |steps|
  {
    if steps != [] {
      StrayStays(Apply(s, steps[0]), steps[1..]);
    }
  }

  lemma {:induction false} OrderInvExec(s: State, steps: seq<Step>)
    requires Runs(s, steps) && SessionInv(s) && OrderInv(s)
    requires !Exec(s, steps).stray
    ensures OrderInv(Exec(s, steps))
    decreases |steps|
  {
    if steps != [] {
      var t := Apply(s, steps[0]);
      if t.stray {
        StrayStays(t, steps[1..]);
      }
      QueueKept(s, steps[0]);
      CallKept(s, steps[0]);
      SingleFlightKept(s, steps[0]);
      OrderKept(s, steps[0]);
      OrderInvExec(t, steps[1..]);
    }
  }

  /** In every run: the queue depth counts the sessions, admission is capped, the lock has
      one holder, a call that came back is untracked, and, unless some restart's kill failed
      while a thread could still reach the broker, every such thread is tracked and there is
      at most one of them a terminal generation. */
  lemma SessionSafety(skew: int, steps: seq<Step>)
    requires Runs(Init(skew), steps)
    ensures var s := Exec(Init(skew), steps);
      && s.depth == |s.sessions| && |AdmittedSessions(s)| <= MAX_QUEUE_DEPTH
      && (forall a, b ::
            a in s.sessions && b in s.sessions && HoldsLock(s.sessions[a].phase) && HoldsLock(s.sessions[b].phase) ==>
              a == b)
      && (forall k :: k in s.tracked ==> k in s.workers && s.workers[k].state.Running?)
      && (!s.stray ==> OnePerGeneration(s) && forall k :: Live(s, k) ==> k in s.tracked)
  {
    assert AdmittedSessions(Init(skew)) == {};
    SessionInvExec(Init(skew), steps);
  }

  // Two accepted orders with one client_order_id are further apart than the lookback window,
  // corrected by the broker clock's skew, and the earlier one is not pending.
  ghost predicate OncePerId(s: State) {
    forall i, j :: Repeats(s, i, j) ==> !s.orders[i].pending && s.orders[j].time - s.orders[i].time > LOOKBACK + s.skew
  }

  /** The same of each id that was never searched for with an unanswered lookup of the pending
      orders or of the history, in every run without a kill that left a live thread behind. */
  lemma AtMostOneOrderPerId(skew: int, steps: seq<Step>)
    requires Runs(Init(skew), steps) && skew + FIND_SECONDS <= SLACK
    requires !Exec(Init(skew), steps).stray
    ensures var s := Exec(Init(skew), steps);
      forall i, j :: Repeats(s, i, j) && s.orders[i].comment !in s.blind ==>
        !s.orders[i].pending && s.orders[j].time - s.orders[i].time > LOOKBACK + skew
  {
    assert AdmittedSessions(Init(skew)) == {};
    OrderInvExec(Init(skew), steps);
    SkewStays(Init(skew), steps);
  }

  lemma {:induction false} SkewStays(s: State, steps: seq<Step>)
    requires Runs(s, steps)
    ensures Exec(s, steps).skew == s.skew
    decreases |steps|
  {
    if steps != [] {
      SkewStays(Apply(s, steps[0]), steps[1..]);
    }
  }

  /** A restart that has reconnected leaves no tracked thread and none that can reach the broker. */
  lemma RestartLeavesNone(skew: int, steps: seq<Step>, sid: nat)
    requires Runs(Init(skew), steps) && !Exec(Init(skew), steps).stray && Enabled(Exec(Init(skew), steps), Forget(sid))
    ensures var t := Apply(Exec(Init(skew), steps), Forget(sid)); t.tracked == {} && NoneLive(t)
  {
    assert AdmittedSessions(Init(skew)) == {};
    SessionInvExec(Init(skew), steps);
    ForgetLeavesNone(Exec(Init(skew), steps), sid);
  }

  /** An order whose acceptance this process was told of is not repeated within the
      window even when no lookup ever answers. */
  lemma AcknowledgedNeverRepeated(skew: int, steps: seq<Step>)
    requires Runs(Init(skew), steps) && skew + FIND_SECONDS <= SLACK
    requires !Exec(Init(skew), steps).stray
    ensures var o := Exec(Init(skew), steps).orders;
      forall i, j :: 0 <= i < j < |o| && o[i].comment == o[j].comment && o[i].acked && o[j].viaId ==>
        o[j].time - o[i].time > LOOKBACK
  {
    assert AdmittedSessions(Init(skew)) == {};
    OrderInvExec(Init(skew), steps);
    var s := Exec(Init(skew), steps);
    forall i, j |
      0 <= i < j < |s.orders| && s.orders[i].comment == s.orders[j].comment && s.orders[i].acked && s.orders[j].viaId
      ensures s.orders[j].time - s.orders[i].time > LOOKBACK
    {
      assert Repeats(s, i, j);
    }
  }

  /** The reconnect of a restart keeps one call a generation exactly when the kill worked
      or no call could still reach the broker. */
  lemma ReconnectSafeIff(s: State, sid: nat, gone: bool)
    requires SessionInv(s) && Enabled(s, Kill(sid, gone))
    ensures var t := Apply(s, Kill(sid, gone));
      Enabled(t, StartCall(sid, Plain)) && (OnePerGeneration(Apply(t, StartCall(sid, Plain))) <==> gone || NoneLive(s))
  {
    var t := Apply(s, Kill(sid, gone));
    var u := Apply(t, StartCall(sid, Plain));
    if !gone && !NoneLive(s) {
      var k :| Live(s, k);
      assert k in u.workers && u.workers[k].gen == u.workers[t.nextKey].gen && k != t.nextKey;
    } else {
      assert forall k :: Live(t, k) ==> Live(s, k) && !gone;
      forall k | k in t.workers && t.workers[k].state.Running?
        ensures t.workers[k].gen != t.gen
      {
        assert !Live(t, k);
      }
    }
  }

  // ---------------------------------------------------------------- exactly when it holds

  /** What may go wrong in a run: the sources that may leave a lookup unanswered, and whether
      every kill works or finds no thread that can still reach the broker. */
  datatype World = World(deaf: set<Source>, sure: bool)

  predicate Allows(w: World, s: State, step: Step)
    requires Enabled(s, step)
  {
    match step
    case Return(key, reply) =>
      var call := s.workers[key].call;
      call.Lookup? && reply.NoAnswer? ==> call.source in w.deaf
    case Kill(_, gone) => w.sure && !gone ==> !SomeLive(s)
    case _ => true
  }

  ghost predicate RunsIn(w: World, s: State, steps: seq<Step>)
    ensures RunsIn(w, s, steps) ==> Runs(s, steps)
    decreases |steps|
  {
    steps == [] || (Enabled(s, steps[0]) && Allows(w, s, steps[0]) && RunsIn(w, Apply(s, steps[0]), steps[1..]))
  }

  // Whatever went unanswered was allowed to.
  ghost predicate Heard(w: World, s: State) {
    && (forall k :: k in s.workers && s.workers[k].call.Lookup? && s.workers[k].state == Returned(NoAnswer) ==>
          s.workers[k].call.source in w.deaf)
    && (w.deaf <= {OpenPositions} ==> s.blind == {}) && (w.sure ==> !s.stray)
  }

  lemma HeardKept(w: World, s: State, step: Step)
    requires Heard(w, s) && Enabled(s, step) && Allows(w, s, step)
    ensures Heard(w, Apply(s, step))
  {
    if step.Resume? {
      ResumeHeard(w, s, step.sid);
    } else if step.Return? || step.Accept? || step.StartCall? {
      WorkersHeard(w, s, step);
    } else {
      RestHeard(w, s, step);
    }
  }

  lemma ResumeHeard(w: World, s: State, sid: nat)
    requires Heard(w, s) && Enabled(s, Resume(sid))
    ensures Heard(w, Apply(s, Resume(sid)))
  {
    var k := s.sessions[sid].phase.key;
    assert Apply(s, Resume(sid)).blind == s.blind + Unseen(s.workers[k].call, s.workers[k].state.reply);
  }

  lemma WorkersHeard(w: World, s: State, step: Step)
    requires Heard(w, s) && Enabled(s, step) && Allows(w, s, step) && (step.Return? || step.Accept? || step.StartCall?)
    ensures Heard(w, Apply(s, step))
  {
  }

  lemma RestHeard(w: World, s: State, step: Step)
    requires Heard(w, s) && Enabled(s, step) && Allows(w, s, step)
    requires !step.Resume? && !step.Return? && !step.Accept? && !step.StartCall?
    ensures Heard(w, Apply(s, step))
  {
    assert Apply(s, step).workers == s.workers && Apply(s, step).blind == s.blind;
  }

  lemma {:induction false} HeardExec(w: World, s: State, steps: seq<Step>)
    requires Heard(w, s) && RunsIn(w, s, steps)
    ensures Heard(w, Exec(s, steps))
    decreases |steps|
  {
    if steps != [] {
      HeardKept(w, s, steps[0]);
      HeardExec(w, Apply(s, steps[0]), steps[1..]);
    }
  }

  /** In every run each id has at most one order exactly when only the lookup of the open
      positions may go unanswered, and every kill works or finds nothing live. */
  lemma OncePerIdIff(w: World)
    ensures (forall skew, steps :: skew + FIND_SECONDS <= SLACK && RunsIn(w, Init(skew), steps) ==>
             OncePerId(Exec(Init(skew), steps)))
      <==> w.deaf <= {OpenPositions} && w.sure
  {
    if w.deaf <= {OpenPositions} && w.sure {
      forall skew, steps | skew + FIND_SECONDS <= SLACK && RunsIn(w, Init(skew), steps)
        ensures OncePerId(Exec(Init(skew), steps))
      {
        OncePerIdHolds(w, skew, steps);
      }
    } else {
      var steps := OncePerIdFails(w);
      assert RunsIn(w, Init(0), steps) && !OncePerId(Exec(Init(0), steps));
    }
  }

  lemma OncePerIdHolds(w: World, skew: int, steps: seq<Step>)
    requires w.deaf <= {OpenPositions} && w.sure && skew + FIND_SECONDS <= SLACK && RunsIn(w, Init(skew), steps)
    ensures OncePerId(Exec(Init(skew), steps))
  {
    HeardExec(w, Init(skew), steps);
    SkewStays(Init(skew), steps);
    AtMostOneOrderPerId(skew, steps);
  }

  lemma OncePerIdFails(w: World) returns (steps: seq<Step>)
    requires !(w.deaf <= {OpenPositions}) || !w.sure
    ensures RunsIn(w, Init(0), steps) && !OncePerId(Exec(Init(0), steps))
  {
    if !(w.deaf <= {OpenPositions}) {
      var source :| source in w.deaf && source != OpenPositions;
      steps := DeafSourceRepeats(w, source);
    } else {
      steps := FailedKillRepeats(w);
    }
    assert Repeats(Exec(Init(0), steps), 0, 1);
    SkewStays(Init(0), steps);
  }

  // ---------------------------------------------------------------- the runs where it fails

  lemma {:induction false} Extend(w: World, s: State, steps: seq<Step>, step: Step) returns (more: seq<Step>)
    requires RunsIn(w, s, steps) && Enabled(Exec(s, steps), step) && Allows(w, Exec(s, steps), step)
    ensures more == steps + [step]
    ensures RunsIn(w, s, more) && Exec(s, more) == Apply(Exec(s, steps), step)
    decreases |steps|
  {
    more := steps + [step];
    if steps != [] {
      var rest := Extend(w, Apply(s, steps[0]), steps[1..], step);
      assert more[1..] == rest;
    } else {
      assert more[1..] == [];
    }
  }

  lemma Extend2(w: World, s: State, steps: seq<Step>, a: Step, b: Step) returns (more: seq<Step>)
    requires RunsIn(w, s, steps) && Enabled(Exec(s, steps), a) && Enabled(Apply(Exec(s, steps), a), b)
    requires Allows(w, Exec(s, steps), a) && Allows(w, Apply(Exec(s, steps), a), b)
    ensures RunsIn(w, s, more) && Exec(s, more) == Apply(Apply(Exec(s, steps), a), b)
  {
    more := Extend(w, s, steps, a);
    more := Extend(w, s, more, b);
  }

  lemma Extend3(w: World, s: State, steps: seq<Step>, a: Step, b: Step, c: Step) returns (more: seq<Step>)
    requires RunsIn(w, s, steps) && Possible(w, Exec(s, steps), a, b, c)
    ensures RunsIn(w, s, more) && Exec(s, more) == Apply(Apply(Apply(Exec(s, steps), a), b), c)
  {
    more := Extend2(w, s, steps, a, b);
    more := Extend(w, s, more, c);
  }

  // Three steps one after another.
  ghost predicate Possible(w: World, s: State, a: Step, b: Step, c: Step) {
    && Enabled(s, a) && Enabled(Apply(s, a), b) && Enabled(Apply(Apply(s, a), b), c)
    && Allows(w, s, a) && Allows(w, Apply(s, a), b) && Allows(w, Apply(Apply(s, a), b), c)
  }

  // A session that is done gives up the lock and leaves.
  lemma Leaves(w: World, s0: State, before: seq<Step>, sid: nat) returns (steps: seq<Step>)
    requires RunsIn(w, s0, before) && IsReady(Exec(s0, before), sid)
    ensures RunsIn(w, s0, steps)
    ensures var s := Exec(s0, before);
      Exec(s0, steps) == s.(depth := s.depth - 1, lock := None, sessions := s.sessions - {sid})
  {
    steps := Extend2(w, s0, before, Release(sid), Drop(sid));
    assert Exec(s0, steps).sessions == Exec(s0, before).sessions - {sid};
  }

  // No answer where none need come, or a truthful "not there".
  ghost predicate MissesIt(w: World, s: State, id: string, source: Source, from: nat, reply: Reply) {
    (reply == NoAnswer && source in w.deaf) || (reply == Got(false) && !Found(s, source, id, from))
  }

  // One lookup that does not find the order.
  lemma LookEffect(s: State, sid: nat, id: string, source: Source, from: nat, reply: Reply)
    requires InPhase(s, sid, Ready(Create(id, Look(source, from)))) && s.tracked == {}
    requires reply == NoAnswer || (reply == Got(false) && !Found(s, source, id, from))
    ensures var call := StartCall(sid, Lookup(source, id, from));
      && Enabled(s, call) && Enabled(Apply(s, call), Return(s.nextKey, reply))
      && Apply(Apply(s, call), Return(s.nextKey, reply)) ==
         SetPhase(s, sid, Calling(Create(id, Look(source, from)), s.nextKey)).(
           workers := s.workers[s.nextKey := Worker(Lookup(source, id, from), s.gen, Returned(reply), None)],
           nextKey := s.nextKey + 1)
  {
    var t := Apply(s, StartCall(sid, Lookup(source, id, from)));
    assert t.tracked - {s.nextKey} == {};
  }

  lemma LookMisses(w: World, s0: State, before: seq<Step>, sid: nat, id: string, source: Source, from: nat,
                   reply: Reply)
    returns (steps: seq<Step>)
    requires RunsIn(w, s0, before)
    requires var s := Exec(s0, before);
      InPhase(s, sid, Ready(Create(id, Look(source, from)))) && s.tracked == {} &&
      MissesIt(w, s, id, source, from, reply)
    ensures RunsIn(w, s0, steps)
    ensures var s := Exec(s0, before);
      Exec(s0, steps) == SetPhase(s, sid, Ready(NextLook(id, source, from))).(
        blind := s.blind + Unseen(Lookup(source, id, from), reply), nextKey := s.nextKey + 1,
        workers := s.workers[s.nextKey := Worker(Lookup(source, id, from), s.gen, Returned(reply), None)])
  {
    var s := Exec(s0, before);
    var ask := Lookup(source, id, from);
    LookTurn(w, s, sid, id, source, from, reply);
    steps := Extend3(w, s0, before, StartCall(sid, ask), Return(s.nextKey, reply), Resume(sid));
  }

  lemma LookTurn(w: World, s: State, sid: nat, id: string, source: Source, from: nat, reply: Reply)
    requires InPhase(s, sid, Ready(Create(id, Look(source, from)))) && s.tracked == {}
    requires MissesIt(w, s, id, source, from, reply)
    ensures var ask := Lookup(source, id, from);
      && Possible(w, s, StartCall(sid, ask), Return(s.nextKey, reply), Resume(sid))
      && Apply(Apply(Apply(s, StartCall(sid, ask)), Return(s.nextKey, reply)), Resume(sid)) ==
         SetPhase(s, sid, Ready(NextLook(id, source, from))).(
           blind := s.blind + Unseen(ask, reply), nextKey := s.nextKey + 1,
           workers := s.workers[s.nextKey := Worker(ask, s.gen, Returned(reply), None)])
  {
    LookEffect(s, sid, id, source, from, reply);
    LookResumes(Apply(Apply(s, StartCall(sid, Lookup(source, id, from))), Return(s.nextKey, reply)),
                sid, id, source, from, reply);
  }

  lemma LookResumes(s: State, sid: nat, id: string, source: Source, from: nat, reply: Reply)
    requires reply != Got(true) && IsCalling(s, sid)
    requires var p := s.sessions[sid].phase;
      p.job == Create(id, Look(source, from)) &&
      s.workers[p.key] == Worker(Lookup(source, id, from), s.gen, Returned(reply), None)
    ensures Enabled(s, Resume(sid))
    ensures Apply(s, Resume(sid)) ==
            SetPhase(s, sid, Ready(NextLook(id, source, from))).(
              blind := s.blind + Unseen(Lookup(source, id, from), reply))
  {
  }

  lemma SearchBegins(w: World, s0: State, before: seq<Step>, sid: nat, id: string) returns (steps: seq<Step>)
    requires RunsIn(w, s0, before) && AtRest(Exec(s0, before))
    ensures RunsIn(w, s0, steps)
    ensures var s := Exec(s0, before);
      Exec(s0, steps) == s.(depth := 1, lock := Some(sid),
        sessions := map[sid := Session(false, Ready(Create(id, Look(PendingOrders, s.now))))])
  {
    var s := Exec(s0, before);
    steps := Extend2(w, s0, before, Enter(sid, false), Acquire(sid, Some(id)));
    assert Remembered(s.recent, s.now) == map[];
    steps := Extend(w, s0, steps, SearchRecent(sid));
  }

  // No session, nothing tracked and nothing remembered.
  ghost predicate AtRest(s: State) {
    s.lock == None && s.tracked == {} && s.sessions == map[] && s.depth == 0 && s.recent == map[]
  }

  ghost predicate KeepsWorkers(s: State, t: State) {
    forall k :: k in s.workers && k < s.nextKey ==> k in t.workers && t.workers[k] == s.workers[k]
  }

  // Each source misses the order: the deaf one gives no answer, the others tell the truth.
  ghost predicate AllMiss(w: World, s: State, id: string, from: nat, replies: Source -> Reply) {
    forall source :: MissesIt(w, s, id, source, from, replies(source))
  }

  lemma LooksMiss(w: World, s0: State, before: seq<Step>, sid: nat, id: string, from: nat, replies: Source -> Reply)
    returns (steps: seq<Step>)
    requires RunsIn(w, s0, before)
    requires var s := Exec(s0, before);
      InPhase(s, sid, Ready(Create(id, Look(PendingOrders, from)))) && s.tracked == {} &&
      AllMiss(w, s, id, from, replies)
    ensures RunsIn(w, s0, steps)
    ensures var s, t := Exec(s0, before), Exec(s0, steps);
      t == SetPhase(s, sid, Ready(Create(id, Clear(from)))).(blind := t.blind, workers := t.workers,
                                                             nextKey := s.nextKey + 3)
    ensures KeepsWorkers(Exec(s0, before), Exec(s0, steps))
  {
    steps := LookMisses(w, s0, before, sid, id, PendingOrders, from, replies(PendingOrders));
    SameOrdersMiss(w, Exec(s0, before), Exec(s0, steps), id, OpenPositions, from, replies);
    steps := LookMisses(w, s0, steps, sid, id, OpenPositions, from, replies(OpenPositions));
    SameOrdersMiss(w, Exec(s0, before), Exec(s0, steps), id, OrderHistory, from, replies);
    steps := LookMisses(w, s0, steps, sid, id, OrderHistory, from, replies(OrderHistory));
  }

  lemma SameOrdersMiss(w: World, s: State, t: State, id: string, source: Source, from: nat, replies: Source -> Reply)
    requires AllMiss(w, s, id, from, replies) && t.orders == s.orders && t.skew == s.skew
    ensures MissesIt(w, t, id, source, from, replies(source))
  {
    assert MissesIt(w, s, id, source, from, replies(source));
  }

  // A create_order up to its send, with every lookup missing.
  lemma SearchMisses(w: World, s0: State, before: seq<Step>, sid: nat, id: string, replies: Source -> Reply)
    returns (steps: seq<Step>)
    requires RunsIn(w, s0, before) && AtRest(Exec(s0, before))
    requires AllMiss(w, Exec(s0, before), id, Exec(s0, before).now, replies)
    ensures RunsIn(w, s0, steps)
    ensures var s, t := Exec(s0, before), Exec(s0, steps);
      t == s.(blind := t.blind, workers := t.workers, nextKey := s.nextKey + 3, depth := 1, lock := Some(sid),
              sessions := map[sid := Session(false, Ready(Create(id, Clear(s.now))))])
    ensures KeepsWorkers(Exec(s0, before), Exec(s0, steps))
  {
    var s := Exec(s0, before);
    steps := SearchBegins(w, s0, before, sid, id);
    forall source ensures MissesIt(w, Exec(s0, steps), id, source, s.now, replies(source)) {
      SameOrdersMiss(w, s, Exec(s0, steps), id, source, s.now, replies);
    }
    steps := LooksMiss(w, s0, steps, sid, id, s.now, replies);
  }

  // A send that is accepted, but whose caller gives up waiting before it returns.
  lemma LostSend(w: World, s0: State, before: seq<Step>, sid: nat, id: string, since: nat, pending: bool)
    returns (steps: seq<Step>)
    requires RunsIn(w, s0, before)
    requires var s := Exec(s0, before); InPhase(s, sid, Ready(Create(id, Clear(since)))) && s.tracked == {}
    ensures RunsIn(w, s0, steps)
    ensures var s, t := Exec(s0, before), Exec(s0, steps);
      t == SetPhase(s, sid, Ready(Create(id, Over))).(
             workers := t.workers, nextKey := s.nextKey + 1,
             orders := s.orders + [Order(id, true, s.now, pending, false, false)])
  {
    var s := Exec(s0, before);
    steps := Extend2(w, s0, before, StartCall(sid, Send(id, true, since)), Accept(s.nextKey, pending, false));
    steps := Extend2(w, s0, steps, TimeOut(sid), Return(s.nextKey, NoAnswer));
    assert Exec(s0, steps).tracked == {};
  }

  // A create_order whose search misses and whose send times out.
  lemma LostCreate(w: World, s0: State, before: seq<Step>, sid: nat, id: string, replies: Source -> Reply,
                   pending: bool)
    returns (steps: seq<Step>)
    requires RunsIn(w, s0, before) && AtRest(Exec(s0, before))
    requires AllMiss(w, Exec(s0, before), id, Exec(s0, before).now, replies)
    ensures RunsIn(w, s0, steps)
    ensures var s, t := Exec(s0, before), Exec(s0, steps);
      t == s.(blind := t.blind, workers := t.workers, nextKey := t.nextKey,
              orders := s.orders + [Order(id, true, s.now, pending, false, false)])
  {
    steps := SearchMisses(w, s0, before, sid, id, replies);
    steps := LostSend(w, s0, steps, sid, id, Exec(s0, before).now, pending);
    steps := Leaves(w, s0, steps, sid);
    assert Exec(s0, steps).sessions == map[];
  }

  function Truthful(source: Source): Reply { Got(false) }

  function Deaf(to: Source): Source -> Reply { source => if source == to then NoAnswer else Got(false) }

  /** An unanswered lookup of the pending orders, or of the history, reads as "not there": with
      the two others answered truthfully, a retry after a timed-out send places the order again
      at once, while it is pending, or once it is filled and closed. */
  lemma DeafSourceRepeats(w: World, source: Source) returns (steps: seq<Step>)
    requires source in w.deaf && source != OpenPositions
    ensures RunsIn(w, Init(0), steps)
    ensures var s := Exec(Init(0), steps);
      !s.stray && |s.orders| == 2 && Repeats(s, 0, 1) && s.orders[0].time == s.orders[1].time
  {
    var pending := source.PendingOrders?;
    var order := Order("a", true, 0, pending, false, false);
    steps := LostCreate(w, Init(0), [], 1, "a", Truthful, pending);
    var s := Exec(Init(0), steps);
    assert s.orders == [order];
    forall other ensures MissesIt(w, s, "a", other, s.now, Deaf(source)(other)) {
      if other != source {
        assert !Listed(order, other, s.now, s.skew);
      }
    }
    steps := LostCreate(w, Init(0), steps, 2, "a", Deaf(source), pending);
  }

  // A restart whose kill leaves the terminal running...
  lemma KillWithoutEffect(w: World, s0: State, before: seq<Step>, sid: nat) returns (steps: seq<Step>)
    requires RunsIn(w, s0, before) && !w.sure
    requires var s := Exec(s0, before); s.lock == None && s.sessions == map[] && s.depth == 0
    ensures RunsIn(w, s0, steps)
    ensures var s, t := Exec(s0, before), Exec(s0, steps);
      t == s.(stray := t.stray, depth := 1, lock := Some(sid),
              sessions := map[sid := Session(true, Ready(Restart(Killed)))])
  {
    steps := Extend2(w, s0, before, Enter(sid, true), Acquire(sid, None));
    steps := Extend2(w, s0, steps, BeginRestart(sid), Kill(sid, false));
  }

  // ... which reconnects all the same...
  lemma Reconnects(w: World, s0: State, before: seq<Step>, sid: nat) returns (steps: seq<Step>)
    requires RunsIn(w, s0, before)
    requires InPhase(Exec(s0, before), sid, Ready(Restart(Killed)))
    ensures RunsIn(w, s0, steps)
    ensures var s, t := Exec(s0, before), Exec(s0, steps);
      t == SetPhase(s, sid, Ready(Restart(Reconnected))).(
        workers := s.workers[s.nextKey := Worker(Plain, s.gen, Returned(Got(true)), None)],
        tracked := t.tracked, nextKey := s.nextKey + 1)
  {
    var s := Exec(s0, before);
    ReconnectTurn(w, s, sid);
    steps := Extend3(w, s0, before, StartCall(sid, Plain), Return(s.nextKey, Got(true)), Resume(sid));
  }

  lemma ReconnectTurn(w: World, s: State, sid: nat)
    requires InPhase(s, sid, Ready(Restart(Killed)))
    ensures Possible(w, s, StartCall(sid, Plain), Return(s.nextKey, Got(true)), Resume(sid))
    ensures var t := Apply(Apply(Apply(s, StartCall(sid, Plain)), Return(s.nextKey, Got(true))), Resume(sid));
      t == SetPhase(s, sid, Ready(Restart(Reconnected))).(
        workers := s.workers[s.nextKey := Worker(Plain, s.gen, Returned(Got(true)), None)],
        tracked := t.tracked, nextKey := s.nextKey + 1)
  {
    var t := Apply(Apply(Apply(s, StartCall(sid, Plain)), Return(s.nextKey, Got(true))), Resume(sid));
    assert t.blind == s.blind;
  }

  // ... and forgets the tracked threads.
  lemma Forgets(w: World, s0: State, before: seq<Step>, sid: nat) returns (steps: seq<Step>)
    requires RunsIn(w, s0, before)
    requires InPhase(Exec(s0, before), sid, Ready(Restart(Reconnected)))
    ensures RunsIn(w, s0, steps)
    ensures var s := Exec(s0, before);
      Exec(s0, steps) == s.(depth := s.depth - 1, lock := None, sessions := s.sessions - {sid}, tracked := {})
  {
    steps := Extend(w, s0, before, Forget(sid));
    steps := Leaves(w, s0, steps, sid);
    assert Exec(s0, steps).sessions == Exec(s0, before).sessions - {sid};
  }

  // A send whose caller gives up waiting while the broker has not decided yet.
  lemma PendingSend(w: World, s0: State, before: seq<Step>, sid: nat, id: string, since: nat) returns (steps: seq<Step>)
    requires RunsIn(w, s0, before)
    requires var s := Exec(s0, before); InPhase(s, sid, Ready(Create(id, Clear(since)))) && s.tracked == {}
    ensures RunsIn(w, s0, steps)
    ensures var s := Exec(s0, before);
      Exec(s0, steps) == s.(
        depth := s.depth - 1, lock := None, sessions := s.sessions - {sid},
        tracked := {s.nextKey}, nextKey := s.nextKey + 1,
        workers := s.workers[s.nextKey := Worker(Send(id, true, since), s.gen, Running, None)])
  {
    steps := Extend2(w, s0, before, StartCall(sid, Send(id, true, since)), TimeOut(sid));
    steps := Leaves(w, s0, steps, sid);
    assert Exec(s0, steps).sessions == Exec(s0, before).sessions - {sid};
  }

  // With no order there yet, truthful lookups miss.
  lemma NoOrdersMiss(w: World, s: State, id: string)
    requires s.orders == []
    ensures AllMiss(w, s, id, s.now, Truthful)
  {
  }

  /** With every lookup answered truthfully, a restart whose kill failed lets an older send
      and its retry both take effect. */
  lemma FailedKillRepeats(w: World) returns (steps: seq<Step>)
    requires !w.sure
    ensures RunsIn(w, Init(0), steps)
    ensures var s := Exec(Init(0), steps);
      |s.orders| == 2 && Repeats(s, 0, 1) && s.orders[0].time == s.orders[1].time
  {
    var s0 := Init(0);
    NoOrdersMiss(w, s0, "a");
    steps := SearchMisses(w, s0, [], 1, "a", Truthful);
    steps := PendingSend(w, s0, steps, 1, "a", 0);
    assert Exec(s0, steps).sessions == map[];
    steps := KillWithoutEffect(w, s0, steps, 2);
    steps := Reconnects(w, s0, steps, 2);
    steps := Forgets(w, s0, steps, 2);
    assert Exec(s0, steps).sessions == map[];
    NoOrdersMiss(w, Exec(s0, steps), "a");
    steps := SearchMisses(w, s0, steps, 3, "a", Truthful);
    var key := Exec(s0, steps).nextKey;
    steps := PendingSend(w, s0, steps, 3, "a", 0);
    steps := BothAccepted(w, s0, steps, 3, key);
  }

  lemma BothAccepted(w: World, s0: State, before: seq<Step>, k: nat, l: nat) returns (steps: seq<Step>)
    requires RunsIn(w, s0, before) && k != l
    requires var s := Exec(s0, before);
      && s.orders == [] && Live(s, k) && Live(s, l) && s.workers[k].call == s.workers[l].call == Send("a", true, 0)
      && s.workers[k].placed == s.workers[l].placed == None
    ensures RunsIn(w, s0, steps)
    ensures var s, t := Exec(s0, before), Exec(s0, steps);
      var order := Order("a", true, s.now, false, true, false);
      t == s.(workers := t.workers, orders := [order, order])
  {
    steps := Extend(w, s0, before, Accept(k, false, true));
    steps := Extend(w, s0, steps, Accept(l, false, true));
  }
}
