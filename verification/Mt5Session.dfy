/**
 The MT5 session protocol of mt5api/mt5client.py, with the client_order_id sends
 of mt5api/handlers/orders.py running on top of it.

 One lock serialises the sessions. An SDK call runs on its own thread, and a call
 that times out leaves that thread inside the SDK, where it stays tracked. While
 any thread is tracked the single-flight guard refuses further calls; only the
 reconnect of a restart, after the terminal was killed, skips the guard.

 The protocol is a step system. A Step carries every nondeterministic choice, so
 Apply is a function, and a run is a sequence of steps.
 */
module Mt5Session {
  import opened Options

  const LOOKBACK: nat := 7 * 24 * 3600
  const SLACK: nat := 24 * 3600
  const CALL_TIMEOUT: nat := 30
  const FIND_SECONDS: nat := 3 * CALL_TIMEOUT
  const MAX_QUEUE_DEPTH: nat := 20

  datatype Source = PendingOrders | OpenPositions | OrderHistory

  datatype Call =
    | Plain
    | Lookup(source: Source, id: string, from: nat)
    | Send(comment: string, viaId: bool, since: nat)

  // What a call hands back. A lookup answers Got(found) or, like mt5's None, NoAnswer;
  // a send answers Got(accepted); NoAnswer is a None result.
  datatype Reply = NoAnswer | Got(yes: bool)

  datatype ThreadState = Running | Returned(reply: Reply)

  // A thread started for one SDK call. `placed` is the order it got accepted, if any.
  datatype Worker = Worker(call: Call, gen: nat, state: ThreadState, placed: Option<nat>)

  // An order the broker accepted. Once it is no longer pending it is in the history.
  datatype Order = Order(comment: string, viaId: bool, time: nat, pending: bool, open: bool, acked: bool)

  datatype CreateStep = Start | Look(source: Source, from: nat) | Clear(since: nat) | Over
  datatype RestartStep = Down | Killed | Reconnected | Finished

  datatype Task = Handler | Create(id: string, at: CreateStep) | Restart(stage: RestartStep)

  datatype Phase =
    | Waiting
    | Rejected
    | Ready(task: Task)
    | Calling(job: Task, key: nat)
    | Unlocked

  datatype Session = Session(bypass: bool, phase: Phase)

  // `blind` and `stray` are history: the ids some search for which got no answer about the
  // pending orders or the history, and whether some restart went on although its kill left a
  // thread that could still reach the broker.
  datatype State = State(
    now: nat, skew: int,
    depth: int, sessions: map<nat, Session>, lock: Option<nat>,
    workers: map<nat, Worker>, nextKey: nat, tracked: set<nat>, gen: nat,
    orders: seq<Order>, recent: map<string, nat>,
    blind: set<string>, stray: bool)

  datatype Step =
    | Enter(sid: nat, bypass: bool)
    | Drop(sid: nat)
    | Acquire(sid: nat, clientId: Option<string>)
    | Release(sid: nat)
    | SearchRecent(sid: nat)
    | StartCall(sid: nat, call: Call)
    | Accept(key: nat, pending: bool, open: bool)
    | Return(key: nat, reply: Reply)
    | Resume(sid: nat)
    | TimeOut(sid: nat)
    | BeginRestart(sid: nat)
    | Kill(sid: nat, gone: bool)
    | MonitorKill
    | Forget(sid: nat)
    | OrderMoves(index: nat, open: bool)
    | Tick(seconds: nat)

  function Init(skew: int): State {
    State(0, skew, 0, map[], None, map[], 0, {}, 0, [], map[], {}, false)
  }

  predicate HoldsLock(p: Phase) { p.Ready? || p.Calling? }

  predicate InPhase(s: State, sid: nat, p: Phase) {
    sid in s.sessions && s.sessions[sid].phase == p
  }

  predicate IsReady(s: State, sid: nat) {
    sid in s.sessions && s.sessions[sid].phase.Ready?
  }

  predicate IsCalling(s: State, sid: nat) {
    sid in s.sessions && s.sessions[sid].phase.Calling?
    && s.sessions[sid].phase.key in s.workers
  }

  function SetPhase(s: State, sid: nat, p: Phase): State
    requires sid in s.sessions
  {
    s.(sessions := s.sessions[sid := s.sessions[sid].(phase := p)])
  }

  // Whether a list the source answers with contains the order. The history window is
  // measured on the broker's clock.
  predicate Listed(o: Order, source: Source, since: nat, skew: int) {
    match source
    case PendingOrders => o.pending
    case OpenPositions => o.open
    case OrderHistory => !o.pending && since as int - LOOKBACK <= o.time + skew <= since + SLACK
  }

  predicate Found(s: State, source: Source, id: string, since: nat) {
    exists i :: 0 <= i < |s.orders| && s.orders[i].comment == id && Listed(s.orders[i], source, since, s.skew)
  }

  function Remembered(recent: map<string, nat>, now: nat): map<string, nat> {
    map c | c in recent && recent[c] + LOOKBACK >= now :: recent[c]
  }

  predicate MayCall(task: Task, call: Call) {
    match task
    case Handler => call.Plain? || (call.Send? && !call.viaId)
    case Create(id, Start) => call.Plain?
    case Create(id, Look(source, from)) => call == Lookup(source, id, from)
    case Create(id, Clear(since)) => call.Plain? || call == Send(id, true, since)
    case Create(id, Over) => call.Plain?
    case Restart(stage) => call.Plain? && (stage.Down? || stage.Killed?)
  }

  predicate ReplyFits(s: State, w: Worker, reply: Reply) {
    match w.call
    case Plain => true
    case Lookup(source, id, from) => reply.Got? ==> reply.yes == Found(s, source, id, from)
    case Send(_, _, _) => reply == Got(true) ==> w.placed.Some?
  }

  predicate Live(s: State, k: nat) {
    k in s.workers && s.workers[k].state.Running? && s.workers[k].gen == s.gen
  }

  predicate SomeLive(s: State) { exists k :: k in s.workers && Live(s, k) }

  // The id whose orders an unanswered lookup leaves unseen. An order that is only among the
  // open positions is in the history as well.
  function Unseen(call: Call, reply: Reply): set<string> {
    if call.Lookup? && !call.source.OpenPositions? && reply.NoAnswer? then {call.id} else {}
  }

  // A search is three calls, each of which answers or raises within CALL_TIMEOUT.
  predicate SearchesInTime(s: State, now: nat) {
    forall sid :: sid in s.sessions && HoldsLock(s.sessions[sid].phase) ==>
      var task := TaskOf(s.sessions[sid].phase);
      task.Create? && task.at.Look? ==> now <= task.at.from + FIND_SECONDS
  }

  function TaskOf(p: Phase): Task
    requires HoldsLock(p)
  {
    if p.Ready? then p.task else p.job
  }

  predicate Enabled(s: State, step: Step) {
    match step
    case Enter(sid, _) => sid !in s.sessions
    case Drop(sid) =>
      sid in s.sessions && !HoldsLock(s.sessions[sid].phase)
    case Acquire(sid, _) => InPhase(s, sid, Waiting) && s.lock == None
    case Release(sid) => IsReady(s, sid)
    case SearchRecent(sid) =>
      IsReady(s, sid) && s.sessions[sid].phase.task.Create? && s.sessions[sid].phase.task.at.Start?
    case StartCall(sid, call) =>
      && IsReady(s, sid)
      && MayCall(s.sessions[sid].phase.task, call)
      && (s.sessions[sid].phase.task != Restart(Killed) ==> s.tracked == {})
    case Accept(key, _, _) =>
      Live(s, key) && s.workers[key].call.Send? && s.workers[key].placed == None
    case Return(key, reply) =>
      key in s.workers && s.workers[key].state.Running? && ReplyFits(s, s.workers[key], reply)
    case Resume(sid) =>
      IsCalling(s, sid) && s.workers[s.sessions[sid].phase.key].state.Returned?
    case TimeOut(sid) => IsCalling(s, sid)
    case BeginRestart(sid) => InPhase(s, sid, Ready(Handler))
    case Kill(sid, _) => InPhase(s, sid, Ready(Restart(Down)))
    case MonitorKill => true
    case Forget(sid) => InPhase(s, sid, Ready(Restart(Reconnected)))
    case OrderMoves(index, open) =>
      index < |s.orders| && (open ==> s.orders[index].pending || s.orders[index].open)
    case Tick(seconds) => SearchesInTime(s, s.now + seconds)
  }

  function AfterTimeout(task: Task): Task {
    match task
    case Create(id, at) => if at.Start? then task else Create(id, Over)
    case Restart(Killed) => Restart(Finished)
    case _ => task
  }

  function NextLook(id: string, source: Source, from: nat): Task {
    match source
    case PendingOrders => Create(id, Look(OpenPositions, from))
    case OpenPositions => Create(id, Look(OrderHistory, from))
    case OrderHistory => Create(id, Clear(from))
  }

  function AfterReply(task: Task, call: Call, reply: Reply): Task {
    match task
    case Create(id, Look(source, from)) =>
      if reply == Got(true) then Create(id, Over) else NextLook(id, source, from)
    case Create(id, Clear(_)) => if call.Send? then Create(id, Over) else task
    case Restart(Killed) => if reply == Got(true) then Restart(Reconnected) else Restart(Finished)
    case _ => task
  }

  function Acknowledge(s: State, w: Worker): State
  {
    if && w.call.Send? && w.call.viaId && w.state == Returned(Got(true))
       && w.placed.Some? && w.placed.value < |s.orders| then
      s.(recent := s.recent[w.call.comment := s.now],
         orders := s.orders[w.placed.value := s.orders[w.placed.value].(acked := true)])
    else s
  }

  function Apply(s: State, step: Step): State
    requires Enabled(s, step)
  {
    match step
    case Enter(sid, bypass) =>
      var phase := if s.depth + 1 > MAX_QUEUE_DEPTH && !bypass then Rejected else Waiting;
      s.(depth := s.depth + 1, sessions := s.sessions[sid := Session(bypass, phase)])
    case Drop(sid) => s.(depth := s.depth - 1, sessions := s.sessions - {sid})
    case Acquire(sid, clientId) =>
      var task := if clientId.Some? then Create(clientId.value, Start) else Handler;
      SetPhase(s, sid, Ready(task)).(lock := Some(sid))
    case Release(sid) => SetPhase(s, sid, Unlocked).(lock := None)
    case SearchRecent(sid) =>
      var id := s.sessions[sid].phase.task.id;
      var recent := Remembered(s.recent, s.now);
      var at := if id in recent then Over else Look(PendingOrders, s.now);
      SetPhase(s, sid, Ready(Create(id, at))).(recent := recent)
    case StartCall(sid, call) =>
      SetPhase(s, sid, Calling(s.sessions[sid].phase.task, s.nextKey)).(
        workers := s.workers[s.nextKey := Worker(call, s.gen, Running, None)],
        tracked := s.tracked + {s.nextKey},
        nextKey := s.nextKey + 1)
    case Accept(key, pending, open) =>
      var w := s.workers[key];
      s.(orders := s.orders + [Order(w.call.comment, w.call.viaId, s.now, pending, open, false)],
         workers := s.workers[key := w.(placed := Some(|s.orders|))])
    case Return(key, reply) =>
      s.(workers := s.workers[key := s.workers[key].(state := Returned(reply))],
         tracked := s.tracked - {key})
    case Resume(sid) =>
      var task := s.sessions[sid].phase.job;
      var w := s.workers[s.sessions[sid].phase.key];
      var next := SetPhase(s, sid, Ready(AfterReply(task, w.call, w.state.reply)));
      Acknowledge(next.(blind := s.blind + Unseen(w.call, w.state.reply)), w)
    case TimeOut(sid) => SetPhase(s, sid, Ready(AfterTimeout(s.sessions[sid].phase.job)))
    case BeginRestart(sid) => SetPhase(s, sid, Ready(Restart(Down)))
    case Kill(sid, gone) =>
      SetPhase(s, sid, Ready(Restart(Killed))).(
        gen := if gone then s.gen + 1 else s.gen, stray := s.stray || (!gone && SomeLive(s)))
    case MonitorKill => s.(gen := s.gen + 1)
    case Forget(sid) => SetPhase(s, sid, Ready(Restart(Finished))).(tracked := {})
    case OrderMoves(index, open) =>
      s.(orders := s.orders[index := s.orders[index].(pending := false, open := open)])
    case Tick(seconds) => s.(now := s.now + seconds)
  }

  predicate Runs(s: State, steps: seq<Step>)
    decreases |steps|
  {
    steps == [] || (Enabled(s, steps[0]) && Runs(Apply(s, steps[0]), steps[1..]))
  }

  function Exec(s: State, steps: seq<Step>): State
    requires Runs(s, steps)
    decreases |steps|
  {
    if steps == [] then s else Exec(Apply(s, steps[0]), steps[1..])
  }

  // ---------------------------------------------------------------- the lock and the calls

  predicate Admitted(t: Session) { !t.bypass && t.phase != Rejected }

  function AdmittedSessions(s: State): set<nat> {
    set sid | sid in s.sessions && Admitted(s.sessions[sid])
  }

  // One lock holder, exact queue depth, bounded admission.
  ghost predicate QueueInv(s: State) {
    && s.depth == |s.sessions|
    && |AdmittedSessions(s)| <= MAX_QUEUE_DEPTH
    && (forall sid :: sid in s.sessions ==> (HoldsLock(s.sessions[sid].phase) <==> s.lock == Some(sid)))
    && (s.lock.Some? ==> s.lock.value in s.sessions)
  }

  // A call that came back is untracked; a session waits only for a call of its own task.
  ghost predicate CallInv(s: State) {
    && (forall k :: k in s.workers ==> k < s.nextKey && s.workers[k].gen <= s.gen)
    && (forall k :: k in s.tracked ==> k in s.workers && s.workers[k].state.Running?)
    && (forall sid :: sid in s.sessions && s.sessions[sid].phase.Calling? ==>
          var p := s.sessions[sid].phase;
          p.key in s.workers && MayCall(p.job, s.workers[p.key].call))
  }

  ghost predicate NoneLive(s: State) { forall k :: !Live(s, k) }

  ghost predicate OnlyLive(s: State, key: nat) { forall k :: Live(s, k) ==> k == key }

  // What the lock holder's phase says about threads that can still reach the broker.
  ghost predicate Quiet(s: State, p: Phase) {
    match p
    case Ready(Restart(stage)) => stage.Killed? || stage.Reconnected? ==> NoneLive(s)
    case Ready(Create(_, at)) => (at.Look? && !at.source.PendingOrders?) || at.Clear? ==> NoneLive(s)
    case Calling(_, key) => OnlyLive(s, key)
    case _ => true
  }

  ghost predicate OnePerGeneration(s: State) {
    forall k, l :: (k in s.workers && l in s.workers && s.workers[k].state.Running? && s.workers[l].state.Running?
      && s.workers[k].gen == s.workers[l].gen) ==> k == l
  }

  // Every thread that can still reach the broker is tracked, and there is one a generation.
  ghost predicate SingleFlight(s: State) {
    && (forall k :: Live(s, k) ==> k in s.tracked)
    && OnePerGeneration(s)
    && (forall sid :: sid in s.sessions ==> Quiet(s, s.sessions[sid].phase))
  }

  lemma QueueKept(s: State, step: Step)
    requires QueueInv(s) && Enabled(s, step)
    ensures QueueInv(Apply(s, step))
  {
    if step.Enter? {
      EnterKeepsQueue(s, step.sid, step.bypass);
    } else if step.Drop? {
      DropKeepsQueue(s, step.sid);
    } else if step.StartCall? || step.Resume? || step.TimeOut? {
      CallStepKeepsQueue(s, step);
    } else if step.Accept? || step.Return? || step.MonitorKill? || step.OrderMoves? || step.Tick? {
      assert Apply(s, step).sessions == s.sessions;
      assert AdmittedSessions(Apply(s, step)) == AdmittedSessions(s);
    } else {
      TaskStepKeepsQueue(s, step);
    }
  }

  // One session moves to another phase, taking or giving up the lock with it.
  lemma MoveKeepsQueue(s: State, t: State, sid: nat, p: Phase)
    requires QueueInv(s) && sid in s.sessions && !p.Rejected? && !s.sessions[sid].phase.Rejected?
    requires t.sessions == s.sessions[sid := s.sessions[sid].(phase := p)] && t.depth == s.depth
    requires HoldsLock(p) ==> t.lock == Some(sid) && s.lock in {None, Some(sid)}
    requires !HoldsLock(p) ==> t.lock == None && s.lock == Some(sid)
    ensures QueueInv(t)
  {
    assert t.sessions.Keys == s.sessions.Keys;
    assert AdmittedSessions(t) == AdmittedSessions(s);
  }

  lemma CallStepKeepsQueue(s: State, step: Step)
    requires QueueInv(s) && Enabled(s, step) && (step.StartCall? || step.Resume? || step.TimeOut?)
    ensures QueueInv(Apply(s, step))
  {
    var t := Apply(s, step);
    MoveKeepsQueue(s, t, step.sid, t.sessions[step.sid].phase);
  }

  lemma TaskStepKeepsQueue(s: State, step: Step)
    requires QueueInv(s) && Enabled(s, step)
    requires step.Acquire? || step.Release? || step.SearchRecent? || step.BeginRestart? || step.Kill? || step.Forget?
    ensures QueueInv(Apply(s, step))
  {
    var t := Apply(s, step);
    MoveKeepsQueue(s, t, step.sid, t.sessions[step.sid].phase);
  }

  lemma EnterKeepsQueue(s: State, sid: nat, bypass: bool)
    requires QueueInv(s) && Enabled(s, Enter(sid, bypass))
    ensures QueueInv(Apply(s, Enter(sid, bypass)))
  {
    var t := Apply(s, Enter(sid, bypass));
    var a := AdmittedSessions(s);
    OneMore(s.sessions, sid, t.sessions[sid]);
    if Admitted(t.sessions[sid]) {
      assert AdmittedSessions(t) == a + {sid};
      SubsetSize(a, s.sessions.Keys);
    } else {
      assert AdmittedSessions(t) == a;
    }
  }

  lemma OneMore<K, V>(m: map<K, V>, k: K, v: V)
    requires k !in m
    ensures |m[k := v]| == |m| + 1
  {
    assert m[k := v].Keys == m.Keys + {k};
  }

  lemma DropKeepsQueue(s: State, sid: nat)
    requires QueueInv(s) && Enabled(s, Drop(sid))
    ensures QueueInv(Apply(s, Drop(sid)))
  {
    var t := Apply(s, Drop(sid));
    assert t.sessions.Keys == s.sessions.Keys - {sid};
    SubsetSize(AdmittedSessions(t), AdmittedSessions(s));
  }

  lemma {:induction false} SubsetSize<T>(a: set<T>, b: set<T>)
    requires a <= b
    ensures |a| <= |b|
  {
    if a != {} {
      var x :| x in a;
      SubsetSize(a - {x}, b - {x});
    }
  }

  lemma CallKept(s: State, step: Step)
    requires QueueInv(s) && CallInv(s) && Enabled(s, step)
    ensures CallInv(Apply(s, step))
  {
    if step.StartCall? {
      StartKeepsCalls(s, step);
    } else if step.Accept? || step.Return? {
      WorkerKeepsCalls(s, step);
    } else if step.Resume? || step.TimeOut? {
      EndKeepsCalls(s, step);
    } else if step.Enter? || step.Drop? || step.Acquire? || step.Release? || step.SearchRecent? {
      SessionKeepsCalls(s, step);
    } else if step.BeginRestart? || step.Kill? || step.Forget? {
      RestartKeepsCalls(s, step);
    } else {
      RestKeepsCalls(s, step);
    }
  }

  lemma StartKeepsCalls(s: State, step: Step)
    requires QueueInv(s) && CallInv(s) && Enabled(s, step) && step.StartCall?
    ensures CallInv(Apply(s, step))
  {
  }

  lemma WorkerKeepsCalls(s: State, step: Step)
    requires QueueInv(s) && CallInv(s) && Enabled(s, step) && (step.Accept? || step.Return?)
    ensures CallInv(Apply(s, step))
  {
  }

  lemma EndKeepsCalls(s: State, step: Step)
    requires QueueInv(s) && CallInv(s) && Enabled(s, step) && (step.Resume? || step.TimeOut?)
    ensures CallInv(Apply(s, step))
  {
  }

  lemma SessionKeepsCalls(s: State, step: Step)
    requires QueueInv(s) && CallInv(s) && Enabled(s, step)
    requires step.Enter? || step.Drop? || step.Acquire? || step.Release? || step.SearchRecent?
    ensures CallInv(Apply(s, step))
  {
  }

  lemma RestartKeepsCalls(s: State, step: Step)
    requires QueueInv(s) && CallInv(s) && Enabled(s, step) && (step.BeginRestart? || step.Kill? || step.Forget?)
    ensures CallInv(Apply(s, step))
  {
  }

  lemma RestKeepsCalls(s: State, step: Step)
    requires QueueInv(s) && CallInv(s) && Enabled(s, step) && (step.MonitorKill? || step.OrderMoves? || step.Tick?)
    ensures CallInv(Apply(s, step))
  {
  }

  // A call starts, and the tracked threads are forgotten, only while no thread can reach
  // the broker: the guard saw nothing tracked, or the terminal was just killed.
  lemma NothingLiveBefore(s: State, step: Step)
    requires QueueInv(s) && CallInv(s) && SingleFlight(s) && Enabled(s, step)
    requires step.StartCall? || step.Forget?
    ensures NoneLive(s)
  {
    assert Quiet(s, s.sessions[step.sid].phase);
  }

  // Forgetting leaves no thread that is tracked or can reach the broker.
  lemma ForgetLeavesNone(s: State, sid: nat)
    requires QueueInv(s) && CallInv(s) && SingleFlight(s) && Enabled(s, Forget(sid))
    ensures var t := Apply(s, Forget(sid)); t.tracked == {} && NoneLive(t)
  {
    NothingLiveBefore(s, Forget(sid));
    LiveShrinks(s, Forget(sid));
  }

  lemma SingleFlightKept(s: State, step: Step)
    requires QueueInv(s) && CallInv(s) && SingleFlight(s) && Enabled(s, step)
    requires !Apply(s, step).stray
    ensures SingleFlight(Apply(s, step))
  {
    var t := Apply(s, step);
    GenerationsKept(s, step);
    TrackedKept(s, step);
    forall sid | sid in t.sessions
      ensures Quiet(t, t.sessions[sid].phase)
    {
      QuietKept(s, step, sid);
    }
  }

  lemma TrackedKept(s: State, step: Step)
    requires QueueInv(s) && CallInv(s) && SingleFlight(s) && Enabled(s, step)
    ensures forall k :: Live(Apply(s, step), k) ==> k in Apply(s, step).tracked
  {
    LiveShrinks(s, step);
    if step.StartCall? || step.Forget? {
      NothingLiveBefore(s, step);
    }
  }

  lemma GenerationsKept(s: State, step: Step)
    requires QueueInv(s) && CallInv(s) && SingleFlight(s) && Enabled(s, step)
    ensures OnePerGeneration(Apply(s, step))
  {
    var t := Apply(s, step);
    if step.StartCall? {
      NothingLiveBefore(s, step);
      forall k | k in s.workers && s.workers[k].state.Running?
        ensures s.workers[k].gen != s.gen
      {
        assert !Live(s, k);
      }
    }
  }

  // No step but the start of a call brings a thread back to the broker.
  lemma LiveShrinks(s: State, step: Step)
    requires CallInv(s) && Enabled(s, step)
    ensures forall k :: Live(Apply(s, step), k) ==> Live(s, k) || (step.StartCall? && k == s.nextKey)
  {
  }

  lemma QuietKept(s: State, step: Step, sid: nat)
    requires QueueInv(s) && CallInv(s) && SingleFlight(s) && Enabled(s, step)
    requires !Apply(s, step).stray && sid in Apply(s, step).sessions
    ensures Quiet(Apply(s, step), Apply(s, step).sessions[sid].phase)
  {
    var t := Apply(s, step);
    LiveShrinks(s, step);
    if step.StartCall? {
      NothingLiveBefore(s, step);
    } else if sid in s.sessions {
      assert Quiet(s, s.sessions[sid].phase);
      QuietStays(s, t, s.sessions[sid].phase);
      if step.Resume? || step.TimeOut? {
        QuietAfterCall(s, step, sid);
      } else if step.Kill? {
        QuietAfterKill(s, step, sid);
      } else {
        QuietAfterRest(s, step, sid);
      }
    }
  }

  lemma QuietAfterCall(s: State, step: Step, sid: nat)
    requires QueueInv(s) && CallInv(s) && Enabled(s, step) && (step.Resume? || step.TimeOut?) && sid in s.sessions
    requires Quiet(s, s.sessions[sid].phase) && Quiet(Apply(s, step), s.sessions[sid].phase)
    ensures Quiet(Apply(s, step), Apply(s, step).sessions[sid].phase)
  {
  }

  lemma QuietAfterKill(s: State, step: Step, sid: nat)
    requires QueueInv(s) && CallInv(s) && Enabled(s, step) && step.Kill? && sid in s.sessions
    requires !Apply(s, step).stray && Quiet(Apply(s, step), s.sessions[sid].phase)
    ensures Quiet(Apply(s, step), Apply(s, step).sessions[sid].phase)
  {
  }

  lemma QuietAfterRest(s: State, step: Step, sid: nat)
    requires Enabled(s, step) && !step.StartCall? && !step.Resume? && !step.TimeOut? && !step.Kill?
    requires sid in s.sessions && sid in Apply(s, step).sessions && Quiet(Apply(s, step), s.sessions[sid].phase)
    ensures Quiet(Apply(s, step), Apply(s, step).sessions[sid].phase)
  {
  }

  lemma QuietStays(s: State, t: State, p: Phase)
    requires Quiet(s, p)
    requires forall k :: Live(t, k) ==> Live(s, k)
    ensures Quiet(t, p)
  {
  }
}
