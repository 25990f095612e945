/**
 The background re-apply of the allowlist (mt5api/chartctl/webrequest_apply.py): many
 requests, one running flag and one pending slot under a lock, and a thread that runs passes
 until no further one is asked for.
 */
module Reapply {
  import opened Options

  datatype Ask = Ask(delay: nat, reason: string)

  // A thread of _reapply_loop: in a pass, or between the pass and its locked block.
  datatype Loop = InPass(ask: Ask) | PassOver

  /** `starting` holds the asks whose request set the flag but has not started its thread yet,
      and `failed` counts the thread starts that raised. `asked` is every accepted request in
      order; `seen` is how many of them the latest pass to start came after. */
  datatype State = State(running: bool, again: Option<Ask>, starting: seq<Ask>, loops: seq<Loop>, failed: nat,
                         asked: seq<Ask>, seen: nat, passes: seq<Ask>)

  datatype Step =
    | Request(ask: Ask)
    | StartThread(i: nat)
    | StartFails(i: nat)
    | EndPass(i: nat)
    | Settle(i: nat)

  const IDLE := State(false, None, [], [], 0, [], 0, [])

  function Without<T>(s: seq<T>, i: nat): seq<T>
    requires i < |s|
  {
    s[..i] + s[i + 1..]
  }

  predicate Enabled(s: State, step: Step) {
    match step
    case Request(_) => true
    case StartThread(i) => i < |s.starting|
    case StartFails(i) => i < |s.starting|
    case EndPass(i) => i < |s.loops| && s.loops[i].InPass?
    case Settle(i) => i < |s.loops| && s.loops[i].PassOver?
  }

  // A pass starts: every request accepted so far came before it.
  function Begin(s: State, ask: Ask): State { s.(seen := |s.asked|, passes := s.passes + [ask]) }

  function Apply(s: State, step: Step): State
    requires Enabled(s, step)
  {
    match step
    case Request(ask) =>
      if s.running then s.(again := Some(ask), asked := s.asked + [ask])
      else s.(running := true, starting := s.starting + [ask], asked := s.asked + [ask])
    case StartThread(i) =>
      Begin(s.(starting := Without(s.starting, i), loops := s.loops + [InPass(s.starting[i])]), s.starting[i])
    case StartFails(i) => s.(starting := Without(s.starting, i), failed := s.failed + 1)
    case EndPass(i) => s.(loops := s.loops[i := PassOver])
    case Settle(i) =>
      if s.again == None then s.(running := false, loops := Without(s.loops, i))
      else Begin(s.(loops := s.loops[i := InPass(s.again.value)], again := None), s.again.value)
  }

  ghost predicate Runs(s: State, steps: seq<Step>)
    decreases |steps|
  {
    steps == [] || (Enabled(s, steps[0]) && Runs(Apply(s, steps[0]), steps[1..]))
  }

  ghost function Exec(s: State, steps: seq<Step>): State
    requires Runs(s, steps)
    decreases |steps|
  {
    if steps == [] then s else Exec(Apply(s, steps[0]), steps[1..])
  }

  // ---------------------------------------------------------------- what every step keeps

  // The flag stands for one thread, live or being started, or for one start that failed.
  ghost predicate Flag(s: State) {
    |s.starting| + |s.loops| + s.failed == if s.running then 1 else 0
  }

  // A pending pass is for the latest request; without one, the latest pass came after it.
  ghost predicate Pending(s: State) {
    && s.seen <= |s.asked|
    && (s.again.Some? ==> s.running && s.asked != [] && s.again.value == s.asked[|s.asked| - 1])
    && (s.again.None? && s.starting == [] && s.failed == 0 ==> s.seen == |s.asked|)
    && (s.starting != [] && s.again.None? ==> s.asked != [] && s.starting[0] == s.asked[|s.asked| - 1])
  }

  ghost predicate Inv(s: State) {
    Flag(s) && Pending(s) && |s.passes| + |s.starting| + s.failed <= |s.asked| + PendingSlack(s)
  }

  // Every pass but the pending one answers a request of its own.
  function PendingSlack(s: State): int { if s.again.Some? then -1 else 0 }

  lemma InvKept(s: State, step: Step)
    requires Inv(s) && Enabled(s, step)
    ensures Inv(Apply(s, step))
  {
  }

  lemma {:induction false} InvRun(s: State, steps: seq<Step>)
    requires Inv(s) && Runs(s, steps)
    ensures Inv(Exec(s, steps))
    decreases |steps|
  {
    if steps != [] {
      InvKept(s, steps[0]);
      InvRun(Apply(s, steps[0]), steps[1..]);
    }
  }

  /** The flag is up exactly while one thread is live or being started, unless a start failed;
      then it is up for good with no thread. While it is down, a pass has started after every
      accepted request. No more passes start than requests were accepted. */
  lemma NoRequestLost(steps: seq<Step>)
    requires Runs(IDLE, steps)
    ensures var s := Exec(IDLE, steps);
            && (s.failed == 0 <==> (s.running <==> |s.starting| + |s.loops| == 1))
            && (s.failed > 0 ==> s.running && s.starting == [] && s.loops == [])
            && |s.starting| + |s.loops| <= 1
            && (!s.running ==> s.failed == 0 && s.again.None? && s.seen == |s.asked|)
            && |s.passes| + (if s.again.Some? then 1 else 0) <= |s.asked|
  {
    InvRun(IDLE, steps);
  }

  /** A pending pass, when it starts, carries the latest request's delay and reason. */
  lemma PendingIsLatest(steps: seq<Step>, i: nat)
    requires Runs(IDLE, steps)
    requires var s := Exec(IDLE, steps); Enabled(s, Settle(i)) && s.again.Some?
    ensures var s := Exec(IDLE, steps);
            var t := Apply(s, Settle(i));
            s.asked != [] && t.loops == [InPass(s.asked[|s.asked| - 1])] && t.seen == |t.asked| && t.again.None?
  {
    InvRun(IDLE, steps);
  }

  // ---------------------------------------------------------------- coming to rest

  // The steps that finish the work at hand.
  function Finish(s: State): seq<Step> {
    (if s.starting != [] then [StartThread(0), EndPass(0)]
     else if s.loops != [] && s.loops[0].InPass? then [EndPass(0)] else [])
    + (if s.running then [Settle(0)] else [])
    + (if s.again.Some? then [EndPass(0), Settle(0)] else [])
  }

  lemma Chain(s: State, step: Step, rest: seq<Step>)
    requires Enabled(s, step) && Runs(Apply(s, step), rest)
    ensures Runs(s, [step] + rest) && Exec(s, [step] + rest) == Exec(Apply(s, step), rest)
  {
    assert ([step] + rest)[1..] == rest;
  }

  lemma SettleNothing(s: State)
    requires Inv(s) && s.failed == 0 && s.loops == [PassOver] && s.again.None?
    ensures Runs(s, [Settle(0)]) && !Exec(s, [Settle(0)]).running
    ensures Exec(s, [Settle(0)]).passes == s.passes
  {
    Chain(s, Settle(0), []);
    assert [Settle(0)] == [Settle(0)] + [];
  }

  lemma SettlePending(s: State)
    requires Inv(s) && s.failed == 0 && s.loops == [PassOver]
    ensures Runs(s, Work(s)) && !Exec(s, Work(s)).running && |Exec(s, Work(s)).passes| <= |s.passes| + 1
  {
    if s.again.None? {
      SettleNothing(s);
      assert [Settle(0)] + [] == [Settle(0)];
    } else {
      var t := Apply(s, Settle(0));
      InvKept(s, Settle(0));
      var u := Apply(t, EndPass(0));
      InvKept(t, EndPass(0));
      assert u.loops == [PassOver];
      SettleNothing(u);
      Chain(t, EndPass(0), [Settle(0)]);
      assert [EndPass(0)] + [Settle(0)] == [EndPass(0), Settle(0)];
      Chain(s, Settle(0), [EndPass(0), Settle(0)]);
    }
  }

  /** From any reachable state without a failed start, finishing the work at hand, at most the
      pass that is due and one more, lowers the flag with every request served. */
  lemma ComesToRest(steps: seq<Step>)
    requires Runs(IDLE, steps) && Exec(IDLE, steps).failed == 0
    ensures var s := Exec(IDLE, steps);
            |Finish(s)| <= 5 && Rests(s, Finish(s))
  {
    InvRun(IDLE, steps);
    var s := Exec(IDLE, steps);
    if s.running {
      FinishRuns(s);
    }
  }

  function Work(s: State): seq<Step> { [Settle(0)] + (if s.again.Some? then [EndPass(0), Settle(0)] else []) }

  // The work brings the state to rest with every request so far served.
  ghost predicate Rests(s: State, work: seq<Step>) {
    && Runs(s, work) && !Exec(s, work).running && Exec(s, work).seen == |s.asked|
    && |Exec(s, work).passes| <= |s.passes| + 2
  }

  lemma FinishRuns(s: State)
    requires Inv(s) && s.failed == 0 && s.running
    ensures Rests(s, Finish(s))
  {
    if s.starting != [] {
      FinishStart(s);
      assert Finish(s) == [StartThread(0)] + ([EndPass(0)] + Work(s));
    } else if s.loops[0].InPass? {
      FinishPass(s);
      assert Finish(s) == [EndPass(0)] + Work(s);
    } else {
      assert s.loops == [PassOver];
      FinishOver(s);
      assert Finish(s) == Work(s);
    }
  }

  lemma FinishOver(s: State)
    requires Inv(s) && s.failed == 0 && s.loops == [PassOver]
    ensures Rests(s, Work(s)) && |Exec(s, Work(s)).passes| <= |s.passes| + 1
  {
    SettlePending(s);
    SeenAtRest(s, Work(s));
  }

  lemma FinishPass(s: State)
    requires Inv(s) && s.failed == 0 && s.running && s.starting == [] && s.loops[0].InPass?
    ensures Rests(s, [EndPass(0)] + Work(s)) && |Exec(s, [EndPass(0)] + Work(s)).passes| <= |s.passes| + 1
  {
    var u := Apply(s, EndPass(0));
    InvKept(s, EndPass(0));
    assert u.loops == [PassOver] && Work(u) == Work(s);
    FinishOver(u);
    Chain(s, EndPass(0), Work(s));
  }

  lemma FinishStart(s: State)
    requires Inv(s) && s.failed == 0 && s.starting != []
    ensures Rests(s, [StartThread(0)] + ([EndPass(0)] + Work(s)))
  {
    var t := Apply(s, StartThread(0));
    InvKept(s, StartThread(0));
    assert Work(t) == Work(s);
    FinishPass(t);
    Chain(s, StartThread(0), [EndPass(0)] + Work(s));
  }

  lemma SeenAtRest(s: State, work: seq<Step>)
    requires Inv(s) && Runs(s, work) && !Exec(s, work).running && NoRequests(work)
    ensures Exec(s, work).seen == |s.asked|
  {
    InvRun(s, work);
    AskedKept(s, work);
  }

  ghost predicate NoRequests(work: seq<Step>) { forall i :: 0 <= i < |work| ==> !work[i].Request? }

  lemma {:induction false} AskedKept(s: State, work: seq<Step>)
    requires Runs(s, work) && NoRequests(work)
    ensures Exec(s, work).asked == s.asked
    decreases |work|
  {
    if work != [] {
      AskedKept(Apply(s, work[0]), work[1..]);
    }
  }

  // ---------------------------------------------------------------- a start that fails

  /** Once a thread start has failed no pass ever starts again, whatever is asked for. */
  lemma {:induction false} FailedStartIsFinal(s: State, steps: seq<Step>)
    requires Inv(s) && s.failed > 0 && Runs(s, steps)
    ensures Exec(s, steps).passes == s.passes && Exec(s, steps).running
    decreases |steps|
  {
    if steps != [] {
      InvKept(s, steps[0]);
      FailedStartIsFinal(Apply(s, steps[0]), steps[1..]);
    }
  }

  /** A thread that cannot be started, at the very first request already, leaves the flag up
      with no thread: no continuation ever runs a pass. */
  lemma FailedStartSticks(ask: Ask)
    ensures var steps := [Request(ask), StartFails(0)];
            && Runs(IDLE, steps) && Exec(IDLE, steps).failed == 1
            && forall more :: Runs(Exec(IDLE, steps), more) ==>
                 Exec(Exec(IDLE, steps), more).running && Exec(Exec(IDLE, steps), more).passes == []
  {
    var asked := Apply(IDLE, Request(ask));
    var stuck := Apply(asked, StartFails(0));
    Chain(asked, StartFails(0), []);
    Chain(IDLE, Request(ask), [StartFails(0)] + []);
    assert [Request(ask)] + ([StartFails(0)] + []) == [Request(ask), StartFails(0)];
    InvKept(IDLE, Request(ask));
    InvKept(asked, StartFails(0));
    forall more | Runs(stuck, more)
      ensures Exec(stuck, more).running && Exec(stuck, more).passes == []
    {
      FailedStartIsFinal(stuck, more);
    }
  }

  // ---------------------------------------------------------------- one pass

  const ATTEMPTS := 3

  // What a turn of the loop in _reapply_once finds: a backtest, no URLs, or how the apply ends.
  datatype Turn = Busy | NoUrls | Tried(ok: bool)

  datatype End = Waiting(tried: nat) | NothingStored(tried: nat) | Done(tried: nat) | GaveUp(tried: nat)

  function Idle(turns: seq<Turn>): seq<Turn> {
    if turns == [] then [] else (if turns[0].Busy? then [] else [turns[0]]) + Idle(turns[1..])
  }

  // The end of a pass that finds no backtest running.
  function EndOf(turns: seq<Turn>, tried: nat): (end: End)
    requires tried <= ATTEMPTS
    ensures end.tried <= ATTEMPTS
    ensures end.GaveUp? ==> end.tried == ATTEMPTS
  {
    if tried == ATTEMPTS then GaveUp(tried)
    else if turns == [] then Waiting(tried)
    else match turns[0]
      case Busy => Waiting(tried)
      case NoUrls => NothingStored(tried)
      case Tried(ok) => if ok then Done(tried + 1) else EndOf(turns[1..], tried + 1)
  }

  /** A pass over the turns it gets: a running backtest delays it and costs no attempt. */
  method ReapplyOnce(turns: seq<Turn>) returns (end: End)
    ensures end == EndOf(Idle(turns), 0)
  {
    var tried := 0;
    var i := 0;
    while tried < ATTEMPTS && i < |turns|
      invariant 0 <= i <= |turns| && tried <= ATTEMPTS
      invariant EndOf(Idle(turns[i..]), tried) == EndOf(Idle(turns), 0)
    {
      assert turns[i..][1..] == turns[i + 1..];
      IdleTurn(turns[i..]);
      match turns[i] {
        case Busy =>
        case NoUrls => return NothingStored(tried);
        case Tried(ok) =>
          tried := tried + 1;
          if ok {
            return Done(tried);
          }
      }
      i := i + 1;
    }
    return if tried == ATTEMPTS then GaveUp(tried) else Waiting(tried);
  }

  lemma IdleTurn(turns: seq<Turn>)
    requires turns != []
    ensures turns[0].Busy? ==> Idle(turns) == Idle(turns[1..])
    ensures !turns[0].Busy? ==> Idle(turns)[0] == turns[0] && Idle(turns)[1..] == Idle(turns[1..])
  {
  }

  /** A pass gives up exactly when its first three turns without a backtest all tried and failed. */
  lemma GivesUpIff(turns: seq<Turn>)
    ensures EndOf(Idle(turns), 0).GaveUp? <==>
            |Idle(turns)| >= ATTEMPTS && forall i :: 0 <= i < ATTEMPTS ==> Idle(turns)[i] == Tried(false)
  {
    GivesUpFrom(Idle(turns), 0);
  }

  lemma {:induction false} GivesUpFrom(turns: seq<Turn>, tried: nat)
    requires tried <= ATTEMPTS
    ensures EndOf(turns, tried).GaveUp? <==>
            |turns| >= ATTEMPTS - tried && forall i :: 0 <= i < ATTEMPTS - tried ==> turns[i] == Tried(false)
  {
    if tried < ATTEMPTS && turns != [] && turns[0] == Tried(false) {
      GivesUpFrom(turns[1..], tried + 1);
      assert forall i :: 0 < i < |turns| ==> turns[i] == turns[1..][i - 1];
    }
  }
}
