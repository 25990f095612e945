/**
 The reboot guard (scripts/reboot_guard.py) against any number of API processes
 (mt5api/reboot_guard.py, mt5api/server.py): poll until idle, raise the drain flag, wait
 out the settle time, poll once more, reboot.

 Time is real. A write registers within `gapBound` of looking at the flag.
 */
module DrainProtocol {
  import opened Options
  import Busy = BusyApi

  const DRAIN_SETTLE_SECONDS := 3.0
  const DRAIN_FLAG_MAX_AGE_SECONDS := 120.0

  // How far the guard is with one API's answer.
  datatype Answer = Nothing | SawWrites(any: bool) | SawWorkers(any: bool, workers: set<nat>)

  datatype Guard =
    | Ask(second: bool, api: nat, answer: Answer, busy: bool)
    | Raise | Settle(since: real) | Drop | Nap | Idle | Postponed | Rebooted

  // `missed` is history: an API did not answer the second poll since the flag went up.
  datatype State = State(now: real, flag: Option<real>, apis: seq<Busy.Api>, guard: Guard, missed: bool)

  datatype Step =
    | ApiActs(i: nat, act: Busy.Act)
    | ReadWrites | ReadWorkers | ReadJobs | NoAnswer | EndPoll
    | RaiseFlag | SettleOver | DropFlag | Wake | GiveUp | Reboot
    | Tick(seconds: real)

  function Init(n: nat, flag: Option<real>): State {
    State(0.0, flag, seq(n, i => Busy.FRESH), Ask(false, 0, Nothing, false), false)
  }

  predicate Draining(s: State) {
    s.flag.Some? && 0.0 <= s.now - s.flag.value <= DRAIN_FLAG_MAX_AGE_SECONDS
  }

  predicate Asking(s: State) { s.guard.Ask? && s.guard.api < |s.apis| }

  predicate GapsInTime(s: State, now: real, gapBound: real) {
    forall i :: 0 <= i < |s.apis| ==> forall r :: r in s.apis[i].gap ==> now <= s.apis[i].gap[r] + gapBound
  }

  predicate Enabled(s: State, step: Step, gapBound: real) {
    s.guard != Rebooted &&
    match step
    case ApiActs(i, act) =>
      i < |s.apis| && Busy.Enabled(s.apis[i], act) && (act.Admit? ==> act.at == s.now && !Draining(s))
    case ReadWrites => Asking(s) && s.guard.answer.Nothing?
    case ReadWorkers => Asking(s) && s.guard.answer.SawWrites?
    case ReadJobs => Asking(s) && s.guard.answer.SawWorkers?
    case NoAnswer => Asking(s)
    case EndPoll => s.guard.Ask? && s.guard.api >= |s.apis|
    case RaiseFlag => s.guard == Raise
    case SettleOver => s.guard.Settle? && s.now >= s.guard.since + DRAIN_SETTLE_SECONDS
    case DropFlag => s.guard == Drop
    case Wake => s.guard == Nap
    case GiveUp => s.guard == Nap
    case Reboot => s.guard == Idle && s.flag.Some? && s.now <= s.flag.value + DRAIN_FLAG_MAX_AGE_SECONDS
    case Tick(seconds) => seconds >= 0.0 && GapsInTime(s, s.now + seconds, gapBound)
  }

  function Apply(s: State, step: Step, gapBound: real): State
    requires Enabled(s, step, gapBound)
  {
    match step
    case ApiActs(i, act) => s.(apis := s.apis[i := Busy.Apply(s.apis[i], act)])
    case ReadWrites => s.(guard := s.guard.(answer := SawWrites(s.apis[s.guard.api].writes != map[])))
    case ReadWorkers => s.(guard := s.guard.(answer := SawWorkers(s.guard.answer.any, s.apis[s.guard.api].workers)))
    case ReadJobs =>
      var jobs := s.apis[s.guard.api].jobs;
      var saw := s.guard.answer;
      var busy := saw.any || exists j :: j in jobs && (jobs[j] || j in saw.workers);
      s.(guard := Ask(s.guard.second, s.guard.api + 1, Nothing, s.guard.busy || busy))
    case NoAnswer =>
      s.(guard := Ask(s.guard.second, s.guard.api + 1, Nothing, s.guard.busy), missed := s.missed || s.guard.second)
    case EndPoll => s.(guard := if s.guard.busy then (if s.guard.second then Drop else Nap)
                       else if s.guard.second then Idle else Raise)
    case RaiseFlag => s.(flag := Some(s.now), guard := Settle(s.now), missed := false)
    case SettleOver => s.(guard := Ask(true, 0, Nothing, false))
    case DropFlag => s.(flag := None, guard := Nap)
    case Wake => s.(guard := Ask(false, 0, Nothing, false))
    case GiveUp => s.(guard := Postponed)
    case Reboot => s.(guard := Rebooted)
    case Tick(seconds) => s.(now := s.now + seconds)
  }

  predicate Runs(s: State, steps: seq<Step>, gapBound: real)
    decreases |steps|
  {
    steps == [] || (Enabled(s, steps[0], gapBound) && Runs(Apply(s, steps[0], gapBound), steps[1..], gapBound))
  }

  function Exec(s: State, steps: seq<Step>, gapBound: real): State
    requires Runs(s, steps, gapBound)
    decreases |steps|
  {
    if steps == [] then s else Exec(Apply(s, steps[0], gapBound), steps[1..], gapBound)
  }

  // ---------------------------------------------------------------- safety

  // The flag is up from Settle to Idle, and old enough from the second poll on.
  predicate FlagUp(s: State) {
    s.guard.Settle? || (s.guard.Ask? && s.guard.second) || s.guard.Idle? || s.guard.Rebooted?
  }

  ghost predicate FlagInv(s: State) {
    && (FlagUp(s) || s.guard.Drop? ==> s.flag.Some? && s.flag.value <= s.now)
    && (s.guard.Settle? ==> s.guard.since == s.flag.value)
    && (FlagUp(s) && !s.guard.Settle? ==> s.now >= s.flag.value + DRAIN_SETTLE_SECONDS)
  }

  // While the flag counts, only writes that looked at it before it went up are on their way.
  ghost predicate GapInv(s: State) {
    forall i :: 0 <= i < |s.apis| ==> forall r :: r in s.apis[i].gap ==>
      s.apis[i].gap[r] <= s.now && (FlagUp(s) && Draining(s) ==> s.apis[i].gap[r] <= s.flag.value)
  }

  ghost predicate Quiet(a: Busy.Api) { a.gap == map[] && !Busy.Working(a) }

  // What the second poll has established so far, as long as the flag counts.
  ghost predicate PollInv(s: State) {
    Draining(s) && !s.missed ==>
      match s.guard
      case Ask(second, api, answer, busy) =>
        second && !busy ==>
          && (forall i :: 0 <= i < api && i < |s.apis| ==> Quiet(s.apis[i]))
          && (api < |s.apis| && !answer.Nothing? && !answer.any ==> s.apis[api].writes == map[])
          && (api < |s.apis| && answer.SawWorkers? && !answer.any ==> s.apis[api].workers <= answer.workers)
      case Idle => forall i :: 0 <= i < |s.apis| ==> Quiet(s.apis[i])
      case Rebooted => forall i :: 0 <= i < |s.apis| ==> Quiet(s.apis[i])
      case _ => true
  }

  ghost predicate Inv(s: State, gapBound: real) {
    && (forall i :: 0 <= i < |s.apis| ==> Busy.Valid(s.apis[i]))
    && FlagInv(s) && GapInv(s) && GapsInTime(s, s.now, gapBound) && PollInv(s)
    && (s.guard.Rebooted? ==> Draining(s))
  }

  // Settled: no write is between its look at the flag and its registration.
  lemma NothingOnTheWay(s: State, gapBound: real)
    requires Inv(s, gapBound) && gapBound < DRAIN_SETTLE_SECONDS
    requires FlagUp(s) && !s.guard.Settle? && Draining(s)
    ensures forall i :: 0 <= i < |s.apis| ==> s.apis[i].gap == map[]
  {
    forall i | 0 <= i < |s.apis|
      ensures s.apis[i].gap == map[]
    {
      if s.apis[i].gap != map[] {
        var r :| r in s.apis[i].gap;
        assert false;
      }
    }
  }

  // An API with nothing on its way and nothing registered starts nothing.
  lemma StillQuiet(a: Busy.Api, act: Busy.Act)
    requires Busy.Valid(a) && Busy.Enabled(a, act) && !act.Admit? && a.gap == map[] && a.writes == map[]
    ensures var b := Busy.Apply(a, act); b.writes == map[] && b.workers <= a.workers && (Quiet(a) ==> Quiet(b))
  {
  }

  lemma ApiActsKept(s: State, i: nat, act: Busy.Act, gapBound: real)
    requires Inv(s, gapBound) && gapBound < DRAIN_SETTLE_SECONDS && Enabled(s, ApiActs(i, act), gapBound) &&
             gapBound >= 0.0
    ensures Inv(Apply(s, ApiActs(i, act), gapBound), gapBound)
  {
    var t := Apply(s, ApiActs(i, act), gapBound);
    Busy.ValidKept(s.apis[i], act);
    if FlagUp(s) && !s.guard.Settle? && Draining(s) {
      NothingOnTheWay(s, gapBound);
      if s.apis[i].writes == map[] {
        StillQuiet(s.apis[i], act);
      }
    }
  }

  lemma GuardStepKept(s: State, step: Step, gapBound: real)
    requires Inv(s, gapBound) && gapBound < DRAIN_SETTLE_SECONDS && Enabled(s, step, gapBound) && !step.ApiActs?
    ensures Inv(Apply(s, step, gapBound), gapBound)
  {
    if FlagUp(s) && !s.guard.Settle? && Draining(s) {
      NothingOnTheWay(s, gapBound);
    }
    if step.ReadWrites? || step.ReadWorkers? || step.ReadJobs? || step.NoAnswer? {
      ReadKept(s, step, gapBound);
    } else {
      FlagStepKept(s, step, gapBound);
    }
  }

  ghost predicate Settled(s: State) {
    FlagUp(s) && !s.guard.Settle? && Draining(s) ==> forall i :: 0 <= i < |s.apis| ==> s.apis[i].gap == map[]
  }

  lemma ReadKept(s: State, step: Step, gapBound: real)
    requires Inv(s, gapBound) && Settled(s) && Enabled(s, step, gapBound)
    requires step.ReadWrites? || step.ReadWorkers? || step.ReadJobs? || step.NoAnswer?
    ensures Inv(Apply(s, step, gapBound), gapBound)
  {
  }

  lemma FlagStepKept(s: State, step: Step, gapBound: real)
    requires Inv(s, gapBound) && Enabled(s, step, gapBound) && !step.ApiActs?
    requires !step.ReadWrites? && !step.ReadWorkers? && !step.ReadJobs? && !step.NoAnswer?
    ensures Inv(Apply(s, step, gapBound), gapBound)
  {
  }

  lemma {:induction false} InvExec(s: State, steps: seq<Step>, gapBound: real)
    requires Inv(s, gapBound) && 0.0 <= gapBound < DRAIN_SETTLE_SECONDS && Runs(s, steps, gapBound)
    ensures Inv(Exec(s, steps, gapBound), gapBound)
    decreases |steps|
  {
    if steps != [] {
      match steps[0] {
        case ApiActs(i, act) => ApiActsKept(s, i, act, gapBound);
        case _ => GuardStepKept(s, steps[0], gapBound);
      }
      InvExec(Apply(s, steps[0], gapBound), steps[1..], gapBound);
    }
  }

  // When the guard reboots on an idle poll that every API answered, nothing breaks.
  ghost predicate RebootBreaksNothing(s: State) {
    s.guard.Rebooted? && !s.missed ==> forall i :: 0 <= i < |s.apis| ==> !Busy.Working(s.apis[i])
  }

  /** Drain safety over whole runs, for any number of APIs and any flag left behind by an
      earlier guard. */
  lemma DrainSafety(n: nat, flag: Option<real>, steps: seq<Step>, gapBound: real)
    requires 0.0 <= gapBound < DRAIN_SETTLE_SECONDS && Runs(Init(n, flag), steps, gapBound)
    ensures RebootBreaksNothing(Exec(Init(n, flag), steps, gapBound))
  {
    InvExec(Init(n, flag), steps, gapBound);
  }

  // ---------------------------------------------------------------- the settle time is exact

  lemma {:induction false} Extend(s: State, steps: seq<Step>, step: Step, gapBound: real) returns (more: seq<Step>)
    requires Runs(s, steps, gapBound) && Enabled(Exec(s, steps, gapBound), step, gapBound)
    ensures more == steps + [step]
    ensures Runs(s, more, gapBound) && Exec(s, more, gapBound) == Apply(Exec(s, steps, gapBound), step, gapBound)
    decreases |steps|
  {
    more := steps + [step];
    if steps == [] {
      assert more[1..] == [];
    } else {
      var rest := Extend(Apply(s, steps[0], gapBound), steps[1..], step, gapBound);
      assert more[1..] == rest;
    }
  }

  // One idle answer of the only API.
  lemma IdleAnswer(s: State, steps: seq<Step>, second: bool, gapBound: real) returns (more: seq<Step>)
    requires Runs(s, steps, gapBound)
    requires var t := Exec(s, steps, gapBound);
      t.guard == Ask(second, 0, Nothing, false) && |t.apis| == 1 && t.apis[0].writes == map[] && t.apis[0].jobs == map[]
    ensures Runs(s, more, gapBound)
    ensures Exec(s, more, gapBound) == Exec(s, steps, gapBound).(guard := Ask(second, 1, Nothing, false))
  {
    more := Extend(s, steps, ReadWrites, gapBound);
    more := Extend(s, more, ReadWorkers, gapBound);
    more := Extend(s, more, ReadJobs, gapBound);
  }

  // A write looks at the flag just before it goes up, and is still on its way 3 s later.
  lemma SlowWriteBreaks(gapBound: real) returns (steps: seq<Step>)
    requires gapBound >= DRAIN_SETTLE_SECONDS
    ensures Runs(Init(1, None), steps, gapBound)
    ensures !RebootBreaksNothing(Exec(Init(1, None), steps, gapBound))
  {
    var s := Init(1, None);
    steps := IdleAnswer(s, [], false, gapBound);
    steps := Extend(s, steps, EndPoll, gapBound);
    steps := SlowWriteThenIdle(s, steps, gapBound);
    steps := RegisterAndReboot(s, steps, gapBound);
  }

  lemma SlowWriteThenIdle(s: State, steps: seq<Step>, gapBound: real) returns (more: seq<Step>)
    requires gapBound >= DRAIN_SETTLE_SECONDS && Runs(s, steps, gapBound)
    requires Exec(s, steps, gapBound) == State(0.0, None, [Busy.FRESH], Raise, false)
    ensures Runs(s, more, gapBound)
    ensures Exec(s, more, gapBound) ==
      State(3.0, Some(0.0), [Busy.FRESH.(gap := map[1 := 0.0], used := {1})], Idle, false)
  {
    more := Extend(s, steps, ApiActs(0, Busy.Admit(1, 0.0)), gapBound);
    var a := Busy.Apply(Busy.FRESH, Busy.Admit(1, 0.0));
    assert a.gap == map[1 := 0.0] && a.used == {1};
    assert Exec(s, more, gapBound).apis == [Busy.FRESH.(gap := map[1 := 0.0], used := {1})];
    more := Extend(s, more, RaiseFlag, gapBound);
    more := Extend(s, more, Tick(3.0), gapBound);
    more := Extend(s, more, SettleOver, gapBound);
    more := IdleAnswer(s, more, true, gapBound);
    more := Extend(s, more, EndPoll, gapBound);
  }

  lemma RegisterAndReboot(s: State, steps: seq<Step>, gapBound: real) returns (more: seq<Step>)
    requires Runs(s, steps, gapBound)
    requires Exec(s, steps, gapBound) ==
      State(3.0, Some(0.0), [Busy.FRESH.(gap := map[1 := 0.0], used := {1})], Idle, false)
    ensures Runs(s, more, gapBound)
    ensures !RebootBreaksNothing(Exec(s, more, gapBound))
  {
    more := Extend(s, steps, ApiActs(0, Busy.Register(1, false)), gapBound);
    more := Extend(s, more, Reboot, gapBound);
    assert 1 in Exec(s, more, gapBound).apis[0].writes;
  }

  /** The reboot is safe in every run exactly when a write registers in less than the
      settle time. */
  lemma SettleTimeIsExact(gapBound: real)
    requires gapBound >= 0.0
    ensures (forall n: nat, flag, steps :: Runs(Init(n, flag), steps, gapBound) ==>
             RebootBreaksNothing(Exec(Init(n, flag), steps, gapBound)))
      <==> gapBound < DRAIN_SETTLE_SECONDS
  {
    if gapBound < DRAIN_SETTLE_SECONDS {
      forall n: nat, flag, steps | Runs(Init(n, flag), steps, gapBound)
        ensures RebootBreaksNothing(Exec(Init(n, flag), steps, gapBound))
      {
        DrainSafety(n, flag, steps, gapBound);
      }
    } else {
      var steps := SlowWriteBreaks(gapBound);
      var n: nat := 1;
      assert Runs(Init(n, None), steps, gapBound) && !RebootBreaksNothing(Exec(Init(n, None), steps, gapBound));
    }
  }
}
