/**
 Submission, worker and cancel route of a backtest job (mt5api/backtest/handler.py),
 at the granularity of each locked block. RUN_LOCK lets one job use the terminal; the
 cancel route flags a job, marks it cancelled and may kill its tester processes.

 A job's later status is settled as update_job does it: a cancelled job stays cancelled.
 */
module BacktestProtocol {
  import opened Options

  datatype Status = Queued | Running | Completed | Failed | Cancelled

  predicate Terminal(st: Status) { st.Completed? || st.Failed? || st.Cancelled? }

  function Settled(before: Status, next: Status): Status { if before.Cancelled? then before else next }

  datatype SubmitPc = Stored | Registered | Unspawned | Returned

  datatype Exit = ToLeave | ToPost | ToCrash

  // Where a worker stands. `stop` marks the second time in the lock, after the run.
  datatype Pc =
    | Entry | Check | Prepare | WaitLock
    | Acquired(stop: bool) | Locked | MarkRunning | Staging | LastCheck | Launching | InRun | AfterRun
    | TimedOut | FailInLock | Settling(stop: bool)
    | Releasing(exit: Exit) | Unlocking(exit: Exit)
    | PostCheck | StopWait | Judging | Relaunched
    | CrashLoad | CrashUpdate | Leaving | Gone

  datatype CancelPc = Flagging | Marking | Dropping | Waiting | Final(stopped: bool)
  datatype Cancel = Cancel(job: nat, at: CancelPc)

  // A kill of tester processes on behalf of a job, and who held RUN_LOCK then.
  datatype Kill = Kill(job: nat, lock: Option<nat>)

  datatype State = State(
    status: map<nat, Status>, submits: map<nat, SubmitPc>, pcs: map<nat, Pc>,
    active: set<nat>, flags: set<nat>, runLock: Option<nat>, holder: Option<nat>,
    cancels: map<nat, Cancel>, launched: set<nat>, kills: seq<Kill>)

  datatype RunEnd = ExitedInTime | RanOut | Raised
  datatype Verdict = AwaitRelaunch | Judged(completed: bool)

  // One action of a worker thread.
  datatype Act =
    | Enter | LookAtFlag | Prepared(ok: bool) | PollFlag | Acquire | GiveUp | Own
    | StartRunning | Stage(ok: bool) | Launch(ok: bool) | EndRun(how: RunEnd)
    | KillProcesses | FailLocked | SettleDone | Disown | Unlock
    | Judge(verdict: Verdict) | Crash | CrashCheck | CrashFail | Leave

  datatype Step =
    | SubmitStore(j: nat) | SubmitRegister(j: nat) | SubmitSpawn(j: nat) | SpawnFails(j: nat) | SpawnFailed(j: nat)
    | Work(j: nat, act: Act)
    | CancelBegin(c: nat, j: nat) | CancelFlag(c: nat) | CancelMark(c: nat) | CancelDrop(c: nat)
    | CancelKill(c: nat) | CancelSeen(c: nat) | CancelEnd(c: nat)

  const INIT := State(map[], map[], map[], {}, {}, None, None, map[], {}, [])

  // ---------------------------------------------------------------- the worker

  predicate InLock(pc: Pc) { pc.Acquired? || pc.Unlocking? || Owning(pc) }

  // Inside RUN_LOCK with _LOCK_HOLDER set.
  predicate Owning(pc: Pc) {
    pc.Locked? || pc.MarkRunning? || pc.Staging? || pc.LastCheck? || pc.Launching? || pc.InRun? || pc.AfterRun?
    || pc.TimedOut? || pc.FailInLock? || pc.Settling? || pc.Releasing?
  }

  predicate Checks(pc: Pc) {
    pc.Check? || pc.Locked? || pc.LastCheck? || pc.AfterRun? || pc.PostCheck? || pc.Relaunched?
  }

  function AfterCheck(pc: Pc, flagged: bool): Pc
    requires Checks(pc)
  {
    match pc
    case Check => if flagged then Leaving else Prepare
    case Locked => if flagged then Releasing(ToLeave) else MarkRunning
    case LastCheck => if flagged then Settling(false) else Launching
    case AfterRun => if flagged then Settling(false) else Releasing(ToPost)
    case _ => if flagged then StopWait else Judging
  }

  // Where an unexpected exception can surface.
  predicate MayCrash(pc: Pc) {
    pc.Check? || pc.Prepare? || pc.WaitLock? || pc.StopWait? || pc.Judging? || (Owning(pc) && !pc.Releasing?)
  }

  predicate CanAct(pc: Pc, act: Act, flagged: bool, lockFree: bool) {
    match act
    case Enter => pc.Entry?
    case LookAtFlag => Checks(pc)
    case Prepared(_) => pc.Prepare?
    case PollFlag => pc.WaitLock? && flagged
    case Acquire => (pc.WaitLock? || pc.StopWait?) && lockFree
    case GiveUp => pc.StopWait?
    case Own => pc.Acquired?
    case StartRunning => pc.MarkRunning?
    case Stage(_) => pc.Staging?
    case Launch(_) => pc.Launching?
    case EndRun(_) => pc.InRun?
    case KillProcesses => pc.TimedOut? || pc.Settling?
    case FailLocked => pc.FailInLock?
    case SettleDone => pc.Settling?
    case Disown => pc.Releasing?
    case Unlock => pc.Unlocking?
    case Judge(_) => pc.Judging?
    case Crash => MayCrash(pc)
    case CrashCheck => pc.CrashLoad?
    case CrashFail => pc.CrashUpdate?
    case Leave => pc.Leaving?
  }

  function NextPc(pc: Pc, act: Act, flagged: bool, finished: bool): Pc
    requires CanAct(pc, act, flagged, true)
  {
    match act
    case Enter => Check
    case LookAtFlag => AfterCheck(pc, flagged)
    case Prepared(ok) => if ok then WaitLock else Leaving
    case PollFlag => Leaving
    case Acquire => Acquired(pc.StopWait?)
    case GiveUp => Leaving
    case Own => if pc.stop then Settling(true) else Locked
    case StartRunning => Staging
    case Stage(ok) => if ok then LastCheck else FailInLock
    case Launch(ok) => if ok then InRun else FailInLock
    case EndRun(how) => (match how case ExitedInTime => AfterRun case RanOut => TimedOut case Raised => FailInLock)
    case KillProcesses => if pc.TimedOut? then FailInLock else pc
    case FailLocked => Releasing(ToLeave)
    case SettleDone => Releasing(ToLeave)
    case Disown => Unlocking(pc.exit)
    case Unlock => (match pc.exit case ToLeave => Leaving case ToPost => PostCheck case ToCrash => CrashLoad)
    case Judge(verdict) => if verdict.AwaitRelaunch? then Relaunched else Leaving
    case Crash => if Owning(pc) then Releasing(ToCrash) else CrashLoad
    case CrashCheck => if finished then Leaving else CrashUpdate
    case CrashFail => Leaving
    case Leave => Gone
  }

  // The status the action writes, if any.
  function Writes(act: Act): Option<Status> {
    match act
    case Prepared(ok) => if ok then None else Some(Failed)
    case StartRunning => Some(Running)
    case FailLocked => Some(Failed)
    case Judge(verdict) => if verdict.AwaitRelaunch? then None
                           else Some(if verdict.completed then Completed else Failed)
    case CrashFail => Some(Failed)
    case _ => None
  }

  function NextStatus(st: Status, act: Act): Status {
    if Writes(act).Some? then Settled(st, Writes(act).value) else st
  }

  predicate WorkEnabled(s: State, j: nat, act: Act) {
    j in s.pcs && j in s.status && CanAct(s.pcs[j], act, j in s.flags, s.runLock == None)
  }

  function Worked(s: State, j: nat, act: Act): State
    requires WorkEnabled(s, j, act)
  {
    State(
      s.status[j := NextStatus(s.status[j], act)],
      s.submits,
      s.pcs[j := NextPc(s.pcs[j], act, j in s.flags, Terminal(s.status[j]))],
      if act.Leave? then s.active - {j} else if act.Enter? then s.active + {j} else s.active,
      if act.Leave? then s.flags - {j} else s.flags,
      if act.Acquire? then Some(j) else if act.Unlock? then None else s.runLock,
      if act.Own? then Some(j) else if act.Disown? then None else s.holder,
      s.cancels,
      if act == Launch(true) then s.launched + {j} else s.launched,
      if act.KillProcesses? then s.kills + [Kill(j, s.runLock)] else s.kills)
  }

  // ---------------------------------------------------------------- all steps

  predicate CancelAt(s: State, c: nat, at: CancelPc) { c in s.cancels && s.cancels[c].at == at }

  predicate SubmitAt(s: State, j: nat, at: SubmitPc) { j in s.submits && s.submits[j] == at && j in s.status }

  predicate Enabled(s: State, step: Step) {
    match step
    case SubmitStore(j) => j !in s.submits && j !in s.status && j !in s.pcs
    case SubmitRegister(j) => SubmitAt(s, j, Stored)
    case SubmitSpawn(j) => SubmitAt(s, j, Registered)
    case SpawnFails(j) => SubmitAt(s, j, Registered)
    case SpawnFailed(j) => SubmitAt(s, j, Unspawned)
    case Work(j, act) => WorkEnabled(s, j, act)
    case CancelBegin(c, j) => c !in s.cancels && SubmitAt(s, j, Returned) && !Terminal(s.status[j])
    case CancelFlag(c) => CancelAt(s, c, Flagging)
    case CancelMark(c) => CancelAt(s, c, Marking) && s.cancels[c].job in s.status
    case CancelDrop(c) => CancelAt(s, c, Dropping)
    case CancelKill(c) => CancelAt(s, c, Waiting) && s.holder == Some(s.cancels[c].job)
    case CancelSeen(c) => CancelAt(s, c, Waiting)
    case CancelEnd(c) => c in s.cancels && s.cancels[c].at.Final?
  }

  function MoveCancel(s: State, c: nat, at: CancelPc): State
    requires c in s.cancels
  {
    s.(cancels := s.cancels[c := s.cancels[c].(at := at)])
  }

  function Apply(s: State, step: Step): State
    requires Enabled(s, step)
  {
    match step
    case SubmitStore(j) => s.(status := s.status[j := Queued], submits := s.submits[j := Stored])
    case SubmitRegister(j) => s.(active := s.active + {j}, submits := s.submits[j := Registered])
    case SubmitSpawn(j) => s.(pcs := s.pcs[j := Entry], submits := s.submits[j := Returned])
    case SpawnFails(j) => s.(active := s.active - {j}, submits := s.submits[j := Unspawned])
    case SpawnFailed(j) => s.(status := s.status[j := Settled(s.status[j], Failed)],
                              submits := s.submits[j := Returned])
    case Work(j, act) => Worked(s, j, act)
    case CancelBegin(c, j) => s.(cancels := s.cancels[c := Cancel(j, Flagging)])
    case CancelFlag(c) => MoveCancel(s, c, Marking).(flags := s.flags + {s.cancels[c].job})
    case CancelMark(c) =>
      var j := s.cancels[c].job;
      if Terminal(s.status[j]) then MoveCancel(s, c, Dropping)
      else MoveCancel(s, c, Waiting).(status := s.status[j := Cancelled])
    case CancelDrop(c) => s.(cancels := s.cancels - {c}, flags := s.flags - {s.cancels[c].job})
    case CancelKill(c) => s.(kills := s.kills + [Kill(s.cancels[c].job, s.runLock)])
    case CancelSeen(c) => MoveCancel(s, c, Final(s.cancels[c].job !in s.active))
    case CancelEnd(c) =>
      s.(cancels := s.cancels - {c}, flags := if s.cancels[c].at.stopped then s.flags - {s.cancels[c].job} else s.flags)
  }

  predicate Runs(s: State, steps: seq<Step>)
    decreases |steps|
  {
    steps == [] || (Enabled(s, steps[0]) && Runs(Apply(s, steps[0]), steps[1..]))
  }

  function Exec(s: State, steps: seq<Step>): State
    requires Runs(s, steps)
    decreases |steps|
  {
    if steps == [] then s else Exec(Apply(s, steps[0]), steps[1..])
  }

  // ---------------------------------------------------------------- what every run keeps

  // Which jobs exist, which have a worker, and whose worker counts as active.
  ghost predicate ShapeInv(s: State, j: nat) {
    && (j in s.submits <==> j in s.status)
    && (j in s.pcs ==> SubmitAt(s, j, Returned))
    && (j in s.active <==> SubmitAt(s, j, Registered) || (j in s.pcs && !s.pcs[j].Gone?))
    && (j in s.submits && s.submits[j] != Returned ==> s.status[j] == Queued)
  }

  // RUN_LOCK and _LOCK_HOLDER name the one worker inside.
  ghost predicate LockInv(s: State, j: nat) {
    && (s.runLock == Some(j) <==> j in s.pcs && InLock(s.pcs[j]))
    && (s.holder == Some(j) <==> j in s.pcs && Owning(s.pcs[j]))
  }

  ghost predicate KillInv(s: State) {
    forall i :: 0 <= i < |s.kills| ==> s.kills[i].lock == Some(s.kills[i].job)
  }

  // A cancel of j stands between setting its flag and its atomic status change.
  ghost predicate BeingMarked(s: State, j: nat) {
    exists c :: c in s.cancels && s.cancels[c] == Cancel(j, Marking)
  }

  ghost predicate Closed(s: State, j: nat) {
    j in s.status && (Terminal(s.status[j]) || BeingMarked(s, j))
  }

  // The worker has recorded an end; or it has, or has noticed a cancel.
  predicate Ended(pc: Pc) { pc == Releasing(ToLeave) || pc == Unlocking(ToLeave) || pc.Leaving? || pc.Gone? }

  predicate Winding(pc: Pc) { Ended(pc) || pc == Acquired(true) || pc.Settling? || pc.StopWait? }

  // A cancel request that will drop its job's flag, or has yet to see the worker gone.
  predicate WillDrop(at: CancelPc) { at.Marking? || at.Dropping? || at.Waiting? || at == Final(true) }

  // A flag outlives its worker only while such a request runs.
  ghost predicate FlagOwned(s: State, j: nat) {
    j in s.active || exists c :: c in s.cancels && s.cancels[c].job == j && WillDrop(s.cancels[c].at)
  }

  ghost predicate JobInv(s: State, j: nat) {
    && (j in s.flags ==> Closed(s, j) && FlagOwned(s, j))
    && (j in s.pcs && Winding(s.pcs[j]) ==> Closed(s, j))
    && (j in s.pcs && j in s.status && (s.status[j].Completed? || s.status[j].Failed?) ==> Ended(s.pcs[j]))
    && (SubmitAt(s, j, Returned) && j !in s.active ==> Closed(s, j))
  }

  ghost predicate RequestInv(s: State, c: nat) {
    c in s.cancels ==>
      var j := s.cancels[c].job;
      && SubmitAt(s, j, Returned)
      && match s.cancels[c].at
         case Flagging => true
         case Marking => Terminal(s.status[j]) || j in s.flags || j !in s.active
         case Dropping => Terminal(s.status[j])
         case Waiting => s.status[j] == Cancelled
         case Final(stopped) => s.status[j] == Cancelled && (stopped ==> j !in s.active)
  }

  // The worker has not yet passed the check that precedes the launch.
  predicate BeforeLastCheck(pc: Pc) {
    pc.Entry? || pc.Check? || pc.Prepare? || pc.WaitLock? || pc == Acquired(false) || pc.Locked? || pc.MarkRunning?
    || pc.Staging? || pc.LastCheck?
  }

  ghost predicate LaunchInv(s: State) {
    forall j :: j in s.launched ==> j in s.pcs && !BeforeLastCheck(s.pcs[j])
  }

  ghost predicate BaseInv(s: State) {
    && KillInv(s) && LaunchInv(s)
    && (forall j :: ShapeInv(s, j)) && (forall j :: LockInv(s, j)) && (forall j :: JobInv(s, j))
    && (forall c :: RequestInv(s, c))
  }

  lemma ShapeKept(s: State, step: Step, j: nat)
    requires ShapeInv(s, j) && (forall c :: RequestInv(s, c)) && Enabled(s, step)
    ensures ShapeInv(Apply(s, step), j)
  {
    if step.Work? {
      WorkKeepsShape(s, step, j);
    } else {
      RestKeepsShape(s, step, j);
    }
  }

  lemma WorkKeepsShape(s: State, step: Step, j: nat)
    requires ShapeInv(s, j) && Enabled(s, step) && step.Work?
    ensures ShapeInv(Apply(s, step), j)
  {
  }

  lemma RestKeepsShape(s: State, step: Step, j: nat)
    requires ShapeInv(s, j) && (forall c :: RequestInv(s, c)) && Enabled(s, step) && !step.Work?
    ensures ShapeInv(Apply(s, step), j)
  {
    if step.CancelMark? {
      assert RequestInv(s, step.c);
    }
  }

  lemma LockMoves(pc: Pc, act: Act, flagged: bool, finished: bool)
    requires CanAct(pc, act, flagged, true)
    ensures var next := NextPc(pc, act, flagged, finished);
      && InLock(next) == (act.Acquire? || (InLock(pc) && !act.Unlock?))
      && Owning(next) == (act.Own? || (Owning(pc) && !act.Disown?))
    ensures act.Acquire? ==> !InLock(pc)
    ensures act.Unlock? ==> InLock(pc) && !Owning(pc)
    ensures act.Own? ==> InLock(pc) && !Owning(pc)
    ensures act.Disown? ==> Owning(pc)
  {
  }

  lemma LockKept(s: State, step: Step, j: nat)
    requires (forall i :: LockInv(s, i)) && (forall i :: ShapeInv(s, i)) && Enabled(s, step)
    ensures LockInv(Apply(s, step), j)
  {
    if step.Work? {
      WorkKeepsLock(s, step, j);
    } else {
      RestKeepsLock(s, step, j);
    }
  }

  lemma WorkKeepsLock(s: State, step: Step, j: nat)
    requires (forall i :: LockInv(s, i)) && (forall i :: ShapeInv(s, i)) && Enabled(s, step) && step.Work?
    ensures LockInv(Apply(s, step), j)
  {
    assert LockInv(s, j) && ShapeInv(s, j) && LockInv(s, step.j);
    LockMoves(s.pcs[step.j], step.act, step.j in s.flags, Terminal(s.status[step.j]));
  }

  lemma RestKeepsLock(s: State, step: Step, j: nat)
    requires (forall i :: LockInv(s, i)) && (forall i :: ShapeInv(s, i)) && Enabled(s, step) && !step.Work?
    ensures LockInv(Apply(s, step), j)
  {
    assert LockInv(s, j) && ShapeInv(s, j);
  }

  lemma KillsKept(s: State, step: Step)
    requires KillInv(s) && (forall j :: LockInv(s, j)) && Enabled(s, step)
    ensures KillInv(Apply(s, step))
  {
    if step.Work? {
      assert LockInv(s, step.j);
    } else if step.CancelKill? {
      assert LockInv(s, s.cancels[step.c].job);
    }
  }

  lemma LaunchesKept(s: State, step: Step)
    requires LaunchInv(s) && (forall j :: ShapeInv(s, j)) && Enabled(s, step)
    ensures LaunchInv(Apply(s, step))
  {
    if step.SubmitSpawn? {
      assert ShapeInv(s, step.j);
    } else if step.Work? {
      PassesOnce(s.pcs[step.j], step.act, step.j in s.flags, Terminal(s.status[step.j]));
    }
  }

  lemma PassesOnce(pc: Pc, act: Act, flagged: bool, finished: bool)
    requires CanAct(pc, act, flagged, true)
    ensures BeforeLastCheck(NextPc(pc, act, flagged, finished)) ==> BeforeLastCheck(pc)
    ensures act == Launch(true) ==> !BeforeLastCheck(NextPc(pc, act, flagged, finished))
  {
  }

  lemma TerminalStays(s: State, step: Step, j: nat)
    requires BaseInv(s) && Enabled(s, step) && j in s.status && Terminal(s.status[j])
    ensures j in Apply(s, step).status && Apply(s, step).status[j] == s.status[j]
  {
    assert JobInv(s, j) && ShapeInv(s, j);
  }

  lemma ClosedStays(s: State, step: Step, j: nat)
    requires BaseInv(s) && Enabled(s, step) && Closed(s, j)
    ensures Closed(Apply(s, step), j)
  {
    var t := Apply(s, step);
    if Terminal(s.status[j]) {
      TerminalStays(s, step, j);
    } else {
      var c :| c in s.cancels && s.cancels[c] == Cancel(j, Marking);
      assert RequestInv(s, c);
      assert step != CancelMark(c) ==> c in t.cancels && t.cancels[c] == Cancel(j, Marking);
    }
  }

  lemma RequestKept(s: State, step: Step, c: nat)
    requires BaseInv(s) && Enabled(s, step)
    ensures RequestInv(Apply(s, step), c)
  {
    if c in s.cancels {
      var j := s.cancels[c].job;
      assert RequestInv(s, c) && ShapeInv(s, j);
      if Terminal(s.status[j]) {
        TerminalStays(s, step, j);
      }
      if step.CancelDrop? {
        assert RequestInv(s, step.c);
      } else if step.CancelEnd? {
        assert RequestInv(s, step.c);
      }
    }
  }

  // What an action does to the status and the end of its worker.
  lemma EndMoves(pc: Pc, act: Act, flagged: bool, st: Status)
    requires CanAct(pc, act, flagged, true)
    requires (st.Completed? || st.Failed?) ==> Ended(pc)
    ensures var next, after := NextPc(pc, act, flagged, Terminal(st)), NextStatus(st, act);
      && (Winding(next) ==> Winding(pc) || flagged || Terminal(after) || Terminal(st))
      && (after.Completed? || after.Failed? ==> Ended(next))
      && (act.Leave? ==> Winding(pc))
      && (next.Gone? <==> act.Leave?)
  {
  }

  lemma WorkKeepsJob(s: State, j: nat, act: Act)
    requires BaseInv(s) && WorkEnabled(s, j, act)
    ensures JobInv(Worked(s, j, act), j)
  {
    var t := Apply(s, Work(j, act));
    assert JobInv(s, j) && ShapeInv(s, j);
    EndMoves(s.pcs[j], act, j in s.flags, s.status[j]);
    if Closed(s, j) {
      ClosedStays(s, Work(j, act), j);
    }
    if FlagOwned(s, j) && j !in s.active {
      assert FlagOwned(t, j);
    }
  }

  lemma CancelKeepsJob(s: State, step: Step, j: nat)
    requires BaseInv(s) && Enabled(s, step) && !step.Work?
    ensures JobInv(Apply(s, step), j)
  {
    var t := Apply(s, step);
    assert JobInv(s, j) && ShapeInv(s, j);
    if Closed(s, j) {
      ClosedStays(s, step, j);
    }
    match step
    case CancelFlag(c) =>
      assert RequestInv(s, c) && t.cancels[c] == Cancel(s.cancels[c].job, Marking);
      FlagStaysOwned(s, step, j);
    case CancelMark(c) =>
      assert RequestInv(s, c);
      FlagStaysOwned(s, step, j);
    case CancelEnd(c) =>
      assert RequestInv(s, c);
      FlagStaysOwned(s, step, j);
    case _ => FlagStaysOwned(s, step, j);
  }

  lemma FlagStaysOwned(s: State, step: Step, j: nat)
    requires BaseInv(s) && Enabled(s, step) && !step.Work?
    ensures j in Apply(s, step).flags ==> FlagOwned(Apply(s, step), j)
  {
    var t := Apply(s, step);
    assert JobInv(s, j) && ShapeInv(s, j);
    if j in t.flags && j !in t.active {
      if j in s.flags && j !in s.active {
        var c :| c in s.cancels && s.cancels[c].job == j && WillDrop(s.cancels[c].at);
        assert c in t.cancels && t.cancels[c].job == j && WillDrop(t.cancels[c].at);
      } else if step.CancelFlag? {
        assert t.cancels[step.c].job == j && t.cancels[step.c].at == Marking;
      }
    }
  }

  lemma BaseKept(s: State, step: Step)
    requires BaseInv(s) && Enabled(s, step)
    ensures BaseInv(Apply(s, step))
  {
    var t := Apply(s, step);
    KillsKept(s, step);
    LaunchesKept(s, step);
    forall j
      ensures ShapeInv(t, j) && LockInv(t, j) && JobInv(t, j)
    {
      ShapeKept(s, step, j);
      LockKept(s, step, j);
      if !step.Work? {
        CancelKeepsJob(s, step, j);
      } else if step.j == j {
        WorkKeepsJob(s, j, step.act);
      } else {
        assert JobInv(s, j);
        if Closed(s, j) {
          ClosedStays(s, step, j);
        }
        assert FlagOwned(s, j) ==> FlagOwned(t, j);
      }
    }
    forall c
      ensures RequestInv(t, c)
    {
      RequestKept(s, step, c);
    }
  }

  // ---------------------------------------------------------------- whole runs

  lemma {:induction false} BaseExec(s: State, steps: seq<Step>)
    requires BaseInv(s) && Runs(s, steps)
    ensures BaseInv(Exec(s, steps))
    decreases |steps|
  {
    if steps != [] {
      BaseKept(s, steps[0]);
      BaseExec(Apply(s, steps[0]), steps[1..]);
    }
  }

  /** In every interleaving: RUN_LOCK has at most one worker inside, _LOCK_HOLDER names it,
      and every kill ever made for a job happened while that job held RUN_LOCK. */
  lemma KillsOnlyUnderTheLock(steps: seq<Step>)
    requires Runs(INIT, steps)
    ensures var s := Exec(INIT, steps);
      && (forall i :: 0 <= i < |s.kills| ==> s.kills[i].lock == Some(s.kills[i].job))
      && (forall j, k :: j in s.pcs && k in s.pcs && InLock(s.pcs[j]) && InLock(s.pcs[k]) ==> j == k)
      && (forall j :: s.holder == Some(j) ==> s.runLock == Some(j))
  {
    BaseExec(INIT, steps);
    var s := Exec(INIT, steps);
    forall j
      ensures s.holder == Some(j) ==> s.runLock == Some(j)
      ensures j in s.pcs && InLock(s.pcs[j]) ==> s.runLock == Some(j)
    {
      assert LockInv(s, j);
    }
  }

  /** In every interleaving: once a job's submission has returned and its worker is no
      longer active, the job has ended, or a cancel stands between setting its flag and its
      atomic status change; and a flag still set belongs to an active worker or to a cancel
      request still running. */
  lemma NoJobLeftBehind(steps: seq<Step>, j: nat)
    requires Runs(INIT, steps)
    ensures var s := Exec(INIT, steps);
      && (SubmitAt(s, j, Returned) && j !in s.active ==> Terminal(s.status[j]) || BeingMarked(s, j))
      && (j in s.flags ==>
            j in s.active || exists c :: c in s.cancels && s.cancels[c].job == j && s.cancels[c].at != Flagging)
  {
    BaseExec(INIT, steps);
    assert JobInv(Exec(INIT, steps), j);
  }

  /** In every interleaving a job that has ended keeps its status. */
  lemma {:induction false} EndIsFinal(s: State, steps: seq<Step>, j: nat)
    requires BaseInv(s) && Runs(s, steps) && j in s.status && Terminal(s.status[j])
    ensures j in Exec(s, steps).status && Exec(s, steps).status[j] == s.status[j]
    decreases |steps|
  {
    if steps != [] {
      BaseKept(s, steps[0]);
      TerminalStays(s, steps[0], j);
      EndIsFinal(Apply(s, steps[0]), steps[1..], j);
    }
  }

  // ---------------------------------------------------------------- the cancel flag

  // A cancelled job whose worker still runs is flagged, so the worker will notice.
  ghost predicate Noticeable(s: State) {
    forall j :: j in s.status && s.status[j].Cancelled? && j in s.active ==> j in s.flags
  }

  // A cancel that finds its job cancelled already drops the flag under a running worker.
  predicate LosesFlag(s: State, step: Step) {
    step.CancelDrop? && step.c in s.cancels
    && var j := s.cancels[step.c].job; j in s.active && j in s.status && s.status[j].Cancelled?
  }

  /** One step keeps every cancel noticeable exactly when it does not drop a flag so. */
  lemma NoticeableKeptIff(s: State, step: Step)
    requires BaseInv(s) && Noticeable(s) && Enabled(s, step)
    ensures Noticeable(Apply(s, step)) <==> !LosesFlag(s, step)
  {
    var t := Apply(s, step);
    if LosesFlag(s, step) {
      assert s.cancels[step.c].job !in t.flags;
    } else {
      forall j | j in t.status && t.status[j].Cancelled? && j in t.active
        ensures j in t.flags
      {
        assert ShapeInv(s, j) && JobInv(s, j);
        match step
        case CancelMark(c) => assert RequestInv(s, c);
        case CancelDrop(c) => assert RequestInv(s, c);
        case CancelEnd(c) => assert RequestInv(s, c);
        case _ =>
      }
    }
  }

  predicate Clean(s: State, steps: seq<Step>)
    requires Runs(s, steps)
    decreases |steps|
  {
    steps == [] || (!LosesFlag(s, steps[0]) && Clean(Apply(s, steps[0]), steps[1..]))
  }

  ghost predicate AlwaysNoticeable(s: State, steps: seq<Step>)
    requires Runs(s, steps)
    decreases |steps|
  {
    Noticeable(s) && (steps == [] || AlwaysNoticeable(Apply(s, steps[0]), steps[1..]))
  }

  /** Along a whole run every cancel stays noticeable exactly when no flag is lost. */
  lemma {:induction false} NoticeableRunIff(s: State, steps: seq<Step>)
    requires BaseInv(s) && Noticeable(s) && Runs(s, steps)
    ensures AlwaysNoticeable(s, steps) <==> Clean(s, steps)
    decreases |steps|
  {
    if steps != [] {
      NoticeableKeptIff(s, steps[0]);
      BaseKept(s, steps[0]);
      if !LosesFlag(s, steps[0]) {
        NoticeableRunIff(Apply(s, steps[0]), steps[1..]);
      }
    }
  }

  // At most one cancel request at a time for a job.
  ghost predicate Alone(s: State) {
    forall c, d :: c in s.cancels && d in s.cancels && s.cancels[c].job == s.cancels[d].job ==> c == d
  }

  ghost predicate NoOverlap(s: State, steps: seq<Step>)
    requires Runs(s, steps)
    decreases |steps|
  {
    Alone(s) && (steps == [] || NoOverlap(Apply(s, steps[0]), steps[1..]))
  }

  // With requests alone, the one about to drop a flag found its job finished by the worker.
  ghost predicate DropsFinished(s: State) {
    forall c :: c in s.cancels && s.cancels[c].job in s.status ==>
      var st := s.status[s.cancels[c].job];
      match s.cancels[c].at
      case Flagging => !st.Cancelled?
      case Marking => !st.Cancelled?
      case Dropping => st.Completed? || st.Failed?
      case _ => true
  }

  lemma DropsFinishedKept(s: State, step: Step)
    requires BaseInv(s) && Alone(s) && DropsFinished(s) && Enabled(s, step)
    ensures DropsFinished(Apply(s, step))
  {
    var t := Apply(s, step);
    forall c | c in t.cancels && t.cancels[c].job in t.status
      ensures var st := t.status[t.cancels[c].job];
        match t.cancels[c].at
        case Flagging => !st.Cancelled?
        case Marking => !st.Cancelled?
        case Dropping => st.Completed? || st.Failed?
        case _ => true
    {
      if c in s.cancels {
        assert RequestInv(s, c);
        if step.Work? {
          assert JobInv(s, step.j) && ShapeInv(s, step.j);
        }
      }
    }
  }

  /** Requests that never overlap never lose a flag. */
  lemma {:induction false} AloneIsClean(s: State, steps: seq<Step>)
    requires BaseInv(s) && DropsFinished(s) && Runs(s, steps) && NoOverlap(s, steps)
    ensures Clean(s, steps)
    decreases |steps|
  {
    if steps != [] {
      BaseKept(s, steps[0]);
      DropsFinishedKept(s, steps[0]);
      AloneIsClean(Apply(s, steps[0]), steps[1..]);
    }
  }

  // A worker that can no longer come to launch: it is winding up a cancel or an exception.
  predicate NeverLaunches(pc: Pc) {
    Winding(pc) || pc.FailInLock? || pc == Releasing(ToCrash) || pc == Unlocking(ToCrash) || pc.CrashLoad? ||
    pc.CrashUpdate?
  }

  // A cancelled job that has not launched and will not.
  predicate Doomed(s: State, j: nat) {
    && j in s.status && s.status[j].Cancelled? && j !in s.launched
    && j in s.pcs && (BeforeLastCheck(s.pcs[j]) || NeverLaunches(s.pcs[j]))
  }

  lemma DoomMoves(pc: Pc, act: Act, finished: bool)
    requires CanAct(pc, act, true, true) && (BeforeLastCheck(pc) || NeverLaunches(pc))
    ensures var next := NextPc(pc, act, true, finished); BeforeLastCheck(next) || NeverLaunches(next)
    ensures act != Launch(true)
  {
  }

  /** A job cancelled while its worker is still before its last check never launches. */
  lemma {:induction false} CancelledNeverLaunches(s: State, steps: seq<Step>, j: nat)
    requires BaseInv(s) && Noticeable(s) && Runs(s, steps) && Clean(s, steps)
    requires Doomed(s, j)
    ensures Doomed(Exec(s, steps), j)
    decreases |steps|
  {
    if steps != [] {
      var step := steps[0];
      BaseKept(s, step);
      NoticeableKeptIff(s, step);
      TerminalStays(s, step, j);
      assert ShapeInv(s, j);
      if step.Work? && step.j == j && !s.pcs[j].Gone? {
        DoomMoves(s.pcs[j], step.act, Terminal(s.status[j]));
      }
      CancelledNeverLaunches(Apply(s, step), steps[1..], j);
    }
  }

  /** The whole claim, from the start: in a run whose cancel requests never overlap for a
      job, every cancel stays noticeable, and a job cancelled before its worker's last check
      is not launched by any continuation. */
  lemma CancelIsHonoured(before: seq<Step>, after: seq<Step>, j: nat)
    requires Runs(INIT, before) && Runs(Exec(INIT, before), after)
    requires NoOverlap(INIT, before) && NoOverlap(Exec(INIT, before), after)
    requires var s := Exec(INIT, before);
      j in s.status && s.status[j].Cancelled? && j in s.pcs && BeforeLastCheck(s.pcs[j])
    ensures AlwaysNoticeable(INIT, before)
    ensures j !in Exec(Exec(INIT, before), after).launched
  {
    BaseExec(INIT, before);
    AloneIsClean(INIT, before);
    NoticeableRunIff(INIT, before);
    NoticeableAtEnd(INIT, before);
    DropsFinishedExec(INIT, before);
    AloneIsClean(Exec(INIT, before), after);
    CancelledNeverLaunches(Exec(INIT, before), after, j);
  }

  lemma {:induction false} NoticeableAtEnd(s: State, steps: seq<Step>)
    requires Runs(s, steps) && AlwaysNoticeable(s, steps)
    ensures Noticeable(Exec(s, steps))
    decreases |steps|
  {
    if steps != [] {
      NoticeableAtEnd(Apply(s, steps[0]), steps[1..]);
    }
  }

  lemma {:induction false} DropsFinishedExec(s: State, steps: seq<Step>)
    requires BaseInv(s) && DropsFinished(s) && Runs(s, steps) && NoOverlap(s, steps)
    ensures DropsFinished(Exec(s, steps))
    decreases |steps|
  {
    if steps != [] {
      BaseKept(s, steps[0]);
      DropsFinishedKept(s, steps[0]);
      DropsFinishedExec(Apply(s, steps[0]), steps[1..]);
    }
  }

  // ---------------------------------------------------------------- where it fails

  lemma {:induction false} Extend(s: State, steps: seq<Step>, step: Step) returns (more: seq<Step>)
    requires Runs(s, steps) && Enabled(Exec(s, steps), step)
    ensures Runs(s, more) && more == steps + [step] && Exec(s, more) == Apply(Exec(s, steps), step)
    decreases |steps|
  {
    more := steps + [step];
    if steps == [] {
      assert more[1..] == [];
    } else {
      var rest := Extend(Apply(s, steps[0]), steps[1..], step);
      assert more[1..] == rest;
    }
  }

  // Job 1 and its worker at `pc`, inside the lock from Locked on.
  function JobOne(st: Status, pc: Pc): State {
    var lock := if InLock(pc) then Some(1) else None;
    State(map[1 := st], map[1 := Returned], map[1 := pc], {1}, {}, lock,
          if Owning(pc) then Some(1) else None, map[], {}, [])
  }

  lemma Submitted() returns (steps: seq<Step>)
    ensures Runs(INIT, steps) && Exec(INIT, steps) == JobOne(Queued, Check)
  {
    steps := Extend(INIT, [], SubmitStore(1));
    steps := Extend(INIT, steps, SubmitRegister(1));
    steps := Extend(INIT, steps, SubmitSpawn(1));
    steps := Extend(INIT, steps, Work(1, Enter));
    assert Exec(INIT, steps) == JobOne(Queued, Check);
  }

  lemma BeforeTheLock() returns (steps: seq<Step>)
    ensures Runs(INIT, steps) && Exec(INIT, steps) == JobOne(Queued, WaitLock)
  {
    steps := Submitted();
    steps := Extend(INIT, steps, Work(1, LookAtFlag));
    steps := Extend(INIT, steps, Work(1, Prepared(true)));
    assert Exec(INIT, steps) == JobOne(Queued, WaitLock);
  }

  lemma InsideTheLock() returns (steps: seq<Step>)
    ensures Runs(INIT, steps) && Exec(INIT, steps) == JobOne(Queued, Locked)
  {
    steps := BeforeTheLock();
    steps := Extend(INIT, steps, Work(1, Acquire));
    steps := Extend(INIT, steps, Work(1, Own));
    assert Exec(INIT, steps) == JobOne(Queued, Locked);
  }

  // Two cancels of job 1 both set its flag...
  lemma TwoFlags() returns (steps: seq<Step>)
    ensures Runs(INIT, steps)
    ensures Exec(INIT, steps) ==
            JobOne(Queued, Locked).(flags := {1}, cancels := map[1 := Cancel(1, Marking), 2 := Cancel(1, Marking)])
  {
    steps := InsideTheLock();
    steps := Extend(INIT, steps, CancelBegin(1, 1));
    steps := Extend(INIT, steps, CancelBegin(2, 1));
    steps := Extend(INIT, steps, CancelFlag(1));
    steps := Extend(INIT, steps, CancelFlag(2));
    assert Exec(INIT, steps) ==
           JobOne(Queued, Locked).(flags := {1}, cancels := map[1 := Cancel(1, Marking), 2 := Cancel(1, Marking)]);
  }

  // ... and the second, finding it cancelled, drops the flag of the first.
  lemma FlagLost() returns (steps: seq<Step>)
    ensures Runs(INIT, steps)
    ensures Exec(INIT, steps) == JobOne(Cancelled, Locked).(cancels := map[1 := Cancel(1, Waiting)])
  {
    steps := TwoFlags();
    steps := Extend(INIT, steps, CancelMark(1));
    steps := Extend(INIT, steps, CancelMark(2));
    steps := Extend(INIT, steps, CancelDrop(2));
    assert Exec(INIT, steps) == JobOne(Cancelled, Locked).(cancels := map[1 := Cancel(1, Waiting)]);
  }

  // An unflagged worker goes on from the lock to its launch.
  lemma GoesToStaging(t: State) returns (steps: seq<Step>)
    requires t == JobOne(Cancelled, Locked).(cancels := map[1 := Cancel(1, Waiting)])
    ensures Runs(t, steps) && Exec(t, steps) == JobOne(Cancelled, Staging).(cancels := map[1 := Cancel(1, Waiting)])
  {
    steps := Extend(t, [], Work(1, LookAtFlag));
    steps := Extend(t, steps, Work(1, StartRunning));
    assert Exec(t, steps) == JobOne(Cancelled, Staging).(cancels := map[1 := Cancel(1, Waiting)]);
  }

  lemma GoesToLaunching(t: State) returns (steps: seq<Step>)
    requires t == JobOne(Cancelled, Locked).(cancels := map[1 := Cancel(1, Waiting)])
    ensures Runs(t, steps) && Exec(t, steps) == JobOne(Cancelled, Launching).(cancels := map[1 := Cancel(1, Waiting)])
  {
    steps := GoesToStaging(t);
    steps := Extend(t, steps, Work(1, Stage(true)));
    steps := Extend(t, steps, Work(1, LookAtFlag));
    assert Exec(t, steps) == JobOne(Cancelled, Launching).(cancels := map[1 := Cancel(1, Waiting)]);
  }

  /** Two overlapping cancels of one job: it is marked cancelled before its last check, and
      launches all the same. */
  lemma OverlappingCancelsLaunch() returns (before: seq<Step>, after: seq<Step>)
    ensures Runs(INIT, before) && Runs(Exec(INIT, before), after)
    ensures var s := Exec(INIT, before);
      1 in s.status && s.status[1].Cancelled? && 1 in s.pcs && BeforeLastCheck(s.pcs[1]) && !Noticeable(s)
    ensures 1 in Exec(Exec(INIT, before), after).launched
  {
    before := FlagLost();
    var t := Exec(INIT, before);
    assert 1 in t.active && 1 !in t.flags;
    after := GoesToLaunching(t);
    after := Extend(t, after, Work(1, Launch(true)));
  }
}
