/**
 The reboot guard's own loop (scripts/reboot_guard.py): when it returns, with what
 outcome, after how long, and whether the drain flag is up.
 */
module RebootGuard {
  const POLL_SECONDS: nat := 30
  const DRAIN_SETTLE_SECONDS: nat := 3
  const REPEAT_LOG_SECONDS: nat := 300

  // A reason for holding the reboot; the age of a write in flight is left out of sameWait.
  datatype Reason = Reason(terminal: nat, text: string, age: nat)

  // One API's answer to GET /busy.
  datatype Answer = Silent | Idle | Busy(reasons: seq<Reason>)

  datatype Outcome = IsIdle | MaxPostpone

  datatype LogLine = LogLine(at: nat, wait: seq<Reason>)

  // What an API contributes to the reasons; a busy answer without reasons still counts.
  function ReasonsOf(terminal: nat, a: Answer): seq<Reason> {
    match a
    case Silent => []
    case Idle => []
    case Busy(reasons) => if reasons == [] then [Reason(terminal, "busy", 0)] else reasons
  }

  function AllReasons(answers: seq<Answer>, from: nat): seq<Reason>
    requires from <= |answers|
    decreases |answers| - from
  {
    if from == |answers| then [] else ReasonsOf(from, answers[from]) + AllReasons(answers, from + 1)
  }

  predicate Quiet(answers: seq<Answer>) {
    forall i :: 0 <= i < |answers| ==> !answers[i].Busy?
  }

  lemma {:induction false} NoReasonsIff(answers: seq<Answer>, from: nat)
    requires from <= |answers|
    ensures AllReasons(answers, from) == [] <==> forall i :: from <= i < |answers| ==> !answers[i].Busy?
    decreases |answers| - from
  {
    if from < |answers| {
      NoReasonsIff(answers, from + 1);
      assert ReasonsOf(from, answers[from]) == [] <==> !answers[from].Busy?;
    }
  }

  function SameWait(reasons: seq<Reason>): seq<Reason> {
    seq(|reasons|, i requires 0 <= i < |reasons| => reasons[i].(age := 0))
  }

  /** The reasons of one poll, in the order of the terminals. */
  method BusyReasons(answers: seq<Answer>) returns (reasons: seq<Reason>)
    ensures reasons == AllReasons(answers, 0)
    ensures reasons == [] <==> Quiet(answers)
  {
    reasons := [];
    var i := 0;
    while i < |answers|
      invariant 0 <= i <= |answers|
      invariant reasons + AllReasons(answers, i) == AllReasons(answers, 0)
    {
      reasons := reasons + ReasonsOf(i, answers[i]);
      i := i + 1;
    }
    NoReasonsIff(answers, 0);
  }

  class Guard {
    var flagUp: bool
    var clock: nat
    var log: seq<LogLine>

    constructor (flagUp: bool, clock: nat)
      ensures this.flagUp == flagUp && this.clock == clock && log == []
    {
      this.flagUp := flagUp;
      this.clock := clock;
      log := [];
    }

    // A wait is logged when it changed or its last line is old enough.
    ghost predicate LogSparse(from: nat)
      reads this
    {
      forall i :: from < i < |log| ==> log[i].wait != log[i - 1].wait || log[i].at >= log[i - 1].at + REPEAT_LOG_SECONDS
    }

    // One round: a poll, and after a quiet one the flag, the settle time and a second poll.
    method Round(answers: nat -> seq<Answer>, took: nat -> nat, slowest: nat, polls: nat)
      returns (idle: bool, asked: nat)
      requires forall k :: took(k) <= slowest
      modifies this`clock, this`flagUp
      ensures polls < asked <= polls + 2
      ensures idle <==> Quiet(answers(polls)) && Quiet(answers(polls + 1))
      ensures asked == if Quiet(answers(polls)) then polls + 2 else polls + 1
      ensures flagUp == if Quiet(answers(polls)) then idle else old(flagUp)
      ensures old(clock) <= clock <= old(clock) + DRAIN_SETTLE_SECONDS + 2 * slowest
    {
      var reasons := BusyReasons(answers(polls));
      clock := clock + took(polls);
      if reasons != [] {
        return false, polls + 1;
      }
      flagUp := true;
      clock := clock + DRAIN_SETTLE_SECONDS;
      reasons := BusyReasons(answers(polls + 1));
      clock := clock + took(polls + 1);
      if reasons == [] {
        return true, polls + 2;
      }
      flagUp := false;
      return false, polls + 2;
    }

    /** Wait until no API is busy, or `maxPostpone` seconds have passed. The k-th poll gets
        `answers(k)` and takes `took(k)` seconds, at most `slowest`.

        The guard always returns, within one round of the cap; `IsIdle` means that the last
        two polls were quiet. On return the flag is up exactly when the outcome is IsIdle,
        or an earlier guard left it up and no poll was ever quiet. */
    method WaitUntilIdle(answers: nat -> seq<Answer>, took: nat -> nat, slowest: nat, maxPostpone: nat)
      returns (outcome: Outcome, polls: nat)
      requires forall k :: took(k) <= slowest
      modifies this
      ensures polls >= 1
      ensures outcome.IsIdle? ==> polls >= 2 && Quiet(answers(polls - 1)) && Quiet(answers(polls - 2))
      ensures outcome.MaxPostpone? ==> clock >= old(clock) + maxPostpone && !Quiet(answers(polls - 1))
      ensures clock <= old(clock) + maxPostpone + POLL_SECONDS + DRAIN_SETTLE_SECONDS + 2 * slowest
      ensures flagUp <==> outcome.IsIdle? || (old(flagUp) && forall k :: 0 <= k < polls ==> !Quiet(answers(k)))
      ensures old(log) <= log && LogSparse(|old(log)|)
    {
      var started, first := clock, |log|;
      polls := 0;
      ghost var raised := false;
      while true
        invariant started <= clock < started + maxPostpone + POLL_SECONDS
        invariant raised <==> exists k :: 0 <= k < polls && Quiet(answers(k))
        invariant flagUp <==> old(flagUp) && !raised
        invariant first == |old(log)| && old(log) <= log && LogSparse(first)
        invariant |log| > first ==> log[|log| - 1].at <= clock
        decreases started + maxPostpone + POLL_SECONDS - clock
      {
        var from := polls;
        var idle: bool;
        idle, polls := Round(answers, took, slowest, from);
        if idle {
          return IsIdle, polls;
        }
        raised := raised || Quiet(answers(from));
        if clock - started >= maxPostpone {
          return MaxPostpone, polls;
        }
        var reasons := BusyReasons(answers(polls - 1));
        LogWait(SameWait(reasons), first);
        clock := clock + POLL_SECONDS;
      }
    }

    // The lines of this wait begin at `first`.
    method LogWait(wait: seq<Reason>, first: nat)
      requires first <= |log| && LogSparse(first)
      requires |log| > first ==> log[|log| - 1].at <= clock
      modifies this`log
      ensures old(log) <= log && LogSparse(first)
      ensures |log| > first && log[|log| - 1].wait == wait &&
              log[|log| - 1].at <= clock < log[|log| - 1].at + REPEAT_LOG_SECONDS
    {
      if |log| == first || log[|log| - 1].wait != wait || clock - log[|log| - 1].at >= REPEAT_LOG_SECONDS {
        log := log + [LogLine(clock, wait)];
      }
    }
  }

  /** A flag that an earlier guard left up stays up when the guard gives up without ever seeing
      a quiet poll: then it is up although the outcome is not IsIdle. */
  method LeftOverFlagStays(busy: Answer, maxPostpone: nat) returns (outcome: Outcome, flagUp: bool)
    requires busy.Busy?
    ensures outcome.MaxPostpone? && flagUp
  {
    var guard := new Guard(true, 0);
    assert !Quiet([busy]) by { assert [busy][0].Busy?; }
    var polls;
    outcome, polls := guard.WaitUntilIdle(k => [busy], k => 0, 0, maxPostpone);
    flagUp := guard.flagUp;
  }
}
