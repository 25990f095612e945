/**
 The VM watchdog's restart policy (scripts/vm-watchdog.py): what decide does with one
 container's record and one observation, and what that means over every trace of
 observations.
 */
module Watchdog {
  // The lower limits are those the settings are read with.
  datatype Config = Config(minStreak: nat, backoff: seq<nat>, maxAttempts: nat, resetSeconds: nat)

  predicate Valid(cfg: Config) {
    && cfg.minStreak >= 1 && cfg.maxAttempts >= 1 && cfg.resetSeconds >= 1
    && |cfg.backoff| >= 1 && forall i :: 0 <= i < |cfg.backoff| ==> cfg.backoff[i] >= 1
  }

  datatype Health = Healthy | Unhealthy | Starting | NoCheck

  datatype Obs = Obs(health: Health, streak: nat, now: nat)

  datatype Record = Record(lastRestart: nat, attempts: nat, healthySince: nat)

  datatype Action = Wait | Restart | GiveUp

  const FRESH := Record(0, 0, 0)

  // The delay due after the restarts so far.
  function Delay(cfg: Config, attempts: nat): nat
    requires Valid(cfg)
  {
    if attempts == 0 then 0 else cfg.backoff[if attempts < |cfg.backoff| then attempts - 1 else |cfg.backoff| - 1]
  }

  function Decided(cfg: Config, r: Record, o: Obs): (Record, Action)
    requires Valid(cfg)
  {
    if o.health == Healthy then
      var since := if r.healthySince == 0 then o.now else r.healthySince;
      (if o.now - since >= cfg.resetSeconds then Record(0, 0, since) else r.(healthySince := since), Wait)
    else
      var broken := r.(healthySince := 0);
      if o.health != Unhealthy || o.streak < cfg.minStreak then (broken, Wait)
      else if r.attempts >= cfg.maxAttempts then (broken, GiveUp)
      else if r.lastRestart != 0 && o.now - r.lastRestart < Delay(cfg, r.attempts) then (broken, Wait)
      else (Record(o.now, r.attempts + 1, 0), Restart)
  }

  // The record as decide mutates it.
  class VmState {
    var lastRestart: nat
    var attempts: nat
    var healthySince: nat

    constructor (r: Record)
      ensures Value() == r
    {
      lastRestart, attempts, healthySince := r.lastRestart, r.attempts, r.healthySince;
    }

    function Value(): Record
      reads this
    {
      Record(lastRestart, attempts, healthySince)
    }

    method Decide(cfg: Config, health: Health, streak: nat, now: nat) returns (action: Action)
      requires Valid(cfg)
      modifies this
      ensures (Value(), action) == Decided(cfg, old(Value()), Obs(health, streak, now))
    {
      if health != Healthy {
        healthySince := 0;
      }
      if health != Unhealthy {
        if health == Healthy {
          if healthySince == 0 {
            healthySince := now;
          }
          if now - healthySince >= cfg.resetSeconds {
            attempts := 0;
            lastRestart := 0;
          }
        }
        return Wait;
      }
      if streak < cfg.minStreak {
        return Wait;
      }
      if attempts >= cfg.maxAttempts {
        return GiveUp;
      }
      var last := |cfg.backoff| - 1;
      var index := if attempts - 1 < last then attempts - 1 else last;
      index := if index < 0 then 0 else index;
      var delay := if attempts > 0 then cfg.backoff[index] else 0;
      if lastRestart != 0 && now - lastRestart < delay {
        return Wait;
      }
      attempts := attempts + 1;
      lastRestart := now;
      healthySince := 0;
      return Restart;
    }
  }

  // ---------------------------------------------------------------- traces

  // Clock readings are positive and do not go back.
  ghost predicate Ordered(trace: seq<Obs>) {
    && (forall i :: 0 <= i < |trace| ==> trace[i].now > 0)
    && (forall i, j :: 0 <= i < j < |trace| ==> trace[i].now <= trace[j].now)
  }

  function After(cfg: Config, trace: seq<Obs>): Record
    requires Valid(cfg)
  {
    if trace == [] then FRESH else Decided(cfg, After(cfg, trace[..|trace| - 1]), trace[|trace| - 1]).0
  }

  // What was done about the last observation.
  function LastAction(cfg: Config, trace: seq<Obs>): Action
    requires Valid(cfg) && trace != []
  {
    Decided(cfg, After(cfg, trace[..|trace| - 1]), trace[|trace| - 1]).1
  }

  function Restarts(cfg: Config, trace: seq<Obs>): nat
    requires Valid(cfg)
  {
    if trace == [] then 0
    else Restarts(cfg, trace[..|trace| - 1]) + (if LastAction(cfg, trace) == Restart then 1 else 0)
  }

  // When the run of healthy observations at the end of the trace began, or 0.
  function HealthyRun(trace: seq<Obs>): nat {
    if trace == [] || trace[|trace| - 1].health != Healthy then 0
    else
      var before := HealthyRun(trace[..|trace| - 1]);
      if before == 0 then trace[|trace| - 1].now else before
  }

  // The trace ends with a healthy run long enough to give the attempts back.
  predicate Steady(cfg: Config, trace: seq<Obs>) {
    HealthyRun(trace) != 0 && trace[|trace| - 1].now - HealthyRun(trace) >= cfg.resetSeconds
  }

  // The restarts since the trace was last steady.
  function Used(cfg: Config, trace: seq<Obs>): nat
    requires Valid(cfg)
  {
    if trace == [] || Steady(cfg, trace) then 0
    else Used(cfg, trace[..|trace| - 1]) + (if LastAction(cfg, trace) == Restart then 1 else 0)
  }

  // When the last restart was, or 0.
  function LastRestart(cfg: Config, trace: seq<Obs>): nat
    requires Valid(cfg)
  {
    if trace == [] then 0
    else if LastAction(cfg, trace) == Restart then trace[|trace| - 1].now
    else LastRestart(cfg, trace[..|trace| - 1])
  }

  lemma OrderedInit(trace: seq<Obs>)
    requires Ordered(trace) && trace != []
    ensures Ordered(trace[..|trace| - 1])
  {
  }

  lemma {:induction false} RunOf(trace: seq<Obs>)
    requires Ordered(trace)
    ensures HealthyRun(trace) != 0 <==> trace != [] && trace[|trace| - 1].health == Healthy
    ensures trace != [] ==> HealthyRun(trace) <= trace[|trace| - 1].now
  {
    if trace != [] {
      OrderedInit(trace);
      RunOf(trace[..|trace| - 1]);
    }
  }

  /** What the record means: the restarts since the last steady moment, the time of the latest
      of them, and the start of the current healthy run. */
  lemma {:induction false} RecordMeans(cfg: Config, trace: seq<Obs>)
    requires Valid(cfg) && Ordered(trace)
    ensures After(cfg, trace).attempts == Used(cfg, trace) <= cfg.maxAttempts
    ensures After(cfg, trace).healthySince == HealthyRun(trace)
    ensures After(cfg, trace).lastRestart == if Used(cfg, trace) > 0 then LastRestart(cfg, trace) else 0
    ensures Used(cfg, trace) > 0 ==> LastRestart(cfg, trace) > 0
  {
    if trace != [] {
      OrderedInit(trace);
      RecordMeans(cfg, trace[..|trace| - 1]);
      RunOf(trace);
    }
  }

  /** A restart happens exactly when the streak is long enough, the budget is not used up, and
      the backoff due after the restarts so far has passed since the latest of them. */
  lemma RestartIff(cfg: Config, trace: seq<Obs>)
    requires Valid(cfg) && Ordered(trace) && trace != []
    ensures var before, o := trace[..|trace| - 1], trace[|trace| - 1];
            var used := Used(cfg, before);
            LastAction(cfg, trace) == Restart <==>
            && o.health == Unhealthy && o.streak >= cfg.minStreak && used < cfg.maxAttempts
            && (used > 0 ==> o.now - LastRestart(cfg, before) >= Delay(cfg, used))
  {
    OrderedInit(trace);
    RecordMeans(cfg, trace[..|trace| - 1]);
  }

  /** A non-zero healthy_since says that every observation from that moment on was healthy. */
  lemma {:induction false} HealthySinceMeans(cfg: Config, trace: seq<Obs>)
    requires Valid(cfg) && Ordered(trace) && After(cfg, trace).healthySince != 0
    ensures exists k :: 0 <= k < |trace| && RunFrom(trace, k) && trace[k].now == After(cfg, trace).healthySince
  {
    RecordMeans(cfg, trace);
    RunStart(trace);
  }

  // Observations k and later are healthy, and the one before k is not.
  ghost predicate RunFrom(trace: seq<Obs>, k: nat) {
    && k <= |trace| && (forall i :: k <= i < |trace| ==> trace[i].health == Healthy)
    && (k > 0 ==> trace[k - 1].health != Healthy)
  }

  lemma {:induction false} RunStart(trace: seq<Obs>)
    requires Ordered(trace) && HealthyRun(trace) != 0
    ensures exists k :: 0 <= k < |trace| && RunFrom(trace, k) && trace[k].now == HealthyRun(trace)
  {
    var init := trace[..|trace| - 1];
    OrderedInit(trace);
    if HealthyRun(init) != 0 {
      RunStart(init);
      var k :| 0 <= k < |init| && RunFrom(init, k) && init[k].now == HealthyRun(init);
      assert trace[k] == init[k];
      assert forall i :: k <= i < |init| ==> trace[i] == init[i];
      assert k > 0 ==> trace[k - 1] == init[k - 1];
      assert RunFrom(trace, k);
    } else {
      RunOf(init);
      assert |trace| > 1 ==> trace[|trace| - 2] == init[|init| - 1];
      assert RunFrom(trace, |trace| - 1);
    }
  }

  // ---------------------------------------------------------------- how often it restarts

  // `full` budgets have been used and given back by `since`, each over at least the reset time.
  ghost predicate Budgets(cfg: Config, trace: seq<Obs>, full: nat, since: nat)
    requires Valid(cfg) && trace != []
  {
    var r := After(cfg, trace);
    && Restarts(cfg, trace) <= cfg.maxAttempts * full + r.attempts && r.attempts <= cfg.maxAttempts
    && trace[0].now + full * cfg.resetSeconds <= since <= trace[|trace| - 1].now
    && (r.attempts > 0 ==> since <= r.lastRestart && (r.healthySince != 0 ==> r.lastRestart <= r.healthySince))
    && r.lastRestart <= trace[|trace| - 1].now
  }

  lemma Refill(cfg: Config, trace: seq<Obs>, full: nat, since: nat)
    requires Valid(cfg) && Ordered(trace) && |trace| > 1 && Budgets(cfg, trace[..|trace| - 1], full, since)
    requires Steady(cfg, trace) && Used(cfg, trace[..|trace| - 1]) > 0
    ensures Budgets(cfg, trace, full + 1, trace[|trace| - 1].now)
  {
    var init, now := trace[..|trace| - 1], trace[|trace| - 1].now;
    RecordMeans(cfg, trace);
    OrderedInit(trace);
    RecordMeans(cfg, init);
    RunOf(trace);
    assert LastAction(cfg, trace) == Wait && Restarts(cfg, trace) == Restarts(cfg, init);
    assert now - since >= cfg.resetSeconds;
    OneMore(cfg.maxAttempts, cfg.resetSeconds, full);
  }

  lemma OneMore(max: nat, reset: nat, full: nat)
    ensures (full + 1) * reset == full * reset + reset && max * (full + 1) == max * full + max
  {
  }

  lemma SameBudget(cfg: Config, trace: seq<Obs>, full: nat, since: nat)
    requires Valid(cfg) && Ordered(trace) && |trace| > 1 && Budgets(cfg, trace[..|trace| - 1], full, since)
    requires !Steady(cfg, trace) || Used(cfg, trace[..|trace| - 1]) == 0
    ensures Budgets(cfg, trace, full, since)
  {
    RecordMeans(cfg, trace);
    OrderedInit(trace);
    RecordMeans(cfg, trace[..|trace| - 1]);
    assert trace[|trace| - 2].now <= trace[|trace| - 1].now;
  }

  lemma {:induction false} CountBudgets(cfg: Config, trace: seq<Obs>) returns (full: nat, since: nat)
    requires Valid(cfg) && Ordered(trace) && trace != []
    ensures Budgets(cfg, trace, full, since)
  {
    var init := trace[..|trace| - 1];
    if init == [] {
      full, since := 0, trace[0].now;
      RecordMeans(cfg, trace);
      assert After(cfg, init) == FRESH && Restarts(cfg, init) == 0;
    } else {
      OrderedInit(trace);
      full, since := CountBudgets(cfg, init);
      if Steady(cfg, trace) && Used(cfg, init) > 0 {
        Refill(cfg, trace, full, since);
        full, since := full + 1, trace[|trace| - 1].now;
      } else {
        SameBudget(cfg, trace, full, since);
      }
    }
  }

  // The most restarts in this many seconds.
  function Most(cfg: Config, elapsed: nat): nat
    requires Valid(cfg)
  {
    cfg.maxAttempts * (1 + elapsed / cfg.resetSeconds)
  }

  lemma MostOf(cfg: Config, full: nat, elapsed: nat)
    requires Valid(cfg) && full * cfg.resetSeconds <= elapsed
    ensures cfg.maxAttempts * full + cfg.maxAttempts <= Most(cfg, elapsed)
  {
    DivideBound(full, elapsed, cfg.resetSeconds);
    MulMono(cfg.maxAttempts, full + 1, 1 + elapsed / cfg.resetSeconds);
    assert cfg.maxAttempts * (full + 1) == cfg.maxAttempts * full + cfg.maxAttempts;
  }

  lemma MostMono(cfg: Config, less: nat, more: nat)
    requires Valid(cfg) && less <= more
    ensures Most(cfg, less) <= Most(cfg, more)
  {
    DivideBound(less / cfg.resetSeconds, more, cfg.resetSeconds);
    MulMono(cfg.maxAttempts, 1 + less / cfg.resetSeconds, 1 + more / cfg.resetSeconds);
  }

  /** Over any trace, restarts number at most one budget, and one more for each full reset
      time that has passed. */
  lemma RestartsAreBounded(cfg: Config, trace: seq<Obs>)
    requires Valid(cfg) && Ordered(trace) && trace != []
    ensures Restarts(cfg, trace) <= Most(cfg, trace[|trace| - 1].now - trace[0].now)
  {
    var full, since := CountBudgets(cfg, trace);
    MostOf(cfg, full, trace[|trace| - 1].now - trace[0].now);
  }

  lemma DivideBound(n: nat, total: nat, unit: nat)
    requires unit > 0 && n * unit <= total
    ensures n <= total / unit
  {
    if n > total / unit {
      MulMono(unit, total / unit + 1, n);
    }
  }

  lemma MulMono(k: nat, a: nat, b: nat)
    requires a <= b
    ensures k * a <= k * b
  {
    assert k * b == k * a + k * (b - a);
  }
}
