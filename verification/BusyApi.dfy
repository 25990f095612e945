/**
 One API process as the reboot guard sees it (mt5api/reboot_guard.py, mt5api/server.py,
 the tail of run_backtest in mt5api/backtest/handler.py): a write first looks at the drain
 flag, then registers; a backtest POST stores its job and registers the worker before it
 is itself unregistered.
 */
module BusyApi {
  // A registered request; a backtest POST goes Posting, Stored, Handed.
  datatype Work = Plain | Posting | Stored(job: nat) | Handed(job: nat)

  // `gap` holds the writes that looked at the flag, by the time they did, and have not
  // registered yet. `jobs` tells of every stored job whether its status is active.
  datatype Api = Api(gap: map<nat, real>, writes: map<nat, Work>, used: set<nat>, workers: set<nat>,
                     jobs: map<nat, bool>)

  datatype Act =
    | Admit(r: nat, at: real)
    | Register(r: nat, post: bool)
    | StoreJob(r: nat, j: nat)
    | StartWorker(r: nat)
    | StartFails(r: nat)
    | EndWrite(r: nat)
    | JobEnds(j: nat)
    | WorkerEnds(j: nat)

  const FRESH := Api(map[], map[], {}, {}, map[])

  predicate Enabled(a: Api, act: Act) {
    match act
    case Admit(r, _) => r !in a.used
    case Register(r, _) => r in a.gap
    case StoreJob(r, j) => r in a.writes && a.writes[r] == Posting && j !in a.jobs
    case StartWorker(r) => r in a.writes && a.writes[r].Stored?
    case StartFails(r) => r in a.writes && a.writes[r].Handed?
    case EndWrite(r) => r in a.writes && !a.writes[r].Stored?
    case JobEnds(j) => j in a.jobs
    case WorkerEnds(j) => j in a.workers
  }

  function Apply(a: Api, act: Act): Api
    requires Enabled(a, act)
  {
    match act
    case Admit(r, at) => a.(gap := a.gap[r := at], used := a.used + {r})
    case Register(r, post) => a.(gap := a.gap - {r}, writes := a.writes[r := if post then Posting else Plain])
    case StoreJob(r, j) => a.(jobs := a.jobs[j := true], writes := a.writes[r := Stored(j)])
    case StartWorker(r) =>
      a.(workers := a.workers + {a.writes[r].job}, writes := a.writes[r := Handed(a.writes[r].job)])
    case StartFails(r) => a.(workers := a.workers - {a.writes[r].job})
    case EndWrite(r) => a.(writes := a.writes - {r})
    case JobEnds(j) => a.(jobs := a.jobs[j := false])
    case WorkerEnds(j) => a.(workers := a.workers - {j})
  }

  predicate Runs(a: Api, acts: seq<Act>)
    decreases |acts|
  {
    acts == [] || (Enabled(a, acts[0]) && Runs(Apply(a, acts[0]), acts[1..]))
  }

  function Exec(a: Api, acts: seq<Act>): Api
    requires Runs(a, acts)
    decreases |acts|
  {
    if acts == [] then a else Exec(Apply(a, acts[0]), acts[1..])
  }

  ghost predicate Valid(a: Api) {
    && a.gap.Keys <= a.used && a.writes.Keys <= a.used && a.gap.Keys !! a.writes.Keys
    && a.workers <= a.jobs.Keys
    && (forall r :: r in a.writes && (a.writes[r].Stored? || a.writes[r].Handed?) ==> a.writes[r].job in a.jobs)
  }

  // The request has stored this job.
  predicate Holds(w: Work, j: nat) { (w.Stored? || w.Handed?) && w.job == j }

  lemma ValidKept(a: Api, act: Act)
    requires Valid(a) && Enabled(a, act)
    ensures Valid(Apply(a, act))
  {
  }

  lemma {:induction false} ValidExec(a: Api, acts: seq<Act>)
    requires Valid(a) && Runs(a, acts)
    ensures Valid(Exec(a, acts))
    decreases |acts|
  {
    if acts != [] {
      ValidKept(a, acts[0]);
      ValidExec(Apply(a, acts[0]), acts[1..]);
    }
  }

  // The /busy answer from its three snapshots: the writes, then the workers, then the jobs.
  predicate Busy(writes: map<nat, Work>, workers: set<nat>, jobs: map<nat, bool>) {
    writes != map[] || exists j :: j in jobs && (jobs[j] || j in workers)
  }

  // Something a reboot would break.
  predicate Working(a: Api) {
    a.writes != map[] || a.workers != {} || exists j :: j in a.jobs && a.jobs[j]
  }

  // Job j of the POST r is carried: by the POST, and once its worker is registered by that.
  ghost predicate Carried(a: Api, r: nat, j: nat) {
    && r in a.used && r !in a.gap
    && (forall q :: q in a.writes && Holds(a.writes[q], j) ==> q == r)
    && if r !in a.writes then j in a.workers
       else
         || (a.writes[r] == Posting && j !in a.jobs)
         || a.writes[r] == Stored(j)
         || (a.writes[r] == Handed(j) && j in a.workers)
  }

  // Neither the worker nor its start ends here, the POST is not refused before it stores its
  // job, and j is the id this POST gives its job.
  predicate GoesOn(a: Api, act: Act, r: nat, j: nat) {
    && act != WorkerEnds(j) && act != StartFails(r)
    && (act == EndWrite(r) && r in a.writes ==> a.writes[r] != Posting)
    && (act.StoreJob? ==> (act.r == r <==> act.j == j))
  }

  predicate Ongoing(a: Api, acts: seq<Act>, r: nat, j: nat)
    requires Runs(a, acts)
    decreases |acts|
  {
    acts == [] || (GoesOn(a, acts[0], r, j) && Ongoing(Apply(a, acts[0]), acts[1..], r, j))
  }

  // The POST is not unregistered between storing its job and registering the worker.
  lemma CarriedKept(a: Api, act: Act, r: nat, j: nat)
    requires Valid(a) && Enabled(a, act) && Carried(a, r, j) && GoesOn(a, act, r, j)
    ensures Carried(Apply(a, act), r, j)
  {
  }

  lemma {:induction false} CarriedExec(a: Api, acts: seq<Act>, r: nat, j: nat)
    requires Valid(a) && Runs(a, acts) && Carried(a, r, j) && Ongoing(a, acts, r, j)
    ensures Valid(Exec(a, acts)) && Carried(Exec(a, acts), r, j)
    decreases |acts|
  {
    if acts != [] {
      ValidKept(a, acts[0]);
      CarriedKept(a, acts[0], r, j);
      CarriedExec(Apply(a, acts[0]), acts[1..], r, j);
    }
  }

  // A request that has registered never registers again, and a stored job stays in the table.
  lemma {:induction false} EndedStaysEnded(a: Api, acts: seq<Act>, r: nat)
    requires Valid(a) && Runs(a, acts) && r in a.used && r !in a.gap
    ensures var b := Exec(a, acts); r in b.used && r !in b.gap && a.jobs.Keys <= b.jobs.Keys
    ensures r !in a.writes ==> r !in Exec(a, acts).writes
    decreases |acts|
  {
    if acts != [] {
      ValidKept(a, acts[0]);
      EndedStaysEnded(Apply(a, acts[0]), acts[1..], r);
    }
  }

  /** No gap in the hand-over: from the moment a backtest POST registers until its worker
      ends, whatever the process does before and between the three reads of one /busy answer,
      the answer is busy. */
  lemma HandOverHasNoGap(s: Api, before: seq<Act>, toWorkers: seq<Act>, toJobs: seq<Act>, r: nat, j: nat)
    requires Valid(s) && Enabled(s, Register(r, true)) && j !in s.jobs
    requires var posted := Apply(s, Register(r, true)); Runs(posted, before) && Ongoing(posted, before, r, j)
    requires var a := Exec(Apply(s, Register(r, true)), before);
      && Runs(a, toWorkers) && Ongoing(a, toWorkers, r, j) && Runs(Exec(a, toWorkers), toJobs)
    ensures var a := Exec(Apply(s, Register(r, true)), before);
      var b := Exec(a, toWorkers);
      Busy(a.writes, b.workers, Exec(b, toJobs).jobs)
  {
    var posted := Apply(s, Register(r, true));
    ValidKept(s, Register(r, true));
    CarriedExec(posted, before, r, j);
    var a := Exec(posted, before);
    if r !in a.writes {
      CarriedExec(a, toWorkers, r, j);
      EndedStaysEnded(a, toWorkers, r);
      var b := Exec(a, toWorkers);
      EndedStaysEnded(b, toJobs, r);
      assert j in b.workers && j in Exec(b, toJobs).jobs;
    }
  }

  /** The order of the reads matters: with the workers read before the writes, a POST that
      hands over in between is missed although its job is carried throughout. */
  lemma ReversedReadsMiss() returns (a: Api, acts: seq<Act>)
    ensures Valid(a) && Carried(a, 1, 1) && Runs(a, acts) && Ongoing(a, acts, 1, 1)
    ensures var b := Exec(a, acts); !Busy(b.writes, a.workers, b.jobs)
  {
    a := Api(map[], map[1 := Stored(1)], {1}, {}, map[1 := true]);
    acts := [StartWorker(1), EndWrite(1), JobEnds(1)];
    var b := Apply(a, StartWorker(1));
    var c := Apply(b, EndWrite(1));
    var d := Apply(c, JobEnds(1));
    assert 1 in b.writes && 1 in c.workers && 1 in d.workers;
    assert Runs(d, []) && Runs(c, acts[2..]) && Runs(b, acts[1..]) && Runs(a, acts);
    assert Ongoing(d, [], 1, 1) && Ongoing(c, acts[2..], 1, 1) && Ongoing(b, acts[1..], 1, 1);
    assert Exec(c, acts[2..]) == d && Exec(b, acts[1..]) == d && Exec(a, acts) == d;
    assert d.writes == map[];
  }
}
