/**
 Registry, loader and the merged view together (mt5api/chartctl/registry.py and the Chart
 Control Protocol as tests/chartctl_fake_loader.py plays it): who publishes what under which
 revision, and when the view may call the deployments converged.
 */
module Deployments {
  import opened Options
  import opened Registry

  datatype Status = Running | Paused | Failed | Pending | Degraded

  // One loader pass: the desired state it read, and what went wrong.
  datatype Pass = Pass(from: Reg, fails: set<Id>, missing: set<Id>)

  // Building a view takes three reads: the observed file, the revision, the deployments.
  datatype Reader =
    | Away
    | HasObserved(pass: Option<Pass>, stale: bool)
    | HasRevision(pass: Option<Pass>, stale: bool, revision: nat)

  datatype View = View(revision: nat, deps: map<Id, Deployment>, converged: bool)

  /** `published` is every desired.json there has been, oldest first; before any there is one of
      revision 0 with nothing in it. `loader` is a pass under way and `observed` the last one
      that was written. */
  datatype State = State(mem: Reg, disk: Reg, published: seq<Reg>, loader: Option<Reg>, observed: Option<Pass>,
                         reader: Reader, view: Option<View>)

  datatype Step =
    | Change(edit: Edit, save: Save)
    | Restart
    | Corrupt
    | LoaderRead
    | LoaderWrite(fails: set<Id>, missing: set<Id>)
    | ReadObserved(stale: bool)
    | ReadRevision
    | ReadList

  const EXPERT := Deployment("EURUSD", "H1", false, 0)

  const START := State(EMPTY, EMPTY, [EMPTY], None, None, Away, None)

  // What desired.json says.
  function Desired(s: State): Reg { if s.published == [] then EMPTY else s.published[|s.published| - 1] }

  // What the loader reports of one deployment.
  function Reported(p: Pass, id: Id): Option<Status> {
    if id !in p.from.deps then None
    else if !p.from.deps[id].enabled then Some(Paused)
    else if id in p.fails then Some(Failed)
    else if id in p.missing then Some(Pending)
    else Some(Running)
  }

  function Reports(p: Option<Pass>, id: Id): Option<Status> { if p.None? then None else Reported(p.value, id) }

  function Error(p: Option<Pass>, id: Id): bool {
    p.Some? && id in p.value.from.deps && p.value.from.deps[id].enabled && id in p.value.fails
  }

  function Derived(dep: Deployment, obs: Option<Status>, err: bool, stale: bool): Status {
    if !dep.enabled then Paused
    else if err && obs != Some(Running) then Failed
    else if obs == Some(Running) then (if stale then Degraded else Running)
    else if obs.Some? then obs.value
    else Pending
  }

  predicate Settled(dep: Deployment, p: Option<Pass>, id: Id, stale: bool) {
    Derived(dep, Reports(p, id), Error(p, id), stale) in {Running, Paused}
  }

  predicate Converged(deps: map<Id, Deployment>, p: Option<Pass>, stale: bool, revision: nat) {
    && (forall id :: id in deps ==> Settled(deps[id], p, id, stale))
    && p.Some? && p.value.from.revision == revision && !stale
  }

  predicate Enabled(s: State, step: Step) {
    match step
    case Change(Add(id, _), _) => id !in s.mem.deps
    case LoaderWrite(_, _) => s.loader.Some?
    case ReadRevision => s.reader.HasObserved?
    case ReadList => s.reader.HasRevision?
    case _ => true
  }

  function Apply(s: State, step: Step): State
    requires Enabled(s, step)
  {
    match step
    case Change(edit, save) =>
      var (mem, r) := Edited(s.mem, edit);
      if r != Ok then s
      else
        s.(mem := mem, disk := if save == Nothing then s.disk else mem,
           published := if save == Both then s.published + [mem] else s.published)
    case Restart => s.(mem := s.disk)
    case Corrupt => s.(disk := EMPTY)
    case LoaderRead => s.(loader := Some(Desired(s)))
    case LoaderWrite(fails, missing) => s.(observed := Some(Pass(s.loader.value, fails, missing)), loader := None)
    case ReadObserved(stale) => s.(reader := HasObserved(s.observed, stale || s.observed.None?))
    case ReadRevision => s.(reader := HasRevision(s.reader.pass, s.reader.stale, s.mem.revision))
    case ReadList =>
      s.(reader := Away,
         view := Some(View(s.reader.revision, s.mem.deps,
                           Converged(s.mem.deps, s.reader.pass, s.reader.stale, s.reader.revision))))
  }

  predicate Runs(s: State, steps: seq<Step>)
    decreases |steps|
  {
    steps == [] || (Enabled(s, steps[0]) && Runs(Apply(s, steps[0]), steps[1..]))
  }

  function Exec(s: State, steps: seq<Step>): State
    requires Runs(s, steps)
    decreases |steps|
  {
    if steps == [] then s else Exec(Apply(s, steps[0]), steps[1..])
  }

  // ---------------------------------------------------------------- one chart each

  ghost predicate NoDuplicates(s: State) {
    && OneChartEach(s.mem.deps) && OneChartEach(s.disk.deps)
    && forall i :: 0 <= i < |s.published| ==> OneChartEach(s.published[i].deps)
  }

  lemma {:induction false} NoDuplicatesRun(s: State, steps: seq<Step>)
    requires NoDuplicates(s) && Runs(s, steps)
    ensures NoDuplicates(Exec(s, steps))
    decreases |steps|
  {
    if steps != [] {
      if steps[0].Change? {
        EditKeepsOneChart(s.mem, steps[0].edit);
      }
      NoDuplicatesRun(Apply(s, steps[0]), steps[1..]);
    }
  }

  /** In every run, failed writes, restarts and lost files included, no two enabled deployments
      share a chart, in memory or in anything the loader was ever told. */
  lemma OneChartAlways(steps: seq<Step>)
    requires Runs(START, steps)
    ensures NoDuplicates(Exec(START, steps))
  {
    NoDuplicatesRun(START, steps);
  }

  lemma Extend(s: State, steps: seq<Step>, step: Step)
    requires Runs(s, steps) && Enabled(Exec(s, steps), step)
    ensures Runs(s, steps + [step]) && Exec(s, steps + [step]) == Apply(Exec(s, steps), step)
    decreases |steps|
  {
    if steps == [] {
      assert [step][1..] == [];
    } else {
      Extend(Apply(s, steps[0]), steps[1..], step);
      assert (steps + [step])[1..] == steps[1..] + [step];
    }
  }

  // ---------------------------------------------------------------- what a revision names

  ghost predicate Rising(published: seq<Reg>) {
    forall i, j :: 0 <= i < j < |published| ==> published[i].revision < published[j].revision
  }

  // A registry no older than the last desired.json, and the same one when it has its revision.
  ghost predicate NotBehind(r: Reg, published: seq<Reg>) {
    published != [] &&
    var last := published[|published| - 1];
    r.revision >= last.revision && (r.revision == last.revision ==> r == last)
  }

  // A revision names one content.
  ghost predicate OneContent(published: seq<Reg>) {
    forall a, b :: a in published && b in published && a.revision == b.revision ==> a == b
  }

  // The registry file is as new as desired.json; one that cannot be read counts as revision 0.
  predicate NewEnough(s: State) { s.disk.revision >= Desired(s).revision }

  // Whenever the API restarts, the file it reads is new enough.
  predicate SafeRestarts(s: State, steps: seq<Step>)
    requires Runs(s, steps)
    decreases |steps|
  {
    steps == [] || ((steps[0].Restart? ==> NewEnough(s)) && SafeRestarts(Apply(s, steps[0]), steps[1..]))
  }

  ghost predicate Inv(s: State) {
    && Rising(s.published) && s.published != [] && s.published[0] == EMPTY
    && NotBehind(s.mem, s.published) && (s.disk == EMPTY || NotBehind(s.disk, s.published))
    && (s.loader.Some? ==> s.loader.value in s.published)
    && (s.observed.Some? ==> s.observed.value.from in s.published)
    && (!s.reader.Away? && s.reader.pass.Some? ==> s.reader.pass.value.from in s.published)
  }

  lemma EditRaises(r: Reg, e: Edit)
    ensures Edited(r, e).1 == Ok ==> Edited(r, e).0.revision == r.revision + 1
  {
  }

  lemma InvKept(s: State, step: Step)
    requires Inv(s) && Enabled(s, step) && (step.Restart? ==> NewEnough(s))
    ensures Inv(Apply(s, step))
  {
    if step.Change? {
      ChangeKept(s, step.edit, step.save);
    } else if step.Restart? {
      assert s.published[0].revision <= Desired(s).revision;
    } else {
      OtherKept(s, step);
    }
  }

  lemma ChangeKept(s: State, edit: Edit, save: Save)
    requires Inv(s) && Enabled(s, Change(edit, save))
    ensures Inv(Apply(s, Change(edit, save)))
  {
    EditRaises(s.mem, edit);
  }

  lemma OtherKept(s: State, step: Step)
    requires Inv(s) && Enabled(s, step) && !step.Change? && !step.Restart?
    ensures Inv(Apply(s, step))
  {
  }

  lemma {:induction false} InvRun(s: State, steps: seq<Step>)
    requires Inv(s) && Runs(s, steps) && SafeRestarts(s, steps)
    ensures Inv(Exec(s, steps))
    decreases |steps|
  {
    if steps != [] {
      InvKept(s, steps[0]);
      InvRun(Apply(s, steps[0]), steps[1..]);
    }
  }

  /** As long as every restart reads a registry file as new as desired.json, whatever writes
      fail and even if the file was lost in between, each published revision is above all
      before it, so a revision names one content. */
  lemma RevisionNamesContent(steps: seq<Step>)
    requires Runs(START, steps) && SafeRestarts(START, steps)
    ensures Rising(Exec(START, steps).published) && OneContent(Exec(START, steps).published)
  {
    InvRun(START, steps);
  }

  function Rewrites(n: nat): seq<Step> { if n == 0 then [] else [Change(Rewrite, Nothing)] + Rewrites(n - 1) }

  lemma {:induction false} RewritesRun(s: State, n: nat)
    ensures Runs(s, Rewrites(n)) && SafeRestarts(s, Rewrites(n))
    ensures Exec(s, Rewrites(n)) == s.(mem := s.mem.(revision := s.mem.revision + n))
    decreases n
  {
    if n > 0 {
      RewritesRun(Apply(s, Change(Rewrite, Nothing)), n - 1);
      assert Rewrites(n)[1..] == Rewrites(n - 1);
    }
  }

  // An edit that leaves the registry with other deployments than these.
  lemma OtherContent(r: Reg, deps: map<Id, Deployment>) returns (e: Edit)
    ensures Edited(r, e) == (Reg(r.revision + 1, Edited(r, e).0.deps), Ok) && Edited(r, e).0.deps != deps
    ensures e.Add? ==> e.id !in r.deps
  {
    if r.deps != deps {
      e := Rewrite;
    } else if r.deps == map[] {
      e := Add("a", EXPERT);
      assert "a" in Edited(r, e).0.deps;
    } else {
      var id :| id in r.deps;
      e := Remove(id);
      assert id !in Edited(r, e).0.deps;
    }
  }

  // A restart from a file that is too old: the revisions up to the published one are used again.
  lemma StaleRestartReuses(s: State) returns (more: seq<Step>)
    requires Inv(s) && !NewEnough(s)
    ensures Runs(Apply(s, Restart), more) && SafeRestarts(Apply(s, Restart), more)
    ensures !OneContent(Exec(Apply(s, Restart), more).published)
  {
    var t, last := Apply(s, Restart), Desired(s);
    var n: nat := last.revision - s.disk.revision - 1;
    RewritesRun(t, n);
    var u := Exec(t, Rewrites(n));
    var e := OtherContent(u.mem, last.deps);
    var publish := Change(e, Both);
    more := Rewrites(n) + [publish];
    Extend(t, Rewrites(n), publish);
    SafeExtend(t, Rewrites(n), publish);
    var v := Exec(t, more);
    assert v.published == s.published + [v.mem];
    assert last in v.published && v.mem in v.published && v.mem.revision == last.revision;
  }

  lemma {:induction false} SafeExtend(s: State, steps: seq<Step>, step: Step)
    requires Runs(s, steps) && SafeRestarts(s, steps) && Runs(s, steps + [step]) && !step.Restart?
    ensures SafeRestarts(s, steps + [step])
    decreases |steps|
  {
    if steps != [] {
      assert (steps + [step])[1..] == steps[1..] + [step];
      SafeExtend(Apply(s, steps[0]), steps[1..], step);
    } else {
      assert (steps + [step])[1..] == [];
    }
  }

  /** After a restart revisions go on naming one content each, in every run with safe restarts
      from then on, exactly when the file it read is as new as desired.json: two files a caller
      can compare before starting the API. */
  lemma RestartIsSafeIff(steps: seq<Step>)
    requires Runs(START, steps) && SafeRestarts(START, steps)
    ensures var t := Apply(Exec(START, steps), Restart);
            (forall more :: Runs(t, more) && SafeRestarts(t, more) ==> OneContent(Exec(t, more).published))
            <==> NewEnough(Exec(START, steps))
  {
    InvRun(START, steps);
    var s := Exec(START, steps);
    var t := Apply(s, Restart);
    if NewEnough(s) {
      InvKept(s, Restart);
      forall more | Runs(t, more) && SafeRestarts(t, more)
        ensures OneContent(Exec(t, more).published)
      {
        InvRun(t, more);
      }
    } else {
      var more := StaleRestartReuses(s);
      assert Runs(t, more) && SafeRestarts(t, more);
    }
  }

  // ---------------------------------------------------------------- what converged means

  predicate RunningNow(p: Option<Pass>, id: Id) { Reports(p, id) == Some(Running) }

  ghost predicate AllRunning(deps: map<Id, Deployment>, p: Option<Pass>) {
    forall id :: id in deps && deps[id].enabled ==> RunningNow(p, id)
  }

  // Some deployment listed as enabled was last reported as paused.
  ghost predicate Resumed(deps: map<Id, Deployment>, p: Option<Pass>) {
    exists id :: id in deps && deps[id].enabled && Reports(p, id) == Some(Paused)
  }

  /** A converged view has every enabled deployment running unless one of them was reported as
      paused, which counts as settled. */
  lemma ConvergedRunsIff(deps: map<Id, Deployment>, p: Option<Pass>, revision: nat)
    requires Converged(deps, p, false, revision)
    ensures AllRunning(deps, p) <==> !Resumed(deps, p)
  {
    forall id | id in deps && deps[id].enabled
      ensures RunningNow(p, id) || Reports(p, id) == Some(Paused)
    {
      assert Settled(deps[id], p, id, false);
    }
  }

  /** When the revision is still the one the view read, a converged view says that the observed
      file was made from the state in force and has every enabled deployment running. */
  lemma ConvergedMeans(steps: seq<Step>)
    requires Runs(START, steps) && SafeRestarts(START, steps)
    requires var s := Exec(START, steps);
             s.reader.HasRevision? && s.mem.revision == s.reader.revision
             && Converged(s.mem.deps, s.reader.pass, s.reader.stale, s.reader.revision)
    ensures var s := Exec(START, steps);
            && s.reader.pass.value.from == s.mem == Desired(s)
            && AllRunning(s.mem.deps, s.reader.pass)
  {
    InvRun(START, steps);
    var s := Exec(START, steps);
    var from := s.reader.pass.value.from;
    var i :| 0 <= i < |s.published| && s.published[i] == from;
    assert i == |s.published| - 1;
    ConvergedRunsIff(s.mem.deps, s.reader.pass, s.reader.revision);
  }

  // ---------------------------------------------------------------- a pass that converges

  lemma Chain(s: State, step: Step, rest: seq<Step>)
    requires Enabled(s, step) && Runs(Apply(s, step), rest)
    ensures Runs(s, [step] + rest) && Exec(s, [step] + rest) == Exec(Apply(s, step), rest)
  {
    assert ([step] + rest)[1..] == rest;
  }

  lemma ViewOf(s: State, stale: bool)
    ensures var look := [ReadObserved(stale), ReadRevision, ReadList];
            && Runs(s, look)
            && Exec(s, look).view ==
               Some(View(s.mem.revision, s.mem.deps,
                         Converged(s.mem.deps, s.observed, stale || s.observed.None?, s.mem.revision)))
  {
    var t := Apply(s, ReadObserved(stale));
    var u := Apply(t, ReadRevision);
    Chain(u, ReadList, []);
    Chain(t, ReadRevision, [ReadList] + []);
    Chain(s, ReadObserved(stale), [ReadRevision] + ([ReadList] + []));
    assert [ReadObserved(stale)] + ([ReadRevision] + ([ReadList] + [])) ==
           [ReadObserved(stale), ReadRevision, ReadList];
  }

  /** Once the latest edit has reached desired.json, one loader pass without failures makes the
      next undisturbed view converged. */
  lemma UndisturbedPassConverges(steps: seq<Step>)
    requires Runs(START, steps) && SafeRestarts(START, steps) && Desired(Exec(START, steps)) == Exec(START, steps).mem
    ensures var s := Exec(START, steps);
            var work := [LoaderRead, LoaderWrite({}, {})] + [ReadObserved(false), ReadRevision, ReadList];
            Runs(s, work) && Exec(s, work).view == Some(View(s.mem.revision, s.mem.deps, true))
  {
    InvRun(START, steps);
    var s := Exec(START, steps);
    var look := [ReadObserved(false), ReadRevision, ReadList];
    var t := Apply(s, LoaderRead);
    var u := Apply(t, LoaderWrite({}, {}));
    ViewOf(u, false);
    forall id | id in u.mem.deps ensures Settled(u.mem.deps[id], u.observed, id, false) {
    }
    Chain(t, LoaderWrite({}, {}), look);
    Chain(s, LoaderRead, [LoaderWrite({}, {})] + look);
    assert [LoaderRead] + ([LoaderWrite({}, {})] + look) == [LoaderRead, LoaderWrite({}, {})] + look;
  }

  // ---------------------------------------------------------------- where it fails

  // A paused deployment, seen by the loader, and a view that has read the revision.
  lemma PausedSeen() returns (steps: seq<Step>)
    ensures Runs(START, steps) && NoRestart(steps)
    ensures var reg := Reg(1, map["a" := EXPERT]);
            var pass := Some(Pass(reg, {}, {}));
            Exec(START, steps) == State(reg, reg, [EMPTY, reg], None, pass, HasRevision(pass, false, 1), None)
  {
    var add := Change(Add("a", EXPERT), Both);
    Extend(START, [], add);
    steps := [] + [add];
    Extend(START, steps, LoaderRead);
    steps := steps + [LoaderRead];
    Extend(START, steps, LoaderWrite({}, {}));
    steps := steps + [LoaderWrite({}, {})];
    Extend(START, steps, ReadObserved(false));
    steps := steps + [ReadObserved(false)];
    Extend(START, steps, ReadRevision);
    steps := steps + [ReadRevision];
  }

  ghost predicate NoRestart(steps: seq<Step>) { forall i :: 0 <= i < |steps| ==> !steps[i].Restart? }

  lemma {:induction false} NoRestartIsSafe(s: State, steps: seq<Step>)
    requires Runs(s, steps) && NoRestart(steps)
    ensures SafeRestarts(s, steps)
    decreases |steps|
  {
    if steps != [] {
      NoRestartIsSafe(Apply(s, steps[0]), steps[1..]);
    }
  }

  /** A deployment resumed after a view has read the revision and before it lists the
      deployments: the view calls the state converged, and the deployment is not running. */
  lemma ResumeLooksConverged() returns (steps: seq<Step>)
    ensures Runs(START, steps) && SafeRestarts(START, steps)
    ensures var s := Exec(START, steps);
            && s.view == Some(View(1, s.mem.deps, true)) && s.mem.revision == 2
            && !AllRunning(s.mem.deps, s.observed)
  {
    steps := PausedSeen();
    var resume := Change(Update("a", None, Some(true)), Both);
    Extend(START, steps, resume);
    steps := steps + [resume];
    var s := Exec(START, steps);
    assert s.mem.deps["a"] == EXPERT.(enabled := true);
    Extend(START, steps, ReadList);
    steps := steps + [ReadList];
    assert Reports(s.observed, "a") == Some(Paused);
    NoRestartIsSafe(START, steps);
  }

  /** After the registry file is lost, revisions start again: one revision, two contents. */
  lemma LostRegistryReusesRevisions() returns (steps: seq<Step>)
    ensures Runs(START, steps)
    ensures var published := Exec(START, steps).published;
            exists a, b :: a in published && b in published && a.revision == b.revision && a != b
  {
    var first, second := Change(Add("a", EXPERT), Both), Change(Add("b", EXPERT), Both);
    steps := [];
    Extend(START, steps, first);
    steps := steps + [first];
    Extend(START, steps, Corrupt);
    steps := steps + [Corrupt];
    Extend(START, steps, Restart);
    steps := steps + [Restart];
    Extend(START, steps, second);
    steps := steps + [second];
    var a, b := Reg(1, map["a" := EXPERT]), Reg(1, map["b" := EXPERT]);
    assert Exec(START, steps).published == [EMPTY, a, b];
    assert "a" in a.deps && "a" !in b.deps;
    assert a in [EMPTY, a, b] && b in [EMPTY, a, b];
  }
}
