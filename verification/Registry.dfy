/**
 The deployment registry (mt5api/chartctl/registry.py): edits of the desired state, what
 they leave in memory and in the two files, and what the state is worth when a write fails.
 */
module Registry {
  import opened Options
  import opened Text

  type Id = string

  // `rest` stands for the fields no rule looks at.
  datatype Deployment = Deployment(symbol: string, timeframe: string, enabled: bool, rest: nat)

  datatype Reg = Reg(revision: nat, deps: map<Id, Deployment>)

  // `rest` and `enabled` are the changes of an update; None leaves a field as it is.
  datatype Edit =
    | Add(id: Id, dep: Deployment)
    | Update(id: Id, rest: Option<nat>, enabled: Option<bool>)
    | Remove(id: Id)
    | Rewrite

  datatype Result = Ok | Duplicate | Missing

  // How far saving got: the registry file and then desired.json.
  datatype Save = Nothing | RegistryOnly | Both

  const EMPTY := Reg(0, map[])

  predicate SameChart(a: Deployment, b: Deployment) {
    Upper(a.symbol) == Upper(b.symbol) && Upper(a.timeframe) == Upper(b.timeframe)
  }

  // Another enabled deployment has this chart.
  predicate Taken(deps: map<Id, Deployment>, dep: Deployment, except: Option<Id>) {
    exists id :: id in deps && Some(id) != except && deps[id].enabled && SameChart(deps[id], dep)
  }

  function Changed(dep: Deployment, rest: Option<nat>, enabled: Option<bool>): Deployment {
    dep.(rest := if rest.Some? then rest.value else dep.rest,
         enabled := if enabled.Some? then enabled.value else dep.enabled)
  }

  // What an edit makes of the registry, and its answer.
  function Edited(r: Reg, e: Edit): (Reg, Result) {
    match e
    case Add(id, dep) =>
      if dep.enabled && Taken(r.deps, dep, None) then (r, Duplicate)
      else (Reg(r.revision + 1, r.deps[id := dep]), Ok)
    case Update(id, rest, enabled) =>
      if id !in r.deps then (r, Missing)
      else if enabled == Some(true) && !r.deps[id].enabled && Taken(r.deps, r.deps[id], Some(id)) then (r, Duplicate)
      else (Reg(r.revision + 1, r.deps[id := Changed(r.deps[id], rest, enabled)]), Ok)
    case Remove(id) =>
      if id !in r.deps then (r, Missing) else (Reg(r.revision + 1, r.deps - {id}), Ok)
    case Rewrite => (r.(revision := r.revision + 1), Ok)
  }

  // No two enabled deployments have one chart.
  ghost predicate OneChartEach(deps: map<Id, Deployment>) {
    forall a, b :: a in deps && b in deps && a != b && deps[a].enabled && deps[b].enabled ==>
           !SameChart(deps[a], deps[b])
  }

  lemma EditKeepsOneChart(r: Reg, e: Edit)
    requires OneChartEach(r.deps)
    ensures OneChartEach(Edited(r, e).0.deps)
  {
    match e
    case Add(id, dep) =>
    case Update(id, rest, enabled) =>
    case Remove(id) =>
    case Rewrite =>
  }

  // The registry as one process holds it, with the two files.
  class Store {
    var mem: Reg
    var disk: Reg
    // What desired.json says.
    var desired: Reg

    constructor ()
      ensures mem == EMPTY && disk == EMPTY && desired == EMPTY
    {
      mem, disk, desired := EMPTY, EMPTY, EMPTY;
    }

    // Writes the registry file and then desired.json, unless a write fails before.
    method Persist(save: Save)
      modifies `disk, `desired
      ensures disk == if save == Nothing then old(disk) else mem
      ensures desired == if save == Both then mem else old(desired)
    {
      if save != Nothing {
        disk := mem;
        if save == Both {
          desired := mem;
        }
      }
    }

    method CheckNoDuplicateChart(dep: Deployment, except: Option<Id>) returns (free: bool)
      ensures free == !Taken(mem.deps, dep, except)
    {
      var ids := mem.deps.Keys;
      while ids != {}
        invariant ids <= mem.deps.Keys
        invariant forall id :: id in mem.deps && id !in ids && Some(id) != except && mem.deps[id].enabled ==>
                  !SameChart(mem.deps[id], dep)
        decreases |ids|
      {
        var id :| id in ids;
        var other := mem.deps[id];
        if Some(id) != except && other.enabled && SameChart(other, dep) {
          return false;
        }
        ids := ids - {id};
      }
      free := true;
    }

    method AddDeployment(id: Id, dep: Deployment, save: Save) returns (r: Result)
      modifies this
      ensures (mem, r) == Edited(old(mem), Add(id, dep))
      ensures Saved(old(disk), old(desired), r, save)
    {
      if dep.enabled {
        var free := CheckNoDuplicateChart(dep, None);
        if !free {
          return Duplicate;
        }
      }
      mem := Reg(mem.revision + 1, mem.deps[id := dep]);
      Persist(save);
      r := Ok;
    }

    method UpdateDeployment(id: Id, rest: Option<nat>, enabled: Option<bool>, save: Save) returns (r: Result)
      modifies this
      ensures (mem, r) == Edited(old(mem), Update(id, rest, enabled))
      ensures Saved(old(disk), old(desired), r, save)
    {
      if id !in mem.deps {
        return Missing;
      }
      var dep := mem.deps[id];
      var resuming := enabled == Some(true) && !dep.enabled;
      if resuming {
        var free := CheckNoDuplicateChart(dep, Some(id));
        if !free {
          return Duplicate;
        }
      }
      if rest.Some? {
        dep := dep.(rest := rest.value);
      }
      if enabled.Some? {
        dep := dep.(enabled := enabled.value);
      }
      assert dep == Changed(mem.deps[id], rest, enabled);
      mem := Reg(mem.revision + 1, mem.deps[id := dep]);
      Persist(save);
      r := Ok;
    }

    method RemoveDeployment(id: Id, save: Save) returns (r: Result)
      modifies this
      ensures (mem, r) == Edited(old(mem), Remove(id))
      ensures Saved(old(disk), old(desired), r, save)
    {
      if id !in mem.deps {
        return Missing;
      }
      mem := Reg(mem.revision + 1, mem.deps - {id});
      Persist(save);
      r := Ok;
    }

    method RewriteDesired(save: Save)
      modifies this
      ensures (mem, Ok) == Edited(old(mem), Rewrite)
      ensures Saved(old(disk), old(desired), Ok, save)
    {
      mem := mem.(revision := mem.revision + 1);
      Persist(save);
    }

    // The files after an edit.
    predicate Saved(oldDisk: Reg, oldDesired: Reg, r: Result, save: Save)
      reads this
    {
      && disk == (if r == Ok && save != Nothing then mem else oldDisk)
      && desired == (if r == Ok && save == Both then mem else oldDesired)
    }
  }
}
