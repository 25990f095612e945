/**
 The backtest job table of mt5api/backtest/jobs.py: a write-through cache over one
 file a job, whose disk writes may fail.
 */
module JobStore {
  import opened Options
  import Strings = Text

  // A job is a dictionary; a field holds a text or None.
  datatype Value = Null | Text(text: string)
  type Job = map<string, Value>

  const QUEUED := Text("queued")
  const RUNNING := Text("running")
  const COMPLETED := Text("completed")
  const FAILED := Text("failed")
  const CANCELLED := Text("cancelled")

  const CANCEL_KEEPS_FIELDS: set<string> := {"status", "error", "finishedAt"}
  const RESTART_ERROR := Text("API restarted before completion")

  function Get(job: Job, field: string): Value {
    if field in job then job[field] else Null
  }

  predicate Active(job: Job) { Get(job, "status") in {QUEUED, RUNNING} }

  predicate Terminal(job: Job) { Get(job, "status") in {COMPLETED, FAILED, CANCELLED} }

  // The cache, the files, and the jobs whose last write failed.
  datatype Table = Table(jobs: map<string, Job>, disk: map<string, Job>, unsaved: set<string>)

  // The written job, `ok` telling whether the write, retries included, got through.
  function Write(t: Table, id: string, job: Job, ok: bool): Table {
    if ok then Table(t.jobs[id := job], t.disk[id := job], t.unsaved - {id})
    else Table(t.jobs[id := job], t.disk, t.unsaved + {id})
  }

  function Changed(job: Job, changes: Job): Job {
    if Get(job, "status") == CANCELLED then job + (changes - CANCEL_KEEPS_FIELDS) else job + changes
  }

  datatype Op =
    | Store(id: string, job: Job, ok: bool)
    | Update(id: string, changes: Job, ok: bool)
    | Load(id: string, ok: bool)
    | CancelIfActive(id: string, changes: Job, ok: bool)

  // A new job has a fresh id.
  predicate Enabled(t: Table, op: Op) {
    op.Store? ==> op.id !in t.jobs && op.id !in t.disk
  }

  function Apply(t: Table, op: Op): Table {
    match op
    case Store(id, job, ok) => Write(t, id, job, ok)
    case Update(id, changes, ok) =>
      if id in t.jobs then Write(t, id, Changed(t.jobs[id], changes), ok)
      else if id in t.disk then Write(t, id, Changed(t.disk[id], changes), ok)
      else t
    case Load(id, ok) =>
      if id in t.jobs then (if id in t.unsaved then Write(t, id, t.jobs[id], ok) else t)
      else if id in t.disk then t.(jobs := t.jobs[id := t.disk[id]])
      else t
    case CancelIfActive(id, changes, ok) =>
      if id in t.jobs && Active(t.jobs[id]) then Write(t, id, t.jobs[id] + changes + map["status" := CANCELLED], ok)
      else t
  }

  // What the operation returns: the job as it then is, or nothing.
  function Result(t: Table, op: Op): Option<Job> {
    var after := Apply(t, op);
    match op
    case Store(_, _, _) => None
    case CancelIfActive(id, _, _) => if id in t.jobs && Active(t.jobs[id]) then Some(after.jobs[id]) else None
    case _ => if op.id in after.jobs then Some(after.jobs[op.id]) else None
  }

  class Jobs {
    var jobs: map<string, Job>
    var disk: map<string, Job>
    var unsaved: set<string>

    ghost function Contents(): Table
      reads this
    {
      Table(jobs, disk, unsaved)
    }

    // A fresh process over the files of an earlier one.
    constructor (files: map<string, Job>)
      ensures Contents() == Table(map[], files, {})
    {
      jobs, disk, unsaved := map[], files, {};
    }

    method WriteJob(id: string, ok: bool)
      requires id in jobs
      modifies this`disk, this`unsaved
      ensures Contents() == Write(old(Contents()), id, jobs[id], ok)
    {
      assert jobs == jobs[id := jobs[id]];
      if ok {
        disk := disk[id := jobs[id]];
        unsaved := unsaved - {id};
      } else {
        unsaved := unsaved + {id};
      }
    }

    method StoreJob(id: string, job: Job, ok: bool)
      modifies this
      ensures Contents() == Apply(old(Contents()), Store(id, job, ok))
    {
      jobs := jobs[id := job];
      WriteJob(id, ok);
    }

    method UpdateJob(id: string, changes: Job, ok: bool) returns (job: Option<Job>)
      modifies this
      ensures Contents() == Apply(old(Contents()), Update(id, changes, ok))
      ensures job == Result(old(Contents()), Update(id, changes, ok))
    {
      if id !in jobs {
        if id !in disk {
          return None;
        }
        jobs := jobs[id := disk[id]];
      }
      ghost var before := jobs[id];
      var kept := changes;
      if Get(jobs[id], "status") == CANCELLED {
        kept := kept - CANCEL_KEEPS_FIELDS;
      }
      jobs := jobs[id := jobs[id] + kept];
      assert jobs[id] == Changed(before, changes) && jobs == old(jobs)[id := Changed(before, changes)];
      WriteJob(id, ok);
      return Some(jobs[id]);
    }

    method LoadJob(id: string, ok: bool) returns (job: Option<Job>)
      modifies this
      ensures Contents() == Apply(old(Contents()), Load(id, ok))
      ensures job == Result(old(Contents()), Load(id, ok))
    {
      if id in jobs {
        if id in unsaved {
          WriteJob(id, ok);
        }
        return Some(jobs[id]);
      }
      if id !in disk {
        return None;
      }
      jobs := jobs[id := disk[id]];
      return Some(jobs[id]);
    }

    method Cancel(id: string, changes: Job, ok: bool) returns (job: Option<Job>)
      modifies this
      ensures Contents() == Apply(old(Contents()), CancelIfActive(id, changes, ok))
      ensures job == Result(old(Contents()), CancelIfActive(id, changes, ok))
    {
      if id !in jobs || !Active(jobs[id]) {
        return None;
      }
      jobs := jobs[id := jobs[id] + changes + map["status" := CANCELLED]];
      WriteJob(id, ok);
      return Some(jobs[id]);
    }

    // One file of the sweep; `readable` and `writable` tell what the file system allows.
    method SweepFile(owns: Job -> bool, name: string, readable: bool, writable: bool, now: Value) returns (hit: bool)
      requires name in disk
      modifies this`disk
      ensures hit == (readable && writable && OrphanOf(owns)(old(disk)[name]))
      ensures disk == if hit then old(disk)[name := FailOf(now)(old(disk)[name])] else old(disk)
    {
      if !readable {
        return false;
      }
      var job := disk[name];
      if !Active(job) {
        return false;
      }
      if !owns(job) {
        return false;
      }
      job := job["status" := FAILED]["error" := RESTART_ERROR]["finishedAt" := now];
      if !writable {
        return false;
      }
      assert job == FailedByRestart(disk[name], now);
      disk := disk[name := job];
      return true;
    }

    /** The startup pass: fail this terminal's jobs that the files touched since `cutoff` still
        call active. `unreadable` files are skipped, `stuck` ones cannot be rewritten. */
    method SweepOrphans(me: Identity, entries: seq<StateFile>, cutoff: int, unreadable: set<string>,
                        stuck: set<string>, now: Value)
      returns (swept: nat)
      requires Distinct(Names(entries)) && forall name :: name in Names(entries) ==> name in disk
      modifies this`disk
      ensures var touched := Done(Recent(entries, cutoff), unreadable + stuck);
              && disk == Swept(old(disk), OrphanOf(OwnsOf(me)), FailOf(now), touched)
              && swept == |Orphans(old(disk), OrphanOf(OwnsOf(me)), touched)|
    {
      ghost var before := disk;
      var recent := [];
      var i := 0;
      while i < |entries|
        invariant 0 <= i <= |entries| && recent == Recent(entries[..i], cutoff)
      {
        assert entries[..i + 1][..i] == entries[..i];
        if entries[i].mtime.Some? && entries[i].mtime.value >= cutoff {
          recent := recent + [entries[i].name];
        }
        i := i + 1;
      }
      assert entries[..i] == entries;
      RecentAreNames(entries, cutoff);
      swept := SweepFiles(OwnsOf(me), recent, unreadable, stuck, now);
      SweptFirstIs(before, OrphanOf(OwnsOf(me)), FailOf(now), recent, unreadable + stuck);
    }

    method SweepFiles(owns: Job -> bool, recent: seq<string>, unreadable: set<string>, stuck: set<string>, now: Value)
      returns (swept: nat)
      requires forall name :: name in recent ==> name in disk
      modifies this`disk
      ensures Sweep(disk, swept) == SweptFirst(old(disk), OrphanOf(owns), FailOf(now), recent, unreadable + stuck)
    {
      swept := 0;
      ghost var before, skipped, orphan, fail := disk, unreadable + stuck, OrphanOf(owns), FailOf(now);
      var i := 0;
      while i < |recent|
        invariant 0 <= i <= |recent|
        invariant disk.Keys == before.Keys
        invariant Sweep(disk, swept) == SweptFirst(before, orphan, fail, recent[..i], skipped)
      {
        assert recent[i] in before;
        SweptTurn(before, orphan, fail, recent, skipped, i);
        var hit := SweepFile(owns, recent[i], recent[i] !in unreadable, recent[i] !in stuck, now);
        swept := if hit then swept + 1 else swept;
        i := i + 1;
      }
      assert recent[..i] == recent;
    }
  }

  // A job's file as the directory lists it; its time may be unreadable.
  datatype StateFile = StateFile(name: string, mtime: Option<int>)

  function Names(entries: seq<StateFile>): seq<string> {
    seq(|entries|, i requires 0 <= i < |entries| => entries[i].name)
  }

  // The files not too old to be looked at.
  function Recent(entries: seq<StateFile>, cutoff: int): seq<string> {
    if entries == [] then []
    else
      var e := entries[|entries| - 1];
      Recent(entries[..|entries| - 1], cutoff) + (if e.mtime.Some? && e.mtime.value >= cutoff then [e.name] else [])
  }

  lemma {:induction false} RecentAreNames(entries: seq<StateFile>, cutoff: int)
    requires Distinct(Names(entries))
    ensures Distinct(Recent(entries, cutoff))
    ensures forall name :: name in Recent(entries, cutoff) ==> name in Names(entries)
  {
    if entries != [] {
      var init, e := entries[..|entries| - 1], entries[|entries| - 1];
      assert Names(entries) == Names(init) + [e.name];
      DistinctInit(Names(init), e.name);
      RecentAreNames(init, cutoff);
    }
  }

  lemma DistinctInit<K>(init: seq<K>, x: K)
    requires Distinct(init + [x])
    ensures Distinct(init) && x !in init
  {
    var all := init + [x];
    forall i | 0 <= i < |init| ensures init[i] != x {
      assert all[i] != all[|init|];
    }
    assert forall i, j :: 0 <= i < j < |init| ==> all[i] == init[i] && all[j] == init[j];
  }

  datatype Sweep<K, V> = Sweep(disk: map<K, V>, count: nat)

  function SweepOne<K(==), V>(at: Sweep<K, V>, orphan: V -> bool, fail: V -> V, name: K, skip: bool): Sweep<K, V> {
    if !skip && name in at.disk && orphan(at.disk[name]) then
      Sweep(at.disk[name := fail(at.disk[name])], at.count + 1)
    else at
  }

  // The files and the count once these names have been looked at.
  function SweptFirst<K(==), V>(disk: map<K, V>, orphan: V -> bool, fail: V -> V, files: seq<K>,
                        skipped: set<K>): Sweep<K, V> {
    if files == [] then Sweep(disk, 0)
    else
      var n := |files| - 1;
      SweepOne(SweptFirst(disk, orphan, fail, files[..n], skipped), orphan, fail, files[n], files[n] in skipped)
  }

  lemma SweptTurn<K, V>(disk: map<K, V>, orphan: V -> bool, fail: V -> V, files: seq<K>, skipped: set<K>, i: nat)
    requires i < |files|
    ensures SweptFirst(disk, orphan, fail, files[..i + 1], skipped) ==
            SweepOne(SweptFirst(disk, orphan, fail, files[..i], skipped), orphan, fail, files[i], files[i] in skipped)
  {
    assert files[..i + 1][..i] == files[..i];
  }

  // The files that the sweep can read and rewrite.
  function Done<K(==)>(files: seq<K>, skipped: set<K>): set<K> { set x | x in files && x !in skipped }

  function Swept<K(==), V>(disk: map<K, V>, orphan: V -> bool, fail: V -> V, touched: set<K>): map<K, V> {
    map id | id in disk :: if id in touched && orphan(disk[id]) then fail(disk[id]) else disk[id]
  }

  function Orphans<K(==), V>(disk: map<K, V>, orphan: V -> bool, names: set<K>): set<K> {
    set id | id in names && id in disk && orphan(disk[id])
  }

  ghost predicate Distinct<K>(files: seq<K>) { forall i, j :: 0 <= i < j < |files| ==> files[i] != files[j] }

  lemma {:induction false} SweptFirstIs<K, V>(disk: map<K, V>, orphan: V -> bool, fail: V -> V, files: seq<K>,
                                              skipped: set<K>)
    requires Distinct(files) && forall name :: name in files ==> name in disk
    ensures SweptFirst(disk, orphan, fail, files, skipped) ==
            Sweep(Swept(disk, orphan, fail, Done(files, skipped)), |Orphans(disk, orphan, Done(files, skipped))|)
  {
    if files == [] {
      SweptNone(disk, orphan, fail);
      assert Done(files, skipped) == {};
    } else {
      var init, name := files[..|files| - 1], files[|files| - 1];
      DoneOneMore(init, name, skipped);
      assert files == init + [name];
      SweptFirstIs(disk, orphan, fail, init, skipped);
      SweepMore(disk, orphan, fail, Done(init, skipped), name);
    }
  }

  lemma SweptNone<K, V>(disk: map<K, V>, orphan: V -> bool, fail: V -> V)
    ensures Swept(disk, orphan, fail, {}) == disk && Orphans(disk, orphan, {}) == {}
  {
  }

  lemma DoneOneMore<K>(init: seq<K>, name: K, skipped: set<K>)
    requires Distinct(init + [name])
    ensures Distinct(init) && name !in Done(init, skipped)
    ensures Done(init + [name], skipped) ==
            if name in skipped then Done(init, skipped) else Done(init, skipped) + {name}
  {
    DistinctInit(init, name);
  }

  lemma SweepMore<K, V>(disk: map<K, V>, orphan: V -> bool, fail: V -> V, done: set<K>, name: K)
    requires name in disk && name !in done
    ensures Swept(disk, orphan, fail, done)[name] == disk[name]
    ensures var hit := orphan(disk[name]);
      && Swept(disk, orphan, fail, done + {name}) ==
           (if hit then Swept(disk, orphan, fail, done)[name := fail(disk[name])] else Swept(disk, orphan, fail, done))
      && |Orphans(disk, orphan, done + {name})| == |Orphans(disk, orphan, done)| + if hit then 1 else 0
  {
    var before := Orphans(disk, orphan, done);
    assert Orphans(disk, orphan, done + {name}) == if orphan(disk[name]) then before + {name} else before;
  }

  // ---------------------------------------------------------------- ownership and the sweep

  const DEFAULT_INSTANCE := "default"

  function NormalizeInstance(v: Value): string {
    if v == Null || Strings.Strip(v.text) == "" then DEFAULT_INSTANCE else Strings.Strip(v.text)
  }

  // This terminal, and the (broker, account) pair of every configured terminal.
  datatype Identity = Identity(broker: string, account: string, instance: string, terminals: seq<(string, string)>)

  function CountTerminals(terminals: seq<(string, string)>, pair: (string, string)): nat {
    if terminals == [] then 0
    else (if terminals[0] == pair then 1 else 0) + CountTerminals(terminals[1..], pair)
  }

  predicate OwnsJob(job: Job, me: Identity) {
    && Get(job, "broker") in {Null, Text(me.broker)}
    && Get(job, "account") in {Null, Text(me.account)}
    && if Get(job, "instance") != Null
       then NormalizeInstance(Get(job, "instance")) == NormalizeInstance(Text(me.instance))
       else CountTerminals(me.terminals, (me.broker, me.account)) <= 1
  }

  predicate Orphan(job: Job, me: Identity) { Active(job) && OwnsJob(job, me) }

  function OwnsOf(me: Identity): Job -> bool { job => OwnsJob(job, me) }

  function OrphanOf(owns: Job -> bool): Job -> bool { job => Active(job) && owns(job) }

  function FailedByRestart(job: Job, now: Value): Job {
    job + map["status" := FAILED, "error" := RESTART_ERROR, "finishedAt" := now]
  }

  function FailOf(now: Value): Job -> Job { job => FailedByRestart(job, now) }

  // ---------------------------------------------------------------- whole runs

  predicate Runs(t: Table, ops: seq<Op>)
    decreases |ops|
  {
    ops == [] || (Enabled(t, ops[0]) && Runs(Apply(t, ops[0]), ops[1..]))
  }

  function Exec(t: Table, ops: seq<Op>): Table
    requires Runs(t, ops)
    decreases |ops|
  {
    if ops == [] then t else Exec(Apply(t, ops[0]), ops[1..])
  }

  // The memory versions a job went through, oldest first.
  function Versions(t: Table, ops: seq<Op>, id: string): seq<Job>
    requires Runs(t, ops)
    decreases |ops|
  {
    (if id in t.jobs then [t.jobs[id]] else []) + if ops == [] then [] else Versions(Apply(t, ops[0]), ops[1..], id)
  }

  ghost predicate Consistent(t: Table) {
    && t.unsaved <= t.jobs.Keys
    && forall id :: id in t.jobs && id !in t.unsaved ==> id in t.disk && t.disk[id] == t.jobs[id]
  }

  lemma ConsistentKept(t: Table, op: Op)
    requires Consistent(t) && Enabled(t, op)
    ensures Consistent(Apply(t, op))
  {
  }

  lemma {:induction false} ConsistentExec(t: Table, ops: seq<Op>)
    requires Consistent(t) && Runs(t, ops)
    ensures Consistent(Exec(t, ops))
    decreases |ops|
  {
    if ops != [] {
      ConsistentKept(t, ops[0]);
      ConsistentExec(Apply(t, ops[0]), ops[1..]);
    }
  }

  /** Over every run of a fresh process whose writes may fail at will: a job not marked
      unsaved is on disk as it is in memory; one marked unsaved is on disk as some memory version
      from before the last operation, or not at all, or as an earlier process left it. */
  lemma DiskIsMemoryOrOlder(files: map<string, Job>, ops: seq<Op>, id: string)
    requires Runs(Table(map[], files, {}), ops)
    requires id in Exec(Table(map[], files, {}), ops).jobs
    ensures var t := Exec(Table(map[], files, {}), ops);
      && (id !in t.unsaved ==> id in t.disk && t.disk[id] == t.jobs[id])
      && (id in t.unsaved && id in t.disk ==>
            ops != [] && Runs(Table(map[], files, {}), ops[..|ops| - 1]) &&
            (t.disk[id] in Versions(Table(map[], files, {}), ops[..|ops| - 1], id) ||
             (id in files && t.disk[id] == files[id])))
  {
    var t := Table(map[], files, {});
    ConsistentExec(t, ops);
    if id in Exec(t, ops).unsaved {
      UnsavedIsOlder(t, ops, id);
    }
  }

  lemma UnsavedIsOlder(t: Table, ops: seq<Op>, id: string)
    requires Runs(t, ops) && id in Exec(t, ops).unsaved && id !in t.unsaved
    ensures ops != [] && Runs(t, ops[..|ops| - 1])
    ensures var disk := Exec(t, ops).disk;
      id in disk ==> disk[id] in Versions(t, ops[..|ops| - 1], id) || (id in t.disk && disk[id] == t.disk[id])
  {
    var init, op := ops[..|ops| - 1], ops[|ops| - 1];
    assert ops == init + [op];
    ExecLast(t, init, op);
    UnsavedKeepsFile(Exec(t, init), op, id);
    DiskHasAVersion(t, init, id);
  }

  // An operation that leaves a job unsaved has not written its file.
  lemma UnsavedKeepsFile(t: Table, op: Op, id: string)
    requires Enabled(t, op) && id in Apply(t, op).unsaved
    ensures var u := Apply(t, op); (id in u.disk <==> id in t.disk) && (id in u.disk ==> u.disk[id] == t.disk[id])
  {
  }

  lemma {:induction false} ExecLast(t: Table, init: seq<Op>, op: Op)
    requires Runs(t, init + [op])
    ensures Runs(t, init) && Enabled(Exec(t, init), op) && Exec(t, init + [op]) == Apply(Exec(t, init), op)
    decreases |init|
  {
    if init == [] {
      assert (init + [op])[1..] == [];
    } else {
      assert (init + [op])[1..] == init[1..] + [op];
      ExecLast(Apply(t, init[0]), init[1..], op);
    }
  }

  lemma {:induction false} DiskHasAVersion(t: Table, ops: seq<Op>, id: string)
    requires Runs(t, ops)
    ensures var u := Exec(t, ops);
      id in u.disk ==> u.disk[id] in Versions(t, ops, id) || (id in t.disk && u.disk[id] == t.disk[id])
    decreases |ops|
  {
    if ops != [] {
      DiskHasAVersion(Apply(t, ops[0]), ops[1..], id);
      WrittenFromMemory(t, ops[0], id);
    }
  }

  // What one operation leaves on disk is what was there or what is now in memory.
  lemma WrittenFromMemory(t: Table, op: Op, id: string)
    requires Enabled(t, op)
    ensures var u := Apply(t, op);
      id in u.disk ==> (id in t.disk && u.disk[id] == t.disk[id]) || (id in u.jobs && u.disk[id] == u.jobs[id])
  {
  }

  // Whether the operation comes to write this job's file.
  predicate Writes(t: Table, op: Op, id: string) {
    op.id == id &&
    match op
    case Store(_, _, _) => true
    case Update(_, _, _) => id in t.jobs || id in t.disk
    case Load(_, _) => id in t.jobs && id in t.unsaved
    case CancelIfActive(_, _, _) => id in t.jobs && Active(t.jobs[id])
  }

  // Whether the last operation that wrote this job's file failed to.
  function LastWriteFailed(t: Table, ops: seq<Op>, id: string, failed: bool): bool
    requires Runs(t, ops)
    decreases |ops|
  {
    if ops == [] then failed
    else LastWriteFailed(Apply(t, ops[0]), ops[1..], id, if Writes(t, ops[0], id) then !ops[0].ok else failed)
  }

  /** A job is marked unsaved exactly when its last write failed, so the next successful one,
      a poll's or an update's, heals it. */
  lemma {:induction false} UnsavedIff(t: Table, ops: seq<Op>, id: string)
    requires Runs(t, ops)
    ensures id in Exec(t, ops).unsaved <==> LastWriteFailed(t, ops, id, id in t.unsaved)
    decreases |ops|
  {
    if ops != [] {
      UnsavedIff(Apply(t, ops[0]), ops[1..], id);
    }
  }

  lemma NextWriteHeals(t: Table, id: string, changes: Job, op: Op)
    requires Consistent(t) && id in t.jobs
    requires op == Load(id, true) || op == Update(id, changes, true)
    ensures var u := Apply(t, op); id !in u.unsaved && id in u.disk && u.disk[id] == u.jobs[id]
  {
  }

  // The second locked block of load_job, with what it read from the file in between.
  function Fill(t: Table, id: string, read: Job): Table {
    if id in t.jobs then t else t.(jobs := t.jobs[id := read])
  }

  /** load_job reads the file between its two locked blocks. Whatever other operations do
      meanwhile, filling the cache is loading in one step, or changes nothing. */
  lemma SplitLoadIsAtomic(t: Table, ops: seq<Op>, id: string, ok: bool)
    requires id !in t.jobs && id in t.disk && Runs(t, ops)
    ensures var u := Exec(t, ops); Fill(u, id, t.disk[id]) == if id in u.jobs then u else Apply(u, Load(id, ok))
  {
    UncachedStays(t, ops, id);
  }

  // This process writes no file of a job it has not cached.
  lemma {:induction false} UncachedStays(t: Table, ops: seq<Op>, id: string)
    requires id in t.disk && Runs(t, ops)
    ensures var u := Exec(t, ops);
      (id in t.jobs ==> id in u.jobs) && (id !in u.jobs ==> id in u.disk && u.disk[id] == t.disk[id])
    decreases |ops|
  {
    if ops != [] {
      UncachedStays(Apply(t, ops[0]), ops[1..], id);
    }
  }

  /** Whatever a worker still writes, a cancelled job keeps status, error and finishedAt. */
  lemma {:induction false} CancelledStays(t: Table, ops: seq<Op>, id: string)
    requires Runs(t, ops) && id in t.jobs && Get(t.jobs[id], "status") == CANCELLED
    ensures var u := Exec(t, ops);
      id in u.jobs && forall f :: f in CANCEL_KEEPS_FIELDS ==> Get(u.jobs[id], f) == Get(t.jobs[id], f)
    decreases |ops|
  {
    if ops != [] {
      var u := Apply(t, ops[0]);
      assert "status" in CANCEL_KEEPS_FIELDS;
      assert forall f :: f in CANCEL_KEEPS_FIELDS ==> Get(u.jobs[id], f) == Get(t.jobs[id], f);
      CancelledStays(u, ops[1..], id);
    }
  }

  const OWNER_FIELDS: set<string> := {"broker", "account", "instance"}

  // Every stored job is this terminal's, and no change touches the fields that say so.
  predicate Ours(op: Op, me: Identity) {
    match op
    case Store(_, job, _) => OwnsJob(job, me)
    case Update(_, changes, _) => changes.Keys !! OWNER_FIELDS
    case CancelIfActive(_, changes, _) => changes.Keys !! OWNER_FIELDS
    case Load(_, _) => true
  }

  predicate AllOurs(ops: seq<Op>, me: Identity) { forall i :: 0 <= i < |ops| ==> Ours(ops[i], me) }

  predicate Stored(ops: seq<Op>, id: string) { exists i :: 0 <= i < |ops| && ops[i].Store? && ops[i].id == id }

  // The job is this terminal's, wherever it is held.
  predicate Owned(t: Table, id: string, me: Identity) {
    (id in t.jobs ==> OwnsJob(t.jobs[id], me)) && (id in t.disk ==> OwnsJob(t.disk[id], me))
  }

  lemma SameOwner(job: Job, other: Job, me: Identity)
    requires forall f :: f in OWNER_FIELDS ==> Get(job, f) == Get(other, f)
    ensures OwnsJob(job, me) == OwnsJob(other, me)
  {
    assert "broker" in OWNER_FIELDS && "account" in OWNER_FIELDS && "instance" in OWNER_FIELDS;
  }

  lemma ChangeKeepsOwner(job: Job, changes: Job, me: Identity)
    requires changes.Keys !! OWNER_FIELDS
    ensures OwnsJob(Changed(job, changes), me) == OwnsJob(job, me)
    ensures OwnsJob(job + changes + map["status" := CANCELLED], me) == OwnsJob(job, me)
  {
    SameOwner(job, Changed(job, changes), me);
    assert "status" !in OWNER_FIELDS;
    SameOwner(job, job + changes + map["status" := CANCELLED], me);
  }

  lemma OwnedKept(t: Table, op: Op, id: string, me: Identity)
    requires Enabled(t, op) && Ours(op, me) && Owned(t, id, me)
    ensures Owned(Apply(t, op), id, me)
  {
    if (op.Update? || op.CancelIfActive?) && op.id == id {
      if id in t.jobs {
        ChangeKeepsOwner(t.jobs[id], op.changes, me);
      }
      if id in t.disk {
        ChangeKeepsOwner(t.disk[id], op.changes, me);
      }
    }
  }

  // A job this process stores has no version that is not this terminal's.
  lemma {:induction false} OwnedExec(t: Table, ops: seq<Op>, id: string, me: Identity)
    requires Runs(t, ops) && AllOurs(ops, me) && (Owned(t, id, me) || Stored(ops, id))
    ensures Owned(Exec(t, ops), id, me)
    decreases |ops|
  {
    if ops != [] {
      var op, rest := ops[0], ops[1..];
      if op.Store? && op.id == id {
        assert Owned(Apply(t, op), id, me);
      } else if Owned(t, id, me) {
        OwnedKept(t, op, id, me);
      } else {
        var i :| 0 <= i < |ops| && ops[i].Store? && ops[i].id == id;
        assert rest[i - 1] == ops[i];
      }
      OwnedExec(Apply(t, op), rest, id, me);
    }
  }

  lemma FailedIsInactive(job: Job, now: Value)
    ensures !Active(FailedByRestart(job, now))
  {
    assert Get(FailedByRestart(job, now), "status") == FAILED;
  }

  /** After a crash at any point of any run and a sweep of the files `touched`, a job this
      process stored is still active on disk exactly when it was and its file was not swept; if
      the sweep covers the stored jobs, none is, and a fresh process loads none as active. */
  lemma NoOrphanSurvives(files: map<string, Job>, ops: seq<Op>, me: Identity, touched: set<string>, now: Value,
                         id: string)
    requires Runs(Table(map[], files, {}), ops) && AllOurs(ops, me) && Stored(ops, id)
    ensures var disk := Exec(Table(map[], files, {}), ops).disk;
      var after := Swept(disk, OrphanOf(OwnsOf(me)), FailOf(now), touched);
      && (id in after && Active(after[id]) <==> id in disk && Active(disk[id]) && id !in touched)
      && (id in touched ==> forall ok :: LoadsInactive(after, id, ok))
      && after.Keys == disk.Keys
      && (forall other :: other in after && !(other in touched && Orphan(disk[other], me)) ==>
          after[other] == disk[other])
  {
    var t := Exec(Table(map[], files, {}), ops);
    OwnedExec(Table(map[], files, {}), ops, id, me);
    if id in t.disk {
      FailedIsInactive(t.disk[id], now);
      assert Active(t.disk[id]) ==> OrphanOf(OwnsOf(me))(t.disk[id]);
    }
  }

  // What a fresh process over these files gets for the job is not active.
  ghost predicate LoadsInactive(files: map<string, Job>, id: string, ok: bool) {
    var job := Result(Table(map[], files, {}), Load(id, ok));
    job.Some? ==> !Active(job.value)
  }

  /** A finished job that is not marked unsaved survives crash and sweep. */
  lemma FinishedSurvives(files: map<string, Job>, ops: seq<Op>, id: string, me: Identity, touched: set<string>,
                         now: Value)
    requires Runs(Table(map[], files, {}), ops)
    requires var t := Exec(Table(map[], files, {}), ops); id in t.jobs && Terminal(t.jobs[id]) && id !in t.unsaved
    ensures var t := Exec(Table(map[], files, {}), ops);
      var after := Swept(t.disk, OrphanOf(OwnsOf(me)), FailOf(now), touched);
      id in after && after[id] == t.jobs[id]
  {
    ConsistentExec(Table(map[], files, {}), ops);
  }
}
