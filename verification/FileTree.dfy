/**
 Writing, extracting and deleting through the file API (mt5api/fileapi/ops.py), over a map
 from lower-cased paths to contents. What a file held open by another process prevents is a
 parameter of each operation.
 */
module FileTree {
  import opened FilePaths
  import opened Options
  import opened Text

  type Bytes = seq<bv8>
  type Files = map<Segments, Bytes>

  datatype Result = Done | InvalidPath | Refused | Conflict | NotFound | Locked | BadArchive | TooLarge

  // An archive's entry; its content comes in chunks, after which unpacking it may fail.
  datatype Entry = Entry(name: string, encrypted: bool, symlink: bool, isDir: bool, declared: nat, chunks: seq<Bytes>,
                         broken: bool)

  datatype Planned = Planned(entry: Entry, path: Segments)

  // The path a caller's string names, in lower case.
  function Lookup(raw: string): (r: Option<Segments>)
    ensures r.Some? ==> Resolve(raw).Some? && Join(r.value, '/') == Key(Resolve(raw).value)
  {
    var p := Resolve(raw);
    if p.None? then None
    else
      KeyOfFold(p.value);
      Some(Fold(p.value))
  }

  predicate MayWrite(rules: Rules, p: Segments) { Writable(rules, Join(p, '/')) }

  predicate Fixed(rules: Rules, p: Segments) { Protected(rules, Join(p, '/')) }

  // ---------------------------------------------------------------- what an operation changes

  datatype Put = Put(path: Segments, data: Bytes)

  // `left` is what a removal could not take.
  datatype Change = Puts(puts: seq<Put>) | Drop(path: Segments) | Clear(dir: Segments, left: set<Segments>)

  function Merge(files: Files, puts: seq<Put>): Files {
    if puts == [] then files else Merge(files, puts[..|puts| - 1])[puts[|puts| - 1].path := puts[|puts| - 1].data]
  }

  function Cleared(files: Files, dir: Segments, left: set<Segments>): Files {
    map p | p in files && (!(dir <= p) || p in left) :: files[p]
  }

  function Effect(files: Files, c: Change): Files {
    match c
    case Puts(puts) => Merge(files, puts)
    case Drop(p) => files - {p}
    case Clear(dir, left) => Cleared(files, dir, left)
  }

  ghost predicate Allowed(rules: Rules, c: Change) {
    match c
    case Puts(puts) => forall i :: 0 <= i < |puts| ==> MayWrite(rules, puts[i].path)
    case Drop(p) => MayWrite(rules, p)
    case Clear(dir, _) => dir != [] && DeletableDir(rules, Join(dir, '/'))
  }

  ghost predicate Same(a: Files, b: Files, p: Segments) {
    (p in a <==> p in b) && (p in a && p in b ==> a[p] == b[p])
  }

  lemma {:induction false} MergeKeeps(rules: Rules, files: Files, puts: seq<Put>, p: Segments)
    requires Allowed(rules, Puts(puts)) && Fixed(rules, p)
    ensures Same(files, Merge(files, puts), p)
  {
    if puts != [] {
      var init := puts[..|puts| - 1];
      assert Allowed(rules, Puts(init));
      MergeKeeps(rules, files, init, p);
      assert MayWrite(rules, puts[|puts| - 1].path);
    }
  }

  lemma ClearKeeps(rules: Rules, files: Files, dir: Segments, left: set<Segments>, p: Segments)
    requires Allowed(rules, Clear(dir, left)) && Fixed(rules, p)
    ensures Same(files, Cleared(files, dir, left), p)
  {
    if dir < p {
      BelowIsPrefix(dir, p);
      ProtectedBlocksDelete(rules, Join(dir, '/'), Join(p, '/'));
    }
    assert dir <= p ==> dir < p || dir == p;
  }

  lemma ChangeKeeps(rules: Rules, files: Files, c: Change, p: Segments)
    requires Allowed(rules, c) && Fixed(rules, p)
    ensures Same(files, Effect(files, c), p)
  {
    match c
    case Puts(puts) => MergeKeeps(rules, files, puts, p);
    case Drop(q) => assert p != q;
    case Clear(dir, left) => ClearKeeps(rules, files, dir, left, p);
  }

  function Outcome(files: Files, changes: seq<Change>): Files
    decreases |changes|
  {
    if changes == [] then files else Outcome(Effect(files, changes[0]), changes[1..])
  }

  /** Through any run of writes, extractions and deletions, finished or not, a protected file
      keeps its bytes, and no protected file appears. */
  lemma {:induction false} ProtectedKept(rules: Rules, files: Files, changes: seq<Change>, p: Segments)
    requires Fixed(rules, p) && forall i :: 0 <= i < |changes| ==> Allowed(rules, changes[i])
    ensures Same(files, Outcome(files, changes), p)
    decreases |changes|
  {
    if changes != [] {
      ChangeKeeps(rules, files, changes[0], p);
      ProtectedKept(rules, Effect(files, changes[0]), changes[1..], p);
    }
  }

  // ---------------------------------------------------------------- planning an extraction

  // Where an archive's entries go, and which of those places may be written.
  datatype Ground = Ground(at: Entry -> Option<Segments>, ok: Segments -> bool)

  function GroundOf(rules: Rules, target: Segments): Ground {
    Ground((e: Entry) => Lookup(Below(target, e.name)), p => MayWrite(rules, p))
  }

  predicate EntryOk(g: Ground, e: Entry) { !e.encrypted && !e.symlink && g.at(e).Some? && g.ok(g.at(e).value) }

  // The files an archive asks for, in order.
  function FilesOf(g: Ground, entries: seq<Entry>): seq<Planned> {
    if entries == [] then []
    else
      var e := entries[|entries| - 1];
      FilesOf(g, entries[..|entries| - 1])
      + (if e.isDir || g.at(e).None? then [] else [Planned(e, g.at(e).value)])
  }

  // The directories it asks for, in order.
  function FoldersOf(g: Ground, entries: seq<Entry>): seq<Segments> {
    if entries == [] then []
    else
      var e := entries[|entries| - 1];
      FoldersOf(g, entries[..|entries| - 1]) + (if e.isDir && g.at(e).Some? then [g.at(e).value] else [])
  }

  ghost predicate Distinct(plan: seq<Planned>) {
    forall i, j :: 0 <= i < j < |plan| ==> Join(plan[i].path, '/') != Join(plan[j].path, '/')
  }

  // The plan is accepted.
  ghost predicate Plannable(g: Ground, entries: seq<Entry>, maxFiles: nat) {
    && (forall i :: 0 <= i < |entries| ==> EntryOk(g, entries[i]))
    && Distinct(FilesOf(g, entries)) && |FilesOf(g, entries)| <= maxFiles
  }

  lemma {:induction false} FilesOfPrefix(g: Ground, entries: seq<Entry>, n: nat)
    requires n <= |entries|
    ensures FilesOf(g, entries[..n]) <= FilesOf(g, entries)
  {
    if n < |entries| {
      var init := entries[..|entries| - 1];
      FilesOfPrefix(g, init, n);
      assert init[..n] == entries[..n];
    } else {
      assert entries[..n] == entries;
    }
  }

  lemma {:induction false} PlanIsWritable(g: Ground, entries: seq<Entry>)
    requires forall i :: 0 <= i < |entries| ==> EntryOk(g, entries[i])
    ensures forall p :: p in FilesOf(g, entries) ==> g.ok(p.path) && g.at(p.entry) == Some(p.path)
  {
    if entries != [] {
      PlanIsWritable(g, entries[..|entries| - 1]);
    }
  }

  method CheckEntry(g: Ground, e: Entry) returns (r: Result, path: Segments)
    ensures r == Done <==> EntryOk(g, e)
    ensures r == Done ==> g.at(e) == Some(path)
  {
    path := [];
    if e.encrypted || e.symlink {
      return BadArchive, path;
    }
    var found := g.at(e);
    if found.None? {
      return InvalidPath, path;
    }
    path := found.value;
    r := if g.ok(path) then Done else Refused;
  }

  function SeenIn(plan: seq<Planned>): set<string> { set i | 0 <= i < |plan| :: Join(plan[i].path, '/') }

  method PlanExtract(g: Ground, entries: seq<Entry>, maxFiles: nat)
    returns (r: Result, plan: seq<Planned>, dirs: seq<Segments>)
    ensures r == Done <==> Plannable(g, entries, maxFiles)
    ensures r == Done ==> plan == FilesOf(g, entries) && dirs == FoldersOf(g, entries)
  {
    r, plan, dirs := Done, [], [];
    var seen: set<string> := {};
    var i := 0;
    while i < |entries|
      invariant 0 <= i <= |entries| && plan == FilesOf(g, entries[..i]) && seen == SeenIn(plan)
      invariant dirs == FoldersOf(g, entries[..i])
      invariant forall j :: 0 <= j < i ==> EntryOk(g, entries[j])
      invariant r == Done && Distinct(plan) && |plan| <= maxFiles
    {
      FilesOfStep(g, entries, i);
      var path;
      r, path := CheckEntry(g, entries[i]);
      if r != Done {
        return;
      }
      if entries[i].isDir {
        dirs := dirs + [path];
      } else {
        var p := Planned(entries[i], path);
        if Join(path, '/') in seen {
          TwiceInPlan(plan, p, FilesOf(g, entries));
          return BadArchive, plan, dirs;
        }
        OnceMore(plan, p);
        assert |plan + [p]| <= |FilesOf(g, entries)|;
        seen := seen + {Join(path, '/')};
        plan := plan + [p];
        if |plan| > maxFiles {
          return TooLarge, plan, dirs;
        }
      }
      i := i + 1;
    }
    assert entries[..i] == entries;
  }

  lemma FilesOfStep(g: Ground, entries: seq<Entry>, i: nat)
    requires i < |entries|
    ensures FilesOf(g, entries[..i + 1]) ==
            FilesOf(g, entries[..i])
            + (if entries[i].isDir || g.at(entries[i]).None? then [] else [Planned(entries[i], g.at(entries[i]).value)])
    ensures FilesOf(g, entries[..i + 1]) <= FilesOf(g, entries)
    ensures FoldersOf(g, entries[..i + 1]) ==
            FoldersOf(g, entries[..i]) +
            (if entries[i].isDir && g.at(entries[i]).Some? then [g.at(entries[i]).value] else [])
  {
    assert entries[..i + 1][..i] == entries[..i];
    FilesOfPrefix(g, entries, i + 1);
  }

  lemma TwiceInPlan(plan: seq<Planned>, p: Planned, all: seq<Planned>)
    requires plan + [p] <= all && Join(p.path, '/') in SeenIn(plan)
    ensures !Distinct(all)
  {
    var j :| 0 <= j < |plan| && Join(plan[j].path, '/') == Join(p.path, '/');
    assert all[j] == (plan + [p])[j] && all[|plan|] == (plan + [p])[|plan|];
  }

  lemma OnceMore(plan: seq<Planned>, p: Planned)
    requires Distinct(plan) && Join(p.path, '/') !in SeenIn(plan)
    ensures Distinct(plan + [p]) && SeenIn(plan + [p]) == SeenIn(plan) + {Join(p.path, '/')}
  {
    forall j | 0 <= j < |plan| ensures Join(plan[j].path, '/') in SeenIn(plan) && (plan + [p])[j] == plan[j] {
    }
    assert (plan + [p])[|plan|] == p;
  }

  /** Everything an accepted plan puts lies under the target. */
  lemma PlanStaysBelow(rules: Rules, raw: string, entries: seq<Entry>, maxFiles: nat)
    requires Resolve(raw).Some? && Resolve(raw).value != []
    requires Plannable(GroundOf(rules, Resolve(raw).value), entries, maxFiles)
    ensures forall p :: p in FilesOf(GroundOf(rules, Resolve(raw).value), entries) ==>
            Fold(Resolve(raw).value) <= p.path
  {
    var target := Resolve(raw).value;
    var g := GroundOf(rules, target);
    ResolvedHasNoBackslash(raw);
    PlanIsWritable(g, entries);
    forall p | p in FilesOf(g, entries)
      ensures Fold(target) <= p.path
    {
      EntryStaysBelow(target, p.entry.name);
      FoldPrefix(target, Resolve(Below(target, p.entry.name)).value);
    }
  }

  lemma FoldPrefix(a: Segments, b: Segments)
    requires a <= b
    ensures Fold(a) <= Fold(b)
  {
  }

  // ---------------------------------------------------------------- unpacking

  function Flat(chunks: seq<Bytes>): Bytes {
    if chunks == [] then [] else Flat(chunks[..|chunks| - 1]) + chunks[|chunks| - 1]
  }

  function Size(staged: seq<Bytes>): nat {
    if staged == [] then 0 else Size(staged[..|staged| - 1]) + |staged[|staged| - 1]|
  }

  function Contents(plan: seq<Planned>): seq<Bytes> {
    seq(|plan|, i requires 0 <= i < |plan| => Flat(plan[i].entry.chunks))
  }

  ghost predicate AnyBroken(plan: seq<Planned>) { exists i :: 0 <= i < |plan| && plan[i].entry.broken }

  lemma {:induction false} SizeMono(staged: seq<Bytes>, n: nat)
    requires n <= |staged|
    ensures Size(staged[..n]) <= Size(staged)
  {
    if n < |staged| {
      SizeMono(staged[..|staged| - 1], n);
      assert staged[..|staged| - 1][..n] == staged[..n];
    } else {
      assert staged[..n] == staged;
    }
  }

  lemma {:induction false} FlatMono(chunks: seq<Bytes>, n: nat)
    requires n <= |chunks|
    ensures |Flat(chunks[..n])| <= |Flat(chunks)|
  {
    if n < |chunks| {
      FlatMono(chunks[..|chunks| - 1], n);
      assert chunks[..|chunks| - 1][..n] == chunks[..n];
    } else {
      assert chunks[..n] == chunks;
    }
  }

  // One entry, chunk by chunk; the chunk that would pass the cap is not written.
  method UnpackEntry(e: Entry, before: nat, maxBytes: nat) returns (r: Result, sink: Bytes)
    requires before <= maxBytes
    ensures before + |sink| <= maxBytes
    ensures r == Done <==> before + |Flat(e.chunks)| <= maxBytes && !e.broken
    ensures r == Done ==> sink == Flat(e.chunks)
  {
    sink := [];
    var i := 0;
    while i < |e.chunks|
      invariant 0 <= i <= |e.chunks| && sink == Flat(e.chunks[..i]) && before + |sink| <= maxBytes
    {
      assert e.chunks[..i + 1][..i] == e.chunks[..i];
      FlatMono(e.chunks, i + 1);
      if before + |sink| + |e.chunks[i]| > maxBytes {
        return TooLarge, sink;
      }
      sink := sink + e.chunks[i];
      i := i + 1;
    }
    assert e.chunks[..i] == e.chunks;
    r := if e.broken then BadArchive else Done;
  }

  lemma ContentsGrow(plan: seq<Planned>, i: nat)
    requires i < |plan|
    ensures Contents(plan[..i + 1]) == Contents(plan[..i]) + [Flat(plan[i].entry.chunks)]
    ensures Size(Contents(plan[..i + 1])) ==
            Size(Contents(plan[..i])) + |Flat(plan[i].entry.chunks)|
            <= Size(Contents(plan))
  {
    SizeGrow(Contents(plan[..i]), Flat(plan[i].entry.chunks));
    assert Contents(plan[..i + 1]) == Contents(plan)[..i + 1];
    SizeMono(Contents(plan), i + 1);
  }

  lemma SizeGrow(staged: seq<Bytes>, sink: Bytes)
    ensures Size(staged + [sink]) == Size(staged) + |sink|
  {
    assert (staged + [sink])[..|staged|] == staged;
  }

  /** Staged bytes never pass the cap, whatever sizes the archive declares. */
  method Unpack(plan: seq<Planned>, maxBytes: nat) returns (r: Result, staged: seq<Bytes>)
    ensures Size(staged) <= maxBytes
    ensures r == Done <==> !AnyBroken(plan) && Size(Contents(plan)) <= maxBytes
    ensures r == Done ==> staged == Contents(plan)
  {
    r, staged := Done, [];
    var total := 0;
    var i := 0;
    while i < |plan|
      invariant 0 <= i <= |plan| && r == Done && staged == Contents(plan[..i]) && total == Size(staged) <= maxBytes
      invariant forall j :: 0 <= j < i ==> !plan[j].entry.broken
    {
      var sink;
      r, sink := UnpackEntry(plan[i].entry, total, maxBytes);
      ContentsGrow(plan, i);
      SizeGrow(staged, sink);
      staged, total := staged + [sink], total + |sink|;
      if r != Done {
        return;
      }
      i := i + 1;
    }
    assert plan[..i] == plan;
  }

  // ---------------------------------------------------------------- the tree

  function Parent(p: Segments): Segments { if p == [] then [] else p[..|p| - 1] }

  // The directories a path and those above it name.
  function Prefixes(p: Segments): set<Segments> { if p == [] then {} else Prefixes(Parent(p)) + {p} }

  // A directory above p, below the root.
  predicate Under(q: Segments, p: Segments) { q != [] && q < p }

  predicate Within(q: Segments, p: Segments) { q <= p && q != [] }

  lemma {:induction false} PrefixesAre(p: Segments)
    ensures forall q :: q in Prefixes(p) <==> Within(q, p)
  {
    if p != [] {
      PrefixesAre(Parent(p));
      forall q ensures Within(q, p) <==> Within(q, Parent(p)) || q == p {
        if q <= p && |q| < |p| { assert q == p[..|q|] == Parent(p)[..|q|]; }
      }
    }
  }

  // A file stands where p or a directory above it would have to be.
  ghost predicate Blocked(files: Files, p: Segments) { exists q :: q in Prefixes(p) && q in files }

  function PutsOf(plan: seq<Planned>, staged: seq<Bytes>): seq<Put>
    requires |staged| == |plan|
  {
    seq(|plan|, i requires 0 <= i < |plan| => Put(plan[i].path, staged[i]))
  }

  // Files, and the directories below the root.
  datatype Disk = Disk(files: Files, dirs: set<Segments>)

  ghost function Made(d: Disk, p: Segments): Disk {
    if Blocked(d.files, p) then d else Disk(d.files, d.dirs + Prefixes(p))
  }

  // Whether a staged file can be moved to p.
  ghost predicate CanPlace(d: Disk, p: Segments, locked: set<Segments>) {
    p != [] && p !in d.dirs && !Blocked(d.files, Parent(p)) && p !in locked
  }

  ghost function Placed(d: Disk, put: Put, locked: set<Segments>): Disk {
    var made := Made(d, Parent(put.path));
    if CanPlace(d, put.path, locked) then made.(files := made.files[put.path := put.data]) else made
  }

  ghost function WithFolders(d: Disk, folders: seq<Segments>): Disk {
    if folders == [] then d else Made(WithFolders(d, folders[..|folders| - 1]), folders[|folders| - 1])
  }

  // No file is in the way of the target or of an archive's own directories.
  ghost predicate Free(files: Files, at: Segments, folders: seq<Segments>) {
    !Blocked(files, at) && forall f :: f in folders ==> !Blocked(files, f)
  }

  // How many of these can be moved in, one after the other.
  ghost function Moved(d: Disk, puts: seq<Put>, locked: set<Segments>): nat
    decreases |puts|
  {
    if puts == [] || !CanPlace(d, puts[0].path, locked) then 0
    else 1 + Moved(Placed(d, puts[0], locked), puts[1..], locked)
  }

  lemma {:induction false} MovedAtMost(d: Disk, puts: seq<Put>, locked: set<Segments>)
    ensures Moved(d, puts, locked) <= |puts|
    decreases |puts|
  {
    if puts != [] {
      MovedAtMost(Placed(d, puts[0], locked), puts[1..], locked);
    }
  }

  // The first i have been moved in.
  ghost predicate Moving(start: Disk, due: seq<Put>, i: nat, locked: set<Segments>, d: Disk) {
    i <= |due| && d.files == Merge(start.files, due[..i]) && Moved(start, due, locked) == i + Moved(d, due[i..], locked)
  }

  lemma MovingFirst(start: Disk, due: seq<Put>, locked: set<Segments>)
    ensures Moving(start, due, 0, locked, start)
  {
    assert due[..0] == [] && due[0..] == due;
  }

  lemma MovingNext(start: Disk, due: seq<Put>, i: nat, locked: set<Segments>, d: Disk)
    requires i < |due| && Moving(start, due, i, locked, d)
    ensures CanPlace(d, due[i].path, locked) ==> Moving(start, due, i + 1, locked, Placed(d, due[i], locked))
    ensures !CanPlace(d, due[i].path, locked) ==>
              Moved(start, due, locked) == i && Placed(d, due[i], locked).files == Merge(start.files, due[..i])
  {
    MovedStep(d, due, i, locked);
    MergeStep(start.files, due, i);
  }

  lemma MovedStep(d: Disk, puts: seq<Put>, i: nat, locked: set<Segments>)
    requires i < |puts|
    ensures Moved(d, puts[i..], locked) ==
            if CanPlace(d, puts[i].path, locked) then 1 + Moved(Placed(d, puts[i], locked), puts[i + 1..], locked)
            else 0
  {
    assert puts[i..][0] == puts[i] && puts[i..][1..] == puts[i + 1..];
  }

  lemma MergeStep(files: Files, puts: seq<Put>, i: nat)
    requires i < |puts|
    ensures Merge(files, puts[..i + 1]) == Merge(files, puts[..i])[puts[i].path := puts[i].data]
  {
    assert puts[..i + 1][..i] == puts[..i];
  }

  lemma MovingOver(start: Disk, due: seq<Put>, locked: set<Segments>, d: Disk)
    requires Moving(start, due, |due|, locked, d)
    ensures Moved(start, due, locked) == |due| && d.files == Merge(start.files, due) && due[..|due|] == due
  {
    assert due[|due|..] == [] && due[..|due|] == due;
  }

  // The puts an accepted archive comes to make.
  ghost function Moves(d: Disk, at: Segments, folders: seq<Segments>, due: seq<Put>, locked: set<Segments>)
    : (puts: seq<Put>)
    ensures puts <= due
  {
    var start := WithFolders(Made(d, at), folders);
    MovedAtMost(start, due, locked);
    if Free(d.files, at, folders) then due[..Moved(start, due, locked)] else []
  }

  // How a deletion ends.
  ghost function Verdict(rules: Rules, d: Disk, path: Option<Segments>, recursive: bool, left: set<Segments>): Result {
    if path.None? then InvalidPath
    else if !MayWrite(rules, path.value) then Refused
    else if path.value in d.files then (if path.value in left then Locked else Done)
    else if path.value != [] && path.value !in d.dirs then NotFound
    else if !DeletableDir(rules, Join(path.value, '/')) then Refused
    else if !recursive && Holds(d.files, d.dirs, path.value) then Conflict
    else if Stays(d.files, path.value, left) == {} then Done
    else Locked
  }

  // What a deletion changes once it may remove: a locked file stays as it is.
  function Removal(files: Files, p: Segments, left: set<Segments>): Change {
    if p !in files then Clear(p, left) else if p in left then Puts([]) else Drop(p)
  }

  // The files under p that a removal cannot take.
  function Stays(files: Files, p: Segments, left: set<Segments>): set<Segments> {
    set q | q in files && p <= q && q in left
  }

  // The archive passes every check.
  ghost predicate Accepted(g: Ground, entries: seq<Entry>, maxBytes: nat, maxFiles: nat) {
    && Plannable(g, entries, maxFiles) && !AnyBroken(FilesOf(g, entries))
    && Size(Contents(FilesOf(g, entries))) <= maxBytes && Declared(FilesOf(g, entries)) <= maxBytes
  }

  ghost predicate AllMayWrite(rules: Rules, plan: seq<Planned>) { forall p :: p in plan ==> MayWrite(rules, p.path) }

  lemma PlanMayWrite(rules: Rules, target: Segments, entries: seq<Entry>, maxFiles: nat)
    requires Plannable(GroundOf(rules, target), entries, maxFiles)
    ensures AllMayWrite(rules, FilesOf(GroundOf(rules, target), entries))
  {
    PlanIsWritable(GroundOf(rules, target), entries);
  }

  method PlanAndCheck(g: Ground, entries: seq<Entry>, maxBytes: nat, maxFiles: nat)
    returns (r: Result, plan: seq<Planned>, folders: seq<Segments>)
    ensures r == Done <==> Plannable(g, entries, maxFiles) && Declared(FilesOf(g, entries)) <= maxBytes
    ensures r == Done ==> plan == FilesOf(g, entries) && folders == FoldersOf(g, entries)
  {
    r, plan, folders := PlanExtract(g, entries, maxFiles);
    if r == Done && Declared(plan) > maxBytes {
      r := TooLarge;
    }
  }

  class Tree {
    const rules: Rules
    var files: Files
    // The directories below the root.
    var dirs: set<Segments>

    constructor (rules: Rules)
      ensures Valid() && this.rules == rules && files == map[] && dirs == {}
    {
      this.rules, files, dirs := rules, map[], {};
    }

    // Files and directories differ, and what holds them is a directory.
    ghost predicate Valid()
      reads this
    {
      && [] !in files && [] !in dirs && files.Keys !! dirs
      && (forall p, q {:trigger Under(q, p)} :: Under(q, p) && (p in files || p in dirs) ==> q in dirs)
    }

    ghost function OnDisk(): Disk
      reads this
    {
      Disk(files, dirs)
    }

    predicate IsDir(p: Segments)
      reads this
    {
      p == [] || p in dirs
    }

    method MakeDirs(p: Segments) returns (ok: bool)
      requires Valid()
      modifies `dirs
      ensures Valid() && ok == !Blocked(files, p)
      ensures OnDisk() == Made(old(OnDisk()), p)
    {
      var i := 0;
      while i < |p|
        invariant 0 <= i <= |p| && Valid() && dirs == old(dirs) + Prefixes(p[..i])
        invariant !Blocked(files, p[..i])
      {
        var here := p[..i + 1];
        PrefixesGrow(p, i);
        PrefixesAre(p[..i]);
        assert forall q :: Under(q, here) <==> Within(q, p[..i]) by { UnderIs(p, i); }
        if here in files {
          PrefixesAre(p);
          assert Within(here, p);
          return false;
        }
        dirs := dirs + {here};
        i := i + 1;
      }
      assert p[..i] == p;
      ok := true;
    }

    method WriteFile(raw: string, data: Bytes, locked: set<Segments>) returns (r: Result)
      requires Valid()
      modifies this
      ensures Valid() && old(dirs) <= dirs
      ensures r == Done <==>
        Lookup(raw).Some? && MayWrite(rules, Lookup(raw).value) && CanPlace(old(OnDisk()), Lookup(raw).value, locked)
      ensures r == Done ==>
        var c := Puts([Put(Lookup(raw).value, data)]);
        Allowed(rules, c) && files == Effect(old(files), c)
      ensures r != Done ==> files == old(files)
    {
      var path := Lookup(raw);
      if path.None? {
        return InvalidPath;
      }
      var p := path.value;
      if !MayWrite(rules, p) {
        return Refused;
      }
      if IsDir(p) {
        return Conflict;
      }
      r := Place(p, data, locked);
      if r == Done {
        MergeOne(old(files), Put(p, data));
      }
    }

    // Makes the directories above p, then moves a staged file there.
    method Place(p: Segments, data: Bytes, locked: set<Segments>) returns (r: Result)
      requires Valid()
      modifies this
      ensures Valid()
      ensures r == Done <==> CanPlace(old(OnDisk()), p, locked)
      ensures OnDisk() == Placed(old(OnDisk()), Put(p, data), locked)
    {
      var made := MakeDirs(Parent(p));
      if !made {
        return Conflict;
      }
      if IsDir(p) {
        assert p in dirs ==> p in old(dirs) by { if p != [] { NotAboveItself(p); } }
        return Conflict;
      }
      if p in locked {
        return Locked;
      }
      PrefixesAre(Parent(p));
      UnderParent(p);
      files := files[p := data];
      r := Done;
    }

    method Extract(raw: string, entries: seq<Entry>, maxBytes: nat, maxFiles: nat, locked: set<Segments>)
      returns (r: Result, puts: seq<Put>)
      requires Valid()
      modifies this
      ensures Valid()
      ensures Allowed(rules, Puts(puts)) && files == Effect(old(files), Puts(puts))
      ensures puts == old(Extracts(raw, entries, maxBytes, maxFiles, locked))
      ensures r == Done <==> old(Admits(raw, entries, maxBytes, maxFiles)) && puts == DueOf(GroundAt(raw), entries)
                             && Free(old(files), Lookup(raw).value, FoldersOf(GroundAt(raw), entries))
    {
      puts := [];
      var target := Resolve(raw);
      if target.None? {
        return InvalidPath, [];
      }
      var at := Lookup(raw).value;
      if !MayWrite(rules, at) {
        return Refused, [];
      }
      if at in files {
        return Conflict, [];
      }
      var g := GroundOf(rules, target.value);
      var plan, folders;
      r, plan, folders := PlanAndCheck(g, entries, maxBytes, maxFiles);
      if r != Done {
        return;
      }
      PlanMayWrite(rules, target.value, entries, maxFiles);
      r, puts := UnpackTo(at, plan, folders, maxBytes, locked);
    }

    function GroundAt(raw: string): Ground
      requires Resolve(raw).Some?
    {
      GroundOf(rules, Resolve(raw).value)
    }

    // Every check of an extraction passes.
    ghost predicate Admits(raw: string, entries: seq<Entry>, maxBytes: nat, maxFiles: nat)
      reads this
    {
      && Resolve(raw).Some? && MayWrite(rules, Lookup(raw).value) && Lookup(raw).value !in files
      && Accepted(GroundAt(raw), entries, maxBytes, maxFiles)
    }

    ghost function Extracts(raw: string, entries: seq<Entry>, maxBytes: nat, maxFiles: nat,
                            locked: set<Segments>): seq<Put>
      reads this
    {
      if !Admits(raw, entries, maxBytes, maxFiles) then []
      else Moves(OnDisk(), Lookup(raw).value, FoldersOf(GroundAt(raw), entries), DueOf(GroundAt(raw), entries), locked)
    }

    method UnpackTo(at: Segments, plan: seq<Planned>, folders: seq<Segments>, maxBytes: nat, locked: set<Segments>)
      returns (r: Result, puts: seq<Put>)
      requires Valid() && AllMayWrite(rules, plan)
      modifies this
      ensures Valid() && Allowed(rules, Puts(puts)) && files == Merge(old(files), puts)
      ensures var fits := !AnyBroken(plan) && Size(Contents(plan)) <= maxBytes;
              var due := PutsOf(plan, Contents(plan));
              && puts == (if fits then Moves(old(OnDisk()), at, folders, due, locked) else [])
              && (r == Done <==> fits && Free(old(files), at, folders) && puts == due)
    {
      puts := [];
      var made := MakeDirs(at);
      if !made {
        return Conflict, [];
      }
      var staged;
      r, staged := Unpack(plan, maxBytes);
      if r != Done {
        return;
      }
      r := MakeFolders(folders);
      if r != Done {
        return;
      }
      PutsAllowed(rules, plan, staged);
      r, puts := MoveIn(PutsOf(plan, staged), locked);
    }

    method MakeFolders(folders: seq<Segments>) returns (r: Result)
      requires Valid()
      modifies `dirs
      ensures Valid()
      ensures r == Done <==> forall f :: f in folders ==> !Blocked(files, f)
      ensures r == Done ==> OnDisk() == WithFolders(old(OnDisk()), folders)
    {
      var i := 0;
      while i < |folders|
        invariant 0 <= i <= |folders| && Valid() && OnDisk() == WithFolders(old(OnDisk()), folders[..i])
        invariant forall j :: 0 <= j < i ==> !Blocked(files, folders[j])
      {
        assert folders[..i + 1][..i] == folders[..i];
        var made := MakeDirs(folders[i]);
        if !made {
          assert folders[i] in folders;
          return Conflict;
        }
        i := i + 1;
      }
      assert folders[..i] == folders;
      r := Done;
    }

    // The staged files in order, up to one that cannot be moved.
    method MoveIn(due: seq<Put>, locked: set<Segments>) returns (r: Result, puts: seq<Put>)
      requires Valid() && Allowed(rules, Puts(due))
      modifies this
      ensures Valid() && files == Merge(old(files), puts)
      ensures var n := Moved(old(OnDisk()), due, locked);
              n <= |due| && puts == due[..n] && (r == Done <==> n == |due|)
    {
      ghost var start := OnDisk();
      MovingFirst(start, due, locked);
      var i := 0;
      while i < |due|
        invariant 0 <= i <= |due| && Valid()
        invariant Moving(start, due, i, locked, OnDisk())
      {
        MovingNext(start, due, i, locked, OnDisk());
        r := Place(due[i].path, due[i].data, locked);
        if r != Done {
          return r, due[..i];
        }
        i := i + 1;
      }
      MovingOver(start, due, locked, OnDisk());
      return Done, due;
    }

    method Delete(raw: string, recursive: bool, left: set<Segments>) returns (r: Result)
      requires Valid()
      modifies this
      ensures Valid()
      ensures r == Verdict(rules, old(OnDisk()), Lookup(raw), recursive, left)
      ensures r == Done || r == Locked ==>
                var c := Removal(old(files), Lookup(raw).value, left);
                Allowed(rules, c) && files == Effect(old(files), c)
      ensures r == Done ==> forall p :: p in files || p in dirs ==> !(Lookup(raw).value <= p)
      ensures r != Done && r != Locked ==> OnDisk() == old(OnDisk())
    {
      var path := Lookup(raw);
      if path.None? {
        return InvalidPath;
      }
      var p := path.value;
      if !MayWrite(rules, p) {
        return Refused;
      }
      if !IsDir(p) && p !in files {
        return NotFound;
      }
      if p in files {
        if p in left {
          return Locked;
        }
        NothingBelowFile(p);
        files := files - {p};
        return Done;
      }
      if !DeletableDir(rules, Join(p, '/')) {
        return Refused;
      }
      if !recursive && Holds(files, dirs, p) {
        return Conflict;
      }
      r := RemoveTree(p, left);
    }

    lemma NothingBelowFile(p: Segments)
      requires Valid() && p in files
      ensures forall q :: (q in files || q in dirs) && p <= q ==> q == p
    {
      forall q | (q in files || q in dirs) && p <= q ensures q == p {
        assert Under(p, q) || p == q;
      }
    }

    // What cannot be taken stays, with the directories above it.
    method RemoveTree(p: Segments, left: set<Segments>) returns (r: Result)
      requires Valid() && p != [] && p in dirs
      modifies this
      ensures Valid() && files == Cleared(old(files), p, left)
      ensures r == if Stays(old(files), p, left) == {} then Done else Locked
      ensures r == Done ==> forall q :: q in files || q in dirs ==> !(p <= q)
    {
      var stays := Stays(files, p, left);
      var kept := set q | q in dirs && (!(p <= q) || Above(q, stays));
      files := map q | q in files && (!(p <= q) || q in left) :: files[q];
      forall q, u | Under(u, q) && (q in files || q in kept) ensures u in kept {
        AboveToo(q, u, p, stays);
      }
      forall q | q in files && p <= q ensures q in stays {
      }
      dirs := kept;
      r := if stays == {} then Done else Locked;
    }
  }

  predicate Above(q: Segments, stays: set<Segments>) { exists s :: s in stays && q < s }

  lemma AboveToo(q: Segments, u: Segments, p: Segments, stays: set<Segments>)
    requires Under(u, q) && (!(p <= q) || q in stays || Above(q, stays))
    ensures !(p <= u) || Above(u, stays)
  {
    if p <= u {
      assert p <= q;
      if q !in stays {
        var s :| s in stays && q < s;
        assert u < s;
      }
    }
  }

  // The directory has something in it.
  predicate Holds(files: Files, dirs: set<Segments>, p: Segments) {
    (exists q :: q in files && p < q) || (exists q :: q in dirs && p < q)
  }

  function Declared(plan: seq<Planned>): nat {
    if plan == [] then 0 else Declared(plan[..|plan| - 1]) + plan[|plan| - 1].entry.declared
  }

  function DueOf(g: Ground, entries: seq<Entry>): seq<Put> {
    PutsOf(FilesOf(g, entries), Contents(FilesOf(g, entries)))
  }

  lemma MergeOne(files: Files, put: Put)
    ensures Merge(files, [put]) == files[put.path := put.data]
  {
    assert [put][..0] == [];
  }

  lemma PutsAllowed(rules: Rules, plan: seq<Planned>, staged: seq<Bytes>)
    requires |staged| == |plan| && AllMayWrite(rules, plan)
    ensures Allowed(rules, Puts(PutsOf(plan, staged)))
  {
    forall i | 0 <= i < |plan| ensures MayWrite(rules, plan[i].path) {
      assert plan[i] in plan;
    }
  }

  lemma PrefixesGrow(p: Segments, i: nat)
    requires i < |p|
    ensures Prefixes(p[..i + 1]) == Prefixes(p[..i]) + {p[..i + 1]}
  {
    assert Parent(p[..i + 1]) == p[..i];
  }

  lemma UnderIs(p: Segments, i: nat)
    requires i < |p|
    ensures forall q :: Under(q, p[..i + 1]) <==> Within(q, p[..i])
  {
    forall q ensures Under(q, p[..i + 1]) <==> Within(q, p[..i]) {
      assert p[..i + 1][..i] == p[..i];
      if |q| <= i {
        assert p[..i + 1][..|q|] == p[..i][..|q|];
      }
    }
  }

  lemma UnderParent(p: Segments)
    ensures forall q :: Under(q, p) <==> Within(q, Parent(p)) && p != []
  {
    if p != [] {
      UnderIs(p, |p| - 1);
      assert p[..|p|] == p;
    }
  }

  lemma NotAboveItself(p: Segments)
    requires p != []
    ensures p !in Prefixes(Parent(p))
  {
    PrefixesAre(Parent(p));
  }
}
