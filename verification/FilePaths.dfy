/**
 Paths of the file API (mt5api/fileapi/tree.py): how a caller's string becomes a path under
 the root, and which paths may be read, written or deleted.
 */
module FilePaths {
  import opened Options
  import opened Text

  const FORBIDDEN := {'<', '>', ':', '"', '|', '?', '*'}
  const STAGING_PREFIX := ".mt5api-"
  const MAX_SEGMENT_LENGTH := 255

  type Segments = seq<string>

  predicate IsDevice(stem: string) {
    var s := Lower(stem);
    || s in {"con", "prn", "aux", "nul"}
    || (|s| == 4 && (s[..3] == "com" || s[..3] == "lpt") && '0' <= s[3] <= '9')
  }

  predicate GoodSegment(s: string) {
    && s != "" && s != "." && s != ".." && !(STAGING_PREFIX <= s) && |s| <= MAX_SEGMENT_LENGTH
    && (forall i :: 0 <= i < |s| ==> s[i] as int >= 32 && s[i] !in FORBIDDEN)
    && s[|s| - 1] != '.' && s[|s| - 1] != ' ' && !IsDevice(s[..Find(s, '.')])
  }

  predicate GoodSegments(p: Segments) { forall i :: 0 <= i < |p| ==> GoodSegment(p[i]) }

  function Slashes(s: string): (r: string)
    ensures |r| == |s| && '\\' !in r
    ensures '\\' !in s ==> r == s
  {
    seq(|s|, i requires 0 <= i < |s| => if s[i] == '\\' then '/' else s[i])
  }

  // One slash at the end is allowed.
  function Cut(s: string): string { if s != "" && s[|s| - 1] == '/' then s[..|s| - 1] else s }

  // The checked segments of a caller's path; the root is the empty path.
  function Resolve(raw: string): (r: Option<Segments>)
    ensures r.Some? ==> GoodSegments(r.value) && Without(r.value, '/')
  {
    var text := Slashes(raw);
    if text != "" && text[0] == '/' then None
    else if Cut(text) == "" then Some([])
    else
      var parts := Split(Cut(text), '/');
      if GoodSegments(parts) then Some(parts) else None
  }

  // ---------------------------------------------------------------- resolving

  lemma SplitFirst(head: string, rest: string, sep: char)
    requires sep !in head
    ensures Split(head + [sep] + rest, sep) == [head] + Split(rest, sep)
  {
    var s := head + [sep] + rest;
    FindInJoin(head, rest, sep);
    assert s[..|head|] == head && s[|head| + 1..] == rest;
  }

  lemma {:induction false} SplitAppend(a: string, b: string, sep: char)
    ensures Split(a + [sep] + b, sep) == Split(a, sep) + Split(b, sep)
    decreases |a|
  {
    var k := Find(a, sep);
    if k == |a| {
      assert a[..k] == a;
      SplitFirst(a, b, sep);
    } else {
      var head, tail := a[..k], a[k + 1..];
      SplitAppend(tail, b, sep);
      SplitBefore(a, b, sep, head, tail);
    }
  }

  lemma SplitBefore(a: string, b: string, sep: char, head: string, tail: string)
    requires a == head + [sep] + tail && sep !in head
    requires Split(tail + [sep] + b, sep) == Split(tail, sep) + Split(b, sep)
    ensures Split(a + [sep] + b, sep) == Split(a, sep) + Split(b, sep)
  {
    SplitFirst(head, tail, sep);
    SplitFirst(head, tail + [sep] + b, sep);
    Glue(s => Split(s, sep), a, b, sep, head, tail);
  }

  lemma Glue(split: string -> seq<string>, a: string, b: string, sep: char, head: string, tail: string)
    requires a == head + [sep] + tail && split(a) == [head] + split(tail)
    requires split(head + [sep] + (tail + [sep] + b)) == [head] + split(tail + [sep] + b)
    requires split(tail + [sep] + b) == split(tail) + split(b)
    ensures split(a + [sep] + b) == split(a) + split(b)
  {
    assert a + [sep] + b == head + [sep] + (tail + [sep] + b);
  }

  lemma {:induction false} JoinLast(p: Segments)
    requires GoodSegments(p) && p != []
    ensures Join(p, '/') != "" && Join(p, '/')[0] == p[0][0]
    ensures Join(p, '/')[|Join(p, '/')| - 1] == p[|p| - 1][|p[|p| - 1]| - 1]
  {
    assert GoodSegment(p[0]);
    if |p| > 1 {
      JoinLast(p[1..]);
    }
  }

  lemma {:induction false} JoinHasNo(p: Segments, c: char)
    requires Without(p, c) && c != '/'
    ensures c !in Join(p, '/')
  {
    if |p| > 1 {
      JoinHasNo(p[1..], c);
    }
  }

  /** A resolved path, written out, resolves to itself. */
  lemma ResolveTwice(p: Segments)
    requires GoodSegments(p) && Without(p, '/') && Without(p, '\\')
    ensures Resolve(Join(p, '/')) == Some(p)
  {
    if p != [] {
      JoinHasNo(p, '\\');
      JoinLast(p);
      assert p[0][0] in p[0] && p[|p| - 1][|p[|p| - 1]| - 1] in p[|p| - 1];
      SplitOfJoin(p, '/');
    }
  }

  lemma ResolvedHasNoBackslash(raw: string)
    ensures Resolve(raw).Some? ==> Without(Resolve(raw).value, '\\')
  {
    var text := Cut(Slashes(raw));
    if Resolve(raw).Some? && text != "" {
      SplitHasNo(text, '/', '\\');
    }
  }

  lemma {:induction false} SplitHasNo(s: string, sep: char, c: char)
    requires c !in s
    ensures Without(Split(s, sep), c)
    decreases |s|
  {
    var k := Find(s, sep);
    if k < |s| {
      SplitHasNo(s[k + 1..], sep, c);
    }
  }

  // The path of an archive entry: its name below the target, resolved like a caller's path.
  function Below(target: Segments, name: string): string {
    if target == [] then Slashes(name) else Join(target, '/') + "/" + Slashes(name)
  }

  /** An archive entry cannot leave the target: what its name resolves to starts with the
      target's own segments. */
  lemma EntryStaysBelow(target: Segments, name: string)
    requires target != [] && GoodSegments(target) && Without(target, '/') && Without(target, '\\')
    requires Resolve(Below(target, name)).Some?
    ensures target <= Resolve(Below(target, name)).value
  {
    var head, tail := Join(target, '/'), Slashes(name);
    JoinHasNo(target, '\\');
    JoinLast(target);
    var text := Below(target, name);
    assert text == head + ['/'] + tail;
    assert text[0] == head[0] && '\\' !in text;
    ResolvedSplits(text);
    SplitOfJoin(target, '/');
    BelowSplits(head, tail);
  }

  lemma ResolvedSplits(text: string)
    requires '\\' !in text && Resolve(text).Some? && Cut(text) != ""
    ensures Resolve(text).value == Split(Cut(text), '/')
  {
  }

  lemma BelowSplits(head: string, tail: string)
    ensures Split(head, '/') <= Split(Cut(head + ['/'] + tail), '/')
  {
    if tail == "" {
      CutEmpty(head);
    } else {
      CutTail(head, tail);
      SplitAppend(head, Cut(tail), '/');
    }
  }

  lemma CutEmpty(head: string)
    ensures Cut(head + ['/'] + "") == head
  {
    assert (head + ['/'] + "")[..|head|] == head;
  }

  lemma CutTail(head: string, tail: string)
    requires tail != ""
    ensures Cut(head + ['/'] + tail) == head + ['/'] + Cut(tail)
  {
    var text := head + ['/'] + tail;
    assert text[|text| - 1] == tail[|tail| - 1];
    assert text[..|text| - 1] == head + ['/'] + tail[..|tail| - 1];
  }

  // ---------------------------------------------------------------- access rules

  // Both kinds of entry are lower-case strings, compared with a path's key as strings.
  datatype Rules = Rules(hidden: set<string>, readonly: seq<string>)

  // A path in lower case, as the file system tells paths apart.
  function Fold(p: Segments): Segments { seq(|p|, i requires 0 <= i < |p| => Lower(p[i])) }

  function Key(p: Segments): string { Lower(Join(p, '/')) }

  predicate StartsWith(s: string, prefix: string) { prefix <= s }

  predicate IsReadonly(rules: Rules, key: string) {
    key == "" || exists i :: 0 <= i < |rules.readonly| && AtOrUnder(key, rules.readonly[i])
  }

  predicate AtOrUnder(key: string, entry: string) { key == entry || StartsWith(key, entry + "/") }

  predicate Writable(rules: Rules, key: string) { key !in rules.hidden && !IsReadonly(rules, key) }

  predicate Guarded(rules: Rules, key: string) {
    || (exists e :: e in rules.hidden && StartsWith(e, key + "/"))
    || (exists i :: 0 <= i < |rules.readonly| && StartsWith(rules.readonly[i], key + "/"))
  }

  predicate DeletableDir(rules: Rules, key: string) { Writable(rules, key) && !Guarded(rules, key) }

  // A file the API must never change.
  predicate Protected(rules: Rules, key: string) { key in rules.hidden || IsReadonly(rules, key) }

  lemma {:induction false} KeyOfFold(p: Segments)
    ensures Key(p) == Join(Fold(p), '/')
  {
    if |p| > 1 {
      KeyOfFold(p[1..]);
      assert Fold(p)[1..] == Fold(p[1..]);
      LowerJoin(p[0], Join(p[1..], '/'));
    }
  }

  lemma LowerJoin(a: string, b: string)
    ensures Lower(a + ['/'] + b) == Lower(a) + ['/'] + Lower(b)
  {
  }

  /** A path below another has the other's key and a slash in front. */
  lemma {:induction false} BelowIsPrefix(d: Segments, f: Segments)
    requires d < f && d != []
    ensures StartsWith(Join(f, '/'), Join(d, '/') + "/")
  {
    assert d[0] == f[0];
    if |d| > 1 {
      BelowIsPrefix(d[1..], f[1..]);
      JoinPrefix(f[0], Join(f[1..], '/'), Join(d[1..], '/') + "/");
      assert Join(d, '/') + "/" == d[0] + ['/'] + (Join(d[1..], '/') + "/");
    } else {
      assert Join(f, '/') == f[0] + ['/'] + Join(f[1..], '/');
      assert "/" == ['/'] && f[0] + ['/'] <= f[0] + ['/'] + Join(f[1..], '/');
    }
  }

  lemma JoinPrefix(head: string, tail: string, start: string)
    requires start <= tail
    ensures head + ['/'] + start <= head + ['/'] + tail
  {
  }

  /** Of two prefixes of one path one lies at or under the other, so a directory with a
      protected file below is itself read-only or is guarded. */
  lemma ProtectedBlocksDelete(rules: Rules, dir: string, file: string)
    requires Protected(rules, file) && file != "" && StartsWith(file, dir + "/")
    ensures !DeletableDir(rules, dir)
  {
    if file !in rules.hidden {
      var i :| 0 <= i < |rules.readonly| && AtOrUnder(file, rules.readonly[i]);
      Comparable(file, dir, rules.readonly[i]);
    }
  }

  lemma Comparable(file: string, dir: string, entry: string)
    requires StartsWith(file, dir + "/") && AtOrUnder(file, entry)
    ensures AtOrUnder(dir, entry) || StartsWith(entry, dir + "/")
  {
    if |dir| < |entry| {
      assert |dir + "/"| <= |entry|;
    } else if |dir| == |entry| {
      assert dir == file[..|dir|] == entry;
    } else {
      assert |entry + "/"| <= |dir|;
    }
  }
}
