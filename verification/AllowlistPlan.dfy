/**
 One session of the Options dialog (mt5api/chartctl/winoptions.py): the plan made from the
 rows it reads, the edits that carry it out, and the check that decides between OK and Cancel.

 The rules for URLs are parameters here; AllowlistSession puts in the real ones.
 */
module AllowlistPlan {
  import opened Options

  datatype Rules = Rules(norm: string -> string, isUrl: string -> bool)

  datatype Request = Exact(urls: seq<string>) | Patch(add: seq<string>, remove: seq<string>)

  datatype Plan = Plan(removeIdx: seq<nat>, add: seq<string>, wantEnabled: Option<bool>)

  function Keys(r: Rules, s: seq<string>): set<string> { set x | x in s :: r.norm(x) }

  function Where(s: seq<string>, p: string -> bool): (t: seq<string>)
    ensures forall x :: x in t <==> x in s && p(x)
  {
    if s == [] then [] else (if p(s[0]) then [s[0]] else []) + Where(s[1..], p)
  }

  function Not(p: string -> bool): string -> bool { x => !p(x) }

  // ---------------------------------------------------------------- the plan

  // Whether row i stays.
  ghost predicate Keep(r: Rules, req: Request, rows: seq<string>, i: nat)
    requires i < |rows|
  {
    var key := r.norm(rows[i]);
    match req
    case Exact(urls) =>
      r.isUrl(rows[i]) && key in Keys(r, urls) && !EarlierUrl(r, rows, i)
    case Patch(_, remove) => !(r.isUrl(rows[i]) && key in Keys(r, remove))
  }

  ghost predicate EarlierUrl(r: Rules, rows: seq<string>, i: nat)
    requires i < |rows|
  {
    exists j :: 0 <= j < i && r.isUrl(rows[j]) && r.norm(rows[j]) == r.norm(rows[i])
  }

  // Of the first n rows, those that stay, in order.
  ghost function Survivors(r: Rules, req: Request, rows: seq<string>, n: nat): seq<string>
    requires n <= |rows|
  {
    if n == 0 then []
    else Survivors(r, req, rows, n - 1) + (if Keep(r, req, rows, n - 1) then [rows[n - 1]] else [])
  }

  // Of the first n rows, the indices of those that go, highest first.
  ghost function Dropped(r: Rules, req: Request, rows: seq<string>, n: nat): (d: seq<nat>)
    requires n <= |rows|
    ensures |d| <= n && forall k :: 0 <= k < |d| ==> d[k] < n - k
  {
    if n == 0 then []
    else (if Keep(r, req, rows, n - 1) then [] else [n - 1]) + Dropped(r, req, rows, n - 1)
  }

  // The URLs whose key is not there yet, each key once.
  function WantAdd(r: Rules, urls: seq<string>, have: set<string>): seq<string> {
    if urls == [] then []
    else if r.norm(urls[0]) in have then WantAdd(r, urls[1..], have)
    else [urls[0]] + WantAdd(r, urls[1..], have + {r.norm(urls[0])})
  }

  function Asked(req: Request): seq<string> { if req.Exact? then req.urls else req.add }

  // The keys that need no adding.
  ghost function Have(r: Rules, req: Request, rows: seq<string>): set<string> {
    match req
    case Exact(_) => Keys(r, Survivors(r, req, rows, |rows|))
    case Patch(_, remove) => Keys(r, Where(rows, r.isUrl)) + Keys(r, remove)
  }

  // The state the box must end in.
  function BoxAfter(req: Request, before: bool): bool {
    match req
    case Exact(urls) => urls != []
    case Patch(add, _) => before || add != []
  }

  ghost function PlanOf(r: Rules, req: Request, rows: seq<string>, enabled: bool): Plan {
    Plan(Dropped(r, req, rows, |rows|), WantAdd(r, Asked(req), Have(r, req, rows)),
         if BoxAfter(req, enabled) == enabled then None else Some(BoxAfter(req, enabled)))
  }

  method PlanChanges(r: Rules, req: Request, rows: seq<string>, enabled: bool) returns (plan: Plan)
    ensures plan == PlanOf(r, req, rows, enabled)
  {
    var removeIdx: seq<nat> := [];
    var add: seq<string>;
    var want: Option<bool>;
    match req {
      case Exact(urls) =>
        var kept;
        removeIdx, kept := PlanExact(r, urls, rows);
        add := PlanAdds(r, urls, kept);
        want := Some(urls != []);
      case Patch(adds, remove) =>
        removeIdx := PlanPatch(r, adds, remove, rows);
        add := PlanAdds(r, adds, Keys(r, Where(rows, r.isUrl)) + Keys(r, remove));
        want := if adds != [] then Some(true) else None;
    }
    if want.Some? && want.value == enabled {
      want := None;
    }
    plan := Plan(removeIdx, add, want);
  }

  method PlanExact(r: Rules, urls: seq<string>, rows: seq<string>) returns (removeIdx: seq<nat>, kept: set<string>)
    ensures removeIdx == Dropped(r, Exact(urls), rows, |rows|)
    ensures kept == Keys(r, Survivors(r, Exact(urls), rows, |rows|))
  {
    ghost var req := Exact(urls);
    var wanted := Keys(r, urls);
    removeIdx, kept := [], {};
    var i := 0;
    while i < |rows|
      invariant 0 <= i <= |rows|
      invariant removeIdx == Dropped(r, req, rows, i)
      invariant kept == Keys(r, Survivors(r, req, rows, i))
      invariant forall k :: k in kept <==>
                            k in wanted && exists j :: 0 <= j < i && r.isUrl(rows[j]) && r.norm(rows[j]) == k
    {
      var key := r.norm(rows[i]);
      if r.isUrl(rows[i]) && key in wanted && key !in kept {
        KeysOf(r, Survivors(r, req, rows, i), rows[i]);
        kept := kept + {key};
      } else {
        assert Survivors(r, req, rows, i + 1) == Survivors(r, req, rows, i);
        removeIdx := [i] + removeIdx;
      }
      i := i + 1;
    }
  }

  method PlanPatch(r: Rules, add: seq<string>, remove: seq<string>, rows: seq<string>) returns (removeIdx: seq<nat>)
    ensures removeIdx == Dropped(r, Patch(add, remove), rows, |rows|)
  {
    var gone := Keys(r, remove);
    removeIdx := [];
    var i := 0;
    while i < |rows|
      invariant 0 <= i <= |rows|
      invariant removeIdx == Dropped(r, Patch(add, remove), rows, i)
    {
      if r.isUrl(rows[i]) && r.norm(rows[i]) in gone {
        removeIdx := [i] + removeIdx;
      }
      i := i + 1;
    }
  }

  method PlanAdds(r: Rules, urls: seq<string>, have: set<string>) returns (add: seq<string>)
    ensures add == WantAdd(r, urls, have)
  {
    add := [];
    var held := have;
    var i := 0;
    while i < |urls|
      invariant 0 <= i <= |urls|
      invariant add + WantAdd(r, urls[i..], held) == WantAdd(r, urls, have)
    {
      assert urls[i..][1..] == urls[i + 1..];
      if r.norm(urls[i]) !in held {
        assert (add + [urls[i]]) + WantAdd(r, urls[i + 1..], held + {r.norm(urls[i])}) ==
               add + WantAdd(r, urls[i..], held);
        held := held + {r.norm(urls[i])};
        add := add + [urls[i]];
      }
      i := i + 1;
    }
  }

  lemma KeysOf(r: Rules, s: seq<string>, x: string)
    ensures Keys(r, s + [x]) == Keys(r, s) + {r.norm(x)}
  {
    assert x in s + [x];
    assert forall y :: y in s ==> y in s + [x];
  }

  // ---------------------------------------------------------------- carrying it out

  function RemoveAt(rows: seq<string>, i: nat): seq<string>
    requires i < |rows|
  {
    rows[..i] + rows[i + 1..]
  }

  // Removing each index in turn.
  function RemoveAll(rows: seq<string>, idx: seq<nat>): seq<string>
    requires forall k :: 0 <= k < |idx| ==> idx[k] < |rows| - k
    decreases |idx|
  {
    if idx == [] then rows
    else
      assert forall k :: 0 <= k < |idx[1..]| ==> idx[1..][k] == idx[k + 1];
      RemoveAll(RemoveAt(rows, idx[0]), idx[1..])
  }

  /** Taking the planned indices out from the highest down leaves the rows that were to stay. */
  lemma {:induction false} RemoveAllLeaves(r: Rules, req: Request, rows: seq<string>, n: nat, tail: seq<string>)
    requires n <= |rows|
    ensures RemoveAll(rows[..n] + tail, Dropped(r, req, rows, n)) == Survivors(r, req, rows, n) + tail
  {
    if n == 0 {
      assert rows[..n] + tail == tail;
    } else if Keep(r, req, rows, n - 1) {
      assert rows[..n] + tail == rows[..n - 1] + ([rows[n - 1]] + tail);
      assert Survivors(r, req, rows, n) + tail == Survivors(r, req, rows, n - 1) + ([rows[n - 1]] + tail);
      RemoveAllLeaves(r, req, rows, n - 1, [rows[n - 1]] + tail);
      assert Dropped(r, req, rows, n) == Dropped(r, req, rows, n - 1);
    } else {
      assert RemoveAt(rows[..n] + tail, n - 1) == rows[..n - 1] + tail;
      assert Dropped(r, req, rows, n)[1..] == Dropped(r, req, rows, n - 1);
      assert Survivors(r, req, rows, n) == Survivors(r, req, rows, n - 1);
      RemoveAllLeaves(r, req, rows, n - 1, tail);
    }
  }

  // The list once a session has gone through; `takes` tells which URLs the list accepts.
  ghost function RowsAfter(r: Rules, req: Request, rows: seq<string>, takes: string -> bool): seq<string> {
    Survivors(r, req, rows, |rows|) + Where(WantAdd(r, Asked(req), Have(r, req, rows)), takes)
  }

  ghost function Rejected(r: Rules, req: Request, rows: seq<string>, takes: string -> bool): seq<string> {
    Where(WantAdd(r, Asked(req), Have(r, req, rows)), Not(takes))
  }

  // ---------------------------------------------------------------- the check

  datatype Report = Report(missing: seq<string>, notRemoved: seq<string>)

  const NOTHING := Report([], [])

  // The rows among the first n whose key an earlier row has.
  function Dupes(r: Rules, rows: seq<string>, n: nat): seq<string>
    requires n <= |rows|
  {
    if n == 0 then []
    else Dupes(r, rows, n - 1) + (if r.norm(rows[n - 1]) in Keys(r, rows[..n - 1]) then [rows[n - 1]] else [])
  }

  // The rows the plan removed.
  function Picked(rows: seq<string>, idx: seq<nat>): seq<string>
    requires forall k :: 0 <= k < |idx| ==> idx[k] < |rows|
  {
    seq(|idx|, k requires 0 <= k < |idx| => rows[idx[k]])
  }

  function Verify(r: Rules, req: Request, after: seq<string>, before: seq<string>, plan: Plan,
                  rejected: seq<string>): Report
    requires forall k :: 0 <= k < |plan.removeIdx| ==> plan.removeIdx[k] < |before|
  {
    match req
    case Exact(urls) =>
      var want := Where(urls, u => r.norm(u) !in Keys(r, rejected));
      Report(Where(want, u => r.norm(u) !in Keys(r, after)),
             Where(after, x => r.norm(x) !in Keys(r, want) || !r.isUrl(x)) + Dupes(r, after, |after|))
    case Patch(_, _) =>
      var now := Keys(r, Where(after, r.isUrl));
      Report(Where(plan.add, u => r.norm(u) !in now && r.norm(u) !in Keys(r, rejected)),
             Where(after, x => r.norm(x) in Keys(r, Picked(before, plan.removeIdx))))
  }

  ghost predicate AllUrls(r: Rules, s: seq<string>) { forall x :: x in s ==> r.isUrl(x) }

  ghost predicate DistinctKeys(r: Rules, s: seq<string>) {
    forall i, j :: 0 <= i < j < |s| ==> r.norm(s[i]) != r.norm(s[j])
  }

  lemma NoneWhere(s: seq<string>, p: string -> bool)
    ensures Where(s, p) == [] <==> forall x :: x in s ==> !p(x)
  {
    if Where(s, p) != [] {
      assert Where(s, p)[0] in Where(s, p);
    } else {
      assert forall x :: x in s && p(x) ==> x in Where(s, p);
    }
  }

  lemma {:induction false} NoDupes(r: Rules, rows: seq<string>, n: nat)
    requires n <= |rows|
    ensures Dupes(r, rows, n) == [] <==> DistinctKeys(r, rows[..n])
  {
    if n > 0 {
      NoDupes(r, rows, n - 1);
      assert rows[..n] == rows[..n - 1] + [rows[n - 1]];
      LastIsNewIff(r, rows[..n - 1], rows[n - 1]);
    }
  }

  lemma LastIsNewIff(r: Rules, init: seq<string>, x: string)
    ensures DistinctKeys(r, init + [x]) <==> DistinctKeys(r, init) && r.norm(x) !in Keys(r, init)
  {
    var all := init + [x];
    if DistinctKeys(r, all) {
      forall i | 0 <= i < |init| ensures all[i] == init[i] && r.norm(init[i]) != r.norm(x) {
        assert r.norm(all[i]) != r.norm(all[|init|]);
      }
    }
    if DistinctKeys(r, init) && r.norm(x) !in Keys(r, init) {
      forall i, j | 0 <= i < j < |all| ensures r.norm(all[i]) != r.norm(all[j]) {
        assert init[i] in init;
      }
    }
  }

  /** A full replace passes the check exactly when the list holds the wanted keys that were not
      rejected, each once, and nothing else. This is of any list, however the dialog behaved. */
  lemma ExactVerifiesIff(r: Rules, urls: seq<string>, after: seq<string>, before: seq<string>, plan: Plan,
                         rejected: seq<string>)
    requires forall k :: 0 <= k < |plan.removeIdx| ==> plan.removeIdx[k] < |before|
    ensures Verify(r, Exact(urls), after, before, plan, rejected) == NOTHING <==>
            AllUrls(r, after) && DistinctKeys(r, after) && Keys(r, after) == Keys(r, urls) - Keys(r, rejected)
  {
    var want := Where(urls, u => r.norm(u) !in Keys(r, rejected));
    assert Keys(r, want) == Keys(r, urls) - Keys(r, rejected);
    NoneWhere(want, u => r.norm(u) !in Keys(r, after));
    NoneWhere(after, x => r.norm(x) !in Keys(r, want) || !r.isUrl(x));
    NoDupes(r, after, |after|);
    assert after[..|after|] == after;
  }

  /** A patch passes exactly when the planned URLs that were not rejected are there and no row
      shares its key with a removed one. */
  lemma PatchVerifiesIff(r: Rules, add: seq<string>, remove: seq<string>, after: seq<string>, before: seq<string>,
                         plan: Plan, rejected: seq<string>)
    requires forall k :: 0 <= k < |plan.removeIdx| ==> plan.removeIdx[k] < |before|
    ensures Verify(r, Patch(add, remove), after, before, plan, rejected) == NOTHING <==>
            && Keys(r, plan.add) - Keys(r, rejected) <= Keys(r, Where(after, r.isUrl))
            && Keys(r, after) !! Keys(r, Picked(before, plan.removeIdx))
  {
    var now := Keys(r, Where(after, r.isUrl));
    NoneWhere(plan.add, u => r.norm(u) !in now && r.norm(u) !in Keys(r, rejected));
    NoneWhere(after, x => r.norm(x) in Keys(r, Picked(before, plan.removeIdx)));
  }

  // ---------------------------------------------------------------- what a session achieves

  lemma {:induction false} WantAddIs(r: Rules, urls: seq<string>, have: set<string>)
    ensures forall x :: x in WantAdd(r, urls, have) ==> x in urls && r.norm(x) !in have
    ensures DistinctKeys(r, WantAdd(r, urls, have))
    ensures Keys(r, WantAdd(r, urls, have)) == Keys(r, urls) - have
  {
    if urls != [] {
      var key, rest := r.norm(urls[0]), urls[1..];
      assert Keys(r, urls) == {key} + Keys(r, rest) by {
        assert urls == [urls[0]] + rest;
      }
      if key in have {
        WantAddIs(r, rest, have);
      } else {
        WantAddIs(r, rest, have + {key});
        KeysCons(r, urls[0], WantAdd(r, rest, have + {key}));
      }
    }
  }

  lemma KeysCons(r: Rules, x: string, s: seq<string>)
    requires r.norm(x) !in Keys(r, s) && DistinctKeys(r, s)
    ensures Keys(r, [x] + s) == {r.norm(x)} + Keys(r, s) && DistinctKeys(r, [x] + s)
  {
    assert forall y :: y in [x] + s <==> y == x || y in s;
    forall i, j | 0 <= i < j < |[x] + s|
      ensures r.norm(([x] + s)[i]) != r.norm(([x] + s)[j])
    {
      assert ([x] + s)[j] == s[j - 1];
      assert s[j - 1] in s;
      if i > 0 { assert ([x] + s)[i] == s[i - 1]; }
    }
  }

  lemma KeysJoin(r: Rules, s: seq<string>, t: seq<string>)
    requires DistinctKeys(r, s) && DistinctKeys(r, t) && Keys(r, s) !! Keys(r, t)
    ensures Keys(r, s + t) == Keys(r, s) + Keys(r, t) && DistinctKeys(r, s + t)
  {
    KeysPlus(r, s, t);
    forall i, j | 0 <= i < j < |s + t|
      ensures r.norm((s + t)[i]) != r.norm((s + t)[j])
    {
      if j < |s| {
        assert (s + t)[i] == s[i] && (s + t)[j] == s[j];
      } else if i < |s| {
        assert (s + t)[i] == s[i] && (s + t)[j] == t[j - |s|];
        assert r.norm(s[i]) in Keys(r, s) && r.norm(t[j - |s|]) in Keys(r, t);
      } else {
        assert (s + t)[i] == t[i - |s|] && (s + t)[j] == t[j - |s|];
      }
    }
  }

  lemma KeysPlus(r: Rules, s: seq<string>, t: seq<string>)
    ensures Keys(r, s + t) == Keys(r, s) + Keys(r, t)
  {
    assert forall x :: x in s + t <==> x in s || x in t;
  }

  lemma {:induction false} WhereKeepsDistinct(r: Rules, s: seq<string>, p: string -> bool)
    requires DistinctKeys(r, s)
    ensures DistinctKeys(r, Where(s, p))
  {
    if s != [] {
      var rest := Where(s[1..], p);
      WhereKeepsDistinct(r, s[1..], p);
      forall x | x in s[1..] ensures r.norm(x) != r.norm(s[0]) {
        var i :| 0 <= i < |s[1..]| && s[1..][i] == x;
        assert s[i + 1] == x;
      }
      KeysCons(r, s[0], rest);
      assert [] + rest == rest;
    }
  }

  // The kept and refused parts of a list of distinct keys have no key in common.
  lemma WhereSplits(r: Rules, s: seq<string>, p: string -> bool)
    requires DistinctKeys(r, s)
    ensures Keys(r, Where(s, p)) !! Keys(r, Where(s, Not(p)))
    ensures Keys(r, s) == Keys(r, Where(s, p)) + Keys(r, Where(s, Not(p)))
  {
    forall x, y | x in Where(s, p) && y in Where(s, Not(p))
      ensures r.norm(x) != r.norm(y)
    {
      var i, j :| 0 <= i < |s| && 0 <= j < |s| && s[i] == x && s[j] == y;
      assert i != j;
    }
  }

  lemma {:induction false} ExactSurvivors(r: Rules, urls: seq<string>, rows: seq<string>, n: nat)
    requires n <= |rows|
    ensures var s := Survivors(r, Exact(urls), rows, n);
            AllUrls(r, s) && DistinctKeys(r, s) && Keys(r, s) <= Keys(r, urls)
    ensures forall x :: x in Survivors(r, Exact(urls), rows, n) ==> exists j :: 0 <= j < n && rows[j] == x
  {
    if n > 0 {
      ExactSurvivors(r, urls, rows, n - 1);
      var s := Survivors(r, Exact(urls), rows, n - 1);
      if Keep(r, Exact(urls), rows, n - 1) {
        var x := rows[n - 1];
        assert r.norm(x) !in Keys(r, s);
        assert DistinctKeys(r, [x]) && Keys(r, [x]) == {r.norm(x)};
        KeysJoin(r, s, [x]);
      } else {
        assert s + [] == s;
      }
    }
  }

  /** A full replace ends with the wanted keys that were not rejected, each once, all URLs. */
  lemma ExactAchieves(r: Rules, urls: seq<string>, rows: seq<string>, takes: string -> bool)
    requires AllUrls(r, urls)
    ensures var after := RowsAfter(r, Exact(urls), rows, takes);
            && AllUrls(r, after) && DistinctKeys(r, after)
            && Keys(r, after) == Keys(r, urls) - Keys(r, Rejected(r, Exact(urls), rows, takes))
  {
    var req := Exact(urls);
    var s, add := Survivors(r, req, rows, |rows|), WantAdd(r, urls, Have(r, req, rows));
    ExactSurvivors(r, urls, rows, |rows|);
    WantAddIs(r, urls, Have(r, req, rows));
    WhereSplits(r, add, takes);
    WhereKeepsDistinct(r, add, takes);
    KeysJoin(r, s, Where(add, takes));
  }

  lemma ExactPasses(r: Rules, urls: seq<string>, rows: seq<string>, enabled: bool, takes: string -> bool)
    requires AllUrls(r, urls)
    ensures Verify(r, Exact(urls), RowsAfter(r, Exact(urls), rows, takes), rows,
                   PlanOf(r, Exact(urls), rows, enabled), Rejected(r, Exact(urls), rows, takes)) == NOTHING
  {
    ExactAchieves(r, urls, rows, takes);
    ExactVerifiesIff(r, urls, RowsAfter(r, Exact(urls), rows, takes), rows,
                     PlanOf(r, Exact(urls), rows, enabled), Rejected(r, Exact(urls), rows, takes));
  }

  // A removed URL row has the key of a row that is no URL, and so stays.
  ghost predicate Shadowed(r: Rules, remove: seq<string>, rows: seq<string>) {
    exists x, y ::
      x in rows && y in rows && r.isUrl(x) && !r.isUrl(y) && r.norm(x) == r.norm(y) && r.norm(x) in Keys(r, remove)
  }

  lemma {:induction false} PatchSurvivors(r: Rules, add: seq<string>, remove: seq<string>, rows: seq<string>, n: nat)
    requires n <= |rows|
    ensures forall x :: x in Survivors(r, Patch(add, remove), rows, n) <==>
                        x in rows[..n] && !(r.isUrl(x) && r.norm(x) in Keys(r, remove))
    ensures forall x :: x in Picked(rows, Dropped(r, Patch(add, remove), rows, n)) <==>
                        x in rows[..n] && r.isUrl(x) && r.norm(x) in Keys(r, remove)
  {
    var req := Patch(add, remove);
    if n > 0 {
      PatchSurvivors(r, add, remove, rows, n - 1);
      assert rows[..n] == rows[..n - 1] + [rows[n - 1]];
      var d := Dropped(r, req, rows, n - 1);
      if !Keep(r, req, rows, n - 1) {
        assert Picked(rows, Dropped(r, req, rows, n)) == [rows[n - 1]] + Picked(rows, d);
      } else {
        assert Dropped(r, req, rows, n) == d;
      }
    }
  }

  /** A patch whose edits all went through passes the check unless a removed URL's key is also
      that of a row that is no URL: such a row stays and reads as not removed. */
  lemma PatchPassesIff(r: Rules, add: seq<string>, remove: seq<string>, rows: seq<string>, enabled: bool,
                       takes: string -> bool)
    requires AllUrls(r, add)
    ensures var req := Patch(add, remove);
            var report := Verify(r, req, RowsAfter(r, req, rows, takes), rows, PlanOf(r, req, rows, enabled),
                                 Rejected(r, req, rows, takes));
            report == NOTHING <==> !Shadowed(r, remove, rows)
  {
    var req := Patch(add, remove);
    var plan, after := PlanOf(r, req, rows, enabled), RowsAfter(r, req, rows, takes);
    var removed := Picked(rows, plan.removeIdx);
    PatchVerifiesIff(r, add, remove, after, rows, plan, Rejected(r, req, rows, takes));
    PatchSurvivors(r, add, remove, rows, |rows|);
    assert rows[..|rows|] == rows;
    WantAddIs(r, add, Have(r, req, rows));
    WhereSplits(r, plan.add, takes);
    PatchAdds(r, Survivors(r, req, rows, |rows|), plan.add, takes);
    KeysPlus(r, Survivors(r, req, rows, |rows|), Where(plan.add, takes));
    assert Keys(r, removed) <= Keys(r, remove);
    if Shadowed(r, remove, rows) {
      var x, y :|
        x in rows && y in rows && r.isUrl(x) && !r.isUrl(y) && r.norm(x) == r.norm(y) && r.norm(x) in Keys(r, remove);
      assert y in Survivors(r, req, rows, |rows|) && x in removed;
    }
  }

  lemma PatchAdds(r: Rules, s: seq<string>, add: seq<string>, takes: string -> bool)
    requires AllUrls(r, add)
    ensures Keys(r, Where(add, takes)) <= Keys(r, Where(s + Where(add, takes), r.isUrl))
  {
    assert forall x :: x in Where(add, takes) ==> x in Where(s + Where(add, takes), r.isUrl);
  }

  // ---------------------------------------------------------------- planning again

  lemma WhereCons(x: string, s: seq<string>, p: string -> bool)
    ensures Where([x] + s, p) == (if p(x) then [x] else []) + Where(s, p)
  {
    assert ([x] + s)[1..] == s;
  }

  lemma WantAddCons(r: Rules, x: string, rest: seq<string>, have: set<string>)
    ensures WantAdd(r, [x] + rest, have) ==
            if r.norm(x) in have then WantAdd(r, rest, have) else [x] + WantAdd(r, rest, have + {r.norm(x)})
  {
    assert ([x] + rest)[1..] == rest;
  }

  // The keys taken so far, with x taken or refused.
  lemma TakenTurn(r: Rules, x: string, rest: seq<string>, have: set<string>, taken: set<string>)
    ensures WantAdd(r, [x] + rest, have + ({r.norm(x)} + taken)) == WantAdd(r, rest, have + {r.norm(x)} + taken)
  {
    assert have + ({r.norm(x)} + taken) == have + {r.norm(x)} + taken;
    WantAddCons(r, x, rest, have + ({r.norm(x)} + taken));
  }

  lemma RefusedTurn(r: Rules, x: string, rest: seq<string>, have: set<string>, taken: set<string>)
    requires r.norm(x) !in have + taken
    ensures WantAdd(r, [x] + rest, have + taken) == [x] + WantAdd(r, rest, have + {r.norm(x)} + taken)
  {
    assert have + taken + {r.norm(x)} == have + {r.norm(x)} + taken;
    WantAddCons(r, x, rest, have + taken);
  }

  lemma KeysWhereCons(r: Rules, x: string, s: seq<string>, p: string -> bool)
    ensures Keys(r, Where([x] + s, p)) == (if p(x) then {r.norm(x)} else {}) + Keys(r, Where(s, p))
  {
    WhereCons(x, s, p);
    var head := if p(x) then [x] else [];
    KeysPlus(r, head, Where(s, p));
    assert Keys(r, head) == if p(x) then {r.norm(x)} else {};
  }

  lemma {:induction false} WantAddAgain(r: Rules, urls: seq<string>, have: set<string>, takes: string -> bool,
                                        refuses: string -> bool)
    requires forall u :: refuses(u) == !takes(u)
    ensures WantAdd(r, urls, have + Keys(r, Where(WantAdd(r, urls, have), takes))) ==
            Where(WantAdd(r, urls, have), refuses)
  {
    if urls != [] {
      var x, rest := urls[0], urls[1..];
      assert urls == [x] + rest;
      if r.norm(x) in have {
        WantAddAgain(r, rest, have, takes, refuses);
      } else {
        var more := WantAdd(r, rest, have + {r.norm(x)});
        var taken := Keys(r, Where(more, takes));
        WantAddAgain(r, rest, have + {r.norm(x)}, takes, refuses);
        WantAddIs(r, rest, have + {r.norm(x)});
        WantAddCons(r, x, rest, have);
        WhereCons(x, more, refuses);
        KeysWhereCons(r, x, more, takes);
        if takes(x) {
          TakenTurn(r, x, rest, have, taken);
          assert [] + Where(more, refuses) == Where(more, refuses);
        } else {
          RefusedTurn(r, x, rest, have, taken);
          assert {} + taken == taken;
        }
      }
    }
  }

  // All n first rows of a list stay.
  lemma {:induction false} AllStay(r: Rules, req: Request, rows: seq<string>, n: nat)
    requires n <= |rows| && forall i :: 0 <= i < |rows| ==> Keep(r, req, rows, i)
    ensures Dropped(r, req, rows, n) == [] && Survivors(r, req, rows, n) == rows[..n]
  {
    if n > 0 {
      AllStay(r, req, rows, n - 1);
      assert rows[..n] == rows[..n - 1] + [rows[n - 1]];
    }
  }

  /** Planning again after a full replace removes nothing and adds exactly what was rejected. */
  lemma ExactPlansRejected(r: Rules, urls: seq<string>, rows: seq<string>, takes: string -> bool)
    requires AllUrls(r, urls)
    ensures var req := Exact(urls);
            PlanOf(r, req, RowsAfter(r, req, rows, takes), urls != []) == Plan([], Rejected(r, req, rows, takes), None)
  {
    var req := Exact(urls);
    var after := RowsAfter(r, req, rows, takes);
    var add := WantAdd(r, urls, Have(r, req, rows));
    ExactAchieves(r, urls, rows, takes);
    forall i | 0 <= i < |after| ensures Keep(r, req, after, i) {
      assert after[i] in after;
      assert r.norm(after[i]) in Keys(r, after);
    }
    AllStay(r, req, after, |after|);
    assert after[..|after|] == after;
    KeysPlus(r, Survivors(r, req, rows, |rows|), Where(add, takes));
    WantAddAgain(r, urls, Have(r, req, rows), takes, Not(takes));
  }

  /** The same of a patch. */
  lemma PatchPlansRejected(r: Rules, add: seq<string>, remove: seq<string>, rows: seq<string>, enabled: bool,
                           takes: string -> bool)
    requires AllUrls(r, add)
    ensures var req := Patch(add, remove);
            PlanOf(r, req, RowsAfter(r, req, rows, takes), BoxAfter(req, enabled)) ==
            Plan([], Rejected(r, req, rows, takes), None)
  {
    var req := Patch(add, remove);
    var after := RowsAfter(r, req, rows, takes);
    var plan := WantAdd(r, add, Have(r, req, rows));
    PatchSurvivors(r, add, remove, rows, |rows|);
    assert rows[..|rows|] == rows;
    WantAddIs(r, add, Have(r, req, rows));
    forall i | 0 <= i < |after| ensures Keep(r, req, after, i) {
      assert after[i] in after;
    }
    AllStay(r, req, after, |after|);
    PatchHave(r, add, remove, rows, takes);
    WantAddAgain(r, add, Have(r, req, rows), takes, Not(takes));
  }

  lemma PatchHave(r: Rules, add: seq<string>, remove: seq<string>, rows: seq<string>, takes: string -> bool)
    requires AllUrls(r, add)
    ensures var req := Patch(add, remove);
            Have(r, req, RowsAfter(r, req, rows, takes)) ==
            Have(r, req, rows) + Keys(r, Where(WantAdd(r, add, Have(r, req, rows)), takes))
  {
    var req := Patch(add, remove);
    var s, taken := Survivors(r, req, rows, |rows|), Where(WantAdd(r, add, Have(r, req, rows)), takes);
    var after := s + taken;
    PatchSurvivors(r, add, remove, rows, |rows|);
    assert rows[..|rows|] == rows;
    WantAddIs(r, add, Have(r, req, rows));
    assert forall x :: x in Where(after, r.isUrl) <==> (x in s && r.isUrl(x)) || x in taken;
    forall x | x in Where(rows, r.isUrl) ensures r.norm(x) in Have(r, req, after) {
      assert x in s || r.norm(x) in Keys(r, remove);
    }
  }
}
