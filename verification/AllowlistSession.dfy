/**
 The Options dialog's list as a session edits it (mt5api/chartctl/winoptions.py). Removing a
 row takes out that row and adding appends one, or is refused; OK saves, Cancel does not.
 */
module AllowlistSession {
  import opened AllowlistPlan
  import opened AllowlistUrls
  import opened Options
  import opened Text

  function UrlRules(): Rules { Rules(NormUrl, IsUrlRow) }

  datatype Outcome =
    | Unchanged
    | Failed
    | Applied(added: seq<string>, removed: seq<string>, rejected: seq<string>)

  // A session goes through: nothing was refused unless that is allowed, and the check passed.
  ghost predicate GoesThrough(r: Rules, req: Request, partial: bool, rows: seq<string>, box: bool,
                              takes: string -> bool) {
    && (partial || Rejected(r, req, rows, takes) == [])
    && NOTHING ==
       Verify(r, req, RowsAfter(r, req, rows, takes), rows, PlanOf(r, req, rows, box), Rejected(r, req, rows, takes))
  }

  class UrlList {
    var saved: seq<string>
    var savedBox: bool
    // What the open dialog shows.
    var rows: seq<string>
    var box: bool

    constructor (saved: seq<string>, box: bool)
      ensures this.saved == saved && savedBox == box && rows == saved && this.box == box
    {
      this.saved, savedBox, rows, this.box := saved, box, saved, box;
    }

    method Remove(idx: nat)
      requires idx < |rows|
      modifies `rows
      ensures rows == RemoveAt(old(rows), idx)
    {
      rows := rows[..idx] + rows[idx + 1..];
    }

    method Add(url: string, takes: string -> bool) returns (ok: bool)
      modifies `rows
      ensures ok == takes(url) && rows == if ok then old(rows) + [url] else old(rows)
    {
      ok := takes(url);
      if ok {
        rows := rows + [url];
      }
    }

    method RemoveRows(idx: seq<nat>)
      requires forall k :: 0 <= k < |idx| ==> idx[k] < |rows| - k
      modifies `rows
      ensures rows == RemoveAll(old(rows), idx)
    {
      var k := 0;
      while k < |idx|
        invariant 0 <= k <= |idx| && |rows| == |old(rows)| - k
        invariant RemoveAll(rows, idx[k..]) == RemoveAll(old(rows), idx)
      {
        assert idx[k..][1..] == idx[k + 1..];
        Remove(idx[k]);
        k := k + 1;
      }
    }

    method AddUrls(urls: seq<string>, partial: bool, takes: string -> bool) returns (ok: bool, rejected: seq<string>)
      modifies `rows
      ensures ok == (partial || Where(urls, Not(takes)) == [])
      ensures ok ==> rejected == Where(urls, Not(takes)) && rows == old(rows) + Where(urls, takes)
    {
      rejected := [];
      var k := 0;
      while k < |urls|
        invariant 0 <= k <= |urls|
        invariant rows + Where(urls[k..], takes) == old(rows) + Where(urls, takes)
        invariant rejected + Where(urls[k..], Not(takes)) == Where(urls, Not(takes))
        invariant !partial ==> rejected == []
      {
        WhereTurn(rows, urls, k, takes);
        WhereTurn(rejected, urls, k, Not(takes));
        var added := Add(urls[k], takes);
        if !added {
          if !partial {
            return false, rejected;
          }
          rejected := rejected + [urls[k]];
        }
        k := k + 1;
      }
      ok := true;
    }

    // The edits of a plan, on what the dialog shows.
    method Carry(plan: Plan, partial: bool, takes: string -> bool) returns (ok: bool, rejected: seq<string>)
      requires forall k :: 0 <= k < |plan.removeIdx| ==> plan.removeIdx[k] < |rows| - k
      modifies `rows, `box
      ensures ok == (partial || Where(plan.add, Not(takes)) == [])
      ensures ok ==> rejected == Where(plan.add, Not(takes))
      ensures ok ==> rows == RemoveAll(old(rows), plan.removeIdx) + Where(plan.add, takes)
      ensures ok ==> box == if plan.wantEnabled.Some? then plan.wantEnabled.value else old(box)
    {
      if plan.wantEnabled == Some(true) {
        box := true;
      }
      RemoveRows(plan.removeIdx);
      if plan.wantEnabled == Some(false) {
        box := false;
      }
      ok, rejected := AddUrls(plan.add, partial, takes);
    }

    method Session(r: Rules, req: Request, partial: bool, takes: string -> bool) returns (out: Outcome)
      modifies this
      ensures out.Unchanged? <==> PlanOf(r, req, old(saved), old(savedBox)) == Plan([], [], None)
      ensures out.Applied? <==> !out.Unchanged? && GoesThrough(r, req, partial, old(saved), old(savedBox), takes)
      ensures !out.Applied? ==> saved == old(saved) && savedBox == old(savedBox)
      ensures out.Applied? ==> saved == RowsAfter(r, req, old(saved), takes) && savedBox == BoxAfter(req, old(savedBox))
      ensures out.Applied? ==> out.rejected == Rejected(r, req, old(saved), takes)
      ensures out.Applied? ==> out.added == Where(WantAdd(r, Asked(req), Have(r, req, old(saved))), takes)
      ensures out.Applied? ==> out.removed == Picked(old(saved), Dropped(r, req, old(saved), |old(saved)|))
    {
      rows, box := saved, savedBox;
      var before := rows;
      var plan := PlanChanges(r, req, before, box);
      if plan == Plan([], [], None) {
        return Unchanged;
      }
      var removed := Picked(before, plan.removeIdx);
      var ok, rejected := Carry(plan, partial, takes);
      if !ok {
        assert !GoesThrough(r, req, partial, before, savedBox, takes);
        return Failed;
      }
      Removed(r, req, before);
      assert rows == RowsAfter(r, req, before, takes) && rejected == Rejected(r, req, before, takes);
      assert box == BoxAfter(req, savedBox);
      var check := Verify(r, req, rows, before, plan, rejected);
      if check.missing != [] || check.notRemoved != [] || box != BoxAfter(req, savedBox) {
        return Failed;
      }
      saved, savedBox := rows, box;
      WhereSame(plan.add, u => u !in rejected, takes);
      return Applied(Where(plan.add, u => u !in rejected), removed, rejected);
    }
  }

  lemma {:induction false} WhereSame(s: seq<string>, p: string -> bool, q: string -> bool)
    requires forall x :: x in s ==> p(x) == q(x)
    ensures Where(s, p) == Where(s, q)
  {
    if s != [] {
      WhereSame(s[1..], p, q);
    }
  }

  lemma WhereTurn(done: seq<string>, s: seq<string>, k: nat, p: string -> bool)
    requires k < |s|
    ensures done + Where(s[k..], p) == (if p(s[k]) then done + [s[k]] else done) + Where(s[k + 1..], p)
    ensures p(s[k]) ==> Where(s[k..], p) != []
  {
    assert s[k..] == [s[k]] + s[k + 1..];
    WhereCons(s[k], s[k + 1..], p);
  }

  lemma Removed(r: Rules, req: Request, rows: seq<string>)
    ensures RemoveAll(rows, Dropped(r, req, rows, |rows|)) == Survivors(r, req, rows, |rows|)
  {
    RemoveAllLeaves(r, req, rows, |rows|, []);
    assert rows[..|rows|] + [] == rows;
    assert Survivors(r, req, rows, |rows|) + [] == Survivors(r, req, rows, |rows|);
  }

  // ---------------------------------------------------------------- which requests are safe

  // Something other than slashes follows the scheme.
  ghost predicate HasHost(u: string) {
    var s := Strip(u);
    || (StartsWithLower(s, "http://") && exists i :: 7 <= i < |s| && s[i] != '/')
    || (StartsWithLower(s, "https://") && exists i :: 8 <= i < |s| && s[i] != '/')
  }

  lemma LowerKeepsSpace(s: string, t: string, i: nat)
    requires i < |s| && i < |t| && LowerChar(s[i]) == LowerChar(t[i])
    ensures IsSpace(s[i]) == IsSpace(t[i])
  {
  }

  // Strings that agree up to m, but for letter case.
  ghost predicate Alike(s: string, t: string, m: nat) {
    m <= |s| && m <= |t| && forall k :: 0 <= k < m ==> LowerChar(s[k]) == LowerChar(t[k])
  }

  lemma PrefixKept(s: string, t: string, m: nat, prefix: string)
    requires Alike(s, t, m) && |prefix| <= m && StartsWithLower(s, prefix)
    ensures StartsWithLower(t, prefix)
  {
    assert Lower(t[..|prefix|]) == Lower(s[..|prefix|]);
  }

  lemma LowerAlike(s: string, t: string)
    requires Lower(s) == Lower(t)
    ensures |s| == |t| && Alike(s, t, |s|)
  {
    assert |s| == |Lower(s)| == |t|;
    forall k | 0 <= k < |s| ensures LowerChar(s[k]) == LowerChar(t[k]) {
      assert Lower(s)[k] == LowerChar(s[k]);
      assert Lower(t)[k] == LowerChar(t[k]);
    }
  }

  // A string is a prefix of another, but for slashes at the end.
  ghost predicate Trims(a: string, s: string) { a <= s && forall k :: |a| <= k < |s| ==> s[k] == '/' }

  lemma TrimSlashesTrims(s: string)
    ensures Trims(TrimSlashes(s), s)
  {
  }

  lemma PrefixAlike(s: string, t: string, a: string, b: string)
    requires a <= s && b <= t && |a| == |b| && Alike(a, b, |a|)
    ensures Alike(s, t, |a|)
  {
    assert forall k :: 0 <= k < |a| ==> a[k] == s[k] && b[k] == t[k];
  }

  ghost predicate UrlWith(s: string, scheme: string) {
    StartsWithLower(s, scheme) && |s| > |scheme| && NoSpaces(s[|scheme|..])
  }

  // Strings of one key are alike up to the slashes at their ends.
  lemma SameKeyIsUrl(s: string, t: string, a: string, b: string, scheme: string, i: nat)
    requires Trims(a, s) && Trims(b, t) && Lower(a) == Lower(b)
    requires UrlWith(s, scheme) && |scheme| <= i < |s| && s[i] != '/'
    ensures UrlWith(t, scheme)
  {
    assert i < |a|;
    LowerAlike(a, b);
    PrefixAlike(s, t, a, b);
    PrefixKept(s, t, |a|, scheme);
    NoSpacesKept(s, t, |a|, |scheme|);
  }

  lemma NoSpacesKept(s: string, t: string, m: nat, n: nat)
    requires Alike(s, t, m) && n <= m && NoSpaces(s[n..])
    requires forall k :: m <= k < |t| ==> t[k] == '/'
    ensures NoSpaces(t[n..])
  {
    forall k | n <= k < |t|
      ensures !IsSpace(t[k])
    {
      if k < m {
        assert s[n..][k - n] == s[k];
        LowerKeepsSpace(s, t, k);
      }
    }
  }

  lemma UrlRowWith(s: string)
    ensures IsUrlRow(s) <==> UrlWith(Strip(s), "http://") || UrlWith(Strip(s), "https://")
  {
  }

  lemma HostDecides(x: string, y: string)
    requires IsUrlRow(x) && HasHost(x) && NormUrl(x) == NormUrl(y)
    ensures IsUrlRow(y)
  {
    var s, t := Strip(x), Strip(y);
    NotBothSchemes(s);
    UrlRowWith(x);
    UrlRowWith(y);
    TrimSlashesTrims(s);
    TrimSlashesTrims(t);
    if StartsWithLower(s, "http://") {
      var i: nat :| 7 <= i < |s| && s[i] != '/';
      SameKeyIsUrl(s, t, TrimSlashes(s), TrimSlashes(t), "http://", i);
    } else {
      var i: nat :| 8 <= i < |s| && s[i] != '/';
      SameKeyIsUrl(s, t, TrimSlashes(s), TrimSlashes(t), "https://", i);
    }
  }

  lemma NotBothSchemes(s: string)
    ensures !(StartsWithLower(s, "http://") && StartsWithLower(s, "https://"))
  {
    if |s| >= 8 {
      assert Lower(s[..7])[4] == LowerChar(s[4]) && Lower(s[..8])[4] == LowerChar(s[4]);
    }
  }

  /** No row shadows a removed URL when every URL to remove has a host. */
  lemma HostsAreNotShadowed(remove: seq<string>, rows: seq<string>)
    requires forall u :: u in remove ==> IsUrlRow(u) && HasHost(u)
    ensures !Shadowed(UrlRules(), remove, rows)
  {
    forall x, y | x in rows && y in rows && IsUrlRow(x) && !IsUrlRow(y) && NormUrl(x) == NormUrl(y)
      ensures NormUrl(x) !in Keys(UrlRules(), remove)
    {
      forall u | u in remove ensures NormUrl(u) != NormUrl(x) {
        if NormUrl(u) == NormUrl(x) {
          HostDecides(u, y);
        }
      }
    }
  }

  /** Only a refused URL keeps a full replace from going through. */
  lemma ExactGoesThrough(urls: seq<string>, partial: bool, rows: seq<string>, box: bool, takes: string -> bool)
    requires AllUrls(UrlRules(), urls)
    ensures GoesThrough(UrlRules(), Exact(urls), partial, rows, box, takes) <==>
            partial || Rejected(UrlRules(), Exact(urls), rows, takes) == []
  {
    ExactPasses(UrlRules(), urls, rows, box, takes);
  }

  /** With URLs that have a host, only a refused URL keeps a patch from going through. */
  lemma HostPatchGoesThrough(add: seq<string>, remove: seq<string>, partial: bool, rows: seq<string>, box: bool,
                             takes: string -> bool)
    requires AllUrls(UrlRules(), add) && forall u :: u in remove ==> IsUrlRow(u) && HasHost(u)
    ensures GoesThrough(UrlRules(), Patch(add, remove), partial, rows, box, takes) <==>
            partial || Rejected(UrlRules(), Patch(add, remove), rows, takes) == []
  {
    HostsAreNotShadowed(remove, rows);
    PatchPassesIff(UrlRules(), add, remove, rows, box, takes);
  }

  /** "http:///" counts as a URL and "http://" does not, but they have one key: removing the
      first from a list with both fails the check, and nothing is saved. */
  lemma BareSchemeFails(partial: bool, box: bool, takes: string -> bool)
    ensures IsUrlRow("http:///")
    ensures !GoesThrough(UrlRules(), Patch([], ["http:///"]), partial, ["http:///", "http://"], box, takes)
  {
    BareSchemeShadows();
    PatchPassesIff(UrlRules(), [], ["http:///"], ["http:///", "http://"], box, takes);
  }

  lemma BareSchemeShadows()
    ensures IsUrlRow("http:///") && Shadowed(UrlRules(), ["http:///"], ["http:///", "http://"])
  {
    var x, y := "http:///", "http://";
    assert Strip(x) == x && Strip(y) == y;
    assert Lower(x[..7]) == "http://" && Lower(y[..7]) == "http://";
    BareKey(x);
    BareKey(y);
    NotBothSchemes(x);
    NotBothSchemes(y);
    assert IsUrlRow(x) && !IsUrlRow(y);
    var rows := [x, y];
    assert x in rows && y in rows && x in [x];
    assert UrlRules().norm(x) in Keys(UrlRules(), [x]);
  }

  lemma BareKey(s: string)
    requires 6 <= |s| && s[..5] == "http:" && forall i :: 5 <= i < |s| ==> s[i] == '/'
    ensures TrimSlashes(s) == "http:"
  {
    var m := |TrimSlashes(s)|;
    assert TrimSlashes(s) == s[..m];
    assert s[4] == s[..5][4] == ':';
    assert m >= 5 && s[m - 1] == TrimSlashes(s)[m - 1] != '/';
  }
}
