/**
 What counts as an allowlist URL, when two are the same, and which of a request's URLs are
 kept (mt5api/chartctl/winoptions.py, mt5api/chartctl/webrequest.py).
 */
module AllowlistUrls {
  import opened Text

  const MAX_URL_LENGTH := 750

  function TrimSlashes(s: string): (r: string)
    ensures r <= s && (r != "" ==> r[|r| - 1] != '/')
    ensures forall i :: |r| <= i < |s| ==> s[i] == '/'
  {
    if s != "" && s[|s| - 1] == '/' then TrimSlashes(s[..|s| - 1]) else s
  }

  function NormUrl(u: string): string { Lower(TrimSlashes(Strip(u))) }

  predicate StartsWithLower(s: string, prefix: string) {
    |prefix| <= |s| && Lower(s[..|prefix|]) == prefix
  }

  predicate NoSpaces(s: string) { forall i :: 0 <= i < |s| ==> !IsSpace(s[i]) }

  // A scheme, then one or more characters, none of them white space.
  predicate IsUrlRow(text: string) {
    var s := Strip(text);
    || (StartsWithLower(s, "http://") && |s| > 7 && NoSpaces(s[7..]))
    || (StartsWithLower(s, "https://") && |s| > 8 && NoSpaces(s[8..]))
  }

  predicate Acceptable(u: string) {
    && 0 < |u| <= MAX_URL_LENGTH && ';' !in u
    && (forall i :: 0 <= i < |u| ==> u[i] as int >= 0x20)
    && IsUrlRow(u)
  }

  // An entry of a request's list; anything but a string is ignored.
  datatype Entry = Str(text: string) | NotStr

  function Kept(out: seq<string>, e: Entry): seq<string> {
    if e.NotStr? then out
    else
      var u := Strip(e.text);
      if !Acceptable(u) || u in out then out else out + [u]
  }

  function Clean(urls: seq<Entry>): seq<string> {
    if urls == [] then [] else Kept(Clean(urls[..|urls| - 1]), urls[|urls| - 1])
  }

  function Strs(urls: seq<string>): seq<Entry> { seq(|urls|, i requires 0 <= i < |urls| => Str(urls[i])) }

  // Stripped, acceptable, and all different.
  ghost predicate IsClean(urls: seq<string>) {
    && (forall i :: 0 <= i < |urls| ==> Trim(urls[i]) && Acceptable(urls[i]))
    && (forall i, j :: 0 <= i < j < |urls| ==> urls[i] != urls[j])
  }

  method CleanUrls(urls: seq<Entry>) returns (out: seq<string>)
    ensures out == Clean(urls)
  {
    out := [];
    var i := 0;
    while i < |urls|
      invariant 0 <= i <= |urls|
      invariant out == Clean(urls[..i])
    {
      assert urls[..i + 1][..i] == urls[..i];
      if urls[i].Str? {
        var u := Strip(urls[i].text);
        if Acceptable(u) && u !in out {
          out := out + [u];
        }
      }
      i := i + 1;
    }
    assert urls[..i] == urls;
  }

  /** A scheme and more, no longer than allowed, with no semicolon, no white space and no
      control character, is accepted. */
  lemma HttpIsAcceptable(rest: string)
    requires 0 < |rest| <= MAX_URL_LENGTH - 7 && ';' !in rest
    requires forall i :: 0 <= i < |rest| ==> rest[i] as int >= 0x20 && !IsSpace(rest[i])
    ensures Acceptable("http://" + rest)
  {
    var u := "http://" + rest;
    assert Trim(u) && Strip(u) == u;
    assert u[..7] == "http://" && u[7..] == rest;
    assert Lower("http://") == "http://";
  }

  /** What is kept is clean, and is exactly the acceptable entries. */
  lemma {:induction false} CleanIsClean(urls: seq<Entry>)
    ensures IsClean(Clean(urls))
    ensures forall u :: u in Clean(urls) <==>
            exists i :: 0 <= i < |urls| && urls[i].Str? && Strip(urls[i].text) == u && Acceptable(u)
  {
    if urls != [] {
      var n := |urls| - 1;
      CleanIsClean(urls[..n]);
      forall u
        ensures u in Clean(urls) <==>
                exists i :: 0 <= i < |urls| && urls[i].Str? && Strip(urls[i].text) == u && Acceptable(u)
      {
        assert forall i :: 0 <= i < n ==> urls[..n][i] == urls[i];
      }
    }
  }

  /** A clean list is kept as it is. */
  lemma {:induction false} CleanKeepsClean(urls: seq<string>)
    requires IsClean(urls)
    ensures Clean(Strs(urls)) == urls
  {
    if urls != [] {
      var n := |urls| - 1;
      assert Strs(urls)[..n] == Strs(urls[..n]);
      InitIsClean(urls);
      CleanKeepsClean(urls[..n]);
      assert urls == urls[..n] + [urls[n]];
      assert Strip(urls[n]) == urls[n];
    }
  }

  lemma InitIsClean(urls: seq<string>)
    requires IsClean(urls) && urls != []
    ensures IsClean(urls[..|urls| - 1]) && urls[|urls| - 1] !in urls[..|urls| - 1]
    ensures Trim(urls[|urls| - 1]) && Acceptable(urls[|urls| - 1])
  {
    assert forall i :: 0 <= i < |urls| - 1 ==> urls[..|urls| - 1][i] == urls[i];
  }
}
