/**
 Strings as the Python code handles them: white space, strip, lower case, split on a
 character. Lower case is that of ASCII letters.
 */
module Text {
  predicate IsSpace(c: char) {
    var n := c as int;
    9 <= n <= 13 || 28 <= n <= 32 || n == 0x85 || n == 0xa0 || n == 0x1680 || 0x2000 <= n <= 0x200a
    || n == 0x2028 || n == 0x2029 || n == 0x202f || n == 0x205f || n == 0x3000
  }

  // No white space at either end.
  predicate Trim(s: string) { s == [] || (!IsSpace(s[0]) && !IsSpace(s[|s| - 1])) }

  function Strip(s: string): (r: string)
    ensures Trim(r)
    ensures Trim(s) ==> r == s
  {
    if s == [] then s
    else if IsSpace(s[0]) then Strip(s[1..])
    else if IsSpace(s[|s| - 1]) then Strip(s[..|s| - 1])
    else s
  }

  function LowerChar(c: char): char {
    if 'A' <= c <= 'Z' then (c as int + 32) as char else c
  }

  function Lower(s: string): (r: string)
    ensures |r| == |s|
  {
    seq(|s|, i requires 0 <= i < |s| => LowerChar(s[i]))
  }

  function UpperChar(c: char): char {
    if 'a' <= c <= 'z' then (c as int - 32) as char else c
  }

  function Upper(s: string): (r: string)
    ensures |r| == |s|
  {
    seq(|s|, i requires 0 <= i < |s| => UpperChar(s[i]))
  }

  function Join(parts: seq<string>, sep: char): string {
    if parts == [] then [] else if |parts| == 1 then parts[0] else parts[0] + [sep] + Join(parts[1..], sep)
  }

  // The index of the first `sep`, or the length.
  function Find(s: string, sep: char): (k: nat)
    ensures k <= |s| && sep !in s[..k] && (k < |s| ==> s[k] == sep)
  {
    if s == [] || s[0] == sep then 0
    else
      var k := Find(s[1..], sep);
      assert s[..1 + k] == [s[0]] + s[1..][..k];
      1 + k
  }

  function Split(s: string, sep: char): (parts: seq<string>)
    ensures |parts| >= 1
    ensures forall i :: 0 <= i < |parts| ==> sep !in parts[i]
    decreases |s|
  {
    var k := Find(s, sep);
    if k == |s| then
      assert s[..k] == s;
      [s]
    else [s[..k]] + Split(s[k + 1..], sep)
  }

  predicate Without(parts: seq<string>, sep: char) { forall i :: 0 <= i < |parts| ==> sep !in parts[i] }

  lemma FindInJoin(head: string, tail: string, sep: char)
    requires sep !in head
    ensures Find(head + [sep] + tail, sep) == |head| && Find(head, sep) == |head|
  {
    assert (head + [sep] + tail)[..|head|] == head;
    var s := head + [sep] + tail;
    FirstIsUnique(s, sep, |head|);
  }

  lemma FirstIsUnique(s: string, sep: char, k: nat)
    requires k < |s| && s[k] == sep && sep !in s[..k]
    ensures Find(s, sep) == k
  {
    NotBefore(s, sep, k);
    NotBefore(s, sep, Find(s, sep));
  }

  lemma NotBefore(s: string, c: char, n: nat)
    requires n <= |s| && c !in s[..n]
    ensures forall i :: 0 <= i < n ==> s[i] != c
  {
    assert forall i :: 0 <= i < n ==> s[..n][i] == s[i];
  }

  /** Splitting a join gives the parts back exactly when there are some and none holds the
      separator. */
  lemma {:induction false} SplitOfJoin(parts: seq<string>, sep: char)
    ensures Split(Join(parts, sep), sep) == parts <==> parts != [] && Without(parts, sep)
  {
    if parts != [] && Without(parts, sep) {
      if |parts| == 1 {
        FindInJoin(parts[0], [], sep);
      } else {
        var rest := Join(parts[1..], sep);
        FindInJoin(parts[0], rest, sep);
        var s := parts[0] + [sep] + rest;
        assert s[..|parts[0]|] == parts[0] && s[|parts[0]| + 1..] == rest;
        SplitOfJoin(parts[1..], sep);
        assert parts == [parts[0]] + parts[1..];
      }
    } else if parts != [] {
      assert Without(Split(Join(parts, sep), sep), sep);
    }
  }
}
