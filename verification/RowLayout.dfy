/**
 Finding the rows of an optimization cache (mt5api/backtest/cache_parser.py): the offsets of
 the symbol strings, the stride they repeat at, and the records this cuts the file into.
 */
module RowLayout {
  import opened Options

  datatype Layout = Layout(stride: nat, rowCount: nat, rowStart: nat, symbolOffset: nat, symbolOffsets: seq<nat>)

  ghost predicate Sorted(s: seq<nat>) { forall i, j :: 0 <= i < j < |s| ==> s[i] <= s[j] }

  // The positive distances between neighbours.
  function Deltas(s: seq<nat>): seq<nat>
    requires Sorted(s)
  {
    if |s| < 2 then []
    else
      var init := s[..|s| - 1];
      var gap := s[|s| - 1] - s[|s| - 2];
      Deltas(init) + (if gap > 0 then [gap] else [])
  }

  // One of the most frequent.
  ghost predicate IsMode(s: seq<nat>, x: nat) {
    x in s && forall y :: y in s ==> multiset(s)[y] <= multiset(s)[x]
  }

  // n neighbours from i on, each a stride after the one before.
  predicate Block(s: seq<nat>, stride: nat, i: nat, n: nat) {
    i + n <= |s| && forall k :: i < k < i + n ==> s[k] == s[k - 1] + stride
  }

  // The first of the longest blocks.
  ghost predicate LongestAt(s: seq<nat>, stride: nat, at: nat, n: nat) {
    && Block(s, stride, at, n)
    && forall i: nat, m: nat :: Block(s, stride, i, m) ==> m <= n && (i < at ==> m < n)
  }

  ghost predicate LongestRun(s: seq<nat>, stride: nat, run: seq<nat>) {
    exists at: nat :: LongestAt(s, stride, at, |run|) && run == s[at..at + |run|]
  }

  method DeltasOf(s: seq<nat>) returns (deltas: seq<nat>)
    requires Sorted(s)
    ensures deltas == Deltas(s)
  {
    deltas := [];
    if |s| < 2 {
      return;
    }
    var i := 1;
    while i < |s|
      invariant 1 <= i <= |s| && deltas == Deltas(s[..i])
    {
      assert s[..i + 1][..i] == s[..i];
      if s[i] > s[i - 1] {
        deltas := deltas + [s[i] - s[i - 1]];
      }
      i := i + 1;
    }
    assert s[..i] == s;
  }

  method ModeOf(s: seq<nat>) returns (mode: nat)
    requires s != []
    ensures IsMode(s, mode)
  {
    mode := s[0];
    var i := 1;
    while i < |s|
      invariant 1 <= i <= |s| && mode in s
      invariant forall k :: 0 <= k < i ==> multiset(s)[s[k]] <= multiset(s)[mode]
    {
      if multiset(s)[s[i]] > multiset(s)[mode] {
        mode := s[i];
      }
      i := i + 1;
    }
  }

  // Of all blocks that start before `from`, best is the first longest.
  ghost predicate BestBefore(s: seq<nat>, stride: nat, from: nat, at: nat, n: nat) {
    && Block(s, stride, at, n)
    && forall i: nat, m: nat :: i < from && Block(s, stride, i, m) ==> m <= n && (i < at ==> m < n)
  }

  // The block from c to i ends there: it is broken, or the list is over.
  lemma CloseBlock(s: seq<nat>, stride: nat, at: nat, n: nat, c: nat, i: nat)
    requires c < i <= |s| && at <= c && BestBefore(s, stride, c, at, n) && Block(s, stride, c, i - c)
    requires i < |s| ==> s[i] != s[i - 1] + stride
    ensures i - c > n ==> BestBefore(s, stride, i, c, i - c)
    ensures i - c <= n ==> BestBefore(s, stride, i, at, n)
  {
    forall j: nat, m: nat | c <= j < i && Block(s, stride, j, m)
      ensures m <= i - c
    {
      BlockStops(s, stride, j, m, i);
    }
  }

  lemma BlockStops(s: seq<nat>, stride: nat, j: nat, m: nat, i: nat)
    requires Block(s, stride, j, m) && j < i <= |s| && (i < |s| ==> s[i] != s[i - 1] + stride)
    ensures j + m <= i
  {
  }

  // After offset i - 1: the current run began at c, and best is the first longest before it.
  ghost predicate Tracks(s: seq<nat>, stride: nat, i: nat, c: nat, current: seq<nat>, at: nat, best: seq<nat>) {
    && c < i <= |s| && current == s[c..i] && Block(s, stride, c, i - c)
    && at <= c && at + |best| <= |s| && best == s[at..at + |best|] && BestBefore(s, stride, c, at, |best|)
  }

  lemma TrackFirst(s: seq<nat>, stride: nat)
    requires s != []
    ensures Tracks(s, stride, 1, 0, [s[0]], 0, [])
  {
    assert s[0..1] == [s[0]] && s[0..0] == [];
  }

  lemma TrackMore(s: seq<nat>, stride: nat, i: nat, c: nat, current: seq<nat>, at: nat, best: seq<nat>)
    requires i < |s| && Tracks(s, stride, i, c, current, at, best) && s[i] == current[|current| - 1] + stride
    ensures Tracks(s, stride, i + 1, c, current + [s[i]], at, best)
  {
    assert s[c..i + 1] == s[c..i] + [s[i]];
    assert current[|current| - 1] == s[i - 1];
    assert Block(s, stride, c, i + 1 - c);
  }

  function Longer(best: seq<nat>, current: seq<nat>): seq<nat> { if |current| > |best| then current else best }

  lemma TrackBreak(s: seq<nat>, stride: nat, i: nat, c: nat, current: seq<nat>, at: nat, best: seq<nat>)
    requires i < |s| && Tracks(s, stride, i, c, current, at, best) && s[i] != current[|current| - 1] + stride
    ensures Tracks(s, stride, i + 1, i, [s[i]], if |current| > |best| then c else at, Longer(best, current))
  {
    assert s[i..i + 1] == [s[i]] && current[|current| - 1] == s[i - 1];
    CloseBlock(s, stride, at, |best|, c, i);
  }

  lemma TrackEnd(s: seq<nat>, stride: nat, c: nat, current: seq<nat>, at: nat, best: seq<nat>)
    requires Tracks(s, stride, |s|, c, current, at, best)
    ensures LongestRun(s, stride, Longer(best, current))
  {
    CloseBlock(s, stride, at, |best|, c, |s|);
    if |current| > |best| {
      AllBlocks(s, stride, c, |current|);
    } else {
      AllBlocks(s, stride, at, |best|);
    }
  }

  method FindLongestRun(s: seq<nat>, stride: nat) returns (best: seq<nat>)
    requires s != []
    ensures LongestRun(s, stride, best)
  {
    best := [];
    var current := [s[0]];
    ghost var at, c := 0, 0;
    TrackFirst(s, stride);
    var i := 1;
    while i < |s|
      invariant c < i <= |s| && Tracks(s, stride, i, c, current, at, best)
    {
      if s[i] == current[|current| - 1] + stride {
        TrackMore(s, stride, i, c, current, at, best);
        current := current + [s[i]];
      } else {
        TrackBreak(s, stride, i, c, current, at, best);
        if |current| > |best| {
          best, at := current, c;
        }
        current, c := [s[i]], i;
      }
      i := i + 1;
    }
    TrackEnd(s, stride, c, current, at, best);
    if |current| > |best| {
      best := current;
    }
  }

  lemma AllBlocks(s: seq<nat>, stride: nat, at: nat, n: nat)
    requires BestBefore(s, stride, |s|, at, n) && s != []
    ensures LongestAt(s, stride, at, n)
  {
    assert Block(s, stride, 0, 1);
    forall i: nat, m: nat | Block(s, stride, i, m)
      ensures m <= n && (i < at ==> m < n)
    {
      if i >= |s| { assert m == 0; }
    }
  }

  // ---------------------------------------------------------------- the layout

  // What makes a run of offsets a layout of a file of this length.
  predicate Fits(length: nat, stride: nat, run: seq<nat>) {
    && run != [] && length >= |run| * stride && run[0] >= length - |run| * stride
    && run[0] - (length - |run| * stride) < stride
  }

  ghost predicate IsLayout(length: nat, offsets: seq<nat>, l: Layout)
    requires Sorted(offsets)
  {
    && IsMode(Deltas(offsets), l.stride) && LongestRun(offsets, l.stride, l.symbolOffsets)
    && l.rowCount == |l.symbolOffsets| && Fits(length, l.stride, l.symbolOffsets)
    && l.rowStart + l.rowCount * l.stride == length
    && l.rowStart + l.symbolOffset == l.symbolOffsets[0]
  }

  lemma {:induction false} DeltaIsGap(s: seq<nat>, x: nat)
    requires Sorted(s) && x in Deltas(s)
    ensures x > 0 && exists i :: 0 <= i < |s| - 1 && Block(s, x, i, 2)
  {
    var init := s[..|s| - 1];
    var gap := s[|s| - 1] - s[|s| - 2];
    if x == gap {
      assert gap > 0 || x in Deltas(init);
    }
    if x in Deltas(init) {
      DeltaIsGap(init, x);
      var i :| 0 <= i < |init| - 1 && Block(init, x, i, 2);
      assert Block(s, x, i, 2);
    } else {
      assert Block(s, x, |s| - 2, 2);
    }
  }

  /** The stride being one of the distances, the longest run always has two offsets: a run too
      short is never what a layout fails on. */
  lemma RunHasTwo(s: seq<nat>, stride: nat, run: seq<nat>)
    requires Sorted(s) && stride in Deltas(s) && LongestRun(s, stride, run)
    ensures |run| >= 2
  {
    DeltaIsGap(s, stride);
    var i :| 0 <= i < |s| - 1 && Block(s, stride, i, 2);
    var at: nat :| LongestAt(s, stride, at, |run|) && run == s[at..at + |run|];
    assert Block(s, stride, i, 2);
  }

  method DetectLayout(length: nat, offsets: seq<nat>) returns (layout: Option<Layout>)
    requires Sorted(offsets)
    ensures layout.Some? ==> IsLayout(length, offsets, layout.value)
    ensures layout.None? ==>
              Deltas(offsets) == [] ||
              exists stride, run ::
                IsMode(Deltas(offsets), stride) && LongestRun(offsets, stride, run) && !Fits(length, stride, run)
  {
    if |offsets| < 2 {
      return None;
    }
    var deltas := DeltasOf(offsets);
    if deltas == [] {
      return None;
    }
    var stride := ModeOf(deltas);
    var run := FindLongestRun(offsets, stride);
    RunHasTwo(offsets, stride, run);
    var rowCount := |run|;
    var rowStart := length - rowCount * stride;
    var symbolOffset := run[0] - rowStart;
    if rowStart < 0 || symbolOffset < 0 || symbolOffset >= stride {
      assert !Fits(length, stride, run);
      return None;
    }
    return Some(Layout(stride, rowCount, rowStart, symbolOffset, run));
  }

  // ---------------------------------------------------------------- the records

  // Where record i starts.
  function Start(l: Layout, i: nat): nat { if i == 0 then l.rowStart else Start(l, i - 1) + l.stride }

  lemma {:induction false} StartIs(l: Layout, i: nat)
    ensures Start(l, i) == l.rowStart + i * l.stride
  {
    if i > 0 {
      StartIs(l, i - 1);
      assert i * l.stride == (i - 1) * l.stride + l.stride;
    }
  }

  lemma {:induction false} StartMono(l: Layout, i: nat, j: nat)
    requires i <= j
    ensures Start(l, i) <= Start(l, j)
  {
    if i < j {
      StartMono(l, i, j - 1);
    }
  }

  predicate Covers<T>(data: seq<T>, l: Layout) { Start(l, l.rowCount) == |data| }

  function Record<T>(data: seq<T>, l: Layout, i: nat): (r: seq<T>)
    requires i < l.rowCount && Covers(data, l)
    ensures |r| == l.stride
  {
    StartMono(l, i + 1, l.rowCount);
    data[Start(l, i)..Start(l, i + 1)]
  }

  // The first n records, put together.
  function Records<T>(data: seq<T>, l: Layout, n: nat): seq<T>
    requires n <= l.rowCount && Covers(data, l)
  {
    if n == 0 then [] else Records(data, l, n - 1) + Record(data, l, n - 1)
  }

  lemma {:induction false} RecordsTile<T>(data: seq<T>, l: Layout, n: nat)
    requires n <= l.rowCount && Covers(data, l)
    ensures l.rowStart <= Start(l, n) <= |data| && Records(data, l, n) == data[l.rowStart..Start(l, n)]
  {
    StartMono(l, n, l.rowCount);
    StartMono(l, 0, n);
    if n > 0 {
      RecordsTile(data, l, n - 1);
      Slices(data, l.rowStart, Start(l, n - 1), Start(l, n));
    }
  }

  lemma Slices<T>(data: seq<T>, a: nat, b: nat, c: nat)
    requires a <= b <= c <= |data|
    ensures data[a..b] + data[b..c] == data[a..c]
  {
  }

  lemma {:induction false} RunAt(s: seq<nat>, stride: nat, at: nat, n: nat, k: nat)
    requires Block(s, stride, at, n) && k < n
    ensures s[at + k] == s[at] + k * stride
  {
    if k > 0 {
      RunAt(s, stride, at, n, k - 1);
      assert k * stride == (k - 1) * stride + stride;
    }
  }

  // The i-th offset of the run falls in record i, at the same place as in the first.
  lemma OffsetIs(length: nat, offsets: seq<nat>, l: Layout, i: nat)
    requires Sorted(offsets) && IsLayout(length, offsets, l) && i < l.rowCount
    ensures l.symbolOffsets[i] in offsets
    ensures l.symbolOffsets[i] == Start(l, i) + l.symbolOffset && l.symbolOffset < l.stride
  {
    var run := l.symbolOffsets;
    var at: nat :| LongestAt(offsets, l.stride, at, |run|) && run == offsets[at..at + |run|];
    RunAt(offsets, l.stride, at, |run|, i);
    StartIs(l, i);
    assert run[i] == offsets[at + i] && run[0] == offsets[at];
  }

  ghost predicate SymbolInRecord<T>(data: seq<T>, l: Layout, i: nat)
    requires i < l.rowCount == |l.symbolOffsets| && Covers(data, l)
  {
    && l.symbolOffset < l.stride && l.symbolOffsets[i] < |data|
    && Record(data, l, i)[l.symbolOffset] == data[l.symbolOffsets[i]]
  }

  lemma SymbolIs<T>(data: seq<T>, l: Layout, i: nat)
    requires i < l.rowCount == |l.symbolOffsets| && Covers(data, l)
    requires l.symbolOffsets[i] == Start(l, i) + l.symbolOffset && l.symbolOffset < l.stride
    ensures SymbolInRecord(data, l, i)
  {
    StartMono(l, i + 1, l.rowCount);
  }

  /** The records, put together, are the end of the file, and record i has the i-th symbol
      offset of the run at the symbol offset of every record. */
  lemma LayoutTiles<T>(data: seq<T>, offsets: seq<nat>, l: Layout)
    requires Sorted(offsets) && IsLayout(|data|, offsets, l)
    ensures Covers(data, l) && Records(data, l, l.rowCount) == data[l.rowStart..]
    ensures forall i :: 0 <= i < l.rowCount ==> l.symbolOffsets[i] in offsets && SymbolInRecord(data, l, i)
  {
    StartIs(l, l.rowCount);
    RecordsTile(data, l, l.rowCount);
    forall i | 0 <= i < l.rowCount
      ensures l.symbolOffsets[i] in offsets && SymbolInRecord(data, l, i)
    {
      OffsetIs(|data|, offsets, l, i);
      SymbolIs(data, l, i);
    }
  }
}
