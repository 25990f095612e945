/**
 The first N bars from a moment on and the last N ticks up to one, fetched through a range
 query over a window that doubles on shortfall (mt5api/handlers/symbols.py).
 */
module RateWindows {
  import opened Options

  datatype Row = Row(time: int, data: nat)

  ghost predicate Sorted(s: seq<Row>) { forall i, j :: 0 <= i < j < |s| ==> s[i].time <= s[j].time }

  function From(s: seq<Row>, t: int): seq<Row> {
    if s == [] then [] else (if s[0].time >= t then [s[0]] else []) + From(s[1..], t)
  }

  function UpTo(s: seq<Row>, t: int): seq<Row> {
    if s == [] then [] else (if s[0].time <= t then [s[0]] else []) + UpTo(s[1..], t)
  }

  function FirstN(s: seq<Row>, n: nat): seq<Row> { if |s| <= n then s else s[..n] }

  function LastN(s: seq<Row>, n: nat): seq<Row> { if |s| <= n then s else s[|s| - n..] }

  predicate IsSuffix(s: seq<Row>, t: seq<Row>) { |s| <= |t| && t[|t| - |s|..] == s }

  // ---------------------------------------------------------------- time-ordered rows

  lemma {:induction false} FromKeeps(s: seq<Row>, t: int)
    requires Sorted(s) && (s == [] || s[0].time >= t)
    ensures From(s, t) == s
  {
    if s != [] {
      FromKeeps(s[1..], t);
    }
  }

  lemma {:induction false} FromIsSuffix(s: seq<Row>, t: int)
    requires Sorted(s)
    ensures IsSuffix(From(s, t), s)
  {
    if s == [] || s[0].time >= t {
      FromKeeps(s, t);
      assert s[0..] == s;
    } else {
      FromIsSuffix(s[1..], t);
      assert [] + From(s[1..], t) == From(s[1..], t);
      SuffixOfTail(From(s[1..], t), s);
    }
  }

  lemma SuffixOfTail(x: seq<Row>, s: seq<Row>)
    requires s != [] && IsSuffix(x, s[1..])
    ensures IsSuffix(x, s)
  {
    assert s[|s| - |x|..] == s[1..][|s| - 1 - |x|..];
  }

  lemma {:induction false} UpToNone(s: seq<Row>, t: int)
    requires Sorted(s) && s != [] && s[0].time > t
    ensures UpTo(s, t) == []
  {
    if |s| > 1 {
      UpToNone(s[1..], t);
    }
  }

  lemma {:induction false} UpToIsPrefix(s: seq<Row>, t: int)
    requires Sorted(s)
    ensures UpTo(s, t) <= s
  {
    if s != [] {
      if s[0].time <= t {
        UpToIsPrefix(s[1..], t);
        assert s == [s[0]] + s[1..];
      } else {
        UpToNone(s, t);
      }
    }
  }

  lemma {:induction false} UpToLength(s: seq<Row>, t: int, u: int)
    requires t <= u
    ensures |UpTo(s, t)| <= |UpTo(s, u)| <= |s|
  {
    if s != [] {
      UpToLength(s[1..], t, u);
    }
  }

  lemma {:induction false} FromLength(s: seq<Row>, t: int, u: int)
    requires t <= u
    ensures |From(s, u)| <= |From(s, t)| <= |s|
  {
    if s != [] {
      FromLength(s[1..], t, u);
    }
  }

  lemma SuffixSorted(s: seq<Row>, t: seq<Row>)
    requires Sorted(t) && IsSuffix(s, t)
    ensures Sorted(s)
  {
    assert forall i :: 0 <= i < |s| ==> s[i] == t[|t| - |s| + i];
  }

  lemma PrefixSorted(s: seq<Row>, t: seq<Row>)
    requires Sorted(t) && s <= t
    ensures Sorted(s)
  {
    assert forall i :: 0 <= i < |s| ==> s[i] == t[i];
  }

  // ---------------------------------------------------------------- attempts

  // Attempt k is reached, every one before it having come short, and gets no answer.
  ghost predicate GivesOut(answers: nat -> bool, window: nat -> seq<Row>, n: nat, k: nat) {
    !answers(k) && forall j: nat :: j < k ==> |window(j)| < n
  }

  ghost predicate GivesOutBy(answers: nat -> bool, window: nat -> seq<Row>, n: nat, attempts: nat) {
    exists k: nat :: k < attempts && GivesOut(answers, window, n, k)
  }

  // The first k attempts were answered and came short; `rows` is what the last one saw.
  ghost predicate Tried(answers: nat -> bool, window: nat -> seq<Row>, n: nat, k: nat, rows: seq<Row>) {
    && (forall j: nat :: j < k ==> answers(j) && |window(j)| < n)
    && (k > 0 ==> rows == window(k - 1))
  }

  lemma NoneAtAll(answers: nat -> bool, window: nat -> seq<Row>, n: nat, k: nat, rows: seq<Row>)
    requires Tried(answers, window, n, k, rows)
    ensures !GivesOutBy(answers, window, n, k)
    ensures answers(k) && |window(k)| >= n ==> forall attempts: nat :: !GivesOutBy(answers, window, n, attempts)
    ensures !answers(k) ==> forall attempts: nat :: attempts > k ==> GivesOutBy(answers, window, n, attempts)
  {
    assert !answers(k) ==> GivesOut(answers, window, n, k);
  }

  // ---------------------------------------------------------------- bars forward

  const RATE_ATTEMPTS := 4

  // Twice the multiplier of attempt k, which starts at one and a half.
  function Mult(k: nat): nat { if k == 0 then 3 else 2 * Mult(k - 1) }

  function EndAt(anchor: int, n: nat, tf: nat, k: nat): int { anchor + n * tf * Mult(k) / 2 + tf }

  lemma {:induction false} MultGrows(j: nat, k: nat)
    requires j <= k
    ensures Mult(j) <= Mult(k)
  {
    if j < k {
      MultGrows(j, k - 1);
    }
  }

  lemma EndGrows(anchor: int, n: nat, tf: nat, j: nat, k: nat)
    requires j <= k
    ensures EndAt(anchor, n, tf, j) <= EndAt(anchor, n, tf, k)
  {
    MultGrows(j, k);
    Times(n * tf, Mult(j), Mult(k));
  }

  lemma Times(x: nat, a: nat, b: nat)
    requires a <= b
    ensures x * a <= x * b
  {
    assert x * b == x * a + x * (b - a);
  }

  // The terminal's answer to a range query ending at `end`; it may hold earlier bars too.
  ghost predicate RangesTo(ask: int -> Option<seq<Row>>, all: seq<Row>, anchor: int) {
    forall end :: ask(end).Some? ==> From(ask(end).value, anchor) == UpTo(From(all, anchor), end)
  }

  function Window(all: seq<Row>, anchor: int, n: nat, tf: nat, k: nat): seq<Row> {
    UpTo(From(all, anchor), EndAt(anchor, n, tf, k))
  }

  lemma WindowsNest(all: seq<Row>, anchor: int, n: nat, tf: nat, j: nat, k: nat)
    requires Sorted(all) && j <= k
    ensures Window(all, anchor, n, tf, j) <= Window(all, anchor, n, tf, k) <= From(all, anchor)
  {
    FromIsSuffix(all, anchor);
    SuffixSorted(From(all, anchor), all);
    EndGrows(anchor, n, tf, j, k);
    UpToIsPrefix(From(all, anchor), EndAt(anchor, n, tf, j));
    UpToIsPrefix(From(all, anchor), EndAt(anchor, n, tf, k));
    UpToLength(From(all, anchor), EndAt(anchor, n, tf, j), EndAt(anchor, n, tf, k));
  }

  function Windows(all: seq<Row>, anchor: int, n: nat, tf: nat): nat -> seq<Row> {
    (k: nat) => Window(all, anchor, n, tf, k)
  }

  function AnswersTo(ask: int -> Option<seq<Row>>, anchor: int, n: nat, tf: nat): nat -> bool {
    (k: nat) => ask(EndAt(anchor, n, tf, k)).Some?
  }

  /** Whichever attempt succeeds, the bars are the first n of the widest window, unless an
      attempt that was reached got no answer. */
  method ForwardBars(ask: int -> Option<seq<Row>>, ghost all: seq<Row>, anchor: int, n: nat, tf: nat)
    returns (rates: seq<Row>)
    requires n > 0 && Sorted(all) && RangesTo(ask, all, anchor)
    ensures rates == if GivesOutBy(AnswersTo(ask, anchor, n, tf), Windows(all, anchor, n, tf), n, RATE_ATTEMPTS) then []
                     else FirstN(Window(all, anchor, n, tf, RATE_ATTEMPTS - 1), n)
  {
    ghost var answers, windows := AnswersTo(ask, anchor, n, tf), Windows(all, anchor, n, tf);
    var mult := 3;
    rates := [];
    var k := 0;
    while k < RATE_ATTEMPTS
      invariant 0 <= k <= RATE_ATTEMPTS && mult == Mult(k)
      invariant Tried(answers, windows, n, k, rates)
    {
      NoneAtAll(answers, windows, n, k, rates);
      var end := anchor + n * tf * mult / 2 + tf;
      assert end == EndAt(anchor, n, tf, k);
      var got := ask(end);
      if got.None? {
        return [];
      }
      rates := From(got.value, anchor);
      assert rates == windows(k);
      if |rates| >= n {
        SameFirst(all, anchor, n, tf, k);
        rates := rates[..n];
        return;
      }
      mult := 2 * mult;
      k := k + 1;
    }
    NoneAtAll(answers, windows, n, k, rates);
  }

  lemma SameFirst(all: seq<Row>, anchor: int, n: nat, tf: nat, k: nat)
    requires Sorted(all) && k < RATE_ATTEMPTS && |Window(all, anchor, n, tf, k)| >= n
    ensures Window(all, anchor, n, tf, k)[..n] == FirstN(Window(all, anchor, n, tf, RATE_ATTEMPTS - 1), n)
  {
    WindowsNest(all, anchor, n, tf, k, RATE_ATTEMPTS - 1);
    var widest := Window(all, anchor, n, tf, RATE_ATTEMPTS - 1);
    assert |widest| == n ==> widest[..n] == widest;
  }

  /** The bars are the first n from the anchor on exactly when the widest window holds n of
      them, or all there are. */
  lemma ForwardIsFirstNIff(all: seq<Row>, anchor: int, n: nat, tf: nat)
    requires Sorted(all)
    ensures var widest := Window(all, anchor, n, tf, RATE_ATTEMPTS - 1);
            FirstN(widest, n) == FirstN(From(all, anchor), n) <==> |widest| >= n || |widest| == |From(all, anchor)|
  {
    WindowsNest(all, anchor, n, tf, 0, RATE_ATTEMPTS - 1);
    var widest, rest := Window(all, anchor, n, tf, RATE_ATTEMPTS - 1), From(all, anchor);
    if |widest| >= n {
      assert widest[..n] == rest[..n];
      assert |rest| == n ==> rest[..n] == rest;
      assert |widest| == n ==> widest[..n] == widest;
    }
  }

  // ---------------------------------------------------------------- ticks backward

  const TICK_ATTEMPTS := 6
  const FLOOR_WINDOW := 60

  function Doubled(window: nat, k: nat): nat { if k == 0 then window else 2 * Doubled(window, k - 1) }

  function FirstWindow(n: nat): nat { if n / 10 > FLOOR_WINDOW then n / 10 else FLOOR_WINDOW }

  function Max(a: int, b: int): int { if a > b then a else b }

  function StartAt(anchor: int, n: nat, k: nat): int { Max(0, anchor - Doubled(FirstWindow(n), k)) }

  lemma {:induction false} StartFalls(anchor: int, n: nat, j: nat, k: nat)
    requires j <= k
    ensures StartAt(anchor, n, k) <= StartAt(anchor, n, j)
  {
    if j < k {
      StartFalls(anchor, n, j, k - 1);
    }
  }

  ghost predicate RangesFrom(ask: int -> Option<seq<Row>>, all: seq<Row>, anchor: int) {
    forall start :: ask(start).Some? ==> UpTo(ask(start).value, anchor) == From(UpTo(all, anchor), start)
  }

  function Back(all: seq<Row>, anchor: int, n: nat, k: nat): seq<Row> { From(UpTo(all, anchor), StartAt(anchor, n, k)) }

  lemma BacksNest(all: seq<Row>, anchor: int, n: nat, j: nat, k: nat)
    requires Sorted(all) && j <= k
    ensures IsSuffix(Back(all, anchor, n, j), Back(all, anchor, n, k)) &&
            IsSuffix(Back(all, anchor, n, k), UpTo(all, anchor))
  {
    var till := UpTo(all, anchor);
    UpToIsPrefix(all, anchor);
    PrefixSorted(till, all);
    FromIsSuffix(till, StartAt(anchor, n, j));
    FromIsSuffix(till, StartAt(anchor, n, k));
    StartFalls(anchor, n, j, k);
    FromLength(till, StartAt(anchor, n, k), StartAt(anchor, n, j));
    SuffixesNest(Back(all, anchor, n, j), Back(all, anchor, n, k), till);
  }

  lemma SuffixesNest(s: seq<Row>, t: seq<Row>, whole: seq<Row>)
    requires IsSuffix(s, whole) && IsSuffix(t, whole) && |s| <= |t|
    ensures IsSuffix(s, t)
  {
    assert t[|t| - |s|..] == whole[|whole| - |t|..][|t| - |s|..] == whole[|whole| - |s|..];
  }

  lemma SameLast(s: seq<Row>, t: seq<Row>, n: nat)
    requires IsSuffix(s, t) && |s| >= n
    ensures LastN(s, n) == LastN(t, n)
  {
    assert s[|s| - n..] == t[|t| - |s|..][|s| - n..] == t[|t| - n..];
    assert |s| == n ==> s[0..] == s;
    assert |t| == n ==> t[0..] == t;
  }

  function Backs(all: seq<Row>, anchor: int, n: nat): nat -> seq<Row> { (k: nat) => Back(all, anchor, n, k) }

  function AnswersFrom(ask: int -> Option<seq<Row>>, anchor: int, n: nat): nat -> bool {
    (k: nat) => ask(StartAt(anchor, n, k)).Some?
  }

  /** Whichever attempt succeeds, the ticks are the last n of the widest window, unless an
      attempt that was reached got no answer. */
  method BackwardTicks(ask: int -> Option<seq<Row>>, ghost all: seq<Row>, anchor: int, n: nat) returns (ticks: seq<Row>)
    requires n > 0 && Sorted(all) && RangesFrom(ask, all, anchor)
    ensures ticks == if GivesOutBy(AnswersFrom(ask, anchor, n), Backs(all, anchor, n), n, TICK_ATTEMPTS) then []
                     else LastN(Back(all, anchor, n, TICK_ATTEMPTS - 1), n)
  {
    ghost var answers, backs := AnswersFrom(ask, anchor, n), Backs(all, anchor, n);
    var window := FirstWindow(n);
    ticks := [];
    var k := 0;
    while k < TICK_ATTEMPTS
      invariant 0 <= k <= TICK_ATTEMPTS && window == Doubled(FirstWindow(n), k)
      invariant Tried(answers, backs, n, k, ticks)
    {
      NoneAtAll(answers, backs, n, k, ticks);
      var start := Max(0, anchor - window);
      assert start == StartAt(anchor, n, k);
      var got := ask(start);
      if got.None? {
        return [];
      }
      ticks := UpTo(got.value, anchor);
      assert ticks == backs(k);
      if |ticks| >= n {
        BacksNest(all, anchor, n, k, TICK_ATTEMPTS - 1);
        SameLast(ticks, Back(all, anchor, n, TICK_ATTEMPTS - 1), n);
        ticks := LastN(ticks, n);
        return;
      }
      window := 2 * window;
      k := k + 1;
    }
    NoneAtAll(answers, backs, n, k, ticks);
  }

  /** The ticks are the last n up to the anchor exactly when the widest window holds n of them,
      or all there are. */
  lemma BackwardIsLastNIff(all: seq<Row>, anchor: int, n: nat)
    requires Sorted(all)
    ensures var widest := Back(all, anchor, n, TICK_ATTEMPTS - 1);
            LastN(widest, n) == LastN(UpTo(all, anchor), n) <==> |widest| >= n || |widest| == |UpTo(all, anchor)|
  {
    BacksNest(all, anchor, n, 0, TICK_ATTEMPTS - 1);
    var widest, till := Back(all, anchor, n, TICK_ATTEMPTS - 1), UpTo(all, anchor);
    if |widest| >= n {
      SameLast(widest, till, n);
    } else if |widest| == |till| {
      assert till[0..] == till;
    }
  }
}
