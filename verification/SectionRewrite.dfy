/**
 The loop of write_common_ini (mt5api/chartctl/webrequest.py) over lines of any kind: which
 lines it keeps, drops and adds depends only on how a line classifies.
 */
module SectionRewrite {
  import opened Options

  datatype Kind = Header(experts: bool) | EnableKey | UrlKey | Plain

  // How lines classify, and the lines the rewrite itself writes.
  datatype Form<!T> = Form(kind: T -> Kind, header: T, enable: T, url: T, blank: T)

  ghost predicate Fits<T>(f: Form<T>) {
    && f.kind(f.header) == Header(true) && f.kind(f.enable) == EnableKey && f.kind(f.url) == UrlKey
    && f.kind(f.blank) == Plain
  }

  // In [Experts], and which of the two keys have been written.
  datatype St = St(inside: bool, enable: bool, url: bool)

  const START := St(false, false, false)
  const FULL := St(true, true, true)

  function Next(k: Kind, inside: bool): bool { if k.Header? then k.experts else inside }

  predicate Ours(k: Kind, inside: bool) { inside && (k == EnableKey || k == UrlKey) }

  predicate HasExperts<T>(f: Form<T>, lines: seq<T>) {
    exists i :: 0 <= i < |lines| && f.kind(lines[i]) == Header(true)
  }

  // The keys a section lacks when it ends.
  function Flush<T>(f: Form<T>, st: St): seq<T> {
    if !st.inside then [] else (if st.enable then [] else [f.enable]) + (if st.url then [] else [f.url])
  }

  function Emit<T>(f: Form<T>, line: T, st: St): seq<T> {
    match f.kind(line)
    case Header(_) => Flush(f, st) + [line]
    case EnableKey => if !st.inside then [line] else if st.enable then [] else [f.enable]
    case UrlKey => if !st.inside then [line] else if st.url then [] else [f.url]
    case Plain => [line]
  }

  function After(k: Kind, st: St): St {
    St(Next(k, st.inside),
       st.enable || (st.inside && (k.Header? || k == EnableKey)),
       st.url || (st.inside && (k.Header? || k == UrlKey)))
  }

  function Rewrite<T>(f: Form<T>, lines: seq<T>, st: St): seq<T> {
    if lines == [] then Flush(f, st) else Emit(f, lines[0], st) + Rewrite(f, lines[1..], After(f.kind(lines[0]), st))
  }

  function TrimBlank<T(==)>(lines: seq<T>, blank: T): (r: seq<T>)
    ensures r <= lines
    ensures forall i :: |r| <= i < |lines| ==> lines[i] == blank
    ensures r != [] ==> r[|r| - 1] != blank
  {
    if lines != [] && lines[|lines| - 1] == blank then TrimBlank(lines[..|lines| - 1], blank) else lines
  }

  // A file without [Experts] gets one at its end.
  function Prepared<T>(f: Form<T>, lines: seq<T>): seq<T> {
    if HasExperts(f, lines) then lines else lines + [f.header]
  }

  function Written<T(==)>(f: Form<T>, lines: seq<T>): seq<T> {
    TrimBlank(Rewrite(f, Prepared(f, lines), START), f.blank)
  }

  lemma HasExpertsCons<T>(f: Form<T>, lines: seq<T>)
    requires lines != []
    ensures HasExperts(f, lines) <==> f.kind(lines[0]) == Header(true) || HasExperts(f, lines[1..])
  {
    if HasExperts(f, lines[1..]) {
      var i :| 0 <= i < |lines[1..]| && f.kind(lines[1..][i]) == Header(true);
      assert f.kind(lines[i + 1]) == Header(true);
    }
    if HasExperts(f, lines) && f.kind(lines[0]) != Header(true) {
      var i :| 0 <= i < |lines| && f.kind(lines[i]) == Header(true);
      assert lines[1..][i - 1] == lines[i];
    }
  }

  lemma PreparedHasExperts<T>(f: Form<T>, lines: seq<T>)
    requires Fits(f)
    ensures HasExperts(f, Prepared(f, lines))
  {
    if !HasExperts(f, lines) {
      assert Prepared(f, lines)[|lines|] == f.header;
    }
  }

  // ---------------------------------------------------------------- what a reader finds

  // The first line in [Experts] that sets the URL key.
  function FirstUrl<T>(f: Form<T>, lines: seq<T>, inside: bool): Option<T> {
    if lines == [] then None
    else if inside && f.kind(lines[0]) == UrlKey then Some(lines[0])
    else FirstUrl(f, lines[1..], Next(f.kind(lines[0]), inside))
  }

  // How many lines in [Experts] are of this kind.
  function Count<T>(f: Form<T>, lines: seq<T>, inside: bool, key: Kind): nat {
    if lines == [] then 0
    else
      (if inside && f.kind(lines[0]) == key then 1 else 0) + Count(f, lines[1..], Next(f.kind(lines[0]), inside), key)
  }

  // Every line but those in [Experts] that set one of our keys.
  function Others<T>(f: Form<T>, lines: seq<T>, inside: bool): seq<T> {
    if lines == [] then []
    else
      (if Ours(f.kind(lines[0]), inside) then [] else [lines[0]]) +
      Others(f, lines[1..], Next(f.kind(lines[0]), inside))
  }

  lemma Cons<T>(f: Form<T>, line: T, rest: seq<T>, inside: bool, key: Kind)
    ensures ([line] + rest)[1..] == rest
    ensures FirstUrl(f, [line] + rest, inside) ==
            if inside && f.kind(line) == UrlKey then Some(line) else FirstUrl(f, rest, Next(f.kind(line), inside))
    ensures Count(f, [line] + rest, inside, key) ==
            (if inside && f.kind(line) == key then 1 else 0) + Count(f, rest, Next(f.kind(line), inside), key)
    ensures Others(f, [line] + rest, inside) ==
            (if Ours(f.kind(line), inside) then [] else [line]) + Others(f, rest, Next(f.kind(line), inside))
  {
    assert ([line] + rest)[1..] == rest;
  }

  predicate Done(st: St, key: Kind) { if key == EnableKey then st.enable else st.url }

  lemma ReadMissingUrl<T>(f: Form<T>, url: bool, rest: seq<T>, key: Kind)
    requires Fits(f) && (key == EnableKey || key == UrlKey)
    ensures var out := (if url then [] else [f.url]) + rest;
            && (!url ==> FirstUrl(f, out, true) == Some(f.url))
            && Count(f, out, true, key) == (if !url && key == UrlKey then 1 else 0) + Count(f, rest, true, key)
            && Others(f, out, true) == Others(f, rest, true)
  {
    if url {
      assert [] + rest == rest;
    } else {
      Cons(f, f.url, rest, true, key);
    }
  }

  lemma ReadMissingEnable<T>(f: Form<T>, enable: bool, rest: seq<T>, key: Kind)
    requires Fits(f) && (key == EnableKey || key == UrlKey)
    ensures var out := (if enable then [] else [f.enable]) + rest;
            && FirstUrl(f, out, true) == FirstUrl(f, rest, true)
            && Count(f, out, true, key) == (if !enable && key == EnableKey then 1 else 0) + Count(f, rest, true, key)
            && Others(f, out, true) == Others(f, rest, true)
  {
    if enable {
      assert [] + rest == rest;
    } else {
      Cons(f, f.enable, rest, true, key);
    }
  }

  lemma ReadFlush<T>(f: Form<T>, st: St, rest: seq<T>, key: Kind)
    requires Fits(f) && (key == EnableKey || key == UrlKey) && st.inside
    ensures var out := Flush(f, st) + rest;
            && (!st.url ==> FirstUrl(f, out, true) == Some(f.url))
            && Count(f, out, true, key) == (if Done(st, key) then 0 else 1) + Count(f, rest, true, key)
            && Others(f, out, true) == Others(f, rest, true)
  {
    var enable, url := if st.enable then [] else [f.enable], if st.url then [] else [f.url];
    ReadMissingUrl(f, st.url, rest, key);
    ReadMissingEnable(f, st.enable, url + rest, key);
    Assoc(enable, url, rest);
  }

  // What the lines a line turns into add to each reading.
  lemma ReadEmit<T>(f: Form<T>, line: T, st: St, tail: seq<T>, key: Kind)
    requires Fits(f) && (key == EnableKey || key == UrlKey)
    ensures var k := f.kind(line);
            var next := After(k, st);
            && (!st.url ==> FirstUrl(f, Emit(f, line, st) + tail, st.inside) ==
                            if next.url then Some(f.url) else FirstUrl(f, tail, next.inside))
            && Count(f, Emit(f, line, st) + tail, st.inside, key) ==
               (if Done(next, key) && !Done(st, key) then 1 else 0) + Count(f, tail, next.inside, key)
            && Others(f, Emit(f, line, st) + tail, st.inside) ==
               (if Ours(k, st.inside) then [] else [line]) + Others(f, tail, next.inside)
  {
    if f.kind(line).Header? {
      ReadHeader(f, line, st, tail, key);
    } else if Emit(f, line, st) == [] {
      assert [] + tail == tail;
    } else {
      Cons(f, Emit(f, line, st)[0], tail, st.inside, key);
    }
  }

  lemma ReadHeader<T>(f: Form<T>, line: T, st: St, tail: seq<T>, key: Kind)
    requires Fits(f) && (key == EnableKey || key == UrlKey) && f.kind(line).Header?
    ensures var inside := f.kind(line).experts;
            var out := Emit(f, line, st) + tail;
            && (!st.url ==> FirstUrl(f, out, st.inside) == if st.inside then Some(f.url) else FirstUrl(f, tail, inside))
            && Count(f, out, st.inside, key) ==
               (if st.inside && !Done(st, key) then 1 else 0) + Count(f, tail, inside, key)
            && Others(f, out, st.inside) == [line] + Others(f, tail, inside)
  {
    assert Emit(f, line, st) + tail == Flush(f, st) + ([line] + tail);
    Cons(f, line, tail, st.inside, key);
    if st.inside {
      ReadFlush(f, st, [line] + tail, key);
    } else {
      assert [] + ([line] + tail) == [line] + tail;
    }
  }

  lemma {:induction false} ReadRewrite<T>(f: Form<T>, lines: seq<T>, st: St, key: Kind)
    requires Fits(f) && (key == EnableKey || key == UrlKey)
    ensures var out := Rewrite(f, lines, st);
            && (!st.url ==> FirstUrl(f, out, st.inside) ==
                            if st.inside || HasExperts(f, lines) then Some(f.url) else None)
            && Count(f, out, st.inside, key) == (if (st.inside || HasExperts(f, lines)) && !Done(st, key) then 1 else 0)
            && Others(f, out, st.inside) == Others(f, lines, st.inside)
  {
    if lines == [] {
      if st.inside {
        ReadFlush(f, st, [], key);
        assert Flush(f, st) + [] == Flush(f, st);
      }
    } else {
      var next := After(f.kind(lines[0]), st);
      HasExpertsCons(f, lines);
      ReadRewrite(f, lines[1..], next, key);
      ReadEmit(f, lines[0], st, Rewrite(f, lines[1..], next), key);
    }
  }

  function Blanks<T>(blank: T, n: nat): seq<T> { seq(n, i => blank) }

  lemma {:induction false} ReadBlank<T>(f: Form<T>, lines: seq<T>, inside: bool, key: Kind)
    requires Fits(f) && key != Plain
    ensures FirstUrl(f, lines + [f.blank], inside) == FirstUrl(f, lines, inside)
    ensures Count(f, lines + [f.blank], inside, key) == Count(f, lines, inside, key)
    ensures Others(f, lines + [f.blank], inside) == Others(f, lines, inside) + [f.blank]
  {
    if lines == [] {
      Cons(f, f.blank, [], inside, key);
      assert lines + [f.blank] == [f.blank] + [];
    } else {
      var line, rest := lines[0], lines[1..];
      ReadBlank(f, rest, Next(f.kind(line), inside), key);
      Cons(f, line, rest + [f.blank], inside, key);
      Cons(f, line, rest, inside, key);
      Assoc([line], rest, [f.blank]);
      assert lines == [line] + rest;
      Assoc(if Ours(f.kind(line), inside) then [] else [line], Others(f, rest, Next(f.kind(line), inside)), [f.blank]);
    }
  }

  lemma {:induction false} ReadTrimmed<T>(f: Form<T>, lines: seq<T>, inside: bool, key: Kind)
    requires Fits(f) && key != Plain
    ensures var r := TrimBlank(lines, f.blank);
            && FirstUrl(f, r, inside) == FirstUrl(f, lines, inside)
            && Count(f, r, inside, key) == Count(f, lines, inside, key)
            && Others(f, r, inside) + Blanks(f.blank, |lines| - |r|) == Others(f, lines, inside)
  {
    if lines != [] && lines[|lines| - 1] == f.blank {
      var init := lines[..|lines| - 1];
      ReadTrimmed(f, init, inside, key);
      ReadBlank(f, init, inside, key);
      assert lines == init + [f.blank];
      var n := |init| - |TrimBlank(init, f.blank)|;
      assert Blanks(f.blank, n + 1) == Blanks(f.blank, n) + [f.blank];
    }
  }

  /** A reader finds the URL line that was written. */
  lemma ReadsBack<T>(f: Form<T>, lines: seq<T>)
    requires Fits(f)
    ensures FirstUrl(f, Written(f, lines), false) == Some(f.url)
  {
    PreparedHasExperts(f, lines);
    ReadRewrite(f, Prepared(f, lines), START, UrlKey);
    ReadTrimmed(f, Rewrite(f, Prepared(f, lines), START), false, UrlKey);
  }

  /** In the written file each of our keys is set exactly once in [Experts], and every other
      line is the old one, in the old order, up to blank lines at the end and an added header. */
  lemma KeepsOthers<T>(f: Form<T>, lines: seq<T>)
    requires Fits(f)
    ensures Count(f, Written(f, lines), false, EnableKey) == 1 && Count(f, Written(f, lines), false, UrlKey) == 1
    ensures exists n: nat ::
              Others(f, Written(f, lines), false) + Blanks(f.blank, n) == Others(f, Prepared(f, lines), false)
  {
    PreparedHasExperts(f, lines);
    var out := Rewrite(f, Prepared(f, lines), START);
    ReadRewrite(f, Prepared(f, lines), START, EnableKey);
    ReadRewrite(f, Prepared(f, lines), START, UrlKey);
    ReadTrimmed(f, out, false, EnableKey);
    ReadTrimmed(f, out, false, UrlKey);
  }

  // ---------------------------------------------------------------- writing twice

  lemma RewriteCons<T>(f: Form<T>, line: T, rest: seq<T>, st: St)
    ensures Rewrite(f, [line] + rest, st) == Emit(f, line, st) + Rewrite(f, rest, After(f.kind(line), st))
  {
    assert ([line] + rest)[1..] == rest;
  }

  lemma RewriteUrl<T>(f: Form<T>, url: bool, rest: seq<T>)
    requires Fits(f)
    ensures var head := if url then [] else [f.url];
            Rewrite(f, head + rest, St(true, true, url)) == head + Rewrite(f, rest, FULL)
  {
    if url {
      assert [] + rest == rest && [] + Rewrite(f, rest, FULL) == Rewrite(f, rest, FULL);
    } else {
      RewriteCons(f, f.url, rest, St(true, true, url));
    }
  }

  lemma RewriteFlush<T>(f: Form<T>, st: St, rest: seq<T>)
    requires Fits(f) && st.inside
    ensures Rewrite(f, Flush(f, st) + rest, st) == Flush(f, st) + Rewrite(f, rest, FULL)
  {
    var head := if st.url then [] else [f.url];
    RewriteUrl(f, st.url, rest);
    if st.enable {
      assert Flush(f, st) == head;
    } else {
      RewriteCons(f, f.enable, head + rest, st);
      Assoc([f.enable], head, rest);
      Assoc([f.enable], head, Rewrite(f, rest, FULL));
    }
  }

  lemma RewriteEmit<T>(f: Form<T>, line: T, st: St, tail: seq<T>)
    requires Fits(f)
    ensures Rewrite(f, Emit(f, line, st) + tail, st) == Emit(f, line, st) + Rewrite(f, tail, After(f.kind(line), st))
  {
    if f.kind(line).Header? {
      RewriteHeader(f, line, st, tail);
    } else if Emit(f, line, st) == [] {
      assert [] + tail == tail;
    } else {
      RewriteCons(f, Emit(f, line, st)[0], tail, st);
    }
  }

  lemma RewriteHeader<T>(f: Form<T>, line: T, st: St, tail: seq<T>)
    requires Fits(f) && f.kind(line).Header?
    ensures Rewrite(f, Emit(f, line, st) + tail, st) == Emit(f, line, st) + Rewrite(f, tail, After(f.kind(line), st))
  {
    var flush := Flush(f, st);
    Assoc(flush, [line], tail);
    if st.inside {
      RewriteFlush(f, st, [line] + tail);
      RewriteCons(f, line, tail, FULL);
      assert Emit(f, line, FULL) == [line] && After(f.kind(line), FULL) == After(f.kind(line), st);
      Assoc(flush, [line], Rewrite(f, tail, After(f.kind(line), st)));
    } else {
      RewriteCons(f, line, tail, st);
      assert [] + ([line] + tail) == [line] + tail;
    }
  }

  lemma {:induction false} RewriteTwice<T>(f: Form<T>, lines: seq<T>, st: St)
    requires Fits(f)
    ensures Rewrite(f, Rewrite(f, lines, st), st) == Rewrite(f, lines, st)
  {
    if lines == [] {
      if st.inside {
        RewriteFlush(f, st, []);
        assert Flush(f, st) + [] == Flush(f, st);
      }
    } else {
      var next := After(f.kind(lines[0]), st);
      RewriteTwice(f, lines[1..], next);
      RewriteEmit(f, lines[0], st, Rewrite(f, lines[1..], next));
    }
  }

  // The lines up to the end of the file, and the state there.
  function Body<T>(f: Form<T>, lines: seq<T>, st: St): seq<T> {
    if lines == [] then [] else Emit(f, lines[0], st) + Body(f, lines[1..], After(f.kind(lines[0]), st))
  }

  function End<T>(f: Form<T>, lines: seq<T>, st: St): St {
    if lines == [] then st else End(f, lines[1..], After(f.kind(lines[0]), st))
  }

  lemma {:induction false} RewriteAppend<T>(f: Form<T>, lines: seq<T>, more: seq<T>, st: St)
    ensures Rewrite(f, lines + more, st) == Body(f, lines, st) + Rewrite(f, more, End(f, lines, st))
  {
    if lines == [] {
      assert lines + more == more;
    } else {
      assert (lines + more)[1..] == lines[1..] + more;
      RewriteAppend(f, lines[1..], more, After(f.kind(lines[0]), st));
    }
  }

  // Nothing is flushed after a blank line of a file the rewrite leaves alone.
  lemma {:induction false} TrimmedIsFixed<T>(f: Form<T>, lines: seq<T>)
    requires Fits(f) && Rewrite(f, lines, START) == lines
    ensures Rewrite(f, TrimBlank(lines, f.blank), START) == TrimBlank(lines, f.blank)
    decreases |lines|
  {
    if lines != [] && lines[|lines| - 1] == f.blank {
      var init := lines[..|lines| - 1];
      var body, flush := Body(f, init, START), Flush(f, End(f, init, START));
      assert lines == init + [f.blank] && init + [] == init;
      RewriteAppend(f, init, [f.blank], START);
      RewriteAppend(f, init, [], START);
      RewriteCons(f, f.blank, [], End(f, init, START));
      assert [f.blank] + [] == [f.blank];
      assert init + [f.blank] == body + ([f.blank] + flush);
      NoFlush(f, init, body, End(f, init, START));
      TrimmedIsFixed(f, init);
    }
  }

  lemma LastOf<T>(init: seq<T>, body: seq<T>, x: T, flush: seq<T>)
    requires init + [x] == body + ([x] + flush)
    ensures flush == [] ==> body == init
    ensures flush != [] ==> flush[|flush| - 1] == x
  {
    var whole := body + ([x] + flush);
    assert whole[..|body|] == body && (init + [x])[..|init|] == init;
    assert (init + [x])[|init|] == x && |whole| == |init| + 1;
    assert flush != [] ==> whole[|whole| - 1] == flush[|flush| - 1];
  }

  lemma NoFlush<T>(f: Form<T>, init: seq<T>, body: seq<T>, st: St)
    requires Fits(f) && init + [f.blank] == body + ([f.blank] + Flush(f, st))
    ensures body + Flush(f, st) == init
  {
    LastOf(init, body, f.blank, Flush(f, st));
  }

  lemma TrimmedHasExperts<T>(f: Form<T>, lines: seq<T>)
    requires Fits(f) && HasExperts(f, lines)
    ensures HasExperts(f, TrimBlank(lines, f.blank))
  {
    var i :| 0 <= i < |lines| && f.kind(lines[i]) == Header(true);
    assert lines[i] != f.blank;
    assert TrimBlank(lines, f.blank)[i] == lines[i];
  }

  lemma {:induction false} RewriteHasExperts<T>(f: Form<T>, lines: seq<T>, st: St)
    requires HasExperts(f, lines)
    ensures HasExperts(f, Rewrite(f, lines, st))
  {
    var next := After(f.kind(lines[0]), st);
    var head, tail := Emit(f, lines[0], st), Rewrite(f, lines[1..], next);
    HasExpertsCons(f, lines);
    if f.kind(lines[0]) == Header(true) {
      assert (head + tail)[|head| - 1] == lines[0];
    } else {
      RewriteHasExperts(f, lines[1..], next);
      var i :| 0 <= i < |tail| && f.kind(tail[i]) == Header(true);
      assert (head + tail)[|head| + i] == tail[i];
    }
  }

  /** Writing twice is writing once. */
  lemma WriteTwice<T>(f: Form<T>, lines: seq<T>)
    requires Fits(f)
    ensures Written(f, Written(f, lines)) == Written(f, lines)
  {
    PreparedHasExperts(f, lines);
    var out := Rewrite(f, Prepared(f, lines), START);
    RewriteTwice(f, Prepared(f, lines), START);
    RewriteHasExperts(f, Prepared(f, lines), START);
    TrimmedHasExperts(f, out);
    TrimmedIsFixed(f, out);
  }
}
