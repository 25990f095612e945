/**
 common.ini (mt5api/chartctl/webrequest.py): write_common_ini sets WebRequest=1 and the
 allowlist blob in [Experts], and read_current_urls reads the list back.
 */
module CommonIni {
  import opened Options
  import opened SectionRewrite
  import opened Text
  import Codec = AllowlistCodec
  import Urls = AllowlistUrls

  const EXPERTS := "[Experts]"
  const ENABLE_LINE := "WebRequest=1"
  const ENABLE_KEY := "webrequest"
  const URL_KEY := "webrequesturl"

  function UrlLine(blob: string): string { "WebRequestUrl=" + blob }

  function Classify(line: string): Kind {
    var s := Strip(line);
    if s != "" && s[0] == '[' && s[|s| - 1] == ']' then Header(Lower(s) == "[experts]")
    else
      var k := Find(s, '=');
      var key := Lower(Strip(s[..k]));
      if k == |s| then Plain else if key == ENABLE_KEY then EnableKey else if key == URL_KEY then UrlKey else Plain
  }

  // What stands after the first '='.
  function Value(line: string): string {
    var s := Strip(line);
    var k := Find(s, '=');
    if k == |s| then "" else Strip(s[k + 1..])
  }

  function IniForm(blob: string): Form<string> { Form(Classify, EXPERTS, ENABLE_LINE, UrlLine(blob), "") }

  function ReadUrls(lines: seq<string>): seq<string> {
    var line := FirstUrl(IniForm(""), lines, false);
    var blob := if line == None then "" else Value(line.value);
    if blob == "" then []
    else
      var urls := Codec.DecodeBlob(blob);
      if urls == None then [] else Urls.Clean(Urls.Strs(urls.value))
  }

  lemma KeyLineIs(name: string, value: string)
    requires name != "" && name[0] != '[' && Trim(name) && '=' !in name
    requires value != "" && Trim(value)
    ensures Strip(name + "=" + value) == name + "=" + value
    ensures Find(name + "=" + value, '=') == |name|
    ensures (name + "=" + value)[..|name|] == name && Value(name + "=" + value) == value
    ensures Classify(name + "=" + value) ==
            if Lower(name) == ENABLE_KEY then EnableKey else if Lower(name) == URL_KEY then UrlKey else Plain
  {
    var line := name + "=" + value;
    assert line[0] == name[0] && line[|line| - 1] == value[|value| - 1];
    assert Trim(line) && Strip(line) == line;
    assert "=" == ['='];
    FindInJoin(name, value, '=');
    assert line[..|name|] == name && line[|name| + 1..] == value;
  }

  lemma LowerAt(s: string, t: string)
    requires |s| == |t| && forall i :: 0 <= i < |s| ==> LowerChar(s[i]) == t[i]
    ensures Lower(s) == t
  {
  }

  lemma EnableLineIs()
    ensures Classify(ENABLE_LINE) == EnableKey
  {
    LowerAt("WebRequest", ENABLE_KEY);
    KeyLineIs("WebRequest", "1");
    assert "WebRequest" + "=" + "1" == ENABLE_LINE;
  }

  lemma UrlLineIs(blob: string)
    requires blob != "" && Trim(blob)
    ensures Classify(UrlLine(blob)) == UrlKey && Value(UrlLine(blob)) == blob
  {
    LowerAt("WebRequestUrl", URL_KEY);
    assert |ENABLE_KEY| != |URL_KEY|;
    KeyLineIs("WebRequestUrl", blob);
    assert "WebRequestUrl" + "=" + blob == UrlLine(blob);
  }

  lemma HeaderIs()
    ensures Classify(EXPERTS) == Header(true)
  {
    LowerAt(EXPERTS, "[experts]");
    assert Trim(EXPERTS);
  }

  lemma BlankIs()
    ensures Classify("") == Plain
  {
    assert Strip("") == "" && Lower("") == "";
  }

  lemma FormFits(blob: string)
    requires blob != "" && Trim(blob)
    ensures Fits(IniForm(blob))
  {
    HeaderIs();
    BlankIs();
    EnableLineIs();
    UrlLineIs(blob);
  }

  // The reader classifies lines in the same way whatever blob is written.
  lemma {:induction false} FirstUrlForm(lines: seq<string>, inside: bool, blob: string)
    ensures FirstUrl(IniForm(blob), lines, inside) == FirstUrl(IniForm(""), lines, inside)
  {
    if lines != [] {
      FirstUrlForm(lines[1..], Next(Classify(lines[0]), inside), blob);
    }
  }

  lemma CleanEncodes(urls: seq<string>)
    requires Urls.IsClean(urls)
    ensures Codec.DecodeBlob(Codec.EncodeUrls(urls)) == Some(urls)
    ensures Codec.EncodeUrls(urls) != "" && Trim(Codec.EncodeUrls(urls))
  {
    forall i | 0 <= i < |urls| ensures ';' !in urls[i] && urls[i] != "" {
      assert Urls.Acceptable(urls[i]);
    }
    Codec.DecodeOfEncode(urls);
  }

  /** An allowlist takes URLs for which the code's checksum is not the documented one: any that
      ends in its only character beyond the BMP. */
  lemma AcceptedUrlMissummed(rest: string, c: char)
    requires c as int >= 0x1_0000 && Codec.Bmp(rest) && |rest| < Urls.MAX_URL_LENGTH - 7 && ';' !in rest
    requires forall i :: 0 <= i < |rest| ==> rest[i] as int >= 0x20 && !IsSpace(rest[i])
    ensures var u := "http://" + rest + [c];
            Urls.Acceptable(u) && Codec.Checksum(u) != Codec.Sum(Codec.Utf16(u)) % 0x1_0000
  {
    Urls.HttpIsAcceptable(rest + [c]);
    assert "http://" + (rest + [c]) == "http://" + rest + [c];
    Codec.LastSurrogateDropped("http://" + rest, c);
  }

  /** Whatever the file held, reading it back after a write gives the cleaned list. */
  lemma ReadBack(lines: seq<string>, urls: seq<Urls.Entry>)
    ensures ReadUrls(Written(IniForm(Codec.EncodeUrls(Urls.Clean(urls))), lines)) == Urls.Clean(urls)
  {
    var clean := Urls.Clean(urls);
    var blob := Codec.EncodeUrls(clean);
    Urls.CleanIsClean(urls);
    CleanEncodes(clean);
    FormFits(blob);
    ReadsBack(IniForm(blob), lines);
    FirstUrlForm(Written(IniForm(blob), lines), false, blob);
    UrlLineIs(blob);
    Urls.CleanKeepsClean(clean);
  }

  /** Each key once in [Experts], every other line kept in order, and a second write of the
      same list changes nothing. */
  lemma WriteIsTidy(lines: seq<string>, urls: seq<Urls.Entry>)
    ensures var f := IniForm(Codec.EncodeUrls(Urls.Clean(urls)));
            var out := Written(f, lines);
            && Count(f, out, false, EnableKey) == 1 && Count(f, out, false, UrlKey) == 1
            && (exists n: nat :: Others(f, out, false) + Blanks("", n) == Others(f, Prepared(f, lines), false))
            && Written(f, out) == out
  {
    var f := IniForm(Codec.EncodeUrls(Urls.Clean(urls)));
    Urls.CleanIsClean(urls);
    CleanEncodes(Urls.Clean(urls));
    FormFits(Codec.EncodeUrls(Urls.Clean(urls)));
    KeepsOthers(f, lines);
    WriteTwice(f, lines);
  }

  method WriteCommonIni(lines: seq<string>, urls: seq<Urls.Entry>) returns (out: seq<string>)
    ensures out == Written(IniForm(Codec.EncodeUrls(Urls.Clean(urls))), lines)
  {
    var clean := Urls.CleanUrls(urls);
    var f := IniForm(Codec.EncodeUrls(clean));
    HeaderIs();
    out := RewriteLines(f, lines);
    while out != [] && out[|out| - 1] == ""
      invariant TrimBlank(out, "") == Written(f, lines)
      decreases |out|
    {
      out := out[..|out| - 1];
    }
  }

  method RewriteLines(f: Form<string>, lines: seq<string>) returns (out: seq<string>)
    requires f.kind(f.header) == Header(true)
    ensures out == Rewrite(f, Prepared(f, lines), START)
  {
    var hasExperts := exists i :: 0 <= i < |lines| && f.kind(lines[i]) == Header(true);
    ghost var all := Prepared(f, lines);
    var inExperts, enable, url := false, false, false;
    out := [];
    var i := 0;
    while i < |lines|
      invariant 0 <= i <= |lines|
      invariant !HasExperts(f, lines) ==> !inExperts && !enable && !url
      invariant out + Rewrite(f, all[i..], St(inExperts, enable, url)) == Rewrite(f, all, START)
    {
      ghost var rest := all[i + 1..];
      assert all[i] == lines[i] && all[i..][1..] == rest;
      ghost var before, st := out, St(inExperts, enable, url);
      out, inExperts, enable, url := RewriteLine(f, lines[i], out, inExperts, enable, url);
      Assoc(before, Emit(f, lines[i], st), Rewrite(f, rest, St(inExperts, enable, url)));
      i := i + 1;
    }
    assert all[|lines|..] == if hasExperts then [] else [f.header];
    if inExperts {
      out, enable, url := FlushMissing(f, out, enable, url);
    }
    if !hasExperts {
      RewriteCons(f, f.header, [], START);
      assert [f.header] == [f.header] + [];
      out := out + [f.header];
      out, enable, url := FlushMissing(f, out, enable, url);
    }
  }

  // One turn of the loop over the lines.
  method RewriteLine(f: Form<string>, line: string, out: seq<string>, inside: bool, enable: bool, url: bool)
    returns (longer: seq<string>, inExperts: bool, enabled: bool, listed: bool)
    ensures longer == out + Emit(f, line, St(inside, enable, url))
    ensures St(inExperts, enabled, listed) == After(f.kind(line), St(inside, enable, url))
  {
    longer, inExperts, enabled, listed := out, inside, enable, url;
    var kind := f.kind(line);
    if kind.Header? {
      if inExperts {
        longer, enabled, listed := FlushMissing(f, longer, enabled, listed);
      }
      inExperts := kind.experts;
      longer := longer + [line];
    } else if inExperts && kind == EnableKey {
      if !enabled {
        longer, enabled := longer + [f.enable], true;
      }
    } else if inExperts && kind == UrlKey {
      if !listed {
        longer, listed := longer + [f.url], true;
      }
    } else {
      longer := longer + [line];
    }
  }

  method FlushMissing(f: Form<string>, out: seq<string>, enable: bool, url: bool)
    returns (longer: seq<string>, enabled: bool, listed: bool)
    ensures longer == out + Flush(f, St(true, enable, url)) && enabled && listed
  {
    longer, enabled, listed := out, enable, url;
    if !enabled {
      longer, enabled := longer + [f.enable], true;
    }
    if !listed {
      longer, listed := longer + [f.url], true;
    }
  }

  method ReadBlob(lines: seq<string>) returns (blob: Option<string>)
    ensures var line := FirstUrl(IniForm(""), lines, false);
            blob == if line == None then None else Some(Value(line.value))
  {
    var f := IniForm("");
    var inExperts := false;
    var i := 0;
    while i < |lines|
      invariant 0 <= i <= |lines|
      invariant FirstUrl(f, lines, false) == FirstUrl(f, lines[i..], inExperts)
    {
      assert lines[i..][1..] == lines[i + 1..];
      var kind := f.kind(lines[i]);
      if kind.Header? {
        inExperts := kind.experts;
      } else if inExperts && kind == UrlKey {
        return Some(Value(lines[i]));
      }
      i := i + 1;
    }
    return None;
  }
}
