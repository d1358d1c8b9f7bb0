/** Unwrapping undoes wrapping: any number of quoted google.com/url?q= layers. */
module RedirectLayers {
  import opened Json
  import opened Strings
  import opened Urls
  import opened Redirects

  // ── quoting ───────────────────────────────────────────────────

  /** A printable or non-ASCII character that no step of the parsing interprets. */
  predicate Plain(c: char) {
    ((' ' < c < '\U{7f}') || '\U{80}' <= c) && c != '%' && c != '+' && c != '&' && c != '#'
  }

  predicate PlainText(s: string) {
    forall i :: 0 <= i < |s| ==> Plain(s[i])
  }

  type PlainUrl = s: string | PlainText(s) witness ""

  const PREFIX: PlainUrl := "https://www.google.com/url?q="

  /** Plain characters and escapes. */
  predicate Wire(s: string) {
    forall i :: 0 <= i < |s| ==> Plain(s[i]) || s[i] == '%'
  }

  /** `urllib.parse.quote` with some set of characters left alone. */
  datatype Quoter = Quoter(lib: UrlLib, keep: char -> bool)

  /** Whatever a quoter leaves alone, it is a plain ASCII character. */
  ghost predicate Good(q: Quoter) {
    Lawful(q.lib) && forall c :: q.keep(c) ==> Plain(c) && c < '\U{80}'
  }

  function HexDigit(n: nat): char
    requires n < 16
  {
    if n < 10 then '0' + n as char else 'A' + (n - 10) as char
  }

  function Percent(b: nat): string {
    ['%', HexDigit(b / 16 % 16), HexDigit(b % 16)]
  }

  function Percents(bytes: seq<nat>): string {
    if bytes == [] then "" else Percent(bytes[0]) + Percents(bytes[1..])
  }

  function QuoteChar(q: Quoter, c: char): string {
    if q.keep(c) then [c] else Percents(q.lib.enc(c))
  }

  function Quote(q: Quoter, s: string): string {
    if s == "" then "" else QuoteChar(q, s[0]) + Quote(q, s[1..])
  }

  lemma {:induction false} PercentsAreWire(bytes: seq<nat>)
    ensures Wire(Percents(bytes))
  {
    if bytes != [] {
      PercentsAreWire(bytes[1..]);
    }
  }

  lemma {:induction false} QuoteIsWire(q: Quoter, s: string)
    requires Good(q)
    ensures Wire(Quote(q, s))
  {
    if s != "" {
      PercentsAreWire(q.lib.enc(s[0]));
      QuoteIsWire(q, s[1..]);
    }
  }

  lemma {:induction false} QuoteAppend(q: Quoter, a: string, b: string)
    ensures Quote(q, a + b) == Quote(q, a) + Quote(q, b)
  {
    if a == "" {
      assert a + b == b;
    } else {
      assert (a + b)[1..] == a[1..] + b;
      QuoteAppend(q, a[1..], b);
      assert QuoteChar(q, a[0]) + (Quote(q, a[1..]) + Quote(q, b)) == Quote(q, a) + Quote(q, b);
    }
  }

  // ── decoding once ─────────────────────────────────────────────

  /** The bytes of a text. */
  function Enc(lib: UrlLib, s: string): seq<nat> {
    if s == "" then [] else lib.enc(s[0]) + Enc(lib, s[1..])
  }

  lemma RunPercent(lib: UrlLib, b: nat, rest: string, run: seq<nat>)
    requires b < 256
    ensures UnquoteRun(lib, Percent(b) + rest, run) == UnquoteRun(lib, rest, run + [b])
  {
    var s := Percent(b) + rest;
    assert s[3..] == rest;
    assert Escape(s) == Some(b);
  }

  /** Escapes only add their bytes to the run. */
  lemma {:induction false} RunPercents(lib: UrlLib, bytes: seq<nat>, rest: string, run: seq<nat>)
    requires forall i :: 0 <= i < |bytes| ==> bytes[i] < 256
    ensures UnquoteRun(lib, Percents(bytes) + rest, run) == UnquoteRun(lib, rest, run + bytes)
    decreases |bytes|
  {
    if bytes == [] {
      assert Percents(bytes) + rest == rest && run + bytes == run;
    } else {
      assert Percents(bytes) + rest == Percent(bytes[0]) + (Percents(bytes[1..]) + rest);
      RunPercent(lib, bytes[0], Percents(bytes[1..]) + rest, run);
      RunPercents(lib, bytes[1..], rest, run + [bytes[0]]);
      assert (run + [bytes[0]]) + bytes[1..] == run + bytes;
    }
  }

  lemma RunPlain(lib: UrlLib, c: char, rest: string, run: seq<nat>)
    requires c != '%' && c < '\U{80}'
    ensures UnquoteRun(lib, [c] + rest, run) == UnquoteRun(lib, rest, run + [c as nat])
  {
    var s := [c] + rest;
    assert s[1..] == rest && Escape(s).None?;
  }

  lemma RunQuoteChar(q: Quoter, c: char, rest: string, run: seq<nat>)
    requires Good(q)
    ensures UnquoteRun(q.lib, QuoteChar(q, c) + rest, run) == UnquoteRun(q.lib, rest, run + q.lib.enc(c))
  {
    if q.keep(c) {
      RunPlain(q.lib, c, rest, run);
    } else {
      RunPercents(q.lib, q.lib.enc(c), rest, run);
    }
  }

  lemma {:induction false} RunQuote(q: Quoter, x: string, rest: string, run: seq<nat>)
    requires Good(q)
    ensures UnquoteRun(q.lib, Quote(q, x) + rest, run) == UnquoteRun(q.lib, rest, run + Enc(q.lib, x))
    decreases |x|
  {
    if x == "" {
      assert Quote(q, x) + rest == rest && run + Enc(q.lib, x) == run;
    } else {
      var tail := Quote(q, x[1..]) + rest;
      assert Quote(q, x) + rest == QuoteChar(q, x[0]) + tail;
      RunQuoteChar(q, x[0], tail, run);
      RunQuote(q, x[1..], rest, run + q.lib.enc(x[0]));
      assert (run + q.lib.enc(x[0])) + Enc(q.lib, x[1..]) == run + Enc(q.lib, x);
    }
  }

  /** A character whose bytes are at the front of the run comes out first. */
  lemma {:induction false} CharInFront(lib: UrlLib, c: char, rest: string, run: seq<nat>)
    requires Lawful(lib)
    ensures UnquoteRun(lib, rest, lib.enc(c) + run) == [c] + UnquoteRun(lib, rest, run)
    decreases |rest|
  {
    if rest == "" {
    } else if rest[0] >= '\U{80}' {
      assert lib.utf8(lib.enc(c) + run) + [rest[0]] + UnquoteRun(lib, rest[1..], [])
          == [c] + (lib.utf8(run) + [rest[0]] + UnquoteRun(lib, rest[1..], []));
    } else {
      var b := if Escape(rest).Some? then Escape(rest).value else rest[0] as nat;
      var after := if Escape(rest).Some? then rest[3..] else rest[1..];
      CharInFront(lib, c, after, run + [b]);
      assert (lib.enc(c) + run) + [b] == lib.enc(c) + (run + [b]);
    }
  }

  lemma {:induction false} TextInFront(lib: UrlLib, x: string, rest: string, run: seq<nat>)
    requires Lawful(lib)
    ensures UnquoteRun(lib, rest, Enc(lib, x) + run) == x + UnquoteRun(lib, rest, run)
    decreases |x|
  {
    if x == "" {
      assert Enc(lib, x) + run == run;
    } else {
      assert Enc(lib, x) + run == lib.enc(x[0]) + (Enc(lib, x[1..]) + run);
      CharInFront(lib, x[0], rest, Enc(lib, x[1..]) + run);
      TextInFront(lib, x[1..], rest, run);
      assert x == [x[0]] + x[1..];
    }
  }

  /** Decoding undoes one quoting, whatever stands behind. */
  lemma DecodeQuote(q: Quoter, x: string, rest: string)
    requires Good(q)
    ensures Unquote(q.lib, Quote(q, x) + rest) == x + Unquote(q.lib, rest)
  {
    RunQuote(q, x, rest, []);
    assert [] + Enc(q.lib, x) == Enc(q.lib, x) + [];
    TextInFront(q.lib, x, rest, []);
  }

  lemma DecodePlainChar(lib: UrlLib, c: char, rest: string)
    requires Lawful(lib) && c != '%'
    ensures Unquote(lib, [c] + rest) == [c] + Unquote(lib, rest)
  {
    if c < '\U{80}' {
      RunPlain(lib, c, rest, []);
      assert [] + [c as nat] == lib.enc(c) + [];
      CharInFront(lib, c, rest, []);
    } else {
      var s := [c] + rest;
      assert s[1..] == rest && lib.utf8([]) == "";
      assert lib.utf8([]) + [c] + UnquoteRun(lib, rest, []) == [c] + UnquoteRun(lib, rest, []);
    }
  }

  /** A text without escapes decodes to itself. */
  lemma {:induction false} DecodePlain(lib: UrlLib, x: string, rest: string)
    requires Lawful(lib) && PlainText(x)
    ensures Unquote(lib, x + rest) == x + Unquote(lib, rest)
    decreases |x|
  {
    if x == "" {
      assert x + rest == rest;
    } else {
      assert x + rest == [x[0]] + (x[1..] + rest);
      DecodePlainChar(lib, x[0], x[1..] + rest);
      DecodePlain(lib, x[1..], rest);
      assert [x[0]] + (x[1..] + Unquote(lib, rest)) == x + Unquote(lib, rest);
    }
  }

  // ── partly decoded layers ─────────────────────────────────────

  function QuoteTimes(q: Quoter, x: string, k: nat): (r: string)
    requires Good(q) && PlainText(x)
    ensures Wire(r)
  {
    if k == 0 then x
    else
      QuoteIsWire(q, QuoteTimes(q, x, k - 1));
      Quote(q, QuoteTimes(q, x, k - 1))
  }

  function Less(k: nat): nat {
    if k == 0 then 0 else k - 1
  }

  /** The prefix `p` quoted `es[0]`, `es[1]`, ... times, then `d` quoted `e` times. */
  function Layered(q: Quoter, p: PlainUrl, es: seq<nat>, d: string, e: nat): (r: string)
    requires Good(q) && PlainText(d)
    ensures Wire(r)
  {
    if es == [] then QuoteTimes(q, d, e)
    else QuoteTimes(q, p, es[0]) + Layered(q, p, es[1..], d, e)
  }

  function AllLess(es: seq<nat>): (r: seq<nat>)
    ensures |r| == |es|
  {
    seq(|es|, i requires 0 <= i < |es| => Less(es[i]))
  }

  lemma DecodeBlock(q: Quoter, x: string, k: nat, rest: string)
    requires Good(q) && PlainText(x)
    ensures Unquote(q.lib, QuoteTimes(q, x, k) + rest) == QuoteTimes(q, x, Less(k)) + Unquote(q.lib, rest)
  {
    if k == 0 {
      DecodePlain(q.lib, x, rest);
    } else {
      DecodeQuote(q, QuoteTimes(q, x, k - 1), rest);
    }
  }

  lemma LayeredUnfolds(q: Quoter, p: PlainUrl, es: seq<nat>, d: string, e: nat)
    requires Good(q) && PlainText(d) && es != []
    ensures Layered(q, p, es, d, e) == QuoteTimes(q, p, es[0]) + Layered(q, p, es[1..], d, e)
  {
  }

  /** Decoding takes one quoting off every part. */
  lemma {:induction false} DecodeLayers(q: Quoter, p: PlainUrl, es: seq<nat>, d: string, e: nat)
    requires Good(q) && PlainText(d)
    ensures Unquote(q.lib, Layered(q, p, es, d, e)) == Layered(q, p, AllLess(es), d, Less(e))
    decreases |es|
  {
    if es == [] {
      DecodeBlock(q, d, e, "");
      assert QuoteTimes(q, d, e) + "" == QuoteTimes(q, d, e);
      assert QuoteTimes(q, d, Less(e)) + "" == QuoteTimes(q, d, Less(e));
    } else {
      var less := AllLess(es);
      assert less[1..] == AllLess(es[1..]) && less[0] == Less(es[0]);
      DecodeLayers(q, p, es[1..], d, e);
      LayeredUnfolds(q, p, es, d, e);
      LayeredUnfolds(q, p, less, d, Less(e));
      DecodeBlock(q, p, es[0], Layered(q, p, es[1..], d, e));
    }
  }

  lemma QuoteOnce(q: Quoter, x: string, k: nat)
    requires Good(q) && PlainText(x)
    ensures Quote(q, QuoteTimes(q, x, k)) == QuoteTimes(q, x, k + 1)
  {
  }

  function AllMore(es: seq<nat>): (r: seq<nat>)
    ensures |r| == |es|
  {
    seq(|es|, i requires 0 <= i < |es| => es[i] + 1)
  }

  lemma MoreSplits(es: seq<nat>)
    requires es != []
    ensures AllMore(es)[0] == es[0] + 1 && AllMore(es)[1..] == AllMore(es[1..])
  {
  }

  /** Adding one quoting to every part. */
  lemma {:induction false} QuoteLayers(q: Quoter, p: PlainUrl, es: seq<nat>, d: string, e: nat)
    requires Good(q) && PlainText(d)
    ensures Quote(q, Layered(q, p, es, d, e)) == Layered(q, p, AllMore(es), d, e + 1)
    decreases |es|
  {
    if es == [] {
      QuoteOnce(q, d, e);
    } else {
      MoreSplits(es);
      QuoteLayers(q, p, es[1..], d, e);
      LayeredUnfolds(q, p, es, d, e);
      LayeredUnfolds(q, p, AllMore(es), d, e + 1);
      QuoteBoth(q, p, es[0], Layered(q, p, es[1..], d, e), Layered(q, p, AllMore(es[1..]), d, e + 1));
    }
  }

  lemma QuoteBoth(q: Quoter, p: PlainUrl, k: nat, rest: string, quoted: string)
    requires Good(q) && Quote(q, rest) == quoted
    ensures Quote(q, QuoteTimes(q, p, k) + rest) == QuoteTimes(q, p, k + 1) + quoted
  {
    QuoteOnce(q, p, k);
    QuoteAppend(q, QuoteTimes(q, p, k), rest);
  }

  /** The outermost prefix is bare and no part is quoted more than once more than the part
      before it. */
  predicate Stair(es: seq<nat>, e: nat) {
    && es != [] && es[0] == 0
    && (forall i :: 0 <= i < |es| - 1 ==> es[i + 1] <= es[i] + 1)
    && e <= es[|es| - 1] + 1
  }

  // ── one step of unwrapping ────────────────────────────────────

  lemma {:induction false} NoBreaks(s: string)
    requires Wire(s)
    ensures DropBreaks(s) == s
  {
    if s != "" {
      NoBreaks(s[1..]);
    }
  }

  lemma PrefixScheme(rest: string)
    ensures AfterScheme(PREFIX + rest) == "//www.google.com/url?q=" + rest
  {
    var behind := "//www.google.com/url?q=" + rest;
    assert PREFIX == "https" + [':'] + "//www.google.com/url?q=";
    assert PREFIX + rest == "https" + [':'] + behind;
    UntilStop("https", ':', behind, c => c == ':');
  }

  lemma PrefixNetloc(rest: string)
    ensures var s := "//www.google.com/url?q=" + rest;
            NetlocEnd(s) == 16 && s[2..16] == "www.google.com" && s[16..] == "/url?q=" + rest
  {
    var s := "//www.google.com/url?q=" + rest;
    assert s[2..] == "www.google.com" + ['/'] + ("url?q=" + rest);
    UntilStop("www.google.com", '/', "url?q=" + rest, c => c == '/' || c == '?' || c == '#');
  }

  lemma PrefixQuery(rest: string)
    requires Wire(rest)
    ensures QueryOf("/url?q=" + rest) == "q=" + rest
  {
    var path := "/url?q=" + rest;
    NoStop(path, c => c == '#');
    assert path[..|path|] == path == "/url" + ['?'] + ("q=" + rest);
    UntilStop("/url", '?', "q=" + rest, c => c == '?');
    assert path[5..] == "q=" + rest;
  }

  lemma PrefixParses(lib: UrlLib, rest: string)
    requires Wire(rest) && !lib.rejects("www.google.com")
    ensures UrlParse(lib, PREFIX + rest) == Some(Parts("www.google.com", "q=" + rest))
  {
    PrefixIsWire();
    PrefixScheme(rest);
    PrefixNetloc(rest);
    PrefixQuery(rest);
    WireParses(lib, PREFIX, rest);
  }

  lemma PrefixIsWire()
    ensures PlainText(PREFIX) && PREFIX != ""
  {
  }

  /** Nothing is dropped from a URL of plain characters and escapes. */
  lemma WireParses(lib: UrlLib, prefix: string, rest: string)
    requires PlainText(prefix) && prefix != "" && Wire(rest)
    ensures DropBreaks(DropControls(prefix + rest)) == prefix + rest
  {
    assert Wire(prefix + rest);
    NoBreaks(prefix + rest);
  }

  lemma NoPlus(s: string)
    requires Wire(s)
    ensures PlusToSpace(s) == s
  {
  }

  /** The only field of the query is `q`. */
  lemma QueryField(lib: UrlLib, rest: string, key: string)
    requires Lawful(lib) && Wire(rest) && rest != ""
    ensures FieldValue(lib, ["q=" + rest], key) == if key == "q" then Some(Unquote(lib, rest)) else None
  {
    var f := "q=" + rest;
    assert f == "q" + ['='] + rest;
    UntilStop("q", '=', rest, c => c == '=');
    assert f[..1] == "q" && f[2..] == rest;
    NoPlus("q");
    NoPlus(rest);
    DecodePlain(lib, "q", "");
    assert "q" + "" == "q" && lib.utf8([]) == "" && Unquote(lib, "q") == "q";
    assert FieldValue(lib, [f][1..], key) == None;
  }

  lemma {:induction false} TargetFound(lib: UrlLib, rest: string, keys: seq<string>)
    requires Lawful(lib) && Wire(rest) && rest != ""
    requires "q" in keys && StartsWith(Unquote(lib, Unquote(lib, rest)), "http")
    ensures Target(lib, ["q=" + rest], keys) == Some(Unquote(lib, Unquote(lib, rest)))
    decreases keys
  {
    QueryField(lib, rest, keys[0]);
    if keys[0] != "q" {
      TargetFound(lib, rest, keys[1..]);
    }
  }

  lemma OneStep(lib: UrlLib, rest: string)
    requires Lawful(lib) && !lib.rejects("www.google.com")
    requires Wire(rest) && rest != ""
    requires StartsWith(Unquote(lib, Unquote(lib, rest)), "http")
    ensures QueryTarget(lib, PREFIX + rest) == Some(Unquote(lib, Unquote(lib, rest)))
  {
    PrefixParses(lib, rest);
    OneField(rest);
    QIsAKey();
    TargetFound(lib, rest, KEYS);
  }

  lemma OneField(rest: string)
    requires Wire(rest)
    ensures Split("q=" + rest, c => c == '&') == ["q=" + rest]
  {
    NoStop("q=" + rest, c => c == '&');
  }

  lemma QIsAKey()
    ensures "q" in KEYS
  {
    assert KEYS[6] == "q";
  }

  /** A final destination: an http URL that is not itself a redirect. */
  predicate Destination(d: string) {
    PlainText(d) && StartsWith(d, "http") && !IsRedirect(d)
  }

  lemma PrefixStarts(rest: string)
    ensures StartsWith(PREFIX + rest, "http") && IsRedirect(PREFIX + rest)
  {
    var s := PREFIX + rest;
    assert s[12..] == "google.com/url?q=" + rest;
    assert "google.com/url?" <= s[12..];
  }

  lemma BareStart(q: Quoter, p: PlainUrl, es: seq<nat>, d: string, e: nat)
    requires Good(q) && PlainText(d) && es != [] && es[0] == 0
    ensures Layered(q, p, es, d, e) == p + Layered(q, p, es[1..], d, e)
  {
    LayeredUnfolds(q, p, es, d, e);
  }

  /** A URL whose query field decodes to `target` is unwrapped to what `target` is. */
  lemma Follow(lib: UrlLib, rest: string, target: string)
    requires Lawful(lib) && !lib.rejects("www.google.com")
    requires Wire(rest) && rest != ""
    requires target == Unquote(lib, Unquote(lib, rest)) && StartsWith(target, "http")
    ensures ExtractRealUrl(lib, PREFIX + rest) == if IsRedirect(target) then ExtractRealUrl(lib, target) else target
  {
    PrefixStarts(rest);
    OneStep(lib, rest);
  }

  /** What the layers unwrap to is an http text, a redirect unless no layer is left. */
  lemma LayeredTarget(q: Quoter, es: seq<nat>, d: string, e: nat)
    requires Good(q) && Destination(d)
    requires if es == [] then e == 0 else es[0] == 0
    ensures var s := Layered(q, PREFIX, es, d, e);
            StartsWith(s, "http") && (IsRedirect(s) <==> es != []) && (es == [] ==> s == d)
  {
    if es != [] {
      BareStart(q, PREFIX, es, d, e);
      PrefixStarts(Layered(q, PREFIX, es[1..], d, e));
    }
  }

  lemma {:induction false} UnwrapLayers(q: Quoter, es: seq<nat>, d: string, e: nat)
    requires Good(q) && !q.lib.rejects("www.google.com")
    requires Destination(d) && Stair(es, e)
    ensures ExtractRealUrl(q.lib, Layered(q, PREFIX, es, d, e)) == d
    decreases |es|
  {
    var rest := Layered(q, PREFIX, es[1..], d, e);
    var es', e' := AllLess(AllLess(es[1..])), Less(Less(e));
    var target := Layered(q, PREFIX, es', d, e');
    BareStart(q, PREFIX, es, d, e);
    DecodeTwice(q, PREFIX, es[1..], d, e);
    StairDescends(es, e);
    LayeredTarget(q, es', d, e');
    NotEmptied(q.lib, rest, target);
    Follow(q.lib, rest, target);
    if es' != [] {
      UnwrapLayers(q, es', d, e');
    }
  }

  lemma NotEmptied(lib: UrlLib, rest: string, target: string)
    requires Lawful(lib) && target == Unquote(lib, Unquote(lib, rest)) && StartsWith(target, "http")
    ensures rest != ""
  {
  }

  lemma DecodeTwice(q: Quoter, p: PlainUrl, es: seq<nat>, d: string, e: nat)
    requires Good(q) && PlainText(d)
    ensures Unquote(q.lib, Unquote(q.lib, Layered(q, p, es, d, e))) == Layered(q, p, AllLess(AllLess(es)), d, Less(Less(e)))
  {
    DecodeLayers(q, p, es, d, e);
    DecodeLayers(q, p, AllLess(es), d, Less(e));
  }

  lemma StairDescends(es: seq<nat>, e: nat)
    requires Stair(es, e)
    ensures var es' := AllLess(AllLess(es[1..]));
            if |es| == 1 then es' == [] && Less(Less(e)) == 0 else Stair(es', Less(Less(e)))
  {
    var es' := AllLess(AllLess(es[1..]));
    forall i | 0 <= i < |es'| ensures es'[i] == Less(Less(es[i + 1])) {
      assert es[1..][i] == es[i + 1];
    }
  }

  // ── the round trip ────────────────────────────────────────────

  /** `d` inside `n` layers of the prefix `p`, each quoting what it wraps. */
  function Wrapped(q: Quoter, p: PlainUrl, d: string, n: nat): string
    requires Good(q) && PlainText(d)
  {
    if n == 0 then d
    else
      p + Quote(q, Wrapped(q, p, d, n - 1))
  }

  function Steps(n: nat): (r: seq<nat>)
    ensures |r| == n && forall i :: 0 <= i < n ==> r[i] == i
  {
    seq(n, i requires 0 <= i < n => i)
  }

  lemma {:induction false} WrappedIsLayered(q: Quoter, p: PlainUrl, d: string, n: nat)
    requires Good(q) && PlainText(d)
    ensures Wrapped(q, p, d, n) == Layered(q, p, Steps(n), d, n)
  {
    if n > 0 {
      WrappedIsLayered(q, p, d, n - 1);
      QuoteLayers(q, p, Steps(n - 1), d, n - 1);
      assert Steps(n)[1..] == AllMore(Steps(n - 1));
      BareStart(q, p, Steps(n), d, n);
    }
  }

  /** Extraction undoes any positive number of google.com/url?q= layers around any text,
      ASCII or not, although it decodes twice per layer. */
  lemma ExtractUnwraps(q: Quoter, d: string, n: nat)
    requires Good(q) && !q.lib.rejects("www.google.com")
    requires Destination(d) && n >= 1
    ensures ExtractRealUrl(q.lib, Wrapped(q, PREFIX, d, n)) == d
  {
    WrappedIsLayered(q, PREFIX, d, n);
    UnwrapLayers(q, Steps(n), d, n);
  }
}
