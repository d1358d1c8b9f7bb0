/** `extract_real_url` and `extract_domain` of main.py. */
module Redirects {
  import opened Json
  import opened Strings
  import opened Urls

  const KEYS: seq<string> := [
    "adurl", "dest_url", "ducr", "dadu", "durl", "url", "q", "target", "redirect_url", "u"
  ]

  predicate IsRedirect(url: string) {
    Contains(url, "google.com/url?") || Contains(url, "google.com/aclk?")
  }

  /** The first candidate that decodes, twice, to an http URL. */
  function Target(lib: UrlLib, fields: seq<string>, keys: seq<string>): Option<string> {
    if keys == [] then None
    else
      var v := FieldValue(lib, fields, keys[0]);
      if v.Some? && StartsWith(Unquote(lib, v.value), "http") then Some(Unquote(lib, v.value))
      else Target(lib, fields, keys[1..])
  }

  function QueryTarget(lib: UrlLib, href: string): (r: Option<string>)
    requires Lawful(lib)
    ensures r.Some? ==> |r.value| < |href| && StartsWith(r.value, "http")
  {
    var parts := UrlParse(lib, href);
    if parts.None? then None
    else
      var fields := Split(parts.value.query, c => c == '&');
      TargetIsShorter(lib, fields, KEYS, parts.value.query);
      Target(lib, fields, KEYS)
  }

  lemma {:induction false} TargetIsShorter(lib: UrlLib, fields: seq<string>, keys: seq<string>, query: string)
    requires Lawful(lib) && fields == Split(query, c => c == '&')
    ensures var t := Target(lib, fields, keys);
            t.Some? ==> |t.value| < |query| && StartsWith(t.value, "http")
    decreases keys
  {
    if keys != [] {
      PiecesAreShorter(query, c => c == '&');
      FieldIsShorter(lib, fields, keys[0], |query|);
      var v := FieldValue(lib, fields, keys[0]);
      if v.Some? {
        UnquoteRunShrinks(lib, v.value, []);
      }
      TargetIsShorter(lib, fields, keys[1..], query);
    }
  }

  /** Unwraps nested redirects; it ends because a target is shorter than its container. */
  function ExtractRealUrl(lib: UrlLib, href: string): (r: string)
    requires Lawful(lib)
    ensures |r| <= |href|
    ensures r == href || StartsWith(r, "http")
    decreases |href|
  {
    match QueryTarget(lib, href)
    case None => href
    case Some(target) =>
      if IsRedirect(target) then
        var unwrapped := ExtractRealUrl(lib, target);
        if unwrapped != "" && unwrapped != target then unwrapped else target
      else target
  }

  function ExtractDomain(lib: UrlLib, url: string): string {
    match UrlParse(lib, url)
    case None => ""
    case Some(parts) =>
      var domain := Lower(parts.netloc);
      if StartsWith(domain, "www.") then domain[4..] else domain
  }

  // ── which parameter leads ─────────────────────────────────────

  /** What a parameter leads to: its first value, decoded once more, if that is an http
      URL. */
  function Leads(lib: UrlLib, fields: seq<string>, key: string): Option<string> {
    var v := FieldValue(lib, fields, key);
    if v.Some? && StartsWith(Unquote(lib, v.value), "http") then Some(Unquote(lib, v.value)) else None
  }

  function Either(first: Option<string>, second: Option<string>): Option<string> {
    if first.Some? then first else second
  }

  lemma TargetUnfolds(lib: UrlLib, fields: seq<string>, key: string, rest: seq<string>)
    ensures Target(lib, fields, [key] + rest) == Either(Leads(lib, fields, key), Target(lib, fields, rest))
  {
    assert ([key] + rest)[1..] == rest;
  }

  lemma LastKeys(lib: UrlLib, fields: seq<string>)
    ensures Target(lib, fields, KEYS[5..])
            == Either(Leads(lib, fields, "url"), Either(Leads(lib, fields, "q"), Either(Leads(lib, fields, "target"),
               Either(Leads(lib, fields, "redirect_url"), Leads(lib, fields, "u")))))
  {
    assert KEYS[5..] == ["url"] + (["q"] + (["target"] + (["redirect_url"] + (["u"] + []))));
    TargetUnfolds(lib, fields, "u", []);
    TargetUnfolds(lib, fields, "redirect_url", ["u"] + []);
    TargetUnfolds(lib, fields, "target", ["redirect_url"] + (["u"] + []));
    TargetUnfolds(lib, fields, "q", ["target"] + (["redirect_url"] + (["u"] + [])));
    TargetUnfolds(lib, fields, "url", ["q"] + (["target"] + (["redirect_url"] + (["u"] + []))));
  }

  /** Parameters are tried in one fixed order, `adurl` first and `u` last. */
  lemma TargetInOrder(lib: UrlLib, fields: seq<string>)
    ensures Target(lib, fields, KEYS)
            == Either(Leads(lib, fields, "adurl"), Either(Leads(lib, fields, "dest_url"), Either(Leads(lib, fields, "ducr"),
               Either(Leads(lib, fields, "dadu"), Either(Leads(lib, fields, "durl"), Either(Leads(lib, fields, "url"),
               Either(Leads(lib, fields, "q"), Either(Leads(lib, fields, "target"), Either(Leads(lib, fields, "redirect_url"),
               Leads(lib, fields, "u"))))))))))
  {
    assert KEYS == ["adurl"] + (["dest_url"] + (["ducr"] + (["dadu"] + (["durl"] + KEYS[5..]))));
    TargetUnfolds(lib, fields, "durl", KEYS[5..]);
    TargetUnfolds(lib, fields, "dadu", ["durl"] + KEYS[5..]);
    TargetUnfolds(lib, fields, "ducr", ["dadu"] + (["durl"] + KEYS[5..]));
    TargetUnfolds(lib, fields, "dest_url", ["ducr"] + (["dadu"] + (["durl"] + KEYS[5..])));
    TargetUnfolds(lib, fields, "adurl", ["dest_url"] + (["ducr"] + (["dadu"] + (["durl"] + KEYS[5..]))));
    LastKeys(lib, fields);
  }

  // ── the domain of a URL ───────────────────────────────────────

  /** A scheme such as `https`. */
  predicate IsScheme(s: string) {
    s != "" && IsLetter(s[0]) && forall i :: 0 <= i < |s| ==> SchemeChar(s[i])
  }

  predicate NoBreak(s: string) {
    forall i :: 0 <= i < |s| ==> s[i] != '\t' && s[i] != '\r' && s[i] != '\n'
  }

  /** What `urlparse` takes for a network location. */
  predicate IsHost(s: string) {
    NoBreak(s) && forall i :: 0 <= i < |s| ==> s[i] != '/' && s[i] != '?' && s[i] != '#'
  }

  /** Nothing, or a path, a query or a fragment. */
  predicate IsTail(s: string) {
    NoBreak(s) && (s == "" || s[0] == '/' || s[0] == '?' || s[0] == '#')
  }

  lemma {:induction false} NoBreakIsKept(s: string)
    requires NoBreak(s)
    ensures DropBreaks(s) == s
  {
    if s != "" {
      NoBreakIsKept(s[1..]);
    }
  }

  lemma SchemeIsCut(scheme: string, rest: string)
    requires IsScheme(scheme)
    ensures AfterScheme(scheme + ":" + rest) == rest
  {
    var url := scheme + ":" + rest;
    assert url == scheme + [':'] + rest;
    UntilStop(scheme, ':', rest, c => c == ':');
    assert url[|scheme| + 1..] == rest;
    assert forall k :: 0 <= k < |scheme| ==> url[k] == scheme[k];
  }

  lemma HostIsCut(host: string, tail: string)
    requires IsHost(host) && IsTail(tail)
    ensures var rest := "//" + host + tail; NetlocEnd(rest) == 2 + |host| && rest[2..2 + |host|] == host
  {
    var rest := "//" + host + tail;
    if tail == "" {
      assert rest[2..] == host;
      NoStop(host, c => c == '/' || c == '?' || c == '#');
    } else {
      assert rest[2..] == host + [tail[0]] + tail[1..];
      UntilStop(host, tail[0], tail[1..], c => c == '/' || c == '?' || c == '#');
    }
  }

  /** Without a leading `www.` */
  function Bare(host: string): string {
    if StartsWith(host, "www.") then host[4..] else host
  }

  /** The domain of `scheme://host` with any path, query or fragment is the host in lower
      case without a leading `www.`. */
  lemma DomainOfUrl(lib: UrlLib, scheme: string, host: string, tail: string)
    requires IsScheme(scheme) && IsHost(host) && IsTail(tail) && !lib.rejects(host)
    ensures ExtractDomain(lib, scheme + "://" + host + tail) == Bare(Lower(host))
  {
    var rest := "//" + host + tail;
    var url := scheme + ":" + rest;
    assert scheme + "://" + host + tail == url;
    assert NoBreak(url);
    NoBreakIsKept(url);
    SchemeIsCut(scheme, rest);
    HostIsCut(host, tail);
  }

  /** A text without a slash, such as a bare host, has no domain. */
  lemma NoSlashNoDomain(lib: UrlLib, url: string)
    requires '/' !in url
    ensures ExtractDomain(lib, url) == ""
  {
    NoSlashLeft(url);
    assert Lower("") == "";
  }

  lemma {:induction false} NoSlashDropped(s: string)
    requires '/' !in s
    ensures '/' !in DropControls(s) && '/' !in DropBreaks(s)
    decreases |s|
  {
    if s != "" {
      NoSlashDropped(s[1..]);
    }
  }

  lemma NoSlashLeft(url: string)
    requires '/' !in url
    ensures !("//" <= AfterScheme(DropBreaks(DropControls(url))))
  {
    NoSlashDropped(url);
    NoSlashDropped(DropControls(url));
    var rest := AfterScheme(DropBreaks(DropControls(url)));
    assert rest != "" ==> rest[0] != '/';
  }
}
