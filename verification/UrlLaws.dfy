/** What `urlparse` and `parse_qs` make of the parts a URL is put together from, and how nested
    redirects are followed. */
module UrlLaws {
  import opened Json
  import opened Strings
  import opened Urls
  import opened Redirects

  // ── the parts of a URL ────────────────────────────────────────

  /** A path: nothing, or a slash and what follows it. */
  predicate IsPath(s: string) {
    NoBreak(s) && (s == "" || s[0] == '/') && '?' !in s && '#' !in s
  }

  predicate IsQuery(s: string) {
    NoBreak(s) && '#' !in s
  }

  /** What stands behind the host. */
  function Tail(path: string, query: Option<string>, fragment: Option<string>): string {
    path + (if query.Some? then "?" + query.value else "") + (if fragment.Some? then "#" + fragment.value else "")
  }

  lemma UntilBefore(a: string, b: string, stop: char -> bool)
    requires (forall i :: 0 <= i < |a| ==> !stop(a[i])) && (b != "" ==> stop(b[0]))
    ensures Until(a + b, stop) == |a|
  {
    if b == "" {
      assert a + b == a;
      NoStop(a, stop);
    } else {
      assert a + b == a + [b[0]] + b[1..];
      UntilStop(a, b[0], b[1..], stop);
    }
  }

  lemma FragmentIsCut(front: string, fragment: string)
    requires '#' !in front && (fragment != "" ==> fragment[0] == '#')
    ensures (front + fragment)[..Until(front + fragment, c => c == '#')] == front
  {
    UntilBefore(front, fragment, c => c == '#');
  }

  lemma QueryIsLeft(path: string, query: string)
    requires '?' !in path && (query == "" || query[0] == '?')
    ensures Until(path + query, c => c == '?') == |path| && (path + query)[|path|..] == query
  {
    UntilBefore(path, query, c => c == '?');
  }

  lemma QueryIsCut(path: string, query: Option<string>, fragment: Option<string>)
    requires IsPath(path) && (query.Some? ==> IsQuery(query.value))
    ensures QueryOf(Tail(path, query, fragment)) == if query.Some? then query.value else ""
  {
    var f := if fragment.Some? then "#" + fragment.value else "";
    if query.Some? {
      var q := "?" + query.value;
      FragmentIsCut(path + q, f);
      QueryIsLeft(path, q);
      assert (path + q)[|path| + 1..] == query.value;
    } else {
      FragmentIsCut(path, f);
      QueryIsLeft(path, "");
      assert path + "" == path;
    }
  }

  /** `urlparse` finds the host behind `scheme://` and the text between the first question mark
      and the fragment, whatever the path and the fragment are. */
  lemma UrlParts(lib: UrlLib, scheme: string, host: string, path: string, query: Option<string>, fragment: Option<string>)
    requires IsScheme(scheme) && IsHost(host) && IsPath(path) && !lib.rejects(host)
    requires (query.Some? ==> IsQuery(query.value)) && (fragment.Some? ==> NoBreak(fragment.value))
    ensures UrlParse(lib, scheme + ":" + ("//" + host + Tail(path, query, fragment)))
            == Some(Parts(host, if query.Some? then query.value else ""))
  {
    var tail := Tail(path, query, fragment);
    var rest := "//" + host + tail;
    TailIsTail(path, query, fragment);
    NothingIsDropped(scheme, rest);
    SchemeIsCut(scheme, rest);
    HostIsCut(host, tail);
    assert rest[2 + |host|..] == tail;
    QueryIsCut(path, query, fragment);
  }

  lemma TailIsTail(path: string, query: Option<string>, fragment: Option<string>)
    requires IsPath(path) && (query.Some? ==> IsQuery(query.value)) && (fragment.Some? ==> NoBreak(fragment.value))
    ensures IsTail(Tail(path, query, fragment))
  {
  }

  lemma NothingIsDropped(scheme: string, rest: string)
    requires IsScheme(scheme) && NoBreak(rest)
    ensures DropBreaks(DropControls(scheme + ":" + rest)) == scheme + ":" + rest
  {
    assert NoBreak(scheme + ":" + rest);
    NoBreakIsKept(scheme + ":" + rest);
  }

  /** What has no scheme in front of its first colon keeps it. */
  lemma NoScheme(front: string, rest: string)
    requires ':' !in front && !IsScheme(front)
    ensures AfterScheme(front + ":" + rest) == front + ":" + rest && AfterScheme(front) == front
  {
    var url := front + ":" + rest;
    assert url == front + [':'] + rest;
    UntilStop(front, ':', rest, c => c == ':');
    NoStop(front, c => c == ':');
    assert forall k :: 0 <= k < |front| ==> url[k] == front[k];
  }

  // ── what is dropped before ────────────────────────────────────

  lemma {:induction false} ControlsInFront(a: string, b: string)
    ensures DropControls(a + b) == if DropControls(a) == "" then DropControls(b) else DropControls(a) + b
    decreases |a|
  {
    if a == "" {
      assert a + b == b;
    } else if a[0] <= ' ' {
      assert (a + b)[1..] == a[1..] + b;
      ControlsInFront(a[1..], b);
    }
  }

  lemma {:induction false} BreaksBetween(a: string, b: string)
    ensures DropBreaks(a + b) == DropBreaks(a) + DropBreaks(b)
    decreases |a|
  {
    if a == "" {
      assert a + b == b;
    } else {
      assert (a + b)[1..] == a[1..] + b;
      BreaksBetween(a[1..], b);
    }
  }

  /** Blanks and control characters in front do not matter. */
  lemma BlanksInFront(lib: UrlLib, blanks: string, url: string)
    requires forall i :: 0 <= i < |blanks| ==> blanks[i] <= ' '
    ensures UrlParse(lib, blanks + url) == UrlParse(lib, url)
  {
    OnlyControls(blanks);
    ControlsInFront(blanks, url);
  }

  lemma {:induction false} OnlyControls(s: string)
    requires forall i :: 0 <= i < |s| ==> s[i] <= ' '
    ensures DropControls(s) == ""
    decreases |s|
  {
    if s != "" {
      OnlyControls(s[1..]);
    }
  }

  lemma OneBreak(c: char, b: string)
    requires c == '\t' || c == '\r' || c == '\n'
    ensures DropControls([c] + b) == DropControls(b) && DropBreaks([c] + b) == DropBreaks(b)
  {
    assert ([c] + b)[1..] == b;
  }

  lemma BreakIsDropped(a: string, c: char, b: string)
    requires c == '\t' || c == '\r' || c == '\n'
    ensures DropBreaks(DropControls(a + ([c] + b))) == DropBreaks(DropControls(a + b))
  {
    OneBreak(c, b);
    ControlsInFront(a, [c] + b);
    ControlsInFront(a, b);
    BreaksBetween(DropControls(a), [c] + b);
    BreaksBetween(DropControls(a), b);
  }

  /** Neither do tabs and line breaks anywhere. */
  lemma BreaksAnywhere(lib: UrlLib, a: string, c: char, b: string)
    requires c == '\t' || c == '\r' || c == '\n'
    ensures UrlParse(lib, a + ([c] + b)) == UrlParse(lib, a + b)
  {
    BreakIsDropped(a, c, b);
  }

  // ── fields ────────────────────────────────────────────────────

  /** Of several fields with a name the first that has a value counts. */
  lemma FirstFieldCounts(lib: UrlLib, name: string, value: string, rest: seq<string>, key: string)
    requires '=' !in name
    ensures FieldValue(lib, [name + "=" + value] + rest, key)
            == if value != "" && Unquote(lib, PlusToSpace(name)) == key then Some(Unquote(lib, PlusToSpace(value)))
               else FieldValue(lib, rest, key)
  {
    var f := name + "=" + value;
    assert f == name + ['='] + value;
    UntilStop(name, '=', value, c => c == '=');
    assert f[..|name|] == name && f[|name| + 1..] == value;
    assert ([f] + rest)[1..] == rest;
  }

  /** A field without an equals sign is none. */
  lemma BareFieldIsSkipped(lib: UrlLib, name: string, rest: seq<string>, key: string)
    requires '=' !in name
    ensures FieldValue(lib, [name] + rest, key) == FieldValue(lib, rest, key)
  {
    NoStop(name, c => c == '=');
    assert ([name] + rest)[1..] == rest;
  }

  /** A plus stands for a blank, anywhere. */
  lemma PlusIsBlank(a: string, b: string)
    ensures PlusToSpace(a + "+" + b) == PlusToSpace(a) + " " + PlusToSpace(b)
    ensures '+' !in a ==> PlusToSpace(a) == a
  {
  }

  // ── nested redirects ──────────────────────────────────────────

  /** A Google redirect, in either spelling. */
  predicate PointsOn(url: string) {
    exists i :: 0 <= i <= |url| && ("google.com/url?" <= url[i..] || "google.com/aclk?" <= url[i..])
  }

  lemma PointsOnIff(url: string)
    ensures PointsOn(url) <==> IsRedirect(url)
  {
  }

  /** A target that is no redirect itself is where the URL leads; from one that is, the search
      goes on, and ends at it when it leads nowhere else. */
  lemma RedirectsAreFollowed(lib: UrlLib, href: string, target: string)
    requires Lawful(lib) && QueryTarget(lib, href) == Some(target)
    ensures !PointsOn(target) ==> ExtractRealUrl(lib, href) == target
    ensures PointsOn(target) ==> ExtractRealUrl(lib, href) == ExtractRealUrl(lib, target)
  {
    PointsOnIff(target);
  }

  /** Where there is no target the URL is its own destination. */
  lemma NoTargetNoChange(lib: UrlLib, href: string)
    requires Lawful(lib) && QueryTarget(lib, href) == None
    ensures ExtractRealUrl(lib, href) == href
  {
  }
}
