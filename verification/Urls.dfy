/** The pieces of urllib.parse that main.py uses: `urlparse`, `parse_qs`, `unquote`,
    `quote`. */
module Urls {
  import opened Json
  import opened Strings

  /** What is left to the library: which network locations it rejects with a ValueError,
      the UTF-8 bytes of a character, and how a run of bytes decodes with replacement. */
  datatype UrlLib = UrlLib(rejects: string -> bool, enc: char -> seq<nat>, utf8: seq<nat> -> string)

  /** ASCII characters are their own bytes; decoding never makes a text longer, and the bytes
      of a character at the front decode to it, whatever follows. */
  ghost predicate Lawful(lib: UrlLib) {
    && (forall c, i :: 0 <= i < |lib.enc(c)| ==> lib.enc(c)[i] < 256)
    && (forall c :: c < '\U{80}' ==> lib.enc(c) == [c as nat])
    && (forall bytes :: |lib.utf8(bytes)| <= |bytes|)
    && (forall c, bytes :: lib.utf8(lib.enc(c) + bytes) == [c] + lib.utf8(bytes))
  }

  // ── urlparse ──────────────────────────────────────────────────

  function DropControls(s: string): (r: string)
    ensures |r| <= |s|
  {
    if s != "" && s[0] <= ' ' then DropControls(s[1..]) else s
  }

  function DropBreaks(s: string): (r: string)
    ensures |r| <= |s|
  {
    if s == "" then ""
    else (if s[0] == '\t' || s[0] == '\r' || s[0] == '\n' then "" else [s[0]]) + DropBreaks(s[1..])
  }

  predicate IsLetter(c: char) {
    'a' <= c <= 'z' || 'A' <= c <= 'Z'
  }

  predicate IsDigit(c: char) {
    '0' <= c <= '9'
  }

  predicate SchemeChar(c: char) {
    IsLetter(c) || IsDigit(c) || c == '+' || c == '-' || c == '.'
  }

  /** The URL behind its scheme. */
  function AfterScheme(url: string): (r: string)
    ensures |r| <= |url|
  {
    var i := Until(url, c => c == ':');
    if 0 < i < |url| && IsLetter(url[0]) && (forall k :: 0 <= k < i ==> SchemeChar(url[k])) then url[i + 1..] else url
  }

  datatype Parts = Parts(netloc: string, query: string)

  /** What follows `?` in a path without its fragment. */
  function QueryOf(path: string): (r: string)
    ensures |r| < |path| || r == ""
  {
    var noFragment := path[..Until(path, c => c == '#')];
    var q := Until(noFragment, c => c == '?');
    if q < |noFragment| then noFragment[q + 1..] else ""
  }

  /** Where the network location behind `//` ends. */
  function NetlocEnd(rest: string): (n: nat)
    requires "//" <= rest
    ensures 2 <= n <= |rest|
  {
    2 + Until(rest[2..], c => c == '/' || c == '?' || c == '#')
  }

  /** `urlparse`; None when it raises. */
  function UrlParse(lib: UrlLib, url: string): (r: Option<Parts>)
    ensures r.Some? ==> |r.value.query| < |url| || r.value.query == ""
  {
    var rest := AfterScheme(DropBreaks(DropControls(url)));
    var n := if "//" <= rest then NetlocEnd(rest) else 0;
    var netloc := if "//" <= rest then rest[2..n] else "";
    if lib.rejects(netloc) then None else Some(Parts(netloc, QueryOf(rest[n..])))
  }

  // ── unquote ───────────────────────────────────────────────────

  function HexValue(c: char): Option<nat> {
    if IsDigit(c) then Some((c - '0') as nat)
    else if 'a' <= c <= 'f' then Some((c - 'a') as nat + 10)
    else if 'A' <= c <= 'F' then Some((c - 'A') as nat + 10)
    else None
  }

  /** The byte a percent escape at the front stands for. */
  function Escape(s: string): (r: Option<nat>)
    ensures r.Some? ==> |s| >= 3 && s[0] == '%'
  {
    if |s| >= 3 && s[0] == '%' && HexValue(s[1]).Some? && HexValue(s[2]).Some?
    then Some(16 * HexValue(s[1]).value + HexValue(s[2]).value)
    else None
  }

  /** `unquote`: the bytes of a maximal ASCII run, escapes resolved, are decoded together. */
  function UnquoteRun(lib: UrlLib, s: string, run: seq<nat>): string
    decreases |s|
  {
    if s == "" then lib.utf8(run)
    else if s[0] >= '\U{80}' then lib.utf8(run) + [s[0]] + UnquoteRun(lib, s[1..], [])
    else match Escape(s)
      case Some(b) => UnquoteRun(lib, s[3..], run + [b])
      case None => UnquoteRun(lib, s[1..], run + [s[0] as nat])
  }

  function Unquote(lib: UrlLib, s: string): string {
    UnquoteRun(lib, s, [])
  }

  lemma {:induction false} UnquoteRunShrinks(lib: UrlLib, s: string, run: seq<nat>)
    requires Lawful(lib)
    ensures |UnquoteRun(lib, s, run)| <= |run| + |s|
    decreases |s|
  {
    if s != "" {
      if s[0] >= '\U{80}' {
        UnquoteRunShrinks(lib, s[1..], []);
      } else {
        match Escape(s)
        case Some(b) => UnquoteRunShrinks(lib, s[3..], run + [b]);
        case None => UnquoteRunShrinks(lib, s[1..], run + [s[0] as nat]);
      }
    }
  }

  // ── parse_qs ──────────────────────────────────────────────────

  function PlusToSpace(s: string): (r: string)
    ensures |r| == |s|
  {
    seq(|s|, i requires 0 <= i < |s| => if s[i] == '+' then ' ' else s[i])
  }

  /** The value of the first non-blank field called `key`. */
  function FieldValue(lib: UrlLib, fields: seq<string>, key: string): Option<string> {
    if fields == [] then None
    else
      var f := fields[0];
      var n := Until(f, c => c == '=');
      if n + 1 < |f| && Unquote(lib, PlusToSpace(f[..n])) == key
      then Some(Unquote(lib, PlusToSpace(f[n + 1..])))
      else FieldValue(lib, fields[1..], key)
  }

  lemma {:induction false} FieldIsShorter(lib: UrlLib, fields: seq<string>, key: string, bound: nat)
    requires Lawful(lib) && forall f :: f in fields ==> |f| <= bound
    ensures var v := FieldValue(lib, fields, key); v.Some? ==> |v.value| < bound
    decreases fields
  {
    if fields != [] {
      var f := fields[0];
      var n := Until(f, c => c == '=');
      assert f in fields;
      if n < |f| {
        UnquoteRunShrinks(lib, PlusToSpace(f[n + 1..]), []);
      }
      FieldIsShorter(lib, fields[1..], key, bound);
    }
  }

  lemma {:induction false} PiecesAreShorter(s: string, sep: char -> bool)
    ensures forall f :: f in Split(s, sep) ==> |f| <= |s|
    decreases |s|
  {
    var n := Until(s, sep);
    if n < |s| {
      PiecesAreShorter(s[n + 1..], sep);
    }
  }
}
