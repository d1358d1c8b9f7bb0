/** The curly-brace templates of runner.py: `_VAR_PATTERN` (dotted paths) and the
    plain-identifier pattern of `_substitute_vars`, both applied with `re.sub`. */
module Templates {
  import opened Json

  datatype Token = Lit(c: char) | Hole(name: string)

  /** A partial substitution: None leaves the placeholder as it stands. */
  type Env = string -> Option<string>

  /** `[a-zA-Z_]` */
  predicate NameStart(c: char) {
    'a' <= c <= 'z' || 'A' <= c <= 'Z' || c == '_'
  }

  /** `[a-zA-Z0-9_]`, and `.` too in the dotted pattern. */
  predicate NameChar(c: char, dots: bool) {
    NameStart(c) || '0' <= c <= '9' || (dots && c == '.')
  }

  predicate IsName(s: string, dots: bool) {
    s != "" && NameStart(s[0]) && forall i :: 0 <= i < |s| ==> NameChar(s[i], dots)
  }

  /** Length of the longest run of name characters at the front. */
  function NameLen(s: string, dots: bool): (n: nat)
    ensures n <= |s|
    ensures forall i :: 0 <= i < n ==> NameChar(s[i], dots)
    ensures n < |s| ==> !NameChar(s[n], dots)
  {
    if s != "" && NameChar(s[0], dots) then 1 + NameLen(s[1..], dots) else 0
  }

  /** The pattern matched at the front of `s`: the name between the braces. */
  function HoleName(s: string, dots: bool): (r: Option<string>)
    ensures r.Some? ==> IsName(r.value, dots) && |r.value| + 2 <= |s|
    ensures r.Some? ==> s == "{" + r.value + "}" + s[|r.value| + 2..]
  {
    if |s| >= 2 && s[0] == '{' && NameStart(s[1]) then
      var n := NameLen(s[1..], dots);
      if 1 + n < |s| && s[1 + n] == '}' then
        Some(s[1..1 + n])
      else None
    else None
  }

  /** Leftmost, non-overlapping matches, as `re.sub` finds them. */
  function Scan(s: string, dots: bool): seq<Token>
    decreases |s|
  {
    if s == "" then []
    else match HoleName(s, dots)
      case Some(name) => [Hole(name)] + Scan(s[|name| + 2..], dots)
      case None => [Lit(s[0])] + Scan(s[1..], dots)
  }

  function Spell(t: Token): string {
    match t
    case Lit(c) => [c]
    case Hole(name) => "{" + name + "}"
  }

  function Unscan(ts: seq<Token>): string {
    if ts == [] then "" else Spell(ts[0]) + Unscan(ts[1..])
  }

  function Lits(s: string): (ts: seq<Token>)
    ensures |ts| == |s| && forall i :: 0 <= i < |s| ==> ts[i] == Lit(s[i])
  {
    seq(|s|, i requires 0 <= i < |s| => Lit(s[i]))
  }

  /** Replaces the bound placeholders; the text put in is not scanned again. */
  function Fill(ts: seq<Token>, env: Env): seq<Token> {
    if ts == [] then []
    else
      var rest := Fill(ts[1..], env);
      if ts[0].Hole? && env(ts[0].name).Some? then Lits(env(ts[0].name).value) + rest
      else [ts[0]] + rest
  }

  /** `re.sub` of one pattern over one string. */
  function Subst(s: string, env: Env, dots: bool): string {
    Unscan(Fill(Scan(s, dots), env))
  }

  /** `first`, and `second` where `first` binds nothing. */
  function Outermost(first: Env, second: Env): Env {
    name => if first(name).Some? then first(name) else second(name)
  }

  predicate NoBrace(s: string) {
    forall i :: 0 <= i < |s| ==> s[i] != '{' && s[i] != '}'
  }

  ghost predicate BraceFree(env: Env) {
    forall name :: env(name).Some? ==> NoBrace(env(name).value)
  }

  /** The placeholders among these tokens are filled with texts without braces, whatever the
      environment binds elsewhere. */
  predicate PlainOn(ts: seq<Token>, env: Env) {
    forall t :: t in ts && t.Hole? && env(t.name).Some? ==> NoBrace(env(t.name).value)
  }

  /** Tokens that a stray `{` in front of them can turn into a placeholder once their
      own placeholders are filled: name characters and placeholders up to a stray `}`. */
  predicate Closes(ts: seq<Token>, dots: bool) {
    ts != [] && (
      ts[0] == Lit('}')
      || ((ts[0].Hole? || NameChar(ts[0].c, dots)) && Closes(ts[1..], dots)))
  }

  /** A stray `{` opens a placeholder-to-be somewhere in the template. */
  predicate Captures(ts: seq<Token>, dots: bool) {
    ts != [] && (
      (ts[0] == Lit('{') && |ts| > 1 && (ts[1].Hole? || NameStart(ts[1].c)) && Closes(ts[1..], dots))
      || Captures(ts[1..], dots))
  }

  predicate Capturable(s: string, dots: bool) {
    Captures(Scan(s, dots), dots)
  }

  // ── names ─────────────────────────────────────────────────────

  /** A name is a letter or underscore, followed by letters, underscores and digits, and by
      dots in the dotted pattern. */
  lemma NamesGrow(s: string, c: char, dots: bool)
    ensures IsName([c], dots) <==> 'a' <= c <= 'z' || 'A' <= c <= 'Z' || c == '_'
    ensures s != "" ==>
              (IsName(s + [c], dots)
               <==> IsName(s, dots)
                    && ('a' <= c <= 'z' || 'A' <= c <= 'Z' || c == '_' || '0' <= c <= '9' || (dots && c == '.')))
  {
    if s != "" {
      assert (s + [c])[..|s|] == s && (s + [c])[|s|] == c;
      assert IsName(s + [c], dots) ==> forall i :: 0 <= i < |s| ==> NameChar(s[i], dots) by {
        assert forall i :: 0 <= i < |s| ==> (s + [c])[i] == s[i];
      }
    }
  }

  // ── scanning and spelling ─────────────────────────────────────

  lemma UnscanAppend(a: seq<Token>, b: seq<Token>)
    ensures Unscan(a + b) == Unscan(a) + Unscan(b)
  {
    if a == [] {
      assert a + b == b;
    } else {
      assert (a + b)[1..] == a[1..] + b;
      UnscanAppend(a[1..], b);
    }
  }

  lemma UnscanLits(s: string)
    ensures Unscan(Lits(s)) == s
  {
    if s != "" {
      assert Lits(s)[1..] == Lits(s[1..]);
      UnscanLits(s[1..]);
    }
  }

  lemma {:induction false} ScanSpells(s: string, dots: bool)
    ensures Unscan(Scan(s, dots)) == s
    decreases |s|
  {
    if s != "" {
      match HoleName(s, dots)
      case Some(name) =>
        ScanSpells(s[|name| + 2..], dots);
        assert s == "{" + name + "}" + s[|name| + 2..];
      case None =>
        ScanSpells(s[1..], dots);
        assert s == [s[0]] + s[1..];
    }
  }

  /** What a scan produces: real names in the placeholders. */
  predicate Named(ts: seq<Token>, dots: bool) {
    forall t :: t in ts && t.Hole? ==> IsName(t.name, dots)
  }

  /** No literal brace opens a placeholder in the spelling. */
  predicate Settled(ts: seq<Token>, dots: bool) {
    ts == [] || ((ts[0].Lit? ==> HoleName(Unscan(ts), dots).None?) && Settled(ts[1..], dots))
  }

  lemma {:induction false} ScanIsSettled(s: string, dots: bool)
    ensures Named(Scan(s, dots), dots) && Settled(Scan(s, dots), dots)
    decreases |s|
  {
    if s != "" {
      ScanSpells(s, dots);
      match HoleName(s, dots)
      case Some(name) => ScanIsSettled(s[|name| + 2..], dots);
      case None => ScanIsSettled(s[1..], dots);
    }
  }

  lemma NameLenAt(name: string, rest: string, dots: bool)
    requires forall i :: 0 <= i < |name| ==> NameChar(name[i], dots)
    requires rest != "" && !NameChar(rest[0], dots)
    ensures NameLen(name + rest, dots) == |name|
  {
    if name == "" {
      assert name + rest == rest;
    } else {
      assert (name + rest)[1..] == name[1..] + rest;
      NameLenAt(name[1..], rest, dots);
    }
  }

  lemma HoleIsFound(name: string, rest: string, dots: bool)
    requires IsName(name, dots)
    ensures HoleName("{" + name + "}" + rest, dots) == Some(name)
  {
    var s := "{" + name + "}" + rest;
    assert s[1..] == name + ("}" + rest);
    NameLenAt(name, "}" + rest, dots);
    assert s[1..1 + |name|] == name;
  }

  /** Scanning the spelling of settled tokens gives the tokens back. */
  lemma {:induction false} ScanUnscan(ts: seq<Token>, dots: bool)
    requires Named(ts, dots) && Settled(ts, dots)
    ensures Scan(Unscan(ts), dots) == ts
  {
    if ts != [] {
      ScanUnscan(ts[1..], dots);
      var s := Unscan(ts);
      match ts[0]
      case Hole(name) =>
        assert ts[0] in ts;
        HoleIsFound(name, Unscan(ts[1..]), dots);
        assert s == "{" + name + "}" + Unscan(ts[1..]);
        assert s[|name| + 2..] == Unscan(ts[1..]);
      case Lit(c) =>
        assert s[1..] == Unscan(ts[1..]);
    }
  }

  // ── filling ───────────────────────────────────────────────────

  /** What one token is replaced by. */
  function FillOne(t: Token, env: Env): seq<Token> {
    if t.Hole? && env(t.name).Some? then Lits(env(t.name).value) else [t]
  }

  lemma FillUnfolds(t: Token, rest: seq<Token>, env: Env)
    ensures Fill([t] + rest, env) == FillOne(t, env) + Fill(rest, env)
  {
    assert ([t] + rest)[1..] == rest;
  }

  lemma {:induction false} FillAppend(a: seq<Token>, b: seq<Token>, env: Env)
    ensures Fill(a + b, env) == Fill(a, env) + Fill(b, env)
  {
    if a == [] {
      assert a + b == b;
    } else {
      FillAppend(a[1..], b, env);
      FillBehind(a[0], a[1..], b, env, Fill(a[1..], env), Fill(b, env));
      assert a == [a[0]] + a[1..];
    }
  }

  lemma FillBehind(t: Token, a: seq<Token>, b: seq<Token>, env: Env, fa: seq<Token>, fb: seq<Token>)
    requires fa == Fill(a, env) && Fill(a + b, env) == fa + fb
    ensures Fill([t] + a, env) + fb == Fill(([t] + a) + b, env)
  {
    FillUnfolds(t, a, env);
    FillUnfolds(t, a + b, env);
    Regroup([t], a, b);
    Regroup(FillOne(t, env), fa, fb);
  }

  lemma Regroup(a: seq<Token>, b: seq<Token>, c: seq<Token>)
    ensures (a + b) + c == a + (b + c)
  {
  }

  lemma {:induction false} FillLits(s: string, env: Env)
    ensures Fill(Lits(s), env) == Lits(s)
  {
    if s != "" {
      assert Lits(s)[1..] == Lits(s[1..]);
      FillLits(s[1..], env);
    }
  }

  /** Filling twice is filling once with the first environment taking precedence. */
  lemma {:induction false} FillTwice(ts: seq<Token>, first: Env, second: Env)
    ensures Fill(Fill(ts, first), second) == Fill(ts, Outermost(first, second))
  {
    if ts != [] {
      FillTwice(ts[1..], first, second);
      var rest := Fill(ts[1..], first);
      match ts[0]
      case Hole(name) =>
        if first(name).Some? {
          FillAppend(Lits(first(name).value), rest, second);
          FillLits(first(name).value, second);
        } else {
          FillAppend([ts[0]], rest, second);
        }
      case Lit(c) => FillAppend([ts[0]], rest, second);
    }
  }

  lemma {:induction false} FillSame(ts: seq<Token>, env: Env, env': Env)
    requires forall t :: t in ts && t.Hole? ==> env(t.name) == env'(t.name)
    ensures Fill(ts, env) == Fill(ts, env')
  {
    if ts != [] {
      assert ts[0] in ts;
      FillSame(ts[1..], env, env');
    }
  }

  lemma {:induction false} FillKeepsNames(ts: seq<Token>, env: Env, dots: bool)
    requires Named(ts, dots)
    ensures Named(Fill(ts, env), dots)
  {
    if ts != [] {
      assert ts[0] in ts;
      FillKeepsNames(ts[1..], env, dots);
    }
  }

  // ── no capture: the filled template scans as it was filled ────

  lemma NameLenAppend(v: string, u: string, dots: bool)
    ensures (forall i :: 0 <= i < |v| ==> NameChar(v[i], dots)) ==>
              NameLen(v + u, dots) == |v| + NameLen(u, dots)
    ensures !(forall i :: 0 <= i < |v| ==> NameChar(v[i], dots)) ==> NameLen(v + u, dots) < |v|
  {
    if v == "" {
      assert v + u == u;
    } else {
      assert (v + u)[1..] == v[1..] + u;
      NameLenAppend(v[1..], u, dots);
    }
  }

  /** What stands in the filled text for one token. */
  function Shown(t: Token, env: Env): string {
    if t.Hole? && env(t.name).Some? then env(t.name).value else Spell(t)
  }

  lemma UnscanFill(ts: seq<Token>, env: Env)
    requires ts != []
    ensures Unscan(Fill(ts, env)) == Shown(ts[0], env) + Unscan(Fill(ts[1..], env))
  {
    if ts[0].Hole? && env(ts[0].name).Some? {
      UnscanAppend(Lits(env(ts[0].name).value), Fill(ts[1..], env));
      UnscanLits(env(ts[0].name).value);
    }
  }

  /** Name characters, then a `}`. */
  predicate ClosesText(u: string, dots: bool) {
    var n := NameLen(u, dots);
    n < |u| && u[n] == '}'
  }

  lemma CloseBehind(t: Token, env: Env, u: string, dots: bool)
    requires BraceFree(env) && ClosesText(Shown(t, env) + u, dots) && t != Lit('}')
    ensures (t.Hole? || NameChar(t.c, dots)) && ClosesText(u, dots)
  {
    var v := Shown(t, env);
    NameLenAppend(v, u, dots);
    if t.Lit? {
      assert v == [t.c];
    }
  }

  lemma {:induction false} CloseWasThere(ts: seq<Token>, env: Env, dots: bool)
    requires BraceFree(env) && ClosesText(Unscan(Fill(ts, env)), dots)
    ensures Closes(ts, dots)
  {
    if ts == [] {
      assert false;
    } else if ts[0] != Lit('}') {
      UnscanFill(ts, env);
      CloseBehind(ts[0], env, Unscan(Fill(ts[1..], env)), dots);
      CloseWasThere(ts[1..], env, dots);
    }
  }

  lemma {:induction false} FillSettles(ts: seq<Token>, env: Env, dots: bool)
    requires Settled(ts, dots) && !Captures(ts, dots) && BraceFree(env)
    ensures Settled(Fill(ts, env), dots)
  {
    if ts != [] {
      var rest := Fill(ts[1..], env);
      FillSettles(ts[1..], env, dots);
      match ts[0]
      case Lit(c) => LitSettles(ts, env, dots);
      case Hole(name) =>
        if env(name).Some? {
          LitsSettle(env(name).value, rest, dots);
        }
    }
  }

  lemma LitSettles(ts: seq<Token>, env: Env, dots: bool)
    requires ts != [] && ts[0].Lit? && !Captures(ts, dots) && BraceFree(env) && Settled(Fill(ts[1..], env), dots)
    ensures Settled(Fill(ts, env), dots)
  {
    var u := Unscan(Fill(ts[1..], env));
    UnscanFill(ts, env);
    assert ([ts[0].c] + u)[1..] == u;
    if HoleName([ts[0].c] + u, dots).Some? {
      CloseWasThere(ts[1..], env, dots);
    }
  }

  lemma {:induction false} LitsSettle(v: string, rest: seq<Token>, dots: bool)
    requires NoBrace(v) && Settled(rest, dots)
    ensures Settled(Lits(v) + rest, dots)
  {
    if v == "" {
      assert Lits(v) + rest == rest;
    } else {
      LitsSettle(v[1..], rest, dots);
      assert (Lits(v) + rest)[1..] == Lits(v[1..]) + rest;
    }
  }

  /** The environment restricted to the placeholders that occur. */
  function Masked(ts: seq<Token>, env: Env): Env {
    name => if Hole(name) in ts then env(name) else None
  }

  lemma MaskFillsAlike(ts: seq<Token>, first: Env, second: Env)
    requires PlainOn(ts, first)
    ensures BraceFree(Masked(ts, first))
    ensures Fill(ts, Masked(ts, first)) == Fill(ts, first)
    ensures Fill(ts, Outermost(Masked(ts, first), second)) == Fill(ts, Outermost(first, second))
  {
    FillSame(ts, Masked(ts, first), first);
    FillSame(ts, Outermost(Masked(ts, first), second), Outermost(first, second));
  }

  /** On a template that captures nothing and whose own placeholders get brace-free values,
      a second pass sees exactly the placeholders that the first one left. */
  lemma TwoPassesAreOne(s: string, first: Env, second: Env, dots: bool)
    requires !Capturable(s, dots) && PlainOn(Scan(s, dots), first)
    ensures Subst(Subst(s, first, dots), second, dots) == Subst(s, Outermost(first, second), dots)
  {
    var ts := Scan(s, dots);
    var env := Masked(ts, first);
    MaskFillsAlike(ts, first, second);
    ScanIsSettled(s, dots);
    FillSettles(ts, env, dots);
    FillKeepsNames(ts, env, dots);
    ScanUnscan(Fill(ts, env), dots);
    FillTwice(ts, env, second);
  }

  /** So interpolating such a text again changes nothing. */
  lemma SecondPassChangesNothing(s: string, env: Env, dots: bool)
    requires !Capturable(s, dots) && PlainOn(Scan(s, dots), env)
    ensures Subst(Subst(s, env, dots), env, dots) == Subst(s, env, dots)
  {
    TwoPassesAreOne(s, env, env, dots);
    FillSame(Scan(s, dots), env, Outermost(env, env));
  }

  /** A text without an opening brace is a template of itself. */
  lemma {:induction false} BracelessText(s: string, env: Env, dots: bool)
    requires forall i :: 0 <= i < |s| ==> s[i] != '{'
    ensures Subst(s, env, dots) == s && !Capturable(s, dots)
    decreases |s|
  {
    if s != "" {
      BracelessText(s[1..], env, dots);
      assert HoleName(s, dots).None? && Scan(s, dots) == [Lit(s[0])] + Scan(s[1..], dots);
      UnscanFill(Scan(s, dots), env);
    }
  }

  // ── capture: a witness that two passes differ from one ────────

  /** Binds every name to the one-letter text "a". */
  function AllA(): Env {
    name => Some("a")
  }

  lemma {:induction false} CaptureSplit(ts: seq<Token>, dots: bool) returns (pre: string, name: string, post: string)
    requires Captures(ts, dots)
    ensures IsName(name, dots)
    ensures Unscan(Fill(ts, AllA())) == pre + "{" + name + "}" + post
  {
    var u := Unscan(Fill(ts[1..], AllA()));
    UnscanFill(ts, AllA());
    if ts[0] == Lit('{') && |ts| > 1 && (ts[1].Hole? || NameStart(ts[1].c)) && Closes(ts[1..], dots) {
      name, post := CloseSplit(ts[1..], dots);
      pre := "";
      UnscanFill(ts[1..], AllA());
      assert name[0] == u[0];
      assert ['{'] + (name + "}" + post) == "" + "{" + name + "}" + post;
    } else {
      pre, name, post := CaptureSplit(ts[1..], dots);
      var shown := Shown(ts[0], AllA());
      assert shown + (pre + "{" + name + "}" + post) == (shown + pre) + "{" + name + "}" + post;
      pre := shown + pre;
    }
  }

  lemma {:induction false} CloseSplit(ts: seq<Token>, dots: bool) returns (name: string, post: string)
    requires Closes(ts, dots)
    ensures Unscan(Fill(ts, AllA())) == name + "}" + post
    ensures forall i :: 0 <= i < |name| ==> NameChar(name[i], dots)
    ensures ts[0] != Lit('}') ==> name != ""
  {
    UnscanFill(ts, AllA());
    if ts[0] == Lit('}') {
      name, post := "", Unscan(Fill(ts[1..], AllA()));
    } else {
      name, post := CloseSplit(ts[1..], dots);
      var shown := Shown(ts[0], AllA());
      assert shown + (name + "}" + post) == (shown + name) + "}" + post;
      name := shown + name;
    }
  }

  lemma {:induction false} ScanFindsHole(pre: string, name: string, post: string, dots: bool)
    requires IsName(name, dots)
    ensures exists t :: t in Scan(pre + "{" + name + "}" + post, dots) && t.Hole?
    decreases |pre|
  {
    var s := pre + "{" + name + "}" + post;
    if pre == "" {
      assert s == "{" + name + "}" + post;
      HoleIsFound(name, post, dots);
      assert Scan(s, dots)[0] == Hole(name);
    } else {
      match HoleName(s, dots)
      case Some(n) => assert Scan(s, dots)[0] == Hole(n);
      case None =>
        assert s[1..] == pre[1..] + "{" + name + "}" + post;
        ScanFindsHole(pre[1..], name, post, dots);
        var t :| t in Scan(s[1..], dots) && t.Hole?;
        assert t in Scan(s, dots);
    }
  }

  lemma {:induction false} AllAShrinks(ts: seq<Token>, dots: bool)
    requires Named(ts, dots)
    ensures |Unscan(Fill(ts, AllA()))| <= |Unscan(ts)|
    ensures (exists t :: t in ts && t.Hole?) ==> |Unscan(Fill(ts, AllA()))| < |Unscan(ts)|
  {
    if ts != [] {
      assert ts[0] in ts;
      AllAShrinks(ts[1..], dots);
      if ts[0].Hole? {
        UnscanAppend(Lits("a"), Fill(ts[1..], AllA()));
        UnscanLits("a");
      }
    }
  }

  lemma {:induction false} CaptureShows(s: string, dots: bool)
    requires Capturable(s, dots)
    ensures Subst(Subst(s, AllA(), dots), AllA(), dots) != Subst(s, AllA(), dots)
  {
    var ts := Scan(s, dots);
    var text := Subst(s, AllA(), dots);
    var pre, name, post := CaptureSplit(ts, dots);
    ScanFindsHole(pre, name, post, dots);
    ScanIsSettled(text, dots);
    ScanSpells(text, dots);
    AllAShrinks(Scan(text, dots), dots);
  }

  /** Eager substitution by an outer and then an inner loop is one simultaneous
      substitution in which the outer binding wins, for all brace-free outer values,
      exactly when no stray brace of the template can capture a filled placeholder. */
  lemma EagerIsSimultaneousIff(s: string, dots: bool)
    ensures (forall first: Env, second: Env :: BraceFree(first) ==>
               Subst(Subst(s, first, dots), second, dots) == Subst(s, Outermost(first, second), dots))
            <==> !Capturable(s, dots)
  {
    if Capturable(s, dots) {
      var a := AllA();
      CaptureShows(s, dots);
      FillSame(Scan(s, dots), a, Outermost(a, a));
      assert BraceFree(a) && Subst(Subst(s, a, dots), a, dots) != Subst(s, Outermost(a, a), dots);
    } else {
      forall first: Env, second: Env | BraceFree(first)
        ensures Subst(Subst(s, first, dots), second, dots) == Subst(s, Outermost(first, second), dots)
      {
        TwoPassesAreOne(s, first, second, dots);
      }
    }
  }

  /** Interpolating an interpolated text changes nothing, for all brace-free contexts,
      exactly when no stray brace of the template can capture a filled placeholder. */
  lemma InterpolationIsIdempotentIff(s: string, dots: bool)
    ensures (forall env: Env :: BraceFree(env) ==>
               Subst(Subst(s, env, dots), env, dots) == Subst(s, env, dots))
            <==> !Capturable(s, dots)
  {
    if Capturable(s, dots) {
      CaptureShows(s, dots);
      assert BraceFree(AllA());
    } else {
      forall env: Env | BraceFree(env)
        ensures Subst(Subst(s, env, dots), env, dots) == Subst(s, env, dots)
      {
        SecondPassChangesNothing(s, env, dots);
      }
    }
  }
}
