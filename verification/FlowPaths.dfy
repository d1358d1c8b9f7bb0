/** What the paths of placeholders lead to, and which items and ads a loop goes over. */
module FlowPaths {
  import opened Json
  import opened Strings
  import opened Templates
  import opened Flow
  import opened FlowSemantics

  // ── dotted paths ──────────────────────────────────────────────

  predicate DotFree(key: string) {
    forall i :: 0 <= i < |key| ==> key[i] != '.'
  }

  /** `head.key.key` */
  function Dotted(head: string, keys: seq<string>): string
    decreases keys
  {
    if keys == [] then head else head + "." + Dotted(keys[0], keys[1..])
  }

  lemma {:induction false} SplitDotted(head: string, keys: seq<string>)
    requires DotFree(head) && forall i :: 0 <= i < |keys| ==> DotFree(keys[i])
    ensures Split(Dotted(head, keys), c => c == '.') == [head] + keys
    decreases keys
  {
    if keys == [] {
      NoStop(head, c => c == '.');
    } else {
      var rest := Dotted(keys[0], keys[1..]);
      var path := Dotted(head, keys);
      assert path == head + ['.'] + rest;
      UntilStop(head, '.', rest, c => c == '.');
      assert path[..|head|] == head && path[|head| + 1..] == rest;
      SplitDotted(keys[0], keys[1..]);
      assert [keys[0]] + keys[1..] == keys;
    }
  }

  /** Below dicts a path reads what the dicts hold. */
  lemma {:induction false} DigReads(w: World, v: Value, keys: seq<string>)
    requires Read(v, keys).Some?
    ensures Dig(w, v, keys) == DigDict(v, keys) == Read(v, keys).value
    decreases keys
  {
    if keys != [] {
      DigReads(w, v.m[keys[0]], keys[1..]);
    }
  }

  lemma {:induction false} NothingBelowNull(w: World, keys: seq<string>)
    ensures Dig(w, Null, keys) == DigDict(Null, keys) == Null
  {
  }

  /** What a path below a value leads to: nothing where the dicts do not have it. */
  function Below(v: Value, keys: seq<string>): Value {
    if Read(v, keys).Some? then Read(v, keys).value else Null
  }

  /** Dicts all the way down. */
  predicate Dicts(v: Value, keys: seq<string>)
    decreases keys
  {
    keys == [] || (v.Dict? && (keys[0] in v.m ==> Dicts(v.m[keys[0]], keys[1..])))
  }

  lemma {:induction false} DigIsBelow(w: World, v: Value, keys: seq<string>)
    requires Dicts(v, keys)
    ensures Dig(w, v, keys) == DigDict(v, keys) == Below(v, keys)
    decreases keys
  {
    if keys != [] {
      if keys[0] in v.m {
        DigIsBelow(w, v.m[keys[0]], keys[1..]);
      } else {
        NothingBelowNull(w, keys[1..]);
      }
    }
  }

  /** The path falls into these parts. */
  predicate Parts(path: string, head: string, keys: seq<string>) {
    path != "" && Split(path, c => c == '.') == [head] + keys
  }

  lemma DottedParts(head: string, keys: seq<string>)
    requires head != "" && DotFree(head) && forall i :: 0 <= i < |keys| ==> DotFree(keys[i])
    ensures Parts(Dotted(head, keys), head, keys)
  {
    SplitDotted(head, keys);
  }

  lemma AdLeads(w: World, path: string, keys: seq<string>, sc: Scope, sh: Shared)
    requires Parts(path, "ad", keys)
    ensures Resolve(w, path, sc, sh) == Dig(w, if Truthy(sc.ad) then sc.ad else Dict(map[]), keys)
  {
    assert (["ad"] + keys)[1..] == keys;
  }

  lemma AdsLead(w: World, path: string, keys: seq<string>, sc: Scope, sh: Shared)
    requires Parts(path, "ads", keys)
    ensures Resolve(w, path, sc, sh)
            == if keys != [] && keys[0] == "count" then Num(|sc.ads| as real) else Dig(w, List(sc.ads), keys)
  {
    assert (["ads"] + keys)[1..] == keys;
  }

  lemma ItemLeads(w: World, path: string, keys: seq<string>, sc: Scope, sh: Shared)
    requires Parts(path, "item", keys)
    ensures Resolve(w, path, sc, sh) == sc.item
  {
  }

  lemma QueryLeads(w: World, path: string, keys: seq<string>, sc: Scope, sh: Shared)
    requires Parts(path, "query", keys)
    ensures Resolve(w, path, sc, sh) == Text(sc.query)
  {
  }

  lemma ProfileLeads(w: World, path: string, keys: seq<string>, sc: Scope, sh: Shared)
    requires Parts(path, "profile", keys)
    ensures Resolve(w, path, sc, sh) == Text(w.profile)
  {
  }

  lemma FlagLeads(w: World, path: string, name: string, sc: Scope, sh: Shared)
    requires Parts(path, "flag", [name])
    ensures Resolve(w, path, sc, sh) == if name in sh.flags then Bool(sh.flags[name]) else Null
  {
    assert (["flag"] + [name])[1..] == [name];
  }

  lemma VarLeads(w: World, path: string, keys: seq<string>, sc: Scope, sh: Shared)
    requires Parts(path, "var", keys) && keys != []
    ensures Resolve(w, path, sc, sh) == DigDict(Get(sh.vars, keys[0], Null), keys[1..])
  {
    assert (["var"] + keys)[1..] == keys;
  }

  lemma NameLeads(w: World, path: string, name: string, keys: seq<string>, sc: Scope, sh: Shared)
    requires Parts(path, name, keys)
    requires name != "ad" && name != "ads" && name != "item" && name != "var" && name != "query" && name != "profile" && name != "flag"
    ensures Resolve(w, path, sc, sh) == DigDict(Get(sh.vars, name, Null), keys)
  {
    assert ([name] + keys)[1..] == keys;
  }

  /** `ad.key` reads the ad at hand, at any depth, and nothing without one. */
  lemma AdPath(w: World, keys: seq<string>, sc: Scope, sh: Shared)
    requires keys != [] && forall i :: 0 <= i < |keys| ==> DotFree(keys[i])
    ensures sc.ad.Dict? && Dicts(sc.ad, keys) ==> Resolve(w, Dotted("ad", keys), sc, sh) == Below(sc.ad, keys)
    ensures sc.ad == Null ==> Resolve(w, Dotted("ad", keys), sc, sh) == Null
  {
    DottedParts("ad", keys);
    AdLeads(w, Dotted("ad", keys), keys, sc, sh);
    NothingBelowNull(w, keys[1..]);
    if sc.ad.Dict? && Dicts(sc.ad, keys) {
      DigIsBelow(w, sc.ad, keys);
    }
  }

  /** The number of ads. */
  lemma CountPath(w: World, sc: Scope, sh: Shared)
    ensures Resolve(w, Dotted("ads", ["count"]), sc, sh) == Num(|sc.ads| as real)
  {
    DottedParts("ads", ["count"]);
    AdsLead(w, Dotted("ads", ["count"]), ["count"], sc, sh);
  }

  /** Which of `n` elements an index names: a negative one counts from the end. */
  function At(i: int, n: nat): Option<nat> {
    if 0 <= i < n then Some(i) else if i < 0 <= n + i then Some(n + i) else None
  }

  /** `ads.i.key` reads the ad with that index, and nothing where there is none. */
  lemma AdsPath(w: World, i: int, keys: seq<string>, sc: Scope, sh: Shared)
    requires keys != [] && keys[0] != "count" && w.parseInt(keys[0]) == Some(i)
    requires forall k :: 0 <= k < |keys| ==> DotFree(keys[k])
    requires At(i, |sc.ads|).Some? ==> Dicts(sc.ads[At(i, |sc.ads|).value], keys[1..])
    ensures Resolve(w, Dotted("ads", keys), sc, sh)
            == if At(i, |sc.ads|).Some? then Below(sc.ads[At(i, |sc.ads|).value], keys[1..]) else Null
  {
    BehindAds(w, keys, sc, sh);
    ElementBelow(w, sc.ads, i, keys);
  }

  lemma BehindAds(w: World, keys: seq<string>, sc: Scope, sh: Shared)
    requires keys != [] && keys[0] != "count" && forall i :: 0 <= i < |keys| ==> DotFree(keys[i])
    ensures Resolve(w, Dotted("ads", keys), sc, sh) == Dig(w, List(sc.ads), keys)
  {
    var path := Dotted("ads", keys);
    DottedParts("ads", keys);
    AdsLead(w, path, keys, sc, sh);
  }

  lemma ElementBelow(w: World, vs: seq<Value>, i: int, keys: seq<string>)
    requires keys != [] && w.parseInt(keys[0]) == Some(i)
    requires At(i, |vs|).Some? ==> Dicts(vs[At(i, |vs|).value], keys[1..])
    ensures Dig(w, List(vs), keys) == if At(i, |vs|).Some? then Below(vs[At(i, |vs|).value], keys[1..]) else Null
  {
    if At(i, |vs|).Some? {
      DigIsBelow(w, vs[At(i, |vs|).value], keys[1..]);
    }
  }

  /** The heads without a path behind them. */
  lemma PlainHeads(w: World, sc: Scope, sh: Shared)
    ensures Resolve(w, "item", sc, sh) == sc.item && Resolve(w, "query", sc, sh) == Text(sc.query)
    ensures Resolve(w, "profile", sc, sh) == Text(w.profile) && Resolve(w, "", sc, sh) == Null
  {
    DottedParts("item", []);
    ItemLeads(w, "item", [], sc, sh);
    DottedParts("query", []);
    QueryLeads(w, "query", [], sc, sh);
    DottedParts("profile", []);
    ProfileLeads(w, "profile", [], sc, sh);
  }

  /** `ad` and `ads` themselves. */
  lemma WholeAds(w: World, sc: Scope, sh: Shared)
    ensures Truthy(sc.ad) ==> Resolve(w, "ad", sc, sh) == sc.ad
    ensures Resolve(w, "ads", sc, sh) == List(sc.ads)
  {
    DottedParts("ad", []);
    AdLeads(w, "ad", [], sc, sh);
    DottedParts("ads", []);
    AdsLead(w, "ads", [], sc, sh);
  }

  /** `flag.name` reads a flag of the page. */
  lemma FlagPath(w: World, name: string, sc: Scope, sh: Shared)
    requires DotFree(name)
    ensures Resolve(w, Dotted("flag", [name]), sc, sh) == if name in sh.flags then Bool(sh.flags[name]) else Null
  {
    DottedParts("flag", [name]);
    FlagLeads(w, Dotted("flag", [name]), name, sc, sh);
  }

  /** No head of its own. */
  predicate VariableName(name: string) {
    name != "" && DotFree(name)
    && name != "ad" && name != "ads" && name != "item" && name != "var" && name != "query" && name != "profile" && name != "flag"
  }

  /** Both spellings of a path below a variable lead into its value. */
  lemma VariablePath(w: World, keys: seq<string>, sc: Scope, sh: Shared)
    requires keys != [] && VariableName(keys[0]) && forall i :: 0 <= i < |keys| ==> DotFree(keys[i])
    requires Dicts(Get(sh.vars, keys[0], Null), keys[1..])
    ensures Resolve(w, Dotted(keys[0], keys[1..]), sc, sh) == Below(Get(sh.vars, keys[0], Null), keys[1..])
    ensures Resolve(w, Dotted("var", keys), sc, sh) == Below(Get(sh.vars, keys[0], Null), keys[1..])
  {
    BareName(w, keys[0], keys[1..], sc, sh);
    BehindVar(w, keys, sc, sh);
    DigIsBelow(w, Get(sh.vars, keys[0], Null), keys[1..]);
  }

  lemma BareName(w: World, name: string, keys: seq<string>, sc: Scope, sh: Shared)
    requires VariableName(name) && forall i :: 0 <= i < |keys| ==> DotFree(keys[i])
    ensures Resolve(w, Dotted(name, keys), sc, sh) == DigDict(Get(sh.vars, name, Null), keys)
  {
    DottedParts(name, keys);
    NameLeads(w, Dotted(name, keys), name, keys, sc, sh);
  }

  lemma BehindVar(w: World, keys: seq<string>, sc: Scope, sh: Shared)
    requires keys != [] && forall i :: 0 <= i < |keys| ==> DotFree(keys[i])
    ensures Resolve(w, Dotted("var", keys), sc, sh) == DigDict(Get(sh.vars, keys[0], Null), keys[1..])
  {
    VarIsDotFree();
    BehindHead(w, "var", keys, sc, sh);
  }

  lemma VarIsDotFree()
    ensures DotFree("var") && "var" != ""
  {
  }

  lemma BehindHead(w: World, head: string, keys: seq<string>, sc: Scope, sh: Shared)
    requires head == "var" && DotFree(head) && keys != [] && forall i :: 0 <= i < |keys| ==> DotFree(keys[i])
    ensures Resolve(w, Dotted(head, keys), sc, sh) == DigDict(Get(sh.vars, keys[0], Null), keys[1..])
  {
    var path := Dotted(head, keys);
    DottedParts(head, keys);
    VarLeads(w, path, keys, sc, sh);
  }

  // ── numbers ───────────────────────────────────────────────────

  /** `int()` of a number drops its fraction, on either side of zero. */
  lemma IntTruncates(w: World, x: real)
    ensures Int(w, Num(x)).Some?
    ensures var n := Int(w, Num(x)).value as real;
            (x >= 0.0 ==> 0.0 <= n <= x < n + 1.0) && (x <= 0.0 ==> n - 1.0 < x <= n <= 0.0)
  {
  }

  /** `float()` of a number is the number, of a truth value one or zero, and of a text what the
      text denotes; it raises for everything else, and so does `int()`. */
  lemma NumbersOfValues(w: World, v: Value)
    ensures Float(w, v).Some? <==> v.Num? || v.Bool? || (v.Text? && w.parseFloat(v.s).Some?)
    ensures Int(w, v).Some? <==> v.Num? || v.Bool? || (v.Text? && w.parseInt(v.s).Some?)
    ensures v.Num? ==> Float(w, v) == Some(v.n)
    ensures v == Bool(true) ==> Float(w, v) == Some(1.0) && Int(w, v) == Some(1)
    ensures v == Bool(false) ==> Float(w, v) == Some(0.0) && Int(w, v) == Some(0)
    ensures v.Text? ==> Float(w, v) == w.parseFloat(v.s) && Int(w, v) == w.parseInt(v.s)
  {
  }

  /** A limit takes that many ads from the front; a negative one leaves that many out at the
      end; zero, an empty limit and one that is no number take all. */
  lemma LimitTakes(w: World, ads: seq<Value>, limit: Value)
    ensures var kept := Limited(w, ads, limit);
            && kept <= ads
            && (!Truthy(limit) || Int(w, limit).None? ==> kept == ads)
            && (Truthy(limit) && Int(w, limit).Some? ==>
                  var n := Int(w, limit).value;
                  |kept| == if n >= 0 then (if n < |ads| then n else |ads|)
                            else if |ads| + n > 0 then |ads| + n else 0)
  {
  }

  // ── values ────────────────────────────────────────────────────

  /** A stored text keeps its first 102400 characters and says so when there were more; other
      values are stored as they are, except for the texts in a list. */
  lemma CapKeeps(v: Value)
    ensures v.Text? && |v.s| <= 102400 ==> Cap(v) == v
    ensures v.Text? && |v.s| > 102400 ==> Cap(v) == Text(v.s[..102400] + " \U{2026}(truncated)")
    ensures v.List? ==> Cap(v).List? && |Cap(v).vs| == |v.vs|
    ensures v.List? ==> forall i :: 0 <= i < |v.vs| ==> Cap(v).vs[i] == if v.vs[i].Text? then Cap(v.vs[i]) else v.vs[i]
    ensures !v.Text? && !v.List? ==> Cap(v) == v
  {
  }

  /** A placeholder shows nothing for a path that leads nowhere, and otherwise what `str()`
      makes of the value. */
  lemma PlaceholderShows(w: World, path: string, sc: Scope, sh: Shared)
    ensures var v, shown := Resolve(w, path, sc, sh), EnvOf(w, sc, sh)(path);
            && (v == Null ==> shown == Some("")) && (v == Bool(true) ==> shown == Some("True"))
            && (v == Bool(false) ==> shown == Some("False")) && (v.Text? ==> shown == Some(v.s))
            && (v.Num? || v.List? || v.Dict? ==> shown == Some(w.show(v)))
  {
  }

  /** What is nested under the three keys stays raw; everything else in a step is
      interpolated. */
  lemma OnlyBodiesStayRaw(m: map<string, Value>, key: string, env: Env)
    requires key in m
    ensures InterpolateDict(m, env)[key]
            == if key == "steps" || key == "then_steps" || key == "else_steps" then m[key] else Interpolate(m[key], env)
  {
  }

  // ── items ─────────────────────────────────────────────────────

  /** A line that a loop goes over: not empty, and nothing to strip or to split. */
  predicate IsLine(s: string) {
    s != "" && !IsSpace(s[0]) && !IsSpace(s[|s| - 1]) && forall i :: 0 <= i < |s| ==> !IsLineEnd(s[i]) && s[i] != '{'
  }

  /** Lines, each before one line feed. */
  function Joined(lines: seq<string>): string {
    if lines == [] then "" else lines[0] + "\n" + Joined(lines[1..])
  }

  function TextsOf(lines: seq<string>): seq<Value> {
    if lines == [] then [] else [Text(lines[0])] + TextsOf(lines[1..])
  }

  lemma LineIsStripped(s: string)
    requires IsLine(s)
    ensures Strip(s) == s
  {
  }

  lemma {:induction false} LinesOfJoined(lines: seq<string>)
    requires forall i :: 0 <= i < |lines| ==> IsLine(lines[i])
    ensures Lines(Split(Joined(lines), c => IsLineEnd(c))) == TextsOf(lines)
    decreases lines
  {
    if lines == [] {
      assert Split("", c => IsLineEnd(c)) == [""] && Strip("") == "";
      assert Lines([""]) == [] + Lines([""][1..]);
    } else {
      var s, rest := Joined(lines), Joined(lines[1..]);
      assert s == lines[0] + ['\n'] + rest;
      UntilStop(lines[0], '\n', rest, c => IsLineEnd(c));
      assert s[..|lines[0]|] == lines[0] && s[|lines[0]| + 1..] == rest;
      LineIsStripped(lines[0]);
      LinesOfJoined(lines[1..]);
      var pieces := Split(rest, c => IsLineEnd(c));
      assert Split(s, c => IsLineEnd(c)) == [lines[0]] + pieces && ([lines[0]] + pieces)[1..] == pieces;
    }
  }

  lemma {:induction false} JoinedHasNoBrace(lines: seq<string>)
    requires forall i :: 0 <= i < |lines| ==> IsLine(lines[i])
    ensures '{' !in Joined(lines)
    decreases lines
  {
    if lines != [] {
      JoinedHasNoBrace(lines[1..]);
    }
  }

  lemma {:induction false} StripOfNone(s: string)
    requires '{' !in s
    ensures '{' !in Strip(s)
  {
    LeftOfNone(s);
    RightOfNone(StripLeft(s));
  }

  lemma {:induction false} LeftOfNone(s: string)
    requires '{' !in s
    ensures '{' !in StripLeft(s)
    decreases |s|
  {
    if s != "" {
      LeftOfNone(s[1..]);
    }
  }

  lemma {:induction false} RightOfNone(s: string)
    requires '{' !in s
    ensures '{' !in StripRight(s)
    decreases |s|
  {
    if s != "" {
      RightOfNone(s[..|s| - 1]);
    }
  }

  /** A loop goes over a list as it is, and over the list that a single placeholder names. */
  lemma ItemsOfList(w: World, vs: seq<Value>, path: string, sc: Scope, sh: Shared)
    ensures Items(w, List(vs), sc, sh) == vs
    ensures IsName(path, true) && Resolve(w, path, sc, sh) == List(vs) ==> Items(w, Text("{" + path + "}"), sc, sh) == vs
  {
    if IsName(path, true) {
      PlaceholderIsFound(path);
      if Resolve(w, path, sc, sh).List? {
        NamedItems(w, "{" + path + "}", path, sc, sh);
      }
    }
  }

  lemma PlaceholderIsFound(path: string)
    requires IsName(path, true)
    ensures HoleName(Strip("{" + path + "}"), true) == Some(path)
  {
    HoleIsFound(path, "", true);
    var t := "{" + path + "}";
    assert t + "" == t && Strip(t) == t;
  }

  lemma NamedItems(w: World, text: string, path: string, sc: Scope, sh: Shared)
    requires HoleName(Strip(text), true) == Some(path) && Resolve(w, path, sc, sh).List?
    ensures Items(w, Text(text), sc, sh) == Resolve(w, path, sc, sh).vs
  {
  }

  lemma NoHoleWithoutBrace(t: string)
    requires '{' !in t
    ensures HoleName(t, true).None?
  {
  }

  /** It goes over a text line by line. */
  lemma ItemsOfText(w: World, lines: seq<string>, sc: Scope, sh: Shared)
    requires forall i :: 0 <= i < |lines| ==> IsLine(lines[i])
    ensures Items(w, Text(Joined(lines)), sc, sh) == TextsOf(lines)
  {
    JoinedHasNoBrace(lines);
    StripOfNone(Joined(lines));
    NoHoleWithoutBrace(Strip(Joined(lines)));
    LinesOfJoined(lines);
  }
}
