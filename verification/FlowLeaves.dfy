/** What the steps without a body do, from their literal type and fields to their effects. */
module FlowLeaves {
  import opened Json
  import opened Strings
  import opened Templates
  import opened Flow
  import opened FlowSemantics
  import opened FlowSteps

  /** A field that is no template and has this text, or is not there. */
  predicate Literal(m: map<string, Value>, key: string, text: string) {
    if key in m then m[key] == Text(text) && NoBrace(text) else text == ""
  }

  lemma LiteralSurvives(m: map<string, Value>, key: string, text: string, env: Env)
    requires Literal(m, key, text) && key !in NESTED
    ensures Get(InterpolateDict(m, env), key, Null) == if key in m then Text(text) else Null
  {
    if key in m {
      BracelessText(text, env, true);
      assert Interpolate(m[key], env) == Text(text);
    }
  }

  /** A flag that is a literal, or is not there. */
  predicate Flag(m: map<string, Value>, key: string, on: bool) {
    if key in m then m[key] == Bool(on) else !on
  }

  lemma FlagStays(m: map<string, Value>, key: string, on: bool, env: Env)
    requires Flag(m, key, on) && key !in NESTED
    ensures Truthy(Get(InterpolateDict(m, env), key, Null)) == on
  {
    if key in m {
      assert Interpolate(m[key], env) == Bool(on);
    }
  }

  lemma FieldsAreNotNested()
    ensures "query" !in NESTED && "name" !in NESTED && "selector" !in NESTED && "save_as" !in NESTED
    ensures "auto_foreach" !in NESTED && "all" !in NESTED && "abort_on_error" !in NESTED && "value" !in NESTED
  {
  }

  // ── variables ─────────────────────────────────────────────────

  lemma SaveIsName()
    ensures IsName("save_var", false)
  {
  }

  lemma SaveKindOf()
    ensures KindOf("save_var") == SaveKind
  {
  }

  lemma SaveIsDispatched(w: World, m: map<string, Value>, step: map<string, Value>, sc: Scope, sh: Shared)
    requires TypeOf(step) == Some("save_var")
    ensures DispatchOn(w, Dict(m), step, sc, sh) == SaveVar(step, sc, sh)
  {
    SaveKindOf();
  }

  lemma ValueSurvives(m: map<string, Value>, env: Env)
    requires "value" in m
    ensures Get(InterpolateDict(m, env), "value", Null) == Interpolate(m["value"], env)
  {
  }

  predicate Reserved(name: string) {
    name == "vault" || name == "ad" || name == "ads" || name == "item" || name == "query" || name == "profile"
    || name == "flag" || name == "var" || name == "_runtime_raw"
  }

  lemma ReservedIff(name: string)
    ensures name in RESERVED <==> Reserved(name)
  {
  }

  /** `save_var` writes the interpolated value, capped, under a plain unreserved name, and
      nothing under a reserved one or one that is no identifier. */
  lemma SaveStep(w: World, m: map<string, Value>, name: string, sc: Scope, sh: Shared)
    requires Plain(w, m, "save_var") && Literal(m, "name", name) && "value" in m
    ensures IsName(name, false) && !Reserved(name) ==>
              RunStep(w, Dict(m), sc, sh)
              == Result(Normal, sc, sh.(vars := sh.vars[name := Cap(Interpolate(m["value"], EnvOf(w, sc, sh)))]))
    ensures Reserved(name) || (exists i :: 0 <= i < |name| - 1 && !NameChar(name[i], false)) ==>
              RunStep(w, Dict(m), sc, sh) == Result(Normal, sc, sh)
  {
    FieldsAreNotNested();
    SaveIsName();
    Dispatches(w, m, "save_var", sc, sh);
    SaveIsDispatched(w, m, Seen(w, m, sc, sh), sc, sh);
    LiteralSurvives(m, "name", name, EnvOf(w, sc, sh));
    ValueSurvives(m, EnvOf(w, sc, sh));
    ReservedIff(name);
    NamesThatAreWritten(name);
  }

  lemma NamesThatAreWritten(name: string)
    ensures IsName(name, false) ==> VarName(name)
    ensures VarName(name) ==> forall i :: 0 <= i < |name| - 1 ==> NameChar(name[i], false)
  {
    if VarName(name) {
      forall i | 0 <= i < |name| - 1 ensures NameChar(name[i], false) {
        assert name[i] == name[..|name| - 1][i];
      }
    }
  }

  lemma ExtractIsName()
    ensures IsName("extract_text", false)
  {
  }

  lemma ExtractKindOf()
    ensures KindOf("extract_text") == ExtractKind
  {
  }

  lemma ExtractIsDispatched(w: World, m: map<string, Value>, step: map<string, Value>, sc: Scope, sh: Shared)
    requires TypeOf(step) == Some("extract_text")
    ensures DispatchOn(w, Dict(m), step, sc, sh) == ExtractText(w, step, sc, sh)
  {
    ExtractKindOf();
  }

  /** `extract_text` reads the page by its selector, one element or all, and keeps the capped
      text under `save_as` or else under `extracted`. */
  lemma ExtractStep(w: World, m: map<string, Value>, selector: string, name: string, all: bool, sc: Scope, sh: Shared)
    requires Plain(w, m, "extract_text") && Literal(m, "selector", selector) && Literal(m, "save_as", name) && Flag(m, "all", all)
    requires name != "" ==> IsName(name, false) && !Reserved(name)
    ensures RunStep(w, Dict(m), sc, sh)
            == if selector == "" || !w.hasDriver then Result(Normal, sc, sh)
               else
                 var text := w.extract(sh.trace, Text(selector), all);
                 Result(Normal, sc, sh.(trace := sh.trace + [Extracted(Text(selector), all)],
                                        vars := sh.vars[if name == "" then "extracted" else name := Cap(text)]))
  {
    FieldsAreNotNested();
    ExtractIsName();
    Dispatches(w, m, "extract_text", sc, sh);
    ExtractIsDispatched(w, m, Seen(w, m, sc, sh), sc, sh);
    LiteralSurvives(m, "selector", selector, EnvOf(w, sc, sh));
    LiteralSurvives(m, "save_as", name, EnvOf(w, sc, sh));
    FlagStays(m, "all", all, EnvOf(w, sc, sh));
    ExtractRuns(w, Seen(w, m, sc, sh), selector, name, all, sc, sh);
  }

  predicate TextOrNothing(v: Value, text: string) {
    v == Text(text) || (v == Null && text == "")
  }

  lemma ExtractRuns(w: World, step: map<string, Value>, selector: string, name: string, all: bool, sc: Scope, sh: Shared)
    requires TextOrNothing(Get(step, "selector", Null), selector) && TextOrNothing(Get(step, "save_as", Null), name)
    requires Truthy(Get(step, "all", Null)) == all
    requires name != "" ==> IsName(name, false) && !Reserved(name)
    ensures ExtractText(w, step, sc, sh)
            == if selector == "" || !w.hasDriver then Result(Normal, sc, sh)
               else
                 var text := w.extract(sh.trace, Text(selector), all);
                 Result(Normal, sc, sh.(trace := sh.trace + [Extracted(Text(selector), all)],
                                        vars := sh.vars[if name == "" then "extracted" else name := Cap(text)]))
  {
    var target := if name == "" then "extracted" else name;
    ExtractedIsGood();
    ReservedIff(target);
    NamesThatAreWritten(target);
  }

  lemma ExtractedIsGood()
    ensures IsName("extracted", false) && !Reserved("extracted")
  {
  }

  // ── pages of ads ──────────────────────────────────────────────

  /** What every page of ads leaves: the ads in the scope, and the two flags. */
  function WithPage(w: World, ads: seq<Value>, sc: Scope, sh: Shared): Result {
    Result(Normal, sc.(ads := ads),
           sh.(flags := sh.flags + map["ads_found" := ads != [], "captcha_present" := w.hasDriver && w.captcha(sh.trace)]))
  }

  lemma PageIsTaken(w: World, ads: seq<Value>, sc: Scope, sh: Shared)
    ensures TakeAds(w, ads, sc, sh) == WithPage(w, ads, sc, sh)
  {
  }

  lemma CatchIsName()
    ensures IsName("catch_ads", false)
  {
  }

  lemma CatchKindOf()
    ensures KindOf("catch_ads") == CatchKind
  {
  }

  lemma CatchIsDispatched(w: World, m: map<string, Value>, step: map<string, Value>, sc: Scope, sh: Shared)
    requires TypeOf(step) == Some("catch_ads")
    ensures DispatchOn(w, Dict(m), step, sc, sh) == CatchAds(w, step, sc, sh)
  {
    CatchKindOf();
  }

  /** `catch_ads` parses the current page for its own query or else the last one, and takes
      the page it gets; an exception of the parser ends the run. */
  lemma CatchStep(w: World, m: map<string, Value>, query: string, sc: Scope, sh: Shared)
    requires Plain(w, m, "catch_ads") && Literal(m, "query", query)
    ensures var q := if query == "" then sc.query else query;
            var sh1 := Log(sh, Caught(q));
            RunStep(w, Dict(m), sc, sh)
            == match w.parseAds(sh.trace, q)
               case Raised => Result(Abort, sc, sh1)
               case Found(ads) => WithPage(w, ads, sc, sh1)
  {
    FieldsAreNotNested();
    CatchIsName();
    Dispatches(w, m, "catch_ads", sc, sh);
    CatchIsDispatched(w, m, Seen(w, m, sc, sh), sc, sh);
    LiteralSurvives(m, "query", query, EnvOf(w, sc, sh));
    CatchRuns(w, Seen(w, m, sc, sh), query, sc, sh);
  }

  lemma CatchRuns(w: World, step: map<string, Value>, query: string, sc: Scope, sh: Shared)
    requires TextOrNothing(Get(step, "query", Null), query)
    ensures var q := if query == "" then sc.query else query;
            var sh1 := Log(sh, Caught(q));
            CatchAds(w, step, sc, sh)
            == match w.parseAds(sh.trace, q)
               case Raised => Result(Abort, sc, sh1)
               case Found(ads) => WithPage(w, ads, sc, sh1)
  {
    var q := if query == "" then sc.query else query;
    if w.parseAds(sh.trace, q).Found? {
      PageIsTaken(w, w.parseAds(sh.trace, q).ads, sc, Log(sh, Caught(q)));
    }
  }

  lemma SearchIsName()
    ensures IsName("search_query", false)
  {
  }

  lemma SearchKindOf()
    ensures KindOf("search_query") == SearchKind
  {
  }

  lemma SearchIsDispatched(w: World, m: map<string, Value>, step: map<string, Value>, sc: Scope, sh: Shared)
    requires TypeOf(step) == Some("search_query")
    ensures DispatchOn(w, Dict(m), step, sc, sh) == SearchQuery(w, step, sc, sh)
  {
    SearchKindOf();
  }

  /** What a search step searches for: its own query without the blanks around it; where
      that is blank the item of the loop, and where there is none the last query. */
  function Wanted(w: World, query: string, sc: Scope): string {
    if Strip(query) != "" then Strip(query) else if Truthy(sc.item) then Strip(Str(w, sc.item)) else Strip(sc.query)
  }

  /** The per-ad runners of a page, up to the first that raises. */
  function Visits(w: World, ads: seq<Value>, q: string, trace: seq<Event>): (seq<Event>, bool)
    decreases ads
  {
    if ads == [] then (trace, false)
    else if w.perAd(trace, ads[0], q) then (trace + [PerAd(ads[0], q)], true)
    else Visits(w, ads[1..], q, trace + [PerAd(ads[0], q)])
  }

  lemma {:induction false} EachAdIsVisited(w: World, ads: seq<Value>, q: string, sc: Scope, sh: Shared)
    ensures var (trace, raised) := Visits(w, ads, q, sh.trace);
            AutoForeach(w, ads, q, sc, sh) == Result(if raised then Abort else Normal, sc, sh.(trace := trace))
    decreases ads
  {
    if ads != [] && !w.perAd(sh.trace, ads[0], q) {
      EachAdIsVisited(w, ads[1..], q, sc, Log(sh, PerAd(ads[0], q)));
    }
  }

  lemma {:induction false} QuietVisits(w: World, ads: seq<Value>, q: string, trace: seq<Event>)
    requires forall t, ad :: !w.perAd(t, ad, q)
    ensures Visits(w, ads, q, trace) == (trace + seq(|ads|, i requires 0 <= i < |ads| => PerAd(ads[i], q)), false)
    decreases ads
  {
    var all := seq(|ads|, i requires 0 <= i < |ads| => PerAd(ads[i], q));
    if ads == [] {
      assert trace + all == trace;
    } else {
      QuietVisits(w, ads[1..], q, trace + [PerAd(ads[0], q)]);
      var rest := seq(|ads| - 1, i requires 0 <= i < |ads| - 1 => PerAd(ads[1..][i], q));
      assert all == [PerAd(ads[0], q)] + rest;
      assert trace + all == trace + [PerAd(ads[0], q)] + rest;
    }
  }

  /** `search_query` remembers what it searches for and takes the page it gets; with
      `auto_foreach` the per-ad runner then goes over the page. Without a query or without a
      search callback it does nothing. */
  lemma SearchStep(w: World, m: map<string, Value>, query: string, each: bool, sc: Scope, sh: Shared)
    requires Plain(w, m, "search_query") && Literal(m, "query", query) && Flag(m, "auto_foreach", each)
    ensures var q := Wanted(w, query, sc);
            var sc1, sh1 := sc.(query := q), Log(sh, Searched(q));
            RunStep(w, Dict(m), sc, sh)
            == if q == "" || !w.hasSearch then Result(Normal, sc, sh)
               else match w.search(sh.trace, q)
                 case Raised => Result(Abort, sc1, sh1)
                 case Found(ads) =>
                   var r := WithPage(w, ads, sc1, sh1);
                   if !each || !w.hasPerAd then r
                   else
                     var (trace, raised) := Visits(w, ads, q, sh1.trace);
                     Result(if raised then Abort else Normal, r.scope, r.shared.(trace := trace))
  {
    FieldsAreNotNested();
    SearchIsName();
    Dispatches(w, m, "search_query", sc, sh);
    SearchIsDispatched(w, m, Seen(w, m, sc, sh), sc, sh);
    LiteralSurvives(m, "query", query, EnvOf(w, sc, sh));
    FlagStays(m, "auto_foreach", each, EnvOf(w, sc, sh));
    SearchRuns(w, Seen(w, m, sc, sh), query, each, sc, sh);
  }

  lemma SearchRuns(w: World, step: map<string, Value>, query: string, each: bool, sc: Scope, sh: Shared)
    requires TextOrNothing(Get(step, "query", Null), query) && Truthy(Get(step, "auto_foreach", Null)) == each
    ensures var q := Wanted(w, query, sc);
            var sc1, sh1 := sc.(query := q), Log(sh, Searched(q));
            SearchQuery(w, step, sc, sh)
            == if q == "" || !w.hasSearch then Result(Normal, sc, sh)
               else match w.search(sh.trace, q)
                 case Raised => Result(Abort, sc1, sh1)
                 case Found(ads) =>
                   var r := WithPage(w, ads, sc1, sh1);
                   if !each || !w.hasPerAd then r
                   else
                     var (trace, raised) := Visits(w, ads, q, sh1.trace);
                     Result(if raised then Abort else Normal, r.scope, r.shared.(trace := trace))
  {
    var q := Wanted(w, query, sc);
    assert QueryText(w, step, sc) == q;
    if w.search(sh.trace, q).Found? {
      var ads := w.search(sh.trace, q).ads;
      PageIsTaken(w, ads, sc.(query := q), Log(sh, Searched(q)));
      var r := WithPage(w, ads, sc.(query := q), Log(sh, Searched(q)));
      EachAdIsVisited(w, ads, q, r.scope, r.shared);
    }
  }

  // ── handlers ──────────────────────────────────────────────────

  /** A type that the interpreter does not carry out itself. */
  predicate OtherType(name: string) {
    IsName(name, false)
    && name != "if" && name != "foreach_ad" && name != "foreach" && name != "loop" && name != "break" && name != "continue"
    && name != "catch_ads" && name != "search_query" && name != "save_var" && name != "extract_text"
  }

  lemma OtherIsDispatched(w: World, m: map<string, Value>, step: map<string, Value>, name: string, sc: Scope, sh: Shared)
    requires TypeOf(step) == Some(name) && OtherType(name)
    ensures DispatchOn(w, Dict(m), step, sc, sh) == HandlerLeaf(w, name, step, sc, sh)
  {
    OtherIsHandled(name);
  }

  lemma OtherIsHandled(name: string)
    requires OtherType(name)
    ensures KindOf(name) == HandlerKind
  {
  }

  /** A handler's call: the step as seen, the scope and the variables go in; what it writes
      stays, also when it raises. */
  function Called(w: World, name: string, step: map<string, Value>, sc: Scope, sh: Shared): Shared {
    var reply := w.handler(sh.trace, name, Dict(step), sc, sh.vars);
    sh.(vars := sh.vars + reply.writes, trace := sh.trace + [Act(name, Dict(step), sc, reply.raises)])
  }

  /** Every other type goes to a handler: an external one ends the run when it raises; an
      action for ads that the gate lets through, and a loop-level action, end it only if the
      step asks for that; a type nobody knows does nothing. */
  lemma HandlerStep(w: World, m: map<string, Value>, name: string, fatal: bool, sc: Scope, sh: Shared)
    requires Plain(w, m, name) && OtherType(name) && Flag(m, "abort_on_error", fatal)
    ensures var step := Seen(w, m, sc, sh);
            var raises := w.handler(sh.trace, name, Dict(step), sc, sh.vars).raises;
            RunStep(w, Dict(m), sc, sh)
            == if name in w.handlers.externals then Result(if raises then Abort else Normal, sc, Called(w, name, step, sc, sh))
               else if name in w.handlers.actions && ((name == "click_ad" && !Truthy(sc.ad)) || GateSkips(w.myDomains, step, sc.ad))
               then Result(Normal, sc, sh)
               else if name in w.handlers.actions + w.handlers.loopActions
               then Result(if raises && fatal then Abort else Normal, sc, Called(w, name, step, sc, sh))
               else Result(Normal, sc, sh)
  {
    FieldsAreNotNested();
    Dispatches(w, m, name, sc, sh);
    OtherIsDispatched(w, m, Seen(w, m, sc, sh), name, sc, sh);
    FlagStays(m, "abort_on_error", fatal, EnvOf(w, sc, sh));
    HandlerRuns(w, Seen(w, m, sc, sh), name, fatal, sc, sh);
  }

  lemma HandlerRuns(w: World, step: map<string, Value>, name: string, fatal: bool, sc: Scope, sh: Shared)
    requires Truthy(Get(step, "abort_on_error", Null)) == fatal
    ensures var raises := w.handler(sh.trace, name, Dict(step), sc, sh.vars).raises;
            HandlerLeaf(w, name, step, sc, sh)
            == if name in w.handlers.externals then Result(if raises then Abort else Normal, sc, Called(w, name, step, sc, sh))
               else if name in w.handlers.actions && ((name == "click_ad" && !Truthy(sc.ad)) || GateSkips(w.myDomains, step, sc.ad))
               then Result(Normal, sc, sh)
               else if name in w.handlers.actions + w.handlers.loopActions
               then Result(if raises && fatal then Abort else Normal, sc, Called(w, name, step, sc, sh))
               else Result(Normal, sc, sh)
  {
  }
}
