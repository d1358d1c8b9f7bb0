/** The unified flow language of runner.py: contexts, paths, templates over values,
    conditions, and a structured semantics in which a step list ends in one of four
    outcomes. The engine in FlowEngine.dfy encodes the same control flow in flags. */
module Flow {
  import opened Json
  import opened Strings
  import opened Templates

  // ── the state of a run ────────────────────────────────────────

  /** The fields of a RunContext that a child context may override. */
  datatype Scope = Scope(ad: Value, ads: seq<Value>, item: Value, query: string)

  /** What every context of a run has in common: the `vars` and `flags` objects, and the
      effects performed so far. */
  datatype Shared = Shared(vars: map<string, Value>, flags: map<string, bool>, trace: seq<Event>)

  datatype Event =
    | Coin(x: real)
    | Shuffled(order: seq<Value>)
    | Searched(q: string)
    | Caught(q: string)
    | Extracted(selector: Value, all: bool)
    | ScanPause
    | Judged(cond: Value, scope: Scope, verdict: Option<bool>)
    | PerAd(ad: Value, q: string)
    | Act(kind: string, step: Value, scope: Scope, raised: bool)

  /** What a handler did: it may raise, and it may write variables before it does. */
  datatype Reply = Reply(raises: bool, writes: map<string, Value>)

  datatype Found = Raised | Found(ads: seq<Value>)

  /** The handler tables behind the dispatch: the external and extension steps, whose
      exceptions escape the run; the per-ad actions of the legacy bridge; and the
      loop-level actions that no earlier branch takes. */
  datatype Handlers = Handlers(externals: set<string>, actions: set<string>, loopActions: set<string>)

  /** Everything outside the interpreter. Its answers are arbitrary functions of the
      effects so far, so a world fixes one tape of random draws, one behaviour of every
      handler and one browser; the results below hold for all worlds. */
  datatype World = World(
    handlers: Handlers,
    show: Value -> string,                    // str() of numbers, lists and dicts
    keys: map<string, Value> -> seq<string>,  // list() of a dict
    parseInt: string -> Option<int>,          // int() of a text, None for ValueError
    parseFloat: string -> Option<real>,       // float() of a text
    coin: seq<Event> -> real,
    shuffle: (seq<Event>, seq<Value>) -> seq<Value>,
    handler: (seq<Event>, string, Value, Scope, map<string, Value>) -> Reply,
    search: (seq<Event>, string) -> Found,    // loop_ctx["search_query"]
    parseAds: (seq<Event>, string) -> Found,
    extract: (seq<Event>, Value, bool) -> Value,
    perAd: (seq<Event>, Value, string) -> bool, // True: the per-ad runner raises
    captcha: seq<Event> -> bool,
    currentUrl: seq<Event> -> string,
    elementExists: (seq<Event>, Value) -> bool,
    matches: (string, string) -> bool,        // re.search, False for a bad pattern
    myDomains: seq<string>,
    queries: seq<Value>,                      // loop_ctx["all_queries"]
    profile: string,
    hasDriver: bool,
    hasSearch: bool,
    hasPerAd: bool)

  // ── numbers and texts ─────────────────────────────────────────

  function Str(w: World, v: Value): string {
    match v
    case Null => "None"
    case Bool(b) => if b then "True" else "False"
    case Text(s) => s
    case _ => w.show(v)
  }

  /** `float(v)`; None when it raises. */
  function Float(w: World, v: Value): Option<real> {
    match v
    case Num(n) => Some(n)
    case Bool(b) => Some(if b then 1.0 else 0.0)
    case Text(s) => w.parseFloat(s)
    case _ => None
  }

  /** `int(v)`: truncation towards zero; None when it raises. */
  function Int(w: World, v: Value): Option<int> {
    match v
    case Num(n) => Some(if n >= 0.0 then n.Floor else -((-n).Floor))
    case Bool(b) => Some(if b then 1 else 0)
    case Text(s) => w.parseInt(s)
    case _ => None
  }

  /** `vs[:n]`, where a negative `n` counts from the end. */
  function Take(vs: seq<Value>, n: int): seq<Value> {
    var m := if n < 0 then |vs| + n else n;
    if m <= 0 then [] else if m >= |vs| then vs else vs[..m]
  }

  /** `v or default` followed by a use as a text. */
  function TextOr(w: World, v: Value, default: string): string {
    if Truthy(v) then Str(w, v) else default
  }

  // ── paths and interpolation ───────────────────────────────────

  /** Digs through dicts and lists, as `resolve_path` does below `ad` and `ads`. */
  function Dig(w: World, v: Value, keys: seq<string>): Value
    decreases keys
  {
    if keys == [] then v
    else match v
      case Dict(m) => Dig(w, Get(m, keys[0], Null), keys[1..])
      case List(vs) =>
        (match w.parseInt(keys[0])
         case None => Null
         case Some(i) =>
           if 0 <= i < |vs| then Dig(w, vs[i], keys[1..])
           else if i < 0 && |vs| + i >= 0 then Dig(w, vs[|vs| + i], keys[1..])
           else Null)
      case _ => Null
  }

  /** Digs through dicts only, as `resolve_path` does below `vars`. */
  function DigDict(v: Value, keys: seq<string>): Value
    decreases keys
  {
    if keys == [] then v
    else match v
      case Dict(m) => DigDict(Get(m, keys[0], Null), keys[1..])
      case _ => Null
  }

  function Resolve(w: World, path: string, sc: Scope, sh: Shared): Value {
    if path == "" then Null
    else
      var parts := Split(path, c => c == '.');
      var head, rest := parts[0], parts[1..];
      if head == "ad" then Dig(w, if Truthy(sc.ad) then sc.ad else Dict(map[]), rest)
      else if head == "ads" then
        if rest != [] && rest[0] == "count" then Num(|sc.ads| as real) else Dig(w, List(sc.ads), rest)
      else if head == "item" then sc.item
      else if head == "var" then
        if rest == [] then Null else DigDict(Get(sh.vars, rest[0], Null), rest[1..])
      else if head == "query" then Text(sc.query)
      else if head == "profile" then Text(w.profile)
      else if head == "flag" then
        if rest != [] && rest[0] in sh.flags then Bool(sh.flags[rest[0]]) else Null
      else DigDict(Get(sh.vars, head, Null), rest)
  }

  /** The placeholder environment of a context: a missing path becomes the empty text. */
  function EnvOf(w: World, sc: Scope, sh: Shared): Env {
    path => var v := Resolve(w, path, sc, sh); Some(if v.Null? then "" else Str(w, v))
  }

  const NESTED: set<string> := {"steps", "then_steps", "else_steps"}

  /** `_interpolate`: nested step lists stay raw. */
  function Interpolate(v: Value, env: Env): (r: Value)
    ensures v.Dict? ==> r.Dict? && r.m.Keys == v.m.Keys
  {
    match v
    case Text(s) => Text(Subst(s, env, true))
    case Dict(m) => Dict(map k | k in m :: if k in NESTED then m[k] else Interpolate(m[k], env))
    case List(vs) => List(seq(|vs|, i requires 0 <= i < |vs| => Interpolate(vs[i], env)))
    case _ => v
  }

  function InterpolateDict(m: map<string, Value>, env: Env): map<string, Value> {
    Interpolate(Dict(m), env).m
  }

  // ── conditions ────────────────────────────────────────────────

  /** `dom == d or dom.endswith("." + d)` for some own domain. */
  predicate Under(dom: string, domains: seq<string>) {
    exists d :: d in domains && (dom == d || EndsWith(dom, "." + d))
  }

  function LowerAll(ds: seq<string>): seq<string> {
    seq(|ds|, i requires 0 <= i < |ds| => Lower(ds[i]))
  }

  function LowerStripAll(ds: seq<string>): seq<string> {
    seq(|ds|, i requires 0 <= i < |ds| => Strip(Lower(ds[i])))
  }

  function Field(d: Value, key: string): Value {
    if d.Dict? then Get(d.m, key, Null) else Null
  }

  /** `ad.get("domain") or ""` */
  function AdDomain(ad: Value): string {
    var d := Field(ad, "domain");
    if d.Text? then d.s else ""
  }

  /** `_eval_condition` on an already interpolated step; None when evaluation raises. */
  function EvalCondition(w: World, cond: Value, sc: Scope, sh: Shared): Option<bool> {
    EvalWith(w, cond, EnvOf(w, sc, sh), sc, sh)
  }

  /** `again` is what the condition's own value and selector are interpolated with. */
  function EvalWith(w: World, cond: Value, again: Env, sc: Scope, sh: Shared): Option<bool>
    decreases cond, 1
  {
    if !Truthy(cond) then Some(true)
    else if !cond.Dict? then None
    else
      var k := Get(cond.m, "kind", Null);
      var kind := if !Truthy(k) then "always" else if k.Text? then k.s else "?";
      var cs := Get(cond.m, "conditions", Null);
      var verdict :=
        if kind == "and" || kind == "or" then
          if !Truthy(cs) then Some(kind == "and")
          else if !cs.List? then None
          else EvalUntil(w, cs.vs, kind == "or", again, sc, sh)
        else
          var value := Interpolate(Get(cond.m, "value", Null), again);
          var selector := Interpolate(Get(cond.m, "selector", Null), again);
          EvalKind(w, kind, cond.m, value, selector, sc, sh);
      match verdict
      case None => None
      case Some(b) => Some(b != Truthy(Get(cond.m, "negate", Null)))
  }

  /** `any` (stop at true) and `all` (stop at false) over the sub-conditions. */
  function EvalUntil(w: World, cs: seq<Value>, stop: bool, again: Env, sc: Scope, sh: Shared): Option<bool>
    decreases cs, 2
  {
    if cs == [] then Some(!stop)
    else match EvalWith(w, cs[0], again, sc, sh)
      case None => None
      case Some(b) => if b == stop then Some(stop) else EvalUntil(w, cs[1..], stop, again, sc, sh)
  }

  /** A path argument of a condition: `cond.get("var") or ""`, None when it is not a text. */
  function PathArg(w: World, cond: map<string, Value>, sc: Scope, sh: Shared): Option<Value> {
    var p := Get(cond, "var", Null);
    if !Truthy(p) then Some(Null)
    else if p.Text? then Some(Resolve(w, p.s, sc, sh))
    else None
  }

  /** `_eval_condition_raw` for the kinds that are not composite. */
  function EvalKind(w: World, kind: string, cond: map<string, Value>, value: Value, selector: Value,
                    sc: Scope, sh: Shared): Option<bool>
  {
    var dom := Lower(AdDomain(sc.ad));
    var external := AdDomain(sc.ad) != "" && !Under(dom, LowerAll(w.myDomains));
    match kind
    case "always" => Some(true)
    case "never" => Some(false)
    case "ad_is_competitor" => Some(external && !Truthy(Field(sc.ad, "is_target")))
    case "ad_is_external" => Some(external)
    case "ad_is_target" => Some(Truthy(Field(sc.ad, "is_target")))
    case "ad_is_mine" => Some(Under(dom, LowerAll(w.myDomains)))
    case "ads_found" => Some(sc.ads != [])
    case "no_ads" => Some(sc.ads == [])
    case "ads_count_gte" =>
      (match Int(w, Get(cond, "value", Num(1.0)))
       case None => None
       case Some(n) => Some(|sc.ads| >= n))
    case "captcha_present" => Some("captcha_present" in sh.flags && sh.flags["captcha_present"])
    case "url_contains" =>
      var url := if w.hasDriver then w.currentUrl(sh.trace) else "";
      var needle := if value.Text? then value.s else "";
      if Truthy(value) && !value.Text? then None else Some(needle != "" && Contains(url, needle))
    case "element_exists" =>
      var timeout := Get(cond, "timeout", Null);
      if !w.hasDriver || !Truthy(selector) then Some(false)
      else if Float(w, if Truthy(timeout) then timeout else Num(1.0)).None? then None
      else Some(w.elementExists(sh.trace, selector))
    case "var_equals" =>
      (match PathArg(w, cond, sc, sh)
       case None => None
       case Some(v) => Some(Str(w, v) == Str(w, value)))
    case "var_contains" =>
      (match PathArg(w, cond, sc, sh)
       case None => None
       case Some(v) => Some(Contains(TextOr(w, v, ""), TextOr(w, value, ""))))
    case "var_matches" =>
      (match PathArg(w, cond, sc, sh)
       case None => None
       case Some(v) =>
         var pattern := TextOr(w, value, "");
         Some(pattern != "" && w.matches(pattern, TextOr(w, v, ""))))
    case "var_empty" =>
      (match PathArg(w, cond, sc, sh)
       case None => None
       case Some(v) => Some(!Truthy(v)))
    case _ => Some(false)
  }
}
