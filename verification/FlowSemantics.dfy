/** A structured semantics of the unified flow language: no flags, no contexts to mutate.
    Running steps yields an outcome, the scope the next step of the same list sees, and
    the shared state. */
module FlowSemantics {
  import opened Json
  import opened Strings
  import opened Templates
  import opened Flow

  datatype Outcome = Normal | Break | Continue | Abort

  datatype Result = Result(out: Outcome, scope: Scope, shared: Shared)

  const RESERVED: set<string> := {
    "vault", "ad", "ads", "item", "query", "profile", "flag", "var", "_runtime_raw"
  }

  const VALUE_CAP: nat := 100 * 1024

  // ── small steps shared with the engine ────────────────────────

  function Log(sh: Shared, e: Event): Shared {
    sh.(trace := sh.trace + [e])
  }

  function SetVar(sh: Shared, name: string, v: Value): Shared {
    sh.(vars := sh.vars[name := v])
  }

  /** `step.get("type") or "unknown"`; None for an unhashable type. */
  function TypeOf(step: map<string, Value>): Option<string> {
    var t := Get(step, "type", Null);
    if !Truthy(t) then Some("unknown")
    else match t
      case Text(s) => Some(s)
      case List(_) => None
      case Dict(_) => None
      case _ => Some("unknown")
  }

  /** The branches of the dispatch; every other type goes to a handler table. */
  datatype Kind =
    | IfKind | ForeachAdKind | ForeachKind | BreakKind | ContinueKind
    | CatchKind | SearchKind | SaveKind | ExtractKind | HandlerKind

  function KindOf(name: string): Kind {
    if name == "if" then IfKind
    else if name == "foreach_ad" then ForeachAdKind
    else if name == "foreach" || name == "loop" then ForeachKind
    else if name == "break" then BreakKind
    else if name == "continue" then ContinueKind
    else if name == "catch_ads" then CatchKind
    else if name == "search_query" then SearchKind
    else if name == "save_var" then SaveKind
    else if name == "extract_text" then ExtractKind
    else HandlerKind
  }

  /** `_cap_var_value` */
  function Cap(v: Value): Value {
    match v
    case Text(s) => if |s| > VALUE_CAP then Text(s[..VALUE_CAP] + " \U{2026}(truncated)") else v
    case List(vs) =>
      List(seq(|vs|, i requires 0 <= i < |vs| => if vs[i].Text? then Cap(vs[i]) else vs[i]))
    case _ => v
  }

  /** `^[a-zA-Z_][a-zA-Z0-9_]*$`: the `$` also matches before a final line feed. */
  predicate VarName(s: string) {
    IsName(s, false) || (s != "" && s[|s| - 1] == '\n' && IsName(s[..|s| - 1], false))
  }

  /** `_validate_var_name` */
  predicate GoodVarName(v: Value) {
    v.Text? && VarName(v.s) && v.s !in RESERVED
  }

  /** The items of a foreach: a list, a placeholder naming one, or lines of text. */
  function Items(w: World, v: Value, sc: Scope, sh: Shared): seq<Value> {
    var v' := if v.Text? && HoleName(Strip(v.s), true).Some?
              then Resolve(w, HoleName(Strip(v.s), true).value, sc, sh) else v;
    match v'
    case List(vs) => vs
    case Text(s) => Lines(Split(s, c => IsLineEnd(c)))
    case _ => []
  }

  function Lines(pieces: seq<string>): seq<Value> {
    if pieces == [] then []
    else
      var line := Strip(pieces[0]);
      (if line == "" then [] else [Text(line)]) + Lines(pieces[1..])
  }

  /** Where `child.vars[item_var] = item` writes: nowhere for the default name, and for a
      non-text key no path can read. None when the key is unhashable. */
  function ItemVar(step: map<string, Value>): Option<Option<string>> {
    var v := Get(step, "item_var", Text("item"));
    match v
    case Text(s) => Some(if s == "" || s == "item" then None else Some(s))
    case List(vs) => if vs == [] then Some(None) else None
    case Dict(m) => if m == map[] then Some(None) else None
    case _ => Some(None)
  }

  /** `ads[:int(limit)]`, ignoring a limit that is falsy or not a number. */
  function Limited(w: World, ads: seq<Value>, limit: Value): seq<Value> {
    if !Truthy(limit) then ads
    else match Int(w, limit)
      case None => ads
      case Some(n) => Take(ads, n)
  }

  /** The ad's domain is one of the user's own. */
  predicate Mine(domains: seq<string>, ad: Value) {
    var dom := Strip(Lower(AdDomain(ad)));
    dom != "" && Under(dom, LowerStripAll(domains))
  }

  /** The skip/only filter against the current ad. */
  predicate GateSkips(domains: seq<string>, step: map<string, Value>, ad: Value) {
    Truthy(ad) &&
    var mine, target := Mine(domains, ad), Truthy(Field(ad, "is_target"));
    || (mine && Truthy(Get(step, "skip_on_my_domain", Null)))
    || (target && Truthy(Get(step, "skip_on_target", Null)))
    || (!target && Truthy(Get(step, "only_on_target", Null)))
    || (!mine && Truthy(Get(step, "only_on_my_domain", Null)))
  }

  /** Calls a handler: its variable writes survive even when it raises. */
  function Call(w: World, kind: string, step: map<string, Value>, sc: Scope, sh: Shared): (bool, Shared) {
    var reply := w.handler(sh.trace, kind, Dict(step), sc, sh.vars);
    (reply.raises, Log(sh.(vars := sh.vars + reply.writes), Act(kind, Dict(step), sc, reply.raises)))
  }

  /** The query a search step uses: its text, else the loop item, else the last query. */
  function QueryText(w: World, step: map<string, Value>, sc: Scope): string {
    var q := Strip(TextOr(w, Get(step, "query", Null), ""));
    if q != "" then q
    else if Truthy(sc.item) then Strip(Str(w, sc.item))
    else Strip(sc.query)
  }

  // ── leaf steps ────────────────────────────────────────────────

  /** Stores freshly parsed ads in the scope and refreshes the page flags. */
  function TakeAds(w: World, ads: seq<Value>, sc: Scope, sh: Shared): Result {
    var flags := sh.flags["ads_found" := ads != []]["captcha_present" := w.hasDriver && w.captcha(sh.trace)];
    Result(Normal, sc.(ads := ads), sh.(flags := flags))
  }

  function CatchAds(w: World, step: map<string, Value>, sc: Scope, sh: Shared): Result {
    var q := TextOr(w, Get(step, "query", Null), sc.query);
    var sh1 := Log(sh, Caught(q));
    match w.parseAds(sh.trace, q)
    case Raised => Result(Abort, sc, sh1)
    case Found(ads) => TakeAds(w, ads, sc, sh1)
  }

  function SearchQuery(w: World, step: map<string, Value>, sc: Scope, sh: Shared): Result {
    var q := QueryText(w, step, sc);
    if q == "" || !w.hasSearch then Result(Normal, sc, sh)
    else
      var sc1, sh1 := sc.(query := q), Log(sh, Searched(q));
      match w.search(sh.trace, q)
      case Raised => Result(Abort, sc1, sh1)
      case Found(ads) =>
        var r := TakeAds(w, ads, sc1, sh1);
        if Truthy(Get(step, "auto_foreach", Null)) && w.hasPerAd
        then AutoForeach(w, ads, q, r.scope, r.shared) else r
  }

  function AutoForeach(w: World, ads: seq<Value>, q: string, sc: Scope, sh: Shared): Result
    decreases ads
  {
    if ads == [] then Result(Normal, sc, sh)
    else
      var sh1 := Log(sh, PerAd(ads[0], q));
      if w.perAd(sh.trace, ads[0], q) then Result(Abort, sc, sh1)
      else AutoForeach(w, ads[1..], q, sc, sh1)
  }

  function SaveVar(step: map<string, Value>, sc: Scope, sh: Shared): Result {
    var name := Get(step, "name", Null);
    Result(Normal, sc, if GoodVarName(name) then SetVar(sh, name.s, Cap(Get(step, "value", Null))) else sh)
  }

  function ExtractText(w: World, step: map<string, Value>, sc: Scope, sh: Shared): Result {
    var selector := Get(step, "selector", Null);
    var as0 := Get(step, "save_as", Null);
    var saveAs := if Truthy(as0) then as0 else Text("extracted");
    var all := Truthy(Get(step, "all", Null));
    if !w.hasDriver || !Truthy(selector) || !GoodVarName(saveAs) then Result(Normal, sc, sh)
    else
      var v := w.extract(sh.trace, selector, all);
      Result(Normal, sc, SetVar(Log(sh, Extracted(selector, all)), saveAs.s, Cap(v)))
  }

  /** Handlers behind the legacy bridge: an exception is swallowed unless the step asks
      for an abort. */
  function Bridged(w: World, kind: string, step: map<string, Value>, sc: Scope, sh: Shared): Result {
    var (raised, sh1) := Call(w, kind, step, sc, sh);
    Result(if raised && Truthy(Get(step, "abort_on_error", Null)) then Abort else Normal, sc, sh1)
  }

  /** The handler tables, in the order the dispatch tries them. */
  function HandlerLeaf(w: World, kind: string, step: map<string, Value>, sc: Scope, sh: Shared): Result {
    if kind in w.handlers.externals then
      var (raised, sh1) := Call(w, kind, step, sc, sh);
      Result(if raised then Abort else Normal, sc, sh1)
    else if kind in w.handlers.actions then
      if (kind == "click_ad" && !Truthy(sc.ad)) || GateSkips(w.myDomains, step, sc.ad)
      then Result(Normal, sc, sh)
      else Bridged(w, kind, step, sc, sh)
    else if kind in w.handlers.loopActions then Bridged(w, kind, step, sc, sh)
    else Result(Normal, sc, sh)
  }

  // ── step lists and containers ─────────────────────────────────

  /** A step list stops at the first outcome that is not Normal. */
  function RunSteps(w: World, steps: seq<Value>, sc: Scope, sh: Shared): Result
    decreases steps, 0, 0
  {
    if steps == [] then Result(Normal, sc, sh)
    else
      var r := RunStep(w, steps[0], sc, sh);
      if r.out.Normal? then RunSteps(w, steps[1..], r.scope, r.shared) else r
  }

  /** The enabled and probability gates, then the dispatch on the interpolated step. */
  function RunStep(w: World, raw: Value, sc: Scope, sh: Shared): Result
    decreases raw, 5, 0
  {
    if !raw.Dict? then Result(Abort, sc, sh)
    else if !Truthy(Get(raw.m, "enabled", Bool(true))) then Result(Normal, sc, sh)
    else match Float(w, Get(raw.m, "probability", Num(1.0)))
      case None => Result(Abort, sc, sh)
      case Some(p) =>
        var x := w.coin(sh.trace);
        if p >= 1.0 then Dispatch(w, raw, sc, sh)
        else if x > p then Result(Normal, sc, Log(sh, Coin(x)))
        else Dispatch(w, raw, sc, Log(sh, Coin(x)))
  }

  lemma GatedStep(w: World, raw: Value, p: real, sc: Scope, sh: Shared)
    requires raw.Dict? && Float(w, Get(raw.m, "probability", Num(1.0))) == Some(p)
    ensures var x := w.coin(sh.trace);
            RunStep(w, raw, sc, sh)
            == if !Truthy(Get(raw.m, "enabled", Bool(true))) then Result(Normal, sc, sh)
               else if p >= 1.0 then Dispatch(w, raw, sc, sh)
               else if x > p then Result(Normal, sc, Log(sh, Coin(x)))
               else Dispatch(w, raw, sc, Log(sh, Coin(x)))
  {
  }

  function Dispatch(w: World, raw: Value, sc: Scope, sh: Shared): Result
    requires raw.Dict?
    decreases raw, 4, 1
  {
    DispatchOn(w, raw, InterpolateDict(raw.m, EnvOf(w, sc, sh)), sc, sh)
  }

  function DispatchOn(w: World, raw: Value, step: map<string, Value>, sc: Scope, sh: Shared): Result
    requires raw.Dict?
    decreases raw, 4, 0
  {
    match TypeOf(step)
    case None => Result(Abort, sc, sh)
    case Some(name) =>
      match KindOf(name)
      case IfKind => RunIf(w, raw, step, sc, sh)
      case ForeachAdKind => RunForeachAd(w, raw, step, sc, sh)
      case ForeachKind => RunForeach(w, raw, step, sc, sh)
      case BreakKind => Result(Break, sc, sh)
      case ContinueKind => Result(Continue, sc, sh)
      case CatchKind => CatchAds(w, step, sc, sh)
      case SearchKind => SearchQuery(w, step, sc, sh)
      case SaveKind => SaveVar(step, sc, sh)
      case ExtractKind => ExtractText(w, step, sc, sh)
      case HandlerKind => HandlerLeaf(w, name, step, sc, sh)
  }

  /** The steps nested under a container: `step.get(key) or []`. They come from the raw
      step, because interpolation leaves them alone (InterpolateKeepsBodies). */
  function RunBody(w: World, raw: Value, key: string, sc: Scope, sh: Shared): Result
    requires raw.Dict?
    decreases raw, 1, 0
  {
    var steps := Get(raw.m, key, Null);
    if !Truthy(steps) then Result(Normal, sc, sh)
    else if !steps.List? then Result(Abort, sc, sh)
    else RunSteps(w, steps.vs, sc, sh)
  }

  /** The verdict is recorded among the effects, so that laws can speak about it. */
  function RunIf(w: World, raw: Value, step: map<string, Value>, sc: Scope, sh: Shared): Result
    requires raw.Dict?
    decreases raw, 3, 0
  {
    var cond := Get(step, "condition", Null);
    var verdict := EvalCondition(w, cond, sc, sh);
    var sh1 := Log(sh, Judged(cond, sc, verdict));
    match verdict
    case None => Result(Abort, sc, sh1)
    case Some(b) => RunBody(w, raw, if b then "then_steps" else "else_steps", sc, sh1)
  }

  function RunForeach(w: World, raw: Value, step: map<string, Value>, sc: Scope, sh: Shared): Result
    requires raw.Dict?
    decreases raw, 3, 0
  {
    var items := Items(w, Get(step, "items", Null), sc, sh);
    if items == [] then Result(Normal, sc, sh)
    else
      var shuffle := Truthy(Get(step, "shuffle", Bool(false)));
      var order := if shuffle then w.shuffle(sh.trace, items) else items;
      var sh1 := if shuffle then Log(sh, Shuffled(order)) else sh;
      RunForeachFrom(w, raw, step, order, sc, sh1)
  }

  function RunForeachFrom(w: World, raw: Value, step: map<string, Value>, order: seq<Value>, sc: Scope, sh: Shared): Result
    requires raw.Dict?
    decreases raw, 2, |order| + 1
  {
    match ItemVar(step)
    case None => Result(if order == [] then Normal else Abort, sc, sh)
    case Some(itemVar) => RunItems(w, raw, order, itemVar, sc, sh)
  }

  /** One iteration per item, each in a fresh child scope; the scope of the loop itself is
      handed back as it was. */
  function RunItems(w: World, raw: Value, items: seq<Value>, itemVar: Option<string>, sc: Scope, sh: Shared): Result
    requires raw.Dict?
    decreases raw, 2, |items|
  {
    if items == [] then Result(Normal, sc, sh)
    else
      var sh1 := if itemVar.Some? then SetVar(sh, itemVar.value, items[0]) else sh;
      var r := RunBody(w, raw, "steps", sc.(item := items[0]), sh1);
      match r.out
      case Abort => Result(Abort, sc, r.shared)
      case Break => Result(Normal, sc, r.shared)
      case _ => RunItems(w, raw, items[1..], itemVar, sc, r.shared)
  }

  /** Iterates over the ads the scope holds on entry, whatever the body finds later. */
  function RunForeachAd(w: World, raw: Value, step: map<string, Value>, sc: Scope, sh: Shared): Result
    requires raw.Dict?
    decreases raw, 3, 0
  {
    if sc.ads == [] then Result(Normal, sc, sh)
    else
      var shuffle := Truthy(Get(step, "shuffle", Bool(false)));
      var order := if shuffle then w.shuffle(sh.trace, sc.ads) else sc.ads;
      var sh1 := if shuffle then Log(sh, Shuffled(order)) else sh;
      RunForeachAdFrom(w, raw, step, Limited(w, order, Get(step, "limit", Null)), sc, sh1)
  }

  function RunForeachAdFrom(w: World, raw: Value, step: map<string, Value>, ads: seq<Value>, sc: Scope, sh: Shared): Result
    requires raw.Dict?
    decreases raw, 2, |ads| + 1
  {
    if Float(w, Get(step, "scan_dwell_min", Num(3.0))).None?
       || Float(w, Get(step, "scan_dwell_max", Num(8.0))).None?
    then Result(Abort, sc, sh)
    else
      var scan := Truthy(Get(step, "scan_between_ads", Bool(true))) && w.hasDriver;
      RunAds(w, raw, ads, scan, true, sc, sh)
  }

  function RunAds(w: World, raw: Value, ads: seq<Value>, scan: bool, first: bool, sc: Scope, sh: Shared): Result
    requires raw.Dict?
    decreases raw, 2, |ads|
  {
    if ads == [] then Result(Normal, sc, sh)
    else
      var sh1 := if scan && !first then Log(sh, ScanPause) else sh;
      if !ads[0].Dict? then Result(Abort, sc, sh1)
      else
        var r := RunBody(w, raw, "steps", sc.(ad := ads[0]), sh1);
        match r.out
        case Abort => Result(Abort, sc, r.shared)
        case Break => Result(Normal, sc, r.shared)
        case _ => RunAds(w, raw, ads[1..], scan, false, sc, r.shared)
  }
}
