/** The interpreter of runner.py as it is written: contexts are objects, a child context
    shares its parent's `vars` and `flags` objects, and `break` and `continue` are flags on
    the context. Every method is proved against the structured semantics. */
module FlowEngine {
  import opened Json
  import opened Strings
  import opened Templates
  import opened Flow
  import opened FlowSemantics
  import opened FlowTemplates

  /** The dict behind `ctx.vars`. */
  class VarStore {
    var m: map<string, Value>

    constructor (m: map<string, Value>)
      ensures this.m == m
    {
      this.m := m;
    }
  }

  /** The dict behind `ctx.flags`. */
  class FlagStore {
    var m: map<string, bool>

    constructor ()
      ensures m == map[]
    {
      m := map[];
    }
  }

  /** The effects a run has on the world outside. */
  class EffectLog {
    var trace: seq<Event>

    constructor ()
      ensures trace == []
    {
      trace := [];
    }
  }

  class RunContext {
    const vars: VarStore
    const flags: FlagStore
    const log: EffectLog
    var ad: Value
    var ads: seq<Value>
    var item: Value
    var query: string
    var shouldBreak: bool
    var shouldContinue: bool

    /** A root context; `seed` is what the environment puts into the variables. */
    constructor Root(seed: map<string, Value>)
      ensures fresh(vars) && fresh(flags) && fresh(log)
      ensures CurrentScope() == Scope(Null, [], Null, "") && CurrentShared() == Shared(seed, map[], [])
      ensures Pending() == Normal && Valid()
    {
      vars := new VarStore(seed);
      flags := new FlagStore();
      log := new EffectLog();
      ad, ads, item, query := Null, [], Null, "";
      shouldBreak, shouldContinue := false, false;
    }

    /** `RunContext(parent=...)`: same stores, copied scope, clean flags. */
    constructor Child(parent: RunContext)
      ensures vars == parent.vars && flags == parent.flags && log == parent.log
      ensures CurrentScope() == parent.CurrentScope()
      ensures Pending() == Normal && Valid()
    {
      vars := parent.vars;
      flags := parent.flags;
      log := parent.log;
      ad, ads, item, query := parent.ad, parent.ads, parent.item, parent.query;
      shouldBreak, shouldContinue := false, false;
    }

    ghost predicate Valid()
      reads this
    {
      !(shouldBreak && shouldContinue)
    }

    function CurrentScope(): Scope
      reads this
    {
      Scope(ad, ads, item, query)
    }

    function CurrentShared(): Shared
      reads vars, flags, log
    {
      Shared(vars.m, flags.m, log.trace)
    }

    /** The outcome the flags stand for. */
    function Pending(): Outcome
      reads this
    {
      if shouldBreak then Break else if shouldContinue then Continue else Normal
    }

    /** The context, and whether an exception is on its way, are what `r` says. */
    ghost predicate Ends(raised: bool, r: Result)
      reads this, vars, flags, log
    {
      && CurrentScope() == r.scope
      && CurrentShared() == r.shared
      && raised == r.out.Abort?
      && shouldBreak == r.out.Break?
      && shouldContinue == r.out.Continue?
    }

    method Emit(e: Event)
      modifies log
      ensures CurrentShared() == Log(old(CurrentShared()), e)
    {
      log.trace := log.trace + [e];
    }

    method Write(name: string, v: Value)
      modifies vars
      ensures CurrentShared() == SetVar(old(CurrentShared()), name, v)
    {
      vars.m := vars.m[name := v];
    }
  }

  // ── entry point and step lists ────────────────────────────────

  /** A whole run from a root context ends as the structured semantics says. */
  method RunFlow(w: World, seed: map<string, Value>, steps: seq<Value>) returns (ctx: RunContext, raised: bool)
    ensures fresh(ctx)
    ensures ctx.Ends(raised, RunSteps(w, steps, Scope(Null, [], Null, ""), Shared(seed, map[], [])))
  {
    ctx := new RunContext.Root(seed);
    raised := ExecSteps(w, steps, ctx);
  }

  method ExecSteps(w: World, steps: seq<Value>, ctx: RunContext) returns (raised: bool)
    requires ctx.Valid()
    modifies ctx, ctx.vars, ctx.flags, ctx.log
    ensures old(ctx.Pending()).Normal? ==>
              ctx.Ends(raised, RunSteps(w, steps, old(ctx.CurrentScope()), old(ctx.CurrentShared())))
    ensures !old(ctx.Pending()).Normal? ==>
              ctx.Ends(raised, Result(old(ctx.Pending()), old(ctx.CurrentScope()), old(ctx.CurrentShared())))
    decreases steps, 0, 0
  {
    ghost var start := ctx.Pending();
    ghost var whole := if start.Normal? then RunSteps(w, steps, ctx.CurrentScope(), ctx.CurrentShared())
                       else Result(start, ctx.CurrentScope(), ctx.CurrentShared());
    var i := 0;
    while i < |steps|
      invariant 0 <= i <= |steps|
      invariant ctx.Valid()
      invariant ctx.Pending().Normal? ==>
                  whole == RunSteps(w, steps[i..], ctx.CurrentScope(), ctx.CurrentShared())
      invariant !ctx.Pending().Normal? ==>
                  whole == Result(ctx.Pending(), ctx.CurrentScope(), ctx.CurrentShared())
    {
      if ctx.shouldBreak || ctx.shouldContinue {
        return false;
      }
      var raw := steps[i];
      assert steps[i..][1..] == steps[i + 1..];
      raised := ExecStep(w, raw, ctx);
      if raised {
        return true;
      }
      i := i + 1;
    }
    return false;
  }

  /** The gates at the top of the step loop, then interpolation and dispatch. */
  method ExecStep(w: World, raw: Value, ctx: RunContext) returns (raised: bool)
    requires ctx.Pending().Normal?
    modifies ctx, ctx.vars, ctx.flags, ctx.log
    ensures ctx.Ends(raised, RunStep(w, raw, old(ctx.CurrentScope()), old(ctx.CurrentShared())))
    decreases raw, 5, 0
  {
    if !raw.Dict? {
      return true;
    }
    if !Truthy(Get(raw.m, "enabled", Bool(true))) {
      return false;
    }
    var prob := Float(w, Get(raw.m, "probability", Num(1.0)));
    if prob.None? {
      return true;
    }
    if prob.value < 1.0 {
      var x := w.coin(ctx.log.trace);
      ctx.Emit(Coin(x));
      if x > prob.value {
        return false;
      }
    }
    var env := EnvOf(w, ctx.CurrentScope(), ctx.CurrentShared());
    var step := Interpolate(raw, env);
    InterpolateKeepsBodies(raw, env);
    raised := ExecSingle(w, step.m, raw, ctx);
  }

  /** The dispatch. `raw` is the step before interpolation; it only serves the proof that
      the recursion ends. */
  method ExecSingle(w: World, step: map<string, Value>, ghost raw: Value, ctx: RunContext) returns (raised: bool)
    requires ctx.Pending().Normal? && raw.Dict?
    requires SameBodies(step, raw.m)
    modifies ctx, ctx.vars, ctx.flags, ctx.log
    ensures ctx.Ends(raised, DispatchOn(w, raw, step, old(ctx.CurrentScope()), old(ctx.CurrentShared())))
    decreases raw, 4, 0
  {
    var type_ := TypeOf(step);
    if type_.None? {
      return true;
    }
    match KindOf(type_.value)
    case IfKind => raised := FlowIf(w, step, raw, ctx);
    case ForeachAdKind => raised := FlowForeachAd(w, step, raw, ctx);
    case ForeachKind => raised := FlowForeach(w, step, raw, ctx);
    case BreakKind => ctx.shouldBreak := true; raised := false;
    case ContinueKind => ctx.shouldContinue := true; raised := false;
    case CatchKind => raised := FlowCatchAds(w, step, ctx);
    case SearchKind => raised := FlowSearchQuery(w, step, ctx);
    case SaveKind => FlowSaveVar(step, ctx); raised := false;
    case ExtractKind => FlowExtractText(w, step, ctx); raised := false;
    case HandlerKind => raised := ExecHandler(w, type_.value, step, ctx);
  }

  // ── containers ────────────────────────────────────────────────

  method ExecBody(w: World, step: map<string, Value>, ghost raw: Value, key: string, ctx: RunContext) returns (raised: bool)
    requires ctx.Pending().Normal? && raw.Dict?
    requires Get(step, key, Null) == Get(raw.m, key, Null)
    modifies ctx, ctx.vars, ctx.flags, ctx.log
    ensures ctx.Ends(raised, RunBody(w, raw, key, old(ctx.CurrentScope()), old(ctx.CurrentShared())))
    decreases raw, 1, 0
  {
    var steps := Get(step, key, Null);
    if !Truthy(steps) {
      return false;
    }
    if !steps.List? {
      return true;
    }
    raised := ExecSteps(w, steps.vs, ctx);
  }

  method FlowIf(w: World, step: map<string, Value>, ghost raw: Value, ctx: RunContext) returns (raised: bool)
    requires ctx.Pending().Normal? && raw.Dict?
    requires SameBodies(step, raw.m)
    modifies ctx, ctx.vars, ctx.flags, ctx.log
    ensures ctx.Ends(raised, RunIf(w, raw, step, old(ctx.CurrentScope()), old(ctx.CurrentShared())))
    decreases raw, 3, 0
  {
    var cond := Get(step, "condition", Null);
    var c := EvalCondition(w, cond, ctx.CurrentScope(), ctx.CurrentShared());
    ctx.Emit(Judged(cond, ctx.CurrentScope(), c));
    if c.None? {
      return true;
    }
    if c.value {
      raised := ExecBody(w, step, raw, "then_steps", ctx);
    } else {
      raised := ExecBody(w, step, raw, "else_steps", ctx);
    }
  }

  method FlowForeach(w: World, step: map<string, Value>, ghost raw: Value, ctx: RunContext) returns (raised: bool)
    requires ctx.Pending().Normal? && raw.Dict?
    requires SameBodies(step, raw.m)
    modifies ctx, ctx.vars, ctx.flags, ctx.log
    ensures ctx.Ends(raised, RunForeach(w, raw, step, old(ctx.CurrentScope()), old(ctx.CurrentShared())))
    decreases raw, 3, 0
  {
    var rawItems := Items(w, Get(step, "items", Null), ctx.CurrentScope(), ctx.CurrentShared());
    if rawItems == [] {
      return false;
    }
    if Truthy(Get(step, "shuffle", Bool(false))) {
      rawItems := w.shuffle(ctx.log.trace, rawItems);
      ctx.Emit(Shuffled(rawItems));
    }
    var itemVar := ItemVar(step);
    if itemVar.None? {
      return rawItems != [];
    }
    raised := ForeachLoop(w, step, raw, rawItems, itemVar.value, ctx);
  }

  /** The body of one iteration in its child context; a continue ends there. */
  method ExecIteration(w: World, step: map<string, Value>, ghost raw: Value, child: RunContext) returns (raised: bool, broke: bool)
    requires child.Pending().Normal? && raw.Dict?
    requires SameBodies(step, raw.m)
    modifies child, child.vars, child.flags, child.log
    ensures var r := RunBody(w, raw, "steps", old(child.CurrentScope()), old(child.CurrentShared()));
            raised == r.out.Abort? && broke == r.out.Break? && child.CurrentShared() == r.shared
    decreases raw, 1, 1
  {
    raised := ExecBody(w, step, raw, "steps", child);
    child.shouldContinue := false;
    broke := child.shouldBreak;
  }

  /** The loop over the items: one child context per item, stopped by the child's flag,
      with both flags of the looping context cleared at the end. */
  method ForeachLoop(w: World, step: map<string, Value>, ghost raw: Value, items: seq<Value>,
                     itemVar: Option<string>, ctx: RunContext) returns (raised: bool)
    requires ctx.Pending().Normal? && raw.Dict?
    requires SameBodies(step, raw.m)
    modifies ctx, ctx.vars, ctx.flags, ctx.log
    ensures ctx.Ends(raised, RunItems(w, raw, items, itemVar, old(ctx.CurrentScope()), old(ctx.CurrentShared())))
    decreases raw, 2, 0
  {
    ghost var whole := RunItems(w, raw, items, itemVar, ctx.CurrentScope(), ctx.CurrentShared());
    var i := 0;
    while i < |items|
      invariant 0 <= i <= |items|
      invariant ctx.Pending().Normal? && ctx.CurrentScope() == old(ctx.CurrentScope())
      invariant whole == RunItems(w, raw, items[i..], itemVar, ctx.CurrentScope(), ctx.CurrentShared())
    {
      if ctx.shouldBreak {
        break;
      }
      assert items[i..][1..] == items[i + 1..];
      var child := new RunContext.Child(ctx);
      child.item := items[i];
      if itemVar.Some? {
        child.Write(itemVar.value, items[i]);
      }
      var broke;
      raised, broke := ExecIteration(w, step, raw, child);
      if raised {
        return true;
      }
      if broke {
        ctx.shouldBreak := true;
        break;
      }
      i := i + 1;
    }
    ctx.shouldBreak := false;
    ctx.shouldContinue := false;
    return false;
  }

  method FlowForeachAd(w: World, step: map<string, Value>, ghost raw: Value, ctx: RunContext) returns (raised: bool)
    requires ctx.Pending().Normal? && raw.Dict?
    requires SameBodies(step, raw.m)
    modifies ctx, ctx.vars, ctx.flags, ctx.log
    ensures ctx.Ends(raised, RunForeachAd(w, raw, step, old(ctx.CurrentScope()), old(ctx.CurrentShared())))
    decreases raw, 3, 0
  {
    var ads := ctx.ads;
    if ads == [] {
      return false;
    }
    if Truthy(Get(step, "shuffle", Bool(false))) {
      ads := w.shuffle(ctx.log.trace, ads);
      ctx.Emit(Shuffled(ads));
    }
    ads := Limited(w, ads, Get(step, "limit", Null));
    var scanEnabled := Truthy(Get(step, "scan_between_ads", Bool(true)));
    if Float(w, Get(step, "scan_dwell_min", Num(3.0))).None? || Float(w, Get(step, "scan_dwell_max", Num(8.0))).None? {
      return true;
    }
    raised := AdLoop(w, step, raw, ads, scanEnabled && w.hasDriver, ctx);
  }

  method AdLoop(w: World, step: map<string, Value>, ghost raw: Value, ads: seq<Value>,
                scan: bool, ctx: RunContext) returns (raised: bool)
    requires ctx.Pending().Normal? && raw.Dict?
    requires SameBodies(step, raw.m)
    modifies ctx, ctx.vars, ctx.flags, ctx.log
    ensures ctx.Ends(raised, RunAds(w, raw, ads, scan, true, old(ctx.CurrentScope()), old(ctx.CurrentShared())))
    decreases raw, 2, 0
  {
    ghost var whole := RunAds(w, raw, ads, scan, true, ctx.CurrentScope(), ctx.CurrentShared());
    var i := 0;
    while i < |ads|
      invariant 0 <= i <= |ads|
      invariant ctx.Pending().Normal? && ctx.CurrentScope() == old(ctx.CurrentScope())
      invariant whole == RunAds(w, raw, ads[i..], scan, i == 0, ctx.CurrentScope(), ctx.CurrentShared())
    {
      if ctx.shouldBreak {
        break;
      }
      assert ads[i..][1..] == ads[i + 1..];
      if scan && i > 0 {
        ctx.Emit(ScanPause);
      }
      if !ads[i].Dict? {
        return true;
      }
      var child := new RunContext.Child(ctx);
      child.ad := ads[i];
      var broke;
      raised, broke := ExecIteration(w, step, raw, child);
      if raised {
        return true;
      }
      if broke {
        ctx.shouldBreak := true;
        break;
      }
      i := i + 1;
    }
    ctx.shouldBreak := false;
    ctx.shouldContinue := false;
    return false;
  }

  // ── leaves ────────────────────────────────────────────────────

  /** The handler tables: external steps let exceptions out, the bridged ones swallow
      them unless the step asks for an abort. */
  method ExecHandler(w: World, name: string, step: map<string, Value>, ctx: RunContext) returns (raised: bool)
    requires ctx.Pending().Normal?
    modifies ctx, ctx.vars, ctx.flags, ctx.log
    ensures ctx.Ends(raised, HandlerLeaf(w, name, step, old(ctx.CurrentScope()), old(ctx.CurrentShared())))
  {
    raised := false;
    if name in w.handlers.externals {
      raised := CallHandler(w, name, step, ctx);
    } else if name in w.handlers.actions {
      if name == "click_ad" && !Truthy(ctx.ad) {
        return;
      }
      if GateSkips(w.myDomains, step, ctx.ad) {
        return;
      }
      raised := CallHandler(w, name, step, ctx);
      raised := raised && Truthy(Get(step, "abort_on_error", Null));
    } else if name in w.handlers.loopActions {
      raised := CallHandler(w, name, step, ctx);
      raised := raised && Truthy(Get(step, "abort_on_error", Null));
    }
  }

  method CallHandler(w: World, name: string, step: map<string, Value>, ctx: RunContext) returns (raised: bool)
    modifies ctx.vars, ctx.log
    ensures (raised, ctx.CurrentShared())
            == Call(w, name, step, ctx.CurrentScope(), old(ctx.CurrentShared()))
  {
    var reply := w.handler(ctx.log.trace, name, Dict(step), ctx.CurrentScope(), ctx.vars.m);
    ctx.vars.m := ctx.vars.m + reply.writes;
    ctx.Emit(Act(name, Dict(step), ctx.CurrentScope(), reply.raises));
    raised := reply.raises;
  }

  /** `ctx.ads = ads` and the two page flags. */
  method StoreAds(w: World, ads: seq<Value>, ctx: RunContext)
    modifies ctx`ads, ctx.flags
    ensures Result(Normal, ctx.CurrentScope(), ctx.CurrentShared())
            == TakeAds(w, ads, old(ctx.CurrentScope()), old(ctx.CurrentShared()))
  {
    ctx.ads := ads;
    ctx.flags.m := ctx.flags.m["ads_found" := ads != []];
    ctx.flags.m := ctx.flags.m["captcha_present" := w.hasDriver && w.captcha(ctx.log.trace)];
  }

  method FlowCatchAds(w: World, step: map<string, Value>, ctx: RunContext) returns (raised: bool)
    requires ctx.Pending().Normal?
    modifies ctx, ctx.flags, ctx.log
    ensures ctx.Ends(raised, CatchAds(w, step, old(ctx.CurrentScope()), old(ctx.CurrentShared())))
  {
    var q := TextOr(w, Get(step, "query", Null), ctx.query);
    var found := w.parseAds(ctx.log.trace, q);
    ctx.Emit(Caught(q));
    if found.Raised? {
      return true;
    }
    StoreAds(w, found.ads, ctx);
    return false;
  }

  method FlowSearchQuery(w: World, step: map<string, Value>, ctx: RunContext) returns (raised: bool)
    requires ctx.Pending().Normal?
    modifies ctx, ctx.flags, ctx.log
    ensures ctx.Ends(raised, SearchQuery(w, step, old(ctx.CurrentScope()), old(ctx.CurrentShared())))
  {
    var q := Strip(TextOr(w, Get(step, "query", Null), ""));
    if q == "" {
      if Truthy(ctx.item) {
        q := Strip(Str(w, ctx.item));
      } else if ctx.query != "" {
        q := Strip(ctx.query);
      }
    }
    if q == "" || !w.hasSearch {
      return false;
    }
    ctx.query := q;
    var found := w.search(ctx.log.trace, q);
    ctx.Emit(Searched(q));
    if found.Raised? {
      return true;
    }
    StoreAds(w, found.ads, ctx);
    raised := false;
    if Truthy(Get(step, "auto_foreach", Null)) && w.hasPerAd {
      raised := PerAdLoop(w, found.ads, q, ctx);
    }
  }

  method PerAdLoop(w: World, ads: seq<Value>, q: string, ctx: RunContext) returns (raised: bool)
    requires ctx.Pending().Normal?
    modifies ctx.log
    ensures ctx.Ends(raised, AutoForeach(w, ads, q, ctx.CurrentScope(), old(ctx.CurrentShared())))
  {
    ghost var whole := AutoForeach(w, ads, q, ctx.CurrentScope(), ctx.CurrentShared());
    for i := 0 to |ads|
      invariant whole == AutoForeach(w, ads[i..], q, ctx.CurrentScope(), ctx.CurrentShared())
    {
      assert ads[i..][1..] == ads[i + 1..];
      var fails := w.perAd(ctx.log.trace, ads[i], q);
      ctx.Emit(PerAd(ads[i], q));
      if fails {
        return true;
      }
    }
    return false;
  }

  method FlowSaveVar(step: map<string, Value>, ctx: RunContext)
    requires ctx.Pending().Normal?
    modifies ctx.vars
    ensures ctx.Ends(false, SaveVar(step, ctx.CurrentScope(), old(ctx.CurrentShared())))
  {
    var name := Get(step, "name", Null);
    if GoodVarName(name) {
      ctx.Write(name.s, Cap(Get(step, "value", Null)));
    }
  }

  method FlowExtractText(w: World, step: map<string, Value>, ctx: RunContext)
    requires ctx.Pending().Normal?
    modifies ctx.vars, ctx.log
    ensures ctx.Ends(false, ExtractText(w, step, ctx.CurrentScope(), old(ctx.CurrentShared())))
  {
    var selector := Get(step, "selector", Null);
    if !w.hasDriver || !Truthy(selector) {
      return;
    }
    var saveAs := Get(step, "save_as", Null);
    if !Truthy(saveAs) {
      saveAs := Text("extracted");
    }
    if !GoodVarName(saveAs) {
      return;
    }
    var all := Truthy(Get(step, "all", Null));
    var v := w.extract(ctx.log.trace, selector, all);
    ctx.Emit(Extracted(selector, all));
    ctx.Write(saveAs.s, Cap(v));
  }
}
