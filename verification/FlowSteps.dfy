/** What each type of step does, from its literal type through its gates and templates to its
    effects; and what break and continue mean for the loops around them. */
module FlowSteps {
  import opened Json
  import opened Strings
  import opened Templates
  import opened Flow
  import opened FlowSemantics
  import opened FlowLaws

  /** The step as its own dispatch sees it. */
  function Seen(w: World, m: map<string, Value>, sc: Scope, sh: Shared): map<string, Value> {
    InterpolateDict(m, EnvOf(w, sc, sh))
  }

  /** An enabled step of this literal type that draws no coin. */
  predicate Plain(w: World, m: map<string, Value>, name: string) {
    && Get(m, "type", Null) == Text(name) && Truthy(Get(m, "enabled", Bool(true)))
    && Float(w, Get(m, "probability", Num(1.0))).Some? && Float(w, Get(m, "probability", Num(1.0))).value >= 1.0
  }

  lemma TypeSurvives(step: map<string, Value>, kind: string, env: Env)
    requires Get(step, "type", Null) == Text(kind) && IsName(kind, false)
    ensures TypeOf(InterpolateDict(step, env)) == Some(kind)
  {
    BracelessText(kind, env, true);
    assert Interpolate(step["type"], env) == Text(kind);
    assert InterpolateDict(step, env)["type"] == Text(kind);
  }

  lemma Dispatches(w: World, m: map<string, Value>, name: string, sc: Scope, sh: Shared)
    requires Plain(w, m, name) && IsName(name, false)
    ensures RunStep(w, Dict(m), sc, sh) == DispatchOn(w, Dict(m), Seen(w, m, sc, sh), sc, sh)
    ensures TypeOf(Seen(w, m, sc, sh)) == Some(name)
  {
    TypeSurvives(m, name, EnvOf(w, sc, sh));
    GatedStep(w, Dict(m), Float(w, Get(m, "probability", Num(1.0))).value, sc, sh);
  }

  lemma BreakIsName()
    ensures IsName("break", false)
  {
  }

  lemma ContinueIsName()
    ensures IsName("continue", false)
  {
  }

  lemma IfIsName()
    ensures IsName("if", false)
  {
  }

  lemma ForeachIsName()
    ensures IsName("foreach", false) && IsName("loop", false)
  {
  }

  // ── gates ─────────────────────────────────────────────────────

  /** A disabled step does nothing, whatever else it says. */
  lemma DisabledDoesNothing(w: World, m: map<string, Value>, sc: Scope, sh: Shared)
    requires "enabled" in m && !Truthy(m["enabled"])
    ensures RunStep(w, Dict(m), sc, sh) == Result(Normal, sc, sh)
  {
  }

  /** A step with a probability below one draws one coin and runs exactly if the draw is not
      above it; then it runs as it would without the gate. */
  lemma CoinDecides(w: World, m: map<string, Value>, p: real, sc: Scope, sh: Shared)
    requires "enabled" !in m && "probability" in m && m["probability"] == Num(p) && p < 1.0
    ensures var x := w.coin(sh.trace);
            RunStep(w, Dict(m), sc, sh)
            == if x > p then Result(Normal, sc, Log(sh, Coin(x))) else Dispatch(w, Dict(m), sc, Log(sh, Coin(x)))
  {
    GatedStep(w, Dict(m), p, sc, sh);
  }

  // ── malformed steps ───────────────────────────────────────────

  /** What ends the run before a step is dispatched: a step that is no dict, and a probability
      that is no number or a type that cannot be one, unless the step is disabled. */
  lemma MalformedStepEnds(w: World, raw: Value, sc: Scope, sh: Shared)
    requires !raw.Dict?
             || (Truthy(Get(raw.m, "enabled", Bool(true))) && Float(w, Get(raw.m, "probability", Num(1.0))).None?)
             || (Truthy(Get(raw.m, "enabled", Bool(true))) && "probability" !in raw.m && Unhashable(Get(raw.m, "type", Null)))
    ensures RunStep(w, raw, sc, sh) == Result(Abort, sc, sh)
  {
    if raw.Dict? && "probability" !in raw.m && Unhashable(Get(raw.m, "type", Null)) {
      GatedStep(w, raw, 1.0, sc, sh);
      UnhashableSurvives(raw.m, EnvOf(w, sc, sh));
    }
  }

  /** A non-empty list or dict. */
  predicate Unhashable(v: Value) {
    (v.List? && v.vs != []) || (v.Dict? && v.m != map[])
  }

  lemma UnhashableSurvives(m: map<string, Value>, env: Env)
    requires Unhashable(Get(m, "type", Null))
    ensures TypeOf(InterpolateDict(m, env)) == None
  {
    var t := Interpolate(m["type"], env);
    assert InterpolateDict(m, env)["type"] == t;
    if m["type"].Dict? {
      assert t.m.Keys == m["type"].m.Keys;
      assert t.m != map[];
    }
  }

  /** A step without a type, or with an empty one, goes to the handler called `unknown`. */
  lemma UntypedStep(w: World, m: map<string, Value>, sc: Scope, sh: Shared)
    requires "enabled" !in m && "probability" !in m && !Truthy(Get(m, "type", Null))
    ensures RunStep(w, Dict(m), sc, sh) == HandlerLeaf(w, "unknown", Seen(w, m, sc, sh), sc, sh)
  {
    GatedStep(w, Dict(m), 1.0, sc, sh);
    FalsySurvives(m, EnvOf(w, sc, sh));
    UnknownIsDispatched(w, m, Seen(w, m, sc, sh), sc, sh);
  }

  lemma FalsySurvives(m: map<string, Value>, env: Env)
    requires !Truthy(Get(m, "type", Null))
    ensures TypeOf(InterpolateDict(m, env)) == Some("unknown")
  {
    if "type" in m {
      var t := Interpolate(m["type"], env);
      assert InterpolateDict(m, env)["type"] == t;
      if m["type"].Text? {
        assert Scan("", true) == [] && Fill([], env) == [] && Unscan([]) == "";
      } else if m["type"].Dict? {
        assert t.m == map[];
      }
    }
  }

  lemma UnknownIsDispatched(w: World, m: map<string, Value>, step: map<string, Value>, sc: Scope, sh: Shared)
    requires TypeOf(step) == Some("unknown")
    ensures DispatchOn(w, Dict(m), step, sc, sh) == HandlerLeaf(w, "unknown", step, sc, sh)
  {
  }

  /** Nested steps that are no list end the run. */
  lemma MalformedBodyEnds(w: World, m: map<string, Value>, key: string, sc: Scope, sh: Shared)
    requires key in m && Truthy(m[key]) && !m[key].List?
    ensures RunBody(w, Dict(m), key, sc, sh) == Result(Abort, sc, sh)
  {
  }

  // ── break, continue, if ───────────────────────────────────────

  lemma BreakStep(w: World, m: map<string, Value>, sc: Scope, sh: Shared)
    requires Plain(w, m, "break")
    ensures RunStep(w, Dict(m), sc, sh) == Result(Break, sc, sh)
  {
    BreakIsName();
    Dispatches(w, m, "break", sc, sh);
    BreakIsDispatched(w, m, Seen(w, m, sc, sh), sc, sh);
  }

  lemma BreakIsDispatched(w: World, m: map<string, Value>, step: map<string, Value>, sc: Scope, sh: Shared)
    requires TypeOf(step) == Some("break")
    ensures DispatchOn(w, Dict(m), step, sc, sh) == Result(Break, sc, sh)
  {
  }

  lemma ContinueStep(w: World, m: map<string, Value>, sc: Scope, sh: Shared)
    requires Plain(w, m, "continue")
    ensures RunStep(w, Dict(m), sc, sh) == Result(Continue, sc, sh)
  {
    ContinueIsName();
    Dispatches(w, m, "continue", sc, sh);
    ContinueIsDispatched(w, m, Seen(w, m, sc, sh), sc, sh);
  }

  lemma ContinueIsDispatched(w: World, m: map<string, Value>, step: map<string, Value>, sc: Scope, sh: Shared)
    requires TypeOf(step) == Some("continue")
    ensures DispatchOn(w, Dict(m), step, sc, sh) == Result(Continue, sc, sh)
  {
  }

  /** `step.get(key) or []` as a list. */
  predicate Body(m: map<string, Value>, key: string, steps: seq<Value>) {
    Get(m, key, List([])) == List(steps)
  }

  lemma BodyRuns(w: World, m: map<string, Value>, key: string, steps: seq<Value>, sc: Scope, sh: Shared)
    requires Body(m, key, steps)
    ensures RunBody(w, Dict(m), key, sc, sh) == RunSteps(w, steps, sc, sh)
  {
  }

  /** An `if` runs its then-steps, as written, when its condition holds and its else-steps when
      it does not, and ends as they end; the verdict is the only effect besides. */
  lemma IfStep(w: World, m: map<string, Value>, thens: seq<Value>, elses: seq<Value>, sc: Scope, sh: Shared)
    requires Plain(w, m, "if") && Body(m, "then_steps", thens) && Body(m, "else_steps", elses)
    ensures var cond := Get(Seen(w, m, sc, sh), "condition", Null);
            var verdict := EvalCondition(w, cond, sc, sh);
            var sh1 := Log(sh, Judged(cond, sc, verdict));
            RunStep(w, Dict(m), sc, sh)
            == match verdict
               case None => Result(Abort, sc, sh1)
               case Some(holds) => RunSteps(w, if holds then thens else elses, sc, sh1)
  {
    IfIsName();
    Dispatches(w, m, "if", sc, sh);
    IfRuns(w, m, Seen(w, m, sc, sh), thens, elses, sc, sh);
  }

  lemma IfRuns(w: World, m: map<string, Value>, step: map<string, Value>, thens: seq<Value>, elses: seq<Value>,
               sc: Scope, sh: Shared)
    requires Body(m, "then_steps", thens) && Body(m, "else_steps", elses)
    ensures var cond := Get(step, "condition", Null);
            var verdict := EvalCondition(w, cond, sc, sh);
            var sh1 := Log(sh, Judged(cond, sc, verdict));
            RunIf(w, Dict(m), step, sc, sh)
            == match verdict
               case None => Result(Abort, sc, sh1)
               case Some(holds) => RunSteps(w, if holds then thens else elses, sc, sh1)
  {
    var cond := Get(step, "condition", Null);
    var sh1 := Log(sh, Judged(cond, sc, EvalCondition(w, cond, sc, sh)));
    BodyRuns(w, m, "then_steps", thens, sc, sh1);
    BodyRuns(w, m, "else_steps", elses, sc, sh1);
  }

  // ── loops over items ──────────────────────────────────────────

  /** The variables with the item of one iteration; the default name is no variable. */
  function Entered(sh: Shared, itemVar: string, item: Value): Shared {
    if itemVar == "item" then sh else SetVar(sh, itemVar, item)
  }

  /** A loop over just these items, in order. */
  predicate LoopOver(w: World, m: map<string, Value>, items: seq<Value>, itemVar: string, sc: Scope, sh: Shared) {
    && (Plain(w, m, "foreach") || Plain(w, m, "loop"))
    && Interpolate(Get(m, "items", Null), EnvOf(w, sc, sh)) == List(items)
    && Get(m, "item_var", Text("item")) == Text(itemVar) && IsName(itemVar, false)
    && Get(m, "shuffle", Bool(false)) == Bool(false)
  }

  function NameOf(itemVar: string): Option<string> {
    if itemVar == "item" then None else Some(itemVar)
  }

  lemma LoopFieldsSurvive(w: World, m: map<string, Value>, items: seq<Value>, itemVar: string, sc: Scope, sh: Shared)
    requires LoopOver(w, m, items, itemVar, sc, sh)
    ensures var step := Seen(w, m, sc, sh);
            && Get(step, "items", Null) == List(items) && Get(step, "item_var", Text("item")) == Text(itemVar)
            && Get(step, "shuffle", Bool(false)) == Bool(false)
  {
    var env := EnvOf(w, sc, sh);
    ItemsSurvive(m, env);
    NameIsKept(itemVar, env);
    ItemVarSurvives(m, env);
    ShuffleSurvives(m, env);
  }

  lemma ItemsSurvive(m: map<string, Value>, env: Env)
    ensures Get(InterpolateDict(m, env), "items", Null) == Interpolate(Get(m, "items", Null), env)
  {
  }

  lemma ItemVarSurvives(m: map<string, Value>, env: Env)
    ensures Get(InterpolateDict(m, env), "item_var", Text("item"))
            == if "item_var" in m then Interpolate(m["item_var"], env) else Text("item")
  {
  }

  lemma ShuffleSurvives(m: map<string, Value>, env: Env)
    requires Get(m, "shuffle", Bool(false)) == Bool(false)
    ensures Get(InterpolateDict(m, env), "shuffle", Bool(false)) == Bool(false)
  {
    if "shuffle" in m {
      assert Interpolate(m["shuffle"], env) == Bool(false);
    }
  }

  lemma NameIsKept(name: string, env: Env)
    requires IsName(name, false)
    ensures Interpolate(Text(name), env) == Text(name)
  {
    BracelessText(name, env, true);
  }

  lemma ForeachRuns(w: World, raw: Value, step: map<string, Value>, items: seq<Value>, itemVar: string, sc: Scope, sh: Shared)
    requires raw.Dict? && itemVar != ""
    requires Get(step, "items", Null) == List(items) && Get(step, "item_var", Text("item")) == Text(itemVar)
    requires Get(step, "shuffle", Bool(false)) == Bool(false)
    ensures RunForeach(w, raw, step, sc, sh) == RunItems(w, raw, items, NameOf(itemVar), sc, sh)
  {
    assert Items(w, List(items), sc, sh) == items;
    assert RunForeachFrom(w, raw, step, items, sc, sh) == RunItems(w, raw, items, NameOf(itemVar), sc, sh);
  }

  lemma LoopUnfolds(w: World, m: map<string, Value>, items: seq<Value>, itemVar: string, sc: Scope, sh: Shared)
    requires LoopOver(w, m, items, itemVar, sc, sh)
    ensures RunStep(w, Dict(m), sc, sh) == RunItems(w, Dict(m), items, NameOf(itemVar), sc, sh)
  {
    LoopFieldsSurvive(w, m, items, itemVar, sc, sh);
    ForeachDispatches(w, m, sc, sh);
    ForeachRuns(w, Dict(m), Seen(w, m, sc, sh), items, itemVar, sc, sh);
  }

  lemma ForeachIsDispatched(w: World, m: map<string, Value>, step: map<string, Value>, sc: Scope, sh: Shared)
    requires TypeOf(step) == Some("foreach") || TypeOf(step) == Some("loop")
    ensures DispatchOn(w, Dict(m), step, sc, sh) == RunForeach(w, Dict(m), step, sc, sh)
  {
  }

  /** With `shuffle` the loop goes over the items in the order of one draw. */
  lemma ShuffledLoop(w: World, m: map<string, Value>, items: seq<Value>, itemVar: string, sc: Scope, sh: Shared)
    requires "shuffle" in m && m["shuffle"] == Bool(true) && items != []
    requires LoopOver(w, m["shuffle" := Bool(false)], items, itemVar, sc, sh)
    ensures var order := w.shuffle(sh.trace, items);
            RunStep(w, Dict(m), sc, sh) == RunItems(w, Dict(m), order, NameOf(itemVar), sc, Log(sh, Shuffled(order)))
  {
    var env, plain := EnvOf(w, sc, sh), m["shuffle" := Bool(false)];
    StillPlain(w, m, plain);
    ForeachDispatches(w, m, sc, sh);
    ItemsSurvive(m, env);
    NameIsKept(itemVar, env);
    ItemVarSurvives(m, env);
    ShuffleIsSeen(m, env);
    ShuffledRuns(w, Dict(m), Seen(w, m, sc, sh), items, itemVar, sc, sh);
  }

  lemma StillPlain(w: World, m: map<string, Value>, plain: map<string, Value>)
    requires plain == m["shuffle" := Bool(false)]
    ensures Plain(w, m, "foreach") == Plain(w, plain, "foreach") && Plain(w, m, "loop") == Plain(w, plain, "loop")
    ensures Get(m, "items", Null) == Get(plain, "items", Null)
    ensures Get(m, "item_var", Text("item")) == Get(plain, "item_var", Text("item"))
  {
    assert Get(m, "type", Null) == Get(plain, "type", Null) && Get(m, "enabled", Bool(true)) == Get(plain, "enabled", Bool(true));
    assert Get(m, "probability", Num(1.0)) == Get(plain, "probability", Num(1.0));
  }

  lemma ForeachDispatches(w: World, m: map<string, Value>, sc: Scope, sh: Shared)
    requires Plain(w, m, "foreach") || Plain(w, m, "loop")
    ensures RunStep(w, Dict(m), sc, sh) == RunForeach(w, Dict(m), Seen(w, m, sc, sh), sc, sh)
  {
    ForeachIsName();
    if Plain(w, m, "foreach") {
      Dispatches(w, m, "foreach", sc, sh);
    } else {
      Dispatches(w, m, "loop", sc, sh);
    }
    ForeachIsDispatched(w, m, Seen(w, m, sc, sh), sc, sh);
  }

  lemma ShuffleIsSeen(m: map<string, Value>, env: Env)
    requires "shuffle" in m && m["shuffle"] == Bool(true)
    ensures Get(InterpolateDict(m, env), "shuffle", Bool(false)) == Bool(true)
  {
    assert Interpolate(m["shuffle"], env) == Bool(true);
  }

  lemma ShuffledRuns(w: World, raw: Value, step: map<string, Value>, items: seq<Value>, itemVar: string, sc: Scope, sh: Shared)
    requires raw.Dict? && itemVar != "" && items != []
    requires Get(step, "items", Null) == List(items) && Get(step, "item_var", Text("item")) == Text(itemVar)
    requires Get(step, "shuffle", Bool(false)) == Bool(true)
    ensures var order := w.shuffle(sh.trace, items);
            RunForeach(w, raw, step, sc, sh) == RunItems(w, raw, order, NameOf(itemVar), sc, Log(sh, Shuffled(order)))
  {
    var order := w.shuffle(sh.trace, items);
    assert Items(w, List(items), sc, sh) == items;
    assert RunForeachFrom(w, raw, step, order, sc, Log(sh, Shuffled(order)))
        == RunItems(w, raw, order, NameOf(itemVar), sc, Log(sh, Shuffled(order)));
  }

  /** The steps run for one item. */
  function OneItem(w: World, steps: seq<Value>, item: Value, itemVar: string, sc: Scope, sh: Shared): Result {
    RunSteps(w, steps, sc.(item := item), Entered(sh, itemVar, item))
  }

  /** The steps run for every item in turn, over shared variables. */
  function EachItem(w: World, steps: seq<Value>, items: seq<Value>, itemVar: string, sc: Scope, sh: Shared): Shared
    decreases items
  {
    if items == [] then sh
    else EachItem(w, steps, items[1..], itemVar, sc, OneItem(w, steps, items[0], itemVar, sc, sh).shared)
  }

  /** They end normally every time. */
  predicate EachEnds(w: World, steps: seq<Value>, items: seq<Value>, itemVar: string, sc: Scope, sh: Shared)
    decreases items
  {
    items == []
    || (OneItem(w, steps, items[0], itemVar, sc, sh).out.Normal?
        && EachEnds(w, steps, items[1..], itemVar, sc, OneItem(w, steps, items[0], itemVar, sc, sh).shared))
  }

  lemma ItemRuns(w: World, m: map<string, Value>, steps: seq<Value>, items: seq<Value>, itemVar: string, sc: Scope, sh: Shared)
    requires Body(m, "steps", steps) && items != []
    ensures var r := OneItem(w, steps, items[0], itemVar, sc, sh);
            RunItems(w, Dict(m), items, NameOf(itemVar), sc, sh)
            == match r.out
               case Abort => Result(Abort, sc, r.shared)
               case Break => Result(Normal, sc, r.shared)
               case _ => RunItems(w, Dict(m), items[1..], NameOf(itemVar), sc, r.shared)
  {
    BodyRuns(w, m, "steps", steps, sc.(item := items[0]), Entered(sh, itemVar, items[0]));
  }

  /** A step list cut by a step that breaks or continues. */
  lemma CutList(w: World, pre: seq<Value>, cut: map<string, Value>, post: seq<Value>, sc: Scope, sh: Shared)
    requires RunSteps(w, pre, sc, sh).out.Normal? && (Plain(w, cut, "break") || Plain(w, cut, "continue"))
    ensures RunSteps(w, pre + [Dict(cut)] + post, sc, sh)
            == RunSteps(w, pre, sc, sh).(out := if Plain(w, cut, "break") then Break else Continue)
  {
    var r := RunSteps(w, pre, sc, sh);
    var rest := [Dict(cut)] + post;
    assert pre + [Dict(cut)] + post == pre + rest;
    StepsAppend(w, pre, rest, sc, sh);
    assert rest[0] == Dict(cut);
    if Plain(w, cut, "break") {
      BreakStep(w, cut, r.scope, r.shared);
    } else {
      ContinueStep(w, cut, r.scope, r.shared);
    }
    assert RunSteps(w, rest, r.scope, r.shared) == RunStep(w, Dict(cut), r.scope, r.shared);
  }

  /** A break ends the loop: what precedes it is done for the first item and for no other, and
      what follows it never. */
  lemma BreakEndsLoop(w: World, m: map<string, Value>, items: seq<Value>, itemVar: string,
                      pre: seq<Value>, cut: map<string, Value>, post: seq<Value>, sc: Scope, sh: Shared)
    requires LoopOver(w, m, items, itemVar, sc, sh) && items != []
    requires Body(m, "steps", pre + [Dict(cut)] + post) && Plain(w, cut, "break")
    requires OneItem(w, pre, items[0], itemVar, sc, sh).out.Normal?
    ensures RunStep(w, Dict(m), sc, sh) == Result(Normal, sc, OneItem(w, pre, items[0], itemVar, sc, sh).shared)
  {
    LoopUnfolds(w, m, items, itemVar, sc, sh);
    ItemRuns(w, m, pre + [Dict(cut)] + post, items, itemVar, sc, sh);
    CutList(w, pre, cut, post, sc.(item := items[0]), Entered(sh, itemVar, items[0]));
  }

  lemma {:induction false} ContinuedItems(w: World, m: map<string, Value>, items: seq<Value>, itemVar: string,
                                          pre: seq<Value>, cut: map<string, Value>, post: seq<Value>, sc: Scope, sh: Shared)
    requires Body(m, "steps", pre + [Dict(cut)] + post) && Plain(w, cut, "continue")
    requires EachEnds(w, pre, items, itemVar, sc, sh)
    ensures RunItems(w, Dict(m), items, NameOf(itemVar), sc, sh) == Result(Normal, sc, EachItem(w, pre, items, itemVar, sc, sh))
    decreases items
  {
    if items != [] {
      ItemRuns(w, m, pre + [Dict(cut)] + post, items, itemVar, sc, sh);
      CutList(w, pre, cut, post, sc.(item := items[0]), Entered(sh, itemVar, items[0]));
      ContinuedItems(w, m, items[1..], itemVar, pre, cut, post, sc, OneItem(w, pre, items[0], itemVar, sc, sh).shared);
    }
  }

  /** A continue goes on with the next item: what precedes it is done for every item, in order,
      and what follows it never. */
  lemma ContinueSkipsRest(w: World, m: map<string, Value>, items: seq<Value>, itemVar: string,
                          pre: seq<Value>, cut: map<string, Value>, post: seq<Value>, sc: Scope, sh: Shared)
    requires LoopOver(w, m, items, itemVar, sc, sh)
    requires Body(m, "steps", pre + [Dict(cut)] + post) && Plain(w, cut, "continue")
    requires EachEnds(w, pre, items, itemVar, sc, sh)
    ensures RunStep(w, Dict(m), sc, sh) == Result(Normal, sc, EachItem(w, pre, items, itemVar, sc, sh))
  {
    LoopUnfolds(w, m, items, itemVar, sc, sh);
    ContinuedItems(w, m, items, itemVar, pre, cut, post, sc, sh);
  }

  lemma {:induction false} WholeItems(w: World, m: map<string, Value>, items: seq<Value>, itemVar: string,
                                      steps: seq<Value>, sc: Scope, sh: Shared)
    requires Body(m, "steps", steps) && EachEnds(w, steps, items, itemVar, sc, sh)
    ensures RunItems(w, Dict(m), items, NameOf(itemVar), sc, sh) == Result(Normal, sc, EachItem(w, steps, items, itemVar, sc, sh))
    decreases items
  {
    if items != [] {
      ItemRuns(w, m, steps, items, itemVar, sc, sh);
      WholeItems(w, m, items[1..], itemVar, steps, sc, OneItem(w, steps, items[0], itemVar, sc, sh).shared);
    }
  }

  /** Without either the whole body is done for every item. */
  lemma LoopDoesEachItem(w: World, m: map<string, Value>, items: seq<Value>, itemVar: string,
                         steps: seq<Value>, sc: Scope, sh: Shared)
    requires LoopOver(w, m, items, itemVar, sc, sh)
    requires Body(m, "steps", steps) && EachEnds(w, steps, items, itemVar, sc, sh)
    ensures RunStep(w, Dict(m), sc, sh) == Result(Normal, sc, EachItem(w, steps, items, itemVar, sc, sh))
  {
    LoopUnfolds(w, m, items, itemVar, sc, sh);
    WholeItems(w, m, items, itemVar, steps, sc, sh);
  }

  // ── loops over ads ────────────────────────────────────────────

  /** A loop over just these ads of the scope, in order; `scan`: with pauses between them. */
  predicate LoopOverAds(w: World, m: map<string, Value>, ads: seq<Value>, n: nat, scan: bool, sc: Scope) {
    && Plain(w, m, "foreach_ad") && {"shuffle", "scan_dwell_min", "scan_dwell_max"} !! m.Keys
    && (if "limit" in m then n > 0 && m["limit"] == Num(n as real) && ads == (if n < |sc.ads| then sc.ads[..n] else sc.ads)
        else ads == sc.ads)
    && (if "scan_between_ads" in m then m["scan_between_ads"] == Bool(scan) else scan)
    && forall i :: 0 <= i < |ads| ==> ads[i].Dict?
  }

  lemma ForeachAdIsName()
    ensures IsName("foreach_ad", false)
  {
  }

  lemma ForeachAdIsDispatched(w: World, m: map<string, Value>, step: map<string, Value>, sc: Scope, sh: Shared)
    requires TypeOf(step) == Some("foreach_ad")
    ensures DispatchOn(w, Dict(m), step, sc, sh) == RunForeachAd(w, Dict(m), step, sc, sh)
  {
  }

  lemma FirstAds(w: World, ads: seq<Value>, n: nat)
    requires n > 0
    ensures Limited(w, ads, Num(n as real)) == if n < |ads| then ads[..n] else ads
  {
    assert (n as real).Floor == n;
  }

  lemma LimitSurvives(m: map<string, Value>, n: nat, env: Env)
    requires "limit" in m ==> m["limit"] == Num(n as real)
    ensures Get(InterpolateDict(m, env), "limit", Null) == if "limit" in m then Num(n as real) else Null
  {
    if "limit" in m {
      assert Interpolate(m["limit"], env) == Num(n as real);
    }
  }

  lemma ScanSurvives(m: map<string, Value>, scan: bool, env: Env)
    requires if "scan_between_ads" in m then m["scan_between_ads"] == Bool(scan) else scan
    ensures Get(InterpolateDict(m, env), "scan_between_ads", Bool(true)) == Bool(scan)
  {
    if "scan_between_ads" in m {
      assert Interpolate(m["scan_between_ads"], env) == Bool(scan);
    }
  }

  lemma DefaultsSurvive(m: map<string, Value>, env: Env)
    requires {"shuffle", "scan_dwell_min", "scan_dwell_max"} !! m.Keys
    ensures {"shuffle", "scan_dwell_min", "scan_dwell_max"} !! InterpolateDict(m, env).Keys
  {
  }

  lemma ForeachAdRuns(w: World, raw: Value, step: map<string, Value>, ads: seq<Value>, scan: bool, sc: Scope, sh: Shared)
    requires raw.Dict? && {"shuffle", "scan_dwell_min", "scan_dwell_max"} !! step.Keys
    requires Limited(w, sc.ads, Get(step, "limit", Null)) == ads && Get(step, "scan_between_ads", Bool(true)) == Bool(scan)
    requires sc.ads == [] ==> ads == []
    ensures RunForeachAd(w, raw, step, sc, sh) == RunAds(w, raw, ads, scan && w.hasDriver, true, sc, sh)
  {
    assert Get(step, "shuffle", Bool(false)) == Bool(false);
    assert Get(step, "scan_dwell_min", Num(3.0)) == Num(3.0) && Get(step, "scan_dwell_max", Num(8.0)) == Num(8.0);
  }

  lemma AdLimitSurvives(w: World, m: map<string, Value>, all: seq<Value>, ads: seq<Value>, n: nat, env: Env)
    requires if "limit" in m then n > 0 && m["limit"] == Num(n as real) && ads == (if n < |all| then all[..n] else all)
             else ads == all
    ensures Limited(w, all, Get(InterpolateDict(m, env), "limit", Null)) == ads
  {
    LimitSurvives(m, n, env);
    if "limit" in m {
      FirstAds(w, all, n);
    }
  }

  lemma AdLoopDispatches(w: World, m: map<string, Value>, sc: Scope, sh: Shared)
    requires Plain(w, m, "foreach_ad")
    ensures RunStep(w, Dict(m), sc, sh) == RunForeachAd(w, Dict(m), Seen(w, m, sc, sh), sc, sh)
  {
    ForeachAdIsName();
    Dispatches(w, m, "foreach_ad", sc, sh);
    ForeachAdIsDispatched(w, m, Seen(w, m, sc, sh), sc, sh);
  }

  lemma AdLoopUnfolds(w: World, m: map<string, Value>, ads: seq<Value>, n: nat, scan: bool, sc: Scope, sh: Shared)
    requires LoopOverAds(w, m, ads, n, scan, sc)
    ensures RunStep(w, Dict(m), sc, sh) == RunAds(w, Dict(m), ads, scan && w.hasDriver, true, sc, sh)
  {
    var env := EnvOf(w, sc, sh);
    AdLoopDispatches(w, m, sc, sh);
    AdLimitSurvives(w, m, sc.ads, ads, n, env);
    ScanSurvives(m, scan, env);
    DefaultsSurvive(m, env);
    ForeachAdRuns(w, Dict(m), Seen(w, m, sc, sh), ads, scan, sc, sh);
  }

  /** The steps run for one ad, behind a pause or not. */
  function OneAd(w: World, steps: seq<Value>, ad: Value, pause: bool, sc: Scope, sh: Shared): Result {
    RunSteps(w, steps, sc.(ad := ad), if pause then Log(sh, ScanPause) else sh)
  }

  /** The steps run for every ad in turn, with a pause before all but the first. */
  function EachAd(w: World, steps: seq<Value>, ads: seq<Value>, scan: bool, first: bool, sc: Scope, sh: Shared): Shared
    decreases ads
  {
    if ads == [] then sh
    else EachAd(w, steps, ads[1..], scan, false, sc, OneAd(w, steps, ads[0], scan && !first, sc, sh).shared)
  }

  predicate EachAdEnds(w: World, steps: seq<Value>, ads: seq<Value>, scan: bool, first: bool, sc: Scope, sh: Shared)
    decreases ads
  {
    ads == []
    || (OneAd(w, steps, ads[0], scan && !first, sc, sh).out.Normal?
        && EachAdEnds(w, steps, ads[1..], scan, false, sc, OneAd(w, steps, ads[0], scan && !first, sc, sh).shared))
  }

  lemma AdRuns(w: World, m: map<string, Value>, steps: seq<Value>, ads: seq<Value>, scan: bool, first: bool, sc: Scope, sh: Shared)
    requires Body(m, "steps", steps) && ads != [] && ads[0].Dict?
    ensures var r := OneAd(w, steps, ads[0], scan && !first, sc, sh);
            RunAds(w, Dict(m), ads, scan, first, sc, sh)
            == match r.out
               case Abort => Result(Abort, sc, r.shared)
               case Break => Result(Normal, sc, r.shared)
               case _ => RunAds(w, Dict(m), ads[1..], scan, false, sc, r.shared)
  {
    BodyRuns(w, m, "steps", steps, sc.(ad := ads[0]), if scan && !first then Log(sh, ScanPause) else sh);
  }

  /** A break ends a loop over ads in the same way. */
  lemma BreakEndsAdLoop(w: World, m: map<string, Value>, ads: seq<Value>, n: nat, scan: bool,
                        pre: seq<Value>, cut: map<string, Value>, post: seq<Value>, sc: Scope, sh: Shared)
    requires LoopOverAds(w, m, ads, n, scan, sc) && ads != []
    requires Body(m, "steps", pre + [Dict(cut)] + post) && Plain(w, cut, "break")
    requires OneAd(w, pre, ads[0], false, sc, sh).out.Normal?
    ensures RunStep(w, Dict(m), sc, sh) == Result(Normal, sc, OneAd(w, pre, ads[0], false, sc, sh).shared)
  {
    AdLoopUnfolds(w, m, ads, n, scan, sc, sh);
    AdRuns(w, m, pre + [Dict(cut)] + post, ads, scan && w.hasDriver, true, sc, sh);
    CutList(w, pre, cut, post, sc.(ad := ads[0]), sh);
  }

  lemma {:induction false} ContinuedAds(w: World, m: map<string, Value>, ads: seq<Value>, scan: bool, first: bool,
                                        pre: seq<Value>, cut: map<string, Value>, post: seq<Value>, sc: Scope, sh: Shared)
    requires Body(m, "steps", pre + [Dict(cut)] + post) && Plain(w, cut, "continue")
    requires (forall i :: 0 <= i < |ads| ==> ads[i].Dict?) && EachAdEnds(w, pre, ads, scan, first, sc, sh)
    ensures RunAds(w, Dict(m), ads, scan, first, sc, sh) == Result(Normal, sc, EachAd(w, pre, ads, scan, first, sc, sh))
    decreases ads
  {
    if ads != [] {
      AdRuns(w, m, pre + [Dict(cut)] + post, ads, scan, first, sc, sh);
      CutList(w, pre, cut, post, sc.(ad := ads[0]), if scan && !first then Log(sh, ScanPause) else sh);
      ContinuedAds(w, m, ads[1..], scan, false, pre, cut, post, sc, OneAd(w, pre, ads[0], scan && !first, sc, sh).shared);
    }
  }

  /** And a continue goes on with the next ad. */
  lemma ContinueSkipsRestOfAd(w: World, m: map<string, Value>, ads: seq<Value>, n: nat, scan: bool,
                              pre: seq<Value>, cut: map<string, Value>, post: seq<Value>, sc: Scope, sh: Shared)
    requires LoopOverAds(w, m, ads, n, scan, sc)
    requires Body(m, "steps", pre + [Dict(cut)] + post) && Plain(w, cut, "continue")
    requires EachAdEnds(w, pre, ads, scan && w.hasDriver, true, sc, sh)
    ensures RunStep(w, Dict(m), sc, sh) == Result(Normal, sc, EachAd(w, pre, ads, scan && w.hasDriver, true, sc, sh))
  {
    AdLoopUnfolds(w, m, ads, n, scan, sc, sh);
    ContinuedAds(w, m, ads, scan && w.hasDriver, true, pre, cut, post, sc, sh);
  }

  lemma {:induction false} WholeAds(w: World, m: map<string, Value>, ads: seq<Value>, scan: bool, first: bool,
                                    steps: seq<Value>, sc: Scope, sh: Shared)
    requires Body(m, "steps", steps)
    requires (forall i :: 0 <= i < |ads| ==> ads[i].Dict?) && EachAdEnds(w, steps, ads, scan, first, sc, sh)
    ensures RunAds(w, Dict(m), ads, scan, first, sc, sh) == Result(Normal, sc, EachAd(w, steps, ads, scan, first, sc, sh))
    decreases ads
  {
    if ads != [] {
      AdRuns(w, m, steps, ads, scan, first, sc, sh);
      WholeAds(w, m, ads[1..], scan, false, steps, sc, OneAd(w, steps, ads[0], scan && !first, sc, sh).shared);
    }
  }

  lemma LoopDoesEachAd(w: World, m: map<string, Value>, ads: seq<Value>, n: nat, scan: bool,
                       steps: seq<Value>, sc: Scope, sh: Shared)
    requires LoopOverAds(w, m, ads, n, scan, sc)
    requires Body(m, "steps", steps) && EachAdEnds(w, steps, ads, scan && w.hasDriver, true, sc, sh)
    ensures RunStep(w, Dict(m), sc, sh) == Result(Normal, sc, EachAd(w, steps, ads, scan && w.hasDriver, true, sc, sh))
  {
    AdLoopUnfolds(w, m, ads, n, scan, sc, sh);
    WholeAds(w, m, ads, scan && w.hasDriver, true, steps, sc, sh);
  }

  /** With `shuffle` it goes over the ads in the order of one draw, and the limit counts in
      that order. */
  lemma ShuffledAdLoop(w: World, raw: Value, step: map<string, Value>, sc: Scope, sh: Shared)
    requires raw.Dict? && Get(step, "shuffle", Bool(false)) == Bool(true) && sc.ads != []
    requires {"scan_dwell_min", "scan_dwell_max", "scan_between_ads"} !! step.Keys
    ensures var order := w.shuffle(sh.trace, sc.ads);
            RunForeachAd(w, raw, step, sc, sh)
            == RunAds(w, raw, Limited(w, order, Get(step, "limit", Null)), w.hasDriver, true, sc, Log(sh, Shuffled(order)))
  {
    assert Get(step, "scan_dwell_min", Num(3.0)) == Num(3.0) && Get(step, "scan_dwell_max", Num(8.0)) == Num(8.0);
    assert Get(step, "scan_between_ads", Bool(true)) == Bool(true);
  }

  /** What ends the run before or within a loop over ads: a pause whose bounds are no numbers,
      when there are ads, and an ad that is no dict. */
  lemma MalformedAdLoopEnds(w: World, raw: Value, step: map<string, Value>, ads: seq<Value>, scan: bool, sc: Scope, sh: Shared)
    requires raw.Dict? && "shuffle" !in step && sc.ads != []
    ensures ("scan_dwell_min" in step && Float(w, step["scan_dwell_min"]).None?)
            || ("scan_dwell_max" in step && Float(w, step["scan_dwell_max"]).None?) ==>
              RunForeachAd(w, raw, step, sc, sh) == Result(Abort, sc, sh)
    ensures ads != [] && !ads[0].Dict? ==> RunAds(w, raw, ads, scan, true, sc, sh) == Result(Abort, sc, sh)
  {
    assert Get(step, "shuffle", Bool(false)) == Bool(false);
  }

  /** A name for the items that cannot be a key ends a loop that has items. */
  lemma MalformedItemVarEnds(w: World, raw: Value, step: map<string, Value>, items: seq<Value>, sc: Scope, sh: Shared)
    requires raw.Dict? && items != [] && "item_var" in step && Unhashable(step["item_var"])
    requires Get(step, "items", Null) == List(items) && "shuffle" !in step
    ensures RunForeach(w, raw, step, sc, sh) == Result(Abort, sc, sh)
  {
    assert Items(w, List(items), sc, sh) == items;
    assert Get(step, "shuffle", Bool(false)) == Bool(false);
  }
}
