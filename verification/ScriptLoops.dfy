/** The main script's loops: what they go over, when their steps run, and the counters
    `{index}` and `{total}` in those steps. */
module ScriptLoops {
  import opened Json
  import opened Strings
  import opened Templates
  import opened Flow
  import opened FlowSemantics
  import opened FlowTemplates
  import opened LegacyLoops
  import opened LoopNests

  predicate Counter(name: string) {
    name == "index" || name == "total"
  }

  /** How a counter reads in iteration `i` of `n`. */
  function Shown(w: World, counter: string, i: nat, n: nat): string {
    w.show(Num((if counter == "index" then i else n) as real))
  }

  lemma CountersAreNames(counter: string)
    requires Counter(counter)
    ensures IsName(counter, false)
  {
  }

  lemma CounterScans(counter: string)
    requires IsName(counter, false)
    ensures Scan("{" + counter + "}", false) == [Hole(counter)]
  {
    var s := "{" + counter + "}";
    HoleIsFound(counter, "", false);
    assert s + "" == s && s[|counter| + 2..] == "";
  }

  lemma HoleIsFilled(counter: string, env: Env)
    requires env(counter).Some?
    ensures Unscan(Fill([Hole(counter)], env)) == env(counter).value && !Captures([Hole(counter)], false)
  {
    UnscanFill([Hole(counter)], env);
    assert [Hole(counter)][1..] == [] && Unscan(Fill([], env)) == "" && !Captures([], false);
  }

  lemma CounterFills(counter: string, env: Env)
    requires IsName(counter, false) && env(counter).Some?
    ensures Subst("{" + counter + "}", env, false) == env(counter).value && !Capturable("{" + counter + "}", false)
  {
    CounterScans(counter);
    HoleIsFilled(counter, env);
  }

  lemma CounterIsBound(w: World, counter: string, itemVar: string, item: Value, i: nat, n: nat)
    requires Counter(counter)
    ensures LoopEnv(w, itemVar, item, i, n)(counter) == Some(Shown(w, counter, i, n))
  {
  }

  /** Of several loops the outermost one's names win. */
  lemma {:induction false} OutermostWins(envs: seq<Env>, x: string)
    requires envs != [] && envs[0](x).Some?
    ensures Composed(envs)(x) == envs[0](x)
    decreases |envs|
  {
    if |envs| == 1 {
      assert envs[..0] == [] && Composed(envs) == Outermost(Inert(), envs[0]);
    } else {
      var init := envs[..|envs| - 1];
      assert init[0] == envs[0];
      OutermostWins(init, x);
    }
  }

  /** In a loop within loops both counters are those of the outermost loop: the inner ones
      cannot be read. */
  lemma OuterCountersWin(w: World, counter: string, envs: seq<Env>, itemVar: string, item: Value, i: nat, n: nat)
    requires Counter(counter) && AllBraceFree(envs) && envs != [] && envs[0] == LoopEnv(w, itemVar, item, i, n)
    ensures SubstEach(Text("{" + counter + "}"), envs) == Text(Shown(w, counter, i, n))
  {
    CounterIsBound(w, counter, itemVar, item, i, n);
    OutermostWins(envs, counter);
    CountersAreNames(counter);
    CounterFills(counter, Composed(envs));
    SubstEachText("{" + counter + "}", envs);
  }

  // ── a loop that counts ────────────────────────────────────────

  /** A step with this text as a parameter. */
  function Showing(name: string, text: string): Value {
    Dict(map["type" := Text(name), "count" := Text(text)])
  }

  /** What the handler gets from iteration `i + 1` of `n` to the last. */
  function AllShown(w: World, name: string, counter: string, i: nat, n: nat): seq<Value>
    requires i <= n
    decreases n - i
  {
    if i == n then [] else [Showing(name, Shown(w, counter, i + 1, n))] + AllShown(w, name, counter, i + 1, n)
  }

  lemma ShowingIsAction(name: string, text: string)
    ensures IsAction(Showing(name, text).m, name) && "enabled" !in Showing(name, text).m
    ensures Showing(name, text).m["count"] == Text(text) && Showing(name, text).m.Keys == {"type", "count"}
  {
  }

  lemma ShowingIsFilled(name: string, text: string, shown: string, envs: seq<Env>)
    requires IsName(name, false) && AllBraceFree(envs) && SubstEach(Text(text), envs) == Text(shown)
    ensures SubstEach(Showing(name, text), envs) == Showing(name, shown)
  {
    ShowingIsAction(name, text);
    ShowingIsAction(name, shown);
    SubstEachField(Showing(name, text), "type", envs);
    SubstEachField(Showing(name, text), "count", envs);
    EagerName(name, envs);
    assert SubstEach(Showing(name, text), envs).m == Showing(name, shown).m;
  }

  lemma BehindInert(env: Env, x: string)
    ensures Composed([Inert()] + [env])(x) == env(x)
  {
    var envs := [Inert()] + [env];
    assert envs[..1] == [Inert()] && [Inert()][..0] == [];
    assert Composed([Inert()]) == Outermost(Inert(), Inert());
    assert Composed(envs) == Outermost(Composed([Inert()]), env);
  }

  lemma CounterWithin(w: World, counter: string, itemVar: string, item: string, i: nat, n: nat)
    requires Counter(counter) && Benign(w) && FreeName(itemVar) && NoBrace(item)
    ensures var envs := [Inert()] + [LoopEnv(w, itemVar, Text(item), i, n)];
            AllBraceFree(envs) && SubstEach(Text("{" + counter + "}"), envs) == Text(Shown(w, counter, i, n))
  {
    var env := LoopEnv(w, itemVar, Text(item), i, n);
    LoopEnvBinds(w, itemVar, item, i, n);
    BehindInert(env, counter);
    CounterIsBound(w, counter, itemVar, Text(item), i, n);
    CountersAreNames(counter);
    CounterFills(counter, Composed([Inert()] + [env]));
    SubstEachText("{" + counter + "}", [Inert()] + [env]);
  }

  /** One iteration hands the handler its own number, or the number of items. */
  lemma IterationCounts(w: World, name: string, counter: string, itemVar: string, item: string, i: nat, n: nat, trace: seq<Event>)
    requires Counter(counter) && Benign(w) && PlainAction(w, name) && FreeName(itemVar) && NoBrace(item)
    ensures EmitsTo(LegacyStep(w, Showing(name, "{" + counter + "}"), [Inert()], LoopEnv(w, itemVar, Text(item), i, n), trace),
                    trace, [Showing(name, Shown(w, counter, i, n))])
  {
    var env, raw := LoopEnv(w, itemVar, Text(item), i, n), Showing(name, "{" + counter + "}");
    CounterWithin(w, counter, itemVar, item, i, n);
    ShowingIsFilled(name, "{" + counter + "}", Shown(w, counter, i, n), [Inert()] + [env]);
    ShowingIsAction(name, "{" + counter + "}");
    ShowingIsAction(name, Shown(w, counter, i, n));
    EnabledStays(raw, [Inert()]);
    EagerActionEmits(w, raw, name, [Inert()], env, trace);
  }

  lemma OneStepList(w: World, raw: Value, outer: seq<Env>, current: Env, trace: seq<Event>)
    requires !LegacyStep(w, raw, outer, current, trace).raised
    ensures LegacySteps(w, [raw], outer, current, trace) == LegacyStep(w, raw, outer, current, trace)
  {
    var r := LegacyStep(w, raw, outer, current, trace);
    assert [raw][1..] == [] && LegacySteps(w, [], outer, current, r.trace) == Ran(false, r.trace);
  }

  /** The iterations of a loop over `n` items hand the handler 1, 2, and so on up to `n` for
      `{index}`, and each time `n` for `{total}`. */
  lemma {:induction false} IterationsCount(w: World, raw: Value, name: string, counter: string, itemVar: string,
                                           items: seq<string>, i: nat, trace: seq<Event>)
    requires Counter(counter) && Benign(w) && PlainAction(w, name) && FreeName(itemVar)
    requires forall k :: 0 <= k < |items| ==> NoBrace(items[k])
    requires raw.Dict? && Get(raw.m, "steps", Null) == List([Showing(name, "{" + counter + "}")]) && i <= |items|
    ensures EmitsTo(LegacyIterations(w, raw, [Inert()], itemVar, Texts(items), i, trace), trace,
                    AllShown(w, name, counter, i, |items|))
    decreases |items| - i
  {
    var inner := Showing(name, "{" + counter + "}");
    if i < |items| {
      var env := LoopEnv(w, itemVar, Text(items[i]), i + 1, |items|);
      IterationCounts(w, name, counter, itemVar, items[i], i + 1, |items|, trace);
      var r := LegacyStep(w, inner, [Inert()], env, trace);
      OneStepList(w, inner, [Inert()], env, trace);
      IterationUnfolds(w, raw, [Inert()], itemVar, Texts(items), i, trace, [inner]);
      IterationsCount(w, raw, name, counter, itemVar, items, i + 1, r.trace);
      EmitsThen(r, LegacyIterations(w, raw, [Inert()], itemVar, Texts(items), i + 1, r.trace), trace,
                [Showing(name, Shown(w, counter, i + 1, |items|))], AllShown(w, name, counter, i + 1, |items|));
    } else {
      NoMoreIterations(w, raw, [Inert()], itemVar, Texts(items), i, trace);
    }
  }

  // ── what a loop goes over, and when its steps run ─────────────

  /** A loop goes over its items; where it has none and asks for the queries, over those. It
      shuffles them unless told not to. */
  lemma LoopGoesOver(w: World, raw: Value, given: seq<Value>, itemVar: string, shuffled: bool, envs: seq<Env>, trace: seq<Event>)
    requires raw.Dict?
    requires var step := SubstEach(raw, envs).m;
             && Get(step, "items", List([])) == List(given) && Truthy(Get(step, "steps", Null))
             && Get(step, "item_var", Text("")) == Text(itemVar) && Get(step, "shuffle", Bool(true)) == Bool(shuffled)
    ensures var items := if given == [] && Get(SubstEach(raw, envs).m, "items_from", Null) == Text("queries") then w.queries else given;
            var order := w.shuffle(trace, items);
            var name := if itemVar == "" then "item" else itemVar;
            LegacyLoop(w, raw, envs, trace)
            == if items == [] then Ran(false, trace)
               else if shuffled then LegacyIterations(w, raw, envs, name, order, 0, trace + [Shuffled(order)])
               else LegacyIterations(w, raw, envs, name, items, 0, trace)
  {
  }

  /** A text in place of a list is gone over character by character, a dict by its keys, and
      anything else raises. */
  lemma LoopOverOthers(w: World, step: map<string, Value>, v: Value)
    requires "items" in step && step["items"] == v && Truthy(v)
    ensures v.Text? ==> LegacyItems(w, step).Some? && |LegacyItems(w, step).value| == |v.s|
                        && forall i :: 0 <= i < |v.s| ==> LegacyItems(w, step).value[i] == Text([v.s[i]])
    ensures v.Dict? ==> LegacyItems(w, step).Some? && |LegacyItems(w, step).value| == |w.keys(v.m)|
                        && forall i :: 0 <= i < |w.keys(v.m)| ==> LegacyItems(w, step).value[i] == Text(w.keys(v.m)[i])
    ensures v.Num? || v.Bool? ==> LegacyItems(w, step) == None
  {
  }

  /** Which name the items get; a list or dict cannot be one, and no placeholder can spell a
      number. */
  lemma NameOfItems(step: map<string, Value>, v: Value)
    requires Get(step, "item_var", Null) == v
    ensures !Truthy(v) ==> LegacyItemVar(step) == Some("item")
    ensures v.Text? && v.s != "" ==> LegacyItemVar(step) == Some(v.s)
    ensures Truthy(v) && (v.List? || v.Dict?) ==> LegacyItemVar(step) == None
    ensures Truthy(v) && (v.Num? || v.Bool?) ==> LegacyItemVar(step) == Some("")
  {
  }

  /** An action of a loop or of the script itself: a disabled one does nothing, one of a type
      nobody knows does nothing, and any other draws one coin, whatever its probability, and
      is handed over unless the draw is above it. What its handler raises is kept from the
      loop unless the step asks for an abort. */
  lemma ActionIsDrawn(w: World, raw: Value, name: string, p: real, outer: seq<Env>, current: Env, trace: seq<Event>)
    requires raw.Dict? && name != "loop" && name != ""
    requires var step := SubstEach(raw, outer + [current]).m;
             Get(step, "type", Null) == Text(name) && Float(w, Get(step, "probability", Num(1.0))) == Some(p)
    ensures var step := SubstEach(raw, outer + [current]).m;
            var x := w.coin(trace);
            var tossed := trace + [Coin(x)];
            var raises := w.handler(tossed, name, Dict(step), NO_SCOPE, map[]).raises;
            LegacyStep(w, raw, outer, current, trace)
            == if !Truthy(Get(SubstEach(raw, outer).m, "enabled", Bool(true))) then Ran(false, trace)
               else if name !in w.handlers.loopActions && name != "search_query" && name != "rotate_ip" then Ran(false, trace)
               else if x > p then Ran(false, tossed)
               else Ran(raises && Truthy(Get(step, "abort_on_error", Null)), tossed + [Act(name, Dict(step), NO_SCOPE, raises)])
  {
  }
}
