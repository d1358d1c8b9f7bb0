/** `run_main_script` and `_loop_foreach` of runner.py as loops over an effect log. Each step
    arrives with the enclosing loops' variables already written into it. */
module LegacyEngine {
  import opened Json
  import opened Templates
  import opened Flow
  import opened FlowSemantics
  import opened FlowTemplates
  import opened FlowEngine
  import opened LegacyLoops

  lemma {:induction false} SubstInert(v: Value)
    ensures SubstVars(v, Inert()) == v
  {
    match v
    case Text(s) =>
      FillInert(Scan(s, false));
      ScanSpells(s, false);
    case Dict(m) =>
      forall k | k in m ensures SubstVars(m[k], Inert()) == m[k] {
        SubstInert(m[k]);
      }
      assert SubstVars(v, Inert()).m == m;
    case List(vs) =>
      forall i | 0 <= i < |vs| ensures SubstVars(vs[i], Inert()) == vs[i] {
        SubstInert(vs[i]);
      }
      assert SubstVars(v, Inert()).vs == vs;
    case _ =>
  }

  /** Without a loop around it a step of the script is run as it is written. */
  lemma ScriptStepIsRaw(raw: Value)
    ensures SubstEach(raw, []) == raw && SubstEach(raw, [] + [Inert()]) == raw
  {
    SubstInert(raw);
    SubstEachLast(raw, [], Inert());
  }

  /** `ran` is false for an empty script, whose caller falls back to its own behaviour. */
  method RunMainScript(w: World, script: seq<Value>, log: EffectLog) returns (ran: bool, raised: bool)
    modifies log
    ensures ran == (script != [])
    ensures Ran(raised, log.trace) == LegacySteps(w, script, [], Inert(), old(log.trace))
  {
    if script == [] {
      return false, false;
    }
    ghost var whole := LegacySteps(w, script, [], Inert(), log.trace);
    for i := 0 to |script|
      invariant whole == LegacySteps(w, script[i..], [], Inert(), log.trace)
    {
      assert script[i..][0] == script[i] && script[i..][1..] == script[i + 1..];
      raised := ScriptStep(w, script[i], log);
      if raised {
        return true, true;
      }
    }
    return true, false;
  }

  method ScriptStep(w: World, step: Value, log: EffectLog) returns (raised: bool)
    modifies log
    ensures Ran(raised, log.trace) == LegacyStep(w, step, [], Inert(), old(log.trace))
  {
    ScriptStepIsRaw(step);
    if !step.Dict? {
      return true;
    }
    if !Truthy(Get(step.m, "enabled", Bool(true))) {
      return false;
    }
    var type_ := TypeOf(step.m);
    if type_.None? {
      return true;
    }
    if type_.value != "loop" && type_.value !in w.handlers.loopActions + {"search_query", "rotate_ip"} {
      return false;
    }
    var prob := Float(w, Get(step.m, "probability", Num(1.0)));
    if prob.None? {
      return true;
    }
    var x := w.coin(log.trace);
    log.trace := log.trace + [Coin(x)];
    if x > prob.value {
      return false;
    }
    raised := RunHandler(w, step.m, type_.value, step, [] + [Inert()], log);
  }

  /** The nested steps of one iteration. */
  method LoopBody(w: World, steps: seq<Value>, vars: Env, ghost raws: seq<Value>, ghost outer: seq<Env>, log: EffectLog)
    returns (raised: bool)
    requires |steps| == |raws| && forall i :: 0 <= i < |raws| ==> steps[i] == SubstEach(raws[i], outer)
    modifies log
    ensures Ran(raised, log.trace) == LegacySteps(w, raws, outer, vars, old(log.trace))
    decreases raws, 0, 0
  {
    ghost var whole := LegacySteps(w, raws, outer, vars, log.trace);
    for i := 0 to |steps|
      invariant whole == LegacySteps(w, raws[i..], outer, vars, log.trace)
    {
      assert raws[i..][0] == raws[i] && raws[i..][1..] == raws[i + 1..];
      raised := LoopStep(w, steps[i], vars, raws[i], outer, log);
      if raised {
        return true;
      }
    }
    return false;
  }

  /** The gates of one nested step; its own loop's variables go in after the first gate. */
  method LoopStep(w: World, nested: Value, vars: Env, ghost raw: Value, ghost outer: seq<Env>, log: EffectLog)
    returns (raised: bool)
    requires nested == SubstEach(raw, outer)
    modifies log
    ensures Ran(raised, log.trace) == LegacyStep(w, raw, outer, vars, old(log.trace))
    decreases raw, 3, 0
  {
    SubstEachDict(raw, outer);
    if !nested.Dict? {
      return true;
    }
    if !Truthy(Get(nested.m, "enabled", Bool(true))) {
      return false;
    }
    var resolved := SubstVars(nested, vars);
    SubstEachLast(raw, outer, vars);
    var type_ := TypeOf(resolved.m);
    if type_.None? {
      return true;
    }
    if type_.value != "loop" && type_.value !in w.handlers.loopActions + {"search_query", "rotate_ip"} {
      return false;
    }
    var prob := Float(w, Get(resolved.m, "probability", Num(1.0)));
    if prob.None? {
      return true;
    }
    var x := w.coin(log.trace);
    log.trace := log.trace + [Coin(x)];
    if x > prob.value {
      return false;
    }
    raised := RunHandler(w, resolved.m, type_.value, raw, outer + [vars], log);
  }

  lemma {:induction false} SubstEachDict(v: Value, envs: seq<Env>)
    ensures SubstEach(v, envs).Dict? <==> v.Dict?
    decreases |envs|
  {
    if envs != [] {
      SubstEachDict(SubstVars(v, envs[0]), envs[1..]);
    }
  }

  /** The handler call between `try` and `except`. */
  method RunHandler(w: World, step: map<string, Value>, name: string, ghost raw: Value, ghost envs: seq<Env>, log: EffectLog)
    returns (raised: bool)
    requires raw.Dict? && step == SubstEach(raw, envs).m
    modifies log
    ensures Ran(raised, log.trace) == LegacyRun(w, raw, name, envs, old(log.trace))
    decreases raw, 2, 1
  {
    if name == "loop" {
      raised := LoopForeach(w, step, raw, envs, log);
    } else {
      var reply := w.handler(log.trace, name, Dict(step), NO_SCOPE, map[]);
      log.trace := log.trace + [Act(name, Dict(step), NO_SCOPE, reply.raises)];
      raised := reply.raises;
    }
    if raised && !Truthy(Get(step, "abort_on_error", Null)) {
      raised := false;
    }
  }

  method LoopForeach(w: World, step: map<string, Value>, ghost raw: Value, ghost envs: seq<Env>, log: EffectLog)
    returns (raised: bool)
    requires raw.Dict? && step == SubstEach(raw, envs).m
    modifies log
    ensures Ran(raised, log.trace) == LegacyLoop(w, raw, envs, old(log.trace))
    decreases raw, 2, 0
  {
    var listed := LegacyItems(w, step);
    if listed.None? {
      return true;
    }
    var items := listed.value;
    if items == [] || !Truthy(Get(step, "steps", Null)) {
      return false;
    }
    if Truthy(Get(step, "shuffle", Bool(true))) {
      items := w.shuffle(log.trace, items);
      log.trace := log.trace + [Shuffled(items)];
    }
    var itemVar := LegacyItemVar(step);
    if itemVar.None? {
      return true;
    }
    raised := Iterate(w, Get(step, "steps", Null), itemVar.value, items, raw, envs, log);
  }

  method Iterate(w: World, steps: Value, itemVar: string, items: seq<Value>, ghost raw: Value, ghost envs: seq<Env>, log: EffectLog)
    returns (raised: bool)
    requires raw.Dict? && steps == Get(SubstEach(raw, envs).m, "steps", Null)
    modifies log
    ensures Ran(raised, log.trace) == LegacyIterations(w, raw, envs, itemVar, items, 0, old(log.trace))
    decreases raw, 1, |items| + 1
  {
    ghost var raws := Get(raw.m, "steps", Null);
    StepsUnder(raw, envs);
    ghost var whole := LegacyIterations(w, raw, envs, itemVar, items, 0, log.trace);
    for i := 0 to |items|
      invariant whole == LegacyIterations(w, raw, envs, itemVar, items, i, log.trace)
    {
      if !steps.List? {
        return true;
      }
      raised := LoopBody(w, steps.vs, LoopEnv(w, itemVar, items[i], i + 1, |items|), raws.vs, envs, log);
      if raised {
        return true;
      }
    }
    return false;
  }

  /** The nested steps of a substituted loop are its nested steps, substituted. */
  lemma StepsUnder(raw: Value, envs: seq<Env>)
    requires raw.Dict?
    ensures var raws := Get(raw.m, "steps", Null);
            var steps := Get(SubstEach(raw, envs).m, "steps", Null);
            && (steps.List? <==> raws.List?)
            && (steps.List? ==> |steps.vs| == |raws.vs| && forall i :: 0 <= i < |raws.vs| ==> steps.vs[i] == SubstEach(raws.vs[i], envs))
  {
    if "steps" in raw.m {
      var raws := raw.m["steps"];
      SubstEachField(raw, "steps", envs);
      SubstEachList(raws, envs);
      if raws.List? {
        forall i | 0 <= i < |raws.vs| ensures SubstEach(raws, envs).vs[i] == SubstEach(raws.vs[i], envs) {
          SubstEachElement(raws, i, envs);
        }
      }
    }
  }

  lemma {:induction false} SubstEachList(v: Value, envs: seq<Env>)
    ensures SubstEach(v, envs).List? <==> v.List?
    decreases |envs|
  {
    if envs != [] {
      SubstEachList(SubstVars(v, envs[0]), envs[1..]);
    }
  }
}
