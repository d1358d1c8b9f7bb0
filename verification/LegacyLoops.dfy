/** The older main-script engine of runner.py: `run_main_script` and `_loop_foreach`, which
    write the loop variables into the nested steps before running them. */
module LegacyLoops {
  import opened Json
  import opened Templates
  import opened Flow
  import opened FlowSemantics

  /** `_substitute_vars`: every text at every depth, nested steps included. */
  function SubstVars(v: Value, env: Env): (r: Value)
    ensures v.Dict? ==> r.Dict? && r.m.Keys == v.m.Keys
    ensures v.List? ==> r.List? && |r.vs| == |v.vs|
  {
    match v
    case Text(s) => Text(Subst(s, env, false))
    case Dict(m) => Dict(map k | k in m :: SubstVars(m[k], env))
    case List(vs) => List(seq(|vs|, i requires 0 <= i < |vs| => SubstVars(vs[i], env)))
    case _ => v
  }

  /** The substitutions of the enclosing loops, outermost first. */
  function SubstEach(v: Value, envs: seq<Env>): (r: Value)
    ensures v.Dict? ==> r.Dict? && r.m.Keys == v.m.Keys
    ensures v.List? ==> r.List? && |r.vs| == |v.vs|
    decreases envs
  {
    if envs == [] then v else SubstEach(SubstVars(v, envs[0]), envs[1..])
  }

  lemma {:induction false} SubstEachLast(v: Value, envs: seq<Env>, last: Env)
    ensures SubstEach(v, envs + [last]) == SubstVars(SubstEach(v, envs), last)
    decreases envs
  {
    if envs == [] {
      assert envs + [last] == [last];
      assert SubstEach(v, [last]) == SubstEach(SubstVars(v, last), [last][1..]);
    } else {
      assert (envs + [last])[1..] == envs[1..] + [last];
      SubstEachLast(SubstVars(v, envs[0]), envs[1..], last);
    }
  }

  lemma {:induction false} SubstEachField(v: Value, k: string, envs: seq<Env>)
    requires v.Dict? && k in v.m
    ensures SubstEach(v, envs).m[k] == SubstEach(v.m[k], envs)
    decreases envs
  {
    if envs != [] {
      SubstEachField(SubstVars(v, envs[0]), k, envs[1..]);
    }
  }

  lemma {:induction false} SubstEachElement(v: Value, i: nat, envs: seq<Env>)
    requires v.List? && i < |v.vs|
    ensures SubstEach(v, envs).vs[i] == SubstEach(v.vs[i], envs)
    decreases envs
  {
    if envs != [] {
      SubstEachElement(SubstVars(v, envs[0]), i, envs[1..]);
    }
  }

  /** `{item_var: item, "index": idx, "total": len(items)}` */
  function LoopEnv(w: World, itemVar: string, item: Value, index: nat, total: nat): Env {
    name =>
      if name == "total" then Some(w.show(Num(total as real)))
      else if name == "index" then Some(w.show(Num(index as real)))
      else if name == itemVar then Some(Str(w, item))
      else None
  }

  /** What the legacy handlers see instead of a context. */
  const NO_SCOPE: Scope := Scope(Null, [], Null, "")

  datatype Ran = Ran(raised: bool, trace: seq<Event>)

  /** `list(step.get("items") or [])`, or the configured queries when that is empty and
      the step asks for them; None when it raises. */
  function LegacyItems(w: World, step: map<string, Value>): Option<seq<Value>> {
    var v := Get(step, "items", Null);
    if !Truthy(v) then
      Some(if Get(step, "items_from", Null) == Text("queries") then w.queries else [])
    else match v
      case List(vs) => Some(vs)
      case Text(s) => Some(seq(|s|, i requires 0 <= i < |s| => Text([s[i]])))
      case Dict(m) => Some(seq(|w.keys(m)|, i requires 0 <= i < |w.keys(m)| => Text(w.keys(m)[i])))
      case _ => None
  }

  /** `step.get("item_var") or "item"`; a key that is no text is read by no placeholder, and
      None is one that cannot be a key at all. */
  function LegacyItemVar(step: map<string, Value>): Option<string> {
    var v := Get(step, "item_var", Null);
    if !Truthy(v) then Some("item")
    else match v
      case Text(s) => Some(s)
      case List(_) => None
      case Dict(_) => None
      case _ => Some("")
  }

  /** A step list of the main script (`current` is inert) or of a loop body (`current`
      binds the loop variables): `raws` as written, under the enclosing substitutions. */
  function LegacySteps(w: World, raws: seq<Value>, outer: seq<Env>, current: Env, trace: seq<Event>): Ran
    decreases raws, 0, 0
  {
    if raws == [] then Ran(false, trace)
    else
      var r := LegacyStep(w, raws[0], outer, current, trace);
      if r.raised then r else LegacySteps(w, raws[1..], outer, current, r.trace)
  }

  function LegacyStep(w: World, raw: Value, outer: seq<Env>, current: Env, trace: seq<Event>): Ran
    decreases raw, 3, 0
  {
    if !raw.Dict? then Ran(true, trace)
    else if !Truthy(Get(SubstEach(raw, outer).m, "enabled", Bool(true))) then Ran(false, trace)
    else
      var step := SubstEach(raw, outer + [current]).m;
      match TypeOf(step)
      case None => Ran(true, trace)
      case Some(name) =>
        if name != "loop" && name !in w.handlers.loopActions + {"search_query", "rotate_ip"} then Ran(false, trace)
        else match Float(w, Get(step, "probability", Num(1.0)))
          case None => Ran(true, trace)
          case Some(p) =>
            var x := w.coin(trace);
            var tossed := trace + [Coin(x)];
            if x > p then Ran(false, tossed)
            else LegacyRun(w, raw, name, outer + [current], tossed)
  }

  /** The handler call; its exception is swallowed unless the step asks for an abort. */
  function LegacyRun(w: World, raw: Value, name: string, envs: seq<Env>, trace: seq<Event>): Ran
    requires raw.Dict?
    decreases raw, 2, 1
  {
    var step := SubstEach(raw, envs).m;
    var r := if name == "loop" then LegacyLoop(w, raw, envs, trace) else LegacyCall(w, name, step, trace);
    Ran(r.raised && Truthy(Get(step, "abort_on_error", Null)), r.trace)
  }

  function LegacyCall(w: World, name: string, step: map<string, Value>, trace: seq<Event>): Ran {
    var reply := w.handler(trace, name, Dict(step), NO_SCOPE, map[]);
    Ran(reply.raises, trace + [Act(name, Dict(step), NO_SCOPE, reply.raises)])
  }

  /** `_loop_foreach` on the step `raw` under the substitutions `envs`. */
  function LegacyLoop(w: World, raw: Value, envs: seq<Env>, trace: seq<Event>): Ran
    requires raw.Dict?
    decreases raw, 2, 0
  {
    var step := SubstEach(raw, envs).m;
    match LegacyItems(w, step)
    case None => Ran(true, trace)
    case Some(items) =>
      if items == [] || !Truthy(Get(step, "steps", Null)) then Ran(false, trace)
      else
        var shuffle := Truthy(Get(step, "shuffle", Bool(true)));
        var order := if shuffle then w.shuffle(trace, items) else items;
        var trace1 := if shuffle then trace + [Shuffled(order)] else trace;
        match LegacyItemVar(step)
        case None => Ran(true, trace1)
        case Some(itemVar) => LegacyIterations(w, raw, envs, itemVar, order, 0, trace1)
  }

  function LegacyIterations(w: World, raw: Value, envs: seq<Env>, itemVar: string, items: seq<Value>,
                            i: nat, trace: seq<Event>): Ran
    requires raw.Dict? && i <= |items|
    decreases raw, 1, |items| - i
  {
    if i == |items| then Ran(false, trace)
    else
      var steps := Get(raw.m, "steps", Null);
      if !steps.List? then Ran(true, trace)
      else
        var r := LegacySteps(w, steps.vs, envs, LoopEnv(w, itemVar, items[i], i + 1, |items|), trace);
        if r.raised then r else LegacyIterations(w, raw, envs, itemVar, items, i + 1, r.trace)
  }
}
