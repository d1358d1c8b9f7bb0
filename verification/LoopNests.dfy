/** Nests of loops over literal items around actions with any parameters: the eager textual
    engine and the environment-based engine emit the same instantiated steps. */
module LoopNests {
  import opened Json
  import opened Strings
  import opened Templates
  import opened Flow
  import opened FlowSemantics
  import opened FlowTemplates
  import opened LegacyLoops

  datatype Nest =
    | Action(name: string, params: map<string, Value>)
    | Loop(itemVar: string, items: seq<string>, body: seq<Nest>)

  function Texts(ss: seq<string>): seq<Value> {
    seq(|ss|, i requires 0 <= i < |ss| => Text(ss[i]))
  }

  /** The step a script author writes. */
  function ToStep(n: Nest): Value {
    match n
    case Action(name, params) => Dict(params["type" := Text(name)])
    case Loop(itemVar, items, body) =>
      Dict(map["type" := Text("loop"), "item_var" := Text(itemVar), "items" := List(Texts(items)),
               "shuffle" := Bool(false), "steps" := List(ToSteps(body))])
  }

  function ToSteps(ns: seq<Nest>): (r: seq<Value>)
    ensures |r| == |ns|
  {
    if ns == [] then [] else [ToStep(ns[0])] + ToSteps(ns[1..])
  }

  /** A step of this type that draws no coin of its own and never asks for an abort. */
  predicate IsAction(m: map<string, Value>, name: string) {
    "type" in m && m["type"] == Text(name) && {"probability", "abort_on_error"} !! m.Keys
  }

  /** The `enabled` gate of a step. */
  function Enabled(m: map<string, Value>): Value {
    Get(m, "enabled", Bool(true))
  }

  predicate IsLoop(m: map<string, Value>, itemVar: string, items: seq<Value>, steps: Value) {
    && m.Keys == {"type", "item_var", "items", "shuffle", "steps"}
    && m["type"] == Text("loop") && m["item_var"] == Text(itemVar) && m["items"] == List(items)
    && m["shuffle"] == Bool(false) && m["steps"] == steps
    && "enabled" !in m && "probability" !in m && "abort_on_error" !in m
  }

  lemma LoopFields(n: Nest)
    requires n.Loop?
    ensures ToStep(n).Dict? && IsLoop(ToStep(n).m, n.itemVar, Texts(n.items), List(ToSteps(n.body)))
  {
  }

  type Bindings = map<string, string>

  function Bound(b: Bindings): Env {
    name => if name in b then Some(b[name]) else None
  }

  /** A value with every text in it filled in, at every depth. */
  function Instance(v: Value, b: Bindings): (r: Value)
    ensures v.Dict? ==> r.Dict? && r.m.Keys == v.m.Keys
  {
    match v
    case Text(s) => Text(Subst(s, Bound(b), true))
    case Dict(m) => Dict(map k | k in m :: Instance(m[k], b))
    case List(vs) => List(seq(|vs|, i requires 0 <= i < |vs| => Instance(vs[i], b)))
    case _ => v
  }

  /** The reference meaning of a nest: which instantiated actions it performs, in order. */
  function Emits(b: Bindings, ns: seq<Nest>): seq<Value>
    decreases ns, 1
  {
    if ns == [] then [] else EmitsOne(b, ns[0]) + Emits(b, ns[1..])
  }

  function EmitsOne(b: Bindings, n: Nest): seq<Value>
    decreases n, 1
  {
    match n
    case Action(_, params) => if Truthy(Enabled(params)) then [Instance(ToStep(n), b)] else []
    case Loop(itemVar, items, body) => EmitsLoop(b, n, 0)
  }

  function EmitsLoop(b: Bindings, n: Nest, i: nat): seq<Value>
    requires n.Loop? && i <= |n.items|
    decreases n, 0, |n.items| - i
  {
    if i == |n.items| then []
    else Emits(b[n.itemVar := Subst(n.items[i], Bound(b), true)], n.body) + EmitsLoop(b, n, i + 1)
  }

  /** The steps handed to handlers. */
  function Emitted(trace: seq<Event>): seq<Value> {
    if trace == [] then []
    else Emitted(trace[..|trace| - 1]) + (var e := trace[|trace| - 1]; if e.Act? then [e.step] else [])
  }

  // ── which nests ───────────────────────────────────────────────

  const HEADS: set<string> := {"ad", "ads", "item", "var", "query", "profile", "flag"}

  /** A loop variable both engines look up under its own name. */
  predicate FreeName(x: string) {
    IsName(x, false) && x !in HEADS && x != "index" && x != "total" && x != "last_rotated_ip"
  }

  /** All placeholders are bound. */
  predicate Closed(t: string, names: set<string>) {
    forall h :: h in Scan(t, true) && h.Hole? ==> h.name in names
  }

  /** Texts at every depth are closed and capture nothing, and no dict in it is a container
      of steps. */
  predicate GoodParam(v: Value, names: set<string>) {
    match v
    case Text(s) => Closed(s, names) && !Capturable(s, true)
    case Dict(m) => forall k :: k in m ==> k !in NESTED && GoodParam(m[k], names)
    case List(vs) => forall i :: 0 <= i < |vs| ==> GoodParam(vs[i], names)
    case _ => true
  }

  /** The actions both engines hand to the same handler: the loop-level ones, and the
      rotation, which the flow engine counts among the external steps. */
  predicate PlainAction(w: World, name: string) {
    && IsName(name, false) && KindOf(name).HandlerKind? && name !in w.handlers.actions
    && (if name == "rotate_ip" then name in w.handlers.externals
        else name in w.handlers.loopActions && name !in w.handlers.externals)
  }

  /** Parameters without a coin or an abort of their own; the `enabled` gate, if any, and the
      pause after a rotation are literals. */
  predicate PlainParams(name: string, params: map<string, Value>) {
    && {"type", "probability", "abort_on_error"} !! params.Keys && Enabled(params).Bool?
    && (name == "rotate_ip" ==> Pause(params).Num?)
  }

  function Pause(step: map<string, Value>): Value {
    Get(step, "wait_after_sec", Num(0.0))
  }

  /** Distinct unreserved loop variables, every placeholder bound by an enclosing loop, no
      stray brace that captures one, and items without literal braces. */
  predicate WellFormed(w: World, ns: seq<Nest>, names: set<string>) {
    ns == [] || (WellFormedOne(w, ns[0], names) && WellFormed(w, ns[1..], names))
  }

  predicate WellFormedOne(w: World, n: Nest, names: set<string>) {
    match n
    case Action(name, params) =>
      PlainAction(w, name) && GoodParam(Dict(params), names) && PlainParams(name, params)
    case Loop(itemVar, items, body) =>
      && FreeName(itemVar) && itemVar !in names
      && GoodItems(items, names)
      && WellFormed(w, body, names + {itemVar})
  }

  /** No brace outside the placeholders. */
  predicate Braceless(t: string) {
    forall h :: h in Scan(t, true) && h.Lit? ==> h.c != '{' && h.c != '}'
  }

  /** Handlers may raise and may write variables other than those of the loops, such as the
      `last_rotated_ip` of a rotation; a rotation raises only over the pause it is to make. No
      coin exceeds one, and numbers print without braces. */
  ghost predicate Benign(w: World) {
    && (forall trace, name, step, sc, vars :: name in w.handlers.loopActions || name == "rotate_ip" ==>
          Harmless(w.handler(trace, name, step, sc, vars)))
    && (forall trace, step, sc, vars :: Pausing(step) ==> !w.handler(trace, "rotate_ip", step, sc, vars).raises)
    && (forall trace :: w.coin(trace) <= 1.0)
    && (forall x :: NoBrace(w.show(Num(x))))
  }

  ghost predicate Harmless(reply: Reply) {
    forall x :: x in reply.writes ==> !FreeName(x)
  }

  predicate Pausing(step: Value) {
    step.Dict? && Pause(step.m).Num?
  }

  ghost predicate PlainBindings(b: Bindings) {
    forall x :: x in b ==> FreeName(x) && NoBrace(b[x])
  }

  // ── the two patterns agree on plain names ─────────────────────

  lemma {:induction false} PlainRun(s: string, n: nat)
    requires n == NameLen(s, true) && forall i :: 0 <= i < n ==> NameChar(s[i], false)
    ensures NameLen(s, false) == n
    decreases |s|
  {
    if n > 0 {
      assert forall i :: 0 <= i < n - 1 ==> s[1..][i] == s[i + 1];
      PlainRun(s[1..], n - 1);
    }
  }

  lemma {:induction false} ShortRun(s: string)
    ensures NameLen(s, false) <= NameLen(s, true)
    ensures NameLen(s, false) < NameLen(s, true) ==> s[NameLen(s, false)] == '.'
    decreases |s|
  {
    if s != "" && NameChar(s[0], false) {
      ShortRun(s[1..]);
    }
  }

  lemma HoleNamesAgree(t: string)
    requires HoleName(t, true).Some? ==> IsName(HoleName(t, true).value, false)
    ensures HoleName(t, false) == HoleName(t, true)
  {
    if |t| >= 2 {
      var rest := t[1..];
      ShortRun(rest);
      if HoleName(t, true).Some? {
        var n := HoleName(t, true).value;
        assert n == t[1..1 + |n|] && forall i :: 0 <= i < |n| ==> rest[i] == n[i];
        PlainRun(rest, |n|);
      }
    }
  }

  lemma {:induction false} PatternsAgree(t: string)
    requires forall h :: h in Scan(t, true) && h.Hole? ==> IsName(h.name, false)
    ensures Scan(t, false) == Scan(t, true)
    decreases |t|
  {
    if t != "" {
      var hole := HoleName(t, true);
      var rest := if hole.Some? then t[|hole.value| + 2..] else t[1..];
      var head := if hole.Some? then Hole(hole.value) else Lit(t[0]);
      assert Scan(t, true) == [head] + Scan(rest, true);
      assert head in Scan(t, true);
      HoleNamesAgree(t);
      forall h | h in Scan(rest, true) ensures h in Scan(t, true) {}
      PatternsAgree(rest);
      assert Scan(t, false) == [head] + Scan(rest, false);
    }
  }

  lemma {:induction false} ClosesWidens(ts: seq<Token>)
    requires Closes(ts, false)
    ensures Closes(ts, true)
  {
    if ts[0] != Lit('}') {
      ClosesWidens(ts[1..]);
    }
  }

  lemma {:induction false} CapturesWidens(ts: seq<Token>)
    requires Captures(ts, false)
    ensures Captures(ts, true)
  {
    if ts[0] == Lit('{') && |ts| > 1 && (ts[1].Hole? || NameStart(ts[1].c)) && Closes(ts[1..], false) {
      ClosesWidens(ts[1..]);
    } else {
      CapturesWidens(ts[1..]);
    }
  }

  /** A closed template under plain names: the eager pattern and the dotted one fill it
      alike, from any environment that agrees with the bindings. */
  lemma ClosedFills(t: string, b: Bindings, env: Env)
    requires Closed(t, b.Keys) && PlainBindings(b)
    requires forall x :: x in b ==> env(x) == Some(b[x])
    ensures Subst(t, env, true) == Subst(t, Bound(b), true) == Subst(t, env, false)
    ensures !Capturable(t, true) ==> !Capturable(t, false)
  {
    PatternsAgree(t);
    FillSame(Scan(t, true), env, Bound(b));
    if Capturable(t, false) {
      CapturesWidens(Scan(t, true));
    }
  }

  // ── texts without placeholders ────────────────────────────────

  lemma NamesAreBraceless(x: string, dots: bool)
    requires IsName(x, dots)
    ensures NoBrace(x)
  {
  }

  lemma {:induction false} BracelessFills(ts: seq<Token>, b: Bindings)
    requires PlainBindings(b)
    requires forall h :: h in ts ==> if h.Hole? then h.name in b else h.c != '{' && h.c != '}'
    ensures NoBrace(Unscan(Fill(ts, Bound(b)))) && !Captures(ts, true)
  {
    if ts != [] {
      assert ts[0] in ts;
      BracelessFills(ts[1..], b);
      if ts[0].Hole? {
        var v := b[ts[0].name];
        UnscanAppend(Lits(v), Fill(ts[1..], Bound(b)));
        UnscanLits(v);
      }
    }
  }

  // ── the eager engine ──────────────────────────────────────────

  /** One environment that acts like the whole list, the first one taking precedence. */
  function Composed(envs: seq<Env>): Env {
    if envs == [] then Inert() else Outermost(Composed(envs[..|envs| - 1]), envs[|envs| - 1])
  }

  ghost predicate AllBraceFree(envs: seq<Env>) {
    forall i :: 0 <= i < |envs| ==> BraceFree(envs[i])
  }

  lemma {:induction false} SubstEachText(t: string, envs: seq<Env>)
    requires !Capturable(t, false) && AllBraceFree(envs)
    ensures BraceFree(Composed(envs))
    ensures SubstEach(Text(t), envs) == Text(Subst(t, Composed(envs), false))
    decreases |envs|
  {
    if envs == [] {
      FillInert(Scan(t, false));
      ScanSpells(t, false);
    } else {
      var init, last := envs[..|envs| - 1], envs[|envs| - 1];
      assert init + [last] == envs;
      SubstEachText(t, init);
      SubstEachLast(Text(t), init, last);
      TwoPassesAreOne(t, Composed(init), last, false);
    }
  }

  lemma {:induction false} SubstEachAtom(v: Value, envs: seq<Env>)
    requires !v.Text? && !v.Dict? && !v.List?
    ensures SubstEach(v, envs) == v
    decreases envs
  {
    if envs != [] {
      SubstEachAtom(SubstVars(v, envs[0]), envs[1..]);
    }
  }

  /** The enclosing loops bind exactly `b`, and their counters. */
  ghost predicate Exactly(envs: seq<Env>, b: Bindings) {
    && AllBraceFree(envs)
    && forall x :: x != "index" && x != "total" ==> Composed(envs)(x) == Bound(b)(x)
  }

  lemma EagerText(t: string, envs: seq<Env>, b: Bindings)
    requires Exactly(envs, b) && PlainBindings(b)
    requires Closed(t, b.Keys) && !Capturable(t, true)
    ensures SubstEach(Text(t), envs) == Text(Subst(t, Bound(b), true))
  {
    ClosedFills(t, b, Composed(envs));
    SubstEachText(t, envs);
  }

  lemma EagerName(x: string, envs: seq<Env>)
    requires IsName(x, false) && AllBraceFree(envs)
    ensures SubstEach(Text(x), envs) == Text(x)
  {
    NamesAreBraceless(x, false);
    BracelessText(x, Composed(envs), false);
    SubstEachText(x, envs);
  }

  /** Under the enclosing substitutions a parameter of any shape is its instance. */
  lemma {:induction false} EagerValue(v: Value, envs: seq<Env>, b: Bindings)
    requires Exactly(envs, b) && PlainBindings(b) && GoodParam(v, b.Keys)
    ensures SubstEach(v, envs) == Instance(v, b)
    decreases v
  {
    match v
    case Text(s) => EagerText(s, envs, b);
    case Dict(m) =>
      forall k | k in m ensures SubstEach(v, envs).m[k] == Instance(m[k], b) {
        SubstEachField(v, k, envs);
        EagerValue(m[k], envs, b);
      }
      assert SubstEach(v, envs).m == Instance(v, b).m;
    case List(vs) =>
      forall i | 0 <= i < |vs| ensures SubstEach(v, envs).vs[i] == Instance(vs[i], b) {
        SubstEachElement(v, i, envs);
        EagerValue(vs[i], envs, b);
      }
      assert SubstEach(v, envs).vs == Instance(v, b).vs;
    case _ => SubstEachAtom(v, envs);
  }

  lemma {:induction false} NoHoles(s: string, dots: bool)
    requires NoBrace(s)
    ensures forall h :: h in Scan(s, dots) ==> h.Lit?
    decreases |s|
  {
    if s != "" {
      NoHoles(s[1..], dots);
      assert HoleName(s, dots).None?;
    }
  }

  /** The step of an action is a good parameter itself, and its instance keeps its type. */
  lemma ActionStep(n: Nest, b: Bindings)
    requires n.Action? && IsName(n.name, false) && GoodParam(Dict(n.params), b.Keys) && PlainParams(n.name, n.params)
    ensures GoodParam(ToStep(n), b.Keys)
    ensures ToStep(n).Dict? && IsAction(ToStep(n).m, n.name) && Enabled(ToStep(n).m) == Enabled(n.params)
    ensures Instance(ToStep(n), b).Dict? && IsAction(Instance(ToStep(n), b).m, n.name)
    ensures n.name == "rotate_ip" ==> Pausing(Instance(ToStep(n), b))
  {
    NamesAreBraceless(n.name, false);
    NoHoles(n.name, true);
    BracelessText(n.name, Bound(b), true);
    var m := ToStep(n).m;
    assert m.Keys == n.params.Keys + {"type"};
    assert Instance(ToStep(n), b).m["type"] == Instance(m["type"], b);
    if "wait_after_sec" in m {
      assert Instance(ToStep(n), b).m["wait_after_sec"] == Instance(m["wait_after_sec"], b);
    }
  }

  lemma EnabledStays(raw: Value, envs: seq<Env>)
    requires raw.Dict? && Enabled(raw.m).Bool?
    ensures Enabled(SubstEach(raw, envs).m) == Enabled(raw.m)
  {
    if "enabled" in raw.m {
      SubstEachField(raw, "enabled", envs);
      SubstEachAtom(raw.m["enabled"], envs);
    }
  }

  /** The items of a loop once the enclosing loops have filled them in. */
  function FilledItems(items: seq<string>, b: Bindings): (r: seq<Value>)
    ensures |r| == |items|
  {
    seq(|items|, i requires 0 <= i < |items| => Text(Subst(items[i], Bound(b), true)))
  }

  predicate GoodItems(items: seq<string>, names: set<string>) {
    forall i :: 0 <= i < |items| ==> Closed(items[i], names) && Braceless(items[i])
  }

  lemma EagerItems(items: seq<string>, envs: seq<Env>, b: Bindings)
    requires GoodItems(items, b.Keys)
    requires Exactly(envs, b) && PlainBindings(b)
    ensures SubstEach(List(Texts(items)), envs) == List(FilledItems(items, b))
    ensures forall i :: 0 <= i < |items| ==> NoBrace(FilledItems(items, b)[i].s)
  {
    var v := List(Texts(items));
    forall i | 0 <= i < |items|
      ensures SubstEach(v, envs).vs[i] == FilledItems(items, b)[i] && NoBrace(FilledItems(items, b)[i].s)
    {
      BracelessFills(Scan(items[i], true), b);
      SubstEachElement(v, i, envs);
      EagerText(items[i], envs, b);
    }
    assert SubstEach(v, envs).vs == FilledItems(items, b);
  }

  lemma EagerFields(m: map<string, Value>, envs: seq<Env>)
    requires {"type", "item_var", "items", "shuffle", "steps"} <= m.Keys
    ensures var r := SubstEach(Dict(m), envs).m;
            && r.Keys == m.Keys
            && r["type"] == SubstEach(m["type"], envs) && r["item_var"] == SubstEach(m["item_var"], envs)
            && r["items"] == SubstEach(m["items"], envs) && r["shuffle"] == SubstEach(m["shuffle"], envs)
            && r["steps"] == SubstEach(m["steps"], envs)
  {
    var raw := Dict(m);
    SubstEachField(raw, "type", envs);
    SubstEachField(raw, "item_var", envs);
    SubstEachField(raw, "shuffle", envs);
    SubstEachField(raw, "items", envs);
    SubstEachField(raw, "steps", envs);
  }

  lemma EagerLoop(m: map<string, Value>, itemVar: string, items: seq<string>, steps: Value, envs: seq<Env>, b: Bindings)
    requires IsLoop(m, itemVar, Texts(items), steps) && IsName(itemVar, false)
    requires GoodItems(items, b.Keys)
    requires Exactly(envs, b) && PlainBindings(b)
    ensures IsLoop(SubstEach(Dict(m), envs).m, itemVar, FilledItems(items, b), SubstEach(steps, envs))
  {
    EagerFields(m, envs);
    LoopIsName();
    EagerName("loop", envs);
    EagerName(itemVar, envs);
    EagerItems(items, envs, b);
    SubstEachAtom(Bool(false), envs);
    StaysLoop(m, SubstEach(Dict(m), envs).m, itemVar, Texts(items), steps);
  }

  lemma LoopIsName()
    ensures IsName("loop", false)
  {
  }

  /** A dict with the fields of a loop, whatever its items and steps have become. */
  lemma StaysLoop(m: map<string, Value>, r: map<string, Value>, itemVar: string, items: seq<Value>, steps: Value)
    requires IsLoop(m, itemVar, items, steps) && r.Keys == m.Keys
    requires r["type"] == m["type"] && r["item_var"] == m["item_var"] && r["shuffle"] == m["shuffle"] && r["items"].List?
    ensures IsLoop(r, itemVar, r["items"].vs, r["steps"])
  {
  }

  lemma EmittedLog(trace: seq<Event>, e: Event)
    ensures Emitted(trace + [e]) == Emitted(trace) + (if e.Act? then [e.step] else [])
  {
    assert (trace + [e])[..|trace|] == trace;
  }

  ghost predicate EmitsTo(r: Ran, trace: seq<Event>, steps: seq<Value>) {
    !r.raised && Emitted(r.trace) == Emitted(trace) + steps
  }

  lemma EmitsThen(r: Ran, r': Ran, trace: seq<Event>, a: seq<Value>, b: seq<Value>)
    requires EmitsTo(r, trace, a) && EmitsTo(r', r.trace, b)
    ensures EmitsTo(r', trace, a + b)
  {
  }

  lemma {:induction false} EagerEmits(w: World, ns: seq<Nest>, b: Bindings, outer: seq<Env>, current: Env, trace: seq<Event>)
    requires Benign(w) && PlainBindings(b) && WellFormed(w, ns, b.Keys)
    requires Exactly(outer + [current], b) && AllBraceFree(outer)
    ensures EmitsTo(LegacySteps(w, ToSteps(ns), outer, current, trace), trace, Emits(b, ns))
    decreases ns, 2
  {
    if ns != [] {
      ToStepsSplit(ns);
      EagerEmitsOne(w, ns[0], b, outer, current, trace);
      var r := LegacyStep(w, ToStep(ns[0]), outer, current, trace);
      EagerEmits(w, ns[1..], b, outer, current, r.trace);
      LegacySplit(w, ToSteps(ns), outer, current, trace);
      EmitsThen(r, LegacySteps(w, ToSteps(ns[1..]), outer, current, r.trace), trace, EmitsOne(b, ns[0]), Emits(b, ns[1..]));
    }
  }

  lemma ToStepsSplit(ns: seq<Nest>)
    requires ns != []
    ensures ToSteps(ns)[0] == ToStep(ns[0]) && ToSteps(ns)[1..] == ToSteps(ns[1..])
  {
  }

  lemma LegacySplit(w: World, raws: seq<Value>, outer: seq<Env>, current: Env, trace: seq<Event>)
    requires raws != []
    ensures var r := LegacyStep(w, raws[0], outer, current, trace);
            LegacySteps(w, raws, outer, current, trace)
            == if r.raised then r else LegacySteps(w, raws[1..], outer, current, r.trace)
  {
  }

  lemma {:induction false} EagerEmitsOne(w: World, n: Nest, b: Bindings, outer: seq<Env>, current: Env, trace: seq<Event>)
    requires Benign(w) && PlainBindings(b) && WellFormedOne(w, n, b.Keys)
    requires Exactly(outer + [current], b) && AllBraceFree(outer)
    ensures EmitsTo(LegacyStep(w, ToStep(n), outer, current, trace), trace, EmitsOne(b, n))
    decreases n, 2
  {
    match n
    case Action(name, params) =>
      ActionStep(n, b);
      EagerValue(ToStep(n), outer + [current], b);
      EnabledStays(ToStep(n), outer);
      EagerActionEmits(w, ToStep(n), name, outer, current, trace);
    case Loop(itemVar, items, body) => EagerLoopCase(w, n, b, outer, current, trace);
  }

  lemma {:induction false} EagerLoopCase(w: World, n: Nest, b: Bindings, outer: seq<Env>, current: Env, trace: seq<Event>)
    requires n.Loop? && Benign(w) && PlainBindings(b) && WellFormedOne(w, n, b.Keys)
    requires Exactly(outer + [current], b)
    ensures EmitsTo(LegacyStep(w, ToStep(n), outer, current, trace), trace, EmitsOne(b, n))
    decreases n, 1, 1
  {
    var envs := outer + [current];
    LoopStepFills(w, n, envs, b);
    var tossed := trace + [Coin(w.coin(trace))];
    EagerLoopEmits(w, n, b, envs, tossed);
    EagerToss(w, ToStep(n), "loop", outer, current, trace);
    LoopRuns(w, ToStep(n), envs, tossed);
    EmitsAfterCoin(LegacyLoop(w, ToStep(n), envs, tossed), trace, w.coin(trace), EmitsOne(b, n));
  }

  lemma LoopStepFills(w: World, n: Nest, envs: seq<Env>, b: Bindings)
    requires n.Loop? && PlainBindings(b) && WellFormedOne(w, n, b.Keys) && Exactly(envs, b)
    ensures ToStep(n).Dict? && "enabled" !in ToStep(n).m && "probability" !in ToStep(n).m
    ensures TypeOf(SubstEach(ToStep(n), envs).m) == Some("loop")
    ensures IsLoop(SubstEach(ToStep(n), envs).m, n.itemVar, FilledItems(n.items, b), SubstEach(List(ToSteps(n.body)), envs))
  {
    LoopFields(n);
    EagerLoop(ToStep(n).m, n.itemVar, n.items, List(ToSteps(n.body)), envs, b);
  }

  /** An enabled step draws a coin that cannot fail it, and runs its handler. */
  lemma EagerToss(w: World, raw: Value, name: string, outer: seq<Env>, current: Env, trace: seq<Event>)
    requires w.coin(trace) <= 1.0 && raw.Dict? && Truthy(Enabled(SubstEach(raw, outer).m)) && "probability" !in raw.m
    requires TypeOf(SubstEach(raw, outer + [current]).m) == Some(name)
    requires name == "loop" || name == "rotate_ip" || name in w.handlers.loopActions
    ensures LegacyStep(w, raw, outer, current, trace)
            == LegacyRun(w, raw, name, outer + [current], trace + [Coin(w.coin(trace))])
  {
  }

  lemma EagerActionEmits(w: World, raw: Value, name: string, outer: seq<Env>, current: Env, trace: seq<Event>)
    requires Benign(w) && PlainAction(w, name)
    requires raw.Dict? && IsAction(raw.m, name) && IsAction(SubstEach(raw, outer + [current]).m, name)
    ensures EmitsTo(LegacyStep(w, raw, outer, current, trace), trace,
                    if Truthy(Enabled(SubstEach(raw, outer).m)) then [SubstEach(raw, outer + [current])] else [])
  {
    var step := SubstEach(raw, outer + [current]).m;
    var x := w.coin(trace);
    if Truthy(Enabled(SubstEach(raw, outer).m)) {
      assert TypeOf(step) == Some(name);
      EagerToss(w, raw, name, outer, current, trace);
      EagerRunEmits(w, raw, name, outer + [current], trace + [Coin(x)]);
      EmitsAfterCoin(LegacyRun(w, raw, name, outer + [current], trace + [Coin(x)]), trace, x, [Dict(step)]);
    } else {
      EagerDisabled(w, raw, outer, current, trace);
    }
  }

  lemma EagerDisabled(w: World, raw: Value, outer: seq<Env>, current: Env, trace: seq<Event>)
    requires raw.Dict? && !Truthy(Enabled(SubstEach(raw, outer).m))
    ensures LegacyStep(w, raw, outer, current, trace) == Ran(false, trace)
  {
  }

  lemma EagerRunEmits(w: World, raw: Value, name: string, envs: seq<Env>, trace: seq<Event>)
    requires raw.Dict? && name != "loop" && IsAction(SubstEach(raw, envs).m, name)
    ensures EmitsTo(LegacyRun(w, raw, name, envs, trace), trace, [SubstEach(raw, envs)])
  {
    var step := SubstEach(raw, envs).m;
    EmittedLog(trace, Act(name, Dict(step), NO_SCOPE, false));
    EmittedLog(trace, Act(name, Dict(step), NO_SCOPE, true));
    assert Get(step, "abort_on_error", Null) == Null;
  }

  lemma LoopRuns(w: World, raw: Value, envs: seq<Env>, trace: seq<Event>)
    requires raw.Dict? && !LegacyLoop(w, raw, envs, trace).raised
    ensures LegacyRun(w, raw, "loop", envs, trace) == LegacyLoop(w, raw, envs, trace)
  {
  }

  lemma EmitsAfterCoin(r: Ran, trace: seq<Event>, x: real, emitted: seq<Value>)
    requires EmitsTo(r, trace + [Coin(x)], emitted)
    ensures EmitsTo(r, trace, emitted)
  {
    EmittedLog(trace, Coin(x));
  }

  lemma {:induction false} EagerLoopEmits(w: World, n: Nest, b: Bindings, envs: seq<Env>, trace: seq<Event>)
    requires n.Loop? && Benign(w) && PlainBindings(b) && WellFormedOne(w, n, b.Keys)
    requires Exactly(envs, b)
    ensures EmitsTo(LegacyLoop(w, ToStep(n), envs, trace), trace, EmitsOne(b, n))
    decreases n, 1, 0
  {
    var steps := List(ToSteps(n.body));
    LoopStepFills(w, n, envs, b);
    SubstEachSize(steps, envs);
    EagerLoopStarts(w, ToStep(n), n.itemVar, FilledItems(n.items, b), SubstEach(steps, envs), envs, trace);
    if n.body == [] {
      EmptyBody(b, n, 0);
    } else if n.items != [] {
      EagerIterations(w, n, b, envs, 0, trace);
    }
  }

  lemma SubstEachSize(v: Value, envs: seq<Env>)
    requires v.List?
    ensures SubstEach(v, envs).List? && |SubstEach(v, envs).vs| == |v.vs|
  {
  }

  lemma EagerLoopStarts(w: World, raw: Value, itemVar: string, items: seq<Value>, steps: Value, envs: seq<Env>, trace: seq<Event>)
    requires raw.Dict? && IsLoop(SubstEach(raw, envs).m, itemVar, items, steps) && itemVar != "" && steps.List?
    ensures LegacyLoop(w, raw, envs, trace)
            == if items == [] || steps.vs == [] then Ran(false, trace)
               else LegacyIterations(w, raw, envs, itemVar, items, 0, trace)
  {
  }

  lemma {:induction false} EmptyBody(b: Bindings, n: Nest, i: nat)
    requires n.Loop? && n.body == [] && i <= |n.items|
    ensures EmitsLoop(b, n, i) == []
    decreases |n.items| - i
  {
    if i < |n.items| {
      EmptyBody(b, n, i + 1);
      var b' := b[n.itemVar := Subst(n.items[i], Bound(b), true)];
      assert Emits(b', []) == [];
    }
  }

  lemma {:induction false} EagerIterations(w: World, n: Nest, b: Bindings, envs: seq<Env>, i: nat, trace: seq<Event>)
    requires n.Loop? && Benign(w) && PlainBindings(b) && WellFormedOne(w, n, b.Keys)
    requires Exactly(envs, b) && i <= |n.items|
    ensures EmitsTo(LegacyIterations(w, ToStep(n), envs, n.itemVar, FilledItems(n.items, b), i, trace),
                    trace, EmitsLoop(b, n, i))
    decreases n, 0, |n.items| - i, 1
  {
    var items := FilledItems(n.items, b);
    if i < |n.items| {
      EagerIteration(w, n, b, envs, i, trace);
      var r := LegacySteps(w, ToSteps(n.body), envs, LoopEnv(w, n.itemVar, items[i], i + 1, |items|), trace);
      EagerIterations(w, n, b, envs, i + 1, r.trace);
      EagerJoin(w, n, envs, items, i, trace, r, Emits(b[n.itemVar := items[i].s], n.body), EmitsLoop(b, n, i + 1));
    } else {
      NoMoreIterations(w, ToStep(n), envs, n.itemVar, items, i, trace);
    }
  }

  lemma {:induction false} EagerIteration(w: World, n: Nest, b: Bindings, envs: seq<Env>, i: nat, trace: seq<Event>)
    requires n.Loop? && Benign(w) && PlainBindings(b) && WellFormedOne(w, n, b.Keys)
    requires Exactly(envs, b) && i < |n.items|
    ensures var items := FilledItems(n.items, b);
            EmitsTo(LegacySteps(w, ToSteps(n.body), envs, LoopEnv(w, n.itemVar, items[i], i + 1, |items|), trace),
                    trace, Emits(b[n.itemVar := items[i].s], n.body))
    decreases n, 0, |n.items| - i, 0
  {
    var items := FilledItems(n.items, b);
    EnterLoop(w, n.itemVar, n.items, b, envs, i);
    EagerEmits(w, n.body, b[n.itemVar := items[i].s], envs, LoopEnv(w, n.itemVar, items[i], i + 1, |items|), trace);
  }

  lemma EagerJoin(w: World, n: Nest, envs: seq<Env>, items: seq<Value>, i: nat, trace: seq<Event>, r: Ran,
                  one: seq<Value>, rest: seq<Value>)
    requires n.Loop? && i < |items|
    requires r == LegacySteps(w, ToSteps(n.body), envs, LoopEnv(w, n.itemVar, items[i], i + 1, |items|), trace)
    requires EmitsTo(r, trace, one) && EmitsTo(LegacyIterations(w, ToStep(n), envs, n.itemVar, items, i + 1, r.trace), r.trace, rest)
    ensures EmitsTo(LegacyIterations(w, ToStep(n), envs, n.itemVar, items, i, trace), trace, one + rest)
  {
    LoopFields(n);
    IterationUnfolds(w, ToStep(n), envs, n.itemVar, items, i, trace, ToSteps(n.body));
    EmitsThen(r, LegacyIterations(w, ToStep(n), envs, n.itemVar, items, i + 1, r.trace), trace, one, rest);
  }

  lemma IterationUnfolds(w: World, raw: Value, envs: seq<Env>, itemVar: string, items: seq<Value>, i: nat,
                         trace: seq<Event>, steps: seq<Value>)
    requires raw.Dict? && i < |items| && Get(raw.m, "steps", Null) == List(steps)
    ensures var r := LegacySteps(w, steps, envs, LoopEnv(w, itemVar, items[i], i + 1, |items|), trace);
            LegacyIterations(w, raw, envs, itemVar, items, i, trace)
            == if r.raised then r else LegacyIterations(w, raw, envs, itemVar, items, i + 1, r.trace)
  {
  }

  lemma NoMoreIterations(w: World, raw: Value, envs: seq<Env>, itemVar: string, items: seq<Value>, i: nat, trace: seq<Event>)
    requires raw.Dict? && i == |items|
    ensures LegacyIterations(w, raw, envs, itemVar, items, i, trace) == Ran(false, trace)
  {
  }

  lemma EnterBindings(b: Bindings, itemVar: string, v: string)
    requires PlainBindings(b) && FreeName(itemVar) && NoBrace(v)
    ensures PlainBindings(b[itemVar := v]) && b[itemVar := v].Keys == b.Keys + {itemVar}
  {
  }

  lemma EnterEnvs(envs: seq<Env>, current: Env, b: Bindings, itemVar: string, v: string)
    requires Exactly(envs, b) && BraceFree(current) && itemVar !in b
    requires forall x :: x != "index" && x != "total" ==> current(x) == if x == itemVar then Some(v) else None
    ensures Exactly(envs + [current], b[itemVar := v])
  {
    var all := envs + [current];
    assert all[..|all| - 1] == envs && all[|all| - 1] == current;
    assert Composed(all) == Outermost(Composed(envs), current);
  }

  lemma LoopEnvBinds(w: World, itemVar: string, v: string, index: nat, total: nat)
    requires Benign(w) && FreeName(itemVar) && NoBrace(v)
    ensures BraceFree(LoopEnv(w, itemVar, Text(v), index, total))
    ensures forall x :: x != "index" && x != "total" ==>
              LoopEnv(w, itemVar, Text(v), index, total)(x) == if x == itemVar then Some(v) else None
  {
  }

  /** The substitution of one more loop binds its item and nothing else of note. */
  lemma EnterLoop(w: World, itemVar: string, items: seq<string>, b: Bindings, envs: seq<Env>, i: nat)
    requires Benign(w) && PlainBindings(b) && FreeName(itemVar) && itemVar !in b
    requires GoodItems(items, b.Keys)
    requires Exactly(envs, b) && i < |items|
    ensures var filled := FilledItems(items, b);
            var b' := b[itemVar := filled[i].s];
            && PlainBindings(b') && b'.Keys == b.Keys + {itemVar}
            && Exactly(envs + [LoopEnv(w, itemVar, filled[i], i + 1, |items|)], b')
  {
    EagerItems(items, envs, b);
    var v := FilledItems(items, b)[i].s;
    LoopEnvBinds(w, itemVar, v, i + 1, |items|);
    EnterBindings(b, itemVar, v);
    EnterEnvs(envs, LoopEnv(w, itemVar, Text(v), i + 1, |items|), b, itemVar, v);
  }

  // ── the environment-based engine ──────────────────────────────

  ghost predicate Holds(vars: map<string, Value>, b: Bindings) {
    forall x :: x in b ==> x in vars && vars[x] == Text(b[x])
  }

  ghost predicate FlowEmitsTo(r: Result, sc: Scope, sh: Shared, b: Bindings, steps: seq<Value>) {
    && r.out.Normal? && r.scope == sc && Holds(r.shared.vars, b)
    && Emitted(r.shared.trace) == Emitted(sh.trace) + steps
  }

  /** A free name is looked up in the variables, whatever the scope holds. */
  lemma FreeNameResolves(w: World, x: string, sc: Scope, sh: Shared)
    requires FreeName(x)
    ensures Resolve(w, x, sc, sh) == Get(sh.vars, x, Null)
  {
    NoStop(x, c => c == '.');
  }

  lemma EnvAt(w: World, sc: Scope, sh: Shared, x: string, v: string)
    requires Resolve(w, x, sc, sh) == Text(v)
    ensures EnvOf(w, sc, sh)(x) == Some(v)
  {
  }

  lemma EnvAgrees(w: World, sc: Scope, sh: Shared, b: Bindings)
    requires PlainBindings(b) && Holds(sh.vars, b)
    ensures forall x :: x in b ==> EnvOf(w, sc, sh)(x) == Some(b[x])
  {
    forall x | x in b ensures EnvOf(w, sc, sh)(x) == Some(b[x]) {
      FreeNameResolves(w, x, sc, sh);
      EnvAt(w, sc, sh, x, b[x]);
    }
  }

  lemma FlowText(t: string, env: Env, b: Bindings)
    requires Closed(t, b.Keys) && PlainBindings(b)
    requires forall x :: x in b ==> env(x) == Some(b[x])
    ensures Interpolate(Text(t), env) == Text(Subst(t, Bound(b), true))
  {
    ClosedFills(t, b, env);
  }

  lemma FlowName(x: string, env: Env)
    requires IsName(x, false)
    ensures Interpolate(Text(x), env) == Text(x)
  {
    NamesAreBraceless(x, false);
    BracelessText(x, env, true);
  }

  lemma {:induction false} FlowValue(v: Value, env: Env, b: Bindings)
    requires GoodParam(v, b.Keys) && PlainBindings(b)
    requires forall x :: x in b ==> env(x) == Some(b[x])
    ensures Interpolate(v, env) == Instance(v, b)
    decreases v
  {
    match v
    case Text(s) => FlowText(s, env, b);
    case Dict(m) =>
      forall k | k in m ensures Interpolate(v, env).m[k] == Instance(m[k], b) {
        FlowValue(m[k], env, b);
      }
      assert Interpolate(v, env).m == Instance(v, b).m;
    case List(vs) =>
      forall i | 0 <= i < |vs| ensures Interpolate(v, env).vs[i] == Instance(vs[i], b) {
        FlowValue(vs[i], env, b);
      }
      assert Interpolate(v, env).vs == Instance(v, b).vs;
    case _ =>
  }

  lemma FlowItems(items: seq<string>, env: Env, b: Bindings)
    requires GoodItems(items, b.Keys) && PlainBindings(b)
    requires forall x :: x in b ==> env(x) == Some(b[x])
    ensures Interpolate(List(Texts(items)), env) == List(FilledItems(items, b))
  {
    forall i | 0 <= i < |items| ensures Interpolate(Text(items[i]), env) == FilledItems(items, b)[i] {
      FlowText(items[i], env, b);
    }
    assert Interpolate(List(Texts(items)), env).vs == FilledItems(items, b);
  }

  lemma FlowLoop(m: map<string, Value>, itemVar: string, items: seq<string>, steps: Value, env: Env, b: Bindings)
    requires IsLoop(m, itemVar, Texts(items), steps) && IsName(itemVar, false)
    requires GoodItems(items, b.Keys) && PlainBindings(b)
    requires forall x :: x in b ==> env(x) == Some(b[x])
    ensures IsLoop(InterpolateDict(m, env), itemVar, FilledItems(items, b), steps)
  {
    FlowName("loop", env);
    FlowName(itemVar, env);
    FlowItems(items, env, b);
    FlowFields(m, env);
  }

  lemma FlowFields(m: map<string, Value>, env: Env)
    requires {"type", "item_var", "items", "shuffle", "steps"} <= m.Keys
    ensures var r := InterpolateDict(m, env);
            && r.Keys == m.Keys
            && r["type"] == Interpolate(m["type"], env) && r["item_var"] == Interpolate(m["item_var"], env)
            && r["items"] == Interpolate(m["items"], env) && r["shuffle"] == Interpolate(m["shuffle"], env)
            && r["steps"] == m["steps"]
  {
  }

  /** A step without a coin of its own is dispatched at once, or skipped. */
  lemma FlowUntossed(w: World, m: map<string, Value>, sc: Scope, sh: Shared)
    requires "probability" !in m
    ensures RunStep(w, Dict(m), sc, sh)
            == if Truthy(Enabled(m)) then DispatchOn(w, Dict(m), InterpolateDict(m, EnvOf(w, sc, sh)), sc, sh)
               else Result(Normal, sc, sh)
  {
    GatedStep(w, Dict(m), 1.0, sc, sh);
  }

  lemma FlowActionEmits(w: World, raw: Value, step: map<string, Value>, name: string, b: Bindings, sc: Scope, sh: Shared)
    requires Benign(w) && PlainAction(w, name) && PlainBindings(b) && Holds(sh.vars, b)
    requires raw.Dict? && IsAction(step, name) && (name == "rotate_ip" ==> Pausing(Dict(step)))
    ensures FlowEmitsTo(DispatchOn(w, raw, step, sc, sh), sc, sh, b, [Dict(step)])
  {
    assert TypeOf(step) == Some(name);
    assert DispatchOn(w, raw, step, sc, sh) == HandlerLeaf(w, name, step, sc, sh);
    LeafEmits(w, name, step, sc, sh, b);
  }

  /** A call whose exception, if any, is swallowed. */
  lemma LeafIs(w: World, name: string, step: map<string, Value>, sc: Scope, sh: Shared)
    requires name !in w.handlers.actions && name in w.handlers.externals + w.handlers.loopActions
    requires Get(step, "abort_on_error", Null) == Null
    requires name in w.handlers.externals ==> !w.handler(sh.trace, name, Dict(step), sc, sh.vars).raises
    ensures var reply := w.handler(sh.trace, name, Dict(step), sc, sh.vars);
            HandlerLeaf(w, name, step, sc, sh)
            == Result(Normal, sc, Log(sh.(vars := sh.vars + reply.writes), Act(name, Dict(step), sc, reply.raises)))
  {
  }

  lemma LeafEmits(w: World, name: string, step: map<string, Value>, sc: Scope, sh: Shared, b: Bindings)
    requires name !in w.handlers.actions && name in w.handlers.externals + w.handlers.loopActions
    requires PlainBindings(b) && Holds(sh.vars, b) && Get(step, "abort_on_error", Null) == Null
    requires var reply := w.handler(sh.trace, name, Dict(step), sc, sh.vars);
             Harmless(reply) && (name in w.handlers.externals ==> !reply.raises)
    ensures FlowEmitsTo(HandlerLeaf(w, name, step, sc, sh), sc, sh, b, [Dict(step)])
  {
    var reply := w.handler(sh.trace, name, Dict(step), sc, sh.vars);
    EmittedLog(sh.trace, Act(name, Dict(step), sc, reply.raises));
    LeafIs(w, name, step, sc, sh);
    assert Holds(sh.vars + reply.writes, b);
  }

  lemma FlowLoopStarts(w: World, raw: Value, step: map<string, Value>, itemVar: string, items: seq<Value>, steps: Value, sc: Scope, sh: Shared)
    requires raw.Dict? && IsLoop(step, itemVar, items, steps) && FreeName(itemVar)
    ensures DispatchOn(w, raw, step, sc, sh) == RunItems(w, raw, items, Some(itemVar), sc, sh)
  {
    assert TypeOf(step) == Some("loop") && KindOf("loop") == ForeachKind;
    assert ItemVar(step) == Some(Some(itemVar));
    assert Items(w, Get(step, "items", Null), sc, sh) == items;
    assert DispatchOn(w, raw, step, sc, sh) == RunForeach(w, raw, step, sc, sh);
    assert RunForeachFrom(w, raw, step, items, sc, sh) == RunItems(w, raw, items, Some(itemVar), sc, sh);
  }

  lemma FlowEmitsThen(r: Result, r': Result, sc: Scope, sh: Shared, b: Bindings, one: seq<Value>, rest: seq<Value>)
    requires FlowEmitsTo(r, sc, sh, b, one) && FlowEmitsTo(r', sc, r.shared, b, rest)
    ensures FlowEmitsTo(r', sc, sh, b, one + rest)
  {
  }

  lemma {:induction false} FlowEmits(w: World, ns: seq<Nest>, b: Bindings, sc: Scope, sh: Shared)
    requires Benign(w) && PlainBindings(b) && WellFormed(w, ns, b.Keys) && Holds(sh.vars, b)
    ensures FlowEmitsTo(RunSteps(w, ToSteps(ns), sc, sh), sc, sh, b, Emits(b, ns))
    decreases ns, 2
  {
    if ns != [] {
      ToStepsSplit(ns);
      FlowEmitsOne(w, ns[0], b, sc, sh);
      var r := RunStep(w, ToStep(ns[0]), sc, sh);
      FlowEmits(w, ns[1..], b, sc, r.shared);
      FlowEmitsThen(r, RunSteps(w, ToSteps(ns[1..]), sc, r.shared), sc, sh, b, EmitsOne(b, ns[0]), Emits(b, ns[1..]));
    }
  }

  lemma FlowActionCase(w: World, n: Nest, b: Bindings, sc: Scope, sh: Shared)
    requires n.Action? && Benign(w) && PlainBindings(b) && WellFormedOne(w, n, b.Keys) && Holds(sh.vars, b)
    ensures FlowEmitsTo(RunStep(w, ToStep(n), sc, sh), sc, sh, b, EmitsOne(b, n))
  {
    ActionStep(n, b);
    FlowActionRuns(w, ToStep(n), n.name, b, sc, sh);
  }

  lemma FlowActionRuns(w: World, raw: Value, name: string, b: Bindings, sc: Scope, sh: Shared)
    requires Benign(w) && PlainAction(w, name) && PlainBindings(b) && Holds(sh.vars, b)
    requires raw.Dict? && IsAction(raw.m, name) && GoodParam(raw, b.Keys)
    requires IsAction(Instance(raw, b).m, name) && (name == "rotate_ip" ==> Pausing(Instance(raw, b)))
    ensures FlowEmitsTo(RunStep(w, raw, sc, sh), sc, sh, b, if Truthy(Enabled(raw.m)) then [Instance(raw, b)] else [])
  {
    FlowUntossed(w, raw.m, sc, sh);
    if Truthy(Enabled(raw.m)) {
      EnvAgrees(w, sc, sh, b);
      FlowValue(raw, EnvOf(w, sc, sh), b);
      FlowActionEmits(w, raw, Instance(raw, b).m, name, b, sc, sh);
    }
  }

  lemma FlowLoopCase(w: World, n: Nest, b: Bindings, sc: Scope, sh: Shared)
    requires n.Loop? && PlainBindings(b) && WellFormedOne(w, n, b.Keys) && Holds(sh.vars, b)
    ensures RunStep(w, ToStep(n), sc, sh) == RunItems(w, ToStep(n), FilledItems(n.items, b), Some(n.itemVar), sc, sh)
  {
    LoopFields(n);
    FlowLoopRuns(w, ToStep(n).m, n.itemVar, n.items, List(ToSteps(n.body)), b, sc, sh);
  }

  lemma FlowLoopRuns(w: World, m: map<string, Value>, itemVar: string, items: seq<string>, steps: Value, b: Bindings,
                     sc: Scope, sh: Shared)
    requires IsLoop(m, itemVar, Texts(items), steps) && FreeName(itemVar) && GoodItems(items, b.Keys)
    requires PlainBindings(b) && Holds(sh.vars, b)
    ensures RunStep(w, Dict(m), sc, sh) == RunItems(w, Dict(m), FilledItems(items, b), Some(itemVar), sc, sh)
  {
    EnvAgrees(w, sc, sh, b);
    FlowLoop(m, itemVar, items, steps, EnvOf(w, sc, sh), b);
    FlowLoopStep(w, m, itemVar, FilledItems(items, b), steps, sc, sh);
  }

  lemma FlowLoopStep(w: World, m: map<string, Value>, itemVar: string, items: seq<Value>, steps: Value, sc: Scope, sh: Shared)
    requires "enabled" !in m && "probability" !in m && FreeName(itemVar)
    requires IsLoop(InterpolateDict(m, EnvOf(w, sc, sh)), itemVar, items, steps)
    ensures RunStep(w, Dict(m), sc, sh) == RunItems(w, Dict(m), items, Some(itemVar), sc, sh)
  {
    FlowUntossed(w, m, sc, sh);
    FlowLoopStarts(w, Dict(m), InterpolateDict(m, EnvOf(w, sc, sh)), itemVar, items, steps, sc, sh);
  }

  lemma {:induction false} FlowEmitsOne(w: World, n: Nest, b: Bindings, sc: Scope, sh: Shared)
    requires Benign(w) && PlainBindings(b) && WellFormedOne(w, n, b.Keys) && Holds(sh.vars, b)
    ensures FlowEmitsTo(RunStep(w, ToStep(n), sc, sh), sc, sh, b, EmitsOne(b, n))
    decreases n, 2
  {
    match n
    case Action(_, _) => FlowActionCase(w, n, b, sc, sh);
    case Loop(_, items, _) =>
      FlowLoopCase(w, n, b, sc, sh);
      FlowIterations(w, n, b, 0, sc, sh);
      assert FilledItems(items, b)[0..] == FilledItems(items, b);
  }

  lemma {:induction false} FlowIterations(w: World, n: Nest, b: Bindings, i: nat, sc: Scope, sh: Shared)
    requires n.Loop? && Benign(w) && PlainBindings(b) && WellFormedOne(w, n, b.Keys) && Holds(sh.vars, b)
    requires i <= |n.items|
    ensures FlowEmitsTo(RunItems(w, ToStep(n), FilledItems(n.items, b)[i..], Some(n.itemVar), sc, sh), sc, sh, b, EmitsLoop(b, n, i))
    decreases n, 0, |n.items| - i
  {
    var items := FilledItems(n.items, b);
    if i < |n.items| {
      var v := items[i].s;
      var b' := b[n.itemVar := v];
      ItemIsBraceless(n, b, i);
      EnterBindings(b, n.itemVar, v);
      var sh1 := SetVar(sh, n.itemVar, items[i]);
      EnterHolds(sh, b, n.itemVar, v);
      var child := sc.(item := items[i]);
      FlowEmits(w, n.body, b', child, sh1);
      var r := RunSteps(w, ToSteps(n.body), child, sh1);
      LeaveHolds(r.shared.vars, b, n.itemVar, v);
      FlowIterations(w, n, b, i + 1, sc, r.shared);
      BodyRuns(w, n, child, sh1);
      ItemUnfolds(w, ToStep(n), items, i, n.itemVar, sc, sh);
      IterationsJoin(r, RunItems(w, ToStep(n), items[i + 1..], Some(n.itemVar), sc, r.shared), child, sc, sh, sh1, b', b,
                     Emits(b', n.body), EmitsLoop(b, n, i + 1));
    } else {
      LoopFields(n);
      NoItemsLeft(w, ToStep(n), items, n.itemVar, sc, sh);
    }
  }

  lemma EnterHolds(sh: Shared, b: Bindings, x: string, v: string)
    requires Holds(sh.vars, b)
    ensures Holds(SetVar(sh, x, Text(v)).vars, b[x := v]) && SetVar(sh, x, Text(v)).trace == sh.trace
  {
  }

  lemma LeaveHolds(vars: map<string, Value>, b: Bindings, x: string, v: string)
    requires Holds(vars, b[x := v]) && x !in b
    ensures Holds(vars, b)
  {
    forall y | y in b ensures y in vars && vars[y] == Text(b[y]) {
      assert y in b[x := v];
    }
  }

  lemma ItemUnfolds(w: World, raw: Value, items: seq<Value>, i: nat, itemVar: string, sc: Scope, sh: Shared)
    requires raw.Dict? && i < |items|
    requires RunBody(w, raw, "steps", sc.(item := items[i]), SetVar(sh, itemVar, items[i])).out.Normal?
    ensures RunItems(w, raw, items[i..], Some(itemVar), sc, sh)
            == RunItems(w, raw, items[i + 1..], Some(itemVar), sc,
                        RunBody(w, raw, "steps", sc.(item := items[i]), SetVar(sh, itemVar, items[i])).shared)
  {
    assert items[i..][0] == items[i] && items[i..][1..] == items[i + 1..];
  }

  lemma NoItemsLeft(w: World, raw: Value, items: seq<Value>, itemVar: string, sc: Scope, sh: Shared)
    requires raw.Dict?
    ensures RunItems(w, raw, items[|items|..], Some(itemVar), sc, sh) == Result(Normal, sc, sh)
  {
  }

  lemma IterationsJoin(r: Result, r': Result, child: Scope, sc: Scope, sh: Shared, sh1: Shared, b': Bindings, b: Bindings,
                       one: seq<Value>, rest: seq<Value>)
    requires FlowEmitsTo(r, child, sh1, b', one) && sh1.trace == sh.trace
    requires FlowEmitsTo(r', sc, r.shared, b, rest)
    ensures FlowEmitsTo(r', sc, sh, b, one + rest)
  {
  }

  lemma ItemIsBraceless(n: Nest, b: Bindings, i: nat)
    requires n.Loop? && GoodItems(n.items, b.Keys) && PlainBindings(b) && i < |n.items|
    ensures NoBrace(FilledItems(n.items, b)[i].s)
  {
    BracelessFills(Scan(n.items[i], true), b);
  }

  lemma BodyRuns(w: World, n: Nest, sc: Scope, sh: Shared)
    requires n.Loop?
    ensures ToStep(n).Dict? && RunBody(w, ToStep(n), "steps", sc, sh) == RunSteps(w, ToSteps(n.body), sc, sh)
  {
    LoopFields(n);
  }

  lemma NothingBound()
    ensures var none: Bindings := map[];
            PlainBindings(none) && none.Keys == {} && Exactly([] + [Inert()], none)
  {
    var inert := [Inert()];
    assert [] + inert == inert && inert[..0] == [];
    assert Composed(inert) == Outermost(Composed(inert[..0]), Inert());
  }

  lemma EagerEmitsAll(w: World, ns: seq<Nest>, trace: seq<Event>)
    requires Benign(w) && WellFormed(w, ns, {})
    ensures EmitsTo(LegacySteps(w, ToSteps(ns), [], Inert(), trace), trace, Emits(map[], ns))
  {
    NothingBound();
    EagerEmits(w, ns, map[], [], Inert(), trace);
  }

  /** From any scope, variables and flags, such as those of the steps that ran before. */
  lemma FlowEmitsAll(w: World, ns: seq<Nest>, sc: Scope, sh: Shared)
    requires Benign(w) && WellFormed(w, ns, {})
    ensures FlowEmitsTo(RunSteps(w, ToSteps(ns), sc, sh), sc, sh, map[], Emits(map[], ns))
  {
    NothingBound();
    FlowEmits(w, ns, map[], sc, sh);
  }

  /** The two engines perform the same instantiated actions in the same order. */
  lemma EnginesAgree(w: World, ns: seq<Nest>, trace: seq<Event>, sc: Scope, sh: Shared)
    requires Benign(w) && WellFormed(w, ns, {})
    ensures var legacy := LegacySteps(w, ToSteps(ns), [], Inert(), trace);
            var flow := RunSteps(w, ToSteps(ns), sc, sh);
            && !legacy.raised && flow.out.Normal? && flow.scope == sc
            && Emitted(legacy.trace) == Emitted(trace) + Emits(map[], ns)
            && Emitted(flow.shared.trace) == Emitted(sh.trace) + Emits(map[], ns)
  {
    EagerEmitsAll(w, ns, trace);
    FlowEmitsAll(w, ns, sc, sh);
  }
}
