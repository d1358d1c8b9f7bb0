/** Interpolation of whole steps: what it leaves alone and when it is idempotent. */
module FlowTemplates {
  import opened Json
  import opened Templates
  import opened Flow

  /** The nested step lists of two steps agree. */
  predicate SameBodies(step: map<string, Value>, raw: map<string, Value>) {
    forall k :: k in NESTED ==> Get(step, k, Null) == Get(raw, k, Null)
  }

  lemma InterpolateKeepsBodies(raw: Value, env: Env)
    requires raw.Dict?
    ensures SameBodies(Interpolate(raw, env).m, raw.m)
  {
  }

  /** One step down into a value. */
  datatype Hop = Key(name: string) | Index(i: nat)

  function Reach(v: Value, path: seq<Hop>): Option<Value>
    decreases |path|
  {
    if path == [] then Some(v)
    else match path[0]
      case Key(k) => if v.Dict? && k in v.m then Reach(v.m[k], path[1..]) else None
      case Index(i) => if v.List? && i < |v.vs| then Reach(v.vs[i], path[1..]) else None
  }

  /** Steps nested anywhere below a container, behind dict keys and list positions alike,
      come out of its interpolation as they went in: only the scope that runs them
      instantiates them. */
  lemma {:induction false} InterpolationSkipsNested(v: Value, path: seq<Hop>, key: string, env: Env)
    requires key in NESTED && forall h :: h in path && h.Key? ==> h.name !in NESTED
    requires Reach(v, path + [Key(key)]).Some?
    ensures Reach(Interpolate(v, env), path + [Key(key)]) == Reach(v, path + [Key(key)])
    decreases |path|
  {
    var whole := path + [Key(key)];
    if path == [] {
      assert whole[0] == Key(key) && Interpolate(v, env).m[key] == v.m[key];
    } else {
      assert path[0] in path && whole[0] == path[0] && whole[1..] == path[1..] + [Key(key)];
      InterpolationSkipsNested(if path[0].Key? then v.m[path[0].name] else v.vs[path[0].i], path[1..], key, env);
    }
  }

  // ── interpolating twice ───────────────────────────────────────

  /** The environment that leaves every placeholder as it stands. */
  function Inert(): Env {
    name => None
  }

  /** No text that interpolation visits has a stray brace that captures a placeholder. */
  predicate Quiet(v: Value) {
    match v
    case Text(s) => !Capturable(s, true)
    case Dict(m) => forall k :: k in m && k !in NESTED ==> Quiet(m[k])
    case List(vs) => forall i :: 0 <= i < |vs| ==> Quiet(vs[i])
    case _ => true
  }

  /** The placeholders that occur in those texts get brace-free values. Others, such as the
      path of the whole ad, may print with braces. */
  predicate PlainlyFilled(v: Value, env: Env) {
    match v
    case Text(s) => PlainOn(Scan(s, true), env)
    case Dict(m) => forall k :: k in m && k !in NESTED ==> PlainlyFilled(m[k], env)
    case List(vs) => forall i :: 0 <= i < |vs| ==> PlainlyFilled(vs[i], env)
    case _ => true
  }

  lemma {:induction false} FillInert(ts: seq<Token>)
    ensures Fill(ts, Inert()) == ts
  {
    if ts != [] {
      FillInert(ts[1..]);
    }
  }

  lemma {:induction false} InertInterpolation(v: Value)
    ensures Interpolate(v, Inert()) == v
  {
    match v
    case Text(s) =>
      FillInert(Scan(s, true));
      ScanSpells(s, true);
    case Dict(m) =>
      forall k | k in m ensures Interpolate(m[k], Inert()) == m[k] {
        InertInterpolation(m[k]);
      }
      assert Interpolate(v, Inert()).m == m;
    case List(vs) =>
      forall i | 0 <= i < |vs| ensures Interpolate(vs[i], Inert()) == vs[i] {
        InertInterpolation(vs[i]);
      }
      assert Interpolate(v, Inert()).vs == vs;
    case _ =>
  }

  lemma {:induction false} InterpolationIsIdempotent(v: Value, env: Env)
    requires Quiet(v) && PlainlyFilled(v, env)
    ensures Interpolate(Interpolate(v, env), env) == Interpolate(v, env)
  {
    var once := Interpolate(v, env);
    match v
    case Text(s) => SecondPassChangesNothing(s, env, true);
    case Dict(m) =>
      forall k | k in m ensures Interpolate(once, env).m[k] == once.m[k] {
        if k !in NESTED {
          InterpolationIsIdempotent(m[k], env);
        }
      }
      assert Interpolate(once, env).m == once.m;
    case List(vs) =>
      forall i | 0 <= i < |vs| ensures Interpolate(once, env).vs[i] == once.vs[i] {
        InterpolationIsIdempotent(vs[i], env);
      }
      assert Interpolate(once, env).vs == once.vs;
    case _ =>
  }

  lemma SecondPassIsInert(v: Value, env: Env)
    requires Quiet(v) && PlainlyFilled(v, env)
    ensures Interpolate(Interpolate(v, env), env) == Interpolate(Interpolate(v, env), Inert())
  {
    InterpolationIsIdempotent(v, env);
    InertInterpolation(Interpolate(v, env));
  }

  lemma ArgumentSettles(m: map<string, Value>, key: string, env: Env)
    requires Quiet(Dict(m)) && PlainlyFilled(Dict(m), env) && key !in NESTED
    ensures var arg := Get(InterpolateDict(m, env), key, Null);
            Interpolate(arg, env) == Interpolate(arg, Inert())
  {
    if key in m {
      SecondPassIsInert(m[key], env);
    }
  }

  /** The step loop interpolates a condition and its evaluation interpolates the value and
      the selector again; the verdict is the same as if it did not. */
  lemma ConditionIsInterpolatedOnce(w: World, cond: Value, sc: Scope, sh: Shared)
    requires Quiet(cond) && PlainlyFilled(cond, EnvOf(w, sc, sh))
    ensures var once := Interpolate(cond, EnvOf(w, sc, sh));
            EvalCondition(w, once, sc, sh) == EvalWith(w, once, Inert(), sc, sh)
  {
    SecondPassIsIdle(w, cond, EnvOf(w, sc, sh), sc, sh);
  }

  lemma {:induction false} SecondPassIsIdle(w: World, cond: Value, env: Env, sc: Scope, sh: Shared)
    requires Quiet(cond) && PlainlyFilled(cond, env)
    ensures EvalWith(w, Interpolate(cond, env), env, sc, sh) == EvalWith(w, Interpolate(cond, env), Inert(), sc, sh)
    decreases cond, 0
  {
    if cond.Dict? {
      var once := InterpolateDict(cond.m, env);
      ArgumentSettles(cond.m, "value", env);
      ArgumentSettles(cond.m, "selector", env);
      var cs := Get(cond.m, "conditions", Null);
      assert Get(once, "conditions", Null) == Interpolate(cs, env);
      if cs.List? {
        assert "conditions" in cond.m && Quiet(cs) && PlainlyFilled(cs, env);
        SecondPassesAreIdle(w, cs.vs, true, env, sc, sh);
        SecondPassesAreIdle(w, cs.vs, false, env, sc, sh);
      }
      VerdictFollowsArguments(w, once, env, Inert(), sc, sh);
    }
  }

  /** The second pass can only matter through the arguments it interpolates. */
  lemma VerdictFollowsArguments(w: World, once: map<string, Value>, env: Env, env': Env, sc: Scope, sh: Shared)
    requires Interpolate(Get(once, "value", Null), env) == Interpolate(Get(once, "value", Null), env')
    requires Interpolate(Get(once, "selector", Null), env) == Interpolate(Get(once, "selector", Null), env')
    requires var cs := Get(once, "conditions", Null);
             cs.List? ==> forall stop :: EvalUntil(w, cs.vs, stop, env, sc, sh) == EvalUntil(w, cs.vs, stop, env', sc, sh)
    ensures EvalWith(w, Dict(once), env, sc, sh) == EvalWith(w, Dict(once), env', sc, sh)
  {
  }

  function InterpolateAll(vs: seq<Value>, env: Env): seq<Value> {
    Interpolate(List(vs), env).vs
  }

  lemma {:induction false} SecondPassesAreIdle(w: World, cs: seq<Value>, stop: bool, env: Env, sc: Scope, sh: Shared)
    requires Quiet(List(cs)) && PlainlyFilled(List(cs), env)
    ensures EvalUntil(w, InterpolateAll(cs, env), stop, env, sc, sh)
            == EvalUntil(w, InterpolateAll(cs, env), stop, Inert(), sc, sh)
    decreases cs, 1
  {
    if cs != [] {
      SecondPassIsIdle(w, cs[0], env, sc, sh);
      assert Quiet(List(cs[1..])) && PlainlyFilled(List(cs[1..]), env);
      SecondPassesAreIdle(w, cs[1..], stop, env, sc, sh);
      assert InterpolateAll(cs, env)[1..] == InterpolateAll(cs[1..], env);
    }
  }
}
