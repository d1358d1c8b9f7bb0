/** What the condition language of `if` steps means: negation, the two compositions, and
    the classes of ads. */
module FlowConditions {
  import opened Json
  import opened Strings
  import opened Templates
  import opened Flow
  import opened FlowSemantics
  import opened FlowLaws

  // ── negation ──────────────────────────────────────────────────

  /** The condition with its `negate` switch turned over. */
  function Negated(cond: Value): (r: Value)
    requires cond.Dict?
    ensures r.Dict? && r.m != map[]
  {
    var m := cond.m["negate" := Bool(!Truthy(Get(cond.m, "negate", Null)))];
    assert "negate" in m;
    Dict(m)
  }

  function Not(verdict: Option<bool>): Option<bool> {
    match verdict
    case None => None
    case Some(b) => Some(!b)
  }

  lemma KindReadsItsArguments(w: World, kind: string, m: map<string, Value>, m': map<string, Value>, value: Value,
                              selector: Value, sc: Scope, sh: Shared)
    requires Get(m, "value", Num(1.0)) == Get(m', "value", Num(1.0))
    requires Get(m, "timeout", Null) == Get(m', "timeout", Null) && Get(m, "var", Null) == Get(m', "var", Null)
    ensures EvalKind(w, kind, m, value, selector, sc, sh) == EvalKind(w, kind, m', value, selector, sc, sh)
  {
    assert PathArg(w, m, sc, sh) == PathArg(w, m', sc, sh);
  }

  /** What a truthy condition yields before its `negate` switch. */
  function Bare(w: World, m: map<string, Value>, again: Env, sc: Scope, sh: Shared): Option<bool> {
    var k := Get(m, "kind", Null);
    var kind := if !Truthy(k) then "always" else if k.Text? then k.s else "?";
    var cs := Get(m, "conditions", Null);
    if kind == "and" || kind == "or" then
      if !Truthy(cs) then Some(kind == "and")
      else if !cs.List? then None
      else EvalUntil(w, cs.vs, kind == "or", again, sc, sh)
    else
      EvalKind(w, kind, m, Interpolate(Get(m, "value", Null), again), Interpolate(Get(m, "selector", Null), again), sc, sh)
  }

  lemma BareOrNegated(w: World, m: map<string, Value>, again: Env, sc: Scope, sh: Shared)
    requires m != map[]
    ensures EvalWith(w, Dict(m), again, sc, sh)
            == if Truthy(Get(m, "negate", Null)) then Not(Bare(w, m, again, sc, sh)) else Bare(w, m, again, sc, sh)
  {
  }

  lemma BareIgnoresNegate(w: World, m: map<string, Value>, v: Value, again: Env, sc: Scope, sh: Shared)
    ensures Bare(w, m["negate" := v], again, sc, sh) == Bare(w, m, again, sc, sh)
  {
    var m' := m["negate" := v];
    var k := Get(m, "kind", Null);
    var kind := if !Truthy(k) then "always" else if k.Text? then k.s else "?";
    assert Get(m', "kind", Null) == k && Get(m', "conditions", Null) == Get(m, "conditions", Null);
    KindReadsItsArguments(w, kind, m, m', Interpolate(Get(m, "value", Null), again),
                          Interpolate(Get(m, "selector", Null), again), sc, sh);
  }

  lemma EmptyIsAlways(w: World, again: Env, sc: Scope, sh: Shared)
    ensures EvalWith(w, Dict(map[]), again, sc, sh) == Some(true) == Bare(w, map[], again, sc, sh)
  {
  }

  /** Turning the switch over turns the verdict over, for every kind of condition and also
      for the empty one; an evaluation that raises still raises. */
  lemma NegationFlips(w: World, cond: Value, again: Env, sc: Scope, sh: Shared)
    requires cond.Dict?
    ensures EvalWith(w, Negated(cond), again, sc, sh) == Not(EvalWith(w, cond, again, sc, sh))
  {
    BareIgnoresNegate(w, cond.m, Bool(!Truthy(Get(cond.m, "negate", Null))), again, sc, sh);
    BareOrNegated(w, Negated(cond).m, again, sc, sh);
    if cond.m == map[] {
      EmptyIsAlways(w, again, sc, sh);
    } else {
      BareOrNegated(w, cond.m, again, sc, sh);
    }
  }

  // ── composition ───────────────────────────────────────────────

  function NegatedAll(cs: seq<Value>): (r: seq<Value>)
    requires forall i :: 0 <= i < |cs| ==> cs[i].Dict?
    ensures |r| == |cs| && forall i :: 0 <= i < |cs| ==> r[i] == Negated(cs[i])
  {
    seq(|cs|, i requires 0 <= i < |cs| => Negated(cs[i]))
  }

  lemma {:induction false} UntilFlips(w: World, cs: seq<Value>, stop: bool, again: Env, sc: Scope, sh: Shared)
    requires forall i :: 0 <= i < |cs| ==> cs[i].Dict?
    ensures EvalUntil(w, NegatedAll(cs), !stop, again, sc, sh) == Not(EvalUntil(w, cs, stop, again, sc, sh))
    decreases |cs|
  {
    if cs != [] {
      assert NegatedAll(cs)[0] == Negated(cs[0]) && NegatedAll(cs)[1..] == NegatedAll(cs[1..]);
      NegationFlips(w, cs[0], again, sc, sh);
      UntilFlips(w, cs[1..], stop, again, sc, sh);
    }
  }

  function Composite(kind: string, cs: seq<Value>): Value {
    Dict(map["kind" := Text(kind), "conditions" := List(cs)])
  }

  lemma CompositeIs(w: World, kind: string, cs: seq<Value>, again: Env, sc: Scope, sh: Shared)
    requires kind == "and" || kind == "or"
    ensures EvalWith(w, Composite(kind, cs), again, sc, sh) == EvalUntil(w, cs, kind == "or", again, sc, sh)
  {
    var m := Composite(kind, cs).m;
    assert "kind" in m && Get(m, "kind", Null) == Text(kind);
    assert Get(m, "conditions", Null) == List(cs) && Get(m, "negate", Null) == Null;
    BareOrNegated(w, m, again, sc, sh);
  }

  /** The negation of an `and` is the `or` of the negations, and the other way round: the
      evaluation stops, or raises, at the same sub-condition. */
  lemma DeMorgan(w: World, cs: seq<Value>, again: Env, sc: Scope, sh: Shared)
    requires forall i :: 0 <= i < |cs| ==> cs[i].Dict?
    ensures EvalWith(w, Negated(Composite("and", cs)), again, sc, sh) == EvalWith(w, Composite("or", NegatedAll(cs)), again, sc, sh)
    ensures EvalWith(w, Negated(Composite("or", cs)), again, sc, sh) == EvalWith(w, Composite("and", NegatedAll(cs)), again, sc, sh)
  {
    NegationFlips(w, Composite("and", cs), again, sc, sh);
    NegationFlips(w, Composite("or", cs), again, sc, sh);
    CompositeIs(w, "and", cs, again, sc, sh);
    CompositeIs(w, "or", cs, again, sc, sh);
    CompositeIs(w, "and", NegatedAll(cs), again, sc, sh);
    CompositeIs(w, "or", NegatedAll(cs), again, sc, sh);
    UntilFlips(w, cs, false, again, sc, sh);
    UntilFlips(w, cs, true, again, sc, sh);
  }

  /** `and` and `or` over conditions of which none raises are the quantifiers. */
  lemma {:induction false} UntilIsQuantifier(w: World, cs: seq<Value>, stop: bool, again: Env, sc: Scope, sh: Shared)
    requires forall i :: 0 <= i < |cs| ==> EvalWith(w, cs[i], again, sc, sh).Some?
    ensures EvalUntil(w, cs, stop, again, sc, sh).Some?
    ensures EvalUntil(w, cs, stop, again, sc, sh).value == stop
            <==> exists i :: 0 <= i < |cs| && EvalWith(w, cs[i], again, sc, sh) == Some(stop)
    decreases |cs|
  {
    if cs != [] {
      assert EvalWith(w, cs[0], again, sc, sh).Some?;
      assert forall i :: 0 <= i < |cs| - 1 ==> cs[1..][i] == cs[i + 1];
      UntilIsQuantifier(w, cs[1..], stop, again, sc, sh);
      if exists i :: 0 < i < |cs| && EvalWith(w, cs[i], again, sc, sh) == Some(stop) {
        var i :| 0 < i < |cs| && EvalWith(w, cs[i], again, sc, sh) == Some(stop);
        assert EvalWith(w, cs[1..][i - 1], again, sc, sh) == Some(stop);
      }
    }
  }

  // ── the classes of ads ────────────────────────────────────────

  function Class(w: World, kind: string, sc: Scope, sh: Shared): Option<bool> {
    EvalKind(w, kind, map[], Null, Null, sc, sh)
  }

  /** For an ad with a domain, external is just not mine, and a competitor is external and
      no target. An ad without one is neither. */
  lemma AdClasses(w: World, sc: Scope, sh: Shared)
    ensures Class(w, "ad_is_mine", sc, sh).Some? && Class(w, "ad_is_external", sc, sh).Some?
    ensures Class(w, "ad_is_target", sc, sh).Some? && Class(w, "ad_is_competitor", sc, sh).Some?
    ensures AdDomain(sc.ad) != "" ==>
              (Class(w, "ad_is_external", sc, sh).value <==> !Class(w, "ad_is_mine", sc, sh).value)
    ensures Class(w, "ad_is_competitor", sc, sh).value
            <==> Class(w, "ad_is_external", sc, sh).value && !Class(w, "ad_is_target", sc, sh).value
    ensures AdDomain(sc.ad) == "" ==> !Class(w, "ad_is_external", sc, sh).value && !Class(w, "ad_is_competitor", sc, sh).value
  {
  }

  /** In a branch for competitors the gate skips every action reserved for targets. */
  lemma CompetitorBranchSkipsTargets(w: World, step: map<string, Value>, sc: Scope, sh: Shared)
    requires Class(w, "ad_is_competitor", sc, sh) == Some(true) && Truthy(Get(step, "only_on_target", Null))
    ensures GateSkips(w.myDomains, step, sc.ad)
  {
    assert Class(w, "ad_is_competitor", sc, sh) == Some(AdDomain(sc.ad) != "" && !Under(Lower(AdDomain(sc.ad)), LowerAll(w.myDomains)) && !Truthy(Field(sc.ad, "is_target")));
    assert Truthy(sc.ad);
  }

  lemma CleanAdIsExternal(w: World, sc: Scope, sh: Shared)
    requires CleanScope(ForeignLaw(w.myDomains), sc) && sc.ad != Null
    ensures Class(w, "ad_is_mine", sc, sh) == Some(false) && Class(w, "ad_is_external", sc, sh) == Some(true)
  {
    AdClasses(w, sc, sh);
  }

  lemma MineReadsTheAd(w: World, m: map<string, Value>, value: Value, selector: Value, sc: Scope, sh: Shared)
    ensures EvalKind(w, "ad_is_mine", m, value, selector, sc, sh) == Class(w, "ad_is_mine", sc, sh)
  {
  }

  lemma ExternalReadsTheAd(w: World, m: map<string, Value>, value: Value, selector: Value, sc: Scope, sh: Shared)
    ensures EvalKind(w, "ad_is_external", m, value, selector, sc, sh) == Class(w, "ad_is_external", sc, sh)
  {
  }

  /** A condition of one of these kinds asks for the class of the ad. */
  lemma ClassVerdict(w: World, m: map<string, Value>, kind: string, again: Env, sc: Scope, sh: Shared)
    requires Get(m, "kind", Null) == Text(kind) && (kind == "ad_is_mine" || kind == "ad_is_external")
    ensures Bare(w, m, again, sc, sh) == Class(w, kind, sc, sh)
  {
    var value, selector := Interpolate(Get(m, "value", Null), again), Interpolate(Get(m, "selector", Null), again);
    if kind == "ad_is_mine" {
      MineReadsTheAd(w, m, value, selector, sc, sh);
    } else {
      ExternalReadsTheAd(w, m, value, selector, sc, sh);
    }
  }

  lemma VerdictOnCleanAd(w: World, m: map<string, Value>, kind: string, sc: Scope, sh: Shared)
    requires Get(m, "kind", Null) == Text(kind) && (kind == "ad_is_mine" || kind == "ad_is_external")
    requires Class(w, kind, sc, sh) == Some(kind == "ad_is_external")
    ensures EvalCondition(w, Dict(m), sc, sh) == Some((kind == "ad_is_external") != Truthy(Get(m, "negate", Null)))
  {
    assert "kind" in m;
    ClassVerdict(w, m, kind, EnvOf(w, sc, sh), sc, sh);
    BareOrNegated(w, m, EnvOf(w, sc, sh), sc, sh);
  }

  /** In every run over parsed ads, wherever an ad is at hand, that is inside a foreach_ad, a
      condition for own ads is false and one for external ads true (unless negated): no
      branch for own ads is ever taken. */
  lemma OwnAdBranchNeverTaken(w: World, seed: map<string, Value>, steps: seq<Value>, e: Event, kind: string)
    requires Parsed(w, ForeignLaw(w.myDomains)) && e in RunTrace(w, seed, steps)
    requires e.Judged? && e.scope.ad != Null && e.cond.Dict? && Get(e.cond.m, "kind", Null) == Text(kind)
    requires kind == "ad_is_mine" || kind == "ad_is_external"
    ensures e.verdict == Some((kind == "ad_is_external") != Truthy(Get(e.cond.m, "negate", Null)))
  {
    RunIsLawful(w, ForeignLaw(w.myDomains), seed, steps);
    HonestOnCleanAd(w, e, kind);
  }

  lemma HonestOnCleanAd(w: World, e: Event, kind: string)
    requires e.Judged? && Honest(w, e) && CleanScope(ForeignLaw(w.myDomains), e.scope)
    requires e.scope.ad != Null && e.cond.Dict? && Get(e.cond.m, "kind", Null) == Text(kind)
    requires kind == "ad_is_mine" || kind == "ad_is_external"
    ensures e.verdict == Some((kind == "ad_is_external") != Truthy(Get(e.cond.m, "negate", Null)))
  {
    var sh :| e.verdict == EvalCondition(w, e.cond, e.scope, sh);
    CleanAdIsExternal(w, e.scope, sh);
    VerdictOnCleanAd(w, e.cond.m, kind, e.scope, sh);
  }

  // ── own-ad tests at any depth ─────────────────────────────────

  /** The condition as a parsed ad sees it: at every depth of `and` and `or` a test for own
      ads becomes `never` and one for external ads `always`. */
  function Folded(cond: Value): Value
    decreases cond, 1
  {
    if !cond.Dict? || cond.m == map[] then cond
    else
      var kind := Get(cond.m, "kind", Null);
      if kind == Text("ad_is_mine") then Dict(cond.m["kind" := Text("never")])
      else if kind == Text("ad_is_external") then Dict(cond.m["kind" := Text("always")])
      else
        var cs := Get(cond.m, "conditions", Null);
        if cs.List? && (kind == Text("and") || kind == Text("or"))
        then Dict(cond.m["conditions" := List(FoldedAll(cs.vs))]) else cond
  }

  function FoldedAll(cs: seq<Value>): (r: seq<Value>)
    ensures |r| == |cs|
    decreases cs, 0
  {
    seq(|cs|, i requires 0 <= i < |cs| => Folded(cs[i]))
  }

  lemma TestIsConstant(w: World, m: map<string, Value>, again: Env, sc: Scope, sh: Shared)
    requires CleanScope(ForeignLaw(w.myDomains), sc) && sc.ad != Null
    ensures Get(m, "kind", Null) == Text("ad_is_mine") ==>
              Bare(w, m, again, sc, sh) == Bare(w, m["kind" := Text("never")], again, sc, sh) == Some(false)
    ensures Get(m, "kind", Null) == Text("ad_is_external") ==>
              Bare(w, m, again, sc, sh) == Bare(w, m["kind" := Text("always")], again, sc, sh) == Some(true)
  {
    CleanAdIsExternal(w, sc, sh);
    if Get(m, "kind", Null) == Text("ad_is_mine") {
      ClassVerdict(w, m, "ad_is_mine", again, sc, sh);
    } else if Get(m, "kind", Null) == Text("ad_is_external") {
      ClassVerdict(w, m, "ad_is_external", again, sc, sh);
    }
  }

  lemma BareComposite(w: World, m: map<string, Value>, kind: string, cs: seq<Value>, again: Env, sc: Scope, sh: Shared)
    requires (kind == "and" || kind == "or") && Get(m, "kind", Null) == Text(kind) && Get(m, "conditions", Null) == List(cs)
    ensures Bare(w, m, again, sc, sh) == EvalUntil(w, cs, kind == "or", again, sc, sh)
  {
  }

  /** On a parsed ad the folded condition has the verdict of the original one, and raises
      where it raises. */
  lemma {:induction false} FoldKeepsVerdict(w: World, cond: Value, again: Env, sc: Scope, sh: Shared)
    requires CleanScope(ForeignLaw(w.myDomains), sc) && sc.ad != Null
    ensures EvalWith(w, Folded(cond), again, sc, sh) == EvalWith(w, cond, again, sc, sh)
    decreases cond, 1
  {
    if cond.Dict? && cond.m != map[] {
      var m, m' := cond.m, Folded(cond).m;
      var kind, cs := Get(m, "kind", Null), Get(m, "conditions", Null);
      assert m' != map[] && Get(m', "negate", Null) == Get(m, "negate", Null) by {
        FoldKeepsTheSwitch(cond);
      }
      BareOrNegated(w, m, again, sc, sh);
      BareOrNegated(w, m', again, sc, sh);
      TestIsConstant(w, m, again, sc, sh);
      if cs.List? && (kind == Text("and") || kind == Text("or")) {
        FoldKeepsUntil(w, cs.vs, kind == Text("or"), again, sc, sh);
        BareComposite(w, m, kind.s, cs.vs, again, sc, sh);
        BareComposite(w, m', kind.s, FoldedAll(cs.vs), again, sc, sh);
      }
    }
  }

  lemma FoldKeepsTheSwitch(cond: Value)
    requires cond.Dict? && cond.m != map[]
    ensures Folded(cond).Dict? && Folded(cond).m != map[]
    ensures Get(Folded(cond).m, "negate", Null) == Get(cond.m, "negate", Null)
  {
    assert forall k :: k in cond.m ==> k in Folded(cond).m;
    var k :| k in cond.m;
    assert k in Folded(cond).m;
  }

  lemma {:induction false} FoldKeepsUntil(w: World, cs: seq<Value>, stop: bool, again: Env, sc: Scope, sh: Shared)
    requires CleanScope(ForeignLaw(w.myDomains), sc) && sc.ad != Null
    ensures EvalUntil(w, FoldedAll(cs), stop, again, sc, sh) == EvalUntil(w, cs, stop, again, sc, sh)
    decreases cs, 2
  {
    if cs != [] {
      assert FoldedAll(cs)[0] == Folded(cs[0]) && FoldedAll(cs)[1..] == FoldedAll(cs[1..]);
      FoldKeepsVerdict(w, cs[0], again, sc, sh);
      FoldKeepsUntil(w, cs[1..], stop, again, sc, sh);
    }
  }

  /** No parsed ad gives the condition this verdict: read off the tests for own and external
      ads and the constants, through any nesting of `and`, `or` and `negate`. */
  predicate Barred(cond: Value, verdict: bool)
    decreases cond
  {
    if !Truthy(cond) then !verdict
    else if !cond.Dict? then true
    else
      var bare := verdict != Truthy(Get(cond.m, "negate", Null));
      var kind, cs := Get(cond.m, "kind", Null), Get(cond.m, "conditions", Null);
      if kind == Text("ad_is_mine") || kind == Text("never") then bare
      else if kind == Text("ad_is_external") || kind == Text("always") || !Truthy(kind) then !bare
      else if kind == Text("and") || kind == Text("or") then
        if !Truthy(cs) then bare != (kind == Text("and"))
        else if !cs.List? then true
        else if bare == (kind == Text("or")) then forall i :: 0 <= i < |cs.vs| ==> Barred(cs.vs[i], bare)
        else exists i :: 0 <= i < |cs.vs| && Barred(cs.vs[i], bare)
      else false
  }

  lemma {:induction false} BarredUntil(w: World, cs: seq<Value>, stop: bool, verdict: bool, again: Env, sc: Scope, sh: Shared)
    requires verdict == stop ==> forall i :: 0 <= i < |cs| ==> EvalWith(w, cs[i], again, sc, sh) != Some(verdict)
    requires verdict != stop ==> exists i :: 0 <= i < |cs| && EvalWith(w, cs[i], again, sc, sh) != Some(verdict)
    ensures EvalUntil(w, cs, stop, again, sc, sh) != Some(verdict)
    decreases |cs|
  {
    if cs != [] && EvalWith(w, cs[0], again, sc, sh) == Some(!stop) {
      assert forall i :: 0 <= i < |cs| - 1 ==> cs[1..][i] == cs[i + 1];
      if verdict != stop {
        var i :| 0 <= i < |cs| && EvalWith(w, cs[i], again, sc, sh) != Some(verdict);
        assert EvalWith(w, cs[1..][i - 1], again, sc, sh) != Some(verdict);
      }
      BarredUntil(w, cs[1..], stop, verdict, again, sc, sh);
    }
  }

  lemma {:induction false} BarredVerdict(w: World, cond: Value, verdict: bool, again: Env, sc: Scope, sh: Shared)
    requires CleanScope(ForeignLaw(w.myDomains), sc) && sc.ad != Null && Barred(cond, verdict)
    ensures EvalWith(w, cond, again, sc, sh) != Some(verdict)
    decreases cond
  {
    if Truthy(cond) && cond.Dict? {
      var bare := verdict != Truthy(Get(cond.m, "negate", Null));
      var kind, cs := Get(cond.m, "kind", Null), Get(cond.m, "conditions", Null);
      BareOrNegated(w, cond.m, again, sc, sh);
      TestIsConstant(w, cond.m, again, sc, sh);
      if (kind == Text("and") || kind == Text("or")) && cs.List? && Truthy(cs) {
        forall i | 0 <= i < |cs.vs| && Barred(cs.vs[i], bare)
          ensures EvalWith(w, cs.vs[i], again, sc, sh) != Some(bare)
        {
          BarredVerdict(w, cs.vs[i], bare, again, sc, sh);
        }
        BarredUntil(w, cs.vs, kind == Text("or"), bare, again, sc, sh);
        BareComposite(w, cond.m, kind.s, cs.vs, again, sc, sh);
      }
    }
  }

  /** In every run over parsed ads, wherever an ad is at hand, no `if` takes a branch that its
      own-ad and external-ad tests bar, however deep they are nested. */
  lemma BarredBranchNeverTaken(w: World, seed: map<string, Value>, steps: seq<Value>, e: Event, branch: bool)
    requires Parsed(w, ForeignLaw(w.myDomains)) && e in RunTrace(w, seed, steps)
    requires e.Judged? && e.scope.ad != Null && Barred(e.cond, branch)
    ensures e.verdict != Some(branch)
  {
    RunIsLawful(w, ForeignLaw(w.myDomains), seed, steps);
    BarredOnCleanAd(w, e, branch);
  }

  lemma BarredOnCleanAd(w: World, e: Event, branch: bool)
    requires e.Judged? && Honest(w, e) && CleanScope(ForeignLaw(w.myDomains), e.scope)
    requires e.scope.ad != Null && Barred(e.cond, branch)
    ensures e.verdict != Some(branch)
  {
    var sh :| e.verdict == EvalCondition(w, e.cond, e.scope, sh);
    BarredVerdict(w, e.cond, branch, EnvOf(w, e.scope, sh), e.scope, sh);
  }
}
