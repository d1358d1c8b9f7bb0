/** What holds of every run of the flow language: by FlowEngine, of every run of the
    flag-based interpreter too. */
module FlowLaws {
  import opened Json
  import opened Strings
  import opened Templates
  import opened Flow
  import opened FlowSemantics

  // ── own domains ───────────────────────────────────────────────

  /** The domain itself or a subdomain of it. */
  ghost predicate Covers(own: string, domain: string) {
    domain == own || exists sub :: domain == sub + "." + own
  }

  lemma CoversIff(own: string, domain: string)
    ensures Covers(own, domain) <==> domain == own || EndsWith(domain, "." + own)
  {
    if EndsWith(domain, "." + own) {
      var sub := domain[..|domain| - |own| - 1];
      assert domain == sub + "." + own;
    }
    if sub :| domain == sub + "." + own {
      assert domain[|domain| - |"." + own|..] == "." + own;
    }
  }

  lemma UnderCovers(domain: string, domains: seq<string>)
    ensures Under(domain, LowerAll(domains)) <==> exists i :: 0 <= i < |domains| && Covers(Lower(domains[i]), domain)
  {
    if Under(domain, LowerAll(domains)) {
      var d :| d in LowerAll(domains) && (domain == d || EndsWith(domain, "." + d));
      var i :| 0 <= i < |domains| && LowerAll(domains)[i] == d;
      CoversIff(d, domain);
    }
    if i :| 0 <= i < |domains| && Covers(Lower(domains[i]), domain) {
      CoversIff(Lower(domains[i]), domain);
      assert LowerAll(domains)[i] in LowerAll(domains);
    }
  }

  /** An ad that the own-domain filter of the parser lets through. */
  predicate Foreign(domains: seq<string>, ad: Value) {
    ad.Dict? && AdDomain(ad) != "" && !Under(Lower(AdDomain(ad)), LowerAll(domains))
  }

  /** A parsed result page: foreign ads, one per domain. */
  predicate ForeignAds(domains: seq<string>, ads: seq<Value>) {
    && (forall ad :: ad in ads ==> Foreign(domains, ad))
    && (forall i, j :: 0 <= i < j < |ads| ==> AdDomain(ads[i]) != AdDomain(ads[j]))
  }

  // ── the invariant of a run ────────────────────────────────────

  /** A property of result pages and the property of single ads that follows from it. */
  datatype AdLaw = AdLaw(page: seq<Value> -> bool, ad: Value -> bool)

  /** The pages of the own-domain filter. */
  function ForeignLaw(domains: seq<string>): AdLaw {
    AdLaw(ads => ForeignAds(domains, ads), ad => Foreign(domains, ad))
  }

  predicate CleanScope(law: AdLaw, sc: Scope) {
    law.page(sc.ads) && (sc.ad == Null || law.ad(sc.ad))
  }

  /** Searches and page scans hand over lawful pages only, and a shuffle loses or invents
      nothing. */
  ghost predicate Parsed(w: World, law: AdLaw) {
    && law.page([])
    && (forall ads: seq<Value>, ad :: law.page(ads) && ad in ads ==> law.ad(ad))
    && (forall trace, q :: w.search(trace, q).Found? ==> law.page(w.search(trace, q).ads))
    && (forall trace, q :: w.parseAds(trace, q).Found? ==> law.page(w.parseAds(trace, q).ads))
    && (forall trace, vs :: multiset(w.shuffle(trace, vs)) == multiset(vs))
  }

  /** The exception of this event leaves the interpreter. */
  predicate Fatal(w: World, e: Event) {
    e.Act? && e.raised && e.step.Dict?
    && (e.kind in w.handlers.externals || Truthy(Get(e.step.m, "abort_on_error", Null)))
  }

  /** A per-ad handler ran past its gate, a click had an ad to click. */
  predicate Gated(w: World, e: Event) {
    e.Act? && e.kind in w.handlers.actions && e.kind !in w.handlers.externals ==>
      && e.step.Dict?
      && !GateSkips(w.myDomains, e.step.m, e.scope.ad)
      && (e.kind == "click_ad" ==> Truthy(e.scope.ad))
  }

  /** A recorded verdict is what its condition evaluates to in its scope. */
  ghost predicate Honest(w: World, e: Event) {
    e.Judged? ==> exists sh :: e.verdict == EvalCondition(w, e.cond, e.scope, sh)
  }

  /** Handlers and conditions see lawful scopes, and per-ad runners lawful ads. */
  predicate Clean(law: AdLaw, e: Event) {
    && (e.Act? ==> CleanScope(law, e.scope))
    && (e.Judged? ==> CleanScope(law, e.scope))
    && (e.PerAd? ==> law.ad(e.ad))
  }

  /** No handler and no per-ad runner is handed an own-domain ad. */
  predicate OffOwnDomain(w: World, e: Event) {
    Clean(ForeignLaw(w.myDomains), e)
  }

  /** What running anything keeps: effects are only appended; the ad and the item of the
      scope stay; an exception that escapes is the last effect of the run and ends it;
      gates are respected and verdicts honest; and with lawful pages the scope stays so. */
  ghost predicate Keeps(w: World, law: AdLaw, sc: Scope, sh: Shared, r: Result) {
    && sh.trace <= r.shared.trace
    && r.scope.ad == sc.ad && r.scope.item == sc.item
    && (forall i :: |sh.trace| <= i < |r.shared.trace| ==> Gated(w, r.shared.trace[i]) && Honest(w, r.shared.trace[i]))
    && (forall i :: |sh.trace| <= i < |r.shared.trace| && Fatal(w, r.shared.trace[i]) ==>
          r.out.Abort? && i == |r.shared.trace| - 1)
    && (Parsed(w, law) && CleanScope(law, sc) ==>
          && CleanScope(law, r.scope)
          && forall i :: |sh.trace| <= i < |r.shared.trace| ==> Clean(law, r.shared.trace[i]))
  }

  lemma KeepsThen(w: World, law: AdLaw, sc: Scope, sh: Shared, mid: Result, r: Result)
    requires Keeps(w, law, sc, sh, mid) && !mid.out.Abort?
    requires Keeps(w, law, mid.scope, mid.shared, r)
    ensures Keeps(w, law, sc, sh, r)
  {
  }

  /** One more effect that is neither an action nor a per-ad run. */
  lemma KeepsLog(w: World, law: AdLaw, sc: Scope, sh: Shared, e: Event, r: Result)
    requires !e.Act? && !e.PerAd? && Honest(w, e) && (e.Judged? ==> e.scope == sc)
    requires Keeps(w, law, sc, Log(sh, e), r)
    ensures Keeps(w, law, sc, sh, r)
  {
    assert sh.trace <= Log(sh, e).trace;
    assert Log(sh, e).trace <= r.shared.trace;
    assert r.shared.trace[|sh.trace|] == e;
  }

  /** A loop hands back the scope it got; break and continue stay inside. */
  predicate Absorbed(r: Result, sc: Scope) {
    (r.out.Normal? || r.out.Abort?) && r.scope == sc
  }

  // ── leaves ────────────────────────────────────────────────────

  lemma CallKeeps(w: World, law: AdLaw, name: string, step: map<string, Value>, sc: Scope, sh: Shared, out: Outcome)
    requires name in w.handlers.actions && name !in w.handlers.externals ==>
               !GateSkips(w.myDomains, step, sc.ad) && (name == "click_ad" ==> Truthy(sc.ad))
    requires var (raised, _) := Call(w, name, step, sc, sh);
             raised && (name in w.handlers.externals || Truthy(Get(step, "abort_on_error", Null))) ==> out == Abort
    ensures Keeps(w, law, sc, sh, Result(out, sc, Call(w, name, step, sc, sh).1))
  {
  }

  lemma {:induction false} AutoForeachKeeps(w: World, law: AdLaw, ads: seq<Value>, q: string, sc: Scope, sh: Shared)
    requires Parsed(w, law) ==> forall ad :: ad in ads ==> law.ad(ad)
    ensures Keeps(w, law, sc, sh, AutoForeach(w, ads, q, sc, sh))
    decreases |ads|
  {
    if ads != [] {
      var sh1 := Log(sh, PerAd(ads[0], q));
      assert ads[0] in ads;
      assert Keeps(w, law, sc, sh, Result(Normal, sc, sh1));
      if !w.perAd(sh.trace, ads[0], q) {
        AutoForeachKeeps(w, law, ads[1..], q, sc, sh1);
        KeepsThen(w, law, sc, sh, Result(Normal, sc, sh1), AutoForeach(w, ads[1..], q, sc, sh1));
      }
    }
  }

  lemma SearchKeeps(w: World, law: AdLaw, step: map<string, Value>, sc: Scope, sh: Shared)
    ensures Keeps(w, law, sc, sh, SearchQuery(w, step, sc, sh))
  {
    var q := QueryText(w, step, sc);
    var found := w.search(sh.trace, q);
    if q != "" && w.hasSearch && found.Found? {
      var r := TakeAds(w, found.ads, sc.(query := q), Log(sh, Searched(q)));
      assert Keeps(w, law, sc, sh, r);
      AutoForeachKeeps(w, law, found.ads, q, r.scope, r.shared);
      KeepsThen(w, law, sc, sh, r, AutoForeach(w, found.ads, q, r.scope, r.shared));
    }
  }

  lemma HandlerKeeps(w: World, law: AdLaw, name: string, step: map<string, Value>, sc: Scope, sh: Shared)
    ensures Keeps(w, law, sc, sh, HandlerLeaf(w, name, step, sc, sh))
  {
    var abort := Truthy(Get(step, "abort_on_error", Null));
    var raised := Call(w, name, step, sc, sh).0;
    if name in w.handlers.externals {
      CallKeeps(w, law, name, step, sc, sh, if raised then Abort else Normal);
    } else if name in w.handlers.actions {
      if !((name == "click_ad" && !Truthy(sc.ad)) || GateSkips(w.myDomains, step, sc.ad)) {
        CallKeeps(w, law, name, step, sc, sh, if raised && abort then Abort else Normal);
      }
    } else if name in w.handlers.loopActions {
      CallKeeps(w, law, name, step, sc, sh, if raised && abort then Abort else Normal);
    }
  }

  lemma CatchKeeps(w: World, law: AdLaw, step: map<string, Value>, sc: Scope, sh: Shared)
    ensures Keeps(w, law, sc, sh, CatchAds(w, step, sc, sh))
  {
  }

  lemma SaveKeeps(w: World, law: AdLaw, step: map<string, Value>, sc: Scope, sh: Shared)
    ensures Keeps(w, law, sc, sh, SaveVar(step, sc, sh))
    ensures Keeps(w, law, sc, sh, ExtractText(w, step, sc, sh))
  {
  }

  // ── step lists and containers ─────────────────────────────────

  lemma {:induction false} StepsKeep(w: World, law: AdLaw, steps: seq<Value>, sc: Scope, sh: Shared)
    ensures Keeps(w, law, sc, sh, RunSteps(w, steps, sc, sh))
    decreases steps, 0, 0
  {
    if steps != [] {
      StepKeeps(w, law, steps[0], sc, sh);
      var r := RunStep(w, steps[0], sc, sh);
      if r.out.Normal? {
        StepsKeep(w, law, steps[1..], r.scope, r.shared);
        KeepsThen(w, law, sc, sh, r, RunSteps(w, steps[1..], r.scope, r.shared));
      }
    }
  }

  lemma {:induction false} StepKeeps(w: World, law: AdLaw, raw: Value, sc: Scope, sh: Shared)
    ensures Keeps(w, law, sc, sh, RunStep(w, raw, sc, sh))
    decreases raw, 5, 0
  {
    if raw.Dict? && Truthy(Get(raw.m, "enabled", Bool(true))) {
      var p := Float(w, Get(raw.m, "probability", Num(1.0)));
      if p.Some? {
        if p.value >= 1.0 {
          DispatchKeeps(w, law, raw, sc, sh);
        } else {
          TossKeeps(w, law, raw, p.value, sc, sh);
        }
      }
    }
  }

  lemma {:induction false} TossKeeps(w: World, law: AdLaw, raw: Value, p: real, sc: Scope, sh: Shared)
    requires raw.Dict?
    ensures var x := w.coin(sh.trace);
            Keeps(w, law, sc, sh, if x > p then Result(Normal, sc, Log(sh, Coin(x))) else Dispatch(w, raw, sc, Log(sh, Coin(x))))
    decreases raw, 4, 1
  {
    var x := w.coin(sh.trace);
    if x > p {
      KeepsLog(w, law, sc, sh, Coin(x), Result(Normal, sc, Log(sh, Coin(x))));
    } else {
      DispatchKeeps(w, law, raw, sc, Log(sh, Coin(x)));
      KeepsLog(w, law, sc, sh, Coin(x), Dispatch(w, raw, sc, Log(sh, Coin(x))));
    }
  }

  lemma {:induction false} DispatchKeeps(w: World, law: AdLaw, raw: Value, sc: Scope, sh: Shared)
    requires raw.Dict?
    ensures Keeps(w, law, sc, sh, Dispatch(w, raw, sc, sh))
    decreases raw, 4, 0
  {
    DispatchOnKeeps(w, law, raw, InterpolateDict(raw.m, EnvOf(w, sc, sh)), sc, sh);
  }

  lemma {:induction false} DispatchOnKeeps(w: World, law: AdLaw, raw: Value, step: map<string, Value>, sc: Scope, sh: Shared)
    requires raw.Dict?
    ensures Keeps(w, law, sc, sh, DispatchOn(w, raw, step, sc, sh))
    decreases raw, 3, 1
  {
    var type_ := TypeOf(step);
    if type_.Some? {
      match KindOf(type_.value)
      case IfKind => IfKeeps(w, law, raw, step, sc, sh);
      case ForeachAdKind => ForeachAdKeeps(w, law, raw, step, sc, sh);
      case ForeachKind => ForeachKeeps(w, law, raw, step, sc, sh);
      case BreakKind =>
      case ContinueKind =>
      case CatchKind => CatchKeeps(w, law, step, sc, sh);
      case SearchKind => SearchKeeps(w, law, step, sc, sh);
      case SaveKind => SaveKeeps(w, law, step, sc, sh);
      case ExtractKind => SaveKeeps(w, law, step, sc, sh);
      case HandlerKind => HandlerKeeps(w, law, type_.value, step, sc, sh);
    }
  }

  lemma {:induction false} IfKeeps(w: World, law: AdLaw, raw: Value, step: map<string, Value>, sc: Scope, sh: Shared)
    requires raw.Dict?
    ensures Keeps(w, law, sc, sh, RunIf(w, raw, step, sc, sh))
    decreases raw, 3, 0
  {
    var e := Judging(w, step, sc, sh);
    var sh1 := Log(sh, e);
    IfUnfolds(w, raw, step, sc, sh);
    HonestVerdict(w, step, sc, sh);
    if e.verdict.Some? {
      BodyKeeps(w, law, raw, Branch(e.verdict.value), sc, sh1);
    }
    KeepsLog(w, law, sc, sh, e, RunIf(w, raw, step, sc, sh));
  }

  function Judging(w: World, step: map<string, Value>, sc: Scope, sh: Shared): (e: Event)
    ensures e.Judged? && e.scope == sc
  {
    var cond := Get(step, "condition", Null);
    Judged(cond, sc, EvalCondition(w, cond, sc, sh))
  }

  function Branch(b: bool): string {
    if b then "then_steps" else "else_steps"
  }

  lemma HonestVerdict(w: World, step: map<string, Value>, sc: Scope, sh: Shared)
    ensures Honest(w, Judging(w, step, sc, sh))
  {
  }

  lemma IfUnfolds(w: World, raw: Value, step: map<string, Value>, sc: Scope, sh: Shared)
    requires raw.Dict?
    ensures var e := Judging(w, step, sc, sh);
            RunIf(w, raw, step, sc, sh)
            == if e.verdict.None? then Result(Abort, sc, Log(sh, e))
               else RunBody(w, raw, Branch(e.verdict.value), sc, Log(sh, e))
  {
  }

  lemma {:induction false} BodyKeeps(w: World, law: AdLaw, raw: Value, key: string, sc: Scope, sh: Shared)
    requires raw.Dict?
    ensures Keeps(w, law, sc, sh, RunBody(w, raw, key, sc, sh))
    decreases raw, 1, 0
  {
    var steps := Get(raw.m, key, Null);
    if Truthy(steps) && steps.List? {
      StepsKeep(w, law, steps.vs, sc, sh);
    }
  }

  lemma {:induction false} ForeachKeeps(w: World, law: AdLaw, raw: Value, step: map<string, Value>, sc: Scope, sh: Shared)
    requires raw.Dict?
    ensures Keeps(w, law, sc, sh, RunForeach(w, raw, step, sc, sh))
    ensures Absorbed(RunForeach(w, raw, step, sc, sh), sc)
    decreases raw, 3, 0
  {
    var items := Items(w, Get(step, "items", Null), sc, sh);
    if items != [] {
      var order := w.shuffle(sh.trace, items);
      var sh1 := Log(sh, Shuffled(order));
      ForeachFromKeeps(w, law, raw, step, items, sc, sh);
      ForeachFromKeeps(w, law, raw, step, order, sc, sh1);
      KeepsLog(w, law, sc, sh, Shuffled(order), RunForeachFrom(w, raw, step, order, sc, sh1));
    }
  }

  lemma {:induction false} ForeachFromKeeps(w: World, law: AdLaw, raw: Value, step: map<string, Value>, order: seq<Value>, sc: Scope, sh: Shared)
    requires raw.Dict?
    ensures Keeps(w, law, sc, sh, RunForeachFrom(w, raw, step, order, sc, sh))
    ensures Absorbed(RunForeachFrom(w, raw, step, order, sc, sh), sc)
    decreases raw, 2, |order| + 1
  {
    var itemVar := ItemVar(step);
    if itemVar.Some? {
      ItemsKeep(w, law, raw, order, itemVar.value, sc, sh);
    }
  }

  lemma {:induction false} ItemsKeep(w: World, law: AdLaw, raw: Value, items: seq<Value>, itemVar: Option<string>, sc: Scope, sh: Shared)
    requires raw.Dict?
    ensures Keeps(w, law, sc, sh, RunItems(w, raw, items, itemVar, sc, sh))
    ensures Absorbed(RunItems(w, raw, items, itemVar, sc, sh), sc)
    decreases raw, 2, |items|
  {
    if items != [] {
      var sh1 := if itemVar.Some? then SetVar(sh, itemVar.value, items[0]) else sh;
      var child := sc.(item := items[0]);
      BodyKeeps(w, law, raw, "steps", child, sh1);
      var r := RunBody(w, raw, "steps", child, sh1);
      assert Keeps(w, law, sc, sh, Result(if r.out.Abort? then Abort else Normal, sc, r.shared));
      if !r.out.Abort? && !r.out.Break? {
        ItemsKeep(w, law, raw, items[1..], itemVar, sc, r.shared);
        KeepsThen(w, law, sc, sh, Result(Normal, sc, r.shared), RunItems(w, raw, items[1..], itemVar, sc, r.shared));
      }
    }
  }

  lemma {:induction false} ForeachAdKeeps(w: World, law: AdLaw, raw: Value, step: map<string, Value>, sc: Scope, sh: Shared)
    requires raw.Dict?
    ensures Keeps(w, law, sc, sh, RunForeachAd(w, raw, step, sc, sh))
    ensures Absorbed(RunForeachAd(w, raw, step, sc, sh), sc)
    decreases raw, 3, 0
  {
    if sc.ads != [] {
      var limit := Get(step, "limit", Null);
      var order := w.shuffle(sh.trace, sc.ads);
      var sh1 := Log(sh, Shuffled(order));
      var plain, mixed := Limited(w, sc.ads, limit), Limited(w, order, limit);
      if Parsed(w, law) {
        forall ad | ad in order ensures ad in sc.ads {
          assert ad in multiset(order);
        }
      }
      ForeachAdFromKeeps(w, law, raw, step, plain, sc, sh);
      ForeachAdFromKeeps(w, law, raw, step, mixed, sc, sh1);
      KeepsLog(w, law, sc, sh, Shuffled(order), RunForeachAdFrom(w, raw, step, mixed, sc, sh1));
    }
  }

  lemma {:induction false} ForeachAdFromKeeps(w: World, law: AdLaw, raw: Value, step: map<string, Value>, ads: seq<Value>, sc: Scope, sh: Shared)
    requires raw.Dict?
    requires Parsed(w, law) ==> forall ad :: ad in ads ==> ad in sc.ads
    ensures Keeps(w, law, sc, sh, RunForeachAdFrom(w, raw, step, ads, sc, sh))
    ensures Absorbed(RunForeachAdFrom(w, raw, step, ads, sc, sh), sc)
    decreases raw, 2, |ads| + 1
  {
    var scan := Truthy(Get(step, "scan_between_ads", Bool(true))) && w.hasDriver;
    AdsKeep(w, law, raw, ads, scan, true, sc, sh);
  }

  lemma {:induction false} AdsKeep(w: World, law: AdLaw, raw: Value, ads: seq<Value>, scan: bool, first: bool, sc: Scope, sh: Shared)
    requires raw.Dict?
    requires Parsed(w, law) ==> forall ad :: ad in ads ==> ad in sc.ads
    ensures Keeps(w, law, sc, sh, RunAds(w, raw, ads, scan, first, sc, sh))
    ensures Absorbed(RunAds(w, raw, ads, scan, first, sc, sh), sc)
    decreases raw, 2, |ads|
  {
    if ads != [] {
      var sh1 := if scan && !first then Log(sh, ScanPause) else sh;
      assert ads[0] in ads;
      AdBodyKeeps(w, law, raw, ads[0], scan && !first, sc, sh);
      var r := RunBody(w, raw, "steps", sc.(ad := ads[0]), sh1);
      if !r.out.Abort? && !r.out.Break? && ads[0].Dict? {
        AdsKeep(w, law, raw, ads[1..], scan, false, sc, r.shared);
        KeepsThen(w, law, sc, sh, Result(Normal, sc, r.shared), RunAds(w, raw, ads[1..], scan, false, sc, r.shared));
      }
    }
  }

  /** One iteration, seen from the loop that has its scope back. */
  lemma {:induction false} AdBodyKeeps(w: World, law: AdLaw, raw: Value, ad: Value, pause: bool, sc: Scope, sh: Shared)
    requires raw.Dict? && (Parsed(w, law) ==> ad in sc.ads)
    ensures var sh1 := if pause then Log(sh, ScanPause) else sh;
            var r := RunBody(w, raw, "steps", sc.(ad := ad), sh1);
            && Keeps(w, law, sc, sh, Result(Normal, sc, sh1)) && Keeps(w, law, sc, sh, Result(Abort, sc, sh1))
            && Keeps(w, law, sc, sh, Result(if r.out.Abort? then Abort else Normal, sc, r.shared))
    decreases raw, 2, 0
  {
    var sh1 := if pause then Log(sh, ScanPause) else sh;
    var child := sc.(ad := ad);
    BodyKeeps(w, law, raw, "steps", child, sh1);
    var r := RunBody(w, raw, "steps", child, sh1);
    var ended := Result(if r.out.Abort? then Abort else Normal, sc, r.shared);
    assert Keeps(w, law, sc, sh1, ended);
    assert Keeps(w, law, sc, sh, Result(Normal, sc, sh1));
    KeepsThen(w, law, sc, sh, Result(Normal, sc, sh1), ended);
  }

  // ── whole runs ────────────────────────────────────────────────

  /** The effects of a whole run from a root context. */
  function RunTrace(w: World, seed: map<string, Value>, steps: seq<Value>): seq<Event> {
    RunSteps(w, steps, Scope(Null, [], Null, ""), Shared(seed, map[], [])).shared.trace
  }

  /** Whatever holds of all result pages holds of the scopes of all handlers and conditions
      of a run; gates are respected and verdicts honest. */
  lemma RunIsLawful(w: World, law: AdLaw, seed: map<string, Value>, steps: seq<Value>)
    requires Parsed(w, law)
    ensures forall e :: e in RunTrace(w, seed, steps) ==> Clean(law, e) && Gated(w, e) && Honest(w, e)
  {
    StepsKeep(w, law, steps, Scope(Null, [], Null, ""), Shared(seed, map[], []));
  }

  /** In every run over parsed ads no action and no per-ad runner is handed an own-domain
      ad, and an action runs only where its skip/only flags allow it. */
  lemma NoActionOnOwnDomain(w: World, seed: map<string, Value>, steps: seq<Value>)
    requires Parsed(w, ForeignLaw(w.myDomains))
    ensures forall e :: e in RunTrace(w, seed, steps) ==> OffOwnDomain(w, e) && Gated(w, e)
  {
    RunIsLawful(w, ForeignLaw(w.myDomains), seed, steps);
  }

  /** An exception that escapes a handler is the last thing the run does. */
  lemma AbortEndsTheRun(w: World, seed: map<string, Value>, steps: seq<Value>)
    ensures var r := RunSteps(w, steps, Scope(Null, [], Null, ""), Shared(seed, map[], []));
            forall i :: 0 <= i < |r.shared.trace| && Fatal(w, r.shared.trace[i]) ==>
              r.out.Abort? && i == |r.shared.trace| - 1
  {
    StepsKeep(w, ForeignLaw(w.myDomains), steps, Scope(Null, [], Null, ""), Shared(seed, map[], []));
  }

  /** Running a list is running its first part and then, if nothing stopped it, the rest
      in the state the first part left. */
  lemma {:induction false} StepsAppend(w: World, a: seq<Value>, b: seq<Value>, sc: Scope, sh: Shared)
    ensures var r := RunSteps(w, a, sc, sh);
            RunSteps(w, a + b, sc, sh) == if r.out.Normal? then RunSteps(w, b, r.scope, r.shared) else r
    decreases a
  {
    if a == [] {
      assert a + b == b;
    } else {
      assert (a + b)[1..] == a[1..] + b;
      var r := RunStep(w, a[0], sc, sh);
      if r.out.Normal? {
        StepsAppend(w, a[1..], b, r.scope, r.shared);
      }
    }
  }

  // ── loops as iterations ───────────────────────────────────────

  /** The shared state the body of iteration `i` starts from. */
  function AdEntry(scan: bool, i: nat, sh: Shared): Shared {
    if scan && i > 0 then Log(sh, ScanPause) else sh
  }

  function AdIteration(w: World, raw: Value, ads: seq<Value>, scan: bool, sc: Scope, i: nat, sh: Shared): Result
    requires raw.Dict? && i < |ads|
  {
    RunBody(w, raw, "steps", sc.(ad := ads[i]), AdEntry(scan, i, sh))
  }

  /** `states` are the shared states between the iterations that took place. */
  ghost predicate AdRun(w: World, raw: Value, ads: seq<Value>, scan: bool, sc: Scope, from: nat, states: seq<Shared>)
    requires raw.Dict? && from <= |ads|
  {
    && 1 <= |states| <= |ads| - from + 1
    && (forall i :: 0 <= i < |states| - 1 ==>
          states[i + 1] == AdIteration(w, raw, ads, scan, sc, from + i, states[i]).shared)
    && (forall i :: 0 <= i < |states| - 2 ==>
          var out := AdIteration(w, raw, ads, scan, sc, from + i, states[i]).out;
          out.Normal? || out.Continue?)
  }

  lemma AdRunPrepend(w: World, raw: Value, ads: seq<Value>, scan: bool, sc: Scope, from: nat, sh: Shared, rest: seq<Shared>)
    requires raw.Dict? && from < |ads|
    requires AdRun(w, raw, ads, scan, sc, from + 1, rest)
    requires var r := AdIteration(w, raw, ads, scan, sc, from, sh);
             (r.out.Normal? || r.out.Continue?) && rest[0] == r.shared
    ensures AdRun(w, raw, ads, scan, sc, from, [sh] + rest)
  {
    var states := [sh] + rest;
    forall i | 0 <= i < |states| - 1
      ensures states[i + 1] == AdIteration(w, raw, ads, scan, sc, from + i, states[i]).shared
      ensures i < |states| - 2 ==>
                var out := AdIteration(w, raw, ads, scan, sc, from + i, states[i]).out; out.Normal? || out.Continue?
    {
      if i > 0 {
        assert states[i] == rest[i - 1] && states[i + 1] == rest[i];
      }
    }
  }

  /** How the iterations that took place end the loop. */
  ghost predicate AdEnds(w: World, raw: Value, ads: seq<Value>, scan: bool, sc: Scope, from: nat, states: seq<Shared>, r: Result)
    requires raw.Dict? && from <= |ads| && 1 <= |states| <= |ads| - from + 1
  {
    var n := |states| - 1;
    && r.shared == states[n] && r.scope == sc
    && (n == 0 ==> from == |ads| && r.out.Normal?)
    && (n > 0 ==>
          var last := AdIteration(w, raw, ads, scan, sc, from + n - 1, states[n - 1]).out;
          && r.out == (if last.Abort? then Abort else Normal)
          && (from + n < |ads| ==> last.Break? || last.Abort?))
  }

  /** A foreach_ad is a prefix of the iterations over the ads it was entered with. Each
      one starts from the loop's own scope with just the current ad replaced, whatever an
      earlier one searched; only Break and Abort cut the prefix short, and only an Abort
      is passed on. */
  lemma {:induction false} AdLoopIterates(w: World, raw: Value, ads: seq<Value>, scan: bool, sc: Scope, from: nat, sh: Shared)
    returns (states: seq<Shared>)
    requires raw.Dict? && from <= |ads| && forall ad :: ad in ads ==> ad.Dict?
    ensures AdRun(w, raw, ads, scan, sc, from, states) && states[0] == sh
    ensures AdEnds(w, raw, ads, scan, sc, from, states, RunAds(w, raw, ads[from..], scan, from == 0, sc, sh))
    decreases |ads| - from
  {
    if from == |ads| {
      states := [sh];
    } else {
      var r := AdIteration(w, raw, ads, scan, sc, from, sh);
      AdLoopUnfolds(w, raw, ads, scan, sc, from, sh);
      if r.out.Abort? || r.out.Break? {
        states := [sh, r.shared];
      } else {
        var rest := AdLoopIterates(w, raw, ads, scan, sc, from + 1, r.shared);
        AdRunPrepend(w, raw, ads, scan, sc, from, sh, rest);
        states := [sh] + rest;
        AdEndsPrepend(w, raw, ads, scan, sc, from, sh, rest, RunAds(w, raw, ads[from + 1..], scan, false, sc, r.shared));
      }
    }
  }

  lemma AdEndsPrepend(w: World, raw: Value, ads: seq<Value>, scan: bool, sc: Scope, from: nat, sh: Shared, rest: seq<Shared>, r: Result)
    requires raw.Dict? && from < |ads| && 1 <= |rest| <= |ads| - from
    requires AdEnds(w, raw, ads, scan, sc, from + 1, rest, r)
    requires rest[0] == AdIteration(w, raw, ads, scan, sc, from, sh).shared
    requires var out := AdIteration(w, raw, ads, scan, sc, from, sh).out; out.Normal? || out.Continue?
    ensures AdEnds(w, raw, ads, scan, sc, from, [sh] + rest, r)
  {
    var states := [sh] + rest;
    assert states[|states| - 1] == rest[|rest| - 1];
    if |rest| > 1 {
      assert states[|states| - 2] == rest[|rest| - 2];
    }
  }

  lemma AdLoopUnfolds(w: World, raw: Value, ads: seq<Value>, scan: bool, sc: Scope, from: nat, sh: Shared)
    requires raw.Dict? && from < |ads| && forall ad :: ad in ads ==> ad.Dict?
    ensures var r := AdIteration(w, raw, ads, scan, sc, from, sh);
            RunAds(w, raw, ads[from..], scan, from == 0, sc, sh)
            == match r.out
               case Abort => Result(Abort, sc, r.shared)
               case Break => Result(Normal, sc, r.shared)
               case _ => RunAds(w, raw, ads[from + 1..], scan, false, sc, r.shared)
  {
    assert ads[from..][0] == ads[from] && ads[from..][1..] == ads[from + 1..];
    assert ads[from] in ads;
  }
}
