/** `run_pipeline` of runner.py: the older per-ad pipeline, its event log, and its
    agreement with the unified engine on which actions run. */
module Pipeline {
  import opened Json
  import opened Templates
  import opened Flow
  import opened FlowSemantics
  import FlowSteps

  datatype Reason = Disabled | MyDomain | Target | NotTarget | NotMyDomain | Probability

  /** One logged event; the insertion of its row may fail, which is caught. */
  datatype Entry = Skipped(kind: string, reason: Reason) | Unknown(kind: string) | Called(kind: string, raised: bool)

  /** The four domain filters in their order. */
  function GateReason(domains: seq<string>, step: map<string, Value>, ad: Value): Option<Reason> {
    var mine, target := Mine(domains, ad), Truthy(Field(ad, "is_target"));
    if mine && Truthy(Get(step, "skip_on_my_domain", Null)) then Some(MyDomain)
    else if target && Truthy(Get(step, "skip_on_target", Null)) then Some(Target)
    else if Truthy(Get(step, "only_on_target", Null)) && !target then Some(NotTarget)
    else if Truthy(Get(step, "only_on_my_domain", Null)) && !mine then Some(NotMyDomain)
    else None
  }

  /** Effects so far and rows written so far. */
  datatype Log = Log(trace: seq<Event>, entries: seq<Entry>)

  function Row(log: Log, e: Entry): Log {
    log.(entries := log.entries + [e])
  }

  /** The type an event is logged under; types that are no texts count as "unknown". */
  function KindName(step: map<string, Value>): string {
    if TypeOf(step).Some? then TypeOf(step).value else "unknown"
  }

  /** One step; None when an exception leaves the pipeline. */
  function PipelineStep(w: World, action: Value, sc: Scope, log: Log): Option<Log> {
    if !action.Dict? then None
    else
      var step, kind := action.m, KindName(action.m);
      if !Truthy(Get(step, "enabled", Bool(true))) then Some(Row(log, Skipped(kind, Disabled)))
      else if TypeOf(step).None? then None
      else if kind !in w.handlers.actions then Some(Row(log, Unknown(kind)))
      else match GateReason(w.myDomains, step, sc.ad)
        case Some(reason) => Some(Row(log, Skipped(kind, reason)))
        case None =>
          match Float(w, Get(step, "probability", Num(1.0)))
          case None => None
          case Some(p) =>
            var x := w.coin(log.trace);
            var tossed := log.(trace := log.trace + [Coin(x)]);
            if x > p then Some(Row(tossed, Skipped(kind, Probability)))
            else
              var raised := w.handler(tossed.trace, kind, action, sc, map[]).raises;
              Some(Row(tossed.(trace := tossed.trace + [Act(kind, action, sc, raised)]), Called(kind, raised)))
  }

  datatype Finished = Finished(log: Log, escaped: bool)

  function PipelineRun(w: World, pipeline: seq<Value>, sc: Scope, log: Log): Finished
    decreases pipeline
  {
    if pipeline == [] then Finished(log, false)
    else match PipelineStep(w, pipeline[0], sc, log)
      case None => Finished(log, true)
      case Some(log') => PipelineRun(w, pipeline[1..], sc, log')
  }

  /** The loop of `run_pipeline`. */
  method RunPipeline(w: World, pipeline: seq<Value>, sc: Scope) returns (log: Log, escaped: bool)
    ensures Finished(log, escaped) == PipelineRun(w, pipeline, sc, Log([], []))
  {
    log := Log([], []);
    for i := 0 to |pipeline|
      invariant PipelineRun(w, pipeline, sc, Log([], [])) == PipelineRun(w, pipeline[i..], sc, log)
    {
      assert pipeline[i..][1..] == pipeline[i + 1..];
      var next := PipelineStep(w, pipeline[i], sc, log);
      if next.None? {
        return log, true;
      }
      log := next.value;
    }
    escaped := false;
  }

  // ── one row per step ──────────────────────────────────────────

  /** The step is malformed in a way the pipeline does not catch; handlers have no say. */
  predicate Malformed(w: World, action: Value, ad: Value) {
    || !action.Dict?
    || (Truthy(Get(action.m, "enabled", Bool(true)))
        && (TypeOf(action.m).None?
            || (TypeOf(action.m).value in w.handlers.actions
                && GateReason(w.myDomains, action.m, ad).None?
                && Float(w, Get(action.m, "probability", Num(1.0))).None?)))
  }

  predicate RowFor(e: Entry, action: Value) {
    action.Dict? && KindName(action.m) == e.kind
  }

  lemma StepRow(w: World, action: Value, sc: Scope, log: Log)
    ensures var next := PipelineStep(w, action, sc, log);
            && (next.None? <==> Malformed(w, action, sc.ad))
            && (next.Some? ==>
                  && |next.value.entries| == |log.entries| + 1 && log.entries <= next.value.entries
                  && RowFor(next.value.entries[|log.entries|], action))
  {
  }

  /** Rows and steps correspond from the front. */
  predicate RowsFor(rows: seq<Entry>, pipeline: seq<Value>) {
    rows == [] || (pipeline != [] && RowFor(rows[0], pipeline[0]) && RowsFor(rows[1..], pipeline[1..]))
  }

  predicate AnyMalformed(w: World, pipeline: seq<Value>, ad: Value) {
    pipeline != [] && (Malformed(w, pipeline[0], ad) || AnyMalformed(w, pipeline[1..], ad))
  }

  /** Every step gets exactly one row, in order, and no failing handler suppresses a later
      one, exactly when no step is malformed. */
  lemma {:induction false} OneRowPerStep(w: World, pipeline: seq<Value>, sc: Scope, log: Log) returns (rows: seq<Entry>)
    ensures PipelineRun(w, pipeline, sc, log).log.entries == log.entries + rows && RowsFor(rows, pipeline)
    ensures |rows| == |pipeline| <==> !PipelineRun(w, pipeline, sc, log).escaped
    ensures PipelineRun(w, pipeline, sc, log).escaped <==> AnyMalformed(w, pipeline, sc.ad)
    ensures |rows| <= |pipeline|
    decreases pipeline
  {
    rows := [];
    if pipeline != [] {
      StepRow(w, pipeline[0], sc, log);
      var next := PipelineStep(w, pipeline[0], sc, log);
      if next.Some? {
        var rest := OneRowPerStep(w, pipeline[1..], sc, next.value);
        rows := [next.value.entries[|log.entries|]] + rest;
      }
    }
  }

  // ── the two gates ─────────────────────────────────────────────

  /** The flags of a step are not templates. */
  predicate PlainFlags(step: map<string, Value>) {
    forall k :: k in {"skip_on_my_domain", "skip_on_target", "only_on_target", "only_on_my_domain"} && k in step ==>
      !step[k].Text? && !step[k].List? && !step[k].Dict?
  }

  lemma GatesAreOne(domains: seq<string>, step: map<string, Value>, ad: Value)
    requires Truthy(ad)
    ensures GateSkips(domains, step, ad) <==> GateReason(domains, step, ad).Some?
  {
  }

  /** The reason that is logged is the first that applies, of four. */
  lemma ReasonsInOrder(domains: seq<string>, step: map<string, Value>, ad: Value)
    ensures var reason := GateReason(domains, step, ad);
            var onMine := Mine(domains, ad) && Truthy(Get(step, "skip_on_my_domain", Null));
            var onTarget := Truthy(Field(ad, "is_target")) && Truthy(Get(step, "skip_on_target", Null));
            var offTarget := !Truthy(Field(ad, "is_target")) && Truthy(Get(step, "only_on_target", Null));
            var offMine := !Mine(domains, ad) && Truthy(Get(step, "only_on_my_domain", Null));
            && (reason == Some(MyDomain) <==> onMine)
            && (reason == Some(Target) <==> onTarget && !onMine)
            && (reason == Some(NotTarget) <==> offTarget && !onMine)
            && (reason == Some(NotMyDomain) <==> offMine && !onTarget && !offTarget)
            && (reason == None <==> !onMine && !onTarget && !offTarget && !offMine)
  {
  }

  /** What is logged for a step, by its own data: that it is disabled, that nobody knows its
      type, why the gate or the coin stopped it, or that its handler was called and whether
      it raised; and the effects that go with that. */
  lemma LoggedRow(w: World, step: map<string, Value>, kind: string, p: real, sc: Scope, log: Log)
    requires Get(step, "type", Null) == Text(kind) && kind != "" && Float(w, Get(step, "probability", Num(1.0))) == Some(p)
    ensures PipelineStep(w, Dict(step), sc, log).Some?
    ensures var x := w.coin(log.trace);
            var reason := GateReason(w.myDomains, step, sc.ad);
            var raised := w.handler(log.trace + [Coin(x)], kind, Dict(step), sc, map[]).raises;
            PipelineStep(w, Dict(step), sc, log).value.entries
            == log.entries
               + [if !Truthy(Get(step, "enabled", Bool(true))) then Skipped(kind, Disabled)
                  else if kind !in w.handlers.actions then Unknown(kind)
                  else if reason.Some? then Skipped(kind, reason.value)
                  else if x > p then Skipped(kind, Probability)
                  else Called(kind, raised)]
    ensures var x := w.coin(log.trace);
            var raised := w.handler(log.trace + [Coin(x)], kind, Dict(step), sc, map[]).raises;
            PipelineStep(w, Dict(step), sc, log).value.trace
            == if !Truthy(Get(step, "enabled", Bool(true))) || kind !in w.handlers.actions || GateReason(w.myDomains, step, sc.ad).Some?
               then log.trace
               else if x > p then log.trace + [Coin(x)]
               else log.trace + [Coin(x)] + [Act(kind, Dict(step), sc, raised)]
  {
  }

  /** A step without a type, and a disabled one whose type is a list or dict, is logged as
      `unknown`. */
  lemma UntypedRow(w: World, step: map<string, Value>, sc: Scope, log: Log)
    requires "unknown" !in w.handlers.actions
    requires !Truthy(Get(step, "type", Null))
             || (TypeOf(step).None? && !Truthy(Get(step, "enabled", Bool(true))))
    ensures PipelineStep(w, Dict(step), sc, log).Some?
    ensures PipelineStep(w, Dict(step), sc, log).value
            == log.(entries := log.entries
                               + [if !Truthy(Get(step, "enabled", Bool(true))) then Skipped("unknown", Disabled) else Unknown("unknown")])
  {
  }

  lemma FlagsSurvive(domains: seq<string>, step: map<string, Value>, env: Env, ad: Value)
    requires PlainFlags(step)
    ensures GateSkips(domains, InterpolateDict(step, env), ad) == GateSkips(domains, step, ad)
  {
    var step' := InterpolateDict(step, env);
    FlagSurvives(step, "skip_on_my_domain", env);
    FlagSurvives(step, "skip_on_target", env);
    FlagSurvives(step, "only_on_target", env);
    FlagSurvives(step, "only_on_my_domain", env);
  }

  lemma FlagSurvives(step: map<string, Value>, key: string, env: Env)
    requires key !in NESTED
    requires key in step ==> !step[key].Text? && !step[key].List? && !step[key].Dict?
    ensures Get(InterpolateDict(step, env), key, Null) == Get(step, key, Null)
  {
    if key in step {
      assert Interpolate(step[key], env) == step[key];
    }
  }

  /** A per-ad action step as both engines see it: a plain type, plain flags, and a
      probability that is a number. */
  predicate AdAction(w: World, step: map<string, Value>, kind: string, p: real) {
    && PlainFlags(step) && Get(step, "type", Null) == Text(kind) && IsName(kind, false)
    && kind in w.handlers.actions && kind !in w.handlers.externals && KindOf(kind).HandlerKind?
    && Float(w, Get(step, "probability", Num(1.0))) == Some(p)
  }

  /** The handler is called: the only effect besides the coin. */
  predicate RunsHandler(before: seq<Event>, after: seq<Event>) {
    exists i :: |before| <= i < |after| && after[i].Act?
  }

  /** The decision of the unified engine for an action on a non-empty ad. */
  lemma UnifiedDecision(w: World, step: map<string, Value>, kind: string, p: real, sc: Scope, sh: Shared)
    requires AdAction(w, step, kind, p) && Truthy(sc.ad)
    ensures RunsHandler(sh.trace, RunStep(w, Dict(step), sc, sh).shared.trace)
            <==> Truthy(Get(step, "enabled", Bool(true))) && (p >= 1.0 || w.coin(sh.trace) <= p)
                 && GateReason(w.myDomains, step, sc.ad).None?
  {
    GatedStep(w, Dict(step), p, sc, sh);
    if Truthy(Get(step, "enabled", Bool(true))) {
      var x := w.coin(sh.trace);
      if p >= 1.0 {
        DispatchDecision(w, step, kind, p, sc, sh);
        Decides(sh.trace, sh.trace, Dispatch(w, Dict(step), sc, sh).shared.trace, GateReason(w.myDomains, step, sc.ad));
      } else if x <= p {
        var sh1 := FlowSemantics.Log(sh, Coin(x));
        DispatchDecision(w, step, kind, p, sc, sh1);
        Decides(sh.trace, sh1.trace, Dispatch(w, Dict(step), sc, sh1).shared.trace, GateReason(w.myDomains, step, sc.ad));
      }
    }
  }

  /** After at most a coin, the dispatch adds one action event or nothing. */
  lemma Decides(before: seq<Event>, tossed: seq<Event>, after: seq<Event>, reason: Option<Reason>)
    requires before == tossed || exists x :: tossed == before + [Coin(x)]
    requires if reason.Some? then after == tossed
             else |after| == |tossed| + 1 && tossed <= after && after[|tossed|].Act?
    ensures RunsHandler(before, after) <==> reason.None?
  {
  }

  lemma HandlerDecision(w: World, step: map<string, Value>, kind: string, sc: Scope, sh: Shared)
    requires Truthy(sc.ad) && kind in w.handlers.actions && kind !in w.handlers.externals
    ensures var r := HandlerLeaf(w, kind, step, sc, sh);
            if GateSkips(w.myDomains, step, sc.ad) then r.shared.trace == sh.trace
            else |r.shared.trace| == |sh.trace| + 1 && sh.trace <= r.shared.trace && r.shared.trace[|sh.trace|].Act?
  {
  }

  lemma HandlerIsDispatched(w: World, raw: Value, step: map<string, Value>, kind: string, sc: Scope, sh: Shared)
    requires raw.Dict? && TypeOf(step) == Some(kind) && KindOf(kind).HandlerKind?
    ensures DispatchOn(w, raw, step, sc, sh) == HandlerLeaf(w, kind, step, sc, sh)
  {
  }

  lemma DispatchDecision(w: World, step: map<string, Value>, kind: string, p: real, sc: Scope, sh: Shared)
    requires AdAction(w, step, kind, p) && Truthy(sc.ad)
    ensures var r := Dispatch(w, Dict(step), sc, sh);
            if GateReason(w.myDomains, step, sc.ad).Some? then r.shared.trace == sh.trace
            else |r.shared.trace| == |sh.trace| + 1 && sh.trace <= r.shared.trace && r.shared.trace[|sh.trace|].Act?
  {
    var env := EnvOf(w, sc, sh);
    FlowSteps.TypeSurvives(step, kind, env);
    FlagsSurvive(w.myDomains, step, env, sc.ad);
    GatesAreOne(w.myDomains, step, sc.ad);
    HandlerDecision(w, InterpolateDict(step, env), kind, sc, sh);
    HandlerIsDispatched(w, Dict(step), InterpolateDict(step, env), kind, sc, sh);
  }

  /** The decision of the pipeline. */
  lemma PipelineDecision(w: World, step: map<string, Value>, kind: string, p: real, sc: Scope, log: Log)
    requires AdAction(w, step, kind, p)
    ensures PipelineStep(w, Dict(step), sc, log).Some?
    ensures RunsHandler(log.trace, PipelineStep(w, Dict(step), sc, log).value.trace)
            <==> Truthy(Get(step, "enabled", Bool(true))) && w.coin(log.trace) <= p
                 && GateReason(w.myDomains, step, sc.ad).None?
  {
    var after := PipelineStep(w, Dict(step), sc, log).value.trace;
    if Truthy(Get(step, "enabled", Bool(true))) && w.coin(log.trace) <= p
       && GateReason(w.myDomains, step, sc.ad).None? {
      assert after[|log.trace| + 1].Act?;
    }
  }

  /** On a non-empty ad and given the same coin, the unified engine and the pipeline run
      the same actions. */
  lemma GatesAgree(w: World, step: map<string, Value>, kind: string, p: real, sc: Scope, sh: Shared, log: Log)
    requires AdAction(w, step, kind, p) && Truthy(sc.ad)
    requires w.coin(log.trace) == w.coin(sh.trace) <= 1.0
    ensures PipelineStep(w, Dict(step), sc, log).Some?
    ensures RunsHandler(sh.trace, RunStep(w, Dict(step), sc, sh).shared.trace)
            <==> RunsHandler(log.trace, PipelineStep(w, Dict(step), sc, log).value.trace)
  {
    UnifiedDecision(w, step, kind, p, sc, sh);
    PipelineDecision(w, step, kind, p, sc, log);
  }
}
