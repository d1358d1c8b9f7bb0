/** `watchdog_pause` as the two writes it is in runtime.py: it sets the event, then it
    resets the failure count, and the probe thread may step in between. */
module SplitPause {
  import opened Watchdog

  /** `pausing`: the event is set and the count is not reset yet. */
  datatype Split = Split(s: State, pausing: bool)

  datatype Action = PauseSet | PauseReset | Else(a: Watchdog.Action)

  predicate Enabled(x: Split, a: Action) {
    match a
    case PauseSet => !x.pausing && !x.s.paused
    case PauseReset => x.pausing
    case Else(a') => Watchdog.Enabled(x.s, a') && !a'.Pause? && (a'.Resume? || a'.Stop? ==> !x.pausing)
  }

  function Step(x: Split, a: Action): Split
    requires Enabled(x, a)
  {
    match a
    case PauseSet => Split(x.s.(paused := true), true)
    case PauseReset => Split(x.s.(fails := 0), false)
    case Else(a') => x.(s := Watchdog.Step(x.s, a'))
  }

  predicate Run(x: Split, run: seq<Action>)
    decreases run
  {
    run == [] || (Enabled(x, run[0]) && Run(Step(x, run[0]), run[1..]))
  }

  function After(x: Split, run: seq<Action>): Split
    requires Run(x, run)
    decreases run
  {
    if run == [] then x else After(Step(x, run[0]), run[1..])
  }

  /** Both writes in a row are the one-step pause. */
  lemma SetThenReset(s: State)
    requires !s.paused
    ensures Step(Step(Split(s, false), PauseSet), PauseReset) == Split(Watchdog.Step(s, Pause), false)
  {
  }

  /** Behind the reset, recorded failures and the probe in flight are at most one. */
  predicate Inv(x: Split) {
    && (x.pausing ==> x.s.paused)
    && (!x.s.killed ==> x.s.fails < KILL_AFTER)
    && (x.s.killed ==> x.s.phase.Gone?)
    && (x.s.paused && !x.pausing && !x.s.killed ==> x.s.fails + (if x.s.phase.Probing? then 1 else 0) <= 1)
  }

  /** This step kills a paused browser. */
  predicate KillsPaused(x: Split, a: Action)
    requires Enabled(x, a)
  {
    x.s.paused && !x.s.killed && Step(x, a).s.killed
  }

  /** A failing result that is the third, between the two writes of a pause. */
  predicate StrikesInGap(x: Split, a: Action) {
    a == Else(Result(false)) && x.pausing && x.s.fails == KILL_AFTER - 1 && !x.s.killed
  }

  predicate SomeStepKillsPaused(x: Split, run: seq<Action>)
    requires Run(x, run)
    decreases run
  {
    run != [] && (KillsPaused(x, run[0]) || SomeStepKillsPaused(Step(x, run[0]), run[1..]))
  }

  predicate SomeStepStrikesInGap(x: Split, run: seq<Action>)
    requires Run(x, run)
    decreases run
  {
    run != [] && (StrikesInGap(x, run[0]) || SomeStepStrikesInGap(Step(x, run[0]), run[1..]))
  }

  /** In every interleaving a paused browser is killed exactly when a third failing result
      lands between the two writes of a pause. */
  lemma {:induction false} PausedKillIff(x: Split, run: seq<Action>)
    requires Inv(x) && Run(x, run)
    ensures SomeStepKillsPaused(x, run) <==> SomeStepStrikesInGap(x, run)
    decreases run
  {
    if run != [] {
      assert KillsPaused(x, run[0]) <==> StrikesInGap(x, run[0]);
      assert Inv(Step(x, run[0]));
      PausedKillIff(Step(x, run[0]), run[1..]);
    }
  }

  /** The steps of the probe thread. */
  predicate OfThread(run: seq<Action>) {
    forall a :: a in run ==> a.Else? && (a.a.Wake? || a.a.Result?)
  }

  lemma {:induction false} OneInFlightIsHarmless(x: Split, run: seq<Action>)
    requires x.s.paused && !x.s.killed && Run(x, run) && OfThread(run)
    requires x.s.fails + (if x.s.phase.Probing? then 1 else 0) < KILL_AFTER
    ensures !After(x, run).s.killed
    decreases run
  {
    if run != [] {
      assert run[0] in run && forall a :: a in run[1..] ==> a in run;
      OneInFlightIsHarmless(Step(x, run[0]), run[1..]);
    }
  }

  /** Entering a pause is safe, whatever the thread does before the count is reset, exactly
      when there are not two failures recorded and a probe in flight at that moment. */
  lemma PauseIsSafeIff(x: Split)
    requires Inv(x) && Enabled(x, PauseSet) && !x.s.killed
    ensures (forall run :: Run(Step(x, PauseSet), run) && OfThread(run) ==> !After(Step(x, PauseSet), run).s.killed)
            <==> !(x.s.fails == KILL_AFTER - 1 && x.s.phase.Probing?)
  {
    var y := Step(x, PauseSet);
    if x.s.fails == KILL_AFTER - 1 && x.s.phase.Probing? {
      var run := [Else(Result(false))];
      assert run[1..] == [] && Run(Step(y, run[0]), []);
      assert Run(y, run) && OfThread(run) && After(y, run) == After(Step(y, run[0]), []);
    } else {
      forall run | Run(y, run) && OfThread(run) ensures !After(y, run).s.killed {
        OneInFlightIsHarmless(y, run);
      }
    }
  }

  /** That moment is reachable. */
  lemma GapIsReachable()
    ensures var run := [Else(Wake), Else(Result(false)), Else(Wake), Else(Result(false)), Else(Wake), PauseSet, Else(Result(false))];
            Run(Split(INIT, false), run) && SomeStepKillsPaused(Split(INIT, false), run)
  {
  }
}
