/** The hang watchdog of runtime.py: the probe thread interleaved with pause and resume on
    the main thread, for one generation of the thread. */
module Watchdog {

  const KILL_AFTER: nat := 3

  /** Asleep between rounds, a probe in flight, or gone. */
  datatype Phase = Asleep | Probing | Gone

  datatype State = State(fails: nat, paused: bool, stopped: bool, phase: Phase, killed: bool)

  datatype Action =
    | Wake                 // the wait between rounds is over
    | Result(ok: bool)     // the probe in flight reports or times out
    | Pause
    | Resume
    | Stop

  const INIT: State := State(0, false, false, Asleep, false)

  predicate Enabled(s: State, a: Action) {
    match a
    case Wake => s.phase.Asleep?
    case Result(_) => s.phase.Probing?
    case _ => true
  }

  /** One round of `_watchdog_loop` is a Wake and, unless it is skipped, a Result; counting
      a failure and comparing it is one step. */
  function Step(s: State, a: Action): State
    requires Enabled(s, a)
  {
    match a
    case Wake =>
      if s.stopped then s.(phase := Gone) else if s.paused then s else s.(phase := Probing)
    case Result(ok) =>
      if ok then s.(fails := 0, phase := Asleep)
      else if s.fails + 1 >= KILL_AFTER then s.(fails := s.fails + 1, phase := Gone, killed := true)
      else s.(fails := s.fails + 1, phase := Asleep)
    case Pause => if s.paused then s else s.(paused := true, fails := 0)
    case Resume => s.(paused := false)
    case Stop => s.(stopped := true)
  }

  predicate Run(s: State, run: seq<Action>)
    decreases |run|, 0
  {
    run == [] || (Run(s, run[..|run| - 1]) && Enabled(After(s, run[..|run| - 1]), run[|run| - 1]))
  }

  function After(s: State, run: seq<Action>): State
    requires Run(s, run)
    decreases |run|, 1
  {
    if run == [] then s else Step(After(s, run[..|run| - 1]), run[|run| - 1])
  }

  // ── the object ────────────────────────────────────────────────

  class Dog {
    var fails: nat
    var paused: bool
    var stopped: bool
    var phase: Phase
    var killed: bool

    constructor ()
      ensures Now() == INIT
    {
      fails, paused, stopped, phase, killed := 0, false, false, Asleep, false;
    }

    function Now(): State
      reads this
    {
      State(fails, paused, stopped, phase, killed)
    }

    method WatchdogPause()
      modifies this
      ensures Now() == Step(old(Now()), Pause)
    {
      if !paused {
        paused := true;
        fails := 0;
      }
    }

    method WatchdogResume()
      modifies this
      ensures Now() == Step(old(Now()), Resume)
    {
      if paused {
        paused := false;
      }
    }

    /** The top of the loop body, up to the start of a probe. */
    method NextRound()
      requires Enabled(Now(), Wake)
      modifies this
      ensures Now() == Step(old(Now()), Wake)
    {
      if stopped {
        phase := Gone;
        return;
      }
      if paused {
        return;
      }
      phase := Probing;
    }

    /** The rest of the loop body, from the probe's verdict on. */
    method Record(ok: bool)
      requires Enabled(Now(), Result(ok))
      modifies this
      ensures Now() == Step(old(Now()), Result(ok))
    {
      phase := Asleep;
      if ok {
        fails := 0;
        return;
      }
      fails := fails + 1;
      if fails >= KILL_AFTER {
        phase := Gone;
        killed := true;
      }
    }

    method Thread(a: Action)
      requires (a.Wake? || a.Result?) && Enabled(Now(), a)
      modifies this
      ensures Now() == Step(old(Now()), a)
    {
      if a.Wake? {
        NextRound();
      } else {
        Record(a.ok);
      }
    }

    /** `force_rotate_ip` around its blocking wait: whatever the rotation does, also when it
        raises, the dog is resumed, and none of the thread's steps meanwhile kills. */
    method ForceRotateIp(meanwhile: seq<Action>)
      requires Calm(Now())
      requires forall a :: a in meanwhile ==> a.Wake? || a.Result?
      requires Run(Step(Now(), Pause), meanwhile)
      modifies this
      ensures Now() == Step(After(Step(old(Now()), Pause), meanwhile), Resume)
      ensures killed == old(killed) && !paused && (!killed ==> fails <= 1)
    {
      ghost var before := Now();
      WatchdogPause();
      ghost var entered := Now();
      var i := 0;
      PrefixRuns(entered, meanwhile, 0);
      assert meanwhile[..0] == [];
      while i < |meanwhile|
        invariant 0 <= i <= |meanwhile|
        invariant Run(entered, meanwhile[..i]) && Now() == After(entered, meanwhile[..i])
      {
        PrefixRuns(entered, meanwhile, i + 1);
        assert meanwhile[..i + 1][..i] == meanwhile[..i];
        Thread(meanwhile[i]);
        i := i + 1;
      }
      assert meanwhile[..i] == meanwhile;
      PausedThreadIsHarmless(entered, meanwhile);
      WatchdogResume();
    }
  }

  lemma {:induction false} PrefixRuns(s: State, run: seq<Action>, n: nat)
    requires Run(s, run) && n <= |run|
    ensures Run(s, run[..n])
    ensures n < |run| ==> Enabled(After(s, run[..n]), run[n])
    decreases |run|
  {
    if n < |run| {
      var init := run[..|run| - 1];
      if n == |run| - 1 {
      } else {
        PrefixRuns(s, init, n);
        assert init[..n] == run[..n];
      }
    } else {
      assert run[..n] == run;
    }
  }

  // ── what every interleaving keeps ─────────────────────────────

  /** While paused, recorded failures and the probe in flight are at most one together. */
  predicate Calm(s: State) {
    && (s.paused && !s.killed ==> s.fails + (if s.phase.Probing? then 1 else 0) <= 1)
    && (!s.killed ==> s.fails < KILL_AFTER)
    && (s.killed ==> s.phase.Gone?)
  }

  lemma {:induction false} RunIsCalm(s: State, run: seq<Action>)
    requires Calm(s) && Run(s, run)
    ensures Calm(After(s, run))
    decreases |run|
  {
    if run != [] {
      RunIsCalm(s, run[..|run| - 1]);
    }
  }

  /** No kill happens while the dog is paused. */
  lemma NoKillWhilePaused(run: seq<Action>)
    requires Run(INIT, run) && run != []
    requires After(INIT, run).killed && !After(INIT, run[..|run| - 1]).killed
    ensures run[|run| - 1] == Result(false) && !After(INIT, run[..|run| - 1]).paused
  {
    RunIsCalm(INIT, run[..|run| - 1]);
  }

  /** The failure count a resume starts from. */
  lemma ResumeStartsClean(run: seq<Action>)
    requires Run(INIT, run) && After(INIT, run).paused && !After(INIT, run).killed
    ensures After(INIT, run).fails <= 1
  {
    RunIsCalm(INIT, run);
  }

  lemma {:induction false} PausedThreadIsHarmless(s: State, run: seq<Action>)
    requires Calm(s) && s.paused && Run(s, run)
    requires s.killed || s.fails + (if s.phase.Probing? then 1 else 0) <= 1
    requires forall a :: a in run ==> a.Wake? || a.Result?
    ensures var s' := After(s, run);
            s'.killed == s.killed && s'.paused && Calm(s') && (!s.killed ==> s'.fails <= 1)
    decreases |run|
  {
    if run != [] {
      var init := run[..|run| - 1];
      assert run[|run| - 1] in run && forall a :: a in init ==> a in run;
      PausedThreadIsHarmless(s, init);
    }
  }

  // ── when exactly it kills ─────────────────────────────────────

  /** Step `m` of the run forgets the failures before it: a success, or a pause entered
      from the running state. */
  predicate Resets(run: seq<Action>, m: nat)
    requires m < |run| && Run(INIT, run)
  {
    PrefixRuns(INIT, run, m);
    run[m] == Result(true) || (run[m].Pause? && !After(INIT, run[..m]).paused)
  }

  /** Failing results at `i`, `j` and `k` with no reset in between. */
  predicate ThreeStrikes(run: seq<Action>, i: nat, j: nat, k: nat)
    requires Run(INIT, run)
  {
    && i < j < k < |run|
    && run[i] == run[j] == run[k] == Result(false)
    && forall m :: i < m < k ==> !Resets(run, m)
  }

  lemma StepAt(run: seq<Action>, n: nat)
    requires Run(INIT, run) && n < |run|
    ensures Run(INIT, run[..n]) && Run(INIT, run[..n + 1])
    ensures Enabled(After(INIT, run[..n]), run[n])
    ensures After(INIT, run[..n + 1]) == Step(After(INIT, run[..n]), run[n])
  {
    PrefixRuns(INIT, run, n);
    PrefixRuns(INIT, run, n + 1);
    assert run[..n + 1][..n] == run[..n];
  }

  /** Without a reset the failure count does not fall. */
  lemma {:induction false} FailsStay(run: seq<Action>, m: nat, n: nat)
    requires Run(INIT, run) && m <= n <= |run|
    requires forall k :: m <= k < n ==> !Resets(run, k)
    ensures Run(INIT, run[..m]) && Run(INIT, run[..n])
    ensures After(INIT, run[..m]).fails <= After(INIT, run[..n]).fails
    ensures After(INIT, run[..m]).killed ==> After(INIT, run[..n]).killed
    decreases n
  {
    PrefixRuns(INIT, run, m);
    PrefixRuns(INIT, run, n);
    if m < n {
      FailsStay(run, m, n - 1);
      assert !Resets(run, n - 1);
      StepAt(run, n - 1);
      StepKeepsFails(After(INIT, run[..n - 1]), run[n - 1]);
    }
  }

  lemma StepKeepsFails(s: State, a: Action)
    requires Enabled(s, a) && a != Result(true) && !(a.Pause? && !s.paused)
    ensures s.fails <= Step(s, a).fails && (s.killed ==> Step(s, a).killed)
  {
  }

  lemma {:induction false} KillIsFinal(run: seq<Action>, m: nat, n: nat)
    requires Run(INIT, run) && m <= n <= |run|
    ensures Run(INIT, run[..m]) && Run(INIT, run[..n])
    ensures After(INIT, run[..m]).killed ==> After(INIT, run[..n]).killed
    decreases n
  {
    PrefixRuns(INIT, run, m);
    PrefixRuns(INIT, run, n);
    if m < n {
      KillIsFinal(run, m, n - 1);
      StepAt(run, n - 1);
      StepKeepsKilled(After(INIT, run[..n - 1]), run[n - 1]);
    }
  }

  lemma StepKeepsKilled(s: State, a: Action)
    requires Enabled(s, a)
    ensures s.killed ==> Step(s, a).killed
  {
  }

  /** The dog has killed, or counts at least `c` failures and fewer than it kills at. */
  ghost predicate Struck(run: seq<Action>, n: nat, c: nat)
    requires Run(INIT, run) && n <= |run|
  {
    PrefixRuns(INIT, run, n);
    var s := After(INIT, run[..n]);
    s.killed || c <= s.fails < KILL_AFTER
  }

  lemma NeverBeyond(run: seq<Action>, n: nat)
    requires Run(INIT, run) && n <= |run|
    ensures Struck(run, n, 0)
  {
    PrefixRuns(INIT, run, n);
    RunIsCalm(INIT, run[..n]);
  }

  lemma StrikeCounts(run: seq<Action>, n: nat, c: nat)
    requires Run(INIT, run) && n < |run| && run[n] == Result(false) && Struck(run, n, c)
    ensures Struck(run, n + 1, c + 1)
  {
    StepAt(run, n);
  }

  lemma StruckStays(run: seq<Action>, m: nat, n: nat, c: nat)
    requires Run(INIT, run) && m <= n <= |run| && Struck(run, m, c)
    requires forall k :: m <= k < n ==> !Resets(run, k)
    ensures Struck(run, n, c)
  {
    FailsStay(run, m, n);
    NeverBeyond(run, n);
  }

  lemma StruckOut(run: seq<Action>, n: nat)
    requires Run(INIT, run) && n <= |run| && Struck(run, n, KILL_AFTER)
    ensures After(INIT, run).killed
  {
    KillIsFinal(run, n, |run|);
    assert run[..|run|] == run;
  }

  lemma StrikesKill(run: seq<Action>, i: nat, j: nat, k: nat)
    requires Run(INIT, run) && ThreeStrikes(run, i, j, k)
    ensures After(INIT, run).killed
  {
    NeverBeyond(run, i);
    StrikeCounts(run, i, 0);
    StruckStays(run, i + 1, j, 1);
    StrikeCounts(run, j, 1);
    StruckStays(run, j + 1, k, 2);
    StrikeCounts(run, k, 2);
    StruckOut(run, k + 1);
  }

  /** The `c` failures counted so far, and nothing between them that resets. */
  ghost predicate Recorded(run: seq<Action>, n: nat, c: nat, i: nat, j: nat)
    requires Run(INIT, run) && n <= |run|
  {
    && (c >= 1 ==> i < n && run[i] == Result(false) && forall m :: i < m < n ==> !Resets(run, m))
    && (c >= 2 ==> i < j < n && run[j] == Result(false))
  }

  lemma RecordStays(run: seq<Action>, n: nat, c: nat, i: nat, j: nat)
    requires Run(INIT, run) && n < |run| && Recorded(run, n, c, i, j) && !Resets(run, n)
    ensures Recorded(run, n + 1, c, i, j)
  {
  }

  /** How one step moves the failure count of a dog that has not killed. */
  lemma StepCounts(s: State, a: Action)
    requires Enabled(s, a) && !s.killed && s.fails < KILL_AFTER && !Step(s, a).killed
    ensures Step(s, a).fails ==
            if a == Result(false) then s.fails + 1
            else if a == Result(true) || (a.Pause? && !s.paused) then 0
            else s.fails
    ensures Step(s, a).fails < KILL_AFTER
  {
  }

  ghost predicate FailsRecorded(run: seq<Action>, n: nat, i: nat, j: nat)
    requires Run(INIT, run) && n <= |run|
  {
    PrefixRuns(INIT, run, n);
    var s := After(INIT, run[..n]);
    !s.killed ==> s.fails < KILL_AFTER && Recorded(run, n, s.fails, i, j)
  }

  lemma {:induction false} FailuresAreRecorded(run: seq<Action>, n: nat) returns (i: nat, j: nat)
    requires Run(INIT, run) && n <= |run|
    ensures FailsRecorded(run, n, i, j)
    decreases n
  {
    i, j := 0, 0;
    if n > 0 {
      i, j := FailuresAreRecorded(run, n - 1);
      i, j := RecordStep(run, n - 1, i, j);
    } else {
      assert run[..0] == [];
    }
  }

  lemma RecordStep(run: seq<Action>, n: nat, i0: nat, j0: nat) returns (i: nat, j: nat)
    requires Run(INIT, run) && n < |run| && FailsRecorded(run, n, i0, j0)
    ensures FailsRecorded(run, n + 1, i, j)
  {
    i, j := i0, j0;
    StepAt(run, n);
    var s := After(INIT, run[..n]);
    if !s.killed && !Step(s, run[n]).killed {
      StepCounts(s, run[n]);
      if !Resets(run, n) {
        RecordStays(run, n, s.fails, i, j);
        if run[n] == Result(false) {
          if s.fails == 0 {
            i := n;
          } else {
            j := n;
          }
        }
      }
    }
  }

  lemma {:induction false} KillHadStrikes(run: seq<Action>, n: nat) returns (i: nat, j: nat, k: nat)
    requires Run(INIT, run) && n <= |run|
    requires Run(INIT, run[..n]) && After(INIT, run[..n]).killed
    ensures ThreeStrikes(run, i, j, k)
    decreases n
  {
    StepAt(run, n - 1);
    if After(INIT, run[..n - 1]).killed {
      i, j, k := KillHadStrikes(run, n - 1);
    } else {
      i, j := FailuresAreRecorded(run, n - 1);
      k := n - 1;
    }
  }

  /** Chrome is killed exactly when three probes failed with neither a success nor an
      entry into pause between the first and the last of them. */
  lemma KillsIffThreeStrikes(run: seq<Action>)
    requires Run(INIT, run)
    ensures After(INIT, run).killed <==> exists i, j, k :: ThreeStrikes(run, i, j, k)
  {
    assert run[..|run|] == run;
    if After(INIT, run).killed {
      var i, j, k := KillHadStrikes(run, |run|);
    }
    forall i, j, k | ThreeStrikes(run, i, j, k) ensures After(INIT, run).killed {
      StrikesKill(run, i, j, k);
    }
  }

  // ── how a stop ends the thread ────────────────────────────────

  /** A thread that has been told to stop starts no further probe: without one in flight it
      kills in no continuation, and its next round ends it. */
  lemma {:induction false} StoppedThreadIsHarmless(s: State, run: seq<Action>)
    requires !s.phase.Probing? && Run(Step(s, Stop), run)
    ensures After(Step(s, Stop), run).killed == s.killed && !After(Step(s, Stop), run).phase.Probing?
    ensures After(Step(s, Stop), run).stopped
    ensures Wake in run ==> After(Step(s, Stop), run).phase.Gone?
    decreases |run|
  {
    if run != [] {
      var init, last := run[..|run| - 1], run[|run| - 1];
      StoppedThreadIsHarmless(s, init);
      assert run == init + [last];
    }
  }

  // ── how long a pause protects ─────────────────────────────────

  predicate AlwaysPaused(s: State, run: seq<Action>)
    requires Run(s, run)
    decreases |run|
  {
    After(s, run).paused && (run == [] || AlwaysPaused(s, run[..|run| - 1]))
  }

  /** A pause lasts exactly until the first resume, whoever calls it and however often pause
      was called, and until then nothing kills. */
  lemma {:induction false} PauseHoldsIff(s: State, run: seq<Action>)
    requires Calm(s) && s.paused && Run(s, run)
    ensures AlwaysPaused(s, run) <==> Resume !in run
    ensures Resume !in run ==> After(s, run).killed == s.killed && Calm(After(s, run))
    decreases |run|
  {
    if run != [] {
      var init, last := run[..|run| - 1], run[|run| - 1];
      PauseHoldsIff(s, init);
      assert run == init + [last];
      RunIsCalm(s, init);
    }
  }

  /** One more failing probe, from a thread that waits. */
  lemma OneStrike(s: State)
    requires s.phase.Asleep? && !s.stopped && !s.paused && !s.killed && s.fails < KILL_AFTER
    ensures var run := [Wake, Result(false)];
            var s' := After(s, run);
            && Run(s, run) && s'.fails == s.fails + 1 && !s'.stopped && !s'.paused
            && if s'.fails == KILL_AFTER then s'.killed else !s'.killed && s'.phase.Asleep?
  {
    var run := [Wake, Result(false)];
    assert run[..1] == [Wake] && [Wake][..0] == [];
    assert Run(s, []) && After(s, []) == s;
    assert Run(s, [Wake]) && After(s, [Wake]) == Step(s, Wake);
    assert Run(s, run) && After(s, run) == Step(Step(s, Wake), Result(false));
  }

  lemma {:induction false} RunsJoin(s: State, a: seq<Action>, b: seq<Action>)
    requires Run(s, a) && Run(After(s, a), b)
    ensures Run(s, a + b) && After(s, a + b) == After(After(s, a), b)
    decreases |b|
  {
    if b == [] {
      assert a + b == a;
    } else {
      var init := b[..|b| - 1];
      RunsJoin(s, a, init);
      assert (a + b)[..|a + b| - 1] == a + init;
    }
  }

  /** Once resumed, a waiting thread can go on to kill. */
  lemma {:induction false} ResumeExposes(s: State) returns (run: seq<Action>)
    requires s.phase.Asleep? && !s.stopped && !s.paused && !s.killed && s.fails < KILL_AFTER
    ensures Run(s, run) && After(s, run).killed && forall a :: a in run ==> a.Wake? || a.Result?
    decreases KILL_AFTER - s.fails
  {
    var strike := [Wake, Result(false)];
    OneStrike(s);
    run := strike;
    if !After(s, strike).killed {
      var rest := ResumeExposes(After(s, strike));
      RunsJoin(s, strike, rest);
      run := strike + rest;
    }
  }
}
