/** `start`, `_cleanup_after_failed_start` and `close` of runtime.py: the three-attempt
    launch ladder and what it leaves behind. */
module StartLadder {

  /** How a launch fails: one of the three Selenium exceptions with a message that means
      Chrome died, one of them with another message, or any other exception. */
  datatype Failure = Crash | OtherSelenium | Foreign

  /** How far a launch got with its lock: not to the write, past it, or past a write that
      failed, which clears the path and leaves the file as it was. */
  datatype LockWrite = NotReached | Written | WriteFailed

  /** What a launch has set up when it returns or raises. */
  datatype Parts = Parts(driver: bool, forwarder: bool, collector: bool, lock: LockWrite, watchdog: bool)

  datatype Attempt = Succeeds(got: Parts) | Fails(failure: Failure, got: Parts)

  /** What the quarantine does: it may take the lock file away with the folder, by renaming
      or by wiping it, and it may raise. */
  datatype Quarantining = Quarantining(clears: bool, raises: bool)

  /** Everything outside: the guard's verdict, the launches, whether a validator could be
      built and what its quarantine does, and after which launches the system refuses to
      remove the lock file. */
  datatype Plan = Plan(
    activeRun: bool,
    launch: nat -> Attempt,
    validator: bool,
    quarantine: Quarantining,
    removeFails: nat -> bool)

  datatype Effect =
    | Launch(attempt: nat, skipExtensions: bool)
    | QuitDriver
    | StopHeartbeat
    | RemoveLock
    | Quarantine

  datatype Verdict = Started | Refused | Raised(failure: Failure)

  /** Whether `_gs_lock_path` is set and whether there is a lock file, ours or an old one. */
  datatype Lock = Lock(path: bool, file: bool)

  /** The browser object: its parts, its lock, the two stop events, and what was done so
      far. */
  datatype State = State(
    driver: bool, forwarder: bool, collector: bool,
    lock: Lock,
    heartbeatStop: bool, watchdogStop: bool,
    effects: seq<Effect>)

  // ── the steps ─────────────────────────────────────────────────

  function Locked(l: Lock, write: LockWrite): Lock {
    match write
    case NotReached => l
    case Written => Lock(true, true)
    case WriteFailed => Lock(false, l.file)
  }

  /** `_start_once`: a written lock comes with its heartbeat, the watchdog with a cleared
      event. */
  function Launched(s: State, attempt: nat, got: Parts): State {
    State(s.driver || got.driver, s.forwarder || got.forwarder, s.collector || got.collector,
          Locked(s.lock, got.lock),
          s.heartbeatStop && !got.lock.Written?, s.watchdogStop && !got.watchdog,
          s.effects + [Launch(attempt, attempt == 3)])
  }

  function CleanupEffects(s: State): seq<Effect> {
    (if s.driver then [QuitDriver] else []) + [StopHeartbeat] + (if s.lock.path && s.lock.file then [RemoveLock] else [])
  }

  function Released(l: Lock, refused: bool): Lock {
    if l.path && l.file && !refused then Lock(false, false) else l
  }

  /** `_cleanup_after_failed_start` */
  function Cleaned(s: State, removeFails: bool): State {
    State(false, false, false, Released(s.lock, removeFails), true, true, s.effects + CleanupEffects(s))
  }

  function Moved(l: Lock, clears: bool): Lock {
    if clears then l.(file := false) else l
  }

  function Quarantined(s: State, plan: Plan): State {
    if plan.validator then s.(lock := Moved(s.lock, plan.quarantine.clears), effects := s.effects + [Quarantine]) else s
  }

  datatype Ended = Ended(verdict: Verdict, state: State)

  /** The ladder from attempt `n` on. */
  function Climb(plan: Plan, n: nat, s: State): Ended
    requires 1 <= n <= 3
    decreases 3 - n
  {
    match plan.launch(n)
    case Succeeds(got) => Ended(Started, Launched(s, n, got))
    case Fails(failure, got) =>
      var clean := Cleaned(Launched(s, n, got), plan.removeFails(n));
      if failure.Foreign? then Ended(Raised(Foreign), Launched(s, n, got))
      else if failure.OtherSelenium? || n == 3 then Ended(Raised(failure), clean)
      else if n == 1 then Climb(plan, 2, clean)
      else if plan.validator && plan.quarantine.raises then Ended(Raised(Foreign), Quarantined(clean, plan))
      else Climb(plan, 3, Quarantined(clean, plan))
  }

  // ── the object ────────────────────────────────────────────────

  class Browser {
    var driver: bool
    var forwarder: bool
    var collector: bool
    var lockPath: bool
    var lockFile: bool
    var heartbeatStop: bool
    var watchdogStop: bool
    var effects: seq<Effect>

    constructor ()
      ensures Now() == State(false, false, false, Lock(false, false), false, false, [])
    {
      driver, forwarder, collector, lockPath, lockFile := false, false, false, false, false;
      heartbeatStop, watchdogStop, effects := false, false, [];
    }

    function Now(): State
      reads this
    {
      State(driver, forwarder, collector, Lock(lockPath, lockFile), heartbeatStop, watchdogStop, effects)
    }

    method Do(e: Effect)
      modifies this`effects
      ensures effects == old(effects) + [e]
    {
      effects := effects + [e];
    }

    method StartOnce(attempt: nat, got: Parts)
      modifies this
      ensures Now() == Launched(old(Now()), attempt, got)
    {
      Do(Launch(attempt, attempt == 3));
      match got.lock {
        case NotReached =>
        case Written => lockPath, lockFile, heartbeatStop := true, true, false;
        case WriteFailed => lockPath := false;
      }
      if got.forwarder {
        forwarder := true;
      }
      if got.driver {
        driver := true;
      }
      if got.collector {
        collector := true;
      }
      if got.watchdog {
        watchdogStop := false;
      }
    }

    /** The lock's share of the cleanup: a refused removal keeps the path as well. */
    method ReleaseLock(removeFails: bool)
      modifies this
      ensures Now() == old(Now()).(lock := Released(old(Now()).lock, removeFails),
                                   effects := old(effects) + (if old(lockPath && lockFile) then [RemoveLock] else []))
    {
      if lockPath && lockFile {
        Do(RemoveLock);
        if !removeFails {
          lockFile := false;
          lockPath := false;
        }
      }
    }

    method CleanupAfterFailedStart(removeFails: bool)
      modifies this
      ensures Now() == Cleaned(old(Now()), removeFails)
    {
      if driver {
        Do(QuitDriver);
        driver := false;
      }
      if forwarder {
        forwarder := false;
      }
      Do(StopHeartbeat);
      heartbeatStop := true;
      ReleaseLock(removeFails);
      if collector {
        collector := false;
      }
      watchdogStop := true;
    }

    method Start(plan: Plan) returns (verdict: Verdict)
      modifies this
      ensures Ended(verdict, Now()) == if plan.activeRun then Ended(Refused, old(Now())) else Climb(plan, 1, old(Now()))
    {
      if plan.activeRun {
        return Refused;
      }
      var attempt := 1;
      while attempt <= 3
        invariant 1 <= attempt <= 3
        invariant Climb(plan, 1, old(Now())) == Climb(plan, attempt, Now())
      {
        var launch := plan.launch(attempt);
        StartOnce(attempt, launch.got);
        if launch.Succeeds? {
          return Started;
        }
        if launch.failure.Foreign? {
          return Raised(Foreign);
        }
        var isChromeCrash := launch.failure.Crash?;
        if !isChromeCrash || attempt == 3 {
          CleanupAfterFailedStart(plan.removeFails(attempt));
          return Raised(launch.failure);
        }
        CleanupAfterFailedStart(plan.removeFails(attempt));
        if attempt == 2 && plan.validator {
          Do(Quarantine);
          if plan.quarantine.clears {
            lockFile := false;
          }
          if plan.quarantine.raises {
            return Raised(Foreign);
          }
        }
        attempt := attempt + 1;
      }
    }

    /** `close`: the lock is released before Chrome is quit. */
    method Close(removeFails: bool)
      modifies this
      ensures !driver && !forwarder && !collector && heartbeatStop && watchdogStop
      ensures lockFile == (old(lockFile) && (!old(lockPath) || removeFails))
      ensures lockPath == (old(lockPath) && !old(lockFile))
      ensures effects == old(effects) + [StopHeartbeat]
                         + (if old(lockPath && lockFile) then [RemoveLock] else [])
                         + (if old(driver) then [QuitDriver] else [])
    {
      Do(StopHeartbeat);
      heartbeatStop := true;
      if lockPath && lockFile {
        Do(RemoveLock);
        if !removeFails {
          lockFile := false;
        }
        lockPath := false;
      }
      watchdogStop := true;
      collector := false;
      if driver {
        Do(QuitDriver);
        driver := false;
      }
      forwarder := false;
    }
  }

  // ── what the ladder guarantees ────────────────────────────────

  predicate Idle(s: State) {
    !s.driver && !s.forwarder && !s.collector
  }

  /** The launches and quarantines among the effects. */
  function Milestones(effects: seq<Effect>): seq<Effect> {
    if effects == [] then []
    else
      var e := effects[|effects| - 1];
      Milestones(effects[..|effects| - 1]) + (if e.Launch? || e.Quarantine? then [e] else [])
  }

  lemma {:induction false} MilestonesAppend(a: seq<Effect>, b: seq<Effect>)
    ensures Milestones(a + b) == Milestones(a) + Milestones(b)
    decreases |b|
  {
    if b == [] {
      assert a + b == a;
    } else {
      assert (a + b)[..|a + b| - 1] == a + b[..|b| - 1];
      MilestonesAppend(a, b[..|b| - 1]);
    }
  }

  lemma MilestonesLast(effects: seq<Effect>, e: Effect)
    ensures Milestones(effects + [e]) == Milestones(effects) + (if e.Launch? || e.Quarantine? then [e] else [])
  {
    assert (effects + [e])[..|effects|] == effects;
  }

  /** A failed launch with its cleanup adds one milestone, the launch. */
  lemma FailedLaunch(s: State, n: nat, got: Parts, removeFails: bool)
    ensures Milestones(Launched(s, n, got).effects) == Milestones(s.effects) + [Launch(n, n == 3)]
    ensures Milestones(Cleaned(Launched(s, n, got), removeFails).effects) == Milestones(s.effects) + [Launch(n, n == 3)]
  {
    MilestonesLast(s.effects, Launch(n, n == 3));
    CleanupIsNoMilestone(Launched(s, n, got), removeFails);
  }

  lemma CleanupIsNoMilestone(t: State, removeFails: bool)
    ensures Milestones(Cleaned(t, removeFails).effects) == Milestones(t.effects)
  {
    MilestonesAppend(t.effects, CleanupEffects(t));
    var quit := if t.driver then [QuitDriver] else [];
    var remove := if t.lock.path && t.lock.file then [RemoveLock] else [];
    assert quit + [StopHeartbeat] + remove == CleanupEffects(t);
    MilestonesAppend(quit + [StopHeartbeat], remove);
    MilestonesLast(quit, StopHeartbeat);
    assert Milestones(quit) == [] by { MilestonesLast([], QuitDriver); assert [] + [QuitDriver] == [QuitDriver]; }
    assert Milestones(remove) == [] by { MilestonesLast([], RemoveLock); assert [] + [RemoveLock] == [RemoveLock]; }
  }

  /** How far the ladder gets: at most three launches, only the third without extensions,
      and at most one quarantine, between the second and the third. */
  datatype Rungs = One | Two | TwoThenQuarantine | Three(quarantined: bool)

  function RungEffects(r: Rungs): seq<Effect> {
    match r
    case One => [Launch(1, false)]
    case Two => [Launch(1, false), Launch(2, false)]
    case TwoThenQuarantine => [Launch(1, false), Launch(2, false), Quarantine]
    case Three(q) => [Launch(1, false), Launch(2, false)] + (if q then [Quarantine] else []) + [Launch(3, true)]
  }

  function RungsOf(plan: Plan): Rungs {
    if plan.launch(1) == Fails(Crash, plan.launch(1).got) then
      if plan.launch(2) == Fails(Crash, plan.launch(2).got) then
        if plan.validator && plan.quarantine.raises then TwoThenQuarantine else Three(plan.validator)
      else Two
    else One
  }

  /** The milestones of the ladder from attempt `n` on. */
  function RungsFrom(plan: Plan, n: nat): seq<Effect>
    requires 1 <= n <= 3
    decreases 3 - n
  {
    var launch := plan.launch(n);
    [Launch(n, n == 3)] +
    if launch.Succeeds? || !launch.failure.Crash? || n == 3 then []
    else if n == 1 then RungsFrom(plan, 2)
    else if !plan.validator then RungsFrom(plan, 3)
    else [Quarantine] + (if plan.quarantine.raises then [] else RungsFrom(plan, 3))
  }

  lemma Regroup(a: seq<Effect>, b: seq<Effect>, c: seq<Effect>, d: seq<Effect>)
    ensures a + b + c + d == a + (b + (c + d))
  {
  }

  /** The attempt at `n` is retried from this state. */
  function Retried(plan: Plan, n: nat, s: State): State {
    var clean := Cleaned(Launched(s, n, plan.launch(n).got), plan.removeFails(n));
    if n == 2 then Quarantined(clean, plan) else clean
  }

  predicate Retries(plan: Plan, n: nat) {
    plan.launch(n).Fails? && plan.launch(n).failure.Crash? && n < 3
    && !(n == 2 && plan.validator && plan.quarantine.raises)
  }

  lemma ClimbRetries(plan: Plan, n: nat, s: State)
    requires 1 <= n <= 3 && Retries(plan, n)
    ensures Climb(plan, n, s) == Climb(plan, n + 1, Retried(plan, n, s))
  {
  }

  lemma RungsRetry(plan: Plan, n: nat)
    requires 1 <= n <= 3 && Retries(plan, n)
    ensures RungsFrom(plan, n) == [Launch(n, n == 3)] + ((if n == 2 && plan.validator then [Quarantine] else []) + RungsFrom(plan, n + 1))
  {
    assert n == 1 || n == 2;
  }

  /** The ladder ends behind its quarantine. */
  predicate StopsInQuarantine(plan: Plan, n: nat) {
    n == 2 && plan.launch(n).Fails? && plan.launch(n).failure.Crash? && plan.validator && plan.quarantine.raises
  }

  lemma ClimbStops(plan: Plan, n: nat, s: State)
    requires 1 <= n <= 3 && !Retries(plan, n)
    ensures RungsFrom(plan, n) == [Launch(n, n == 3)] + (if StopsInQuarantine(plan, n) then [Quarantine] else [])
    ensures Climb(plan, n, s).state == Stopped(plan, n, s)
  {
  }

  /** The state that a launch without a retry leaves. */
  function Stopped(plan: Plan, n: nat, s: State): State {
    if StopsInQuarantine(plan, n) then Retried(plan, n, s)
    else if plan.launch(n).Fails? && !plan.launch(n).failure.Foreign?
    then Cleaned(Launched(s, n, plan.launch(n).got), plan.removeFails(n))
    else Launched(s, n, plan.launch(n).got)
  }

  lemma StoppedMilestones(plan: Plan, n: nat, s: State)
    ensures Milestones(Stopped(plan, n, s).effects)
            == Milestones(s.effects) + ([Launch(n, n == 3)] + (if StopsInQuarantine(plan, n) then [Quarantine] else []))
  {
    if StopsInQuarantine(plan, n) {
      RetriedMilestones(plan, n, s);
      assert Milestones(s.effects) + ([Launch(n, n == 3)] + [Quarantine])
          == Milestones(s.effects) + [Launch(n, n == 3)] + [Quarantine];
    } else {
      FailedLaunch(s, n, plan.launch(n).got, plan.removeFails(n));
    }
  }

  lemma RetriedMilestones(plan: Plan, n: nat, s: State)
    ensures Milestones(Retried(plan, n, s).effects)
            == Milestones(s.effects) + [Launch(n, n == 3)] + (if n == 2 && plan.validator then [Quarantine] else [])
  {
    FailedLaunch(s, n, plan.launch(n).got, plan.removeFails(n));
    MilestonesLast(Cleaned(Launched(s, n, plan.launch(n).got), plan.removeFails(n)).effects, Quarantine);
  }

  lemma ClimbEnds(plan: Plan, n: nat, s: State)
    requires 1 <= n <= 3 && !Retries(plan, n)
    ensures Milestones(Climb(plan, n, s).state.effects) == Milestones(s.effects) + RungsFrom(plan, n)
  {
    ClimbStops(plan, n, s);
    StoppedMilestones(plan, n, s);
  }

  lemma {:induction false} ClimbMilestones(plan: Plan, n: nat, s: State)
    requires 1 <= n <= 3
    ensures Milestones(Climb(plan, n, s).state.effects) == Milestones(s.effects) + RungsFrom(plan, n)
    decreases 3 - n
  {
    if Retries(plan, n) {
      var again := if n == 2 && plan.validator then [Quarantine] else [];
      ClimbRetries(plan, n, s);
      RungsRetry(plan, n);
      RetriedMilestones(plan, n, s);
      ClimbMilestones(plan, n + 1, Retried(plan, n, s));
      Regroup(Milestones(s.effects), [Launch(n, n == 3)], again, RungsFrom(plan, n + 1));
      assert Milestones(Climb(plan, n, s).state.effects)
          == Milestones(s.effects) + [Launch(n, n == 3)] + again + RungsFrom(plan, n + 1);
    } else {
      ClimbEnds(plan, n, s);
    }
  }

  lemma RungsAreFew(plan: Plan)
    ensures RungsFrom(plan, 1) == RungEffects(RungsOf(plan))
  {
    assert RungsFrom(plan, 3) == [Launch(3, true)];
    if Retries(plan, 1) {
      assert RungsFrom(plan, 1) == [Launch(1, false)] + RungsFrom(plan, 2);
    }
  }

  lemma LadderIsBounded(plan: Plan, s: State)
    ensures Milestones(Climb(plan, 1, s).state.effects) == Milestones(s.effects) + RungEffects(RungsOf(plan))
  {
    ClimbMilestones(plan, 1, s);
    RungsAreFew(plan);
  }

  // ── what a failed start leaves behind ─────────────────────────

  /** The launch that the ladder ends with, from attempt `n` on. */
  function LastFrom(plan: Plan, n: nat): (last: nat)
    requires 1 <= n <= 3
    ensures n <= last <= 3 && !Retries(plan, last)
    decreases 3 - n
  {
    if Retries(plan, n) then LastFrom(plan, n + 1) else n
  }

  /** The lock behind the cleanup of launch `n`, and behind the quarantine where there is
      one, from the lock a start finds. */
  function Cleared(plan: Plan, l: Lock, n: nat): Lock
    decreases n, 0
  {
    if n == 0 then l
    else Released(Locked(Behind(plan, l, n - 1), plan.launch(n).got.lock), plan.removeFails(n))
  }

  function Behind(plan: Plan, l: Lock, n: nat): Lock
    decreases n, 1
  {
    var cleared := Cleared(plan, l, n);
    if n == 2 && plan.validator then Moved(cleared, plan.quarantine.clears) else cleared
  }

  /** What a raising ladder that found the lock `l` leaves when `last` is its last launch: an
      exception of another class leaves all that launch had set up, any other end has
      cleared all but perhaps the lock. */
  predicate LeftBehind(plan: Plan, l: Lock, last: nat, s: State)
    requires last >= 1
  {
    var launch := plan.launch(last);
    && launch.Fails?
    && if launch.failure.Foreign? then
         && s.driver == launch.got.driver && s.forwarder == launch.got.forwarder && s.collector == launch.got.collector
         && s.lock == Locked(Behind(plan, l, last - 1), launch.got.lock)
       else
         && Idle(s) && s.heartbeatStop && s.watchdogStop
         && s.lock == if StopsInQuarantine(plan, last) then Behind(plan, l, last) else Cleared(plan, l, last)
  }

  lemma {:induction false} RaisedLeaves(plan: Plan, l: Lock, n: nat, s: State)
    requires 1 <= n <= 3 && Idle(s) && s.lock == Behind(plan, l, n - 1)
    requires Climb(plan, n, s).verdict.Raised?
    ensures LeftBehind(plan, l, LastFrom(plan, n), Climb(plan, n, s).state)
    decreases 3 - n
  {
    if Retries(plan, n) {
      ClimbRetries(plan, n, s);
      RetriedLeaves(plan, l, n, s);
      RaisedLeaves(plan, l, n + 1, Retried(plan, n, s));
    } else {
      ClimbStops(plan, n, s);
      RaisedFails(plan, n, s);
      StoppedLeaves(plan, l, n, s);
    }
  }

  lemma RetriedLeaves(plan: Plan, l: Lock, n: nat, s: State)
    requires 1 <= n <= 3 && Retries(plan, n) && s.lock == Behind(plan, l, n - 1)
    ensures Idle(Retried(plan, n, s)) && Retried(plan, n, s).lock == Behind(plan, l, n)
  {
  }

  lemma RaisedFails(plan: Plan, n: nat, s: State)
    requires 1 <= n <= 3 && !Retries(plan, n) && Climb(plan, n, s).verdict.Raised?
    ensures plan.launch(n).Fails?
  {
  }

  lemma StoppedLeaves(plan: Plan, l: Lock, n: nat, s: State)
    requires 1 <= n <= 3 && Idle(s) && s.lock == Behind(plan, l, n - 1) && plan.launch(n).Fails?
    ensures LeftBehind(plan, l, n, Stopped(plan, n, s))
  {
  }

  /** A quarantine is noted, takes at most the lock file along, and leaves the object alone. */
  lemma QuarantineTakesTheFile(plan: Plan, s: State)
    requires plan.validator
    ensures var t := Quarantined(s, plan);
            && t.effects == s.effects + [Quarantine] && t.lock.path == s.lock.path
            && t.lock.file == (s.lock.file && !plan.quarantine.clears)
            && t.driver == s.driver && t.forwarder == s.forwarder && t.collector == s.collector
            && t.heartbeatStop == s.heartbeatStop && t.watchdogStop == s.watchdogStop
  {
  }

  /** A start that succeeds holds what its last launch has set up, with the lock as that launch
      left it, and the threads that launch started have not been told to stop. */
  lemma {:induction false} StartedHolds(plan: Plan, l: Lock, n: nat, s: State)
    requires 1 <= n <= 3 && Idle(s) && s.lock == Behind(plan, l, n - 1)
    requires Climb(plan, n, s).verdict.Started?
    ensures var t := Climb(plan, n, s).state;
            var last := LastFrom(plan, n);
            var got := plan.launch(last).got;
            && plan.launch(last).Succeeds?
            && t.driver == got.driver && t.forwarder == got.forwarder && t.collector == got.collector
            && t.lock == Locked(Behind(plan, l, last - 1), got.lock)
            && (got.lock.Written? ==> !t.heartbeatStop) && (got.watchdog ==> !t.watchdogStop)
    decreases 3 - n
  {
    if Retries(plan, n) {
      ClimbRetries(plan, n, s);
      RetriedLeaves(plan, l, n, s);
      StartedHolds(plan, l, n + 1, Retried(plan, n, s));
    } else {
      ClimbStops(plan, n, s);
    }
  }

  /** What a cleanup does with the system, in its order: the driver is quit first, and the
      heartbeat is stopped before the lock goes, so that it cannot write it again. */
  lemma CleanupInOrder(s: State, removeFails: bool)
    ensures var done := Cleaned(s, removeFails).effects;
            && s.effects <= done
            && (forall i :: |s.effects| <= i < |done| && done[i] == RemoveLock ==>
                  exists j :: |s.effects| <= j < i && done[j] == StopHeartbeat)
            && (forall i :: |s.effects| <= i < |done| && done[i] == QuitDriver ==> i == |s.effects|)
            && (QuitDriver in done[|s.effects|..] <==> s.driver)
            && (RemoveLock in done[|s.effects|..] <==> s.lock.path && s.lock.file)
  {
    var added := CleanupEffects(s);
    assert (s.effects + added)[|s.effects|..] == added;
    assert added[if s.driver then 1 else 0] == StopHeartbeat;
    assert s.driver ==> added[0] == QuitDriver;
    assert s.lock.path && s.lock.file ==> added[|added| - 1] == RemoveLock;
  }

  // ── when the lock file stays ──────────────────────────────────

  /** Launch `k` wrote the lock; 0 stands for a file the start found. */
  predicate Took(plan: Plan, l: Lock, k: nat) {
    if k == 0 then l.file else plan.launch(k).got.lock.Written?
  }

  /** A cleanup behind launch `j` has no path to the file from `k`: there never was one, or a
      later write failed and cleared it. */
  predicate Unhooked(plan: Plan, l: Lock, k: nat, j: nat) {
    (k == 0 && !l.path) || exists i :: k < i <= j && plan.launch(i).got.lock.WriteFailed?
  }

  /** From launch `k` to launch `n` no other write took the lock over, every cleanup was
      refused or had no path, and no quarantine took the file away. */
  predicate Unremoved(plan: Plan, l: Lock, k: nat, n: nat) {
    && (forall j :: k < j <= n ==> !plan.launch(j).got.lock.Written?)
    && (forall j :: k <= j <= n && j > 0 ==> plan.removeFails(j) || Unhooked(plan, l, k, j))
    && !(k <= 2 < n && plan.validator && plan.quarantine.clears)
  }

  lemma UnremovedBefore(plan: Plan, l: Lock, k: nat, n: nat)
    requires k < n && Unremoved(plan, l, k, n)
    ensures Unremoved(plan, l, k, n - 1)
  {
    forall j | k <= j <= n - 1 && j > 0 ensures plan.removeFails(j) || Unhooked(plan, l, k, j) {
    }
  }

  /** While it is unremoved the file is there, and the path exactly as long as it is not
      unhooked. */
  lemma {:induction false} UnremovedStays(plan: Plan, l: Lock, k: nat, n: nat)
    requires k <= n && Took(plan, l, k) && Unremoved(plan, l, k, n)
    ensures Cleared(plan, l, n) == Lock(!Unhooked(plan, l, k, n), true)
    decreases n
  {
    if k < n {
      UnremovedBefore(plan, l, k, n);
      UnremovedStays(plan, l, k, n - 1);
      var write := plan.launch(n).got.lock;
      assert !write.Written?;
      assert Unhooked(plan, l, k, n) <==> Unhooked(plan, l, k, n - 1) || write.WriteFailed?;
      assert plan.removeFails(n) || Unhooked(plan, l, k, n);
    } else if n > 0 {
      assert plan.removeFails(n) || Unhooked(plan, l, k, n);
      assert !Unhooked(plan, l, k, n);
    }
  }

  lemma UnremovedNext(plan: Plan, l: Lock, k: nat, n: nat)
    requires k < n && Took(plan, l, k) && Unremoved(plan, l, k, n - 1)
    requires !plan.launch(n).got.lock.Written? && Cleared(plan, l, n).file
    ensures Unremoved(plan, l, k, n)
  {
    UnremovedStays(plan, l, k, n - 1);
    assert Unhooked(plan, l, k, n) <==> Unhooked(plan, l, k, n - 1) || plan.launch(n).got.lock.WriteFailed?;
    forall j | k <= j <= n && j > 0 ensures plan.removeFails(j) || Unhooked(plan, l, k, j) {
    }
  }

  /** A launch wrote the lock file, or it was found, and since then no other write took over,
      every cleanup was refused or had no path, and no quarantine took it away. */
  predicate Stuck(plan: Plan, l: Lock, n: nat) {
    exists k :: 0 <= k <= n && Took(plan, l, k) && Unremoved(plan, l, k, n)
  }

  /** The lock file is there behind the cleanup of launch `n` exactly when it is stuck. */
  lemma {:induction false} StuckIff(plan: Plan, l: Lock, n: nat)
    ensures Cleared(plan, l, n).file <==> Stuck(plan, l, n)
    decreases n
  {
    if Cleared(plan, l, n).file {
      if n == 0 {
        assert Took(plan, l, 0) && Unremoved(plan, l, 0, 0);
      } else if plan.launch(n).got.lock.Written? {
        assert Took(plan, l, n) && Unremoved(plan, l, n, n);
      } else {
        StuckIff(plan, l, n - 1);
        assert Behind(plan, l, n - 1).file && Cleared(plan, l, n - 1).file;
        assert Stuck(plan, l, n - 1);
        var k :| 0 <= k <= n - 1 && Took(plan, l, k) && Unremoved(plan, l, k, n - 1);
        UnremovedNext(plan, l, k, n);
      }
    }
    if Stuck(plan, l, n) {
      var k :| 0 <= k <= n && Took(plan, l, k) && Unremoved(plan, l, k, n);
      UnremovedStays(plan, l, k, n);
    }
  }

  // ── what a raising start promises ─────────────────────────────

  /** The quarantine between launches 2 and 3 took the lock file away. */
  predicate QuarantineClears(plan: Plan) {
    plan.validator && plan.quarantine.clears
  }

  /** A start that raises after one of the Selenium exceptions has cleared driver, forwarder
      and collector and told both threads to stop. The lock file is left exactly when it is
      stuck behind the last cleanup and a quarantine that raised has not taken it away. */
  lemma CaughtFailureIsSwept(plan: Plan, s: State)
    requires Idle(s) && Climb(plan, 1, s).verdict.Raised?
    requires plan.launch(LastFrom(plan, 1)).failure != Foreign
    ensures var t := Climb(plan, 1, s).state;
            var last := LastFrom(plan, 1);
            && Idle(t) && t.heartbeatStop && t.watchdogStop
            && (t.lock.file <==> Stuck(plan, s.lock, last) && !(StopsInQuarantine(plan, last) && QuarantineClears(plan)))
  {
    RaisedLeaves(plan, s.lock, 1, s);
    StuckIff(plan, s.lock, LastFrom(plan, 1));
  }

  /** A start that raises another exception leaves exactly what its last launch had set up,
      and the lock file if that launch wrote it or it was stuck before and not taken away
      by the quarantine. */
  lemma EscapedFailureLeaves(plan: Plan, s: State)
    requires Idle(s) && Climb(plan, 1, s).verdict.Raised?
    requires plan.launch(LastFrom(plan, 1)).failure == Foreign
    ensures var t := Climb(plan, 1, s).state;
            var last := LastFrom(plan, 1);
            var got := plan.launch(last).got;
            && t.driver == got.driver && t.forwarder == got.forwarder && t.collector == got.collector
            && (t.lock.file <==> got.lock.Written? || (Stuck(plan, s.lock, last - 1) && !(last == 3 && QuarantineClears(plan))))
  {
    RaisedLeaves(plan, s.lock, 1, s);
    StuckIff(plan, s.lock, LastFrom(plan, 1) - 1);
  }

  /** So a raising start leaves neither parts nor a lock file behind exactly when it ended
      after a Selenium exception with no stuck lock, or in another exception before its
      last launch had set anything up, with no lock stuck from before. */
  lemma RaisedIsBareIff(plan: Plan, s: State)
    requires Idle(s) && Climb(plan, 1, s).verdict.Raised?
    ensures plan.launch(LastFrom(plan, 1)).Fails?
    ensures var t := Climb(plan, 1, s).state;
            var last := LastFrom(plan, 1);
            var got := plan.launch(last).got;
            Idle(t) && !t.lock.file
            <==> if plan.launch(last).failure != Foreign
                 then !Stuck(plan, s.lock, last) || (StopsInQuarantine(plan, last) && QuarantineClears(plan))
                 else !got.driver && !got.forwarder && !got.collector && !got.lock.Written?
                      && (!Stuck(plan, s.lock, last - 1) || (last == 3 && QuarantineClears(plan)))
  {
    RaisedLeaves(plan, s.lock, 1, s);
    if plan.launch(LastFrom(plan, 1)).failure != Foreign {
      CaughtFailureIsSwept(plan, s);
    } else {
      EscapedFailureLeaves(plan, s);
    }
  }

  /** A written lock whose removal was refused outlives a later cleanup that nothing refuses
      when a failed write in between has cleared the path. */
  lemma FailedWriteOrphansTheLock(plan: Plan, s: State)
    requires Idle(s)
    requires plan.launch(1) == Fails(Crash, plan.launch(1).got) && plan.launch(1).got.lock == Written
    requires plan.launch(2) == Fails(OtherSelenium, plan.launch(2).got) && plan.launch(2).got.lock == WriteFailed
    ensures Climb(plan, 1, s).verdict == Raised(OtherSelenium)
    ensures Climb(plan, 1, s).state.lock.file <==> plan.removeFails(1)
  {
  }
}
