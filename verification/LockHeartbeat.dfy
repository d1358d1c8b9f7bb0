/** The lock heartbeat thread of runtime.py against the main thread that stops it and
    removes the lock: reading the file and replacing it are separate steps. */
module LockHeartbeat {
  import opened Json
  import opened ProfileLock

  /** Where the thread is: waiting for its next round, between the read and the replace of
      one refresh, or gone. */
  datatype Thread = Waiting | HasRead(data: LockData) | Exited

  /** Where the main thread is: working; waiting in the join; past it, knowing whether the
      thread had ended or the two seconds were over; past the removal of the lock. */
  datatype Main = Working | Joining | Stopped(ended: bool) | Removed(ended: bool)

  datatype Race = Race(own: int, file: LockFile, thread: Thread, main: Main, stop: bool, now: int)

  datatype Action =
    | Wake              // the wait times out: read the file
    | Quit              // the wait sees the stop event
    | Replace           // write the refreshed lock
    | WriteFails        // OSError in the refresh
    | Signal            // set the stop event, enter the join
    | JoinReturns       // the thread has ended
    | JoinTimesOut      // two seconds are over
    | Remove            // os.remove of the lock file
    | Tick(dt: nat)
    | Foreign(file: LockFile)   // another process writes or removes the file

  predicate Enabled(s: Race, a: Action) {
    match a
    case Wake => s.thread.Waiting? && !s.stop
    case Quit => s.thread.Waiting? && s.stop
    case Replace => s.thread.HasRead?
    case WriteFails => s.thread.HasRead?
    case Signal => s.main.Working?
    case JoinReturns => s.main.Joining? && s.thread.Exited?
    case JoinTimesOut => s.main.Joining?
    case Remove => s.main.Stopped?
    case Tick(_) => true
    case Foreign(_) => true
  }

  function Step(s: Race, a: Action): Race
    requires Enabled(s, a)
  {
    match a
    case Wake =>
      var data := ReadLock(s.file);
      s.(thread := if data.Some? && data.value.pid == s.own then HasRead(data.value) else Exited)
    case Quit => s.(thread := Exited)
    case Replace => s.(file := Written(s.thread.data, s.now), thread := Waiting)
    case WriteFails => s.(thread := Exited)
    case Signal => s.(stop := true, main := Joining)
    case JoinReturns => s.(main := Stopped(true))
    case JoinTimesOut => s.(main := Stopped(false))
    case Remove => s.(file := Missing, main := Removed(s.main.ended))
    case Tick(dt) => s.(now := s.now + dt)
    case Foreign(file) => s.(file := file)
  }

  /** What a refresh writes: the data it read with a new heartbeat. */
  function Written(data: LockData, now: int): LockFile {
    var acquired := if data.acquired.Some? then data.acquired else Some(Stamp(now));
    Present(Stamped(data.pid, acquired, Some(Stamp(now))), now)
  }

  predicate Run(s: Race, run: seq<Action>)
    decreases run
  {
    run == [] || (Enabled(s, run[0]) && Run(Step(s, run[0]), run[1..]))
  }

  function After(s: Race, run: seq<Action>): Race
    requires Run(s, run)
    decreases run
  {
    if run == [] then s else After(Step(s, run[0]), run[1..])
  }

  predicate Own(run: seq<Action>) {
    forall a :: a in run ==> !a.Foreign?
  }

  /** Read and replace without a step in between are the one-step refresh. */
  lemma RefreshIsReadThenReplace(s: Race)
    requires Enabled(s, Wake)
    ensures var s1 := Step(s, Wake);
            if s1.thread.HasRead? then Refreshed(s.file, s.own, s.now) == Some(Step(s1, Replace).file)
            else Refreshed(s.file, s.own, s.now).None? && s1.thread.Exited?
  {
  }

  // ── the thread stays out once it has ended ────────────────────

  /** Ended threads do nothing; a thread that is between read and replace has read its own
      lock; the join only returns early for an ended thread. */
  predicate Inv(s: Race) {
    && (s.thread.HasRead? ==> s.thread.data.pid == s.own)
    && (!s.main.Working? ==> s.stop)
    && ((s.main.Stopped? || s.main.Removed?) && s.main.ended ==> s.thread.Exited?)
  }

  lemma {:induction false} RunKeepsInv(s: Race, run: seq<Action>)
    requires Inv(s) && Run(s, run)
    ensures Inv(After(s, run))
    decreases run
  {
    if run != [] {
      RunKeepsInv(Step(s, run[0]), run[1..]);
    }
  }

  lemma {:induction false} ExitedStaysOut(s: Race, run: seq<Action>)
    requires s.thread.Exited? && Run(s, run)
    ensures After(s, run).thread.Exited?
    ensures forall a :: a in run ==> !a.Replace?
    ensures Own(run) && s.file.Missing? ==> After(s, run).file.Missing?
    decreases run
  {
    if run != [] {
      ExitedStaysOut(Step(s, run[0]), run[1..]);
      assert forall a :: a in run ==> a == run[0] || a in run[1..];
    }
  }

  /** A thread that wakes up to a missing or foreign lock never writes again. */
  lemma ForeignLockSilencesTheThread(s: Race, run: seq<Action>)
    requires Run(s, [Wake] + run)
    requires ReadLock(s.file).None? || ReadLock(s.file).value.pid != s.own
    ensures forall a :: a in run ==> !a.Replace?
  {
    assert ([Wake] + run)[1..] == run;
    ExitedStaysOut(Step(s, Wake), run);
  }

  /** Once the stop event is set the thread writes at most once more: only if it was
      already past its read. After that the lock stays gone. */
  lemma {:induction false} StoppedThreadCanOnlyFinish(s: Race, run: seq<Action>)
    requires s.stop && !s.main.Working? && s.file.Missing? && Run(s, run) && Own(run)
    ensures s.thread.HasRead? || After(s, run).file.Missing?
    decreases run
  {
    if run != [] {
      assert run[0] in run;
      assert forall a :: a in run[1..] ==> a in run;
      if !s.thread.HasRead? {
        StoppedThreadCanOnlyFinish(Step(s, run[0]), run[1..]);
      }
    }
  }

  /** After stopping, joining and removing, the lock can come back by this thread exactly
      when it is still between its read and its replace, that is only when the join timed
      out. */
  lemma LockComesBackIff(s: Race)
    requires Inv(s) && s.main.Removed? && s.file.Missing?
    ensures (exists run :: Run(s, run) && Own(run) && After(s, run).file.Present?) <==> s.thread.HasRead?
    ensures s.thread.HasRead? ==> !s.main.ended
  {
    if s.thread.HasRead? {
      var run := [Replace];
      assert run[1..] == [] && Run(Step(s, Replace), []);
      assert Run(s, run) && Own(run) && After(s, run) == After(Step(s, Replace), []);
      assert After(s, run).file.Present?;
    } else {
      forall run | Run(s, run) && Own(run) ensures After(s, run).file.Missing? {
        StoppedThreadCanOnlyFinish(s, run);
      }
    }
  }

  /** The timed-out join is reachable with the thread in that position. */
  lemma JoinTimeoutResurrects(own: int, acquired: int)
    requires own > 0
    ensures var s := Race(own, FreshLock(own, acquired), Waiting, Working, false, acquired);
            var run := [Wake, Signal, JoinTimesOut, Remove, Replace];
            && Run(s, run) && After(s, run).main.Removed?
            && ReadLock(After(s, run).file).Some? && ReadLock(After(s, run).file).value.pid == own
  {
  }

  // ── how a stop should go ──────────────────────────────────────

  /** A waiting thread that has been told to stop can only end, and then the join returns; so
      does a thread whose refresh meets an OSError. */
  lemma StoppedWaiterLeaves(s: Race, a: Action)
    requires Enabled(s, a) && (a.Wake? || a.Quit? || a.Replace? || a.WriteFails?)
    ensures s.thread.Waiting? && s.stop ==> a == Quit && Step(s, a).thread.Exited?
    ensures a.WriteFails? ==> Step(s, a).thread.Exited? && Step(s, a).file == s.file
    ensures Step(s, a).thread.Exited? && s.main.Joining? ==> Enabled(Step(s, a), JoinReturns)
  {
  }

  /** The removal takes the file, and behind a join that saw the thread end the file stays
      gone in every run without other processes. */
  lemma EndedJoinIsSafe(s: Race, run: seq<Action>)
    requires Inv(s) && s.main.Stopped? && Run(Step(s, Remove), run) && Own(run)
    ensures Step(s, Remove).file.Missing? && Step(s, Remove).main == Removed(s.main.ended)
    ensures s.main.ended ==> After(Step(s, Remove), run).file.Missing?
  {
    if s.main.ended {
      StoppedThreadCanOnlyFinish(Step(s, Remove), run);
    }
  }

  // ── what refreshes preserve ───────────────────────────────────

  predicate Names(file: LockFile, own: int, acquired: int) {
    file.Present? && file.content.Stamped? && file.content.pid == own && file.content.acquired == Some(acquired)
  }

  /** While no other process touches it, the lock keeps its pid and its acquisition time
      through any number of refreshes, until the main thread removes it. */
  lemma {:induction false} RefreshPreservesOwnership(s: Race, run: seq<Action>, acquired: int)
    requires s.own > 0 && Names(s.file, s.own, acquired) && Run(s, run)
    requires s.thread.HasRead? ==> s.thread.data.pid == s.own && s.thread.data.acquired == Some(acquired)
    requires forall a :: a in run ==> !a.Foreign? && !a.Remove?
    ensures Names(After(s, run).file, s.own, acquired)
    decreases run
  {
    if run != [] {
      assert run[0] in run;
      assert forall a :: a in run[1..] ==> a in run;
      RefreshPreservesOwnership(Step(s, run[0]), run[1..], acquired);
    }
  }
}
