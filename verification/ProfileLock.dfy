/** The profile lock of runtime.py: `.ghost_shell.lock`, its liveness rule, and the
    processes that contend for one profile. Times are milliseconds of one shared clock. */
module ProfileLock {
  import opened Json

  const STALE: int := 180_000

  /** What the file holds; `Garbage` stands for everything the reader cannot parse. */
  datatype Content =
    | Garbage
    | PlainPid(pid: int)
    | Stamped(pid: int, acquired: Option<int>, heartbeat: Option<int>)

  datatype LockFile = Missing | Present(content: Content, mtime: int)

  datatype LockData = LockData(pid: int, acquired: Option<int>, heartbeat: Option<int>)

  /** `_read_gs_lock` */
  function ReadLock(file: LockFile): Option<LockData> {
    if file.Missing? then None
    else match file.content
      case Garbage => None
      case PlainPid(pid) => Some(LockData(pid, None, None))
      case Stamped(pid, acquired, heartbeat) =>
        if pid <= 0 then None else Some(LockData(pid, acquired, heartbeat))
  }

  function Max(a: int, b: int): int {
    if a < b then b else a
  }

  /** `_heartbeat_age_sec`: None when there is neither a heartbeat nor a file. */
  function Age(data: LockData, file: LockFile, now: int): Option<int> {
    if data.heartbeat.Some? then Some(Max(now - data.heartbeat.value, 0))
    else if file.Present? then Some(Max(now - file.mtime, 0))
    else None
  }

  /** A process on the machine: whether it looks like ours, whether its browser holds the
      profile, and whether it wrote the lock when it started. */
  datatype Proc = Proc(ours: bool, holder: bool, locked: bool)

  datatype State = State(now: int, file: LockFile, procs: map<int, Proc>)

  /** `_is_lock_live` */
  predicate IsLive(s: State, data: LockData) {
    && data.pid > 0
    && data.pid in s.procs
    && s.procs[data.pid].ours
    && var age := Age(data, s.file, s.now); age.None? || age.value < STALE
  }

  /** The guard at the top of `start`. */
  predicate Admits(s: State) {
    var data := ReadLock(s.file);
    data.None? || !IsLive(s, data.value)
  }

  /** Timestamps have whole seconds. */
  function Stamp(now: int): int {
    now - now % 1000
  }

  /** `_write_gs_lock` */
  function FreshLock(pid: int, now: int): LockFile {
    Present(Stamped(pid, Some(Stamp(now)), Some(Stamp(now))), now)
  }

  /** `_heartbeat_gs_lock`; None when the lock is gone or someone else's. */
  function Refreshed(file: LockFile, pid: int, now: int): Option<LockFile> {
    var data := ReadLock(file);
    if data.None? || data.value.pid != pid then None
    else
      var acquired := if data.value.acquired.Some? then data.value.acquired else Some(Stamp(now));
      Some(Present(Stamped(pid, acquired, Some(Stamp(now))), now))
  }

  // ── the file operations as methods ────────────────────────────

  class GsLock {
    var file: LockFile

    constructor (file: LockFile)
      ensures this.file == file
    {
      this.file := file;
    }

    /** `fails` is an OSError. */
    method Write(pid: int, now: int, fails: bool) returns (ok: bool)
      modifies this
      ensures ok == !fails
      ensures file == if fails then old(file) else FreshLock(pid, now)
    {
      if fails {
        return false;
      }
      var stamp := now - now % 1000;
      file := Present(Stamped(pid, Some(stamp), Some(stamp)), now);
      return true;
    }

    method Heartbeat(pid: int, now: int, fails: bool) returns (ok: bool)
      modifies this
      ensures ok == (Refreshed(old(file), pid, now).Some? && !fails)
      ensures file == if ok then Refreshed(old(file), pid, now).value else old(file)
    {
      var data := ReadLock(file);
      if data.None? || data.value.pid != pid || fails {
        return false;
      }
      var stamp := now - now % 1000;
      var acquired := data.value.acquired;
      if acquired.None? {
        acquired := Some(stamp);
      }
      file := Present(Stamped(pid, acquired, Some(stamp)), now);
      return true;
    }
  }

  // ── the transition system ─────────────────────────────────────

  datatype Action =
    | Spawn(pid: int, ours: bool)
    | Crash(pid: int)
    | Start(pid: int, written: bool)   // `written`: the lock write succeeds
    | Beat(pid: int)
    | Close(pid: int)
    | Tick(dt: nat)

  predicate Holds(s: State, pid: int) {
    pid in s.procs && s.procs[pid].holder
  }

  predicate Enabled(s: State, a: Action) {
    match a
    case Spawn(pid, _) => pid > 0 && pid !in s.procs
    case Crash(pid) => pid in s.procs
    case Start(pid, _) => pid > 0 && pid in s.procs && s.procs[pid].ours && !s.procs[pid].holder
    case Beat(pid) => Holds(s, pid) && s.procs[pid].locked
    case Close(pid) => Holds(s, pid)
    case Tick(_) => true
  }

  /** Guard and write of `start` are one step here. A start goes on when its write fails: then
      there is no heartbeat, and the close leaves the file alone. */
  function Step(s: State, a: Action): State
    requires Enabled(s, a)
  {
    match a
    case Spawn(pid, ours) => s.(procs := s.procs[pid := Proc(ours, false, false)])
    case Crash(pid) => s.(procs := s.procs - {pid})
    case Start(pid, written) => if Admits(s) then Claim(s, pid, written) else s
    case Beat(pid) =>
      var r := Refreshed(s.file, pid, s.now);
      if r.Some? then s.(file := r.value) else s
    case Close(pid) =>
      s.(file := if s.procs[pid].locked then Missing else s.file,
         procs := s.procs[pid := s.procs[pid].(holder := false, locked := false)])
    case Tick(dt) => s.(now := s.now + dt)
  }

  function Claim(s: State, pid: int, written: bool): State
    requires pid in s.procs
  {
    s.(file := if written then FreshLock(pid, s.now) else s.file,
       procs := s.procs[pid := s.procs[pid].(holder := true, locked := written)])
  }

  predicate Run(s: State, run: seq<Action>)
    decreases run
  {
    run == [] || (Enabled(s, run[0]) && Run(Step(s, run[0]), run[1..]))
  }

  function After(s: State, run: seq<Action>): State
    requires Run(s, run)
    decreases run
  {
    if run == [] then s else After(Step(s, run[0]), run[1..])
  }

  predicate NoHolder(s: State) {
    forall pid :: pid in s.procs ==> !s.procs[pid].holder
  }

  // ── mutual exclusion, exactly ─────────────────────────────────

  predicate Exclusive(s: State) {
    forall p, q :: p in s.procs && q in s.procs && s.procs[p].holder && s.procs[q].holder ==> p == q
  }

  /** At most one holder at every point of the run. */
  predicate AlwaysExclusive(s: State, run: seq<Action>)
    requires Run(s, run)
    decreases run
  {
    Exclusive(s) && (run == [] || AlwaysExclusive(Step(s, run[0]), run[1..]))
  }

  /** The heartbeat in the lock file is 180 s old. */
  predicate Overdue(s: State) {
    var data := ReadLock(s.file);
    data.Some? && var age := Age(data.value, s.file, s.now); age.Some? && age.value >= STALE
  }

  /** A holder that nothing guards: its heartbeat is 180 s old, or it went on without a lock
      and no other live lock happens to block the profile. */
  predicate Unguarded(s: State, p: int)
    requires Holds(s, p)
  {
    if s.procs[p].locked then Overdue(s) else Admits(s)
  }

  predicate StartsBesideUnguarded(s: State, a: Action) {
    a.Start? && exists p :: p in s.procs && s.procs[p].holder && Unguarded(s, p)
  }

  /** No start takes place beside an unguarded holder. */
  predicate NoStartBesideUnguarded(s: State, run: seq<Action>)
    requires Run(s, run)
    decreases run
  {
    run == [] || (!StartsBesideUnguarded(s, run[0]) && NoStartBesideUnguarded(Step(s, run[0]), run[1..]))
  }

  /** One holder at most: a process of ours, which the lock file names if it wrote it. */
  predicate Named(s: State) {
    && Exclusive(s)
    && forall pid :: pid in s.procs && s.procs[pid].holder ==>
         pid > 0 && s.procs[pid].ours
         && (s.procs[pid].locked ==> ReadLock(s.file).Some? && ReadLock(s.file).value.pid == pid)
  }

  /** Beside a holder the guard lets a start through exactly when the holder is
      unguarded. */
  lemma GuardOpensIffUnguarded(s: State, p: int)
    requires Named(s) && Holds(s, p)
    ensures Admits(s) <==> Unguarded(s, p)
  {
    if s.procs[p].locked {
      assert ReadLock(s.file).value.pid == p;
    }
  }

  lemma StepKeepsNamed(s: State, a: Action)
    requires Named(s) && Enabled(s, a) && !StartsBesideUnguarded(s, a)
    ensures Named(Step(s, a))
  {
    if a.Start? {
      forall p | p in s.procs && s.procs[p].holder ensures !Admits(s) {
        GuardOpensIffUnguarded(s, p);
      }
    }
  }

  lemma StartBesideUnguarded(s: State, a: Action)
    requires Named(s) && Enabled(s, a) && StartsBesideUnguarded(s, a)
    ensures !Exclusive(Step(s, a))
  {
    var p :| p in s.procs && s.procs[p].holder && Unguarded(s, p);
    GuardOpensIffUnguarded(s, p);
    var s' := Step(s, a);
    assert p != a.pid && p in s'.procs && s'.procs[p].holder && s'.procs[a.pid].holder;
  }

  /** Over any processes, starts with written or failing locks, heartbeats, crashes, closes
      and ticks, the profile has at most one holder at every point exactly when no start
      takes place beside a living holder that is 180 s silent, or that has no lock while no
      other live lock blocks the profile. */
  lemma {:induction false} ExclusionIff(s: State, run: seq<Action>)
    requires Named(s) && Run(s, run)
    ensures AlwaysExclusive(s, run) <==> NoStartBesideUnguarded(s, run)
    ensures NoStartBesideUnguarded(s, run) ==> Named(After(s, run))
    decreases run
  {
    if run != [] {
      if StartsBesideUnguarded(s, run[0]) {
        StartBesideUnguarded(s, run[0]);
        assert !AlwaysExclusive(Step(s, run[0]), run[1..]);
      } else {
        StepKeepsNamed(s, run[0]);
        ExclusionIff(Step(s, run[0]), run[1..]);
      }
    }
  }

  /** Every holder has its lock, and its heartbeats land within 180 s. */
  predicate Timely(s: State, run: seq<Action>)
    requires Run(s, run)
    decreases run
  {
    && (forall p :: p in s.procs && s.procs[p].holder ==> s.procs[p].locked && !Overdue(s))
    && (run == [] || Timely(Step(s, run[0]), run[1..]))
  }

  lemma {:induction false} TimelyRunsAreSafe(s: State, run: seq<Action>)
    requires Run(s, run) && Timely(s, run)
    ensures NoStartBesideUnguarded(s, run)
    decreases run
  {
    if run != [] {
      TimelyRunsAreSafe(Step(s, run[0]), run[1..]);
    }
  }

  lemma {:induction false} TimelyAtTheEnd(s: State, run: seq<Action>, p: int)
    requires Run(s, run) && Timely(s, run) && Holds(After(s, run), p)
    ensures After(s, run).procs[p].locked
    decreases run
  {
    if run != [] {
      TimelyAtTheEnd(Step(s, run[0]), run[1..], p);
    }
  }

  /** From any lock file and any processes none of which holds the profile, every run with
      written locks and timely heartbeats has at most one holder at a time, and the lock
      file names it. */
  lemma MutualExclusion(s: State, run: seq<Action>, p: int, q: int)
    requires NoHolder(s) && Run(s, run) && Timely(s, run)
    requires Holds(After(s, run), p) && Holds(After(s, run), q)
    ensures p == q
    ensures ReadLock(After(s, run).file).Some? && ReadLock(After(s, run).file).value.pid == p
  {
    TimelyRunsAreSafe(s, run);
    ExclusionIff(s, run);
    TimelyAtTheEnd(s, run, p);
  }

  /** How a holder that is late loses the profile to two others: the next start displaces
      it, and when it then closes it removes its successor's lock, so a third process gets
      in beside that one. */
  lemma DisplacedHolderOpensTheDoor(s: State, p: int, q: int, r: int, written: bool)
    requires Named(s) && Holds(s, p) && s.procs[p].locked && Overdue(s)
    requires Enabled(s, Start(q, true)) && Enabled(s, Start(r, written)) && q != r
    ensures var s1 := Step(s, Start(q, true));
            var s2 := Step(s1, Close(p));
            var s3 := Step(s2, Start(r, written));
            && Holds(s1, p) && Holds(s1, q) && s2.file == Missing && Holds(s3, q) && Holds(s3, r)
  {
    GuardOpensIffUnguarded(s, p);
    assert Admits(Step(Step(s, Start(q, true)), Close(p)));
  }

  /** A start whose lock write fails leaves the profile open to the next one at once. */
  lemma UnwrittenLockAdmitsNext(s: State, p: int, q: int, written: bool)
    requires NoHolder(s) && Admits(s) && p != q
    requires Enabled(s, Start(p, false)) && Enabled(s, Start(q, written))
    ensures var s' := Step(Step(s, Start(p, false)), Start(q, written));
            Holds(s', p) && Holds(s', q)
  {
    var s1 := Step(s, Start(p, false));
    assert ReadLock(s1.file) == ReadLock(s.file);
    assert Admits(s1);
  }

  // ── how long a lock blocks ────────────────────────────────────

  /** From a free profile a start with a written lock keeps every other process out for 180 s,
      less the part of a second that its timestamp drops, and no longer. */
  lemma WrittenLockBlocksExactly(s: State, p: int, q: int, written: bool, dt: nat)
    requires Admits(s) && Enabled(s, Start(p, true)) && p != q
    requires Enabled(Step(Step(s, Start(p, true)), Tick(dt)), Start(q, written))
    ensures var later := Step(Step(s, Start(p, true)), Tick(dt));
            Holds(later, p) && (Holds(Step(later, Start(q, written)), q) <==> dt >= 180_000 - s.now % 1000)
  {
  }

  /** So does a heartbeat, from the lock that names its process on. */
  lemma BeatBlocksExactly(s: State, p: int, q: int, written: bool, dt: nat)
    requires Enabled(s, Beat(p)) && p > 0 && s.procs[p].ours && p != q
    requires ReadLock(s.file).Some? && ReadLock(s.file).value.pid == p
    requires Enabled(Step(Step(s, Beat(p)), Tick(dt)), Start(q, written))
    ensures var later := Step(Step(s, Beat(p)), Tick(dt));
            Holds(later, p) && (Holds(Step(later, Start(q, written)), q) <==> dt >= 180_000 - s.now % 1000)
  {
  }

  /** What a written lock says: its process and the second it was written in, twice. */
  lemma WrittenLockSays(pid: int, now: int)
    requires pid > 0
    ensures var data := ReadLock(FreshLock(pid, now));
            && data.Some? && data.value.pid == pid && data.value.acquired.Some? && data.value.heartbeat == data.value.acquired
            && data.value.acquired.value <= now < data.value.acquired.value + 1000 && data.value.acquired.value % 1000 == 0
  {
  }

  /** A heartbeat of a process that the lock does not name changes nothing. */
  lemma ForeignBeatIsIdle(s: State, p: int)
    requires Enabled(s, Beat(p)) && (ReadLock(s.file).None? || ReadLock(s.file).value.pid != p)
    ensures Step(s, Beat(p)) == s
  {
  }

  /** When each process last started or beat, after this action. */
  function Noted(s: State, a: Action, last: map<int, int>): map<int, int> {
    match a
    case Start(pid, _) => last[pid := s.now]
    case Beat(pid) => last[pid := s.now]
    case _ => last
  }

  /** Locks are written, and at every point each holder's last start or heartbeat is at most
      179 s ago. */
  predicate Paced(s: State, last: map<int, int>, run: seq<Action>)
    requires Run(s, run)
    decreases run
  {
    && (forall p :: p in s.procs && s.procs[p].holder ==> p in last && s.now - last[p] <= 179_000)
    && (run == []
        || ((run[0].Start? ==> run[0].written) && Paced(Step(s, run[0]), Noted(s, run[0], last), run[1..])))
  }

  /** The lock carries the second of its holder's last start or heartbeat. */
  predicate StampedAt(s: State, last: map<int, int>) {
    && Named(s)
    && forall p :: p in s.procs && s.procs[p].holder ==>
         s.procs[p].locked && p in last && ReadLock(s.file).value.heartbeat == Some(last[p] - last[p] % 1000)
  }

  lemma PacedIsFresh(s: State, last: map<int, int>, run: seq<Action>)
    requires Run(s, run) && StampedAt(s, last) && Paced(s, last, run)
    ensures forall p :: p in s.procs && s.procs[p].holder ==> s.procs[p].locked && !Overdue(s)
  {
  }

  lemma StepKeepsStamped(s: State, last: map<int, int>, a: Action)
    requires Enabled(s, a) && StampedAt(s, last) && (a.Start? ==> a.written)
    requires forall p :: p in s.procs && s.procs[p].holder ==> !Overdue(s)
    ensures StampedAt(Step(s, a), Noted(s, a, last))
  {
    StepKeepsNamed(s, a);
  }

  lemma {:induction false} PacedRunsAreTimely(s: State, last: map<int, int>, run: seq<Action>)
    requires Run(s, run) && StampedAt(s, last) && Paced(s, last, run)
    ensures Timely(s, run)
    decreases run
  {
    PacedIsFresh(s, last, run);
    if run != [] {
      StepKeepsStamped(s, last, run[0]);
      PacedRunsAreTimely(Step(s, run[0]), Noted(s, run[0], last), run[1..]);
    }
  }

  /** From any lock file and any processes none of which holds the profile: when locks are
      written and heartbeats come at most 179 s apart, there is at most one holder at a time,
      and the lock file names it. */
  lemma PacedRunsExclude(s: State, run: seq<Action>, p: int, q: int)
    requires NoHolder(s) && Run(s, run) && Paced(s, map[], run)
    requires Holds(After(s, run), p) && Holds(After(s, run), q)
    ensures p == q
    ensures ReadLock(After(s, run).file).Some? && ReadLock(After(s, run).file).value.pid == p
  {
    PacedRunsAreTimely(s, map[], run);
    MutualExclusion(s, run, p, q);
  }

  /** Closing gives the profile up and takes the lock file along if this process wrote one; a
      crash leaves the file. Both leave the other processes alone. */
  lemma LeavingTheProfile(s: State, p: int, q: int)
    requires Holds(s, p) && p != q
    ensures var closed, crashed := Step(s, Close(p)), Step(s, Crash(p));
            && !Holds(closed, p) && !Holds(crashed, p)
            && (Holds(closed, q) <==> Holds(s, q)) && (Holds(crashed, q) <==> Holds(s, q))
            && crashed.file == s.file && closed.file == (if s.procs[p].locked then Missing else s.file)
            && (s.procs[p].locked ==> Admits(closed))
  {
  }

  /** A new process is what it is, holds nothing, and leaves the rest alone. */
  lemma SpawnedIsBystander(s: State, p: int, ours: bool)
    requires Enabled(s, Spawn(p, ours))
    ensures var s' := Step(s, Spawn(p, ours));
            && p in s'.procs && s'.procs[p].ours == ours && !Holds(s', p) && s'.file == s.file && s'.now == s.now
            && forall q :: q != p ==> (q in s'.procs <==> q in s.procs) && (q in s.procs ==> s'.procs[q] == s.procs[q])
  {
  }

  // ── who may start ─────────────────────────────────────────────

  /** A lock without a heartbeat, such as the older one that is just a process id, blocks by
      the age of its file. */
  lemma PlainLockBlocksUntil(s: State, pid: int, acquired: Option<int>, mtime: int)
    requires s.file == Present(PlainPid(pid), mtime) || (pid > 0 && s.file == Present(Stamped(pid, acquired, None), mtime))
    ensures !Admits(s) <==> pid > 0 && pid in s.procs && s.procs[pid].ours && s.now < mtime + 180_000
  {
  }

  /** A file that is missing, unreadable or names no process blocks nobody. */
  lemma NoLockAdmits(s: State)
    requires s.file.Missing? || s.file.content.Garbage? || (s.file.content.Stamped? && s.file.content.pid <= 0)
    ensures ReadLock(s.file) == None && Admits(s)
  {
  }

  /** Whether a start is blocked: a stamped lock blocks exactly while its process lives,
      looks like ours, and the clock has not reached 180 s past the heartbeat. The clamp
      of the age to zero changes nothing: a heartbeat F ahead of the clock blocks for F
      plus 180 s. */
  lemma BlockedExactlyUntil(s: State, pid: int, acquired: Option<int>, heartbeat: int, mtime: int)
    requires s.file == Present(Stamped(pid, acquired, Some(heartbeat)), mtime) && pid > 0
    ensures !Admits(s) <==> pid in s.procs && s.procs[pid].ours && s.now < heartbeat + 180_000
  {
  }

  /** A holder that died, or whose heartbeat is 180 s old, no longer blocks. */
  lemma DeadOrSilentHolderYields(s: State, p: int, q: int, written: bool)
    requires Named(s) && Holds(s, p) && s.procs[p].locked && p != q
    requires Enabled(s, Start(q, written))
    ensures Holds(Step(Step(s, Crash(p)), Start(q, written)), q)
    ensures ReadLock(s.file).value.heartbeat.Some? ==>
              forall dt: nat :: s.now + dt >= ReadLock(s.file).value.heartbeat.value + STALE ==>
                Holds(Step(Step(s, Tick(dt)), Start(q, written)), q)
  {
  }
}
