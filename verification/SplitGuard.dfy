/** The guard and the write of `start` as the two steps they are in runtime.py, with any
    steps of other processes between them. */
module SplitGuard {
  import opened ProfileLock

  datatype Action = Check(pid: int) | Write(pid: int, written: bool) | Else(a: ProfileLock.Action)

  /** A process past the guard that has not written its lock yet: whether a living holder
      was overlooked by its check, and whether another process has written since. */
  datatype Ticket = Ticket(overlooked: bool, disturbed: bool)

  datatype Split = Split(s: State, tickets: map<int, Ticket>)

  predicate Enabled(x: Split, a: Action) {
    match a
    case Check(pid) => ProfileLock.Enabled(x.s, Start(pid, true))
    case Write(pid, written) => pid in x.tickets && ProfileLock.Enabled(x.s, Start(pid, written))
    case Else(a') => !a'.Start? && ProfileLock.Enabled(x.s, a')
  }

  function Disturbed(tickets: map<int, Ticket>, writer: int): map<int, Ticket> {
    map q | q in tickets && q != writer :: tickets[q].(disturbed := true)
  }

  function Step(x: Split, a: Action): Split
    requires Enabled(x, a)
  {
    match a
    case Check(pid) =>
      if Admits(x.s) then x.(tickets := x.tickets[pid := Ticket(!NoHolder(x.s), false)])
      else x.(tickets := x.tickets - {pid})
    case Write(pid, written) => Split(Claim(x.s, pid, written), Disturbed(x.tickets, pid))
    case Else(a') =>
      var s' := ProfileLock.Step(x.s, a');
      Split(s', if a'.Crash? then x.tickets - {a'.pid} else x.tickets)
  }

  predicate Run(x: Split, run: seq<Action>)
    decreases run
  {
    run == [] || (Enabled(x, run[0]) && Run(Step(x, run[0]), run[1..]))
  }

  function After(x: Split, run: seq<Action>): Split
    requires Run(x, run)
    decreases run
  {
    if run == [] then x else After(Step(x, run[0]), run[1..])
  }

  predicate AlwaysExclusive(x: Split, run: seq<Action>)
    requires Run(x, run)
    decreases run
  {
    Exclusive(x.s) && (run == [] || AlwaysExclusive(Step(x, run[0]), run[1..]))
  }

  /** Every write is clean: its check overlooked no holder, and no other process has
      written between the check and the write. */
  predicate CleanWrites(x: Split, run: seq<Action>)
    requires Run(x, run)
    decreases run
  {
    run == []
    || ((run[0].Write? ==> x.tickets[run[0].pid] == Ticket(false, false)) && CleanWrites(Step(x, run[0]), run[1..]))
  }

  /** A clean ticket means that nobody holds the profile. */
  predicate Inv(x: Split) {
    && Exclusive(x.s)
    && forall q :: q in x.tickets && x.tickets[q] == Ticket(false, false) ==> NoHolder(x.s)
  }

  lemma StepKeepsInv(x: Split, a: Action)
    requires Inv(x) && Enabled(x, a)
    requires a.Write? ==> x.tickets[a.pid] == Ticket(false, false)
    ensures Inv(Step(x, a))
  {
    var y := Step(x, a);
    if a.Write? {
      assert NoHolder(x.s);
      forall q | q in y.tickets ensures y.tickets[q].disturbed {
      }
    }
  }

  /** A check overlooks a holder exactly when the holder is unguarded. */
  lemma CheckOverlooksIff(x: Split, pid: int)
    requires Named(x.s) && Enabled(x, Check(pid))
    ensures var tickets := Step(x, Check(pid)).tickets;
            pid in tickets && tickets[pid].overlooked
            <==> exists p :: p in x.s.procs && x.s.procs[p].holder && Unguarded(x.s, p)
  {
    forall p | p in x.s.procs && x.s.procs[p].holder ensures Admits(x.s) <==> Unguarded(x.s, p) {
      GuardOpensIffUnguarded(x.s, p);
    }
  }

  /** A crash or a refused check leaves no ticket behind. */
  lemma NoTicketLeft(x: Split, pid: int)
    ensures Enabled(x, Else(Crash(pid))) ==> pid !in Step(x, Else(Crash(pid))).tickets
    ensures Enabled(x, Check(pid)) && !Admits(x.s) ==> pid !in Step(x, Check(pid)).tickets && Step(x, Check(pid)).s == x.s
  {
  }

  /** Clean writes keep mutual exclusion, in every run from a state without a holder. */
  lemma {:induction false} CleanWritesExclude(x: Split, run: seq<Action>)
    requires Inv(x) && Run(x, run) && CleanWrites(x, run)
    ensures AlwaysExclusive(x, run)
    decreases run
  {
    if run != [] {
      StepKeepsInv(x, run[0]);
      CleanWritesExclude(Step(x, run[0]), run[1..]);
    }
  }

  /** Holders that stay: nobody closes or crashes. */
  predicate Stays(run: seq<Action>) {
    forall a :: a in run && a.Else? ==> !a.a.Close? && !a.a.Crash?
  }

  /** A ticket that is not clean means that somebody else holds the profile. */
  predicate Crowded(x: Split) {
    forall q :: q in x.tickets && x.tickets[q] != Ticket(false, false) ==>
      exists p :: p in x.s.procs && x.s.procs[p].holder
  }

  lemma StepKeepsCrowded(x: Split, a: Action)
    requires Crowded(x) && Enabled(x, a) && (a.Else? ==> !a.a.Close? && !a.a.Crash?)
    ensures Crowded(Step(x, a))
  {
    var y := Step(x, a);
    if a.Write? {
      assert a.pid in y.s.procs && y.s.procs[a.pid].holder;
    } else if p :| p in x.s.procs && x.s.procs[p].holder {
      assert p in y.s.procs && y.s.procs[p].holder;
    }
  }

  lemma UncleanWriteCrowds(x: Split, pid: int, written: bool)
    requires Crowded(x) && Enabled(x, Write(pid, written)) && x.tickets[pid] != Ticket(false, false)
    ensures !Exclusive(Step(x, Write(pid, written)).s)
  {
    var p :| p in x.s.procs && x.s.procs[p].holder;
    var s' := Step(x, Write(pid, written)).s;
    assert p != pid && p in s'.procs && s'.procs[p].holder && pid in s'.procs && s'.procs[pid].holder;
  }

  /** And as long as holders stay, only clean writes keep it. */
  lemma {:induction false} SplitExclusionIff(x: Split, run: seq<Action>)
    requires Inv(x) && Crowded(x) && Run(x, run) && Stays(run)
    ensures AlwaysExclusive(x, run) <==> CleanWrites(x, run)
    decreases run
  {
    if run != [] {
      assert run[0] in run && forall a :: a in run[1..] ==> a in run;
      if run[0].Write? && x.tickets[run[0].pid] != Ticket(false, false) {
        UncleanWriteCrowds(x, run[0].pid, run[0].written);
        assert !AlwaysExclusive(Step(x, run[0]), run[1..]);
      } else {
        StepKeepsInv(x, run[0]);
        StepKeepsCrowded(x, run[0]);
        SplitExclusionIff(Step(x, run[0]), run[1..]);
      }
    }
  }

  /** Two starts that both pass the guard before either writes end with two holders, from
      every state in which nobody holds the profile. */
  lemma GuardsBeforeWritesRace(s: State, p: int, q: int, first: bool, second: bool)
    requires NoHolder(s) && Admits(s) && p != q
    requires ProfileLock.Enabled(s, Start(p, first)) && ProfileLock.Enabled(s, Start(q, second))
    ensures var run := [Check(p), Check(q), Write(p, first), Write(q, second)];
            Run(Split(s, map[]), run) && Holds(After(Split(s, map[]), run).s, p) && Holds(After(Split(s, map[]), run).s, q)
  {
    var x := Split(s, map[]);
    var x1 := Step(x, Check(p));
    var x2 := Step(x1, Check(q));
    var x3 := Step(x2, Write(p, first));
    var x4 := Step(x3, Write(q, second));
    assert Holds(x4.s, p) && Holds(x4.s, q);
    var last := [Write(q, second)];
    var writes := [Write(p, first)] + last;
    var run := [Check(p)] + ([Check(q)] + writes);
    assert run == [Check(p), Check(q), Write(p, first), Write(q, second)];
    assert run[1..] == [Check(q)] + writes && run[1..][1..] == writes && writes[1..] == last && last[1..] == [];
    assert Run(x4, []) && Run(x3, last) && Run(x2, writes) && Run(x1, run[1..]) && Run(x, run);
    assert After(x, run) == After(x1, run[1..]) == After(x2, writes) == After(x3, last) == x4;
  }
}
