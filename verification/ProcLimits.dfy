/** The exit init misses: a child that woke its old parent after wait passed it over. */
module ProcLimits {
  import opened Basics
  import opened ProcProtocol
  import opened ProcTheorems

  ghost predicate Reachable(s: State) {
    exists run, cpus, acts :: IsRun(run, cpus, acts) && run[|run| - 1] == s
  }

  lemma Starts(s: State)
    requires Init(s)
    ensures Reachable(s)
  {
    hide Init;
    assert IsRun([s], [], []);
  }

  lemma ReachStep(s: State, c: nat, a: Action, s': State)
    ensures Reachable(s) && Step(s, c, a, s') ==> Reachable(s')
  {
    hide Step, Init;
    if Reachable(s) && Step(s, c, a, s') {
      var run, cpus, acts :| IsRun(run, cpus, acts) && run[|run| - 1] == s;
      assert IsRun(run + [s'], cpus + [c], acts + [a]);
    }
  }

  // ----- steps of process c on CPU c

  lemma Begin(s: State, c: nat, pc: Pc) returns (s': State)
    requires Reachable(s) && Executes(s, c, c) && s.pc[c] == User && Begins(s, c, pc)
    ensures Reachable(s') && s' == Go(s, c, pc)
  {
    s' := Go(s, c, pc);
    hide Reachable;
    ReachStep(s, c, Action.Begin(c, pc), s');
  }

  lemma Take(s: State, c: nat, l: Lock, pc: Pc) returns (s': State)
    requires Reachable(s) && Executes(s, c, c) && Want(s, s.pc[c], c) == Some((l, pc)) && l !in s.lock
    ensures Reachable(s') && s' == Go(s.(lock := s.lock[l := c]), c, pc)
  {
    s' := Go(s.(lock := s.lock[l := c]), c, pc);
    hide Reachable, Want;
    ReachStep(s, c, Acquire(c), s');
  }

  lemma Give(s: State, c: nat, l: Lock, pc: Pc) returns (s': State)
    requires Reachable(s) && Executes(s, c, c) && Drop(s, s.pc[c], c) == Some((l, pc)) && l in s.lock
    ensures Reachable(s') && s' == Go(s.(lock := s.lock - {l}), c, pc)
  {
    s' := Go(s.(lock := s.lock - {l}), c, pc);
    hide Reachable, Drop;
    ReachStep(s, c, Release(c), s');
  }

  lemma Act(s: State, c: nat, s': State)
    requires Reachable(s) && Executes(s, c, c) && Acted(s, c, true) == Some(s')
    ensures Reachable(s')
  {
    hide Reachable, Acted;
    ReachStep(s, c, Action.Act(c, true), s');
  }

  /** sched, and the CPU's scheduler up to the next process. */
  lemma Leave(s: State, c: nat, pc: Pc) returns (s': State)
    requires Reachable(s) && Executes(s, c, c) && Resume(s.pc[c]) == Some(pc) && s.spc[c] == SchedBack(c)
      && P(c) in s.lock
    ensures Reachable(s')
    ensures s' == Go(s.(lock := s.lock - {P(c)}, on := s.on[c := Scheduler], at := s.at[c := None],
      cproc := s.cproc[c := None],
                        spc := s.spc[c := SchedNext(if c + 1 < |s.st| then c + 1 else 0)]), c, pc)
  {
    hide Reachable, Resume;
    var s1 := Go(s.(on := s.on[c := Scheduler], at := s.at[c := None]), c, pc);
    ReachStep(s, c, Switch(c), s1);
    var s2 := s1.(cproc := s1.cproc[c := None], spc := s1.spc[c := SchedDrop(c)]);
    ReachStep(s1, c, SchedReturn, s2);
    s' := s2.(lock := s2.lock - {P(c)}, spc := s2.spc[c := SchedNext(if c + 1 < |s.st| then c + 1 else 0)]);
    ReachStep(s2, c, SchedRelease, s');
    assert s'.spc == s.spc[c := SchedNext(if c + 1 < |s.st| then c + 1 else 0)];
  }

  /** The scheduler of CPU c passes over process i. */
  lemma Pass(s: State, c: nat, i: nat) returns (s': State)
    requires Reachable(s) && Schedules(s, c) && s.spc[c] == SchedNext(i) && P(i) !in s.lock && i + 1 < |s.st|
      && s.st[i] != Runnable
    ensures Reachable(s') && s' == s.(spc := s.spc[c := SchedNext(i + 1)])
  {
    hide Reachable;
    var s1 := s.(lock := s.lock[P(i) := c], spc := s.spc[c := SchedLook(i)]);
    ReachStep(s, c, SchedAcquire, s1);
    var s2 := s1.(spc := s1.spc[c := SchedDrop(i)]);
    ReachStep(s1, c, SchedRead, s2);
    s' := s2.(lock := s2.lock - {P(i)}, spc := s2.spc[c := SchedNext(i + 1)]);
    ReachStep(s2, c, SchedRelease, s');
    assert s'.lock == s.lock && s'.spc == s.spc[c := SchedNext(i + 1)];
  }

  /** It runs process c, which returns to user space. */
  lemma Run(s: State, c: nat) returns (s': State)
    requires Reachable(s) && Schedules(s, c) && s.spc[c] == SchedNext(c) && P(c) !in s.lock && c < |s.st|
      && s.st[c] == Runnable
    requires s.pc[c] == Resumed(InUser)
    ensures Reachable(s')
    ensures s' == Go(s.(st := s.st[c := Running], cproc := s.cproc[c := Some(c)], on := s.on[c := Process(c)],
      at := s.at[c := Some(c)],
                        spc := s.spc[c := SchedBack(c)]), c, User)
  {
    hide Reachable;
    var s1 := s.(lock := s.lock[P(c) := c], spc := s.spc[c := SchedLook(c)]);
    ReachStep(s, c, SchedAcquire, s1);
    var s2 := s1.(st := s1.st[c := Running], cproc := s1.cproc[c := Some(c)], spc := s1.spc[c := SchedSwitch(c)]);
    ReachStep(s1, c, SchedRead, s2);
    var s3 := s2.(on := s2.on[c := Process(c)], at := s2.at[c := Some(c)], spc := s2.spc[c := SchedBack(c)]);
    ReachStep(s2, c, SchedRun, s3);
    s' := Give(s3, c, P(c), User);
    assert s'.lock == s.lock && s'.spc == s.spc[c := SchedBack(c)];
  }

  // ----- pieces of fork, exit and wait

  lemma ForkPass(s: State, c: nat, i: nat) returns (s': State)
    requires Reachable(s) && Executes(s, c, c) && s.pc[c] == ForkNext(i) && i < |s.st| && P(i) !in s.lock
      && s.st[i] != Unused
    ensures Reachable(s') && s' == Go(s, c, ForkNext(i + 1))
  {
    hide Reachable;
    var t := Take(s, c, P(i), ForkLook(i));
    Act(t, c, Go(t, c, ForkDrop(i, false)));
    s' := Give(Go(t, c, ForkDrop(i, false)), c, P(i), ForkNext(i + 1));
    assert s'.lock == s.lock && s'.pc == s.pc[c := ForkNext(i + 1)];
  }

  lemma ForkInto(s: State, c: nat, i: nat) returns (s': State)
    requires Reachable(s) && Executes(s, c, c) && s.pc[c] == ForkNext(i) && i < |s.st| && i != c && P(i) !in s.lock
      && s.st[i] == Unused
    ensures Reachable(s') && s' == Go(Born(s, i, c), c, User)
  {
    hide Reachable;
    var t := Take(s, c, P(i), ForkLook(i));
    var u := Go(Born(t, i, c), c, ForkDrop(i, true));
    Act(t, c, u);
    s' := Give(u, c, P(i), User);
    assert s'.lock == s.lock && s'.pc == Go(Born(s, i, c), c, User).pc;
  }

  /** exit wakes init, which is not waiting, and copies its parent. */
  lemma ExitCopies(s: State, c: nat, op: nat) returns (s': State)
    requires Reachable(s) && Executes(s, c, c) && s.pc[c] == User && c != s.init && P(s.init) !in s.lock
      && P(c) !in s.lock
    requires s.st[s.init] != Sleeping && s.parent[c] == Some(op)
    ensures Reachable(s') && s' == Go(s, c, ExitParent(op))
  {
    hide Reachable;
    var t := Begin(s, c, ExitInit);
    t := Take(t, c, P(s.init), ExitNudge);
    Act(t, c, Go(t, c, ExitInitDrop));
    t := Give(Go(t, c, ExitInitDrop), c, P(s.init), ExitRead);
    assert t.lock == s.lock && t.pc == s.pc[c := ExitRead];
    s' := CopyParent(t, c, op);
    assert s'.pc == s.pc[c := ExitParent(op)];
  }

  lemma CopyParent(s: State, c: nat, op: nat) returns (s': State)
    requires Reachable(s) && Executes(s, c, c) && s.pc[c] == ExitRead && P(c) !in s.lock && s.parent[c] == Some(op)
    ensures Reachable(s') && s' == Go(s, c, ExitParent(op))
  {
    hide Reachable;
    var t := Take(s, c, P(c), ExitCopy);
    Act(t, c, Go(t, c, ExitCopyDrop(op)));
    s' := Give(Go(t, c, ExitCopyDrop(op)), c, P(c), ExitParent(op));
    assert s'.lock == s.lock && s'.pc == s.pc[c := ExitParent(op)];
  }

  lemma LockBoth(s: State, c: nat, op: nat) returns (s': State)
    requires Reachable(s) && Executes(s, c, c) && s.pc[c] == ExitParent(op) && op != c && P(op) !in s.lock
      && P(c) !in s.lock
    ensures Reachable(s') && s' == Go(s.(lock := s.lock[P(op) := c][P(c) := c]), c, Reparent(op, 0))
  {
    hide Reachable;
    s' := Take(s, c, P(op), ExitSelf(op));
    s' := Take(s', c, P(c), Reparent(op, 0));
    assert s'.pc == s.pc[c := Reparent(op, 0)];
  }

  /** reparent passes over a process that is no child. */
  lemma NoChild(s: State, c: nat, op: nat, i: nat) returns (s': State)
    requires Reachable(s) && Executes(s, c, c) && s.pc[c] == Reparent(op, i) && i < |s.st| && s.parent[i] != Some(c)
    ensures Reachable(s') && s' == Go(s, c, Reparent(op, i + 1))
  {
    hide Reachable;
    s' := Go(s, c, Reparent(op, i + 1));
    Act(s, c, s');
  }

  lemma GiveAway(s: State, c: nat, op: nat, i: nat) returns (s': State)
    requires Reachable(s) && Executes(s, c, c) && s.pc[c] == Reparent(op, i) && i < |s.st| && s.parent[i] == Some(c)
      && P(i) !in s.lock
    ensures Reachable(s') && s' == Go(s.(parent := s.parent[i := Some(s.init)]), c, Reparent(op, i + 1))
  {
    hide Reachable;
    var t := Go(s, c, ReparentWant(op, i));
    Act(s, c, t);
    t := Take(t, c, P(i), ReparentSet(op, i));
    var u := Go(t.(parent := t.parent[i := Some(t.init)]), c, ReparentDrop(op, i));
    Act(t, c, u);
    s' := Give(u, c, P(i), Reparent(op, i + 1));
    assert s'.lock == s.lock && s'.pc == s.pc[c := Reparent(op, i + 1)];
  }

  /** exit finds nobody waiting, and becomes a zombie. */
  lemma Die(s: State, c: nat, op: nat) returns (s': State)
    requires Reachable(s) && Executes(s, c, c) && s.pc[c] == Reparent(op, |s.st|) && op < |s.st|
      && s.st[op] != Sleeping && P(op) in s.lock
    ensures Reachable(s')
    ensures s' == Go(s.(st := s.st[c := Zombie], woke := s.woke[c := Some(op)], lock := s.lock - {P(op)}), c,
      ExitSwitch)
  {
    hide Reachable;
    var t := Go(s, c, ExitDead(op));
    Act(s, c, t);
    var u := Go(t.(st := t.st[c := Zombie], woke := t.woke[c := Some(op)]), c, ExitDrop(op));
    Act(t, c, u);
    s' := Give(u, c, P(op), ExitSwitch);
    assert s'.pc == s.pc[c := ExitSwitch];
  }

  lemma StartWait(s: State, c: nat) returns (s': State)
    requires Reachable(s) && Executes(s, c, c) && s.pc[c] == User && P(c) !in s.lock
    ensures Reachable(s') && s' == Go(s.(lock := s.lock[P(c) := c]), c, WaitScan(0, false))
  {
    hide Reachable;
    s' := Begin(s, c, WaitWant);
    s' := Take(s', c, P(c), WaitScan(0, false));
    assert s'.pc == s.pc[c := WaitScan(0, false)];
  }

  lemma NotMine(s: State, c: nat, i: nat, kids: bool) returns (s': State)
    requires Reachable(s) && Executes(s, c, c) && s.pc[c] == WaitScan(i, kids) && i < |s.st| && s.parent[i] != Some(c)
    ensures Reachable(s') && s' == Go(s, c, WaitScan(i + 1, kids))
  {
    hide Reachable;
    s' := Go(s, c, WaitScan(i + 1, kids));
    Act(s, c, s');
  }

  lemma StillAlive(s: State, c: nat, i: nat, kids: bool) returns (s': State)
    requires Reachable(s) && Executes(s, c, c) && s.pc[c] == WaitScan(i, kids) && i < |s.st| && s.parent[i] == Some(c)
      && P(i) !in s.lock && s.st[i] != Zombie
    ensures Reachable(s') && s' == Go(s, c, WaitScan(i + 1, true))
  {
    hide Reachable;
    var t := Go(s, c, WaitChild(i));
    Act(s, c, t);
    t := Take(t, c, P(i), WaitLook(i));
    Act(t, c, Go(t, c, WaitPass(i)));
    s' := Give(Go(t, c, WaitPass(i)), c, P(i), WaitScan(i + 1, true));
    assert s'.lock == s.lock && s'.pc == s.pc[c := WaitScan(i + 1, true)];
  }

  lemma FreeChild(s: State, c: nat, i: nat) returns (s': State)
    requires Reachable(s) && Executes(s, c, c) && s.pc[c] == WaitLook(i) && i < |s.st| && s.st[i] == Zombie
      && P(i) in s.lock && P(c) in s.lock && i != c
    ensures Reachable(s') && s' == Go(Freed(s, i).(lock := s.lock - {P(i), P(c)}), c, User)
  {
    hide Reachable;
    var u := Go(Freed(s, i), c, WaitReap(i));
    Act(s, c, u);
    u := Give(u, c, P(i), WaitDrop);
    s' := Give(u, c, P(c), User);
    assert s'.lock == s.lock - {P(i), P(c)} && s'.pc == s.pc[c := User];
  }

  lemma Reap(s: State, c: nat, i: nat, kids: bool) returns (s': State)
    requires Reachable(s) && Executes(s, c, c) && s.pc[c] == WaitScan(i, kids) && i < |s.st| && s.parent[i] == Some(c)
      && P(i) !in s.lock && s.st[i] == Zombie
    requires P(c) in s.lock && i != c
    ensures Reachable(s') && s' == Go(Freed(s, i).(lock := s.lock - {P(c)}), c, User)
  {
    hide Reachable;
    var t := Go(s, c, WaitChild(i));
    Act(s, c, t);
    t := Take(t, c, P(i), WaitLook(i));
    assert t.lock == s.lock[P(i) := c] && t.pc == s.pc[c := WaitLook(i)];
    s' := FreeChild(t, c, i);
    assert s'.lock == s.lock - {P(c)} && s'.pc == s.pc[c := User];
  }

  lemma FallAsleep(s: State, c: nat) returns (s': State)
    requires Reachable(s) && Executes(s, c, c) && s.pc[c] == WaitScan(|s.st|, true) && !s.killed[c]
      && s.spc[c] == SchedBack(c) && P(c) in s.lock
    ensures Reachable(s')
    ensures s' == Go(s.(st := s.st[c := Sleeping], chan := s.chan[c := Some(OnProc(c))], lock := s.lock - {P(c)},
                        on := s.on[c := Scheduler], at := s.at[c := None], cproc := s.cproc[c := None],
                        spc := s.spc[c := SchedNext(if c + 1 < |s.st| then c + 1 else 0)]), c, WaitResume)
  {
    hide Reachable;
    var t := Go(s, c, WaitSet);
    Act(s, c, t);
    var u := Go(t.(st := t.st[c := Sleeping], chan := t.chan[c := Some(OnProc(c))]), c, WaitSwitch);
    Act(t, c, u);
    s' := Leave(u, c, WaitResume);
    assert s'.pc == s.pc[c := WaitResume];
  }

  // ----- init is 0, A is 1, B is 2, each on its own CPU

  function Boot(): State {
    State(map[], [Runnable, Unused, Unused], [None, None, None], [None, None, None], [None, None, None],
      [false, false, false],
          [0, 0, 0], 1, [], 0, [Resumed(InUser), Dead, Dead], [None, None, None],
          [Scheduler, Scheduler, Scheduler], [SchedNext(0), SchedNext(0), SchedNext(0)], [None, None, None])
  }

  /** init has forked A. */
  function TwoUp(): State {
    Boot().(st := [Running, Runnable, Unused], parent := [None, Some(0), None], pid := [0, 1, 0], nextpid := 2,
            pc := [User, Resumed(InUser), Dead], at := [Some(0), None, None], on := [Process(0), Scheduler, Scheduler],
            spc := [SchedBack(0), SchedNext(0), SchedNext(0)], cproc := [Some(0), None, None])
  }

  /** A has forked B, and all three run. */
  function ThreeUp(): State {
    Boot().(st := [Running, Running, Running], parent := [None, Some(0), Some(1)], pid := [0, 1, 2], nextpid := 3,
            pc := [User, User, User], at := [Some(0), Some(1), Some(2)], on := [Process(0), Process(1), Process(2)],
            spc := [SchedBack(0), SchedBack(1), SchedBack(2)], cproc := [Some(0), Some(1), Some(2)])
  }

  lemma BootReach()
    ensures Reachable(Boot())
  {
    hide Reachable;
    Starts(Boot());
  }

  lemma TwoReach()
    ensures Reachable(TwoUp())
  {
    hide Reachable, Init;
    BootReach();
    var s := Run(Boot(), 0);
    s := Begin(s, 0, ForkNext(0));
    s := ForkPass(s, 0, 0);
    s := ForkInto(s, 0, 1);
    assert s == TwoUp();
  }

  lemma ThreeReach()
    ensures Reachable(ThreeUp())
  {
    hide Reachable;
    TwoReach();
    var s := Pass(TwoUp(), 1, 0);
    s := Run(s, 1);
    s := Begin(s, 1, ForkNext(0));
    s := ForkPass(s, 1, 0);
    s := ForkPass(s, 1, 1);
    s := ForkInto(s, 1, 2);
    s := Pass(s, 2, 0);
    s := Pass(s, 2, 1);
    s := Run(s, 2);
    assert s == ThreeUp();
  }

  /** B has copied A as its parent, A has given B to init and died. */
  function Given(): State {
    ThreeUp().(st := [Running, Zombie, Running], parent := [None, Some(0), Some(0)], woke := [None, Some(0), None],
               pc := [User, Dead, ExitParent(1)], at := [Some(0), None, Some(2)],
                 on := [Process(0), Scheduler, Process(2)],
               spc := [SchedBack(0), SchedNext(2), SchedBack(2)], cproc := [Some(0), None, Some(2)])
  }

  function Copied(): State { ThreeUp().(pc := [User, ExitParent(0), ExitParent(1)]) }

  lemma CopiedReach()
    ensures Reachable(Copied())
  {
    hide Reachable;
    ThreeReach();
    var s := ExitCopies(ThreeUp(), 2, 1);
    s := ExitCopies(s, 1, 0);
    assert s == Copied();
  }

  function Handed(): State {
    Copied().(lock := map[P(0) := 1, P(1) := 1], parent := [None, Some(0), Some(0)],
      pc := [User, Reparent(0, 3), ExitParent(1)])
  }

  lemma HandedReach()
    ensures Reachable(Handed())
  {
    hide Reachable;
    CopiedReach();
    var s := LockBoth(Copied(), 1, 0);
    s := NoChild(s, 1, 0, 0);
    s := NoChild(s, 1, 0, 1);
    s := GiveAway(s, 1, 0, 2);
    assert s == Handed();
  }

  lemma GivenReach()
    ensures Reachable(Given())
  {
    hide Reachable;
    HandedReach();
    var s := Die(Handed(), 1, 0);
    s := Leave(s, 1, Dead);
    assert s == Given();
  }

  /** init has reaped A, waits again and sees B alive. */
  function Asleep(): State {
    Given().(st := [Sleeping, Unused, Running], chan := [Some(OnProc(0)), None, None],
      parent := [None, None, Some(0)], pid := [0, 0, 2],
             pc := [WaitResume, Dead, ExitParent(1)], at := [None, None, Some(2)],
               on := [Scheduler, Scheduler, Process(2)],
             spc := [SchedNext(1), SchedNext(2), SchedBack(2)], cproc := [None, None, Some(2)])
  }

  function Reaped(): State {
    Given().(st := [Running, Unused, Running], parent := [None, None, Some(0)], pid := [0, 0, 2])
  }

  lemma ReapedReach()
    ensures Reachable(Reaped())
  {
    hide Reachable;
    GivenReach();
    var s := StartWait(Given(), 0);
    s := NotMine(s, 0, 0, false);
    s := Reap(s, 0, 1, false);
    assert s == Reaped();
  }

  lemma AsleepReach()
    ensures Reachable(Asleep())
  {
    hide Reachable;
    ReapedReach();
    var s := StartWait(Reaped(), 0);
    s := NotMine(s, 0, 0, false);
    s := NotMine(s, 0, 1, false);
    s := StillAlive(s, 0, 2, false);
    s := FallAsleep(s, 0);
    assert s == Asleep();
  }

  /** init is asleep in wait and its lock is free, but a child of it is dead. */
  predicate InitMisses(s: State) {
    && Sized(s) && s.st[s.init] == Sleeping && s.chan[s.init] == Some(OnProc(s.init)) && P(s.init) !in s.lock
    && exists j :: 0 <= j < |s.st| && s.parent[j] == Some(s.init) && s.st[j] == Zombie
  }

  lemma InitMissesExit()
    ensures exists s :: Reachable(s) && InitMisses(s)
  {
    hide Reachable;
    AsleepReach();
    var s := LockBoth(Asleep(), 2, 1);
    s := NoChild(s, 2, 1, 0);
    s := NoChild(s, 2, 1, 1);
    s := NoChild(s, 2, 1, 2);
    s := Die(s, 2, 1);
    assert s.parent[2] == Some(s.init) && s.st[2] == Zombie;
  }
}
