/** The steps of the process protocol that change data. */
module ProcActs {
  import opened Basics
  import opened ProcProtocol
  import opened ProcSafety

  // ----- acts that only move the program counter

  lemma ActMoveKeeps(s: State, s': State, c: nat, p: nat, pc: Pc)
    requires Inv(s) && Executes(s, c, p) && s' == Go(s, p, pc) && Follows(s, p, pc)
    requires forall l :: Holds(pc, p, s.init, l) == Holds(s.pc[p], p, s.init, l)
    ensures Inv(s')
  {
    hide Pcs, States, Wakeups, Family, Waiting, Follows, LockShift, Place, Locks, Holds;
    SameLocks(s, c, p, pc);
    MoveKeeps(s, s', c, p, pc);
  }

  /** Acts that only move, with the same locks held. */
  ghost predicate Steers(s: State, p: nat, pc: Pc)
    requires Sized(s) && p < |s.st|
  {
    Follows(s, p, pc) && forall l :: Holds(pc, p, s.init, l) == Holds(s.pc[p], p, s.init, l)
  }

  lemma SteerKeeps(s: State, s': State, c: nat, p: nat, pc: Pc)
    requires Inv(s) && Executes(s, c, p) && s' == Go(s, p, pc) && Steers(s, p, pc)
    ensures Inv(s')
  {
    hide Inv, Follows, Holds;
    ActMoveKeeps(s, s', c, p, pc);
  }

  lemma FoundTaken(s: State, p: nat, k: nat)
    requires Sized(s) && p < |s.st| && InRange(s, s.pc[p], p) && s.pc[p] == LockTest(k) && s.holder[k].Some?
    ensures Steers(s, p, SleepWant(k))
  {
  }

  lemma KillMissed(s: State, p: nat, t: nat, i: nat)
    requires Sized(s) && p < |s.st| && InRange(s, s.pc[p], p) && s.pc[p] == KillNext(t, i)
    ensures Steers(s, p, User)
  {
  }

  lemma ForkFailed(s: State, p: nat, i: nat)
    requires Sized(s) && p < |s.st| && InRange(s, s.pc[p], p) && s.pc[p] == ForkNext(i)
    ensures Steers(s, p, User)
  {
  }

  lemma KillPassed(s: State, p: nat, t: nat, i: nat)
    requires Sized(s) && p < |s.st| && InRange(s, s.pc[p], p) && s.pc[p] == KillLook(t, i)
    ensures Steers(s, p, KillDrop(t, i, false))
  {
  }

  lemma ForkPassed(s: State, p: nat, i: nat)
    requires Sized(s) && p < |s.st| && InRange(s, s.pc[p], p) && s.pc[p] == ForkLook(i)
    ensures Steers(s, p, ForkDrop(i, false))
  {
  }

  lemma WaitSeesChild(s: State, p: nat, i: nat, kids: bool)
    requires Sized(s) && p < |s.st| && InRange(s, s.pc[p], p) && s.pc[p] == WaitScan(i, kids) && i < |s.st|
      && s.parent[i] == Some(p) && i != p
    ensures Steers(s, p, WaitChild(i))
  {
  }

  lemma WaitPassesOver(s: State, p: nat, i: nat, kids: bool)
    requires Sized(s) && p < |s.st| && InRange(s, s.pc[p], p) && s.pc[p] == WaitScan(i, kids) && i < |s.st|
      && s.parent[i] != Some(p)
    ensures Steers(s, p, WaitScan(i + 1, kids))
  {
  }

  lemma WaitGivesUp(s: State, p: nat, i: nat, kids: bool)
    requires Sized(s) && p < |s.st| && InRange(s, s.pc[p], p) && s.pc[p] == WaitScan(i, kids)
    ensures Steers(s, p, WaitDrop)
  {
  }

  lemma WaitWillSleep(s: State, p: nat, i: nat, kids: bool)
    requires Sized(s) && p < |s.st| && InRange(s, s.pc[p], p) && s.pc[p] == WaitScan(i, kids) && i >= |s.st|
    ensures Steers(s, p, WaitSet)
  {
  }

  lemma WaitAlive(s: State, p: nat, i: nat)
    requires Sized(s) && p < |s.st| && InRange(s, s.pc[p], p) && s.pc[p] == WaitLook(i) && s.st[i] != Zombie
    ensures Steers(s, p, WaitPass(i))
  {
  }

  lemma WaitCannotCopy(s: State, p: nat, i: nat)
    requires Sized(s) && p < |s.st| && InRange(s, s.pc[p], p) && s.pc[p] == WaitLook(i)
    ensures Steers(s, p, WaitReap(i))
  {
  }

  lemma ExitCopies(s: State, p: nat, op: nat)
    requires Sized(s) && p < |s.st| && InRange(s, s.pc[p], p) && s.pc[p] == ExitCopy && s.parent[p] == Some(op)
      && op < |s.st| && op != p && s.parent[op] != Some(p)
    ensures Steers(s, p, ExitCopyDrop(op))
  {
  }

  lemma ReparentSeesFollows(s: State, p: nat, op: nat, i: nat)
    requires Sized(s) && p < |s.st| && InRange(s, s.pc[p], p) && s.pc[p] == Reparent(op, i) && i < |s.st|
      && s.parent[i] == Some(p) && i != p && i != op
    ensures Follows(s, p, ReparentWant(op, i))
  {
  }

  lemma ReparentSees(s: State, p: nat, op: nat, i: nat)
    requires Sized(s) && p < |s.st| && InRange(s, s.pc[p], p) && s.pc[p] == Reparent(op, i) && i < |s.st|
      && s.parent[i] == Some(p) && i != p && i != op
    ensures Steers(s, p, ReparentWant(op, i))
  {
    hide Follows, InRange;
    ReparentSeesFollows(s, p, op, i);
  }

  lemma ReparentPasses(s: State, p: nat, op: nat, i: nat)
    requires Sized(s) && p < |s.st| && InRange(s, s.pc[p], p) && s.pc[p] == Reparent(op, i) && i < |s.st|
      && s.parent[i] != Some(p)
    ensures Steers(s, p, Reparent(op, i + 1))
  {
  }

  lemma ReparentEnds(s: State, p: nat, op: nat, i: nat)
    requires Sized(s) && p < |s.st| && InRange(s, s.pc[p], p) && s.pc[p] == Reparent(op, i) && i >= |s.st|
    ensures Steers(s, p, ExitDead(op))
  {
  }

  lemma NotOwnParent(s: State, p: nat, i: nat)
    requires Inv(s) && p < |s.st| && i < |s.st| && s.parent[i] == Some(p)
    ensures i != p && i != s.init && Live(s.st[p])
  {
    assert FamilyOk(s, i);
  }

  /** A process is not among the parents of its parent. */
  lemma NoCycle(s: State, p: nat)
    requires Inv(s) && p < |s.st| && s.parent[p].Some?
    ensures s.parent[p].value < |s.st| && s.parent[p].value != p && s.parent[s.parent[p].value] != Some(p)
  {
    hide Original, Chased;
    assert FamilyOk(s, p);
    assert FamilyOk(s, s.parent[p].value);
  }

  lemma NotGrandparent(s: State, p: nat, op: nat, i: nat)
    requires Inv(s) && p < |s.st| && s.pc[p] == Reparent(op, i) && i < |s.st| && s.parent[i] == Some(p)
    ensures i != op
  {
    assert FamilyOk(s, p);
  }

  /** acquiresleep finds the lock taken. */
  lemma FoundTakenKeeps(s: State, s': State, c: nat, p: nat, ok: bool, k: nat)
    requires Inv(s) && ActStep(s, s', c, p, ok) && s.pc[p] == LockTest(k) && k < |s.holder| && s.holder[k].Some?
    ensures Inv(s')
  {
    hide Inv, Steers, InRange;
    assert s' == Go(s, p, SleepWant(k));
    hide Acted;
    RangeOf(s, p);
    FoundTaken(s, p, k);
    SteerKeeps(s, s', c, p, SleepWant(k));
  }

  lemma MissKeeps(s: State, s': State, c: nat, p: nat, ok: bool)
    requires Inv(s) && ActStep(s, s', c, p, ok) && (s.pc[p].KillNext? || s.pc[p].ForkNext?)
    ensures Inv(s')
  {
    hide Inv, Steers, InRange;
    assert s' == Go(s, p, User);
    hide Acted;
    RangeOf(s, p);
    if s.pc[p].KillNext? { KillMissed(s, p, s.pc[p].target, s.pc[p].i); } else { ForkFailed(s, p, s.pc[p].i); }
    SteerKeeps(s, s', c, p, User);
  }

  lemma KillPassKeeps(s: State, s': State, c: nat, p: nat, ok: bool, t: nat, i: nat)
    requires Inv(s) && ActStep(s, s', c, p, ok) && s.pc[p] == KillLook(t, i) && i < |s.st| && s.pid[i] != t
    ensures Inv(s')
  {
    hide Inv, Steers, InRange;
    assert s' == Go(s, p, KillDrop(t, i, false));
    hide Acted;
    RangeOf(s, p);
    KillPassed(s, p, t, i);
    SteerKeeps(s, s', c, p, KillDrop(t, i, false));
  }

  lemma ForkPassKeeps(s: State, s': State, c: nat, p: nat, ok: bool, i: nat)
    requires Inv(s) && ActStep(s, s', c, p, ok) && s.pc[p] == ForkLook(i) && i < |s.st| && s.st[i] != Unused
    ensures Inv(s')
  {
    hide Inv, Steers, InRange;
    assert s' == Go(s, p, ForkDrop(i, false));
    hide Acted;
    RangeOf(s, p);
    ForkPassed(s, p, i);
    SteerKeeps(s, s', c, p, ForkDrop(i, false));
  }

  function WaitTurn(s: State, p: nat, i: nat, kids: bool): Pc
    requires Sized(s) && p < |s.st|
  {
    if i < |s.st| then (if s.parent[i] == Some(p) then WaitChild(i) else WaitScan(i + 1, kids))
    else if !kids || s.killed[p] then WaitDrop else WaitSet
  }

  lemma WaitScanKeeps(s: State, s': State, c: nat, p: nat, ok: bool, i: nat, kids: bool)
    requires Inv(s) && ActStep(s, s', c, p, ok) && s.pc[p] == WaitScan(i, kids)
    ensures Inv(s')
  {
    hide Inv, Steers, InRange;
    assert s' == Go(s, p, WaitTurn(s, p, i, kids));
    hide Acted;
    RangeOf(s, p);
    if i < |s.st| && s.parent[i] == Some(p) {
      NotOwnParent(s, p, i);
      WaitSeesChild(s, p, i, kids);
    } else if i < |s.st| {
      WaitPassesOver(s, p, i, kids);
    } else if !kids || s.killed[p] {
      WaitGivesUp(s, p, i, kids);
    } else {
      WaitWillSleep(s, p, i, kids);
    }
    SteerKeeps(s, s', c, p, WaitTurn(s, p, i, kids));
  }

  lemma WaitLookKeeps(s: State, s': State, c: nat, p: nat, ok: bool, i: nat)
    requires Inv(s) && ActStep(s, s', c, p, ok) && s.pc[p] == WaitLook(i) && i < |s.st| && (s.st[i] != Zombie || !ok)
    ensures Inv(s')
  {
    hide Inv, Steers, InRange;
    var pc := if s.st[i] != Zombie then WaitPass(i) else WaitReap(i);
    assert s' == Go(s, p, pc);
    hide Acted;
    RangeOf(s, p);
    if s.st[i] != Zombie { WaitAlive(s, p, i); } else { WaitCannotCopy(s, p, i); }
    SteerKeeps(s, s', c, p, pc);
  }

  lemma ExitCopyKeeps(s: State, s': State, c: nat, p: nat, ok: bool)
    requires Inv(s) && ActStep(s, s', c, p, ok) && s.pc[p] == ExitCopy
    ensures Inv(s')
  {
    hide Inv, Steers, InRange;
    assert s.parent[p].Some? && s' == Go(s, p, ExitCopyDrop(s.parent[p].value));
    hide Acted;
    RangeOf(s, p);
    NoCycle(s, p);
    ExitCopies(s, p, s.parent[p].value);
    SteerKeeps(s, s', c, p, ExitCopyDrop(s.parent[p].value));
  }

  lemma ReparentKeeps(s: State, s': State, c: nat, p: nat, ok: bool, op: nat, i: nat)
    requires Inv(s) && ActStep(s, s', c, p, ok) && s.pc[p] == Reparent(op, i)
    ensures Inv(s')
  {
    hide Inv, Steers, InRange;
    var pc := if i < |s.st| then (if s.parent[i] == Some(p) then ReparentWant(op, i) else Reparent(op, i + 1))
      else ExitDead(op);
    assert s' == Go(s, p, pc);
    hide Acted;
    RangeOf(s, p);
    if i < |s.st| && s.parent[i] == Some(p) {
      NotOwnParent(s, p, i);
      NotGrandparent(s, p, op, i);
      ReparentSees(s, p, op, i);
    } else if i < |s.st| {
      ReparentPasses(s, p, op, i);
    } else {
      ReparentEnds(s, p, op, i);
    }
    SteerKeeps(s, s', c, p, pc);
  }

  // ----- a process changes its own state

  lemma SelfStates(s: State, s': State, c: nat, p: nat, pc: Pc, t: ProcState, ch: Option<Chan>)
    requires States(s) && Place(s) && Executes(s, c, p)
      && s' == Go(s.(st := s.st[p := t], chan := s.chan[p := ch]), p, pc)
    requires Expected(pc) == t && pc != Dead && (pc.SleepSwitch? ==> ch == Some(OnLock(pc.k)))
      && (pc.WaitSwitch? ==> ch == Some(OnProc(p)))
    ensures States(s')
  {
    SameCpu(s, c, p);
    forall q | 0 <= q < |s'.st| ensures StateOk(s', q) && Entering(s', q) == Entering(s, q) {
      assert StateOk(s, q);
    }
  }

  lemma SelfWakeups(s: State, s': State, c: nat, p: nat, pc: Pc, t: ProcState, ch: Option<Chan>)
    requires Wakeups(s) && Locks(s) && Place(s) && Executes(s, c, p)
      && s' == Go(s.(st := s.st[p := t], chan := s.chan[p := ch]), p, pc)
    requires QuietSleep(s.pc[p], pc, |s.st|) && LockShift(s, s.lock, c, p, pc)
    ensures Wakeups(s')
  {
    SameCpu(s, c, p);
    hide LockShift, Locks, Holds;
    forall q | 0 <= q < |s'.st| ensures WakeOk(s', q) {
      assert WakeOk(s, q);
      assert Committed(s', q) == Committed(s, q);
      if Committed(s, q).Some? && ToBeWoken(s, Committed(s, q).value,
        q) { StillWoken(s, s', c, p, pc, Committed(s, q).value, q); }
    }
  }

  lemma SelfFamily(s: State, s': State, p: nat, pc: Pc, t: ProcState, ch: Option<Chan>)
    requires Family(s) && p < |s.st| && s' == Go(s.(st := s.st[p := t], chan := s.chan[p := ch]), p, pc)
    requires QuietKin(s.pc[p], pc, |s.st|) && Live(t) && s.st[p] != Unused
    ensures Family(s')
  {
    hide Original, Chased, Cleared, Scanned;
    forall j | 0 <= j < |s'.st| ensures FamilyOk(s', j) { assert FamilyOk(s, j); }
  }

  lemma SelfWaiting(s: State, s': State, c: nat, p: nat, pc: Pc, t: ProcState, ch: Option<Chan>)
    requires Waiting(s) && Place(s) && Executes(s, c, p)
      && s' == Go(s.(st := s.st[p := t], chan := s.chan[p := ch]), p, pc)
    requires QuietKin(s.pc[p], pc, |s.st|) && Live(t)
    ensures Waiting(s')
  {
    SameCpu(s, c, p);
    hide Original, Chased, Cleared, Scanned, Place;
    forall q, j | 0 <= q < |s'.st| && 0 <= j < |s'.st| && j < Checked(s', q) && s'.parent[j] == Some(q)
      ensures s'.st[j] != Zombie || s'.woke[j] != Some(q)
    {
      assert Checked(s', q) <= Checked(s, q);
    }
  }

  /** A process goes to pc in state t with channel ch, and nothing else changes. */
  ghost predicate Turns(s: State, p: nat, pc: Pc, t: ProcState, ch: Option<Chan>)
    requires Sized(s) && p < |s.st|
  {
    && Expected(pc) == t && Live(t) && pc != Dead && (pc.SleepSwitch? ==> ch == Some(OnLock(pc.k)))
      && (pc.WaitSwitch? ==> ch == Some(OnProc(p)))
    && QuietSleep(s.pc[p], pc, |s.st|) && QuietKin(s.pc[p], pc, |s.st|) && InRange(s, pc, p)
    && forall l :: Holds(pc, p, s.init, l) == Holds(s.pc[p], p, s.init, l)
  }

  lemma SelfKeeps(s: State, s': State, c: nat, p: nat, pc: Pc, t: ProcState, ch: Option<Chan>)
    requires Inv(s) && Executes(s, c, p) && s' == Go(s.(st := s.st[p := t], chan := s.chan[p := ch]), p, pc)
      && Turns(s, p, pc, t, ch)
    ensures Inv(s')
  {
    SameCpu(s, c, p);
    assert s.st[p] != Unused by { assert StateOk(s, p); }
    hide Pcs, States, Wakeups, Family, Waiting, LockShift, Place, Locks, Holds, QuietSleep, QuietKin, InRange, Expected;
    SameLocks(s, c, p, pc);
    PcsGo(s, s', p, pc);
    PlaceSame(s, s');
    LocksMove(s, s', c, p, pc);
    SelfStates(s, s', c, p, pc, t, ch);
    SelfWakeups(s, s', c, p, pc, t, ch);
    SelfFamily(s, s', p, pc, t, ch);
    SelfWaiting(s, s', c, p, pc, t, ch);
  }

  lemma IsRunning(s: State, c: nat, p: nat)
    requires Inv(s) && Executes(s, c, p)
    ensures s.at[p] == Some(c) && s.st[p] == Expected(s.pc[p])
  {
    SameCpu(s, c, p);
    assert StateOk(s, p);
  }

  lemma YieldSetTurns(s: State, p: nat, spot: Spot)
    requires Sized(s) && p < |s.st| && s.pc[p] == YieldSet(spot) && InRange(s, s.pc[p], p)
    ensures Turns(s, p, YieldSwitch(spot), Runnable, s.chan[p])
  {
  }

  lemma YieldSetKeeps(s: State, s': State, c: nat, p: nat, ok: bool, spot: Spot)
    requires Inv(s) && ActStep(s, s', c, p, ok) && s.pc[p] == YieldSet(spot)
    ensures Inv(s')
  {
    hide Inv, Turns, InRange;
    RangeOf(s, p);
    assert s' == Go(s.(st := s.st[p := Runnable], chan := s.chan[p := s.chan[p]]), p, YieldSwitch(spot));
    hide Acted;
    YieldSetTurns(s, p, spot);
    SelfKeeps(s, s', c, p, YieldSwitch(spot), Runnable, s.chan[p]);
  }

  lemma SleepSetTurns(s: State, p: nat, k: nat)
    requires Sized(s) && p < |s.st| && s.pc[p] == SleepSet(k) && InRange(s, s.pc[p], p)
    ensures Turns(s, p, SleepSwitch(k), Sleeping, Some(OnLock(k)))
  {
  }

  lemma SleepSetKeeps(s: State, s': State, c: nat, p: nat, ok: bool, k: nat)
    requires Inv(s) && ActStep(s, s', c, p, ok) && s.pc[p] == SleepSet(k)
    ensures Inv(s')
  {
    hide Inv, Turns, InRange;
    RangeOf(s, p);
    assert s' == Go(s.(st := s.st[p := Sleeping], chan := s.chan[p := Some(OnLock(k))]), p, SleepSwitch(k));
    hide Acted;
    SleepSetTurns(s, p, k);
    SelfKeeps(s, s', c, p, SleepSwitch(k), Sleeping, Some(OnLock(k)));
  }

  lemma SleepResumeTurns(s: State, p: nat, k: nat)
    requires Sized(s) && p < |s.st| && s.pc[p] == SleepResume(k) && InRange(s, s.pc[p], p)
    ensures Turns(s, p, SleepLeave(k), Running, None)
  {
  }

  lemma SleepResumeKeeps(s: State, s': State, c: nat, p: nat, ok: bool, k: nat)
    requires Inv(s) && ActStep(s, s', c, p, ok) && s.pc[p] == SleepResume(k)
    ensures Inv(s')
  {
    hide Inv, Turns, InRange;
    RangeOf(s, p);
    IsRunning(s, c, p);
    assert s' == Go(s.(st := s.st[p := Running], chan := s.chan[p := None]), p, SleepLeave(k));
    hide Acted;
    SleepResumeTurns(s, p, k);
    SelfKeeps(s, s', c, p, SleepLeave(k), Running, None);
  }

  lemma WaitSetTurns(s: State, p: nat)
    requires Sized(s) && p < |s.st| && s.pc[p] == WaitSet && InRange(s, s.pc[p], p)
    ensures Turns(s, p, WaitSwitch, Sleeping, Some(OnProc(p)))
  {
  }

  lemma WaitSetKeeps(s: State, s': State, c: nat, p: nat, ok: bool)
    requires Inv(s) && ActStep(s, s', c, p, ok) && s.pc[p] == WaitSet
    ensures Inv(s')
  {
    hide Inv, Turns, InRange;
    RangeOf(s, p);
    assert s' == Go(s.(st := s.st[p := Sleeping], chan := s.chan[p := Some(OnProc(p))]), p, WaitSwitch);
    hide Acted;
    WaitSetTurns(s, p);
    SelfKeeps(s, s', c, p, WaitSwitch, Sleeping, Some(OnProc(p)));
  }

  lemma WaitResumeTurns(s: State, p: nat)
    requires Sized(s) && p < |s.st| && s.pc[p] == WaitResume && InRange(s, s.pc[p], p)
    ensures Turns(s, p, WaitScan(0, false), Running, None)
  {
  }

  lemma WaitResumeKeeps(s: State, s': State, c: nat, p: nat, ok: bool)
    requires Inv(s) && ActStep(s, s', c, p, ok) && s.pc[p] == WaitResume
    ensures Inv(s')
  {
    hide Inv, Turns, InRange;
    RangeOf(s, p);
    IsRunning(s, c, p);
    assert s' == Go(s.(st := s.st[p := Running], chan := s.chan[p := None]), p, WaitScan(0, false));
    hide Acted;
    WaitResumeTurns(s, p);
    SelfKeeps(s, s', c, p, WaitScan(0, false), Running, None);
  }
}
