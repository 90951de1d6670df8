/** Context switches, and what holds of whole runs of the process protocol. */
module ProcTheorems {
  import opened Basics
  import opened ProcProtocol
  import opened ProcSafety
  import opened ProcActs
  import opened ProcEffects

  // ----- from a process to its scheduler

  lemma ResumeLocks(pc: Pc, p: nat, init: nat, l: Lock)
    requires Resume(pc).Some?
    ensures Holds(pc, p, init, l) <==> l == P(p)
  {
  }

  lemma ResumeFacts(s: State, pc: Pc, p: nat)
    requires Resume(pc).Some? && InRange(s, pc, p)
    ensures var pc2 := Resume(pc).value;
      && InRange(s, pc2, p) && Waker(pc).None? && (Original(pc2).None? || Original(pc2) == Original(pc))
        && Chased(pc2).None?
      && Cleared(pc2, |s.st|) == Cleared(pc, |s.st|)
  {
  }

  /** The three kinds of sleep at a switch. */
  lemma ResumeState(pc: Pc, n: nat)
    requires Resume(pc).Some?
    ensures var pc2 := Resume(pc).value;
      && (Expected(pc) == Runnable ==> Resumable(pc2) && Commit(pc).None? && Scanned(pc, n) == 0)
      && (Expected(pc) == Zombie ==> pc2 == Dead && Commit(pc).None? && Scanned(pc, n) == 0)
      && (Expected(pc) == Sleeping ==>
        (pc.SleepSwitch? && pc2 == SleepResume(pc.k) && Commit(pc) == Some(pc.k))
        || (pc.WaitSwitch? && pc2 == WaitResume && Commit(pc).None?))
      && Expected(pc) != Running && Expected(pc) != Unused
  {
  }

  lemma SwitchLocks(s: State, s': State, c: nat, p: nat)
    requires Locks(s) && Place(s) && SwitchStep(s, s', c, p)
    ensures Locks(s') && Place(s')
  {
    SameCpu(s, c, p);
    hide Holds, Resume;
    forall d: nat, l ensures HoldsOn(s', d, l) == HoldsOn(s, d, l) {
      ResumeLocks(s.pc[p], p, s.init, l);
      if d < |s.on| { assert CpuOk(s, d); }
    }
    forall d | 0 <= d < |s'.on| ensures CpuOk(s', d) { assert CpuOk(s, d); }
  }

  lemma SwitchStates(s: State, s': State, c: nat, p: nat)
    requires States(s) && Place(s) && SwitchStep(s, s', c, p)
    ensures States(s')
  {
    SameCpu(s, c, p);
    hide Resume, Expected;
    forall q | 0 <= q < |s'.st| ensures StateOk(s', q) && Entering(s', q) == Entering(s, q) {
      assert StateOk(s, q);
      ResumeState(s.pc[p], |s.st|);
    }
  }

  lemma SwitchFamily(s: State, s': State, c: nat, p: nat)
    requires Family(s) && SwitchStep(s, s', c, p) && InRange(s, s.pc[p], p)
    ensures Family(s')
  {
    hide Resume, InRange, Original, Chased, Cleared, Live;
    ResumeFacts(s, s.pc[p], p);
    forall q | 0 <= q < |s'.st| ensures FamilyOk(s', q) { assert FamilyOk(s, q); }
  }

  lemma SwitchWakeups(s: State, s': State, c: nat, p: nat)
    requires Wakeups(s) && Place(s) && SwitchStep(s, s', c, p) && s.at[p] == Some(c) && s.st[p] == Expected(s.pc[p])
      && InRange(s, s.pc[p], p)
    ensures Wakeups(s')
  {
    hide Resume, InRange, Expected, Commit, Waker, Claim;
    ResumeState(s.pc[p], |s.st|);
    ResumeFacts(s, s.pc[p], p);
    forall d | 0 <= d < |s.on| && s.on[d] == Process(p) ensures d == c { assert CpuOk(s, d); }
    forall q | 0 <= q < |s'.st| ensures WakeOk(s', q) {
      assert WakeOk(s, q) && Committed(s', q) == Committed(s, q);
      if Committed(s, q).Some? { assert ToBeWoken(s', Committed(s, q).value, q) == ToBeWoken(s, Committed(s, q).value,
        q); }
    }
  }

  lemma SwitchWaiting(s: State, s': State, c: nat, p: nat)
    requires Waiting(s) && SwitchStep(s, s', c, p) && s.at[p] == Some(c) && s.st[p] == Expected(s.pc[p])
    ensures Waiting(s')
  {
    hide Resume, Expected, Checked;
    forall q | 0 <= q < |s'.st| ensures Checked(s', q) <= Checked(s, q) { SwitchChecked(s, s', c, p, q); }
  }

  lemma SwitchRest(s: State, s': State, c: nat, p: nat)
    requires Inv(s) && SwitchStep(s, s', c, p)
    ensures Wakeups(s') && Family(s') && Waiting(s')
  {
    hide Pcs, Locks, Place, States, Wakeups, Family, Waiting, Resume, Expected, InRange;
    IsRunning(s, c, p);
    RangeOf(s, p);
    SwitchFamily(s, s', c, p);
    SwitchWakeups(s, s', c, p);
    SwitchWaiting(s, s', c, p);
  }

  lemma SwitchChecked(s: State, s': State, c: nat, p: nat, q: nat)
    requires SwitchStep(s, s', c, p) && s.at[p] == Some(c) && q < |s.st| && s.st[p] == Expected(s.pc[p])
    ensures Checked(s', q) <= Checked(s, q)
  {
  }

  lemma SwitchKeeps(s: State, s': State, c: nat, p: nat)
    requires Inv(s) && SwitchStep(s, s', c, p)
    ensures Inv(s')
  {
    hide Pcs, Locks, Place, States, Wakeups, Family, Waiting, Resume, InRange;
    RangeOf(s, p);
    ResumeFacts(s, s.pc[p], p);
    PcsGo(s, s', p, Resume(s.pc[p]).value);
    SwitchLocks(s, s', c, p);
    SwitchStates(s, s', c, p);
    SwitchRest(s, s', c, p);
  }

  // ----- the scheduler

  /** A scheduler step that leaves processes alone. */
  lemma SchedFrame(s: State, s': State, c: nat)
    requires Inv(s) && Schedules(s, c) && Sized(s')
      && s' == s.(lock := s'.lock, spc := s'.spc, cproc := s'.cproc, st := s'.st)
    requires |s'.st| == |s.st| && forall l :: (l in s.lock && s.lock[l] != c) || (l in s'.lock && s'.lock[l] != c) ==>
      l in s.lock && l in s'.lock && s.lock[l] == s'.lock[l]
    requires forall q :: 0 <= q < |s.st| ==> s'.st[q] == s.st[q] || (s.st[q] == Runnable && s'.st[q] == Running)
    ensures Pcs(s') && Wakeups(s') && Family(s') && Waiting(s')
  {
    hide Holds, Expected, Commit, Waker, Scanned, Cleared, Original, Chased, Locks, Place, States;
    forall p | 0 <= p < |s'.pc| ensures InRange(s', s'.pc[p], p) { assert InRange(s, s.pc[p], p); }
    hide InRange;
    forall p | 0 <= p < |s'.st| ensures FamilyOk(s', p) && WakeOk(s', p) && Checked(s', p) == Checked(s, p) {
      assert FamilyOk(s, p) && WakeOk(s, p);
      assert Committed(s', p) == Committed(s, p);
      if Committed(s, p).Some? { assert ToBeWoken(s', Committed(s, p).value, p) == ToBeWoken(s, Committed(s, p).value,
        p); }
    }
  }

  lemma SchedLocks(s: State, s': State, c: nat)
    requires Locks(s) && Schedules(s, c) && Sized(s') && c < |s'.on|
      && s' == s.(lock := s'.lock, spc := s.spc[c := s'.spc[c]], cproc := s'.cproc, st := s'.st)
    requires forall l :: (l in s.lock && s.lock[l] != c) || (l in s'.lock && s'.lock[l] != c) ==>
      l in s.lock && l in s'.lock && s.lock[l] == s'.lock[l]
    requires forall l :: SchedHolds(s'.spc[c], l) <==> l in s'.lock && s'.lock[l] == c
    ensures Locks(s')
  {
    hide Holds;
    forall d: nat, l | d != c ensures HoldsOn(s', d, l) == HoldsOn(s, d, l) {}
    forall l ensures HoldsOn(s', c, l) == SchedHolds(s'.spc[c], l) {}
  }

  lemma SchedPlace(s: State, s': State, c: nat)
    requires Place(s) && Schedules(s, c) && Sized(s') && c < |s'.on|
      && s' == s.(lock := s'.lock, spc := s.spc[c := s'.spc[c]], cproc := s.cproc[c := s'.cproc[c]], st := s'.st)
    requires |s'.st| == |s.st| && s'.spc[c].i < |s.st| && s'.cproc[c] == Claim(s'.spc[c]) && !s'.spc[c].SchedBack?
    ensures Place(s')
  {
    forall d | 0 <= d < |s'.on| ensures CpuOk(s', d) { assert CpuOk(s, d); }
  }

  lemma SchedHeld(s: State, c: nat)
    requires Locks(s) && Schedules(s, c)
    ensures forall l :: SchedHolds(s.spc[c], l) <==> l in s.lock && s.lock[l] == c
  {
    hide Holds;
    forall l ensures SchedHolds(s.spc[c], l) <==> l in s.lock && s.lock[l] == c {
      assert HoldsOn(s, c, l) == SchedHolds(s.spc[c], l);
    }
  }

  /** The scheduler acquires or releases a lock, or passes a process over. */
  predicate Moves(s: State, s': State, c: nat)
    requires Schedules(s, c) && s.spc[c].i < |s.st|
  {
    || SchedAcquireStep(s, s', c) || SchedReleaseStep(s, s', c) || SchedBackStep(s, s', c)
    || (SchedLookStep(s, s', c) && s.st[s.spc[c].i] != Runnable)
  }

  lemma SchedMoveStates(s: State, s': State, c: nat)
    requires States(s) && Schedules(s, c) && s.spc[c].i < |s.st| && Moves(s, s', c) && Sized(s')
    requires forall l :: SchedHolds(s.spc[c], l) <==> l in s.lock && s.lock[l] == c
    ensures States(s')
  {
    hide Expected, Resumable;
    forall p | 0 <= p < |s'.st| ensures StateOk(s', p) && Entering(s', p) == Entering(s, p) { assert StateOk(s, p); }
  }

  lemma SchedMoveLocks(s: State, s': State, c: nat)
    requires Locks(s) && Schedules(s, c) && s.spc[c].i < |s.st| && Moves(s, s', c)
    requires forall l :: SchedHolds(s.spc[c], l) <==> l in s.lock && s.lock[l] == c
    ensures Sized(s') && Locks(s')
  {
    hide Locks;
    SchedLocks(s, s', c);
  }

  lemma SchedMovePlace(s: State, s': State, c: nat)
    requires Place(s) && Schedules(s, c) && s.spc[c].i < |s.st| && Moves(s, s', c) && Sized(s')
    ensures Place(s')
  {
    assert CpuOk(s, c);
    SchedPlace(s, s', c);
  }

  lemma SchedSpotOf(s: State, c: nat)
    requires Inv(s) && Schedules(s, c)
    ensures s.spc[c].i < |s.st|
  {
    hide Pcs, Locks, States, Wakeups, Family, Waiting;
    assert CpuOk(s, c);
  }

  /** A scheduler step that changes no process state. */
  lemma SchedMoveKeeps(s: State, s': State, c: nat)
    requires Inv(s) && Schedules(s, c) && s.spc[c].i < |s.st| && Moves(s, s', c)
    ensures Inv(s')
  {
    hide Pcs, Locks, Place, States, Wakeups, Family, Waiting;
    SchedHeld(s, c);
    SchedMoveLocks(s, s', c);
    SchedMovePlace(s, s', c);
    SchedMoveStates(s, s', c);
    SchedFrame(s, s', c);
  }

  /** A runnable process whose lock the scheduler holds is off its CPU. */
  lemma RunnableOff(s: State, c: nat, i: nat)
    requires Inv(s) && Schedules(s, c) && s.spc[c] == SchedLook(i) && i < |s.st| && s.st[i] == Runnable
    ensures s.at[i].None? && P(i) in s.lock && s.lock[P(i)] == c
  {
    assert StateOk(s, i);
    assert HoldsOn(s, c, P(i));
    if s.at[i].Some? {
      var d := s.at[i].value;
      assert s.on[d] == Process(i);
      assert Holds(s.pc[i], i, s.init, P(i));
      assert HoldsOn(s, d, P(i));
    }
  }

  lemma SchedPickKeeps(s: State, s': State, c: nat)
    requires Inv(s) && SchedLookStep(s, s', c) && s.st[s.spc[c].i] == Runnable
    ensures Inv(s')
  {
    var i := s.spc[c].i;
    assert CpuOk(s, c);
    RunnableOff(s, c, i);
    SchedHeld(s, c);
    SchedLocks(s, s', c);
    SchedPlace(s, s', c);
    SchedFrame(s, s', c);
    hide Pcs, Locks, Place, Wakeups, Family, Waiting, Expected;
    forall p | 0 <= p < |s'.st| ensures StateOk(s', p) && (Entering(s', p) ==> s'.at[p].None? && s'.st[p] == Running) {
      assert StateOk(s, p);
      assert p != i ==> Entering(s', p) == Entering(s, p);
    }
  }

  lemma ResumableFacts(pc: Pc, p: nat, init: nat, n: nat)
    requires Resumable(pc)
    ensures Expected(pc) == Running && Commit(pc).None? && Waker(pc).None? && Scanned(pc, n) == 0 && !pc.SleepSwitch?
      && !pc.WaitSwitch? && pc != Dead
    ensures forall l :: Holds(pc, p, init, l) <==> l == P(p)
  {
  }

  lemma SchedSwitchLocks(s: State, s': State, c: nat, i: nat)
    requires Locks(s) && Place(s) && SchedSwitchStep(s, s', c) && s.spc[c] == SchedSwitch(i) && s.at[i].None?
    requires forall l :: Holds(s.pc[i], i, s.init, l) <==> l == P(i)
    ensures Locks(s') && Place(s')
  {
    hide Holds;
    forall d: nat, l ensures HoldsOn(s', d, l) == HoldsOn(s, d, l) {}
    assert HoldsOn(s, c, P(i));
    forall d | 0 <= d < |s'.on| ensures CpuOk(s', d) {
      assert CpuOk(s, d);
      if d != c && s.on[d] == Scheduler && s.spc[d].SchedBack? { assert HoldsOn(s, d, P(s.spc[d].i)); }
    }
  }

  lemma SchedSwitchStates(s: State, s': State, c: nat, i: nat)
    requires States(s) && Locks(s) && SchedSwitchStep(s, s', c) && s.spc[c] == SchedSwitch(i) && s.at[i].None?
      && s.st[i] == Running
    requires Expected(s.pc[i]) == Running && !s.pc[i].SleepSwitch? && !s.pc[i].WaitSwitch? && s.pc[i] != Dead
    ensures States(s')
  {
    hide Expected, Holds;
    assert HoldsOn(s, c, P(i));
    forall p | 0 <= p < |s'.st| ensures StateOk(s', p) && (Entering(s', p) ==> Entering(s, p) && p != i) {
      assert StateOk(s, p);
      assert p != i ==> Entering(s', p) == Entering(s, p);
    }
  }

  lemma SchedSwitchRest(s: State, s': State, c: nat, i: nat)
    requires Inv(s) && SchedSwitchStep(s, s', c) && s.spc[c] == SchedSwitch(i) && s.at[i].None? && s.st[i] == Running
    requires Commit(s.pc[i]).None? && Scanned(s.pc[i], |s.st|) == 0
    ensures Pcs(s') && Wakeups(s') && Family(s') && Waiting(s')
  {
    hide Holds, Expected, Commit, Waker, Scanned, Cleared, Original, Chased, Locks, Place, States;
    forall p | 0 <= p < |s'.pc| ensures InRange(s', s'.pc[p], p) { assert InRange(s, s.pc[p], p); }
    hide InRange;
    forall p | 0 <= p < |s'.st| ensures FamilyOk(s', p) && WakeOk(s', p) && Checked(s', p) == Checked(s, p) {
      assert FamilyOk(s, p) && WakeOk(s, p);
      assert Committed(s', p) == Committed(s, p);
    }
  }

  lemma SchedSwitchKeeps(s: State, s': State, c: nat)
    requires Inv(s) && SchedSwitchStep(s, s', c)
    ensures Inv(s')
  {
    var i := s.spc[c].i;
    SwitchEnters(s, c, i);
    hide Pcs, Locks, Place, States, Wakeups, Family, Waiting, Expected, Holds, Commit, Scanned, Waker;
    ResumableFacts(s.pc[i], i, s.init, |s.st|);
    SchedSwitchLocks(s, s', c, i);
    SchedSwitchStates(s, s', c, i);
    SchedSwitchRest(s, s', c, i);
  }

  lemma SwitchEnters(s: State, c: nat, i: nat)
    requires Inv(s) && Schedules(s, c) && s.spc[c] == SchedSwitch(i) && i < |s.st|
    ensures Entering(s, i) && s.at[i].None? && s.st[i] == Running && Resumable(s.pc[i])
  {
    assert HoldsOn(s, c, P(i));
    assert Entering(s, i);
    assert StateOk(s, i);
  }

  // ----- every step

  lemma ActKeeps(s: State, s': State, c: nat, p: nat, ok: bool)
    requires Inv(s) && ActStep(s, s', c, p, ok)
    ensures Inv(s')
  {
    hide Inv;
    match s.pc[p]
    case YieldSet(spot) => YieldSetKeeps(s, s', c, p, ok, spot);
    case LockTest(k) => if s.holder[k].Some? { FoundTakenKeeps(s, s', c, p, ok, k); }
      else { LockTakeKeeps(s, s', c, p, ok, k); }
    case SleepSet(k) => SleepSetKeeps(s, s', c, p, ok, k);
    case SleepResume(k) => SleepResumeKeeps(s, s', c, p, ok, k);
    case UnlockClear(k) => UnlockKeeps(s, s', c, p, ok, k);
    case WakeLook(k, i) => WakeLookKeeps(s, s', c, p, ok, k, i);
    case KillNext(_, _) => MissKeeps(s, s', c, p, ok);
    case KillLook(t, i) => if s.pid[i] == t { KillHitKeeps(s, s', c, p, ok, t, i); }
      else { KillPassKeeps(s, s', c, p, ok, t, i); }
    case ForkNext(_) => MissKeeps(s, s', c, p, ok);
    case ForkLook(i) =>
      if s.st[i] != Unused { ForkPassKeeps(s, s', c, p, ok, i); } else if ok { ForkKeeps(s, s', c, p, i); }
        else { ForkFailKeeps(s, s', c, p, i); }
    case WaitScan(i, kids) => WaitScanKeeps(s, s', c, p, ok, i, kids);
    case WaitLook(i) => if s.st[i] == Zombie && ok { ReapKeeps(s, s', c, p, i); }
      else { WaitLookKeeps(s, s', c, p, ok, i); }
    case WaitSet => WaitSetKeeps(s, s', c, p, ok);
    case WaitResume => WaitResumeKeeps(s, s', c, p, ok);
    case ExitNudge => ExitNudgeKeeps(s, s', c, p, ok);
    case ExitCopy => ExitCopyKeeps(s, s', c, p, ok);
    case Reparent(op, i) => ReparentKeeps(s, s', c, p, ok, op, i);
    case ReparentSet(op, i) => AdoptKeeps(s, s', c, p, ok, op, i);
    case ExitDead(op) => ExitDeadKeeps(s, s', c, p, ok, op);
    case _ =>
  }

  lemma StepKeeps(s: State, c: nat, a: Action, s': State)
    requires Inv(s) && Step(s, c, a, s')
    ensures Inv(s')
  {
    hide Inv, BeginStep, AcquireStep, ReleaseStep, SwitchStep, ActStep;
    if Schedules(s, c) { SchedSpotOf(s, c); }
    match a
    case Begin(p, pc) => BeginKeeps(s, s', c, p, pc);
    case Acquire(p) => AcquireKeeps(s, s', c, p);
    case Release(p) => ReleaseKeeps(s, s', c, p);
    case Switch(p) => SwitchKeeps(s, s', c, p);
    case Act(p, ok) => ActKeeps(s, s', c, p, ok);
    case SchedRead => if s.st[s.spc[c].i] == Runnable { SchedPickKeeps(s, s', c); } else { SchedMoveKeeps(s, s', c); }
    case SchedRun => SchedSwitchKeeps(s, s', c);
    case SchedAcquire => SchedMoveKeeps(s, s', c);
    case SchedReturn => SchedMoveKeeps(s, s', c);
    case SchedRelease => SchedMoveKeeps(s, s', c);
  }

  lemma InitInv(s: State)
    requires Init(s)
    ensures Inv(s)
  {
    forall p | 0 <= p < |s.st|
      ensures StateOk(s, p) && FamilyOk(s, p) && WakeOk(s, p) && InRange(s, s.pc[p], p) && !Entering(s, p)
      && Checked(s, p) == 0 {}
    forall c | 0 <= c < |s.on| ensures CpuOk(s, c) {}
    forall c, l ensures !HoldsOn(s, c, l) {}
  }

  // ----- runs

  ghost predicate IsRun(run: seq<State>, cpus: seq<nat>, acts: seq<Action>) {
    && |run| == |acts| + 1 && |cpus| == |acts| && Init(run[0])
    && forall m :: 0 <= m < |acts| ==> Step(run[m], cpus[m], acts[m], run[m + 1])
  }

  lemma {:induction false} RunInv(run: seq<State>, cpus: seq<nat>, acts: seq<Action>, m: nat)
    requires IsRun(run, cpus, acts) && m < |run|
    ensures Inv(run[m])
  {
    hide Inv, Init, Step;
    if m == 0 {
      InitInv(run[0]);
    } else {
      RunInv(run, cpus, acts, m - 1);
      StepKeeps(run[m - 1], cpus[m - 1], acts[m - 1], run[m]);
    }
  }

  lemma ClaimUnique(s: State, c: nat, d: nat, p: nat)
    requires Inv(s) && c < |s.on| && d < |s.on| && s.cproc[c] == Some(p) && s.cproc[d] == Some(p)
    ensures c == d
  {
    hide Pcs, Wakeups, Family, Waiting, Holds, Expected;
    assert CpuOk(s, c) && CpuOk(s, d);
    if s.on[c] == Scheduler { assert HoldsOn(s, c, P(p)); }
    if s.on[d] == Scheduler { assert HoldsOn(s, d, P(p)); }
    assert Entering(s, p) ==> s.at[p].None?;
  }

  /** In every reachable state a running process is current on exactly one
      CPU, and no process is current on two. */
  lemma RunningOnOneCpu(run: seq<State>, cpus: seq<nat>, acts: seq<Action>, m: nat, p: nat)
    requires IsRun(run, cpus, acts) && m < |run| && p < |run[m].st|
    ensures var s := run[m];
      && (forall c, d ::
            0 <= c < |s.cproc| && 0 <= d < |s.cproc| && s.cproc[c] == Some(p) && s.cproc[d] == Some(p) ==> c == d)
      && (s.st[p] == Running ==> exists c :: 0 <= c < |s.cproc| && s.cproc[c] == Some(p))
  {
    RunInv(run, cpus, acts, m);
    var s := run[m];
    hide IsRun, Pcs, Locks, Wakeups, Family, Waiting;
    assert Sized(s);
    forall c, d | 0 <= c < |s.cproc| && 0 <= d < |s.cproc| && s.cproc[c] == Some(p) && s.cproc[d] == Some(p)
      ensures c == d { ClaimUnique(s, c, d, p); }
    if s.st[p] == Running {
      assert StateOk(s, p);
      var c := if s.at[p].Some? then s.at[p].value else s.lock[P(p)];
      assert CpuOk(s, c);
    }
  }

  /** Only wait turns a zombie into a free slot. */
  lemma WhoFrees(s: State, c: nat, a: Action, s': State, i: nat)
    requires Step(s, c, a, s') && Sized(s) && i < |s.st| && i < |s'.st| && s.st[i] == Zombie && s'.st[i] == Unused
    ensures a.Act? && a.ok && Executes(s, c, a.p) && s.pc[a.p] == WaitLook(i)
  {
    match a
    case Act(p, ok) => WhoFreesActing(s, c, p, ok, s', i);
    case _ =>
  }

  lemma WhoFreesActing(s: State, c: nat, p: nat, ok: bool, s': State, i: nat)
    requires ActStep(s, s', c, p, ok) && i < |s.st| && i < |s'.st| && s.st[i] == Zombie && s'.st[i] == Unused
    ensures ok && s.pc[p] == WaitLook(i)
  {
    match s.pc[p]
    case WaitLook(_) =>
    case ForkLook(_) =>
    case KillLook(_, _) =>
    case ExitDead(_) =>
    case _ =>
  }

  /** wait frees a dead child only after its CPU has switched away from it. */
  lemma FreedAfterSwitch(run: seq<State>, cpus: seq<nat>, acts: seq<Action>, m: nat, i: nat)
    requires IsRun(run, cpus, acts) && m + 1 < |run|
    requires i < |run[m].st| && i < |run[m + 1].st| && run[m].st[i] == Zombie && run[m + 1].st[i] == Unused
    ensures forall d :: 0 <= d < |run[m].on| && d < |run[m].cproc| ==>
      run[m].on[d] != Process(i) && run[m].cproc[d] != Some(i)
  {
    RunInv(run, cpus, acts, m);
    var s := run[m];
    assert Sized(s);
    assert Step(s, cpus[m], acts[m], run[m + 1]);
    hide IsRun, Inv, Step;
    WhoFrees(s, cpus[m], acts[m], run[m + 1], i);
    ReapOff(s, cpus[m], acts[m].p, i);
  }

  /** No wakeup is lost: whenever a sleep lock's spinlock is free, a process
      asleep on the lock sleeps because the lock is held. */
  lemma SleepersFindItHeld(run: seq<State>, cpus: seq<nat>, acts: seq<Action>, m: nat, p: nat, k: nat)
    requires IsRun(run, cpus, acts) && m < |run| && p < |run[m].st| && p < |run[m].chan|
    requires L(k) !in run[m].lock && run[m].st[p] == Sleeping && run[m].chan[p] == Some(OnLock(k))
    ensures k < |run[m].holder| && run[m].holder[k].Some?
  {
    RunInv(run, cpus, acts, m);
    var s := run[m];
    assert StateOk(s, p) && WakeOk(s, p);
  }

  /** No exit that woke its parent is missed: when a process, init or another,
      is asleep in wait and its lock is free, a child of it is a zombie only if
      the child woke another parent, and was given to this one afterwards. */
  lemma WaitersHaveNoDeadChild(run: seq<State>, cpus: seq<nat>, acts: seq<Action>, m: nat, p: nat, j: nat)
    requires IsRun(run, cpus, acts) && m < |run| && p < |run[m].st| && p < |run[m].chan|
    requires P(p) !in run[m].lock && run[m].st[p] == Sleeping && run[m].chan[p] == Some(OnProc(p))
    requires j < |run[m].parent| && j < |run[m].st| && run[m].parent[j] == Some(p)
    ensures j < |run[m].woke| && (run[m].st[j] == Zombie ==> run[m].woke[j] != Some(p))
  {
    RunInv(run, cpus, acts, m);
    var s := run[m];
    assert StateOk(s, p);
    if s.at[p].Some? {
      assert HoldsOn(s, s.at[p].value, P(p));
    }
    assert j < Checked(s, p);
  }

  /** A process is given to none but init, so no other process misses an exit. */
  lemma OnlyInitMisses(run: seq<State>, cpus: seq<nat>, acts: seq<Action>, m: nat, p: nat, j: nat)
    requires IsRun(run, cpus, acts) && m < |run| && p < |run[m].st| && p < |run[m].chan|
    requires P(p) !in run[m].lock && run[m].st[p] == Sleeping && run[m].chan[p] == Some(OnProc(p))
    requires j < |run[m].parent| && j < |run[m].st| && run[m].parent[j] == Some(p) && run[m].st[j] == Zombie
    ensures p == run[m].init
  {
    WaitersHaveNoDeadChild(run, cpus, acts, m, p, j);
    RunInv(run, cpus, acts, m);
    assert FamilyOk(run[m], j);
  }

  /** The parent of a process is alive: a zombie or a free slot has no children. */
  lemma ParentsAlive(run: seq<State>, cpus: seq<nat>, acts: seq<Action>, m: nat, j: nat, q: nat)
    requires IsRun(run, cpus, acts) && m < |run| && j < |run[m].parent| && run[m].parent[j] == Some(q)
    ensures q < |run[m].st| && Live(run[m].st[q])
  {
    RunInv(run, cpus, acts, m);
    assert FamilyOk(run[m], j);
  }

  /** sched's panics are unreachable: the process holds its own lock, the CPU
      no other, and the process is not running. */
  lemma SchedNeverPanics(run: seq<State>, cpus: seq<nat>, acts: seq<Action>, m: nat, c: nat, p: nat)
    requires IsRun(run, cpus, acts) && m < |run| && Executes(run[m], c, p) && Resume(run[m].pc[p]).Some?
    ensures forall l :: (l in run[m].lock && run[m].lock[l] == c) <==> l == P(p)
    ensures run[m].st[p] != Running
  {
    RunInv(run, cpus, acts, m);
    var s := run[m];
    IsRunning(s, c, p);
    ResumeState(s.pc[p], |s.st|);
    forall l ensures (l in s.lock && s.lock[l] == c) <==> l == P(p) {
      hide Holds, Resume;
      ResumeLocks(s.pc[p], p, s.init, l);
      assert HoldsOn(s, c, l) <==> l == P(p);
    }
  }

  lemma WantNotHeld(s: State, pc: Pc, p: nat)
    requires InRange(s, pc, p) && Want(s, pc, p).Some?
    ensures !Holds(pc, p, s.init, Want(s, pc, p).value.0)
  {
  }

  lemma ProcessLocks(s: State, c: nat, p: nat)
    requires Inv(s) && Executes(s, c, p)
    ensures Want(s, s.pc[p], p).Some? ==> !HoldsOn(s, c, Want(s, s.pc[p], p).value.0)
    ensures Drop(s, s.pc[p], p).Some? ==> HoldsOn(s, c, Drop(s, s.pc[p], p).value.0)
  {
    hide Inv, Holds, Want, Drop, InRange;
    RangeOf(s, p);
    if Want(s, s.pc[p], p).Some? { WantNotHeld(s, s.pc[p], p); }
    if Drop(s, s.pc[p], p).Some? { DropHolds(s, s.pc[p], p, Drop(s, s.pc[p], p).value.0); }
  }

  /** The spinlock that the code executing on CPU c, a process or the
      scheduler, acquires or releases next. */
  function Acquires(s: State, c: nat): Option<Lock>
    requires Sized(s) && c < |s.on|
  {
    match s.on[c]
    case Scheduler => if s.spc[c].SchedNext? then Some(P(s.spc[c].i)) else None
    case Process(p) => if p < |s.pc| && Want(s, s.pc[p], p).Some? then Some(Want(s, s.pc[p], p).value.0) else None
  }

  function Releases(s: State, c: nat): Option<Lock>
    requires Sized(s) && c < |s.on|
  {
    match s.on[c]
    case Scheduler => if s.spc[c].SchedDrop? then Some(P(s.spc[c].i)) else None
    case Process(p) => if p < |s.pc| && Drop(s, s.pc[p], p).Some? then Some(Drop(s, s.pc[p], p).value.0) else None
  }

  /** acquire's and release's panics are unreachable: no CPU acquires a lock
      it holds, or releases one it does not. */
  lemma SpinlocksNeverPanic(run: seq<State>, cpus: seq<nat>, acts: seq<Action>, m: nat, c: nat)
    requires IsRun(run, cpus, acts) && m < |run| && c < |run[m].on|
    ensures var s := run[m];
      && Sized(s)
      && (Acquires(s, c).Some? ==> !(Acquires(s, c).value in s.lock && s.lock[Acquires(s, c).value] == c))
      && (Releases(s, c).Some? ==> Releases(s, c).value in s.lock && s.lock[Releases(s, c).value] == c)
  {
    hide IsRun, Pcs, Place, States, Wakeups, Family, Waiting, Holds, Want, Drop, InRange;
    RunInv(run, cpus, acts, m);
    var s := run[m];
    if s.on[c].Process? && s.on[c].p < |s.st| { ProcessLocks(s, c, s.on[c].p); }
    if Acquires(s, c).Some? { assert !HoldsOn(s, c, Acquires(s, c).value); }
    if Releases(s, c).Some? { assert HoldsOn(s, c, Releases(s, c).value); }
  }
}
