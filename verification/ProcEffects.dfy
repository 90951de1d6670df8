/** The steps of the process protocol in which one process changes what others see. */
module ProcEffects {
  import opened Basics
  import opened ProcProtocol
  import opened ProcSafety
  import opened ProcActs

  // ----- sleep locks

  lemma HolderFrame(s: State, s': State)
    requires Inv(s) && s' == s.(holder := s'.holder) && |s'.holder| == |s.holder|
    ensures Pcs(s') && Locks(s') && Place(s') && States(s') && Family(s') && Waiting(s')
  {
    hide Pcs, Locks, Place, States, Wakeups, Family, Waiting;
    assert Sized(s') by { SizedOf(s); }
    PcsFrame(s, s');
    LocksFrame(s, s');
    PlaceSame(s, s');
    StatesFrame(s, s');
    FamilyFrame(s, s');
    WaitingFrame(s, s');
  }

  lemma SizedOf(s: State)
    requires Pcs(s)
    ensures Sized(s)
  {
  }

  lemma TakeKeeps(s: State, s': State, p: nat, k: nat)
    requires Inv(s) && k < |s.holder| && s' == s.(holder := s.holder[k := Some(p)])
    ensures Inv(s')
  {
    hide Pcs, Locks, Place, States, Wakeups, Family, Waiting;
    assert Sized(s') by { SizedOf(s); }
    HolderFrame(s, s');
    WakeupsFrame(s, s');
  }

  lemma TakenSteers(s: State, p: nat, k: nat)
    requires Sized(s) && p < |s.st| && s.pc[p] == LockTest(k)
    ensures Steers(s, p, LockDrop(k))
  {
  }

  /** acquiresleep takes a free lock. */
  lemma LockTakeKeeps(s: State, s': State, c: nat, p: nat, ok: bool, k: nat)
    requires Inv(s) && ActStep(s, s', c, p, ok) && s.pc[p] == LockTest(k) && k < |s.holder| && s.holder[k].None?
    ensures Inv(s')
  {
    var s1 := s.(holder := s.holder[k := Some(p)]);
    hide Inv, Steers;
    assert s' == Go(s1, p, LockDrop(k));
    hide Acted;
    TakeKeeps(s, s1, p, k);
    TakenSteers(s1, p, k);
    SteerKeeps(s1, s', c, p, LockDrop(k));
  }

  lemma ClearSteers(s: State, p: nat, k: nat)
    requires Sized(s) && p < |s.st| && s.pc[p] == UnlockClear(k) && InRange(s, s.pc[p], p)
    ensures Steers(s, p, WakeNext(k, 0))
  {
  }

  lemma ClearKeeps(s: State, s': State, c: nat, p: nat, k: nat)
    requires Inv(s) && Executes(s, c, p) && s.pc[p] == WakeNext(k, 0) && k < |s.holder|
      && s' == s.(holder := s.holder[k := None])
    ensures Inv(s')
  {
    HolderFrame(s, s');
    assert HoldsOn(s, c, L(k));
    assert L(k) in s.lock && s.lock[L(k)] == c;
    hide Pcs, Locks, Place, States, Family, Waiting, Commit, Holds;
    forall q | 0 <= q < |s'.st| ensures WakeOk(s', q) {
      assert WakeOk(s, q);
      assert Committed(s', q) == Committed(s, q);
      if Committed(s, q).Some? && Committed(s, q).value != k { hide Waker;
        assert ToBeWoken(s', Committed(s, q).value, q) == ToBeWoken(s, Committed(s, q).value, q); }
    }
  }

  /** releasesleep frees the lock and begins to wake. */
  lemma UnlockKeeps(s: State, s': State, c: nat, p: nat, ok: bool, k: nat)
    requires Inv(s) && ActStep(s, s', c, p, ok) && s.pc[p] == UnlockClear(k) && k < |s.holder|
    ensures Inv(s')
  {
    var s1 := Go(s, p, WakeNext(k, 0));
    hide Inv, Steers, InRange;
    assert s' == s1.(holder := s1.holder[k := None]);
    hide Acted;
    RangeOf(s, p);
    ClearSteers(s, p, k);
    SteerKeeps(s, s1, c, p, WakeNext(k, 0));
    ClearKeeps(s1, s', c, p, k);
  }

  // ----- waking another process

  /** A sleeping process whose lock someone else holds is off its CPU. */
  lemma SleeperOff(s: State, c: nat, p: nat, i: nat)
    requires Inv(s) && Executes(s, c, p) && Holds(s.pc[p], p, s.init, P(i)) && i < |s.st|
      && (s.st[i] == Sleeping || s.st[i] == Zombie)
    requires s.st[p] != s.st[i]
    ensures i != p && s.at[i].None?
  {
    assert StateOk(s, i);
    if s.at[i].Some? { HeldElsewhere(s, c, p, i); }
  }

  lemma RouseStates(s: State, s': State, i: nat)
    requires States(s) && i < |s.st| && s.st[i] == Sleeping && s.at[i].None?
      && s' == s.(st := s.st[i := Runnable], killed := s'.killed) && Sized(s')
    ensures States(s')
  {
    hide Expected;
    forall q | 0 <= q < |s'.st| ensures StateOk(s', q) && Entering(s', q) == Entering(s, q) { assert StateOk(s, q); }
  }

  lemma RouseRest(s: State, s': State, i: nat)
    requires Inv(s) && i < |s.st| && s.st[i] == Sleeping && s.at[i].None?
      && s' == s.(st := s.st[i := Runnable], killed := s'.killed) && Sized(s')
    ensures Wakeups(s') && Family(s') && Waiting(s')
  {
    hide Pcs, Locks, Place, States, Commit, Waker, Original, Chased, Cleared, Scanned;
    forall q | 0 <= q < |s'.st| ensures WakeOk(s', q) && FamilyOk(s', q) {
      assert WakeOk(s, q) && FamilyOk(s, q);
      if Committed(s, q).Some? { assert ToBeWoken(s', Committed(s, q).value, q) == ToBeWoken(s, Committed(s, q).value,
        q); }
    }
    forall q | 0 <= q < |s'.st| ensures Checked(s', q) <= Checked(s, q) {}
  }

  lemma RouseKeeps(s: State, s': State, i: nat)
    requires Inv(s) && i < |s.st| && s.st[i] == Sleeping && s.at[i].None?
      && s' == s.(st := s.st[i := Runnable], killed := s'.killed) && Sized(s')
    ensures Inv(s')
  {
    RouseStates(s, s', i);
    RouseRest(s, s', i);
    hide States, Wakeups, Family, Waiting, Holds;
    forall p | 0 <= p < |s'.pc| ensures InRange(s', s'.pc[p], p) { assert InRange(s, s.pc[p], p); }
    hide InRange;
    forall c, l ensures HoldsOn(s', c, l) == HoldsOn(s, c, l) {}
    forall c | 0 <= c < |s'.on| ensures CpuOk(s', c) { assert CpuOk(s, c); }
  }

  lemma KilledKeeps(s: State, s': State)
    requires Inv(s) && s' == s.(killed := s'.killed) && Sized(s')
    ensures Inv(s')
  {
    hide Pcs, Locks, Place, States, Wakeups, Family, Waiting;
    PcsFrame(s, s');
    LocksFrame(s, s');
    PlaceSame(s, s');
    StatesFrame(s, s');
    WakeupsFrame(s, s');
    FamilyFrame(s, s');
    WaitingFrame(s, s');
  }

  lemma WokenKeeps(s: State, c: nat, p: nat, i: nat, ch: Chan)
    requires Inv(s) && Executes(s, c, p) && Holds(s.pc[p], p, s.init, P(i)) && i < |s.st| && s.st[p] == Running
    ensures Inv(Woken(s, i, ch))
  {
    hide Inv, Holds;
    if s.st[i] == Sleeping && s.chan[i] == Some(ch) {
      SleeperOff(s, c, p, i);
      RouseKeeps(s, Woken(s, i, ch), i);
    }
  }

  lemma KillHitSteers(s: State, p: nat, t: nat, i: nat)
    requires Sized(s) && p < |s.st| && s.pc[p] == KillLook(t, i) && InRange(s, s.pc[p], p)
    ensures Steers(s, p, KillDrop(t, i, true))
  {
  }

  /** kill finds its target. */
  lemma KillHitKeeps(s: State, s': State, c: nat, p: nat, ok: bool, t: nat, i: nat)
    requires Inv(s) && ActStep(s, s', c, p, ok) && s.pc[p] == KillLook(t, i) && i < |s.st| && s.pid[i] == t
    ensures Inv(s')
  {
    var s1 := s.(killed := s.killed[i := true], st := if s.st[i] == Sleeping then s.st[i := Runnable] else s.st);
    assert s' == Go(s1, p, KillDrop(t, i, true));
    assert Holds(s.pc[p], p, s.init, P(i));
    IsRunning(s, c, p);
    assert s.st[p] == Running;
    hide Inv, Steers, Acted, InRange, Holds;
    if s.st[i] == Sleeping {
      SleeperOff(s, c, p, i);
      RouseKeeps(s, s1, i);
    } else {
      KilledKeeps(s, s1);
    }
    RangeOf(s1, p);
    KillHitSteers(s1, p, t, i);
    SteerKeeps(s1, s', c, p, KillDrop(t, i, true));
  }

  lemma NudgeSteers(s: State, p: nat)
    requires Sized(s) && p < |s.st| && s.pc[p] == ExitNudge && InRange(s, s.pc[p], p)
    ensures Steers(s, p, ExitInitDrop)
  {
  }

  /** exit wakes init. */
  lemma ExitNudgeKeeps(s: State, s': State, c: nat, p: nat, ok: bool)
    requires Inv(s) && ActStep(s, s', c, p, ok) && s.pc[p] == ExitNudge
    ensures Inv(s')
  {
    var s1 := Woken(s, s.init, OnProc(s.init));
    assert s' == Go(s1, p, ExitInitDrop);
    assert Holds(s.pc[p], p, s.init, P(s.init));
    IsRunning(s, c, p);
    assert s.st[p] == Running;
    hide Inv, Steers, Acted, InRange, Holds;
    WokenKeeps(s, c, p, s.init, OnProc(s.init));
    RangeOf(s1, p);
    NudgeSteers(s1, p);
    SteerKeeps(s1, s', c, p, ExitInitDrop);
  }

  lemma CommitHolds(pc: Pc, i: nat, init: nat, k: nat)
    ensures Commit(pc) == Some(k) ==> Holds(pc, i, init, L(k)) || Holds(pc, i, init, P(i))
  {
  }

  lemma NotCommitting(s: State, c: nat, p: nat, k: nat, i: nat)
    requires Locks(s) && Place(s) && Executes(s, c, p) && Holds(s.pc[p], p, s.init, L(k))
      && Holds(s.pc[p], p, s.init, P(i)) && i < |s.st| && i != p && s.at[i].Some?
    ensures Commit(s.pc[i]) != Some(k)
  {
    var d := s.at[i].value;
    assert s.on[d] == Process(i) && d != c;
    assert HoldsOn(s, c, L(k)) && HoldsOn(s, c, P(i));
    forall l | Holds(s.pc[i], i, s.init, l) ensures l != L(k) && l != P(i) { assert HoldsOn(s, d, l); }
    CommitHolds(s.pc[i], i, s.init, k);
  }

  /** Once the scan has looked at process i, it is not about to sleep on the lock. */
  lemma LookedAt(s: State, c: nat, p: nat, k: nat, i: nat)
    requires Inv(s) && Executes(s, c, p) && s.pc[p] == WakeLook(k, i) && i < |s.st|
    requires s.st[i] == Sleeping ==> s.chan[i] != Some(OnLock(k))
    ensures Committed(s, i) != Some(k)
  {
    assert StateOk(s, i);
    if s.at[i].Some? && i != p { NotCommitting(s, c, p, k, i); }
  }

  lemma WakeSteers(s: State, p: nat, k: nat, i: nat)
    requires Sized(s) && p < |s.st| && s.pc[p] == WakeLook(k, i) && InRange(s, s.pc[p], p) && i < |s.st|
      && Committed(s, i) != Some(k)
    ensures Steers(s, p, WakeDrop(k, i))
  {
    hide Committed;
  }

  /** The body of wakeup's loop. */
  lemma WakeLookKeeps(s: State, s': State, c: nat, p: nat, ok: bool, k: nat, i: nat)
    requires Inv(s) && ActStep(s, s', c, p, ok) && s.pc[p] == WakeLook(k, i) && i < |s.st|
    ensures Inv(s')
  {
    var s1 := Woken(s, i, OnLock(k));
    assert s' == Go(s1, p, WakeDrop(k, i));
    assert Holds(s.pc[p], p, s.init, P(i));
    IsRunning(s, c, p);
    assert s.st[p] == Running;
    hide Inv, Steers, Acted, InRange, Holds, Committed;
    WokenKeeps(s, c, p, i, OnLock(k));
    RangeOf(s1, p);
    LookedAt(s1, c, p, k, i);
    WakeSteers(s1, p, k, i);
    SteerKeeps(s1, s', c, p, WakeDrop(k, i));
  }

  // ----- fork

  lemma UnusedOff(s: State, i: nat)
    requires Inv(s) && i < |s.st| && s.st[i] == Unused
    ensures s.at[i].None? && s.pc[i] == Dead && i != s.init && s.parent[i].None? && s.nextpid > 0
    ensures forall j :: 0 <= j < |s.st| ==> s.parent[j] != Some(i)
  {
    hide Pcs, Locks, Place, Wakeups, Waiting, Original, Chased, Cleared;
    assert StateOk(s, i) && FamilyOk(s, i);
    forall j | 0 <= j < |s.st| ensures s.parent[j] != Some(i) { assert FamilyOk(s, j); }
  }

  lemma BornStates(s: State, s': State, i: nat, p: nat)
    requires States(s) && i < |s.st| && s.st[i] == Unused && s.at[i].None? && s' == Born(s, i, p)
    ensures States(s')
  {
    hide Expected;
    forall q | 0 <= q < |s'.st| ensures StateOk(s', q) && Entering(s', q) == Entering(s, q) { assert StateOk(s, q); }
  }

  lemma BornCleared(i: nat, n: nat)
    ensures Original(Resumed(InUser)).None? && Chased(Resumed(InUser)).None? && Cleared(Resumed(InUser), n) == 0
    ensures Original(ForkLook(i)).None? && Chased(ForkLook(i)).None?
  {
  }

  lemma BornFamily(s: State, s': State, i: nat, p: nat)
    requires Family(s) && i < |s.st| && p < |s.st| && i != p && s.st[i] == Unused && s' == Born(s, i, p)
      && Live(s.st[p]) && i != s.init
    requires s.pc[p] == ForkLook(i) && s.parent[i].None? && forall j :: 0 <= j < |s.st| ==> s.parent[j] != Some(i)
    requires Cleared(s.pc[p], |s.st|) == 0
    ensures Family(s')
  {
    hide Original, Chased, Cleared;
    BornCleared(i, |s.st|);
    forall j | 0 <= j < |s'.st| ensures FamilyOk(s', j) {
      assert FamilyOk(s, j) && FamilyOk(s, p);
    }
    forall q, j | 0 <= q < |s'.st| && 0 <= j < |s'.st| && j < Cleared(s'.pc[q], |s'.st|)
      ensures s'.parent[j] != Some(q) {
      if q != i { assert j < Cleared(s.pc[q], |s.st|) && s.parent[j] != Some(q); }
    }
  }

  lemma BornRest(s: State, s': State, c: nat, i: nat, p: nat)
    requires Inv(s) && Executes(s, c, p) && i < |s.st| && i != p && s.st[i] == Unused && s.at[i].None?
      && s' == Born(s, i, p) && s.pc[p] == ForkLook(i)
    requires s.parent[i].None?
    ensures Pcs(s') && Locks(s') && Place(s') && Wakeups(s') && Waiting(s')
  {
    SameCpu(s, c, p);
    forall q | 0 <= q < |s'.pc| ensures InRange(s', s'.pc[q], q) { assert InRange(s, s.pc[q], q); }
    hide InRange, States, Family, Expected;
    forall d: nat, l ensures HoldsOn(s', d, l) == HoldsOn(s, d, l) {
      if d < |s.on| && s.on[d].Process? {
        assert CpuOk(s, d);
        assert s.on[d].p != i;
      }
    }
    forall d | 0 <= d < |s'.on| ensures CpuOk(s', d) { assert CpuOk(s, d); }
    hide Holds;
    forall q | 0 <= q < |s'.st| ensures WakeOk(s', q) { BornWakes(s, s', i, p, q); }
    hide Locks, Place, Commit, Waker;
    forall q | 0 <= q < |s'.st| ensures Checked(s', q) <= Checked(s, q) {}
    assert Checked(s', p) == 0;
  }

  lemma BornWakes(s: State, s': State, i: nat, p: nat, q: nat)
    requires Wakeups(s) && Place(s) && i < |s.st| && s.st[i] == Unused && s.at[i].None? && s' == Born(s, i, p)
      && q < |s.st|
    ensures WakeOk(s', q)
  {
    assert WakeOk(s, q);
    hide Commit, Waker;
    assert q != i ==> Committed(s', q) == Committed(s, q);
    if Committed(s, q).Some? && ToBeWoken(s, Committed(s, q).value, q) {
      var d := s.lock[L(Committed(s, q).value)];
      assert CpuOk(s, d);
      assert s.on[d].p != i;
    }
  }

  lemma BornKeeps(s: State, s': State, c: nat, p: nat, i: nat)
    requires Inv(s) && Executes(s, c, p) && s.pc[p] == ForkLook(i) && i < |s.st| && s.st[i] == Unused
      && s' == Born(s, i, p)
    ensures Inv(s')
  {
    IsRunning(s, c, p);
    UnusedOff(s, i);
    BornRest(s, s', c, i, p);
    BornStates(s, s', i, p);
    BornFamily(s, s', i, p);
  }

  lemma ForkedSteers(s: State, p: nat, i: nat)
    requires Sized(s) && p < |s.st| && s.pc[p] == ForkLook(i) && InRange(s, s.pc[p], p)
    ensures Steers(s, p, ForkDrop(i, true))
  {
  }

  /** fork sets up a child. */
  lemma ForkKeeps(s: State, s': State, c: nat, p: nat, i: nat)
    requires Inv(s) && ActStep(s, s', c, p, true) && s.pc[p] == ForkLook(i) && i < |s.st| && s.st[i] == Unused
    ensures Inv(s')
  {
    var s1 := Born(s, i, p);
    assert s' == Go(s1, p, ForkDrop(i, true));
    IsRunning(s, c, p);
    assert i != p;
    hide Inv, Steers, Acted, InRange;
    BornKeeps(s, s1, c, p, i);
    RangeOf(s1, p);
    ForkedSteers(s1, p, i);
    SteerKeeps(s1, s', c, p, ForkDrop(i, true));
  }

  // ----- freeproc

  /** Freeing a slot that runs nowhere and has no children keeps everything. */
  lemma FreeStates(s: State, s': State, i: nat, next: nat)
    requires States(s) && i < |s.st| && (s.st[i] == Unused || s.st[i] == Zombie) && s.at[i].None?
      && s' == Freed(s, i).(nextpid := next)
    ensures States(s')
  {
    hide Expected;
    forall q | 0 <= q < |s'.st| ensures StateOk(s', q) && Entering(s', q) == Entering(s, q) { assert StateOk(s, q); }
  }

  lemma FreeFamily(s: State, s': State, i: nat, next: nat)
    requires Family(s) && i < |s.st| && (s.st[i] == Unused || s.st[i] == Zombie)
      && s' == Freed(s, i).(nextpid := next) && next >= s.nextpid
    requires forall j :: 0 <= j < |s.st| ==> s.parent[j] != Some(i) && Chased(s.pc[j]) != Some(i)
    requires Original(s.pc[i]).None?
    ensures Family(s')
  {
    hide Original, Chased, Cleared;
    forall j | 0 <= j < |s'.st| ensures FamilyOk(s', j) { assert FamilyOk(s, j) && FamilyOk(s, i); }
  }

  lemma FreeRest(s: State, s': State, i: nat, next: nat)
    requires Inv(s) && i < |s.st| && (s.st[i] == Unused || s.st[i] == Zombie) && s.at[i].None?
      && s' == Freed(s, i).(nextpid := next)
    ensures Pcs(s') && Locks(s') && Place(s') && Wakeups(s') && Waiting(s')
  {
    forall q | 0 <= q < |s'.pc| ensures InRange(s', s'.pc[q], q) { assert InRange(s, s.pc[q], q); }
    hide InRange, States, Family, Holds, Commit, Waker, Scanned;
    forall d, l ensures HoldsOn(s', d, l) == HoldsOn(s, d, l) {}
    forall d | 0 <= d < |s'.on| ensures CpuOk(s', d) { assert CpuOk(s, d); }
    forall q | 0 <= q < |s'.st| ensures WakeOk(s', q) && Checked(s', q) == Checked(s, q) {
      assert WakeOk(s, q);
      assert Committed(s', q) == Committed(s, q);
      if Committed(s, q).Some? { assert ToBeWoken(s', Committed(s, q).value, q) == ToBeWoken(s, Committed(s, q).value,
        q); }
    }
  }

  lemma FreeKeeps(s: State, s': State, i: nat, next: nat)
    requires Inv(s) && i < |s.st| && (s.st[i] == Unused || s.st[i] == Zombie) && s.at[i].None?
      && s' == Freed(s, i).(nextpid := next) && next >= s.nextpid
    requires forall j :: 0 <= j < |s.st| ==> Chased(s.pc[j]) != Some(i)
    ensures Inv(s')
  {
    FreeRest(s, s', i, next);
    FreeStates(s, s', i, next);
    assert s.pc[i] == Dead by { assert StateOk(s, i); }
    forall j | 0 <= j < |s.st| ensures s.parent[j] != Some(i) { assert FamilyOk(s, j); }
    FreeFamily(s, s', i, next);
  }

  /** Only the parent chases a slot. */
  lemma ChasedByParent(s: State, i: nat, j: nat)
    requires Inv(s) && i < |s.st| && j < |s.st| && Chased(s.pc[j]) == Some(i)
    ensures s.parent[i] == Some(j)
  {
    hide Chased, Original;
    assert FamilyOk(s, j);
  }

  /** fork gives up after allocproc's own failure. */
  lemma ForkFailKeeps(s: State, s': State, c: nat, p: nat, i: nat)
    requires Inv(s) && ActStep(s, s', c, p, false) && s.pc[p] == ForkLook(i) && i < |s.st| && s.st[i] == Unused
    ensures Inv(s')
  {
    var s1 := Freed(s, i).(nextpid := s.nextpid + 1);
    hide Inv, Steers, InRange, Chased;
    assert s' == Go(s1, p, ForkDrop(i, true));
    hide Acted;
    UnusedOff(s, i);
    forall j | 0 <= j < |s.st|
      ensures Chased(s.pc[j]) != Some(i) { if Chased(s.pc[j]) == Some(i) { ChasedByParent(s, i, j); } }
    FreeKeeps(s, s1, i, s.nextpid + 1);
    RangeOf(s1, p);
    ForkedSteers(s1, p, i);
    SteerKeeps(s1, s', c, p, ForkDrop(i, true));
  }

  /** wait frees a dead child, which no CPU executes or is about to leave. */
  lemma ReapOff(s: State, c: nat, p: nat, i: nat)
    requires Inv(s) && Executes(s, c, p) && s.pc[p] == WaitLook(i) && i < |s.st| && s.st[i] == Zombie
    ensures s.at[i].None? && forall d :: 0 <= d < |s.on| ==> s.on[d] != Process(i) && s.cproc[d] != Some(i)
  {
    IsRunning(s, c, p);
    assert Holds(s.pc[p], p, s.init, P(i));
    SleeperOff(s, c, p, i);
    assert HoldsOn(s, c, P(i));
    forall d | 0 <= d < |s.on| ensures s.on[d] != Process(i) && s.cproc[d] != Some(i) {
      assert CpuOk(s, d);
      if s.cproc[d] == Some(i) && s.on[d] == Scheduler { assert HoldsOn(s, d, P(i)); }
    }
  }

  lemma ReapKeeps(s: State, s': State, c: nat, p: nat, i: nat)
    requires Inv(s) && ActStep(s, s', c, p, true) && s.pc[p] == WaitLook(i) && i < |s.st| && s.st[i] == Zombie
    ensures Inv(s')
  {
    RangeOf(s, p);
    assert i != p;
    var s1 := Go(s, p, WaitReap(i));
    assert s' == Freed(s1, i).(nextpid := s1.nextpid);
    assert Chased(s.pc[p]) == Some(i);
    assert Chased(s1.pc[p]).None?;
    hide Inv, Steers, Acted, InRange, Chased;
    ReapOff(s, c, p, i);
    WaitCannotCopy(s, p, i);
    SteerKeeps(s, s1, c, p, WaitReap(i));
    ChasedByParent(s, i, p);
    forall j | 0 <= j < |s1.st| ensures Chased(s1.pc[j]) != Some(i) {
      if Chased(s1.pc[j]) == Some(i) { ChasedByParent(s1, i, j); }
    }
    FreeKeeps(s1, s', i, s1.nextpid);
  }

  // ----- exit

  lemma ClearedExits(pc: Pc, n: nat)
    ensures Cleared(pc, n) > 0 ==> Exits(pc) || pc == Dead
  {
  }

  /** init never clears its children. */
  lemma InitStays(s: State)
    requires Inv(s)
    ensures Cleared(s.pc[s.init], |s.st|) == 0
  {
    assert StateOk(s, s.init) && InRange(s, s.pc[s.init], s.init);
    ClearedExits(s.pc[s.init], |s.st|);
  }

  lemma OriginalExits(s: State, j: nat)
    requires Inv(s) && j < |s.st|
    ensures Original(s.pc[j]).Some? ==> j != s.init
  {
    assert InRange(s, s.pc[j], j);
  }

  lemma AdoptPcs(op: nat, i: nat)
    ensures Original(ReparentSet(op, i)) == Some(op) && Original(ReparentDrop(op, i)) == Some(op)
    ensures Chased(ReparentSet(op, i)) == Some(i) && Chased(ReparentDrop(op, i)).None?
  {
  }

  lemma AdoptOne(s: State, s': State, p: nat, op: nat, i: nat, j: nat)
    requires Family(s) && p < |s.st| && s.pc[p] == ReparentSet(op, i) && i < |s.st| && i != p && p != s.init
      && j < |s.st|
    requires s' == Go(s.(parent := s.parent[i := Some(s.init)]), p, ReparentDrop(op, i))
    requires Original(s.pc[j]).Some? ==> j != s.init
    ensures FamilyOk(s', j)
  {
    hide Original, Chased, Cleared;
    AdoptPcs(op, i);
    assert FamilyOk(s, j) && FamilyOk(s, p) && FamilyOk(s, i);
  }

  lemma AdoptFamily(s: State, s': State, p: nat, op: nat, i: nat)
    requires Inv(s) && p < |s.st| && s.pc[p] == ReparentSet(op, i) && i < |s.st| && i != p && p != s.init
    requires s' == Go(s.(parent := s.parent[i := Some(s.init)]), p, ReparentDrop(op, i))
    ensures Family(s')
  {
    hide Pcs, Locks, Place, States, Wakeups, Waiting, Original, Chased;
    InitStays(s);
    forall j | 0 <= j < |s'.st| ensures FamilyOk(s', j) {
      OriginalExits(s, j);
      AdoptOne(s, s', p, op, i, j);
    }
    assert Cleared(s'.pc[p], |s.st|) == i + 1 && Cleared(s.pc[p], |s.st|) == i;
    hide Cleared, FamilyOk;
    forall q, j | 0 <= q < |s'.st| && 0 <= j < |s'.st| && j < Cleared(s'.pc[q], |s'.st|)
      ensures s'.parent[j] != Some(q) {
      if j != i { assert s.parent[j] != Some(q); }
    }
  }

  lemma ParentFrame(s: State, s': State, i: nat)
    requires Inv(s) && i < |s.st| && s' == s.(parent := s.parent[i := Some(s.init)]) && s.parent[i].Some?
      && s.parent[i] != Some(s.init)
    ensures Pcs(s') && Locks(s') && Place(s') && States(s') && Wakeups(s') && Waiting(s')
  {
    hide Holds, Expected, Commit, Waker, Scanned, Cleared, Original, Chased;
    forall p | 0 <= p < |s'.pc| ensures InRange(s', s'.pc[p], p) { assert InRange(s, s.pc[p], p); }
    hide InRange;
    assert FamilyOk(s, i);
    forall c, l ensures HoldsOn(s', c, l) == HoldsOn(s, c, l) {}
    forall c | 0 <= c < |s'.on| ensures CpuOk(s', c) { assert CpuOk(s, c); }
    forall p | 0 <= p < |s'.st| ensures StateOk(s', p) && WakeOk(s', p) && Checked(s', p) == Checked(s, p) {
      assert StateOk(s, p) && WakeOk(s, p);
      assert Entering(s', p) == Entering(s, p) && Committed(s', p) == Committed(s, p);
      if Committed(s, p).Some? { assert ToBeWoken(s', Committed(s, p).value, p) == ToBeWoken(s, Committed(s, p).value,
        p); }
    }
  }

  lemma AdoptFollows(s: State, p: nat, op: nat, i: nat)
    requires Sized(s) && p < |s.st| && s.pc[p] == ReparentSet(op, i) && InRange(s, s.pc[p], p) && s.parent[i] != Some(p)
    ensures Follows(s, p, ReparentDrop(op, i))
  {
    hide InRange, PassesOver;
    AdoptRange(s, p, op, i);
  }

  lemma AdoptRange(s: State, p: nat, op: nat, i: nat)
    requires InRange(s, ReparentSet(op, i), p)
    ensures InRange(s, ReparentDrop(op, i), p) && i < |s.st|
  {
  }

  lemma AdoptSteers(s: State, p: nat, op: nat, i: nat)
    requires Sized(s) && p < |s.st| && s.pc[p] == ReparentSet(op, i) && InRange(s, s.pc[p], p) && s.parent[i] != Some(p)
    ensures Steers(s, p, ReparentDrop(op, i))
  {
    hide Follows, InRange;
    AdoptFollows(s, p, op, i);
  }

  /** reparent hands a child to init. */
  lemma AdoptKeeps(s: State, s': State, c: nat, p: nat, ok: bool, op: nat, i: nat)
    requires Inv(s) && ActStep(s, s', c, p, ok) && s.pc[p] == ReparentSet(op, i)
    ensures Inv(s')
  {
    assert i < |s.st| && s' == Go(s.(parent := s.parent[i := Some(s.init)]), p, ReparentDrop(op, i));
    hide Inv, Acted;
    RangeOf(s, p);
    AdoptMove(s, s', c, p, op, i);
  }

  lemma AdoptMove(s: State, s': State, c: nat, p: nat, op: nat, i: nat)
    requires Inv(s) && Executes(s, c, p) && s.pc[p] == ReparentSet(op, i) && i < |s.st| && i != p && p != s.init
    requires s' == Go(s.(parent := s.parent[i := Some(s.init)]), p, ReparentDrop(op, i))
    ensures Inv(s')
  {
    hide Pcs, States, Wakeups, Family, Waiting, Follows, LockShift, Place, Locks, Holds, InRange;
    var pc := ReparentDrop(op, i);
    var s1 := s.(parent := s.parent[i := Some(s.init)]);
    AdoptFamily(s, s', p, op, i);
    AdoptPcs(op, i);
    ChasedByParent(s, i, p);
    ParentFrame(s, s1, i);
    PcsAt(s1, p);
    AdoptSteers(s1, p, op, i);
    SameLocks(s1, c, p, pc);
    FollowsRange(s1, p, pc);
    PcsGo(s1, s', p, pc);
    PlaceSame(s1, s');
    LocksMove(s1, s', c, p, pc);
    ShiftSched(s1, s', c, p, pc);
    MoveStates(s1, s', c, p, pc);
    MoveWakeups(s1, s', c, p, pc);
    MoveWaiting(s1, s', c, p, pc);
  }

  lemma PcsAt(s: State, p: nat)
    requires Pcs(s) && p < |s.pc|
    ensures InRange(s, s.pc[p], p)
  {
    hide InRange;
  }

  lemma FollowsRange(s: State, p: nat, pc: Pc)
    requires Sized(s) && p < |s.st| && Follows(s, p, pc)
    ensures InRange(s, pc, p)
  {
    hide InRange;
  }

  /** A process about to die has no children, and its parent does not believe
      to have seen all children alive. */
  lemma DeathOk(s: State, c: nat, p: nat, op: nat)
    requires Inv(s) && Executes(s, c, p) && s.pc[p] == ExitDead(op)
    requires s.st[op] == Sleeping ==> s.chan[op] != Some(OnProc(op))
    ensures p != s.init && op < |s.st| && op != p && Checked(s, op) == 0
    ensures s.parent[p] == Some(op) || s.parent[p] == Some(s.init)
    ensures forall j :: 0 <= j < |s.st| ==> s.parent[j] != Some(p)
  {
    RangeOf(s, p);
    assert FamilyOk(s, p);
    assert StateOk(s, op);
    assert Cleared(s.pc[p], |s.st|) == |s.st|;
    if s.at[op].Some? {
      HeldElsewhere(s, c, p, op);
      ScanHolds(s.pc[op], op, s.init, |s.st|);
    }
  }

  lemma ScanHolds(pc: Pc, p: nat, init: nat, n: nat)
    ensures Scanned(pc, n) > 0 ==> Holds(pc, p, init, P(p))
  {
  }

  predicate Dies(s: State, s': State, c: nat, p: nat, op: nat) {
    && Executes(s, c, p) && s.pc[p] == ExitDead(op) && s.woke[p] == Some(op)
    && s' == Go(s.(st := s.st[p := Zombie]), p, ExitDrop(op))
  }

  lemma DieFamily(s: State, s': State, c: nat, p: nat, op: nat)
    requires Family(s) && Dies(s, s', c, p, op) && p != s.init && forall j :: 0 <= j < |s.st| ==> s.parent[j] != Some(p)
    ensures Family(s')
  {
    assert Original(s'.pc[p]) == Original(s.pc[p]) && Chased(s'.pc[p]) == Chased(s.pc[p])
      && Cleared(s'.pc[p], |s.st|) == Cleared(s.pc[p], |s.st|);
    hide Original, Chased, Cleared;
    forall j | 0 <= j < |s'.st| ensures FamilyOk(s', j) { assert FamilyOk(s, j); }
  }

  lemma DieWaiting(s: State, s': State, c: nat, p: nat, op: nat)
    requires Waiting(s) && Place(s) && Dies(s, s', c, p, op) && op < |s.st| && op != p && Checked(s, op) == 0
    requires s.parent[p] == Some(op) || s.parent[p] == Some(s.init)
    ensures Waiting(s')
  {
    SameCpu(s, c, p);
    assert Scanned(s'.pc[p], |s.st|) == 0;
    hide Scanned, Place;
    forall q, j | 0 <= q < |s'.st| && 0 <= j < |s'.st| && j < Checked(s', q) && s'.parent[j] == Some(q)
      ensures s'.st[j] != Zombie || s'.woke[j] != Some(q)
    {
      assert Checked(s', q) == Checked(s, q);
    }
  }

  lemma DieShape(s: State, p: nat, op: nat)
    requires Sized(s) && p < |s.st| && s.pc[p] == ExitDead(op) && InRange(s, s.pc[p], p)
    ensures QuietSleep(s.pc[p], ExitDrop(op), |s.st|) && InRange(s, ExitDrop(op), p)
    ensures forall l :: Holds(ExitDrop(op), p, s.init, l) == Holds(s.pc[p], p, s.init, l)
  {
  }

  lemma DieKeeps(s: State, s': State, c: nat, p: nat, op: nat)
    requires Inv(s) && Dies(s, s', c, p, op)
    requires s.st[op] == Sleeping ==> s.chan[op] != Some(OnProc(op))
    ensures Inv(s')
  {
    hide Holds, InRange;
    var pc := ExitDrop(op);
    assert Expected(pc) == Zombie;
    assert s' == Go(s.(st := s.st[p := Zombie], chan := s.chan[p := s.chan[p]]), p, pc);
    hide Expected, Pcs, States, Wakeups, Family, Waiting, LockShift, Place, Locks, Holds, QuietSleep, InRange;
    RangeOf(s, p);
    DeathOk(s, c, p, op);
    DieShape(s, p, op);
    SameLocks(s, c, p, pc);
    PcsGo(s, s', p, pc);
    PlaceSame(s, s');
    LocksMove(s, s', c, p, pc);
    SelfStates(s, s', c, p, pc, Zombie, s.chan[p]);
    SelfWakeups(s, s', c, p, pc, Zombie, s.chan[p]);
    DieFamily(s, s', c, p, op);
    DieWaiting(s, s', c, p, op);
  }

  /** exit wakes its parent and becomes a zombie. */
  lemma ExitDeadKeeps(s: State, s': State, c: nat, p: nat, ok: bool, op: nat)
    requires Inv(s) && ActStep(s, s', c, p, ok) && s.pc[p] == ExitDead(op)
    ensures Inv(s')
  {
    var s1 := Woken(s, op, OnProc(op));
    var s2 := s1.(woke := s1.woke[p := Some(op)]);
    assert Dies(s2, s', c, p, op);
    assert Holds(s.pc[p], p, s.init, P(op));
    IsRunning(s, c, p);
    assert s.st[p] == Running;
    hide Inv, Acted, Holds;
    WokenKeeps(s, c, p, op, OnProc(op));
    HistoryKeeps(s1, s2, p, op);
    DieKeeps(s2, s', c, p, op);
  }

  /** Whom the last exit woke matters for zombies only. */
  lemma HistoryKeeps(s: State, s': State, p: nat, op: nat)
    requires Inv(s) && p < |s.st| && s.st[p] != Zombie && s' == s.(woke := s.woke[p := Some(op)])
    ensures Inv(s')
  {
    hide Holds, Expected, Commit, Waker, Scanned, Cleared, Original, Chased;
    forall q | 0 <= q < |s'.pc| ensures InRange(s', s'.pc[q], q) { assert InRange(s, s.pc[q], q); }
    hide InRange;
    forall c, l ensures HoldsOn(s', c, l) == HoldsOn(s, c, l) {}
    forall c | 0 <= c < |s'.on| ensures CpuOk(s', c) { assert CpuOk(s, c); }
    forall q | 0 <= q < |s'.st|
      ensures StateOk(s', q) && WakeOk(s', q) && FamilyOk(s', q) && Checked(s', q) == Checked(s, q) {
      assert StateOk(s, q) && WakeOk(s, q) && FamilyOk(s, q);
      assert Entering(s', q) == Entering(s, q) && Committed(s', q) == Committed(s, q);
      if Committed(s, q).Some? { assert ToBeWoken(s', Committed(s, q).value, q) == ToBeWoken(s, Committed(s, q).value,
        q); }
    }
  }
}
