/** What every step of the process protocol keeps. */
module ProcSafety {
  import opened Basics
  import opened ProcProtocol

  // ----- what a program counter means

  /** The spinlocks process p holds while it executes at pc. */
  predicate Holds(pc: Pc, p: nat, init: nat, l: Lock) {
    match pc
    case YieldSet(_) => l == P(p)
    case YieldSwitch(_) => l == P(p)
    case Resumed(_) => l == P(p)
    case LockTest(k) => l == L(k)
    case LockDrop(k) => l == L(k)
    case SleepWant(k) => l == L(k)
    case SleepDrop(k) => l == L(k) || l == P(p)
    case SleepSet(_) => l == P(p)
    case SleepSwitch(_) => l == P(p)
    case SleepResume(_) => l == P(p)
    case SleepLeave(_) => l == P(p)
    case UnlockClear(k) => l == L(k)
    case WakeNext(k, _) => l == L(k)
    case WakeLook(k, i) => l == L(k) || l == P(i)
    case WakeDrop(k, i) => l == L(k) || l == P(i)
    case KillLook(_, i) => l == P(i)
    case KillDrop(_, i, _) => l == P(i)
    case ForkLook(i) => l == P(i)
    case ForkDrop(i, _) => l == P(i)
    case WaitScan(_, _) => l == P(p)
    case WaitChild(_) => l == P(p)
    case WaitLook(i) => l == P(p) || l == P(i)
    case WaitReap(i) => l == P(p) || l == P(i)
    case WaitPass(i) => l == P(p) || l == P(i)
    case WaitDrop | WaitSet | WaitSwitch | WaitResume => l == P(p)
    case ExitNudge | ExitInitDrop => l == P(init)
    case ExitCopy => l == P(p)
    case ExitCopyDrop(_) => l == P(p)
    case ExitSelf(op) => l == P(op)
    case Reparent(op, _) => l == P(op) || l == P(p)
    case ReparentWant(op, _) => l == P(op) || l == P(p)
    case ReparentSet(op, i) => l == P(op) || l == P(p) || l == P(i)
    case ReparentDrop(op, i) => l == P(op) || l == P(p) || l == P(i)
    case ExitDead(op) => l == P(op) || l == P(p)
    case ExitDrop(op) => l == P(op) || l == P(p)
    case ExitSwitch => l == P(p)
    case _ => false
  }

  predicate SchedHolds(pc: SchedPc, l: Lock) { !pc.SchedNext? && l == P(pc.i) }

  /** The state an executing process is in. */
  function Expected(pc: Pc): ProcState {
    match pc
    case YieldSwitch(_) => Runnable
    case SleepSwitch(_) => Sleeping
    case WaitSwitch => Sleeping
    case ExitDrop(_) => Zombie
    case ExitSwitch => Zombie
    case _ => Running
  }

  predicate Resumable(pc: Pc) { pc.Resumed? || pc.SleepResume? || pc.WaitResume? }

  /** The sleep lock a process has found taken and is going to sleep on. */
  function Commit(pc: Pc): Option<nat> {
    match pc
    case SleepWant(k) => Some(k)
    case SleepDrop(k) => Some(k)
    case SleepSet(k) => Some(k)
    case SleepSwitch(k) => Some(k)
    case _ => None
  }

  /** The sleep lock whose sleepers are being woken, and the next one to look at. */
  function Waker(pc: Pc): Option<(nat, nat)> {
    match pc
    case WakeNext(k, i) => Some((k, i))
    case WakeLook(k, i) => Some((k, i))
    case WakeDrop(k, i) => Some((k, i + 1))
    case _ => None
  }

  /** How many processes wait has found not to be dead children. */
  function Scanned(pc: Pc, n: nat): nat {
    match pc
    case WaitScan(i, _) => i
    case WaitChild(i) => i
    case WaitLook(i) => i
    case WaitPass(i) => i + 1
    case WaitSet | WaitSwitch => n
    case _ => 0
  }

  /** How many processes reparent has found or made not to be children. */
  function Cleared(pc: Pc, n: nat): nat {
    match pc
    case Reparent(_, i) => i
    case ReparentWant(_, i) => i
    case ReparentSet(_, i) => i
    case ReparentDrop(_, i) => i + 1
    case ExitDead(_) => n
    case ExitDrop(_) => n
    case ExitSwitch => n
    case Dead => n
    case _ => 0
  }

  /** Where a process that is yielding will go on. */
  function Away(pc: Pc): Option<Spot> {
    match pc
    case Yielding(spot) => Some(spot)
    case YieldSet(spot) => Some(spot)
    case YieldSwitch(spot) => Some(spot)
    case Resumed(spot) => Some(spot)
    case _ => None
  }

  function SpotParent(spot: Spot): Option<nat> { if spot.AtExitParent? then Some(spot.op) else None }

  /** exit's copy of the parent pointer. */
  function Original(pc: Pc): Option<nat> {
    match pc
    case Yielding(spot) => SpotParent(spot)
    case YieldSet(spot) => SpotParent(spot)
    case YieldSwitch(spot) => SpotParent(spot)
    case Resumed(spot) => SpotParent(spot)
    case ExitCopyDrop(op) => Some(op)
    case ExitParent(op) => Some(op)
    case ExitSelf(op) => Some(op)
    case Reparent(op, _) => Some(op)
    case ReparentWant(op, _) => Some(op)
    case ReparentSet(op, _) => Some(op)
    case ReparentDrop(op, _) => Some(op)
    case ExitDead(op) => Some(op)
    case ExitDrop(op) => Some(op)
    case _ => None
  }

  /** The process whose parent pointer was read without its lock. */
  function Chased(pc: Pc): Option<nat> {
    match pc
    case WaitChild(i) => Some(i)
    case WaitLook(i) => Some(i)
    case ReparentWant(_, i) => Some(i)
    case ReparentSet(_, i) => Some(i)
    case _ => None
  }

  predicate Exits(pc: Pc) {
    || Original(pc).Some? || pc.ExitInit? || pc.ExitNudge? || pc.ExitInitDrop? || pc.ExitRead? || pc.ExitCopy?
      || pc.ExitSwitch?
    || Away(pc) == Some(AtExit) || Away(pc) == Some(AtExitRead)
  }

  predicate SpotOk(s: State, spot: Spot) {
    match spot
    case AtLock(k) => k < |s.holder|
    case AtUnlock(k) => k < |s.holder|
    case _ => true
  }

  /** The indices in a program counter are in range. */
  predicate InRange(s: State, pc: Pc, p: nat) {
    && (Original(pc).Some? ==> Original(pc).value < |s.st| && Original(pc).value != p)
    && (Exits(pc) ==> p != s.init)
    && (Away(pc).Some? ==> SpotOk(s, Away(pc).value))
    && match pc
       case LockWant(k) => k < |s.holder|
       case LockTest(k) => k < |s.holder|
       case SleepWant(k) => k < |s.holder|
       case SleepDrop(k) => k < |s.holder|
       case SleepSet(k) => k < |s.holder|
       case SleepSwitch(k) => k < |s.holder|
       case SleepResume(k) => k < |s.holder|
       case SleepLeave(k) => k < |s.holder|
       case UnlockWant(k) => k < |s.holder|
       case UnlockClear(k) => k < |s.holder|
       case WakeNext(k, i) => k < |s.holder| && i <= |s.st|
       case WakeLook(k, i) => k < |s.holder| && i < |s.st|
       case WakeDrop(k, i) => k < |s.holder| && i < |s.st|
       case KillLook(_, i) => i < |s.st|
       case KillDrop(_, i, _) => i < |s.st|
       case ForkLook(i) => i < |s.st|
       case ForkDrop(i, _) => i < |s.st|
       case WaitScan(i, _) => i <= |s.st|
       case WaitChild(i) => i < |s.st| && i != p
       case WaitLook(i) => i < |s.st| && i != p
       case WaitReap(i) => i < |s.st| && i != p
       case WaitPass(i) => i < |s.st| && i != p
       case Reparent(_, i) => i <= |s.st|
       case ReparentWant(op, i) => i < |s.st| && i != p && i != op
       case ReparentSet(op, i) => i < |s.st| && i != p && i != op
       case ReparentDrop(op, i) => i < |s.st| && i != p && i != op
       case _ => true
  }

  // ----- the invariant

  ghost predicate Pcs(s: State) {
    Sized(s) && forall p :: 0 <= p < |s.pc| ==> InRange(s, s.pc[p], p)
  }

  predicate HoldsOn(s: State, c: nat, l: Lock) {
    Sized(s) && c < |s.on| &&
    match s.on[c]
    case Scheduler => SchedHolds(s.spc[c], l)
    case Process(p) => p < |s.pc| && Holds(s.pc[p], p, s.init, l)
  }

  /** The lock table is what the CPUs' code positions say. */
  ghost predicate Locks(s: State) {
    && Sized(s)
    && (forall l :: l in s.lock ==> HoldsOn(s, s.lock[l], l))
    && (forall c, l :: HoldsOn(s, c, l) ==> l in s.lock && s.lock[l] == c)
  }

  function Claim(pc: SchedPc): Option<nat> { if pc.SchedSwitch? || pc.SchedBack? then Some(pc.i) else None }

  predicate CpuOk(s: State, c: nat)
    requires Sized(s) && c < |s.on|
  {
    && s.spc[c].i < |s.st| && s.cproc[c] == Claim(s.spc[c])
    && (s.on[c].Process? ==> s.spc[c] == SchedBack(s.on[c].p) && s.at[s.on[c].p] == Some(c))
    && (s.on[c].Scheduler? && s.spc[c].SchedBack? ==> s.at[s.spc[c].i] == None)
  }

  /** A process executes on the CPU its slot says, if on any. */
  ghost predicate Place(s: State) {
    && Sized(s)
    && (forall c :: 0 <= c < |s.on| ==> CpuOk(s, c))
    && (forall p :: 0 <= p < |s.at| && s.at[p].Some? ==> s.at[p].value < |s.on| && s.on[s.at[p].value] == Process(p))
  }

  /** Process p is about to be switched to by the scheduler that holds its lock. */
  predicate Entering(s: State, p: nat) {
    Sized(s) && P(p) in s.lock && s.lock[P(p)] < |s.on| && s.on[s.lock[P(p)]] == Scheduler
      && s.spc[s.lock[P(p)]] == SchedSwitch(p)
  }

  predicate StateOk(s: State, p: nat)
    requires Sized(s) && p < |s.st|
  {
    if s.at[p].Some? then
      && s.st[p] == Expected(s.pc[p]) && s.pc[p] != Dead
      && (s.pc[p].SleepSwitch? ==> s.chan[p] == Some(OnLock(s.pc[p].k)))
      && (s.pc[p].WaitSwitch? ==> s.chan[p] == Some(OnProc(p)))
    else
      match s.st[p]
      case Unused => s.pc[p] == Dead
      case Zombie => s.pc[p] == Dead
      case Runnable => Resumable(s.pc[p])
      case Running => Resumable(s.pc[p]) && Entering(s, p)
      case Sleeping =>
        || (s.pc[p].SleepResume? && s.chan[p] == Some(OnLock(s.pc[p].k)))
        || (s.pc[p].WaitResume? && s.chan[p] == Some(OnProc(p)))
  }

  ghost predicate States(s: State) {
    && Sized(s)
    && (forall p :: 0 <= p < |s.st| ==> StateOk(s, p))
    && (forall p :: 0 <= p < |s.st| && Entering(s, p) ==> s.at[p].None? && s.st[p] == Running)
  }

  /** The sleep lock process p sleeps on or is about to. */
  function Committed(s: State, p: nat): Option<nat>
    requires Sized(s) && p < |s.st|
  {
    if s.at[p].Some? then Commit(s.pc[p])
    else if s.st[p] == Sleeping && s.pc[p].SleepResume? then Some(s.pc[p].k) else None
  }

  /** The holder of sleep lock k's spinlock still has to look at process p. */
  predicate ToBeWoken(s: State, k: nat, p: nat) {
    && Sized(s) && L(k) in s.lock && s.lock[L(k)] < |s.on|
    && var x := s.on[s.lock[L(k)]];
    && x.Process? && x.p < |s.pc| && Waker(s.pc[x.p]).Some?
    && Waker(s.pc[x.p]).value.0 == k && Waker(s.pc[x.p]).value.1 <= p
  }

  predicate WakeOk(s: State, p: nat)
    requires Sized(s) && p < |s.st|
  {
    Committed(s, p).Some? ==>
      var k := Committed(s, p).value;
      k < |s.holder| && (s.holder[k].Some? || ToBeWoken(s, k, p))
  }

  ghost predicate Wakeups(s: State) {
    Sized(s) && forall p :: 0 <= p < |s.st| ==> WakeOk(s, p)
  }

  predicate Live(t: ProcState) { t != Unused && t != Zombie }

  predicate FamilyOk(s: State, j: nat)
    requires Sized(s) && j < |s.st|
  {
    && s.pid[j] < s.nextpid
    && (s.parent[j].Some? ==>
          var q := s.parent[j].value;
          q < |s.st| && q != j && j != s.init && s.st[j] != Unused && Live(s.st[q])
            && (q != s.init ==> s.pid[q] < s.pid[j]))
    && (s.st[j] != Unused && j != s.init ==> s.parent[j].Some?)
    && (s.st[j] == Zombie ==> s.parent[j] == s.woke[j] || s.parent[j] == Some(s.init))
    && (Original(s.pc[j]).Some? ==>
          var op := Original(s.pc[j]).value;
          op < |s.st| && (s.parent[j] == Some(op) || s.parent[j] == Some(s.init)) && s.parent[op] != Some(j))
    && (Chased(s.pc[j]).Some? ==> Chased(s.pc[j]).value < |s.st| && s.parent[Chased(s.pc[j]).value] == Some(j))
  }

  /** Parents are alive, older than their children, and exiting processes shed theirs. */
  ghost predicate Family(s: State) {
    && Sized(s) && Live(s.st[s.init])
    && (forall j :: 0 <= j < |s.st| ==> FamilyOk(s, j))
    && (forall q, j :: 0 <= q < |s.st| && 0 <= j < |s.st| && j < Cleared(s.pc[q], |s.st|) ==> s.parent[j] != Some(q))
  }

  function Checked(s: State, p: nat): nat
    requires Sized(s) && p < |s.st|
  {
    if s.at[p].Some? then Scanned(s.pc[p], |s.st|)
    else if s.st[p] == Sleeping && s.pc[p].WaitResume? then |s.st| else 0
  }

  /** The children wait has passed over are not dead, or have woken another
      parent before they were given away. */
  ghost predicate Waiting(s: State) {
    && Sized(s)
    && (forall p, j :: 0 <= p < |s.st| && 0 <= j < |s.st| && j < Checked(s, p) && s.parent[j] == Some(p) ==>
          s.st[j] != Zombie || s.woke[j] != Some(p))
  }

  ghost predicate Inv(s: State) {
    Pcs(s) && Locks(s) && Place(s) && States(s) && Wakeups(s) && Family(s) && Waiting(s)
  }

  // ----- consequences

  /** One CPU executes a process, and a lock has one holder. */
  lemma SameCpu(s: State, c: nat, p: nat)
    requires Place(s) && Executes(s, c, p)
    ensures s.at[p] == Some(c) && s.spc[c] == SchedBack(p) && s.cproc[c] == Some(p)
  {
    assert CpuOk(s, c);
  }

  lemma OneHolder(s: State, c: nat, d: nat, l: Lock)
    requires Locks(s) && HoldsOn(s, c, l) && HoldsOn(s, d, l)
    ensures c == d
  {
  }

  /** Whoever holds P(i) on another context sees i off its CPU or not about to switch. */
  lemma HeldElsewhere(s: State, c: nat, p: nat, i: nat)
    requires Locks(s) && Place(s) && Executes(s, c, p) && Holds(s.pc[p], p, s.init, P(i)) && i != p && i < |s.st|
      && s.at[i].Some?
    ensures !Holds(s.pc[i], i, s.init, P(i))
  {
    var d := s.at[i].value;
    assert Executes(s, d, i) && HoldsOn(s, c, P(i));
    if Holds(s.pc[i], i, s.init, P(i)) {
      assert HoldsOn(s, d, P(i));
      OneHolder(s, c, d, P(i));
    }
  }

  // ----- moves: only locks and p's program counter change

  /** The lock table changes as the two program counters say. */
  ghost predicate LockShift(s: State, lock: map<Lock, nat>, c: nat, p: nat, pc: Pc) {
    && (forall l :: l in s.lock && s.lock[l] != c ==> l in lock && lock[l] == s.lock[l])
    && (forall l :: l in lock ==> if lock[l] == c then Holds(pc, p, s.init, l) else l in s.lock && s.lock[l] == lock[l])
    && (forall l :: Holds(pc, p, s.init, l) ==> l in lock && lock[l] == c)
  }

  lemma LocksMove(s: State, s': State, c: nat, p: nat, pc: Pc)
    requires Locks(s) && Place(s) && Executes(s, c, p) && Sized(s')
    requires s'.on == s.on && s'.spc == s.spc && s'.init == s.init && |s'.pc| == |s.pc| && s'.pc[p] == pc
    requires forall q :: 0 <= q < |s.pc| && q != p && s.at[q].Some? ==> s'.pc[q] == s.pc[q]
    requires LockShift(s, s'.lock, c, p, pc)
    ensures Locks(s')
  {
    forall d, l | d != c && 0 <= d ensures HoldsOn(s', d, l) == HoldsOn(s, d, l) {
      if d < |s.on| && s.on[d].Process? {
        assert CpuOk(s, d) && CpuOk(s, c);
        assert s.on[d].p != p;
      }
    }
    forall l ensures HoldsOn(s', c, l) == Holds(pc, p, s.init, l) {}
  }

  lemma PcsGo(s: State, s': State, p: nat, pc: Pc)
    requires Pcs(s) && Sized(s') && p < |s.pc| && s'.pc == s.pc[p := pc] && InRange(s, pc, p)
    requires |s'.st| == |s.st| && |s'.holder| == |s.holder| && s'.init == s.init
    ensures Pcs(s')
  {
    forall q | 0 <= q < |s'.pc| ensures InRange(s', s'.pc[q], q) {
      assert InRange(s, s'.pc[q], q);
    }
  }

  lemma PlaceSame(s: State, s': State)
    requires Place(s) && Sized(s') && s'.on == s.on && s'.at == s.at && s'.spc == s.spc && s'.cproc == s.cproc
      && |s'.st| == |s.st|
    ensures Place(s')
  {
    hide Claim;
    forall c | 0 <= c < |s'.on| ensures CpuOk(s', c) { assert CpuOk(s, c); }
  }

  /** Locks that schedulers hold are not touched. */
  ghost predicate SchedLocksKept(s: State, s': State) {
    forall l ::
      (l in s.lock && s.lock[l] < |s.on| && s.on[s.lock[l]] == Scheduler)
      || (l in s'.lock && s'.lock[l] < |s.on| && s.on[s'.lock[l]] == Scheduler) ==>
      l in s.lock && l in s'.lock && s.lock[l] == s'.lock[l]
  }

  lemma EnteringSame(s: State, s': State, q: nat)
    requires Sized(s) && Sized(s') && SchedLocksKept(s, s') && s'.on == s.on && s'.spc == s.spc
    ensures Entering(s', q) == Entering(s, q)
  {
  }

  /** A wakeup scan leaves behind a process that does not sleep on its lock. */
  predicate PassesOver(s: State, at: (nat, nat), next: Option<(nat, nat)>)
    requires Sized(s)
  {
    next == Some((at.0, at.1 + 1)) && (at.1 < |s.st| ==> Committed(s, at.1) != Some(at.0))
  }

  /** Where a process may go without changing any data. */
  predicate Follows(s: State, p: nat, pc: Pc)
    requires Sized(s) && p < |s.st|
  {
    var pc0, n := s.pc[p], |s.st|;
    && Expected(pc) == Expected(pc0) && pc != Dead && !pc.SleepSwitch? && !pc.WaitSwitch?
    && InRange(s, pc, p)
    && (Commit(pc) == Commit(pc0) || (Commit(pc).Some? && Commit(pc).value < |s.holder|
      && s.holder[Commit(pc).value].Some?))
    && (Waker(pc) == Waker(pc0) || Waker(pc0).None? || Waker(pc0).value.1 >= n
      || PassesOver(s, Waker(pc0).value, Waker(pc)))
    && (forall j :: 0 <= j < n && Scanned(pc0, n) <= j < Scanned(pc, n) ==> s.parent[j] != Some(p) || s.st[j] != Zombie)
    && (forall j :: 0 <= j < n && Cleared(pc0, n) <= j < Cleared(pc, n) ==> s.parent[j] != Some(p))
    && (Original(pc).None? || Original(pc) == Original(pc0) ||
        var op := Original(pc).value;
        op < n && s.parent[p] == Some(op) && s.parent[op] != Some(p))
    && (Chased(pc).None? || Chased(pc) == Chased(pc0)
      || (Chased(pc).value < n && s.parent[Chased(pc).value] == Some(p)))
  }

  lemma MoveStates(s: State, s': State, c: nat, p: nat, pc: Pc)
    requires States(s) && Place(s) && Executes(s, c, p) && Follows(s, p, pc) && s' == Go(s.(lock := s'.lock), p, pc)
      && SchedLocksKept(s, s')
    ensures States(s')
  {
    SameCpu(s, c, p);
    forall q | 0 <= q < |s'.st| ensures StateOk(s', q) && Entering(s', q) == Entering(s, q) {
      EnteringSame(s, s', q);
      assert StateOk(s, q);
    }
  }

  lemma MoveWakeups(s: State, s': State, c: nat, p: nat, pc: Pc)
    requires Wakeups(s) && Locks(s) && Locks(s') && Place(s) && Executes(s, c, p) && Follows(s, p, pc)
      && s' == Go(s.(lock := s'.lock), p, pc)
    requires LockShift(s, s'.lock, c, p, pc)
    ensures Wakeups(s')
  {
    SameCpu(s, c, p);
    forall q | 0 <= q < |s'.st| ensures WakeOk(s', q) {
      assert WakeOk(s, q);
      if q != p || Commit(pc) == Commit(s.pc[p]) {
        if Committed(s, q).Some? && ToBeWoken(s, Committed(s, q).value,
          q) { StillWoken(s, s', c, p, pc, Committed(s, q).value, q); }
      }
    }
  }

  /** A wakeup scan does not lose a process it has not looked at. */
  lemma StillWoken(s: State, s': State, c: nat, p: nat, pc: Pc, k: nat, q: nat)
    requires Locks(s) && Place(s) && Executes(s, c, p) && Sized(s') && s'.on == s.on && |s'.pc| == |s.pc|
      && s'.pc[p] == pc && s'.init == s.init
    requires forall x :: 0 <= x < |s.pc| && x != p && s.at[x].Some? ==> s'.pc[x] == s.pc[x]
    requires LockShift(s, s'.lock, c, p, pc)
    requires ToBeWoken(s, k, q) && q < |s.st| && Committed(s, q) == Some(k)
    requires Waker(pc) == Waker(s.pc[p]) || Waker(s.pc[p]).None? || Waker(s.pc[p]).value.1 >= |s.st|
      || PassesOver(s, Waker(s.pc[p]).value, Waker(pc))
    ensures ToBeWoken(s', k, q)
  {
    var d := s.lock[L(k)];
    assert CpuOk(s, d) && CpuOk(s, c);
    var x := s.on[d].p;
    assert s.at[x] == Some(d);
    if d == c {
      assert Holds(pc, p, s.init, L(k));
    }
  }

  lemma MoveFamily(s: State, s': State, p: nat, pc: Pc)
    requires Family(s) && Sized(s) && p < |s.st| && Follows(s, p, pc) && s' == Go(s.(lock := s'.lock), p, pc)
    ensures Family(s')
  {
    forall j | 0 <= j < |s'.st| ensures FamilyOk(s', j) { assert FamilyOk(s, j); }
  }

  lemma MoveWaiting(s: State, s': State, c: nat, p: nat, pc: Pc)
    requires Waiting(s) && Place(s) && Executes(s, c, p) && Follows(s, p, pc) && s' == Go(s.(lock := s'.lock), p, pc)
    ensures Waiting(s')
  {
    SameCpu(s, c, p);
    forall q, j | 0 <= q < |s'.st| && 0 <= j < |s'.st| && j < Checked(s', q) && s'.parent[j] == Some(q)
      ensures s'.st[j] != Zombie || s'.woke[j] != Some(q)
    {
      if q != p { assert Checked(s', q) == Checked(s, q); }
    }
  }

  lemma MoveKeeps(s: State, s': State, c: nat, p: nat, pc: Pc)
    requires Inv(s) && Executes(s, c, p) && Follows(s, p, pc) && s' == Go(s.(lock := s'.lock), p, pc)
      && LockShift(s, s'.lock, c, p, pc)
    ensures Inv(s')
  {
    assert InRange(s, pc, p);
    hide Pcs, States, Wakeups, Family, Waiting, Locks, Follows, LockShift, Place;
    PcsGo(s, s', p, pc);
    PlaceSame(s, s');
    LocksMove(s, s', c, p, pc);
    ShiftSched(s, s', c, p, pc);
    MoveStates(s, s', c, p, pc);
    MoveWakeups(s, s', c, p, pc);
    MoveFamily(s, s', p, pc);
    MoveWaiting(s, s', c, p, pc);
  }

  lemma ShiftSched(s: State, s': State, c: nat, p: nat, pc: Pc)
    requires LockShift(s, s'.lock, c, p, pc) && Executes(s, c, p)
    ensures SchedLocksKept(s, s')
  {
  }

  lemma RangeOf(s: State, p: nat)
    requires Inv(s) && p < |s.pc|
    ensures Sized(s) && InRange(s, s.pc[p], p)
  {
    hide InRange;
  }

  lemma SameLocks(s: State, c: nat, p: nat, pc: Pc)
    requires Locks(s) && Executes(s, c, p) && forall l :: Holds(pc, p, s.init, l) == Holds(s.pc[p], p, s.init, l)
    ensures LockShift(s, s.lock, c, p, pc)
  {
    forall l | l in s.lock && s.lock[l] == c ensures Holds(pc, p, s.init, l) { assert HoldsOn(s, c, l); }
    forall l | Holds(pc, p, s.init, l) ensures l in s.lock && s.lock[l] == c { assert HoldsOn(s, c, l); }
  }

  lemma MoreLocks(s: State, c: nat, p: nat, pc: Pc, l: Lock)
    requires Locks(s) && Executes(s, c, p) && l !in s.lock
    requires forall x :: Holds(pc, p, s.init, x) == (Holds(s.pc[p], p, s.init, x) || x == l)
    ensures LockShift(s, s.lock[l := c], c, p, pc)
  {
    forall x | x in s.lock && s.lock[x] == c ensures Holds(pc, p, s.init, x) { assert HoldsOn(s, c, x); }
    forall x | Holds(pc, p, s.init, x) && x != l ensures x in s.lock && s.lock[x] == c { assert HoldsOn(s, c, x); }
  }

  lemma FewerLocks(s: State, c: nat, p: nat, pc: Pc, l: Lock)
    requires Locks(s) && Executes(s, c, p) && Holds(s.pc[p], p, s.init, l)
    requires forall x :: Holds(pc, p, s.init, x) == (Holds(s.pc[p], p, s.init, x) && x != l)
    ensures l in s.lock && LockShift(s, s.lock - {l}, c, p, pc)
  {
    assert HoldsOn(s, c, l);
    forall x | x in s.lock && s.lock[x] == c && x != l ensures Holds(pc, p, s.init, x) { assert HoldsOn(s, c, x); }
    forall x | Holds(pc, p, s.init, x) ensures x in s.lock && s.lock[x] == c && x != l { assert HoldsOn(s, c, x); }
  }

  /** Nothing the invariant speaks of changes between two program counters. */
  predicate QuietState(pc0: Pc, pc: Pc) {
    Expected(pc) == Expected(pc0) && pc != Dead && !pc.SleepSwitch? && !pc.WaitSwitch?
  }

  predicate QuietSleep(pc0: Pc, pc: Pc, n: nat) {
    Commit(pc) == Commit(pc0) && (Waker(pc) == Waker(pc0) || Waker(pc0).None? || Waker(pc0).value.1 >= n)
  }

  predicate QuietKin(pc0: Pc, pc: Pc, n: nat) {
    && Scanned(pc, n) <= Scanned(pc0, n) && Cleared(pc, n) <= Cleared(pc0, n)
    && (Original(pc).None? || Original(pc) == Original(pc0))
    && (Chased(pc).None? || Chased(pc) == Chased(pc0))
  }

  lemma QuietFollows(s: State, p: nat, pc: Pc)
    requires Sized(s) && p < |s.st| && InRange(s, pc, p)
    requires QuietState(s.pc[p], pc) && QuietSleep(s.pc[p], pc, |s.st|) && QuietKin(s.pc[p], pc, |s.st|)
    ensures Follows(s, p, pc)
  {
    hide Expected, Commit, Waker, Scanned, Cleared, Original, InRange, Chased;
  }

  lemma WantState(s: State, pc: Pc, p: nat)
    requires Want(s, pc, p).Some?
    ensures QuietState(pc, Want(s, pc, p).value.1)
  {
    match pc
    case Yielding(_) =>
    case LockWant(_) =>
    case SleepWant(_) =>
    case UnlockWant(_) =>
    case WakeNext(_, _) =>
    case KillNext(_, _) =>
    case ForkNext(_) =>
    case WaitWant =>
    case WaitChild(_) =>
    case ExitInit =>
    case ExitRead =>
    case ExitParent(_) =>
    case ExitSelf(_) =>
    case ReparentWant(_, _) =>
  }

  lemma WantSleep(s: State, pc: Pc, p: nat)
    requires Want(s, pc, p).Some?
    ensures QuietSleep(pc, Want(s, pc, p).value.1, |s.st|)
  {
  }

  /** The lock operations of wait and exit, and the others. */
  predicate WantsKin(pc: Pc) { pc.WaitWant? || pc.WaitChild? || pc.ExitInit? || pc.ExitRead? || pc.ExitParent?
      || pc.ExitSelf? || pc.ReparentWant? }

  predicate DropsKin(pc: Pc) { pc.WaitReap? || pc.WaitPass? || pc.WaitDrop? || pc.ExitInitDrop? || pc.ExitCopyDrop?
      || pc.ReparentDrop? || pc.ExitDrop? }

  lemma WantKinOne(s: State, pc: Pc, p: nat)
    requires Want(s, pc, p).Some? && WantsKin(pc)
    ensures QuietKin(pc, Want(s, pc, p).value.1, |s.st|)
  {
  }

  lemma WantKinTwo(s: State, pc: Pc, p: nat)
    requires Want(s, pc, p).Some? && !WantsKin(pc)
    ensures QuietKin(pc, Want(s, pc, p).value.1, |s.st|)
  {
  }

  lemma WantKin(s: State, pc: Pc, p: nat)
    requires Want(s, pc, p).Some?
    ensures QuietKin(pc, Want(s, pc, p).value.1, |s.st|)
  {
    hide WantsKin, Want, QuietKin;
    if WantsKin(pc) { WantKinOne(s, pc, p); } else { WantKinTwo(s, pc, p); }
  }

  lemma WantRangeOne(s: State, pc: Pc, p: nat)
    requires InRange(s, pc, p) && Want(s, pc, p).Some? && WantsKin(pc)
    ensures InRange(s, Want(s, pc, p).value.1, p)
  {
  }

  lemma WantRangeTwo(s: State, pc: Pc, p: nat)
    requires InRange(s, pc, p) && Want(s, pc, p).Some? && !WantsKin(pc)
    ensures InRange(s, Want(s, pc, p).value.1, p)
  {
  }

  lemma WantRange(s: State, pc: Pc, p: nat)
    requires InRange(s, pc, p) && Want(s, pc, p).Some?
    ensures InRange(s, Want(s, pc, p).value.1, p)
  {
    hide WantsKin, Want, InRange;
    if WantsKin(pc) { WantRangeOne(s, pc, p); } else { WantRangeTwo(s, pc, p); }
  }

  lemma DropState(s: State, pc: Pc, p: nat)
    requires Drop(s, pc, p).Some?
    ensures QuietState(pc, Drop(s, pc, p).value.1)
  {
    match pc
    case Resumed(_) =>
    case LockDrop(_) =>
    case SleepDrop(_) =>
    case SleepLeave(_) =>
    case WakeNext(_, _) =>
    case WakeDrop(_, _) =>
    case KillDrop(_, _, _) =>
    case ForkDrop(_, _) =>
    case WaitReap(_) =>
    case WaitPass(_) =>
    case WaitDrop =>
    case ExitInitDrop =>
    case ExitCopyDrop(_) =>
    case ReparentDrop(_, _) =>
    case ExitDrop(_) =>
  }

  lemma DropSleep(s: State, pc: Pc, p: nat)
    requires Drop(s, pc, p).Some?
    ensures QuietSleep(pc, Drop(s, pc, p).value.1, |s.st|)
  {
  }

  lemma DropKinOne(s: State, pc: Pc, p: nat)
    requires Drop(s, pc, p).Some? && DropsKin(pc)
    ensures QuietKin(pc, Drop(s, pc, p).value.1, |s.st|)
  {
    hide Back;
  }

  lemma DropKinTwo(s: State, pc: Pc, p: nat)
    requires Drop(s, pc, p).Some? && !DropsKin(pc) && !pc.Resumed?
    ensures QuietKin(pc, Drop(s, pc, p).value.1, |s.st|)
  {
    hide Back;
  }

  lemma BackKin(spot: Spot, n: nat)
    ensures QuietKin(Resumed(spot), Back(spot), n)
  {
  }

  lemma DropKin(s: State, pc: Pc, p: nat)
    requires Drop(s, pc, p).Some?
    ensures QuietKin(pc, Drop(s, pc, p).value.1, |s.st|)
  {
    hide DropsKin, QuietKin, Back;
    if pc.Resumed? { BackKin(pc.spot, |s.st|); } else if DropsKin(pc) { DropKinOne(s, pc, p); }
      else { DropKinTwo(s, pc, p); }
  }

  lemma BackRange(s: State, spot: Spot, p: nat)
    requires InRange(s, Resumed(spot), p)
    ensures InRange(s, Back(spot), p)
  {
    match spot
    case InUser =>
    case AtLock(_) =>
    case AtUnlock(_) =>
    case AtKill(_, _) =>
    case AtFork(_) =>
    case AtWait =>
    case AtExit =>
    case AtExitRead =>
    case AtExitParent(_) =>
  }

  lemma DropRangeKin(s: State, pc: Pc, p: nat)
    requires InRange(s, pc, p) && Drop(s, pc, p).Some? && DropsKin(pc)
    ensures InRange(s, Drop(s, pc, p).value.1, p)
  {
    hide Back;
  }

  lemma DropRangeOther(s: State, pc: Pc, p: nat)
    requires InRange(s, pc, p) && Drop(s, pc, p).Some? && !DropsKin(pc) && !pc.Resumed?
    ensures InRange(s, Drop(s, pc, p).value.1, p)
  {
    hide Back;
  }

  lemma DropRange(s: State, pc: Pc, p: nat)
    requires InRange(s, pc, p) && Drop(s, pc, p).Some?
    ensures InRange(s, Drop(s, pc, p).value.1, p)
  {
    hide InRange, Back, DropsKin;
    if pc.Resumed? { BackRange(s, pc.spot, p); } else if DropsKin(pc) { DropRangeKin(s, pc, p); }
      else { DropRangeOther(s, pc, p); }
  }

  lemma WantHoldsKin(s: State, pc0: Pc, p: nat, x: Lock)
    requires Want(s, pc0, p).Some? && WantsKin(pc0)
    ensures var (l, pc) := Want(s, pc0, p).value; Holds(pc, p, s.init, x) == (Holds(pc0, p, s.init, x) || x == l)
  {
  }

  lemma WantHoldsOther(s: State, pc0: Pc, p: nat, x: Lock)
    requires Want(s, pc0, p).Some? && !WantsKin(pc0)
    ensures var (l, pc) := Want(s, pc0, p).value; Holds(pc, p, s.init, x) == (Holds(pc0, p, s.init, x) || x == l)
  {
  }

  lemma WantHolds(s: State, pc0: Pc, p: nat, x: Lock)
    requires Want(s, pc0, p).Some?
    ensures var (l, pc) := Want(s, pc0, p).value; Holds(pc, p, s.init, x) == (Holds(pc0, p, s.init, x) || x == l)
  {
    hide Holds, Want, WantsKin;
    if WantsKin(pc0) { WantHoldsKin(s, pc0, p, x); } else { WantHoldsOther(s, pc0, p, x); }
  }

  lemma DropsHeld(s: State, pc: Pc, p: nat)
    requires InRange(s, pc, p) && Drop(s, pc, p).Some?
    ensures Holds(pc, p, s.init, Drop(s, pc, p).value.0)
  {
  }

  lemma DropHoldsKin(s: State, pc0: Pc, p: nat, x: Lock)
    requires InRange(s, pc0, p) && Drop(s, pc0, p).Some? && DropsKin(pc0)
    ensures var (l, pc) := Drop(s, pc0, p).value; Holds(pc, p, s.init, x) == (Holds(pc0, p, s.init, x) && x != l)
  {
  }

  lemma DropHoldsOther(s: State, pc0: Pc, p: nat, x: Lock)
    requires InRange(s, pc0, p) && Drop(s, pc0, p).Some? && !DropsKin(pc0)
    ensures var (l, pc) := Drop(s, pc0, p).value; Holds(pc, p, s.init, x) == (Holds(pc0, p, s.init, x) && x != l)
  {
  }

  lemma DropHolds(s: State, pc0: Pc, p: nat, x: Lock)
    requires InRange(s, pc0, p) && Drop(s, pc0, p).Some?
    ensures var (l, pc) := Drop(s, pc0, p).value;
      Holds(pc0, p, s.init, l) && Holds(pc, p, s.init, x) == (Holds(pc0, p, s.init, x) && x != l)
  {
    hide Holds, Drop, DropsKin, InRange;
    if DropsKin(pc0) { DropHoldsKin(s, pc0, p, x); } else { DropHoldsOther(s, pc0, p, x); }
    DropsHeld(s, pc0, p);
  }

  lemma CallQuiet(s: State, p: nat, pc: Pc)
    requires p < |s.st| && Begins(s, p, pc)
    ensures QuietState(User, pc) && QuietSleep(User, pc, |s.st|) && QuietKin(User, pc, |s.st|) && InRange(s, pc, p)
    ensures forall l :: !Holds(pc, p, s.init, l) && !Holds(User, p, s.init, l)
  {
  }

  lemma YieldQuiet(s: State, p: nat, spot: Spot)
    requires InRange(s, Back(spot), p)
    ensures var pc0, pc := Back(spot), Yielding(spot);
      QuietState(pc0, pc) && QuietSleep(pc0, pc, |s.st|) && QuietKin(pc0, pc, |s.st|) && InRange(s, pc, p)
    ensures forall l :: !Holds(Yielding(spot), p, s.init, l) && !Holds(Back(spot), p, s.init, l)
  {
  }

  lemma KillQuiet(s: State, p: nat, spot: Spot)
    requires p != s.init
    ensures var pc0, pc := Back(spot), ExitInit;
      QuietState(pc0, pc) && QuietSleep(pc0, pc, |s.st|) && QuietKin(pc0, pc, |s.st|) && InRange(s, pc, p)
    ensures forall l :: !Holds(ExitInit, p, s.init, l) && !Holds(Back(spot), p, s.init, l)
  {
  }

  lemma SpotIs(pc: Pc)
    requires SpotOf(pc).Some?
    ensures Back(SpotOf(pc).value) == pc
  {
  }

  lemma BeginQuiet(s: State, c: nat, p: nat, pc: Pc)
    requires Executes(s, c, p) && InRange(s, s.pc[p], p)
      && ((s.pc[p] == User && Begins(s, p, pc)) || Interrupted(s, p, pc))
    ensures QuietState(s.pc[p], pc) && QuietSleep(s.pc[p], pc, |s.st|) && QuietKin(s.pc[p], pc, |s.st|)
      && InRange(s, pc, p)
    ensures forall l :: !Holds(pc, p, s.init, l) && !Holds(s.pc[p], p, s.init, l)
  {
    hide QuietState, QuietSleep, QuietKin, InRange, Holds, Begins, SpotOf, Back;
    if s.pc[p] == User && Begins(s, p, pc) {
      CallQuiet(s, p, pc);
    } else {
      var spot := SpotOf(s.pc[p]).value;
      SpotIs(s.pc[p]);
      if pc == Yielding(spot) { YieldQuiet(s, p, spot); } else { KillQuiet(s, p, spot); }
    }
  }

  /** A system call or a timer interrupt begins. */
  lemma BeginKeeps(s: State, s': State, c: nat, p: nat, pc: Pc)
    requires Inv(s) && BeginStep(s, s', c, p, pc)
    ensures Inv(s')
  {
    hide Pcs, States, Wakeups, Family, Waiting, Follows, LockShift, Place, Locks, Holds, QuietState, QuietSleep,
      QuietKin, InRange, Begins, Interrupted;
    RangeOf(s, p);
    BeginQuiet(s, c, p, pc);
    QuietFollows(s, p, pc);
    SameLocks(s, c, p, pc);
    MoveKeeps(s, s', c, p, pc);
  }

  lemma AcquireKeeps(s: State, s': State, c: nat, p: nat)
    requires Inv(s) && AcquireStep(s, s', c, p)
    ensures Inv(s')
  {
    assert InRange(s, s.pc[p], p);
    hide Pcs, States, Wakeups, Family, Waiting, Follows, LockShift, Place, Locks, Want, Holds, QuietState, QuietSleep,
      QuietKin, InRange;
    var (l, pc) := Want(s, s.pc[p], p).value;
    WantState(s, s.pc[p], p);
    WantSleep(s, s.pc[p], p);
    WantKin(s, s.pc[p], p);
    WantRange(s, s.pc[p], p);
    QuietFollows(s, p, pc);
    forall x ensures Holds(pc, p, s.init, x) == (Holds(s.pc[p], p, s.init, x)
      || x == l) { WantHolds(s, s.pc[p], p, x); }
    MoreLocks(s, c, p, pc, l);
    MoveKeeps(s, s', c, p, pc);
  }

  lemma ReleaseKeeps(s: State, s': State, c: nat, p: nat)
    requires Inv(s) && ReleaseStep(s, s', c, p)
    ensures Inv(s')
  {
    assert InRange(s, s.pc[p], p);
    hide Pcs, States, Wakeups, Family, Waiting, Follows, LockShift, Place, Locks, Drop, Holds, QuietState, QuietSleep,
      QuietKin, InRange;
    var (l, pc) := Drop(s, s.pc[p], p).value;
    DropState(s, s.pc[p], p);
    DropSleep(s, s.pc[p], p);
    DropKin(s, s.pc[p], p);
    DropRange(s, s.pc[p], p);
    QuietFollows(s, p, pc);
    DropHolds(s, s.pc[p], p, l);
    forall x ensures Holds(pc, p, s.init, x) == (Holds(s.pc[p], p, s.init, x)
      && x != l) { DropHolds(s, s.pc[p], p, x); }
    FewerLocks(s, c, p, pc, l);
    MoveKeeps(s, s', c, p, pc);
  }

  // ----- frames: each part of the invariant depends on some fields only

  lemma PcsFrame(s: State, s': State)
    requires Pcs(s) && Sized(s') && |s'.st| == |s.st| && |s'.holder| == |s.holder| && s'.init == s.init && s'.pc == s.pc
    ensures Pcs(s')
  {
    hide Original, Exits, Away;
    forall p | 0 <= p < |s'.pc| ensures InRange(s', s'.pc[p], p) { assert InRange(s, s.pc[p], p); }
  }

  lemma LocksFrame(s: State, s': State)
    requires Locks(s) && Sized(s') && s'.lock == s.lock && s'.on == s.on && s'.spc == s.spc && s'.pc == s.pc
      && s'.init == s.init
    ensures Locks(s')
  {
    hide Holds, SchedHolds;
    forall c, l ensures HoldsOn(s', c, l) == HoldsOn(s, c, l) {}
  }

  lemma StatesFrame(s: State, s': State)
    requires States(s) && Sized(s') && s'.st == s.st && s'.chan == s.chan && s'.pc == s.pc && s'.at == s.at
    requires s'.lock == s.lock && s'.on == s.on && s'.spc == s.spc
    ensures States(s')
  {
    hide Expected, Resumable;
    forall p | 0 <= p < |s'.st| ensures StateOk(s', p) && Entering(s', p) == Entering(s, p) { assert StateOk(s, p); }
  }

  lemma WakeupsFrame(s: State, s': State)
    requires Wakeups(s) && Sized(s') && s'.st == s.st && s'.pc == s.pc && s'.at == s.at
    requires s'.lock == s.lock && s'.on == s.on && |s'.holder| == |s.holder|
    requires forall k :: 0 <= k < |s.holder| && s.holder[k].Some? ==> s'.holder[k].Some?
    ensures Wakeups(s')
  {
    hide Commit, Waker;
    forall p | 0 <= p < |s'.st| ensures WakeOk(s', p) {
      assert WakeOk(s, p) && Committed(s', p) == Committed(s, p);
      if Committed(s, p).Some? { assert ToBeWoken(s', Committed(s, p).value, p) == ToBeWoken(s, Committed(s, p).value,
        p); }
    }
  }

  lemma FamilyFrame(s: State, s': State)
    requires Family(s) && Sized(s') && s'.st == s.st && s'.pid == s.pid && s'.nextpid == s.nextpid
    requires s'.parent == s.parent && s'.woke == s.woke && s'.pc == s.pc && s'.init == s.init
    ensures Family(s')
  {
    hide Original, Chased, Cleared;
    forall j | 0 <= j < |s'.st| ensures FamilyOk(s', j) { assert FamilyOk(s, j); }
  }

  lemma WaitingFrame(s: State, s': State)
    requires Waiting(s) && Sized(s') && s'.st == s.st && s'.parent == s.parent && s'.woke == s.woke && s'.pc == s.pc
      && s'.at == s.at && s'.init == s.init
    ensures Waiting(s')
  {
    hide Scanned;
    forall p | 0 <= p < |s'.st| ensures Checked(s', p) == Checked(s, p) {}
  }
}
