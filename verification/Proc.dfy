/** Processes, CPUs and sleep locks (kernel/proc.c, kernel/sleeplock.c,
    kernel/spinlock.c) as interleaved steps.  Each CPU executes either its
    scheduler or one process; a step is one lock operation, one context switch
    or one piece of code that only touches data it holds the lock of. */
module ProcProtocol {
  import opened Basics

  datatype ProcState = Unused | Sleeping | Runnable | Running | Zombie

  /** The spinlock of a process, or the one inside a sleep lock. */
  datatype Lock = P(p: nat) | L(k: nat)

  datatype Chan = OnLock(k: nat) | OnProc(p: nat)

  /** Where a timer interrupt can find a process: it holds no spinlock there. */
  datatype Spot =
    | InUser | AtLock(k: nat) | AtUnlock(k: nat) | AtKill(target: nat, i: nat) | AtFork(i: nat) | AtWait
    | AtExit | AtExitRead | AtExitParent(op: nat)

  /** Where a process is in its kernel code. */
  datatype Pc =
    | User
    // yield from the timer interrupt, and the first return of a forked child
    | Yielding(spot: Spot) | YieldSet(spot: Spot) | YieldSwitch(spot: Spot) | Resumed(spot: Spot)
    // acquiresleep
    | LockWant(k: nat) | LockTest(k: nat) | LockDrop(k: nat)
    // sleep(lk, &lk->lk) inside acquiresleep
    | SleepWant(k: nat) | SleepDrop(k: nat) | SleepSet(k: nat) | SleepSwitch(k: nat) | SleepResume(k: nat)
    | SleepLeave(k: nat)
    // releasesleep and its wakeup scan
    | UnlockWant(k: nat) | UnlockClear(k: nat) | WakeNext(k: nat, i: nat) | WakeLook(k: nat,
      i: nat) | WakeDrop(k: nat, i: nat)
    // kill
    | KillNext(target: nat, i: nat) | KillLook(target: nat, i: nat) | KillDrop(target: nat, i: nat, hit: bool)
    // fork
    | ForkNext(i: nat) | ForkLook(i: nat) | ForkDrop(i: nat, hit: bool)
    // wait
    | WaitWant | WaitScan(i: nat,
      kids: bool) | WaitChild(i: nat) | WaitLook(i: nat) | WaitReap(i: nat) | WaitPass(i: nat)
    | WaitDrop | WaitSet | WaitSwitch | WaitResume
    // exit
    | ExitInit | ExitNudge | ExitInitDrop | ExitRead | ExitCopy | ExitCopyDrop(op: nat) | ExitParent(op: nat)
    | ExitSelf(op: nat)
    | Reparent(op: nat, i: nat) | ReparentWant(op: nat, i: nat) | ReparentSet(op: nat, i: nat) | ReparentDrop(op: nat,
      i: nat)
    | ExitDead(op: nat) | ExitDrop(op: nat) | ExitSwitch | Dead

  /** Where a CPU's scheduler is; SchedBack waits inside swtch. */
  datatype SchedPc = SchedNext(i: nat) | SchedLook(i: nat) | SchedSwitch(i: nat) | SchedBack(i: nat) | SchedDrop(i: nat)

  /** What a CPU executes. */
  datatype Context = Scheduler | Process(p: nat)

  datatype State = State(
    lock: map<Lock, nat>,         // held spinlocks, with the CPU that holds them
    st: seq<ProcState>,
    chan: seq<Option<Chan>>,
    parent: seq<Option<nat>>,
    woke: seq<Option<nat>>,       // history: the parent a slot's last exit has woken
    killed: seq<bool>,
    pid: seq<nat>,
    nextpid: nat,
    holder: seq<Option<nat>>,     // sleep locks: the process that locked it
    init: nat,
    // control
    pc: seq<Pc>,
    at: seq<Option<nat>>,         // the CPU that executes a process
    on: seq<Context>,
    spc: seq<SchedPc>,
    cproc: seq<Option<nat>>)      // c->proc

  function SpotOf(pc: Pc): Option<Spot> {
    match pc
    case User => Some(InUser)
    case LockWant(k) => Some(AtLock(k))
    case UnlockWant(k) => Some(AtUnlock(k))
    case KillNext(t, i) => Some(AtKill(t, i))
    case ForkNext(i) => Some(AtFork(i))
    case WaitWant => Some(AtWait)
    case ExitInit => Some(AtExit)
    case ExitRead => Some(AtExitRead)
    case ExitParent(op) => Some(AtExitParent(op))
    case _ => None
  }

  /** Where an interrupted process goes on. */
  function Back(spot: Spot): (pc: Pc)
    ensures SpotOf(pc) == Some(spot)
  {
    match spot
    case InUser => User
    case AtLock(k) => LockWant(k)
    case AtUnlock(k) => UnlockWant(k)
    case AtKill(t, i) => KillNext(t, i)
    case AtFork(i) => ForkNext(i)
    case AtWait => WaitWant
    case AtExit => ExitInit
    case AtExitRead => ExitRead
    case AtExitParent(op) => ExitParent(op)
  }

  /** The spinlock the code is about to acquire, and where it goes on. */
  function Want(s: State, pc: Pc, p: nat): Option<(Lock, Pc)> {
    match pc
    case Yielding(spot) => Some((P(p), YieldSet(spot)))
    case LockWant(k) => Some((L(k), LockTest(k)))
    case SleepWant(k) => Some((P(p), SleepDrop(k)))
    case UnlockWant(k) => Some((L(k), UnlockClear(k)))
    case WakeNext(k, i) => if i < |s.st| then Some((P(i), WakeLook(k, i))) else None
    case KillNext(t, i) => if i < |s.st| then Some((P(i), KillLook(t, i))) else None
    case ForkNext(i) => if i < |s.st| then Some((P(i), ForkLook(i))) else None
    case WaitWant => Some((P(p), WaitScan(0, false)))
    case WaitChild(i) => Some((P(i), WaitLook(i)))
    case ExitInit => Some((P(s.init), ExitNudge))
    case ExitRead => Some((P(p), ExitCopy))
    case ExitParent(op) => Some((P(op), ExitSelf(op)))
    case ExitSelf(op) => Some((P(p), Reparent(op, 0)))
    case ReparentWant(op, i) => Some((P(i), ReparentSet(op, i)))
    case _ => None
  }

  /** The spinlock the code is about to release, and where it goes on. */
  function Drop(s: State, pc: Pc, p: nat): Option<(Lock, Pc)> {
    match pc
    case Resumed(spot) => Some((P(p), Back(spot)))
    case LockDrop(k) => Some((L(k), User))
    case SleepDrop(k) => Some((L(k), SleepSet(k)))
    case SleepLeave(k) => Some((P(p), LockWant(k)))
    case WakeNext(k, i) => if i < |s.st| then None else Some((L(k), User))
    case WakeDrop(k, i) => Some((P(i), WakeNext(k, i + 1)))
    case KillDrop(t, i, hit) => Some((P(i), if hit then User else KillNext(t, i + 1)))
    case ForkDrop(i, hit) => Some((P(i), if hit then User else ForkNext(i + 1)))
    case WaitReap(i) => Some((P(i), WaitDrop))
    case WaitPass(i) => Some((P(i), WaitScan(i + 1, true)))
    case WaitDrop => Some((P(p), User))
    case ExitInitDrop => Some((P(s.init), ExitRead))
    case ExitCopyDrop(op) => Some((P(p), ExitParent(op)))
    case ReparentDrop(op, i) => Some((P(i), Reparent(op, i + 1)))
    case ExitDrop(op) => Some((P(op), ExitSwitch))
    case _ => None
  }

  /** Where a process that calls sched goes on when it is resumed. */
  function Resume(pc: Pc): Option<Pc> {
    match pc
    case YieldSwitch(spot) => Some(Resumed(spot))
    case SleepSwitch(k) => Some(SleepResume(k))
    case WaitSwitch => Some(WaitResume)
    case ExitSwitch => Some(Dead)
    case _ => None
  }

  /** What a process in user mode may start next. */
  predicate Begins(s: State, p: nat, pc: Pc)
    requires p < |s.st|
  {
    match pc
    case LockWant(k) => k < |s.holder|
    case UnlockWant(k) => k < |s.holder| && s.holder[k] == Some(p)
    case KillNext(t, i) => i == 0
    case ForkNext(i) => i == 0
    case WaitWant => true
    case ExitInit => p != s.init
    case _ => false
  }

  /** What the timer interrupt may do to a process: yield, or exit if it was killed. */
  predicate Interrupted(s: State, p: nat, pc: Pc)
    requires p < |s.pc| && p < |s.killed|
  {
    && SpotOf(s.pc[p]).Some?
    && (pc == Yielding(SpotOf(s.pc[p]).value) || (pc == ExitInit && s.killed[p] && p != s.init))
  }

  predicate Sized(s: State) {
    && |s.chan| == |s.st| && |s.parent| == |s.st| && |s.woke| == |s.st| && |s.killed| == |s.st| && |s.pid| == |s.st|
      && |s.pc| == |s.st| && |s.at| == |s.st|
    && |s.spc| == |s.on| && |s.cproc| == |s.on| && s.init < |s.st|
  }

  /** Process p executes on CPU c. */
  predicate Executes(s: State, c: nat, p: nat) {
    Sized(s) && c < |s.on| && s.on[c] == Process(p) && p < |s.st|
  }

  predicate Schedules(s: State, c: nat) { Sized(s) && c < |s.on| && s.on[c] == Scheduler }

  function Go(s: State, p: nat, pc: Pc): State
    requires p < |s.pc|
  {
    s.(pc := s.pc[p := pc])
  }

  predicate BeginStep(s: State, s': State, c: nat, p: nat, pc: Pc) {
    && Executes(s, c, p) && ((s.pc[p] == User && Begins(s, p, pc)) || Interrupted(s, p, pc))
    && s' == Go(s, p, pc)
  }

  predicate AcquireStep(s: State, s': State, c: nat, p: nat) {
    && Executes(s, c, p) && Want(s, s.pc[p], p).Some?
    && var (l, pc) := Want(s, s.pc[p], p).value;
    && l !in s.lock && s' == Go(s.(lock := s.lock[l := c]), p, pc)
  }

  predicate ReleaseStep(s: State, s': State, c: nat, p: nat) {
    && Executes(s, c, p) && Drop(s, s.pc[p], p).Some?
    && var (l, pc) := Drop(s, s.pc[p], p).value;
    && l in s.lock && s' == Go(s.(lock := s.lock - {l}), p, pc)
  }

  /** sched: swtch to the CPU's scheduler, p->lock held across. */
  predicate SwitchStep(s: State, s': State, c: nat, p: nat) {
    && Executes(s, c, p) && Resume(s.pc[p]).Some?
    && s' == Go(s.(on := s.on[c := Scheduler], at := s.at[p := None]), p, Resume(s.pc[p]).value)
  }

  /** wakeup1 and the body of wakeup's loop. */
  function Woken(s: State, i: nat, ch: Chan): State
    requires Sized(s) && i < |s.st|
  {
    if s.st[i] == Sleeping && s.chan[i] == Some(ch) then s.(st := s.st[i := Runnable]) else s
  }

  /** freeproc. */
  function Freed(s: State, i: nat): State
    requires Sized(s) && i < |s.st|
  {
    s.(st := s.st[i := Unused], chan := s.chan[i := None], parent := s.parent[i := None],
       killed := s.killed[i := false], pid := s.pid[i := 0])
  }

  /** A process slot set up by fork: it will start by releasing its own lock. */
  function Born(s: State, i: nat, parent: nat): State
    requires Sized(s) && i < |s.st|
  {
    s.(st := s.st[i := Runnable], parent := s.parent[i := Some(parent)], pid := s.pid[i := s.nextpid],
       nextpid := s.nextpid + 1, pc := s.pc[i := Resumed(InUser)])
  }

  /** The state after the code at p's pc that changes no lock; `ok` decides
      whether an allocation or a copy to user space succeeds. */
  function Acted(s: State, p: nat, ok: bool): Option<State>
    requires Sized(s) && p < |s.st|
  {
    match s.pc[p]
    case YieldSet(spot) => Some(Go(s.(st := s.st[p := Runnable]), p, YieldSwitch(spot)))
    case LockTest(k) =>
      if k >= |s.holder| then None
      else if s.holder[k].Some? then Some(Go(s, p, SleepWant(k)))
      else Some(Go(s.(holder := s.holder[k := Some(p)]), p, LockDrop(k)))
    case SleepSet(k) => Some(Go(s.(st := s.st[p := Sleeping], chan := s.chan[p := Some(OnLock(k))]), p, SleepSwitch(k)))
    case SleepResume(k) => Some(Go(s.(chan := s.chan[p := None]), p, SleepLeave(k)))
    case UnlockClear(k) => if k >= |s.holder| then None
      else Some(Go(s.(holder := s.holder[k := None]), p, WakeNext(k, 0)))
    case WakeLook(k, i) => if i >= |s.st| then None else Some(Go(Woken(s, i, OnLock(k)), p, WakeDrop(k, i)))
    case KillNext(t, i) => if i < |s.st| then None else Some(Go(s, p, User))
    case KillLook(t, i) =>
      if i >= |s.st| then None
      else if s.pid[i] != t then Some(Go(s, p, KillDrop(t, i, false)))
      else Some(Go(s.(killed := s.killed[i := true], st := if s.st[i] == Sleeping then s.st[i := Runnable] else s.st),
        p, KillDrop(t, i, true)))
    case ForkNext(i) => if i < |s.st| then None else Some(Go(s, p, User))
    case ForkLook(i) =>
      if i >= |s.st| then None
      else if s.st[i] != Unused then Some(Go(s, p, ForkDrop(i, false)))
      else if ok then Some(Go(Born(s, i, p), p, ForkDrop(i, true)))
      else Some(Go(Freed(s, i).(nextpid := s.nextpid + 1), p, ForkDrop(i, true)))
    case WaitScan(i, kids) =>
      if i < |s.st| then Some(Go(s, p, if s.parent[i] == Some(p) then WaitChild(i) else WaitScan(i + 1, kids)))
      else Some(Go(s, p, if !kids || s.killed[p] then WaitDrop else WaitSet))
    case WaitLook(i) =>
      if i >= |s.st| then None
      else if s.st[i] != Zombie then Some(Go(s, p, WaitPass(i)))
      else if ok then Some(Go(Freed(s, i), p, WaitReap(i)))
      else Some(Go(s, p, WaitReap(i)))
    case WaitSet => Some(Go(s.(st := s.st[p := Sleeping], chan := s.chan[p := Some(OnProc(p))]), p, WaitSwitch))
    case WaitResume => Some(Go(s.(chan := s.chan[p := None]), p, WaitScan(0, false)))
    case ExitNudge => Some(Go(Woken(s, s.init, OnProc(s.init)), p, ExitInitDrop))
    case ExitCopy => if s.parent[p].Some? then Some(Go(s, p, ExitCopyDrop(s.parent[p].value))) else None
    case Reparent(op, i) =>
      if i < |s.st| then Some(Go(s, p, if s.parent[i] == Some(p) then ReparentWant(op, i) else Reparent(op, i + 1)))
      else Some(Go(s, p, ExitDead(op)))
    case ReparentSet(op, i) => if i < |s.st| then Some(Go(s.(parent := s.parent[i := Some(s.init)]), p,
      ReparentDrop(op, i))) else None
    case ExitDead(op) =>
      if op >= |s.st| then None
      else var w := Woken(s, op, OnProc(op));
        Some(Go(w.(st := w.st[p := Zombie], woke := w.woke[p := Some(op)]), p, ExitDrop(op)))
    case _ => None
  }

  predicate ActStep(s: State, s': State, c: nat, p: nat, ok: bool) {
    Executes(s, c, p) && Acted(s, p, ok) == Some(s')
  }

  // ----- the scheduler

  predicate SchedAcquireStep(s: State, s': State, c: nat) {
    && Schedules(s, c) && s.spc[c].SchedNext? && P(s.spc[c].i) !in s.lock
    && s' == s.(lock := s.lock[P(s.spc[c].i) := c], spc := s.spc[c := SchedLook(s.spc[c].i)])
  }

  predicate SchedLookStep(s: State, s': State, c: nat) {
    && Schedules(s, c) && s.spc[c].SchedLook? && s.spc[c].i < |s.st|
    && var i := s.spc[c].i;
    if s.st[i] == Runnable then
      s' == s.(st := s.st[i := Running], cproc := s.cproc[c := Some(i)], spc := s.spc[c := SchedSwitch(i)])
    else
      s' == s.(spc := s.spc[c := SchedDrop(i)])
  }

  /** swtch to the process, which goes on with its lock held. */
  predicate SchedSwitchStep(s: State, s': State, c: nat) {
    && Schedules(s, c) && s.spc[c].SchedSwitch? && s.spc[c].i < |s.st|
    && var i := s.spc[c].i;
    s' == s.(on := s.on[c := Process(i)], at := s.at[i := Some(c)], spc := s.spc[c := SchedBack(i)])
  }

  predicate SchedBackStep(s: State, s': State, c: nat) {
    && Schedules(s, c) && s.spc[c].SchedBack?
    && s' == s.(cproc := s.cproc[c := None], spc := s.spc[c := SchedDrop(s.spc[c].i)])
  }

  predicate SchedReleaseStep(s: State, s': State, c: nat) {
    && Schedules(s, c) && s.spc[c].SchedDrop? && P(s.spc[c].i) in s.lock
    && var i := s.spc[c].i;
    s' == s.(lock := s.lock - {P(i)}, spc := s.spc[c := SchedNext(if i + 1 < |s.st| then i + 1 else 0)])
  }

  datatype Action =
    | Begin(p: nat, pc: Pc) | Acquire(p: nat) | Release(p: nat) | Switch(p: nat) | Act(p: nat, ok: bool)
    | SchedAcquire | SchedRead | SchedRun | SchedReturn | SchedRelease

  predicate Step(s: State, c: nat, a: Action, s': State) {
    match a
    case Begin(p, pc) => BeginStep(s, s', c, p, pc)
    case Acquire(p) => AcquireStep(s, s', c, p)
    case Release(p) => ReleaseStep(s, s', c, p)
    case Switch(p) => SwitchStep(s, s', c, p)
    case Act(p, ok) => ActStep(s, s', c, p, ok)
    case SchedAcquire => SchedAcquireStep(s, s', c)
    case SchedRead => SchedLookStep(s, s', c)
    case SchedRun => SchedSwitchStep(s, s', c)
    case SchedReturn => SchedBackStep(s, s', c)
    case SchedRelease => SchedReleaseStep(s, s', c)
  }

  /** After userinit: one runnable process, every CPU in its scheduler. */
  predicate Init(s: State) {
    && Sized(s) && s.lock == map[]
    && (forall p :: 0 <= p < |s.st| ==>
          && s.st[p] == (if p == s.init then Runnable else Unused)
          && s.pc[p] == (if p == s.init then Resumed(InUser) else Dead)
          && s.chan[p] == None && s.parent[p] == None && s.at[p] == None && s.pid[p] < s.nextpid)
    && (forall k :: 0 <= k < |s.holder| ==> s.holder[k] == None)
    && (forall c :: 0 <= c < |s.on| ==> s.on[c] == Scheduler && s.spc[c] == SchedNext(0) && s.cproc[c] == None)
  }
}
