/** Pipes (kernel/pipe.c): readers and writers interleaved at their lock
    operations and at every byte.  sleep releases the pipe's lock and falls
    asleep in one step; a woken process competes for the lock again. */
module PipeProtocol {
  import opened Basics

  const PIPESIZE := 512
  const UINT := 0x1_0000_0000

  datatype Pc =
    | Idle
    | WWant(buf: seq<char>, i: nat) | WLoop(buf: seq<char>, i: nat) | WAsleep(buf: seq<char>, i: nat) | WDone(i: nat)
    | RWant(n: nat) | RTest(n: nat) | RAsleep(n: nat) | RLoop(n: nat, i: nat) | RDone(i: nat)

  /** The pipe, its processes, and the history of bytes put in and taken out. */
  datatype State = State(
    data: seq<char>, nread: nat, nwrite: nat, readopen: bool, writeopen: bool,
    lock: Option<nat>, pc: seq<Pc>, killed: seq<bool>,
    pushed: seq<char>, consumed: seq<char>)

  predicate Full(s: State) { s.nwrite == (s.nread + PIPESIZE) % UINT }

  predicate Empty(s: State) { s.nread == s.nwrite }

  predicate Writes(pc: Pc) { pc.WWant? || pc.WLoop? || pc.WAsleep? || pc.WDone? }

  predicate Reads(pc: Pc) { pc.RWant? || pc.RTest? || pc.RAsleep? || pc.RLoop? || pc.RDone? }

  predicate Locked(pc: Pc) { pc.WLoop? || pc.WDone? || pc.RTest? || pc.RLoop? || pc.RDone? }

  function Woken(pc: Pc, readers: bool): Pc {
    if readers && pc.RAsleep? then RWant(pc.n) else if !readers && pc.WAsleep? then WWant(pc.buf, pc.i) else pc
  }

  /** wakeup on the readers' or the writers' channel. */
  function Wakeup(pcs: seq<Pc>, readers: bool): seq<Pc> { seq(|pcs|, j
      requires 0 <= j < |pcs| => Woken(pcs[j], readers)) }

  predicate At(s: State, p: nat) { p < |s.pc| && |s.killed| == |s.pc| && |s.data| == PIPESIZE }

  predicate Runs(s: State, p: nat) { At(s, p) && s.lock == Some(p) }

  function Go(s: State, p: nat, pc: Pc): State
    requires p < |s.pc|
  {
    s.(pc := s.pc[p := pc])
  }

  /** Release the lock and go to pc, after waking readers or writers. */
  function Leave(s: State, p: nat, pc: Pc): State
    requires p < |s.pc|
  {
    s.(lock := None, pc := s.pc[p := pc])
  }

  predicate BeginWriteStep(s: State, s': State, p: nat, buf: seq<char>) {
    At(s, p) && s.pc[p] == Idle && s.writeopen && s' == Go(s, p, WWant(buf, 0))
  }

  predicate BeginReadStep(s: State, s': State, p: nat, n: nat) {
    At(s, p) && s.pc[p] == Idle && s.readopen && s' == Go(s, p, RWant(n))
  }

  predicate AcquireStep(s: State, s': State, p: nat) {
    && At(s, p) && s.lock == None
    && match s.pc[p]
       case WWant(buf, i) => s' == Go(s.(lock := Some(p)), p, WLoop(buf, i))
       case RWant(n) => s' == Go(s.(lock := Some(p)), p, RTest(n))
       case _ => false
  }

  /** copyin of the next byte, and the byte into the ring; `ok` is copyin's result. */
  predicate WriteByteStep(s: State, s': State, p: nat, ok: bool) {
    && Runs(s, p) && s.pc[p].WLoop? && s.pc[p].i < |s.pc[p].buf| && !Full(s)
    && var c := s.pc[p].buf[s.pc[p].i];
    if ok then
      s' == Go(s.(data := s.data[s.nwrite % PIPESIZE := c], nwrite := (s.nwrite + 1) % UINT,
        pushed := s.pushed + [c]), p,
               WLoop(s.pc[p].buf, s.pc[p].i + 1))
    else s' == Go(s, p, WDone(s.pc[p].i))
  }

  /** A full pipe: wake the readers and sleep. */
  predicate WriteSleepStep(s: State, s': State, p: nat) {
    && Runs(s, p) && s.pc[p].WLoop? && s.pc[p].i < |s.pc[p].buf| && Full(s) && s.readopen && !s.killed[p]
    && s' == Leave(s.(pc := Wakeup(s.pc, true)), p, WAsleep(s.pc[p].buf, s.pc[p].i))
  }

  /** A full pipe and a killed writer, or no readers: return without a wakeup. */
  predicate WriteGiveUpStep(s: State, s': State, p: nat) {
    && Runs(s, p) && s.pc[p].WLoop? && s.pc[p].i < |s.pc[p].buf| && Full(s) && (!s.readopen || s.killed[p])
    && s' == Leave(s, p, Idle)
  }

  predicate WriteEndStep(s: State, s': State, p: nat) {
    Runs(s, p) && s.pc[p].WLoop? && s.pc[p].i >= |s.pc[p].buf| && s' == Go(s, p, WDone(s.pc[p].i))
  }

  predicate WriteLeaveStep(s: State, s': State, p: nat) {
    Runs(s, p) && s.pc[p].WDone? && s' == Leave(s.(pc := Wakeup(s.pc, true)), p, Idle)
  }

  /** piperead's wait loop: sleep, give up when killed, or go on to read. */
  predicate ReadTestStep(s: State, s': State, p: nat) {
    && Runs(s, p) && s.pc[p].RTest?
    && if Empty(s) && s.writeopen then s' == Leave(s, p, if s.killed[p] then Idle else RAsleep(s.pc[p].n))
       else s' == Go(s, p, RLoop(s.pc[p].n, 0))
  }

  /** One byte out of the ring; `ok` is copyout's result. */
  predicate ReadByteStep(s: State, s': State, p: nat, ok: bool) {
    && Runs(s, p) && s.pc[p].RLoop? && s.pc[p].i < s.pc[p].n && !Empty(s)
    && s' == Go(s.(nread := (s.nread + 1) % UINT, consumed := s.consumed + [s.data[s.nread % PIPESIZE]]), p,
                if ok then RLoop(s.pc[p].n, s.pc[p].i + 1) else RDone(s.pc[p].i))
  }

  predicate ReadEndStep(s: State, s': State, p: nat) {
    Runs(s, p) && s.pc[p].RLoop? && (s.pc[p].i >= s.pc[p].n || Empty(s)) && s' == Go(s, p, RDone(s.pc[p].i))
  }

  predicate ReadLeaveStep(s: State, s': State, p: nat) {
    Runs(s, p) && s.pc[p].RDone? && s' == Leave(s.(pc := Wakeup(s.pc, false)), p, Idle)
  }

  predicate KillStep(s: State, s': State, p: nat) {
    && At(s, p)
    && s' == Go(s.(killed := s.killed[p := true]), p, Woken(Woken(s.pc[p], true), false))
  }

  /** pipeclose, when the last descriptor of an end is closed: nobody is using that end. */
  predicate CloseStep(s: State, s': State, writer: bool) {
    && s.lock == None && (forall p :: 0 <= p < |s.pc| ==> if writer then !Writes(s.pc[p]) else !Reads(s.pc[p]))
    && s' == if writer then s.(writeopen := false, pc := Wakeup(s.pc, true))
      else s.(readopen := false, pc := Wakeup(s.pc, false))
  }

  datatype Action =
    | BeginWrite(p: nat, buf: seq<char>) | BeginRead(p: nat, n: nat) | Acquire(p: nat)
    | WriteByte(p: nat, ok: bool) | WriteSleep(p: nat) | WriteGiveUp(p: nat) | WriteEnd(p: nat) | WriteLeave(p: nat)
    | ReadTest(p: nat) | ReadByte(p: nat, ok: bool) | ReadEnd(p: nat) | ReadLeave(p: nat)
    | Kill(p: nat) | Close(writer: bool)

  predicate Step(s: State, a: Action, s': State) {
    match a
    case BeginWrite(p, buf) => BeginWriteStep(s, s', p, buf)
    case BeginRead(p, n) => BeginReadStep(s, s', p, n)
    case Acquire(p) => AcquireStep(s, s', p)
    case WriteByte(p, ok) => WriteByteStep(s, s', p, ok)
    case WriteSleep(p) => WriteSleepStep(s, s', p)
    case WriteGiveUp(p) => WriteGiveUpStep(s, s', p)
    case WriteEnd(p) => WriteEndStep(s, s', p)
    case WriteLeave(p) => WriteLeaveStep(s, s', p)
    case ReadTest(p) => ReadTestStep(s, s', p)
    case ReadByte(p, ok) => ReadByteStep(s, s', p, ok)
    case ReadEnd(p) => ReadEndStep(s, s', p)
    case ReadLeave(p) => ReadLeaveStep(s, s', p)
    case Kill(p) => KillStep(s, s', p)
    case Close(writer) => CloseStep(s, s', writer)
  }

  predicate Init(s: State) {
    && |s.data| == PIPESIZE && s.nread == 0 && s.nwrite == 0 && s.readopen && s.writeopen && s.lock == None
    && |s.killed| == |s.pc| && (forall p :: 0 <= p < |s.pc| ==> s.pc[p] == Idle) && s.pushed == [] && s.consumed == []
  }
}

/** What holds in every reachable state of a pipe. */
module PipeSafety {
  import opened Basics
  import opened PipeProtocol

  // ----- the ring and its counters

  /** The bytes between the counters are those pushed and not yet consumed, and
      the bytes consumed are the first ones pushed. */
  ghost predicate RingOk(data: seq<char>, nread: nat, nwrite: nat, pushed: seq<char>, consumed: seq<char>) {
    && |data| == PIPESIZE && |consumed| <= |pushed| <= |consumed| + PIPESIZE
    && nread == |consumed| % UINT && nwrite == |pushed| % UINT
    && (forall j :: |consumed| <= j < |pushed| ==> data[j % PIPESIZE] == pushed[j])
    && consumed == pushed[..|consumed|]
  }

  ghost predicate Ring(s: State) { RingOk(s.data, s.nread, s.nwrite, s.pushed, s.consumed) }

  /** The counters tell full and empty apart, wrapped or not. */
  lemma FullEmpty(s: State)
    requires Ring(s)
    ensures Full(s) <==> |s.pushed| == |s.consumed| + PIPESIZE
    ensures Empty(s) <==> |s.pushed| == |s.consumed|
  {
    Modular(|s.consumed|, |s.pushed| - |s.consumed|);
  }

  lemma Modular(a: nat, k: nat)
    requires k <= PIPESIZE
    ensures (a % UINT == (a + k) % UINT <==> k == 0)
      && ((a + k) % UINT == (a % UINT + PIPESIZE) % UINT <==> k == PIPESIZE)
  {
  }

  lemma SlotOf(n: nat)
    ensures n % UINT % PIPESIZE == n % PIPESIZE && (n % UINT + 1) % UINT == (n + 1) % UINT
  {
    var q := n / UINT;
    assert n == UINT * q + n % UINT;
    assert n == PIPESIZE * (8388608 * q) + n % UINT;
  }

  lemma SlotsApart(a: nat, b: nat)
    requires a < b < a + PIPESIZE
    ensures a % PIPESIZE != b % PIPESIZE
  {
  }

  lemma PushOk(data: seq<char>, nread: nat, nwrite: nat, pushed: seq<char>, consumed: seq<char>, c: char)
    requires RingOk(data, nread, nwrite, pushed, consumed) && |pushed| < |consumed| + PIPESIZE
    ensures RingOk(data[nwrite % PIPESIZE := c], nread, (nwrite + 1) % UINT, pushed + [c], consumed)
  {
    SlotOf(|pushed|);
    var w := |pushed|;
    var data', pushed' := data[nwrite % PIPESIZE := c], pushed + [c];
    forall j | |consumed| <= j < |pushed'| ensures data'[j % PIPESIZE] == pushed'[j] {
      if j < w { SlotsApart(j, w); }
    }
  }

  lemma PullOk(data: seq<char>, nread: nat, nwrite: nat, pushed: seq<char>, consumed: seq<char>)
    requires RingOk(data, nread, nwrite, pushed, consumed) && |consumed| < |pushed|
    ensures RingOk(data, (nread + 1) % UINT, nwrite, pushed, consumed + [data[nread % PIPESIZE]])
    ensures data[nread % PIPESIZE] == pushed[|consumed|]
  {
    SlotOf(|consumed|);
    var r := |consumed|;
    assert data[r % PIPESIZE] == pushed[r];
    assert pushed[..r + 1] == pushed[..r] + [pushed[r]];
  }

  // ----- the processes

  ghost predicate Holder(s: State) {
    && |s.killed| == |s.pc|
    && (s.lock.Some? ==> s.lock.value < |s.pc| && Locked(s.pc[s.lock.value]))
    && (forall p :: 0 <= p < |s.pc| && Locked(s.pc[p]) ==> s.lock == Some(p))
  }

  ghost predicate Ends(s: State) {
    forall p :: 0 <= p < |s.pc| ==>
      (Writes(s.pc[p]) ==> s.writeopen) && (Reads(s.pc[p]) && !s.pc[p].RAsleep? ==> s.readopen)
      && (s.pc[p].RAsleep? ==> s.readopen && s.writeopen) && (s.pc[p].WAsleep? ==> s.readopen)
  }

  /** The lock is held by a reader that will wake the writers. */
  predicate ReaderActive(s: State) { s.lock.Some? && s.lock.value < |s.pc|
      && (s.pc[s.lock.value].RLoop? || s.pc[s.lock.value].RDone?) }

  predicate WriterActive(s: State) { s.lock.Some? && s.lock.value < |s.pc|
      && (s.pc[s.lock.value].WLoop? || s.pc[s.lock.value].WDone?) }

  /** A sleeping writer finds the pipe full, unless it is about to be woken. */
  ghost predicate WriterSleep(s: State) {
    (exists p :: 0 <= p < |s.pc| && s.pc[p].WAsleep?) ==> Full(s) || ReaderActive(s)
  }

  ghost predicate ReaderSleep(s: State) {
    (exists p :: 0 <= p < |s.pc| && s.pc[p].RAsleep?) ==> Empty(s) || WriterActive(s)
  }

  /** Holds in every run. */
  ghost predicate Inv(s: State) {
    Ring(s) && Holder(s) && Ends(s) && WriterSleep(s)
  }

  lemma StepRing(s: State, a: Action, s': State)
    requires Ring(s) && Step(s, a, s')
    ensures Ring(s')
  {
    FullEmpty(s);
    hide RingOk;
    match a
    case WriteByte(p, ok) => if ok { PushOk(s.data, s.nread, s.nwrite, s.pushed, s.consumed, s.pc[p].buf[s.pc[p].i]); }
    case ReadByte(p, ok) => PullOk(s.data, s.nread, s.nwrite, s.pushed, s.consumed);
    case _ =>
  }

  lemma StepHolder(s: State, a: Action, s': State)
    requires Holder(s) && Step(s, a, s')
    ensures Holder(s')
  {
    hide Step, Holder;
    if OfWriter(a) { WriterHolder(s, a, s'); } else { OtherHolder(s, a, s'); }
  }

  predicate OfWriter(a: Action) {
    a.BeginWrite? || a.WriteByte? || a.WriteSleep? || a.WriteGiveUp? || a.WriteEnd? || a.WriteLeave?
  }

  lemma WriterHolder(s: State, a: Action, s': State)
    requires Holder(s) && Step(s, a, s') && OfWriter(a)
    ensures Holder(s')
  {
    hide Full, Empty, BeginReadStep, AcquireStep, ReadTestStep, ReadByteStep, ReadEndStep, ReadLeaveStep, KillStep,
      CloseStep;
  }

  lemma OtherHolder(s: State, a: Action, s': State)
    requires Holder(s) && Step(s, a, s') && !OfWriter(a)
    ensures Holder(s')
  {
    hide Full, Empty, BeginWriteStep, WriteByteStep, WriteSleepStep, WriteGiveUpStep, WriteEndStep, WriteLeaveStep;
  }

  lemma StepEnds(s: State, a: Action, s': State)
    requires Holder(s) && Ends(s) && Step(s, a, s')
    ensures Ends(s')
  {
    hide Full, Empty;
  }

  /** After a byte in or out the pipe is not what it was, and the lock is held. */
  lemma StepWriterSleep(s: State, a: Action, s': State)
    requires Ring(s) && Holder(s) && Ends(s) && WriterSleep(s) && Step(s, a, s') && Ring(s')
    ensures WriterSleep(s')
  {
    hide Step, Ring, Holder, Ends, WriterSleep;
    if OfWriter(a) { WriterSleepByWriter(s, a, s'); } else { WriterSleepByOther(s, a, s'); }
  }

  lemma WriterSleepByWriter(s: State, a: Action, s': State)
    requires Ring(s) && Holder(s) && WriterSleep(s) && Step(s, a, s') && Ring(s') && OfWriter(a)
    ensures WriterSleep(s')
  {
    hide Full, Empty, Ring, BeginReadStep, AcquireStep, ReadTestStep, ReadByteStep, ReadEndStep, ReadLeaveStep,
      KillStep, CloseStep;
    FullEmpty(s);
    FullEmpty(s');
    if !a.WriteSleep? { SleeperStays(s, s', false); }
  }

  lemma WriterSleepByOther(s: State, a: Action, s': State)
    requires Ring(s) && Holder(s) && Ends(s) && WriterSleep(s) && Step(s, a, s') && Ring(s') && !OfWriter(a)
    ensures WriterSleep(s')
  {
    hide Full, Empty, Ring, BeginWriteStep, WriteByteStep, WriteSleepStep, WriteGiveUpStep, WriteEndStep,
      WriteLeaveStep;
    FullEmpty(s);
    FullEmpty(s');
    if !a.ReadByte? && !a.ReadLeave? { SleeperStays(s, s', false); }
  }

  /** Nobody new sleeps. */
  lemma SleeperStays(s: State, s': State, readers: bool)
    requires |s'.pc| == |s.pc| && forall p :: 0 <= p < |s.pc| ==> if readers then s'.pc[p].RAsleep? ==>
      s.pc[p].RAsleep? else s'.pc[p].WAsleep? ==> s.pc[p].WAsleep?
    ensures if readers then (exists p :: 0 <= p < |s'.pc| && s'.pc[p].RAsleep?) ==>
      (exists p :: 0 <= p < |s.pc| && s.pc[p].RAsleep?)
      else (exists p :: 0 <= p < |s'.pc| && s'.pc[p].WAsleep?) ==> (exists p :: 0 <= p < |s.pc| && s.pc[p].WAsleep?)
  {
  }

  /** A killed writer gives up at a full pipe that still has a read end. */
  predicate KilledWriter(s: State, a: Action) { a.WriteGiveUp? && s.readopen }

  /** Every step but that one keeps sleeping readers at an empty pipe. */
  lemma StepReaderSleep(s: State, a: Action, s': State)
    requires Ring(s) && Holder(s) && Ends(s) && ReaderSleep(s) && Step(s, a, s') && Ring(s') && !KilledWriter(s, a)
    ensures ReaderSleep(s')
  {
    hide Step, Ring, Holder, Ends, ReaderSleep;
    if OfWriter(a) { ReaderSleepByWriter(s, a, s'); } else { ReaderSleepByOther(s, a, s'); }
  }

  lemma ReaderSleepByWriter(s: State, a: Action, s': State)
    requires Ring(s) && Holder(s) && Ends(s) && ReaderSleep(s) && Step(s, a, s') && Ring(s') && OfWriter(a)
    requires !KilledWriter(s, a)
    ensures ReaderSleep(s')
  {
    hide Full, Ring, BeginReadStep, AcquireStep, ReadTestStep, ReadByteStep, ReadEndStep, ReadLeaveStep, KillStep, CloseStep;
    FullEmpty(s);
    FullEmpty(s');
    if a.BeginWrite? || a.WriteEnd? { SleeperStays(s, s', true); }
  }

  lemma ReaderSleepByOther(s: State, a: Action, s': State)
    requires Ring(s) && Holder(s) && Ends(s) && ReaderSleep(s) && Step(s, a, s') && Ring(s') && !OfWriter(a)
    ensures ReaderSleep(s')
  {
    hide Full, Ring, BeginWriteStep, WriteByteStep, WriteSleepStep, WriteGiveUpStep, WriteEndStep, WriteLeaveStep;
    FullEmpty(s);
    FullEmpty(s');
    if !a.ReadTest? { SleeperStays(s, s', true); }
  }

  /** Giving up strands a sleeping reader, if there is one, and only then. */
  lemma GiveUpKeepsIff(s: State, p: nat, s': State)
    requires Inv(s) && ReaderSleep(s) && WriteGiveUpStep(s, s', p)
    ensures ReaderSleep(s') <==> forall r :: 0 <= r < |s.pc| ==> !s.pc[r].RAsleep?
  {
    FullEmpty(s);
    assert !Empty(s');
    forall r | 0 <= r < |s.pc| ensures s'.pc[r].RAsleep? <==> s.pc[r].RAsleep? {}
  }

  lemma StepKeeps(s: State, a: Action, s': State)
    requires Inv(s) && Step(s, a, s')
    ensures Inv(s') && (ReaderSleep(s) && !KilledWriter(s, a) ==> ReaderSleep(s'))
  {
    hide Ring, Holder, Ends, WriterSleep, ReaderSleep, Step;
    StepRing(s, a, s');
    StepHolder(s, a, s');
    StepEnds(s, a, s');
    StepWriterSleep(s, a, s');
    if ReaderSleep(s) && !KilledWriter(s, a) { StepReaderSleep(s, a, s'); }
  }

  // ----- runs

  ghost predicate IsRun(run: seq<State>, acts: seq<Action>) {
    |run| == |acts| + 1 && Init(run[0]) && forall m :: 0 <= m < |acts| ==> Step(run[m], acts[m], run[m + 1])
  }

  predicate NoneKilled(run: seq<State>, acts: seq<Action>, m: nat) {
    forall j :: 0 <= j < m && j < |acts| && j < |run| ==> !KilledWriter(run[j], acts[j])
  }

  lemma {:induction false} RunInv(run: seq<State>, acts: seq<Action>, m: nat)
    requires IsRun(run, acts) && m < |run|
    ensures Inv(run[m]) && (NoneKilled(run, acts, m) ==> ReaderSleep(run[m]))
  {
    hide Inv, ReaderSleep, Step, Init, KilledWriter;
    if m == 0 {
      InitInv(run[0]);
    } else {
      RunInv(run, acts, m - 1);
      assert Step(run[m - 1], acts[m - 1], run[m]);
      StepKeeps(run[m - 1], acts[m - 1], run[m]);
    }
  }

  lemma InitInv(s: State)
    requires Init(s)
    ensures Inv(s) && ReaderSleep(s)
  {
  }

  /** For every interleaving, what readers got is a prefix of what writers put
      in, and between 0 and 512 bytes are in the pipe. */
  lemma Fifo(run: seq<State>, acts: seq<Action>, m: nat)
    requires IsRun(run, acts) && m < |run|
    ensures run[m].consumed <= run[m].pushed
    ensures 0 <= |run[m].pushed| - |run[m].consumed| <= PIPESIZE
    ensures (run[m].nwrite - run[m].nread) % UINT == |run[m].pushed| - |run[m].consumed|
  {
    hide IsRun, Step, Holder, Ends, WriterSleep, Ring;
    RunInv(run, acts, m);
    RingCounts(run[m]);
  }

  lemma RingCounts(s: State)
    requires Ring(s)
    ensures s.consumed <= s.pushed && 0 <= |s.pushed| - |s.consumed| <= PIPESIZE
    ensures (s.nwrite - s.nread) % UINT == |s.pushed| - |s.consumed|
  {
    Difference(|s.pushed|, |s.consumed|);
  }

  lemma Difference(a: nat, b: nat)
    requires 0 <= a - b <= PIPESIZE
    ensures (a % UINT - b % UINT) % UINT == a - b
  {
  }

  /** Whenever the lock is free, a sleeping writer finds the pipe full. */
  lemma SleepingWriterFindsFull(run: seq<State>, acts: seq<Action>, m: nat, p: nat)
    requires IsRun(run, acts) && m < |run| && run[m].lock == None && p < |run[m].pc| && run[m].pc[p].WAsleep?
    ensures |run[m].pushed| == |run[m].consumed| + PIPESIZE && run[m].readopen
  {
    RunInv(run, acts, m);
    FullEmpty(run[m]);
  }

  /** In runs without a killed writer, whenever the lock is free a sleeping reader
      finds the pipe empty and open for writing. */
  lemma SleepingReaderFindsEmpty(run: seq<State>, acts: seq<Action>, m: nat, p: nat)
    requires IsRun(run, acts) && m < |run| && NoneKilled(run, acts, m) && run[m].lock == None && p < |run[m].pc|
      && run[m].pc[p].RAsleep?
    ensures run[m].consumed == run[m].pushed && run[m].writeopen
  {
    RunInv(run, acts, m);
    FullEmpty(run[m]);
  }

  // ----- a killed writer can strand a reader

  /** k more bytes from a writer that holds the lock. */
  lemma {:induction false} FillRun(run: seq<State>, acts: seq<Action>, k: nat)
      returns (run': seq<State>, acts': seq<Action>)
    requires IsRun(run, acts) && k <= PIPESIZE
    requires var z := run[|run| - 1];
      && |z.pc| == 2 && |z.killed| == 2 && z.lock == Some(1) && z.pc[0] == RAsleep(1) && z.pc[1].WLoop? && z.readopen
      && |z.pc[1].buf| == PIPESIZE + 1 && z.pc[1].i == |z.pushed| && z.consumed == [] && |z.pushed| + k <= PIPESIZE
    ensures IsRun(run', acts')
    ensures var z, z' := run[|run| - 1], run'[|run'| - 1];
      z' == z.(data := z'.data, nwrite := z'.nwrite, pushed := z'.pushed,
        pc := z.pc[1 := WLoop(z.pc[1].buf, |z.pushed| + k)]) && |z'.pushed| == |z.pushed| + k
    decreases k
  {
    var z := run[|run| - 1];
    RunInv(run, acts, |run| - 1);
    FullEmpty(z);
    run', acts' := run, acts;
    if k == 0 {
      assert z.pc == z.pc[1 := WLoop(z.pc[1].buf, |z.pushed|)];
    } else {
      var c := z.pc[1].buf[z.pc[1].i];
      var y := Go(z.(data := z.data[z.nwrite % PIPESIZE := c], nwrite := (z.nwrite + 1) % UINT,
        pushed := z.pushed + [c]), 1, WLoop(z.pc[1].buf, z.pc[1].i + 1));
      hide Full, RingOk, Inv;
      Extend(run, acts, WriteByte(1, true), y);
      run', acts' := FillRun(run + [y], acts + [WriteByte(1, true)], k - 1);
    }
  }

  lemma Extend(run: seq<State>, acts: seq<Action>, a: Action, s': State)
    requires IsRun(run, acts) && Step(run[|run| - 1], a, s')
    ensures IsRun(run + [s'], acts + [a])
  {
    hide Step;
    var run', acts' := run + [s'], acts + [a];
    forall m | 0 <= m < |acts'| ensures Step(run'[m], acts'[m], run'[m + 1]) {
      if m < |acts| { assert Step(run[m], acts[m], run[m + 1]); }
    }
  }

  /** A reader asleep, a writer at its first byte. */
  lemma ReaderAsleepRun(buf: seq<char>) returns (run: seq<State>, acts: seq<Action>)
    requires |buf| == PIPESIZE + 1
    ensures IsRun(run, acts)
    ensures var z := run[|run| - 1];
      && |z.pc| == 2 && |z.killed| == 2 && z.lock == Some(1) && z.pc[0] == RAsleep(1) && z.pc[1] == WLoop(buf, 0)
        && z.readopen
      && z.consumed == [] && z.pushed == []
  {
    var s0 := State(seq(PIPESIZE, j => ' '), 0, 0, true, true, None, [Idle, Idle], [false, false], [], []);
    var s1 := Go(s0, 0, RWant(1));
    var s2 := Go(s1.(lock := Some(0)), 0, RTest(1));
    var s3 := Leave(s2, 0, RAsleep(1));
    var s4 := Go(s3, 1, WWant(buf, 0));
    var s5 := Go(s4.(lock := Some(1)), 1, WLoop(buf, 0));
    assert IsRun([s0], []);
    Extend([s0], [], BeginRead(0, 1), s1);
    Extend([s0, s1], [BeginRead(0, 1)], Acquire(0), s2);
    run, acts := [s0] + [s1] + [s2], [BeginRead(0, 1)] + [Acquire(0)];
    assert [s0] + [s1] == [s0, s1] && [s0, s1] + [s2] == run && [] + [BeginRead(0, 1)] == [BeginRead(0, 1)];
    Extend(run, acts, ReadTest(0), s3);
    Extend(run + [s3], acts + [ReadTest(0)], BeginWrite(1, buf), s4);
    Extend(run + [s3] + [s4], acts + [ReadTest(0)] + [BeginWrite(1, buf)], Acquire(1), s5);
    run, acts := run + [s3] + [s4] + [s5], acts + [ReadTest(0)] + [BeginWrite(1, buf)] + [Acquire(1)];
  }

  /** A reachable state in which the lock is free and a reader sleeps although
      512 bytes wait in the pipe. */
  lemma StrandedReader() returns (run: seq<State>, acts: seq<Action>)
    ensures IsRun(run, acts)
    ensures var z := run[|run| - 1];
      z.lock == None && |z.pc| == 2 && z.pc[0].RAsleep? && |z.pushed| - |z.consumed| == PIPESIZE
  {
    var buf := seq(PIPESIZE + 1, j => 'x');
    run, acts := ReaderAsleepRun(buf);
    run, acts := FillRun(run, acts, PIPESIZE);
    var z := run[|run| - 1];
    RunInv(run, acts, |run| - 1);
    FullEmpty(z);
    hide RingOk, Inv, IsRun;
    var y := Go(z.(killed := z.killed[1 := true]), 1, z.pc[1]);
    Extend(run, acts, Kill(1), y);
    var x := Leave(y, 1, Idle);
    Extend(run + [y], acts + [Kill(1)], WriteGiveUp(1), x);
    run, acts := run + [y] + [x], acts + [Kill(1)] + [WriteGiveUp(1)];
  }
}

/** The loops of pipewrite and piperead between two sleeps, on the ring itself. */
module PipeCode {
  import opened PipeProtocol
  import opened PipeSafety

  class Pipe {
    const data: array<char>
    var nread: nat
    var nwrite: nat
    ghost var pushed: seq<char>
    ghost var consumed: seq<char>

    ghost predicate Valid()
      reads this, data
    {
      RingOk(data[..], nread, nwrite, pushed, consumed)
    }

    constructor ()
      ensures Valid() && pushed == [] && consumed == [] && fresh(data)
    {
      data := new char[PIPESIZE](_ => ' ');
      nread, nwrite := 0, 0;
      pushed, consumed := [], [];
    }

    lemma Counters()
      requires Valid()
      ensures nwrite == (nread + PIPESIZE) % UINT <==> |pushed| == |consumed| + PIPESIZE
      ensures nread == nwrite <==> |pushed| == |consumed|
    {
      Modular(|consumed|, |pushed| - |consumed|);
    }

    /** Bytes from index i on go in, in order, until none are left or the pipe is full. */
    method Fill(buf: seq<char>, i: nat) returns (j: nat)
      requires Valid() && i <= |buf|
      modifies this, data
      ensures Valid() && i <= j <= |buf| && pushed == old(pushed) + buf[i..j] && consumed == old(consumed)
      ensures j == |buf| || |pushed| == |consumed| + PIPESIZE
    {
      j := i;
      assert buf[i..i] == [];
      Counters();
      hide RingOk;
      while j < |buf| && nwrite != (nread + PIPESIZE) % UINT
        invariant i <= j <= |buf| && Valid() && pushed == old(pushed) + buf[i..j] && consumed == old(consumed)
        invariant nwrite == (nread + PIPESIZE) % UINT <==> |pushed| == |consumed| + PIPESIZE
        invariant |pushed| <= |consumed| + PIPESIZE && data.Length == PIPESIZE
      {
        PushOk(data[..], nread, nwrite, pushed, consumed, buf[j]);
        ghost var before := data[..];
        data[nwrite % PIPESIZE] := buf[j];
        assert data[..] == before[nwrite % PIPESIZE := buf[j]];
        nwrite := (nwrite + 1) % UINT;
        pushed := pushed + [buf[j]];
        assert buf[i..j + 1] == buf[i..j] + [buf[j]];
        j := j + 1;
        Counters();
        Bounds(data[..], nread, nwrite, pushed, consumed);
      }
    }

    /** Up to n bytes come out: the oldest ones, in order. */
    method Drain(n: nat) returns (out: seq<char>)
      requires Valid()
      modifies this`nread, this`consumed
      ensures Valid() && consumed == old(consumed) + out && pushed == old(pushed)
      ensures |out| == if n < |pushed| - |old(consumed)| then n else |pushed| - |old(consumed)|
      ensures out == pushed[|old(consumed)|..|old(consumed)| + |out|]
    {
      out := [];
      Counters();
      ghost var c := |consumed|;
      hide RingOk;
      Bounds(data[..], nread, nwrite, pushed, consumed);
      while |out| < n && nread != nwrite
        invariant |out| <= n && Valid() && consumed == old(consumed) + out && |consumed| <= |pushed|
        invariant nread == nwrite <==> |pushed| == |consumed|
        invariant out == pushed[c..c + |out|] && data.Length == PIPESIZE
      {
        PullOk(data[..], nread, nwrite, pushed, consumed);
        var ch := data[nread % PIPESIZE];
        nread := (nread + 1) % UINT;
        consumed := consumed + [ch];
        out := out + [ch];
        Counters();
        Bounds(data[..], nread, nwrite, pushed, consumed);
      }
    }
  }

  lemma Bounds(data: seq<char>, nread: nat, nwrite: nat, pushed: seq<char>, consumed: seq<char>)
    requires RingOk(data, nread, nwrite, pushed, consumed)
    ensures |data| == PIPESIZE && |consumed| <= |pushed| <= |consumed| + PIPESIZE
  {
  }
}
