/** The disk that the log and the buffer cache together implement: a current
    view that operations change, and a committed view that survives a crash.
    `logged` blocks belong to the transaction being collected or installed;
    `loose` blocks were changed and never passed to log_write, so their current
    content is promised to nobody. */
module AtomicDisk {
  import opened Blocks

  datatype Disk = Disk(committed: map<nat, Block>, current: map<nat, Block>, logged: set<nat>, loose: set<nat>)

  ghost predicate Write(d: Disk, d': Disk, b: nat, v: Block) {
    && b in d.current
    && d' == d.(current := d.current[b := v], loose := if b in d.logged then d.loose else d.loose + {b})
  }

  ghost predicate Log(d: Disk, d': Disk, b: nat) {
    d' == d.(logged := d.logged + {b}, loose := d.loose - {b})
  }

  /** What a commit makes durable: everything current but the loose blocks. */
  ghost function Durable(d: Disk): map<nat, Block> {
    map b | b in d.current :: if b in d.loose && b in d.committed then d.committed[b] else d.current[b]
  }

  /** Memory for the blocks `gone` is reused: the loose ones fall back to
      their committed content. */
  ghost function Lose(d: Disk, gone: set<nat>): Disk {
    d.(current := map b | b in d.current ::
         if b in gone && b in d.loose && b in d.committed then d.committed[b] else d.current[b],
       loose := d.loose - gone)
  }

  /** Committing moves the whole durable view over in one step. */
  ghost predicate Commit(d: Disk, d': Disk) {
    d' == d.(committed := Durable(d))
  }

  /** One block of a committed transaction has reached its home. */
  ghost predicate Settle(d: Disk, d': Disk) {
    exists b :: b in d.logged && d' == d.(logged := d.logged - {b})
  }

  ghost predicate Crash(d: Disk, d': Disk) {
    d' == Disk(d.committed, d.committed, {}, {})
  }
}

/** The write-ahead log over the buffer cache, as a protocol of atomic steps:
    each step is one lock-protected section or one disk block write, and a
    crash may strike between any two of them. */
module LogProtocol {
  import opened Basics
  import opened Blocks
  import Spec = AtomicDisk

  const MAXOPBLOCKS: nat := 10
  const LOGSIZE: nat := 30
  const NBUF: nat := 30

  type Pid = nat

  /** Where the log lives: header at `start`, log blocks after it, `size`
      blocks in all, on a disk of `total` blocks that the driver can address. */
  datatype Layout = Layout(start: nat, size: nat, total: nat) {
    predicate Ok() { 1 <= size && start + size <= total <= 0x8000_0000 }
    predicate Home(b: nat) { b < total && !(start <= b < start + size) }
    predicate Listed(lh: seq<nat>) {
      && |lh| <= LOGSIZE
      && (forall i :: 0 <= i < |lh| ==> Home(lh[i]))
      && (forall i, j :: 0 <= i < j < |lh| ==> lh[i] != lh[j])
    }
    predicate HeadFits(lh: seq<nat>) { Listed(lh) && |lh| <= size - 1 }

    /** The layouts for which a log list longer than the log area, where it can
        arise at all, never gets copied past the area's end. */
    predicate Safe() { size >= LOGSIZE || size == 1 || total < 2 * size || start + size == total }
  }

  /** A cached block. `users` are the processes between bget and brelse,
      `holder` the one owning the sleep lock, and `dirty` says the data has been
      changed since the buffer was read, or last passed to log_write. */
  datatype Buf = Buf(data: Block, valid: bool, dirty: bool, refcnt: int, users: set<Pid>, holder: Option<Pid>)

  datatype Phase =
    | Running
    | Logging(next: nat)      // write_log has copied blocks below next
    | Installing(next: nat)   // header written; install_trans(0) is at next
    | Cleared                 // header erased, commit about to return
    | Booting                 // memory lost; read_head still to come
    | Replaying(next: nat)    // install_trans(1) is at next

  datatype State = State(
    disk: seq<Block>,
    cache: map<nat, Buf>,
    lh: seq<nat>,             // Log.lh.block[0..Log.lh.n)
    outstanding: int,
    committing: bool,
    ops: map<Pid, nat>,       // open operations, and how many blocks each has appended
    tested: map<Pid, nat>,    // processes past the unlocked test of log_write, and their block
    phase: Phase)

  datatype Action =
    | Get(p: Pid, b: nat)
    | GetMiss(p: Pid, b: nat, victim: Option<nat>)
    | Lock(p: Pid, b: nat)
    | Modify(p: Pid, b: nat, data: Block)
    | LogTest(p: Pid, b: nat)
    | LogWrite(p: Pid, b: nat)
    | Release(p: Pid, b: nat)
    | Begin(p: Pid)
    | End(p: Pid)
    | CopyToLog(v1: Option<nat>, v2: Option<nat>)
    | CommitHead(v: Option<nat>)
    | Install(v1: Option<nat>, v2: Option<nat>)
    | Clear(v: Option<nat>)
    | CommitNothing
    | Finish
    | Crash
    | ReadHead(v: Option<nat>)
    | Replay(v1: Option<nat>, v2: Option<nat>)
    | ReplayDone(v: Option<nat>)

  // ----- the log header on disk

  /** read_head: n, then n block numbers; a number n too large for the block
      is kept, so that such a header never passes for a good one. */
  function DecodeHead(h: Block): (lh: seq<nat>)
    ensures |lh| == Word(h, 0)
  {
    seq(Word(h, 0), i requires 0 <= i => if 1 + i < WORDS then Word(h, 1 + i) else 0)
  }

  function EncodeBlocks(h: Block, lh: seq<nat>): (r: Block)
    requires |lh| < WORDS && forall i :: 0 <= i < |lh| ==> lh[i] < 0x1_0000_0000
  {
    if lh == [] then h else SetWord(EncodeBlocks(h, lh[..|lh|-1]), |lh|, lh[|lh|-1])
  }

  /** write_head: n, then the n block numbers; the rest of the block stays. */
  function EncodeHead(h: Block, lh: seq<nat>): (r: Block)
    requires |lh| < WORDS && forall i :: 0 <= i < |lh| ==> lh[i] < 0x1_0000_0000
  {
    EncodeBlocks(SetWord(h, 0, |lh|), lh)
  }

  lemma {:induction false} EncodeBlocksGet(h: Block, lh: seq<nat>, j: nat)
    requires |lh| < WORDS && forall i :: 0 <= i < |lh| ==> lh[i] < 0x1_0000_0000
    requires j < WORDS
    ensures Word(EncodeBlocks(h, lh), j) == if 1 <= j <= |lh| then lh[j-1] else Word(h, j)
  {
    if lh != [] {
      var pre := lh[..|lh|-1];
      EncodeBlocksGet(h, pre, j);
      SetWordGet(EncodeBlocks(h, pre), |lh|, lh[|lh|-1], j);
    }
  }

  lemma EncodeHeadGet(h: Block, lh: seq<nat>, j: nat)
    requires |lh| < WORDS && forall i :: 0 <= i < |lh| ==> lh[i] < 0x1_0000_0000
    requires j < WORDS
    ensures Word(EncodeHead(h, lh), j) == if j == 0 then |lh| else if j <= |lh| then lh[j-1] else Word(h, j)
  {
    EncodeBlocksGet(SetWord(h, 0, |lh|), lh, j);
    SetWordGet(h, 0, |lh|, j);
  }

  lemma DecodeHeadIs(h: Block, lh: seq<nat>)
    requires |lh| < WORDS && Word(h, 0) == |lh|
    requires forall i :: 0 <= i < |lh| ==> Word(h, 1 + i) == lh[i]
    ensures DecodeHead(h) == lh
  {
  }

  /** read_head after write_head gives back the in-memory header. */
  lemma HeadRoundTrip(h: Block, lh: seq<nat>)
    requires |lh| < WORDS && forall i :: 0 <= i < |lh| ==> lh[i] < 0x1_0000_0000
    ensures DecodeHead(EncodeHead(h, lh)) == lh
  {
    hide EncodeHead, Word;
    var r := EncodeHead(h, lh);
    EncodeHeadGet(h, lh, 0);
    forall i | 0 <= i < |lh| ensures Word(r, 1 + i) == lh[i] {
      EncodeHeadGet(h, lh, 1 + i);
    }
    DecodeHeadIs(r, lh);
  }

  // ----- bread of a block by the log code itself

  predicate CanFetch(cache: map<nat, Buf>, b: nat, victim: Option<nat>, keep: nat) {
    if b in cache then cache[b].holder == None
    else match victim
      case None => |cache| < NBUF
      case Some(v) => v in cache && v != keep && cache[v].refcnt == 0
  }

  function Recycle(cache: map<nat, Buf>, victim: Option<nat>): map<nat, Buf> {
    match victim case None => cache case Some(v) => cache - {v}
  }

  /** The cache after bread(b): a hit, or a recycled buffer filled from disk. */
  function Fetch(cache: map<nat, Buf>, disk: seq<Block>, b: nat, victim: Option<nat>): (c: map<nat, Buf>)
    requires b < |disk|
    ensures b in c && c[b].valid
  {
    if b in cache then
      if cache[b].valid then cache else cache[b := cache[b].(data := disk[b], valid := true)]
    else
      Recycle(cache, victim)[b := Buf(disk[b], true, false, 0, {}, None)]
  }

  // ----- the steps

  /** Memory is initialised: system calls can run. */
  predicate Up(s: State) { !s.phase.Booting? && !s.phase.Replaying? }

  // bget, hit
  predicate GetStep(L: Layout, s: State, s': State, p: Pid, b: nat) {
    && Up(s) && p !in s.tested && b in s.cache && p !in s.cache[b].users
    && var u := s.cache[b];
    s' == s.(cache := s.cache[b := u.(refcnt := u.refcnt + 1, users := u.users + {p})])
  }

  // bget, miss: recycle an unreferenced buffer
  predicate GetMissStep(L: Layout, s: State, s': State, p: Pid, b: nat, victim: Option<nat>) {
    && Up(s) && p !in s.tested && b < |s.disk| && b !in s.cache && CanFetch(s.cache, b, victim, b)
    && s' == s.(cache := Recycle(s.cache, victim)[b := Buf(s.disk[b], false, false, 1, {p}, None)])
  }

  // acquiresleep on the buffer, and the disk read if it is not valid
  predicate LockStep(L: Layout, s: State, s': State, p: Pid, b: nat) {
    && Up(s) && p !in s.tested && b < |s.disk| && b in s.cache && p in s.cache[b].users && s.cache[b].holder == None
    && var u := s.cache[b];
    s' == s.(cache := s.cache[b := u.(data := if u.valid then u.data else s.disk[b], valid := true, holder := Some(p))])
  }

  // an operation changes the data of a home block it holds
  predicate ModifyStep(L: Layout, s: State, s': State, p: Pid, b: nat, data: Block) {
    && Up(s) && p in s.ops && p !in s.tested && L.Home(b) && b in s.cache && s.cache[b].holder == Some(p)
    && s' == s.(cache := s.cache[b := s.cache[b].(data := data, dirty := true)])
  }

  /** The "too big a transaction" test, made before looking for absorption. */
  predicate LogWritePanics(L: Layout, s: State) {
    |s.lh| >= LOGSIZE || |s.lh| >= L.size - 1
  }

  // the test of log_write, made without holding Log.lock
  predicate LogTestStep(L: Layout, s: State, s': State, p: Pid, b: nat) {
    && Up(s) && p in s.ops && p !in s.tested && L.Home(b) && b in s.cache && s.cache[b].holder == Some(p)
    && !LogWritePanics(L, s)
    && s' == s.(tested := s.tested[p := b])
  }

  // the locked section of log_write, which does not test again
  predicate LogWriteStep(L: Layout, s: State, s': State, p: Pid, b: nat) {
    && Up(s) && p in s.ops && p in s.tested && s.tested[p] == b
    && L.Home(b) && b in s.cache && s.cache[b].holder == Some(p)
    && (b !in s.lh ==> s.ops[p] < MAXOPBLOCKS)
    && var u := s.cache[b].(dirty := false);
    s' == if b in s.lh then s.(cache := s.cache[b := u], tested := s.tested - {p})
          else s.(cache := s.cache[b := u.(refcnt := u.refcnt + 1)], lh := s.lh + [b],
                  ops := s.ops[p := s.ops[p] + 1], tested := s.tested - {p})
  }

  // brelse, whether or not the data was changed
  predicate ReleaseStep(L: Layout, s: State, s': State, p: Pid, b: nat) {
    && Up(s) && p !in s.tested && b in s.cache && s.cache[b].holder == Some(p)
    && var u := s.cache[b];
    s' == s.(cache := s.cache[b := u.(refcnt := u.refcnt - 1, users := u.users - {p}, holder := None)])
  }

  predicate BeginStep(L: Layout, s: State, s': State, p: Pid) {
    && Up(s) && !s.committing && p !in s.ops
    && |s.lh| + (s.outstanding + 1) * MAXOPBLOCKS <= LOGSIZE
    && s' == s.(outstanding := s.outstanding + 1, ops := s.ops[p := 0])
  }

  predicate EndStep(L: Layout, s: State, s': State, p: Pid) {
    && Up(s) && p in s.ops && p !in s.tested
    && var s1 := s.(outstanding := s.outstanding - 1, ops := s.ops - {p});
    s' == if s1.outstanding == 0 then s1.(committing := true, phase := Logging(0)) else s1
  }

  /** bread of log block `k` and then of its home block, two different blocks of the disk. */
  predicate CanCopy(L: Layout, s: State, k: nat, v1: Option<nat>, v2: Option<nat>) {
    && L.Ok() && |s.disk| == L.total && k < |s.lh|
    && var lb := L.start + 1 + k;
    && lb < L.total && s.lh[k] < L.total && s.lh[k] != lb
    && CanFetch(s.cache, lb, v1, lb)
    && CanFetch(Fetch(s.cache, s.disk, lb, v1), s.lh[k], v2, lb)
  }

  function CopyCache(L: Layout, s: State, k: nat, v1: Option<nat>, v2: Option<nat>): (c: map<nat, Buf>)
    requires CanCopy(L, s, k, v1, v2)
    ensures s.lh[k] in c && L.start + 1 + k in c
  {
    Fetch(Fetch(s.cache, s.disk, L.start + 1 + k, v1), s.disk, s.lh[k], v2)
  }

  // one iteration of write_log
  predicate CopyToLogStep(L: Layout, s: State, s': State, v1: Option<nat>, v2: Option<nat>) {
    && s.phase.Logging? && CanCopy(L, s, s.phase.next, v1, v2)
    && var k, c := s.phase.next, CopyCache(L, s, s.phase.next, v1, v2);
    var lb, data := L.start + 1 + k, c[s.lh[k]].data;
    s' == s.(disk := s.disk[lb := data], cache := c[lb := c[lb].(data := data)], phase := Logging(k + 1))
  }

  predicate CanWriteHead(L: Layout, s: State, v: Option<nat>, lh: seq<nat>) {
    L.Ok() && |s.disk| == L.total && L.Listed(lh) && CanFetch(s.cache, L.start, v, L.start)
  }

  function WriteHead(L: Layout, s: State, v: Option<nat>, lh: seq<nat>, phase: Phase): (s': State)
    requires CanWriteHead(L, s, v, lh)
  {
    var c := Fetch(s.cache, s.disk, L.start, v);
    var h := EncodeHead(c[L.start].data, lh);
    s.(disk := s.disk[L.start := h], cache := c[L.start := c[L.start].(data := h)], lh := lh, phase := phase)
  }

  // the commit point: write_head with n > 0
  predicate CommitHeadStep(L: Layout, s: State, s': State, v: Option<nat>) {
    && s.phase.Logging? && s.phase.next == |s.lh| && s.lh != [] && CanWriteHead(L, s, v, s.lh)
    && s' == WriteHead(L, s, v, s.lh, Installing(0))
  }

  // one iteration of install_trans(0): copy home, write, bunpin
  predicate InstallStep(L: Layout, s: State, s': State, v1: Option<nat>, v2: Option<nat>) {
    && s.phase.Installing? && CanCopy(L, s, s.phase.next, v1, v2)
    && var k, c := s.phase.next, CopyCache(L, s, s.phase.next, v1, v2);
    var u, data := c[s.lh[k]], c[L.start + 1 + k].data;
    s' == s.(disk := s.disk[s.lh[k] := data],
             cache := c[s.lh[k] := u.(data := data, dirty := false, refcnt := u.refcnt - 1)],
             phase := Installing(k + 1))
  }

  // n = 0; write_head
  predicate ClearStep(L: Layout, s: State, s': State, v: Option<nat>) {
    && s.phase.Installing? && s.phase.next == |s.lh| && CanWriteHead(L, s, v, [])
    && s' == WriteHead(L, s, v, [], Cleared)
  }

  // commit with n == 0
  predicate CommitNothingStep(L: Layout, s: State, s': State) {
    s.phase == Logging(0) && s.lh == [] && s' == s.(phase := Cleared)
  }

  predicate FinishStep(L: Layout, s: State, s': State) {
    s.phase.Cleared? && s' == s.(committing := false, phase := Running)
  }

  // everything in memory is lost, at any moment
  predicate CrashStep(L: Layout, s: State, s': State) {
    s' == State(s.disk, map[], [], 0, false, map[], map[], Booting)
  }

  predicate ReadHeadStep(L: Layout, s: State, s': State, v: Option<nat>) {
    && s.phase.Booting? && CanWriteHead(L, s, v, [])
    && var c := Fetch(s.cache, s.disk, L.start, v);
    s' == s.(cache := c, lh := DecodeHead(c[L.start].data), phase := Replaying(0))
  }

  // one iteration of install_trans(1)
  predicate ReplayStep(L: Layout, s: State, s': State, v1: Option<nat>, v2: Option<nat>) {
    && s.phase.Replaying? && CanCopy(L, s, s.phase.next, v1, v2)
    && var k, c := s.phase.next, CopyCache(L, s, s.phase.next, v1, v2);
    var data := c[L.start + 1 + k].data;
    s' == s.(disk := s.disk[s.lh[k] := data], cache := c[s.lh[k] := c[s.lh[k]].(data := data)],
             phase := Replaying(k + 1))
  }

  predicate ReplayDoneStep(L: Layout, s: State, s': State, v: Option<nat>) {
    && s.phase.Replaying? && s.phase.next == |s.lh| && CanWriteHead(L, s, v, [])
    && s' == WriteHead(L, s, v, [], Running)
  }

  predicate Step(L: Layout, s: State, a: Action, s': State) {
    match a
    case Get(p, b) => GetStep(L, s, s', p, b)
    case GetMiss(p, b, victim) => GetMissStep(L, s, s', p, b, victim)
    case Lock(p, b) => LockStep(L, s, s', p, b)
    case Modify(p, b, data) => ModifyStep(L, s, s', p, b, data)
    case LogTest(p, b) => LogTestStep(L, s, s', p, b)
    case LogWrite(p, b) => LogWriteStep(L, s, s', p, b)
    case Release(p, b) => ReleaseStep(L, s, s', p, b)
    case Begin(p) => BeginStep(L, s, s', p)
    case End(p) => EndStep(L, s, s', p)
    case CopyToLog(v1, v2) => CopyToLogStep(L, s, s', v1, v2)
    case CommitHead(v) => CommitHeadStep(L, s, s', v)
    case Install(v1, v2) => InstallStep(L, s, s', v1, v2)
    case Clear(v) => ClearStep(L, s, s', v)
    case CommitNothing => CommitNothingStep(L, s, s')
    case Finish => FinishStep(L, s, s')
    case Crash => CrashStep(L, s, s')
    case ReadHead(v) => ReadHeadStep(L, s, s', v)
    case Replay(v1, v2) => ReplayStep(L, s, s', v1, v2)
    case ReplayDone(v) => ReplayDoneStep(L, s, s', v)
  }
}
