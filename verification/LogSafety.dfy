/** What every step of the log protocol keeps, and the refinement: on every run,
    crashes included, log plus cache behave as the atomic disk. */
module LogSafety {
  import opened Basics
  import opened Blocks
  import opened LogProtocol
  import Spec = AtomicDisk

  // ----- pins

  /** Log entries from this index on still hold their extra buffer reference. */
  function PinFrom(s: State): nat {
    match s.phase
    case Running => 0
    case Logging(_) => 0
    case Installing(k) => k
    case Cleared => |s.lh|
    case Booting => |s.lh|
    case Replaying(_) => |s.lh|
  }

  function Pins(s: State): set<nat> {
    set j | PinFrom(s) <= j < |s.lh| :: s.lh[j]
  }

  /** Cached blocks whose change never reached the log. */
  function Loose(s: State): set<nat> {
    set b | b in s.cache && s.cache[b].dirty && b !in Pins(s)
  }

  // ----- the cache invariant

  ghost predicate BufOk(L: Layout, b: nat, u: Buf, disk: seq<Block>, pins: set<nat>, up: bool)
    requires b < |disk|
  {
    && u.refcnt == |u.users| + (if b in pins then 1 else 0)
    && (u.holder.Some? ==> u.valid && u.holder.value in u.users)
    && (u.dirty ==> up && u.valid && L.Home(b))
    && (u.valid && !u.dirty && b !in pins ==> u.data == disk[b])
  }

  ghost predicate CacheOk(L: Layout, cache: map<nat, Buf>, disk: seq<Block>, pins: set<nat>, up: bool) {
    && L.Ok() && |disk| == L.total
    && |cache| <= NBUF
    && (forall b :: b in cache ==> b < L.total && BufOk(L, b, cache[b], disk, pins, up))
    && (forall b :: b in pins ==> b in cache && cache[b].valid)
  }

  /** What a bread of block b returns. */
  function LogicalAt(cache: map<nat, Buf>, disk: seq<Block>, b: nat): Block
    requires b < |disk|
  {
    if b in cache && cache[b].valid then cache[b].data else disk[b]
  }

  /** A recycled buffer is unpinned, and equal to its disk block unless it was
      changed and never logged. */
  lemma RecycledIsClean(L: Layout, cache: map<nat, Buf>, disk: seq<Block>, pins: set<nat>, up: bool, v: nat)
    requires CacheOk(L, cache, disk, pins, up)
    requires v in cache && cache[v].refcnt == 0
    ensures v !in pins && cache[v].users == {} && cache[v].holder == None
    ensures cache[v].valid && cache[v].data != disk[v] ==> cache[v].dirty
  {
    assert BufOk(L, v, cache[v], disk, pins, up);
  }

  lemma FetchSize(cache: map<nat, Buf>, disk: seq<Block>, b: nat, victim: Option<nat>, keep: nat)
    requires |cache| <= NBUF && b < |disk| && CanFetch(cache, b, victim, keep)
    ensures |Fetch(cache, disk, b, victim)| <= NBUF
  {
    var c := Fetch(cache, disk, b, victim);
    assert |c| == |c.Keys| && |cache| == |cache.Keys|;
    if b in cache {
      assert c.Keys == cache.Keys;
    } else if victim.Some? {
      assert c.Keys == cache.Keys - {victim.value} + {b};
    } else {
      assert c.Keys == cache.Keys + {b};
    }
  }

  lemma FetchBufs(L: Layout, cache: map<nat, Buf>, disk: seq<Block>, pins: set<nat>, up: bool,
                  b: nat, victim: Option<nat>, keep: nat)
    requires CacheOk(L, cache, disk, pins, up) && b < L.total && CanFetch(cache, b, victim, keep)
    ensures CacheOk(L, Fetch(cache, disk, b, victim), disk, pins, up)
  {
    FetchSize(cache, disk, b, victim, keep);
    var c := Fetch(cache, disk, b, victim);
    if b !in cache && victim.Some? { RecycledIsClean(L, cache, disk, pins, up, victim.value); }
    forall x | x in c ensures x < L.total && BufOk(L, x, c[x], disk, pins, up) {
      if x in cache { assert BufOk(L, x, cache[x], disk, pins, up); }
    }
  }

  /** From cache to c, some buffers were recycled and some filled; the rest hold
      what they held. */
  ghost predicate Shifted(L: Layout, cache: map<nat, Buf>, c: map<nat, Buf>, disk: seq<Block>)
    requires |disk| == L.total
  {
    && (forall x: nat :: x < L.total ==>
          LogicalAt(c, disk, x) == if x in cache && x !in c then disk[x] else LogicalAt(cache, disk, x))
    && (forall x :: x in c ==> (c[x].dirty <==> x in cache && cache[x].dirty))
  }

  lemma ShiftedTrans(L: Layout, a: map<nat, Buf>, b: map<nat, Buf>, c: map<nat, Buf>, disk: seq<Block>)
    requires |disk| == L.total && Shifted(L, a, b, disk) && Shifted(L, b, c, disk)
    requires forall x :: x in a && x !in b ==> x !in c
    ensures Shifted(L, a, c, disk)
  {
    forall x: nat | x < L.total
      ensures LogicalAt(c, disk, x) == if x in a && x !in c then disk[x] else LogicalAt(a, disk, x)
    {
      assert LogicalAt(b, disk, x) == if x in a && x !in b then disk[x] else LogicalAt(a, disk, x);
    }
  }

  lemma FetchShifts(L: Layout, cache: map<nat, Buf>, disk: seq<Block>, pins: set<nat>, up: bool,
                    b: nat, victim: Option<nat>, keep: nat)
    requires CacheOk(L, cache, disk, pins, up) && b < L.total && CanFetch(cache, b, victim, keep)
    ensures Shifted(L, cache, Fetch(cache, disk, b, victim), disk)
  {
    if b in cache { assert BufOk(L, b, cache[b], disk, pins, up); }
  }

  /** bread by the log code: the cache stays coherent, nothing a bread would
      return changes but for recycled buffers, and the buffer holds what it should. */
  lemma FetchKeeps(L: Layout, cache: map<nat, Buf>, disk: seq<Block>, pins: set<nat>, up: bool,
                   b: nat, victim: Option<nat>, keep: nat)
    requires CacheOk(L, cache, disk, pins, up) && b < L.total && CanFetch(cache, b, victim, keep)
    ensures var c := Fetch(cache, disk, b, victim);
      && CacheOk(L, c, disk, pins, up)
      && c[b].holder == None
      && c[b].data == LogicalAt(cache, disk, b)
      && (forall x :: x in c && x != b ==> x in cache && c[x] == cache[x])
      && (forall x :: x in pins ==> x in c)
      && (keep in cache ==> keep in c)
      && Shifted(L, cache, c, disk)
  {
    FetchBufs(L, cache, disk, pins, up, b, victim, keep);
    FetchShifts(L, cache, disk, pins, up, b, victim, keep);
    if b in cache { assert BufOk(L, b, cache[b], disk, pins, up); }
  }

  /** Writing an unpinned buffer through to disk keeps the cache coherent. */
  lemma WriteThroughKeeps(L: Layout, c: map<nat, Buf>, disk: seq<Block>, pins: set<nat>, up: bool, b: nat, v: Block)
    requires CacheOk(L, c, disk, pins, up) && b in c && b !in pins
    ensures CacheOk(L, c[b := c[b].(data := v)], disk[b := v], pins, up)
  {
    var c' := c[b := c[b].(data := v)];
    var disk' := disk[b := v];
    assert c'.Keys == c.Keys;
    assert |c'| == |c'.Keys| && |c| == |c.Keys|;
    forall x | x in c' ensures x < L.total && BufOk(L, x, c'[x], disk', pins, up) {
      assert BufOk(L, x, c[x], disk, pins, up);
    }
  }

  /** install_trans writes the pinned buffer and drops the pin. */
  lemma UnpinKeeps(L: Layout, c: map<nat, Buf>, disk: seq<Block>, pins: set<nat>, up: bool, b: nat, v: Block)
    requires CacheOk(L, c, disk, pins, up) && b in c && b in pins
    ensures CacheOk(L, c[b := c[b].(data := v, dirty := false, refcnt := c[b].refcnt - 1)], disk[b := v], pins - {b},
      up)
  {
    var c' := c[b := c[b].(data := v, dirty := false, refcnt := c[b].refcnt - 1)];
    var disk' := disk[b := v];
    assert c'.Keys == c.Keys;
    assert |c'| == |c'.Keys| && |c| == |c.Keys|;
    forall x | x in c' ensures x < L.total && BufOk(L, x, c'[x], disk', pins - {b}, up) {
      assert BufOk(L, x, c[x], disk, pins, up);
    }
  }

  /** One buffer changes, its own invariant kept. */
  lemma UpdateKeeps(L: Layout, c: map<nat, Buf>, disk: seq<Block>, pins: set<nat>, up: bool, pins': set<nat>, b: nat,
      u: Buf)
    requires CacheOk(L, c, disk, pins, up) && b in c
    requires pins' == pins || pins' == pins + {b}
    requires u.valid || b !in pins'
    requires BufOk(L, b, u, disk, pins', up)
    ensures CacheOk(L, c[b := u], disk, pins', up)
  {
    var c' := c[b := u];
    assert c'.Keys == c.Keys;
    assert |c'| == |c'.Keys| && |c| == |c.Keys|;
    forall x | x in c' ensures x < L.total && BufOk(L, x, c'[x], disk, pins', up) {
      if x != b { assert BufOk(L, x, c[x], disk, pins, up); }
    }
  }

  // ----- log space

  /** Log blocks reserved by open operations and not yet used. */
  ghost function Unused(ops: map<Pid, nat>): int {
    if ops == map[] then 0 else
      var p :| p in ops;
      MAXOPBLOCKS - ops[p] + Unused(ops - {p})
  }

  lemma {:induction false} UnusedRemove(ops: map<Pid, nat>, p: Pid)
    requires p in ops
    ensures Unused(ops) == MAXOPBLOCKS - ops[p] + Unused(ops - {p})
    decreases |ops|
  {
    var q :| q in ops && Unused(ops) == MAXOPBLOCKS - ops[q] + Unused(ops - {q});
    if p != q {
      assert |ops - {q}| < |ops| && |ops - {p}| < |ops|;
      UnusedRemove(ops - {q}, p);
      UnusedRemove(ops - {p}, q);
      assert ops - {q} - {p} == ops - {p} - {q};
    }
  }

  lemma UnusedUpdate(ops: map<Pid, nat>, p: Pid, n: nat)
    ensures Unused(ops[p := n]) == MAXOPBLOCKS - n + Unused(ops - {p})
  {
    UnusedRemove(ops[p := n], p);
    assert ops[p := n] - {p} == ops - {p};
  }

  lemma {:induction false} UnusedBounds(ops: map<Pid, nat>)
    requires forall p :: p in ops ==> ops[p] <= MAXOPBLOCKS
    ensures 0 <= Unused(ops) <= MAXOPBLOCKS * |ops|
    decreases |ops|
  {
    if ops != map[] {
      var p :| p in ops;
      UnusedRemove(ops, p);
      assert |ops - {p}| == |ops| - 1;
      UnusedBounds(ops - {p});
    }
  }

  ghost predicate OpsInv(s: State) {
    && s.outstanding == |s.ops|
    && (s.committing <==> s.phase.Logging? || s.phase.Installing? || s.phase.Cleared?)
    && (!s.phase.Running? ==> s.ops == map[])
    && (s.ops == map[] && (s.phase.Running? || s.phase.Cleared?) ==> s.lh == [])
    && s.tested.Keys <= s.ops.Keys
    && (forall p :: p in s.ops ==> s.ops[p] <= MAXOPBLOCKS)
    && |s.lh| + Unused(s.ops) <= LOGSIZE
  }

  /** What holds whatever the size of the log area: the reservation, and a
      header, in memory and on disk, that lists distinct home blocks. */
  ghost predicate SpaceInv(L: Layout, s: State) {
    && L.Ok() && |s.disk| == L.total
    && OpsInv(s)
    && L.Listed(s.lh) && L.Listed(DecodeHead(s.disk[L.start]))
    && (s.phase.Booting? ==> s.lh == [] && s.cache == map[])
    && (L.size == 1 ==> s.lh == [] && s.tested == map[] && DecodeHead(s.disk[L.start]) == [])
  }

  lemma CacheSpace(L: Layout, s: State, s': State)
    requires SpaceInv(L, s) && s' == s.(cache := s'.cache) && Up(s)
    ensures SpaceInv(L, s')
  {
    hide DecodeHead, Unused;
  }

  lemma LogTestSpace(L: Layout, s: State, s': State, p: Pid, b: nat)
    requires SpaceInv(L, s) && LogTestStep(L, s, s', p, b)
    ensures SpaceInv(L, s')
  {
    hide DecodeHead, Unused;
  }

  lemma LogWriteOps(L: Layout, s: State, s': State, p: Pid, b: nat)
    requires OpsInv(s) && LogWriteStep(L, s, s', p, b)
    ensures OpsInv(s') && s.phase.Running? && |s'.lh| <= LOGSIZE
  {
    hide Unused;
    assert s.ops != map[];
    UnusedRemove(s.ops, p);
    UnusedBounds(s.ops - {p});
    if b !in s.lh {
      UnusedUpdate(s.ops, p, s.ops[p] + 1);
      assert s'.ops.Keys == s.ops.Keys;
      assert |s'.ops| == |s'.ops.Keys| && |s.ops| == |s.ops.Keys|;
    }
  }

  lemma LogWriteSpace(L: Layout, s: State, s': State, p: Pid, b: nat)
    requires SpaceInv(L, s) && LogWriteStep(L, s, s', p, b)
    ensures SpaceInv(L, s') && s.phase.Running?
  {
    LogWriteOps(L, s, s', p, b);
    hide DecodeHead, OpsInv;
  }

  lemma BeginUnused(ops: map<Pid, nat>, p: Pid)
    requires p !in ops && forall q :: q in ops ==> ops[q] <= MAXOPBLOCKS
    ensures Unused(ops[p := 0]) <= MAXOPBLOCKS * (|ops| + 1)
  {
    UnusedUpdate(ops, p, 0);
    assert ops - {p} == ops;
    UnusedBounds(ops);
  }

  lemma MapSize(ops: map<Pid, nat>, p: Pid)
    requires p !in ops
    ensures |ops[p := 0]| == |ops| + 1
  {
    assert ops[p := 0].Keys == ops.Keys + {p};
    assert |ops[p := 0]| == |ops[p := 0].Keys| && |ops| == |ops.Keys|;
  }

  lemma BeginOps(L: Layout, s: State, s': State, p: Pid)
    requires OpsInv(s) && BeginStep(L, s, s', p)
    ensures OpsInv(s') && s.phase.Running?
  {
    hide Unused;
    BeginUnused(s.ops, p);
    MapSize(s.ops, p);
  }

  lemma BeginSpace(L: Layout, s: State, s': State, p: Pid)
    requires SpaceInv(L, s) && BeginStep(L, s, s', p)
    ensures SpaceInv(L, s') && s.phase.Running?
  {
    BeginOps(L, s, s', p);
    hide DecodeHead, OpsInv;
  }

  lemma EndOps(L: Layout, s: State, s': State, p: Pid)
    requires OpsInv(s) && EndStep(L, s, s', p)
    ensures OpsInv(s') && s.phase.Running? && !s.committing
  {
    hide Unused;
    UnusedRemove(s.ops, p);
    assert s'.ops.Keys == s.ops.Keys - {p};
    assert |s'.ops| == |s'.ops.Keys| && |s.ops| == |s.ops.Keys|;
    assert s'.outstanding == 0 ==> s'.ops.Keys == {};
  }

  lemma EndSpace(L: Layout, s: State, s': State, p: Pid)
    requires SpaceInv(L, s) && EndStep(L, s, s', p)
    ensures SpaceInv(L, s') && s.phase.Running? && !s.committing
  {
    EndOps(L, s, s', p);
    hide DecodeHead, OpsInv;
  }

  lemma CopySpace(L: Layout, s: State, s': State, v1: Option<nat>, v2: Option<nat>)
    requires SpaceInv(L, s)
    requires CopyToLogStep(L, s, s', v1, v2) || InstallStep(L, s, s', v1, v2) || ReplayStep(L, s, s', v1, v2)
    ensures SpaceInv(L, s')
  {
    hide DecodeHead, Unused, Fetch, CanFetch, CopyCache;
  }

  lemma HeadSpace(L: Layout, s: State, s': State, v: Option<nat>)
    requires SpaceInv(L, s)
    requires CommitHeadStep(L, s, s', v) || ClearStep(L, s, s', v) || ReplayDoneStep(L, s, s', v)
    ensures SpaceInv(L, s')
  {
    hide DecodeHead, Unused, Fetch, CanFetch, EncodeHead;
    HeadRoundTrip(Fetch(s.cache, s.disk, L.start, v)[L.start].data, s'.lh);
  }

  lemma PhaseSpace(L: Layout, s: State, s': State)
    requires SpaceInv(L, s) && (CommitNothingStep(L, s, s') || FinishStep(L, s, s') || CrashStep(L, s, s'))
    ensures SpaceInv(L, s')
  {
    hide DecodeHead;
  }

  lemma ReadHeadSpace(L: Layout, s: State, s': State, v: Option<nat>)
    requires SpaceInv(L, s) && ReadHeadStep(L, s, s', v)
    ensures SpaceInv(L, s')
  {
    hide DecodeHead;
  }

  // ----- the log on disk

  ghost predicate HeadInv(L: Layout, s: State)
    requires L.Ok() && |s.disk| == L.total
  {
    var d := DecodeHead(s.disk[L.start]);
    match s.phase
    case Running => d == []
    case Logging(_) => d == []
    case Installing(_) => d == s.lh && L.HeadFits(d)
    case Cleared => d == []
    case Booting => L.HeadFits(d)
    case Replaying(_) => d == s.lh && L.HeadFits(d)
  }

  /** Copies made so far: log blocks agree with the pinned buffers, installed
      home blocks agree with their log blocks. */
  ghost predicate CopyInv(L: Layout, s: State)
    requires L.Ok() && |s.disk| == L.total && L.Listed(s.lh)
    requires forall b :: b in Pins(s) ==> b in s.cache
  {
    match s.phase
    case Logging(k) =>
      && k <= |s.lh| && k < L.size && (|s.lh| == LOGSIZE ==> k == 0)
      && (forall j :: 0 <= j < k ==> s.lh[j] in s.cache && s.disk[L.start + 1 + j] == s.cache[s.lh[j]].data)
    case Installing(k) =>
      && k <= |s.lh| < L.size
      && (forall j :: 0 <= j < k ==> s.disk[s.lh[j]] == s.disk[L.start + 1 + j])
      && (forall j :: k <= j < |s.lh| ==> s.lh[j] in s.cache && s.disk[L.start + 1 + j] == s.cache[s.lh[j]].data)
    case Replaying(k) =>
      k <= |s.lh| < L.size && forall j :: 0 <= j < k ==> s.disk[s.lh[j]] == s.disk[L.start + 1 + j]
    case _ => true
  }

  ghost predicate Inv(L: Layout, s: State) {
    && SpaceInv(L, s)
    && CacheOk(L, s.cache, s.disk, Pins(s), Up(s))
    && HeadInv(L, s)
    && CopyInv(L, s)
  }

  lemma InvShape(L: Layout, s: State)
    requires Inv(L, s)
    ensures L.Ok() && |s.disk| == L.total && L.Listed(s.lh) && SpaceInv(L, s)
    ensures CacheOk(L, s.cache, s.disk, Pins(s), Up(s)) && HeadInv(L, s) && CopyInv(L, s)
    ensures s.phase.Booting? ==> L.HeadFits(DecodeHead(s.disk[L.start]))
    ensures s.phase.Installing? || s.phase.Replaying? ==> L.HeadFits(s.lh)
  {
  }

  // ----- the two views

  function IndexOf(h: seq<nat>, b: nat): (i: nat)
    requires b in h
    ensures i < |h| && h[i] == b
  {
    if h[0] == b then 0 else 1 + IndexOf(h[1..], b)
  }

  /** Block b as recovery would leave it: the logged copy if the header on
      disk names b, the home block otherwise. */
  function RecoveredAt(L: Layout, disk: seq<Block>, b: nat): Block
    requires L.Ok() && |disk| == L.total && b < L.total
  {
    var h := DecodeHead(disk[L.start]);
    if L.HeadFits(h) && b in h then disk[L.start + 1 + IndexOf(h, b)] else disk[b]
  }

  function CurrentAt(L: Layout, s: State, b: nat): Block
    requires L.Ok() && |s.disk| == L.total && b < L.total
  {
    if Up(s) then LogicalAt(s.cache, s.disk, b) else RecoveredAt(L, s.disk, b)
  }

  function Abs(L: Layout, s: State): (d: Spec.Disk)
    requires L.Ok() && |s.disk| == L.total
  {
    Spec.Disk(map b: nat | b < L.total && L.Home(b) :: RecoveredAt(L, s.disk, b),
              map b: nat | b < L.total && L.Home(b) :: CurrentAt(L, s, b),
              Pins(s), Loose(s))
  }

  lemma AbsSame(L: Layout, s: State, s': State)
    requires L.Ok() && |s.disk| == |s'.disk| == L.total && Pins(s') == Pins(s) && Loose(s') == Loose(s)
    requires forall b: nat :: L.Home(b) ==> RecoveredAt(L, s'.disk, b) == RecoveredAt(L, s.disk, b)
    requires forall b: nat :: L.Home(b) ==> CurrentAt(L, s', b) == CurrentAt(L, s, b)
    ensures Abs(L, s') == Abs(L, s)
  {
    hide RecoveredAt, CurrentAt, Pins, Loose;
  }

  /** Blocks that the step took out of the cache. */
  function Gone(s: State, s': State): set<nat> { s.cache.Keys - s'.cache.Keys }

  /** The two views after buffers were recycled. */
  lemma AbsLose(L: Layout, s: State, s': State)
    requires L.Ok() && |s.disk| == |s'.disk| == L.total && Pins(s') == Pins(s) && Loose(s') == Loose(s) - Gone(s, s')
    requires forall b: nat :: L.Home(b) ==> RecoveredAt(L, s'.disk, b) == RecoveredAt(L, s.disk, b)
    requires forall b: nat :: L.Home(b) ==>
      CurrentAt(L, s', b) == if b in Gone(s, s') && b in Loose(s) then RecoveredAt(L, s.disk, b) else CurrentAt(L, s, b)
    ensures Abs(L, s') == Spec.Lose(Abs(L, s), Gone(s, s'))
  {
    hide RecoveredAt, CurrentAt, Pins, Loose, Gone;
  }

  lemma LoseNone(d: Spec.Disk)
    ensures Spec.Lose(d, {}) == d
  {
  }

  /** Up and not awaiting installation, a home block on disk is what recovery would leave. */
  lemma UnpinnedRecovered(L: Layout, s: State, b: nat)
    requires Inv(L, s) && Up(s) && L.Home(b) && b !in Pins(s)
    ensures RecoveredAt(L, s.disk, b) == s.disk[b]
  {
    hide DecodeHead, Unused, BufOk;
    if s.phase.Installing? && b in s.lh {
      var j := IndexOf(s.lh, b);
      assert j < s.phase.next;
    }
  }

  /** A block neither logged nor loose is the same in cache and on disk. */
  lemma TightClean(L: Layout, s: State, b: nat)
    requires CacheOk(L, s.cache, s.disk, Pins(s), Up(s)) && b < L.total && b !in Pins(s) && b !in Loose(s)
    ensures LogicalAt(s.cache, s.disk, b) == s.disk[b]
  {
    if b in s.cache { assert BufOk(L, b, s.cache[b], s.disk, Pins(s), Up(s)); }
  }

  /** A shift of the cache is a loss of the recycled loose blocks, and nothing else. */
  lemma ShiftLoses(L: Layout, s: State, s': State)
    requires Inv(L, s) && Up(s) && Up(s') && |s'.disk| == L.total && Pins(s') == Pins(s)
    requires Loose(s') == Loose(s) - Gone(s, s')
    requires forall b :: b in Pins(s) ==> b in s'.cache
    requires forall b: nat :: L.Home(b) ==> RecoveredAt(L, s'.disk, b) == RecoveredAt(L, s.disk, b)
    requires forall b: nat :: L.Home(b) ==>
      LogicalAt(s'.cache, s'.disk, b) == if b in Gone(s, s') then s.disk[b] else LogicalAt(s.cache, s.disk, b)
    ensures Abs(L, s') == Spec.Lose(Abs(L, s), Gone(s, s'))
  {
    hide SpaceInv, HeadInv, CopyInv, RecoveredAt, Pins, Loose, LogicalAt;
    assert L.Ok() && |s.disk| == L.total;
    forall b: nat | L.Home(b)
      ensures CurrentAt(L, s', b) == if b in Gone(s, s') && b in Loose(s) then RecoveredAt(L, s.disk, b)
        else CurrentAt(L, s, b)
    {
      if b in Gone(s, s') {
        UnpinnedRecovered(L, s, b);
        if b !in Loose(s) { TightClean(L, s, b); }
      }
    }
    AbsLose(L, s, s');
  }

  // ----- steps on one buffer

  lemma CopiesStay(L: Layout, s: State, s': State)
    requires Inv(L, s) && s' == s.(cache := s'.cache)
    requires Up(s) && CacheOk(L, s'.cache, s.disk, Pins(s), true) && Shifted(L, s.cache, s'.cache, s.disk)
    ensures Pins(s') == Pins(s) && CopyInv(L, s')
  {
    hide Inv, HeadInv, SpaceInv, CacheOk, Shifted, LogicalAt;
    InvShape(L, s);
    assert Pins(s') == Pins(s);
    forall b | b in Pins(s)
      ensures b in s'.cache && b in s.cache && s'.cache[b].data == s.cache[b].data { PinStays(L, s, s', b); }
    assert forall j :: PinFrom(s) <= j < |s.lh| ==> s.lh[j] in Pins(s);
  }

  lemma PinStays(L: Layout, s: State, s': State, b: nat)
    requires |s.disk| == L.total && CacheOk(L, s.cache, s.disk, Pins(s), true)
    requires CacheOk(L, s'.cache, s.disk, Pins(s), true) && Shifted(L, s.cache, s'.cache, s.disk) && b in Pins(s)
    ensures b in s'.cache && b in s.cache && s'.cache[b].data == s.cache[b].data
  {
    hide Pins, BufOk;
    assert LogicalAt(s'.cache, s.disk, b) == LogicalAt(s.cache, s.disk, b);
  }

  /** A step that only moves blocks in and out of the cache. */
  lemma ShiftKeeps(L: Layout, s: State, s': State)
    requires Inv(L, s) && Up(s) && s' == s.(cache := s'.cache)
    requires CacheOk(L, s'.cache, s.disk, Pins(s), true) && Shifted(L, s.cache, s'.cache, s.disk)
    ensures Inv(L, s') && Abs(L, s') == Spec.Lose(Abs(L, s), Gone(s, s'))
  {
    CacheSpace(L, s, s');
    CopiesStay(L, s, s');
    hide SpaceInv, CopyInv, DecodeHead, RecoveredAt, BufOk;
    assert Loose(s') == Loose(s) - Gone(s, s') by { assert Pins(s') == Pins(s); hide Pins; }
    assert HeadInv(L, s');
    ShiftLoses(L, s, s');
  }

  /** A step that changes nothing a bread returns. */
  lemma QuietKeeps(L: Layout, s: State, s': State)
    requires Inv(L, s) && Up(s) && s' == s.(cache := s'.cache) && s'.cache.Keys == s.cache.Keys
    requires CacheOk(L, s'.cache, s.disk, Pins(s), true) && Shifted(L, s.cache, s'.cache, s.disk)
    ensures Inv(L, s') && Abs(L, s') == Abs(L, s)
  {
    hide Inv, Abs, CacheOk, Shifted;
    assert L.Ok() && |s.disk| == L.total by { InvShape(L, s); }
    ShiftKeeps(L, s, s');
    assert Gone(s, s') == {};
    LoseNone(Abs(L, s));
  }

  lemma GetKeeps(L: Layout, s: State, s': State, p: Pid, b: nat)
    requires Inv(L, s) && GetStep(L, s, s', p, b)
    ensures Inv(L, s') && Abs(L, s') == Abs(L, s)
  {
    hide Inv, HeadInv, CopyInv, SpaceInv, Abs, Pins;
    InvShape(L, s);
    assert BufOk(L, b, s.cache[b], s.disk, Pins(s), true);
    UpdateKeeps(L, s.cache, s.disk, Pins(s), true, Pins(s), b, s'.cache[b]);
    QuietKeeps(L, s, s');
  }

  lemma GetMissCache(L: Layout, cache: map<nat, Buf>, disk: seq<Block>, pins: set<nat>,
                     p: Pid, b: nat, victim: Option<nat>)
    requires CacheOk(L, cache, disk, pins, true) && b < L.total && b !in cache && CanFetch(cache, b, victim, b)
    ensures var c := Recycle(cache, victim)[b := Buf(disk[b], false, false, 1, {p}, None)];
      CacheOk(L, c, disk, pins, true) && Shifted(L, cache, c, disk)
  {
    var c := Fetch(cache, disk, b, victim);
    var u := Buf(disk[b], false, false, 1, {p}, None);
    assert Recycle(cache, victim)[b := u] == c[b := u];
    assert b !in pins && c[b] == Buf(disk[b], true, false, 0, {}, None);
    hide Fetch, Recycle, CanFetch, Shifted, LogicalAt;
    FetchKeeps(L, cache, disk, pins, true, b, victim, b);
    UpdateKeeps(L, c, disk, pins, true, pins, b, u);
    hide CacheOk;
    InvalidShifted(L, cache, c, disk, b, u);
  }

  lemma InvalidShifted(L: Layout, cache: map<nat, Buf>, c: map<nat, Buf>, disk: seq<Block>, b: nat, u: Buf)
    requires |disk| == L.total && b < L.total && Shifted(L, cache, c, disk) && b in c && b !in cache
    requires c[b].data == disk[b] && !u.valid && !u.dirty
    ensures Shifted(L, cache, c[b := u], disk)
  {
  }

  lemma GetMissKeeps(L: Layout, s: State, s': State, p: Pid, b: nat, victim: Option<nat>)
    requires Inv(L, s) && GetMissStep(L, s, s', p, b, victim)
    ensures Inv(L, s') && Abs(L, s') == Spec.Lose(Abs(L, s), Gone(s, s'))
  {
    hide HeadInv, CopyInv, SpaceInv, Abs, CanFetch, Recycle, Shifted, BufOk, Gone;
    GetMissCache(L, s.cache, s.disk, Pins(s), p, b, victim);
    ShiftKeeps(L, s, s');
  }

  /** bread hands its caller the current content of the block. */
  lemma LockKeeps(L: Layout, s: State, s': State, p: Pid, b: nat)
    requires Inv(L, s) && LockStep(L, s, s', p, b)
    ensures Inv(L, s') && Abs(L, s') == Abs(L, s)
    ensures s'.cache[b].holder == Some(p) && s'.cache[b].data == CurrentAt(L, s, b)
  {
    hide Inv, HeadInv, CopyInv, SpaceInv, Abs, Pins;
    InvShape(L, s);
    assert BufOk(L, b, s.cache[b], s.disk, Pins(s), true);
    UpdateKeeps(L, s.cache, s.disk, Pins(s), true, Pins(s), b, s'.cache[b]);
    QuietKeeps(L, s, s');
  }

  /** brelse changes neither view, also when the buffer was changed and not logged. */
  lemma ReleaseKeeps(L: Layout, s: State, s': State, p: Pid, b: nat)
    requires Inv(L, s) && ReleaseStep(L, s, s', p, b)
    ensures Inv(L, s') && Abs(L, s') == Abs(L, s)
  {
    hide Inv, HeadInv, CopyInv, SpaceInv, Abs, Pins;
    InvShape(L, s);
    assert BufOk(L, b, s.cache[b], s.disk, Pins(s), true);
    UpdateKeeps(L, s.cache, s.disk, Pins(s), true, Pins(s), b, s'.cache[b]);
    QuietKeeps(L, s, s');
  }

  // ----- steps of an operation

  lemma ModifyCache(L: Layout, s: State, s': State, p: Pid, b: nat, data: Block)
    requires CacheOk(L, s.cache, s.disk, Pins(s), true) && ModifyStep(L, s, s', p, b, data)
    ensures Pins(s') == Pins(s) && CacheOk(L, s'.cache, s'.disk, Pins(s'), true)
  {
    hide Pins;
    SamePins(s, s');
    assert BufOk(L, b, s.cache[b], s.disk, Pins(s), true);
    UpdateKeeps(L, s.cache, s.disk, Pins(s), true, Pins(s), b, s'.cache[b]);
  }

  lemma ModifyViews(L: Layout, s: State, s': State, p: Pid, b: nat, data: Block)
    requires CacheOk(L, s.cache, s.disk, Pins(s), true) && ModifyStep(L, s, s', p, b, data)
    ensures Pins(s') == Pins(s) && Loose(s') == if b in Pins(s) then Loose(s) else Loose(s) + {b}
    ensures forall x: nat :: L.Home(x) ==> CurrentAt(L, s', x) == if x == b then data else CurrentAt(L, s, x)
  {
    hide Pins, RecoveredAt;
    SamePins(s, s');
    assert BufOk(L, b, s.cache[b], s.disk, Pins(s), true);
  }

  lemma ModifyInv(L: Layout, s: State, s': State, p: Pid, b: nat, data: Block)
    requires Inv(L, s) && ModifyStep(L, s, s', p, b, data)
    ensures Inv(L, s')
  {
    hide Inv, SpaceInv, CacheOk, Pins, DecodeHead, LogicalAt;
    InvShape(L, s);
    CacheSpace(L, s, s');
    OpenIsRunning(L, s, p);
    ModifyCache(L, s, s', p, b, data);
    PinsCached(L, s');
    MakeInv(L, s');
  }

  /** Changing a held buffer is a write of the current view, and of nothing else. */
  lemma ModifyKeeps(L: Layout, s: State, s': State, p: Pid, b: nat, data: Block)
    requires Inv(L, s) && ModifyStep(L, s, s', p, b, data)
    ensures Inv(L, s') && Spec.Write(Abs(L, s), Abs(L, s'), b, data)
  {
    hide Inv, HeadInv, CopyInv, SpaceInv, RecoveredAt, CurrentAt, CacheOk, Pins, Loose;
    InvShape(L, s);
    ModifyInv(L, s, s', p, b, data);
    ModifyViews(L, s, s', p, b, data);
    assert Abs(L, s').current == Abs(L, s).current[b := data];
  }

  lemma SamePins(s: State, s': State)
    requires s'.lh == s.lh && PinFrom(s') == PinFrom(s)
    ensures Pins(s') == Pins(s)
  {
  }

  lemma MakeInv(L: Layout, s: State)
    requires SpaceInv(L, s) && L.Ok() && |s.disk| == L.total && L.Listed(s.lh)
    requires CacheOk(L, s.cache, s.disk, Pins(s), Up(s)) && HeadInv(L, s)
    requires forall b :: b in Pins(s) ==> b in s.cache
    requires CopyInv(L, s)
    ensures Inv(L, s)
  {
  }

  lemma OpenIsRunning(L: Layout, s: State, p: Pid)
    requires SpaceInv(L, s) && p in s.ops
    ensures s.phase.Running? && !s.committing
  {
    hide DecodeHead, Unused;
    assert s.ops != map[];
  }

  /** The test reads the list length and changes nothing but the process's own progress. */
  lemma LogTestKeeps(L: Layout, s: State, s': State, p: Pid, b: nat)
    requires Inv(L, s) && LogTestStep(L, s, s', p, b)
    ensures Inv(L, s') && Abs(L, s') == Abs(L, s)
  {
    LogTestSpace(L, s, s', p, b);
    hide DecodeHead, SpaceInv, BufOk, RecoveredAt;
    assert Pins(s') == Pins(s);
    assert Loose(s') == Loose(s);
    AbsSame(L, s, s');
  }

  lemma LogWriteKeeps(L: Layout, s: State, s': State, p: Pid, b: nat)
    requires Inv(L, s) && LogWriteStep(L, s, s', p, b)
    ensures Inv(L, s') && Spec.Log(Abs(L, s), Abs(L, s'), b)
  {
    hide Inv, SpaceInv, HeadInv, CopyInv, DecodeHead, CacheOk, Pins, Abs, RecoveredAt;
    InvShape(L, s);
    LogWritePins(L, s, s', p, b);
    LogWriteCache(L, s, s', p, b);
    assert Loose(s') == Loose(s) - {b};
    forall x: nat | L.Home(x) ensures CurrentAt(L, s', x) == CurrentAt(L, s, x) {}
    LogAbs(L, s, s', b);
  }

  lemma LogAbs(L: Layout, s: State, s': State, b: nat)
    requires L.Ok() && |s.disk| == L.total && s'.disk == s.disk
    requires Pins(s') == Pins(s) + {b} && Loose(s') == Loose(s) - {b}
    requires forall x: nat :: L.Home(x) ==> CurrentAt(L, s', x) == CurrentAt(L, s, x)
    ensures Spec.Log(Abs(L, s), Abs(L, s'), b)
  {
    hide CurrentAt, RecoveredAt, Pins, Loose;
    assert Abs(L, s').current == Abs(L, s).current;
  }

  lemma LogWriteCache(L: Layout, s: State, s': State, p: Pid, b: nat)
    requires Inv(L, s) && LogWriteStep(L, s, s', p, b)
    ensures Inv(L, s')
  {
    hide Inv, SpaceInv, DecodeHead, Pins, LogicalAt;
    InvShape(L, s);
    LogWriteSpace(L, s, s', p, b);
    LogWritePins(L, s, s', p, b);
    ListedSnoc(L, s, s', p, b);
    assert BufOk(L, b, s.cache[b], s.disk, Pins(s), true);
    UpdateKeeps(L, s.cache, s.disk, Pins(s), true, Pins(s'), b, s'.cache[b]);
    MakeInv(L, s');
  }

  lemma ListedSnoc(L: Layout, s: State, s': State, p: Pid, b: nat)
    requires SpaceInv(L, s) && LogWriteStep(L, s, s', p, b)
    ensures L.Listed(s'.lh)
  {
    LogWriteSpace(L, s, s', p, b);
  }

  lemma LogWritePins(L: Layout, s: State, s': State, p: Pid, b: nat)
    requires Inv(L, s) && LogWriteStep(L, s, s', p, b)
    ensures Pins(s') == Pins(s) + {b}
    ensures b in s.lh <==> b in Pins(s)
  {
    assert s.phase.Running? by { OpenIsRunning(L, s, p); }
    if b in s.lh {
      var j :| 0 <= j < |s.lh| && s.lh[j] == b;
      assert s'.lh[j] in Pins(s') && s.lh[j] in Pins(s);
    } else {
      assert s'.lh[|s.lh|] in Pins(s');
      forall x | x in Pins(s) ensures x in Pins(s') {
        var j :| 0 <= j < |s.lh| && s.lh[j] == x;
        assert s'.lh[j] == x;
      }
    }
  }

  /** Only the bookkeeping of open operations changes. */
  lemma OpsChangeKeeps(L: Layout, s: State, s': State)
    requires Inv(L, s) && s.phase.Running? && (s'.phase.Running? || s'.phase == Logging(0))
    requires s'.disk == s.disk && s'.cache == s.cache && s'.lh == s.lh
    requires SpaceInv(L, s')
    ensures Inv(L, s') && Abs(L, s') == Abs(L, s)
  {
    hide DecodeHead, RecoveredAt, OpsInv, BufOk;
    assert Pins(s') == Pins(s);
    assert Loose(s') == Loose(s);
    AbsSame(L, s, s');
  }

  lemma BeginKeeps(L: Layout, s: State, s': State, p: Pid)
    requires Inv(L, s) && BeginStep(L, s, s', p)
    ensures Inv(L, s') && Abs(L, s') == Abs(L, s)
  {
    BeginSpace(L, s, s', p);
    hide SpaceInv, CacheOk, HeadInv, CopyInv, Abs;
    OpsChangeKeeps(L, s, s');
  }

  /** The last end_op starts the commit; `Log.committing` cannot be set then. */
  lemma EndKeeps(L: Layout, s: State, s': State, p: Pid)
    requires Inv(L, s) && EndStep(L, s, s', p)
    ensures Inv(L, s') && Abs(L, s') == Abs(L, s)
    ensures !s.committing
  {
    EndSpace(L, s, s', p);
    hide SpaceInv, CacheOk, HeadInv, CopyInv, Abs;
    OpsChangeKeeps(L, s, s');
  }

  // ----- how large the log area must be

  ghost predicate Distinct(h: seq<nat>) { forall i, j :: 0 <= i < j < |h| ==> h[i] != h[j] }

  lemma {:induction false} DistinctSize(lh: seq<nat>, elems: set<nat>)
    requires Distinct(lh) && elems == (set j | 0 <= j < |lh| :: lh[j])
    ensures |elems| == |lh|
  {
    if lh == [] {
      assert elems == {};
    } else {
      var pre := lh[..|lh|-1];
      var pre' := set j | 0 <= j < |pre| :: pre[j];
      DistinctSize(pre, pre');
      assert elems == pre' + {lh[|lh|-1]};
    }
  }

  lemma {:induction false} SubsetSize<T>(a: set<T>, b: set<T>)
    requires a <= b
    ensures |a| <= |b|
    ensures |a| == |b| ==> a == b
  {
    assert |b - a| == |b| - |a|;
    assert b == a + (b - a);
  }

  ghost function Span(lo: nat, n: nat): (r: set<nat>)
    ensures |r| == n && forall x: nat :: x in r <==> lo <= x < lo + n
  {
    if n == 0 then {} else Span(lo, n - 1) + {lo + n - 1}
  }

  /** No more blocks can be listed than there are outside the log. */
  lemma ListedBound(L: Layout, lh: seq<nat>)
    requires L.Ok() && L.Listed(lh)
    ensures |lh| <= L.total - L.size
  {
    var elems := set j | 0 <= j < |lh| :: lh[j];
    DistinctSize(lh, elems);
    var area, all := Span(L.start, L.size), Span(0, L.total);
    assert elems !! area;
    assert |elems + area| == |elems| + |area|;
    SubsetSize(elems + area, all);
  }

  /** A full log pins the whole cache, as NBUF equals LOGSIZE: its commit can
      never read a log block, and bget runs out of buffers. */
  lemma FullLogStarves(L: Layout, s: State, v1: Option<nat>, v2: Option<nat>)
    requires Inv(L, s) && s.phase == Logging(0) && |s.lh| == LOGSIZE
    ensures !CanCopy(L, s, 0, v1, v2)
  {
    var pins := Pins(s);
    assert L.size > 1;
    InvShape(L, s);
    hide SpaceInv, HeadInv, CopyInv, Fetch;
    assert L.start + 1 !in pins;
    DistinctSize(s.lh, pins);
    assert |s.cache| == |s.cache.Keys|;
    assert pins <= s.cache.Keys;
    SubsetSize(pins, s.cache.Keys);
    forall x | x in s.cache ensures s.cache[x].refcnt != 0 {
      assert BufOk(L, x, s.cache[x], s.disk, pins, true);
    }
  }

  /** Where the layout is safe, write_log stays inside the log area. */
  lemma CopyInArea(L: Layout, s: State, v1: Option<nat>, v2: Option<nat>)
    requires Inv(L, s) && L.Safe() && s.phase.Logging? && CanCopy(L, s, s.phase.next, v1, v2)
    ensures s.phase.next + 1 < L.size && |s.lh| < LOGSIZE
  {
    hide DecodeHead, Unused, CanFetch, Fetch, CacheOk;
    ListedBound(L, s.lh);
    if |s.lh| == LOGSIZE { FullLogStarves(L, s, v1, v2); }
  }

  // ----- steps of commit

  /** The two breads of a copy loop leave the cache coherent and holding, for
      both blocks, what a bread returns. */
  lemma CopyFetch(L: Layout, s: State, k: nat, v1: Option<nat>, v2: Option<nat>)
    requires CacheOk(L, s.cache, s.disk, Pins(s), Up(s)) && CanCopy(L, s, k, v1, v2)
    requires s.lh[k] in Pins(s) || !Up(s)
    ensures var c := CopyCache(L, s, k, v1, v2);
      && CacheOk(L, c, s.disk, Pins(s), Up(s))
      && c[L.start + 1 + k].data == LogicalAt(s.cache, s.disk, L.start + 1 + k)
      && c[s.lh[k]].data == LogicalAt(s.cache, s.disk, s.lh[k])
      && c[s.lh[k]].valid && c[L.start + 1 + k].valid
      && (Up(s) ==> Shifted(L, s.cache, c, s.disk))
  {
    hide Fetch, CanFetch, CacheOk, Pins, Shifted, LogicalAt;
    var lb, hb := L.start + 1 + k, s.lh[k];
    var c1 := Fetch(s.cache, s.disk, lb, v1);
    FetchKeeps(L, s.cache, s.disk, Pins(s), Up(s), lb, v1, lb);
    FetchKeeps(L, c1, s.disk, Pins(s), Up(s), hb, v2, lb);
    SecondSame(L, s.cache, c1, s.disk, Pins(s), Up(s), hb);
    if Up(s) {
      HitKeys(c1, s.disk, hb, v2);
      ShiftedTrans(L, s.cache, c1, Fetch(c1, s.disk, hb, v2), s.disk);
    }
  }

  lemma SecondSame(L: Layout, cache: map<nat, Buf>, c: map<nat, Buf>, disk: seq<Block>, pins: set<nat>, up: bool,
      b: nat)
    requires CacheOk(L, cache, disk, pins, up) && CacheOk(L, c, disk, pins, up) && Shifted(L, cache, c, disk)
    requires b < L.total && (b in pins || !up)
    ensures LogicalAt(c, disk, b) == LogicalAt(cache, disk, b)
  {
    if b in cache { assert BufOk(L, b, cache[b], disk, pins, up); }
  }

  lemma HitKeys(cache: map<nat, Buf>, disk: seq<Block>, b: nat, v: Option<nat>)
    requires b in cache && b < |disk|
    ensures Fetch(cache, disk, b, v).Keys == cache.Keys
  {
  }

  lemma NextPinned(s: State)
    requires (s.phase.Logging? || s.phase.Installing?) && s.phase.next < |s.lh|
    ensures s.lh[s.phase.next] in Pins(s)
  {
  }

  lemma PinsAreHome(L: Layout, s: State)
    requires L.Listed(s.lh)
    ensures forall b :: b in Pins(s) ==> L.Home(b)
  {
  }

  /** The log area is never changed or pinned: its buffers agree with the disk. */
  lemma LogAreaClean(L: Layout, cache: map<nat, Buf>, disk: seq<Block>, pins: set<nat>, up: bool, b: nat)
    requires CacheOk(L, cache, disk, pins, up) && b < L.total && !L.Home(b) && b !in pins
    ensures LogicalAt(cache, disk, b) == disk[b]
  {
    if b in cache { assert BufOk(L, b, cache[b], disk, pins, up); }
  }

  lemma LogAreaWrite(L: Layout, disk: seq<Block>, lb: nat, v: Block, b: nat)
    requires L.Ok() && |disk| == L.total && L.start < lb < L.start + L.size && L.Home(b)
    requires DecodeHead(disk[L.start]) == []
    ensures RecoveredAt(L, disk[lb := v], b) == RecoveredAt(L, disk, b) == disk[b]
  {
    hide DecodeHead;
  }

  lemma CopyToLogCache(L: Layout, s: State, s': State, v1: Option<nat>, v2: Option<nat>)
    requires CacheOk(L, s.cache, s.disk, Pins(s), true) && L.Listed(s.lh) && CopyToLogStep(L, s, s', v1, v2)
    requires s.phase.next + 1 < L.size
    ensures Pins(s') == Pins(s) && s.lh[s.phase.next] in Pins(s)
    ensures CacheOk(L, s'.cache, s'.disk, Pins(s), true)
    ensures s'.disk == s.disk[L.start + 1 + s.phase.next := LogicalAt(s.cache, s.disk, s.lh[s.phase.next])]
  {
    hide Fetch, CanFetch, CopyCache, BufOk, Shifted, CacheOk, Pins, LogicalAt;
    NextPinned(s);
    var k := s.phase.next;
    var lb := L.start + 1 + k;
    var c := CopyCache(L, s, k, v1, v2);
    PinsAreHome(L, s);
    SamePins(s, s');
    CopyFetch(L, s, k, v1, v2);
    WriteThroughKeeps(L, c, s.disk, Pins(s), true, lb, c[s.lh[k]].data);
  }

  /** What a bread of a home block returns after the copy. */
  ghost predicate Recalled(L: Layout, s: State, s': State)
    requires |s.disk| == |s'.disk| == L.total
  {
    && Loose(s') == Loose(s) - Gone(s, s')
    && forall b: nat :: L.Home(b) ==>
         LogicalAt(s'.cache, s'.disk, b) == if b in Gone(s, s') then s.disk[b] else LogicalAt(s.cache, s.disk, b)
  }

  lemma CopyToLogViews(L: Layout, s: State, s': State, v1: Option<nat>, v2: Option<nat>)
    requires CacheOk(L, s.cache, s.disk, Pins(s), true) && L.Listed(s.lh) && CopyToLogStep(L, s, s', v1, v2)
    requires s.phase.next + 1 < L.size
    ensures |s'.disk| == L.total && Recalled(L, s, s')
  {
    hide Fetch, CanFetch, CopyCache, BufOk, Shifted, CacheOk, Pins, LogicalAt, Loose;
    NextPinned(s);
    var k := s.phase.next;
    var lb := L.start + 1 + k;
    var c := CopyCache(L, s, k, v1, v2);
    SamePins(s, s');
    CopyFetch(L, s, k, v1, v2);
    assert s'.cache == c[lb := c[lb].(data := c[s.lh[k]].data)];
    LooseShift(L, s, s', c);
    ThroughLogical(L, s.cache, c, s.disk, lb, c[s.lh[k]].data);
  }

  lemma ThroughLogical(L: Layout, cache: map<nat, Buf>, c: map<nat, Buf>, disk: seq<Block>, lb: nat, v: Block)
    requires |disk| == L.total && lb in c && lb < L.total && !L.Home(lb) && Shifted(L, cache, c, disk)
    ensures forall b: nat :: L.Home(b) ==>
      LogicalAt(c[lb := c[lb].(data := v)], disk[lb := v], b)
      == if b in cache && b !in c then disk[b] else LogicalAt(cache, disk, b)
  {
    forall b: nat | L.Home(b)
      ensures LogicalAt(c[lb := c[lb].(data := v)], disk[lb := v], b)
           == if b in cache && b !in c then disk[b] else LogicalAt(cache, disk, b)
    {
      ShiftedAt(L, cache, c, disk, b);
    }
  }

  lemma ShiftedAt(L: Layout, cache: map<nat, Buf>, c: map<nat, Buf>, disk: seq<Block>, x: nat)
    requires |disk| == L.total && Shifted(L, cache, c, disk) && x < L.total
    ensures LogicalAt(c, disk, x) == if x in cache && x !in c then disk[x] else LogicalAt(cache, disk, x)
  {
  }

  lemma CopiesSame(L: Layout, s: State, s': State, j: nat)
    requires CacheOk(L, s.cache, s.disk, Pins(s), true) && CacheOk(L, s'.cache, s'.disk, Pins(s'), true)
    requires L.Listed(s.lh) && s'.lh == s.lh && PinFrom(s) <= j < |s.lh| && PinFrom(s') <= j
    requires LogicalAt(s'.cache, s'.disk, s.lh[j]) == if s.lh[j] in Gone(s, s') then s.disk[s.lh[j]]
      else LogicalAt(s.cache, s.disk, s.lh[j])
    ensures s.lh[j] in s.cache && s.lh[j] in s'.cache
    ensures s'.cache[s.lh[j]].data == s.cache[s.lh[j]].data == LogicalAt(s.cache, s.disk, s.lh[j])
  {
    assert s.lh[j] in Pins(s) && s'.lh[j] in Pins(s');
  }

  lemma CopyToLogCopies(L: Layout, s: State, s': State)
    requires L.Ok() && |s.disk| == |s'.disk| == L.total
    requires CacheOk(L, s.cache, s.disk, Pins(s), true) && CacheOk(L, s'.cache, s'.disk, Pins(s'), true)
    requires L.Listed(s.lh) && s.phase.Logging? && s.phase.next < |s.lh| < LOGSIZE && s.phase.next + 1 < L.size
      && CopyInv(L, s)
    requires s'.lh == s.lh && s'.phase == Logging(s.phase.next + 1)
    requires s'.disk == s.disk[L.start + 1 + s.phase.next := LogicalAt(s.cache, s.disk, s.lh[s.phase.next])]
    requires Recalled(L, s, s')
    ensures CopyInv(L, s')
  {
    hide LogicalAt, Pins, Gone, CacheOk, Loose;
    PinsCached(L, s');
    forall j | 0 <= j < s.phase.next + 1
      ensures s.lh[j] in s'.cache && s'.disk[L.start + 1 + j] == s'.cache[s.lh[j]].data {
      CopiesSame(L, s, s', j);
    }
  }

  lemma CopyToLogInv(L: Layout, s: State, s': State, v1: Option<nat>, v2: Option<nat>)
    requires Inv(L, s) && L.Safe() && CopyToLogStep(L, s, s', v1, v2)
    ensures Inv(L, s')
  {
    hide Inv, SpaceInv, CopyInv, CacheOk, Pins, LogicalAt, DecodeHead, CopyCache, CanFetch, Recalled;
    InvShape(L, s);
    CopySpace(L, s, s', v1, v2);
    CopyInArea(L, s, v1, v2);
    CopyToLogCache(L, s, s', v1, v2);
    CopyToLogViews(L, s, s', v1, v2);
    CopyToLogCopies(L, s, s');
    PinsCached(L, s');
    MakeInv(L, s');
  }

  lemma PinsCached(L: Layout, s: State)
    requires CacheOk(L, s.cache, s.disk, Pins(s), true)
    ensures forall b :: b in Pins(s) ==> b in s.cache
  {
  }

  lemma LooseShift(L: Layout, s: State, s': State, c: map<nat, Buf>)
    requires |s.disk| == L.total && Shifted(L, s.cache, c, s.disk) && Pins(s') == Pins(s)
    requires c.Keys == s'.cache.Keys && forall x :: x in c ==> s'.cache[x].dirty == c[x].dirty
    ensures Loose(s') == Loose(s) - Gone(s, s')
  {
    hide Pins, LogicalAt;
  }

  lemma EmptyHead(L: Layout, s: State)
    requires Inv(L, s) && (s.phase.Running? || s.phase.Logging? || s.phase.Cleared?)
    ensures DecodeHead(s.disk[L.start]) == []
  {
    hide SpaceInv, CacheOk, CopyInv, DecodeHead;
  }

  lemma CopyToLogKeeps(L: Layout, s: State, s': State, v1: Option<nat>, v2: Option<nat>)
    requires Inv(L, s) && L.Safe() && CopyToLogStep(L, s, s', v1, v2)
    ensures Inv(L, s') && Abs(L, s') == Spec.Lose(Abs(L, s), Gone(s, s'))
  {
    hide Inv, SpaceInv, CopyInv, HeadInv, CacheOk, CanFetch, CopyCache, DecodeHead, RecoveredAt, LogicalAt, Pins,
      Loose, Gone;
    InvShape(L, s);
    CopyInArea(L, s, v1, v2);
    CopyToLogInv(L, s, s', v1, v2);
    CopyToLogCache(L, s, s', v1, v2);
    CopyToLogViews(L, s, s', v1, v2);
    PinsCached(L, s');
    EmptyHead(L, s);
    var lb := L.start + 1 + s.phase.next;
    forall b: nat | L.Home(b) ensures RecoveredAt(L, s'.disk, b) == RecoveredAt(L, s.disk, b) {
      LogAreaWrite(L, s.disk, lb, s'.disk[lb], b);
    }
    ShiftLoses(L, s, s');
  }

  lemma WriteHeadFacts(L: Layout, s: State, v: Option<nat>, lh: seq<nat>, phase: Phase)
    requires CacheOk(L, s.cache, s.disk, Pins(s), Up(s)) && CanWriteHead(L, s, v, lh)
    requires L.start !in Pins(s)
    ensures var s' := WriteHead(L, s, v, lh, phase);
      && CacheOk(L, s'.cache, s'.disk, Pins(s), Up(s))
      && DecodeHead(s'.disk[L.start]) == lh
      && (forall b :: b in Pins(s) ==> b in s'.cache)
      && (forall b: nat :: b < L.total && b != L.start ==> s'.disk[b] == s.disk[b])
      && (forall b: nat :: b < L.total && b != L.start ==>
            LogicalAt(s'.cache, s'.disk, b) == if b in Gone(s, s') then s.disk[b] else LogicalAt(s.cache, s.disk, b))
      && (forall x :: x in s'.cache ==> (s'.cache[x].dirty <==> x in s.cache && s.cache[x].dirty))
  {
    hide DecodeHead, EncodeHead, Fetch, CanFetch, BufOk;
    var c := Fetch(s.cache, s.disk, L.start, v);
    FetchKeeps(L, s.cache, s.disk, Pins(s), Up(s), L.start, v, L.start);
    var h := EncodeHead(c[L.start].data, lh);
    HeadRoundTrip(c[L.start].data, lh);
    WriteThroughKeeps(L, c, s.disk, Pins(s), Up(s), L.start, h);
    var s' := WriteHead(L, s, v, lh, phase);
    forall b: nat | b < L.total && b != L.start
      ensures LogicalAt(s'.cache, s'.disk, b) == if b in Gone(s, s') then s.disk[b] else LogicalAt(s.cache, s.disk, b)
    {
      assert LogicalAt(c, s.disk, b) == if b in s.cache && b !in c then s.disk[b] else LogicalAt(s.cache, s.disk, b);
    }
  }

  /** Once the header names lh, recovery takes each logged block from the log. */
  lemma CommittedIsDurable(L: Layout, s: State, disk': seq<Block>, b: nat)
    requires Inv(L, s) && s.phase == Logging(|s.lh|) && L.Home(b)
    requires |disk'| == L.total && DecodeHead(disk'[L.start]) == s.lh
    requires forall x: nat :: x < L.total && x != L.start ==> disk'[x] == s.disk[x]
    ensures RecoveredAt(L, disk', b) == if b in s.lh then LogicalAt(s.cache, s.disk, b) else s.disk[b]
    ensures b in s.lh <==> b in Pins(s)
  {
    hide DecodeHead, Unused, BufOk;
    if b in s.lh {
      assert s.lh[IndexOf(s.lh, b)] in Pins(s);
    }
  }

  lemma AllCopied(L: Layout, s: State)
    requires Inv(L, s) && s.phase == Logging(|s.lh|)
    ensures L.HeadFits(s.lh) && L.start !in Pins(s)
  {
    hide DecodeHead, OpsInv, CacheOk;
    PinsAreHome(L, s);
  }

  lemma CommitHeadCache(L: Layout, s: State, s': State, v: Option<nat>)
    requires Inv(L, s) && CommitHeadStep(L, s, s', v)
    ensures |s'.disk| == L.total && s'.lh == s.lh && s'.phase == Installing(0) && L.HeadFits(s.lh)
    ensures CacheOk(L, s'.cache, s'.disk, Pins(s'), true)
    ensures Pins(s') == Pins(s) && Loose(s') == Loose(s) - Gone(s, s')
    ensures DecodeHead(s'.disk[L.start]) == s.lh
    ensures forall b: nat :: b < L.total && b != L.start ==> s'.disk[b] == s.disk[b]
    ensures forall b: nat :: b < L.total && b != L.start ==>
      LogicalAt(s'.cache, s'.disk, b) == if b in Gone(s, s') then s.disk[b] else LogicalAt(s.cache, s.disk, b)
  {
    hide Inv, SpaceInv, HeadInv, CopyInv, DecodeHead, WriteHead, CanWriteHead, CacheOk, LogicalAt, Pins, Gone, Loose;
    InvShape(L, s);
    AllCopied(L, s);
    WriteHeadFrame(L, s, v, s.lh, Installing(0));
    WriteHeadFacts(L, s, v, s.lh, Installing(0));
    SamePins(s, s');
    LooseKept(s, s');
  }

  lemma LooseKept(s: State, s': State)
    requires Pins(s') == Pins(s)
    requires forall x :: x in s'.cache ==> (s'.cache[x].dirty <==> x in s.cache && s.cache[x].dirty)
    ensures Loose(s') == Loose(s) - Gone(s, s')
  {
    hide Pins;
  }

  lemma CommitHeadCopies(L: Layout, s: State, s': State)
    requires CacheOk(L, s.cache, s.disk, Pins(s), true) && CacheOk(L, s'.cache, s'.disk, Pins(s'), true)
    requires L.HeadFits(s.lh) && s.phase == Logging(|s.lh|) && CopyInv(L, s)
    requires s'.lh == s.lh && s'.phase == Installing(0)
    requires forall b: nat :: b < L.total && b != L.start ==> s'.disk[b] == s.disk[b]
    requires forall b: nat :: b < L.total && b != L.start ==>
      LogicalAt(s'.cache, s'.disk, b) == if b in Gone(s, s') then s.disk[b] else LogicalAt(s.cache, s.disk, b)
    ensures CopyInv(L, s')
  {
    hide LogicalAt, Pins, Gone;
    PinsCached(L, s');
    forall j | 0 <= j < |s.lh| ensures s.lh[j] in s'.cache && s'.disk[L.start + 1 + j] == s'.cache[s.lh[j]].data {
      assert L.Home(s.lh[j]);
      CopiesSame(L, s, s', j);
    }
  }

  lemma CommitHeadInv(L: Layout, s: State, s': State, v: Option<nat>)
    requires Inv(L, s) && CommitHeadStep(L, s, s', v)
    ensures Inv(L, s')
  {
    hide Inv, SpaceInv, CacheOk, DecodeHead, LogicalAt, Pins, CopyInv, WriteHead, CanWriteHead, Gone, Loose;
    InvShape(L, s);
    HeadSpace(L, s, s', v);
    CommitHeadCache(L, s, s', v);
    CommitHeadCopies(L, s, s');
    PinsCached(L, s');
    MakeInv(L, s');
  }

  /** The commit point: writing the header makes the whole durable view the
      committed one at once. */
  lemma CommitHeadKeeps(L: Layout, s: State, s': State, v: Option<nat>)
    requires Inv(L, s) && CommitHeadStep(L, s, s', v)
    ensures Inv(L, s') && Spec.Commit(Spec.Lose(Abs(L, s), Gone(s, s')), Abs(L, s'))
  {
    hide Inv, WriteHead, CanWriteHead, DecodeHead, CacheOk, HeadInv, CopyInv, SpaceInv, LogicalAt, RecoveredAt, Pins,
      Loose, Gone, Abs;
    InvShape(L, s);
    CommitHeadCache(L, s, s', v);
    CommitHeadInv(L, s, s', v);
    PinsCached(L, s');
    forall b: nat | L.Home(b)
      ensures RecoveredAt(L, s'.disk, b) == if b in Loose(s) then RecoveredAt(L, s.disk, b)
        else LogicalAt(s.cache, s.disk, b)
      ensures LogicalAt(s'.cache, s'.disk, b)
           == if b in Gone(s, s') && b in Loose(s) then RecoveredAt(L, s.disk, b) else LogicalAt(s.cache, s.disk, b)
    {
      CommittedIsDurable(L, s, s'.disk, b);
      GoneApart(L, s, s', b);
      if b !in Pins(s) {
        UnpinnedRecovered(L, s, b);
        if b !in Loose(s) { TightClean(L, s, b); }
      }
    }
    CommitAbs(L, s, s');
  }

  lemma GoneApart(L: Layout, s: State, s': State, b: nat)
    requires forall x :: x in Pins(s) ==> x in s'.cache
    ensures !(b in Loose(s) && b in Pins(s)) && !(b in Gone(s, s') && b in Pins(s))
  {
  }

  lemma CommitAbs(L: Layout, s: State, s': State)
    requires L.Ok() && |s.disk| == |s'.disk| == L.total && Up(s) && Up(s') && Pins(s') == Pins(s)
    requires Loose(s') == Loose(s) - Gone(s, s')
    requires forall b: nat :: L.Home(b) ==>
      && RecoveredAt(L, s'.disk, b) == (if b in Loose(s) then RecoveredAt(L, s.disk, b)
        else LogicalAt(s.cache, s.disk, b))
      && LogicalAt(s'.cache, s'.disk, b)
         == (if b in Gone(s, s') && b in Loose(s) then RecoveredAt(L, s.disk, b) else LogicalAt(s.cache, s.disk, b))
    ensures Spec.Commit(Spec.Lose(Abs(L, s), Gone(s, s')), Abs(L, s'))
  {
    hide LogicalAt, RecoveredAt, Pins, Loose, Gone;
    var d, d' := Spec.Lose(Abs(L, s), Gone(s, s')), Abs(L, s');
    assert d'.committed == Spec.Durable(d);
    assert d'.current == d.current;
  }

  lemma WriteHeadFrame(L: Layout, s: State, v: Option<nat>, lh: seq<nat>, phase: Phase)
    requires CanWriteHead(L, s, v, lh)
    ensures var s' := WriteHead(L, s, v, lh, phase);
      && s'.lh == lh && s'.phase == phase && s'.outstanding == s.outstanding
      && s'.committing == s.committing && s'.ops == s.ops && s'.tested == s.tested
      && |s'.disk| == |s.disk|
  {
  }

  /** What a copy-home write does to the two views, header and log unchanged. */
  lemma CopyHomeRecovered(L: Layout, disk: seq<Block>, lh: seq<nat>, k: nat, b: nat)
    requires L.Ok() && |disk| == L.total && L.HeadFits(lh) && k < |lh| && DecodeHead(disk[L.start]) == lh
    requires L.Home(b)
    ensures RecoveredAt(L, disk[lh[k] := disk[L.start + 1 + k]], b) == RecoveredAt(L, disk, b)
  {
    hide DecodeHead;
    if b in lh { assert L.Home(lh[k]); }
  }

  lemma PinsAfterInstall(L: Layout, s: State, s': State)
    requires L.Listed(s.lh) && s.phase.Installing? && s.phase.next < |s.lh|
    requires s'.lh == s.lh && s'.phase == Installing(s.phase.next + 1)
    ensures s.lh[s.phase.next] in Pins(s)
    ensures Pins(s') == Pins(s) - {s.lh[s.phase.next]}
  {
    assert s.lh[s.phase.next] in Pins(s);
    forall b | b in Pins(s) && b != s.lh[s.phase.next] ensures b in Pins(s') {
      var j :| s.phase.next <= j < |s.lh| && s.lh[j] == b;
      assert s'.lh[j] in Pins(s');
    }
  }

  lemma InstallCache(L: Layout, s: State, s': State, v1: Option<nat>, v2: Option<nat>)
    requires CacheOk(L, s.cache, s.disk, Pins(s), true) && L.HeadFits(s.lh) && InstallStep(L, s, s', v1, v2)
    ensures s.lh[s.phase.next] in Pins(s) && Pins(s') == Pins(s) - {s.lh[s.phase.next]}
    ensures s'.disk == s.disk[s.lh[s.phase.next] := s.disk[L.start + 1 + s.phase.next]]
    ensures CacheOk(L, s'.cache, s'.disk, Pins(s'), true)
    ensures forall b :: b in Pins(s) ==> b in s'.cache
  {
    hide Fetch, CanFetch, CopyCache, BufOk, Shifted, CacheOk, Pins, LogicalAt;
    var k := s.phase.next;
    var lb, hb := L.start + 1 + k, s.lh[k];
    var c := CopyCache(L, s, k, v1, v2);
    PinsAfterInstall(L, s, s');
    PinsAreHome(L, s);
    CopyFetch(L, s, k, v1, v2);
    LogAreaClean(L, s.cache, s.disk, Pins(s), true, lb);
    UnpinKeeps(L, c, s.disk, Pins(s), true, hb, s.disk[lb]);
    CachedPins(L, c, s.disk, Pins(s));
  }

  lemma InstallViews(L: Layout, s: State, s': State, v1: Option<nat>, v2: Option<nat>)
    requires CacheOk(L, s.cache, s.disk, Pins(s), true) && L.HeadFits(s.lh) && InstallStep(L, s, s', v1, v2)
    requires s.disk[L.start + 1 + s.phase.next] == LogicalAt(s.cache, s.disk, s.lh[s.phase.next])
    ensures |s'.disk| == L.total && Recalled(L, s, s')
  {
    hide Fetch, CanFetch, CopyCache, BufOk, Shifted, CacheOk, Pins, LogicalAt, Loose;
    var k := s.phase.next;
    var lb, hb := L.start + 1 + k, s.lh[k];
    var c := CopyCache(L, s, k, v1, v2);
    PinsAfterInstall(L, s, s');
    PinsAreHome(L, s);
    CopyFetch(L, s, k, v1, v2);
    LogAreaClean(L, s.cache, s.disk, Pins(s), true, lb);
    var u := c[hb].(data := s.disk[lb], dirty := false, refcnt := c[hb].refcnt - 1);
    assert s'.cache == c[hb := u] && s'.disk == s.disk[hb := s.disk[lb]];
    LooseInstall(L, s, s', c, hb);
    CachedPins(L, s.cache, s.disk, Pins(s));
    SettledLogical(L, s.cache, c, s.disk, hb, u);
  }

  lemma SettledLogical(L: Layout, cache: map<nat, Buf>, c: map<nat, Buf>, disk: seq<Block>, hb: nat, u: Buf)
    requires |disk| == L.total && hb in c && hb in cache && hb < L.total && Shifted(L, cache, c, disk)
    requires u.valid && u.data == LogicalAt(cache, disk, hb)
    ensures forall b: nat :: L.Home(b) ==>
      LogicalAt(c[hb := u], disk[hb := u.data], b) == if b in cache && b !in c then disk[b]
        else LogicalAt(cache, disk, b)
  {
    forall b: nat | L.Home(b)
      ensures LogicalAt(c[hb := u], disk[hb := u.data], b)
           == if b in cache && b !in c then disk[b] else LogicalAt(cache, disk, b)
    {
      ShiftedAt(L, cache, c, disk, b);
    }
  }

  lemma CachedPins(L: Layout, c: map<nat, Buf>, disk: seq<Block>, pins: set<nat>)
    requires CacheOk(L, c, disk, pins, true)
    ensures forall b :: b in pins ==> b in c
  {
  }

  lemma LooseInstall(L: Layout, s: State, s': State, c: map<nat, Buf>, hb: nat)
    requires |s.disk| == L.total && Shifted(L, s.cache, c, s.disk) && hb in Pins(s) && hb in c
      && Pins(s') == Pins(s) - {hb}
    requires c.Keys == s'.cache.Keys && !s'.cache[hb].dirty
    requires forall x :: x in c && x != hb ==> s'.cache[x].dirty == c[x].dirty
    ensures Loose(s') == Loose(s) - Gone(s, s')
  {
    hide Pins, LogicalAt;
  }

  lemma NextCopied(L: Layout, s: State)
    requires Inv(L, s) && s.phase.Installing? && s.phase.next < |s.lh|
    ensures L.HeadFits(s.lh)
    ensures s.disk[L.start + 1 + s.phase.next] == LogicalAt(s.cache, s.disk, s.lh[s.phase.next])
  {
    hide DecodeHead, OpsInv, BufOk;
    assert s.lh[s.phase.next] in Pins(s);
  }

  lemma InstallCopies(L: Layout, s: State, s': State)
    requires L.Ok() && |s.disk| == |s'.disk| == L.total
    requires CacheOk(L, s.cache, s.disk, Pins(s), true) && CacheOk(L, s'.cache, s'.disk, Pins(s'), true)
    requires L.HeadFits(s.lh) && s.phase.Installing? && s.phase.next < |s.lh| && CopyInv(L, s)
    requires s'.lh == s.lh && s'.phase == Installing(s.phase.next + 1)
    requires s'.disk == s.disk[s.lh[s.phase.next] := s.disk[L.start + 1 + s.phase.next]]
    requires Recalled(L, s, s')
    ensures (forall b :: b in Pins(s') ==> b in s'.cache) && CopyInv(L, s')
    ensures s'.disk[L.start] == s.disk[L.start]
  {
    hide LogicalAt, Pins, Gone, CacheOk, Loose;
    PinsCached(L, s');
    forall j | s.phase.next + 1 <= j < |s.lh|
      ensures s.lh[j] in s'.cache && s'.disk[L.start + 1 + j] == s'.cache[s.lh[j]].data {
      CopiesSame(L, s, s', j);
    }
  }

  lemma InstallInv(L: Layout, s: State, s': State, v1: Option<nat>, v2: Option<nat>)
    requires Inv(L, s) && InstallStep(L, s, s', v1, v2)
    ensures Inv(L, s')
  {
    hide Inv, SpaceInv, CopyInv, CanCopy, CopyCache, CacheOk, LogicalAt, Pins, Loose, DecodeHead, Recalled;
    InvShape(L, s);
    InstallNext(L, s, s', v1, v2);
    CopySpace(L, s, s', v1, v2);
    InstallCache(L, s, s', v1, v2);
    InstallViews(L, s, s', v1, v2);
    InstallCopies(L, s, s');
    MakeInv(L, s');
  }

  lemma InstallNext(L: Layout, s: State, s': State, v1: Option<nat>, v2: Option<nat>)
    requires Inv(L, s) && InstallStep(L, s, s', v1, v2)
    ensures s.phase.next < |s.lh| && s'.lh == s.lh && s'.phase == Installing(s.phase.next + 1)
    ensures L.HeadFits(s.lh) && DecodeHead(s.disk[L.start]) == s.lh
    ensures s.disk[L.start + 1 + s.phase.next] == LogicalAt(s.cache, s.disk, s.lh[s.phase.next])
  {
    hide DecodeHead, SpaceInv, CacheOk, CopyCache, CanFetch, Fetch;
    NextCopied(L, s);
  }

  /** One block settles: the transaction shrinks by it, and nothing else changes
      but for recycled loose blocks. */
  lemma InstallKeeps(L: Layout, s: State, s': State, v1: Option<nat>, v2: Option<nat>)
    requires Inv(L, s) && InstallStep(L, s, s', v1, v2)
    ensures Inv(L, s') && Spec.Settle(Spec.Lose(Abs(L, s), Gone(s, s')), Abs(L, s'))
  {
    hide Inv, SpaceInv, CopyInv, HeadInv, CanCopy, CopyCache, DecodeHead, RecoveredAt, LogicalAt, Pins, Loose,
      CacheOk, Gone, Abs, Spec.Settle;
    InvShape(L, s);
    InstallNext(L, s, s', v1, v2);
    InstallInv(L, s, s', v1, v2);
    InstallCache(L, s, s', v1, v2);
    InstallViews(L, s, s', v1, v2);
    var k := s.phase.next;
    forall b: nat | L.Home(b)
      ensures RecoveredAt(L, s'.disk, b) == RecoveredAt(L, s.disk, b)
      ensures CurrentAt(L, s', b) == if b in Gone(s, s') && b in Loose(s) then RecoveredAt(L, s.disk, b)
        else CurrentAt(L, s, b)
    {
      CopyHomeRecovered(L, s.disk, s.lh, k, b);
      GoneApart(L, s, s', b);
      if b in Gone(s, s') {
        UnpinnedRecovered(L, s, b);
        if b !in Loose(s) { TightClean(L, s, b); }
      }
    }
    SettleAbs(L, s, s', s.lh[k]);
  }

  lemma SettleAbs(L: Layout, s: State, s': State, x: nat)
    requires L.Ok() && |s.disk| == |s'.disk| == L.total && x in Pins(s) && Pins(s') == Pins(s) - {x}
    requires Loose(s') == Loose(s) - Gone(s, s')
    requires forall b: nat :: L.Home(b) ==> RecoveredAt(L, s'.disk, b) == RecoveredAt(L, s.disk, b)
    requires forall b: nat :: L.Home(b) ==>
      CurrentAt(L, s', b) == if b in Gone(s, s') && b in Loose(s) then RecoveredAt(L, s.disk, b) else CurrentAt(L, s, b)
    ensures Spec.Settle(Spec.Lose(Abs(L, s), Gone(s, s')), Abs(L, s'))
  {
    hide CurrentAt, RecoveredAt, Pins, Loose, Gone;
    var d, d' := Spec.Lose(Abs(L, s), Gone(s, s')), Abs(L, s');
    assert d'.committed == d.committed && d'.current == d.current;
    assert x in d.logged && d' == d.(logged := d.logged - {x});
  }

  lemma InstalledRecovered(L: Layout, disk: seq<Block>, lh: seq<nat>, b: nat)
    requires L.Ok() && |disk| == L.total && L.HeadFits(lh) && DecodeHead(disk[L.start]) == lh && L.Home(b)
    requires forall j :: 0 <= j < |lh| ==> disk[lh[j]] == disk[L.start + 1 + j]
    ensures RecoveredAt(L, disk, b) == disk[b]
  {
    hide DecodeHead;
  }

  lemma HeadErased(L: Layout, disk: seq<Block>, disk': seq<Block>, lh: seq<nat>, b: nat)
    requires L.Ok() && |disk| == |disk'| == L.total && L.HeadFits(lh) && DecodeHead(disk[L.start]) == lh && L.Home(b)
    requires forall j :: 0 <= j < |lh| ==> disk[lh[j]] == disk[L.start + 1 + j]
    requires DecodeHead(disk'[L.start]) == [] && disk'[b] == disk[b]
    ensures RecoveredAt(L, disk', b) == RecoveredAt(L, disk, b) == disk[b]
  {
    hide DecodeHead;
    InstalledRecovered(L, disk, lh, b);
  }

  lemma ClearFacts(L: Layout, s: State, s': State, v: Option<nat>)
    requires Inv(L, s) && ClearStep(L, s, s', v)
    ensures Pins(s) == {} && L.HeadFits(s.lh) && DecodeHead(s.disk[L.start]) == s.lh
    ensures forall j :: 0 <= j < |s.lh| ==> s.disk[s.lh[j]] == s.disk[L.start + 1 + j]
  {
    hide DecodeHead, SpaceInv, CacheOk, WriteHead, CanWriteHead;
  }

  lemma ClearViews(L: Layout, s: State, s': State, v: Option<nat>)
    requires Inv(L, s) && ClearStep(L, s, s', v)
    ensures |s'.disk| == L.total && s'.phase.Cleared? && Pins(s') == Pins(s) == {} && Recalled(L, s, s')
    ensures CacheOk(L, s'.cache, s'.disk, Pins(s'), true) && DecodeHead(s'.disk[L.start]) == []
    ensures forall b: nat :: b < L.total && b != L.start ==> s'.disk[b] == s.disk[b]
  {
    hide Inv, SpaceInv, HeadInv, CopyInv, CacheOk, LogicalAt, DecodeHead, WriteHead, CanWriteHead, Loose, Gone;
    InvShape(L, s);
    ClearFacts(L, s, s', v);
    WriteHeadFrame(L, s, v, [], Cleared);
    WriteHeadFacts(L, s, v, [], Cleared);
    LooseKept(s, s');
  }

  lemma ClearInv(L: Layout, s: State, s': State, v: Option<nat>)
    requires Inv(L, s) && ClearStep(L, s, s', v)
    ensures Inv(L, s')
  {
    hide Inv, SpaceInv, CacheOk, LogicalAt, DecodeHead, WriteHead, CanWriteHead, Recalled, Pins;
    InvShape(L, s);
    HeadSpace(L, s, s', v);
    ClearViews(L, s, s', v);
    WriteHeadFrame(L, s, v, [], Cleared);
    MakeInv(L, s');
  }

  /** Once everything is installed, erasing the header changes neither view. */
  lemma ClearKeeps(L: Layout, s: State, s': State, v: Option<nat>)
    requires Inv(L, s) && ClearStep(L, s, s', v)
    ensures Inv(L, s') && Abs(L, s') == Spec.Lose(Abs(L, s), Gone(s, s'))
  {
    hide Inv, SpaceInv, CopyInv, HeadInv, WriteHead, CanWriteHead, CacheOk, LogicalAt, DecodeHead, RecoveredAt, Pins,
      Loose, Gone, Abs;
    InvShape(L, s);
    ClearFacts(L, s, s', v);
    ClearInv(L, s, s', v);
    ClearViews(L, s, s', v);
    forall b: nat | L.Home(b) ensures RecoveredAt(L, s'.disk, b) == RecoveredAt(L, s.disk, b) {
      HeadErased(L, s.disk, s'.disk, s.lh, b);
    }
    ShiftLoses(L, s, s');
  }

  lemma PhaseOnlyKeeps(L: Layout, s: State, s': State)
    requires Inv(L, s) && (CommitNothingStep(L, s, s') || FinishStep(L, s, s'))
    ensures Inv(L, s') && Abs(L, s') == Abs(L, s)
  {
    PhaseSpace(L, s, s');
    hide DecodeHead, Unused, BufOk, RecoveredAt;
    assert Pins(s') == Pins(s) == {};
    assert Loose(s') == Loose(s);
    AbsSame(L, s, s');
  }

  // ----- crash and recovery

  lemma CrashKeeps(L: Layout, s: State, s': State)
    requires Inv(L, s) && CrashStep(L, s, s')
    ensures Inv(L, s') && Spec.Crash(Abs(L, s), Abs(L, s'))
  {
    PhaseSpace(L, s, s');
    hide DecodeHead, OpsInv, RecoveredAt, BufOk;
    assert Pins(s') == {} && Loose(s') == {};
  }

  lemma ReadHeadKeeps(L: Layout, s: State, s': State, v: Option<nat>)
    requires Inv(L, s) && ReadHeadStep(L, s, s', v)
    ensures Inv(L, s') && Abs(L, s') == Abs(L, s)
  {
    ReadHeadSpace(L, s, s', v);
    hide DecodeHead, OpsInv, RecoveredAt, BufOk, Fetch, CanFetch;
    FetchKeeps(L, s.cache, s.disk, Pins(s), false, L.start, v, L.start);
    assert Pins(s') == Pins(s) == {};
    DownTight(L, s);
    DownTight(L, s');
    AbsSame(L, s, s');
  }

  lemma DownTight(L: Layout, s: State)
    requires CacheOk(L, s.cache, s.disk, Pins(s), false)
    ensures Loose(s) == {}
  {
    forall b | b in s.cache ensures !s.cache[b].dirty { assert BufOk(L, b, s.cache[b], s.disk, Pins(s), false); }
  }

  lemma ReplayCache(L: Layout, s: State, s': State, v1: Option<nat>, v2: Option<nat>)
    requires CacheOk(L, s.cache, s.disk, {}, false) && L.HeadFits(s.lh) && ReplayStep(L, s, s', v1, v2)
    ensures CacheOk(L, s'.cache, s'.disk, {}, false)
    ensures s'.disk == s.disk[s.lh[s.phase.next] := s.disk[L.start + 1 + s.phase.next]]
  {
    hide Fetch, CanFetch, CopyCache, CacheOk, LogicalAt, Shifted;
    var k := s.phase.next;
    var lb := L.start + 1 + k;
    assert Pins(s) == {};
    CopyFetch(L, s, k, v1, v2);
    LogAreaClean(L, s.cache, s.disk, {}, false, lb);
    WriteThroughKeeps(L, CopyCache(L, s, k, v1, v2), s.disk, {}, false, s.lh[k], s.disk[lb]);
  }

  lemma ReplayCopies(L: Layout, s: State, s': State)
    requires L.Ok() && |s.disk| == |s'.disk| == L.total && L.HeadFits(s.lh) && s.phase.Replaying?
      && s.phase.next < |s.lh|
    requires (forall b :: b in Pins(s) ==> b in s.cache) && CopyInv(L, s)
    requires s'.lh == s.lh && s'.phase == Replaying(s.phase.next + 1)
    requires s'.disk == s.disk[s.lh[s.phase.next] := s.disk[L.start + 1 + s.phase.next]]
    ensures (forall b :: b in Pins(s') ==> b in s'.cache) && CopyInv(L, s')
    ensures s'.disk[L.start] == s.disk[L.start]
  {
  }

  lemma DownNoPins(s: State)
    requires !Up(s)
    ensures Pins(s) == {}
  {
  }

  lemma ReplayNext(L: Layout, s: State, s': State, v1: Option<nat>, v2: Option<nat>)
    requires Inv(L, s) && ReplayStep(L, s, s', v1, v2)
    ensures s.phase.next < |s.lh| && s'.lh == s.lh && s'.phase == Replaying(s.phase.next + 1)
    ensures L.HeadFits(s.lh) && DecodeHead(s.disk[L.start]) == s.lh
  {
    hide DecodeHead, SpaceInv, CacheOk, CopyCache, CanFetch, Fetch;
  }

  lemma ReplayInv(L: Layout, s: State, s': State, v1: Option<nat>, v2: Option<nat>)
    requires Inv(L, s) && ReplayStep(L, s, s', v1, v2)
    ensures Inv(L, s')
    ensures s'.disk == s.disk[s.lh[s.phase.next] := s.disk[L.start + 1 + s.phase.next]]
  {
    hide Inv, SpaceInv, CacheOk, CopyInv, DecodeHead, Pins, CanCopy, CopyCache;
    InvShape(L, s);
    CopySpace(L, s, s', v1, v2);
    ReplayNext(L, s, s', v1, v2);
    DownNoPins(s);
    DownNoPins(s');
    ReplayCache(L, s, s', v1, v2);
    ReplayCopies(L, s, s');
    MakeInv(L, s');
  }

  lemma ReplayKeeps(L: Layout, s: State, s': State, v1: Option<nat>, v2: Option<nat>)
    requires Inv(L, s) && ReplayStep(L, s, s', v1, v2)
    ensures Inv(L, s') && Abs(L, s') == Abs(L, s)
  {
    hide Inv, SpaceInv, HeadInv, CopyInv, DecodeHead, CanCopy, CopyCache, CacheOk, RecoveredAt, LogicalAt, Pins,
      Loose, Abs;
    InvShape(L, s);
    ReplayNext(L, s, s', v1, v2);
    ReplayInv(L, s, s', v1, v2);
    InvShape(L, s');
    DownNoPins(s);
    DownNoPins(s');
    DownTight(L, s);
    DownTight(L, s');
    forall b: nat | L.Home(b) ensures RecoveredAt(L, s'.disk, b) == RecoveredAt(L, s.disk, b) {
      CopyHomeRecovered(L, s.disk, s.lh, s.phase.next, b);
    }
    AbsSame(L, s, s');
  }

  lemma UpKeeps(L: Layout, cache: map<nat, Buf>, disk: seq<Block>, pins: set<nat>)
    requires CacheOk(L, cache, disk, pins, false)
    ensures CacheOk(L, cache, disk, pins, true)
  {
    forall b | b in cache
      ensures BufOk(L, b, cache[b], disk, pins, true) { assert BufOk(L, b, cache[b], disk, pins, false); }
  }

  lemma ReplayDoneFacts(L: Layout, s: State, s': State, v: Option<nat>)
    requires Inv(L, s) && ReplayDoneStep(L, s, s', v)
    ensures L.HeadFits(s.lh) && DecodeHead(s.disk[L.start]) == s.lh
    ensures forall j :: 0 <= j < |s.lh| ==> s.disk[s.lh[j]] == s.disk[L.start + 1 + j]
  {
    hide DecodeHead, SpaceInv, CacheOk, WriteHead, CanWriteHead;
  }

  lemma ReplayDoneInv(L: Layout, s: State, s': State, v: Option<nat>)
    requires Inv(L, s) && ReplayDoneStep(L, s, s', v)
    ensures Inv(L, s') && |s'.disk| == L.total && Pins(s') == {} && Loose(s') == {}
    ensures s'.phase.Running? && DecodeHead(s'.disk[L.start]) == []
    ensures forall b: nat :: b < L.total && b != L.start ==> s'.disk[b] == s.disk[b]
  {
    hide Inv, SpaceInv, CacheOk, LogicalAt, DecodeHead, WriteHead, CanWriteHead, Loose, Gone;
    InvShape(L, s);
    HeadSpace(L, s, s', v);
    DownNoPins(s);
    DownTight(L, s);
    WriteHeadFrame(L, s, v, [], Running);
    WriteHeadFacts(L, s, v, [], Running);
    assert Pins(s') == {};
    LooseKept(s, s');
    UpKeeps(L, s'.cache, s'.disk, {});
    MakeInv(L, s');
  }

  lemma ReplayDoneKeeps(L: Layout, s: State, s': State, v: Option<nat>)
    requires Inv(L, s) && ReplayDoneStep(L, s, s', v)
    ensures Inv(L, s') && Abs(L, s') == Abs(L, s)
  {
    hide Inv, SpaceInv, CopyInv, HeadInv, CacheOk, LogicalAt, DecodeHead, RecoveredAt, WriteHead, CanWriteHead, Loose,
      Pins, Abs;
    InvShape(L, s);
    ReplayDoneFacts(L, s, s', v);
    ReplayDoneInv(L, s, s', v);
    InvShape(L, s');
    DownNoPins(s);
    DownTight(L, s);
    forall b: nat | L.Home(b)
      ensures RecoveredAt(L, s'.disk, b) == RecoveredAt(L, s.disk, b)
      ensures CurrentAt(L, s', b) == CurrentAt(L, s, b)
    {
      HeadErased(L, s.disk, s'.disk, s.lh, b);
      TightClean(L, s', b);
    }
    AbsSame(L, s, s');
  }
}
