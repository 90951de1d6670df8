/** Runs of the log protocol, built step by step: the log filled by three
    operations, the race through log_write's unlocked test, and a buffer that
    was changed, handed back and recycled. */
module LogRuns {
  import opened Basics
  import opened Blocks
  import opened LogProtocol
  import opened LogSafety
  import opened LogTheorems
  import opened LogReads

  ghost predicate Reachable(L: Layout, s: State) {
    exists run: seq<State>, acts: seq<Action> :: IsRun(L, run, acts) && run[|run|-1] == s
  }

  lemma ReachStep(L: Layout, s: State, a: Action, s': State)
    requires Reachable(L, s) && Step(L, s, a, s')
    ensures Reachable(L, s')
  {
    hide Step, Init;
    var run: seq<State>, acts: seq<Action> :| IsRun(L, run, acts) && run[|run|-1] == s;
    RunSnoc(L, run, acts, a, s');
    assert (run + [s'])[|run|] == s';
  }

  lemma ReachSpace(L: Layout, s: State)
    requires Reachable(L, s)
    ensures SpaceInv(L, s)
  {
    hide SpaceInv, Step, Init;
    var run: seq<State>, acts: seq<Action> :| IsRun(L, run, acts) && run[|run|-1] == s;
    RunSpace(L, run, acts, |run| - 1);
  }

  // ----- states with an empty disk

  function Zero(): Block { seq(BSIZE, i => 0) }

  function One(): Block { seq(BSIZE, i => 1) }

  function ZeroDisk(L: Layout): seq<Block> { seq(L.total, i => Zero()) }

  function Clean(refs: int): Buf { Buf(Zero(), true, false, refs, {}, None) }

  function Held(p: Pid): Buf { Buf(Zero(), true, false, 1, {p}, Some(p)) }

  lemma ZeroHead()
    ensures DecodeHead(Zero()) == []
    ensures EncodeHead(Zero(), []) == Zero()
  {
    assert Word(Zero(), 0) == 0;
    var r := EncodeHead(Zero(), []);
    assert r == SetWord(Zero(), 0, 0);
    forall i | 0 <= i < BSIZE ensures r[i] == 0 {}
  }

  lemma BootReaches(L: Layout)
    requires L.Ok()
    ensures Reachable(L, State(ZeroDisk(L), map[L.start := Clean(0)], [], 0, false, map[], map[], Running))
  {
    hide Word, EncodeHead, DecodeHead, Zero;
    ZeroHead();
    var d := ZeroDisk(L);
    var s0 := State(d, map[], [], 0, false, map[], map[], Booting);
    assert IsRun(L, [s0], []) && [s0][|[s0]|-1] == s0;
    var s1 := s0.(cache := map[L.start := Clean(0)], phase := Replaying(0));
    assert ReadHeadStep(L, s0, s1, None);
    ReachStep(L, s0, ReadHead(None), s1);
    var s2 := s1.(phase := Running);
    assert d[L.start := Zero()] == d;
    assert ReplayDoneStep(L, s1, s2, None);
    ReachStep(L, s1, ReplayDone(None), s2);
  }

  lemma BeginsReach(L: Layout)
    requires L.Ok()
    ensures Reachable(L, State(ZeroDisk(L), map[L.start := Clean(0)], [], 3, false, map[0 := 0, 1 := 0, 2 := 0],
      map[], Running))
  {
    hide Zero, IsRun;
    BootReaches(L);
    var s0 := State(ZeroDisk(L), map[L.start := Clean(0)], [], 0, false, map[], map[], Running);
    var s1 := s0.(outstanding := 1, ops := map[0 := 0]);
    var s2 := s0.(outstanding := 2, ops := map[0 := 0, 1 := 0]);
    var s3 := s0.(outstanding := 3, ops := map[0 := 0, 1 := 0, 2 := 0]);
    assert BeginStep(L, s0, s1, 0);
    ReachStep(L, s0, Begin(0), s1);
    assert BeginStep(L, s1, s2, 1);
    ReachStep(L, s1, Begin(1), s2);
    assert BeginStep(L, s2, s3, 2);
    ReachStep(L, s2, Begin(2), s3);
  }

  // ----- one operation logs one more block

  /** bread of an uncached block. */
  lemma BreadReaches(L: Layout, s: State, p: Pid, b: nat, victim: Option<nat>)
    requires Reachable(L, s) && Up(s) && p !in s.tested && b < |s.disk| && s.disk[b] == Zero()
    requires b !in s.cache && CanFetch(s.cache, b, victim, b)
    ensures Reachable(L, s.(cache := Recycle(s.cache, victim)[b := Held(p)]))
  {
    hide Zero, IsRun, CanFetch, Recycle, Reachable;
    var c := Recycle(s.cache, victim);
    var u := Buf(Zero(), false, false, 1, {p}, None);
    var s1 := s.(cache := c[b := u]);
    assert GetMissStep(L, s, s1, p, b, victim);
    ReachStep(L, s, GetMiss(p, b, victim), s1);
    var s2 := s.(cache := c[b := Held(p)]);
    assert s1.cache[b := Held(p)] == s2.cache;
    assert LockStep(L, s1, s2, p, b);
    ReachStep(L, s1, Lock(p, b), s2);
  }

  lemma TestReaches(L: Layout, s: State, p: Pid, b: nat)
    requires Reachable(L, s) && Up(s) && p in s.ops && p !in s.tested && L.Home(b)
    requires b in s.cache && s.cache[b].holder == Some(p) && !LogWritePanics(L, s)
    ensures Reachable(L, s.(tested := s.tested[p := b]))
  {
    hide IsRun, Reachable;
    var s1 := s.(tested := s.tested[p := b]);
    assert LogTestStep(L, s, s1, p, b);
    ReachStep(L, s, LogTest(p, b), s1);
  }

  /** The locked append of log_write, and brelse. */
  lemma LogReaches(L: Layout, s: State, p: Pid, b: nat)
    requires Reachable(L, s) && Up(s) && p in s.ops && s.ops[p] < MAXOPBLOCKS && L.Home(b) && b !in s.lh
    requires p in s.tested && s.tested[p] == b && b in s.cache
    requires s.cache[b].holder == Some(p) && s.cache[b].users == {p} && s.cache[b].refcnt == 1 && s.cache[b].valid
    ensures Reachable(L, s.(cache := s.cache[b := Clean(1).(data := s.cache[b].data)], lh := s.lh + [b],
                            ops := s.ops[p := s.ops[p] + 1], tested := s.tested - {p}))
  {
    hide IsRun, Reachable, Zero;
    var u := s.cache[b].(dirty := false, refcnt := 2);
    var s1 := s.(cache := s.cache[b := u], lh := s.lh + [b], ops := s.ops[p := s.ops[p] + 1], tested := s.tested - {p});
    assert LogWriteStep(L, s, s1, p, b);
    ReachStep(L, s, LogWrite(p, b), s1);
    var w := Clean(1).(data := s.cache[b].data);
    assert u.users - {p} == {};
    var s2 := s1.(cache := s.cache[b := w]);
    assert s1.cache[b := w] == s2.cache;
    assert ReleaseStep(L, s1, s2, p, b);
    ReachStep(L, s1, Release(p, b), s2);
  }

  /** bread, log_write, brelse of one more block by operation p. */
  lemma AppendReaches(L: Layout, s: State, p: Pid, b: nat, victim: Option<nat>)
    requires Reachable(L, s) && Up(s) && p in s.ops && s.ops[p] < MAXOPBLOCKS && s.tested == map[]
      && !LogWritePanics(L, s)
    requires L.Home(b) && b < |s.disk| && s.disk[b] == Zero() && b !in s.lh
    requires b !in s.cache && CanFetch(s.cache, b, victim, b)
    ensures Reachable(L, s.(cache := Recycle(s.cache, victim)[b := Clean(1)], lh := s.lh + [b],
                            ops := s.ops[p := s.ops[p] + 1]))
  {
    hide Zero, IsRun, CanFetch, Recycle, Reachable;
    BreadReaches(L, s, p, b, victim);
    var c := Recycle(s.cache, victim);
    var s1 := s.(cache := c[b := Held(p)]);
    TestReaches(L, s1, p, b);
    var s2 := s1.(tested := map[p := b]);
    assert s1.tested[p := b] == s2.tested;
    LogReaches(L, s2, p, b);
    assert s2.cache[b := Clean(1).(data := s2.cache[b].data)] == c[b := Clean(1)];
    assert s2.tested - {p} == map[];
  }

  // ----- the log filled in turn by three operations

  /** Three operations open, and `lh` logged by them in turn. */
  function Filled(L: Layout, lh: seq<nat>): State {
    State(ZeroDisk(L), map b | b in lh :: Clean(1), lh, 3, false,
          map[0 := (|lh| + 2) / 3, 1 := (|lh| + 1) / 3, 2 := |lh| / 3], map[], Running)
  }

  /** The same, but before the first append the cache holds the log header. */
  function Base(L: Layout, lh: seq<nat>): (s: State) {
    if lh == [] then Filled(L, []).(cache := map[L.start := Clean(0)]) else Filled(L, lh)
  }

  function BaseVictim(L: Layout, lh: seq<nat>): Option<nat> { if lh == [] then Some(L.start) else None }

  lemma FilledCacheSize(L: Layout, lh: seq<nat>)
    requires Distinct(lh)
    ensures |Filled(L, lh).cache| == |lh|
  {
    hide Zero, ZeroDisk, Clean;
    var c := Filled(L, lh).cache;
    assert |c| == |c.Keys|;
    DistinctSize(lh, c.Keys);
  }

  lemma DistinctSnoc(pre: seq<nat>, b: nat)
    requires Distinct(pre + [b])
    ensures Distinct(pre) && b !in pre
  {
    forall i | 0 <= i < |pre| ensures pre[i] != b { assert (pre + [b])[i] != (pre + [b])[|pre|]; }
    forall i, j | 0 <= i < j < |pre| ensures pre[i] != pre[j] { assert (pre + [b])[i] != (pre + [b])[j]; }
  }

  lemma FilledOps(L: Layout, pre: seq<nat>, b: nat)
    requires |pre| < LOGSIZE
    ensures var ops, p := Filled(L, pre).ops, |pre| % 3;
      p in ops && ops[p] < MAXOPBLOCKS && ops[p := ops[p] + 1] == Filled(L, pre + [b]).ops
  {
  }

  lemma BaseRoom(L: Layout, pre: seq<nat>, b: nat, u: Buf)
    requires L.Ok() && Distinct(pre) && |pre| < NBUF && b !in pre && L.Home(b)
    ensures var s, v := Base(L, pre), BaseVictim(L, pre);
      && b !in s.cache && CanFetch(s.cache, b, v, b)
      && Recycle(s.cache, v)[b := u] == Filled(L, pre).cache[b := u]
  {
    hide Zero, Distinct;
    FilledCacheSize(L, pre);
  }

  lemma FilledStep(L: Layout, pre: seq<nat>, b: nat)
    requires L.Ok() && |pre| < LOGSIZE && |pre| < L.size - 1 && Distinct(pre + [b]) && L.Home(b)
    requires Reachable(L, Base(L, pre))
    ensures Reachable(L, Filled(L, pre + [b]))
  {
    hide Zero, Reachable, Distinct, CanFetch, Recycle;
    DistinctSnoc(pre, b);
    FilledOps(L, pre, b);
    BaseRoom(L, pre, b, Clean(1));
    AppendReaches(L, Base(L, pre), |pre| % 3, b, BaseVictim(L, pre));
    assert Filled(L, pre).cache[b := Clean(1)] == Filled(L, pre + [b]).cache;
  }

  /** Any list that fits the log area and LOGSIZE can be logged. */
  lemma {:induction false} FilledReachable(L: Layout, lh: seq<nat>)
    requires L.Ok() && |lh| <= LOGSIZE && |lh| <= L.size - 1 && Distinct(lh)
    requires forall i :: 0 <= i < |lh| ==> L.Home(lh[i])
    ensures Reachable(L, Base(L, lh))
  {
    hide Reachable, Zero;
    if lh == [] {
      BeginsReach(L);
      assert Base(L, []) == State(ZeroDisk(L), map[L.start := Clean(0)], [], 3, false, map[0 := 0, 1 := 0, 2 := 0],
        map[], Running);
    } else {
      var pre, b := lh[..|lh|-1], lh[|lh|-1];
      assert pre + [b] == lh;
      FilledReachable(L, pre);
      FilledStep(L, pre, b);
    }
  }

  // ----- the race

  /** `lh` logged, the last block with content v. */
  function Raced(L: Layout, lh: seq<nat>, v: Block): State
    requires lh != []
  {
    Filled(L, lh).(cache := Filled(L, lh).cache[lh[|lh|-1] := Clean(1).(data := v)])
  }

  /** Two operations hold a block each, the second one changed to v, and both
      have passed the test of log_write. */
  function Racing(L: Layout, pre: seq<nat>, b1: nat, b2: nat, v: Block): State {
    var p1, p2 := |pre| % 3, (|pre| + 1) % 3;
    Filled(L, pre).(cache := Filled(L, pre).cache[b1 := Held(p1)][b2 := Held(p2).(data := v, dirty := true)],
                    tested := map[p1 := b1, p2 := b2])
  }

  lemma FirstBread(L: Layout, pre: seq<nat>, b1: nat)
    requires L.Ok() && |pre| + 2 <= LOGSIZE && Distinct(pre) && b1 !in pre && L.Home(b1) && Reachable(L, Base(L, pre))
    ensures var c := Filled(L, pre).cache[b1 := Held(|pre| % 3)];
      |c| < NBUF && Reachable(L, Filled(L, pre).(cache := c))
  {
    hide Zero, Reachable, Distinct, Recycle, IsRun, CanFetch;
    var p1 := |pre| % 3;
    BaseRoom(L, pre, b1, Held(p1));
    FilledCacheSize(L, pre);
    BreadReaches(L, Base(L, pre), p1, b1, BaseVictim(L, pre));
    var c: map<nat, Buf> := Filled(L, pre).cache;
    assert c[b1 := Held(p1)].Keys == c.Keys + {b1};
    assert |c[b1 := Held(p1)]| == |c[b1 := Held(p1)].Keys| && |c| == |c.Keys|;
  }

  lemma BothBread(L: Layout, pre: seq<nat>, b1: nat, b2: nat, v: Block)
    requires L.Ok() && |pre| + 2 <= LOGSIZE && Distinct(pre) && b1 !in pre && b2 !in pre && b1 != b2
    requires L.Home(b1) && L.Home(b2) && Reachable(L, Base(L, pre))
    ensures Reachable(L, Racing(L, pre, b1, b2, v).(tested := map[]))
  {
    hide Zero, Reachable, Distinct, Recycle, IsRun, Base, Filled;
    var p1, p2 := |pre| % 3, (|pre| + 1) % 3;
    FilledAt(L, pre, b2, p2);
    FirstBread(L, pre, b1);
    var s1 := Filled(L, pre).(cache := Filled(L, pre).cache[b1 := Held(p1)]);
    BreadReaches(L, s1, p2, b2, None);
    NoVictim(s1.cache);
    var s2 := s1.(cache := s1.cache[b2 := Held(p2)]);
    ModifyReaches(L, s2, p2, b2, v);
    assert s2.cache[b2 := Held(p2).(data := v, dirty := true)] == s1.cache[b2 := Held(p2).(data := v, dirty := true)];
  }

  lemma FilledSnoc(L: Layout, pre: seq<nat>, b: nat)
    ensures var s, s' := Filled(L, pre), Filled(L, pre + [b]);
      s.phase == Running && s.lh == pre && s' == s.(cache := s'.cache, lh := pre + [b], ops := s'.ops)
  {
    hide Zero;
  }

  lemma FilledAt(L: Layout, lh: seq<nat>, b: nat, p: nat)
    requires b !in lh && L.Home(b) && p < 3
    ensures var s := Filled(L, lh);
      s.phase == Running && s.tested == map[] && p in s.ops && b < |s.disk| && s.disk[b] == Zero() && b !in s.cache
  {
    hide Zero;
  }

  lemma ModifyReaches(L: Layout, s: State, p: Pid, b: nat, v: Block)
    requires Reachable(L, s) && Up(s) && p in s.ops && p !in s.tested && L.Home(b) && b in s.cache
      && s.cache[b] == Held(p)
    ensures Reachable(L, s.(cache := s.cache[b := Held(p).(data := v, dirty := true)]))
  {
    hide Zero, Reachable, IsRun;
    var s' := s.(cache := s.cache[b := Held(p).(data := v, dirty := true)]);
    assert ModifyStep(L, s, s', p, b, v);
    ReachStep(L, s, Modify(p, b, v), s');
  }

  lemma NoVictim(c: map<nat, Buf>)
    ensures Recycle(c, None) == c
  {
  }

  lemma BothTested(L: Layout, pre: seq<nat>, b1: nat, b2: nat, v: Block)
    requires L.Ok() && |pre| + 2 <= LOGSIZE && |pre| < L.size - 1 && Distinct(pre) && b1 !in pre && b2 !in pre
      && b1 != b2
    requires L.Home(b1) && L.Home(b2) && Reachable(L, Base(L, pre))
    ensures Reachable(L, Racing(L, pre, b1, b2, v))
  {
    hide Zero, Reachable, Distinct, IsRun;
    var p1, p2 := |pre| % 3, (|pre| + 1) % 3;
    BothBread(L, pre, b1, b2, v);
    var s := Racing(L, pre, b1, b2, v).(tested := map[]);
    TestReaches(L, s, p1, b1);
    var s1 := s.(tested := map[p1 := b1]);
    assert s.tested[p1 := b1] == s1.tested;
    TestReaches(L, s1, p2, b2);
    assert s1.tested[p2 := b2] == map[p1 := b1, p2 := b2];
  }

  /** The first of the two has appended. */
  function HalfRaced(L: Layout, pre: seq<nat>, b1: nat, b2: nat, v: Block): State {
    var p1, p2 := |pre| % 3, (|pre| + 1) % 3;
    Filled(L, pre + [b1]).(cache := Filled(L, pre).cache[b2 := Held(p2).(data := v, dirty := true)][b1 := Clean(1)],
                           tested := map[p2 := b2])
  }

  lemma FirstLogs(L: Layout, pre: seq<nat>, b1: nat, b2: nat, v: Block)
    requires |pre| + 2 <= LOGSIZE && b1 !in pre && b1 != b2 && L.Home(b1) && Reachable(L, Racing(L, pre, b1, b2, v))
    ensures Reachable(L, HalfRaced(L, pre, b1, b2, v))
  {
    hide Zero, Reachable, IsRun, Filled;
    var p1 := |pre| % 3;
    var s, s1 := Racing(L, pre, b1, b2, v), HalfRaced(L, pre, b1, b2, v);
    FilledOps(L, pre, b1);
    FilledSnoc(L, pre, b1);
    LogReaches(L, s, p1, b1);
    assert s.tested - {p1} == s1.tested;
    assert s.cache[b1 := Clean(1).(data := s.cache[b1].data)] == s1.cache;
  }

  lemma SecondLogs(L: Layout, pre: seq<nat>, b1: nat, b2: nat, v: Block)
    requires |pre| + 2 <= LOGSIZE && b1 !in pre && b2 !in pre && b1 != b2 && L.Home(b2)
      && Reachable(L, HalfRaced(L, pre, b1, b2, v))
    ensures Reachable(L, Raced(L, pre + [b1] + [b2], v))
  {
    hide Zero, Reachable, IsRun;
    var p2 := (|pre| + 1) % 3;
    var s := HalfRaced(L, pre, b1, b2, v);
    FilledOps(L, pre + [b1], b2);
    LogReaches(L, s, p2, b2);
    assert s.tested - {p2} == map[];
    assert s.cache[b2 := Clean(1).(data := v)] == Raced(L, pre + [b1] + [b2], v).cache;
  }

  /** The test of log_write is not repeated under the lock: when the log area
      has room for one more block, two operations can both append. */
  lemma RaceReaches(L: Layout, pre: seq<nat>, b1: nat, b2: nat, v: Block)
    requires L.Ok() && |pre| + 2 <= LOGSIZE && |pre| < L.size - 1 && Distinct(pre) && b1 !in pre && b2 !in pre
      && b1 != b2
    requires L.Home(b1) && L.Home(b2) && Reachable(L, Base(L, pre))
    ensures Reachable(L, Raced(L, pre + [b1] + [b2], v))
  {
    hide Reachable, Filled, Racing, HalfRaced, Raced, Base;
    BothTested(L, pre, b1, b2, v);
    FirstLogs(L, pre, b1, b2, v);
    SecondLogs(L, pre, b1, b2, v);
  }

  // ----- home blocks

  function HomeAt(L: Layout, i: nat): nat { if i < L.start then i else i + L.size }

  /** The block after the log area first, then the others in order. */
  function Pick(L: Layout, i: nat): nat {
    HomeAt(L, if i == 0 then L.start else if i <= L.start then i - 1 else i)
  }

  function Picks(L: Layout, n: nat): (lh: seq<nat>) { seq(n, i requires 0 <= i => Pick(L, i)) }

  /** As many home blocks can be logged as there are, the one after the log area among them. */
  lemma PicksListed(L: Layout, n: nat)
    requires L.Ok() && n <= L.total - L.size && (n > 0 ==> L.start + L.size < L.total)
    ensures var lh := Picks(L, n);
      && |lh| == n && Distinct(lh) && (forall i :: 0 <= i < n ==> L.Home(lh[i]))
      && (n > 0 ==> lh[0] == L.start + L.size)
  {
  }

  function Homes(L: Layout, n: nat): (lh: seq<nat>) { seq(n, i requires 0 <= i => HomeAt(L, i)) }

  lemma HomesListed(L: Layout, n: nat)
    requires L.Ok() && n <= L.total - L.size
    ensures var lh := Homes(L, n);
      |lh| == n && Distinct(lh) && (forall i :: 0 <= i < n ==> L.Home(lh[i]))
  {
  }

  /** Every list of at least two home blocks one longer than the log area allows
      can be reached, its last block with any content. */
  lemma OverfullReaches(L: Layout, lh: seq<nat>, v: Block)
    requires L.Ok() && 2 <= L.size <= LOGSIZE && |lh| == L.size && Distinct(lh)
    requires forall i :: 0 <= i < |lh| ==> L.Home(lh[i])
    ensures Reachable(L, Raced(L, lh, v))
  {
    hide Reachable, Zero, IsRun;
    var n := |lh| - 2;
    var pre, b1, b2 := lh[..n], lh[n], lh[n+1];
    assert pre + [b1] + [b2] == lh;
    FilledReachable(L, pre);
    RaceReaches(L, pre, b1, b2, v);
  }

  // ----- three operations end

  function Closed(s: State): State {
    s.(outstanding := 0, committing := true, ops := map[], phase := Logging(0))
  }

  lemma ClosedReaches(L: Layout, s: State)
    requires Reachable(L, s) && s.phase.Running? && !s.committing && s.tested == map[]
    requires s.outstanding == 3 && s.ops.Keys == {0, 1, 2}
    ensures Reachable(L, Closed(s))
  {
    hide Reachable, IsRun;
    var s1 := s.(outstanding := 2, ops := s.ops - {0});
    assert EndStep(L, s, s1, 0);
    ReachStep(L, s, End(0), s1);
    var s2 := s1.(outstanding := 1, ops := s1.ops - {1});
    assert EndStep(L, s1, s2, 1);
    ReachStep(L, s1, End(1), s2);
    assert s2.ops - {2} == map[];
    assert EndStep(L, s2, Closed(s), 2);
    ReachStep(L, s2, End(2), Closed(s));
  }
}
