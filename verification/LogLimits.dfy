/** Where the promises of the log end: layouts whose commit is not all or
    nothing, and a change that is lost because it was never logged. */
module LogLimits {
  import opened Basics
  import opened Blocks
  import opened LogProtocol
  import opened LogSafety
  import opened LogTheorems
  import opened LogReads
  import opened LogRuns

  // ----- the layouts for which commit is all or nothing

  ghost predicate AllOrNothing(L: Layout) {
    forall run: seq<State>, acts: seq<Action>, c: nat, i: nat, j: nat, b: nat ::
      CrashedCommit(L, run, acts, c, i, j, b) ==> OldOrNew(run, acts, c, i, j, b)
  }

  /** At j block b is as the transaction left it, if the header was written, and
      as before the transaction otherwise. */
  ghost predicate OldOrNew(run: seq<State>, acts: seq<Action>, c: nat, i: nat, j: nat, b: nat)
    requires c <= i < j < |run| == |acts| + 1
  {
    && b < |run[c].disk| && b < |run[j].disk|
    && run[j].disk[b] == if HeadWritten(acts, c, i) then LoggedAt(run[c], b) else run[c].disk[b]
  }

  /** The racing commit after k copies: all zero but the last block logged. */
  function Copied(L: Layout, lh: seq<nat>, k: nat): State
    requires lh != []
  {
    var s := Closed(Raced(L, lh, One()));
    s.(cache := if k == 0 then s.cache else s.cache[L.start + k := Clean(0)], phase := Logging(k))
  }

  lemma RacedCache(L: Layout, lh: seq<nat>)
    requires lh != [] && Distinct(lh)
    ensures var c := Raced(L, lh, One()).cache;
      && |c| == |lh|
      && forall j :: 0 <= j < |lh| ==>
           lh[j] in c && c[lh[j]] == Clean(1).(data := if j == |lh| - 1 then One() else Zero())
  {
    hide Zero, One, ZeroDisk;
    FilledCacheSize(L, lh);
    var c, f := Raced(L, lh, One()).cache, Filled(L, lh).cache;
    assert c.Keys == f.Keys;
    assert |c| == |c.Keys| && |f| == |f.Keys|;
  }

  lemma CopyStep(L: Layout, s: State, k: nat, v1: Option<nat>, c: map<nat, Buf>, s': State)
    requires s.phase == Logging(k) && L.Ok() && |s.disk| == L.total && k < |s.lh|
    requires L.start + 1 + k < L.total && s.lh[k] < L.total && s.lh[k] != L.start + 1 + k
    requires CanFetch(s.cache, L.start + 1 + k, v1, L.start + 1 + k) && c == Fetch(s.cache, s.disk, L.start + 1 + k, v1)
    requires s.lh[k] in c && c[s.lh[k]].valid && c[s.lh[k]].holder == None
    requires var lb, data := L.start + 1 + k, c[s.lh[k]].data;
      s' == s.(disk := s.disk[lb := data], cache := c[lb := c[lb].(data := data)], phase := Logging(k + 1))
    ensures Step(L, s, CopyToLog(v1, None), s')
  {
    assert CanCopy(L, s, k, v1, None);
    assert CopyCache(L, s, k, v1, None) == c;
    assert CopyToLogStep(L, s, s', v1, None);
  }

  /** bread of the next log block, into a fresh buffer or that of the last one. */
  lemma NextLogBlock(cache: map<nat, Buf>, disk: seq<Block>, start: nat, k: nat)
    requires |cache| < NBUF && start + 1 + k < |disk| && disk[start + 1 + k] == Zero()
    requires start + 1 + k !in cache && start + k !in cache
    ensures var c := if k == 0 then cache else cache[start + k := Clean(0)];
      var v: Option<nat> := if k == 0 then None else Some(start + k);
      && CanFetch(c, start + 1 + k, v, start + 1 + k)
      && Fetch(c, disk, start + 1 + k, v) == cache[start + 1 + k := Clean(0)]
  {
    hide Zero;
    if k > 0 { assert cache[start + k := Clean(0)] - {start + k} == cache; }
  }

  /** The copies inside the log area change nothing on an empty disk. */
  lemma CopyOn(L: Layout, lh: seq<nat>, k: nat)
    requires L.Ok() && |lh| == L.size < NBUF && k + 1 < L.size && Distinct(lh)
    requires forall i :: 0 <= i < |lh| ==> L.Home(lh[i])
    ensures Step(L, Copied(L, lh, k), CopyToLog(if k == 0 then None else Some(L.start + k), None), Copied(L, lh, k + 1))
  {
    hide Zero, One, Raced, Filled, Step, Fetch, CanFetch, Distinct;
    RacedCache(L, lh);
    RacedShape(L, lh);
    var s, s', c := Copied(L, lh, k), Copied(L, lh, k + 1), Raced(L, lh, One()).cache;
    var v1: Option<nat> := if k == 0 then None else Some(L.start + k);
    var lb := L.start + 1 + k;
    assert lb !in c && L.start + k !in c;
    NextLogBlock(c, s.disk, L.start, k);
    assert s.disk[lb := Zero()] == s.disk;
    assert s'.cache[lb := s'.cache[lb].(data := Zero())] == s'.cache;
    CopyStep(L, s, k, v1, s'.cache, s');
  }

  lemma RacedShape(L: Layout, lh: seq<nat>)
    requires lh != []
    ensures var s := Raced(L, lh, One());
      && s.lh == lh && s.disk == ZeroDisk(L) && s.tested == map[]
      && s.cache.Keys == set j | 0 <= j < |lh| :: lh[j]
  {
    hide Zero, One;
  }

  /** The copy past the area's end hits a home block. */
  lemma CopyOver(L: Layout, lh: seq<nat>) returns (s': State)
    requires L.Ok() && 2 <= |lh| == L.size < NBUF && Distinct(lh) && L.start + L.size < L.total
    requires (forall i :: 0 <= i < |lh| ==> L.Home(lh[i])) && lh[0] == L.start + L.size
    ensures Step(L, Copied(L, lh, L.size - 1), CopyToLog(None, None), s')
    ensures s'.disk == ZeroDisk(L)[L.start + L.size := One()]
  {
    hide Zero, One, Raced, Filled, Step, Fetch;
    RacedCache(L, lh);
    RacedShape(L, lh);
    var k, lb := L.size - 1, L.start + L.size;
    var s := Copied(L, lh, k);
    assert lh[0] != lh[k];
    assert s.cache[lb] == Clean(1);
    HitSame(s.cache, s.disk, lb);
    s' := s.(disk := s.disk[lb := One()], cache := s.cache[lb := Clean(1).(data := One())], phase := Logging(k + 1));
    CopyStep(L, s, k, None, s.cache, s');
  }

  lemma HitSame(c: map<nat, Buf>, disk: seq<Block>, b: nat)
    requires b in c && c[b].valid && b < |disk|
    ensures Fetch(c, disk, b, None) == c
  {
  }

  /** A run that ends with k copies made, and where its commit began. */
  lemma {:induction false} CopiesRun(L: Layout, lh: seq<nat>, k: nat)
      returns (run: seq<State>, acts: seq<Action>, c: nat)
    requires L.Ok() && 2 <= |lh| == L.size < NBUF && k < L.size && Distinct(lh)
    requires forall i :: 0 <= i < |lh| ==> L.Home(lh[i])
    ensures IsRun(L, run, acts) && c < |run| && run[c] == Copied(L, lh, 0) && run[|run|-1] == Copied(L, lh, k)
    ensures forall m :: c <= m < |acts| ==> acts[m].CopyToLog?
    decreases k
  {
    hide Step, Init, Raced, Copied;
    if k == 0 {
      var s := ClosedRaced(L, lh);
      run, acts :| IsRun(L, run, acts) && run[|run|-1] == s;
      c := |run| - 1;
    } else {
      var run0, acts0;
      run0, acts0, c := CopiesRun(L, lh, k - 1);
      CopyOn(L, lh, k - 1);
      var a := CopyToLog(if k == 1 then None else Some(L.start + (k - 1)), None);
      RunSnoc(L, run0, acts0, a, Copied(L, lh, k));
      run, acts := run0 + [Copied(L, lh, k)], acts0 + [a];
    }
  }

  lemma ClosedRaced(L: Layout, lh: seq<nat>) returns (s: State)
    requires L.Ok() && 2 <= |lh| == L.size <= LOGSIZE && Distinct(lh)
    requires forall i :: 0 <= i < |lh| ==> L.Home(lh[i])
    ensures s == Copied(L, lh, 0) && Reachable(L, s)
  {
    hide Zero, One, Reachable, ZeroDisk;
    OverfullReaches(L, lh, One());
    ClosedReaches(L, Raced(L, lh, One()));
    s := Closed(Raced(L, lh, One()));
  }

  /** Power fails and recovery finds an empty header. */
  lemma EmptyRecovery(L: Layout, s: State) returns (s1: State, s2: State, s3: State)
    requires L.Ok() && |s.disk| == L.total && s.disk[L.start] == Zero()
    ensures Step(L, s, Crash, s1) && Step(L, s1, ReadHead(None), s2) && Step(L, s2, ReplayDone(None), s3)
    ensures s3.phase.Running? && s3.disk == s.disk
  {
    hide Word, EncodeHead, DecodeHead, Zero;
    ZeroHead();
    s1 := State(s.disk, map[], [], 0, false, map[], map[], Booting);
    s2 := s1.(cache := map[L.start := Clean(0)], phase := Replaying(0));
    assert ReadHeadStep(L, s1, s2, None);
    s3 := s2.(phase := Running);
    assert s.disk[L.start := Zero()] == s.disk;
    assert ReplayDoneStep(L, s2, s3, None);
  }

  /** In a layout that is not safe, two operations race past the guard, their
      commit overwrites the block after the log area, and a crash before the
      header write leaves it so. */
  lemma RaceDamages(L: Layout)
    requires L.Ok() && !L.Safe()
    ensures !AllOrNothing(L)
  {
    hide Step, Init, Zero, One, Copied, CopyToLogStep, LoggedAt;
    var lh, n, b := Picks(L, L.size), L.size - 1, L.start + L.size;
    PicksListed(L, L.size);
    var run0, acts0, c := CopiesRun(L, lh, n);
    var s := CopyOver(L, lh);
    RunSnoc(L, run0, acts0, CopyToLog(None, None), s);
    var run1, acts1 := run0 + [s], acts0 + [CopyToLog(None, None)];
    var s1, s2, s3 := EmptyRecovery(L, s);
    RunSnoc(L, run1, acts1, Crash, s1);
    RunSnoc(L, run1 + [s1], acts1 + [Crash], ReadHead(None), s2);
    RunSnoc(L, run1 + [s1] + [s2], acts1 + [Crash] + [ReadHead(None)], ReplayDone(None), s3);
    var run, acts := run1 + [s1] + [s2] + [s3], acts1 + [Crash] + [ReadHead(None)] + [ReplayDone(None)];
    var i, j := |acts1|, |acts|;
    assert run[c] == Copied(L, lh, 0) && run[j] == s3;
    assert forall m :: c <= m < i ==> acts[m].CopyToLog?;
    assert CrashedCommit(L, run, acts, c, i, j, b) by { CopiedStart(L, lh); }
    assert !HeadWritten(acts, c, i);
    CopiedStart(L, lh);
    assert run[c].disk[b] == Zero() && run[j].disk[b] == One();
    assert !OldOrNew(run, acts, c, i, j, b) by { ZeroIsNotOne(); }
  }

  lemma ZeroIsNotOne()
    ensures Zero() != One()
  {
    assert Zero()[0] != One()[0];
  }

  lemma CopiedStart(L: Layout, lh: seq<nat>)
    requires lh != []
    ensures Copied(L, lh, 0).phase == Logging(0) && Copied(L, lh, 0).disk == ZeroDisk(L)
  {
    hide Zero, One, ZeroDisk;
  }

  /** Commit is all or nothing exactly in the safe layouts. */
  lemma AllOrNothingIff(L: Layout)
    requires L.Ok()
    ensures AllOrNothing(L) <==> L.Safe()
  {
    hide CrashedCommit, HeadWritten, LoggedAt, Step, Init;
    if L.Safe() {
      forall run: seq<State>, acts: seq<Action>, c: nat, i: nat, j: nat,
        b: nat | CrashedCommit(L, run, acts, c, i, j, b)
        ensures c <= i < j < |run| == |acts| + 1 && OldOrNew(run, acts, c, i, j, b)
      {
        CommitShape(L, run, acts, c, i, j, b);
        CommitIsAllOrNothing(L, run, acts, c, i, j, b);
      }
    } else {
      RaceDamages(L);
    }
  }

  lemma CommitShape(L: Layout, run: seq<State>, acts: seq<Action>, c: nat, i: nat, j: nat, b: nat)
    requires CrashedCommit(L, run, acts, c, i, j, b)
    ensures c <= i < j < |run| == |acts| + 1 && b < L.total
  {
    hide Step, Init;
  }

  // ----- a change that was never logged is lost

  ghost predicate Quiet(a: Action) { !a.Crash? && !a.Modify? }

  /** `run` extends `run0` by quiet steps and ends in s. */
  ghost predicate Extends(L: Layout, run0: seq<State>, acts0: seq<Action>, run: seq<State>, acts: seq<Action>,
      s: State) {
    && IsRun(L, run, acts) && run0 <= run && acts0 <= acts && run[|run|-1] == s
    && forall m :: |acts0| <= m < |acts| ==> Quiet(acts[m])
  }

  lemma ExtendsBy(L: Layout, run0: seq<State>, acts0: seq<Action>, run: seq<State>, acts: seq<Action>, s: State,
      a: Action, s': State)
    requires Extends(L, run0, acts0, run, acts, s) && Step(L, s, a, s') && Quiet(a)
    ensures Extends(L, run0, acts0, run + [s'], acts + [a], s')
  {
    hide Step, Init;
    RunSnoc(L, run, acts, a, s');
  }

  /** bread and brelse of an uncached block by process 1, which has no operation open. */
  lemma ReadOn(L: Layout, run0: seq<State>, acts0: seq<Action>, run: seq<State>, acts: seq<Action>, s: State,
               x: nat, victim: Option<nat>) returns (run': seq<State>, acts': seq<Action>)
    requires Extends(L, run0, acts0, run, acts, s) && Up(s) && s.tested == map[]
    requires x < |s.disk| && s.disk[x] == Zero() && x !in s.cache && CanFetch(s.cache, x, victim, x)
    ensures Extends(L, run0, acts0, run', acts', s.(cache := Recycle(s.cache, victim)[x := Clean(0)]))
  {
    hide Zero, CanFetch, Recycle, Extends;
    var c := Recycle(s.cache, victim);
    var u := Buf(Zero(), false, false, 1, {1}, None);
    var s1, s2, s3 := s.(cache := c[x := u]), s.(cache := c[x := Held(1)]), s.(cache := c[x := Clean(0)]);
    assert GetMissStep(L, s, s1, 1, x, victim);
    ExtendsBy(L, run0, acts0, run, acts, s, GetMiss(1, x, victim), s1);
    assert s1.cache[x := Held(1)] == s2.cache;
    assert LockStep(L, s1, s2, 1, x);
    ExtendsBy(L, run0, acts0, run + [s1], acts + [GetMiss(1, x, victim)], s1, Lock(1, x), s2);
    assert s2.cache[x := Clean(0)] == s3.cache && Held(1).users - {1} == {};
    assert ReleaseStep(L, s2, s3, 1, x);
    run', acts' := run + [s1] + [s2] + [s3], acts + [GetMiss(1, x, victim)] + [Lock(1, x)] + [Release(1, x)];
    ExtendsBy(L, run0, acts0, run + [s1] + [s2], acts + [GetMiss(1, x, victim)] + [Lock(1, x)], s2, Release(1, x), s3);
  }

  /** Operation 0 has changed b and handed it back; the blocks xs were read since. */
  function Abandoned(L: Layout, b: nat, xs: seq<nat>): State {
    State(ZeroDisk(L), (map x | x in [L.start] + xs :: Clean(0))[b := Clean(0).(data := One(), dirty := true)],
          [], 1, false, map[0 := 0], map[], Running)
  }

  ghost predicate Others(L: Layout, b: nat, xs: seq<nat>) {
    && L.Ok() && L.Home(b) && Distinct([L.start] + xs) && b !in xs
    && forall i :: 0 <= i < |xs| ==> xs[i] < L.total
  }

  lemma AbandonedSize(L: Layout, b: nat, xs: seq<nat>)
    requires Others(L, b, xs)
    ensures |Abandoned(L, b, xs).cache| == |xs| + 2
  {
    hide Zero, One, ZeroDisk;
    var c := Abandoned(L, b, xs).cache;
    var h := [L.start] + xs;
    var keys := set j | 0 <= j < |h| :: h[j];
    DistinctSize(h, keys);
    assert c.Keys == keys + {b};
    assert |c| == |c.Keys|;
  }

  lemma HoldRun(L: Layout, b: nat) returns (run: seq<State>, acts: seq<Action>)
    requires L.Ok() && L.Home(b)
    ensures IsRun(L, run, acts) && |run| > 0
    ensures run[|run|-1] == State(ZeroDisk(L), map[L.start := Clean(0), b := Held(0)], [], 1, false, map[0 := 0],
      map[], Running)
  {
    hide Zero, Step, Init;
    BootReaches(L);
    var s0 := State(ZeroDisk(L), map[L.start := Clean(0)], [], 0, false, map[], map[], Running);
    var s1 := s0.(outstanding := 1, ops := map[0 := 0]);
    BeginOne(L, s0, s1);
    BreadReaches(L, s1, 0, b, None);
    var s2 := s1.(cache := map[L.start := Clean(0), b := Held(0)]);
    assert Recycle(s1.cache, None)[b := Held(0)] == s2.cache;
    run, acts :| IsRun(L, run, acts) && run[|run|-1] == s2;
  }

  lemma BeginOne(L: Layout, s: State, s': State)
    requires Reachable(L, s) && s.phase.Running? && !s.committing && s.ops == map[] && s.lh == [] && s.outstanding == 0
    requires s' == s.(outstanding := 1, ops := map[0 := 0])
    ensures Reachable(L, s')
  {
    hide Reachable;
    assert BeginStep(L, s, s', 0);
    ReachStep(L, s, Begin(0), s');
  }

  lemma AbandonRun(L: Layout, b: nat) returns (run: seq<State>, acts: seq<Action>)
    requires L.Ok() && L.Home(b)
    ensures IsRun(L, run, acts) && |run| > 0 && acts != [] && acts[|acts|-1] == Modify(0, b, One())
    ensures Step(L, run[|run|-1], Release(0, b), Abandoned(L, b, []))
  {
    hide Zero, One, IsRun;
    run, acts := HoldRun(L, b);
    var s := run[|run|-1];
    var s1 := s.(cache := s.cache[b := Held(0).(data := One(), dirty := true)]);
    assert ModifyStep(L, s, s1, 0, b, One());
    RunSnoc(L, run, acts, Modify(0, b, One()), s1);
    run, acts := run + [s1], acts + [Modify(0, b, One())];
    var w := Clean(0).(data := One(), dirty := true);
    assert Held(0).users - {0} == {};
    assert s1.cache[b := w] == Abandoned(L, b, []).cache;
    assert ReleaseStep(L, s1, Abandoned(L, b, []), 0, b);
  }

  lemma {:induction false} ReadMany(L: Layout, run0: seq<State>, acts0: seq<Action>, b: nat, xs: seq<nat>)
      returns (run: seq<State>, acts: seq<Action>)
    requires IsRun(L, run0, acts0) && Step(L, run0[|run0|-1], Release(0, b), Abandoned(L, b, []))
    requires Others(L, b, xs) && |xs| + 2 <= NBUF
    ensures Extends(L, run0, acts0, run, acts, Abandoned(L, b, xs))
  {
    hide Step, Init, Zero, One;
    if xs == [] {
      var a := Release(0, b);
      RunSnoc(L, run0, acts0, a, Abandoned(L, b, []));
      run, acts := run0 + [Abandoned(L, b, [])], acts0 + [a];
    } else {
      var pre, x := xs[..|xs|-1], xs[|xs|-1];
      OthersPrefix(L, b, xs);
      run, acts := ReadMany(L, run0, acts0, b, pre);
      AbandonedSize(L, b, pre);
      run, acts := ReadOn(L, run0, acts0, run, acts, Abandoned(L, b, pre), x, None);
      AbandonedNext(L, b, xs);
    }
  }

  lemma OthersPrefix(L: Layout, b: nat, xs: seq<nat>)
    requires Others(L, b, xs) && xs != []
    ensures Others(L, b, xs[..|xs|-1]) && xs[|xs|-1] !in [L.start] + xs[..|xs|-1]
  {
    var pre, x := xs[..|xs|-1], xs[|xs|-1];
    assert [L.start] + xs == ([L.start] + pre) + [x];
    DistinctSnoc([L.start] + pre, x);
  }

  lemma AbandonedNext(L: Layout, b: nat, xs: seq<nat>)
    requires Others(L, b, xs) && xs != []
    ensures var s := Abandoned(L, b, xs[..|xs|-1]);
      && xs[|xs|-1] !in s.cache
      && s.(cache := Recycle(s.cache, None)[xs[|xs|-1] := Clean(0)]) == Abandoned(L, b, xs)
  {
    hide Zero, One, ZeroDisk;
    OthersPrefix(L, b, xs);
    var pre, x := xs[..|xs|-1], xs[|xs|-1];
    assert pre + [x] == xs;
  }

  /** A changed buffer handed back without log_write goes the way of every
      unused buffer: after thirty other blocks have been read, always into the
      buffer unused for longest, it is gone, and the next bread of its block
      returns the old content. */
  lemma AbandonedIsLost(L: Layout, b: nat, xs: seq<nat>) returns (run: seq<State>, acts: seq<Action>, i: nat, j: nat)
    requires Others(L, b, xs) && |xs| == NBUF
    ensures IsRun(L, run, acts) && i < j < |acts|
    ensures acts[i].Modify? && acts[i].b == b && acts[j].Lock? && acts[j].b == b && Undisturbed(acts, i + 1, j, b)
    ensures b in run[j+1].cache && run[j+1].cache[b].data != acts[i].data
  {
    hide Step, Init, Zero, One, Distinct, Abandoned, Extends;
    var run0, acts0 := AbandonRun(L, b);
    i := |acts0| - 1;
    var ys := xs[..28];
    ReadsApart(L, b, xs);
    run, acts := ReadMany(L, run0, acts0, b, ys);
    var s := Abandoned(L, b, ys);
    LastReads(L, b, xs);
    run, acts := ReadOn(L, run0, acts0, run, acts, s, xs[28], Some(L.start));
    var t := s.(cache := Recycle(s.cache, Some(L.start))[xs[28] := Clean(0)]);
    run, acts := ReadOn(L, run0, acts0, run, acts, t, xs[29], Some(b));
    var w := t.(cache := Recycle(t.cache, Some(b))[xs[29] := Clean(0)]);
    run, acts, j := LostRead(L, run0, acts0, run, acts, w, b, xs[0]);
    ZeroIsNotOne();
  }

  lemma ReadsApart(L: Layout, b: nat, xs: seq<nat>)
    requires Others(L, b, xs) && |xs| == NBUF
    ensures Others(L, b, xs[..28]) && |xs[..28]| == 28
  {
    var h, ys := [L.start] + xs, xs[..28];
    forall i, j | 0 <= i < j < |[L.start] + ys| ensures ([L.start] + ys)[i] != ([L.start] + ys)[j] {
      assert ([L.start] + ys)[i] == h[i] && ([L.start] + ys)[j] == h[j];
    }
  }

  /** Once thirty buffers are in use, the header's goes first, then b's. */
  lemma LastReads(L: Layout, b: nat, xs: seq<nat>)
    requires Others(L, b, xs) && |xs| == NBUF
    ensures var s := Abandoned(L, b, xs[..28]);
      var t := s.(cache := Recycle(s.cache, Some(L.start))[xs[28] := Clean(0)]);
      var w := t.(cache := Recycle(t.cache, Some(b))[xs[29] := Clean(0)]);
      && |s.disk| == L.total && (forall x :: 0 <= x < L.total ==> s.disk[x] == Zero())
      && Up(s) && s.tested == map[] && 0 in s.ops
      && xs[28] !in s.cache && CanFetch(s.cache, xs[28], Some(L.start), xs[28])
      && xs[29] !in t.cache && CanFetch(t.cache, xs[29], Some(b), xs[29])
      && b !in w.cache && CanFetch(w.cache, b, Some(xs[0]), b)
  {
    hide Zero, One;
    assert b != L.start;
    forall k | 28 <= k < 30 ensures xs[k] != L.start && xs[k] !in xs[..28] {
      assert ([L.start] + xs)[k+1] == xs[k] && ([L.start] + xs)[0] == L.start;
      forall m | 0 <= m < 28 ensures xs[m] != xs[k] { assert ([L.start] + xs)[m+1] == xs[m]; }
    }
    assert ([L.start] + xs)[29] != ([L.start] + xs)[30];
    assert ([L.start] + xs)[1] == xs[0] && xs[0] in xs[..28];
  }

  lemma LostRead(L: Layout, run0: seq<State>, acts0: seq<Action>, run: seq<State>, acts: seq<Action>, s: State,
      b: nat, v: nat)
      returns (run': seq<State>, acts': seq<Action>, j: nat)
    requires Extends(L, run0, acts0, run, acts, s) && Up(s) && s.tested == map[] && b < |s.disk| && s.disk[b] == Zero()
    requires b !in s.cache && CanFetch(s.cache, b, Some(v), b) && acts0 != []
    ensures IsRun(L, run', acts') && acts0 <= acts' && |acts0| <= j < |acts'|
    ensures acts'[j] == Lock(0, b) && Undisturbed(acts', |acts0|, j, b)
    ensures b in run'[j+1].cache && run'[j+1].cache[b].data == Zero()
  {
    hide Zero, CanFetch, Recycle, Init;
    var c := Recycle(s.cache, Some(v));
    var u := Buf(Zero(), false, false, 1, {0}, None);
    var s1, s2 := s.(cache := c[b := u]), s.(cache := c[b := Held(0)]);
    assert GetMissStep(L, s, s1, 0, b, Some(v));
    ExtendsBy(L, run0, acts0, run, acts, s, GetMiss(0, b, Some(v)), s1);
    assert s1.cache[b := Held(0)] == s2.cache;
    assert LockStep(L, s1, s2, 0, b);
    ExtendsBy(L, run0, acts0, run + [s1], acts + [GetMiss(0, b, Some(v))], s1, Lock(0, b), s2);
    run', acts' := run + [s1] + [s2], acts + [GetMiss(0, b, Some(v))] + [Lock(0, b)];
    j := |acts| + 1;
    assert acts'[j] == Lock(0, b) && run'[j+1] == s2;
  }
}
