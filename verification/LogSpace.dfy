/** Log space: what the reservation made by begin_op guarantees to log_write,
    and exactly where the guards of log_write and bget can still fire. */
module LogSpace {
  import opened Basics
  import opened Blocks
  import opened LogProtocol
  import opened LogSafety
  import opened LogTheorems
  import opened LogRuns

  lemma MemberUnused(ops: map<Pid, nat>, p: Pid)
    requires p in ops && (forall q :: q in ops ==> ops[q] <= MAXOPBLOCKS)
    ensures MAXOPBLOCKS - ops[p] <= Unused(ops)
  {
    UnusedRemove(ops, p);
    UnusedBounds(ops - {p});
  }

  /** In every reachable state, whatever the layout, the log array has room for
      everything still reserved, so an append is in bounds; its block numbers
      are distinct; commit excludes open operations; and with none open and no
      commit under way the log is empty. */
  lemma ReservationHolds(L: Layout, run: seq<State>, acts: seq<Action>, i: nat)
    requires IsRun(L, run, acts) && i < |run|
    ensures var s := run[i];
      && |s.lh| + Unused(s.ops) <= LOGSIZE
      && (forall p :: p in s.ops && s.ops[p] < MAXOPBLOCKS ==> |s.lh| < LOGSIZE)
      && (forall j, k :: 0 <= j < k < |s.lh| ==> s.lh[j] != s.lh[k])
      && s.outstanding == |s.ops|
      && (s.committing ==> s.outstanding == 0)
      && (s.phase.Running? && s.outstanding == 0 ==> s.lh == [])
  {
    hide Step, Init, Unused, DecodeHead;
    RunSpace(L, run, acts, i);
    var s := run[i];
    forall p | p in s.ops && s.ops[p] < MAXOPBLOCKS ensures |s.lh| < LOGSIZE { MemberUnused(s.ops, p); }
    assert |s.ops| == |s.ops.Keys|;
  }

  // ----- the guard of log_write

  /** An operation with reservation left always passes the guard of log_write. */
  ghost predicate NeverRefused(L: Layout) {
    forall s: State, p: Pid :: Reachable(L, s) && p in s.ops && s.ops[p] < MAXOPBLOCKS ==> !LogWritePanics(L, s)
  }

  /** The guard fires in an open operation only on a full log whose reservations
      are used up: the write that panics would have been absorbed. */
  ghost predicate RefusedOnlyFull(L: Layout) {
    forall s: State, p: Pid :: Reachable(L, s) && p in s.ops && LogWritePanics(L, s)
      ==> |s.lh| == LOGSIZE && s.ops[p] == MAXOPBLOCKS
  }

  /** The log area is larger than LOGSIZE, or too few blocks exist to fill it. */
  predicate Ample(L: Layout) { L.size > LOGSIZE || L.total < 2 * L.size - 1 }

  lemma AmpleState(L: Layout, s: State, p: Pid)
    requires Reachable(L, s) && Ample(L) && p in s.ops && LogWritePanics(L, s)
    ensures |s.lh| == LOGSIZE && s.ops[p] == MAXOPBLOCKS
  {
    hide Reachable, Unused, DecodeHead;
    ReachSpace(L, s);
    MemberUnused(s.ops, p);
    ListedBound(L, s.lh);
  }

  /** In any other layout three operations can fill the log area with
      reservation to spare. */
  lemma ScarceState(L: Layout) returns (s: State)
    requires L.Ok() && !Ample(L)
    ensures Reachable(L, s) && 2 in s.ops && s.ops[2] < MAXOPBLOCKS && LogWritePanics(L, s) && |s.lh| < LOGSIZE
  {
    hide Reachable, Zero;
    var lh := Homes(L, L.size - 1);
    HomesListed(L, L.size - 1);
    FilledReachable(L, lh);
    s := Base(L, lh);
  }

  /** Reserved writes are never refused exactly in the ample layouts. */
  lemma ReservedWriteFits(L: Layout)
    requires L.Ok()
    ensures NeverRefused(L) <==> Ample(L)
  {
    hide Reachable, Ample, LogWritePanics;
    if Ample(L) {
      forall s: State, p: Pid | Reachable(L, s) && p in s.ops && s.ops[p] < MAXOPBLOCKS ensures !LogWritePanics(L, s) {
        if LogWritePanics(L, s) { AmpleState(L, s, p); }
      }
    } else {
      var s := ScarceState(L);
    }
  }

  lemma PanicMeansExhausted(L: Layout)
    requires L.Ok()
    ensures RefusedOnlyFull(L) <==> Ample(L)
  {
    hide Reachable, Ample, LogWritePanics;
    if Ample(L) {
      forall s: State, p: Pid | Reachable(L, s) && p in s.ops && LogWritePanics(L, s)
        ensures |s.lh| == LOGSIZE && s.ops[p] == MAXOPBLOCKS
      {
        AmpleState(L, s, p);
      }
    } else {
      var s := ScarceState(L);
    }
  }

  /** The guard, read without the lock, bounds the list by the log area only
      where the reservation does so, or nothing can be logged, or too few
      blocks exist; elsewhere two operations can race past it. */
  lemma ListFitsArea(L: Layout)
    requires L.Ok()
    ensures (forall s: State :: Reachable(L, s) ==> |s.lh| <= L.size - 1)
       <==> L.size > LOGSIZE || L.size == 1 || L.total < 2 * L.size
  {
    hide Reachable, Zero, Unused, DecodeHead;
    if L.size > LOGSIZE || L.size == 1 || L.total < 2 * L.size {
      forall s: State | Reachable(L, s) ensures |s.lh| <= L.size - 1 {
        ReachSpace(L, s);
        ListedBound(L, s.lh);
      }
    } else {
      var lh := Homes(L, L.size);
      HomesListed(L, L.size);
      OverfullReaches(L, lh, Zero());
      var s := Raced(L, lh, Zero());
      assert Reachable(L, s) && |s.lh| == L.size;
    }
  }

  /** The guard fires on a legitimate, absorbed write: three operations that
      log ten distinct blocks each fill the log, and then no one of them can
      log_write a block it has already logged. */
  lemma AbsorbedWriteCanPanic(L: Layout, lh: seq<nat>, b: nat)
    requires L.Ok() && L.size > LOGSIZE && |lh| == LOGSIZE && Distinct(lh) && b in lh
    requires forall i :: 0 <= i < |lh| ==> L.Home(lh[i])
    ensures exists s :: (Reachable(L, s) && 0 in s.ops && b in s.lh && b in s.cache
                         && s.cache[b].holder == Some(0) && LogWritePanics(L, s))
  {
    hide Zero, IsRun, Reachable;
    FilledReachable(L, lh);
    var s := Filled(L, lh);
    var s1 := s.(cache := s.cache[b := Clean(2).(users := {0})]);
    assert Clean(1).users + {0} == {0};
    assert GetStep(L, s, s1, 0, b);
    ReachStep(L, s, Get(0, b), s1);
    var s2 := s1.(cache := s1.cache[b := s1.cache[b].(holder := Some(0))]);
    assert LockStep(L, s1, s2, 0, b);
    ReachStep(L, s1, Lock(0, b), s2);
  }

  // ----- buffers for the commit itself

  /** write_log can make its next copy exactly when the log area has the block,
      the home buffer is unlocked and bget finds a buffer for the log block: cached and unlocked, or some
      buffer unassigned or unreferenced. */
  lemma CopyNeedsBuffer(L: Layout, s: State, k: nat)
    requires Inv(L, s) && L.Safe() && s.phase == Logging(k) && k < |s.lh|
    ensures var lb := L.start + 1 + k;
      (exists v1, v2 :: CanCopy(L, s, k, v1, v2)) <==>
        && k + 1 < L.size
        && s.lh[k] in s.cache && s.cache[s.lh[k]].holder == None
        && (if lb in s.cache then s.cache[lb].holder == None
            else |s.cache| < NBUF || exists x :: x in s.cache && s.cache[x].refcnt == 0)
  {
    hide Inv, CanCopy;
    CopyHome(L, s, k);
    var lb := L.start + 1 + k;
    if k + 1 < L.size && s.cache[s.lh[k]].holder == None
       && (if lb in s.cache then s.cache[lb].holder == None
           else |s.cache| < NBUF || exists x :: x in s.cache && s.cache[x].refcnt == 0) {
      CopyEnabled(L, s, k);
    }
    forall v1, v2 | CanCopy(L, s, k, v1, v2)
      ensures k + 1 < L.size && s.cache[s.lh[k]].holder == None
      ensures if lb in s.cache then s.cache[lb].holder == None
              else |s.cache| < NBUF || exists x :: x in s.cache && s.cache[x].refcnt == 0
    {
      CopyInArea(L, s, v1, v2);
      CopyFinds(L, s, k, v1, v2);
    }
  }

  /** The home block of the next copy is pinned. */
  lemma CopyHome(L: Layout, s: State, k: nat)
    requires Inv(L, s) && s.phase == Logging(k) && k < |s.lh|
    ensures L.Ok() && |s.disk| == L.total && L.Home(s.lh[k])
    ensures s.lh[k] in s.cache && s.cache[s.lh[k]].refcnt > 0
  {
    hide Inv, HeadInv, CopyInv, SpaceInv, Pins;
    InvShape(L, s);
    NextPinned(s);
    assert BufOk(L, s.lh[k], s.cache[s.lh[k]], s.disk, Pins(s), true);
  }

  lemma CopyEnabled(L: Layout, s: State, k: nat)
    requires Inv(L, s) && s.phase == Logging(k) && k < |s.lh| && k + 1 < L.size
    requires s.lh[k] in s.cache && s.cache[s.lh[k]].holder == None
    requires var lb := L.start + 1 + k;
      if lb in s.cache then s.cache[lb].holder == None
      else |s.cache| < NBUF || exists x :: x in s.cache && s.cache[x].refcnt == 0
    ensures exists v1, v2 :: CanCopy(L, s, k, v1, v2)
  {
    hide Inv;
    var lb := L.start + 1 + k;
    CopyHome(L, s, k);
    if lb in s.cache || |s.cache| < NBUF {
      assert CanCopy(L, s, k, None, None);
    } else {
      var x :| x in s.cache && s.cache[x].refcnt == 0;
      assert CanCopy(L, s, k, Some(x), None);
    }
  }

  lemma CopyFinds(L: Layout, s: State, k: nat, v1: Option<nat>, v2: Option<nat>)
    requires CanCopy(L, s, k, v1, v2) && s.lh[k] in s.cache && s.cache[s.lh[k]].refcnt > 0
    ensures s.cache[s.lh[k]].holder == None
    ensures var lb := L.start + 1 + k;
      if lb in s.cache then s.cache[lb].holder == None
      else |s.cache| < NBUF || exists x :: x in s.cache && s.cache[x].refcnt == 0
  {
    hide Fetch;
    FetchOther(s.cache, s.disk, L.start + 1 + k, v1, s.lh[k]);
  }

  /** Fetching a block leaves a referenced one as it is. */
  lemma FetchOther(cache: map<nat, Buf>, disk: seq<Block>, x: nat, v: Option<nat>, b: nat)
    requires CanFetch(cache, x, v, x) && x < |disk| && b in cache && b != x && cache[b].refcnt > 0
    ensures b in Fetch(cache, disk, x, v) && Fetch(cache, disk, x, v)[b] == cache[b]
  {
  }

  /** The commit of a full log, which three operations of ten blocks each bring
      about, can never read a log block. */
  lemma FullLogStarvesCommit(L: Layout, lh: seq<nat>)
    requires L.Ok() && L.size > LOGSIZE && |lh| == LOGSIZE && Distinct(lh)
    requires forall i :: 0 <= i < |lh| ==> L.Home(lh[i])
    ensures exists s :: Reachable(L, s) && s.phase == Logging(0) && s.lh == lh
                        && forall v1, v2 :: !CanCopy(L, s, 0, v1, v2)
  {
    hide Reachable, Zero, CanCopy, Inv;
    FilledReachable(L, lh);
    var s := Closed(Filled(L, lh));
    ClosedReaches(L, Filled(L, lh));
    ReachInv(L, s);
    forall v1, v2 ensures !CanCopy(L, s, 0, v1, v2) { FullLogStarves(L, s, v1, v2); }
  }

  lemma ReachInv(L: Layout, s: State)
    requires Reachable(L, s) && L.Safe()
    ensures Inv(L, s)
  {
    hide Inv, Step, Init;
    var run: seq<State>, acts: seq<Action> :| IsRun(L, run, acts) && run[|run|-1] == s;
    RunInv(L, run, acts, |run| - 1);
  }
}
