/** What bread returns, over whole runs, and exactly when a change can be lost:
    a buffer that was changed and handed back without log_write may be recycled. */
module LogReads {
  import opened Basics
  import opened Blocks
  import opened LogProtocol
  import opened LogSafety
  import opened LogTheorems
  import Spec = AtomicDisk

  // ----- the last change of a block, by the history of the run

  /** The step from s to s' replaces or logs the cached content of b, installs
      it, or takes b out of memory. */
  ghost predicate Settles(s: State, a: Action, s': State, b: nat) {
    || (a.Modify? && a.b == b)
    || (a.LogWrite? && a.b == b)
    || (a.Install? && b in Pins(s) && b !in Pins(s'))
    || b in Gone(s, s')
  }

  /** Step k changed block b, and nothing has settled that change before i. */
  ghost predicate Unlogged(run: seq<State>, acts: seq<Action>, k: nat, i: nat, b: nat)
    requires i < |run| == |acts| + 1
  {
    && k < i && acts[k].Modify? && acts[k].b == b
    && forall m :: k < m < i ==> !Settles(run[m], acts[m], run[m+1], b)
  }

  /** Every unsettled change of b wrote what its disk block holds anyway. */
  ghost predicate OnDiskAnyway(run: seq<State>, acts: seq<Action>, i: nat, b: nat)
    requires i < |run| == |acts| + 1 && b < |run[i].disk|
  {
    forall k: nat :: Unlogged(run, acts, k, i, b) ==> acts[k].data == run[i].disk[b]
  }

  ghost predicate Dirty(s: State, b: nat) { b in s.cache && s.cache[b].dirty }

  lemma DirtyBuf(L: Layout, s: State, b: nat)
    requires Inv(L, s) && Dirty(s, b)
    ensures Up(s) && s.cache[b].valid && L.Home(b)
  {
    hide SpaceInv, HeadInv, CopyInv, Pins;
    assert BufOk(L, b, s.cache[b], s.disk, Pins(s), Up(s));
  }

  /** What one step does to the changed state of b. */
  ghost predicate DirtyStep(s: State, a: Action, s': State, b: nat) {
    if a.Modify? && a.b == b then Dirty(s', b) && s'.cache[b].data == a.data
    else
      && (Dirty(s', b) <==> Dirty(s, b) && !Settles(s, a, s', b))
      && (Dirty(s', b) ==> s'.cache[b].data == s.cache[b].data)
  }

  lemma BufferDirty(L: Layout, s: State, a: Action, s': State, b: nat)
    requires Inv(L, s) && Step(L, s, a, s')
    requires a.Get? || a.GetMiss? || a.Lock? || a.Modify? || a.Release?
    ensures DirtyStep(s, a, s', b)
  {
    hide Inv, CanFetch, Pins;
    if Dirty(s, b) { DirtyBuf(L, s, b); }
  }

  lemma BookDirty(L: Layout, s: State, a: Action, s': State, b: nat)
    requires Inv(L, s) && Step(L, s, a, s')
    requires a.LogTest? || a.LogWrite? || a.Begin? || a.End? || a.CommitNothing? || a.Finish? || a.Crash?
    ensures DirtyStep(s, a, s', b)
  {
    hide Inv, Pins;
  }

  lemma FetchDirty(cache: map<nat, Buf>, disk: seq<Block>, x: nat, v: Option<nat>, b: nat)
    requires x < |disk| && (b in cache && cache[b].dirty ==> cache[b].valid)
    ensures var c := Fetch(cache, disk, x, v);
      && (b in c && c[b].dirty <==> b in cache && b in c && cache[b].dirty)
      && (b in c && c[b].dirty ==> c[b] == cache[b])
      && (b in cache && b !in c ==> b != x)
  {
  }

  /** Fetching a block recycles no pinned one. */
  lemma FetchPinned(L: Layout, s: State, x: nat, v: Option<nat>, b: nat)
    requires Inv(L, s) && Up(s) && b in Pins(s) && x < |s.disk| && CanFetch(s.cache, x, v, x)
    ensures b in Fetch(s.cache, s.disk, x, v)
  {
    hide Inv, CanFetch, Pins, CacheOk, Fetch, Shifted;
    InvShape(L, s);
    FetchKeeps(L, s.cache, s.disk, Pins(s), true, x, v, x);
  }

  lemma CopyDirty(L: Layout, s: State, k: nat, v1: Option<nat>, v2: Option<nat>, b: nat)
    requires Inv(L, s) && Up(s) && CanCopy(L, s, k, v1, v2) && s.lh[k] in Pins(s)
    ensures var c := CopyCache(L, s, k, v1, v2);
      && (b in c && c[b].dirty <==> b in c && Dirty(s, b))
      && (b in c && c[b].dirty ==> c[b] == s.cache[b])
  {
    hide Inv, CanFetch, Pins, CacheOk, Fetch;
    if Dirty(s, b) { DirtyBuf(L, s, b); }
    var lb := L.start + 1 + k;
    FetchPinned(L, s, lb, v1, s.lh[k]);
    var c1 := Fetch(s.cache, s.disk, lb, v1);
    FetchDirty(s.cache, s.disk, lb, v1, b);
    FetchDirty(c1, s.disk, s.lh[k], v2, b);
    HitKeys(c1, s.disk, s.lh[k], v2);
  }

  lemma CopyToLogDirty(L: Layout, s: State, a: Action, s': State, b: nat)
    requires Inv(L, s) && L.Safe() && Step(L, s, a, s') && a.CopyToLog?
    ensures DirtyStep(s, a, s', b)
  {
    hide Inv, CanFetch, Pins, CopyCache;
    CopyInArea(L, s, a.v1, a.v2);
    NextPinned(s);
    CopyDirty(L, s, s.phase.next, a.v1, a.v2, b);
    if Dirty(s, b) { DirtyBuf(L, s, b); }
  }

  lemma InstallDirty(L: Layout, s: State, a: Action, s': State, b: nat)
    requires Inv(L, s) && Step(L, s, a, s') && a.Install?
    ensures DirtyStep(s, a, s', b)
  {
    hide Inv, CanFetch, Pins, CopyCache;
    InvShape(L, s);
    NextPinned(s);
    PinsAfterInstall(L, s, s');
    CopyDirty(L, s, s.phase.next, a.v1, a.v2, b);
  }

  lemma HeadDirty(L: Layout, s: State, a: Action, s': State, b: nat)
    requires Inv(L, s) && Step(L, s, a, s') && (a.CommitHead? || a.Clear?)
    ensures DirtyStep(s, a, s', b)
  {
    hide Inv, CanFetch, Pins, Fetch, EncodeHead;
    if Dirty(s, b) { DirtyBuf(L, s, b); }
    var v := if a.CommitHead? then a.v else a.v;
    FetchDirty(s.cache, s.disk, L.start, v, b);
  }

  lemma DownDirty(L: Layout, s: State, a: Action, s': State, b: nat)
    requires Inv(L, s) && L.Safe() && Step(L, s, a, s') && (a.ReadHead? || a.Replay? || a.ReplayDone?)
    ensures DirtyStep(s, a, s', b)
  {
    hide Inv, Step, Pins;
    assert !Up(s) by { DownActions(L, s, a, s'); }
    if Dirty(s, b) { DirtyBuf(L, s, b); }
    if Dirty(s', b) {
      StepKeeps(L, s, a, s');
      DirtyBuf(L, s', b);
      RunningNotDirty(L, s, a, s', b);
    }
  }

  lemma DownActions(L: Layout, s: State, a: Action, s': State)
    requires Step(L, s, a, s') && (a.ReadHead? || a.Replay? || a.ReplayDone?)
    ensures !Up(s)
  {
    hide CanFetch, CanCopy, CopyCache, Fetch, DecodeHead, EncodeHead, WriteHead, CanWriteHead;
  }

  lemma RunningNotDirty(L: Layout, s: State, a: Action, s': State, b: nat)
    requires Inv(L, s) && Step(L, s, a, s') && (a.ReadHead? || a.Replay? || a.ReplayDone?) && Up(s')
    ensures !Dirty(s', b)
  {
    hide Inv, Pins, CanFetch, CopyCache, Fetch, DecodeHead, EncodeHead;
    ReplayDoneInv(L, s, s', a.v);
    assert b !in Loose(s');
  }

  lemma StepDirty(L: Layout, s: State, a: Action, s': State, b: nat)
    requires Inv(L, s) && L.Safe() && Step(L, s, a, s')
    ensures DirtyStep(s, a, s', b)
  {
    hide Inv, Step, DirtyStep;
    match a
    case CopyToLog(_, _) => CopyToLogDirty(L, s, a, s', b);
    case Install(_, _) => InstallDirty(L, s, a, s', b);
    case CommitHead(_) => HeadDirty(L, s, a, s', b);
    case Clear(_) => HeadDirty(L, s, a, s', b);
    case ReadHead(_) => DownDirty(L, s, a, s', b);
    case Replay(_, _) => DownDirty(L, s, a, s', b);
    case ReplayDone(_) => DownDirty(L, s, a, s', b);
    case Get(_, _) => BufferDirty(L, s, a, s', b);
    case GetMiss(_, _, _) => BufferDirty(L, s, a, s', b);
    case Lock(_, _) => BufferDirty(L, s, a, s', b);
    case Modify(_, _, _) => BufferDirty(L, s, a, s', b);
    case Release(_, _) => BufferDirty(L, s, a, s', b);
    case LogTest(_, _) => BookDirty(L, s, a, s', b);
    case LogWrite(_, _) => BookDirty(L, s, a, s', b);
    case Begin(_) => BookDirty(L, s, a, s', b);
    case End(_) => BookDirty(L, s, a, s', b);
    case CommitNothing => BookDirty(L, s, a, s', b);
    case Finish => BookDirty(L, s, a, s', b);
    case Crash => BookDirty(L, s, a, s', b);
  }

  lemma {:induction false} UnloggedIsDirty(L: Layout, run: seq<State>, acts: seq<Action>, k: nat, i: nat, b: nat)
    requires IsRun(L, run, acts) && L.Safe() && i < |run| && Unlogged(run, acts, k, i, b)
    ensures Dirty(run[i], b) && run[i].cache[b].data == acts[k].data
  {
    hide Step, Inv, Pins, Gone;
    RunInv(L, run, acts, i - 1);
    StepDirty(L, run[i-1], acts[i-1], run[i], b);
    if k < i - 1 {
      UnloggedIsDirty(L, run, acts, k, i - 1, b);
    }
  }

  lemma {:induction false} DirtyIsUnlogged(L: Layout, run: seq<State>, acts: seq<Action>, i: nat, b: nat)
      returns (k: nat)
    requires IsRun(L, run, acts) && L.Safe() && i < |run| && Dirty(run[i], b)
    ensures Unlogged(run, acts, k, i, b)
    decreases i
  {
    hide Step, Inv, Settles, DecodeHead;
    assert i > 0;
    RunInv(L, run, acts, i - 1);
    StepDirty(L, run[i-1], acts[i-1], run[i], b);
    if acts[i-1].Modify? && acts[i-1].b == b {
      k := i - 1;
    } else {
      k := DirtyIsUnlogged(L, run, acts, i - 1, b);
    }
  }

  /** A cached block is marked as changed exactly when the run changed it and
      nothing has settled that change since; then it holds what was written. */
  lemma DirtyIff(L: Layout, run: seq<State>, acts: seq<Action>, i: nat, b: nat)
    requires IsRun(L, run, acts) && L.Safe() && i < |run|
    ensures Dirty(run[i], b) <==> exists k: nat :: Unlogged(run, acts, k, i, b)
    ensures forall k: nat :: Unlogged(run, acts, k, i, b) ==> Dirty(run[i], b) && run[i].cache[b].data == acts[k].data
  {
    if Dirty(run[i], b) { var k := DirtyIsUnlogged(L, run, acts, i, b); }
    forall k: nat | Unlogged(run, acts, k, i, b) ensures Dirty(run[i], b) && run[i].cache[b].data == acts[k].data {
      UnloggedIsDirty(L, run, acts, k, i, b);
    }
  }

  // ----- recycling and the quiet disk

  lemma UnpinnedContent(L: Layout, run: seq<State>, acts: seq<Action>, i: nat, b: nat)
    requires IsRun(L, run, acts) && L.Safe() && i < |run| && b < L.total && b !in Pins(run[i])
    requires b in run[i].cache && run[i].cache[b].valid
    ensures |run[i].disk| == L.total
    ensures run[i].cache[b].data == run[i].disk[b] <==> OnDiskAnyway(run, acts, i, b)
  {
    hide IsRun, Unlogged, Inv, SpaceInv, HeadInv, CopyInv;
    RunInv(L, run, acts, i);
    InvShape(L, run[i]);
    DirtyIff(L, run, acts, i, b);
    var s := run[i];
    assert BufOk(L, b, s.cache[b], s.disk, Pins(s), Up(s));
  }

  /** Recycling loses nothing exactly when the buffer holds no change that was
      handed back without log_write, or one that wrote what the disk has. */
  lemma RecyclingLosesNothing(L: Layout, run: seq<State>, acts: seq<Action>, i: nat, b: nat)
    requires IsRun(L, run, acts) && L.Safe() && i < |acts| && !acts[i].Crash?
    requires b in Gone(run[i], run[i+1]) && run[i].cache[b].valid
    ensures |run[i].disk| == L.total && b < L.total && b !in Pins(run[i])
    ensures run[i].cache[b].data == run[i].disk[b] <==> OnDiskAnyway(run, acts, i, b)
  {
    hide Step, Inv;
    RunInv(L, run, acts, i);
    RunInv(L, run, acts, i + 1);
    PinsSurvive(L, run, acts, i);
    InvShape(L, run[i]);
    assert b < L.total by { hide SpaceInv, HeadInv, CopyInv; }
    assert b !in Pins(run[i]);
    UnpinnedContent(L, run, acts, i, b);
  }

  lemma PinsSurvive(L: Layout, run: seq<State>, acts: seq<Action>, i: nat)
    requires IsRun(L, run, acts) && L.Safe() && i < |acts| && !acts[i].Crash?
    ensures forall b :: b in Pins(run[i]) ==> b in run[i+1].cache
  {
    hide Inv, Pins, Loose, Gone, RecoveredAt, CurrentAt, CanCopy, CopyCache, WriteHead, CanWriteHead, SpaceInv,
      HeadInv, CopyInv, CacheOk;
    RunRefines(L, run, acts, i);
    InvShape(L, run[i]);
    InvShape(L, run[i+1]);
    var s, a, s' := run[i], acts[i], run[i+1];
    assert Step(L, s, a, s');
    if a.Install? {
      InstallCache(L, s, s', a.v1, a.v2);
    } else {
      PinsLogged(a, Abs(L, s), Abs(L, s'), Gone(s, s'));
      CachedPinsOf(L, s');
    }
  }

  lemma CachedPinsOf(L: Layout, s: State)
    requires CacheOk(L, s.cache, s.disk, Pins(s), Up(s))
    ensures forall b :: b in Pins(s) ==> b in s.cache
  {
    hide Pins;
  }

  lemma PinsLogged(a: Action, d: Spec.Disk, d': Spec.Disk, gone: set<nat>)
    requires SpecStep(a, d, d', gone) && !a.Crash? && !a.Install?
    ensures d.logged <= d'.logged
  {
  }

  /** With no operation open the log is empty, the disk is the committed view,
      and it is the current view of b exactly when b holds no abandoned change,
      or one that wrote what the disk has. */
  lemma QuietDiskIsCurrent(L: Layout, run: seq<State>, acts: seq<Action>, i: nat, b: nat)
    requires IsRun(L, run, acts) && L.Safe() && i < |run| && L.Home(b)
    requires run[i].phase.Running? && run[i].ops == map[]
    ensures |run[i].disk| == L.total && run[i].lh == []
    ensures run[i].disk[b] == RecoveredAt(L, run[i].disk, b)
    ensures run[i].disk[b] == CurrentAt(L, run[i], b) <==> OnDiskAnyway(run, acts, i, b)
  {
    hide IsRun, Unlogged, Inv, HeadInv, CopyInv, CacheOk, DecodeHead, Unused;
    RunInv(L, run, acts, i);
    InvShape(L, run[i]);
    HeadlessRecovered(L, run[i], b);
    assert Pins(run[i]) == {};
    if b in run[i].cache && run[i].cache[b].valid {
      UnpinnedContent(L, run, acts, i, b);
    } else {
      DirtyIff(L, run, acts, i, b);
      if Dirty(run[i], b) { DirtyBuf(L, run[i], b); }
    }
  }

  // ----- reading

  /** A step between i and j recycled the buffer of b while b was loose. */
  ghost predicate Lost(run: seq<State>, i: nat, j: nat, b: nat)
    requires j < |run|
  {
    exists m :: i <= m < j && LostAt(run, m, b)
  }

  ghost predicate LostAt(run: seq<State>, m: nat, b: nat)
    requires m + 1 < |run|
  {
    b in Loose(run[m]) && b in Gone(run[m], run[m+1])
  }

  lemma SpecStays(a: Action, d: Spec.Disk, d': Spec.Disk, gone: set<nat>, b: nat)
    requires SpecStep(a, d, d', gone) && !a.Crash? && !(a.Modify? && a.b == b)
    requires b in d.current && b in d.committed
    ensures b in d'.current && b in d'.committed
    ensures b in d'.loose ==> b in d.loose && d'.committed[b] == d.committed[b]
    ensures d'.current[b] == if b in d.loose && b in gone then d.committed[b] else d.current[b]
  {
  }

  lemma StepStays(L: Layout, s: State, a: Action, s': State, b: nat)
    requires Inv(L, s) && L.Safe() && Step(L, s, a, s') && L.Home(b) && !a.Crash? && !(a.Modify? && a.b == b)
    ensures Inv(L, s')
    ensures b in Loose(s') ==> b in Loose(s) && RecoveredAt(L, s'.disk, b) == RecoveredAt(L, s.disk, b)
    ensures CurrentAt(L, s', b)
         == if b in Loose(s) && b in Gone(s, s') then RecoveredAt(L, s.disk, b) else CurrentAt(L, s, b)
  {
    hide Inv, Step, Pins, Loose, Gone, RecoveredAt, CurrentAt, SpecStep;
    StepKeeps(L, s, a, s');
    InvShape(L, s);
    InvShape(L, s');
    SpecStays(a, Abs(L, s), Abs(L, s'), Gone(s, s'), b);
  }

  ghost predicate Undisturbed(acts: seq<Action>, i: nat, j: nat, b: nat)
    requires j <= |acts|
  {
    forall m :: i <= m < j ==> !acts[m].Crash? && !(acts[m].Modify? && acts[m].b == b)
  }

  /** Without a crash or another write of b, what bread of b returns changes
      exactly when the buffer of b is recycled while loose: then it falls back
      to what was committed. */
  lemma {:induction false} CurrentStays(L: Layout, run: seq<State>, acts: seq<Action>, i: nat, j: nat, b: nat)
    requires IsRun(L, run, acts) && L.Safe() && i <= j < |run| && L.Home(b) && Undisturbed(acts, i, j, b)
    ensures |run[i].disk| == |run[j].disk| == L.total
    ensures CurrentAt(L, run[j], b) == if Lost(run, i, j, b) then RecoveredAt(L, run[i].disk, b)
      else CurrentAt(L, run[i], b)
    ensures Lost(run, i, j, b) ==> b in Loose(run[i])
    decreases j - i
  {
    hide Step, CurrentAt, RecoveredAt, Inv, Loose, Gone;
    RunInv(L, run, acts, i);
    InvShape(L, run[i]);
    if i < j {
      StepStays(L, run[i], acts[i], run[i+1], b);
      CurrentStays(L, run, acts, i + 1, j, b);
      assert Lost(run, i, j, b) <==> LostAt(run, i, b) || Lost(run, i + 1, j, b) by { LostSplit(run, i, j, b); }
      if LostAt(run, i, b) { GoneTight(L, run[i], run[i+1], b); }
    }
  }

  lemma GoneTight(L: Layout, s: State, s': State, b: nat)
    requires b in Gone(s, s')
    ensures b !in Loose(s')
  {
    hide Pins;
  }

  lemma LostSplit(run: seq<State>, i: nat, j: nat, b: nat)
    requires i < j < |run|
    ensures Lost(run, i, j, b) <==> LostAt(run, i, b) || Lost(run, i + 1, j, b)
  {
    hide LostAt;
    if Lost(run, i + 1, j, b) {
      var m: nat :| i + 1 <= m < j && LostAt(run, m, b);
      assert i <= m < j && LostAt(run, m, b);
    }
    if LostAt(run, i, b) { assert i <= i < j && LostAt(run, i, b); }
  }

  /** bread after a write returns what was written, unless the buffer was
      recycled in between with the change unlogged; then it returns what was
      committed before the write. */
  lemma BreadReturnsLastWrite(L: Layout, run: seq<State>, acts: seq<Action>, i: nat, j: nat)
    requires IsRun(L, run, acts) && L.Safe() && i < j < |acts|
    requires acts[i].Modify? && acts[j].Lock? && acts[j].b == acts[i].b
    requires Undisturbed(acts, i + 1, j, acts[i].b)
    ensures acts[j].b in run[j+1].cache && |run[i].disk| == L.total && acts[i].b < L.total && L.Ok()
    ensures run[j+1].cache[acts[j].b].data
         == if Lost(run, i + 1, j, acts[i].b) then RecoveredAt(L, run[i].disk, acts[i].b) else acts[i].data
  {
    hide RecoveredAt, Inv, Pins, Lost, SpaceInv, HeadInv, CopyInv, CacheOk, CanFetch, CanCopy, CopyCache, WriteHead,
      CanWriteHead;
    var b := acts[i].b;
    RunInv(L, run, acts, i);
    InvShape(L, run[i]);
    assert Step(L, run[i], acts[i], run[i+1]) && Step(L, run[j], acts[j], run[j+1]);
    ModifyViews(L, run[i], run[i+1], acts[i].p, b, acts[i].data);
    CurrentStays(L, run, acts, i + 1, j, b);
    RunInv(L, run, acts, j);
    LockKeeps(L, run[j], run[j+1], acts[j].p, b);
  }

  // ----- the discipline that keeps a change: log_write before brelse

  lemma HeldBuf(L: Layout, s: State, b: nat)
    requires Inv(L, s) && b in s.cache && s.cache[b].holder.Some?
    ensures s.cache[b].refcnt > 0 && s.cache[b].valid && b < L.total
  {
    hide SpaceInv, HeadInv, CopyInv, Pins;
    assert BufOk(L, b, s.cache[b], s.disk, Pins(s), Up(s));
    assert s.cache[b].users != {};
  }

  lemma FetchHeld(cache: map<nat, Buf>, disk: seq<Block>, x: nat, v: Option<nat>, keep: nat, b: nat)
    requires x < |disk| && CanFetch(cache, x, v, keep) && b in cache && cache[b].holder.Some? && cache[b].refcnt > 0
    ensures var c := Fetch(cache, disk, x, v);
      b in c && c[b] == cache[b] && b != x
  {
  }

  lemma HeldCopy(L: Layout, s: State, k: nat, v1: Option<nat>, v2: Option<nat>, b: nat)
    requires CanCopy(L, s, k, v1, v2) && b in s.cache && s.cache[b].holder.Some? && s.cache[b].refcnt > 0
    ensures var c := CopyCache(L, s, k, v1, v2);
      b in c && c[b] == s.cache[b] && b != L.start + 1 + k && b != s.lh[k]
  {
    hide Fetch, CanFetch;
    FetchHeld(s.cache, s.disk, L.start + 1 + k, v1, L.start + 1 + k, b);
    FetchHeld(Fetch(s.cache, s.disk, L.start + 1 + k, v1), s.disk, s.lh[k], v2, L.start + 1 + k, b);
  }

  /** A locked buffer stays in memory until its holder releases it. */
  lemma HeldStays(L: Layout, s: State, a: Action, s': State, b: nat)
    requires Inv(L, s) && Step(L, s, a, s') && !a.Crash? && !(a.Release? && a.b == b)
    requires b in s.cache && s.cache[b].holder.Some?
    ensures b in s'.cache && s'.cache[b].holder == s.cache[b].holder
  {
    hide Inv, Fetch, CopyCache, DecodeHead, EncodeHead;
    HeldBuf(L, s, b);
    if a.CopyToLog? || a.Install? || a.Replay? {
      HeldCopy(L, s, s.phase.next, a.v1, a.v2, b);
    } else if a.CommitHead? || a.Clear? || a.ReadHead? || a.ReplayDone? {
      FetchHeld(s.cache, s.disk, L.start, a.v, L.start, b);
    }
  }

  lemma {:induction false} HeldUntil(L: Layout, run: seq<State>, acts: seq<Action>, i: nat, m: nat, b: nat)
    requires IsRun(L, run, acts) && L.Safe() && i <= m < |run| && Undisturbed(acts, i, m, b)
    requires forall x :: i <= x < m ==> !(acts[x].Release? && acts[x].b == b)
    requires b in run[i].cache && run[i].cache[b].holder.Some?
    ensures b in run[m].cache && run[m].cache[b].holder.Some? && !Lost(run, i, m, b)
    decreases m - i
  {
    hide Step, Inv, Loose, Lost;
    RunInv(L, run, acts, i);
    if i < m {
      HeldStays(L, run[i], acts[i], run[i+1], b);
      HeldUntil(L, run, acts, i + 1, m, b);
      LostSplit(run, i, m, b);
    } else {
      LostNever(run, i, b);
    }
  }

  lemma LostNever(run: seq<State>, i: nat, b: nat)
    requires i < |run|
    ensures !Lost(run, i, i, b)
  {
  }

  lemma {:induction false} LostJoin(run: seq<State>, i: nat, m: nat, j: nat, b: nat)
    requires i <= m <= j < |run|
    ensures Lost(run, i, j, b) <==> Lost(run, i, m, b) || Lost(run, m, j, b)
    decreases m - i
  {
    hide LostAt, Lost;
    if i < m {
      LostSplit(run, i, j, b);
      LostSplit(run, i, m, b);
      LostJoin(run, i + 1, m, j, b);
    } else {
      LostNever(run, i, b);
    }
  }

  /** An operation that passes a changed buffer to log_write before brelse never
      loses the change: every later bread returns it, until the next write or a crash. */
  lemma LoggedWriteIsRead(L: Layout, run: seq<State>, acts: seq<Action>, i: nat, m: nat, j: nat)
    requires IsRun(L, run, acts) && L.Safe() && i < m < j < |acts|
    requires acts[i].Modify? && acts[m].LogWrite? && acts[m].b == acts[i].b && acts[j].Lock? && acts[j].b == acts[i].b
    requires Undisturbed(acts, i + 1, j, acts[i].b)
    requires forall x :: i < x < m ==> !(acts[x].Release? && acts[x].b == acts[i].b)
    ensures acts[j].b in run[j+1].cache && run[j+1].cache[acts[j].b].data == acts[i].data
  {
    hide Step, Inv, Loose, Lost, RecoveredAt;
    var b := acts[i].b;
    ModifyHolds(L, run[i], acts[i], run[i+1]);
    HeldUntil(L, run, acts, i + 1, m, b);
    RunInv(L, run, acts, m);
    LogWriteTight(L, run[m], acts[m], run[m+1]);
    LostSplit(run, m, j, b);
    CurrentStays(L, run, acts, m + 1, j, b);
    LostJoin(run, i + 1, m, j, b);
    BreadReturnsLastWrite(L, run, acts, i, j);
  }

  lemma ModifyHolds(L: Layout, s: State, a: Action, s': State)
    requires Step(L, s, a, s') && a.Modify?
    ensures L.Home(a.b) && a.b in s'.cache && s'.cache[a.b].holder.Some?
  {
  }

  lemma LogWriteTight(L: Layout, s: State, a: Action, s': State)
    requires Step(L, s, a, s') && a.LogWrite?
    ensures a.b !in Loose(s') && a.b !in Gone(s, s')
  {
    hide Pins;
  }

  // ----- the two halves of log_write

  lemma TestedStep(L: Layout, s: State, a: Action, s': State, p: Pid)
    requires Step(L, s, a, s') && p in s'.tested && !(a.LogTest? && a.p == p)
    ensures p in s.tested && s.tested[p] == s'.tested[p] && !a.Crash?
    ensures a.Release? ==> a.p != p && a.b in s.cache && s.cache[a.b].holder == Some(a.p)
  {
    hide Fetch, CopyCache, CanFetch, CanCopy, DecodeHead, EncodeHead;
  }

  /** Between the test and the locked section the caller still holds the buffer,
      so nothing but its reservation decides whether the append takes place. */
  lemma {:induction false} TestedHolds(L: Layout, run: seq<State>, acts: seq<Action>, i: nat, p: Pid)
    requires IsRun(L, run, acts) && L.Safe() && i < |run| && p in run[i].tested
    ensures var s, b := run[i], run[i].tested[p];
      && p in s.ops && L.Home(b) && b in s.cache && s.cache[b].holder == Some(p) && L.size >= 2
      && (b in s.lh || s.ops[p] < MAXOPBLOCKS ==> exists s' :: Step(L, s, LogWrite(p, b), s'))
  {
    hide Step, DecodeHead, Inv, Unused;
    RunSpace(L, run, acts, i);
    if i > 0 {
      RunInv(L, run, acts, i - 1);
      var s, a := run[i-1], acts[i-1];
      if a.LogTest? && a.p == p {
        TestHolds(L, s, a, run[i]);
      } else {
        TestedStep(L, s, a, run[i], p);
        TestedHolds(L, run, acts, i - 1, p);
        HeldStays(L, s, a, run[i], s.tested[p]);
      }
      OpensUp(L, run[i], p);
      AppendEnabled(L, run[i], p);
    }
  }

  lemma TestHolds(L: Layout, s: State, a: Action, s': State)
    requires Step(L, s, a, s') && a.LogTest?
    ensures s'.tested[a.p] == a.b && L.Home(a.b) && a.b in s'.cache && s'.cache[a.b].holder == Some(a.p)
  {
  }

  lemma OpensUp(L: Layout, s: State, p: Pid)
    requires SpaceInv(L, s) && p in s.tested
    ensures p in s.ops && Up(s) && L.size >= 2
  {
    hide DecodeHead, Unused;
    assert p in s.ops.Keys;
  }

  lemma AppendEnabled(L: Layout, s: State, p: Pid)
    requires p in s.tested && p in s.ops && Up(s)
    requires var b := s.tested[p]; L.Home(b) && b in s.cache && s.cache[b].holder == Some(p)
    ensures var b := s.tested[p];
      b in s.lh || s.ops[p] < MAXOPBLOCKS ==> exists s' :: Step(L, s, LogWrite(p, b), s')
  {
    var b := s.tested[p];
    var u := s.cache[b].(dirty := false);
    if b in s.lh {
      assert Step(L, s, LogWrite(p, b), s.(cache := s.cache[b := u], tested := s.tested - {p}));
    } else if s.ops[p] < MAXOPBLOCKS {
      assert Step(L, s, LogWrite(p, b), s.(cache := s.cache[b := u.(refcnt := u.refcnt + 1)], lh := s.lh + [b],
                                          ops := s.ops[p := s.ops[p] + 1], tested := s.tested - {p}));
    }
  }
}
