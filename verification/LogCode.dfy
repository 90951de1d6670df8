/** The code of the log: the in-memory header, its copy loops and the system
    call brackets, over the cache and the disk. Every method extends a ghost
    run of the log protocol, so what is proved of all runs, crashes included,
    holds at each block write the code makes. */
module LogCode {
  import opened Basics
  import opened Blocks
  import opened LogProtocol
  import opened LogSafety
  import opened LogTheorems

  lemma LastInv(L: Layout, run: seq<State>, acts: seq<Action>)
    requires IsRun(L, run, acts) && L.Safe()
    ensures |run| > 0 && Inv(L, run[|run|-1])
  {
    hide Step, Inv;
    RunInv(L, run, acts, |run| - 1);
  }

  lemma LastSpace(L: Layout, run: seq<State>, acts: seq<Action>)
    requires IsRun(L, run, acts)
    ensures |run| > 0 && SpaceInv(L, run[|run|-1])
  {
    hide Step, SpaceInv;
    RunSpace(L, run, acts, |run| - 1);
  }

  // Each concrete step is a step of the protocol.

  lemma StepLogWrite(L: Layout, s: State, s': State, p: Pid, b: nat)
    ensures LogTestStep(L, s, s', p, b) ==> Step(L, s, LogTest(p, b), s')
    ensures LogWriteStep(L, s, s', p, b) ==> Step(L, s, LogWrite(p, b), s')
  {
    hide GetStep, GetMissStep, LockStep, ModifyStep, LogTestStep, LogWriteStep, ReleaseStep, BeginStep, EndStep,
      CopyToLogStep, CommitHeadStep;
    hide InstallStep, ClearStep, CommitNothingStep, FinishStep, CrashStep, ReadHeadStep, ReplayStep, ReplayDoneStep;
  }

  lemma StepBegin(L: Layout, s: State, s': State, p: Pid)
    ensures BeginStep(L, s, s', p) ==> Step(L, s, Begin(p), s')
  {
    hide GetStep, GetMissStep, LockStep, ModifyStep, LogTestStep, LogWriteStep, ReleaseStep, BeginStep, EndStep,
      CopyToLogStep, CommitHeadStep;
    hide InstallStep, ClearStep, CommitNothingStep, FinishStep, CrashStep, ReadHeadStep, ReplayStep, ReplayDoneStep;
  }

  lemma StepEnd(L: Layout, s: State, s': State, p: Pid)
    ensures EndStep(L, s, s', p) ==> Step(L, s, End(p), s')
  {
    hide GetStep, GetMissStep, LockStep, ModifyStep, LogTestStep, LogWriteStep, ReleaseStep, BeginStep, EndStep,
      CopyToLogStep, CommitHeadStep;
    hide InstallStep, ClearStep, CommitNothingStep, FinishStep, CrashStep, ReadHeadStep, ReplayStep, ReplayDoneStep;
  }

  lemma StepCopyToLog(L: Layout, s: State, s': State, v1: Option<nat>, v2: Option<nat>)
    ensures CopyToLogStep(L, s, s', v1, v2) ==> Step(L, s, CopyToLog(v1, v2), s')
  {
    hide GetStep, GetMissStep, LockStep, ModifyStep, LogTestStep, LogWriteStep, ReleaseStep, BeginStep, EndStep,
      CopyToLogStep, CommitHeadStep;
    hide InstallStep, ClearStep, CommitNothingStep, FinishStep, CrashStep, ReadHeadStep, ReplayStep, ReplayDoneStep;
  }

  lemma PairCopies(L: Layout, s: State, k: nat, v1: Option<nat>, v2: Option<nat>)
    requires L.Ok() && |s.disk| == L.total && k < |s.lh| && L.start + 1 + k < L.total && s.lh[k] < L.total
      && s.lh[k] != L.start + 1 + k
    requires CanFetch(s.cache, L.start + 1 + k, v1, L.start + 1 + k)
    requires CanFetch(Fetch(s.cache, s.disk, L.start + 1 + k, v1), s.lh[k], v2, L.start + 1 + k)
    ensures CanCopy(L, s, k, v1, v2)
    ensures CopyCache(L, s, k, v1, v2) == Fetch(Fetch(s.cache, s.disk, L.start + 1 + k, v1), s.disk, s.lh[k], v2)
  {
    hide Fetch, CanFetch;
  }

  lemma MakesInstall(L: Layout, s: State, k: nat, v1: Option<nat>, v2: Option<nat>, u: Buf)
    requires CanCopy(L, s, k, v1, v2)
    requires u == CopyCache(L, s, k, v1, v2)[s.lh[k]].(data := CopyCache(L, s, k, v1, v2)[L.start + 1 + k].data)
    ensures var c, d := CopyCache(L, s, k, v1, v2), s.disk[s.lh[k] := u.data];
      && (s.phase == Installing(k) ==>
            InstallStep(L, s, s.(disk := d, cache := c[s.lh[k] := u.(dirty := false, refcnt := u.refcnt - 1)],
              phase := Installing(k + 1)), v1, v2))
      && (s.phase == Replaying(k) ==>
            ReplayStep(L, s, s.(disk := d, cache := c[s.lh[k] := u], phase := Replaying(k + 1)), v1, v2))
  {
    hide CanCopy, CopyCache;
  }

  lemma StepInstall(L: Layout, s: State, s': State, v1: Option<nat>, v2: Option<nat>)
    ensures InstallStep(L, s, s', v1, v2) ==> Step(L, s, Install(v1, v2), s')
    ensures ReplayStep(L, s, s', v1, v2) ==> Step(L, s, Replay(v1, v2), s')
  {
    hide GetStep, GetMissStep, LockStep, ModifyStep, LogTestStep, LogWriteStep, ReleaseStep, BeginStep, EndStep,
      CopyToLogStep, CommitHeadStep;
    hide InstallStep, ClearStep, CommitNothingStep, FinishStep, CrashStep, ReadHeadStep, ReplayStep, ReplayDoneStep;
  }

  lemma StepHead(L: Layout, s: State, s': State, v: Option<nat>)
    ensures CommitHeadStep(L, s, s', v) ==> Step(L, s, CommitHead(v), s')
    ensures ClearStep(L, s, s', v) ==> Step(L, s, Clear(v), s')
    ensures ReplayDoneStep(L, s, s', v) ==> Step(L, s, ReplayDone(v), s')
    ensures ReadHeadStep(L, s, s', v) ==> Step(L, s, ReadHead(v), s')
  {
    hide GetStep, GetMissStep, LockStep, ModifyStep, LogTestStep, LogWriteStep, ReleaseStep, BeginStep, EndStep,
      CopyToLogStep, CommitHeadStep;
    hide InstallStep, ClearStep, CommitNothingStep, FinishStep, CrashStep, ReadHeadStep, ReplayStep, ReplayDoneStep;
  }

  lemma Erases(L: Layout, s: State, s': State, v: Option<nat>, next: Phase)
    requires CanWriteHead(L, s.(lh := []), v, []) && s' == WriteHead(L, s.(lh := []), v, [], next)
    requires if s.phase.Installing? then s.phase.next == |s.lh| && next == Cleared
      else s.phase == Replaying(|s.lh|) && next == Running
    ensures Step(L, s, if s.phase.Installing? then Clear(v) else ReplayDone(v), s') && s'.phase == next && s'.lh == []
  {
    hide Step, CanFetch, Fetch, EncodeHead;
    StepHead(L, s, s', v);
  }

  lemma StepPhase(L: Layout, s: State, s': State)
    ensures CommitNothingStep(L, s, s') ==> Step(L, s, CommitNothing, s')
    ensures FinishStep(L, s, s') ==> Step(L, s, Finish, s')
    ensures CrashStep(L, s, s') ==> Step(L, s, Crash, s')
  {
    hide GetStep, GetMissStep, LockStep, ModifyStep, LogTestStep, LogWriteStep, ReleaseStep, BeginStep, EndStep,
      CopyToLogStep, CommitHeadStep;
    hide InstallStep, ClearStep, CommitNothingStep, FinishStep, CrashStep, ReadHeadStep, ReplayStep, ReplayDoneStep;
  }

  ghost predicate ReferencedBut(cache: map<nat, Buf>, keep: nat) {
    forall v :: v in cache && v != keep ==> cache[v].refcnt != 0
  }

  class Log {
    const L: Layout
    const block: array<nat>    // Log.lh.block
    var n: nat                 // Log.lh.n
    var outstanding: int
    var committing: bool
    var cache: map<nat, Buf>
    var disk: seq<Block>
    ghost var ops: map<Pid, nat>
    ghost var tested: map<Pid, nat>
    ghost var phase: Phase
    ghost var run: seq<State>
    ghost var acts: seq<Action>

    ghost function View(): State
      requires n <= block.Length
      reads this, block
    {
      State(disk, cache, block[..n], outstanding, committing, ops, tested, phase)
    }

    /** The object is at the end of a run of the protocol. */
    ghost predicate Valid()
      reads this, block
    {
      && block.Length == LOGSIZE && n <= LOGSIZE
      && IsRun(L, run, acts) && run[|run|-1] == View()
    }

    /** No other process holds a buffer: a bread here never waits. */
    ghost predicate Unlocked()
      reads this
    {
      forall b :: b in cache ==> cache[b].holder == None
    }

    /** bget's panic: no buffer is left but, perhaps, the one just read. */
    ghost predicate Starved()
      reads this
    {
      |cache| >= NBUF && exists keep: nat :: ReferencedBut(cache, keep)
    }

    /** Why a commit stops: no buffer is left, or the log area has no block for
        the next copy and the disk none after it. */
    ghost predicate Stuck()
      reads this
    {
      Starved() || n >= L.size
    }

    /** Nobody refers to any buffer, as during recovery. */
    ghost predicate Idle()
      reads this
    {
      forall b :: b in cache ==> cache[b].refcnt == 0
    }

    /** Power-on: memory empty, disk as found. */
    constructor (L0: Layout, disk0: seq<Block>)
      requires L0.Ok() && |disk0| == L0.total && L0.HeadFits(DecodeHead(disk0[L0.start]))
      ensures Valid() && L == L0 && disk == disk0 && phase == Booting && fresh(block)
      ensures cache == map[] && acts == []
    {
      L := L0;
      block := new nat[LOGSIZE](i => 0);
      n, outstanding, committing, cache, disk := 0, 0, false, map[], disk0;
      ops, tested, phase := map[], map[], Booting;
      run, acts := [State(disk0, map[], [], 0, false, map[], map[], Booting)], [];
    }

    ghost method Record(a: Action)
      requires block.Length == LOGSIZE && n <= LOGSIZE
      modifies this`run, this`acts
      ensures old(IsRun(L, run, acts) && Step(L, run[|run|-1], a, View())) ==> Valid()
      ensures run == old(run) + [View()] && acts == old(acts) + [a]
    {
      hide Step;
      if IsRun(L, run, acts) && Step(L, run[|run|-1], a, View()) { RunSnoc(L, run, acts, a, View()); }
      run, acts := run + [View()], acts + [a];
    }

    /** bread by the log code. Fails, as bget panics, when every other buffer is
        referenced, and as the driver does when the disk has no such block. */
    method Bread(b: nat, keep: nat) returns (ok: bool, ghost victim: Option<nat>)
      requires Unlocked()
      modifies this`cache
      ensures ok ==> b < |disk| && CanFetch(old(cache), b, victim, keep) && cache == Fetch(old(cache), disk, b, victim)
      ensures !ok ==> cache == old(cache)
      ensures !ok && b < |disk| ==> b !in cache && |cache| >= NBUF && ReferencedBut(cache, keep) && Starved()
      ensures Unlocked() && (old(Idle()) && b < |disk| ==> ok && Idle())
    {
      if b >= |disk| {
        return false, None;
      }
      if |cache| >= NBUF { SecondBuffer(cache, keep); }
      if b in cache {
        cache := Fetch(cache, disk, b, None);
        return true, None;
      }
      if |cache| < NBUF {
        cache := Fetch(cache, disk, b, None);
        return true, None;
      }
      if v :| v in cache && v != keep && cache[v].refcnt == 0 {
        cache := Fetch(cache, disk, b, Some(v));
        return true, Some(v);
      }
      assert ReferencedBut(cache, keep);
      return false, None;
    }

    /** One pass of begin_op's loop: the caller is admitted, or goes to sleep
        with nothing changed. */
    method BeginOp(p: Pid) returns (admitted: bool)
      requires Valid() && Up(View()) && p !in ops
      modifies this`outstanding, this`ops, this`run, this`acts
      ensures Valid() && old(run) <= run
      ensures admitted <==> !old(committing) && n + (old(outstanding) + 1) * MAXOPBLOCKS <= LOGSIZE
      ensures if admitted then acts == old(acts) + [Begin(p)] && ops == old(ops)[p := 0]
        && outstanding == old(outstanding) + 1
              else acts == old(acts) && View() == old(View())
    {
      hide Step, IsRun;
      ghost var s := View();
      if committing {
        return false;
      } else if n + (outstanding + 1) * MAXOPBLOCKS > LOGSIZE {
        return false;
      } else {
        outstanding := outstanding + 1;
        ops := ops[p := 0];
        StepBegin(L, s, View(), p);
        Record(Begin(p));
        return true;
      }
    }

    /** The scan of log_write: where b is already logged, or the next free slot. */
    method FindSlot(b: nat) returns (i: nat)
      requires n <= block.Length
      ensures i <= n && b !in block[..i]
      ensures i < n ==> block[i] == b
    {
      i := 0;
      while i < n && block[i] != b
        invariant 0 <= i <= n
        invariant b !in block[..i]
      {
        i := i + 1;
      }
    }

    /** The test of log_write, made without the lock. */
    method LogTest(p: Pid, b: nat) returns (panic: bool)
      requires Valid() && Up(View()) && p in ops && p !in tested && L.Home(b)
      requires b in cache && cache[b].holder == Some(p)
      modifies this`tested, this`run, this`acts
      ensures Valid() && old(run) <= run
      ensures panic <==> old(LogWritePanics(L, View()))
      ensures if panic then View() == old(View())
        else tested == old(tested)[p := b] && acts == old(acts) + [Action.LogTest(p, b)]
    {
      hide Step, IsRun;
      ghost var s := View();
      if n >= LOGSIZE || n >= L.size - 1 {
        return true;
      }
      tested := tested[p := b];
      assert LogTestStep(L, s, View(), p, b);
      StepLogWrite(L, s, View(), p, b);
      Record(Action.LogTest(p, b));
      return false;
    }

    /** Enter b in the list unless it is there. */
    method Enter(b: nat) returns (added: bool)
      requires n <= block.Length && (b !in block[..n] ==> n < block.Length)
      modifies this`n, block
      ensures n <= block.Length && added == (b !in old(block[..n]))
      ensures block[..n] == if added then old(block[..n]) + [b] else old(block[..n])
    {
      var i := FindSlot(b);
      block[i] := b;
      added := i == n;
      if i == n {
        n := n + 1;
      }
    }

    /** The locked section of log_write: the block number is absorbed or
        appended. The slot is in bounds by the reservation, not by the test. */
    method LogWrite(p: Pid, b: nat)
      requires Valid() && Up(View()) && p in ops && p in tested && tested[p] == b && L.Home(b)
      requires b in cache && cache[b].holder == Some(p)
      requires b !in View().lh ==> ops[p] < MAXOPBLOCKS
      modifies this`cache, this`n, this`ops, this`tested, this`run, this`acts, block
      ensures Valid() && old(run) <= run
      ensures acts == old(acts) + [Action.LogWrite(p, b)] && LogWriteStep(L, old(View()), View(), p, b)
    {
      hide Step, IsRun;
      ghost var s := View();
      RunLength(L, run, acts);
      SlotInBounds(L, run, acts, p, b);
      var added := Enter(b);
      tested := tested - {p};
      if added {
        cache := cache[b := cache[b].(dirty := false, refcnt := cache[b].refcnt + 1)];   // bpin
        ops := ops[p := ops[p] + 1];
      } else {
        cache := cache[b := cache[b].(dirty := false)];
      }
      StepLogWrite(L, s, View(), p, b);
      Record(Action.LogWrite(p, b));
    }

    /** The two breads of a copy loop. */
    method BreadPair(tail: nat) returns (ok: bool, ghost v1: Option<nat>, ghost v2: Option<nat>)
      requires Valid() && L.Safe() && tail < n && Unlocked()
      requires phase == Logging(tail) || phase == Installing(tail) || phase == Replaying(tail)
      modifies this`cache
      ensures Unlocked() && (!ok ==> Stuck()) && (phase.Replaying? && old(Idle()) ==> ok && Idle())
      ensures L.Ok() && |disk| == L.total
      ensures ok ==> CanCopy(L, old(View()), tail, v1, v2) && cache == CopyCache(L, old(View()), tail, v1, v2)
      ensures ok ==> block[tail] < |disk| && L.start + 1 + tail < |disk|
    {
      hide Step, IsRun, Fetch, CanFetch, Inv, CanCopy, CopyCache, Starved;
      ghost var s := View();
      PairShape(tail);
      var to, from := L.start + 1 + tail, block[tail];
      ok, v1 := Bread(to, to);
      if !ok { return false, v1, None; }
      ok, v2 := Bread(from, to);
      if ok { PairCopies(L, s, tail, v1, v2); }
    }

    lemma PairShape(tail: nat)
      requires Valid() && L.Safe() && tail < n
      requires phase == Logging(tail) || phase == Installing(tail) || phase == Replaying(tail)
      ensures L.Ok() && |disk| == L.total && block[tail] < L.total && block[tail] != L.start + 1 + tail
      ensures L.start + 1 + tail < L.total || (phase.Logging? && n >= L.size)
    {
      hide Step, IsRun, Inv;
      LastInv(L, run, acts);
      InvShape(L, View());
      TailInArea(L, View(), tail);
    }

    /** One iteration of write_log. */
    method CopyOneToLog(tail: nat) returns (ok: bool)
      requires Valid() && L.Safe() && phase == Logging(tail) && tail < n && Unlocked()
      modifies this`cache, this`disk, this`phase, this`run, this`acts
      ensures Unlocked() && (!ok ==> Stuck())
      ensures if ok then Valid() && phase == Logging(tail + 1) && run == old(run) + [View()]
                      && |acts| == |old(acts)| + 1 && old(acts) <= acts && acts[|acts|-1].CopyToLog?
              else run == old(run) && acts == old(acts)
    {
      hide Step, IsRun, CanCopy, CopyCache, Inv, Stuck;
      ghost var s := View();
      ghost var v1, v2;
      var to, from := L.start + 1 + tail, block[tail];
      ok, v1, v2 := BreadPair(tail);
      if !ok { return; }
      cache := cache[to := cache[to].(data := cache[from].data)];   // memmove
      disk := disk[to := cache[to].data];                           // bwrite(to)
      phase := Logging(tail + 1);
      assert CopyToLogStep(L, s, View(), v1, v2);
      StepCopyToLog(L, s, View(), v1, v2);
      Record(CopyToLog(v1, v2));
      return true;
    }

    /** write_log: copy every logged block from the cache to the log area. */
    method WriteLog() returns (ok: bool)
      requires Valid() && L.Safe() && phase == Logging(0) && Unlocked()
      modifies this`cache, this`disk, this`phase, this`run, this`acts
      ensures Unlocked() && old(run) <= run && old(acts) <= acts && (!ok ==> Stuck())
      ensures ok ==> Valid() && phase == Logging(n)
      ensures forall m :: |old(acts)| <= m < |acts| ==> acts[m].CopyToLog?
    {
      hide Step, IsRun, Stuck;
      var tail := 0;
      ok := true;
      while tail < n && ok
        invariant 0 <= tail <= n && Unlocked() && (!ok ==> Stuck())
        invariant ok ==> Valid() && phase == Logging(tail)
        invariant old(run) <= run && old(acts) <= acts
        invariant forall m :: |old(acts)| <= m < |acts| ==> acts[m].CopyToLog?
        decreases n - tail, ok
      {
        ok := CopyOneToLog(tail);
        if ok { tail := tail + 1; }
      }
    }

    /** write_head: the in-memory header, stored into the header block and written. */
    method WriteHeader(ghost next: Phase) returns (ok: bool, ghost victim: Option<nat>)
      requires block.Length == LOGSIZE && n <= LOGSIZE && L.Ok() && |disk| == L.total
      requires L.Listed(block[..n]) && Unlocked()
      modifies this`cache, this`disk, this`phase
      ensures Unlocked() && (!ok ==> Starved()) && (old(Idle()) ==> ok && Idle())
      ensures ok ==> CanWriteHead(L, old(View()), victim, block[..n])
      ensures ok ==> View() == WriteHead(L, old(View()), victim, block[..n], next)
      ensures !ok ==> View() == old(View())
    {
      hide Fetch, CanFetch, SetWord;
      ghost var s := View();
      ok, victim := Bread(L.start, L.start);
      if !ok { return; }
      var h0 := cache[L.start].data;
      var hb := SetWord(h0, 0, n);
      var i := 0;
      while i < n
        invariant 0 <= i <= n
        invariant hb == EncodeBlocks(SetWord(h0, 0, n), block[..i])
      {
        hb := SetWord(hb, 1 + i, block[i]);
        i := i + 1;
        assert block[..i][..i-1] == block[..i-1];
      }
      assert block[..i] == block[..n];
      cache := cache[L.start := cache[L.start].(data := hb)];
      disk := disk[L.start := hb];                                  // bwrite
      phase := next;
    }

    /** One iteration of install_trans(0): log block to home block and the home
        buffer loses its pin. */
    method InstallOne(tail: nat) returns (ok: bool)
      requires Valid() && L.Safe() && phase == Installing(tail) && tail < n && Unlocked()
      modifies this`cache, this`disk, this`phase, this`run, this`acts
      ensures Unlocked() && old(run) <= run && old(acts) <= acts && (!ok ==> Stuck())
      ensures ok ==> Valid() && phase == Installing(tail + 1)
      ensures forall m :: |old(acts)| <= m < |acts| ==> acts[m].Install?
    {
      hide Step, IsRun, CanCopy, CopyCache, Inv, InstallStep, ReplayStep, Stuck;
      ghost var s := View();
      ghost var v1, v2;
      var lbuf, dbuf := L.start + 1 + tail, block[tail];
      ok, v1, v2 := BreadPair(tail);
      if !ok { return; }
      var u := cache[dbuf].(data := cache[lbuf].data);              // memmove
      MakesInstall(L, s, tail, v1, v2, u);
      disk := disk[dbuf := u.data];                                 // bwrite(dbuf)
      cache := cache[dbuf := u.(dirty := false, refcnt := u.refcnt - 1)];   // bunpin
      phase := Installing(tail + 1);
      StepInstall(L, s, View(), v1, v2);
      Record(Install(v1, v2));
    }

    /** One iteration of install_trans(1): log block to home block. */
    method ReplayOne(tail: nat) returns (ok: bool)
      requires Valid() && L.Safe() && phase == Replaying(tail) && tail < n && Unlocked()
      modifies this`cache, this`disk, this`phase, this`run, this`acts
      ensures Unlocked() && old(run) <= run && old(acts) <= acts && (!ok ==> Stuck()) && (old(Idle()) ==> ok && Idle())
      ensures ok ==> Valid() && phase == Replaying(tail + 1)
      ensures forall m :: |old(acts)| <= m < |acts| ==> acts[m].Replay?
    {
      hide Step, IsRun, CanCopy, CopyCache, Inv, InstallStep, ReplayStep, Stuck;
      ghost var s := View();
      ghost var v1, v2;
      var lbuf, dbuf := L.start + 1 + tail, block[tail];
      ok, v1, v2 := BreadPair(tail);
      if !ok { return; }
      var u := cache[dbuf].(data := cache[lbuf].data);              // memmove
      MakesInstall(L, s, tail, v1, v2, u);
      disk := disk[dbuf := u.data];                                 // bwrite(dbuf)
      cache := cache[dbuf := u];
      phase := Replaying(tail + 1);
      StepInstall(L, s, View(), v1, v2);
      Record(Replay(v1, v2));
    }

    method InstallTrans(recovering: bool) returns (ok: bool)
      requires Valid() && L.Safe() && phase == (if recovering then Replaying(0) else Installing(0)) && Unlocked()
      modifies this`cache, this`disk, this`phase, this`run, this`acts
      ensures Unlocked() && old(run) <= run && old(acts) <= acts && (!ok ==> Stuck())
      ensures recovering && old(Idle()) ==> ok && Idle()
      ensures ok ==> Valid() && phase == if recovering then Replaying(n) else Installing(n)
      ensures forall m :: |old(acts)| <= m < |acts| ==> if recovering then acts[m].Replay? else acts[m].Install?
    {
      hide Step, IsRun, Stuck;
      var tail := 0;
      ok := true;
      while tail < n && ok
        invariant 0 <= tail <= n && Unlocked() && (!ok ==> Stuck()) && (recovering && old(Idle()) ==> ok && Idle())
        invariant ok ==> Valid() && phase == if recovering then Replaying(tail) else Installing(tail)
        invariant old(run) <= run && old(acts) <= acts
        invariant forall m :: |old(acts)| <= m < |acts| ==> if recovering then acts[m].Replay? else acts[m].Install?
        decreases n - tail, ok
      {
        if recovering { ok := ReplayOne(tail); } else { ok := InstallOne(tail); }
        if ok { tail := tail + 1; }
      }
    }

    /** The header write that commits. */
    method WriteCommit() returns (ok: bool)
      requires Valid() && L.Safe() && phase == Logging(n) && n > 0 && Unlocked()
      modifies this`cache, this`disk, this`phase, this`run, this`acts
      ensures Unlocked() && (!ok ==> Stuck())
      ensures if ok then Valid() && phase == Installing(0) && run == old(run) + [View()]
                      && |acts| == |old(acts)| + 1 && old(acts) <= acts && acts[|acts|-1].CommitHead?
              else run == old(run) && acts == old(acts)
    {
      hide Step, IsRun, Inv, WriteHead, CanWriteHead;
      ghost var s := View();
      LastInv(L, run, acts);
      InvShape(L, s);
      ghost var v;
      ok, v := WriteHeader(Installing(0));
      if ok {
        WriteHeadFrame(L, s, v, s.lh, Installing(0));
        assert CommitHeadStep(L, s, View(), v);
        StepHead(L, s, View(), v);
        Record(CommitHead(v));
      }
    }

    /** n = 0 and the header write that erases the transaction. */
    method EraseLog() returns (ok: bool)
      requires Valid() && L.Safe() && (phase == Installing(n) || phase == Replaying(n)) && Unlocked()
      modifies this`n, this`cache, this`disk, this`phase, this`run, this`acts
      ensures Unlocked() && (!ok ==> Stuck()) && (old(Idle()) ==> ok)
      ensures if ok then Valid() && n == 0 && phase == (if old(phase).Installing? then Cleared else Running)
                      && run == old(run) + [View()] && |acts| == |old(acts)| + 1 && old(acts) <= acts
                      && (if old(phase).Installing? then acts[|acts|-1].Clear? else acts[|acts|-1].ReplayDone?)
              else run == old(run) && acts == old(acts)
    {
      hide Step, IsRun, Inv, CanWriteHead, WriteHead, Stuck;
      ghost var s := View();
      LastShape();
      ghost var next := if phase.Installing? then Cleared else Running;
      n := 0;
      ghost var v;
      assert block[..n] == [];
      assert View() == s.(lh := []);
      ok, v := WriteHeader(next);
      if ok {
        Erases(L, s, View(), v, next);
        Record(if s.phase.Installing? then Clear(v) else ReplayDone(v));
      } else {
        StarvedIsStuck();
      }
    }

    lemma StarvedIsStuck()
      requires Starved()
      ensures Stuck()
    {
    }

    lemma LastShape()
      requires Valid() && L.Safe()
      ensures L.Ok() && |disk| == L.total && L.Listed([])
    {
      hide Step, IsRun, Inv;
      LastInv(L, run, acts);
      InvShape(L, View());
    }

    method CommitLogged() returns (ok: bool)
      requires Valid() && L.Safe() && phase == Logging(0) && n > 0 && Unlocked()
      modifies this`n, this`cache, this`disk, this`phase, this`run, this`acts
      ensures Unlocked() && old(run) <= run && old(acts) <= acts && (!ok ==> Stuck())
      ensures ok ==> Valid() && phase == Cleared && n == 0
      ensures ok ==> HeadWritten(acts, |old(acts)|, |acts|)
      ensures forall m :: |old(acts)| <= m < |acts| ==> DuringCommit(acts[m])
    {
      hide Step, IsRun, Inv, Stuck, Starved;
      ok := WriteLog();
      if !ok { return; }
      ok := WriteCommit();
      if !ok { return; }
      ghost var k := |acts| - 1;
      assert acts[k].CommitHead?;
      ok := InstallTrans(false);
      if !ok { return; }
      ok := EraseLog();
      assert acts[k].CommitHead?;
    }

    /** The body of commit. */
    method CommitSteps() returns (ok: bool)
      requires Valid() && L.Safe() && phase == Logging(0) && Unlocked()
      modifies this`n, this`cache, this`disk, this`phase, this`run, this`acts
      ensures Unlocked() && old(run) <= run && old(acts) <= acts && (!ok ==> Stuck())
      ensures ok ==> Valid() && phase == Cleared && n == 0
      ensures ok ==> (HeadWritten(acts, |old(acts)|, |acts|) <==> old(n) > 0)
      ensures forall m :: |old(acts)| <= m < |acts| ==> DuringCommit(acts[m])
    {
      hide Step, IsRun, Inv, CommitNothingStep, Stuck;
      if n > 0 {
        ok := CommitLogged();
      } else {
        ghost var s := View();
        phase := Cleared;
        assert CommitNothingStep(L, s, View()) by { CommitNothingHolds(L, s); }
        StepPhase(L, s, View());
        Record(CommitNothing);
        ok := true;
      }
    }

    /** commit: the whole transaction reaches the home blocks, through the log. */
    method Commit() returns (ok: bool)
      requires Valid() && L.Safe() && phase == Logging(0) && Unlocked()
      modifies this`n, this`cache, this`disk, this`phase, this`run, this`acts
      ensures Unlocked() && old(run) <= run && (!ok ==> Stuck())
      ensures L.Ok() && |old(disk)| == L.total
      ensures ok ==> Valid() && phase == Cleared && n == 0 && |disk| == L.total
      ensures ok ==> forall b: nat :: L.Home(b) ==> disk[b] == old(LoggedAt(View(), b))
    {
      hide Step, IsRun, Inv, DuringCommit, HeadWritten, LoggedAt;
      ghost var s, c := View(), |run| - 1;
      LastInv(L, run, acts);
      InvShape(L, s);
      RunLength(L, run, acts);
      ok := CommitSteps();
      if !ok { return; }
      ghost var i := |run| - 1;
      assert run[i] == View() && run[c] == s;
      RunLength(L, run, acts);
      LastInv(L, run, acts);
      InvShape(L, View());
      forall b: nat | L.Home(b) ensures disk[b] == LoggedAt(s, b) {
        CompletedCommit(L, run, acts, c, i, b);
      }
    }

    /** The first locked section of end_op. The panic on Log.committing
        cannot happen: with an operation open no commit is under way. */
    method Leave(p: Pid) returns (doCommit: bool)
      requires Valid() && Up(View()) && p in ops && p !in tested
      modifies this`outstanding, this`committing, this`ops, this`phase, this`run, this`acts
      ensures Valid() && old(run) <= run && !old(committing)
      ensures ops == old(ops) - {p} && outstanding == old(outstanding) - 1
      ensures doCommit == committing == (old(outstanding) == 1)
      ensures phase == if doCommit then Logging(0) else Running
    {
      hide Step, IsRun, SpaceInv;
      ghost var s := View();
      LastSpace(L, run, acts);
      OpenIsRunning(L, s, p);
      outstanding := outstanding - 1;
      ops := ops - {p};
      if outstanding == 0 {
        doCommit := true;
        committing := true;
        phase := Logging(0);
      } else {
        doCommit := false;
      }
      assert EndStep(L, s, View(), p);
      hide EndStep;
      StepEnd(L, s, View(), p);
      Record(End(p));
    }

    /** end_op: the last operation out commits the group. */
    method EndOp(p: Pid) returns (ok: bool)
      requires Valid() && L.Safe() && Up(View()) && p in ops && p !in tested && Unlocked()
      modifies this`n, this`outstanding, this`committing, this`cache, this`disk, this`ops, this`phase, this`run,
        this`acts
      ensures old(run) <= run && Unlocked() && (!ok ==> old(outstanding) == 1 && Stuck())
      ensures ok ==> Valid() && ops == old(ops) - {p} && phase == Running && !committing
      ensures ok && old(outstanding) == 1 ==> n == 0 && L.Ok() && |old(disk)| == |disk| == L.total
      ensures ok && old(outstanding) == 1 ==> forall b: nat :: L.Home(b) ==> disk[b] == old(LoggedAt(View(), b))
    {
      hide Step, IsRun;
      var doCommit := Leave(p);
      if !doCommit { return true; }
      ok := Commit();
      if !ok { return; }
      ghost var s := View();
      committing := false;
      phase := Running;
      assert FinishStep(L, s, View());
      StepPhase(L, s, View());
      Record(Finish);
    }

    /** The machine stops; all that remains is the disk. */
    method Crash()
      requires Valid()
      modifies this`n, this`outstanding, this`committing, this`cache, this`ops, this`tested, this`phase, this`run,
        this`acts
      ensures Valid() && old(run) <= run && phase == Booting && n == 0 && cache == map[]
    {
      hide Step, IsRun;
      ghost var s := View();
      n, outstanding, committing, cache := 0, 0, false, map[];
      ops, tested, phase := map[], map[], Booting;
      assert block[..n] == [];
      assert CrashStep(L, s, View());
      StepPhase(L, s, View());
      Record(Action.Crash);
    }

    /** The copy loop of read_head. */
    method LoadHeader(h: Block)
      requires block.Length == LOGSIZE && Word(h, 0) <= LOGSIZE
      modifies this`n, block
      ensures n <= LOGSIZE && block[..n] == DecodeHead(h)
    {
      HeadWords(h);
      hide Word, DecodeHead;
      n := Word(h, 0);
      var i := 0;
      while i < n
        modifies block
        invariant 0 <= i <= n
        invariant forall j :: 0 <= j < i ==> block[j] == Word(h, 1 + j)
      {
        block[i] := Word(h, 1 + i);
        i := i + 1;
      }
    }

    /** read_head: load the header from disk. */
    method ReadHeader() returns (ok: bool)
      requires Valid() && L.Safe() && phase == Booting && Unlocked()
      modifies this`n, this`cache, this`phase, this`run, this`acts, block
      ensures ok && Unlocked() && Idle()
      ensures if ok then Valid() && phase == Replaying(0) && run == old(run) + [View()]
                      && |acts| == |old(acts)| + 1 && old(acts) <= acts && acts[|acts|-1].ReadHead?
              else run == old(run) && acts == old(acts)
    {
      hide Step, IsRun, Inv, Fetch, CanFetch, DecodeHead, Word;
      ghost var s := View();
      LastInv(L, run, acts);
      InvShape(L, s);
      ghost var v;
      BootingCacheEmpty(L, s);
      ok, v := Bread(L.start, L.start);
      if !ok { return; }
      var h := cache[L.start].data;
      assert h == s.disk[L.start] by { BootingCacheEmpty(L, s); FetchEmpty(s.disk, L.start, v); }
      LoadHeader(h);
      phase := Replaying(0);
      assert ReadHeadStep(L, s, View(), v);
      StepHead(L, s, View(), v);
      Record(ReadHead(v));
    }

    /** recover_from_log: the home blocks become what was committed, and it does
        not run out of buffers. */
    method RecoverFromLog() returns (ok: bool)
      requires Valid() && L.Safe() && phase == Booting && Unlocked()
      modifies this`n, this`cache, this`disk, this`phase, this`run, this`acts, block
      ensures ok && Unlocked() && old(run) <= run
      ensures L.Ok() && |old(disk)| == L.total
      ensures ok ==> Valid() && phase == Running && n == 0 && |disk| == L.total
      ensures ok ==> forall b: nat :: L.Home(b) ==> disk[b] == RecoveredAt(L, old(disk), b)
    {
      hide Step, IsRun, Inv, RecoveredAt, DecodeHead, Recovering, Starved;
      ghost var s, i := View(), |run| - 1;
      ghost var a := |acts|;
      LastInv(L, run, acts);
      InvShape(L, s);
      RunLength(L, run, acts);
      ok := ReadHeader();
      if !ok { return; }
      ok := InstallTrans(true);
      if !ok { return; }
      ok := EraseLog();
      if !ok { return; }
      ghost var j := |run| - 1;
      RunLength(L, run, acts);
      assert run[i] == s && run[j] == View();
      forall m | i <= m < j ensures Recovering(acts[m]) {
        RecoveringKinds(acts[m]);
      }
      RecoveredAll(L, run, acts, i, j);
    }
  }

  lemma RecoveredAll(L: Layout, run: seq<State>, acts: seq<Action>, i: nat, j: nat)
    requires IsRun(L, run, acts) && L.Safe() && i < j < |run| && run[j].phase.Running?
    requires forall m :: i <= m < j ==> Recovering(acts[m])
    ensures L.Ok() && |run[i].disk| == L.total && |run[j].disk| == L.total
    ensures forall b: nat :: L.Home(b) ==> run[j].disk[b] == RecoveredAt(L, run[i].disk, b)
  {
    hide Step, IsRun, Inv, RecoveredAt, DecodeHead, Recovering;
    RunInv(L, run, acts, i);
    InvShape(L, run[i]);
    RunInv(L, run, acts, j);
    InvShape(L, run[j]);
    forall b: nat | L.Home(b) ensures run[j].disk[b] == RecoveredAt(L, run[i].disk, b) {
      CompletedRecovery(L, run, acts, i, j, b);
    }
  }

  lemma SecondBuffer(cache: map<nat, Buf>, keep: nat)
    requires |cache| >= 2
    ensures exists v :: v in cache && v != keep
  {
    assert |cache| == |cache.Keys|;
    if forall v :: v in cache ==> v == keep {
      OneKey(cache.Keys, keep);
    }
  }

  lemma OneKey(s: set<nat>, keep: nat)
    requires s <= {keep}
    ensures |s| <= 1
  {
    if s != {} { assert s == {keep}; }
  }

  lemma RecoveringKinds(a: Action)
    ensures a.ReadHead? || a.Replay? || a.ReplayDone? ==> Recovering(a)
  {
  }

  lemma BootingCacheEmpty(L: Layout, s: State)
    requires Inv(L, s) && s.phase.Booting?
    ensures s.cache == map[]
  {
  }

  lemma FetchEmpty(disk: seq<Block>, b: nat, v: Option<nat>)
    requires b < |disk|
    ensures Fetch(map[], disk, b, v)[b].data == disk[b]
  {
  }

  lemma HeadWords(h: Block)
    requires Word(h, 0) < WORDS
    ensures forall i :: 0 <= i < |DecodeHead(h)| ==> DecodeHead(h)[i] == Word(h, 1 + i)
  {
  }

  lemma RunLength(L: Layout, run: seq<State>, acts: seq<Action>)
    requires IsRun(L, run, acts)
    ensures |run| == |acts| + 1
  {
  }

  /** In a safe layout the log block of the next copy lies in the log area; if
      the list is too long for the area, it may also lie past the disk's end. */
  lemma TailInArea(L: Layout, s: State, tail: nat)
    requires Inv(L, s) && L.Safe() && tail < |s.lh|
    requires s.phase == Logging(tail) || s.phase == Installing(tail) || s.phase == Replaying(tail)
    ensures s.lh[tail] < L.total && s.lh[tail] != L.start + 1 + tail
    ensures tail + 1 < L.size || (s.phase.Logging? && |s.lh| >= L.size && L.start + 1 + tail == L.total)
  {
    hide DecodeHead, Unused, CacheOk;
    ListedBound(L, s.lh);
    assert L.Home(s.lh[tail]);
  }

  lemma SlotInBounds(L: Layout, run: seq<State>, acts: seq<Action>, p: Pid, b: nat)
    requires IsRun(L, run, acts) && |run| > 0 && p in run[|run|-1].ops
    requires b !in run[|run|-1].lh ==> run[|run|-1].ops[p] < MAXOPBLOCKS
    ensures |run[|run|-1].lh| <= LOGSIZE && (b !in run[|run|-1].lh ==> |run[|run|-1].lh| < LOGSIZE)
  {
    hide Step, Init, DecodeHead, Unused;
    LastSpace(L, run, acts);
    var s := run[|run|-1];
    UnusedRemove(s.ops, p);
    UnusedBounds(s.ops - {p});
  }

  lemma CommitNothingHolds(L: Layout, s: State)
    requires s.phase == Logging(0) && s.lh == []
    ensures CommitNothingStep(L, s, s.(phase := Cleared))
  {
  }
}
