/** The promises of the log and the buffer cache, over whole runs: any
    interleaving of operations, readers and commits, with crashes anywhere. */
module LogTheorems {
  import opened Blocks
  import opened LogProtocol
  import opened LogSafety
  import Spec = AtomicDisk

  /** Power-on: empty memory, and a header on disk that read_head can load. */
  ghost predicate Init(L: Layout, s: State) {
    && L.Ok() && |s.disk| == L.total
    && L.HeadFits(DecodeHead(s.disk[L.start]))
    && s == State(s.disk, map[], [], 0, false, map[], map[], Booting)
  }

  /** What an action is to the atomic disk: the memory of the blocks `gone` is
      reused, and then the action has its effect, if it has one. */
  ghost predicate SpecStep(a: Action, d: Spec.Disk, d': Spec.Disk, gone: set<nat>) {
    var e := Spec.Lose(d, gone);
    match a
    case Modify(_, b, data) => Spec.Write(e, d', b, data)
    case LogWrite(_, b) => Spec.Log(e, d', b)
    case CommitHead(_) => Spec.Commit(e, d')
    case Install(_, _) => Spec.Settle(e, d')
    case Crash => Spec.Crash(d, d')
    case _ => d' == e
  }

  ghost predicate IsRun(L: Layout, run: seq<State>, acts: seq<Action>) {
    && |run| == |acts| + 1
    && Init(L, run[0])
    && forall i :: 0 <= i < |acts| ==> Step(L, run[i], acts[i], run[i+1])
  }

  lemma RunSnoc(L: Layout, run: seq<State>, acts: seq<Action>, a: Action, s': State)
    requires IsRun(L, run, acts) && Step(L, run[|run|-1], a, s')
    ensures IsRun(L, run + [s'], acts + [a])
  {
    hide Step, Init;
    var run', acts' := run + [s'], acts + [a];
    forall i | 0 <= i < |acts'| ensures Step(L, run'[i], acts'[i], run'[i+1]) {
      if i < |acts| { assert Step(L, run[i], acts[i], run[i+1]); }
    }
  }

  lemma InitInv(L: Layout, s: State)
    requires Init(L, s)
    ensures Inv(L, s)
  {
    hide DecodeHead;
    assert Pins(s) == {};
  }

  predicate Recycles(a: Action) { a.GetMiss? || a.CopyToLog? || a.CommitHead? || a.Install? || a.Clear? || a.Crash? }

  lemma LoseTight(d: Spec.Disk, gone: set<nat>)
    requires d.loose !! gone
    ensures Spec.Lose(d, gone) == d
  {
    assert Spec.Lose(d, gone).current == d.current;
    assert d.loose - gone == d.loose;
  }

  /** The other steps take no changed block out of memory. */
  lemma KeptWhole(L: Layout, s: State, a: Action, s': State)
    requires Inv(L, s) && Step(L, s, a, s') && !Recycles(a)
    ensures |s.disk| == L.total && L.Ok() && Spec.Lose(Abs(L, s), Gone(s, s')) == Abs(L, s)
  {
    hide Inv, SpaceInv, HeadInv, CopyInv, CacheOk, Pins, RecoveredAt, CurrentAt, Spec.Lose, CanCopy, CopyCache, Fetch,
      CanFetch, DecodeHead, EncodeHead;
    InvShape(L, s);
    if Up(s) {
      assert s'.cache.Keys == s.cache.Keys;
    } else {
      DownTight(L, s);
    }
    LoseTight(Abs(L, s), Gone(s, s'));
  }

  lemma StepKeeps(L: Layout, s: State, a: Action, s': State)
    requires Inv(L, s) && L.Safe() && Step(L, s, a, s')
    ensures Inv(L, s') && SpecStep(a, Abs(L, s), Abs(L, s'), Gone(s, s'))
  {
    hide Inv, Abs, Gone;
    if !Recycles(a) { KeptWhole(L, s, a, s'); }
    match a
    case Get(p, b) => GetKeeps(L, s, s', p, b);
    case GetMiss(p, b, victim) => GetMissKeeps(L, s, s', p, b, victim);
    case Lock(p, b) => LockKeeps(L, s, s', p, b);
    case Modify(p, b, data) => ModifyKeeps(L, s, s', p, b, data);
    case LogTest(p, b) => LogTestKeeps(L, s, s', p, b);
    case LogWrite(p, b) => LogWriteKeeps(L, s, s', p, b);
    case Release(p, b) => ReleaseKeeps(L, s, s', p, b);
    case Begin(p) => BeginKeeps(L, s, s', p);
    case End(p) => EndKeeps(L, s, s', p);
    case CopyToLog(v1, v2) => CopyToLogKeeps(L, s, s', v1, v2);
    case CommitHead(v) => CommitHeadKeeps(L, s, s', v);
    case Install(v1, v2) => InstallKeeps(L, s, s', v1, v2);
    case Clear(v) => ClearKeeps(L, s, s', v);
    case CommitNothing => PhaseOnlyKeeps(L, s, s');
    case Finish => PhaseOnlyKeeps(L, s, s');
    case Crash => CrashKeeps(L, s, s');
    case ReadHead(v) => ReadHeadKeeps(L, s, s', v);
    case Replay(v1, v2) => ReplayKeeps(L, s, s', v1, v2);
    case ReplayDone(v) => ReplayDoneKeeps(L, s, s', v);
  }

  lemma {:induction false} RunInv(L: Layout, run: seq<State>, acts: seq<Action>, i: nat)
    requires IsRun(L, run, acts) && L.Safe() && i < |run|
    ensures Inv(L, run[i])
  {
    hide Step, Inv;
    if i == 0 {
      InitInv(L, run[0]);
    } else {
      RunInv(L, run, acts, i - 1);
      StepKeeps(L, run[i-1], acts[i-1], run[i]);
    }
  }

  /** Refinement: on every run, every step is a step of the atomic disk. */
  lemma RunRefines(L: Layout, run: seq<State>, acts: seq<Action>, i: nat)
    requires IsRun(L, run, acts) && L.Safe() && i < |acts|
    ensures Inv(L, run[i]) && Inv(L, run[i+1])
    ensures SpecStep(acts[i], Abs(L, run[i]), Abs(L, run[i+1]), Gone(run[i], run[i+1]))
  {
    hide Step, Abs, SpecStep;
    RunInv(L, run, acts, i);
    StepKeeps(L, run[i], acts[i], run[i+1]);
  }

  // ----- whatever the size of the log area

  lemma StepSpace(L: Layout, s: State, a: Action, s': State)
    requires SpaceInv(L, s) && Step(L, s, a, s')
    ensures SpaceInv(L, s')
  {
    hide SpaceInv;
    match a
    case Get(p, b) => CacheSpace(L, s, s');
    case GetMiss(p, b, victim) => CacheSpace(L, s, s');
    case Lock(p, b) => CacheSpace(L, s, s');
    case Modify(p, b, data) => CacheSpace(L, s, s');
    case LogTest(p, b) => LogTestSpace(L, s, s', p, b);
    case LogWrite(p, b) => LogWriteSpace(L, s, s', p, b);
    case Release(p, b) => CacheSpace(L, s, s');
    case Begin(p) => BeginSpace(L, s, s', p);
    case End(p) => EndSpace(L, s, s', p);
    case CopyToLog(v1, v2) => CopySpace(L, s, s', v1, v2);
    case CommitHead(v) => HeadSpace(L, s, s', v);
    case Install(v1, v2) => CopySpace(L, s, s', v1, v2);
    case Clear(v) => HeadSpace(L, s, s', v);
    case CommitNothing => PhaseSpace(L, s, s');
    case Finish => PhaseSpace(L, s, s');
    case Crash => PhaseSpace(L, s, s');
    case ReadHead(v) => ReadHeadSpace(L, s, s', v);
    case Replay(v1, v2) => CopySpace(L, s, s', v1, v2);
    case ReplayDone(v) => HeadSpace(L, s, s', v);
  }

  /** The reservation and the shape of the header hold on every run, for every layout. */
  lemma {:induction false} RunSpace(L: Layout, run: seq<State>, acts: seq<Action>, i: nat)
    requires IsRun(L, run, acts) && i < |run|
    ensures SpaceInv(L, run[i])
  {
    hide Step, DecodeHead;
    if i > 0 {
      RunSpace(L, run, acts, i - 1);
      StepSpace(L, run[i-1], acts[i-1], run[i]);
    }
  }

  // ----- crash atomicity

  predicate Recovering(a: Action) { a.Crash? || a.ReadHead? || a.Replay? || a.ReplayDone? }

  /** Recovery, however often it is itself interrupted, leads to the committed view. */
  lemma {:induction false} RecoveryKeepsCommitted(L: Layout, run: seq<State>, acts: seq<Action>, i: nat, j: nat)
    requires IsRun(L, run, acts) && L.Safe() && i <= j < |run|
    requires forall m :: i <= m < j ==> Recovering(acts[m])
    ensures Inv(L, run[i]) && Inv(L, run[j])
    ensures Abs(L, run[j]).committed == Abs(L, run[i]).committed
    decreases j - i
  {
    hide Step, Abs, Inv, Spec.Durable;
    RunInv(L, run, acts, i);
    InvShape(L, run[i]);
    if i < j {
      StepKeeps(L, run[i], acts[i], run[i+1]);
      InvShape(L, run[i+1]);
      RecoveryKeepsCommitted(L, run, acts, i + 1, j);
    }
  }

  lemma {:induction false} RecoveringEndsQuiet(L: Layout, run: seq<State>, acts: seq<Action>, i: nat, j: nat)
    requires IsRun(L, run, acts) && L.Safe() && i < j < |run|
    requires forall m :: i <= m < j ==> Recovering(acts[m])
    requires run[j].phase.Running?
    ensures acts[j-1].ReplayDone? && run[j].lh == []
  {
    assert Step(L, run[j-1], acts[j-1], run[j]) && Recovering(acts[j-1]);
    if acts[j-1].ReplayDone? {
      assert run[j].lh == [];
    }
  }

  lemma CompletedRecovery(L: Layout, run: seq<State>, acts: seq<Action>, i: nat, j: nat, b: nat)
    requires IsRun(L, run, acts) && L.Safe() && i < j < |run|
    requires forall m :: i <= m < j ==> Recovering(acts[m])
    requires run[j].phase.Running? && L.Home(b)
    ensures Inv(L, run[i]) && Inv(L, run[j])
    ensures run[j].disk[b] == RecoveredAt(L, run[i].disk, b)
  {
    hide Step, DecodeHead;
    RecoveryKeepsCommitted(L, run, acts, i, j);
    RecoveringEndsQuiet(L, run, acts, i, j);
    assert Abs(L, run[j]).committed[b] == Abs(L, run[i]).committed[b];
  }

  /** A completed recovery leaves on disk exactly the view that was committed
      when the crash struck: all of the last committed transaction, and
      nothing of any later one. */
  lemma CrashAtomicity(L: Layout, run: seq<State>, acts: seq<Action>, i: nat, j: nat, b: nat)
    requires IsRun(L, run, acts) && L.Safe() && i < j < |run|
    requires acts[i].Crash? && (forall m :: i <= m < j ==> Recovering(acts[m]))
    requires run[j].phase.Running? && L.Home(b)
    ensures Inv(L, run[i]) && Inv(L, run[j])
    ensures run[j].disk[b] == RecoveredAt(L, run[i].disk, b)
  {
    hide Step, RecoveredAt;
    CompletedRecovery(L, run, acts, i, j, b);
  }

  /** Actions that can occur while a commit is under way. */
  predicate DuringCommit(a: Action) { !a.Finish? && !a.Crash? }

  predicate HeadWritten(acts: seq<Action>, c: nat, i: nat)
    requires c <= i <= |acts|
  {
    exists m :: c <= m < i && acts[m].CommitHead?
  }

  /** While commit runs, what it makes durable stands still, and the committed
      view is the old one until the header write and the new one from then on. */
  lemma {:induction false} CommitSegment(L: Layout, run: seq<State>, acts: seq<Action>, c: nat, i: nat)
    requires IsRun(L, run, acts) && L.Safe() && c <= i < |run|
    requires run[c].phase == Logging(0)
    requires forall m :: c <= m < i ==> DuringCommit(acts[m])
    ensures Inv(L, run[c]) && Inv(L, run[i]) && run[i].committing
    ensures Spec.Durable(Abs(L, run[i])) == Spec.Durable(Abs(L, run[c]))
    ensures Abs(L, run[i]).committed ==
      if HeadWritten(acts, c, i) then Spec.Durable(Abs(L, run[c])) else Abs(L, run[c]).committed
    decreases i - c
  {
    hide Abs, Step, Inv, HeadWritten, SpecStep, Spec.Durable;
    RunInv(L, run, acts, c);
    InvShape(L, run[c]);
    if c == i {
      NoHeadYet(acts, c);
      LoggingIsCommitting(L, run[c]);
    } else {
      CommitSegment(L, run, acts, c, i - 1);
      assert DuringCommit(acts[i-1]);
      StepKeeps(L, run[i-1], acts[i-1], run[i]);
      CommitStepKind(L, run[i-1], acts[i-1], run[i]);
      InvShape(L, run[i-1]);
      InvShape(L, run[i]);
      AbsKeys(L, run[i-1]);
      SpecDuring(acts[i-1], Abs(L, run[i-1]), Abs(L, run[i]), Gone(run[i-1], run[i]));
      HeadWrittenSnoc(acts, c, i);
    }
  }

  lemma AbsKeys(L: Layout, s: State)
    requires L.Ok() && |s.disk| == L.total
    ensures Abs(L, s).current.Keys == Abs(L, s).committed.Keys
  {
    hide RecoveredAt, CurrentAt;
  }

  /** Recycling a buffer does not change what a commit makes durable. */
  lemma LoseDurable(d: Spec.Disk, gone: set<nat>)
    ensures Spec.Durable(Spec.Lose(d, gone)) == Spec.Durable(d)
  {
  }

  lemma SpecDuring(a: Action, d: Spec.Disk, d': Spec.Disk, gone: set<nat>)
    requires SpecStep(a, d, d', gone) && !a.Crash? && !a.Modify? && !a.LogWrite? && d.current.Keys == d.committed.Keys
    ensures Spec.Durable(d') == Spec.Durable(d)
    ensures d'.committed == if a.CommitHead? then Spec.Durable(d) else d.committed
  {
    LoseDurable(d, gone);
    if a.CommitHead? {
      hide Spec.Lose;
      assert Spec.Durable(d') == Spec.Durable(Spec.Lose(d, gone));
    }
  }

  lemma LoggingIsCommitting(L: Layout, s: State)
    requires Inv(L, s) && s.phase.Logging?
    ensures s.committing
  {
  }

  lemma NoHeadYet(acts: seq<Action>, c: nat)
    requires c <= |acts|
    ensures !HeadWritten(acts, c, c)
  {
  }

  lemma HeadWrittenSnoc(acts: seq<Action>, c: nat, i: nat)
    requires c < i <= |acts|
    ensures HeadWritten(acts, c, i) <==> HeadWritten(acts, c, i - 1) || acts[i-1].CommitHead?
  {
    if HeadWritten(acts, c, i - 1) {
      var m :| c <= m < i - 1 && acts[m].CommitHead?;
      assert c <= m < i && acts[m].CommitHead?;
    }
    if acts[i-1].CommitHead? { assert c <= i - 1 < i && acts[i-1].CommitHead?; }
  }

  lemma CommitStepKind(L: Layout, s: State, a: Action, s': State)
    requires Inv(L, s) && s.committing && Step(L, s, a, s') && DuringCommit(a)
    ensures s'.committing && !a.Modify? && !a.LogWrite?
  {
    hide CacheOk, HeadInv, CopyInv, Fetch, CanFetch, Word, EncodeHead, DecodeHead;
  }

  /** Block b as the transaction being collected leaves it. */
  function LoggedAt(s: State, b: nat): Block
    requires b < |s.disk|
  {
    if b in s.lh && b in s.cache then s.cache[b].data else s.disk[b]
  }

  lemma LoggedIsDurable(L: Layout, s: State, b: nat)
    requires Inv(L, s) && s.phase == Logging(0) && L.Home(b)
    ensures Spec.Durable(Abs(L, s))[b] == LoggedAt(s, b)
    ensures Abs(L, s).committed[b] == s.disk[b]
  {
    hide SpaceInv, HeadInv, CopyInv, RecoveredAt, BufOk, DecodeHead;
    InvShape(L, s);
    if b in s.lh {
      assert s.lh[IndexOf(s.lh, b)] in Pins(s);
    } else {
      assert b !in Pins(s);
      if b !in Loose(s) { TightClean(L, s, b); }
    }
    HeadlessRecovered(L, s, b);
  }

  lemma HeadlessRecovered(L: Layout, s: State, b: nat)
    requires Inv(L, s) && (s.phase.Running? || s.phase.Logging? || s.phase.Cleared?) && L.Home(b)
    ensures RecoveredAt(L, s.disk, b) == s.disk[b]
  {
    EmptyHead(L, s);
    hide Inv, DecodeHead;
  }

  /** What a crash at step i of a commit that began at c, with recoveries that
      may be interrupted and one that ends at j, does to block b. */
  ghost predicate CrashedCommit(L: Layout, run: seq<State>, acts: seq<Action>, c: nat, i: nat, j: nat, b: nat) {
    && IsRun(L, run, acts) && c <= i < j < |run|
    && run[c].phase == Logging(0) && (forall m :: c <= m < i ==> DuringCommit(acts[m]))
    && acts[i].Crash? && (forall m :: i <= m < j ==> Recovering(acts[m]))
    && run[j].phase.Running? && L.Home(b)
  }

  /** All or nothing: a crash at any point of a commit, followed by any number
      of interrupted recoveries and one that completes, leaves every home block
      as it was before the transaction if the header was not yet written, and
      every block as the transaction left it once it was. */
  lemma CommitIsAllOrNothing(L: Layout, run: seq<State>, acts: seq<Action>, c: nat, i: nat, j: nat, b: nat)
    requires L.Safe() && CrashedCommit(L, run, acts, c, i, j, b)
    ensures |run[c].disk| == |run[j].disk| == L.total
    ensures run[j].disk[b] == if HeadWritten(acts, c, i) then LoggedAt(run[c], b) else run[c].disk[b]
  {
    hide Step, HeadWritten, RecoveredAt, CurrentAt, LoggedAt, Spec.Durable, Inv;
    CommitSegment(L, run, acts, c, i);
    CrashAtomicity(L, run, acts, i, j, b);
    InvShape(L, run[c]);
    InvShape(L, run[j]);
    InvShape(L, run[i]);
    LoggedIsDurable(L, run[c], b);
    assert Abs(L, run[i]).committed[b] == RecoveredAt(L, run[i].disk, b);
  }

  /** A commit that runs to its end leaves on disk the transaction it started from. */
  lemma CompletedCommit(L: Layout, run: seq<State>, acts: seq<Action>, c: nat, i: nat, b: nat)
    requires IsRun(L, run, acts) && L.Safe() && c <= i < |run| && L.Home(b)
    requires run[c].phase == Logging(0) && (forall m :: c <= m < i ==> DuringCommit(acts[m]))
    requires run[i].phase == Cleared
    ensures Inv(L, run[c]) && Inv(L, run[i])
    ensures run[i].disk[b] == LoggedAt(run[c], b)
  {
    hide Step, HeadWritten, Inv, LoggedAt, Spec.Durable, Abs;
    CommitSegment(L, run, acts, c, i);
    InvShape(L, run[c]);
    InvShape(L, run[i]);
    LoggedIsDurable(L, run[c], b);
    ClearedDurable(L, run[i], b);
  }

  lemma ClearedDurable(L: Layout, s: State, b: nat)
    requires Inv(L, s) && s.phase.Cleared? && L.Home(b)
    ensures Spec.Durable(Abs(L, s))[b] == s.disk[b]
  {
    hide SpaceInv, HeadInv, CopyInv, RecoveredAt, BufOk;
    HeadlessRecovered(L, s, b);
    assert Pins(s) == {};
    if b !in Loose(s) { TightClean(L, s, b); }
  }
}
