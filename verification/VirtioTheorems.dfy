/** The driver's promises over whole runs, with requesters, interrupts and
    device interleaved in any way. */
module VirtioTheorems {
  import opened Basics
  import opened Blocks
  import opened VirtioProtocol
  import opened VirtioSafety

  ghost predicate IsRun(run: seq<State>, acts: seq<Action>) {
    && |run| == |acts| + 1
    && Init(run[0])
    && forall i :: 0 <= i < |acts| ==> Step(run[i], acts[i], run[i+1])
  }

  lemma InitInv(s: State)
    requires Init(s)
    ensures Inv(s)
  {
    forall h: nat, g: Stage ensures !At(s, h, g) {}
  }

  lemma StepKeeps(s: State, a: Action, s': State)
    requires Inv(s) && Step(s, a, s')
    ensures Inv(s')
  {
    hide Inv;
    match a
    case Prepare(i0, i1, i2, b, write, block) => PrepareKeeps(s, s', i0, i1, i2, b, write, block);
    case Publish => PublishKeeps(s, s');
    case IntrBegin => LockKeeps(s, s');
    case IntrOne => IntrOneKeeps(s, s');
    case IntrEnd => LockKeeps(s, s');
    case Finish(h) => FinishKeeps(s, s', h);
    case Modify(b, v) => ModifyKeeps(s, s', b, v);
    case Fetch => FetchKeeps(s, s');
    case Perform(h) => PerformKeeps(s, s', h);
    case Report => ReportKeeps(s, s');
  }

  lemma {:induction false} RunInv(run: seq<State>, acts: seq<Action>, i: nat)
    requires IsRun(run, acts) && i < |run|
    ensures Inv(run[i])
  {
    hide Step, Inv;
    if i == 0 {
      InitInv(run[0]);
    } else {
      RunInv(run, acts, i - 1);
      StepKeeps(run[i-1], acts[i-1], run[i]);
    }
  }

  lemma Partitioned(free: seq<bool>, own: map<nat, nat>, flight: map<nat, Request>, i: nat)
    requires Partition(free, own, flight) && i < NUM
    ensures free[i] <==> forall h :: h in flight ==> !InChain(flight, h, i)
  {
    if i in own {
      assert InChain(flight, own[i], i);
    } else {
      forall h | h in flight ensures !InChain(flight, h, i) { ChainOf(free, own, flight, h); }
    }
  }

  lemma OneChain(free: seq<bool>, own: map<nat, nat>, flight: map<nat, Request>, i: nat, g: nat, h: nat)
    requires Partition(free, own, flight) && g in flight && h in flight && InChain(flight, g, i)
      && InChain(flight, h, i)
    ensures g == h
  {
    ChainOf(free, own, flight, g);
    ChainOf(free, own, flight, h);
    hide Partition;
    if g != h { ChainsApart(own, flight, g, h, i); }
  }

  /** In every reachable state each descriptor is free or in exactly one chain,
      and there are at most two chains. */
  lemma DescriptorsPartitioned(run: seq<State>, acts: seq<Action>, m: nat, i: nat)
    requires IsRun(run, acts) && m < |run| && i < NUM
    ensures var s := run[m];
      && |s.free| == NUM && |s.flight| <= 2
      && (s.free[i] <==> forall h :: h in s.flight ==> !InChain(s.flight, h, i))
      && (forall g, h :: g in s.flight && h in s.flight && InChain(s.flight, g, i) && InChain(s.flight, h, i) ==>
        g == h)
  {
    RunInv(run, acts, m);
    var s := run[m];
    hide FormatInv, DataInv, StageInv, RingInv, CountInv, IsRun, InChain;
    FlightBound(s);
    Partitioned(s.free, s.own, s.flight, i);
    forall g, h | g in s.flight && h in s.flight && InChain(s.flight, g, i) && InChain(s.flight, h, i) ensures g == h {
      OneChain(s.free, s.own, s.flight, i, g, h);
    }
  }

  /** The published requests the handler has not seen number at most two, also
      as the 16-bit indices count them, so no ring slot is reused too early. */
  lemma IndicesStayClose(run: seq<State>, acts: seq<Action>, m: nat)
    requires IsRun(run, acts) && m < |run|
    ensures var s := run[m];
      && 0 <= s.submitted - s.acked <= 2
      && (s.availIdx - s.seenIdx + WRAP) % WRAP == s.submitted - s.acked
      && (s.seenIdx != s.usedIdx <==> s.used != [])
  {
    hide OwnInv, StageInv, RingInv, FormatInv, DataInv, IsRun;
    RunInv(run, acts, m);
    var s := run[m];
    InTransit(s);
    IndexGap(s.acked, s.submitted - s.acked);
    IndexGap(s.acked, |s.used|);
  }

  lemma IndexGap(c: nat, d: nat)
    requires d <= 2
    ensures ((c + d) % WRAP - c % WRAP + WRAP) % WRAP == d
    ensures (c + d) % WRAP == c % WRAP <==> d == 0
  {
    IndexDiffer(c, d);
    var x, y := (c + d) % WRAP, c % WRAP;
    if x == y + d { assert x - y + WRAP == d + WRAP; } else { assert x - y + WRAP == d; }
  }

  lemma BlockAtIs(block: nat)
    requires block < 0x1_0000_0000
    ensures BlockAt(block) == if block < 0x8000_0000 then block else block - 0x8000_0000
  {
  }

  /** Following the descriptors of a chain it has fetched, the device finds the
      request that was submitted: the buffer, the direction and the sectors.
      They are those of the block asked for exactly when it is below 2^31. */
  lemma DeviceSeesRequest(run: seq<State>, acts: seq<Action>, m: nat, h: nat)
    requires IsRun(run, acts) && m < |run| && h in run[m].pending
    ensures h in run[m].flight
    ensures var q := run[m].flight[h];
      && Decode(run[m], h) == Some(Command(q.write, Sector(q.block), q.buf, h))
      && q.block < 0x1_0000_0000
      && (Sector(q.block) / 2 == q.block <==> q.block < 0x8000_0000)
  {
    RunInv(run, acts, m);
    assert At(run[m], h, Fetched);
    WordBlocks(run, acts, m, h);
    hide StageInv, RingInv, DataInv, Partition, CountInv;
    DecodesToRequest(run[m], h);
    BlockAtIs(run[m].flight[h].block);
  }

  /** virtio_disk_intr never finds a used entry with a bad id or status. */
  lemma IntrNeverPanics(run: seq<State>, acts: seq<Action>, m: nat)
    requires IsRun(run, acts) && m < |run|
    ensures !IntrPanics(run[m])
  {
    RunInv(run, acts, m);
    hide Inv;
    if run[m].seenIdx != run[m].usedIdx { SeesOldest(run[m]); }
  }

  lemma {:induction false} WordBlocks(run: seq<State>, acts: seq<Action>, m: nat, h: nat)
    requires IsRun(run, acts) && m < |run| && h in run[m].flight
    ensures run[m].flight[h].block < 0x1_0000_0000
  {
    if m > 0 {
      assert Step(run[m-1], acts[m-1], run[m]);
      FlightFrom(run[m-1], acts[m-1], run[m], h);
      hide Step;
      if h in run[m-1].flight { WordBlocks(run, acts, m - 1, h); }
    }
  }

  lemma FlightFrom(s: State, a: Action, s': State, h: nat)
    requires Step(s, a, s') && h in s'.flight
    ensures s'.flight[h].block < 0x1_0000_0000 || (h in s.flight && s'.flight[h].block == s.flight[h].block)
    ensures |s'.disk| == |s.disk|
    ensures s'.aliased && !s.aliased ==>
      a.Prepare? && exists g :: g in s.flight && BlockAt(s.flight[g].block) == BlockAt(a.block)
  {
    hide Decode, ChainDescs, SetThree, FreeDescs, BlockAt, Sector;
  }

  // ----- the life of one request

  function Rank(g: Stage): nat {
    match g
    case Prepared => 0 case Submitted => 1 case Fetched => 2
    case Performed => 3 case Reported => 4 case Acknowledged => 5
  }

  ghost predicate SameRequest(q: Request, q': Request) { q' == q.(stage := q'.stage) }

  ghost predicate MovesOn(s: State, a: Action, s': State, h: nat) {
    && h in s.flight && h in s'.flight && SameRequest(s.flight[h], s'.flight[h])
    && (Rank(s'.flight[h].stage) == Rank(s.flight[h].stage) || Rank(s'.flight[h].stage) == Rank(s.flight[h].stage) + 1)
    && (a == Perform(h) <==> Rank(s.flight[h].stage) == 2 && Rank(s'.flight[h].stage) == 3)
  }

  lemma RestageMovesOn(s: State, a: Action, s': State, x: nat, g: Stage, h: nat)
    requires x in s.flight && s'.flight == Restage(s.flight, x, g) && h in s.flight
    requires Rank(g) == Rank(s.flight[x].stage) + 1
    requires if g == Performed then a == Perform(x) else !a.Perform?
    ensures MovesOn(s, a, s', h)
  {
  }

  lemma WhoMoves(s: State)
    requires Inv(s)
    ensures s.lock.Submitting? ==> At(s, s.lock.head, Prepared)
    ensures s.writing.Some? ==> At(s, s.writing.value, Performed)
    ensures forall h :: h in s.pending ==> At(s, h, Fetched)
  {
  }

  lemma StaysPut(s: State, a: Action, s': State, h: nat)
    requires h in s.flight && h in s'.flight && s'.flight[h] == s.flight[h] && !a.Perform?
    ensures MovesOn(s, a, s', h)
  {
  }

  lemma RankNext()
    ensures Rank(Submitted) == Rank(Prepared) + 1 && Rank(Fetched) == Rank(Submitted) + 1
      && Rank(Performed) == Rank(Fetched) + 1
    ensures Rank(Reported) == Rank(Performed) + 1 && Rank(Acknowledged) == Rank(Reported) + 1
  {
  }

  lemma PublishMovesOn(s: State, s': State, h: nat)
    requires Inv(s) && PublishStep(s, s') && h in s.flight
    ensures MovesOn(s, Publish, s', h)
  {
    hide Inv, MovesOn, Rank, Decode;
    RankNext();
    WhoMoves(s);
    RestageMovesOn(s, Publish, s', s.lock.head, Submitted, h);
  }

  lemma IntrOneMovesOn(s: State, s': State, h: nat)
    requires Inv(s) && IntrOneStep(s, s') && h in s.flight
    ensures MovesOn(s, IntrOne, s', h)
  {
    hide Inv, MovesOn, Rank, Decode;
    RankNext();
    SeesOldest(s);
    RestageMovesOn(s, IntrOne, s', s.used[0], Acknowledged, h);
  }

  lemma FetchMovesOn(s: State, s': State, h: nat)
    requires Inv(s) && FetchStep(s, s') && h in s.flight
    ensures MovesOn(s, Fetch, s', h)
  {
    hide Inv, MovesOn, Rank, Decode;
    RankNext();
    FetchOldest(s);
    RestageMovesOn(s, Fetch, s', s.sent[0], Fetched, h);
  }

  lemma PerformMovesOn(s: State, s': State, h: nat, x: nat)
    requires Inv(s) && PerformStep(s, s', x) && h in s.flight
    ensures MovesOn(s, Perform(x), s', h)
  {
    hide Inv, MovesOn, Rank, Decode;
    RankNext();
    WhoMoves(s);
    RestageMovesOn(s, Perform(x), s', x, Performed, h);
  }

  lemma ReportMovesOn(s: State, s': State, h: nat)
    requires Inv(s) && ReportStep(s, s') && h in s.flight
    ensures MovesOn(s, Report, s', h)
  {
    hide Inv, MovesOn, Rank, Decode;
    RankNext();
    WhoMoves(s);
    RestageMovesOn(s, Report, s', s.writing.value, Reported, h);
  }

  lemma PrepareMovesOn(s: State, s': State, h: nat, a: Action)
    requires Inv(s) && a.Prepare? && PrepareStep(s, s', a.i0, a.i1, a.i2, a.b, a.write, a.block) && h in s.flight
    ensures MovesOn(s, a, s', h)
  {
    hide Inv, MovesOn;
    PreparesNew(s, a.i0);
    StaysPut(s, a, s', h);
  }

  /** While request h is in flight, a step leaves it alone or moves it on one
      stage; the device performs it exactly when it goes from Fetched to Performed. */
  lemma StepMovesOn(s: State, a: Action, s': State, h: nat)
    requires Inv(s) && Step(s, a, s') && h in s.flight && a != Finish(h)
    ensures MovesOn(s, a, s', h)
  {
    hide MovesOn, Inv, PrepareStep, PublishStep, IntrOneStep, FetchStep, PerformStep, ReportStep;
    match a
    case Prepare(i0, i1, i2, b, write, block) => PrepareMovesOn(s, s', h, a);
    case Publish => PublishMovesOn(s, s', h);
    case IntrBegin => StaysPut(s, a, s', h);
    case IntrOne => IntrOneMovesOn(s, s', h);
    case IntrEnd => StaysPut(s, a, s', h);
    case Finish(x) => StaysPut(s, a, s', h);
    case Modify(b, v) => StaysPut(s, a, s', h);
    case Fetch => FetchMovesOn(s, s', h);
    case Perform(x) => PerformMovesOn(s, s', h, x);
    case Report => ReportMovesOn(s, s', h);
  }

  lemma PreparesNew(s: State, i: nat)
    requires Inv(s) && i < NUM && s.free[i]
    ensures i !in s.flight
  {
    FreeNotHead(s, i);
  }

  lemma FetchOldest(s: State)
    requires Inv(s) && s.fetchIdx != s.availIdx
    ensures s.sent != [] && s.availRing[s.fetchIdx % NUM] == s.sent[0] && At(s, s.sent[0], Submitted)
  {
    FetchesOldest(s);
  }

  // ----- one call of virtio_disk_rw

  /** How often the device performs the chain at h during acts[i..m]. */
  ghost function Performs(acts: seq<Action>, h: nat, i: nat, m: nat): nat
    requires i <= m <= |acts|
    decreases m
  {
    if i == m then 0 else Performs(acts, h, i, m - 1) + (if acts[m-1] == Perform(h) then 1 else 0)
  }

  /** From the call's first section on, until it returns, the request stays in
      flight unchanged and is performed once it gets past Fetched. */
  lemma JustPrepared(s: State, a: Action, s': State)
    requires Step(s, a, s') && a.Prepare?
    ensures a.b in s.data && BlockAt(a.block) < |s.disk| && a.i0 in s'.flight
    ensures SameRequest(Request(a.i1, a.i2, a.b, a.write, a.block,
                                if a.write then s.data[a.b] else s.disk[BlockAt(a.block)], Prepared), s'.flight[a.i0])
    ensures Rank(s'.flight[a.i0].stage) < 3
  {
    hide Rank, BlockAt, Sector;
    FreshRank();
  }

  lemma {:induction false} InFlight(run: seq<State>, acts: seq<Action>, i: nat, m: nat)
    requires IsRun(run, acts) && i < m <= |acts| && acts[i].Prepare?
    requires forall k :: i < k < m ==> acts[k] != Finish(acts[i].i0)
    ensures var a, s := acts[i], run[m];
      && a.b in run[i].data && BlockAt(a.block) < |run[i].disk| && a.i0 in s.flight
      && SameRequest(Request(a.i1, a.i2, a.b, a.write, a.block,
                             if a.write then run[i].data[a.b] else run[i].disk[BlockAt(a.block)], Prepared),
                               s.flight[a.i0])
      && Performs(acts, a.i0, i, m) == if Rank(s.flight[a.i0].stage) >= 3 then 1 else 0
    decreases m
  {
    hide Inv, Rank, BlockAt, Sector, Step, Init;
    assert Step(run[i], acts[i], run[i+1]);
    var a := acts[i];
    if m == i + 1 {
      assert Performs(acts, a.i0, i, m) == Performs(acts, a.i0, i, i) + 0;
      JustPrepared(run[i], a, run[m]);
    } else {
      InFlight(run, acts, i, m - 1);
      RunInv(run, acts, m - 1);
      assert Step(run[m-1], acts[m-1], run[m]);
      StepMovesOn(run[m-1], acts[m-1], run[m], a.i0);
    }
  }

  lemma FreshRank()
    ensures Rank(Prepared) == 0
  {
  }

  /** A completed virtio_disk_rw(b, write) has moved the sectors it computed,
      whole and once: a write left the buffer's content on the disk, a read left
      the disk's content in the buffer, and neither changed its source meanwhile,
      unless calls for the same sectors were in flight together. */
  lemma RwMovesSectorsOnce(run: seq<State>, acts: seq<Action>, i: nat, j: nat)
    requires IsRun(run, acts) && i < j < |acts| && acts[i].Prepare? && acts[j] == Finish(acts[i].i0)
    requires forall k :: i < k < j ==> acts[k] != Finish(acts[i].i0)
    ensures var a, t := acts[i], BlockAt(acts[i].block);
      && a.b in run[i].data && t < |run[i].disk| && a.b in run[j].data && t < |run[j].disk|
      && Performs(acts, a.i0, i, j) == 1
      && (!run[j].aliased ==>
            run[j].data[a.b] == run[j].disk[t] == if a.write then run[i].data[a.b] else run[i].disk[t])
  {
    hide Inv, BlockAt, Sector;
    assert Step(run[i], acts[i], run[i+1]) && Step(run[j], acts[j], run[j+1]);
    InFlight(run, acts, i, j);
    RunInv(run, acts, j);
    FinishesDone(run[j], run[j+1], acts[i].i0);
  }

  // ----- which disks the driver can address

  lemma {:induction false} SmallDisk(run: seq<State>, acts: seq<Action>, m: nat)
    requires IsRun(run, acts) && m < |run| && |run[0].disk| <= 0x8000_0000
    ensures |run[m].disk| == |run[0].disk| && !run[m].aliased
    ensures forall h :: h in run[m].flight ==> run[m].flight[h].block < |run[m].disk|
  {
    hide Step, Init, Inv;
    if m == 0 {
      InitIdle(run[0]);
    } else {
      SmallDisk(run, acts, m - 1);
      RunInv(run, acts, m - 1);
      SmallStep(run[m-1], acts[m-1], run[m]);
    }
  }

  lemma InitIdle(s: State)
    requires Init(s)
    ensures s.flight == map[] && !s.aliased
  {
  }

  lemma SmallStep(s: State, a: Action, s': State)
    requires Inv(s) && Step(s, a, s') && !s.aliased && |s.disk| <= 0x8000_0000
    requires forall h :: h in s.flight ==> s.flight[h].block < |s.disk|
    ensures |s'.disk| == |s.disk| && !s'.aliased
    ensures forall h :: h in s'.flight ==> s'.flight[h].block < |s'.disk|
  {
    hide Inv, Decode, ChainDescs, SetThree, FreeDescs, BlockAt, Sector;
    if a.Prepare? {
      BlockAtIs(a.block);
      forall h | h in s.flight ensures BlockAt(s.flight[h].block) != BlockAt(a.block) { BlockAtIs(s.flight[h].block); }
    }
  }

  /** On a disk of n blocks every completed call moves the block it was asked to. */
  ghost predicate MovesItsBlock(n: nat) {
    forall run: seq<State>, acts: seq<Action>, i: nat, j: nat :: Completed(run, acts, i, j) && |run[0].disk| == n ==>
      ItsBlock(run, acts, i, j)
  }

  ghost predicate Completed(run: seq<State>, acts: seq<Action>, i: nat, j: nat) {
    && IsRun(run, acts) && i < j < |acts| && acts[i].Prepare? && acts[j] == Finish(acts[i].i0)
    && forall k :: i < k < j ==> acts[k] != Finish(acts[i].i0)
  }

  ghost predicate ItsBlock(run: seq<State>, acts: seq<Action>, i: nat, j: nat)
    requires i < j < |run| == |acts| + 1 && acts[i].Prepare?
  {
    var a := acts[i];
    && a.b in run[i].data && a.block < |run[i].disk| && a.b in run[j].data && a.block < |run[j].disk|
    && run[j].data[a.b] == run[j].disk[a.block] == (if a.write then run[i].data[a.b] else run[i].disk[a.block])
    && Performs(acts, a.i0, i, j) == 1
  }

  lemma SmallMovesIts(run: seq<State>, acts: seq<Action>, i: nat, j: nat)
    requires Completed(run, acts, i, j) && |run[0].disk| <= 0x8000_0000
    ensures ItsBlock(run, acts, i, j)
  {
    hide Inv, BlockAt, Sector, Performs;
    RwMovesSectorsOnce(run, acts, i, j);
    SmallDisk(run, acts, i);
    SmallDisk(run, acts, j);
    assert Step(run[i], acts[i], run[i+1]);
    BlockAtIs(acts[i].block);
  }
}
