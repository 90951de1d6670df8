/** The disks that virtio_disk_rw can address: those of at most 2^31 blocks. */
module VirtioLimits {
  import opened Basics
  import opened Blocks
  import opened VirtioProtocol
  import opened VirtioSafety
  import opened VirtioTheorems

  function Fill(x: byte): Block { seq(BSIZE, i => x) }

  /** After virtio_disk_init: an empty disk of n blocks, and one buffer of ones. */
  function Start(n: nat): State {
    State(seq(NUM, i => FREE_DESC), seq(NUM, i => Op(false, 0)), seq(NUM, i => Info(None, 0)),
          seq(NUM, i => 0), 0, seq(NUM, i => 0), 0,
          seq(NUM, i => true), 0, map[0 := false], map[0 := Fill(1)], Nobody, map[],
          seq(n, i => Fill(0)), 0, {}, None,
          map[], [], [], 0, 0, 0, 0, false)
  }

  const HIGH: nat := 0x8000_0000

  lemma HighAt()
    ensures Sector(HIGH) == 0 && BlockAt(HIGH) == 0
  {
  }

  /** The call is on its way: the device has been told. */
  lemma Submit(n: nat) returns (s1: State, s2: State, s3: State)
    requires n > HIGH
    ensures Step(Start(n), Prepare(0, 1, 2, 0, true, HIGH), s1) && Step(s1, Publish, s2) && Step(s2, Fetch, s3)
    ensures s3.disk == Start(n).disk && s3.data == Start(n).data && s3.pending == {0} && s3.writing == None
    ensures Sized(s3) && s3.lock == Nobody && s3.seenIdx == 0 && s3.usedIdx == 0 && s3.used == []
      && s3.busy == map[0 := true]
    ensures s3.flight == map[0 := Request(1, 2, 0, true, HIGH, Fill(1), Fetched)]
    ensures s3.desc == ChainDescs(Start(n).desc, 0, 1, 2, 0, true) && s3.ops[0] == Op(true, 0)
      && s3.info[0] == Info(Some(0), 0xff)
  {
    hide Fill, Sector, BlockAt, SetThree;
    HighAt();
    var s := Start(n);
    s1 := s.(free := SetThree(s.free, 0, 1, 2, false), ops := s.ops[0 := Op(true, 0)],
             desc := ChainDescs(s.desc, 0, 1, 2, 0, true), info := s.info[0 := Info(Some(0), 0xff)],
             busy := s.busy[0 := true], availRing := s.availRing[0 := 0], lock := Submitting(0),
             flight := s.flight[0 := Request(1, 2, 0, true, HIGH, s.data[0], Prepared)],
             own := s.own[0 := 0][1 := 0][2 := 0]);
    assert PrepareStep(s, s1, 0, 1, 2, 0, true, HIGH);
    s2 := s1.(availIdx := 1, lock := Nobody, flight := s1.flight[0 := s1.flight[0].(stage := Submitted)],
              sent := s1.sent + [0], submitted := 1);
    assert PublishStep(s1, s2);
    s3 := s2.(fetchIdx := 1, pending := s2.pending + {0}, flight := s2.flight[0 := s2.flight[0].(stage := Fetched)],
              sent := s2.sent[1..], fetched := 1);
    assert FetchStep(s2, s3);
  }

  /** The device writes block 0 instead, and reports. */
  lemma Perform0(n: nat, s: State) returns (s1: State, s2: State)
    requires n > HIGH && s.disk == Start(n).disk && s.data == Start(n).data && s.pending == {0} && s.writing == None
    requires Sized(s) && s.lock == Nobody && s.seenIdx == 0 && s.usedIdx == 0 && s.used == []
      && s.busy == map[0 := true]
    requires s.flight == map[0 := Request(1, 2, 0, true, HIGH, Fill(1), Fetched)]
    requires s.desc == ChainDescs(Start(n).desc, 0, 1, 2, 0, true) && s.ops[0] == Op(true, 0)
      && s.info[0] == Info(Some(0), 0xff)
    ensures Step(s, Perform(0), s1) && Step(s1, Report, s2)
    ensures s2.disk == s.disk[0 := Fill(1)] && s2.data == s.data && Sized(s2) && s2.lock == Nobody
    ensures s2.seenIdx == 0 && s2.usedIdx == 1 && s2.usedRing[0] == 0 && s2.info[0] == Info(Some(0), 0)
      && s2.busy == s.busy
    ensures 0 in s2.flight && s2.flight[0].i1 == 1 && s2.flight[0].i2 == 2 && s2.flight[0].buf == 0
  {
    hide Fill, Sector, BlockAt;
    assert Decode(s, 0) == Some(Command(true, 0, 0, 0));
    s1 := s.(disk := s.disk[0 := s.data[0]], info := s.info[0 := s.info[0].(status := 0)],
             usedRing := s.usedRing[0 := 0], pending := s.pending - {0}, writing := Some(0),
             flight := s.flight[0 := s.flight[0].(stage := Performed)]);
    assert PerformStep(s, s1, 0);
    s2 := s1.(usedIdx := 1, writing := None, flight := s1.flight[0 := s1.flight[0].(stage := Reported)],
              used := s1.used + [0], performed := s1.performed + 1);
    assert ReportStep(s1, s2);
  }

  /** The interrupt wakes the caller, which returns. */
  lemma Return0(s: State) returns (s1: State, s2: State, s3: State, s4: State)
    requires Sized(s) && s.lock == Nobody && s.seenIdx == 0 && s.usedIdx == 1 && s.usedRing[0] == 0
      && s.info[0] == Info(Some(0), 0)
    requires s.busy == map[0 := true]
    requires 0 in s.flight && s.flight[0].i1 == 1 && s.flight[0].i2 == 2 && s.flight[0].buf == 0
    ensures Step(s, IntrBegin, s1) && Step(s1, IntrOne, s2) && Step(s2, IntrEnd, s3) && Step(s3, Finish(0), s4)
    ensures s3.disk == s.disk && s3.data == s.data
  {
    s1 := s.(lock := Interrupt);
    s2 := s1.(busy := s1.busy[0 := false], seenIdx := 1, flight := s1.flight[0 := s1.flight[0].(stage := Acknowledged)],
              used := if s1.used != [] then s1.used[1..] else [], acked := s1.acked + 1);
    assert IntrOneStep(s1, s2);
    s3 := s2.(lock := Nobody);
    s4 := s3.(info := s3.info[0 := s3.info[0].(b := None)], desc := FreeDescs(s3.desc, 0, 1, 2),
              free := SetThree(s3.free, 0, 1, 2, true), flight := s3.flight - {0}, own := s3.own - {0, 1, 2});
    assert FinishStep(s3, s4, 0);
  }

  /** On a larger disk a call to write block 2^31 writes block 0. */
  lemma WrongBlock(n: nat)
    requires n > HIGH
    ensures !MovesItsBlock(n)
  {
    hide Step, Fill, Performs;
    var s1, s2, s3 := Submit(n);
    var s4, s5 := Perform0(n, s3);
    var s6, s7, s8, s9 := Return0(s5);
    var run := [Start(n), s1, s2, s3, s4, s5, s6, s7, s8, s9];
    var acts := [Prepare(0, 1, 2, 0, true, HIGH), Publish, Fetch, Perform(0), Report, IntrBegin, IntrOne, IntrEnd,
      Finish(0)];
    assert Completed(run, acts, 0, 8);
    assert run[8].disk[HIGH] == Fill(0) && run[8].data[0] == Fill(1);
    FillsDiffer();
    assert !ItsBlock(run, acts, 0, 8);
  }

  lemma FillsDiffer()
    ensures Fill(0) != Fill(1)
  {
    assert Fill(0)[0] != Fill(1)[0];
  }

  /** Every completed call moves the block it was asked to, on all disks of at
      most 2^31 blocks and on no larger ones. */
  lemma RightBlockIff(n: nat)
    ensures MovesItsBlock(n) <==> n <= 0x8000_0000
  {
    hide Step, Init, ItsBlock;
    if n <= 0x8000_0000 {
      forall run: seq<State>, acts: seq<Action>, i: nat, j: nat | Completed(run, acts, i, j) && |run[0].disk| == n
        ensures i < j < |run| == |acts| + 1 && acts[i].Prepare? && ItsBlock(run, acts, i, j)
      {
        SmallMovesIts(run, acts, i, j);
      }
    } else {
      WrongBlock(n);
    }
  }
}
