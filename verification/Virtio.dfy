/** The virtio disk driver and the device it drives, as a protocol of atomic
    steps: sections under vdisk_lock on one side, and on the other a device that
    fetches chains, performs them in any order and reports them used. All that
    passes between the two is memory: descriptors, rings and 16-bit indices. */
module VirtioProtocol {
  import opened Basics
  import opened Blocks

  const NUM: nat := 8
  const WRAP: nat := 0x1_0000
  const F_NEXT: nat := 1
  const F_WRITE: nat := 2

  type BufId = nat

  /** What a descriptor's address points at. */
  datatype Target = Null | Header(op: nat) | Data(buf: BufId) | Status(info: nat)

  datatype Desc = Desc(addr: Target, len: nat, flags: nat, next: nat)

  /** struct virtio_blk_req: VIRTIO_BLK_T_OUT (write) or VIRTIO_BLK_T_IN. */
  datatype Op = Op(out: bool, sector: nat)

  datatype Info = Info(b: Option<BufId>, status: nat)

  datatype Stage = Prepared | Submitted | Fetched | Performed | Reported | Acknowledged

  /** A call of virtio_disk_rw in progress: its three descriptors (the first is
      its key in `flight`), its arguments, the block content it is to move, and
      how far it has come. */
  datatype Request = Request(i1: nat, i2: nat, buf: BufId, write: bool, block: nat, want: Block, stage: Stage)

  /** Who holds vdisk_lock, and what for. */
  datatype Holder = Nobody | Submitting(head: nat) | Interrupt

  datatype State = State(
    // shared memory
    desc: seq<Desc>, ops: seq<Op>, info: seq<Info>,
    availRing: seq<nat>, availIdx: nat,
    usedRing: seq<nat>, usedIdx: nat,
    // driver
    free: seq<bool>, seenIdx: nat, busy: map<BufId, bool>, data: map<BufId, Block>, lock: Holder,
    flight: map<nat, Request>,
    // device
    disk: seq<Block>, fetchIdx: nat, pending: set<nat>, writing: Option<nat>,
    // history
    own: map<nat, nat>, sent: seq<nat>, used: seq<nat>,
    submitted: nat, fetched: nat, performed: nat, acked: nat,
    aliased: bool)            // calls for the same sectors have been in flight together

  // ----- driver steps

  /** The first sector of a block: the product of a 32-bit block number and
      BSIZE / 512, taken in 32 bits before it is widened. */
  function Sector(block: nat): nat { 2 * block % 0x1_0000_0000 }

  /** The block at which those sectors lie. */
  function BlockAt(block: nat): nat { Sector(block) / 2 }

  /** virtio_disk_rw up to the ring entry: descriptors taken and formatted. */
  predicate PrepareStep(s: State, s': State, i0: nat, i1: nat, i2: nat, b: BufId, write: bool, block: nat) {
    && s.lock == Nobody && i0 < NUM && i1 < NUM && i2 < NUM && i0 != i1 && i0 != i2 && i1 != i2
    && Sized(s) && s.free[i0] && s.free[i1] && s.free[i2]
    && block < |s.disk| && block < 0x1_0000_0000 && BlockAt(block) < |s.disk| && b in s.data && b in s.busy
    && (forall h :: h in s.flight ==> s.flight[h].buf != b && s.flight[h].block != block)
    && s' == s.(
         free := SetThree(s.free, i0, i1, i2, false),
         ops := s.ops[i0 := Op(write, Sector(block))],
         desc := ChainDescs(s.desc, i0, i1, i2, b, write),
         info := s.info[i0 := Info(Some(b), 0xff)],
         busy := s.busy[b := true],
         availRing := s.availRing[s.availIdx % NUM := i0],
         lock := Submitting(i0),
         flight := s.flight[i0 := Request(i1, i2, b, write, block, if write then s.data[b]
           else s.disk[BlockAt(block)], Prepared)],
         own := s.own[i0 := i0][i1 := i0][i2 := i0],
         aliased := s.aliased || exists h :: h in s.flight && BlockAt(s.flight[h].block) == BlockAt(block))
  }

  function SetThree(free: seq<bool>, i0: nat, i1: nat, i2: nat, v: bool): (r: seq<bool>)
    requires i0 < |free| && i1 < |free| && i2 < |free|
    ensures |r| == |free|
  {
    free[i0 := v][i1 := v][i2 := v]
  }

  /** The descriptors of a request: command header, data, status byte. */
  function ChainDescs(desc: seq<Desc>, i0: nat, i1: nat, i2: nat, b: BufId, write: bool): (r: seq<Desc>)
    requires i0 < |desc| && i1 < |desc| && i2 < |desc|
    ensures |r| == |desc|
  {
    desc[i0 := Desc(Header(i0), 16, F_NEXT, i1)]
        [i1 := Desc(Data(b), BSIZE, if write then F_NEXT else F_NEXT + F_WRITE, i2)]
        [i2 := Desc(Status(i0), 1, F_WRITE, 0)]
  }

  function FreeDescs(desc: seq<Desc>, i0: nat, i1: nat, i2: nat): (r: seq<Desc>)
    requires i0 < |desc| && i1 < |desc| && i2 < |desc|
    ensures |r| == |desc|
  {
    desc[i0 := FREE_DESC][i1 := FREE_DESC][i2 := FREE_DESC]
  }

  /** avail->idx += 1; the requester then sleeps, giving up the lock. */
  predicate PublishStep(s: State, s': State) {
    && s.lock.Submitting? && s.lock.head in s.flight
    && s' == s.(availIdx := (s.availIdx + 1) % WRAP, lock := Nobody,
                flight := s.flight[s.lock.head := s.flight[s.lock.head].(stage := Submitted)],
                sent := s.sent + [s.lock.head], submitted := s.submitted + 1)
  }

  predicate IntrBeginStep(s: State, s': State) {
    s.lock == Nobody && s' == s.(lock := Interrupt)
  }

  /** The panic of virtio_disk_intr. */
  predicate IntrPanics(s: State) {
    && Sized(s) && s.lock == Interrupt && s.seenIdx != s.usedIdx
    && var id := s.usedRing[s.seenIdx % NUM];
    id >= NUM || s.info[id].status != 0
  }

  /** One used entry: the buffer's disk flag is cleared. */
  predicate IntrOneStep(s: State, s': State) {
    && Sized(s) && s.lock == Interrupt && s.seenIdx != s.usedIdx
    && var id := s.usedRing[s.seenIdx % NUM];
    && id < NUM && s.info[id].status == 0 && s.info[id].b.Some?
    && s' == s.(busy := s.busy[s.info[id].b.value := false], seenIdx := (s.seenIdx + 1) % WRAP,
                flight := if id in s.flight then s.flight[id := s.flight[id].(stage := Acknowledged)] else s.flight,
                used := if s.used != [] then s.used[1..] else [], acked := s.acked + 1)
  }

  predicate IntrEndStep(s: State, s': State) {
    s.lock == Interrupt && s.seenIdx == s.usedIdx && s' == s.(lock := Nobody)
  }

  const FREE_DESC: Desc := Desc(Null, 0, 0, 0)

  /** The requester sees b->disk == 0 and frees its chain. */
  predicate FinishStep(s: State, s': State, h: nat) {
    && Sized(s) && s.lock == Nobody && h in s.flight && h < NUM
    && var q := s.flight[h];
    && q.buf in s.busy && !s.busy[q.buf] && q.stage != Prepared
    && q.i1 < NUM && q.i2 < NUM
    && s' == s.(info := s.info[h := s.info[h].(b := None)],
                desc := FreeDescs(s.desc, h, q.i1, q.i2),
                free := SetThree(s.free, h, q.i1, q.i2, true),
                flight := s.flight - {h}, own := s.own - {h, q.i1, q.i2})
  }

  /** The kernel changes the data of a buffer that is not being transferred. */
  predicate ModifyStep(s: State, s': State, b: BufId, v: Block) {
    && b in s.data && (forall h :: h in s.flight ==> s.flight[h].buf != b)
    && s' == s.(data := s.data[b := v])
  }

  // ----- device steps

  /** The device takes the next available chain head from the ring. */
  predicate FetchStep(s: State, s': State) {
    && Sized(s) && s.fetchIdx != s.availIdx
    && var h := s.availRing[s.fetchIdx % NUM];
    s' == s.(fetchIdx := (s.fetchIdx + 1) % WRAP, pending := s.pending + {h},
             flight := if h in s.flight then s.flight[h := s.flight[h].(stage := Fetched)] else s.flight,
             sent := if s.sent != [] then s.sent[1..] else [], fetched := s.fetched + 1)
  }

  /** What the chain at h asks for, read from the descriptors alone. */
  datatype Command = Command(out: bool, sector: nat, buf: BufId, status: nat)

  function Decode(s: State, h: nat): (c: Option<Command>)
    ensures c.Some? ==> Sized(s) && c.value.status < NUM
  {
    if !Sized(s) || h >= NUM then None else
    var d0 := s.desc[h];
    if !d0.addr.Header? || d0.addr.op >= NUM || d0.flags % 2 == 0 || d0.next >= NUM then None else
    var d1 := s.desc[d0.next];
    if !d1.addr.Data? || d1.len != BSIZE || d1.flags % 2 == 0 || d1.next >= NUM then None else
    var d2 := s.desc[d1.next];
    if !d2.addr.Status? || d2.addr.info >= NUM || d2.flags % 2 == 1 then None else
    Some(Command(s.ops[d0.addr.op].out, s.ops[d0.addr.op].sector, d1.addr.buf, d2.addr.info))
  }

  /** The device performs a fetched chain, writes status 0 and a used entry. */
  predicate PerformStep(s: State, s': State, h: nat) {
    && h in s.pending && s.writing == None && Decode(s, h).Some?
    && var c := Decode(s, h).value;
    && c.buf in s.data && c.sector / 2 < |s.disk|
    && s' == s.(disk := if c.out then s.disk[c.sector / 2 := s.data[c.buf]] else s.disk,
                data := if c.out then s.data else s.data[c.buf := s.disk[c.sector / 2]],
                info := s.info[c.status := s.info[c.status].(status := 0)],
                usedRing := s.usedRing[s.usedIdx % NUM := h],
                pending := s.pending - {h}, writing := Some(h),
                flight := if h in s.flight then s.flight[h := s.flight[h].(stage := Performed)] else s.flight)
  }

  /** used->idx += 1 */
  predicate ReportStep(s: State, s': State) {
    && s.writing.Some?
    && s' == s.(usedIdx := (s.usedIdx + 1) % WRAP, writing := None,
                flight := if s.writing.value in s.flight
                          then s.flight[s.writing.value := s.flight[s.writing.value].(stage := Reported)] else s.flight,
                used := s.used + [s.writing.value], performed := s.performed + 1)
  }

  predicate Sized(s: State) {
    && |s.desc| == |s.ops| == |s.info| == |s.availRing| == |s.usedRing| == |s.free| == NUM
    && s.availIdx < WRAP && s.usedIdx < WRAP && s.seenIdx < WRAP && s.fetchIdx < WRAP
  }

  datatype Action =
    | Prepare(i0: nat, i1: nat, i2: nat, b: BufId, write: bool, block: nat)
    | Publish | IntrBegin | IntrOne | IntrEnd | Finish(h: nat)
    | Modify(b: BufId, v: Block)
    | Fetch | Perform(h: nat) | Report

  predicate Step(s: State, a: Action, s': State) {
    match a
    case Prepare(i0, i1, i2, b, write, block) => PrepareStep(s, s', i0, i1, i2, b, write, block)
    case Publish => PublishStep(s, s')
    case IntrBegin => IntrBeginStep(s, s')
    case IntrOne => IntrOneStep(s, s')
    case IntrEnd => IntrEndStep(s, s')
    case Finish(h) => FinishStep(s, s', h)
    case Modify(b, v) => ModifyStep(s, s', b, v)
    case Fetch => FetchStep(s, s')
    case Perform(h) => PerformStep(s, s', h)
    case Report => ReportStep(s, s')
  }

  /** After virtio_disk_init: memory zeroed, every descriptor free. */
  ghost predicate Init(s: State) {
    && Sized(s)
    && (forall i :: 0 <= i < NUM ==> s.free[i])
    && s.availIdx == s.usedIdx == s.seenIdx == s.fetchIdx == 0
    && s.lock == Nobody && s.flight == map[] && s.pending == {} && s.writing == None
    && s.own == map[] && s.sent == [] && s.used == []
    && s.submitted == s.fetched == s.performed == s.acked == 0
    && s.busy.Keys == s.data.Keys && !s.aliased
  }
}
