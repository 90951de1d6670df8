/** What every step of the driver and the device keeps. */
module VirtioSafety {
  import opened Basics
  import opened Blocks
  import opened VirtioProtocol

  // ----- descriptors

  /** Free descriptors and the chains in flight partition the descriptors. */
  ghost predicate Partition(free: seq<bool>, own: map<nat, nat>, flight: map<nat, Request>) {
    && |free| == NUM
    && (forall i: nat :: i < NUM ==> (free[i] <==> i !in own))
    && (forall i :: i in own ==> i < NUM && own[i] in flight && InChain(flight, own[i], i))
    && (forall h :: h in flight ==> Chained(own, flight, h))
    && |own| == 3 * |flight|
  }

  ghost predicate InChain(flight: map<nat, Request>, h: nat, i: nat)
    requires h in flight
  {
    i == h || i == flight[h].i1 || i == flight[h].i2
  }

  ghost predicate Chained(own: map<nat, nat>, flight: map<nat, Request>, h: nat)
    requires h in flight
  {
    var q := flight[h];
    && h in own && own[h] == h && q.i1 in own && own[q.i1] == h && q.i2 in own && own[q.i2] == h
    && h != q.i1 && h != q.i2 && q.i1 != q.i2 && h < NUM && q.i1 < NUM && q.i2 < NUM
  }

  ghost predicate OwnInv(s: State) {
    Sized(s) && Partition(s.free, s.own, s.flight)
  }

  lemma {:induction false} BelowSize(a: set<nat>, n: nat)
    requires forall i :: i in a ==> i < n
    ensures |a| <= n
  {
    if n == 0 {
      assert a == {};
    } else {
      BelowSize(a - {n - 1}, n - 1);
    }
  }

  /** At most two requests are in flight. */
  lemma FlightBound(s: State)
    requires OwnInv(s)
    ensures |s.flight| <= 2
  {
    BelowSize(s.own.Keys, NUM);
    assert |s.own| == |s.own.Keys|;
  }

  // ----- what the descriptors of a chain say

  ghost predicate Formatted(s: State, h: nat)
    requires h in s.flight && Sized(s)
  {
    var q := s.flight[h];
    && h < NUM && q.i1 < NUM && q.i2 < NUM
    && s.desc[h] == Desc(Header(h), 16, F_NEXT, q.i1)
    && s.desc[q.i1] == Desc(Data(q.buf), BSIZE, if q.write then F_NEXT else F_NEXT + F_WRITE, q.i2)
    && s.desc[q.i2] == Desc(Status(h), 1, F_WRITE, 0)
    && s.ops[h] == Op(q.write, Sector(q.block))
    && s.info[h] == Info(Some(q.buf), if q.stage.Prepared? || q.stage.Submitted? || q.stage.Fetched? then 0xff else 0)
  }

  ghost predicate FormatInv(s: State) {
    Sized(s) && forall h :: h in s.flight ==> Formatted(s, h)
  }

  /** A device that follows the descriptors performs the request itself. */
  lemma DecodesToRequest(s: State, h: nat)
    requires Sized(s) && FormatInv(s) && h in s.flight
    ensures var q := s.flight[h]; Decode(s, h) == Some(Command(q.write, Sector(q.block), q.buf, h))
  {
    assert Formatted(s, h);
  }

  // ----- buffers and disk

  ghost predicate Moving(s: State, h: nat)
    requires h in s.flight
  {
    var q := s.flight[h];
    && q.buf in s.data && q.buf in s.busy && q.block < |s.disk| && BlockAt(q.block) < |s.disk|
    && (s.busy[q.buf] <==> !q.stage.Acknowledged?)
    && (q.write ==> s.data[q.buf] == q.want)
    && (!s.aliased ==> Moved(s.data[q.buf], s.disk[BlockAt(q.block)], q))
  }

  /** A read leaves its source alone until it is done; then both sides agree. */
  ghost predicate Moved(data: Block, disk: Block, q: Request) {
    && (!q.write ==> disk == q.want)
    && (q.stage.Performed? || q.stage.Reported? || q.stage.Acknowledged? ==> data == q.want && disk == q.want)
  }

  ghost predicate DataInv(s: State) {
    && (forall h :: h in s.flight ==> Moving(s, h))
    && (forall g, h :: g in s.flight && h in s.flight && g != h ==>
          && s.flight[g].buf != s.flight[h].buf
          && (!s.aliased ==> BlockAt(s.flight[g].block) != BlockAt(s.flight[h].block)))
  }

  // ----- queues and counters

  ghost predicate Distinct(q: seq<nat>) { forall i, j :: 0 <= i < j < |q| ==> q[i] != q[j] }

  ghost predicate At(s: State, h: nat, g: Stage) { h in s.flight && s.flight[h].stage == g }

  /** Each request is in the place its stage says. */
  ghost predicate StageInv(s: State) {
    && Distinct(s.sent) && Distinct(s.used)
    && (forall h: nat :: h in s.sent <==> At(s, h, Submitted))
    && (forall h: nat :: h in s.pending <==> At(s, h, Fetched))
    && (forall h: nat :: s.writing == Some(h) <==> At(s, h, Performed))
    && (forall h: nat :: h in s.used <==> At(s, h, Reported))
    && (forall h: nat :: s.lock == Submitting(h) <==> At(s, h, Prepared))
  }

  /** The indices are the counters modulo 2^16, and the counters differ by the
      requests on their way. */
  ghost predicate CountInv(s: State) {
    && s.availIdx == s.submitted % WRAP && s.fetchIdx == s.fetched % WRAP
    && s.usedIdx == s.performed % WRAP && s.seenIdx == s.acked % WRAP
    && s.submitted == s.fetched + |s.sent|
    && s.fetched == s.performed + |s.pending| + (if s.writing.Some? then 1 else 0)
    && s.performed == s.acked + |s.used|
  }

  /** The rings hold the queues. */
  ghost predicate RingInv(s: State) {
    && Sized(s)
    && (forall k :: 0 <= k < |s.sent| ==> s.availRing[(s.fetched + k) % NUM] == s.sent[k])
    && (s.lock.Submitting? ==> s.availRing[s.submitted % NUM] == s.lock.head)
    && (forall k :: 0 <= k < |s.used| ==> s.usedRing[(s.acked + k) % NUM] == s.used[k])
    && (s.writing.Some? ==> s.usedRing[s.performed % NUM] == s.writing.value)
  }

  ghost predicate Inv(s: State) {
    OwnInv(s) && FormatInv(s) && DataInv(s) && StageInv(s) && CountInv(s) && RingInv(s)
  }

  lemma {:induction false} DistinctSize(q: seq<nat>, elems: set<nat>)
    requires Distinct(q) && forall h :: h in q <==> h in elems
    ensures |elems| == |q|
  {
    if q == [] {
      assert elems == {};
    } else {
      assert q[0] in elems;
      forall h ensures h in q[1..] <==> h in elems - {q[0]} {}
      DistinctSize(q[1..], elems - {q[0]});
    }
  }

  lemma SubsetSize(a: set<nat>, b: set<nat>)
    requires a <= b
    ensures |a| <= |b|
  {
    assert b == a + (b - a);
  }

  ghost function Tagged(s: State, g: Stage): set<nat> {
    set h | h in s.flight && s.flight[h].stage == g
  }

  lemma TagsApart(s: State, g: Stage, t: Stage)
    requires g != t
    ensures Tagged(s, g) !! Tagged(s, t)
    ensures Tagged(s, g) <= s.flight.Keys && Tagged(s, t) <= s.flight.Keys
  {
  }

  lemma TaggedSum(s: State)
    ensures |Tagged(s, Prepared)| + |Tagged(s, Submitted)| + |Tagged(s, Fetched)|
          + |Tagged(s, Performed)| + |Tagged(s, Reported)| <= |s.flight|
  {
    hide Tagged;
    var p, u, f, d, r := Tagged(s, Prepared), Tagged(s, Submitted), Tagged(s, Fetched), Tagged(s, Performed),
      Tagged(s, Reported);
    TagsApart(s, Prepared, Submitted);
    TagsApart(s, Prepared, Fetched);
    TagsApart(s, Prepared, Performed);
    TagsApart(s, Prepared, Reported);
    TagsApart(s, Submitted, Fetched);
    TagsApart(s, Submitted, Performed);
    TagsApart(s, Submitted, Reported);
    TagsApart(s, Fetched, Performed);
    TagsApart(s, Fetched, Reported);
    TagsApart(s, Performed, Reported);
    assert |p + u| == |p| + |u|;
    assert |p + u + f| == |p + u| + |f|;
    assert |p + u + f + d| == |p + u + f| + |d|;
    assert |p + u + f + d + r| == |p + u + f + d| + |r|;
    SubsetSize(p + u + f + d + r, s.flight.Keys);
    assert |s.flight| == |s.flight.Keys|;
  }

  lemma QueueSizes(s: State)
    requires StageInv(s)
    ensures |Tagged(s, Submitted)| == |s.sent| && |Tagged(s, Reported)| == |s.used| && Tagged(s, Fetched) == s.pending
  {
    forall h: nat ensures h in s.sent <==> h in Tagged(s, Submitted) { assert h in s.sent <==> At(s, h, Submitted); }
    DistinctSize(s.sent, Tagged(s, Submitted));
    forall h: nat ensures h in s.used <==> h in Tagged(s, Reported) { assert h in s.used <==> At(s, h, Reported); }
    DistinctSize(s.used, Tagged(s, Reported));
    forall h: nat ensures h in s.pending <==> h in Tagged(s, Fetched) { assert h in s.pending <==> At(s, h, Fetched); }
  }

  lemma SingleSizes(s: State)
    requires StageInv(s)
    ensures s.writing.Some? ==> |Tagged(s, Performed)| == 1
    ensures s.lock.Submitting? ==> |Tagged(s, Prepared)| == 1
  {
    if s.writing.Some? {
      forall h: nat ensures h in Tagged(s, Performed) <==>
        h == s.writing.value { assert s.writing == Some(h) <==> At(s, h, Performed); }
      assert Tagged(s, Performed) == {s.writing.value};
    }
    if s.lock.Submitting? {
      forall h: nat ensures h in Tagged(s, Prepared) <==>
        h == s.lock.head { assert s.lock == Submitting(h) <==> At(s, h, Prepared); }
      assert Tagged(s, Prepared) == {s.lock.head};
    }
  }

  /** Published requests that the interrupt handler has not seen: at most two. */
  lemma InTransit(s: State)
    requires OwnInv(s) && StageInv(s)
    ensures |s.sent| + |s.pending| + |s.used| + (if s.writing.Some? then 1 else 0) + (if s.lock.Submitting? then 1
      else 0) <= |s.flight| <= 2
  {
    hide OwnInv, StageInv, Tagged;
    FlightBound(s);
    TaggedSum(s);
    QueueSizes(s);
    SingleSizes(s);
  }

  // ----- arithmetic of the rings

  lemma WrapRing(c: nat)
    ensures c % WRAP % NUM == c % NUM
  {
    var q, r := c / WRAP, c % WRAP;
    var u, t := r / NUM, r % NUM;
    assert c == NUM * (8192 * q + u) + t;
    ModOf(8192 * q + u, t);
  }

  lemma ModOf(q: nat, t: nat)
    requires t < NUM
    ensures (NUM * q + t) % NUM == t
  {
  }

  lemma WrapNext(c: nat)
    ensures (c % WRAP + 1) % WRAP == (c + 1) % WRAP
  {
  }

  /** Two positions less than NUM apart are different ring slots. */
  lemma SlotsDiffer(c: nat, d: nat)
    requires 0 < d < NUM
    ensures (c + d) % NUM != c % NUM
  {
  }

  /** Indices a few steps apart, modulo 2^16, are equal only if the counters are. */
  lemma IndexDiffer(c: nat, d: nat)
    requires d <= 2
    ensures (c + d) % WRAP == c % WRAP <==> d == 0
    ensures (c + d) % WRAP == c % WRAP + d || (c + d) % WRAP == c % WRAP + d - WRAP
  {
  }

  /** Writing the slot after the queue disturbs no queued entry. */
  lemma RingAppend(ring: seq<nat>, first: nat, q: seq<nat>, h: nat)
    requires |ring| == NUM && |q| < NUM
    requires forall k :: 0 <= k < |q| ==> ring[(first + k) % NUM] == q[k]
    ensures var ring' := ring[(first + |q|) % NUM := h];
      ring'[(first + |q|) % NUM] == h && forall k :: 0 <= k < |q| ==> ring'[(first + k) % NUM] == q[k]
  {
    var ring' := ring[(first + |q|) % NUM := h];
    forall k | 0 <= k < |q| ensures ring'[(first + k) % NUM] == q[k] {
      SlotsDiffer(first + k, |q| - k);
    }
  }

  // ----- Prepare

  lemma FreeNotInChain(s: State, i: nat, h: nat)
    requires OwnInv(s) && i < NUM && s.free[i] && h in s.flight
    ensures i != h && i != s.flight[h].i1 && i != s.flight[h].i2
  {
    assert Chained(s.own, s.flight, h);
  }

  lemma FreeNotHead(s: State, i: nat)
    requires OwnInv(s) && i < NUM && s.free[i]
    ensures i !in s.flight
  {
    forall h | h in s.flight ensures h != i { assert Chained(s.own, s.flight, h); }
  }

  lemma MapAdd<V>(m: map<nat, V>, k: nat, v: V)
    requires k !in m
    ensures |m[k := v]| == |m| + 1
  {
    assert m[k := v].Keys == m.Keys + {k};
    assert |m[k := v]| == |m[k := v].Keys| && |m| == |m.Keys|;
  }

  lemma MapDrop<V>(m: map<nat, V>, k: nat)
    requires k in m
    ensures |m - {k}| == |m| - 1
  {
    assert (m - {k}).Keys + {k} == m.Keys;
    assert |m - {k}| == |(m - {k}).Keys| && |m| == |m.Keys|;
  }

  lemma PrepareSizes(own: map<nat, nat>, flight: map<nat, Request>, i0: nat, i1: nat, i2: nat, q: Request)
    requires i0 !in own && i1 !in own && i2 !in own && i0 != i1 && i0 != i2 && i1 != i2 && i0 !in flight
    ensures |own[i0 := i0][i1 := i0][i2 := i0]| == |own| + 3 && |flight[i0 := q]| == |flight| + 1
  {
    MapAdd(own, i0, i0);
    MapAdd(own[i0 := i0], i1, i0);
    MapAdd(own[i0 := i0][i1 := i0], i2, i0);
    MapAdd(flight, i0, q);
  }

  lemma TakeFree(free: seq<bool>, own: map<nat, nat>, flight: map<nat, Request>, i0: nat, i1: nat, i2: nat)
    requires Partition(free, own, flight) && i0 < NUM && i1 < NUM && i2 < NUM && free[i0] && free[i1] && free[i2]
    ensures |free| == NUM && |own| == 3 * |flight| && i0 !in own && i1 !in own && i2 !in own
    ensures forall i: nat :: i < NUM ==>
      (SetThree(free, i0, i1, i2, false)[i] <==> i !in own[i0 := i0][i1 := i0][i2 := i0])
  {
    hide Chained, InChain;
  }

  /** Taking three free descriptors for a new chain. */
  lemma TakeThree(free: seq<bool>, own: map<nat, nat>, flight: map<nat, Request>, i0: nat, i1: nat, i2: nat, q: Request)
    requires Partition(free, own, flight) && i0 < NUM && i1 < NUM && i2 < NUM && i0 != i1 && i0 != i2 && i1 != i2
    requires free[i0] && free[i1] && free[i2] && i0 !in flight && q.i1 == i1 && q.i2 == i2
    ensures Partition(SetThree(free, i0, i1, i2, false), own[i0 := i0][i1 := i0][i2 := i0], flight[i0 := q])
  {
    hide Partition, Chained, InChain, SetThree;
    var own', flight' := own[i0 := i0][i1 := i0][i2 := i0], flight[i0 := q];
    TakeFree(free, own, flight, i0, i1, i2);
    PrepareSizes(own, flight, i0, i1, i2, q);
    forall h | h in flight' ensures Chained(own', flight', h) { TakeChained(free, own, flight, i0, i1, i2, q, h); }
    forall i | i in own' ensures i < NUM && own'[i] in flight' && InChain(flight', own'[i], i) {
      TakeInChain(free, own, flight, i0, i1, i2, q, i);
    }
    MakePartition(SetThree(free, i0, i1, i2, false), own', flight');
  }

  lemma TakeChained(free: seq<bool>, own: map<nat, nat>, flight: map<nat, Request>, i0: nat, i1: nat, i2: nat,
      q: Request, h: nat)
    requires Partition(free, own, flight) && i0 < NUM && i1 < NUM && i2 < NUM && i0 != i1 && i0 != i2 && i1 != i2
    requires i0 !in own && i1 !in own && i2 !in own && i0 !in flight && q.i1 == i1 && q.i2 == i2 && h in flight[i0 := q]
    ensures Chained(own[i0 := i0][i1 := i0][i2 := i0], flight[i0 := q], h)
  {
    if h != i0 { ChainOf(free, own, flight, h); }
  }

  lemma TakeInChain(free: seq<bool>, own: map<nat, nat>, flight: map<nat, Request>, i0: nat, i1: nat, i2: nat,
      q: Request, i: nat)
    requires Partition(free, own, flight) && i0 < NUM && i1 < NUM && i2 < NUM
    requires i0 !in flight && q.i1 == i1 && q.i2 == i2 && i in own[i0 := i0][i1 := i0][i2 := i0]
    ensures var own', flight' := own[i0 := i0][i1 := i0][i2 := i0], flight[i0 := q];
      i < NUM && own'[i] in flight' && InChain(flight', own'[i], i)
  {
    if i in own { assert InChain(flight, own[i], i); }
  }

  lemma PrepareOwn(s: State, s': State, i0: nat, i1: nat, i2: nat, b: BufId, write: bool, block: nat)
    requires OwnInv(s) && PrepareStep(s, s', i0, i1, i2, b, write, block)
    ensures OwnInv(s')
  {
    hide Partition, ChainDescs, SetThree;
    FreeNotHead(s, i0);
    TakeThree(s.free, s.own, s.flight, i0, i1, i2, s'.flight[i0]);
  }

  lemma ChainDescsFrame(desc: seq<Desc>, i0: nat, i1: nat, i2: nat, b: BufId, write: bool, i: nat)
    requires i0 < |desc| && i1 < |desc| && i2 < |desc| && i < |desc| && i != i0 && i != i1 && i != i2
    ensures ChainDescs(desc, i0, i1, i2, b, write)[i] == desc[i]
  {
  }

  lemma PrepareFormatOld(s: State, s': State, i0: nat, i1: nat, i2: nat, b: BufId, write: bool, block: nat, h: nat)
    requires OwnInv(s) && Sized(s') && h in s.flight && Formatted(s, h)
      && PrepareStep(s, s', i0, i1, i2, b, write, block) && h != i0
    ensures Formatted(s', h)
  {
    hide Partition, ChainDescs, SetThree;
    var q := s.flight[h];
    FreeNotInChain(s, i0, h);
    FreeNotInChain(s, i1, h);
    FreeNotInChain(s, i2, h);
    ChainDescsFrame(s.desc, i0, i1, i2, b, write, h);
    ChainDescsFrame(s.desc, i0, i1, i2, b, write, q.i1);
    ChainDescsFrame(s.desc, i0, i1, i2, b, write, q.i2);
  }

  lemma PrepareFormat(s: State, s': State, i0: nat, i1: nat, i2: nat, b: BufId, write: bool, block: nat)
    requires OwnInv(s) && FormatInv(s) && PrepareStep(s, s', i0, i1, i2, b, write, block)
    ensures FormatInv(s')
  {
    hide Partition;
    assert Formatted(s', i0);
    hide ChainDescs, SetThree;
    forall h | h in s'.flight ensures Formatted(s', h) {
      if h != i0 { PrepareFormatOld(s, s', i0, i1, i2, b, write, block, h); }
    }
  }

  lemma PrepareData(s: State, s': State, i0: nat, i1: nat, i2: nat, b: BufId, write: bool, block: nat)
    requires DataInv(s) && i0 !in s.flight && PrepareStep(s, s', i0, i1, i2, b, write, block)
    ensures DataInv(s')
  {
    hide ChainDescs, SetThree, BlockAt;
    forall h | h in s'.flight ensures Moving(s', h) {
      if h != i0 { assert Moving(s, h); }
    }
    forall g, h | g in s'.flight && h in s'.flight && g != h
      ensures s'.flight[g].buf != s'.flight[h].buf
      ensures !s'.aliased ==> BlockAt(s'.flight[g].block) != BlockAt(s'.flight[h].block)
    {
    }
  }

  lemma PrepareStage(s: State, s': State, i0: nat, i1: nat, i2: nat, b: BufId, write: bool, block: nat)
    requires StageInv(s) && i0 !in s.flight && PrepareStep(s, s', i0, i1, i2, b, write, block)
    ensures StageInv(s')
  {
    hide ChainDescs, SetThree;
    forall h: nat, g: Stage ensures At(s', h, g) <==> At(s, h, g) || (h == i0 && g == Prepared) {}
    forall g: Stage ensures !At(s, i0, g) {}
  }

  /** What the ring and the counters see of a prepared request. */
  lemma PrepareFrame(s: State, s': State, i0: nat, i1: nat, i2: nat, b: BufId, write: bool, block: nat)
    requires PrepareStep(s, s', i0, i1, i2, b, write, block)
    ensures |s.availRing| == NUM && s'.availRing == s.availRing[s.availIdx % NUM := i0] && s'.usedRing == s.usedRing
    ensures s'.availIdx == s.availIdx && s'.usedIdx == s.usedIdx && s'.seenIdx == s.seenIdx && s'.fetchIdx == s.fetchIdx
    ensures s'.sent == s.sent && s'.used == s.used && s'.writing == s.writing && s'.lock == Submitting(i0)
      && s.lock == Nobody
    ensures s'.submitted == s.submitted && s'.fetched == s.fetched && s'.performed == s.performed && s'.acked == s.acked
    ensures s'.pending == s.pending && Sized(s')
  {
    hide ChainDescs, SetThree, BlockAt, Sector;
  }

  lemma PrepareRing(s: State, s': State, i0: nat, i1: nat, i2: nat, b: BufId, write: bool, block: nat)
    requires OwnInv(s) && StageInv(s) && CountInv(s) && RingInv(s) && PrepareStep(s, s', i0, i1, i2, b, write, block)
    ensures RingInv(s') && CountInv(s')
  {
    hide Partition, StageInv, PrepareStep;
    PrepareFrame(s, s', i0, i1, i2, b, write, block);
    InTransit(s);
    WrapRing(s.submitted);
    RingAppend(s.availRing, s.fetched, s.sent, i0);
  }

  lemma PrepareKeeps(s: State, s': State, i0: nat, i1: nat, i2: nat, b: BufId, write: bool, block: nat)
    requires Inv(s) && PrepareStep(s, s', i0, i1, i2, b, write, block)
    ensures Inv(s')
  {
    assert i0 !in s.flight by { FreeNotHead(s, i0); }
    hide PrepareStep, Partition, FormatInv, DataInv, StageInv, CountInv, RingInv;
    PrepareOwn(s, s', i0, i1, i2, b, write, block);
    PrepareFormat(s, s', i0, i1, i2, b, write, block);
    PrepareData(s, s', i0, i1, i2, b, write, block);
    PrepareStage(s, s', i0, i1, i2, b, write, block);
    PrepareRing(s, s', i0, i1, i2, b, write, block);
  }

  // ----- a request moves to its next stage

  function Restage(flight: map<nat, Request>, h: nat, g: Stage): map<nat, Request>
    requires h in flight
  {
    flight[h := flight[h].(stage := g)]
  }

  lemma RestagePartition(free: seq<bool>, own: map<nat, nat>, flight: map<nat, Request>, h: nat, g: Stage)
    requires Partition(free, own, flight) && h in flight
    ensures Partition(free, own, Restage(flight, h, g))
  {
    var flight' := Restage(flight, h, g);
    assert flight'.Keys == flight.Keys;
    assert |flight'| == |flight'.Keys| && |flight| == |flight.Keys|;
    forall x | x in flight' ensures Chained(own, flight', x) { assert Chained(own, flight, x); }
    forall i | i in own ensures InChain(flight', own[i], i) { assert InChain(flight, own[i], i); }
  }

  lemma RestageAt(s: State, s': State, h: nat, g: Stage)
    requires h in s.flight && s'.flight == Restage(s.flight, h, g)
    ensures forall x: nat, t: Stage {:trigger At(s', x, t)} {:trigger At(s, x, t)} ::
      At(s', x, t) <==> if x == h then t == g else At(s, x, t)
  {
  }

  predicate Early(g: Stage) { g.Prepared? || g.Submitted? || g.Fetched? }

  /** Stages on the same side of the transfer ask the same of memory. */
  lemma RestageFormat(s: State, s': State, h: nat, g: Stage)
    requires Sized(s) && Sized(s') && FormatInv(s) && h in s.flight && s'.flight == Restage(s.flight, h, g)
    requires s'.desc == s.desc && s'.ops == s.ops && s'.info == s.info
    requires Early(g) == Early(s.flight[h].stage)
    ensures FormatInv(s')
  {
    forall x | x in s'.flight ensures Formatted(s', x) { assert Formatted(s, x); }
  }

  lemma RestageData(s: State, s': State, h: nat, g: Stage)
    requires DataInv(s) && h in s.flight && s'.flight == Restage(s.flight, h, g)
    requires s'.data == s.data && s'.busy == s.busy && s'.disk == s.disk && s'.aliased == s.aliased
    requires Early(g) == Early(s.flight[h].stage) && !g.Acknowledged? && !s.flight[h].stage.Acknowledged?
    ensures DataInv(s')
  {
    hide BlockAt;
    forall x | x in s'.flight ensures Moving(s', x) { assert Moving(s, x); }
  }

  lemma PublishStage(s: State, s': State)
    requires StageInv(s) && PublishStep(s, s')
    ensures StageInv(s')
  {
    var h := s.lock.head;
    assert At(s, h, Prepared);
    RestageAt(s, s', h, Submitted);
    forall x: nat ensures x in s'.sent <==> At(s', x, Submitted) {
      assert x in s.sent <==> At(s, x, Submitted);
    }
    assert h !in s.sent by { assert h in s.sent <==> At(s, h, Submitted); }
  }

  lemma PublishRing(s: State, s': State)
    requires Sized(s) && CountInv(s) && RingInv(s) && PublishStep(s, s')
    ensures Sized(s') && CountInv(s') && RingInv(s')
  {
    WrapNext(s.submitted);
  }

  lemma PublishKeeps(s: State, s': State)
    requires Inv(s) && PublishStep(s, s')
    ensures Inv(s')
  {
    var h := s.lock.head;
    assert At(s, h, Prepared);
    PublishStage(s, s');
    PublishRing(s, s');
    hide StageInv, CountInv, RingInv, FormatInv, DataInv, Partition;
    RestagePartition(s.free, s.own, s.flight, h, Submitted);
    RestageFormat(s, s', h, Submitted);
    RestageData(s, s', h, Submitted);
  }

  /** The device's ring entry is the oldest request not yet fetched. */
  lemma FetchesOldest(s: State)
    requires OwnInv(s) && StageInv(s) && CountInv(s) && RingInv(s) && s.fetchIdx != s.availIdx
    ensures s.sent != [] && s.availRing[s.fetchIdx % NUM] == s.sent[0] && At(s, s.sent[0], Submitted)
  {
    WrapRing(s.fetched);
    if s.sent != [] {
      assert s.sent[0] in s.sent;
      assert s.availRing[(s.fetched + 0) % NUM] == s.sent[0];
    }
  }

  lemma FetchStage(s: State, s': State)
    requires StageInv(s) && FetchStep(s, s') && s.sent != [] && s.availRing[s.fetchIdx % NUM] == s.sent[0]
    requires At(s, s.sent[0], Submitted)
    ensures StageInv(s')
  {
    var h := s.sent[0];
    RestageAt(s, s', h, Fetched);
    forall x: nat ensures x in s'.sent <==> At(s', x, Submitted) {
      assert x in s.sent <==> At(s, x, Submitted);
      assert x in s.sent <==> x == h || x in s.sent[1..];
    }
    forall x: nat ensures x in s'.pending <==> At(s', x, Fetched) {
      assert x in s.pending <==> At(s, x, Fetched);
    }
  }

  lemma FetchRing(s: State, s': State)
    requires Sized(s) && CountInv(s) && RingInv(s) && FetchStep(s, s') && s.sent != []
    requires s.availRing[s.fetchIdx % NUM] == s.sent[0] && s.sent[0] !in s.pending
    ensures Sized(s') && CountInv(s') && RingInv(s')
  {
    WrapNext(s.fetched);
    forall k | 0 <= k < |s'.sent| ensures s'.availRing[(s'.fetched + k) % NUM] == s'.sent[k] {
      assert s.availRing[(s.fetched + (k + 1)) % NUM] == s.sent[k+1];
    }
  }

  lemma FetchKeeps(s: State, s': State)
    requires Inv(s) && FetchStep(s, s')
    ensures Inv(s')
  {
    FetchesOldest(s);
    var h := s.sent[0];
    FetchStage(s, s');
    assert h !in s.pending by { assert h in s.pending <==> At(s, h, Fetched); }
    FetchRing(s, s');
    hide StageInv, CountInv, RingInv, FormatInv, DataInv, Partition;
    RestagePartition(s.free, s.own, s.flight, h, Fetched);
    RestageFormat(s, s', h, Fetched);
    RestageData(s, s', h, Fetched);
  }

  // ----- the device performs a request

  lemma PerformFormat(s: State, s': State, h: nat)
    requires Sized(s) && FormatInv(s) && h in s.flight && PerformStep(s, s', h)
    ensures Sized(s') && FormatInv(s')
  {
    hide Decode;
    DecodesToRequest(s, h);
    forall x | x in s'.flight ensures Formatted(s', x) { assert Formatted(s, x); }
  }

  lemma PerformOther(s: State, s': State, h: nat, x: nat)
    requires DataInv(s) && h in s.flight && x in s.flight && x != h && PerformStep(s, s', h)
    requires var q := s.flight[h]; Decode(s, h) == Some(Command(q.write, Sector(q.block), q.buf, h))
    ensures x in s'.flight && Moving(s', x)
  {
    hide Decode, Sector;
    assert Moving(s, x);
  }

  lemma PerformSelf(s: State, s': State, h: nat)
    requires DataInv(s) && At(s, h, Fetched) && PerformStep(s, s', h)
    requires var q := s.flight[h]; Decode(s, h) == Some(Command(q.write, Sector(q.block), q.buf, h))
    ensures h in s'.flight && Moving(s', h)
  {
    hide Decode, Sector;
    assert Moving(s, h);
  }

  /** The transfer moves the block the request wants, and no other. */
  lemma PerformData(s: State, s': State, h: nat)
    requires Sized(s) && FormatInv(s) && DataInv(s) && At(s, h, Fetched) && PerformStep(s, s', h)
    ensures DataInv(s')
  {
    hide FormatInv, Decode, Moving, BlockAt;
    DecodesToRequest(s, h);
    forall x | x in s'.flight ensures Moving(s', x) {
      if x == h { PerformSelf(s, s', h); } else { PerformOther(s, s', h, x); }
    }
  }

  lemma PerformStage(s: State, s': State, h: nat)
    requires StageInv(s) && At(s, h, Fetched) && PerformStep(s, s', h)
    ensures StageInv(s')
  {
    hide Decode;
    RestageAt(s, s', h, Performed);
    forall x: nat ensures x in s'.pending <==> At(s', x, Fetched) {
      assert x in s.pending <==> At(s, x, Fetched);
    }
    forall x: nat ensures s'.writing == Some(x) <==> At(s', x, Performed) {
      assert s.writing == Some(x) <==> At(s, x, Performed);
    }
  }

  lemma PerformRing(s: State, s': State, h: nat)
    requires OwnInv(s) && StageInv(s) && CountInv(s) && RingInv(s) && h in s.flight && PerformStep(s, s', h)
    ensures CountInv(s') && Sized(s') && RingInv(s')
  {
    hide Decode, Partition, StageInv;
    InTransit(s);
    WrapRing(s.performed);
    RingAppend(s.usedRing, s.acked, s.used, h);
  }

  lemma PerformKeeps(s: State, s': State, h: nat)
    requires Inv(s) && PerformStep(s, s', h)
    ensures Inv(s')
  {
    assert At(s, h, Fetched);
    hide Decode;
    PerformFormat(s, s', h);
    PerformData(s, s', h);
    PerformStage(s, s', h);
    PerformRing(s, s', h);
    hide StageInv, CountInv, RingInv, FormatInv, DataInv, Partition;
    RestagePartition(s.free, s.own, s.flight, h, Performed);
  }

  lemma ReportStage(s: State, s': State)
    requires StageInv(s) && ReportStep(s, s')
    ensures StageInv(s') && At(s, s.writing.value, Performed)
  {
    var h := s.writing.value;
    assert At(s, h, Performed);
    RestageAt(s, s', h, Reported);
    forall x: nat ensures x in s'.used <==> At(s', x, Reported) {
      assert x in s.used <==> At(s, x, Reported);
    }
    assert h !in s.used by { assert h in s.used <==> At(s, h, Reported); }
  }

  lemma ReportRing(s: State, s': State)
    requires Sized(s) && CountInv(s) && RingInv(s) && ReportStep(s, s')
    ensures Sized(s') && CountInv(s') && RingInv(s')
  {
    WrapNext(s.performed);
  }

  lemma ReportKeeps(s: State, s': State)
    requires Inv(s) && ReportStep(s, s')
    ensures Inv(s')
  {
    hide StageInv, CountInv, RingInv, FormatInv, DataInv, Partition;
    var h := s.writing.value;
    ReportStage(s, s');
    ReportRing(s, s');
    RestagePartition(s.free, s.own, s.flight, h, Reported);
    RestageFormat(s, s', h, Reported);
    RestageData(s, s', h, Reported);
  }

  // ----- the interrupt handler

  /** The entry the handler looks at is the oldest report: its status is 0 and
      its buffer is the one that was submitted. */
  lemma SeesOldest(s: State)
    requires Inv(s) && s.seenIdx != s.usedIdx
    ensures s.used != [] && s.usedRing[s.seenIdx % NUM] == s.used[0] && At(s, s.used[0], Reported)
    ensures s.used[0] < NUM && s.info[s.used[0]] == Info(Some(s.flight[s.used[0]].buf), 0)
  {
    hide OwnInv, DataInv;
    WrapRing(s.acked);
    if s.used != [] {
      assert s.used[0] in s.used;
      assert At(s, s.used[0], Reported);
      assert s.usedRing[(s.acked + 0) % NUM] == s.used[0];
      assert Formatted(s, s.used[0]);
    }
  }

  lemma IntrOneStage(s: State, s': State)
    requires StageInv(s) && IntrOneStep(s, s') && s.used != [] && s.usedRing[s.seenIdx % NUM] == s.used[0]
    requires At(s, s.used[0], Reported)
    ensures StageInv(s')
  {
    var h := s.used[0];
    RestageAt(s, s', h, Acknowledged);
    forall x: nat ensures x in s'.used <==> At(s', x, Reported) {
      assert x in s.used <==> At(s, x, Reported);
      assert x in s.used <==> x == h || x in s.used[1..];
    }
  }

  lemma IntrOneRing(s: State, s': State)
    requires Sized(s) && CountInv(s) && RingInv(s) && IntrOneStep(s, s') && s.used != []
    requires s.usedRing[s.seenIdx % NUM] == s.used[0]
    ensures Sized(s') && CountInv(s') && RingInv(s')
  {
    WrapNext(s.acked);
    forall k | 0 <= k < |s'.used| ensures s'.usedRing[(s'.acked + k) % NUM] == s'.used[k] {
      assert s.usedRing[(s.acked + (k + 1)) % NUM] == s.used[k+1];
    }
  }

  lemma IntrOneData(s: State, s': State, h: nat)
    requires DataInv(s) && At(s, h, Reported) && s'.flight == Restage(s.flight, h, Acknowledged)
    requires s'.data == s.data && s'.disk == s.disk && s'.aliased == s.aliased
      && s'.busy == s.busy[s.flight[h].buf := false]
    ensures DataInv(s')
  {
    hide BlockAt;
    forall x | x in s'.flight ensures Moving(s', x) { assert Moving(s, x); }
  }

  lemma AtMeans(s: State, h: nat, g: Stage)
    ensures At(s, h, g) <==> h in s.flight && s.flight[h].stage == g
  {
  }

  lemma IntrOneKeeps(s: State, s': State)
    requires Inv(s) && IntrOneStep(s, s')
    ensures Inv(s')
  {
    hide StageInv, CountInv, RingInv, FormatInv, DataInv, Partition, At;
    SeesOldest(s);
    var h := s.used[0];
    assert h in s.flight && s.flight[h].stage == Reported by { AtMeans(s, h, Reported); }
    IntrOneStage(s, s');
    IntrOneRing(s, s');
    RestagePartition(s.free, s.own, s.flight, h, Acknowledged);
    RestageFormat(s, s', h, Acknowledged);
    IntrOneData(s, s', h);
  }

  /** Nothing a request depends on changes. */
  lemma QuietFormat(s: State, s': State)
    requires FormatInv(s) && Sized(s') && s'.flight == s.flight && s'.desc == s.desc && s'.ops == s.ops
      && s'.info == s.info
    ensures FormatInv(s')
  {
    forall x | x in s'.flight ensures Formatted(s', x) { assert Formatted(s, x); }
  }

  lemma QuietData(s: State, s': State)
    requires DataInv(s) && s'.flight == s.flight && s'.busy == s.busy && s'.disk == s.disk && s'.aliased == s.aliased
    requires s'.data.Keys == s.data.Keys && forall h :: h in s.flight && s.flight[h].buf in s.data ==>
      s'.data[s.flight[h].buf] == s.data[s.flight[h].buf]
    ensures DataInv(s')
  {
    hide BlockAt;
    forall x | x in s'.flight ensures Moving(s', x) { assert Moving(s, x); }
  }

  lemma QuietStage(s: State, s': State)
    requires StageInv(s) && s'.flight == s.flight && s'.sent == s.sent && s'.used == s.used
    requires s'.pending == s.pending && s'.writing == s.writing
    requires s'.lock == s.lock || (!s.lock.Submitting? && !s'.lock.Submitting?)
    ensures StageInv(s')
  {
    forall h: nat, g: Stage ensures At(s', h, g) <==> At(s, h, g) {}
  }

  lemma LockKeeps(s: State, s': State)
    requires Inv(s) && (IntrBeginStep(s, s') || IntrEndStep(s, s'))
    ensures Inv(s')
  {
    hide Partition, FormatInv, DataInv, StageInv;
    QuietFormat(s, s');
    QuietData(s, s');
    QuietStage(s, s');
  }

  lemma ModifyKeeps(s: State, s': State, b: BufId, v: Block)
    requires Inv(s) && ModifyStep(s, s', b, v)
    ensures Inv(s')
  {
    hide Partition, FormatInv, DataInv, StageInv;
    QuietFormat(s, s');
    QuietData(s, s');
    QuietStage(s, s');
  }

  // ----- a request finishes

  lemma RemoveSizes(own: map<nat, nat>, flight: map<nat, Request>, h: nat, i1: nat, i2: nat)
    requires h in own && i1 in own && i2 in own && h != i1 && h != i2 && i1 != i2 && h in flight
    ensures |own - {h, i1, i2}| == |own| - 3 && |flight - {h}| == |flight| - 1
  {
    MapDrop(own, h);
    MapDrop(own - {h}, i1);
    MapDrop(own - {h} - {i1}, i2);
    assert own - {h, i1, i2} == own - {h} - {i1} - {i2};
    MapDrop(flight, h);
  }

  /** Chains share no descriptor. */
  lemma ChainsApart(own: map<nat, nat>, flight: map<nat, Request>, h: nat, x: nat, i: nat)
    requires h in flight && x in flight && h != x && Chained(own, flight, h) && Chained(own, flight, x)
    requires InChain(flight, x, i)
    ensures !InChain(flight, h, i)
  {
  }

  lemma ChainOf(free: seq<bool>, own: map<nat, nat>, flight: map<nat, Request>, h: nat)
    requires Partition(free, own, flight) && h in flight
    ensures Chained(own, flight, h)
  {
  }

  lemma OtherChained(own: map<nat, nat>, flight: map<nat, Request>, h: nat, x: nat)
    requires h in flight && x in flight && h != x && Chained(own, flight, h) && Chained(own, flight, x)
    ensures Chained(own - {h, flight[h].i1, flight[h].i2}, flight - {h}, x)
  {
    ChainsApart(own, flight, h, x, x);
    ChainsApart(own, flight, h, x, flight[x].i1);
    ChainsApart(own, flight, h, x, flight[x].i2);
  }

  lemma ReturnOwn(free: seq<bool>, own: map<nat, nat>, flight: map<nat, Request>, h: nat, i: nat)
    requires Partition(free, own, flight) && h in flight && i in own - {h, flight[h].i1, flight[h].i2}
    ensures i < NUM && own[i] in flight - {h} && InChain(flight - {h}, own[i], i)
  {
    assert InChain(flight, own[i], i);
  }

  lemma ReturnFree(free: seq<bool>, own: map<nat, nat>, flight: map<nat, Request>, h: nat, i: nat)
    requires Partition(free, own, flight) && h in flight && i < NUM && Chained(own, flight, h)
    ensures var q := flight[h];
      SetThree(free, h, q.i1, q.i2, true)[i] <==> i !in own - {h, q.i1, q.i2}
  {
  }

  lemma ReturnThree(free: seq<bool>, own: map<nat, nat>, flight: map<nat, Request>, h: nat)
    requires Partition(free, own, flight) && h in flight
    ensures var q := flight[h];
      && h < NUM && q.i1 < NUM && q.i2 < NUM
      && Partition(SetThree(free, h, q.i1, q.i2, true), own - {h, q.i1, q.i2}, flight - {h})
  {
    var q := flight[h];
    ChainOf(free, own, flight, h);
    RemoveSizes(own, flight, h, q.i1, q.i2);
    var free', own', flight' := SetThree(free, h, q.i1, q.i2, true), own - {h, q.i1, q.i2}, flight - {h};
    assert |own'| == 3 * |flight'| && |free'| == NUM;
    assert Partition(free', own', flight') by {
      hide Partition;
      forall x | x in flight' ensures Chained(own', flight', x) {
        ChainOf(free, own, flight, x);
        OtherChained(own, flight, h, x);
      }
      forall i | i in own' ensures i < NUM && own'[i] in flight' && InChain(flight', own'[i], i) {
        ReturnOwn(free, own, flight, h, i);
      }
      forall i: nat | i < NUM ensures free'[i] <==> i !in own' {
        ReturnFree(free, own, flight, h, i);
      }
      MakePartition(free', own', flight');
    }
  }

  lemma MakePartition(free: seq<bool>, own: map<nat, nat>, flight: map<nat, Request>)
    requires |free| == NUM && |own| == 3 * |flight|
    requires forall i: nat :: i < NUM ==> (free[i] <==> i !in own)
    requires forall i :: i in own ==> i < NUM && own[i] in flight && InChain(flight, own[i], i)
    requires forall h :: h in flight ==> Chained(own, flight, h)
    ensures Partition(free, own, flight)
  {
  }

  /** virtio_disk_rw returns: what it was to move has been moved. */
  lemma FinishesDone(s: State, s': State, h: nat)
    requires Inv(s) && FinishStep(s, s', h)
    ensures At(s, h, Acknowledged)
    ensures var q := s.flight[h];
      && q.buf in s.data && BlockAt(q.block) < |s.disk|
      && (!s.aliased ==> s.data[q.buf] == q.want && s.disk[BlockAt(q.block)] == q.want)
  {
    hide Partition, FormatInv, StageInv, CountInv, RingInv;
    assert Moving(s, h);
  }

  lemma FreeDescsFrame(desc: seq<Desc>, i0: nat, i1: nat, i2: nat, i: nat)
    requires i0 < |desc| && i1 < |desc| && i2 < |desc| && i < |desc| && i != i0 && i != i1 && i != i2
    ensures FreeDescs(desc, i0, i1, i2)[i] == desc[i]
  {
  }

  lemma FinishFormat(s: State, s': State, h: nat)
    requires OwnInv(s) && FormatInv(s) && FinishStep(s, s', h)
    ensures Sized(s') && FormatInv(s')
  {
    hide Partition, FreeDescs, SetThree;
    var q := s.flight[h];
    ChainOf(s.free, s.own, s.flight, h);
    forall x | x in s'.flight ensures Formatted(s', x) {
      assert Formatted(s, x);
      ChainOf(s.free, s.own, s.flight, x);
      hide Chained;
      ChainsApart(s.own, s.flight, h, x, x);
      ChainsApart(s.own, s.flight, h, x, s.flight[x].i1);
      ChainsApart(s.own, s.flight, h, x, s.flight[x].i2);
      FreeDescsFrame(s.desc, h, q.i1, q.i2, x);
      FreeDescsFrame(s.desc, h, q.i1, q.i2, s.flight[x].i1);
      FreeDescsFrame(s.desc, h, q.i1, q.i2, s.flight[x].i2);
    }
  }

  lemma FinishStage(s: State, s': State, h: nat)
    requires StageInv(s) && At(s, h, Acknowledged) && FinishStep(s, s', h)
    ensures StageInv(s')
  {
    forall x: nat, g: Stage ensures At(s', x, g) <==> x != h && At(s, x, g) {}
    assert forall g: Stage :: At(s, h, g) ==> g == Acknowledged;
  }

  lemma FinishData(s: State, s': State, h: nat)
    requires DataInv(s) && FinishStep(s, s', h)
    ensures DataInv(s')
  {
    hide BlockAt;
    forall x | x in s'.flight ensures Moving(s', x) { assert Moving(s, x); }
  }

  lemma FinishRing(s: State, s': State, h: nat)
    requires CountInv(s) && Sized(s) && RingInv(s) && FinishStep(s, s', h)
    ensures CountInv(s') && Sized(s') && RingInv(s')
  {
  }

  lemma FinishKeeps(s: State, s': State, h: nat)
    requires Inv(s) && FinishStep(s, s', h)
    ensures Inv(s')
  {
    FinishesDone(s, s', h);
    hide StageInv, CountInv, RingInv, FormatInv, DataInv, Partition;
    ReturnThree(s.free, s.own, s.flight, h);
    FinishFormat(s, s', h);
    FinishStage(s, s', h);
    FinishData(s, s', h);
    FinishRing(s, s', h);
  }
}
