/** The driver's code over its in-memory tables. */
module VirtioCode {
  import opened Basics
  import opened Blocks
  import opened VirtioProtocol
  import opened VirtioSafety
  import VirtioTheorems

  class Disk {
    const desc: array<Desc>
    const ops: array<Op>
    const info: array<Info>
    const avail: array<nat>      // avail->ring
    const usedElems: array<nat>  // used->ring[].id, written by the device
    const free: array<bool>
    var availIdx: nat
    var usedIdx: nat             // used->idx, written by the device
    var seenIdx: nat             // disk.used_idx
    var busy: map<BufId, bool>   // b->disk
    ghost var rest: State        // device, buffer contents and history

    ghost predicate Tables()
      reads this
    {
      && desc.Length == ops.Length == info.Length == avail.Length == usedElems.Length == free.Length == NUM
      && avail != usedElems
    }

    ghost function View(): State
      requires Tables()
      reads this, desc, ops, info, avail, usedElems, free
    {
      rest.(desc := desc[..], ops := ops[..], info := info[..], availRing := avail[..], usedRing := usedElems[..],
            free := free[..], availIdx := availIdx, usedIdx := usedIdx, seenIdx := seenIdx, busy := busy)
    }

    /** The protocol invariant, and free descriptors are zeroed. */
    ghost predicate Valid()
      reads this, desc, ops, info, avail, usedElems, free
    {
      Tables() && Inv(View()) && Zeroed(free[..], desc[..])
    }

    /** virtio_disk_init: zeroed pages and every descriptor free; the buffers and
        the blocks of the disk are what they are. */
    constructor (busy0: map<BufId, bool>, ghost data: map<BufId, Block>, ghost blocks: seq<Block>)
      requires busy0.Keys == data.Keys
      ensures Valid() && Init(View()) && rest.data == data && rest.disk == blocks && busy == busy0
      ensures fresh(desc) && fresh(ops) && fresh(info) && fresh(avail) && fresh(usedElems) && fresh(free)
    {
      desc := new Desc[NUM](i => FREE_DESC);
      ops := new Op[NUM](i => Op(false, 0));
      info := new Info[NUM](i => Info(None, 0));
      avail := new nat[NUM](i => 0);
      usedElems := new nat[NUM](i => 0);
      free := new bool[NUM](i => true);
      availIdx, usedIdx, seenIdx, busy := 0, 0, 0, busy0;
      rest := State([], [], [], [], 0, [], 0, [], 0, busy0, data, Nobody, map[], blocks, 0, {}, None, map[], [], [],
        0, 0, 0, 0, false);
      new;
      VirtioTheorems.InitInv(View());
    }

    /** alloc_desc: the first free descriptor, or -1. */
    method AllocDesc() returns (i: int)
      requires Tables()
      modifies free
      ensures i == -1 ==> free[..] == old(free[..]) && forall j :: 0 <= j < NUM ==> !free[j]
      ensures i != -1 ==> 0 <= i < NUM && old(free[i]) && free[..] == old(free[..])[i := false]
      ensures i != -1 ==> forall j :: 0 <= j < i ==> !old(free[j])
    {
      i := 0;
      while i < NUM
        invariant 0 <= i <= NUM && free[..] == old(free[..])
        invariant forall j :: 0 <= j < i ==> !free[j]
      {
        if free[i] {
          free[i] := false;
          return;
        }
        i := i + 1;
      }
      return -1;
    }

    /** free_desc: it panics on an index out of range or a free descriptor. */
    method FreeDesc(i: nat) returns (panic: bool)
      requires Tables()
      modifies free, desc
      ensures panic <==> i >= NUM || old(free[i])
      ensures panic ==> free[..] == old(free[..]) && desc[..] == old(desc[..])
      ensures !panic ==> free[..] == old(free[..])[i := true] && desc[..] == old(desc[..])[i := FREE_DESC]
    {
      if i >= NUM { return true; }
      if free[i] { return true; }
      desc[i] := FREE_DESC;
      free[i] := true;
      return false;
    }

    /** The inner loop of alloc3_desc: give back what was taken. */
    method Undo(idx: seq<nat>)
      requires Tables() && (forall k :: 0 <= k < |idx| ==> idx[k] < NUM && !free[idx[k]] && desc[idx[k]] == FREE_DESC)
      requires forall k, l :: 0 <= k < l < |idx| ==> idx[k] != idx[l]
      modifies free, desc
      ensures desc[..] == old(desc[..])
      ensures forall i: nat :: i < NUM ==> (free[i] <==> old(free[i]) || i in idx)
    {
      var j := 0;
      while j < |idx|
        invariant 0 <= j <= |idx| && desc[..] == old(desc[..])
        invariant forall i: nat :: i < NUM ==> (free[i] <==> old(free[i]) || i in idx[..j])
      {
        assert idx[j] !in idx[..j];
        var panic := FreeDesc(idx[j]);
        assert idx[..j+1] == idx[..j] + [idx[j]];
        j := j + 1;
      }
      assert idx[..j] == idx;
    }

    /** alloc3_desc: three descriptors or none; a partial allocation is undone. */
    method Alloc3() returns (ok: bool, idx: seq<nat>)
      requires Tables() && Zeroed(free[..], desc[..])
      modifies free, desc
      ensures desc[..] == old(desc[..])
      ensures forall i: nat :: i < NUM ==> (free[i] <==> old(free[i]) && (ok ==> i !in idx))
      ensures ok ==> |idx| == 3 && idx[0] != idx[1] && idx[0] != idx[2] && idx[1] != idx[2]
      ensures ok ==> forall k :: 0 <= k < 3 ==> idx[k] < NUM && old(free[idx[k]])
      ensures !ok ==> !exists a, b, c :: 0 <= a < b < c < NUM && free[a] && free[b] && free[c]
    {
      idx := [];
      while |idx| < 3
        invariant |idx| <= 3 && desc[..] == old(desc[..])
        invariant forall k, l :: 0 <= k < l < |idx| ==> idx[k] != idx[l]
        invariant forall k :: 0 <= k < |idx| ==> idx[k] < NUM && old(free[idx[k]])
        invariant forall i: nat :: i < NUM ==> (free[i] <==> old(free[i]) && i !in idx)
      {
        var x := AllocDesc();
        if x < 0 {
          NoneLeft(old(free[..]), idx);
          Undo(idx);
          return false, idx;
        }
        idx := idx + [x];
      }
      return true, idx;
    }

    /** free_chain: follow the NEXT flags, freeing each descriptor. */
    method FreeChain(i0: nat, ghost i1: nat, ghost i2: nat)
      requires Tables() && i0 < NUM && i1 < NUM && i2 < NUM && i0 != i1 && i0 != i2 && i1 != i2
      requires !free[i0] && !free[i1] && !free[i2]
      requires desc[i0].flags % 2 == 1 && desc[i0].next == i1
      requires desc[i1].flags % 2 == 1 && desc[i1].next == i2 && desc[i2].flags % 2 == 0
      modifies free, desc
      ensures free[..] == SetThree(old(free[..]), i0, i1, i2, true)
      ensures desc[..] == FreeDescs(old(desc[..]), i0, i1, i2)
    {
      ghost var f, d := free[..], desc[..];
      var i := i0;
      ghost var k := 0;
      while true
        invariant 0 <= k <= 2 && i == [i0, i1, i2][k]
        invariant k == 0 ==> free[..] == f && desc[..] == d
        invariant k == 1 ==> free[..] == f[i0 := true] && desc[..] == d[i0 := FREE_DESC]
        invariant k == 2 ==> free[..] == f[i0 := true][i1 := true] && desc[..] == d[i0 := FREE_DESC][i1 := FREE_DESC]
        decreases 2 - k
      {
        var flag, nxt := desc[i].flags, desc[i].next;
        assert flag == d[i].flags && nxt == d[i].next;
        var panic := FreeDesc(i);
        if flag % 2 == 1 {
          i := nxt;
          k := k + 1;
        } else {
          return;
        }
      }
    }

    /** The three descriptors: command header, data, status byte. */
    method FormatDescs(b: BufId, write: bool, h: nat, i1: nat, i2: nat)
      requires Tables() && h < NUM && i1 < NUM && i2 < NUM && h != i1 && h != i2 && i1 != i2
      modifies desc
      ensures desc[..] == ChainDescs(old(desc[..]), h, i1, i2, b, write)
    {
      desc[h] := Desc(Header(h), 16, F_NEXT, i1);
      desc[i1] := Desc(Data(b), BSIZE, if write then F_NEXT else F_NEXT + F_WRITE, i2);
      desc[i2] := Desc(Status(h), 1, F_WRITE, 0);
    }

    /** The descriptors, the command and the ring entry are written. */
    method Format(b: BufId, write: bool, block: nat, h: nat, i1: nat, i2: nat, ghost s: State)
      requires Tables() && Inv(s) && s == View().(free := s.free) && s.lock == Nobody && b in s.busy && b in s.data
      requires block < |s.disk| && block < 0x1_0000_0000
      requires forall x :: x in s.flight ==> s.flight[x].buf != b && s.flight[x].block != block
      requires h < NUM && i1 < NUM && i2 < NUM && h != i1 && h != i2 && i1 != i2 && |s.free| == NUM
      requires s.free[h] && s.free[i1] && s.free[i2] && free[..] == SetThree(s.free, h, i1, i2, false)
      requires Zeroed(s.free, s.desc)
      modifies this`busy, this`rest, desc, ops, info, avail
      ensures Valid() && PrepareStep(s, View(), h, i1, i2, b, write, block)
    {
      hide Inv, ChainDescs, SetThree, BlockAt, Zeroed;
      InvSized(s);
      InDisk(block);
      var sector := 2 * block % 0x1_0000_0000;
      ops[h] := Op(write, sector);
      FormatDescs(b, write, h, i1, i2);
      info[h] := Info(Some(b), 0xff);
      busy := busy[b := true];
      avail[availIdx % NUM] := h;
      ghost var q := Request(i1, i2, b, write, block, if write then s.data[b] else s.disk[BlockAt(block)], Prepared);
      rest := rest.(lock := Submitting(h), flight := rest.flight[h := q], own := rest.own[h := h][i1 := h][i2 := h],
                    aliased := s.aliased || exists x :: x in s.flight && BlockAt(s.flight[x].block) == BlockAt(block));
      assert PrepareStep(s, View(), h, i1, i2, b, write, block);
      PrepareKeeps(s, View(), h, i1, i2, b, write, block);
      StillZeroed(s.free, s.desc, h, i1, i2, b, write);
    }

    /** avail->idx += 1 */
    method Notify()
      requires Valid() && rest.lock.Submitting? && rest.lock.head in rest.flight
      modifies this`availIdx, this`rest
      ensures Valid() && PublishStep(old(View()), View())
    {
      hide Inv;
      ghost var s, h := View(), rest.lock.head;
      availIdx := (availIdx + 1) % WRAP;
      rest := rest.(lock := Nobody, flight := rest.flight[h := rest.flight[h].(stage := Submitted)],
                    sent := rest.sent + [h], submitted := rest.submitted + 1);
      assert PublishStep(s, View());
      PublishKeeps(s, View());
    }

    /** virtio_disk_rw up to its sleep: false means no descriptors, and the
        caller sleeps with nothing changed. */
    method RwSubmit(b: BufId, write: bool, block: nat) returns (ok: bool, h: nat, ghost idx: seq<nat>, ghost mid: State)
      requires Valid() && rest.lock == Nobody && b in busy && b in rest.data && block < |rest.disk|
        && block < 0x1_0000_0000
      requires forall x :: x in rest.flight ==> rest.flight[x].buf != b && rest.flight[x].block != block
      modifies this`busy, this`rest, this`availIdx, desc, ops, info, avail, free
      ensures Valid()
      ensures !ok ==> View() == old(View())
      ensures ok ==> |idx| == 3 && h == idx[0]
      ensures ok ==> PrepareStep(old(View()), mid, idx[0], idx[1], idx[2], b, write, block) && PublishStep(mid, View())
    {
      hide Inv;
      ghost var s := View();
      var ix;
      ok, ix := Alloc3();
      idx, h, mid := ix, 0, s;
      if !ok {
        assert free[..] == old(free[..]);
        return;
      }
      h := ix[0];
      assert free[..] == SetThree(old(free[..]), h, ix[1], ix[2], false);
      Format(b, write, block, h, ix[1], ix[2], s);
      mid := View();
      Notify();
    }

    /** virtio_disk_rw after its sleep: the buffer is the caller's again. */
    method RwFinish(h: nat)
      requires Valid() && rest.lock == Nobody && h in rest.flight && !rest.flight[h].stage.Prepared?
      requires rest.flight[h].buf in busy && !busy[rest.flight[h].buf]
      modifies this`rest, info, desc, free
      ensures Valid() && FinishStep(old(View()), View(), h)
    {
      hide Inv;
      ghost var s := View();
      ghost var q := s.flight[h];
      InvSized(s);
      ChainReady(s, h);
      info[h] := info[h].(b := None);
      FreeChain(h, q.i1, q.i2);
      rest := rest.(flight := rest.flight - {h}, own := rest.own - {h, q.i1, q.i2});
      assert FinishStep(s, View(), h);
      FinishKeeps(s, View(), h);
    }

    /** One iteration of virtio_disk_intr: the panic on a bad status cannot happen. */
    method IntrOnce()
      requires Valid() && rest.lock == Interrupt && seenIdx != usedIdx
      modifies this`rest, this`busy, this`seenIdx
      ensures Valid() && IntrOneStep(old(View()), View())
      ensures rest.lock == Interrupt && |rest.used| < |old(rest.used)| && rest.flight.Keys == old(rest.flight.Keys)
      ensures forall h :: h in rest.flight ==> Seen(old(rest.flight[h]), rest.flight[h])
      ensures View() == old(View()).(busy := busy, seenIdx := seenIdx, flight := rest.flight, used := rest.used,
        acked := rest.acked)
    {
      hide Inv;
      ghost var s := View();
      InvSized(s);
      SeesOldest(s);
      var id := usedElems[seenIdx % NUM];
      assert info[id].status == 0;
      var b := info[id].b.value;
      busy := busy[b := false];
      seenIdx := (seenIdx + 1) % WRAP;
      rest := rest.(flight := rest.flight[id := rest.flight[id].(stage := Acknowledged)], used := rest.used[1..],
                    acked := rest.acked + 1);
      assert IntrOneStep(s, View());
      IntrOneKeeps(s, View());
    }

    /** virtio_disk_intr: every reported request is acknowledged. */
    method Intr()
      requires Valid() && rest.lock == Nobody
      modifies this`rest, this`busy, this`seenIdx
      ensures Valid() && rest.lock == Nobody && rest.used == [] && seenIdx == usedIdx
      ensures rest.flight.Keys == old(rest.flight.Keys)
      ensures forall h :: h in rest.flight ==>
        rest.flight[h] == if old(rest.flight[h]).stage.Reported? then old(rest.flight[h]).(stage := Acknowledged)
          else old(rest.flight[h])
      ensures View() == old(View()).(busy := busy, seenIdx := seenIdx, flight := rest.flight, used := [],
        acked := rest.acked)
    {
      hide Inv;
      ghost var s0 := View();
      rest := rest.(lock := Interrupt);
      assert IntrBeginStep(s0, View());
      LockKeeps(s0, View());
      while seenIdx != usedIdx
        invariant Valid() && rest.lock == Interrupt
        invariant rest.flight.Keys == s0.flight.Keys
        invariant forall h :: h in rest.flight ==> Seen(s0.flight[h], rest.flight[h])
        invariant View() == s0.(lock := Interrupt, busy := busy, seenIdx := seenIdx, flight := rest.flight,
                                used := rest.used, acked := rest.acked)
        decreases |rest.used|
      {
        IntrOnce();
      }
      ghost var s1 := View();
      AllSeen(s1);
      rest := rest.(lock := Nobody);
      assert IntrEndStep(s1, View());
      LockKeeps(s1, View());
    }
  }

  ghost predicate Seen(q: Request, q': Request) {
    q' == q || (q.stage.Reported? && q' == q.(stage := Acknowledged))
  }

  lemma InvSized(s: State)
    requires Inv(s)
    ensures Sized(s)
  {
  }

  /** What free_chain needs of the chain of a request. */
  lemma ChainReady(s: State, h: nat)
    requires Inv(s) && h in s.flight
    ensures var q := s.flight[h];
      && h < NUM && q.i1 < NUM && q.i2 < NUM && h != q.i1 && h != q.i2 && q.i1 != q.i2
      && !s.free[h] && !s.free[q.i1] && !s.free[q.i2]
      && s.desc[h].flags % 2 == 1 && s.desc[h].next == q.i1
      && s.desc[q.i1].flags % 2 == 1 && s.desc[q.i1].next == q.i2 && s.desc[q.i2].flags % 2 == 0
  {
    ChainOf(s.free, s.own, s.flight, h);
    assert Formatted(s, h);
  }

  /** used_idx == used->idx means nothing is left to see. */
  lemma AllSeen(s: State)
    requires Inv(s) && s.seenIdx == s.usedIdx
    ensures s.used == [] && forall h :: h in s.flight ==> !s.flight[h].stage.Reported?
  {
    hide OwnInv, RingInv, FormatInv, DataInv;
    assert forall h: nat :: h in s.used <==> At(s, h, Reported);
    hide StageInv;
    InTransit(s);
    IndexDiffer(s.acked, |s.used|);
    forall h | h in s.flight ensures !s.flight[h].stage.Reported? { assert !At(s, h, Reported); }
  }

  /** Fewer than three indices cover all that was free. */
  lemma NoneLeft(free: seq<bool>, idx: seq<nat>)
    requires |idx| < 3 && |free| == NUM && forall i: nat :: i < NUM && free[i] ==> i in idx
    ensures !exists a, b, c :: 0 <= a < b < c < NUM && free[a] && free[b] && free[c]
  {
  }

  ghost predicate Zeroed(free: seq<bool>, desc: seq<Desc>) {
    |free| == |desc| && forall i :: 0 <= i < |free| && free[i] ==> desc[i] == FREE_DESC
  }

  lemma InDisk(block: nat)
    requires block < 0x1_0000_0000
    ensures BlockAt(block) <= block
  {
  }

  lemma StillZeroed(free: seq<bool>, desc: seq<Desc>, h: nat, i1: nat, i2: nat, b: BufId, write: bool)
    requires |free| == |desc| == NUM && Zeroed(free, desc) && h < NUM && i1 < NUM && i2 < NUM
    ensures Zeroed(SetThree(free, h, i1, i2, false), ChainDescs(desc, h, i1, i2, b, write))
  {
  }
}
