/** The block layer's code: block allocation, the block map of an inode,
    truncation, and byte-range reads and writes, each changing the disk and the
    in-memory inodes in place. `disk` is what bread returns: the current view
    that the log and the cache provide. */
module FsCode {
  import opened Blocks
  import opened Volume
  import opened LogProtocol

  /** Where bit bi of bitmap block q sits. */
  lemma BitPosition(q: nat, bi: nat)
    requires bi < BPB
    ensures (q * BPB + bi) / BPB == q && (q * BPB + bi) % BPB == bi
  {
  }

  /** The indirect block of an inode, if it has one. */
  ghost function IndirectBlock(ino: Ino): set<nat>
    requires |ino.addrs| == NDIRECT + 1
  {
    if ino.addrs[NDIRECT] == 0 then {} else {ino.addrs[NDIRECT]}
  }

  /** What bmap may change: addresses are only added, no byte of any file and
      no other inode changes. */
  ghost predicate Extends(sb: Super, v: Vol, v': Vol, f: nat) {
    && Shape(sb, v) && Shape(sb, v') && f < |v.inode| == |v'.inode| && |v'.disk| == |v.disk|
    && v'.inode == v.inode[f := v'.inode[f]] && v'.inode[f].size == v.inode[f].size
    && (forall g: nat, i: nat :: g < |v.inode| && i < SLOTS && (g != f || Addr(v, f, i) != 0) ==>
      Addr(v', g, i) == Addr(v, g, i))
    && (forall g: nat, k: nat :: g < |v.inode| && k < MAXBYTES ==> Raw(v', g, k) == Raw(v, g, k))
  }

  lemma GrowExtends(sb: Super, v: Vol, owner: map<nat, Slot>, f: nat, i: nat, b: nat)
    requires CanGrow(sb, v, owner, f, i, b)
    ensures Extends(sb, v, Grow(sb, v, f, i, b), f)
    ensures Addr(Grow(sb, v, f, i, b), f, i) == b
    ensures i != NDIRECT ==> Grow(sb, v, f, i, b).inode[f].addrs[NDIRECT] == v.inode[f].addrs[NDIRECT]
  {
    hide Used, Mark, Word, SetWord, ZeroBlock, Allocate, Entry, Addr, Raw, Owned, MapExact, Mapped;
    var v' := Grow(sb, v, f, i, b);
    GrowShape(sb, v, owner, f, i, b);
    GrowEntry(sb, v, owner, f, i, b, f, i);
    forall g: nat, j: nat | g < |v.inode| && j < SLOTS && (g != f || Addr(v, f, j) != 0)
      ensures Addr(v', g, j) == Addr(v, g, j) {
      GrowEntry(sb, v, owner, f, i, b, g, j);
    }
    forall g: nat, k: nat | g < |v.inode| && k < MAXBYTES ensures Raw(v', g, k) == Raw(v, g, k) {
      GrowRaw(sb, v, owner, f, i, b, g, k);
    }
  }

  lemma InodeShape(sb: Super, v: Vol, owner: map<nat, Slot>, f: nat)
    requires Inv(sb, v, owner) && f < |v.inode|
    ensures |v.inode[f].addrs| == NDIRECT + 1 && Shape(sb, v)
  {
  }

  lemma SlotOf(bn: nat)
    ensures bn < MAXFILE ==> BlockSlot(bn) == if bn < NDIRECT then bn else NDIRECT + 1 + (bn - NDIRECT)
  {
  }

  lemma NoIndirectAddr(v: Vol, f: nat, i: nat)
    requires f < |v.inode| && |v.inode[f].addrs| == NDIRECT + 1 && v.inode[f].addrs[NDIRECT] == 0 && NDIRECT < i < SLOTS
    ensures Addr(v, f, i) == 0
  {
  }

  lemma ExtendsRefl(sb: Super, v: Vol, owner: map<nat, Slot>, f: nat)
    requires Inv(sb, v, owner) && f < |v.inode|
    ensures Extends(sb, v, v, f)
  {
    hide Used, Entry, Addr, Raw;
  }

  lemma ExtendsTrans(sb: Super, v0: Vol, v1: Vol, v2: Vol, f: nat)
    requires Extends(sb, v0, v1, f) && Extends(sb, v1, v2, f)
    ensures Extends(sb, v0, v2, f)
  {
    hide Entry, Addr, Raw;
  }

  lemma StillEmpty(sb: Super, v: Vol, v': Vol, f: nat, i: nat)
    requires Extends(sb, v, v', f) && i < SLOTS && Addr(v', f, i) == 0
    ensures Addr(v, f, i) == 0
  {
    hide Entry, Addr, Raw;
  }

  class Fs {
    const sb: Super
    var disk: seq<Block>
    var inode: seq<Ino>        // in memory
    var dinode: seq<Ino>       // in the inode blocks
    ghost var owner: map<nat, Slot>
    var logged: set<nat>       // blocks passed to log_write in this operation

    ghost function View(): Vol
      reads this
    {
      Vol(disk, inode)
    }

    ghost predicate Valid()
      reads this
    {
      Inv(sb, View(), owner) && |dinode| == |inode|
    }

    /** A new volume: no file has a block. */
    constructor (sb0: Super)
      requires sb0.Ok()
      ensures Valid() && sb == sb0 && View() == FreshVol(sb0) && dinode == inode && logged == {}
    {
      var v := FreshVol(sb0);
      sb, disk, inode, dinode, owner, logged := sb0, v.disk, v.inode, v.inode, map[], {};
      new;
      FreshInv(sb0);
    }

    /** balloc: the lowest free block, marked used and zeroed; it panics when
        there is none within reach of its counter. */
    method Balloc() returns (b: nat, panic: bool)
      requires Shape(sb, View())
      modifies this`disk, this`logged
      ensures !panic ==>
        b < sb.Reach() && b < sb.size && !Used(sb, old(disk), b) && (forall c: nat :: c < b ==> Used(sb, old(disk), c))
      ensures !panic ==> disk == Allocate(sb, old(disk), b) && logged == old(logged) + {sb.BBlock(b), b}
      ensures panic ==> disk == old(disk) && logged == old(logged) && forall c: nat :: c < sb.Reach() ==>
        Used(sb, disk, c)
    {
      hide Bit, PutByteBit;
      var q := 0;
      while q * BPB < sb.Reach()
        invariant disk == old(disk) && logged == old(logged)
        invariant forall c: nat :: c < q * BPB && c < sb.Reach() ==> Used(sb, disk, c)
        decreases sb.Reach() - q * BPB
      {
        var base := q * BPB;
        BitPosition(q, 0);
        var bp := disk[sb.BBlock(base)];
        var bi := 0;
        while bi < BPB && base + bi < sb.Reach()
          invariant 0 <= bi <= BPB && disk == old(disk) && logged == old(logged)
          invariant bp == disk[base / BPB + sb.bmapstart]
          invariant forall c: nat :: c < base + bi && c < sb.Reach() ==> Used(sb, disk, c)
        {
          BitPosition(q, bi);
          BitIndex(base + bi);
          if !Bit(bp[bi / 8], bi % 8) {
            disk := disk[sb.BBlock(base) := bp[bi / 8 := PutByteBit(bp[bi / 8], bi % 8, true)]];
            logged := logged + {sb.BBlock(base)};
            Bzero(base + bi);
            return base + bi, false;
          }
          bi := bi + 1;
        }
        q := q + 1;
      }
      return 0, true;
    }

    method Bzero(b: nat)
      requires b < |disk|
      modifies this`disk, this`logged
      ensures disk == old(disk)[b := ZeroBlock()] && logged == old(logged) + {b}
    {
      disk := disk[b := ZeroBlock()];
      logged := logged + {b};
    }

    /** bfree: it panics on a block that is already free. */
    method Bfree(b: nat) returns (panic: bool)
      requires Shape(sb, View()) && b < sb.size
      modifies this`disk, this`logged
      ensures panic <==> !Used(sb, old(disk), b)
      ensures panic ==> disk == old(disk) && logged == old(logged)
      ensures !panic ==> View() == Free(sb, old(View()), b) && logged == old(logged) + {sb.BBlock(b)}
    {
      hide Bit, PutByteBit;
      BitIndex(b);
      var bp, bi := disk[sb.BBlock(b)], b % BPB;
      if !Bit(bp[bi / 8], bi % 8) { return true; }
      disk := disk[sb.BBlock(b) := bp[bi / 8 := PutByteBit(bp[bi / 8], bi % 8, false)]];
      logged := logged + {sb.BBlock(b)};
      return false;
    }

    /** balloc, the address stored in an empty slot, and (for a slot in the
        indirect block) that block logged. */
    method Fill(f: nat, i: nat) returns (b: nat, panic: bool)
      requires Valid() && f < |inode| && i < SLOTS && Addr(View(), f, i) == 0
      requires i > NDIRECT ==> 0 < inode[f].addrs[NDIRECT] < |disk|
      modifies this`disk, this`inode, this`owner, this`logged
      ensures !panic ==> Valid() && b != 0 && CanGrow(sb, old(View()), old(owner), f, i, b)
      ensures !panic ==> View() == Grow(sb, old(View()), f, i, b)
      ensures panic ==> |disk| >= sb.size && forall c: nat :: c < sb.Reach() ==> Used(sb, disk, c)
      ensures !panic ==>
        logged == old(logged) + {sb.BBlock(b), b} + (if i > NDIRECT then {old(inode[f].addrs[NDIRECT])} else {})
    {
      hide Used, Mark, Word, SetWord, ZeroBlock, Entry, Owned, MapExact, Mapped, Allocate;
      ghost var v := View();
      b, panic := Balloc();
      if panic { return; }
      FreeIsUnowned(sb, v, owner, b);
      GrowKeeps(sb, v, owner, f, i, b);
      if i <= NDIRECT {
        inode := inode[f := inode[f].(addrs := inode[f].addrs[i := b])];
      } else {
        var ind := inode[f].addrs[NDIRECT];
        disk := disk[ind := SetWord(disk[ind], i - NDIRECT - 1, b)];
        logged := logged + {ind};
      }
      owner := owner[b := Slot(f, i)];
    }

    /** bmap: the address of the bn-th block of file f, allocating it, and the
        indirect block that must hold it, if there is none. `bms` are the free
        map blocks this logged: at most one for each block allocated. */
    method Bmap(f: nat, bn: nat) returns (addr: nat, panic: bool, ghost bms: set<nat>)
      requires Valid() && f < |inode|
      modifies this`disk, this`inode, this`owner, this`logged
      ensures bn >= MAXFILE ==> panic
      ensures panic && bn < MAXFILE ==>
        old(Addr(View(), f, BlockSlot(bn))) == 0 && |disk| >= sb.size && forall c: nat :: c < sb.Reach() ==>
          Used(sb, disk, c)
      ensures !panic ==> bn < MAXFILE && Valid() && Extends(sb, old(View()), View(), f)
      ensures !panic ==> addr == Addr(View(), f, BlockSlot(bn)) && addr != 0
      ensures !panic && old(Addr(View(), f, BlockSlot(bn))) != 0 ==>
        View() == old(View()) && owner == old(owner) && logged == old(logged) && bms == {}
      ensures !panic ==> logged <= old(logged) + bms + {addr} + IndirectBlock(inode[f])
      ensures !panic ==> |bms| <= (if old(Addr(View(), f, BlockSlot(bn))) == 0 then 1 else 0)
                               + (if old(inode[f].addrs[NDIRECT]) == 0 && inode[f].addrs[NDIRECT] != 0 then 1 else 0)
    {
      hide Inv, Used, Word, Entry, Addr, Raw, Grow, CanGrow, Extends, BlockSlot;
      bms := {};
      addr, panic := 0, false;
      InodeShape(sb, View(), owner, f);
      ExtendsRefl(sb, View(), owner, f);
      SlotOf(bn);
      if bn < NDIRECT {
        DirectAddr(View(), f, bn);
        addr := inode[f].addrs[bn];
        if addr == 0 {
          addr, panic := Fill(f, bn);
          if panic { return; }
          GrowExtends(sb, old(View()), old(owner), f, bn, addr);
          bms := {sb.BBlock(addr)};
        }
        return;
      }
      var j := bn - NDIRECT;
      if j >= NINDIRECT { panic := true; return; }
      var ind := inode[f].addrs[NDIRECT];
      DirectAddr(View(), f, NDIRECT);
      if ind == 0 {
        NoIndirectAddr(View(), f, BlockSlot(bn));
        ind, panic := Fill(f, NDIRECT);
        if panic { return; }
        GrowExtends(sb, old(View()), old(owner), f, NDIRECT, ind);
        InodeShape(sb, View(), owner, f);
        DirectAddr(View(), f, NDIRECT);
        bms := {sb.BBlock(ind)};
      }
      DataAddr(sb, View(), owner, f, NDIRECT);
      ghost var v2, owner2 := View(), owner;
      IndirectAddr(v2, f, j);
      addr := Word(disk[ind], j);
      if addr == 0 {
        addr, panic := Fill(f, BlockSlot(bn));
        if panic {
          StillEmpty(sb, old(View()), v2, f, BlockSlot(bn));
          return;
        }
        GrowExtends(sb, v2, owner2, f, BlockSlot(bn), addr);
        InodeShape(sb, View(), owner, f);
        ExtendsTrans(sb, old(View()), v2, View(), f);
        StillEmpty(sb, old(View()), v2, f, BlockSlot(bn));
        bms := bms + {sb.BBlock(addr)};
      }
    }

    /** iupdate: the in-memory inode is copied to its inode block, which is logged. */
    method Iupdate(f: nat)
      requires f < |inode| == |dinode|
      modifies this`dinode, this`logged
      ensures dinode == old(dinode)[f := inode[f]] && logged == old(logged) + {sb.IBlock(f)}
    {
      dinode := dinode[f := inode[f]];
      logged := logged + {sb.IBlock(f)};
    }

    /** bfree(b) for the address b in slot i of file f: never a block that is already free. */
    method Release(f: nat, i: nat, b: nat, ghost dead: set<Slot>)
      requires Core(sb, View(), owner, dead, f) && i < SLOTS && Slot(f, i) !in dead
      requires b == Addr(View(), f, i) && b != 0 && Slot(f, NDIRECT) !in dead
      modifies this`disk, this`owner, this`logged
      ensures Core(sb, View(), owner, dead + {Slot(f, i)}, f)
      ensures |disk| == |old(disk)| && (forall x: nat :: sb.data <= x < |disk| ==> disk[x] == old(disk)[x])
      ensures Kept(old(owner), owner, {Slot(f, i)})
      ensures logged == old(logged) + {sb.BBlock(b)}
    {
      hide Used, Word, Entry, Addr, Mapped, MapExact, PutByteBit;
      FreeKeeps(sb, View(), owner, dead, f, i);
      var panic := Bfree(b);
      assert !panic;
      owner := owner - {b};
    }

    /** The first loop of itrunc. */
    method TruncDirect(f: nat)
      requires Valid() && f < |inode|
      modifies this`disk, this`inode, this`owner, this`logged
      ensures Core(sb, View(), owner, {}, f) && f < |inode| == |old(inode)|
      ensures inode == old(inode)[f := inode[f]] && inode[f].addrs[NDIRECT] == old(inode)[f].addrs[NDIRECT]
      ensures forall i: nat :: i < NDIRECT ==> inode[f].addrs[i] == 0
      ensures |disk| == |old(disk)| && (forall x: nat :: sb.data <= x < |disk| ==> disk[x] == old(disk)[x])
      ensures Kept(old(owner), owner, set i: nat | i < NDIRECT :: Slot(f, i))
      ensures logged == old(logged) + MapsOf(sb, old(View()), f, 0, NDIRECT)
    {
      hide Used, Word, Entry, Mapped, MapExact, Owned;
      var i := 0;
      while i < NDIRECT
        invariant 0 <= i <= NDIRECT
        invariant Core(sb, View(), owner, {}, f) && f < |inode| == |old(inode)|
        invariant inode == old(inode)[f := inode[f]] && inode[f].addrs[NDIRECT] == old(inode)[f].addrs[NDIRECT]
        invariant forall j: nat :: j < i ==> inode[f].addrs[j] == 0
        invariant |disk| == |old(disk)| && (forall x: nat :: sb.data <= x < |disk| ==> disk[x] == old(disk)[x])
        invariant Kept(old(owner), owner, set j: nat | j < i :: Slot(f, j))
        invariant forall j: nat :: i <= j < NDIRECT ==> inode[f].addrs[j] == old(inode)[f].addrs[j]
        invariant logged == old(logged) + MapsOf(sb, old(View()), f, 0, i)
      {
        DirectAddr(View(), f, i);
        DirectAddr(old(View()), f, i);
        MapsSnoc(sb, old(View()), f, 0, i);
        ghost var owner0 := owner;
        if inode[f].addrs[i] != 0 {
          Release(f, i, inode[f].addrs[i], {});
          assert {} + {Slot(f, i)} == {Slot(f, i)};
          ClearKeeps(sb, View(), owner, f, i);
          inode := inode[f := inode[f].(addrs := inode[f].addrs[i := 0])];
        } else {
          EmptySlotKept(sb, View(), owner, {}, f, i);
        }
        KeptTrans(old(owner), owner0, owner, set j: nat | j < i :: Slot(f, j), {Slot(f, i)});
        assert (set j: nat | j < i + 1 :: Slot(f, j)) == (set j: nat | j < i :: Slot(f, j)) + {Slot(f, i)};
        i := i + 1;
      }
    }

    /** The second half of itrunc: every block in the indirect block, then that block. */
    method TruncIndirect(f: nat)
      requires Core(sb, View(), owner, {}, f)
      modifies this`disk, this`inode, this`owner, this`logged
      ensures Core(sb, View(), owner, {}, f) && f < |inode| == |old(inode)|
      ensures inode == old(inode)[f := inode[f]]
      ensures inode[f].addrs == old(inode)[f].addrs[NDIRECT := 0]
      ensures |disk| == |old(disk)| && (forall x: nat :: sb.data <= x < |disk| ==> disk[x] == old(disk)[x])
      ensures Kept(old(owner), owner, IndirectSlots(f, NINDIRECT) + {Slot(f, NDIRECT)})
      ensures logged == old(logged) + MapsOf(sb, old(View()), f, NDIRECT, SLOTS)
    {
      hide Used, Word, Entry, Addr, Mapped, MapExact, Owned, MapsOf, Kept;
      DirectAddr(View(), f, NDIRECT);
      if inode[f].addrs[NDIRECT] == 0 {
        NoIndirect(sb, View(), owner, f);
        NoMaps(sb, View(), f);
        return;
      }
      IndirectOwned(sb, View(), owner, {}, f);
      ghost var v := View();
      var ind := inode[f].addrs[NDIRECT];
      var a := disk[ind];
      var j := 0;
      assert IndirectSlots(f, 0) == {};
      NothingKept(owner);
      MapsNone(sb, v, f, NDIRECT + 1);
      while j < NINDIRECT
        invariant 0 <= j <= NINDIRECT
        invariant Core(sb, View(), owner, IndirectSlots(f, j), f) && inode == old(inode)
        invariant |disk| == |old(disk)| && (forall x: nat :: sb.data <= x < |disk| ==> disk[x] == old(disk)[x])
        invariant Kept(old(owner), owner, IndirectSlots(f, j))
        invariant logged == old(logged) + MapsOf(sb, v, f, NDIRECT + 1, NDIRECT + 1 + j)
      {
        ghost var owner0 := owner;
        var i := NDIRECT + 1 + j;
        IndirectAddr(View(), f, j);
        IndirectAddr(v, f, j);
        MapsSnoc(sb, v, f, NDIRECT + 1, i);
        assert IndirectSlots(f, j + 1) == IndirectSlots(f, j) + {Slot(f, i)};
        if Word(a, j) != 0 {
          Release(f, i, Word(a, j), IndirectSlots(f, j));
        } else {
          EmptySlotKept(sb, View(), owner, IndirectSlots(f, j), f, i);
          EmptySlotDead(sb, View(), owner, IndirectSlots(f, j), f, i);
        }
        KeptTrans(old(owner), owner0, owner, IndirectSlots(f, j), {Slot(f, i)});
        j := j + 1;
      }
      ghost var owner1 := owner;
      DirectAddr(View(), f, NDIRECT);
      Release(f, NDIRECT, ind, IndirectSlots(f, NINDIRECT));
      MapsCons(sb, v, f);
      KeptTrans(old(owner), owner1, owner, IndirectSlots(f, NINDIRECT), {Slot(f, NDIRECT)});
      ClearIndirectKeeps(sb, View(), owner, f);
      inode := inode[f := inode[f].(addrs := inode[f].addrs[NDIRECT := 0])];
    }

    /** itrunc: the file gives up exactly its blocks and becomes empty. bfree
        never meets a block that is already free. */
    method Itrunc(f: nat)
      requires Valid() && f < |inode|
      modifies this`disk, this`inode, this`dinode, this`owner, this`logged
      ensures Valid() && |inode| == |old(inode)|
      ensures inode == old(inode)[f := Ino(0, seq(NDIRECT + 1, i => 0))] && dinode == old(dinode)[f := inode[f]]
      ensures forall b: nat :: b < sb.size ==>
        (Used(sb, disk, b) <==>
          Used(sb, old(disk), b) && (b == 0 || forall i: nat :: i < SLOTS ==> old(Addr(View(), f, i)) != b))
      ensures forall g: nat, k: nat :: g < |inode| && g != f && k < MAXBYTES ==>
        Raw(View(), g, k) == Raw(old(View()), g, k)
      ensures logged == old(logged) + MapsOf(sb, old(View()), f, 0, SLOTS) + {sb.IBlock(f)}
    {
      hide Used, Word, Entry, Mapped, MapExact, Owned, Raw;
      ghost var v, owner0 := View(), owner;
      TruncDirect(f);
      ghost var owner1 := owner;
      SameIndirect(sb, v, owner0, View(), f);
      TruncIndirect(f);
      KeptTrans(owner0, owner1, owner, set i: nat | i < NDIRECT :: Slot(f, i),
        IndirectSlots(f, NINDIRECT) + {Slot(f, NDIRECT)});
      assert inode[f].addrs == seq(NDIRECT + 1, i => 0);
      TruncatedInv(sb, View(), owner, f);
      inode := inode[f := inode[f].(size := 0)];
      Iupdate(f);
      TruncatedUsed(sb, v, owner0, View(), owner, f);
      forall g: nat, k: nat | g < |inode| && g != f && k < MAXBYTES ensures Raw(View(), g, k) == Raw(v, g, k) {
        SameRaw(sb, v, owner0, View(), g, k);
      }
    }

    /** readi: the part of [off, off + n) below the size, copied to a destination
        that faults after `room` bytes. It allocates nothing and changes nothing. */
    method Readi(f: nat, off: nat, n: nat, room: nat) returns (r: int, data: seq<byte>)
      requires Valid() && f < |inode| && off < 0x1_0000_0000 && n < 0x1_0000_0000
      modifies this`disk, this`inode, this`owner, this`logged
      ensures Valid() && View() == old(View()) && owner == old(owner) && logged == old(logged)
      ensures off > inode[f].size || off + n >= 0x1_0000_0000 ==> r == 0 && data == []
      ensures off <= inode[f].size && off + n < 0x1_0000_0000 ==>
        var m := if off + n > inode[f].size then inode[f].size - off else n;
        if m <= room then r == m && data == Content(View(), f)[off..off+m] else r == -1
    {
      hide Used, Word, Entry, Addr, Inv, Raw;
      data := [];
      if off > inode[f].size || off + n >= 0x1_0000_0000 { return 0, data; }
      SizeBound(sb, View(), owner, f);
      var m := if off + n > inode[f].size then inode[f].size - off else n;
      var tot := 0;
      while tot < m
        invariant 0 <= tot <= m && |data| == tot <= room
        invariant Valid() && View() == old(View()) && owner == old(owner) && logged == old(logged)
        invariant forall t: nat :: t < tot ==> data[t] == Raw(View(), f, off + t)
      {
        var pos := off + tot;
        var c := if m - tot < BSIZE - pos % BSIZE then m - tot else BSIZE - pos % BSIZE;
        var chunk := ReadChunk(f, pos, c);
        if tot + c > room { return -1, data; }
        forall t: nat | tot <= t < tot + c ensures (data + chunk)[t] == Raw(View(), f, off + t) {
          assert (data + chunk)[t] == chunk[t-tot];
        }
        data := data + chunk;
        tot := tot + c;
      }
      ContentSlice(View(), f, off, m, data);
      return m, data;
    }

    /** One iteration of readi's loop: bread of the block bmap gives, which is
        mapped, so bmap allocates nothing. */
    method ReadChunk(f: nat, pos: nat, c: nat) returns (chunk: seq<byte>)
      requires Valid() && f < |inode| && pos < inode[f].size && pos % BSIZE + c <= BSIZE && pos + c <= MAXBYTES
      modifies this`disk, this`inode, this`owner, this`logged
      ensures Valid() && View() == old(View()) && owner == old(owner) && logged == old(logged)
      ensures f < |inode| && |inode[f].addrs| == NDIRECT + 1
      ensures |chunk| == c && forall t: nat :: t < c ==> chunk[t] == Raw(View(), f, pos + t)
    {
      hide Used, Word, Entry, Addr, Owned, MapExact, Raw;
      var bn, o := pos / BSIZE, pos % BSIZE;
      MappedAt(sb, View(), f, pos);
      var addr, panic;
      ghost var bms;
      addr, panic, bms := Bmap(f, bn);
      AddrOwned(sb, View(), owner, f, BlockSlot(bn));
      chunk := disk[addr][o..o+c];
      forall t: nat | t < c ensures chunk[t] == Raw(View(), f, pos + t) { RawAt(View(), f, pos, t, addr); }
    }

    /** bmap, then the bytes copied into the block; a completed copy is logged.
        Otherwise the buffer is handed back changed: unless the log holds the
        block, it may be recycled (`kept` false) and the bytes are gone. */
    method CopyIn(f: nat, pos: nat, src: seq<byte>, log: bool, kept: bool)
        returns (panic: bool, ghost bytes: seq<byte>, ghost addr: nat, ghost bms: set<nat>)
      requires Valid() && f < |inode| && pos < MAXBYTES && pos % BSIZE + |src| <= BSIZE
      modifies this`disk, this`inode, this`owner, this`logged
      ensures panic ==> |disk| >= sb.size && forall c: nat :: c < sb.Reach() ==> Used(sb, disk, c)
      ensures !panic ==> Valid() && |inode| == |old(inode)| && |dinode| == |old(dinode)|
      ensures !panic ==> inode == old(inode)[f := inode[f]] && inode[f].size == old(inode)[f].size
      ensures !panic ==> Overlay(old(View()), View(), f, pos, bytes)
      ensures !panic ==> bytes == if log || kept || addr in logged then src else []
      ensures !panic ==> forall i: nat :: i < SLOTS && Addr(old(View()), f, i) != 0 ==>
        Addr(View(), f, i) == Addr(old(View()), f, i)
      ensures !panic ==> pos / BSIZE < MAXFILE && addr == Addr(View(), f, BlockSlot(pos / BSIZE)) && addr != 0
      ensures !panic ==> logged <= old(logged) + bms + {addr} + IndirectBlock(inode[f])
      ensures Addr(old(View()), f, BlockSlot(pos / BSIZE)) != 0 ==>
        !panic && logged == old(logged) + if log then {addr} else {}
      ensures !panic ==> |bms| <= (if Addr(old(View()), f, BlockSlot(pos / BSIZE)) == 0 then 1 else 0)
                               + (if old(inode[f].addrs[NDIRECT]) == 0 && inode[f].addrs[NDIRECT] != 0 then 1 else 0)
    {
      hide Inv, Used, Word, Entry, Addr, Raw, Overlay, Extends, Splice;
      var bn, o := pos / BSIZE, pos % BSIZE;
      ghost var v0 := View();
      bytes := [];
      var a;
      a, panic, bms := Bmap(f, bn);
      addr := a;
      if panic { return; }
      ghost var v1, owner1 := View(), owner;
      DataAddr(sb, v1, owner1, f, BlockSlot(bn));
      var stays := log || kept || a in logged;
      var seen := if stays then src else [];
      bytes := seen;
      var blk := Splice(disk[a], o, seen);
      PutKeeps(sb, v1, owner1, f, bn, blk);
      disk := disk[a := blk];
      if log { logged := logged + {a}; }
      Copied(sb, v0, v1, owner1, f, pos, bytes, a);
    }

    /** What writei's loop has done after tot bytes: only inode f's addresses
        have changed, and only by additions. */
    ghost predicate Writing(v: Vol, f: nat, off: nat, tot: nat, bytes: seq<byte>)
      reads this
    {
      && Valid() && f < |inode| == |v.inode| && |inode[f].addrs| == |v.inode[f].addrs| == NDIRECT + 1
      && inode == v.inode[f := inode[f]] && inode[f].size == v.inode[f].size
      && (v.inode[f].addrs[NDIRECT] != 0 ==> inode[f].addrs[NDIRECT] == v.inode[f].addrs[NDIRECT])
      && Overlay(v, View(), f, off, bytes)
      && MappedBelow(View(), f, off + tot)
    }

    /** A write into a block that has its address succeeds and logs that block only. */
    ghost predicate LogsOnly(panic: bool, v: Vol, f: nat, pos: nat, before: set<nat>)
      requires f < |v.inode| && |v.inode[f].addrs| == NDIRECT + 1 && pos < MAXBYTES
      reads this
    {
      Addr(v, f, BlockSlot(pos / BSIZE)) != 0 ==> !panic && logged == before + {Addr(v, f, BlockSlot(pos / BSIZE))}
    }

    /** One iteration of writei's loop. */
    method WriteStep(ghost v: Vol, f: nat, off: nat, tot: nat, m: nat, src: seq<byte>, kept: bool)
      returns (fault: bool, panic: bool, ghost end: nat, ghost a: nat, ghost bs: set<nat>)
      requires tot <= |src| && f < |inode| && |inode[f].addrs| == NDIRECT + 1 && Writing(v, f, off, tot, src[..tot])
      requires f < |v.inode| && |v.inode[f].addrs| == NDIRECT + 1
      requires off + tot < MAXBYTES && 0 < m <= BSIZE - (off + tot) % BSIZE
      modifies this`disk, this`inode, this`owner, this`logged
      ensures fault <==> tot + m > |src|
      ensures panic ==> |disk| >= sb.size && forall c: nat :: c < sb.Reach() ==> Used(sb, disk, c)
      ensures !panic ==> f < |inode| && |inode[f].addrs| == NDIRECT + 1
      ensures !panic ==> Ends(src, if fault then tot else tot + m, fault, kept, end)
      ensures !panic ==> Writing(v, f, off, if fault then tot else tot + m, src[..end])
      ensures !panic && v.inode[f].addrs[NDIRECT] != old(inode)[f].addrs[NDIRECT] ==>
        v.inode[f].addrs[NDIRECT] != inode[f].addrs[NDIRECT]
      ensures !panic && old(inode)[f].addrs[NDIRECT] != inode[f].addrs[NDIRECT] ==>
        v.inode[f].addrs[NDIRECT] == old(inode)[f].addrs[NDIRECT] == 0
      ensures !panic ==> logged <= old(logged) + bs + {a} + IndirectBlock(inode[f])
      ensures !fault ==> LogsOnly(panic, old(View()), f, off + tot, old(logged))
      ensures !panic ==> IndirectBlock(old(inode)[f]) <= IndirectBlock(inode[f])
      ensures !panic ==> |bs| <= (if tot == 0 && off % BSIZE != 0 then 0 else 1)
                              + (if old(inode)[f].addrs[NDIRECT] == 0 && inode[f].addrs[NDIRECT] != 0 then 1 else 0)
    {
      hide Used, Word, Entry, Addr, Owned, MapExact, Raw, Overlay, MappedBelow;
      var pos := off + tot;
      fault := tot + m > |src|;
      var bytes := if fault then src[tot..] else src[tot..tot+m];
      ghost var v1 := View();
      FirstMapped(v1, f, off, tot);
      DirectAddr(v1, f, NDIRECT);
      ghost var seen;
      end := tot;
      panic, seen, a, bs := CopyIn(f, pos, bytes, !fault, kept);
      if panic { return; }
      DirectAddr(View(), f, NDIRECT);
      end := tot + |seen|;
      assert src[..tot] + seen == src[..end];
      OverlayStep(v, v1, View(), f, off, src[..tot], seen);
      MappedStep(v1, View(), f, pos, if fault then 0 else m);
    }

    /** The loop of writei. `tot` bytes are written and logged; if the source
        faults, the copy of the last chunk stops where it did and is not logged. */
    method WriteLoop(f: nat, off: nat, n: nat, src: seq<byte>, kept: bool)
      returns (tot: nat, fault: bool, panic: bool, ghost end: nat, ghost data: set<nat>, ghost bms: set<nat>)
      requires Valid() && f < |inode| && off <= inode[f].size && off + n <= MAXBYTES
      modifies this`disk, this`inode, this`owner, this`logged
      ensures panic ==> |disk| >= sb.size && forall c: nat :: c < sb.Reach() ==> Used(sb, disk, c)
      ensures !panic ==> tot <= n && tot <= |src| && (fault <==> |src| < n)
      ensures !panic ==> if fault then tot <= |src| < tot + BSIZE else tot == n
      ensures !panic ==> f < |inode| && |inode[f].addrs| == NDIRECT + 1
      ensures !panic ==> Ends(src, tot, fault, kept, end) && Writing(old(View()), f, off, tot, src[..end])
      ensures !panic ==> logged <= old(logged) + data + bms + IndirectBlock(inode[f])
      ensures !panic ==> |data| <= Span(off, n)
      ensures !panic ==> |bms| <= Span(off, n) + 1 - (if off % BSIZE != 0 && n > 0 then 1 else 0)
      ensures 0 < n <= |src| && off % BSIZE + n <= BSIZE ==> LogsOnly(panic, old(View()), f, off, old(logged))
    {
      hide LoopInv, LogsOnly, Writing, Span, Inv;
      ghost var v, before := View(), logged;
      tot, fault, panic, end, data, bms := 0, false, false, 0, {}, {};
      LoopStart(f, off, n, src, kept);
      while tot < n && !fault
        invariant tot <= n && LoopInv(v, before, f, off, n, src, kept, tot, fault, end, data, bms)
        invariant !fault ==> end == tot
        invariant tot == 0 && !fault ==> View() == v && logged == before
        invariant tot > 0 && !fault && off % BSIZE + n <= BSIZE ==> tot == n && LogsOnly(false, v, f, off, before)
        invariant fault ==> |src| < n
        decreases n - tot, !fault
      {
        tot, fault, panic, end, data, bms := Iterate(v, before, f, off, n, src, kept, tot, data, bms);
        if panic { return; }
      }
      LoopEnd(v, before, f, off, n, src, kept, tot, fault, end, data, bms);
    }

    ghost predicate LoopInv(v: Vol, before: set<nat>, f: nat, off: nat, n: nat, src: seq<byte>, kept: bool,
                            tot: nat, fault: bool, end: nat, data: set<nat>, bms: set<nat>)
      reads this
    {
      && tot <= n && tot <= |src| && off + n <= MAXBYTES
      && (fault ==> |src| < n && |src| < tot + BSIZE)
      && (fault || tot == 0 || tot == n || (off + tot) % BSIZE == 0)
      && f < |inode| && |inode[f].addrs| == NDIRECT + 1 && f < |v.inode| && |v.inode[f].addrs| == NDIRECT + 1
      && Ends(src, tot, fault, kept, end) && Writing(v, f, off, tot, src[..end])
      && logged <= before + data + bms + IndirectBlock(inode[f])
      && CostOk(off, n, tot, fault, v.inode[f].addrs[NDIRECT] != inode[f].addrs[NDIRECT], data, bms)
    }

    lemma LoopStart(f: nat, off: nat, n: nat, src: seq<byte>, kept: bool)
      requires Valid() && f < |inode| && off <= inode[f].size && off + n <= MAXBYTES
      ensures |inode[f].addrs| == NDIRECT + 1 && LoopInv(View(), logged, f, off, n, src, kept, 0, false, 0, {}, {})
    {
      hide Used, Word, Entry, Addr, Raw, Overlay, MappedBelow, Span;
      StartWriting(f, off, src);
      SpanZero(off);
      SpanMono(off, 0, n);
    }

    lemma LoopEnd(v: Vol, before: set<nat>, f: nat, off: nat, n: nat, src: seq<byte>, kept: bool,
                  tot: nat, fault: bool, end: nat, data: set<nat>, bms: set<nat>)
      requires LoopInv(v, before, f, off, n, src, kept, tot, fault, end, data, bms) && (fault || tot == n)
      ensures tot <= |src| && (fault <==> |src| < n)
      ensures if fault then tot <= |src| < tot + BSIZE else tot == n
      ensures f < |inode| && |inode[f].addrs| == NDIRECT + 1
      ensures Ends(src, tot, fault, kept, end) && Writing(v, f, off, tot, src[..end])
      ensures logged <= before + data + bms + IndirectBlock(inode[f])
      ensures |data| <= Span(off, n)
      ensures |bms| <= Span(off, n) + 1 - (if off % BSIZE != 0 && n > 0 then 1 else 0)
    {
      hide Writing, Span;
      CostEnd(off, n, tot, fault, v.inode[f].addrs[NDIRECT] != inode[f].addrs[NDIRECT], data, bms);
    }

    method Iterate(ghost v: Vol, ghost before: set<nat>, f: nat, off: nat, n: nat, src: seq<byte>, kept: bool,
                   tot: nat, ghost data: set<nat>, ghost bms: set<nat>)
      returns (tot': nat, fault: bool, panic: bool, ghost end': nat, ghost data': set<nat>, ghost bms': set<nat>)
      requires tot < n && LoopInv(v, before, f, off, n, src, kept, tot, false, tot, data, bms)
      modifies this`disk, this`inode, this`owner, this`logged
      ensures panic ==> |disk| >= sb.size && forall c: nat :: c < sb.Reach() ==> Used(sb, disk, c)
      ensures !panic ==> LoopInv(v, before, f, off, n, src, kept, tot', fault, end', data', bms')
      ensures !panic ==> if fault then tot' == tot else tot < tot' == end' <= n
      ensures !panic && !fault && tot == 0 && off % BSIZE + n <= BSIZE ==> tot' == n
      ensures !fault ==> LogsOnly(panic, old(View()), f, off + tot, old(logged))
      ensures fault ==> |src| < n
    {
      hide Inv, Used, Span, CostOk, Writing, LogsOnly, IndirectBlock;
      var pos := off + tot;
      var m := if n - tot < BSIZE - pos % BSIZE then n - tot else BSIZE - pos % BSIZE;
      NextAligned(pos, m);
      ghost var ind := v.inode[f].addrs[NDIRECT] != inode[f].addrs[NDIRECT];
      ghost var a, bs;
      fault, panic, end', a, bs := WriteStep(v, f, off, tot, m, src, kept);
      tot', data', bms' := if fault then tot else tot + m, data + {a}, bms + bs;
      if panic { return; }
      CostStep(off, n, tot, m, fault, ind, v.inode[f].addrs[NDIRECT] != inode[f].addrs[NDIRECT], data, bms, a, bs);
    }

    /** writei. `src` holds the source bytes that can be read before a fault, and
        `end` of them are in the file afterwards: on a fault those of the
        completed chunks, and those of the last one if its buffer is kept.
        On a fault n becomes (uint)-1, which is still greater than 0, so the
        inode is written back in every case that may have changed it. */
    method Writei(f: nat, off: nat, n: nat, src: seq<byte>, kept: bool)
      returns (r: int, panic: bool, ghost tot: nat, ghost end: nat, ghost extra: set<nat>)
      requires Valid() && f < |inode| && off < 0x1_0000_0000 && n < 0x1_0000_0000
      modifies this`disk, this`inode, this`dinode, this`owner, this`logged
      ensures panic ==> |disk| >= sb.size && forall c: nat :: c < sb.Reach() ==> Used(sb, disk, c)
      ensures !WriteFits(old(inode)[f].size, off, n) ==>
        r == -1 && !panic && View() == old(View()) && owner == old(owner) && dinode == old(dinode)
          && logged == old(logged)
      ensures !panic ==> Valid() && |inode| == |old(inode)| && inode == old(inode)[f := inode[f]]
      ensures !panic && WriteFits(old(inode)[f].size, off, n) ==>
        && r == (if |src| < n then -1 else n)
        && (if |src| < n then tot <= |src| < tot + BSIZE else tot == n)
        && Ends(src, tot, |src| < n, kept, end) && Overlay(old(View()), View(), f, off, src[..end])
        && inode[f].size == (if off + tot > old(inode)[f].size then off + tot else old(inode)[f].size)
        && (n > 0 ==> dinode == old(dinode)[f := inode[f]])
      ensures !panic ==> logged <= old(logged) + extra && |extra| <= WriteCost(off, n)
      ensures WriteFits(old(inode)[f].size, off, n) && 0 < n <= |src| && off % BSIZE + n <= BSIZE ==>
        Addr(old(View()), f, BlockSlot(off / BSIZE)) != 0 ==>
          !panic && logged == old(logged) + {Addr(old(View()), f, BlockSlot(off / BSIZE)), sb.IBlock(f)}
    {
      hide Inv, Used, Addr, Overlay, MappedBelow, Span;
      tot, end, extra := 0, 0, {};
      SpanMono(off, 0, n);
      if off > inode[f].size || off + n >= 0x1_0000_0000 { return -1, false, tot, end, extra; }
      if off + n > MAXBYTES { return -1, false, tot, end, extra; }
      ghost var v := View();
      var t, fault;
      ghost var data, bms := {}, {};
      t, fault, panic, end, data, bms := WriteLoop(f, off, n, src, kept);
      tot := t;
      if panic { return -1, true, tot, end, extra; }
      SizeBound(sb, View(), owner, f);
      extra := data + bms + IndirectBlock(inode[f]) + {sb.IBlock(f)};
      CostTotal(off, n, data, bms, IndirectBlock(inode[f]), sb.IBlock(f));
      var n' := if fault then 0xFFFF_FFFF else n;
      if n' > 0 { WriteBack(v, f, off, t, src[..end]); }
      r := if fault then -1 else n;
    }

    /** The end of writei: the size grows to cover what was written, and the inode is written back. */
    method WriteBack(ghost v: Vol, f: nat, off: nat, t: nat, ghost bytes: seq<byte>)
      requires Writing(v, f, off, t, bytes) && off + t <= MAXBYTES
      modifies this`inode, this`dinode, this`logged
      ensures Valid() && |inode| == |v.inode| && inode == v.inode[f := inode[f]] && Overlay(v, View(), f, off, bytes)
      ensures inode[f].size == if off + t > v.inode[f].size then off + t else v.inode[f].size
      ensures dinode == old(dinode)[f := inode[f]] && logged == old(logged) + {sb.IBlock(f)}
      ensures f < |old(inode)| && inode[f].addrs == old(inode)[f].addrs
    {
      hide Inv, Overlay, MappedBelow;
      if off + t > inode[f].size {
        SizeKeeps(sb, View(), owner, f, off + t);
        SizeOverlay(v, View(), f, off, bytes, off + t);
        inode := inode[f := inode[f].(size := off + t)];
      }
      Iupdate(f);
    }

    /** filewrite on an inode: the write is cut into chunks of at most MAXCHUNK
        bytes, each its own transaction. `ops` are the sets of blocks those
        transactions logged. */
    method FileWrite(f: nat, off: nat, n: int, src: seq<byte>, kept: bool)
      returns (ret: int, off': nat, panic: bool, ghost done: nat, ghost ops: seq<set<nat>>)
      requires Valid() && f < |inode| && off < 0x1_0000_0000 && n < 0x8000_0000
      modifies this`disk, this`inode, this`dinode, this`owner, this`logged
      ensures panic ==> |disk| >= sb.size && forall c: nat :: c < sb.Reach() ==> Used(sb, disk, c)
      ensures !panic ==> Valid() && |inode| == |old(inode)| && inode == old(inode)[f := inode[f]]
      ensures !panic ==> forall i :: 0 <= i < |ops| ==> |ops[i]| <= MAXOPBLOCKS
      ensures !panic ==>
        (ret == n <==> n == 0 || n == -1 || (0 < n <= |src| && off <= old(inode)[f].size && off + n <= MAXBYTES))
      ensures !panic && ret != n ==> ret == -1
      ensures !panic ==> done <= |src| && Overlay(old(View()), View(), f, off, src[..done])
      ensures !panic && 0 <= ret == n ==> done == n && off' == off + n
      ensures !panic && 0 <= ret == n ==>
        inode[f].size == if off + n > old(inode)[f].size && n > 0 then off + n else old(inode)[f].size
    {
      hide Inv, Used, Overlay, Span, WriteCost;
      ghost var v := View();
      ops, done, panic, off' := [], 0, false, off;
      OverlayStart(f, off, src);
      var i, r := 0, 0;
      while i < n
        invariant 0 <= i && (i <= n || i == 0) && i <= |src| && off' == off + i && done == i && !panic
        invariant Valid() && |inode| == |v.inode| && inode == v.inode[f := inode[f]]
        invariant Overlay(v, View(), f, off, src[..i])
        invariant i > 0 ==> off <= v.inode[f].size && off + i <= MAXBYTES
        invariant inode[f].size == if i > 0 && off + i > v.inode[f].size then off + i else v.inode[f].size
        invariant forall j :: 0 <= j < |ops| ==> |ops[j]| <= MAXOPBLOCKS
      {
        var n1 := if n - i > MAXCHUNK then MAXCHUNK else n - i;
        logged := {};                                  // begin_op
        ghost var tot, c, extra, v1 := 0, 0, {}, View();
        r, panic, tot, c, extra := Writei(f, off + i, n1, src[i..], kept);
        if panic { return -1, off', true, done, ops; }
        ChunkCost(off + i, n1);
        SubsetSize(logged, extra);
        ops := ops + [logged];                         // end_op
        if WriteFits(v1.inode[f].size, off + i, n1) {
          assert src[i..][..c] == src[i..i+c] && src[..i] + src[i..i+c] == src[..i+c];
          OverlayStep(v, v1, View(), f, off, src[..i], src[i..i+c]);
          done := i + c;
        }
        if r < 0 { return -1, off', false, done, ops; }
        off' := off' + r;
        i := i + r;
      }
      return if i == n then n else -1, off', false, done, ops;
    }

    lemma OverlayStart(f: nat, off: nat, src: seq<byte>)
      requires Valid()
      ensures Overlay(View(), View(), f, off, src[..0])
    {
      OverlayNone(View(), f, off);
      assert src[..0] == [];
    }

    lemma StartWriting(f: nat, off: nat, src: seq<byte>)
      requires Valid() && f < |inode| && off <= inode[f].size
      ensures Writing(View(), f, off, 0, src[..0])
    {
      hide Used, Addr, Raw;
      StartMapped(sb, View(), owner, f, off);
      OverlayNone(View(), f, off);
      assert src[..0] == [];
    }
  }

  /** How many source bytes are in the file once tot of them are logged. */
  ghost predicate Ends(src: seq<byte>, tot: nat, fault: bool, kept: bool, end: nat) {
    && tot <= end <= |src|
    && (if fault then end == tot || end == |src| else end == tot)
    && (fault && kept ==> end == |src|)
  }

  /** Number of blocks touched by tot bytes at offset off. */
  ghost function Span(off: nat, tot: nat): (k: int) {
    if tot == 0 then 0 else (off + tot - 1) / BSIZE - off / BSIZE + 1
  }

  lemma SpanZero(off: nat)
    ensures Span(off, 0) == 0
  {
  }

  lemma SpanMono(off: nat, tot: nat, n: nat)
    requires tot <= n
    ensures 0 <= Span(off, tot) <= Span(off, n)
  {
  }

  /** Blocks logged by the write loop after tot bytes (one more block if it
      stopped on a fault): data blocks, and free map blocks for the blocks
      allocated; `ind` says the indirect block was among those. */
  ghost predicate CostOk(off: nat, n: nat, tot: nat, fault: bool, ind: bool, data: set<nat>, bms: set<nat>) {
    var k := Span(off, tot) + (if fault then 1 else 0);
    && k <= Span(off, n)
    && |data| <= k
    && |bms| <= k - (if off % BSIZE != 0 && (tot > 0 || fault) then 1 else 0) + (if ind then 1 else 0)
  }

  lemma CostStep(off: nat, n: nat, tot: nat, m: nat, fault: bool, ind: bool, ind': bool,
                 data: set<nat>, bms: set<nat>, a: nat, bs: set<nat>)
    requires CostOk(off, n, tot, false, ind, data, bms) && (ind ==> ind') && tot + m <= n
    requires tot == 0 || (off + tot) % BSIZE == 0
    requires 0 < m <= BSIZE - (off + tot) % BSIZE
    requires |bs| <= (if tot == 0 && off % BSIZE != 0 then 0 else 1) + (if ind' && !ind then 1 else 0)
    ensures CostOk(off, n, if fault then tot else tot + m, fault, ind', data + {a}, bms + bs)
  {
    hide Span;
    SpanStep(off, tot, m);
    SpanMono(off, tot + m, n);
    UnionSize(bms, bs);
  }

  lemma CostEnd(off: nat, n: nat, tot: nat, fault: bool, ind: bool, data: set<nat>, bms: set<nat>)
    requires CostOk(off, n, tot, fault, ind, data, bms) && (fault || tot == n)
    ensures |data| <= Span(off, n)
    ensures |bms| <= Span(off, n) + 1 - (if off % BSIZE != 0 && n > 0 then 1 else 0)
  {
    hide Span;
    SpanZero(off);
  }

  /** Each iteration of the write loop moves on to one more block. */
  lemma SpanStep(off: nat, tot: nat, m: nat)
    requires tot == 0 || (off + tot) % BSIZE == 0
    requires 0 < m <= BSIZE - (off + tot) % BSIZE
    ensures Span(off, tot + m) == Span(off, tot) + 1
  {
    var p := off + tot;
    assert (p + m - 1) / BSIZE == p / BSIZE by { SameBlock(p, m - 1); }
    if tot > 0 { assert (p - 1) / BSIZE == p / BSIZE - 1; }
  }

  /** File f has `bytes` at off and is otherwise unchanged, as is every other file,
      which keeps its blocks too. */
  ghost predicate Overlay(v: Vol, v': Vol, f: nat, off: nat, bytes: seq<byte>) {
    && |v'.inode| == |v.inode|
    && (forall g :: 0 <= g < |v.inode| ==> |v.inode[g].addrs| == |v'.inode[g].addrs| == NDIRECT + 1)
    && (forall g: nat, i: nat :: g < |v.inode| && g != f && i < SLOTS ==> Addr(v', g, i) == Addr(v, g, i))
    && (forall g: nat, k: nat :: g < |v.inode| && k < MAXBYTES ==>
          Raw(v', g, k) == if g == f && off <= k < off + |bytes| then bytes[k-off] else Raw(v, g, k))
  }

  lemma OverlayNone(v: Vol, f: nat, off: nat)
    requires forall g :: 0 <= g < |v.inode| ==> |v.inode[g].addrs| == NDIRECT + 1
    ensures Overlay(v, v, f, off, [])
  {
  }

  lemma DataAddr(sb: Super, v: Vol, owner: map<nat, Slot>, f: nat, i: nat)
    requires Inv(sb, v, owner) && f < |v.inode| && i < SLOTS && Addr(v, f, i) != 0
    ensures 0 < Addr(v, f, i) < |v.disk|
  {
    hide Used, Word, Entry, Addr, Mapped;
  }

  /** What the bytes copied into one block, and bmap before it, do to the files. */
  lemma Copied(sb: Super, v0: Vol, v1: Vol, owner: map<nat, Slot>, f: nat, pos: nat, bytes: seq<byte>, a: nat)
    requires Extends(sb, v0, v1, f) && Inv(sb, v1, owner) && f < |v1.inode| && pos < MAXBYTES
      && pos % BSIZE + |bytes| <= BSIZE
    requires a == Addr(v1, f, BlockSlot(pos / BSIZE)) && 0 < a < |v1.disk|
    ensures var v2 := Put(v1, a, Splice(v1.disk[a], pos % BSIZE, bytes));
      && Shape(sb, v2) && Overlay(v0, v2, f, pos, bytes) && Addr(v2, f, BlockSlot(pos / BSIZE)) == a
      && v1.inode == v0.inode[f := v1.inode[f]] && |v1.inode| == |v0.inode| && v1.inode[f].size == v0.inode[f].size
      && forall i: nat :: i < SLOTS && Addr(v0, f, i) != 0 ==> Addr(v2, f, i) == Addr(v0, f, i)
  {
    hide Used, Word, Entry, Addr, Owned, MapExact, Raw, Mapped, Splice;
    var bn, blk := pos / BSIZE, Splice(v1.disk[a], pos % BSIZE, bytes);
    var v2 := Put(v1, a, blk);
    PutKeeps(sb, v1, owner, f, bn, blk);
    forall g: nat, k: nat | g < |v0.inode| && k < MAXBYTES
      ensures Raw(v2, g, k) == if g == f && pos <= k < pos + |bytes| then bytes[k-pos] else Raw(v0, g, k)
    {
      PutRaw(sb, v1, owner, f, bn, blk, g, k);
      if g == f && k / BSIZE == bn { SpliceRaw(v1, f, pos, bytes, k, a); }
    }
    forall g: nat, i: nat | g < |v0.inode| && i < SLOTS && (g != f || Addr(v0, f, i) != 0)
      ensures Addr(v2, g, i) == Addr(v0, g, i) {
      PutEntry(sb, v1, owner, f, bn, blk, g, i);
    }
    PutEntry(sb, v1, owner, f, bn, blk, f, BlockSlot(bn));
  }

  /** Every block of f below byte `end` has an address. */
  ghost predicate MappedBelow(v: Vol, f: nat, end: nat) {
    && f < |v.inode| && |v.inode[f].addrs| == NDIRECT + 1
    && forall bn: nat :: bn < MAXFILE && bn * BSIZE < end ==> Addr(v, f, BlockSlot(bn)) != 0
  }

  /** The tests at the head of writei, with off + n in 32 bits. */
  predicate WriteFits(size: nat, off: nat, n: nat) {
    off <= size && off + n < 0x1_0000_0000 && off + n <= MAXBYTES
  }

  /** Distinct blocks a write may log: its data blocks, a free map block for
      each block allocated, the indirect block and the inode block. */
  ghost function WriteCost(off: nat, n: nat): int {
    2 * Span(off, n) + 3 - (if off % BSIZE != 0 && n > 0 then 1 else 0)
  }

  lemma CostTotal(off: nat, n: nat, data: set<nat>, bms: set<nat>, ind: set<nat>, ib: nat)
    requires |data| <= Span(off, n) && |ind| <= 1
    requires |bms| <= Span(off, n) + 1 - (if off % BSIZE != 0 && n > 0 then 1 else 0)
    ensures |data + bms + ind + {ib}| <= WriteCost(off, n)
  {
    hide Span;
    UnionSize(data, bms);
    UnionSize(data + bms, ind);
  }

  lemma SizeKeeps(sb: Super, v: Vol, owner: map<nat, Slot>, f: nat, size: nat)
    requires Inv(sb, v, owner) && f < |v.inode| && size <= MAXBYTES && MappedBelow(v, f, size)
    ensures Inv(sb, v.(inode := v.inode[f := v.inode[f].(size := size)]), owner)
  {
    hide Used, Word;
    var w := v.(inode := v.inode[f := v.inode[f].(size := size)]);
    assert forall g: nat, i: nat :: g < |v.inode| && i < SLOTS ==> Addr(v, g, i) == Addr(w, g, i);
    hide Entry, Addr;
    assert Owned(sb, w, owner, {});
    forall g: nat | g < |w.inode| ensures Mapped(sb, w, g) { assert Mapped(sb, v, g); }
  }

  /** Bytes do not depend on the size field. */
  lemma SizeOverlay(v: Vol, v': Vol, f: nat, off: nat, bytes: seq<byte>, size: nat)
    requires Overlay(v, v', f, off, bytes) && f < |v'.inode|
    ensures Overlay(v, v'.(inode := v'.inode[f := v'.inode[f].(size := size)]), f, off, bytes)
  {
    hide Word;
    var w := v'.(inode := v'.inode[f := v'.inode[f].(size := size)]);
    assert forall g: nat, k: nat :: g < |v.inode| && k < MAXBYTES ==> Raw(w, g, k) == Raw(v', g, k);
  }

  /** ((MAXOPBLOCKS - 1 - 1 - 2) / 2) * BSIZE */
  const MAXCHUNK: nat := (MAXOPBLOCKS - 1 - 1 - 2) / 2 * BSIZE

  /** One chunk of filewrite fits a transaction, wherever it starts and however
      the blocks it allocates are spread over the free map. */
  lemma ChunkCost(off: nat, n: nat)
    requires n <= MAXCHUNK
    ensures WriteCost(off, n) <= MAXOPBLOCKS
  {
    if n > 0 {
      var q, o := off / BSIZE, off % BSIZE;
      assert off + n - 1 == q * BSIZE + (o + n - 1);
      assert (off + n - 1) / BSIZE == q + (o + n - 1) / BSIZE;
    }
  }

  lemma SubsetSize(a: set<nat>, b: set<nat>)
    requires a <= b
    ensures |a| <= |b|
  {
    assert b == a + (b - a);
  }

  function Spliced(s: seq<byte>, off: nat, bytes: seq<byte>): (r: seq<byte>)
    requires off <= |s|
  {
    s[..off] + bytes + (if off + |bytes| < |s| then s[off + |bytes|..] else [])
  }

  /** In terms of the flat file: the bytes replace exactly [off, off + n), the
      file growing as needed. */
  lemma OverlayContent(v: Vol, v': Vol, f: nat, off: nat, bytes: seq<byte>)
    requires Overlay(v, v', f, off, bytes) && f < |v.inode| && off <= v.inode[f].size <= MAXBYTES
    requires off + |bytes| <= MAXBYTES
    requires v'.inode[f].size == if off + |bytes| > v.inode[f].size then off + |bytes| else v.inode[f].size
    ensures Content(v', f) == Spliced(Content(v, f), off, bytes)
  {
    hide Raw;
    var c, c' := Content(v, f), Content(v', f);
    forall k | 0 <= k < |c'| ensures c'[k] == Spliced(c, off, bytes)[k] {
      assert c'[k] == Raw(v', f, k);
    }
  }

  /** Every other file keeps its content. */
  lemma OverlayOthers(v: Vol, v': Vol, f: nat, off: nat, bytes: seq<byte>, g: nat)
    requires Overlay(v, v', f, off, bytes) && g < |v.inode| && g != f && v'.inode[g] == v.inode[g]
      && v.inode[g].size <= MAXBYTES
    ensures Content(v', g) == Content(v, g)
  {
    hide Raw;
  }

  lemma UnionSize(a: set<nat>, b: set<nat>)
    ensures |a + b| <= |a| + |b|
  {
    assert a + b == a + (b - a);
    assert |b - a| <= |b| by { assert b == (b - a) + (b * a); }
  }

  /** Two adjacent overlays make one. */
  lemma OverlayStep(v: Vol, v1: Vol, v2: Vol, f: nat, off: nat, b1: seq<byte>, b2: seq<byte>)
    requires Overlay(v, v1, f, off, b1) && Overlay(v1, v2, f, off + |b1|, b2)
    ensures Overlay(v, v2, f, off, b1 + b2)
  {
    hide Raw;
  }

  /** With an unaligned start, the first block of the write is mapped already. */
  lemma FirstMapped(v: Vol, f: nat, off: nat, tot: nat)
    requires MappedBelow(v, f, off + tot) && off + tot < MAXBYTES
    ensures tot == 0 && off % BSIZE != 0 ==> Addr(v, f, BlockSlot(off / BSIZE)) != 0
  {
    hide Addr;
    assert off / BSIZE * BSIZE + off % BSIZE == off;
  }

  lemma MappedStep(v: Vol, v': Vol, f: nat, pos: nat, m: nat)
    requires MappedBelow(v, f, pos) && f < |v'.inode| && |v'.inode[f].addrs| == NDIRECT + 1 && pos < MAXBYTES
    requires forall i: nat :: i < SLOTS && Addr(v, f, i) != 0 ==> Addr(v', f, i) == Addr(v, f, i)
    requires Addr(v', f, BlockSlot(pos / BSIZE)) != 0 && m <= BSIZE - pos % BSIZE
    ensures MappedBelow(v', f, pos + m)
  {
    hide Addr;
    forall bn: nat | bn < MAXFILE && bn * BSIZE < pos + m ensures Addr(v', f, BlockSlot(bn)) != 0 {
      if bn * BSIZE >= pos { assert bn == pos / BSIZE; }
    }
  }

  lemma NextAligned(pos: nat, m: nat)
    requires m <= BSIZE - pos % BSIZE
    ensures m == BSIZE - pos % BSIZE ==> (pos + m) % BSIZE == 0
  {
    if m == BSIZE - pos % BSIZE { assert pos + m == (pos / BSIZE + 1) * BSIZE; }
  }

  lemma StartMapped(sb: Super, v: Vol, owner: map<nat, Slot>, f: nat, off: nat)
    requires Inv(sb, v, owner) && f < |v.inode| && off <= v.inode[f].size
    ensures MappedBelow(v, f, off)
  {
    hide Addr, Used;
    assert Mapped(sb, v, f);
  }

  function Splice(b: Block, o: nat, bytes: seq<byte>): (r: Block)
    requires o + |bytes| <= BSIZE
  {
    b[..o] + bytes + b[o + |bytes|..]
  }

  lemma SpliceRaw(v: Vol, f: nat, pos: nat, bytes: seq<byte>, k: nat, a: nat)
    requires f < |v.inode| && |v.inode[f].addrs| == NDIRECT + 1 && k < MAXBYTES && pos < MAXBYTES
    requires pos % BSIZE + |bytes| <= BSIZE && k / BSIZE == pos / BSIZE
    requires 0 < a < |v.disk| && a == Addr(v, f, BlockSlot(pos / BSIZE))
    ensures Splice(v.disk[a], pos % BSIZE, bytes)[k % BSIZE] ==
      if pos <= k < pos + |bytes| then bytes[k-pos] else Raw(v, f, k)
  {
    hide Addr;
    assert k == k / BSIZE * BSIZE + k % BSIZE && pos == pos / BSIZE * BSIZE + pos % BSIZE;
  }

  lemma SizeBound(sb: Super, v: Vol, owner: map<nat, Slot>, f: nat)
    requires Inv(sb, v, owner) && f < |v.inode|
    ensures |v.inode[f].addrs| == NDIRECT + 1 && v.inode[f].size <= MAXBYTES
  {
  }

  lemma MappedAt(sb: Super, v: Vol, f: nat, pos: nat)
    requires Shape(sb, v) && f < |v.inode| && Mapped(sb, v, f) && pos < v.inode[f].size
    ensures pos / BSIZE < MAXFILE && Addr(v, f, BlockSlot(pos / BSIZE)) != 0
  {
    assert pos / BSIZE * BSIZE <= pos;
  }

  lemma RawAt(v: Vol, f: nat, pos: nat, t: nat, addr: nat)
    requires f < |v.inode| && |v.inode[f].addrs| == NDIRECT + 1 && pos + t < MAXBYTES && pos % BSIZE + t < BSIZE
    requires 0 < addr < |v.disk| && addr == Addr(v, f, BlockSlot(pos / BSIZE))
    ensures Raw(v, f, pos + t) == v.disk[addr][pos % BSIZE + t]
  {
    hide Addr;
    SameBlock(pos, t);
  }

  lemma SameBlock(pos: nat, t: nat)
    requires pos % BSIZE + t < BSIZE
    ensures (pos + t) / BSIZE == pos / BSIZE && (pos + t) % BSIZE == pos % BSIZE + t
  {
  }

  lemma ContentSlice(v: Vol, f: nat, off: nat, m: nat, data: seq<byte>)
    requires f < |v.inode| && |v.inode[f].addrs| == NDIRECT + 1 && v.inode[f].size <= MAXBYTES
    requires off + m <= v.inode[f].size && |data| == m
    requires forall t: nat :: t < m ==> data[t] == Raw(v, f, off + t)
    ensures data == Content(v, f)[off..off+m]
  {
    hide Raw;
  }

  /** Bytes depend only on the inode and on data blocks. */
  lemma SameRaw(sb: Super, v: Vol, owner: map<nat, Slot>, v': Vol, g: nat, k: nat)
    requires Inv(sb, v, owner) && Shape(sb, v') && g < |v.inode| == |v'.inode| && k < MAXBYTES
    requires |v'.disk| == |v.disk| && (forall x: nat :: sb.data <= x < |v.disk| ==> v'.disk[x] == v.disk[x])
    requires v'.inode[g] == v.inode[g]
    ensures Raw(v', g, k) == Raw(v, g, k)
  {
    hide Used, Word, Mapped, MapExact, Owned;
    if v.inode[g].addrs[NDIRECT] != 0 { IndirectOwned(sb, v, owner, {}, g); }
    if Addr(v, g, BlockSlot(k / BSIZE)) != 0 { AddrOwned(sb, v, owner, g, BlockSlot(k / BSIZE)); }
  }

  lemma TruncatedInv(sb: Super, w: Vol, owner: map<nat, Slot>, f: nat)
    requires Core(sb, w, owner, {}, f)
    ensures Inv(sb, w.(inode := w.inode[f := w.inode[f].(size := 0)]), owner)
  {
    hide Used, Word;
    var v := w.(inode := w.inode[f := w.inode[f].(size := 0)]);
    assert forall g: nat, i: nat :: g < |v.inode| && i < SLOTS ==> Addr(v, g, i) == Addr(w, g, i);
    hide Entry, Addr;
    assert Owned(sb, v, owner, {});
    forall g: nat | g < |v.inode| && g != f ensures Mapped(sb, v, g) { assert Mapped(sb, w, g); }
  }

  lemma TruncatedUsed(sb: Super, v: Vol, owner: map<nat, Slot>, v': Vol, owner': map<nat, Slot>, f: nat)
    requires Inv(sb, v, owner) && Inv(sb, v', owner') && f < |v.inode|
    requires Kept(owner, owner',
      (set i: nat | i < NDIRECT :: Slot(f, i)) + (IndirectSlots(f, NINDIRECT) + {Slot(f, NDIRECT)}))
    ensures forall b: nat :: b < sb.size ==>
      (Used(sb, v'.disk, b) <==> Used(sb, v.disk, b) && (b == 0 || forall i: nat :: i < SLOTS ==> Addr(v, f, i) != b))
  {
    hide Used, Entry, Addr, Mapped;
    var gone := (set i: nat | i < NDIRECT :: Slot(f, i)) + (IndirectSlots(f, NINDIRECT) + {Slot(f, NDIRECT)});
    forall i: nat | i < SLOTS ensures Slot(f, i) in gone {}
    forall b: nat | b < sb.size
      ensures Used(sb, v'.disk, b) <==>
        Used(sb, v.disk, b) && (b == 0 || forall i: nat :: i < SLOTS ==> Addr(v, f, i) != b)
    {
      if b in owner && owner[b].file == f {
        assert Addr(v, f, owner[b].index) == b;
      }
      forall i: nat | b != 0 && i < SLOTS && Addr(v, f, i) == b ensures b in owner && owner[b] == Slot(f, i) {}
    }
  }

  /** The free map blocks of the addresses in slots lo to hi of file f. */
  ghost function MapsOf(sb: Super, v: Vol, f: nat, lo: nat, hi: nat): set<nat>
    requires f < |v.inode| && |v.inode[f].addrs| == NDIRECT + 1 && hi <= SLOTS
  {
    set i: nat | lo <= i < hi && Addr(v, f, i) != 0 :: sb.BBlock(Addr(v, f, i))
  }

  lemma MapsNone(sb: Super, v: Vol, f: nat, lo: nat)
    requires f < |v.inode| && |v.inode[f].addrs| == NDIRECT + 1 && lo <= SLOTS
    ensures MapsOf(sb, v, f, lo, lo) == {}
  {
  }

  lemma MapsSnoc(sb: Super, v: Vol, f: nat, lo: nat, i: nat)
    requires f < |v.inode| && |v.inode[f].addrs| == NDIRECT + 1 && lo <= i < SLOTS
    ensures MapsOf(sb, v, f, lo, i + 1) == MapsOf(sb, v, f, lo, i) + if Addr(v, f,
      i) != 0 then {sb.BBlock(Addr(v, f, i))} else {}
  {
    hide Entry, Addr;
  }

  lemma NoMaps(sb: Super, v: Vol, f: nat)
    requires f < |v.inode| && |v.inode[f].addrs| == NDIRECT + 1 && v.inode[f].addrs[NDIRECT] == 0
    ensures MapsOf(sb, v, f, NDIRECT, SLOTS) == {}
  {
    hide Word;
  }

  lemma MapsCons(sb: Super, v: Vol, f: nat)
    requires f < |v.inode| && |v.inode[f].addrs| == NDIRECT + 1 && v.inode[f].addrs[NDIRECT] != 0
    ensures MapsOf(sb, v, f, NDIRECT, SLOTS) == MapsOf(sb, v, f, NDIRECT + 1,
      SLOTS) + {sb.BBlock(v.inode[f].addrs[NDIRECT])}
  {
    DirectAddr(v, f, NDIRECT);
    hide Entry, Addr;
    var ms := MapsOf(sb, v, f, NDIRECT, SLOTS);
    assert sb.BBlock(Addr(v, f, NDIRECT)) in ms;
    forall x | x in ms ensures x in MapsOf(sb, v, f, NDIRECT + 1, SLOTS) || x == sb.BBlock(Addr(v, f, NDIRECT)) {
      var i: nat :| NDIRECT <= i < SLOTS && Addr(v, f, i) != 0 && x == sb.BBlock(Addr(v, f, i));
    }
  }

  /** With the direct blocks gone the indirect ones are where they were. */
  lemma SameIndirect(sb: Super, v: Vol, owner: map<nat, Slot>, v': Vol, f: nat)
    requires Inv(sb, v, owner) && f < |v.inode| == |v'.inode| && |v'.inode[f].addrs| == NDIRECT + 1
    requires v'.inode[f].addrs[NDIRECT] == v.inode[f].addrs[NDIRECT] && |v'.disk| == |v.disk|
    requires forall x: nat :: sb.data <= x < |v.disk| ==> v'.disk[x] == v.disk[x]
    ensures MapsOf(sb, v', f, NDIRECT, SLOTS) == MapsOf(sb, v, f, NDIRECT, SLOTS)
    ensures MapsOf(sb, v, f, 0, SLOTS) == MapsOf(sb, v, f, 0, NDIRECT) + MapsOf(sb, v, f, NDIRECT, SLOTS)
  {
    hide Used, Word, Owned, MapExact, Mapped;
    if v.inode[f].addrs[NDIRECT] != 0 { IndirectOwned(sb, v, owner, {}, f); }
    assert forall i: nat :: NDIRECT <= i < SLOTS ==> Addr(v', f, i) == Addr(v, f, i);
    hide Entry, Addr;
  }

  lemma IndirectAddr(v: Vol, f: nat, j: nat)
    requires f < |v.inode| && |v.inode[f].addrs| == NDIRECT + 1 && j < NINDIRECT
    requires 0 < v.inode[f].addrs[NDIRECT] < |v.disk|
    ensures Addr(v, f, NDIRECT + 1 + j) == Word(v.disk[v.inode[f].addrs[NDIRECT]], j)
  {
  }

  lemma EmptySlotKept(sb: Super, v: Vol, owner: map<nat, Slot>, dead: set<Slot>, f: nat, i: nat)
    requires Core(sb, v, owner, dead, f) && i < SLOTS && Addr(v, f, i) == 0
    ensures Kept(owner, owner, {Slot(f, i)})
  {
    hide Entry, Addr, Used;
  }

  lemma EmptySlotDead(sb: Super, v: Vol, owner: map<nat, Slot>, dead: set<Slot>, f: nat, i: nat)
    requires Core(sb, v, owner, dead, f) && i < SLOTS && Addr(v, f, i) == 0
    ensures Core(sb, v, owner, dead + {Slot(f, i)}, f)
  {
    hide Entry, Addr, Used, Mapped;
  }

  lemma NoIndirect(sb: Super, v: Vol, owner: map<nat, Slot>, f: nat)
    requires Core(sb, v, owner, {}, f) && v.inode[f].addrs[NDIRECT] == 0
    ensures Kept(owner, owner, IndirectSlots(f, NINDIRECT) + {Slot(f, NDIRECT)})
    ensures v.inode[f].addrs[NDIRECT := 0] == v.inode[f].addrs && v.inode == v.inode[f := v.inode[f]]
  {
    hide Used, Word, Mapped, MapExact;
    forall i: nat | NDIRECT <= i < SLOTS ensures Addr(v, f, i) == 0 {}
  }

  lemma NothingKept(o: map<nat, Slot>)
    ensures Kept(o, o, {})
  {
  }

  lemma KeptTrans(o: map<nat, Slot>, o1: map<nat, Slot>, o2: map<nat, Slot>, a: set<Slot>, b: set<Slot>)
    requires Kept(o, o1, a) && Kept(o1, o2, b)
    ensures Kept(o, o2, a + b)
  {
  }

  /** Ownership after the slots in `gone` have been given up. */
  ghost predicate Kept(owner: map<nat, Slot>, owner': map<nat, Slot>, gone: set<Slot>) {
    && (forall b :: b in owner' ==> b in owner && owner'[b] == owner[b] && owner[b] !in gone)
    && (forall b :: b in owner && owner[b] !in gone ==> b in owner')
  }

  lemma DirectAddr(v: Vol, f: nat, i: nat)
    requires f < |v.inode| && |v.inode[f].addrs| == NDIRECT + 1 && i <= NDIRECT
    ensures Addr(v, f, i) == v.inode[f].addrs[i]
  {
  }
}
