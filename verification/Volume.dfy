/** A file system volume as the block layer sees it: the free bitmap, inodes
    with direct and indirect block addresses, and which slot owns each block. */
module Volume {
  import opened Blocks

  const NDIRECT: nat := 12
  const NINDIRECT: nat := 256
  const MAXFILE: nat := 268
  const BPB: nat := 8192
  const IPB: nat := 16

  /** Slots of a file: NDIRECT direct addresses, the indirect block's own
      address, then the NINDIRECT addresses stored in the indirect block. */
  const SLOTS: nat := 269

  /** The parts of the superblock the block layer uses; `data` is the first
      block not holding metadata. */
  datatype Super = Super(size: nat, data: nat, bmapstart: nat, inodestart: nat, ninodes: nat) {
    predicate Ok() {
      && 1 <= data <= size <= 0x1_0000_0000
      && (forall b: nat :: b < size ==> BBlock(b) < data)
      && (forall f: nat :: f < ninodes ==> IBlock(f) < data)
    }
    /** The blocks balloc can search: its counter is a 32-bit int, and C says
        nothing about what happens once it would pass 2^31. */
    function Reach(): nat { if size < 0x8000_0000 then size else 0x8000_0000 }
    function BBlock(b: nat): nat { b / BPB + bmapstart }
    function IBlock(f: nat): nat { f / IPB + inodestart }
  }

  datatype Ino = Ino(size: nat, addrs: seq<nat>)

  datatype Slot = Slot(file: nat, index: nat)

  // ----- bits of the free map

  /** x & (1 << k) */
  predicate Bit(x: nat, k: nat) {
    if k == 0 then x % 2 == 1 else Bit(x / 2, k - 1)
  }

  /** x | (1 << k), or x & ~(1 << k) */
  function PutBit(x: nat, k: nat, on: bool): (r: nat) {
    if k == 0 then x / 2 * 2 + (if on then 1 else 0) else 2 * PutBit(x / 2, k - 1, on) + x % 2
  }

  function Exp2(m: nat): (r: nat) { if m == 0 then 1 else 2 * Exp2(m - 1) }

  lemma {:induction false} PutBitWidth(x: nat, k: nat, on: bool, m: nat)
    requires x < Exp2(m) && k < m
    ensures PutBit(x, k, on) < Exp2(m)
  {
    if k > 0 { PutBitWidth(x / 2, k - 1, on, m - 1); }
  }

  lemma Exp2Of8()
    ensures Exp2(8) == 0x100
  {
    assert Exp2(4) == 16;
  }

  lemma HalfOf(q: nat, r: nat)
    requires r < 2
    ensures (2 * q + r) / 2 == q && (2 * q + r) % 2 == r
  {
  }

  /** Changing one bit of a byte changes no other. */
  lemma {:induction false} PutBitGet(x: nat, k: nat, on: bool, j: nat)
    ensures Bit(PutBit(x, k, on), j) <==> if j == k then on else Bit(x, j)
  {
    var y := PutBit(x, k, on);
    if k == 0 {
      HalfOf(x / 2, if on then 1 else 0);
      assert y / 2 == x / 2;
    } else {
      HalfOf(PutBit(x / 2, k - 1, on), x % 2);
      assert y / 2 == PutBit(x / 2, k - 1, on) && y % 2 == x % 2;
      if j > 0 { PutBitGet(x / 2, k - 1, on, j - 1); }
    }
  }

  function PutByteBit(x: byte, k: nat, on: bool): (r: byte)
    requires k < 8
  {
    Exp2Of8();
    PutBitWidth(x, k, on, 8);
    PutBit(x, k, on)
  }

  // ----- the free map on disk

  /** The bit of block b in the free map. */
  predicate Used(sb: Super, disk: seq<Block>, b: nat)
    requires sb.BBlock(b) < |disk|
  {
    Bit(disk[sb.BBlock(b)][b % BPB / 8], b % 8)
  }

  function Mark(sb: Super, disk: seq<Block>, b: nat, on: bool): (disk': seq<Block>)
    requires sb.BBlock(b) < |disk|
    ensures |disk'| == |disk|
  {
    var bm, i := disk[sb.BBlock(b)], b % BPB / 8;
    disk[sb.BBlock(b) := bm[i := PutByteBit(bm[i], b % 8, on)]]
  }

  /** Marking a block changes the bit of that block and no other. */
  lemma MarkGet(sb: Super, disk: seq<Block>, b: nat, on: bool, c: nat)
    requires sb.BBlock(b) < |disk| && sb.BBlock(c) < |disk|
    ensures Used(sb, Mark(sb, disk, b, on), c) <==> if c == b then on else Used(sb, disk, c)
  {
    hide Bit, PutBit;
    var x := disk[sb.BBlock(b)][b % BPB / 8];
    PutBitGet(x, b % 8, on, c % 8);
    if sb.BBlock(b) == sb.BBlock(c) && b % BPB / 8 == c % BPB / 8 && b % 8 == c % 8 {
      SameBit(b, c);
    }
  }

  lemma BitIndex(b: nat)
    ensures b % BPB % 8 == b % 8
  {
    var q, r := b / BPB, b % BPB;
    var s, t := r / 8, r % 8;
    assert b == 8 * (1024 * q + s) + t;
    assert b % 8 == t by { ModOf(1024 * q + s, t); }
  }

  lemma ModOf(q: nat, t: nat)
    requires t < 8
    ensures (8 * q + t) % 8 == t
  {
  }

  lemma SameBit(b: nat, c: nat)
    requires b / BPB == c / BPB && b % BPB / 8 == c % BPB / 8 && b % 8 == c % 8
    ensures b == c
  {
    BitIndex(b);
    BitIndex(c);
    var rb, rc := b % BPB, c % BPB;
    assert rb == rc;
  }

  // ----- block addresses

  datatype Vol = Vol(disk: seq<Block>, inode: seq<Ino>)

  function ZeroBlock(): Block { seq(BSIZE, i => 0) }

  /** The address in slot i of an inode; 0 means no block. */
  function Entry(disk: seq<Block>, ino: Ino, i: nat): (a: nat)
    requires |ino.addrs| == NDIRECT + 1 && i < SLOTS
  {
    if i <= NDIRECT then ino.addrs[i]
    else if 0 < ino.addrs[NDIRECT] < |disk| then Word(disk[ino.addrs[NDIRECT]], i - NDIRECT - 1)
    else 0
  }

  /** The slot that holds the address of the bn-th block of a file. */
  function BlockSlot(bn: nat): (i: nat)
    requires bn < MAXFILE
    ensures i < SLOTS && i != NDIRECT
  {
    if bn < NDIRECT then bn else bn + 1
  }

  predicate Shape(sb: Super, v: Vol) {
    && sb.Ok() && |v.disk| >= sb.size && |v.inode| == sb.ninodes
    && forall f :: 0 <= f < |v.inode| ==> |v.inode[f].addrs| == NDIRECT + 1 && v.inode[f].size <= MAXFILE * BSIZE
  }

  function Addr(v: Vol, f: nat, i: nat): (a: nat)
    requires f < |v.inode| && |v.inode[f].addrs| == NDIRECT + 1 && i < SLOTS
  {
    Entry(v.disk, v.inode[f], i)
  }

  /** Every address in a slot belongs to that slot alone, except that slots in
      `dead` have already given theirs up. */
  ghost predicate Owned(sb: Super, v: Vol, owner: map<nat, Slot>, dead: set<Slot>)
    requires Shape(sb, v)
  {
    && (forall f: nat, i: nat :: f < |v.inode| && i < SLOTS && Slot(f, i) !in dead && Addr(v, f, i) != 0 ==>
          Addr(v, f, i) in owner && owner[Addr(v, f, i)] == Slot(f, i))
    && (forall b: nat :: b in owner ==>
          && sb.data <= b < sb.size
          && owner[b].file < |v.inode| && owner[b].index < SLOTS && owner[b] !in dead
          && Addr(v, owner[b].file, owner[b].index) == b)
  }

  /** The free map says exactly what is in use: metadata and owned blocks. */
  ghost predicate MapExact(sb: Super, v: Vol, owner: map<nat, Slot>)
    requires Shape(sb, v)
  {
    forall b: nat :: b < sb.size ==> (Used(sb, v.disk, b) <==> b < sb.data || b in owner)
  }

  /** Every block below the size of file f has an address. */
  ghost predicate Mapped(sb: Super, v: Vol, f: nat)
    requires Shape(sb, v) && f < |v.inode|
  {
    forall bn: nat :: bn < MAXFILE && bn * BSIZE < v.inode[f].size ==> Addr(v, f, BlockSlot(bn)) != 0
  }

  ghost predicate Inv(sb: Super, v: Vol, owner: map<nat, Slot>) {
    && Shape(sb, v)
    && Owned(sb, v, owner, {})
    && MapExact(sb, v, owner)
    && forall f: nat :: f < |v.inode| ==> Mapped(sb, v, f)
  }

  /** No block belongs to two slots. */
  lemma NoSharing(sb: Super, v: Vol, owner: map<nat, Slot>, f: nat, i: nat, g: nat, j: nat)
    requires Inv(sb, v, owner)
    requires f < |v.inode| && i < SLOTS && g < |v.inode| && j < SLOTS && Slot(f, i) != Slot(g, j)
    ensures Addr(v, f, i) != 0 ==> Addr(v, f, i) != Addr(v, g, j)
  {
    hide Entry, Used;
  }

  /** The used blocks are the metadata and the blocks in some slot. */
  lemma UsedExactly(sb: Super, v: Vol, owner: map<nat, Slot>, b: nat)
    requires Inv(sb, v, owner) && b < sb.size
    ensures Used(sb, v.disk, b) <==>
      b < sb.data || exists f: nat, i: nat :: f < |v.inode| && i < SLOTS && Addr(v, f, i) == b
  {
    hide Entry, Used;
    if b >= sb.data {
      if b in owner {
        var x := owner[b];
        assert Addr(v, x.file, x.index) == b;
      }
      if f: nat, i: nat :| f < |v.inode| && i < SLOTS && Addr(v, f, i) == b {
        assert owner[b] == Slot(f, i);
      }
    }
  }

  // ----- a new volume

  /** The bits of the first n blocks set. */
  function Marked(sb: Super, disk: seq<Block>, n: nat): (disk': seq<Block>)
    requires forall b: nat :: b < n ==> sb.BBlock(b) < |disk|
    ensures |disk'| == |disk|
  {
    if n == 0 then disk else Mark(sb, Marked(sb, disk, n - 1), n - 1, true)
  }

  lemma {:induction false} MarkedUsed(sb: Super, disk: seq<Block>, n: nat, c: nat)
    requires (forall b: nat :: b < n ==> sb.BBlock(b) < |disk|) && sb.BBlock(c) < |disk|
    ensures Used(sb, Marked(sb, disk, n), c) <==> c < n || Used(sb, disk, c)
  {
    hide Used, Mark;
    if n > 0 {
      MarkedUsed(sb, disk, n - 1, c);
      MarkGet(sb, Marked(sb, disk, n - 1), n - 1, true, c);
    }
  }

  lemma {:induction false} ZeroBit(k: nat)
    ensures !Bit(0, k)
  {
    if k > 0 { ZeroBit(k - 1); }
  }

  const NO_INO := Ino(0, seq(NDIRECT + 1, i => 0))

  /** Empty inodes, and a free map with the metadata in use. */
  function FreshVol(sb: Super): Vol
    requires sb.Ok()
  {
    Vol(Marked(sb, seq(sb.size, i => ZeroBlock()), sb.data), seq(sb.ninodes, i => NO_INO))
  }

  lemma FreshInv(sb: Super)
    requires sb.Ok()
    ensures Inv(sb, FreshVol(sb), map[])
  {
    hide Used, Mark, Marked, Word;
    var v, zeros := FreshVol(sb), seq(sb.size, i => ZeroBlock());
    assert forall f: nat, i: nat :: f < |v.inode| && i < SLOTS ==> Addr(v, f, i) == 0;
    hide Entry, Addr;
    forall b: nat | b < sb.size ensures Used(sb, v.disk, b) <==> b < sb.data {
      MarkedUsed(sb, zeros, sb.data, b);
      ZeroUsed(sb, zeros, b);
    }
    assert Owned(sb, v, map[], {}) && MapExact(sb, v, map[]);
    forall f: nat | f < |v.inode| ensures Mapped(sb, v, f) {}
  }

  lemma ZeroUsed(sb: Super, disk: seq<Block>, b: nat)
    requires sb.BBlock(b) < |disk| && disk[sb.BBlock(b)] == ZeroBlock()
    ensures !Used(sb, disk, b)
  {
    ZeroBit(b % 8);
  }

  // ----- giving a block to an empty slot

  /** Store address b in slot i of file f. */
  function SetEntry(v: Vol, f: nat, i: nat, b: nat): (v': Vol)
    requires f < |v.inode| && |v.inode[f].addrs| == NDIRECT + 1 && i < SLOTS && b < 0x1_0000_0000
    requires i > NDIRECT ==> 0 < v.inode[f].addrs[NDIRECT] < |v.disk|
  {
    var ino := v.inode[f];
    if i <= NDIRECT then v.(inode := v.inode[f := ino.(addrs := ino.addrs[i := b])])
    else v.(disk := v.disk[ino.addrs[NDIRECT] := SetWord(v.disk[ino.addrs[NDIRECT]], i - NDIRECT - 1, b)])
  }

  /** balloc's effect on the disk. */
  function Allocate(sb: Super, disk: seq<Block>, b: nat): (disk': seq<Block>)
    requires sb.BBlock(b) < |disk| && b < |disk|
    ensures |disk'| == |disk|
  {
    Mark(sb, disk, b, true)[b := ZeroBlock()]
  }

  function Grow(sb: Super, v: Vol, f: nat, i: nat, b: nat): (v': Vol)
    requires f < |v.inode| && |v.inode[f].addrs| == NDIRECT + 1 && i < SLOTS && b < 0x1_0000_0000
    requires sb.BBlock(b) < |v.disk| && b < |v.disk|
    requires i > NDIRECT ==> 0 < v.inode[f].addrs[NDIRECT] < |v.disk|
  {
    SetEntry(v.(disk := Allocate(sb, v.disk, b)), f, i, b)
  }

  /** b can be given to slot i of file f. */
  ghost predicate CanGrow(sb: Super, v: Vol, owner: map<nat, Slot>, f: nat, i: nat, b: nat) {
    && Inv(sb, v, owner) && f < |v.inode| && i < SLOTS && b < sb.size && !Used(sb, v.disk, b)
    && Addr(v, f, i) == 0
    && (i > NDIRECT ==> 0 < v.inode[f].addrs[NDIRECT] < |v.disk|)
  }

  /** An inode's indirect block is an owned data block. */
  lemma IndirectOwned(sb: Super, v: Vol, owner: map<nat, Slot>, dead: set<Slot>, g: nat)
    requires Shape(sb, v) && Owned(sb, v, owner, dead) && g < |v.inode| && Slot(g, NDIRECT) !in dead
    requires v.inode[g].addrs[NDIRECT] != 0
    ensures var a := v.inode[g].addrs[NDIRECT];
      a in owner && owner[a] == Slot(g, NDIRECT) && sb.data <= a < sb.size
  {
    assert Addr(v, g, NDIRECT) == v.inode[g].addrs[NDIRECT];
  }

  lemma ZeroWord(i: nat)
    requires i < WORDS
    ensures Word(ZeroBlock(), i) == 0
  {
  }

  /** A free block is a data block nobody owns. */
  lemma FreeIsUnowned(sb: Super, v: Vol, owner: map<nat, Slot>, b: nat)
    requires Shape(sb, v) && MapExact(sb, v, owner) && b < sb.size && !Used(sb, v.disk, b)
    ensures sb.data <= b && b !in owner
  {
  }

  lemma AllocateFrame(sb: Super, disk: seq<Block>, b: nat, x: nat)
    requires sb.BBlock(b) < |disk| && b < |disk| && x < |disk| && x != b && x != sb.BBlock(b)
    ensures Allocate(sb, disk, b)[x] == disk[x]
  {
    hide PutByteBit;
  }

  /** Growing slot (f, i) sets that slot and leaves every other as it was. */
  lemma GrowEntry(sb: Super, v: Vol, owner: map<nat, Slot>, f: nat, i: nat, b: nat, g: nat, j: nat)
    requires CanGrow(sb, v, owner, f, i, b) && g < |v.inode| && j < SLOTS
    ensures Shape(sb, Grow(sb, v, f, i, b))
    ensures Addr(Grow(sb, v, f, i, b), g, j) == if g == f && j == i then b else Addr(v, g, j)
  {
    hide Used, Mark, Word, SetWord, ZeroBlock, Owned, MapExact, Mapped, Allocate;
    FreeIsUnowned(sb, v, owner, b);
    var v' := Grow(sb, v, f, i, b);
    var ind := v.inode[g].addrs[NDIRECT];
    if ind != 0 {
      IndirectOwned(sb, v, owner, {}, g);
      AllocateFrame(sb, v.disk, b, ind);
    }
    if i > NDIRECT {
      var jnd := v.inode[f].addrs[NDIRECT];
      IndirectOwned(sb, v, owner, {}, f);
      if g == f && j > NDIRECT {
        SetWordGet(Allocate(sb, v.disk, b)[jnd], i - NDIRECT - 1, b, j - NDIRECT - 1);
      }
    } else if i == NDIRECT && g == f && j > NDIRECT {
      AllocateAt(sb, v.disk, b);
      ZeroWord(j - NDIRECT - 1);
    }
  }

  lemma AllocateAt(sb: Super, disk: seq<Block>, b: nat)
    requires sb.BBlock(b) < |disk| && b < |disk|
    ensures Allocate(sb, disk, b)[b] == ZeroBlock()
  {
  }

  lemma GrowUsed(sb: Super, v: Vol, owner: map<nat, Slot>, f: nat, i: nat, b: nat, c: nat)
    requires CanGrow(sb, v, owner, f, i, b) && c < sb.size
    ensures |Grow(sb, v, f, i, b).disk| == |v.disk|
    ensures Used(sb, Grow(sb, v, f, i, b).disk, c) <==> c == b || Used(sb, v.disk, c)
  {
    hide Word, SetWord, ZeroBlock, Owned, MapExact, Mapped, Bit, PutByteBit;
    FreeIsUnowned(sb, v, owner, b);
    MarkGet(sb, v.disk, b, true, c);
    if i > NDIRECT { IndirectOwned(sb, v, owner, {}, f); }
    assert Grow(sb, v, f, i, b).disk[sb.BBlock(c)] == Mark(sb, v.disk, b, true)[sb.BBlock(c)];
  }

  /** bmap's allocation keeps ownership, the free map and the mapping. */
  lemma GrowKeeps(sb: Super, v: Vol, owner: map<nat, Slot>, f: nat, i: nat, b: nat)
    requires CanGrow(sb, v, owner, f, i, b)
    ensures Inv(sb, Grow(sb, v, f, i, b), owner[b := Slot(f, i)])
  {
    hide Used, Mark, Word, SetWord, ZeroBlock, Allocate, Entry, Addr, Grow;
    var v', owner' := Grow(sb, v, f, i, b), owner[b := Slot(f, i)];
    FreeIsUnowned(sb, v, owner, b);
    GrowShape(sb, v, owner, f, i, b);
    assert forall g: nat, j: nat :: g < |v.inode| && j < SLOTS ==>
      Addr(v', g, j) == if g == f && j == i then b else Addr(v, g, j) by {
      forall g: nat, j: nat | g < |v.inode| && j < SLOTS
        ensures Addr(v', g, j) == if g == f && j == i then b else Addr(v, g, j)
      { GrowEntry(sb, v, owner, f, i, b, g, j); }
    }
    assert MapExact(sb, v', owner') by {
      forall c: nat | c < sb.size ensures Used(sb, v'.disk, c) <==> c < sb.data || c in owner' {
        GrowUsed(sb, v, owner, f, i, b, c);
      }
    }
    assert Owned(sb, v', owner', {});
    forall g: nat | g < |v'.inode| ensures Mapped(sb, v', g) {
      assert Mapped(sb, v, g);
    }
  }

  lemma GrowShape(sb: Super, v: Vol, owner: map<nat, Slot>, f: nat, i: nat, b: nat)
    requires CanGrow(sb, v, owner, f, i, b)
    ensures var v' := Grow(sb, v, f, i, b);
      && Shape(sb, v') && |v'.inode| == |v.inode| && |v'.disk| == |v.disk|
      && forall g :: 0 <= g < |v.inode| ==> v'.inode[g].size == v.inode[g].size
  {
    hide Used, Word, SetWord, ZeroBlock, Owned, MapExact, Mapped, Mark;
    if i > NDIRECT { IndirectOwned(sb, v, owner, {}, f); }
  }

  // ----- bytes of a file

  const MAXBYTES: nat := MAXFILE * BSIZE

  /** Byte k of file f; bytes with no block behind them are zero. */
  function Raw(v: Vol, f: nat, k: nat): (x: byte)
    requires f < |v.inode| && |v.inode[f].addrs| == NDIRECT + 1 && k < MAXBYTES
  {
    var a := Addr(v, f, BlockSlot(k / BSIZE));
    if 0 < a < |v.disk| then v.disk[a][k % BSIZE] else 0
  }

  /** The content of a file: a flat sequence of size bytes. */
  function Content(v: Vol, f: nat): (s: seq<byte>)
    requires f < |v.inode| && |v.inode[f].addrs| == NDIRECT + 1 && v.inode[f].size <= MAXBYTES
  {
    seq(v.inode[f].size, k requires 0 <= k < v.inode[f].size => Raw(v, f, k))
  }

  lemma AddrOwned(sb: Super, v: Vol, owner: map<nat, Slot>, f: nat, i: nat)
    requires Inv(sb, v, owner) && f < |v.inode| && i < SLOTS && Addr(v, f, i) != 0
    ensures var a := Addr(v, f, i);
      a in owner && owner[a] == Slot(f, i) && sb.data <= a < sb.size && Used(sb, v.disk, a)
  {
    hide Entry, Used;
  }

  /** Allocation changes no byte of any file. */
  lemma GrowRaw(sb: Super, v: Vol, owner: map<nat, Slot>, f: nat, i: nat, b: nat, g: nat, k: nat)
    requires CanGrow(sb, v, owner, f, i, b) && g < |v.inode| && k < MAXBYTES
    ensures Shape(sb, Grow(sb, v, f, i, b)) && Raw(Grow(sb, v, f, i, b), g, k) == Raw(v, g, k)
  {
    hide Used, Mark, Word, SetWord, ZeroBlock, Owned, MapExact, Mapped, Allocate, Entry, Addr;
    var j := BlockSlot(k / BSIZE);
    GrowEntry(sb, v, owner, f, i, b, g, j);
    GrowShape(sb, v, owner, f, i, b);
    FreeIsUnowned(sb, v, owner, b);
    AllocateAt(sb, v.disk, b);
    if i > NDIRECT { IndirectOwned(sb, v, owner, {}, f); }
    if g == f && j == i {
      assert Grow(sb, v, f, i, b).disk[b] == ZeroBlock();
      ZeroBytes(k % BSIZE);
    } else if Addr(v, g, j) != 0 {
      AddrOwned(sb, v, owner, g, j);
      AllocateFrame(sb, v.disk, b, Addr(v, g, j));
    }
  }

  lemma ZeroBytes(k: nat)
    requires k < BSIZE
    ensures ZeroBlock()[k] == 0
  {
  }

  // ----- writing the data of a mapped block

  function Put(v: Vol, a: nat, blk: Block): (v': Vol)
    requires a < |v.disk|
  {
    v.(disk := v.disk[a := blk])
  }

  lemma PutEntry(sb: Super, v: Vol, owner: map<nat, Slot>, f: nat, bn: nat, blk: Block, g: nat, j: nat)
    requires Inv(sb, v, owner) && f < |v.inode| && bn < MAXFILE && Addr(v, f, BlockSlot(bn)) != 0
    requires g < |v.inode| && j < SLOTS
    ensures Addr(v, f, BlockSlot(bn)) < |v.disk|
    ensures var v' := Put(v, Addr(v, f, BlockSlot(bn)), blk); Shape(sb, v') && Addr(v', g, j) == Addr(v, g, j)
  {
    hide Used, Word, Owned, MapExact, Mapped;
    AddrOwned(sb, v, owner, f, BlockSlot(bn));
    if v.inode[g].addrs[NDIRECT] != 0 { IndirectOwned(sb, v, owner, {}, g); }
  }

  lemma PutUsed(sb: Super, v: Vol, owner: map<nat, Slot>, f: nat, bn: nat, blk: Block, c: nat)
    requires Inv(sb, v, owner) && f < |v.inode| && bn < MAXFILE && Addr(v, f, BlockSlot(bn)) != 0 && c < sb.size
    ensures Addr(v, f, BlockSlot(bn)) < |v.disk|
    ensures Used(sb, Put(v, Addr(v, f, BlockSlot(bn)), blk).disk, c) <==> Used(sb, v.disk, c)
  {
    hide Word, Entry, Bit, Mapped;
    AddrOwned(sb, v, owner, f, BlockSlot(bn));
  }

  /** Overwriting a data block keeps the invariant and changes that block of
      that file only. */
  lemma PutKeeps(sb: Super, v: Vol, owner: map<nat, Slot>, f: nat, bn: nat, blk: Block)
    requires Inv(sb, v, owner) && f < |v.inode| && bn < MAXFILE && Addr(v, f, BlockSlot(bn)) != 0
    ensures Addr(v, f, BlockSlot(bn)) < |v.disk|
    ensures Inv(sb, Put(v, Addr(v, f, BlockSlot(bn)), blk), owner)
  {
    hide Used, Word, Entry, Addr;
    AddrOwned(sb, v, owner, f, BlockSlot(bn));
    var v' := Put(v, Addr(v, f, BlockSlot(bn)), blk);
    forall g: nat, j: nat | g < |v.inode| && j < SLOTS ensures Addr(v', g, j) == Addr(v, g, j) {
      PutEntry(sb, v, owner, f, bn, blk, g, j);
    }
    assert Owned(sb, v', owner, {});
    forall c: nat | c < sb.size ensures Used(sb, v'.disk, c) <==> Used(sb, v.disk, c) {
      PutUsed(sb, v, owner, f, bn, blk, c);
    }
    assert MapExact(sb, v', owner);
    forall g: nat | g < |v'.inode| ensures Mapped(sb, v', g) { assert Mapped(sb, v, g); }
  }

  lemma PutRaw(sb: Super, v: Vol, owner: map<nat, Slot>, f: nat, bn: nat, blk: Block, g: nat, k: nat)
    requires Inv(sb, v, owner) && f < |v.inode| && bn < MAXFILE && Addr(v, f, BlockSlot(bn)) != 0
    requires g < |v.inode| && k < MAXBYTES
    ensures Addr(v, f, BlockSlot(bn)) < |v.disk|
    ensures Raw(Put(v, Addr(v, f, BlockSlot(bn)), blk), g, k) == if g == f && k / BSIZE == bn then blk[k % BSIZE]
      else Raw(v, g, k)
  {
    hide Used, Word, Entry, Owned, MapExact, Mapped, Addr;
    AddrOwned(sb, v, owner, f, BlockSlot(bn));
    PutEntry(sb, v, owner, f, bn, blk, g, BlockSlot(k / BSIZE));
    if Addr(v, g, BlockSlot(k / BSIZE)) != 0 { AddrOwned(sb, v, owner, g, BlockSlot(k / BSIZE)); }
  }

  // ----- truncation

  /** The invariant while file f is being truncated: slots in `dead` still show
      an address that has been given back. */
  ghost predicate Core(sb: Super, v: Vol, owner: map<nat, Slot>, dead: set<Slot>, f: nat) {
    && Shape(sb, v) && f < |v.inode|
    && Owned(sb, v, owner, dead)
    && MapExact(sb, v, owner)
    && (forall g: nat :: g < |v.inode| && g != f ==> Mapped(sb, v, g))
    && (forall x :: x in dead ==> x.file == f)
  }

  /** bfree's effect. */
  function Free(sb: Super, v: Vol, b: nat): (v': Vol)
    requires sb.BBlock(b) < |v.disk|
  {
    v.(disk := Mark(sb, v.disk, b, false))
  }

  lemma FreeEntry(sb: Super, v: Vol, owner: map<nat, Slot>, dead: set<Slot>, f: nat, b: nat, g: nat, j: nat)
    requires Core(sb, v, owner, dead, f) && b < sb.size && g < |v.inode| && j < SLOTS
    requires Slot(f, NDIRECT) !in dead
    ensures Shape(sb, Free(sb, v, b)) && Addr(Free(sb, v, b), g, j) == Addr(v, g, j)
  {
    hide Used, Word, Owned, MapExact, Mapped, PutByteBit;
    if v.inode[g].addrs[NDIRECT] != 0 { IndirectOwned(sb, v, owner, dead, g); }
  }

  /** Freeing the block of a live slot: its bit was set, and the slot is dead. */
  lemma FreeKeeps(sb: Super, v: Vol, owner: map<nat, Slot>, dead: set<Slot>, f: nat, i: nat)
    requires Core(sb, v, owner, dead, f) && i < SLOTS && Slot(f, i) !in dead && Addr(v, f, i) != 0
    requires Slot(f, NDIRECT) !in dead
    ensures var b := Addr(v, f, i);
      && b < sb.size && Used(sb, v.disk, b) && b in owner && owner[b] == Slot(f, i)
      && Core(sb, Free(sb, v, b), owner - {b}, dead + {Slot(f, i)}, f)
  {
    hide Used, Word, Entry, Addr, Free;
    var b := Addr(v, f, i);
    var v', owner', dead' := Free(sb, v, b), owner - {b}, dead + {Slot(f, i)};
    FreeShape(sb, v, b);
    forall g: nat, j: nat | g < |v.inode| && j < SLOTS ensures Addr(v', g, j) == Addr(v, g, j) {
      FreeEntry(sb, v, owner, dead, f, b, g, j);
    }
    assert Owned(sb, v', owner', dead');
    forall c: nat | c < sb.size ensures Used(sb, v'.disk, c) <==> c < sb.data || c in owner' {
      FreeUsed(sb, v, b, c);
    }
    assert MapExact(sb, v', owner');
    forall g: nat | g < |v'.inode| && g != f ensures Mapped(sb, v', g) { assert Mapped(sb, v, g); }
  }

  lemma FreeShape(sb: Super, v: Vol, b: nat)
    requires Shape(sb, v) && b < sb.size
    ensures Shape(sb, Free(sb, v, b)) && Free(sb, v, b).inode == v.inode
  {
    hide PutByteBit;
  }

  lemma FreeUsed(sb: Super, v: Vol, b: nat, c: nat)
    requires Shape(sb, v) && b < sb.size && c < sb.size
    ensures Used(sb, Free(sb, v, b).disk, c) <==> c != b && Used(sb, v.disk, c)
  {
    hide Used, Mark;
    MarkGet(sb, v.disk, b, false, c);
  }

  function ClearAddr(v: Vol, f: nat, i: nat): (v': Vol)
    requires f < |v.inode| && i < |v.inode[f].addrs|
  {
    v.(inode := v.inode[f := v.inode[f].(addrs := v.inode[f].addrs[i := 0])])
  }

  /** Zeroing a dead direct slot brings it back to life, empty. */
  lemma ClearKeeps(sb: Super, v: Vol, owner: map<nat, Slot>, f: nat, i: nat)
    requires Core(sb, v, owner, {Slot(f, i)}, f) && i < NDIRECT
    ensures Core(sb, ClearAddr(v, f, i), owner, {}, f)
    ensures forall j: nat :: j < SLOTS ==> Addr(ClearAddr(v, f, i), f, j) == if j == i then 0 else Addr(v, f, j)
  {
    hide Used, Word;
    var v' := ClearAddr(v, f, i);
    assert forall g: nat, j: nat :: g < |v.inode| && j < SLOTS ==>
      Addr(v', g, j) == if g == f && j == i then 0 else Addr(v, g, j);
    hide Entry, Addr;
    assert Owned(sb, v', owner, {});
    forall g: nat | g < |v'.inode| && g != f ensures Mapped(sb, v', g) { assert Mapped(sb, v, g); }
  }

  /** All slots from the indirect block on. */
  ghost function IndirectSlots(f: nat, n: nat): set<Slot> {
    set j: nat | NDIRECT < j < NDIRECT + 1 + n :: Slot(f, j)
  }

  /** With the indirect block and everything in it freed, forgetting its address empties those slots. */
  lemma ClearIndirectKeeps(sb: Super, v: Vol, owner: map<nat, Slot>, f: nat)
    requires Core(sb, v, owner, IndirectSlots(f, NINDIRECT) + {Slot(f, NDIRECT)}, f)
    ensures Core(sb, ClearAddr(v, f, NDIRECT), owner, {}, f)
    ensures forall j: nat :: j < SLOTS ==>
      Addr(ClearAddr(v, f, NDIRECT), f, j) == if j >= NDIRECT then 0 else Addr(v, f, j)
  {
    hide Used, Word;
    var v' := ClearAddr(v, f, NDIRECT);
    assert forall g: nat, j: nat :: g < |v.inode| && j < SLOTS ==>
      Addr(v', g, j) == if g == f && j >= NDIRECT then 0 else Addr(v, g, j);
    hide Entry, Addr;
    forall j: nat | NDIRECT <= j < SLOTS ensures Slot(f, j) in IndirectSlots(f, NINDIRECT) + {Slot(f, NDIRECT)} {}
    assert Owned(sb, v', owner, {});
    forall g: nat | g < |v'.inode| && g != f ensures Mapped(sb, v', g) { assert Mapped(sb, v, g); }
  }
}
