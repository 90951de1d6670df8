/** Which volumes leave room in one transaction for the last unlink of a file:
    sys_unlink, and the itrunc that iput then does (kernel/sysfile.c, kernel/fs.c). */
module FsLimits {
  import opened Blocks
  import opened Volume
  import opened FsCode
  import opened LogProtocol

  const DIRENT: nat := 16

  /** A name at offset off of directory d is the last one of file f. */
  ghost predicate Unlinkable(sb: Super, v: Vol, owner: map<nat, Slot>, d: nat, off: nat, f: nat) {
    && Inv(sb, v, owner) && 1 <= d < |v.inode| && 1 <= f < |v.inode| && d != f
    && off % DIRENT == 0 && off + DIRENT <= v.inode[d].size
  }

  lemma EntryBlock(sb: Super, v: Vol, owner: map<nat, Slot>, d: nat, off: nat, f: nat)
    requires Unlinkable(sb, v, owner, d, off, f)
    ensures |v.inode[d].addrs| == |v.inode[f].addrs| == NDIRECT + 1 && off / BSIZE < MAXFILE
      && off % BSIZE + DIRENT <= BSIZE
    ensures WriteFits(v.inode[d].size, off, DIRENT) && Addr(v, d, BlockSlot(off / BSIZE)) != 0
  {
    hide Used, Entry, Addr, Owned, MapExact;
    assert Mapped(sb, v, d);
    var q, o := off / BSIZE, off % BSIZE;
    assert off == q * BSIZE + o;
    assert off % DIRENT == o % DIRENT by { ModOf16(q, o); }
  }

  lemma ModOf16(q: nat, o: nat)
    ensures (q * BSIZE + o) % DIRENT == o % DIRENT
  {
    var s, t := o / DIRENT, o % DIRENT;
    assert q * BSIZE + o == DIRENT * (64 * q + s) + t;
    Rest(64 * q + s, t);
  }

  lemma Rest(q: nat, t: nat)
    requires t < DIRENT
    ensures (DIRENT * q + t) % DIRENT == t
  {
  }

  /** The blocks that unlinking the last name of f logs: the block of the entry,
      the two inode blocks, and the free map blocks of all blocks of f. */
  ghost function UnlinkLog(sb: Super, v: Vol, owner: map<nat, Slot>, d: nat, off: nat, f: nat): set<nat>
    requires Unlinkable(sb, v, owner, d, off, f)
  {
    EntryBlock(sb, v, owner, d, off, f);
    {Addr(v, d, BlockSlot(off / BSIZE)), sb.IBlock(d), sb.IBlock(f)} + MapsOf(sb, v, f, 0, SLOTS)
  }

  /** sys_unlink after its checks, and iput's freeing of the inode. */
  method UnlinkLast(fs: Fs, d: nat, off: nat, f: nat)
    requires Unlinkable(fs.sb, fs.View(), fs.owner, d, off, f) && |fs.dinode| == |fs.inode|
    modifies fs
    ensures fs.Valid() && |fs.inode| == |old(fs.inode)| && fs.inode[f] == NO_INO
    ensures fs.logged == UnlinkLog(fs.sb, old(fs.View()), old(fs.owner), d, off, f)
  {
    hide Inv, Overlay, WriteCost, MapsOf, WriteFits, Addr;
    EntryBlock(fs.sb, fs.View(), fs.owner, d, off, f);
    ghost var v := fs.View();
    fs.logged := {};                                   // begin_op
    var r, panic;
    ghost var tot, end, extra;
    r, panic, tot, end, extra := fs.Writei(d, off, DIRENT, seq(DIRENT, i => 0), true);
    SameMaps(fs.sb, v, fs.View(), d, off, seq(DIRENT, i => 0)[..end], f);
    fs.Iupdate(f);
    fs.Itrunc(f);
    fs.Iupdate(f);
  }

  lemma SameMaps(sb: Super, v: Vol, v': Vol, d: nat, off: nat, bytes: seq<byte>, f: nat)
    requires Overlay(v, v', d, off, bytes) && f < |v.inode| && f != d
    ensures |v.inode[f].addrs| == |v'.inode[f].addrs| == NDIRECT + 1
      && MapsOf(sb, v', f, 0, SLOTS) == MapsOf(sb, v, f, 0, SLOTS)
  {
    hide Entry, Addr, Raw;
    assert forall i: nat :: i < SLOTS ==> Addr(v', f, i) == Addr(v, f, i);
  }

  // ----- how many blocks that can be

  /** Inode blocks come before the free map, as kernel/fs.h lays a volume out. */
  ghost predicate InOrder(sb: Super) { forall f: nat :: f < sb.ninodes ==> sb.IBlock(f) < sb.bmapstart }

  /** The blocks of the free map that describe data blocks. */
  function MapCount(sb: Super): int { if sb.data < sb.size then (sb.size - 1) / BPB - sb.data / BPB + 1 else 0 }

  /** Every last unlink on a volume with this superblock fits a reservation. */
  ghost predicate UnlinkFits(sb: Super) {
    forall v, owner, d, off, f :: Unlinkable(sb, v, owner, d, off, f) ==>
      |UnlinkLog(sb, v, owner, d, off, f)| <= MAXOPBLOCKS
  }

  lemma {:induction false} RangeSize(s: set<nat>, lo: nat, n: nat)
    requires forall x :: x in s ==> lo <= x < lo + n
    ensures |s| <= n
    decreases n
  {
    if n == 0 {
      assert s == {};
    } else {
      RangeSize(s - {lo + n - 1}, lo, n - 1);
    }
  }

  lemma MapsBound(sb: Super, v: Vol, owner: map<nat, Slot>, f: nat)
    requires Inv(sb, v, owner) && f < |v.inode| && sb.data < sb.size
    ensures |MapsOf(sb, v, f, 0, SLOTS)| <= MapCount(sb)
  {
    hide Used, Entry, Addr, MapExact, Mapped;
    var ms := MapsOf(sb, v, f, 0, SLOTS);
    forall x | x in ms ensures sb.data / BPB + sb.bmapstart <= x < sb.data / BPB + sb.bmapstart + MapCount(sb) {
      var i: nat :| i < SLOTS && Addr(v, f, i) != 0 && x == sb.BBlock(Addr(v, f, i));
      assert sb.data <= Addr(v, f, i) <= sb.size - 1;
    }
    RangeSize(ms, sb.data / BPB + sb.bmapstart, MapCount(sb));
  }

  lemma FitsWhen(sb: Super, v: Vol, owner: map<nat, Slot>, d: nat, off: nat, f: nat)
    requires Unlinkable(sb, v, owner, d, off, f) && MapCount(sb) + (if sb.ninodes > IPB then 3 else 2) <= MAXOPBLOCKS
    ensures |UnlinkLog(sb, v, owner, d, off, f)| <= MAXOPBLOCKS
  {
    hide Inv, MapsOf, Addr;
    EntryBlock(sb, v, owner, d, off, f);
    DataBlock(sb, v, owner, d, BlockSlot(off / BSIZE));
    MapsBound(sb, v, owner, f);
    var head := {Addr(v, d, BlockSlot(off / BSIZE)), sb.IBlock(d), sb.IBlock(f)};
    assert |head| <= if sb.ninodes > IPB then 3 else 2 by {
      if sb.ninodes <= IPB { assert head == {Addr(v, d, BlockSlot(off / BSIZE)), sb.inodestart}; }
    }
    UnionSize(head, MapsOf(sb, v, f, 0, SLOTS));
  }

  lemma DataBlock(sb: Super, v: Vol, owner: map<nat, Slot>, f: nat, i: nat)
    requires Inv(sb, v, owner) && f < |v.inode| && i < SLOTS && Addr(v, f, i) != 0
    ensures sb.data <= Addr(v, f, i) < sb.size && |v.inode| == sb.ninodes
  {
    hide Used, Entry, Addr, MapExact, Mapped;
  }

  // ----- a file whose blocks are spread over the free map

  /** A data block for each block of the free map, and one more for the directory. */
  function Pick(sb: Super, k: nat): nat { if k == 0 then sb.data else (sb.data / BPB + k) * BPB }

  function Seat(sb: Super): nat { (sb.data / BPB + 1) * BPB + 1 }

  lemma PickIs(sb: Super, k: nat)
    requires sb.Ok() && k < MapCount(sb)
    ensures sb.data <= Pick(sb, k) < sb.size && sb.BBlock(Pick(sb, k)) == sb.data / BPB + k + sb.bmapstart
      && Pick(sb, k) != Seat(sb)
  {
    var q := sb.data / BPB + k;
    if k > 0 {
      BitPosition(q, 0);
      BitPosition(sb.data / BPB + 1, 1);
      assert q <= (sb.size - 1) / BPB;
    }
  }

  lemma SeatIs(sb: Super)
    requires sb.Ok() && MapCount(sb) >= 3
    ensures sb.data <= Seat(sb) < sb.size
  {
    assert (sb.data / BPB + 2) * BPB <= (sb.size - 1) / BPB * BPB;
  }

  /** Directory d has one block, and file f the first k picks. */
  ghost predicate Spread(sb: Super, v: Vol, owner: map<nat, Slot>, d: nat, f: nat, k: nat) {
    && Inv(sb, v, owner) && d < |v.inode| && f < |v.inode| && d != f
    && (forall i: nat :: i < SLOTS ==> Addr(v, d, i) == if i == 0 then Seat(sb) else 0)
    && (forall i: nat :: i < SLOTS ==> Addr(v, f, i) == if i < k then Pick(sb, i) else 0)
    && (forall b :: b in owner ==> b == Seat(sb) || exists i: nat :: i < k && b == Pick(sb, i))
  }

  lemma SpreadNone(sb: Super, d: nat, f: nat) returns (v: Vol, owner: map<nat, Slot>)
    requires sb.Ok() && MapCount(sb) >= 3 && d < sb.ninodes && f < sb.ninodes && d != f
    ensures Spread(sb, v, owner, d, f, 0)
  {
    hide Used, Mark, Marked, Word, Grow, Owned, MapExact, Mapped;
    FreshInv(sb);
    SeatIs(sb);
    var v0 := FreshVol(sb);
    assert forall g: nat, i: nat :: g < |v0.inode| && i < SLOTS ==> Addr(v0, g, i) == 0;
    hide Entry, Addr, FreshVol;
    FreeAt(sb, v0, map[], Seat(sb));
    GrowKeeps(sb, v0, map[], d, 0, Seat(sb));
    GrowShape(sb, v0, map[], d, 0, Seat(sb));
    v, owner := Grow(sb, v0, d, 0, Seat(sb)), map[Seat(sb) := Slot(d, 0)];
    assert map[][Seat(sb) := Slot(d, 0)] == owner;
    forall g: nat, i: nat | g < |v.inode| && i < SLOTS
      ensures Addr(v, g, i) == if g == d && i == 0 then Seat(sb) else 0 {
      GrowEntry(sb, v0, map[], d, 0, Seat(sb), g, i);
    }
  }

  lemma FreeAt(sb: Super, v: Vol, owner: map<nat, Slot>, b: nat)
    requires Inv(sb, v, owner) && sb.data <= b < sb.size && b !in owner
    ensures sb.BBlock(b) < |v.disk| && !Used(sb, v.disk, b)
  {
    hide Used, Entry, Addr, Mapped;
    assert MapExact(sb, v, owner);
  }

  lemma {:induction false} SpreadReach(sb: Super, d: nat, f: nat, k: nat) returns (v: Vol, owner: map<nat, Slot>)
    requires sb.Ok() && MapCount(sb) >= 3 && d < sb.ninodes && f < sb.ninodes && d != f && k <= MapCount(sb)
      && k <= NDIRECT
    ensures Spread(sb, v, owner, d, f, k)
  {
    hide Spread, Pick, MapCount;
    if k == 0 {
      v, owner := SpreadNone(sb, d, f);
    } else {
      v, owner := SpreadReach(sb, d, f, k - 1);
      v, owner := SpreadMore(sb, v, owner, d, f, k - 1);
    }
  }

  lemma SpreadMore(sb: Super, v: Vol, owner: map<nat, Slot>, d: nat, f: nat, k: nat)
      returns (v': Vol, owner': map<nat, Slot>)
    requires sb.Ok() && Spread(sb, v, owner, d, f, k) && k < MapCount(sb) && k < NDIRECT
    ensures Spread(sb, v', owner', d, f, k + 1)
  {
    hide Inv, Used, Entry, Addr, Grow, Pick, Seat;
    var b := Pick(sb, k);
    PickIs(sb, k);
    forall i: nat | i < k ensures Pick(sb, i) != b { PickIs(sb, i); }
    FreeAt(sb, v, owner, b);
    InodeShape(sb, v, owner, f);
    GrowKeeps(sb, v, owner, f, k, b);
    GrowShape(sb, v, owner, f, k, b);
    v', owner' := Grow(sb, v, f, k, b), owner[b := Slot(f, k)];
    forall g: nat, i: nat | g < |v.inode| && i < SLOTS
      ensures Addr(v', g, i) == if g == f && i == k then b else Addr(v, g, i) {
      GrowEntry(sb, v, owner, f, k, b, g, i);
    }
    forall c | c in owner' ensures c == Seat(sb) || exists i: nat :: i < k + 1 && c == Pick(sb, i) {
      if c != b && c != Seat(sb) {
        var i: nat :| i < k && c == Pick(sb, i);
      }
    }
  }

  /** n numbers from lo on. */
  ghost function Run(lo: nat, n: nat): (s: set<nat>)
    ensures |s| == n && forall x :: x in s <==> lo <= x < lo + n
  {
    if n == 0 then {} else
      var s := Run(lo, n - 1);
      assert lo + n - 1 !in s;
      s + {lo + n - 1}
  }

  lemma SpreadMaps(sb: Super, v: Vol, owner: map<nat, Slot>, d: nat, f: nat, k: nat)
    requires sb.Ok() && Spread(sb, v, owner, d, f, k) && k <= MapCount(sb) && k <= NDIRECT
    ensures |v.inode[f].addrs| == NDIRECT + 1 && Run(sb.data / BPB + sb.bmapstart, k) <= MapsOf(sb, v, f, 0, SLOTS)
  {
    hide Used, Entry, Addr, Pick, Owned, MapExact, Mapped;
    forall x | x in Run(sb.data / BPB + sb.bmapstart, k) ensures x in MapsOf(sb, v, f, 0, SLOTS) {
      var i: nat := x - (sb.data / BPB + sb.bmapstart);
      PickIs(sb, i);
      assert Addr(v, f, i) == Pick(sb, i) != 0;
    }
  }

  /** The directory and the file get the sizes of their blocks. */
  lemma SpreadUnlinkable(sb: Super, v: Vol, owner: map<nat, Slot>, d: nat, f: nat, k: nat) returns (v': Vol)
    requires sb.Ok() && Spread(sb, v, owner, d, f, k) && d >= 1 && f >= 1 && k <= MapCount(sb) && k <= NDIRECT
      && MapCount(sb) >= 3
    ensures Unlinkable(sb, v', owner, d, 0, f) && |v'.inode[d].addrs| == |v'.inode[f].addrs| == NDIRECT + 1
    ensures Addr(v', d, BlockSlot(0)) == Seat(sb) && MapsOf(sb, v', f, 0, SLOTS) == MapsOf(sb, v, f, 0, SLOTS)
  {
    hide Used, Pick, Seat, Owned, MapExact, Mapped;
    SeatIs(sb);
    var v1 := v.(inode := v.inode[d := v.inode[d].(size := BSIZE)]);
    forall bn: nat | bn < MAXFILE && bn * BSIZE < BSIZE ensures Addr(v, d, BlockSlot(bn)) != 0 { assert bn == 0; }
    SizeKeeps(sb, v, owner, d, BSIZE);
    assert forall i: nat :: i < SLOTS ==> Addr(v1, f, i) == Addr(v, f, i);
    forall bn: nat | bn < MAXFILE && bn * BSIZE < k * BSIZE ensures Addr(v1, f, BlockSlot(bn)) != 0 { PickIs(sb, bn); }
    SizeKeeps(sb, v1, owner, f, k * BSIZE);
    v' := v1.(inode := v1.inode[f := v1.inode[f].(size := k * BSIZE)]);
    assert forall i: nat :: i < SLOTS ==> Addr(v', f, i) == Addr(v, f, i);
    assert Addr(v', d, 0) == Addr(v, d, 0);
  }

  lemma TooMany(sb: Super)
    requires sb.Ok() && InOrder(sb) && sb.ninodes >= 3
      && MapCount(sb) + (if sb.ninodes > IPB then 3 else 2) > MAXOPBLOCKS
    ensures !UnlinkFits(sb)
  {
    hide Inv, Addr, MapsOf, Spread, Unlinkable;
    var d, f, k := 1, if sb.ninodes > IPB then 16 else 2, MAXOPBLOCKS + 1 - if sb.ninodes > IPB then 3 else 2;
    var v0, owner := SpreadReach(sb, d, f, k);
    SpreadMaps(sb, v0, owner, d, f, k);
    var v := SpreadUnlinkable(sb, v0, owner, d, f, k);
    SeatIs(sb);
    PickIs(sb, k - 1);
    var maps, head := Run(sb.data / BPB + sb.bmapstart, k), {Seat(sb), sb.IBlock(d), sb.IBlock(f)};
    assert sb.BBlock(Pick(sb, k - 1)) < sb.data;
    assert head !! maps;
    assert |head + maps| == |head| + |maps|;
    assert head + maps <= UnlinkLog(sb, v, owner, d, 0, f);
    SubsetSize(head + maps, UnlinkLog(sb, v, owner, d, 0, f));
  }

  /** The last unlink of a file always fits a transaction if and only if the free
      map has at most seven blocks for data, or eight with all inodes in one block. */
  lemma UnlinkFitsIff(sb: Super)
    requires sb.Ok() && InOrder(sb)
    ensures UnlinkFits(sb) <==> sb.ninodes < 3 || MapCount(sb) + (if sb.ninodes > IPB then 3 else 2) <= MAXOPBLOCKS
  {
    hide InOrder, Unlinkable, UnlinkLog, MapCount;
    if sb.ninodes >= 3 && MapCount(sb) + (if sb.ninodes > IPB then 3 else 2) > MAXOPBLOCKS {
      TooMany(sb);
    } else {
      forall v, owner, d, off, f | Unlinkable(sb, v, owner, d, off, f)
        ensures |UnlinkLog(sb, v, owner, d, off, f)| <= MAXOPBLOCKS {
        EnoughInodes(sb, v, owner, d, off, f);
        FitsWhen(sb, v, owner, d, off, f);
      }
    }
  }

  lemma EnoughInodes(sb: Super, v: Vol, owner: map<nat, Slot>, d: nat, off: nat, f: nat)
    requires Unlinkable(sb, v, owner, d, off, f)
    ensures sb.ninodes >= 3
  {
    hide Used, Entry, Addr, Owned, MapExact, Mapped;
  }
}
