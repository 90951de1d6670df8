/** The free list of the user-level allocator (user/umalloc.c), as a value:
    blocks in address order, counted in header-sized units, with the static
    header `base` first. */
module FreeLists {
  const UNIT := 16

  /** `size` units starting at byte address `addr`, the header included. */
  datatype Block = Block(addr: nat, size: nat)

  function End(b: Block): nat { b.addr + UNIT * b.size }

  /** Blocks in increasing address order, no two of them adjacent. */
  predicate Apart(f: seq<Block>) {
    forall i, j :: 0 <= i < j < |f| ==> End(f[i]) < f[j].addr
  }

  predicate FreeList(base: nat, f: seq<Block>) {
    && |f| >= 1 && f[0] == Block(base, 0)
    && (forall i :: 1 <= i < |f| ==> f[i].size >= 1)
    && Apart(f)
  }

  /** The unit addresses a block covers, and those a list covers. */
  predicate IsUnit(b: Block, x: nat) { b.addr <= x < End(b) && (x - b.addr) % UNIT == 0 }

  function Units(b: Block): set<nat> { set x: nat | x < End(b) && IsUnit(b, x) }

  function Cells(f: seq<Block>): set<nat> {
    if f == [] then {} else Units(f[0]) + Cells(f[1..])
  }

  predicate Overlap(a: Block, b: Block) { a.addr < End(b) && b.addr < End(a) }

  // ----- cells

  lemma {:induction false} CellsConcat(f: seq<Block>, g: seq<Block>)
    ensures Cells(f + g) == Cells(f) + Cells(g)
  {
    if f == [] {
      assert f + g == g;
    } else {
      assert (f + g)[1..] == f[1..] + g;
      CellsConcat(f[1..], g);
    }
  }

  lemma CellsOne(b: Block)
    ensures Cells([b]) == Units(b)
  {
    assert [b][1..] == [];
  }

  lemma {:induction false} CellsAt(f: seq<Block>, i: nat)
    requires i < |f|
    ensures Units(f[i]) <= Cells(f)
  {
    if i > 0 { CellsAt(f[1..], i - 1); }
  }

  lemma {:induction false} InCells(f: seq<Block>, x: nat) returns (i: nat)
    requires x in Cells(f)
    ensures i < |f| && x in Units(f[i])
  {
    if x in Units(f[0]) {
      i := 0;
    } else {
      var j := InCells(f[1..], x);
      i := j + 1;
    }
  }

  lemma InUnits(b: Block, x: nat)
    requires x in Units(b)
    ensures b.addr <= x && x + UNIT <= End(b)
  {
    var k := (x - b.addr) / UNIT;
    assert x == b.addr + UNIT * k;
  }

  lemma ShiftMod(x: int, m: nat)
    ensures (x - UNIT * m) % UNIT == x % UNIT
  {
  }

  lemma UnitsSplit(a: nat, m: nat, n: nat)
    ensures Units(Block(a, m + n)) == Units(Block(a, m)) + Units(Block(a + UNIT * m, n))
  {
    var whole, low, high := Block(a, m + n), Block(a, m), Block(a + UNIT * m, n);
    forall x: nat ensures IsUnit(whole, x) <==> IsUnit(low, x) || IsUnit(high, x) {
      ShiftMod(x - a, m);
    }
    hide IsUnit;
    assert Units(whole) == Units(low) + Units(high);
  }

  // ----- the list is a canonical form of the cells it covers

  lemma Covers(f: seq<Block>)
    requires forall i :: 0 <= i < |f| ==> f[i].size >= 1
    ensures f != [] ==> Cells(f) != {}
  {
    if f != [] {
      CellsAt(f, 0);
      assert IsUnit(f[0], f[0].addr);
      assert f[0].addr in Units(f[0]);
    }
  }

  lemma FirstCell(f: seq<Block>, g: seq<Block>)
    requires f != [] && g != [] && Apart(f) && Apart(g) && Cells(f) == Cells(g)
    requires (forall i :: 0 <= i < |f| ==> f[i].size >= 1) && (forall i :: 0 <= i < |g| ==> g[i].size >= 1)
    ensures g[0].addr <= f[0].addr
  {
    var x := f[0].addr;
    assert IsUnit(f[0], x);
    CellsAt(f, 0);
    var j := InCells(g, x);
    InUnits(g[j], x);
  }

  lemma FirstSize(f: seq<Block>, g: seq<Block>)
    requires f != [] && g != [] && Apart(f) && Cells(g) <= Cells(f) && f[0].addr == g[0].addr
    ensures g[0].size <= f[0].size
  {
    if f[0].size < g[0].size {
      var x := End(f[0]);
      assert IsUnit(g[0], x);
      CellsAt(g, 0);
      var j := InCells(f, x);
      InUnits(f[j], x);
    }
  }

  lemma TailCells(f: seq<Block>, x: nat)
    requires f != [] && Apart(f)
    ensures x in Cells(f[1..]) <==> x in Cells(f) && x !in Units(f[0])
  {
    if x in Cells(f[1..]) && x in Units(f[0]) {
      var i := InCells(f[1..], x);
      InUnits(f[1..][i], x);
      InUnits(f[0], x);
    }
  }

  /** Two lists of maximal free blocks over the same cells are equal. */
  lemma {:induction false} Canonical(f: seq<Block>, g: seq<Block>)
    requires Apart(f) && Apart(g) && Cells(f) == Cells(g)
    requires (forall i :: 0 <= i < |f| ==> f[i].size >= 1) && (forall i :: 0 <= i < |g| ==> g[i].size >= 1)
    ensures f == g
  {
    if f == [] || g == [] {
      Covers(f);
      Covers(g);
    } else {
      hide Cells, Units;
      FirstCell(f, g);
      FirstCell(g, f);
      FirstSize(f, g);
      FirstSize(g, f);
      forall x ensures x in Cells(f[1..]) <==> x in Cells(g[1..]) {
        TailCells(f, x);
        TailCells(g, x);
      }
      Canonical(f[1..], g[1..]);
      assert f == [f[0]] + f[1..] && g == [g[0]] + g[1..];
    }
  }

  lemma FreeListCells(base: nat, f: seq<Block>)
    requires FreeList(base, f)
    ensures Cells(f) == Cells(f[1..])
  {
    assert Units(f[0]) == {};
  }

  lemma FreeListCanonical(base: nat, f: seq<Block>, g: seq<Block>)
    requires FreeList(base, f) && FreeList(base, g) && Cells(f) == Cells(g)
    ensures f == g
  {
    FreeListCells(base, f);
    FreeListCells(base, g);
    Canonical(f[1..], g[1..]);
    assert f == [f[0]] + f[1..] && g == [g[0]] + g[1..];
  }

  // ----- putting a block back

  predicate Above(f: seq<Block>, t: nat, b: Block)
    requires t < |f|
  {
    t + 1 < |f| && End(b) == f[t + 1].addr
  }

  /** f with b in place of the blocks lo up to hi. */
  function Replace(f: seq<Block>, lo: nat, b: Block, hi: nat): seq<Block>
    requires lo <= hi <= |f|
  {
    f[..lo] + [b] + f[hi..]
  }

  /** free's effect: `b` goes in after index `t`, merged with its neighbours
      where it touches them. */
  function Insert(f: seq<Block>, t: nat, b: Block): seq<Block>
    requires t < |f|
  {
    var n := b.size + (if Above(f, t, b) then f[t + 1].size else 0);
    var hi := if Above(f, t, b) then t + 2 else t + 1;
    if End(f[t]) == b.addr then Replace(f, t, Block(f[t].addr, f[t].size + n), hi)
    else Replace(f, t + 1, Block(b.addr, n), hi)
  }

  /** Index `t` is where `b` belongs: after f[t] and before f[t + 1]. */
  predicate Gap(base: nat, f: seq<Block>, t: nat, b: Block) {
    && FreeList(base, f) && t < |f| && b.size >= 1 && base < b.addr
    && End(f[t]) <= b.addr
    && (t + 1 < |f| ==> End(b) <= f[t + 1].addr)
  }

  lemma ReplaceKeeps(base: nat, f: seq<Block>, lo: nat, b: Block, hi: nat)
    requires FreeList(base, f) && 1 <= lo <= hi <= |f| && b.size >= 1
    requires End(f[lo - 1]) < b.addr && (hi < |f| ==> End(b) < f[hi].addr)
    ensures FreeList(base, Replace(f, lo, b, hi))
  {
    var g := Replace(f, lo, b, hi);
    forall i | 0 <= i < lo ensures g[i] == f[i] && End(f[i]) < b.addr {}
    forall i | lo < i < |g| ensures g[i] == f[hi + (i - lo - 1)] && End(b) < g[i].addr {}
  }

  lemma ReplaceCells(f: seq<Block>, lo: nat, b: Block, hi: nat)
    requires lo <= hi <= |f|
    ensures Cells(Replace(f, lo, b, hi)) == Cells(f[..lo]) + Units(b) + Cells(f[hi..])
  {
    JoinCells(f[..lo], b, f[hi..]);
  }

  lemma InsertKeeps(base: nat, f: seq<Block>, t: nat, b: Block)
    requires Gap(base, f, t, b)
    ensures FreeList(base, Insert(f, t, b))
  {
    hide Replace;
    var n := b.size + (if Above(f, t, b) then f[t + 1].size else 0);
    var hi := if Above(f, t, b) then t + 2 else t + 1;
    if End(f[t]) == b.addr {
      assert t >= 1;
      ReplaceKeeps(base, f, t, Block(f[t].addr, f[t].size + n), hi);
    } else {
      ReplaceKeeps(base, f, t + 1, Block(b.addr, n), hi);
    }
  }

  lemma InsertCells(base: nat, f: seq<Block>, t: nat, b: Block)
    requires Gap(base, f, t, b)
    ensures Cells(Insert(f, t, b)) == Cells(f) + Units(b)
  {
    hide Replace, FreeList, Cells, Units;
    var n := b.size + (if Above(f, t, b) then f[t + 1].size else 0);
    var hi := if Above(f, t, b) then t + 2 else t + 1;
    var above := if hi == t + 2 then Units(f[t + 1]) else {};
    assert Units(Block(b.addr, n)) == Units(b) + above by {
      if Above(f, t, b) { UnitsSplit(b.addr, b.size, f[t + 1].size); }
    }
    SplitCells(f, t, hi);
    if End(f[t]) == b.addr {
      UnitsSplit(f[t].addr, f[t].size, n);
      ReplaceCells(f, t, Block(f[t].addr, f[t].size + n), hi);
    } else {
      ReplaceCells(f, t + 1, Block(b.addr, n), hi);
      PrefixCells(f, t);
    }
  }

  lemma PrefixCells(f: seq<Block>, t: nat)
    requires t < |f|
    ensures Cells(f[..t + 1]) == Cells(f[..t]) + Units(f[t])
  {
    hide Units;
    assert f[..t + 1] == f[..t] + [f[t]];
    CellsConcat(f[..t], [f[t]]);
    CellsOne(f[t]);
  }

  lemma JoinCells(f: seq<Block>, b: Block, g: seq<Block>)
    ensures Cells(f + [b] + g) == Cells(f) + Units(b) + Cells(g)
  {
    hide Cells, Units;
    CellsConcat(f + [b], g);
    CellsConcat(f, [b]);
    CellsOne(b);
  }

  lemma SplitCells(f: seq<Block>, t: nat, d: nat)
    requires t < d <= |f| && t + 1 <= d <= t + 2
    ensures Cells(f) == Cells(f[..t]) + Units(f[t]) + (if d == t + 2 then Units(f[t + 1]) else {}) + Cells(f[d..])
  {
    hide Units;
    assert f == f[..t] + [f[t]] + f[t + 1..];
    JoinCells(f[..t], f[t], f[t + 1..]);
    if d == t + 2 { assert f[t + 1..][1..] == f[t + 2..]; }
  }

  // ----- taking a block out

  /** malloc's effect: `n` units leave block `i`, from its high end. */
  function Take(f: seq<Block>, i: nat, n: nat): seq<Block>
    requires i < |f| && n <= f[i].size
  {
    if f[i].size == n then f[..i] + f[i + 1..] else Replace(f, i, Block(f[i].addr, f[i].size - n), i + 1)
  }

  function Taken(f: seq<Block>, i: nat, n: nat): Block
    requires i < |f| && n <= f[i].size
  {
    Block(f[i].addr + UNIT * (f[i].size - n), n)
  }

  lemma TakeKeeps(base: nat, f: seq<Block>, i: nat, n: nat)
    requires FreeList(base, f) && i < |f| && 1 <= n <= f[i].size
    ensures FreeList(base, Take(f, i, n))
  {
    if f[i].size == n {
      var g := f[..i] + f[i + 1..];
      forall j | 0 <= j < |g| ensures g[j] == f[if j < i then j else j + 1] {}
    } else {
      hide Replace;
      ReplaceKeeps(base, f, i, Block(f[i].addr, f[i].size - n), i + 1);
    }
  }

  lemma TakeCells(base: nat, f: seq<Block>, i: nat, n: nat)
    requires FreeList(base, f) && i < |f| && 1 <= n <= f[i].size
    ensures Cells(f) == Cells(Take(f, i, n)) + Units(Taken(f, i, n))
  {
    hide Replace, FreeList, Cells, Units;
    UnitsSplit(f[i].addr, f[i].size - n, n);
    SplitCells(f, i, i + 1);
    if f[i].size == n {
      assert Taken(f, i, n) == f[i];
      CellsConcat(f[..i], f[i + 1..]);
    } else {
      ReplaceCells(f, i, Block(f[i].addr, f[i].size - n), i + 1);
    }
  }

  /** What is taken overlaps no block that is left. */
  lemma TakenApart(base: nat, f: seq<Block>, i: nat, n: nat, j: nat)
    requires FreeList(base, f) && i < |f| && 1 <= n <= f[i].size && j < |Take(f, i, n)|
    ensures !Overlap(Taken(f, i, n), Take(f, i, n)[j])
  {
  }

  /** free undoes malloc: the same list, block for block, comes back. */
  lemma InsertUndoesTake(base: nat, f: seq<Block>, i: nat, n: nat, t: nat)
    requires FreeList(base, f) && i < |f| && 1 <= n <= f[i].size
    requires Gap(base, Take(f, i, n), t, Taken(f, i, n))
    ensures Insert(Take(f, i, n), t, Taken(f, i, n)) == f
  {
    var g, b := Take(f, i, n), Taken(f, i, n);
    TakeCells(base, f, i, n);
    InsertCells(base, g, t, b);
    InsertKeeps(base, g, t, b);
    FreeListCanonical(base, Insert(g, t, b), f);
  }

  /** The order in which two blocks are freed does not matter. */
  lemma InsertsCommute(base: nat, f: seq<Block>, a: Block, b: Block, ta: nat, tb: nat, ta': nat, tb': nat)
    requires Gap(base, f, ta, a) && Gap(base, Insert(f, ta, a), tb', b)
    requires Gap(base, f, tb, b) && Gap(base, Insert(f, tb, b), ta', a)
    ensures Insert(Insert(f, ta, a), tb', b) == Insert(Insert(f, tb, b), ta', a)
  {
    var fa, fb := Insert(f, ta, a), Insert(f, tb, b);
    InsertCells(base, f, ta, a);
    InsertCells(base, f, tb, b);
    InsertCells(base, fa, tb', b);
    InsertCells(base, fb, ta', a);
    InsertKeeps(base, fa, tb', b);
    InsertKeeps(base, fb, ta', a);
    FreeListCanonical(base, Insert(fa, tb', b), Insert(fb, ta', a));
  }
}

/** What the program holds, beside the free list. */
module Holdings {
  import opened FreeLists

  function Held(held: map<nat, nat>, a: nat): Block
    requires a in held
  {
    Block(a, held[a])
  }

  function HeldCells(held: map<nat, nat>): set<nat> {
    set a, x | a in held && x in Units(Held(held, a)) :: x
  }

  predicate Inside(base: nat, brk: nat, b: Block) { b.size >= 1 && base + UNIT <= b.addr && End(b) <= brk }

  /** All blocks, free or held, are inside the heap and none overlap. */
  predicate Tiled(base: nat, brk: nat, f: seq<Block>, held: map<nat, nat>) {
    && FreeList(base, f)
    && (forall i :: 1 <= i < |f| ==> Inside(base, brk, f[i]))
    && (forall a :: a in held ==> Inside(base, brk, Held(held, a)))
    && (forall a, i :: a in held && 0 <= i < |f| ==> !Overlap(Held(held, a), f[i]))
    && (forall a, b :: a in held && b in held && a != b ==> !Overlap(Held(held, a), Held(held, b)))
  }

  lemma HeldAdd(held: map<nat, nat>, a: nat, n: nat)
    requires a !in held
    ensures HeldCells(held[a := n]) == HeldCells(held) + Units(Block(a, n))
  {
    hide Units;
    var held' := held[a := n];
    forall b | b in held ensures Held(held', b) == Held(held, b) {}
    assert Held(held', a) == Block(a, n);
    forall x: nat | x in HeldCells(held') ensures x in HeldCells(held) + Units(Block(a, n)) {
      var b :| b in held' && x in Units(Held(held', b));
      if b != a { assert x in Units(Held(held, b)); }
    }
    forall x: nat | x in HeldCells(held) ensures x in HeldCells(held') {
      var b :| b in held && x in Units(Held(held, b));
      assert x in Units(Held(held', b));
    }
    forall x: nat | x in Units(Block(a, n)) ensures x in HeldCells(held') {
      assert x in Units(Held(held', a));
    }
  }

  lemma HeldDrop(held: map<nat, nat>, a: nat)
    requires a in held
    ensures HeldCells(held) == HeldCells(held - {a}) + Units(Held(held, a))
  {
    var rest := held - {a};
    assert rest[a := held[a]] == held;
    HeldAdd(rest, a, held[a]);
  }

  /** Every held block lies in a gap of the free list. */
  lemma HeldGap(base: nat, brk: nat, f: seq<Block>, held: map<nat, nat>, a: nat, t: nat)
    requires Tiled(base, brk, f, held) && a in held && t < |f|
    requires f[t].addr < a && (t + 1 < |f| ==> a < f[t + 1].addr)
    ensures Gap(base, f, t, Held(held, a))
  {
    assert Inside(base, brk, Held(held, a));
    assert !Overlap(Held(held, a), f[t]);
    if t + 1 < |f| { assert !Overlap(Held(held, a), f[t + 1]); }
  }

  lemma InsertedApart(base: nat, f: seq<Block>, t: nat, b: Block, c: Block, i: nat)
    requires Gap(base, f, t, b) && i < |Insert(f, t, b)| && c.size >= 1 && !Overlap(c, b)
    requires forall k :: 0 <= k < |f| ==> !Overlap(c, f[k])
    ensures !Overlap(c, Insert(f, t, b)[i])
  {
    assert !Overlap(c, f[t]);
    assert Above(f, t, b) ==> !Overlap(c, f[t + 1]);
  }

  lemma InsertInside(base: nat, brk: nat, f: seq<Block>, t: nat, b: Block, i: nat)
    requires Gap(base, f, t, b) && 1 <= i < |Insert(f, t, b)| && Inside(base, brk, b)
    requires forall k :: 1 <= k < |f| ==> Inside(base, brk, f[k])
    ensures Inside(base, brk, Insert(f, t, b)[i])
  {
    assert t >= 1 ==> Inside(base, brk, f[t]);
    assert Above(f, t, b) ==> Inside(base, brk, f[t + 1]);
  }

  lemma FreeTiled(base: nat, brk: nat, f: seq<Block>, held: map<nat, nat>, a: nat, t: nat)
    requires Tiled(base, brk, f, held) && a in held && Gap(base, f, t, Held(held, a))
    ensures Tiled(base, brk, Insert(f, t, Held(held, a)), held - {a})
  {
    var b := Held(held, a);
    var g, held' := Insert(f, t, b), held - {a};
    InsertKeeps(base, f, t, b);
    hide Insert, Overlap, FreeList, Gap, Inside;
    forall c | c in held' ensures Held(held', c) == Held(held, c) {}
    forall i | 1 <= i < |g| ensures Inside(base, brk, g[i]) { InsertInside(base, brk, f, t, b, i); }
    forall c, i | c in held' && 0 <= i < |g| ensures !Overlap(Held(held', c), g[i]) {
      HeldSize(base, brk, f, held, c);
      InsertedApart(base, f, t, b, Held(held, c), i);
    }
  }

  lemma HeldSize(base: nat, brk: nat, f: seq<Block>, held: map<nat, nat>, a: nat)
    requires Tiled(base, brk, f, held) && a in held
    ensures held[a] >= 1
  {
    assert Inside(base, brk, Held(held, a));
  }

  lemma TakeAt(f: seq<Block>, i: nat, n: nat, j: nat) returns (k: nat)
    requires i < |f| && 1 <= n <= f[i].size && j < |Take(f, i, n)|
    ensures k < |f| && (j >= 1 && i >= 1 ==> k >= 1) && Take(f, i, n)[j].addr == f[k].addr
      && Take(f, i, n)[j].size <= f[k].size
    ensures (f[i].size != n && j == i) || Take(f, i, n)[j] == f[k]
  {
    k := if f[i].size == n && j >= i then j + 1 else j;
  }

  lemma TakeTiled(base: nat, brk: nat, f: seq<Block>, held: map<nat, nat>, i: nat, n: nat)
    requires Tiled(base, brk, f, held) && 1 <= i < |f| && 1 <= n <= f[i].size
    ensures Taken(f, i, n).addr !in held
    ensures Tiled(base, brk, Take(f, i, n), held[Taken(f, i, n).addr := n])
  {
    var b := Taken(f, i, n);
    var g, held' := Take(f, i, n), held[b.addr := n];
    TakeKeeps(base, f, i, n);
    assert Inside(base, brk, b) by { assert Inside(base, brk, f[i]); }
    forall c | c in held ensures c != b.addr && !Overlap(Held(held, c), b) {
      assert Inside(base, brk, Held(held, c)) && !Overlap(Held(held, c), f[i]);
    }
    hide FreeList;
    forall j | 1 <= j < |g| ensures Inside(base, brk, g[j]) {
      var k := TakeAt(f, i, n, j);
      assert Inside(base, brk, f[k]);
    }
    hide Take, Inside;
    forall c | c in held ensures Held(held', c) == Held(held, c) {}
    assert Held(held', b.addr) == b;
    forall c, j | c in held' && 0 <= j < |g| ensures !Overlap(Held(held', c), g[j]) {
      if c == b.addr {
        TakenApart(base, f, i, n, j);
      } else {
        var k := TakeAt(f, i, n, j);
        assert !Overlap(Held(held, c), f[k]);
      }
    }
  }

  /** A new chunk above everything, held by morecore until it is freed. */
  lemma GrowTiled(base: nat, brk: nat, f: seq<Block>, held: map<nat, nat>, a: nat, n: nat)
    requires Tiled(base, brk, f, held) && base + UNIT <= brk <= a && n >= 1
    ensures a !in held && Tiled(base, a + UNIT * n, f, held[a := n])
  {
    var held', brk' := held[a := n], a + UNIT * n;
    forall c | c in held ensures c < a && Held(held', c) == Held(held, c) && Inside(base, brk', Held(held, c)) {
      assert Inside(base, brk, Held(held, c));
    }
    forall i | 0 <= i < |f| ensures End(f[i]) <= brk && (i >= 1 ==> Inside(base, brk', f[i])) {
      if i >= 1 { assert Inside(base, brk, f[i]); }
    }
  }
}
