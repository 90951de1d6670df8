/** malloc and free (user/umalloc.c) over headers in memory. */
module MallocCode {
  import opened Basics
  import opened FreeLists
  import opened Holdings

  const MIN_GROW := 4096
  const UINT := 0x1_0000_0000
  const INT_MAX := 0x7fff_ffff

  /** Header units for a request: the payload rounded up, plus the header. */
  function Nunits(nbytes: nat): nat { (nbytes + UNIT - 1) / UNIT + 1 }

  function Max(a: nat, b: nat): nat { if a < b then b else a }

  /** The value sbrk's int parameter receives for an argument x. */
  function IntArg(x: nat): int { var y := x % UINT; if y <= INT_MAX then y else y - UINT }

  predicate Askable(n: nat) { IntArg(UNIT * Max(n, MIN_GROW)) == UNIT * Max(n, MIN_GROW) }

  /** morecore asks sbrk for what it means to ask exactly when the request is
      below two gigabytes less a header. */
  lemma SbrkArgument(nbytes: nat)
    requires nbytes < UINT
    ensures Askable(Nunits(nbytes)) <==> nbytes <= 0x7fff_ffe0
  {
    var n := Nunits(nbytes);
    assert UNIT * (n - 1) - UNIT < nbytes <= UNIT * (n - 1);
  }

  lemma PayloadFits(nbytes: nat)
    ensures nbytes <= UNIT * (Nunits(nbytes) - 1) < nbytes + UNIT
  {
  }

  function Next(i: nat, n: nat): nat
    requires i < n
  {
    if i + 1 < n then i + 1 else 0
  }

  function Prev(i: nat, n: nat): nat
    requires i < n
  {
    if i == 0 then n - 1 else i - 1
  }

  /** Links to follow from index i to index j on a ring of n. */
  function Steps(i: nat, j: nat, n: nat): nat
    requires i < n && j < n
  {
    if i <= j then j - i else n + j - i
  }

  predicate Node(f: seq<Block>, ptr: map<nat, nat>, size: map<nat, nat>, i: nat)
    requires i < |f|
  {
    && f[i].addr in ptr && f[i].addr in size
    && size[f[i].addr] == f[i].size && ptr[f[i].addr] == f[Next(i, |f|)].addr
  }

  /** The headers in memory form one circular list through f. */
  predicate Ring(f: seq<Block>, ptr: map<nat, nat>, size: map<nat, nat>) {
    forall i :: 0 <= i < |f| ==> Node(f, ptr, size, i)
  }

  predicate Sizes(held: map<nat, nat>, size: map<nat, nat>) {
    forall a :: a in held ==> a in size && size[a] == held[a]
  }

  predicate Fits(f: seq<Block>, n: nat) { exists i :: 0 <= i < |f| && f[i].size >= n }

  /** Block i is the first one from the link after `from` on that holds n units. */
  predicate NextFit(f: seq<Block>, from: nat, i: nat, n: nat) {
    && i < |f| && f[i].size >= n
    && forall j, k :: 0 <= j < |f| && 0 <= k < |f| && f[j].addr == from && Steps(k, j, |f|) > Steps(i, j, |f|) ==>
      f[k].size < n
  }

  // ----- the pointer surgery of free

  lemma AddrsDistinct(base: nat, f: seq<Block>)
    requires FreeList(base, f)
    ensures forall i, j :: 0 <= i < |f| && 0 <= j < |f| && i != j ==> f[i].addr != f[j].addr
  {
    forall i, j | 0 <= i < |f| && 0 <= j < |f| && i != j ensures f[i].addr != f[j].addr {
      if i < j { assert End(f[i]) < f[j].addr; } else { assert End(f[j]) < f[i].addr; }
    }
  }

  /** The memory after free has linked b in after index t. */
  predicate Spliced(f: seq<Block>, t: nat, b: Block, ptr: map<nat, nat>, size: map<nat, nat>, ptr': map<nat, nat>,
      size': map<nat, nat>)
    requires t < |f|
  {
    var p := f[t].addr;
    var after := if Above(f, t, b) then Next(t + 1, |f|) else Next(t, |f|);
    var n := b.size + (if Above(f, t, b) then f[t + 1].size else 0);
    if End(f[t]) == b.addr then
      ptr' == ptr[b.addr := f[after].addr][p := f[after].addr] && size' == size[b.addr := n][p := f[t].size + n]
    else
      ptr' == ptr[b.addr := f[after].addr][p := b.addr] && size' == size[b.addr := n]
  }

  lemma RingInsert(base: nat, f: seq<Block>, t: nat, b: Block, ptr: map<nat, nat>, size: map<nat, nat>,
      ptr': map<nat, nat>, size': map<nat, nat>)
    requires Ring(f, ptr, size) && Gap(base, f, t, b) && Spliced(f, t, b, ptr, size, ptr', size')
    ensures Ring(Insert(f, t, b), ptr', size')
  {
    AddrsDistinct(base, f);
    forall k | 0 <= k < |f| ensures f[k].addr != b.addr { GapApart(base, f, t, b, k); }
    var g := Insert(f, t, b);
    forall i | 0 <= i < |g| ensures Node(g, ptr', size', i) { SplicedNode(base, f, t, b, ptr, size, ptr', size', i); }
    MakeRing(g, ptr', size');
  }

  lemma GapApart(base: nat, f: seq<Block>, t: nat, b: Block, k: nat)
    requires Gap(base, f, t, b) && k < |f|
    ensures f[k].addr != b.addr
  {
    if k < t { assert End(f[k]) < f[t].addr; }
    if k > t + 1 { assert End(f[t + 1]) < f[k].addr; }
    assert t >= 1 ==> f[t].size >= 1;
  }

  lemma SplicedNode(base: nat, f: seq<Block>, t: nat, b: Block, ptr: map<nat, nat>, size: map<nat, nat>,
      ptr': map<nat, nat>, size': map<nat, nat>, i: nat)
    requires Ring(f, ptr, size) && Gap(base, f, t, b) && Spliced(f, t, b, ptr, size, ptr', size')
    requires forall i, j :: 0 <= i < |f| && 0 <= j < |f| && i != j ==> f[i].addr != f[j].addr
    requires forall k :: 0 <= k < |f| ==> f[k].addr != b.addr
    requires i < |Insert(f, t, b)|
    ensures Node(Insert(f, t, b), ptr', size', i)
  {
    hide FreeList, Ring, Insert;
    RingNodes(f, ptr, size);
    InsertAt(f, t, b);
    var d := if Above(f, t, b) then 1 else 0;
    var e := if End(f[t]) == b.addr then 0 else 1;
    if i < t {
      assert Node(f, ptr, size, i);
    } else if i > t + e {
      assert Node(f, ptr, size, i - e + d);
    } else {
      assert Node(f, ptr, size, t);
    }
  }

  lemma InsertAt(f: seq<Block>, t: nat, b: Block)
    requires t < |f|
    ensures var g := Insert(f, t, b);
      var d := if Above(f, t, b) then 1 else 0;
      var n := b.size + (if Above(f, t, b) then f[t + 1].size else 0);
      var e := if End(f[t]) == b.addr then 0 else 1;
      && |g| == |f| + e - d
      && (forall k :: 0 <= k < t + e ==> g[k] == f[k])
      && (forall k :: t + e < k < |g| ==> g[k] == f[k - e + d])
      && g[t + e] == if e == 0 then Block(f[t].addr, f[t].size + n) else Block(b.addr, n)
  {
  }

  lemma RingNodes(f: seq<Block>, ptr: map<nat, nat>, size: map<nat, nat>)
    requires Ring(f, ptr, size)
    ensures forall k :: 0 <= k < |f| ==> Node(f, ptr, size, k)
  {
  }

  // ----- the pointer surgery of malloc

  /** The memory after malloc has cut n units off block i. */
  predicate Cut(f: seq<Block>, i: nat, n: nat, ptr: map<nat, nat>, size: map<nat, nat>, ptr': map<nat, nat>,
      size': map<nat, nat>)
    requires i < |f| && n <= f[i].size
  {
    if f[i].size == n then
      ptr' == ptr[f[Prev(i, |f|)].addr := f[Next(i, |f|)].addr] && size' == size
    else
      ptr' == ptr && size' == size[f[i].addr := f[i].size - n][Taken(f, i, n).addr := n]
  }

  lemma RingTake(base: nat, f: seq<Block>, i: nat, n: nat, ptr: map<nat, nat>, size: map<nat, nat>,
      ptr': map<nat, nat>, size': map<nat, nat>)
    requires Ring(f, ptr, size) && FreeList(base, f) && 1 <= i < |f| && 1 <= n <= f[i].size
      && Cut(f, i, n, ptr, size, ptr', size')
    ensures Ring(Take(f, i, n), ptr', size')
  {
    AddrsDistinct(base, f);
    var g := Take(f, i, n);
    forall k | 0 <= k < |f| ensures f[i].size == n || f[k].addr != Taken(f, i, n).addr {
      if f[i].size != n { TakenAddr(base, f, i, n, k); }
    }
    hide FreeList, Ring;
    RingNodes(f, ptr, size);
    forall j | 0 <= j < |g| ensures Node(g, ptr', size', j) {
      CutNode(f, i, n, ptr, size, ptr', size', j);
    }
    MakeRing(g, ptr', size');
  }

  lemma MakeRing(f: seq<Block>, ptr: map<nat, nat>, size: map<nat, nat>)
    requires forall k :: 0 <= k < |f| ==> Node(f, ptr, size, k)
    ensures Ring(f, ptr, size)
  {
  }

  lemma TakenAddr(base: nat, f: seq<Block>, i: nat, n: nat, k: nat)
    requires FreeList(base, f) && i < |f| && k < |f| && 1 <= n < f[i].size
    ensures f[k].addr != Taken(f, i, n).addr
  {
    if k < i { assert End(f[k]) < f[i].addr; }
    if k > i { assert End(f[i]) < f[k].addr; }
  }

  lemma CutNode(f: seq<Block>, i: nat, n: nat, ptr: map<nat, nat>, size: map<nat, nat>, ptr': map<nat, nat>,
      size': map<nat, nat>, j: nat)
    requires 1 <= i < |f| && 1 <= n <= f[i].size && Cut(f, i, n, ptr, size, ptr', size') && j < |Take(f, i, n)|
    requires forall k :: 0 <= k < |f| ==> Node(f, ptr, size, k)
    requires forall i, j :: 0 <= i < |f| && 0 <= j < |f| && i != j ==> f[i].addr != f[j].addr
    requires f[i].size == n || forall k :: 0 <= k < |f| ==> f[k].addr != Taken(f, i, n).addr
    ensures Node(Take(f, i, n), ptr', size', j)
  {
    if f[i].size == n {
      CutExact(f, i, ptr, size, ptr', size', j);
    } else {
      CutSplit(f, i, n, ptr, size, ptr', size', j);
    }
  }

  lemma CutExact(f: seq<Block>, i: nat, ptr: map<nat, nat>, size: map<nat, nat>, ptr': map<nat, nat>,
      size': map<nat, nat>, j: nat)
    requires 1 <= i < |f| && j < |f| - 1
    requires ptr' == ptr[f[Prev(i, |f|)].addr := f[Next(i, |f|)].addr] && size' == size
    requires forall k :: 0 <= k < |f| ==> Node(f, ptr, size, k)
    requires forall i, j :: 0 <= i < |f| && 0 <= j < |f| && i != j ==> f[i].addr != f[j].addr
    ensures Node(f[..i] + f[i + 1..], ptr', size', j)
  {
    var g := f[..i] + f[i + 1..];
    var k := if j >= i then j + 1 else j;
    assert Node(f, ptr, size, k);
    var l := Next(j, |g|);
    assert g[j] == f[k] && g[l] == f[if l >= i then l + 1 else l];
  }

  lemma CutSplit(f: seq<Block>, i: nat, n: nat, ptr: map<nat, nat>, size: map<nat, nat>, ptr': map<nat, nat>,
      size': map<nat, nat>, j: nat)
    requires 1 <= i < |f| && 1 <= n < f[i].size && j < |f|
    requires ptr' == ptr && size' == size[f[i].addr := f[i].size - n][Taken(f, i, n).addr := n]
    requires forall k :: 0 <= k < |f| ==> Node(f, ptr, size, k)
    requires forall i, j :: 0 <= i < |f| && 0 <= j < |f| && i != j ==> f[i].addr != f[j].addr
    requires forall k :: 0 <= k < |f| ==> f[k].addr != Taken(f, i, n).addr
    ensures Node(Replace(f, i, Block(f[i].addr, f[i].size - n), i + 1), ptr', size', j)
  {
    var g := Replace(f, i, Block(f[i].addr, f[i].size - n), i + 1);
    forall k | 0 <= k < |f| ensures g[k].addr == f[k].addr && (k != i ==> g[k] == f[k]) {}
    hide Replace, Taken;
    assert Node(f, ptr, size, j);
  }

  /** The headers in memory link the free list, carry every block's size, and
      the blocks partition the units obtained from sbrk. */
  predicate Sound(base: nat, brk: nat, f: seq<Block>, held: map<nat, nat>, heap: set<nat>, ptr: map<nat, nat>,
      size: map<nat, nat>) {
    && Tiled(base, brk, f, held)
    && heap == Cells(f) + HeldCells(held)
    && Sizes(held, size)
    && Ring(f, ptr, size)
  }

  predicate Listed(f: seq<Block>, p: nat) { exists j :: 0 <= j < |f| && f[j].addr == p }

  lemma FreeSound(base: nat, brk: nat, f: seq<Block>, held: map<nat, nat>, heap: set<nat>, a: nat, t: nat,
                  ptr: map<nat, nat>, size: map<nat, nat>, ptr': map<nat, nat>, size': map<nat, nat>)
    requires Sound(base, brk, f, held, heap, ptr, size) && a in held && Gap(base, f, t, Held(held, a))
    requires Spliced(f, t, Held(held, a), ptr, size, ptr', size')
    ensures Sound(base, brk, Insert(f, t, Held(held, a)), held - {a}, heap, ptr', size')
  {
    hide Tiled, Cells, HeldCells, Sizes, Ring, Gap, Insert, Spliced, Units;
    RingInsert(base, f, t, Held(held, a), ptr, size, ptr', size');
    FreeTiled(base, brk, f, held, a, t);
    InsertCells(base, f, t, Held(held, a));
    HeldDrop(held, a);
    SplicedSizes(base, brk, f, held, a, t, ptr, size, ptr', size');
  }

  lemma TakeSound(base: nat, brk: nat, f: seq<Block>, held: map<nat, nat>, heap: set<nat>, i: nat, n: nat,
                  ptr: map<nat, nat>, size: map<nat, nat>, ptr': map<nat, nat>, size': map<nat, nat>)
    requires Sound(base, brk, f, held, heap, ptr, size) && 1 <= i < |f| && 1 <= n <= f[i].size
    requires Cut(f, i, n, ptr, size, ptr', size')
    ensures Taken(f, i, n).addr !in held
    ensures Sound(base, brk, Take(f, i, n), held[Taken(f, i, n).addr := n], heap, ptr', size')
  {
    var a := Taken(f, i, n).addr;
    assert FreeList(base, f);
    hide Tiled, Cells, HeldCells, Sizes, Ring, Units, FreeList, Take;
    RingTake(base, f, i, n, ptr, size, ptr', size');
    TakeTiled(base, brk, f, held, i, n);
    TakeCells(base, f, i, n);
    HeldAdd(held, a, n);
    CutSizes(base, brk, f, held, i, n, ptr, size, ptr', size');
  }

  lemma CutSizes(base: nat, brk: nat, f: seq<Block>, held: map<nat, nat>, i: nat, n: nat,
                 ptr: map<nat, nat>, size: map<nat, nat>, ptr': map<nat, nat>, size': map<nat, nat>)
    requires Tiled(base, brk, f, held) && Ring(f, ptr, size) && Sizes(held, size)
    requires 1 <= i < |f| && 1 <= n <= f[i].size && Cut(f, i, n, ptr, size, ptr', size')
    ensures Sizes(held[Taken(f, i, n).addr := n], size')
  {
    assert Node(f, ptr, size, i);
    forall c | c in held ensures c != f[i].addr && c != Taken(f, i, n).addr {
      assert Inside(base, brk, Held(held, c)) && !Overlap(Held(held, c), f[i]);
    }
  }

  lemma GrowSound(base: nat, brk: nat, f: seq<Block>, held: map<nat, nat>, heap: set<nat>, a: nat, n: nat,
                  ptr: map<nat, nat>, size: map<nat, nat>)
    requires Sound(base, brk, f, held, heap, ptr, size) && base + UNIT <= brk <= a && n >= 1
    ensures Sound(base, a + UNIT * n, f, held[a := n], heap + Units(Block(a, n)), ptr, size[a := n])
  {
    hide Tiled, Cells, HeldCells, Units, Ring;
    GrowTiled(base, brk, f, held, a, n);
    HeldAdd(held, a, n);
    GrowRing(base, brk, f, held, a, n, ptr, size);
  }

  lemma GrowRing(base: nat, brk: nat, f: seq<Block>, held: map<nat, nat>, a: nat, n: nat, ptr: map<nat, nat>,
      size: map<nat, nat>)
    requires Tiled(base, brk, f, held) && Ring(f, ptr, size) && base + UNIT <= brk <= a
    ensures Ring(f, ptr, size[a := n])
  {
    forall i | 0 <= i < |f| ensures f[i].addr < a && Node(f, ptr, size[a := n], i) {
      assert Node(f, ptr, size, i);
      if i >= 1 { assert Inside(base, brk, f[i]); }
    }
  }

  /** The allocator's static state, the headers it has written, and ghost
      views of the free list, the blocks the program holds, the units obtained
      from sbrk and the end of the heap. */
  class Allocator {
    const base: nat
    var ptr: map<nat, nat>
    var size: map<nat, nat>
    var freep: nat  // 0 before the first malloc
    ghost var list: seq<Block>
    ghost var held: map<nat, nat>
    ghost var heap: set<nat>
    ghost var brk: nat

    ghost predicate Valid()
      reads this
    {
      && 1 <= base && base + UNIT <= brk
      && if freep == 0 then list == [Block(base, 0)] && held == map[] && heap == {}
         else Sound(base, brk, list, held, heap, ptr, size) && Listed(list, freep)
    }

    constructor (base: nat, brk: nat)
      requires 1 <= base && base + UNIT <= brk
      ensures Valid() && freep == 0 && held == map[] && heap == {} && this.brk == brk
    {
      this.base, this.brk := base, brk;
      ptr, size, freep := map[], map[], 0;
      list, held, heap := [Block(base, 0)], map[], {};
      new;
      CellsOne(list[0]);
      assert Units(list[0]) == {};
    }

    /** The search loop of free: the place where bp belongs. */
    method FindGap(bp: nat) returns (p: nat, ghost t: nat)
      requires Valid() && freep != 0 && bp in held
      ensures t < |list| && list[t].addr == p && Gap(base, list, t, Held(held, bp))
    {
      hide HeldCells, Cells, Ring, Tiled, FreeList, Gap, GoalIndex, Sizes, Steps;
      assert Tiled(base, brk, list, held);
      HeldAddr(base, brk, list, held, bp);
      RingNodes(list, ptr, size);
      ghost var n := |list|;
      ghost var goal := GoalIndex(base, list, bp);
      p := freep;
      t :| 0 <= t < n && list[t].addr == freep;
      assert Node(list, ptr, size, t);
      while !(bp > p && bp < ptr[p])
        invariant 0 <= t < n && list[t].addr == p && Node(list, ptr, size, t)
        decreases Steps(t, goal, n)
      {
        if p >= ptr[p] && (bp > p || bp < ptr[p]) {
          break;
        }
        NotGoal(base, list, bp, t, goal);
        p := ptr[p];
        t := Next(t, n);
        assert Node(list, ptr, size, t);
      }
      WrapsLast(base, list, t);
      HeldGap(base, brk, list, held, bp, t);
    }

    /** free's splice, after the search. */
    method Splice(bp: nat, p: nat, ghost t: nat)
      requires Valid() && freep != 0 && bp in held && t < |list| && list[t].addr == p
        && Gap(base, list, t, Held(held, bp))
      modifies this`ptr, this`size
      ensures Spliced(list, t, Held(held, bp), old(ptr), old(size), ptr, size)
    {
      hide HeldCells, Cells, Ring, Tiled;
      ghost var b := Held(held, bp);
      RingNodes(list, ptr, size);
      WrapsLast(base, list, t);
      assert Node(list, ptr, size, t) && Node(list, ptr, size, Next(t, |list|));
      var next := ptr[p];
      if bp + UNIT * size[bp] == next {
        size := size[bp := size[bp] + size[next]];
        ptr := ptr[bp := ptr[next]];
      } else {
        ptr := ptr[bp := next];
      }
      assert bp != p;
      if p + UNIT * size[p] == bp {
        size := size[p := size[p] + size[bp]];
        ptr := ptr[p := ptr[bp]];
      } else {
        ptr := ptr[p := bp];
      }
    }

    /** free: the block's units become free, nothing else changes hands, and
        the list stays sorted with no two free blocks adjacent. */
    method Free(ap: nat) returns (ghost t: nat)
      requires Valid() && UNIT <= ap && ap - UNIT in held
      modifies this`ptr, this`size, this`freep, this`list, this`held
      ensures Valid() && freep != 0 && held == old(held) - {ap - UNIT}
      ensures Cells(list) == old(Cells(list)) + Units(old(Held(held, ap - UNIT)))
      ensures Gap(base, old(list), t, old(Held(held, ap - UNIT)))
        && list == Insert(old(list), t, old(Held(held, ap - UNIT)))
      ensures freep == old(list)[t].addr
    {
      hide Sound, Gap, Insert, Spliced, Cells, Units;
      var bp := ap - UNIT;
      var p;
      p, t := FindGap(bp);
      ghost var f, hs, b := list, held, Held(held, bp);
      ghost var size0 := size;
      Splice(bp, p, t);
      FreeSound(base, brk, f, hs, heap, bp, t, old(ptr), size0, ptr, size);
      InsertCells(base, f, t, b);
      InsertAddr(base, f, t, b);
      list, held, freep := Insert(f, t, b), hs - {bp}, p;
      assert list[t].addr == p;
    }

    /** morecore: a chunk of at least MIN_GROW units at sbrk's answer `room`,
        freed into the list; nothing happens when sbrk fails. */
    method Morecore(nu: nat, room: Option<nat>) returns (p: nat)
      requires Valid() && freep != 0 && nu >= 1 && Askable(nu) && (room.Some? ==> brk <= room.value)
      modifies this
      ensures Valid() && freep != 0 && held == old(held)
      ensures room.None? ==> p == 0 && list == old(list) && heap == old(heap) && brk == old(brk) && freep == old(freep)
      ensures room.Some? ==> p == freep && brk == room.value + UNIT * Max(nu, MIN_GROW)
      ensures room.Some? ==> Cells(list) == old(Cells(list)) + Units(Block(room.value, Max(nu, MIN_GROW)))
      ensures room.Some? ==> heap == old(heap) + Units(Block(room.value, Max(nu, MIN_GROW)))
      ensures room.Some? ==> Fits(list, nu)
    {
      hide Sound, Gap, Insert, Cells, Units;
      var n := if nu < MIN_GROW then MIN_GROW else nu;
      if room.None? { return 0; }
      var hp := room.value;
      GrowSound(base, brk, list, held, heap, hp, n, ptr, size);
      size := size[hp := n];
      assert hp !in held by { GrownFresh(base, brk, list, held, heap, hp, ptr, old(size)); }
      held := held[hp := n];
      heap, brk := heap + Units(Block(hp, n)), hp + UNIT * n;
      ghost var f := list;
      ghost var t := Free(hp + UNIT);
      assert held == old(held);
      InsertFits(base, f, t, Block(hp, n), nu);
      return freep;
    }

    /** The fitting branch of malloc's loop: block i gives up n units. */
    method TakeOut(prevp: nat, p: nat, n: nat, ghost i: nat) returns (r: nat)
      requires Valid() && freep != 0 && i < |list| && list[i].addr == p && list[Prev(i, |list|)].addr == prevp
      requires n >= 1 && p in size && size[p] == list[i].size >= n
      modifies this`ptr, this`size, this`freep, this`list, this`held
      ensures Valid() && freep != 0
      ensures list == Take(old(list), i, n) && r == Taken(old(list), i, n).addr + UNIT
      ensures r - UNIT !in old(held) && held == old(held)[r - UNIT := n]
      ensures Cells(list) + Units(Block(r - UNIT, n)) == old(Cells(list))
    {
      hide Cells, HeldCells, Units, Tiled, Sizes, FreeList, Take;
      ghost var f, hs := list, held;
      ghost var size0 := size;
      NotBase(base, brk, f, hs, i);
      TakeCells(base, f, i, n);
      RingNodes(f, ptr, size);
      assert Node(f, ptr, size, i);
      var q := p;
      if size[p] == n {
        ptr := ptr[prevp := ptr[p]];
      } else {
        size := size[p := size[p] - n];
        q := p + UNIT * size[p];
        size := size[q := n];
      }
      TakeSound(base, brk, f, hs, heap, i, n, old(ptr), size0, ptr, size);
      freep := prevp;
      list, held := Take(f, i, n), hs[q := n];
      TakePrev(f, i, n);
      r := q + UNIT;
    }

    /** malloc with sbrk's answer `room`, should it be asked: sbrk is asked
        only when no free block fits, and succeeds at most once. */
    method Malloc(nbytes: nat, room: Option<nat>) returns (r: nat, grown: bool)
      requires Valid() && nbytes < UINT && (room.Some? ==> brk <= room.value)
      requires nbytes <= 0x7fff_ffe0 || Fits(list, Nunits(nbytes))
      modifies this
      ensures Valid() && freep != 0
      ensures grown <==> !Fits(old(list), Nunits(nbytes)) && room.Some?
      ensures r == 0 <==> !Fits(old(list), Nunits(nbytes)) && room.None?
      ensures heap == old(heap) + Gained(grown, room, Nunits(nbytes))
      ensures r == 0 ==> list == old(list) && held == old(held)
      ensures r != 0 ==> r >= UNIT && r - UNIT !in old(held) && held == old(held)[r - UNIT := Nunits(nbytes)]
      ensures r != 0 && !grown ==>
        exists i :: NextFit(old(list), old(freep), i, Nunits(nbytes)) && list == Take(old(list), i, Nunits(nbytes))
          && r == Taken(old(list), i, Nunits(nbytes)).addr + UNIT
      ensures r != 0 ==> Cells(list) + Units(Block(r - UNIT, Nunits(nbytes)))
                         == old(Cells(list)) + Gained(grown, room, Nunits(nbytes))
    {
      hide Sound, Cells, Units, Take, Taken, Nunits, NextFit, Fits, Askable;
      var nunits := Nunits(nbytes);
      PayloadFits(nbytes);
      SbrkArgument(nbytes);
      if freep == 0 {
        Begin();
      }
      ghost var i;
      r, grown, i := Search(nunits, room);
      NothingFits(base, nunits);
    }

    /** malloc's loop. */
    method Search(nunits: nat, room: Option<nat>) returns (r: nat, grown: bool, ghost i: nat)
      requires Valid() && freep != 0 && nunits >= 1 && (room.Some? ==> brk <= room.value)
      requires Askable(nunits) || Fits(list, nunits)
      modifies this
      ensures Valid() && freep != 0
      ensures grown <==> !Fits(old(list), nunits) && room.Some?
      ensures r == 0 <==> !Fits(old(list), nunits) && room.None?
      ensures heap == old(heap) + Gained(grown, room, nunits)
      ensures r == 0 ==> list == old(list) && held == old(held)
      ensures r != 0 ==> r >= UNIT && r - UNIT !in old(held) && held == old(held)[r - UNIT := nunits]
      ensures r != 0 && !grown ==> NextFit(old(list), old(freep), i, nunits)
      ensures r != 0 && !grown ==> list == Take(old(list), i, nunits) && r == Taken(old(list), i, nunits).addr + UNIT
      ensures r != 0 ==> Cells(list) + Units(Block(r - UNIT, nunits)) == old(Cells(list)) + Gained(grown, room, nunits)
    {
      hide Sound, Cells, Units, Take, Taken, NextFit, Fits, TooSmall, FreeList, Listed, Steps, Askable;
      var prevp := freep;
      grown := false;
      ghost var j: nat := IndexOf(list, freep);
      i := Next(j, |list|);
      SoundNode(base, brk, list, held, heap, ptr, size, j);
      var p := ptr[prevp];
      Untried(list, j, nunits);
      while true
        invariant Valid() && freep != 0 && held == old(held) && j < |list| && list[j].addr == freep
        invariant i < |list| && list[i].addr == p && list[Prev(i, |list|)].addr == prevp
        invariant TooSmall(list, i, j, nunits)
        invariant Progress(old(list), old(heap), list, heap, grown, room, nunits)
        invariant !grown ==> brk == old(brk) && freep == old(freep)
        decreases !grown, Steps(i, j, |list|)
      {
        SoundNode(base, brk, list, held, heap, ptr, size, i);
        if size[p] >= nunits {
          FitsAt(list, i, nunits);
          if !grown { FirstFits(base, list, freep, j, i, nunits); }
          r := TakeOut(prevp, p, nunits, i);
          return;
        }
        if p == freep {
          NoneFits(base, list, i, j, nunits);
          p := Morecore(nunits, room);
          if p == 0 {
            return 0, grown, i;
          }
          grown := true;
          j := IndexOf(list, freep);
          i := j;
          Untried(list, j, nunits);
        } else {
          OneMore(base, list, i, j, nunits);
        }
        SoundNode(base, brk, list, held, heap, ptr, size, i);
        prevp := p;
        p := ptr[p];
        i := Next(i, |list|);
      }
    }

    /** The first call: a list of base alone. */
    method Begin()
      requires Valid() && freep == 0
      modifies this`ptr, this`size, this`freep
      ensures Valid() && freep == base
    {
      ptr, freep, size := ptr[base := base], base, size[base := 0];
      CellsOne(list[0]);
      assert Node(list, ptr, size, 0);
    }
  }

  function Gained(grown: bool, room: Option<nat>, n: nat): set<nat>
    requires grown ==> room.Some?
  {
    if grown then Units(Block(room.value, Max(n, MIN_GROW))) else {}
  }

  predicate TooSmall(f: seq<Block>, i: nat, j: nat, n: nat)
    requires i < |f| && j < |f|
  {
    forall k :: 0 <= k < |f| && Steps(k, j, |f|) > Steps(i, j, |f|) ==> f[k].size < n
  }

  ghost function IndexOf(f: seq<Block>, p: nat): (j: nat)
    requires Listed(f, p)
    ensures j < |f| && f[j].addr == p
  {
    var j :| 0 <= j < |f| && f[j].addr == p;
    j
  }

  /** What the loop has done so far: nothing, or one successful morecore. */
  ghost predicate Progress(f0: seq<Block>, heap0: set<nat>, f: seq<Block>, heap: set<nat>, grown: bool,
      room: Option<nat>, n: nat) {
    if !grown then f == f0 && heap == heap0
    else
      && room.Some? && !Fits(f0, n) && Fits(f, n)
      && Cells(f) == Cells(f0) + Gained(true, room, n) && heap == heap0 + Gained(true, room, n)
  }

  lemma SoundNode(base: nat, brk: nat, f: seq<Block>, held: map<nat, nat>, heap: set<nat>, ptr: map<nat, nat>,
      size: map<nat, nat>, i: nat)
    requires Sound(base, brk, f, held, heap, ptr, size) && i < |f|
    ensures FreeList(base, f) && Node(f, ptr, size, i)
  {
  }

  lemma Untried(f: seq<Block>, j: nat, n: nat)
    requires j < |f|
    ensures TooSmall(f, Next(j, |f|), j, n)
  {
  }

  lemma OneMore(base: nat, f: seq<Block>, i: nat, j: nat, n: nat)
    requires i < |f| && j < |f| && f[i].addr != f[j].addr && f[i].size < n && TooSmall(f, i, j, n)
    ensures TooSmall(f, Next(i, |f|), j, n) && Steps(Next(i, |f|), j, |f|) < Steps(i, j, |f|)
  {
    forall k | 0 <= k < |f| && Steps(k, j, |f|) > Steps(Next(i, |f|), j, |f|) ensures f[k].size < n {
      assert k == i || Steps(k, j, |f|) > Steps(i, j, |f|);
    }
  }

  lemma NothingFits(base: nat, n: nat)
    requires n >= 1
    ensures !Fits([Block(base, 0)], n)
  {
  }

  lemma FitsAt(f: seq<Block>, i: nat, n: nat)
    requires i < |f| && f[i].size >= n
    ensures Fits(f, n)
  {
  }

  lemma NoneFits(base: nat, f: seq<Block>, i: nat, j: nat, n: nat)
    requires FreeList(base, f) && i < |f| && j < |f| && f[i].addr == f[j].addr && TooSmall(f, i, j, n) && f[i].size < n
    ensures i == j && !Fits(f, n)
  {
    AddrsDistinct(base, f);
    forall k | 0 <= k < |f| ensures f[k].size < n {
      assert k != j ==> Steps(k, j, |f|) > 0;
    }
  }

  lemma FirstFits(base: nat, f: seq<Block>, from: nat, j: nat, i: nat, n: nat)
    requires FreeList(base, f) && i < |f| && j < |f| && f[i].size >= n && TooSmall(f, i, j, n) && f[j].addr == from
    ensures NextFit(f, from, i, n)
  {
    AddrsDistinct(base, f);
  }

  lemma NotBase(base: nat, brk: nat, f: seq<Block>, held: map<nat, nat>, i: nat)
    requires Tiled(base, brk, f, held) && i < |f| && f[i].size >= 1
    ensures i >= 1 && f[Prev(i, |f|)].addr >= base && FreeList(base, f)
  {
  }

  lemma TakePrev(f: seq<Block>, i: nat, n: nat)
    requires 1 <= i < |f| && 1 <= n <= f[i].size
    ensures Listed(Take(f, i, n), f[Prev(i, |f|)].addr)
  {
    assert Take(f, i, n)[i - 1] == f[i - 1];
  }

  lemma GrownFresh(base: nat, brk: nat, f: seq<Block>, held: map<nat, nat>, heap: set<nat>, a: nat,
      ptr: map<nat, nat>, size: map<nat, nat>)
    requires Sound(base, brk, f, held, heap, ptr, size) && brk <= a
    ensures a !in held
  {
    forall c | c in held ensures c < a { assert Inside(base, brk, Held(held, c)); }
  }

  lemma InsertFits(base: nat, f: seq<Block>, t: nat, b: Block, n: nat)
    requires Gap(base, f, t, b) && n <= b.size
    ensures Fits(Insert(f, t, b), n)
  {
    InsertAt(f, t, b);
    var e := if End(f[t]) == b.addr then 0 else 1;
    assert Insert(f, t, b)[t + e].size >= n;
  }

  lemma InsertAddr(base: nat, f: seq<Block>, t: nat, b: Block)
    requires Gap(base, f, t, b)
    ensures t < |Insert(f, t, b)| && Insert(f, t, b)[t].addr == f[t].addr >= base
  {
  }

  lemma SplicedSizes(base: nat, brk: nat, f: seq<Block>, held: map<nat, nat>, a: nat, t: nat,
                     ptr: map<nat, nat>, size: map<nat, nat>, ptr': map<nat, nat>, size': map<nat, nat>)
    requires Tiled(base, brk, f, held) && a in held && Gap(base, f, t, Held(held, a)) && Sizes(held, size)
    requires Spliced(f, t, Held(held, a), ptr, size, ptr', size')
    ensures Sizes(held - {a}, size')
  {
    hide Tiled, FreeList;
    forall c | c in held && c != a ensures c in size' && size'[c] == held[c] {
      HeldAddr(base, brk, f, held, c);
    }
  }

  lemma HeldAddr(base: nat, brk: nat, f: seq<Block>, held: map<nat, nat>, a: nat)
    requires Tiled(base, brk, f, held) && a in held
    ensures FreeList(base, f) && base < a && forall i :: 0 <= i < |f| ==> f[i].addr != a
  {
    assert Inside(base, brk, Held(held, a));
    forall i | 0 <= i < |f| ensures f[i].addr != a { assert !Overlap(Held(held, a), f[i]); }
  }

  /** The last block below an address above base. */
  function GoalIndex(base: nat, f: seq<Block>, a: nat): (t: nat)
    requires |f| >= 1 && f[0].addr == base
    ensures t < |f| && (base < a ==> f[t].addr < a) && (t + 1 < |f| ==> f[t + 1].addr >= a)
    decreases |f|
  {
    if |f| == 1 || f[|f| - 1].addr < a then |f| - 1 else GoalIndex(base, f[..|f| - 1], a)
  }

  lemma WrapsLast(base: nat, f: seq<Block>, t: nat)
    requires FreeList(base, f) && t < |f|
    ensures f[t].addr >= f[Next(t, |f|)].addr <==> t == |f| - 1
    ensures f[t].addr >= base
  {
  }

  lemma NotGoal(base: nat, f: seq<Block>, a: nat, t: nat, goal: nat)
    requires FreeList(base, f) && t < |f| && goal == GoalIndex(base, f, a) && base < a
    requires forall i :: 0 <= i < |f| ==> f[i].addr != a
    requires !(a > f[t].addr && a < f[Next(t, |f|)].addr)
    requires !(f[t].addr >= f[Next(t, |f|)].addr && (a > f[t].addr || a < f[Next(t, |f|)].addr))
    ensures t != goal && Steps(Next(t, |f|), goal, |f|) < Steps(t, goal, |f|)
  {
    WrapsLast(base, f, t);
  }
}
