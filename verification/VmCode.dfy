/** kalloc.c and vm.c over a list of free pages and the words of table pages. */
module VmCode {
  import opened PageTables
  import opened PageMaps

  /** What kfree leaves in a page: every byte 1. */
  const JUNK := Entry(0x1010_1010, true, false, 0)
  const JUNK_PAGE: seq<Entry> := seq(FAN, i => JUNK)

  datatype Mapping = Mapped | NoMemory | Remap

  function PageCount(sz: nat): nat { (sz + PGSIZE - 1) / PGSIZE }

  function LeafEntry(page: nat, ap: nat): Entry { Entry(page, true, true, ap) }

  /** Allocated pages keep their role; new ones are tables below a root. */
  ghost predicate OnlyTables(own: map<nat, Role>, own': map<nat, Role>) {
    && (forall p :: p in own ==> p in own' && own'[p] == own[p])
    && (forall p :: p in own' && p !in own ==> own'[p].Node? && 1 <= own'[p].level <= 2)
  }

  ghost predicate OnlyTablesBut(own: map<nat, Role>, own': map<nat, Role>, pa: nat, n: nat) {
    && (forall p :: p in own && !(pa <= p < pa + n) ==> p in own' && own'[p] == own[p])
    && (forall p :: p in own' && p !in own ==> own'[p].Node? && 1 <= own'[p].level <= 2)
  }

  lemma TakePage(pages: set<nat>, free: seq<nat>, own: map<nat, Role>)
    requires Partition(pages, free, own) && free != []
    ensures free[0] !in own && Partition(pages, free[1..], own[free[0] := Loose])
  {
    assert free[0] in free;
    forall p | p in free[1..] ensures p in free && p != free[0] {}
    forall p | p in free ensures p == free[0] || p in free[1..] {}
  }

  lemma NoPages(lo: nat)
    ensures Partition(PageRange(lo, lo), [], map[])
  {
  }

  lemma NoForest(words: map<nat, seq<Entry>>)
    ensures Forest(map[], words, map[])
  {
  }

  lemma FreePage(lo: nat, p: nat, free: seq<nat>)
    requires lo <= p && Partition(PageRange(lo, p), free, map[])
    ensures Partition(PageRange(lo, p + 1), [p] + free, map[])
  {
    var free' := [p] + free;
    forall i, j | 0 <= i < j < |free'| ensures free'[i] != free'[j] {
      assert free'[j] == free[j - 1] && free[j - 1] in free;
    }
    assert forall q :: q in free' <==> q == p || q in free;
  }

  lemma AllFree(pages: set<nat>, free: seq<nat>)
    requires Partition(pages, free, map[])
    ensures forall p :: p in free <==> p in pages
  {
  }

  lemma GivePage(pages: set<nat>, free: seq<nat>, own: map<nat, Role>, p: nat)
    requires Partition(pages, free, own) && p in own
    ensures Partition(pages, [p] + free, own - {p})
  {
    var free' := [p] + free;
    forall i, j | 0 <= i < j < |free'| ensures free'[i] != free'[j] {
      assert free'[j] == free[j - 1] && free[j - 1] in free;
    }
    assert forall q :: q in free' <==> q == p || q in free;
  }

  lemma Rerole(pages: set<nat>, free: seq<nat>, own: map<nat, Role>, p: nat, role: Role)
    requires Partition(pages, free, own) && p in own
    ensures Partition(pages, free, own[p := role])
  {
  }

  lemma SameMapsChain(own: map<nat, Role>, own': map<nat, Role>, w0: map<nat, seq<Entry>>, w1: map<nat, seq<Entry>>,
      w2: map<nat, seq<Entry>>)
    requires SameMaps(own, w0, w1) && SameMaps(own', w1, w2)
    requires forall r :: IsRoot(own, r) ==> IsRoot(own', r)
    ensures SameMaps(own, w0, w2)
  {
    forall r, v | IsRoot(own, r) && 0 <= v < VPNS ensures Lookup(w2, r, v) == Lookup(w0, r, v) {
      assert Lookup(w1, r, v) == Lookup(w0, r, v) && IsRoot(own', r);
    }
  }

  ghost function PageRange(lo: nat, hi: nat): (s: set<nat>)
    requires lo <= hi
    ensures |s| == hi - lo && forall p :: p in s <==> lo <= p < hi
    decreases hi - lo
  {
    if lo == hi then {} else
      var s := PageRange(lo, hi - 1);
      assert hi - 1 !in s;
      s + {hi - 1}
  }

  /** The root has no table below it. */
  predicate NoTables(w: map<nat, seq<Entry>>, r: nat) { forall v :: 0 <= v < VPNS ==> !HasMid(w, r, v) }

  class Kernel {
    var free: seq<nat>
    var words: map<nat, seq<Entry>>
    ghost var own: map<nat, Role>
    ghost const pages: set<nat>

    /** Every page is free or has one role, tables and roles agree, and there
        are no more pages than page numbers (128 megabytes on this board). */
    ghost predicate Valid()
      reads this
    {
      Partition(pages, free, own) && Forest(own, words, map[]) && |pages| <= VPNS
    }

    /** kinit: freerange frees every page from lo to hi. */
    constructor (lo: nat, hi: nat)
      requires lo <= hi <= lo + VPNS
      ensures Valid() && own == map[] && |free| == hi - lo && forall p :: p in free <==> lo <= p < hi
    {
      free, words, own := [], map[], map[];
      pages := PageRange(lo, hi);
      new;
      Freerange(lo, hi);
      NoForest(words);
      AllFree(pages, free);
    }

    method Freerange(lo: nat, hi: nat)
      requires free == [] && lo <= hi
      modifies this`free, this`words
      ensures |free| == hi - lo && Partition(PageRange(lo, hi), free, map[])
    {
      hide Partition, PageRange;
      NoPages(lo);
      var p := lo;
      while p < hi
        invariant lo <= p <= hi && |free| == p - lo && Partition(PageRange(lo, p), free, map[])
      {
        FreePage(lo, p, free);
        Kfree(p);
        p := p + 1;
      }
    }

    /** kfree's effect on memory and list. */
    method Kfree(p: nat)
      modifies this`free, this`words
      ensures free == [p] + old(free) && words == old(words)[p := JUNK_PAGE]
    {
      words := words[p := JUNK_PAGE];
      free := [p] + free;
    }

    /** kalloc: the page last freed, zeroed. */
    method Kalloc() returns (ok: bool, p: nat)
      requires Valid()
      modifies this`free, this`words, this`own
      ensures Valid() && ok == (old(free) != [])
      ensures !ok ==> free == old(free) && words == old(words) && own == old(own)
      ensures ok ==>
        p !in old(own) && own == old(own)[p := Loose] && [p] + free == old(free) && words == old(words)[p := ZERO_PAGE]
      ensures SameMaps(old(own), old(words), words) && SameTables(old(own), old(words), words)
    {
      hide Partition, Forest;
      if free == [] { return false, 0; }
      p := free[0];
      TakePage(pages, free, own);
      AllocKeeps(own, words, map[], p, ZERO_PAGE);
      OutsideSame(own, words, p, ZERO_PAGE);
      OutsideTables(own, words, p, ZERO_PAGE);
      free := free[1..];
      words := words[p := ZERO_PAGE];
      own := own[p := Loose];
      ok := true;
    }

    /** A loose page goes back. */
    method GiveBack(p: nat)
      requires Valid() && p in own && own[p] == Loose
      modifies this`free, this`words, this`own
      ensures Valid() && own == old(own) - {p} && free == [p] + old(free)
      ensures SameMaps(old(own), old(words), words)
    {
      hide Partition, Forest;
      GivePage(pages, free, own, p);
      ReleaseKeeps(own, words, map[], p, JUNK_PAGE);
      OutsideSame(own, words, p, JUNK_PAGE);
      Kfree(p);
      own := own - {p};
    }

    /** One level of walk: follow slot k of table t, or hang a zeroed table there. */
    method Descend(t: nat, k: nat, alloc: bool) returns (ok: bool, child: nat)
      requires Valid() && IsTable(own, t) && own[t].level < 2 && k < Fan(own[t].level)
      modifies this`free, this`words, this`own
      ensures Valid() && SameMaps(old(own), old(words), words) && OnlyTables(old(own), own)
      ensures !alloc || !ok ==> free == old(free) && words == old(words) && own == old(own)
      ensures !ok && alloc ==> free == []
      ensures !ok ==> Get(words, t, k) == NULL_ENTRY
      ensures ok ==>
        Get(words, t, k).valid && Get(words, t, k).page == child && child in own
        && own[child] == Node(own[t].level + 1, t, k)
      ensures |free| + 1 >= |old(free)|
      ensures ok ==> |free| == |old(free)| - (if Get(old(words), t, k) == NULL_ENTRY then 1 else 0)
      ensures ok ==> Opened(old(own), old(words), words, t, k)
      ensures ok && Get(old(words), t, k) == NULL_ENTRY ==> child in words && words[child] == ZERO_PAGE
      ensures ok && Get(old(words), t, k) != NULL_ENTRY ==> words == old(words)
      ensures forall u :: u in old(own) && u in old(words) && u != t ==> u in words && words[u] == old(words)[u]
    {
      hide Partition, Forest, SameMaps, SameTables, Opened;
      SlotAt(own, words, t, k);
      SizedAt(own, words, t);
      var e := words[t][k];
      if e.valid || e.table {
        SameRefl(own, words);
        AlreadyOpen(own, words, t, k);
        return true, e.page;
      }
      if !alloc {
        SameRefl(own, words);
        return false, 0;
      }
      ok, child := Kalloc();
      if !ok { return; }
      ghost var own1, words1 := own, words;
      var f := Entry(child, true, true, 0);
      LinkKeeps(own, words, t, k, f);
      LinkSame(own, words, t, k, f);
      LinkOpens(own, words, t, k, f);
      OpensAfter(old(own), own, old(words), words, Put(words, t, k, f), t, k);
      Rerole(pages, free, own, child, Node(own[t].level + 1, t, k));
      words := words[t := words[t][k := f]];
      own := own[child := Node(own[t].level + 1, t, k)];
      SameMapsChain(old(own), own1, old(words), words1, words);
    }

    /** walk: the table whose slot PteIdx(va) is the entry for va. */
    method Walk(r: nat, va: nat, alloc: bool) returns (ok: bool, t: nat)
      requires Valid() && IsRoot(own, r)
      modifies this`free, this`words, this`own
      ensures Valid() && SameMaps(old(own), old(words), words) && OnlyTables(old(own), own)
      ensures !alloc ==> free == old(free) && words == old(words) && own == old(own)
      ensures ok ==> Reaches(own, words, r, Vpn(va), t)
      ensures !ok && alloc ==> free == [] && |old(free)| <= 1
      ensures !ok ==> Lookup(words, r, Vpn(va)) == NULL_ENTRY
      ensures |free| + 2 >= |old(free)|
      ensures alloc ==> (ok <==> |old(free)| >= Missing(old(words), r, Vpn(va)))
      ensures alloc && ok ==>
        |free| == |old(free)| - Missing(old(words), r, Vpn(va)) && Hanged(old(own), old(words), words, r, Vpn(va))
    {
      hide Partition, Forest, SameMaps, Opened, Hanged;
      Indices(va);
      JoinSplit(Vpn(va));
      SlotAt(own, words, r, Top(Vpn(va)));
      var m;
      ok, m := Descend(r, PgdIdx(va), alloc);
      if !ok { return false, 0; }
      SizedAt(own, words, r);
      SlotAt(own, words, m, Mid(Vpn(va)));
      ghost var own1, words1 := own, words;
      ok, t := Descend(m, PmdIdx(va), alloc);
      SameMapsChain(old(own), own1, old(words), words1, words);
      if ok { OpenedTwice(old(own), own1, old(words), words1, words, r, m, Vpn(va)); }
    }

    /** walkaddr: the physical page of va, if mapped. */
    method Walkaddr(r: nat, va: nat) returns (mapped: bool, page: nat)
      requires Valid() && IsRoot(own, r)
      modifies this`free, this`words, this`own
      ensures free == old(free) && words == old(words) && own == old(own)
      ensures mapped <==> Lookup(words, r, Vpn(va)).valid
      ensures mapped ==> page == Lookup(words, r, Vpn(va)).page
    {
      var ok, t := Walk(r, va, false);
      if !ok { return false, 0; }
      Indices(va);
      ReachesTable(own, words, r, Vpn(va), t);
      Path(own, words, r, Vpn(va));
      var e := words[t][PteIdx(va)];
      if !(e.table || e.valid) { return false, 0; }
      return true, e.page;
    }

    /** One iteration of mappages. */
    method MapOne(r: nat, va: nat, page: nat, ap: nat) returns (res: Mapping)
      requires Valid() && IsRoot(own, r) && page in own && own[page] == Loose
      modifies this`free, this`words, this`own
      ensures Valid() && OnlyTablesBut(old(own), own, page, 1) && page in own && |free| + 2 >= |old(free)|
      ensures res != Mapped ==> SameMaps(old(own), old(words), words) && own[page] == Loose
      ensures res == Mapped ==> !Lookup(old(words), r, Vpn(va)).valid && own[page].Node? && own[page].level == 3
      ensures res == Mapped ==> forall q, x :: IsRoot(old(own), q) && 0 <= x < VPNS ==>
        Lookup(words, q, x) == if q == r && x == Vpn(va) then LeafEntry(page, ap) else Lookup(old(words), q, x)
      ensures res == NoMemory ==> free == [] && |old(free)| <= 1
      ensures res == NoMemory <==> |old(free)| < Missing(old(words), r, Vpn(va))
      ensures res == Mapped ==>
        |free| == |old(free)| - Missing(old(words), r, Vpn(va)) && Hanged(old(own), old(words), words, r, Vpn(va))
      ensures res == Remap ==> Lookup(old(words), r, Vpn(va)).valid
    {
      hide Partition, Forest, SameMaps, Lookup, Hanged, SameTables, Missing;
      var ok, t := Walk(r, va, true);
      if !ok { return NoMemory; }
      Indices(va);
      ReachesTable(own, words, r, Vpn(va), t);
      assert Slot(own, words, t, Low(Vpn(va))) by { SlotAt(own, words, t, Low(Vpn(va))); }
      SameAt(old(own), old(words), words, r, Vpn(va));
      var e := words[t][PteIdx(va)];
      if e.table || e.valid { return Remap; }
      var f := LeafEntry(page, ap);
      WriteLookup(own, words, r, Vpn(va), t, f);
      OutsideTables(own, words, t, words[t][PteIdx(va) := f]);
      HangedThen(old(own), own, old(words), words, Put(words, t, PteIdx(va), f), r, Vpn(va));
      SameForall(old(own), old(words), words);
      LinkKeeps(own, words, t, PteIdx(va), f);
      Rerole(pages, free, own, page, Node(3, t, PteIdx(va)));
      words := words[t := words[t][PteIdx(va) := f]];
      own := own[page := Node(3, t, PteIdx(va))];
      res := Mapped;
    }

    /** mappages: consecutive pages from pa on, mapped from va's page on.  The
        first c of them are in place when it stops; Remap is a panic. */
    method Mappages(r: nat, va: nat, size: nat, pa: nat, ap: nat) returns (res: Mapping, ghost c: nat)
      requires Valid() && IsRoot(own, r) && size >= 1
      requires forall p :: pa <= p < pa + Span(va, size) ==> p in own && own[p] == Loose
      modifies this`free, this`words, this`own
      ensures Valid() && c <= Span(va, size) && (res == Mapped <==> c == Span(va, size))
      ensures OnlyTablesBut(old(own), own, pa, Span(va, size)) && |free| + 2 * Span(va, size) >= |old(free)|
      ensures MappedRun(old(own), old(words), words, r, Vpn(va), c, pa, ap)
      ensures forall p :: pa <= p < pa + Span(va, size) ==> p in own && (own[p].Node? <==> p < pa + c)
      ensures res == NoMemory ==> free == [] && |old(free)| <= 2 * c + 1
      ensures res == Remap ==> c >= VPNS || Lookup(old(words), r, (Vpn(va) + c) % VPNS).valid
      ensures Span(va, size) == 1 ==> (res == NoMemory <==> |old(free)| < Missing(old(words), r, Vpn(va)))
      ensures Span(va, size) == 1 && res == Mapped ==>
        |free| == |old(free)| - Missing(old(words), r, Vpn(va)) && Hanged(old(own), old(words), words, r, Vpn(va))
    {
      hide Partition, Forest, SameMaps, Lookup, MappedRun, Hanged, Missing;
      var a, p := va / PGSIZE * PGSIZE, pa;
      var last := (va + size - 1) / PGSIZE * PGSIZE;
      c := 0;
      NoRun(own, words, r, Vpn(va), pa, ap);
      while true
        invariant Valid() && IsRoot(own, r) && c < Span(va, size) && a == va / PGSIZE * PGSIZE + c * PGSIZE
          && p == pa + c
        invariant c == 0 ==> words == old(words) && own == old(own) && free == old(free)
        invariant MappedRun(old(own), old(words), words, r, Vpn(va), c, pa, ap)
        invariant OnlyTablesBut(old(own), own, pa, Span(va, size)) && |free| + 2 * c >= |old(free)|
        invariant forall x :: pa <= x < pa + Span(va, size) ==> x in own && (own[x].Node? <==> x < pa + c)
        decreases Span(va, size) - c
      {
        ghost var own1, words1 := own, words;
        RunNext(va, c);
        res := MapOne(r, a, p, ap);
        assert forall q :: IsRoot(old(own), q) ==> IsRoot(own1, q);
        if res != Mapped {
          RunSame(old(own), own1, old(words), words1, words, r, Vpn(va), c, pa, ap);
          if res == Remap { RunBusy(old(own), old(words), words1, r, Vpn(va), c, pa, ap); }
          return;
        }
        RunMore(old(own), own1, old(words), words1, words, r, Vpn(va), c, pa, ap);
        c := c + 1;
        if a == last { return; }
        a, p := a + PGSIZE, p + 1;
      }
    }

    /** One iteration of uvmunmap. */
    method UnmapOne(r: nat, va: nat) returns (ghost page: nat)
      requires Valid() && IsRoot(own, r) && Lookup(words, r, Vpn(va)).valid
      modifies this`free, this`words, this`own
      ensures Valid() && page == Lookup(old(words), r, Vpn(va)).page && page in old(own) && own == old(own) - {page}
      ensures free == [page] + old(free) && old(own)[page].Node? && old(own)[page].level == 3
      ensures forall q, x :: IsRoot(old(own), q) && 0 <= x < VPNS ==>
        Lookup(words, q, x) == if q == r && x == Vpn(va) then NULL_ENTRY else Lookup(old(words), q, x)
    {
      hide Partition, Forest, SameMaps, Lookup;
      var ok, t := Walk(r, va, false);
      Indices(va);
      ReachesTable(own, words, r, Vpn(va), t);
      MappedPage(own, words, r, Vpn(va));
      var k := PteIdx(va);
      page := words[t][k].page;
      ghost var own1, words1 := own[page := Loose], Put(words, t, k, NULL_ENTRY);
      UnlinkKeeps(own, words, t, k);
      WriteLookup(own, words, r, Vpn(va), t, NULL_ENTRY);
      Rerole(pages, free, own, page, Loose);
      GivePage(pages, free, own1, page);
      ReleaseKeeps(own1, words1, map[], page, JUNK_PAGE);
      OutsideSame(own1, words1, page, JUNK_PAGE);
      Kfree(words[t][k].page);
      words := words[t := words[t][k := NULL_ENTRY]];
      assert words == words1[page := JUNK_PAGE];
      assert own1 - {page} == own - {page};
      own := own - {page};
      SameForall(own1, words1, words);
    }

    /** uvmunmap with do_free set: n mapped pages from va on are unmapped and
        freed, each once; its panics are unreachable. */
    method Uvmunmap(r: nat, va: nat, n: nat)
      requires Valid() && IsRoot(own, r) && va % PGSIZE == 0 && Vpn(va) + n <= VPNS
      requires forall x :: Vpn(va) <= x < Vpn(va) + n ==> Lookup(words, r, x).valid
      modifies this`free, this`words, this`own
      ensures Valid() && IsRoot(own, r)
      ensures UnmappedRun(old(own), old(words), own, words, r, Vpn(va), n)
      ensures |free| == |old(free)| + n
    {
      hide Partition, Forest, SameMaps, Lookup, UnmappedRun;
      NoneUnmapped(own, words, r, Vpn(va));
      var a := va;
      ghost var i := 0;
      while a < va + n * PGSIZE
        invariant 0 <= i <= n && a == va + i * PGSIZE && Valid() && IsRoot(own, r)
        invariant UnmappedRun(old(own), old(words), own, words, r, Vpn(va), i) && |free| == |old(free)| + i
      {
        RunNext(va, i);
        assert Vpn(a) == Vpn(va) + i;
        StillMapped(old(own), old(words), own, words, r, Vpn(va), i, Vpn(a));
        ghost var own1, words1 := own, words;
        ghost var page := UnmapOne(r, a);
        UnmapMore(old(own), old(words), own1, words1, own, words, r, Vpn(va), i, page);
        a, i := a + PGSIZE, i + 1;
      }
    }

    /** uvmdealloc: shrinks an address space of oldsz bytes. */
    method Uvmdealloc(r: nat, oldsz: nat, newsz: nat) returns (res: nat)
      requires Valid() && IsRoot(own, r) && MapsExactly(words, r, PageCount(oldsz))
      modifies this`free, this`words, this`own
      ensures Valid() && IsRoot(own, r) && res == (if newsz >= oldsz then oldsz else newsz)
      ensures UnmappedRun(old(own), old(words), own, words, r, PageCount(res), PageCount(oldsz) - PageCount(res))
      ensures MapsExactly(words, r, PageCount(res)) && |free| == |old(free)| + PageCount(oldsz) - PageCount(res)
    {
      hide Partition, Forest, SameMaps, Lookup, UnmappedRun;
      NoneUnmapped(own, words, r, PageCount(oldsz));
      if newsz >= oldsz { return oldsz; }
      NoneUnmapped(own, words, r, PageCount(newsz));
      var top, bot := PageCount(oldsz) * PGSIZE, PageCount(newsz) * PGSIZE;
      if bot < top {
        var npages := (top - bot) / PGSIZE;
        AlignedVpn(PageCount(newsz));
        Uvmunmap(r, bot, npages);
        ShrinkExactly(old(own), old(words), own, words, r, PageCount(newsz), PageCount(oldsz));
      }
      return newsz;
    }

    /** One iteration of uvmalloc, or of uvmcopy. */
    method AllocOne(r: nat, a: nat, ap: nat) returns (ok: bool)
      requires Valid() && IsRoot(own, r) && a % PGSIZE == 0 && MapsExactly(words, r, a / PGSIZE)
      modifies this`free, this`words, this`own
      ensures Valid() && IsRoot(own, r)
      ensures !ok ==> |old(free)| < 3 && SameMaps(old(own), old(words), words) && OnlyTables(old(own), own)
      ensures ok ==> |free| + 3 >= |old(free)| && GrownBy(old(own), old(words), own, words, r, a / PGSIZE, ap)
      ensures ok <==> |old(free)| >= 1 + Missing(old(words), r, a / PGSIZE)
      ensures ok ==> |free| == |old(free)| - 1 - Missing(old(words), r, a / PGSIZE)
      ensures ok ==> Hanged(old(own), old(words), words, r, a / PGSIZE)
    {
      hide Partition, Forest, SameMaps, Lookup, MappedRun, MapsExactly, GrownBy, Hanged, SameTables, Missing;
      assert a / PGSIZE < VPNS by { MapBound(pages, free, own, words, r, a / PGSIZE); }
      AlignedVpn(a / PGSIZE);
      ghost var n := a / PGSIZE;
      var mem;
      ok, mem := Kalloc();
      if !ok { OnlyTablesRefl(own); return; }
      ghost var own1, words1 := own, words;
      NextUnmapped(old(own), old(words), words, r, n);
      SameMissing(old(own), old(words), words, r, n);
      var res; ghost var c;
      res, c := Mappages(r, a, PGSIZE, mem, ap);
      assert c <= 1;
      if res != Mapped {
        assert res == NoMemory;
        NoRunSame(own1, words1, words, r, Vpn(a), mem, ap);
        SameMapsChain(old(own), own1, old(words), words1, words);
        ghost var words2 := words;
        ghost var own2 := own;
        GiveBack(mem);
        SameMapsChain(old(own), own2, old(words), words2, words);
        return false;
      }
      GrowsBy(old(own), own1, own, old(words), words1, words, r, n, mem, ap);
      HangedAfter(old(own), own1, old(words), words1, words, r, n);
    }

    /** uvmalloc: grows an address space of oldsz bytes to newsz, if and only if
        there are as many free pages as it needs.  Otherwise no map changes and
        only tables are kept. */
    method Uvmalloc(r: nat, oldsz: nat, newsz: nat) returns (res: nat)
      requires Valid() && IsRoot(own, r) && MapsExactly(words, r, PageCount(oldsz))
      modifies this`free, this`words, this`own
      ensures Valid() && IsRoot(own, r)
      ensures newsz < oldsz ==> res == oldsz && free == old(free) && words == old(words) && own == old(own)
      ensures newsz >= oldsz && res == newsz ==>
        Extended(old(own), old(words), own, words, r, PageCount(oldsz), PageCount(newsz))
      ensures newsz >= oldsz ==>
        (res == newsz <==> |old(free)| >= Need(old(words), r, PageCount(oldsz), PageCount(newsz)))
      ensures newsz >= oldsz && res == newsz ==>
        |free| == |old(free)| - Need(old(words), r, PageCount(oldsz), PageCount(newsz))
      ensures newsz >= oldsz && res != newsz ==> res == 0
      ensures newsz >= oldsz && res != newsz ==> SameMaps(old(own), old(words), words) && OnlyTables(old(own), own)
    {
      hide Growing, PageCount, Valid, SameMaps, OnlyTables, Extended, UnmappedRun, MapsExactly, Need;
      if newsz < oldsz { return oldsz; }
      var start := PageCount(oldsz) * PGSIZE;
      var a := start;
      ghost var n0, n := PageCount(oldsz), PageCount(oldsz);
      Rounded(oldsz, newsz);
      StartGrowing(r, n0);
      while a < newsz
        invariant a == n * PGSIZE && n0 <= n <= PageCount(newsz) && Growing(old(own), old(words), |old(free)|, r, n0, n)
        decreases newsz - a
      {
        NextPage(n, newsz);
        var ok := GrowOne(r, a, 1, old(own), old(words), |old(free)|, n0, n);
        if !ok {
          NeedMore(old(words), r, n0, n + 1, PageCount(newsz));
          ghost var own2, words2 := own, words;
          AlignedVpn(n);
          AlignedVpn(n0);
          var back := Uvmdealloc(r, a, start);
          RolledBack(old(own), old(words), own2, words2, own, words, r, n0, n);
          return 0;
        }
        n, a := n + 1, a + PGSIZE;
      }
      LastPage(n, newsz);
      Grown(old(own), old(words), |old(free)|, r, n0, n);
      return newsz;
    }

    /** Root r has gone from n0 to n pages, of f0 that were free. */
    ghost predicate Growing(own0: map<nat, Role>, words0: map<nat, seq<Entry>>, f0: nat, r: nat, n0: nat, n: nat)
      reads this
    {
      && Valid() && IsRoot(own0, r) && Extended(own0, words0, own, words, r, n0, n)
      && TablesAhead(words0, words, r, n0, n) && |free| == f0 - Need(words0, r, n0, n)
    }

    lemma StartGrowing(r: nat, n: nat)
      requires Valid() && IsRoot(own, r) && MapsExactly(words, r, n)
      ensures Growing(own, words, |free|, r, n, n)
    {
      hide Valid;
      NotYetExtended(own, words, r, n);
      NoneAhead(words, r, n);
    }

    lemma Grown(own0: map<nat, Role>, words0: map<nat, seq<Entry>>, f0: nat, r: nat, n0: nat, n: nat)
      requires Growing(own0, words0, f0, r, n0, n)
      ensures Valid() && IsRoot(own, r) && Extended(own0, words0, own, words, r, n0, n)
        && |free| == f0 - Need(words0, r, n0, n)
    {
      hide Valid;
    }

    /** One page more, or f0 pages were not enough. */
    method GrowOne(r: nat, a: nat, ap: nat, ghost own0: map<nat, Role>, ghost words0: map<nat, seq<Entry>>,
        ghost f0: nat, ghost n0: nat, ghost n: nat)
        returns (ok: bool)
      requires Growing(own0, words0, f0, r, n0, n) && a == n * PGSIZE
      modifies this`free, this`words, this`own
      ensures ok ==> Growing(own0, words0, f0, r, n0, n + 1) && f0 >= Need(words0, r, n0, n + 1)
      ensures ok ==> Lookup(words, r, n).ap == ap && forall x :: n0 <= x < n ==>
        Lookup(words, r, x) == Lookup(old(words), r, x)
      ensures !ok ==> f0 < Need(words0, r, n0, n + 1)
      ensures !ok ==>
        Valid() && IsRoot(own, r) && Extended(own0, words0, own, words, r, n0, n) && MapsExactly(words, r, n)
    {
      hide Partition, Forest, SameMaps, Lookup, Extended, GrownBy, MapsExactly, Hanged, Missing, TablesAhead,
        OnlyTables;
      ghost var own1, words1 := own, words;
      ExtendedRoot(own0, words0, own, words, r, n0, n, r);
      ExtendedExactly(own0, words0, own, words, r, n0, n);
      MapBound(pages, free, own, words, r, n);
      NextMissing(words0, words, r, n0, n);
      ok := AllocOne(r, a, ap);
      if !ok {
        ExtendTables(own0, words0, own1, words1, own, words, r, n0, n);
        ExtendedExactly(own0, words0, own, words, r, n0, n);
        return;
      }
      Extend(own0, words0, own1, words1, own, words, r, n0, n, ap);
      TablesNext(words0, own1, words1, words, r, n0, n);
    }

    /** uvmcopy: gives the empty address space c a copy of every page of r, with
        its permission, if and only if there are as many free pages as that needs.
        Otherwise c is left empty.  The result is 0 in both cases. */
    method Uvmcopy(r: nat, c: nat, sz: nat) returns (res: int)
      requires Valid() && IsRoot(own, r) && IsRoot(own, c) && r != c
      requires MapsExactly(words, r, PageCount(sz)) && MapsExactly(words, c, 0)
      modifies this`free, this`words, this`own
      ensures Valid() && IsRoot(own, r) && IsRoot(own, c) && res == 0
      ensures |old(free)| >= Need(old(words), c, 0, PageCount(sz)) ==>
        && Extended(old(own), old(words), own, words, c, 0, PageCount(sz))
        && |free| == |old(free)| - Need(old(words), c, 0, PageCount(sz))
        && forall x :: 0 <= x < PageCount(sz) ==> Lookup(words, c, x).ap == Lookup(old(words), r, x).ap
      ensures |old(free)| < Need(old(words), c, 0, PageCount(sz)) ==>
        SameMaps(old(own), old(words), words) && OnlyTables(old(own), own)
    {
      hide Growing, PageCount, Valid, SameMaps, Lookup, OnlyTables, Extended, UnmappedRun, MapsExactly, Need;
      var i := 0;
      ghost var n := 0;
      Rounded(0, sz);
      StartGrowing(c, 0);
      ExactlyBelow(words, r, PageCount(sz));
      while i < sz
        invariant i == n * PGSIZE && n <= PageCount(sz) && Growing(old(own), old(words), |old(free)|, c, 0, n)
        invariant forall x :: 0 <= x < n ==> Lookup(words, c, x).ap == Lookup(old(words), r, x).ap
        decreases sz - i
      {
        NextPage(n, sz);
        var ap := PageAp(r, i, old(own), old(words), |old(free)|, c, n);
        var ok := GrowOne(c, i, ap, old(own), old(words), |old(free)|, 0, n);
        if !ok {
          NeedMore(old(words), c, 0, n + 1, PageCount(sz));
          ghost var own2, words2 := own, words;
          ExactlyBelow(words, c, n);
          AlignedVpn(0);
          Uvmunmap(c, 0, i / PGSIZE);
          RolledBack(old(own), old(words), own2, words2, own, words, c, 0, n);
          StillRoot(old(own), own, r);
          return 0;
        }
        n, i := n + 1, i + PGSIZE;
      }
      LastPage(n, sz);
      Grown(old(own), old(words), |old(free)|, c, 0, n);
      ExtendedRoot(old(own), old(words), own, words, c, 0, n, r);
      return 0;
    }

    /** uvmcopy's look at the parent's entry; its panics are unreachable. */
    method PageAp(r: nat, va: nat, ghost own0: map<nat, Role>, ghost words0: map<nat, seq<Entry>>, ghost f0: nat,
        ghost c: nat, ghost n: nat)
        returns (ap: nat)
      requires Growing(own0, words0, f0, c, 0, n) && IsRoot(own0, r) && r != c && va == n * PGSIZE && n < VPNS
        && Lookup(words0, r, n).valid
      modifies this`free, this`words, this`own
      ensures free == old(free) && words == old(words) && own == old(own)
      ensures ap == Lookup(words0, r, n).ap
    {
      hide Partition, Forest, SameMaps;
      AlignedVpn(n);
      ExtendedRoot(own0, words0, own, words, c, 0, n, r);
      var ok, t := Walk(r, va, false);
      Indices(va);
      ReachesTable(own, words, r, Vpn(va), t);
      return words[t][PteIdx(va)].ap;
    }

    /** uvmcreate: an empty address space. */
    method Uvmcreate() returns (ok: bool, r: nat)
      requires Valid()
      modifies this`free, this`words, this`own
      ensures Valid() && SameMaps(old(own), old(words), words)
      ensures ok == (old(free) != [])
      ensures !ok ==> own == old(own) && free == old(free)
      ensures ok ==>
        r !in old(own) && own == old(own)[r := Node(0, r, 0)] && MapsExactly(words, r, 0) && NoTables(words, r)
    {
      hide Partition, Forest, SameMaps;
      ok, r := Kalloc();
      if !ok { return; }
      RootKeeps(own, words, r);
      Rerole(pages, free, own, r, Node(0, r, 0));
      words := words[r := ZERO_PAGE];
      own := own[r := Node(0, r, 0)];
      assert words == old(words)[r := ZERO_PAGE];
    }

    /** State inside freewalk: as Valid, with some slots torn down. */
    ghost predicate Tearing(done: map<nat, nat>)
      reads this
    {
      Partition(pages, free, own) && Forest(own, words, done) && |pages| <= VPNS
    }

    /** freewalk's innermost loop and the kfree after it; the panic on a leaf
        is unreachable. */
    method FreeLeafTable(t: nat, ghost done: map<nat, nat>) returns (ghost done': map<nat, nat>)
      requires Tearing(done) && IsTable(own, t) && own[t].level == 2 && Done(done, t) == 0
      requires own[t].index == Done(done, own[t].parent)
      requires forall k :: 0 <= k < FAN ==> Get(words, t, k) == NULL_ENTRY
      modifies this`free, this`words, this`own
      ensures Tearing(done') && done' == done[t := FAN][old(own)[t].parent := old(own)[t].index + 1]
      ensures own == old(own) - {t} && words == old(words)[t := JUNK_PAGE] && free == [t] + old(free)
    {
      hide Partition, Forest;
      TearingSized(own, words, done, t);
      assert own[t].parent != t by { HungAt(own, words, done, t); }
      done' := done;
      var k := 0;
      while k < FAN
        invariant 0 <= k <= FAN && Tearing(done') && Done(done', t) == k
          && done' == (if k == 0 then done else done[t := k])
        invariant own == old(own) && words == old(words) && free == old(free)
      {
        var e := words[t][k];
        assert !(e.valid || e.table) by { assert e == Get(words, t, k); }
        SkipKeeps(own, words, done', t);
        done' := done'[t := k + 1];
        k := k + 1;
      }
      DropKeeps(own, words, done', t, JUNK_PAGE);
      GivePage(pages, free, own, t);
      done' := done'[own[t].parent := own[t].index + 1];
      Kfree(t);
      own := own - {t};
    }

    /** One iteration of freewalk's middle loop. */
    method FreeMidSlot(m: nat, j: nat, ghost done: map<nat, nat>, ghost own0: map<nat, Role>,
        ghost w0: map<nat, seq<Entry>>)
      returns (ghost done': map<nat, nat>)
      requires Tearing(done) && Pruning(own0, w0, own, words, done, m, j) && j < FAN
      modifies this`free, this`words, this`own
      ensures Tearing(done') && Pruning(own0, w0, own, words, done', m, j + 1)
    {
      hide Partition, Forest, EmptyBelow;
      TearingSized(own, words, done, m);
      TearingSlot(own, words, done, m, j);
      var e := words[m][j];
      if e.valid && e.table {
        KidBelow(own0, w0, own, words, m, j, e.page);
        MoreKids(own0, own, words, done, m, j, e.page);
        done' := FreeLeafTable(e.page, done);
      } else {
        SkipKeeps(own, words, done, m);
        done' := done[m := j + 1];
        SameKids(own0, own, words, done', m, j);
      }
    }

    /** freewalk's middle loop and the kfree after it. */
    method FreeMidTable(m: nat, ghost done: map<nat, nat>) returns (ghost done': map<nat, nat>)
      requires Tearing(done) && IsTable(own, m) && own[m].level == 1 && EmptyBelow(own, words, m)
      requires own[m].index == Done(done, own[m].parent) && forall x :: x in done ==> x == own[m].parent || x !in own
      modifies this`free, this`words, this`own
      ensures Tearing(done') && own == old(own) - Kids(old(own), m, FAN) - {m}
      ensures forall x :: x in own && x in old(words) ==> x in words && words[x] == old(words)[x]
      ensures Done(done', old(own)[m].parent) == old(own)[m].index + 1
      ensures forall x :: x in done' ==> x == old(own)[m].parent || x !in own
    {
      hide Partition, Forest, EmptyBelow;
      ghost var own0, words0 := own, words;
      ForestSized(own, words, done);
      HungAt(own, words, done, m);
      NoKids(own, m);
      done' := done;
      var j := 0;
      while j < FAN
        invariant 0 <= j <= FAN && Tearing(done') && Pruning(own0, words0, own, words, done', m, j)
      {
        done' := FreeMidSlot(m, j, done', own0, words0);
        j := j + 1;
      }
      DropKeeps(own, words, done', m, JUNK_PAGE);
      GivePage(pages, free, own, m);
      done' := done'[own[m].parent := own[m].index + 1];
      Kfree(m);
      own := own - {m};
    }

    /** One iteration of freewalk's outer loop. */
    method FreeTopSlot(r: nat, i: nat, ghost done: map<nat, nat>, ghost own0: map<nat, Role>,
        ghost w0: map<nat, seq<Entry>>)
      returns (ghost done': map<nat, nat>)
      requires Tearing(done) && Felling(own0, w0, own, words, done, r, i) && i < ROOT_FAN
      modifies this`free, this`words, this`own
      ensures Tearing(done') && Felling(own0, w0, own, words, done', r, i + 1)
    {
      hide Partition, Forest, EmptyBelow, NoUserPages;
      TearingSized(own, words, done, r);
      TearingSlot(own, words, done, r, i);
      var e := words[r][i];
      if e.valid && e.table {
        EmptyMid(own0, w0, own, words, r, i, e.page);
        MoreFelled(own0, own, words, done, r, i, e.page);
        done' := FreeMidTable(e.page, done);
      } else {
        SkipKeeps(own, words, done, r);
        done' := done[r := i + 1];
        SameFelled(own0, own, words, done', r, i);
      }
    }

    /** freewalk on a root that maps nothing: its tables are given back, each
        once, and no other page is touched. */
    method Freewalk(r: nat)
      requires Valid() && IsRoot(own, r) && MapsExactly(words, r, 0)
      modifies this`free, this`words, this`own
      ensures Valid() && own == old(own) - Felled(old(own), r, ROOT_FAN) - {r}
      ensures forall x :: x in own && x in old(words) ==> x in words && words[x] == old(words)[x]
    {
      hide Partition, Forest, EmptyBelow, NoUserPages;
      ghost var own0, words0 := own, words;
      ForestSized(own, words, map[]);
      NoLeaves(own, words, r);
      NoneFelled(own, r);
      ghost var done: map<nat, nat> := map[];
      var i := 0;
      while i < ROOT_FAN
        invariant 0 <= i <= ROOT_FAN && Tearing(done) && Felling(own0, words0, own, words, done, r, i)
      {
        done := FreeTopSlot(r, i, done, own0, words0);
        i := i + 1;
      }
      DropRootKeeps(own, words, done, r, JUNK_PAGE);
      GivePage(pages, free, own, r);
      Kfree(r);
      own := own - {r};
      ForgetDone(own, words, done);
    }

    /** uvmfree: every page of the address space goes back to the free list
        exactly once, and every other page keeps its role. */
    method Uvmfree(r: nat, sz: nat)
      requires Valid() && IsRoot(own, r) && MapsExactly(words, r, PageCount(sz))
      modifies this`free, this`words, this`own
      ensures Valid()
      ensures forall p :: p in old(own) ==> (p in own <==> !Belongs(old(own), r, p))
      ensures forall p :: p in own ==> p in old(own) && own[p] == old(own)[p]
    {
      hide Partition, Forest, UnmappedRun, MapsExactly, Lookup, Belongs, Felled;
      ghost var own0, words0 := own, words;
      NoneUnmapped(own, words, r, 0);
      AlignedVpn(0);
      if sz > 0 {
        ExactlyBelow(words, r, PageCount(sz));
        Uvmunmap(r, 0, PageCount(sz));
      } else {
        ExactlyBelow(words, r, 0);
      }
      ShrinkExactly(own0, words0, own, words, r, 0, PageCount(sz));
      ghost var own1, words1 := own, words;
      Freewalk(r);
      AllGone(own0, words0, own1, words1, r, PageCount(sz));
    }
  }

  /** No leaf table under root r has an entry. */
  ghost predicate NoUserPages(own: map<nat, Role>, words: map<nat, seq<Entry>>, r: nat) {
    forall m :: m in own && own[m].Node? && own[m].level == 1 && own[m].parent == r ==> EmptyBelow(own, words, m)
  }

  predicate IsFelled(own: map<nat, Role>, r: nat, i: nat, p: nat)
    requires p in own
  {
    own[p].Node? &&
    var q := own[p].parent;
    || (own[p].level == 1 && q == r && own[p].index < i)
    || (own[p].level == 2 && q in own && own[q].Node? && own[q].level == 1 && own[q].parent == r && own[q].index < i)
  }

  /** The tables hung below the first i slots of root r. */
  function Felled(own: map<nat, Role>, r: nat, i: nat): set<nat> {
    set p | p in own && IsFelled(own, r, i, p)
  }

  ghost predicate Felling(own0: map<nat, Role>, w0: map<nat, seq<Entry>>, own: map<nat, Role>,
      w: map<nat, seq<Entry>>, done: map<nat, nat>, r: nat, i: nat) {
    && IsRoot(own0, r) && NoUserPages(own0, w0, r) && Sized(own0, w0)
    && own == own0 - Felled(own0, r, i) && r in own && Done(done, r) == i
    && (forall x :: x in own && x in w0 ==> x in w && w[x] == w0[x])
    && (forall x :: x in done ==> x == r || x !in own)
  }

  lemma NoneFelled(own: map<nat, Role>, r: nat)
    ensures Felled(own, r, 0) == {} && own - {} == own
  {
  }

  lemma EmptyMid(own0: map<nat, Role>, w0: map<nat, seq<Entry>>, own: map<nat, Role>, w: map<nat, seq<Entry>>, r: nat,
      i: nat, m: nat)
    requires NoUserPages(own0, w0, r) && Sized(own0, w0) && own == own0 - Felled(own0, r, i) && m in own
      && own[m] == Node(1, r, i)
    requires forall x :: x in own && x in w0 ==> x in w && w[x] == w0[x]
    ensures EmptyBelow(own, w, m)
  {
    assert EmptyBelow(own0, w0, m);
    forall t, k | t in own && own[t].Node? && own[t].level == 2 && own[t].parent == m && 0 <= k < FAN
      ensures Get(w, t, k) == NULL_ENTRY {
      assert Get(w0, t, k) == NULL_ENTRY;
    }
  }

  lemma MoreFelled(own0: map<nat, Role>, own: map<nat, Role>, w: map<nat, seq<Entry>>, done: map<nat, nat>, r: nat,
      i: nat, m: nat)
    requires IsRoot(own0, r) && own == own0 - Felled(own0, r, i) && m in own && own[m] == Node(1, r, i)
      && Forest(own, w, done)
    ensures own - Kids(own, m, FAN) - {m} == own0 - Felled(own0, r, i + 1)
  {
    forall x | x in own && own[x] == Node(1, r, i) ensures x == m {
      assert Hung(own, w, done, x) && Hung(own, w, done, m);
    }
    forall x | x in own && own[x].Node? && own[x].level == 2 && own[x].parent == m ensures own[x].index < FAN {
      assert Hung(own, w, done, x);
    }
    forall x | x in own0 ensures x in Felled(own0, r, i + 1) <==>
      x in Felled(own0, r, i) || x in Kids(own, m, FAN) || x == m {
      FelledStep(own0, own, r, i, m, x);
    }
  }

  lemma FelledStep(own0: map<nat, Role>, own: map<nat, Role>, r: nat, i: nat, m: nat, x: nat)
    requires IsRoot(own0, r) && own == own0 - Felled(own0, r, i) && m in own && own[m] == Node(1, r, i) && x in own0
    requires forall y :: y in own && own[y] == Node(1, r, i) ==> y == m
    requires forall y :: y in own && own[y].Node? && own[y].level == 2 && own[y].parent == m ==> own[y].index < FAN
    ensures x in Felled(own0, r, i + 1) <==> x in Felled(own0, r, i) || x in Kids(own, m, FAN) || x == m
  {
    forall y | y in own0 && own0[y] == Node(1, r, i) ensures y == m { assert y in own && own[y] == own0[y]; }
    if x in own { assert own[x] == own0[x]; }
  }

  lemma SameFelled(own0: map<nat, Role>, own: map<nat, Role>, w: map<nat, seq<Entry>>, done: map<nat, nat>, r: nat,
      i: nat)
    requires IsRoot(own0, r) && own == own0 - Felled(own0, r, i) && Forest(own, w, done) && Done(done, r) == i + 1
    ensures own == own0 - Felled(own0, r, i + 1)
  {
    forall x | x in own && own[x].Node? && own[x].level == 1 && own[x].parent == r ensures own[x].index >= i + 1 {
      assert Hung(own, w, done, x);
    }
    forall y | y in own0 && y !in Felled(own0, r, i) ensures y in own && own[y] == own0[y] {}
    forall y | y in own0 && own0[y].Node? && own0[y].level == 1 && own0[y].parent == r && own0[y].index < i + 1
      ensures own0[y].index < i {}
    forall x | x in Felled(own0, r, i + 1) ensures x in Felled(own0, r, i) {}
  }

  lemma NoLeaves(own: map<nat, Role>, words: map<nat, seq<Entry>>, r: nat)
    requires Forest(own, words, map[]) && IsRoot(own, r) && MapsExactly(words, r, 0)
    ensures NoUserPages(own, words, r)
  {
    forall m, t, k | m in own && own[m].Node? && own[m].level == 1 && own[m].parent == r && t in own && own[t].Node?
      && own[t].level == 2 && own[t].parent == m && 0 <= k < FAN
      ensures Get(words, t, k) == NULL_ENTRY {
      assert Hung(own, words, map[], m) && Hung(own, words, map[], t);
      var v := Join(own[m].index, own[t].index, k);
      SplitJoin(own[m].index, own[t].index, k);
      assert Lookup(words, r, v) == Get(words, t, k);
    }
  }

  lemma ExactlyBelow(words: map<nat, seq<Entry>>, r: nat, n: nat)
    requires MapsExactly(words, r, n)
    ensures n <= VPNS && forall x :: 0 <= x < n ==> Lookup(words, r, x).valid
  {
  }

  /** Page p belongs to the address space under root r. */
  predicate Belongs(own: map<nat, Role>, r: nat, p: nat)
    decreases if p in own && own[p].Node? then own[p].level else 0
  {
    p in own && own[p].Node? &&
    (p == r ||
     var q := own[p].parent;
     own[p].level >= 1 && q in own && own[q].Node? && own[q].level < own[p].level && Belongs(own, r, q))
  }

  lemma AllGone(own0: map<nat, Role>, w0: map<nat, seq<Entry>>, own1: map<nat, Role>, w1: map<nat, seq<Entry>>,
      r: nat, n: nat)
    requires Forest(own0, w0, map[]) && IsRoot(own0, r) && MapsExactly(w0, r, n)
      && UnmappedRun(own0, w0, own1, w1, r, 0, n)
    ensures forall p :: p in own0 ==> (p in own1 - Felled(own1, r, ROOT_FAN) - {r} <==> !Belongs(own0, r, p))
    ensures forall p :: p in own1 ==> p in own0 && own1[p] == own0[p]
  {
    forall p | p in own0 ensures p in own1 - Felled(own1, r, ROOT_FAN) - {r} <==> !Belongs(own0, r, p) {
      GoneOne(own0, w0, own1, w1, r, n, p);
    }
  }

  lemma TablesStay(own0: map<nat, Role>, w0: map<nat, seq<Entry>>, own1: map<nat, Role>, w1: map<nat, seq<Entry>>,
      r: nat, n: nat, t: nat)
    requires Forest(own0, w0, map[]) && IsRoot(own0, r) && MapsExactly(w0, r, n)
      && UnmappedRun(own0, w0, own1, w1, r, 0, n)
    requires t in own0 && (own0[t].Node? ==> own0[t].level != 3)
    ensures t in own1 && own1[t] == own0[t]
  {
    if t !in own1 {
      var x :| 0 <= x < n && Lookup(w0, r, x).page == t;
      MappedPage(own0, w0, r, x);
      assert false;
    }
  }

  /** A user page is the one its page number leads to. */
  lemma UserPage(own: map<nat, Role>, words: map<nat, seq<Entry>>, p: nat) returns (r: nat, v: nat)
    requires Forest(own, words, map[]) && p in own && own[p].Node? && own[p].level == 3
    ensures IsRoot(own, r) && v < VPNS && Lookup(words, r, v).valid && Lookup(words, r, v).page == p
    ensures forall q :: IsRoot(own, q) ==> (Belongs(own, q, p) <==> q == r)
  {
    assert Hung(own, words, map[], p);
    var t := own[p].parent;
    assert Hung(own, words, map[], t);
    var m := own[t].parent;
    assert Hung(own, words, map[], m);
    r := own[m].parent;
    v := Join(own[m].index, own[t].index, own[p].index);
    SplitJoin(own[m].index, own[t].index, own[p].index);
    forall q | IsRoot(own, q) ensures Belongs(own, q, p) <==> q == r {
      assert Belongs(own, q, m) <==> Belongs(own, q, r);
      assert Belongs(own, q, t) <==> Belongs(own, q, m);
    }
  }

  lemma GoneOne(own0: map<nat, Role>, w0: map<nat, seq<Entry>>, own1: map<nat, Role>, w1: map<nat, seq<Entry>>,
      r: nat, n: nat, p: nat)
    requires Forest(own0, w0, map[]) && IsRoot(own0, r) && MapsExactly(w0, r, n)
      && UnmappedRun(own0, w0, own1, w1, r, 0, n)
    requires p in own0 && (own0[p].Node? ==> own0[p].level <= 3)
    ensures p in own1 - Felled(own1, r, ROOT_FAN) - {r} <==> !Belongs(own0, r, p)
  {
    if own0[p].Node? && own0[p].level == 3 {
      var q, v := UserPage(own0, w0, p);
      if p !in own1 {
        var x :| 0 <= x < n && Lookup(w0, r, x).page == p;
        Injective(own0, w0, r, x, q, v);
      }
    } else {
      TablesStay(own0, w0, own1, w1, r, n, p);
      if own0[p].Node? && own0[p].level != 0 { TableGone(own0, w0, own1, w1, r, n, p); }
    }
  }

  lemma TableGone(own0: map<nat, Role>, w0: map<nat, seq<Entry>>, own1: map<nat, Role>, w1: map<nat, seq<Entry>>,
      r: nat, n: nat, p: nat)
    requires Forest(own0, w0, map[]) && IsRoot(own0, r) && MapsExactly(w0, r, n)
      && UnmappedRun(own0, w0, own1, w1, r, 0, n)
    requires p in own0 && own0[p].Node? && 1 <= own0[p].level <= 2
    ensures p in own1 && p != r && (p in Felled(own1, r, ROOT_FAN) <==> Belongs(own0, r, p))
  {
    TablesStay(own0, w0, own1, w1, r, n, p);
    HungAt(own0, w0, map[], p);
    var q := own0[p].parent;
    TablesStay(own0, w0, own1, w1, r, n, q);
    if own0[p].level == 1 {
      assert Belongs(own0, r, q) <==> q == r;
    } else {
      HungAt(own0, w0, map[], q);
      var top := own0[q].parent;
      hide Forest, MapsExactly, UnmappedRun;
      assert Belongs(own0, r, top) <==> top == r;
      assert Belongs(own0, r, q) <==> top == r;
    }
  }

  /** The children of m below index j are gone, from pages own0 with words w0. */
  ghost predicate Pruning(own0: map<nat, Role>, w0: map<nat, seq<Entry>>, own: map<nat, Role>,
      w: map<nat, seq<Entry>>, done: map<nat, nat>, m: nat, j: nat) {
    && IsTable(own0, m) && own0[m].level == 1 && EmptyBelow(own0, w0, m) && Sized(own0, w0)
    && own == own0 - Kids(own0, m, j) && m in own
    && var q := own0[m].parent;
    && q in own && own0[q].Node? && own0[q].level == 0
    && Done(done, m) == j && Done(done, q) == own0[m].index
    && (forall x :: x in own && x in w0 ==> x in w && w[x] == w0[x])
    && (forall x :: x in done ==> x == q || x == m || x !in own)
  }

  lemma ForestSized(own: map<nat, Role>, words: map<nat, seq<Entry>>, done: map<nat, nat>)
    requires Forest(own, words, done)
    ensures Sized(own, words)
  {
  }

  /** The children of table m below index j. */
  function Kids(own: map<nat, Role>, m: nat, j: nat): set<nat> {
    set p | p in own && own[p].Node? && own[p].level == 2 && own[p].parent == m && own[p].index < j
  }

  ghost predicate EmptyBelow(own: map<nat, Role>, words: map<nat, seq<Entry>>, m: nat) {
    forall t, k :: t in own && own[t].Node? && own[t].level == 2 && own[t].parent == m && 0 <= k < FAN ==>
      Get(words, t, k) == NULL_ENTRY
  }

  lemma HungAt(own: map<nat, Role>, words: map<nat, seq<Entry>>, done: map<nat, nat>, p: nat)
    requires Forest(own, words, done) && p in own && own[p].Node? && own[p].level != 0
    ensures Hung(own, words, done, p)
  {
  }

  lemma TearingSlot(own: map<nat, Role>, words: map<nat, seq<Entry>>, done: map<nat, nat>, t: nat, k: nat)
    requires Forest(own, words, done) && IsTable(own, t) && Done(done, t) <= k < Fan(own[t].level)
    ensures Slot(own, words, t, k)
  {
  }

  lemma NoKids(own: map<nat, Role>, m: nat)
    ensures Kids(own, m, 0) == {} && own - {} == own
  {
  }

  lemma KidBelow(own0: map<nat, Role>, w0: map<nat, seq<Entry>>, own: map<nat, Role>, w: map<nat, seq<Entry>>, m: nat,
      j: nat, p: nat)
    requires EmptyBelow(own0, w0, m) && own == own0 - Kids(own0, m, j) && p in own && own[p] == Node(2, m, j)
      && Sized(own0, w0)
    requires forall x :: x in own && x in w0 ==> x in w && w[x] == w0[x]
    ensures forall k :: 0 <= k < FAN ==> Get(w, p, k) == NULL_ENTRY
  {
    forall k | 0 <= k < FAN ensures Get(w, p, k) == NULL_ENTRY { assert Get(w0, p, k) == NULL_ENTRY; }
  }

  lemma MoreKids(own0: map<nat, Role>, own: map<nat, Role>, w: map<nat, seq<Entry>>, done: map<nat, nat>, m: nat,
      j: nat, p: nat)
    requires own == own0 - Kids(own0, m, j) && p in own && own[p] == Node(2, m, j) && Forest(own, w, done)
    ensures own - {p} == own0 - Kids(own0, m, j + 1)
  {
    forall x | x in own && own[x] == Node(2, m, j) ensures x == p {
      assert Hung(own, w, done, x) && Hung(own, w, done, p);
    }
    forall x | x in Kids(own0, m, j + 1) && x !in Kids(own0, m, j) ensures x == p {
      assert x in own && own[x] == Node(2, m, j);
    }
  }

  lemma SameKids(own0: map<nat, Role>, own: map<nat, Role>, w: map<nat, seq<Entry>>, done: map<nat, nat>, m: nat,
      j: nat)
    requires own == own0 - Kids(own0, m, j) && Forest(own, w, done) && Done(done, m) == j + 1
    ensures own == own0 - Kids(own0, m, j + 1)
  {
    forall x | x in own && own[x].Node? && own[x].level == 2 && own[x].parent == m ensures own[x].index >= j + 1 {
      assert Hung(own, w, done, x);
    }
    forall x | x in own0 && x !in Kids(own0, m, j) ensures x in own && own[x] == own0[x] {}
    forall x | x in Kids(own0, m, j + 1) ensures x in Kids(own0, m, j) {}
  }

  lemma TearingSized(own: map<nat, Role>, words: map<nat, seq<Entry>>, done: map<nat, nat>, t: nat)
    requires Forest(own, words, done) && t in own
    ensures t in words && |words[t]| == FAN
  {
  }

  lemma AlignedVpn(n: nat)
    ensures n < VPNS ==> Vpn(n * PGSIZE) == n
    ensures PageCount(n * PGSIZE) == n && Span(n * PGSIZE, PGSIZE) == 1
  {
  }

  lemma OnlyTablesRefl(own: map<nat, Role>)
    ensures OnlyTables(own, own)
  {
  }

  lemma ShrinkExactly(own0: map<nat, Role>, w0: map<nat, seq<Entry>>, own: map<nat, Role>, w: map<nat, seq<Entry>>,
      r: nat, n: nat, m: nat)
    requires n <= m && MapsExactly(w0, r, m) && IsRoot(own0, r) && UnmappedRun(own0, w0, own, w, r, n, m - n)
    ensures MapsExactly(w, r, n)
  {
    hide Lookup;
    forall x | 0 <= x < VPNS ensures if x < n then Lookup(w, r, x).valid else Lookup(w, r, x) == NULL_ENTRY {}
  }

  lemma NextUnmapped(own: map<nat, Role>, w0: map<nat, seq<Entry>>, w: map<nat, seq<Entry>>, r: nat, n: nat)
    requires SameMaps(own, w0, w) && IsRoot(own, r) && MapsExactly(w0, r, n)
    ensures MapsExactly(w, r, n) && (n < VPNS ==> !Lookup(w, r, n).valid)
  {
    hide Lookup;
  }

  lemma NoRunSame(own: map<nat, Role>, w0: map<nat, seq<Entry>>, w: map<nat, seq<Entry>>, r: nat, v0: nat, pa: nat,
      ap: nat)
    requires v0 < VPNS && MappedRun(own, w0, w, r, v0, 0, pa, ap)
    ensures SameMaps(own, w0, w)
  {
    hide Lookup;
  }

  /** Page number n of root r is newly mapped to a page that was free. */
  ghost predicate GrownBy(own0: map<nat, Role>, w0: map<nat, seq<Entry>>, own: map<nat, Role>,
      w: map<nat, seq<Entry>>, r: nat, n: nat, ap: nat) {
    && n < VPNS && Present(Lookup(w, r, n)) && Lookup(w, r, n).ap == ap && Lookup(w, r, n).page !in own0
    && (forall q, x :: IsRoot(own0, q) && 0 <= x < VPNS && !(q == r && x == n) ==> Lookup(w, q, x) == Lookup(w0, q, x))
    && (forall p :: p in own0 ==> p in own && own[p] == own0[p])
    && (forall p :: p in own && p !in own0 ==> p == Lookup(w, r, n).page || (own[p].Node? && 1 <= own[p].level <= 2))
  }

  lemma GrowsBy(own0: map<nat, Role>, own1: map<nat, Role>, own: map<nat, Role>, w0: map<nat, seq<Entry>>,
      w1: map<nat, seq<Entry>>, w: map<nat, seq<Entry>>, r: nat, n: nat, mem: nat, ap: nat)
    requires n < VPNS && IsRoot(own0, r) && mem !in own0 && own1 == own0[mem := Loose] && SameMaps(own0, w0, w1)
    requires MappedRun(own1, w1, w, r, n, 1, mem, ap) && OnlyTablesBut(own1, own, mem, 1)
    ensures GrownBy(own0, w0, own, w, r, n, ap)
  {
    hide Lookup;
    forall q, x | IsRoot(own0, q) && 0 <= x < VPNS
      ensures Lookup(w, q, x) == if q == r && x == n then LeafEntry(mem, ap) else Lookup(w0, q, x) {
      assert IsRoot(own1, q) && Lookup(w1, q, x) == Lookup(w0, q, x);
      OffsetAt(n, 0, x);
      hide Offset;
    }
  }

  /** Root r has gone from n0 to n pages; the pages it had, and all other
      maps, are as they were, and the new pages were free before. */
  ghost predicate Extended(own0: map<nat, Role>, w0: map<nat, seq<Entry>>, own: map<nat, Role>,
      w: map<nat, seq<Entry>>, r: nat, n0: nat, n: nat) {
    && n0 <= n && MapsExactly(w, r, n)
    && (forall q, x :: IsRoot(own0, q) && 0 <= x < VPNS && (q != r || x < n0) ==> Lookup(w, q, x) == Lookup(w0, q, x))
    && (forall p :: p in own0 ==> p in own && own[p] == own0[p])
    && (forall p :: p in own && p !in own0 ==> Leads(w, r, n0, n - n0, p) || (own[p].Node? && 1 <= own[p].level <= 2))
    && (forall x :: n0 <= x < n ==> Lookup(w, r, x).page !in own0)
  }

  lemma NotYetExtended(own: map<nat, Role>, w: map<nat, seq<Entry>>, r: nat, n: nat)
    requires MapsExactly(w, r, n)
    ensures Extended(own, w, own, w, r, n, n)
  {
  }

  lemma ExtendedExactly(own0: map<nat, Role>, w0: map<nat, seq<Entry>>, own: map<nat, Role>, w: map<nat, seq<Entry>>,
      r: nat, n0: nat, n: nat)
    requires Extended(own0, w0, own, w, r, n0, n)
    ensures MapsExactly(w, r, n)
  {
  }

  lemma ExtendedRoot(own0: map<nat, Role>, w0: map<nat, seq<Entry>>, own: map<nat, Role>, w: map<nat, seq<Entry>>,
      r: nat, n0: nat, n: nat, q: nat)
    requires Extended(own0, w0, own, w, r, n0, n) && IsRoot(own0, q)
    ensures IsRoot(own, q)
  {
  }

  lemma Extend(own0: map<nat, Role>, w0: map<nat, seq<Entry>>, own1: map<nat, Role>, w1: map<nat, seq<Entry>>,
      own: map<nat, Role>, w: map<nat, seq<Entry>>, r: nat, n0: nat, n: nat, ap: nat)
    requires Extended(own0, w0, own1, w1, r, n0, n) && GrownBy(own1, w1, own, w, r, n, ap) && IsRoot(own0, r)
    ensures Extended(own0, w0, own, w, r, n0, n + 1)
    ensures Lookup(w, r, n).ap == ap && forall x :: n0 <= x < n ==> Lookup(w, r, x) == Lookup(w1, r, x)
  {
    hide Lookup;
    assert IsRoot(own1, r);
    forall x | 0 <= x < VPNS ensures if x < n + 1 then Lookup(w, r, x).valid else Lookup(w, r, x) == NULL_ENTRY {}
    forall q, x | IsRoot(own0, q) && 0 <= x < VPNS && (q != r || x < n0) ensures Lookup(w, q, x) == Lookup(w0, q, x) {
      assert IsRoot(own1, q);
    }
    forall p | p in own && p !in own0
      ensures Leads(w, r, n0, n + 1 - n0, p) || (own[p].Node? && 1 <= own[p].level <= 2) {
      if p !in own1 {
        if p == Lookup(w, r, n).page { assert Leads(w, r, n0, n + 1 - n0, p); }
      } else if Leads(w1, r, n0, n - n0, p) {
        var x :| n0 <= x < n && Lookup(w1, r, x).page == p;
        assert x < VPNS && Lookup(w, r, x).page == p;
      }
    }
    forall x | n0 <= x < n + 1 ensures Lookup(w, r, x).page !in own0 {
      if x < n { assert Lookup(w, r, x) == Lookup(w1, r, x); }
    }
  }

  /** An extension followed by the hanging of more tables. */
  lemma ExtendTables(own0: map<nat, Role>, w0: map<nat, seq<Entry>>, own1: map<nat, Role>, w1: map<nat, seq<Entry>>,
      own: map<nat, Role>, w: map<nat, seq<Entry>>, r: nat, n0: nat, n: nat)
    requires Extended(own0, w0, own1, w1, r, n0, n) && SameMaps(own1, w1, w) && OnlyTables(own1, own) && IsRoot(own0, r)
    ensures Extended(own0, w0, own, w, r, n0, n)
  {
    hide Lookup;
    assert IsRoot(own1, r);
    forall q, x | IsRoot(own0, q) && 0 <= x < VPNS
      ensures Lookup(w, q, x) == Lookup(w1, q, x) { assert IsRoot(own1, q); }
    forall p | p in own && p !in own0 ensures Leads(w, r, n0, n - n0, p) || (own[p].Node? && 1 <= own[p].level <= 2) {
      if p in own1 && Leads(w1, r, n0, n - n0, p) {
        var x :| n0 <= x < n && Lookup(w1, r, x).page == p;
        assert x < VPNS && Lookup(w, r, x).page == p;
      }
    }
  }

  lemma RolledBack(own0: map<nat, Role>, w0: map<nat, seq<Entry>>, own1: map<nat, Role>, w1: map<nat, seq<Entry>>,
      own: map<nat, Role>, w: map<nat, seq<Entry>>, r: nat, n0: nat, n: nat)
    requires Extended(own0, w0, own1, w1, r, n0, n) && UnmappedRun(own1, w1, own, w, r, n0, n - n0) && IsRoot(own0, r)
      && MapsExactly(w0, r, n0)
    ensures SameMaps(own0, w0, w) && OnlyTables(own0, own)
  {
    forall q, x | IsRoot(own0, q) && 0 <= x < VPNS ensures Lookup(w, q, x) == Lookup(w0, q, x) {
      hide Lookup;
      assert IsRoot(own1, q);
    }
  }

  /** n page numbers of root r from v0 on are unmapped, their pages are given
      back, and nothing else changes. */
  ghost predicate UnmappedRun(own0: map<nat, Role>, w0: map<nat, seq<Entry>>, own: map<nat, Role>,
      w: map<nat, seq<Entry>>, r: nat, v0: nat, n: nat) {
    && (forall q, x :: IsRoot(own0, q) && 0 <= x < VPNS ==>
          Lookup(w, q, x) == if q == r && v0 <= x < v0 + n then NULL_ENTRY else Lookup(w0, q, x))
    && (forall p :: p in own ==> p in own0 && own[p] == own0[p])
    && (forall p :: p in own0 && p !in own ==> Leads(w0, r, v0, n, p))
    && (forall x :: v0 <= x < v0 + n ==> Lookup(w0, r, x).page !in own)
    && (forall q :: IsRoot(own0, q) ==> IsRoot(own, q))
  }

  predicate Leads(w: map<nat, seq<Entry>>, r: nat, v0: nat, n: nat, p: nat) {
    exists x :: v0 <= x < v0 + n && Lookup(w, r, x).page == p
  }

  lemma NoneUnmapped(own: map<nat, Role>, w: map<nat, seq<Entry>>, r: nat, v0: nat)
    ensures UnmappedRun(own, w, own, w, r, v0, 0)
  {
  }

  lemma StillMapped(own0: map<nat, Role>, w0: map<nat, seq<Entry>>, own: map<nat, Role>, w: map<nat, seq<Entry>>,
      r: nat, v0: nat, n: nat, x: nat)
    requires UnmappedRun(own0, w0, own, w, r, v0, n) && IsRoot(own0, r) && v0 + n <= x < VPNS
    ensures Lookup(w, r, x) == Lookup(w0, r, x)
  {
    hide Lookup;
  }

  lemma UnmapMore(own0: map<nat, Role>, w0: map<nat, seq<Entry>>, own1: map<nat, Role>, w1: map<nat, seq<Entry>>,
      own: map<nat, Role>, w: map<nat, seq<Entry>>,
                  r: nat, v0: nat, n: nat, page: nat)
    requires UnmappedRun(own0, w0, own1, w1, r, v0, n) && IsRoot(own0, r) && v0 + n < VPNS
    requires page == Lookup(w1, r, v0 + n).page && own == own1 - {page} && page in own1 && own1[page].Node?
      && own1[page].level == 3
    requires forall q, x :: IsRoot(own1, q) && 0 <= x < VPNS ==>
      Lookup(w, q, x) == if q == r && x == v0 + n then NULL_ENTRY else Lookup(w1, q, x)
    ensures UnmappedRun(own0, w0, own, w, r, v0, n + 1)
  {
    hide Lookup;
    assert page == Lookup(w0, r, v0 + n).page;
    forall p | p in own0 && p !in own ensures Leads(w0, r, v0, n + 1, p) {
      if p != page {
        var x :| v0 <= x < v0 + n && Lookup(w0, r, x).page == p;
        assert v0 <= x < v0 + (n + 1);
      }
    }
    forall q, x | IsRoot(own0, q) && 0 <= x < VPNS
      ensures Lookup(w, q, x) == if q == r && v0 <= x < v0 + (n + 1) then NULL_ENTRY else Lookup(w0, q, x) {
      assert IsRoot(own1, q);
    }
  }

  /** How many pages a byte range touches. */
  function Span(va: nat, size: nat): nat
    requires size >= 1
  {
    (va + size - 1) / PGSIZE - va / PGSIZE + 1
  }

  function Offset(v0: nat, x: nat): nat
    requires v0 < VPNS
  {
    (x + VPNS - v0) % VPNS
  }

  /** From v0 on, c page numbers of root r map pages from pa on; the rest of
      every map is as it was. */
  ghost predicate MappedRun(own: map<nat, Role>, w0: map<nat, seq<Entry>>, w: map<nat, seq<Entry>>, r: nat, v0: nat,
      c: nat, pa: nat, ap: nat)
    requires v0 < VPNS
  {
    forall q, x :: IsRoot(own, q) && 0 <= x < VPNS ==>
      Lookup(w, q, x) == if q == r && Offset(v0, x) < c then LeafEntry(pa + Offset(v0, x), ap) else Lookup(w0, q, x)
  }

  lemma NoRun(own: map<nat, Role>, w: map<nat, seq<Entry>>, r: nat, v0: nat, pa: nat, ap: nat)
    requires v0 < VPNS
    ensures MappedRun(own, w, w, r, v0, 0, pa, ap)
  {
  }

  lemma RunNext(va: nat, c: nat)
    ensures Vpn(va / PGSIZE * PGSIZE + c * PGSIZE) == (Vpn(va) + c) % VPNS
  {
    var q := va / PGSIZE;
    assert (q * PGSIZE + c * PGSIZE) / PGSIZE == q + c;
  }

  lemma RunSame(own: map<nat, Role>, own1: map<nat, Role>, w0: map<nat, seq<Entry>>, w1: map<nat, seq<Entry>>,
      w: map<nat, seq<Entry>>, r: nat, v0: nat, c: nat, pa: nat, ap: nat)
    requires v0 < VPNS && MappedRun(own, w0, w1, r, v0, c, pa, ap) && SameMaps(own1, w1, w)
    requires forall q :: IsRoot(own, q) ==> IsRoot(own1, q)
    ensures MappedRun(own, w0, w, r, v0, c, pa, ap)
  {
    hide Lookup, Offset;
    forall q, x | IsRoot(own, q) && 0 <= x < VPNS ensures Lookup(w, q, x) == Lookup(w1, q, x) {
      assert IsRoot(own1, q);
    }
  }

  lemma OffsetAt(v0: nat, c: nat, x: nat)
    requires v0 < VPNS && x < VPNS && c < VPNS
    ensures Offset(v0, x) < VPNS && (x == (v0 + c) % VPNS <==> Offset(v0, x) == c)
  {
  }

  lemma RunFull(own: map<nat, Role>, w0: map<nat, seq<Entry>>, w1: map<nat, seq<Entry>>, r: nat, v0: nat, c: nat,
      pa: nat, ap: nat, x: nat)
    requires v0 < VPNS && MappedRun(own, w0, w1, r, v0, c, pa, ap) && IsRoot(own, r) && c >= VPNS && x < VPNS
    ensures Lookup(w1, r, x).valid
  {
    hide Lookup;
  }

  lemma RunMore(own: map<nat, Role>, own1: map<nat, Role>, w0: map<nat, seq<Entry>>, w1: map<nat, seq<Entry>>,
      w: map<nat, seq<Entry>>, r: nat, v0: nat, c: nat, pa: nat, ap: nat)
    requires v0 < VPNS && MappedRun(own, w0, w1, r, v0, c, pa, ap) && IsRoot(own, r)
    requires forall q :: IsRoot(own, q) ==> IsRoot(own1, q)
    requires !Lookup(w1, r, (v0 + c) % VPNS).valid
    requires forall q, x :: IsRoot(own1, q) && 0 <= x < VPNS ==>
      Lookup(w, q, x) == if q == r && x == (v0 + c) % VPNS then LeafEntry(pa + c, ap) else Lookup(w1, q, x)
    ensures MappedRun(own, w0, w, r, v0, c + 1, pa, ap)
  {
    hide Lookup;
    if c >= VPNS { RunFull(own, w0, w1, r, v0, c, pa, ap, (v0 + c) % VPNS); }
    forall q, x | IsRoot(own, q) && 0 <= x < VPNS
      ensures Lookup(w, q, x) == if q == r && Offset(v0, x) < c + 1 then LeafEntry(pa + Offset(v0, x), ap)
        else Lookup(w0, q, x) {
      assert IsRoot(own1, q);
      OffsetAt(v0, c, x);
      hide Offset;
    }
  }

  lemma RunBusy(own: map<nat, Role>, w0: map<nat, seq<Entry>>, w1: map<nat, seq<Entry>>, r: nat, v0: nat, c: nat,
      pa: nat, ap: nat)
    requires v0 < VPNS && MappedRun(own, w0, w1, r, v0, c, pa, ap) && IsRoot(own, r)
    requires Lookup(w1, r, (v0 + c) % VPNS).valid
    ensures c >= VPNS || Lookup(w0, r, (v0 + c) % VPNS).valid
  {
    hide Lookup;
    if c < VPNS { OffsetAt(v0, c, (v0 + c) % VPNS); }
  }

  // ----- how many pages an extension needs

  /** The tables missing for page number x once those for n0 to x are there. */
  function Extra(w: map<nat, seq<Entry>>, r: nat, n0: nat, x: nat): nat {
    if !HasMid(w, r, x) && (x <= n0 || Top(x) != Top(x - 1)) then 2
    else if !HasLeaf(w, r, x) && (x <= n0 || Top(x) != Top(x - 1) || Mid(x) != Mid(x - 1)) then 1
    else 0
  }

  /** The pages that page numbers n0 to n take, with their tables. */
  function Need(w: map<nat, seq<Entry>>, r: nat, n0: nat, n: nat): nat {
    if n <= n0 then 0 else Need(w, r, n0, n - 1) + 1 + Extra(w, r, n0, n - 1)
  }

  /** Below a new root: the pages, and the tables that cover them. */
  lemma {:induction false} NeedFresh(w: map<nat, seq<Entry>>, r: nat, n: nat)
    requires NoTables(w, r) && n <= VPNS
    ensures Need(w, r, 0, n) == n + (n + FAN - 1) / FAN + (n + 0x4_0000 - 1) / 0x4_0000
  {
    hide Extra, NoTables;
    if n > 0 {
      NeedFresh(w, r, n - 1);
      ExtraFresh(w, r, n - 1);
      CeilFan(n - 1);
      CeilMid(n - 1);
    }
  }

  lemma CeilFan(x: nat)
    ensures (x + FAN) / FAN == (x + FAN - 1) / FAN + if x % FAN == 0 then 1 else 0
  {
  }

  lemma CeilMid(x: nat)
    ensures (x + 0x4_0000) / 0x4_0000 == (x + 0x4_0000 - 1) / 0x4_0000 + if x % 0x4_0000 == 0 then 1 else 0
  {
  }

  lemma ExtraFresh(w: map<nat, seq<Entry>>, r: nat, x: nat)
    requires NoTables(w, r) && x < VPNS
    ensures Extra(w, r, 0, x) == (if x % FAN == 0 then 1 else 0) + if x % 0x4_0000 == 0 then 1 else 0
  {
    if x > 0 {
      var q, m := x / FAN, x % FAN;
      assert x == FAN * q + m;
      assert x / 0x4_0000 == q / FAN && (x - 1) / 0x4_0000 == (x - 1) / FAN / FAN;
    }
  }

  /** At most three pages for each. */
  lemma {:induction false} NeedBound(w: map<nat, seq<Entry>>, r: nat, n0: nat, n: nat)
    requires n0 <= n
    ensures n - n0 <= Need(w, r, n0, n) <= 3 * (n - n0)
  {
    if n0 < n { NeedBound(w, r, n0, n - 1); }
  }

  lemma {:induction false} NeedMore(w: map<nat, seq<Entry>>, r: nat, n0: nat, m: nat, n: nat)
    requires m <= n
    ensures Need(w, r, n0, m) <= Need(w, r, n0, n)
  {
    hide Extra;
    if m < n { NeedMore(w, r, n0, m, n - 1); }
  }

  /** Of the tables for page numbers from n on, those shared with n - 1 have been added. */
  ghost predicate TablesAhead(w0: map<nat, seq<Entry>>, w: map<nat, seq<Entry>>, r: nat, n0: nat, n: nat) {
    n0 <= n && forall x :: n <= x < VPNS ==>
      && (HasMid(w, r, x) <==> HasMid(w0, r, x) || (n > n0 && Top(x) == Top(n - 1)))
      && (HasLeaf(w, r, x) <==> HasLeaf(w0, r, x) || (n > n0 && Top(x) == Top(n - 1) && Mid(x) == Mid(n - 1)))
  }

  lemma Rounded(lo: nat, hi: nat)
    requires lo <= hi
    ensures PageCount(lo) <= PageCount(hi) && PageCount(0) == 0
  {
  }

  lemma NextPage(n: nat, sz: nat)
    requires n * PGSIZE < sz
    ensures n < PageCount(sz)
  {
  }

  lemma LastPage(n: nat, sz: nat)
    requires n * PGSIZE >= sz && n <= PageCount(sz)
    ensures n == PageCount(sz)
  {
  }

  lemma StillRoot(own: map<nat, Role>, own': map<nat, Role>, r: nat)
    requires OnlyTables(own, own') && IsRoot(own, r)
    ensures IsRoot(own', r)
  {
  }

  lemma NoneAhead(w: map<nat, seq<Entry>>, r: nat, n: nat)
    ensures TablesAhead(w, w, r, n, n)
  {
  }

  lemma NextMissing(w0: map<nat, seq<Entry>>, w: map<nat, seq<Entry>>, r: nat, n0: nat, n: nat)
    requires TablesAhead(w0, w, r, n0, n) && n < VPNS
    ensures Need(w0, r, n0, n + 1) == Need(w0, r, n0, n) + 1 + Missing(w, r, n)
  {
    hide Top, Mid;
  }

  /** Page numbers with the same digits are next to each other. */
  lemma Between(n: nat, x: nat)
    requires 0 < n <= x
    ensures Top(x) == Top(n - 1) ==> Top(x) == Top(n)
    ensures Top(x) == Top(n - 1) && Mid(x) == Mid(n - 1) ==> Mid(x) == Mid(n)
  {
    if Top(x) == Top(n - 1) && Mid(x) == Mid(n - 1) {
      SameLeaf(x, n - 1);
      assert n / FAN == x / FAN;
    }
  }

  lemma SameLeaf(x: nat, y: nat)
    requires Top(x) == Top(y) && Mid(x) == Mid(y)
    ensures x / FAN == y / FAN
  {
    assert x / 0x4_0000 == x / FAN / FAN && y / 0x4_0000 == y / FAN / FAN;
  }

  lemma TablesNext(w0: map<nat, seq<Entry>>, own: map<nat, Role>, w1: map<nat, seq<Entry>>, w: map<nat, seq<Entry>>,
      r: nat, n0: nat, n: nat)
    requires TablesAhead(w0, w1, r, n0, n) && n < VPNS && Hanged(own, w1, w, r, n) && IsRoot(own, r)
    ensures TablesAhead(w0, w, r, n0, n + 1)
  {
    hide Top, Mid, HasMid, HasLeaf;
    forall x | n + 1 <= x < VPNS
      ensures HasMid(w, r, x) <==> HasMid(w0, r, x) || Top(x) == Top(n)
      ensures HasLeaf(w, r, x) <==> HasLeaf(w0, r, x) || (Top(x) == Top(n) && Mid(x) == Mid(n))
    {
      if n > 0 { Between(n, x); }
    }
  }

  lemma SameMissing(own: map<nat, Role>, w0: map<nat, seq<Entry>>, w: map<nat, seq<Entry>>, r: nat, v: nat)
    requires SameTables(own, w0, w) && IsRoot(own, r) && v < VPNS
    ensures Missing(w, r, v) == Missing(w0, r, v)
  {
    hide HasMid, HasLeaf;
  }

  lemma OpensAfter(own: map<nat, Role>, own': map<nat, Role>, w0: map<nat, seq<Entry>>, w1: map<nat, seq<Entry>>,
      w: map<nat, seq<Entry>>, t: nat, k: nat)
    requires SameTables(own, w0, w1) && IsTable(own, t) && IsTable(own', t) && own'[t] == own[t]
      && Opened(own', w1, w, t, k)
    requires forall r :: IsRoot(own, r) ==> IsRoot(own', r)
    ensures Opened(own, w0, w, t, k)
  {
    hide HasMid, HasLeaf;
    forall q, x | IsRoot(own, q) && 0 <= x < VPNS
      ensures HasMid(w, q, x) <==> HasMid(w0, q, x) || (q == t && Top(x) == k)
      ensures HasLeaf(w, q, x) <==> HasLeaf(w0, q, x) || (own[t] == Node(1, q, Top(x)) && Mid(x) == k)
    {
      assert IsRoot(own', q);
    }
  }

  lemma OpenedTwice(own: map<nat, Role>, own': map<nat, Role>, w0: map<nat, seq<Entry>>, w1: map<nat, seq<Entry>>,
      w: map<nat, seq<Entry>>, r: nat, m: nat, v: nat)
    requires IsRoot(own, r) && v < VPNS && IsTable(own', m) && own'[m] == Node(1, r, Top(v))
    requires Opened(own, w0, w1, r, Top(v)) && Opened(own', w1, w, m, Mid(v)) && forall q :: IsRoot(own, q) ==>
      IsRoot(own', q)
    ensures Hanged(own, w0, w, r, v)
  {
    hide HasMid, HasLeaf, Top, Mid;
    forall q, x | IsRoot(own, q) && 0 <= x < VPNS
      ensures HasMid(w, q, x) <==> HasMid(w0, q, x) || (q == r && Top(x) == Top(v))
      ensures HasLeaf(w, q, x) <==> HasLeaf(w0, q, x) || (q == r && Top(x) == Top(v) && Mid(x) == Mid(v))
    {
      assert IsRoot(own', q);
    }
  }

  lemma HangedThen(own: map<nat, Role>, own': map<nat, Role>, w0: map<nat, seq<Entry>>, w1: map<nat, seq<Entry>>,
      w: map<nat, seq<Entry>>, r: nat, v: nat)
    requires Hanged(own, w0, w1, r, v) && SameTables(own', w1, w) && forall q :: IsRoot(own, q) ==> IsRoot(own', q)
    ensures Hanged(own, w0, w, r, v)
  {
    hide HasMid, HasLeaf, Top, Mid;
    forall q, x | IsRoot(own, q) && 0 <= x < VPNS
      ensures HasMid(w, q, x) == HasMid(w1, q, x) && HasLeaf(w, q, x) == HasLeaf(w1, q, x) {
      assert IsRoot(own', q);
    }
  }

  lemma HangedAfter(own: map<nat, Role>, own': map<nat, Role>, w0: map<nat, seq<Entry>>, w1: map<nat, seq<Entry>>,
      w: map<nat, seq<Entry>>, r: nat, v: nat)
    requires SameTables(own, w0, w1) && Hanged(own', w1, w, r, v) && forall q :: IsRoot(own, q) ==> IsRoot(own', q)
    ensures Hanged(own, w0, w, r, v)
  {
    hide HasMid, HasLeaf, Top, Mid;
    forall q, x | IsRoot(own, q) && 0 <= x < VPNS
      ensures HasMid(w, q, x) <==> HasMid(w0, q, x) || (q == r && Top(x) == Top(v))
      ensures HasLeaf(w, q, x) <==> HasLeaf(w0, q, x) || (q == r && Top(x) == Top(v) && Mid(x) == Mid(v))
    {
      assert IsRoot(own', q);
    }
  }

  lemma SlotAt(own: map<nat, Role>, words: map<nat, seq<Entry>>, t: nat, k: nat)
    requires Forest(own, words, map[]) && IsTable(own, t) && k < Fan(own[t].level)
    ensures Slot(own, words, t, k)
  {
  }

  lemma SameAt(own: map<nat, Role>, words: map<nat, seq<Entry>>, words': map<nat, seq<Entry>>, r: nat, v: nat)
    requires SameMaps(own, words, words') && IsRoot(own, r) && v < VPNS
    ensures Lookup(words', r, v) == Lookup(words, r, v)
  {
  }

  lemma SameForall(own: map<nat, Role>, words: map<nat, seq<Entry>>, words': map<nat, seq<Entry>>)
    requires SameMaps(own, words, words')
    ensures forall r, v :: IsRoot(own, r) && 0 <= v < VPNS ==> Lookup(words', r, v) == Lookup(words, r, v)
  {
  }

  lemma SizedAt(own: map<nat, Role>, words: map<nat, seq<Entry>>, t: nat)
    requires Forest(own, words, map[]) && t in own
    ensures t in words && |words[t]| == FAN
  {
  }

  lemma SameRefl(own: map<nat, Role>, words: map<nat, seq<Entry>>)
    ensures SameMaps(own, words, words)
  {
  }
}
