/** The map from page numbers to entries that a page-table tree stands for. */
module PageMaps {
  import opened PageTables

  // ----- addresses

  /** The page number an address reaches: PGD_IDX keeps two bits. */
  function Vpn(va: nat): nat { va / PGSIZE % VPNS }

  function PgdIdx(va: nat): nat { va / 0x4000_0000 % ROOT_FAN }

  function PmdIdx(va: nat): nat { va / 0x20_0000 % FAN }

  function PteIdx(va: nat): nat { va / PGSIZE % FAN }

  function Top(v: nat): nat { v / 0x4_0000 }

  function Mid(v: nat): nat { v / FAN % FAN }

  function Low(v: nat): nat { v % FAN }

  function Join(i: nat, j: nat, k: nat): nat { i * 0x4_0000 + j * FAN + k }

  lemma JoinSplit(v: nat)
    requires v < VPNS
    ensures Top(v) < ROOT_FAN && Mid(v) < FAN && Low(v) < FAN && Join(Top(v), Mid(v), Low(v)) == v
  {
  }

  lemma DivMod(q: nat, r: nat)
    requires r < FAN
    ensures (q * FAN + r) / FAN == q && (q * FAN + r) % FAN == r
  {
  }

  lemma SplitJoin(i: nat, j: nat, k: nat)
    requires i < ROOT_FAN && j < FAN && k < FAN
    ensures var v := Join(i, j, k); v < VPNS && Top(v) == i && Mid(v) == j && Low(v) == k
  {
    var v, q := Join(i, j, k), i * FAN + j;
    assert v == q * FAN + k;
    DivMod(q, k);
    DivMod(i, j);
    assert v / 0x4_0000 == i;
  }

  /** The three indices of the code are the digits of the page number. */
  lemma Indices(va: nat)
    ensures Vpn(va) < VPNS && PgdIdx(va) == Top(Vpn(va)) && PmdIdx(va) == Mid(Vpn(va)) && PteIdx(va) == Low(Vpn(va))
  {
    var q := va / PGSIZE;
    assert va / 0x4000_0000 == q / 0x4_0000;
    assert va / 0x20_0000 == q / FAN;
    Digits(q);
  }

  lemma Digits(q: nat)
    ensures var v := q % VPNS;
      v / 0x4_0000 == q / 0x4_0000 % ROOT_FAN && v / FAN % FAN == q / FAN % FAN && v % FAN == q % FAN
  {
    var h, v := q / VPNS, q % VPNS;
    assert q == VPNS * h + v;
    assert q / 0x4_0000 == 4 * h + v / 0x4_0000;
    assert q / FAN == 2048 * h + v / FAN;
  }

  /** Two addresses share their table slot exactly when their pages agree
      modulo 2^32. */
  lemma Aliases(a: nat, b: nat)
    ensures PgdIdx(a) == PgdIdx(b) && PmdIdx(a) == PmdIdx(b) && PteIdx(a) == PteIdx(b)
      <==> a % 0x1_0000_0000 / PGSIZE == b % 0x1_0000_0000 / PGSIZE
  {
    Indices(a);
    Indices(b);
    JoinSplit(Vpn(a));
    JoinSplit(Vpn(b));
    LowPages(a);
    LowPages(b);
  }

  lemma LowPages(a: nat)
    ensures a % 0x1_0000_0000 / PGSIZE == Vpn(a)
  {
    var h, l := a / 0x1_0000_0000, a % 0x1_0000_0000;
    assert a == 0x1_0000_0000 * h + l;
    assert a / PGSIZE == VPNS * h + l / PGSIZE;
  }

  // ----- lookup

  /** The entry for page number v in the tree under root r, or the zero entry. */
  function Lookup(words: map<nat, seq<Entry>>, r: nat, v: nat): Entry {
    var e0 := Get(words, r, Top(v));
    if !e0.valid then NULL_ENTRY
    else
      var e1 := Get(words, e0.page, Mid(v));
      if !e1.valid then NULL_ENTRY else Get(words, e1.page, Low(v))
  }

  /** The pages on the way to v are the ones hung there. */
  lemma Path(own: map<nat, Role>, words: map<nat, seq<Entry>>, r: nat, v: nat)
    requires Forest(own, words, map[]) && IsRoot(own, r) && v < VPNS
    ensures var e0 := Get(words, r, Top(v));
      && (e0 == NULL_ENTRY || (Present(e0) && e0.page in own && own[e0.page] == Node(1, r, Top(v))))
      && (e0.valid ==> var e1 := Get(words, e0.page, Mid(v));
            && (e1 == NULL_ENTRY || (Present(e1) && e1.page in own && own[e1.page] == Node(2, e0.page, Mid(v))))
            && (e1.valid ==> var e2 := Get(words, e1.page, Low(v));
                  e2 == NULL_ENTRY || (Present(e2) && e2.page in own && own[e2.page] == Node(3, e1.page, Low(v)))))
  {
    JoinSplit(v);
    assert Slot(own, words, r, Top(v));
    var e0 := Get(words, r, Top(v));
    if e0.valid {
      assert Slot(own, words, e0.page, Mid(v));
      var e1 := Get(words, e0.page, Mid(v));
      if e1.valid { assert Slot(own, words, e1.page, Low(v)); }
    }
  }

  /** Every root maps every page number as before. */
  ghost predicate SameMaps(own: map<nat, Role>, words: map<nat, seq<Entry>>, words': map<nat, seq<Entry>>) {
    forall r, v :: IsRoot(own, r) && 0 <= v < VPNS ==> Lookup(words', r, v) == Lookup(words, r, v)
  }

  /** A page outside the trees may hold anything. */
  lemma OutsideSame(own: map<nat, Role>, words: map<nat, seq<Entry>>, p: nat, w: seq<Entry>)
    requires Forest(own, words, map[]) && !IsTable(own, p)
    ensures SameMaps(own, words, words[p := w])
  {
    forall r, v | IsRoot(own, r) && 0 <= v < VPNS ensures Lookup(words[p := w], r, v) == Lookup(words, r, v) {
      hide Forest;
      Path(own, words, r, v);
    }
  }

  /** Hanging an empty table changes no map. */
  lemma LinkSame(own: map<nat, Role>, words: map<nat, seq<Entry>>, t: nat, k: nat, e: Entry)
    requires Forest(own, words, map[]) && IsTable(own, t) && own[t].level < 2 && k < Fan(own[t].level)
    requires Get(words, t, k) == NULL_ENTRY && Present(e) && e.page in own && own[e.page] == Loose
    requires e.page in words && words[e.page] == ZERO_PAGE
    ensures t in words && k < |words[t]| && SameMaps(own, words, Put(words, t, k, e))
  {
    var words' := Put(words, t, k, e);
    forall r, v | IsRoot(own, r) && 0 <= v < VPNS ensures Lookup(words', r, v) == Lookup(words, r, v) {
      hide Forest;
      Path(own, words, r, v);
    }
  }

  /** Where the walk for v under r ends: slot k of the level-2 table t. */
  predicate Reaches(own: map<nat, Role>, words: map<nat, seq<Entry>>, r: nat, v: nat, t: nat) {
    && IsRoot(own, r) && v < VPNS
    && Get(words, r, Top(v)).valid && Get(words, Get(words, r, Top(v)).page, Mid(v)).valid
    && t == Get(words, Get(words, r, Top(v)).page, Mid(v)).page
  }

  lemma ReachesTable(own: map<nat, Role>, words: map<nat, seq<Entry>>, r: nat, v: nat, t: nat)
    requires Forest(own, words, map[]) && Reaches(own, words, r, v, t)
    ensures IsTable(own, t) && own[t].level == 2 && t in words && |words[t]| == FAN
      && Lookup(words, r, v) == words[t][Low(v)]
  {
    Path(own, words, r, v);
    JoinSplit(v);
  }

  /** Writing the slot the walk found changes that one mapping. */
  lemma WriteLookup(own: map<nat, Role>, words: map<nat, seq<Entry>>, r: nat, v: nat, t: nat, e: Entry)
    requires Forest(own, words, map[]) && Reaches(own, words, r, v, t)
    ensures t in words && Low(v) < |words[t]|
    ensures forall q, x :: IsRoot(own, q) && 0 <= x < VPNS ==>
      Lookup(Put(words, t, Low(v), e), q, x) == if q == r && x == v then e else Lookup(words, q, x)
  {
    ReachesTable(own, words, r, v, t);
    var words' := Put(words, t, Low(v), e);
    forall q, x | IsRoot(own, q) && 0 <= x < VPNS
      ensures Lookup(words', q, x) == if q == r && x == v then e else Lookup(words, q, x) {
      WriteLookupAt(own, words, r, v, t, e, q, x);
    }
  }

  lemma WriteLookupAt(own: map<nat, Role>, words: map<nat, seq<Entry>>, r: nat, v: nat, t: nat, e: Entry, q: nat,
      x: nat)
    requires Forest(own, words, map[]) && Reaches(own, words, r, v, t) && IsRoot(own, q) && x < VPNS
    requires t in words && |words[t]| == FAN && IsTable(own, t) && own[t].level == 2
    ensures Lookup(Put(words, t, Low(v), e), q, x) == if q == r && x == v then e else Lookup(words, q, x)
  {
    hide Forest, Top, Mid, Low;
    Path(own, words, r, v);
    Path(own, words, q, x);
    JoinSplit(v);
    JoinSplit(x);
    if q == r && Top(x) == Top(v) && Mid(x) == Mid(v) && Low(x) == Low(v) { SameDigits(x, v); }
  }

  lemma SameDigits(x: nat, v: nat)
    requires x < VPNS && v < VPNS && Top(x) == Top(v) && Mid(x) == Mid(v) && Low(x) == Low(v)
    ensures x == v
  {
    JoinSplit(x);
    JoinSplit(v);
  }

  // ----- which tables are there

  /** The tables on the way to page number v. */
  predicate HasMid(words: map<nat, seq<Entry>>, r: nat, v: nat) { Get(words, r, Top(v)).valid }

  predicate HasLeaf(words: map<nat, seq<Entry>>, r: nat, v: nat) {
    HasMid(words, r, v) && Get(words, Get(words, r, Top(v)).page, Mid(v)).valid
  }

  /** How many pages walk takes for tables on the way to v. */
  function Missing(words: map<nat, seq<Entry>>, r: nat, v: nat): nat {
    if !HasMid(words, r, v) then 2 else if !HasLeaf(words, r, v) then 1 else 0
  }

  ghost predicate SameTables(own: map<nat, Role>, words: map<nat, seq<Entry>>, words': map<nat, seq<Entry>>) {
    forall r, v :: IsRoot(own, r) && 0 <= v < VPNS ==>
      HasMid(words', r, v) == HasMid(words, r, v) && HasLeaf(words', r, v) == HasLeaf(words, r, v)
  }

  /** The tables on the way to v under r have been added. */
  ghost predicate Hanged(own: map<nat, Role>, words: map<nat, seq<Entry>>, words': map<nat, seq<Entry>>, r: nat,
      v: nat) {
    forall q, x :: IsRoot(own, q) && 0 <= x < VPNS ==>
      && (HasMid(words', q, x) <==> HasMid(words, q, x) || (q == r && Top(x) == Top(v)))
      && (HasLeaf(words', q, x) <==> HasLeaf(words, q, x) || (q == r && Top(x) == Top(v) && Mid(x) == Mid(v)))
  }

  /** A page that is no table above the leaves may hold anything. */
  lemma OutsideTables(own: map<nat, Role>, words: map<nat, seq<Entry>>, p: nat, w: seq<Entry>)
    requires Forest(own, words, map[]) && (IsTable(own, p) ==> own[p].level == 2)
    ensures SameTables(own, words, words[p := w])
  {
    forall r, v | IsRoot(own, r) && 0 <= v < VPNS
      ensures HasMid(words[p := w], r, v) == HasMid(words, r, v) && HasLeaf(words[p := w], r, v) == HasLeaf(words, r, v)
    {
      hide Forest;
      Path(own, words, r, v);
    }
  }

  /** What hanging an empty table in slot k of table t opens. */
  ghost predicate Opened(own: map<nat, Role>, words: map<nat, seq<Entry>>, words': map<nat, seq<Entry>>, t: nat, k: nat)
    requires IsTable(own, t)
  {
    forall q, x :: IsRoot(own, q) && 0 <= x < VPNS ==>
      && (HasMid(words', q, x) <==> HasMid(words, q, x) || (q == t && Top(x) == k))
      && (HasLeaf(words', q, x) <==> HasLeaf(words, q, x) || (own[t] == Node(1, q, Top(x)) && Mid(x) == k))
  }

  lemma LinkOpens(own: map<nat, Role>, words: map<nat, seq<Entry>>, t: nat, k: nat, e: Entry)
    requires Forest(own, words, map[]) && IsTable(own, t) && own[t].level < 2 && k < Fan(own[t].level)
    requires Get(words, t, k) == NULL_ENTRY && Present(e) && e.page in own && own[e.page] == Loose
    requires e.page in words && words[e.page] == ZERO_PAGE
    ensures t in words && k < |words[t]| && Opened(own, words, Put(words, t, k, e), t, k)
  {
    var words' := Put(words, t, k, e);
    if own[t].level == 1 { assert Hung(own, words, map[], t); }
    forall q, x | IsRoot(own, q) && 0 <= x < VPNS
      ensures HasMid(words', q, x) <==> HasMid(words, q, x) || (q == t && Top(x) == k)
      ensures HasLeaf(words', q, x) <==> HasLeaf(words, q, x) || (own[t] == Node(1, q, Top(x)) && Mid(x) == k)
    {
      hide Forest;
      Path(own, words, q, x);
    }
  }

  /** Nothing is opened by what is there already. */
  lemma AlreadyOpen(own: map<nat, Role>, words: map<nat, seq<Entry>>, t: nat, k: nat)
    requires Forest(own, words, map[]) && IsTable(own, t) && own[t].level < 2 && k < Fan(own[t].level)
      && Get(words, t, k).valid
    ensures Opened(own, words, words, t, k)
  {
    if own[t].level == 1 { assert Hung(own, words, map[], t); }
  }

  // ----- counting

  /** The first n page numbers, and no others, are mapped. */
  ghost predicate MapsExactly(words: map<nat, seq<Entry>>, r: nat, n: nat) {
    n <= VPNS && forall v :: 0 <= v < VPNS ==>
      if v < n then Lookup(words, r, v).valid else Lookup(words, r, v) == NULL_ENTRY
  }

  /** Different page numbers lead to different pages. */
  lemma Injective(own: map<nat, Role>, words: map<nat, seq<Entry>>, r: nat, v: nat, q: nat, x: nat)
    requires Forest(own, words, map[]) && IsRoot(own, r) && IsRoot(own, q) && v < VPNS && x < VPNS
    requires Lookup(words, r, v).valid && Lookup(words, q, x).valid
      && Lookup(words, r, v).page == Lookup(words, q, x).page
    ensures r == q && v == x
  {
    hide Forest, Top, Mid, Low;
    Path(own, words, r, v);
    Path(own, words, q, x);
    SameDigits(v, x);
  }

  lemma {:induction false} CountMapped(own: map<nat, Role>, words: map<nat, seq<Entry>>, r: nat, n: nat)
      returns (s: set<nat>)
    requires Forest(own, words, map[]) && IsRoot(own, r) && n <= VPNS
    requires forall v :: 0 <= v < n ==> Lookup(words, r, v).valid
    ensures |s| == n && s <= own.Keys - {r}
    ensures forall p :: p in s ==> exists v :: 0 <= v < n && Lookup(words, r, v).page == p
  {
    hide Forest, Lookup;
    if n == 0 {
      s := {};
    } else {
      var s0 := CountMapped(own, words, r, n - 1);
      var p := Lookup(words, r, n - 1).page;
      MappedPage(own, words, r, n - 1);
      if p in s0 {
        var v :| 0 <= v < n - 1 && Lookup(words, r, v).page == p;
        Injective(own, words, r, v, r, n - 1);
      }
      s := s0 + {p};
    }
  }

  lemma MappedPage(own: map<nat, Role>, words: map<nat, seq<Entry>>, r: nat, v: nat)
    requires Forest(own, words, map[]) && IsRoot(own, r) && v < VPNS && Lookup(words, r, v).valid
    ensures Lookup(words, r, v).page in own && own[Lookup(words, r, v).page].Node?
      && own[Lookup(words, r, v).page].level == 3
    ensures Present(Lookup(words, r, v)) && Lookup(words, r, v).page != r
  {
    Path(own, words, r, v);
  }

  lemma SubsetSize(a: set<nat>, b: set<nat>)
    requires a <= b
    ensures |a| <= |b|
  {
    assert b == a + (b - a);
  }

  /** There are more pages than mappings. */
  lemma MapBound(pages: set<nat>, free: seq<nat>, own: map<nat, Role>, words: map<nat, seq<Entry>>, r: nat, n: nat)
    requires Forest(own, words, map[]) && IsRoot(own, r) && MapsExactly(words, r, n) && Partition(pages, free, own)
    ensures n < |pages|
  {
    hide Forest, Lookup;
    var s := CountMapped(own, words, r, n);
    assert s + {r} <= pages;
    SubsetSize(s + {r}, pages);
  }
}
