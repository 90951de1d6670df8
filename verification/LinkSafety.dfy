/** The directory operations keep link counts exact, on linked parents and only there. */
module LinkSafety {
  import opened LinkCounts

  // ----- a new entry

  lemma EnterAt(ents: seq<Entry>, name: Name, i: nat)
    requires 0 < i < 0x1_0000
    ensures var g, k := Enter(ents, name, i), FreeSlot(ents);
      && |g| >= |ents| && k < |g| && g[k] == Entry(i, name) && |g| <= |ents| + 1
      && (forall j :: 0 <= j < |g| && j != k ==> j < |ents| && g[j] == ents[j])
      && (forall j :: 0 <= j < |ents| && Used(ents[j]) ==> j != k)
  {
  }

  lemma EnterDirOk(x: Inode, d: nat, name: Name, i: nat, n: Short)
    requires DirOk(x, d) && Lookup(x.ents, name) == |x.ents| && 0 < i < 0x1_0000 && d != 0 && FreeSlot(x.ents) < MAXENTS
    ensures DirOk(x.(ents := Enter(x.ents, name, i), nlink := n), d) && FreeSlot(x.ents) >= 2
  {
    EnterAt(x.ents, name, i);
    EnterUnique(x.ents, name, i);
  }

  /** What create and link have in common: directory d gets an entry for i, whose
      slot keeps its number. */
  predicate Adds(fs: seq<Inode>, fs': seq<Inode>, d: nat, name: Name, i: nat) {
    && d < |fs| && 1 <= i < |fs| && i < 0x1_0000 && d != i && |fs'| == |fs|
    && fs'[d].kind == fs[d].kind && FreeSlot(fs[d].ents) < MAXENTS && fs'[d].ents == Enter(fs[d].ents, name, i)
      && fs'[d].nlink >= fs[d].nlink
    && fs'[i].kind != Free
    && (forall j :: 0 <= j < |fs| && j != d && j != i ==> fs'[j] == fs[j])
  }

  lemma AddNode(fs: seq<Inode>, fs': seq<Inode>, d: nat, name: Name, i: nat, j: nat)
    requires Nodes(fs) && Adds(fs, fs', d, name, i) && Linked(fs[d]) && Lookup(fs[d].ents, name) == |fs[d].ents|
      && j < |fs| && j != i
    ensures NodeOk(fs', j)
  {
    assert NodeOk(fs, j) && NodeOk(fs, d);
    if j == d {
      EnterDirOk(fs[d], d, name, i, fs'[d].nlink);
      EnterAt(fs[d].ents, name, i);
      hide Enter, FreeSlot, Lookup, DirOk;
      assert DirOk(fs'[d], d);
      forall k | 0 <= k < |fs'[d].ents| && Used(fs'[d].ents[k])
        ensures fs'[d].ents[k].inum < |fs| && fs'[fs'[d].ents[k].inum].kind != Free {
        if k != FreeSlot(fs[d].ents) { assert fs'[d].ents[k] == fs[d].ents[k]; }
      }
    }
  }

  /** Directories other than i stay where they were. */
  lemma AddHome(fs: seq<Inode>, fs': seq<Inode>, home: map<nat, Home>, home': map<nat, Home>, d: nat, name: Name,
      i: nat, j: nat)
    requires Nodes(fs) && Tree(fs, home) && Adds(fs, fs', d, name, i) && Linked(fs[d]) && j < |fs| && j != i
    requires forall x :: x in home && x != i ==> x in home' && home'[x] == home[x]
    requires |fs[d].ents| >= 2 && Used(fs[d].ents[0]) && Used(fs[d].ents[1]) && !Linked(fs[i])
    ensures HomeOk(fs', home', j)
  {
    assert HomeOk(fs, home, j);
    EnterAt(fs[d].ents, name, i);
    hide Enter, FreeSlot, Nodes, Tree;
    if Linked(fs'[j]) && j != ROOTINO {
      var h := home[j];
      assert h.d == d ==> Used(fs[d].ents[h.k]);
    }
  }

  lemma AddEntered(fs: seq<Inode>, fs': seq<Inode>, home: map<nat, Home>, home': map<nat, Home>, d: nat, name: Name,
      i: nat, e: nat, k: nat)
    requires Nodes(fs) && Tree(fs, home) && Adds(fs, fs', d, name, i) && Linked(fs[d]) && e < |fs|
      && k < |fs'[e].ents| && e != i
    requires forall x :: x in home && x != i ==> x in home' && home'[x] == home[x]
    requires e != d || k != FreeSlot(fs[d].ents)
    requires fs'[i].kind == Dir ==> Refs(fs, i) == 0
    ensures EnteredOnce(fs', home', e, k)
  {
    assert NodeOk(fs, e);
    EnterAt(fs[d].ents, name, i);
    hide Enter, FreeSlot;
    assert k < |fs[e].ents| && fs'[e].ents[k] == fs[e].ents[k];
    assert EnteredOnce(fs, home, e, k);
    var x := fs[e].ents[k].inum;
    if Linked(fs[e]) && k >= 2 && x == i && fs'[i].kind == Dir {
      NamedCounts(fs, e, k);
    }
  }

  /** An entry behind the dots is a reference. */
  lemma NamedCounts(fs: seq<Inode>, e: nat, k: nat)
    requires Nodes(fs) && e < |fs| && Linked(fs[e]) && 2 <= k < |fs[e].ents| && Used(fs[e].ents[k])
    ensures Refs(fs, fs[e].ents[k].inum) >= 1
  {
    assert NodeOk(fs, e);
    RefsAtLeast(fs, fs[e].ents[k].inum, e, k);
  }

  // ----- create a file

  lemma NewUnlinked(fs: seq<Inode>, home: map<nat, Home>, d: nat, i: nat)
    requires Inv(fs, home) && d < |fs| && fs[d].kind == Dir && 1 <= i < |fs| && fs[i].kind == Free
    ensures d != i && Refs(fs, i) == 0 && 0 < d < 0x1_0000
    ensures DirOk(fs[d], d)
  {
    assert NodeOk(fs, d);
  }

  lemma MadeFileCount(fs: seq<Inode>, home: map<nat, Home>, d: nat, name: Name, i: nat, kind: Kind, j: nat)
    requires Inv(fs, home) && d < |fs| && fs[d].kind == Dir && 1 <= i < |fs| && fs[i].kind == Free
      && (kind == File || kind == Dev) && 1 <= j < |fs| && name != "."
    ensures Refs(MadeFile(fs, d, name, i, kind), j) == Refs(fs, j) + (if Linked(fs[d]) && j == ToUshort(i) then 1
      else 0)
  {
    NewUnlinked(fs, home, d, i);
    var fs1 := fs[i := Inode(kind, 1, [])];
    RefsSet(fs, i, fs1[i], j);
    var x := fs[d].(ents := Enter(fs[d].ents, name, i));
    RefsSet(fs1, d, x, j);
    EnterCount(fs[d].ents, name, i, j);
  }

  lemma DotTaken(fs: seq<Inode>, d: nat, name: Name)
    requires Nodes(fs) && d < |fs| && fs[d].kind == Dir && Lookup(fs[d].ents, name) == |fs[d].ents|
    ensures name != "." && name != ".." && DirOk(fs[d], d)
  {
    assert NodeOk(fs, d);
    assert !Used(fs[d].ents[0]) || fs[d].ents[0].name != name;
    assert !Used(fs[d].ents[1]) || fs[d].ents[1].name != name;
  }

  lemma MadeFileTree(fs: seq<Inode>, home: map<nat, Home>, d: nat, name: Name, i: nat, kind: Kind)
    requires Inv(fs, home) && d < |fs| && Linked(fs[d]) && 1 <= i < |fs| && fs[i].kind == Free
      && (kind == File || kind == Dev)
    requires Lookup(fs[d].ents, name) == |fs[d].ents| && FreeSlot(fs[d].ents) < MAXENTS && i < 0x1_0000
    ensures Nodes(MadeFile(fs, d, name, i, kind)) && Tree(MadeFile(fs, d, name, i, kind), home)
  {
    var fs' := MadeFile(fs, d, name, i, kind);
    NewUnlinked(fs, home, d, i);
    assert Adds(fs, fs', d, name, i);
    EnterAt(fs[d].ents, name, i);
    EnterDirOk(fs[d], d, name, i, fs[d].nlink);
    hide Enter, FreeSlot, Lookup, Refs;
    forall j | 0 <= j < |fs'| ensures NodeOk(fs', j) && HomeOk(fs', home, j) {
      if j != i {
        AddNode(fs, fs', d, name, i, j);
        AddHome(fs, fs', home, home, d, name, i, j);
      }
    }
    forall e, k | 0 <= e < |fs'| && 0 <= k < |fs'[e].ents| ensures EnteredOnce(fs', home, e, k) {
      if e != d || k != FreeSlot(fs[d].ents) { AddEntered(fs, fs', home, home, d, name, i, e, k); }
    }
    RootStays(fs, fs', home, d, name, i);
  }

  lemma RootStays(fs: seq<Inode>, fs': seq<Inode>, home: map<nat, Home>, d: nat, name: Name, i: nat)
    requires Nodes(fs) && Tree(fs, home) && Adds(fs, fs', d, name, i) && i != ROOTINO && fs[d].kind == Dir
    ensures Linked(fs'[ROOTINO]) && |fs'[ROOTINO].ents| >= 2 && fs'[ROOTINO].ents[1].inum == ROOTINO
      && fs'[0].kind == Free
  {
    assert NodeOk(fs, ROOTINO);
    EnterAt(fs[d].ents, name, i);
    hide Enter, FreeSlot;
  }

  /** create keeps every count exact if and only if the parent is linked and an
      entry has room for the number of the new inode. */
  lemma CreateFileKeepsIff(fs: seq<Inode>, home: map<nat, Home>, d: nat, name: Name, i: nat, kind: Kind)
    requires Inv(fs, home) && d < |fs| && fs[d].kind == Dir && 1 <= i < |fs| && fs[i].kind == Free
      && (kind == File || kind == Dev)
    requires Lookup(fs[d].ents, name) == |fs[d].ents|
    ensures Counts(MadeFile(fs, d, name, i, kind)) <==> Linked(fs[d]) && i < 0x1_0000
    ensures Linked(fs[d]) && i < 0x1_0000 && FreeSlot(fs[d].ents) < MAXENTS ==>
      Inv(MadeFile(fs, d, name, i, kind), home)
  {
    var fs' := MadeFile(fs, d, name, i, kind);
    NewUnlinked(fs, home, d, i);
    DotTaken(fs, d, name);
    MadeFileCount(fs, home, d, name, i, kind, i);
    if Linked(fs[d]) && i < 0x1_0000 {
      if FreeSlot(fs[d].ents) < MAXENTS { MadeFileTree(fs, home, d, name, i, kind); }
      hide Enter, FreeSlot, Lookup, Refs;
      forall j | 1 <= j < |fs'|
        ensures if fs'[j].kind == Free then Refs(fs', j) == 0 else fs'[j].nlink == Refs(fs', j) {
        MadeFileCount(fs, home, d, name, i, kind, j);
      }
    }
  }

  // ----- a directory's count is bounded by its size

  lemma CountTwo(ents: seq<Entry>, i: nat, a: nat, b: nat)
    requires a < |ents| && b < |ents| && i != 0 && forall k :: 0 <= k < |ents| && One(ents[k], i) == 1 ==>
      k == a || k == b
    ensures CountIn(ents, i) <= One(ents[a], i) + if a == b then 0 else One(ents[b], i)
  {
    var g := ents[a := NO_ENTRY];
    CountSet(ents, a, NO_ENTRY, i);
    CountSet(g, b, NO_ENTRY, i);
    CountNone(g[b := NO_ENTRY], i);
  }

  /** Directory e refers to directory d as its parent, and as its one entry for it. */
  lemma ShareFits(fs: seq<Inode>, home: map<nat, Home>, d: nat, e: nat)
    requires Nodes(fs) && Tree(fs, home) && 1 <= d < |fs| && Linked(fs[d]) && e < |fs|
    ensures Share(fs[e], d) <= (if IsKid(fs, d, e) then 1 else 0) + (if Keeper(home, d) == e then 1 else 0)
  {
    assert NodeOk(fs, e) && HomeOk(fs, home, d);
    if Linked(fs[e]) {
      var b := if d != ROOTINO && home[d].d == e then home[d].k else 1;
      forall k | 0 <= k < |fs[e].ents| && One(fs[e].ents[k], d) == 1
        ensures k == 1 || k == b { assert EnteredOnce(fs, home, e, k); }
      CountTwo(fs[e].ents, d, 1, b);
    }
  }

  /** Where d itself is entered; the root is its own parent. */
  function Keeper(home: map<nat, Home>, d: nat): nat { if d == ROOTINO || d !in home then ROOTINO else home[d].d }

  predicate IsKid(fs: seq<Inode>, d: nat, e: nat)
    requires e < |fs|
  {
    Linked(fs[e]) && e != ROOTINO && |fs[e].ents| >= 2 && fs[e].ents[1].inum == d
  }

  /** The slots of d that enter subdirectories below n. */
  function Slots(fs: seq<Inode>, home: map<nat, Home>, d: nat, n: nat): set<nat>
    requires n <= |fs|
  {
    if n == 0 then {} else Slots(fs, home, d, n - 1) + if IsKid(fs, d, n - 1) && n - 1 in home then {home[n - 1].k}
      else {}
  }

  lemma {:induction false} SlotsBelow(fs: seq<Inode>, home: map<nat, Home>, d: nat, n: nat)
    requires Nodes(fs) && Tree(fs, home) && 1 <= d < |fs| && Linked(fs[d]) && n <= |fs|
    ensures forall k :: k in Slots(fs, home, d, n) ==> 2 <= k < |fs[d].ents| && fs[d].ents[k].inum < n
    ensures RefsBelow(fs, d, n) <= |Slots(fs, home, d, n)| + if Keeper(home, d) < n then 1 else 0
  {
    hide Nodes, Tree, Share, IsKid, Keeper;
    if n > 0 {
      SlotsBelow(fs, home, d, n - 1);
      ShareFits(fs, home, d, n - 1);
      if IsKid(fs, d, n - 1) {
        KidSlot(fs, home, d, n - 1);
        assert home[n - 1].k !in Slots(fs, home, d, n - 1);
      }
    }
  }

  lemma KidSlot(fs: seq<Inode>, home: map<nat, Home>, d: nat, e: nat)
    requires Tree(fs, home) && d < |fs| && e < |fs| && IsKid(fs, d, e)
    ensures e in home && 2 <= home[e].k < |fs[d].ents| && fs[d].ents[home[e].k].inum == e
  {
    assert HomeOk(fs, home, e);
  }

  lemma {:induction false} InRangeSize(s: set<nat>, n: nat)
    requires forall k :: k in s ==> 2 <= k < n
    ensures |s| <= if n >= 2 then n - 2 else 0
    decreases n
  {
    if n <= 2 {
      assert s == {};
    } else {
      InRangeSize(s - {n - 1}, n - 1);
    }
  }

  /** A directory has fewer references than it has entries. */
  lemma DirCountFits(fs: seq<Inode>, home: map<nat, Home>, d: nat)
    requires Inv(fs, home) && d < |fs| && Linked(fs[d])
    ensures fs[d].nlink < |fs[d].ents| <= MAXENTS
  {
    assert NodeOk(fs, d);
    SlotsBelow(fs, home, d, |fs|);
    InRangeSize(Slots(fs, home, d, |fs|), |fs[d].ents|);
  }

  // ----- create a directory

  lemma DotsAre(i: nat, d: nat)
    requires 0 < i < 0x1_0000 && 0 < d < 0x1_0000
    ensures Dots(i, d) == [Entry(i, "."), Entry(d, "..")]
  {
    assert FreeSlot([]) == 0;
    assert [Entry(i, ".")][1..] == [];
  }

  lemma DotsShare(i: Ushort, d: Ushort, j: nat)
    requires i != d && j >= 1
    ensures CountIn([Entry(i, "."), Entry(d, "..")], j) == if j == d then 1 else 0
  {
    var ents := [Entry(i, "."), Entry(d, "..")];
    assert ents[1..] == [Entry(d, "..")] && ents[1..][1..] == [];
    assert CountIn(ents[1..][1..], j) == 0;
    assert CountIn(ents[1..], j) == One(Entry(d, ".."), j);
    assert CountIn(ents, j) == One(Entry(i, "."), j) + CountIn(ents[1..], j);
  }

  lemma MadeDirCount(fs: seq<Inode>, home: map<nat, Home>, d: nat, name: Name, i: nat, j: nat)
    requires Inv(fs, home) && d < |fs| && 0 < fs[d].nlink < 0x7FFF && 1 <= i < |fs| && i < 0x1_0000
      && fs[i].kind == Free && 1 <= j < |fs| && name != "."
    requires Linked(fs[d])
    ensures Refs(MadeDir(fs, d, name, i), j) == Refs(fs, j) + (if j == i || j == d then 1 else 0)
  {
    NewUnlinked(fs, home, d, i);
    DotsAre(i, d);
    DotsShare(i, d, j);
    var fs1 := fs[i := Inode(Dir, 1, Dots(i, d))];
    RefsSet(fs, i, fs1[i], j);
    var x := fs[d].(nlink := fs[d].nlink + 1, ents := Enter(fs[d].ents, name, i));
    RefsSet(fs1, d, x, j);
    EnterCount(fs[d].ents, name, i, j);
  }

  /** In an unlinked directory mkdir makes the parent count again, so that its
      ".." refers once too often. */
  lemma UnlinkedDirCount(fs: seq<Inode>, home: map<nat, Home>, d: nat, name: Name, i: nat)
    requires Inv(fs, home) && d < |fs| && fs[d].kind == Dir && !Linked(fs[d]) && 1 <= i < |fs| && i < 0x1_0000
      && fs[i].kind == Free
    requires name != "." && name != ".."
    ensures !Counts(MadeDir(fs, d, name, i))
  {
    NewUnlinked(fs, home, d, i);
    assert NodeOk(fs, d);
    var p := fs[d].ents[1].inum;
    var fs1 := fs[i := Inode(Dir, 1, Dots(i, d))];
    var x := fs[d].(nlink := 1, ents := Enter(fs[d].ents, name, i));
    DotsAre(i, d);
    DotsShare(i, d, p);
    RefsSet(fs, i, fs1[i], p);
    RefsSet(fs1, d, x, p);
    EnterCount(fs[d].ents, name, i, p);
    CountAtLeast(fs[d].ents, 1, p);
    hide Enter, Refs;
    assert fs[d].nlink == 0;
    var fs' := MadeDir(fs, d, name, i);
    assert Refs(fs', p) != fs'[p].nlink || fs'[p].kind == Free;
  }

  lemma MadeDirTree(fs: seq<Inode>, home: map<nat, Home>, d: nat, name: Name, i: nat)
    requires Inv(fs, home) && d < |fs| && Linked(fs[d]) && 1 <= i < |fs| && fs[i].kind == Free
    requires Lookup(fs[d].ents, name) == |fs[d].ents| && FreeSlot(fs[d].ents) < MAXENTS && i < 0x1_0000
      && fs[d].nlink < 0x7FFF
    ensures Nodes(MadeDir(fs, d, name, i)) && Tree(MadeDir(fs, d, name, i), home[i := Home(d, FreeSlot(fs[d].ents))])
  {
    var fs' := MadeDir(fs, d, name, i);
    var home' := home[i := Home(d, FreeSlot(fs[d].ents))];
    NewUnlinked(fs, home, d, i);
    DotsAre(i, d);
    assert Adds(fs, fs', d, name, i);
    EnterAt(fs[d].ents, name, i);
    EnterDirOk(fs[d], d, name, i, fs[d].nlink);
    hide Enter, FreeSlot, Lookup, Refs;
    forall j | 0 <= j < |fs'| ensures NodeOk(fs', j) && HomeOk(fs', home', j) {
      if j != i {
        AddNode(fs, fs', d, name, i, j);
        AddHome(fs, fs', home, home', d, name, i, j);
      }
    }
    forall e, k | 0 <= e < |fs'| && 0 <= k < |fs'[e].ents| ensures EnteredOnce(fs', home', e, k) {
      if e != i && (e != d || k != FreeSlot(fs[d].ents)) { AddEntered(fs, fs', home, home', d, name, i, e, k); }
    }
    RootStays(fs, fs', home, d, name, i);
  }

  /** mkdir keeps every count exact if and only if the parent is linked and an
      entry has room for the number of the new inode. The count of the parent
      does not wrap. */
  lemma CreateDirKeepsIff(fs: seq<Inode>, home: map<nat, Home>, d: nat, name: Name, i: nat)
    requires Inv(fs, home) && d < |fs| && fs[d].kind == Dir && 1 <= i < |fs| && fs[i].kind == Free
    requires Lookup(fs[d].ents, name) == |fs[d].ents|
    ensures Counts(MadeDir(fs, d, name, i)) <==> Linked(fs[d]) && i < 0x1_0000
    ensures Linked(fs[d]) && i < 0x1_0000 && FreeSlot(fs[d].ents) < MAXENTS ==>
      Inv(MadeDir(fs, d, name, i), home[i := Home(d, FreeSlot(fs[d].ents))])
  {
    var fs' := MadeDir(fs, d, name, i);
    NewUnlinked(fs, home, d, i);
    DotTaken(fs, d, name);
    if i >= 0x1_0000 {
      TooLargeBelow(fs', i, |fs'|);
      assert fs'[i].nlink == 1 && fs'[i].kind == Dir && Refs(fs', i) == 0;
    } else if Linked(fs[d]) {
      DirCountFits(fs, home, d);
      if FreeSlot(fs[d].ents) < MAXENTS { MadeDirTree(fs, home, d, name, i); }
      hide Enter, FreeSlot, Lookup, Refs;
      forall j | 1 <= j < |fs'|
        ensures if fs'[j].kind == Free then Refs(fs', j) == 0 else fs'[j].nlink == Refs(fs', j) {
        MadeDirCount(fs, home, d, name, i, j);
      }
    } else {
      UnlinkedDirCount(fs, home, d, name, i);
    }
  }

  // ----- link

  lemma MadeLinkCount(fs: seq<Inode>, home: map<nat, Home>, d: nat, name: Name, i: nat, j: nat)
    requires Inv(fs, home) && d < |fs| && fs[d].kind == Dir && 1 <= i < |fs| && fs[i].kind != Dir && 1 <= j < |fs|
      && name != "."
    ensures Refs(MadeLink(fs, d, name, i), j) == Refs(fs, j) + (if Linked(fs[d]) && j == ToUshort(i) then 1 else 0)
  {
    var fs1 := fs[i := fs[i].(nlink := ToShort(fs[i].nlink + 1))];
    RefsSet(fs, i, fs1[i], j);
    var x := fs[d].(ents := Enter(fs[d].ents, name, i));
    RefsSet(fs1, d, x, j);
    EnterCount(fs[d].ents, name, i, j);
  }

  lemma MadeLinkTree(fs: seq<Inode>, home: map<nat, Home>, d: nat, name: Name, i: nat)
    requires Inv(fs, home) && d < |fs| && Linked(fs[d]) && 1 <= i < |fs| && fs[i].kind != Dir && fs[i].kind != Free
    requires Lookup(fs[d].ents, name) == |fs[d].ents| && FreeSlot(fs[d].ents) < MAXENTS && i < 0x1_0000
    ensures Nodes(MadeLink(fs, d, name, i)) && Tree(MadeLink(fs, d, name, i), home)
  {
    var fs' := MadeLink(fs, d, name, i);
    assert NodeOk(fs, d) && NodeOk(fs, i);
    assert Adds(fs, fs', d, name, i);
    EnterAt(fs[d].ents, name, i);
    EnterDirOk(fs[d], d, name, i, fs[d].nlink);
    hide Enter, FreeSlot, Lookup, Refs;
    forall j | 0 <= j < |fs'| ensures NodeOk(fs', j) && HomeOk(fs', home, j) {
      if j != i {
        AddNode(fs, fs', d, name, i, j);
        AddHome(fs, fs', home, home, d, name, i, j);
      }
    }
    forall e, k | 0 <= e < |fs'| && 0 <= k < |fs'[e].ents| ensures EnteredOnce(fs', home, e, k) {
      if e != d || k != FreeSlot(fs[d].ents) { AddEntered(fs, fs', home, home, d, name, i, e, k); }
    }
    RootStays(fs, fs', home, d, name, i);
  }

  /** link keeps every count exact if and only if the parent is linked, the count
      is not at its largest value and an entry has room for the inode number. */
  lemma LinkKeepsIff(fs: seq<Inode>, home: map<nat, Home>, d: nat, name: Name, i: nat)
    requires Inv(fs, home) && d < |fs| && fs[d].kind == Dir && 1 <= i < |fs| && fs[i].kind != Dir && fs[i].kind != Free
    requires Lookup(fs[d].ents, name) == |fs[d].ents|
    ensures Counts(MadeLink(fs, d, name, i)) <==> Linked(fs[d]) && fs[i].nlink < 0x7FFF && i < 0x1_0000
    ensures Linked(fs[d]) && fs[i].nlink < 0x7FFF && i < 0x1_0000 && FreeSlot(fs[d].ents) < MAXENTS ==>
      Inv(MadeLink(fs, d, name, i), home)
  {
    var fs' := MadeLink(fs, d, name, i);
    DotTaken(fs, d, name);
    MadeLinkCount(fs, home, d, name, i, i);
    if Linked(fs[d]) && fs[i].nlink < 0x7FFF && i < 0x1_0000 {
      if FreeSlot(fs[d].ents) < MAXENTS { MadeLinkTree(fs, home, d, name, i); }
      hide Enter, FreeSlot, Lookup, Refs;
      forall j | 1 <= j < |fs'|
        ensures if fs'[j].kind == Free then Refs(fs', j) == 0 else fs'[j].nlink == Refs(fs', j) {
        MadeLinkCount(fs, home, d, name, i, j);
      }
    }
  }

  // ----- unlink

  predicate EmptyDir(x: Inode) { forall k :: 2 <= k < |x.ents| ==> !Used(x.ents[k]) }

  lemma {:induction false} NoneUsed(ents: seq<Entry>, j: nat)
    requires j >= 1 && forall k :: 0 <= k < |ents| ==> !Used(ents[k])
    ensures CountIn(ents, j) == 0
  {
    if ents != [] { NoneUsed(ents[1..], j); }
  }

  lemma EmptyShare(x: Inode, i: nat, j: nat)
    requires DirOk(x, i) && EmptyDir(x) && j >= 1
    ensures CountIn(x.ents, j) == One(x.ents[1], j)
  {
    var t := x.ents[1..];
    NoneUsed(t[1..], j);
    assert CountIn(t, j) == One(t[0], j) + CountIn(t[1..], j);
  }

  /** An empty directory is referred to by its one name. */
  lemma EmptyDirOnce(fs: seq<Inode>, home: map<nat, Home>, d: nat, k: nat, i: nat)
    requires Inv(fs, home) && d < |fs| && Linked(fs[d]) && 2 <= k < |fs[d].ents| && fs[d].ents[k].inum == i
      && 1 <= i < |fs|
    requires fs[i].kind == Dir && EmptyDir(fs[i])
    ensures i != d && Linked(fs[i]) && i != ROOTINO && |fs[i].ents| >= 2 && fs[i].ents[1].inum == d && Refs(fs, i) == 1
  {
    assert NodeOk(fs, d) && NodeOk(fs, i) && EnteredOnce(fs, home, d, k) && HomeOk(fs, home, i);
    var x := fs[d].(ents := fs[d].ents[k := NO_ENTRY]);
    var fs' := fs[d := x];
    CountSet(fs[d].ents, k, NO_ENTRY, i);
    RefsSet(fs, d, x, i);
    NamedCounts(fs, d, k);
    if Refs(fs', i) > 0 {
      var e, l := RefsFound(fs', i);
      OtherName(fs, fs', home, d, k, i, e, l);
    }
  }

  /** No second entry names an empty directory. */
  lemma OtherName(fs: seq<Inode>, fs': seq<Inode>, home: map<nat, Home>, d: nat, k: nat, i: nat, e: nat, l: nat)
    requires Nodes(fs) && Tree(fs, home) && d < |fs| && Linked(fs[d]) && 2 <= k < |fs[d].ents| && 1 <= i < |fs|
      && i != ROOTINO
    requires Linked(fs[i]) && EmptyDir(fs[i]) && i in home && home[i] == Home(d, k)
    requires fs' == fs[d := fs[d].(ents := fs[d].ents[k := NO_ENTRY])]
    requires e < |fs'| && Linked(fs'[e]) && l < |fs'[e].ents|
    ensures One(fs'[e].ents[l], i) == 0
  {
    assert NodeOk(fs, e) && HomeOk(fs, home, e);
    assert EnteredOnce(fs, home, e, l);
    assert e != ROOTINO ==> Used(fs[home[e].d].ents[home[e].k]);
  }

  /** A directory with a subdirectory has at least two references. */
  lemma ParentTwice(fs: seq<Inode>, home: map<nat, Home>, d: nat, i: nat)
    requires Inv(fs, home) && d < |fs| && Linked(fs[d]) && i < |fs| && Linked(fs[i]) && i != ROOTINO && d >= 1
      && |fs[i].ents| >= 2 && fs[i].ents[1].inum == d
    ensures Refs(fs, d) >= 2
  {
    assert NodeOk(fs, i) && NodeOk(fs, d) && HomeOk(fs, home, d);
    if d == ROOTINO {
      assert NodeOk(fs, ROOTINO);
      RefsTwo(fs, d, i, 1, ROOTINO, 1);
    } else {
      var h := home[d];
      NamedNotDot(fs, h.d, h.k);
      RefsTwo(fs, d, i, 1, h.d, h.k);
    }
  }

  lemma NamedNotDot(fs: seq<Inode>, e: nat, k: nat)
    requires Nodes(fs) && e < |fs| && Linked(fs[e]) && 2 <= k < |fs[e].ents| && Used(fs[e].ents[k])
    ensures fs[e].ents[k].name != "."
  {
    assert NodeOk(fs, e);
  }

  lemma RemovedFileCount(fs: seq<Inode>, home: map<nat, Home>, d: nat, k: nat, i: nat, j: nat)
    requires Inv(fs, home) && d < |fs| && Linked(fs[d]) && 2 <= k < |fs[d].ents| && fs[d].ents[k].inum == i
      && 1 <= i < |fs| && fs[i].kind != Dir && 1 <= j < |fs|
    ensures Refs(Removed(fs, d, k, i), j) == Refs(fs, j) - (if j == i then 1 else 0)
  {
    NamedNotDot(fs, d, k);
    var x := fs[d].(ents := fs[d].ents[k := NO_ENTRY]);
    RefsSet(fs, d, x, j);
    CountSet(fs[d].ents, k, NO_ENTRY, j);
    RefsSet(fs[d := x], i, fs[i].(nlink := ToShort(fs[i].nlink - 1)), j);
  }

  lemma RemovedDirCount(fs: seq<Inode>, home: map<nat, Home>, d: nat, k: nat, i: nat, j: nat)
    requires Inv(fs, home) && d < |fs| && Linked(fs[d]) && 2 <= k < |fs[d].ents| && fs[d].ents[k].inum == i
      && 1 <= i < |fs| && 1 <= j < |fs|
    requires fs[i].kind == Dir && EmptyDir(fs[i])
    ensures fs[i].nlink == 1 && fs[d].nlink >= 2 && i != d
    ensures Refs(Removed(fs, d, k, i), j) == Refs(fs, j) - (if j == i || j == d then 1 else 0)
  {
    EmptyDirOnce(fs, home, d, k, i);
    assert NodeOk(fs, d) && NodeOk(fs, i);
    ParentTwice(fs, home, d, i);
    NamedNotDot(fs, d, k);
    var x := fs[d].(ents := fs[d].ents[k := NO_ENTRY], nlink := fs[d].nlink - 1);
    RefsSet(fs, d, x, j);
    CountSet(fs[d].ents, k, NO_ENTRY, j);
    RefsSet(fs[d := x], i, fs[i].(nlink := fs[i].nlink - 1), j);
    EmptyShare(fs[i], i, j);
  }

  lemma ClearedDirOk(x: Inode, d: nat, k: nat, n: Short)
    requires DirOk(x, d) && 2 <= k < |x.ents|
    ensures DirOk(x.(ents := x.ents[k := NO_ENTRY], nlink := n), d)
  {
  }

  /** Both inodes of an unlink keep their kind; d stays linked, i may not. */
  predicate Removes(fs: seq<Inode>, fs': seq<Inode>, d: nat, k: nat, i: nat) {
    && d < |fs| && 1 <= i < |fs| && d != i && k < |fs[d].ents| && |fs'| == |fs|
    && fs'[d].kind == fs[d].kind && fs'[d].ents == fs[d].ents[k := NO_ENTRY] && fs'[d].nlink > 0
    && fs'[i].kind == fs[i].kind && fs'[i].ents == fs[i].ents
    && (fs[i].kind == Dir ==> EmptyDir(fs[i]) && !Linked(fs'[i]))
    && (forall j :: 0 <= j < |fs| && j != d && j != i ==> fs'[j] == fs[j])
  }

  lemma RemoveNode(fs: seq<Inode>, fs': seq<Inode>, d: nat, k: nat, i: nat, j: nat)
    requires Nodes(fs) && Removes(fs, fs', d, k, i) && Linked(fs[d]) && 2 <= k && j < |fs|
    ensures NodeOk(fs', j)
  {
    assert NodeOk(fs, j) && NodeOk(fs, d);
    ClearedDirOk(fs[d], d, k, fs'[d].nlink);
    hide DirOk;
    forall e, l | 0 <= e < |fs'| && 0 <= l < |fs'[e].ents| && Used(fs'[e].ents[l])
      ensures fs'[e].ents[l] == fs[e].ents[l] {}
  }

  lemma RemoveTree(fs: seq<Inode>, fs': seq<Inode>, home: map<nat, Home>, d: nat, k: nat, i: nat)
    requires Nodes(fs) && Tree(fs, home) && Removes(fs, fs', d, k, i) && Linked(fs[d]) && 2 <= k
      && fs[d].ents[k].inum == i
    requires fs[i].kind == Dir ==> i in home && home[i] == Home(d, k) && i != ROOTINO
    ensures Tree(fs', home) && Nodes(fs')
  {
    forall j | 0 <= j < |fs'| ensures NodeOk(fs', j) && HomeOk(fs', home, j) {
      RemoveNode(fs, fs', d, k, i, j);
      assert HomeOk(fs, home, j);
      RemoveHome(fs, fs', home, d, k, i, j);
    }
    hide NodeOk;
    forall e, l | 0 <= e < |fs'| && 0 <= l < |fs'[e].ents| ensures EnteredOnce(fs', home, e, l) {
      assert EnteredOnce(fs, home, e, l);
    }
  }

  lemma RemoveHome(fs: seq<Inode>, fs': seq<Inode>, home: map<nat, Home>, d: nat, k: nat, i: nat, j: nat)
    requires Nodes(fs) && Removes(fs, fs', d, k, i) && Linked(fs[d]) && 2 <= k && fs[d].ents[k].inum == i && j < |fs|
      && HomeOk(fs, home, j)
    ensures HomeOk(fs', home, j)
  {
    if Linked(fs'[j]) && j != ROOTINO {
      assert Linked(fs[j]);
      var h := home[j];
      assert Used(fs[h.d].ents[h.k]);
    }
  }

  /** unlink keeps every count exact; the parent of a used name is linked. */
  lemma UnlinkKeeps(fs: seq<Inode>, home: map<nat, Home>, d: nat, k: nat, i: nat)
    requires Inv(fs, home) && d < |fs| && fs[d].kind == Dir && 2 <= k < |fs[d].ents| && Used(fs[d].ents[k])
      && fs[d].ents[k].inum == i
    requires i < |fs| && (fs[i].kind == Dir ==> EmptyDir(fs[i]))
    ensures Linked(fs[d]) && fs[i].kind != Free && fs[i].nlink >= 1 && Inv(Removed(fs, d, k, i), home)
  {
    assert NodeOk(fs, d);
    NamedCounts(fs, d, k);
    var fs' := Removed(fs, d, k, i);
    assert EnteredOnce(fs, home, d, k);
    forall j | 1 <= j < |fs'| ensures if fs'[j].kind == Free then Refs(fs', j) == 0 else fs'[j].nlink == Refs(fs', j) {
      if fs[i].kind == Dir { RemovedDirCount(fs, home, d, k, i, j); } else { RemovedFileCount(fs, home, d, k, i, j); }
    }
    if fs[i].kind == Dir { RemovedDirCount(fs, home, d, k, i, i); }
    hide Refs;
    assert Removes(fs, fs', d, k, i);
    RemoveTree(fs, fs', home, d, k, i);
  }

  // ----- freeing an inode

  lemma ReclaimNode(fs: seq<Inode>, home: map<nat, Home>, i: nat, j: nat)
    requires Inv(fs, home) && 1 <= i < |fs| && fs[i].kind != Free && fs[i].nlink == 0 && j < |fs|
    ensures NodeOk(Reclaimed(fs, i), j)
  {
    assert NodeOk(fs, j);
    if Linked(fs[j]) {
      forall k | 0 <= k < |fs[j].ents| && Used(fs[j].ents[k]) ensures fs[j].ents[k].inum != i {
        if fs[j].ents[k].inum == i {
          if k > 0 { RefsAtLeast(fs, i, j, k); }
        }
      }
    }
  }

  /** An inode without links can be freed: nothing linked names it. */
  lemma ReclaimKeeps(fs: seq<Inode>, home: map<nat, Home>, i: nat)
    requires Inv(fs, home) && 1 <= i < |fs| && fs[i].kind != Free && fs[i].nlink == 0
    ensures Inv(Reclaimed(fs, i), home)
  {
    var fs' := Reclaimed(fs, i);
    forall j | 1 <= j < |fs'| ensures if fs'[j].kind == Free then Refs(fs', j) == 0 else fs'[j].nlink == Refs(fs', j) {
      RefsSet(fs, i, NO_INODE, j);
    }
    forall j | 0 <= j < |fs'| ensures NodeOk(fs', j) && HomeOk(fs', home, j) {
      ReclaimNode(fs, home, i, j);
      assert HomeOk(fs, home, j);
    }
    hide Refs, NodeOk;
    forall e, l | 0 <= e < |fs'| && 0 <= l < |fs'[e].ents| ensures EnteredOnce(fs', home, e, l) {
      assert EnteredOnce(fs, home, e, l);
    }
  }

  // ----- a new file system

  const ROOT := Inode(Dir, 1, [Entry(1, "."), Entry(1, "..")])

  function Fresh(n: nat): seq<Inode> { seq(n, i => if i == ROOTINO then ROOT else NO_INODE) }

  lemma RootDots(j: nat)
    requires j >= 1
    ensures CountIn(ROOT.ents, j) == if j == 1 then 1 else 0
  {
    var ents := ROOT.ents;
    assert ents[1..] == [Entry(1, "..")] && ents[1..][1..] == [];
    assert CountIn(ents[1..][1..], j) == 0;
    assert CountIn(ents[1..], j) == One(Entry(1, ".."), j);
    assert CountIn(ents, j) == One(Entry(1, "."), j) + CountIn(ents[1..], j);
  }

  lemma {:induction false} FreshRefs(n: nat, j: nat, m: nat)
    requires j >= 1 && m <= n
    ensures RefsBelow(Fresh(n), j, m) == if j == 1 && m > 1 then 1 else 0
  {
    if m > 0 {
      FreshRefs(n, j, m - 1);
      RootDots(j);
    }
  }

  lemma FreshInv(n: nat)
    requires n > ROOTINO
    ensures Inv(Fresh(n), map[])
  {
    var fs := Fresh(n);
    forall j | 1 <= j < |fs|
      ensures if fs[j].kind == Free then Refs(fs, j) == 0 else fs[j].nlink == Refs(fs, j) { FreshRefs(n, j, n); }
    hide Refs;
    forall j | 0 <= j < |fs| ensures NodeOk(fs, j) && HomeOk(fs, map[], j) {}
    forall e, l | 0 <= e < |fs| && 0 <= l < |fs[e].ents| ensures EnteredOnce(fs, map[], e, l) {}
  }

  // ----- the case the code leaves open

  /** A root, a removed but still open directory, and a free inode. */
  function OpenRemoved(): seq<Inode> {
    [NO_INODE, ROOT, Inode(Dir, 0, [Entry(2, "."), Entry(1, "..")]), NO_INODE]
  }

  lemma OpenRemovedRefs(j: nat)
    requires j >= 1
    ensures Refs(OpenRemoved(), j) == if j == 1 then 1 else 0
  {
    var fs := OpenRemoved();
    RootDots(j);
    assert RefsBelow(fs, j, 1) == 0;
    assert RefsBelow(fs, j, 2) == Share(fs[1], j);
    assert RefsBelow(fs, j, 3) == RefsBelow(fs, j, 2);
    assert RefsBelow(fs, j, 4) == RefsBelow(fs, j, 3);
  }

  /** A file created in a removed directory has a link count and no reference. */
  lemma CreateInRemovedDirectory()
    ensures Inv(OpenRemoved(), map[])
    ensures !Counts(MadeFile(OpenRemoved(), 2, "f", 3, File))
  {
    var fs := OpenRemoved();
    forall j | 1 <= j < |fs|
      ensures if fs[j].kind == Free then Refs(fs, j) == 0 else fs[j].nlink == Refs(fs, j) { OpenRemovedRefs(j); }
    hide Refs;
    forall j | 0 <= j < |fs| ensures NodeOk(fs, j) && HomeOk(fs, map[], j) {}
    forall e, l | 0 <= e < |fs| && 0 <= l < |fs[e].ents| ensures EnteredOnce(fs, map[], e, l) {}
    CreateFileKeepsIff(fs, map[], 2, "f", 3, File);
  }
}
