/** Directories and link counts (kernel/fs.c, kernel/sysfile.c): the inode table
    as a value, and what create, link, unlink and the freeing of an inode do to it. */
module LinkCounts {
  const DIRSIZ := 14
  const ROOTINO := 1

  /** The entries of a directory of MAXFILE blocks. */
  const MAXENTS := 17152

  type Name = s: string | |s| <= DIRSIZ

  datatype Kind = Free | Dir | File | Dev

  /** The 16 bits an entry has for an inode number, and those of a link count. */
  type Ushort = n: nat | n < 0x1_0000
  type Short = n: int | -0x8000 <= n < 0x8000

  function ToUshort(n: nat): Ushort { n % 0x1_0000 }

  function ToShort(n: int): Short { (n + 0x8000) % 0x1_0000 - 0x8000 }

  /** A directory entry; inode number 0 marks an empty one. */
  datatype Entry = Entry(inum: Ushort, name: Name)

  datatype Inode = Inode(kind: Kind, nlink: Short, ents: seq<Entry>)

  const NO_ENTRY := Entry(0, "")
  const NO_INODE := Inode(Free, 0, [])

  predicate Linked(x: Inode) { x.kind == Dir && x.nlink > 0 }

  // ----- counting references

  /** Entries other than "." that name inode i. */
  function One(e: Entry, i: nat): nat { if e.inum == i && e.name != "." then 1 else 0 }

  function CountIn(ents: seq<Entry>, i: nat): nat {
    if ents == [] then 0 else One(ents[0], i) + CountIn(ents[1..], i)
  }

  /** What an inode's entries contribute: only linked directories count. */
  function Share(x: Inode, i: nat): nat { if Linked(x) then CountIn(x.ents, i) else 0 }

  function RefsBelow(fs: seq<Inode>, i: nat, n: nat): nat
    requires n <= |fs|
  {
    if n == 0 then 0 else RefsBelow(fs, i, n - 1) + Share(fs[n - 1], i)
  }

  function Refs(fs: seq<Inode>, i: nat): nat { RefsBelow(fs, i, |fs|) }

  lemma {:induction false} CountSet(ents: seq<Entry>, k: nat, e: Entry, i: nat)
    requires k < |ents|
    ensures CountIn(ents[k := e], i) == CountIn(ents, i) - One(ents[k], i) + One(e, i)
  {
    if k == 0 {
      assert ents[k := e][1..] == ents[1..];
    } else {
      assert ents[k := e][1..] == ents[1..][k - 1 := e];
      CountSet(ents[1..], k - 1, e, i);
    }
  }

  lemma {:induction false} CountAppend(ents: seq<Entry>, e: Entry, i: nat)
    ensures CountIn(ents + [e], i) == CountIn(ents, i) + One(e, i)
  {
    if ents == [] {
      assert [] + [e] == [e] && [e][1..] == [];
    } else {
      assert (ents + [e])[1..] == ents[1..] + [e];
      CountAppend(ents[1..], e, i);
    }
  }

  lemma {:induction false} CountFound(ents: seq<Entry>, i: nat) returns (k: nat)
    requires CountIn(ents, i) > 0
    ensures k < |ents| && One(ents[k], i) == 1
  {
    if One(ents[0], i) == 1 {
      k := 0;
    } else {
      var j := CountFound(ents[1..], i);
      k := j + 1;
    }
  }

  lemma CountAtLeast(ents: seq<Entry>, k: nat, i: nat)
    requires k < |ents|
    ensures CountIn(ents, i) >= One(ents[k], i)
  {
    CountSet(ents, k, Entry(0, "."), i);
  }

  lemma {:induction false} RefsSetBelow(fs: seq<Inode>, d: nat, x: Inode, i: nat, n: nat)
    requires d < |fs| && n <= |fs|
    ensures RefsBelow(fs[d := x], i, n) == RefsBelow(fs, i, n) + (if d < n then Share(x, i) - Share(fs[d], i) else 0)
  {
    if n > 0 { RefsSetBelow(fs, d, x, i, n - 1); }
  }

  /** Changing one inode changes the references by its shares. */
  lemma RefsSet(fs: seq<Inode>, d: nat, x: Inode, i: nat)
    requires d < |fs|
    ensures Refs(fs[d := x], i) == Refs(fs, i) + Share(x, i) - Share(fs[d], i)
  {
    RefsSetBelow(fs, d, x, i, |fs|);
  }

  lemma {:induction false} RefsFoundBelow(fs: seq<Inode>, i: nat, n: nat) returns (d: nat, k: nat)
    requires n <= |fs| && RefsBelow(fs, i, n) > 0
    ensures d < n && Linked(fs[d]) && k < |fs[d].ents| && One(fs[d].ents[k], i) == 1
  {
    if Share(fs[n - 1], i) > 0 {
      d := n - 1;
      k := CountFound(fs[d].ents, i);
    } else {
      d, k := RefsFoundBelow(fs, i, n - 1);
    }
  }

  lemma RefsFound(fs: seq<Inode>, i: nat) returns (d: nat, k: nat)
    requires Refs(fs, i) > 0
    ensures d < |fs| && Linked(fs[d]) && k < |fs[d].ents| && One(fs[d].ents[k], i) == 1
  {
    d, k := RefsFoundBelow(fs, i, |fs|);
  }

  lemma RefsAtLeast(fs: seq<Inode>, i: nat, d: nat, k: nat)
    requires d < |fs| && Linked(fs[d]) && k < |fs[d].ents| && One(fs[d].ents[k], i) == 1
    ensures Refs(fs, i) >= 1
  {
    CountAtLeast(fs[d].ents, k, i);
    RefsSet(fs, d, NO_INODE, i);
  }

  /** Two different entries make two references. */
  lemma RefsTwo(fs: seq<Inode>, i: nat, d: nat, k: nat, e: nat, l: nat)
    requires d < |fs| && Linked(fs[d]) && k < |fs[d].ents| && One(fs[d].ents[k], i) == 1 && i != 0
    requires e < |fs| && Linked(fs[e]) && l < |fs[e].ents| && One(fs[e].ents[l], i) == 1 && (d != e || k != l)
    ensures Refs(fs, i) >= 2
  {
    var x := fs[d].(ents := fs[d].ents[k := NO_ENTRY]);
    var fs' := fs[d := x];
    CountSet(fs[d].ents, k, NO_ENTRY, i);
    RefsSet(fs, d, x, i);
    RefsAtLeast(fs', i, e, l);
  }

  lemma {:induction false} CountNone(ents: seq<Entry>, i: nat)
    requires forall k :: 0 <= k < |ents| ==> One(ents[k], i) == 0
    ensures CountIn(ents, i) == 0
  {
    if ents != [] { CountNone(ents[1..], i); }
  }

  /** No entry can hold an inode number of more than 16 bits. */
  lemma {:induction false} TooLargeBelow(fs: seq<Inode>, i: nat, n: nat)
    requires n <= |fs| && i >= 0x1_0000
    ensures RefsBelow(fs, i, n) == 0
  {
    if n > 0 {
      CountNone(fs[n - 1].ents, i);
      TooLargeBelow(fs, i, n - 1);
    }
  }

  // ----- the invariant

  predicate Used(e: Entry) { e.inum != 0 }

  predicate UniqueNames(ents: seq<Entry>) {
    forall k, l :: 0 <= k < l < |ents| && Used(ents[k]) && Used(ents[l]) ==> ents[k].name != ents[l].name
  }

  /** A directory starts with "." and "..", and is a map from names to inodes. */
  predicate DirOk(x: Inode, d: nat) {
    && 2 <= |x.ents| <= MAXENTS && x.ents[0].inum == d && x.ents[0].name == "." && x.ents[1].name == ".."
      && Used(x.ents[1])
    && UniqueNames(x.ents)
  }

  predicate NodeOk(fs: seq<Inode>, d: nat)
    requires d < |fs|
  {
    var x := fs[d];
    && (x.kind == Dir ==> DirOk(x, d) && x.ents[1].inum < |fs|)
    && (x.kind != Dir ==> x.ents == [])
    && (x.kind == Dir && !Linked(x) ==> forall k :: 2 <= k < |x.ents| ==> !Used(x.ents[k]))
    && (Linked(x) ==> forall k :: 0 <= k < |x.ents| && Used(x.ents[k]) ==>
      x.ents[k].inum < |fs| && fs[x.ents[k].inum].kind != Free)
  }

  /** Where each linked directory is entered: slot k of directory d. */
  datatype Home = Home(d: nat, k: nat)

  predicate HomeOk(fs: seq<Inode>, home: map<nat, Home>, i: nat)
    requires i < |fs|
  {
    Linked(fs[i]) && i != ROOTINO ==>
      && i in home && home[i].d < |fs| && Linked(fs[home[i].d]) && 2 <= home[i].k < |fs[home[i].d].ents|
      && fs[home[i].d].ents[home[i].k].inum == i && |fs[i].ents| >= 2 && fs[i].ents[1].inum == home[i].d
  }

  predicate EnteredOnce(fs: seq<Inode>, home: map<nat, Home>, d: nat, k: nat)
    requires d < |fs| && k < |fs[d].ents|
  {
    var i := fs[d].ents[k].inum;
    Linked(fs[d]) && k >= 2 && i != 0 && i < |fs| && fs[i].kind == Dir ==>
      i != ROOTINO && Linked(fs[i]) && i in home && home[i] == Home(d, k)
  }

  /** Directories form a tree: each is entered in one place, which ".." names. */
  ghost predicate Tree(fs: seq<Inode>, home: map<nat, Home>) {
    && |fs| > ROOTINO && Linked(fs[ROOTINO]) && |fs[ROOTINO].ents| >= 2 && fs[ROOTINO].ents[1].inum == ROOTINO
    && (forall i :: 0 <= i < |fs| ==> HomeOk(fs, home, i))
    && (forall d, k :: 0 <= d < |fs| && 0 <= k < |fs[d].ents| ==> EnteredOnce(fs, home, d, k))
  }

  ghost predicate Nodes(fs: seq<Inode>) {
    |fs| > ROOTINO && fs[0].kind == Free && forall d :: 0 <= d < |fs| ==> NodeOk(fs, d)
  }

  /** Every allocated inode's link count is its number of references. */
  ghost predicate Counts(fs: seq<Inode>) {
    forall i :: 1 <= i < |fs| ==> if fs[i].kind == Free then Refs(fs, i) == 0 else fs[i].nlink == Refs(fs, i)
  }

  ghost predicate Inv(fs: seq<Inode>, home: map<nat, Home>) {
    Nodes(fs) && Tree(fs, home) && Counts(fs)
  }

  // ----- directory operations

  /** dirlookup: the first entry in use with that name. */
  function Lookup(ents: seq<Entry>, name: Name): (k: nat)
    ensures k <= |ents| && (k < |ents| ==> Used(ents[k]) && ents[k].name == name)
    ensures forall j :: 0 <= j < k ==> !Used(ents[j]) || ents[j].name != name
  {
    if ents == [] then 0 else if Used(ents[0]) && ents[0].name == name then 0
    else
      var k := Lookup(ents[1..], name);
      assert forall j :: 1 <= j < k + 1 ==> ents[j] == ents[1..][j - 1];
      k + 1
  }

  /** dirlink's choice: the first empty entry, or the end. */
  function FreeSlot(ents: seq<Entry>): (k: nat)
    ensures k <= |ents| && (k < |ents| ==> !Used(ents[k])) && forall j :: 0 <= j < k ==> Used(ents[j])
  {
    if ents == [] then 0 else if !Used(ents[0]) then 0
    else
      var k := FreeSlot(ents[1..]);
      assert forall j :: 1 <= j < k + 1 ==> ents[j] == ents[1..][j - 1];
      k + 1
  }

  function Put(ents: seq<Entry>, k: nat, e: Entry): seq<Entry>
    requires k <= |ents|
  {
    if k < |ents| then ents[k := e] else ents + [e]
  }

  function Enter(ents: seq<Entry>, name: Name, i: nat): seq<Entry> { Put(ents, FreeSlot(ents),
      Entry(ToUshort(i), name)) }

  lemma EnterCount(ents: seq<Entry>, name: Name, i: nat, j: nat)
    requires j != 0
    ensures CountIn(Enter(ents, name, i), j) == CountIn(ents, j) + One(Entry(ToUshort(i), name), j)
  {
    var k, e := FreeSlot(ents), Entry(ToUshort(i), name);
    if k < |ents| { CountSet(ents, k, e, j); } else { CountAppend(ents, e, j); }
  }

  lemma EnterUnique(ents: seq<Entry>, name: Name, i: nat)
    requires UniqueNames(ents) && Lookup(ents, name) == |ents|
    ensures UniqueNames(Enter(ents, name, i))
  {
  }

  // ----- the system calls' effects

  /** create's new file or device in directory d. */
  function MadeFile(fs: seq<Inode>, d: nat, name: Name, i: nat, kind: Kind): seq<Inode>
    requires d < |fs| && i < |fs|
  {
    fs[i := Inode(kind, 1, [])][d := fs[d].(ents := Enter(fs[d].ents, name, i))]
  }

  /** The entries create writes into a new directory. */
  function Dots(i: nat, d: nat): seq<Entry> { Enter(Enter([], ".", i), "..", d) }

  /** create's new directory in directory d. */
  function MadeDir(fs: seq<Inode>, d: nat, name: Name, i: nat): seq<Inode>
    requires d < |fs| && i < |fs|
  {
    fs[i := Inode(Dir, 1, Dots(i, d))]
      [d := fs[d].(nlink := ToShort(fs[d].nlink + 1), ents := Enter(fs[d].ents, name, i))]
  }

  /** sys_link's new name for inode i. */
  function MadeLink(fs: seq<Inode>, d: nat, name: Name, i: nat): seq<Inode>
    requires d < |fs| && i < |fs|
  {
    fs[i := fs[i].(nlink := ToShort(fs[i].nlink + 1))][d := fs[d].(ents := Enter(fs[d].ents, name, i))]
  }

  /** sys_unlink of entry k, which names inode i. */
  function Removed(fs: seq<Inode>, d: nat, k: nat, i: nat): seq<Inode>
    requires d < |fs| && i < |fs| && k < |fs[d].ents|
  {
    fs[d := fs[d].(ents := fs[d].ents[k := NO_ENTRY], nlink := if fs[i].kind == Dir then ToShort(fs[d].nlink - 1)
      else fs[d].nlink)]
      [i := fs[i].(nlink := ToShort(fs[i].nlink - 1))]
  }

  /** iput's freeing of an inode without links or references. */
  function Reclaimed(fs: seq<Inode>, i: nat): seq<Inode>
    requires i < |fs|
  {
    fs[i := NO_INODE]
  }
}
