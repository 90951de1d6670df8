/** The 16 bits of a link count and of a directory entry: states that create and
    link lead to, in which the next call breaks a count. */
module LinkLimits {
  import opened LinkCounts
  import opened LinkSafety

  // ----- names enough

  function Digit(n: nat): char
    requires n < 64
  {
    (48 + n) as char
  }

  function Label(k: nat): Name
    requires k < 0x4_0000
  {
    [Digit(k / 4096), Digit(k / 64 % 64), Digit(k % 64)]
  }

  lemma LabelOnce(j: nat, k: nat)
    requires j < 0x4_0000 && k < 0x4_0000 && Label(j) == Label(k)
    ensures j == k
  {
    assert |Label(j)| == 3;
    assert Label(j)[0] == Label(k)[0] && Label(j)[1] == Label(k)[1] && Label(j)[2] == Label(k)[2];
    DigitOnce(j / 4096, k / 4096);
    DigitOnce(j / 64 % 64, k / 64 % 64);
    DigitOnce(j % 64, k % 64);
    Rebuilt(j);
    Rebuilt(k);
  }

  lemma Rebuilt(k: nat)
    ensures k == 4096 * (k / 4096) + 64 * (k / 64 % 64) + k % 64
  {
    var q := k / 64;
    assert k == 64 * q + k % 64 && q == 64 * (q / 64) + q % 64 && k / 4096 == q / 64;
  }

  lemma DigitOnce(m: nat, n: nat)
    requires m < 64 && n < 64 && Digit(m) == Digit(n)
    ensures m == n
  {
    assert Digit(m) as int == 48 + m && Digit(n) as int == 48 + n;
  }

  /** Every name in use is short or one of the first n labels. */
  predicate LabelledBelow(ents: seq<Entry>, n: nat)
    requires n <= 0x4_0000
  {
    forall k :: 0 <= k < |ents| ==> |ents[k].name| < 3 || exists j :: 0 <= j < n && ents[k].name == Label(j)
  }

  lemma LabelUnused(ents: seq<Entry>, n: nat)
    requires n < 0x4_0000 && LabelledBelow(ents, n)
    ensures Lookup(ents, Label(n)) == |ents|
  {
    var k := Lookup(ents, Label(n));
    if k < |ents| {
      var j :| 0 <= j < n && ents[k].name == Label(j);
      LabelOnce(j, n);
    }
  }

  lemma EnterLabel(ents: seq<Entry>, n: nat, i: nat)
    requires n < 0x4_0000 && LabelledBelow(ents, n)
    ensures LabelledBelow(Enter(ents, Label(n), i), n + 1) && |Enter(ents, Label(n), i)| <= |ents| + 1
  {
    var g := Enter(ents, Label(n), i);
    hide Label;
    forall k | 0 <= k < |g| ensures |g[k].name| < 3 || exists j :: 0 <= j < n + 1 && g[k].name == Label(j) {
      if k != FreeSlot(ents) { assert g[k] == ents[k]; } else { assert g[k].name == Label(n); }
    }
  }

  lemma MoreLabels(ents: seq<Entry>, n: nat)
    requires n < 0x4_0000 && LabelledBelow(ents, n)
    ensures LabelledBelow(ents, n + 1)
  {
    hide Label;
  }

  /** A linked directory with at most `size` entries, named by labels below n. */
  predicate Roomy(fs: seq<Inode>, d: nat, n: nat, size: nat)
    requires n <= 0x4_0000
  {
    d < |fs| && Linked(fs[d]) && LabelledBelow(fs[d].ents, n) && |fs[d].ents| <= size
  }

  // ----- 32767 links

  const HOME := map[2 := Home(1, 2)]

  /** A file with one name in the root, and a directory. */
  function OneLink(): seq<Inode> { MadeFile(MadeDir(Fresh(4), 1, "s", 2), 1, "f", 3, File) }

  /** The file after n - 1 calls of link, half of them in either directory. */
  function Links(n: nat): seq<Inode>
    requires 1 <= n <= 0x7FFF
    ensures |Links(n)| == 4
  {
    if n == 1 then OneLink() else MadeLink(Links(n - 1), if n <= 0x4000 then 1 else 2, Label(n), 3)
  }

  /** The root directory before and after its first entry. */
  lemma RootEntries()
    ensures FreeSlot(ROOT.ents) == 2 && Lookup(ROOT.ents, "s") == 2
    ensures var g := Enter(ROOT.ents, "s", 2);
      g == ROOT.ents + [Entry(2, "s")] && FreeSlot(g) == 3 && Lookup(g, "f") == 3
        && Enter(g, "f", 3) == g + [Entry(3, "f")]
  {
  }

  /** The file has n links, and both directories have room. */
  predicate Linkable(fs: seq<Inode>, n: nat)
    requires n < 0x8000
  {
    && |fs| == 4 && fs[3].kind == File && fs[3].nlink == n
    && Roomy(fs, 1, n + 1, 4 + if n <= 0x4000 then n else 0x4000) && Roomy(fs, 2, n + 1, 2 + if n <= 0x4000 then 0
      else n - 0x4000)
  }

  lemma OneDirOk()
    ensures var fs := MadeDir(Fresh(4), 1, "s", 2);
      && |fs| == 4 && fs[3] == NO_INODE && Inv(fs, HOME) && fs[1] == Inode(Dir, 2, ROOT.ents + [Entry(2, "s")])
        && fs[2] == Inode(Dir, 1, [Entry(2, "."), Entry(1, "..")])
  {
    hide Inv, Lookup, FreeSlot, Enter, Dots;
    FreshInv(4);
    RootEntries();
    DotsAre(2, 1);
    CreateDirKeepsIff(Fresh(4), map[], 1, "s", 2);
    assert map[][2 := Home(1, 2)] == HOME;
  }

  lemma OneLinkOk()
    ensures Inv(OneLink(), HOME) && Linkable(OneLink(), 1)
  {
    hide Inv, Lookup, FreeSlot, Enter, Label, MadeDir;
    OneDirOk();
    RootEntries();
    CreateFileKeepsIff(MadeDir(Fresh(4), 1, "s", 2), HOME, 1, "f", 3, File);
  }

  lemma {:induction false} LinksOk(n: nat)
    requires 1 <= n <= 0x7FFF
    ensures Inv(Links(n), HOME) && Linkable(Links(n), n)
  {
    hide Inv, Linkable, MadeLink, OneLink;
    if n == 1 {
      OneLinkOk();
    } else {
      LinksOk(n - 1);
      LinkNext(Links(n - 1), n);
    }
  }

  lemma LinkNext(fs: seq<Inode>, n: nat)
    requires 2 <= n <= 0x7FFF && Inv(fs, HOME) && Linkable(fs, n - 1)
    ensures var fs' := MadeLink(fs, if n <= 0x4000 then 1 else 2, Label(n), 3);
      Inv(fs', HOME) && Linkable(fs', n)
  {
    hide Inv, Label, LabelledBelow, MadeLink;
    LinkAgain(fs, if n <= 0x4000 then 1 else 2, n);
    MoreLabels(fs[1].ents, n);
    MoreLabels(fs[2].ents, n);
  }

  lemma LinkAgain(fs: seq<Inode>, d: nat, n: nat)
    requires Inv(fs, HOME) && |fs| == 4 && 1 <= d < 3 && Linked(fs[d]) && fs[3].kind == File && fs[3].nlink < 0x7FFF
    requires n < 0x4_0000 && LabelledBelow(fs[d].ents, n) && |fs[d].ents| < MAXENTS
    ensures var fs' := MadeLink(fs, d, Label(n), 3);
      && |fs'| == 4 && Inv(fs', HOME) && fs'[3] == fs[3].(nlink := fs[3].nlink + 1)
      && fs'[3 - d] == fs[3 - d] && fs'[d].kind == Dir && fs'[d].nlink == fs[d].nlink
      && LabelledBelow(fs'[d].ents, n + 1) && |fs'[d].ents| <= |fs[d].ents| + 1
  {
    hide Inv, Label, LabelledBelow, Enter;
    LabelUnused(fs[d].ents, n);
    LinkKeepsIff(fs, HOME, d, Label(n), 3);
    EnterLabel(fs[d].ents, n, 3);
  }

  /** Inode i can be entered in the linked directory d. */
  ghost predicate Enterable(fs: seq<Inode>, home: map<nat, Home>, d: nat, name: Name, i: nat) {
    && Inv(fs, home) && d < |fs| && i < |fs| && Linked(fs[d]) && Lookup(fs[d].ents, name) == |fs[d].ents|
      && FreeSlot(fs[d].ents) < MAXENTS
  }

  /** The tree is intact, but a count is wrong, and that of i is below one. */
  ghost predicate Wrapped(fs: seq<Inode>, home: map<nat, Home>, i: nat) {
    !Counts(fs) && Nodes(fs) && Tree(fs, home) && i < |fs| && fs[i].nlink == -0x8000
  }

  /** The 32768th link, in a linked directory, makes the count negative: it is no
      longer the number of references, and the next unlink of the file panics. */
  lemma WrappedCount(n: nat)
    requires n == 0x7FFF
    ensures Enterable(Links(n), HOME, 2, Label(n + 1), 3) && Wrapped(MadeLink(Links(n), 2, Label(n + 1), 3), HOME, 3)
  {
    hide Inv, Label, LabelledBelow, Links, Enterable, Wrapped, MadeLink;
    LinksOk(n);
    Overflows(Links(n), n + 1);
  }

  lemma Overflows(fs: seq<Inode>, n: nat)
    requires Inv(fs, HOME) && Linkable(fs, 0x7FFF) && n == 0x8000
    ensures Enterable(fs, HOME, 2, Label(n), 3) && Wrapped(MadeLink(fs, 2, Label(n), 3), HOME, 3)
  {
    hide Inv, Label, LabelledBelow, Counts, Nodes, Tree, Enter;
    LabelUnused(fs[2].ents, n);
    LinkKeepsIff(fs, HOME, 2, Label(n), 3);
    MadeLinkTree(fs, HOME, 2, Label(n), 3);
  }

  // ----- 65535 inodes

  /** The file system after inodes 2 to n were created: four directories in the
      root, and then files, in each directory a quarter. */
  function Town(n: nat): seq<Inode>
    requires 1 <= n <= 0xFFFF
    ensures |Town(n)| == 0x1_0002
  {
    if n == 1 then Fresh(0x1_0002)
    else if n <= 5 then MadeDir(Town(n - 1), 1, Label(n), n)
    else MadeFile(Town(n - 1), 2 + n / 0x4000, Label(n), n, File)
  }

  function TownHome(n: nat): map<nat, Home>
    requires 1 <= n <= 0xFFFF
  {
    if n == 1 then map[] else if n <= 5 then TownHome(n - 1)[n := Home(1, FreeSlot(Town(n - 1)[1].ents))]
      else TownHome(n - 1)
  }

  /** At most this many entries are in directory d. */
  function Extent(n: nat, d: nat): nat {
    if d == 1 then 2 + (if n < 5 then n else 5)
    else if n / 0x4000 + 2 < d then 2 else if n / 0x4000 + 2 == d then 3 + n % 0x4000 else 0x4002
  }

  /** Inodes up to n are in use, and the directories among them have room. */
  predicate Settled(fs: seq<Inode>, n: nat)
    requires n < 0x4_0000
  {
    && n < |fs| && (forall j :: 1 <= j < |fs| ==> (fs[j].kind != Free <==> j <= n))
    && (forall d :: 1 <= d <= 5 && d <= n ==> HasRoom(fs, n, d))
  }

  predicate HasRoom(fs: seq<Inode>, n: nat, d: nat)
    requires n < 0x4_0000
  {
    Roomy(fs, d, n + 1, Extent(n, d))
  }

  lemma {:induction false} TownOk(n: nat)
    requires 1 <= n <= 0xFFFF
    ensures Inv(Town(n), TownHome(n)) && Settled(Town(n), n)
  {
    hide Inv, Settled, MadeDir, MadeFile, FreeSlot;
    if n == 1 {
      FreshInv(0x1_0002);
      FreshSettled(0x1_0002);
    } else {
      TownOk(n - 1);
      if n <= 5 { AddDirectory(Town(n - 1), TownHome(n - 1), n); } else { AddFile(Town(n - 1), TownHome(n - 1), n); }
    }
  }

  lemma FreshSettled(n: nat)
    requires n > 5
    ensures Settled(Fresh(n), 1)
  {
  }

  lemma AddDirectory(fs: seq<Inode>, home: map<nat, Home>, n: nat)
    requires 2 <= n <= 5 && n < |fs| && Inv(fs, home) && Settled(fs, n - 1)
    ensures Inv(MadeDir(fs, 1, Label(n), n), home[n := Home(1, FreeSlot(fs[1].ents))])
      && Settled(MadeDir(fs, 1, Label(n), n), n)
  {
    hide Inv, Label, LabelledBelow, Enter, FreeSlot;
    assert HasRoom(fs, n - 1, 1);
    SlotIn(fs[1].ents);
    LabelUnused(fs[1].ents, n);
    CreateDirKeepsIff(fs, home, 1, Label(n), n);
    DirCountFits(fs, home, 1);
    EnterLabel(fs[1].ents, n, n);
    DotsLabelled(n);
    var fs' := MadeDir(fs, 1, Label(n), n);
    forall d | 1 <= d <= 5 && d <= n ensures HasRoom(fs', n, d) {
      if d < n {
        assert HasRoom(fs, n - 1, d);
        MoreLabels(fs[d].ents, n);
      }
    }
  }

  lemma SlotIn(ents: seq<Entry>)
    ensures FreeSlot(ents) <= |ents|
  {
  }

  lemma DotsLabelled(n: nat)
    requires 0 < n < 0x1_0000
    ensures LabelledBelow(Dots(n, 1), n + 1) && |Dots(n, 1)| == 2
  {
    DotsAre(n, 1);
  }

  lemma AddFile(fs: seq<Inode>, home: map<nat, Home>, n: nat)
    requires 6 <= n <= 0xFFFF && n < |fs| && Inv(fs, home) && Settled(fs, n - 1)
    ensures var fs' := MadeFile(fs, 2 + n / 0x4000, Label(n), n, File);
      Inv(fs', home) && Settled(fs', n)
  {
    hide Inv, Label, LabelledBelow, Enter, FreeSlot;
    var d := 2 + n / 0x4000;
    assert HasRoom(fs, n - 1, d);
    SlotIn(fs[d].ents);
    LabelUnused(fs[d].ents, n);
    CreateFileKeepsIff(fs, home, d, Label(n), n, File);
    EnterLabel(fs[d].ents, n, n);
    var fs' := MadeFile(fs, d, Label(n), n, File);
    forall e | 1 <= e <= 5 ensures HasRoom(fs', n, e) {
      assert HasRoom(fs, n - 1, e);
      MoreLabels(fs[e].ents, n);
    }
  }

  /** Then create takes inode 65536, and its entry in a linked directory is empty. */
  lemma WrappedNumber(n: nat)
    requires n == 0xFFFF
    ensures Enterable(Town(n), TownHome(n), 1, Label(n + 1), n + 1)
    ensures Town(n)[n + 1].kind == Free && (forall j :: 1 <= j <= n ==> Town(n)[j].kind != Free)
    ensures !Counts(MadeFile(Town(n), 1, Label(n + 1), n + 1, File))
  {
    hide Inv, Label, LabelledBelow, Town, TownHome, Counts, Enter, FreeSlot, MadeFile;
    TownOk(n);
    assert HasRoom(Town(n), n, 1);
    SlotIn(Town(n)[1].ents);
    LabelUnused(Town(n)[1].ents, n + 1);
    CreateFileKeepsIff(Town(n), TownHome(n), 1, Label(n + 1), n + 1, File);
  }
}
