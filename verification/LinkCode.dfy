/** Path names (kernel/fs.c): splitting a path and walking it. */
module PathNames {
  import opened Basics
  import opened LinkCounts
  import opened LinkSafety

  function Trunc(s: string): Name { if |s| > DIRSIZ then s[..DIRSIZ] else s }

  function WordLen(p: string): (n: nat)
    ensures n <= |p| && (n < |p| ==> p[n] == '/') && forall j :: 0 <= j < n ==> p[j] != '/'
  {
    if p == "" || p[0] == '/' then 0 else 1 + WordLen(p[1..])
  }

  /** The elements of a path, each cut to DIRSIZ characters. */
  function Elements(p: string): seq<Name> {
    if p == "" then []
    else if p[0] == '/' then Elements(p[1..])
    else [Trunc(p[..WordLen(p)])] + Elements(p[WordLen(p)..])
  }

  lemma {:induction false} WordLenIs(p: string, n: nat)
    requires n <= |p| && (n < |p| ==> p[n] == '/') && forall j :: 0 <= j < n ==> p[j] != '/'
    ensures WordLen(p) == n
  {
  }

  /** Joining two paths with a slash joins their elements; with the next two
      lemmas this determines Elements. */
  lemma {:induction false} ElementsJoin(a: string, b: string)
    ensures Elements(a + "/" + b) == Elements(a) + Elements(b)
    decreases |a|
  {
    var p := a + "/" + b;
    if a == "" {
      assert p[1..] == b;
    } else if a[0] == '/' {
      assert p[1..] == a[1..] + "/" + b;
      ElementsJoin(a[1..], b);
    } else {
      var n := WordLen(a);
      forall j | 0 <= j < n ensures p[j] != '/' { assert p[j] == a[j]; }
      assert p[n] == '/';
      WordLenIs(p, n);
      assert p[..n] == a[..n] && p[n..] == a[n..] + "/" + b;
      ElementsJoin(a[n..], b);
    }
  }

  lemma ElementsOne(e: string)
    requires e != "" && '/' !in e
    ensures Elements(e) == [Trunc(e)]
  {
    WordLenIs(e, |e|);
    assert e[..|e|] == e && e[|e|..] == "";
  }

  lemma ElementsNone(p: string)
    ensures Elements(p) == [] <==> forall j :: 0 <= j < |p| ==> p[j] == '/'
    decreases |p|
  {
    if p != "" && p[0] == '/' {
      ElementsNone(p[1..]);
      forall j | 1 <= j < |p| ensures p[j] == p[1..][j - 1] {}
    }
  }

  /** The loops over slashes. */
  method SkipSlashes(path: string, i: nat) returns (s: nat)
    requires i <= |path|
    ensures i <= s <= |path| && (s < |path| ==> path[s] != '/') && Elements(path[s..]) == Elements(path[i..])
  {
    s := i;
    while s < |path| && path[s] == '/'
      invariant i <= s <= |path| && Elements(path[s..]) == Elements(path[i..])
    {
      assert path[s..][1..] == path[s + 1..];
      s := s + 1;
    }
  }

  method SkipWord(path: string, s: nat) returns (e: nat)
    requires s < |path| && path[s] != '/'
    ensures s < e <= |path| && Elements(path[s..]) == [Trunc(path[s..e])] + Elements(path[e..])
  {
    e := s;
    while e < |path| && path[e] != '/'
      invariant s <= e <= |path| && forall j :: s <= j < e ==> path[j] != '/'
    {
      e := e + 1;
    }
    hide Elements;
    WordLenIs(path[s..], e - s);
    FirstElement(path, s, e);
  }

  lemma FirstElement(path: string, s: nat, e: nat)
    requires s < e <= |path| && path[s] != '/' && WordLen(path[s..]) == e - s
    ensures Elements(path[s..]) == [Trunc(path[s..e])] + Elements(path[e..])
  {
    assert path[s..][..e - s] == path[s..e] && path[s..][e - s..] == path[e..];
  }

  lemma NoneLeft(path: string, i: nat)
    requires i <= |path| && (i < |path| ==> path[i] != '/')
    ensures i == |path| <==> Elements(path[i..]) == []
  {
  }

  /** skipelem: the next element, and the position after it and its slashes. */
  method Skipelem(path: string, i: nat) returns (found: bool, name: Name, next: nat)
    requires i <= |path|
    ensures found <==> Elements(path[i..]) != []
    ensures found ==> i < next <= |path| && Elements(path[i..]) == [name] + Elements(path[next..])
    ensures found ==> (next == |path| <==> Elements(path[next..]) == [])
  {
    hide Elements, WordLen, Trunc;
    name := "";
    var s := SkipSlashes(path, i);
    NoneLeft(path, s);
    if s == |path| { return false, name, s; }
    var e := SkipWord(path, s);
    name := Trunc(path[s..e]);
    next := SkipSlashes(path, e);
    NoneLeft(path, next);
    found := true;
  }

  // ----- walking

  /** namex without its last step: follow the elements from directory d. */
  function Resolve(fs: seq<Inode>, d: nat, elems: seq<Name>): Option<nat>
    decreases |elems|
  {
    if elems == [] then Some(d)
    else if d >= |fs| || fs[d].kind != Dir then None
    else
      var k := Lookup(fs[d].ents, elems[0]);
      if k == |fs[d].ents| then None else Resolve(fs, fs[d].ents[k].inum, elems[1..])
  }

  /** One step from a linked directory leads to an allocated inode, and if that
      is a directory, to a linked one. */
  lemma StepLinked(fs: seq<Inode>, home: map<nat, Home>, d: nat, k: nat)
    requires Nodes(fs) && Tree(fs, home) && d < |fs| && Linked(fs[d]) && k < |fs[d].ents| && Used(fs[d].ents[k])
    ensures var i := fs[d].ents[k].inum; 1 <= i < |fs| && fs[i].kind != Free && (fs[i].kind == Dir ==> Linked(fs[i]))
  {
    assert NodeOk(fs, d) && HomeOk(fs, home, d) && EnteredOnce(fs, home, d, k);
  }

  /** From a linked directory, paths reach only allocated inodes and linked
      directories. */
  lemma {:induction false} ResolveLinked(fs: seq<Inode>, home: map<nat, Home>, d: nat, elems: seq<Name>)
    requires Nodes(fs) && Tree(fs, home) && 1 <= d < |fs| && fs[d].kind != Free
      && (fs[d].kind == Dir ==> Linked(fs[d])) && Resolve(fs, d, elems).Some?
    ensures var i := Resolve(fs, d, elems).value;
      1 <= i < |fs| && fs[i].kind != Free && (fs[i].kind == Dir ==> Linked(fs[i]))
    decreases |elems|
  {
    hide Nodes, Tree;
    if elems != [] {
      var k := Lookup(fs[d].ents, elems[0]);
      StepLinked(fs, home, d, k);
      ResolveLinked(fs, home, fs[d].ents[k].inum, elems[1..]);
    }
  }

  /** namex starts at the root for a path with a leading slash, and at the
      working directory otherwise. */
  function StartOf(path: string, cwd: nat): nat { if path != "" && path[0] == '/' then ROOTINO else cwd }

  /** Any directory, also a removed one that is still in use, holds numbers of
      the inode table; only a removed one may name a freed inode, with its "..". */
  lemma StepAny(fs: seq<Inode>, d: nat, k: nat)
    requires Nodes(fs) && d < |fs| && fs[d].kind == Dir && k < |fs[d].ents| && Used(fs[d].ents[k])
    ensures 1 <= fs[d].ents[k].inum < |fs|
    ensures fs[fs[d].ents[k].inum].kind == Free ==> !Linked(fs[d]) && k == 1
  {
    assert NodeOk(fs, d);
  }

  /** The walk comes to a freed inode, which ilock does not survive. */
  ghost predicate WalksOff(fs: seq<Inode>, d: nat, elems: seq<Name>) {
    exists n :: 0 < n <= |elems| && ReachesFree(fs, d, elems, n)
  }

  ghost predicate ReachesFree(fs: seq<Inode>, d: nat, elems: seq<Name>, n: nat)
    requires n <= |elems|
  {
    var r := Resolve(fs, d, elems[..n]);
    r.Some? && r.value < |fs| && fs[r.value].kind == Free
  }

  /** That does not happen from a linked directory. */
  lemma LinkedStaysOn(fs: seq<Inode>, home: map<nat, Home>, d: nat, elems: seq<Name>)
    requires Nodes(fs) && Tree(fs, home) && 1 <= d < |fs| && Linked(fs[d])
    ensures !WalksOff(fs, d, elems)
  {
    hide Nodes, Tree, Resolve;
    forall n | 0 < n <= |elems| ensures !ReachesFree(fs, d, elems, n) {
      if Resolve(fs, d, elems[..n]).Some? { ResolveLinked(fs, home, d, elems[..n]); }
    }
  }

  lemma ResolveNone(fs: seq<Inode>, d: nat)
    ensures Resolve(fs, d, []) == Some(d)
  {
  }

  lemma ResolveOne(fs: seq<Inode>, d: nat, e: Name)
    requires d < |fs|
    ensures Resolve(fs, d, [e]) ==
      if fs[d].kind != Dir || Lookup(fs[d].ents, e) == |fs[d].ents| then None
        else Some(fs[d].ents[Lookup(fs[d].ents, e)].inum)
  {
    assert [e][1..] == [];
  }

  lemma {:induction false} ResolveSnoc(fs: seq<Inode>, d: nat, elems: seq<Name>, e: Name)
    ensures Resolve(fs, d, elems + [e]) == if Resolve(fs, d, elems).Some? then Resolve(fs,
      Resolve(fs, d, elems).value, [e]) else None
    decreases |elems|
  {
    if elems == [] {
      assert [] + [e] == [e];
    } else if d < |fs| && fs[d].kind == Dir {
      assert (elems + [e])[1..] == elems[1..] + [e] && (elems + [e])[0] == elems[0];
      var k := Lookup(fs[d].ents, elems[0]);
      if k < |fs[d].ents| { ResolveSnoc(fs, fs[d].ents[k].inum, elems[1..], e); }
    }
  }

  /** Walking sees only kinds and entries. */
  lemma {:induction false} ResolveSame(fs: seq<Inode>, fs': seq<Inode>, d: nat, elems: seq<Name>)
    requires |fs'| == |fs| && forall j :: 0 <= j < |fs| ==> fs'[j].kind == fs[j].kind && fs'[j].ents == fs[j].ents
    ensures Resolve(fs', d, elems) == Resolve(fs, d, elems)
    decreases |elems|
  {
    if elems != [] && d < |fs| && fs[d].kind == Dir {
      var k := Lookup(fs[d].ents, elems[0]);
      if k < |fs[d].ents| { ResolveSame(fs, fs', fs[d].ents[k].inum, elems[1..]); }
    }
  }
}

/** create, link, unlink and what they call (kernel/sysfile.c, kernel/fs.c). */
module LinkCode {
  import opened Basics
  import opened LinkCounts
  import opened LinkSafety
  import opened PathNames

  datatype Outcome = Got(inum: nat) | Refused | NoInodes | Panics | Full

  class Names {
    var inodes: seq<Inode>
    ghost var home: map<nat, Home>

    ghost predicate Valid()
      reads this
    {
      Inv(inodes, home)
    }

    /** A new file system of n inodes: the root directory and nothing else. */
    constructor (n: nat)
      requires n > ROOTINO
      ensures Valid() && inodes == Fresh(n)
    {
      inodes, home := Fresh(n), map[];
      new;
      FreshInv(n);
    }

    method Dirlookup(d: nat, name: Name) returns (k: nat)
      requires d < |inodes|
      ensures k == Lookup(inodes[d].ents, name)
    {
      k := 0;
      var ents := inodes[d].ents;
      assert ents[0..] == ents;
      while k < |ents|
        invariant 0 <= k <= |ents| && Lookup(ents, name) == k + Lookup(ents[k..], name)
      {
        assert ents[k..][1..] == ents[k + 1..];
        if Used(ents[k]) && ents[k].name == name { return; }
        k := k + 1;
      }
    }

    /** dirlink: refused for a name in use, otherwise a new entry in the first
        empty slot, with 16 bits of the inode number; writei refuses an entry
        past MAXFILE blocks, and dirlink panics. */
    method Dirlink(d: nat, name: Name, i: nat) returns (ok: bool, full: bool)
      requires d < |inodes|
      modifies this`inodes
      ensures ok <==>
        Lookup(old(inodes)[d].ents, name) == |old(inodes)[d].ents| && FreeSlot(old(inodes)[d].ents) < MAXENTS
      ensures full <==>
        Lookup(old(inodes)[d].ents, name) == |old(inodes)[d].ents| && FreeSlot(old(inodes)[d].ents) >= MAXENTS
      ensures inodes == if ok then old(inodes)[d := old(inodes)[d].(ents := Enter(old(inodes)[d].ents, name, i))]
        else old(inodes)
    {
      var k := Dirlookup(d, name);
      var ents := inodes[d].ents;
      if k < |ents| { return false, false; }
      var off := 0;
      assert ents[0..] == ents;
      while off < |ents|
        invariant 0 <= off <= |ents| && FreeSlot(ents) == off + FreeSlot(ents[off..])
      {
        assert ents[off..][1..] == ents[off + 1..];
        if !Used(ents[off]) { break; }
        off := off + 1;
      }
      if off >= MAXENTS { return false, true; }
      var de := Entry(ToUshort(i), name);
      ents := if off < |ents| then ents[off := de] else ents + [de];
      inodes := inodes[d := inodes[d].(ents := ents)];
      return true, false;
    }

    method Isdirempty(i: nat) returns (empty: bool)
      requires i < |inodes| && |inodes[i].ents| >= 2
      ensures empty <==> EmptyDir(inodes[i])
    {
      var off := 2;
      while off < |inodes[i].ents|
        invariant 2 <= off <= |inodes[i].ents| && forall k :: 2 <= k < off ==> !Used(inodes[i].ents[k])
      {
        if Used(inodes[i].ents[off]) { return false; }
        off := off + 1;
      }
      return true;
    }

    /** ialloc's scan: the first free inode. */
    method Ialloc() returns (i: nat)
      requires |inodes| >= 1
      ensures 1 <= i <= |inodes| && (i < |inodes| ==> inodes[i].kind == Free)
      ensures forall j :: 1 <= j < i ==> inodes[j].kind != Free
    {
      i := 1;
      while i < |inodes|
        invariant 1 <= i <= |inodes| && forall j :: 1 <= j < i ==> inodes[j].kind != Free
      {
        if inodes[i].kind == Free { return; }
        i := i + 1;
      }
    }

    /** namex: the inode a path names, or the directory of its last element.
        The working directory may have been removed; then the walk can come to
        a freed inode, on which ilock, here or in the caller, panics. */
    method Namex(path: string, cwd: nat, parent: bool) returns (r: Option<nat>, name: Name, panic: bool)
      requires Nodes(inodes) && Tree(inodes, home) && 1 <= cwd < |inodes| && inodes[cwd].kind == Dir
      ensures Answers(inodes, StartOf(path, cwd), Elements(path), parent, r, name, panic)
    {
      hide Nodes, Tree, Elements, Lookup, Resolve, Answers;
      var start := if |path| > 0 && path[0] == '/' then ROOTINO else cwd;
      RootIsDir(inodes, home);
      ResolveNone(inodes, start);
      var es := Elements(path);
      var ip, i := start, 0;
      ghost var done: seq<Name> := [];
      assert path[0..] == path && [] + es == es;
      var found, elem, next := Skipelem(path, 0);
      name := "";
      while found
        invariant 0 <= i <= |path| && es == done + Elements(path[i..]) && Resolve(inodes, start, done) == Some(ip)
        invariant 1 <= ip < |inodes| && (done == [] ==> inodes[ip].kind != Free)
        invariant (found <==> Elements(path[i..]) != []) && (parent && done != [] ==> found)
        invariant found ==> i < next <= |path| && Elements(path[i..]) == [elem] + Elements(path[next..])
        invariant found ==> (next == |path| <==> Elements(path[next..]) == [])
        decreases |path| - i
      {
        name := elem;
        ghost var rest := Elements(path[next..]);
        assert es == (done + [elem]) + rest;
        if inodes[ip].kind == Free {
          FreeAnswer(inodes, start, es, done, ip, parent, name);
          return None, name, true;
        }
        if inodes[ip].kind != Dir {
          MissAnswer(inodes, start, es, done, elem, rest, ip, parent, name);
          return None, name, false;
        }
        if parent && next == |path| {
          ParentAnswer(inodes, start, es, done, elem, ip);
          return Some(ip), name, false;
        }
        var k := Dirlookup(ip, elem);
        if k == |inodes[ip].ents| {
          MissAnswer(inodes, start, es, done, elem, rest, ip, parent, name);
          return None, name, false;
        }
        WalkOne(inodes, start, done, elem, ip, k);
        ip := inodes[ip].ents[k].inum;
        done := done + [elem];
        i := next;
        found, elem, next := Skipelem(path, i);
      }
      assert done + [] == done;
      if parent {
        NoneAnswer(inodes, start, name);
        return None, name, false;
      }
      if inodes[ip].kind == Free {
        FreeAnswer(inodes, start, es, es, ip, parent, name);
        return None, name, true;
      }
      EndAnswer(inodes, start, es, ip, name);
      return Some(ip), name, false;
    }

    /** create: a new name for a new inode in the directory the path leads to,
        or an existing file; `made` says which. The link counts stay exact
        unless that directory had itself been removed or the number of the new
        inode does not fit an entry. */
    method Create(path: string, cwd: nat, kind: Kind) returns (r: Outcome, ghost made: bool, ghost d: nat)
      requires Valid() && 1 <= cwd < |inodes| && inodes[cwd].kind == Dir && kind != Free
      modifies this
      ensures |inodes| == |old(inodes)| && d < |inodes|
      ensures made ==>
        r.Got? && Elements(path) != [] && Creates(old(inodes), inodes, d, Last(Elements(path)), r.inum, kind)
      ensures made ==> Resolve(old(inodes), StartOf(path, cwd), Front(Elements(path))) == Some(d)
      ensures made ==> (Valid() <==> Linked(old(inodes)[d]) && r.inum < 0x1_0000)
      ensures made ==> (Counts(inodes) <==> Linked(old(inodes)[d]) && r.inum < 0x1_0000)
      ensures !made && r != Full ==> inodes == old(inodes) && Valid()
      ensures r == Full ==>
        && !made && Elements(path) != [] && Resolve(old(inodes), StartOf(path, cwd), Front(Elements(path))) == Some(d)
        && FreeSlot(old(inodes)[d].ents) >= MAXENTS
      ensures !made && r.Got? ==>
        && kind == File && Resolve(inodes, StartOf(path, cwd), Elements(path)) == Some(r.inum) && r.inum < |inodes|
        && (inodes[r.inum].kind == File || inodes[r.inum].kind == Dev)
      ensures r != Panics ==> (r == Refused <==> Refuses(old(inodes), StartOf(path, cwd), Elements(path), kind))
      ensures r == NoInodes ==> forall j :: 1 <= j < |inodes| ==> inodes[j].kind != Free
      ensures made ==> forall j :: 1 <= j < r.inum ==> old(inodes)[j].kind != Free
      ensures r == Panics ==> WalksOff(inodes, StartOf(path, cwd), Elements(path))
      ensures Linked(old(inodes)[StartOf(path, cwd)]) ==>
        r != Panics && (r != Full && (made ==> r.inum < 0x1_0000) ==> Valid())
    {
      hide Elements, Resolve, Lookup, Inv, Nodes, Tree, WalksOff, Counts, Refuses, Answers, Creates, FreeSlot;
      InvParts(inodes, home);
      made, d := false, 0;
      var es := Elements(path);
      ghost var start := StartOf(path, cwd);
      RootIsDir(inodes, home);
      if Linked(inodes[start]) { LinkedStaysOn(inodes, home, start, es); }
      var dp, name, panic := Namex(path, cwd, true);
      DirAnswer(inodes, start, es, dp, name, panic);
      if panic { return Panics, false, 0; }
      RefusesIs(inodes, start, es, kind, dp, name);
      if dp == None { return Refused, false, 0; }
      var dd := dp.value;
      d := dd;
      assert name == Last(es) && Resolve(inodes, start, Front(es)) == Some(d) && es == Front(es) + [name];
      if Linked(inodes[start]) { ResolveLinked(inodes, home, start, Front(es)); }
      var k := Dirlookup(dd, name);
      if k < |inodes[dd].ents| {
        StepAny(inodes, d, k);
        var ip := inodes[dd].ents[k].inum;
        ResolveSnoc(inodes, start, Front(es), name);
        ResolveOne(inodes, d, name);
        if inodes[ip].kind == Free {
          FellOff(inodes, start, es, es, ip);
          return Panics, false, d;
        }
        if kind == File && (inodes[ip].kind == File || inodes[ip].kind == Dev) { return Got(ip), false, d; }
        return Refused, false, d;
      }
      var i := Ialloc();
      if i == |inodes| { return NoInodes, false, d; }
      var full := Make(dd, name, i, kind);
      if full { return Full, false, d; }
      return Got(i), true, d;
    }

    /** create after its checks. */
    method Make(d: nat, name: Name, i: nat, kind: Kind) returns (full: bool)
      requires Valid() && d < |inodes| && inodes[d].kind == Dir && 1 <= i < |inodes| && inodes[i].kind == Free
        && kind != Free
      requires Lookup(inodes[d].ents, name) == |inodes[d].ents|
      modifies this
      ensures |inodes| == |old(inodes)| && (full <==> FreeSlot(old(inodes)[d].ents) >= MAXENTS)
      ensures !full ==> Creates(old(inodes), inodes, d, name, i, kind)
      ensures !full ==>
        (Valid() <==> Linked(old(inodes)[d]) && i < 0x1_0000)
        && (Counts(inodes) <==> Linked(old(inodes)[d]) && i < 0x1_0000)
    {
      hide Lookup, Inv, Enter, Counts;
      NewUnlinked(inodes, home, d, i);
      ghost var fs, home0 := inodes, home;
      inodes := inodes[i := Inode(kind, 1, [])];
      if kind == Dir {
        inodes := inodes[d := inodes[d].(nlink := ToShort(inodes[d].nlink + 1))];
        NewDots(i, d);
        var ok, no := Dirlink(i, ".", i);
        ok, no := Dirlink(i, "..", d);
      }
      var ok;
      ok, full := Dirlink(d, name, i);
      if full { return; }
      if kind == Dir {
        assert inodes == MadeDir(fs, d, name, i);
        CreateDirKeepsIff(fs, home0, d, name, i);
        home := home[i := Home(d, FreeSlot(fs[d].ents))];
      } else {
        assert inodes == MadeFile(fs, d, name, i, kind);
        CreateFileKeepsIff(fs, home0, d, name, i, kind);
      }
      InvCounts(inodes, home);
    }

    /** sys_link: a second name for a file; a failed call leaves everything as
        it was. The two paths may start in different directories. The count
        stays exact unless it was at its largest value. */
    method SysLink(oldpath: string, newpath: string, cwd: nat)
        returns (ok: bool, panic: bool, ghost d: nat, ghost i: nat)
      requires Valid() && 1 <= cwd < |inodes| && inodes[cwd].kind == Dir
      modifies this
      ensures |inodes| == |old(inodes)| && d < |inodes|
      ensures !panic ==>
        (ok <==> IsNoDirectory(old(inodes), Resolve(old(inodes), StartOf(oldpath, cwd), Elements(oldpath)))
                               && CanEnter(old(inodes), StartOf(newpath, cwd), Elements(newpath)))
      ensures !ok && !panic ==> inodes == old(inodes) && Valid()
      ensures panic ==> !ok && (WalksOff(old(inodes), StartOf(oldpath, cwd), Elements(oldpath))
                             || WalksOff(old(inodes), StartOf(newpath, cwd), Elements(newpath))
                             || FullAt(old(inodes), StartOf(newpath, cwd), Elements(newpath)))
      ensures ok ==>
        Resolve(old(inodes), StartOf(oldpath, cwd), Elements(oldpath)) == Some(i) && i < |old(inodes)|
        && old(inodes)[i].kind != Dir
      ensures ok ==>
        Elements(newpath) != [] && Resolve(old(inodes), StartOf(newpath, cwd), Front(Elements(newpath))) == Some(d)
      ensures ok ==>
        Lookup(old(inodes)[d].ents, Last(Elements(newpath))) == |old(inodes)[d].ents|
        && inodes == MadeLink(old(inodes), d, Last(Elements(newpath)), i)
      ensures ok ==> (Valid() <==> Linked(old(inodes)[d]) && old(inodes)[i].nlink < 0x7FFF)
      ensures ok ==> (Counts(inodes) <==> Linked(old(inodes)[d]) && old(inodes)[i].nlink < 0x7FFF)
      ensures ok && old(inodes)[i].nlink == 0x7FFF ==> inodes[i].nlink == -0x8000
      ensures Linked(old(inodes)[cwd]) ==> (panic ==> FullAt(old(inodes), StartOf(newpath, cwd), Elements(newpath)))
      ensures Linked(old(inodes)[cwd]) && !panic && (ok ==> old(inodes)[i].nlink < 0x7FFF) ==> Valid()
    {
      hide Elements, Resolve, Lookup, Inv, Enter, Nodes, Tree, WalksOff, Counts, MadeLink, Answers, Bumped, FullAt,
        FreeSlot, ToShort, CanEnter;
      InvParts(inodes, home);
      RootIsDir(inodes, home);
      ok, d, i := false, 0, 0;
      ghost var fs := inodes;
      if Linked(inodes[cwd]) {
        LinkedStaysOn(inodes, home, StartOf(oldpath, cwd), Elements(oldpath));
        LinkedStaysOn(inodes, home, StartOf(newpath, cwd), Elements(newpath));
      }
      var ip, nm;
      ip, nm, panic := Namex(oldpath, cwd, false);
      FileAnswer(inodes, StartOf(oldpath, cwd), Elements(oldpath), ip, nm, panic);
      if panic || ip == None || inodes[ip.value].kind == Dir { return; }
      var x := ip.value;
      FileNumber(inodes, StartOf(oldpath, cwd), Elements(oldpath), x);
      i := x;
      inodes := Bumped(inodes, x, 1);
      BumpTree(fs, home, x, 1);
      BumpedWalks(fs, x, StartOf(newpath, cwd), Elements(newpath));
      var dp, name;
      dp, name, panic := Namex(newpath, cwd, true);
      DirAnswer(inodes, StartOf(newpath, cwd), Elements(newpath), dp, name, panic);
      if panic { return; }
      CanEnterIs(inodes, StartOf(newpath, cwd), Elements(newpath), dp, name);
      BumpedEnter(fs, x, StartOf(newpath, cwd), Elements(newpath));
      var linked := false;
      if dp.Some? {
        d := dp.value;
        linked, panic := Dirlink(dp.value, name, x);
        if panic {
          IsFull(fs, StartOf(newpath, cwd), Elements(newpath), d);
          return;
        }
      }
      if !linked {
        inodes := Bumped(inodes, x, -1);
        return;
      }
      MadeLinkIs(fs, d, name, i);
      if Linked(fs[cwd]) { ResolveLinked(fs, home, StartOf(newpath, cwd), Front(Elements(newpath))); }
      LinkKeepsIff(fs, home, d, name, i);
      InvCounts(inodes, home);
      ok := true;
    }

    /** sys_unlink: the name goes, and with an empty directory the link of its "..".
        It panics on a count below one, which exact counts rule out. */
    method SysUnlink(path: string, cwd: nat)
        returns (ok: bool, panic: bool, low: bool, ghost d: nat, ghost k: nat, ghost i: nat)
      requires Nodes(inodes) && Tree(inodes, home) && 1 <= cwd < |inodes| && inodes[cwd].kind == Dir
      modifies this
      ensures old(Valid()) ==> Valid() && !low
      ensures |inodes| == |old(inodes)|
      ensures !ok ==> inodes == old(inodes)
      ensures !panic ==> (low <==> LowCount(old(inodes), StartOf(path, cwd), Elements(path)))
      ensures !panic ==> (ok <==> CanUnlink(old(inodes), StartOf(path, cwd), Elements(path)) && !low)
      ensures panic ==> !ok && WalksOff(inodes, StartOf(path, cwd), Elements(path))
      ensures ok ==> Resolve(old(inodes), StartOf(path, cwd), Elements(path)) == Some(i) && Elements(path) != []
      ensures ok ==> Resolve(old(inodes), StartOf(path, cwd), Front(Elements(path))) == Some(d)
      ensures ok ==> Unlinks(old(inodes), inodes, d, k, i)
    {
      hide Elements, Resolve, Lookup, Inv, Nodes, Tree, WalksOff, Answers, Removed, LowCount, CanUnlink;
      ok, low, d, k, i := false, false, 0, 0, 0;
      var es := Elements(path);
      ghost var start := StartOf(path, cwd);
      var dp, name;
      dp, name, panic := Namex(path, cwd, true);
      NoTarget(inodes, start, es, dp, name, panic);
      DirAnswer(inodes, start, es, dp, name, panic);
      CanUnlinkIs(inodes, start, es, dp, name, panic);
      if dp == None || name == "." || name == ".." { return; }
      var dd := dp.value;
      var off := Dirlookup(dd, name);
      assert es == Front(es) + [name];
      ResolveSnoc(inodes, start, Front(es), name);
      ResolveOne(inodes, dd, name);
      LowIs(inodes, start, es);
      if off == |inodes[dd].ents| { return; }
      BehindDots(inodes, dd, off);
      StepAny(inodes, dd, off);
      var x := inodes[dd].ents[off].inum;
      d, k, i := dd, off, x;
      if inodes[x].nlink < 1 {
        low := true;
        if Inv(inodes, home) { CountedNames(inodes, home, d, k); }
        return;
      }
      if inodes[x].kind == Dir {
        DirSize(inodes, x);
        var empty := Isdirempty(x);
        if !empty { return; }
      }
      if Inv(inodes, home) { UnlinkKeeps(inodes, home, d, k, i); }
      NotItself(inodes, d, k, i);
      RemoveName(dd, off, x);
      ok := true;
    }

    /** sys_unlink after its checks. */
    method RemoveName(d: nat, k: nat, i: nat)
      requires d < |inodes| && i < |inodes| && d != i && k < |inodes[d].ents|
      modifies this`inodes
      ensures inodes == Removed(old(inodes), d, k, i) && |inodes| == |old(inodes)|
    {
      var isdir := inodes[i].kind == Dir;
      inodes := inodes[d := inodes[d].(ents := inodes[d].ents[k := NO_ENTRY])];
      if isdir { inodes := inodes[d := inodes[d].(nlink := ToShort(inodes[d].nlink - 1))]; }
      inodes := inodes[i := inodes[i].(nlink := ToShort(inodes[i].nlink - 1))];
    }

    /** iput of the last reference to an inode without links. */
    method IputLast(i: nat)
      requires Valid() && 1 <= i < |inodes| && inodes[i].kind != Free && inodes[i].nlink == 0
      modifies this`inodes
      ensures Valid() && inodes == Reclaimed(old(inodes), i)
    {
      ReclaimKeeps(inodes, home, i);
      inodes := inodes[i := NO_INODE];
    }
  }

  function Last(es: seq<Name>): Name
    requires es != []
  {
    es[|es| - 1]
  }

  function Front(es: seq<Name>): seq<Name> { if es == [] then [] else es[..|es| - 1] }

  /** The directory a new name is to go into has all its entries in use. */
  ghost predicate FullAt(fs: seq<Inode>, start: nat, es: seq<Name>) {
    && es != [] && Resolve(fs, start, Front(es)).Some? && Resolve(fs, start, Front(es)).value < |fs|
    && FreeSlot(fs[Resolve(fs, start, Front(es)).value].ents) >= MAXENTS
  }

  lemma IsFull(fs: seq<Inode>, start: nat, es: seq<Name>, d: nat)
    requires es != [] && Resolve(fs, start, Front(es)) == Some(d) && d < |fs| && FreeSlot(fs[d].ents) >= MAXENTS
    ensures FullAt(fs, start, es)
  {
  }

  /** Inode i is new, and is the one new entry of directory d. */
  ghost predicate Creates(fs: seq<Inode>, fs': seq<Inode>, d: nat, name: Name, i: nat, kind: Kind) {
    && d < |fs| && i < |fs| && fs[i].kind == Free && Lookup(fs[d].ents, name) == |fs[d].ents|
    && fs' == if kind == Dir then MadeDir(fs, d, name, i) else MadeFile(fs, d, name, i, kind)
  }

  ghost predicate Unlinks(fs: seq<Inode>, fs': seq<Inode>, d: nat, k: nat, i: nat) {
    && d < |fs| && i < |fs| && 2 <= k < |fs[d].ents| && fs[d].ents[k].inum == i
      && (fs[i].kind == Dir ==> EmptyDir(fs[i]))
    && fs' == Removed(fs, d, k, i)
  }

  /** What namex returns for the elements es from directory `start`. */
  ghost predicate Answers(fs: seq<Inode>, start: nat, es: seq<Name>, parent: bool, r: Option<nat>, name: Name,
      panic: bool) {
    && (panic <==> WalksOff(fs, start, if parent && es != [] then es[..|es| - 1] else es))
    && (panic ==> WalksOff(fs, start, es) && r == None)
    && (!panic && !parent ==> r == Resolve(fs, start, es))
    && (parent && es == [] ==> r == None && !panic)
    && (parent && es != [] && r.Some? ==> name == es[|es| - 1] && r == Resolve(fs, start, es[..|es| - 1]))
    && (parent && es != [] && r == None && !panic ==> !IsDirectory(fs, Resolve(fs, start, es[..|es| - 1])))
    && (r.Some? ==> 1 <= r.value < |fs| && fs[r.value].kind != Free && (parent ==> fs[r.value].kind == Dir))
  }

  lemma FreeAnswer(fs: seq<Inode>, start: nat, es: seq<Name>, done: seq<Name>, ip: nat, parent: bool, name: Name)
    requires 0 < |done| <= |es| && done == es[..|done|] && Resolve(fs, start, done) == Some(ip) && ip < |fs|
      && fs[ip].kind == Free
    requires parent ==> |done| < |es|
    ensures Answers(fs, start, es, parent, None, name, true)
  {
    hide Resolve, WalksOff;
    FellOff(fs, start, es, done, ip);
    if parent { FellOff(fs, start, es[..|es| - 1], done, ip); }
  }

  /** The element leads nowhere: ip is no directory or has no such entry. */
  lemma MissAnswer(fs: seq<Inode>, start: nat, es: seq<Name>, done: seq<Name>, elem: Name, rest: seq<Name>, ip: nat,
      parent: bool, name: Name)
    requires es == (done + [elem]) + rest && Resolve(fs, start, done) == Some(ip) && ip < |fs|
    requires fs[ip].kind != Free && (fs[ip].kind != Dir
      || (Lookup(fs[ip].ents, elem) == |fs[ip].ents| && !(parent && rest == [])))
    ensures Answers(fs, start, es, parent, None, name, false)
  {
    hide Resolve, WalksOff, Lookup;
    ResolveSnoc(fs, start, done, elem);
    ResolveOne(fs, ip, elem);
    NoWay(fs, start, done + [elem], rest);
    NeverOff(fs, start, done, ip, es);
    NeverOff(fs, start, done, ip, es[..|es| - 1]);
    if parent { NoParent(fs, start, done, elem, rest, ip, es); }
  }

  lemma ParentAnswer(fs: seq<Inode>, start: nat, es: seq<Name>, done: seq<Name>, elem: Name, ip: nat)
    requires es == done + [elem] && Resolve(fs, start, done) == Some(ip) && 1 <= ip < |fs| && fs[ip].kind == Dir
    ensures Answers(fs, start, es, true, Some(ip), elem, false)
  {
    hide Resolve, WalksOff;
    assert es[..|es| - 1] == done;
    NeverOff(fs, start, done, ip, done);
  }

  lemma NoneAnswer(fs: seq<Inode>, start: nat, name: Name)
    ensures Answers(fs, start, [], true, None, name, false)
  {
    hide Resolve;
  }

  lemma EndAnswer(fs: seq<Inode>, start: nat, es: seq<Name>, ip: nat, name: Name)
    requires Resolve(fs, start, es) == Some(ip) && 1 <= ip < |fs| && fs[ip].kind != Free
    ensures Answers(fs, start, es, false, Some(ip), name, false)
  {
    hide Resolve, WalksOff;
    NeverOff(fs, start, es, ip, es);
  }

  /** A walk that comes to an allocated inode, and from there nowhere, never
      comes to a freed one. */
  lemma NeverOff(fs: seq<Inode>, d: nat, done: seq<Name>, ip: nat, elems: seq<Name>)
    requires Resolve(fs, d, done) == Some(ip) && ip < |fs| && fs[ip].kind != Free && |done| <= |elems|
      && done == elems[..|done|]
    requires |done| < |elems| ==> Resolve(fs, d, done + [elems[|done|]]) == None
    ensures !WalksOff(fs, d, elems)
  {
    hide Resolve;
    forall n | 0 < n <= |elems| ensures !ReachesFree(fs, d, elems, n) {
      if n < |done| {
        assert elems[..n] == done[..n];
        PassedIsDir(fs, d, done, n);
      } else if n > |done| {
        NoWay(fs, d, done + [elems[|done|]], elems[|done| + 1..n]);
        assert elems[..n] == done + [elems[|done|]] + elems[|done| + 1..n];
      }
    }
  }

  lemma PassedIsDir(fs: seq<Inode>, d: nat, done: seq<Name>, n: nat)
    requires n < |done| && Resolve(fs, d, done).Some?
    ensures !ReachesFree(fs, d, done, n)
  {
    hide Resolve;
    var r := Resolve(fs, d, done[..n]);
    ResolveSnoc(fs, d, done[..n], done[n]);
    if r.Some? && r.value < |fs| { ResolveOne(fs, r.value, done[n]); }
    assert done[..n] + [done[n]] + done[n + 1..] == done;
    if Resolve(fs, d, done[..n] + [done[n]]) == None { NoWay(fs, d, done[..n] + [done[n]], done[n + 1..]); }
  }

  lemma WalkOne(fs: seq<Inode>, start: nat, done: seq<Name>, elem: Name, ip: nat, k: nat)
    requires Nodes(fs) && Resolve(fs, start, done) == Some(ip) && ip < |fs| && fs[ip].kind == Dir
    requires k == Lookup(fs[ip].ents, elem) && k < |fs[ip].ents|
    ensures 1 <= fs[ip].ents[k].inum < |fs| && Resolve(fs, start, done + [elem]) == Some(fs[ip].ents[k].inum)
  {
    hide Resolve, Nodes;
    ResolveSnoc(fs, start, done, elem);
    ResolveOne(fs, ip, elem);
    StepAny(fs, ip, k);
  }

  lemma RootIsDir(fs: seq<Inode>, home: map<nat, Home>)
    requires Nodes(fs) && Tree(fs, home)
    ensures ROOTINO < |fs| && Linked(fs[ROOTINO])
  {
  }

  lemma FileAnswer(fs: seq<Inode>, start: nat, es: seq<Name>, r: Option<nat>, name: Name, panic: bool)
    requires Answers(fs, start, es, false, r, name, panic)
    ensures if panic then WalksOff(fs, start, es) else r == Resolve(fs, start, es)
    ensures !panic && r.Some? ==> 1 <= r.value < |fs| && fs[r.value].kind != Free
  {
    hide Resolve, WalksOff;
  }

  /** A file is reached through an entry. */
  lemma FileNumber(fs: seq<Inode>, start: nat, es: seq<Name>, i: nat)
    requires start < |fs| && fs[start].kind == Dir && Resolve(fs, start, es) == Some(i) && i < |fs| && fs[i].kind != Dir
    ensures i < 0x1_0000
  {
    if es != [] {
      var front, e := es[..|es| - 1], es[|es| - 1];
      assert es == front + [e];
      ResolveSnoc(fs, start, front, e);
      var d := Resolve(fs, start, front).value;
      if d < |fs| { ResolveOne(fs, d, e); }
    }
  }

  lemma DirAnswer(fs: seq<Inode>, start: nat, es: seq<Name>, r: Option<nat>, name: Name, panic: bool)
    requires Answers(fs, start, es, true, r, name, panic)
    ensures panic ==> r == None && WalksOff(fs, start, es)
    ensures r.Some? ==>
      es != [] && name == Last(es) && Resolve(fs, start, Front(es)) == r && 1 <= r.value < |fs|
      && fs[r.value].kind == Dir
  {
    hide Resolve, WalksOff;
  }

  /** sys_link raises the link count first, and then enters the name. */
  lemma MadeLinkIs(fs: seq<Inode>, d: nat, name: Name, i: nat)
    requires d < |fs| && i < |fs| && fs[i].kind != Dir && fs[d].kind == Dir
    ensures |MadeLink(fs, d, name, i)| == |fs| && (fs[i].nlink == 0x7FFF ==>
      MadeLink(fs, d, name, i)[i].nlink == -0x8000)
    ensures var fs1 := Bumped(fs, i, 1);
      MadeLink(fs, d, name, i) == fs1[d := fs1[d].(ents := Enter(fs1[d].ents, name, i))]
  {
  }

  lemma InvCounts(fs: seq<Inode>, home: map<nat, Home>)
    ensures Inv(fs, home) ==> Counts(fs)
  {
  }

  lemma FellOff(fs: seq<Inode>, d: nat, elems: seq<Name>, done: seq<Name>, ip: nat)
    requires 0 < |done| <= |elems| && done == elems[..|done|] && Resolve(fs, d, done) == Some(ip) && ip < |fs|
      && fs[ip].kind == Free
    ensures WalksOff(fs, d, elems)
  {
    hide Resolve;
    assert ReachesFree(fs, d, elems, |done|);
  }

  lemma WalksSame(fs: seq<Inode>, fs': seq<Inode>, d: nat, elems: seq<Name>)
    requires |fs'| == |fs| && forall j :: 0 <= j < |fs| ==> fs'[j].kind == fs[j].kind && fs'[j].ents == fs[j].ents
    requires WalksOff(fs', d, elems)
    ensures WalksOff(fs, d, elems)
  {
    hide Resolve;
    var n :| 0 < n <= |elems| && ReachesFree(fs', d, elems, n);
    ResolveSame(fs, fs', d, elems[..n]);
    assert ReachesFree(fs, d, elems, n);
  }

  lemma InvParts(fs: seq<Inode>, home: map<nat, Home>)
    requires Inv(fs, home)
    ensures Nodes(fs) && Tree(fs, home)
  {
  }

  lemma NewDots(i: nat, d: nat)
    ensures Lookup([], ".") == 0 == FreeSlot([])
    ensures Lookup(Enter([], ".", i), "..") == |Enter([], ".", i)| && FreeSlot(Enter([], ".", i)) < MAXENTS
  {
    assert Enter([], ".", i) == [Entry(ToUshort(i), ".")] && [Entry(ToUshort(i), ".")][1..] == [];
  }

  function Bumped(fs: seq<Inode>, i: nat, n: int): (fs': seq<Inode>)
    requires i < |fs|
    ensures |fs'| == |fs|
  {
    fs[i := fs[i].(nlink := ToShort(fs[i].nlink + n))]
  }

  /** With the count raised every path leads where it did. */
  lemma BumpedWalks(fs: seq<Inode>, i: nat, d: nat, elems: seq<Name>)
    requires i < |fs|
    ensures var fs' := Bumped(fs, i, 1);
      && Bumped(fs', i, -1) == fs && Resolve(fs', d, Front(elems)) == Resolve(fs, d, Front(elems))
      && (WalksOff(fs', d, elems) ==> WalksOff(fs, d, elems))
      && forall j :: 0 <= j < |fs| ==> fs'[j].kind == fs[j].kind && fs'[j].ents == fs[j].ents
  {
    hide Resolve, WalksOff;
    var fs' := Bumped(fs, i, 1);
    ResolveSame(fs, fs', d, Front(elems));
    if WalksOff(fs', d, elems) { WalksSame(fs, fs', d, elems); }
  }

  /** A file's link count is nothing the tree depends on. */
  lemma BumpTree(fs: seq<Inode>, home: map<nat, Home>, i: nat, n: int)
    requires Nodes(fs) && Tree(fs, home) && i < |fs| && fs[i].kind != Dir
    ensures var fs' := Bumped(fs, i, n); Nodes(fs') && Tree(fs', home)
  {
    var fs' := Bumped(fs, i, n);
    forall j | 0 <= j < |fs'|
      ensures NodeOk(fs', j) && HomeOk(fs', home, j) { assert NodeOk(fs, j) && HomeOk(fs, home, j); }
    forall e, l | 0 <= e < |fs'| && 0 <= l < |fs'[e].ents|
      ensures EnteredOnce(fs', home, e, l) { assert EnteredOnce(fs, home, e, l); }
  }

  lemma BehindDots(fs: seq<Inode>, d: nat, k: nat)
    requires Nodes(fs) && d < |fs| && fs[d].kind == Dir && k < |fs[d].ents| && fs[d].ents[k].name != "."
      && fs[d].ents[k].name != ".."
    ensures k >= 2
  {
    assert NodeOk(fs, d);
  }

  lemma DirSize(fs: seq<Inode>, i: nat)
    requires Nodes(fs) && i < |fs| && fs[i].kind == Dir
    ensures |fs[i].ents| >= 2
  {
    assert NodeOk(fs, i);
  }

  lemma NotItself(fs: seq<Inode>, d: nat, k: nat, i: nat)
    requires d < |fs| && fs[d].kind == Dir && 2 <= k < |fs[d].ents| && fs[d].ents[k].inum == i && 1 <= i < |fs|
    requires fs[i].kind == Dir ==> EmptyDir(fs[i])
    ensures i != d
  {
    assert Used(fs[d].ents[k]);
  }

  /** With exact counts whatever has a name has a link. */
  lemma CountedNames(fs: seq<Inode>, home: map<nat, Home>, d: nat, k: nat)
    requires Inv(fs, home) && d < |fs| && fs[d].kind == Dir && 2 <= k < |fs[d].ents| && Used(fs[d].ents[k])
    ensures fs[d].ents[k].inum < |fs| && fs[fs[d].ents[k].inum].nlink >= 1
  {
    assert NodeOk(fs, d);
    NamedCounts(fs, d, k);
  }

  /** The path names something other than a dot whose count is below one. */
  ghost predicate LowCount(fs: seq<Inode>, start: nat, es: seq<Name>) {
    && es != [] && Last(es) != "." && Last(es) != ".."
    && Resolve(fs, start, es).Some? && Resolve(fs, start, es).value < |fs| && fs[Resolve(fs, start, es).value].nlink < 1
  }

  /** create takes no new inode: there is no directory, or the name is in use. */
  ghost predicate Refuses(fs: seq<Inode>, start: nat, es: seq<Name>, kind: Kind) {
    || es == [] || !IsDirectory(fs, Resolve(fs, start, Front(es)))
    || InTheWay(fs, Resolve(fs, start, es), kind)
  }

  /** The inode in the way is not one that open may use instead. */
  predicate InTheWay(fs: seq<Inode>, r: Option<nat>, kind: Kind) {
    r.Some? && r.value < |fs| && !(kind == File && (fs[r.value].kind == File || fs[r.value].kind == Dev))
  }

  predicate IsNoDirectory(fs: seq<Inode>, r: Option<nat>) { r.Some? && r.value < |fs| && fs[r.value].kind != Dir }

  /** The path names a new entry of an existing directory. */
  ghost predicate CanEnter(fs: seq<Inode>, start: nat, es: seq<Name>) {
    && es != [] && IsDirectory(fs, Resolve(fs, start, Front(es)))
    && var d := Resolve(fs, start, Front(es)).value; Lookup(fs[d].ents, Last(es)) == |fs[d].ents|
  }

  /** The path ends in a name that is not a dot, of a file or an empty directory. */
  ghost predicate CanUnlink(fs: seq<Inode>, start: nat, es: seq<Name>) {
    && es != [] && Last(es) != "." && Last(es) != ".."
    && Resolve(fs, start, es).Some? && Resolve(fs, start, es).value < |fs|
    && var i := Resolve(fs, start, es).value; fs[i].kind == Dir ==> EmptyDir(fs[i])
  }

  /** In terms of the directory: where the last element leads. */
  lemma LastStep(fs: seq<Inode>, start: nat, es: seq<Name>)
    requires es != []
    ensures !IsDirectory(fs, Resolve(fs, start, Front(es))) ==> Resolve(fs, start, es) == None
    ensures IsDirectory(fs, Resolve(fs, start, Front(es))) ==>
      var d := Resolve(fs, start, Front(es)).value;
      var k := Lookup(fs[d].ents, Last(es));
      Resolve(fs, start, es) == if k == |fs[d].ents| then None else Some(fs[d].ents[k].inum)
  {
    hide Resolve, Lookup;
    assert es == Front(es) + [Last(es)];
    ResolveSnoc(fs, start, Front(es), Last(es));
    var p := Resolve(fs, start, Front(es));
    if IsDirectory(fs, p) { ResolveOne(fs, p.value, Last(es)); }
    else if p.Some? { ResolveNoDir(fs, p.value, Last(es)); }
  }

  lemma RefusesIs(fs: seq<Inode>, start: nat, es: seq<Name>, kind: Kind, r: Option<nat>, name: Name)
    requires Answers(fs, start, es, true, r, name, false)
    ensures r == None ==> Refuses(fs, start, es, kind)
    ensures r.Some? ==>
      r.value < |fs| && es != [] && name == Last(es) && Lookup(fs[r.value].ents, name) <= |fs[r.value].ents|
    ensures r.Some? ==>
      var ents := fs[r.value].ents;
      var k := Lookup(ents, name);
      Refuses(fs, start, es, kind) <==> k < |ents| && InTheWay(fs, Some(ents[k].inum), kind)
  {
    hide Resolve, WalksOff, Lookup;
    if es != [] { LastStep(fs, start, es); }
  }

  lemma CanEnterIs(fs: seq<Inode>, start: nat, es: seq<Name>, r: Option<nat>, name: Name)
    requires Answers(fs, start, es, true, r, name, false)
    ensures r == None ==> !CanEnter(fs, start, es)
    ensures r.Some? ==>
      r.value < |fs| && (CanEnter(fs, start, es) <==> Lookup(fs[r.value].ents, name) == |fs[r.value].ents|)
  {
    hide Resolve, WalksOff, Lookup;
  }

  lemma CanUnlinkIs(fs: seq<Inode>, start: nat, es: seq<Name>, r: Option<nat>, name: Name, panic: bool)
    requires Answers(fs, start, es, true, r, name, panic)
    ensures !panic && (r == None || name == "." || name == "..") ==> !CanUnlink(fs, start, es)
    ensures r.Some? ==> r.value < |fs| && Lookup(fs[r.value].ents, name) <= |fs[r.value].ents|
    ensures r.Some? && name != "." && name != ".." ==>
      var ents := fs[r.value].ents;
      var k := Lookup(ents, name);
      CanUnlink(fs, start, es) <==>
        k < |ents| && ents[k].inum < |fs| && (fs[ents[k].inum].kind == Dir ==> EmptyDir(fs[ents[k].inum]))
  {
    hide Resolve, WalksOff, Lookup, EmptyDir;
    if es != [] { LastStep(fs, start, es); }
  }

  lemma BumpedEnter(fs: seq<Inode>, i: nat, start: nat, es: seq<Name>)
    requires i < |fs|
    ensures CanEnter(Bumped(fs, i, 1), start, es) <==> CanEnter(fs, start, es)
  {
    hide Resolve, WalksOff, Lookup, Bumped;
    BumpedWalks(fs, i, start, es);
  }

  lemma LowIs(fs: seq<Inode>, start: nat, es: seq<Name>)
    requires es != [] && Last(es) != "." && Last(es) != ".."
    ensures Resolve(fs, start, es) == None ==> !LowCount(fs, start, es)
    ensures var r := Resolve(fs, start, es);
      r.Some? && r.value < |fs| ==> (LowCount(fs, start, es) <==> fs[r.value].nlink < 1)
  {
    hide Resolve;
  }

  lemma NoTarget(fs: seq<Inode>, start: nat, es: seq<Name>, r: Option<nat>, name: Name, panic: bool)
    requires Answers(fs, start, es, true, r, name, panic)
    ensures !panic && (r == None || name == "." || name == "..") ==> !LowCount(fs, start, es)
  {
    hide Resolve, WalksOff;
    if !panic && r == None && es != [] {
      assert es == Front(es) + [Last(es)];
      ResolveSnoc(fs, start, Front(es), Last(es));
      var p := Resolve(fs, start, Front(es));
      if p.Some? { ResolveNoDir(fs, p.value, Last(es)); }
    }
  }

  lemma ResolveNoDir(fs: seq<Inode>, d: nat, e: Name)
    requires d >= |fs| || fs[d].kind != Dir
    ensures Resolve(fs, d, [e]) == None
  {
  }

  predicate IsDirectory(fs: seq<Inode>, r: Option<nat>) { r.Some? && r.value < |fs| && fs[r.value].kind == Dir }

  lemma NoParent(fs: seq<Inode>, start: nat, done: seq<Name>, elem: Name, rest: seq<Name>, ip: nat, es: seq<Name>)
    requires es == done + [elem] + rest && Resolve(fs, start, done) == Some(ip) && ip < |fs|
      && Resolve(fs, start, done + [elem]) == None
    requires rest == [] ==> fs[ip].kind != Dir
    ensures !IsDirectory(fs, Resolve(fs, start, es[..|es| - 1]))
  {
    if rest == [] {
      assert es[..|es| - 1] == done;
    } else {
      assert es[..|es| - 1] == (done + [elem]) + rest[..|rest| - 1];
      NoWay(fs, start, done + [elem], rest[..|rest| - 1]);
    }
  }

  /** A walk that fails on a prefix fails. */
  lemma {:induction false} NoWay(fs: seq<Inode>, d: nat, a: seq<Name>, b: seq<Name>)
    requires Resolve(fs, d, a) == None
    ensures Resolve(fs, d, a + b) == None
    decreases |a|
  {
    if d < |fs| && fs[d].kind == Dir {
      var k := Lookup(fs[d].ents, a[0]);
      assert (a + b)[0] == a[0] && (a + b)[1..] == a[1..] + b;
      if k < |fs[d].ents| { NoWay(fs, fs[d].ents[k].inum, a[1..], b); }
    }
  }
}
