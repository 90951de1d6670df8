/** The buffer cache's LRU list: a doubly linked ring through a head sentinel,
    rewritten in place by bget and brelse. */
module Bio {
  import opened Basics
  import Blocks
  import P = LogProtocol

  class Buf {
    var valid: bool
    var dev: nat
    var blockno: nat
    var refcnt: int
    var prev: Buf
    var next: Buf
    ghost var stamp: int       // when brelse last moved the buffer to the front

    constructor ()
      ensures !valid && dev == 0 && blockno == 0 && refcnt == 0
      ensures prev == this && next == this
    {
      valid, dev, blockno, refcnt := false, 0, 0, 0;
      prev, next := this, this;
    }
  }

  ghost predicate Distinct(c: seq<Buf>) {
    forall i, j :: 0 <= i < j < |c| ==> c[i] != c[j]
  }

  lemma DistinctAt(c: seq<Buf>, i: nat, j: nat)
    requires Distinct(c) && i < |c| && j < |c|
    ensures c[i] == c[j] <==> i == j
  {
  }

  /** `c` is a cycle: each element's next is its successor, whose prev points back. */
  ghost predicate Cycle(c: seq<Buf>)
    reads c`prev, c`next
  {
    && |c| > 0
    && Distinct(c)
    && (forall i :: 0 <= i < |c| ==> Linked(c, i))
  }

  ghost predicate Linked(c: seq<Buf>, i: nat)
    requires i < |c|
    reads c`prev, c`next
  {
    c[i].next == After(c, i) && c[i].prev == Before(c, i)
  }

  ghost function After(c: seq<Buf>, i: nat): Buf
    requires i < |c|
  {
    if i + 1 == |c| then c[0] else c[i+1]
  }

  ghost function Before(c: seq<Buf>, i: nat): Buf
    requires i < |c|
  {
    if i == 0 then c[|c|-1] else c[i-1]
  }

  lemma CycleAt(c: seq<Buf>, i: nat)
    requires Cycle(c) && i < |c|
    ensures c[i].next == After(c, i) && c[i].prev == Before(c, i)
    ensures i > 0 ==> c[i] != c[0]
  {
    assert Linked(c, i);
  }

  ghost function Without(s: seq<Buf>, k: nat): seq<Buf>
    requires k < |s|
  {
    s[..k] + s[k+1..]
  }

  lemma WithoutDrops(c: seq<Buf>, k: nat)
    requires Distinct(c) && k < |c|
    ensures Distinct(Without(c, k)) && c[k] !in Without(c, k)
    ensures k > 0 ==> Without(c, k) != [] && Without(c, k)[0] == c[0]
  {
  }

  /** b->next->prev = b->prev; b->prev->next = b->next */
  method Unlink(b: Buf, ghost c: seq<Buf>, ghost k: nat)
    requires Cycle(c) && 0 < k < |c| && c[k] == b
    modifies c`prev, c`next
    ensures Cycle(Without(c, k))
  {
    hide Distinct;
    ghost var d := Without(c, k);
    ghost var n := if k + 1 == |c| then 0 else k + 1;
    WithoutDrops(c, k);
    assert Linked(c, k);
    b.next.prev := b.prev;
    b.prev.next := b.next;
    forall i | 0 <= i < |d| ensures Linked(d, i) {
      ghost var j := if i < k then i else i + 1;
      assert d[i] == c[j];
      assert old(Linked(c, j));
      DistinctAt(c, j, k - 1);
      DistinctAt(c, j, n);
    }
  }

  /** Insert b right after the head c[0]. */
  method PushFront(head: Buf, b: Buf, ghost c: seq<Buf>)
    requires Cycle(c) && c[0] == head && b !in c
    modifies c`prev, c`next, b`prev, b`next
    ensures Cycle([head, b] + c[1..])
  {
    ghost var d := [head, b] + c[1..];
    ghost var n := if |c| == 1 then 0 else 1;
    assert Distinct(d);
    hide Distinct;
    assert Linked(c, 0);
    b.next := head.next;
    b.prev := head;
    head.next.prev := b;
    head.next := b;
    assert Linked(d, 0) by { assert old(Linked(c, 0)); }
    assert Linked(d, 1);
    forall i | 2 <= i < |d| ensures Linked(d, i) {
      assert d[i] == c[i-1];
      assert old(Linked(c, i - 1));
      DistinctAt(c, i - 1, 0);
      DistinctAt(c, i - 1, n);
    }
  }

  /** The fields of a buffer that bget and brelse use, apart from its links. */
  datatype Rec = Rec(dev: nat, blockno: nat, valid: bool, refcnt: int)

  /** No buffer in use has been given to another block. */
  ghost predicate Undisturbed(m: map<Buf, Rec>, m': map<Buf, Rec>) {
    m'.Keys == m.Keys && forall b :: b in m && m[b].refcnt > 0 ==>
      m'[b].dev == m[b].dev && m'[b].blockno == m[b].blockno
  }

  /** At most one buffer holds any block of a real device. */
  ghost predicate Unique(m: map<Buf, Rec>) {
    forall b, c :: b in m && c in m && b != c && m[b].dev != 0 ==> m[b].dev != m[c].dev || m[b].blockno != m[c].blockno
  }

  /** Some buffer holds the block. */
  ghost predicate Cached(m: map<Buf, Rec>, dev: nat, blockno: nat) {
    exists b :: b in m && m[b].dev == dev && m[b].blockno == blockno
  }

  /** The ring holds, for device `dev`, the cache of the log protocol. */
  ghost predicate Agrees(m: map<Buf, Rec>, dev: nat, cache: map<nat, P.Buf>) {
    && (forall b :: b in m && m[b].dev == dev ==>
          m[b].blockno in cache && cache[m[b].blockno].valid == m[b].valid && cache[m[b].blockno].refcnt == m[b].refcnt)
    && (forall k :: k in cache ==> Cached(m, dev, k))
  }

  lemma AgreesAt(m: map<Buf, Rec>, dev: nat, cache: map<nat, P.Buf>, b: Buf)
    requires Agrees(m, dev, cache) && b in m && m[b].dev == dev
    ensures m[b].blockno in cache
    ensures cache[m[b].blockno].valid == m[b].valid && cache[m[b].blockno].refcnt == m[b].refcnt
  {
  }

  lemma {:induction false} ImageSize(m: map<Buf, Rec>, mine: set<Buf>)
    requires mine <= m.Keys
    ensures |set c | c in mine :: m[c].blockno| <= |mine|
  {
    ghost var image := set c | c in mine :: m[c].blockno;
    if mine != {} {
      var b :| b in mine;
      ghost var rest := mine - {b};
      ghost var image' := set c | c in rest :: m[c].blockno;
      ImageSize(m, rest);
      assert image == image' + {m[b].blockno};
    } else {
      assert image == {};
    }
  }

  lemma CachedIn(m: map<Buf, Rec>, dev: nat, mine: set<Buf>, image: set<nat>, k: nat)
    requires mine == (set c | c in m && m[c].dev == dev) && image == (set c | c in mine :: m[c].blockno)
    requires Cached(m, dev, k)
    ensures k in image
  {
    var b: Buf :| b in m && m[b].dev == dev && m[b].blockno == k;
    assert b in mine;
  }

  /** Distinct blocks sit in distinct buffers. */
  lemma AgreesSize(m: map<Buf, Rec>, dev: nat, cache: map<nat, P.Buf>)
    requires Agrees(m, dev, cache)
    ensures |cache| <= |m|
    ensures (exists b :: b in m && m[b].dev != dev) ==> |cache| < |m|
  {
    hide Cached;
    ghost var mine := set c | c in m && m[c].dev == dev;
    ghost var image := set c | c in mine :: m[c].blockno;
    ImageSize(m, mine);
    forall k | k in cache ensures k in image { CachedIn(m, dev, mine, image, k); }
    SubsetSize(cache.Keys, image);
    assert |cache| == |cache.Keys| && |m| == |m.Keys|;
    SubsetSize(mine, m.Keys);
    if b :| b in m && m[b].dev != dev {
      SubsetSize(mine, m.Keys - {b});
    }
  }

  lemma Undisturbing(m: map<Buf, Rec>, b: Buf, r: Rec)
    requires b in m && (m[b].refcnt > 0 ==> r.dev == m[b].dev && r.blockno == m[b].blockno)
    ensures Undisturbed(m, m[b := r])
  {
  }

  lemma Undisturbing0(m: map<Buf, Rec>)
    ensures Undisturbed(m, m)
  {
  }

  lemma TouchUnique(m: map<Buf, Rec>, b: Buf, r: Rec)
    requires Unique(m) && b in m && r.dev == m[b].dev && r.blockno == m[b].blockno
    ensures Unique(m[b := r])
  {
  }

  lemma TouchCached(m: map<Buf, Rec>, dev: nat, b: Buf, r: Rec, k: nat)
    requires b in m && r.dev == m[b].dev && r.blockno == m[b].blockno && Cached(m, dev, k)
    ensures Cached(m[b := r], dev, k)
  {
    var c: Buf :| c in m && m[c].dev == dev && m[c].blockno == k;
    assert m[b := r][c].dev == dev && m[b := r][c].blockno == k;
  }

  /** A buffer that keeps its block changes as the protocol's buffer does: the
      reference of a hit and its release, bpin and bunpin, and bread's valid. */
  lemma TouchAgrees(m: map<Buf, Rec>, dev: nat, b: Buf, r: Rec, cache: map<nat, P.Buf>, u: P.Buf)
    requires dev != 0 && Unique(m) && Agrees(m, dev, cache) && b in m && m[b].dev == dev
    requires r.dev == dev && r.blockno == m[b].blockno && u.valid == r.valid && u.refcnt == r.refcnt
    ensures m[b].blockno in cache && Unique(m[b := r]) && Agrees(m[b := r], dev, cache[m[b].blockno := u])
  {
    hide Cached;
    ghost var k, m', cache' := m[b].blockno, m[b := r], cache[m[b].blockno := u];
    TouchUnique(m, b, r);
    forall c | c in m' && m'[c].dev == dev
      ensures m'[c].blockno in cache' && cache'[m'[c].blockno].valid == m'[c].valid
        && cache'[m'[c].blockno].refcnt == m'[c].refcnt
    {
      if c != b { assert m'[c] == m[c]; }
    }
    forall j | j in cache' ensures Cached(m', dev, j) {
      AgreesAt(m, dev, cache, b);
      TouchCached(m, dev, b, r, j);
    }
  }

  lemma AgreesKeys(m: map<Buf, Rec>, dev: nat, cache: map<nat, P.Buf>, k: nat)
    requires Agrees(m, dev, cache)
    ensures k in cache <==> Cached(m, dev, k)
    ensures (forall b :: b in m ==> m[b].refcnt != 0) && k in cache ==> cache[k].refcnt != 0
  {
  }

  /** A miss is the protocol's GetMiss: an unreferenced block of the device is
      recycled, or a buffer that held none. */
  lemma MissAgrees(m: map<Buf, Rec>, dev: nat, k: nat, b: Buf, cache: map<nat, P.Buf>, u: P.Buf)
    requires dev != 0 && Unique(m) && |m| == P.NBUF && Agrees(m, dev, cache) && !Cached(m, dev, k)
    requires b in m && m[b].refcnt == 0 && !u.valid && u.refcnt == 1
    ensures var victim, m' := Victim(m, dev, b), m[b := Rec(dev, k, false, 1)];
      && (forall keep: nat :: (keep in cache ==> cache[keep].refcnt != 0) ==> P.CanFetch(cache, k, victim, keep))
      && Unique(m')
      && Agrees(m', dev, P.Recycle(cache, victim)[k := u])
  {
    hide Unique, Agrees, Cached;
    AgreesKeys(m, dev, cache, k);
    AgreesSize(m, dev, cache);
    MissUnique(m, dev, k, b);
    MissView(m, dev, k, b, cache, u);
    if m[b].dev == dev { AgreesAt(m, dev, cache, b); }
  }

  lemma MissView(m: map<Buf, Rec>, dev: nat, k: nat, b: Buf, cache: map<nat, P.Buf>, u: P.Buf)
    requires dev != 0 && Unique(m) && Agrees(m, dev, cache) && !Cached(m, dev, k)
    requires b in m && !u.valid && u.refcnt == 1
    ensures Agrees(m[b := Rec(dev, k, false, 1)], dev, P.Recycle(cache, Victim(m, dev, b))[k := u])
  {
    hide Cached;
    ghost var m' := m[b := Rec(dev, k, false, 1)];
    ghost var cache' := P.Recycle(cache, Victim(m, dev, b))[k := u];
    forall c | c in m' && m'[c].dev == dev
      ensures m'[c].blockno in cache' && cache'[m'[c].blockno].valid == m'[c].valid
        && cache'[m'[c].blockno].refcnt == m'[c].refcnt
    {
      if c != b {
        assert m'[c] == m[c];
        CachedHere(m, dev, c);
      }
    }
    forall j | j in cache' ensures Cached(m', dev, j) {
      MissCached(m, dev, k, b, j);
    }
  }

  lemma CachedHere(m: map<Buf, Rec>, dev: nat, c: Buf)
    requires c in m && m[c].dev == dev
    ensures Cached(m, dev, m[c].blockno)
  {
  }

  lemma MissCached(m: map<Buf, Rec>, dev: nat, k: nat, b: Buf, j: nat)
    requires b in m
    ensures j == k || (Cached(m, dev, j) && Victim(m, dev, b) != Some(j)) ==>
      Cached(m[b := Rec(dev, k, false, 1)], dev, j)
  {
    ghost var m' := m[b := Rec(dev, k, false, 1)];
    if j == k {
      assert b in m' && m'[b].blockno == k;
    } else if Cached(m, dev, j) && Victim(m, dev, b) != Some(j) {
      var c: Buf :| c in m && m[c].dev == dev && m[c].blockno == j;
      assert c != b && m'[c] == m[c];
    }
  }

  ghost function Victim(m: map<Buf, Rec>, dev: nat, b: Buf): Option<nat>
    requires b in m
  {
    if m[b].dev == dev then Some(m[b].blockno) else None
  }

  lemma MissUnique(m: map<Buf, Rec>, dev: nat, k: nat, b: Buf)
    requires Unique(m) && !Cached(m, dev, k) && b in m
    ensures Unique(m[b := Rec(dev, k, false, 1)])
  {
  }

  /** The ring passes through every buffer once. */
  ghost predicate Members(bufs: seq<Buf>, ring: seq<Buf>) {
    |ring| == |bufs| == P.NBUF && (forall b :: b in ring ==> b in bufs) && (forall b :: b in bufs ==> b in ring)
  }

  /** Most recently used first. */
  ghost predicate Ordered(ring: seq<Buf>)
    reads ring`stamp
  {
    forall i, j :: 0 <= i < j < |ring| ==> ring[i].stamp > ring[j].stamp
  }

  lemma OrderedAt(ring: seq<Buf>, i: nat, j: nat)
    requires Ordered(ring) && i <= j < |ring|
    ensures ring[i].stamp >= ring[j].stamp
  {
  }

  class Bcache {
    const head: Buf
    const bufs: seq<Buf>
    ghost var ring: seq<Buf>   // from head.next (most recently used) round to head.prev
    ghost var clock: int

    ghost predicate Valid()
      reads this, head, bufs, ring
    {
      && Members(bufs, ring)
      && Cycle([head] + ring)
      && Unique(Recs())
      && (forall b :: b in bufs ==> b.refcnt >= 0 && b.stamp < clock)
      && Ordered(ring)
    }

    ghost function Recs(): (m: map<Buf, Rec>)
      reads bufs`dev, bufs`blockno, bufs`valid, bufs`refcnt
    {
      map b | b in bufs :: Rec(b.dev, b.blockno, b.valid, b.refcnt)
    }

    /** binit: every buffer is put at the front of the ring in turn. */
    constructor ()
      ensures Valid() && fresh(head) && (forall b :: b in bufs ==> fresh(b) && b.refcnt == 0 && b.dev == 0)
    {
      var h := new Buf();
      var all: seq<Buf> := [];
      ghost var r: seq<Buf> := [];
      var k := 0;
      assert Cycle([h] + r);
      while k < P.NBUF
        invariant 0 <= k <= P.NBUF && |all| == |r| == k
        invariant (forall b :: b in all ==> b in r) && (forall b :: b in r ==> b in all)
        invariant fresh(h) && (forall b :: b in r ==> fresh(b))
        invariant Cycle([h] + r) && Unused(r, k)
      {
        forall i | 0 <= i < |r| ensures fresh(r[i]) { assert r[i] in r; }
        var b := AddUnused(h, r, k);
        all, r := all + [b], [b] + r;
        k := k + 1;
      }
      head, bufs, ring, clock := h, all, r, P.NBUF;
    }

    lemma RingIndex(b: Buf) returns (i: nat)
      requires Valid() && b in bufs
      ensures i < |ring| && ring[i] == b
    {
      hide Cycle;
      i :| 0 <= i < |ring| && ring[i] == b;
    }

    lemma RecsSize()
      requires Valid()
      ensures |Recs()| == P.NBUF
    {
      assert Distinct([head] + ring);
      forall i, j | 0 <= i < j < |ring| ensures ring[i] != ring[j] {
        assert ([head] + ring)[i+1] != ([head] + ring)[j+1];
      }
      hide Cycle;
      DistinctSize(ring);
      assert Recs().Keys == set b | b in ring;
      assert |Recs()| == |Recs().Keys|;
    }

    lemma RingMember(i: nat)
      requires Valid() && i < |ring|
      ensures ring[i] in bufs
    {
      hide Cycle;
    }

    /** The first loop of bget: from the most recently used end. */
    method Find(dev: nat, blockno: nat) returns (b: Buf?)
      requires Valid()
      ensures if b == null then forall c :: c in bufs ==> !(c.dev == dev && c.blockno == blockno)
              else b in bufs && b.dev == dev && b.blockno == blockno
    {
      hide Cycle, Unique, Members, Ordered;
      ghost var c, i := [head] + ring, 1;
      var p := head.next;
      CycleAt(c, 0);
      while p != head
        invariant 1 <= i <= |c| && p == (if i < |c| then c[i] else head)
        invariant forall j :: 0 <= j < i - 1 ==> !(ring[j].dev == dev && ring[j].blockno == blockno)
        decreases |c| - i
      {
        assert p == c[i] == ring[i-1];
        if p.dev == dev && p.blockno == blockno {
          RingMember(i - 1);
          return p;
        }
        CycleAt(c, i);
        p := p.next;
        i := i + 1;
      }
      if i < |c| { CycleAt(c, i); }
      NotCached(dev, blockno);
      return null;
    }

    lemma NotCached(dev: nat, blockno: nat)
      requires Valid() && forall j :: 0 <= j < |ring| ==> !(ring[j].dev == dev && ring[j].blockno == blockno)
      ensures forall c :: c in bufs ==> !(c.dev == dev && c.blockno == blockno)
    {
      hide Cycle, Unique, Valid;
      forall b | b in bufs ensures !(b.dev == dev && b.blockno == blockno) {
        var j := RingIndex(b);
      }
    }

    /** The second loop of bget: the unreferenced buffer nearest the tail,
        which is the one that brelse moved to the front longest ago. */
    method FindVictim() returns (b: Buf?)
      requires Valid()
      ensures if b == null then forall c :: c in bufs ==> c.refcnt != 0
              else b in bufs && b.refcnt == 0
      ensures b != null ==> forall c :: c in bufs && c.refcnt == 0 ==> b.stamp <= c.stamp
    {
      hide Cycle, Unique, Members, Ordered;
      ghost var c := [head] + ring;
      ghost var i := |ring|;
      var p := head.prev;
      CycleAt(c, 0);
      while p != head
        invariant 0 <= i <= |ring| && p == c[i]
        invariant forall j :: i <= j < |ring| ==> ring[j].refcnt != 0
        decreases i
      {
        assert i > 0 && p == ring[i-1];
        if p.refcnt == 0 {
          forall b | b in bufs && b.refcnt == 0 ensures p.stamp <= b.stamp {
            var j := RingIndex(b);
            OrderedAt(ring, j, i - 1);
          }
          RingMember(i - 1);
          return p;
        }
        CycleAt(c, i);
        p := p.prev;
        i := i - 1;
      }
      if i > 0 { CycleAt(c, i); }
      forall b | b in bufs ensures b.refcnt != 0 {
        var j := RingIndex(b);
      }
      return null;
    }

    /** bpin, and the reference taken by a hit in bget. */
    method Share(b: Buf)
      requires Valid() && b in bufs
      modifies b`refcnt
      ensures Valid() && Recs() == old(Recs())[b := old(Recs())[b].(refcnt := old(b.refcnt) + 1)]
    {
      hide Cycle, Unique;
      TouchUnique(Recs(), b, Rec(b.dev, b.blockno, b.valid, b.refcnt + 1));
      b.refcnt := b.refcnt + 1;
      assert Recs() == old(Recs())[b := old(Recs())[b].(refcnt := old(b.refcnt) + 1)];
    }

    method Assign(b: Buf, dev: nat, blockno: nat)
      requires Valid() && b in bufs && !Cached(Recs(), dev, blockno)
      modifies b`dev, b`blockno, b`valid, b`refcnt
      ensures Valid() && Recs() == old(Recs())[b := Rec(dev, blockno, false, 1)]
    {
      hide Cycle, Unique;
      MissUnique(Recs(), dev, blockno, b);
      b.dev := dev;
      b.blockno := blockno;
      b.valid := false;
      b.refcnt := 1;
      assert Recs() == old(Recs())[b := Rec(dev, blockno, false, 1)];
    }

    /** bget: a hit shares the buffer; a miss recycles the least recently used
        unreferenced one; with none left bget panics (null). */
    method Bget(dev: nat, blockno: nat) returns (b: Buf?)
      requires Valid()
      modifies bufs`dev, bufs`blockno, bufs`valid, bufs`refcnt
      ensures Valid() && ring == old(ring)
      ensures b == null <==> old(!Cached(Recs(), dev, blockno) && forall c :: c in bufs ==> c.refcnt != 0)
      ensures b == null ==> Recs() == old(Recs())
      ensures b != null ==> b in bufs && b.dev == dev && b.blockno == blockno
      ensures b != null && old(Cached(Recs(), dev, blockno)) ==>
        old(b.dev) == dev && old(b.blockno) == blockno
          && Recs() == old(Recs())[b := old(Recs())[b].(refcnt := old(b.refcnt) + 1)]
      ensures b != null && !old(Cached(Recs(), dev, blockno)) ==>
        old(b.refcnt) == 0 && Recs() == old(Recs())[b := Rec(dev, blockno, false, 1)]
      ensures b != null && !old(Cached(Recs(), dev, blockno)) ==>
        forall c :: c in bufs && old(c.refcnt) == 0 ==> b.stamp <= c.stamp
    {
      hide Valid, Cycle, Unique;
      ghost var m := Recs();
      b := Find(dev, blockno);
      if b != null {
        assert m[b].dev == dev && m[b].blockno == blockno;
        Share(b);
        return;
      }
      assert !Cached(m, dev, blockno);
      b := FindVictim();
      if b != null {
        assert m[b].refcnt == 0;
        Assign(b, dev, blockno);
        assert Recs()[b] == Rec(dev, blockno, false, 1);
      }
    }

    /** bget on a real device, against the protocol's cache: `hit` and `miss`
        are the buffer after a hit and after a miss. */
    method BgetBlock(dev: nat, blockno: nat, ghost cache: map<nat, P.Buf>, ghost hit: P.Buf, ghost miss: P.Buf)
        returns (b: Buf?, ghost victim: Option<nat>)
      requires Valid() && dev != 0 && Agrees(Recs(), dev, cache)
      requires blockno in cache ==> hit.valid == cache[blockno].valid && hit.refcnt == cache[blockno].refcnt + 1
      requires !miss.valid && miss.refcnt == 1
      modifies bufs`dev, bufs`blockno, bufs`valid, bufs`refcnt
      ensures Valid()
      ensures b != null ==> b in bufs && b.dev == dev && b.blockno == blockno
      ensures b != null && blockno in cache ==> Agrees(Recs(), dev, cache[blockno := hit])
      ensures b != null && blockno !in cache ==>
        && (forall keep: nat :: (keep in cache ==> cache[keep].refcnt != 0) ==>
          P.CanFetch(cache, blockno, victim, keep))
        && Agrees(Recs(), dev, P.Recycle(cache, victim)[blockno := miss])
      ensures b == null ==> blockno !in cache && forall k :: k in cache ==> cache[k].refcnt != 0
      ensures Undisturbed(old(Recs()), Recs()) && (b != null ==> b.refcnt > 0)
    {
      hide Valid, Unique, Agrees, P.CanFetch, P.Recycle, Cached, Victim, Undisturbed;
      ghost var m := Recs();
      RecsSize();
      RecsUnique();
      Counts();
      AgreesKeys(m, dev, cache, blockno);
      victim := None;
      b := Bget(dev, blockno);
      if b == null {
        Undisturbing0(m);
        forall k | k in cache ensures cache[k].refcnt != 0 { AgreesKeys(m, dev, cache, k); }
      } else if blockno in cache {
        AgreesAt(m, dev, cache, b);
        TouchAgrees(m, dev, b, m[b].(refcnt := m[b].refcnt + 1), cache, hit);
        assert Recs()[b].refcnt == m[b].refcnt + 1;
        Undisturbing(m, b, Recs()[b]);
      } else {
        MissAgrees(m, dev, blockno, b, cache, miss);
        victim := Victim(m, dev, b);
        assert Recs()[b].refcnt == 1;
        Undisturbing(m, b, Recs()[b]);
      }
    }

    /** bunpin: the buffer keeps its place in the ring. */
    method Bunpin(b: Buf)
      requires Valid() && b in bufs && b.refcnt > 0
      modifies b`refcnt
      ensures Valid() && Recs() == old(Recs())[b := old(Recs())[b].(refcnt := old(b.refcnt) - 1)]
    {
      hide Cycle;
      b.refcnt := b.refcnt - 1;
      assert Recs() == old(Recs())[b := old(Recs())[b].(refcnt := old(b.refcnt) - 1)];
    }

    /** The six link writes of brelse: b moves to the front of the ring. */
    method MoveToFront(b: Buf, ghost k: nat)
      requires Cycle([head] + ring) && k < |ring| && ring[k] == b
      modifies head`prev, head`next, ring`prev, ring`next
      ensures Cycle([head] + ([b] + Without(ring, k)))
    {
      ghost var c := [head] + ring;
      assert c[k+1] == b;
      assert Distinct(c);
      hide Cycle, Distinct;
      WithoutDrops(c, k + 1);
      Unlink(b, c, k + 1);
      ghost var d := Without(c, k + 1);
      assert d == [head] + Without(ring, k);
      PushFront(head, b, d);
      assert [head, b] + d[1..] == [head] + ([b] + Without(ring, k));
    }

    /** Moving the freshly stamped buffer to the front keeps the ring ordered by stamp. */
    lemma FrontOrdered(k: nat)
      requires k < |ring| && (forall i, j :: 0 <= i < j < |ring| && i != k && j != k ==> ring[i].stamp > ring[j].stamp)
      requires forall i :: 0 <= i < |ring| && i != k ==> ring[i].stamp < ring[k].stamp
      ensures Ordered([ring[k]] + Without(ring, k))
    {
      ghost var r := [ring[k]] + Without(ring, k);
      forall i, j | 0 <= i < j < |r| ensures r[i].stamp > r[j].stamp {
        assert r[j] == if j <= k then ring[j-1] else ring[j];
        if i > 0 { assert r[i] == if i <= k then ring[i-1] else ring[i]; }
      }
    }

    lemma FrontMembers(k: nat)
      requires k < |ring| && Members(bufs, ring)
      ensures Members(bufs, [ring[k]] + Without(ring, k))
    {
      ghost var r := [ring[k]] + Without(ring, k);
      forall b | b in bufs ensures b in r {
        var i :| 0 <= i < |ring| && ring[i] == b;
        if i < k { assert r[i+1] == b; } else if i > k { assert r[i] == b; }
      }
    }

    lemma RingDistinct(k: nat)
      requires Cycle([head] + ring) && k < |ring|
      ensures forall i :: 0 <= i < |ring| && i != k ==> ring[i] != ring[k]
    {
      ghost var c := [head] + ring;
      assert Distinct(c);
      hide Cycle, Distinct;
      forall i | 0 <= i < |ring| && i != k ensures ring[i] != ring[k] {
        assert c[i+1] == ring[i] && c[k+1] == ring[k];
        DistinctAt(c, i + 1, k + 1);
      }
    }

    lemma FrontAll(b: Buf, k: nat)
      requires Members(bufs, ring) && k < |ring| && ring[k] == b
      requires forall i, j :: 0 <= i < j < |ring| && i != k && j != k ==> ring[i].stamp > ring[j].stamp
      requires forall i :: 0 <= i < |ring| && i != k ==> ring[i].stamp < b.stamp
      ensures Members(bufs, [b] + Without(ring, k)) && Ordered([b] + Without(ring, k))
      ensures forall c :: c in bufs && c != b ==> c.stamp < b.stamp
    {
      FrontOrdered(k);
      FrontMembers(k);
      forall c | c in bufs && c != b ensures c.stamp < b.stamp {
        var i :| 0 <= i < |ring| && ring[i] == c;
      }
    }

    /** brelse has dropped the last reference to b. */
    ghost method Stamp(b: Buf, k: nat)
      requires Members(bufs, ring) && Ordered(ring) && k < |ring| && ring[k] == b
      requires forall i :: 0 <= i < |ring| && i != k ==> ring[i] != b
      requires forall c :: c in bufs ==> c.stamp < clock
      modifies this`clock, b`stamp
      ensures Members(bufs, [b] + Without(ring, k)) && Ordered([b] + Without(ring, k))
      ensures forall c :: c in bufs ==> c.stamp < clock
      ensures forall c :: c in bufs && c != b ==> c.stamp < b.stamp
    {
      hide Without;
      assert forall i :: 0 <= i < |ring| ==> ring[i] in bufs;
      b.stamp := clock;
      clock := clock + 1;
      FrontAll(b, k);
    }

    /** Links and stamps only. */
    method Promote(b: Buf, ghost k: nat)
      requires Members(bufs, ring) && Cycle([head] + ring) && Ordered(ring) && k < |ring| && ring[k] == b
      requires forall c :: c in bufs ==> c.stamp < clock
      modifies this`ring, this`clock, b`stamp, head`prev, head`next, bufs`prev, bufs`next
      ensures ring == [b] + Without(old(ring), k)
      ensures Members(bufs, ring) && Cycle([head] + ring) && Ordered(ring)
      ensures forall c :: c in bufs ==> c.stamp < clock
      ensures forall c :: c in bufs && c != b ==> c.stamp < b.stamp
    {
      hide Cycle, Without, Ordered;
      RingDistinct(k);
      Stamp(b, k);
      assert forall i :: 0 <= i < |ring| ==> ring[i] in bufs;
      MoveToFront(b, k);
      ring := [b] + Without(ring, k);
    }

    /** brelse: the last user moves the buffer to the most recently used end. */
    method Brelse(b: Buf)
      requires Valid() && b in bufs && b.refcnt > 0
      modifies this`ring, this`clock, b`refcnt, b`stamp, head`prev, head`next, bufs`prev, bufs`next
      ensures Valid() && Recs() == old(Recs())[b := old(Recs())[b].(refcnt := old(b.refcnt) - 1)]
      ensures b.refcnt > 0 ==> ring == old(ring)
      ensures b.refcnt == 0 ==> exists k :: 0 <= k < |ring| && old(ring)[k] == b && ring == [b] + Without(old(ring), k)
      ensures b.refcnt == 0 ==> forall c :: c in bufs && c != b ==> c.stamp < b.stamp
    {
      hide Cycle, Unique, Ordered;
      Bunpin(b);
      if b.refcnt == 0 {
        ghost var k := RingIndex(b);
        Promote(b, k);
      }
    }

    // ----- the steps of the protocol

    /** bget is the protocol's Get or GetMiss. */
    method Get(dev: nat, k: nat, ghost L: P.Layout, ghost s: P.State, ghost p: P.Pid)
        returns (b: Buf?, ghost s': P.State, ghost victim: Option<nat>)
      requires Valid() && dev != 0 && Agrees(Recs(), dev, s.cache)
      requires P.Up(s) && p !in s.tested && k < |s.disk| && (k in s.cache ==> p !in s.cache[k].users)
      modifies bufs`dev, bufs`blockno, bufs`valid, bufs`refcnt
      ensures Valid()
      ensures b != null ==> b in bufs && b.dev == dev && b.blockno == k && Agrees(Recs(), dev, s'.cache)
      ensures b != null ==> if k in s.cache then P.GetStep(L, s, s', p, k) else P.GetMissStep(L, s, s', p, k, victim)
      ensures b == null ==> k !in s.cache && forall x :: x in s.cache ==> s.cache[x].refcnt != 0
    {
      hide Valid, Agrees, P.CanFetch, P.Recycle;
      ghost var miss := P.Buf(s.disk[k], false, false, 1, {p}, None);
      ghost var hit := if k in s.cache then s.cache[k].(refcnt := s.cache[k].refcnt + 1,
        users := s.cache[k].users + {p}) else miss;
      b, victim := BgetBlock(dev, k, s.cache, hit, miss);
      s' := s.(cache := if k in s.cache then s.cache[k := hit] else P.Recycle(s.cache, victim)[k := miss]);
    }

    /** if(!b->valid) { read; b->valid = 1; } */
    method SetValid(b: Buf)
      requires Valid() && b in bufs
      modifies b`valid
      ensures Valid() && Recs() == old(Recs())[b := old(Recs())[b].(valid := true)]
    {
      hide Cycle, Unique, Ordered, Members;
      TouchUnique(Recs(), b, Rec(b.dev, b.blockno, true, b.refcnt));
      if !b.valid {
        b.valid := true;
      }
      assert Recs() == old(Recs())[b := old(Recs())[b].(valid := true)];
    }

    /** bread fills the buffer it has just locked, as the protocol's Lock. */
    method Fill(b: Buf, ghost dev: nat, ghost L: P.Layout, ghost s: P.State, ghost p: P.Pid) returns (ghost s': P.State)
      requires Valid() && dev != 0 && Agrees(Recs(), dev, s.cache) && b in bufs && b.dev == dev
      requires P.Up(s) && p !in s.tested && b.blockno < |s.disk|
      requires b.blockno in s.cache && p in s.cache[b.blockno].users && s.cache[b.blockno].holder == None
      modifies b`valid
      ensures Valid() && P.LockStep(L, s, s', p, b.blockno) && Agrees(Recs(), dev, s'.cache)
    {
      hide Valid, Agrees, Unique;
      ghost var m, k := Recs(), b.blockno;
      ghost var u := s.cache[k];
      ghost var u' := u.(data := if u.valid then u.data else s.disk[k], valid := true, holder := Some(p));
      RecsUnique();
      AgreesAt(m, dev, s.cache, b);
      TouchAgrees(m, dev, b, m[b].(valid := true), s.cache, u');
      SetValid(b);
      s' := s.(cache := s.cache[k := u']);
    }

    /** brelse is the protocol's Release. */
    method Release(b: Buf, ghost dev: nat, ghost L: P.Layout, ghost s: P.State, ghost p: P.Pid)
        returns (ghost s': P.State)
      requires Valid() && dev != 0 && Agrees(Recs(), dev, s.cache) && b in bufs && b.dev == dev
      requires P.Up(s) && p !in s.tested && b.blockno in s.cache
      requires s.cache[b.blockno].holder == Some(p) && s.cache[b.blockno].refcnt > 0
      modifies this`ring, this`clock, b`refcnt, b`stamp, head`prev, head`next, bufs`prev, bufs`next
      ensures Valid() && P.ReleaseStep(L, s, s', p, b.blockno) && Agrees(Recs(), dev, s'.cache)
    {
      hide Valid, Agrees, Unique;
      ghost var m, k := Recs(), b.blockno;
      ghost var u := s.cache[k];
      ghost var u' := u.(refcnt := u.refcnt - 1, users := u.users - {p}, holder := None);
      RecsUnique();
      AgreesAt(m, dev, s.cache, b);
      TouchAgrees(m, dev, b, m[b].(refcnt := m[b].refcnt - 1), s.cache, u');
      Brelse(b);
      s' := s.(cache := s.cache[k := u']);
    }

    /** bpin is what the appending LogWrite of the protocol does to the cache. */
    method Pin(b: Buf, ghost dev: nat, ghost L: P.Layout, ghost s: P.State, ghost p: P.Pid) returns (ghost s': P.State)
      requires Valid() && dev != 0 && Agrees(Recs(), dev, s.cache) && b in bufs && b.dev == dev
      requires P.Up(s) && p in s.ops && p in s.tested && s.tested[p] == b.blockno && L.Home(b.blockno)
      requires b.blockno in s.cache && s.cache[b.blockno].holder == Some(p)
      requires b.blockno !in s.lh && s.ops[p] < P.MAXOPBLOCKS
      modifies b`refcnt
      ensures Valid() && P.LogWriteStep(L, s, s', p, b.blockno) && Agrees(Recs(), dev, s'.cache)
    {
      hide Valid, Agrees, Unique;
      ghost var m, k := Recs(), b.blockno;
      ghost var u := s.cache[k];
      ghost var u' := u.(dirty := false, refcnt := u.refcnt + 1);
      RecsUnique();
      AgreesAt(m, dev, s.cache, b);
      TouchAgrees(m, dev, b, m[b].(refcnt := m[b].refcnt + 1), s.cache, u');
      Share(b);
      s' := s.(cache := s.cache[k := u'], lh := s.lh + [k], ops := s.ops[p := s.ops[p] + 1], tested := s.tested - {p});
    }

    lemma RecsUnique()
      requires Valid()
      ensures Unique(Recs())
    {
      hide Cycle, Ordered, Members;
    }

    lemma Counts()
      requires Valid()
      ensures forall b :: b in bufs ==> b.refcnt >= 0 && Recs()[b].refcnt >= 0
    {
      hide Cycle, Unique, Ordered, Members;
    }

    /** bread by the log's own code: the protocol's Fetch, with the caller's reference. */
    method Bread(dev: nat, k: nat, ghost cache: map<nat, P.Buf>, ghost disk: seq<Blocks.Block>)
        returns (b: Buf?, ghost victim: Option<nat>)
      requires Valid() && dev != 0 && Agrees(Recs(), dev, cache) && k < |disk|
        && (k in cache ==> cache[k].holder == None)
      modifies bufs`dev, bufs`blockno, bufs`valid, bufs`refcnt
      ensures Valid()
      ensures b != null ==> b in bufs && b.dev == dev && b.blockno == k && b.refcnt > 0
      ensures b != null ==> Agrees(Recs(), dev, Taken(P.Fetch(cache, disk, k, victim), k))
      ensures b != null ==> forall keep: nat :: (keep in cache ==> cache[keep].refcnt != 0) || k in cache ==>
        P.CanFetch(cache, k, victim, keep)
      ensures b == null ==> k !in cache && forall x :: x in cache ==> cache[x].refcnt != 0
      ensures Undisturbed(old(Recs()), Recs())
    {
      hide Valid, Agrees, Unique, P.Recycle, P.Fetch;
      ghost var miss := P.Buf(disk[k], false, false, 1, {}, None);
      ghost var hit := if k in cache then cache[k].(refcnt := cache[k].refcnt + 1) else miss;
      b, victim := BgetBlock(dev, k, cache, hit, miss);
      if b == null { return; }
      ghost var m := Recs();
      ghost var c := if k in cache then cache[k := hit] else P.Recycle(cache, victim)[k := miss];
      RecsUnique();
      AgreesAt(m, dev, c, b);
      FilledIs(cache, disk, k, victim, c);
      TouchAgrees(m, dev, b, m[b].(valid := true), c, Taken(P.Fetch(cache, disk, k, victim), k)[k]);
      SetValid(b);
      assert Recs()[b] == m[b].(valid := true);
    }

    method Drop(b: Buf, ghost dev: nat, ghost cache: map<nat, P.Buf>)
      requires Valid() && dev != 0 && Agrees(Recs(), dev, cache) && b in bufs && b.dev == dev && b.refcnt > 0
      modifies this`ring, this`clock, b`refcnt, b`stamp, head`prev, head`next, bufs`prev, bufs`next
      ensures Valid() && b.refcnt == old(b.refcnt) - 1 && b.blockno in cache
        && Agrees(Recs(), dev, Less(cache, b.blockno))
      ensures forall c :: c in bufs && c != b ==> c.refcnt == old(c.refcnt)
    {
      hide Valid, Agrees, Unique;
      ghost var m := Recs();
      RecsUnique();
      AgreesAt(m, dev, cache, b);
      TouchAgrees(m, dev, b, m[b].(refcnt := m[b].refcnt - 1), cache, Less(cache, b.blockno)[b.blockno]);
      Brelse(b);
      assert Recs()[b].refcnt == m[b].refcnt - 1;
      forall c | c in bufs && c != b ensures c.refcnt == old(c.refcnt) { assert Recs()[c] == m[c]; }
    }

    method Unpin(b: Buf, ghost dev: nat, ghost cache: map<nat, P.Buf>)
      requires Valid() && dev != 0 && Agrees(Recs(), dev, cache) && b in bufs && b.dev == dev && b.refcnt > 0
      modifies b`refcnt
      ensures Valid() && b.refcnt == old(b.refcnt) - 1 && b.blockno in cache
        && Agrees(Recs(), dev, Less(cache, b.blockno))
    {
      hide Valid, Agrees, Unique;
      ghost var m := Recs();
      RecsUnique();
      AgreesAt(m, dev, cache, b);
      TouchAgrees(m, dev, b, m[b].(refcnt := m[b].refcnt - 1), cache, Less(cache, b.blockno)[b.blockno]);
      Bunpin(b);
    }

    /** The two breads of a copy loop, the home block being pinned. */
    method BreadPair(dev: nat, lb: nat, hb: nat, ghost cache: map<nat, P.Buf>, ghost disk: seq<Blocks.Block>)
        returns (lbuf: Buf?, dbuf: Buf?, ghost v1: Option<nat>, ghost v2: Option<nat>)
      requires Valid() && dev != 0 && Agrees(Recs(), dev, cache) && lb < |disk| && hb < |disk| && lb != hb
      requires hb in cache && cache[hb].refcnt > 0
      requires forall b :: b in cache ==> cache[b].holder == None
      modifies bufs`dev, bufs`blockno, bufs`valid, bufs`refcnt
      ensures Valid() && (lbuf == null <==> dbuf == null)
      ensures lbuf == null ==> forall x :: x in cache ==> cache[x].refcnt != 0
      ensures lbuf != null && dbuf != null ==>
        && lbuf in bufs && lbuf.dev == dev && lbuf.blockno == lb && lbuf.refcnt > 0
        && dbuf in bufs && dbuf.dev == dev && dbuf.blockno == hb
        && P.CanFetch(cache, lb, v1, lb)
        && (var c := P.Fetch(cache, disk, lb, v1);
            && hb in c && c[hb] == cache[hb]
            && (var c2 := P.Fetch(c, disk, hb, v2);
                lb in c2 && hb in c2 && c2[hb].refcnt == cache[hb].refcnt
                && Agrees(Recs(), dev, Taken(Taken(c2, lb), hb))))
    {
      hide Valid, Agrees, Unique, P.Fetch, P.CanFetch;
      lbuf, dbuf, v1, v2 := null, null, None, None;
      lbuf, v1 := Bread(dev, lb, cache, disk);
      if lbuf == null { return; }
      ghost var c1 := P.Fetch(cache, disk, lb, v1);
      FirstFetch(cache, disk, lb, hb, v1);
      ghost var m1 := Recs();
      AgreesAt(m1, dev, Taken(c1, lb), lbuf);
      dbuf, v2 := Bread(dev, hb, Taken(c1, lb), disk);
      SecondFetch(c1, disk, lb, hb, v2);
      ghost var m2 := Recs();
      assert m2[lbuf].blockno == m1[lbuf].blockno && m2[lbuf].dev == m1[lbuf].dev;
      AgreesAt(m2, dev, Taken(Taken(P.Fetch(c1, disk, hb, v2), lb), hb), lbuf);
    }

    /** What one iteration of install_trans(0) does to the ring is what the
        protocol's Install does to its cache; without a buffer it panics. */
    method Install(dev: nat, lb: nat, hb: nat, ghost k: nat, ghost L: P.Layout, ghost s: P.State)
        returns (ok: bool, ghost s': P.State, ghost v1: Option<nat>, ghost v2: Option<nat>)
      requires Valid() && dev != 0 && Agrees(Recs(), dev, s.cache)
      requires L.Ok() && |s.disk| == L.total && s.phase == P.Installing(k) && k < |s.lh| < L.size && L.Home(s.lh[k])
      requires lb == L.start + 1 + k && hb == s.lh[k]
      requires s.lh[k] in s.cache && s.cache[s.lh[k]].refcnt > 0
      requires forall b :: b in s.cache ==> s.cache[b].holder == None
      modifies this`ring, this`clock, head`prev, head`next, bufs
      ensures Valid()
      ensures ok ==> P.InstallStep(L, s, s', v1, v2) && Agrees(Recs(), dev, s'.cache)
      ensures !ok ==> forall x :: x in s.cache ==> s.cache[x].refcnt != 0
    {
      hide Valid, Agrees, Unique, P.Fetch, P.CanFetch, P.CopyCache, P.CanCopy, SameShape, Installed, P.InstallStep;
      var lbuf: Buf?, dbuf: Buf?;
      lbuf, dbuf, v1, v2 := BreadPair(dev, lb, hb, s.cache, s.disk);
      if lbuf == null { return false, s, v1, v2; }
      ghost var c := P.Fetch(P.Fetch(s.cache, s.disk, lb, v1), s.disk, hb, v2);
      CopyAllowed(L, s, k, v1, v2);
      GiveBack(lbuf, dbuf, dev, Taken(Taken(c, lb), hb));
      s' := Installed(L, s, k, v1, v2);
      InstallMatches(L, s, k, v1, v2);
      AgreesSame(Recs(), dev, Less(Less(Less(Taken(Taken(c, lb), hb), hb), lb), hb), s'.cache);
      ok := true;
    }

    /** bunpin(dbuf); brelse(lbuf); brelse(dbuf) */
    method GiveBack(lbuf: Buf, dbuf: Buf, ghost dev: nat, ghost cache: map<nat, P.Buf>)
      requires Valid() && dev != 0 && Agrees(Recs(), dev, cache) && lbuf in bufs && dbuf in bufs
      requires lbuf.dev == dev && dbuf.dev == dev && lbuf.blockno != dbuf.blockno
      requires lbuf.refcnt > 0 && dbuf.blockno in cache && cache[dbuf.blockno].refcnt > 1
      modifies this`ring, this`clock, head`prev, head`next, bufs
      ensures Valid() && lbuf.blockno == old(lbuf.blockno) && dbuf.blockno == old(dbuf.blockno) && lbuf.blockno in cache
      ensures Agrees(Recs(), dev, Less(Less(Less(cache, dbuf.blockno), lbuf.blockno), dbuf.blockno))
    {
      hide Valid, Agrees, Unique;
      ghost var m := Recs();
      AgreesAt(m, dev, cache, dbuf);
      AgreesAt(m, dev, cache, lbuf);
      Unpin(dbuf, dev, cache);
      Drop(lbuf, dev, Less(cache, dbuf.blockno));
      Drop(dbuf, dev, Less(Less(cache, dbuf.blockno), lbuf.blockno));
    }
  }

  /** The block's buffer with one more, or one less, reference. */
  ghost function Taken(c: map<nat, P.Buf>, b: nat): map<nat, P.Buf>
    requires b in c
  {
    c[b := c[b].(refcnt := c[b].refcnt + 1)]
  }

  ghost function Less(c: map<nat, P.Buf>, b: nat): map<nat, P.Buf>
    requires b in c
  {
    c[b := c[b].(refcnt := c[b].refcnt - 1)]
  }

  ghost predicate SameShape(a: map<nat, P.Buf>, c: map<nat, P.Buf>) {
    a.Keys == c.Keys && forall k :: k in a ==> a[k].valid == c[k].valid && a[k].refcnt == c[k].refcnt
  }

  lemma AgreesSame(m: map<Buf, Rec>, dev: nat, a: map<nat, P.Buf>, c: map<nat, P.Buf>)
    requires Agrees(m, dev, a) && SameShape(a, c)
    ensures Agrees(m, dev, c)
  {
    hide Cached;
  }

  lemma FilledIs(cache: map<nat, P.Buf>, disk: seq<Blocks.Block>, k: nat, v: Option<nat>, c: map<nat, P.Buf>)
    requires k < |disk|
    requires if k in cache then k in c && c == cache[k := c[k]] && c[k].refcnt == cache[k].refcnt + 1
             else k in c && c == P.Recycle(cache, v)[k := c[k]] && c[k].refcnt == 1
    ensures k in c
    ensures var full := Taken(P.Fetch(cache, disk, k, v), k);
      full == c[k := full[k]] && full[k].valid && full[k].refcnt == c[k].refcnt
  {
  }

  lemma FirstFetch(cache: map<nat, P.Buf>, disk: seq<Blocks.Block>, lb: nat, hb: nat, v: Option<nat>)
    requires lb < |disk| && lb != hb && P.CanFetch(cache, lb, v, lb) && hb in cache && cache[hb].refcnt > 0
    ensures var c := P.Fetch(cache, disk, lb, v); lb in c && hb in c && c[hb] == cache[hb]
  {
  }

  lemma SecondFetch(c: map<nat, P.Buf>, disk: seq<Blocks.Block>, lb: nat, hb: nat, v: Option<nat>)
    requires hb < |disk| && lb != hb && lb in c && hb in c
    ensures lb in P.Fetch(c, disk, hb, v) && P.Fetch(c, disk, hb, v)[lb] == c[lb]
    ensures P.Fetch(c, disk, hb, v)[hb].refcnt == c[hb].refcnt
    ensures P.Fetch(Taken(c, lb), disk, hb, v) == Taken(P.Fetch(c, disk, hb, v), lb)
  {
  }

  ghost function Installed(L: P.Layout, s: P.State, k: nat, v1: Option<nat>, v2: Option<nat>): P.State
    requires P.CanCopy(L, s, k, v1, v2)
  {
    var c := P.CopyCache(L, s, k, v1, v2);
    var u, data := c[s.lh[k]], c[L.start + 1 + k].data;
    s.(disk := s.disk[s.lh[k] := data],
       cache := c[s.lh[k] := u.(data := data, dirty := false, refcnt := u.refcnt - 1)],
       phase := P.Installing(k + 1))
  }

  /** Taking both buffers, dropping the pin and giving both back leaves the
      counts as the protocol's Install does. */
  lemma InstallShape(c: map<nat, P.Buf>, lb: nat, hb: nat, u: P.Buf)
    requires lb in c && hb in c && lb != hb && u.valid == c[hb].valid && u.refcnt == c[hb].refcnt - 1
    ensures SameShape(Less(Less(Less(Taken(Taken(c, lb), hb), hb), lb), hb), c[hb := u])
  {
  }

  lemma InstallMatches(L: P.Layout, s: P.State, k: nat, v1: Option<nat>, v2: Option<nat>)
    requires P.CanCopy(L, s, k, v1, v2) && s.phase == P.Installing(k) && s.lh[k] != L.start + 1 + k
    ensures P.InstallStep(L, s, Installed(L, s, k, v1, v2), v1, v2)
    ensures var c := P.CopyCache(L, s, k, v1, v2);
      SameShape(Less(Less(Less(Taken(Taken(c, L.start + 1 + k), s.lh[k]), s.lh[k]), L.start + 1 + k), s.lh[k]),
                Installed(L, s, k, v1, v2).cache)
  {
    hide P.CanFetch, P.Fetch, P.CopyCache, SameShape;
    var c := P.CopyCache(L, s, k, v1, v2);
    InstallShape(c, L.start + 1 + k, s.lh[k], Installed(L, s, k, v1, v2).cache[s.lh[k]]);
  }

  lemma CopyAllowed(L: P.Layout, s: P.State, k: nat, v1: Option<nat>, v2: Option<nat>)
    requires L.Ok() && |s.disk| == L.total && k < |s.lh| < L.size && L.Home(s.lh[k])
    requires P.CanFetch(s.cache, L.start + 1 + k, v1, L.start + 1 + k)
    requires var c := P.Fetch(s.cache, s.disk, L.start + 1 + k, v1); s.lh[k] in c && c[s.lh[k]].holder == None
    ensures P.CanCopy(L, s, k, v1, v2)
    ensures P.CopyCache(L, s, k, v1, v2) == P.Fetch(P.Fetch(s.cache, s.disk, L.start + 1 + k, v1), s.disk, s.lh[k], v2)
  {
  }

  lemma {:induction false} DistinctSize(s: seq<Buf>)
    requires Distinct(s)
    ensures |set b | b in s| == |s|
  {
    if s != [] {
      DistinctSize(s[1..]);
      assert (set b | b in s) == (set b | b in s[1..]) + {s[0]};
    }
  }

  lemma {:induction false} SubsetSize<T>(a: set<T>, b: set<T>)
    requires a <= b
    ensures |a| <= |b|
  {
    assert |b - a| == |b| - |a|;
  }

  /** Buffers as binit leaves them, in order of insertion. */
  ghost predicate Unused(r: seq<Buf>, k: int)
    reads r`valid, r`dev, r`blockno, r`refcnt, r`stamp
  {
    && (forall b :: b in r ==> !b.valid && b.dev == 0 && b.blockno == 0 && b.refcnt == 0 && b.stamp < k)
    && (forall i, j :: 0 <= i < j < |r| ==> r[i].stamp > r[j].stamp)
  }

  lemma UnusedCons(b: Buf, r: seq<Buf>, k: int)
    requires Unused(r, k)
    requires !b.valid && b.dev == 0 && b.blockno == 0 && b.refcnt == 0 && b.stamp == k
    ensures Unused([b] + r, k + 1)
  {
    var s := [b] + r;
    forall i, j | 0 <= i < j < |s| ensures s[i].stamp > s[j].stamp {
      assert s[j] == r[j-1];
      if i > 0 { assert s[i] == r[i-1]; }
    }
  }

  method AddUnused(h: Buf, ghost r: seq<Buf>, ghost k: int) returns (b: Buf)
    requires Cycle([h] + r) && Unused(r, k)
    modifies h`prev, h`next, r`prev, r`next
    ensures fresh(b) && b !in r && Cycle([h] + ([b] + r)) && Unused([b] + r, k + 1)
  {
    hide Cycle, Unused;
    b := new Buf();
    b.stamp := k;
    UnusedCons(b, r, k);
    assert [h, b] + ([h] + r)[1..] == [h] + ([b] + r);
    PushFront(h, b, [h] + r);
  }
}
