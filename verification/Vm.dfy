/** Page tables and page ownership (kernel/vm.c, kernel/kalloc.c): the pages a
    kernel has handed out, and the trees of page tables built from them. */
module PageTables {
  const PGSIZE := 4096
  const FAN := 512       // entries in a page of table
  const ROOT_FAN := 4    // entries of a root that PGD_IDX can reach
  const VPNS := 0x10_0000

  /** A table word: physical page, the two low type bits, access permission. */
  datatype Entry = Entry(page: nat, valid: bool, table: bool, ap: nat)

  const NULL_ENTRY := Entry(0, false, false, 0)
  const ZERO_PAGE: seq<Entry> := seq(FAN, i => NULL_ENTRY)

  predicate Present(e: Entry) { e.valid && e.table }

  /** What an allocated page is for: nothing yet, or the entry that leads to it.
      Level 0 is a root, levels 1 and 2 tables below it, level 3 a user page. */
  datatype Role = Loose | Node(level: nat, parent: nat, index: nat)

  function Fan(level: nat): nat { if level == 0 then ROOT_FAN else FAN }

  predicate IsTable(own: map<nat, Role>, t: nat) { t in own && own[t].Node? && own[t].level < 3 }

  predicate IsRoot(own: map<nat, Role>, r: nat) { IsTable(own, r) && own[r].level == 0 }

  /** How many slots of a table have already been torn down. */
  function Done(done: map<nat, nat>, t: nat): nat { if t in done then done[t] else 0 }

  function Get(words: map<nat, seq<Entry>>, t: nat, k: nat): Entry {
    if t in words && k < |words[t]| then words[t][k] else NULL_ENTRY
  }

  /** A slot is zero, or leads to the page that is there on its account. */
  predicate Slot(own: map<nat, Role>, words: map<nat, seq<Entry>>, t: nat, k: nat)
    requires IsTable(own, t)
  {
    var e := Get(words, t, k);
    e == NULL_ENTRY || (Present(e) && e.page in own && own[e.page] == Node(own[t].level + 1, t, k))
  }

  predicate Hung(own: map<nat, Role>, words: map<nat, seq<Entry>>, done: map<nat, nat>, p: nat)
    requires p in own && own[p].Node?
  {
    var q, k := own[p].parent, own[p].index;
    && IsTable(own, q) && own[q].level + 1 == own[p].level
    && Done(done, q) <= k < Fan(own[q].level)
    && Present(Get(words, q, k)) && Get(words, q, k).page == p
  }

  predicate Sized(own: map<nat, Role>, words: map<nat, seq<Entry>>) {
    forall t :: t in own ==> t in words && |words[t]| == FAN
  }

  ghost predicate Slots(own: map<nat, Role>, words: map<nat, seq<Entry>>, done: map<nat, nat>) {
    forall t, k :: IsTable(own, t) && Done(done, t) <= k < Fan(own[t].level) ==> Slot(own, words, t, k)
  }

  ghost predicate Hangs(own: map<nat, Role>, words: map<nat, seq<Entry>>, done: map<nat, nat>) {
    forall p :: p in own && own[p].Node? && own[p].level != 0 ==> Hung(own, words, done, p)
  }

  /** Table entries and page roles agree in both directions, except in the
      slots already torn down. */
  ghost predicate Forest(own: map<nat, Role>, words: map<nat, seq<Entry>>, done: map<nat, nat>) {
    Sized(own, words) && Slots(own, words, done) && Hangs(own, words, done)
  }

  /** Free and allocated pages partition the pages there are. */
  ghost predicate Partition(pages: set<nat>, free: seq<nat>, own: map<nat, Role>) {
    && (forall i, j :: 0 <= i < j < |free| ==> free[i] != free[j])
    && (forall p :: p in free ==> p !in own)
    && (forall p :: p in pages <==> p in free || p in own)
  }

  // ----- elementary changes

  lemma AllocKeeps(own: map<nat, Role>, words: map<nat, seq<Entry>>, done: map<nat, nat>, p: nat, w: seq<Entry>)
    requires Forest(own, words, done) && p !in own && |w| == FAN
    ensures Forest(own[p := Loose], words[p := w], done)
  {
    var own', words' := own[p := Loose], words[p := w];
    forall t, k | IsTable(own', t) && Done(done, t) <= k < Fan(own'[t].level) ensures Slot(own', words', t, k) {
      assert Slot(own, words, t, k);
    }
    forall q | q in own' && own'[q].Node? && own'[q].level != 0 ensures Hung(own', words', done, q) {
      assert Hung(own, words, done, q);
    }
  }

  lemma ReleaseKeeps(own: map<nat, Role>, words: map<nat, seq<Entry>>, done: map<nat, nat>, p: nat, w: seq<Entry>)
    requires Forest(own, words, done) && p in own && own[p] == Loose
    ensures Forest(own - {p}, words[p := w], done)
  {
    var own', words' := own - {p}, words[p := w];
    forall t, k | IsTable(own', t) && Done(done, t) <= k < Fan(own'[t].level) ensures Slot(own', words', t, k) {
      assert Slot(own, words, t, k);
    }
    forall q | q in own' && own'[q].Node? && own'[q].level != 0 ensures Hung(own', words', done, q) {
      assert Hung(own, words, done, q);
    }
  }

  lemma RootKeeps(own: map<nat, Role>, words: map<nat, seq<Entry>>, p: nat)
    requires Forest(own, words, map[]) && p in own && own[p] == Loose && words[p] == ZERO_PAGE
    ensures Forest(own[p := Node(0, p, 0)], words, map[])
  {
    var own' := own[p := Node(0, p, 0)];
    forall t, k | IsTable(own', t) && 0 <= k < Fan(own'[t].level) ensures Slot(own', words, t, k) {
      if t != p { assert Slot(own, words, t, k); }
    }
    forall q | q in own' && own'[q].Node? && own'[q].level != 0 ensures Hung(own', words, map[], q) {
      assert Hung(own, words, map[], q);
    }
  }

  function Put(words: map<nat, seq<Entry>>, t: nat, k: nat, e: Entry): map<nat, seq<Entry>>
    requires t in words && k < |words[t]|
  {
    words[t := words[t][k := e]]
  }

  /** An entry for a loose page goes into an empty slot. */
  lemma LinkKeeps(own: map<nat, Role>, words: map<nat, seq<Entry>>, t: nat, k: nat, e: Entry)
    requires Forest(own, words, map[]) && IsTable(own, t) && k < Fan(own[t].level) && Get(words, t, k) == NULL_ENTRY
    requires Present(e) && e.page in own && own[e.page] == Loose && (own[t].level < 2 ==> words[e.page] == ZERO_PAGE)
    ensures Forest(own[e.page := Node(own[t].level + 1, t, k)], Put(words, t, k, e), map[])
  {
    var p := e.page;
    var own', words' := own[p := Node(own[t].level + 1, t, k)], Put(words, t, k, e);
    forall u, i | IsTable(own', u) && 0 <= i < Fan(own'[u].level) ensures Slot(own', words', u, i) {
      if u != p { assert Slot(own, words, u, i); }
    }
    forall q | q in own' && own'[q].Node? && own'[q].level != 0 ensures Hung(own', words', map[], q) {
      if q != p { assert Hung(own, words, map[], q); }
    }
  }

  /** Clearing the entry of a user page makes the page loose. */
  lemma UnlinkKeeps(own: map<nat, Role>, words: map<nat, seq<Entry>>, t: nat, k: nat)
    requires Forest(own, words, map[]) && IsTable(own, t) && own[t].level == 2 && k < FAN && Present(Get(words, t, k))
    ensures Get(words, t, k).page in own && own[Get(words, t, k).page] == Node(3, t, k)
    ensures Forest(own[Get(words, t, k).page := Loose], Put(words, t, k, NULL_ENTRY), map[])
  {
    assert Slot(own, words, t, k);
    var p := Get(words, t, k).page;
    var own', words' := own[p := Loose], Put(words, t, k, NULL_ENTRY);
    forall u, i | IsTable(own', u) && 0 <= i < Fan(own'[u].level) ensures Slot(own', words', u, i) {
      assert Slot(own, words, u, i);
    }
    forall q | q in own' && own'[q].Node? && own'[q].level != 0 ensures Hung(own', words', map[], q) {
      assert Hung(own, words, map[], q);
    }
  }

  // ----- tearing a tree down

  lemma SkipKeeps(own: map<nat, Role>, words: map<nat, seq<Entry>>, done: map<nat, nat>, t: nat)
    requires Forest(own, words, done) && IsTable(own, t) && Done(done, t) < Fan(own[t].level)
    requires Get(words, t, Done(done, t)) == NULL_ENTRY
    ensures Forest(own, words, done[t := Done(done, t) + 1])
  {
    var done' := done[t := Done(done, t) + 1];
    forall u, i | IsTable(own, u) && Done(done', u) <= i < Fan(own[u].level) ensures Slot(own, words, u, i) {
      assert Done(done, u) <= i;
    }
    forall q | q in own && own[q].Node? && own[q].level != 0 ensures Hung(own, words, done', q) {
      assert Hung(own, words, done, q);
    }
  }

  /** A table without children left is given back, and the slot that led to it
      counts as torn down. */
  lemma DropKeeps(own: map<nat, Role>, words: map<nat, seq<Entry>>, done: map<nat, nat>, p: nat, w: seq<Entry>)
    requires Forest(own, words, done) && IsTable(own, p) && own[p].level != 0 && Done(done, p) == FAN
    requires own[p].index == Done(done, own[p].parent)
    ensures own[p].parent != p
    ensures Forest(own - {p}, words[p := w], done[own[p].parent := own[p].index + 1])
  {
    var q := own[p].parent;
    assert Hung(own, words, done, p);
    var own', words', done' := own - {p}, words[p := w], done[q := own[p].index + 1];
    forall u, i | IsTable(own', u) && Done(done', u) <= i < Fan(own'[u].level) ensures Slot(own', words', u, i) {
      assert Done(done, u) <= i;
      assert Slot(own, words, u, i);
    }
    forall x | x in own' && own'[x].Node? && own'[x].level != 0 ensures Hung(own', words', done', x) {
      assert Hung(own, words, done, x);
    }
  }

  lemma DropRootKeeps(own: map<nat, Role>, words: map<nat, seq<Entry>>, done: map<nat, nat>, r: nat, w: seq<Entry>)
    requires Forest(own, words, done) && IsRoot(own, r) && Done(done, r) == ROOT_FAN
    ensures Forest(own - {r}, words[r := w], done)
  {
    var own', words' := own - {r}, words[r := w];
    forall u, i | IsTable(own', u) && Done(done, u) <= i < Fan(own'[u].level) ensures Slot(own', words', u, i) {
      assert Slot(own, words, u, i);
    }
    forall x | x in own' && own'[x].Node? && own'[x].level != 0 ensures Hung(own', words', done, x) {
      assert Hung(own, words, done, x);
    }
  }

  /** Progress recorded for pages that are no tables does not matter. */
  lemma ForgetDone(own: map<nat, Role>, words: map<nat, seq<Entry>>, done: map<nat, nat>)
    requires Forest(own, words, done) && forall t :: t in done ==> !IsTable(own, t)
    ensures Forest(own, words, map[])
  {
    forall u, i | IsTable(own, u) && 0 <= i < Fan(own[u].level) ensures Slot(own, words, u, i) {
      assert Done(done, u) <= i;
    }
    forall x | x in own && own[x].Node? && own[x].level != 0 ensures Hung(own, words, map[], x) {
      assert Hung(own, words, done, x);
    }
  }
}
