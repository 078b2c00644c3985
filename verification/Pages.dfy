/** The pages of the tree as they lie in remote memory, and what one page
    operation does to them.

    A leaf keeps an unordered array of LEAF_CARD slots; a slot is live when its
    value is not VALUE_NULL.  An internal page keeps a leftmost child and a
    sorted list of (separator, child) entries; only the entries up to
    `last_index` are ever read, so that prefix is the page's value here. */
module Pages {

  const KEY_MAX: nat := 0xFFFF_FFFF_FFFF_FFFF
  type Key = k: nat | k <= KEY_MAX
  type Value = v: nat | v <= KEY_MAX
  const VALUE_NULL: Value := 0
  type Addr = nat
  const NULL: Addr := 0

  // The number of slots of a page.  The program derives both from the page
  // size and keeps the index of the last slot in 16 bits, signed; nothing below
  // depends on more than that and that there are at least four.
  type Card = n: nat | 4 <= n < 0x8000 witness 61
  const LEAF_CARD: Card
  const INTERNAL_CARD: Card

  datatype LeafEntry = LeafEntry(key: Key, value: Value) {
    predicate Live() { value != VALUE_NULL }
    predicate Is(k: Key) { key == k && Live() }
  }
  const EMPTY_SLOT := LeafEntry(0, VALUE_NULL)

  datatype InternalEntry = InternalEntry(key: Key, ptr: Addr)

  datatype Page =
    | Leaf(sibling: Addr, lowest: Key, highest: Key, records: seq<LeafEntry>)
    | Internal(level: nat, leftmost: Addr, sibling: Addr, lowest: Key, highest: Key,
               entries: seq<InternalEntry>)
  {
    function Level(): nat { if Leaf? then 0 else level }
    predicate Covers(k: Key) { lowest <= k < highest }
  }

  // ---------------------------------------------------------------- leaves

  /** Index of the first live record with key k; the length if there is none. */
  function FindLive(rs: seq<LeafEntry>, k: Key): (i: nat)
    ensures i <= |rs|
    ensures i < |rs| ==> rs[i].Is(k)
    ensures forall j :: 0 <= j < i ==> !rs[j].Is(k)
  {
    if rs == [] || rs[0].Is(k) then 0 else 1 + FindLive(rs[1..], k)
  }

  /** Index of the first empty slot; the length if there is none. */
  function FindEmpty(rs: seq<LeafEntry>): (i: nat)
    ensures i <= |rs|
    ensures i < |rs| ==> !rs[i].Live()
    ensures forall j :: 0 <= j < i ==> rs[j].Live()
  {
    if rs == [] || !rs[0].Live() then 0 else 1 + FindEmpty(rs[1..])
  }

  /** What a lookup of k in this page answers; VALUE_NULL when k is absent. */
  function LeafGet(rs: seq<LeafEntry>, k: Key): Value {
    var i := FindLive(rs, k);
    if i < |rs| then rs[i].value else VALUE_NULL
  }

  ghost predicate AllLive(rs: seq<LeafEntry>) {
    forall i :: 0 <= i < |rs| ==> rs[i].Live()
  }

  ghost predicate UniqueLive(rs: seq<LeafEntry>) {
    forall i, j :: 0 <= i < j < |rs| && rs[i].Live() && rs[j].Live() ==> rs[i].key != rs[j].key
  }

  ghost predicate KeysWithin(rs: seq<LeafEntry>, lo: Key, hi: Key) {
    forall i :: 0 <= i < |rs| && rs[i].Live() ==> lo <= rs[i].key < hi
  }

  /** Overwrite the record of k, or take the first empty slot for it. */
  function LeafPut(rs: seq<LeafEntry>, k: Key, v: Value): (r: seq<LeafEntry>)
    requires FindLive(rs, k) < |rs| || FindEmpty(rs) < |rs|
  {
    var i := FindLive(rs, k);
    rs[(if i < |rs| then i else FindEmpty(rs)) := LeafEntry(k, v)]
  }

  /** Clear the value of the record of k. */
  function LeafRemove(rs: seq<LeafEntry>, k: Key): seq<LeafEntry> {
    var i := FindLive(rs, k);
    if i < |rs| then rs[i := LeafEntry(k, VALUE_NULL)] else rs
  }

  lemma FindLiveAt(rs: seq<LeafEntry>, k: Key, i: nat)
    requires UniqueLive(rs) && i < |rs| && rs[i].Is(k)
    ensures FindLive(rs, k) == i && LeafGet(rs, k) == rs[i].value
  {
  }

  lemma GetIsMembership(rs: seq<LeafEntry>, k: Key, v: Value)
    requires UniqueLive(rs) && v != VALUE_NULL
    ensures LeafGet(rs, k) == v <==> LeafEntry(k, v) in rs
  {
    if LeafEntry(k, v) in rs {
      var i :| 0 <= i < |rs| && rs[i] == LeafEntry(k, v);
      FindLiveAt(rs, k, i);
    }
  }

  /** A page that holds exactly the live records of another answers alike. */
  lemma SameLiveSameGet(a: seq<LeafEntry>, b: seq<LeafEntry>, k: Key)
    requires UniqueLive(a) && UniqueLive(b)
    requires forall v: Value :: v != VALUE_NULL ==> (LeafEntry(k, v) in a <==> LeafEntry(k, v) in b)
    ensures LeafGet(a, k) == LeafGet(b, k)
  {
    var x, y := LeafGet(a, k), LeafGet(b, k);
    if x != VALUE_NULL { GetIsMembership(a, k, x); GetIsMembership(b, k, x); }
    if y != VALUE_NULL { GetIsMembership(a, k, y); GetIsMembership(b, k, y); }
  }

  lemma PutGet(rs: seq<LeafEntry>, k: Key, v: Value, x: Key)
    requires UniqueLive(rs) && v != VALUE_NULL
    requires FindLive(rs, k) < |rs| || FindEmpty(rs) < |rs|
    ensures UniqueLive(LeafPut(rs, k, v))
    ensures LeafGet(LeafPut(rs, k, v), x) == if x == k then v else LeafGet(rs, x)
  {
    var r := LeafPut(rs, k, v);
    var i := FindLive(rs, k);
    var p := if i < |rs| then i else FindEmpty(rs);
    assert forall j :: 0 <= j < |rs| && j != p ==> r[j] == rs[j] && !rs[j].Is(k);
    assert UniqueLive(r);
    if x == k {
      FindLiveAt(r, k, p);
    } else {
      hide UniqueLive, LeafPut;
      var j, j' := FindLive(rs, x), FindLive(r, x);
      if j < |rs| {
        assert r[j] == rs[j];
        FindLiveAt(r, x, j);
      }
    }
  }

  lemma RemoveGet(rs: seq<LeafEntry>, k: Key, x: Key)
    requires UniqueLive(rs)
    ensures UniqueLive(LeafRemove(rs, k))
    ensures LeafGet(LeafRemove(rs, k), x) == if x == k then VALUE_NULL else LeafGet(rs, x)
  {
    var r := LeafRemove(rs, k);
    var j, j' := FindLive(rs, x), FindLive(r, x);
    if x != k && j < |rs| {
      assert r[j] == rs[j];
      FindLiveAt(r, x, j);
    }
  }

  // ------------------------------------------------------- splitting a leaf

  ghost predicate SortedByKey(rs: seq<LeafEntry>) {
    forall i, j :: 0 <= i <= j < |rs| ==> rs[i].key <= rs[j].key
  }

  function InsertSorted(rs: seq<LeafEntry>, e: LeafEntry): (r: seq<LeafEntry>)
    ensures multiset(r) == multiset(rs) + multiset{e}
  {
    if rs == [] || e.key <= rs[0].key then
      [e] + rs
    else
      assert rs == [rs[0]] + rs[1..];
      [rs[0]] + InsertSorted(rs[1..], e)
  }

  lemma {:induction false} InsertKeepsSorted(rs: seq<LeafEntry>, e: LeafEntry)
    requires SortedByKey(rs)
    ensures SortedByKey(InsertSorted(rs, e))
  {
    if rs != [] && rs[0].key < e.key {
      var t := InsertSorted(rs[1..], e);
      InsertKeepsSorted(rs[1..], e);
      forall i | 0 <= i < |t| ensures rs[0].key <= t[i].key {
        assert t[i] in multiset(t);
      }
    }
  }

  /** The records in key order (the program calls std::sort). */
  function SortByKey(rs: seq<LeafEntry>): (r: seq<LeafEntry>)
    ensures SortedByKey(r)
    ensures multiset(r) == multiset(rs) && |r| == |rs|
  {
    if rs == [] then [] else
      assert rs == [rs[0]] + rs[1..];
      var r := InsertSorted(SortByKey(rs[1..]), rs[0]);
      InsertKeepsSorted(SortByKey(rs[1..]), rs[0]);
      assert |r| == |multiset(r)| == |multiset(rs)|;
      r
  }

  lemma {:induction false} SortedAlready(rs: seq<LeafEntry>)
    requires SortedByKey(rs)
    ensures SortByKey(rs) == rs
  {
    if rs != [] { SortedAlready(rs[1..]); }
  }

  /** A slot array of a page: the given records, then empty slots. */
  function Padded(rs: seq<LeafEntry>, n: nat): (r: seq<LeafEntry>)
    requires |rs| <= n
  {
    rs + seq(n - |rs|, i => EMPTY_SLOT)
  }

  /** The left page, the right page and the separator of a full leaf that is
      split in the middle of its sorted records. */
  function LeafSplitLeft(p: Page, rs: seq<LeafEntry>, sib: Addr): Page
    requires p.Leaf? && |rs| == LEAF_CARD
  {
    var s := SortByKey(rs);
    Leaf(sib, p.lowest, s[LEAF_CARD / 2].key, Padded(s[..LEAF_CARD / 2], LEAF_CARD))
  }

  function LeafSplitRight(p: Page, rs: seq<LeafEntry>): Page
    requires p.Leaf? && |rs| == LEAF_CARD
  {
    var s := SortByKey(rs);
    Leaf(p.sibling, s[LEAF_CARD / 2].key, p.highest, Padded(s[LEAF_CARD / 2..], LEAF_CARD))
  }

  function LeafSplitKey(rs: seq<LeafEntry>): Key
    requires |rs| == LEAF_CARD
  {
    SortByKey(rs)[LEAF_CARD / 2].key
  }

  /** Only the fences of the page and the set of records matter to a split. */
  lemma SplitOfSorted(p: Page, q: Page, rs: seq<LeafEntry>, sib: Addr)
    requires p.Leaf? && q.Leaf? && |rs| == LEAF_CARD
    requires p.lowest == q.lowest && p.highest == q.highest && p.sibling == q.sibling
    ensures LeafSplitLeft(q, SortByKey(rs), sib) == LeafSplitLeft(p, rs, sib)
    ensures LeafSplitRight(q, SortByKey(rs)) == LeafSplitRight(p, rs)
    ensures LeafSplitKey(SortByKey(rs)) == LeafSplitKey(rs) == LeafSplitRight(p, rs).lowest
  {
    SortedAlready(SortByKey(rs));
  }

  ghost predicate LeafOk(p: Page) {
    && p.Leaf?
    && |p.records| == LEAF_CARD
    && UniqueLive(p.records)
    && KeysWithin(p.records, p.lowest, p.highest)
    && FindEmpty(p.records) < LEAF_CARD
  }

  /** A store keeps a leaf well formed unless it took the last empty slot. */
  lemma LeafPutOk(p: Page, k: Key, v: Value)
    requires LeafOk(p) && p.Covers(k) && v != VALUE_NULL
    ensures var rs := LeafPut(p.records, k, v);
            && |rs| == LEAF_CARD && UniqueLive(rs) && KeysWithin(rs, p.lowest, p.highest)
            && (AllLive(rs) || LeafOk(p.(records := rs)))
  {
    PutGet(p.records, k, v, k);
  }

  lemma LeafRemoveOk(p: Page, k: Key)
    requires LeafOk(p)
    ensures LeafOk(p.(records := LeafRemove(p.records, k)))
  {
    RemoveGet(p.records, k, k);
    var e, rs := FindEmpty(p.records), LeafRemove(p.records, k);
    assert !rs[e].Live();
  }

  lemma SortedMembers(rs: seq<LeafEntry>, e: LeafEntry)
    ensures e in SortByKey(rs) <==> e in rs
  {
    assert e in SortByKey(rs) <==> e in multiset(SortByKey(rs));
    assert e in rs <==> e in multiset(rs);
  }

  lemma UniqueByCount(rs: seq<LeafEntry>, i: nat, j: nat)
    requires i < j < |rs| && rs[i] == rs[j]
    ensures multiset(rs)[rs[i]] >= 2
  {
    assert rs == rs[..j] + [rs[j]] + rs[j + 1..];
    assert rs[i] == rs[..j][i];
    assert rs[i] in multiset(rs[..j]);
  }

  lemma {:induction false} CountOfUnique(rs: seq<LeafEntry>, e: LeafEntry)
    requires forall i, j :: 0 <= i < j < |rs| ==> rs[i] != rs[j]
    ensures multiset(rs)[e] <= 1
  {
    if rs != [] {
      assert rs == [rs[0]] + rs[1..];
      CountOfUnique(rs[1..], e);
      if e == rs[0] {
        assert e !in rs[1..];
        assert e !in multiset(rs[1..]);
      }
    }
  }

  lemma SameKeySame(rs: seq<LeafEntry>, a: LeafEntry, b: LeafEntry)
    requires AllLive(rs) && UniqueLive(rs) && a in rs && b in rs && a.key == b.key
    ensures a == b
  {
    var i :| 0 <= i < |rs| && rs[i] == a;
    var j :| 0 <= j < |rs| && rs[j] == b;
  }

  lemma PermutationDistinct(rs: seq<LeafEntry>, s: seq<LeafEntry>, i: nat, j: nat)
    requires AllLive(rs) && UniqueLive(rs) && multiset(s) == multiset(rs) && i < j < |s|
    ensures s[i].key != s[j].key
  {
    assert s[i] in multiset(rs) && s[j] in multiset(rs);
    if s[i].key == s[j].key {
      SameKeySame(rs, s[i], s[j]);
      UniqueByCount(s, i, j);
      CountOfUnique(rs, s[i]);
    }
  }

  /** Sorting a full page of distinct keys makes the keys strictly increase. */
  lemma SortedStrictly(rs: seq<LeafEntry>)
    requires AllLive(rs) && UniqueLive(rs)
    ensures AllLive(SortByKey(rs))
    ensures forall i, j :: 0 <= i < j < |rs| ==> SortByKey(rs)[i].key < SortByKey(rs)[j].key
  {
    forall i | 0 <= i < |rs| ensures SortByKey(rs)[i].Live() { SortedMembers(rs, SortByKey(rs)[i]); }
    forall i, j | 0 <= i < j < |rs| ensures SortByKey(rs)[i].key < SortByKey(rs)[j].key {
      PermutationDistinct(rs, SortByKey(rs), i, j);
    }
  }

  lemma PaddedOk(sib: Addr, lo: Key, hi: Key, rs: seq<LeafEntry>)
    requires |rs| < LEAF_CARD && AllLive(rs) && KeysWithin(rs, lo, hi)
    requires forall i, j :: 0 <= i < j < |rs| ==> rs[i].key < rs[j].key
    ensures LeafOk(Leaf(sib, lo, hi, Padded(rs, LEAF_CARD)))
  {
    assert !Padded(rs, LEAF_CARD)[|rs|].Live();
  }

  /** Both halves of a split leaf are well formed and the separator lies
      strictly inside the old range. */
  lemma LeafSplitOk(p: Page, rs: seq<LeafEntry>, sib: Addr)
    requires p.Leaf? && |rs| == LEAF_CARD && AllLive(rs) && UniqueLive(rs)
    requires KeysWithin(rs, p.lowest, p.highest)
    ensures LeafOk(LeafSplitLeft(p, rs, sib)) && LeafOk(LeafSplitRight(p, rs))
    ensures p.lowest < LeafSplitKey(rs) < p.highest
    ensures forall i :: 0 <= i < LEAF_CARD ==>
      && (LeafSplitLeft(p, rs, sib).records[i].Live() <==> i < LEAF_CARD / 2)
      && (LeafSplitRight(p, rs).records[i].Live() <==> i < LEAF_CARD - LEAF_CARD / 2)
  {
    hide LeafOk, UniqueLive, SortByKey;
    var s, m := SortByKey(rs), LEAF_CARD / 2;
    SortedStrictly(rs);
    forall i | 0 <= i < |s| ensures p.lowest <= s[i].key < p.highest {
      SortedMembers(rs, s[i]);
    }
    assert s[0].key < s[m].key;
    PaddedOk(sib, p.lowest, s[m].key, s[..m]);
    PaddedOk(p.sibling, s[m].key, p.highest, s[m..]);
  }

  lemma LeafSplitGet(p: Page, rs: seq<LeafEntry>, sib: Addr, k: Key)
    requires p.Leaf? && |rs| == LEAF_CARD && AllLive(rs) && UniqueLive(rs)
    requires KeysWithin(rs, p.lowest, p.highest)
    ensures k < LeafSplitKey(rs) ==> LeafGet(LeafSplitLeft(p, rs, sib).records, k) == LeafGet(rs, k)
    ensures k >= LeafSplitKey(rs) ==> LeafGet(LeafSplitRight(p, rs).records, k) == LeafGet(rs, k)
  {
    LeafSplitOk(p, rs, sib);
    SortedStrictly(rs);
    var s, m := SortByKey(rs), LEAF_CARD / 2;
    var half := if k < s[m].key then Padded(s[..m], LEAF_CARD) else Padded(s[m..], LEAF_CARD);
    forall v: Value | v != VALUE_NULL
      ensures LeafEntry(k, v) in half <==> LeafEntry(k, v) in rs
    {
      SortedMembers(rs, LeafEntry(k, v));
      HalfMembers(s, m, k, v);
    }
    SameLiveSameGet(half, rs, k);
  }

  lemma HalfMembers(s: seq<LeafEntry>, m: nat, k: Key, v: Value)
    requires |s| == LEAF_CARD && m < |s| && v != VALUE_NULL
    requires forall i, j :: 0 <= i < j < |s| ==> s[i].key < s[j].key
    ensures k < s[m].key ==> (LeafEntry(k, v) in Padded(s[..m], LEAF_CARD) <==> LeafEntry(k, v) in s)
    ensures k >= s[m].key ==> (LeafEntry(k, v) in Padded(s[m..], LEAF_CARD) <==> LeafEntry(k, v) in s)
  {
    var e := LeafEntry(k, v);
    if e in s {
      var i :| 0 <= i < |s| && s[i] == e;
      if i < m { assert Padded(s[..m], LEAF_CARD)[i] == e; }
      else { assert Padded(s[m..], LEAF_CARD)[i - m] == e; }
    }
  }

  // --------------------------------------------------------- internal pages

  ghost predicate SortedEntries(es: seq<InternalEntry>) {
    forall i, j :: 0 <= i < j < |es| ==> es[i].key < es[j].key
  }

  /** Number of leading separators that do not exceed k. */
  function Slot(es: seq<InternalEntry>, k: Key): (i: nat)
    ensures i <= |es|
    ensures forall j :: 0 <= j < i ==> es[j].key <= k
    ensures i < |es| ==> k < es[i].key
  {
    if es == [] || k < es[0].key then 0 else 1 + Slot(es[1..], k)
  }

  /** The child a traversal for k descends to. */
  function Route(leftmost: Addr, es: seq<InternalEntry>, k: Key): Addr {
    if Slot(es, k) == 0 then leftmost else es[Slot(es, k) - 1].ptr
  }

  function InnerPut(es: seq<InternalEntry>, k: Key, ptr: Addr): seq<InternalEntry> {
    var i := Slot(es, k);
    if i > 0 && es[i - 1].key == k then
      es[i - 1 := InternalEntry(k, ptr)]
    else
      es[..i] + [InternalEntry(k, ptr)] + es[i..]
  }

  lemma InnerPutSorted(es: seq<InternalEntry>, k: Key, ptr: Addr)
    requires SortedEntries(es)
    ensures SortedEntries(InnerPut(es, k, ptr))
  {
  }

  function InnerSplitLeft(p: Page, es: seq<InternalEntry>, sib: Addr): Page
    requires p.Internal? && |es| == INTERNAL_CARD
  {
    var m := INTERNAL_CARD / 2;
    Internal(p.level, p.leftmost, sib, p.lowest, es[m].key, es[..m])
  }

  function InnerSplitRight(p: Page, es: seq<InternalEntry>): Page
    requires p.Internal? && |es| == INTERNAL_CARD
  {
    var m := INTERNAL_CARD / 2;
    Internal(p.level, es[m].ptr, p.sibling, es[m].key, p.highest, es[m + 1..])
  }

  /** The entries of an internal page that has room for one more.  The page's own
      lower fence belongs to the leftmost child and is no separator. */
  ghost predicate EntriesOk(p: Page) {
    && p.Internal?
    && 1 <= |p.entries| < INTERNAL_CARD
    && SortedEntries(p.entries)
    && forall i :: 0 <= i < |p.entries| ==> p.lowest < p.entries[i].key < p.highest
  }

  predicate IsChild(p: Page, a: Addr)
    requires p.Internal?
  {
    a == p.leftmost || exists i :: 0 <= i < |p.entries| && p.entries[i].ptr == a
  }
}
