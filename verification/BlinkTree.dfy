/** The tree as one thread runs it: traversal from the root or from the cache,
    stores with recursive splits up to the root, deletion.

    Locks are absent here; BlinkConcurrent models the interleavings. */
module BlinkTree {
  import opened Options
  import opened Pages
  import opened Blink
  import opened PageBuffers
  import opened PastPages
  import opened IndexCache
  import Ranges = RangeQuery

  const MAX_LEVEL: nat := 7

  datatype SearchResult = SearchResult(isLeaf: bool, level: nat, sibling: Addr, next: Addr, val: Value)

  // -------------------------------------------- how far a right walk can go

  ghost function Rest(c: seq<Addr>, a: Addr): (n: nat)
    ensures a in c ==> n > 0
  {
    if c == [] then 0 else if c[0] == a then |c| else Rest(c[1..], a)
  }

  lemma {:induction false} RestAt(c: seq<Addr>, i: nat)
    requires i < |c| && forall j :: 0 <= j < i ==> c[j] != c[i]
    ensures Rest(c, c[i]) == |c| - i
  {
    if i > 0 { RestAt(c[1..], i - 1); }
  }

  lemma RightIsCloser(mem: Mem, lv: Levels, l: nat, a: Addr, k: Key)
    requires BLink(mem, lv) && l < |lv| && a in lv[l] && mem[a].highest <= k < KEY_MAX
    ensures mem[a].sibling in lv[l] && Rest(lv[l], mem[a].sibling) < Rest(lv[l], a)
  {
    var c := lv[l];
    var i :| 0 <= i < |c| && c[i] == a;
    TurnRight(mem, lv, l, a, k);
    forall j | 0 <= j < i ensures c[j] != c[i] { if c[j] == c[i] { OneIndex(mem, c, l, j, i); } }
    assert i + 1 < |c|;
    forall j | 0 <= j < i + 1 ensures c[j] != c[i + 1] { if c[j] == c[i + 1] { OneIndex(mem, c, l, j, i + 1); } }
    RestAt(c, i);
    RestAt(c, i + 1);
    assert Linked(mem, c[i], c[i + 1]);
  }

  // ------------------------------------------------------------ path stacks

  /** Above level l the stack names one page a level, each starting no later
      than the one below it, and all of them no later than b. */
  ghost predicate StackOk(mem: Mem, lv: Levels, stack: seq<Addr>, l: nat, b: Key) {
    && |lv| <= |stack|
    && (forall j :: l < j < |lv| ==> stack[j] in lv[j] && stack[j] in mem && mem[stack[j]].lowest <= b)
    && forall i, j :: l < i < j < |lv| ==> mem[stack[j]].lowest <= mem[stack[i]].lowest
  }

  lemma StackRight(mem: Mem, lv: Levels, stack: seq<Addr>, l: nat, a: Addr, b: Key, b': Key)
    requires StackOk(mem, lv, stack, l, b) && l < |lv| && b <= b'
    ensures StackOk(mem, lv, stack[l := a], l, b')
  {
  }

  lemma StackDown(mem: Mem, lv: Levels, stack: seq<Addr>, l: nat, a: Addr, b: Key)
    requires 0 < l < |lv| && a in lv[l] && a in mem && StackOk(mem, lv, stack, l, mem[a].lowest) && mem[a].lowest <= b
    ensures StackOk(mem, lv, stack[l := a], l - 1, b)
  {
  }

  lemma StackExtends(mem: Mem, lv: Levels, mem': Mem, lv': Levels, stack: seq<Addr>, l: nat, b: Key)
    requires StackOk(mem, lv, stack, l, b) && Extends(mem, lv, mem', lv') && |lv| == |lv'|
    ensures StackOk(mem', lv', stack, l, b)
  {
  }

  ghost predicate Core(mem: Mem, lv: Levels, kv: Kv, nextFree: Addr) {
    && |lv| > 0 && BLink(mem, lv)
    && Holds(mem, lv[0], kv)
    && (forall a :: a in mem ==> a < nextFree) && 0 < nextFree
  }

  lemma SplitCache(mem: Mem, lv: Levels, l: nat, i: nat, a: Addr, s: Addr, left: Page, past: set<Page>, es: seq<CacheEntry>)
    requires |lv| > 0 && BLink(mem, lv) && l < |lv| && i < |lv[l]| && lv[l][i] == a
    requires s in mem && s != NULL && Unlinked(lv, s) && Splits(mem[a], s, left, mem[s]) && CacheOk(mem, lv, past, es)
    requires BLink(mem[a := left], LinkAfter(lv, l, i, s)) && Extends(mem, lv, mem[a := left], LinkAfter(lv, l, i, s))
    ensures CacheOk(mem[a := left], LinkAfter(lv, l, i, s), past, es)
  {
    hide BLink, CacheOk, Splits, Extends, LinkAfter, Unlinked;
    if |lv| > 1 { LinkNarrows(mem, lv, l, i, s, left, 1); }
    CacheSurvives(mem, lv, mem[a := left], LinkAfter(lv, l, i, s), past, es);
  }

  lemma ChildStays(mem: Mem, below: seq<Addr>, c: Addr, k: Key, a: Addr, p: Page)
    requires ChildOk(mem, below, c, k) && a !in mem
    ensures ChildOk(mem[a := p], below, c, k)
  {
  }

  method SearchLeaf(p: Page, k: Key) returns (v: Value)
    requires p.Leaf? && |p.records| == LEAF_CARD
    ensures v == LeafGet(p.records, k)
  {
    var page := new LeafBuffer();
    page.Load(p);
    v := page.Search(k);
  }

  method SearchInternal(p: Page, k: Key) returns (next: Addr)
    requires EntriesOk(p)
    ensures next == Route(p.leftmost, p.entries, k)
  {
    var page := new InternalBuffer(p.level);
    page.Load(p);
    next := page.Search(k);
  }

  lemma SplitByFences(p: Page, q: Page, es: seq<InternalEntry>, sib: Addr)
    requires p.Internal? && q == p.(entries := es) && |es| == INTERNAL_CARD
    ensures InnerSplitLeft(q, es, sib) == InnerSplitLeft(p, es, sib)
    ensures InnerSplitRight(q, es) == InnerSplitRight(p, es)
    ensures InnerSplitRight(p, es).lowest == es[INTERNAL_CARD / 2].key
  {
  }

  lemma FenceStays(mem: Mem, lv: Levels, mem': Mem, lv': Levels, l: nat, a: Addr)
    requires Extends(mem, lv, mem', lv') && l < |lv| && a in lv[l]
    ensures a in mem && a in mem' && mem'[a].lowest == mem[a].lowest
  {
  }

  /** What a split leaves to be done above. */
  lemma PendingAfter(mem: Mem, lv: Levels, l: nat, i: nat, a: Addr, s: Addr, left: Page)
    requires |lv| > 0 && BLink(mem, lv) && |lv[|lv| - 1]| == 1 && l < |lv| && i < |lv[l]| && lv[l][i] == a
    requires s in mem && Unlinked(lv, s) && Splits(mem[a], s, left, mem[s])
    ensures var mem' := mem[a := left]; var lv' := LinkAfter(lv, l, i, s);
            && |lv'| == |lv| && a in lv'[l] && ChildOk(mem', lv'[l], s, mem[s].lowest)
            && mem'[a].lowest < mem[s].lowest && |lv'[|lv| - 1]| > 0 && lv'[|lv| - 1][0] == lv[|lv| - 1][0]
            && (if l == |lv| - 1 then lv'[l] == [a, s] else |lv'[|lv| - 1]| == 1)
            && (forall x :: x in mem' <==> x in mem)
            && (l + 1 < |lv| ==> !HasParent(mem', lv'[l + 1], s))
  {
    hide HasParent, BLink;
    PageAt(mem, lv, l, a);
    var lv' := LinkAfter(lv, l, i, s);
    assert lv'[l][i] == a;
    if l == |lv| - 1 { assert lv'[l] == [a, s]; } else { LinkHasNoParent(mem, lv, l, i, s, left); }
  }

  /** The root starts at the least key. */
  lemma RootStart(mem: Mem, lv: Levels)
    requires |lv| > 0 && BLink(mem, lv)
    ensures |lv[|lv| - 1]| > 0 && lv[|lv| - 1][0] in mem && mem[lv[|lv| - 1][0]].lowest == 0
  {
    assert Tiles(mem, lv[|lv| - 1], |lv| - 1);
  }

  // -------------------------------------------------- what the cache learns

  /** The cache after page p of level l was read: a page of level 1 is offered to
      it once it is in use. */
  ghost predicate CacheAfter(use: bool, l: nat, p: Page, was: seq<CacheEntry>, free: int, es: seq<CacheEntry>, free': int) {
    if use && l == 1 then p.lowest < p.highest && Remembered(was, free, p, es, free')
    else es == was && free' == free
  }

  /** Just the level-1 page around k is cached. */
  ghost predicate Around(mem: Mem, lv: Levels, es: seq<CacheEntry>, k: Key) {
    |lv| > 1 && exists a :: a in lv[1] && HomePage(mem, a, es, k)
  }

  ghost predicate HomePage(mem: Mem, a: Addr, es: seq<CacheEntry>, k: Key) {
    a in mem && mem[a].Covers(k) && OnlyPage(es, mem[a])
  }

  /** What a descent from the root for k does to a cache with this many free
      pages: it is warm for k after a miss, and holds just the page around k if
      it held none. */
  ghost predicate Learned(mem: Mem, lv: Levels, k: Key, was: seq<CacheEntry>, free: int, es: seq<CacheEntry>) {
    free > 0 ==> (Misses(was, k) ==> Warm(mem, es, k)) && (NoPage(was) ==> Around(mem, lv, es, k))
  }

  lemma Learns(mem: Mem, lv: Levels, k: Key, a: Addr, past: set<Page>, was: seq<CacheEntry>, free: int, past': set<Page>, es: seq<CacheEntry>, free': int)
    requires BLink(mem, lv) && Complete(mem, lv, {}) && |lv| > 1 && a in lv[1] && a in mem && mem[a].Covers(k) && k < KEY_MAX
    requires CacheOk(mem, lv, past, was) && CacheOk(mem, lv, past', es) && CacheAfter(true, 1, mem[a], was, free, es, free')
    ensures Learned(mem, lv, k, was, free, es)
  {
    hide BLink, Complete, CacheOk, Remembered, Warm, Misses, NoPage;
    if free > 0 {
      if Misses(was, k) { RememberedWarm(mem, lv, past, was, free, a, k, past', es, free'); }
      if NoPage(was) {
        RememberedAlone(was, free, mem[a], es, free');
        assert HomePage(mem, a, es, k);
      }
    }
  }

  /** Pages keep their ranges, and internal pages all they hold. */
  ghost predicate SameRanges(mem: Mem, mem': Mem) {
    forall a :: a in mem ==> a in mem' && SameFences(mem[a], mem'[a])
  }

  lemma WarmStays(mem: Mem, mem': Mem, es: seq<CacheEntry>, k: Key)
    requires Warm(mem, es, k) && SameRanges(mem, mem')
    ensures Warm(mem', es, k)
  {
    var i: nat :| FirstFrom(es, k, i) && i < |es| && LeadsHome(mem, es[i], k);
    assert LeadsHome(mem', es[i], k);
  }

  /** The hit was good, and still is. */
  lemma KeepsWarm(mem: Mem, mem': Mem, es: seq<CacheEntry>, e: CacheEntry, k: Key)
    requires exists i: nat :: FirstFrom(es, k, i) && i < |es| && es[i] == e
    ensures LeadsHome(mem, e, k) && SameRanges(mem, mem') ==> Warm(mem', es, k)
    ensures LeadsHome(mem, e, k) ==> Warm(mem, es, k)
  {
    if LeadsHome(mem, e, k) {
      var i: nat :| FirstFrom(es, k, i) && i < |es| && es[i] == e;
      assert LeadsHome(mem, es[i], k);
      if SameRanges(mem, mem') { WarmStays(mem, mem', es, k); }
    }
  }

  /** A split lengthens the chain of its level and leaves the others alone. */
  lemma LinkLengths(lv: Levels, l: nat, i: nat, s: Addr)
    requires l < |lv| && i < |lv[l]|
    ensures if l == 0 then |LinkAfter(lv, l, i, s)[0]| == |lv[0]| + 1 else LinkAfter(lv, l, i, s)[0] == lv[0]
  {
  }

  lemma HasPage(es: seq<CacheEntry>, e: CacheEntry)
    requires e in es && e.page.Some?
    ensures !NoPage(es)
  {
  }

  lemma RootCovers(mem: Mem, lv: Levels, k: Key)
    requires |lv| > 0 && BLink(mem, lv) && |lv[|lv| - 1]| == 1 && k < KEY_MAX
    ensures var r := lv[|lv| - 1][0]; r in mem && mem[r].Covers(k)
  {
    assert Tiles(mem, lv[|lv| - 1], |lv| - 1);
  }

  /** A leaf whose sibling has been written can be shrunk. */
  lemma LeafSplitReady(mem: Mem, lv: Levels, kv: Kv, i: nat, s: Addr, k: Key, v: Value)
    requires BLink(mem, lv) && Holds(mem, lv[0], kv) && Complete(mem, lv, {}) && i < |lv[0]| && v != VALUE_NULL
    requires mem[lv[0][i]].Covers(k) && s in mem && s != NULL && Unlinked(lv, s)
    requires LeafOk(mem[lv[0][i]]) && AllLive(LeafPut(mem[lv[0][i]].records, k, v))
    requires mem[s] == LeafSplitRight(mem[lv[0][i]], LeafPut(mem[lv[0][i]].records, k, v))
    ensures var p := mem[lv[0][i]];
      var left := LeafSplitLeft(p, LeafPut(p.records, k, v), s);
      var mem', lv' := mem[lv[0][i] := left], LinkAfter(lv, 0, i, s);
      && BLink(mem', lv') && Holds(mem', lv'[0], kv[k := v]) && Extends(mem, lv, mem', lv') && Complete(mem', lv', {s})
      && Splits(p, s, left, mem[s]) && mem[s].lowest == LeafSplitKey(LeafPut(p.records, k, v)) < KEY_MAX && |lv'[0]| == |lv[0]| + 1
  {
    var p := mem[lv[0][i]];
    hide BLink, Holds, Complete, LinkAfter;
    LeafSplitStep(mem, lv, kv, i, s, k, v);
    LeafPutOk(p, k, v);
    LeafSplitOk(p, LeafPut(p.records, k, v), s);
    CompleteAfterLeafSplit(mem, lv, i, LeafSplitLeft(p, LeafPut(p.records, k, v), s), s, {});
    assert {s} == {} + {s};
    LinkLengths(lv, 0, i, s);
  }

  /** So can an internal page. */
  lemma InnerSplitReady(mem: Mem, lv: Levels, kv: Kv, l: nat, i: nat, k: Key, s: Addr, t: Addr)
    requires BLink(mem, lv) && Holds(mem, lv[0], kv) && 0 < l < |lv| && i < |lv[l]| && Complete(mem, lv, {s})
    requires mem[lv[l][i]].lowest < k < mem[lv[l][i]].highest && ChildOk(mem, lv[l - 1], s, k)
    requires t in mem && t != NULL && Unlinked(lv, t) && mem[lv[l][i]].Internal?
    requires |InnerPut(mem[lv[l][i]].entries, k, s)| == INTERNAL_CARD
    requires mem[t] == InnerSplitRight(mem[lv[l][i]], InnerPut(mem[lv[l][i]].entries, k, s))
    ensures var p := mem[lv[l][i]];
      var left := InnerSplitLeft(p, InnerPut(p.entries, k, s), t);
      var mem', lv' := mem[lv[l][i] := left], LinkAfter(lv, l, i, t);
      && BLink(mem', lv') && Holds(mem', lv'[0], kv) && Extends(mem, lv, mem', lv') && Complete(mem', lv', {t})
      && Splits(p, t, left, mem[t]) && mem[t].lowest < KEY_MAX && lv'[0] == lv[0]
  {
    assert lv[l][i] in lv[l];
    PageAt(mem, lv, l, lv[l][i]);
    hide BLink, Holds, Complete, LinkAfter, InnerPut, InnerSplitLeft, InnerSplitRight, ChildrenOk, EntriesOk, Unlinked, Extends, HasParent;
    InnerSplitStep(mem, lv, kv, l, i, k, s, t);
    InnerSplitComplete(mem, lv, l, i, k, s, t);
    LinkLengths(lv, l, i, t);
  }

  lemma InnerSplitComplete(mem: Mem, lv: Levels, l: nat, i: nat, k: Key, s: Addr, t: Addr)
    requires BLink(mem, lv) && 0 < l < |lv| && i < |lv[l]| && Complete(mem, lv, {s})
    requires mem[lv[l][i]].lowest < k < mem[lv[l][i]].highest && ChildOk(mem, lv[l - 1], s, k)
    requires t in mem && Unlinked(lv, t) && mem[lv[l][i]].Internal?
    requires |InnerPut(mem[lv[l][i]].entries, k, s)| == INTERNAL_CARD
    requires mem[t] == InnerSplitRight(mem[lv[l][i]], InnerPut(mem[lv[l][i]].entries, k, s))
    ensures var p := mem[lv[l][i]];
      Complete(mem[lv[l][i] := InnerSplitLeft(p, InnerPut(p.entries, k, s), t)], LinkAfter(lv, l, i, t), {t})
  {
    assert lv[l][i] in lv[l];
    PageAt(mem, lv, l, lv[l][i]);
    var p := mem[lv[l][i]];
    hide BLink, Complete, LinkAfter, InnerPut, InnerSplitLeft, InnerSplitRight, ChildrenOk, EntriesOk, Unlinked;
    InnerPutChildren(mem, lv, l - 1, p, k, s);
    assert {s} == {} + {s} && {t} == {} + {t};
    CompleteAfterInnerSplit(mem, lv, l, i, InnerPut(p.entries, k, s), s, t, {});
  }

  class Tree {
    var mem: Mem
    var rootPtr: Addr
    var gRootPtr: Addr
    var gRootLevel: int
    var enableCache: bool
    var nextFree: Addr
    const pathStack: array<Addr>
    const cache: Cache
    ghost var lv: Levels
    ghost var kv: Kv
    ghost var past: set<Page>  // the level-1 pages read so far

    /** What holds between any two page writes. */
    ghost predicate Base()
      reads this, cache
    {
      && Core(mem, lv, kv, nextFree)
      && CacheOk(mem, lv, past, cache.entries)
      && (enableCache <==> |lv| >= 4)
      && pathStack.Length == MAX_LEVEL
      && lv[|lv| - 1][0] == rootPtr
      && gRootPtr == (if |lv| == 1 then NULL else rootPtr)
      && gRootLevel == (if |lv| == 1 then -1 else |lv| - 1)
    }

    /** The tree between operations: one root page above levels that are
        completely indexed. */
    ghost predicate Valid()
      reads this, cache
    {
      Base() && Complete(mem, lv, {}) && |lv[|lv| - 1]| == 1
    }

    ghost predicate Stack(l: nat, b: Key)
      requires pathStack.Length == MAX_LEVEL
      reads this, pathStack
    {
      StackOk(mem, lv, pathStack[..], l, b)
    }

    constructor ()
      ensures Valid() && kv == map[] && |lv| == 1
      ensures fresh(pathStack) && fresh(cache)
    {
      pathStack := new Addr[MAX_LEVEL](_ => NULL);
      cache := new Cache(0);
      var root := Leaf(NULL, 0, KEY_MAX, Padded([], LEAF_CARD));
      mem, rootPtr, gRootPtr, gRootLevel, enableCache, nextFree := map[1 := root], 1, NULL, -1, false, 2;
      lv, kv, past := [[1]], map[], {};
      new;
      assert forall i :: 0 <= i < LEAF_CARD ==> !root.records[i].Live();
      assert LeafOk(root);
      assert Tiles(mem, lv[0], 0);
    }

    /** A fresh address for a new page. */
    method Alloc() returns (a: Addr)
      requires Base()
      modifies this`nextFree
      ensures Base() && a !in mem && a != NULL && a < nextFree && Unlinked(lv, a)
    {
      a := nextFree;
      nextFree := nextFree + 1;
    }

    // --------------------------------------------------------- one page read

    /** Offer a level-1 page that was just read to the cache. */
    method Remember(a: Addr)
      requires Base() && |lv| > 1 && a in lv[1] && a in mem
      modifies this`past, cache
      ensures Base() && mem[a].lowest < mem[a].highest
      ensures Remembered(old(cache.entries), old(cache.freePages), mem[a], cache.entries, cache.freePages)
    {
      hide BLink, Holds, PastOk, Remembered;
      CurrentIsPast(mem, lv, past, a);
      PastGrows(mem, lv, past, mem[a], cache.entries);
      past := past + {mem[a]};
      var _ := cache.AddToCache(mem[a], mem, lv, past);
    }

    method PageSearch(a: Addr, k: Key, fromCache: bool, ghost l: nat) returns (ok: bool, r: SearchResult)
      requires Base() && l < |lv| <= MAX_LEVEL && a in lv[l]
      requires mem[a].lowest <= k < KEY_MAX && (fromCache ==> l == 0)
      modifies this`past, pathStack, cache
      ensures Base() && pathStack[..] == old(pathStack[..])[l := a]
      ensures CacheAfter(enableCache, l, mem[a], old(cache.entries), old(cache.freePages), cache.entries, cache.freePages)
      ensures ok <==> !(fromCache && mem[a].highest <= k)
      ensures ok ==> r.isLeaf == (l == 0) && r.level == l
      ensures ok && mem[a].highest <= k ==> r.sibling == mem[a].sibling && r.val == VALUE_NULL
      ensures ok && k < mem[a].highest ==> r.sibling == NULL
      ensures ok && k < mem[a].highest && l == 0 ==> r.val == KvGet(kv, k)
      ensures ok && k < mem[a].highest && l > 0 ==> r.next == Route(mem[a].leftmost, mem[a].entries, k)
    {
      var p := mem[a];
      PageAt(mem, lv, l, a);
      assert l == 0 ==> Answers(p, kv, k);
      hide BLink, Holds, CacheOk, Remembered;
      ok, r := true, SearchResult(p.Leaf?, p.Level(), NULL, NULL, VALUE_NULL);
      pathStack[r.level] := a;
      if p.Leaf? {
        if fromCache && (k < p.lowest || k >= p.highest) {
          return false, r;
        }
        if k >= p.highest {
          r := r.(sibling := p.sibling);
          return;
        }
        var v := SearchLeaf(p, k);
        r := r.(val := v);
      } else {
        if r.level == 1 && enableCache {
          Remember(a);
        }
        if k >= p.highest {
          r := r.(sibling := p.sibling);
          return;
        }
        var next := SearchInternal(p, k);
        r := r.(next := next);
      }
    }

    // ------------------------------------------------------------- the leaves

    /** Store into the leaf a or, if the key moved right, a leaf beyond it.
        Answers false, and changes nothing, when a came from a stale cache entry. */
    method LeafPageStore(a: Addr, k: Key, v: Value, root: Addr, fromCache: bool) returns (ok: bool)
      requires Valid() && |lv| <= MAX_LEVEL && a in lv[0] && root == rootPtr
      requires mem[a].lowest <= k < KEY_MAX && v != VALUE_NULL
      requires if fromCache then enableCache && pathStack[1] == NULL else |lv| > 1 ==> Stack(0, mem[a].lowest)
      modifies this, pathStack, cache
      ensures Valid() && |old(lv)| <= |lv| <= |old(lv)| + 1
      ensures ok ==> kv == old(kv)[k := v]
      ensures ok <==> !fromCache || old(mem[a]).Covers(k)
      ensures !ok ==> kv == old(kv) && mem == old(mem) && lv == old(lv)
      ensures !ok ==> rootPtr == old(rootPtr) && enableCache == old(enableCache) && pathStack[..] == old(pathStack[..])
      ensures !ok ==> cache.entries == old(cache.entries) && cache.freePages == old(cache.freePages) && past == old(past)
      ensures ok && |lv[0]| == |old(lv)[0]| ==> cache.entries == old(cache.entries) && enableCache == old(enableCache) && SameRanges(old(mem), mem)
      decreases Rest(lv[0], a)
    {
      hide BLink, Holds, CacheOk, Complete;
      PageAt(mem, lv, 0, a);
      var p := mem[a];
      if fromCache && (k < p.lowest || k >= p.highest) {
        return false;
      }
      if k >= p.highest {
        TurnRight(mem, lv, 0, a, k);
        RightIsCloser(mem, lv, 0, a, k);
        ok := LeafPageStore(p.sibling, k, v, root, false);
        return;
      }
      StoreHere(a, k, v, root, fromCache);
      ok := true;
    }

    /** The locked leaf is read into a buffer and the record is put in there. */
    static method StoreInBuffer(p: Page, k: Key, v: Value) returns (page: LeafBuffer, slot: nat, needSplit: bool)
      requires LeafOk(p) && v != VALUE_NULL
      ensures fresh(page) && fresh(page.records) && page.Valid() && slot < |p.records| == page.records.Length
      ensures page.View() == p.(records := LeafPut(p.records, k, v))
      ensures page.records[..] == p.records[slot := page.records[slot]]
      ensures needSplit <==> AllLive(page.records[..])
    {
      page := new LeafBuffer();
      page.Load(p);
      slot, needSplit := page.Store(k, v);
    }

    /** The store into the locked leaf that covers the key. */
    method StoreHere(a: Addr, k: Key, v: Value, root: Addr, fromCache: bool)
      requires Valid() && |lv| <= MAX_LEVEL && a in lv[0] && a in mem && root == rootPtr
      requires mem[a].Covers(k) && v != VALUE_NULL
      requires if fromCache then enableCache && pathStack[1] == NULL else |lv| > 1 ==> Stack(0, mem[a].lowest)
      modifies this, pathStack, cache
      ensures Valid() && |old(lv)| <= |lv| <= |old(lv)| + 1
      ensures kv == old(kv)[k := v]
      ensures |lv[0]| == |old(lv)[0]| + (if old(LeafOk(mem[a]) && AllLive(LeafPut(mem[a].records, k, v))) then 1 else 0)
      ensures |lv[0]| == |old(lv)[0]| ==> cache.entries == old(cache.entries) && enableCache == old(enableCache) && SameRanges(old(mem), mem)
    {
      hide BLink, Holds, CacheOk, Complete, LeafPut, AllLive;
      PageAt(mem, lv, 0, a);
      var page, slot, needSplit := StoreInBuffer(mem[a], k, v);
      LeafPutStep(mem, lv, kv, a, k, v);
      if !needSplit {
        WriteRecord(a, slot, page.records[slot], kv[k := v]);
      } else {
        var splitKey, sib := SplitLeaf(a, k, v, page);
        PropagateUp(0, splitKey, sib, root, a, fromCache);
      }
    }

    /** One record of a leaf goes back to remote memory. */
    method WriteRecord(a: Addr, slot: nat, e: LeafEntry, ghost kv': Kv)
      requires Base() && Complete(mem, lv, {}) && a in lv[0] && mem[a].Leaf? && slot < |mem[a].records|
      requires var mem' := mem[a := mem[a].(records := mem[a].records[slot := e])];
               BLink(mem', lv) && Holds(mem', lv[0], kv') && Extends(mem, lv, mem', lv)
      modifies this`mem, this`kv
      ensures Base() && Complete(mem, lv, {}) && kv == kv'
      ensures mem == old(mem)[a := old(mem)[a].(records := old(mem)[a].records[slot := e])]
    {
      hide BLink, Holds, CacheOk, Complete;
      var p := mem[a].(records := mem[a].records[slot := e]);
      CompleteAtLeaves(mem, lv, a, p, {});
      if |lv| > 1 { UpdateNarrows(mem, lv[1], a, p); }
      CacheSurvives(mem, lv, mem[a := p], lv, past, cache.entries);
      mem := mem[a := p];
      kv := kv';
    }

    /** A page was split and the separator k of its new sibling still has to
        reach the level above. */
    ghost predicate Pending(l: nat, a: Addr, k: Key, sib: Addr)
      reads this, cache
    {
      && Base() && Complete(mem, lv, {sib})
      && l < |lv| && a in lv[l] && ChildOk(mem, lv[l], sib, k) && mem[a].lowest < k < KEY_MAX
      && (if l == |lv| - 1 then lv[l] == [a, sib] else |lv[|lv| - 1]| == 1)
      && (l + 1 < |lv| ==> !HasParent(mem, lv[l + 1], sib))
    }

    /** Sort the full leaf, move its upper half to a new sibling, write the
        sibling and then the page. */
    method SplitLeaf(a: Addr, k: Key, v: Value, page: LeafBuffer) returns (splitKey: Key, sib: Addr)
      requires Valid() && a in lv[0] && mem[a].Covers(k) && v != VALUE_NULL && LeafOk(mem[a])
      requires page.Valid() && page.View() == mem[a].(records := LeafPut(mem[a].records, k, v))
      requires AllLive(page.records[..])
      modifies this`mem, this`nextFree, this`lv, this`kv, page, page.records
      ensures Pending(0, a, splitKey, sib)
      ensures kv == old(kv)[k := v] && |lv| == |old(lv)| && Extends(old(mem), old(lv), mem, lv)
      ensures |lv[0]| == |old(lv)[0]| + 1
    {
      hide BLink, Holds, CacheOk, Complete, Extends, LeafSplitLeft, LeafSplitRight, LeafSplitKey, SortByKey, LeafPut, Padded, LinkAfter;
      PageAt(mem, lv, 0, a);
      ghost var p, rs := mem[a], page.records[..];
      page.Sort();
      SortedAlready(page.records[..]);
      ghost var q := page.View();
      sib := Alloc();
      var sibling := new LeafBuffer();
      splitKey := page.Split(sibling, sib);
      SplitOfSorted(p, q, rs, sib);
      assert page.View() == LeafSplitLeft(p, rs, sib) && sibling.View() == LeafSplitRight(p, rs);
      WritePrivate(sib, sibling.View(), {});
      ghost var i :| 0 <= i < |lv[0]| && lv[0][i] == a;
      LeafSplitReady(mem, lv, kv, i, sib, k, v);
      ghost var mem1 := mem;
      WriteSplitPage(0, i, a, sib, page.View(), kv[k := v]);
      ExtendsTransitive(old(mem), old(lv), mem1, old(lv), mem, lv);
    }

    /** A new page is written while nothing links to it. */
    method WritePrivate(a: Addr, p: Page, ghost missing: set<Addr>)
      requires Base() && Complete(mem, lv, missing) && a !in mem && a < nextFree && Unlinked(lv, a)
      modifies this`mem
      ensures Base() && Complete(mem, lv, missing) && mem == old(mem)[a := p]
      ensures Extends(old(mem), lv, mem, lv)
    {
      hide BLink, Holds, CacheOk, Complete;
      AddPage(mem, lv, a, p);
      CompleteNewPage(mem, lv, a, p, missing);
      NewPageHolds(mem, lv, kv, a, p);
      if |lv| > 1 { LinkedElsewhere(mem, lv, 1, a); SameNarrows(mem, lv[1], mem[a := p]); }
      CacheSurvives(mem, lv, mem[a := p], lv, past, cache.entries);
      mem := mem[a := p];
    }

    /** The shrunken page is written last; that links the sibling. */
    method WriteSplitPage(ghost l: nat, ghost i: nat, a: Addr, ghost s: Addr, left: Page, ghost kv': Kv)
      requires Base() && |lv[|lv| - 1]| == 1 && l < |lv| && i < |lv[l]| && lv[l][i] == a
      requires s in mem && s != NULL && Unlinked(lv, s) && Splits(mem[a], s, left, mem[s])
      requires var mem' := mem[a := left]; var lv' := LinkAfter(lv, l, i, s);
               && BLink(mem', lv') && Holds(mem', lv'[0], kv') && Extends(mem, lv, mem', lv')
               && Complete(mem', lv', {s})
      requires mem[s].lowest < KEY_MAX
      modifies this`mem, this`lv, this`kv
      ensures Pending(l, a, old(mem[s].lowest), s) && kv == kv' && mem == old(mem)[a := left]
      ensures lv == LinkAfter(old(lv), l, i, s) && Extends(old(mem), old(lv), mem, lv)
    {
      hide BLink, Holds, CacheOk, Complete, Splits, Extends, LinkAfter, Unlinked, HasParent, ChildOk;
      SplitCache(mem, lv, l, i, a, s, left, past, cache.entries);
      PendingAfter(mem, lv, l, i, a, s, left);
      mem := mem[a := left];
      lv := LinkAfter(lv, l, i, s);
      kv := kv';
    }

    // -------------------------------------------------------- internal levels

    /** Put the separator of a split page into the level above: into a new root
        when the root itself was split, else into the page the traversal came
        through, or, coming from the cache, into one found from the root. */
    method PropagateUp(l: nat, k: Key, sib: Addr, root: Addr, a: Addr, fromCache: bool)
      requires Pending(l, a, k, sib) && |lv| <= MAX_LEVEL && root == rootPtr
      requires l < |lv| - 1 ==> (fromCache && l == 0 && enableCache && pathStack[1] == NULL) || Stack(l, mem[a].lowest)
      modifies this, pathStack, cache
      ensures Valid() && kv == old(kv) && |old(lv)| <= |lv| <= |old(lv)| + 1 && lv[0] == old(lv)[0]
      decreases |lv| - l, 0, 0
    {
      hide BLink, Holds, CacheOk, Complete;
      if root == a {
        assert l == |lv| - 1 by { LevelsDisjoint(mem, lv, l, |lv| - 1, a); }
        var done := UpdateNewRoot(a, k, sib, l + 1, root);
        return;
      }
      PageAt(mem, lv, l, a);
      var up := pathStack[l + 1];
      if up != NULL {
        InternalPageStore(up, k, sib, root, l + 1);
      } else {
        if Stack(l, mem[a].lowest) { PageAt(mem, lv, l + 1, up); }
        InsertInternal(k, sib, l + 1);
      }
    }

    /** Install a new root over a split one. */
    method UpdateNewRoot(left: Addr, k: Key, right: Addr, level: nat, oldRoot: Addr) returns (ok: bool)
      requires level > 0 && Pending(level - 1, left, k, right) && level == |lv| && left == oldRoot == rootPtr
      modifies this`mem, this`nextFree, this`lv, this`rootPtr, this`gRootPtr, this`gRootLevel, this`enableCache
      ensures ok && Valid() && kv == old(kv) && |lv| == |old(lv)| + 1 && lv[0] == old(lv)[0]
    {
      hide BLink, Holds, CacheOk, Complete, HasParent, ChildOk;
      var page := new InternalBuffer.Root(left, k, right, level);
      var a := Alloc();
      ChildStays(mem, lv[level - 1], right, k, a, page.View());
      WritePrivate(a, page.View(), {right});
      if rootPtr == oldRoot {
        SwapRoot(a, left, k, right);
        // The directories adopt a root above the one they know.
        if gRootLevel < level {
          gRootPtr := a;
          gRootLevel := level;
          if gRootLevel >= 3 {
            enableCache := true;
          }
        }
        return true;
      }
      ok := false;
    }

    /** The compare-and-swap of the root pointer, which finds the old root. */
    method SwapRoot(a: Addr, ghost left: Addr, ghost k: Key, ghost right: Addr)
      requires Base() && Complete(mem, lv, {right}) && lv[|lv| - 1] == [left, right]
      requires a in mem && a != NULL && Unlinked(lv, a) && mem[a] == NewRoot(|lv|, left, k, right)
      requires ChildOk(mem, lv[|lv| - 1], right, k) && 0 < k < KEY_MAX
      modifies this`rootPtr, this`lv
      ensures Core(mem, lv, kv, nextFree) && CacheOk(mem, lv, past, cache.entries)
      ensures rootPtr == a && lv == old(lv) + [[a]] && Complete(mem, lv, {})
    {
      hide BLink, Holds, CacheOk, Complete, HasParent, ChildOk;
      GrowStep(mem, lv, k, right, a);
      CompleteAfterGrow(mem, lv, left, k, right, a);
      if |lv| > 1 { SameLinked(mem, lv, 1); SameNarrows(mem, lv[1], mem); }
      CacheSurvives(mem, lv, mem, lv + [[a]], past, cache.entries);
      rootPtr := a;
      lv := lv + [[a]];
    }

    /** The locked page is read into a buffer and the separator is put in there. */
    static method InsertInBuffer(p: Page, k: Key, v: Addr) returns (page: InternalBuffer)
      requires p.Internal? && |p.entries| < INTERNAL_CARD && SortedEntries(p.entries)
      ensures fresh(page) && fresh(page.records) && page.Valid()
      ensures page.View() == p.(entries := InnerPut(p.entries, k, v))
    {
      page := new InternalBuffer(p.level);
      page.Load(p);
      page.Insert(k, v);
    }

    /** Add separator k with child v to page a of `level`, or to a page right of
        it, splitting on the way up. */
    method InternalPageStore(a: Addr, k: Key, v: Addr, root: Addr, level: nat)
      requires Base() && Complete(mem, lv, {v}) && 0 < level < |lv| <= MAX_LEVEL && |lv[|lv| - 1]| == 1
      requires a in lv[level] && ChildOk(mem, lv[level - 1], v, k) && mem[a].lowest <= k < KEY_MAX
      requires !HasParent(mem, lv[level], v)
      requires root == rootPtr && Stack(level, mem[a].lowest)
      modifies this, pathStack, cache
      ensures Valid() && kv == old(kv) && |old(lv)| <= |lv| <= |old(lv)| + 1 && lv[0] == old(lv)[0]
      decreases |lv| - level, 1, Rest(lv[level], a)
    {
      hide BLink, Holds, CacheOk, Complete, Extends, InnerPut, ChildrenOk, HasParent;
      PageAt(mem, lv, level, a);
      var p := mem[a];
      if k >= p.highest {
        TurnRight(mem, lv, level, a, k);
        RightIsCloser(mem, lv, level, a, k);
        InternalPageStore(p.sibling, k, v, root, level);
        return;
      }
      StrictlyInside(mem, lv, level, a, k, v);
      var page := InsertInBuffer(p, k, v);
      InnerPutStep(mem, lv, kv, level, a, k, v);
      if page.lastIndex + 1 < INTERNAL_CARD {
        WriteInternal(a, page.View(), level, k, v);
      } else {
        ghost var mem0, lv0, b := mem, lv, mem[a].lowest;
        var splitKey, sib := SplitInternal(a, k, v, page, level);
        StackExtends(mem0, lv0, mem, lv, pathStack[..], level, b);
        FenceStays(mem0, lv0, mem, lv, level, a);
        PropagateUp(level, splitKey, sib, root, a, false);
      }
    }

    method WriteInternal(a: Addr, p: Page, ghost l: nat, ghost k: Key, ghost v: Addr)
      requires Base() && Complete(mem, lv, {v}) && 0 < l < |lv| && a in lv[l] && SameFences(mem[a], p)
      requires v in lv[l - 1] && p.Internal? && |p.entries| < INTERNAL_CARD
      requires mem[a].lowest < k < mem[a].highest && ChildOk(mem, lv[l - 1], v, k) && p == mem[a].(entries := InnerPut(mem[a].entries, k, v))
      modifies this`mem
      ensures Base() && Complete(mem, lv, {}) && mem == old(mem)[a := p]
    {
      hide BLink, Holds, CacheOk, Complete, HasParent, ChildOk, InnerPut, SameFences;
      PageAt(mem, lv, l, a);
      InternalWritten(mem, lv, kv, past, cache.entries, l, a, k, v);
      mem := mem[a := p];
    }

    method SplitInternal(a: Addr, k: Key, v: Addr, page: InternalBuffer, l: nat) returns (splitKey: Key, sib: Addr)
      requires Base() && Complete(mem, lv, {v}) && 0 < l < |lv| && a in lv[l] && |lv[|lv| - 1]| == 1
      requires mem[a].lowest < k < mem[a].highest && mem[a].Internal? && ChildOk(mem, lv[l - 1], v, k)
      requires page.Valid() && page.View() == mem[a].(entries := InnerPut(mem[a].entries, k, v))
      requires page.lastIndex == INTERNAL_CARD - 1
      modifies this`mem, this`nextFree, this`lv, this`kv, page, page.records
      ensures Pending(l, a, splitKey, sib)
      ensures kv == old(kv) && |lv| == |old(lv)| && Extends(old(mem), old(lv), mem, lv) && lv[0] == old(lv)[0]
    {
      hide BLink, Holds, CacheOk, Complete, Extends, InnerSplitLeft, InnerSplitRight, InnerPut, LinkAfter, EntriesOk, ChildrenOk, PageOk;
      PageAt(mem, lv, l, a);
      ghost var p, page0, es := mem[a], page.View(), page.Entries();
      sib := Alloc();
      var sibling := new InternalBuffer(page.level);
      splitKey := page.Split(sibling, sib);
      SplitByFences(p, page0, es, sib);
      assert page.View() == InnerSplitLeft(p, es, sib) && sibling.View() == InnerSplitRight(p, es);
      WritePrivate(sib, sibling.View(), {v});
      ghost var i :| 0 <= i < |lv[l]| && lv[l][i] == a;
      InnerSplitReady(mem, lv, kv, l, i, k, v, sib);
      ghost var mem1 := mem;
      WriteSplitPage(l, i, a, sib, page.View(), kv);
      ExtendsTransitive(old(mem), old(lv), mem1, old(lv), mem, lv);
    }

    method GetRootPtr() returns (root: Addr)
      requires Base()
      ensures root == rootPtr
    {
      if gRootPtr == NULL { return rootPtr; }
      root := gRootPtr;
    }

    /** Read an internal page and step right or down. */
    method DescendOne(a: Addr, k: Key, ghost l: nat) returns (next: Addr, at: int, ghost l': nat)
      requires Base() && 0 < l < |lv| <= MAX_LEVEL && a in lv[l] && mem[a].lowest <= k < KEY_MAX
      requires Stack(l, mem[a].lowest)
      modifies this`past, pathStack, cache
      ensures Base() && (at == -1 || at == l)
      ensures if at == -1 then l' == l && Rest(lv[l], next) < Rest(lv[l], a) else l' == l - 1 && pathStack[l] == a
      ensures next in lv[l'] && next in mem && mem[next].lowest <= k && Stack(l', mem[next].lowest)
      ensures CacheAfter(enableCache, l, mem[a], old(cache.entries), old(cache.freePages), cache.entries, cache.freePages)
      ensures Complete(mem, lv, {}) && mem[a].Covers(k) ==> at == l && mem[next].Covers(k)
    {
      hide BLink, Holds, CacheOk, Complete, StackOk, Rest, Route, CacheAfter;
      PageAt(mem, lv, l, a);
      if Complete(mem, lv, {}) && mem[a].Covers(k) { RoutesHome(mem, lv, l, a, k); }
      ghost var stack := pathStack[..];
      var _, r := PageSearch(a, k, false, l);
      if r.sibling != NULL {
        TurnRight(mem, lv, l, a, k);
        RightIsCloser(mem, lv, l, a, k);
        next, at, l' := r.sibling, -1, l;
        PageAt(mem, lv, l', next);
        StackRight(mem, lv, stack, l, a, mem[a].lowest, mem[next].lowest);
      } else {
        if mem[a].highest <= k { TurnRight(mem, lv, l, a, k); }
        DescendsTo(mem, lv, l, a, k);
        next, at, l' := r.next, r.level, l - 1;
        PageAt(mem, lv, l', next);
        StackDown(mem, lv, stack, l, a, mem[next].lowest);
      }
    }

    /** Find the page of `level` for separator k from the root, and store there. */
    method InsertInternal(k: Key, v: Addr, level: nat)
      requires Base() && Complete(mem, lv, {v}) && 0 < level < |lv| - 1 && |lv| <= MAX_LEVEL && |lv[|lv| - 1]| == 1
      requires ChildOk(mem, lv[level - 1], v, k) && k < KEY_MAX && !HasParent(mem, lv[level], v)
      modifies this, pathStack, cache
      ensures Valid() && kv == old(kv) && |old(lv)| <= |lv| <= |old(lv)| + 1 && lv[0] == old(lv)[0]
      decreases |lv| - level, 2, 0
    {
      hide BLink, Holds, CacheOk, Complete;
      var root := GetRootPtr();
      var p := root;
      ghost var l: nat := |lv| - 1;
      RootStart(mem, lv);
      var at := -1;
      while at != level + 1
        invariant Base() && mem == old(mem) && lv == old(lv) && kv == old(kv) && rootPtr == root
        invariant level <= l < |lv| && p in lv[l] && p in mem && mem[p].lowest <= k && Stack(l, mem[p].lowest)
        invariant if at == level + 1 then l == level else l > level
        decreases l, Rest(lv[l], p)
      {
        p, at, l := DescendOne(p, k, l);
      }
      InternalPageStore(p, k, v, root, level);
    }

    // ------------------------------------------------------------- deletion

    method LeafPageDel(a: Addr, k: Key, fromCache: bool) returns (ok: bool)
      requires Valid() && a in lv[0] && a in mem && mem[a].lowest <= k < KEY_MAX
      modifies this`mem, this`kv
      ensures Valid()
      ensures ok ==> kv == old(kv) - {k} && SameRanges(old(mem), mem)
      ensures ok <==> !fromCache || old(mem[a]).Covers(k)
      ensures !ok ==> kv == old(kv) && mem == old(mem)
      decreases Rest(lv[0], a)
    {
      hide BLink, Holds, CacheOk, Complete;
      PageAt(mem, lv, 0, a);
      var p := mem[a];
      if fromCache && (k < p.lowest || k >= p.highest) {
        return false;
      }
      if k >= p.highest {
        TurnRight(mem, lv, 0, a, k);
        RightIsCloser(mem, lv, 0, a, k);
        PageAt(mem, lv, 0, p.sibling);
        ok := LeafPageDel(p.sibling, k, false);
        return;
      }
      DeleteHere(a, k);
      ok := true;
    }

    /** The removal from the locked leaf that covers the key. */
    method DeleteHere(a: Addr, k: Key)
      requires Valid() && a in lv[0] && a in mem && mem[a].Covers(k)
      modifies this`mem, this`kv
      ensures Valid() && kv == old(kv) - {k} && SameRanges(old(mem), mem)
    {
      hide BLink, Holds, CacheOk, Complete;
      PageAt(mem, lv, 0, a);
      var page := new LeafBuffer();
      page.Load(mem[a]);
      var found, slot := page.Remove(k);
      LeafRemoveStep(mem, lv, kv, a, k);
      if found {
        WriteRecord(a, slot, page.records[slot], kv - {k});
      } else {
        AbsentIsAbsent(mem, lv, kv, a, k);
      }
    }

    // ------------------------------------------------- the three operations

    method BeforeOperation()
      requires pathStack.Length == MAX_LEVEL
      modifies pathStack
      ensures forall i :: 0 <= i < MAX_LEVEL ==> pathStack[i] == NULL
    {
      var i := 0;
      while i < MAX_LEVEL
        invariant 0 <= i <= MAX_LEVEL && forall j :: 0 <= j < i ==> pathStack[j] == NULL
      {
        pathStack[i] := NULL;
        i := i + 1;
      }
    }

    /** A leaf that starts no later than k, reached from the root. */
    method FindLeaf(k: Key, root: Addr) returns (p: Addr)
      requires Valid() && |lv| <= MAX_LEVEL && k < KEY_MAX && root == rootPtr
      modifies this`past, pathStack, cache
      ensures Valid() && p in lv[0] && p in mem && mem[p].lowest <= k
      ensures |lv| > 1 ==> Stack(0, mem[p].lowest)
      ensures enableCache ==> Learned(mem, lv, k, old(cache.entries), old(cache.freePages), cache.entries)
    {
      hide BLink, Holds, CacheOk, Complete, Learned, Remembered;
      p := root;
      ghost var l: nat := |lv| - 1;
      RootStart(mem, lv);
      PageAt(mem, lv, l, p);
      if mem[p].Leaf? {
        var _, _ := PageSearch(p, k, false, 0);
        return;
      }
      RootCovers(mem, lv, k);
      var at := -1;
      while at != 1
        invariant Base() && l < |lv| && p in lv[l] && p in mem && mem[p].Covers(k) && Stack(l, mem[p].lowest)
        invariant if at == 1 then l == 0 && (enableCache ==> Learned(mem, lv, k, old(cache.entries), old(cache.freePages), cache.entries)) else l > 0
        invariant l > 0 ==> cache.entries == old(cache.entries) && cache.freePages == old(cache.freePages)
        decreases l, Rest(lv[l], p)
      {
        ghost var a, was := p, past;
        p, at, l := DescendOne(p, k, l);
        if l == 0 && enableCache { Learns(mem, lv, k, a, was, old(cache.entries), old(cache.freePages), past, cache.entries, cache.freePages); }
      }
    }

    /** Look k up in the cache; a hit names a leaf that starts no later than k. */
    method Lookup(k: Key) returns (hit: bool, addr: Addr, entry: CacheEntry)
      requires Base()
      ensures hit ==> addr in lv[0] && addr in mem && mem[addr].lowest <= k
      ensures hit ==> (exists i: nat :: FirstFrom(cache.entries, k, i) && i < |cache.entries| && cache.entries[i] == entry)
      ensures hit ==> entry in cache.entries && entry.page.Some? && (mem[addr].Covers(k) <==> LeadsHome(mem, entry, k))
      ensures !hit ==> Misses(cache.entries, k)
      ensures Warm(mem, cache.entries, k) ==> hit && mem[addr].Covers(k)
    {
      hide BLink, Holds;
      CachedPagesOk(mem, lv, past, cache.entries);
      hit, addr, entry := cache.SearchFromCache(k);
      if hit { SnapshotLeads(mem, lv, past, cache.entries, entry, k); }
      forall i: nat, j: nat | FirstFrom(cache.entries, k, i) && FirstFrom(cache.entries, k, j) ensures i == j { OneFirst(cache.entries, k, i, j); }
    }

    /** The stale entry that was found for k loses its page. */
    method Drop(entry: CacheEntry, ghost k: Key)
      requires Base()
      requires exists i: nat :: FirstFrom(cache.entries, k, i) && i < |cache.entries| && cache.entries[i] == entry
      modifies cache`entries
      ensures Base() && Invalidated(old(cache.entries), entry.from, entry.to, cache.entries)
      ensures Misses(cache.entries, k)
    {
      hide BLink, Holds;
      cache.Invalidate(entry.from, entry.to);
      WeakerOk(mem, lv, past, old(cache.entries), cache.entries);
      ghost var i: nat :| FirstFrom(old(cache.entries), k, i) && i < |old(cache.entries)| && old(cache.entries)[i] == entry;
      DroppedMisses(old(cache.entries), k, entry, cache.entries, i);
    }

    /** insert is map update, whatever the cache holds. */
    method Insert(k: Key, v: Value)
      requires Valid() && |lv| <= MAX_LEVEL && k < KEY_MAX && v != VALUE_NULL
      modifies this, pathStack, cache
      ensures Valid() && kv == old(kv)[k := v] && |old(lv)| <= |lv| <= |old(lv)| + 1
      ensures enableCache && old(cache.freePages) > 0 && |lv[0]| == |old(lv)[0]| ==> Warm(mem, cache.entries, k)
    {
      hide BLink, Holds, CacheOk, Complete, Warm, Misses;
      BeforeOperation();
      if enableCache {
        var hit, addr, entry := Lookup(k);
        if hit {
          var root := GetRootPtr();
          var ok := LeafPageStore(addr, k, v, root, true);
          if ok {
            KeepsWarm(old(mem), mem, old(cache.entries), entry, k);
            return;
          }
          Drop(entry, k);
        }
      }
      var root := GetRootPtr();
      var p := FindLeaf(k, root);
      ghost var es := cache.entries;
      var _ := LeafPageStore(p, k, v, root, false);
      if Warm(old(mem), es, k) && |lv[0]| == |old(lv)[0]| { WarmStays(old(mem), mem, es, k); }
    }

    /** del is map removal. */
    method Del(k: Key)
      requires Valid() && |lv| <= MAX_LEVEL && k < KEY_MAX
      modifies this, pathStack, cache
      ensures Valid() && kv == old(kv) - {k} && lv == old(lv)
      ensures enableCache && old(cache.freePages) > 0 ==> Warm(mem, cache.entries, k)
    {
      hide BLink, Holds, CacheOk, Complete, Warm, Misses;
      BeforeOperation();
      if enableCache {
        var hit, addr, entry := Lookup(k);
        if hit {
          var ok := LeafPageDel(addr, k, true);
          if ok {
            KeepsWarm(old(mem), mem, cache.entries, entry, k);
            return;
          }
          Drop(entry, k);
        }
      }
      var root := GetRootPtr();
      var p := FindLeaf(k, root);
      var _ := LeafPageDel(p, k, false);
      if Warm(old(mem), cache.entries, k) { WarmStays(old(mem), mem, cache.entries, k); }
    }

    /** search is map lookup, and changes nothing but the cache, which with a free
        page leads to the leaf of k from now on. */
    method Search(k: Key) returns (found: bool, v: Value)
      requires Valid() && |lv| <= MAX_LEVEL && k < KEY_MAX
      modifies this`past, pathStack, cache
      ensures Valid() && (found <==> k in kv) && (found ==> v == kv[k])
      ensures enableCache && old(cache.freePages) > 0 ==> Warm(mem, cache.entries, k)
      ensures enableCache && old(cache.freePages) > 0 && NoPage(old(cache.entries)) ==> Around(mem, lv, cache.entries, k)
    {
      hide BLink, Holds, CacheOk, Complete, Warm, Misses, NoPage, Around, Remembered, FirstFrom, LeadsHome, Route, Rest;
      KvGetIsLookup(mem, lv, kv, k);
      RootStart(mem, lv);
      var root := GetRootPtr();
      var p, fromCache := root, false;
      ghost var l: nat := |lv| - 1;
      var entry := CacheEntry(0, 0, None);
      if enableCache {
        var hit, addr;
        hit, addr, entry := Lookup(k);
        if hit {
          p, fromCache, l := addr, true, 0;
          KeepsWarm(mem, mem, cache.entries, entry, k);
          HasPage(cache.entries, entry);
        }
      }
      ghost var es, free := cache.entries, cache.freePages;
      RootCovers(mem, lv, k);
      while true
        invariant Base() && l < |lv| && p in lv[l] && p in mem && mem[p].lowest <= k && (fromCache ==> l == 0)
        invariant l > 0 ==> mem[p].Covers(k)
        invariant enableCache == old(enableCache) && free == old(cache.freePages)
        invariant es == old(cache.entries) || !NoPage(old(cache.entries))
        invariant fromCache ==> es == cache.entries && !NoPage(es) && cache.freePages == free && (mem[p].Covers(k) ==> Warm(mem, es, k))
        invariant fromCache ==> exists i: nat :: FirstFrom(cache.entries, k, i) && i < |cache.entries| && cache.entries[i] == entry
        invariant !fromCache && enableCache ==> Misses(es, k)
        invariant l > 0 ==> cache.entries == es && cache.freePages == free
        invariant !fromCache && l == 0 && enableCache ==> Learned(mem, lv, k, es, free, cache.entries)
        decreases fromCache, l, Rest(lv[l], p)
      {
        PageAt(mem, lv, l, p);
        ghost var was := past;
        var ok, r := PageSearch(p, k, fromCache, l);
        if !ok {
          Drop(entry, k);
          es := cache.entries;
          fromCache, p, l := false, root, |lv| - 1;
          continue;
        }
        if k >= mem[p].highest {
          TurnRight(mem, lv, l, p, k);
          RightIsCloser(mem, lv, l, p, k);
        }
        if r.isLeaf {
          if r.val != VALUE_NULL {
            return true, r.val;
          }
          if r.sibling == NULL {
            return false, VALUE_NULL;
          }
          p := r.sibling;
        } else if r.sibling != NULL {
          p := r.sibling;
        } else {
          DescendsTo(mem, lv, l, p, k);
          RoutesHome(mem, lv, l, p, k);
          if l == 1 && enableCache { Learns(mem, lv, k, p, was, es, free, past, cache.entries, cache.freePages); }
          p, l := r.next, l - 1;
        }
        PageAt(mem, lv, l, p);
      }
    }

    /** Any valid tree can be queried through its own cache. */
    method RangeQuery(from: Key, to: Key, out: array<Value>) returns (counter: nat)
      requires Valid()
      requires |Ranges.Result(mem, cache.entries, from, to)| <= out.Length
      modifies out
      ensures Ranges.Filled(out, counter, Ranges.Result(mem, cache.entries, from, to))
      ensures from <= to && Ranges.Reached(mem, lv, cache.entries, from, to) ==> Ranges.ListsOnce(out[..counter], kv, from, to)
    {
      hide BLink, Holds, CacheOk, Complete;
      hide Ranges.ReachOver, Ranges.CachedPages, Ranges.ListsOnce;
      Ranges.CacheIsFit(mem, lv, past, cache.entries, from, to);
      counter := Ranges.Query(cache, mem, from, to, out);
      if from <= to && Ranges.Reached(mem, lv, cache.entries, from, to) {
        Ranges.BufferLists(mem, lv, kv, past, cache.entries, from, to, out, counter);
      }
    }

    /** A key that was looked up on a cache without pages is then found by a range
        query, although that relies on the cache alone. */
    method SearchThenScan(k: Key, out: array<Value>) returns (counter: nat)
      requires Valid() && |lv| <= MAX_LEVEL && k < KEY_MAX && out.Length > 0
      requires enableCache && cache.freePages > 0 && NoPage(cache.entries)
      modifies this`past, pathStack, cache, out
      ensures if k in kv then counter == 1 && out[0] == kv[k] else counter == 0
    {
      hide BLink, Holds, CacheOk, Complete, Warm, NoPage;
      hide Ranges.Reached, Ranges.CachedPages, Ranges.ListsOnce, Ranges.Result;
      var _, _ := Search(k);
      ghost var a :| a in lv[1] && HomePage(mem, a, cache.entries, k);
      Ranges.OnePageReaches(mem, lv, past, cache.entries, a, k, k);
      Ranges.OneResult(mem, lv, kv, past, cache.entries, k);
      counter := RangeQuery(k, k, out);
      Ranges.ListsOneKey(out[..counter], kv, k);
    }
  }

  lemma AbsentIsAbsent(mem: Mem, lv: Levels, kv: Kv, a: Addr, k: Key)
    requires BLink(mem, lv) && Holds(mem, lv[0], kv) && a in lv[0] && mem[a].Covers(k) && LeafOk(mem[a])
    requires FindLive(mem[a].records, k) == LEAF_CARD
    ensures kv - {k} == kv
  {
    assert Answers(mem[a], kv, k);
  }

  lemma KvGetIsLookup(mem: Mem, lv: Levels, kv: Kv, k: Key)
    requires |lv| > 0 && Holds(mem, lv[0], kv)
    ensures KvGet(kv, k) != VALUE_NULL <==> k in kv
    ensures k in kv ==> KvGet(kv, k) == kv[k]
  {
  }

  /** Writing back an internal page with one separator more. */
  lemma InternalWritten(mem: Mem, lv: Levels, kv: Kv, past: set<Page>, es: seq<CacheEntry>, l: nat, a: Addr, k: Key, v: Addr)
    requires BLink(mem, lv) && 0 < l < |lv| && Holds(mem, lv[0], kv) && CacheOk(mem, lv, past, es) && Complete(mem, lv, {v})
    requires a in lv[l] && a in mem && mem[a].Internal? && mem[a].lowest < k < mem[a].highest && ChildOk(mem, lv[l - 1], v, k)
    requires |InnerPut(mem[a].entries, k, v)| < INTERNAL_CARD
    ensures var mem' := mem[a := mem[a].(entries := InnerPut(mem[a].entries, k, v))];
      BLink(mem', lv) && Holds(mem', lv[0], kv) && CacheOk(mem', lv, past, es) && Complete(mem', lv, {})
  {
    hide BLink, Holds, CacheOk, Complete, HasParent;
    PageAt(mem, lv, l, a);
    var p := mem[a].(entries := InnerPut(mem[a].entries, k, v));
    InnerPutStep(mem, lv, kv, l, a, k, v);
    InnerPutChildren(mem, lv, l - 1, mem[a], k, v);
    assert {v} == {} + {v};
    CompleteAfterPut(mem, lv, l, a, p, v, {});
    UpdateNarrows(mem, lv[1], a, p);
    CacheSurvives(mem, lv, mem[a := p], lv, past, es);
  }

  lemma SameLinked(mem: Mem, lv: Levels, l: nat)
    requires BLink(mem, lv) && l < |lv|
    ensures forall b :: b in lv[l] ==> b in mem
  {
    hide BLink;
    forall b | b in lv[l] ensures b in mem { PageAt(mem, lv, l, b); }
  }

  lemma LinkedElsewhere(mem: Mem, lv: Levels, l: nat, s: Addr)
    requires BLink(mem, lv) && l < |lv| && s !in mem
    ensures forall b :: b in lv[l] ==> b in mem && b != s
  {
    hide BLink;
    forall b | b in lv[l] ensures b in mem { PageAt(mem, lv, l, b); }
  }
}
