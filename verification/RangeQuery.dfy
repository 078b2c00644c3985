/** Range queries: the leaves are chosen from cached level-1 pages, fetched
    through a window of PARA_FETCH slots, and filtered.

    `ScanSelected` says what comes back for any cache contents: each live record
    of the range once per time its leaf was chosen.  `EachLeafOnce` shows that
    current pages that tile the range choose every leaf of the range exactly
    once, and `OwnCacheExact` when the pages of a tree's own cache do. */
module RangeQuery {
  import opened Options
  import opened Pages
  import opened Blink
  import opened PastPages
  import opened IndexCache

  const PARA_FETCH := 32

  // -------------------------------------------------------- choosing leaves

  /** A child together with the keys the page routes to it. */
  datatype Span = Span(lo: Key, hi: Key, ptr: Addr) {
    /** The program's test keeps a span that merely touches the interval. */
    predicate Meets(from: Key, to: Key) { !(from > hi || to < lo) }
  }

  function Spans(p: Page): (r: seq<Span>)
    requires EntriesOk(p)
    ensures |r| == |p.entries| + 1
  {
    var n := |p.entries|;
    seq(n + 1, i requires 0 <= i <= n =>
      Span(if i == 0 then p.lowest else p.entries[i - 1].key,
           if i == n then p.highest else p.entries[i].key,
           if i == 0 then p.leftmost else p.entries[i - 1].ptr))
  }

  function SpanOf(p: Page, i: nat): Span
    requires p.Internal? && i <= |p.entries|
  {
    Span(if i == 0 then p.lowest else p.entries[i - 1].key,
         if i == |p.entries| then p.highest else p.entries[i].key,
         if i == 0 then p.leftmost else p.entries[i - 1].ptr)
  }

  lemma SpanIs(p: Page, i: nat)
    requires EntriesOk(p) && i < |Spans(p)|
    ensures Spans(p)[i] == SpanOf(p, i)
  {
    hide SortedEntries;
  }

  ghost predicate PagesOk(ps: seq<Page>) { forall i :: 0 <= i < |ps| ==> EntriesOk(ps[i]) }

  function AllSpans(ps: seq<Page>): seq<Span>
    requires PagesOk(ps)
  {
    if ps == [] then [] else AllSpans(ps[..|ps| - 1]) + Spans(ps[|ps| - 1])
  }

  function Selected(ss: seq<Span>, from: Key, to: Key): seq<Addr> {
    if ss == [] then []
    else Selected(ss[..|ss| - 1], from, to) + (if ss[|ss| - 1].Meets(from, to) then [ss[|ss| - 1].ptr] else [])
  }

  lemma {:induction false} SelectedAppend(a: seq<Span>, b: seq<Span>, from: Key, to: Key)
    ensures Selected(a + b, from, to) == Selected(a, from, to) + Selected(b, from, to)
  {
    if b == [] {
      assert a + b == a;
    } else {
      SelectedAppend(a, b[..|b| - 1], from, to);
      assert (a + b)[..|a + b| - 1] == a + b[..|b| - 1];
    }
  }

  /** The pages of the cache from the first entry whose range ends at or after
      `from`, up to the first page that starts after `to`. */
  function CachedPages(es: seq<CacheEntry>, from: Key, to: Key): seq<Page> {
    if es == [] then []
    else if es[0].page.None? || es[0].to < from then CachedPages(es[1..], from, to)
    else if es[0].from > to then []
    else [es[0].page.value] + CachedPages(es[1..], from, to)
  }

  lemma {:induction false} CachedPagesAfter(es: seq<CacheEntry>, from: Key, to: Key, i: nat)
    requires i <= |es| && forall j :: 0 <= j < i ==> es[j].to < from || es[j].page.None?
    ensures CachedPages(es, from, to) == CachedPages(es[i..], from, to)
  {
    if i == 0 {
      assert es[0..] == es;
    } else {
      CachedPagesAfter(es[1..], from, to, i - 1);
      assert es[1..][i - 1..] == es[i..];
    }
  }

  ghost predicate ProperRanges(es: seq<CacheEntry>) {
    forall i :: 0 <= i < |es| && es[i].page.Some? ==> es[i].from <= es[i].to
  }

  lemma SeekSplits(es: seq<CacheEntry>, from: Key, i: nat)
    requires InOrder(es) && ProperRanges(es) && FirstFrom(es, from, i)
    ensures forall j :: 0 <= j < i ==> es[j].to < from || es[j].page.None?
    ensures forall j :: i <= j < |es| ==> es[j].to >= from
  {
    forall j | i <= j < |es| ensures es[j].to >= from {
      if i < j { assert Cmp(es[i], es[j]) < 0; }
    }
  }

  lemma CachedPagesAt(es: seq<CacheEntry>, from: Key, to: Key, i: nat)
    requires i < |es| && es[i].to >= from
    ensures CachedPages(es[i..], from, to) ==
      if es[i].page.None? then CachedPages(es[i + 1..], from, to)
      else if es[i].from > to then [] else [es[i].page.value] + CachedPages(es[i + 1..], from, to)
  {
    assert es[i..][1..] == es[i + 1..];
  }

  method SearchRange(cache: Cache, from: Key, to: Key) returns (ps: seq<Page>)
    requires InOrder(cache.entries) && ProperRanges(cache.entries)
    ensures ps == CachedPages(cache.entries, from, to)
  {
    hide InOrder, ProperRanges, CachedPages;
    var es := cache.entries;
    var i := cache.Seek(CacheEntry(from, from, None));
    ps := [];
    SeekSplits(es, from, i);
    CachedPagesAfter(es, from, to, i);
    while i < |es|
      invariant i <= |es|
      invariant ps + CachedPages(es[i..], from, to) == CachedPages(es, from, to)
      invariant forall j :: i <= j < |es| ==> es[j].to >= from
    {
      CachedPagesAt(es, from, to, i);
      if es[i].page.Some? {
        if es[i].from > to { return; }
        ps := ps + [es[i].page.value];
      }
      i := i + 1;
    }
    NoCachedPages(es[i..], from, to);
  }

  lemma NoCachedPages(es: seq<CacheEntry>, from: Key, to: Key)
    requires es == []
    ensures CachedPages(es, from, to) == []
  {
  }

  lemma SelectedNext(ss: seq<Span>, from: Key, to: Key, i: nat)
    requires i < |ss|
    ensures Selected(ss[..i + 1], from, to) == Selected(ss[..i], from, to) + (if ss[i].Meets(from, to) then [ss[i].ptr] else [])
  {
    assert ss[..i + 1][..i] == ss[..i];
  }

  /** The leftmost child, every inner child and the last child, one by one. */
  method ChooseFrom(p: Page, from: Key, to: Key) returns (leaves: seq<Addr>)
    requires EntriesOk(p)
    ensures leaves == Selected(Spans(p), from, to)
  {
    hide Selected, SortedEntries, Spans;
    leaves := [];
    var cnt := |p.entries|;
    ghost var ss := Spans(p);
    forall i | 0 <= i <= cnt ensures ss[i] == SpanOf(p, i) { SpanIs(p, i); }
    NoneSelected(from, to);
    assert ss[..0] == [];
    SelectedNext(ss, from, to, 0);
    if !(from > p.entries[0].key || to < p.lowest) {
      leaves := leaves + [p.leftmost];
    }
    var i := 1;
    while i < cnt
      invariant 1 <= i <= cnt
      invariant leaves == Selected(ss[..i], from, to)
    {
      SelectedNext(ss, from, to, i);
      if !(from > p.entries[i].key || to < p.entries[i - 1].key) {
        leaves := leaves + [p.entries[i - 1].ptr];
      }
      i := i + 1;
    }
    SelectedNext(ss, from, to, cnt);
    if !(from > p.highest || to < p.entries[cnt - 1].key) {
      leaves := leaves + [p.entries[cnt - 1].ptr];
    }
    assert ss[..cnt + 1] == ss;
  }

  lemma NoneSelected(from: Key, to: Key)
    ensures Selected([], from, to) == []
  {
  }

  method ChooseLeaves(ps: seq<Page>, from: Key, to: Key) returns (leaves: seq<Addr>)
    requires PagesOk(ps)
    ensures leaves == Selected(AllSpans(ps), from, to)
  {
    leaves := [];
    var n := 0;
    while n < |ps|
      invariant 0 <= n <= |ps| && PagesOk(ps[..n])
      invariant leaves == Selected(AllSpans(ps[..n]), from, to)
    {
      hide Selected, Spans;
      var more := ChooseFrom(ps[n], from, to);
      SelectedAppend(AllSpans(ps[..n]), Spans(ps[n]), from, to);
      assert ps[..n + 1][..n] == ps[..n];
      leaves := leaves + more;
      n := n + 1;
    }
    assert ps[..n] == ps;
  }

  // ------------------------------------------------------- fetching leaves

  predicate Hit(r: LeafEntry, from: Key, to: Key) { r.Live() && from <= r.key <= to }

  function Hits(rs: seq<LeafEntry>, from: Key, to: Key): seq<LeafEntry> {
    if rs == [] then []
    else Hits(rs[..|rs| - 1], from, to) + (if Hit(rs[|rs| - 1], from, to) then [rs[|rs| - 1]] else [])
  }

  ghost predicate AreLeaves(mem: Mem, leaves: seq<Addr>) {
    forall i :: 0 <= i < |leaves| ==> leaves[i] in mem && mem[leaves[i]].Leaf? && |mem[leaves[i]].records| == LEAF_CARD
  }

  /** The plain loop: filter one leaf after the other. */
  function Collect(mem: Mem, leaves: seq<Addr>, from: Key, to: Key): seq<LeafEntry>
    requires AreLeaves(mem, leaves)
  {
    if leaves == [] then []
    else Collect(mem, leaves[..|leaves| - 1], from, to) + Hits(mem[leaves[|leaves| - 1]].records, from, to)
  }

  /** The caller's buffer holds the values of these records, and is filled from
      position `counter` on. */
  ghost predicate Filled(out: array<Value>, counter: nat, es: seq<LeafEntry>)
    reads out
  {
    counter == |es| <= out.Length && forall j :: 0 <= j < counter ==> out[j] == es[j].value
  }

  /** Filter the first n pages of the window into the output. */
  method Drain(window: array<Page>, n: nat, from: Key, to: Key, out: array<Value>, counter: nat,
               ghost mem: Mem, ghost leaves: seq<Addr>, ghost base: nat)
    returns (counter': nat)
    requires window.Length == PARA_FETCH && n <= PARA_FETCH && base + n <= |leaves|
    requires AreLeaves(mem, leaves) && forall k :: 0 <= k < n ==> window[k] == mem[leaves[base + k]]
    requires Filled(out, counter, Collect(mem, leaves[..base], from, to))
    requires |Collect(mem, leaves, from, to)| <= out.Length
    modifies out
    ensures Filled(out, counter', Collect(mem, leaves[..base + n], from, to))
  {
    counter' := counter;
    var k := 0;
    while k < n
      invariant 0 <= k <= n
      invariant Filled(out, counter', Collect(mem, leaves[..base + k], from, to))
    {
      ghost var was := Collect(mem, leaves[..base + k], from, to);
      assert leaves[..base + k + 1][..base + k] == leaves[..base + k];
      CollectShorter(mem, leaves, from, to, base + k + 1);
      counter' := DrainPage(window[k].records, from, to, out, counter', was);
      k := k + 1;
    }
  }

  method DrainPage(rs: seq<LeafEntry>, from: Key, to: Key, out: array<Value>, counter: nat, ghost was: seq<LeafEntry>)
    returns (counter': nat)
    requires Filled(out, counter, was) && |was| + |Hits(rs, from, to)| <= out.Length
    modifies out
    ensures Filled(out, counter', was + Hits(rs, from, to))
  {
    counter' := counter;
    var i := 0;
    assert was + [] == was;
    while i < |rs|
      invariant 0 <= i <= |rs|
      invariant Filled(out, counter', was + Hits(rs[..i], from, to))
    {
      assert rs[..i + 1][..i] == rs[..i];
      HitsShorter(rs, from, to, i + 1);
      ghost var sofar := was + Hits(rs[..i], from, to);
      if rs[i].value != VALUE_NULL && rs[i].key >= from && rs[i].key <= to {
        out[counter'] := rs[i].value;
        counter' := counter' + 1;
        assert sofar + [rs[i]] == was + Hits(rs[..i + 1], from, to);
      } else {
        assert sofar == was + Hits(rs[..i + 1], from, to);
      }
      i := i + 1;
    }
    assert rs[..i] == rs;
  }

  lemma {:induction false} HitsShorter(rs: seq<LeafEntry>, from: Key, to: Key, i: nat)
    requires i <= |rs|
    ensures |Hits(rs[..i], from, to)| <= |Hits(rs, from, to)|
  {
    if i == |rs| {
      assert rs[..i] == rs;
    } else {
      HitsShorter(rs[..|rs| - 1], from, to, i);
      assert rs[..|rs| - 1][..i] == rs[..i];
    }
  }

  lemma {:induction false} CollectShorter(mem: Mem, leaves: seq<Addr>, from: Key, to: Key, i: nat)
    requires i <= |leaves| && AreLeaves(mem, leaves)
    ensures |Collect(mem, leaves[..i], from, to)| <= |Collect(mem, leaves, from, to)|
  {
    if i == |leaves| {
      assert leaves[..i] == leaves;
    } else {
      CollectShorter(mem, leaves[..|leaves| - 1], from, to, i);
      assert leaves[..|leaves| - 1][..i] == leaves[..i];
    }
  }

  /** The windowed fetch: PARA_FETCH reads are in flight before the first page
      of them is looked at, and the rest is drained at the end. */
  method FetchLeaves(mem: Mem, leaves: seq<Addr>, from: Key, to: Key, out: array<Value>) returns (counter: nat)
    requires AreLeaves(mem, leaves) && |Collect(mem, leaves, from, to)| <= out.Length
    modifies out
    ensures Filled(out, counter, Collect(mem, leaves, from, to))
  {
    hide Collect, Filled;
    var window := new Page[PARA_FETCH](_ => Leaf(NULL, 0, 0, []));
    counter := 0;
    var pending := 0;
    var i := 0;
    ghost var base := 0;
    NothingYet(mem, leaves, from, to, out);
    while i < |leaves|
      invariant 0 <= i <= |leaves| && 0 <= pending <= PARA_FETCH && base + pending == i
      invariant base % PARA_FETCH == 0 && (i > 0 ==> pending > 0)
      invariant forall k :: 0 <= k < pending ==> window[k] == mem[leaves[base + k]]
      invariant Filled(out, counter, Collect(mem, leaves[..base], from, to))
    {
      InWindow(base, pending);
      if i > 0 && i % PARA_FETCH == 0 {
        counter := Drain(window, PARA_FETCH, from, to, out, counter, mem, leaves, base);
        pending := pending - PARA_FETCH;
        base := i;
      }
      window[i % PARA_FETCH] := mem[leaves[i]];
      pending := pending + 1;
      i := i + 1;
    }
    if pending != 0 {
      counter := Drain(window, pending, from, to, out, counter, mem, leaves, base);
    }
    assert leaves[..i] == leaves;
  }

  lemma NothingYet(mem: Mem, leaves: seq<Addr>, from: Key, to: Key, out: array<Value>)
    requires AreLeaves(mem, leaves)
    ensures Filled(out, 0, Collect(mem, leaves[..0], from, to))
  {
  }

  lemma InWindow(base: nat, pending: nat)
    requires base % PARA_FETCH == 0 && pending <= PARA_FETCH
    ensures (base + pending) % PARA_FETCH == if pending == PARA_FETCH then 0 else pending
  {
  }

  /** The leaves a query chooses and the records it finds there. */
  ghost function Chosen(es: seq<CacheEntry>, from: Key, to: Key): seq<Addr> {
    var ps := CachedPages(es, from, to);
    if PagesOk(ps) then Selected(AllSpans(ps), from, to) else []
  }

  ghost function Result(mem: Mem, es: seq<CacheEntry>, from: Key, to: Key): seq<LeafEntry> {
    if AreLeaves(mem, Chosen(es, from, to)) then Collect(mem, Chosen(es, from, to), from, to) else []
  }

  method Query(cache: Cache, mem: Mem, from: Key, to: Key, out: array<Value>) returns (counter: nat)
    requires InOrder(cache.entries) && ProperRanges(cache.entries)
    requires PagesOk(CachedPages(cache.entries, from, to)) && AreLeaves(mem, Chosen(cache.entries, from, to))
    requires |Result(mem, cache.entries, from, to)| <= out.Length
    modifies out
    ensures Filled(out, counter, Result(mem, cache.entries, from, to))
  {
    var ps := SearchRange(cache, from, to);
    if ps == [] { return 0; }
    var leaves := ChooseLeaves(ps, from, to);
    counter := FetchLeaves(mem, leaves, from, to, out);
  }

  // -------------------------------------------- what comes back, and how often

  lemma {:induction false} HitsCount(rs: seq<LeafEntry>, from: Key, to: Key, e: LeafEntry)
    requires UniqueLive(rs)
    ensures multiset(Hits(rs, from, to))[e] == if Hit(e, from, to) && e in rs then 1 else 0
  {
    if rs != [] {
      var n := |rs| - 1;
      HitsCount(rs[..n], from, to, e);
      assert rs == rs[..n] + [rs[n]];
      if rs[n] == e && Hit(e, from, to) {
        assert forall i :: 0 <= i < n ==> rs[i] != e;
        assert e !in rs[..n];
      }
    }
  }

  /** The leaf that covers a record's key is the only one that returns it. */
  lemma ReturnedBy(mem: Mem, lv: Levels, kv: Kv, a: Addr, c: Addr, from: Key, to: Key, e: LeafEntry)
    requires |lv| > 0 && BLink(mem, lv) && Holds(mem, lv[0], kv) && a in lv[0] && c in lv[0] && mem[c].Covers(e.key)
    ensures mem[a].Leaf?
    ensures multiset(Hits(mem[a].records, from, to))[e] ==
      if a == c && Hit(e, from, to) && KvGet(kv, e.key) == e.value then 1 else 0
  {
    hide BLink;
    PageAt(mem, lv, 0, a);
    PageAt(mem, lv, 0, c);
    HitsCount(mem[a].records, from, to, e);
    if e.Live() {
      GetIsMembership(mem[c].records, e.key, e.value);
      assert Answers(mem[c], kv, e.key);
      if e in mem[a].records && a != c { OnlyCover(mem, lv, 0, a, c, e.key); }
    }
  }

  /** For any choice of leaves, a record of the range comes back once for each
      time its leaf was chosen, and nothing else comes back. */
  lemma {:induction false} ScanSelected(mem: Mem, lv: Levels, kv: Kv, leaves: seq<Addr>, c: Addr, from: Key, to: Key, e: LeafEntry)
    requires |lv| > 0 && BLink(mem, lv) && Holds(mem, lv[0], kv) && AreLeaves(mem, leaves)
    requires forall i :: 0 <= i < |leaves| ==> leaves[i] in lv[0]
    requires c in lv[0] && mem[c].Covers(e.key)
    ensures multiset(Collect(mem, leaves, from, to))[e] ==
      if Hit(e, from, to) && KvGet(kv, e.key) == e.value then multiset(leaves)[c] else 0
  {
    hide BLink, Holds, Hits, KvGet, Hit;
    if leaves != [] {
      var n := |leaves| - 1;
      ScanSelected(mem, lv, kv, leaves[..n], c, from, to, e);
      ReturnedBy(mem, lv, kv, leaves[n], c, from, to, e);
      assert leaves == leaves[..n] + [leaves[n]];
      assert Collect(mem, leaves, from, to) == Collect(mem, leaves[..n], from, to) + Hits(mem[leaves[n]].records, from, to);
    }
  }

  lemma {:induction false} OnlyHits(mem: Mem, leaves: seq<Addr>, from: Key, to: Key, e: LeafEntry)
    requires AreLeaves(mem, leaves) && e in Collect(mem, leaves, from, to)
    ensures Hit(e, from, to)
  {
    var n := |leaves| - 1;
    if e in Collect(mem, leaves[..n], from, to) { OnlyHits(mem, leaves[..n], from, to, e); }
    else { HitsAreHits(mem[leaves[n]].records, from, to, e); }
  }

  lemma {:induction false} HitsAreHits(rs: seq<LeafEntry>, from: Key, to: Key, e: LeafEntry)
    requires e in Hits(rs, from, to)
    ensures Hit(e, from, to)
  {
    if e in Hits(rs[..|rs| - 1], from, to) { HitsAreHits(rs[..|rs| - 1], from, to, e); }
  }

  // ------------------------------------------- current pages choose each leaf

  /** The leaf still has exactly the keys the page routes to it. */
  ghost predicate CurrentSpan(mem: Mem, leaves: seq<Addr>, s: Span) {
    s.ptr in leaves && s.ptr in mem && mem[s.ptr].lowest == s.lo && mem[s.ptr].highest == s.hi
  }

  ghost predicate CurrentPage(mem: Mem, leaves: seq<Addr>, p: Page)
    requires EntriesOk(p)
  {
    forall i :: 0 <= i < |Spans(p)| ==> CurrentSpan(mem, leaves, Spans(p)[i])
  }

  /** Current pages, side by side, that reach over the whole interval. */
  ghost predicate TileRange(mem: Mem, leaves: seq<Addr>, ps: seq<Page>, from: Key, to: Key) {
    && PagesOk(ps) && |ps| > 0
    && ps[0].lowest <= from && to < ps[|ps| - 1].highest
    && (forall i, j :: 0 <= i && j == i + 1 < |ps| ==> ps[i].highest == ps[j].lowest)
    && forall i :: 0 <= i < |ps| ==> CurrentPage(mem, leaves, ps[i])
  }

  /** A level-1 page of a tree whose separators are all in place is current. */
  lemma PlacedPageIsCurrent(mem: Mem, lv: Levels, a: Addr)
    requires BLink(mem, lv) && Complete(mem, lv, {}) && |lv| > 1 && a in lv[1]
    ensures EntriesOk(mem[a]) && CurrentPage(mem, lv[0], mem[a])
  {
    hide BLink, Complete;
    PageAt(mem, lv, 1, a);
    forall i | 0 <= i < |Spans(mem[a])| ensures CurrentSpan(mem, lv[0], Spans(mem[a])[i]) {
      SpanLow(mem, lv, a, i);
      SpanNotLong(mem, lv, a, i);
      SpanNotShort(mem, lv, a, i);
    }
  }

  lemma SpanLow(mem: Mem, lv: Levels, a: Addr, i: nat)
    requires BLink(mem, lv) && |lv| > 1 && a in lv[1] && EntriesOk(mem[a]) && i < |Spans(mem[a])|
    ensures var s := Spans(mem[a])[i];
      && ChildOk(mem, lv[0], s.ptr, s.lo) && mem[s.ptr].lowest < mem[s.ptr].highest <= KEY_MAX
      && s.hi <= mem[a].highest && mem[a].lowest <= s.lo
  {
    hide BLink, SortedEntries;
    PageAt(mem, lv, 1, a);
    var p := mem[a];
    if i > 0 { assert ChildOk(mem, lv[0], p.entries[i - 1].ptr, p.entries[i - 1].key); }
    PageAt(mem, lv, 0, Spans(p)[i].ptr);
  }

  /** The leaf does not end early: its neighbour's separator would be missing. */
  lemma SpanNotShort(mem: Mem, lv: Levels, a: Addr, i: nat)
    requires BLink(mem, lv) && Complete(mem, lv, {}) && |lv| > 1 && a in lv[1]
    requires EntriesOk(mem[a]) && i < |Spans(mem[a])|
    requires CurrentLow(mem, lv, Spans(mem[a])[i])
    ensures mem[Spans(mem[a])[i].ptr].highest >= Spans(mem[a])[i].hi
  {
    hide BLink, Complete;
    hide EntriesOk, Spans, HasSeparator;
    PageAt(mem, lv, 1, a);
    SpanLow(mem, lv, a, i);
    var s := Spans(mem[a])[i];
    var h := mem[s.ptr].highest;
    if h < s.hi {
      TurnRight(mem, lv, 0, s.ptr, h);
      PageAt(mem, lv, 0, mem[s.ptr].sibling);
      PlacedWithin(mem, lv, a, mem[s.ptr].sibling);
      NoneBetween(mem[a], i, h);
    }
  }

  predicate HasSeparator(p: Page, k: Key)
    requires p.Internal?
  {
    k == p.lowest || exists j :: 0 <= j < |p.entries| && p.entries[j].key == k
  }

  /** With every separator in place, a leaf that starts within a level-1 page
      has its separator there. */
  lemma PlacedWithin(mem: Mem, lv: Levels, a: Addr, n: Addr)
    requires BLink(mem, lv) && Complete(mem, lv, {}) && |lv| > 1 && a in lv[1] && n in lv[0] && n in mem
    requires mem[a].Covers(mem[n].lowest) && mem[a].Internal?
    ensures HasSeparator(mem[a], mem[n].lowest)
  {
    hide BLink, Complete, IsChild, HasSeparator;
    ParentOf(mem, lv, n);
    var b :| b in lv[1] && b in mem && mem[b].Internal? && IsChild(mem[b], n);
    SeparatorOf(mem, lv, b, n);
    ChildInRange(mem, lv, b, n);
    OnlyCover(mem, lv, 1, a, b, mem[n].lowest);
  }

  ghost predicate CurrentLow(mem: Mem, lv: Levels, s: Span) {
    |lv| > 0 && s.ptr in lv[0] && s.ptr in mem && mem[s.ptr].lowest == s.lo
  }

  lemma ParentOf(mem: Mem, lv: Levels, n: Addr)
    requires Complete(mem, lv, {}) && |lv| > 1 && n in lv[0]
    ensures HasParent(mem, lv[1], n)
  {
  }

  lemma ChildInRange(mem: Mem, lv: Levels, b: Addr, n: Addr)
    requires BLink(mem, lv) && |lv| > 1 && b in lv[1] && mem[b].Internal? && IsChild(mem[b], n)
    ensures n in mem && mem[b].Covers(mem[n].lowest)
  {
    hide BLink;
    PageAt(mem, lv, 1, b);
    SeparatorOf(mem, lv, b, n);
  }

  lemma SeparatorOf(mem: Mem, lv: Levels, b: Addr, n: Addr)
    requires BLink(mem, lv) && |lv| > 1 && b in lv[1] && mem[b].Internal? && IsChild(mem[b], n)
    ensures n in mem && HasSeparator(mem[b], mem[n].lowest)
  {
    hide BLink;
    PageAt(mem, lv, 1, b);
    if n != mem[b].leftmost {
      var j :| 0 <= j < |mem[b].entries| && mem[b].entries[j].ptr == n;
      assert ChildOk(mem, lv[0], mem[b].entries[j].ptr, mem[b].entries[j].key);
    }
  }

  predicate SpanEnds(p: Page, i: nat)
    requires EntriesOk(p) && i < |Spans(p)|
  {
    && Spans(p)[i].lo == (if i == 0 then p.lowest else p.entries[i - 1].key)
    && Spans(p)[i].hi == (if i == |p.entries| then p.highest else p.entries[i].key)
  }

  lemma SpanAt(p: Page, i: nat)
    requires EntriesOk(p) && i < |Spans(p)|
    ensures SpanEnds(p, i)
  {
    hide SortedEntries;
  }

  /** No separator lies strictly inside a span. */
  lemma NoneBetween(p: Page, i: nat, k: Key)
    requires EntriesOk(p) && i < |Spans(p)| && Spans(p)[i].lo < k < Spans(p)[i].hi
    ensures !HasSeparator(p, k)
  {
    hide Spans;
    SpanAt(p, i);
  }

  /** Nor does it end late: the next child starts there. */
  lemma SpanNotLong(mem: Mem, lv: Levels, a: Addr, i: nat)
    requires BLink(mem, lv) && |lv| > 1 && a in lv[1] && EntriesOk(mem[a]) && i < |Spans(mem[a])|
    ensures CurrentLow(mem, lv, Spans(mem[a])[i])
    ensures mem[Spans(mem[a])[i].ptr].highest <= Spans(mem[a])[i].hi
  {
    hide BLink, Spans, EntriesOk;
    PageAt(mem, lv, 1, a);
    var s := Spans(mem[a])[i];
    SpanLow(mem, lv, a, i);
    if mem[s.ptr].highest > s.hi {
      var n := PageFrom(mem, lv, a, i);
      TilesAt(mem, lv, 0);
      SamePage(mem, lv[0], 0, s.ptr, n);
    }
  }

  /** The leaf that starts where a span ends, if the key space goes on. */
  lemma PageFrom(mem: Mem, lv: Levels, a: Addr, i: nat) returns (n: Addr)
    requires BLink(mem, lv) && |lv| > 1 && a in lv[1] && EntriesOk(mem[a]) && i < |Spans(mem[a])|
    requires Spans(mem[a])[i].hi < KEY_MAX
    ensures n in lv[0] && n in mem && mem[n].lowest == Spans(mem[a])[i].hi > Spans(mem[a])[i].lo
  {
    hide BLink;
    PageAt(mem, lv, 1, a);
    var p := mem[a];
    if i < |p.entries| {
      SpanLow(mem, lv, a, i + 1);
      n := p.entries[i].ptr;
    } else {
      TurnRight(mem, lv, 1, a, p.highest);
      PageAt(mem, lv, 1, p.sibling);
      assert mem[p.sibling].Internal?;
      SpanLow(mem, lv, p.sibling, 0);
      n := mem[p.sibling].leftmost;
      PageAt(mem, lv, 1, a);
    }
  }

  // ------------------------------------------------------------- exactly once

  ghost predicate Chained(ss: seq<Span>) {
    && (forall i :: 0 <= i < |ss| ==> ss[i].lo < ss[i].hi)
    && forall i, j :: 0 <= i && j == i + 1 < |ss| ==> ss[i].hi == ss[j].lo
  }

  lemma {:induction false} Rising(ss: seq<Span>, i: nat, j: nat)
    requires Chained(ss) && i < j < |ss|
    ensures ss[i].hi <= ss[j].lo
    decreases j
  {
    if i < j - 1 { Rising(ss, i, j - 1); }
    assert ss[j - 1].hi == ss[j].lo && ss[j - 1].lo < ss[j - 1].hi;
  }

  lemma {:induction false} FindSpan(ss: seq<Span>, k: Key) returns (i: nat)
    requires Chained(ss) && |ss| > 0 && ss[0].lo <= k < ss[|ss| - 1].hi
    ensures i < |ss| && ss[i].lo <= k < ss[i].hi
    decreases |ss|
  {
    i := |ss| - 1;
    if k < ss[i].lo {
      assert ss[i - 1].hi == ss[i].lo;
      i := FindSpan(ss[..i], k);
    }
  }

  lemma SpansChained(mem: Mem, lv: Levels, p: Page)
    requires |lv| > 0 && BLink(mem, lv) && EntriesOk(p) && CurrentPage(mem, lv[0], p)
    ensures Chained(Spans(p)) && Spans(p)[0].lo == p.lowest && Spans(p)[|p.entries|].hi == p.highest
  {
    hide BLink, Spans, SortedEntries;
    forall i | 0 <= i < |Spans(p)| ensures SpanEnds(p, i) { SpanAt(p, i); }
    assert SpanEnds(p, 0) && SpanEnds(p, |p.entries|);
    forall i | 0 <= i < |Spans(p)| ensures Spans(p)[i].lo < Spans(p)[i].hi {
      assert CurrentSpan(mem, lv[0], Spans(p)[i]);
      PageAt(mem, lv, 0, Spans(p)[i].ptr);
    }
    forall i, j | 0 <= i && j == i + 1 < |Spans(p)| ensures Spans(p)[i].hi == Spans(p)[j].lo {
      assert SpanEnds(p, i) && SpanEnds(p, j);
    }
  }

  lemma {:induction false} AllSpansChained(mem: Mem, lv: Levels, ps: seq<Page>)
    requires |lv| > 0 && BLink(mem, lv) && PagesOk(ps) && |ps| > 0
    requires forall i, j :: 0 <= i && j == i + 1 < |ps| ==> ps[i].highest == ps[j].lowest
    requires forall i :: 0 <= i < |ps| ==> CurrentPage(mem, lv[0], ps[i])
    ensures var ss := AllSpans(ps);
      && |ss| > 0 && Chained(ss) && ss[0].lo == ps[0].lowest && ss[|ss| - 1].hi == ps[|ps| - 1].highest
      && forall i :: 0 <= i < |ss| ==> CurrentSpan(mem, lv[0], ss[i])
  {
    hide BLink, EntriesOk, Spans, CurrentSpan;
    var n := |ps| - 1;
    var a, b := AllSpans(ps[..n]), Spans(ps[n]);
    SpansChained(mem, lv, ps[n]);
    assert AllSpans(ps) == a + b;
    if n > 0 {
      AllSpansChained(mem, lv, ps[..n]);
      assert ps[n - 1].highest == ps[n].lowest;
    }
  }

  lemma DistinctLeaves(mem: Mem, leaves: seq<Addr>, ss: seq<Span>, i: nat, j: nat)
    requires Chained(ss) && i < j < |ss|
    requires forall n :: 0 <= n < |ss| ==> CurrentSpan(mem, leaves, ss[n])
    ensures ss[i].ptr != ss[j].ptr
  {
    Rising(ss, i, j);
    assert CurrentSpan(mem, leaves, ss[i]) && CurrentSpan(mem, leaves, ss[j]);
  }

  lemma {:induction false} SelectedNever(ss: seq<Span>, from: Key, to: Key, c: Addr)
    requires forall i :: 0 <= i < |ss| ==> ss[i].ptr != c
    ensures multiset(Selected(ss, from, to))[c] == 0
  {
    if ss != [] { SelectedNever(ss[..|ss| - 1], from, to, c); }
  }

  lemma {:induction false} SelectedOnce(ss: seq<Span>, from: Key, to: Key, i: nat)
    requires i < |ss| && forall n, m :: 0 <= n < m < |ss| ==> ss[n].ptr != ss[m].ptr
    ensures multiset(Selected(ss, from, to))[ss[i].ptr] == if ss[i].Meets(from, to) then 1 else 0
  {
    var n := |ss| - 1;
    if i == n { SelectedNever(ss[..n], from, to, ss[i].ptr); } else { SelectedOnce(ss[..n], from, to, i); }
  }

  lemma {:induction false} SelectedFrom(ss: seq<Span>, from: Key, to: Key, c: Addr)
    requires c in Selected(ss, from, to)
    ensures exists i :: 0 <= i < |ss| && ss[i].ptr == c
  {
    var n := |ss| - 1;
    if ss[n].ptr != c {
      SelectedFrom(ss[..n], from, to, c);
      var i :| 0 <= i < n && ss[..n][i].ptr == c;
      assert ss[i].ptr == c;
    }
  }

  /** Current pages that tile the interval choose the leaf of each of its keys
      exactly once, and only leaves. */
  lemma EachLeafOnce(mem: Mem, lv: Levels, ps: seq<Page>, from: Key, to: Key, k: Key) returns (c: Addr)
    requires |lv| > 0 && BLink(mem, lv) && TileRange(mem, lv[0], ps, from, to) && from <= k <= to
    ensures c in lv[0] && c in mem && mem[c].Covers(k)
    ensures multiset(Selected(AllSpans(ps), from, to))[c] == 1
  {
    hide BLink, Spans, Selected, EntriesOk;
    AllSpansChained(mem, lv, ps);
    var ss := AllSpans(ps);
    var i := FindSpan(ss, k);
    c := ss[i].ptr;
    assert CurrentSpan(mem, lv[0], ss[i]);
    forall n, m | 0 <= n < m < |ss| ensures ss[n].ptr != ss[m].ptr { DistinctLeaves(mem, lv[0], ss, n, m); }
    SelectedOnce(ss, from, to, i);
  }

  lemma SelectedAreLeaves(mem: Mem, lv: Levels, ps: seq<Page>, from: Key, to: Key)
    requires |lv| > 0 && BLink(mem, lv) && TileRange(mem, lv[0], ps, from, to)
    ensures AreLeaves(mem, Selected(AllSpans(ps), from, to))
    ensures forall x :: x in Selected(AllSpans(ps), from, to) ==> x in lv[0]
  {
    hide BLink, Spans, Selected, EntriesOk;
    AllSpansChained(mem, lv, ps);
    var ss, xs := AllSpans(ps), Selected(AllSpans(ps), from, to);
    forall n | 0 <= n < |xs| ensures xs[n] in lv[0] && xs[n] in mem && mem[xs[n]].Leaf? && |mem[xs[n]].records| == LEAF_CARD {
      SelectedFrom(ss, from, to, xs[n]);
      var i :| 0 <= i < |ss| && ss[i].ptr == xs[n];
      assert CurrentSpan(mem, lv[0], ss[i]);
      PageAt(mem, lv, 0, xs[n]);
    }
  }

  /** With such pages in the cache a range query returns every record of the
      map whose key is in the interval exactly once, and nothing else. */
  lemma RangeExact(mem: Mem, lv: Levels, kv: Kv, ps: seq<Page>, from: Key, to: Key, e: LeafEntry)
    requires |lv| > 0 && BLink(mem, lv) && Holds(mem, lv[0], kv) && TileRange(mem, lv[0], ps, from, to)
    ensures AreLeaves(mem, Selected(AllSpans(ps), from, to))
    ensures multiset(Collect(mem, Selected(AllSpans(ps), from, to), from, to))[e] ==
      if from <= e.key <= to && e.key in kv && kv[e.key] == e.value then 1 else 0
  {
    hide BLink, EntriesOk, AllSpans, Selected, Collect, CurrentPage;
    SelectedAreLeaves(mem, lv, ps, from, to);
    var xs := Selected(AllSpans(ps), from, to);
    if Hit(e, from, to) {
      var c := EachLeafOnce(mem, lv, ps, from, to, e.key);
      ScanSelected(mem, lv, kv, xs, c, from, to, e);
    } else if e in Collect(mem, xs, from, to) {
      OnlyHits(mem, xs, from, to, e);
    }
  }

  // ------------------------------------------------------- a tree's own cache

  lemma {:induction false} CachedPageFrom(es: seq<CacheEntry>, from: Key, to: Key, p: Page)
    requires p in CachedPages(es, from, to)
    ensures exists e :: e in es && e.page == Some(p)
  {
    if !(es[0].page.Some? && es[0].page.value == p) {
      CachedPageFrom(es[1..], from, to, p);
      var e :| e in es[1..] && e.page == Some(p);
      assert e in es;
    }
  }

  lemma {:induction false} SpanFrom(ps: seq<Page>, s: Span) returns (p: Page, i: nat)
    requires PagesOk(ps) && s in AllSpans(ps)
    ensures p in ps && EntriesOk(p) && i < |Spans(p)| && s == Spans(p)[i]
  {
    var n := |ps| - 1;
    if s in Spans(ps[n]) {
      p := ps[n];
      i :| i < |Spans(p)| && s == Spans(p)[i];
    } else {
      p, i := SpanFrom(ps[..n], s);
    }
  }

  /** Whatever a tree's cache holds, it is fit for a query: its pages are in
      order and well formed, and what they lead to are leaves. */
  lemma CacheIsFit(mem: Mem, lv: Levels, past: set<Page>, es: seq<CacheEntry>, from: Key, to: Key)
    requires |lv| > 0 && BLink(mem, lv) && CacheOk(mem, lv, past, es)
    ensures InOrder(es) && ProperRanges(es) && PagesOk(CachedPages(es, from, to))
    ensures AreLeaves(mem, Chosen(es, from, to))
    ensures forall x :: x in Chosen(es, from, to) ==> x in lv[0]
  {
    hide BLink, EntriesOk, Spans, Selected, AllSpans, CachedPages;
    CachedPagesOk(mem, lv, past, es);
    var ps := CachedPages(es, from, to);
    forall n | 0 <= n < |ps| ensures EntriesOk(ps[n]) && Past(mem, lv, ps[n]) { CachedPageFrom(es, from, to, ps[n]); }
    assert PagesOk(ps);
    var ss, xs := AllSpans(ps), Chosen(es, from, to);
    forall n | 0 <= n < |xs| ensures xs[n] in lv[0] && xs[n] in mem && mem[xs[n]].Leaf? && |mem[xs[n]].records| == LEAF_CARD {
      SelectedFrom(ss, from, to, xs[n]);
      var m :| 0 <= m < |ss| && ss[m].ptr == xs[n];
      var p, i := SpanFrom(ps, ss[m]);
      SpanLeads(mem, lv, p, i);
      PageAt(mem, lv, 0, xs[n]);
    }
  }

  lemma SpanLeads(mem: Mem, lv: Levels, p: Page, i: nat)
    requires Past(mem, lv, p) && i < |Spans(p)|
    ensures Spans(p)[i].ptr in lv[0]
  {
    hide SortedEntries, Spans;
    SpanIs(p, i);
    if i > 0 { assert ChildOk(mem, lv[0], p.entries[i - 1].ptr, p.entries[i - 1].key); }
  }

  /** The chosen pages have not changed since they were cached. */
  ghost predicate AllCurrent(mem: Mem, lv: Levels, ps: seq<Page>) {
    |lv| > 1 && forall p :: p in ps ==> IsCurrent(mem, lv[1], p)
  }

  ghost predicate IsCurrent(mem: Mem, c: seq<Addr>, p: Page) { exists a :: a in c && a in mem && mem[a] == p }

  /** No key of the interval is left out. */
  ghost predicate ReachOver(ps: seq<Page>, from: Key, to: Key) {
    forall k: Key :: from <= k <= to ==> ReachesKey(ps, k)
  }

  ghost predicate ReachesKey(ps: seq<Page>, k: Key) { exists p :: p in ps && p.Covers(k) }

  /** The cached pages for the interval are present ones and leave no key out. */
  ghost predicate Reached(mem: Mem, lv: Levels, es: seq<CacheEntry>, from: Key, to: Key) {
    AllCurrent(mem, lv, CachedPages(es, from, to)) && ReachOver(CachedPages(es, from, to), from, to)
  }

  ghost predicate Before(p: Page, q: Page) { p.highest < q.highest || (p.highest == q.highest && p.lowest > q.lowest) }

  ghost predicate EntriesFit(es: seq<CacheEntry>) {
    forall e :: e in es && e.page.Some? ==> IsFor(e, e.page.value) && e.page.value.lowest < e.page.value.highest
  }

  /** The cache returns pages by rising upper fence, all meeting the interval. */
  lemma {:induction false} CachedPagesSorted(es: seq<CacheEntry>, from: Key, to: Key)
    requires InOrder(es) && EntriesFit(es)
    ensures var ps := CachedPages(es, from, to);
      && (forall i, j :: 0 <= i < j < |ps| ==> Before(ps[i], ps[j]))
      && forall i :: 0 <= i < |ps| ==> from < ps[i].highest && ps[i].lowest <= to
  {
    hide InOrder, EntriesFit, Before;
    if es != [] {
      RestFits(es);
      CachedPagesSorted(es[1..], from, to);
      var ps := CachedPages(es[1..], from, to);
      if es[0].page.Some? {
        HeadFits(es);
        forall j | 0 <= j < |ps| ensures Before(es[0].page.value, ps[j]) { HeadBefore(es, from, to, ps[j]); }
      }
    }
  }

  lemma RestFits(es: seq<CacheEntry>)
    requires InOrder(es) && EntriesFit(es) && es != []
    ensures InOrder(es[1..]) && EntriesFit(es[1..])
  {
    hide Cmp, IsFor;
  }

  lemma HeadFits(es: seq<CacheEntry>)
    requires EntriesFit(es) && es != [] && es[0].page.Some?
    ensures es[0].from == es[0].page.value.lowest && es[0].to == es[0].page.value.highest - 1
  {
    assert es[0] in es;
  }

  lemma HeadBefore(es: seq<CacheEntry>, from: Key, to: Key, q: Page)
    requires InOrder(es) && EntriesFit(es) && es != [] && es[0].page.Some? && q in CachedPages(es[1..], from, to)
    ensures Before(es[0].page.value, q)
  {
    hide CachedPages;
    HeadFits(es);
    CachedPageFrom(es[1..], from, to, q);
    var m :| 1 <= m < |es| && es[m].page == Some(q);
    assert es[m] in es && Cmp(es[0], es[m]) < 0;
  }

  /** Current pages lie side by side. */
  lemma CurrentApart(mem: Mem, lv: Levels, p: Page, q: Page)
    requires BLink(mem, lv) && |lv| > 1 && IsCurrent(mem, lv[1], p) && IsCurrent(mem, lv[1], q) && Before(p, q)
    ensures p.highest <= q.lowest
  {
    hide BLink;
    var a :| a in lv[1] && a in mem && mem[a] == p;
    var b :| b in lv[1] && b in mem && mem[b] == q;
    TilesAt(mem, lv, 1);
    PageAt(mem, lv, 1, a);
    PageAt(mem, lv, 1, b);
    if q.lowest < p.highest {
      if p.lowest <= q.lowest { SamePage(mem, lv[1], 1, a, b); } else { SamePage(mem, lv[1], 1, b, a); }
    }
  }

  lemma OwnPagesTile(mem: Mem, lv: Levels, past: set<Page>, es: seq<CacheEntry>, from: Key, to: Key)
    requires BLink(mem, lv) && Complete(mem, lv, {}) && |lv| > 1 && CacheOk(mem, lv, past, es) && from <= to
    requires AllCurrent(mem, lv, CachedPages(es, from, to)) && ReachOver(CachedPages(es, from, to), from, to)
    ensures TileRange(mem, lv[0], CachedPages(es, from, to), from, to)
  {
    hide BLink, Complete, CachedPages, EntriesOk, ReachOver;
    var ps := CachedPages(es, from, to);
    CacheIsFit(mem, lv, past, es, from, to);
    CachedPagesOk(mem, lv, past, es);
    CachedPagesSorted(es, from, to);
    forall i, j | 0 <= i < j < |ps| ensures ps[i].highest <= ps[j].lowest && ps[i].lowest < ps[i].highest && ps[j].lowest < ps[j].highest {
      CurrentApart(mem, lv, ps[i], ps[j]);
      CachedProper(mem, lv, ps[i]);
      CachedProper(mem, lv, ps[j]);
    }
    var first := PageFor(ps, from, to, from);
    var last := PageFor(ps, from, to, to);
    forall i, j | 0 <= i && j == i + 1 < |ps| ensures ps[i].highest == ps[j].lowest {
      if ps[i].highest < ps[j].lowest {
        var m := PageFor(ps, from, to, ps[i].highest);
      }
    }
    forall i | 0 <= i < |ps| ensures CurrentPage(mem, lv[0], ps[i]) {
      assert IsCurrent(mem, lv[1], ps[i]);
      var a :| a in lv[1] && a in mem && mem[a] == ps[i];
      PlacedPageIsCurrent(mem, lv, a);
    }
  }

  lemma CachedProper(mem: Mem, lv: Levels, p: Page)
    requires BLink(mem, lv) && |lv| > 1 && IsCurrent(mem, lv[1], p)
    ensures p.lowest < p.highest
  {
    hide BLink;
    var a :| a in lv[1] && a in mem && mem[a] == p;
    PageAt(mem, lv, 1, a);
  }

  lemma PageFor(ps: seq<Page>, from: Key, to: Key, k: Key) returns (i: nat)
    requires ReachOver(ps, from, to) && from <= k <= to
    ensures i < |ps| && ps[i].Covers(k)
  {
    assert ReachesKey(ps, k);
    var p :| p in ps && p.Covers(k);
    i :| i < |ps| && ps[i] == p;
  }

  /** A query of a tree whose separators are all in place, over cached pages that
      have not changed since they were read and leave no key of the interval out,
      returns every record of the map in the interval exactly once. */
  lemma OwnCacheExact(mem: Mem, lv: Levels, kv: Kv, past: set<Page>, es: seq<CacheEntry>, from: Key, to: Key, e: LeafEntry)
    requires BLink(mem, lv) && Holds(mem, lv[0], kv) && Complete(mem, lv, {}) && |lv| > 1 && CacheOk(mem, lv, past, es) && from <= to
    requires Reached(mem, lv, es, from, to)
    ensures multiset(Result(mem, es, from, to))[e] ==
      if from <= e.key <= to && e.key in kv && kv[e.key] == e.value then 1 else 0
  {
    hide BLink, Complete, CachedPages, EntriesOk, AllSpans, Selected, Collect, TileRange, ReachOver;
    CacheIsFit(mem, lv, past, es, from, to);
    OwnPagesTile(mem, lv, past, es, from, to);
    RangeExact(mem, lv, kv, CachedPages(es, from, to), from, to, e);
  }

  // --------------------------------------------------- the buffer and the map

  /** The values are those of the map for the keys of the interval, each once. */
  ghost predicate ListsOnce(vs: seq<Value>, kv: Kv, from: Key, to: Key) {
    exists ks: seq<Key> :: ListsKeys(vs, ks, kv, from, to)
  }

  ghost predicate ListsKeys(vs: seq<Value>, ks: seq<Key>, kv: Kv, from: Key, to: Key) {
    && |ks| == |vs| && (forall i, j :: 0 <= i < j < |ks| ==> ks[i] != ks[j])
    && (forall k :: k in ks <==> k in kv && from <= k <= to)
    && forall j :: 0 <= j < |ks| && ks[j] in kv ==> vs[j] == kv[ks[j]]
  }

  /** What a query that fills the buffer tells about the map. */
  lemma BufferLists(mem: Mem, lv: Levels, kv: Kv, past: set<Page>, es: seq<CacheEntry>, from: Key, to: Key, out: array<Value>, counter: nat)
    requires BLink(mem, lv) && Holds(mem, lv[0], kv) && Complete(mem, lv, {}) && |lv| > 1 && CacheOk(mem, lv, past, es) && from <= to
    requires Reached(mem, lv, es, from, to)
    requires Filled(out, counter, Result(mem, es, from, to))
    ensures ListsOnce(out[..counter], kv, from, to)
  {
    var rs := Result(mem, es, from, to);
    forall e: LeafEntry ensures multiset(rs)[e] == if from <= e.key <= to && e.key in kv && kv[e.key] == e.value then 1 else 0 {
      OwnCacheExact(mem, lv, kv, past, es, from, to, e);
    }
    hide BLink, Holds, Complete, CacheOk, AllCurrent, ReachOver, Result, CachedPages;
    RecordsList(rs, kv, from, to);
    assert out[..counter] == seq(|rs|, i requires 0 <= i < |rs| => rs[i].value);
  }

  /** Records that are those of the map in the interval, each once, have distinct
      keys, which are the map's. */
  lemma RecordsList(rs: seq<LeafEntry>, kv: Kv, from: Key, to: Key)
    requires forall e :: multiset(rs)[e] == if from <= e.key <= to && e.key in kv && kv[e.key] == e.value then 1 else 0
    ensures ListsOnce(seq(|rs|, i requires 0 <= i < |rs| => rs[i].value), kv, from, to)
  {
    var ks := seq(|rs|, i requires 0 <= i < |rs| => rs[i].key);
    var vs := seq(|rs|, i requires 0 <= i < |rs| => rs[i].value);
    forall i | 0 <= i < |rs| ensures from <= rs[i].key <= to && rs[i].key in kv && kv[rs[i].key] == rs[i].value {
      assert multiset(rs)[rs[i]] > 0;
    }
    forall i, j | 0 <= i < j < |ks| ensures ks[i] != ks[j] {
      if ks[i] == ks[j] { Twice(rs, i, j); }
    }
    forall k: Key | k in kv && from <= k <= to ensures k in ks {
      assert multiset(rs)[LeafEntry(k, kv[k])] == 1;
      var i :| 0 <= i < |rs| && rs[i] == LeafEntry(k, kv[k]);
      assert ks[i] == k;
    }
    assert ListsKeys(vs, ks, kv, from, to);
  }

  /** One page, the only one cached, is enough for an interval inside its range. */
  lemma OnePageReaches(mem: Mem, lv: Levels, past: set<Page>, es: seq<CacheEntry>, a: Addr, from: Key, to: Key)
    requires CacheOk(mem, lv, past, es) && |lv| > 1 && a in lv[1] && a in mem && mem[a].Covers(from) && mem[a].Covers(to) && from <= to
    requires OnlyPage(es, mem[a])
    ensures Reached(mem, lv, es, from, to)
  {
    var ps := CachedPages(es, from, to);
    forall p | p in ps ensures p == mem[a] {
      CachedPageFrom(es, from, to, p);
    }
    FindsPage(es, from, to, EntryFor(mem[a]));
    forall k: Key | from <= k <= to ensures ReachesKey(ps, k) { assert mem[a].Covers(k); }
  }

  lemma {:induction false} FindsPage(es: seq<CacheEntry>, from: Key, to: Key, e: CacheEntry)
    requires e in es && e.page.Some? && from <= e.to && e.from <= to
    requires forall x :: x in es && x.page.Some? ==> x.page == e.page && x.from == e.from
    ensures e.page.value in CachedPages(es, from, to)
  {
    if es[0].page.None? || es[0].to < from { FindsPage(es[1..], from, to, e); }
  }

  /** There is at most one record with the key. */
  lemma OneResult(mem: Mem, lv: Levels, kv: Kv, past: set<Page>, es: seq<CacheEntry>, k: Key)
    requires BLink(mem, lv) && Holds(mem, lv[0], kv) && Complete(mem, lv, {}) && |lv| > 1 && CacheOk(mem, lv, past, es)
    requires Reached(mem, lv, es, k, k)
    ensures |Result(mem, es, k, k)| <= 1
  {
    var rs := Result(mem, es, k, k);
    if |rs| > 1 {
      OwnCacheExact(mem, lv, kv, past, es, k, k, rs[0]);
      OwnCacheExact(mem, lv, kv, past, es, k, k, rs[1]);
      assert multiset(rs)[rs[0]] > 0 && multiset(rs)[rs[1]] > 0;
      Twice(rs, 0, 1);
    }
  }

  lemma ListsOneKey(vs: seq<Value>, kv: Kv, k: Key)
    requires ListsOnce(vs, kv, k, k) && |vs| <= 1
    ensures if k in kv then vs == [kv[k]] else vs == []
  {
    var ks: seq<Key> :| ListsKeys(vs, ks, kv, k, k);
    assert |ks| > 0 ==> ks[0] in ks;
    if k in kv {
      assert k in ks;
      assert vs[0] == kv[ks[0]];
    }
  }

  lemma Twice(rs: seq<LeafEntry>, i: nat, j: nat)
    requires i < j < |rs| && rs[i] == rs[j]
    ensures multiset(rs)[rs[i]] > 1
  {
    assert rs == rs[..j] + [rs[j]] + rs[j + 1..];
    assert rs[i] in rs[..j];
  }
}
