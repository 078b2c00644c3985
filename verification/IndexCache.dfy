/** The cache of level-1 pages that lets an operation start at a leaf.

    Entries are kept in the order of the skip list: by upper bound ascending,
    then by lower bound descending.  An entry whose page was invalidated stays
    in the list without a page. */
module IndexCache {
  import opened Options
  import opened Pages
  import opened Blink
  import opened PastPages

  /** Caches `page` for the keys from..to, both included. */
  datatype CacheEntry = CacheEntry(from: Key, to: Key, page: Option<Page>) {
    predicate SameRange(e: CacheEntry) { from == e.from && to == e.to }
    predicate Contains(k: Key) { from <= k <= to }
  }

  /** The comparator of the skip list: negative, zero or positive. */
  function Cmp(a: CacheEntry, b: CacheEntry): int {
    if a.to < b.to then -1
    else if a.to > b.to then 1
    else if a.from < b.from then 1
    else if a.from > b.from then -1
    else 0
  }

  /** Cmp is a strict total order on ranges. */
  lemma CmpIsOrder(a: CacheEntry, b: CacheEntry, c: CacheEntry)
    ensures Cmp(a, b) == 0 <==> a.SameRange(b)
    ensures Cmp(a, b) == -Cmp(b, a)
    ensures Cmp(a, b) < 0 && Cmp(b, c) < 0 ==> Cmp(a, c) < 0
  {
  }

  ghost predicate InOrder(es: seq<CacheEntry>) {
    forall i, j :: 0 <= i < j < |es| ==> Cmp(es[i], es[j]) < 0
  }

  /** The entry is for the range of the page. */
  predicate IsFor(e: CacheEntry, p: Page) { e.from == p.lowest && e.to == p.highest - 1 }

  function EntryFor(p: Page): CacheEntry
    requires p.lowest < p.highest
  {
    CacheEntry(p.lowest, p.highest - 1, Some(p))
  }

  ghost predicate FromPast(e: CacheEntry, past: set<Page>) {
    && (exists p :: p in past && IsFor(e, p))
    && (e.page.Some? ==> e.page.value in past && IsFor(e, e.page.value))
  }

  /** The cache holds level-1 pages of the past. */
  ghost predicate CacheOk(mem: Mem, lv: Levels, past: set<Page>, es: seq<CacheEntry>) {
    && InOrder(es) && PastOk(mem, lv, past)
    && forall i :: 0 <= i < |es| ==> FromPast(es[i], past)
  }

  lemma PastGrows(mem: Mem, lv: Levels, past: set<Page>, p: Page, es: seq<CacheEntry>)
    requires CacheOk(mem, lv, past, es) && PastOk(mem, lv, past + {p})
    ensures CacheOk(mem, lv, past + {p}, es)
  {
    hide PastOk;
  }

  lemma CachedPagesOk(mem: Mem, lv: Levels, past: set<Page>, es: seq<CacheEntry>)
    requires CacheOk(mem, lv, past, es)
    ensures InOrder(es) && forall e :: e in es && e.page.Some? ==> EntriesOk(e.page.value) && Past(mem, lv, e.page.value)
  {
  }

  /** A cached page leads to a leaf that starts no later than the key, so
      a stale hit shows only as a key at or above the leaf's upper fence. */
  lemma SnapshotLeads(mem: Mem, lv: Levels, past: set<Page>, es: seq<CacheEntry>, e: CacheEntry, k: Key)
    requires CacheOk(mem, lv, past, es) && e in es && e.page.Some? && e.Contains(k)
    ensures |lv| > 0 && e.page.value.Internal?
    ensures var c := Route(e.page.value.leftmost, e.page.value.entries, k);
            c in lv[0] && c in mem && mem[c].lowest <= k && (mem[c].Covers(k) <==> k < mem[c].highest)
  {
    hide InOrder;
    assert Past(mem, lv, e.page.value);
    PastLeads(mem, lv, e.page.value, k);
  }

  /** First entry that is not before the probe (k, k); the length if none. */
  ghost predicate FirstFrom(es: seq<CacheEntry>, k: Key, i: nat) {
    && i <= |es|
    && (forall j :: 0 <= j < i ==> Cmp(es[j], CacheEntry(k, k, None)) < 0)
    && (i < |es| ==> Cmp(es[i], CacheEntry(k, k, None)) >= 0)
  }

  /** A hit is the narrowest of the cached ranges around the key. */
  lemma HitIsNarrowest(mem: Mem, lv: Levels, past: set<Page>, es: seq<CacheEntry>, k: Key, i: nat, j: nat)
    requires CacheOk(mem, lv, past, es) && FirstFrom(es, k, i) && i < |es| && j < |es|
    requires es[i].Contains(k) && es[j].Contains(k)
    ensures es[j].from <= es[i].from <= es[i].to <= es[j].to
  {
    if i < j { assert Cmp(es[i], es[j]) < 0; }
    var p :| p in past && IsFor(es[i], p);
    var q :| q in past && IsFor(es[j], q);
    assert Nested(p, q);
  }

  /** Some entries lost their page and nothing else changed. */
  ghost predicate Weaker(es: seq<CacheEntry>, was: seq<CacheEntry>) {
    && |es| == |was|
    && forall i :: 0 <= i < |es| ==> es[i] == was[i] || es[i] == was[i].(page := None)
  }

  lemma WeakerOk(mem: Mem, lv: Levels, past: set<Page>, was: seq<CacheEntry>, es: seq<CacheEntry>)
    requires CacheOk(mem, lv, past, was) && Weaker(es, was)
    ensures CacheOk(mem, lv, past, es)
  {
    hide PastOk;
    forall i | 0 <= i < |es| ensures FromPast(es[i], past) { assert FromPast(was[i], past); }
    forall i, j | 0 <= i < j < |es| ensures Cmp(es[i], es[j]) < 0 { assert Cmp(was[i], was[j]) < 0; }
  }

  /** Page writes keep the past, and with it the cache. */
  lemma CacheSurvives(mem: Mem, lv: Levels, mem': Mem, lv': Levels, past: set<Page>, es: seq<CacheEntry>)
    requires |lv| > 0 && Extends(mem, lv, mem', lv') && CacheOk(mem, lv, past, es)
    requires |lv| > 1 ==> Narrows(mem, lv[1], mem', lv'[1])
    ensures CacheOk(mem', lv', past, es)
  {
    hide PastOk, Narrows, Extends;
    PastSurvives(mem, lv, mem', lv', past);
  }

  /** Every entry of this range loses its page; there is at most one. */
  ghost predicate Invalidated(was: seq<CacheEntry>, from: Key, to: Key, es: seq<CacheEntry>) {
    && |es| == |was|
    && forall i :: 0 <= i < |was| ==> es[i] == if was[i].from == from && was[i].to == to then was[i].(page := None) else was[i]
  }

  /** One entry that had a page lost it. */
  ghost predicate OneEvicted(was: seq<CacheEntry>, es: seq<CacheEntry>) {
    exists i :: 0 <= i < |was| && was[i].page.Some? && es == was[i := was[i].(page := None)]
  }

  ghost predicate Cached(es: seq<CacheEntry>, e: CacheEntry) {
    exists x :: x in es && x.SameRange(e) && x.page.Some?
  }

  /** `es` caches e and keeps every other entry. */
  ghost predicate Places(was: seq<CacheEntry>, e: CacheEntry, es: seq<CacheEntry>) {
    && e in es
    && (forall x :: x in es ==> x == e || x in was)
    && (forall x :: x in was && !x.SameRange(e) ==> x in es)
  }

  /** As Places, but with one page less when there was no room. */
  ghost predicate PlacesWithin(was: seq<CacheEntry>, e: CacheEntry, room: int, es: seq<CacheEntry>) {
    exists placed :: Places(was, e, placed) && if room > 0 then es == placed else OneEvicted(placed, es)
  }

  /** What caching page p does to a cache with this many free pages. */
  ghost predicate Remembered(was: seq<CacheEntry>, free: int, p: Page, es: seq<CacheEntry>, free': int)
    requires p.lowest < p.highest
  {
    if Cached(was, EntryFor(p)) then es == was && free' == free
    else free' == free - 1 && PlacesWithin(was, EntryFor(p), free, es)
  }

  /** The cache names the very leaf that covers the key. */
  ghost predicate Warm(mem: Mem, es: seq<CacheEntry>, k: Key) {
    exists i: nat :: FirstFrom(es, k, i) && i < |es| && LeadsHome(mem, es[i], k)
  }

  ghost predicate LeadsHome(mem: Mem, e: CacheEntry, k: Key) {
    && e.Contains(k) && e.page.Some? && e.page.value.Internal?
    && var c := Route(e.page.value.leftmost, e.page.value.entries, k);
       c in mem && mem[c].Covers(k)
  }

  /** No cached page claims the key. */
  ghost predicate Misses(es: seq<CacheEntry>, k: Key) {
    forall i: nat :: FirstFrom(es, k, i) && i < |es| ==> !(es[i].page.Some? && es[i].Contains(k))
  }

  /** An entry for the range of the present page around the key is found first:
      no range that any page ever had lies within it. */
  lemma PresentIsFirst(mem: Mem, lv: Levels, past: set<Page>, es: seq<CacheEntry>, a: Addr, k: Key, i: nat)
    requires CacheOk(mem, lv, past, es) && |lv| > 1 && a in lv[1] && a in mem && mem[a].Covers(k)
    requires i < |es| && IsFor(es[i], mem[a])
    ensures FirstFrom(es, k, i)
  {
    forall j | 0 <= j < i ensures Cmp(es[j], CacheEntry(k, k, None)) < 0 {
      assert FromPast(es[j], past) && Cmp(es[j], es[i]) < 0;
      var p :| p in past && IsFor(es[j], p);
      assert Past(mem, lv, p);
      assert Inside(mem[a], p);
    }
  }

  /** If the search of the cache misses the key, the present page around the key
      is not cached. */
  lemma MissedNotCached(mem: Mem, lv: Levels, past: set<Page>, es: seq<CacheEntry>, a: Addr, k: Key)
    requires CacheOk(mem, lv, past, es) && |lv| > 1 && a in lv[1] && a in mem && mem[a].Covers(k)
    requires Misses(es, k)
    ensures !Cached(es, EntryFor(mem[a]))
  {
    hide CacheOk;
    var e := EntryFor(mem[a]);
    if Cached(es, e) {
      var x :| x in es && x.SameRange(e) && x.page.Some?;
      var i :| 0 <= i < |es| && es[i] == x;
      PresentIsFirst(mem, lv, past, es, a, k, i);
    }
  }

  /** A stale entry that was found for the key and lost its page. */
  lemma DroppedMisses(was: seq<CacheEntry>, k: Key, e: CacheEntry, es: seq<CacheEntry>, i: nat)
    requires InOrder(was) && FirstFrom(was, k, i) && i < |was| && was[i] == e && Invalidated(was, e.from, e.to, es)
    ensures Misses(es, k)
  {
    forall j: nat | FirstFrom(es, k, j) && j < |es| ensures !(es[j].page.Some? && es[j].Contains(k)) {
      assert forall n :: 0 <= n < |es| ==> Cmp(es[n], CacheEntry(k, k, None)) == Cmp(was[n], CacheEntry(k, k, None));
      assert FirstFrom(was, k, j);
      OneFirst(was, k, i, j);
    }
  }

  /** With a free page, remembering the present page around a missed key makes the
      cache lead to the leaf that covers the key. */
  lemma RememberedWarm(mem: Mem, lv: Levels, past: set<Page>, was: seq<CacheEntry>, free: int, a: Addr, k: Key, past': set<Page>, es: seq<CacheEntry>, free': int)
    requires BLink(mem, lv) && Complete(mem, lv, {}) && |lv| > 1 && a in lv[1] && a in mem && mem[a].Covers(k) && k < KEY_MAX
    requires CacheOk(mem, lv, past, was) && CacheOk(mem, lv, past', es) && Misses(was, k) && free > 0
    requires Remembered(was, free, mem[a], es, free')
    ensures Warm(mem, es, k)
  {
    hide BLink, Complete, CacheOk;
    var e := EntryFor(mem[a]);
    MissedNotCached(mem, lv, past, was, a, k);
    assert e in es;
    var i :| 0 <= i < |es| && es[i] == e;
    PresentIsFirst(mem, lv, past', es, a, k, i);
    RoutesHome(mem, lv, 1, a, k);
    assert LeadsHome(mem, es[i], k);
  }

  /** A cache without pages then holds just this one. */
  ghost predicate OnlyPage(es: seq<CacheEntry>, p: Page)
    requires p.lowest < p.highest
  {
    && EntryFor(p) in es
    && forall e :: e in es && e.page.Some? ==> e.page.value == p
  }

  ghost predicate NoPage(es: seq<CacheEntry>) { forall e :: e in es ==> e.page.None? }

  lemma RememberedAlone(was: seq<CacheEntry>, free: int, p: Page, es: seq<CacheEntry>, free': int)
    requires NoPage(was) && free > 0 && p.lowest < p.highest && Remembered(was, free, p, es, free')
    ensures OnlyPage(es, p)
  {
  }

  class Cache {
    var entries: seq<CacheEntry>
    var freePages: int

    constructor (pages: nat)
      ensures entries == [] && freePages == pages
    {
      entries, freePages := [], pages;
    }

    /** Position of the first entry not before the probe. */
    method Seek(probe: CacheEntry) returns (i: nat)
      ensures i <= |entries|
      ensures forall j :: 0 <= j < i ==> Cmp(entries[j], probe) < 0
      ensures i < |entries| ==> Cmp(entries[i], probe) >= 0
    {
      i := 0;
      while i < |entries| && Cmp(entries[i], probe) < 0
        invariant 0 <= i <= |entries|
        invariant forall j :: 0 <= j < i ==> Cmp(entries[j], probe) < 0
      {
        i := i + 1;
      }
    }

    /** Drop the page of the entry with this range. */
    method Invalidate(from: Key, to: Key)
      requires InOrder(entries)
      modifies this`entries
      ensures Weaker(entries, old(entries)) && Invalidated(old(entries), from, to, entries)
    {
      var i := Seek(CacheEntry(from, to, None));
      if i < |entries| { assert forall j :: i < j < |entries| ==> Cmp(entries[i], entries[j]) < 0; }
      if i < |entries| && entries[i].from == from && entries[i].to == to {
        entries := entries[i := entries[i].(page := None)];
      }
    }

    /** Of two random cached pages the less used one goes; which one that is is
        left open here. */
    method EvictOne()
      requires exists e :: e in entries && e.page.Some?
      modifies this`entries
      ensures OneEvicted(old(entries), entries)
    {
      var i :| 0 <= i < |entries| && entries[i].page.Some?;
      entries := entries[i := entries[i].(page := None)];
    }

    /** Insert the entry, or fill the one with its range if that lost its page. */
    method Place(e: CacheEntry) returns (added: bool)
      requires InOrder(entries) && e.page.Some?
      modifies this`entries
      ensures InOrder(entries)
      ensures added <==> !Cached(old(entries), e)
      ensures if added then Places(old(entries), e, entries) else entries == old(entries)
    {
      hide Places;
      var i := Seek(e);
      ghost var es := entries;
      added := !(i < |entries| && entries[i].SameRange(e) && entries[i].page.Some?);
      SameRangeAt(es, e, i);
      if !added {
        assert es[i] in es;
        return;
      }
      if i < |entries| && entries[i].SameRange(e) {
        entries := entries[i := e];
      } else {
        entries := entries[..i] + [e] + entries[i..];
        InsertInOrder(es, e, i);
      }
      PlacesAt(es, e, i, entries);
    }

    /** Cache a copy of a level-1 page that was read at some time, unless a page
        with its range is cached already; make room when no free page was left. */
    method AddToCache(p: Page, ghost mem: Mem, ghost lv: Levels, ghost past: set<Page>) returns (added: bool)
      requires CacheOk(mem, lv, past, entries) && p in past
      modifies this
      ensures CacheOk(mem, lv, past, entries)
      ensures p.lowest < p.highest
      ensures added <==> !Cached(old(entries), EntryFor(p))
      ensures Remembered(old(entries), old(freePages), p, entries, freePages)
    {
      assert Past(mem, lv, p);
      hide PastOk, Past;
      var e := EntryFor(p);
      ghost var es := entries;
      added := Place(e);
      if !added { return; }
      ghost var placed := entries;
      PlacedOk(mem, lv, past, es, e, p, placed);
      hide CacheOk, Places, OneEvicted;
      assert e in placed by { InPlaces(es, e, placed); }
      var free := freePages;
      freePages := freePages - 1;
      if free <= 0 {
        EvictOne();
        EvictedOk(mem, lv, past, placed, entries);
      }
      assert PlacesWithin(es, e, free, entries);
    }

    /** The leaf to start at for k, and the entry that named it. */
    method SearchFromCache(k: Key) returns (hit: bool, addr: Addr, entry: CacheEntry)
      requires InOrder(entries) && forall e :: e in entries && e.page.Some? ==> EntriesOk(e.page.value)
      ensures hit ==> entry in entries && entry.page.Some? && entry.Contains(k) && entry.page.value.Internal?
      ensures hit ==> addr == Route(entry.page.value.leftmost, entry.page.value.entries, k)
      ensures hit ==> exists i: nat :: FirstFrom(entries, k, i) && i < |entries| && entries[i] == entry
      ensures !hit ==> forall i: nat :: FirstFrom(entries, k, i) && i < |entries| ==> !(entries[i].page.Some? && entries[i].Contains(k))
    {
      hit, addr, entry := false, NULL, CacheEntry(0, 0, None);
      var i := Seek(CacheEntry(k, k, None));
      assert FirstFrom(entries, k, i);
      forall j | FirstFrom(entries, k, j) ensures j == i { OneFirst(entries, k, i, j); }
      if i == |entries| { return; }
      entry := entries[i];
      assert entry in entries;
      if entry.page.None? || !(entry.from <= k && entry.to >= k) { return; }
      var p := entry.page.value;
      hit := true;
      if k < p.entries[0].key {
        addr := p.leftmost;
      } else {
        var n := 1;
        while n < |p.entries| && !(k < p.entries[n].key)
          invariant 1 <= n <= |p.entries| && forall j :: 0 <= j < n ==> p.entries[j].key <= k
        {
          n := n + 1;
        }
        addr := p.entries[n - 1].ptr;
        assert Slot(p.entries, k) == n;
      }
    }
  }

  lemma PlacedOk(mem: Mem, lv: Levels, past: set<Page>, es: seq<CacheEntry>, e: CacheEntry, p: Page, es': seq<CacheEntry>)
    requires CacheOk(mem, lv, past, es) && InOrder(es') && Places(es, e, es')
    requires p in past && e.page == Some(p) && IsFor(e, p)
    ensures CacheOk(mem, lv, past, es')
  {
    hide PastOk, InOrder;
    forall i | 0 <= i < |es'| ensures FromPast(es'[i], past) {
      if es'[i] != e {
        assert es'[i] in es';
        var j :| 0 <= j < |es| && es[j] == es'[i];
        assert FromPast(es[j], past);
      }
    }
  }

  lemma InPlaces(es: seq<CacheEntry>, e: CacheEntry, es': seq<CacheEntry>)
    requires Places(es, e, es')
    ensures e in es'
  {
  }

  lemma EvictedOk(mem: Mem, lv: Levels, past: set<Page>, was: seq<CacheEntry>, es: seq<CacheEntry>)
    requires CacheOk(mem, lv, past, was) && OneEvicted(was, es)
    ensures CacheOk(mem, lv, past, es)
  {
    hide CacheOk;
    WeakerOk(mem, lv, past, was, es);
  }

  /** If the range is in the list, it is where the seek ends. */
  lemma SameRangeAt(es: seq<CacheEntry>, e: CacheEntry, i: nat)
    requires InOrder(es) && i <= |es|
    requires forall j :: 0 <= j < i ==> Cmp(es[j], e) < 0
    requires i < |es| ==> Cmp(es[i], e) >= 0
    ensures forall j :: 0 <= j < |es| && es[j].SameRange(e) ==> j == i
  {
    if i < |es| { assert forall j :: i < j < |es| ==> Cmp(es[i], es[j]) < 0; }
  }

  lemma PlacesAt(es: seq<CacheEntry>, e: CacheEntry, i: nat, es': seq<CacheEntry>)
    requires i <= |es| && e.page.Some? && forall j :: 0 <= j < |es| && es[j].SameRange(e) ==> j == i
    requires if i < |es| && es[i].SameRange(e) then es' == es[i := e] else es' == es[..i] + [e] + es[i..]
    ensures Places(es, e, es')
  {
    assert es'[i] == e;
    forall x | x in es && !x.SameRange(e) ensures x in es' {
      var j :| 0 <= j < |es| && es[j] == x;
      if |es'| == |es| || j < i { assert es'[j] == x; } else { assert es'[j + 1] == x; }
    }
  }

  lemma OneFirst(es: seq<CacheEntry>, k: Key, i: nat, j: nat)
    requires FirstFrom(es, k, i) && FirstFrom(es, k, j)
    ensures i == j
  {
  }

  lemma InsertInOrder(es: seq<CacheEntry>, e: CacheEntry, i: nat)
    requires InOrder(es) && i <= |es|
    requires forall j :: 0 <= j < i ==> Cmp(es[j], e) < 0
    requires i < |es| ==> Cmp(es[i], e) > 0
    ensures InOrder(es[..i] + [e] + es[i..])
  {
    var r := es[..i] + [e] + es[i..];
    forall a, b | 0 <= a < b < |r| ensures Cmp(r[a], r[b]) < 0 {
      if a == i && b > i + 1 { assert Cmp(es[i], es[b - 1]) < 0; }
    }
  }
}
