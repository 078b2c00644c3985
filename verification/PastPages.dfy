/** Level-1 pages as they were at some time: what a cache may still hold.

    A page only ever gives keys away to a new right neighbour, so the ranges
    that level-1 pages ever had nest, and what an old page leads to is still a
    leaf that starts where it did. */
module PastPages {
  import opened Pages
  import opened Blink

  /** Every page of the new chain lies within a page of the old one. */
  ghost predicate Narrows(mem: Mem, c: seq<Addr>, mem': Mem, c': seq<Addr>) {
    forall b :: b in c' && b in mem' ==> Within(mem, c, mem'[b])
  }

  ghost predicate Within(mem: Mem, c: seq<Addr>, p: Page) {
    exists a :: a in c && a in mem && mem[a].lowest <= p.lowest && p.highest <= mem[a].highest
  }

  lemma UpdateNarrows(mem: Mem, c: seq<Addr>, a: Addr, p: Page)
    requires a in mem && SameFences(mem[a], p)
    ensures Narrows(mem, c, mem[a := p], c)
  {
    var mem' := mem[a := p];
    forall b | b in c && b in mem' ensures Within(mem, c, mem'[b]) {
      assert b in mem && mem[b].lowest <= mem'[b].lowest;
    }
  }

  lemma LinkNarrows(mem: Mem, lv: Levels, l: nat, i: nat, s: Addr, left: Page, l': nat)
    requires BLink(mem, lv) && l < |lv| && i < |lv[l]| && l' < |lv|
    requires s in mem && Unlinked(lv, s) && Splits(mem[lv[l][i]], s, left, mem[s])
    ensures Narrows(mem, lv[l'], mem[lv[l][i] := left], LinkAfter(lv, l, i, s)[l'])
  {
    hide BLink;
    var mem', lv' := mem[lv[l][i] := left], LinkAfter(lv, l, i, s);
    forall b | b in lv'[l'] && b in mem' ensures Within(mem, lv[l'], mem'[b]) {
      var a := if b == s then lv[l][i] else b;
      LinkOrigin(mem, lv, l, i, s, l', b);
      PageAt(mem, lv, l, lv[l][i]);
      assert a in lv[l'] && a in mem && mem[a].lowest <= mem'[b].lowest;
    }
  }

  lemma SameNarrows(mem: Mem, c: seq<Addr>, mem': Mem)
    requires forall b :: b in c ==> b in mem && b in mem' && mem'[b] == mem[b]
    ensures Narrows(mem, c, mem', c)
  {
    forall b | b in c && b in mem' ensures Within(mem, c, mem'[b]) {
      assert mem[b].lowest <= mem'[b].lowest;
    }
  }

  /** The ranges are disjoint, or q's lies in p's. */
  ghost predicate Inside(q: Page, p: Page) {
    q.highest <= p.lowest || p.highest <= q.lowest || (p.lowest <= q.lowest && q.highest <= p.highest)
  }

  ghost predicate Nested(p: Page, q: Page) { Inside(q, p) || Inside(p, q) }

  /** A page with children that still start where it says, around which all
      pages of the present chain nest. */
  ghost predicate Past(mem: Mem, lv: Levels, p: Page) {
    && |lv| > 1 && EntriesOk(p) && p.lowest < p.highest && ChildrenOk(mem, lv[0], p)
    && forall a :: a in lv[1] && a in mem ==> Inside(mem[a], p)
  }

  ghost predicate PastOk(mem: Mem, lv: Levels, past: set<Page>) {
    && (forall p :: p in past ==> Past(mem, lv, p))
    && forall p, q :: p in past && q in past ==> Nested(p, q)
  }

  /** No page write spoils a page of the past. */
  lemma PastSurvives(mem: Mem, lv: Levels, mem': Mem, lv': Levels, past: set<Page>)
    requires |lv| > 0 && Extends(mem, lv, mem', lv') && PastOk(mem, lv, past)
    requires |lv| > 1 ==> Narrows(mem, lv[1], mem', lv'[1])
    ensures PastOk(mem', lv', past)
  {
    hide Extends, Narrows, Nested, EntriesOk, ChildrenOk, Inside;
    forall p | p in past ensures Past(mem', lv', p) {
      OnePastSurvives(mem, lv, mem', lv', p);
    }
  }

  lemma OnePastSurvives(mem: Mem, lv: Levels, mem': Mem, lv': Levels, p: Page)
    requires |lv| > 0 && Extends(mem, lv, mem', lv') && Past(mem, lv, p) && Narrows(mem, lv[1], mem', lv'[1])
    ensures Past(mem', lv', p)
  {
    hide EntriesOk, ChildrenOk, Inside;
    ChildrenExtend(mem, lv, mem', lv', 0, p);
    assert |lv'| > 1;
    hide Extends;
    forall b | b in lv'[1] && b in mem' ensures Inside(mem'[b], p) {
      assert Within(mem, lv[1], mem'[b]);
      var a :| a in lv[1] && a in mem && mem[a].lowest <= mem'[b].lowest && mem'[b].highest <= mem[a].highest;
      StillInside(mem[a], mem'[b], p);
    }
  }

  lemma StillInside(q: Page, q': Page, p: Page)
    requires Inside(q, p) && q.lowest <= q'.lowest && q'.highest <= q.highest
    ensures Inside(q', p)
  {
  }

  /** Every page is past the moment it has been read. */
  lemma CurrentIsPast(mem: Mem, lv: Levels, past: set<Page>, a: Addr)
    requires BLink(mem, lv) && |lv| > 1 && a in lv[1] && a in mem && PastOk(mem, lv, past)
    ensures PastOk(mem, lv, past + {mem[a]})
  {
    hide BLink;
    PageAt(mem, lv, 1, a);
    forall b | b in lv[1] && b in mem ensures Inside(mem[b], mem[a]) {
      PageAt(mem, lv, 1, b);
      TilesAt(mem, lv, 1);
      if mem[a].lowest <= mem[b].lowest < mem[a].highest { SamePage(mem, lv[1], 1, a, b); }
      if mem[b].lowest <= mem[a].lowest < mem[b].highest { SamePage(mem, lv[1], 1, b, a); }
    }
    hide EntriesOk, ChildrenOk;
    assert forall p :: p in past ==> Past(mem, lv, p) && Inside(mem[a], p);
  }

  /** A page of the past leads to a leaf that starts no later than the key, so
      a stale start shows only as a key at or above the leaf's upper fence. */
  lemma PastLeads(mem: Mem, lv: Levels, p: Page, k: Key)
    requires Past(mem, lv, p) && p.Covers(k)
    ensures var c := Route(p.leftmost, p.entries, k);
            c in lv[0] && c in mem && mem[c].lowest <= k && (mem[c].Covers(k) <==> k < mem[c].highest)
  {
    var i := Slot(p.entries, k);
    if i > 0 { assert ChildOk(mem, lv[0], p.entries[i - 1].ptr, p.entries[i - 1].key); }
  }
}
