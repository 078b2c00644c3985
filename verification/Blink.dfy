/** The linked levels of the tree and the page writes that keep them linked.

    `lv[l]` names the pages of level l from left to right.  Nothing in the
    program stores it: it is the chain one obtains by following right-links
    from the leftmost page.  The invariant tolerates separators that have not
    reached the parent yet, so it holds between the page writes of a split. */
module Blink {
  import opened Pages

  type Mem = map<Addr, Page>
  type Levels = seq<seq<Addr>>

  /** y is the right neighbour of x. */
  ghost predicate Linked(mem: Mem, x: Addr, y: Addr)
    requires x in mem && y in mem
  {
    mem[x].sibling == y && mem[x].highest == mem[y].lowest
  }

  /** The pages of a chain tile the whole key space. */
  ghost predicate Tiles(mem: Mem, c: seq<Addr>, l: nat) {
    && |c| > 0
    && (forall i :: 0 <= i < |c| ==> OnLevel(mem, c[i], l))
    && mem[c[0]].lowest == 0
    && (forall i, j :: 0 <= i && j == i + 1 < |c| ==> Linked(mem, c[i], c[j]))
    && mem[c[|c| - 1]].highest == KEY_MAX
    && mem[c[|c| - 1]].sibling == NULL
  }

  ghost predicate OnLevel(mem: Mem, a: Addr, l: nat) {
    && a != NULL && a in mem
    && mem[a].Level() == l
    && (mem[a].Leaf? <==> l == 0)
    && mem[a].lowest < mem[a].highest
  }

  /** Every separator is the `lowest` of the child it leads to. */
  ghost predicate ChildrenOk(mem: Mem, below: seq<Addr>, p: Page) {
    && p.Internal?
    && ChildOk(mem, below, p.leftmost, p.lowest)
    && forall i :: 0 <= i < |p.entries| ==> ChildOk(mem, below, p.entries[i].ptr, p.entries[i].key)
  }

  ghost predicate ChildOk(mem: Mem, below: seq<Addr>, c: Addr, k: Key) {
    c in below && c in mem && mem[c].lowest == k
  }

  ghost predicate PageOk(mem: Mem, lv: Levels, l: nat, p: Page)
    requires l < |lv|
  {
    if l == 0 then LeafOk(p) else EntriesOk(p) && ChildrenOk(mem, lv[l - 1], p)
  }

  ghost predicate BLink(mem: Mem, lv: Levels) {
    && |lv| > 0
    && (forall l :: 0 <= l < |lv| ==> Tiles(mem, lv[l], l))
    && (forall l, a {:trigger InPlace(mem, lv, l, a)} :: 0 <= l < |lv| && a in lv[l] ==> InPlace(mem, lv, l, a))
  }

  ghost predicate InPlace(mem: Mem, lv: Levels, l: nat, a: Addr)
    requires l < |lv|
  {
    a in mem && PageOk(mem, lv, l, mem[a])
  }

  ghost predicate Unlinked(lv: Levels, s: Addr) {
    forall l :: 0 <= l < |lv| ==> s !in lv[l]
  }

  /** What later page writes never take back: a page stays on its level and
      keeps its lower fence. */
  ghost predicate Extends(mem: Mem, lv: Levels, mem': Mem, lv': Levels) {
    && |lv| <= |lv'|
    && forall l, a {:trigger a in lv[l]} :: 0 <= l < |lv| && a in lv[l] ==>
        a in lv'[l] && a in mem && a in mem' && mem'[a].lowest == mem[a].lowest
  }

  lemma ExtendsTransitive(m0: Mem, l0: Levels, m1: Mem, l1: Levels, m2: Mem, l2: Levels)
    requires Extends(m0, l0, m1, l1) && Extends(m1, l1, m2, l2)
    ensures Extends(m0, l0, m2, l2)
  {
    forall l, a | 0 <= l < |l0| && a in l0[l]
      ensures a in l2[l] && a in m0 && a in m2 && m2[a].lowest == m0[a].lowest
    {
      assert a in l1[l];
    }
  }

  lemma PageAt(mem: Mem, lv: Levels, l: nat, a: Addr)
    requires BLink(mem, lv) && l < |lv| && a in lv[l]
    ensures a in mem && OnLevel(mem, a, l) && PageOk(mem, lv, l, mem[a])
  {
    assert InPlace(mem, lv, l, a);
  }

  lemma TilesAt(mem: Mem, lv: Levels, l: nat)
    requires BLink(mem, lv) && l < |lv|
    ensures Tiles(mem, lv[l], l)
  {
  }

  // ------------------------------------------------------------ chain order

  lemma {:induction false} Ordered(mem: Mem, c: seq<Addr>, l: nat, i: nat, j: nat)
    requires Tiles(mem, c, l) && i < j < |c|
    ensures mem[c[i]].highest <= mem[c[j]].lowest
    decreases j
  {
    assert Linked(mem, c[j - 1], c[j]);
    if i < j - 1 {
      Ordered(mem, c, l, i, j - 1);
      assert OnLevel(mem, c[j - 1], l);
    }
  }

  /** At most one page of a level covers a key, and fences name pages. */
  lemma SamePage(mem: Mem, c: seq<Addr>, l: nat, a: Addr, b: Addr)
    requires Tiles(mem, c, l) && a in c && b in c
    requires mem[a].lowest <= mem[b].lowest < mem[a].highest
    ensures a == b
  {
    var i :| 0 <= i < |c| && c[i] == a;
    var j :| 0 <= j < |c| && c[j] == b;
    assert OnLevel(mem, c[j], l);
    if i < j { Ordered(mem, c, l, i, j); }
    if j < i { Ordered(mem, c, l, j, i); }
  }

  lemma OneIndex(mem: Mem, c: seq<Addr>, l: nat, i: nat, j: nat)
    requires Tiles(mem, c, l) && i < |c| && j < |c| && c[i] == c[j]
    ensures i == j
  {
    assert OnLevel(mem, c[i], l);
    if i < j { Ordered(mem, c, l, i, j); }
    if j < i { Ordered(mem, c, l, j, i); }
  }

  lemma LevelsDisjoint(mem: Mem, lv: Levels, l: nat, l': nat, a: Addr)
    requires BLink(mem, lv) && l < |lv| && l' < |lv| && a in lv[l] && a in lv[l']
    ensures l == l'
  {
    assert OnLevel(mem, a, l) && OnLevel(mem, a, l');
  }

  /** A page that does not cover a key it starts before has a right neighbour,
      which starts no later than the key. */
  lemma TurnRight(mem: Mem, lv: Levels, l: nat, a: Addr, k: Key)
    requires BLink(mem, lv) && l < |lv| && a in lv[l]
    requires mem[a].highest <= k < KEY_MAX
    ensures mem[a].sibling != NULL && mem[a].sibling in lv[l]
    ensures mem[mem[a].sibling].lowest == mem[a].highest <= k
  {
    var c := lv[l];
    var i :| 0 <= i < |c| && c[i] == a;
    assert Linked(mem, c[i], c[i + 1]);
    assert OnLevel(mem, c[i + 1], l);
  }

  /** The child a covering internal page routes a key to starts no later than
      the key, and no earlier than the page itself. */
  lemma DescendsTo(mem: Mem, lv: Levels, l: nat, a: Addr, k: Key)
    requires BLink(mem, lv) && 0 < l < |lv| && a in lv[l] && mem[a].Covers(k)
    ensures mem[a].Internal?
    ensures var c := Route(mem[a].leftmost, mem[a].entries, k);
            c in lv[l - 1] && c in mem && mem[a].lowest <= mem[c].lowest <= k
  {
    assert InPlace(mem, lv, l, a);
    var p := mem[a];
    var i := Slot(p.entries, k);
    if i > 0 {
      assert ChildOk(mem, lv[l - 1], p.entries[i - 1].ptr, p.entries[i - 1].key);
    }
  }

  // ------------------------------------------------------------ page writes

  ghost predicate SameFences(p: Page, q: Page) {
    && p.Leaf? == q.Leaf? && p.Level() == q.Level()
    && p.lowest == q.lowest && p.highest == q.highest && p.sibling == q.sibling
  }

  lemma ChildrenExtend(mem: Mem, lv: Levels, mem': Mem, lv': Levels, l: nat, p: Page)
    requires Extends(mem, lv, mem', lv') && l < |lv| && ChildrenOk(mem, lv[l], p)
    ensures ChildrenOk(mem', lv'[l], p)
  {
    forall i | 0 <= i < |p.entries|
      ensures ChildOk(mem', lv'[l], p.entries[i].ptr, p.entries[i].key)
    {
      assert ChildOk(mem, lv[l], p.entries[i].ptr, p.entries[i].key);
    }
  }

  /** Pages whose own contents did not change stay well formed. */
  lemma PageExtends(mem: Mem, lv: Levels, mem': Mem, lv': Levels, l: nat, p: Page)
    requires Extends(mem, lv, mem', lv') && l < |lv| && PageOk(mem, lv, l, p)
    ensures PageOk(mem', lv', l, p)
  {
    if l > 0 { ChildrenExtend(mem, lv, mem', lv', l - 1, p); }
  }

  lemma AddPage(mem: Mem, lv: Levels, s: Addr, r: Page)
    requires BLink(mem, lv) && Unlinked(lv, s)
    ensures BLink(mem[s := r], lv) && Extends(mem, lv, mem[s := r], lv)
  {
    var mem' := mem[s := r];
    forall l | 0 <= l < |lv| ensures Tiles(mem', lv[l], l) {
      TilesFrame(mem, mem', lv[l], l);
    }
    forall l, a | 0 <= l < |lv| && a in lv[l] ensures InPlace(mem', lv, l, a) {
      assert InPlace(mem, lv, l, a);
      PageExtends(mem, lv, mem', lv, l, mem[a]);
    }
  }

  lemma TilesFrame(mem: Mem, mem': Mem, c: seq<Addr>, l: nat)
    requires Tiles(mem, c, l)
    requires forall a :: a in c ==> a in mem' && SameFences(mem[a], mem'[a])
    ensures Tiles(mem', c, l)
  {
    forall i | 0 <= i < |c| ensures OnLevel(mem', c[i], l) { assert OnLevel(mem, c[i], l); }
    forall i, j | 0 <= i && j == i + 1 < |c| ensures Linked(mem', c[i], c[j]) {
      assert Linked(mem, c[i], c[j]);
    }
  }

  /** Rewriting a page inside its fences. */
  lemma Update(mem: Mem, lv: Levels, l: nat, a: Addr, p: Page)
    requires BLink(mem, lv) && l < |lv| && a in lv[l]
    requires SameFences(mem[a], p) && PageOk(mem, lv, l, p)
    ensures BLink(mem[a := p], lv) && Extends(mem, lv, mem[a := p], lv)
  {
    var mem' := mem[a := p];
    assert Extends(mem, lv, mem', lv);
    forall l' | 0 <= l' < |lv| ensures Tiles(mem', lv[l'], l') {
      TilesFrame(mem, mem', lv[l'], l');
    }
    forall l', b | 0 <= l' < |lv| && b in lv[l'] ensures InPlace(mem', lv, l', b) {
      assert InPlace(mem, lv, l', b);
      if a == b { LevelsDisjoint(mem, lv, l, l', a); }
      PageExtends(mem, lv, mem', lv, l', mem'[b]);
    }
  }

  function Inserted(c: seq<Addr>, i: nat, s: Addr): (r: seq<Addr>)
    requires i < |c|
    ensures |r| == |c| + 1
    ensures forall j :: 0 <= j < |r| ==> r[j] == if j <= i then c[j] else if j == i + 1 then s else c[j - 1]
    ensures forall x :: x in r <==> x in c || x == s
  {
    assert forall j :: 0 <= j < |c| ==> c[j] in c[..i + 1] + [s] + c[i + 1..] by {
      forall j | 0 <= j < |c| ensures c[j] in c[..i + 1] + [s] + c[i + 1..] {
        if j <= i { assert c[j] == c[..i + 1][j]; } else { assert c[j] == c[i + 1..][j - i - 1]; }
      }
    }
    c[..i + 1] + [s] + c[i + 1..]
  }

  /** The shrunken page and the sibling that takes over the rest of its range. */
  ghost predicate Splits(p: Page, s: Addr, left: Page, right: Page) {
    && p.Leaf? == left.Leaf? == right.Leaf?
    && p.Level() == left.Level() == right.Level()
    && left.lowest == p.lowest < left.highest == right.lowest < right.highest == p.highest
    && left.sibling == s && right.sibling == p.sibling
  }

  lemma TilesInsert(mem: Mem, c: seq<Addr>, l: nat, i: nat, s: Addr, left: Page)
    requires Tiles(mem, c, l) && i < |c| && s in mem && s != NULL && s !in c
    requires Splits(mem[c[i]], s, left, mem[s])
    ensures Tiles(mem[c[i] := left], Inserted(c, i, s), l)
  {
    var mem', c' := mem[c[i] := left], Inserted(c, i, s);
    assert OnLevel(mem, c[i], l);
    forall j | 0 <= j < |c'| ensures OnLevel(mem', c'[j], l) {
      if j <= i { assert OnLevel(mem, c[j], l); }
      else if j > i + 1 { assert OnLevel(mem, c[j - 1], l); }
    }
    forall j, j' | 0 <= j && j' == j + 1 < |c'| ensures Linked(mem', c'[j], c'[j']) {
      if j < i { OneLink(mem, c, l, i, j); }
      else if j > i { if j > i + 1 { OneLink(mem, c, l, i, j - 1); } else { assert Linked(mem, c[i], c[i + 1]); LaterDiffers(mem, c, l, i, i + 1); } }
    }
    if i < |c| - 1 { LaterDiffers(mem, c, l, i, |c| - 1); }
  }

  lemma LaterDiffers(mem: Mem, c: seq<Addr>, l: nat, i: nat, j: nat)
    requires Tiles(mem, c, l) && i < |c| && j < |c| && i != j
    ensures c[i] != c[j]
  {
    if c[i] == c[j] { OneIndex(mem, c, l, i, j); }
  }

  lemma OneLink(mem: Mem, c: seq<Addr>, l: nat, i: nat, j: nat)
    requires Tiles(mem, c, l) && i < |c| && j + 1 < |c| && i != j
    ensures c[i] != c[j] && Linked(mem, c[j], c[j + 1])
    ensures j + 1 != i ==> c[i] != c[j + 1]
  {
    LaterDiffers(mem, c, l, i, j);
    if j + 1 != i { LaterDiffers(mem, c, l, i, j + 1); }
  }

  function LinkAfter(lv: Levels, l: nat, i: nat, s: Addr): (r: Levels)
    requires l < |lv| && i < |lv[l]|
    ensures |r| == |lv|
  {
    lv[l := Inserted(lv[l], i, s)]
  }

  /** Writing the shrunken page links the sibling, which was written before and
      was unreachable until now. */
  lemma Link(mem: Mem, lv: Levels, l: nat, i: nat, s: Addr, left: Page)
    requires BLink(mem, lv) && l < |lv| && i < |lv[l]|
    requires s in mem && s != NULL && Unlinked(lv, s)
    requires Splits(mem[lv[l][i]], s, left, mem[s])
    requires PageOk(mem, lv, l, left) && PageOk(mem, lv, l, mem[s])
    ensures BLink(mem[lv[l][i] := left], LinkAfter(lv, l, i, s))
    ensures Extends(mem, lv, mem[lv[l][i] := left], LinkAfter(lv, l, i, s))
  {
    var a := lv[l][i];
    var mem', lv' := mem[a := left], LinkAfter(lv, l, i, s);
    assert OnLevel(mem, a, l);
    assert Extends(mem, lv, mem', lv');
    forall l' | 0 <= l' < |lv'| ensures Tiles(mem', lv'[l'], l') {
      LinkTiles(mem, lv, l, i, s, left, l');
    }
    forall l', b | 0 <= l' < |lv'| && b in lv'[l'] ensures InPlace(mem', lv', l', b) {
      LinkPage(mem, lv, l, i, s, left, l', b);
    }
  }

  lemma LinkPage(mem: Mem, lv: Levels, l: nat, i: nat, s: Addr, left: Page, l': nat, b: Addr)
    requires BLink(mem, lv) && l < |lv| && i < |lv[l]| && l' < |lv| && Unlinked(lv, s)
    requires s in mem && PageOk(mem, lv, l, left) && PageOk(mem, lv, l, mem[s])
    requires Extends(mem, lv, mem[lv[l][i] := left], LinkAfter(lv, l, i, s))
    requires b in LinkAfter(lv, l, i, s)[l']
    ensures b in mem && PageOk(mem[lv[l][i] := left], LinkAfter(lv, l, i, s), l', mem[lv[l][i] := left][b])
  {
    LinkOrigin(mem, lv, l, i, s, l', b);
    PageExtends(mem, lv, mem[lv[l][i] := left], LinkAfter(lv, l, i, s), l', mem[lv[l][i] := left][b]);
  }

  lemma LinkTiles(mem: Mem, lv: Levels, l: nat, i: nat, s: Addr, left: Page, l': nat)
    requires BLink(mem, lv) && l < |lv| && i < |lv[l]| && l' < |lv|
    requires s in mem && s != NULL && Unlinked(lv, s)
    requires Splits(mem[lv[l][i]], s, left, mem[s])
    ensures Tiles(mem[lv[l][i] := left], LinkAfter(lv, l, i, s)[l'], l')
  {
    if l' == l {
      TilesInsert(mem, lv[l], l, i, s, left);
    } else {
      forall b | b in lv[l'] ensures b in mem && b != lv[l][i] {
        if b == lv[l][i] { LevelsDisjoint(mem, lv, l, l', b); }
      }
      TilesFrame(mem, mem[lv[l][i] := left], lv[l'], l');
    }
  }

  /** A page linked afterwards is the new one, on its level, or an old one. */
  lemma LinkOrigin(mem: Mem, lv: Levels, l: nat, i: nat, s: Addr, l': nat, b: Addr)
    requires BLink(mem, lv) && l < |lv| && i < |lv[l]| && l' < |lv| && Unlinked(lv, s)
    requires b in LinkAfter(lv, l, i, s)[l']
    ensures b == s ==> l' == l
    ensures b != s ==> b in lv[l'] && b in mem && PageOk(mem, lv, l', mem[b])
    ensures b == lv[l][i] ==> l' == l
  {
    if b != s {
      assert InPlace(mem, lv, l', b);
      if b == lv[l][i] { LevelsDisjoint(mem, lv, l, l', b); }
    }
  }

  /** Installing a page above the top level. */
  lemma Grow(mem: Mem, lv: Levels, s: Addr)
    requires BLink(mem, lv) && s in mem && s != NULL && Unlinked(lv, s)
    requires mem[s].Internal? && mem[s].level == |lv| && EntriesOk(mem[s])
    requires mem[s].lowest == 0 && mem[s].highest == KEY_MAX && mem[s].sibling == NULL
    requires ChildrenOk(mem, lv[|lv| - 1], mem[s])
    ensures BLink(mem, lv + [[s]]) && Extends(mem, lv, mem, lv + [[s]])
  {
    var lv' := lv + [[s]];
    assert Tiles(mem, lv'[|lv|], |lv|);
    forall l | 0 <= l < |lv'| ensures Tiles(mem, lv'[l], l) {
      if l < |lv| { assert Tiles(mem, lv[l], l); }
    }
    forall l, a | 0 <= l < |lv'| && a in lv'[l] ensures InPlace(mem, lv', l, a) {
      if l < |lv| { assert InPlace(mem, lv, l, a); }
    }
  }

  // ------------------------------------------------------ the map it stores

  type Kv = map<Key, Value>

  function KvGet(kv: Kv, k: Key): Value {
    if k in kv then kv[k] else VALUE_NULL
  }

  /** The leaves hold exactly kv: any leaf that covers a key answers for it. */
  ghost predicate Holds(mem: Mem, leaves: seq<Addr>, kv: Kv) {
    && (forall k :: k in kv ==> k < KEY_MAX && kv[k] != VALUE_NULL)
    && forall a, k: Key :: a in leaves && a in mem ==> Answers(mem[a], kv, k)
  }

  ghost predicate Answers(p: Page, kv: Kv, k: Key) {
    p.Leaf? && p.Covers(k) ==> LeafGet(p.records, k) == KvGet(kv, k)
  }

  lemma PutHolds(mem: Mem, lv: Levels, a: Addr, k: Key, v: Value, kv: Kv)
    requires BLink(mem, lv) && a in lv[0] && mem[a].Covers(k) && v != VALUE_NULL
    requires Holds(mem, lv[0], kv)
    ensures LeafOk(mem[a]) && FindEmpty(mem[a].records) < LEAF_CARD
    ensures Holds(mem[a := mem[a].(records := LeafPut(mem[a].records, k, v))], lv[0], kv[k := v])
  {
    assert InPlace(mem, lv, 0, a);
    var mem' := mem[a := mem[a].(records := LeafPut(mem[a].records, k, v))];
    forall b, x: Key | b in lv[0] && mem'[b].Covers(x) ensures Answers(mem'[b], kv[k := v], x) {
      assert Answers(mem[b], kv, x);
      if b == a { PutGet(mem[a].records, k, v, x); }
      else if x == k { OnlyCover(mem, lv, 0, a, b, k); }
    }
  }

  lemma RemoveHolds(mem: Mem, lv: Levels, a: Addr, k: Key, kv: Kv)
    requires BLink(mem, lv) && a in lv[0] && mem[a].Covers(k)
    requires Holds(mem, lv[0], kv)
    ensures LeafOk(mem[a])
    ensures Holds(mem[a := mem[a].(records := LeafRemove(mem[a].records, k))], lv[0], kv - {k})
  {
    assert InPlace(mem, lv, 0, a);
    var mem' := mem[a := mem[a].(records := LeafRemove(mem[a].records, k))];
    forall b, x: Key | b in lv[0] && mem'[b].Covers(x) ensures Answers(mem'[b], kv - {k}, x) {
      assert Answers(mem[b], kv, x);
      if b == a { RemoveGet(mem[a].records, k, x); }
      else if x == k { OnlyCover(mem, lv, 0, a, b, k); }
    }
  }

  lemma OnlyCover(mem: Mem, lv: Levels, l: nat, a: Addr, b: Addr, k: Key)
    requires BLink(mem, lv) && l < |lv| && a in lv[l] && b in lv[l]
    requires mem[a].Covers(k) && mem[b].Covers(k)
    ensures a == b
  {
    if mem[a].lowest <= mem[b].lowest { SamePage(mem, lv[l], l, a, b); }
    else { SamePage(mem, lv[l], l, b, a); }
  }

  /** The write that links a split leaf makes the whole insertion visible. */
  lemma SplitHolds(mem: Mem, lv: Levels, i: nat, s: Addr, k: Key, v: Value, kv: Kv)
    requires BLink(mem, lv) && i < |lv[0]| && Holds(mem, lv[0], kv) && v != VALUE_NULL
    requires var p := mem[lv[0][i]]; LeafOk(p) && p.Covers(k) && s in mem && s !in lv[0]
    requires var p := mem[lv[0][i]];
             AllLive(LeafPut(p.records, k, v)) && mem[s] == LeafSplitRight(p, LeafPut(p.records, k, v))
    ensures var p := mem[lv[0][i]];
            Holds(mem[lv[0][i] := LeafSplitLeft(p, LeafPut(p.records, k, v), s)], Inserted(lv[0], i, s), kv[k := v])
  {
    var a := lv[0][i];
    PageAt(mem, lv, 0, a);
    var p := mem[a];
    var left, kv' := LeafSplitLeft(p, LeafPut(p.records, k, v), s), kv[k := v];
    hide BLink, PageOk, OnLevel, LeafOk, LeafPut, LeafSplitLeft, LeafSplitRight, AllLive, Answers;
    forall x: Key ensures Answers(left, kv', x) && Answers(mem[s], kv', x) { SplitAnswers(p, k, v, s, kv, x); }
    forall b, x: Key | b in lv[0] && b in mem && b != a ensures Answers(mem[b], kv', x) { StillAnswers(mem, lv, a, b, k, v, kv, x); }
    HoldsAfterLink(mem, lv[0], i, s, left, kv');
  }

  lemma HoldsAfterLink(mem: Mem, c: seq<Addr>, i: nat, s: Addr, left: Page, kv: Kv)
    requires i < |c| && s in mem && s !in c
    requires forall k :: k in kv ==> k < KEY_MAX && kv[k] != VALUE_NULL
    requires forall x: Key :: Answers(left, kv, x) && Answers(mem[s], kv, x)
    requires forall b, x: Key :: b in c && b in mem && b != c[i] ==> Answers(mem[b], kv, x)
    ensures Holds(mem[c[i] := left], Inserted(c, i, s), kv)
  {
    hide Answers;
  }

  /** A leaf that was not written does not cover the key. */
  lemma StillAnswers(mem: Mem, lv: Levels, a: Addr, b: Addr, k: Key, v: Value, kv: Kv, x: Key)
    requires BLink(mem, lv) && a in lv[0] && b in lv[0] && b != a && a in mem && b in mem
    requires mem[a].Covers(k) && Answers(mem[b], kv, x)
    ensures Answers(mem[b], kv[k := v], x)
  {
    if mem[b].Covers(x) && x == k { OnlyCover(mem, lv, 0, a, b, k); }
  }

  /** Both halves answer as the page did, after the store. */
  lemma SplitAnswers(p: Page, k: Key, v: Value, s: Addr, kv: Kv, x: Key)
    requires LeafOk(p) && p.Covers(k) && AllLive(LeafPut(p.records, k, v)) && v != VALUE_NULL
    requires Answers(p, kv, x)
    ensures Answers(LeafSplitLeft(p, LeafPut(p.records, k, v), s), kv[k := v], x)
    ensures Answers(LeafSplitRight(p, LeafPut(p.records, k, v)), kv[k := v], x)
  {
    hide LeafPut, LeafGet;
    SplitGets(p, k, v, s, x);
  }

  lemma SplitGets(p: Page, k: Key, v: Value, s: Addr, x: Key)
    requires LeafOk(p) && p.Covers(k) && AllLive(LeafPut(p.records, k, v)) && v != VALUE_NULL
    ensures LeafSplitLeft(p, LeafPut(p.records, k, v), s).Covers(x) ==>
              p.Covers(x) && LeafGet(LeafSplitLeft(p, LeafPut(p.records, k, v), s).records, x) == if x == k then v else LeafGet(p.records, x)
    ensures LeafSplitRight(p, LeafPut(p.records, k, v)).Covers(x) ==>
              p.Covers(x) && LeafGet(LeafSplitRight(p, LeafPut(p.records, k, v)).records, x) == if x == k then v else LeafGet(p.records, x)
  {
    var rs := LeafPut(p.records, k, v);
    PutGet(p.records, k, v, x);
    LeafSplitOk(p, rs, s);
    LeafSplitGet(p, rs, s, x);
  }

  // ------------------------------------------------- separators in place

  ghost predicate HasParent(mem: Mem, above: seq<Addr>, c: Addr) {
    exists a :: a in above && a in mem && mem[a].Internal? && IsChild(mem[a], c)
  }

  /** Every page below the top has a parent entry, except those in `missing`. */
  ghost predicate Complete(mem: Mem, lv: Levels, missing: set<Addr>) {
    forall l, c {:trigger c in lv[l]} :: 0 <= l < |lv| - 1 && c in lv[l] && c !in missing ==> HasParent(mem, lv[l + 1], c)
  }

  /** A separator that is still missing above lies strictly inside the page that
      covers it: else the page's leftmost child would be the very page that has
      no parent entry. */
  lemma StrictlyInside(mem: Mem, lv: Levels, l: nat, a: Addr, k: Key, s: Addr)
    requires BLink(mem, lv) && 0 < l < |lv| && a in lv[l] && mem[a].Covers(k)
    requires ChildOk(mem, lv[l - 1], s, k) && !HasParent(mem, lv[l], s)
    ensures mem[a].lowest < k
  {
    hide BLink;
    PageAt(mem, lv, l, a);
    if mem[a].lowest == k {
      PageAt(mem, lv, l - 1, s);
      TilesAt(mem, lv, l - 1);
      SamePage(mem, lv[l - 1], l - 1, s, mem[a].leftmost);
    }
  }

  /** Nothing leads to a page that is not linked. */
  lemma UnlinkedHasNoParent(mem: Mem, lv: Levels, l: nat, s: Addr)
    requires BLink(mem, lv) && l + 1 < |lv| && Unlinked(lv, s)
    ensures !HasParent(mem, lv[l + 1], s)
  {
    hide BLink;
    if a :| a in lv[l + 1] && a in mem && mem[a].Internal? && IsChild(mem[a], s) {
      PageAt(mem, lv, l + 1, a);
      ChildIsLinked(mem, lv[l], mem[a], s);
    }
  }

  /** A sibling has no parent entry when it gets linked. */
  lemma LinkHasNoParent(mem: Mem, lv: Levels, l: nat, i: nat, s: Addr, left: Page)
    requires BLink(mem, lv) && l + 1 < |lv| && i < |lv[l]| && Unlinked(lv, s)
    ensures !HasParent(mem[lv[l][i] := left], LinkAfter(lv, l, i, s)[l + 1], s)
  {
    hide BLink, Unlinked;
    var mem' := mem[lv[l][i] := left];
    UnlinkedHasNoParent(mem, lv, l, s);
    if b :| b in lv[l + 1] && b in mem' && mem'[b].Internal? && IsChild(mem'[b], s) {
      if b == lv[l][i] { LevelsDisjoint(mem, lv, l, l + 1, b); }
      PageAt(mem, lv, l + 1, b);
    }
  }

  lemma ChildIsLinked(mem: Mem, below: seq<Addr>, p: Page, c: Addr)
    requires ChildrenOk(mem, below, p) && IsChild(p, c)
    ensures c in below
  {
    if c != p.leftmost {
      var i :| 0 <= i < |p.entries| && p.entries[i].ptr == c;
      assert ChildOk(mem, below, p.entries[i].ptr, p.entries[i].key);
    }
  }

  /** With every separator in place a traversal never needs to turn right: the
      child it descends to covers the key. */
  lemma RoutesHome(mem: Mem, lv: Levels, l: nat, a: Addr, k: Key)
    requires BLink(mem, lv) && Complete(mem, lv, {}) && 0 < l < |lv| && a in lv[l] && mem[a].Covers(k) && k < KEY_MAX
    ensures mem[a].Internal?
    ensures var c := Route(mem[a].leftmost, mem[a].entries, k); c in lv[l - 1] && c in mem && mem[c].Covers(k)
  {
    RoutedChild(mem, lv, l, a, k);
    var p := mem[a];
    var c := Route(p.leftmost, p.entries, k);
    hide BLink, HasParent, Route, Slot;
    if mem[c].highest <= k {
      PageAt(mem, lv, l - 1, c);
      TurnRight(mem, lv, l - 1, c, k);
      var n := mem[c].sibling;
      assert HasParent(mem, lv[l], n);
      hide Complete, PageOk;
      SeparatorHere(mem, lv, l, a, n);
      var j :| 0 <= j < |p.entries| && p.entries[j].key == mem[n].lowest;
      SlotBefore(p.entries, k, j);
    }
  }

  lemma RoutedChild(mem: Mem, lv: Levels, l: nat, a: Addr, k: Key)
    requires BLink(mem, lv) && 0 < l < |lv| && a in lv[l] && mem[a].Covers(k)
    ensures mem[a].Internal? && SortedEntries(mem[a].entries)
    ensures var p := mem[a]; var c, i := Route(p.leftmost, p.entries, k), Slot(p.entries, k);
      c in lv[l - 1] && c in mem && p.lowest <= mem[c].lowest == (if i == 0 then p.lowest else p.entries[i - 1].key) <= k
  {
    DescendsTo(mem, lv, l, a, k);
    PageAt(mem, lv, l, a);
    hide BLink;
    var p := mem[a];
    var i := Slot(p.entries, k);
    assert ChildOk(mem, lv[l - 1], Route(p.leftmost, p.entries, k), if i == 0 then p.lowest else p.entries[i - 1].key);
  }

  lemma SlotBefore(es: seq<InternalEntry>, k: Key, j: nat)
    requires j < |es| && es[j].key <= k && SortedEntries(es)
    ensures Slot(es, k) > 0 && es[j].key <= es[Slot(es, k) - 1].key
  {
    assert Slot(es, k) > j;
  }

  /** A page that starts strictly inside the page a above has its separator there. */
  lemma SeparatorHere(mem: Mem, lv: Levels, l: nat, a: Addr, n: Addr)
    requires BLink(mem, lv) && 0 < l < |lv| && a in lv[l] && n in lv[l - 1] && n in mem && HasParent(mem, lv[l], n)
    requires mem[a].lowest < mem[n].lowest < mem[a].highest
    ensures mem[a].Internal? && exists j :: 0 <= j < |mem[a].entries| && mem[a].entries[j].key == mem[n].lowest
  {
    var b :| b in lv[l] && b in mem && mem[b].Internal? && IsChild(mem[b], n);
    PageAt(mem, lv, l, b);
    PageAt(mem, lv, l, a);
    if n == mem[b].leftmost {
      assert ChildOk(mem, lv[l - 1], n, mem[b].lowest);
    } else {
      var j :| 0 <= j < |mem[b].entries| && mem[b].entries[j].ptr == n;
      assert ChildOk(mem, lv[l - 1], n, mem[b].entries[j].key);
    }
    assert mem[b].Covers(mem[n].lowest);
    hide BLink;
    OnlyCover(mem, lv, l, a, b, mem[n].lowest);
  }

  /** Adding a separator keeps every old child and gains the new one. */
  lemma InnerPutChildren(mem: Mem, lv: Levels, l: nat, p: Page, k: Key, s: Addr)
    requires BLink(mem, lv) && l < |lv| && ChildrenOk(mem, lv[l], p) && EntriesOk(p)
    requires ChildOk(mem, lv[l], s, k)
    ensures var es := InnerPut(p.entries, k, s);
            && ChildrenOk(mem, lv[l], p.(entries := es))
            && IsChild(p.(entries := es), s)
            && forall c :: IsChild(p, c) ==> IsChild(p.(entries := es), c)
  {
    hide BLink, Tiles;
    var es, i := InnerPut(p.entries, k, s), Slot(p.entries, k);
    forall j | 0 <= j < |es| ensures ChildOk(mem, lv[l], es[j].ptr, es[j].key) {
      if es[j] in p.entries {
        var j' :| 0 <= j' < |p.entries| && p.entries[j'] == es[j];
        assert ChildOk(mem, lv[l], p.entries[j'].ptr, p.entries[j'].key);
      }
    }
    if i > 0 && p.entries[i - 1].key == k {
      assert ChildOk(mem, lv[l], p.entries[i - 1].ptr, k);
      TilesAt(mem, lv, l);
      PageAt(mem, lv, l, s);
      SamePage(mem, lv[l], l, s, p.entries[i - 1].ptr);
      assert es == p.entries;
    } else {
      assert es[i].ptr == s;
      forall c | IsChild(p, c) ensures IsChild(p.(entries := es), c) {
        if c != p.leftmost {
          var j :| 0 <= j < |p.entries| && p.entries[j].ptr == c;
          assert es[if j < i then j else j + 1] == p.entries[j];
        }
      }
    }
  }

  /** Adding a separator of the page's range keeps the page well formed, except
      that it may now be full. */
  lemma InnerPutEntries(p: Page, k: Key, s: Addr)
    requires EntriesOk(p) && p.lowest < k < p.highest
    ensures var es := InnerPut(p.entries, k, s);
            && |p.entries| <= |es| <= |p.entries| + 1 && SortedEntries(es)
            && forall j :: 0 <= j < |es| ==> p.lowest < es[j].key < p.highest
  {
    InnerPutSorted(p.entries, k, s);
    var es := InnerPut(p.entries, k, s);
    forall j | 0 <= j < |es| ensures p.lowest < es[j].key < p.highest {
      if es[j].key != k { assert es[j] in p.entries; }
    }
  }

  /** A full internal page splits into two well formed pages that share out all
      its children. */
  lemma InnerSplitOk(mem: Mem, below: seq<Addr>, p: Page, es: seq<InternalEntry>, sib: Addr)
    requires p.Internal? && |es| == INTERNAL_CARD && SortedEntries(es)
    requires forall j :: 0 <= j < |es| ==> p.lowest < es[j].key < p.highest
    requires ChildrenOk(mem, below, p.(entries := es))
    ensures var left, right := InnerSplitLeft(p, es, sib), InnerSplitRight(p, es);
            && EntriesOk(left) && ChildrenOk(mem, below, left)
            && EntriesOk(right) && ChildrenOk(mem, below, right)
            && Splits(p, sib, left, right)
            && |left.entries| == INTERNAL_CARD / 2 && |left.entries| + 1 + |right.entries| == |es|
  {
    var m, q := INTERNAL_CARD / 2, p.(entries := es);
    var left, right := InnerSplitLeft(p, es, sib), InnerSplitRight(p, es);
    forall j | 0 <= j < |es| ensures ChildOk(mem, below, es[j].ptr, es[j].key) {
      assert ChildOk(mem, below, q.entries[j].ptr, q.entries[j].key);
    }
    assert es[0].key < es[m].key;
    forall j | 0 <= j < |right.entries| ensures ChildOk(mem, below, right.entries[j].ptr, right.entries[j].key) {
      assert right.entries[j] == es[m + 1 + j];
    }
  }

  lemma InnerSplitChildren(p: Page, es: seq<InternalEntry>, sib: Addr, c: Addr)
    requires p.Internal? && |es| == INTERNAL_CARD && IsChild(p.(entries := es), c)
    ensures IsChild(InnerSplitLeft(p, es, sib), c) || IsChild(InnerSplitRight(p, es), c)
  {
    var m, right := INTERNAL_CARD / 2, InnerSplitRight(p, es);
    if c != p.leftmost {
      var j :| 0 <= j < |es| && es[j].ptr == c;
      if j < m { assert InnerSplitLeft(p, es, sib).entries[j] == es[j]; }
      if j > m { assert right.entries[j - m - 1] == es[j]; }
    }
  }

  /** The page that joins a split root and its sibling. */
  function NewRoot(level: nat, left: Addr, k: Key, right: Addr): Page {
    Internal(level, left, NULL, 0, KEY_MAX, [InternalEntry(k, right)])
  }

  /** Parent entries survive when every page keeps its children. */
  lemma CompleteAfterPut(mem: Mem, lv: Levels, l: nat, a: Addr, p: Page, s: Addr, missing: set<Addr>)
    requires BLink(mem, lv) && 0 < l < |lv| && a in lv[l] && Complete(mem, lv, missing + {s})
    requires p.Internal? && IsChild(p, s) && s in lv[l - 1]
    requires mem[a].Internal? && forall c :: IsChild(mem[a], c) ==> IsChild(p, c)
    ensures Complete(mem[a := p], lv, missing)
  {
    hide BLink;
    PageAt(mem, lv, l, a);
    var mem' := mem[a := p];
    forall l', c | 0 <= l' < |lv| - 1 && c in lv[l'] && c !in missing ensures HasParent(mem', lv[l' + 1], c) {
      if c == s {
        LevelsDisjoint(mem, lv, l - 1, l', s);
        assert mem'[a] == p;
      } else {
        ParentAfterPut(mem, lv[l' + 1], a, p, c);
      }
    }
  }

  lemma ParentAfterPut(mem: Mem, above: seq<Addr>, a: Addr, p: Page, c: Addr)
    requires HasParent(mem, above, c) && a in mem && p.Internal?
    requires mem[a].Internal? && forall c :: IsChild(mem[a], c) ==> IsChild(p, c)
    ensures HasParent(mem[a := p], above, c)
  {
    var b :| b in above && b in mem && mem[b].Internal? && IsChild(mem[b], c);
    assert IsChild(mem[a := p][b], c);
  }

  lemma CompleteAfterLeafSplit(mem: Mem, lv: Levels, i: nat, left: Page, s: Addr, missing: set<Addr>)
    requires BLink(mem, lv) && i < |lv[0]| && Complete(mem, lv, missing)
    ensures Complete(mem[lv[0][i] := left], LinkAfter(lv, 0, i, s), missing + {s})
  {
    var a := lv[0][i];
    var mem', lv' := mem[a := left], LinkAfter(lv, 0, i, s);
    forall l', c | 0 <= l' < |lv'| - 1 && c in lv'[l'] && c !in missing + {s} ensures HasParent(mem', lv'[l' + 1], c) {
      assert c in lv[l'];
      var b :| b in lv[l' + 1] && b in mem && mem[b].Internal? && IsChild(mem[b], c);
      assert IsChild(mem'[b], c);
    }
  }

  lemma CompleteAfterInnerSplit(mem: Mem, lv: Levels, l: nat, i: nat, es: seq<InternalEntry>, s: Addr, t: Addr, missing: set<Addr>)
    requires BLink(mem, lv) && 0 < l < |lv| && i < |lv[l]| && Complete(mem, lv, missing + {s})
    requires s in lv[l - 1] && t in mem && Unlinked(lv, t)
    requires mem[lv[l][i]].Internal? && |es| == INTERNAL_CARD
    requires var p := mem[lv[l][i]];
             IsChild(p.(entries := es), s) && forall c :: IsChild(p, c) ==> IsChild(p.(entries := es), c)
    requires mem[t] == InnerSplitRight(mem[lv[l][i]], es)
    ensures Complete(mem[lv[l][i] := InnerSplitLeft(mem[lv[l][i]], es, t)], LinkAfter(lv, l, i, t), missing + {t})
  {
    hide BLink, InnerSplitLeft, InnerSplitRight;
    var a := lv[l][i];
    PageAt(mem, lv, l, a);
    var mem', lv' := mem[a := InnerSplitLeft(mem[a], es, t)], LinkAfter(lv, l, i, t);
    assert a in lv[l] && t != a;
    forall l', c | 0 <= l' < |lv'| - 1 && c in lv'[l'] && c !in missing + {t} ensures HasParent(mem', lv'[l' + 1], c) {
      assert c in lv[l'];
      if c == s {
        LevelsDisjoint(mem, lv, l - 1, l', s);
        SplitParent(mem, lv, l, i, es, t, c);
      } else {
        var b :| b in lv[l' + 1] && b in mem && mem[b].Internal? && IsChild(mem[b], c);
        if b == a {
          LevelsDisjoint(mem, lv, l, l' + 1, a);
          SplitParent(mem, lv, l, i, es, t, c);
        } else {
          assert mem'[b] == mem[b] && b in lv'[l' + 1];
        }
      }
    }
  }

  lemma SplitParent(mem: Mem, lv: Levels, l: nat, i: nat, es: seq<InternalEntry>, t: Addr, c: Addr)
    requires l < |lv| && i < |lv[l]| && t in mem && lv[l][i] in mem && t != lv[l][i]
    requires mem[lv[l][i]].Internal? && |es| == INTERNAL_CARD
    requires IsChild(mem[lv[l][i]].(entries := es), c) && mem[t] == InnerSplitRight(mem[lv[l][i]], es)
    ensures HasParent(mem[lv[l][i] := InnerSplitLeft(mem[lv[l][i]], es, t)], LinkAfter(lv, l, i, t)[l], c)
  {
    var a := lv[l][i];
    var mem' := mem[a := InnerSplitLeft(mem[a], es, t)];
    InnerSplitChildren(mem[a], es, t, c);
    assert IsChild(mem'[a], c) || IsChild(mem'[t], c);
  }

  /** A new root over a top level of exactly two pages leaves nothing missing. */
  lemma CompleteAfterGrow(mem: Mem, lv: Levels, left: Addr, k: Key, right: Addr, r: Addr)
    requires BLink(mem, lv) && Complete(mem, lv, {right})
    requires lv[|lv| - 1] == [left, right] && r in mem && mem[r] == NewRoot(|lv|, left, k, right)
    ensures Complete(mem, lv + [[r]], {})
  {
    var lv' := lv + [[r]];
    var top := |lv| - 1;
    assert right in lv[top];
    forall l, c | 0 <= l < |lv'| - 1 && c in lv'[l] ensures HasParent(mem, lv'[l + 1], c) {
      assert c in lv[l];
      if l == top {
        assert lv'[l + 1] == [r];
        TwoChildren(mem, left, k, right, r, c);
      } else {
        NotAlsoBelow(mem, lv, l, top, c, right);
      }
    }
  }

  lemma NotAlsoBelow(mem: Mem, lv: Levels, l: nat, l': nat, a: Addr, b: Addr)
    requires BLink(mem, lv) && l < |lv| && l' < |lv| && l != l' && a in lv[l] && b in lv[l']
    ensures a != b
  {
    if a == b { LevelsDisjoint(mem, lv, l, l', a); }
  }

  lemma TwoChildren(mem: Mem, left: Addr, k: Key, right: Addr, r: Addr, c: Addr)
    requires r in mem && mem[r].Internal? && mem[r].leftmost == left
    requires mem[r].entries == [InternalEntry(k, right)] && c in [left, right]
    ensures HasParent(mem, [r], c)
  {
    assert mem[r].entries[0].ptr == right;
    assert IsChild(mem[r], c);
  }

  // ---------------------------------- whole page writes, as the stores do them

  /** Writing one record into a leaf is the map update, and nothing else. */
  lemma LeafPutStep(mem: Mem, lv: Levels, kv: Kv, a: Addr, k: Key, v: Value)
    requires BLink(mem, lv) && Holds(mem, lv[0], kv) && a in lv[0] && mem[a].Covers(k) && v != VALUE_NULL
    ensures LeafOk(mem[a])
    ensures !AllLive(LeafPut(mem[a].records, k, v)) ==>
      var mem' := mem[a := mem[a].(records := LeafPut(mem[a].records, k, v))];
      BLink(mem', lv) && Holds(mem', lv[0], kv[k := v]) && Extends(mem, lv, mem', lv)
  {
    assert InPlace(mem, lv, 0, a);
    if !AllLive(LeafPut(mem[a].records, k, v)) {
      LeafPutOk(mem[a], k, v);
      Update(mem, lv, 0, a, mem[a].(records := LeafPut(mem[a].records, k, v)));
      PutHolds(mem, lv, a, k, v, kv);
    }
  }

  lemma LeafRemoveStep(mem: Mem, lv: Levels, kv: Kv, a: Addr, k: Key)
    requires BLink(mem, lv) && Holds(mem, lv[0], kv) && a in lv[0] && mem[a].Covers(k)
    ensures LeafOk(mem[a])
    ensures var mem' := mem[a := mem[a].(records := LeafRemove(mem[a].records, k))];
      BLink(mem', lv) && Holds(mem', lv[0], kv - {k}) && Extends(mem, lv, mem', lv)
  {
    assert InPlace(mem, lv, 0, a);
    LeafRemoveOk(mem[a], k);
    Update(mem, lv, 0, a, mem[a].(records := LeafRemove(mem[a].records, k)));
    RemoveHolds(mem, lv, a, k, kv);
  }

  /** Writing the shrunken leaf, after its sibling, is the map update too. */
  lemma LeafSplitStep(mem: Mem, lv: Levels, kv: Kv, i: nat, s: Addr, k: Key, v: Value)
    requires BLink(mem, lv) && Holds(mem, lv[0], kv) && i < |lv[0]| && v != VALUE_NULL
    requires mem[lv[0][i]].Covers(k) && s in mem && s != NULL && Unlinked(lv, s)
    requires LeafOk(mem[lv[0][i]]) && AllLive(LeafPut(mem[lv[0][i]].records, k, v))
    requires mem[s] == LeafSplitRight(mem[lv[0][i]], LeafPut(mem[lv[0][i]].records, k, v))
    ensures var p := mem[lv[0][i]];
      var mem' := mem[lv[0][i] := LeafSplitLeft(p, LeafPut(p.records, k, v), s)];
      var lv' := LinkAfter(lv, 0, i, s);
      && BLink(mem', lv') && Holds(mem', lv'[0], kv[k := v]) && Extends(mem, lv, mem', lv')
      && Splits(p, s, mem'[lv[0][i]], mem[s])
  {
    var p := mem[lv[0][i]];
    LeafPutOk(p, k, v);
    LeafSplitOk(p, LeafPut(p.records, k, v), s);
    Link(mem, lv, 0, i, s, LeafSplitLeft(p, LeafPut(p.records, k, v), s));
    SplitHolds(mem, lv, i, s, k, v, kv);
  }

  lemma HoldsFrame(mem: Mem, lv: Levels, kv: Kv, l: nat, a: Addr, p: Page)
    requires BLink(mem, lv) && Holds(mem, lv[0], kv) && 0 < l < |lv| && a in lv[l]
    ensures Holds(mem[a := p], lv[0], kv)
  {
    var mem' := mem[a := p];
    forall b, k: Key | b in lv[0] && b in mem' ensures Answers(mem'[b], kv, k) {
      NotAlsoBelow(mem, lv, 0, l, b, a);
      assert Answers(mem[b], kv, k);
    }
  }

  /** Adding a separator changes no answer. */
  lemma InnerPutStep(mem: Mem, lv: Levels, kv: Kv, l: nat, a: Addr, k: Key, s: Addr)
    requires BLink(mem, lv) && Holds(mem, lv[0], kv) && 0 < l < |lv| && a in lv[l]
    requires mem[a].lowest < k < mem[a].highest && ChildOk(mem, lv[l - 1], s, k)
    ensures EntriesOk(mem[a])
    ensures |InnerPut(mem[a].entries, k, s)| <= INTERNAL_CARD
    ensures |InnerPut(mem[a].entries, k, s)| < INTERNAL_CARD ==>
      var mem' := mem[a := mem[a].(entries := InnerPut(mem[a].entries, k, s))];
      BLink(mem', lv) && Holds(mem', lv[0], kv) && Extends(mem, lv, mem', lv)
  {
    var p, es := mem[a], InnerPut(mem[a].entries, k, s);
    assert InPlace(mem, lv, l, a);
    InnerPutEntries(p, k, s);
    InnerPutChildren(mem, lv, l - 1, p, k, s);
    if |es| < INTERNAL_CARD {
      Update(mem, lv, l, a, p.(entries := es));
      HoldsFrame(mem, lv, kv, l, a, p.(entries := es));
    }
  }

  lemma InnerSplitPages(mem: Mem, lv: Levels, l: nat, a: Addr, k: Key, s: Addr, t: Addr)
    requires BLink(mem, lv) && 0 < l < |lv| && a in lv[l]
    requires mem[a].lowest < k < mem[a].highest && ChildOk(mem, lv[l - 1], s, k) && mem[a].Internal?
    requires |InnerPut(mem[a].entries, k, s)| == INTERNAL_CARD
    ensures var p, es := mem[a], InnerPut(mem[a].entries, k, s);
      && Splits(p, t, InnerSplitLeft(p, es, t), InnerSplitRight(p, es))
      && PageOk(mem, lv, l, InnerSplitLeft(p, es, t)) && PageOk(mem, lv, l, InnerSplitRight(p, es))
  {
    hide BLink, ChildrenOk, InnerPut, SortedEntries, InnerSplitLeft, InnerSplitRight;
    PageAt(mem, lv, l, a);
    var p, es := mem[a], InnerPut(mem[a].entries, k, s);
    InnerPutEntries(p, k, s);
    InnerPutChildren(mem, lv, l - 1, p, k, s);
    InnerSplitOk(mem, lv[l - 1], p, es, t);
  }

  lemma InnerSplitStep(mem: Mem, lv: Levels, kv: Kv, l: nat, i: nat, k: Key, s: Addr, t: Addr)
    requires BLink(mem, lv) && Holds(mem, lv[0], kv) && 0 < l < |lv| && i < |lv[l]|
    requires mem[lv[l][i]].lowest < k < mem[lv[l][i]].highest && ChildOk(mem, lv[l - 1], s, k)
    requires t in mem && t != NULL && Unlinked(lv, t) && mem[lv[l][i]].Internal?
    requires |InnerPut(mem[lv[l][i]].entries, k, s)| == INTERNAL_CARD
    requires mem[t] == InnerSplitRight(mem[lv[l][i]], InnerPut(mem[lv[l][i]].entries, k, s))
    ensures var p := mem[lv[l][i]];
      var mem' := mem[lv[l][i] := InnerSplitLeft(p, InnerPut(p.entries, k, s), t)];
      var lv' := LinkAfter(lv, l, i, t);
      && BLink(mem', lv') && Holds(mem', lv'[0], kv) && Extends(mem, lv, mem', lv')
      && Splits(p, t, mem'[lv[l][i]], mem[t])
  {
    var a := lv[l][i];
    assert a in lv[l];
    var left := InnerSplitLeft(mem[a], InnerPut(mem[a].entries, k, s), t);
    InnerSplitPages(mem, lv, l, a, k, s, t);
    Link(mem, lv, l, i, t, left);
    HoldsFrame(mem, lv, kv, l, a, left);
  }

  /** A new root over the leftmost top page and one of its right neighbours. */
  lemma GrowStep(mem: Mem, lv: Levels, k: Key, right: Addr, r: Addr)
    requires BLink(mem, lv) && r in mem && r != NULL && Unlinked(lv, r)
    requires ChildOk(mem, lv[|lv| - 1], right, k) && 0 < k < KEY_MAX
    requires mem[r] == NewRoot(|lv|, lv[|lv| - 1][0], k, right)
    ensures BLink(mem, lv + [[r]]) && Extends(mem, lv, mem, lv + [[r]])
  {
    var top := lv[|lv| - 1];
    assert OnLevel(mem, top[0], |lv| - 1);
    assert ChildOk(mem, top, top[0], 0);
    assert ChildOk(mem, top, mem[r].entries[0].ptr, mem[r].entries[0].key);
    Grow(mem, lv, r);
  }

  lemma CompleteAtLeaves(mem: Mem, lv: Levels, a: Addr, p: Page, missing: set<Addr>)
    requires BLink(mem, lv) && a in lv[0] && Complete(mem, lv, missing)
    ensures Complete(mem[a := p], lv, missing)
  {
    var mem' := mem[a := p];
    forall l, c | 0 <= l < |lv| - 1 && c in lv[l] && c !in missing ensures HasParent(mem', lv[l + 1], c) {
      var b :| b in lv[l + 1] && b in mem && mem[b].Internal? && IsChild(mem[b], c);
      assert IsChild(mem'[b], c);
    }
  }

  lemma CompleteNewPage(mem: Mem, lv: Levels, s: Addr, r: Page, missing: set<Addr>)
    requires BLink(mem, lv) && s !in mem && Complete(mem, lv, missing)
    ensures Complete(mem[s := r], lv, missing)
  {
    var mem' := mem[s := r];
    forall l, c | 0 <= l < |lv| - 1 && c in lv[l] && c !in missing ensures HasParent(mem', lv[l + 1], c) {
      var b :| b in lv[l + 1] && b in mem && mem[b].Internal? && IsChild(mem[b], c);
      assert IsChild(mem'[b], c);
    }
  }
  lemma NewPageHolds(mem: Mem, lv: Levels, kv: Kv, s: Addr, r: Page)
    requires BLink(mem, lv) && Holds(mem, lv[0], kv) && s !in mem
    ensures Holds(mem[s := r], lv[0], kv)
  {
    var mem' := mem[s := r];
    forall b, k: Key | b in lv[0] && b in mem' ensures Answers(mem'[b], kv, k) { assert Answers(mem[b], kv, k); }
  }

  // ----------------------------------------- which pages have a parent entry

  lemma ParentsFrame(mem: Mem, mem': Mem, above: seq<Addr>, c: Addr)
    requires forall b :: b in above ==> b in mem && b in mem' && mem'[b] == mem[b]
    ensures HasParent(mem', above, c) <==> HasParent(mem, above, c)
  {
  }

  /** A write on one level leaves the parent entries on the others alone. */
  lemma ParentsElsewhere(mem: Mem, lv: Levels, l: nat, a: Addr, p: Page, l': nat, c: Addr)
    requires BLink(mem, lv) && l < |lv| && l' < |lv| && l != l' && a in lv[l]
    ensures HasParent(mem[a := p], lv[l'], c) <==> HasParent(mem, lv[l'], c)
  {
    hide BLink, HasParent;
    forall b | b in lv[l'] ensures b in mem && b != a {
      PageAt(mem, lv, l', b);
      if b == a { LevelsDisjoint(mem, lv, l, l', a); }
    }
    ParentsFrame(mem, mem[a := p], lv[l'], c);
  }

  /** If one page's children become those and s, then s gains a parent and no
      other page gains or loses one. */
  lemma ParentsAfterPut(mem: Mem, lv: Levels, l: nat, a: Addr, p: Page, s: Addr, l': nat, c: Addr)
    requires BLink(mem, lv) && 0 < l < |lv| && l' < |lv| && a in lv[l] && a in mem && mem[a].Internal? && p.Internal?
    requires forall x :: IsChild(p, x) <==> IsChild(mem[a], x) || x == s
    ensures HasParent(mem[a := p], lv[l'], c) <==> HasParent(mem, lv[l'], c) || (l' == l && c == s)
  {
    hide BLink, IsChild;
    var mem' := mem[a := p];
    if l' != l {
      ParentsElsewhere(mem, lv, l, a, p, l', c);
    } else {
      if HasParent(mem, lv[l], c) {
        var b :| b in lv[l] && b in mem && mem[b].Internal? && IsChild(mem[b], c);
        assert mem'[b].Internal? && IsChild(mem'[b], c);
      }
      if c == s { assert IsChild(mem'[a], c); }
      if HasParent(mem', lv[l], c) {
        var b :| b in lv[l] && b in mem' && mem'[b].Internal? && IsChild(mem'[b], c);
        if b != a { assert IsChild(mem[b], c); }
      }
    }
  }

  /** The same for a page that is split: the halves share out its children. */
  lemma ParentsAfterSplit(mem: Mem, lv: Levels, l: nat, i: nat, left: Page, t: Addr, s: Addr, l': nat, c: Addr)
    requires BLink(mem, lv) && 0 < l < |lv| && l' < |lv| && i < |lv[l]| && lv[l][i] in mem && mem[lv[l][i]].Internal?
    requires t in mem && Unlinked(lv, t) && mem[t].Internal? && left.Internal?
    requires forall x :: IsChild(left, x) || IsChild(mem[t], x) <==> IsChild(mem[lv[l][i]], x) || x == s
    ensures HasParent(mem[lv[l][i] := left], LinkAfter(lv, l, i, t)[l'], c) <==> HasParent(mem, lv[l'], c) || (l' == l && c == s)
  {
    hide BLink, IsChild;
    var a := lv[l][i];
    var mem', lv' := mem[a := left], LinkAfter(lv, l, i, t);
    if l' != l {
      ParentsElsewhere(mem, lv, l, a, left, l', c);
    } else {
      assert t != a;
      if HasParent(mem, lv[l], c) {
        var b :| b in lv[l] && b in mem && mem[b].Internal? && IsChild(mem[b], c);
        if b == a { assert IsChild(mem'[a], c) || IsChild(mem'[t], c); } else { assert IsChild(mem'[b], c); }
      }
      if c == s { assert IsChild(mem'[a], c) || IsChild(mem'[t], c); }
      if HasParent(mem', lv'[l], c) {
        var b :| b in lv'[l] && b in mem' && mem'[b].Internal? && IsChild(mem'[b], c);
        if b == a || b == t { assert IsChild(mem[a], c) || c == s; } else { assert IsChild(mem[b], c); }
      }
    }
  }

  /** The children after a separator was put: the old ones and the new. */
  lemma PutChildren(mem: Mem, lv: Levels, l: nat, p: Page, k: Key, s: Addr, c: Addr)
    requires BLink(mem, lv) && l < |lv| && ChildrenOk(mem, lv[l], p) && EntriesOk(p) && ChildOk(mem, lv[l], s, k)
    ensures IsChild(p.(entries := InnerPut(p.entries, k, s)), c) <==> IsChild(p, c) || c == s
  {
    hide BLink, ChildrenOk, ChildOk;
    InnerPutChildren(mem, lv, l, p, k, s);
    var es := InnerPut(p.entries, k, s);
    if IsChild(p.(entries := es), c) && c != p.leftmost {
      var j :| 0 <= j < |es| && es[j].ptr == c;
      assert es[j] == InternalEntry(k, s) || es[j] in p.entries;
    }
  }

  lemma SplitChildren(p: Page, es: seq<InternalEntry>, sib: Addr, c: Addr)
    requires p.Internal? && |es| == INTERNAL_CARD
    ensures IsChild(InnerSplitLeft(p, es, sib), c) || IsChild(InnerSplitRight(p, es), c) <==> IsChild(p.(entries := es), c)
  {
    if IsChild(p.(entries := es), c) { InnerSplitChildren(p, es, sib, c); }
    var m := INTERNAL_CARD / 2;
    if IsChild(InnerSplitRight(p, es), c) && c != es[m].ptr {
      var j :| 0 <= j < |es[m + 1..]| && es[m + 1..][j].ptr == c;
      assert es[m + 1 + j].ptr == c;
    }
  }
}
