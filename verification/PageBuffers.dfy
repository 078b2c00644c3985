/** A thread's local copies of pages: the arrays the page operations search,
    shift, sort and move records in before the page is written back. */
module PageBuffers {
  import opened Pages

  // --------------------------------------------------------- counting slots

  function LiveCount(rs: seq<LeafEntry>): (n: nat)
    ensures n <= |rs|
    ensures n == |rs| <==> AllLive(rs)
  {
    if rs == [] then 0 else
      var n := LiveCount(rs[..|rs| - 1]);
      assert forall i :: 0 <= i < |rs| - 1 ==> rs[i] == rs[..|rs| - 1][i];
      if rs[|rs| - 1].Live() then n + 1 else n
  }

  lemma {:induction false} FillSlot(rs: seq<LeafEntry>, i: nat, e: LeafEntry)
    requires i < |rs| && !rs[i].Live() && e.Live()
    ensures LiveCount(rs[i := e]) == LiveCount(rs) + 1
  {
    var n := |rs| - 1;
    if i < n {
      FillSlot(rs[..n], i, e);
      assert rs[i := e][..n] == rs[..n][i := e];
    } else {
      assert rs[i := e][..n] == rs[..n];
    }
  }

  lemma FindEmptyAt(rs: seq<LeafEntry>, i: nat)
    requires i < |rs| && !rs[i].Live() && forall j :: 0 <= j < i ==> rs[j].Live()
    ensures FindEmpty(rs) == i
  {
  }

  /** What the loop of a store knows after i slots: cnt live records, none of k,
      and the first empty slot, or -1. */
  ghost predicate Scanned(rs: seq<LeafEntry>, k: Key, i: nat, cnt: int, empty: int) {
    && i <= |rs| && cnt == LiveCount(rs[..i])
    && (forall j :: 0 <= j < i ==> !rs[j].Is(k))
    && (empty == -1 || (0 <= empty < i && !rs[empty].Live()))
    && forall j :: 0 <= j < (if empty == -1 then i else empty) ==> rs[j].Live()
  }

  lemma ScanOn(rs: seq<LeafEntry>, k: Key, i: nat, cnt: int, empty: int)
    requires i < |rs| && Scanned(rs, k, i, cnt, empty) && !rs[i].Is(k)
    ensures rs[i].Live() ==> Scanned(rs, k, i + 1, cnt + 1, empty)
    ensures !rs[i].Live() ==> Scanned(rs, k, i + 1, cnt, if empty == -1 then i else empty)
  {
    assert rs[..i + 1][..i] == rs[..i];
  }

  /** The record of k is overwritten; the empty slot, seen or not, remains. */
  lemma FoundHere(rs: seq<LeafEntry>, k: Key, v: Value, i: nat, cnt: int, empty: int)
    requires i < |rs| && Scanned(rs, k, i, cnt, empty) && rs[i].Is(k) && FindEmpty(rs) < |rs|
    ensures LeafPut(rs, k, v) == rs[i := LeafEntry(k, v)] && !AllLive(LeafPut(rs, k, v)) && cnt + 1 < |rs|
  {
    var e := FindEmpty(rs);
    assert FindLive(rs, k) == i;
    assert !rs[i := LeafEntry(k, v)][e].Live();
    if i + 1 == |rs| {
      assert !rs[..i][e].Live();
    }
  }

  /** The first empty slot is taken; the count tells whether it was the only one. */
  lemma FilledHere(rs: seq<LeafEntry>, k: Key, v: Value, cnt: int, empty: int)
    requires Scanned(rs, k, |rs|, cnt, empty) && FindEmpty(rs) < |rs| && v != VALUE_NULL
    ensures 0 <= empty < |rs| && LeafPut(rs, k, v) == rs[empty := LeafEntry(k, v)]
    ensures AllLive(LeafPut(rs, k, v)) <==> cnt + 1 == |rs|
  {
    assert rs[..|rs|] == rs;
    assert !rs[FindEmpty(rs)].Live();
    FindEmptyAt(rs, empty);
    FillSlot(rs, empty, LeafEntry(k, v));
    assert FindLive(rs, k) == |rs|;
  }

  lemma SlotAt(es: seq<InternalEntry>, k: Key, i: nat)
    requires SortedEntries(es) && i <= |es|
    requires forall j :: 0 <= j < i ==> es[j].key <= k
    requires i < |es| ==> k < es[i].key
    ensures Slot(es, k) == i
  {
  }

  lemma UpdateInPlace(es: seq<InternalEntry>, k: Key, v: Addr, i: nat)
    requires SortedEntries(es) && i < |es| && es[i].key == k
    ensures InnerPut(es, k, v) == es[i := InternalEntry(k, v)]
  {
    SlotAt(es, k, i + 1);
  }

  lemma InsertPlace(es: seq<InternalEntry>, k: Key, i: nat)
    requires SortedEntries(es) && i <= |es| && (i > 0 ==> es[i - 1].key < k)
    requires forall j :: i <= j < |es| ==> k < es[j].key
    ensures Slot(es, k) == i
  {
    SlotAt(es, k, i);
  }

  class LeafBuffer {
    var sibling: Addr
    var lowest: Key
    var highest: Key
    const records: array<LeafEntry>

    ghost predicate Valid() { records.Length == LEAF_CARD }

    function View(): Page
      reads this, records
    {
      Leaf(sibling, lowest, highest, records[..])
    }

    constructor ()
      ensures Valid() && fresh(records)
      ensures View() == Leaf(NULL, 0, KEY_MAX, Padded([], LEAF_CARD))
    {
      sibling, lowest, highest := NULL, 0, KEY_MAX;
      records := new LeafEntry[LEAF_CARD](_ => EMPTY_SLOT);
      new;
      assert records[..] == Padded([], LEAF_CARD);
    }

    /** The buffer after a remote read of the page. */
    method Load(p: Page)
      requires Valid() && p.Leaf? && |p.records| == LEAF_CARD
      modifies this, records
      ensures View() == p
    {
      sibling, lowest, highest := p.sibling, p.lowest, p.highest;
      forall i | 0 <= i < records.Length { records[i] := p.records[i]; }
      assert records[..] == p.records;
    }

    method Search(k: Key) returns (v: Value)
      requires Valid()
      ensures v == LeafGet(records[..], k)
    {
      v := VALUE_NULL;
      var i := 0;
      while i < records.Length
        invariant 0 <= i <= records.Length && v == VALUE_NULL
        invariant forall j :: 0 <= j < i ==> !records[j].Is(k)
      {
        if records[i].key == k && records[i].value != VALUE_NULL {
          v := records[i].value;
          assert FindLive(records[..], k) == i;
          break;
        }
        i := i + 1;
      }
    }

    /** Overwrite the record of k or fill the first empty slot; tell whether the
        page is full now. */
    method Store(k: Key, v: Value) returns (slot: nat, needSplit: bool)
      requires Valid() && v != VALUE_NULL
      requires FindEmpty(records[..]) < LEAF_CARD
      modifies records
      ensures slot < LEAF_CARD
      ensures records[..] == LeafPut(old(records[..]), k, v)
      ensures records[..] == old(records[..])[slot := records[slot]]
      ensures needSplit <==> AllLive(records[..])
    {
      var cnt, i, found := 0, 0, false;
      var empty := -1;
      slot := 0;
      ghost var rs := records[..];
      assert Scanned(rs, k, 0, 0, -1);
      hide Scanned, LeafPut, AllLive, FindEmpty, LiveCount;
      while i < records.Length
        invariant 0 <= i <= records.Length && !found && records[..] == rs
        invariant Scanned(rs, k, i, cnt, empty)
      {
        if rs[i].Is(k) { FoundHere(rs, k, v, i, cnt, empty); } else { ScanOn(rs, k, i, cnt, empty); }
        if records[i].value != VALUE_NULL {
          cnt := cnt + 1;
          if records[i].key == k {
            records[i] := LeafEntry(k, v);
            slot, found := i, true;
            break;
          }
        } else if empty == -1 {
          empty := i;
        }
        i := i + 1;
      }
      if !found {
        FilledHere(rs, k, v, cnt, empty);
        records[empty] := LeafEntry(k, v);
        slot := empty;
        cnt := cnt + 1;
      }
      assert records[..] == rs[slot := LeafEntry(k, v)];
      needSplit := cnt == records.Length;
    }

    /** Clear the record of k, if there is one. */
    method Remove(k: Key) returns (found: bool, slot: nat)
      requires Valid()
      modifies records
      ensures records[..] == LeafRemove(old(records[..]), k)
      ensures found <==> FindLive(old(records[..]), k) < LEAF_CARD
      ensures found ==> slot < LEAF_CARD && records[..] == old(records[..])[slot := records[slot]]
    {
      found, slot := false, 0;
      ghost var rs := records[..];
      var i := 0;
      while i < records.Length
        invariant 0 <= i <= records.Length && !found && records[..] == rs
        invariant forall j :: 0 <= j < i ==> !rs[j].Is(k)
      {
        if records[i].key == k && records[i].value != VALUE_NULL {
          records[i] := LeafEntry(k, VALUE_NULL);
          found, slot := true, i;
          assert FindLive(rs, k) == i;
          assert records[..] == rs[i := LeafEntry(k, VALUE_NULL)];
          break;
        }
        i := i + 1;
      }
    }

    /** The library's sort. */
    method Sort()
      requires Valid()
      modifies records
      ensures records[..] == SortByKey(old(records[..]))
    {
      var s := SortByKey(records[..]);
      forall i | 0 <= i < records.Length { records[i] := s[i]; }
      assert records[..] == s;
    }

    /** The records from slot m on go to the sibling's array. */
    method MoveUpper(sib: LeafBuffer, m: nat)
      requires Valid() && sib.Valid() && sib.records != records && m <= LEAF_CARD
      requires sib.records[..] == Padded([], LEAF_CARD)
      modifies records, sib.records
      ensures records[..] == Padded(old(records[..])[..m], LEAF_CARD)
      ensures sib.records[..] == Padded(old(records[..])[m..], LEAF_CARD)
    {
      ghost var rs := records[..];
      var i := m;
      while i < LEAF_CARD
        invariant m <= i <= LEAF_CARD
        invariant forall j :: 0 <= j < m || i <= j < LEAF_CARD ==> records[j] == rs[j]
        invariant forall j :: m <= j < i ==> records[j] == EMPTY_SLOT
        invariant forall j :: 0 <= j < i - m ==> sib.records[j] == rs[m + j]
        invariant forall j :: i - m <= j < LEAF_CARD ==> sib.records[j] == EMPTY_SLOT
      {
        sib.records[i - m] := LeafEntry(records[i].key, records[i].value);
        records[i] := LeafEntry(0, VALUE_NULL);
        i := i + 1;
      }
      assert records[..] == Padded(rs[..m], LEAF_CARD);
      assert sib.records[..] == Padded(rs[m..], LEAF_CARD);
    }

    /** Move the upper half of the sorted records to the sibling's buffer and
        link the sibling. */
    method Split(sib: LeafBuffer, sibAddr: Addr) returns (splitKey: Key)
      requires Valid() && sib.Valid() && sib != this && sib.records != records
      requires sib.records[..] == Padded([], LEAF_CARD)
      modifies this, records, sib, sib.records
      ensures var p := old(View()); var rs := old(records[..]);
              && SortByKey(rs) == rs ==>
              && splitKey == LeafSplitKey(rs)
              && View() == LeafSplitLeft(p, rs, sibAddr)
              && sib.View() == LeafSplitRight(p, rs)
    {
      hide SortByKey, Padded;
      splitKey := records[LEAF_CARD / 2].key;
      MoveUpper(sib, LEAF_CARD / 2);
      sib.lowest := splitKey;
      sib.highest := highest;
      highest := splitKey;
      sib.sibling := sibling;
      sibling := sibAddr;
    }
  }

  class InternalBuffer {
    var level: nat
    var leftmost: Addr
    var sibling: Addr
    var lowest: Key
    var highest: Key
    var lastIndex: int
    const records: array<InternalEntry>

    ghost predicate Valid()
      reads this
    {
      records.Length == INTERNAL_CARD && -1 <= lastIndex < INTERNAL_CARD
    }

    function Entries(): seq<InternalEntry>
      requires Valid()
      reads this, records
    {
      records[..lastIndex + 1]
    }

    function View(): Page
      requires Valid()
      reads this, records
    {
      Internal(level, leftmost, sibling, lowest, highest, Entries())
    }

    constructor (level: nat)
      ensures Valid() && fresh(records)
      ensures View() == Internal(level, NULL, NULL, 0, KEY_MAX, [])
    {
      this.level, leftmost, sibling, lowest, highest, lastIndex := level, NULL, NULL, 0, KEY_MAX, -1;
      records := new InternalEntry[INTERNAL_CARD](_ => InternalEntry(0, NULL));
    }

    /** The page that becomes the root when the tree grows. */
    constructor Root(left: Addr, key: Key, right: Addr, level: nat)
      ensures Valid() && fresh(records)
      ensures View() == Internal(level, left, NULL, 0, KEY_MAX, [InternalEntry(key, right)])
    {
      this.level, leftmost, sibling, lowest, highest, lastIndex := level, left, NULL, 0, KEY_MAX, 0;
      records := new InternalEntry[INTERNAL_CARD](_ => InternalEntry(0, NULL));
      new;
      records[0] := InternalEntry(key, right);
      assert records[..1] == [InternalEntry(key, right)];
    }

    /** The buffer after a remote read of the page. */
    method Load(p: Page)
      requires Valid() && p.Internal? && |p.entries| <= INTERNAL_CARD
      modifies this, records
      ensures Valid() && View() == p
    {
      level, leftmost, sibling, lowest, highest := p.level, p.leftmost, p.sibling, p.lowest, p.highest;
      lastIndex := |p.entries| - 1;
      forall i | 0 <= i < |p.entries| { records[i] := p.entries[i]; }
      assert records[..lastIndex + 1] == p.entries;
    }

    method Search(k: Key) returns (next: Addr)
      requires Valid() && lastIndex >= 0
      requires SortedEntries(Entries())
      ensures next == Route(leftmost, Entries(), k)
    {
      var cnt := lastIndex + 1;
      ghost var es := Entries();
      if k < records[0].key {
        SlotAt(es, k, 0);
        return leftmost;
      }
      var i := 1;
      while i < cnt
        invariant 1 <= i <= cnt && forall j :: 0 <= j < i ==> es[j].key <= k
      {
        if k < records[i].key {
          SlotAt(es, k, i);
          return records[i - 1].ptr;
        }
        i := i + 1;
      }
      SlotAt(es, k, cnt);
      next := records[cnt - 1].ptr;
    }

    /** Scan down from the last entry: overwrite the child of separator k, or
        find the place a new entry has to take. */
    method Locate(k: Key, v: Addr) returns (isUpdate: bool, insertIndex: nat)
      requires Valid() && SortedEntries(Entries())
      modifies records
      ensures Valid()
      ensures isUpdate ==> Entries() == InnerPut(old(Entries()), k, v)
      ensures !isUpdate ==> Entries() == old(Entries()) && insertIndex == Slot(Entries(), k)
      ensures !isUpdate ==> (insertIndex > 0 ==> Entries()[insertIndex - 1].key != k)
    {
      hide SortedEntries, InnerPut, Slot;
      ghost var es := Entries();
      isUpdate, insertIndex := false, 0;
      var i := lastIndex;
      while i >= 0
        invariant -1 <= i <= lastIndex && Entries() == es
        invariant forall j :: i < j <= lastIndex ==> k < es[j].key
      {
        if records[i].key == k {
          UpdateInPlace(es, k, v, i);
          records[i] := InternalEntry(k, v);
          isUpdate := true;
          assert Entries() == es[i := InternalEntry(k, v)];
          return;
        }
        if records[i].key < k {
          insertIndex := i + 1;
          break;
        }
        i := i - 1;
      }
      InsertPlace(es, k, insertIndex);
    }

    /** Shift the entries from insertIndex up and store the new one there. */
    method ShiftIn(insertIndex: nat, k: Key, v: Addr)
      requires Valid() && insertIndex <= lastIndex + 1 < INTERNAL_CARD
      modifies this`lastIndex, records
      ensures Valid() && lastIndex == old(lastIndex) + 1
      ensures Entries() == old(Entries())[..insertIndex] + [InternalEntry(k, v)] + old(Entries())[insertIndex..]
    {
      ghost var es := Entries();
      var cnt := lastIndex + 1;
      var i := cnt;
      while i > insertIndex
        modifies records
        invariant insertIndex <= i <= cnt
        invariant records[..i] == es[..i] && records[i + 1..cnt + 1] == es[i..]
      {
        records[i] := records[i - 1];
        i := i - 1;
        assert records[i + 1..cnt + 1] == [es[i]] + es[i + 1..];
      }
      records[insertIndex] := InternalEntry(k, v);
      lastIndex := lastIndex + 1;
      assert records[..cnt + 1] == records[..i] + [records[i]] + records[i + 1..cnt + 1];
    }

    method Insert(k: Key, v: Addr)
      requires Valid() && SortedEntries(Entries()) && lastIndex + 1 < INTERNAL_CARD
      modifies this`lastIndex, records
      ensures Valid() && Entries() == InnerPut(old(Entries()), k, v)
    {
      var isUpdate, insertIndex := Locate(k, v);
      if !isUpdate {
        ShiftIn(insertIndex, k, v);
      }
    }

    /** The records from slot m + 1 up to cnt are copied to the sibling's array. */
    method MoveUpper(sib: InternalBuffer, m: nat, cnt: nat)
      requires Valid() && sib.Valid() && sib.records != records && m < cnt <= INTERNAL_CARD
      modifies sib.records
      ensures sib.records[..cnt - m - 1] == records[m + 1..cnt]
    {
      var i := m + 1;
      while i < cnt
        invariant m + 1 <= i <= cnt
        invariant sib.records[..i - m - 1] == records[m + 1..i]
      {
        sib.records[i - m - 1] := records[i];
        i := i + 1;
        assert sib.records[..i - m - 1] == sib.records[..i - m - 2] + [records[i - 1]];
      }
    }

    /** Move the entries above the middle one to the sibling's buffer; the middle
        one becomes the sibling's leftmost child and the separator. */
    method Split(sib: InternalBuffer, sibAddr: Addr) returns (splitKey: Key)
      requires Valid() && sib.Valid() && sib != this && sib.records != records
      requires lastIndex == INTERNAL_CARD - 1 && sib.lastIndex == -1 && sib.level == level
      modifies this, records, sib, sib.records
      ensures Valid() && sib.Valid()
      ensures splitKey == old(Entries())[INTERNAL_CARD / 2].key
      ensures View() == InnerSplitLeft(old(View()), old(Entries()), sibAddr)
      ensures sib.View() == InnerSplitRight(old(View()), old(Entries()))
    {
      var cnt := lastIndex + 1;
      var m := cnt / 2;
      ghost var es := Entries();
      splitKey := records[m].key;
      MoveUpper(sib, m, cnt);
      assert sib.records[..cnt - m - 1] == es[m + 1..] && records[..m] == es[..m];
      lastIndex := lastIndex - (cnt - m);
      sib.lastIndex := sib.lastIndex + (cnt - m - 1);
      sib.leftmost := records[m].ptr;
      sib.lowest := records[m].key;
      sib.highest := highest;
      highest := records[m].key;
      sib.sibling := sibling;
      sibling := sibAddr;
    }
  }
}
