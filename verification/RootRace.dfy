/** When an insertion runs into the assertion that there is a level above.

    A split of a page on the level of the root that the operation started from
    has nowhere to go but into a new root, and that only if the page is that
    root and the root has not been superseded in the meantime. */
module RootRace {
  import opened Pages
  import opened Blink
  import opened BlinkConcurrent

  // ------------------------------------------------------ the exact condition

  /** On the way up: a split is done and the next level not yet chosen. */
  predicate Rising(pc: Pc) { pc.Up? || pc.RootCas? || pc.UpParent? }

  /** The split page is on the level of the root the operation started from. */
  ghost predicate AtTop(sh: Shared, pc: Pc)
    requires Rising(pc)
  {
    !pc.fromCache && pc.root in sh.mem && pc.l == sh.mem[pc.root].Level()
  }

  /** Thread t's compare-and-swap found another root. */
  ghost predicate LostSwap(tr: seq<State>, sched: seq<nat>, t: nat, i: nat, j: nat) {
    exists n :: i <= n < j && SwapFails(tr, sched, t, n)
  }

  ghost predicate SwapFails(tr: seq<State>, sched: seq<nat>, t: nat, n: nat) {
    n < |sched| && n < |tr| && sched[n] == t && t < |tr[n].pcs| && tr[n].pcs[t].RootCas? && tr[n].sh.root != tr[n].pcs[t].root
  }

  ghost predicate Doomed(tr: seq<State>, sched: seq<nat>, t: nat, i: nat, j: nat)
    requires i < |tr| && t < |tr[i].pcs| && Rising(tr[i].pcs[t])
  {
    var pc := tr[i].pcs[t];
    AtTop(tr[i].sh, pc) && (pc.UpParent? || (pc.Up? && pc.at != pc.root) || LostSwap(tr, sched, t, i, j))
  }

  lemma RootStays(sh: Shared, sh': Shared, pc: Pc)
    requires SharedOk(sh) && SharedOk(sh') && Extends(sh.mem, sh.lv, sh'.mem, sh'.lv) && PcOk(sh, pc) && Rising(pc)
    ensures pc.root in sh.mem && pc.root in sh'.mem && sh'.mem[pc.root].Level() == sh.mem[pc.root].Level()
  {
    hide BLink, Holds, Legal, Replay, Owed, Pos, StackOk, StackFits, Private;
    var m: nat :| OnLv(sh, pc.root, m) && sh.mem[pc.root].lowest == 0;
    SameLevel(sh, sh', pc.root, m);
  }

  lemma RisesFrom(sh: Shared, pc: Pc, sh': Shared, pc': Pc, t: nat)
    requires PcOk(sh, pc) && Rising(pc) && Step(sh, t, pc, sh', pc')
    ensures Rising(pc') ==> pc'.l == pc.l && pc'.root == pc.root && pc'.fromCache == pc.fromCache
    ensures pc.Up? ==> if pc.at == pc.root then pc'.RootCas? else pc'.UpParent?
    ensures pc.RootCas? ==> if sh.root == pc.root then pc'.Done? else pc'.UpParent?
    ensures pc.UpParent? ==> (pc'.Failed? <==> AtTop(sh, pc)) && !Rising(pc')
  {
    hide Owed, Pos, StackOk, RootOk, Private, NewRoot, IsRoot;
  }

  lemma AtTopStays(tr: seq<State>, sched: seq<nat>, i: nat, t: nat)
    requires Run(tr, sched) && i < |sched| && t < |tr[i].pcs| == |tr[i + 1].pcs| && Rising(tr[i].pcs[t]) && Rising(tr[i + 1].pcs[t])
    requires var a, b := tr[i].pcs[t], tr[i + 1].pcs[t]; b.l == a.l && b.root == a.root && b.fromCache == a.fromCache
    ensures AtTop(tr[i + 1].sh, tr[i + 1].pcs[t]) <==> AtTop(tr[i].sh, tr[i].pcs[t])
  {
    hide Init, Step, SharedOk, PcOk, LockOk, Extends, Indexed;
    RunInv(tr, sched, i);
    RunInv(tr, sched, i + 1);
    assert StepOf(tr[i], sched[i], tr[i + 1]);
    InvStep(tr[i], sched[i], tr[i + 1]);
    RootStays(tr[i].sh, tr[i + 1].sh, tr[i].pcs[t]);
  }

  /** From the split of a page until the operation goes on to another level, ends
      or fails: it fails exactly if the page is on the level of the root it
      started from and is not that root or is no longer the tree's when it tries
      to swap in a new one. */
  lemma {:induction false} FailsExactly(tr: seq<State>, sched: seq<nat>, t: nat, i: nat, j: nat)
    requires Run(tr, sched) && i < j < |tr|
    requires forall n :: i <= n < j ==> t < |tr[n].pcs| && Rising(tr[n].pcs[t])
    requires t < |tr[j].pcs| && !Rising(tr[j].pcs[t])
    ensures tr[j].pcs[t].Failed? <==> Doomed(tr, sched, t, i, j)
    decreases j - i
  {
    hide Init, Step, Inv, AtTop, LostSwap;
    assert StepOf(tr[i], sched[i], tr[i + 1]);
    RunInv(tr, sched, i);
    InvPc(tr[i], t);
    if sched[i] == t { RisesFrom(tr[i].sh, tr[i].pcs[t], tr[i + 1].sh, tr[i + 1].pcs[t], t); }
    SwapLater(tr, sched, t, i, j);
    if i + 1 < j {
      AtTopStays(tr, sched, i, t);
      FailsExactly(tr, sched, t, i + 1, j);
    } else {
      NoneLost(tr, sched, t, j);
    }
  }

  lemma InvPc(s: State, t: nat)
    requires Inv(s) && t < |s.pcs|
    ensures PcOk(s.sh, s.pcs[t])
  {
  }

  lemma SwapLater(tr: seq<State>, sched: seq<nat>, t: nat, i: nat, j: nat)
    requires i < j
    ensures LostSwap(tr, sched, t, i, j) <==> SwapFails(tr, sched, t, i) || LostSwap(tr, sched, t, i + 1, j)
  {
    hide SwapFails;
  }

  lemma NoneLost(tr: seq<State>, sched: seq<nat>, t: nat, j: nat)
    ensures !LostSwap(tr, sched, t, j, j)
  {
  }

  // ------------------------------------------------------- a run that gets there

  ghost predicate Reaches(s: State) {
    exists tr, sched :: Run(tr, sched) && tr[|tr| - 1] == s
  }

  lemma Go(s: State, t: nat, sh': Shared, pc': Pc) returns (s': State)
    requires Reaches(s) && t < |s.pcs| && Step(s.sh, t, s.pcs[t], sh', pc')
    ensures s' == State(sh', s.pcs[t := pc']) && Reaches(s')
  {
    hide Step, Init;
    s' := State(sh', s.pcs[t := pc']);
    var tr, sched :| Run(tr, sched) && tr[|tr| - 1] == s;
    assert StepOf(s, t, s');
    var tr', sched' := tr + [s'], sched + [t];
    forall i | 0 <= i < |sched'| ensures StepOf(tr'[i], sched'[i], tr'[i + 1]) {
      if i < |sched| { assert StepOf(tr[i], sched[i], tr[i + 1]); }
    }
    assert tr'[0] == tr[0] && Run(tr', sched');
  }

  /** n live records with keys below b, then empty slots. */
  ghost predicate Stuffed(rs: seq<LeafEntry>, n: nat, b: nat) {
    && |rs| == LEAF_CARD && n <= |rs|
    && (forall i :: 0 <= i < n ==> rs[i].Live() && rs[i].key < b)
    && forall i :: n <= i < |rs| ==> !rs[i].Live()
  }

  lemma StuffMore(rs: seq<LeafEntry>, n: nat, b: Key)
    requires Stuffed(rs, n, b) && n < LEAF_CARD
    ensures FindEmpty(rs) == n && LeafPut(rs, b, 1) == rs[n := LeafEntry(b, 1)]
    ensures Stuffed(LeafPut(rs, b, 1), n + 1, b + 1)
    ensures AllLive(LeafPut(rs, b, 1)) <==> n + 1 == LEAF_CARD
  {
    assert !rs[n].Live();
    var r := LeafPut(rs, b, 1);
    if n + 1 < LEAF_CARD { assert !r[n + 1].Live(); }
  }

  /** Root page r is the leftmost leaf; the rightmost, a, is it or its sibling and
      holds n records with keys below b; thread t may begin. */
  ghost predicate Ready(s: State, t: nat, r: Addr, a: Addr, n: nat, b: nat) {
    && t < |s.pcs| && s.pcs[t] == Idle && s.sh.locks == map[]
    && s.sh.root == r && s.sh.lv == [if a == r then [r] else [r, a]]
    && s.sh.mem.Keys <= s.sh.taken && NULL in s.sh.taken
    && r in s.sh.mem && s.sh.mem[r].Leaf? && a in s.sh.mem && s.sh.mem[a].Leaf?
    && Stuffed(s.sh.mem[a].records, n, b) && s.sh.mem[a].lowest <= b && s.sh.mem[a].highest == KEY_MAX && s.sh.mem[a].sibling == NULL
    && (a != r ==> s.sh.mem[r].highest <= b && s.sh.mem[r].sibling == a)
  }

  lemma LockAgain(sh: Shared, a: Addr, t: nat)
    requires sh.locks == map[]
    ensures WithoutLock(WithLock(sh, a, t), a) == sh
  {
    assert map[][sh.lockOf(a) := t] - {sh.lockOf(a)} == map[];
  }

  /** The thread finds, locks and reads the rightmost leaf. */
  lemma ToLeaf(s: State, t: nat, r: Addr, a: Addr, n: nat, b: Key) returns (s': State)
    requires Reaches(s) && Ready(s, t, r, a, n, b) && b < KEY_MAX
    ensures Reaches(s') && s'.sh == WithLock(s.sh, a, t)
    ensures s'.pcs == s.pcs[t := LeafGot(Insert(b, 1), a, map[0 := r], r, false, s.sh.mem[a])]
  {
    hide Reaches, Stuffed;
    var op, sh, stack := Insert(b, 1), s.sh, map[0 := r];
    assert sh.lv[0][0] == r;
    assert IsRoot(sh, r, 0);
    var s1 := Go(s, t, sh, Walk(op, r, map[], r, false));
    assert map[][0 := r] == stack;
    var s2 := Go(s1, t, sh, LeafLock(op, r, stack, r, false));
    var s3 := Go(s2, t, WithLock(sh, r, t), LeafHeld(op, r, stack, r, false));
    if a == r {
      s' := Go(s3, t, s3.sh, LeafGot(op, r, stack, r, false, sh.mem[r]));
    } else {
      var s4 := Go(s3, t, s3.sh, Unlock(r, LeafLock(op, a, stack, r, false)));
      LockAgain(sh, r, t);
      var s5 := Go(s4, t, sh, LeafLock(op, a, stack, r, false));
      var s6 := Go(s5, t, WithLock(sh, a, t), LeafHeld(op, a, stack, r, false));
      s' := Go(s6, t, s6.sh, LeafGot(op, a, stack, r, false, sh.mem[a]));
    }
  }

  lemma FillOne(s: State, t: nat, r: Addr, a: Addr, n: nat, b: Key) returns (s': State)
    requires Reaches(s) && Ready(s, t, r, a, n, b) && n + 1 < LEAF_CARD && b < KEY_MAX
    ensures Reaches(s') && Ready(s', t, r, a, n + 1, b + 1) && s'.pcs == s.pcs
  {
    hide Reaches, LeafPut, AllLive, FindLive, FindEmpty;
    var p := s.sh.mem[a];
    StuffMore(p.records, n, b);
    var s1 := ToLeaf(s, t, r, a, n, b);
    var p' := p.(records := LeafPut(p.records, b, 1));
    var sh1 := s.sh.(mem := s.sh.mem[a := p'], kv := s.sh.kv[b := 1], log := s.sh.log + [Put(b, 1)]);
    assert WithLock(sh1, a, t) == s1.sh.(mem := sh1.mem, kv := sh1.kv, log := sh1.log);
    var s2 := Go(s1, t, WithLock(sh1, a, t), Unlock(a, Done(Put(b, 1))));
    LockAgain(sh1, a, t);
    var s3 := Go(s2, t, sh1, Done(Put(b, 1)));
    s' := Go(s3, t, sh1, Idle);
    assert s'.pcs == s.pcs;
  }

  lemma {:induction false} FillUp(s: State, t: nat, r: Addr, a: Addr, n: nat, b: nat) returns (s': State, b': Key)
    requires Reaches(s) && Ready(s, t, r, a, n, b) && n < LEAF_CARD && b + LEAF_CARD < n + KEY_MAX
    ensures Reaches(s') && Ready(s', t, r, a, LEAF_CARD - 1, b') && s'.pcs == s.pcs && b' + n + 1 == b + LEAF_CARD
    decreases LEAF_CARD - n
  {
    hide Reaches, Ready;
    if n + 1 == LEAF_CARD {
      s', b' := s, b;
    } else {
      var s1 := FillOne(s, t, r, a, n, b);
      s', b' := FillUp(s1, t, r, a, n + 1, b + 1);
    }
  }

  /** The upper half of a full page. */
  lemma UpperHalf(p: Page, rs: seq<LeafEntry>, b: nat)
    requires p.Leaf? && Stuffed(rs, LEAF_CARD, b) && p.highest == KEY_MAX && b <= KEY_MAX
    ensures var q := LeafSplitRight(p, rs);
      && q.Leaf? && Stuffed(q.records, LEAF_CARD - LEAF_CARD / 2, b) && q.lowest < b && q.highest == KEY_MAX && q.sibling == p.sibling
  {
    var s := SortByKey(rs);
    forall i | 0 <= i < |s| ensures s[i].Live() && s[i].key < b {
      assert s[i] in multiset(s);
      assert s[i] in rs;
      var j :| 0 <= j < |rs| && rs[j] == s[i];
    }
  }

  /** The insertion that fills the page: it splits, and its thread turns to the
      level above. */
  lemma SplitNow(s: State, t: nat, r: Addr, a: Addr, b: Key) returns (s': State, sib: Addr)
    requires Reaches(s) && Ready(s, t, r, a, LEAF_CARD - 1, b) && b < KEY_MAX
    ensures Reaches(s') && |s'.pcs| == |s.pcs| && forall u :: 0 <= u < |s.pcs| && u != t ==> s'.pcs[u] == s.pcs[u]
    ensures var pc := s'.pcs[t]; pc.Up? && pc.l == 0 && pc.at == a && pc.root == r && pc.stack == map[0 := r] && !pc.fromCache
    ensures sib != r && (a == r ==> forall u :: 0 <= u < |s.pcs| && u != t && s.pcs[u] == Idle ==>
              Ready(s', u, r, sib, LEAF_CARD - LEAF_CARD / 2, b + 1))
  {
    hide Reaches, LeafPut, AllLive, FindLive, FindEmpty, SortByKey, LeafSplitRight, Padded;
    var p := s.sh.mem[a];
    StuffMore(p.records, LEAF_CARD - 1, b);
    var rs := LeafPut(p.records, b, 1);
    var s1 := ToLeaf(s, t, r, a, LEAF_CARD - 1, b);
    sib := FreshAddr(s.sh.taken);
    var sh1 := s.sh.(mem := s.sh.mem[sib := LeafSplitRight(p, rs)], taken := s.sh.taken + {sib});
    assert WithLock(sh1, a, t) == s1.sh.(mem := sh1.mem, taken := sh1.taken);
    var s2 := Go(s1, t, WithLock(sh1, a, t), LeafSib(Insert(b, 1), a, map[0 := r], r, false, p, sib));
    s' := LinkNow(s2, t, r, a, b, p, sib, sh1);
    if a == r {
      UpperHalf(p, rs, b + 1);
      SplitFence(p, rs, sib, b);
      assert Inserted([r], 0, sib) == [r, sib];
      assert s'.sh.lv == [[r, sib]] && s'.sh.mem[sib] == LeafSplitRight(p, rs) && s'.sh.mem[r] == LeafSplitLeft(p, rs, sib);
      assert {sib} <= s'.sh.taken && s'.sh.mem.Keys <= s'.sh.taken;
    }
  }

  lemma SplitFence(p: Page, rs: seq<LeafEntry>, sib: Addr, b: nat)
    requires p.Leaf? && Stuffed(rs, LEAF_CARD, b + 1) && b < KEY_MAX && p.highest == KEY_MAX
    ensures LeafSplitLeft(p, rs, sib).highest == LeafSplitRight(p, rs).lowest <= b && LeafSplitLeft(p, rs, sib).sibling == sib
  {
    hide SortByKey, Padded;
    UpperHalf(p, rs, b + 1);
  }

  /** The write of the shrunken page, and the release of its lock. */
  lemma LinkNow(s: State, t: nat, r: Addr, a: Addr, b: Key, p: Page, sib: Addr, sh1: Shared) returns (s': State)
    requires Reaches(s) && t < |s.pcs| && s.sh == WithLock(sh1, a, t) && sh1.locks == map[]
    requires s.pcs[t] == LeafSib(Insert(b, 1), a, map[0 := r], r, false, p, sib) && sh1.lv == [if a == r then [r] else [r, a]]
    requires p.Leaf? && |p.records| == LEAF_CARD && FindEmpty(p.records) < LEAF_CARD
    ensures Reaches(s') && |s'.pcs| == |s.pcs| && forall u :: 0 <= u < |s.pcs| && u != t ==> s'.pcs[u] == s.pcs[u]
    ensures var pc := s'.pcs[t]; pc.Up? && pc.l == 0 && pc.at == a && pc.root == r && pc.stack == map[0 := r] && !pc.fromCache
    ensures var i: nat := if a == r then 0 else 1; var rs := LeafPut(p.records, b, 1);
      s'.sh == sh1.(mem := sh1.mem[a := LeafSplitLeft(p, rs, sib)], lv := LinkAfter(sh1.lv, 0, i, sib),
                    kv := sh1.kv[b := 1], log := sh1.log + [Put(b, 1)])
  {
    var i: nat := if a == r then 0 else 1;
    var rs := LeafPut(p.records, b, 1);
    assert |rs| == LEAF_CARD;
    hide Reaches, LeafPut, FindLive, FindEmpty, LeafSplitLeft, LeafSplitKey, LinkAfter;
    assert sh1.lv[0][i] == a;
    var sh2 := sh1.(mem := sh1.mem[a := LeafSplitLeft(p, rs, sib)], lv := LinkAfter(sh1.lv, 0, i, sib),
                    kv := sh1.kv[b := 1], log := sh1.log + [Put(b, 1)]);
    var up := Up(0, LeafSplitKey(rs), sib, a, map[0 := r], r, false, Put(b, 1));
    assert LeafLinks(s.sh, s.pcs[t], i, WithLock(sh2, a, t));
    var s1 := Go(s, t, WithLock(sh2, a, t), Unlock(a, up));
    LockAgain(sh2, a, t);
    s' := Go(s1, t, sh2, up);
  }

  lemma Beginning() returns (s: State)
    ensures Reaches(s) && Ready(s, 0, 1, 1, 0, 0) && |s.pcs| == 2 && s.pcs[1] == Idle
  {
    var p := Leaf(NULL, 0, KEY_MAX, Padded([], LEAF_CARD));
    s := State(Shared(map[1 := p], 1, {NULL, 1}, map[], (a: Addr) => 0, {}, [[1]], map[], []), [Idle, Idle]);
    assert Init(s);
    assert Run([s], []);
    assert [s][|[s]| - 1] == s;
    assert Stuffed(p.records, 0, 0);
  }

  /** Two threads and enough keys: the root leaf is split, and before that thread
      swaps in a new root the other fills and splits the new sibling.  It fails
      without having tried to swap the root. */
  lemma FailureHappens() returns (s: State)
    ensures Reaches(s) && |s.pcs| == 2 && s.pcs[0].Up? && s.pcs[0].at == s.pcs[0].root && s.pcs[1].Failed?
  {
    hide Reaches, Ready;
    var s0 := Beginning();
    var s1, b1 := FillUp(s0, 0, 1, 1, 0, 0);
    assert s1.pcs[1] == Idle;
    var s2, sib := SplitNow(s1, 0, 1, 1, b1);
    var s3, b3 := FillUp(s2, 1, 1, sib, LEAF_CARD - LEAF_CARD / 2, b1 + 1);
    var s4, sib4 := SplitNow(s3, 1, 1, sib, b3);
    var pc := s4.pcs[1];
    var s5 := Go(s4, 1, s4.sh, UpParent(0, pc.sep, pc.child, pc.stack, pc.root, false, pc.result));
    s := Go(s5, 1, s5.sh, Failed(0, pc.sep, pc.child, pc.result));
  }
}
