/** The tree under concurrency: any number of threads, one page access a step.

    Readers take no lock.  A writer locks one page, reads it, writes a new
    sibling if it must split, writes the page, unlocks, and only then turns to
    the level above.  `log` records the map operations in the order in which
    they take effect; no step of the program reads it, nor `lv` and `kv`. */
module BlinkConcurrent {
  import opened Pages
  import opened Blink
  import opened PastPages

  datatype Op = Search(k: Key) | Insert(k: Key, v: Value) | Delete(k: Key)

  /** An operation together with what it answered. */
  datatype Event = Put(k: Key, v: Value) | Removed(k: Key) | Got(k: Key, v: Value)

  type Stack = map<nat, Addr>

  /** Where a thread stands.  `root` is the root the operation started from. */
  datatype Pc =
    | Idle
    | Walk(op: Op, at: Addr, stack: Stack, root: Addr, fromCache: bool)
    | LeafLock(op: Op, at: Addr, stack: Stack, root: Addr, fromCache: bool)
    | LeafHeld(op: Op, at: Addr, stack: Stack, root: Addr, fromCache: bool)
    | LeafGot(op: Op, at: Addr, stack: Stack, root: Addr, fromCache: bool, page: Page)
    | LeafSib(op: Op, at: Addr, stack: Stack, root: Addr, fromCache: bool, page: Page, sib: Addr)
    | Unlock(at: Addr, next: Pc)
    | Up(l: nat, sep: Key, child: Addr, at: Addr, stack: Stack, root: Addr, fromCache: bool, result: Event)
    | RootCas(l: nat, sep: Key, child: Addr, at: Addr, stack: Stack, root: Addr, fromCache: bool, result: Event, newRoot: Addr)
    | UpParent(l: nat, sep: Key, child: Addr, stack: Stack, root: Addr, fromCache: bool, result: Event)
    | IntWalk(l: nat, sep: Key, child: Addr, at: Addr, stack: Stack, root: Addr, result: Event)
    | IntLock(l: nat, sep: Key, child: Addr, at: Addr, stack: Stack, root: Addr, result: Event)
    | IntHeld(l: nat, sep: Key, child: Addr, at: Addr, stack: Stack, root: Addr, result: Event)
    | IntGot(l: nat, sep: Key, child: Addr, at: Addr, stack: Stack, root: Addr, result: Event, page: Page)
    | IntSib(l: nat, sep: Key, child: Addr, at: Addr, stack: Stack, root: Addr, result: Event, page: Page, sib: Addr)
    | Done(result: Event)
    | Failed(l: nat, sep: Key, child: Addr, result: Event)  // the program asserts

  /** Remote memory, the lock table and the caches; `lockOf` is the hash that
      assigns a lock to a page, `taken` the addresses handed out so far. */
  datatype Shared = Shared(mem: Mem, root: Addr, taken: set<Addr>, locks: map<nat, nat>, lockOf: Addr -> nat,
                           cached: set<Page>, lv: Levels, kv: Kv, log: seq<Event>)

  datatype State = State(sh: Shared, pcs: seq<Pc>)

  // ------------------------------------------------------------- the steps

  predicate Free(sh: Shared, a: Addr) { sh.lockOf(a) !in sh.locks }

  function WithLock(sh: Shared, a: Addr, t: nat): Shared { sh.(locks := sh.locks[sh.lockOf(a) := t]) }

  function WithoutLock(sh: Shared, a: Addr): Shared { sh.(locks := sh.locks - {sh.lockOf(a)}) }

  /** Reading a level-1 page may put a copy into the cache. */
  ghost predicate MayCache(sh: Shared, p: Page, sh': Shared) {
    sh' == sh || (p.Internal? && p.level == 1 && sh' == sh.(cached := sh.cached + {p}))
  }

  ghost predicate IsRoot(sh: Shared, a: Addr, l: nat) {
    l < |sh.lv| && |sh.lv[l]| > 0 && a == sh.lv[l][0]
  }

  /** An operation starts from the current or any earlier root; or, where the
      root it knows is of level three or more, from the cache. */
  ghost predicate Invoke(sh: Shared, pc: Pc) {
    exists op: Op, root: Addr, l: nat ::
      && IsRoot(sh, root, l) && op.k < KEY_MAX && (op.Insert? ==> op.v != VALUE_NULL)
      && (pc == Walk(op, root, map[], root, false) || (l >= 3 && InvokeCached(sh, op, root, pc)))
  }

  ghost predicate InvokeCached(sh: Shared, op: Op, root: Addr, pc: Pc) {
    exists p :: p in sh.cached && p.Internal? && p.Covers(op.k) && CachedStart(op, root, p, pc)
  }

  predicate CachedStart(op: Op, root: Addr, p: Page, pc: Pc)
    requires p.Internal?
  {
    var c := Route(p.leftmost, p.entries, op.k);
    pc == if op.Search? then Walk(op, c, map[], root, true) else LeafLock(op, c, map[], root, true)
  }

  /** After a stale start the operation reads a root and starts again there. */
  ghost predicate FromRoot(sh: Shared, op: Op, stack: Stack, pc: Pc) {
    exists root: Addr, l: nat :: IsRoot(sh, root, l) && pc == Walk(op, root, stack, root, false)
  }

  /** page_search and the loop around it. */
  ghost predicate WalkStep(sh: Shared, pc: Pc, sh': Shared, pc': Pc)
    requires pc.Walk?
  {
    pc.at in sh.mem &&
    var p, k := sh.mem[pc.at], pc.op.k;
    var stack := pc.stack[p.Level() := pc.at];
    if p.Leaf? then
      if pc.fromCache && !p.Covers(k) then
        sh' == sh && FromRoot(sh, pc.op, stack, pc')
      else if !pc.op.Search? then
        sh' == sh && pc' == LeafLock(pc.op, pc.at, stack, pc.root, false)
      else if k >= p.highest && p.sibling != NULL then
        sh' == sh && pc' == Walk(pc.op, p.sibling, stack, pc.root, pc.fromCache)
      else
        var v := if k >= p.highest then VALUE_NULL else LeafGet(p.records, k);
        sh' == sh.(log := sh.log + [Got(k, v)]) && pc' == Done(Got(k, v))
    else
      MayCache(sh, p, sh') &&
      if k >= p.highest && p.sibling != NULL then
        pc' == Walk(pc.op, p.sibling, stack, pc.root, pc.fromCache)
      else
        var c := Route(p.leftmost, p.entries, k);
        if !pc.op.Search? && p.level == 1
        then pc' == LeafLock(pc.op, c, stack, pc.root, false)
        else pc' == Walk(pc.op, c, stack, pc.root, pc.fromCache)
  }

  ghost predicate LeafHeldStep(sh: Shared, pc: Pc, sh': Shared, pc': Pc)
    requires pc.LeafHeld?
  {
    pc.at in sh.mem && sh' == sh &&
    var p, k := sh.mem[pc.at], pc.op.k;
    if pc.fromCache && !p.Covers(k) then
      pc'.Unlock? && pc'.at == pc.at && FromRoot(sh, pc.op, pc.stack, pc'.next)
    else if k >= p.highest then
      pc' == Unlock(pc.at, LeafLock(pc.op, p.sibling, pc.stack, pc.root, false))
    else
      pc' == LeafGot(pc.op, pc.at, pc.stack, pc.root, pc.fromCache, p)
  }

  ghost predicate LeafGotStep(sh: Shared, pc: Pc, sh': Shared, pc': Pc)
    requires pc.LeafGot?
  {
    pc.page.Leaf? &&
    var k, rs := pc.op.k, pc.page.records;
    if pc.op.Delete? then
      && sh' == sh.(mem := sh.mem[pc.at := pc.page.(records := LeafRemove(rs, k))],
                    kv := sh.kv - {k}, log := sh.log + [Removed(k)])
      && pc' == Unlock(pc.at, Done(Removed(k)))
    else
      pc.op.Insert? && (FindLive(rs, k) < |rs| || FindEmpty(rs) < |rs|) &&
      var rs' := LeafPut(rs, k, pc.op.v);
      if !AllLive(rs') then
        && sh' == sh.(mem := sh.mem[pc.at := pc.page.(records := rs')],
                      kv := sh.kv[k := pc.op.v], log := sh.log + [Put(k, pc.op.v)])
        && pc' == Unlock(pc.at, Done(Put(k, pc.op.v)))
      else
        exists s :: s !in sh.taken && |rs'| == LEAF_CARD
          && sh' == sh.(mem := sh.mem[s := LeafSplitRight(pc.page, rs')], taken := sh.taken + {s})
          && pc' == LeafSib(pc.op, pc.at, pc.stack, pc.root, pc.fromCache, pc.page, s)
  }

  predicate LeafSplitting(pc: Pc)
    requires pc.LeafSib?
  {
    && pc.page.Leaf? && pc.op.Insert?
    && (FindLive(pc.page.records, pc.op.k) < |pc.page.records| || FindEmpty(pc.page.records) < |pc.page.records|)
    && |LeafPut(pc.page.records, pc.op.k, pc.op.v)| == LEAF_CARD
  }

  /** The write of the shrunken leaf, the i-th of its level: the whole
      insertion takes effect here. */
  ghost predicate LeafLinks(sh: Shared, pc: Pc, i: nat, sh': Shared)
    requires pc.LeafSib? && LeafSplitting(pc)
  {
    var rs := LeafPut(pc.page.records, pc.op.k, pc.op.v);
    && |sh.lv| > 0 && i < |sh.lv[0]| && sh.lv[0][i] == pc.at
    && sh' == sh.(mem := sh.mem[pc.at := LeafSplitLeft(pc.page, rs, pc.sib)], lv := LinkAfter(sh.lv, 0, i, pc.sib),
                  kv := sh.kv[pc.op.k := pc.op.v], log := sh.log + [Put(pc.op.k, pc.op.v)])
  }

  ghost predicate LeafSibStep(sh: Shared, pc: Pc, sh': Shared, pc': Pc)
    requires pc.LeafSib?
  {
    && LeafSplitting(pc) && (exists i: nat :: LeafLinks(sh, pc, i, sh'))
    && pc' == Unlock(pc.at, Up(0, LeafSplitKey(LeafPut(pc.page.records, pc.op.k, pc.op.v)), pc.sib, pc.at, pc.stack,
                               pc.root, pc.fromCache, Put(pc.op.k, pc.op.v)))
  }

  ghost predicate UpStep(sh: Shared, pc: Pc, sh': Shared, pc': Pc)
    requires pc.Up?
  {
    if pc.root == pc.at then
      exists a :: a !in sh.taken
        && sh' == sh.(mem := sh.mem[a := NewRoot(pc.l + 1, pc.at, pc.sep, pc.child)], taken := sh.taken + {a})
        && pc' == RootCas(pc.l, pc.sep, pc.child, pc.at, pc.stack, pc.root, pc.fromCache, pc.result, a)
    else
      sh' == sh && pc' == UpParent(pc.l, pc.sep, pc.child, pc.stack, pc.root, pc.fromCache, pc.result)
  }

  ghost predicate RootCasStep(sh: Shared, pc: Pc, sh': Shared, pc': Pc)
    requires pc.RootCas?
  {
    if sh.root == pc.root then
      sh' == sh.(root := pc.newRoot, lv := sh.lv + [[pc.newRoot]]) && pc' == Done(pc.result)
    else
      sh' == sh && pc' == UpParent(pc.l, pc.sep, pc.child, pc.stack, pc.root, pc.fromCache, pc.result)
  }

  /** The page the traversal came through, or, for an insertion that began at
      the cache, a search from a root.  Otherwise the program asserts. */
  ghost predicate UpParentStep(sh: Shared, pc: Pc, sh': Shared, pc': Pc)
    requires pc.UpParent?
  {
    sh' == sh &&
    if pc.l + 1 in pc.stack then
      pc' == IntLock(pc.l + 1, pc.sep, pc.child, pc.stack[pc.l + 1], pc.stack, pc.root, pc.result)
    else if pc.l == 0 && pc.fromCache then
      exists root: Addr, l: nat :: l >= 3 && IsRoot(sh, root, l)
        && pc' == IntWalk(1, pc.sep, pc.child, root, pc.stack, root, pc.result)
    else
      pc' == Failed(pc.l, pc.sep, pc.child, pc.result)
  }

  ghost predicate IntWalkStep(sh: Shared, pc: Pc, sh': Shared, pc': Pc)
    requires pc.IntWalk?
  {
    pc.at in sh.mem &&
    var p := sh.mem[pc.at];
    var stack := pc.stack[p.Level() := pc.at];
    p.Internal? && MayCache(sh, p, sh') &&
    if pc.sep >= p.highest && p.sibling != NULL then
      pc' == IntWalk(pc.l, pc.sep, pc.child, p.sibling, stack, pc.root, pc.result)
    else
      var c := Route(p.leftmost, p.entries, pc.sep);
      if p.level == pc.l + 1
      then pc' == IntLock(pc.l, pc.sep, pc.child, c, stack, pc.root, pc.result)
      else pc' == IntWalk(pc.l, pc.sep, pc.child, c, stack, pc.root, pc.result)
  }

  ghost predicate IntHeldStep(sh: Shared, pc: Pc, sh': Shared, pc': Pc)
    requires pc.IntHeld?
  {
    pc.at in sh.mem && sh' == sh &&
    var p := sh.mem[pc.at];
    if pc.sep >= p.highest then
      pc' == Unlock(pc.at, IntLock(pc.l, pc.sep, pc.child, p.sibling, pc.stack, pc.root, pc.result))
    else
      pc' == IntGot(pc.l, pc.sep, pc.child, pc.at, pc.stack, pc.root, pc.result, p)
  }

  ghost predicate IntGotStep(sh: Shared, pc: Pc, sh': Shared, pc': Pc)
    requires pc.IntGot?
  {
    pc.page.Internal? &&
    var es := InnerPut(pc.page.entries, pc.sep, pc.child);
    if |es| < INTERNAL_CARD then
      && sh' == sh.(mem := sh.mem[pc.at := pc.page.(entries := es)])
      && pc' == Unlock(pc.at, Done(pc.result))
    else
      exists s :: s !in sh.taken && |es| == INTERNAL_CARD
        && sh' == sh.(mem := sh.mem[s := InnerSplitRight(pc.page, es)], taken := sh.taken + {s})
        && pc' == IntSib(pc.l, pc.sep, pc.child, pc.at, pc.stack, pc.root, pc.result, pc.page, s)
  }

  ghost predicate IntLinks(sh: Shared, pc: Pc, i: nat, sh': Shared)
    requires pc.IntSib? && pc.page.Internal? && |InnerPut(pc.page.entries, pc.sep, pc.child)| == INTERNAL_CARD
  {
    var es := InnerPut(pc.page.entries, pc.sep, pc.child);
    && pc.l < |sh.lv| && i < |sh.lv[pc.l]| && sh.lv[pc.l][i] == pc.at
    && sh' == sh.(mem := sh.mem[pc.at := InnerSplitLeft(pc.page, es, pc.sib)], lv := LinkAfter(sh.lv, pc.l, i, pc.sib))
  }

  ghost predicate IntSibStep(sh: Shared, pc: Pc, sh': Shared, pc': Pc)
    requires pc.IntSib?
  {
    && pc.page.Internal? && |InnerPut(pc.page.entries, pc.sep, pc.child)| == INTERNAL_CARD
    && (exists i: nat :: IntLinks(sh, pc, i, sh'))
    && pc' == Unlock(pc.at, Up(pc.l, InnerPut(pc.page.entries, pc.sep, pc.child)[INTERNAL_CARD / 2].key, pc.sib, pc.at,
                               pc.stack, pc.root, false, pc.result))
  }

  ghost predicate Step(sh: Shared, t: nat, pc: Pc, sh': Shared, pc': Pc) {
    match pc
    case Idle => sh' == sh && Invoke(sh, pc')
    case Walk(_, _, _, _, _) => WalkStep(sh, pc, sh', pc')
    case LeafLock(op, at, stack, root, fromCache) =>
      Free(sh, at) && sh' == WithLock(sh, at, t) && pc' == LeafHeld(op, at, stack, root, fromCache)
    case LeafHeld(_, _, _, _, _) => LeafHeldStep(sh, pc, sh', pc')
    case LeafGot(_, _, _, _, _, _) => LeafGotStep(sh, pc, sh', pc')
    case LeafSib(_, _, _, _, _, _, _) => LeafSibStep(sh, pc, sh', pc')
    case Unlock(at, next) => sh' == WithoutLock(sh, at) && pc' == next
    case Up(_, _, _, _, _, _, _, _) => UpStep(sh, pc, sh', pc')
    case RootCas(_, _, _, _, _, _, _, _, _) => RootCasStep(sh, pc, sh', pc')
    case UpParent(_, _, _, _, _, _, _) => UpParentStep(sh, pc, sh', pc')
    case IntWalk(_, _, _, _, _, _, _) => IntWalkStep(sh, pc, sh', pc')
    case IntLock(l, sep, child, at, stack, root, result) =>
      Free(sh, at) && sh' == WithLock(sh, at, t) && pc' == IntHeld(l, sep, child, at, stack, root, result)
    case IntHeld(_, _, _, _, _, _, _) => IntHeldStep(sh, pc, sh', pc')
    case IntGot(_, _, _, _, _, _, _, _) => IntGotStep(sh, pc, sh', pc')
    case IntSib(_, _, _, _, _, _, _, _, _) => IntSibStep(sh, pc, sh', pc')
    case Done(_) => sh' == sh && pc' == Idle
    case Failed(_, _, _, _) => false
  }

  ghost predicate StepOf(s: State, t: nat, s': State) {
    && t < |s.pcs| == |s'.pcs|
    && Step(s.sh, t, s.pcs[t], s'.sh, s'.pcs[t])
    && forall u :: 0 <= u < |s.pcs| && u != t ==> s'.pcs[u] == s.pcs[u]
  }

  ghost predicate Init(s: State) {
    && s.sh.root != NULL
    && s.sh == Shared(map[s.sh.root := Leaf(NULL, 0, KEY_MAX, Padded([], LEAF_CARD))], s.sh.root, {NULL, s.sh.root},
                      map[], s.sh.lockOf, {}, [[s.sh.root]], map[], [])
    && forall t :: 0 <= t < |s.pcs| ==> s.pcs[t] == Idle
  }

  /** An interleaving: step i of the run is one step of thread sched[i]. */
  ghost predicate Run(tr: seq<State>, sched: seq<nat>) {
    && |tr| == |sched| + 1 && Init(tr[0])
    && forall i :: 0 <= i < |sched| ==> StepOf(tr[i], sched[i], tr[i + 1])
  }

  // ---------------------------------------------------- sequential histories

  function Apply(kv: Kv, e: Event): Kv {
    match e
    case Put(k, v) => kv[k := v]
    case Removed(k) => kv - {k}
    case Got(_, _) => kv
  }

  function Replay(log: seq<Event>): Kv {
    if log == [] then map[] else Apply(Replay(log[..|log| - 1]), log[|log| - 1])
  }

  /** Every lookup in the log answers what the map holds at that point. */
  ghost predicate Legal(log: seq<Event>) {
    forall i :: 0 <= i < |log| ==> LegalAt(log, i)
  }

  ghost predicate LegalAt(log: seq<Event>, i: nat)
    requires i < |log|
  {
    log[i].Got? ==> log[i].v == KvGet(Replay(log[..i]), log[i].k)
  }

  lemma LegalAppend(log: seq<Event>, e: Event)
    requires Legal(log) && (e.Got? ==> e.v == KvGet(Replay(log), e.k))
    ensures Legal(log + [e]) && Replay(log + [e]) == Apply(Replay(log), e)
  {
    var log' := log + [e];
    assert log'[..|log|] == log;
    forall i | 0 <= i < |log'| ensures LegalAt(log', i) {
      assert log'[..i] == log[..i];
      if i < |log| { assert LegalAt(log, i); }
    }
  }

  // ------------------------------------------------------------- invariants

  ghost predicate SharedOk(sh: Shared) {
    && |sh.lv| > 0 && BLink(sh.mem, sh.lv) && Holds(sh.mem, sh.lv[0], sh.kv)
    && IsRoot(sh, sh.root, |sh.lv| - 1)
    && sh.mem.Keys <= sh.taken && NULL in sh.taken
    && PastOk(sh.mem, sh.lv, sh.cached)
    && Legal(sh.log) && Replay(sh.log) == sh.kv
  }

  /** Above level l the stack names pages that start no later than b, each no
      later than the one below it. */
  ghost predicate StackOk(sh: Shared, stack: Stack, l: nat, b: Key) {
    && (forall j :: j in stack && l < j ==> OnLv(sh, stack[j], j) && sh.mem[stack[j]].lowest <= b)
    && (forall i, j :: i in stack && j in stack && l < i < j ==> sh.mem[stack[j]].lowest <= sh.mem[stack[i]].lowest)
  }

  ghost predicate OnLv(sh: Shared, a: Addr, l: nat) {
    l < |sh.lv| && a in sh.lv[l] && a in sh.mem
  }

  /** A traversal for k stands on page `at` of level l. */
  ghost predicate Pos(sh: Shared, at: Addr, l: nat, k: Key, stack: Stack) {
    OnLv(sh, at, l) && sh.mem[at].lowest <= k < KEY_MAX && StackOk(sh, stack, l, sh.mem[at].lowest)
  }

  ghost predicate RootOk(sh: Shared, r: Addr) {
    exists l: nat :: OnLv(sh, r, l) && sh.mem[r].lowest == 0
  }

  ghost predicate Entered(sh: Shared, l: nat, c: Addr)
    requires l + 1 < |sh.lv|
  {
    HasParent(sh.mem, sh.lv[l + 1], c)
  }

  /** Page c of level l has a parent entry, or is the root. */
  ghost predicate Placed(sh: Shared, l: nat, c: Addr) {
    || (l + 1 < |sh.lv| && Entered(sh, l, c))
    || (l + 1 == |sh.lv| && |sh.lv[l]| > 0 && c == sh.lv[l][0])
  }

  /** Separator `sep` of page `child` still has to reach the level above l. */
  ghost predicate Owed(sh: Shared, l: nat, sep: Key, child: Addr) {
    l < |sh.lv| && ChildOk(sh.mem, sh.lv[l], child, sep) && sep < KEY_MAX && !Placed(sh, l, child)
  }

  ghost predicate Private(sh: Shared, s: Addr, p: Page) {
    s in sh.mem && sh.mem[s] == p && s != NULL && Unlinked(sh.lv, s)
  }

  ghost predicate LeafPos(sh: Shared, op: Op, at: Addr, stack: Stack, root: Addr, fromCache: bool) {
    && Pos(sh, at, 0, op.k, stack) && RootOk(sh, root) && !op.Search? && (op.Insert? ==> op.v != VALUE_NULL)
    && StackFits(sh, stack, 0, root, fromCache)
  }

  /** The stack names a page on every level from l up to that of the root the
      operation started from, and none above; an operation that began at the
      cache has an empty stack, and a root of level three or more. */
  ghost predicate StackFits(sh: Shared, stack: Stack, l: nat, root: Addr, fromCache: bool) {
    root in sh.mem &&
    if fromCache then
      l == 0 && stack == map[] && 3 < |sh.lv| && 3 <= sh.mem[root].Level()
    else
      l <= sh.mem[root].Level() && forall j :: l < j ==> (j in stack <==> j <= sh.mem[root].Level())
  }

  ghost predicate IntPos(sh: Shared, l: nat, sep: Key, child: Addr, at: Addr, stack: Stack, root: Addr) {
    l > 0 && Owed(sh, l - 1, sep, child) && Pos(sh, at, l, sep, stack) && RootOk(sh, root) && StackFits(sh, stack, l, root, false)
  }

  ghost predicate LeafFull(op: Op, p: Page) {
    && op.Insert? && LeafOk(p) && p.Covers(op.k) && AllLive(LeafPut(p.records, op.k, op.v))
  }

  ghost predicate PcOk(sh: Shared, pc: Pc) {
    match pc
    case Walk(op, at, stack, root, fromCache) =>
      && at in sh.mem && Pos(sh, at, sh.mem[at].Level(), op.k, stack) && RootOk(sh, root)
      && (op.Insert? ==> op.v != VALUE_NULL) && (fromCache ==> op.Search? && sh.mem[at].Leaf?)
      && StackFits(sh, stack, sh.mem[at].Level(), root, fromCache)
    case LeafLock(op, at, stack, root, fromCache) => LeafPos(sh, op, at, stack, root, fromCache)
    case LeafHeld(op, at, stack, root, fromCache) => LeafPos(sh, op, at, stack, root, fromCache)
    case LeafGot(op, at, stack, root, fromCache, page) =>
      LeafPos(sh, op, at, stack, root, fromCache) && sh.mem[at] == page && page.Covers(op.k)
    case LeafSib(op, at, stack, root, fromCache, page, sib) =>
      && LeafPos(sh, op, at, stack, root, fromCache) && sh.mem[at] == page && LeafFull(op, page)
      && Private(sh, sib, LeafSplitRight(page, LeafPut(page.records, op.k, op.v)))
    case Unlock(_, next) => next != Idle && PcOk(sh, next) && Holding(next) == [] && PrivateOf(next) == []
    case Up(l, sep, child, at, stack, root, fromCache, _) =>
      Owed(sh, l, sep, child) && Pos(sh, at, l, sep, stack) && RootOk(sh, root) && StackFits(sh, stack, l, root, fromCache)
    case RootCas(l, sep, child, at, stack, root, fromCache, _, newRoot) =>
      && Owed(sh, l, sep, child) && Pos(sh, at, l, sep, stack) && RootOk(sh, root) && StackFits(sh, stack, l, root, fromCache)
      && root == at && Private(sh, newRoot, NewRoot(l + 1, at, sep, child))
    case UpParent(l, sep, child, stack, root, fromCache, _) =>
      Owed(sh, l, sep, child) && StackOk(sh, stack, l, sep) && RootOk(sh, root) && StackFits(sh, stack, l, root, fromCache)
    case IntWalk(l, sep, child, at, stack, root, _) =>
      && l > 0 && Owed(sh, l - 1, sep, child) && RootOk(sh, root)
      && at in sh.mem && l < sh.mem[at].Level() && Pos(sh, at, sh.mem[at].Level(), sep, stack)
      && StackFits(sh, stack, sh.mem[at].Level(), root, false)
    case IntLock(l, sep, child, at, stack, root, _) => IntPos(sh, l, sep, child, at, stack, root)
    case IntHeld(l, sep, child, at, stack, root, _) => IntPos(sh, l, sep, child, at, stack, root)
    case IntGot(l, sep, child, at, stack, root, _, page) =>
      IntPos(sh, l, sep, child, at, stack, root) && sh.mem[at] == page && page.Covers(sep)
    case IntSib(l, sep, child, at, stack, root, _, page, sib) =>
      && IntPos(sh, l, sep, child, at, stack, root) && sh.mem[at] == page && page.Covers(sep)
      && page.Internal? && |InnerPut(page.entries, sep, child)| == INTERNAL_CARD
      && Private(sh, sib, InnerSplitRight(page, InnerPut(page.entries, sep, child)))
    case Failed(l, sep, child, _) => Owed(sh, l, sep, child)
    case _ => true
  }

  /** The page whose lock the thread holds, if any. */
  function Holding(pc: Pc): seq<Addr> {
    match pc
    case LeafHeld(_, at, _, _, _) => [at]
    case LeafGot(_, at, _, _, _, _) => [at]
    case LeafSib(_, at, _, _, _, _, _) => [at]
    case Unlock(at, _) => [at]
    case IntHeld(_, _, _, at, _, _, _) => [at]
    case IntGot(_, _, _, at, _, _, _, _) => [at]
    case IntSib(_, _, _, at, _, _, _, _, _) => [at]
    case _ => []
  }

  /** The page the thread has written but not linked, if any. */
  function PrivateOf(pc: Pc): seq<Addr> {
    match pc
    case LeafSib(_, _, _, _, _, _, sib) => [sib]
    case RootCas(_, _, _, _, _, _, _, _, newRoot) => [newRoot]
    case IntSib(_, _, _, _, _, _, _, _, sib) => [sib]
    case _ => []
  }

  /** The page whose separator the thread still has to put into the level above,
      if any. */
  function OwedBy(pc: Pc): seq<Addr> {
    match pc
    case Unlock(_, next) => OwedBy(next)
    case Up(_, _, child, _, _, _, _, _) => [child]
    case RootCas(_, _, child, _, _, _, _, _, _) => [child]
    case UpParent(_, _, child, _, _, _, _) => [child]
    case IntWalk(_, _, child, _, _, _, _) => [child]
    case IntLock(_, _, child, _, _, _, _) => [child]
    case IntHeld(_, _, child, _, _, _, _) => [child]
    case IntGot(_, _, child, _, _, _, _, _) => [child]
    case IntSib(_, _, child, _, _, _, _, _, _) => [child]
    case Failed(_, _, child, _) => [child]
    case _ => []
  }

  ghost predicate LockOk(sh: Shared, t: nat, pc: Pc) {
    Holding(pc) != [] ==> Owns(sh, t, Holding(pc)[0])
  }

  ghost predicate Owns(sh: Shared, t: nat, a: Addr) {
    sh.lockOf(a) in sh.locks && sh.locks[sh.lockOf(a)] == t
  }

  ghost predicate Inv(s: State) {
    && SharedOk(s.sh)
    && (forall t :: 0 <= t < |s.pcs| ==> PcOk(s.sh, s.pcs[t]) && LockOk(s.sh, t, s.pcs[t]))
    && (forall t, u :: 0 <= t < u < |s.pcs| ==> PrivateOf(s.pcs[t]) == [] || PrivateOf(s.pcs[t]) != PrivateOf(s.pcs[u]))
    && (forall t, u :: 0 <= t < u < |s.pcs| ==> OwedBy(s.pcs[t]) == [] || OwedBy(s.pcs[t]) != OwedBy(s.pcs[u]))
    && Indexed(s)
  }

  /** Every page of every level has a parent entry or is the root, unless some
      thread still owes it one. */
  ghost predicate Indexed(s: State) {
    forall l, c {:trigger c in s.sh.lv[l]} :: 0 <= l < |s.sh.lv| && c in s.sh.lv[l] ==> Placed(s.sh, l, c) || IsOwed(s, c)
  }

  ghost predicate IsOwed(s: State, c: Addr) { exists t :: 0 <= t < |s.pcs| && OwedBy(s.pcs[t]) == [c] }

  // --------------------------------------- what a step leaves to the others

  /** The guarantee of a step of thread t: it writes only pages it has locked,
      links only its own new page, and releases only its own lock. */
  ghost predicate Guarantee(sh: Shared, t: nat, pc: Pc, sh': Shared) {
    && Extends(sh.mem, sh.lv, sh'.mem, sh'.lv)
    && sh'.lockOf == sh.lockOf && sh.taken <= sh'.taken
    && (forall a :: a in sh.mem ==> a in sh'.mem && (sh'.mem[a] == sh.mem[a] || (Owns(sh, t, a) && !Unlinked(sh.lv, a))))
    && (forall l, a {:trigger a in sh'.lv[l]} :: 0 <= l < |sh'.lv| && a in sh'.lv[l] ==> PrivateOf(pc) == [a] || (l < |sh.lv| && a in sh.lv[l]))
    && (forall i :: i in sh.locks && sh.locks[i] != t ==> i in sh'.locks && sh'.locks[i] == sh.locks[i])
    && LeavesUnplaced(sh, pc, sh')
  }

  /** A step gives no page a parent entry but the one its thread owes. */
  ghost predicate LeavesUnplaced(sh: Shared, pc: Pc, sh': Shared) {
    forall l, c {:trigger Placed(sh', l, c)} :: 0 <= l < |sh.lv| && c in sh.lv[l] && !Placed(sh, l, c) && OwedBy(pc) != [c] ==> !Placed(sh', l, c)
  }

  /** A step takes no parent entry away, and what it links or stops owing has
      one or is owed from now on. */
  ghost predicate KeepsIndex(sh: Shared, pc: Pc, sh': Shared, pc': Pc) {
    && |sh.lv| <= |sh'.lv|
    && (forall l, c {:trigger Placed(sh', l, c)} :: 0 <= l < |sh.lv| && c in sh.lv[l] && Placed(sh, l, c) ==> Placed(sh', l, c))
    && (forall l, c {:trigger Placed(sh', l, c)} :: 0 <= l < |sh'.lv| && c in sh'.lv[l] && (l >= |sh.lv| || c !in sh.lv[l] || OwedBy(pc) == [c]) ==>
          Placed(sh', l, c) || OwedBy(pc') == [c])
  }

  lemma SameLevel(sh: Shared, sh': Shared, a: Addr, l: nat)
    requires BLink(sh.mem, sh.lv) && BLink(sh'.mem, sh'.lv) && Extends(sh.mem, sh.lv, sh'.mem, sh'.lv)
    requires OnLv(sh, a, l)
    ensures OnLv(sh', a, l) && sh.mem[a].Level() == sh'.mem[a].Level() == l
    ensures sh'.mem[a].lowest == sh.mem[a].lowest && sh'.mem[a].Leaf? == sh.mem[a].Leaf?
  {
    PageAt(sh.mem, sh.lv, l, a);
    PageAt(sh'.mem, sh'.lv, l, a);
  }

  lemma StackStable(sh: Shared, sh': Shared, stack: Stack, l: nat, b: Key)
    requires Extends(sh.mem, sh.lv, sh'.mem, sh'.lv) && StackOk(sh, stack, l, b)
    ensures StackOk(sh', stack, l, b)
  {
  }

  lemma PosStable(sh: Shared, sh': Shared, at: Addr, l: nat, k: Key, stack: Stack)
    requires BLink(sh.mem, sh.lv) && BLink(sh'.mem, sh'.lv) && Extends(sh.mem, sh.lv, sh'.mem, sh'.lv)
    requires Pos(sh, at, l, k, stack)
    ensures Pos(sh', at, l, k, stack) && sh'.mem[at].Level() == sh.mem[at].Level() == l
    ensures sh'.mem[at].Leaf? == sh.mem[at].Leaf?
  {
    hide BLink, StackOk, Extends;
    SameLevel(sh, sh', at, l);
    StackStable(sh, sh', stack, l, sh.mem[at].lowest);
  }

  lemma RootStable(sh: Shared, sh': Shared, r: Addr)
    requires Extends(sh.mem, sh.lv, sh'.mem, sh'.lv) && RootOk(sh, r)
    ensures RootOk(sh', r)
  {
    var l: nat :| OnLv(sh, r, l) && sh.mem[r].lowest == 0;
    assert OnLv(sh', r, l);
  }

  lemma OwedStable(sh: Shared, sh': Shared, l: nat, sep: Key, child: Addr)
    requires Extends(sh.mem, sh.lv, sh'.mem, sh'.lv) && Owed(sh, l, sep, child) && !Placed(sh', l, child)
    ensures Owed(sh', l, sep, child)
  {
    hide Placed;
  }

  lemma StillOwed(sh: Shared, t: nat, pcT: Pc, sh': Shared, l: nat, sep: Key, child: Addr)
    requires Guarantee(sh, t, pcT, sh') && Owed(sh, l, sep, child) && OwedBy(pcT) != [child]
    ensures Owed(sh', l, sep, child)
  {
    hide Placed;
    assert !Placed(sh', l, child);
    OwedStable(sh, sh', l, sep, child);
  }

  lemma StackFitsStable(sh: Shared, sh': Shared, stack: Stack, l: nat, root: Addr, fromCache: bool)
    requires BLink(sh.mem, sh.lv) && BLink(sh'.mem, sh'.lv) && Extends(sh.mem, sh.lv, sh'.mem, sh'.lv)
    requires RootOk(sh, root) && StackFits(sh, stack, l, root, fromCache)
    ensures StackFits(sh', stack, l, root, fromCache)
  {
    hide BLink;
    Taller(sh, sh');
    var m: nat :| OnLv(sh, root, m) && sh.mem[root].lowest == 0;
    SameLevel(sh, sh', root, m);
  }

  lemma PageStable(sh: Shared, t: nat, pcT: Pc, sh': Shared, u: nat, a: Addr)
    requires Guarantee(sh, t, pcT, sh') && u != t && a in sh.mem && Owns(sh, u, a)
    ensures a in sh'.mem && sh'.mem[a] == sh.mem[a] && Owns(sh', u, a)
  {
  }

  lemma PrivateStable(sh: Shared, t: nat, pcT: Pc, sh': Shared, s: Addr, p: Page)
    requires Guarantee(sh, t, pcT, sh') && Private(sh, s, p) && PrivateOf(pcT) != [s]
    ensures Private(sh', s, p)
  {
  }

  lemma Taller(sh: Shared, sh': Shared)
    requires Extends(sh.mem, sh.lv, sh'.mem, sh'.lv)
    ensures |sh.lv| <= |sh'.lv|
  {
  }

  lemma LeafPosStable(sh: Shared, sh': Shared, op: Op, at: Addr, stack: Stack, root: Addr, fromCache: bool)
    requires BLink(sh.mem, sh.lv) && BLink(sh'.mem, sh'.lv) && Extends(sh.mem, sh.lv, sh'.mem, sh'.lv)
    requires LeafPos(sh, op, at, stack, root, fromCache)
    ensures LeafPos(sh', op, at, stack, root, fromCache)
  {
    hide BLink, Extends, Pos, RootOk, StackFits;
    StackFitsStable(sh, sh', stack, 0, root, fromCache);
    PosStable(sh, sh', at, 0, op.k, stack);
    RootStable(sh, sh', root);
  }

  lemma IntPosStable(sh: Shared, sh': Shared, l: nat, sep: Key, child: Addr, at: Addr, stack: Stack, root: Addr)
    requires BLink(sh.mem, sh.lv) && BLink(sh'.mem, sh'.lv) && Extends(sh.mem, sh.lv, sh'.mem, sh'.lv)
    requires IntPos(sh, l, sep, child, at, stack, root) && Owed(sh', l - 1, sep, child)
    ensures IntPos(sh', l, sep, child, at, stack, root)
  {
    hide BLink, Extends, Pos, RootOk, Owed, StackFits;
    PosStable(sh, sh', at, l, sep, stack);
    StackFitsStable(sh, sh', stack, l, root, false);
    RootStable(sh, sh', root);
  }

  /** What a thread knows survives the steps of the others: below the parents. */
  lemma LeafPcStable(sh: Shared, t: nat, pcT: Pc, sh': Shared, u: nat, pc: Pc)
    requires BLink(sh.mem, sh.lv) && BLink(sh'.mem, sh'.lv) && Guarantee(sh, t, pcT, sh')
    requires u != t && PcOk(sh, pc) && LockOk(sh, u, pc)
    requires PrivateOf(pc) == [] || PrivateOf(pc) != PrivateOf(pcT)
    requires pc.LeafLock? || pc.LeafHeld? || pc.LeafGot? || pc.LeafSib?
    ensures PcOk(sh', pc)
  {
    hide BLink, Extends, Pos, RootOk, Private, Unlinked, AllLive, UniqueLive, KeysWithin, LeafPos;
    LeafPosStable(sh, sh', pc.op, pc.at, pc.stack, pc.root, pc.fromCache);
    LeafPosAt(sh, pc.op, pc.at, pc.stack, pc.root, pc.fromCache);
    if pc.LeafGot? || pc.LeafSib? { PageStable(sh, t, pcT, sh', u, pc.at); }
    if pc.LeafSib? {
      PrivateStable(sh, t, pcT, sh', pc.sib, LeafSplitRight(pc.page, LeafPut(pc.page.records, pc.op.k, pc.op.v)));
    }
  }

  lemma LeafPosAt(sh: Shared, op: Op, at: Addr, stack: Stack, root: Addr, fromCache: bool)
    requires LeafPos(sh, op, at, stack, root, fromCache)
    ensures at in sh.mem
  {
  }

  lemma IntPcStable(sh: Shared, t: nat, pcT: Pc, sh': Shared, u: nat, pc: Pc)
    requires BLink(sh.mem, sh.lv) && BLink(sh'.mem, sh'.lv) && Guarantee(sh, t, pcT, sh')
    requires u != t && PcOk(sh, pc) && LockOk(sh, u, pc)
    requires (PrivateOf(pc) == [] || PrivateOf(pc) != PrivateOf(pcT)) && OwedBy(pc) != OwedBy(pcT)
    requires pc.IntLock? || pc.IntHeld? || pc.IntGot? || pc.IntSib?
    ensures PcOk(sh', pc)
  {
    hide BLink, Extends, Pos, RootOk, Owed, Private, Unlinked, InnerPut, InnerSplitRight, StackFits, LeavesUnplaced;
    StillOwed(sh, t, pcT, sh', pc.l - 1, pc.sep, pc.child);
    IntPosStable(sh, sh', pc.l, pc.sep, pc.child, pc.at, pc.stack, pc.root);
    IntPosAt(sh, pc.l, pc.sep, pc.child, pc.at, pc.stack, pc.root);
    if pc.IntGot? || pc.IntSib? { PageStable(sh, t, pcT, sh', u, pc.at); }
    if pc.IntSib? {
      PrivateStable(sh, t, pcT, sh', pc.sib, InnerSplitRight(pc.page, InnerPut(pc.page.entries, pc.sep, pc.child)));
    }
  }

  lemma IntPosAt(sh: Shared, l: nat, sep: Key, child: Addr, at: Addr, stack: Stack, root: Addr)
    requires IntPos(sh, l, sep, child, at, stack, root)
    ensures at in sh.mem
  {
  }

  lemma UpPcStable(sh: Shared, t: nat, pcT: Pc, sh': Shared, u: nat, pc: Pc)
    requires BLink(sh.mem, sh.lv) && BLink(sh'.mem, sh'.lv) && Guarantee(sh, t, pcT, sh')
    requires u != t && PcOk(sh, pc)
    requires (PrivateOf(pc) == [] || PrivateOf(pc) != PrivateOf(pcT)) && OwedBy(pc) != OwedBy(pcT)
    requires pc.Up? || pc.RootCas? || pc.UpParent? || pc.IntWalk?
    ensures PcOk(sh', pc)
  {
    hide BLink, Extends, Pos, RootOk, Owed, StackOk, Private, Unlinked, StackFits, LeavesUnplaced;
    RootStable(sh, sh', pc.root);
    if pc.IntWalk? {
      StillOwed(sh, t, pcT, sh', pc.l - 1, pc.sep, pc.child);
      PosStable(sh, sh', pc.at, sh.mem[pc.at].Level(), pc.sep, pc.stack);
      StackFitsStable(sh, sh', pc.stack, sh.mem[pc.at].Level(), pc.root, false);
    } else {
      StillOwed(sh, t, pcT, sh', pc.l, pc.sep, pc.child);
      StackFitsStable(sh, sh', pc.stack, pc.l, pc.root, pc.fromCache);
      if pc.UpParent? { StackStable(sh, sh', pc.stack, pc.l, pc.sep); }
      else { PosStable(sh, sh', pc.at, pc.l, pc.sep, pc.stack); }
    }
    if pc.RootCas? {
      PrivateStable(sh, t, pcT, sh', pc.newRoot, NewRoot(pc.l + 1, pc.at, pc.sep, pc.child));
    }
  }

  lemma {:induction false} PcStable(sh: Shared, t: nat, pcT: Pc, sh': Shared, u: nat, pc: Pc)
    requires BLink(sh.mem, sh.lv) && BLink(sh'.mem, sh'.lv) && Guarantee(sh, t, pcT, sh')
    requires u != t && PcOk(sh, pc) && LockOk(sh, u, pc)
    requires PrivateOf(pc) == [] || PrivateOf(pc) != PrivateOf(pcT)
    requires OwedBy(pc) == [] || OwedBy(pc) != OwedBy(pcT)
    ensures PcOk(sh', pc)
    decreases pc
  {
    hide BLink, Extends, Pos, RootOk, Owed, StackOk, Private, Unlinked, LeafPos, IntPos, LeafFull, StackFits, LeavesUnplaced;
    if pc.Walk? {
      StackFitsStable(sh, sh', pc.stack, sh.mem[pc.at].Level(), pc.root, pc.fromCache);
      PosStable(sh, sh', pc.at, sh.mem[pc.at].Level(), pc.op.k, pc.stack);
      RootStable(sh, sh', pc.root);
    } else if pc.LeafLock? || pc.LeafHeld? || pc.LeafGot? || pc.LeafSib? {
      LeafPcStable(sh, t, pcT, sh', u, pc);
    } else if pc.IntLock? || pc.IntHeld? || pc.IntGot? || pc.IntSib? {
      IntPcStable(sh, t, pcT, sh', u, pc);
    } else if pc.Up? || pc.RootCas? || pc.UpParent? || pc.IntWalk? {
      UpPcStable(sh, t, pcT, sh', u, pc);
    } else if pc.Unlock? {
      PcStable(sh, t, pcT, sh', u, pc.next);
    } else if pc.Failed? {
      StillOwed(sh, t, pcT, sh', pc.l, pc.sep, pc.child);
    }
  }

  lemma LockStable(sh: Shared, t: nat, pcT: Pc, sh': Shared, u: nat, pc: Pc)
    requires Guarantee(sh, t, pcT, sh') && u != t && LockOk(sh, u, pc)
    ensures LockOk(sh', u, pc)
  {
  }

  // ------------------------------------------------------ one step, one thread

  /** What one step must establish for the invariant to carry over. */
  ghost predicate Good(sh: Shared, t: nat, pc: Pc, sh': Shared, pc': Pc) {
    && SharedOk(sh') && Guarantee(sh, t, pc, sh')
    && PcOk(sh', pc') && LockOk(sh', t, pc')
    && (PrivateOf(pc') == [] || PrivateOf(pc') == PrivateOf(pc) || PrivateOf(pc')[0] !in sh.taken)
    && KeepsIndex(sh, pc, sh', pc') && (OwedBy(pc') == [] || OwedBy(pc') == OwedBy(pc) || OwedBy(pc') == PrivateOf(pc))
  }

  lemma SameFacts(sh: Shared, sh': Shared)
    requires sh'.mem == sh.mem && sh'.lv == sh.lv
    ensures forall r :: RootOk(sh, r) ==> RootOk(sh', r)
    ensures forall st, l, b :: StackOk(sh, st, l, b) ==> StackOk(sh', st, l, b)
    ensures forall l, sep, c :: Owed(sh, l, sep, c) ==> Owed(sh', l, sep, c)
    ensures forall st, l, r, f :: StackFits(sh, st, l, r, f) ==> StackFits(sh', st, l, r, f)
  {
    forall r | RootOk(sh, r) ensures RootOk(sh', r) {
      var l: nat :| OnLv(sh, r, l) && sh.mem[r].lowest == 0;
      assert OnLv(sh', r, l);
    }
  }

  lemma {:induction false} PcSame(sh: Shared, sh': Shared, pc: Pc)
    requires PcOk(sh, pc) && sh'.mem == sh.mem && sh'.lv == sh.lv
    ensures PcOk(sh', pc)
    decreases pc
  {
    hide RootOk, StackOk, LeafFull, Owed, LeafSplitRight, InnerSplitRight, Unlinked, StackFits;
    if pc.Unlock? {
      PcSame(sh, sh', pc.next);
    } else {
      SameFacts(sh, sh');
    }
  }

  /** A step that touches at most the thread's own lock and the cache. */
  lemma QuietStep(sh: Shared, t: nat, pc: Pc, sh': Shared)
    requires SharedOk(sh) && PastOk(sh.mem, sh.lv, sh'.cached)
    requires sh' == sh.(locks := sh'.locks, cached := sh'.cached, log := sh'.log)
    requires Legal(sh'.log) && Replay(sh'.log) == sh.kv
    requires forall i :: i in sh.locks && sh.locks[i] != t ==> i in sh'.locks && sh'.locks[i] == sh.locks[i]
    ensures SharedOk(sh') && Guarantee(sh, t, pc, sh')
  {
    hide Holds, Legal, Replay, PastOk, PageOk, Tiles;
    forall l, a | 0 <= l < |sh.lv| && a in sh.lv[l] ensures a in sh.mem { PageAt(sh.mem, sh.lv, l, a); }
  }

  lemma CachePage(sh: Shared, at: Addr, sh': Shared)
    requires SharedOk(sh) && at in sh.mem && OnLv(sh, at, sh.mem[at].Level()) && MayCache(sh, sh.mem[at], sh')
    ensures PastOk(sh.mem, sh.lv, sh'.cached)
  {
    hide BLink, Holds, Legal, Replay, PastOk;
    PageAt(sh.mem, sh.lv, sh.mem[at].Level(), at);
    if sh' != sh { CurrentIsPast(sh.mem, sh.lv, sh.cached, at); }
  }

  /** A step that changes no page and no chain keeps every parent entry. */
  lemma QuietIndex(sh: Shared, pc: Pc, sh': Shared, pc': Pc)
    requires sh'.mem == sh.mem && sh'.lv == sh.lv && OwedBy(pc') == OwedBy(pc)
    ensures KeepsIndex(sh, pc, sh', pc')
  {
    hide HasParent;
    assert forall l, c :: Placed(sh', l, c) <==> Placed(sh, l, c);
  }

  /** The pages of the old chains have the parent entries they had, and s0, of
      level l0, has one now. */
  ghost predicate Gains(sh: Shared, sh': Shared, l0: int, s0: Addr) {
    |sh.lv| <= |sh'.lv| &&
    forall l, c {:trigger Placed(sh', l, c)} :: 0 <= l < |sh.lv| && c in sh.lv[l] ==> (Placed(sh', l, c) <==> Placed(sh, l, c) || (l == l0 && c == s0))
  }

  /** Pages linked by the step have a parent entry, or are the one in `owed`. */
  ghost predicate LinksOwed(sh: Shared, sh': Shared, owed: seq<Addr>) {
    forall l, c {:trigger Placed(sh', l, c)} :: 0 <= l < |sh'.lv| && c in sh'.lv[l] && (l >= |sh.lv| || c !in sh.lv[l]) ==> Placed(sh', l, c) || owed == [c]
  }

  lemma GainsIndex(sh: Shared, pc: Pc, sh': Shared, pc': Pc, l0: int, s0: Addr)
    requires Gains(sh, sh', l0, s0) && LinksOwed(sh, sh', OwedBy(pc'))
    requires if l0 < 0 then OwedBy(pc) == [] || OwedBy(pc) == OwedBy(pc') else OwedBy(pc) == [s0]
    requires 0 <= l0 ==> BLink(sh'.mem, sh'.lv) && l0 < |sh.lv| && s0 in sh.lv[l0] && s0 in sh'.lv[l0]
    ensures KeepsIndex(sh, pc, sh', pc') && LeavesUnplaced(sh, pc, sh')
  {
    hide BLink, Placed;
    forall l, c | 0 <= l < |sh'.lv| && c in sh'.lv[l] && (l >= |sh.lv| || c !in sh.lv[l] || OwedBy(pc) == [c])
      ensures Placed(sh', l, c) || OwedBy(pc') == [c]
    {
      if OwedBy(pc) == [c] && 0 <= l0 && l != l0 { LevelsDisjoint(sh'.mem, sh'.lv, l, l0, c); }
    }
  }

  /** What changes parent entries on chains that stay as they are. */
  lemma SameChains(sh: Shared, sh': Shared, l0: int, s0: Addr, owed: seq<Addr>)
    requires sh'.lv == sh.lv && l0 + 1 < |sh.lv|
    requires forall l: nat, c :: l + 1 < |sh.lv| ==> (Entered(sh', l, c) <==> Entered(sh, l, c) || (l == l0 && c == s0))
    ensures Gains(sh, sh', l0, s0) && LinksOwed(sh, sh', owed)
  {
    hide HasParent;
  }

  lemma LeafWriteGains(sh: Shared, sh': Shared, a: Addr, p: Page)
    requires BLink(sh.mem, sh.lv) && |sh.lv| > 0 && a in sh.lv[0] && sh'.mem == sh.mem[a := p] && sh'.lv == sh.lv
    ensures Gains(sh, sh', -1, NULL) && LinksOwed(sh, sh', [])
  {
    hide BLink, HasParent;
    forall l: nat, c | l + 1 < |sh.lv| ensures Entered(sh', l, c) <==> Entered(sh, l, c) {
      ParentsElsewhere(sh.mem, sh.lv, 0, a, p, l + 1, c);
    }
    SameChains(sh, sh', -1, NULL, []);
  }

  lemma NewPageGains(sh: Shared, sh': Shared, a: Addr, p: Page, owed: seq<Addr>)
    requires BLink(sh.mem, sh.lv) && |sh.lv| > 0 && a !in sh.mem && sh'.mem == sh.mem[a := p] && sh'.lv == sh.lv
    ensures Gains(sh, sh', -1, NULL) && LinksOwed(sh, sh', owed)
  {
    hide BLink, HasParent;
    forall l: nat, c | l + 1 < |sh.lv| ensures Entered(sh', l, c) <==> Entered(sh, l, c) {
      forall b | b in sh.lv[l + 1] ensures b in sh.mem { PageAt(sh.mem, sh.lv, l + 1, b); }
      ParentsFrame(sh.mem, sh'.mem, sh.lv[l + 1], c);
    }
    SameChains(sh, sh', -1, NULL, owed);
  }

  lemma PutGains(sh: Shared, sh': Shared, l: nat, a: Addr, k: Key, s: Addr)
    requires BLink(sh.mem, sh.lv) && 0 < l < |sh.lv| && a in sh.lv[l] && a in sh.mem && ChildOk(sh.mem, sh.lv[l - 1], s, k)
    requires sh.mem[a].Internal? && sh'.lv == sh.lv
    requires sh'.mem == sh.mem[a := sh.mem[a].(entries := InnerPut(sh.mem[a].entries, k, s))]
    ensures Gains(sh, sh', l - 1, s) && LinksOwed(sh, sh', [])
  {
    hide BLink, HasParent, IsChild, InnerPut, ChildOk;
    PageAt(sh.mem, sh.lv, l, a);
    var p := sh.mem[a].(entries := InnerPut(sh.mem[a].entries, k, s));
    forall x ensures IsChild(p, x) <==> IsChild(sh.mem[a], x) || x == s { PutChildren(sh.mem, sh.lv, l - 1, sh.mem[a], k, s, x); }
    forall m: nat, c | m + 1 < |sh.lv|
      ensures Entered(sh', m, c) <==> Entered(sh, m, c) || (m == l - 1 && c == s)
    {
      ParentsAfterPut(sh.mem, sh.lv, l, a, p, s, m + 1, c);
    }
    SameChains(sh, sh', l - 1, s, []);
  }

  lemma LeafLinkGains(sh: Shared, sh': Shared, i: nat, s: Addr, left: Page)
    requires BLink(sh.mem, sh.lv) && |sh.lv| > 0 && i < |sh.lv[0]| && Unlinked(sh.lv, s)
    requires sh'.mem == sh.mem[sh.lv[0][i] := left] && sh'.lv == LinkAfter(sh.lv, 0, i, s)
    ensures Gains(sh, sh', -1, NULL) && LinksOwed(sh, sh', [s]) && !Placed(sh', 0, s)
  {
    hide BLink, HasParent;
    var a := sh.lv[0][i];
    assert a in sh.lv[0];
    forall l: nat, c | l + 1 < |sh.lv| ensures Entered(sh', l, c) <==> Entered(sh, l, c) {
      ParentsElsewhere(sh.mem, sh.lv, 0, a, left, l + 1, c);
    }
    if 1 < |sh.lv| { LinkHasNoParent(sh.mem, sh.lv, 0, i, s, left); }
    assert s !in sh.lv[0] && sh'.lv[0][0] == sh.lv[0][0];
  }

  lemma SplitGains(sh: Shared, sh': Shared, l: nat, i: nat, k: Key, s: Addr, t: Addr)
    requires BLink(sh.mem, sh.lv) && 0 < l < |sh.lv| && i < |sh.lv[l]| && ChildOk(sh.mem, sh.lv[l - 1], s, k)
    requires t in sh.mem && Unlinked(sh.lv, t) && sh.lv[l][i] in sh.mem && sh.mem[sh.lv[l][i]].Internal?
    requires var p := sh.mem[sh.lv[l][i]]; var es := InnerPut(p.entries, k, s);
      && |es| == INTERNAL_CARD && sh.mem[t] == InnerSplitRight(p, es)
      && sh'.mem == sh.mem[sh.lv[l][i] := InnerSplitLeft(p, es, t)] && sh'.lv == LinkAfter(sh.lv, l, i, t)
    ensures Gains(sh, sh', l - 1, s) && LinksOwed(sh, sh', [t]) && !Placed(sh', l, t)
  {
    hide BLink, HasParent, IsChild, InnerPut, ChildOk;
    var a := sh.lv[l][i];
    assert a in sh.lv[l];
    PageAt(sh.mem, sh.lv, l, a);
    var p, es := sh.mem[a], InnerPut(sh.mem[a].entries, k, s);
    var left := InnerSplitLeft(p, es, t);
    assert left.Internal? && sh.mem[t].Internal?;
    hide InnerSplitLeft, InnerSplitRight;
    forall x ensures IsChild(left, x) || IsChild(sh.mem[t], x) <==> IsChild(p, x) || x == s {
      PutChildren(sh.mem, sh.lv, l - 1, p, k, s, x);
      SplitChildren(p, es, t, x);
    }
    forall m: nat, c | m + 1 < |sh.lv|
      ensures Entered(sh', m, c) <==> Entered(sh, m, c) || (m == l - 1 && c == s)
    {
      ParentsAfterSplit(sh.mem, sh.lv, l, i, left, t, s, m + 1, c);
    }
    if l + 1 < |sh.lv| { LinkHasNoParent(sh.mem, sh.lv, l, i, t, left); }
    LinkPlaces(sh, sh', l, i, s, t);
  }

  lemma LinkPlaces(sh: Shared, sh': Shared, l: nat, i: nat, s: Addr, t: Addr)
    requires 0 < l < |sh.lv| && i < |sh.lv[l]| && Unlinked(sh.lv, t) && sh'.lv == LinkAfter(sh.lv, l, i, t)
    requires forall m: nat, c :: m + 1 < |sh.lv| ==> (Entered(sh', m, c) <==> Entered(sh, m, c) || (m == l - 1 && c == s))
    requires l + 1 < |sh.lv| ==> !Entered(sh', l, t)
    ensures Gains(sh, sh', l - 1, s) && LinksOwed(sh, sh', [t]) && !Placed(sh', l, t)
  {
    hide Entered;
    assert t !in sh.lv[l] && sh'.lv[l][0] == sh.lv[l][0];
    forall m, c | 0 <= m < |sh.lv| && c in sh.lv[m]
      ensures Placed(sh', m, c) <==> Placed(sh, m, c) || (m == l - 1 && c == s)
    {
      assert sh'.lv[m] == sh.lv[m] || m == l;
    }
  }

  /** Following a right-link keeps a traversal in position. */
  lemma MoveRight(sh: Shared, at: Addr, l: nat, k: Key, stack: Stack)
    requires BLink(sh.mem, sh.lv) && Pos(sh, at, l, k, stack) && k >= sh.mem[at].highest
    ensures sh.mem[at].sibling != NULL
    ensures Pos(sh, sh.mem[at].sibling, l, k, stack) && Pos(sh, sh.mem[at].sibling, l, k, stack[l := at])
    ensures sh.mem[at].sibling in sh.mem && sh.mem[sh.mem[at].sibling].Level() == l
  {
    hide BLink;
    TurnRight(sh.mem, sh.lv, l, at, k);
    PageAt(sh.mem, sh.lv, l, sh.mem[at].sibling);
    PageAt(sh.mem, sh.lv, l, at);
  }

  /** Descending keeps it in position one level down, and the page it came
      through is on the stack above it. */
  lemma MoveDown(sh: Shared, at: Addr, l: nat, k: Key, stack: Stack)
    requires BLink(sh.mem, sh.lv) && l > 0 && Pos(sh, at, l, k, stack) && k < sh.mem[at].highest
    ensures sh.mem[at].Internal?
    ensures var c := Route(sh.mem[at].leftmost, sh.mem[at].entries, k);
      c in sh.mem && Pos(sh, c, l - 1, k, stack[l := at]) && sh.mem[c].Level() == l - 1
  {
    hide BLink, Route;
    DescendsTo(sh.mem, sh.lv, l, at, k);
    PageAt(sh.mem, sh.lv, l - 1, Route(sh.mem[at].leftmost, sh.mem[at].entries, k));
  }

  lemma StayAt(sh: Shared, at: Addr, l: nat, k: Key, stack: Stack)
    requires Pos(sh, at, l, k, stack)
    ensures Pos(sh, at, l, k, stack[l := at])
  {
  }

  lemma AtRoot(sh: Shared, root: Addr, k: Key, stack: Stack)
    requires BLink(sh.mem, sh.lv) && RootOk(sh, root) && k < KEY_MAX && stack.Keys <= {0}
    ensures root in sh.mem && Pos(sh, root, sh.mem[root].Level(), k, stack)
    ensures StackFits(sh, stack, sh.mem[root].Level(), root, false)
  {
    hide BLink;
    var l: nat :| OnLv(sh, root, l) && sh.mem[root].lowest == 0;
    PageAt(sh.mem, sh.lv, l, root);
  }

  lemma IsRootOk(sh: Shared, root: Addr, l: nat)
    requires BLink(sh.mem, sh.lv) && IsRoot(sh, root, l)
    ensures root in sh.mem && RootOk(sh, root) && sh.mem[root].Level() == l
  {
    hide BLink;
    TilesAt(sh.mem, sh.lv, l);
    PageAt(sh.mem, sh.lv, l, root);
    assert OnLv(sh, root, l);
  }

  lemma FromRootPc(sh: Shared, op: Op, stack: Stack, pc: Pc)
    requires SharedOk(sh) && op.k < KEY_MAX && (op.Insert? ==> op.v != VALUE_NULL) && stack.Keys <= {0} && FromRoot(sh, op, stack, pc)
    ensures PcOk(sh, pc) && pc.Walk?
  {
    hide BLink, Holds, Legal, Replay, PastOk, Pos, RootOk, StackFits;
    var root: Addr, l: nat :| IsRoot(sh, root, l) && pc == Walk(op, root, stack, root, false);
    IsRootOk(sh, root, l);
    AtRoot(sh, root, op.k, stack);
  }

  /** Reading the next page of the level, or one of the level below. */
  lemma StackMoves(sh: Shared, stack: Stack, l: nat, at: Addr, root: Addr)
    requires StackFits(sh, stack, l, root, false)
    ensures StackFits(sh, stack[l := at], l, root, false)
    ensures l > 0 ==> StackFits(sh, stack[l := at], l - 1, root, false)
  {
  }

  lemma InvokeGood(sh: Shared, t: nat, pc': Pc)
    requires SharedOk(sh) && Invoke(sh, pc')
    ensures Good(sh, t, Idle, sh, pc')
  {
    hide BLink, Holds, Legal, Replay, Guarantee, PastOk, Pos, RootOk, Route, Invoke, StackFits, KeepsIndex;
    QuietStep(sh, t, Idle, sh);
    InvokePc(sh, pc');
    QuietIndex(sh, Idle, sh, pc');
  }

  lemma InvokePc(sh: Shared, pc': Pc)
    requires SharedOk(sh) && Invoke(sh, pc')
    ensures PcOk(sh, pc') && (pc'.Walk? || pc'.LeafLock?)
  {
    hide BLink, Holds, Legal, Replay, PastOk, Pos, RootOk, Route;
    assert |sh.lv| > 0;
    var op: Op, root: Addr, l: nat :|
      && IsRoot(sh, root, l) && op.k < KEY_MAX && (op.Insert? ==> op.v != VALUE_NULL)
      && (pc' == Walk(op, root, map[], root, false) || (l >= 3 && InvokeCached(sh, op, root, pc')));
    IsRootOk(sh, root, l);
    AtRoot(sh, root, op.k, map[]);
    if pc' != Walk(op, root, map[], root, false) {
      var p :| p in sh.cached && p.Internal? && p.Covers(op.k) && CachedStart(op, root, p, pc');
      CachedLeads(sh, p, op.k);
    }
  }

  /** Whatever a cached page routes a key to is a leaf that starts no later:
      a stale copy shows only as a key past the leaf's upper fence. */
  lemma CachedLeads(sh: Shared, p: Page, k: Key)
    requires SharedOk(sh) && p in sh.cached && p.Covers(k) && k < KEY_MAX
    ensures p.Internal?
    ensures var c := Route(p.leftmost, p.entries, k); c in sh.mem && Pos(sh, c, 0, k, map[]) && sh.mem[c].Leaf? && sh.mem[c].Level() == 0
  {
    hide BLink, Holds, Legal, Replay;
    assert Past(sh.mem, sh.lv, p);
    PastLeads(sh.mem, sh.lv, p, k);
    PageAt(sh.mem, sh.lv, 0, Route(p.leftmost, p.entries, k));
  }

  lemma SearchAnswers(sh: Shared, at: Addr, k: Key, sh': Shared)
    requires SharedOk(sh) && OnLv(sh, at, 0) && sh.mem[at].Covers(k)
    ensures sh.mem[at].Leaf?
    ensures LeafGet(sh.mem[at].records, k) == KvGet(sh.kv, k)
    ensures var log := sh.log + [Got(k, LeafGet(sh.mem[at].records, k))]; Legal(log) && Replay(log) == sh.kv
  {
    hide BLink, Legal, Replay, PastOk;
    PageAt(sh.mem, sh.lv, 0, at);
    assert Answers(sh.mem[at], sh.kv, k);
    LegalAppend(sh.log, Got(k, LeafGet(sh.mem[at].records, k)));
  }

  lemma WalkGood(sh: Shared, t: nat, pc: Pc, sh': Shared, pc': Pc)
    requires SharedOk(sh) && PcOk(sh, pc) && pc.Walk? && WalkStep(sh, pc, sh', pc')
    ensures Good(sh, t, pc, sh', pc')
  {
    hide BLink, Holds, Legal, Replay, PastOk, Pos, RootOk, Guarantee, Route, Extends, StackFits, KeepsIndex;
    WalkFacts(sh, pc);
    WalkPc(sh, pc, sh', pc');
    WalkKeeps(sh, pc, sh', pc');
    if pc'.Done? { SearchAnswers(sh, pc.at, pc.op.k, sh'); }
    if sh'.cached != sh.cached { CachePage(sh, pc.at, sh'); }
    QuietStep(sh, t, pc, sh');
    QuietIndex(sh, pc, sh', pc');
    hide WalkStep, PcOk;
    PcSame(sh, sh', pc');
  }

  lemma WalkKeeps(sh: Shared, pc: Pc, sh': Shared, pc': Pc)
    requires pc.Walk? && WalkStep(sh, pc, sh', pc')
    ensures OwedBy(pc') == [] && sh'.mem == sh.mem && sh'.lv == sh.lv
  {
    hide Route;
  }

  lemma WalkPc(sh: Shared, pc: Pc, sh': Shared, pc': Pc)
    requires SharedOk(sh) && PcOk(sh, pc) && pc.Walk? && WalkStep(sh, pc, sh', pc')
    ensures PcOk(sh, pc') && Holding(pc') == [] && PrivateOf(pc') == []
    ensures pc'.Done? ==> OnLv(sh, pc.at, 0) && sh.mem[pc.at].Covers(pc.op.k)
  {
    hide BLink, Holds, Legal, Replay, PastOk, Pos, RootOk, Route, Extends, FromRoot;
    var p, k, l := sh.mem[pc.at], pc.op.k, sh.mem[pc.at].Level();
    WalkFacts(sh, pc);
    if pc.fromCache {
      if !p.Covers(k) { FromRootPc(sh, pc.op, pc.stack[l := pc.at], pc'); }
    } else {
      if k >= p.highest { MoveRight(sh, pc.at, l, k, pc.stack); }
      else if l > 0 { MoveDown(sh, pc.at, l, k, pc.stack); }
      StayAt(sh, pc.at, l, k, pc.stack);
      StackMoves(sh, pc.stack, l, pc.at, pc.root);
      hide StackFits;
    }
  }

  lemma WalkFacts(sh: Shared, pc: Pc)
    requires SharedOk(sh) && PcOk(sh, pc) && pc.Walk?
    ensures var l := sh.mem[pc.at].Level();
      && OnLv(sh, pc.at, l) && (l == 0 <==> sh.mem[pc.at].Leaf?)
      && sh.mem[pc.at].lowest <= pc.op.k < KEY_MAX
  {
    hide BLink, Holds, Legal, Replay, PastOk, StackOk;
    PageAt(sh.mem, sh.lv, sh.mem[pc.at].Level(), pc.at);
  }

  lemma LockGood(sh: Shared, t: nat, pc: Pc, sh': Shared, pc': Pc)
    requires SharedOk(sh) && PcOk(sh, pc) && (pc.LeafLock? || pc.IntLock?) && Step(sh, t, pc, sh', pc')
    ensures Good(sh, t, pc, sh', pc')
  {
    hide BLink, Holds, Legal, Replay, PastOk, Pos, RootOk, Guarantee, Owed, StackFits, KeepsIndex;
    QuietStep(sh, t, pc, sh');
    QuietIndex(sh, pc, sh', pc');
    if pc.LeafLock? { PcSame(sh, sh', LeafHeld(pc.op, pc.at, pc.stack, pc.root, pc.fromCache)); }
    else { PcSame(sh, sh', IntHeld(pc.l, pc.sep, pc.child, pc.at, pc.stack, pc.root, pc.result)); }
  }

  lemma UnlockGood(sh: Shared, t: nat, pc: Pc, sh': Shared, pc': Pc)
    requires SharedOk(sh) && PcOk(sh, pc) && LockOk(sh, t, pc) && pc.Unlock? && Step(sh, t, pc, sh', pc')
    ensures Good(sh, t, pc, sh', pc')
  {
    hide BLink, Holds, Legal, Replay, PastOk, Guarantee, KeepsIndex;
    QuietStep(sh, t, pc, sh');
    QuietIndex(sh, pc, sh', pc');
    assert PcOk(sh, pc');
    hide PcOk;
    PcSame(sh, sh', pc');
  }

  /** A step that changes nothing shared. */
  lemma LocalGood(sh: Shared, t: nat, pc: Pc, pc': Pc)
    requires SharedOk(sh) && LockOk(sh, t, pc) && PcOk(sh, pc')
    requires PrivateOf(pc') == [] && (Holding(pc') == [] || Holding(pc') == Holding(pc)) && OwedBy(pc') == OwedBy(pc)
    ensures Good(sh, t, pc, sh, pc')
  {
    hide BLink, Holds, Legal, Replay, PastOk, Guarantee, PcOk, KeepsIndex;
    QuietStep(sh, t, pc, sh);
    QuietIndex(sh, pc, sh, pc');
  }

  /** The steps that only look at the page just locked, or at the stack. */
  lemma LookGood(sh: Shared, t: nat, pc: Pc, sh': Shared, pc': Pc)
    requires SharedOk(sh) && PcOk(sh, pc) && LockOk(sh, t, pc) && Step(sh, t, pc, sh', pc')
    requires pc.LeafHeld? || pc.IntHeld? || pc.UpParent?
    ensures Good(sh, t, pc, sh', pc')
  {
    hide SharedOk, PcOk, Good, LockOk, IsRoot, Route;
    if pc.LeafHeld? { LeafHeldPc(sh, pc, sh', pc'); }
    else if pc.IntHeld? { IntHeldPc(sh, pc, sh', pc'); }
    else { UpParentPc(sh, pc, sh', pc'); }
    LocalGood(sh, t, pc, pc');
  }

  lemma LeafHeldPc(sh: Shared, pc: Pc, sh': Shared, pc': Pc)
    requires SharedOk(sh) && PcOk(sh, pc) && pc.LeafHeld? && LeafHeldStep(sh, pc, sh', pc')
    ensures PcOk(sh, pc') && OwedBy(pc') == []
  {
    hide BLink, Holds, Legal, Replay, PastOk, Pos, RootOk, FromRoot;
    PosBound(sh, pc.at, 0, pc.op.k, pc.stack);
    if pc.op.k >= sh.mem[pc.at].highest { MoveRight(sh, pc.at, 0, pc.op.k, pc.stack); }
    if pc.fromCache && !sh.mem[pc.at].Covers(pc.op.k) { FromRootPc(sh, pc.op, pc.stack, pc'.next); }
  }

  lemma PosBound(sh: Shared, at: Addr, l: nat, k: Key, stack: Stack)
    requires Pos(sh, at, l, k, stack)
    ensures OnLv(sh, at, l) && at in sh.mem && sh.mem[at].lowest <= k < KEY_MAX
    ensures StackOk(sh, stack, l, sh.mem[at].lowest)
  {
  }

  lemma IntHeldPc(sh: Shared, pc: Pc, sh': Shared, pc': Pc)
    requires SharedOk(sh) && PcOk(sh, pc) && pc.IntHeld? && IntHeldStep(sh, pc, sh', pc')
    ensures PcOk(sh, pc') && OwedBy(pc') == OwedBy(pc)
  {
    hide BLink, Holds, Legal, Replay, PastOk, Pos, RootOk, Owed, StackFits;
    PosBound(sh, pc.at, pc.l, pc.sep, pc.stack);
    if pc.sep >= sh.mem[pc.at].highest { MoveRight(sh, pc.at, pc.l, pc.sep, pc.stack); }
  }

  /** The page on the stack starts no later than the separator. */
  lemma StackPos(sh: Shared, stack: Stack, l: nat, sep: Key)
    requires StackOk(sh, stack, l, sep) && l + 1 in stack && sep < KEY_MAX
    ensures Pos(sh, stack[l + 1], l + 1, sep, stack)
  {
  }

  lemma UpParentPc(sh: Shared, pc: Pc, sh': Shared, pc': Pc)
    requires SharedOk(sh) && PcOk(sh, pc) && pc.UpParent? && UpParentStep(sh, pc, sh', pc')
    ensures PcOk(sh, pc') && Holding(pc') == [] && PrivateOf(pc') == [] && OwedBy(pc') == OwedBy(pc)
  {
    hide BLink, Holds, Legal, Replay, PastOk, Pos, RootOk, StackOk, IsRoot, Placed;
    if pc.l + 1 in pc.stack {
      StackPos(sh, pc.stack, pc.l, pc.sep);
    } else if pc.l == 0 && pc.fromCache {
      var root: Addr, l: nat :| l >= 3 && IsRoot(sh, root, l)
        && pc' == IntWalk(1, pc.sep, pc.child, root, pc.stack, root, pc.result);
      IsRootOk(sh, root, l);
      AtRoot(sh, root, pc.sep, pc.stack);
    }
  }

  lemma IntWalkGood(sh: Shared, t: nat, pc: Pc, sh': Shared, pc': Pc)
    requires SharedOk(sh) && PcOk(sh, pc) && pc.IntWalk? && IntWalkStep(sh, pc, sh', pc')
    ensures Good(sh, t, pc, sh', pc')
  {
    hide BLink, Holds, Legal, Replay, PastOk, Pos, RootOk, Guarantee, Route, Owed, StackFits, KeepsIndex;
    IntWalkPc(sh, pc, sh', pc');
    QuietIndex(sh, pc, sh', pc');
    PosBound(sh, pc.at, sh.mem[pc.at].Level(), pc.sep, pc.stack);
    CachePage(sh, pc.at, sh');
    QuietStep(sh, t, pc, sh');
    PcSame(sh, sh', pc');
  }

  lemma IntWalkPc(sh: Shared, pc: Pc, sh': Shared, pc': Pc)
    requires SharedOk(sh) && PcOk(sh, pc) && pc.IntWalk? && IntWalkStep(sh, pc, sh', pc')
    ensures PcOk(sh, pc') && Holding(pc') == [] && PrivateOf(pc') == [] && OwedBy(pc') == OwedBy(pc)
  {
    hide BLink, Holds, Legal, Replay, PastOk, Pos, RootOk, Route, Owed, MayCache, StackFits;
    var l := sh.mem[pc.at].Level();
    StackMoves(sh, pc.stack, l, pc.at, pc.root);
    PosBound(sh, pc.at, l, pc.sep, pc.stack);
    if pc.sep >= sh.mem[pc.at].highest { MoveRight(sh, pc.at, l, pc.sep, pc.stack); }
    else { MoveDown(sh, pc.at, l, pc.sep, pc.stack); }
  }

  // ------------------------------------------------------------ page writes

  /** A step that rewrites its locked page or writes a fresh one. */
  lemma WriteStep(sh: Shared, t: nat, pc: Pc, sh': Shared, a: Addr, p: Page)
    requires SharedOk(sh) && sh'.mem == sh.mem[a := p] && sh'.taken == sh.taken + {a}
    requires sh' == sh.(mem := sh'.mem, taken := sh'.taken, kv := sh'.kv, log := sh'.log)
    requires BLink(sh'.mem, sh.lv) && Holds(sh'.mem, sh.lv[0], sh'.kv) && Extends(sh.mem, sh.lv, sh'.mem, sh.lv)
    requires Legal(sh'.log) && Replay(sh'.log) == sh'.kv
    requires a !in sh.mem || (Owns(sh, t, a) && !Unlinked(sh.lv, a))
    requires LeavesUnplaced(sh, pc, sh') && (|sh.lv| > 1 ==> Narrows(sh.mem, sh.lv[1], sh'.mem, sh.lv[1]))
    ensures SharedOk(sh') && Guarantee(sh, t, pc, sh')
  {
    hide BLink, Holds, Legal, Replay, PastOk, Narrows, LeavesUnplaced;
    PastSurvives(sh.mem, sh.lv, sh'.mem, sh'.lv, sh.cached);
  }

  lemma LeafGotGood(sh: Shared, t: nat, pc: Pc, sh': Shared, pc': Pc)
    requires SharedOk(sh) && PcOk(sh, pc) && LockOk(sh, t, pc) && pc.LeafGot? && LeafGotStep(sh, pc, sh', pc')
    ensures Good(sh, t, pc, sh', pc')
  {
    hide BLink, Holds, Legal, Replay, PastOk, RootOk, Guarantee, Extends, LeafRemove, LeafPut, LeafOk, StackOk, LeafSplitRight, StackFits, KeepsIndex, LeavesUnplaced;
    var k, rs := pc.op.k, pc.page.records;
    Linked0(sh, pc.at);
    if pc.op.Delete? {
      var p := pc.page.(records := LeafRemove(rs, k));
      LeafRemoveStep(sh.mem, sh.lv, sh.kv, pc.at, k);
      LegalAppend(sh.log, Removed(k));
      LeafWritten(sh, pc, sh', pc', pc.at, p);
      WriteStep(sh, t, pc, sh', pc.at, p);
      LeafDone(sh', t, pc.at, Removed(k));
    } else if !AllLive(LeafPut(rs, k, pc.op.v)) {
      var p := pc.page.(records := LeafPut(rs, k, pc.op.v));
      LeafPutStep(sh.mem, sh.lv, sh.kv, pc.at, k, pc.op.v);
      LegalAppend(sh.log, Put(k, pc.op.v));
      LeafWritten(sh, pc, sh', pc', pc.at, p);
      WriteStep(sh, t, pc, sh', pc.at, p);
      LeafDone(sh', t, pc.at, Put(k, pc.op.v));
    } else {
      LeafSplitStarts(sh, t, pc, sh', pc');
    }
  }

  lemma LeafWritten(sh: Shared, pc: Pc, sh': Shared, pc': Pc, a: Addr, p: Page)
    requires BLink(sh.mem, sh.lv) && |sh.lv| > 0 && a in sh.lv[0] && a in sh.mem && SameFences(sh.mem[a], p)
    requires sh'.mem == sh.mem[a := p] && sh'.lv == sh.lv && OwedBy(pc) == OwedBy(pc') == []
    requires sh.mem.Keys <= sh.taken
    ensures KeepsIndex(sh, pc, sh', pc') && LeavesUnplaced(sh, pc, sh') && sh.taken == sh.taken + {a}
    ensures |sh.lv| > 1 ==> Narrows(sh.mem, sh.lv[1], sh'.mem, sh.lv[1])
  {
    hide BLink, Gains, LinksOwed, KeepsIndex, LeavesUnplaced;
    LeafWriteGains(sh, sh', a, p);
    GainsIndex(sh, pc, sh', pc', -1, NULL);
    if |sh.lv| > 1 { UpdateNarrows(sh.mem, sh.lv[1], a, p); }
  }

  lemma LeafDone(sh: Shared, t: nat, at: Addr, e: Event)
    requires Owns(sh, t, at)
    ensures PcOk(sh, Unlock(at, Done(e))) && LockOk(sh, t, Unlock(at, Done(e)))
  {
  }

  lemma Linked0(sh: Shared, at: Addr)
    requires OnLv(sh, at, 0) && |sh.lv| > 0 && sh.mem.Keys <= sh.taken
    ensures !Unlinked(sh.lv, at) && at in sh.taken
  {
  }

  lemma NotLinked(sh: Shared, s: Addr)
    requires BLink(sh.mem, sh.lv) && s !in sh.mem
    ensures Unlinked(sh.lv, s)
  {
    hide BLink;
    forall l | 0 <= l < |sh.lv| ensures s !in sh.lv[l] {
      if s in sh.lv[l] { PageAt(sh.mem, sh.lv, l, s); }
    }
  }

  /** A new page at a fresh address: reachable from nowhere. */
  lemma FreshPage(sh: Shared, t: nat, pc: Pc, sh': Shared, s: Addr, p: Page)
    requires SharedOk(sh) && s !in sh.taken && sh' == sh.(mem := sh.mem[s := p], taken := sh.taken + {s})
    ensures SharedOk(sh') && Guarantee(sh, t, pc, sh') && Private(sh', s, p)
    ensures Extends(sh.mem, sh.lv, sh'.mem, sh'.lv)
    ensures forall pc' :: OwedBy(pc') == OwedBy(pc) ==> KeepsIndex(sh, pc, sh', pc')
    ensures forall l, sep, c :: Owed(sh, l, sep, c) ==> Owed(sh', l, sep, c)
  {
    hide BLink, Holds, Legal, Replay, PastOk, Guarantee, Extends, Unlinked, LeavesUnplaced, KeepsIndex, Gains, LinksOwed;
    NotLinked(sh, s);
    AddPage(sh.mem, sh.lv, s, p);
    NewPageHolds(sh.mem, sh.lv, sh.kv, s, p);
    NewPageGains(sh, sh', s, p, OwedBy(pc));
    GainsIndex(sh, pc, sh', pc, -1, NULL);
    if |sh.lv| > 1 { LinkedElsewhere(sh, s); SameNarrows(sh.mem, sh.lv[1], sh'.mem); }
    WriteStep(sh, t, pc, sh', s, p);
    forall pc' | OwedBy(pc') == OwedBy(pc) ensures KeepsIndex(sh, pc, sh', pc') { GainsIndex(sh, pc, sh', pc', -1, NULL); }
    forall l, sep, c | Owed(sh, l, sep, c) ensures Owed(sh', l, sep, c) {
      NotGained(sh, sh', l, sep, c);
      OwedStable(sh, sh', l, sep, c);
    }
  }

  lemma LinkedElsewhere(sh: Shared, s: Addr)
    requires BLink(sh.mem, sh.lv) && |sh.lv| > 1 && s !in sh.mem
    ensures forall b :: b in sh.lv[1] ==> b in sh.mem && b != s
  {
    hide BLink;
    forall b | b in sh.lv[1] ensures b in sh.mem { PageAt(sh.mem, sh.lv, 1, b); }
  }

  lemma NotGained(sh: Shared, sh': Shared, l: nat, sep: Key, c: Addr)
    requires Gains(sh, sh', -1, NULL) && Owed(sh, l, sep, c)
    ensures !Placed(sh', l, c)
  {
    hide Placed;
  }

  lemma LeafSplitStarts(sh: Shared, t: nat, pc: Pc, sh': Shared, pc': Pc)
    requires SharedOk(sh) && PcOk(sh, pc) && LockOk(sh, t, pc) && pc.LeafGot? && LeafGotStep(sh, pc, sh', pc')
    requires !pc.op.Delete? && AllLive(LeafPut(pc.page.records, pc.op.k, pc.op.v))
    ensures Good(sh, t, pc, sh', pc')
  {
    hide BLink, Holds, Legal, Replay, PastOk, RootOk, Guarantee, Extends, LeafPut, LeafSplitRight, Pos, Private, AllLive, UniqueLive, KeysWithin, StackFits, KeepsIndex;
    var s := pc'.sib;
    var r := LeafSplitRight(pc.page, LeafPut(pc.page.records, pc.op.k, pc.op.v));
    FreshPage(sh, t, pc, sh', s, r);
    PosBound(sh, pc.at, 0, pc.op.k, pc.stack);
    PageAt(sh.mem, sh.lv, 0, pc.at);
    LeafPosStable(sh, sh', pc.op, pc.at, pc.stack, pc.root, pc.fromCache);
  }

  // ------------------------------------------------------- linking a sibling

  /** A step that links its private page and shrinks or supersedes another. */
  lemma LinkStep(sh: Shared, t: nat, pc: Pc, sh': Shared, l: nat, i: nat, s: Addr, left: Page)
    requires SharedOk(sh) && l < |sh.lv| && i < |sh.lv[l]| && PrivateOf(pc) == [s]
    requires sh' == sh.(mem := sh.mem[sh.lv[l][i] := left], lv := LinkAfter(sh.lv, l, i, s), kv := sh'.kv, log := sh'.log)
    requires BLink(sh'.mem, sh'.lv) && Holds(sh'.mem, sh'.lv[0], sh'.kv) && Extends(sh.mem, sh.lv, sh'.mem, sh'.lv)
    requires Legal(sh'.log) && Replay(sh'.log) == sh'.kv
    requires Owns(sh, t, sh.lv[l][i]) && sh.lv[l][i] in sh.mem
    requires s in sh.mem && Unlinked(sh.lv, s) && Splits(sh.mem[sh.lv[l][i]], s, left, sh.mem[s]) && LeavesUnplaced(sh, pc, sh')
    ensures SharedOk(sh') && Guarantee(sh, t, pc, sh')
  {
    hide BLink, Holds, Legal, Replay, PastOk, Splits, LeavesUnplaced, Narrows;
    assert sh.lv[l][i] in sh.lv[l];
    assert !Unlinked(sh.lv, sh.lv[l][i]);
    assert Extends(sh.mem, sh.lv, sh'.mem, sh'.lv);
    if |sh.lv| > 1 { LinkNarrows(sh.mem, sh.lv, l, i, s, left, 1); }
    PastSurvives(sh.mem, sh.lv, sh'.mem, sh'.lv, sh.cached);
  }

  lemma LeafSibGood(sh: Shared, t: nat, pc: Pc, sh': Shared, pc': Pc)
    requires SharedOk(sh) && PcOk(sh, pc) && LockOk(sh, t, pc) && pc.LeafSib? && LeafSibStep(sh, pc, sh', pc')
    ensures Good(sh, t, pc, sh', pc')
  {
    hide LeafPos, SharedOk, Guarantee, LeafPut, LeafSplitLeft, LeafSplitRight, LeafSplitKey, LeafLinks, LeafFull, Private, LeafSplitting, Pos, Owed, RootOk, StackFits, KeepsIndex;
    var i: nat :| LeafLinks(sh, pc, i, sh');
    LeafSibIndex(sh, pc, i, sh', pc');
    LeafSibShared(sh, t, pc, i, sh');
    LeafSibPc(sh, pc, i, sh');
    LinkKeepsLocks(sh, t, pc, i, sh');
    assert PcOk(sh', pc'.next);
  }

  lemma LinkKeepsLocks(sh: Shared, t: nat, pc: Pc, i: nat, sh': Shared)
    requires pc.LeafSib? && LeafSplitting(pc) && LeafLinks(sh, pc, i, sh') && Owns(sh, t, pc.at)
    ensures Owns(sh', t, pc.at)
  {
    hide LeafPut, LeafSplitLeft, LeafSplitting;
  }

  lemma LeafSibIndex(sh: Shared, pc: Pc, i: nat, sh': Shared, pc': Pc)
    requires SharedOk(sh) && PcOk(sh, pc) && pc.LeafSib? && LeafSplitting(pc) && LeafLinks(sh, pc, i, sh') && OwedBy(pc') == [pc.sib]
    ensures KeepsIndex(sh, pc, sh', pc') && LeavesUnplaced(sh, pc, sh') && !Placed(sh', 0, pc.sib)
  {
    hide BLink, Holds, Legal, Replay, PastOk, LeafPut, LeafSplitLeft, LeafSplitRight, Unlinked, AllLive, StackOk, RootOk, StackFits, Gains, LinksOwed, KeepsIndex, LeavesUnplaced;
    LeafLinkGains(sh, sh', i, pc.sib, LeafSplitLeft(pc.page, LeafPut(pc.page.records, pc.op.k, pc.op.v), pc.sib));
    GainsIndex(sh, pc, sh', pc', -1, NULL);
  }

  lemma LeafSibShared(sh: Shared, t: nat, pc: Pc, i: nat, sh': Shared)
    requires SharedOk(sh) && PcOk(sh, pc) && LockOk(sh, t, pc) && pc.LeafSib? && LeafSplitting(pc) && LeafLinks(sh, pc, i, sh')
    requires LeavesUnplaced(sh, pc, sh')
    ensures SharedOk(sh') && Guarantee(sh, t, pc, sh')
    ensures Extends(sh.mem, sh.lv, sh'.mem, sh'.lv) && BLink(sh'.mem, sh'.lv)
  {
    hide BLink, Holds, Legal, Replay, PastOk, RootOk, Guarantee, Extends, LeafPut, LeafSplitLeft, LeafSplitRight, Unlinked, AllLive, StackOk, Splits, LeafOk, StackFits, LeavesUnplaced;
    var k, v, p := pc.op.k, pc.op.v, pc.page;
    LeafSplitStep(sh.mem, sh.lv, sh.kv, i, pc.sib, k, v);
    LegalAppend(sh.log, Put(k, v));
    LinkStep(sh, t, pc, sh', 0, i, pc.sib, LeafSplitLeft(p, LeafPut(p.records, k, v), pc.sib));
  }

  lemma LeafSibPc(sh: Shared, pc: Pc, i: nat, sh': Shared)
    requires SharedOk(sh) && PcOk(sh, pc) && pc.LeafSib? && LeafSplitting(pc) && LeafLinks(sh, pc, i, sh')
    requires Extends(sh.mem, sh.lv, sh'.mem, sh'.lv) && BLink(sh'.mem, sh'.lv) && !Placed(sh', 0, pc.sib)
    ensures var sep := LeafSplitKey(LeafPut(pc.page.records, pc.op.k, pc.op.v));
      Owed(sh', 0, sep, pc.sib) && Pos(sh', pc.at, 0, sep, pc.stack) && RootOk(sh', pc.root)
    ensures StackFits(sh', pc.stack, 0, pc.root, pc.fromCache)
  {
    hide BLink, Holds, Legal, Replay, PastOk, RootOk, Extends, LeafPut, LeafSplitLeft, LeafSplitRight, LeafSplitKey, LeafOk, AllLive, StackOk, StackFits, Placed;
    var rs := LeafPut(pc.page.records, pc.op.k, pc.op.v);
    StackFitsStable(sh, sh', pc.stack, 0, pc.root, pc.fromCache);
    LeafSplitUp(sh, sh', pc, rs);
    RootStable(sh, sh', pc.root);
    PosStable(sh, sh', pc.at, 0, pc.op.k, pc.stack);
    SameLevel(sh, sh', pc.at, 0);
    PosSep(sh', pc.at, 0, pc.op.k, LeafSplitKey(rs), pc.stack);
  }

  lemma PosSep(sh: Shared, at: Addr, l: nat, k: Key, sep: Key, stack: Stack)
    requires Pos(sh, at, l, k, stack) && sh.mem[at].lowest <= sep < KEY_MAX
    ensures Pos(sh, at, l, sep, stack)
  {
  }

  /** What the split owes the level above: the sibling under its own lowest. */
  lemma LeafSplitUp(sh: Shared, sh': Shared, pc: Pc, rs: seq<LeafEntry>)
    requires pc.LeafSib? && LeafFull(pc.op, pc.page) && rs == LeafPut(pc.page.records, pc.op.k, pc.op.v) && pc.op.v != VALUE_NULL
    requires pc.sib in sh'.mem && sh'.mem[pc.sib] == LeafSplitRight(pc.page, rs)
    requires |sh'.lv| > 0 && pc.sib in sh'.lv[0] && !Placed(sh', 0, pc.sib)
    ensures Owed(sh', 0, LeafSplitKey(rs), pc.sib)
    ensures pc.page.lowest < LeafSplitKey(rs) < KEY_MAX
  {
    LeafPutOk(pc.page, pc.op.k, pc.op.v);
    LeafSplitOk(pc.page, rs, pc.sib);
  }

  // ------------------------------------------------ the levels above the leaf

  lemma UpGood(sh: Shared, t: nat, pc: Pc, sh': Shared, pc': Pc)
    requires SharedOk(sh) && PcOk(sh, pc) && LockOk(sh, t, pc) && pc.Up? && UpStep(sh, pc, sh', pc')
    ensures Good(sh, t, pc, sh', pc')
  {
    hide SharedOk, BLink, Guarantee, Pos, RootOk, Private, Owed, Extends, StackOk, StackFits, KeepsIndex;
    PosBound(sh, pc.at, pc.l, pc.sep, pc.stack);
    if pc.root == pc.at {
      FreshPage(sh, t, pc, sh', pc'.newRoot, NewRoot(pc.l + 1, pc.at, pc.sep, pc.child));
      BothLinked(sh, sh');
      PosStable(sh, sh', pc.at, pc.l, pc.sep, pc.stack);
      StackFitsStable(sh, sh', pc.stack, pc.l, pc.root, pc.fromCache);
      RootStable(sh, sh', pc.root);
    } else {
      StackLater(sh, pc.stack, pc.l, sh.mem[pc.at].lowest, pc.sep);
      LocalGood(sh, t, pc, pc');
    }
  }

  lemma BothLinked(sh: Shared, sh': Shared)
    requires SharedOk(sh) && SharedOk(sh')
    ensures BLink(sh.mem, sh.lv) && BLink(sh'.mem, sh'.lv)
  {
  }

  lemma StackLater(sh: Shared, stack: Stack, l: nat, b: Key, b': Key)
    requires StackOk(sh, stack, l, b) && b <= b'
    ensures StackOk(sh, stack, l, b')
  {
  }

  lemma RootCasGood(sh: Shared, t: nat, pc: Pc, sh': Shared, pc': Pc)
    requires SharedOk(sh) && PcOk(sh, pc) && LockOk(sh, t, pc) && pc.RootCas? && RootCasStep(sh, pc, sh', pc')
    ensures Good(sh, t, pc, sh', pc')
  {
    hide SharedOk, BLink, Guarantee, RootOk, Private, Owed, StackOk, KeepsIndex, StackFits;
    if sh.root == pc.root {
      RootSwapped(sh, t, pc, sh', pc');
    } else {
      StackLater(sh, pc.stack, pc.l, sh.mem[pc.at].lowest, pc.sep);
      LocalGood(sh, t, pc, pc');
    }
  }

  /** The swap succeeds only for a split of the page that is still the root, so
      the new root sits exactly one level above it. */
  lemma RootSwapped(sh: Shared, t: nat, pc: Pc, sh': Shared, pc': Pc)
    requires SharedOk(sh) && PcOk(sh, pc) && pc.RootCas? && sh.root == pc.root && OwedBy(pc') == []
    requires sh' == sh.(root := pc.newRoot, lv := sh.lv + [[pc.newRoot]])
    ensures SharedOk(sh') && Guarantee(sh, t, pc, sh') && KeepsIndex(sh, pc, sh', pc')
    ensures |sh.lv| == pc.l + 1
  {
    hide BLink, Holds, Legal, Replay, PastOk, StackOk, RootOk, KeepsIndex, LeavesUnplaced, Placed, Gains, LinksOwed;
    assert sh.root in sh.lv[|sh.lv| - 1];
    LevelsDisjoint(sh.mem, sh.lv, pc.l, |sh.lv| - 1, pc.at);
    NotLeftmost(sh, pc.l, pc.sep, pc.child);
    GrowStep(sh.mem, sh.lv, pc.sep, pc.child, pc.newRoot);
    RootGains(sh, sh', pc.l, pc.sep, pc.child, pc.newRoot);
    GainsIndex(sh, pc, sh', pc', pc.l, pc.child);
    if |sh.lv| > 1 { AllLinked(sh); SameNarrows(sh.mem, sh.lv[1], sh'.mem); }
    PastSurvives(sh.mem, sh.lv, sh'.mem, sh'.lv, sh.cached);
  }

  lemma AllLinked(sh: Shared)
    requires BLink(sh.mem, sh.lv) && |sh.lv| > 1
    ensures forall b :: b in sh.lv[1] ==> b in sh.mem
  {
    hide BLink;
    forall b | b in sh.lv[1] ensures b in sh.mem { PageAt(sh.mem, sh.lv, 1, b); }
  }

  /** A page of the top level that owes a separator is not the root itself. */
  lemma NotLeftmost(sh: Shared, l: nat, sep: Key, child: Addr)
    requires BLink(sh.mem, sh.lv) && Owed(sh, l, sep, child) && l + 1 == |sh.lv|
    ensures 0 < sep
  {
    hide BLink;
    TilesAt(sh.mem, sh.lv, l);
    if sep == 0 { SamePage(sh.mem, sh.lv[l], l, child, sh.lv[l][0]); }
  }

  lemma RootGains(sh: Shared, sh': Shared, l: nat, sep: Key, child: Addr, r: Addr)
    requires l + 1 == |sh.lv| && |sh.lv[l]| > 0 && r in sh.mem && sh.mem[r] == NewRoot(|sh.lv|, sh.lv[l][0], sep, child)
    requires child in sh.lv[l] && sh'.mem == sh.mem && sh'.lv == sh.lv + [[r]]
    ensures Gains(sh, sh', l, child) && LinksOwed(sh, sh', [])
  {
    forall c ensures Entered(sh', l, c) <==> c == sh.lv[l][0] || c == child {
      assert sh'.lv[l + 1] == [r];
      assert IsChild(sh.mem[r], c) <==> c == sh.lv[l][0] || c == child by { assert sh.mem[r].entries[0].ptr == child; }
      assert r in sh'.lv[l + 1];
    }
    assert forall m: nat, c :: m + 1 < |sh.lv| ==> (Entered(sh', m, c) <==> Entered(sh, m, c)) by {
      forall m: nat, c | m + 1 < |sh.lv| ensures Entered(sh', m, c) <==> Entered(sh, m, c) { assert sh'.lv[m + 1] == sh.lv[m + 1]; }
    }
    hide Entered;
    assert forall m :: 0 <= m < |sh.lv| ==> sh'.lv[m] == sh.lv[m];
  }

  lemma IntGotGood(sh: Shared, t: nat, pc: Pc, sh': Shared, pc': Pc)
    requires SharedOk(sh) && PcOk(sh, pc) && LockOk(sh, t, pc) && pc.IntGot? && IntGotStep(sh, pc, sh', pc')
    ensures Good(sh, t, pc, sh', pc')
  {
    hide BLink, Holds, Legal, Replay, PastOk, RootOk, Guarantee, Extends, InnerPut, EntriesOk, StackOk, InnerSplitRight, Unlinked, Placed, StackFits, KeepsIndex, LeavesUnplaced, Gains, LinksOwed, HasParent;
    var es := InnerPut(pc.page.entries, pc.sep, pc.child);
    if |es| < INTERNAL_CARD {
      OwedInside(sh, pc.l, pc.at, pc.sep, pc.child);
      InnerPutStep(sh.mem, sh.lv, sh.kv, pc.l, pc.at, pc.sep, pc.child);
      LinkedAt(sh, pc.at, pc.l);
      assert sh'.taken == sh.taken + {pc.at};
      PutGains(sh, sh', pc.l, pc.at, pc.sep, pc.child);
      GainsIndex(sh, pc, sh', pc', pc.l - 1, pc.child);
      UpdateNarrows(sh.mem, sh.lv[1], pc.at, pc.page.(entries := es));
      WriteStep(sh, t, pc, sh', pc.at, pc.page.(entries := es));
      LeafDone(sh', t, pc.at, pc.result);
    } else {
      IntSplitStarts(sh, t, pc, sh', pc');
    }
  }

  /** An owed separator lies strictly inside the page it goes into. */
  lemma OwedInside(sh: Shared, l: nat, at: Addr, sep: Key, child: Addr)
    requires BLink(sh.mem, sh.lv) && 0 < l && OnLv(sh, at, l) && Owed(sh, l - 1, sep, child) && sh.mem[at].Covers(sep)
    ensures sh.mem[at].lowest < sep && sh.mem[at].Internal?
  {
    hide BLink, HasParent;
    PageAt(sh.mem, sh.lv, l, at);
    StrictlyInside(sh.mem, sh.lv, l, at, sep, child);
  }

  lemma LinkedAt(sh: Shared, at: Addr, l: nat)
    requires OnLv(sh, at, l) && sh.mem.Keys <= sh.taken
    ensures !Unlinked(sh.lv, at) && at in sh.taken
  {
  }

  lemma IntSplitStarts(sh: Shared, t: nat, pc: Pc, sh': Shared, pc': Pc)
    requires SharedOk(sh) && PcOk(sh, pc) && LockOk(sh, t, pc) && pc.IntGot? && IntGotStep(sh, pc, sh', pc')
    requires |InnerPut(pc.page.entries, pc.sep, pc.child)| >= INTERNAL_CARD
    ensures Good(sh, t, pc, sh', pc')
  {
    hide BLink, Holds, Legal, Replay, PastOk, RootOk, Guarantee, Extends, InnerPut, InnerSplitRight, Pos, Private, Owed, SharedOk, StackFits, KeepsIndex;
    FreshPage(sh, t, pc, sh', pc'.sib, InnerSplitRight(pc.page, InnerPut(pc.page.entries, pc.sep, pc.child)));
    BothLinked(sh, sh');
    PosBound(sh, pc.at, pc.l, pc.sep, pc.stack);
    FreshElsewhere(sh, pc.at, pc'.sib);
    IntPosStable(sh, sh', pc.l, pc.sep, pc.child, pc.at, pc.stack, pc.root);
  }

  lemma FreshElsewhere(sh: Shared, at: Addr, s: Addr)
    requires SharedOk(sh) && at in sh.mem && s !in sh.taken
    ensures s != at
  {
  }

  lemma IntSibGood(sh: Shared, t: nat, pc: Pc, sh': Shared, pc': Pc)
    requires SharedOk(sh) && PcOk(sh, pc) && LockOk(sh, t, pc) && pc.IntSib? && IntSibStep(sh, pc, sh', pc')
    ensures Good(sh, t, pc, sh', pc')
  {
    hide SharedOk, Guarantee, InnerPut, InnerSplitLeft, InnerSplitRight, IntLinks, Private, Pos, Owed, RootOk, StackFits, KeepsIndex;
    var i: nat :| IntLinks(sh, pc, i, sh');
    IntSibLinked(sh, pc, i, sh');
    IntSibIndex(sh, pc, i, sh', pc');
    IntSibShared(sh, t, pc, i, sh');
    IntSibPc(sh, pc, i, sh');
    assert PcOk(sh', pc'.next);
  }

  lemma IntSibIndex(sh: Shared, pc: Pc, i: nat, sh': Shared, pc': Pc)
    requires SharedOk(sh) && PcOk(sh, pc) && pc.IntSib? && IntLinks(sh, pc, i, sh') && OwedBy(pc') == [pc.sib]
    requires BLink(sh'.mem, sh'.lv)
    ensures KeepsIndex(sh, pc, sh', pc') && LeavesUnplaced(sh, pc, sh') && !Placed(sh', pc.l, pc.sib)
  {
    hide BLink, Holds, Legal, Replay, PastOk, InnerPut, InnerSplitLeft, InnerSplitRight, Unlinked, Gains, LinksOwed, KeepsIndex, LeavesUnplaced, Placed, StackOk, RootOk, StackFits;
    SplitGains(sh, sh', pc.l, i, pc.sep, pc.child, pc.sib);
    GainsIndex(sh, pc, sh', pc', pc.l - 1, pc.child);
  }

  lemma IntSibLinked(sh: Shared, pc: Pc, i: nat, sh': Shared)
    requires SharedOk(sh) && PcOk(sh, pc) && pc.IntSib? && IntLinks(sh, pc, i, sh')
    ensures BLink(sh'.mem, sh'.lv) && Holds(sh'.mem, sh'.lv[0], sh.kv) && Extends(sh.mem, sh.lv, sh'.mem, sh'.lv)
    ensures Splits(sh.mem[pc.at], pc.sib, sh'.mem[pc.at], sh.mem[pc.sib])
  {
    hide BLink, Holds, Legal, Replay, PastOk, RootOk, Extends, InnerPut, InnerSplitLeft, InnerSplitRight, Unlinked, StackOk, Splits, EntriesOk, Placed, StackFits;
    OwedInside(sh, pc.l, pc.at, pc.sep, pc.child);
    InnerSplitStep(sh.mem, sh.lv, sh.kv, pc.l, i, pc.sep, pc.child, pc.sib);
  }

  lemma IntSibShared(sh: Shared, t: nat, pc: Pc, i: nat, sh': Shared)
    requires SharedOk(sh) && PcOk(sh, pc) && LockOk(sh, t, pc) && pc.IntSib? && IntLinks(sh, pc, i, sh') && LeavesUnplaced(sh, pc, sh')
    ensures SharedOk(sh') && Guarantee(sh, t, pc, sh') && Owns(sh', t, pc.at)
    ensures Extends(sh.mem, sh.lv, sh'.mem, sh'.lv) && BLink(sh'.mem, sh'.lv)
  {
    hide BLink, Holds, Legal, Replay, PastOk, RootOk, Guarantee, Extends, InnerPut, InnerSplitLeft, InnerSplitRight, Unlinked, StackOk, Splits, EntriesOk, Placed, StackFits, LeavesUnplaced;
    IntSibLinked(sh, pc, i, sh');
    LinkStep(sh, t, pc, sh', pc.l, i, pc.sib, InnerSplitLeft(pc.page, InnerPut(pc.page.entries, pc.sep, pc.child), pc.sib));
  }

  lemma IntSibPc(sh: Shared, pc: Pc, i: nat, sh': Shared)
    requires SharedOk(sh) && PcOk(sh, pc) && pc.IntSib? && IntLinks(sh, pc, i, sh')
    requires Extends(sh.mem, sh.lv, sh'.mem, sh'.lv) && BLink(sh'.mem, sh'.lv) && !Placed(sh', pc.l, pc.sib)
    ensures var sep := InnerPut(pc.page.entries, pc.sep, pc.child)[INTERNAL_CARD / 2].key;
      Owed(sh', pc.l, sep, pc.sib) && Pos(sh', pc.at, pc.l, sep, pc.stack) && RootOk(sh', pc.root)
    ensures StackFits(sh', pc.stack, pc.l, pc.root, false)
  {
    hide BLink, Holds, Legal, Replay, PastOk, RootOk, Extends, InnerPut, StackOk, PageOk, Placed, StackFits;
    var es := InnerPut(pc.page.entries, pc.sep, pc.child);
    OwedInside(sh, pc.l, pc.at, pc.sep, pc.child);
    StackFitsStable(sh, sh', pc.stack, pc.l, pc.root, false);
    InnerSplitPages(sh.mem, sh.lv, pc.l, pc.at, pc.sep, pc.child, pc.sib);
    RootStable(sh, sh', pc.root);
    PosStable(sh, sh', pc.at, pc.l, pc.sep, pc.stack);
    SameLevel(sh, sh', pc.at, pc.l);
    PosSep(sh', pc.at, pc.l, pc.sep, es[INTERNAL_CARD / 2].key, pc.stack);
  }

  // --------------------------------------------------------- the invariant

  lemma StepGood(sh: Shared, t: nat, pc: Pc, sh': Shared, pc': Pc)
    requires SharedOk(sh) && PcOk(sh, pc) && LockOk(sh, t, pc) && Step(sh, t, pc, sh', pc')
    ensures Good(sh, t, pc, sh', pc')
  {
    hide SharedOk, PcOk, LockOk, Good, Invoke, WalkStep, LeafHeldStep, LeafGotStep, LeafSibStep, UpStep, RootCasStep, UpParentStep, IntWalkStep, IntHeldStep, IntGotStep, IntSibStep;
    match pc
    case Idle => InvokeGood(sh, t, pc');
    case Walk(_, _, _, _, _) => WalkGood(sh, t, pc, sh', pc');
    case LeafLock(_, _, _, _, _) => LockGood(sh, t, pc, sh', pc');
    case LeafHeld(_, _, _, _, _) => LookGood(sh, t, pc, sh', pc');
    case LeafGot(_, _, _, _, _, _) => LeafGotGood(sh, t, pc, sh', pc');
    case LeafSib(_, _, _, _, _, _, _) => LeafSibGood(sh, t, pc, sh', pc');
    case Unlock(_, _) => UnlockGood(sh, t, pc, sh', pc');
    case Up(_, _, _, _, _, _, _, _) => UpGood(sh, t, pc, sh', pc');
    case RootCas(_, _, _, _, _, _, _, _, _) => RootCasGood(sh, t, pc, sh', pc');
    case UpParent(_, _, _, _, _, _, _) => LookGood(sh, t, pc, sh', pc');
    case IntWalk(_, _, _, _, _, _, _) => IntWalkGood(sh, t, pc, sh', pc');
    case IntLock(_, _, _, _, _, _, _) => LockGood(sh, t, pc, sh', pc');
    case IntHeld(_, _, _, _, _, _, _) => LookGood(sh, t, pc, sh', pc');
    case IntGot(_, _, _, _, _, _, _, _) => IntGotGood(sh, t, pc, sh', pc');
    case IntSib(_, _, _, _, _, _, _, _, _) => IntSibGood(sh, t, pc, sh', pc');
    case Done(_) => DoneGood(sh, t, pc, pc');
    case Failed(_, _, _, _) =>
  }

  lemma DoneGood(sh: Shared, t: nat, pc: Pc, pc': Pc)
    requires SharedOk(sh) && pc.Done? && pc' == Idle
    ensures Good(sh, t, pc, sh, pc')
  {
    hide SharedOk;
    LocalGood(sh, t, pc, pc');
  }

  lemma PrivateTaken(sh: Shared, pc: Pc)
    requires SharedOk(sh) && PcOk(sh, pc) && PrivateOf(pc) != []
    ensures PrivateOf(pc)[0] in sh.taken && |PrivateOf(pc)| == 1
  {
    hide BLink, Holds, Legal, Replay, PastOk, StackOk, LeafPos, IntPos, Owed, RootOk, LeafFull, LeafSplitRight, InnerSplitRight, NewRoot, Pos;
  }

  /** Every step of every thread keeps the invariant. */
  lemma InvStep(s: State, t: nat, s': State)
    requires Inv(s) && StepOf(s, t, s')
    ensures Inv(s') && Extends(s.sh.mem, s.sh.lv, s'.sh.mem, s'.sh.lv)
  {
    hide SharedOk, PcOk, LockOk, Guarantee, Extends, Step, BLink, Indexed, KeepsIndex, OwedBy, PrivateOf;
    StepGood(s.sh, t, s.pcs[t], s'.sh, s'.pcs[t]);
    BothLinked(s.sh, s'.sh);
    GuaranteeExtends(s.sh, t, s.pcs[t], s'.sh);
    forall u | 0 <= u < |s.pcs| && u != t ensures PcOk(s'.sh, s'.pcs[u]) && LockOk(s'.sh, u, s'.pcs[u]) {
      PcStable(s.sh, t, s.pcs[t], s'.sh, u, s.pcs[u]);
      LockStable(s.sh, t, s.pcs[t], s'.sh, u, s.pcs[u]);
    }
    forall u | 0 <= u < |s.pcs| && u != t
      ensures PrivateOf(s'.pcs[u]) == [] || PrivateOf(s'.pcs[u]) != PrivateOf(s'.pcs[t])
      ensures OwedBy(s'.pcs[u]) == [] || OwedBy(s'.pcs[u]) != OwedBy(s'.pcs[t])
    {
      if PrivateOf(s.pcs[u]) != [] { PrivateTaken(s.sh, s.pcs[u]); }
      if OwedBy(s.pcs[u]) != [] && OwedBy(s'.pcs[t]) == PrivateOf(s.pcs[t]) != [] { OwedIsLinked(s.sh, s.pcs[u], s.pcs[t]); }
    }
    IndexStep(s, t, s');
  }

  /** What a thread owes is linked, what another has just written is not. */
  lemma {:induction false} OwedIsLinked(sh: Shared, pc: Pc, other: Pc)
    requires PcOk(sh, pc) && PcOk(sh, other) && OwedBy(pc) != [] && PrivateOf(other) != []
    ensures OwedBy(pc) != PrivateOf(other)
    decreases pc
  {
    hide Pos, RootOk, StackOk, StackFits, Placed, LeafSplitRight, InnerSplitRight, NewRoot, LeafPos, LeafFull, InnerPut;
    if pc.Unlock? { OwedIsLinked(sh, pc.next, other); }
  }

  lemma IndexStep(s: State, t: nat, s': State)
    requires t < |s.pcs| == |s'.pcs| && Indexed(s) && KeepsIndex(s.sh, s.pcs[t], s'.sh, s'.pcs[t])
    requires forall u :: 0 <= u < |s.pcs| && u != t ==> s'.pcs[u] == s.pcs[u]
    ensures Indexed(s')
  {
    hide Placed, OwedBy;
    forall l, c | 0 <= l < |s'.sh.lv| && c in s'.sh.lv[l] ensures Placed(s'.sh, l, c) || IsOwed(s', c) {
      if l < |s.sh.lv| && c in s.sh.lv[l] && OwedBy(s.pcs[t]) != [c] {
        if !Placed(s.sh, l, c) {
          var u :| 0 <= u < |s.pcs| && OwedBy(s.pcs[u]) == [c];
          assert s'.pcs[u] == s.pcs[u];
        }
      } else {
        assert Placed(s'.sh, l, c) || OwedBy(s'.pcs[t]) == [c];
      }
    }
  }

  lemma GuaranteeExtends(sh: Shared, t: nat, pc: Pc, sh': Shared)
    requires Guarantee(sh, t, pc, sh')
    ensures Extends(sh.mem, sh.lv, sh'.mem, sh'.lv)
  {
  }

  lemma InitInv(s: State)
    requires Init(s)
    ensures Inv(s)
  {
    var root := s.sh.root;
    var p := s.sh.mem[root];
    assert forall i :: 0 <= i < |p.records| ==> !p.records[i].Live();
    assert FindEmpty(p.records) == 0;
    assert s.sh.lv == [[root]];
    assert Tiles(s.sh.mem, [root], 0);
    assert root in s.sh.lv[0];
  }

  lemma {:induction false} RunInv(tr: seq<State>, sched: seq<nat>, i: nat)
    requires Run(tr, sched) && i < |tr|
    ensures Inv(tr[i])
  {
    hide Inv, Init, StepOf;
    if i == 0 { InitInv(tr[0]); } else { RunInv(tr, sched, i - 1); InvStep(tr[i - 1], sched[i - 1], tr[i]); }
  }

  // ------------------------------------------------------- linearizability

  datatype Phase = Resting | Pending(op: Op) | Decided(e: Event)

  function PhaseOf(pc: Pc): Phase {
    match pc
    case Idle => Resting
    case Walk(op, _, _, _, _) => Pending(op)
    case LeafLock(op, _, _, _, _) => Pending(op)
    case LeafHeld(op, _, _, _, _) => Pending(op)
    case LeafGot(op, _, _, _, _, _) => Pending(op)
    case LeafSib(op, _, _, _, _, _, _) => Pending(op)
    case Unlock(_, next) => PhaseOf(next)
    case Up(_, _, _, _, _, _, _, e) => Decided(e)
    case RootCas(_, _, _, _, _, _, _, e, _) => Decided(e)
    case UpParent(_, _, _, _, _, _, e) => Decided(e)
    case IntWalk(_, _, _, _, _, _, e) => Decided(e)
    case IntLock(_, _, _, _, _, _, e) => Decided(e)
    case IntHeld(_, _, _, _, _, _, e) => Decided(e)
    case IntGot(_, _, _, _, _, _, e, _) => Decided(e)
    case IntSib(_, _, _, _, _, _, e, _, _) => Decided(e)
    case Done(e) => Decided(e)
    case Failed(_, _, _, e) => Decided(e)
  }

  predicate Carries(op: Op, e: Event) {
    match op
    case Search(k) => e.Got? && e.k == k
    case Insert(k, v) => e == Put(k, v)
    case Delete(k) => e == Removed(k)
  }

  /** How one step may move an operation on. */
  ghost predicate Moves(log: seq<Event>, a: Phase, log': seq<Event>, b: Phase) {
    match a
    case Resting => log' == log && b.Pending?
    case Pending(op) =>
      || (log' == log && b == a)
      || (b.Decided? && log' == log + [b.e] && Carries(op, b.e))
    case Decided(_) => log' == log && (b == a || b == Resting)
  }

  /** An operation takes effect in one step, which decides its answer. */
  lemma StepEffect(sh: Shared, t: nat, pc: Pc, sh': Shared, pc': Pc)
    requires SharedOk(sh) && PcOk(sh, pc) && Step(sh, t, pc, sh', pc')
    ensures Moves(sh.log, PhaseOf(pc), sh'.log, PhaseOf(pc'))
  {
    hide SharedOk, PcOk, Invoke, WalkStep, LeafHeldStep, LeafGotStep, LeafSibStep, UpStep, RootCasStep, UpParentStep, IntWalkStep, IntHeldStep, IntGotStep, IntSibStep;
    match pc
    case Idle => InvokePending(sh, pc');
    case Walk(_, _, _, _, _) => WalkMoves(sh, pc, sh', pc');
    case LeafGot(_, _, _, _, _, _) => GotWrites(sh, pc); GotMoves(sh, pc, sh', pc');
    case LeafHeld(_, _, _, _, _) => HeldMoves(sh, pc, sh', pc');
    case LeafSib(_, _, _, _, _, _, _) => SibMoves(sh, pc, sh', pc');
    case Up(_, _, _, _, _, _, _, _) => UpMoves(sh, pc, sh', pc');
    case RootCas(_, _, _, _, _, _, _, _, _) => UpMoves(sh, pc, sh', pc');
    case UpParent(_, _, _, _, _, _, _) => UpMoves(sh, pc, sh', pc');
    case IntWalk(_, _, _, _, _, _, _) => IntMoves(sh, pc, sh', pc');
    case IntHeld(_, _, _, _, _, _, _) => IntMoves(sh, pc, sh', pc');
    case IntGot(_, _, _, _, _, _, _, _) => IntMoves(sh, pc, sh', pc');
    case IntSib(_, _, _, _, _, _, _, _, _) => IntMoves(sh, pc, sh', pc');
    case Unlock(_, next) => UnlockPhase(sh, pc);
    case _ =>
  }

  lemma UnlockPhase(sh: Shared, pc: Pc)
    requires pc.Unlock? && PcOk(sh, pc)
    ensures PhaseOf(pc) == PhaseOf(pc.next) && PhaseOf(pc.next) != Resting
  {
  }

  lemma WalkMoves(sh: Shared, pc: Pc, sh': Shared, pc': Pc)
    requires pc.Walk? && WalkStep(sh, pc, sh', pc')
    ensures Moves(sh.log, Pending(pc.op), sh'.log, PhaseOf(pc'))
  {
    hide Route, FindLive, LeafGet;
  }

  lemma GotMoves(sh: Shared, pc: Pc, sh': Shared, pc': Pc)
    requires pc.LeafGot? && !pc.op.Search? && LeafGotStep(sh, pc, sh', pc')
    ensures Moves(sh.log, Pending(pc.op), sh'.log, PhaseOf(pc'))
  {
    hide LeafPut, LeafRemove, LeafSplitRight, AllLive, FindLive, FindEmpty;
  }

  lemma HeldMoves(sh: Shared, pc: Pc, sh': Shared, pc': Pc)
    requires pc.LeafHeld? && LeafHeldStep(sh, pc, sh', pc')
    ensures Moves(sh.log, Pending(pc.op), sh'.log, PhaseOf(pc'))
  {
  }

  lemma SibMoves(sh: Shared, pc: Pc, sh': Shared, pc': Pc)
    requires pc.LeafSib? && LeafSibStep(sh, pc, sh', pc')
    ensures Moves(sh.log, Pending(pc.op), sh'.log, PhaseOf(pc'))
  {
    hide LeafPut, LeafSplitLeft, LeafSplitKey, LinkAfter, FindLive, FindEmpty;
    var i: nat :| LeafLinks(sh, pc, i, sh');
    assert PhaseOf(pc'.next) == Decided(Put(pc.op.k, pc.op.v));
  }

  lemma UpMoves(sh: Shared, pc: Pc, sh': Shared, pc': Pc)
    requires (pc.Up? && UpStep(sh, pc, sh', pc')) || (pc.RootCas? && RootCasStep(sh, pc, sh', pc')) || (pc.UpParent? && UpParentStep(sh, pc, sh', pc'))
    ensures Moves(sh.log, Decided(pc.result), sh'.log, PhaseOf(pc'))
  {
    hide NewRoot, IsRoot;
  }

  lemma IntMoves(sh: Shared, pc: Pc, sh': Shared, pc': Pc)
    requires || (pc.IntWalk? && IntWalkStep(sh, pc, sh', pc')) || (pc.IntHeld? && IntHeldStep(sh, pc, sh', pc'))
             || (pc.IntGot? && IntGotStep(sh, pc, sh', pc')) || (pc.IntSib? && IntSibStep(sh, pc, sh', pc'))
    ensures Moves(sh.log, Decided(pc.result), sh'.log, PhaseOf(pc'))
  {
    hide Route, InnerPut, InnerSplitLeft, InnerSplitRight, LinkAfter;
  }

  lemma InvokePending(sh: Shared, pc': Pc)
    requires SharedOk(sh) && Invoke(sh, pc')
    ensures PhaseOf(pc').Pending?
  {
    hide SharedOk, PcOk, Invoke;
    InvokePc(sh, pc');
  }

  lemma GotWrites(sh: Shared, pc: Pc)
    requires PcOk(sh, pc) && pc.LeafGot?
    ensures !pc.op.Search?
  {
  }

  /** Between its invocation and its answer an operation takes effect exactly
      once, and a lookup answers what the map holds at that very step. */
  lemma {:induction false} OneEffect(tr: seq<State>, sched: seq<nat>, t: nat, i: nat, j: nat) returns (m: nat)
    requires Run(tr, sched) && i < j < |tr| && t < |tr[i].pcs|
    requires PhaseOf(tr[i].pcs[t]).Pending?
    requires forall n :: i <= n <= j ==> t < |tr[n].pcs| && PhaseOf(tr[n].pcs[t]) != Resting
    requires PhaseOf(tr[j].pcs[t]).Decided?
    ensures i <= m < j && sched[m] == t
    ensures var op, e := PhaseOf(tr[i].pcs[t]).op, PhaseOf(tr[j].pcs[t]).e;
      && Carries(op, e) && tr[m + 1].sh.log == tr[m].sh.log + [e]
      && (e.Got? ==> e.v == KvGet(tr[m].sh.kv, e.k))
    ensures forall n :: i <= n < j && n != m && sched[n] == t ==> tr[n + 1].sh.log == tr[n].sh.log
    decreases j - i
  {
    hide Inv, Init, Step, PhaseOf, Replay, Carries;
    EffectOf(tr, sched, i);
    if PhaseOf(tr[i + 1].pcs[t]).Decided? {
      m := i;
      Settled(tr, sched, t, i + 1, j);
    } else {
      m := OneEffect(tr, sched, t, i + 1, j);
    }
  }

  /** StepEffect along a run, with the answer of a lookup. */
  lemma EffectOf(tr: seq<State>, sched: seq<nat>, i: nat)
    requires Run(tr, sched) && i < |sched|
    ensures sched[i] < |tr[i].pcs| == |tr[i + 1].pcs|
    ensures forall u :: 0 <= u < |tr[i].pcs| && u != sched[i] ==> tr[i + 1].pcs[u] == tr[i].pcs[u]
    ensures var t := sched[i];
      && Moves(tr[i].sh.log, PhaseOf(tr[i].pcs[t]), tr[i + 1].sh.log, PhaseOf(tr[i + 1].pcs[t]))
      && (PhaseOf(tr[i].pcs[t]).Pending? && PhaseOf(tr[i + 1].pcs[t]).Decided? ==>
          var e := PhaseOf(tr[i + 1].pcs[t]).e; e.Got? ==> e.v == KvGet(tr[i].sh.kv, e.k))
  {
    hide Init, Step, PcOk, BLink, Holds, PastOk, IsRoot, Replay, PhaseOf, Carries, LockOk, PrivateOf;
    var t, s, s' := sched[i], tr[i], tr[i + 1];
    RunInv(tr, sched, i);
    RunInv(tr, sched, i + 1);
    assert StepOf(s, t, s');
    StepEffect(s.sh, t, s.pcs[t], s'.sh, s'.pcs[t]);
    if s'.sh.log != s.sh.log {
      var log := s.sh.log;
      assert s'.sh.log[..|log|] == log;
      assert LegalAt(s'.sh.log, |log|);
    }
  }

  lemma {:induction false} Settled(tr: seq<State>, sched: seq<nat>, t: nat, i: nat, j: nat)
    requires Run(tr, sched) && i <= j < |tr| && t < |tr[i].pcs|
    requires forall n :: i <= n <= j ==> t < |tr[n].pcs| && PhaseOf(tr[n].pcs[t]) != Resting
    requires PhaseOf(tr[i].pcs[t]).Decided?
    ensures PhaseOf(tr[j].pcs[t]) == PhaseOf(tr[i].pcs[t])
    ensures forall n :: i <= n < j && sched[n] == t ==> tr[n + 1].sh.log == tr[n].sh.log
    decreases j - i
  {
    hide Init, StepOf, PhaseOf, Carries, Replay;
    if i < j {
      EffectOf(tr, sched, i);
      Settled(tr, sched, t, i + 1, j);
    }
  }

  /** At every point of every run the leaves hold exactly the map that the
      effects so far make, and all lookups so far answered from it. */
  lemma Linearizable(tr: seq<State>, sched: seq<nat>, i: nat)
    requires Run(tr, sched) && i < |tr|
    ensures BLink(tr[i].sh.mem, tr[i].sh.lv)
    ensures Holds(tr[i].sh.mem, tr[i].sh.lv[0], Replay(tr[i].sh.log)) && Legal(tr[i].sh.log)
  {
    RunInv(tr, sched, i);
  }

  /** At every point of every run, any page without a parent entry, other than
      the root, is owed one by some thread; and no page is owed by two. */
  lemma PagesIndexed(tr: seq<State>, sched: seq<nat>, i: nat)
    requires Run(tr, sched) && i < |tr|
    ensures Indexed(tr[i])
    ensures forall t, u :: 0 <= t < u < |tr[i].pcs| ==> OwedBy(tr[i].pcs[t]) == [] || OwedBy(tr[i].pcs[t]) != OwedBy(tr[i].pcs[u])
  {
    RunInv(tr, sched, i);
  }

  /** Whenever no thread owes a separator, the tree is as a single thread would
      have left it: one root, and a parent entry for every other page. */
  lemma SettledComplete(tr: seq<State>, sched: seq<nat>, i: nat)
    requires Run(tr, sched) && i < |tr| && forall t :: 0 <= t < |tr[i].pcs| ==> OwedBy(tr[i].pcs[t]) == []
    ensures var sh := tr[i].sh; |sh.lv| > 0 && Complete(sh.mem, sh.lv, {}) && sh.lv[|sh.lv| - 1] == [sh.root]
  {
    hide Run, Init, BLink, HasParent, PcOk, LockOk, Holds, Legal, Replay, PastOk;
    RunInv(tr, sched, i);
    var sh := tr[i].sh;
    var top := |sh.lv| - 1;
    forall l, c | 0 <= l < |sh.lv| && c in sh.lv[l] ensures Placed(sh, l, c) { NothingOwed(tr[i], l, c); }
    forall l, c | 0 <= l < top && c in sh.lv[l] ensures HasParent(sh.mem, sh.lv[l + 1], c) { assert Placed(sh, l, c); }
    TilesAt(sh.mem, sh.lv, top);
    assert Placed(sh, top, sh.root);
    if |sh.lv[top]| > 1 {
      assert Placed(sh, top, sh.lv[top][1]) by { assert sh.lv[top][1] in sh.lv[top]; }
      OneIndex(sh.mem, sh.lv[top], top, 0, 1);
    }
  }

  lemma NothingOwed(s: State, l: nat, c: Addr)
    requires Indexed(s) && l < |s.sh.lv| && c in s.sh.lv[l] && forall t :: 0 <= t < |s.pcs| ==> OwedBy(s.pcs[t]) == []
    ensures Placed(s.sh, l, c)
  {
    hide Placed;
  }

  // ---------------------------------------------------------- nothing stuck

  ghost predicate CanStep(sh: Shared, t: nat, pc: Pc) {
    exists sh', pc' :: Step(sh, t, pc, sh', pc')
  }

  lemma FreshAddr(taken: set<Addr>) returns (a: Addr)
    ensures a !in taken
  {
    a := 0;
    var rest := taken;
    while rest != {}
      invariant rest <= taken && forall x :: x in taken && x !in rest ==> x < a
      decreases rest
    {
      var x :| x in rest;
      rest := rest - {x};
      if a <= x { a := x + 1; }
    }
  }

  /** The room every store asserts is there: a leaf that is read has an empty
      slot, and an internal page never holds its last slot. */
  lemma LeafGotSteps(sh: Shared, t: nat, pc: Pc)
    requires SharedOk(sh) && PcOk(sh, pc) && pc.LeafGot?
    ensures CanStep(sh, t, pc)
  {
    hide BLink, Holds, Legal, Replay, PastOk, StackOk, RootOk, LeafPut, LeafRemove, LeafSplitRight, AllLive;
    PageAt(sh.mem, sh.lv, 0, pc.at);
    var k, rs := pc.op.k, pc.page.records;
    if pc.op.Delete? {
      var sh' := sh.(mem := sh.mem[pc.at := pc.page.(records := LeafRemove(rs, k))], kv := sh.kv - {k}, log := sh.log + [Removed(k)]);
      assert Step(sh, t, pc, sh', Unlock(pc.at, Done(Removed(k))));
    } else {
      var rs' := LeafPut(rs, k, pc.op.v);
      LeafPutOk(pc.page, k, pc.op.v);
      if AllLive(rs') {
        var s := FreshAddr(sh.taken);
        var sh' := sh.(mem := sh.mem[s := LeafSplitRight(pc.page, rs')], taken := sh.taken + {s});
        assert Step(sh, t, pc, sh', LeafSib(pc.op, pc.at, pc.stack, pc.root, pc.fromCache, pc.page, s));
      } else {
        var sh' := sh.(mem := sh.mem[pc.at := pc.page.(records := rs')], kv := sh.kv[k := pc.op.v], log := sh.log + [Put(k, pc.op.v)]);
        assert Step(sh, t, pc, sh', Unlock(pc.at, Done(Put(k, pc.op.v))));
      }
    }
  }

  lemma IntGotSteps(sh: Shared, t: nat, pc: Pc)
    requires SharedOk(sh) && PcOk(sh, pc) && pc.IntGot?
    ensures CanStep(sh, t, pc)
  {
    hide BLink, Holds, Legal, Replay, PastOk, StackOk, RootOk, InnerPut, InnerSplitRight, StackFits, Placed;
    OwedInside(sh, pc.l, pc.at, pc.sep, pc.child);
    InnerPutStep(sh.mem, sh.lv, sh.kv, pc.l, pc.at, pc.sep, pc.child);
    var es := InnerPut(pc.page.entries, pc.sep, pc.child);
    if |es| < INTERNAL_CARD {
      assert Step(sh, t, pc, sh.(mem := sh.mem[pc.at := pc.page.(entries := es)]), Unlock(pc.at, Done(pc.result)));
    } else {
      var s := FreshAddr(sh.taken);
      var sh' := sh.(mem := sh.mem[s := InnerSplitRight(pc.page, es)], taken := sh.taken + {s});
      assert Step(sh, t, pc, sh', IntSib(pc.l, pc.sep, pc.child, pc.at, pc.stack, pc.root, pc.result, pc.page, s));
    }
  }

  lemma LinkSteps(sh: Shared, t: nat, pc: Pc)
    requires SharedOk(sh) && PcOk(sh, pc) && (pc.LeafSib? || pc.IntSib?)
    ensures CanStep(sh, t, pc)
  {
    hide BLink, Holds, Legal, Replay, PastOk, StackOk, RootOk, LeafPut, InnerPut, LeafSplitRight, LeafSplitLeft, LeafSplitKey, InnerSplitLeft, InnerSplitRight, AllLive, Unlinked, LinkAfter, Owed;
    var l := if pc.LeafSib? then 0 else pc.l;
    var i: nat :| i < |sh.lv[l]| && sh.lv[l][i] == pc.at;
    if pc.LeafSib? {
      var rs := LeafPut(pc.page.records, pc.op.k, pc.op.v);
      LeafPutOk(pc.page, pc.op.k, pc.op.v);
      var sh' := sh.(mem := sh.mem[pc.at := LeafSplitLeft(pc.page, rs, pc.sib)], lv := LinkAfter(sh.lv, 0, i, pc.sib),
                     kv := sh.kv[pc.op.k := pc.op.v], log := sh.log + [Put(pc.op.k, pc.op.v)]);
      assert LeafLinks(sh, pc, i, sh');
      assert Step(sh, t, pc, sh', Unlock(pc.at, Up(0, LeafSplitKey(rs), pc.sib, pc.at, pc.stack, pc.root, pc.fromCache, Put(pc.op.k, pc.op.v))));
    } else {
      var es := InnerPut(pc.page.entries, pc.sep, pc.child);
      var sh' := sh.(mem := sh.mem[pc.at := InnerSplitLeft(pc.page, es, pc.sib)], lv := LinkAfter(sh.lv, pc.l, i, pc.sib));
      assert IntLinks(sh, pc, i, sh');
      assert Step(sh, t, pc, sh', Unlock(pc.at, Up(pc.l, es[INTERNAL_CARD / 2].key, pc.sib, pc.at, pc.stack, pc.root, false, pc.result)));
    }
  }

  lemma UpSteps(sh: Shared, t: nat, pc: Pc)
    requires SharedOk(sh) && PcOk(sh, pc) && (pc.Up? || pc.RootCas? || pc.UpParent?)
    ensures CanStep(sh, t, pc)
  {
    hide BLink, Holds, Legal, Replay, PastOk, StackOk, RootOk, Owed, Pos, Private, NewRoot;
    if pc.Up? {
      if pc.root == pc.at {
        var a := FreshAddr(sh.taken);
        var sh' := sh.(mem := sh.mem[a := NewRoot(pc.l + 1, pc.at, pc.sep, pc.child)], taken := sh.taken + {a});
        assert Step(sh, t, pc, sh', RootCas(pc.l, pc.sep, pc.child, pc.at, pc.stack, pc.root, pc.fromCache, pc.result, a));
      } else {
        assert Step(sh, t, pc, sh, UpParent(pc.l, pc.sep, pc.child, pc.stack, pc.root, pc.fromCache, pc.result));
      }
    } else if pc.RootCas? {
      if sh.root == pc.root {
        assert Step(sh, t, pc, sh.(root := pc.newRoot, lv := sh.lv + [[pc.newRoot]]), Done(pc.result));
      } else {
        assert Step(sh, t, pc, sh, UpParent(pc.l, pc.sep, pc.child, pc.stack, pc.root, pc.fromCache, pc.result));
      }
    } else if pc.l + 1 in pc.stack {
      assert Step(sh, t, pc, sh, IntLock(pc.l + 1, pc.sep, pc.child, pc.stack[pc.l + 1], pc.stack, pc.root, pc.result));
    } else if pc.l == 0 && pc.fromCache {
      assert IsRoot(sh, sh.root, |sh.lv| - 1);
      assert Step(sh, t, pc, sh, IntWalk(1, pc.sep, pc.child, sh.root, pc.stack, sh.root, pc.result));
    } else {
      assert Step(sh, t, pc, sh, Failed(pc.l, pc.sep, pc.child, pc.result));
    }
  }

  lemma WalkSteps(sh: Shared, t: nat, pc: Pc)
    requires SharedOk(sh) && PcOk(sh, pc) && pc.Walk?
    ensures CanStep(sh, t, pc)
  {
    hide BLink, Holds, Legal, Replay, PastOk, Pos, RootOk, FindLive;
    var p, k := sh.mem[pc.at], pc.op.k;
    var stack := pc.stack[p.Level() := pc.at];
    var c := if p.Internal? then Route(p.leftmost, p.entries, k) else 0;
    var v := if p.Leaf? && k < p.highest then LeafGet(p.records, k) else VALUE_NULL;
    var pc' :=
      if p.Leaf? then
        if pc.fromCache && !p.Covers(k) then Walk(pc.op, sh.root, stack, sh.root, false)
        else if !pc.op.Search? then LeafLock(pc.op, pc.at, stack, pc.root, false)
        else if k >= p.highest && p.sibling != NULL then Walk(pc.op, p.sibling, stack, pc.root, pc.fromCache)
        else Done(Got(k, v))
      else if k >= p.highest && p.sibling != NULL then Walk(pc.op, p.sibling, stack, pc.root, pc.fromCache)
      else if !pc.op.Search? && p.level == 1 then LeafLock(pc.op, c, stack, pc.root, false)
      else Walk(pc.op, c, stack, pc.root, pc.fromCache);
    assert FromRoot(sh, pc.op, stack, Walk(pc.op, sh.root, stack, sh.root, false)) by { assert IsRoot(sh, sh.root, |sh.lv| - 1); }
    hide FromRoot;
    assert Step(sh, t, pc, if pc'.Done? then sh.(log := sh.log + [Got(k, v)]) else sh, pc');
  }

  lemma LookSteps(sh: Shared, t: nat, pc: Pc)
    requires SharedOk(sh) && PcOk(sh, pc) && (pc.LeafHeld? || pc.IntHeld? || pc.IntWalk?)
    ensures CanStep(sh, t, pc)
  {
    hide BLink, Holds, Legal, Replay, PastOk, StackOk, RootOk, Owed;
    PageAt(sh.mem, sh.lv, if pc.LeafHeld? then 0 else if pc.IntHeld? then pc.l else sh.mem[pc.at].Level(), pc.at);
    var p, at := sh.mem[pc.at], pc.at;
    if pc.LeafHeld? {
      assert FromRoot(sh, pc.op, pc.stack, Walk(pc.op, sh.root, pc.stack, sh.root, false)) by { assert IsRoot(sh, sh.root, |sh.lv| - 1); }
      hide FromRoot;
      var pc' := if pc.fromCache && !p.Covers(pc.op.k) then Unlock(at, Walk(pc.op, sh.root, pc.stack, sh.root, false))
        else if pc.op.k >= p.highest then Unlock(at, LeafLock(pc.op, p.sibling, pc.stack, pc.root, false))
        else LeafGot(pc.op, at, pc.stack, pc.root, pc.fromCache, p);
      assert Step(sh, t, pc, sh, pc');
    } else if pc.IntHeld? {
      var pc' := if pc.sep >= p.highest then Unlock(at, IntLock(pc.l, pc.sep, pc.child, p.sibling, pc.stack, pc.root, pc.result))
        else IntGot(pc.l, pc.sep, pc.child, at, pc.stack, pc.root, pc.result, p);
      assert Step(sh, t, pc, sh, pc');
    } else {
      var stack, c := pc.stack[p.Level() := at], Route(p.leftmost, p.entries, pc.sep);
      var pc' := if pc.sep >= p.highest && p.sibling != NULL then IntWalk(pc.l, pc.sep, pc.child, p.sibling, stack, pc.root, pc.result)
        else if p.level == pc.l + 1 then IntLock(pc.l, pc.sep, pc.child, c, stack, pc.root, pc.result)
        else IntWalk(pc.l, pc.sep, pc.child, c, stack, pc.root, pc.result);
      assert Step(sh, t, pc, sh, pc');
    }
  }

  /** No reachable thread is stuck on anything but a lock that another page
      write holds, or the assertion that there is a level above to go to. */
  lemma NeverStuck(sh: Shared, t: nat, pc: Pc)
    requires SharedOk(sh) && PcOk(sh, pc) && !pc.Failed?
    requires pc.LeafLock? || pc.IntLock? ==> Free(sh, pc.at)
    ensures CanStep(sh, t, pc)
  {
    hide SharedOk, PcOk, Step, CanStep;
    match pc
    case Idle => IdleSteps(sh, t);
    case Walk(_, _, _, _, _) => WalkSteps(sh, t, pc);
    case LeafLock(_, _, _, _, _) => LockSteps(sh, t, pc);
    case LeafHeld(_, _, _, _, _) => LookSteps(sh, t, pc);
    case LeafGot(_, _, _, _, _, _) => LeafGotSteps(sh, t, pc);
    case LeafSib(_, _, _, _, _, _, _) => LinkSteps(sh, t, pc);
    case Unlock(_, _) => LockSteps(sh, t, pc);
    case Up(_, _, _, _, _, _, _, _) => UpSteps(sh, t, pc);
    case RootCas(_, _, _, _, _, _, _, _, _) => UpSteps(sh, t, pc);
    case UpParent(_, _, _, _, _, _, _) => UpSteps(sh, t, pc);
    case IntWalk(_, _, _, _, _, _, _) => LookSteps(sh, t, pc);
    case IntLock(_, _, _, _, _, _, _) => LockSteps(sh, t, pc);
    case IntHeld(_, _, _, _, _, _, _) => LookSteps(sh, t, pc);
    case IntGot(_, _, _, _, _, _, _, _) => IntGotSteps(sh, t, pc);
    case IntSib(_, _, _, _, _, _, _, _, _) => LinkSteps(sh, t, pc);
    case Done(_) => LockSteps(sh, t, pc);
  }

  lemma IdleSteps(sh: Shared, t: nat)
    requires SharedOk(sh)
    ensures CanStep(sh, t, Idle)
  {
    hide BLink, Holds, Legal, Replay, PastOk;
    assert IsRoot(sh, sh.root, |sh.lv| - 1);
    assert Search(0).k < KEY_MAX;
    assert Step(sh, t, Idle, sh, Walk(Search(0), sh.root, map[], sh.root, false));
  }

  lemma LockSteps(sh: Shared, t: nat, pc: Pc)
    requires pc.LeafLock? || pc.IntLock? ==> Free(sh, pc.at)
    requires pc.LeafLock? || pc.IntLock? || pc.Unlock? || pc.Done?
    ensures CanStep(sh, t, pc)
  {
    if pc.LeafLock? {
      assert Step(sh, t, pc, WithLock(sh, pc.at, t), LeafHeld(pc.op, pc.at, pc.stack, pc.root, pc.fromCache));
    } else if pc.IntLock? {
      assert Step(sh, t, pc, WithLock(sh, pc.at, t), IntHeld(pc.l, pc.sep, pc.child, pc.at, pc.stack, pc.root, pc.result));
    } else if pc.Unlock? {
      assert Step(sh, t, pc, WithoutLock(sh, pc.at), pc.next);
    } else {
      assert Step(sh, t, pc, sh, Idle);
    }
  }
}
