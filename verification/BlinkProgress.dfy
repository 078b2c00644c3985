/** Operations on the concurrent tree come to an end: every step of a thread's own
    brings it closer to its end, no step of the others takes it further away, and
    from every reachable state all can finish. */
module BlinkProgress {
  import opened Pages
  import opened Blink
  import opened PastPages
  import opened BlinkConcurrent

  /** What is left of an operation: the part of it, the levels it may still climb,
      what it does on this one, the levels below, the keys to the right, and the
      accesses to one page. */
  datatype Rank = Rank(part: nat, climb: nat, deed: nat, level: nat, right: nat, access: nat)

  ghost predicate Below(a: Rank, b: Rank) {
    || a.part < b.part
    || (a.part == b.part && (|| a.climb < b.climb
    || (a.climb == b.climb && (|| a.deed < b.deed
    || (a.deed == b.deed && (|| a.level < b.level
    || (a.level == b.level && (|| a.right < b.right
    || (a.right == b.right && a.access < b.access)))))))))
  }

  function LevelOf(mem: Mem, a: Addr): nat { if a in mem then mem[a].Level() else 0 }

  function ToTheRight(mem: Mem, a: Addr): nat { if a in mem && mem[a].lowest < KEY_MAX then KEY_MAX - mem[a].lowest else 0 }

  function ToClimb(mem: Mem, root: Addr, l: nat): nat { if l < LevelOf(mem, root) then LevelOf(mem, root) - l else 0 }

  function RankOf(mem: Mem, pc: Pc): Rank {
    match pc
    case Idle => Rank(0, 0, 0, 0, 0, 0)
    case Done(_) => Rank(1, 0, 0, 0, 0, 0)
    case Failed(_, _, _, _) => Rank(1, 0, 0, 0, 0, 0)
    case Walk(_, at, _, _, fromCache) =>
      if fromCache then Rank(7, 0, 0, 0, 0, 0) else Rank(6, 0, 0, LevelOf(mem, at), ToTheRight(mem, at), 0)
    case LeafLock(_, at, _, _, fromCache) =>
      if fromCache then Rank(7, 0, 0, 0, 0, 2) else Rank(5, 0, 2, 0, ToTheRight(mem, at), 2)
    case LeafHeld(_, at, _, _, fromCache) =>
      if fromCache then Rank(7, 0, 0, 0, 0, 1) else Rank(5, 0, 2, 0, ToTheRight(mem, at), 1)
    case LeafGot(_, _, _, _, _, _) => Rank(5, 0, 1, 0, 0, 0)
    case LeafSib(_, _, _, _, _, _, _) => Rank(5, 0, 0, 0, 0, 0)
    case Unlock(_, next) => var r := RankOf(mem, next); r.(access := r.access + 1)
    case Up(l, _, _, _, _, root, fromCache, _) => Rank(if fromCache then 4 else 2, ToClimb(mem, root, l), 2, 0, 0, 0)
    case RootCas(l, _, _, _, _, root, fromCache, _, _) => Rank(if fromCache then 4 else 2, ToClimb(mem, root, l), 1, 0, 0, 0)
    case UpParent(l, _, _, _, root, fromCache, _) => Rank(if fromCache then 4 else 2, ToClimb(mem, root, l), 0, 0, 0, 0)
    case IntWalk(_, _, _, at, _, _, _) => Rank(3, 0, 0, LevelOf(mem, at), ToTheRight(mem, at), 0)
    case IntLock(l, _, _, at, _, root, _) => Rank(2, ToClimb(mem, root, l), 5, 0, ToTheRight(mem, at), 2)
    case IntHeld(l, _, _, at, _, root, _) => Rank(2, ToClimb(mem, root, l), 5, 0, ToTheRight(mem, at), 1)
    case IntGot(l, _, _, _, _, root, _, _) => Rank(2, ToClimb(mem, root, l), 4, 0, 0, 0)
    case IntSib(l, _, _, _, _, root, _, _, _) => Rank(2, ToClimb(mem, root, l), 3, 0, 0, 0)
  }

  // ------------------------------------------------- own steps and others'

  ghost predicate Grown(sh: Shared, sh': Shared) {
    BLink(sh.mem, sh.lv) && BLink(sh'.mem, sh'.lv) && Extends(sh.mem, sh.lv, sh'.mem, sh'.lv)
  }

  /** A linked page keeps its level and its lower fence. */
  lemma PageSame(sh: Shared, sh': Shared, a: Addr, l: nat)
    requires Grown(sh, sh') && OnLv(sh, a, l)
    ensures LevelOf(sh'.mem, a) == LevelOf(sh.mem, a) && ToTheRight(sh'.mem, a) == ToTheRight(sh.mem, a)
  {
    hide BLink, Extends;
    SameLevel(sh, sh', a, l);
  }

  lemma RootSame(sh: Shared, sh': Shared, root: Addr)
    requires Grown(sh, sh') && RootOk(sh, root)
    ensures LevelOf(sh'.mem, root) == LevelOf(sh.mem, root)
  {
    var l: nat :| OnLv(sh, root, l) && sh.mem[root].lowest == 0;
    hide Grown, OnLv, LevelOf;
    PageSame(sh, sh', root, l);
  }

  lemma WalkRankSame(sh: Shared, sh': Shared, pc: Pc)
    requires Grown(sh, sh') && PcOk(sh, pc) && (pc.Walk? || pc.LeafLock? || pc.LeafHeld? || pc.IntWalk? || pc.IntLock? || pc.IntHeld?)
    ensures RankOf(sh'.mem, pc) == RankOf(sh.mem, pc)
  {
    hide Grown, StackOk, StackFits, Owed, RootOk;
    PageSame(sh, sh', pc.at, if pc.LeafLock? || pc.LeafHeld? then 0 else if pc.IntLock? || pc.IntHeld? then pc.l else sh.mem[pc.at].Level());
    if pc.IntLock? || pc.IntHeld? { RootSame(sh, sh', pc.root); }
  }

  lemma {:induction false} RankSame(sh: Shared, sh': Shared, pc: Pc)
    requires Grown(sh, sh') && PcOk(sh, pc)
    ensures RankOf(sh'.mem, pc) == RankOf(sh.mem, pc)
    decreases pc
  {
    hide Grown, StackOk, StackFits, Owed, RootOk, Private, LeafFull, LeafSplitRight, LeafPut, InnerPut, InnerSplitRight, NewRoot;
    if pc.Walk? || pc.LeafLock? || pc.LeafHeld? || pc.IntWalk? || pc.IntLock? || pc.IntHeld? {
      WalkRankSame(sh, sh', pc);
      hide RankOf;
      return;
    }
    match pc {
      case Unlock(_, next) => RankSame(sh, sh', next);
      case Up(_, _, _, _, _, root, _, _) => RootSame(sh, sh', root);
      case RootCas(_, _, _, _, _, root, _, _, _) => RootSame(sh, sh', root);
      case UpParent(_, _, _, _, root, _, _) => RootSame(sh, sh', root);
      case IntGot(_, _, _, _, _, root, _, _) => RootSame(sh, sh', root);
      case IntSib(_, _, _, _, _, root, _, _, _) => RootSame(sh, sh', root);
      case _ =>
    }
  }

  /** Following a right-link leaves fewer keys to the right. */
  lemma RightLowers(sh: Shared, at: Addr, l: nat, k: Key, stack: Stack)
    requires BLink(sh.mem, sh.lv) && Pos(sh, at, l, k, stack) && k >= sh.mem[at].highest
    ensures ToTheRight(sh.mem, sh.mem[at].sibling) < ToTheRight(sh.mem, at)
    ensures LevelOf(sh.mem, sh.mem[at].sibling) == LevelOf(sh.mem, at)
  {
    hide BLink, StackOk;
    TurnRight(sh.mem, sh.lv, l, at, k);
    PageAt(sh.mem, sh.lv, l, at);
    PageAt(sh.mem, sh.lv, l, sh.mem[at].sibling);
  }

  lemma WalkLowers(sh: Shared, pc: Pc, sh': Shared, pc': Pc)
    requires SharedOk(sh) && PcOk(sh, pc) && pc.Walk? && WalkStep(sh, pc, sh', pc')
    ensures Below(RankOf(sh'.mem, pc'), RankOf(sh.mem, pc))
  {
    hide BLink, Holds, Legal, Replay, PastOk, Pos, RootOk, Route, StackFits, IsRoot, LeafGet;
    WalkFacts(sh, pc);
    var l, k := sh.mem[pc.at].Level(), pc.op.k;
    if !pc.fromCache {
      if k >= sh.mem[pc.at].highest {
        MoveRight(sh, pc.at, l, k, pc.stack);
        RightLowers(sh, pc.at, l, k, pc.stack);
      } else if l > 0 {
        MoveDown(sh, pc.at, l, k, pc.stack);
      }
      hide SharedOk, PcOk;
      OwnWalkLowers(sh, pc, sh', pc');
      hide WalkStep, RankOf, Below;
    }
  }

  /** From the root: right, down, or off the tree. */
  lemma OwnWalkLowers(sh: Shared, pc: Pc, sh': Shared, pc': Pc)
    requires pc.Walk? && WalkStep(sh, pc, sh', pc') && !pc.fromCache
    requires var p, k, l := sh.mem[pc.at], pc.op.k, LevelOf(sh.mem, pc.at);
      if k >= p.highest then
        p.sibling != NULL && LevelOf(sh.mem, p.sibling) == l && ToTheRight(sh.mem, p.sibling) < ToTheRight(sh.mem, pc.at)
      else
        p.Internal? ==> LevelOf(sh.mem, Route(p.leftmost, p.entries, k)) < l
    ensures Below(RankOf(sh'.mem, pc'), RankOf(sh.mem, pc))
  {
    hide Route, LeafGet, LevelOf, ToTheRight;
  }

  lemma LeafHeldLowers(sh: Shared, pc: Pc, sh': Shared, pc': Pc)
    requires SharedOk(sh) && PcOk(sh, pc) && pc.LeafHeld? && LeafHeldStep(sh, pc, sh', pc')
    ensures Below(RankOf(sh'.mem, pc'), RankOf(sh.mem, pc))
  {
    hide BLink, Holds, Legal, Replay, PastOk, Pos, RootOk, StackFits;
    PosBound(sh, pc.at, 0, pc.op.k, pc.stack);
    if pc.op.k >= sh.mem[pc.at].highest { RightLowers(sh, pc.at, 0, pc.op.k, pc.stack); }
  }

  lemma IntHeldLowers(sh: Shared, pc: Pc, sh': Shared, pc': Pc)
    requires SharedOk(sh) && PcOk(sh, pc) && pc.IntHeld? && IntHeldStep(sh, pc, sh', pc')
    ensures Below(RankOf(sh'.mem, pc'), RankOf(sh.mem, pc))
  {
    hide BLink, Holds, Legal, Replay, PastOk, Pos, RootOk, StackFits, Owed;
    PosBound(sh, pc.at, pc.l, pc.sep, pc.stack);
    if pc.sep >= sh.mem[pc.at].highest { RightLowers(sh, pc.at, pc.l, pc.sep, pc.stack); }
  }

  lemma IntWalkLowers(sh: Shared, pc: Pc, sh': Shared, pc': Pc)
    requires SharedOk(sh) && PcOk(sh, pc) && pc.IntWalk? && IntWalkStep(sh, pc, sh', pc')
    ensures Below(RankOf(sh'.mem, pc'), RankOf(sh.mem, pc))
  {
    hide BLink, Holds, Legal, Replay, PastOk, Pos, RootOk, Route, StackFits, Owed;
    var l := sh.mem[pc.at].Level();
    if pc.sep >= sh.mem[pc.at].highest {
      MoveRight(sh, pc.at, l, pc.sep, pc.stack);
      RightLowers(sh, pc.at, l, pc.sep, pc.stack);
    } else {
      MoveDown(sh, pc.at, l, pc.sep, pc.stack);
    }
  }

  /** The next level is one the operation has come down through. */
  lemma UpParentLowers(sh: Shared, pc: Pc, sh': Shared, pc': Pc)
    requires SharedOk(sh) && PcOk(sh, pc) && pc.UpParent? && UpParentStep(sh, pc, sh', pc')
    ensures Below(RankOf(sh'.mem, pc'), RankOf(sh.mem, pc))
  {
    hide BLink, Holds, Legal, Replay, PastOk, RootOk, StackOk, Owed;
  }

  /** Writing pages and locks: what is left shows in what the thread does next. */
  lemma LeafDeedLowers(sh: Shared, t: nat, pc: Pc, sh': Shared, pc': Pc)
    requires Step(sh, t, pc, sh', pc') && (pc.LeafLock? || pc.LeafGot? || pc.LeafSib? || pc.Done? || pc.Unlock?)
    ensures Below(RankOf(sh'.mem, pc'), RankOf(sh'.mem, pc))
  {
    hide LeafSplitRight, LeafSplitLeft, LeafPut, LeafRemove, LinkAfter, ToClimb, ToTheRight;
  }

  lemma IntDeedLowers(sh: Shared, t: nat, pc: Pc, sh': Shared, pc': Pc)
    requires Step(sh, t, pc, sh', pc') && (pc.IntLock? || pc.IntGot? || pc.IntSib? || pc.Up? || pc.RootCas?)
    ensures Below(RankOf(sh'.mem, pc'), RankOf(sh'.mem, pc))
  {
    hide InnerPut, InnerSplitRight, InnerSplitLeft, NewRoot, LinkAfter, ToClimb, ToTheRight;
  }

  /** Every step of its own brings an operation closer to its end. */
  lemma StepLowers(sh: Shared, t: nat, pc: Pc, sh': Shared, pc': Pc)
    requires SharedOk(sh) && PcOk(sh, pc) && LockOk(sh, t, pc) && Step(sh, t, pc, sh', pc') && !pc.Idle?
    ensures Below(RankOf(sh'.mem, pc'), RankOf(sh.mem, pc))
  {
    hide SharedOk, PcOk, LockOk, Below, RankOf, WalkStep, LeafHeldStep, IntHeldStep, IntWalkStep, UpParentStep, LeafGotStep,
         LeafSibStep, IntGotStep, IntSibStep, UpStep, RootCasStep;
    if pc.Walk? { WalkLowers(sh, pc, sh', pc'); }
    else if pc.LeafHeld? { LeafHeldLowers(sh, pc, sh', pc'); }
    else if pc.IntHeld? { IntHeldLowers(sh, pc, sh', pc'); }
    else if pc.IntWalk? { IntWalkLowers(sh, pc, sh', pc'); }
    else if pc.UpParent? { UpParentLowers(sh, pc, sh', pc'); }
    else {
      GrownBy(sh, t, pc, sh', pc');
      RankSame(sh, sh', pc);
      hide Grown;
      if pc.LeafLock? || pc.LeafGot? || pc.LeafSib? || pc.Done? || pc.Unlock? { LeafDeedLowers(sh, t, pc, sh', pc'); }
      else { IntDeedLowers(sh, t, pc, sh', pc'); }
    }
  }

  lemma GrownBy(sh: Shared, t: nat, pc: Pc, sh': Shared, pc': Pc)
    requires SharedOk(sh) && PcOk(sh, pc) && LockOk(sh, t, pc) && Step(sh, t, pc, sh', pc')
    ensures Grown(sh, sh')
  {
    hide PcOk, LockOk, Step, Extends, KeepsIndex, LeavesUnplaced, BLink, Holds, Legal, Replay, PastOk, OwedBy, PrivateOf;
    StepGood(sh, t, pc, sh', pc');
  }

  ghost predicate AtMost(a: Rank, b: Rank) { a == b || Below(a, b) }

  /** In every run: an operation under way is brought closer to its end by every
      step of its thread and never taken further from it by anybody, so that a
      thread takes only finitely many steps in one operation. */
  lemma {:induction false} AlwaysCloser(tr: seq<State>, sched: seq<nat>, t: nat, i: nat, j: nat)
    requires Run(tr, sched) && i <= j < |tr| && t < |tr[i].pcs|
    requires forall k :: i <= k < j ==> t < |tr[k].pcs| && !tr[k].pcs[t].Idle?
    ensures t < |tr[j].pcs| && AtMost(RankOf(tr[j].sh.mem, tr[j].pcs[t]), RankOf(tr[i].sh.mem, tr[i].pcs[t]))
    ensures (exists k :: i <= k < j && sched[k] == t) ==> Below(RankOf(tr[j].sh.mem, tr[j].pcs[t]), RankOf(tr[i].sh.mem, tr[i].pcs[t]))
    decreases j
  {
    hide Inv, RankOf, Below, Init, StepOf;
    if i < j {
      AlwaysCloser(tr, sched, t, i, j - 1);
      RunInv(tr, sched, j - 1);
      OneCloser(tr[j - 1], sched[j - 1], tr[j], t);
      hide Run;
      StillBelow(RankOf(tr[j].sh.mem, tr[j].pcs[t]), RankOf(tr[j - 1].sh.mem, tr[j - 1].pcs[t]), RankOf(tr[i].sh.mem, tr[i].pcs[t]));
    }
  }

  lemma StillBelow(a: Rank, b: Rank, c: Rank)
    ensures Below(a, b) && AtMost(b, c) ==> Below(a, c)
  {
  }

  /** One step of one thread, seen by every thread. */
  lemma OneCloser(s: State, u: nat, s': State, t: nat)
    requires Inv(s) && StepOf(s, u, s') && t < |s.pcs| && !s.pcs[t].Idle?
    ensures t < |s'.pcs|
    ensures var r, r' := RankOf(s.sh.mem, s.pcs[t]), RankOf(s'.sh.mem, s'.pcs[t]); if t == u then Below(r', r) else r' == r
  {
    hide SharedOk, PcOk, LockOk, Step, Indexed, RankOf, OwedBy, PrivateOf, Below, Grown;
    if t == u {
      StepLowers(s.sh, t, s.pcs[t], s'.sh, s'.pcs[t]);
    } else {
      GrownBy(s.sh, u, s.pcs[u], s'.sh, s'.pcs[u]);
      RankSame(s.sh, s'.sh, s.pcs[t]);
    }
  }

  // ------------------------------------------------------- all can finish

  /** Every lock that is taken is held by a thread at one of its pages. */
  ghost predicate LocksHeld(s: State) {
    forall i :: i in s.sh.locks ==> HeldBy(s, i, s.sh.locks[i])
  }

  ghost predicate HeldBy(s: State, i: nat, t: nat) {
    t < |s.pcs| && Holding(s.pcs[t]) != [] && s.sh.lockOf(Holding(s.pcs[t])[0]) == i
  }

  lemma StepLocks(sh: Shared, t: nat, pc: Pc, sh': Shared, pc': Pc)
    requires Step(sh, t, pc, sh', pc') && (pc.Unlock? ==> Holding(pc.next) == [])
    ensures sh'.lockOf == sh.lockOf
    ensures if Holding(pc) == Holding(pc') then sh'.locks == sh.locks
            else if Holding(pc) == [] then Holding(pc') != [] && sh'.locks == sh.locks[sh.lockOf(Holding(pc')[0]) := t]
            else Holding(pc') == [] && sh'.locks == sh.locks - {sh.lockOf(Holding(pc)[0])}
  {
    assert !pc.Failed?;
    hide Step, Holding;
    if pc.Idle? || pc.Walk? || pc.IntWalk? { WalkLocks(sh, t, pc, sh', pc'); }
    else if pc.Up? || pc.RootCas? || pc.UpParent? { UpLocks(sh, t, pc, sh', pc'); }
    else if pc.LeafLock? || pc.LeafHeld? || pc.LeafGot? || pc.LeafSib? { LeafLocks(sh, t, pc, sh', pc'); }
    else { IntLocks(sh, t, pc, sh', pc'); }
  }

  lemma WalkLocks(sh: Shared, t: nat, pc: Pc, sh': Shared, pc': Pc)
    requires Step(sh, t, pc, sh', pc') && (pc.Idle? || pc.Walk? || pc.IntWalk?)
    ensures sh'.lockOf == sh.lockOf && sh'.locks == sh.locks && Holding(pc) == Holding(pc') == []
  {
    hide Route, IsRoot;
  }

  lemma UpLocks(sh: Shared, t: nat, pc: Pc, sh': Shared, pc': Pc)
    requires Step(sh, t, pc, sh', pc') && (pc.Up? || pc.RootCas? || pc.UpParent?)
    ensures sh'.lockOf == sh.lockOf && sh'.locks == sh.locks && Holding(pc) == Holding(pc') == []
  {
    hide NewRoot, IsRoot;
  }

  lemma LeafLocks(sh: Shared, t: nat, pc: Pc, sh': Shared, pc': Pc)
    requires Step(sh, t, pc, sh', pc') && (pc.LeafLock? || pc.LeafHeld? || pc.LeafGot? || pc.LeafSib?)
    ensures sh'.lockOf == sh.lockOf && Holding(pc') == [pc.at]
    ensures if pc.LeafLock? then Holding(pc) == [] && sh'.locks == sh.locks[sh.lockOf(pc.at) := t] else Holding(pc) == [pc.at] && sh'.locks == sh.locks
  {
    hide LeafSplitRight, LeafSplitLeft, LeafPut, LeafRemove, LinkAfter, FromRoot;
  }

  lemma IntLocks(sh: Shared, t: nat, pc: Pc, sh': Shared, pc': Pc)
    requires Step(sh, t, pc, sh', pc') && (pc.Unlock? ==> Holding(pc.next) == [])
    requires pc.IntLock? || pc.IntHeld? || pc.IntGot? || pc.IntSib? || pc.Unlock? || pc.Done?
    ensures sh'.lockOf == sh.lockOf
    ensures if pc.IntLock? then Holding(pc) == [] && Holding(pc') == [pc.at] && sh'.locks == sh.locks[sh.lockOf(pc.at) := t]
            else if pc.Unlock? then Holding(pc) == [pc.at] && Holding(pc') == [] && sh'.locks == sh.locks - {sh.lockOf(pc.at)}
            else Holding(pc') == Holding(pc) && sh'.locks == sh.locks
  {
    hide InnerPut, InnerSplitRight, InnerSplitLeft, LinkAfter;
  }

  lemma LocksStep(s: State, t: nat, s': State)
    requires Inv(s) && StepOf(s, t, s') && LocksHeld(s)
    ensures LocksHeld(s')
  {
    hide SharedOk, LockOk, Step, Indexed, OwedBy, PrivateOf, Holding;
    UnlockNext(s.sh, s.pcs[t]);
    StepLocks(s.sh, t, s.pcs[t], s'.sh, s'.pcs[t]);
    hide PcOk;
    forall i | i in s'.sh.locks ensures HeldBy(s', i, s'.sh.locks[i]) {
      if i in s.sh.locks { assert HeldBy(s, i, s.sh.locks[i]); }
    }
  }

  lemma UnlockNext(sh: Shared, pc: Pc)
    requires PcOk(sh, pc)
    ensures pc.Unlock? ==> Holding(pc.next) == []
  {
  }

  lemma {:induction false} RunLocks(tr: seq<State>, sched: seq<nat>, i: nat)
    requires Run(tr, sched) && i < |tr|
    ensures Inv(tr[i]) && LocksHeld(tr[i])
  {
    hide Inv, LocksHeld, StepOf;
    RunInv(tr, sched, i);
    if i == 0 {
      FirstLocks(tr[0]);
    } else {
      RunLocks(tr, sched, i - 1);
      LocksStep(tr[i - 1], sched[i - 1], tr[i]);
    }
  }

  lemma FirstLocks(s: State)
    requires Init(s)
    ensures LocksHeld(s)
  {
  }

  function Last(tr: seq<State>): State
    requires |tr| > 0
  {
    tr[|tr| - 1]
  }

  function Left(tr: seq<State>, t: nat): Rank
    requires |tr| > 0 && t < |Last(tr).pcs|
  {
    RankOf(Last(tr).sh.mem, Last(tr).pcs[t])
  }

  /** The run goes on in steps of thread t only. */
  ghost predicate GoesOn(tr: seq<State>, sched: seq<nat>, t: nat, tr': seq<State>, sched': seq<nat>) {
    && |tr| > 0 && |tr'| > 0 && Run(tr', sched') && tr <= tr' && sched <= sched' && t < |Last(tr).pcs| == |Last(tr').pcs|
    && forall u :: 0 <= u < |Last(tr).pcs| && u != t ==> Last(tr').pcs[u] == Last(tr).pcs[u]
  }

  lemma OneMore(tr: seq<State>, sched: seq<nat>, t: nat) returns (tr': seq<State>, sched': seq<nat>)
    requires Run(tr, sched) && t < |Last(tr).pcs| && !Last(tr).pcs[t].Failed? && !Last(tr).pcs[t].Idle?
    requires var pc := Last(tr).pcs[t]; pc.LeafLock? || pc.IntLock? ==> Free(Last(tr).sh, pc.at)
    ensures GoesOn(tr, sched, t, tr', sched') && |sched'| == |sched| + 1 && StepOf(Last(tr), t, Last(tr'))
    ensures Below(Left(tr', t), Left(tr, t))
  {
    assert |tr| == |sched| + 1;
    hide Inv, Run, StepOf, RankOf, Below;
    RunInv(tr, sched, |tr| - 1);
    var s' := Takes(Last(tr), t);
    OneCloser(Last(tr), t, s', t);
    Elsewhere(Last(tr), t, s');
    tr', sched' := tr + [s'], sched + [t];
    Longer(tr, sched, t, s');
  }

  lemma Longer(tr: seq<State>, sched: seq<nat>, t: nat, s': State)
    requires Run(tr, sched) && StepOf(Last(tr), t, s')
    ensures Run(tr + [s'], sched + [t])
  {
    hide Init, StepOf;
    var tr', sched' := tr + [s'], sched + [t];
    forall i | 0 <= i < |sched'| ensures StepOf(tr'[i], sched'[i], tr'[i + 1]) {
      if i < |sched| { assert tr'[i] == tr[i] && tr'[i + 1] == tr[i + 1] && sched'[i] == sched[i]; }
    }
  }

  lemma Takes(s: State, t: nat) returns (s': State)
    requires Inv(s) && t < |s.pcs| && !s.pcs[t].Failed?
    requires s.pcs[t].LeafLock? || s.pcs[t].IntLock? ==> Free(s.sh, s.pcs[t].at)
    ensures StepOf(s, t, s')
  {
    hide Step, SharedOk, PcOk, LockOk, Indexed, OwedBy, PrivateOf;
    NeverStuck(s.sh, t, s.pcs[t]);
    var sh', pc' :| Step(s.sh, t, s.pcs[t], sh', pc');
    s' := State(sh', s.pcs[t := pc']);
  }

  lemma Elsewhere(s: State, t: nat, s': State)
    requires StepOf(s, t, s')
    ensures t < |s.pcs| == |s'.pcs| && forall u :: 0 <= u < |s.pcs| && u != t ==> s'.pcs[u] == s.pcs[u]
  {
  }

  /** A thread that holds a lock gives it back without waiting for anybody. */
  lemma {:induction false} GivesBack(tr: seq<State>, sched: seq<nat>, t: nat) returns (tr': seq<State>, sched': seq<nat>)
    requires Run(tr, sched) && t < |Last(tr).pcs|
    ensures GoesOn(tr, sched, t, tr', sched') && Holding(Last(tr').pcs[t]) == []
    decreases Left(tr, t).part, Left(tr, t).climb, Left(tr, t).deed, Left(tr, t).level, Left(tr, t).right, Left(tr, t).access
  {
    hide RankOf, StepOf, Init;
    tr', sched' := tr, sched;
    if Holding(Last(tr).pcs[t]) != [] {
      var tr1, sched1 := OneMore(tr, sched, t);
      hide Run;
      tr', sched' := GivesBack(tr1, sched1, t);
    }
  }

  /** A reader. */
  predicate Reading(pc: Pc) { (pc.Walk? && pc.op.Search?) || pc.Done? }

  lemma StillReading(sh: Shared, t: nat, pc: Pc, sh': Shared, pc': Pc)
    requires Step(sh, t, pc, sh', pc') && PcOk(sh, pc) && Reading(pc)
    ensures Reading(pc') || pc'.Idle?
  {
    hide Route, IsRoot;
  }

  ghost predicate NoLocks(s: State, t: nat) { forall u :: 0 <= u < |s.pcs| && u != t ==> Holding(s.pcs[u]) == [] }

  /** A reader, or any thread while no other holds a lock, comes to its end alone. */
  lemma {:induction false} Finishes(tr: seq<State>, sched: seq<nat>, t: nat) returns (tr': seq<State>, sched': seq<nat>)
    requires Run(tr, sched) && t < |Last(tr).pcs| && (Reading(Last(tr).pcs[t]) || NoLocks(Last(tr), t))
    ensures GoesOn(tr, sched, t, tr', sched') && (Last(tr').pcs[t].Idle? || Last(tr').pcs[t].Failed?)
    decreases Left(tr, t).part, Left(tr, t).climb, Left(tr, t).deed, Left(tr, t).level, Left(tr, t).right, Left(tr, t).access
  {
    assert |tr| > 0;
    hide RankOf, Run, Holding, NoLocks, Reading;
    tr', sched' := tr, sched;
    if !Last(tr).pcs[t].Idle? && !Last(tr).pcs[t].Failed? {
      var tr1, sched1 := OneUndisturbed(tr, sched, t);
      if Last(tr1).pcs[t].Idle? {
        tr', sched' := tr1, sched1;
      } else {
        tr', sched' := Finishes(tr1, sched1, t);
      }
    }
  }

  lemma OneUndisturbed(tr: seq<State>, sched: seq<nat>, t: nat) returns (tr': seq<State>, sched': seq<nat>)
    requires Run(tr, sched) && t < |Last(tr).pcs| && (Reading(Last(tr).pcs[t]) || NoLocks(Last(tr), t))
    requires !Last(tr).pcs[t].Idle? && !Last(tr).pcs[t].Failed?
    ensures GoesOn(tr, sched, t, tr', sched') && Below(Left(tr', t), Left(tr, t))
    ensures Reading(Last(tr').pcs[t]) || Last(tr').pcs[t].Idle? || NoLocks(Last(tr'), t)
  {
    assert |tr| > 0;
    hide RankOf, Below, Inv, Run, StepOf, Holding, Reading, LocksHeld;
    var s := Last(tr);
    RunLocks(tr, sched, |tr| - 1);
    LockFree(s, t);
    tr', sched' := OneMore(tr, sched, t);
    if Reading(s.pcs[t]) { StillReadingThen(s, t, Last(tr')); }
  }

  lemma StillReadingThen(s: State, t: nat, s': State)
    requires Inv(s) && StepOf(s, t, s') && Reading(s.pcs[t])
    ensures Reading(s'.pcs[t]) || s'.pcs[t].Idle?
  {
    hide Step, SharedOk, PcOk, LockOk, Indexed, OwedBy, PrivateOf, Reading;
    StillReading(s.sh, t, s.pcs[t], s'.sh, s'.pcs[t]);
  }

  lemma LockFree(s: State, t: nat)
    requires LocksHeld(s) && t < |s.pcs| && (Reading(s.pcs[t]) || NoLocks(s, t))
    ensures var pc := s.pcs[t]; pc.LeafLock? || pc.IntLock? ==> Free(s.sh, pc.at)
  {
    var pc := s.pcs[t];
    if pc.LeafLock? || pc.IntLock? { HeldAt(s, s.sh.lockOf(pc.at)); }
  }

  lemma HeldAt(s: State, i: nat)
    requires LocksHeld(s)
    ensures i in s.sh.locks ==> HeldBy(s, i, s.sh.locks[i])
  {
  }

  lemma {:induction false} AllGiveBack(tr: seq<State>, sched: seq<nat>, n: nat) returns (tr': seq<State>, sched': seq<nat>)
    requires Run(tr, sched) && n <= |Last(tr).pcs|
    ensures Run(tr', sched') && tr <= tr' && sched <= sched' && |Last(tr').pcs| == |Last(tr).pcs|
    ensures forall u :: 0 <= u < n ==> Holding(Last(tr').pcs[u]) == []
  {
    hide Init, StepOf;
    tr', sched' := tr, sched;
    if n > 0 {
      var tr1, sched1 := AllGiveBack(tr, sched, n - 1);
      hide Run;
      tr', sched' := GivesBack(tr1, sched1, n - 1);
    }
  }

  lemma {:induction false} FirstFinish(tr: seq<State>, sched: seq<nat>, n: nat) returns (tr': seq<State>, sched': seq<nat>)
    requires Run(tr, sched) && n <= |Last(tr).pcs| && forall u :: 0 <= u < |Last(tr).pcs| ==> Holding(Last(tr).pcs[u]) == []
    ensures Run(tr', sched') && tr <= tr' && sched <= sched' && |Last(tr').pcs| == |Last(tr).pcs|
    ensures forall u :: 0 <= u < |Last(tr').pcs| ==> Holding(Last(tr').pcs[u]) == []
    ensures forall u :: 0 <= u < n ==> Last(tr').pcs[u].Idle? || Last(tr').pcs[u].Failed?
  {
    hide Init, StepOf;
    tr', sched' := tr, sched;
    if n > 0 {
      var tr1, sched1 := FirstFinish(tr, sched, n - 1);
      hide Run;
      tr', sched' := Finishes(tr1, sched1, n - 1);
    }
  }

  /** No lock is lost and no traversal led astray: every run can go on until every
      operation has ended, or met the assertion. */
  lemma AllFinish(tr: seq<State>, sched: seq<nat>) returns (tr': seq<State>, sched': seq<nat>)
    requires Run(tr, sched)
    ensures Run(tr', sched') && tr <= tr' && sched <= sched' && |Last(tr').pcs| == |Last(tr).pcs|
    ensures forall t :: 0 <= t < |Last(tr').pcs| ==> Last(tr').pcs[t].Idle? || Last(tr').pcs[t].Failed?
  {
    hide Init, StepOf;
    var n := |Last(tr).pcs|;
    tr', sched' := AllGiveBack(tr, sched, n);
    hide Run;
    tr', sched' := FirstFinish(tr', sched', n);
  }
}
