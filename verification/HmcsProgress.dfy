/** The hierarchical MCS lock is never stuck at either level, and a trylock that is
    alone gets it. */
module HmcsProgress {
  import opened Options
  import opened Sums
  import opened Hmcs

  /** What is left to do until a thread is idle again. */
  function Rank(pc: Pc): nat {
    match pc
    case Idle => 0
    case Xchg(k, _) => if k.Root? then 28 else 40
    case Try(k, _) => if k.Root? then 28 else 40
    case Link(k, _, _) => if k.Root? then 26 else 38
    case Wait(k, _) => if k.Root? then 24 else 36
    case Head(_, _) => 30
    case Set(_) => 22
    case Crit(_) => 20
    case Pass(_, _, _) => 6
    case Rel(k, _) => if k.Root? then 18 else 10
    case Cas(k, _) => if k.Root? then 17 else 9
    case Spin(k, _) => if k.Root? then 16 else 8
    case Give(k, _) => if k.Root? then 15 else 7
  }

  function Ranks(s: State): seq<nat> { seq(|s.pcs|, t requires 0 <= t < |s.pcs| => Rank(s.pcs[t])) }

  function Left(s: State): nat { Total(Ranks(s)) }

  ghost predicate Closer(s: State, t: nat, s': State)
    requires Shape(s)
  {
    Step(s, t, s') && t < |s'.pcs| && Rank(s'.pcs[t]) < Rank(s.pcs[t])
  }

  /** Who found a successor that had not linked itself yet still has one. */
  ghost predicate Followed(s: State)
    requires Shape(s)
  {
    forall t :: 0 <= t < |s.pcs| && s.pcs[t].Spin? ==> IsLock(s, s.pcs[t].k) && |Queue(s, s.pcs[t].k)| > 1
  }

  // ------------------------------------------------------- what a step changes

  lemma StepElsewhere(s: State, t: nat, s': State)
    requires Shape(s) && Step(s, t, s')
    ensures Shape(s') && |s'.pcs| == |s.pcs| && |s'.lq| == |s.lq|
    ensures forall u :: 0 <= u < |s.pcs| && u != t ==> s'.pcs[u] == s.pcs[u]
  {
  }

  /** Only the head of a queue leaves it. */
  lemma QueueShrinks(s: State, t: nat, s': State, k: Lock)
    requires Inv(s) && Step(s, t, s') && IsLock(s, k) && Shape(s') && |s'.lq| == |s.lq|
    ensures IsLock(s', k) && (|Queue(s', k)| < |Queue(s, k)| ==> Driver(s, Queue(s, k)[0]) == Some(t))
  {
    Mine(s, t);
    hide QueueOk, CohortOk, Inv;
    var pc := s.pcs[t];
    if pc.Xchg? || pc.Try? || pc.Link? || pc.Wait? || pc.Head? || pc.Set? || pc.Idle? { GrowsOnly(s, t, s', k); }
  }

  lemma GrowsOnly(s: State, t: nat, s': State, k: Lock)
    requires Shape(s) && Step(s, t, s') && IsLock(s, k) && Shape(s') && |s'.lq| == |s.lq|
    requires var pc := s.pcs[t]; pc.Xchg? || pc.Try? || pc.Link? || pc.Wait? || pc.Head? || pc.Set? || pc.Idle?
    ensures IsLock(s', k) && |Queue(s', k)| >= |Queue(s, k)|
  {
  }

  lemma FollowedStep(s: State, t: nat, s': State)
    requires Inv(s) && Inv(s') && Shape(s) && Shape(s') && Step(s, t, s') && Followed(s)
    ensures Followed(s')
  {
    hide QueueOk, CohortOk, ThreadOk;
    StepElsewhere(s, t, s');
    forall u | 0 <= u < |s'.pcs| && s'.pcs[u].Spin? ensures IsLock(s', s'.pcs[u].k) && |Queue(s', s'.pcs[u].k)| > 1 {
      if u == t { SpinsBehind(s, t, s'); }
      else {
        var k := s.pcs[u].k;
        QueueShrinks(s, t, s', k);
        DrivesHead(s, u);
      }
    }
  }

  /** A thread that releases acts for the head of the queue. */
  lemma DrivesHead(s: State, u: nat)
    requires Inv(s) && u < |s.pcs| && s.pcs[u].Spin?
    ensures IsLock(s, s.pcs[u].k) && Queue(s, s.pcs[u].k) != [] && Driver(s, Queue(s, s.pcs[u].k)[0]) == Some(u)
  {
    Mine(s, u);
    hide QueueOk, CohortOk;
  }

  lemma SpinsBehind(s: State, t: nat, s': State)
    requires Inv(s) && Shape(s') && Step(s, t, s') && t < |s'.pcs| && s'.pcs[t].Spin?
    ensures IsLock(s', s'.pcs[t].k) && |Queue(s', s'.pcs[t].k)| > 1
  {
    Mine(s, t);
    var k := s.pcs[t].k;
    if k.Cohort? { CohortQueue(s, k.c); }
    hide CohortOk;
  }

  // ------------------------------------------------------------ who goes on

  /** A step of the one kind this thread can take. */
  lemma TakesStep(s: State, t: nat, s': State)
    requires Shape(s) && t < |s.pcs| && t < |s'.pcs| && Rank(s'.pcs[t]) < Rank(s.pcs[t])
    requires match s.pcs[t]
      case Idle => false
      case Xchg(_, _) => DoXchg(s, t, s')
      case Try(_, _) => DoTry(s, t, s')
      case Link(_, _, _) => DoLink(s, t, s')
      case Wait(_, _) => DoWait(s, t, s')
      case Head(_, _) => DoHead(s, t, s')
      case Set(_) => DoSet(s, t, s')
      case Crit(_) => DoUnlock(s, t, s')
      case Pass(_, _, _) => DoPass(s, t, s')
      case Rel(_, _) => DoRel(s, t, s')
      case Cas(_, _) => DoCas(s, t, s')
      case Spin(_, _) => DoSpin(s, t, s')
      case Give(_, _) => DoGive(s, t, s')
    ensures Closer(s, t, s')
  {
    hide DoXchg, DoTry, DoLink, DoWait, DoHead, DoSet, DoUnlock, DoPass, DoRel, DoCas, DoSpin, DoGive;
  }

  /** Nothing holds the thread up. */
  ghost predicate Free(s: State, t: nat)
    requires Shape(s) && t < |s.pcs|
  {
    var pc := s.pcs[t];
    && !pc.Idle?
    && (pc.Wait? ==> IsRef(s, pc.r) && Get(s, pc.r).status != Ungranted(pc.k))
    && (pc.Spin? ==> IsRef(s, pc.r) && Get(s, pc.r).next != None)
  }

  lemma FreeGoesOn(s: State, t: nat) returns (s': State)
    requires Inv(s) && Shape(s) && t < |s.pcs| && Free(s, t)
    ensures Closer(s, t, s')
  {
    hide QueueOk, CohortOk, Closer;
    Mine(s, t);
    match s.pcs[t] {
      case Xchg(_, _) => s' := JoinerGoesOn(s, t);
      case Try(_, _) => s' := JoinerGoesOn(s, t);
      case Link(_, _, _) => s' := LinkerGoesOn(s, t);
      case Wait(_, _) => s' := WaiterGoesOn(s, t);
      case Head(_, _) => s' := InsiderGoesOn(s, t);
      case Set(_) => s' := InsiderGoesOn(s, t);
      case Crit(_) => s' := InsiderGoesOn(s, t);
      case Pass(_, _, _) => s' := PasserGoesOn(s, t);
      case Give(_, _) => s' := GiverGoesOn(s, t);
      case _ => s' := ReleaserGoesOn(s, t);
    }
  }

  lemma JoinerGoesOn(s: State, t: nat) returns (s': State)
    requires Shape(s) && t < |s.pcs| && ThreadOk(s, t) && (s.pcs[t].Xchg? || s.pcs[t].Try?)
    ensures Closer(s, t, s')
  {
    var k, r := s.pcs[t].k, s.pcs[t].r;
    assert IsLock(s, k) && (k.Cohort? ==> r.Thr?);
    hide ThreadOk, Closer;
    if s.pcs[t].Xchg? {
      s' := SetQueue(Moved(s, t, if TailOf(s, k) == None then First(k, r, false) else Link(k, r, TailOf(s, k).value)), k, Some(r), Queue(s, k) + [r]);
    } else if TailOf(s, k) == None {
      s' := SetQueue(Moved(s, t, First(k, r, true)), k, Some(r), Queue(s, k) + [r]);
    } else {
      s' := Moved(s, t, After(k, r, t));
    }
    TakesStep(s, t, s');
  }

  lemma LinkerGoesOn(s: State, t: nat) returns (s': State)
    requires Inv(s) && Shape(s) && t < |s.pcs| && s.pcs[t].Link?
    ensures Closer(s, t, s')
  {
    PrevIsRef(s, t);
    hide Inv, Closer;
    var pc := s.pcs[t];
    s' := Put(Moved(s, t, Wait(pc.k, pc.r)), pc.prev, Get(s, pc.prev).(next := Some(pc.r)));
    TakesStep(s, t, s');
  }

  lemma WaiterGoesOn(s: State, t: nat) returns (s': State)
    requires Shape(s) && t < |s.pcs| && ThreadOk(s, t) && s.pcs[t].Wait? && Free(s, t)
    ensures Closer(s, t, s')
  {
    var k, r := s.pcs[t].k, s.pcs[t].r;
    assert IsLock(s, k);
    hide ThreadOk, Closer;
    s' := if k.Root? then Entered(Moved(s, t, Crit(r)), r)
          else if Get(s, r).status < ACQUIRE_PARENT then Moved(s, t, Crit(Coh(k.c))).(served := s.served[k.c := s.served[k.c] + 1])
          else Moved(s, t, Head(k.c, false));
    TakesStep(s, t, s');
  }

  lemma InsiderGoesOn(s: State, t: nat) returns (s': State)
    requires Shape(s) && t < |s.pcs| && ThreadOk(s, t) && (s.pcs[t].Head? || s.pcs[t].Set? || s.pcs[t].Crit?)
    ensures Closer(s, t, s')
  {
    var pc := s.pcs[t];
    assert pc.Head? ==> pc.c < |s.coh|;
    assert pc.Set? ==> IsRef(s, pc.r);
    hide ThreadOk, Closer;
    if pc.Head? {
      s' := Moved(s, t, if pc.trying then Try(Root, Coh(pc.c)) else Xchg(Root, Coh(pc.c)))
              .(thr := s.thr[t := s.thr[t].(status := COHORT_START)], coh := s.coh[pc.c := Node(None, LOCKED)]);
    } else if pc.Set? {
      s' := Entered(Put(Moved(s, t, Crit(pc.r)), pc.r, Get(s, pc.r).(status := UNLOCKED)), pc.r);
    } else {
      var d := s.thr[t];
      s' := Moved(s, t, if pc.r.Thr? || d.status == RELEASE_THRESHOLD || d.next == None then Rel(Root, pc.r) else Pass(pc.r.c, d.next.value, d.status + 1));
    }
    TakesStep(s, t, s');
  }

  lemma PasserGoesOn(s: State, t: nat) returns (s': State)
    requires Inv(s) && Shape(s) && t < |s.pcs| && s.pcs[t].Pass?
    ensures Closer(s, t, s')
  {
    var c, x := s.pcs[t].c, s.pcs[t].succ;
    PassesTo(s, t);
    hide Inv, Closer;
    s' := Put(Moved(s, t, Idle), x, Get(s, x).(status := s.pcs[t].v)).(lq := s.lq[c := s.lq[c][1..]]);
    TakesStep(s, t, s');
  }

  lemma PassesTo(s: State, t: nat)
    requires Inv(s) && t < |s.pcs| && s.pcs[t].Pass?
    ensures s.pcs[t].c < |s.lq| && s.lq[s.pcs[t].c] != [] && IsRef(s, s.pcs[t].succ)
  {
    Mine(s, t);
    CohortQueue(s, s.pcs[t].c);
  }

  lemma GiverGoesOn(s: State, t: nat) returns (s': State)
    requires Inv(s) && Shape(s) && t < |s.pcs| && s.pcs[t].Give?
    ensures Closer(s, t, s')
  {
    var k, r := s.pcs[t].k, s.pcs[t].r;
    GivesTo(s, t);
    hide Inv, Closer;
    var x := Get(s, r).next.value;
    s' := Put(SetQueue(Moved(s, t, After(k, r, t)), k, TailOf(s, k), Queue(s, k)[1..]), x, Get(s, x).(status := Granting(k)));
    TakesStep(s, t, s');
  }

  lemma GivesTo(s: State, t: nat)
    requires Inv(s) && t < |s.pcs| && s.pcs[t].Give?
    ensures var k, r := s.pcs[t].k, s.pcs[t].r;
      && IsLock(s, k) && IsRef(s, r) && Queue(s, k) != [] && Get(s, r).next.Some? && IsRef(s, Get(s, r).next.value)
      && (k.Cohort? ==> r.Thr?)
  {
    Mine(s, t);
    var k := s.pcs[t].k;
    if k.Cohort? { CohortQueue(s, k.c); }
    var q := Queue(s, k);
    if |q| > 1 { assert Linked(s, k, q[0], q[1]); }
  }

  lemma ReleaserGoesOn(s: State, t: nat) returns (s': State)
    requires Shape(s) && t < |s.pcs| && ThreadOk(s, t) && Free(s, t) && (s.pcs[t].Rel? || s.pcs[t].Cas? || s.pcs[t].Spin?)
    ensures Closer(s, t, s')
  {
    var pc := s.pcs[t];
    assert IsLock(s, pc.k) && IsRef(s, pc.r) && (pc.k.Cohort? ==> pc.r.Thr?);
    hide ThreadOk, Closer;
    if pc.Rel? { s' := Moved(s, t, if Get(s, pc.r).next == None then Cas(pc.k, pc.r) else Give(pc.k, pc.r)); }
    else if pc.Cas? {
      s' := if TailOf(s, pc.k) == Some(pc.r) then SetQueue(Moved(s, t, After(pc.k, pc.r, t)), pc.k, None, []) else Moved(s, t, Spin(pc.k, pc.r));
    } else {
      s' := Moved(s, t, Give(pc.k, pc.r));
    }
    TakesStep(s, t, s');
  }

  /** The predecessor that a thread is to link itself to stands before it. */
  lemma PrevIsRef(s: State, t: nat)
    requires Inv(s) && t < |s.pcs| && s.pcs[t].Link?
    ensures IsRef(s, s.pcs[t].prev)
  {
    Mine(s, t);
    var k, r := s.pcs[t].k, s.pcs[t].r;
    if k.Cohort? { CohortQueue(s, k.c); }
    StandsIn(s, t, k, r);
    var q := Queue(s, k);
    var i :| 0 <= i < |q| && q[i] == r;
    assert Linked(s, k, q[i - 1], q[i]);
  }

  /** A thread on its way through a queue has its node there. */
  lemma StandsIn(s: State, t: nat, k: Lock, r: Ref)
    requires Inv(s) && t < |s.pcs| && s.pcs[t].Link? && k == s.pcs[t].k && r == s.pcs[t].r
    ensures IsLock(s, k) && r in Queue(s, k)
  {
    Mine(s, t);
    if k.Root? { InRoot(s, t); }
    hide QueueOk, CohortOk;
  }

  /** A releaser goes on, or the successor that is to link itself does. */
  lemma SpinnerGoesOn(s: State, t: nat) returns (u: nat)
    requires Inv(s) && Shape(s) && Followed(s) && t < |s.pcs| && s.pcs[t].Spin?
    ensures u < |s.pcs| && Free(s, u)
  {
    Mine(s, t);
    var k, r := s.pcs[t].k, s.pcs[t].r;
    if k.Cohort? { CohortQueue(s, k.c); }
    var q := Queue(s, k);
    assert q[0] == r;
    u := t;
    if Get(s, r).next == None {
      assert Linked(s, k, q[0], q[1]);
      u := Driver(s, q[1]).value;
    }
  }

  /** Whoever stands at the front of the root queue. */
  lemma FrontGoesOn(s: State, t: nat) returns (u: nat)
    requires Inv(s) && Shape(s) && Followed(s) && t < |s.pcs| && s.gq != [] && RootRef(s.pcs[t]) == Some(s.gq[0])
    ensures u < |s.pcs| && Free(s, u)
  {
    hide QueueOk, CohortOk;
    Mine(s, t);
    u := t;
    if s.pcs[t].Spin? { u := SpinnerGoesOn(s, t); }
  }

  lemma RootGoesOn(s: State) returns (u: nat)
    requires Inv(s) && Shape(s) && Followed(s) && s.gq != []
    ensures u < |s.pcs| && Free(s, u)
  {
    var h := s.gq[0];
    RootRefs(s);
    assert h in s.gq;
    if h.Thr? {
      Mine(s, h.t);
      hide QueueOk, CohortOk, DataOk;
      u := FrontGoesOn(s, h.t);
    } else {
      CohortQueue(s, h.c);
      CohortInRoot(s, h.c);
      u := Driver(s, h).value;
      CohortRefs(s, h.c);
      hide QueueOk, CohortOk, ThreadOk;
      if RootRef(s.pcs[u]) == Some(h) { u := FrontGoesOn(s, u); }
    }
  }

  lemma CohortGoesOn(s: State, c: nat) returns (u: nat)
    requires Inv(s) && Shape(s) && Followed(s) && c < |s.lq| && s.lq[c] != []
    ensures u < |s.pcs| && Free(s, u)
  {
    CohortQueue(s, c);
    CohortRefs(s, c);
    assert s.lq[c][0] in s.lq[c];
    u := s.lq[c][0].t;
    Mine(s, u);
    hide QueueOk, CohortOk;
    if s.pcs[u].Spin? { u := SpinnerGoesOn(s, u); }
    else if !Free(s, u) { u := RootGoesOn(s); }
  }

  /** While any thread is at the lock, some thread can go on. */
  lemma SomeGoesOn(s: State, t: nat) returns (u: nat, s': State)
    requires Inv(s) && Shape(s) && Followed(s) && t < |s.pcs| && !s.pcs[t].Idle?
    ensures u < |s.pcs| && Closer(s, u, s')
  {
    Mine(s, t);
    hide QueueOk, CohortOk, Closer;
    u := t;
    if !Free(s, t) {
      if s.pcs[t].Spin? { u := SpinnerGoesOn(s, t); }
      else if s.pcs[t].k.Root? { u := RootGoesOn(s); }
      else { u := CohortGoesOn(s, s.pcs[t].k.c); }
    }
    s' := FreeGoesOn(s, u);
  }

  // ------------------------------------------------------------- never stuck

  ghost predicate AllIdle(s: State) { forall t :: 0 <= t < |s.pcs| ==> s.pcs[t].Idle? }

  ghost predicate Steps(tr: seq<State>, sched: seq<nat>) {
    && |tr| == |sched| + 1 && (forall i :: 0 <= i < |tr| ==> Shape(tr[i]))
    && forall i :: 0 <= i < |sched| ==> Step(tr[i], sched[i], tr[i + 1])
  }

  lemma {:induction false} Drains(s: State) returns (tr: seq<State>, sched: seq<nat>)
    requires Inv(s) && Shape(s) && Followed(s)
    ensures Steps(tr, sched) && tr[0] == s && AllIdle(tr[|tr| - 1])
    decreases Left(s)
  {
    hide Inv, Step, Followed, Rank;
    if AllIdle(s) {
      tr, sched := [s], [];
    } else {
      var t :| 0 <= t < |s.pcs| && !s.pcs[t].Idle?;
      var u, s' := SomeGoesOn(s, t);
      StepInv(s, u, s');
      StepElsewhere(s, u, s');
      FollowedStep(s, u, s');
      LessLeft(Ranks(s), Ranks(s'), u);
      var tr', sched' := Drains(s');
      tr, sched := [s] + tr', [u] + sched';
      forall i | 0 <= i < |sched| ensures Step(tr[i], sched[i], tr[i + 1]) {
        if i > 0 { assert Step(tr'[i - 1], sched'[i - 1], tr'[i]); }
      }
    }
  }

  /** On the way to the lock with no way back. */
  predicate Entering(pc: Pc) { pc.Xchg? || pc.Link? || pc.Wait? || pc.Set? || (pc.Head? && !pc.trying) }

  ghost predicate GotIn(tr: seq<State>, t: nat) {
    exists i :: 0 <= i < |tr| && t < |tr[i].pcs| && tr[i].pcs[t].Crit?
  }

  lemma StepEnters(s: State, t: nat, s': State, u: nat)
    requires Shape(s) && Step(s, t, s') && u < |s.pcs|
    ensures u < |s'.pcs| && (Entering(s.pcs[u]) ==> Entering(s'.pcs[u]) || s'.pcs[u].Crit?)
  {
    StepElsewhere(s, t, s');
    hide DoPass, DoRel, DoCas, DoSpin, DoGive, DoUnlock, Start;
  }

  lemma {:induction false} OnlyThroughSection(tr: seq<State>, sched: seq<nat>, t: nat, n: nat)
    requires Steps(tr, sched) && n < |tr| && t < |tr[0].pcs| && Entering(tr[0].pcs[t])
    ensures t < |tr[n].pcs| && (Entering(tr[n].pcs[t]) || GotIn(tr, t))
  {
    if n > 0 {
      OnlyThroughSection(tr, sched, t, n - 1);
      assert Step(tr[n - 1], sched[n - 1], tr[n]);
      StepEnters(tr[n - 1], sched[n - 1], tr[n], t);
      hide Step;
    }
  }

  lemma {:induction false} RunFollowed(tr: seq<State>, sched: seq<nat>, i: nat)
    requires Run(tr, sched) && i < |tr|
    ensures Inv(tr[i]) && Followed(tr[i])
  {
    hide Inv, Step;
    RunInv(tr, sched, i);
    if i > 0 {
      RunFollowed(tr, sched, i - 1);
      FollowedStep(tr[i - 1], sched[i - 1], tr[i]);
    }
  }

  /** The lock is never stuck: from every state of every run, all threads that are
      at it can get it and all can become idle. */
  lemma NeverStuck(tr: seq<State>, sched: seq<nat>, i: nat) returns (more: seq<State>, sched': seq<nat>)
    requires Run(tr, sched) && i < |tr|
    ensures Steps(more, sched') && more[0] == tr[i] && AllIdle(more[|more| - 1])
    ensures forall t :: 0 <= t < |tr[i].pcs| && Entering(tr[i].pcs[t]) ==> GotIn(more, t)
  {
    RunFollowed(tr, sched, i);
    more, sched' := Drains(tr[i]);
    hide Inv, Step, GotIn;
    forall t | 0 <= t < |tr[i].pcs| && Entering(tr[i].pcs[t]) ensures GotIn(more, t) {
      OnlyThroughSection(more, sched', t, |more| - 1);
    }
  }

  // ---------------------------------------------------------------- trylocks

  /** A trylock on a lock that nobody is at, with nobody else moving meanwhile,
      gets it: at once at the root, or through the cohort. */
  lemma TryAlone(tr: seq<State>, sched: seq<nat>, i: nat, t: nat)
    requires Run(tr, sched) && i < |tr| && t < |tr[i].pcs| && tr[i].pcs[t].Try? && tr[i].pcs[t].r == Thr(t)
    requires forall u :: 0 <= u < |tr[i].pcs| && u != t ==> tr[i].pcs[u].Idle?
    requires var n := if tr[i].pcs[t].k.Root? then 2 else 4;
      i + n < |tr| && forall j :: i <= j < i + n ==> sched[j] == t
    ensures var n := if tr[i].pcs[t].k.Root? then 2 else 4;
      t < |tr[i + n].pcs| && tr[i + n].pcs[t].Crit?
  {
    var s, k := tr[i], tr[i].pcs[t].k;
    RunInv(tr, sched, i);
    NobodyThere(s, t);
    Mine(s, t);
    hide QueueOk, CohortOk, ThreadOk;
    assert Step(tr[i], t, tr[i + 1]) && Step(tr[i + 1], t, tr[i + 2]);
    if k.Cohort? {
      assert IsLock(s, k);
      assert Step(tr[i + 2], t, tr[i + 3]) && Step(tr[i + 3], t, tr[i + 4]);
    }
  }

  lemma FirstIn(q: seq<Ref>)
    ensures q != [] ==> q[0] in q
  {
  }

  lemma NobodyThere(s: State, t: nat)
    requires Inv(s) && t < |s.pcs| && s.pcs[t].Try? && s.pcs[t].r == Thr(t) && forall u :: 0 <= u < |s.pcs| && u != t ==> s.pcs[u].Idle?
    ensures s.rootTail == None && forall c :: 0 <= c < |s.lq| ==> s.tails[c] == None
    ensures IsLock(s, s.pcs[t].k)
  {
    Mine(s, t);
    RootRefs(s);
    forall u | 0 <= u < |s.pcs|
      ensures Thr(u) !in s.gq && forall c :: 0 <= c < |s.lq| ==> Thr(u) !in s.lq[c]
    {
      Mine(s, u);
    }
    forall c | 0 <= c < |s.lq| ensures s.lq[c] == [] && s.tails[c] == None && Coh(c) !in s.gq {
      CohortQueue(s, c);
      CohortRefs(s, c);
      FirstIn(s.lq[c]);
    }
    FirstIn(s.gq);
  }
}
