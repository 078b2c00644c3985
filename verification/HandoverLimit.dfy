/** What the bound on hand-overs is worth, given that sections are counted in
    eight bits while the bound has sixteen. */
module HandoverLimit {
  import opened Options
  import opened HandoverLock

  const MAX_BOUND: nat := 0xFFFF

  /** The threads and nodes the program admits. */
  ghost predicate Admissible(c: Config) {
    |c.nodeOf| < TWO_64 && c.maxHandover <= MAX_BOUND && forall t :: 0 <= t < |c.nodeOf| ==> c.nodeOf[t] < MAX_MACHINE
  }

  ghost predicate Pair(c: Config, t: nat, u: nat) { t < u < |c.nodeOf| && c.nodeOf[t] == c.nodeOf[u] }

  /** No node has two threads. */
  ghost predicate Alone(c: Config) { forall t: nat, u: nat :: !Pair(c, t, u) }

  /** One acquisition of the word never serves more sections than the bound. */
  ghost predicate Bounded(c: Config) {
    forall tr: seq<State>, i: nat, n: nat :: Run(c, tr) && i < |tr| && n < |tr[i].nodes| ==> tr[i].nodes[n].served <= AtLeastOne(c.maxHandover)
  }

  // ------------------------------------------------- one thread on every node

  ghost predicate SoloOk(s: State, n: nat)
    requires n < |s.nodes|
  {
    var d, pc := s.nodes[n], PcOf(s, n);
    && !d.handOver && d.served <= 1
    && (d.served == 1 ==> pc.Global? || pc.Spin? || pc.Clear? || pc.Crit? || pc.Loaded?)
  }

  ghost predicate Solo(s: State) { forall n :: 0 <= n < |s.nodes| ==> SoloOk(s, n) }

  /** While somebody is inside, only another thread of the node can wait there. */
  lemma WaiterIsOther(c: Config, s: State, t: nat)
    requires Inv(c, s) && t < |s.pcs| && s.pcs[t].Loaded? && Waiting(c, s.nodes[c.nodeOf[t]])
    ensures !Alone(c)
  {
    hide ClaimOk, TokenOk, TimeOk, GlobalOk;
    var n := c.nodeOf[t];
    var d := s.nodes[n];
    assert NodeOk(c, s, n) && On(c, s, t, n);
    var u: nat;
    if c.tickets { u := d.owners[CurrentOf(d.word) + 1]; } else { u :| u in d.queue; }
    assert On(c, s, u, n) && u != t;
    assert Pair(c, if t < u then t else u, if t < u then u else t);
  }

  lemma SoloDecides(c: Config, s: State, t: nat, s': State)
    requires Inv(c, s) && Solo(s) && Alone(c) && t < |s.pcs| && Decide(c, s, t, s')
    ensures !s.pcs[t].pending
  {
    hide LocalOk, TokenOk, TimeOk, GlobalOk, Waiting, Alone;
    Mine(c, s, t);
    assert PcOf(s, c.nodeOf[t]) == s.pcs[t];
    if s.pcs[t].pending { WaiterIsOther(c, s, t); }
  }

  /** A thread's step concerns only its own node. */
  lemma SoloThread(c: Config, s: State, t: nat, s': State)
    requires Inv(c, s) && Solo(s) && Alone(c) && t < |s.pcs| && ThreadStep(c, s, t, s') && Inv(c, s')
    ensures Solo(s')
  {
    hide LocalOk, ClaimOk, TokenOk, TimeOk, GlobalOk, Alone, WordBits, Waiting;
    var n := c.nodeOf[t];
    Mine(c, s, t);
    Mine(c, s', t);
    assert SoloOk(s, n);
    if s.pcs[t].Loaded? { SoloDecides(c, s, t, s'); }
    forall m | 0 <= m < |s'.nodes| ensures SoloOk(s', m) {
      assert SoloOk(s, m);
      if m != n { HolderElsewhere(c, s, t, s', m); } else { SoloHere(c, s, t, s'); }
    }
  }

  lemma HolderElsewhere(c: Config, s: State, t: nat, s': State, m: nat)
    requires Inv(c, s) && t < |s.pcs| && ThreadStep(c, s, t, s') && m < |s.nodes| && m != c.nodeOf[t]
    ensures m < |s'.nodes| && s'.nodes[m] == s.nodes[m] && PcOf(s', m) == PcOf(s, m)
  {
    hide LocalOk, ClaimOk, TokenOk, TimeOk, GlobalOk, WordBits, Waiting;
    OnlyItsNode(c, s, t, s');
    OtherNode(c, s, t, s', m);
  }

  lemma OnlyItsNode(c: Config, s: State, t: nat, s': State)
    requires Shape(c, s) && t < |s.pcs| && ThreadStep(c, s, t, s')
    ensures OnlyNode(c, s, t, s')
  {
    hide Announce, Enter, Uncount, CountHand, Acquire, SeeFlag, ClearFlag, LookBehind, Decide, Release, WakePeer, Leave, OnlyNode;
    match s.pcs[t]
    case Global => AcquireOnly(c, s, t, s');
    case Clear => ClearOnly(c, s, t, s');
    case GRel => ReleaseOnly(c, s, t, s');
    case Wake(_, _) => WakeOnly(c, s, t, s');
    case _ => PlainOnly(c, s, t, s');
  }

  lemma PlainOnly(c: Config, s: State, t: nat, s': State)
    requires Shape(c, s) && t < |s.pcs|
    requires || Announce(c, s, t, s') || Enter(c, s, t, s') || Uncount(c, s, t, s') || CountHand(c, s, t, s')
             || SeeFlag(c, s, t, s') || LookBehind(c, s, t, s') || Decide(c, s, t, s') || Leave(c, s, t, s')
    ensures OnlyNode(c, s, t, s')
  {
    hide NextOf, CurrentOf, OnlyNode;
    var n := c.nodeOf[t];
    assert s' == Local(c, s, t, s'.pcs[t], s'.nodes[n]);
    LocalOnly(c, s, t, s', s'.pcs[t], s'.nodes[n]);
  }

  lemma LocalOnly(c: Config, s: State, t: nat, s': State, pc: Pc, d: Node)
    requires Shape(c, s) && t < |s.pcs| && s'.pcs == Local(c, s, t, pc, d).pcs && s'.nodes == Local(c, s, t, pc, d).nodes
    ensures OnlyNode(c, s, t, s')
  {
  }

  lemma AcquireOnly(c: Config, s: State, t: nat, s': State)
    requires Shape(c, s) && t < |s.pcs| && Acquire(c, s, t, s')
    ensures OnlyNode(c, s, t, s')
  {
    hide Pow2, Tag;
  }

  lemma ClearOnly(c: Config, s: State, t: nat, s': State)
    requires Shape(c, s) && t < |s.pcs| && ClearFlag(c, s, t, s')
    ensures OnlyNode(c, s, t, s')
  {
  }

  lemma ReleaseOnly(c: Config, s: State, t: nat, s': State)
    requires Shape(c, s) && t < |s.pcs| && Release(c, s, t, s')
    ensures OnlyNode(c, s, t, s')
  {
    hide Pow2;
  }

  lemma WakeOnly(c: Config, s: State, t: nat, s': State)
    requires Shape(c, s) && t < |s.pcs| && WakePeer(c, s, t, s')
    ensures OnlyNode(c, s, t, s')
  {
    hide BitOf;
  }

  /** Nobody is inside when a thread gets the local lock. */
  lemma EntersAlone(c: Config, s: State, t: nat, s': State)
    requires Inv(c, s) && t < |s.pcs| && Enter(c, s, t, s')
    ensures s.nodes[c.nodeOf[t]].holder == None
  {
    hide ClaimOk, TokenOk, TimeOk, GlobalOk;
    assert NodeOk(c, s, c.nodeOf[t]) && On(c, s, t, c.nodeOf[t]);
  }

  /** What a step does to the count and to the flag of its node. */
  ghost predicate Counts(c: Config, s: State, t: nat, s': State)
    requires t < |s.pcs| && t < |s'.pcs| && t < |c.nodeOf| && c.nodeOf[t] < |s.nodes| && c.nodeOf[t] < |s'.nodes|
  {
    var d, d', pc, pc' := s.nodes[c.nodeOf[t]], s'.nodes[c.nodeOf[t]], s.pcs[t], s'.pcs[t];
    match pc
    case Idle => d' == d.(word := d'.word, owners := d'.owners, queue := d'.queue) && pc'.Queued?
    case Queued(_) => d' == d.(holder := Some(t)) && (pc'.Entered? || pc'.Locked?)
    case Locked => d' == d.(word := d'.word, queue := d'.queue) && pc'.Entered?
    case Entered => d' == d.(handTime := d'.handTime, served := d.served + 1) && pc' == if d.handOver then Crit else Global
    case Loaded(pending) => !pending ==> d' == d.(handOver := false, handTime := 0, served := 0) && pc'.GRel?
    case RelLocal => d' == d.(holder := None, word := d'.word) && pc'.Idle?
    case Crit => d' == d && pc'.Loaded?
    case Global => d' == d && (pc'.Crit? || pc'.Spin?)
    case Spin => d' == d && pc'.Clear?
    case Clear => d' == d.(flag := false) && pc'.Crit?
    case GRel => d' == d && (pc'.RelLocal? || pc'.Wake?)
    case Wake(_, _) => d' == d && pc'.RelLocal?
  }

  lemma StepCounts(c: Config, s: State, t: nat, s': State)
    requires Shape(c, s) && t < |s.pcs| && ThreadStep(c, s, t, s')
    ensures |s'.pcs| == |s.pcs| && |s'.nodes| == |s.nodes| && Counts(c, s, t, s')
  {
    hide NextOf, CurrentOf, Pow2, BitOf, Tag, Release, WakePeer, Acquire;
    match s.pcs[t]
    case Global => GlobalCounts(c, s, t, s');
    case GRel => GlobalCounts(c, s, t, s');
    case Wake(_, _) => GlobalCounts(c, s, t, s');
    case _ =>
  }

  lemma GlobalCounts(c: Config, s: State, t: nat, s': State)
    requires Shape(c, s) && t < |s.pcs| && (Acquire(c, s, t, s') || Release(c, s, t, s') || WakePeer(c, s, t, s'))
    ensures |s'.pcs| == |s.pcs| && |s'.nodes| == |s.nodes| && Counts(c, s, t, s')
  {
    hide NextOf, CurrentOf, Pow2, BitOf, Tag;
  }

  lemma SoloHere(c: Config, s: State, t: nat, s': State)
    requires Inv(c, s) && Inv(c, s') && t < |s.pcs| && ThreadStep(c, s, t, s') && c.nodeOf[t] < |s.nodes| && SoloOk(s, c.nodeOf[t])
    requires s.pcs[t].Loaded? ==> !s.pcs[t].pending
    ensures c.nodeOf[t] < |s'.nodes| && SoloOk(s', c.nodeOf[t])
  {
    if s.pcs[t].Queued? { EntersAlone(c, s, t, s'); }
    hide LocalOk, ClaimOk, TokenOk, TimeOk, GlobalOk;
    StepCounts(c, s, t, s');
    OnlyItsNode(c, s, t, s');
    Mine(c, s, t);
    Mine(c, s', t);
    hide Inv, ThreadStep, NodeOk, Counts, SoloOk;
    SoloCounts(c, s, t, s');
  }

  lemma SoloCounts(c: Config, s: State, t: nat, s': State)
    requires OnlyNode(c, s, t, s') && c.nodeOf[t] < |s.nodes| && Counts(c, s, t, s') && SoloOk(s, c.nodeOf[t])
    requires s.pcs[t].Loaded? ==> !s.pcs[t].pending
    requires s.pcs[t].Queued? ==> s.nodes[c.nodeOf[t]].holder == None
    requires Inside(s.pcs[t]) ==> PcOf(s, c.nodeOf[t]) == s.pcs[t] && s.nodes[c.nodeOf[t]].holder == Some(t)
    requires Inside(s'.pcs[t]) ==> PcOf(s', c.nodeOf[t]) == s'.pcs[t]
    requires !Inside(s.pcs[t]) ==> s.nodes[c.nodeOf[t]].holder != Some(t)
    ensures SoloOk(s', c.nodeOf[t])
  {
  }

  lemma SoloStep(c: Config, s: State, s': State)
    requires Inv(c, s) && Solo(s) && Alone(c) && Next(c, s, s')
    ensures Solo(s')
  {
    assert Shape(c, s);
    hide Inv, Alone, Solo, Announce, Enter, Uncount, CountHand, Acquire, SeeFlag, ClearFlag, LookBehind, Decide, Release, WakePeer, Leave;
    StepInv(c, s, s');
    if ZeroLands(s, s') {
      SoloFrame(s, s');
    } else if p :| WakeLands(s, p, s') {
      SoloFrame(s, s');
    } else {
      var t: nat :| ThreadStep(c, s, t, s');
      SoloThread(c, s, t, s');
    }
  }

  lemma SoloFrame(s: State, s': State)
    requires Solo(s) && s'.pcs == s.pcs && |s'.nodes| == |s.nodes|
    requires forall n :: 0 <= n < |s.nodes| ==> s'.nodes[n] == s.nodes[n].(flag := s'.nodes[n].flag)
    ensures Solo(s')
  {
    forall n | 0 <= n < |s.nodes| ensures SoloOk(s', n) { assert SoloOk(s, n); }
  }

  lemma {:induction false} RunSolo(c: Config, tr: seq<State>, i: nat)
    requires Run(c, tr) && i < |tr| && Alone(c)
    ensures Solo(tr[i])
  {
    hide Inv, Next, Alone;
    if i > 0 {
      RunSolo(c, tr, i - 1);
      RunInv(c, tr, i - 1);
      SoloStep(c, tr[i - 1], tr[i]);
    }
  }

  // --------------------------------------- two threads that pass the lock on

  ghost predicate Reaches(c: Config, s: State) {
    exists tr: seq<State> :: |tr| > 0 && Run(c, tr) && tr[|tr| - 1] == s
  }

  lemma Extend(c: Config, s: State, t: nat, s': State)
    requires Reaches(c, s) && Shape(c, s) && Shape(c, s') && ThreadStep(c, s, t, s')
    ensures Reaches(c, s')
  {
    hide ThreadStep, Init, Shape;
    var tr: seq<State> :| |tr| > 0 && Run(c, tr) && tr[|tr| - 1] == s;
    assert Next(c, s, s');
    hide Next;
    var tr' := tr + [s'];
    forall i | 0 <= i < |tr'| - 1 ensures Shape(c, tr'[i]) && Next(c, tr'[i], tr'[i + 1]) {
      if i < |tr| - 1 { assert Next(c, tr[i], tr[i + 1]); }
    }
    assert Run(c, tr') && tr'[|tr'| - 1] == s';
  }

  /** Thread a is inside as the k-th since the word was taken; b is idle. */
  ghost predicate Turn(c: Config, s: State, a: nat, b: nat, k: nat) {
    && Shape(c, s) && a < |s.pcs| && b < |s.pcs| && a != b && c.nodeOf[a] == c.nodeOf[b]
    && s.pcs[a].Crit? && s.pcs[b].Idle? && k > 0
    && var d := s.nodes[c.nodeOf[a]];
       && d.served == k && d.holder == Some(a) && d.handTime < 256
       && if c.tickets then |d.owners| == k && d.word == Pack(k, k - 1) else d.word == 0 && d.queue == {}
  }

  /** The first thread takes the local lock and the word. */
  lemma FirstTurn(c: Config, a: nat, b: nat) returns (s: State)
    requires Admissible(c) && a < |c.nodeOf| && b < |c.nodeOf| && a != b && c.nodeOf[a] == c.nodeOf[b]
    ensures Reaches(c, s) && Turn(c, s, a, b, 1)
  {
    hide Reaches;
    var n := c.nodeOf[a];
    var d0 := Node(0, false, 0, false, None, [], {}, 0);
    var s0 := State(0, false, multiset{}, seq(MAX_MACHINE, i => d0), seq(|c.nodeOf|, i => Idle), {}, Free);
    Started(c, s0);
    var s1;
    if c.tickets {
      assert Pack(1, 0) == 1 && CurrentOf(0) == 0 && NextOf(0) == 0 && CurrentOf(1) == 0;
      s1 := Local(c, s0, a, Queued(0), d0.(word := 1, owners := [a]));
      assert [] + [a] == [a];
      Extend(c, s0, a, s1);
    } else {
      s1 := Local(c, s0, a, Queued(0), d0.(word := 1, queue := {a}));
      assert {} + {a} == {a};
      Extend(c, s0, a, s1);
    }
    var s2 := EnterLocal(c, s1, a);
    var s3 := Local(c, s2, a, Global, s2.nodes[n].(handTime := 1, served := 1));
    Extend(c, s2, a, s3);
    if c.faa {
      s := Local(c, s3.(word := (0 + Pow2(n)) % TWO_64, bits := {} + {n}), a, Crit, s3.nodes[n]).(token := Held(n));
    } else {
      s := Local(c, s3, a, Crit, s3.nodes[n]).(word := Tag(c, a), token := Held(n));
    }
    Extend(c, s3, a, s);
  }

  lemma Started(c: Config, s: State)
    requires Admissible(c)
    requires s == State(0, false, multiset{}, seq(MAX_MACHINE, i => Node(0, false, 0, false, None, [], {}, 0)), seq(|c.nodeOf|, i => Idle), {}, Free)
    ensures Shape(c, s) && Reaches(c, s)
  {
    assert Init(c, s);
    assert Run(c, [s]) && [s][|[s]| - 1] == s;
  }

  /** A thread whose turn it is gets the local lock, and is no longer counted
      as waiting. */
  lemma EnterLocal(c: Config, s: State, t: nat) returns (s': State)
    requires Reaches(c, s) && Shape(c, s) && t < |s.pcs| && s.pcs[t].Queued?
    requires var d := s.nodes[c.nodeOf[t]];
      d.holder == None && if c.tickets then s.pcs[t].ticket == CurrentOf(d.word) else d.word == 1 && d.queue == {t}
    ensures var d := s.nodes[c.nodeOf[t]];
      s' == Local(c, s, t, Entered, if c.tickets then d.(holder := Some(t)) else d.(holder := Some(t), word := 0, queue := {})) && Reaches(c, s')
  {
    hide Reaches;
    var n := c.nodeOf[t];
    var d := s.nodes[n];
    if c.tickets {
      s' := Local(c, s, t, Entered, d.(holder := Some(t)));
      Extend(c, s, t, s');
    } else {
      var s1 := Local(c, s, t, Locked, d.(holder := Some(t)));
      Extend(c, s, t, s1);
      s' := Local(c, s1, t, Entered, s1.nodes[n].(word := 0, queue := {}));
      assert {t} - {t} == {};
      Extend(c, s1, t, s');
      assert s' == Local(c, s, t, Entered, d.(holder := Some(t), word := 0, queue := {}));
    }
  }

  /** The other thread announces itself and is seen; the counter never keeps a
      bound of more than 255 from being met, so it is handed the lock. */
  lemma NextTurn(c: Config, s: State, a: nat, b: nat, k: nat) returns (s': State)
    requires Reaches(c, s) && Turn(c, s, a, b, k) && c.maxHandover > 255 && k + 1 < TWO_32
    ensures Reaches(c, s') && Turn(c, s', b, a, k + 1)
  {
    hide Reaches;
    var s1 := Announces(c, s, a, b, k);
    var s2 := HandsOver(c, s1, a, b, k);
    s' := Receives(c, s2, a, b, k);
  }

  lemma Announces(c: Config, s: State, a: nat, b: nat, k: nat) returns (s': State)
    requires Reaches(c, s) && Turn(c, s, a, b, k) && k + 1 < TWO_32
    ensures Reaches(c, s') && s' == Behind(c, s, b, k)
  {
    hide Reaches, Pack, NextOf, CurrentOf;
    s' := Behind(c, s, b, k);
    if c.tickets {
      PackUnpack(k, k - 1);
      DrawTicket(k, k - 1);
    } else {
      assert {} + {b} == {b};
    }
    Extend(c, s, b, s');
  }

  /** The state after b announced itself behind the k-th holder. */
  function Behind(c: Config, s: State, b: nat, k: nat): (r: State)
    requires Shape(c, s) && b < |s.pcs| && k > 0
    ensures Shape(c, r)
  {
    var d := s.nodes[c.nodeOf[b]];
    if c.tickets then Local(c, s, b, Queued(k), d.(word := Pack(k + 1, k - 1), owners := d.owners + [b]))
    else Local(c, s, b, Queued(0), d.(word := 1, queue := {b}))
  }

  lemma HandsOver(c: Config, s: State, a: nat, b: nat, k: nat) returns (s': State)
    requires Shape(c, s) && a < |s.pcs| && Reaches(c, s) && s.pcs[a].Crit? && c.maxHandover > 255 && 0 < k && k + 1 < TWO_32
    requires var d := s.nodes[c.nodeOf[a]]; d.handTime < 256 && d.word == if c.tickets then Pack(k + 1, k - 1) else 1
    ensures var d := s.nodes[c.nodeOf[a]];
      s' == Local(c, s, a, Idle, d.(handOver := true, holder := None, word := if c.tickets then Pack(k + 1, k) else 1)) && Reaches(c, s')
  {
    hide Reaches, Pack, NextOf, CurrentOf;
    var n := c.nodeOf[a];
    var d := s.nodes[n];
    PackUnpack(k + 1, k - 1);
    ServeNext(k + 1, k - 1);
    var s1 := Local(c, s, a, Loaded(true), d);
    Extend(c, s, a, s1);
    var s2 := Local(c, s1, a, RelLocal, d.(handOver := true));
    Extend(c, s1, a, s2);
    s' := Local(c, s2, a, Idle, s2.nodes[n].(holder := None, word := if c.tickets then Pack(k + 1, k) else 1));
    Extend(c, s2, a, s');
    assert s' == Local(c, s, a, Idle, d.(handOver := true, holder := None, word := if c.tickets then Pack(k + 1, k) else 1));
  }

  lemma Receives(c: Config, s: State, a: nat, b: nat, k: nat) returns (s': State)
    requires Shape(c, s) && Reaches(c, s) && a < |s.pcs| && b < |s.pcs| && a != b && c.nodeOf[a] == c.nodeOf[b] && 0 < k && k + 1 < TWO_32
    requires s.pcs[a].Idle? && s.pcs[b] == Queued(if c.tickets then k else 0)
    requires var d := s.nodes[c.nodeOf[b]];
      && d.handOver && d.holder == None && d.served == k
      && if c.tickets then |d.owners| == k + 1 && d.word == Pack(k + 1, k) else d.word == 1 && d.queue == {b}
    ensures Reaches(c, s') && Turn(c, s', b, a, k + 1)
  {
    hide Reaches;
    PackUnpack(k + 1, k);
    hide Pack, NextOf, CurrentOf;
    var n := c.nodeOf[b];
    var s1 := EnterLocal(c, s, b);
    var d := s1.nodes[n];
    s' := Local(c, s1, b, Crit, d.(handTime := (d.handTime + 1) % 256, served := k + 1));
    Extend(c, s1, b, s');
  }

  lemma {:induction false} Turns(c: Config, a: nat, b: nat, k: nat) returns (s: State, x: nat, y: nat)
    requires Admissible(c) && Pair(c, a, b) && c.maxHandover > 255 && 0 < k <= MAX_BOUND + 1
    ensures Reaches(c, s) && Turn(c, s, x, y, k) && c.nodeOf[x] == c.nodeOf[a]
  {
    hide Reaches, Admissible;
    if k == 1 {
      s := FirstTurn(c, a, b);
      x, y := a, b;
    } else {
      s, y, x := Turns(c, a, b, k - 1);
      s := NextTurn(c, s, y, x, k - 1);
    }
  }

  // --------------------------------------------------------- the exact limit

  /** The bound is kept, on every run, if and only if it fits the eight-bit
      counter or there is nobody to hand the lock over to. */
  lemma ExactBound(c: Config)
    requires Admissible(c)
    ensures Bounded(c) <==> c.maxHandover <= 255 || Alone(c)
  {
    hide Inv, Run;
    if c.maxHandover <= 255 || Alone(c) {
      forall tr: seq<State>, i: nat, n: nat | Run(c, tr) && i < |tr| && n < |tr[i].nodes|
        ensures tr[i].nodes[n].served <= AtLeastOne(c.maxHandover)
      {
        if c.maxHandover <= 255 { HandoverBound(c, tr, i, n); } else { RunSolo(c, tr, i); assert SoloOk(tr[i], n); }
      }
    } else {
      var a: nat, b: nat :| Pair(c, a, b);
      var s, x, y := Turns(c, a, b, c.maxHandover + 1);
      var tr: seq<State> :| |tr| > 0 && Run(c, tr) && tr[|tr| - 1] == s;
      assert tr[|tr| - 1].nodes[c.nodeOf[x]].served == c.maxHandover + 1;
    }
  }
}
