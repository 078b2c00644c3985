/** The page lock of the cluster is never stuck: no ticket, release, wake-up or
    hand-over is ever lost. */
module HandoverProgress {
  import opened Options
  import opened Sums
  import opened HandoverLock

  /** What is left to do until a thread is idle again. */
  function Rank(pc: Pc): nat {
    match pc
    case Idle => 0
    case Queued(_) => 12
    case Locked => 11
    case Entered => 10
    case Global => 9
    case Spin => 8
    case Clear => 7
    case Crit => 6
    case Loaded(_) => 5
    case GRel => 4
    case Wake(_, _) => 3
    case RelLocal => 1
  }

  function Ranks(s: State): seq<nat> { seq(|s.pcs|, t requires 0 <= t < |s.pcs| => Rank(s.pcs[t])) }

  /** Remote writes that have not landed. */
  function OnTheWay(s: State): nat { |s.wakes| + if s.zeroInFlight then 1 else 0 }

  function Left(s: State): nat { Total(Ranks(s)) + OnTheWay(s) }

  /** A step of the network, or of a thread at the lock, with less left after it. */
  ghost predicate Proceeds(c: Config, s: State, s': State)
    requires Shape(c, s)
  {
    Shape(c, s') && Next(c, s, s') && Left(s') < Left(s)
  }

  lemma Forward(c: Config, s: State, t: nat, s': State)
    requires Shape(c, s) && Shape(c, s') && t < |s.pcs| && ThreadStep(c, s, t, s') && s'.pcs == s.pcs[t := s'.pcs[t]]
    requires Rank(s'.pcs[t]) + OnTheWay(s') < Rank(s.pcs[t]) + OnTheWay(s)
    ensures Proceeds(c, s, s')
  {
    hide ThreadStep, Rank, OnTheWay;
    assert Next(c, s, s');
    hide Next;
    assert Ranks(s') == Ranks(s)[t := Rank(s'.pcs[t])];
    ShareChanged(Ranks(s), t, Rank(s'.pcs[t]));
  }

  // ------------------------------------------------------------ who goes on

  /** A thread inside its local lock can go on, unless it waits for the word. */
  lemma HolderGoesOn(c: Config, s: State, t: nat) returns (s': State)
    requires Inv(c, s) && t < |s.pcs| && Inside(s.pcs[t])
    requires s.pcs[t].Global? ==> c.faa || s.word == 0
    requires s.pcs[t].Spin? ==> s.nodes[c.nodeOf[t]].flag
    ensures Shape(c, s) && Proceeds(c, s, s')
  {
    hide GlobalOk, LocalOk, ClaimOk, TokenOk, TimeOk;
    var pc := s.pcs[t];
    if pc.Locked? || pc.Entered? || pc.Global? || pc.Spin? || pc.Clear? { s' := EntrantGoesOn(c, s, t); }
    else if pc.Wake? { s' := WakerGoesOn(c, s, t); }
    else { s' := LeaverGoesOn(c, s, t); }
  }

  lemma EntrantGoesOn(c: Config, s: State, t: nat) returns (s': State)
    requires Shape(c, s) && t < |s.pcs|
    requires var pc := s.pcs[t]; pc.Locked? || pc.Entered? || pc.Global? || pc.Spin? || pc.Clear?
    requires s.pcs[t].Global? ==> c.faa || s.word == 0
    requires s.pcs[t].Spin? ==> s.nodes[c.nodeOf[t]].flag
    ensures Proceeds(c, s, s')
  {
    hide Proceeds;
    var n := c.nodeOf[t];
    var d := s.nodes[n];
    match s.pcs[t] {
      case Locked => s' := Local(c, s, t, Entered, d.(word := (d.word + (TWO_64 - 1)) % TWO_64, queue := d.queue - {t}));
      case Entered =>
        s' := Local(c, s, t, if d.handOver then Crit else Global, d.(handTime := (d.handTime + 1) % 256, served := d.served + 1));
      case Global =>
        var s0 := s.(word := (s.word + Pow2(n)) % TWO_64, bits := s.bits + {n});
        s' := if !c.faa then Local(c, s, t, Crit, d).(word := Tag(c, t), token := Held(n))
              else if s.word == 0 then Local(c, s0, t, Crit, d).(token := Held(n)) else Local(c, s0, t, Spin, d);
      case Spin => s' := Local(c, s, t, Clear, d);
      case Clear => s' := Local(c, s, t, Crit, d.(flag := false)).(token := Held(n));
    }
    Forward(c, s, t, s');
  }

  lemma LeaverGoesOn(c: Config, s: State, t: nat) returns (s': State)
    requires Shape(c, s) && t < |s.pcs|
    requires var pc := s.pcs[t]; pc.Crit? || pc.Loaded? || pc.GRel? || pc.RelLocal?
    ensures Proceeds(c, s, s')
  {
    hide Proceeds;
    var n := c.nodeOf[t];
    var d := s.nodes[n];
    match s.pcs[t] {
      case Crit =>
        var pending := if c.tickets then !(NextOf(d.word) <= CurrentOf(d.word) + 1) else d.word > 0;
        s' := Local(c, s, t, Loaded(pending), d);
      case Loaded(pending) =>
        s' := if pending && d.handTime < c.maxHandover then Local(c, s, t, RelLocal, d.(handOver := true))
              else Local(c, s, t, GRel, d.(handOver := false, handTime := 0, served := 0));
      case GRel => s' := Releases(c, s, t);
      case RelLocal =>
        s' := Local(c, s, t, Idle, d.(holder := None, word := if c.tickets then (d.word + TWO_32) % TWO_64 else d.word));
    }
    Forward(c, s, t, s');
  }

  lemma Releases(c: Config, s: State, t: nat) returns (s': State)
    requires Shape(c, s) && t < |s.pcs| && s.pcs[t].GRel?
    ensures Shape(c, s') && Release(c, s, t, s') && s'.pcs == s.pcs[t := s'.pcs[t]]
    ensures Rank(s'.pcs[t]) + OnTheWay(s') < Rank(s.pcs[t]) + OnTheWay(s)
  {
    var n := c.nodeOf[t];
    Pow64();
    PowGrows(n, 64);
    hide Pow2;
    if c.faa {
      var s0 := s.(word := (s.word + (TWO_64 - Pow2(n))) % TWO_64, bits := s.bits - {n});
      s' := if s.word == Pow2(n) then Local(c, s0, t, RelLocal, s.nodes[n]).(token := Free)
            else Local(c, s0, t, Wake(s.word, s.bits - {n}), s.nodes[n]).(token := Waker(t));
    } else {
      s' := Local(c, s, t, RelLocal, s.nodes[n]).(zeroInFlight := true, token := Releasing);
    }
  }

  lemma WakerGoesOn(c: Config, s: State, t: nat) returns (s': State)
    requires Inv(c, s) && t < |s.pcs| && s.pcs[t].Wake?
    ensures Shape(c, s) && Proceeds(c, s, s')
  {
    hide LocalOk, ClaimOk, TimeOk, Proceeds;
    var n := c.nodeOf[t];
    Mine(c, s, t);
    var p :| p in s.pcs[t].peers;
    MaskBit(s.pcs[t].peers + {n}, 64, p);
    s' := Local(c, s, t, RelLocal, s.nodes[n]).(wakes := s.wakes + multiset{p}, token := InFlight(p));
    assert WakePeer(c, s, t, s');
    hide Inv, GlobalOk, TokenOk, Pow2, Mask;
    Forward(c, s, t, s');
  }

  lemma EntryGoesOn(c: Config, s: State, n: nat) returns (s': State)
    requires Inv(c, s) && n < |s.nodes| && s.nodes[n].holder == None && Waiting(c, s.nodes[n])
    ensures Shape(c, s) && Proceeds(c, s, s')
  {
    var u := NextIn(c, s, n);
    hide Inv, Proceeds;
    s' := Local(c, s, u, if c.tickets then Entered else Locked, s.nodes[n].(holder := Some(u)));
    Forward(c, s, u, s');
  }

  lemma QueuedWaits(c: Config, s: State, t: nat)
    requires Inv(c, s) && t < |s.pcs| && s.pcs[t].Queued? && s.nodes[c.nodeOf[t]].holder == None
    ensures Waiting(c, s.nodes[c.nodeOf[t]])
  {
    assert NodeOk(c, s, c.nodeOf[t]);
    assert On(c, s, t, c.nodeOf[t]);
  }

  /** Remote writes land. */
  lemma WakeArrives(c: Config, s: State, n: nat) returns (s': State)
    requires Shape(c, s) && n < |s.nodes| && s.wakes == multiset{n}
    ensures Proceeds(c, s, s')
  {
    s' := s.(wakes := s.wakes - multiset{n}, nodes := s.nodes[n := s.nodes[n].(flag := true)], token := Flagged(n));
    assert WakeLands(s, n, s');
    assert Ranks(s') == Ranks(s);
    assert |s'.wakes| == 0;
    hide Rank, ThreadStep;
  }

  lemma ZeroArrives(c: Config, s: State) returns (s': State)
    requires Shape(c, s) && s.zeroInFlight
    ensures Proceeds(c, s, s')
  {
    s' := s.(word := 0, zeroInFlight := false, token := Free);
    assert ZeroLands(s, s');
    assert Ranks(s') == Ranks(s);
    hide Rank, ThreadStep;
  }

  /** The node that holds the token, or whoever is to receive it, can go on. */
  lemma TokenGoesOn(c: Config, s: State) returns (s': State)
    requires Inv(c, s) && s.token != Free
    ensures Shape(c, s) && Proceeds(c, s, s')
  {
    hide LocalOk, TimeOk, WordBits, Waiting, Proceeds;
    match s.token {
      case Held(n) =>
        assert NodeOk(c, s, n);
        if HolderPc(s, n) { HolderIn(c, s, n); s' := HolderGoesOn(c, s, s.nodes[n].holder.value); }
        else { NoHolder(c, s, n); s' := EntryGoesOn(c, s, n); }
      case Flagged(n) =>
        assert NodeOk(c, s, n);
        HolderIn(c, s, n);
        s' := HolderGoesOn(c, s, s.nodes[n].holder.value);
      case InFlight(n) => s' := WakeArrives(c, s, n);
      case Waker(t) => s' := WakerGoesOn(c, s, t);
      case Releasing => s' := ZeroArrives(c, s);
    }
  }

  lemma HolderIn(c: Config, s: State, n: nat)
    requires Inv(c, s) && n < |s.nodes| && HolderPc(s, n)
    ensures var t := s.nodes[n].holder.value; t < |s.pcs| && c.nodeOf[t] == n && Inside(s.pcs[t])
  {
    assert NodeOk(c, s, n);
  }

  lemma NoHolder(c: Config, s: State, n: nat)
    requires Inv(c, s) && n < |s.nodes| && !HolderPc(s, n)
    ensures s.nodes[n].holder == None
  {
    assert NodeOk(c, s, n);
  }

  /** As long as any thread wants the lock, something can happen. */
  lemma SomeGoesOn(c: Config, s: State, t: nat) returns (s': State)
    requires Inv(c, s) && t < |s.pcs| && !s.pcs[t].Idle?
    ensures Shape(c, s) && Proceeds(c, s, s')
  {
    hide LocalOk, ClaimOk, TimeOk, WordBits, Waiting, Proceeds;
    if s.token != Free {
      s' := TokenGoesOn(c, s);
    } else {
      var n := c.nodeOf[t];
      Mine(c, s, t);
      WordIsToken(c, s);
      if s.nodes[n].holder == None {
        QueuedWaits(c, s, t);
        s' := EntryGoesOn(c, s, n);
      } else {
        HasHolder(c, s, n);
        s' := HolderGoesOn(c, s, s.nodes[n].holder.value);
      }
    }
  }

  lemma HasHolder(c: Config, s: State, n: nat)
    requires Inv(c, s) && n < |s.nodes| && s.nodes[n].holder.Some? && s.token == Free
    ensures var u := s.nodes[n].holder.value; u < |s.pcs| && c.nodeOf[u] == n && Inside(s.pcs[u]) && !s.pcs[u].Spin?
  {
    assert NodeOk(c, s, n);
  }

  // ------------------------------------------------------------- never stuck

  ghost predicate Steps(c: Config, tr: seq<State>) {
    |tr| > 0 && (forall i :: 0 <= i < |tr| ==> Shape(c, tr[i])) && forall i :: 0 <= i < |tr| - 1 ==> Next(c, tr[i], tr[i + 1])
  }

  /** Nobody is at the lock and the word is free. */
  ghost predicate AtRest(s: State) {
    (forall t :: 0 <= t < |s.pcs| ==> s.pcs[t].Idle?) && s.token == Free
  }

  lemma {:induction false} Drains(c: Config, s: State) returns (tr: seq<State>)
    requires Inv(c, s)
    ensures Steps(c, tr) && tr[0] == s && AtRest(tr[|tr| - 1])
    decreases Left(s)
  {
    assert Shape(c, s);
    hide Inv, Next, Left, Shape;
    if AtRest(s) {
      tr := [s];
    } else {
      var s': State;
      if s.token != Free {
        s' := TokenGoesOn(c, s);
      } else {
        var t :| 0 <= t < |s.pcs| && !s.pcs[t].Idle?;
        s' := SomeGoesOn(c, s, t);
      }
      StepInv(c, s, s');
      var tr' := Drains(c, s');
      tr := [s] + tr';
      forall i | 0 <= i < |tr| - 1 ensures Next(c, tr[i], tr[i + 1]) {
        if i > 0 { assert Next(c, tr'[i - 1], tr'[i]); }
      }
    }
  }

  predicate Entering(pc: Pc) { pc.Queued? || pc.Locked? || pc.Entered? || pc.Global? || pc.Spin? || pc.Clear? }

  ghost predicate GotIn(tr: seq<State>, t: nat) {
    exists i :: 0 <= i < |tr| && t < |tr[i].pcs| && tr[i].pcs[t].Crit?
  }

  lemma StepEnters(c: Config, s: State, s': State, u: nat)
    requires Shape(c, s) && Next(c, s, s') && u < |s.pcs|
    ensures u < |s'.pcs| && (Entering(s.pcs[u]) ==> Entering(s'.pcs[u]) || s'.pcs[u].Crit?)
  {
    hide ThreadStep;
    if !ZeroLands(s, s') && !exists p :: WakeLands(s, p, s') {
      var t: nat :| ThreadStep(c, s, t, s');
      ThreadElsewhere(c, s, t, s');
      if u == t && Entering(s.pcs[u]) { ThreadEnters(c, s, u, s'); }
    }
  }

  lemma ThreadElsewhere(c: Config, s: State, t: nat, s': State)
    requires Shape(c, s) && ThreadStep(c, s, t, s')
    ensures t < |s.pcs| == |s'.pcs| && forall u :: 0 <= u < |s.pcs| && u != t ==> s'.pcs[u] == s.pcs[u]
  {
    hide Pow2, BitOf;
  }

  lemma ThreadEnters(c: Config, s: State, u: nat, s': State)
    requires Shape(c, s) && u < |s.pcs| && ThreadStep(c, s, u, s') && Entering(s.pcs[u])
    ensures u < |s'.pcs| && (Entering(s'.pcs[u]) || s'.pcs[u].Crit?)
  {
    hide Announce, LookBehind, Decide, Release, WakePeer, Leave, Pow2;
  }

  lemma {:induction false} OnlyThroughSection(c: Config, tr: seq<State>, t: nat, n: nat)
    requires Steps(c, tr) && n < |tr| && t < |tr[0].pcs| && Entering(tr[0].pcs[t])
    ensures t < |tr[n].pcs| && (Entering(tr[n].pcs[t]) || GotIn(tr, t))
  {
    if n > 0 {
      OnlyThroughSection(c, tr, t, n - 1);
      assert Next(c, tr[n - 1], tr[n]);
      StepEnters(c, tr[n - 1], tr[n], t);
      hide Next;
    }
  }

  /** The lock is never stuck: from every state of every run, all threads that are
      at it can get it, all can become idle, and the word can become free. */
  lemma NeverStuck(c: Config, tr: seq<State>, i: nat) returns (more: seq<State>)
    requires Run(c, tr) && i < |tr|
    ensures Steps(c, more) && more[0] == tr[i] && AtRest(more[|more| - 1])
    ensures forall t :: 0 <= t < |tr[i].pcs| && Entering(tr[i].pcs[t]) ==> GotIn(more, t)
  {
    RunInv(c, tr, i);
    more := Drains(c, tr[i]);
    hide Inv, Next, GotIn;
    forall t | 0 <= t < |tr[i].pcs| && Entering(tr[i].pcs[t]) ensures GotIn(more, t) {
      OnlyThroughSection(c, more, t, |more| - 1);
    }
  }
}
