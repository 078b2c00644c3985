/** The MUTEXEE lock: a spin lock whose waiters finally sleep on a futex.

    The lock word has a `locked` byte and a `contended` byte; a waiter that gives
    up spinning sets both at once and sleeps while it finds both set.  `owner` is
    auxiliary.  How long a thread spins, and whether the fair variant skips the
    futex call, is left open. */
module Mutexee {
  import opened Options
  import opened Sums

  datatype Pc =
    | Idle
    | Fast(retry: bool)  // swap the locked byte; a trylock does not retry
    | Spin
    | Swap               // swap the whole word for 257
    | Wait               // about to call futex wait
    | Sleep
    | Crit
    | Compare            // saw locked and not contended
    | Store
    | Look(again: bool)  // has the lock been taken since?
    | Clear              // about to reset contended
    | Wake

  datatype State = State(locked: bool, contended: bool, pcs: seq<Pc>, owner: Option<nat>)

  function Moved(s: State, t: nat, pc: Pc): State
    requires t < |s.pcs|
  {
    s.(pcs := s.pcs[t := pc])
  }

  /** Swapping 1 into the locked byte. */
  function TakeByte(s: State, t: nat, otherwise: Pc): State
    requires t < |s.pcs|
  {
    if s.locked then Moved(s, t, otherwise) else Moved(s, t, Crit).(locked := true, owner := Some(t))
  }

  ghost predicate Step(s: State, t: nat, s': State) {
    t < |s.pcs| &&
    match s.pcs[t]
    case Idle => s' == Moved(s, t, Fast(true)) || s' == Moved(s, t, Fast(false))
    case Fast(retry) => s' == TakeByte(s, t, if retry then Spin else Idle)
    case Spin => s' == TakeByte(s, t, Spin) || s' == Moved(s, t, Swap)
    case Swap =>
      if s.locked then s' == Moved(s, t, Wait).(contended := true) || s' == Moved(s, t, Swap).(contended := true)
      else s' == Moved(s, t, Crit).(locked := true, contended := true, owner := Some(t))
    case Wait => s' == Moved(s, t, if s.locked && s.contended then Sleep else Swap)
    case Sleep => s' == Moved(s, t, Swap)  // woken for no reason
    case Crit => s' == Moved(s, t, if s.locked && !s.contended then Compare else Store)
    case Compare =>
      s' == if s.locked && !s.contended then Moved(s, t, Idle).(locked := false, owner := None) else Moved(s, t, Store)
    case Store => s' == Moved(s, t, Look(false)).(locked := false, owner := None)
    case Look(again) => s' == Moved(s, t, if s.locked then Idle else if again then Clear else Look(true))
    case Clear => s' == Moved(s, t, Wake).(contended := false)
    case Wake => WakeOne(s, t, s')
  }

  /** Wakes one sleeper, whichever, if there is any. */
  ghost predicate WakeOne(s: State, t: nat, s': State)
    requires t < |s.pcs|
  {
    || ((forall u :: 0 <= u < |s.pcs| ==> !s.pcs[u].Sleep?) && s' == Moved(s, t, Idle))
    || (exists u: nat :: u < |s.pcs| && s.pcs[u].Sleep? && s' == Moved(Moved(s, t, Idle), u, Swap))
  }

  ghost predicate Init(s: State) {
    !s.locked && !s.contended && s.owner == None && forall t :: 0 <= t < |s.pcs| ==> s.pcs[t] == Idle
  }

  ghost predicate Run(tr: seq<State>, sched: seq<nat>) {
    && |tr| == |sched| + 1 && Init(tr[0])
    && forall i :: 0 <= i < |sched| ==> Step(tr[i], sched[i], tr[i + 1])
  }

  /** The thread has the lock. */
  predicate Holds(pc: Pc) { pc.Crit? || pc.Compare? || pc.Store? }

  /** The thread will wake a sleeper, or make whoever unlocks next do so. */
  predicate Answers(s: State, t: nat)
    requires t < |s.pcs|
  {
    var pc := s.pcs[t];
    pc.Wake? || pc.Swap? || (s.contended && (Holds(pc) || pc.Look? || pc.Clear?))
  }

  ghost predicate Inv(s: State) {
    && (forall t :: 0 <= t < |s.pcs| ==> (Holds(s.pcs[t]) <==> s.owner == Some(t)))
    && (s.locked <==> s.owner.Some?) && (s.owner.Some? ==> s.owner.value < |s.pcs|)
    && (forall t :: 0 <= t < |s.pcs| && s.pcs[t].Sleep? ==> Covered(s))
  }

  ghost predicate Covered(s: State) { exists u: nat :: u < |s.pcs| && Answers(s, u) }

  lemma StepOwner(s: State, t: nat, s': State)
    requires Inv(s) && Step(s, t, s')
    ensures |s'.pcs| == |s.pcs| && forall u :: 0 <= u < |s'.pcs| ==> (Holds(s'.pcs[u]) <==> s'.owner == Some(u))
    ensures (s'.locked <==> s'.owner.Some?) && (s'.owner.Some? ==> s'.owner.value < |s'.pcs|)
  {
    if s.pcs[t].Wake? {
      hide Covered;
    } else {
      PlainOwner(s, t, s');
    }
  }

  lemma PlainOwner(s: State, t: nat, s': State)
    requires Inv(s) && Step(s, t, s') && !s.pcs[t].Wake?
    ensures |s'.pcs| == |s.pcs| && forall u :: 0 <= u < |s'.pcs| ==> (Holds(s'.pcs[u]) <==> s'.owner == Some(u))
    ensures (s'.locked <==> s'.owner.Some?) && (s'.owner.Some? ==> s'.owner.value < |s'.pcs|)
  {
    assert s'.pcs == s.pcs[t := s'.pcs[t]];
    hide Covered;
  }

  /** Whoever answers for the sleepers passes the duty on. */
  lemma StepCovered(s: State, t: nat, s': State)
    requires Inv(s) && Step(s, t, s') && |s'.pcs| == |s.pcs|
    requires exists u: nat :: u < |s'.pcs| && s'.pcs[u].Sleep?
    ensures Covered(s')
  {
    var z: nat :| z < |s'.pcs| && s'.pcs[z].Sleep?;
    if s.pcs[t].Wake? {
      var u: nat :| u < |s.pcs| && s.pcs[u].Sleep? && s' == Moved(Moved(s, t, Idle), u, Swap);
      assert Answers(s', u);
    } else if s.pcs[t].Wait? && s'.pcs[t].Sleep? {
      assert Answers(s', s.owner.value);
    } else if s.pcs[t].Swap? {
      if s.locked { assert Answers(s', s.owner.value); } else { assert Answers(s', t); }
    } else {
      assert z < |s.pcs| && s.pcs[z].Sleep?;
      var u: nat :| u < |s.pcs| && Answers(s, u);
      if u != t { KeepsAnswering(s, t, s', u); } else { PassesOn(s, t, s'); }
    }
  }

  lemma KeepsAnswering(s: State, t: nat, s': State, u: nat)
    requires Inv(s) && Step(s, t, s') && |s'.pcs| == |s.pcs| && u != t && u < |s.pcs| && Answers(s, u)
    requires !s.pcs[t].Wake? && !s.pcs[t].Swap?
    ensures Covered(s')
  {
    if s.pcs[t].Clear? { assert Answers(s', t); } else { assert Answers(s', u); }
  }

  lemma PassesOn(s: State, t: nat, s': State)
    requires Inv(s) && Step(s, t, s') && |s'.pcs| == |s.pcs| && Answers(s, t)
    requires !s.pcs[t].Wake? && !s.pcs[t].Swap?
    ensures Covered(s')
  {
    if s.pcs[t].Look? && s.locked { assert Answers(s', s.owner.value); } else { assert Answers(s', t); }
  }

  lemma StepInv(s: State, t: nat, s': State)
    requires Inv(s) && Step(s, t, s')
    ensures Inv(s')
  {
    StepOwner(s, t, s');
    if exists u: nat :: u < |s'.pcs| && s'.pcs[u].Sleep? { StepCovered(s, t, s'); }
  }

  lemma {:induction false} RunInv(tr: seq<State>, sched: seq<nat>, i: nat)
    requires Run(tr, sched) && i < |tr|
    ensures Inv(tr[i])
  {
    hide Inv, Step;
    if i == 0 { assert Inv(tr[0]) by { InitInv(tr[0]); } } else { RunInv(tr, sched, i - 1); StepInv(tr[i - 1], sched[i - 1], tr[i]); }
  }

  lemma InitInv(s: State)
    requires Init(s)
    ensures Inv(s)
  {
  }

  lemma MutualExclusion(tr: seq<State>, sched: seq<nat>, i: nat, t: nat, u: nat)
    requires Run(tr, sched) && i < |tr| && t < |tr[i].pcs| && u < |tr[i].pcs| && Holds(tr[i].pcs[t]) && Holds(tr[i].pcs[u])
    ensures t == u
  {
    RunInv(tr, sched, i);
  }

  /** A thread that goes on by itself: neither idle nor asleep. */
  predicate Awake(pc: Pc) { !pc.Idle? && !pc.Sleep? }

  /** No wake-up is lost: while anybody sleeps, some thread is awake that will
      wake a sleeper or leave the lock marked for the next unlock to do so. */
  lemma NoLostWakeup(tr: seq<State>, sched: seq<nat>, i: nat, t: nat) returns (u: nat)
    requires Run(tr, sched) && i < |tr| && t < |tr[i].pcs| && tr[i].pcs[t].Sleep?
    ensures u < |tr[i].pcs| && Awake(tr[i].pcs[u]) && Answers(tr[i], u)
  {
    RunInv(tr, sched, i);
    u :| u < |tr[i].pcs| && Answers(tr[i], u);
  }

  // ------------------------------------------------------------- never stuck

  /** What is left to do until a thread is idle again. */
  function Rank(pc: Pc): nat {
    match pc
    case Idle => 0
    case Sleep => 12
    case Wait => 11
    case Fast(_) => 10
    case Spin => 10
    case Swap => 10
    case Crit => 9
    case Compare => 8
    case Store => 7
    case Look(again) => if again then 5 else 6
    case Clear => 4
    case Wake => 3
  }

  function Ranks(s: State): seq<nat> { seq(|s.pcs|, t requires 0 <= t < |s.pcs| => Rank(s.pcs[t])) }

  function Left(s: State): nat { Total(Ranks(s)) }

  ghost predicate AllIdle(s: State) { forall t :: 0 <= t < |s.pcs| ==> s.pcs[t].Idle? }

  /** The thread can take a step that brings it closer to its end. */
  ghost predicate Closer(s: State, t: nat)
    requires t < |s.pcs|
  {
    exists s' :: Acts(s, t, s') && t < |s'.pcs| && Rank(s'.pcs[t]) < Rank(s.pcs[t])
  }

  /** A step other than waking up for no reason. */
  ghost predicate Acts(s: State, t: nat, s': State) { Step(s, t, s') && !s.pcs[t].Sleep? }

  /** The owner can go on or, while the lock is free, anybody who is awake. */
  lemma SomeGoesOn(s: State, t: nat) returns (u: nat)
    requires Inv(s) && t < |s.pcs| && !s.pcs[t].Idle?
    ensures u < |s.pcs| && Closer(s, u)
  {
    u := t;
    if s.pcs[t].Sleep? {
      assert Covered(s);
      u :| u < |s.pcs| && Answers(s, u);
    }
    if s.locked { u := s.owner.value; }
    AwakeGoesOn(s, u);
  }

  lemma AwakeGoesOn(s: State, t: nat)
    requires Inv(s) && t < |s.pcs| && Awake(s.pcs[t]) && (s.locked ==> s.owner == Some(t))
    ensures Closer(s, t)
  {
    hide Covered;
    var pc := s.pcs[t];
    if pc.Wake? {
      if u: nat :| u < |s.pcs| && s.pcs[u].Sleep? { assert Acts(s, t, Moved(Moved(s, t, Idle), u, Swap)); }
      else { assert Acts(s, t, Moved(s, t, Idle)); }
    } else {
      var s' :=
        if pc.Fast? || pc.Spin? then Moved(s, t, Crit).(locked := true, owner := Some(t))
        else if pc.Swap? then Moved(s, t, Crit).(locked := true, contended := true, owner := Some(t))
        else if pc.Wait? then Moved(s, t, Swap)
        else if pc.Crit? then Moved(s, t, if s.locked && !s.contended then Compare else Store)
        else if pc.Compare? then if s.locked && !s.contended then Moved(s, t, Idle).(locked := false, owner := None) else Moved(s, t, Store)
        else if pc.Store? then Moved(s, t, Look(false)).(locked := false, owner := None)
        else if pc.Look? then Moved(s, t, if s.locked then Idle else if pc.again then Clear else Look(true))
        else Moved(s, t, Wake).(contended := false);
      assert Acts(s, t, s');
    }
  }

  ghost predicate Steps(tr: seq<State>, sched: seq<nat>) {
    && |tr| == |sched| + 1 && forall i :: 0 <= i < |sched| ==> Acts(tr[i], sched[i], tr[i + 1])
  }

  lemma StepOthers(s: State, t: nat, s': State)
    requires Inv(s) && Acts(s, t, s')
    ensures Inv(s') && |s'.pcs| == |s.pcs| && forall u :: 0 <= u < |s.pcs| && u != t ==> Rank(s'.pcs[u]) <= Rank(s.pcs[u])
  {
    StepInv(s, t, s');
    hide Inv;
  }

  lemma Elsewhere(s: State, t: nat, s': State, u: nat)
    requires Acts(s, t, s') && u < |s.pcs| && u != t
    ensures u < |s'.pcs| && (s'.pcs[u] == s.pcs[u] || s'.pcs[u].Swap?)
  {
  }

  lemma StepEnters(s: State, t: nat, s': State, u: nat)
    requires Acts(s, t, s') && u < |s.pcs|
    ensures u < |s'.pcs| && (Entering(s.pcs[u]) ==> Entering(s'.pcs[u]) || s'.pcs[u].Crit?)
  {
    if u != t { Elsewhere(s, t, s', u); }
  }

  lemma {:induction false} Drains(s: State) returns (tr: seq<State>, sched: seq<nat>)
    requires Inv(s)
    ensures Steps(tr, sched) && tr[0] == s && AllIdle(tr[|tr| - 1])
    decreases Left(s)
  {
    hide Inv, Acts;
    if AllIdle(s) {
      tr, sched := [s], [];
    } else {
      var t :| 0 <= t < |s.pcs| && !s.pcs[t].Idle?;
      var u := SomeGoesOn(s, t);
      var s' :| Acts(s, u, s') && u < |s'.pcs| && Rank(s'.pcs[u]) < Rank(s.pcs[u]);
      StepOthers(s, u, s');
      LessLeft(Ranks(s), Ranks(s'), u);
      var tr', sched' := Drains(s');
      tr, sched := [s] + tr', [u] + sched';
      forall i | 0 <= i < |sched| ensures Acts(tr[i], sched[i], tr[i + 1]) {
        if i > 0 { assert Acts(tr'[i - 1], sched'[i - 1], tr'[i]); }
      }
    }
  }

  predicate Entering(pc: Pc) { pc == Fast(true) || pc.Spin? || pc.Swap? || pc.Wait? || pc.Sleep? }

  ghost predicate GotIn(tr: seq<State>, t: nat) {
    exists i :: 0 <= i < |tr| && t < |tr[i].pcs| && tr[i].pcs[t].Crit?
  }

  lemma {:induction false} OnlyThroughSection(tr: seq<State>, sched: seq<nat>, t: nat, n: nat)
    requires Steps(tr, sched) && n < |tr| && t < |tr[0].pcs| && Entering(tr[0].pcs[t])
    ensures t < |tr[n].pcs| && (Entering(tr[n].pcs[t]) || GotIn(tr, t))
  {
    if n > 0 {
      OnlyThroughSection(tr, sched, t, n - 1);
      assert Acts(tr[n - 1], sched[n - 1], tr[n]);
      StepEnters(tr[n - 1], sched[n - 1], tr[n], t);
      hide Acts;
    }
  }

  /** The lock is never stuck: from every state of every run, all threads that are
      at it can get it and all can become idle. */
  lemma NeverStuck(tr: seq<State>, sched: seq<nat>, i: nat) returns (more: seq<State>, sched': seq<nat>)
    requires Run(tr, sched) && i < |tr|
    ensures Steps(more, sched') && more[0] == tr[i] && AllIdle(more[|more| - 1])
    ensures forall t :: 0 <= t < |tr[i].pcs| && Entering(tr[i].pcs[t]) ==> GotIn(more, t)
  {
    RunInv(tr, sched, i);
    more, sched' := Drains(tr[i]);
    hide Inv, Acts, GotIn;
    forall t | 0 <= t < |tr[i].pcs| && Entering(tr[i].pcs[t]) ensures GotIn(more, t) {
      OnlyThroughSection(more, sched', t, |more| - 1);
    }
  }

  /** A trylock succeeds exactly when nobody has the lock. */
  lemma TrySucceeds(tr: seq<State>, sched: seq<nat>, i: nat, t: nat)
    requires Run(tr, sched) && i < |sched| && sched[i] == t && t < |tr[i].pcs| && tr[i].pcs[t] == Fast(false)
    ensures t < |tr[i + 1].pcs| && (tr[i + 1].pcs[t].Crit? <==> forall u :: 0 <= u < |tr[i].pcs| ==> !Holds(tr[i].pcs[u]))
  {
    RunInv(tr, sched, i);
    assert Step(tr[i], t, tr[i + 1]);
  }
}
