/** The cohort locks are never stuck, and a trylock gets a lock that is free. */
module CohortProgress {
  import opened Options
  import opened Sums
  import opened Cohort

  /** What is left to do until a thread is idle again. */
  function Rank(g: Config, pc: Pc): nat {
    match pc
    case Idle => 0
    case Queued(_, _, _) => 14
    case Entered(_, _) => 13
    case NeedTop(_, trying) => if trying then 12 else 9
    case PeekSlot(_, _) => 11
    case PeekReq(_, _) => 10
    case TopWait(_, _) => 8
    case SetHome(_, _) => 7
    case Crit(_) => 6
    case Look(_) => 5
    case PassLocal(_) => 4
    case RelTop(_) => if g.top.Tas? then 1 else 2
    case RelLocal(_) => if g.top.Tas? then 2 else 1
    case Undo(_) => 1
  }

  function Ranks(g: Config, s: State): seq<nat> { seq(|s.pcs|, t requires 0 <= t < |s.pcs| => Rank(g, s.pcs[t])) }

  function Left(g: Config, s: State): nat { Total(Ranks(g, s)) }

  lemma StepElsewhere(g: Config, s: State, t: nat, s': State)
    requires Shape(g, s) && Step(g, s, t, s')
    ensures Shape(g, s') && |s'.pcs| == |s.pcs| && forall u :: 0 <= u < |s.pcs| && u != t ==> s'.pcs[u] == s.pcs[u]
  {
    var pc := s.pcs[t];
    if pc.Look? || pc.PassLocal? || pc.RelTop? || pc.RelLocal? || pc.Undo? {
      LeaverElsewhere(g, s, t, s');
      hide Step;
    } else {
      hide Detect, FreeLocal, FreeTop;
    }
  }

  lemma LeaverElsewhere(g: Config, s: State, t: nat, s': State)
    requires Shape(g, s) && Step(g, s, t, s')
    requires var pc := s.pcs[t]; pc.Look? || pc.PassLocal? || pc.RelTop? || pc.RelLocal? || pc.Undo?
    ensures Shape(g, s') && |s'.pcs| == |s.pcs| && forall u :: 0 <= u < |s.pcs| && u != t ==> s'.pcs[u] == s.pcs[u]
  {
    if s.pcs[t].Look? {
      assert Detect(g, s, t, s');
      hide Step, FreeLocal, FreeTop;
    } else if s.pcs[t].RelTop? {
      assert FreeTop(g, s, t, s');
      hide Step, FreeLocal, Detect;
    } else {
      assert FreeLocal(g, s, t, s');
      hide Step, Detect, FreeTop, Released;
    }
  }

  /** A step that brings its thread closer to its end. */
  ghost predicate Closer(g: Config, s: State, t: nat, s': State)
    requires Shape(g, s)
  {
    Step(g, s, t, s') && t < |s'.pcs| && t < |s.pcs| && Rank(g, s'.pcs[t]) < Rank(g, s.pcs[t])
  }

  // ------------------------------------------------------------ who goes on

  /** The thread waits for nothing. */
  ghost predicate Free(g: Config, s: State, t: nat)
    requires Shape(g, s) && t < |s.pcs|
  {
    match s.pcs[t]
    case Idle => false
    case Queued(c, k, _) => c < |s.local| && if g.top.Tas? then s.local[c].line != [] && s.local[c].line[0] == t else s.local[c].grant == k
    case NeedTop(_, trying) => g.top.Tas? && s.locked ==> trying
    case TopWait(_, k) => if g.top.Slots? then s.slots[k % g.top.n] == k else s.tgrant == k
    case Crit(_) => s.home.Some? && s.home.value < |s.local|
    case RelTop(_) => true
    case PeekSlot(_, _) => g.top.Slots?
    case PeekReq(_, _) => g.top.Slots?
    case Entered(c, _) => c < |s.local|
    case SetHome(c, _) => c < |s.local|
    case Look(c) => c < |s.local|
    case PassLocal(c) => c < |s.local|
    case RelLocal(c) => c < |s.local|
    case Undo(c) => c < |s.local|
  }

  lemma EntrantGoesOn(g: Config, s: State, t: nat) returns (s': State)
    requires Shape(g, s) && t < |s.pcs| && Free(g, s, t)
    requires var pc := s.pcs[t]; pc.Queued? || pc.Entered? || pc.NeedTop? || pc.PeekSlot? || pc.PeekReq? || pc.TopWait? || pc.SetHome?
    ensures Closer(g, s, t, s')
  {
    var pc := s.pcs[t];
    match pc {
    case Queued(c, _, trying) => s' := Moved(s, t, Entered(c, trying));
    case Entered(c, trying) =>
      var d := s.local[c];
      s' := if d.topGrant then SetLocal(Moved(s, t, Crit(c)), c, d.(topGrant := false)) else Moved(s, t, NeedTop(c, trying));
    case NeedTop(c, trying) => s' := Asked(g, s, t);
    case PeekSlot(c, k) => s' := Moved(s, t, PeekReq(c, s.slots[k % g.top.n]));
    case PeekReq(c, v) => s' := Moved(s, t, if v != s.treq then Undo(c) else NeedTop(c, false));
    case TopWait(c, k) => s' := Moved(s, t, SetHome(c, k));
    case SetHome(c, k) => s' := SetLocal(Moved(s, t, Crit(c)), c, s.local[c].(passes := 0)).(home := Some(c), ownerTicket := k);
    }
  }

  function Asked(g: Config, s: State, t: nat): State
    requires Shape(g, s) && t < |s.pcs| && s.pcs[t].NeedTop?
  {
    var c, trying := s.pcs[t].c, s.pcs[t].trying;
    if g.top.Tas? then
      if !s.locked then Moved(s, t, SetHome(c, 0)).(locked := true, topLine := [c]) else Moved(s, t, Undo(c))
    else if g.top.Slots? && trying then Moved(s, t, PeekSlot(c, s.treq))
    else if trying && s.treq != s.tgrant then Moved(s, t, Undo(c))
    else Moved(s, t, if trying then SetHome(c, s.treq) else TopWait(c, s.treq)).(treq := s.treq + 1, topLine := s.topLine + [c])
  }

  lemma LeaverGoesOn(g: Config, s: State, t: nat) returns (s': State)
    requires Shape(g, s) && t < |s.pcs| && Free(g, s, t)
    requires var pc := s.pcs[t]; pc.Crit? || pc.Look? || pc.PassLocal? || pc.RelTop? || pc.RelLocal? || pc.Undo?
    ensures Closer(g, s, t, s')
  {
    var pc := s.pcs[t];
    var c := pc.c;
    if pc.Crit? { s' := Moved(s, t, Look(s.home.value)); }
    else if pc.Look? {
      var d := s.local[c];
      var there := if g.top.Tas? then d.line != [] && d.line[|d.line| - 1] != t else d.request != d.grant + 1;
      var rel := if g.top.Tas? then RelLocal(c) else RelTop(c);
      s' := if !there then Moved(s, t, rel)
            else if d.batch - 1 >= 0 then
              SetLocal(Moved(s, t, PassLocal(c)), c, d.(batch := d.batch - 1, topGrant := true, passes := d.passes + 1))
            else SetLocal(Moved(s, t, rel), c, d.(batch := BATCH_COUNT));
    } else if pc.RelTop? {
      var rest := if s.topLine == [] then [] else s.topLine[1..];
      s' := if g.top.Tas? then Moved(s, t, Idle).(locked := false, topLine := [])
            else if g.top.Tickets? then Moved(s, t, RelLocal(c)).(tgrant := s.tgrant + 1, topLine := rest)
            else Moved(s, t, RelLocal(c)).(slots := s.slots[(s.ownerTicket + 1) % g.top.n := s.ownerTicket + 1], tgrant := s.tgrant + 1, topLine := rest);
    } else {
      s' := SetLocal(Moved(s, t, if pc.RelLocal? && g.top.Tas? then RelTop(c) else Idle), c, Released(s.local[c]));
    }
  }

  lemma FreeGoesOn(g: Config, s: State, t: nat) returns (s': State)
    requires Shape(g, s) && t < |s.pcs| && Free(g, s, t)
    ensures Closer(g, s, t, s')
  {
    hide Closer;
    var pc := s.pcs[t];
    if pc.Queued? || pc.Entered? || pc.NeedTop? || pc.PeekSlot? || pc.PeekReq? || pc.TopWait? || pc.SetHome? {
      s' := EntrantGoesOn(g, s, t);
    } else {
      s' := LeaverGoesOn(g, s, t);
    }
  }

  /** The first thread of a line waits at most for the top lock. */
  lemma HeadWaits(g: Config, s: State, c: nat) returns (u: nat)
    requires Inv(g, s) && Shape(g, s) && c < g.cohorts && s.local[c].line != []
    ensures u < |s.pcs| && u == s.local[c].line[0] && HeadPc(s, c) == s.pcs[u] && !s.pcs[u].Idle?
    ensures Free(g, s, u) || (s.pcs[u].NeedTop? && g.top.Tas? && s.locked) || (s.pcs[u].TopWait? && s.pcs[u].k != s.tgrant)
  {
    assert LineOk(g, s, c) && CohortOk(g, s, c);
    u := s.local[c].line[0];
    if s.pcs[u].TopWait? { TurnIsFirst(g, s, u); }
    hide TopOk, ThreadOk, Leaving;
  }

  /** Whoever has the top lock goes on. */
  lemma TopGoesOn(g: Config, s: State) returns (u: nat)
    requires Inv(g, s) && Shape(g, s) && s.topLine != []
    ensures u < |s.pcs| && Free(g, s, u)
  {
    var c := s.topLine[0];
    assert CohortOk(g, s, c) && LineOk(g, s, c);
    if Leaving(g, s, c) {
      u :| 0 <= u < |s.pcs| && s.pcs[u] == RelTop(c);
    } else {
      hide Free;
      assert s.local[c].line != [];
      hide LineOk, ThreadOk, Leaving;
      u := HeadWaits(g, s, c);
    }
  }

  /** While any thread is at the lock, some thread can go on. */
  lemma SomeGoesOn(g: Config, s: State, t: nat) returns (u: nat, s': State)
    requires Inv(g, s) && Shape(g, s) && t < |s.pcs| && !s.pcs[t].Idle?
    ensures u < |s.pcs| && Closer(g, s, u, s')
  {
    hide Closer;
    u := t;
    assert ThreadOk(g, s, t);
    if InLine(g, s.pcs[t]).Some? {
      var c := InLine(g, s.pcs[t]).value;
      assert s.local[c].line != [];
      u := HeadWaits(g, s, c);
      if !Free(g, s, u) {
        TopTaken(g, s, c, u);
        u := TopGoesOn(g, s);
      }
    }
    hide Inv, ThreadOk;
    s' := FreeGoesOn(g, s, u);
  }

  lemma TopTaken(g: Config, s: State, c: nat, u: nat)
    requires Inv(g, s) && c < g.cohorts && u < |s.pcs| && HeadPc(s, c) == s.pcs[u]
    requires (s.pcs[u].NeedTop? && g.top.Tas? && s.locked) || s.pcs[u].TopWait?
    ensures s.topLine != []
  {
    assert CohortOk(g, s, c);
    hide LineOk, ThreadOk, Leaving;
  }

  // ------------------------------------------------------------- never stuck

  ghost predicate AllIdle(s: State) { forall t :: 0 <= t < |s.pcs| ==> s.pcs[t].Idle? }

  ghost predicate Steps(g: Config, tr: seq<State>, sched: seq<nat>) {
    && |tr| == |sched| + 1 && (forall i :: 0 <= i < |tr| ==> Shape(g, tr[i]))
    && forall i :: 0 <= i < |sched| ==> Step(g, tr[i], sched[i], tr[i + 1])
  }

  lemma {:induction false} Drains(g: Config, s: State) returns (tr: seq<State>, sched: seq<nat>)
    requires Inv(g, s) && Shape(g, s)
    ensures Steps(g, tr, sched) && tr[0] == s && AllIdle(tr[|tr| - 1])
    decreases Left(g, s)
  {
    hide Inv, Step, Rank;
    if AllIdle(s) {
      tr, sched := [s], [];
    } else {
      var t :| 0 <= t < |s.pcs| && !s.pcs[t].Idle?;
      var u, s' := SomeGoesOn(g, s, t);
      StepInv(g, s, u, s');
      StepElsewhere(g, s, u, s');
      LessLeft(Ranks(g, s), Ranks(g, s'), u);
      var tr', sched' := Drains(g, s');
      tr, sched := [s] + tr', [u] + sched';
      forall i | 0 <= i < |sched| ensures Step(g, tr[i], sched[i], tr[i + 1]) {
        if i > 0 { assert Step(g, tr'[i - 1], sched'[i - 1], tr'[i]); }
      }
    }
  }

  /** On the way to the lock with no way back. */
  predicate Entering(pc: Pc) {
    ((pc.Queued? || pc.Entered? || pc.NeedTop?) && !pc.trying) || pc.TopWait? || pc.SetHome?
  }

  ghost predicate GotIn(tr: seq<State>, t: nat) {
    exists i :: 0 <= i < |tr| && t < |tr[i].pcs| && tr[i].pcs[t].Crit?
  }

  lemma StepEnters(g: Config, s: State, t: nat, s': State, u: nat)
    requires Shape(g, s) && Step(g, s, t, s') && u < |s.pcs|
    ensures u < |s'.pcs| && (Entering(s.pcs[u]) ==> Entering(s'.pcs[u]) || s'.pcs[u].Crit?)
  {
    StepElsewhere(g, s, t, s');
    hide Join, BeginUnlock, Detect, FreeLocal, FreeTop;
  }

  lemma {:induction false} OnlyThroughSection(g: Config, tr: seq<State>, sched: seq<nat>, t: nat, n: nat)
    requires Steps(g, tr, sched) && n < |tr| && t < |tr[0].pcs| && Entering(tr[0].pcs[t])
    ensures t < |tr[n].pcs| && (Entering(tr[n].pcs[t]) || GotIn(tr, t))
  {
    if n > 0 {
      OnlyThroughSection(g, tr, sched, t, n - 1);
      assert Step(g, tr[n - 1], sched[n - 1], tr[n]);
      StepEnters(g, tr[n - 1], sched[n - 1], tr[n], t);
      hide Step;
    }
  }

  /** The lock is never stuck: from every state of every run, all threads that are
      at it can get it and all can become idle. */
  lemma NeverStuck(g: Config, tr: seq<State>, sched: seq<nat>, i: nat) returns (more: seq<State>, sched': seq<nat>)
    requires Run(g, tr, sched) && i < |tr|
    ensures Steps(g, more, sched') && more[0] == tr[i] && AllIdle(more[|more| - 1])
    ensures forall t :: 0 <= t < |tr[i].pcs| && Entering(tr[i].pcs[t]) ==> GotIn(more, t)
  {
    RunInv(g, tr, sched, i);
    more, sched' := Drains(g, tr[i]);
    hide Inv, Step, GotIn;
    forall t | 0 <= t < |tr[i].pcs| && Entering(tr[i].pcs[t]) ensures GotIn(more, t) {
      OnlyThroughSection(g, more, sched', t, |more| - 1);
    }
  }

  // ---------------------------------------------------------------- trylocks

  lemma NobodyThere(g: Config, s: State)
    requires Inv(g, s) && Shape(g, s) && AllIdle(s)
    ensures s.topLine == [] && if g.top.Tas? then !s.locked else s.treq == s.tgrant
    ensures g.top.Slots? ==> s.slots[s.treq % g.top.n] == s.treq
    ensures forall c :: 0 <= c < g.cohorts ==> s.local[c].line == [] && s.local[c].request == s.local[c].grant && !s.local[c].topGrant
  {
    forall c | 0 <= c < g.cohorts ensures s.local[c].line == [] && s.local[c].request == s.local[c].grant && !s.local[c].topGrant {
      assert LineOk(g, s, c) && CohortOk(g, s, c);
    }
    if s.topLine != [] { SomebodyHasTop(g, s); }
    hide LineOk, CohortOk, ThreadOk;
  }

  lemma SomebodyHasTop(g: Config, s: State)
    requires Inv(g, s) && Shape(g, s) && s.topLine != []
    ensures !AllIdle(s)
  {
    var u := TopGoesOn(g, s);
    hide Inv;
  }

  /** How many steps a trylock takes that meets nobody. */
  function TrySteps(g: Config): nat { if g.top.Slots? then 9 else 5 }

  /** A trylock that starts when nobody is at the lock, with nobody else moving
      meanwhile, gets its cohort's lock at once and then the lock. */
  lemma TryAlone(g: Config, tr: seq<State>, sched: seq<nat>, i: nat, t: nat, c: nat)
    requires Run(g, tr, sched) && i < |tr| && t < |tr[i].pcs| && AllIdle(tr[i]) && c < g.cohorts
    ensures exists s' :: JoinAs(tr[i], t, c, true, s')
    ensures (
      && i + TrySteps(g) < |tr| && (forall j :: i <= j < i + TrySteps(g) ==> sched[j] == t)
      && t < |tr[i + 1].pcs| && tr[i + 1].pcs[t].Queued? && tr[i + 1].pcs[t].c == c && tr[i + 1].pcs[t].trying
      ==> var n := i + TrySteps(g); t < |tr[n].pcs| && tr[n].pcs[t] == Crit(c))
  {
    var s := tr[i];
    RunInv(g, tr, sched, i);
    NobodyThere(g, s);
    hide Inv;
    var d := s.local[c];
    assert JoinAs(s, t, c, true, SetLocal(Moved(s, t, Queued(c, d.request, true)), c, d.(request := d.request + 1, line := d.line + [t])));
    if i + TrySteps(g) < |tr| && (forall j :: i <= j < i + TrySteps(g) ==> sched[j] == t) && tr[i + 1].pcs[t].Queued?
      && tr[i + 1].pcs[t].c == c && tr[i + 1].pcs[t].trying {
      TryRuns(g, tr, sched, i, t, c);
    }
  }

  /** The trylock has its cohort's lock and found no grant. */
  lemma TryEnters(g: Config, s: State, s1: State, s2: State, s3: State, t: nat, c: nat)
    requires Shape(g, s) && Shape(g, s1) && Shape(g, s2) && t < |s.pcs| && c < g.cohorts && s.pcs[t].Idle? && !s.local[c].topGrant
    requires Step(g, s, t, s1) && Step(g, s1, t, s2) && Step(g, s2, t, s3)
    requires t < |s1.pcs| && s1.pcs[t].Queued? && s1.pcs[t].c == c && s1.pcs[t].trying
    ensures t < |s3.pcs| && s3.pcs[t] == NeedTop(c, true)
    ensures s3.topLine == s.topLine && s3.locked == s.locked && s3.treq == s.treq && s3.tgrant == s.tgrant && s3.slots == s.slots
  {
  }

  lemma TryTakes(g: Config, s3: State, s4: State, s5: State, t: nat, c: nat)
    requires Shape(g, s3) && Shape(g, s4) && t < |s3.pcs| && c < g.cohorts && s3.pcs[t] == NeedTop(c, true) && !g.top.Slots?
    requires Step(g, s3, t, s4) && Step(g, s4, t, s5) && if g.top.Tas? then !s3.locked else s3.treq == s3.tgrant
    ensures t < |s5.pcs| && s5.pcs[t] == Crit(c)
  {
  }

  lemma TryLooks(g: Config, s3: State, s4: State, s5: State, s6: State, t: nat, c: nat)
    requires Shape(g, s3) && Shape(g, s4) && Shape(g, s5) && t < |s3.pcs| && c < g.cohorts && s3.pcs[t] == NeedTop(c, true) && g.top.Slots?
    requires Step(g, s3, t, s4) && Step(g, s4, t, s5) && Step(g, s5, t, s6) && s3.slots[s3.treq % g.top.n] == s3.treq
    ensures t < |s6.pcs| && s6.pcs[t] == NeedTop(c, false) && s6.treq == s3.treq && s6.slots == s3.slots
  {
  }

  lemma TryWaits(g: Config, s6: State, s7: State, s8: State, s9: State, t: nat, c: nat)
    requires Shape(g, s6) && Shape(g, s7) && Shape(g, s8) && t < |s6.pcs| && c < g.cohorts && s6.pcs[t] == NeedTop(c, false) && g.top.Slots?
    requires Step(g, s6, t, s7) && Step(g, s7, t, s8) && Step(g, s8, t, s9)
    ensures t < |s9.pcs| && s9.pcs[t] == Crit(c)
  {
  }

  lemma TryRuns(g: Config, tr: seq<State>, sched: seq<nat>, i: nat, t: nat, c: nat)
    requires Run(g, tr, sched) && i + TrySteps(g) < |tr| && t < |tr[i].pcs| && AllIdle(tr[i]) && c < g.cohorts
    requires forall j :: i <= j < i + TrySteps(g) ==> sched[j] == t
    requires t < |tr[i + 1].pcs| && tr[i + 1].pcs[t].Queued? && tr[i + 1].pcs[t].c == c && tr[i + 1].pcs[t].trying
    ensures var n := i + TrySteps(g); t < |tr[n].pcs| && tr[n].pcs[t] == Crit(c)
  {
    RunInv(g, tr, sched, i);
    NobodyThere(g, tr[i]);
    hide Inv, Init, Step;
    forall j | i <= j < i + TrySteps(g) ensures Step(g, tr[j], t, tr[j + 1]) { assert sched[j] == t; }
    assert Step(g, tr[i], t, tr[i + 1]) && Step(g, tr[i + 1], t, tr[i + 2]);
    TryEnters(g, tr[i], tr[i + 1], tr[i + 2], tr[i + 3], t, c);
    if g.top.Slots? {
      TryLooks(g, tr[i + 3], tr[i + 4], tr[i + 5], tr[i + 6], t, c);
      TryWaits(g, tr[i + 6], tr[i + 7], tr[i + 8], tr[i + 9], t, c);
    } else {
      TryTakes(g, tr[i + 3], tr[i + 4], tr[i + 5], t, c);
    }
  }
}
