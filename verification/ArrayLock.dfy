/** The array lock: a 32-bit counter hands out slots of a flag array; a thread
    waits for its own slot's flag and on leaving sets the next one.

    `line` is auxiliary: the threads that drew a slot, in order, up to the last;
    so is `served`, the number of sections that have ended. */
module ArrayLock {
  import opened Sums

  const SLOTS: nat := 512
  const TWO_32: nat := 0x1_0000_0000

  datatype Pc = Idle | Wait(slot: nat) | Crit(slot: nat) | Reset(slot: nat) | WakeNext(slot: nat)

  datatype State = State(tail: nat, unlocked: seq<bool>, pcs: seq<Pc>, served: nat, line: seq<nat>)

  ghost predicate Shape(s: State) { |s.unlocked| == SLOTS && |s.pcs| <= SLOTS }

  function Moved(s: State, t: nat, pc: Pc): State
    requires t < |s.pcs|
  {
    s.(pcs := s.pcs[t := pc])
  }

  ghost predicate Step(s: State, t: nat, s': State)
    requires Shape(s)
  {
    t < |s.pcs| &&
    match s.pcs[t]
    case Idle => s' == Moved(s, t, Wait(s.tail % SLOTS)).(tail := (s.tail + 1) % TWO_32, line := s.line + [t])
    case Wait(slot) => slot < SLOTS && s.unlocked[slot] && s' == Moved(s, t, Crit(slot))
    case Crit(slot) => s' == Moved(s, t, Reset(slot))
    case Reset(slot) => slot < SLOTS && s' == Moved(s, t, WakeNext(slot)).(unlocked := s.unlocked[slot := false])
    case WakeNext(slot) =>
      && |s.line| > 0
      && s' == Moved(s, t, Idle).(unlocked := s.unlocked[(slot + 1) % SLOTS := true], served := s.served + 1, line := s.line[1..])
  }

  ghost predicate Init(s: State) {
    && Shape(s) && s.tail == 0 && s.served == 0 && s.line == []
    && (forall t :: 0 <= t < |s.pcs| ==> s.pcs[t] == Idle)
    && forall i :: 0 <= i < SLOTS ==> s.unlocked[i] == (i == 0)
  }

  ghost predicate Run(tr: seq<State>, sched: seq<nat>) {
    && |tr| == |sched| + 1 && (forall i :: 0 <= i < |tr| ==> Shape(tr[i]))
    && Init(tr[0]) && forall i :: 0 <= i < |sched| ==> Step(tr[i], sched[i], tr[i + 1])
  }

  function SlotOf(ticket: nat): nat { ticket % SLOTS }

  predicate HasSlot(pc: Pc) { !pc.Idle? }

  /** The slots are those of a ticket counter that never wraps. */
  ghost predicate Inv(s: State) {
    && Shape(s) && s.tail == (s.served + |s.line|) % TWO_32
    && Distinct(s.line, |s.pcs|) && LineIsDrawn(s) && SlotsOk(s) && FlagsOk(s)
  }

  ghost predicate LineIsDrawn(s: State) {
    forall t :: 0 <= t < |s.pcs| ==> (t in s.line <==> HasSlot(s.pcs[t]))
  }

  ghost predicate SlotsOk(s: State)
    requires Distinct(s.line, |s.pcs|)
  {
    forall i :: 0 <= i < |s.line| ==>
      HasSlot(s.pcs[s.line[i]]) && s.pcs[s.line[i]].slot == SlotOf(s.served + i) && (i > 0 ==> s.pcs[s.line[i]].Wait?)
  }

  ghost predicate FlagsOk(s: State)
    requires Shape(s)
  {
    forall i :: 0 <= i < SLOTS ==> (s.unlocked[i] <==> i == SlotOf(s.served) && !Resetting(s))
  }

  /** Between the two stores of an unlock no flag is set. */
  predicate Resetting(s: State) { s.line != [] && s.line[0] < |s.pcs| && s.pcs[s.line[0]].WakeNext? }

  lemma WrapSlot(n: nat)
    ensures (n % TWO_32) % SLOTS == n % SLOTS
  {
    var q, r := n / 0x1_0000_0000, n % 0x1_0000_0000;
    assert n == 512 * (0x80_0000 * q + r / 512) + r % 512;
  }

  lemma WrapNext(n: nat)
    ensures (n % TWO_32 + 1) % TWO_32 == (n + 1) % TWO_32 && (n % SLOTS + 1) % SLOTS == (n + 1) % SLOTS
  {
    NextTail(n);
    NextSlot(n);
  }

  lemma NextTail(n: nat)
    ensures (n % 0x1_0000_0000 + 1) % 0x1_0000_0000 == (n + 1) % 0x1_0000_0000
  {
    var q, r := n / 0x1_0000_0000, n % 0x1_0000_0000;
    assert n + 1 == 0x1_0000_0000 * q + (r + 1);
  }

  lemma NextSlot(n: nat)
    ensures (n % 512 + 1) % 512 == (n + 1) % 512
  {
    var q, r := n / 512, n % 512;
    assert n + 1 == 512 * q + (r + 1);
  }

  /** No more threads than slots draw at once, so no two of them share one. */
  lemma SlotsApart(a: nat, i: nat, j: nat)
    requires i < j < i + SLOTS
    ensures SlotOf(a + i) != SlotOf(a + j)
  {
  }

  ghost predicate Distinct(line: seq<nat>, n: nat) {
    && (forall i, j :: 0 <= i < j < |line| ==> line[i] != line[j])
    && forall i :: 0 <= i < |line| ==> line[i] < n
  }

  lemma {:induction false} LineFits(line: seq<nat>, n: nat)
    requires Distinct(line, n)
    ensures |line| <= n
    decreases n
  {
    assert line == [] || line[0] < n;
    if n == 0 {
    } else if k :| 0 <= k < |line| && line[k] == n - 1 {
      var rest := line[..k] + line[k + 1..];
      assert forall i :: 0 <= i < |rest| ==> rest[i] == line[if i < k then i else i + 1];
      LineFits(rest, n - 1);
    } else {
      LineFits(line, n - 1);
    }
  }

  lemma FirstInLine(s: State, t: nat)
    requires Inv(s) && t < |s.pcs| && HasSlot(s.pcs[t]) && !s.pcs[t].Wait?
    ensures s.line != [] && s.line[0] == t && s.pcs[t].slot == SlotOf(s.served)
  {
    var i :| 0 <= i < |s.line| && s.line[i] == t;
  }

  /** A flag is set only for the first in line. */
  lemma FlagIsFirst(s: State, t: nat)
    requires Inv(s) && t < |s.pcs| && s.pcs[t].Wait? && s.pcs[t].slot < SLOTS && s.unlocked[s.pcs[t].slot]
    ensures s.line != [] && s.line[0] == t
  {
    var i :| 0 <= i < |s.line| && s.line[i] == t;
    LineFits(s.line, |s.pcs|);
    if i > 0 { SlotsApart(s.served, 0, i); }
  }

  lemma StepInv(s: State, t: nat, s': State)
    requires Inv(s) && Step(s, t, s')
    ensures Inv(s')
  {
    if s.pcs[t].Idle? {
      DrawInv(s, t, s');
    } else if s.pcs[t].WakeNext? {
      WakeInv(s, t, s');
    } else {
      if s.pcs[t].Wait? { FlagIsFirst(s, t); } else { FirstInLine(s, t); }
      HolderInv(s, t, s');
    }
  }

  /** The first in line goes on; nobody else's slot is concerned. */
  lemma HolderInv(s: State, t: nat, s': State)
    requires Inv(s) && Step(s, t, s') && (s.pcs[t].Wait? || s.pcs[t].Crit? || s.pcs[t].Reset?)
    requires s.line != [] && s.line[0] == t
    ensures Inv(s')
  {
    assert SlotsOk(s') && LineIsDrawn(s') by { hide FlagsOk, SlotOf; }
    hide LineIsDrawn, SlotOf;
  }

  lemma DrawInv(s: State, t: nat, s': State)
    requires Inv(s) && Step(s, t, s') && s.pcs[t].Idle?
    ensures Inv(s')
  {
    var n := |s.line|;
    WrapSlot(s.served + n);
    WrapNext(s.served + n);
    assert s'.pcs[t].slot == SlotOf(s.served + n);
    DrawLine(s, t, s');
    hide SlotOf, SlotsOk, LineIsDrawn;
    assert n > 0 ==> s'.line[0] == s.line[0] && s.line[0] != t by { if n > 0 { assert s.line[0] in s.line; NotDrawn(s, t); } }
  }

  lemma NotDrawn(s: State, t: nat)
    requires Inv(s) && t < |s.pcs| && s.pcs[t].Idle?
    ensures t !in s.line
  {
  }

  lemma DrawLine(s: State, t: nat, s': State)
    requires Inv(s) && Step(s, t, s') && s.pcs[t].Idle? && s'.pcs[t].slot == SlotOf(s.served + |s.line|)
    ensures Distinct(s'.line, |s'.pcs|) && LineIsDrawn(s') && SlotsOk(s')
  {
    hide FlagsOk, SlotOf;
    var n := |s.line|;
    assert s'.line[n] == t;
    assert forall i :: 0 <= i < n ==> s'.line[i] == s.line[i] && s.line[i] in s.line;
    assert Distinct(s'.line, |s'.pcs|) && SlotsOk(s') by { NotDrawn(s, t); hide LineIsDrawn; }
    assert LineIsDrawn(s') by {
      hide SlotsOk, Distinct;
      assert forall u :: u in s'.line <==> u in s.line || u == t;
    }
  }

  lemma WakeInv(s: State, t: nat, s': State)
    requires Inv(s) && Step(s, t, s') && s.pcs[t].WakeNext?
    ensures Inv(s')
  {
    FirstInLine(s, t);
    WrapNext(s.served);
    WakeLine(s, t, s');
    assert !Resetting(s') by {
      if s'.line != [] { assert s'.line[0] == s.line[1]; assert s.pcs[s.line[1]].Wait?; }
    }
    hide LineIsDrawn, SlotsOk;
  }

  lemma WakeLine(s: State, t: nat, s': State)
    requires Inv(s) && Step(s, t, s') && s.pcs[t].WakeNext? && s.line != [] && s.line[0] == t
    ensures Distinct(s'.line, |s'.pcs|) && LineIsDrawn(s') && SlotsOk(s')
  {
    hide FlagsOk, SlotOf;
    assert forall i :: 0 <= i < |s'.line| ==> s'.line[i] == s.line[i + 1];
    assert Distinct(s'.line, |s'.pcs|) by { hide SlotsOk, LineIsDrawn; }
    assert LineIsDrawn(s') by { WakeDrawn(s, t, s'); }
    hide LineIsDrawn;
    forall i | 0 <= i < |s'.line|
      ensures HasSlot(s'.pcs[s'.line[i]]) && s'.pcs[s'.line[i]].slot == SlotOf(s'.served + i) && s'.pcs[s'.line[i]].Wait?
    {
      assert s.line[i + 1] != s.line[0];
      assert s'.served + i == s.served + (i + 1);
    }
  }

  lemma WakeDrawn(s: State, t: nat, s': State)
    requires Inv(s) && Step(s, t, s') && s.pcs[t].WakeNext? && s.line != [] && s.line[0] == t
    ensures LineIsDrawn(s')
  {
    hide FlagsOk, SlotOf, SlotsOk;
    assert s.line == [t] + s'.line;
    assert forall u :: u in s.line <==> u == t || u in s'.line;
    assert t !in s'.line by { assert forall i :: 0 <= i < |s'.line| ==> s'.line[i] == s.line[i + 1]; }
    hide Distinct;
  }

  lemma {:induction false} RunInv(tr: seq<State>, sched: seq<nat>, i: nat)
    requires Run(tr, sched) && i < |tr|
    ensures Inv(tr[i])
  {
    hide Inv, Step;
    if i == 0 { InitInv(tr[0]); } else { RunInv(tr, sched, i - 1); StepInv(tr[i - 1], sched[i - 1], tr[i]); }
  }

  lemma InitInv(s: State)
    requires Init(s)
    ensures Inv(s)
  {
  }

  /** With at most as many threads as slots the array refines the counter, the
      wrap of the 32-bit tail included: at most one flag is set, the one of the
      oldest slot drawn and not yet given back. */
  lemma FlagsRefineCounter(tr: seq<State>, sched: seq<nat>, i: nat, k: nat)
    requires Run(tr, sched) && i < |tr| && k < SLOTS && tr[i].unlocked[k]
    ensures k == SlotOf(tr[i].served)
    ensures forall t :: 0 <= t < |tr[i].pcs| && HasSlot(tr[i].pcs[t]) && tr[i].pcs[t].slot == k ==> tr[i].line != [] && tr[i].line[0] == t
  {
    hide Run;
    RunInv(tr, sched, i);
    var s := tr[i];
    forall t | 0 <= t < |s.pcs| && HasSlot(s.pcs[t]) && s.pcs[t].slot == k ensures s.line != [] && s.line[0] == t {
      if s.pcs[t].Wait? { FlagIsFirst(s, t); } else { FirstInLine(s, t); }
    }
  }

  /** From the moment the flag is seen to the last store of the unlock. */
  predicate HoldsLock(pc: Pc) { HasSlot(pc) && !pc.Wait? }

  lemma MutualExclusion(tr: seq<State>, sched: seq<nat>, i: nat, t: nat, u: nat)
    requires Run(tr, sched) && i < |tr| && t < |tr[i].pcs| && u < |tr[i].pcs|
    requires HoldsLock(tr[i].pcs[t]) && HoldsLock(tr[i].pcs[u])
    ensures t == u
  {
    RunInv(tr, sched, i);
    FirstInLine(tr[i], t);
    FirstInLine(tr[i], u);
  }

  // ------------------------------------------------------------- never stuck

  /** What is left to do until a thread is idle again. */
  function Rank(pc: Pc): nat {
    match pc
    case Idle => 0
    case Wait(_) => 4
    case Crit(_) => 3
    case Reset(_) => 2
    case WakeNext(_) => 1
  }

  function Ranks(s: State): seq<nat> { seq(|s.pcs|, t requires 0 <= t < |s.pcs| => Rank(s.pcs[t])) }

  function Left(s: State): nat { Total(Ranks(s)) }

  ghost predicate AllIdle(s: State) { forall t :: 0 <= t < |s.pcs| ==> s.pcs[t].Idle? }

  /** The thread can take a step that brings it closer to its end. */
  ghost predicate Closer(s: State, t: nat)
    requires Shape(s)
  {
    exists s' :: Step(s, t, s') && t < |s'.pcs| && Rank(s'.pcs[t]) < Rank(s.pcs[t])
  }

  /** The first in line can go on. */
  lemma SomeGoesOn(s: State, t: nat) returns (u: nat)
    requires Inv(s) && Shape(s) && t < |s.pcs| && !s.pcs[t].Idle?
    ensures u < |s.pcs| && Closer(s, u)
  {
    u := s.line[0];
    var pc := s.pcs[u];
    assert HasSlot(pc) && pc.slot == SlotOf(s.served + 0);
    hide Inv;
    var s' :=
      if pc.Wait? then Moved(s, u, Crit(pc.slot))
      else if pc.Crit? then Moved(s, u, Reset(pc.slot))
      else if pc.Reset? then Moved(s, u, WakeNext(pc.slot)).(unlocked := s.unlocked[pc.slot := false])
      else Moved(s, u, Idle).(unlocked := s.unlocked[(pc.slot + 1) % SLOTS := true], served := s.served + 1, line := s.line[1..]);
    assert Step(s, u, s');
  }

  ghost predicate Steps(tr: seq<State>, sched: seq<nat>) {
    && |tr| == |sched| + 1 && (forall i :: 0 <= i < |tr| ==> Shape(tr[i]))
    && forall i :: 0 <= i < |sched| ==> Step(tr[i], sched[i], tr[i + 1])
  }

  lemma StepOthers(s: State, t: nat, s': State)
    requires Shape(s) && Step(s, t, s') && Inv(s')
    ensures Shape(s') && |s'.pcs| == |s.pcs| && forall u :: 0 <= u < |s.pcs| && u != t ==> s'.pcs[u] == s.pcs[u]
  {
    hide LineIsDrawn, SlotsOk, FlagsOk;
  }

  lemma StepEnters(s: State, t: nat, s': State, u: nat)
    requires Shape(s) && Step(s, t, s') && u < |s.pcs|
    ensures u < |s'.pcs| && (Entering(s.pcs[u]) ==> Entering(s'.pcs[u]) || s'.pcs[u].Crit?)
  {
  }

  lemma {:induction false} Drains(s: State) returns (tr: seq<State>, sched: seq<nat>)
    requires Inv(s) && Shape(s)
    ensures Steps(tr, sched) && tr[0] == s && AllIdle(tr[|tr| - 1])
    decreases Left(s)
  {
    hide Inv, Step;
    if AllIdle(s) {
      tr, sched := [s], [];
    } else {
      var t :| 0 <= t < |s.pcs| && !s.pcs[t].Idle?;
      var u := SomeGoesOn(s, t);
      var s' :| Step(s, u, s') && u < |s'.pcs| && Rank(s'.pcs[u]) < Rank(s.pcs[u]);
      StepInv(s, u, s');
      StepOthers(s, u, s');
      LessLeft(Ranks(s), Ranks(s'), u);
      var tr', sched' := Drains(s');
      tr, sched := [s] + tr', [u] + sched';
      forall i | 0 <= i < |sched| ensures Step(tr[i], sched[i], tr[i + 1]) {
        if i > 0 { assert Step(tr'[i - 1], sched'[i - 1], tr'[i]); }
      }
    }
  }

  predicate Entering(pc: Pc) { pc.Wait? }

  ghost predicate GotIn(tr: seq<State>, t: nat) {
    exists i :: 0 <= i < |tr| && t < |tr[i].pcs| && tr[i].pcs[t].Crit?
  }

  lemma {:induction false} OnlyThroughSection(tr: seq<State>, sched: seq<nat>, t: nat, n: nat)
    requires Steps(tr, sched) && n < |tr| && t < |tr[0].pcs| && Entering(tr[0].pcs[t])
    ensures t < |tr[n].pcs| && (Entering(tr[n].pcs[t]) || GotIn(tr, t))
  {
    if n > 0 {
      OnlyThroughSection(tr, sched, t, n - 1);
      assert Step(tr[n - 1], sched[n - 1], tr[n]);
      StepEnters(tr[n - 1], sched[n - 1], tr[n], t);
      hide Step;
    }
  }

  /** The lock is never stuck: from every state of every run, all threads that are
      at it can get it and all can become idle. */
  lemma NeverStuck(tr: seq<State>, sched: seq<nat>, i: nat) returns (more: seq<State>, sched': seq<nat>)
    requires Run(tr, sched) && i < |tr|
    ensures Steps(more, sched') && more[0] == tr[i] && AllIdle(more[|more| - 1])
    ensures forall t :: 0 <= t < |tr[i].pcs| && Entering(tr[i].pcs[t]) ==> GotIn(more, t)
  {
    RunInv(tr, sched, i);
    more, sched' := Drains(tr[i]);
    hide Inv, Step, GotIn;
    forall t | 0 <= t < |tr[i].pcs| && Entering(tr[i].pcs[t]) ensures GotIn(more, t) {
      OnlyThroughSection(more, sched', t, |more| - 1);
    }
  }
}
