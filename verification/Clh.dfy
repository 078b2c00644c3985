/** The CLH lock: a thread queues with the node it owns, waits on its
    predecessor's node, and takes that node over when it gets the lock.

    With n threads there are n + 1 nodes; node n is embedded in the lock.
    `line` and `chain` are auxiliary: the threads that queue, in order, and the
    nodes from the first one's predecessor to the tail. */
module Clh {
  import opened Options
  import opened Sums

  datatype Pc = Idle | Xchg | Wait(pred: nat) | SetHead(pred: nat) | Take(pred: nat) | Crit

  datatype State = State(unlocked: seq<bool>, current: seq<nat>, tail: nat, head: Option<nat>, pcs: seq<Pc>,
                         line: seq<nat>, chain: seq<nat>)

  ghost predicate Shape(s: State) {
    |s.pcs| == |s.current| && |s.unlocked| == |s.pcs| + 1
  }

  function Moved(s: State, t: nat, pc: Pc): State
    requires t < |s.pcs|
  {
    s.(pcs := s.pcs[t := pc])
  }

  ghost predicate Step(s: State, t: nat, s': State)
    requires Shape(s)
  {
    t < |s.pcs| &&
    match s.pcs[t]
    case Idle => s.current[t] < |s.unlocked| && s' == Moved(s, t, Xchg).(unlocked := s.unlocked[s.current[t] := false])
    case Xchg =>
      s' == Moved(s, t, Wait(s.tail)).(tail := s.current[t], line := s.line + [t], chain := s.chain + [s.current[t]])
    case Wait(pred) => pred < |s.unlocked| && s.unlocked[pred] && s' == Moved(s, t, SetHead(pred))
    case SetHead(pred) => s' == Moved(s, t, Take(pred)).(head := Some(s.current[t]))
    case Take(pred) => s' == Moved(s, t, Crit).(current := s.current[t := pred])
    case Crit =>
      && s.head.Some? && s.head.value < |s.unlocked| && |s.line| > 0 && |s.chain| > 0
      && s' == Moved(s, t, Idle).(unlocked := s.unlocked[s.head.value := true], line := s.line[1..], chain := s.chain[1..])
  }

  ghost predicate Init(s: State) {
    && Shape(s) && s.tail == |s.pcs| && s.head == None && s.line == [] && s.chain == [|s.pcs|]
    && (forall t :: 0 <= t < |s.pcs| ==> s.pcs[t] == Idle && s.current[t] == t)
    && forall x :: 0 <= x < |s.unlocked| ==> s.unlocked[x]
  }

  ghost predicate Run(tr: seq<State>, sched: seq<nat>) {
    && |tr| == |sched| + 1 && (forall i :: 0 <= i < |tr| ==> Shape(tr[i]))
    && Init(tr[0]) && forall i :: 0 <= i < |sched| ==> Step(tr[i], sched[i], tr[i + 1])
  }

  // ------------------------------------------------------------- invariants

  predicate Queues(pc: Pc) { !pc.Idle? && !pc.Xchg? }

  /** The holder has taken its predecessor's node for its own. */
  predicate Taken(s: State) { s.line != [] && s.line[0] < |s.pcs| && s.pcs[s.line[0]].Crit? }

  /** The one node that no thread owns. */
  function Spare(s: State): nat
    requires |s.chain| == |s.line| + 1
  {
    if Taken(s) then s.chain[1] else s.chain[0]
  }

  ghost predicate LineOk(s: State)
    requires Shape(s)
  {
    && |s.chain| == |s.line| + 1 && s.tail == s.chain[|s.line|]
    && (forall i, j :: 0 <= i < j < |s.line| ==> s.line[i] != s.line[j])
    && (forall i :: 0 <= i < |s.line| ==> s.line[i] < |s.pcs| && PlaceOk(s, i))
    && (forall t :: 0 <= t < |s.pcs| ==> (t in s.line <==> Queues(s.pcs[t])))
  }

  ghost predicate PlaceOk(s: State, i: nat)
    requires Shape(s) && i < |s.line| && |s.chain| == |s.line| + 1 && s.line[i] < |s.pcs|
  {
    var t := s.line[i];
    match s.pcs[t]
    case Wait(pred) => pred == s.chain[i] && s.current[t] == s.chain[i + 1]
    case SetHead(pred) => i == 0 && pred == s.chain[0] && s.current[t] == s.chain[1]
    case Take(pred) => i == 0 && pred == s.chain[0] && s.current[t] == s.chain[1] && s.head == Some(s.chain[1])
    case Crit => i == 0 && s.current[t] == s.chain[0] && s.head == Some(s.chain[1])
    case _ => false
  }

  /** Threads' nodes and the spare one: n + 1 distinct nodes of n + 1. */
  ghost predicate Bijection(s: State)
    requires Shape(s) && |s.chain| == |s.line| + 1
  {
    && (forall t :: 0 <= t < |s.pcs| ==> s.current[t] < |s.unlocked| && s.current[t] != Spare(s))
    && (forall t, u :: 0 <= t < u < |s.pcs| ==> s.current[t] != s.current[u])
    && Spare(s) < |s.unlocked|
  }

  /** Only the first in line finds its predecessor's node unlocked. */
  ghost predicate SpinOk(s: State)
    requires Shape(s) && |s.chain| == |s.line| + 1
  {
    && (forall i :: 0 <= i < |s.chain| ==> s.chain[i] < |s.unlocked| && s.unlocked[s.chain[i]] == (i == 0))
    && (forall i, j :: 0 <= i < j < |s.chain| ==> s.chain[i] != s.chain[j])
    && (forall t :: 0 <= t < |s.pcs| && s.pcs[t].Xchg? ==> s.current[t] < |s.unlocked| && !s.unlocked[s.current[t]])
    && (forall t, i :: 0 <= t < |s.pcs| && (s.pcs[t].Idle? || s.pcs[t].Xchg?) && 0 <= i < |s.chain| ==> s.current[t] != s.chain[i])
  }

  ghost predicate Inv(s: State) { Shape(s) && LineOk(s) && Bijection(s) && SpinOk(s) }

  /** Where thread `t` stands in line. */
  lemma PlaceOf(s: State, t: nat) returns (i: nat)
    requires Inv(s) && t < |s.pcs| && Queues(s.pcs[t])
    ensures i < |s.line| && s.line[i] == t && PlaceOk(s, i)
  {
    hide Bijection, SpinOk;
    i :| 0 <= i < |s.line| && s.line[i] == t;
  }

  /** Only the thread's own place and its own node matter to a place in line. */
  lemma QuietInv(s: State, t: nat, s': State)
    requires Inv(s) && Step(s, t, s') && (s.pcs[t].Wait? || s.pcs[t].SetHead?)
    ensures Inv(s')
  {
    var i := PlaceOf(s, t);
    QuietLine(s, t, s', i);
    QuietNodes(s, t, s');
  }

  lemma QuietLine(s: State, t: nat, s': State, i: nat)
    requires Inv(s) && Step(s, t, s') && (s.pcs[t].Wait? || s.pcs[t].SetHead?) && i < |s.line| && s.line[i] == t && PlaceOk(s, i)
    ensures LineOk(s')
  {
    hide Bijection;
    if s.pcs[t].Wait? { WaitEnds(s, t, i); }
    assert i == 0;
    hide SpinOk, Spare;
    forall j | 0 <= j < |s.line| ensures PlaceOk(s', j) { assert PlaceOk(s, j); }
  }

  lemma WaitEnds(s: State, t: nat, i: nat)
    requires Inv(s) && t < |s.pcs| && i < |s.line| && s.line[i] == t && PlaceOk(s, i)
    requires s.pcs[t].Wait? && s.pcs[t].pred < |s.unlocked| && s.unlocked[s.pcs[t].pred]
    ensures i == 0
  {
    hide Bijection;
  }

  lemma QuietNodes(s: State, t: nat, s': State)
    requires Inv(s) && Step(s, t, s') && (s.pcs[t].Wait? || s.pcs[t].SetHead?) && LineOk(s')
    ensures Bijection(s') && SpinOk(s')
  {
    hide PlaceOk;
    assert Taken(s') == Taken(s);
  }

  lemma PrepareInv(s: State, t: nat, s': State)
    requires Inv(s) && Step(s, t, s') && s.pcs[t].Idle?
    ensures Inv(s')
  {
    assert t !in s.line by { hide Bijection, SpinOk, PlaceOk; }
    hide PlaceOk, LineOk, SpinOk;
    PrepareLine(s, t, s');
    PrepareSpin(s, t, s');
  }

  lemma PrepareLine(s: State, t: nat, s': State)
    requires Shape(s) && Shape(s') && LineOk(s) && Step(s, t, s') && s.pcs[t].Idle? && t !in s.line
    ensures LineOk(s') && Taken(s') == Taken(s)
  {
    assert forall j :: 0 <= j < |s.line| ==> s.line[j] in s.line;
    forall j | 0 <= j < |s.line| ensures PlaceOk(s', j) { assert PlaceOk(s, j); }
    hide PlaceOk;
  }

  lemma PrepareSpin(s: State, t: nat, s': State)
    requires Shape(s) && Shape(s') && |s.chain| == |s.line| + 1 && SpinOk(s) && Step(s, t, s') && s.pcs[t].Idle?
    ensures SpinOk(s')
  {
  }

  lemma QueueInv(s: State, t: nat, s': State)
    requires Inv(s) && Step(s, t, s') && s.pcs[t].Xchg?
    ensures Inv(s')
  {
    QueueLine(s, t, s');
    QueueNodes(s, t, s');
    QueueSpin(s, t, s');
  }

  lemma QueueLine(s: State, t: nat, s': State)
    requires Inv(s) && Step(s, t, s') && s.pcs[t].Xchg?
    ensures LineOk(s')
  {
    hide Bijection, SpinOk;
    var n := |s.line|;
    assert s'.line[n] == t && s'.chain[n] == s.chain[n] && s'.chain[n + 1] == s.current[t];
    forall j | 0 <= j <= n ensures s'.line[j] < |s'.pcs| && PlaceOk(s', j) {
      if j < n { assert PlaceOk(s, j); assert s.line[j] in s.line; }
    }
    assert forall u :: u in s'.line <==> u in s.line || u == t;
  }

  lemma QueueNodes(s: State, t: nat, s': State)
    requires Inv(s) && Step(s, t, s') && s.pcs[t].Xchg? && LineOk(s')
    ensures Bijection(s')
  {
    hide SpinOk, PlaceOk;
    if |s.line| > 0 { assert s'.line[0] == s.line[0] && s'.chain[1] == s.chain[1]; assert s.line[0] in s.line; }
    assert s'.chain[0] == s.chain[0];
    assert Taken(s') == Taken(s);
  }

  lemma QueueSpin(s: State, t: nat, s': State)
    requires Inv(s) && Step(s, t, s') && s.pcs[t].Xchg? && LineOk(s')
    ensures SpinOk(s')
  {
    hide PlaceOk;
    var n := |s.chain|;
    assert s'.chain[n] == s.current[t];
    assert forall j :: 0 <= j < n ==> s'.chain[j] == s.chain[j];
  }

  /** The node the predecessor leaves becomes the holder's. */
  lemma TakeInv(s: State, t: nat, s': State)
    requires Inv(s) && Step(s, t, s') && s.pcs[t].Take?
    ensures Inv(s')
  {
    var i :| 0 <= i < |s.line| && s.line[i] == t;
    assert PlaceOk(s, i);
    TakeLine(s, t, s', i);
    hide LineOk, PlaceOk;
  }

  lemma TakeLine(s: State, t: nat, s': State, i: nat)
    requires Inv(s) && Step(s, t, s') && s.pcs[t].Take? && i < |s.line| && s.line[i] == t && PlaceOk(s, i)
    ensures Shape(s') && LineOk(s') && i == 0 && s'.line == s.line && s'.chain == s.chain
    ensures s.current[t] == s.chain[1] && s.pcs[t].pred == s.chain[0]
  {
    hide Bijection, SpinOk;
    forall j | 0 <= j < |s.line| ensures PlaceOk(s', j) { assert PlaceOk(s, j); }
  }

  lemma ReleaseInv(s: State, t: nat, s': State)
    requires Inv(s) && Step(s, t, s') && s.pcs[t].Crit?
    ensures Inv(s') && s.line[0] == t
  {
    var i := PlaceOf(s, t);
    ReleaseLine(s, t, s');
    ReleaseNodes(s, t, s');
    ReleaseSpin(s, t, s');
  }

  lemma ReleaseLine(s: State, t: nat, s': State)
    requires Inv(s) && Step(s, t, s') && s.pcs[t].Crit? && s.line[0] == t
    ensures LineOk(s')
  {
    hide Bijection, SpinOk;
    assert s.line == [t] + s'.line;
    forall j | 0 <= j < |s'.line| ensures PlaceOk(s', j) { assert PlaceOk(s, j + 1); }
    assert forall u :: u in s.line <==> u == t || u in s'.line;
  }

  lemma ReleaseNodes(s: State, t: nat, s': State)
    requires Inv(s) && Step(s, t, s') && s.pcs[t].Crit? && s.line[0] == t && LineOk(s')
    ensures Bijection(s')
  {
    hide SpinOk;
    assert PlaceOk(s, 0);
    if |s.line| > 1 { assert PlaceOk(s, 1); assert s'.line[0] == s.line[1]; }
    assert !Taken(s') && Spare(s') == s.chain[1] == Spare(s);
  }

  lemma ReleaseSpin(s: State, t: nat, s': State)
    requires Inv(s) && Step(s, t, s') && s.pcs[t].Crit? && s.line[0] == t && LineOk(s')
    ensures SpinOk(s')
  {
    assert PlaceOk(s, 0);
    hide PlaceOk, Bijection;
    assert forall j :: 0 <= j < |s'.chain| ==> s'.chain[j] == s.chain[j + 1];
  }

  lemma StepInv(s: State, t: nat, s': State)
    requires Inv(s) && Step(s, t, s')
    ensures Inv(s')
  {
    hide Inv;
    match s.pcs[t]
    case Idle => PrepareInv(s, t, s');
    case Xchg => QueueInv(s, t, s');
    case Wait(_) => QuietInv(s, t, s');
    case SetHead(_) => QuietInv(s, t, s');
    case Take(_) => TakeInv(s, t, s');
    case Crit => ReleaseInv(s, t, s');
  }

  lemma {:induction false} RunInv(tr: seq<State>, sched: seq<nat>, i: nat)
    requires Run(tr, sched) && i < |tr|
    ensures Inv(tr[i])
  {
    hide Inv, Step;
    if i == 0 { InitInv(tr[0]); } else { RunInv(tr, sched, i - 1); StepInv(tr[i - 1], sched[i - 1], tr[i]); }
  }

  lemma InitInv(s: State)
    requires Init(s)
    ensures Inv(s)
  {
  }

  // --------------------------------------------------------------- theorems

  predicate HasLock(pc: Pc) { pc.SetHead? || pc.Take? || pc.Crit? }

  lemma MutualExclusion(tr: seq<State>, sched: seq<nat>, i: nat, t: nat, u: nat)
    requires Run(tr, sched) && i < |tr| && t < |tr[i].pcs| && u < |tr[i].pcs| && HasLock(tr[i].pcs[t]) && HasLock(tr[i].pcs[u])
    ensures t == u
  {
    hide Run;
    RunInv(tr, sched, i);
    FirstInLine(tr[i], t);
    FirstInLine(tr[i], u);
  }

  lemma FirstInLine(s: State, t: nat)
    requires Inv(s) && t < |s.pcs| && HasLock(s.pcs[t])
    ensures s.line != [] && s.line[0] == t
  {
    var i := PlaceOf(s, t);
  }

  /** As nodes rotate from thread to thread, the nodes the threads own and the
      one left over are always all n + 1 nodes, each once. */
  lemma NodesRotate(tr: seq<State>, sched: seq<nat>, i: nat)
    requires Run(tr, sched) && i < |tr|
    ensures |tr[i].chain| == |tr[i].line| + 1 && Bijection(tr[i])
  {
    RunInv(tr, sched, i);
  }

  lemma WaitsBehind(s: State, t: nat, s': State, u: nat)
    requires Inv(s) && Step(s, t, s') && s.pcs[t].Crit? && u < |s.pcs| && s.pcs[u].Wait? && Inv(s')
    ensures u < |s'.pcs| && s'.pcs[u] == s.pcs[u]
    ensures s.pcs[u].pred < |s.unlocked| && |s'.unlocked| == |s.unlocked| && !s.unlocked[s.pcs[u].pred]
    ensures s'.unlocked[s.pcs[u].pred] <==> |s.line| > 1 && u == s.line[1]
  {
    FirstInLine(s, t);
    var i := PlaceOf(s, u);
    assert PlaceOk(s, 0) && i > 0;
    hide Bijection, PlaceOk;
    assert s.chain[i] == s.chain[1] <==> i == 1;
    assert s.line[i] == s.line[1] <==> i == 1;
  }

  /** An unlock lets exactly the next in line go on, if there is one. */
  lemma ReleasesSuccessor(tr: seq<State>, sched: seq<nat>, i: nat, u: nat)
    requires Run(tr, sched) && i < |sched| && u < |tr[i].pcs| && sched[i] < |tr[i].pcs| && tr[i].pcs[sched[i]].Crit?
    requires tr[i].pcs[u].Wait?
    ensures u < |tr[i + 1].pcs| && tr[i + 1].pcs[u] == tr[i].pcs[u]
    ensures tr[i].pcs[u].pred < |tr[i].unlocked| && tr[i].pcs[u].pred < |tr[i + 1].unlocked|
    ensures !tr[i].unlocked[tr[i].pcs[u].pred]
    ensures tr[i + 1].unlocked[tr[i].pcs[u].pred] <==> |tr[i].line| > 1 && u == tr[i].line[1]
  {
    hide Inv, Step;
    RunInv(tr, sched, i);
    RunInv(tr, sched, i + 1);
    WaitsBehind(tr[i], sched[i], tr[i + 1], u);
  }

  // ------------------------------------------------------------- never stuck

  /** What is left to do until a thread is idle again. */
  function Rank(pc: Pc): nat {
    match pc
    case Idle => 0
    case Xchg => 5
    case Wait(_) => 4
    case SetHead(_) => 3
    case Take(_) => 2
    case Crit => 1
  }

  function Ranks(s: State): seq<nat> { seq(|s.pcs|, t requires 0 <= t < |s.pcs| => Rank(s.pcs[t])) }

  function Left(s: State): nat { Total(Ranks(s)) }

  ghost predicate AllIdle(s: State) { forall t :: 0 <= t < |s.pcs| ==> s.pcs[t].Idle? }

  /** The thread can take a step that brings it closer to its end. */
  ghost predicate Closer(s: State, t: nat)
    requires Shape(s)
  {
    exists s' :: Step(s, t, s') && t < |s'.pcs| && Rank(s'.pcs[t]) < Rank(s.pcs[t])
  }

  /** The first in line, or a thread that is to join it, can go on. */
  lemma SomeGoesOn(s: State, t: nat) returns (u: nat)
    requires Inv(s) && Shape(s) && t < |s.pcs| && !s.pcs[t].Idle?
    ensures u < |s.pcs| && Closer(s, u)
  {
    u := t;
    if s.pcs[t].Xchg? {
      assert Step(s, t, Moved(s, t, Wait(s.tail)).(tail := s.current[t], line := s.line + [t], chain := s.chain + [s.current[t]]));
    } else {
      u := s.line[0];
      FirstGoesOn(s, u);
    }
  }

  lemma FirstGoesOn(s: State, u: nat)
    requires Inv(s) && Shape(s) && s.line != [] && u == s.line[0]
    ensures u < |s.pcs| && Closer(s, u)
  {
    assert PlaceOk(s, 0);
    hide Bijection;
    var pc := s.pcs[u];
    var s' :=
      if pc.Wait? then Moved(s, u, SetHead(pc.pred))
      else if pc.SetHead? then Moved(s, u, Take(pc.pred)).(head := Some(s.current[u]))
      else if pc.Take? then Moved(s, u, Crit).(current := s.current[u := pc.pred])
      else Moved(s, u, Idle).(unlocked := s.unlocked[s.chain[1] := true], line := s.line[1..], chain := s.chain[1..]);
    assert Step(s, u, s');
  }

  ghost predicate Steps(tr: seq<State>, sched: seq<nat>) {
    && |tr| == |sched| + 1 && (forall i :: 0 <= i < |tr| ==> Shape(tr[i]))
    && forall i :: 0 <= i < |sched| ==> Step(tr[i], sched[i], tr[i + 1])
  }

  lemma StepOthers(s: State, t: nat, s': State)
    requires Shape(s) && Step(s, t, s') && Inv(s')
    ensures Shape(s') && |s'.pcs| == |s.pcs| && forall u :: 0 <= u < |s.pcs| && u != t ==> s'.pcs[u] == s.pcs[u]
  {
    hide LineOk, Bijection, SpinOk;
  }

  lemma {:induction false} Drains(s: State) returns (tr: seq<State>, sched: seq<nat>)
    requires Inv(s) && Shape(s)
    ensures Steps(tr, sched) && tr[0] == s && AllIdle(tr[|tr| - 1])
    decreases Left(s)
  {
    hide Inv, Step;
    if AllIdle(s) {
      tr, sched := [s], [];
    } else {
      var t :| 0 <= t < |s.pcs| && !s.pcs[t].Idle?;
      var u := SomeGoesOn(s, t);
      var s' :| Step(s, u, s') && u < |s'.pcs| && Rank(s'.pcs[u]) < Rank(s.pcs[u]);
      StepInv(s, u, s');
      StepOthers(s, u, s');
      LessLeft(Ranks(s), Ranks(s'), u);
      var tr', sched' := Drains(s');
      tr, sched := [s] + tr', [u] + sched';
      forall i | 0 <= i < |sched| ensures Step(tr[i], sched[i], tr[i + 1]) {
        if i > 0 { assert Step(tr'[i - 1], sched'[i - 1], tr'[i]); }
      }
    }
  }

  predicate Entering(pc: Pc) { pc.Xchg? || pc.Wait? || pc.SetHead? || pc.Take? }

  ghost predicate GotIn(tr: seq<State>, t: nat) {
    exists i :: 0 <= i < |tr| && t < |tr[i].pcs| && tr[i].pcs[t].Crit?
  }

  lemma {:induction false} OnlyThroughSection(tr: seq<State>, sched: seq<nat>, t: nat, n: nat)
    requires Steps(tr, sched) && n < |tr| && t < |tr[0].pcs| && Entering(tr[0].pcs[t])
    ensures t < |tr[n].pcs| && (Entering(tr[n].pcs[t]) || GotIn(tr, t))
  {
    if n > 0 {
      OnlyThroughSection(tr, sched, t, n - 1);
      assert Step(tr[n - 1], sched[n - 1], tr[n]);
    }
  }

  /** The lock is never stuck: from every state of every run, all threads that are
      at it can get it and all can become idle. */
  lemma NeverStuck(tr: seq<State>, sched: seq<nat>, i: nat) returns (more: seq<State>, sched': seq<nat>)
    requires Run(tr, sched) && i < |tr|
    ensures Steps(more, sched') && more[0] == tr[i] && AllIdle(more[|more| - 1])
    ensures forall t :: 0 <= t < |tr[i].pcs| && Entering(tr[i].pcs[t]) ==> GotIn(more, t)
  {
    RunInv(tr, sched, i);
    more, sched' := Drains(tr[i]);
    hide Inv, Step, GotIn;
    forall t | 0 <= t < |tr[i].pcs| && Entering(tr[i].pcs[t]) ensures GotIn(more, t) {
      OnlyThroughSection(more, sched', t, |more| - 1);
    }
  }
}
