/** The compact NUMA-aware lock is never stuck, however the queues are moved about,
    and a trylock gets a lock that is free. */
module CnaProgress {
  import opened Options
  import opened Sums
  import opened Cna

  /** What is left to do until a thread is idle again, a scan of the queue apart. */
  function Rank(pc: Pc): nat {
    match pc
    case Idle => 0
    case Xchg => 20
    case TryCas => 20
    case SetSock(_) => 17
    case Link(_) => 16
    case Wait => 15
    case Crit => 14
    case NoNext => 13
    case WaitNext => 12
    case Choose => 11
    case Scan(_, _) => 10
    case Attach(_, _, _) => 9
    case Cut(_, _) => 8
    case Mark(_, _) => 7
    case GrantLocal(_) => 6
    case Fallback => 6
    case GrantTo(_) => 5
  }

  function Ranks(s: State): seq<nat> { seq(|s.pcs|, t requires 0 <= t < |s.pcs| => Rank(s.pcs[t])) }

  /** How many waiters stand behind x. */
  function Behind(c: seq<nat>, x: nat): nat {
    if c == [] then 0 else if c[0] == x then |c| - 1 else Behind(c[1..], x)
  }

  /** What is left of the holder's scan. */
  function ScanLeft(s: State): nat {
    if s.main != [] && s.main[0] < |s.pcs| && s.pcs[s.main[0]].Scan? then Behind(s.main, s.pcs[s.main[0]].last) else 0
  }

  function Left(s: State): nat { Total(Ranks(s)) + ScanLeft(s) }

  lemma {:induction false} BehindOne(c: seq<nat>, x: nat, t: nat)
    ensures Behind(c + [t], x) <= Behind(c, x) + 1
  {
    if c != [] && c[0] != x {
      BehindOne(c[1..], x, t);
      assert (c + [t])[1..] == c[1..] + [t];
    } else if c == [] {
      assert (c + [t])[1..] == [];
    }
  }

  lemma {:induction false} BehindAt(c: seq<nat>, i: nat)
    requires i < |c| && forall j :: 0 <= j < i ==> c[j] != c[i]
    ensures Behind(c, c[i]) == |c| - 1 - i
  {
    if i > 0 { BehindAt(c[1..], i - 1); }
  }

  /** Only the thread that joins makes a scan longer. */
  lemma ScanBound(numa: seq<nat>, s: State, t: nat, s': State)
    requires Inv(numa, s) && Inv(numa, s') && Step(numa, s, t, s') && !s'.pcs[t].Scan?
    ensures ScanLeft(s') <= ScanLeft(s) + if s.pcs[t].Xchg? then 1 else 0
  {
    hide MainOk, SecOk, ScanOk, SocketsOk, Behind;
    if s'.main != [] && s'.pcs[s'.main[0]].Scan? {
      var h := s'.main[0];
      StepElsewhere(numa, s, t, s');
      HolderIs(s, h);
      OnlyJoins(numa, s, t, s');
      if s.pcs[t].Xchg? { BehindOne(s.main, s.pcs[h].last, t); }
    }
  }

  lemma StepElsewhere(numa: seq<nat>, s: State, t: nat, s': State)
    requires Shape(numa, s) && Step(numa, s, t, s')
    ensures Shape(numa, s') && forall u :: 0 <= u < |s.pcs| && u != t ==> s'.pcs[u] == s.pcs[u]
  {
  }

  lemma OnlyJoins(numa: seq<nat>, s: State, t: nat, s': State)
    requires Inv(numa, s) && Step(numa, s, t, s') && s.main != [] && HolderPc(s.pcs[s.main[0]]) && t != s.main[0]
    ensures s'.main == if s.pcs[t].Xchg? then s.main + [t] else s.main
  {
    assert ThreadOk(s, t);
    hide MainOk, SecOk, ScanOk, SocketsOk, ThreadsOk;
  }

  /** A step that brings its thread closer to its end, or the scan. */
  ghost predicate Closer(numa: seq<nat>, s: State, t: nat, s': State)
    requires Shape(numa, s)
  {
    && Step(numa, s, t, s') && t < |s'.pcs|
    && if s'.pcs[t].Scan? then s.pcs[t].Scan? && ScanLeft(s') < ScanLeft(s) else Rank(s'.pcs[t]) < Rank(s.pcs[t])
  }

  lemma RanksChange(s: State, t: nat, s': State)
    requires t < |s.pcs| == |s'.pcs| && forall u :: 0 <= u < |s.pcs| && u != t ==> s'.pcs[u] == s.pcs[u]
    ensures Total(Ranks(s')) == Total(Ranks(s)) - Rank(s.pcs[t]) + Rank(s'.pcs[t])
  {
    hide Rank;
    assert Ranks(s') == Ranks(s)[t := Rank(s'.pcs[t])];
    ShareChanged(Ranks(s), t, Rank(s'.pcs[t]));
  }

  lemma CloserIsLess(numa: seq<nat>, s: State, t: nat, s': State)
    requires Inv(numa, s) && Inv(numa, s') && Closer(numa, s, t, s')
    ensures Left(s') < Left(s)
  {
    hide Step, MainOk, SecOk, ThreadsOk, ScanOk, SocketsOk, Members, ScanLeft, Total, Ranks;
    StepElsewhere(numa, s, t, s');
    RanksChange(s, t, s');
    if s.pcs[t].Xchg? { JoinDrops(numa, s, t, s'); }
    if !s'.pcs[t].Scan? { ScanBound(numa, s, t, s'); }
  }

  lemma JoinDrops(numa: seq<nat>, s: State, t: nat, s': State)
    requires Shape(numa, s) && Step(numa, s, t, s') && s.pcs[t].Xchg?
    ensures t < |s'.pcs| && (s'.pcs[t].Crit? || s'.pcs[t].SetSock?)
  {
  }

  // ------------------------------------------------------------ who goes on

  /** A step of the one kind this thread can take. */
  lemma TakesStep(numa: seq<nat>, s: State, t: nat, s': State)
    requires Shape(numa, s) && t < |s.pcs| && t < |s'.pcs| && Rank(s'.pcs[t]) < Rank(s.pcs[t]) && !s'.pcs[t].Scan?
    requires match s.pcs[t]
      case Idle => false
      case Xchg => DoXchg(s, t, s')
      case TryCas => DoTry(s, t, s')
      case SetSock(_) => DoSetSock(numa, s, t, s')
      case Link(_) => DoLink(s, t, s')
      case Wait => DoWake(s, t, s')
      case Crit => DoUnlock(s, t, s')
      case NoNext => DoLeave(s, t, s')
      case WaitNext => DoWaitNext(s, t, s')
      case Choose => DoChoose(numa, s, t, s')
      case Scan(_, _) => DoScan(numa, s, t, s')
      case Attach(_, _, _) => DoAttach(s, t, s')
      case Cut(_, _) => DoCut(s, t, s')
      case Mark(_, _) => DoMark(s, t, s')
      case GrantLocal(_) => DoGrantLocal(s, t, s')
      case Fallback => DoFallback(s, t, s')
      case GrantTo(_) => DoGrant(s, t, s')
    ensures Closer(numa, s, t, s')
  {
    hide DoXchg, DoTry, DoSetSock, DoLink, DoWake, DoUnlock, DoLeave, DoWaitNext, DoChoose, DoScan, DoAttach, DoCut, DoMark,
         DoGrantLocal, DoFallback, DoGrant;
  }

  /** A thread that has not joined the queue or linked itself yet. */
  lemma OutsiderGoesOn(numa: seq<nat>, s: State, t: nat) returns (s': State)
    requires Inv(numa, s) && Shape(numa, s) && t < |s.pcs|
    requires s.pcs[t].Xchg? || s.pcs[t].TryCas? || s.pcs[t].SetSock? || s.pcs[t].Link?
    ensures Closer(numa, s, t, s')
  {
    hide MainOk, SecOk, ThreadsOk, ScanOk, SocketsOk;
    if s.pcs[t].Link? { PrevIs(s, t); }
    hide Inv, Closer;
    if s.pcs[t].Xchg? || s.pcs[t].TryCas? { s' := JoinerGoesOn(numa, s, t); } else { s' := LinkerGoesOn(numa, s, t); }
  }

  lemma JoinerGoesOn(numa: seq<nat>, s: State, t: nat) returns (s': State)
    requires Shape(numa, s) && t < |s.pcs| && (s.pcs[t].Xchg? || s.pcs[t].TryCas?)
    ensures Closer(numa, s, t, s')
  {
    hide Closer;
    if s.pcs[t].Xchg? {
      s' := Moved(s, t, if s.tail == None then Crit else SetSock(s.tail.value)).(tail := Some(t), main := s.main + [t]);
      assert DoXchg(s, t, s');
    } else {
      s' := if s.tail == None then Moved(s, t, Crit).(tail := Some(t), main := s.main + [t]) else Moved(s, t, Idle);
      assert DoTry(s, t, s');
    }
    hide DoXchg, DoTry;
    TakesStep(numa, s, t, s');
  }

  lemma LinkerGoesOn(numa: seq<nat>, s: State, t: nat) returns (s': State)
    requires Shape(numa, s) && t < |s.pcs| && (s.pcs[t].SetSock? || (s.pcs[t].Link? && s.pcs[t].prev < |s.nodes|))
    ensures Closer(numa, s, t, s')
  {
    hide Closer;
    var prev := s.pcs[t].prev;
    if s.pcs[t].SetSock? {
      s' := SetNode(Moved(s, t, Link(prev)), t, s.nodes[t].(socket := numa[t]));
      assert DoSetSock(numa, s, t, s');
    } else {
      s' := SetNode(Moved(s, t, Wait), prev, s.nodes[prev].(next := Some(t)));
      assert DoLink(s, t, s');
    }
    hide DoSetSock, DoLink;
    TakesStep(numa, s, t, s');
  }

  lemma PrevIs(s: State, t: nat)
    requires Members(s) && MainOk(s) && ThreadsOk(s) && t < |s.pcs| && s.pcs[t].Link?
    ensures s.pcs[t].prev < |s.nodes|
  {
    var k := PrevOf(s, t);
  }

  /** An unlock that has seen a successor still sees one. */
  ghost predicate Followed(s: State) {
    s.main != [] && s.main[0] < |s.pcs| == |s.nodes| ==>
      var pc := s.pcs[s.main[0]];
      && (pc.WaitNext? ==> |s.main| > 1)
      && (pc.Choose? || pc.Scan? || pc.Attach? || pc.Fallback? ==> s.nodes[s.main[0]].next != None)
  }

  lemma FollowedStep(numa: seq<nat>, s: State, t: nat, s': State)
    requires Inv(numa, s) && Inv(numa, s') && Step(numa, s, t, s') && Followed(s)
    ensures Followed(s')
  {
    hide MainOk, SecOk, ScanOk, SocketsOk;
    StepElsewhere(numa, s, t, s');
    if s'.main != [] {
      var h := s'.main[0];
      if h == t {
        if HolderPc(s.pcs[t]) { HolderIs(s, t); }
        OwnFollowed(numa, s, t, s');
      } else if HolderPc(s'.pcs[h]) {
        HolderIs(s, h);
        OnlyJoins(numa, s, t, s');
        NextStays(numa, s, t, s', h);
        hide ThreadsOk, Members;
      }
    }
  }

  lemma OwnFollowed(numa: seq<nat>, s: State, t: nat, s': State)
    requires Shape(numa, s) && Shape(numa, s') && Step(numa, s, t, s') && s'.main != [] && s'.main[0] == t && Followed(s)
    requires (HolderPc(s.pcs[t]) ==> s.main != [] && s.main[0] == t) && Members(s)
    ensures Followed(s')
  {
  }

  /** Nobody but its owner clears a node's link. */
  lemma NextStays(numa: seq<nat>, s: State, t: nat, s': State, h: nat)
    requires Inv(numa, s) && Shape(numa, s') && Step(numa, s, t, s') && h < |s.pcs| && h != t && s.main != [] && s.main[0] == h && HolderPc(s.pcs[h])
    ensures s.nodes[h].next != None ==> s'.nodes[h].next != None
  {
    assert ThreadOk(s, t);
    hide MainOk, SecOk, ScanOk, SocketsOk, ThreadsOk, Members;
  }

  lemma LeaverGoesOn(numa: seq<nat>, s: State, t: nat) returns (s': State)
    requires Inv(numa, s) && Shape(numa, s) && s.main != [] && s.main[0] == t && t < |s.pcs| && s.pcs[t].NoNext?
    ensures Closer(numa, s, t, s')
  {
    assert s.nodes[t].spin.Ptr? ==> s.sec != [] && s.nodes[t].spin.head < |s.nodes|;
    hide Inv, Closer;
    if s.tail != Some(t) { s' := Moved(s, t, WaitNext); }
    else if !s.nodes[t].spin.Ptr? { s' := Moved(s, t, Idle).(tail := None, main := []); }
    else {
      var h := s.nodes[t].spin.head;
      s' := Moved(s, t, GrantTo(h)).(tail := Some(s.nodes[h].secTail), main := [t] + s.sec, sec := []);
    }
    TakesStep(numa, s, t, s');
  }

  /** The waiter behind a holder whose link is still empty. */
  lemma UnlinkedNext(numa: seq<nat>, s: State) returns (u: nat)
    requires Inv(numa, s) && s.main != [] && s.main[0] < |s.pcs| && s.pcs[s.main[0]].WaitNext? && s.nodes[s.main[0]].next == None
    requires |s.main| > 1
    ensures u < |s.pcs| && (s.pcs[u].SetSock? || s.pcs[u].Link?)
  {
    hide SecOk, ThreadsOk, ScanOk, SocketsOk;
    u := s.main[1];
    assert Linked(s, s.main[0], u);
  }

  /** What hangs off the holder's spin word. */
  lemma SpinFacts(numa: seq<nat>, s: State, t: nat)
    requires Inv(numa, s) && Shape(numa, s) && s.main != [] && s.main[0] == t && t < |s.pcs| && !s.pcs[t].GrantTo?
    ensures var pc, spin := s.pcs[t], s.nodes[t].spin;
      && (spin.Ptr? ==> spin.head < |s.nodes| && (!pc.Cut? && !pc.Mark? ==> s.nodes[spin.head].secTail < |s.nodes|))
      && (pc.Cut? || pc.Mark? ==> pc.last < |s.nodes| && spin.Ptr?)
  {
    hide MainOk, ThreadsOk, ScanOk, SocketsOk;
    if s.nodes[t].spin.Ptr? { assert s.sec != []; }
  }

  lemma ChooserGoesOn(numa: seq<nat>, s: State, t: nat) returns (s': State)
    requires Inv(numa, s) && Shape(numa, s) && Followed(s) && s.main != [] && s.main[0] == t && t < |s.pcs| && (s.pcs[t].Choose? || s.pcs[t].Fallback?)
    ensures Closer(numa, s, t, s')
  {
    hide MainOk, SecOk, ThreadsOk, ScanOk, SocketsOk, Closer;
    NextIs(s, t);
    SpinFacts(numa, s, t);
    hide Inv, Followed;
    if s.pcs[t].Choose? {
      s' := Moved(s, t, Fallback);
    } else if s.nodes[t].spin.Ptr? {
      var h := s.nodes[t].spin.head;
      s' := SetNode(Moved(s, t, GrantTo(h)), s.nodes[h].secTail, s.nodes[s.nodes[h].secTail].(next := s.nodes[t].next))
              .(main := [t] + s.sec + s.main[1..], sec := []);
    } else {
      s' := Moved(s, t, GrantTo(s.nodes[t].next.value));
    }
    assert if s.pcs[t].Choose? then DoChoose(numa, s, t, s') else DoFallback(s, t, s');
    hide DoChoose, DoFallback, SetNode;
    TakesStep(numa, s, t, s');
  }

  lemma ScannerGoesOn(numa: seq<nat>, s: State, t: nat) returns (s': State)
    requires Inv(numa, s) && Shape(numa, s) && s.main != [] && s.main[0] == t && t < |s.pcs| && s.pcs[t].Scan?
    ensures Closer(numa, s, t, s')
  {
    var head, last := s.pcs[t].head, s.pcs[t].last;
    var j: int :| ScanAt(numa, s, head, last, j);
    ScanNext(s, j);
    var cur := s.nodes[last].next;
    if cur == None {
      s' := Moved(s, t, Fallback);
      hide Inv, Closer;
      TakesStep(numa, s, t, s');
    } else if s.nodes[cur.value].socket == SocketOf(numa, s, t) {
      s' := Moved(s, t, Attach(head, last, cur.value));
      hide Inv, Closer;
      TakesStep(numa, s, t, s');
    } else {
      s' := Moved(s, t, Scan(head, cur.value));
      assert DoScan(numa, s, t, s');
      hide Inv, DoScan;
      BehindAt(s.main, j);
      BehindAt(s.main, j + 1);
    }
  }

  lemma AttacherGoesOn(numa: seq<nat>, s: State, t: nat) returns (s': State)
    requires Inv(numa, s) && Shape(numa, s) && s.main != [] && s.main[0] == t && t < |s.pcs| && s.pcs[t].Attach?
    ensures Closer(numa, s, t, s')
  {
    hide MainOk, SecOk, ThreadsOk, SocketsOk, Skipped;
    var pc := s.pcs[t];
    SpinFacts(numa, s, t);
    var j: int :| AttachAt(numa, s, pc.head, pc.last, pc.cur, j);
    hide Inv, Closer, ScanOk, Members, SameSocket;
    var s0 := Moved(s, t, Cut(pc.last, pc.cur)).(main := [t] + s.main[j..], sec := s.sec + s.main[1..j]);
    if s.nodes[t].spin.Ptr? {
      var h := s.nodes[t].spin.head;
      s' := SetNode(s0, s.nodes[h].secTail, s.nodes[s.nodes[h].secTail].(next := Some(pc.head)));
    } else {
      s' := SetNode(s0, t, s.nodes[t].(spin := Ptr(pc.head)));
    }
    assert DoAttach(s, t, s');
    hide DoAttach;
    TakesStep(numa, s, t, s');
  }

  lemma SplicerGoesOn(numa: seq<nat>, s: State, t: nat) returns (s': State)
    requires Inv(numa, s) && Shape(numa, s) && s.main != [] && s.main[0] == t && t < |s.pcs| && (s.pcs[t].Cut? || s.pcs[t].Mark?)
    ensures Closer(numa, s, t, s')
  {
    hide MainOk, SecOk, ThreadsOk, ScanOk, SocketsOk, Closer;
    var pc := s.pcs[t];
    SpinFacts(numa, s, t);
    hide Inv;
    if pc.Cut? {
      s' := SetNode(Moved(s, t, Mark(pc.last, pc.cur)), pc.last, s.nodes[pc.last].(next := None));
    } else {
      var h := s.nodes[t].spin.head;
      s' := SetNode(Moved(s, t, GrantLocal(pc.cur)), h, s.nodes[h].(secTail := pc.last));
    }
    assert if pc.Cut? then DoCut(s, t, s') else DoMark(s, t, s');
    hide DoCut, DoMark, SetNode;
    TakesStep(numa, s, t, s');
  }

  lemma GranterGoesOn(numa: seq<nat>, s: State, t: nat) returns (s': State)
    requires Inv(numa, s) && Shape(numa, s) && s.main != [] && s.main[0] == t && t < |s.pcs|
    requires s.pcs[t].Wait? || s.pcs[t].Crit? || s.pcs[t].GrantLocal? || s.pcs[t].GrantTo?
    ensures Closer(numa, s, t, s')
  {
    hide SecOk, ScanOk, SocketsOk, Closer;
    var pc := s.pcs[t];
    assert ThreadOk(s, t);
    assert pc.GrantLocal? || pc.GrantTo? ==> Target(pc) == s.main[1] && s.main[1] < |s.nodes|;
    hide Inv, MainOk, ThreadsOk, ThreadOk, Members;
    if pc.Wait? { s' := Moved(s, t, Crit); }
    else if pc.Crit? { s' := Moved(s, t, if s.nodes[t].next == None then NoNext else Choose); }
    else if pc.GrantLocal? {
      s' := SetNode(Moved(s, t, Idle), pc.cur, s.nodes[pc.cur].(spin := if s.nodes[t].spin != Zero then s.nodes[t].spin else One)).(main := s.main[1..]);
    } else {
      s' := SetNode(Moved(s, t, Idle), pc.succ, s.nodes[pc.succ].(spin := One)).(main := s.main[1..]);
    }
    TakesStep(numa, s, t, s');
  }

  /** The holder, or the waiter behind it that has not linked itself yet. */
  lemma HolderGoesOn(numa: seq<nat>, s: State) returns (u: nat, s': State)
    requires Inv(numa, s) && Shape(numa, s) && s.main != [] && Followed(s)
    ensures u < |s.pcs| && Closer(numa, s, u, s')
  {
    u := s.main[0];
    assert HolderPc(s.pcs[u]) || s.pcs[u].Wait? by { hide MainOk, SecOk, ScanOk, SocketsOk; }
    hide MainOk, SecOk, ThreadsOk, ScanOk, SocketsOk, Closer;
    match s.pcs[u] {
      case NoNext => s' := LeaverGoesOn(numa, s, u);
      case WaitNext =>
        if s.nodes[u].next == None {
          u := UnlinkedNext(numa, s);
          s' := OutsiderGoesOn(numa, s, u);
        } else {
          s' := Moved(s, u, Choose);
          TakesStep(numa, s, u, s');
        }
      case Scan(_, _) => s' := ScannerGoesOn(numa, s, u);
      case Attach(_, _, _) => s' := AttacherGoesOn(numa, s, u);
      case Cut(_, _) => s' := SplicerGoesOn(numa, s, u);
      case Mark(_, _) => s' := SplicerGoesOn(numa, s, u);
      case Choose => s' := ChooserGoesOn(numa, s, u);
      case Fallback => s' := ChooserGoesOn(numa, s, u);
      case _ => s' := GranterGoesOn(numa, s, u);
    }
  }

  // ------------------------------------------------------------- never stuck

  ghost predicate AllIdle(s: State) { forall t :: 0 <= t < |s.pcs| ==> s.pcs[t].Idle? }

  /** Whoever does not wait, or else the holder. */
  lemma SomeGoesOn(numa: seq<nat>, s: State, t: nat) returns (u: nat, s': State)
    requires Inv(numa, s) && Shape(numa, s) && Followed(s) && t < |s.pcs| && !s.pcs[t].Idle?
    ensures u < |s.pcs| && Closer(numa, s, u, s')
  {
    assert ThreadOk(s, t) by { hide MainOk, SecOk, ScanOk, SocketsOk; }
    hide MainOk, SecOk, ThreadsOk, ScanOk, SocketsOk, Closer;
    u := t;
    if s.pcs[t].Xchg? || s.pcs[t].TryCas? || s.pcs[t].SetSock? || s.pcs[t].Link? {
      s' := OutsiderGoesOn(numa, s, t);
    } else {
      u, s' := HolderGoesOn(numa, s);
    }
  }

  ghost predicate Steps(numa: seq<nat>, tr: seq<State>, sched: seq<nat>) {
    && |tr| == |sched| + 1 && (forall i :: 0 <= i < |tr| ==> Shape(numa, tr[i]))
    && forall i :: 0 <= i < |sched| ==> Step(numa, tr[i], sched[i], tr[i + 1])
  }

  lemma {:induction false} Drains(numa: seq<nat>, s: State) returns (tr: seq<State>, sched: seq<nat>)
    requires Inv(numa, s) && Shape(numa, s) && Followed(s)
    ensures Steps(numa, tr, sched) && tr[0] == s && AllIdle(tr[|tr| - 1])
    decreases Left(s)
  {
    hide Inv, Step, Left, Followed;
    if AllIdle(s) {
      tr, sched := [s], [];
    } else {
      var t :| 0 <= t < |s.pcs| && !s.pcs[t].Idle?;
      var u, s' := SomeGoesOn(numa, s, t);
      StepInv(numa, s, u, s');
      StepElsewhere(numa, s, u, s');
      FollowedStep(numa, s, u, s');
      CloserIsLess(numa, s, u, s');
      var tr', sched' := Drains(numa, s');
      tr, sched := [s] + tr', [u] + sched';
      forall i | 0 <= i < |sched| ensures Step(numa, tr[i], sched[i], tr[i + 1]) {
        if i > 0 { assert Step(numa, tr'[i - 1], sched'[i - 1], tr'[i]); }
      }
    }
  }

  predicate Entering(pc: Pc) { pc.Xchg? || pc.SetSock? || pc.Link? || pc.Wait? }

  ghost predicate GotIn(tr: seq<State>, t: nat) {
    exists i :: 0 <= i < |tr| && t < |tr[i].pcs| && tr[i].pcs[t].Crit?
  }

  lemma StepEnters(numa: seq<nat>, s: State, t: nat, s': State, u: nat)
    requires Shape(numa, s) && Step(numa, s, t, s') && u < |s.pcs|
    ensures u < |s'.pcs| && (Entering(s.pcs[u]) ==> Entering(s'.pcs[u]) || s'.pcs[u].Crit?)
  {
    StepElsewhere(numa, s, t, s');
    hide DoLeave, DoWaitNext, DoChoose, DoScan, DoAttach, DoCut, DoMark, DoGrantLocal, DoFallback, DoGrant, Begin;
  }

  lemma {:induction false} OnlyThroughSection(numa: seq<nat>, tr: seq<State>, sched: seq<nat>, t: nat, n: nat)
    requires Steps(numa, tr, sched) && n < |tr| && t < |tr[0].pcs| && Entering(tr[0].pcs[t])
    ensures t < |tr[n].pcs| && (Entering(tr[n].pcs[t]) || GotIn(tr, t))
  {
    if n > 0 {
      OnlyThroughSection(numa, tr, sched, t, n - 1);
      assert Step(numa, tr[n - 1], sched[n - 1], tr[n]);
      StepEnters(numa, tr[n - 1], sched[n - 1], tr[n], t);
      hide Step;
    }
  }

  lemma {:induction false} RunFollowed(numa: seq<nat>, tr: seq<State>, sched: seq<nat>, i: nat)
    requires Run(numa, tr, sched) && i < |tr| && Shape(numa, tr[i])
    ensures Inv(numa, tr[i]) && Followed(tr[i])
  {
    hide Inv, Step;
    RunInv(numa, tr, sched, i);
    if i > 0 {
      RunFollowed(numa, tr, sched, i - 1);
      FollowedStep(numa, tr[i - 1], sched[i - 1], tr[i]);
    }
  }

  /** The lock is never stuck: from every state of every run, all threads that are
      at it can get it and all can become idle. */
  lemma NeverStuck(numa: seq<nat>, tr: seq<State>, sched: seq<nat>, i: nat) returns (more: seq<State>, sched': seq<nat>)
    requires Run(numa, tr, sched) && i < |tr| && Shape(numa, tr[i])
    ensures Steps(numa, more, sched') && more[0] == tr[i] && AllIdle(more[|more| - 1])
    ensures forall t :: 0 <= t < |tr[i].pcs| && Entering(tr[i].pcs[t]) ==> GotIn(more, t)
  {
    RunFollowed(numa, tr, sched, i);
    more, sched' := Drains(numa, tr[i]);
    hide Inv, Step, GotIn;
    forall t | 0 <= t < |tr[i].pcs| && Entering(tr[i].pcs[t]) ensures GotIn(more, t) {
      OnlyThroughSection(numa, more, sched', t, |more| - 1);
    }
  }

  /** A trylock succeeds exactly when nobody has the lock. */
  lemma TrySucceeds(numa: seq<nat>, tr: seq<State>, sched: seq<nat>, i: nat, t: nat)
    requires Run(numa, tr, sched) && i < |sched| && sched[i] == t && t < |tr[i].pcs| && tr[i].pcs[t].TryCas?
    ensures t < |tr[i + 1].pcs| && (tr[i + 1].pcs[t].Crit? <==> forall u :: 0 <= u < |tr[i].pcs| ==> !HasLock(tr[i], u))
  {
    var s := tr[i];
    RunInv(numa, tr, sched, i);
    assert Step(numa, s, t, tr[i + 1]);
    forall u: nat ensures HasLock(s, u) <==> s.main != [] && u == s.main[0] { LockIsFirst(numa, s, u); }
    hide MainOk, SecOk, ThreadsOk, ScanOk, SocketsOk, HasLock;
    if s.main != [] { assert HasLock(s, s.main[0]); }
  }

  // ------------------------------------------------------ staying on a socket

  ghost predicate Solo(numa: seq<nat>, tr: seq<State>, t: nat) {
    |tr| > 0 && (forall i :: 0 <= i < |tr| ==> Shape(numa, tr[i])) && forall i :: 0 <= i < |tr| - 1 ==> Step(numa, tr[i], t, tr[i + 1])
  }

  lemma Prepended(numa: seq<nat>, s: State, t: nat, tr: seq<State>) returns (tr': seq<State>)
    requires Shape(numa, s) && Solo(numa, tr, t) && Step(numa, s, t, tr[0])
    ensures Solo(numa, tr', t) && tr'[0] == s && tr'[|tr'| - 1] == tr[|tr| - 1]
  {
    hide Step;
    tr' := [s] + tr;
    forall i | 0 <= i < |tr'| - 1 ensures Step(numa, tr'[i], t, tr'[i + 1]) {
      if i > 0 { assert tr'[i] == tr[i - 1] && tr'[i + 1] == tr[i]; }
    }
  }

  predicate Splices(pc: Pc) { pc.Attach? || pc.Cut? || pc.Mark? || pc.GrantLocal? }

  /** Once a waiter is chosen, the holder's own steps lead to its grant. */
  lemma {:induction false} GrantsChosen(numa: seq<nat>, s: State, t: nat) returns (tr: seq<State>)
    requires Inv(numa, s) && Shape(numa, s) && s.main != [] && s.main[0] == t && t < |s.pcs| && Splices(s.pcs[t])
    ensures Solo(numa, tr, t) && tr[0] == s && HasLock(tr[|tr| - 1], s.pcs[t].cur)
    decreases Rank(s.pcs[t])
  {
    var pc := s.pcs[t];
    var s': State;
    hide Inv, Step, Solo;
    if pc.Attach? { s' := AttacherGoesOn(numa, s, t); }
    else if pc.GrantLocal? { s' := GranterGoesOn(numa, s, t); }
    else { s' := SplicerGoesOn(numa, s, t); }
    StepInv(numa, s, t, s');
    StepElsewhere(numa, s, t, s');
    StillChosen(numa, s, t, s');
    if pc.GrantLocal? {
      LockIsFirst(numa, s', pc.cur);
      tr := Once(numa, s, t, s');
    } else {
      var tr' := GrantsChosen(numa, s', t);
      tr := Prepended(numa, s, t, tr');
    }
  }

  lemma Once(numa: seq<nat>, s: State, t: nat, s': State) returns (tr: seq<State>)
    requires Shape(numa, s) && Shape(numa, s') && Step(numa, s, t, s')
    ensures Solo(numa, tr, t) && tr[0] == s && tr[|tr| - 1] == s'
  {
    hide Step;
    tr := [s, s'];
  }

  lemma StillChosen(numa: seq<nat>, s: State, t: nat, s': State)
    requires Inv(numa, s) && Inv(numa, s') && Shape(numa, s) && Step(numa, s, t, s') && s.main != [] && s.main[0] == t && t < |s.pcs| && Splices(s.pcs[t])
    ensures t < |s'.pcs| && s'.main != []
    ensures if s.pcs[t].GrantLocal? then s'.main[0] == s.pcs[t].cur else Splices(s'.pcs[t]) && s'.pcs[t].cur == s.pcs[t].cur && s'.main[0] == t
  {
    hide Step;
    if s.pcs[t].GrantLocal? { GrantTarget(numa, s, t, s'); } else { StillSplices(numa, s, t, s'); }
    hide Inv;
  }

  lemma StillSplices(numa: seq<nat>, s: State, t: nat, s': State)
    requires Shape(numa, s) && Step(numa, s, t, s') && s.main != [] && s.main[0] == t && t < |s.pcs| && Splices(s.pcs[t]) && !s.pcs[t].GrantLocal?
    ensures t < |s'.pcs| && s'.main != [] && Splices(s'.pcs[t]) && s'.pcs[t].cur == s.pcs[t].cur && s'.main[0] == t
  {
    if s.pcs[t].Attach? { assert DoAttach(s, t, s'); }
    else if s.pcs[t].Cut? { assert DoCut(s, t, s'); }
    else { assert DoMark(s, t, s'); }
    hide Step;
  }

  /** main[1..k] are linked waiters of other sockets, and main[k] is one of the
      holder's own. */
  ghost predicate OwnAt(numa: seq<nat>, s: State, k: nat)
    requires Members(s) && |numa| == |s.pcs|
  {
    && 1 <= k < |s.main| && Skipped(numa, s, k) && s.pcs[s.main[k]].Wait?
    && s.nodes[s.main[k]].socket == SocketOf(numa, s, s.main[0])
  }

  lemma NextAfter(s: State, j: nat)
    requires Members(s) && MainOk(s) && j + 1 < |s.main| && s.pcs[s.main[j + 1]].Wait? && !Detached(s.pcs[s.main[0]])
    ensures s.nodes[s.main[j]].next == Some(s.main[j + 1])
  {
    if j > 0 { assert Linked(s, s.main[j], s.main[j + 1]); }
  }

  /** The scan finds the first waiter of the holder's socket. */
  lemma {:induction false} ScanFinds(numa: seq<nat>, s: State, t: nat, j: nat, k: nat) returns (tr: seq<State>)
    requires Inv(numa, s) && Shape(numa, s) && s.main != [] && s.main[0] == t && t < |s.pcs| && s.pcs[t].Scan? && OwnAt(numa, s, k)
    requires 1 <= j < k && s.pcs[t].last == s.main[j] && s.pcs[t].head == s.main[1]
    ensures Solo(numa, tr, t) && tr[0] == s && HasLock(tr[|tr| - 1], s.main[k])
    decreases k - j
  {
    hide SecOk, ThreadsOk, ScanOk, SocketsOk, OwnAt, Skipped, Solo;
    ScanBefore(numa, s, j, k);
    NextAfter(s, j);
    hide MainOk;
    var head, cur := s.pcs[t].head, s.main[j + 1];
    var s' := Moved(s, t, if j + 1 == k then Attach(head, s.main[j], cur) else Scan(head, cur));
    assert DoScan(numa, s, t, s');
    assert Step(numa, s, t, s') by { hide DoScan; }
    StepInv(numa, s, t, s');
    assert s'.main == s.main && s'.pcs[t] == if j + 1 == k then Attach(head, s.main[j], cur) else Scan(head, cur);
    OwnKept(numa, s, t, s', k);
    hide Inv, Step, DoScan;
    var tr': seq<State>;
    if j + 1 == k { tr' := GrantsChosen(numa, s', t); } else { tr' := ScanFinds(numa, s', t, j + 1, k); }
    tr := Prepended(numa, s, t, tr');
  }

  lemma ScanBefore(numa: seq<nat>, s: State, j: nat, k: nat)
    requires Members(s) && |numa| == |s.pcs| && OwnAt(numa, s, k) && j < k
    ensures k < |s.main| && s.pcs[s.main[j + 1]].Wait?
    ensures s.nodes[s.main[j + 1]].socket == SocketOf(numa, s, s.main[0]) <==> j + 1 == k
  {
  }

  lemma OwnKept(numa: seq<nat>, s: State, t: nat, s': State, k: nat)
    requires Members(s) && Members(s') && |numa| == |s.pcs| == |s'.pcs| && OwnAt(numa, s, k) && s.main[0] == t
    requires s'.main == s.main && s'.nodes == s.nodes && forall u :: 0 <= u < |s.pcs| && u != t ==> s'.pcs[u] == s.pcs[u]
    ensures OwnAt(numa, s', k)
  {
    SkipMore(numa, s, s', k);
  }

  lemma ChooseStep(numa: seq<nat>, s: State, t: nat, n: nat) returns (s': State)
    requires Shape(numa, s) && t < |s.pcs| && s.pcs[t].Choose? && n < |s.nodes| && s.nodes[t].next == Some(n)
    ensures Shape(numa, s') && Step(numa, s, t, s')
    ensures s' == Moved(s, t, if s.nodes[n].socket == SocketOf(numa, s, t) then GrantLocal(n) else Scan(n, n))
  {
    s' := Moved(s, t, if s.nodes[n].socket == SocketOf(numa, s, t) then GrantLocal(n) else Scan(n, n));
    assert DoChoose(numa, s, t, s');
  }

  lemma ChoosesLocal(numa: seq<nat>, s: State, t: nat, k: nat) returns (s': State)
    requires Inv(numa, s) && Shape(numa, s) && s.main != [] && s.main[0] == t && t < |s.pcs| && s.pcs[t].Choose? && OwnAt(numa, s, k)
    ensures Shape(numa, s') && Step(numa, s, t, s') && Inv(numa, s') && s'.main == s.main && k < |s.main| && OwnAt(numa, s', k)
    ensures s'.pcs[t] == if k == 1 then GrantLocal(s.main[1]) else Scan(s.main[1], s.main[1])
  {
    assert k >= 1;
    hide SecOk, ThreadsOk, ScanOk, SocketsOk, OwnAt, Skipped;
    ScanBefore(numa, s, 0, k);
    NextAfter(s, 0);
    hide MainOk, Step;
    assert s.main[1] < |s.nodes|;
    s' := ChooseStep(numa, s, t, s.main[1]);
    StepInv(numa, s, t, s');
    OwnKept(numa, s, t, s', k);
  }

  /** The lock can stay on a socket: whatever queue it finds, a holder that gives
      the lock up while a thread of its own socket waits behind it, linked, can
      grant the first such thread by its own steps alone. */
  lemma StaysLocal(numa: seq<nat>, s: State, t: nat, k: nat) returns (tr: seq<State>)
    requires Inv(numa, s) && Shape(numa, s) && s.main != [] && s.main[0] == t && t < |s.pcs| && s.pcs[t].Choose? && OwnAt(numa, s, k)
    ensures Solo(numa, tr, t) && tr[0] == s && HasLock(tr[|tr| - 1], s.main[k])
  {
    assert k >= 1;
    hide Inv, Step, Solo, OwnAt;
    var s' := ChoosesLocal(numa, s, t, k);
    var tr': seq<State>;
    if k == 1 { tr' := GrantsChosen(numa, s', t); } else { tr' := ScanFinds(numa, s', t, 1, k); }
    tr := Prepended(numa, s, t, tr');
  }
}
