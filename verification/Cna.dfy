/** The compact NUMA-aware lock: one queue, whose holder moves the waiters of
    other sockets aside into a secondary queue.

    Queue nodes are named by their threads.  Every load, store or atomic
    instruction on a shared field is a step.  `main` (the holder and the waiters
    behind it) and `sec` are auxiliary: they name the two linked lists. */
module Cna {
  import opened Options

  /** The word a waiter spins on: nothing yet, granted, or granted together with
      the head of the secondary queue. */
  datatype Spin = Zero | One | Ptr(head: nat)

  datatype Node = Node(next: Option<nat>, secTail: nat, spin: Spin, socket: int)

  datatype Pc =
    | Idle
    | Xchg                                    // node cleared; about to exchange the tail
    | TryCas
    | SetSock(prev: nat)
    | Link(prev: nat)
    | Wait
    | Crit
    | NoNext                                  // unlock saw no successor
    | WaitNext
    | Choose
    | Scan(head: nat, last: nat)              // find_successor: head..last are of other sockets
    | Attach(head: nat, last: nat, cur: nat)  // cur is the successor; append head..last to sec
    | Cut(last: nat, cur: nat)
    | Mark(last: nat, cur: nat)
    | GrantLocal(cur: nat)
    | Fallback
    | GrantTo(succ: nat)

  datatype State = State(nodes: seq<Node>, tail: Option<nat>, pcs: seq<Pc>, main: seq<nat>, sec: seq<nat>)

  // numa[t] is the socket thread t runs on.

  ghost predicate Shape(numa: seq<nat>, s: State) {
    |numa| == |s.pcs| == |s.nodes|
  }

  function Moved(s: State, t: nat, pc: Pc): State
    requires t < |s.pcs|
  {
    s.(pcs := s.pcs[t := pc])
  }

  function SetNode(s: State, t: nat, d: Node): State
    requires t < |s.nodes|
  {
    s.(nodes := s.nodes[t := d])
  }

  /** The socket find_successor takes for the holder's. */
  function SocketOf(numa: seq<nat>, s: State, t: nat): int
    requires t < |s.nodes| == |numa|
  {
    if s.nodes[t].socket == -1 then numa[t] else s.nodes[t].socket
  }

  // ------------------------------------------------------------- the steps

  /** A lock clears the whole node; a trylock leaves the socket as it was. */
  ghost predicate Begin(s: State, t: nat, s': State)
    requires t < |s.pcs| == |s.nodes|
  {
    var d := s.nodes[t];
    && s.pcs[t].Idle?
    && (|| s' == SetNode(Moved(s, t, Xchg), t, Node(None, d.secTail, Zero, -1))
        || s' == SetNode(Moved(s, t, TryCas), t, Node(None, d.secTail, Zero, d.socket)))
  }

  ghost predicate DoXchg(s: State, t: nat, s': State)
    requires t < |s.pcs| == |s.nodes|
  {
    && s.pcs[t].Xchg?
    && s' == Moved(s, t, if s.tail == None then Crit else SetSock(s.tail.value)).(tail := Some(t), main := s.main + [t])
  }

  ghost predicate DoTry(s: State, t: nat, s': State)
    requires t < |s.pcs| == |s.nodes|
  {
    && s.pcs[t].TryCas?
    && s' == if s.tail == None then Moved(s, t, Crit).(tail := Some(t), main := s.main + [t]) else Moved(s, t, Idle)
  }

  ghost predicate DoSetSock(numa: seq<nat>, s: State, t: nat, s': State)
    requires t < |s.pcs| == |s.nodes| == |numa|
  {
    s.pcs[t].SetSock? && s' == SetNode(Moved(s, t, Link(s.pcs[t].prev)), t, s.nodes[t].(socket := numa[t]))
  }

  ghost predicate DoLink(s: State, t: nat, s': State)
    requires t < |s.pcs| == |s.nodes|
  {
    && s.pcs[t].Link? && s.pcs[t].prev < |s.nodes|
    && s' == SetNode(Moved(s, t, Wait), s.pcs[t].prev, s.nodes[s.pcs[t].prev].(next := Some(t)))
  }

  ghost predicate DoWake(s: State, t: nat, s': State)
    requires t < |s.pcs| == |s.nodes|
  {
    s.pcs[t].Wait? && s.nodes[t].spin != Zero && s' == Moved(s, t, Crit)
  }

  ghost predicate DoUnlock(s: State, t: nat, s': State)
    requires t < |s.pcs| == |s.nodes|
  {
    s.pcs[t].Crit? && s' == Moved(s, t, if s.nodes[t].next == None then NoNext else Choose)
  }

  /** Leave with nobody behind; or make the secondary queue the main one. */
  ghost predicate DoLeave(s: State, t: nat, s': State)
    requires t < |s.pcs| == |s.nodes|
  {
    && s.pcs[t].NoNext?
    && if s.tail != Some(t) then s' == Moved(s, t, WaitNext)
       else if !s.nodes[t].spin.Ptr? then s' == Moved(s, t, Idle).(tail := None, main := [])
       else
         var h := s.nodes[t].spin.head;
         h < |s.nodes| && s' == Moved(s, t, GrantTo(h)).(tail := Some(s.nodes[h].secTail), main := [t] + s.sec, sec := [])
  }

  ghost predicate DoWaitNext(s: State, t: nat, s': State)
    requires t < |s.pcs| == |s.nodes|
  {
    s.pcs[t].WaitNext? && s.nodes[t].next != None && s' == Moved(s, t, Choose)
  }

  /** Whether to keep the lock on this socket is left open. */
  ghost predicate DoChoose(numa: seq<nat>, s: State, t: nat, s': State)
    requires t < |s.pcs| == |s.nodes| == |numa|
  {
    && s.pcs[t].Choose? && s.nodes[t].next.Some? && s.nodes[t].next.value < |s.nodes|
    && var n := s.nodes[t].next.value;
       || s' == Moved(s, t, Fallback)
       || s' == Moved(s, t, if s.nodes[n].socket == SocketOf(numa, s, t) then GrantLocal(n) else Scan(n, n))
  }

  ghost predicate DoScan(numa: seq<nat>, s: State, t: nat, s': State)
    requires t < |s.pcs| == |s.nodes| == |numa|
  {
    && s.pcs[t].Scan? && s.pcs[t].last < |s.nodes|
    && var head, last := s.pcs[t].head, s.pcs[t].last;
       var cur := s.nodes[last].next;
       if cur == None then s' == Moved(s, t, Fallback)
       else
         cur.value < |s.nodes| &&
         s' == Moved(s, t, if s.nodes[cur.value].socket == SocketOf(numa, s, t) then Attach(head, last, cur.value)
                           else Scan(head, cur.value))
  }

  /** The skipped waiters change queues here. */
  ghost predicate DoAttach(s: State, t: nat, s': State)
    requires t < |s.pcs| == |s.nodes|
  {
    && s.pcs[t].Attach?
    && var pc := s.pcs[t];
       exists j :: 1 <= j < |s.main| && s.main[j] == pc.cur
         && var s0 := Moved(s, t, Cut(pc.last, pc.cur)).(main := [t] + s.main[j..], sec := s.sec + s.main[1..j]);
            if s.nodes[t].spin.Ptr? then
              var h := s.nodes[t].spin.head;
              h < |s.nodes| && s.nodes[h].secTail < |s.nodes|
              && s' == SetNode(s0, s.nodes[h].secTail, s.nodes[s.nodes[h].secTail].(next := Some(pc.head)))
            else
              s' == SetNode(s0, t, s.nodes[t].(spin := Ptr(pc.head)))
  }

  ghost predicate DoCut(s: State, t: nat, s': State)
    requires t < |s.pcs| == |s.nodes|
  {
    && s.pcs[t].Cut? && s.pcs[t].last < |s.nodes|
    && s' == SetNode(Moved(s, t, Mark(s.pcs[t].last, s.pcs[t].cur)), s.pcs[t].last, s.nodes[s.pcs[t].last].(next := None))
  }

  ghost predicate DoMark(s: State, t: nat, s': State)
    requires t < |s.pcs| == |s.nodes|
  {
    && s.pcs[t].Mark? && s.nodes[t].spin.Ptr? && s.nodes[t].spin.head < |s.nodes|
    && var h := s.nodes[t].spin.head;
       s' == SetNode(Moved(s, t, GrantLocal(s.pcs[t].cur)), h, s.nodes[h].(secTail := s.pcs[t].last))
  }

  ghost predicate DoGrantLocal(s: State, t: nat, s': State)
    requires t < |s.pcs| == |s.nodes|
  {
    && s.pcs[t].GrantLocal? && s.pcs[t].cur < |s.nodes| && |s.main| > 0
    && var c := s.pcs[t].cur;
       s' == SetNode(Moved(s, t, Idle), c, s.nodes[c].(spin := if s.nodes[t].spin != Zero then s.nodes[t].spin else One)).(main := s.main[1..])
  }

  /** Without a successor of its own socket the holder puts the secondary queue
      in front of the waiters, or serves the next one. */
  ghost predicate DoFallback(s: State, t: nat, s': State)
    requires t < |s.pcs| == |s.nodes|
  {
    && s.pcs[t].Fallback? && s.nodes[t].next.Some? && |s.main| > 0
    && if s.nodes[t].spin.Ptr? then
         var h := s.nodes[t].spin.head;
         h < |s.nodes| && s.nodes[h].secTail < |s.nodes|
         && s' == SetNode(Moved(s, t, GrantTo(h)), s.nodes[h].secTail, s.nodes[s.nodes[h].secTail].(next := s.nodes[t].next))
                    .(main := [t] + s.sec + s.main[1..], sec := [])
       else
         s' == Moved(s, t, GrantTo(s.nodes[t].next.value))
  }

  ghost predicate DoGrant(s: State, t: nat, s': State)
    requires t < |s.pcs| == |s.nodes|
  {
    && s.pcs[t].GrantTo? && s.pcs[t].succ < |s.nodes| && |s.main| > 0
    && s' == SetNode(Moved(s, t, Idle), s.pcs[t].succ, s.nodes[s.pcs[t].succ].(spin := One)).(main := s.main[1..])
  }

  ghost predicate Step(numa: seq<nat>, s: State, t: nat, s': State)
    requires Shape(numa, s)
  {
    t < |s.pcs| &&
    match s.pcs[t]
    case Idle => Begin(s, t, s')
    case Xchg => DoXchg(s, t, s')
    case TryCas => DoTry(s, t, s')
    case SetSock(_) => DoSetSock(numa, s, t, s')
    case Link(_) => DoLink(s, t, s')
    case Wait => DoWake(s, t, s')
    case Crit => DoUnlock(s, t, s')
    case NoNext => DoLeave(s, t, s')
    case WaitNext => DoWaitNext(s, t, s')
    case Choose => DoChoose(numa, s, t, s')
    case Scan(_, _) => DoScan(numa, s, t, s')
    case Attach(_, _, _) => DoAttach(s, t, s')
    case Cut(_, _) => DoCut(s, t, s')
    case Mark(_, _) => DoMark(s, t, s')
    case GrantLocal(_) => DoGrantLocal(s, t, s')
    case Fallback => DoFallback(s, t, s')
    case GrantTo(_) => DoGrant(s, t, s')
  }

  /** Nodes may hold anything at first, a stale socket included. */
  ghost predicate Init(numa: seq<nat>, s: State) {
    && Shape(numa, s) && s.tail == None && s.main == [] && s.sec == []
    && forall t :: 0 <= t < |s.pcs| ==> s.pcs[t] == Idle
  }

  ghost predicate Run(numa: seq<nat>, tr: seq<State>, sched: seq<nat>) {
    && |tr| == |sched| + 1 && Init(numa, tr[0])
    && forall i :: 0 <= i < |sched| ==> Shape(numa, tr[i]) && Step(numa, tr[i], sched[i], tr[i + 1])
  }

  // ------------------------------------------------------------- invariants

  predicate HolderPc(pc: Pc) {
    !pc.Idle? && !pc.Xchg? && !pc.TryCas? && !pc.SetSock? && !pc.Link? && !pc.Wait?
  }

  /** The holder's own link no longer leads to the waiter it will serve. */
  predicate Detached(pc: Pc) { pc.Cut? || pc.Mark? || pc.GrantLocal? || pc.GrantTo? }

  function Target(pc: Pc): nat
    requires Detached(pc)
  {
    match pc
    case Cut(_, cur) => cur
    case Mark(_, cur) => cur
    case GrantLocal(cur) => cur
    case GrantTo(succ) => succ
  }

  ghost predicate Members(s: State) {
    && |s.pcs| == |s.nodes|
    && (forall i :: 0 <= i < |s.main| ==> s.main[i] < |s.pcs|)
    && (forall i :: 0 <= i < |s.sec| ==> s.sec[i] < |s.pcs|)
    && (forall i, j :: 0 <= i < j < |s.main| ==> s.main[i] != s.main[j])
    && (forall i, j :: 0 <= i < j < |s.sec| ==> s.sec[i] != s.sec[j])
    && (forall i, j :: 0 <= i < |s.main| && 0 <= j < |s.sec| ==> s.main[i] != s.sec[j])
    && (s.main == [] ==> s.sec == [])
    && s.tail == (if s.main == [] then None else Some(s.main[|s.main| - 1]))
  }

  ghost predicate Linked(s: State, a: nat, b: nat)
    requires a < |s.nodes| && b < |s.pcs|
  {
    || (s.nodes[a].next == Some(b) && s.pcs[b].Wait?)
    || (s.nodes[a].next == None && (s.pcs[b] == SetSock(a) || s.pcs[b] == Link(a)))
  }

  /** The main list: each waiter is linked, or about to link itself. */
  ghost predicate MainOk(s: State)
    requires Members(s)
  {
    s.main != [] ==>
      var h := s.main[0];
      && (Detached(s.pcs[h]) ==> |s.main| > 1 && s.main[1] == Target(s.pcs[h]) && s.pcs[s.main[1]].Wait?)
      && (!Detached(s.pcs[h]) && |s.main| > 1 ==> Linked(s, h, s.main[1]))
      && (!Detached(s.pcs[h]) && |s.main| == 1 ==> s.nodes[h].next == None)
      && (forall i, j :: 1 <= i && j == i + 1 < |s.main| ==> Linked(s, s.main[i], s.main[j]))
      && (|s.main| > 1 ==> s.nodes[s.main[|s.main| - 1]].next == None)
  }

  /** The secondary list hangs off the holder's spin word. */
  ghost predicate SecOk(s: State)
    requires Members(s)
  {
    s.main != [] ==>
      var h, n := s.main[0], |s.sec|;
      && (forall i, j :: 0 <= i && j == i + 1 < n ==> s.nodes[s.sec[i]].next == Some(s.sec[j]))
      && (s.pcs[h].GrantTo? ==> s.sec == [])
      && (!s.pcs[h].GrantTo? && s.sec == [] ==> !s.nodes[h].spin.Ptr?)
      && (s.sec != [] ==> s.nodes[h].spin == Ptr(s.sec[0]))
      && (s.pcs[h].Cut? || s.pcs[h].Mark? ==> s.sec != [] && s.pcs[h].last == s.sec[n - 1])
      && (s.sec != [] && s.pcs[h].Cut? ==> s.nodes[s.sec[n - 1]].next == Some(s.pcs[h].cur))
      && (s.sec != [] && !s.pcs[h].Cut? ==> s.nodes[s.sec[n - 1]].next == None)
      && (s.sec != [] && !s.pcs[h].Cut? && !s.pcs[h].Mark? ==> s.nodes[s.sec[0]].secTail == s.sec[n - 1])
  }

  /** Where each thread stands. */
  ghost predicate ThreadsOk(s: State)
    requires Members(s)
  {
    && (forall t {:trigger s.pcs[t]} :: 0 <= t < |s.pcs| ==> ThreadOk(s, t))
    && (forall i :: 1 <= i < |s.main| ==> !HolderPc(s.pcs[s.main[i]]))
    && (forall i :: 0 <= i < |s.sec| ==> s.pcs[s.sec[i]].Wait?)
    && (s.main != [] ==> HolderPc(s.pcs[s.main[0]]) || s.pcs[s.main[0]].Wait?)
  }

  ghost predicate ThreadOk(s: State, t: nat)
    requires Members(s) && t < |s.pcs|
  {
    var pc, d := s.pcs[t], s.nodes[t];
    if pc.Idle? then t !in s.main && t !in s.sec
    else if pc.Xchg? || pc.TryCas? then t !in s.main && t !in s.sec && d.next == None && d.spin == Zero
    else if pc.SetSock? || pc.Link? then t in s.main && d.spin == Zero
    else if pc.Wait? then
      && (t in s.main || t in s.sec)
      && (d.spin != Zero <==> t == s.main[0])
    else
      s.main != [] && s.main[0] == t
  }

  /** While a scan is under way, the skipped waiters are main[1..j]. */
  ghost predicate ScanOk(numa: seq<nat>, s: State)
    requires Members(s) && |numa| == |s.pcs|
  {
    s.main != [] ==>
      var h := s.main[0];
      match s.pcs[h]
      case Scan(head, last) => exists j :: ScanAt(numa, s, head, last, j)
      case Attach(head, last, cur) => (exists j :: AttachAt(numa, s, head, last, cur, j)) && SameSocket(numa, s, cur)
      case Cut(_, cur) => SameSocket(numa, s, cur)
      case Mark(_, cur) => SameSocket(numa, s, cur)
      case GrantLocal(cur) => SameSocket(numa, s, cur)
      case _ => true
  }

  ghost predicate ScanAt(numa: seq<nat>, s: State, head: nat, last: nat, j: int)
    requires Members(s) && |numa| == |s.pcs|
  {
    1 <= j < |s.main| && head == s.main[1] && last == s.main[j] && Skipped(numa, s, j + 1)
  }

  ghost predicate AttachAt(numa: seq<nat>, s: State, head: nat, last: nat, cur: nat, j: int)
    requires Members(s) && |numa| == |s.pcs|
  {
    && 2 <= j < |s.main| && head == s.main[1] && last == s.main[j - 1] && cur == s.main[j]
    && Skipped(numa, s, j) && s.nodes[last].next == Some(cur)
  }

  /** The chosen successor waits, and is of the holder's socket. */
  ghost predicate SameSocket(numa: seq<nat>, s: State, cur: nat)
    requires Members(s) && |numa| == |s.pcs|
  {
    s.main != [] && cur < |s.nodes| && s.pcs[cur].Wait? && s.nodes[cur].socket == SocketOf(numa, s, s.main[0])
  }

  /** main[1..j] are linked waiters of other sockets than the holder's. */
  ghost predicate Skipped(numa: seq<nat>, s: State, j: nat)
    requires Members(s) && |numa| == |s.pcs| && 1 <= j <= |s.main|
  {
    forall i :: 1 <= i < j ==> s.pcs[s.main[i]].Wait? && s.nodes[s.main[i]].socket != SocketOf(numa, s, s.main[0])
  }

  /** Waiters carry their own socket, and none of the holder's is set aside. */
  ghost predicate SocketsOk(numa: seq<nat>, s: State)
    requires Members(s) && |numa| == |s.pcs|
  {
    && (forall t :: 0 <= t < |s.pcs| && (s.pcs[t].Link? || s.pcs[t].Wait?) ==> s.nodes[t].socket == numa[t])
    && forall i :: 0 <= i < |s.sec| ==> s.main != [] && s.nodes[s.sec[i]].socket != SocketOf(numa, s, s.main[0])
  }

  ghost predicate Inv(numa: seq<nat>, s: State) {
    && Shape(numa, s) && Members(s) && MainOk(s) && SecOk(s) && ThreadsOk(s) && ScanOk(numa, s) && SocketsOk(numa, s)
  }

  // ------------------------------------------------------------ every step

  /** A waiter that has not linked itself stands right behind `prev`. */
  lemma PrevOf(s: State, t: nat) returns (k: nat)
    requires Members(s) && MainOk(s) && ThreadsOk(s) && t < |s.pcs| && (s.pcs[t].SetSock? || s.pcs[t].Link?)
    ensures 1 <= k < |s.main| && s.main[k] == t && s.main[k - 1] == s.pcs[t].prev && s.nodes[s.pcs[t].prev].next == None
    ensures k == 1 ==> !Detached(s.pcs[s.main[0]])
  {
    assert ThreadOk(s, t);
    k :| 0 <= k < |s.main| && s.main[k] == t;
    assert HolderPc(s.pcs[s.main[0]]) || s.pcs[s.main[0]].Wait?;
    if k > 1 { assert Linked(s, s.main[k - 1], s.main[k]); }
  }

  /** A step that leaves both lists alone disturbs only its own thread. */
  lemma ThreadsKept(s: State, t: nat, s': State)
    requires Members(s) && Members(s') && ThreadsOk(s) && t < |s.pcs| == |s'.pcs|
    requires s'.main == s.main && s'.sec == s.sec
    requires forall u :: 0 <= u < |s.pcs| && u != t ==> s'.pcs[u] == s.pcs[u] && s'.nodes[u].spin == s.nodes[u].spin
    requires forall u :: 0 <= u < |s.pcs| && u != t && (s.pcs[u].Xchg? || s.pcs[u].TryCas?) ==> s'.nodes[u].next == s.nodes[u].next
    requires ThreadOk(s', t)
    requires t in s.sec ==> s'.pcs[t].Wait?
    requires s.main != [] && t == s.main[0] ==> HolderPc(s'.pcs[t]) || s'.pcs[t].Wait?
    ensures ThreadsOk(s')
  {
    forall u | 0 <= u < |s'.pcs| ensures ThreadOk(s', u) {
      assert ThreadOk(s, u);
    }
    assert ThreadOk(s', t);
  }

  /** A holder that looks around without writing. */
  lemma HolderMoves(numa: seq<nat>, s: State, t: nat, s': State)
    requires Inv(numa, s) && t < |s.pcs| && HolderPc(s.pcs[t]) && !Detached(s.pcs[t])
    requires |s'.pcs| == |s.pcs| && s' == Moved(s, t, s'.pcs[t]) && HolderPc(s'.pcs[t])
    requires Detached(s'.pcs[t]) ==> |s.main| > 1 && Target(s'.pcs[t]) == s.main[1] && s.pcs[s.main[1]].Wait?
    requires s'.pcs[t].GrantTo? ==> s.sec == []
    requires !s'.pcs[t].Cut? && !s'.pcs[t].Mark?
    requires s.main != [] && s.main[0] == t ==> ScanOk(numa, s')
    ensures Inv(numa, s')
  {
    hide MainOk, SecOk, ScanOk, SocketsOk;
    assert ThreadOk(s, t);
    HolderMovesLists(s, t, s');
    HolderMovesSockets(numa, s, t, s');
    ThreadsKept(s, t, s');
  }

  lemma HolderMovesLists(s: State, t: nat, s': State)
    requires Members(s) && MainOk(s) && SecOk(s) && t < |s.pcs| && HolderPc(s.pcs[t]) && !Detached(s.pcs[t])
    requires s.main != [] && s.main[0] == t
    requires |s'.pcs| == |s.pcs| && s' == Moved(s, t, s'.pcs[t]) && HolderPc(s'.pcs[t])
    requires Detached(s'.pcs[t]) ==> |s.main| > 1 && Target(s'.pcs[t]) == s.main[1] && s.pcs[s.main[1]].Wait?
    requires s'.pcs[t].GrantTo? ==> s.sec == []
    requires !s'.pcs[t].Cut? && !s'.pcs[t].Mark?
    ensures Members(s') && MainOk(s') && SecOk(s')
  {
    forall i, j | 1 <= i && j == i + 1 < |s.main| ensures Linked(s', s'.main[i], s'.main[j]) {
      assert Linked(s, s.main[i], s.main[j]);
    }
    if |s.main| > 1 && !Detached(s'.pcs[t]) { assert Linked(s, t, s.main[1]); }
  }

  lemma HolderMovesSockets(numa: seq<nat>, s: State, t: nat, s': State)
    requires Members(s) && Members(s') && |numa| == |s.pcs| && SocketsOk(numa, s)
    requires t < |s.pcs| && HolderPc(s.pcs[t]) && |s'.pcs| == |s.pcs| && s' == Moved(s, t, s'.pcs[t]) && HolderPc(s'.pcs[t])
    ensures SocketsOk(numa, s')
  {
    forall i | 0 <= i < |s'.sec| ensures s'.main != [] && s'.nodes[s'.sec[i]].socket != SocketOf(numa, s', s'.main[0]) {
      assert s.nodes[s.sec[i]].socket != SocketOf(numa, s, s.main[0]);
    }
  }

  lemma UnlockInv(numa: seq<nat>, s: State, t: nat, s': State)
    requires Inv(numa, s) && t < |s.pcs| && DoUnlock(s, t, s')
    ensures Inv(numa, s')
  {
    hide Members, MainOk, SecOk, ThreadsOk, SocketsOk;
    HolderMoves(numa, s, t, s');
  }

  lemma WaitNextInv(numa: seq<nat>, s: State, t: nat, s': State)
    requires Inv(numa, s) && t < |s.pcs| && DoWaitNext(s, t, s')
    ensures Inv(numa, s')
  {
    hide Members, MainOk, SecOk, ThreadsOk, SocketsOk;
    HolderMoves(numa, s, t, s');
  }

  /** The holder's link leads to the waiter right behind it. */
  lemma NextIs(s: State, t: nat)
    requires Members(s) && MainOk(s) && ThreadsOk(s) && t < |s.pcs| && HolderPc(s.pcs[t]) && !Detached(s.pcs[t])
    requires s.nodes[t].next != None
    ensures |s.main| > 1 && s.main[0] == t && s.nodes[t].next == Some(s.main[1]) && s.pcs[s.main[1]].Wait?
  {
    assert ThreadOk(s, t);
    if |s.main| > 1 { assert Linked(s, t, s.main[1]); }
  }

  lemma ChooseInv(numa: seq<nat>, s: State, t: nat, s': State)
    requires Inv(numa, s) && t < |s.pcs| && DoChoose(numa, s, t, s')
    ensures Inv(numa, s')
  {
    hide MainOk, SecOk, ThreadsOk, SocketsOk, Linked;
    NextIs(s, t);
    if s'.pcs[t].Scan? { assert ScanAt(numa, s', s'.pcs[t].head, s'.pcs[t].last, 1); }
    HolderMoves(numa, s, t, s');
  }

  lemma ScanInv(numa: seq<nat>, s: State, t: nat, s': State)
    requires Inv(numa, s) && t < |s.pcs| && DoScan(numa, s, t, s')
    ensures Inv(numa, s')
  {
    hide SecOk, SocketsOk, Skipped;
    assert ThreadOk(s, t);
    assert s.main[0] == t;
    if s'.pcs[t].Fallback? {
      HolderMoves(numa, s, t, s');
    } else {
      ScanOn(numa, s, t, s');
      hide MainOk, ThreadsOk, ScanOk;
      HolderMoves(numa, s, t, s');
    }
  }

  lemma ScanOn(numa: seq<nat>, s: State, t: nat, s': State)
    requires Inv(numa, s) && t < |s.pcs| && DoScan(numa, s, t, s') && !s'.pcs[t].Fallback?
    requires s.main != [] && s.main[0] == t
    ensures Members(s') && ScanOk(numa, s')
  {
    hide SecOk, SocketsOk, ThreadsOk, MainOk, Skipped;
    var pc, last := s.pcs[t], s.pcs[t].last;
    var j :| ScanAt(numa, s, pc.head, last, j);
    ScanNext(s, j);
    SkipMore(numa, s, s', j + 1);
    if s'.pcs[t].Scan? {
      OneMore(numa, s', j + 1);
      assert ScanAt(numa, s', pc.head, s'.pcs[t].last, j + 1);
    } else {
      assert AttachAt(numa, s', pc.head, last, s'.pcs[t].cur, j + 1);
    }
  }

  /** From a linked waiter of the main list the scan reaches the next one. */
  lemma ScanNext(s: State, j: nat)
    requires Members(s) && MainOk(s) && 1 <= j < |s.main|
    ensures s.nodes[s.main[j]].next != None ==>
      j + 1 < |s.main| && s.nodes[s.main[j]].next == Some(s.main[j + 1]) && s.pcs[s.main[j + 1]].Wait?
  {
    if j + 1 < |s.main| { assert Linked(s, s.main[j], s.main[j + 1]); }
  }

  lemma SkipMore(numa: seq<nat>, s: State, s': State, j: nat)
    requires Members(s) && |numa| == |s.pcs| && 1 <= j <= |s.main| && Skipped(numa, s, j)
    requires Members(s') && s'.main == s.main && s'.nodes == s.nodes && |s'.pcs| == |s.pcs|
    requires forall u :: 0 <= u < |s.pcs| && u != s.main[0] ==> s'.pcs[u] == s.pcs[u]
    ensures Skipped(numa, s', j)
  {
  }

  lemma OneMore(numa: seq<nat>, s: State, j: nat)
    requires Members(s) && |numa| == |s.pcs| && 1 <= j < |s.main| && Skipped(numa, s, j)
    requires s.pcs[s.main[j]].Wait? && s.nodes[s.main[j]].socket != SocketOf(numa, s, s.main[0])
    ensures Skipped(numa, s, j + 1)
  {
  }

  /** What a scan has found stays so while others join, link and wait. */
  ghost predicate Kept(s: State, s': State)
    requires Members(s) && Members(s')
  {
    && s.main != [] && s.main <= s'.main && |s'.pcs| == |s.pcs|
    && s'.pcs[s.main[0]] == s.pcs[s.main[0]] && s'.nodes[s.main[0]].socket == s.nodes[s.main[0]].socket
    && (forall u :: 0 <= u < |s.pcs| && s.pcs[u].Wait? ==> s'.pcs[u].Wait? && s'.nodes[u].socket == s.nodes[u].socket)
    && (forall u :: 0 <= u < |s.pcs| && s.nodes[u].next != None && u in s.main ==> s'.nodes[u].next == s.nodes[u].next)
  }

  lemma SkippedKept(numa: seq<nat>, s: State, s': State, j: nat)
    requires Members(s) && Members(s') && |numa| == |s.pcs| && Kept(s, s') && 1 <= j <= |s.main| && Skipped(numa, s, j)
    ensures Skipped(numa, s', j)
  {
    forall i | 1 <= i < j ensures s'.pcs[s'.main[i]].Wait? && s'.nodes[s'.main[i]].socket != SocketOf(numa, s', s'.main[0]) {
      assert s'.main[i] == s.main[i];
    }
  }

  lemma ScanKept(numa: seq<nat>, s: State, s': State)
    requires Members(s) && Members(s') && |numa| == |s.pcs| && Kept(s, s') && ScanOk(numa, s)
    ensures ScanOk(numa, s')
  {
    hide Skipped;
    var h := s.main[0];
    var pc := s.pcs[h];
    assert s'.main[0] == h;
    if pc.Scan? {
      var j :| ScanAt(numa, s, pc.head, pc.last, j);
      SkippedKept(numa, s, s', j + 1);
      assert ScanAt(numa, s', pc.head, pc.last, j);
    } else if pc.Attach? {
      var j :| AttachAt(numa, s, pc.head, pc.last, pc.cur, j);
      SkippedKept(numa, s, s', j);
      assert s.main[j - 1] in s.main;
      assert AttachAt(numa, s', pc.head, pc.last, pc.cur, j);
    }
  }

  lemma SocketsKept(numa: seq<nat>, s: State, s': State)
    requires Members(s) && Members(s') && |numa| == |s.pcs| && Kept(s, s') && SocketsOk(numa, s) && s'.sec == s.sec
    requires forall i :: 0 <= i < |s.sec| ==> s.pcs[s.sec[i]].Wait?
    requires forall u :: 0 <= u < |s.pcs| && (s'.pcs[u].Link? || s'.pcs[u].Wait?) ==>
               s'.nodes[u].socket == numa[u] || ((s.pcs[u].Link? || s.pcs[u].Wait?) && s'.nodes[u].socket == s.nodes[u].socket)
    ensures SocketsOk(numa, s')
  {
    assert s'.main[0] == s.main[0];
    forall i | 0 <= i < |s'.sec| ensures s'.main != [] && s'.nodes[s'.sec[i]].socket != SocketOf(numa, s', s'.main[0]) {
      assert s.nodes[s.sec[i]].socket != SocketOf(numa, s, s.main[0]);
    }
  }

  /** Writing a node that is in neither list, and none of whose thread's links. */
  lemma OutsiderWrites(numa: seq<nat>, s: State, t: nat, s': State)
    requires Inv(numa, s) && t < |s.pcs| && t !in s.main && t !in s.sec && Shape(numa, s')
    requires s' == s.(nodes := s'.nodes, pcs := s'.pcs)
    requires forall u :: 0 <= u < |s.pcs| && u != t ==> s'.pcs[u] == s.pcs[u] && s'.nodes[u] == s.nodes[u]
    requires s'.pcs[t].Idle? || ((s'.pcs[t].Xchg? || s'.pcs[t].TryCas?) && s'.nodes[t].next == None && s'.nodes[t].spin == Zero)
    ensures Inv(numa, s')
  {
    hide MainOk, SecOk, ScanOk;
    assert s.main != [] ==> s.main[0] != t;
    OutsiderLists(s, t, s');
    ThreadsKept(s, t, s');
    if s.main != [] { OutsiderKept(s, t, s'); hide Kept; ScanKept(numa, s, s'); SocketsKept(numa, s, s'); }
    else { NoScan(numa, s, s'); }
  }

  lemma OutsiderKept(s: State, t: nat, s': State)
    requires Members(s) && Members(s') && ThreadsOk(s) && t < |s.pcs| == |s'.pcs| && t !in s.main && t !in s.sec && s.main != []
    requires s' == s.(nodes := s'.nodes, pcs := s'.pcs)
    requires forall u :: 0 <= u < |s.pcs| && u != t ==> s'.pcs[u] == s.pcs[u] && s'.nodes[u] == s.nodes[u]
    ensures Kept(s, s')
  {
    assert s.main[0] in s.main;
    assert ThreadOk(s, t);
  }

  lemma NoScan(numa: seq<nat>, s: State, s': State)
    requires Members(s) && Members(s') && |numa| == |s.pcs| == |s'.pcs| && s.main == [] && ThreadsOk(s)
    requires s'.sec == [] && (s'.main == [] || (|s'.main| == 1 && s'.pcs[s'.main[0]].Crit?))
    requires forall u :: 0 <= u < |s'.pcs| && (s'.pcs[u].Link? || s'.pcs[u].Wait?) ==> s.pcs[u].Link? || s.pcs[u].Wait?
    ensures ScanOk(numa, s') && SocketsOk(numa, s')
  {
    forall u | 0 <= u < |s.pcs| ensures !s.pcs[u].Link? && !s.pcs[u].Wait? { assert ThreadOk(s, u); }
  }

  lemma OutsiderLists(s: State, t: nat, s': State)
    requires Members(s) && MainOk(s) && SecOk(s) && t < |s.pcs| == |s'.pcs| && t !in s.main && t !in s.sec
    requires |s'.nodes| == |s.nodes| && s' == s.(nodes := s'.nodes, pcs := s'.pcs)
    requires forall u :: 0 <= u < |s.pcs| && u != t ==> s'.pcs[u] == s.pcs[u] && s'.nodes[u] == s.nodes[u]
    ensures Members(s') && MainOk(s') && SecOk(s')
  {
    assert forall i :: 0 <= i < |s.main| ==> s.main[i] != t;
    assert forall i :: 0 <= i < |s.sec| ==> s.sec[i] != t;
    assert Members(s');
    hide MainOk;
    OutsiderSec(s, t, s');
    OutsiderMain(s, t, s');
  }

  lemma OutsiderSec(s: State, t: nat, s': State)
    requires Members(s) && Members(s') && SecOk(s) && s'.main == s.main && s'.sec == s.sec && |s'.pcs| == |s.pcs| && t !in s.main && t !in s.sec
    requires forall u :: 0 <= u < |s.pcs| && u != t ==> s'.pcs[u] == s.pcs[u] && s'.nodes[u] == s.nodes[u]
    ensures SecOk(s')
  {
    assert forall i :: 0 <= i < |s.sec| ==> s.sec[i] != t;
  }

  lemma OutsiderMain(s: State, t: nat, s': State)
    requires Members(s) && Members(s') && MainOk(s) && s'.main == s.main && t !in s.main && |s'.pcs| == |s.pcs|
    requires forall u :: 0 <= u < |s.pcs| && u != t ==> s'.pcs[u] == s.pcs[u] && s'.nodes[u] == s.nodes[u]
    ensures MainOk(s')
  {
    assert forall i :: 0 <= i < |s.main| ==> s.main[i] != t;
    if s.main != [] {
      forall i, j | 1 <= i && j == i + 1 < |s.main| ensures Linked(s', s'.main[i], s'.main[j]) {
        assert Linked(s, s.main[i], s.main[j]);
      }
      if |s.main| > 1 && !Detached(s'.pcs[s.main[0]]) { assert Linked(s, s.main[0], s.main[1]); }
    }
  }

  lemma BeginInv(numa: seq<nat>, s: State, t: nat, s': State)
    requires Inv(numa, s) && t < |s.pcs| && Begin(s, t, s')
    ensures Inv(numa, s')
  {
    assert ThreadOk(s, t);
    hide MainOk, SecOk, ThreadsOk, ScanOk, SocketsOk, Members;
    OutsiderWrites(numa, s, t, s');
  }

  /** A thread joins the end of the main list. */
  lemma JoinInv(numa: seq<nat>, s: State, t: nat, s': State)
    requires Inv(numa, s) && t < |s.pcs| && (s.pcs[t].Xchg? || s.pcs[t].TryCas?)
    requires s' == Moved(s, t, if s.tail == None then Crit else SetSock(s.tail.value)).(tail := Some(t), main := s.main + [t])
    ensures Inv(numa, s')
  {
    hide MainOk, SecOk, ScanOk, SocketsOk;
    assert ThreadOk(s, t);
    assert t !in s.main && t !in s.sec;
    JoinLists(s, t, s');
    JoinThreads(s, t, s');
    if s.main != [] { JoinKept(s, t, s'); hide Kept; ScanKept(numa, s, s'); SocketsKept(numa, s, s'); }
    else { NoScan(numa, s, s'); }
  }

  lemma JoinKept(s: State, t: nat, s': State)
    requires Members(s) && Members(s') && t < |s.pcs| && t !in s.main && !s.pcs[t].Wait? && s.main != []
    requires s' == Moved(s, t, if s.tail == None then Crit else SetSock(s.tail.value)).(tail := Some(t), main := s.main + [t])
    ensures Kept(s, s')
  {
    assert s.main[0] in s.main;
  }

  lemma JoinLists(s: State, t: nat, s': State)
    requires Members(s) && MainOk(s) && SecOk(s) && t < |s.pcs| && t !in s.main && t !in s.sec
    requires s.nodes[t].next == None && s.nodes[t].spin == Zero
    requires s' == Moved(s, t, if s.tail == None then Crit else SetSock(s.tail.value)).(tail := Some(t), main := s.main + [t])
    ensures Members(s') && MainOk(s') && SecOk(s')
  {
    var n := |s.main|;
    assert forall i :: 0 <= i < n ==> s.main[i] != t;
    assert Members(s');
    JoinMain(s, t, s');
  }

  lemma JoinMain(s: State, t: nat, s': State)
    requires Members(s) && MainOk(s) && Members(s') && t < |s.pcs| && t !in s.main
    requires s.nodes[t].next == None
    requires s' == Moved(s, t, if s.tail == None then Crit else SetSock(s.tail.value)).(tail := Some(t), main := s.main + [t])
    ensures MainOk(s')
  {
    var n := |s.main|;
    forall i, j | 1 <= i && j == i + 1 < |s'.main| ensures Linked(s', s'.main[i], s'.main[j]) {
      if j < n { assert Linked(s, s.main[i], s.main[j]); }
    }
    if n > 1 && !Detached(s.pcs[s.main[0]]) { assert Linked(s, s.main[0], s.main[1]); }
  }

  lemma JoinThreads(s: State, t: nat, s': State)
    requires Members(s) && Members(s') && ThreadsOk(s) && t < |s.pcs| && t !in s.main && t !in s.sec
    requires s.nodes[t].spin == Zero
    requires s' == Moved(s, t, if s.tail == None then Crit else SetSock(s.tail.value)).(tail := Some(t), main := s.main + [t])
    ensures ThreadsOk(s')
  {
    forall u | 0 <= u < |s'.pcs| ensures ThreadOk(s', u) {
      assert ThreadOk(s, u);
      assert s'.main[|s.main|] == t;
      if s.main != [] { assert s'.main[0] == s.main[0]; }
    }
    if s.main != [] { assert s'.main[0] == s.main[0]; }
  }

  lemma XchgInv(numa: seq<nat>, s: State, t: nat, s': State)
    requires Inv(numa, s) && t < |s.pcs| && DoXchg(s, t, s')
    ensures Inv(numa, s')
  {
    hide Inv;
    JoinInv(numa, s, t, s');
  }

  lemma TryInv(numa: seq<nat>, s: State, t: nat, s': State)
    requires Inv(numa, s) && t < |s.pcs| && DoTry(s, t, s')
    ensures Inv(numa, s')
  {
    if s.tail == None {
      hide Inv;
      JoinInv(numa, s, t, s');
    } else {
      assert ThreadOk(s, t);
      hide MainOk, SecOk, ThreadsOk, ScanOk, SocketsOk, Members;
      OutsiderWrites(numa, s, t, s');
    }
  }

  /** A waiter behind prev that has not linked itself sets its own fields. */
  lemma SetSockInv(numa: seq<nat>, s: State, t: nat, s': State)
    requires Inv(numa, s) && t < |s.pcs| && DoSetSock(numa, s, t, s')
    ensures Inv(numa, s')
  {
    hide SecOk, ScanOk, SocketsOk;
    var k := PrevOf(s, t);
    assert ThreadOk(s, t);
    SetSockLists(s, t, s', k);
    ThreadsKept(s, t, s');
    hide MainOk;
    ScanKept(numa, s, s');
    SocketsKept(numa, s, s');
  }

  lemma SetSockLists(s: State, t: nat, s': State, k: nat)
    requires Members(s) && MainOk(s) && SecOk(s) && t < |s.pcs| && s.pcs[t].SetSock? && 1 <= k < |s.main| && s.main[k] == t
    requires |s'.nodes| == |s.nodes| && s' == s.(pcs := s.pcs[t := Link(s.pcs[t].prev)], nodes := s.nodes[t := s.nodes[t].(socket := s'.nodes[t].socket)])
    ensures Members(s') && MainOk(s') && SecOk(s')
  {
    assert SecOk(s') by { hide MainOk; }
    hide SecOk;
    forall i, j | 1 <= i && j == i + 1 < |s.main| ensures Linked(s', s'.main[i], s'.main[j]) {
      assert Linked(s, s.main[i], s.main[j]);
    }
    if |s.main| > 1 && !Detached(s'.pcs[s.main[0]]) { assert Linked(s, s.main[0], s.main[1]); }
  }

  lemma LinkInv(numa: seq<nat>, s: State, t: nat, s': State)
    requires Inv(numa, s) && t < |s.pcs| && DoLink(s, t, s')
    ensures Inv(numa, s')
  {
    hide SecOk, ScanOk, SocketsOk;
    var k := PrevOf(s, t);
    assert ThreadOk(s, t);
    LinkLists(numa, s, t, s', k);
    assert ThreadOk(s', t);
    ThreadsKept(s, t, s');
    hide MainOk;
    ScanKept(numa, s, s');
    SocketsKept(numa, s, s');
  }

  lemma LinkLists(numa: seq<nat>, s: State, t: nat, s': State, k: nat)
    requires Members(s) && MainOk(s) && SecOk(s) && t < |s.pcs| && DoLink(s, t, s') && |numa| == |s.pcs| && ScanOk(numa, s)
    requires 1 <= k < |s.main| && s.main[k] == t && s.main[k - 1] == s.pcs[t].prev && s.nodes[s.pcs[t].prev].next == None
    requires k == 1 ==> !Detached(s.pcs[s.main[0]])
    ensures Members(s') && MainOk(s') && SecOk(s')
  {
    hide ScanOk, MainOk, SecOk;
    LinkMain(s, t, s', k);
    LinkSec(s, t, s', k);
  }

  lemma LinkMain(s: State, t: nat, s': State, k: nat)
    requires Members(s) && Members(s') && MainOk(s) && t < |s.pcs| && DoLink(s, t, s')
    requires 1 <= k < |s.main| && s.main[k] == t && s.main[k - 1] == s.pcs[t].prev && s.nodes[s.pcs[t].prev].next == None
    requires k == 1 ==> !Detached(s.pcs[s.main[0]])
    ensures MainOk(s')
  {
    var prev := s.pcs[t].prev;
    forall i, j | 1 <= i && j == i + 1 < |s.main| ensures Linked(s', s'.main[i], s'.main[j]) {
      assert Linked(s, s.main[i], s.main[j]);
      if i == k - 1 { assert s'.nodes[prev].next == Some(t) && s'.pcs[t].Wait?; }
      else { assert s.main[i] != prev && s.main[j] != t; }
    }
    if |s.main| > 1 && !Detached(s'.pcs[s.main[0]]) { assert Linked(s, s.main[0], s.main[1]); }
  }

  lemma LinkSec(s: State, t: nat, s': State, k: nat)
    requires Members(s) && Members(s') && SecOk(s) && t < |s.pcs| && DoLink(s, t, s')
    requires 1 <= k < |s.main| && s.main[k] == t && s.main[k - 1] == s.pcs[t].prev
    ensures SecOk(s')
  {
    assert forall i :: 0 <= i < |s.sec| ==> s.sec[i] != s.pcs[t].prev;
  }

  lemma WakeInv(numa: seq<nat>, s: State, t: nat, s': State)
    requires Inv(numa, s) && t < |s.pcs| && DoWake(s, t, s')
    ensures Inv(numa, s')
  {
    assert ThreadOk(s, t);
    hide MainOk, SecOk, ScanOk, SocketsOk;
    WakeLists(s, t, s');
    ThreadsKept(s, t, s');
    WakeSockets(numa, s, t, s');
  }

  lemma WakeLists(s: State, t: nat, s': State)
    requires Members(s) && MainOk(s) && SecOk(s) && t < |s.pcs| && DoWake(s, t, s') && s.main != [] && s.main[0] == t
    ensures Members(s') && MainOk(s') && SecOk(s')
  {
    forall i, j | 1 <= i && j == i + 1 < |s.main| ensures Linked(s', s'.main[i], s'.main[j]) {
      assert Linked(s, s.main[i], s.main[j]);
    }
    if |s.main| > 1 { assert Linked(s, s.main[0], s.main[1]); }
  }

  lemma WakeSockets(numa: seq<nat>, s: State, t: nat, s': State)
    requires Members(s) && Members(s') && |numa| == |s.pcs| && ScanOk(numa, s) && SocketsOk(numa, s)
    requires t < |s.pcs| && DoWake(s, t, s') && s.main != [] && s.main[0] == t
    ensures ScanOk(numa, s') && SocketsOk(numa, s')
  {
    forall i | 0 <= i < |s.sec| ensures s'.nodes[s.sec[i]].socket != SocketOf(numa, s', t) {
      assert s.nodes[s.sec[i]].socket != SocketOf(numa, s, t);
    }
  }

  // ------------------------------------------- leaving and promoting a queue

  lemma HolderIs(s: State, t: nat)
    requires Members(s) && ThreadsOk(s) && t < |s.pcs| && HolderPc(s.pcs[t])
    ensures s.main != [] && s.main[0] == t && t !in s.sec
    ensures forall i :: 1 <= i < |s.main| ==> s.main[i] != t
  {
    assert ThreadOk(s, t);
  }

  lemma LeaveInv(numa: seq<nat>, s: State, t: nat, s': State)
    requires Inv(numa, s) && t < |s.pcs| && DoLeave(s, t, s')
    ensures Inv(numa, s')
  {
    HolderIs(s, t);
    if s.tail != Some(t) {
      hide Members, MainOk, SecOk, ThreadsOk, SocketsOk;
      HolderMoves(numa, s, t, s');
    } else if !s.nodes[t].spin.Ptr? {
      LeaveEmpty(numa, s, t, s');
    } else {
      LeavePromotes(numa, s, t, s');
    }
  }

  lemma LeaveEmpty(numa: seq<nat>, s: State, t: nat, s': State)
    requires Inv(numa, s) && t < |s.pcs| && DoLeave(s, t, s') && s.tail == Some(t) && !s.nodes[t].spin.Ptr?
    requires s.main != [] && s.main[0] == t
    ensures Inv(numa, s')
  {
    hide MainOk, ScanOk;
    assert s.sec == [];
    assert |s.main| == 1;
    forall u | 0 <= u < |s'.pcs| ensures ThreadOk(s', u) { assert ThreadOk(s, u); }
    assert MainOk(s') && ScanOk(numa, s') by { NoMain(numa, s'); }
  }

  lemma NoMain(numa: seq<nat>, s: State)
    requires Members(s) && |numa| == |s.pcs| && s.main == []
    ensures MainOk(s) && ScanOk(numa, s)
  {
  }

  lemma LeavePromotes(numa: seq<nat>, s: State, t: nat, s': State)
    requires Inv(numa, s) && t < |s.pcs| && DoLeave(s, t, s') && s.tail == Some(t) && s.nodes[t].spin.Ptr?
    requires s.main != [] && s.main[0] == t && t !in s.sec
    ensures Inv(numa, s')
  {
    hide ScanOk, SocketsOk;
    assert |s.main| == 1 && s.sec != [];
    assert s'.main == [t] + s.sec;
    PromotesMain(s, t, s');
    PromotesThreads(s, t, s');
    assert ScanOk(numa, s') by { hide MainOk, SecOk, ThreadsOk; JustGrants(numa, s', t); }
    PromotesSockets(numa, s, t, s');
  }

  lemma JustGrants(numa: seq<nat>, s: State, t: nat)
    requires Members(s) && |numa| == |s.pcs| && s.main != [] && s.main[0] == t && s.pcs[t].GrantTo?
    ensures ScanOk(numa, s)
  {
  }

  lemma PromotesMain(s: State, t: nat, s': State)
    requires Members(s) && MainOk(s) && SecOk(s) && ThreadsOk(s) && t < |s.pcs| && s.pcs[t].NoNext?
    requires s.main == [t] && s.sec != [] && t !in s.sec && s.nodes[t].spin.Ptr? && s.nodes[t].spin.head < |s.nodes|
    requires s' == Moved(s, t, GrantTo(s.nodes[t].spin.head)).(tail := Some(s.nodes[s.nodes[t].spin.head].secTail), main := [t] + s.sec, sec := [])
    ensures Members(s') && MainOk(s') && SecOk(s')
  {
    assert forall i :: 0 <= i < |s.sec| ==> s.pcs[s.sec[i]].Wait? && s.sec[i] != t;
    hide ThreadsOk, MainOk;
    assert Members(s');
    assert forall i :: 1 <= i < |s'.main| ==> s'.main[i] == s.sec[i - 1];
    forall i, j | 1 <= i && j == i + 1 < |s'.main| ensures Linked(s', s'.main[i], s'.main[j]) {
      assert s.nodes[s.sec[i - 1]].next == Some(s.sec[j - 1]);
    }
    assert SecOk(s');
    hide SecOk;
    assert MainWhole(s');
    WholeIsMain(s');
  }

  /** The main list behind a holder that grants to the waiter behind it. */
  ghost predicate MainWhole(s: State)
    requires Members(s)
  {
    && |s.main| > 1 && s.pcs[s.main[0]] == GrantTo(s.main[1]) && s.pcs[s.main[1]].Wait?
    && (forall i, j :: 1 <= i && j == i + 1 < |s.main| ==> Linked(s, s.main[i], s.main[j]))
    && s.nodes[s.main[|s.main| - 1]].next == None
  }

  lemma WholeIsMain(s: State)
    requires Members(s) && MainWhole(s)
    ensures MainOk(s)
  {
  }

  lemma PromotesThreads(s: State, t: nat, s': State)
    requires Members(s) && Members(s') && ThreadsOk(s) && t < |s.pcs| && s.pcs[t].NoNext?
    requires s.main == [t] && t !in s.sec
    requires s'.main == [t] + s.sec && s'.sec == [] && s'.nodes == s.nodes && s'.pcs == s.pcs[t := s'.pcs[t]] && s'.pcs[t].GrantTo?
    ensures ThreadsOk(s')
  {
    forall u | 0 <= u < |s'.pcs| ensures ThreadOk(s', u) {
      assert ThreadOk(s, u);
      assert u in s'.main <==> u in s.main || u in s.sec;
    }
  }

  lemma PromotesSockets(numa: seq<nat>, s: State, t: nat, s': State)
    requires Members(s) && Members(s') && |numa| == |s.pcs| && SocketsOk(numa, s)
    requires s'.nodes == s.nodes && t < |s.pcs| && s'.pcs == s.pcs[t := s'.pcs[t]] && s'.sec == [] && s'.pcs[t].GrantTo?
    ensures SocketsOk(numa, s')
  {
  }

  lemma FallbackInv(numa: seq<nat>, s: State, t: nat, s': State)
    requires Inv(numa, s) && t < |s.pcs| && DoFallback(s, t, s')
    ensures Inv(numa, s')
  {
    HolderIs(s, t);
    NextIs(s, t);
    if s.nodes[t].spin.Ptr? {
      FallbackFlush(numa, s, t, s');
    } else {
      hide MainOk, ThreadsOk, SocketsOk, Linked;
      HolderMoves(numa, s, t, s');
    }
  }

  lemma FallbackFlush(numa: seq<nat>, s: State, t: nat, s': State)
    requires Inv(numa, s) && t < |s.pcs| && DoFallback(s, t, s') && s.nodes[t].spin.Ptr?
    requires |s.main| > 1 && s.main[0] == t && t !in s.sec
    requires s.nodes[t].next == Some(s.main[1]) && s.pcs[s.main[1]].Wait?
    ensures Inv(numa, s')
  {
    hide ScanOk, SocketsOk;
    assert s.sec != [] && s.pcs[s.sec[|s.sec| - 1]].Wait?;
    hide ThreadsOk;
    FlushMembers(s, t, s');
    FlushMain(s, t, s');
    assert SecOk(s') by { hide MainOk; }
    hide MainOk, SecOk;
    FlushThreads(s, t, s');
    JustGrants(numa, s', t);
    FlushSockets(numa, s, t, s');
  }

  lemma FlushMembers(s: State, t: nat, s': State)
    requires Members(s) && |s.main| > 1 && s.main[0] == t && t < |s.pcs| && |s'.pcs| == |s'.nodes| == |s.pcs|
    requires s'.main == [t] + s.sec + s.main[1..] && s'.sec == [] && s'.tail == s.tail
    ensures Members(s')
  {
    var n := |s.sec|;
    forall i | 0 <= i < |s'.main| ensures s'.main[i] == FlushAt(s, i) && s'.main[i] < |s.pcs| {}
    forall i, j | 0 <= i < j < |s'.main| ensures s'.main[i] != s'.main[j] {
      assert s'.main[i] == FlushAt(s, i) && s'.main[j] == FlushAt(s, j);
    }
    assert s'.main[|s'.main| - 1] == s.main[|s.main| - 1];
  }

  function FlushAt(s: State, i: nat): nat
    requires |s.main| > 0 && i < |s.main| + |s.sec|
  {
    if i == 0 then s.main[0] else if i <= |s.sec| then s.sec[i - 1] else s.main[i - |s.sec|]
  }

  lemma FlushMain(s: State, t: nat, s': State)
    requires Members(s) && Members(s') && MainOk(s) && SecOk(s) && ThreadsOk(s) && t < |s.pcs| && DoFallback(s, t, s')
    requires |s.main| > 1 && s.main[0] == t && t !in s.sec && s.sec != [] && s.nodes[t].spin.Ptr?
    requires s.nodes[t].next == Some(s.main[1]) && s.pcs[s.main[1]].Wait?
    ensures MainOk(s')
  {
    var n := |s.sec|;
    assert s.nodes[t].spin == Ptr(s.sec[0]) && s.nodes[s.sec[0]].secTail == s.sec[n - 1];
    assert forall i :: 0 <= i < n ==> s.pcs[s.sec[i]].Wait? && s.sec[i] != t;
    assert s.nodes[s.main[|s.main| - 1]].next == None;
    hide SecOk, ThreadsOk, MainOk, Linked;
    assert forall i :: 1 <= i < n + |s.main| ==> s'.main[i] == FlushAt(s, i);
    forall i, j | 1 <= i && j == i + 1 < |s'.main| ensures Linked(s', s'.main[i], s'.main[j]) {
      FlushLinked(s, t, s', i);
    }
    assert s'.main[|s'.main| - 1] == s.main[|s.main| - 1] != s.sec[n - 1];
    assert s'.main[1] == s.sec[0];
    WholeIsMain(s');
  }

  lemma FlushLinked(s: State, t: nat, s': State, i: nat)
    requires Members(s) && Members(s') && MainOk(s) && SecOk(s) && ThreadsOk(s) && t < |s.pcs| && DoFallback(s, t, s')
    requires |s.main| > 1 && s.main[0] == t && t !in s.sec && s.sec != [] && s.nodes[t].spin.Ptr?
    requires s.nodes[t].next == Some(s.main[1]) && s.pcs[s.main[1]].Wait?
    requires 1 <= i && i + 1 < |s'.main|
    ensures Linked(s', s'.main[i], s'.main[i + 1])
  {
    var n := |s.sec|;
    hide MainOk, SecOk, ThreadsOk, Linked;
    assert s'.main[i] == FlushAt(s, i) && s'.main[i + 1] == FlushAt(s, i + 1);
    if i <= n { FlushInSec(s, t, s', i); } else { FlushInMain(s, t, s', i); }
  }

  lemma FlushInSec(s: State, t: nat, s': State, i: nat)
    requires Members(s) && Members(s') && SecOk(s) && ThreadsOk(s) && t < |s.pcs| && DoFallback(s, t, s')
    requires |s.main| > 1 && s.main[0] == t && s.sec != [] && s.nodes[t].spin.Ptr?
    requires s.nodes[t].next == Some(s.main[1]) && s.pcs[s.main[1]].Wait? && 1 <= i <= |s.sec|
    ensures Linked(s', s.sec[i - 1], if i < |s.sec| then s.sec[i] else s.main[1])
  {
    var n := |s.sec|;
    assert s.pcs[s.sec[if i < n then i else n - 1]].Wait?;
    assert s.nodes[s.sec[0]].secTail == s.sec[n - 1];
    if i < n {
      assert s.nodes[s.sec[i - 1]].next == Some(s.sec[i]);
      assert s.sec[i - 1] != s.sec[n - 1];
    }
  }

  lemma FlushInMain(s: State, t: nat, s': State, i: nat)
    requires Members(s) && Members(s') && MainOk(s) && SecOk(s) && t < |s.pcs| && DoFallback(s, t, s')
    requires |s.main| > 1 && s.main[0] == t && s.sec != [] && s.nodes[t].spin.Ptr? && |s.sec| < i < |s.sec| + |s.main| - 1
    ensures Linked(s', s.main[i - |s.sec|], s.main[i - |s.sec| + 1])
  {
    var k, w := i - |s.sec|, s.sec[|s.sec| - 1];
    assert Linked(s, s.main[k], s.main[k + 1]);
    assert s.nodes[s.sec[0]].secTail == w;
    assert s.main[k] != w && s.main[k + 1] != t;
  }

  lemma FlushThreads(s: State, t: nat, s': State)
    requires Members(s) && Members(s') && ThreadsOk(s) && t < |s.pcs| && HolderPc(s.pcs[t])
    requires |s.main| > 1 && s.main[0] == t
    requires s'.main == [t] + s.sec + s.main[1..] && s'.sec == [] && |s'.pcs| == |s.pcs| && s'.pcs == s.pcs[t := s'.pcs[t]] && s'.pcs[t].GrantTo?
    requires |s'.nodes| == |s.nodes| && forall u :: 0 <= u < |s.nodes| ==> s'.nodes[u].spin == s.nodes[u].spin && (s.pcs[u].Xchg? || s.pcs[u].TryCas? ==> s'.nodes[u].next == s.nodes[u].next)
    ensures ThreadsOk(s')
  {
    assert s.main == [s.main[0]] + s.main[1..];
    forall u | 0 <= u < |s'.pcs| ensures ThreadOk(s', u) {
      assert ThreadOk(s, u);
      assert u in s'.main <==> u in s.main || u in s.sec;
    }
    hide ThreadOk;
    forall i | 1 <= i < |s'.main| ensures !HolderPc(s'.pcs[s'.main[i]]) {
      assert s'.main[i] == FlushAt(s, i);
    }
  }

  lemma FlushSockets(numa: seq<nat>, s: State, t: nat, s': State)
    requires Members(s) && Members(s') && |numa| == |s.pcs| && SocketsOk(numa, s)
    requires t < |s.pcs| == |s'.pcs| && s'.pcs == s.pcs[t := s'.pcs[t]] && s'.sec == [] && s'.pcs[t].GrantTo?
    requires |s'.nodes| == |s.nodes| && forall u :: 0 <= u < |s.nodes| ==> s'.nodes[u].socket == s.nodes[u].socket
    ensures SocketsOk(numa, s')
  {
  }

  // ------------------------------------------------------------ the hand-off

  /** A grant takes the holder out and makes the next waiter the holder. */
  lemma GrantInv(numa: seq<nat>, s: State, t: nat, s': State)
    requires Inv(numa, s) && t < |s.pcs| && DoGrant(s, t, s')
    ensures Inv(numa, s')
  {
    HolderIs(s, t);
    assert |s.main| > 1 && s.main[1] == s.pcs[t].succ && s.sec == [] && s.pcs[s.main[1]].Wait?;
    hide ScanOk, SocketsOk;
    GrantLists(s, t, s', One);
    GrantThreads(s, t, s', One);
    hide MainOk, SecOk, ThreadsOk;
    GrantSockets(numa, s, t, s', One);
  }

  lemma GrantLocalInv(numa: seq<nat>, s: State, t: nat, s': State)
    requires Inv(numa, s) && t < |s.pcs| && DoGrantLocal(s, t, s')
    ensures Inv(numa, s')
  {
    HolderIs(s, t);
    assert |s.main| > 1 && s.main[1] == s.pcs[t].cur && s.pcs[s.main[1]].Wait?;
    var sp := if s.nodes[t].spin != Zero then s.nodes[t].spin else One;
    hide SocketsOk;
    assert SameSocket(numa, s, s.main[1]);
    hide ScanOk;
    GrantLists(s, t, s', sp);
    GrantThreads(s, t, s', sp);
    hide MainOk, SecOk, ThreadsOk;
    GrantSockets(numa, s, t, s', sp);
  }

  ghost predicate Grants(s: State, t: nat, s': State, sp: Spin)
    requires Members(s)
  {
    && t < |s.pcs| && Detached(s.pcs[t]) && |s.main| > 1 && s.main[0] == t && s.pcs[s.main[1]].Wait? && sp != Zero
    && (s.pcs[t].GrantLocal? || s.pcs[t].GrantTo?)
    && (s.pcs[t].GrantLocal? ==> sp == if s.nodes[t].spin != Zero then s.nodes[t].spin else One)
    && (s.pcs[t].GrantTo? ==> sp == One && s.sec == [])
    && s' == SetNode(Moved(s, t, Idle), s.main[1], s.nodes[s.main[1]].(spin := sp)).(main := s.main[1..])
  }

  lemma GrantLists(s: State, t: nat, s': State, sp: Spin)
    requires Members(s) && MainOk(s) && SecOk(s) && ThreadsOk(s) && Grants(s, t, s', sp)
    ensures Members(s') && MainOk(s') && SecOk(s')
  {
    GrantMembers(s, t, s', sp);
    GrantMain(s, t, s', sp);
    assert SecOk(s') by {
      hide MainOk;
      assert s'.main[0] == s.main[1];
      assert forall i :: 0 <= i < |s.sec| ==> s.sec[i] != s.main[1];
    }
  }

  lemma GrantMembers(s: State, t: nat, s': State, sp: Spin)
    requires Members(s) && Grants(s, t, s', sp)
    ensures Members(s')
  {
    assert s'.main[|s'.main| - 1] == s.main[|s.main| - 1];
  }

  lemma GrantMain(s: State, t: nat, s': State, sp: Spin)
    requires Members(s) && Members(s') && MainOk(s) && ThreadsOk(s) && Grants(s, t, s', sp)
    ensures MainOk(s')
  {
    assert forall i :: 0 <= i < |s'.main| ==> s'.main[i] == s.main[i + 1];
    forall i, j | 0 <= i && j == i + 1 < |s'.main| ensures Linked(s', s'.main[i], s'.main[j]) {
      assert Linked(s, s.main[i + 1], s.main[j + 1]);
      assert s.main[j + 1] != t;
    }
  }

  lemma GrantThreads(s: State, t: nat, s': State, sp: Spin)
    requires Members(s) && Members(s') && ThreadsOk(s) && Grants(s, t, s', sp)
    ensures ThreadsOk(s')
  {
    hide ThreadOk;
    assert forall i :: 0 <= i < |s'.main| ==> s'.main[i] == s.main[i + 1];
    assert s.main == [t] + s'.main && t !in s'.main;
    forall u | 0 <= u < |s'.pcs| ensures ThreadOk(s', u) {
      assert u in s.main <==> u == t || u in s'.main;
      GrantThread(s, t, s', sp, u);
    }
  }

  lemma GrantThread(s: State, t: nat, s': State, sp: Spin, u: nat)
    requires Members(s) && Members(s') && ThreadsOk(s) && Grants(s, t, s', sp) && u < |s.pcs|
    requires u in s.main <==> u == t || u in s'.main
    requires t !in s'.main
    ensures ThreadOk(s', u)
  {
    assert ThreadOk(s, u);
    assert s'.main[0] == s.main[1];
  }

  lemma GrantSockets(numa: seq<nat>, s: State, t: nat, s': State, sp: Spin)
    requires Members(s) && Members(s') && |numa| == |s.pcs| && SocketsOk(numa, s) && Grants(s, t, s', sp)
    requires s.pcs[t].GrantLocal? ==> SameSocket(numa, s, s.main[1])
    requires forall i :: 0 <= i < |s.sec| ==> s.sec[i] != s.main[1]
    ensures ScanOk(numa, s') && SocketsOk(numa, s')
  {
    assert s'.main[0] == s.main[1];
    forall i | 0 <= i < |s'.sec| ensures s'.nodes[s'.sec[i]].socket != SocketOf(numa, s', s'.main[0]) {
      assert s.nodes[s.sec[i]].socket != SocketOf(numa, s, s.main[0]);
    }
  }

  // ------------------------------------------------ setting waiters aside

  /** Position j of the chosen successor: what lies before it moves aside. */
  ghost predicate Attaches(numa: seq<nat>, s: State, t: nat, s': State, j: int)
    requires Members(s) && |numa| == |s.pcs|
  {
    && t < |s.pcs| && s.pcs[t].Attach? && s.main != [] && s.main[0] == t && t !in s.sec
    && AttachAt(numa, s, s.pcs[t].head, s.pcs[t].last, s.pcs[t].cur, j) && SameSocket(numa, s, s.pcs[t].cur)
    && |s'.nodes| == |s.nodes| && s' == s.(pcs := s.pcs[t := Cut(s.pcs[t].last, s.pcs[t].cur)], nodes := s'.nodes,
                                            main := [t] + s.main[j..], sec := s.sec + s.main[1..j])
    && if s.sec != [] then
         s'.nodes == s.nodes[s.sec[|s.sec| - 1] := s.nodes[s.sec[|s.sec| - 1]].(next := Some(s.main[1]))] && s.nodes[t].spin == Ptr(s.sec[0])
       else s'.nodes == s.nodes[t := s.nodes[t].(spin := Ptr(s.main[1]))]
  }

  lemma AttachInv(numa: seq<nat>, s: State, t: nat, s': State)
    requires Inv(numa, s) && t < |s.pcs| && DoAttach(s, t, s')
    ensures Inv(numa, s')
  {
    var j := AttachIs(numa, s, t, s');
    hide MainOk, SecOk, ThreadsOk, ScanOk, SocketsOk;
    AttachMembers(numa, s, t, s', j);
    AttachMain(numa, s, t, s', j);
    AttachSec(numa, s, t, s', j);
    AttachThreads(numa, s, t, s', j);
    AttachSockets(numa, s, t, s', j);
  }

  lemma AttachIs(numa: seq<nat>, s: State, t: nat, s': State) returns (j: int)
    requires Inv(numa, s) && t < |s.pcs| && DoAttach(s, t, s')
    ensures Members(s) && |numa| == |s.pcs| && Attaches(numa, s, t, s', j)
  {
    HolderIs(s, t);
    hide MainOk, ThreadsOk, SocketsOk, Skipped;
    j :| AttachAt(numa, s, s.pcs[t].head, s.pcs[t].last, s.pcs[t].cur, j);
    var pc := s.pcs[t];
    var i :| 1 <= i < |s.main| && s.main[i] == pc.cur
         && var s0 := Moved(s, t, Cut(pc.last, pc.cur)).(main := [t] + s.main[i..], sec := s.sec + s.main[1..i]);
            if s.nodes[t].spin.Ptr? then
              var h := s.nodes[t].spin.head;
              h < |s.nodes| && s.nodes[h].secTail < |s.nodes|
              && s' == SetNode(s0, s.nodes[h].secTail, s.nodes[s.nodes[h].secTail].(next := Some(pc.head)))
            else
              s' == SetNode(s0, t, s.nodes[t].(spin := Ptr(pc.head)));
    assert i == j;
  }

  lemma AttachMembers(numa: seq<nat>, s: State, t: nat, s': State, j: int)
    requires Members(s) && |numa| == |s.pcs| && Attaches(numa, s, t, s', j)
    ensures Members(s')
  {
    hide Skipped;
    RegroupApart(s.main, s.sec, j, |s.pcs|);
    assert s'.main[|s'.main| - 1] == s.main[|s.main| - 1];
  }

  /** Two lists of distinct threads stay apart when a segment changes lists. */
  lemma RegroupApart(main: seq<nat>, sec: seq<nat>, j: int, n: nat)
    requires 1 <= j <= |main|
    requires forall i :: 0 <= i < |main| ==> main[i] < n
    requires forall i :: 0 <= i < |sec| ==> sec[i] < n
    requires forall i, i' :: 0 <= i < i' < |main| ==> main[i] != main[i']
    requires forall i, i' :: 0 <= i < i' < |sec| ==> sec[i] != sec[i']
    requires forall i, i' :: 0 <= i < |main| && 0 <= i' < |sec| ==> main[i] != sec[i']
    ensures var m := [main[0]] + main[j..];
      (forall i :: 0 <= i < |m| ==> m[i] < n) && (forall i, i' :: 0 <= i < i' < |m| ==> m[i] != m[i'])
    ensures var c := sec + main[1..j];
      (forall i :: 0 <= i < |c| ==> c[i] < n) && (forall i, i' :: 0 <= i < i' < |c| ==> c[i] != c[i'])
    ensures var m, c := [main[0]] + main[j..], sec + main[1..j];
      forall i, i' :: 0 <= i < |m| && 0 <= i' < |c| ==> m[i] != c[i']
  {
    var m, c := [main[0]] + main[j..], sec + main[1..j];
    assert forall i :: 0 <= i < |m| ==> m[i] == main[if i == 0 then 0 else j + i - 1];
    assert forall i :: 0 <= i < |c| ==> c[i] == if i < |sec| then sec[i] else main[i - |sec| + 1];
  }

  lemma AttachMain(numa: seq<nat>, s: State, t: nat, s': State, j: int)
    requires Members(s) && Members(s') && |numa| == |s.pcs| && Attaches(numa, s, t, s', j) && MainOk(s)
    ensures MainOk(s')
  {
    hide Skipped;
    assert forall i :: 1 <= i < |s'.main| ==> s'.main[i] == s.main[j + i - 1];
    var w := if s.sec != [] then s.sec[|s.sec| - 1] else t;
    assert forall i :: 1 <= i < |s.main| ==> s.main[i] != w;
    forall i, i' | 1 <= i && i' == i + 1 < |s'.main| ensures Linked(s', s'.main[i], s'.main[i']) {
      assert Linked(s, s.main[j + i - 1], s.main[j + i]);
    }
  }

  lemma AttachSec(numa: seq<nat>, s: State, t: nat, s': State, j: int)
    requires Members(s) && Members(s') && |numa| == |s.pcs| && Attaches(numa, s, t, s', j) && MainOk(s) && SecOk(s)
    ensures SecOk(s')
  {
    var n := |s.sec|;
    AttachIndex(numa, s, t, s', j);
    forall i, i' | 0 <= i && i' == i + 1 < |s'.sec| ensures s'.nodes[s'.sec[i]].next == Some(s'.sec[i']) {
      AttachSecLink(numa, s, t, s', j, i, i');
    }
    AttachSecEnd(numa, s, t, s', j);
    assert s'.sec[0] == if n > 0 then s.sec[0] else s.main[1];
    hide MainOk, Skipped;
  }

  lemma AttachSecLink(numa: seq<nat>, s: State, t: nat, s': State, j: int, i: nat, i': nat)
    requires Members(s) && Members(s') && |numa| == |s.pcs| && Attaches(numa, s, t, s', j) && MainOk(s) && SecOk(s)
    requires i' == i + 1 < |s'.sec|
    ensures s'.nodes[s'.sec[i]].next == Some(s'.sec[i'])
  {
    var n := |s.sec|;
    AttachIndex(numa, s, t, s', j);
    if i' < n { assert s.nodes[s.sec[i]].next == Some(s.sec[i']) && s.sec[i] != s.sec[n - 1]; }
    else if i >= n { assert Linked(s, s.main[i - n + 1], s.main[i - n + 2]); }
  }

  lemma AttachSecEnd(numa: seq<nat>, s: State, t: nat, s': State, j: int)
    requires Members(s) && Members(s') && |numa| == |s.pcs| && Attaches(numa, s, t, s', j) && SecOk(s)
    ensures |s'.sec| > 0 && s'.sec[|s'.sec| - 1] == s.pcs[t].last && s'.nodes[s.pcs[t].last].next == Some(s.pcs[t].cur)
  {
    AttachIndex(numa, s, t, s', j);
    hide Skipped;
    if s.sec != [] { assert s.sec[|s.sec| - 1] != s.main[j - 1]; }
  }

  lemma AttachThreads(numa: seq<nat>, s: State, t: nat, s': State, j: int)
    requires Members(s) && Members(s') && |numa| == |s.pcs| && Attaches(numa, s, t, s', j) && ThreadsOk(s)
    ensures ThreadsOk(s')
  {
    AttachIndex(numa, s, t, s', j);
    forall u | 0 <= u < |s'.pcs| ensures ThreadOk(s', u) { AttachThread(numa, s, t, s', j, u); }
    assert s'.pcs == s.pcs[t := s'.pcs[t]] && s'.pcs[t].Cut?;
    hide Attaches, ThreadOk;
  }

  lemma AttachThread(numa: seq<nat>, s: State, t: nat, s': State, j: int, u: nat)
    requires Members(s) && Members(s') && |numa| == |s.pcs| && Attaches(numa, s, t, s', j) && ThreadsOk(s) && u < |s.pcs| == |s'.pcs|
    ensures ThreadOk(s', u)
  {
    assert ThreadOk(s, u);
    AttachWhere(numa, s, t, s', j, u);
    if s.pcs[u].SetSock? || s.pcs[u].Link? { StillInMain(numa, s, t, s', j, u); }
    hide Attaches, ThreadsOk;
  }

  lemma AttachIndex(numa: seq<nat>, s: State, t: nat, s': State, j: int)
    requires Members(s) && |numa| == |s.pcs| && Attaches(numa, s, t, s', j)
    ensures forall i :: 1 <= i < |s'.main| ==> s'.main[i] == s.main[j + i - 1]
    ensures forall i :: |s.sec| <= i < |s'.sec| ==> s'.sec[i] == s.main[i - |s.sec| + 1] && s.pcs[s'.sec[i]].Wait?
    ensures forall i :: 0 <= i < |s.sec| ==> s'.sec[i] == s.sec[i]
    ensures s'.main != [] && s'.main[0] == s.main[0] == t
  {
  }

  lemma AttachWhere(numa: seq<nat>, s: State, t: nat, s': State, j: int, u: nat)
    requires Members(s) && Members(s') && |numa| == |s.pcs| && Attaches(numa, s, t, s', j) && ThreadsOk(s) && u < |s.pcs|
    ensures |s'.pcs| == |s.pcs| && s'.pcs[u] == (if u == t then Cut(s.pcs[t].last, s.pcs[t].cur) else s.pcs[u])
    ensures u in s'.main || u in s'.sec <==> u in s.main || u in s.sec
    ensures u != t ==> s'.nodes[u].spin == s.nodes[u].spin
    ensures s.pcs[u].Xchg? || s.pcs[u].TryCas? ==> s'.nodes[u].next == s.nodes[u].next
    ensures s'.main != [] && s'.main[0] == s.main[0] == t
  {
    hide Skipped;
    SplitMember(s.main, s.sec, j, u);
    if s.sec != [] { assert s.pcs[s.sec[|s.sec| - 1]].Wait?; }
  }

  lemma SplitMember(main: seq<nat>, sec: seq<nat>, j: int, u: nat)
    requires 1 <= j <= |main|
    ensures u in [main[0]] + main[j..] || u in sec + main[1..j] <==> u in main || u in sec
  {
    assert main == [main[0]] + main[1..j] + main[j..];
  }

  lemma TailMember(main: seq<nat>, u: nat)
    requires main != []
    ensures u in main <==> u == main[0] || u in main[1..]
  {
    assert main == [main[0]] + main[1..];
  }

  lemma StillInMain(numa: seq<nat>, s: State, t: nat, s': State, j: int, u: nat)
    requires Members(s) && |numa| == |s.pcs| && Attaches(numa, s, t, s', j) && u in s.main && u < |s.pcs| && !s.pcs[u].Wait?
    ensures u in s'.main
  {
    var i :| 0 <= i < |s.main| && s.main[i] == u;
    if i >= j { assert s'.main[i - j + 1] == u; }
  }

  lemma AttachSockets(numa: seq<nat>, s: State, t: nat, s': State, j: int)
    requires Members(s) && Members(s') && |numa| == |s.pcs| && Attaches(numa, s, t, s', j) && SocketsOk(numa, s)
    ensures ScanOk(numa, s') && SocketsOk(numa, s')
  {
    var n := |s.sec|;
    assert s'.main[0] == t && SocketOf(numa, s', t) == SocketOf(numa, s, t);
    assert SameSocket(numa, s', s.pcs[t].cur);
    forall i | 0 <= i < |s'.sec| ensures s'.nodes[s'.sec[i]].socket != SocketOf(numa, s', s'.main[0]) {
      if i < n { assert s.nodes[s.sec[i]].socket != SocketOf(numa, s, s.main[0]); }
      else { assert s'.sec[i] == s.main[i - n + 1]; }
    }
  }

  /** The two stores that finish the splice touch only nodes set aside. */
  lemma SpliceInv(numa: seq<nat>, s: State, t: nat, s': State, w: nat)
    requires Inv(numa, s) && t < |s.pcs| && (DoCut(s, t, s') || DoMark(s, t, s'))
    requires w in s.sec && w < |s.nodes| && |s'.nodes| == |s.nodes| && |s'.pcs| == |s.pcs|
    requires s' == s.(pcs := s.pcs[t := s'.pcs[t]], nodes := s.nodes[w := s'.nodes[w]])
    requires s'.nodes[w].socket == s.nodes[w].socket && s'.nodes[w].spin == s.nodes[w].spin
    requires s.main != [] && s.main[0] == t && Members(s') && SecOk(s')
    requires Detached(s'.pcs[t]) && Target(s'.pcs[t]) == Target(s.pcs[t]) && !s'.pcs[t].GrantTo?
    ensures Inv(numa, s')
  {
    hide SecOk;
    HolderIs(s, t);
    assert s.pcs[w].Wait?;
    SpliceMain(s, t, s', w);
    hide MainOk;
    ThreadsKept(s, t, s');
    hide ThreadsOk;
    SpliceSockets(numa, s, t, s', w);
  }

  lemma SpliceMain(s: State, t: nat, s': State, w: nat)
    requires Members(s) && MainOk(s) && t < |s.pcs| == |s'.pcs| && w in s.sec && w < |s.nodes| == |s'.nodes| && Members(s')
    requires s' == s.(pcs := s.pcs[t := s'.pcs[t]], nodes := s.nodes[w := s'.nodes[w]])
    requires s.main != [] && s.main[0] == t && Detached(s.pcs[t]) && Detached(s'.pcs[t]) && Target(s'.pcs[t]) == Target(s.pcs[t])
    ensures MainOk(s')
  {
    assert forall i :: 0 <= i < |s.main| ==> s.main[i] != w;
    forall i, j | 1 <= i && j == i + 1 < |s.main| ensures Linked(s', s'.main[i], s'.main[j]) {
      assert Linked(s, s.main[i], s.main[j]);
    }
  }

  lemma SpliceSockets(numa: seq<nat>, s: State, t: nat, s': State, w: nat)
    requires Members(s) && Members(s') && |numa| == |s.pcs| == |s'.pcs| && ScanOk(numa, s) && SocketsOk(numa, s)
    requires t < |s.pcs| && (s.pcs[t].Cut? || s.pcs[t].Mark?) && w < |s.nodes| == |s'.nodes| && s.pcs[w].Wait?
    requires s' == s.(pcs := s.pcs[t := s'.pcs[t]], nodes := s.nodes[w := s'.nodes[w]]) && s'.nodes[w].socket == s.nodes[w].socket
    requires s.main != [] && s.main[0] == t
    requires Detached(s'.pcs[t]) && Target(s'.pcs[t]) == Target(s.pcs[t]) && !s'.pcs[t].GrantTo?
    ensures ScanOk(numa, s') && SocketsOk(numa, s')
  {
    assert SameSocket(numa, s, Target(s.pcs[t]));
    assert SameSocket(numa, s', Target(s.pcs[t]));
    forall i | 0 <= i < |s'.sec| ensures s'.nodes[s'.sec[i]].socket != SocketOf(numa, s', s'.main[0]) {
      assert s.nodes[s.sec[i]].socket != SocketOf(numa, s, s.main[0]);
    }
  }

  lemma CutInv(numa: seq<nat>, s: State, t: nat, s': State)
    requires Inv(numa, s) && t < |s.pcs| && DoCut(s, t, s')
    ensures Inv(numa, s')
  {
    HolderIs(s, t);
    hide MainOk, ThreadsOk, ScanOk, SocketsOk;
    assert s.pcs[t].last == s.sec[|s.sec| - 1];
    SpliceInv(numa, s, t, s', s.pcs[t].last);
  }

  lemma MarkInv(numa: seq<nat>, s: State, t: nat, s': State)
    requires Inv(numa, s) && t < |s.pcs| && DoMark(s, t, s')
    ensures Inv(numa, s')
  {
    HolderIs(s, t);
    hide MainOk, ThreadsOk, ScanOk, SocketsOk;
    assert s.nodes[t].spin.head == s.sec[0];
    SpliceInv(numa, s, t, s', s.sec[0]);
  }

  // --------------------------------------------------------------- theorems

  lemma StepInv(numa: seq<nat>, s: State, t: nat, s': State)
    requires Inv(numa, s) && Step(numa, s, t, s')
    ensures Inv(numa, s')
  {
    hide Members, MainOk, SecOk, ThreadsOk, ScanOk, SocketsOk, Begin, DoXchg, DoTry, DoSetSock, DoLink, DoWake, DoUnlock, DoLeave,
         DoWaitNext, DoChoose, DoScan, DoAttach, DoCut, DoMark, DoGrantLocal, DoFallback, DoGrant;
    match s.pcs[t]
    case Idle => BeginInv(numa, s, t, s');
    case Xchg => XchgInv(numa, s, t, s');
    case TryCas => TryInv(numa, s, t, s');
    case SetSock(_) => SetSockInv(numa, s, t, s');
    case Link(_) => LinkInv(numa, s, t, s');
    case Wait => WakeInv(numa, s, t, s');
    case Crit => UnlockInv(numa, s, t, s');
    case NoNext => LeaveInv(numa, s, t, s');
    case WaitNext => WaitNextInv(numa, s, t, s');
    case Choose => ChooseInv(numa, s, t, s');
    case Scan(_, _) => ScanInv(numa, s, t, s');
    case Attach(_, _, _) => AttachInv(numa, s, t, s');
    case Cut(_, _) => CutInv(numa, s, t, s');
    case Mark(_, _) => MarkInv(numa, s, t, s');
    case GrantLocal(_) => GrantLocalInv(numa, s, t, s');
    case Fallback => FallbackInv(numa, s, t, s');
    case GrantTo(_) => GrantInv(numa, s, t, s');
  }

  lemma {:induction false} RunInv(numa: seq<nat>, tr: seq<State>, sched: seq<nat>, i: nat)
    requires Run(numa, tr, sched) && i < |tr| && Shape(numa, tr[i])
    ensures Inv(numa, tr[i])
  {
    hide Inv, Step;
    if i == 0 { InitInv(numa, tr[0]); } else { RunInv(numa, tr, sched, i - 1); StepInv(numa, tr[i - 1], sched[i - 1], tr[i]); }
  }

  lemma InitInv(numa: seq<nat>, s: State)
    requires Init(numa, s)
    ensures Inv(numa, s)
  {
    forall t | 0 <= t < |s.pcs| ensures ThreadOk(s, t) {}
  }

  lemma MutualExclusion(numa: seq<nat>, tr: seq<State>, sched: seq<nat>, i: nat, t: nat, u: nat)
    requires Run(numa, tr, sched) && i < |tr| && Shape(numa, tr[i]) && t < |numa| && u < |numa|
    requires HolderPc(tr[i].pcs[t]) && HolderPc(tr[i].pcs[u])
    ensures t == u
  {
    RunInv(numa, tr, sched, i);
    HolderIs(tr[i], t);
    HolderIs(tr[i], u);
  }

  /** The waiters: those set aside, then those behind the holder. */
  function Line(s: State): seq<nat> {
    s.sec + (if s.main == [] then [] else s.main[1..])
  }

  predicate Waits(pc: Pc) { pc.SetSock? || pc.Link? || pc.Wait? }

  /** Nobody is lost or entered twice: the line holds each waiting thread once,
      except the one that has been granted the lock and has not noticed yet. */
  lemma LineIsWaiters(numa: seq<nat>, s: State, t: nat)
    requires Inv(numa, s) && t < |s.pcs|
    ensures t in Line(s) <==> Waits(s.pcs[t]) && !(s.pcs[t].Wait? && s.nodes[t].spin != Zero)
    ensures forall i, j :: 0 <= i < j < |Line(s)| ==> Line(s)[i] != Line(s)[j]
  {
    hide MainOk, SecOk, ScanOk, SocketsOk;
    assert ThreadOk(s, t);
    if s.main != [] {
      TailMember(s.main, t);
      LineDistinct(s);
      assert HolderPc(s.pcs[s.main[0]]) || s.pcs[s.main[0]].Wait?;
    }
  }

  lemma LineDistinct(s: State)
    requires Members(s) && s.main != []
    ensures s.main[0] !in s.main[1..] && s.main[0] !in s.sec
    ensures forall i, j :: 0 <= i < j < |Line(s)| ==> Line(s)[i] != Line(s)[j]
  {
    assert forall i :: |s.sec| <= i < |Line(s)| ==> Line(s)[i] == s.main[i - |s.sec| + 1];
  }

  /** The line without its k-th member. */
  function Without(c: seq<nat>, k: nat): seq<nat>
    requires k < |c|
  {
    c[..k] + c[k + 1..]
  }

  /** The thread at position k is the first of its socket in the line. */
  ghost predicate FirstOfSocket(numa: seq<nat>, c: seq<nat>, k: nat) {
    && k < |c| && (forall i :: 0 <= i < |c| ==> c[i] < |numa|)
    && forall i :: 0 <= i < k ==> numa[c[i]] != numa[c[k]]
  }

  /** The line is kept in the order of arrival: a step leaves it alone, appends
      the thread that exchanged the tail, or takes out the thread it grants the
      lock, which is then the first of its socket. */
  ghost predicate LineStep(numa: seq<nat>, s: State, t: nat, s': State)
    requires Members(s) && |numa| == |s.pcs| == |s'.pcs|
  {
    || Line(s') == Line(s)
    || (t < |s.pcs| && s.pcs[t].Xchg? && Line(s') == Line(s) + [t])
    || (s'.main != [] && exists k: nat :: FirstOfSocket(numa, Line(s), k) && Line(s') == Without(Line(s), k) && s'.main[0] == Line(s)[k])
  }

  lemma FifoPerSocket(numa: seq<nat>, s: State, t: nat, s': State)
    requires Inv(numa, s) && Step(numa, s, t, s')
    ensures |s'.pcs| == |numa| && LineStep(numa, s, t, s')
  {
    hide MainOk, SecOk, ThreadsOk, ScanOk, SocketsOk, Line, Without, FirstOfSocket;
    match s.pcs[t]
    case Xchg => ArriveLine(numa, s, t, s');
    case TryCas => ArriveLine(numa, s, t, s');
    case NoNext => LeaveLine(numa, s, t, s');
    case Attach(_, _, _) => AttachLine(numa, s, t, s');
    case Fallback => FallbackLine(numa, s, t, s');
    case GrantLocal(_) => GrantLocalLine(numa, s, t, s');
    case GrantTo(_) => GrantLine(numa, s, t, s');
    case _ => SameLine(numa, s, t, s');
  }

  /** The exchange of the tail puts the thread at the end of the line, or at once
      into the section. */
  lemma ArriveLine(numa: seq<nat>, s: State, t: nat, s': State)
    requires Members(s) && |numa| == |s.pcs| && Step(numa, s, t, s') && (s.pcs[t].Xchg? || s.pcs[t].TryCas?)
    ensures Line(s') == Line(s) || (s.pcs[t].Xchg? && Line(s') == Line(s) + [t])
  {
    if s.main == [] {
      NoSec(s);
      assert (s.main + [t])[1..] == [];
    } else if s.pcs[t].Xchg? {
      assert (s.main + [t])[1..] == s.main[1..] + [t];
      assert Line(s') == Line(s) + [t];
    }
  }

  lemma SameLine(numa: seq<nat>, s: State, t: nat, s': State)
    requires Members(s) && |numa| == |s.pcs| && Step(numa, s, t, s')
    requires var pc := s.pcs[t]; !pc.Xchg? && !pc.TryCas? && !pc.NoNext? && !pc.Attach? && !pc.Fallback? && !pc.GrantLocal? && !pc.GrantTo?
    ensures Line(s') == Line(s)
  {
    assert s'.main == s.main && s'.sec == s.sec;
  }

  lemma NoSec(s: State)
    requires Members(s) && s.main == []
    ensures s.sec == []
  {
  }

  lemma LeaveLine(numa: seq<nat>, s: State, t: nat, s': State)
    requires Inv(numa, s) && t < |s.pcs| && DoLeave(s, t, s')
    ensures Line(s') == Line(s)
  {
    HolderIs(s, t);
    if s.tail == Some(t) {
      assert |s.main| == 1;
      assert s.main[1..] == [];
      assert ([t] + s.sec)[1..] == s.sec;
    }
  }

  lemma AttachLine(numa: seq<nat>, s: State, t: nat, s': State)
    requires Inv(numa, s) && t < |s.pcs| == |s.nodes| && DoAttach(s, t, s')
    ensures Line(s') == Line(s)
  {
    hide Inv, DoAttach, Skipped;
    var j := AttachIs(numa, s, t, s');
    assert ([t] + s.main[j..])[1..] == s.main[j..];
    assert s.main[1..] == s.main[1..j] + s.main[j..];
  }

  lemma FallbackLine(numa: seq<nat>, s: State, t: nat, s': State)
    requires Inv(numa, s) && t < |s.pcs| && DoFallback(s, t, s')
    ensures Line(s') == Line(s)
  {
    hide MainOk, SecOk, ThreadsOk, ScanOk, SocketsOk;
    if s.nodes[t].spin.Ptr? {
      var m := [t] + s.sec + s.main[1..];
      assert m[1..] == s.sec + s.main[1..];
      assert Line(s') == m[1..];
    }
  }

  lemma LineSockets(numa: seq<nat>, s: State, i: nat)
    requires Inv(numa, s) && i < |Line(s)|
    ensures Line(s)[i] < |numa|
  {
  }

  lemma GrantLine(numa: seq<nat>, s: State, t: nat, s': State)
    requires Inv(numa, s) && t < |s.pcs| && DoGrant(s, t, s')
    ensures |s'.pcs| == |numa| && LineStep(numa, s, t, s')
  {
    HolderIs(s, t);
    forall i | 0 <= i < |Line(s)| ensures Line(s)[i] < |numa| { LineSockets(numa, s, i); }
    assert s.sec == [] && |s.main| > 1;
    assert FirstOfSocket(numa, Line(s), 0);
    assert s.main[1..][1..] == s'.main[1..];
    assert Without(Line(s), 0) == Line(s');
  }

  lemma GrantLocalLine(numa: seq<nat>, s: State, t: nat, s': State)
    requires Inv(numa, s) && t < |s.pcs| && DoGrantLocal(s, t, s')
    ensures |s'.pcs| == |numa| && LineStep(numa, s, t, s')
  {
    HolderIs(s, t);
    var n, c := |s.sec|, Line(s);
    forall i | 0 <= i < |c| ensures c[i] < |numa| { LineSockets(numa, s, i); }
    assert c[n] == s.main[1];
    assert SameSocket(numa, s, s.main[1]);
    forall i | 0 <= i < n ensures numa[c[i]] != numa[c[n]] {
      assert s.nodes[s.sec[i]].socket != SocketOf(numa, s, s.main[0]);
      assert s.pcs[s.sec[i]].Wait?;
    }
    assert FirstOfSocket(numa, c, n);
    assert c[n + 1..] == s'.main[1..];
    assert Without(c, n) == Line(s');
  }

  // ------------------------------------------------------------- one new holder

  /** The thread has the lock, or has been granted it and only needs to look. */
  predicate HasLock(s: State, u: nat) {
    u < |s.pcs| == |s.nodes| && (HolderPc(s.pcs[u]) || (s.pcs[u].Wait? && s.nodes[u].spin != Zero))
  }

  predicate OnlyHolder(s: State, w: nat) {
    HasLock(s, w) && forall u :: 0 <= u < |s.pcs| && HasLock(s, u) ==> u == w
  }

  lemma LockIsFirst(numa: seq<nat>, s: State, u: nat)
    requires Inv(numa, s)
    ensures HasLock(s, u) <==> s.main != [] && u == s.main[0]
  {
    hide MainOk, SecOk, ScanOk, SocketsOk;
    if u < |s.pcs| { assert ThreadOk(s, u); }
    if s.main != [] { assert s.main[0] < |s.pcs| && ThreadOk(s, s.main[0]); }
  }

  /** The waiter a granting holder is about to release. */
  lemma GrantTarget(numa: seq<nat>, s: State, t: nat, s': State)
    requires Inv(numa, s) && Step(numa, s, t, s') && (s.pcs[t].GrantLocal? || s.pcs[t].GrantTo?)
    ensures |s.main| > 1 && s.main[0] == t && s.main[1] == Target(s.pcs[t]) && s.pcs[s.main[1]].Wait? && s'.main == s.main[1..]
    ensures s.main[1] != t
  {
    hide SecOk, ScanOk, SocketsOk;
    HolderIs(s, t);
  }

  /** Whether the lock stays on the socket or goes to the next queue, a grant
      takes it from its one holder and gives it to one waiter, which did not have
      it before and is the first of its socket in the line. */
  lemma GrantsOne(numa: seq<nat>, tr: seq<State>, sched: seq<nat>, i: nat) returns (w: nat, k: nat)
    requires Run(numa, tr, sched) && i < |sched| && sched[i] < |tr[i].pcs|
    requires tr[i].pcs[sched[i]].GrantLocal? || tr[i].pcs[sched[i]].GrantTo?
    ensures OnlyHolder(tr[i], sched[i]) && OnlyHolder(tr[i + 1], w)
    ensures w != sched[i] && w < |tr[i].pcs| && tr[i].pcs[w].Wait? && tr[i + 1].pcs[sched[i]] == Idle
    ensures FirstOfSocket(numa, Line(tr[i]), k) && Line(tr[i])[k] == w && Line(tr[i + 1]) == Without(Line(tr[i]), k)
  {
    hide Inv, FirstOfSocket;
    var t, s, s' := sched[i], tr[i], tr[i + 1];
    RunInv(numa, tr, sched, i);
    RunInv(numa, tr, sched, i + 1);
    assert Step(numa, s, t, s');
    GrantTarget(numa, s, t, s');
    w := s.main[1];
    forall u: nat ensures HasLock(s, u) <==> u == t { LockIsFirst(numa, s, u); }
    forall u: nat ensures HasLock(s', u) <==> u == w { LockIsFirst(numa, s', u); }
    k := GrantPlace(numa, s, t, s');
  }

  lemma GrantPlace(numa: seq<nat>, s: State, t: nat, s': State) returns (k: nat)
    requires Inv(numa, s) && Step(numa, s, t, s') && (s.pcs[t].GrantLocal? || s.pcs[t].GrantTo?)
    ensures |s.main| > 1 && FirstOfSocket(numa, Line(s), k) && Line(s)[k] == s.main[1] && Line(s') == Without(Line(s), k)
  {
    GrantTarget(numa, s, t, s');
    FifoPerSocket(numa, s, t, s');
    assert Line(s') != Line(s) by { assert |Line(s')| == |s'.sec| + |s'.main| - 1; }
    hide Inv, Step;
    assert s'.main[0] == s.main[1];
    k :| FirstOfSocket(numa, Line(s), k) && Line(s') == Without(Line(s), k) && s'.main[0] == Line(s)[k];
  }
}
