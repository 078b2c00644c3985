/** The hierarchical ticket lock.

    A node's local lock counts its tickets down from a window of `window`
    tickets.  Ticket -1 makes its drawer the leader, who reopens the window and
    takes a global ticket; the tickets from window - 1 to 0 are then served one
    by one under the leader's global ticket.

    The window (NB_TICKETS_LOCAL, 128 in the program) is a parameter here.  The
    counters are unbounded.  `who`, `sess`, `served` and the ticket a releasing
    thread carries are auxiliary. */
module HtLock {
  import opened Sums

  /** nodeOf[t] is the NUMA node of thread t. */
  datatype Config = Config(window: nat, nodes: nat, nodeOf: seq<nat>)

  datatype Pc =
    | Idle
    | Draw                 // decrement the request counter
    | WaitLocal(k: int)
    | WaitLead             // drew -1; waits until the grant is back at the top
    | Open                 // saw it there; reopens the window
    | TakeGlobal
    | WaitGlobal(g: int)
    | Crit
    | Close(g: int)        // unlock has read the grant
    | Pass(g: int)
    | RelLocal(gt: nat)
    | RelGlobal(gt: nat)

  datatype Local = Local(request: int, grant: int, who: seq<nat>, sess: nat, served: nat)

  datatype State = State(local: seq<Local>, greq: nat, ggrant: nat, pcs: seq<Pc>)

  ghost predicate Shape(c: Config, s: State) {
    && |s.pcs| == |c.nodeOf| && |s.local| == c.nodes && c.window > 0
    && forall t :: 0 <= t < |c.nodeOf| ==> c.nodeOf[t] < c.nodes
  }

  function Moved(c: Config, s: State, t: nat, pc: Pc, d: Local): (r: State)
    requires Shape(c, s) && t < |s.pcs|
    ensures Shape(c, r)
  {
    s.(pcs := s.pcs[t := pc], local := s.local[c.nodeOf[t] := d])
  }

  ghost predicate Step(c: Config, s: State, t: nat, s': State)
    requires Shape(c, s)
  {
    t < |s.pcs| &&
    var d := s.local[c.nodeOf[t]];
    match s.pcs[t]
    case Idle => s' == Moved(c, s, t, Draw, d)
    case Draw =>
      var k := d.request - 1;
      s' == if k >= 0 then Moved(c, s, t, WaitLocal(k), d.(request := k, who := d.who + [t]))
            else Moved(c, s, t, if k == -1 then WaitLead else Draw, d.(request := k))
    case WaitLocal(k) => d.grant == k && s' == Moved(c, s, t, Crit, d.(served := d.served + 1))
    case WaitLead => d.grant == c.window && s' == Moved(c, s, t, Open, d)
    case Open => s' == Moved(c, s, t, TakeGlobal, d.(request := c.window, who := []))
    case TakeGlobal => s' == Moved(c, s, t, WaitGlobal(s.greq), d.(sess := s.greq)).(greq := s.greq + 1)
    case WaitGlobal(g) => s.ggrant == g && s' == Moved(c, s, t, Crit, d.(served := 1))
    case Crit => s' == Moved(c, s, t, Close(d.grant), d)
    case Close(g) =>
      s' == Moved(c, s, t, if g == 0 || g == d.request then RelLocal(d.sess) else Pass(g),
                  if d.request == g then d.(request := 0) else d)
    case Pass(g) => s' == Moved(c, s, t, Idle, d.(grant := g - 1))
    case RelLocal(gt) => s' == Moved(c, s, t, RelGlobal(gt), d.(grant := c.window))
    case RelGlobal(_) => s' == Moved(c, s, t, Idle, d).(ggrant := s.ggrant + 1)
  }

  ghost predicate Init(c: Config, s: State) {
    && Shape(c, s) && s.greq == s.ggrant == 0
    && (forall n :: 0 <= n < c.nodes ==> s.local[n] == Local(0, c.window, [], 0, 0))
    && forall t :: 0 <= t < |s.pcs| ==> s.pcs[t] == Idle
  }

  ghost predicate Run(c: Config, tr: seq<State>, sched: seq<nat>) {
    && |tr| == |sched| + 1 && (forall i :: 0 <= i < |tr| ==> Shape(c, tr[i]))
    && Init(c, tr[0]) && forall i :: 0 <= i < |sched| ==> Step(c, tr[i], sched[i], tr[i + 1])
  }

  // ------------------------------------------------------------- invariants

  ghost predicate On(c: Config, t: nat, n: nat) { t < |c.nodeOf| && c.nodeOf[t] == n }

  function ThreadsOf(c: Config, n: nat): set<nat> {
    set t | 0 <= t < |c.nodeOf| && c.nodeOf[t] == n
  }

  /** At most one thread more than the window on every node. */
  ghost predicate Fits(c: Config) {
    forall n :: 0 <= n < c.nodes ==> |ThreadsOf(c, n)| <= c.window + 1
  }

  /** Acts for its node's present session. */
  predicate Active(c: Config, s: State, t: nat)
    requires Shape(c, s) && t < |s.pcs|
  {
    match s.pcs[t]
    case WaitLocal(k) => k == s.local[c.nodeOf[t]].grant
    case Open => true
    case TakeGlobal => true
    case WaitGlobal(_) => true
    case Crit => true
    case Close(_) => true
    case Pass(_) => true
    case _ => false
  }

  ghost predicate Running(c: Config, s: State, n: nat)
    requires Shape(c, s)
  {
    exists t: nat :: On(c, t, n) && Active(c, s, t) && !s.pcs[t].Open?
  }

  /** Holds the global ticket that is being served. */
  predicate Inside(pc: Pc) { pc.WaitLocal? || pc.Crit? || pc.Close? || pc.Pass? }

  function Top(r: int): nat { if r < 0 then 0 else r }

  ghost predicate NodeOk(c: Config, s: State, n: nat)
    requires Shape(c, s) && n < c.nodes
  {
    OneActs(c, s, n) && OneLeads(c, s, n) && Places(c, s, n) && SessionOk(c, s, n)
  }

  ghost predicate OneActs(c: Config, s: State, n: nat)
    requires Shape(c, s)
  {
    forall t: nat, u: nat :: On(c, t, n) && On(c, u, n) && Active(c, s, t) && Active(c, s, u) ==> t == u
  }

  /** The counter is below zero exactly while one thread is to open the window. */
  ghost predicate OneLeads(c: Config, s: State, n: nat)
    requires Shape(c, s) && n < c.nodes
  {
    && (forall t: nat, u: nat :: On(c, t, n) && On(c, u, n) && Leads(s.pcs[t]) && Leads(s.pcs[u]) ==> t == u)
    && (s.local[n].request < 0 <==> exists t: nat :: On(c, t, n) && Leads(s.pcs[t]))
  }

  ghost predicate Places(c: Config, s: State, n: nat)
    requires Shape(c, s) && n < c.nodes
  {
    forall t: nat :: On(c, t, n) ==> PlaceOk(c, s, n, t)
  }

  ghost predicate SessionOk(c: Config, s: State, n: nat)
    requires Shape(c, s) && n < c.nodes
  {
    var d := s.local[n];
    if Running(c, s, n) then TicketsOk(c, s, n) else d.request <= 0 && (d.grant == c.window || Releasing(c, s, n))
  }

  predicate Leads(pc: Pc) { pc.WaitLead? || pc.Open? }

  ghost predicate Releasing(c: Config, s: State, n: nat)
    requires Shape(c, s)
  {
    exists t: nat :: On(c, t, n) && s.pcs[t].RelLocal?
  }

  /** The tickets drawn and not yet served are those below the grant. */
  ghost predicate TicketsOk(c: Config, s: State, n: nat)
    requires Shape(c, s) && n < c.nodes
  {
    var d := s.local[n];
    && Top(d.request) <= d.grant <= c.window && |d.who| == c.window - Top(d.request)
    && (forall i :: 0 <= i < |d.who| ==> On(c, d.who[i], n))
    && (forall i :: 0 <= i < |d.who| && c.window - 1 - i < d.grant ==> s.pcs[d.who[i]] == WaitLocal(c.window - 1 - i))
  }

  ghost predicate PlaceOk(c: Config, s: State, n: nat, t: nat)
    requires Shape(c, s) && n < c.nodes && On(c, t, n)
  {
    var d := s.local[n];
    match s.pcs[t]
    case WaitLocal(k) =>
      && Running(c, s, n) && Top(d.request) <= k <= d.grant && k < c.window && 0 <= c.window - 1 - k < |d.who| && d.who[c.window - 1 - k] == t
      && (k == d.grant ==> d.served == c.window - d.grant)
    case Open => d.grant == c.window && !Running(c, s, n)
    case TakeGlobal => d.grant == c.window
    case WaitGlobal(g) => d.grant == c.window && g == d.sess
    case Crit => d.served == c.window - d.grant + 1
    case Close(g) => g == d.grant && d.served == c.window - d.grant + 1
    case Pass(g) => g == d.grant && Top(d.request) < g && d.served == c.window - d.grant + 1
    case _ => true
  }

  /** Who holds a global ticket: a session, or a thread that gives one back. */
  ghost predicate HasTicket(c: Config, s: State, t: nat)
    requires Shape(c, s) && t < |s.pcs|
  {
    Giving(s.pcs[t]) || (Active(c, s, t) && !s.pcs[t].Open? && !s.pcs[t].TakeGlobal?)
  }

  predicate Giving(pc: Pc) { pc.RelLocal? || pc.RelGlobal? }

  function TicketOf(c: Config, s: State, t: nat): nat
    requires Shape(c, s) && t < |s.pcs|
  {
    if Giving(s.pcs[t]) then s.pcs[t].gt else s.local[c.nodeOf[t]].sess
  }

  ghost predicate Owns(c: Config, s: State, t: nat, g: nat)
    requires Shape(c, s)
  {
    t < |s.pcs| && HasTicket(c, s, t) && TicketOf(c, s, t) == g
  }

  /** Somebody holds the global ticket g, or is giving it back. */
  ghost predicate Owned(c: Config, s: State, g: nat)
    requires Shape(c, s)
  {
    exists t: nat :: Owns(c, s, t, g)
  }

  /** No ticket that was drawn and not yet given back is lost. */
  ghost predicate AllOwned(c: Config, s: State)
    requires Shape(c, s)
  {
    forall g: nat :: s.ggrant <= g < s.greq ==> Owned(c, s, g)
  }

  ghost predicate GlobalOk(c: Config, s: State)
    requires Shape(c, s)
  {
    && s.ggrant <= s.greq && AllOwned(c, s)
    && (forall t :: 0 <= t < |s.pcs| && HasTicket(c, s, t) ==> s.ggrant <= TicketOf(c, s, t) < s.greq)
    && (forall t, u :: 0 <= t < |s.pcs| && 0 <= u < |s.pcs| && t != u && HasTicket(c, s, t) && HasTicket(c, s, u) ==>
          TicketOf(c, s, t) != TicketOf(c, s, u))
    && (forall t :: 0 <= t < |s.pcs| && HasTicket(c, s, t) && !s.pcs[t].WaitGlobal? ==> TicketOf(c, s, t) == s.ggrant)
  }

  ghost predicate Inv(c: Config, s: State) {
    Shape(c, s) && GlobalOk(c, s) && forall n :: 0 <= n < c.nodes ==> NodeOk(c, s, n)
  }

  // ---------------------------------------------------------- counting threads

  lemma {:induction false} CardAtMost(a: set<nat>, b: set<nat>)
    requires a <= b
    ensures |a| <= |b|
  {
    if a != {} {
      var x :| x in a;
      CardAtMost(a - {x}, b - {x});
    }
  }

  function Elements(q: seq<nat>): set<nat> { set i | 0 <= i < |q| :: q[i] }

  lemma {:induction false} DistinctCard(q: seq<nat>)
    requires forall i, j :: 0 <= i < j < |q| ==> q[i] != q[j]
    ensures |Elements(q)| == |q|
  {
    if q != [] {
      var n := |q| - 1;
      DistinctCard(q[..n]);
      assert Elements(q) == Elements(q[..n]) + {q[n]};
      assert q[n] !in Elements(q[..n]);
    }
  }

  /** A leader that waits cannot see the grant at the top while a session runs:
      then the whole window would be waiting, with its leader and itself. */
  lemma NoEarlyLeader(c: Config, s: State, t: nat)
    requires Inv(c, s) && Fits(c) && t < |s.pcs| && s.pcs[t].WaitLead? && s.local[c.nodeOf[t]].grant == c.window
    ensures !Running(c, s, c.nodeOf[t])
  {
    var n := c.nodeOf[t];
    var d := s.local[n];
    assert NodeOk(c, s, n);
    if Running(c, s, n) {
      var a: nat :| On(c, a, n) && Active(c, s, a) && !s.pcs[a].Open?;
      assert On(c, t, n) && Leads(s.pcs[t]);
      assert PlaceOk(c, s, n, a);
      var q := d.who + [a, t];
      assert d.request < 0 && |d.who| == c.window;
      forall i | 0 <= i < |q| ensures On(c, q[i], n) {}
      forall i, j | 0 <= i < j < |q| ensures q[i] != q[j] {
        if i < |d.who| { assert s.pcs[d.who[i]] == WaitLocal(c.window - 1 - i); }
      }
      DistinctCard(q);
      assert Elements(q) <= ThreadsOf(c, n);
      CardAtMost(Elements(q), ThreadsOf(c, n));
    }
  }

  // ------------------------------------------------------------ every step

  predicate SameRole(c: Config, s: State, s': State, u: nat)
    requires Shape(c, s) && Shape(c, s') && u < |s.pcs|
  {
    && Active(c, s', u) == Active(c, s, u) && Leads(s'.pcs[u]) == Leads(s.pcs[u]) && s'.pcs[u].Open? == s.pcs[u].Open?
    && (s.pcs[u].WaitLocal? && !Active(c, s, u) ==> s'.pcs[u] == s.pcs[u])
  }

  /** Nothing that the rest of its node could notice. */
  ghost predicate Unnoticed(c: Config, s: State, s': State, n: nat)
    requires Shape(c, s) && Shape(c, s') && n < c.nodes
  {
    var d, d' := s.local[n], s'.local[n];
    && d' == d.(sess := d'.sess, served := d'.served)
    && (forall u: nat :: On(c, u, n) ==> SameRole(c, s, s', u))
    && (Releasing(c, s, n) ==> Releasing(c, s', n))
  }

  lemma NodeKept(c: Config, s: State, s': State, n: nat)
    requires Shape(c, s) && Shape(c, s') && n < c.nodes && NodeOk(c, s, n) && Unnoticed(c, s, s', n) && Places(c, s', n)
    ensures NodeOk(c, s', n)
  {
    RunningKept(c, s, s', n);
    LeadsKept(c, s, s', n);
    hide Places, PlaceOk, OneLeads, Running, Releasing;
    assert OneActs(c, s', n);
    hide OneActs;
    if Running(c, s, n) { TicketsKept(c, s, s', n); }
  }

  lemma RunningKept(c: Config, s: State, s': State, n: nat)
    requires Shape(c, s) && Shape(c, s') && n < c.nodes && Unnoticed(c, s, s', n)
    ensures Running(c, s', n) <==> Running(c, s, n)
  {
    hide Active, Leads, Releasing;
  }

  lemma LeadsKept(c: Config, s: State, s': State, n: nat)
    requires Shape(c, s) && Shape(c, s') && n < c.nodes && Unnoticed(c, s, s', n) && OneLeads(c, s, n)
    ensures OneLeads(c, s', n)
  {
    hide Active, Leads, Releasing;
    if s.local[n].request < 0 { var u: nat :| On(c, u, n) && Leads(s.pcs[u]); assert Leads(s'.pcs[u]); }
  }

  lemma TicketsKept(c: Config, s: State, s': State, n: nat)
    requires Shape(c, s) && Shape(c, s') && n < c.nodes && Unnoticed(c, s, s', n) && TicketsOk(c, s, n)
    ensures TicketsOk(c, s', n)
  {
    hide Releasing;
  }

  lemma OtherNode(c: Config, s: State, t: nat, s': State, m: nat)
    requires OthersSame(c, s, t, s') && m < c.nodes && m != c.nodeOf[t] && NodeOk(c, s, m)
    ensures NodeOk(c, s', m)
  {
    forall u: nat | On(c, u, m) ensures s'.pcs[u] == s.pcs[u] && SameRole(c, s, s', u) {}
    if Releasing(c, s, m) { var u: nat :| On(c, u, m) && s.pcs[u].RelLocal?; assert s'.pcs[u].RelLocal?; }
    hide OneActs, OneLeads, SessionOk, Active;
    assert Unnoticed(c, s, s', m);
    RunningKept(c, s, s', m);
    hide Running;
    forall u: nat | On(c, u, m) ensures PlaceOk(c, s', m, u) { assert PlaceOk(c, s, m, u); }
    NodeKept(c, s, s', m);
  }

  /** The threads of the node other than t are as they were. */
  ghost predicate OthersSame(c: Config, s: State, t: nat, s': State) {
    && Shape(c, s) && Shape(c, s') && t < |s.pcs|
    && (forall u :: 0 <= u < |s.pcs| && u != t ==> s'.pcs[u] == s.pcs[u])
    && (forall m :: 0 <= m < c.nodes && m != c.nodeOf[t] ==> s'.local[m] == s.local[m])
  }

  lemma StepOthers(c: Config, s: State, t: nat, s': State)
    requires Shape(c, s) && Step(c, s, t, s')
    ensures OthersSame(c, s, t, s')
  {
  }

  lemma Mine(c: Config, s: State, t: nat)
    requires Inv(c, s) && t < |s.pcs|
    ensures c.nodeOf[t] < c.nodes && On(c, t, c.nodeOf[t]) && NodeOk(c, s, c.nodeOf[t]) && PlaceOk(c, s, c.nodeOf[t], t)
  {
    assert NodeOk(c, s, c.nodeOf[t]);
  }

  /** A step that keeps its node's data and whether anybody acts or leads. */
  lemma QuietNode(c: Config, s: State, t: nat, s': State)
    requires Inv(c, s) && OthersSame(c, s, t, s')
    requires var d, d' := s.local[c.nodeOf[t]], s'.local[c.nodeOf[t]];
      d' == d.(sess := d'.sess, served := d'.served) && (!Active(c, s, t) ==> d' == d)
    requires Active(c, s', t) == Active(c, s, t) && Leads(s'.pcs[t]) == Leads(s.pcs[t]) && !s'.pcs[t].Open? && !s.pcs[t].Open?
    requires s'.pcs[t].WaitLocal? ==> s.pcs[t] == s'.pcs[t]
    requires s.pcs[t].RelLocal? ==> s'.pcs[t].RelLocal?
    requires s.pcs[t].WaitLocal? ==> Active(c, s, t)
    requires Running(c, s, c.nodeOf[t]) ==> PlaceOk(c, s', c.nodeOf[t], t)
    requires !Running(c, s, c.nodeOf[t]) ==> PlaceOk(c, s', c.nodeOf[t], t)
    ensures NodeOk(c, s', c.nodeOf[t])
  {
    var n := c.nodeOf[t];
    Mine(c, s, t);
    forall u: nat | On(c, u, n) ensures SameRole(c, s, s', u) {}
    if Releasing(c, s, n) { var u: nat :| On(c, u, n) && s.pcs[u].RelLocal?; assert s'.pcs[u].RelLocal?; }
    assert Unnoticed(c, s, s', n);
    RunningKept(c, s, s', n);
    hide OneLeads, SessionOk, Running, Releasing, Unnoticed;
    forall u: nat | On(c, u, n) ensures PlaceOk(c, s', n, u) { assert PlaceOk(c, s, n, u); }
    NodeKept(c, s, s', n);
  }

  lemma IdleNode(c: Config, s: State, t: nat, s': State)
    requires Inv(c, s) && Step(c, s, t, s') && (s.pcs[t].Idle? || s.pcs[t].RelGlobal?)
    ensures Shape(c, s') && NodeOk(c, s', c.nodeOf[t])
  {
    StepOthers(c, s, t, s');
    Mine(c, s, t);
    QuietNode(c, s, t, s');
  }

  lemma ActiveNode(c: Config, s: State, t: nat, s': State)
    requires Inv(c, s) && Step(c, s, t, s') && (s.pcs[t].WaitLocal? || s.pcs[t].TakeGlobal? || s.pcs[t].WaitGlobal? || s.pcs[t].Crit?)
    ensures Shape(c, s') && NodeOk(c, s', c.nodeOf[t])
  {
    StepOthers(c, s, t, s');
    Mine(c, s, t);
    QuietNode(c, s, t, s');
  }

  /** Drawing a ticket of the window, which is open. */
  lemma DrawTicketNode(c: Config, s: State, t: nat, s': State)
    requires Inv(c, s) && Step(c, s, t, s') && s.pcs[t].Draw? && s.local[c.nodeOf[t]].request > 0
    ensures Shape(c, s') && NodeOk(c, s', c.nodeOf[t])
  {
    var n := c.nodeOf[t];
    StepOthers(c, s, t, s');
    Mine(c, s, t);
    assert Running(c, s, n) && TicketsOk(c, s, n);
    hide Releasing;
    forall u: nat | On(c, u, n) ensures SameRole(c, s, s', u) {}
    SameRunning(c, s, s', n);
    hide Running;
    forall u: nat | On(c, u, n) ensures PlaceOk(c, s', n, u) { assert PlaceOk(c, s, n, u); }
    assert OneLeads(c, s', n);
    hide Places, OneLeads, OneActs;
    assert forall i :: 0 <= i < |s.local[n].who| ==> s'.local[n].who[i] == s.local[n].who[i];
    assert TicketsOk(c, s', n);
  }

  lemma SameRunning(c: Config, s: State, s': State, n: nat)
    requires Shape(c, s) && Shape(c, s') && forall u: nat :: On(c, u, n) ==> SameRole(c, s, s', u)
    ensures Running(c, s', n) <==> Running(c, s, n)
  {
    if Running(c, s, n) { var u: nat :| On(c, u, n) && Active(c, s, u) && !s.pcs[u].Open?; assert SameRole(c, s, s', u); assert Active(c, s', u); }
    if Running(c, s', n) { var u: nat :| On(c, u, n) && Active(c, s', u) && !s'.pcs[u].Open?; assert SameRole(c, s, s', u); assert Active(c, s, u); }
  }

  /** Drawing past the window: -1 leads, anything lower tries again. */
  lemma DrawBelowNode(c: Config, s: State, t: nat, s': State)
    requires Inv(c, s) && Step(c, s, t, s') && s.pcs[t].Draw? && s.local[c.nodeOf[t]].request <= 0
    ensures Shape(c, s') && NodeOk(c, s', c.nodeOf[t])
  {
    var n := c.nodeOf[t];
    StepOthers(c, s, t, s');
    Mine(c, s, t);
    forall u: nat | On(c, u, n) ensures Active(c, s', u) == Active(c, s, u) && (s.pcs[u].WaitLocal? || s.pcs[u].Open? ==> s'.pcs[u] == s.pcs[u]) {}
    assert OneActs(c, s', n);
    DrawRunning(c, s, t, s', n);
    ReleasingKept(c, s, t, s', n);
    DrawLeads(c, s, t, s');
    hide Running, OneLeads, Releasing;
    forall u: nat | On(c, u, n) ensures PlaceOk(c, s', n, u) { assert PlaceOk(c, s, n, u); }
    assert Places(c, s', n);
    hide Places, OneActs;
    if Running(c, s, n) { assert TicketsOk(c, s', n); }
  }

  lemma DrawRunning(c: Config, s: State, t: nat, s': State, n: nat)
    requires OthersSame(c, s, t, s') && n == c.nodeOf[t] && s'.local[n].grant == s.local[n].grant
    requires !Active(c, s, t) && !Active(c, s', t)
    ensures Running(c, s', n) <==> Running(c, s, n)
  {
    if Running(c, s, n) { var u: nat :| On(c, u, n) && Active(c, s, u) && !s.pcs[u].Open?; assert Active(c, s', u); }
    if Running(c, s', n) { var u: nat :| On(c, u, n) && Active(c, s', u) && !s'.pcs[u].Open?; assert Active(c, s, u); }
  }

  lemma ReleasingKept(c: Config, s: State, t: nat, s': State, n: nat)
    requires OthersSame(c, s, t, s') && !s.pcs[t].RelLocal?
    ensures Releasing(c, s, n) ==> Releasing(c, s', n)
  {
    if Releasing(c, s, n) { var u: nat :| On(c, u, n) && s.pcs[u].RelLocal?; assert s'.pcs[u].RelLocal?; }
  }

  lemma DrawLeads(c: Config, s: State, t: nat, s': State)
    requires Inv(c, s) && Step(c, s, t, s') && s.pcs[t].Draw? && s.local[c.nodeOf[t]].request <= 0 && Shape(c, s')
    requires OneLeads(c, s, c.nodeOf[t])
    ensures OneLeads(c, s', c.nodeOf[t])
  {
    hide NodeOk, GlobalOk;
    var n := c.nodeOf[t];
    if s.local[n].request < 0 {
      var u: nat :| On(c, u, n) && Leads(s.pcs[u]);
      assert Leads(s'.pcs[u]);
    } else {
      assert Leads(s'.pcs[t]) && On(c, t, n);
    }
  }

  /** The leader may open the window: no session is left on the node. */
  lemma LeadNode(c: Config, s: State, t: nat, s': State)
    requires Inv(c, s) && Fits(c) && Step(c, s, t, s') && s.pcs[t].WaitLead?
    ensures Shape(c, s') && NodeOk(c, s', c.nodeOf[t])
  {
    var n := c.nodeOf[t];
    StepOthers(c, s, t, s');
    Mine(c, s, t);
    NoEarlyLeader(c, s, t);
    forall u: nat | On(c, u, n) ensures !Active(c, s, u) {}
    assert forall u: nat :: On(c, u, n) && u != t ==> !Active(c, s', u);
    assert !Running(c, s', n);
    assert Leads(s'.pcs[t]);
    assert OneLeads(c, s', n);
    hide OneLeads;
    forall u: nat | On(c, u, n) ensures PlaceOk(c, s', n, u) { assert PlaceOk(c, s, n, u); }
    if Releasing(c, s, n) { var u: nat :| On(c, u, n) && s.pcs[u].RelLocal?; assert s'.pcs[u].RelLocal?; }
  }

  lemma OpenNode(c: Config, s: State, t: nat, s': State)
    requires Inv(c, s) && Step(c, s, t, s') && s.pcs[t].Open?
    ensures Shape(c, s') && NodeOk(c, s', c.nodeOf[t])
  {
    var n := c.nodeOf[t];
    StepOthers(c, s, t, s');
    Mine(c, s, t);
    forall u: nat | On(c, u, n) && u != t ensures !Active(c, s', u) && !Leads(s'.pcs[u]) && !s'.pcs[u].WaitLocal? {
      assert PlaceOk(c, s, n, u);
      assert Leads(s.pcs[t]) && Active(c, s, t);
    }
    assert OneActs(c, s', n) && OneLeads(c, s', n);
    assert Active(c, s', t) && Running(c, s', n);
    hide OneActs, OneLeads;
    forall u: nat | On(c, u, n) ensures PlaceOk(c, s', n, u) { assert PlaceOk(c, s, n, u); }
    assert TicketsOk(c, s', n);
  }

  /** The holder found others waiting in the window. */
  lemma CloseOnNode(c: Config, s: State, t: nat, s': State)
    requires Inv(c, s) && Step(c, s, t, s') && s.pcs[t].Close? && s'.pcs[t].Pass?
    ensures Shape(c, s') && NodeOk(c, s', c.nodeOf[t])
  {
    var n := c.nodeOf[t];
    StepOthers(c, s, t, s');
    Mine(c, s, t);
    assert Active(c, s, t) && Running(c, s, n);
    assert TicketsOk(c, s, n);
    QuietNode(c, s, t, s');
  }

  /** The holder found the window used up, or nobody in it: the session ends. */
  lemma CloseNode(c: Config, s: State, t: nat, s': State)
    requires Inv(c, s) && Step(c, s, t, s') && s.pcs[t].Close? && s'.pcs[t].RelLocal?
    ensures Shape(c, s') && NodeOk(c, s', c.nodeOf[t])
  {
    var n := c.nodeOf[t];
    StepOthers(c, s, t, s');
    Mine(c, s, t);
    assert Active(c, s, t) && Running(c, s, n);
    assert TicketsOk(c, s, n);
    forall u: nat | On(c, u, n) && u != t ensures !Active(c, s', u) && !s'.pcs[u].WaitLocal? && !s'.pcs[u].Open? {
      assert PlaceOk(c, s, n, u);
    }
    assert !Running(c, s', n) && Releasing(c, s', n);
    CloseLeads(c, s, t, s');
    hide OneLeads;
    forall u: nat | On(c, u, n) ensures PlaceOk(c, s', n, u) { assert PlaceOk(c, s, n, u); }
  }

  lemma CloseLeads(c: Config, s: State, t: nat, s': State)
    requires OthersSame(c, s, t, s') && OneLeads(c, s, c.nodeOf[t]) && !Leads(s.pcs[t]) && !Leads(s'.pcs[t])
    requires (s'.local[c.nodeOf[t]].request < 0) == (s.local[c.nodeOf[t]].request < 0)
    ensures OneLeads(c, s', c.nodeOf[t])
  {
    var n := c.nodeOf[t];
    if s.local[n].request < 0 { var u: nat :| On(c, u, n) && Leads(s.pcs[u]); assert Leads(s'.pcs[u]); }
  }

  /** The lock passes to the thread that drew the next ticket of the window. */
  lemma PassNode(c: Config, s: State, t: nat, s': State)
    requires Inv(c, s) && Step(c, s, t, s') && s.pcs[t].Pass?
    ensures Shape(c, s') && NodeOk(c, s', c.nodeOf[t])
    ensures exists w: nat :: On(c, w, c.nodeOf[t]) && w != t && Active(c, s', w) && s'.pcs[w].WaitLocal? && forall u: nat :: On(c, u, c.nodeOf[t]) && Active(c, s', u) ==> u == w
  {
    var n := c.nodeOf[t];
    var d := s.local[n];
    StepOthers(c, s, t, s');
    Mine(c, s, t);
    assert Active(c, s, t) && Running(c, s, n) && TicketsOk(c, s, n);
    var w := d.who[c.window - d.grant];
    assert s.pcs[w] == WaitLocal(d.grant - 1) && On(c, w, n) && Active(c, s', w);
    forall u: nat | On(c, u, n) && Active(c, s', u) ensures u == w {
      if u != t { assert PlaceOk(c, s, n, u); }
    }
    assert Running(c, s', n);
    CloseLeads(c, s, t, s');
    hide OneLeads;
    forall u: nat | On(c, u, n) ensures PlaceOk(c, s', n, u) { assert PlaceOk(c, s, n, u); }
    assert TicketsOk(c, s', n);
  }

  /** Resetting the grant changes nothing for a session that has begun since. */
  lemma RelLocalNode(c: Config, s: State, t: nat, s': State)
    requires Inv(c, s) && Step(c, s, t, s') && s.pcs[t].RelLocal?
    ensures Shape(c, s') && NodeOk(c, s', c.nodeOf[t])
  {
    var n := c.nodeOf[t];
    StepOthers(c, s, t, s');
    Mine(c, s, t);
    if Running(c, s, n) { GrantIsTop(c, s, t, n); }
    forall u: nat | On(c, u, n) ensures Active(c, s', u) == Active(c, s, u) && (u != t ==> s'.pcs[u] == s.pcs[u]) { assert PlaceOk(c, s, n, u); }
    assert OneActs(c, s', n);
    CloseLeads(c, s, t, s');
    RelRunning(c, s, t, s', n);
    hide OneLeads, OneActs, Running;
    forall u: nat | On(c, u, n) ensures PlaceOk(c, s', n, u) { assert PlaceOk(c, s, n, u); }
    if Running(c, s, n) { assert TicketsOk(c, s', n); }
  }

  lemma RelRunning(c: Config, s: State, t: nat, s': State, n: nat)
    requires OthersSame(c, s, t, s') && n == c.nodeOf[t] && s.pcs[t].RelLocal? && s'.pcs[t].RelGlobal?
    requires forall u: nat :: On(c, u, n) ==> Active(c, s', u) == Active(c, s, u)
    ensures Running(c, s', n) <==> Running(c, s, n)
  {
    if Running(c, s, n) { var u: nat :| On(c, u, n) && Active(c, s, u) && !s.pcs[u].Open?; assert Active(c, s', u); }
    if Running(c, s', n) { var u: nat :| On(c, u, n) && Active(c, s', u) && !s'.pcs[u].Open?; assert Active(c, s, u); }
  }

  /** While the global ticket is being given back, a newer session of the node
      has not been served yet. */
  lemma GrantIsTop(c: Config, s: State, t: nat, n: nat)
    requires Inv(c, s) && t < |s.pcs| && Giving(s.pcs[t]) && n == c.nodeOf[t] && Running(c, s, n)
    ensures s.local[n].grant == c.window
  {
    var a: nat :| On(c, a, n) && Active(c, s, a) && !s.pcs[a].Open?;
    assert NodeOk(c, s, n);
    assert PlaceOk(c, s, n, a);
    assert HasTicket(c, s, t);
    if !s.pcs[a].TakeGlobal? { assert HasTicket(c, s, a); }
  }

  // --------------------------------------------------------- global tickets

  /** Every holder of a ticket other than t keeps it. */
  ghost predicate TicketsKeptBut(c: Config, s: State, t: nat, s': State)
    requires Shape(c, s) && Shape(c, s')
  {
    forall u :: 0 <= u < |s.pcs| && u != t ==>
      && HasTicket(c, s', u) == HasTicket(c, s, u) && s'.pcs[u] == s.pcs[u]
      && (HasTicket(c, s, u) ==> TicketOf(c, s', u) == TicketOf(c, s, u))
  }

  lemma KeptTicket(c: Config, s: State, t: nat, s': State)
    requires Shape(c, s) && Shape(c, s') && t < |s.pcs| && GlobalOk(c, s) && TicketsKeptBut(c, s, t, s')
    requires s'.greq == s.greq && s'.ggrant == s.ggrant
    requires HasTicket(c, s', t) == HasTicket(c, s, t) && (HasTicket(c, s, t) ==> TicketOf(c, s', t) == TicketOf(c, s, t))
    requires HasTicket(c, s', t) && !s'.pcs[t].WaitGlobal? ==> !s.pcs[t].WaitGlobal? || TicketOf(c, s', t) == s.ggrant
    ensures GlobalOk(c, s')
  {
    hide HasTicket, TicketOf;
    forall g: nat | s'.ggrant <= g < s'.greq ensures Owned(c, s', g) {
      assert Owned(c, s, g);
      var u: nat :| Owns(c, s, u, g);
      assert Owns(c, s', u, g);
    }
    hide Owned;
  }

  lemma SameTickets(c: Config, s: State, t: nat, s': State)
    requires OthersSame(c, s, t, s') && s'.local[c.nodeOf[t]].sess == s.local[c.nodeOf[t]].sess
    requires forall u: nat :: On(c, u, c.nodeOf[t]) && u != t ==> Active(c, s', u) == Active(c, s, u)
    ensures TicketsKeptBut(c, s, t, s')
  {
    forall u | 0 <= u < |s.pcs| && u != t
      ensures HasTicket(c, s', u) == HasTicket(c, s, u) && (HasTicket(c, s, u) ==> TicketOf(c, s', u) == TicketOf(c, s, u))
    {
      assert On(c, u, c.nodeOf[u]);
    }
  }

  lemma GlobalStep(c: Config, s: State, t: nat, s': State)
    requires Inv(c, s) && Step(c, s, t, s') && Shape(c, s')
    requires !s.pcs[t].TakeGlobal? && !s.pcs[t].Pass? && !s.pcs[t].RelGlobal? && !s.pcs[t].RelLocal?
    ensures GlobalOk(c, s')
  {
    StepOthers(c, s, t, s');
    Mine(c, s, t);
    if s.pcs[t].Draw? && s.local[c.nodeOf[t]].request > 0 {
      assert SessionOk(c, s, c.nodeOf[t]);
      assert TicketsOk(c, s, c.nodeOf[t]);
    }
    hide NodeOk, GlobalOk;
    SameTickets(c, s, t, s');
    KeptTicket(c, s, t, s');
  }

  lemma RelLocalGlobal(c: Config, s: State, t: nat, s': State)
    requires Inv(c, s) && Step(c, s, t, s') && Shape(c, s') && s.pcs[t].RelLocal?
    ensures GlobalOk(c, s')
  {
    var n := c.nodeOf[t];
    StepOthers(c, s, t, s');
    Mine(c, s, t);
    if Running(c, s, n) { GrantIsTop(c, s, t, n); }
    forall u: nat | On(c, u, n) && u != t ensures Active(c, s', u) == Active(c, s, u) { assert PlaceOk(c, s, n, u); }
    hide NodeOk, GlobalOk;
    SameTickets(c, s, t, s');
    KeptTicket(c, s, t, s');
  }

  lemma TakeGlobalStep(c: Config, s: State, t: nat, s': State)
    requires Inv(c, s) && Step(c, s, t, s') && Shape(c, s') && s.pcs[t].TakeGlobal?
    ensures GlobalOk(c, s')
  {
    var n := c.nodeOf[t];
    StepOthers(c, s, t, s');
    Mine(c, s, t);
    forall u | 0 <= u < |s.pcs| && u != t
      ensures HasTicket(c, s', u) == HasTicket(c, s, u) && (HasTicket(c, s, u) ==> TicketOf(c, s', u) == TicketOf(c, s, u))
    {
      assert On(c, u, c.nodeOf[u]);
      if c.nodeOf[u] == n { assert Active(c, s, u) ==> u == t; }
    }
    assert TicketsKeptBut(c, s, t, s');
    hide NodeOk;
    assert TicketOf(c, s', t) == s.greq && HasTicket(c, s', t) && !HasTicket(c, s, t);
    hide HasTicket, TicketOf;
    forall g: nat | s'.ggrant <= g < s'.greq ensures Owned(c, s', g) {
      if g == s.greq {
        assert Owns(c, s', t, g);
      } else {
        assert Owned(c, s, g);
        var u: nat :| Owns(c, s, u, g);
        assert Owns(c, s', u, g);
      }
    }
    hide Owned;
  }

  lemma PassGlobal(c: Config, s: State, t: nat, s': State)
    requires Inv(c, s) && Step(c, s, t, s') && s.pcs[t].Pass?
    ensures Shape(c, s') && GlobalOk(c, s')
  {
    var n := c.nodeOf[t];
    StepOthers(c, s, t, s');
    Mine(c, s, t);
    PassNode(c, s, t, s');
    var w: nat :| On(c, w, n) && w != t && Active(c, s', w) && s'.pcs[w].WaitLocal? && forall u: nat :: On(c, u, n) && Active(c, s', u) ==> u == w;
    assert HasTicket(c, s, t) && TicketOf(c, s, t) == s.local[n].sess == s.ggrant;
    forall u | 0 <= u < |s.pcs| && u != t && u != w
      ensures HasTicket(c, s', u) == HasTicket(c, s, u) && (HasTicket(c, s, u) ==> TicketOf(c, s', u) == TicketOf(c, s, u))
    {
      assert On(c, u, c.nodeOf[u]);
      if c.nodeOf[u] == n { assert !Active(c, s', u) && !Active(c, s, u); }
    }
    assert !HasTicket(c, s', t) && HasTicket(c, s', w) && TicketOf(c, s', w) == s.ggrant;
    hide NodeOk, HasTicket, TicketOf;
    forall g: nat | s'.ggrant <= g < s'.greq ensures Owned(c, s', g) {
      assert Owned(c, s, g);
      var u: nat :| Owns(c, s, u, g);
      assert Owns(c, s', if g == s.ggrant then w else u, g);
    }
    hide Owned;
  }

  lemma RelGlobalStep(c: Config, s: State, t: nat, s': State)
    requires Inv(c, s) && Step(c, s, t, s') && Shape(c, s') && s.pcs[t].RelGlobal?
    ensures GlobalOk(c, s')
  {
    StepOthers(c, s, t, s');
    Mine(c, s, t);
    assert HasTicket(c, s, t) && TicketOf(c, s, t) == s.ggrant;
    SameTickets(c, s, t, s');
    assert !HasTicket(c, s', t);
    hide NodeOk, HasTicket, TicketOf;
    forall g: nat | s'.ggrant <= g < s'.greq ensures Owned(c, s', g) {
      assert Owned(c, s, g);
      var u: nat :| Owns(c, s, u, g);
      assert Owns(c, s', u, g);
    }
    hide Owned;
  }

  lemma OwnNode(c: Config, s: State, t: nat, s': State)
    requires Inv(c, s) && Fits(c) && Step(c, s, t, s')
    ensures Shape(c, s') && NodeOk(c, s', c.nodeOf[t])
  {
    hide NodeOk, GlobalOk, Fits;
    match s.pcs[t]
    case Idle => IdleNode(c, s, t, s');
    case Draw => if s.local[c.nodeOf[t]].request > 0 { DrawTicketNode(c, s, t, s'); } else { DrawBelowNode(c, s, t, s'); }
    case WaitLocal(_) => ActiveNode(c, s, t, s');
    case WaitLead => LeadNode(c, s, t, s');
    case Open => OpenNode(c, s, t, s');
    case TakeGlobal => ActiveNode(c, s, t, s');
    case WaitGlobal(_) => ActiveNode(c, s, t, s');
    case Crit => ActiveNode(c, s, t, s');
    case Close(_) => if s'.pcs[t].Pass? { CloseOnNode(c, s, t, s'); } else { CloseNode(c, s, t, s'); }
    case Pass(_) => PassNode(c, s, t, s');
    case RelLocal(_) => RelLocalNode(c, s, t, s');
    case RelGlobal(_) => IdleNode(c, s, t, s');
  }

  lemma StepInv(c: Config, s: State, t: nat, s': State)
    requires Inv(c, s) && Fits(c) && Step(c, s, t, s')
    ensures Inv(c, s')
  {
    hide NodeOk, GlobalOk, Fits, Step;
    OwnNode(c, s, t, s');
    StepOthers(c, s, t, s');
    forall m | 0 <= m < c.nodes ensures NodeOk(c, s', m) {
      if m != c.nodeOf[t] { OtherNode(c, s, t, s', m); }
    }
    if s.pcs[t].TakeGlobal? { TakeGlobalStep(c, s, t, s'); }
    else if s.pcs[t].Pass? { PassGlobal(c, s, t, s'); }
    else if s.pcs[t].RelGlobal? { RelGlobalStep(c, s, t, s'); }
    else if s.pcs[t].RelLocal? { RelLocalGlobal(c, s, t, s'); }
    else { GlobalStep(c, s, t, s'); }
  }

  lemma {:induction false} RunInv(c: Config, tr: seq<State>, sched: seq<nat>, i: nat)
    requires Run(c, tr, sched) && Fits(c) && i < |tr|
    ensures Inv(c, tr[i])
  {
    hide Inv, Init, Step, Fits;
    if i == 0 { InitInv(c, tr[0]); } else { RunInv(c, tr, sched, i - 1); StepInv(c, tr[i - 1], sched[i - 1], tr[i]); }
  }

  lemma InitInv(c: Config, s: State)
    requires Init(c, s)
    ensures Inv(c, s)
  {
    forall n | 0 <= n < c.nodes ensures NodeOk(c, s, n) {
      forall t: nat | On(c, t, n) ensures PlaceOk(c, s, n, t) && !Active(c, s, t) {}
    }
  }

  // --------------------------------------------------------------- theorems

  /** With at most window + 1 threads on every node the lock excludes. */
  lemma MutualExclusion(c: Config, tr: seq<State>, sched: seq<nat>, i: nat, t: nat, u: nat)
    requires Run(c, tr, sched) && Fits(c) && i < |tr| && t < |tr[i].pcs| && u < |tr[i].pcs|
    requires tr[i].pcs[t].Crit? && tr[i].pcs[u].Crit?
    ensures t == u
  {
    hide Run;
    RunInv(c, tr, sched, i);
    Mine(c, tr[i], t);
    Mine(c, tr[i], u);
    assert HasTicket(c, tr[i], t) && HasTicket(c, tr[i], u);
  }

  /** One global ticket serves at most window + 1 sections of a node. */
  lemma SectionsPerTicket(c: Config, tr: seq<State>, sched: seq<nat>, i: nat, t: nat)
    requires Run(c, tr, sched) && Fits(c) && i < |tr| && t < |tr[i].pcs| && tr[i].pcs[t].Crit?
    ensures var d := tr[i].local[c.nodeOf[t]]; 1 <= d.served == c.window - d.grant + 1 <= c.window + 1
  {
    RunInv(c, tr, sched, i);
    Mine(c, tr[i], t);
    assert On(c, t, c.nodeOf[t]) && Active(c, tr[i], t);
    assert TicketsOk(c, tr[i], c.nodeOf[t]);
  }

  /** Waiting tickets of a node are distinct, and each is below the grant. */
  lemma TicketsDistinct(c: Config, tr: seq<State>, sched: seq<nat>, i: nat, t: nat, u: nat)
    requires Run(c, tr, sched) && Fits(c) && i < |tr| && t < |tr[i].pcs| && u < |tr[i].pcs| && c.nodeOf[t] == c.nodeOf[u]
    requires tr[i].pcs[t].WaitLocal? && tr[i].pcs[t] == tr[i].pcs[u]
    ensures t == u
  {
    RunInv(c, tr, sched, i);
    Mine(c, tr[i], t);
    Mine(c, tr[i], u);
  }

  // ------------------------------------------------------------ no ticket lost

  /** Some thread holds, or is giving back, the ticket that is served. */
  lemma TicketServed(c: Config, tr: seq<State>, sched: seq<nat>, i: nat) returns (t: nat)
    requires Run(c, tr, sched) && Fits(c) && i < |tr| && tr[i].ggrant < tr[i].greq
    ensures Owns(c, tr[i], t, tr[i].ggrant)
  {
    RunInv(c, tr, sched, i);
    assert Owned(c, tr[i], tr[i].ggrant);
    t :| Owns(c, tr[i], t, tr[i].ggrant);
  }

  /** A waiter whose ticket is the only one out is served. */
  lemma AloneIsServed(c: Config, tr: seq<State>, sched: seq<nat>, i: nat, t: nat)
    requires Run(c, tr, sched) && Fits(c) && i < |tr| && t < |tr[i].pcs| && tr[i].pcs[t].WaitGlobal?
    requires forall u :: 0 <= u < |tr[i].pcs| && u != t ==> !HasTicket(c, tr[i], u)
    ensures tr[i].pcs[t].g == tr[i].ggrant
  {
    RunInv(c, tr, sched, i);
    Mine(c, tr[i], t);
    assert HasTicket(c, tr[i], t);
    var u := TicketServed(c, tr, sched, i);
  }

  /** What is left to do until a thread is idle again. */
  function Rank(pc: Pc): nat {
    match pc
    case Idle => 0
    case Draw => 9
    case WaitLead => 8
    case Open => 7
    case TakeGlobal => 6
    case WaitLocal(_) => 5
    case WaitGlobal(_) => 5
    case Crit => 4
    case Close(_) => 3
    case Pass(_) => 2
    case RelLocal(_) => 2
    case RelGlobal(_) => 1
  }

  function Ranks(s: State): seq<nat> { seq(|s.pcs|, t requires 0 <= t < |s.pcs| => Rank(s.pcs[t])) }

  function Left(s: State): nat { Total(Ranks(s)) }

  ghost predicate AllIdle(s: State) { forall t :: 0 <= t < |s.pcs| ==> s.pcs[t].Idle? }

  /** The thread can take a step that brings it closer to its end. */
  ghost predicate Closer(c: Config, s: State, t: nat)
    requires Shape(c, s)
  {
    exists s' :: Step(c, s, t, s') && t < |s'.pcs| && Rank(s'.pcs[t]) < Rank(s.pcs[t])
  }

  /** What holds up a thread: another's ticket, or a window that is not open. */
  predicate Waits(c: Config, s: State, t: nat)
    requires Shape(c, s) && t < |s.pcs|
  {
    var d := s.local[c.nodeOf[t]];
    match s.pcs[t]
    case Idle => true
    case Draw => d.request < 0
    case WaitLocal(k) => d.grant != k
    case WaitLead => d.grant != c.window
    case WaitGlobal(g) => s.ggrant != g
    case _ => false
  }

  lemma GoesOn(c: Config, s: State, t: nat)
    requires Shape(c, s) && t < |s.pcs| && !Waits(c, s, t)
    ensures Closer(c, s, t)
  {
    var d := s.local[c.nodeOf[t]];
    var s' := match s.pcs[t]
      case Idle => s
      case Draw =>
        if d.request > 0 then Moved(c, s, t, WaitLocal(d.request - 1), d.(request := d.request - 1, who := d.who + [t]))
        else Moved(c, s, t, WaitLead, d.(request := -1))
      case WaitLocal(k) => Moved(c, s, t, Crit, d.(served := d.served + 1))
      case WaitLead => Moved(c, s, t, Open, d)
      case Open => Moved(c, s, t, TakeGlobal, d.(request := c.window, who := []))
      case TakeGlobal => Moved(c, s, t, WaitGlobal(s.greq), d.(sess := s.greq)).(greq := s.greq + 1)
      case WaitGlobal(g) => Moved(c, s, t, Crit, d.(served := 1))
      case Crit => Moved(c, s, t, Close(d.grant), d)
      case Close(g) =>
        Moved(c, s, t, if g == 0 || g == d.request then RelLocal(d.sess) else Pass(g), if d.request == g then d.(request := 0) else d)
      case Pass(g) => Moved(c, s, t, Idle, d.(grant := g - 1))
      case RelLocal(gt) => Moved(c, s, t, RelGlobal(gt), d.(grant := c.window))
      case RelGlobal(_) => Moved(c, s, t, Idle, d).(ggrant := s.ggrant + 1);
    assert Step(c, s, t, s') && Rank(s'.pcs[t]) < Rank(s.pcs[t]);
  }

  /** While any thread wants the lock, some thread can go on that is not spinning
      or drawing anew. */
  lemma SomeGoesOn(c: Config, s: State, t: nat) returns (u: nat)
    requires Inv(c, s) && t < |s.pcs| && !s.pcs[t].Idle?
    ensures u < |s.pcs| && !Waits(c, s, u)
  {
    hide NodeOk, GlobalOk;
    u := t;
    if Waits(c, s, t) {
      var n := c.nodeOf[t];
      match s.pcs[t]
      case Draw => u := LeaderGoesOn(c, s, n);
      case WaitLocal(_) => WaiterRuns(c, s, t); u := SessionGoesOn(c, s, n);
      case WaitLead => u := LeadGoesOn(c, s, n, t);
      case WaitGlobal(_) => u := TicketGoesOn(c, s, t);
    }
  }

  /** The served ticket's holder, or who acts in its session. */
  lemma TicketGoesOn(c: Config, s: State, t: nat) returns (u: nat)
    requires Inv(c, s) && t < |s.pcs| && HasTicket(c, s, t)
    ensures u < |s.pcs| && !Waits(c, s, u)
  {
    assert Owned(c, s, s.ggrant);
    u :| Owns(c, s, u, s.ggrant);
    Mine(c, s, u);
  }

  lemma WaiterRuns(c: Config, s: State, t: nat)
    requires Inv(c, s) && t < |s.pcs| && s.pcs[t].WaitLocal?
    ensures Running(c, s, c.nodeOf[t])
  {
    Mine(c, s, t);
  }

  lemma SessionGoesOn(c: Config, s: State, n: nat) returns (u: nat)
    requires Inv(c, s) && Shape(c, s) && n < c.nodes && Running(c, s, n)
    ensures u < |s.pcs| && !Waits(c, s, u)
  {
    hide NodeOk, GlobalOk, Inv;
    u :| On(c, u, n) && Active(c, s, u) && !s.pcs[u].Open?;
    if Waits(c, s, u) { u := TicketGoesOn(c, s, u); }
  }

  lemma LeadGoesOn(c: Config, s: State, n: nat, t: nat) returns (u: nat)
    requires Inv(c, s) && n < c.nodes && On(c, t, n) && t < |s.pcs| && Leads(s.pcs[t])
    ensures u < |s.pcs| && !Waits(c, s, u)
  {
    assert NodeOk(c, s, n) && SessionOk(c, s, n);
    u := t;
    if Waits(c, s, t) {
      if Running(c, s, n) { u := SessionGoesOn(c, s, n); } else { u :| On(c, u, n) && s.pcs[u].RelLocal?; }
    }
  }

  lemma LeaderGoesOn(c: Config, s: State, n: nat) returns (u: nat)
    requires Inv(c, s) && n < c.nodes && s.local[n].request < 0
    ensures u < |s.pcs| && !Waits(c, s, u)
  {
    assert NodeOk(c, s, n) && OneLeads(c, s, n);
    var t: nat :| On(c, t, n) && Leads(s.pcs[t]);
    u := LeadGoesOn(c, s, n, t);
  }

  ghost predicate Steps(c: Config, tr: seq<State>, sched: seq<nat>) {
    && |tr| == |sched| + 1 && (forall i :: 0 <= i < |tr| ==> Shape(c, tr[i]))
    && forall i :: 0 <= i < |sched| ==> Step(c, tr[i], sched[i], tr[i + 1])
  }

  /** The lock is never stuck: from every state it reaches, all threads that are
      at it can get through and be idle. */
  lemma {:induction false} Drains(c: Config, s: State) returns (tr: seq<State>, sched: seq<nat>)
    requires Inv(c, s) && Fits(c) && Shape(c, s)
    ensures Steps(c, tr, sched) && tr[0] == s && AllIdle(tr[|tr| - 1])
    decreases Left(s)
  {
    hide Inv, Fits, Step, Waits;
    if AllIdle(s) {
      tr, sched := [s], [];
    } else {
      var t :| 0 <= t < |s.pcs| && !s.pcs[t].Idle?;
      var u := SomeGoesOn(c, s, t);
      GoesOn(c, s, u);
      var s' :| Step(c, s, u, s') && u < |s'.pcs| && Rank(s'.pcs[u]) < Rank(s.pcs[u]);
      StepInv(c, s, u, s');
      StepOthers(c, s, u, s');
      LessLeft(Ranks(s), Ranks(s'), u);
      var tr', sched' := Drains(c, s');
      tr, sched := [s] + tr', [u] + sched';
      forall i | 0 <= i < |sched| ensures Step(c, tr[i], sched[i], tr[i + 1]) {
        if i > 0 { assert Step(c, tr'[i - 1], sched'[i - 1], tr'[i]); }
      }
    }
  }

  predicate Entering(pc: Pc) { pc.Draw? || pc.WaitLocal? || pc.WaitLead? || pc.Open? || pc.TakeGlobal? || pc.WaitGlobal? }

  ghost predicate GotIn(c: Config, tr: seq<State>, t: nat) {
    exists i :: 0 <= i < |tr| && t < |tr[i].pcs| && tr[i].pcs[t].Crit?
  }

  lemma {:induction false} OnlyThroughSection(c: Config, tr: seq<State>, sched: seq<nat>, t: nat, n: nat)
    requires Steps(c, tr, sched) && n < |tr| && t < |c.nodeOf| && Entering(tr[0].pcs[t]) && !Entering(tr[n].pcs[t])
    ensures GotIn(c, tr, t)
  {
    if Entering(tr[n - 1].pcs[t]) {
      assert Step(c, tr[n - 1], sched[n - 1], tr[n]);
      assert tr[n].pcs[t].Crit?;
    } else {
      OnlyThroughSection(c, tr, sched, t, n - 1);
    }
  }

  /** In every run with at most window + 1 threads on a node no ticket is lost for
      good: all that wait can still get the lock, and all can become idle. */
  lemma NeverLost(c: Config, tr: seq<State>, sched: seq<nat>, i: nat) returns (more: seq<State>, sched': seq<nat>)
    requires Run(c, tr, sched) && Fits(c) && i < |tr|
    ensures Steps(c, more, sched') && more[0] == tr[i] && AllIdle(more[|more| - 1])
    ensures forall t :: 0 <= t < |tr[i].pcs| && Entering(tr[i].pcs[t]) ==> GotIn(c, more, t)
  {
    RunInv(c, tr, sched, i);
    more, sched' := Drains(c, tr[i]);
    hide Inv, Step, GotIn;
    forall t | 0 <= t < |tr[i].pcs| && Entering(tr[i].pcs[t]) ensures GotIn(c, more, t) {
      OnlyThroughSection(c, more, sched', t, |more| - 1);
    }
  }

  // --------------------------------------------- one thread more is too many

  ghost predicate Reaches(c: Config, s: State) {
    exists tr, sched :: Run(c, tr, sched) && tr[|tr| - 1] == s
  }

  lemma Extend(c: Config, s: State, t: nat, s': State)
    requires Reaches(c, s) && Shape(c, s) && Shape(c, s') && Step(c, s, t, s')
    ensures Reaches(c, s')
  {
    hide Step, Init;
    var tr, sched :| Run(c, tr, sched) && tr[|tr| - 1] == s;
    var tr', sched' := tr + [s'], sched + [t];
    forall i | 0 <= i < |sched'| ensures Step(c, tr'[i], sched'[i], tr'[i + 1]) {
      if i < |sched| { assert Step(c, tr[i], sched[i], tr[i + 1]); }
    }
    assert Run(c, tr', sched') && tr'[|tr'| - 1] == s';
  }

  /** Distinct threads of node n: the first leader, the drawers of the window's
      tickets in order, and one more. */
  ghost predicate Crowd(c: Config, n: nat, q: seq<nat>) {
    && c.window > 0 && (forall t :: 0 <= t < |c.nodeOf| ==> c.nodeOf[t] < c.nodes)
    && |q| == c.window + 2 && (forall i :: 0 <= i < |q| ==> On(c, q[i], n))
    && forall i, j :: 0 <= i < j < |q| ==> q[i] != q[j]
  }

  /** After k of the waiters drew: the leader is inside, the rest are idle. */
  ghost predicate Drawn(c: Config, n: nat, q: seq<nat>, k: nat, s: State) {
    && Crowd(c, n, q) && Shape(c, s) && k <= c.window && n < c.nodes && s.pcs[q[0]].Crit?
    && (forall i :: 1 <= i <= k ==> s.pcs[q[i]] == WaitLocal(c.window - i))
    && (forall i :: k < i < |q| ==> s.pcs[q[i]].Idle?)
    && s.local[n].request == c.window - k && s.local[n].grant == c.window
  }

  lemma LeaderEnters(c: Config, n: nat, q: seq<nat>) returns (s: State)
    requires Crowd(c, n, q)
    ensures Reaches(c, s) && Drawn(c, n, q, 0, s)
  {
    var t := q[0];
    var s0 := State(seq(c.nodes, i => Local(0, c.window, [], 0, 0)), 0, 0, seq(|c.nodeOf|, i => Idle));
    assert Run(c, [s0], []) && [s0][|[s0]| - 1] == s0;
    assert On(c, t, n);
    var d := s0.local[n];
    var s1 := Moved(c, s0, t, Draw, d);
    Extend(c, s0, t, s1);
    var s2 := Moved(c, s1, t, WaitLead, d.(request := -1));
    Extend(c, s1, t, s2);
    var s3 := Moved(c, s2, t, Open, d.(request := -1));
    Extend(c, s2, t, s3);
    var s4 := Moved(c, s3, t, TakeGlobal, d.(request := c.window, who := []));
    Extend(c, s3, t, s4);
    var s5 := Moved(c, s4, t, WaitGlobal(0), s4.local[n].(sess := 0)).(greq := 1);
    Extend(c, s4, t, s5);
    s := Moved(c, s5, t, Crit, s5.local[n].(served := 1));
    Extend(c, s5, t, s);
    assert forall i :: 1 <= i < |q| ==> q[i] != t && On(c, q[i], n);
  }

  lemma {:induction false} WaitersDraw(c: Config, n: nat, q: seq<nat>, k: nat) returns (s: State)
    requires Crowd(c, n, q) && k <= c.window
    ensures Reaches(c, s) && Drawn(c, n, q, k, s)
  {
    if k == 0 {
      s := LeaderEnters(c, n, q);
    } else {
      var r := WaitersDraw(c, n, q, k - 1);
      var t := q[k];
      assert On(c, t, n);
      var d := r.local[n];
      var s1 := Moved(c, r, t, Draw, d);
      Extend(c, r, t, s1);
      s := Moved(c, s1, t, WaitLocal(c.window - k), d.(request := c.window - k, who := d.who + [t]));
      Extend(c, s1, t, s);
      assert forall i :: 0 <= i < |q| && i != k ==> s.pcs[q[i]] == r.pcs[q[i]];
    }
  }

  /** The extra thread draws -1 and sees the grant still at the top. */
  lemma ExtraLeads(c: Config, n: nat, q: seq<nat>) returns (s: State)
    requires Crowd(c, n, q)
    ensures Reaches(c, s) && Shape(c, s) && n < c.nodes && s.pcs[q[0]].Crit? && s.pcs[q[1]] == WaitLocal(c.window - 1) && s.pcs[q[c.window + 1]].Open?
    ensures s.local[n].request == -1 && s.local[n].grant == c.window
  {
    var r := WaitersDraw(c, n, q, c.window);
    var x := q[c.window + 1];
    assert On(c, x, n) && x != q[0] && x != q[1];
    var d := r.local[n];
    var s1 := Moved(c, r, x, Draw, d);
    Extend(c, r, x, s1);
    var s2 := Moved(c, s1, x, WaitLead, d.(request := -1));
    Extend(c, s1, x, s2);
    s := Moved(c, s2, x, Open, s2.local[n]);
    Extend(c, s2, x, s);
  }

  /** The leader passes the lock on and the first waiter enters. */
  lemma FirstWaiterEnters(c: Config, n: nat, q: seq<nat>) returns (s: State)
    requires Crowd(c, n, q)
    ensures Reaches(c, s) && Shape(c, s) && n < c.nodes && s.pcs[q[0]].Idle? && s.pcs[q[1]].Crit? && s.pcs[q[c.window + 1]].Open?
    ensures s.local[n].grant == c.window - 1
  {
    var r := ExtraLeads(c, n, q);
    var l, t, x := q[0], q[1], q[c.window + 1];
    assert On(c, l, n) && On(c, t, n) && l != t && x != l && x != t;
    var d := r.local[n];
    var s1 := Moved(c, r, l, Close(c.window), d);
    Extend(c, r, l, s1);
    var s2 := Moved(c, s1, l, Pass(c.window), d);
    Extend(c, s1, l, s2);
    var s3 := Moved(c, s2, l, Idle, d.(grant := c.window - 1));
    Extend(c, s2, l, s3);
    s := Moved(c, s3, t, Crit, s3.local[n].(served := s3.local[n].served + 1));
    Extend(c, s3, t, s);
  }

  /** With two threads more than the window on a node, the extra leader reopens
      the window while its tickets are still out, and a ticket drawn anew is
      served together with the old one of the same number. */
  lemma TooManyThreads(c: Config, n: nat, q: seq<nat>) returns (s: State)
    requires Crowd(c, n, q)
    ensures Reaches(c, s) && Shape(c, s) && q[0] != q[1] && s.pcs[q[0]].Crit? && s.pcs[q[1]].Crit?
  {
    var r := FirstWaiterEnters(c, n, q);
    var l, t, x := q[0], q[1], q[c.window + 1];
    assert On(c, l, n) && On(c, x, n) && l != t && x != l && x != t;
    var s1 := Moved(c, r, x, TakeGlobal, r.local[n].(request := c.window, who := []));
    Extend(c, r, x, s1);
    var d := s1.local[n];
    var s2 := Moved(c, s1, l, Draw, d);
    Extend(c, s1, l, s2);
    var s3 := Moved(c, s2, l, WaitLocal(c.window - 1), d.(request := c.window - 1, who := d.who + [l]));
    Extend(c, s2, l, s3);
    s := Moved(c, s3, l, Crit, s3.local[n].(served := s3.local[n].served + 1));
    Extend(c, s3, l, s);
  }

  lemma {:induction false} Enumerate(b: set<nat>, k: nat) returns (q: seq<nat>)
    requires k <= |b|
    ensures |q| == k && (forall i :: 0 <= i < k ==> q[i] in b) && forall i, j :: 0 <= i < j < k ==> q[i] != q[j]
  {
    if k == 0 {
      q := [];
    } else {
      var x :| x in b;
      var r := Enumerate(b - {x}, k - 1);
      q := r + [x];
    }
  }

  ghost predicate Excludes(c: Config) {
    forall s, t: nat, u: nat :: Reaches(c, s) && t < |s.pcs| && u < |s.pcs| && s.pcs[t].Crit? && s.pcs[u].Crit? ==> t == u
  }

  /** The exact condition: the lock excludes if and only if no node has more
      than window + 1 threads. */
  lemma ExactCondition(c: Config)
    requires c.window > 0 && forall t :: 0 <= t < |c.nodeOf| ==> c.nodeOf[t] < c.nodes
    ensures Excludes(c) <==> Fits(c)
  {
    if Fits(c) {
      forall s, t: nat, u: nat | Reaches(c, s) && t < |s.pcs| && u < |s.pcs| && s.pcs[t].Crit? && s.pcs[u].Crit? ensures t == u {
        var tr, sched :| Run(c, tr, sched) && tr[|tr| - 1] == s;
        MutualExclusion(c, tr, sched, |tr| - 1, t, u);
      }
    } else {
      var n :| 0 <= n < c.nodes && |ThreadsOf(c, n)| > c.window + 1;
      var q := Enumerate(ThreadsOf(c, n), c.window + 2);
      assert Crowd(c, n, q);
      var s := TooManyThreads(c, n, q);
    }
  }
}
