/** The hierarchical MCS lock and its hysteretic variant.

    A thread queues on its cohort's lock; the head of a cohort queues, with the
    cohort's one embedded node, on the root lock.  In the hysteretic variant a
    thread may also queue on the root with its own node; which way it takes
    depends on how contended the lock looked, and is left open here.

    Every load, store or atomic instruction on a shared field is a step.  The
    queues `gq` and `lq` and the counts `served` are auxiliary. */
module Hmcs {
  import opened Options

  const LOCKED: nat := 0
  const UNLOCKED: nat := 1
  const COHORT_START: nat := 1
  const WAIT: nat := 0xFFFF_FFFF_FFFF_FFFF
  const ACQUIRE_PARENT: nat := 0xFFFF_FFFF_FFFF_FFFE
  const RELEASE_THRESHOLD: nat := 100

  /** A queue node: a thread's own, or the one embedded in a cohort. */
  datatype Ref = Thr(t: nat) | Coh(c: nat)

  datatype Node = Node(next: Option<Ref>, status: nat)

  datatype Lock = Root | Cohort(c: nat)

  datatype Pc =
    | Idle
    | Xchg(k: Lock, r: Ref)
    | Try(k: Lock, r: Ref)
    | Link(k: Lock, r: Ref, prev: Ref)
    | Wait(k: Lock, r: Ref)
    | Head(c: nat, trying: bool)       // first in its cohort; the root is next
    | Set(r: Ref)                      // found the root queue empty
    | Crit(r: Ref)
    | Pass(c: nat, succ: Ref, v: nat)  // hands the cohort, and the root with it, on
    | Rel(k: Lock, r: Ref)
    | Cas(k: Lock, r: Ref)
    | Spin(k: Lock, r: Ref)
    | Give(k: Lock, r: Ref)

  datatype State = State(thr: seq<Node>, coh: seq<Node>, rootTail: Option<Ref>, tails: seq<Option<Ref>>, pcs: seq<Pc>,
                         gq: seq<Ref>, lq: seq<seq<Ref>>, served: seq<nat>)

  ghost predicate Shape(s: State) {
    |s.pcs| == |s.thr| && |s.tails| == |s.coh| == |s.lq| == |s.served|
  }

  predicate IsLock(s: State, k: Lock) { k.Cohort? ==> k.c < |s.lq| && k.c < |s.tails| }

  predicate IsRef(s: State, r: Ref) { if r.Thr? then r.t < |s.thr| else r.c < |s.coh| }

  function Queue(s: State, k: Lock): seq<Ref>
    requires IsLock(s, k)
  {
    if k.Root? then s.gq else s.lq[k.c]
  }

  function TailOf(s: State, k: Lock): Option<Ref>
    requires IsLock(s, k)
  {
    if k.Root? then s.rootTail else s.tails[k.c]
  }

  /** The queue of lock k becomes q, and its tail pointer tl. */
  function SetQueue(s: State, k: Lock, tl: Option<Ref>, q: seq<Ref>): State
    requires IsLock(s, k)
  {
    if k.Root? then s.(rootTail := tl, gq := q) else s.(tails := s.tails[k.c := tl], lq := s.lq[k.c := q])
  }

  function Get(s: State, r: Ref): Node
    requires IsRef(s, r)
  {
    if r.Thr? then s.thr[r.t] else s.coh[r.c]
  }

  function Put(s: State, r: Ref, d: Node): State
    requires IsRef(s, r)
  {
    if r.Thr? then s.(thr := s.thr[r.t := d]) else s.(coh := s.coh[r.c := d])
  }

  function Moved(s: State, t: nat, pc: Pc): State
    requires t < |s.pcs|
  {
    s.(pcs := s.pcs[t := pc])
  }

  /** The status of a node that waits for lock k, and the one that grants it. */
  function Ungranted(k: Lock): nat { if k.Root? then LOCKED else WAIT }
  function Granting(k: Lock): nat { if k.Root? then UNLOCKED else ACQUIRE_PARENT }

  // ------------------------------------------------------------- the steps

  /** The thread clears its node for lock k. */
  ghost predicate Starts(s: State, t: nat, k: Lock, pc: Pc, s': State)
    requires Shape(s) && t < |s.pcs|
  {
    s' == Put(Moved(s, t, pc), Thr(t), Node(None, Ungranted(k)))
  }

  ghost predicate Start(s: State, t: nat, s': State)
    requires Shape(s) && t < |s.pcs|
  {
    s.pcs[t].Idle? && exists k: Lock :: IsLock(s, k) && (Starts(s, t, k, Xchg(k, Thr(t)), s') || Starts(s, t, k, Try(k, Thr(t)), s'))
  }

  /** With nobody there: on to the root, or to the section. */
  function First(k: Lock, r: Ref, trying: bool): Pc {
    if k.Root? then Set(r) else Head(k.c, trying)
  }

  ghost predicate DoXchg(s: State, t: nat, s': State)
    requires Shape(s) && t < |s.pcs|
  {
    && s.pcs[t].Xchg? && IsLock(s, s.pcs[t].k)
    && var k, r := s.pcs[t].k, s.pcs[t].r;
       s' == SetQueue(Moved(s, t, if TailOf(s, k) == None then First(k, r, false) else Link(k, r, TailOf(s, k).value)),
                      k, Some(r), Queue(s, k) + [r])
  }

  ghost predicate DoTry(s: State, t: nat, s': State)
    requires Shape(s) && t < |s.pcs|
  {
    && s.pcs[t].Try? && IsLock(s, s.pcs[t].k)
    && var k, r := s.pcs[t].k, s.pcs[t].r;
       s' == if TailOf(s, k) == None then SetQueue(Moved(s, t, First(k, r, true)), k, Some(r), Queue(s, k) + [r])
             else Moved(s, t, After(k, r, t))
  }

  ghost predicate DoLink(s: State, t: nat, s': State)
    requires Shape(s) && t < |s.pcs|
  {
    && s.pcs[t].Link? && IsRef(s, s.pcs[t].prev)
    && var pc := s.pcs[t];
       s' == Put(Moved(s, t, Wait(pc.k, pc.r)), pc.prev, Get(s, pc.prev).(next := Some(pc.r)))
  }

  /** `served` restarts when the cohort takes the root, else counts on. */
  ghost predicate DoWait(s: State, t: nat, s': State)
    requires Shape(s) && t < |s.pcs|
  {
    && s.pcs[t].Wait? && IsRef(s, s.pcs[t].r) && IsLock(s, s.pcs[t].k)
    && var k, r := s.pcs[t].k, s.pcs[t].r;
       Get(s, r).status != Ungranted(k) &&
       s' == if k.Root? then Entered(Moved(s, t, Crit(r)), r)
             else if Get(s, r).status < ACQUIRE_PARENT
             then Moved(s, t, Crit(Coh(k.c))).(served := s.served[k.c := s.served[k.c] + 1])
             else Moved(s, t, Head(k.c, false))
  }

  function Entered(s: State, r: Ref): State {
    if r.Coh? && r.c < |s.served| then s.(served := s.served[r.c := 1]) else s
  }

  /** The stores that start the cohort's count and clear its node. */
  ghost predicate DoHead(s: State, t: nat, s': State)
    requires Shape(s) && t < |s.pcs|
  {
    && s.pcs[t].Head? && s.pcs[t].c < |s.coh|
    && var c := s.pcs[t].c;
       s' == Moved(s, t, if s.pcs[t].trying then Try(Root, Coh(c)) else Xchg(Root, Coh(c)))
               .(thr := s.thr[t := s.thr[t].(status := COHORT_START)], coh := s.coh[c := Node(None, LOCKED)])
  }

  ghost predicate DoSet(s: State, t: nat, s': State)
    requires Shape(s) && t < |s.pcs|
  {
    && s.pcs[t].Set? && IsRef(s, s.pcs[t].r)
    && var r := s.pcs[t].r;
       s' == Entered(Put(Moved(s, t, Crit(r)), r, Get(s, r).(status := UNLOCKED)), r)
  }

  ghost predicate DoUnlock(s: State, t: nat, s': State)
    requires Shape(s) && t < |s.pcs|
  {
    && s.pcs[t].Crit?
    && var r, d := s.pcs[t].r, s.thr[t];
       s' == Moved(s, t, if r.Thr? || d.status == RELEASE_THRESHOLD || d.next == None then Rel(Root, r)
                         else Pass(r.c, d.next.value, d.status + 1))
  }

  ghost predicate DoPass(s: State, t: nat, s': State)
    requires Shape(s) && t < |s.pcs|
  {
    && s.pcs[t].Pass? && s.pcs[t].c < |s.lq| && |s.lq[s.pcs[t].c]| > 0 && IsRef(s, s.pcs[t].succ)
    && var c, x := s.pcs[t].c, s.pcs[t].succ;
       s' == Put(Moved(s, t, Idle), x, Get(s, x).(status := s.pcs[t].v)).(lq := s.lq[c := s.lq[c][1..]])
  }

  ghost predicate DoRel(s: State, t: nat, s': State)
    requires Shape(s) && t < |s.pcs|
  {
    && s.pcs[t].Rel? && IsRef(s, s.pcs[t].r)
    && s' == Moved(s, t, if Get(s, s.pcs[t].r).next == None then Cas(s.pcs[t].k, s.pcs[t].r) else Give(s.pcs[t].k, s.pcs[t].r))
  }

  /** What follows once lock k is given up. */
  function After(k: Lock, r: Ref, t: nat): Pc {
    if k.Root? && r.Coh? then Rel(Cohort(r.c), Thr(t)) else Idle
  }

  ghost predicate DoCas(s: State, t: nat, s': State)
    requires Shape(s) && t < |s.pcs|
  {
    && s.pcs[t].Cas? && IsLock(s, s.pcs[t].k)
    && var k, r := s.pcs[t].k, s.pcs[t].r;
       s' == if TailOf(s, k) == Some(r) then SetQueue(Moved(s, t, After(k, r, t)), k, None, []) else Moved(s, t, Spin(k, r))
  }

  ghost predicate DoSpin(s: State, t: nat, s': State)
    requires Shape(s) && t < |s.pcs|
  {
    && s.pcs[t].Spin? && IsRef(s, s.pcs[t].r) && Get(s, s.pcs[t].r).next != None
    && s' == Moved(s, t, Give(s.pcs[t].k, s.pcs[t].r))
  }

  ghost predicate DoGive(s: State, t: nat, s': State)
    requires Shape(s) && t < |s.pcs|
  {
    && s.pcs[t].Give? && IsRef(s, s.pcs[t].r) && IsLock(s, s.pcs[t].k)
    && Get(s, s.pcs[t].r).next.Some? && IsRef(s, Get(s, s.pcs[t].r).next.value) && |Queue(s, s.pcs[t].k)| > 0
    && var k, r := s.pcs[t].k, s.pcs[t].r;
       var x := Get(s, r).next.value;
       s' == Put(SetQueue(Moved(s, t, After(k, r, t)), k, TailOf(s, k), Queue(s, k)[1..]), x, Get(s, x).(status := Granting(k)))
  }

  ghost predicate Step(s: State, t: nat, s': State)
    requires Shape(s)
  {
    t < |s.pcs| &&
    match s.pcs[t]
    case Idle => Start(s, t, s')
    case Xchg(_, _) => DoXchg(s, t, s')
    case Try(_, _) => DoTry(s, t, s')
    case Link(_, _, _) => DoLink(s, t, s')
    case Wait(_, _) => DoWait(s, t, s')
    case Head(_, _) => DoHead(s, t, s')
    case Set(_) => DoSet(s, t, s')
    case Crit(_) => DoUnlock(s, t, s')
    case Pass(_, _, _) => DoPass(s, t, s')
    case Rel(_, _) => DoRel(s, t, s')
    case Cas(_, _) => DoCas(s, t, s')
    case Spin(_, _) => DoSpin(s, t, s')
    case Give(_, _) => DoGive(s, t, s')
  }

  ghost predicate Init(s: State) {
    && Shape(s) && s.rootTail == None && s.gq == []
    && (forall c :: 0 <= c < |s.lq| ==> s.lq[c] == [] && s.tails[c] == None)
    && forall t :: 0 <= t < |s.pcs| ==> s.pcs[t] == Idle
  }

  ghost predicate Run(tr: seq<State>, sched: seq<nat>) {
    && |tr| == |sched| + 1 && Init(tr[0]) && (forall i :: 0 <= i < |tr| ==> Shape(tr[i]))
    && forall i :: 0 <= i < |sched| ==> Step(tr[i], sched[i], tr[i + 1])
  }

  // ------------------------------------------------------------- invariants

  /** The node with which a thread at this point is, or may be, in the root queue. */
  function RootRef(pc: Pc): Option<Ref> {
    match pc
    case Link(Root, r, _) => Some(r)
    case Wait(Root, r) => Some(r)
    case Set(r) => Some(r)
    case Crit(r) => Some(r)
    case Pass(c, _, _) => Some(Coh(c))
    case Rel(Root, r) => Some(r)
    case Cas(Root, r) => Some(r)
    case Spin(Root, r) => Some(r)
    case Give(Root, r) => Some(r)
    case _ => None
  }

  /** The cohort a thread at this point is queued in. */
  function CohortOf(pc: Pc): Option<nat> {
    match pc
    case Link(Cohort(c), _, _) => Some(c)
    case Wait(Cohort(c), _) => Some(c)
    case Head(c, _) => Some(c)
    case Rel(Cohort(c), _) => Some(c)
    case Cas(Cohort(c), _) => Some(c)
    case Spin(Cohort(c), _) => Some(c)
    case Give(Cohort(c), _) => Some(c)
    case Xchg(Root, Coh(c)) => Some(c)
    case Try(Root, Coh(c)) => Some(c)
    case _ => if RootRef(pc).Some? && RootRef(pc).value.Coh? then Some(RootRef(pc).value.c) else None
  }

  /** The thread that acts for a node. */
  function Driver(s: State, r: Ref): Option<nat> {
    match r
    case Thr(t) => Some(t)
    case Coh(c) => if c < |s.lq| && s.lq[c] != [] && s.lq[c][0].Thr? then Some(s.lq[c][0].t) else None
  }

  function PcOf(s: State, r: Ref): Pc {
    var d := Driver(s, r);
    if d.Some? && d.value < |s.pcs| then s.pcs[d.value] else Idle
  }

  /** The head of cohort c brings the root lock with it. */
  predicate HasRoot(s: State, c: nat)
    requires Shape(s) && c < |s.lq|
  {
    var pc := PcOf(s, Coh(c));
    || RootRef(pc) == Some(Coh(c))
    || (s.lq[c] != [] && pc == Wait(Cohort(c), s.lq[c][0]) && pc.r.Thr? && pc.r.t < |s.thr| && s.thr[pc.r.t].status < ACQUIRE_PARENT)
  }

  ghost predicate Distinct(q: seq<Ref>) {
    forall i, j :: 0 <= i < j < |q| ==> q[i] != q[j]
  }

  /** A waiter is linked and waits, or is about to link itself. */
  ghost predicate Linked(s: State, k: Lock, a: Ref, b: Ref) {
    && IsRef(s, a) && IsRef(s, b) && Get(s, b).status == Ungranted(k)
    && (|| (Get(s, a).next == Some(b) && PcOf(s, b) == Wait(k, b))
        || (Get(s, a).next == None && PcOf(s, b) == Link(k, b, a)))
  }

  /** An MCS queue. */
  ghost predicate QueueOk(s: State, k: Lock)
    requires Shape(s) && IsLock(s, k)
  {
    var q := Queue(s, k);
    && Distinct(q) && (forall i :: 0 <= i < |q| ==> IsRef(s, q[i]))
    && (k.Cohort? ==> forall i :: 0 <= i < |q| ==> q[i].Thr?)
    && TailOf(s, k) == (if q == [] then None else Some(q[|q| - 1]))
    && (forall i, j :: 0 <= i && j == i + 1 < |q| ==> Linked(s, k, q[i], q[j]))
    && (q != [] ==> Get(s, q[|q| - 1]).next == None)
  }

  /** Where each thread stands: which queues it is in, and how far ahead. */
  ghost predicate ThreadOk(s: State, t: nat)
    requires Shape(s) && t < |s.pcs|
  {
    var pc, me := s.pcs[t], Thr(t);
    && (forall c :: 0 <= c < |s.lq| ==> (me in s.lq[c] <==> CohortOf(pc) == Some(c)))
    && (me in s.gq <==> RootRef(pc) == Some(me))
    && (CohortOf(pc).Some? ==> CohortOf(pc).value < |s.lq|)
    && DataOk(s, t)
  }

  ghost predicate DataOk(s: State, t: nat)
    requires Shape(s) && t < |s.pcs|
  {
    match s.pcs[t]
    case Idle => true
    case Xchg(k, r) => JoinerOk(s, t, k, r)
    case Try(k, r) => JoinerOk(s, t, k, r)
    case Link(k, r, _) => OwnRef(s, t, k, r) && StartsCount(s, t, r) && Queue(s, k) != [] && Queue(s, k)[0] != r
    case Wait(k, r) => OwnRef(s, t, k, r) && WaiterOk(s, t, k, r) && StartsCount(s, t, r)
    case Head(c, _) => HeadOf(s, t, c)
    case Set(r) => OwnRef(s, t, Root, r) && AtRoot(s, r) && StartsCount(s, t, r)
    case Crit(r) => OwnRef(s, t, Root, r) && AtRoot(s, r) && (r.Coh? ==> CountOk(s, t, r.c))
    case Pass(c, succ, v) =>
      && OwnRef(s, t, Root, Coh(c)) && AtRoot(s, Coh(c)) && |s.lq[c]| > 1 && succ == s.lq[c][1]
      && s.thr[t].next == Some(succ) && v == s.served[c] + 1 <= RELEASE_THRESHOLD && s.served[c] >= 1
    case Rel(k, r) => ReleaserOk(s, t, k, r)
    case Cas(k, r) => ReleaserOk(s, t, k, r)
    case Spin(k, r) => ReleaserOk(s, t, k, r)
    case Give(k, r) => ReleaserOk(s, t, k, r) && Get(s, r).next != None
  }

  predicate HeadOf(s: State, t: nat, c: nat) { c < |s.lq| && s.lq[c] != [] && s.lq[c][0] == Thr(t) }

  predicate AtRoot(s: State, r: Ref) { s.gq != [] && s.gq[0] == r }

  /** The thread acts for r on lock k. */
  predicate OwnRef(s: State, t: nat, k: Lock, r: Ref)
    requires Shape(s)
  {
    && IsLock(s, k) && IsRef(s, r)
    && (r.Thr? ==> r.t == t) && (r.Coh? ==> k.Root? && HeadOf(s, t, r.c))
  }

  predicate JoinerOk(s: State, t: nat, k: Lock, r: Ref)
    requires Shape(s)
  {
    OwnRef(s, t, k, r) && StartsCount(s, t, r) && Get(s, r).next == None && Get(s, r).status == Ungranted(k)
  }

  /** On the way to the root the head has set its count to the start. */
  predicate StartsCount(s: State, t: nat, r: Ref) { r.Coh? ==> t < |s.thr| && s.thr[t].status == COHORT_START }

  predicate CountOk(s: State, t: nat, c: nat)
    requires Shape(s)
  {
    c < |s.served| && t < |s.thr| && s.thr[t].status == s.served[c] && 1 <= s.served[c] <= RELEASE_THRESHOLD
  }

  predicate ReleaserOk(s: State, t: nat, k: Lock, r: Ref)
    requires Shape(s)
  {
    OwnRef(s, t, k, r) && Queue(s, k) != [] && Queue(s, k)[0] == r
  }

  /** A waiter is granted exactly when it heads its queue.  A cohort's waiter is
      granted the cohort alone, or the next count of a cohort at the root. */
  predicate WaiterOk(s: State, t: nat, k: Lock, r: Ref)
    requires Shape(s) && OwnRef(s, t, k, r)
  {
    var st := Get(s, r).status;
    && Queue(s, k) != [] && (Queue(s, k)[0] == r <==> st != Ungranted(k))
    && (k.Root? ==> st == LOCKED || st == UNLOCKED)
    && (k.Cohort? && st != WAIT ==> st == ACQUIRE_PARENT || (1 < st <= RELEASE_THRESHOLD && AtRoot(s, Coh(k.c)) && st == s.served[k.c] + 1))
  }

  /** A cohort's node is in the root queue exactly on behalf of its head. */
  ghost predicate CohortOk(s: State, c: nat)
    requires Shape(s) && c < |s.lq|
  {
    Coh(c) in s.gq <==> HasRoot(s, c)
  }

  ghost predicate Inv(s: State) {
    && Shape(s) && QueueOk(s, Root)
    && (forall c :: 0 <= c < |s.lq| ==> QueueOk(s, Cohort(c)) && CohortOk(s, c))
    && forall t :: 0 <= t < |s.pcs| ==> ThreadOk(s, t)
  }

  // -------------------------------------------------- what a step leaves alone

  ghost predicate SameSize(s: State, s': State) {
    Shape(s) && Shape(s') && |s'.pcs| == |s.pcs| && |s'.lq| == |s.lq|
  }

  /** A link may be set once, but not while its node is being prepared. */
  predicate NextKept(a: Option<Ref>, b: Option<Ref>, preparing: bool) {
    b == a || (a == None && !preparing)
  }

  predicate Prepares(pc: Pc, r: Ref) { (pc.Xchg? || pc.Try?) && pc.r == r }

  /** As far as thread u can tell, nothing happened. */
  ghost predicate SameView(s: State, s': State, u: nat)
    requires SameSize(s, s') && u < |s.pcs|
  {
    var pc, me := s.pcs[u], Thr(u);
    && s'.pcs[u] == pc
    && s'.thr[u].status == s.thr[u].status && NextKept(s.thr[u].next, s'.thr[u].next, Prepares(pc, me))
    && (forall c :: 0 <= c < |s.lq| ==> (me in s'.lq[c] <==> me in s.lq[c]))
    && (me in s'.gq <==> me in s.gq)
    && (CohortOf(pc).Some? && CohortOf(pc).value < |s.lq| ==> SameCohort(s, s', u, CohortOf(pc).value))
    && (RootRef(pc).Some? ==> s'.gq != [] && (AtRoot(s', RootRef(pc).value) <==> AtRoot(s, RootRef(pc).value)))
  }

  ghost predicate SameCohort(s: State, s': State, u: nat, c: nat)
    requires SameSize(s, s') && u < |s.pcs| && c < |s.lq|
  {
    && s'.lq[c] != [] && (HeadOf(s', u, c) <==> HeadOf(s, u, c))
    && (HeadOf(s, u, c) ==>
          && s'.served[c] == s.served[c] && s'.coh[c].status == s.coh[c].status
          && NextKept(s.coh[c].next, s'.coh[c].next, Prepares(s.pcs[u], Coh(c)))
          && (|s.lq[c]| > 1 ==> |s'.lq[c]| > 1 && s'.lq[c][1] == s.lq[c][1])
          && (AtRoot(s', Coh(c)) <==> AtRoot(s, Coh(c))))
  }

  lemma ThreadKept(s: State, s': State, u: nat)
    requires SameSize(s, s') && u < |s.pcs| && SameView(s, s', u) && ThreadOk(s, u)
    ensures ThreadOk(s', u)
  {
    assert DataOk(s', u) by {
      var pc := s.pcs[u];
      if pc.Xchg? || pc.Try? { JoinerKept(s, s', u); }
      else if pc.Link? || pc.Wait? { WaiterKept(s, s', u); }
      else if pc.Rel? || pc.Cas? || pc.Spin? || pc.Give? { ReleaserKept(s, s', u); }
      else { InsideKept(s, s', u); }
    }
    hide DataOk, SameCohort;
  }

  lemma JoinerKept(s: State, s': State, u: nat)
    requires SameSize(s, s') && u < |s.pcs| && SameView(s, s', u) && ThreadOk(s, u) && (s.pcs[u].Xchg? || s.pcs[u].Try?)
    ensures DataOk(s', u)
  {
    var r := s.pcs[u].r;
    if r.Coh? { assert HeadOf(s, u, r.c) && SameCohort(s, s', u, r.c); }
  }

  lemma WaiterKept(s: State, s': State, u: nat)
    requires SameSize(s, s') && u < |s.pcs| && SameView(s, s', u) && ThreadOk(s, u) && (s.pcs[u].Link? || s.pcs[u].Wait?)
    ensures DataOk(s', u)
  {
    var k, r := s.pcs[u].k, s.pcs[u].r;
    if r.Coh? { assert HeadOf(s, u, r.c) && SameCohort(s, s', u, r.c); }
    if k.Cohort? { assert SameCohort(s, s', u, k.c); }
  }

  lemma ReleaserKept(s: State, s': State, u: nat)
    requires SameSize(s, s') && u < |s.pcs| && SameView(s, s', u) && ThreadOk(s, u)
    requires s.pcs[u].Rel? || s.pcs[u].Cas? || s.pcs[u].Spin? || s.pcs[u].Give?
    ensures DataOk(s', u)
  {
    var k, r := s.pcs[u].k, s.pcs[u].r;
    if r.Coh? { assert HeadOf(s, u, r.c) && SameCohort(s, s', u, r.c); }
    if k.Cohort? { assert SameCohort(s, s', u, k.c); }
  }

  lemma InsideKept(s: State, s': State, u: nat)
    requires SameSize(s, s') && u < |s.pcs| && SameView(s, s', u) && ThreadOk(s, u)
    requires s.pcs[u].Idle? || s.pcs[u].Head? || s.pcs[u].Set? || s.pcs[u].Crit? || s.pcs[u].Pass?
    ensures DataOk(s', u)
  {
    if CohortOf(s.pcs[u]).Some? { assert SameCohort(s, s', u, CohortOf(s.pcs[u]).value); }
  }

  lemma QueueKept(s: State, s': State, k: Lock)
    requires SameSize(s, s') && IsLock(s, k) && QueueOk(s, k)
    requires Queue(s', k) == Queue(s, k) && TailOf(s', k) == TailOf(s, k)
    requires forall i :: 0 <= i < |Queue(s, k)| ==> IsRef(s', Queue(s, k)[i]) && Get(s', Queue(s, k)[i]).next == Get(s, Queue(s, k)[i]).next
    requires forall i :: 1 <= i < |Queue(s, k)| ==> Get(s', Queue(s, k)[i]).status == Get(s, Queue(s, k)[i]).status
    requires forall i :: 1 <= i < |Queue(s, k)| ==> PcOf(s', Queue(s, k)[i]) == PcOf(s, Queue(s, k)[i])
    ensures QueueOk(s', k)
  {
    var q := Queue(s, k);
    forall i, j | 0 <= i && j == i + 1 < |q| ensures Linked(s', k, q[i], q[j]) {
      assert Linked(s, k, q[i], q[j]);
    }
  }

  lemma CohortKept(s: State, s': State, c: nat)
    requires SameSize(s, s') && c < |s.lq| && CohortOk(s, c)
    requires (s'.lq[c] != []) == (s.lq[c] != []) && (s.lq[c] != [] ==> s'.lq[c][0] == s.lq[c][0])
    requires Coh(c) in s'.gq <==> Coh(c) in s.gq
    requires HasRoot(s', c) <==> HasRoot(s, c)
    ensures CohortOk(s', c)
  {
  }

  /** Facts about the mover. */
  lemma Mine(s: State, t: nat)
    requires Inv(s) && t < |s.pcs|
    ensures ThreadOk(s, t)
  {
  }

  lemma CohortQueue(s: State, c: nat)
    requires Inv(s) && c < |s.lq|
    ensures QueueOk(s, Cohort(c)) && CohortOk(s, c)
  {
  }

  /** A step that only moves thread t's own program counter, keeping its place. */
  lemma PlaceKept(s: State, t: nat, s': State)
    requires Inv(s) && t < |s.pcs| && |s'.pcs| == |s.pcs| && s' == s.(pcs := s.pcs[t := s'.pcs[t]], served := s'.served) && |s'.served| == |s.served|
    requires forall c :: 0 <= c < |s.lq| && !HeadOf(s, t, c) ==> s'.served[c] == s.served[c]
    requires CohortOf(s'.pcs[t]) == CohortOf(s.pcs[t])
    requires forall c :: 0 <= c < |s.lq| && HeadOf(s, t, c) ==> (HasRoot(s', c) <==> HasRoot(s, c))
    requires forall i :: 1 <= i < |s.gq| ==> Driver(s, s.gq[i]) != Some(t)
    requires forall c, i :: 0 <= c < |s.lq| && 1 <= i < |s.lq[c]| ==> s.lq[c][i] != Thr(t)
    requires ThreadOk(s', t)
    ensures Inv(s')
  {
    hide ThreadOk, QueueOk, CohortOk;
    forall u | 0 <= u < |s.pcs| && u != t ensures ThreadOk(s', u) {
      Mine(s, u);
      OthersSee(s, t, s', u);
      ThreadKept(s, s', u);
    }
    RootRefs(s);
    QueueKept(s, s', Root);
    forall c | 0 <= c < |s.lq| ensures QueueOk(s', Cohort(c)) && CohortOk(s', c) {
      CohortQueue(s, c);
      CohortRefs(s, c);
      QueueKept(s, s', Cohort(c));
      CohortKept(s, s', c);
    }
  }

  lemma RootRefs(s: State)
    requires Shape(s) && QueueOk(s, Root)
    ensures forall i :: 0 <= i < |s.gq| ==> IsRef(s, s.gq[i])
    ensures Distinct(s.gq)
  {
  }

  lemma CohortRefs(s: State, c: nat)
    requires Shape(s) && c < |s.lq| && QueueOk(s, Cohort(c))
    ensures forall i :: 0 <= i < |s.lq[c]| ==> s.lq[c][i].Thr? && IsRef(s, s.lq[c][i])
    ensures Distinct(s.lq[c])
  {
  }

  lemma OthersSee(s: State, t: nat, s': State, u: nat)
    requires SameSize(s, s') && t < |s.pcs| && u < |s.pcs| && u != t && ThreadOk(s, u)
    requires s' == s.(pcs := s.pcs[t := s'.pcs[t]], served := s'.served)
    requires forall c :: 0 <= c < |s.lq| && !HeadOf(s, t, c) ==> s'.served[c] == s.served[c]
    ensures SameView(s, s', u)
  {
    if CohortOf(s.pcs[u]).Some? {
      var c := CohortOf(s.pcs[u]).value;
      assert Thr(u) in s.lq[c];
    }
    if RootRef(s.pcs[u]).Some? { RootNotEmpty(s, u); }
  }

  lemma RootNotEmpty(s: State, u: nat)
    requires Shape(s) && u < |s.pcs| && ThreadOk(s, u) && RootRef(s.pcs[u]).Some?
    ensures s.gq != []
  {
  }

  // ------------------------------------------- steps that keep their place

  /** A thread that does not wait stands nowhere but in front. */
  lemma NotBehind(s: State, t: nat)
    requires Inv(s) && t < |s.pcs| && !s.pcs[t].Link?
    requires s.pcs[t].Wait? && IsRef(s, s.pcs[t].r) ==> Get(s, s.pcs[t].r).status != Ungranted(s.pcs[t].k)
    ensures forall i :: 1 <= i < |s.gq| ==> Driver(s, s.gq[i]) != Some(t)
    ensures forall c, i :: 0 <= c < |s.lq| && 1 <= i < |s.lq[c]| ==> s.lq[c][i] != Thr(t)
  {
    hide ThreadOk, CohortOk;
    forall i | 1 <= i < |s.gq| ensures Driver(s, s.gq[i]) != Some(t) {
      assert Linked(s, Root, s.gq[i - 1], s.gq[i]);
    }
    forall c, i | 0 <= c < |s.lq| && 1 <= i < |s.lq[c]| ensures s.lq[c][i] != Thr(t) {
      CohortQueue(s, c);
      assert Linked(s, Cohort(c), s.lq[c][i - 1], s.lq[c][i]);
    }
  }

  lemma RelInv(s: State, t: nat, s': State)
    requires Inv(s) && t < |s.pcs| && DoRel(s, t, s')
    ensures Inv(s')
  {
    hide QueueOk, CohortOk;
    Mine(s, t);
    NotBehind(s, t);
    PlaceKept(s, t, s');
  }

  lemma SpinInv(s: State, t: nat, s': State)
    requires Inv(s) && t < |s.pcs| && DoSpin(s, t, s')
    ensures Inv(s')
  {
    hide QueueOk, CohortOk;
    Mine(s, t);
    NotBehind(s, t);
    PlaceKept(s, t, s');
  }

  lemma UnlockInv(s: State, t: nat, s': State)
    requires Inv(s) && t < |s.pcs| && DoUnlock(s, t, s')
    ensures Inv(s')
  {
    hide QueueOk, CohortOk;
    Mine(s, t);
    NotBehind(s, t);
    if s.pcs[t].r.Coh? { NextIsSecond(s, Cohort(s.pcs[t].r.c)); }
    PlaceKept(s, t, s');
  }

  ghost predicate SecondWaits(s: State, k: Lock)
    requires IsLock(s, k)
  {
    var q := Queue(s, k);
    && |q| > 1 && IsRef(s, q[0]) && IsRef(s, q[1]) && q[0] != q[1] && Get(s, q[0]).next == Some(q[1])
    && PcOf(s, q[1]) == Wait(k, q[1]) && Get(s, q[1]).status == Ungranted(k)
  }

  /** The head's link leads to the second node of the queue, which waits. */
  lemma NextIsSecond(s: State, k: Lock)
    requires Inv(s) && IsLock(s, k) && Queue(s, k) != []
    ensures IsRef(s, Queue(s, k)[0])
    ensures Get(s, Queue(s, k)[0]).next != None ==> SecondWaits(s, k)
  {
    hide ThreadOk, CohortOk;
    if k.Cohort? { CohortQueue(s, k.c); }
    var q := Queue(s, k);
    if |q| > 1 { assert Linked(s, k, q[0], q[1]); }
  }

  lemma GrantedInv(s: State, t: nat, s': State)
    requires Inv(s) && t < |s.pcs| && DoWait(s, t, s')
    ensures Inv(s')
  {
    hide QueueOk, CohortOk;
    Mine(s, t);
    NotBehind(s, t);
    PlaceKept(s, t, s');
  }

  // -------------------------------------------------------- node writes

  /** A thread outside every queue prepares its node. */
  lemma StartInv(s: State, t: nat, s': State)
    requires Inv(s) && t < |s.pcs| && Start(s, t, s')
    ensures Inv(s')
  {
    hide QueueOk, CohortOk;
    Mine(s, t);
    NotBehind(s, t);
    Outside(s, t);
    hide ThreadOk;
    forall u | 0 <= u < |s.pcs| ensures ThreadOk(s', u) {
      Mine(s, u);
      if u != t { StartOthers(s, t, s', u); } else { StartOwn(s, t, s'); }
    }
    StartQueues(s, t, s');
  }

  lemma Outside(s: State, t: nat)
    requires Inv(s) && t < |s.pcs| && s.pcs[t].Idle?
    ensures Thr(t) !in s.gq && forall c :: 0 <= c < |s.lq| ==> Thr(t) !in s.lq[c]
  {
    Mine(s, t);
  }

  lemma StartOthers(s: State, t: nat, s': State, u: nat)
    requires Inv(s) && t < |s.pcs| && Start(s, t, s') && u < |s.pcs| && u != t && ThreadOk(s, u)
    ensures ThreadOk(s', u)
  {
    hide QueueOk, CohortOk, ThreadOk;
    WritesUnseen(s, t, s', u);
    ThreadKept(s, s', u);
  }

  /** Node writes that do not concern u, or only set a link. */
  lemma WritesUnseen(s: State, t: nat, s': State, u: nat)
    requires SameSize(s, s') && t < |s.pcs| && u < |s.pcs| && u != t && ThreadOk(s, u)
    requires s' == s.(pcs := s.pcs[t := s'.pcs[t]], thr := s'.thr, coh := s'.coh, served := s'.served)
    requires s'.thr[u].status == s.thr[u].status && NextKept(s.thr[u].next, s'.thr[u].next, Prepares(s.pcs[u], Thr(u)))
    requires forall c :: 0 <= c < |s.lq| && HeadOf(s, u, c) ==>
      s'.served[c] == s.served[c] && s'.coh[c].status == s.coh[c].status && NextKept(s.coh[c].next, s'.coh[c].next, Prepares(s.pcs[u], Coh(c)))
    ensures SameView(s, s', u)
  {
    hide DataOk;
    if CohortOf(s.pcs[u]).Some? { assert Thr(u) in s.lq[CohortOf(s.pcs[u]).value]; }
    if RootRef(s.pcs[u]).Some? { RootNotEmpty(s, u); }
  }

  lemma StartOwn(s: State, t: nat, s': State)
    requires Inv(s) && t < |s.pcs| && Start(s, t, s') && ThreadOk(s, t)
    ensures ThreadOk(s', t)
  {
    hide QueueOk, CohortOk;
  }

  lemma StartQueues(s: State, t: nat, s': State)
    requires Inv(s) && t < |s.pcs| && Start(s, t, s') && Thr(t) !in s.gq
    requires forall c :: 0 <= c < |s.lq| ==> Thr(t) !in s.lq[c]
    ensures QueueOk(s', Root) && forall c :: 0 <= c < |s.lq| ==> QueueOk(s', Cohort(c)) && CohortOk(s', c)
  {
    StartKeeps(s, t, s');
    hide ThreadOk, QueueOk, CohortOk, HasRoot, PcOf, Get, Start;
    RootRefs(s);
    forall i | 0 <= i < |s.gq| ensures StartAside(s, s', s.gq[i]) {
      assert s.gq[i] in s.gq;
      StartElsewhere(s, t, s', s.gq[i]);
    }
    QueueKept(s, s', Root);
    forall c | 0 <= c < |s.lq| ensures QueueOk(s', Cohort(c)) && CohortOk(s', c) {
      CohortQueue(s, c);
      StartCohort(s, t, s', c);
    }
  }

  lemma StartCohort(s: State, t: nat, s': State, c: nat)
    requires Shape(s) && t < |s.pcs| && Start(s, t, s') && c < |s.lq| && QueueOk(s, Cohort(c)) && CohortOk(s, c)
    requires forall c' :: 0 <= c' < |s.lq| ==> Thr(t) !in s.lq[c']
    ensures QueueOk(s', Cohort(c)) && CohortOk(s', c)
  {
    StartKeeps(s, t, s');
    hide QueueOk, CohortOk, PcOf, Get, Start;
    CohortRefs(s, c);
    forall i | 0 <= i < |s.lq[c]| ensures StartAside(s, s', s.lq[c][i]) {
      assert s.lq[c][i] in s.lq[c];
      StartElsewhere(s, t, s', s.lq[c][i]);
    }
    QueueKept(s, s', Cohort(c));
    StartElsewhere(s, t, s', Coh(c));
    if s.lq[c] != [] { assert StartAside(s, s', s.lq[c][0]) && s.lq[c][0].Thr?; StartHead(s, s', s.lq[c][0]); }
    CohortKept(s, s', c);
  }

  lemma StartKeeps(s: State, t: nat, s': State)
    requires Shape(s) && t < |s.pcs| && Start(s, t, s')
    ensures SameSize(s, s') && s'.gq == s.gq && s'.lq == s.lq && s'.rootTail == s.rootTail && s'.tails == s.tails
  {
  }

  /** A start is not seen at this node. */
  ghost predicate StartAside(s: State, s': State, r: Ref) {
    PcOf(s', r) == PcOf(s, r) && (IsRef(s, r) ==> IsRef(s', r) && Get(s', r) == Get(s, r))
  }

  lemma StartHead(s: State, s': State, r: Ref)
    requires StartAside(s, s', r) && r.Thr? && IsRef(s, r)
    ensures r.t < |s.thr| && r.t < |s'.thr| && s'.thr[r.t] == s.thr[r.t]
  {
  }

  lemma StartElsewhere(s: State, t: nat, s': State, r: Ref)
    requires Shape(s) && t < |s.pcs| && Start(s, t, s') && r != Thr(t)
    requires forall c :: 0 <= c < |s.lq| ==> Thr(t) !in s.lq[c]
    ensures StartAside(s, s', r)
  {
    NotDriver(s, t, r);
  }

  lemma NotDriver(s: State, t: nat, r: Ref)
    requires Shape(s) && r != Thr(t) && forall c :: 0 <= c < |s.lq| ==> Thr(t) !in s.lq[c]
    ensures Driver(s, r) != Some(t)
  {
    if r.Coh? && r.c < |s.lq| && s.lq[r.c] != [] { assert s.lq[r.c][0] in s.lq[r.c]; }
  }

  /** A node is in one queue only. */
  lemma OneQueue(s: State, k: Lock, k': Lock, i: nat, j: nat)
    requires Inv(s) && IsLock(s, k) && IsLock(s, k') && k != k' && i < |Queue(s, k)| && j < |Queue(s, k')|
    ensures Queue(s, k)[i] != Queue(s, k')[j]
  {
    hide QueueOk, CohortOk, DataOk;
    var r := Queue(s, k)[i];
    if r == Queue(s, k')[j] {
      if k.Cohort? { CohortQueue(s, k.c); CohortRefs(s, k.c); assert r in s.lq[k.c]; } else { RootRefs(s); assert r in s.gq; }
      if k'.Cohort? { CohortQueue(s, k'.c); CohortRefs(s, k'.c); assert r in s.lq[k'.c]; } else { RootRefs(s); assert r in s.gq; }
      Mine(s, r.t);
    }
  }

  /** Where a node that is about to be linked stands. */
  lemma PrevOf(s: State, t: nat) returns (i: nat)
    requires Inv(s) && t < |s.pcs| && s.pcs[t].Link?
    ensures var k, r, prev := s.pcs[t].k, s.pcs[t].r, s.pcs[t].prev;
      && IsLock(s, k) && 1 <= i < |Queue(s, k)| && Queue(s, k)[i] == r && Queue(s, k)[i - 1] == prev && IsRef(s, prev) && IsRef(s, r)
      && Get(s, prev).next == None && Get(s, r).status == Ungranted(k) && prev != r && OwnRef(s, t, k, r)
  {
    hide CohortOk, QueueOk;
    var k, r := s.pcs[t].k, s.pcs[t].r;
    Mine(s, t);
    if k.Cohort? {
      CohortQueue(s, k.c);
      assert r in s.lq[k.c];
    } else if r.Coh? {
      CohortQueue(s, r.c);
      HeadInRoot(s, t, r.c);
    }
    i :| 0 <= i < |Queue(s, k)| && Queue(s, k)[i] == r;
    LinkedBehind(s, t, k, i);
  }

  lemma HeadInRoot(s: State, t: nat, c: nat)
    requires Shape(s) && c < |s.lq| && CohortOk(s, c) && HeadOf(s, t, c) && t < |s.pcs| && RootRef(s.pcs[t]) == Some(Coh(c))
    ensures Coh(c) in s.gq
  {
  }

  lemma LinkedBehind(s: State, t: nat, k: Lock, i: nat)
    requires Inv(s) && t < |s.pcs| && s.pcs[t].Link? && s.pcs[t].k == k && IsLock(s, k)
    requires 1 <= i < |Queue(s, k)| && Queue(s, k)[i] == s.pcs[t].r && OwnRef(s, t, k, s.pcs[t].r)
    ensures Queue(s, k)[i - 1] == s.pcs[t].prev && IsRef(s, s.pcs[t].prev) && Get(s, s.pcs[t].prev).next == None
    ensures Get(s, s.pcs[t].r).status == Ungranted(k) && s.pcs[t].prev != s.pcs[t].r
  {
    hide ThreadOk, CohortOk;
    if k.Cohort? { CohortQueue(s, k.c); }
    assert Linked(s, k, Queue(s, k)[i - 1], Queue(s, k)[i]);
  }

  lemma LinkInv(s: State, t: nat, s': State)
    requires Inv(s) && t < |s.pcs| && DoLink(s, t, s')
    ensures Inv(s')
  {
    hide CohortOk, QueueOk, ThreadOk;
    var i := PrevOf(s, t);
    Mine(s, t);
    forall u | 0 <= u < |s.pcs| ensures ThreadOk(s', u) {
      Mine(s, u);
      if u != t { LinkOthers(s, t, s', u, i); } else { LinkOwn(s, t, s', i); }
    }
    forall k | IsLock(s, k) ensures QueueOk(s', k) {
      if k == s.pcs[t].k { LinkQueue(s, t, s', i); } else { LinkOtherQueue(s, t, s', i, k); }
    }
    forall c | 0 <= c < |s.lq| ensures QueueOk(s', Cohort(c)) && CohortOk(s', c) {
      assert IsLock(s, Cohort(c));
      CohortQueue(s, c);
      LinkCohort(s, t, s', c);
    }
  }

  lemma LinkOwn(s: State, t: nat, s': State, i: nat)
    requires Inv(s) && t < |s.pcs| && DoLink(s, t, s') && ThreadOk(s, t)
    requires var k, r := s.pcs[t].k, s.pcs[t].r;
      IsLock(s, k) && 1 <= i < |Queue(s, k)| && Queue(s, k)[i] == r && IsRef(s, r) && Get(s, r).status == Ungranted(k) && s.pcs[t].prev != r
    ensures ThreadOk(s', t)
  {
    hide CohortOk, QueueOk;
  }

  lemma LinkOthers(s: State, t: nat, s': State, u: nat, i: nat)
    requires Inv(s) && t < |s.pcs| && DoLink(s, t, s') && u < |s.pcs| && u != t && ThreadOk(s, u)
    requires var k, prev := s.pcs[t].k, s.pcs[t].prev;
      IsLock(s, k) && 1 <= i < |Queue(s, k)| && Queue(s, k)[i - 1] == prev && Get(s, prev).next == None
    ensures ThreadOk(s', u)
  {
    var k, prev := s.pcs[t].k, s.pcs[t].prev;
    hide ThreadOk, QueueOk, CohortOk, Inv;
    if Prepares(s.pcs[u], prev) { PreparingIsOut(s, u, k, i - 1); }
    WritesUnseen(s, t, s', u);
    ThreadKept(s, s', u);
  }

  /** A node being prepared is in no queue. */
  lemma PreparingIsOut(s: State, u: nat, k: Lock, i: nat)
    requires Inv(s) && u < |s.pcs| && (s.pcs[u].Xchg? || s.pcs[u].Try?) && IsLock(s, k) && i < |Queue(s, k)|
    ensures Queue(s, k)[i] != s.pcs[u].r
  {
    hide QueueOk;
    Mine(s, u);
    var r := s.pcs[u].r;
    if Queue(s, k)[i] == r {
      if k.Cohort? { CohortQueue(s, k.c); CohortRefs(s, k.c); }
      else if r.Coh? { CohortQueue(s, r.c); }
    }
  }

  lemma LinkQueue(s: State, t: nat, s': State, i: nat)
    requires Inv(s) && t < |s.pcs| && DoLink(s, t, s')
    requires var k, r, prev := s.pcs[t].k, s.pcs[t].r, s.pcs[t].prev;
      IsLock(s, k) && 1 <= i < |Queue(s, k)| && Queue(s, k)[i] == r && Queue(s, k)[i - 1] == prev && OwnRef(s, t, k, r)
    ensures QueueOk(s', s.pcs[t].k)
  {
    hide ThreadOk, CohortOk;
    var k := s.pcs[t].k;
    var q := Queue(s, k);
    if k.Cohort? { CohortQueue(s, k.c); }
    assert Shape(s) && QueueOk(s, k);
    forall a, b | 0 <= a && b == a + 1 < |q| ensures Linked(s', k, q[a], q[b]) {
      hide Linked, Inv;
      LinkPair(s, t, s', i, b);
    }
    hide Inv;
    StillQueue(s, t, s', k, i);
  }

  /** The rest of the queue's invariant: the predecessor is not its last node. */
  lemma StillQueue(s: State, t: nat, s': State, k: Lock, i: nat)
    requires Shape(s) && t < |s.pcs| && IsLock(s, k) && QueueOk(s, k) && DoLink(s, t, s')
    requires 1 <= i < |Queue(s, k)| && Queue(s, k)[i - 1] == s.pcs[t].prev
    requires forall a, b :: 0 <= a && b == a + 1 < |Queue(s, k)| ==> Linked(s', k, Queue(s, k)[a], Queue(s, k)[b])
    ensures QueueOk(s', k)
  {
    hide Linked;
    var q := Queue(s, k);
    assert q[|q| - 1] != q[i - 1];
  }

  lemma LinkPair(s: State, t: nat, s': State, i: nat, b: nat)
    requires Shape(s) && t < |s.pcs| && DoLink(s, t, s') && IsLock(s, s.pcs[t].k) && QueueOk(s, s.pcs[t].k)
    requires var k, r, prev := s.pcs[t].k, s.pcs[t].r, s.pcs[t].prev;
      1 <= i < |Queue(s, k)| && Queue(s, k)[i] == r && Queue(s, k)[i - 1] == prev && OwnRef(s, t, k, r) && 1 <= b < |Queue(s, k)|
    ensures Linked(s', s.pcs[t].k, Queue(s, s.pcs[t].k)[b - 1], Queue(s, s.pcs[t].k)[b])
  {
    var k := s.pcs[t].k;
    var q := Queue(s, k);
    assert Linked(s, k, q[b - 1], q[b]);
    if b != i { DriversDiffer(s, t, k, i, b); assert q[b - 1] != q[i - 1]; }
    hide QueueOk;
  }

  /** The thread that drives one node of a queue drives no other of it. */
  lemma DriversDiffer(s: State, t: nat, k: Lock, i: nat, b: nat)
    requires Shape(s) && IsLock(s, k) && QueueOk(s, k) && i < |Queue(s, k)| && 1 <= b < |Queue(s, k)| && i != b && t < |s.pcs|
    requires Driver(s, Queue(s, k)[i]) == Some(t) && s.pcs[t].Link? && s.pcs[t].r == Queue(s, k)[i]
    ensures Driver(s, Queue(s, k)[b]) != Some(t)
  {
    assert Linked(s, k, Queue(s, k)[b - 1], Queue(s, k)[b]);
  }

  lemma LinkOtherQueue(s: State, t: nat, s': State, i: nat, k: Lock)
    requires Inv(s) && t < |s.pcs| && DoLink(s, t, s') && IsLock(s, k) && k != s.pcs[t].k
    requires IsLock(s, s.pcs[t].k) && 1 <= i < |Queue(s, s.pcs[t].k)| && Queue(s, s.pcs[t].k)[i - 1] == s.pcs[t].prev
    ensures QueueOk(s', k)
  {
    hide ThreadOk, CohortOk, QueueOk;
    if k.Cohort? { CohortQueue(s, k.c); CohortRefs(s, k.c); } else { RootRefs(s); }
    forall j | 0 <= j < |Queue(s, k)| ensures Queue(s, k)[j] != s.pcs[t].prev { OneQueue(s, s.pcs[t].k, k, i - 1, j); }
    forall j | 1 <= j < |Queue(s, k)| ensures Driver(s, Queue(s, k)[j]) != Some(t) { NotInOther(s, t, k, j); }
    QueueKept(s, s', k);
  }

  lemma NotInOther(s: State, t: nat, k: Lock, j: nat)
    requires Inv(s) && t < |s.pcs| && IsLock(s, k) && 1 <= j < |Queue(s, k)| && (s.pcs[t].Link? || s.pcs[t].Wait? ==> s.pcs[t].k != k)
    ensures Driver(s, Queue(s, k)[j]) != Some(t)
  {
    hide ThreadOk, CohortOk;
    if k.Cohort? { CohortQueue(s, k.c); }
    assert Linked(s, k, Queue(s, k)[j - 1], Queue(s, k)[j]);
  }

  lemma LinkCohort(s: State, t: nat, s': State, c: nat)
    requires Inv(s) && t < |s.pcs| && DoLink(s, t, s') && c < |s.lq| && CohortOk(s, c) && ThreadOk(s, t)
    ensures CohortOk(s', c)
  {
    hide QueueOk, CohortOk;
    CohortKept(s, s', c);
  }

  /** The head of a cohort prepares the cohort's node. */
  lemma HeadInv(s: State, t: nat, s': State)
    requires Inv(s) && t < |s.pcs| && DoHead(s, t, s')
    ensures Inv(s')
  {
    hide QueueOk, CohortOk;
    Mine(s, t);
    CohortQueue(s, s.pcs[t].c);
    NotInRootYet(s, t, s.pcs[t].c);
    hide ThreadOk;
    OwnNodeWritten(s, t, s');
  }

  lemma NotInRootYet(s: State, t: nat, c: nat)
    requires Shape(s) && t < |s.pcs| && s.pcs[t].Head? && s.pcs[t].c == c && ThreadOk(s, t) && c < |s.lq| && CohortOk(s, c)
    ensures HeadOf(s, t, c) && Coh(c) !in s.gq && Thr(t) !in s.gq && !HasRoot(s, c)
  {
  }

  /** Found the root empty: the section is entered. */
  lemma SetInv(s: State, t: nat, s': State)
    requires Inv(s) && t < |s.pcs| && DoSet(s, t, s')
    ensures Inv(s')
  {
    hide QueueOk, CohortOk;
    Mine(s, t);
    hide ThreadOk;
    OwnNodeWritten(s, t, s');
  }

  lemma OwnNodeWritten(s: State, t: nat, s': State)
    requires Inv(s) && t < |s.pcs| && ThreadOk(s, t)
    requires (DoHead(s, t, s') && HeadOf(s, t, s.pcs[t].c) && Coh(s.pcs[t].c) !in s.gq && Thr(t) !in s.gq) || DoSet(s, t, s')
    ensures Inv(s')
  {
    hide QueueOk, CohortOk, ThreadOk;
    NotBehind(s, t);
    OwnWriteSelf(s, t, s');
    forall u | 0 <= u < |s.pcs| && u != t ensures ThreadOk(s', u) {
      Mine(s, u);
      OwnWriteUnseen(s, t, s', u);
      WritesUnseen(s, t, s', u);
      ThreadKept(s, s', u);
    }
    RootRefs(s);
    OwnWriteRoot(s, t, s');
    forall c | 0 <= c < |s.lq| ensures QueueOk(s', Cohort(c)) && CohortOk(s', c) {
      CohortQueue(s, c);
      CohortRefs(s, c);
      OwnWriteCohort(s, t, s', c);
    }
  }

  lemma OwnWriteSelf(s: State, t: nat, s': State)
    requires Inv(s) && t < |s.pcs| && ThreadOk(s, t)
    requires (DoHead(s, t, s') && HeadOf(s, t, s.pcs[t].c)) || DoSet(s, t, s')
    ensures SameSize(s, s') && ThreadOk(s', t)
  {
    hide QueueOk, CohortOk;
  }

  lemma OwnWriteUnseen(s: State, t: nat, s': State, u: nat)
    requires SameSize(s, s') && t < |s.pcs| && u < |s.pcs| && u != t && ThreadOk(s, t)
    requires (DoHead(s, t, s') && HeadOf(s, t, s.pcs[t].c)) || DoSet(s, t, s')
    ensures s'.thr[u] == s.thr[u]
    ensures forall c :: 0 <= c < |s.lq| && HeadOf(s, u, c) ==> s'.served[c] == s.served[c] && s'.coh[c] == s.coh[c]
  {
  }

  lemma OwnWriteRoot(s: State, t: nat, s': State)
    requires SameSize(s, s') && t < |s.pcs| && ThreadOk(s, t) && QueueOk(s, Root)
    requires (DoHead(s, t, s') && HeadOf(s, t, s.pcs[t].c) && Coh(s.pcs[t].c) !in s.gq && Thr(t) !in s.gq) || DoSet(s, t, s')
    requires forall i :: 1 <= i < |s.gq| ==> Driver(s, s.gq[i]) != Some(t)
    ensures QueueOk(s', Root)
  {
    RootRefs(s);
    hide QueueOk;
    if s.pcs[t].Set? { assert s.gq != [] && s.gq[0] == s.pcs[t].r; }
    hide ThreadOk;
    if s.pcs[t].Head? { assert forall i :: 0 <= i < |s.gq| ==> s.gq[i] in s.gq; }
    forall i | 0 <= i < |s.gq| ensures IsRef(s', s.gq[i]) && SameRootNode(s, t, s', i) {}
    QueueKept(s, s', Root);
  }

  ghost predicate SameRootNode(s: State, t: nat, s': State, i: nat)
    requires i < |s.gq|
  {
    && IsRef(s, s.gq[i]) && IsRef(s', s.gq[i]) && Get(s', s.gq[i]).next == Get(s, s.gq[i]).next
    && (i > 0 ==> Get(s', s.gq[i]).status == Get(s, s.gq[i]).status && PcOf(s', s.gq[i]) == PcOf(s, s.gq[i]))
  }

  lemma OwnWriteCohort(s: State, t: nat, s': State, c: nat)
    requires SameSize(s, s') && t < |s.pcs| && ThreadOk(s, t) && c < |s.lq| && QueueOk(s, Cohort(c)) && CohortOk(s, c)
    requires (DoHead(s, t, s') && HeadOf(s, t, s.pcs[t].c) && Coh(s.pcs[t].c) !in s.gq) || DoSet(s, t, s')
    requires forall i :: 1 <= i < |s.lq[c]| ==> s.lq[c][i] != Thr(t)
    ensures QueueOk(s', Cohort(c)) && CohortOk(s', c)
  {
    CohortRefs(s, c);
    hide QueueOk;
    OwnWriteLine(s, t, s', c);
    if HeadOf(s, t, c) { assert s.lq[c][0] in s.lq[c]; }
    CohortKept(s, s', c);
  }

  lemma OwnWriteLine(s: State, t: nat, s': State, c: nat)
    requires SameSize(s, s') && t < |s.pcs| && ThreadOk(s, t) && c < |s.lq| && QueueOk(s, Cohort(c))
    requires DoHead(s, t, s') || DoSet(s, t, s')
    requires forall i :: 1 <= i < |s.lq[c]| ==> s.lq[c][i] != Thr(t)
    ensures QueueOk(s', Cohort(c)) && s'.lq == s.lq && s'.gq == s.gq
  {
    CohortRefs(s, c);
    hide QueueOk;
    QueueKept(s, s', Cohort(c));
  }

  // ------------------------------------------------------------ joining a queue

  lemma TryInv(s: State, t: nat, s': State)
    requires Inv(s) && t < |s.pcs| && DoTry(s, t, s')
    ensures Inv(s')
  {
    hide QueueOk, CohortOk;
    Mine(s, t);
    var k := s.pcs[t].k;
    if TailOf(s, k) == None {
      hide ThreadOk;
      JoinInv(s, t, s', true);
    } else {
      NotBehind(s, t);
      PlaceKept(s, t, s');
    }
  }

  lemma XchgInv(s: State, t: nat, s': State)
    requires Inv(s) && t < |s.pcs| && DoXchg(s, t, s')
    ensures Inv(s')
  {
    hide Inv;
    JoinInv(s, t, s', false);
  }

  ghost predicate Joins(s: State, t: nat, s': State, trying: bool)
    requires Shape(s) && t < |s.pcs|
  {
    && (s.pcs[t].Xchg? || (s.pcs[t].Try? && TailNone(s, s.pcs[t].k))) && IsLock(s, s.pcs[t].k)
    && var k, r := s.pcs[t].k, s.pcs[t].r;
       s' == SetQueue(Moved(s, t, if TailOf(s, k) == None then First(k, r, trying) else Link(k, r, TailOf(s, k).value)),
                      k, Some(r), Queue(s, k) + [r])
  }

  predicate TailNone(s: State, k: Lock) { IsLock(s, k) && TailOf(s, k) == None }

  lemma JoinInv(s: State, t: nat, s': State, trying: bool)
    requires Inv(s) && t < |s.pcs| && Joins(s, t, s', trying)
    ensures Inv(s')
  {
    hide QueueOk, CohortOk;
    Mine(s, t);
    hide ThreadOk;
    var k, r := s.pcs[t].k, s.pcs[t].r;
    if k.Cohort? { CohortQueue(s, k.c); }
    JoinSize(s, t, s', trying);
    forall i | 0 <= i < |Queue(s, k)| ensures Queue(s, k)[i] != r { PreparingIsOut(s, t, k, i); }
    JoinSelf(s, t, s', trying);
    forall u | 0 <= u < |s.pcs| && u != t ensures ThreadOk(s', u) {
      Mine(s, u);
      JoinUnseen(s, t, s', trying, u);
      ThreadKept(s, s', u);
    }
    NotBehind(s, t);
    forall j | IsLock(s, j) ensures QueueOk(s', j) {
      if j == k { JoinSameDrivers(s, t, s', trying); JoinQueue(s, t, s', trying); } else { JoinOtherQueue(s, t, s', trying, j); }
    }
    forall c | 0 <= c < |s.lq| ensures QueueOk(s', Cohort(c)) && CohortOk(s', c) {
      assert IsLock(s, Cohort(c));
      CohortQueue(s, c);
      JoinCohort(s, t, s', trying, c);
    }
  }

  lemma JoinSize(s: State, t: nat, s': State, trying: bool)
    requires Shape(s) && t < |s.pcs| && Joins(s, t, s', trying) && QueueOk(s, s.pcs[t].k)
    ensures SameSize(s, s') && (TailOf(s, s.pcs[t].k) == None <==> Queue(s, s.pcs[t].k) == [])
  {
  }

  lemma JoinSelf(s: State, t: nat, s': State, trying: bool)
    requires SameSize(s, s') && t < |s.pcs| && Joins(s, t, s', trying) && ThreadOk(s, t)
    requires TailOf(s, s.pcs[t].k) == None <==> Queue(s, s.pcs[t].k) == []
    requires forall i :: 0 <= i < |Queue(s, s.pcs[t].k)| ==> Queue(s, s.pcs[t].k)[i] != s.pcs[t].r
    ensures ThreadOk(s', t)
  {
    var k, r := s.pcs[t].k, s.pcs[t].r;
    assert forall x :: x in Queue(s', k) <==> x in Queue(s, k) || x == r;
    JoinData(s, t, s', trying);
    hide DataOk;
  }

  lemma JoinData(s: State, t: nat, s': State, trying: bool)
    requires SameSize(s, s') && t < |s.pcs| && Joins(s, t, s', trying) && DataOk(s, t)
    requires TailOf(s, s.pcs[t].k) == None <==> Queue(s, s.pcs[t].k) == []
    requires forall i :: 0 <= i < |Queue(s, s.pcs[t].k)| ==> Queue(s, s.pcs[t].k)[i] != s.pcs[t].r
    ensures DataOk(s', t)
  {
    var k, r := s.pcs[t].k, s.pcs[t].r;
    assert Queue(s', k)[|Queue(s, k)|] == r;
    if Queue(s, k) != [] { assert Queue(s', k)[0] == Queue(s, k)[0]; }
  }

  /** What an appended node changes for a thread that is already in line. */
  lemma JoinUnseen(s: State, t: nat, s': State, trying: bool, u: nat)
    requires SameSize(s, s') && t < |s.pcs| && u < |s.pcs| && u != t && Joins(s, t, s', trying) && ThreadOk(s, t) && ThreadOk(s, u)
    ensures SameView(s, s', u)
  {
    hide DataOk;
    var k, r := s.pcs[t].k, s.pcs[t].r;
    JoinerActs(s, t);
    assert forall x :: x in Queue(s', k) <==> x in Queue(s, k) || x == r;
    if RootRef(s.pcs[u]).Some? { RootNotEmpty(s, u); assert s'.gq[0] == s.gq[0]; }
    if CohortOf(s.pcs[u]).Some? {
      var c := CohortOf(s.pcs[u]).value;
      assert Thr(u) in s.lq[c];
      JoinHeads(s, t, s', trying, u, c);
    }
  }

  lemma JoinerActs(s: State, t: nat)
    requires Shape(s) && t < |s.pcs| && ThreadOk(s, t) && (s.pcs[t].Xchg? || s.pcs[t].Try?)
    ensures OwnRef(s, t, s.pcs[t].k, s.pcs[t].r) && Get(s, s.pcs[t].r).next == None
  {
  }

  lemma JoinHeads(s: State, t: nat, s': State, trying: bool, u: nat, c: nat)
    requires SameSize(s, s') && t < |s.pcs| && u < |s.pcs| && u != t && Joins(s, t, s', trying)
    requires c < |s.lq| && s.lq[c] != [] && OwnRef(s, t, s.pcs[t].k, s.pcs[t].r)
    ensures SameCohort(s, s', u, c)
  {
    assert s'.lq[c][0] == s.lq[c][0];
    if s.gq != [] { assert s'.gq[0] == s.gq[0]; }
  }

  lemma JoinQueue(s: State, t: nat, s': State, trying: bool)
    requires SameSize(s, s') && t < |s.pcs| && Joins(s, t, s', trying) && QueueOk(s, s.pcs[t].k) && ThreadOk(s, t)
    requires forall i :: 0 <= i < |Queue(s, s.pcs[t].k)| ==> Queue(s, s.pcs[t].k)[i] != s.pcs[t].r
    requires forall i :: 1 <= i < |Queue(s, s.pcs[t].k)| ==> PcOf(s', Queue(s, s.pcs[t].k)[i]) == PcOf(s, Queue(s, s.pcs[t].k)[i])
    ensures QueueOk(s', s.pcs[t].k)
  {
    JoinerActs(s, t);
    hide ThreadOk;
    var k, r := s.pcs[t].k, s.pcs[t].r;
    var q, n := Queue(s, k), |Queue(s, k)|;
    forall i, j | 0 <= i && j == i + 1 < n + 1 ensures Linked(s', k, (q + [r])[i], (q + [r])[j]) {
      if j < n { JoinPair(s, t, s', trying, j); } else { JoinLinked(s, t, s', trying); }
    }
    hide Linked;
    assert Queue(s', k) == q + [r] && TailOf(s', k) == Some(r);
  }

  lemma JoinPair(s: State, t: nat, s': State, trying: bool, j: nat)
    requires SameSize(s, s') && t < |s.pcs| && Joins(s, t, s', trying) && QueueOk(s, s.pcs[t].k) && 1 <= j < |Queue(s, s.pcs[t].k)|
    requires PcOf(s', Queue(s, s.pcs[t].k)[j]) == PcOf(s, Queue(s, s.pcs[t].k)[j])
    ensures Linked(s', s.pcs[t].k, Queue(s, s.pcs[t].k)[j - 1], Queue(s, s.pcs[t].k)[j])
  {
    assert Linked(s, s.pcs[t].k, Queue(s, s.pcs[t].k)[j - 1], Queue(s, s.pcs[t].k)[j]);
  }

  lemma JoinSameDrivers(s: State, t: nat, s': State, trying: bool)
    requires Inv(s) && t < |s.pcs| && Joins(s, t, s', trying) && SameSize(s, s')
    requires forall i :: 1 <= i < |s.gq| ==> Driver(s, s.gq[i]) != Some(t)
    requires forall c, i :: 0 <= c < |s.lq| && 1 <= i < |s.lq[c]| ==> s.lq[c][i] != Thr(t)
    ensures forall i :: 1 <= i < |Queue(s, s.pcs[t].k)| ==> PcOf(s', Queue(s, s.pcs[t].k)[i]) == PcOf(s, Queue(s, s.pcs[t].k)[i])
  {
    hide QueueOk, ThreadOk, CohortOk;
    var k := s.pcs[t].k;
    if k.Cohort? { CohortQueue(s, k.c); CohortRefs(s, k.c); }
  }

  lemma JoinLinked(s: State, t: nat, s': State, trying: bool)
    requires SameSize(s, s') && t < |s.pcs| && Joins(s, t, s', trying) && QueueOk(s, s.pcs[t].k) && ThreadOk(s, t)
    requires Queue(s, s.pcs[t].k) != []
    ensures Linked(s', s.pcs[t].k, Queue(s, s.pcs[t].k)[|Queue(s, s.pcs[t].k)| - 1], s.pcs[t].r)
  {
    var k, r := s.pcs[t].k, s.pcs[t].r;
    assert JoinerOk(s, t, k, r);
    assert PcOf(s', r) == s'.pcs[t];
  }

  lemma JoinOtherQueue(s: State, t: nat, s': State, trying: bool, j: Lock)
    requires Inv(s) && t < |s.pcs| && Joins(s, t, s', trying) && SameSize(s, s') && IsLock(s, j) && j != s.pcs[t].k
    requires forall i :: 1 <= i < |s.gq| ==> Driver(s, s.gq[i]) != Some(t)
    requires forall c, i :: 0 <= c < |s.lq| && 1 <= i < |s.lq[c]| ==> s.lq[c][i] != Thr(t)
    ensures QueueOk(s', j)
  {
    hide QueueOk, ThreadOk, CohortOk;
    if j.Cohort? { CohortQueue(s, j.c); CohortRefs(s, j.c); } else { RootRefs(s); }
    forall i | 1 <= i < |Queue(s, j)| ensures PcOf(s', Queue(s, j)[i]) == PcOf(s, Queue(s, j)[i]) {
      if j.Root? { JoinDrivers(s, t, s', trying, i); }
    }
    QueueKept(s, s', j);
  }

  lemma JoinDrivers(s: State, t: nat, s': State, trying: bool, i: nat)
    requires Inv(s) && t < |s.pcs| && Joins(s, t, s', trying) && SameSize(s, s') && i < |s.gq|
    requires Driver(s, s.gq[i]) != Some(t)
    ensures PcOf(s', s.gq[i]) == PcOf(s, s.gq[i])
  {
    hide QueueOk, ThreadOk;
    var x := s.gq[i];
    if x.Coh? {
      assert x in s.gq;
      RootRefs(s);
      CohortQueue(s, x.c);
      CohortInRoot(s, x.c);
    }
  }

  /** A cohort's node in the root queue has a head to act for it. */
  lemma CohortInRoot(s: State, c: nat)
    requires Shape(s) && c < |s.lq| && CohortOk(s, c) && Coh(c) in s.gq
    ensures s.lq[c] != [] && HasRoot(s, c)
  {
  }

  lemma JoinCohort(s: State, t: nat, s': State, trying: bool, c: nat)
    requires SameSize(s, s') && t < |s.pcs| && Joins(s, t, s', trying) && c < |s.lq| && CohortOk(s, c) && QueueOk(s, Cohort(c)) && ThreadOk(s, t)
    requires TailOf(s, s.pcs[t].k) == None <==> Queue(s, s.pcs[t].k) == []
    ensures CohortOk(s', c)
  {
    hide QueueOk;
    var k, r := s.pcs[t].k, s.pcs[t].r;
    CohortRefs(s, c);
    assert forall x :: x in Queue(s', k) <==> x in Queue(s, k) || x == r;
    if s.lq[c] != [] { assert s'.lq[c][0] == s.lq[c][0] && s.lq[c][0] in s.lq[c]; }
  }

  // ------------------------------------------------------------ leaving a queue

  /** A thread at the root stands there with its node. */
  lemma InRoot(s: State, u: nat)
    requires Inv(s) && u < |s.pcs| && RootRef(s.pcs[u]).Some?
    ensures RootRef(s.pcs[u]).value in s.gq && Driver(s, RootRef(s.pcs[u]).value) == Some(u)
  {
    hide QueueOk;
    Mine(s, u);
    var r := RootRef(s.pcs[u]).value;
    if r.Coh? { CohortQueue(s, r.c); }
  }

  lemma CasInv(s: State, t: nat, s': State)
    requires Inv(s) && t < |s.pcs| && DoCas(s, t, s')
    ensures Inv(s')
  {
    hide QueueOk, CohortOk;
    Mine(s, t);
    var k, r := s.pcs[t].k, s.pcs[t].r;
    if TailOf(s, k) == Some(r) {
      hide ThreadOk;
      EmptyInv(s, t, s');
    } else {
      NotBehind(s, t);
      PlaceKept(s, t, s');
    }
  }

  lemma OnlyOne(s: State, k: Lock)
    requires Shape(s) && IsLock(s, k) && QueueOk(s, k) && Queue(s, k) != [] && TailOf(s, k) == Some(Queue(s, k)[0])
    ensures Queue(s, k) == [Queue(s, k)[0]]
  {
  }

  lemma EmptyInv(s: State, t: nat, s': State)
    requires Inv(s) && t < |s.pcs| && DoCas(s, t, s') && ThreadOk(s, t) && TailOf(s, s.pcs[t].k) == Some(s.pcs[t].r)
    ensures Inv(s')
  {
    hide QueueOk, CohortOk;
    var k, r := s.pcs[t].k, s.pcs[t].r;
    assert ReleaserOk(s, t, k, r);
    hide ThreadOk;
    if k.Cohort? { CohortQueue(s, k.c); }
    OnlyOne(s, k);
    EmptySelf(s, t, s');
    forall u | 0 <= u < |s.pcs| && u != t ensures ThreadOk(s', u) {
      Mine(s, u);
      EmptyUnseen(s, t, s', u);
      ThreadKept(s, s', u);
    }
    NotBehind(s, t);
    forall j | IsLock(s, j) ensures QueueOk(s', j) {
      if j == k { NoQueue(s', k); } else { EmptyOtherQueue(s, t, s', j); }
    }
    forall c | 0 <= c < |s.lq| ensures QueueOk(s', Cohort(c)) && CohortOk(s', c) {
      assert IsLock(s, Cohort(c));
      CohortQueue(s, c);
      EmptyCohort(s, t, s', c);
    }
  }

  lemma NoQueue(s: State, k: Lock)
    requires Shape(s) && IsLock(s, k) && Queue(s, k) == [] && TailOf(s, k) == None
    ensures QueueOk(s, k)
  {
  }

  lemma EmptySelf(s: State, t: nat, s': State)
    requires Shape(s) && t < |s.pcs| && DoCas(s, t, s') && ThreadOk(s, t) && TailOf(s, s.pcs[t].k) == Some(s.pcs[t].r)
    requires Queue(s, s.pcs[t].k) == [s.pcs[t].r]
    ensures SameSize(s, s') && ThreadOk(s', t)
  {
  }

  lemma EmptyUnseen(s: State, t: nat, s': State, u: nat)
    requires Inv(s) && SameSize(s, s') && t < |s.pcs| && u < |s.pcs| && u != t && DoCas(s, t, s') && ThreadOk(s, u) && ThreadOk(s, t)
    requires TailOf(s, s.pcs[t].k) == Some(s.pcs[t].r) && Queue(s, s.pcs[t].k) == [s.pcs[t].r]
    ensures SameView(s, s', u)
  {
    hide QueueOk, CohortOk, DataOk, Inv;
    var k, r := s.pcs[t].k, s.pcs[t].r;
    ReleaserActs(s, t);
    if RootRef(s.pcs[u]).Some? { InRoot(s, u); }
    if CohortOf(s.pcs[u]).Some? { assert Thr(u) in s.lq[CohortOf(s.pcs[u]).value]; }
  }

  lemma ReleaserActs(s: State, t: nat)
    requires Shape(s) && t < |s.pcs| && ThreadOk(s, t) && (s.pcs[t].Cas? || s.pcs[t].Give?)
    ensures ReleaserOk(s, t, s.pcs[t].k, s.pcs[t].r) && Driver(s, s.pcs[t].r) == Some(t)
  {
  }

  lemma EmptyOtherQueue(s: State, t: nat, s': State, j: Lock)
    requires Inv(s) && t < |s.pcs| && DoCas(s, t, s') && SameSize(s, s') && IsLock(s, j) && j != s.pcs[t].k
    requires TailOf(s, s.pcs[t].k) == Some(s.pcs[t].r) && Queue(s, s.pcs[t].k) == [s.pcs[t].r] && ThreadOk(s, t)
    requires forall i :: 1 <= i < |s.gq| ==> Driver(s, s.gq[i]) != Some(t)
    requires forall c, i :: 0 <= c < |s.lq| && 1 <= i < |s.lq[c]| ==> s.lq[c][i] != Thr(t)
    ensures QueueOk(s', j)
  {
    hide QueueOk, ThreadOk, CohortOk;
    if j.Cohort? {
      CohortQueue(s, j.c);
      CohortRefs(s, j.c);
    } else {
      RootRefs(s);
      CohortQueue(s, s.pcs[t].k.c);
      CohortDown(s, t, s.pcs[t].k.c);
      assert forall i :: 0 <= i < |s.gq| ==> s.gq[i] in s.gq;
    }
    QueueKept(s, s', j);
  }

  /** While the cohort's lock is given up its node is not at the root. */
  lemma CohortDown(s: State, t: nat, c: nat)
    requires Shape(s) && t < |s.pcs| && ThreadOk(s, t) && (s.pcs[t].Cas? || s.pcs[t].Give?) && s.pcs[t].k == Cohort(c)
    requires c < |s.lq| && CohortOk(s, c)
    ensures Coh(c) !in s.gq && HeadOf(s, t, c) && !HasRoot(s, c)
  {
  }

  lemma EmptyCohort(s: State, t: nat, s': State, c: nat)
    requires SameSize(s, s') && t < |s.pcs| && DoCas(s, t, s') && c < |s.lq| && CohortOk(s, c) && QueueOk(s, Cohort(c)) && ThreadOk(s, t)
    requires TailOf(s, s.pcs[t].k) == Some(s.pcs[t].r) && Queue(s, s.pcs[t].k) == [s.pcs[t].r]
    ensures CohortOk(s', c)
  {
    CohortRefs(s, c);
    hide QueueOk, DataOk;
    ReleaserActs(s, t);
    if s.lq[c] != [] { assert s.lq[c][0] in s.lq[c]; }
    if s.pcs[t].k == Cohort(c) { CohortDown(s, t, c); }
  }

  // ------------------------------------------------------------ handing over

  /** The head leaves and writes the status of the node behind it. */
  ghost predicate Hands(s: State, t: nat, s': State, k: Lock, v: nat)
    requires Shape(s) && t < |s.pcs| == |s'.pcs|
  {
    && IsLock(s, k) && SecondWaits(s, k) && Driver(s, Queue(s, k)[0]) == Some(t)
    && (s.pcs[t] == Give(k, Queue(s, k)[0]) || (k.Cohort? && s.pcs[t] == Pass(k.c, Queue(s, k)[1], v)))
    && s'.pcs[t] == (if s.pcs[t].Give? then After(k, Queue(s, k)[0], t) else Idle)
    && (s.pcs[t].Give? ==> v == Granting(k))
    && s' == Put(SetQueue(Moved(s, t, s'.pcs[t]), k, TailOf(s, k), Queue(s, k)[1..]),
                 Queue(s, k)[1], Get(s, Queue(s, k)[1]).(status := v))
  }

  lemma GiveInv(s: State, t: nat, s': State)
    requires Inv(s) && t < |s.pcs| && DoGive(s, t, s')
    ensures Inv(s')
  {
    hide QueueOk, CohortOk;
    Mine(s, t);
    ReleaserActs(s, t);
    hide ThreadOk;
    NextIsSecond(s, s.pcs[t].k);
    HandsInv(s, t, s', s.pcs[t].k, Granting(s.pcs[t].k));
  }

  lemma PassInv(s: State, t: nat, s': State)
    requires Inv(s) && t < |s.pcs| && DoPass(s, t, s')
    ensures Inv(s')
  {
    hide QueueOk, CohortOk;
    Mine(s, t);
    var k := Cohort(s.pcs[t].c);
    assert HeadOf(s, t, k.c) && s.thr[t].next == Some(s.pcs[t].succ);
    NextIsSecond(s, k);
    CohortQueue(s, k.c);
    CohortRefs(s, k.c);
    hide ThreadOk;
    assert s' == Put(SetQueue(Moved(s, t, Idle), k, TailOf(s, k), Queue(s, k)[1..]), Queue(s, k)[1], Get(s, Queue(s, k)[1]).(status := s.pcs[t].v)) by {
      assert s.tails[k.c := s.tails[k.c]] == s.tails;
    }
    HandsInv(s, t, s', k, s.pcs[t].v);
  }

  lemma HandsInv(s: State, t: nat, s': State, k: Lock, v: nat)
    requires Inv(s) && t < |s.pcs| == |s'.pcs| && Hands(s, t, s', k, v)
    ensures Inv(s')
  {
    hide QueueOk, CohortOk, ThreadOk, Hands;
    HandsSize(s, t, s', k, v);
    var w := Receiver(s, k);
    Mine(s, t);
    Mine(s, w);
    if k.Cohort? { CohortQueue(s, k.c); CohortRefs(s, k.c); }
    RootRefs(s);
    forall u | 0 <= u < |s.pcs| ensures ThreadOk(s', u) {
      Mine(s, u);
      if u == t { HandsSelf(s, t, s', k, v); }
      else if u == w { HandsReceiver(s, t, s', k, v, w); }
      else { HandsUnseen(s, t, s', k, v, w, u); ThreadKept(s, s', u); }
    }
    NotBehind(s, t);
    forall j | IsLock(s, j) ensures QueueOk(s', j) {
      if j == k { HandsQueue(s, t, s', k, v); } else { HandsOtherQueue(s, t, s', k, v, j); }
    }
    forall c | 0 <= c < |s.lq| ensures QueueOk(s', Cohort(c)) && CohortOk(s', c) {
      assert IsLock(s, Cohort(c));
      CohortQueue(s, c);
      HandsCohort(s, t, s', k, v, w, c);
    }
  }

  lemma HandsSize(s: State, t: nat, s': State, k: Lock, v: nat)
    requires Shape(s) && t < |s.pcs| == |s'.pcs| && Hands(s, t, s', k, v)
    ensures SameSize(s, s') && IsLock(s, k) && SecondWaits(s, k) && (s.pcs[t].Give? || s.pcs[t].Pass?)
  {
  }

  lemma Receiver(s: State, k: Lock) returns (w: nat)
    requires Shape(s) && IsLock(s, k) && SecondWaits(s, k)
    ensures Driver(s, Queue(s, k)[1]) == Some(w) && w < |s.pcs| && s.pcs[w] == Wait(k, Queue(s, k)[1])
  {
    w := Driver(s, Queue(s, k)[1]).value;
  }

  lemma HandsSelf(s: State, t: nat, s': State, k: Lock, v: nat)
    requires SameSize(s, s') && t < |s.pcs| && Hands(s, t, s', k, v) && ThreadOk(s, t)
    requires k.Root? || Distinct(s.lq[k.c])
    requires Distinct(s.gq)
    ensures ThreadOk(s', t)
  {
    FrontMember(Queue(s, k), Thr(t));
    HandsData(s, t, s', k, v);
    hide DataOk;
  }

  lemma HandsData(s: State, t: nat, s': State, k: Lock, v: nat)
    requires SameSize(s, s') && t < |s.pcs| && Hands(s, t, s', k, v) && ThreadOk(s, t)
    ensures DataOk(s', t)
  {
  }


  lemma FrontMember(q: seq<Ref>, r: Ref)
    requires q != []
    ensures r in q <==> r == q[0] || r in q[1..]
    ensures Distinct(q) ==> q[0] !in q[1..]
  {
    assert q == [q[0]] + q[1..];
  }

  lemma HandsReceiver(s: State, t: nat, s': State, k: Lock, v: nat, w: nat)
    requires SameSize(s, s') && t < |s.pcs| && Hands(s, t, s', k, v) && ThreadOk(s, t) && w < |s.pcs| && ThreadOk(s, w)
    requires Driver(s, Queue(s, k)[1]) == Some(w) && w < |s.pcs| && w != t && s.pcs[w] == Wait(k, Queue(s, k)[1])
    ensures ThreadOk(s', w)
  {
    FrontMember(Queue(s, k), Thr(w));
    assert OwnRef(s, w, k, Queue(s, k)[1]);
    assert OwnRef(s', w, k, Queue(s, k)[1]);
  }

  lemma HandsUnseen(s: State, t: nat, s': State, k: Lock, v: nat, w: nat, u: nat)
    requires Inv(s) && SameSize(s, s') && t < |s.pcs| && u < |s.pcs| && u != t && u != w && Hands(s, t, s', k, v) && ThreadOk(s, u)
    requires Driver(s, Queue(s, k)[1]) == Some(w)
    ensures SameView(s, s', u)
  {
    hide QueueOk, CohortOk, DataOk, Inv, Linked;
    FrontMember(Queue(s, k), Thr(u));
    HandsFronts(s, t, s', k, v, w, u);
    if RootRef(s.pcs[u]).Some? { InRoot(s, u); HandsHere(s, t, s', k, v, w, u); }
    if CohortOf(s.pcs[u]).Some? {
      var c := CohortOf(s.pcs[u]).value;
      assert Thr(u) in s.lq[c];
      HandsHeads(s, t, s', k, v, w, u, c);
    }
    hide Hands, ThreadOk, AtRoot, SameCohort;
  }

  /** Nor does it become, or stop being, the head of the root queue. */
  lemma HandsHere(s: State, t: nat, s': State, k: Lock, v: nat, w: nat, u: nat)
    requires SameSize(s, s') && t < |s.pcs| && u < |s.pcs| && u != t && u != w && Hands(s, t, s', k, v)
    requires Driver(s, Queue(s, k)[1]) == Some(w) && RootRef(s.pcs[u]).Some?
    requires RootRef(s.pcs[u]).value in s.gq && Driver(s, RootRef(s.pcs[u]).value) == Some(u)
    ensures s'.gq != [] && (AtRoot(s', RootRef(s.pcs[u]).value) <==> AtRoot(s, RootRef(s.pcs[u]).value))
  {
    HandsFronts(s, t, s', k, v, w, u);
  }

  /** Neither node at the front of the queue is acted for by a third thread. */
  lemma HandsFronts(s: State, t: nat, s': State, k: Lock, v: nat, w: nat, u: nat)
    requires SameSize(s, s') && t < |s.pcs| && u < |s.pcs| && u != t && u != w && Hands(s, t, s', k, v)
    requires Driver(s, Queue(s, k)[1]) == Some(w)
    ensures Queue(s, k)[0] != Thr(u) && Queue(s, k)[1] != Thr(u) && s'.thr[u] == s.thr[u] && s'.pcs[u] == s.pcs[u]
    ensures k.Root? ==> s'.lq == s.lq && s'.gq == s.gq[1..]
    ensures k.Cohort? ==> s'.gq == s.gq && s'.lq == s.lq[k.c := s.lq[k.c][1..]]
  {
  }

  lemma HandsHeads(s: State, t: nat, s': State, k: Lock, v: nat, w: nat, u: nat, c: nat)
    requires SameSize(s, s') && t < |s.pcs| && u < |s.pcs| && u != t && u != w && Hands(s, t, s', k, v)
    requires Driver(s, Queue(s, k)[1]) == Some(w) && c < |s.lq| && s.lq[c] != []
    ensures SameCohort(s, s', u, c)
  {
  }

  lemma HandsQueue(s: State, t: nat, s': State, k: Lock, v: nat)
    requires Inv(s) && SameSize(s, s') && t < |s.pcs| && Hands(s, t, s', k, v) && QueueOk(s, k)
    requires forall i :: 1 <= i < |s.gq| ==> Driver(s, s.gq[i]) != Some(t)
    requires forall c, i :: 0 <= c < |s.lq| && 1 <= i < |s.lq[c]| ==> s.lq[c][i] != Thr(t)
    ensures QueueOk(s', k)
  {
    hide ThreadOk, CohortOk, Linked;
    assert Shape(s);
    hide Inv;
    var q := Queue(s, k);
    var q' := q[1..];
    HandsShape(s, t, s', k, v);
    forall i, j | 0 <= i && j == i + 1 < |q'| ensures Linked(s', k, q'[i], q'[j]) {
      assert Linked(s, k, q[i + 1], q[j + 1]);
      HandsDriver(s, t, k, i + 2);
      hide QueueOk, Hands;
      HandsLinked(s, t, s', k, v, i + 1);
    }
    hide Hands;
    RestQueue(s, s', k);
  }

  /** A queue without its head. */
  lemma RestQueue(s: State, s': State, k: Lock)
    requires SameSize(s, s') && IsLock(s, k) && QueueOk(s, k) && |Queue(s, k)| > 1
    requires Queue(s', k) == Queue(s, k)[1..] && TailOf(s', k) == TailOf(s, k)
    requires forall x :: IsRef(s, x) ==> IsRef(s', x) && Get(s', x).next == Get(s, x).next
    requires forall i, j :: 0 <= i && j == i + 1 < |Queue(s', k)| ==> Linked(s', k, Queue(s', k)[i], Queue(s', k)[j])
    ensures QueueOk(s', k)
  {
    hide Linked;
    var q, q' := Queue(s, k), Queue(s', k);
    assert forall i :: 0 <= i < |q'| ==> q'[i] == q[i + 1];
    hide Queue, Get;
  }

  lemma HandsShape(s: State, t: nat, s': State, k: Lock, v: nat)
    requires SameSize(s, s') && t < |s.pcs| && Hands(s, t, s', k, v)
    ensures Queue(s', k) == Queue(s, k)[1..] && TailOf(s', k) == TailOf(s, k) && |Queue(s, k)| > 1
    ensures forall x :: IsRef(s, x) ==> IsRef(s', x) && Get(s', x).next == Get(s, x).next
  {
  }

  lemma HandsDriver(s: State, t: nat, k: Lock, i: nat)
    requires Shape(s) && IsLock(s, k) && 1 <= i < |Queue(s, k)| && (k.Cohort? ==> Queue(s, k)[i].Thr?)
    requires forall i :: 1 <= i < |s.gq| ==> Driver(s, s.gq[i]) != Some(t)
    requires forall c, i :: 0 <= c < |s.lq| && 1 <= i < |s.lq[c]| ==> s.lq[c][i] != Thr(t)
    ensures Driver(s, Queue(s, k)[i]) != Some(t)
  {
  }

  lemma HandsLinked(s: State, t: nat, s': State, k: Lock, v: nat, i: nat)
    requires SameSize(s, s') && t < |s.pcs| && Hands(s, t, s', k, v) && QueueOk(s, k) && 1 <= i && i + 1 < |Queue(s, k)|
    requires Linked(s, k, Queue(s, k)[i], Queue(s, k)[i + 1])
    requires Driver(s, Queue(s, k)[i + 1]) != Some(t)
    ensures Linked(s', k, Queue(s, k)[i], Queue(s, k)[i + 1])
  {
    var q := Queue(s, k);
    assert q[i + 1] != q[1];
  }

  lemma HandsOtherQueue(s: State, t: nat, s': State, k: Lock, v: nat, j: Lock)
    requires Inv(s) && SameSize(s, s') && t < |s.pcs| && Hands(s, t, s', k, v) && IsLock(s, j) && j != k && ThreadOk(s, t)
    requires forall i :: 1 <= i < |s.gq| ==> Driver(s, s.gq[i]) != Some(t)
    requires forall c, i :: 0 <= c < |s.lq| && 1 <= i < |s.lq[c]| ==> s.lq[c][i] != Thr(t)
    ensures QueueOk(s', j)
  {
    hide QueueOk, ThreadOk, CohortOk;
    if j.Cohort? { CohortQueue(s, j.c); CohortRefs(s, j.c); } else { RootRefs(s); }
    forall i | 0 <= i < |Queue(s, j)| ensures Queue(s, j)[i] != Queue(s, k)[1] { OneQueue(s, k, j, 1, i); }
    if j.Root? { forall i | 1 <= i < |s.gq| ensures s.gq[i] != Coh(k.c) { HandsRoot(s, t, s', k, v, i); } }
    QueueKept(s, s', j);
  }

  /** The cohort whose head changes is first at the root, or not there. */
  lemma HandsRoot(s: State, t: nat, s': State, k: Lock, v: nat, i: nat)
    requires Inv(s) && SameSize(s, s') && t < |s.pcs| && Hands(s, t, s', k, v) && k.Cohort? && ThreadOk(s, t) && 1 <= i < |s.gq|
    ensures s.gq[i] != Coh(k.c)
  {
    hide QueueOk;
    RootRefs(s);
    CohortQueue(s, k.c);
    if s.pcs[t].Give? { CohortDown(s, t, k.c); assert s.gq[i] in s.gq; }
  }

  lemma HandsCohort(s: State, t: nat, s': State, k: Lock, v: nat, w: nat, c: nat)
    requires Inv(s) && SameSize(s, s') && t < |s.pcs| && Hands(s, t, s', k, v) && c < |s.lq| && CohortOk(s, c) && QueueOk(s, Cohort(c)) && ThreadOk(s, t)
    requires Driver(s, Queue(s, k)[1]) == Some(w) && w < |s.pcs| && w != t && s.pcs[w] == Wait(k, Queue(s, k)[1])
    ensures CohortOk(s', c)
  {
    CohortRefs(s, c);
    RootRefs(s);
    FrontMember(Queue(s, k), Coh(c));
    HandsShape(s, t, s', k, v);
    assert k.Cohort? ==> s'.gq == s.gq;
    hide QueueOk, CohortOk, ThreadOk, HasRoot;
    if k == Cohort(c) {
      if s.pcs[t].Give? { CohortDown(s, t, c); HandsDown(s, t, s', k, v, w); } else { HandsUp(s, t, s', k, v, w); }
    } else if k.Cohort? || s.gq[0] != Coh(c) {
      HandsElsewhere(s, t, s', k, v, w, c);
    } else {
      RootDown(s, t, s', k, v, c);
    }
  }

  /** A cohort's node leaves the root, and its head goes on to give up the cohort. */
  lemma RootDown(s: State, t: nat, s': State, k: Lock, v: nat, c: nat)
    requires SameSize(s, s') && t < |s.pcs| && Hands(s, t, s', k, v) && c < |s.lq|
    requires k.Root? && s.gq[0] == Coh(c) && Coh(c) !in s'.gq
    ensures CohortOk(s', c)
  {
    assert s'.pcs[t] == Rel(Cohort(c), Thr(t));
  }

  lemma HandsDown(s: State, t: nat, s': State, k: Lock, v: nat, w: nat)
    requires SameSize(s, s') && t < |s.pcs| && Hands(s, t, s', k, v) && k.Cohort? && s.pcs[t].Give?
    requires Driver(s, Queue(s, k)[1]) == Some(w) && w < |s.pcs| && w != t && s.pcs[w] == Wait(k, Queue(s, k)[1])
    requires Coh(k.c) !in s.gq && Queue(s, k)[1].Thr?
    ensures CohortOk(s', k.c)
  {
    assert s'.lq[k.c][0] == Queue(s, k)[1];
  }

  lemma HandsUp(s: State, t: nat, s': State, k: Lock, v: nat, w: nat)
    requires SameSize(s, s') && t < |s.pcs| && Hands(s, t, s', k, v) && k.Cohort? && s.pcs[t].Pass? && ThreadOk(s, t)
    requires Driver(s, Queue(s, k)[1]) == Some(w) && w < |s.pcs| && w != t && s.pcs[w] == Wait(k, Queue(s, k)[1])
    requires Queue(s, k)[1].Thr?
    ensures CohortOk(s', k.c)
  {
    assert s'.lq[k.c][0] == Queue(s, k)[1];
    assert s.gq[0] == Coh(k.c);
  }

  lemma HandsElsewhere(s: State, t: nat, s': State, k: Lock, v: nat, w: nat, c: nat)
    requires Inv(s) && SameSize(s, s') && t < |s.pcs| && Hands(s, t, s', k, v) && c < |s.lq| && CohortOk(s, c) && QueueOk(s, Cohort(c)) && ThreadOk(s, t)
    requires k != Cohort(c) && (k.Cohort? || s.gq[0] != Coh(c))
    requires Coh(c) in s'.gq <==> Coh(c) in s.gq
    ensures CohortOk(s', c)
  {
    hide QueueOk, DataOk, CohortOk;
    if s.lq[c] != [] {
      assert s.lq[c][0] in s.lq[c];
      CohortQueue(s, c);
      CohortRefs(s, c);
      HandsOtherHead(s, t, s', k, v, c);
    }
    CohortKept(s, s', c);
  }

  lemma HandsOtherHead(s: State, t: nat, s': State, k: Lock, v: nat, c: nat)
    requires Inv(s) && SameSize(s, s') && t < |s.pcs| && Hands(s, t, s', k, v) && c < |s.lq| && ThreadOk(s, t)
    requires k != Cohort(c) && (k.Cohort? || s.gq[0] != Coh(c)) && s.lq[c] != [] && s.lq[c][0].Thr? && IsRef(s, s.lq[c][0])
    ensures HasRoot(s', c) <==> HasRoot(s, c)
  {
    hide QueueOk, CohortOk, DataOk;
    var h := s.lq[c][0];
    assert h in s.lq[c];
    OneQueue(s, k, Cohort(c), 1, 0);
    assert Thr(t) in s.lq[c] <==> CohortOf(s.pcs[t]) == Some(c);
  }

  // --------------------------------------------------------------- theorems

  lemma StepInv(s: State, t: nat, s': State)
    requires Inv(s) && Step(s, t, s')
    ensures Inv(s')
  {
    hide QueueOk, CohortOk, ThreadOk, Start, DoXchg, DoTry, DoLink, DoWait, DoHead, DoSet, DoUnlock, DoPass, DoRel, DoCas, DoSpin, DoGive;
    match s.pcs[t]
    case Idle => StartInv(s, t, s');
    case Xchg(_, _) => XchgInv(s, t, s');
    case Try(_, _) => TryInv(s, t, s');
    case Link(_, _, _) => LinkInv(s, t, s');
    case Wait(_, _) => GrantedInv(s, t, s');
    case Head(_, _) => HeadInv(s, t, s');
    case Set(_) => SetInv(s, t, s');
    case Crit(_) => UnlockInv(s, t, s');
    case Pass(_, _, _) => PassInv(s, t, s');
    case Rel(_, _) => RelInv(s, t, s');
    case Cas(_, _) => CasInv(s, t, s');
    case Spin(_, _) => SpinInv(s, t, s');
    case Give(_, _) => GiveInv(s, t, s');
  }

  lemma InitInv(s: State)
    requires Init(s)
    ensures Inv(s)
  {
    forall t | 0 <= t < |s.pcs| ensures ThreadOk(s, t) {}
    forall c | 0 <= c < |s.lq| ensures QueueOk(s, Cohort(c)) && CohortOk(s, c) {}
  }

  lemma {:induction false} RunInv(tr: seq<State>, sched: seq<nat>, i: nat)
    requires Run(tr, sched) && i < |tr|
    ensures Inv(tr[i])
  {
    hide Inv, Init, Step;
    if i == 0 { InitInv(tr[0]); } else { RunInv(tr, sched, i - 1); StepInv(tr[i - 1], sched[i - 1], tr[i]); }
  }

  /** One thread at a time is inside, whether it came through a cohort or
      straight to the root. */
  lemma MutualExclusion(tr: seq<State>, sched: seq<nat>, i: nat, t: nat, u: nat)
    requires Run(tr, sched) && i < |tr| && t < |tr[i].pcs| && u < |tr[i].pcs|
    requires (tr[i].pcs[t].Crit? || tr[i].pcs[t].Pass?) && (tr[i].pcs[u].Crit? || tr[i].pcs[u].Pass?)
    ensures t == u
  {
    hide Run;
    RunInv(tr, sched, i);
    Mine(tr[i], t);
    Mine(tr[i], u);
    InRoot(tr[i], t);
    InRoot(tr[i], u);
  }

  /** A cohort's node is queued at the root at most once, and only while the
      cohort's present head stands there with it.  In particular it is out of
      the queue when a waiter is told to acquire the root itself. */
  lemma NodeReuse(tr: seq<State>, sched: seq<nat>, i: nat, c: nat)
    requires Run(tr, sched) && i < |tr| && c < |tr[i].lq|
    ensures Distinct(tr[i].gq) && (Coh(c) in tr[i].gq <==> HasRoot(tr[i], c))
    ensures tr[i].lq[c] == [] ==> Coh(c) !in tr[i].gq
    ensures forall t :: 0 <= t < |tr[i].pcs| && tr[i].pcs[t].Wait? && tr[i].pcs[t].k == Cohort(c) && tr[i].thr[t].status == ACQUIRE_PARENT ==>
              Coh(c) !in tr[i].gq
  {
    hide Run;
    var s := tr[i];
    RunInv(tr, sched, i);
    CohortQueue(s, c);
    RootRefs(s);
    if s.lq[c] == [] { if Coh(c) in s.gq { CohortInRoot(s, c); } }
    forall t | 0 <= t < |s.pcs| && s.pcs[t].Wait? && s.pcs[t].k == Cohort(c) && s.thr[t].status == ACQUIRE_PARENT ensures Coh(c) !in s.gq {
      Mine(s, t);
    }
  }

  /** One acquisition of the root serves at most RELEASE_THRESHOLD sections of
      a cohort, and the status of the node in front counts them. */
  lemma CohortBound(tr: seq<State>, sched: seq<nat>, i: nat, t: nat)
    requires Run(tr, sched) && i < |tr| && t < |tr[i].pcs| && tr[i].pcs[t].Crit? && tr[i].pcs[t].r.Coh?
    ensures var c := tr[i].pcs[t].r.c; c < |tr[i].served| && tr[i].thr[t].status == tr[i].served[c] && 1 <= tr[i].served[c] <= RELEASE_THRESHOLD
  {
    RunInv(tr, sched, i);
    Mine(tr[i], t);
  }

  /** An unlock keeps the root lock in its cohort exactly while the next in line
      there is linked and the threshold is not reached, and passes it to that one. */
  lemma PassesExactly(tr: seq<State>, sched: seq<nat>, i: nat, t: nat)
    requires Run(tr, sched) && i < |sched| && sched[i] == t && t < |tr[i].pcs| && tr[i].pcs[t].Crit? && tr[i].pcs[t].r.Coh?
    ensures var s, c, pc' := tr[i], tr[i].pcs[t].r.c, tr[i + 1].pcs[t];
      && c < |s.lq| && s.lq[c] != [] && s.lq[c][0] == Thr(t) && c < |s.served|
      && (pc'.Pass? <==> s.served[c] < RELEASE_THRESHOLD && |s.lq[c]| > 1 && PcOf(s, s.lq[c][1]).Wait?)
      && (pc'.Pass? ==> pc'.c == c && pc'.succ == s.lq[c][1] && pc'.v == s.served[c] + 1)
  {
    RunInv(tr, sched, i);
    var s := tr[i];
    assert Step(s, t, tr[i + 1]);
    assert DoUnlock(s, t, tr[i + 1]);
    Mine(s, t);
    var c := s.pcs[t].r.c;
    CohortQueue(s, c);
    hide Run, Step, Inv, CohortOk, ThreadOk;
    if |s.lq[c]| > 1 { assert Linked(s, Cohort(c), s.lq[c][0], s.lq[c][1]); }
  }
}
