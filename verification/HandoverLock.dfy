/** One page lock of the cluster: a local lock per compute node, and over them a
    word in disaggregated memory.

    Local locks are ticket locks, or LiTL mutexes with a count of waiters.  The
    word is taken by compare-and-swap, or holds one bit per node that waits or
    owns it and is changed by fetch-and-add; then a release wakes one waiting
    peer by a remote write of its spin flag.  A thread that leaves while another
    waits on its node may hand the global lock over without touching the word.

    Fields marked auxiliary are read by no step. */
module HandoverLock {
  import opened Options

  const TWO_32: nat := 0x1_0000_0000
  const TWO_64: nat := 0x1_0000_0000_0000_0000
  const MAX_MACHINE: nat := 8

  /** nodeOf[t] is the node thread t runs on. */
  datatype Config = Config(tickets: bool, faa: bool, maxHandover: nat, nodeOf: seq<nat>)

  datatype Pc =
    | Idle
    | Queued(ticket: nat)          // announced itself on its node
    | Locked                       // holds the LiTL mutex, still counted as waiting
    | Entered                      // holds the local lock
    | Global                       // needs the global lock
    | Spin                         // its node's bit is set; waits for the flag
    | Clear                        // has seen the flag
    | Crit
    | Loaded(pending: bool)        // has looked whether another thread waits here
    | GRel                         // gives the global lock back
    | Wake(was: nat, peers: set<nat>)  // owes one of the peers a wake-up; peers auxiliary
    | RelLocal

  /** Who is responsible for the global lock. */
  datatype Token = Free | Held(node: nat) | Flagged(node: nat) | InFlight(node: nat) | Waker(thread: nat) | Releasing

  datatype Node = Node(word: nat,            // packed tickets, or the number of waiters
                       handOver: bool, handTime: nat,
                       flag: bool,
                       holder: Option<nat>,  // the mutex; auxiliary under tickets
                       owners: seq<nat>,     // auxiliary: who drew which ticket
                       queue: set<nat>,      // auxiliary: who is counted as waiting
                       served: nat)          // auxiliary: entries since the word was taken

  datatype State = State(word: nat, zeroInFlight: bool, wakes: multiset<nat>, nodes: seq<Node>, pcs: seq<Pc>,
                         bits: set<nat>, token: Token)  // bits and token auxiliary

  // -------------------------------------------------------- packed tickets

  function NextOf(w: nat): nat { w % TWO_32 }
  function CurrentOf(w: nat): nat { w / TWO_32 }
  function Pack(next: nat, current: nat): nat { current * TWO_32 + next }

  lemma PackUnpack(next: nat, current: nat)
    requires next < TWO_32
    ensures NextOf(Pack(next, current)) == next && CurrentOf(Pack(next, current)) == current
  {
  }

  lemma DrawTicket(next: nat, current: nat)
    requires next + 1 < TWO_32 && current < TWO_32
    ensures (Pack(next, current) + 1) % TWO_64 == Pack(next + 1, current)
  {
  }

  lemma ServeNext(next: nat, current: nat)
    requires next < TWO_32 && current + 1 < TWO_32
    ensures (Pack(next, current) + TWO_32) % TWO_64 == Pack(next, current + 1)
  {
  }

  // ----------------------------------------------------------- the bit mask

  function Pow2(n: nat): (r: nat)
    ensures r > 0
  {
    if n == 0 then 1 else 2 * Pow2(n - 1)
  }

  /** The number whose bits below k are those in b. */
  function Mask(b: set<nat>, k: nat): nat {
    if k == 0 then 0 else Mask(b, k - 1) + (if k - 1 in b then Pow2(k - 1) else 0)
  }

  lemma {:induction false} MaskBelow(b: set<nat>, k: nat)
    ensures Mask(b, k) < Pow2(k)
  {
    if k > 0 { MaskBelow(b, k - 1); }
  }

  lemma {:induction false} MaskAdd(b: set<nat>, k: nat, n: nat)
    requires n !in b
    ensures Mask(b + {n}, k) == Mask(b, k) + (if n < k then Pow2(n) else 0)
  {
    if k > 0 { MaskAdd(b, k - 1, n); }
  }

  lemma {:induction false} MaskEmpty(b: set<nat>, k: nat)
    ensures Mask(b, k) == 0 <==> forall n: nat :: n in b ==> n >= k
  {
    if k > 0 { MaskEmpty(b, k - 1); }
  }

  lemma {:induction false} PowGrows(i: nat, j: nat)
    requires i <= j
    ensures Pow2(i) <= Pow2(j)
  {
    if i < j { PowGrows(i, j - 1); }
  }

  /** A mask determines its bits: there are no carries to confuse them. */
  lemma {:induction false} MaskInjective(a: set<nat>, b: set<nat>, k: nat)
    requires Mask(a, k) == Mask(b, k)
    requires forall n: nat :: n in a || n in b ==> n < k
    ensures a == b
  {
    if k > 0 {
      var n := k - 1;
      MaskBelow(a, n);
      MaskBelow(b, n);
      MaskDrop(a, n);
      MaskDrop(b, n);
      MaskInjective(a - {n}, b - {n}, n);
      assert a == (if n in a then (a - {n}) + {n} else a - {n});
      assert b == (if n in b then (b - {n}) + {n} else b - {n});
    }
  }

  lemma {:induction false} MaskDrop(a: set<nat>, k: nat)
    ensures Mask(a - {k}, k) == Mask(a, k)
  {
    if k > 0 { MaskAgree(a - {k}, a, k); }
  }

  lemma {:induction false} MaskAgree(a: set<nat>, b: set<nat>, k: nat)
    requires forall n: nat :: n < k ==> (n in a <==> n in b)
    ensures Mask(a, k) == Mask(b, k)
  {
    if k > 0 { MaskAgree(a, b, k - 1); }
  }

  ghost predicate WordBits(word: nat, bits: set<nat>) {
    word == Mask(bits, 64) && forall n: nat :: n in bits ==> n < 64
  }

  lemma Pow64()
    ensures Pow2(64) == TWO_64
  {
    assert Pow2(8) == 256;
    assert Pow2(16) == 65536 by { PowSum(8, 8); }
    assert Pow2(32) == TWO_32 by { PowSum(16, 16); }
    PowSum(32, 32);
  }

  lemma {:induction false} PowSum(i: nat, j: nat)
    ensures Pow2(i + j) == Pow2(i) * Pow2(j)
  {
    if j > 0 { PowSum(i, j - 1); }
  }

  /** Adding the bit of a node that has none neither carries nor overflows. */
  lemma FetchAdd(word: nat, bits: set<nat>, n: nat)
    requires WordBits(word, bits) && n !in bits && n < 64
    ensures (word + Pow2(n)) % TWO_64 == word + Pow2(n) && WordBits(word + Pow2(n), bits + {n})
  {
    hide Mask, Pow2;
    MaskAdd(bits, 64, n);
    MaskBelow(bits + {n}, 64);
    Pow64();
  }

  /** Subtracting 2^n modulo 2^64, as adding its negation does. */
  lemma FetchSub(word: nat, bits: set<nat>, n: nat)
    requires WordBits(word, bits) && n in bits
    ensures Pow2(n) <= TWO_64 && (word + (TWO_64 - Pow2(n))) % TWO_64 == word - Pow2(n) && WordBits(word - Pow2(n), bits - {n})
    ensures word == Pow2(n) <==> bits == {n}
  {
    hide Mask, Pow2;
    assert (bits - {n}) + {n} == bits;
    MaskAdd(bits - {n}, 64, n);
    MaskBelow(bits, 64);
    Pow64();
    PowGrows(n, 64);
    MaskEmpty(bits - {n}, 64);
  }

  lemma ZeroWord(word: nat, bits: set<nat>)
    requires WordBits(word, bits)
    ensures word == 0 <==> bits == {}
  {
    MaskEmpty(bits, 64);
  }

  lemma {:induction false} MaskBit(b: set<nat>, k: nat, n: nat)
    requires n < k
    ensures (Mask(b, k) / Pow2(n)) % 2 == 1 <==> n in b
  {
    hide Pow2;
    if n == k - 1 {
      MaskBelow(b, n);
      if n in b { assert Mask(b, k) == Pow2(n) * 1 + Mask(b, n); DivStep(Pow2(n), 1, Mask(b, n)); }
      else { DivStep(Pow2(n), 0, Mask(b, n)); }
    } else {
      MaskBit(b, k - 1, n);
      if k - 1 in b {
        PowSplit(n, k - 1);
        var q := Pow2(k - 1 - n - 1);
        assert Pow2(k - 1) == Pow2(n) * (2 * q);
        DivAdd(Mask(b, k - 1), Pow2(n), 2 * q);
      }
    }
  }

  lemma PowSplit(n: nat, k: nat)
    requires n < k
    ensures Pow2(k) == Pow2(n) * (2 * Pow2(k - n - 1))
  {
    PowSum(n, k - n);
  }

  lemma DivStep(d: nat, q: nat, r: nat)
    requires r < d
    ensures (d * q + r) / d == q
  {
    var x := d * q + r;
    Times(d, q, x / d, r, x % d);
  }

  lemma Times(d: nat, m: int, m': int, r: int, r': int)
    requires 0 <= r < d && 0 <= r' < d && d * m + r == d * m' + r'
    ensures m == m'
  {
    if m < m' { Larger(d, m, m'); }
    if m' < m { Larger(d, m', m); }
  }

  lemma Larger(d: nat, m: int, m': int)
    requires m < m'
    ensures d * m' >= d * m + d
  {
    var e := m' - m - 1;
    assert d * m' == d * (m + 1 + e) == d * m + d + d * e;
    assert d * e >= 0;
  }

  lemma DivAdd(a: nat, d: nat, q: nat)
    requires d > 0
    ensures (a + d * q) / d == a / d + q
  {
    var m, r := a / d, a % d;
    assert a + d * q == d * (m + q) + r;
    DivStep(d, m + q, r);
  }

  // ------------------------------------------------------------- the steps

  function Tag(c: Config, t: nat): nat
    requires t < |c.nodeOf|
  {
    t + c.nodeOf[t] * TWO_32 + 1
  }

  predicate BitOf(word: nat, n: nat) { (word / Pow2(n)) % 2 == 1 }

  ghost predicate Shape(c: Config, s: State) {
    && |s.pcs| == |c.nodeOf| < TWO_64 && |s.nodes| <= MAX_MACHINE
    && forall t :: 0 <= t < |c.nodeOf| ==> c.nodeOf[t] < |s.nodes|
  }

  /** The state after thread t, on node n, moves to pc and leaves node data d. */
  function Local(c: Config, s: State, t: nat, pc: Pc, d: Node): (r: State)
    requires Shape(c, s) && t < |s.pcs|
    ensures Shape(c, r)
  {
    s.(pcs := s.pcs[t := pc], nodes := s.nodes[c.nodeOf[t] := d])
  }

  /** acquire_local_lock.  No more than 2^32 - 1 tickets are ever drawn. */
  ghost predicate Announce(c: Config, s: State, t: nat, s': State)
    requires Shape(c, s) && t < |s.pcs|
  {
    var d := s.nodes[c.nodeOf[t]];
    && s.pcs[t].Idle?
    && if c.tickets then
         |d.owners| + 1 < TWO_32 &&
         s' == Local(c, s, t, Queued(NextOf(d.word)), d.(word := (d.word + 1) % TWO_64, owners := d.owners + [t]))
       else
         s' == Local(c, s, t, Queued(0), d.(word := (d.word + 1) % TWO_64, queue := d.queue + {t}))
  }

  ghost predicate Enter(c: Config, s: State, t: nat, s': State)
    requires Shape(c, s) && t < |s.pcs|
  {
    var d := s.nodes[c.nodeOf[t]];
    && s.pcs[t].Queued?
    && if c.tickets then
         s.pcs[t].ticket == CurrentOf(d.word) && s' == Local(c, s, t, Entered, d.(holder := Some(t)))
       else
         d.holder == None && s' == Local(c, s, t, Locked, d.(holder := Some(t)))
  }

  ghost predicate Uncount(c: Config, s: State, t: nat, s': State)
    requires Shape(c, s) && t < |s.pcs|
  {
    var d := s.nodes[c.nodeOf[t]];
    s.pcs[t].Locked? && s' == Local(c, s, t, Entered, d.(word := (d.word + (TWO_64 - 1)) % TWO_64, queue := d.queue - {t}))
  }

  ghost predicate CountHand(c: Config, s: State, t: nat, s': State)
    requires Shape(c, s) && t < |s.pcs|
  {
    var d := s.nodes[c.nodeOf[t]];
    && s.pcs[t].Entered?
    && s' == Local(c, s, t, if d.handOver then Crit else Global, d.(handTime := (d.handTime + 1) % 256, served := d.served + 1))
  }

  /** A failed compare-and-swap changes nothing and is tried again. */
  ghost predicate Acquire(c: Config, s: State, t: nat, s': State)
    requires Shape(c, s) && t < |s.pcs|
  {
    var n := c.nodeOf[t];
    && s.pcs[t].Global?
    && if c.faa then
         var s0 := s.(word := (s.word + Pow2(n)) % TWO_64, bits := s.bits + {n});
         if s.word == 0 then s' == Local(c, s0, t, Crit, s.nodes[n]).(token := Held(n))
         else s' == Local(c, s0, t, Spin, s.nodes[n])
       else
         s.word == 0 && s' == Local(c, s, t, Crit, s.nodes[n]).(word := Tag(c, t), token := Held(n))
  }

  ghost predicate SeeFlag(c: Config, s: State, t: nat, s': State)
    requires Shape(c, s) && t < |s.pcs|
  {
    var d := s.nodes[c.nodeOf[t]];
    s.pcs[t].Spin? && d.flag && s' == Local(c, s, t, Clear, d)
  }

  ghost predicate ClearFlag(c: Config, s: State, t: nat, s': State)
    requires Shape(c, s) && t < |s.pcs|
  {
    var n := c.nodeOf[t];
    s.pcs[t].Clear? && s' == Local(c, s, t, Crit, s.nodes[n].(flag := false)).(token := Held(n))
  }

  /** can_hand_over, first half: does another thread of this node wait? */
  ghost predicate LookBehind(c: Config, s: State, t: nat, s': State)
    requires Shape(c, s) && t < |s.pcs|
  {
    var d := s.nodes[c.nodeOf[t]];
    var pending := if c.tickets then !(NextOf(d.word) <= CurrentOf(d.word) + 1) else d.word > 0;
    s.pcs[t].Crit? && s' == Local(c, s, t, Loaded(pending), d)
  }

  /** can_hand_over, second half. */
  ghost predicate Decide(c: Config, s: State, t: nat, s': State)
    requires Shape(c, s) && t < |s.pcs|
  {
    var d := s.nodes[c.nodeOf[t]];
    && s.pcs[t].Loaded?
    && var give := s.pcs[t].pending && d.handTime < c.maxHandover;
       s' == if give then Local(c, s, t, RelLocal, d.(handOver := true))
             else Local(c, s, t, GRel, d.(handOver := false, handTime := 0, served := 0))
  }

  /** The write that clears the word may still be on its way when the program
      goes on; a synchronous write is one that lands next. */
  ghost predicate Release(c: Config, s: State, t: nat, s': State)
    requires Shape(c, s) && t < |s.pcs|
  {
    var n := c.nodeOf[t];
    && s.pcs[t].GRel?
    && if c.faa then
         Pow2(n) <= TWO_64 &&
         var s0 := s.(word := (s.word + (TWO_64 - Pow2(n))) % TWO_64, bits := s.bits - {n});
         if s.word == Pow2(n) then s' == Local(c, s0, t, RelLocal, s.nodes[n]).(token := Free)
         else s' == Local(c, s0, t, Wake(s.word, s.bits - {n}), s.nodes[n]).(token := Waker(t))
       else
         s' == Local(c, s, t, RelLocal, s.nodes[n]).(zeroInFlight := true, token := Releasing)
  }

  /** The chosen peer is any other node whose bit was set. */
  ghost predicate WakePeer(c: Config, s: State, t: nat, s': State)
    requires Shape(c, s) && t < |s.pcs|
  {
    && s.pcs[t].Wake?
    && exists p: nat :: p < 64 && p != c.nodeOf[t] && BitOf(s.pcs[t].was, p)
         && s' == Local(c, s, t, RelLocal, s.nodes[c.nodeOf[t]]).(wakes := s.wakes + multiset{p}, token := InFlight(p))
  }

  ghost predicate Leave(c: Config, s: State, t: nat, s': State)
    requires Shape(c, s) && t < |s.pcs|
  {
    var d := s.nodes[c.nodeOf[t]];
    && s.pcs[t].RelLocal?
    && s' == Local(c, s, t, Idle, d.(holder := None, word := if c.tickets then (d.word + TWO_32) % TWO_64 else d.word))
  }

  ghost predicate ThreadStep(c: Config, s: State, t: nat, s': State)
    requires Shape(c, s)
  {
    t < |s.pcs| &&
    match s.pcs[t]
    case Idle => Announce(c, s, t, s')
    case Queued(_) => Enter(c, s, t, s')
    case Locked => Uncount(c, s, t, s')
    case Entered => CountHand(c, s, t, s')
    case Global => Acquire(c, s, t, s')
    case Spin => SeeFlag(c, s, t, s')
    case Clear => ClearFlag(c, s, t, s')
    case Crit => LookBehind(c, s, t, s')
    case Loaded(_) => Decide(c, s, t, s')
    case GRel => Release(c, s, t, s')
    case Wake(_, _) => WakePeer(c, s, t, s')
    case RelLocal => Leave(c, s, t, s')
  }

  ghost predicate ZeroLands(s: State, s': State) {
    s.zeroInFlight && s' == s.(word := 0, zeroInFlight := false, token := Free)
  }

  ghost predicate WakeLands(s: State, p: nat, s': State) {
    p in s.wakes && p < |s.nodes|
    && s' == s.(wakes := s.wakes - multiset{p}, nodes := s.nodes[p := s.nodes[p].(flag := true)], token := Flagged(p))
  }

  ghost predicate Next(c: Config, s: State, s': State)
    requires Shape(c, s)
  {
    ZeroLands(s, s') || (exists p :: WakeLands(s, p, s')) || exists t: nat :: ThreadStep(c, s, t, s')
  }

  ghost predicate Init(c: Config, s: State) {
    && Shape(c, s) && s.word == 0 && !s.zeroInFlight && s.wakes == multiset{} && s.bits == {} && s.token == Free
    && (forall t :: 0 <= t < |s.pcs| ==> s.pcs[t] == Idle)
    && forall n :: 0 <= n < |s.nodes| ==> s.nodes[n] == Node(0, false, 0, false, None, [], {}, 0)
  }

  ghost predicate Run(c: Config, tr: seq<State>) {
    && |tr| > 0 && (forall i :: 0 <= i < |tr| ==> Shape(c, tr[i]))
    && Init(c, tr[0]) && forall i :: 0 <= i < |tr| - 1 ==> Next(c, tr[i], tr[i + 1])
  }

  // ------------------------------------------------------------- invariants

  predicate Inside(pc: Pc) { !pc.Idle? && !pc.Queued? }

  ghost predicate On(c: Config, s: State, t: nat, n: nat)
    requires Shape(c, s)
  {
    t < |s.pcs| && c.nodeOf[t] == n
  }

  /** The local lock admits one thread of the node at a time. */
  ghost predicate LocalOk(c: Config, s: State, n: nat)
    requires Shape(c, s) && n < |s.nodes|
  {
    var d := s.nodes[n];
    && (forall t: nat :: On(c, s, t, n) ==> (Inside(s.pcs[t]) <==> d.holder == Some(t)))
    && (d.holder.Some? ==> On(c, s, d.holder.value, n))
    && if c.tickets then TicketsOk(c, s, n) else QueueOk(c, s, n)
  }

  ghost predicate TicketsOk(c: Config, s: State, n: nat)
    requires Shape(c, s) && n < |s.nodes|
  {
    var d := s.nodes[n];
    var cur := CurrentOf(d.word);
    && d.word == Pack(|d.owners|, cur) && cur <= |d.owners| < TWO_32
    && (forall t: nat :: On(c, s, t, n) && s.pcs[t].Queued? ==> cur <= s.pcs[t].ticket < |d.owners| && d.owners[s.pcs[t].ticket] == t)
    && (forall i :: cur <= i < |d.owners| ==>
          && On(c, s, d.owners[i], n)
          && (s.pcs[d.owners[i]] == Queued(i) || (i == cur && d.holder == Some(d.owners[i]))))
    && (d.holder.Some? ==> cur < |d.owners| && d.owners[cur] == d.holder.value && !s.pcs[d.holder.value].Locked?)
  }

  ghost predicate QueueOk(c: Config, s: State, n: nat)
    requires Shape(c, s) && n < |s.nodes|
  {
    var d := s.nodes[n];
    && d.word == |d.queue|
    && forall t: nat :: t in d.queue <==> On(c, s, t, n) && (s.pcs[t].Queued? || s.pcs[t].Locked?)
  }

  /** Another thread of the node waits to follow the present holder, if any. */
  ghost predicate Waiting(c: Config, d: Node) {
    if c.tickets then CurrentOf(d.word) + (if d.holder.Some? then 1 else 0) < |d.owners| else d.queue != {}
  }

  predicate HolderPc(s: State, n: nat)
    requires n < |s.nodes|
  {
    s.nodes[n].holder.Some? && s.nodes[n].holder.value < |s.pcs|
  }

  function PcOf(s: State, n: nat): Pc
    requires n < |s.nodes|
  {
    if HolderPc(s, n) then s.pcs[s.nodes[n].holder.value] else Idle
  }

  /** Whoever is to receive a handed-over lock is there. */
  ghost predicate ClaimOk(c: Config, s: State, n: nat)
    requires n < |s.nodes|
  {
    match PcOf(s, n)
    case Idle => s.nodes[n].handOver ==> Waiting(c, s.nodes[n])
    case RelLocal => s.nodes[n].handOver ==> Waiting(c, s.nodes[n])
    case Loaded(pending) => pending ==> Waiting(c, s.nodes[n])
    case _ => true
  }

  /** The node owns the global lock. */
  predicate OwnsWord(s: State, n: nat)
    requires n < |s.nodes|
  {
    match PcOf(s, n)
    case Crit => true
    case Loaded(_) => true
    case GRel => true
    case Global => false
    case Spin => false
    case Clear => false
    case Wake(_, _) => false
    case _ => s.nodes[n].handOver
  }

  predicate Unhanded(pc: Pc) { pc.Global? || pc.Spin? || pc.Clear? || pc.GRel? || pc.Wake? }

  ghost predicate TokenOk(c: Config, s: State, n: nat)
    requires n < |s.nodes|
  {
    var d, pc := s.nodes[n], PcOf(s, n);
    && (OwnsWord(s, n) <==> s.token == Held(n))
    && (Unhanded(pc) ==> !d.handOver)
    && (d.flag <==> s.token == Flagged(n))
    && (s.token == Flagged(n) || s.token == InFlight(n) ==> pc.Spin? || pc.Clear?)
    && (pc.Clear? ==> d.flag)
    && (c.faa ==> (n in s.bits <==> OwnsWord(s, n) || pc.Spin? || pc.Clear?))
    && (!c.faa ==> !pc.Spin? && !pc.Clear? && !pc.Wake?)
    && (pc.Wake? ==> WakerOk(s, n, pc))
  }

  ghost predicate WakerOk(s: State, n: nat, pc: Pc)
    requires n < |s.nodes| && pc.Wake? && HolderPc(s, n)
  {
    && s.token == Waker(s.nodes[n].holder.value)
    && n !in pc.peers && pc.peers <= s.bits && pc.peers != {} && WordBits(pc.was, pc.peers + {n})
  }

  ghost predicate GlobalOk(c: Config, s: State) {
    && (s.token.Held? || s.token.Flagged? || s.token.InFlight? ==> s.token.node < |s.nodes|)
    && (s.token.Waker? ==> s.token.thread < |s.pcs| && s.pcs[s.token.thread].Wake?)
    && s.wakes == (if s.token.InFlight? then multiset{s.token.node} else multiset{})
    && (s.zeroInFlight <==> s.token.Releasing?)
    && if c.faa then
         WordBits(s.word, s.bits) && (forall n :: n in s.bits ==> n < |s.nodes|)
         && (s.token.Free? <==> s.bits == {}) && !s.token.Releasing?
       else
         (s.word == 0 <==> s.token.Free?) && (s.token.Free? || s.token.Held? || s.token.Releasing?)
  }

  function AtLeastOne(n: nat): nat { if n < 1 then 1 else n }

  /** Entries since the word was taken, as the eight-bit counter sees them. */
  ghost predicate TimeOk(c: Config, s: State, n: nat)
    requires n < |s.nodes|
  {
    var d, pc := s.nodes[n], PcOf(s, n);
    && d.handTime < 256
    && (c.maxHandover <= 255 ==>
        && d.handTime == d.served <= AtLeastOne(c.maxHandover)
        && (pc.Idle? || pc.Locked? || pc.Entered? || pc.RelLocal? || pc.GRel? || pc.Wake? ==>
              if d.handOver then d.served < c.maxHandover else d.served == 0))
  }

  ghost predicate NodeOk(c: Config, s: State, n: nat)
    requires Shape(c, s) && n < |s.nodes|
  {
    LocalOk(c, s, n) && ClaimOk(c, s, n) && TokenOk(c, s, n) && TimeOk(c, s, n)
  }

  ghost predicate Inv(c: Config, s: State) {
    Shape(c, s) && GlobalOk(c, s) && forall n :: 0 <= n < |s.nodes| ==> NodeOk(c, s, n)
  }

  // ---------------------------------------------------- the other nodes

  /** Thread t moved, and with it at most its own node's data. */
  ghost predicate OnlyNode(c: Config, s: State, t: nat, s': State) {
    && Shape(c, s) && Shape(c, s') && t < |s.pcs| && |s'.nodes| == |s.nodes|
    && (forall u :: 0 <= u < |s.pcs| && u != t ==> s'.pcs[u] == s.pcs[u])
    && (forall m :: 0 <= m < |s.nodes| && m != c.nodeOf[t] ==> s'.nodes[m] == s.nodes[m])
  }

  lemma OtherNode(c: Config, s: State, t: nat, s': State, m: nat)
    requires OnlyNode(c, s, t, s') && m < |s.nodes| && m != c.nodeOf[t] && NodeOk(c, s, m)
    ensures LocalOk(c, s', m) && ClaimOk(c, s', m) && TimeOk(c, s', m)
    ensures PcOf(s', m) == PcOf(s, m) && HolderPc(s', m) == HolderPc(s, m)
  {
    hide Waiting;
    assert forall u: nat :: On(c, s', u, m) <==> On(c, s, u, m);
    assert forall u: nat :: On(c, s', u, m) ==> s'.pcs[u] == s.pcs[u];
  }

  /** Nothing about this node's share of the token changed. */
  ghost predicate SameShare(s: State, s': State, m: nat) {
    && (s.token == Held(m) <==> s'.token == Held(m))
    && (s.token == Flagged(m) <==> s'.token == Flagged(m))
    && (s.token == InFlight(m) <==> s'.token == InFlight(m))
    && (m in s.bits <==> m in s'.bits)
    && (s.token.Waker? ==> s'.token == s.token && s.bits <= s'.bits)
  }

  lemma OtherToken(c: Config, s: State, t: nat, s': State, m: nat)
    requires OnlyNode(c, s, t, s') && m < |s.nodes| && m != c.nodeOf[t] && NodeOk(c, s, m) && SameShare(s, s', m)
    ensures TokenOk(c, s', m)
  {
    hide LocalOk, ClaimOk, TimeOk, WordBits;
    SameHolder(c, s, t, s', m);
  }

  lemma SameHolder(c: Config, s: State, t: nat, s': State, m: nat)
    requires OnlyNode(c, s, t, s') && m < |s.nodes| && m != c.nodeOf[t] && NodeOk(c, s, m)
    ensures PcOf(s', m) == PcOf(s, m) && HolderPc(s', m) == HolderPc(s, m) && s'.nodes[m] == s.nodes[m]
  {
  }

  /** A step is settled once its own node and the token are. */
  lemma Settle(c: Config, s: State, t: nat, s': State)
    requires Inv(c, s) && OnlyNode(c, s, t, s') && GlobalOk(c, s')
    requires NodeOk(c, s', c.nodeOf[t])
    requires forall m :: 0 <= m < |s.nodes| && m != c.nodeOf[t] ==> SameShare(s, s', m)
    ensures Inv(c, s')
  {
    hide GlobalOk, LocalOk, ClaimOk, TokenOk, TimeOk, OnlyNode, SameShare;
    NodeCount(c, s, t, s');
    forall m | 0 <= m < |s'.nodes| ensures NodeOk(c, s', m) {
      if m != c.nodeOf[t] {
        OtherNode(c, s, t, s', m);
        OtherToken(c, s, t, s', m);
      }
    }
  }

  lemma NodeCount(c: Config, s: State, t: nat, s': State)
    requires OnlyNode(c, s, t, s')
    ensures |s'.nodes| == |s.nodes| && Shape(c, s') && t < |s.pcs|
  {
  }

  // --------------------------------------------------------- the local lock

  /** Facts about the thread that moves and its node. */
  lemma Mine(c: Config, s: State, t: nat)
    requires Inv(c, s) && t < |s.pcs|
    ensures c.nodeOf[t] < |s.nodes| && NodeOk(c, s, c.nodeOf[t])
    ensures Inside(s.pcs[t]) <==> s.nodes[c.nodeOf[t]].holder == Some(t)
    ensures Inside(s.pcs[t]) ==> PcOf(s, c.nodeOf[t]) == s.pcs[t] && HolderPc(s, c.nodeOf[t])
  {
    assert On(c, s, t, c.nodeOf[t]);
    assert NodeOk(c, s, c.nodeOf[t]);
  }

  /** A holder that changes its own state but neither enters, leaves nor queues. */
  lemma HolderMoves(c: Config, s: State, t: nat, s': State, pc: Pc)
    requires Inv(c, s) && OnlyNode(c, s, t, s') && Inside(s.pcs[t]) && !s.pcs[t].Locked?
    requires Inside(pc) && !pc.Locked? && s'.pcs[t] == pc
    requires var d, d' := s.nodes[c.nodeOf[t]], s'.nodes[c.nodeOf[t]];
      d'.word == d.word && d'.owners == d.owners && d'.queue == d.queue && d'.holder == d.holder
    ensures LocalOk(c, s', c.nodeOf[t])
    ensures PcOf(s', c.nodeOf[t]) == pc && HolderPc(s', c.nodeOf[t])
    ensures Waiting(c, s'.nodes[c.nodeOf[t]]) == Waiting(c, s.nodes[c.nodeOf[t]])
  {
    var n := c.nodeOf[t];
    Mine(c, s, t);
    assert forall u: nat :: On(c, s', u, n) <==> On(c, s, u, n);
  }

  /** The next ticket is drawn and the current one stays. */
  lemma AnnounceWord(c: Config, s: State, t: nat, s': State)
    requires Shape(c, s) && t < |s.pcs| && Announce(c, s, t, s') && c.tickets && TicketsOk(c, s, c.nodeOf[t])
    ensures var d, d' := s.nodes[c.nodeOf[t]], s'.nodes[c.nodeOf[t]];
      && NextOf(d.word) == |d.owners| && d'.word == Pack(|d.owners| + 1, CurrentOf(d.word))
      && NextOf(d'.word) == |d.owners| + 1 && CurrentOf(d'.word) == CurrentOf(d.word)
  {
    hide Pack, NextOf, CurrentOf;
    var d := s.nodes[c.nodeOf[t]];
    var cur := CurrentOf(d.word);
    PackUnpack(|d.owners|, cur);
    DrawTicket(|d.owners|, cur);
    PackUnpack(|d.owners| + 1, cur);
  }

  lemma AnnounceTicket(c: Config, s: State, t: nat, s': State)
    requires Inv(c, s) && t < |s.pcs| && Announce(c, s, t, s') && c.tickets
    ensures LocalOk(c, s', c.nodeOf[t]) && s'.nodes[c.nodeOf[t]].holder == s.nodes[c.nodeOf[t]].holder
    ensures PcOf(s', c.nodeOf[t]) == PcOf(s, c.nodeOf[t]) && HolderPc(s', c.nodeOf[t]) == HolderPc(s, c.nodeOf[t])
    ensures Waiting(c, s.nodes[c.nodeOf[t]]) ==> Waiting(c, s'.nodes[c.nodeOf[t]])
  {
    var n := c.nodeOf[t];
    Mine(c, s, t);
    var d, d' := s.nodes[n], s'.nodes[n];
    var cur := CurrentOf(d.word);
    AnnounceWord(c, s, t, s');
    hide Pack, NextOf, CurrentOf, ClaimOk, TokenOk, TimeOk, Inv;
    assert forall u: nat :: On(c, s', u, n) <==> On(c, s, u, n);
    forall i | cur <= i < |d'.owners|
      ensures On(c, s', d'.owners[i], n) && (s'.pcs[d'.owners[i]] == Queued(i) || (i == cur && d'.holder == Some(d'.owners[i])))
    {
      if i < |d.owners| { assert On(c, s, d.owners[i], n); }
    }
  }

  lemma AnnounceQueue(c: Config, s: State, t: nat, s': State)
    requires Inv(c, s) && t < |s.pcs| && Announce(c, s, t, s') && !c.tickets
    ensures LocalOk(c, s', c.nodeOf[t]) && s'.nodes[c.nodeOf[t]].holder == s.nodes[c.nodeOf[t]].holder
    ensures PcOf(s', c.nodeOf[t]) == PcOf(s, c.nodeOf[t]) && HolderPc(s', c.nodeOf[t]) == HolderPc(s, c.nodeOf[t])
    ensures Waiting(c, s.nodes[c.nodeOf[t]]) ==> Waiting(c, s'.nodes[c.nodeOf[t]])
  {
    var n := c.nodeOf[t];
    Mine(c, s, t);
    QueueFits(c, s, n, t);
    assert forall u: nat :: On(c, s', u, n) <==> On(c, s, u, n);
  }

  /** There are fewer waiters than threads, so the count cannot overflow. */
  lemma QueueFits(c: Config, s: State, n: nat, t: nat)
    requires Inv(c, s) && t < |s.pcs| && n == c.nodeOf[t] && !c.tickets && t !in s.nodes[n].queue
    ensures |s.nodes[n].queue| + 1 < TWO_64
  {
    assert NodeOk(c, s, n);
    var q := s.nodes[n].queue;
    var all := UpTo(|s.pcs|);
    assert forall u :: u in q ==> On(c, s, u, n);
    assert q < all;
    CardBelow(q, all);
  }

  function UpTo(k: nat): (r: set<nat>)
    ensures |r| == k && forall u: nat :: u in r <==> u < k
  {
    if k == 0 then {} else UpTo(k - 1) + {k - 1}
  }

  lemma {:induction false} CardBelow(a: set<nat>, b: set<nat>)
    requires a < b
    ensures |a| < |b|
  {
    var x :| x in b && x !in a;
    assert a <= b - {x};
    CardAtMost(a, b - {x});
  }

  lemma {:induction false} CardAtMost(a: set<nat>, b: set<nat>)
    requires a <= b
    ensures |a| <= |b|
  {
    if a != {} {
      var x :| x in a;
      CardAtMost(a - {x}, b - {x});
    }
  }

  lemma EnterLocal(c: Config, s: State, t: nat, s': State)
    requires Inv(c, s) && t < |s.pcs| && Enter(c, s, t, s')
    ensures LocalOk(c, s', c.nodeOf[t]) && s.nodes[c.nodeOf[t]].holder == None
    ensures PcOf(s', c.nodeOf[t]) == s'.pcs[t] && (s'.pcs[t].Locked? || s'.pcs[t].Entered?)
  {
    var n := c.nodeOf[t];
    Mine(c, s, t);
    assert On(c, s, t, n);
    assert forall u: nat :: On(c, s', u, n) <==> On(c, s, u, n);
  }

  lemma UncountLocal(c: Config, s: State, t: nat, s': State)
    requires Inv(c, s) && t < |s.pcs| && Uncount(c, s, t, s')
    ensures LocalOk(c, s', c.nodeOf[t]) && PcOf(s', c.nodeOf[t]) == Entered
  {
    var n := c.nodeOf[t];
    Mine(c, s, t);
    assert On(c, s, t, n);
    var q := s.nodes[n].queue;
    assert !c.tickets && t in q;
    assert |q - {t}| == |q| - 1;
    QueueBound(c, s, n);
    assert forall u: nat :: On(c, s', u, n) <==> On(c, s, u, n);
  }

  lemma QueueBound(c: Config, s: State, n: nat)
    requires Inv(c, s) && n < |s.nodes| && !c.tickets
    ensures |s.nodes[n].queue| < TWO_64
  {
    assert NodeOk(c, s, n);
    var q := s.nodes[n].queue;
    var all := UpTo(|s.pcs|);
    assert forall u :: u in q ==> On(c, s, u, n);
    CardAtMost(q, all);
  }

  lemma LeaveLocal(c: Config, s: State, t: nat, s': State)
    requires Inv(c, s) && t < |s.pcs| && Leave(c, s, t, s')
    ensures LocalOk(c, s', c.nodeOf[t]) && PcOf(s', c.nodeOf[t]) == Idle
    ensures Waiting(c, s.nodes[c.nodeOf[t]]) ==> Waiting(c, s'.nodes[c.nodeOf[t]])
  {
    var n := c.nodeOf[t];
    hide Pack, NextOf, CurrentOf;
    Mine(c, s, t);
    assert On(c, s, t, n);
    var d := s.nodes[n];
    if c.tickets {
      var cur := CurrentOf(d.word);
      PackUnpack(|d.owners|, cur);
      ServeNext(|d.owners|, cur);
      PackUnpack(|d.owners|, cur + 1);
    }
    assert forall u: nat :: On(c, s', u, n) <==> On(c, s, u, n);
  }

  // ------------------------------------------------------------ every step

  lemma AnnounceInv(c: Config, s: State, t: nat, s': State)
    requires Inv(c, s) && t < |s.pcs| && Announce(c, s, t, s')
    ensures Inv(c, s')
  {
    hide LocalOk, Waiting, WordBits, Pack, NextOf, CurrentOf;
    Mine(c, s, t);
    if c.tickets { AnnounceTicket(c, s, t, s'); } else { AnnounceQueue(c, s, t, s'); }
    assert NodeOk(c, s, c.nodeOf[t]);
    Settle(c, s, t, s');
  }

  lemma EnterInv(c: Config, s: State, t: nat, s': State)
    requires Inv(c, s) && t < |s.pcs| && Enter(c, s, t, s')
    ensures Inv(c, s')
  {
    hide LocalOk, Waiting, WordBits, CurrentOf;
    Mine(c, s, t);
    EnterLocal(c, s, t, s');
    Settle(c, s, t, s');
  }

  lemma UncountInv(c: Config, s: State, t: nat, s': State)
    requires Inv(c, s) && t < |s.pcs| && Uncount(c, s, t, s')
    ensures Inv(c, s')
  {
    hide LocalOk, Waiting, WordBits;
    Mine(c, s, t);
    UncountLocal(c, s, t, s');
    Settle(c, s, t, s');
  }

  lemma LeaveInv(c: Config, s: State, t: nat, s': State)
    requires Inv(c, s) && t < |s.pcs| && Leave(c, s, t, s')
    ensures Inv(c, s')
  {
    hide LocalOk, Waiting, WordBits;
    Mine(c, s, t);
    LeaveLocal(c, s, t, s');
    Settle(c, s, t, s');
  }

  lemma CountHandInv(c: Config, s: State, t: nat, s': State)
    requires Inv(c, s) && t < |s.pcs| && CountHand(c, s, t, s')
    ensures Inv(c, s')
  {
    hide LocalOk, Waiting, WordBits;
    Mine(c, s, t);
    HolderMoves(c, s, t, s', s'.pcs[t]);
    Settle(c, s, t, s');
  }

  lemma SeeFlagInv(c: Config, s: State, t: nat, s': State)
    requires Inv(c, s) && t < |s.pcs| && SeeFlag(c, s, t, s')
    ensures Inv(c, s')
  {
    hide LocalOk, Waiting, WordBits;
    Mine(c, s, t);
    HolderMoves(c, s, t, s', Clear);
    Settle(c, s, t, s');
  }

  lemma ClearFlagInv(c: Config, s: State, t: nat, s': State)
    requires Inv(c, s) && t < |s.pcs| && ClearFlag(c, s, t, s')
    ensures Inv(c, s')
  {
    hide LocalOk, Waiting, WordBits;
    Mine(c, s, t);
    HolderMoves(c, s, t, s', Crit);
    FlagNotEmpty(c, s, c.nodeOf[t]);
    Settle(c, s, t, s');
  }

  lemma FlagNotEmpty(c: Config, s: State, n: nat)
    requires n < |s.nodes| && TokenOk(c, s, n) && c.faa && s.token == Flagged(n)
    ensures n in s.bits
  {
  }

  /** The look behind sees a waiting thread exactly when there is one. */
  lemma LookSees(c: Config, s: State, t: nat, s': State)
    requires Inv(c, s) && t < |s.pcs| && LookBehind(c, s, t, s')
    ensures s'.pcs[t].pending <==> Waiting(c, s.nodes[c.nodeOf[t]])
  {
    var d := s.nodes[c.nodeOf[t]];
    Mine(c, s, t);
    if c.tickets {
      hide Pack, NextOf, CurrentOf;
      PackUnpack(|d.owners|, CurrentOf(d.word));
    }
  }

  lemma LookBehindInv(c: Config, s: State, t: nat, s': State)
    requires Inv(c, s) && t < |s.pcs| && LookBehind(c, s, t, s')
    ensures Inv(c, s')
  {
    hide LocalOk, Waiting, WordBits, NextOf, CurrentOf;
    Mine(c, s, t);
    LookSees(c, s, t, s');
    HolderMoves(c, s, t, s', s'.pcs[t]);
    Settle(c, s, t, s');
  }

  lemma DecideInv(c: Config, s: State, t: nat, s': State)
    requires Inv(c, s) && t < |s.pcs| && Decide(c, s, t, s')
    ensures Inv(c, s')
  {
    hide LocalOk, Waiting, WordBits;
    Mine(c, s, t);
    HolderMoves(c, s, t, s', s'.pcs[t]);
    Settle(c, s, t, s');
  }

  lemma AcquireInv(c: Config, s: State, t: nat, s': State)
    requires Inv(c, s) && t < |s.pcs| && Acquire(c, s, t, s')
    ensures Inv(c, s')
  {
    hide LocalOk, Waiting, WordBits;
    var n := c.nodeOf[t];
    Mine(c, s, t);
    HolderMoves(c, s, t, s', s'.pcs[t]);
    if c.faa {
      assert n !in s.bits;
      FetchAdd(s.word, s.bits, n);
      ZeroWord(s.word, s.bits);
    }
    Settle(c, s, t, s');
  }

  lemma ReleaseInv(c: Config, s: State, t: nat, s': State)
    requires Inv(c, s) && t < |s.pcs| && Release(c, s, t, s')
    ensures Inv(c, s')
  {
    hide LocalOk, Waiting, WordBits;
    var n := c.nodeOf[t];
    Mine(c, s, t);
    HolderMoves(c, s, t, s', s'.pcs[t]);
    if c.faa {
      FetchSub(s.word, s.bits, n);
      assert (s.bits - {n}) + {n} == s.bits;
    }
    Settle(c, s, t, s');
  }

  /** Every peer the waker may choose still waits. */
  lemma PeerWaits(c: Config, s: State, t: nat, p: nat)
    requires Inv(c, s) && t < |s.pcs| && s.pcs[t].Wake? && p < 64 && p != c.nodeOf[t] && BitOf(s.pcs[t].was, p)
    ensures c.faa && p < |s.nodes| && p in s.bits && PcOf(s, p).Spin? && s.token == Waker(t)
  {
    hide LocalOk, Waiting;
    Mine(c, s, t);
    MaskBit(s.pcs[t].peers + {c.nodeOf[t]}, 64, p);
    assert NodeOk(c, s, p);
  }

  lemma WakePeerInv(c: Config, s: State, t: nat, s': State)
    requires Inv(c, s) && t < |s.pcs| && WakePeer(c, s, t, s')
    ensures Inv(c, s')
  {
    hide LocalOk, Waiting, WordBits, ClaimOk, TimeOk;
    var n := c.nodeOf[t];
    var p: nat :| p < 64 && p != c.nodeOf[t] && BitOf(s.pcs[t].was, p)
      && s' == Local(c, s, t, RelLocal, s.nodes[c.nodeOf[t]]).(wakes := s.wakes + multiset{p}, token := InFlight(p));
    PeerWaits(c, s, t, p);
    Mine(c, s, t);
    HolderMoves(c, s, t, s', RelLocal);
    WakeOwn(c, s, t, s');
    forall m | 0 <= m < |s'.nodes| ensures NodeOk(c, s', m) {
      if m != n {
        OtherNode(c, s, t, s', m);
        WakeOther(c, s, t, s', m, p);
      }
    }
  }

  lemma WakeOwn(c: Config, s: State, t: nat, s': State)
    requires Inv(c, s) && t < |s.pcs| && WakePeer(c, s, t, s') && PcOf(s', c.nodeOf[t]) == RelLocal
    ensures ClaimOk(c, s', c.nodeOf[t]) && TimeOk(c, s', c.nodeOf[t]) && TokenOk(c, s', c.nodeOf[t])
  {
    hide LocalOk, Waiting, WordBits;
    Mine(c, s, t);
  }

  lemma WakeOther(c: Config, s: State, t: nat, s': State, m: nat, p: nat)
    requires OnlyNode(c, s, t, s') && m < |s.nodes| && m != c.nodeOf[t] && NodeOk(c, s, m)
    requires s.token == Waker(t) && s'.token == InFlight(p) && s'.bits == s.bits && HolderPc(s, c.nodeOf[t])
    requires m == p ==> PcOf(s, p).Spin?
    requires s.nodes[c.nodeOf[t]].holder == Some(t)
    ensures TokenOk(c, s', m)
  {
    hide ClaimOk, TimeOk, WordBits, Waiting, TicketsOk, QueueOk;
    SameHolder(c, s, t, s', m);
  }

  lemma ZeroLandsInv(c: Config, s: State, s': State)
    requires Inv(c, s) && ZeroLands(s, s')
    ensures Inv(c, s')
  {
    hide LocalOk, ClaimOk, WordBits, Waiting;
    forall n | 0 <= n < |s'.nodes| ensures NodeOk(c, s', n) {
      assert NodeOk(c, s, n);
      SameThreads(c, s, s', n);
    }
  }

  /** Local claims read neither the word nor the flags. */
  lemma SameThreads(c: Config, s: State, s': State, n: nat)
    requires Shape(c, s) && Shape(c, s') && n < |s.nodes| == |s'.nodes| && s'.pcs == s.pcs
    requires s'.nodes[n] == s.nodes[n].(flag := s'.nodes[n].flag)
    requires LocalOk(c, s, n) && ClaimOk(c, s, n) && TimeOk(c, s, n)
    ensures LocalOk(c, s', n) && ClaimOk(c, s', n) && TimeOk(c, s', n)
    ensures PcOf(s', n) == PcOf(s, n) && OwnsWord(s', n) == OwnsWord(s, n)
  {
    assert forall u: nat :: On(c, s', u, n) <==> On(c, s, u, n);
  }

  lemma WakeLandsInv(c: Config, s: State, p: nat, s': State)
    requires Inv(c, s) && WakeLands(s, p, s')
    ensures Inv(c, s')
  {
    hide LocalOk, ClaimOk, WordBits, Waiting;
    assert s.token == InFlight(p);
    forall n | 0 <= n < |s'.nodes| ensures NodeOk(c, s', n) {
      assert NodeOk(c, s, n);
      SameThreads(c, s, s', n);
    }
    assert s'.wakes == multiset{};
  }

  lemma StepInv(c: Config, s: State, s': State)
    requires Inv(c, s) && Next(c, s, s')
    ensures Inv(c, s')
  {
    hide GlobalOk, LocalOk, ClaimOk, TokenOk, TimeOk, Announce, Enter, Uncount, CountHand, Acquire, SeeFlag, ClearFlag, LookBehind, Decide, Release, WakePeer, Leave, ZeroLands, WakeLands;
    if ZeroLands(s, s') {
      ZeroLandsInv(c, s, s');
    } else if p :| WakeLands(s, p, s') {
      WakeLandsInv(c, s, p, s');
    } else {
      var t: nat :| ThreadStep(c, s, t, s');
      match s.pcs[t]
      case Idle => AnnounceInv(c, s, t, s');
      case Queued(_) => EnterInv(c, s, t, s');
      case Locked => UncountInv(c, s, t, s');
      case Entered => CountHandInv(c, s, t, s');
      case Global => AcquireInv(c, s, t, s');
      case Spin => SeeFlagInv(c, s, t, s');
      case Clear => ClearFlagInv(c, s, t, s');
      case Crit => LookBehindInv(c, s, t, s');
      case Loaded(_) => DecideInv(c, s, t, s');
      case GRel => ReleaseInv(c, s, t, s');
      case Wake(_, _) => WakePeerInv(c, s, t, s');
      case RelLocal => LeaveInv(c, s, t, s');
    }
  }

  lemma InitInv(c: Config, s: State)
    requires Init(c, s)
    ensures Inv(c, s)
  {
    PackUnpack(0, 0);
    MaskEmpty({}, 64);
  }

  lemma {:induction false} RunInv(c: Config, tr: seq<State>, i: nat)
    requires Run(c, tr) && i < |tr|
    ensures Inv(c, tr[i])
  {
    hide Inv, Init, Next;
    if i == 0 { InitInv(c, tr[0]); } else { RunInv(c, tr, i - 1); StepInv(c, tr[i - 1], tr[i]); }
  }

  // --------------------------------------------------------------- theorems

  /** Inside the section the lock protects.  A thread that hands the lock over
      writes its page after it has decided to and before it lets the next thread
      of its node in, so that stretch belongs to its section too. */
  predicate InSection(c: Config, s: State, t: nat)
    requires Shape(c, s) && t < |s.pcs|
  {
    var pc := s.pcs[t];
    pc.Crit? || pc.Loaded? || pc.GRel? || (pc.RelLocal? && s.nodes[c.nodeOf[t]].handOver)
  }

  lemma MutualExclusion(c: Config, tr: seq<State>, i: nat, t: nat, u: nat)
    requires Run(c, tr) && i < |tr| && Shape(c, tr[i]) && t < |tr[i].pcs| && u < |tr[i].pcs|
    requires InSection(c, tr[i], t) && InSection(c, tr[i], u)
    ensures t == u
  {
    hide LocalOk, ClaimOk, TimeOk, GlobalOk, WordBits;
    RunInv(c, tr, i);
    Mine(c, tr[i], t);
    Mine(c, tr[i], u);
  }

  /** Who answers for the global lock, read off the program's own state. */
  predicate Responsible(s: State, k: Token) {
    match k
    case Free => false
    case Held(n) => n < |s.nodes| && OwnsWord(s, n)
    case Flagged(n) => n < |s.nodes| && s.nodes[n].flag
    case InFlight(n) => n in s.wakes
    case Waker(t) => t < |s.pcs| && s.pcs[t].Wake?
    case Releasing => s.zeroInFlight
  }

  /** The word is non-zero exactly when somebody answers for it, and then one
      alone: a node, a set flag, one wake-up or clearing write on its way, or
      one thread about to wake a peer. */
  lemma OneToken(c: Config, tr: seq<State>, i: nat)
    requires Run(c, tr) && i < |tr|
    ensures tr[i].word != 0 <==> exists k :: Responsible(tr[i], k)
    ensures forall k, k' :: Responsible(tr[i], k) && Responsible(tr[i], k') ==> k == k'
    ensures |tr[i].wakes| <= 1
  {
    hide Inv, Run;
    RunInv(c, tr, i);
    var s := tr[i];
    forall k ensures Responsible(s, k) <==> (k == s.token && k != Free) { TokenIs(c, s, k); }
    WordIsToken(c, s);
    if s.word != 0 { assert Responsible(s, s.token); }
  }

  lemma TokenIs(c: Config, s: State, k: Token)
    requires Inv(c, s)
    ensures Responsible(s, k) <==> (k == s.token && k != Free)
  {
    hide LocalOk, ClaimOk, TimeOk;
    match k
    case Held(n) => if n < |s.nodes| { assert NodeOk(c, s, n); }
    case Flagged(n) => if n < |s.nodes| { assert NodeOk(c, s, n); }
    case Waker(t) => if t < |s.pcs| { Mine(c, s, t); }
    case _ =>
  }

  lemma WordIsToken(c: Config, s: State)
    requires Inv(c, s)
    ensures s.word != 0 <==> s.token != Free
    ensures |s.wakes| <= 1
  {
    if c.faa { ZeroWord(s.word, s.bits); }
  }

  /** Under fetch-and-add the word is the sum of one bit per node that waits for
      the lock or owns it. */
  lemma WordIsSum(c: Config, tr: seq<State>, i: nat, n: nat)
    requires Run(c, tr) && i < |tr| && c.faa && n < |tr[i].nodes|
    ensures BitOf(tr[i].word, n) <==> OwnsWord(tr[i], n) || PcOf(tr[i], n).Spin? || PcOf(tr[i], n).Clear?
    ensures tr[i].word == Mask(set m | m in tr[i].bits && (OwnsWordAt(tr[i], m) || SpinsAt(tr[i], m)), 64)
  {
    RunInv(c, tr, i);
    var s := tr[i];
    assert NodeOk(c, s, n);
    MaskBit(s.bits, 64, n);
    forall m | m in s.bits ensures OwnsWordAt(s, m) || SpinsAt(s, m) { assert NodeOk(c, s, m); }
    assert s.bits == set m | m in s.bits && (OwnsWordAt(s, m) || SpinsAt(s, m));
  }

  predicate OwnsWordAt(s: State, n: nat) { n < |s.nodes| && OwnsWord(s, n) }
  predicate SpinsAt(s: State, n: nat) { n < |s.nodes| && (PcOf(s, n).Spin? || PcOf(s, n).Clear?) }

  /** A lock handed over with nobody inside still belongs to the node, and the
      thread that will receive it already waits and may enter now. */
  lemma HandedOver(c: Config, tr: seq<State>, i: nat, n: nat) returns (u: nat)
    requires Run(c, tr) && i < |tr| && n < |tr[i].nodes|
    requires tr[i].nodes[n].handOver && tr[i].nodes[n].holder == None
    ensures u < |tr[i].pcs| && c.nodeOf[u] == n && tr[i].pcs[u].Queued?
    ensures c.tickets ==> tr[i].pcs[u].ticket == CurrentOf(tr[i].nodes[n].word)
    ensures tr[i].word != 0 && forall k :: Responsible(tr[i], k) ==> k == Held(n)
  {
    RunInv(c, tr, i);
    OneToken(c, tr, i);
    assert NodeOk(c, tr[i], n);
    assert Responsible(tr[i], Held(n));
    u := NextIn(c, tr[i], n);
  }

  lemma NextIn(c: Config, s: State, n: nat) returns (u: nat)
    requires Inv(c, s) && n < |s.nodes| && s.nodes[n].holder == None && Waiting(c, s.nodes[n])
    ensures u < |s.pcs| && c.nodeOf[u] == n && s.pcs[u].Queued?
    ensures c.tickets ==> s.pcs[u].ticket == CurrentOf(s.nodes[n].word)
  {
    var d := s.nodes[n];
    assert NodeOk(c, s, n);
    if c.tickets {
      u := d.owners[CurrentOf(d.word)];
      assert On(c, s, u, n);
    } else {
      u :| u in d.queue;
      assert On(c, s, u, n);
    }
  }

  /** At most maxHandover sections run on a node per acquisition of the word
      (always at least one), and the eight-bit counter counts them truly. */
  lemma HandoverBound(c: Config, tr: seq<State>, i: nat, n: nat)
    requires Run(c, tr) && i < |tr| && n < |tr[i].nodes| && c.maxHandover <= 255
    ensures tr[i].nodes[n].handTime == tr[i].nodes[n].served <= AtLeastOne(c.maxHandover)
  {
    hide Inv, Run;
    RunInv(c, tr, i);
    ServedBound(c, tr[i], n);
  }

  lemma ServedBound(c: Config, s: State, n: nat)
    requires Inv(c, s) && n < |s.nodes| && c.maxHandover <= 255
    ensures s.nodes[n].handTime == s.nodes[n].served <= AtLeastOne(c.maxHandover)
  {
    hide LocalOk, ClaimOk, TokenOk, GlobalOk;
    assert NodeOk(c, s, n);
  }

  /** A leaving thread hands the lock over exactly when it saw another thread of
      its node wait and the bound is not reached; what it saw was so. */
  lemma HandsOverExactly(c: Config, tr: seq<State>, i: nat, t: nat, s': State)
    requires Run(c, tr) && i < |tr| && Shape(c, tr[i]) && ThreadStep(c, tr[i], t, s') && c.maxHandover <= 255
    ensures t < |s'.pcs| == |tr[i].pcs| && |s'.nodes| == |tr[i].nodes|
    ensures var s, n := tr[i], c.nodeOf[t];
      && (s.pcs[t].Crit? ==> s'.pcs[t] == Loaded(Waiting(c, s.nodes[n])))
      && (s.pcs[t].Loaded? ==>
           && (s'.nodes[n].handOver <==> s.pcs[t].pending && s.nodes[n].served < c.maxHandover)
           && s'.pcs[t] == (if s'.nodes[n].handOver then RelLocal else GRel))
  {
    RunInv(c, tr, i);
    var s := tr[i];
    ThreadSize(c, s, t, s');
    hide Run;
    if s.pcs[t].Crit? { LookSees(c, s, t, s'); }
    else if s.pcs[t].Loaded? { ServedBound(c, s, c.nodeOf[t]); }
    hide Inv, NextOf, CurrentOf, Waiting;
  }

  lemma ThreadSize(c: Config, s: State, t: nat, s': State)
    requires Shape(c, s) && ThreadStep(c, s, t, s')
    ensures t < |s'.pcs| == |s.pcs| && |s'.nodes| == |s.nodes|
  {
  }

  /** Under compare-and-swap a taken word is the tag of some thread, one of the
      node that owns the lock. */
  ghost predicate Named(c: Config, s: State) {
    !c.faa && s.token != Free ==>
      exists t: nat :: t < |c.nodeOf| && s.word == Tag(c, t) && (s.token.Held? ==> s.token.node == c.nodeOf[t])
  }

  lemma StepNamed(c: Config, s: State, s': State)
    requires Inv(c, s) && Next(c, s, s') && Named(c, s)
    ensures Named(c, s')
  {
    assert !c.faa ==> s.wakes == multiset{};
    if !c.faa && !ZeroLands(s, s') {
      var t: nat :| ThreadStep(c, s, t, s');
      ThreadNames(c, s, t, s');
    }
  }

  lemma ThreadNames(c: Config, s: State, t: nat, s': State)
    requires Inv(c, s) && ThreadStep(c, s, t, s') && !c.faa && Named(c, s)
    ensures Named(c, s')
  {
    hide LocalOk, ClaimOk, TimeOk, WordBits, Waiting, Tag;
    Mine(c, s, t);
    if s.pcs[t].Global? {
      assert s'.word == Tag(c, t);
    } else if s.pcs[t].GRel? {
      assert s'.word == s.word && s'.token == Releasing;
    } else {
      SameToken(c, s, t, s');
    }
  }

  lemma SameToken(c: Config, s: State, t: nat, s': State)
    requires Shape(c, s) && ThreadStep(c, s, t, s') && !c.faa
    requires var pc := s.pcs[t]; !pc.Global? && !pc.GRel? && !pc.Clear? && !pc.Wake?
    ensures s'.word == s.word && s'.token == s.token
  {
  }

  lemma {:induction false} RunNamed(c: Config, tr: seq<State>, i: nat)
    requires Run(c, tr) && i < |tr|
    ensures Inv(c, tr[i]) && Named(c, tr[i])
  {
    hide Inv, Next, Init;
    RunInv(c, tr, i);
    if i > 0 { RunNamed(c, tr, i - 1); StepNamed(c, tr[i - 1], tr[i]); } else { FirstNamed(c, tr[0]); }
  }

  lemma FirstNamed(c: Config, s: State)
    requires Init(c, s)
    ensures Named(c, s)
  {
  }

  /** The upper half of a taken word names the node that owns the lock. */
  lemma WordNamesOwner(c: Config, tr: seq<State>, i: nat, t: nat)
    requires Run(c, tr) && i < |tr| && !c.faa && |c.nodeOf| < TWO_32 && t < |tr[i].pcs| && InSection(c, tr[i], t)
    ensures tr[i].word / TWO_32 == c.nodeOf[t]
  {
    RunNamed(c, tr, i);
    hide Run;
    var s := tr[i];
    Mine(c, s, t);
    assert s.token == Held(c.nodeOf[t]);
    hide Inv, LocalOk, ClaimOk, TimeOk, TokenOk, GlobalOk;
    var u: nat :| u < |c.nodeOf| && s.word == Tag(c, u) && (s.token.Held? ==> s.token.node == c.nodeOf[u]);
    DivStep(TWO_32, c.nodeOf[u], u + 1);
  }

  // ------------------------------------------------------- choosing a peer

  /** Clearing a set bit of a word. */
  function ClearBit(word: nat, n: nat): nat {
    if BitOf(word, n) && Pow2(n) <= word then word - Pow2(n) else word
  }

  lemma ClearMask(word: nat, b: set<nat>, n: nat)
    requires WordBits(word, b) && n < 64
    ensures WordBits(ClearBit(word, n), b - {n})
  {
    MaskBit(b, 64, n);
    if n in b {
      assert (b - {n}) + {n} == b;
      MaskAdd(b - {n}, 64, n);
    } else {
      assert b - {n} == b;
    }
  }

  /** The positions of the set bits of `word` other than the node's own; the
      caller picks one of them at random. */
  method PeerList(word: nat, self: nat, ghost b: set<nat>) returns (indices: seq<nat>)
    requires WordBits(word, b) && self < 64 && forall n: nat :: n in b ==> n < MAX_MACHINE
    ensures forall n: nat :: n in indices <==> n in b && n != self
    ensures forall i, j :: 0 <= i < j < |indices| ==> indices[i] < indices[j]
  {
    indices := [];
    var value := ClearBit(word, self);
    ghost var rest := b - {self};
    ClearMask(word, b, self);
    ZeroWord(value, rest);
    FewBits(rest);
    while value != 0 && |indices| < MAX_MACHINE
      invariant WordBits(value, rest) && (value == 0 <==> rest == {})
      invariant forall n: nat :: n in b - {self} <==> n in indices || n in rest
      invariant forall n, i :: n in rest && 0 <= i < |indices| ==> indices[i] < n
      invariant forall i, j :: 0 <= i < j < |indices| ==> indices[i] < indices[j]
      invariant |indices| + |rest| <= MAX_MACHINE
      decreases |rest|
    {
      var index := LowestBit(value, rest);
      indices := indices + [index];
      ClearMask(value, rest, index);
      value := ClearBit(value, index);
      rest := rest - {index};
      ZeroWord(value, rest);
    }
  }

  lemma FewBits(b: set<nat>)
    requires forall n: nat :: n in b ==> n < MAX_MACHINE
    ensures |b| <= MAX_MACHINE
  {
    CardAtMost(b, UpTo(MAX_MACHINE));
  }

  /** Count trailing zeroes. */
  method LowestBit(value: nat, ghost b: set<nat>) returns (n: nat)
    requires WordBits(value, b) && b != {}
    ensures n in b && forall m :: m in b ==> n <= m
  {
    n := 0;
    MaskBit(b, 64, 0);
    while !BitOf(value, n)
      invariant n < 64 && forall m :: m in b ==> n <= m
      invariant BitOf(value, n) <==> n in b
      decreases 64 - n
    {
      ghost var m :| m in b;
      assert n < m < 64;
      MaskBit(b, 64, n + 1);
      n := n + 1;
    }
  }
}
