/** Allocation of disaggregated memory: a directory gives out chunks, a client
    cuts pieces from its latest chunk and asks the directories in turn. */
module Allocator {

  const CHUNK: nat := 0x200_0000

  datatype Address = Address(node: nat, offset: nat)

  // ------------------------------------------------------------- directories

  /** Gives out the chunks of one directory from a bitmap, in order. */
  class GlobalAllocator {
    const start: Address
    const bitmap: array<bool>
    var tail: nat

    ghost predicate Valid()
      reads this, bitmap
    {
      1 <= tail <= bitmap.Length && forall i :: 0 <= i < bitmap.Length ==> bitmap[i] == (i < tail)
    }

    /** Chunk 0 counts as taken: it holds the null address. */
    constructor (start: Address, size: nat)
      requires size >= CHUNK
      ensures Valid() && fresh(bitmap) && this.start == start && bitmap.Length == size / CHUNK && tail == 1
    {
      this.start := start;
      bitmap := new bool[size / CHUNK](_ => false);
      tail := 1;
      new;
      bitmap[0] := true;
    }

    /** Fails only when the directory's memory is used up. */
    method AllocChunk() returns (ok: bool, chunk: Address)
      requires Valid()
      modifies this`tail, bitmap
      ensures Valid() && ok == (old(tail) < bitmap.Length)
      ensures tail == if ok then old(tail) + 1 else old(tail)
      ensures ok ==> chunk == Address(start.node, start.offset + old(tail) * CHUNK)
    {
      chunk := start;
      ok := tail < bitmap.Length && !bitmap[tail];
      if ok {
        bitmap[tail] := true;
        chunk := Address(start.node, start.offset + tail * CHUNK);
        tail := tail + 1;
      }
    }
  }

  // ----------------------------------------------------------------- clients

  datatype Log = Log(head: Address, cur: Address, empty: bool)

  predicate Fits(l: Log, size: nat) {
    !l.empty && l.cur.offset + size <= l.head.offset + CHUNK
  }

  /** A piece is cut off where the log ends; one that does not fit is not. */
  function Cut(l: Log, size: nat): Log {
    if Fits(l, size) then l.(cur := l.cur.(offset := l.cur.offset + size)) else l
  }

  class LocalAllocator {
    var head: Address
    var cur: Address
    var logHeads: seq<Address>

    function View(): Log
      reads this
    {
      Log(head, cur, logHeads == [])
    }

    constructor ()
      ensures View() == Log(Address(0, 0), Address(0, 0), true)
    {
      head, cur, logHeads := Address(0, 0), Address(0, 0), [];
    }

    method Malloc(size: nat) returns (res: Address, needChunk: bool)
      modifies this`cur
      ensures res == old(cur) && needChunk == !Fits(old(View()), size) && View() == Cut(old(View()), size)
    {
      res := cur;
      if logHeads == [] || cur.offset + size > head.offset + CHUNK {
        needChunk := true;
      } else {
        needChunk := false;
        cur := cur.(offset := cur.offset + size);
      }
    }

    method SetChunk(addr: Address)
      modifies this
      ensures View() == Log(addr, addr, false) && logHeads == old(logHeads) + [addr]
    {
      logHeads := logHeads + [addr];
      head, cur := addr, addr;
    }
  }

  /** A directory of a memory node. */
  datatype Home = Home(node: nat, dir: nat)

  datatype Config = Config(nodes: nat, dirs: nat, dirSize: nat) {
    ghost predicate Valid() { nodes > 0 && dirs > 0 && dirSize >= CHUNK }

    predicate Has(h: Home) { h.node < nodes && h.dir < dirs }

    function Chunks(): nat { dirSize / CHUNK }

    /** All directories of a node in turn, then the next node. */
    function Next(h: Home): Home
      requires nodes > 0
    {
      if h.dir + 1 == dirs then Home((h.node + 1) % nodes, 0) else Home(h.node, h.dir + 1)
    }

    function Start(h: Home): Address { Address(h.node, dirSize * h.dir) }
  }

  class Client {
    const local: LocalAllocator
    var target: Home

    constructor (h: Home)
      ensures fresh(local) && local.View() == Log(Address(0, 0), Address(0, 0), true) && target == h
    {
      local := new LocalAllocator();
      target := h;
    }

    /** Cut from the chunk at hand; failing that get a chunk from the directory
        whose turn it is, here `home`, and cut again. */
    method Alloc(c: Config, home: GlobalAllocator, size: nat) returns (ok: bool, addr: Address)
      requires c.Valid() && c.Has(target) && home.Valid()
      requires home.start == c.Start(target) && home.bitmap.Length == c.Chunks()
      modifies this, local, home`tail, home.bitmap
      ensures home.Valid() && ok == (Fits(old(local.View()), size) || old(home.tail) < c.Chunks())
      ensures Fits(old(local.View()), size) ==>
                && addr == old(local.cur) && local.View() == Cut(old(local.View()), size)
                && target == old(target) && home.tail == old(home.tail)
      ensures ok && !Fits(old(local.View()), size) ==>
                && addr == ChunkStart(c, Chunk(old(target), old(home.tail))) && local.View() == Cut(Log(addr, addr, false), size)
                && target == c.Next(old(target)) && home.tail == old(home.tail) + 1
    {
      var needChunk;
      ok := true;
      addr, needChunk := local.Malloc(size);
      if needChunk {
        var chunk;
        ok, chunk := home.AllocChunk();
        if !ok { return; }
        local.SetChunk(chunk);
        if target.dir + 1 == c.dirs {
          target := Home((target.node + 1) % c.nodes, 0);
        } else {
          target := Home(target.node, target.dir + 1);
        }
        addr, needChunk := local.Malloc(size);
      }
    }
  }

  // -------------------------------------------------------------- whole runs

  datatype Chunk = Chunk(home: Home, index: nat)

  function ChunkStart(c: Config, k: Chunk): Address {
    Address(k.home.node, c.Start(k.home).offset + k.index * CHUNK)
  }

  /** What a request got; `chunk` is auxiliary: the chunk it was cut from. */
  datatype Grant = Grant(addr: Address, size: nat, chunk: Chunk)

  /** A client's log and target; `chunk` is auxiliary: the chunk at hand. */
  datatype ClientState = ClientState(log: Log, target: Home, chunk: Chunk)

  datatype State = State(tails: map<Home, nat>, clients: seq<ClientState>, grants: seq<Grant>)

  ghost predicate Init(c: Config, s: State) {
    && (forall h :: c.Has(h) ==> h in s.tails && s.tails[h] == 1)
    && (forall t :: 0 <= t < |s.clients| ==> s.clients[t].log.empty && c.Has(s.clients[t].target))
    && s.grants == []
  }

  /** Client t asks for `size` bytes and gets them. */
  ghost predicate Step(c: Config, s: State, t: nat, size: nat, s': State)
    requires c.Valid()
  {
    t < |s.clients| &&
    var me := s.clients[t];
    if Fits(me.log, size) then
      && s' == s.(clients := s.clients[t := me.(log := Cut(me.log, size))], grants := s.grants + [Grant(me.log.cur, size, me.chunk)])
    else
      && me.target in s.tails && s.tails[me.target] < c.Chunks()
      && var k := Chunk(me.target, s.tails[me.target]);
      var at := ChunkStart(c, k);
      s' == State(s.tails[me.target := k.index + 1],
                  s.clients[t := ClientState(Cut(Log(at, at, false), size), c.Next(me.target), k)],
                  s.grants + [Grant(at, size, k)])
  }

  ghost predicate Run(c: Config, tr: seq<State>, sched: seq<nat>, sizes: seq<nat>)
    requires c.Valid()
  {
    && |tr| == |sched| + 1 == |sizes| + 1 && Init(c, tr[0])
    && forall i :: 0 <= i < |sched| ==> Step(c, tr[i], sched[i], sizes[i], tr[i + 1])
  }

  // -------------------------------------------------------------- invariants

  ghost predicate Issued(c: Config, s: State, k: Chunk) {
    c.Has(k.home) && k.home in s.tails && 1 <= k.index < s.tails[k.home] <= c.Chunks()
  }

  ghost predicate Within(c: Config, s: State, g: Grant) {
    && Issued(c, s, g.chunk) && g.addr.node == g.chunk.home.node
    && ChunkStart(c, g.chunk).offset <= g.addr.offset
    && g.addr.offset + g.size <= ChunkStart(c, g.chunk).offset + CHUNK
  }

  ghost predicate LogOk(c: Config, s: State, me: ClientState) {
    && c.Has(me.target)
    && (!me.log.empty ==>
          && Issued(c, s, me.chunk) && me.log.head == ChunkStart(c, me.chunk)
          && me.log.cur.node == me.log.head.node
          && me.log.head.offset <= me.log.cur.offset <= me.log.head.offset + CHUNK)
  }

  /** What was cut from the chunk at hand lies before the log's end. */
  ghost predicate Behind(g: Grant, me: ClientState) {
    !me.log.empty && me.chunk == g.chunk ==> g.addr.offset + g.size <= me.log.cur.offset
  }

  predicate Apart(g: Grant, h: Grant) {
    g.addr.node != h.addr.node || g.addr.offset + g.size <= h.addr.offset || h.addr.offset + h.size <= g.addr.offset
  }

  ghost predicate TailsOk(c: Config, s: State) {
    forall h :: c.Has(h) ==> h in s.tails && 1 <= s.tails[h] <= c.Chunks()
  }

  ghost predicate ClientsOk(c: Config, s: State) {
    && (forall t :: 0 <= t < |s.clients| ==> LogOk(c, s, s.clients[t]))
    && forall t, u :: 0 <= t < u < |s.clients| && !s.clients[t].log.empty && !s.clients[u].log.empty ==> s.clients[t].chunk != s.clients[u].chunk
  }

  ghost predicate GrantsOk(c: Config, s: State) {
    && (forall i :: 0 <= i < |s.grants| ==> Within(c, s, s.grants[i]))
    && (forall i, t :: 0 <= i < |s.grants| && 0 <= t < |s.clients| ==> Behind(s.grants[i], s.clients[t]))
    && AllApart(s)
  }

  ghost predicate AllApart(s: State) {
    forall i, j :: 0 <= i < j < |s.grants| ==> Apart(s.grants[i], s.grants[j])
  }

  ghost predicate UpTo(sizes: seq<nat>, limit: nat) {
    forall i :: 0 <= i < |sizes| ==> sizes[i] <= limit
  }

  ghost predicate Inv(c: Config, s: State) { TailsOk(c, s) && ClientsOk(c, s) && GrantsOk(c, s) }

  lemma {:induction false} Times(a: nat, i: nat, j: nat)
    requires i < j
    ensures a * i + a <= a * j
    decreases j
  {
    assert a * j == a * (j - 1) + a;
    if i < j - 1 { Times(a, i, j - 1); }
  }

  lemma ChunksApart(c: Config, k: Chunk, l: Chunk)
    requires c.Valid() && k != l && k.home.node == l.home.node && k.index < c.Chunks() && l.index < c.Chunks()
    ensures || ChunkStart(c, k).offset + CHUNK <= ChunkStart(c, l).offset
            || ChunkStart(c, l).offset + CHUNK <= ChunkStart(c, k).offset
  {
    if k.home.dir < l.home.dir { Times(c.dirSize, k.home.dir, l.home.dir); }
    if l.home.dir < k.home.dir { Times(c.dirSize, l.home.dir, k.home.dir); }
  }

  lemma CutsApart(c: Config, s: State, g: Grant, h: Grant)
    requires c.Valid() && Within(c, s, g) && Within(c, s, h) && g.chunk != h.chunk
    ensures Apart(g, h)
  {
    if g.addr.node == h.addr.node { ChunksApart(c, g.chunk, h.chunk); }
  }

  lemma CutInv(c: Config, s: State, t: nat, size: nat, s': State)
    requires c.Valid() && Inv(c, s) && Step(c, s, t, size, s') && Fits(s.clients[t].log, size)
    ensures Inv(c, s')
  {
    var me, n := s.clients[t], |s.grants|;
    var g := Grant(me.log.cur, size, me.chunk);
    assert LogOk(c, s, me) && Within(c, s, g);
    hide ChunkStart, Apart;
    assert forall i :: 0 <= i < n ==> s'.grants[i] == s.grants[i];
    assert forall u :: 0 <= u < |s.clients| && u != t && !s.clients[u].log.empty ==> s.clients[u].chunk != me.chunk;
    forall i | 0 <= i < n ensures Apart(s.grants[i], g) {
      assert Within(c, s, s.grants[i]) && Behind(s.grants[i], me);
      BehindApart(c, s, s.grants[i], g);
    }
    forall u | 0 <= u < |s.clients| ensures LogOk(c, s', s'.clients[u]) { assert LogOk(c, s, s.clients[u]); }
    forall i, u | 0 <= i <= n && 0 <= u < |s.clients| ensures Behind(s'.grants[i], s'.clients[u]) {
      if i < n { assert Behind(s.grants[i], s.clients[u]); }
    }
  }

  lemma BehindApart(c: Config, s: State, g: Grant, h: Grant)
    requires c.Valid() && Within(c, s, g) && Within(c, s, h)
    requires g.chunk == h.chunk ==> g.addr.offset + g.size <= h.addr.offset
    ensures Apart(g, h)
  {
    if g.chunk != h.chunk { CutsApart(c, s, g, h); }
  }

  lemma ChunkInv(c: Config, s: State, t: nat, size: nat, s': State)
    requires c.Valid() && Inv(c, s) && Step(c, s, t, size, s') && !Fits(s.clients[t].log, size) && size <= CHUNK
    ensures Inv(c, s')
  {
    var me, n := s.clients[t], |s.grants|;
    assert LogOk(c, s, me);
    var k := s'.clients[t].chunk;
    var g := s'.grants[n];
    assert Within(c, s', g);
    hide ChunkStart, Apart;
    assert forall l :: Issued(c, s, l) ==> Issued(c, s', l) && l != k;
    assert forall i :: 0 <= i < n ==> s'.grants[i] == s.grants[i];
    forall u | 0 <= u < |s.clients| ensures LogOk(c, s', s'.clients[u]) && (u != t && !s.clients[u].log.empty ==> s.clients[u].chunk != k) {
      assert LogOk(c, s, s.clients[u]);
    }
    forall i | 0 <= i < n ensures Within(c, s', s.grants[i]) && s.grants[i].chunk != k && Apart(s.grants[i], g) {
      assert Within(c, s, s.grants[i]);
      CutsApart(c, s', s.grants[i], g);
    }
    forall i, u | 0 <= i <= n && 0 <= u < |s.clients| ensures Behind(s'.grants[i], s'.clients[u]) {
      if i < n && u != t { assert Behind(s.grants[i], s.clients[u]); }
    }
  }

  lemma {:induction false} RunInv(c: Config, tr: seq<State>, sched: seq<nat>, sizes: seq<nat>, i: nat)
    requires c.Valid() && Run(c, tr, sched, sizes) && i < |tr| && UpTo(sizes, CHUNK)
    ensures Inv(c, tr[i])
  {
    hide Inv, Step;
    if i == 0 {
      InitInv(c, tr[0]);
    } else {
      RunInv(c, tr, sched, sizes, i - 1);
      StepInv(c, tr[i - 1], sched[i - 1], sizes[i - 1], tr[i]);
    }
  }

  lemma InitInv(c: Config, s: State)
    requires c.Valid() && Init(c, s)
    ensures Inv(c, s)
  {
  }

  lemma StepInv(c: Config, s: State, t: nat, size: nat, s': State)
    requires c.Valid() && Inv(c, s) && Step(c, s, t, size, s') && size <= CHUNK
    ensures Inv(c, s')
  {
    hide Inv;
    if Fits(s.clients[t].log, size) { CutInv(c, s, t, size, s'); } else { ChunkInv(c, s, t, size, s'); }
  }

  // ---------------------------------------------------------------- theorems

  /** Whatever clients ask for, up to a chunk at a time, no two pieces overlap. */
  lemma PiecesApart(c: Config, tr: seq<State>, sched: seq<nat>, sizes: seq<nat>, n: nat)
    requires c.Valid() && Run(c, tr, sched, sizes) && n < |tr| && UpTo(sizes, CHUNK)
    ensures AllApart(tr[n])
  {
    hide Run;
    RunInv(c, tr, sched, sizes, n);
  }

  /** Every piece lies in its directory's memory and outside the directory's
      chunk 0, where the null address and the root pointers are. */
  lemma PiecesInside(c: Config, tr: seq<State>, sched: seq<nat>, sizes: seq<nat>, n: nat, i: nat)
    requires c.Valid() && Run(c, tr, sched, sizes) && n < |tr| && UpTo(sizes, CHUNK)
    requires i < |tr[n].grants|
    ensures var g := tr[n].grants[i];
            var h := g.chunk.home;
            && c.Has(h) && g.addr.node == h.node && c.Start(h).offset + CHUNK <= g.addr.offset
            && g.addr.offset + g.size <= c.Start(h).offset + c.dirSize <= c.dirs * c.dirSize
  {
    hide Run;
    RunInv(c, tr, sched, sizes, n);
    var g := tr[n].grants[i];
    assert Within(c, tr[n], g);
    Times(c.dirSize, g.chunk.home.dir, c.dirs);
  }

  // ------------------------------------------------------- the turn goes round

  /** The bytes that were cut from a chunk. */
  function CutFrom(gs: seq<Grant>, k: Chunk): nat {
    if gs == [] then 0
    else CutFrom(gs[..|gs| - 1], k) + (if gs[|gs| - 1].chunk == k then gs[|gs| - 1].size else 0)
  }

  lemma {:induction false} CutOne(gs: seq<Grant>, g: Grant, k: Chunk)
    ensures CutFrom(gs + [g], k) == CutFrom(gs, k) + (if g.chunk == k then g.size else 0)
  {
    assert (gs + [g])[..|gs|] == gs;
  }

  lemma {:induction false} Untouched(gs: seq<Grant>, k: Chunk)
    requires forall i :: 0 <= i < |gs| ==> gs[i].chunk != k
    ensures CutFrom(gs, k) == 0
  {
    if gs != [] { Untouched(gs[..|gs| - 1], k); }
  }

  /** A log ends behind the bytes cut from its chunk: pieces leave no gaps. */
  ghost predicate Packed(c: Config, s: State) {
    forall t :: 0 <= t < |s.clients| && !s.clients[t].log.empty ==> PackedLog(c, s, s.clients[t])
  }

  ghost predicate PackedLog(c: Config, s: State, me: ClientState) {
    me.log.cur.offset == ChunkStart(c, me.chunk).offset + CutFrom(s.grants, me.chunk)
  }

  lemma PackedStep(c: Config, s: State, t: nat, size: nat, s': State)
    requires c.Valid() && Inv(c, s) && Inv(c, s') && Step(c, s, t, size, s') && size <= CHUNK && Packed(c, s)
    ensures Packed(c, s')
  {
    var g := s'.grants[|s.grants|];
    assert s'.grants == s.grants + [g];
    forall u | 0 <= u < |s'.clients| && !s'.clients[u].log.empty ensures PackedLog(c, s', s'.clients[u]) {
      CutOne(s.grants, g, s'.clients[u].chunk);
      if u == t && !Fits(s.clients[t].log, size) {
        forall i | 0 <= i < |s.grants| ensures s.grants[i].chunk != g.chunk { assert Within(c, s, s.grants[i]); }
        Untouched(s.grants, g.chunk);
      } else {
        assert PackedLog(c, s, s.clients[u]);
      }
    }
  }

  lemma {:induction false} PackedRun(c: Config, tr: seq<State>, sched: seq<nat>, sizes: seq<nat>, n: nat)
    requires c.Valid() && Run(c, tr, sched, sizes) && n < |tr| && UpTo(sizes, CHUNK)
    ensures Packed(c, tr[n])
  {
    if n > 0 {
      PackedRun(c, tr, sched, sizes, n - 1);
      RunInv(c, tr, sched, sizes, n - 1);
      RunInv(c, tr, sched, sizes, n);
      hide Packed, Inv, Step;
      PackedStep(c, tr[n - 1], sched[n - 1], sizes[n - 1], tr[n]);
    }
  }

  /** A client asks for a new chunk only when the rest of its own is too small. */
  lemma RefillsLate(c: Config, tr: seq<State>, sched: seq<nat>, sizes: seq<nat>, n: nat)
    requires c.Valid() && Run(c, tr, sched, sizes) && n + 1 < |tr| && UpTo(sizes, CHUNK)
    requires tr[n + 1].tails != tr[n].tails
    ensures var me := tr[n].clients[sched[n]]; me.log.empty || CutFrom(tr[n].grants, me.chunk) + sizes[n] > CHUNK
  {
    PackedRun(c, tr, sched, sizes, n);
    RunInv(c, tr, sched, sizes, n);
    assert Step(c, tr[n], sched[n], sizes[n], tr[n + 1]);
    assert LogOk(c, tr[n], tr[n].clients[sched[n]]);
  }

  function Directories(c: Config): nat { c.nodes * c.dirs }

  /** Directories numbered in the order of their turns. */
  function Number(c: Config, h: Home): (n: nat) { h.node * c.dirs + h.dir }

  lemma NumberBelow(c: Config, h: Home)
    requires c.Valid() && c.Has(h)
    ensures Number(c, h) < Directories(c)
  {
    Times(c.dirs, h.node, c.nodes);
  }

  lemma NumberIsOwn(c: Config, g: Home, h: Home)
    requires c.Valid() && c.Has(g) && c.Has(h) && Number(c, g) == Number(c, h)
    ensures g == h
  {
    if g.node < h.node { Times(c.dirs, g.node, h.node); }
    if h.node < g.node { Times(c.dirs, h.node, g.node); }
  }

  function After(n: nat, i: nat): nat { if i + 1 == n then 0 else i + 1 }

  lemma NextNumber(c: Config, h: Home)
    requires c.Valid() && c.Has(h)
    ensures c.Has(c.Next(h)) && Number(c, c.Next(h)) == After(Directories(c), Number(c, h))
  {
    var n := c.Next(h);
    NodesNext(h.node, c.nodes);
    NumberBelow(c, n);
    OneMore(h.node, c.dirs);
  }

  lemma NodesNext(i: nat, n: nat)
    requires i < n
    ensures (i + 1) % n == if i + 1 < n then i + 1 else 0
  {
  }

  lemma OneMore(i: nat, d: nat)
    ensures (i + 1) * d == i * d + d
  {
  }

  /** The directories that client t's chunks came from in the first n steps. */
  ghost function Homes(c: Config, tr: seq<State>, sched: seq<nat>, sizes: seq<nat>, t: nat, n: nat): (hs: seq<Home>)
    requires c.Valid() && Run(c, tr, sched, sizes) && n < |tr|
  {
    if n == 0 then []
    else if sched[n - 1] == t && |tr[n].grants| > 0 && t < |tr[n - 1].clients| && !Fits(tr[n - 1].clients[t].log, sizes[n - 1]) then
      Homes(c, tr, sched, sizes, t, n - 1) + [tr[n].grants[|tr[n].grants| - 1].chunk.home]
    else Homes(c, tr, sched, sizes, t, n - 1)
  }

  /** Each refill comes from the directory after that of the last one. */
  lemma {:induction false} HomesInTurn(c: Config, tr: seq<State>, sched: seq<nat>, sizes: seq<nat>, t: nat, n: nat)
    requires c.Valid() && Run(c, tr, sched, sizes) && n < |tr| && t < |tr[0].clients|
    ensures |tr[n].clients| == |tr[0].clients| && c.Has(tr[n].clients[t].target)
    ensures var hs := Homes(c, tr, sched, sizes, t, n);
      && (forall i :: 0 <= i < |hs| ==> c.Has(hs[i]))
      && (forall i, j :: 0 <= i && j == i + 1 < |hs| ==> Number(c, hs[j]) == After(Directories(c), Number(c, hs[i])))
      && (if hs == [] then tr[n].clients[t].target == tr[0].clients[t].target
          else hs[0] == tr[0].clients[t].target && Number(c, tr[n].clients[t].target) == After(Directories(c), Number(c, hs[|hs| - 1])))
  {
    hide Number, After, Fits, Cut, ChunkStart;
    if n > 0 {
      HomesInTurn(c, tr, sched, sizes, t, n - 1);
      assert Step(c, tr[n - 1], sched[n - 1], sizes[n - 1], tr[n]);
      NextNumber(c, tr[n - 1].clients[t].target);
    }
  }

  ghost predicate InTurn(c: Config, hs: seq<Home>, n: nat) {
    && (forall j :: 0 <= j < |hs| ==> c.Has(hs[j]) && Number(c, hs[j]) < n)
    && forall i, j :: 0 <= i && j == i + 1 < |hs| ==> Number(c, hs[j]) == After(n, Number(c, hs[i]))
  }

  lemma {:induction false} TurnsOn(c: Config, hs: seq<Home>, n: nat, i: nat, d: nat)
    requires InTurn(c, hs, n) && i + d < |hs| && d < n
    ensures var p := Number(c, hs[i]); Number(c, hs[i + d]) == if p + d < n then p + d else p + d - n
  {
    hide Number;
    if d > 0 {
      TurnsOn(c, hs, n, i, d - 1);
      assert Number(c, hs[i + d]) == After(n, Number(c, hs[i + d - 1]));
    }
  }

  lemma ComesRound(c: Config, hs: seq<Home>, n: nat, i: nat, h: Home)
    requires c.Valid() && InTurn(c, hs, n) && i + n <= |hs| && c.Has(h) && Number(c, h) < n
    ensures h in hs[i..i + n]
  {
    hide Number;
    var p, q := Number(c, hs[i]), Number(c, h);
    var d := if q >= p then q - p else q + n - p;
    TurnsOn(c, hs, n, i, d);
    NumberIsOwn(c, h, hs[i + d]);
    assert hs[i..i + n][d] == h;
  }

  /** Any as many refills in a row as there are directories come from all of them. */
  lemma RoundRobin(c: Config, tr: seq<State>, sched: seq<nat>, sizes: seq<nat>, t: nat, n: nat, i: nat)
    requires c.Valid() && Run(c, tr, sched, sizes) && n < |tr| && t < |tr[0].clients|
    ensures var hs := Homes(c, tr, sched, sizes, t, n);
      && (forall j :: i < j < |hs| && j < i + Directories(c) ==> hs[i] != hs[j])
      && (i + Directories(c) <= |hs| ==> forall h :: c.Has(h) ==> h in hs[i..i + Directories(c)])
  {
    HomesInTurn(c, tr, sched, sizes, t, n);
    hide Homes, Run, Step, Number, After, Directories;
    RoundsOf(c, Homes(c, tr, sched, sizes, t, n), i);
  }

  lemma RoundsOf(c: Config, hs: seq<Home>, i: nat)
    requires c.Valid() && (forall j :: 0 <= j < |hs| ==> c.Has(hs[j]))
    requires forall j, j' :: 0 <= j && j' == j + 1 < |hs| ==> Number(c, hs[j']) == After(Directories(c), Number(c, hs[j]))
    ensures forall j :: i < j < |hs| && j < i + Directories(c) ==> hs[i] != hs[j]
    ensures i + Directories(c) <= |hs| ==> forall h :: c.Has(h) ==> h in hs[i..i + Directories(c)]
  {
    hide Number, After, Directories;
    var n := Directories(c);
    forall h | c.Has(h) ensures Number(c, h) < n { NumberBelow(c, h); }
    assert InTurn(c, hs, n);
    hide InTurn;
    forall j | i < j < |hs| && j < i + n ensures hs[i] != hs[j] { TurnsOn(c, hs, n, i, j - i); }
    if i + n <= |hs| {
      forall h | c.Has(h) ensures h in hs[i..i + n] { ComesRound(c, hs, n, i, h); }
    }
  }

  /** From p up to, not including, q, going round. */
  predicate InArc(p: nat, q: nat, i: nat) { if p <= q then p <= i < q else i >= p || i < q }

  /** All directories have given out b - 1 chunks, those of the present round one more. */
  ghost predicate Even(c: Config, s: State, p: nat, b: nat) {
    && |s.clients| == 1 && c.Has(s.clients[0].target) && p < Directories(c)
    && forall h :: c.Has(h) ==> h in s.tails && s.tails[h] == b + (if InArc(p, Number(c, s.clients[0].target), Number(c, h)) then 1 else 0)
  }

  lemma EvenStep(c: Config, s: State, t: nat, size: nat, s': State, p: nat, b: nat) returns (b': nat)
    requires c.Valid() && Even(c, s, p, b) && Step(c, s, t, size, s')
    ensures Even(c, s', p, b')
  {
    b' := b;
    if !Fits(s.clients[0].log, size) {
      var g := s.clients[0].target;
      NextNumber(c, g);
      NumberBelow(c, g);
      var q := Number(c, c.Next(g));
      if q == p { b' := b + 1; }
      hide Number;
      forall h | c.Has(h)
        ensures h in s'.tails && s'.tails[h] == b' + (if InArc(p, q, Number(c, h)) then 1 else 0)
      {
        NumberBelow(c, h);
        if h != g && Number(c, h) == Number(c, g) { NumberIsOwn(c, g, h); }
      }
    }
  }

  lemma {:induction false} EvenRun(c: Config, tr: seq<State>, sched: seq<nat>, sizes: seq<nat>, n: nat) returns (b: nat)
    requires c.Valid() && Run(c, tr, sched, sizes) && n < |tr| && |tr[0].clients| == 1
    ensures Even(c, tr[n], Number(c, tr[0].clients[0].target), b)
  {
    if n == 0 {
      b := 1;
      NumberBelow(c, tr[0].clients[0].target);
    } else {
      b := EvenRun(c, tr, sched, sizes, n - 1);
      hide Even, Number;
      b := EvenStep(c, tr[n - 1], sched[n - 1], sizes[n - 1], tr[n], Number(c, tr[0].clients[0].target), b);
    }
  }

  /** A client that is alone finds its next directory used up only when all of
      them are: no memory stays behind. */
  lemma AllUsedUp(c: Config, tr: seq<State>, sched: seq<nat>, sizes: seq<nat>, n: nat)
    requires c.Valid() && Run(c, tr, sched, sizes) && n < |tr| && |tr[0].clients| == 1
    ensures |tr[n].clients| == 1 && tr[n].clients[0].target in tr[n].tails
    ensures tr[n].tails[tr[n].clients[0].target] == c.Chunks() ==> forall h :: c.Has(h) ==> h in tr[n].tails && tr[n].tails[h] >= c.Chunks()
  {
    hide Run, Number;
    var b := EvenRun(c, tr, sched, sizes, n);
  }

  ghost predicate Safe(c: Config, limit: nat)
    requires c.Valid()
  {
    forall tr, sched, sizes, n: nat :: Run(c, tr, sched, sizes) && UpTo(sizes, limit) && n < |tr| ==> AllApart(tr[n])
  }

  /** A request larger than a chunk gets a whole chunk without using it up; the
      next request gets it again. */
  lemma TooLarge(c: Config, size: nat) returns (tr: seq<State>, sched: seq<nat>, sizes: seq<nat>)
    requires c.Valid() && c.Chunks() > 1 && size > CHUNK
    ensures Run(c, tr, sched, sizes) && sizes == [size, 1] && |tr[2].grants| == 2 && !Apart(tr[2].grants[0], tr[2].grants[1])
  {
    var h := Home(0, 0);
    var k := Chunk(h, 1);
    var at := ChunkStart(c, k);
    var tails := map n: nat, d: nat | n < c.nodes && d < c.dirs :: Home(n, d) := 1;
    assert forall g :: c.Has(g) ==> g == Home(g.node, g.dir) && g in tails && tails[g] == 1;
    var nothing := Log(Address(0, 0), Address(0, 0), true);
    var s0 := State(tails, [ClientState(nothing, h, k)], []);
    var me := ClientState(Log(at, at, false), c.Next(h), k);
    var s1 := State(tails[h := 2], [me], [Grant(at, size, k)]);
    var s2 := State(tails[h := 2], [me.(log := Cut(me.log, 1))], [Grant(at, size, k), Grant(at, 1, k)]);
    assert Step(c, s0, 0, size, s1) by { assert c.Has(h); assert s0.clients[0 := me] == [me]; }
    assert Step(c, s1, 0, 1, s2) by { assert s1.clients[0 := s2.clients[0]] == s2.clients; }
    tr, sched, sizes := [s0, s1, s2], [0, 0], [size, 1];
  }

  /** The exact condition on the size of requests. */
  lemma ExactLimit(c: Config, limit: nat)
    requires c.Valid() && c.Chunks() > 1
    ensures Safe(c, limit) <==> limit <= CHUNK
  {
    if limit <= CHUNK {
      forall tr, sched, sizes, n: nat | Run(c, tr, sched, sizes) && UpTo(sizes, limit) && n < |tr| ensures AllApart(tr[n]) {
        PiecesApart(c, tr, sched, sizes, n);
      }
    } else {
      var tr, sched, sizes := TooLarge(c, limit);
      assert UpTo(sizes, limit);
    }
  }
}
