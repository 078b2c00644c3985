/** The cohort locks C-BO-MCS, C-TKT-TKT and C-PTL-TKT.

    A thread takes its cohort's local lock, then, unless its cohort already has
    it, the top lock.  A holder whose cohort has another thread waiting passes
    the local lock with the top lock, silently, up to BATCH_COUNT times.

    The local lock of C-BO-MCS is taken as a queue with atomic operations; those
    of the others are ticket counters.  `line`, `topLine`, `tgrant` under slots,
    and `passes` are auxiliary. */
module Cohort {
  import opened Options

  const BATCH_COUNT: int := 100

  /** The top lock: test-and-set, tickets, or tickets granted through slots. */
  datatype Top = Tas | Tickets | Slots(n: nat)

  /** The local locks are ticket locks except under Tas. */
  datatype Config = Config(top: Top, cohorts: nat)

  datatype Pc =
    | Idle
    | Queued(c: nat, k: nat, trying: bool)
    | Entered(c: nat, trying: bool)     // has the local lock
    | NeedTop(c: nat, trying: bool)
    | PeekSlot(c: nat, k: nat)          // a trylock of the slots only looks first
    | PeekReq(c: nat, v: nat)
    | TopWait(c: nat, k: nat)
    | SetHome(c: nat, k: nat)           // has the top lock
    | Crit(c: nat)
    | Look(c: nat)                      // unlock, with the cohort top_home names
    | PassLocal(c: nat)
    | RelTop(c: nat)
    | RelLocal(c: nat)
    | Undo(c: nat)                      // a trylock gives the local lock back

  datatype Local = Local(request: nat, grant: nat, topGrant: bool, batch: int, line: seq<nat>, passes: nat)

  datatype State = State(local: seq<Local>, locked: bool, treq: nat, tgrant: nat, slots: seq<nat>, ownerTicket: nat,
                         home: Option<nat>, topLine: seq<nat>, pcs: seq<Pc>)

  ghost predicate Shape(g: Config, s: State) {
    |s.local| == g.cohorts && (g.top.Slots? ==> |s.slots| == g.top.n > 0)
  }

  function Moved(s: State, t: nat, pc: Pc): State
    requires t < |s.pcs|
  {
    s.(pcs := s.pcs[t := pc])
  }

  function SetLocal(s: State, c: nat, d: Local): State
    requires c < |s.local|
  {
    s.(local := s.local[c := d])
  }

  // ------------------------------------------------------------- the steps

  /** Draw a local ticket, or exchange the tail; a trylock only if that takes
      the lock at once. */
  ghost predicate Join(g: Config, s: State, t: nat, s': State)
    requires Shape(g, s) && t < |s.pcs|
  {
    && s.pcs[t].Idle?
    && exists c: nat, trying: bool :: c < g.cohorts && JoinAs(s, t, c, trying, s')
  }

  ghost predicate JoinAs(s: State, t: nat, c: nat, trying: bool, s': State)
    requires c < |s.local| && t < |s.pcs|
  {
    var d := s.local[c];
    && (trying ==> d.request == d.grant && d.line == [])
    && s' == SetLocal(Moved(s, t, Queued(c, d.request, trying)), c, d.(request := d.request + 1, line := d.line + [t]))
  }

  ghost predicate Enter(g: Config, s: State, t: nat, s': State)
    requires Shape(g, s) && t < |s.pcs|
  {
    && s.pcs[t].Queued? && s.pcs[t].c < |s.local|
    && var c, d := s.pcs[t].c, s.local[s.pcs[t].c];
       (if g.top.Tas? then d.line != [] && d.line[0] == t else d.grant == s.pcs[t].k)
       && s' == Moved(s, t, Entered(c, s.pcs[t].trying))
  }

  ghost predicate CheckGrant(g: Config, s: State, t: nat, s': State)
    requires Shape(g, s) && t < |s.pcs|
  {
    && s.pcs[t].Entered? && s.pcs[t].c < |s.local|
    && var c, d := s.pcs[t].c, s.local[s.pcs[t].c];
       s' == if d.topGrant then SetLocal(Moved(s, t, Crit(c)), c, d.(topGrant := false))
             else Moved(s, t, NeedTop(c, s.pcs[t].trying))
  }

  /** The top lock: a blocking test-and-set that fails is tried again; a trylock
      of the slots looks first. */
  ghost predicate AskTop(g: Config, s: State, t: nat, s': State)
    requires Shape(g, s) && t < |s.pcs|
  {
    && s.pcs[t].NeedTop?
    && var c, trying := s.pcs[t].c, s.pcs[t].trying;
       match g.top
       case Tas =>
         if !s.locked then s' == Moved(s, t, SetHome(c, 0)).(locked := true, topLine := [c])
         else trying && s' == Moved(s, t, Undo(c))
       case Tickets =>
         if !trying then s' == Moved(s, t, TopWait(c, s.treq)).(treq := s.treq + 1, topLine := s.topLine + [c])
         else if s.treq == s.tgrant then s' == Moved(s, t, SetHome(c, s.treq)).(treq := s.treq + 1, topLine := s.topLine + [c])
         else s' == Moved(s, t, Undo(c))
       case Slots(_) =>
         if trying then s' == Moved(s, t, PeekSlot(c, s.treq))
         else s' == Moved(s, t, TopWait(c, s.treq)).(treq := s.treq + 1, topLine := s.topLine + [c])
  }

  /** Read the slot of the next ticket, and then the next ticket again: if they
      agree, take the lock for good. */
  ghost predicate Peek(g: Config, s: State, t: nat, s': State)
    requires Shape(g, s) && t < |s.pcs|
  {
    && g.top.Slots? && (s.pcs[t].PeekSlot? || s.pcs[t].PeekReq?)
    && var pc := s.pcs[t];
       s' == Moved(s, t, if pc.PeekSlot? then PeekReq(pc.c, s.slots[pc.k % g.top.n])
                         else if pc.v != s.treq then Undo(pc.c) else NeedTop(pc.c, false))
  }

  ghost predicate TopTurn(g: Config, s: State, t: nat, s': State)
    requires Shape(g, s) && t < |s.pcs|
  {
    && s.pcs[t].TopWait?
    && (if g.top.Slots? then s.slots[s.pcs[t].k % g.top.n] == s.pcs[t].k else s.tgrant == s.pcs[t].k)
    && s' == Moved(s, t, SetHome(s.pcs[t].c, s.pcs[t].k))
  }

  ghost predicate MarkHome(g: Config, s: State, t: nat, s': State)
    requires Shape(g, s) && t < |s.pcs|
  {
    && s.pcs[t].SetHome? && s.pcs[t].c < |s.local|
    && var c := s.pcs[t].c;
       s' == SetLocal(Moved(s, t, Crit(c)), c, s.local[c].(passes := 0)).(home := Some(c), ownerTicket := s.pcs[t].k)
  }

  ghost predicate BeginUnlock(g: Config, s: State, t: nat, s': State)
    requires Shape(g, s) && t < |s.pcs|
  {
    s.pcs[t].Crit? && s.home.Some? && s' == Moved(s, t, Look(s.home.value))
  }

  /** Is anybody there?  If so, and the batch lasts, leave the top lock to him. */
  ghost predicate Detect(g: Config, s: State, t: nat, s': State)
    requires Shape(g, s) && t < |s.pcs|
  {
    && s.pcs[t].Look? && s.pcs[t].c < |s.local|
    && var c, d := s.pcs[t].c, s.local[s.pcs[t].c];
       var there := if g.top.Tas? then d.line != [] && d.line[|d.line| - 1] != t else d.request != d.grant + 1;
       var rel := if g.top.Tas? then RelLocal(c) else RelTop(c);
       s' == if !there then Moved(s, t, rel)
             else if d.batch - 1 >= 0 then
               SetLocal(Moved(s, t, PassLocal(c)), c, d.(batch := d.batch - 1, topGrant := true, passes := d.passes + 1))
             else SetLocal(Moved(s, t, rel), c, d.(batch := BATCH_COUNT))
  }

  function Released(d: Local): Local {
    d.(grant := d.grant + 1, line := if d.line == [] then [] else d.line[1..])
  }

  /** The local lock goes to the next in line, if any. */
  ghost predicate FreeLocal(g: Config, s: State, t: nat, s': State)
    requires Shape(g, s) && t < |s.pcs|
  {
    && (s.pcs[t].PassLocal? || s.pcs[t].RelLocal? || s.pcs[t].Undo?) && s.pcs[t].c < |s.local|
    && var c := s.pcs[t].c;
       s' == SetLocal(Moved(s, t, if s.pcs[t].RelLocal? && g.top.Tas? then RelTop(c) else Idle), c, Released(s.local[c]))
  }

  ghost predicate FreeTop(g: Config, s: State, t: nat, s': State)
    requires Shape(g, s) && t < |s.pcs|
  {
    && s.pcs[t].RelTop?
    && var c := s.pcs[t].c;
       var rest := if s.topLine == [] then [] else s.topLine[1..];
       match g.top
       case Tas => s' == Moved(s, t, Idle).(locked := false, topLine := [])
       case Tickets => s' == Moved(s, t, RelLocal(c)).(tgrant := s.tgrant + 1, topLine := rest)
       case Slots(n) =>
         s' == Moved(s, t, RelLocal(c)).(slots := s.slots[(s.ownerTicket + 1) % n := s.ownerTicket + 1], tgrant := s.tgrant + 1, topLine := rest)
  }

  ghost predicate Step(g: Config, s: State, t: nat, s': State)
    requires Shape(g, s)
  {
    t < |s.pcs| &&
    match s.pcs[t]
    case Idle => Join(g, s, t, s')
    case Queued(_, _, _) => Enter(g, s, t, s')
    case Entered(_, _) => CheckGrant(g, s, t, s')
    case NeedTop(_, _) => AskTop(g, s, t, s')
    case PeekSlot(_, _) => Peek(g, s, t, s')
    case PeekReq(_, _) => Peek(g, s, t, s')
    case TopWait(_, _) => TopTurn(g, s, t, s')
    case SetHome(_, _) => MarkHome(g, s, t, s')
    case Crit(_) => BeginUnlock(g, s, t, s')
    case Look(_) => Detect(g, s, t, s')
    case PassLocal(_) => FreeLocal(g, s, t, s')
    case RelTop(_) => FreeTop(g, s, t, s')
    case RelLocal(_) => FreeLocal(g, s, t, s')
    case Undo(_) => FreeLocal(g, s, t, s')
  }

  ghost predicate Init(g: Config, s: State) {
    && Shape(g, s) && !s.locked && s.treq == s.tgrant == s.ownerTicket == 0 && s.home == None && s.topLine == []
    && (forall c :: 0 <= c < g.cohorts ==> s.local[c] == Local(0, 0, false, 0, [], 0))
    && (forall i :: 0 <= i < |s.slots| ==> s.slots[i] == 0)
    && forall t :: 0 <= t < |s.pcs| ==> s.pcs[t] == Idle
  }

  ghost predicate Run(g: Config, tr: seq<State>, sched: seq<nat>) {
    && |tr| == |sched| + 1 && (forall i :: 0 <= i < |tr| ==> Shape(g, tr[i]))
    && Init(g, tr[0]) && forall i :: 0 <= i < |sched| ==> Step(g, tr[i], sched[i], tr[i + 1])
  }

  // ------------------------------------------------------------- invariants

  /** The cohort whose local lock a thread holds or waits for. */
  function InLine(g: Config, pc: Pc): Option<nat> {
    match pc
    case Idle => None
    case RelTop(c) => if g.top.Tas? then None else Some(c)
    case Queued(c, _, _) => Some(c)
    case Entered(c, _) => Some(c)
    case NeedTop(c, _) => Some(c)
    case PeekSlot(c, _) => Some(c)
    case PeekReq(c, _) => Some(c)
    case TopWait(c, _) => Some(c)
    case SetHome(c, _) => Some(c)
    case Crit(c) => Some(c)
    case Look(c) => Some(c)
    case PassLocal(c) => Some(c)
    case RelLocal(c) => Some(c)
    case Undo(c) => Some(c)
  }

  /** The local lock: a line of threads, the first of which may be inside. */
  ghost predicate LineOk(g: Config, s: State, c: nat)
    requires c < |s.local|
  {
    var d := s.local[c];
    && d.request == d.grant + |d.line|
    && (forall i, j :: 0 <= i < j < |d.line| ==> d.line[i] != d.line[j])
    && (forall i :: 0 <= i < |d.line| ==> d.line[i] < |s.pcs| && InLine(g, s.pcs[d.line[i]]) == Some(c))
    && (forall i :: 0 <= i < |d.line| && s.pcs[d.line[i]].Queued? ==> s.pcs[d.line[i]].k == d.grant + i)
    && (forall i :: 1 <= i < |d.line| ==> s.pcs[d.line[i]].Queued?)
  }

  ghost predicate ThreadOk(g: Config, s: State, t: nat)
    requires Shape(g, s) && t < |s.pcs|
  {
    var pc := s.pcs[t];
    && (InLine(g, pc).Some? ==> InLine(g, pc).value < g.cohorts && t in s.local[InLine(g, pc).value].line)
    && (pc.RelTop? ==> pc.c < g.cohorts)
  }

  function HeadPc(s: State, c: nat): Pc
    requires c < |s.local|
  {
    var q := s.local[c].line;
    if q != [] && q[0] < |s.pcs| then s.pcs[q[0]] else Idle
  }

  /** The cohort has the top lock: its head does, or is to receive it. */
  predicate HasTop(g: Config, s: State, c: nat)
    requires c < |s.local|
  {
    var pc := HeadPc(s, c);
    || s.local[c].topGrant || pc.SetHome? || pc.Crit? || pc.Look? || pc.PassLocal?
    || pc.RelTop? || (g.top.Tas? && pc.RelLocal?)
  }

  /** Under test-and-set, the thread that has left its cohort with the top lock. */
  ghost predicate Leaving(g: Config, s: State, c: nat) {
    g.top.Tas? && exists t :: 0 <= t < |s.pcs| && s.pcs[t] == RelTop(c)
  }

  ghost predicate CohortOk(g: Config, s: State, c: nat)
    requires Shape(g, s) && c < |s.local|
  {
    var d, pc := s.local[c], HeadPc(s, c);
    && (HasTop(g, s, c) || Leaving(g, s, c) || (pc.TopWait? && pc.k == s.tgrant) <==> s.topLine != [] && s.topLine[0] == c)
    && !(HasTop(g, s, c) && Leaving(g, s, c))
    && (d.topGrant ==> (pc.PassLocal? && |d.line| > 1) || pc.Queued? || pc.Entered?)
    && (pc.PassLocal? ==> d.topGrant)
    && (pc.PeekSlot? || pc.PeekReq? ==> g.top.Slots?)
    && 0 <= d.batch <= BATCH_COUNT
    && (d.topGrant || pc.Crit? || pc.Look? || pc.PassLocal? ==> s.home == Some(c) && d.passes + d.batch <= BATCH_COUNT)
    && (pc.RelTop? ==> s.home == Some(c))
    && (pc.TopWait? ==> !g.top.Tas? && s.tgrant <= pc.k < s.treq && pc.k - s.tgrant < |s.topLine| && s.topLine[pc.k - s.tgrant] == c)
    && (pc.SetHome? && !g.top.Tas? ==> pc.k == s.tgrant)
    && ((d.topGrant || pc.Crit? || pc.Look? || pc.PassLocal? || pc.RelTop?) && g.top.Slots? ==> s.ownerTicket == s.tgrant)
  }

  ghost predicate TopOk(g: Config, s: State)
    requires Shape(g, s)
  {
    && (forall i, j :: 0 <= i < j < |s.topLine| ==> s.topLine[i] != s.topLine[j])
    && (forall i :: 0 <= i < |s.topLine| ==> s.topLine[i] < g.cohorts)
    && (forall i :: 1 <= i < |s.topLine| ==> HeadPc(s, s.topLine[i]).TopWait?)
    && (if g.top.Tas? then |s.topLine| <= 1 && (s.locked <==> s.topLine != [])
        else s.treq == s.tgrant + |s.topLine| && (s.topLine != [] ==> HeadPc(s, s.topLine[0]).TopWait? || HasTop(g, s, s.topLine[0])))
    && (forall t, u :: 0 <= t < |s.pcs| && 0 <= u < |s.pcs| && g.top.Tas? && s.pcs[t].RelTop? && s.pcs[u].RelTop? ==> t == u)
    && (g.top.Slots? ==> s.slots[s.tgrant % g.top.n] == s.tgrant && forall i :: 0 <= i < |s.slots| ==> s.slots[i] <= s.tgrant)
  }

  ghost predicate Inv(g: Config, s: State) {
    && Shape(g, s) && TopOk(g, s)
    && (forall t :: 0 <= t < |s.pcs| ==> ThreadOk(g, s, t))
    && forall c :: 0 <= c < g.cohorts ==> LineOk(g, s, c) && CohortOk(g, s, c)
  }

  // ---------------------------------------------------------------- frames

  lemma Mine(g: Config, s: State, t: nat)
    requires Inv(g, s) && t < |s.pcs| && InLine(g, s.pcs[t]).Some? && !s.pcs[t].Queued?
    ensures var c := InLine(g, s.pcs[t]).value;
      c < g.cohorts && LineOk(g, s, c) && CohortOk(g, s, c) && s.local[c].line != [] && s.local[c].line[0] == t && HeadPc(s, c) == s.pcs[t]
  {
    assert ThreadOk(g, s, t);
    var c := InLine(g, s.pcs[t]).value;
    var i :| 0 <= i < |s.local[c].line| && s.local[c].line[i] == t;
  }

  lemma OtherLine(g: Config, s: State, t: nat, s': State, c: nat)
    requires Shape(g, s) && Shape(g, s') && t < |s.pcs| == |s'.pcs| && c < g.cohorts && LineOk(g, s, c)
    requires s'.local[c] == s.local[c] && InLine(g, s.pcs[t]) != Some(c)
    requires forall u :: 0 <= u < |s.pcs| && u != t ==> s'.pcs[u] == s.pcs[u]
    ensures LineOk(g, s', c) && HeadPc(s', c) == HeadPc(s, c) && HasTop(g, s', c) == HasTop(g, s, c)
  {
  }

  /** The head of a line moves on without leaving it. */
  lemma OwnLine(g: Config, s: State, t: nat, s': State, c: nat)
    requires Shape(g, s) && Shape(g, s') && t < |s.pcs| == |s'.pcs| && c < g.cohorts && LineOk(g, s, c)
    requires s.local[c].line != [] && s.local[c].line[0] == t && InLine(g, s'.pcs[t]) == Some(c) && !s'.pcs[t].Queued?
    requires s'.local[c].line == s.local[c].line && s'.local[c].request == s.local[c].request && s'.local[c].grant == s.local[c].grant
    requires forall u :: 0 <= u < |s.pcs| && u != t ==> s'.pcs[u] == s.pcs[u]
    ensures LineOk(g, s', c) && HeadPc(s', c) == s'.pcs[t]
  {
  }

  lemma ThreadsKept(g: Config, s: State, t: nat, s': State)
    requires Shape(g, s) && Shape(g, s') && t < |s.pcs| == |s'.pcs| && (forall u :: 0 <= u < |s.pcs| ==> ThreadOk(g, s, u))
    requires forall u :: 0 <= u < |s.pcs| && u != t ==> s'.pcs[u] == s.pcs[u]
    requires forall c :: 0 <= c < g.cohorts ==> s'.local[c].line == s.local[c].line
    requires InLine(g, s'.pcs[t]) == InLine(g, s.pcs[t]) && (s'.pcs[t].RelTop? ==> InLine(g, s'.pcs[t]).Some?)
    ensures forall u :: 0 <= u < |s'.pcs| ==> ThreadOk(g, s', u)
  {
    forall u | 0 <= u < |s'.pcs| ensures ThreadOk(g, s', u) { assert ThreadOk(g, s, u); }
  }

  lemma LeavingKept(g: Config, s: State, t: nat, s': State, c: nat)
    requires t < |s.pcs| == |s'.pcs| && (g.top.Tas? ==> !s.pcs[t].RelTop? && !s'.pcs[t].RelTop?)
    requires forall u :: 0 <= u < |s.pcs| && u != t ==> s'.pcs[u] == s.pcs[u]
    ensures Leaving(g, s', c) <==> Leaving(g, s, c)
  {
  }

  /** A head that keeps its place and the top lock as it is. */
  lemma HeadMoves(g: Config, s: State, t: nat, s': State, c: nat)
    requires Inv(g, s) && Shape(g, s') && t < |s.pcs| == |s'.pcs| && c < g.cohorts && InLine(g, s.pcs[t]) == Some(c)
    requires s.local[c].line != [] && s.local[c].line[0] == t && InLine(g, s'.pcs[t]) == Some(c) && !s'.pcs[t].Queued?
    requires var d, d' := s.local[c], s'.local[c]; d'.line == d.line && d'.request == d.request && d'.grant == d.grant
    requires forall u :: 0 <= u < |s.pcs| && u != t ==> s'.pcs[u] == s.pcs[u]
    requires forall c' :: 0 <= c' < g.cohorts && c' != c ==> s'.local[c'] == s.local[c']
    requires s'.topLine == s.topLine && s'.locked == s.locked && s'.treq == s.treq && s'.tgrant == s.tgrant && s'.slots == s.slots
    requires g.top.Tas? ==> !s.pcs[t].RelTop? && !s'.pcs[t].RelTop?
    requires HasTop(g, s', c) == HasTop(g, s, c) || (s.pcs[t].TopWait? && s'.pcs[t].SetHome?)
    requires s.pcs[t].TopWait? ==> s'.pcs[t].TopWait? || s'.pcs[t].SetHome?
    requires (s'.home == s.home && s'.ownerTicket == s.ownerTicket) || HasTop(g, s, c)
    requires CohortOk(g, s', c)
    ensures Inv(g, s')
  {
    ThreadsKept(g, s, t, s');
    forall c' | 0 <= c' < g.cohorts ensures LineOk(g, s', c') && CohortOk(g, s', c') {
      LeavingKept(g, s, t, s', c');
      if c' == c { OwnLine(g, s, t, s', c); } else { OtherLine(g, s, t, s', c'); OtherCohort(g, s, t, s', c, c'); }
    }
    forall c' | 0 <= c' < g.cohorts && c' != c ensures HeadPc(s', c') == HeadPc(s, c') && HasTop(g, s', c') == HasTop(g, s, c') {
      OtherLine(g, s, t, s', c');
    }
    HeadMovesTop(g, s, t, s', c);
  }

  lemma OtherCohort(g: Config, s: State, t: nat, s': State, c: nat, c': nat)
    requires Shape(g, s) && Shape(g, s') && c' < g.cohorts && c < g.cohorts && c' != c && CohortOk(g, s, c') && CohortOk(g, s, c)
    requires s'.local[c'] == s.local[c'] && HeadPc(s', c') == HeadPc(s, c') && (Leaving(g, s', c') <==> Leaving(g, s, c'))
    requires s'.topLine == s.topLine && s'.treq == s.treq && s'.tgrant == s.tgrant
    requires (s'.home == s.home && s'.ownerTicket == s.ownerTicket) || HasTop(g, s, c)
    ensures CohortOk(g, s', c')
  {
    hide Leaving;
  }

  lemma HeadMovesTop(g: Config, s: State, t: nat, s': State, c: nat)
    requires Inv(g, s) && Shape(g, s') && t < |s.pcs| == |s'.pcs| && c < g.cohorts
    requires s'.topLine == s.topLine && s'.locked == s.locked && s'.treq == s.treq && s'.tgrant == s.tgrant && s'.slots == s.slots
    requires forall u :: 0 <= u < |s.pcs| && u != t ==> s'.pcs[u] == s.pcs[u]
    requires g.top.Tas? ==> !s.pcs[t].RelTop? && !s'.pcs[t].RelTop?
    requires forall c' :: 0 <= c' < g.cohorts && c' != c ==> HeadPc(s', c') == HeadPc(s, c') && HasTop(g, s', c') == HasTop(g, s, c')
    requires HeadPc(s', c) == s'.pcs[t] && HeadPc(s, c) == s.pcs[t]
    requires HasTop(g, s', c) == HasTop(g, s, c) || (s.pcs[t].TopWait? && s'.pcs[t].SetHome?)
    requires s.pcs[t].TopWait? ==> s'.pcs[t].TopWait? || s'.pcs[t].SetHome?
    requires CohortOk(g, s', c)
    ensures TopOk(g, s')
  {
    forall i | 1 <= i < |s'.topLine| ensures HeadPc(s', s'.topLine[i]).TopWait? {
      if s.topLine[i] == c { assert s.topLine[0] != c; }
    }
  }

  // ------------------------------------------------------------ every step

  lemma EnterInv(g: Config, s: State, t: nat, s': State)
    requires Inv(g, s) && t < |s.pcs| && Enter(g, s, t, s')
    ensures Inv(g, s')
  {
    var c := s.pcs[t].c;
    assert ThreadOk(g, s, t);
    var i :| 0 <= i < |s.local[c].line| && s.local[c].line[i] == t;
    assert LineOk(g, s, c) && CohortOk(g, s, c);
    assert i == 0;
    hide Leaving, TopOk;
    LeavingKept(g, s, t, s', c);
    assert HeadPc(s', c) == s'.pcs[t];
    HeadMoves(g, s, t, s', c);
  }

  lemma CheckGrantInv(g: Config, s: State, t: nat, s': State)
    requires Inv(g, s) && t < |s.pcs| && CheckGrant(g, s, t, s')
    ensures Inv(g, s')
  {
    var c := s.pcs[t].c;
    Mine(g, s, t);
    hide Leaving, TopOk;
    LeavingKept(g, s, t, s', c);
    assert HeadPc(s', c) == s'.pcs[t];
    HeadMoves(g, s, t, s', c);
  }

  /** A waiting ticket is being served only if it heads the line: under slots no
      later ticket finds its own number. */
  lemma TurnIsFirst(g: Config, s: State, t: nat)
    requires Inv(g, s) && t < |s.pcs| && s.pcs[t].TopWait?
    ensures !g.top.Tas?
    ensures (if g.top.Slots? then s.slots[s.pcs[t].k % g.top.n] == s.pcs[t].k else s.tgrant == s.pcs[t].k) <==> s.pcs[t].k == s.tgrant
    ensures s.pcs[t].k == s.tgrant ==> s.topLine != [] && s.topLine[0] == s.pcs[t].c
  {
    Mine(g, s, t);
    if g.top.Slots? { var i := s.pcs[t].k % g.top.n; assert s.slots[i] <= s.tgrant; }
  }

  lemma TopTurnInv(g: Config, s: State, t: nat, s': State)
    requires Inv(g, s) && t < |s.pcs| && TopTurn(g, s, t, s')
    ensures Inv(g, s')
  {
    var c := s.pcs[t].c;
    Mine(g, s, t);
    TurnIsFirst(g, s, t);
    hide Leaving, TopOk;
    LeavingKept(g, s, t, s', c);
    assert HeadPc(s', c) == s'.pcs[t];
    HeadMoves(g, s, t, s', c);
  }

  lemma MarkHomeInv(g: Config, s: State, t: nat, s': State)
    requires Inv(g, s) && t < |s.pcs| && MarkHome(g, s, t, s')
    ensures Inv(g, s')
  {
    var c := s.pcs[t].c;
    Mine(g, s, t);
    hide Leaving, TopOk;
    LeavingKept(g, s, t, s', c);
    assert HeadPc(s', c) == s'.pcs[t];
    HeadMoves(g, s, t, s', c);
  }

  lemma BeginUnlockInv(g: Config, s: State, t: nat, s': State)
    requires Inv(g, s) && t < |s.pcs| && BeginUnlock(g, s, t, s')
    ensures Inv(g, s')
  {
    var c := s.pcs[t].c;
    Mine(g, s, t);
    hide Leaving, TopOk;
    LeavingKept(g, s, t, s', c);
    assert HeadPc(s', c) == s'.pcs[t];
    HeadMoves(g, s, t, s', c);
  }

  lemma DetectInv(g: Config, s: State, t: nat, s': State)
    requires Inv(g, s) && t < |s.pcs| && Detect(g, s, t, s')
    ensures Inv(g, s')
  {
    var c := s.pcs[t].c;
    Mine(g, s, t);
    hide Leaving, TopOk;
    LeavingKept(g, s, t, s', c);
    assert HeadPc(s', c) == s'.pcs[t];
    HeadMoves(g, s, t, s', c);
  }

  lemma AskTopInv(g: Config, s: State, t: nat, s': State)
    requires Inv(g, s) && t < |s.pcs| && AskTop(g, s, t, s')
    ensures Inv(g, s')
  {
    var c := s.pcs[t].c;
    Mine(g, s, t);
    if Takes(s'.pcs[t]) {
      TakeTop(g, s, t, s', c);
    } else {
      hide Leaving, TopOk;
      LeavingKept(g, s, t, s', c);
      assert HeadPc(s', c) == s'.pcs[t];
      HeadMoves(g, s, t, s', c);
    }
  }

  predicate Takes(pc: Pc) { pc.TopWait? || pc.SetHome? }

  lemma PeekInv(g: Config, s: State, t: nat, s': State)
    requires Inv(g, s) && t < |s.pcs| && Peek(g, s, t, s')
    ensures Inv(g, s')
  {
    var c := s.pcs[t].c;
    Mine(g, s, t);
    hide Leaving, TopOk;
    LeavingKept(g, s, t, s', c);
    assert HeadPc(s', c) == s'.pcs[t];
    HeadMoves(g, s, t, s', c);
  }

  lemma TakeTop(g: Config, s: State, t: nat, s': State, c: nat)
    requires Inv(g, s) && t < |s.pcs| && AskTop(g, s, t, s') && Takes(s'.pcs[t]) && c == s.pcs[t].c
    requires c < g.cohorts && s.local[c].line != [] && s.local[c].line[0] == t && HeadPc(s, c) == s.pcs[t] && CohortOk(g, s, c)
    ensures Inv(g, s')
  {
    ThreadsKept(g, s, t, s');
    NotInTopLine(g, s, t, c);
    forall c' | 0 <= c' < g.cohorts ensures LineOk(g, s', c') && CohortOk(g, s', c') {
      LeavingKept(g, s, t, s', c');
      if c' == c {
        OwnLine(g, s, t, s', c);
        TakeTopOwn(g, s, t, s', c);
      } else {
        OtherLine(g, s, t, s', c');
        TakeTopOther(g, s, t, s', c, c');
      }
    }
    TakeTopLine(g, s, t, s', c);
  }

  /** A cohort whose head is about to ask for the top lock is not in its line. */
  lemma NotInTopLine(g: Config, s: State, t: nat, c: nat)
    requires Inv(g, s) && t < |s.pcs| && c < g.cohorts && s.pcs[t].NeedTop? && HeadPc(s, c) == s.pcs[t]
    ensures !g.top.Tas? || !s.locked ==> forall i :: 0 <= i < |s.topLine| ==> s.topLine[i] != c
    ensures !g.top.Tas? ==> !Leaving(g, s, c)
  {
    assert CohortOk(g, s, c);
  }

  lemma TakeTopOwn(g: Config, s: State, t: nat, s': State, c: nat)
    requires Inv(g, s) && t < |s.pcs| && AskTop(g, s, t, s') && Takes(s'.pcs[t]) && c == s.pcs[t].c && c < g.cohorts
    requires HeadPc(s, c) == s.pcs[t] && HeadPc(s', c) == s'.pcs[t] && CohortOk(g, s, c) && (Leaving(g, s', c) <==> Leaving(g, s, c))
    requires !g.top.Tas? || !s.locked ==> forall i :: 0 <= i < |s.topLine| ==> s.topLine[i] != c
    ensures CohortOk(g, s', c)
  {
    hide Leaving, LineOk, ThreadOk;
    if s.topLine != [] { assert (s.topLine + [c])[0] == s.topLine[0]; }
  }

  lemma TakeTopOther(g: Config, s: State, t: nat, s': State, c: nat, c': nat)
    requires Inv(g, s) && t < |s.pcs| && AskTop(g, s, t, s') && Takes(s'.pcs[t]) && c == s.pcs[t].c && c < g.cohorts && c' < g.cohorts && c' != c
    requires HeadPc(s', c') == HeadPc(s, c') && HasTop(g, s', c') == HasTop(g, s, c') && (Leaving(g, s', c') <==> Leaving(g, s, c'))
    ensures CohortOk(g, s', c')
  {
    assert CohortOk(g, s, c');
    hide Leaving, LineOk, ThreadOk;
    if s.topLine != [] { assert (s.topLine + [c])[0] == s.topLine[0]; }
  }

  lemma TakeTopLine(g: Config, s: State, t: nat, s': State, c: nat)
    requires Inv(g, s) && t < |s.pcs| && AskTop(g, s, t, s') && Takes(s'.pcs[t]) && c == s.pcs[t].c && c < g.cohorts
    requires HeadPc(s, c) == s.pcs[t] && HeadPc(s', c) == s'.pcs[t]
    requires !g.top.Tas? || !s.locked ==> forall i :: 0 <= i < |s.topLine| ==> s.topLine[i] != c
    requires LineOk(g, s, c) && s.local[c].line != [] && s.local[c].line[0] == t
    ensures TopOk(g, s')
  {
    forall c' | 0 <= c' < g.cohorts && c' != c ensures HeadPc(s', c') == HeadPc(s, c') && HasTop(g, s', c') == HasTop(g, s, c') {
      assert LineOk(g, s, c');
      OtherLine(g, s, t, s', c');
    }
    assert Shape(g, s) && TopOk(g, s);
    hide LineOk, CohortOk, ThreadOk, Leaving, Inv;
    TopLineGrows(g, s, t, s', c);
  }

  lemma TopLineGrows(g: Config, s: State, t: nat, s': State, c: nat)
    requires Shape(g, s) && Shape(g, s') && TopOk(g, s) && t < |s.pcs|
    requires AskTop(g, s, t, s') && Takes(s'.pcs[t]) && c == s.pcs[t].c && c < g.cohorts && HeadPc(s', c) == s'.pcs[t]
    requires forall c' :: 0 <= c' < g.cohorts && c' != c ==> HeadPc(s', c') == HeadPc(s, c') && HasTop(g, s', c') == HasTop(g, s, c')
    requires !g.top.Tas? || !s.locked ==> forall i :: 0 <= i < |s.topLine| ==> s.topLine[i] != c
    ensures TopOk(g, s')
  {
    assert forall u :: 0 <= u < |s'.pcs| && s'.pcs[u].RelTop? ==> s.pcs[u].RelTop?;
    assert HasTop(g, s', c) || HeadPc(s', c).TopWait?;
    if g.top.Tas? {
      hide HeadPc, HasTop;
      assert s'.topLine == [c];
    } else {
      assert s'.topLine == s.topLine + [c] && s'.treq == s.treq + 1;
      assert s'.slots == s.slots && s'.tgrant == s.tgrant;
      hide AskTop, HeadPc, HasTop;
      TicketLineGrows(g, s, s', c);
    }
  }

  lemma TicketLineGrows(g: Config, s: State, s': State, c: nat)
    requires Shape(g, s) && Shape(g, s') && TopOk(g, s) && !g.top.Tas? && c < g.cohorts
    requires s'.topLine == s.topLine + [c] && s'.treq == s.treq + 1 && s'.slots == s.slots && s'.tgrant == s.tgrant
    requires HeadPc(s', c).TopWait? || (s.topLine == [] && HasTop(g, s', c))
    requires forall c' :: 0 <= c' < g.cohorts && c' != c ==> HeadPc(s', c') == HeadPc(s, c') && HasTop(g, s', c') == HasTop(g, s, c')
    requires forall i :: 0 <= i < |s.topLine| ==> s.topLine[i] != c
    ensures TopOk(g, s')
  {
    hide HeadPc, HasTop;
    var n := |s.topLine|;
    assert forall i :: 0 <= i < n ==> s'.topLine[i] == s.topLine[i];
    assert s'.topLine[n] == c;
  }

  lemma JoinInv(g: Config, s: State, t: nat, s': State)
    requires Inv(g, s) && t < |s.pcs| && Join(g, s, t, s')
    ensures Inv(g, s')
  {
    var c: nat, trying: bool :| c < g.cohorts && JoinAs(s, t, c, trying, s');
    forall u | 0 <= u < |s'.pcs| ensures ThreadOk(g, s', u) {
      assert ThreadOk(g, s, u);
      JoinThread(g, s, t, c, trying, s', u);
    }
    forall c' | 0 <= c' < g.cohorts ensures LineOk(g, s', c') && CohortOk(g, s', c') && HeadSame(g, s, s', c') {
      assert LineOk(g, s, c') && CohortOk(g, s, c');
      LeavingKept(g, s, t, s', c');
      if c' == c { JoinLine(g, s, t, c, trying, s'); } else { OtherLine(g, s, t, s', c'); }
      JoinCohort(g, s, t, c, trying, s', c');
    }
    JoinTop(g, s, t, c, trying, s');
  }

  lemma JoinThread(g: Config, s: State, t: nat, c: nat, trying: bool, s': State, u: nat)
    requires Shape(g, s) && t < |s.pcs| && s.pcs[t].Idle? && c < g.cohorts && JoinAs(s, t, c, trying, s') && u < |s.pcs| && ThreadOk(g, s, u)
    ensures ThreadOk(g, s', u)
  {
    assert s'.local[c].line[|s.local[c].line|] == t;
    if u != t && InLine(g, s.pcs[u]) == Some(c) {
      var i :| 0 <= i < |s.local[c].line| && s.local[c].line[i] == u;
      assert s'.local[c].line[i] == u;
    }
  }

  lemma JoinCohort(g: Config, s: State, t: nat, c: nat, trying: bool, s': State, c': nat)
    requires Shape(g, s) && t < |s.pcs| && s.pcs[t].Idle? && c < g.cohorts && c' < g.cohorts && JoinAs(s, t, c, trying, s')
    requires CohortOk(g, s, c') && HeadSame(g, s, s', c') && (Leaving(g, s', c') <==> Leaving(g, s, c'))
    requires HeadPc(s, c').Idle? ==> !s.local[c'].topGrant
    ensures CohortOk(g, s', c')
  {
    hide Leaving;
  }

  lemma JoinTop(g: Config, s: State, t: nat, c: nat, trying: bool, s': State)
    requires Inv(g, s) && t < |s.pcs| && s.pcs[t].Idle? && c < g.cohorts && JoinAs(s, t, c, trying, s')
    requires forall c' :: 0 <= c' < g.cohorts ==> HeadSame(g, s, s', c')
    ensures TopOk(g, s')
  {
    hide CohortOk, LineOk, ThreadOk;
    forall i | 0 <= i < |s'.topLine| ensures HeadSame(g, s, s', s.topLine[i]) {}
    assert forall u :: 0 <= u < |s.pcs| && s'.pcs[u].RelTop? ==> s'.pcs[u] == s.pcs[u];
  }

  /** The head is the same, or a line that was empty now has one that waits. */
  predicate HeadSame(g: Config, s: State, s': State, c: nat)
    requires c < |s.local| == |s'.local|
  {
    HasTop(g, s', c) == HasTop(g, s, c) && (HeadPc(s', c) == HeadPc(s, c) || (HeadPc(s, c).Idle? && HeadPc(s', c).Queued?))
  }

  lemma JoinLine(g: Config, s: State, t: nat, c: nat, trying: bool, s': State)
    requires Inv(g, s) && t < |s.pcs| && s.pcs[t].Idle? && c < g.cohorts && JoinAs(s, t, c, trying, s') && LineOk(g, s, c) && CohortOk(g, s, c)
    ensures LineOk(g, s', c) && HeadSame(g, s, s', c)
  {
    hide CohortOk, TopOk, ThreadOk;
    if s.local[c].line != [] { assert s'.local[c].line[0] == s.local[c].line[0]; }
  }

  // ------------------------------------------------------- giving locks back

  /** The line without its head: the next thread, if any, still waits. */
  lemma FreeLine(g: Config, s: State, t: nat, s': State, c: nat)
    requires Shape(g, s) && Shape(g, s') && t < |s.pcs| && FreeLocal(g, s, t, s') && c == s.pcs[t].c && c < g.cohorts
    requires LineOk(g, s, c) && s.local[c].line != [] && s.local[c].line[0] == t
    ensures LineOk(g, s', c) && (if |s.local[c].line| > 1 then HeadPc(s', c).Queued? else HeadPc(s', c).Idle? && s'.local[c].line == [])
    ensures t !in s'.local[c].line && forall i :: 0 <= i < |s'.local[c].line| ==> s'.local[c].line[i] == s.local[c].line[i + 1]
  {
    var q, d' := s.local[c].line, s'.local[c];
    var q' := q[1..];
    assert d'.line == q' && d'.grant == s.local[c].grant + 1 && d'.request == s.local[c].request;
    assert forall i :: 0 <= i < |q'| ==> q'[i] == q[i + 1] && q'[i] != t;
    hide FreeLocal;
    forall i | 0 <= i < |q'| ensures s'.pcs[q'[i]] == s.pcs[q[i + 1]] && s'.pcs[q'[i]].Queued? {}
  }

  lemma FreeLocalInv(g: Config, s: State, t: nat, s': State)
    requires Inv(g, s) && t < |s.pcs| && FreeLocal(g, s, t, s')
    ensures Inv(g, s')
  {
    hide ThreadOk, TopOk, Leaving, LineOk, CohortOk, HeadPc, HasTop, Released;
    var c := s.pcs[t].c;
    Mine(g, s, t);
    assert Shape(g, s');
    FreeLine(g, s, t, s', c);
    forall u | 0 <= u < |s'.pcs| ensures ThreadOk(g, s', u) {
      assert ThreadOk(g, s, u);
      FreeThread(g, s, t, s', c, u);
    }
    FreeCohorts(g, s, t, s', c);
    FreeTopLine(g, s, t, s', c);
  }

  lemma FreeCohorts(g: Config, s: State, t: nat, s': State, c: nat)
    requires Shape(g, s) && Shape(g, s') && t < |s.pcs| && FreeLocal(g, s, t, s') && c == s.pcs[t].c && c < g.cohorts && HeadPc(s, c) == s.pcs[t]
    requires if |s.local[c].line| > 1 then HeadPc(s', c).Queued? else HeadPc(s', c).Idle?
    requires forall c' :: 0 <= c' < g.cohorts ==> LineOk(g, s, c') && CohortOk(g, s, c')
    ensures forall c' :: 0 <= c' < g.cohorts ==> CohortOk(g, s', c') && (c' != c ==> LineOk(g, s', c'))
    ensures forall c' :: 0 <= c' < g.cohorts && c' != c ==> HeadPc(s', c') == HeadPc(s, c') && HasTop(g, s', c') == HasTop(g, s, c')
  {
    hide Leaving, LineOk, CohortOk, HeadPc, HasTop;
    forall c' | 0 <= c' < g.cohorts
      ensures CohortOk(g, s', c') && (c' != c ==> LineOk(g, s', c') && HeadPc(s', c') == HeadPc(s, c') && HasTop(g, s', c') == HasTop(g, s, c'))
    {
      FreeLeaving(g, s, t, s', c, c');
      if c' != c { OtherLine(g, s, t, s', c'); FreeOther(g, s, t, s', c, c'); } else { FreeOwn(g, s, t, s', c); }
    }
  }

  lemma FreeThread(g: Config, s: State, t: nat, s': State, c: nat, u: nat)
    requires Shape(g, s) && Shape(g, s') && t < |s.pcs| && FreeLocal(g, s, t, s') && c == s.pcs[t].c && c < g.cohorts && u < |s.pcs| && ThreadOk(g, s, u)
    requires s.local[c].line != [] && s.local[c].line[0] == t
    ensures ThreadOk(g, s', u)
  {
    var q := s.local[c].line;
    assert q == [q[0]] + q[1..];
  }

  /** Only a test-and-set holder leaves its cohort with the top lock. */
  lemma FreeLeaving(g: Config, s: State, t: nat, s': State, c: nat, c': nat)
    requires Shape(g, s) && Shape(g, s') && t < |s.pcs| && FreeLocal(g, s, t, s') && c == s.pcs[t].c
    ensures Leaving(g, s', c') <==> Leaving(g, s, c') || (c' == c && g.top.Tas? && s.pcs[t].RelLocal?)
  {
    if Leaving(g, s, c') { var u :| 0 <= u < |s.pcs| && s.pcs[u] == RelTop(c'); assert s'.pcs[u] == RelTop(c'); }
    if c' == c && g.top.Tas? && s.pcs[t].RelLocal? { assert s'.pcs[t] == RelTop(c); }
    if Leaving(g, s', c') { var u :| 0 <= u < |s'.pcs| && s'.pcs[u] == RelTop(c'); if u != t { assert s.pcs[u] == RelTop(c'); } }
  }

  lemma FreeOther(g: Config, s: State, t: nat, s': State, c: nat, c': nat)
    requires Shape(g, s) && Shape(g, s') && t < |s.pcs| && FreeLocal(g, s, t, s') && c == s.pcs[t].c && c' < g.cohorts && c' != c
    requires CohortOk(g, s, c') && HeadPc(s', c') == HeadPc(s, c') && (Leaving(g, s', c') <==> Leaving(g, s, c'))
    ensures CohortOk(g, s', c')
  {
    hide Leaving;
  }

  lemma FreeOwn(g: Config, s: State, t: nat, s': State, c: nat)
    requires Shape(g, s) && Shape(g, s') && t < |s.pcs| && FreeLocal(g, s, t, s') && c == s.pcs[t].c && c < g.cohorts && CohortOk(g, s, c)
    requires HeadPc(s, c) == s.pcs[t] && (if |s.local[c].line| > 1 then HeadPc(s', c).Queued? else HeadPc(s', c).Idle?)
    requires Leaving(g, s', c) <==> Leaving(g, s, c) || (g.top.Tas? && s.pcs[t].RelLocal?)
    ensures CohortOk(g, s', c)
  {
    hide Leaving;
  }

  lemma FreeTopLine(g: Config, s: State, t: nat, s': State, c: nat)
    requires Inv(g, s) && Shape(g, s') && t < |s.pcs| && FreeLocal(g, s, t, s') && c == s.pcs[t].c && c < g.cohorts && HeadPc(s, c) == s.pcs[t]
    requires CohortOk(g, s, c) && CohortOk(g, s', c) && (forall c' :: 0 <= c' < g.cohorts && c' != c ==> HeadPc(s', c') == HeadPc(s, c') && HasTop(g, s', c') == HasTop(g, s, c'))
    ensures TopOk(g, s')
  {
    hide LineOk, ThreadOk;
    if g.top.Tas? && s.pcs[t].RelLocal? {
      forall u | 0 <= u < |s.pcs| ensures !s.pcs[u].RelTop? { NoneLeaves(g, s, c, u); }
    }
    FreeTopHeads(g, s, t, s', c);
  }

  lemma FreeTopHeads(g: Config, s: State, t: nat, s': State, c: nat)
    requires Inv(g, s) && Shape(g, s') && t < |s.pcs| && FreeLocal(g, s, t, s') && c == s.pcs[t].c && c < g.cohorts && HeadPc(s, c) == s.pcs[t]
    requires CohortOk(g, s, c) && CohortOk(g, s', c) && (forall c' :: 0 <= c' < g.cohorts && c' != c ==> HeadPc(s', c') == HeadPc(s, c') && HasTop(g, s', c') == HasTop(g, s, c'))
    ensures forall i :: 1 <= i < |s'.topLine| ==> HeadPc(s', s'.topLine[i]).TopWait?
    ensures !g.top.Tas? && s'.topLine != [] ==> HeadPc(s', s'.topLine[0]).TopWait? || HasTop(g, s', s'.topLine[0])
  {
    hide LineOk, ThreadOk, Leaving;
    forall i | 1 <= i < |s'.topLine| ensures HeadPc(s', s'.topLine[i]).TopWait? { assert s.topLine[i] != c; }
  }

  /** While a test-and-set holder is in its cohort nobody else has the lock. */
  lemma NoneLeaves(g: Config, s: State, c: nat, u: nat)
    requires Inv(g, s) && c < g.cohorts && HasTop(g, s, c) && g.top.Tas? && u < |s.pcs|
    ensures !s.pcs[u].RelTop?
  {
    assert CohortOk(g, s, c);
    if s.pcs[u].RelTop? { LeaverHolds(g, s, u); }
  }

  lemma LeaverHolds(g: Config, s: State, u: nat)
    requires Inv(g, s) && g.top.Tas? && u < |s.pcs| && s.pcs[u].RelTop?
    ensures s.pcs[u].c < g.cohorts && s.topLine != [] && s.topLine[0] == s.pcs[u].c && !HasTop(g, s, s.pcs[u].c)
  {
    assert ThreadOk(g, s, u);
    assert Leaving(g, s, s.pcs[u].c);
    assert CohortOk(g, s, s.pcs[u].c);
  }

  lemma FreeTopInv(g: Config, s: State, t: nat, s': State)
    requires Inv(g, s) && t < |s.pcs| && FreeTop(g, s, t, s')
    ensures Inv(g, s')
  {
    if g.top.Tas? { FreeTas(g, s, t, s'); } else { FreeTicket(g, s, t, s'); }
  }

  lemma FreeTas(g: Config, s: State, t: nat, s': State)
    requires Inv(g, s) && t < |s.pcs| && FreeTop(g, s, t, s') && g.top.Tas?
    ensures Inv(g, s')
  {
    var c := s.pcs[t].c;
    assert ThreadOk(g, s, t);
    assert Leaving(g, s, c);
    assert CohortOk(g, s, c);
    forall u | 0 <= u < |s'.pcs| ensures ThreadOk(g, s', u) && !s'.pcs[u].RelTop? { assert ThreadOk(g, s, u); }
    forall c' | 0 <= c' < g.cohorts ensures LineOk(g, s', c') && CohortOk(g, s', c') {
      assert LineOk(g, s, c') && CohortOk(g, s, c');
      OtherLine(g, s, t, s', c');
      assert !Leaving(g, s', c');
      hide Leaving, LineOk;
    }
  }

  lemma FreeTicket(g: Config, s: State, t: nat, s': State)
    requires Inv(g, s) && t < |s.pcs| && FreeTop(g, s, t, s') && !g.top.Tas?
    ensures Inv(g, s')
  {
    var c := s.pcs[t].c;
    Mine(g, s, t);
    ThreadsKept(g, s, t, s');
    forall c' | 0 <= c' < g.cohorts ensures LineOk(g, s', c') && CohortOk(g, s', c') && (c' != c ==> HeadPc(s', c') == HeadPc(s, c') && HasTop(g, s', c') == HasTop(g, s, c')) {
      assert LineOk(g, s, c') && CohortOk(g, s, c');
      LeavingKept(g, s, t, s', c');
      if c' == c { OwnLine(g, s, t, s', c); TicketOwn(g, s, t, s', c); }
      else { OtherLine(g, s, t, s', c'); TicketOther(g, s, t, s', c, c'); }
    }
    TicketTop(g, s, t, s', c);
  }

  lemma TicketOwn(g: Config, s: State, t: nat, s': State, c: nat)
    requires Inv(g, s) && t < |s.pcs| && FreeTop(g, s, t, s') && !g.top.Tas? && c == s.pcs[t].c && c < g.cohorts
    requires HeadPc(s, c) == s.pcs[t] && HeadPc(s', c) == s'.pcs[t] && CohortOk(g, s, c)
    ensures CohortOk(g, s', c)
  {
    hide LineOk, ThreadOk;
    assert s'.topLine == s.topLine[1..];
  }

  lemma TicketOther(g: Config, s: State, t: nat, s': State, c: nat, c': nat)
    requires Inv(g, s) && t < |s.pcs| && FreeTop(g, s, t, s') && !g.top.Tas? && c == s.pcs[t].c && c < g.cohorts && c' < g.cohorts && c' != c
    requires HeadPc(s, c) == s.pcs[t] && HeadPc(s', c') == HeadPc(s, c') && CohortOk(g, s, c) && CohortOk(g, s, c')
    requires HasTop(g, s', c') == HasTop(g, s, c')
    ensures CohortOk(g, s', c')
  {
    hide LineOk, ThreadOk;
    assert s.topLine != [] && s.topLine[0] == c && s'.topLine == s.topLine[1..];
    if s'.topLine != [] { assert s'.topLine[0] == s.topLine[1]; }
  }

  lemma NextSlot(a: seq<nat>, n: nat, k: nat, a': seq<nat>)
    requires 0 < n == |a| && a' == a[(k + 1) % n := k + 1] && forall i :: 0 <= i < n ==> a[i] <= k
    ensures |a'| == n && a'[(k + 1) % n] == k + 1 && forall i :: 0 <= i < n ==> a'[i] <= k + 1
  {
  }

  lemma TicketTop(g: Config, s: State, t: nat, s': State, c: nat)
    requires Inv(g, s) && Shape(g, s') && t < |s.pcs| && FreeTop(g, s, t, s') && !g.top.Tas? && c == s.pcs[t].c && c < g.cohorts
    requires HeadPc(s, c) == s.pcs[t] && CohortOk(g, s, c)
    requires forall c' :: 0 <= c' < g.cohorts && c' != c ==> HeadPc(s', c') == HeadPc(s, c') && HasTop(g, s', c') == HasTop(g, s, c')
    ensures TopOk(g, s')
  {
    hide LineOk, ThreadOk, Leaving;
    assert s.topLine != [] && s.topLine[0] == c && s'.topLine == s.topLine[1..];
    assert TopOk(g, s) && (g.top.Slots? ==> s.ownerTicket == s.tgrant);
    assert s'.tgrant == s.tgrant + 1 && s'.treq == s.treq;
    if g.top.Slots? { NextSlot(s.slots, g.top.n, s.tgrant, s'.slots); }
    hide Inv, CohortOk, FreeTop, HeadPc, HasTop;
    assert forall i :: 0 <= i < |s'.topLine| ==> s'.topLine[i] == s.topLine[i + 1] != c;
    assert forall i :: 0 <= i < |s'.topLine| ==> HeadPc(s', s'.topLine[i]).TopWait?;
  }

  // --------------------------------------------------------------- theorems

  lemma StepInv(g: Config, s: State, t: nat, s': State)
    requires Inv(g, s) && Step(g, s, t, s')
    ensures Inv(g, s')
  {
    hide Inv, Join, Enter, CheckGrant, AskTop, Peek, TopTurn, MarkHome, BeginUnlock, Detect, FreeLocal, FreeTop;
    match s.pcs[t]
    case Idle => JoinInv(g, s, t, s');
    case Queued(_, _, _) => EnterInv(g, s, t, s');
    case Entered(_, _) => CheckGrantInv(g, s, t, s');
    case NeedTop(_, _) => AskTopInv(g, s, t, s');
    case PeekSlot(_, _) => PeekInv(g, s, t, s');
    case PeekReq(_, _) => PeekInv(g, s, t, s');
    case TopWait(_, _) => TopTurnInv(g, s, t, s');
    case SetHome(_, _) => MarkHomeInv(g, s, t, s');
    case Crit(_) => BeginUnlockInv(g, s, t, s');
    case Look(_) => DetectInv(g, s, t, s');
    case PassLocal(_) => FreeLocalInv(g, s, t, s');
    case RelTop(_) => FreeTopInv(g, s, t, s');
    case RelLocal(_) => FreeLocalInv(g, s, t, s');
    case Undo(_) => FreeLocalInv(g, s, t, s');
  }

  lemma InitInv(g: Config, s: State)
    requires Init(g, s)
    ensures Inv(g, s)
  {
    forall t | 0 <= t < |s.pcs| ensures ThreadOk(g, s, t) {}
    forall c | 0 <= c < g.cohorts ensures LineOk(g, s, c) && CohortOk(g, s, c) {}
  }

  lemma {:induction false} RunInv(g: Config, tr: seq<State>, sched: seq<nat>, i: nat)
    requires Run(g, tr, sched) && i < |tr|
    ensures Inv(g, tr[i])
  {
    hide Inv, Init, Step;
    if i == 0 { InitInv(g, tr[0]); } else { RunInv(g, tr, sched, i - 1); StepInv(g, tr[i - 1], sched[i - 1], tr[i]); }
  }

  predicate Inside(pc: Pc) { pc.Crit? || pc.Look? || pc.PassLocal? }

  /** One thread at a time is inside, in the cohort that top_home names. */
  lemma MutualExclusion(g: Config, tr: seq<State>, sched: seq<nat>, i: nat, t: nat, u: nat)
    requires Run(g, tr, sched) && i < |tr| && t < |tr[i].pcs| && u < |tr[i].pcs| && Inside(tr[i].pcs[t]) && Inside(tr[i].pcs[u])
    ensures t == u && tr[i].home == Some(tr[i].pcs[t].c)
  {
    hide Run;
    RunInv(g, tr, sched, i);
    Mine(g, tr[i], t);
    Mine(g, tr[i], u);
  }

  /** A grant left in a cohort is worth the top lock, and is not left to nobody:
      the first thread in line is about to find it, or the one that left it is
      still inside with another behind it. */
  lemma GrantIsClaimed(g: Config, tr: seq<State>, sched: seq<nat>, i: nat, c: nat)
    requires Run(g, tr, sched) && i < |tr| && c < g.cohorts && tr[i].local[c].topGrant
    ensures tr[i].topLine != [] && tr[i].topLine[0] == c && tr[i].home == Some(c)
    ensures var q := tr[i].local[c].line; q != [] && q[0] < |tr[i].pcs|
    ensures var q := tr[i].local[c].line; var pc := tr[i].pcs[q[0]]; pc.Queued? || pc.Entered? || (pc.PassLocal? && |q| > 1)
    ensures forall t :: 0 <= t < |tr[i].pcs| && Inside(tr[i].pcs[t]) ==> tr[i].pcs[t].PassLocal?
  {
    hide Run;
    RunInv(g, tr, sched, i);
    var s := tr[i];
    assert CohortOk(g, s, c) && LineOk(g, s, c);
    forall t | 0 <= t < |s.pcs| && Inside(s.pcs[t]) ensures s.pcs[t].PassLocal? { Mine(g, s, t); }
  }

  /** One acquisition of the top lock allows at most BATCH_COUNT silent passes. */
  lemma PassBound(g: Config, tr: seq<State>, sched: seq<nat>, i: nat, t: nat)
    requires Run(g, tr, sched) && i < |tr| && t < |tr[i].pcs| && Inside(tr[i].pcs[t])
    ensures var c := tr[i].pcs[t].c; c < g.cohorts && tr[i].local[c].passes <= BATCH_COUNT
  {
    hide Run;
    RunInv(g, tr, sched, i);
    Mine(g, tr[i], t);
  }

  /** An unlock keeps the top lock in its cohort exactly while another thread is
      in line there and the batch lasts, and a batch that is used up starts anew. */
  lemma PassesExactly(g: Config, tr: seq<State>, sched: seq<nat>, i: nat, t: nat)
    requires Run(g, tr, sched) && i < |sched| && sched[i] == t && t < |tr[i].pcs| && tr[i].pcs[t].Look?
    ensures var c := tr[i].pcs[t].c;
      && c < g.cohorts && t < |tr[i + 1].pcs|
      && var d, d' := tr[i].local[c], tr[i + 1].local[c];
         && (tr[i + 1].pcs[t].PassLocal? <==> |d.line| > 1 && d.batch > 0)
         && d'.topGrant == tr[i + 1].pcs[t].PassLocal? && d'.line == d.line && d.line != [] && d.line[0] == t
         && d'.batch == if tr[i + 1].pcs[t].PassLocal? then d.batch - 1 else if |d.line| > 1 then BATCH_COUNT else d.batch
  {
    RunInv(g, tr, sched, i);
    assert Step(g, tr[i], t, tr[i + 1]);
    hide Run;
    Mine(g, tr[i], t);
    hide Inv, TopOk, ThreadOk, Leaving;
  }

  /** The partitioned lock serves like a counter: a waiting ticket finds its own
      number in its slot exactly when it is the one to be served. */
  lemma SlotsRefineCounter(g: Config, tr: seq<State>, sched: seq<nat>, i: nat, t: nat)
    requires Run(g, tr, sched) && i < |tr| && t < |tr[i].pcs| && tr[i].pcs[t].TopWait? && g.top.Slots?
    ensures tr[i].slots[tr[i].pcs[t].k % g.top.n] == tr[i].pcs[t].k <==> tr[i].pcs[t].k == tr[i].tgrant
  {
    hide Run;
    RunInv(g, tr, sched, i);
    TurnIsFirst(g, tr[i], t);
  }

  /** A trylock that does not get the top lock has not taken it from anybody. */
  lemma FailedTryHasNothing(g: Config, tr: seq<State>, sched: seq<nat>, i: nat, t: nat)
    requires Run(g, tr, sched) && i < |tr| && t < |tr[i].pcs| && tr[i].pcs[t].Undo?
    ensures var c := tr[i].pcs[t].c; c < g.cohorts && !tr[i].local[c].topGrant && !HasTop(g, tr[i], c)
  {
    hide Run;
    RunInv(g, tr, sched, i);
    Mine(g, tr[i], t);
  }
}
