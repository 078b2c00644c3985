/** The waiting queue of the FNS lock, reordered in place by one of its waiters.

    The shuffler walks the queue behind itself and moves the waiters that are
    eligible (of the chosen socket, and not above the runtime standard) up
    behind the last eligible one.  The queue is the linked part of the waiting
    list; the lock's tail is its last node, or a newer one not linked yet. */
module Shuffle {

  class Node {
    var next: Node?
    var prev: Node?
    var lstatus: bool
    var sleader: bool
    var wcount: nat
    var lastVisited: Node?
    const nid: nat
    const runtime: nat

    constructor (nid: nat, runtime: nat)
      ensures this.nid == nid && this.runtime == runtime && next == null && prev == null && lastVisited == null && wcount == 0
    {
      this.nid, this.runtime := nid, runtime;
      next, prev, lastVisited := null, null, null;
      lstatus, sleader, wcount := false, false, 0;
    }
  }

  const ANY_SOCKET: nat := 100
  const UINT_MAX: nat := 0xFFFF_FFFF

  class Lock {
    var tail: Node?
    var allowedNid: nat
    var avgRuntime: nat
  }

  ghost predicate Distinct(q: seq<Node>) {
    forall i, j :: 0 <= i < j < |q| ==> q[i] != q[j]
  }

  /** `next` and `prev` are inverse to each other along q. */
  ghost predicate Linked(q: seq<Node>)
    reads q
  {
    && Distinct(q)
    && (forall i, j :: 0 <= i && j == i + 1 < |q| ==> q[i].next == q[j] && q[j].prev == q[i])
    && (q != [] ==> q[|q| - 1].next == null)
  }

  /** Which waiters the shuffler prefers. */
  predicate Eligible(n: Node, nid: nat, standard: nat) { n.runtime <= standard && n.nid == nid }

  function Chosen(q: seq<Node>, nid: nat, standard: nat): seq<Node> {
    if q == [] then []
    else Chosen(q[..|q| - 1], nid, standard) + (if Eligible(q[|q| - 1], nid, standard) then [q[|q| - 1]] else [])
  }

  function Others(q: seq<Node>, nid: nat, standard: nat): seq<Node> {
    if q == [] then []
    else Others(q[..|q| - 1], nid, standard) + (if Eligible(q[|q| - 1], nid, standard) then [] else [q[|q| - 1]])
  }

  /** The queue after the nodes from v + 1 up to m were processed by the node at
      p: the eligible ones stand behind the shuffler, all else keeps its order. */
  function Shuffled(q: seq<Node>, p: nat, v: nat, m: nat, nid: nat, standard: nat): seq<Node>
    requires p <= v < m <= |q|
  {
    q[..p + 1] + Chosen(q[v + 1..m], nid, standard) + q[p + 1..v + 1] + Others(q[v + 1..m], nid, standard) + q[m..]
  }

  lemma {:induction false} PartitionSizes(q: seq<Node>, nid: nat, standard: nat)
    ensures |Chosen(q, nid, standard)| + |Others(q, nid, standard)| == |q|
  {
    if q != [] { PartitionSizes(q[..|q| - 1], nid, standard); }
  }

  lemma {:induction false} PartitionKeeps(q: seq<Node>, nid: nat, standard: nat)
    ensures multiset(Chosen(q, nid, standard)) + multiset(Others(q, nid, standard)) == multiset(q)
  {
    if q != [] {
      var front, x := q[..|q| - 1], q[|q| - 1];
      PartitionKeeps(front, nid, standard);
      assert q == front + [x];
      OneMore(front, x, nid, standard);
      assert multiset(Chosen(q, nid, standard)) == multiset(Chosen(front, nid, standard)) + (if Eligible(x, nid, standard) then multiset{x} else multiset{});
      assert multiset(Others(q, nid, standard)) == multiset(Others(front, nid, standard)) + (if Eligible(x, nid, standard) then multiset{} else multiset{x});
    }
  }

  /** Shuffling loses and invents nobody. */
  lemma ShuffledPermutes(q: seq<Node>, p: nat, v: nat, m: nat, nid: nat, standard: nat)
    requires p <= v < m <= |q|
    ensures multiset(Shuffled(q, p, v, m, nid, standard)) == multiset(q)
    ensures |Shuffled(q, p, v, m, nid, standard)| == |q|
    ensures Shuffled(q, p, v, m, nid, standard)[..p + 1] == q[..p + 1] && Shuffled(q, p, v, m, nid, standard)[m..] == q[m..]
  {
    var part := q[v + 1..m];
    var c, d := Chosen(part, nid, standard), Others(part, nid, standard);
    PartitionSizes(part, nid, standard);
    PartitionKeeps(part, nid, standard);
    hide Chosen, Others;
    assert Shuffled(q, p, v, m, nid, standard) == q[..p + 1] + c + q[p + 1..v + 1] + d + q[m..];
    hide Shuffled;
    CutInFour(q, p + 1, v + 1, m);
    Regroup(q[..p + 1], q[p + 1..v + 1], part, c, d, q[m..]);
  }

  lemma CutInFour(q: seq<Node>, i: nat, j: nat, k: nat)
    requires i <= j <= k <= |q|
    ensures q == q[..i] + q[i..j] + q[j..k] + q[k..]
  {
  }

  lemma Regroup(a: seq<Node>, b: seq<Node>, cd: seq<Node>, c: seq<Node>, d: seq<Node>, e: seq<Node>)
    requires multiset(c) + multiset(d) == multiset(cd) && |c| + |d| == |cd|
    ensures multiset(a + c + b + d + e) == multiset(a + b + cd + e) && |a + c + b + d + e| == |a + b + cd + e|
    ensures (a + c + b + d + e)[..|a|] == a && (a + c + b + d + e)[|a| + |b| + |cd|..] == e
  {
    assert multiset(a + c + b + d + e) == multiset(a) + multiset(c) + multiset(b) + multiset(d) + multiset(e);
    assert multiset(a + b + cd + e) == multiset(a) + multiset(b) + multiset(cd) + multiset(e);
  }

  /** The chosen ones keep the order of the queue, and so do the others. */
  lemma {:induction false} ChosenOnly(q: seq<Node>, nid: nat, standard: nat, n: Node)
    ensures n in Chosen(q, nid, standard) <==> n in q && Eligible(n, nid, standard)
    ensures n in Others(q, nid, standard) <==> n in q && !Eligible(n, nid, standard)
  {
    if q != [] {
      ChosenOnly(q[..|q| - 1], nid, standard, n);
      assert q == q[..|q| - 1] + [q[|q| - 1]];
    }
  }

  ghost predicate Before(q: seq<Node>, a: Node, b: Node) {
    exists i, j :: 0 <= i < j < |q| && q[i] == a && q[j] == b
  }

  lemma {:induction false} StableOrder(q: seq<Node>, nid: nat, standard: nat, a: Node, b: Node)
    requires Distinct(q)
    requires Before(Chosen(q, nid, standard), a, b) || Before(Others(q, nid, standard), a, b)
    ensures Before(q, a, b)
  {
    if q != [] {
      var n := |q| - 1;
      var front := q[..n];
      var c, o := Chosen(q, nid, standard), Others(q, nid, standard);
      var part := if Before(c, a, b) then c else o;
      var i, j :| 0 <= i < j < |part| && part[i] == a && part[j] == b;
      var part0 := if Before(c, a, b) then Chosen(front, nid, standard) else Others(front, nid, standard);
      assert |part0| <= |part| && forall k :: 0 <= k < |part0| ==> part[k] == part0[k];
      if j < |part0| {
        assert part0[i] == a && part0[j] == b;
        StableOrder(front, nid, standard, a, b);
        var i', j' :| 0 <= i' < j' < |front| && front[i'] == a && front[j'] == b;
        assert q[i'] == a && q[j'] == b;
      } else {
        assert b == q[n] && part0[i] == a;
        ChosenOnly(front, nid, standard, a);
        var k :| 0 <= k < |front| && front[k] == a;
        assert q[k] == a;
      }
    }
  }

  // ------------------------------------------------------------- the splice

  /** q with its m-th node moved to stand right behind the a-th. */
  function MovedUp(q: seq<Node>, a: nat, m: nat): (r: seq<Node>)
    requires a < m < |q|
    ensures |r| == |q|
    ensures forall i :: 0 <= i < |q| ==> r[i] == if i <= a then q[i] else if i == a + 1 then q[m] else if i <= m then q[i - 1] else q[i]
  {
    q[..a + 1] + [q[m]] + q[a + 1..m] + q[m + 1..]
  }

  lemma MovedUpDistinct(q: seq<Node>, a: nat, m: nat)
    requires a < m < |q| && Distinct(q)
    ensures Distinct(MovedUp(q, a, m))
  {
  }

  /** The links of MovedUp(q, a, m), read off the fields. */
  ghost predicate Relinked(q: seq<Node>, a: nat, m: nat)
    requires a + 1 < m && m + 1 < |q|
    reads q
  {
    && (forall i :: 0 <= i < a || a + 1 <= i < m - 1 || m < i < |q| - 1 ==> q[i].next == q[i + 1] && q[i + 1].prev == q[i])
    && q[a].next == q[m] && q[m].prev == q[a]
    && q[m].next == q[a + 1] && q[a + 1].prev == q[m]
    && q[m - 1].next == q[m + 1] && q[m + 1].prev == q[m - 1]
    && q[|q| - 1].next == null
  }

  lemma RelinkedLinked(q: seq<Node>, a: nat, m: nat)
    requires a + 1 < m && m + 1 < |q| && Distinct(q) && Relinked(q, a, m)
    ensures Linked(MovedUp(q, a, m))
  {
    MovedUpDistinct(q, a, m);
    var r := MovedUp(q, a, m);
    forall i, j | 0 <= i && j == i + 1 < |r| ensures r[i].next == r[j] && r[j].prev == r[i] {
      if a + 2 <= i < m { assert q[i - 1].next == q[i]; }
    }
  }

  /** Take curr out and put it behind iter. */
  method Splice(iter: Node, prev: Node, curr: Node, next: Node, ghost q: seq<Node>, ghost a: nat, ghost m: nat)
    requires Linked(q) && a + 1 < m && m + 1 < |q|
    requires iter == q[a] && prev == q[m - 1] && curr == q[m] && next == q[m + 1]
    modifies q
    ensures Linked(MovedUp(q, a, m)) && q[0].prev == old(q[0].prev)
    ensures forall n :: n in q ==> n.sleader == old(n.sleader) && n.wcount == old(n.wcount) && n.lastVisited == old(n.lastVisited) && n.lstatus == old(n.lstatus)
  {
    Restitch(iter, prev, curr, next, q, a, m);
    RelinkedLinked(q, a, m);
  }

  /** The six stores. */
  method Restitch(iter: Node, prev: Node, curr: Node, next: Node, ghost q: seq<Node>, ghost a: nat, ghost m: nat)
    requires Linked(q) && a + 1 < m && m + 1 < |q|
    requires iter == q[a] && prev == q[m - 1] && curr == q[m] && next == q[m + 1]
    modifies q
    ensures Relinked(q, a, m) && q[0].prev == old(q[0].prev)
    ensures forall n :: n in q ==> n.sleader == old(n.sleader) && n.wcount == old(n.wcount) && n.lastVisited == old(n.lastVisited) && n.lstatus == old(n.lstatus)
  {
    assert iter.next == q[a + 1];
    var behind: Node := iter.next;
    prev.next := next;
    next.prev := prev;
    curr.next := iter.next;
    behind.prev := curr;
    iter.next := curr;
    curr.prev := iter;
  }

  // ------------------------------------------------------------ the shuffle

  /** Where the last eligible node stands. */
  function LastAt(q: seq<Node>, p: nat, v: nat, m: nat, nid: nat, standard: nat): nat
    requires p <= v < m <= |q|
  {
    p + |Chosen(q[v + 1..m], nid, standard)|
  }

  lemma ShuffledFirst(q: seq<Node>, p: nat, v: nat, nid: nat, standard: nat)
    requires p <= v < |q|
    ensures Shuffled(q, p, v, v + 1, nid, standard) == q && LastAt(q, p, v, v + 1, nid, standard) == p
  {
    assert q[v + 1..v + 1] == [];
    assert q == q[..p + 1] + q[p + 1..v + 1] + q[v + 1..];
  }

  /** Processing one more node: an eligible one moves up, another stays. */
  lemma ShuffledNext(q: seq<Node>, p: nat, v: nat, m: nat, nid: nat, standard: nat)
    requires p <= v < m < |q|
    ensures |Shuffled(q, p, v, m, nid, standard)| == |Shuffled(q, p, v, m + 1, nid, standard)| == |q|
    ensures LastAt(q, p, v, m, nid, standard) < m && Shuffled(q, p, v, m, nid, standard)[m] == q[m]
    ensures Eligible(q[m], nid, standard) ==>
      && Shuffled(q, p, v, m + 1, nid, standard) == MovedUp(Shuffled(q, p, v, m, nid, standard), LastAt(q, p, v, m, nid, standard), m)
      && LastAt(q, p, v, m + 1, nid, standard) == LastAt(q, p, v, m, nid, standard) + 1
    ensures !Eligible(q[m], nid, standard) ==>
      && Shuffled(q, p, v, m + 1, nid, standard) == Shuffled(q, p, v, m, nid, standard)
      && LastAt(q, p, v, m + 1, nid, standard) == LastAt(q, p, v, m, nid, standard)
  {
    var part := q[v + 1..m];
    hide Shuffled, LastAt, Chosen, Others, Eligible, MovedUp;
    ShuffledParts(q, p, v, m, nid, standard);
    PartitionSizes(part, nid, standard);
    NextInParts(q[..p + 1], Chosen(part, nid, standard), q[p + 1..v + 1], Others(part, nid, standard), q[m], q[m + 1..], m,
                Eligible(q[m], nid, standard), Shuffled(q, p, v, m, nid, standard), Shuffled(q, p, v, m + 1, nid, standard));
  }

  lemma NextInParts(a: seq<Node>, c: seq<Node>, b: seq<Node>, d: seq<Node>, x: Node, e: seq<Node>, m: nat, eligible: bool,
                    s: seq<Node>, s': seq<Node>)
    requires |a| > 0 && s == a + c + b + d + ([x] + e) && m == |a| + |b| + |c| + |d|
    requires s' == if eligible then a + (c + [x]) + b + d + e else a + c + b + (d + [x]) + e
    ensures |a| + |c| - 1 < m < |s| == |s'| == |a| + |b| + |c| + |d| + 1 + |e| && s[m] == x
    ensures s' == if eligible then MovedUp(s, |a| + |c| - 1, m) else s
  {
    MoveInParts(a, c, b, d, x, e);
  }

  lemma ShuffledParts(q: seq<Node>, p: nat, v: nat, m: nat, nid: nat, standard: nat)
    requires p <= v < m < |q|
    ensures var part, x, e := q[v + 1..m], q[m], q[m + 1..];
      var c, d := Chosen(part, nid, standard), Others(part, nid, standard);
      && Shuffled(q, p, v, m, nid, standard) == q[..p + 1] + c + q[p + 1..v + 1] + d + ([x] + e)
      && Shuffled(q, p, v, m + 1, nid, standard) ==
           (if Eligible(x, nid, standard) then q[..p + 1] + (c + [x]) + q[p + 1..v + 1] + d + e
            else q[..p + 1] + c + q[p + 1..v + 1] + (d + [x]) + e)
      && LastAt(q, p, v, m, nid, standard) == p + |c|
      && LastAt(q, p, v, m + 1, nid, standard) == (if Eligible(x, nid, standard) then p + |c| + 1 else p + |c|)
  {
    var part, x := q[v + 1..m], q[m];
    assert q[v + 1..m + 1] == part + [x];
    assert q[m..] == [x] + q[m + 1..];
    OneMore(part, x, nid, standard);
    assert Chosen(part, nid, standard) + [] == Chosen(part, nid, standard);
    assert Others(part, nid, standard) + [] == Others(part, nid, standard);
    hide Chosen, Others;
  }

  lemma OneMore(part: seq<Node>, x: Node, nid: nat, standard: nat)
    ensures Chosen(part + [x], nid, standard) == Chosen(part, nid, standard) + (if Eligible(x, nid, standard) then [x] else [])
    ensures Others(part + [x], nid, standard) == Others(part, nid, standard) + (if Eligible(x, nid, standard) then [] else [x])
  {
    assert (part + [x])[..|part|] == part;
    assert Chosen(part, nid, standard) + [] == Chosen(part, nid, standard);
    assert Others(part, nid, standard) + [] == Others(part, nid, standard);
  }

  lemma MoveInParts(a: seq<Node>, c: seq<Node>, b: seq<Node>, d: seq<Node>, x: Node, e: seq<Node>)
    requires |a| > 0
    ensures var s := a + c + b + d + ([x] + e);
      var k, m := |a| + |c| - 1, |a| + |c| + |b| + |d|;
      && k < m < |s| && s[m] == x
      && a + (c + [x]) + b + d + e == MovedUp(s, k, m)
      && a + c + b + (d + [x]) + e == s
  {
    var s := a + c + b + d + ([x] + e);
    var k, m := |a| + |c| - 1, |a| + |c| + |b| + |d|;
    assert s[..k + 1] == a + c;
    assert s[k + 1..m] == b + d;
    assert s[m + 1..] == e;
  }

  /** The state of the walk: m nodes from the front are in place, `last` is the
      last eligible one and `prev` the last processed one. */
  ghost predicate Walk(q: seq<Node>, p: nat, v: nat, m: nat, nid: nat, standard: nat, cur: seq<Node>, last: Node, prev: Node) {
    && p <= v < m <= |q| && cur == Shuffled(q, p, v, m, nid, standard) && |cur| == |q| && Distinct(q) && Distinct(cur)
    && (forall i :: 0 <= i < |cur| ==> cur[i] in q)
    && LastAt(q, p, v, m, nid, standard) < m && last == cur[LastAt(q, p, v, m, nid, standard)] && prev == cur[m - 1]
  }

  lemma ShuffledFront(q: seq<Node>, p: nat, v: nat, m: nat, nid: nat, standard: nat)
    requires p <= v < m <= |q|
    ensures var c := Shuffled(q, p, v, m, nid, standard);
      && p < |c| && c[p] == q[p] && c[0] == q[0] && p <= LastAt(q, p, v, m, nid, standard)
      && (m == p + 1 ==> LastAt(q, p, v, m, nid, standard) == p)
  {
    hide Chosen, Others;
    if m == p + 1 { assert q[v + 1..m] == []; NoneChosen(nid, standard); }
  }

  lemma NoneChosen(nid: nat, standard: nat)
    ensures Chosen([], nid, standard) == []
  {
  }

  lemma MovedUpSame(q: seq<Node>, a: nat, m: nat)
    requires a < m < |q| && a + 1 == m
    ensures MovedUp(q, a, m) == q
  {
  }

  /** What the walk knows about the nodes it holds. */
  lemma FrontOf(q: seq<Node>, p: nat, v: nat, m: nat, nid: nat, standard: nat, cur: seq<Node>, last: Node, prev: Node)
    requires Walk(q, p, v, m, nid, standard, cur, last, prev) && m < |q|
    ensures p < |cur| && cur[p] == q[p] && cur[0] == q[0] && p <= LastAt(q, p, v, m, nid, standard) < m
    ensures cur[m] == q[m]
    ensures prev == cur[p] ==> last == prev
    ensures last == prev <==> LastAt(q, p, v, m, nid, standard) + 1 == m
  {
    hide Chosen, Others, Shuffled, LastAt, MovedUp;
    ShuffledNext(q, p, v, m, nid, standard);
    ShuffledFront(q, p, v, m, nid, standard);
  }

  /** An ineligible node stays where it is. */
  lemma WalkSkip(q: seq<Node>, p: nat, v: nat, m: nat, nid: nat, standard: nat, cur: seq<Node>, last: Node, prev: Node)
    requires Walk(q, p, v, m, nid, standard, cur, last, prev) && m < |q| && !Eligible(q[m], nid, standard)
    ensures Walk(q, p, v, m + 1, nid, standard, cur, last, q[m])
  {
    hide Shuffled, LastAt, MovedUp;
    ShuffledNext(q, p, v, m, nid, standard);
  }

  /** An eligible one becomes the last eligible one, behind the one before. */
  lemma WalkMove(q: seq<Node>, p: nat, v: nat, m: nat, nid: nat, standard: nat, cur: seq<Node>, last: Node, prev: Node)
    requires Walk(q, p, v, m, nid, standard, cur, last, prev) && m < |q| && Eligible(q[m], nid, standard)
    ensures LastAt(q, p, v, m, nid, standard) < m < |cur|
    ensures Walk(q, p, v, m + 1, nid, standard, MovedUp(cur, LastAt(q, p, v, m, nid, standard), m), q[m],
                 if last == prev then q[m] else prev)
    ensures last == prev ==> MovedUp(cur, LastAt(q, p, v, m, nid, standard), m) == cur
  {
    hide Shuffled, LastAt;
    var a := LastAt(q, p, v, m, nid, standard);
    ShuffledNext(q, p, v, m, nid, standard);
    FrontOf(q, p, v, m, nid, standard, cur, last, prev);
    MovedUpDistinct(cur, a, m);
    var r := MovedUp(cur, a, m);
    forall i | 0 <= i < |r| ensures r[i] in q {
      assert r[i] == cur[if i <= a then i else if i == a + 1 then m else if i <= m then i - 1 else i];
    }
    if last == prev { MovedUpSame(cur, a, m); }
  }

  // What the walk does not relink: the nodes' other fields.

  datatype Mark = Mark(sleader: bool, lastVisited: Node?, lstatus: bool)

  function Marks(q: seq<Node>): (r: seq<Mark>)
    reads q
    ensures |r| == |q|
  {
    seq(|q|, i requires 0 <= i < |q| reads q => Mark(q[i].sleader, q[i].lastVisited, q[i].lstatus))
  }

  function Counts(q: seq<Node>): (r: seq<nat>)
    reads q
    ensures |r| == |q|
  {
    seq(|q|, i requires 0 <= i < |q| reads q => q[i].wcount)
  }

  /** The counts after the nodes from v + 1 up to m were processed. */
  function Counted(cs: seq<nat>, q: seq<Node>, v: nat, m: nat, nid: nat, standard: nat, count: nat): (r: seq<nat>)
    requires |cs| == |q|
    ensures |r| == |q|
  {
    seq(|q|, i requires 0 <= i < |q| => if v < i < m && Eligible(q[i], nid, standard) then count else cs[i])
  }

  lemma CountedNone(cs: seq<nat>, q: seq<Node>, v: nat, nid: nat, standard: nat, count: nat)
    requires |cs| == |q|
    ensures Counted(cs, q, v, v + 1, nid, standard, count) == cs
  {
  }

  lemma CountedOne(cs: seq<nat>, q: seq<Node>, v: nat, m: nat, nid: nat, standard: nat, count: nat)
    requires |cs| == |q| && v < m < |q|
    ensures Counted(cs, q, v, m + 1, nid, standard, count) ==
      if Eligible(q[m], nid, standard) then Counted(cs, q, v, m, nid, standard, count)[m := count] else Counted(cs, q, v, m, nid, standard, count)
  {
  }

  /** One node of the walk: it is skipped, marked or moved up. */
  method Handle(node: Node, last: Node, prev: Node, curr: Node, count: nat,
               ghost q: seq<Node>, ghost p: nat, ghost v: nat, ghost m: nat, nid: nat, standard: nat, ghost cur: seq<Node>)
    returns (done: bool, moved: bool, last': Node, prev': Node, ghost cur': seq<Node>)
    requires m < |q| && Walk(q, p, v, m, nid, standard, cur, last, prev) && Linked(cur) && node == q[p] && curr == q[m]
    modifies q
    ensures done ==> cur' == cur && last' == last && prev' == prev && Linked(cur) && m == |q| - 1
    ensures moved == (!done && Eligible(curr, nid, standard)) && last' == (if moved then curr else last) && curr != node
    ensures !done ==> Walk(q, p, v, m + 1, nid, standard, cur', last', prev') && Linked(cur')
    ensures !done && m == |q| - 1 ==> cur' == cur
    ensures q[0].prev == old(q[0].prev)
    ensures forall n :: n in q ==> n.lastVisited == old(n.lastVisited) && n.sleader == old(n.sleader) && n.lstatus == old(n.lstatus)
    ensures forall n :: n in q && n != curr ==> n.wcount == old(n.wcount)
    ensures curr.wcount == if !done && Eligible(curr, nid, standard) then count else old(curr.wcount)
  {
    hide Shuffled, LastAt, MovedUp, Walk, Chosen;
    WalkBounds(q, p, v, m, nid, standard, cur, last, prev);
    FrontOf(q, p, v, m, nid, standard, cur, last, prev);
    ghost var a := LastAt(q, p, v, m, nid, standard);
    if Eligible(curr, nid, standard) { WalkMove(q, p, v, m, nid, standard, cur, last, prev); }
    else { WalkSkip(q, p, v, m, nid, standard, cur, last, prev); }
    done, moved, last', prev', cur' := false, false, last, prev, cur;
    if curr.runtime > standard {
      prev' := curr;
    } else if curr.nid == nid {
      if prev == node && prev.nid == nid {
        curr.wcount := count;
        last', prev', moved := curr, curr, true;
      } else {
        var next := curr.next;
        assert m + 1 < |cur| ==> next == cur[m + 1];
        if next == null {
          done := true;
          return;
        }
        curr.wcount := count;
        if last != prev {
          Splice(last, prev, curr, next, cur, a, m);
          cur' := MovedUp(cur, a, m);
        } else {
          prev' := curr;
        }
        last', moved := curr, true;
      }
    } else {
      prev' := curr;
    }
  }

  method Visit(node: Node, last: Node, prev: Node, curr: Node, count: nat,
               ghost q: seq<Node>, ghost p: nat, ghost v: nat, ghost m: nat, nid: nat, standard: nat, ghost cur: seq<Node>)
    returns (done: bool, moved: bool, last': Node, prev': Node, ghost cur': seq<Node>)
    requires m < |q| && Walk(q, p, v, m, nid, standard, cur, last, prev) && Linked(cur) && node == q[p] && curr == q[m]
    modifies q
    ensures done ==> cur' == cur && last' == last && prev' == prev && Linked(cur) && m == |q| - 1
    ensures moved == (!done && Eligible(curr, nid, standard)) && last' == (if moved then curr else last) && curr != node
    ensures !done ==> Walk(q, p, v, m + 1, nid, standard, cur', last', prev') && Linked(cur')
    ensures !done && m == |q| - 1 ==> cur' == cur
    ensures q[0].prev == old(q[0].prev) && Marks(q) == old(Marks(q))
    ensures Counts(q) == if !done && Eligible(curr, nid, standard) then old(Counts(q))[m := count] else old(Counts(q))
  {
    assert forall i :: 0 <= i < |q| && i != m ==> q[i] != curr by { hide Shuffled, LastAt; }
    hide Walk, Linked;
    done, moved, last', prev', cur' := Handle(node, last, prev, curr, count, q, p, v, m, nid, standard, cur);
  }

  lemma WalkBounds(q: seq<Node>, p: nat, v: nat, m: nat, nid: nat, standard: nat, cur: seq<Node>, last: Node, prev: Node)
    requires Walk(q, p, v, m, nid, standard, cur, last, prev)
    ensures p <= v < m <= |q| == |cur| && LastAt(q, p, v, m, nid, standard) < m
    ensures last == cur[LastAt(q, p, v, m, nid, standard)] && prev == cur[m - 1] && last in q && prev in q
    ensures cur == Shuffled(q, p, v, m, nid, standard)
    ensures forall i :: 0 <= i < |cur| ==> cur[i] in q
  {
  }

  /** The loop: it ends at the tail, at a node that is not linked on, or, once
      somebody was found eligible, when the lock is ready.  What it reads of the
      lock's state then is left open. */
  method WalkQueue(lock: Lock, node: Node, start: Node, count: nat, ghost q: seq<Node>, ghost p: nat, ghost v: nat, nid: nat, standard: nat)
    returns (last: Node, prev: Node, ready: bool, ghost m: nat, ghost cur: seq<Node>)
    requires Linked(q) && p <= v < |q| && node == q[p] && start == q[v]
    requires lock.tail != null && forall i :: 0 <= i < |q| - 1 ==> lock.tail != q[i]
    modifies q
    ensures Walk(q, p, v, m, nid, standard, cur, last, prev) && Linked(cur) && q[0].prev == old(q[0].prev)
    ensures v < m <= |q| == |cur| && cur[|q| - 1] == q[|q| - 1] && (m == |q| ==> m == v + 1 || q[|q| - 1] != lock.tail)
    ensures Marks(q) == old(Marks(q)) && Counts(q) == Counted(old(Counts(q)), q, v, m, nid, standard, count)
    ensures m < |q| - 1 ==> ready && last != node
  {
    hide Shuffled, LastAt, MovedUp, Walk, Chosen, Marks, Counts, Counted;
    CountedNone(Counts(q), q, v, nid, standard, count);
    last, prev, ready, m, cur := node, start, false, v + 1, q;
    var oneShuffle := false;
    WalkFirst(q, p, v, nid, standard);
    while true
      invariant Walk(q, p, v, m, nid, standard, cur, last, prev) && Linked(cur) && q[0].prev == old(q[0].prev)
      invariant Marks(q) == old(Marks(q)) && Counts(q) == Counted(old(Counts(q)), q, v, m, nid, standard, count)
      invariant v < m <= |q| == |cur| && cur[|q| - 1] == q[|q| - 1]
      invariant m == |q| ==> m == v + 1 || q[|q| - 1] != lock.tail
      invariant oneShuffle ==> last != node
      decreases |q| - m
    {
      if prev.next == null {
        WalkStops(q, p, v, m, nid, standard, cur, last, prev);
        break;
      }
      var curr: Node := prev.next;
      WalkNext(q, p, v, m, nid, standard, cur, last, prev);
      if curr == lock.tail { break; }
      var done, moved, last', prev', cur' := Visit(node, last, prev, curr, count, q, p, v, m, nid, standard, cur);
      if done { break; }
      CountedOne(old(Counts(q)), q, v, m, nid, standard, count);
      last, prev, cur, m := last', prev', cur', m + 1;
      WalkTail(q, p, v, m, nid, standard, cur, last, prev);
      oneShuffle := oneShuffle || moved;
      if oneShuffle {
        ready := *;
        if ready { break; }
      }
    }
  }

  /** The chosen socket and runtime standard: anybody of the shuffler's socket
      until statistics have named one. */
  function SocketFor(allowedNid: nat, own: nat): nat { if allowedNid == ANY_SOCKET then own else allowedNid }
  function StandardFor(allowedNid: nat, avgRuntime: nat): nat { if allowedNid == ANY_SOCKET then UINT_MAX else avgRuntime }

  /** Of the nodes from v + 1 up to m exactly those of socket nid that ran no
      longer than `limit` stand right behind the p-th, in their order; the last of
      them leads on, and all other nodes keep their order. */
  ghost predicate StandFirst(q: seq<Node>, r: seq<Node>, p: nat, v: nat, m: nat, nid: nat, limit: nat, leader: Node)
    requires p <= v < m <= |q| == |r|
  {
    exists k :: 0 <= k < m - v && MovedFirst(q, r, p, v, m, nid, limit, k) && leader == r[p + k]
  }

  /** k nodes stand first. */
  ghost predicate MovedFirst(q: seq<Node>, r: seq<Node>, p: nat, v: nat, m: nat, nid: nat, limit: nat, k: nat)
    requires p <= v < m <= |q| == |r| && k < m - v
  {
    && r[..p + 1] == q[..p + 1] && r[p + k + 1..v + k + 1] == q[p + 1..v + 1] && r[m..] == q[m..]
    && Stable(q, v + 1, m, r[p + 1..p + k + 1]) && Stable(q, v + 1, m, r[v + k + 1..m])
    && forall i :: v < i < m ==>
         && (q[i] in r[p + 1..p + k + 1] <==> q[i].nid == nid && q[i].runtime <= limit)
         && (q[i] in r[v + k + 1..m] <==> !(q[i].nid == nid && q[i].runtime <= limit))
  }

  /** Part of q[i..j], in the order of q. */
  ghost predicate Stable(q: seq<Node>, i: nat, j: nat, part: seq<Node>)
    requires i <= j <= |q|
  {
    (forall n :: n in part ==> n in q[i..j]) && forall a, b :: 0 <= a < b < |part| ==> Before(q, part[a], part[b])
  }

  lemma ShuffledStandFirst(q: seq<Node>, p: nat, v: nat, m: nat, nid: nat, standard: nat)
    requires p <= v < m <= |q| && Distinct(q)
    ensures |Shuffled(q, p, v, m, nid, standard)| == |q| && LastAt(q, p, v, m, nid, standard) < |q|
    ensures StandFirst(q, Shuffled(q, p, v, m, nid, standard), p, v, m, nid, standard,
                       Shuffled(q, p, v, m, nid, standard)[LastAt(q, p, v, m, nid, standard)])
  {
    var k := |Chosen(q[v + 1..m], nid, standard)|;
    assert LastAt(q, p, v, m, nid, standard) == p + k;
    hide Shuffled, LastAt, Chosen, Others, MovedFirst;
    ShuffledMovedFirst(q, p, v, m, nid, standard, k);
  }

  lemma ShuffledMovedFirst(q: seq<Node>, p: nat, v: nat, m: nat, nid: nat, standard: nat, k: nat)
    requires p <= v < m <= |q| && Distinct(q) && k == |Chosen(q[v + 1..m], nid, standard)|
    ensures |Shuffled(q, p, v, m, nid, standard)| == |q| && k < m - v
    ensures MovedFirst(q, Shuffled(q, p, v, m, nid, standard), p, v, m, nid, standard, k)
  {
    var part := q[v + 1..m];
    var c, o := Chosen(part, nid, standard), Others(part, nid, standard);
    assert Shuffled(q, p, v, m, nid, standard) == q[..p + 1] + c + q[p + 1..v + 1] + o + q[m..];
    hide Shuffled, Chosen, Others, Stable, MovedFirst, Before;
    PartitionSizes(part, nid, standard);
    StablePart(q, v + 1, m, nid, standard);
    PartMembers(q, v, m, nid, standard);
    MovedFirstOf(q, p, v, m, nid, standard, c, o);
  }

  lemma PartMembers(q: seq<Node>, v: nat, m: nat, nid: nat, standard: nat)
    requires v < m <= |q|
    ensures forall i :: v < i < m ==>
      && (q[i] in Chosen(q[v + 1..m], nid, standard) <==> q[i].nid == nid && q[i].runtime <= standard)
      && (q[i] in Others(q[v + 1..m], nid, standard) <==> !(q[i].nid == nid && q[i].runtime <= standard))
  {
    var part := q[v + 1..m];
    var c, o := Chosen(part, nid, standard), Others(part, nid, standard);
    hide Chosen, Others;
    forall i | v < i < m ensures (q[i] in c <==> q[i].nid == nid && q[i].runtime <= standard) && (q[i] in o <==> !(q[i].nid == nid && q[i].runtime <= standard)) {
      assert part[i - v - 1] == q[i];
      ChosenOnly(part, nid, standard, q[i]);
    }
  }

  lemma MovedFirstOf(q: seq<Node>, p: nat, v: nat, m: nat, nid: nat, limit: nat, c: seq<Node>, o: seq<Node>)
    requires p <= v < m <= |q| && |c| + |o| == m - v - 1 && Stable(q, v + 1, m, c) && Stable(q, v + 1, m, o)
    requires forall i :: v < i < m ==>
      (q[i] in c <==> q[i].nid == nid && q[i].runtime <= limit) && (q[i] in o <==> !(q[i].nid == nid && q[i].runtime <= limit))
    ensures var r := q[..p + 1] + c + q[p + 1..v + 1] + o + q[m..];
      |r| == |q| && MovedFirst(q, r, p, v, m, nid, limit, |c|)
  {
    hide Stable;
    var a, b, e := q[..p + 1], q[p + 1..v + 1], q[m..];
    var r := a + c + b + o + e;
    SlicesOf(a, c, b, o, e);
    assert |a| == p + 1 && |a| + |c| + |b| == v + |c| + 1 && |a| + |c| + |b| + |o| == m;
  }

  lemma SlicesOf(a: seq<Node>, c: seq<Node>, b: seq<Node>, o: seq<Node>, e: seq<Node>)
    ensures var r := a + c + b + o + e; var i, j, k := |a| + |c|, |a| + |c| + |b|, |a| + |c| + |b| + |o|;
      |r| == k + |e| && r[..|a|] == a && r[|a|..i] == c && r[i..j] == b && r[j..k] == o && r[k..] == e
  {
  }

  lemma StablePart(q: seq<Node>, i: nat, j: nat, nid: nat, standard: nat)
    requires i <= j <= |q| && Distinct(q)
    ensures Stable(q, i, j, Chosen(q[i..j], nid, standard)) && Stable(q, i, j, Others(q[i..j], nid, standard))
  {
    var c, o := Chosen(q[i..j], nid, standard), Others(q[i..j], nid, standard);
    hide Chosen, Others;
    forall n | n in c ensures n in q[i..j] { ChosenOnly(q[i..j], nid, standard, n); }
    forall n | n in o ensures n in q[i..j] { ChosenOnly(q[i..j], nid, standard, n); }
    forall a, b | 0 <= a < b < |c| ensures Before(q, c[a], c[b]) { PartOrder(q, i, j, nid, standard, c[a], c[b]); }
    forall a, b | 0 <= a < b < |o| ensures Before(q, o[a], o[b]) { PartOrder(q, i, j, nid, standard, o[a], o[b]); }
  }

  lemma PartOrder(q: seq<Node>, i: nat, j: nat, nid: nat, standard: nat, a: Node, b: Node)
    requires i <= j <= |q| && Distinct(q)
    requires Before(Chosen(q[i..j], nid, standard), a, b) || Before(Others(q[i..j], nid, standard), a, b)
    ensures Before(q, a, b)
  {
    StableOrder(q[i..j], nid, standard, a, b);
    var x, y :| 0 <= x < y < |q[i..j]| && q[i..j][x] == a && q[i..j][y] == b;
    assert q[i + x] == a && q[i + y] == b;
  }

  /** One shuffle by the waiter `node`, the p-th of the queue.  It starts behind
      `lastVisited` (the v-th) or, without one, behind itself, and goes on to the
      tail unless somebody was moved up and the lock is ready by then.  Which
      socket the statistics choose is left open. */
  method ShuffleWaiters(lock: Lock, node: Node, ghost q: seq<Node>, ghost p: nat, ghost v: nat)
    returns (sleader: Node, qend: Node, ghost m: nat, ghost r: seq<Node>)
    requires Linked(q) && p <= v < |q| && node == q[p]
    requires node.lastVisited == (if v == p then null else q[v])
    requires lock.tail != null && forall i :: 0 <= i < |q| - 1 ==> lock.tail != q[i]
    modifies q, lock`allowedNid, lock`avgRuntime
    ensures v < m <= |q| && (m == |q| ==> m == v + 1 || q[|q| - 1] != lock.tail)
    ensures Linked(r) && |r| == |q| && r[|q| - 1] == q[|q| - 1] && qend == r[m - 1]
    ensures m < |q| - 1 ==> sleader != node && lock.allowedNid == old(lock.allowedNid) && lock.avgRuntime == old(lock.avgRuntime)
    ensures old(lock.allowedNid) == 100 ==> StandFirst(q, r, p, v, m, node.nid, 0xFFFF_FFFF, sleader)
    ensures old(lock.allowedNid) != 100 ==> StandFirst(q, r, p, v, m, old(lock.allowedNid), old(lock.avgRuntime), sleader)
    ensures q[0].prev == old(q[0].prev)
    ensures var count := if old(node.wcount) == 0 then 1 else old(node.wcount);
      && Counts(q)[p] == count
      && forall i :: 0 <= i < |q| && i != p ==>
           Counts(q)[i] == if v < i < m && (if old(lock.allowedNid) == 100 then q[i].nid == node.nid && q[i].runtime <= 0xFFFF_FFFF
                                            else q[i].nid == old(lock.allowedNid) && q[i].runtime <= old(lock.avgRuntime))
                           then count else old(Counts(q))[i]
    ensures sleader in q && forall i :: 0 <= i < |q| ==>
      Marks(q)[i] == if q[i] == sleader then Mark(true, NextStart(old(lock.allowedNid), lock.allowedNid, sleader, qend, old(Marks(q))[i].lastVisited), old(Marks(q))[i].lstatus)
                     else if i == p then old(Marks(q))[i].(sleader := false) else old(Marks(q))[i]
  {
    assert Counts(q)[p] == node.wcount;
    hide Distinct, StandFirst, Linked, Counts, Marks, NextStart;
    var nid, standard := SocketFor(lock.allowedNid, node.nid), StandardFor(lock.allowedNid, lock.avgRuntime);
    var ready;
    sleader, qend, ready, m, r := WalkFrom(lock, node, q, p, v, nid, standard);
    Finish(lock, sleader, qend, !ready, r, q);
  }

  /** Where the next leader starts: where this one ended, unless the statistics
      chose another socket. */
  function NextStart(allowed: nat, allowed': nat, sleader: Node, qend: Node, was: Node?): Node? {
    if allowed != 100 && allowed' != allowed then null else if qend != sleader then qend else was
  }

  /** The shuffler takes part in no other shuffle. */
  method Begin(node: Node, ghost q: seq<Node>, ghost p: nat, ghost v: nat) returns (start: Node, count: nat)
    requires Linked(q) && p <= v < |q| && node == q[p] && node.lastVisited == (if v == p then null else q[v])
    modifies node`wcount, node`sleader
    ensures Linked(q) && start == q[v] && count == if old(node.wcount) == 0 then 1 else old(node.wcount)
    ensures Marks(q) == old(Marks(q))[p := old(Marks(q))[p].(sleader := false)] && Counts(q) == old(Counts(q))[p := count]
  {
    start := if node.lastVisited == null then node else node.lastVisited;
    count := node.wcount;
    if count == 0 { count := 1; node.wcount := count; }
    node.sleader := false;
  }

  /** The walk from where the last one ended. */
  method WalkFrom(lock: Lock, node: Node, ghost q: seq<Node>, ghost p: nat, ghost v: nat, nid: nat, standard: nat)
    returns (last: Node, prev: Node, ready: bool, ghost m: nat, ghost r: seq<Node>)
    requires Linked(q) && p <= v < |q| && node == q[p]
    requires node.lastVisited == (if v == p then null else q[v])
    requires lock.tail != null && forall i :: 0 <= i < |q| - 1 ==> lock.tail != q[i]
    modifies q
    ensures v < m <= |q| && (m == |q| ==> m == v + 1 || q[|q| - 1] != lock.tail)
    ensures Linked(r) && |r| == |q| && r[|q| - 1] == q[|q| - 1] && prev == r[m - 1] && last in q && last in r
    ensures StandFirst(q, r, p, v, m, nid, standard, last) && q[0].prev == old(q[0].prev)
    ensures Marks(q) == old(Marks(q))[p := old(Marks(q))[p].(sleader := false)]
    ensures var count := if old(Counts(q))[p] == 0 then 1 else old(Counts(q))[p];
      && Counts(q)[p] == count
      && forall i :: 0 <= i < |q| && i != p ==>
           Counts(q)[i] == if v < i < m && q[i].nid == nid && q[i].runtime <= standard then count else old(Counts(q))[i]
    ensures m < |q| - 1 ==> ready && last != node
  {
    assert Distinct(q) && Counts(q)[p] == node.wcount;
    hide Shuffled, LastAt, Walk, Distinct, StandFirst, Linked, Marks, Counts;
    var start, count := Begin(node, q, p, v);
    last, prev, ready, m, r := WalkQueue(lock, node, start, count, q, p, v, nid, standard);
    WalkEnd(q, p, v, m, nid, standard, r, last, prev);
  }

  lemma WalkEnd(q: seq<Node>, p: nat, v: nat, m: nat, nid: nat, standard: nat, cur: seq<Node>, last: Node, prev: Node)
    requires Walk(q, p, v, m, nid, standard, cur, last, prev) && Distinct(q)
    ensures |cur| == |q| && p <= v < m <= |q| && StandFirst(q, cur, p, v, m, nid, standard, last)
    ensures prev == cur[m - 1] && last in cur && last in q
  {
    hide Shuffled, LastAt, Walk, Distinct, StandFirst;
    WalkBounds(q, p, v, m, nid, standard, cur, last, prev);
    ShuffledStandFirst(q, p, v, m, nid, standard);
  }

  lemma WalkFirst(q: seq<Node>, p: nat, v: nat, nid: nat, standard: nat)
    requires p <= v < |q| && Distinct(q)
    ensures Walk(q, p, v, v + 1, nid, standard, q, q[p], q[v])
  {
    ShuffledFirst(q, p, v, nid, standard);
  }

  lemma WalkTail(q: seq<Node>, p: nat, v: nat, m: nat, nid: nat, standard: nat, cur: seq<Node>, last: Node, prev: Node)
    requires Walk(q, p, v, m, nid, standard, cur, last, prev)
    ensures |cur| == |q| && (m < |q| ==> cur[|q| - 1] == q[|q| - 1])
  {
    hide Chosen, Others;
  }

  /** The last eligible waiter leads the next shuffle, which starts where this
      one ended unless the statistics chose another socket. */
  method Finish(lock: Lock, sleader: Node, qend: Node, statistics: bool, ghost cur: seq<Node>, ghost q: seq<Node>)
    requires Linked(cur) && sleader in cur
    modifies sleader`sleader, sleader`lastVisited, lock`allowedNid, lock`avgRuntime
    ensures Linked(cur) && Counts(q) == old(Counts(q)) && (if statistics then lock.allowedNid < 4 else lock.allowedNid == old(lock.allowedNid) && lock.avgRuntime == old(lock.avgRuntime))
    ensures forall i :: 0 <= i < |q| ==>
      Marks(q)[i] == if q[i] == sleader then Mark(true, NextStart(old(lock.allowedNid), lock.allowedNid, sleader, qend, old(Marks(q))[i].lastVisited), old(Marks(q))[i].lstatus)
                     else old(Marks(q))[i]
  {
    var forget := false;
    if statistics {
      var socket, runtime :| 0 <= socket < 4 && 0 <= runtime;
      forget := lock.allowedNid != ANY_SOCKET && lock.allowedNid != socket;
      lock.allowedNid, lock.avgRuntime := socket, runtime;
    }
    sleader.sleader := true;
    if forget { sleader.lastVisited := null; } else if qend != sleader { sleader.lastVisited := qend; }
  }

  lemma WalkStops(q: seq<Node>, p: nat, v: nat, m: nat, nid: nat, standard: nat, cur: seq<Node>, last: Node, prev: Node)
    requires Walk(q, p, v, m, nid, standard, cur, last, prev) && Linked(cur)
    ensures prev.next == null <==> m == |q|
  {
    hide Shuffled, LastAt;
    if m < |q| { assert cur[m - 1].next == cur[m]; }
  }

  lemma WalkNext(q: seq<Node>, p: nat, v: nat, m: nat, nid: nat, standard: nat, cur: seq<Node>, last: Node, prev: Node)
    requires Walk(q, p, v, m, nid, standard, cur, last, prev) && Linked(cur) && prev.next != null
    ensures m < |q| && prev.next == cur[m] == q[m]
  {
    if m < |q| { ShuffledNext(q, p, v, m, nid, standard); }
  }
}
