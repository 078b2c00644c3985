/** How much is left to do: the sum of what is left to each thread. */
module Sums {
  function Total(rs: seq<nat>): nat {
    if rs == [] then 0 else Total(rs[..|rs| - 1]) + rs[|rs| - 1]
  }

  /** One thread got closer to its end and no other further away from it. */
  lemma {:induction false} LessLeft(rs: seq<nat>, rs': seq<nat>, t: nat)
    requires t < |rs| == |rs'| && rs'[t] < rs[t] && forall u :: 0 <= u < |rs| ==> rs'[u] <= rs[u]
    ensures Total(rs') < Total(rs)
  {
    var n := |rs| - 1;
    if t < n { LessLeft(rs[..n], rs'[..n], t); } else { NoMoreLeft(rs[..n], rs'[..n]); }
  }

  lemma {:induction false} NoMoreLeft(rs: seq<nat>, rs': seq<nat>)
    requires |rs| == |rs'| && forall u :: 0 <= u < |rs| ==> rs'[u] <= rs[u]
    ensures Total(rs') <= Total(rs)
  {
    if rs != [] { NoMoreLeft(rs[..|rs| - 1], rs'[..|rs| - 1]); }
  }

  /** One thread's share changed. */
  lemma {:induction false} ShareChanged(rs: seq<nat>, t: nat, r: nat)
    requires t < |rs|
    ensures Total(rs[t := r]) == Total(rs) - rs[t] + r
  {
    var n := |rs| - 1;
    if t < n {
      ShareChanged(rs[..n], t, r);
      assert rs[t := r][..n] == rs[..n][t := r];
    } else {
      assert rs[t := r][..n] == rs[..n];
    }
  }
}
