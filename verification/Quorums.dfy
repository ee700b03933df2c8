/** Majorities of a cluster of `n` servers. */
module Quorums {
  import opened Collections

  ghost predicate Servers(n: nat, q: set<int>) {
    forall i :: i in q ==> 0 <= i < n
  }

  /** More than half of the servers, as `count > len(peers)/2` asks. */
  ghost predicate Quorum(n: nat, q: set<int>) {
    Servers(n, q) && |q| > n / 2
  }

  /** Any two majorities share a server. */
  lemma Intersect(n: nat, p: set<int>, q: set<int>) returns (i: int)
    requires Quorum(n, p) && Quorum(n, q)
    ensures i in p && i in q && 0 <= i < n
  {
    var both := p * q;
    SubsetSize(p + q, UpTo(n));
    assert |p + q| + |both| == |p| + |q|;
    assert both != {};
    i :| i in both;
  }
}
