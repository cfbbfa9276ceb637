/** Sets of nodes large enough to elect a leader or commit an entry. */
module Quorums {

  /** A set that can pass the tests of assign4/VoteResponse.go:44 and AppendEntriesResponse.go:66:
      it has `len(peer)/2 + 1` members, and always at least two, because a vote must be received
      and an index must be acknowledged before either test is made. */
  ghost predicate IsQuorum(ids: set<int>, q: set<int>) {
    q <= ids && |q| >= (|ids| - 1) / 2 + 1 && |q| >= 2
  }

  /** Cluster sizes for which any two such sets meet. */
  predicate SafeSize(n: nat) {
    n % 2 == 1 || n == 2
  }

  lemma UnionSize(a: set<int>, b: set<int>)
    requires a !! b
    ensures |a + b| == |a| + |b|
  {}

  lemma SubsetSize(a: set<int>, b: set<int>)
    requires a <= b
    ensures |a| <= |b|
  {
    assert b == a + (b - a);
    UnionSize(a, b - a);
  }

  lemma QuorumsMeet(ids: set<int>, q: set<int>, r: set<int>) returns (v: int)
    requires SafeSize(|ids|) && IsQuorum(ids, q) && IsQuorum(ids, r)
    ensures v in q && v in r && v in ids
  {
    if forall x :: x in q ==> x !in r {
      UnionSize(q, r);
      SubsetSize(q + r, ids);
      assert false;
    }
    v :| v in q && v in r;
  }
}
