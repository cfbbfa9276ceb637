/** The majority scan of assign4/AppendEntriesResponse.go:56-79 tries only indices that some peer has
    acknowledged, and asks for `len(peer)/2 + 1` copies, which is half of an even cluster. For the other
    clusters it finds the greatest index that a leader may commit. */
module CommitScan {
  import opened Commands
  import opened RaftTypes
  import opened NodeStep
  import opened Quorums
  import opened Invariants

  /** A majority of the servers, the leader included, hold the leader's log up to index N. */
  predicate OnMajority(n: Node, N: int) {
    2 * (1 + Copies(n.matchIndex, N)) > |n.peers| + 1
  }

  /** The rule for leaders in Figure 3 of the Raft paper: N is past the commit index, of the current
      term, and on a majority of the servers. */
  predicate MayCommit(n: Node, N: int) {
    n.commit < N < |n.log| && 0 <= N && n.log[N].term == n.term && OnMajority(n, N)
  }

  /** A well-formed leader. */
  predicate Leading(n: Node) {
    n.role == Leader && NodeOk(n) && IndicesInRange(n) && n.commit < |n.log|
  }

  /** The scan returns the greatest index that may be committed, or -1 if there is none. */
  ghost predicate FindsGreatest(n: Node)
    requires Leading(n)
  {
    var best := Scan(n, |n.peers|);
    && (best != -1 ==> MayCommit(n, best))
    && (forall N :: MayCommit(n, N) ==> N <= best)
  }

  /** Some acknowledged index is at or beyond `at`, if any copy counts; the least such has as many copies. */
  lemma {:induction false} LeastAcknowledged(ms: seq<int>, at: int) returns (i: nat)
    requires Copies(ms, at) > 0
    ensures i < |ms| && ms[i] >= at && Copies(ms, ms[i]) == Copies(ms, at)
  {
    var k := |ms| - 1;
    if Copies(ms[..k], at) == 0 {
      NoneAbove(ms[..k], at, ms[k]);
      i := k;
    } else {
      i := LeastAcknowledged(ms[..k], at);
      if ms[k] >= at && ms[k] < ms[i] {
        SameCopies(ms[..k], at, ms[i], ms[k]);
        i := k;
      }
    }
  }

  lemma {:induction false} NoneAbove(ms: seq<int>, at: int, m: int)
    requires Copies(ms, at) == 0 && m >= at
    ensures Copies(ms, m) == 0
  {
    if ms != [] { NoneAbove(ms[..|ms| - 1], at, m); }
  }

  /** Counting from a point between two with equal counts gives the same count. */
  lemma {:induction false} SameCopies(ms: seq<int>, lo: int, hi: int, mid: int)
    requires Copies(ms, lo) == Copies(ms, hi) && lo <= mid <= hi
    ensures Copies(ms, mid) == Copies(ms, lo)
  {
    FewerCopies(ms, lo, mid);
    FewerCopies(ms, mid, hi);
  }

  lemma {:induction false} FewerCopies(ms: seq<int>, lo: int, hi: int)
    requires lo <= hi
    ensures Copies(ms, hi) <= Copies(ms, lo)
  {
    if ms != [] { FewerCopies(ms[..|ms| - 1], lo, hi); }
  }

  /** For these sizes, what the scan asks of an index that some peer has acknowledged is a majority. */
  lemma {:induction false} QuotaIsMajority(n: Node, N: int)
    requires SafeSize(|n.peers| + 1) && Copies(n.matchIndex, N) > 0
    ensures 1 + Copies(n.matchIndex, N) >= Quota(n) <==> OnMajority(n, N)
  {}

  lemma {:induction false} CountsItself(ms: seq<int>, i: nat)
    requires i < |ms|
    ensures Copies(ms, ms[i]) > 0
  {
    if i < |ms| - 1 { CountsItself(ms[..|ms| - 1], i); }
  }

  /** The scan is exact where there is a peer and the cluster is of a safe size. */
  lemma ScanIsExact(n: Node)
    requires Leading(n) && |n.peers| >= 1 && SafeSize(|n.peers| + 1)
    ensures FindsGreatest(n)
  {
    var best := Scan(n, |n.peers|);
    if best != -1 {
      var i :| 0 <= i < |n.peers| && Committable(n, i) && n.matchIndex[i] == best;
      CountsItself(n.matchIndex, i);
      QuotaIsMajority(n, best);
    }
    forall N | MayCommit(n, N) ensures N <= best {
      var i := LeastAcknowledged(n.matchIndex, N);
      assert n.log[N].term <= n.log[n.matchIndex[i]].term <= n.term;
      CountsItself(n.matchIndex, i);
      QuotaIsMajority(n, n.matchIndex[i]);
      assert Committable(n, i);
    }
  }

  /** A leader of term 1 with one entry, which the first `k` of its `p` peers have acknowledged. */
  function FirstEntry(p: nat, k: nat): Node {
    Node(1, seq(p, i => i + 2), Leader, 1, 1, [Entry(1, Bare('w'))], -1,
         seq(p, i => 0), seq(p, i => if i < k then 0 else -1), 0, 0)
  }

  lemma {:induction false} FirstCopies(ms: seq<int>, k: nat)
    requires forall i :: 0 <= i < |ms| ==> ms[i] == if i < k then 0 else -1
    ensures Copies(ms, 0) == if k < |ms| then k else |ms|
  {
    if ms != [] { FirstCopies(ms[..|ms| - 1], k); }
  }

  /** In an even cluster of at least four servers the scan commits what only half of them hold; without
      peers it never commits what the leader alone holds. */
  lemma ScanFails(p: nat)
    requires p == 0 || !SafeSize(p + 1)
    ensures Leading(FirstEntry(p, p / 2)) && |FirstEntry(p, p / 2).peers| == p
    ensures !FindsGreatest(FirstEntry(p, p / 2))
  {
    var n := FirstEntry(p, p / 2);
    FirstCopies(n.matchIndex, p / 2);
    if p == 0 {
      assert MayCommit(n, 0);
    } else {
      assert Committable(n, 0) && !OnMajority(n, 0);
    }
  }

  /** The scan finds the greatest index a leader may commit, for all leaders with `p` peers, if and only
      if there is a peer and the cluster is of a safe size. */
  lemma ScanExactIff(p: nat)
    ensures (forall n :: Leading(n) && |n.peers| == p ==> FindsGreatest(n)) <==> p >= 1 && SafeSize(p + 1)
  {
    if p >= 1 && SafeSize(p + 1) {
      forall n | Leading(n) && |n.peers| == p ensures FindsGreatest(n) { ScanIsExact(n); }
    } else {
      ScanFails(p);
    }
  }
}
