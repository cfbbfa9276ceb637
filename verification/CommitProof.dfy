/** Every move keeps the invariant that what a node has committed, or announces as committed, is
    covered by an entry that a quorum accepted in the term of the leader that created it. */
module CommitProof {
  import opened RaftTypes
  import opened NodeStep
  import opened ClusterModel
  import opened History
  import opened Quorums
  import opened Invariants
  import opened Effects
  import opened VoteProof
  import opened ReignProof
  import opened LogFacts
  import opened LogProof
  import opened AcceptProof
  import opened CompleteProof

  // ----- chosen entries

  lemma ChosenNotDead(s: Cluster, h: History, T: int, k: int)
    requires SafeSize(|s.nodes.Keys|) && Chosen(s.nodes.Keys, h, T, k)
    ensures !Dead(s, h, T, k)
  {
    if Dead(s, h, T, k) {
      var q :| DeadBy(s, h, T, k, q);
      var r :| ChosenBy(s.nodes.Keys, h, T, k, r);
      var v := QuorumsMeet(s.nodes.Keys, q, r);
      assert false;
    }
  }

  /** Later leaders are elected with every chosen entry. */
  lemma ChosenInLater(s: Cluster, h: History, T: int, k: int, T': int)
    requires SafeSize(|s.nodes.Keys|) && Chosen(s.nodes.Keys, h, T, k)
    requires CompleteInv(s, h) && T' in h.reigns && T < T'
    ensures Agree(h.reigns[T'].log[..Base(h, T')], h.reigns[T].log, k + 1)
  {
    ChosenNotDead(s, h, T, k);
    assert Kept(s, h, T, k, h.reigns[T'].log[..Base(h, T')]);
  }

  lemma ChosenStays(ids: set<int>, h: History, h': History, T: int, k: int)
    requires Grown(h, h') && Chosen(ids, h, T, k)
    ensures Chosen(ids, h', T, k)
  {
    var q :| ChosenBy(ids, h, T, k, q);
    assert ReignGrows(h, h', T);
    forall v | v in q ensures Holds(h', T, v, k) { assert Holds(h, T, v, k); }
    assert ChosenBy(ids, h', T, k, q);
  }

  lemma CoveredStays(ids: set<int>, h: History, h': History, x: seq<Entry>, x': seq<Entry>, c: int, T: int, k: int)
    requires Grown(h, h') && CoveredBy(ids, h, x, c, T, k) && Agree(x, x', c + 1)
    ensures CoveredBy(ids, h', x', c, T, k)
  {
    ChosenStays(ids, h, h', T, k);
    assert ReignGrows(h, h', T);
    AgreeThrough(x, x', h.reigns[T].log, c + 1, c + 1);
    AgreeGrows(x', h.reigns[T].log, h'.reigns[T].log, c + 1);
  }

  // ----- a leader's own commit

  /** The first `n` peers whose match index is at least `at`. */
  ghost function Ackers(peers: seq<int>, matchIndex: seq<int>, at: int, n: nat): set<int>
    requires n <= |peers| && n <= |matchIndex|
  {
    set j | 0 <= j < n && matchIndex[j] >= at :: peers[j]
  }

  lemma NextAcker(peers: seq<int>, matchIndex: seq<int>, at: int, k: nat)
    requires k < |peers| && k < |matchIndex|
    requires forall j :: 0 <= j < k ==> peers[j] != peers[k]
    ensures peers[k] !in Ackers(peers, matchIndex, at, k)
    ensures Ackers(peers, matchIndex, at, k + 1) ==
      Ackers(peers, matchIndex, at, k) + (if matchIndex[k] >= at then {peers[k]} else {})
  {}

  lemma {:induction false} AckersCount(peers: seq<int>, matchIndex: seq<int>, at: int, n: nat)
    requires n <= |peers| && n <= |matchIndex|
    requires forall i, j :: 0 <= i < j < |peers| ==> peers[i] != peers[j]
    ensures |Ackers(peers, matchIndex, at, n)| == Copies(matchIndex[..n], at)
  {
    if n > 0 {
      AckersCount(peers, matchIndex, at, n - 1);
      NextAcker(peers, matchIndex, at, n - 1);
      assert matchIndex[..n][..n - 1] == matchIndex[..n - 1];
    }
  }

  /** The commit index a leader's scan reaches has been accepted by a quorum in its term. */
  lemma SupportedIsChosen(s: Cluster, h: History, v: int)
    requires ConfigOk(s) && v in s.nodes && Supported(s.nodes[v]) && IndicesInRange(s.nodes[v])
    requires MatchOk(h, s.nodes[v]) && LeaderOk(h, s.nodes[v])
    requires (s.nodes[v].term, v) in h.acc ==> AcceptedOk(s, h, s.nodes[v].term, v)
    ensures var n := s.nodes[v];
      Chosen(s.nodes.Keys, h, n.term, n.commit)
  {
    var n := s.nodes[v];
    var ackers := Ackers(n.peers, n.matchIndex, n.commit, |n.peers|);
    AckersCount(n.peers, n.matchIndex, n.commit, |n.peers|);
    assert n.matchIndex[..|n.peers|] == n.matchIndex;
    var q := ackers + {v};
    forall w | w in q ensures Holds(h, n.term, w, n.commit) && w in s.nodes {
      if w != v {
        var j :| 0 <= j < |n.peers| && n.matchIndex[j] >= n.commit && n.peers[j] == w;
        assert Holds(h, n.term, n.peers[j], n.matchIndex[j]);
      }
    }
    QuorumOfAckers(s, n, v, ackers);
    assert ChosenBy(s.nodes.Keys, h, n.term, n.commit, q);
  }

  lemma QuorumOfAckers(s: Cluster, n: Node, v: int, ackers: set<int>)
    requires v in s.nodes && PeersOf(n.peers, v, s.nodes.Keys)
    requires |n.matchIndex| == |n.peers| && n.commit in n.matchIndex
    requires ackers == Ackers(n.peers, n.matchIndex, n.commit, |n.peers|) && 1 + |ackers| >= Quota(n)
    ensures IsQuorum(s.nodes.Keys, ackers + {v})
  {
    forall w | w in ackers ensures w in s.nodes && w != v {
      var j :| 0 <= j < |n.peers| && n.matchIndex[j] >= n.commit && n.peers[j] == w;
      assert n.peers[j] in n.peers;
    }
    UnionSize(ackers, {v});
    var i :| 0 <= i < |n.matchIndex| && n.matchIndex[i] == n.commit;
    assert n.peers[i] in ackers;
    SubsetSize({n.peers[i], v}, ackers + {v});
  }

  // ----- nodes

  ghost predicate CommitMove(s: Cluster, h: History, mv: Move, s': Cluster, h': History) {
    && Checked(s, h, mv, s', h') && Ledger(s, mv, s') && Grown(h, h') && SafeSize(|s.nodes.Keys|)
    && ConfigOk(s) && ReignsInv(s, h) && LogsInv(s, h) && AcceptInv(s, h) && CompleteInv(s, h) && CommitInv(s, h)
  }

  /** A log that keeps what was committed keeps the witness. */
  lemma WitnessStays(ids: set<int>, h: History, h': History, n: Node, n': Node)
    requires Grown(h, h') && CommitOk(ids, h, n)
    requires n'.id == n.id && n.term <= n'.term && n'.commit == n.commit
    requires n.commit >= 0 ==> Agree(n.log, n'.log, n.commit + 1)
    ensures CommitOk(ids, h', n')
  {
    if n.commit >= 0 {
      var T, k :| Witness(ids, h, n, T, k);
      CoveredStays(ids, h, h', n.log, n'.log, n.commit, T, k);
      assert Witness(ids, h', n', T, k);
    }
  }

  lemma CoveredInside(ids: set<int>, h: History, x: seq<Entry>, c: int, T: int, k: int)
    requires CoveredBy(ids, h, x, c, T, k)
    ensures c < |x|
  {}

  lemma RequestReach(h: History, a: int, v: int, m: Message)
    requires m.AppendRequest? && AppendLinkOk(h, a, v, m)
    ensures m.term in h.reigns && h.reigns[m.term].base <= End(m) <= |h.reigns[m.term].log|
    ensures (m.term, v) in h.acc ==> h.acc[(m.term, v)] <= End(m)
  {}

  /** Truncation never cuts what is committed: the leader a node follows has all of it. */
  lemma LeaderHasCommitted(s: Cluster, h: History, v: int, a: int, m: Message)
    requires v in s.nodes && SafeSize(|s.nodes.Keys|) && CompleteInv(s, h) && ReignsInv(s, h)
    requires CommitOk(s.nodes.Keys, h, s.nodes[v]) && s.nodes[v].id == v
    requires m.AppendRequest? && AppendLinkOk(h, a, v, m) && s.nodes[v].term <= m.term
    requires (m.term, v) in h.acc ==> AcceptedOk(s, h, m.term, v)
    ensures var n := s.nodes[v];
      n.commit >= 0 ==> Agree(n.log, h.reigns[m.term].log[..End(m)], n.commit + 1)
  {
    hide CompleteInv, CoveredBy, AppendLinkOk;
    RequestReach(h, a, v, m);
    var n, lead := s.nodes[v], h.reigns[m.term].log;
    if n.commit >= 0 {
      var T, k :| Witness(s.nodes.Keys, h, n, T, k);
      CoveredInside(s.nodes.Keys, h, n.log, n.commit, T, k);
      assert ReignOk(s, h, m.term);
      if T < m.term {
        CoveredInLater(s, h, n.log, n.commit, T, k, m.term, End(m));
      } else {
        assert T == n.term == m.term && AcceptedOk(s, h, T, v);
        assert n.log == lead[..h.acc[(T, v)]] && h.acc[(T, v)] <= End(m) <= |lead|;
        PrefixesAgree(lead, h.acc[(T, v)], End(m), n.commit + 1);
      }
    }
  }

  lemma CoveredInLater(s: Cluster, h: History, x: seq<Entry>, c: int, T: int, k: int, T': int, end: nat)
    requires SafeSize(|s.nodes.Keys|) && CompleteInv(s, h) && CoveredBy(s.nodes.Keys, h, x, c, T, k)
    requires T < T' && T' in h.reigns && Base(h, T') <= end <= |h.reigns[T'].log|
    ensures Agree(x, h.reigns[T'].log[..end], c + 1)
  {
    hide CompleteInv, Dead;
    ChosenInLater(s, h, T, k, T');
    CutKeeps(x, h.reigns[T].log, h.reigns[T'].log, c + 1, k + 1, Base(h, T'), end);
  }

  lemma PrefixesAgree(x: seq<Entry>, a: nat, b: nat, n: nat)
    requires n <= a <= b <= |x|
    ensures Agree(x[..a], x[..b], n)
  {
    assert x[..a][..n] == x[..n] == x[..b][..n];
  }

  /** `x` agrees with `r` up to `c`, `r` with `lead[..b]` up to `d >= c`, so `x` with `lead[..e]`. */
  lemma CutKeeps(x: seq<Entry>, r: seq<Entry>, lead: seq<Entry>, c: int, d: int, b: nat, e: nat)
    requires Agree(x, r, c) && b <= e <= |lead| && Agree(lead[..b], r, d) && c <= d
    ensures Agree(x, lead[..e], c)
  {
    assert lead[..e][..c] == lead[..b][..d][..c];
    assert r[..d][..c] == r[..c];
  }

  /** A follower that takes over its leader's announcement commits what the leader had. */
  lemma AnnouncedCommit(ids: set<int>, h: History, h': History, m: Message, n': Node)
    requires Grown(h, h') && m.AppendRequest? && m.term in h.reigns && AnnouncedOk(ids, h, m)
    requires n'.term == m.term && (m.term, n'.id) in h'.acc && 0 <= End(m) <= |h.reigns[m.term].log|
    requires n'.log == h.reigns[m.term].log[..End(m)] && n'.commit == m.leaderCommit < End(m)
    ensures CommitOk(ids, h', n')
  {
    if n'.commit >= 0 {
      var lead := h.reigns[m.term].log;
      var T, k :| Announced(ids, h, m, T, k);
      assert n'.log[..n'.commit + 1] == lead[..n'.commit + 1];
      CoveredStays(ids, h, h', lead, n'.log, n'.commit, T, k);
      assert Witness(ids, h', n', T, k);
    }
  }

  /** What the invariants say of an append request that reaches node `v` in a term it accepts. */
  ghost predicate AppendHeadOk(s: Cluster, h: History, v: int, a: int, m: Message) {
    && v in s.nodes && s.nodes[v].id == v && m.AppendRequest?
    && AppendLinkOk(h, a, v, m) && AnnouncedOk(s.nodes.Keys, h, m)
    && CommitOk(s.nodes.Keys, h, s.nodes[v])
    && ((m.term, v) in h.acc ==> AcceptedOk(s, h, m.term, v))
  }

  lemma AppendHeadIsOk(s: Cluster, h: History, a: int, v: int)
    requires Possible(s, Deliver(a, v), false) && Link(s, a, v)[0].AppendRequest?
    requires ConfigOk(s) && AcceptInv(s, h) && CommitInv(s, h)
    ensures AppendHeadOk(s, h, v, a, Link(s, a, v)[0])
  {
    var m := Link(s, a, v)[0];
    assert m in Link(s, a, v);
    assert (m.term, v) in h.acc ==> AcceptedOk(s, h, m.term, v);
  }

  /** Truncation keeps what was committed. */
  lemma CommitSurvivesCut(s: Cluster, h: History, h': History, v: int, a: int, m: Message, n': Node)
    requires SafeSize(|s.nodes.Keys|) && CompleteInv(s, h) && ReignsInv(s, h) && Grown(h, h')
    requires AppendHeadOk(s, h, v, a, m) && s.nodes[v].term <= m.term
    requires n'.id == v && n'.term == m.term && n'.log == h.reigns[m.term].log[..End(m)]
    requires n'.commit == s.nodes[v].commit
    ensures CommitOk(s.nodes.Keys, h', n')
  {
    hide CompleteInv, Witness, AnnouncedOk, Grown;
    LeaderHasCommitted(s, h, v, a, m);
    WitnessStays(s.nodes.Keys, h, h', s.nodes[v], n');
  }

  /** A node `n` that accepted the request `m`, and is then `n'`. */
  predicate Accepted(h: History, h': History, n: Node, n': Node, m: Message) {
    && m.AppendRequest? && m.term in h.reigns && 0 <= End(m) <= |h.reigns[m.term].log|
    && n.term <= m.term && m.leaderCommit < End(m)
    && n'.id == n.id && n'.term == m.term && n'.log == h.reigns[m.term].log[..End(m)]
    && (m.term, n'.id) in h'.acc
    && n'.commit == if m.leaderCommit > n.commit then m.leaderCommit else n.commit
  }

  lemma IsAccepted(s: Cluster, h: History, mv: Move, s': Cluster, h': History)
    requires Checked(s, h, mv, s', h') && Ledger(s, mv, s') && LogsInv(s, h)
    requires !mv.Lose? && AcceptsBy(s.nodes[Actor(mv)], EventOf(s, mv))
    requires AnnouncedOk(s.nodes.Keys, h, EventOf(s, mv).msg)
    ensures mv.Deliver? && Accepted(h, h', s.nodes[mv.dst], s'.nodes[mv.dst], Link(s, mv.src, mv.dst)[0])
  {
    hide HeadOk, WinOk, LogsInv, LinkEffect;
    Adopts(s, h, mv, s', h');
  }

  lemma AcceptorCommit(s: Cluster, h: History, mv: Move, s': Cluster, h': History)
    requires CommitMove(s, h, mv, s', h') && !mv.Lose? && AcceptsBy(s.nodes[Actor(mv)], EventOf(s, mv))
    ensures CommitOk(s.nodes.Keys, h', s'.nodes[Actor(mv)])
  {
    hide HeadOk, HeadLed, WinOk, NodeEffect, LinkEffect, Ledger, CompleteInv, AcceptInv, CommitInv, ReignsInv,
         LogsInv, CommitOk, AnnouncedOk, AppendLinkOk, AcceptedOk, Grown;
    var v, m := mv.dst, Link(s, mv.src, mv.dst)[0];
    AppendHeadIsOk(s, h, mv.src, v);
    IsAccepted(s, h, mv, s', h');
    if m.leaderCommit > s.nodes[v].commit {
      AnnouncedCommit(s.nodes.Keys, h, h', m, s'.nodes[v]);
    } else {
      CommitSurvivesCut(s, h, h', v, mv.src, m, s'.nodes[v]);
    }
  }

  lemma OtherCommit(s: Cluster, h: History, mv: Move, s': Cluster, h': History, v: int)
    requires Effect(s, h, mv, s', h') && Grown(h, h')
    requires v in s.nodes && CommitOk(s.nodes.Keys, h, s.nodes[v])
    requires !mv.Lose? && v == Actor(mv) ==> !AcceptsBy(s.nodes[v], EventOf(s, mv))
    requires s'.nodes[v].commit == s.nodes[v].commit
    ensures CommitOk(s.nodes.Keys, h', s'.nodes[v])
  {
    OwnLogGrows(s, h, mv, s', h', v);
    WitnessStays(s.nodes.Keys, h, h', s.nodes[v], s'.nodes[v]);
  }

  /** What a leader's scan commits is chosen in its own term. */
  lemma LeaderCommit(s': Cluster, h': History, v: int)
    requires ConfigOk(s') && v in s'.nodes && Supported(s'.nodes[v]) && IndicesInRange(s'.nodes[v])
    requires ReignsInv(s', h') && AcceptInv(s', h') && MatchInv(s', h')
    ensures CommitOk(s'.nodes.Keys, h', s'.nodes[v])
  {
    var n := s'.nodes[v];
    assert MatchOk(h', n) && LeaderOk(h', n) && AcceptedOk(s', h', n.term, v);
    SupportedIsChosen(s', h', v);
    assert Witness(s'.nodes.Keys, h', n, n.term, n.commit);
  }

  lemma CommitStays(s: Cluster, h: History, mv: Move, s': Cluster, h': History, v: int)
    requires CommitMove(s, h, mv, s', h') && v in s.nodes
    requires ConfigOk(s') && ReignsInv(s', h') && AcceptInv(s', h') && MatchInv(s', h') && IndicesInRange(s'.nodes[v])
    ensures CommitOk(s'.nodes.Keys, h', s'.nodes[v])
  {
    if !mv.Lose? && v == Actor(mv) && AcceptsBy(s.nodes[v], EventOf(s, mv)) {
      AcceptorCommit(s, h, mv, s', h');
    } else if s'.nodes[v].commit == s.nodes[v].commit {
      OtherCommit(s, h, mv, s', h', v);
    } else {
      LeaderCommit(s', h', v);
    }
  }

  // ----- announcements

  lemma AnnouncementStays(ids: set<int>, h: History, h': History, m: Message)
    requires Grown(h, h') && m.AppendRequest? && m.term in h.reigns && AnnouncedOk(ids, h, m)
    ensures AnnouncedOk(ids, h', m)
  {
    if m.leaderCommit >= 0 {
      var lead := h.reigns[m.term].log;
      var T, k :| Announced(ids, h, m, T, k);
      assert ReignGrows(h, h', m.term);
      AgreeGrows(lead, lead, h'.reigns[m.term].log, m.leaderCommit + 1);
      CoveredStays(ids, h, h', lead, h'.reigns[m.term].log, m.leaderCommit, T, k);
      assert Announced(ids, h', m, T, k);
    }
  }

  lemma AnnouncementKept(s: Cluster, h: History, mv: Move, s': Cluster, h': History, x: int, y: int, m: Message)
    requires CommitMove(s, h, mv, s', h') && ReignsInv(s', h')
    requires x in s.nodes && y in s.nodes && m in Link(s', x, y) && m.AppendRequest?
    requires CommitOk(s'.nodes.Keys, h', s'.nodes[x])
    ensures AnnouncedOk(s'.nodes.Keys, h', m)
  {
    Arrival(s, mv, s', x, y, m);
    if m in Rest(s, mv, x, y) {
      assert AppendLinkOk(h, x, y, m);
      AnnouncementStays(s.nodes.Keys, h, h', m);
    } else if m.leaderCommit >= 0 {
      assert LeaderOk(h', s'.nodes[x]);
      var T, k :| Witness(s'.nodes.Keys, h', s'.nodes[x], T, k);
      assert Announced(s'.nodes.Keys, h', m, T, k);
    }
  }

  lemma CommitKept(s: Cluster, h: History, mv: Move, s': Cluster, h': History)
    requires CommitMove(s, h, mv, s', h') && ConfigOk(s') && ReignsInv(s', h') && AcceptInv(s', h') && MatchInv(s', h')
    requires forall v :: v in s'.nodes ==> IndicesInRange(s'.nodes[v])
    ensures CommitInv(s', h')
  {
    forall v | v in s'.nodes ensures CommitOk(s'.nodes.Keys, h', s'.nodes[v]) {
      CommitStays(s, h, mv, s', h', v);
    }
    forall x, y, m | x in s'.nodes && y in s'.nodes && m in Link(s', x, y)
      ensures AnnouncedOk(s'.nodes.Keys, h', m)
    {
      if m.AppendRequest? { AnnouncementKept(s, h, mv, s', h', x, y, m); }
    }
  }
}
