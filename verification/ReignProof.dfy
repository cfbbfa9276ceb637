/** Every move keeps the invariants about leaders; in particular no term ever gets a second one. */
module ReignProof {
  import opened RaftTypes
  import opened NodeStep
  import opened ClusterModel
  import opened History
  import opened Quorums
  import opened Invariants
  import opened Effects
  import opened VoteProof

  ghost predicate ReignMove(s: Cluster, h: History, mv: Move, s': Cluster, h': History) {
    Effect(s, h, mv, s', h') && SafeSize(|s.nodes|) && CoreInv(s, h)
  }

  /** The votes counted by a winner, the last one included, are a quorum of genuine votes. */
  lemma WinnersQuorum(s: Cluster, h: History, v: int, src: int, m: Message)
    requires v in s.nodes && src in s.nodes && src != v && ConfigOk(s)
    requires m.VoteResponse? && Wins(s.nodes[v], m) && GrantOk(s, h, src, v, m)
    requires CandidateOk(s, h, v) && m.term <= s.nodes[v].term
    ensures var voters := Tally(h, v) + {src};
      && IsQuorum(s.nodes.Keys, voters)
      && forall w :: w in voters ==> VoteOk(h, s.nodes[v], w)
  {
    assert |{v, src}| == 2;
    SubsetSize({v, src}, Tally(h, v) + {src});
    UnionSize(Tally(h, v), {src});
  }

  /** Whoever wins an election is the first to win in its term. */
  lemma FirstReign(s: Cluster, h: History, v: int, voters: set<int>)
    requires v in s.nodes && s.nodes[v].id == v && s.nodes[v].role == Candidate && SafeSize(|s.nodes|)
    requires IsQuorum(s.nodes.Keys, voters) && forall w :: w in voters ==> VoteOk(h, s.nodes[v], w)
    requires forall T :: T in h.reigns ==> ReignOk(s, h, T)
    ensures s.nodes[v].term !in h.reigns
  {
    var T := s.nodes[v].term;
    if T in h.reigns {
      var w := QuorumsMeet(s.nodes.Keys, voters, h.reigns[T].voters);
      assert false;
    }
  }

  ghost predicate WinOk(s: Cluster, h: History, mv: Move)
    requires Possible(s, mv, false)
  {
    mv.Deliver? && WinsBy(s.nodes[mv.dst], EventOf(s, mv)) ==>
      var n, voters := s.nodes[mv.dst], Tally(h, mv.dst) + {mv.src};
      && n.term !in h.reigns && n.role == Candidate
      && IsQuorum(s.nodes.Keys, voters)
      && (forall w :: w in voters ==> VoteOk(h, n, w))
  }

  lemma WinIsOk(s: Cluster, h: History, mv: Move)
    requires Possible(s, mv, false) && SafeSize(|s.nodes|)
    requires BasicInv(s) && VotesInv(s, h) && ReignsInv(s, h)
    ensures WinOk(s, h, mv)
  {
    if mv.Deliver? && WinsBy(s.nodes[mv.dst], EventOf(s, mv)) {
      var m := Link(s, mv.src, mv.dst)[0];
      HeadIsOk(s, h, mv);
      assert BallotOk(s, h, m.term, mv.src);
      assert CandidateOk(s, h, mv.dst);
      WinnersQuorum(s, h, mv.dst, mv.src, m);
      FirstReign(s, h, mv.dst, Tally(h, mv.dst) + {mv.src});
    }
  }

  /** An append request in flight comes from the leader of its term. */
  ghost predicate HeadLed(s: Cluster, h: History, mv: Move)
    requires Possible(s, mv, false)
  {
    mv.Deliver? ==>
      mv.src != mv.dst && AppendLinkOk(h, mv.src, mv.dst, Link(s, mv.src, mv.dst)[0])
  }

  lemma HeadIsLed(s: Cluster, h: History, mv: Move)
    requires Possible(s, mv, false) && ConfigOk(s) && AcceptInv(s, h)
    ensures HeadLed(s, h, mv)
  {
    if mv.Deliver? { HeadWaits(s, mv.src, mv.dst); }
  }

  /** A candidate's log holds no entry of its own term before it leads in it. */
  lemma LogIsOlder(s: Cluster, h: History, n: Node)
    requires NodeOk(n) && Coherent(h, n.log) && n.term !in h.reigns
    ensures forall i :: 0 <= i < |n.log| ==> n.log[i].term < n.term
  {
    forall i | 0 <= i < |n.log| ensures n.log[i].term < n.term { assert Backed(h, n.log, i); }
  }

  lemma NewReignOk(s: Cluster, h: History, v: int, src: int, ev: Event, s': Cluster, h': History)
    requires NodeEffect(s, h, v, src, ev, s', h') && s'.nodes.Keys == s.nodes.Keys
    requires s.nodes[v].id == v && WinsBy(s.nodes[v], ev) && NodeOk(s.nodes[v])
    requires var n, voters := s.nodes[v], Tally(h, v) + {src};
      && (forall i :: 0 <= i < |n.log| ==> n.log[i].term < n.term)
      && IsQuorum(s.nodes.Keys, voters) && (forall w :: w in voters ==> VoteOk(h, n, w))
      && 1 <= n.term
    ensures ReignOk(s', h', s.nodes[v].term)
  {
    assert h'.ballots == h.ballots;
  }

  /** A reign is as it was, or its leader has appended an entry of its term. */
  ghost predicate SameOrLonger(r: Reign, r': Reign, T: int) {
    r' == r || exists e: Entry :: e.term == T && r' == r.(log := r.log + [e])
  }

  lemma ReignLogStays(s: Cluster, h: History, mv: Move, s': Cluster, h': History, T: int)
    requires Effect(s, h, mv, s', h') && WinOk(s, h, mv) && T in h.reigns
    requires !mv.Lose? ==> LeaderOk(h, s.nodes[Actor(mv)])
    ensures T in h'.reigns && SameOrLonger(h.reigns[T], h'.reigns[T], T)
  {
    if !mv.Lose? && ExtendsBy(h, s.nodes[Actor(mv)], EventOf(s, mv)) && s.nodes[Actor(mv)].term == T {
      assert h'.reigns[T] == h.reigns[T].(log := h.reigns[T].log + [Entry(T, mv.cmd)]);
    }
  }

  lemma ReignNodeStays(s: Cluster, h: History, mv: Move, s': Cluster, h': History, T: int)
    requires Effect(s, h, mv, s', h') && HeadLed(s, h, mv) && T in h.reigns && ReignOk(s, h, T)
    requires LeaderOk(h, s.nodes[h.reigns[T].id]) && s.nodes[h.reigns[T].id].id == h.reigns[T].id
    ensures var n' := s'.nodes[h.reigns[T].id];
      T <= n'.term && (n'.term == T ==> n'.role == Leader)
  {}

  lemma ReignStays(s: Cluster, h: History, mv: Move, s': Cluster, h': History, T: int)
    requires Effect(s, h, mv, s', h') && HeadOk(s, h, mv) && WinOk(s, h, mv) && HeadLed(s, h, mv)
    requires ConfigOk(s) && BallotsOk(s, h) && NodesOk(s) && T in h.reigns && ReignOk(s, h, T)
    requires forall v :: v in s.nodes ==> LeaderOk(h, s.nodes[v])
    ensures T in h'.reigns && ReignOk(s', h', T)
  {
    hide NodeEffect, LinkEffect, HeadOk, HeadLed, WinOk;
    VotersStay(s, h, mv, s', h', T);
    ReignLogStays(s, h, mv, s', h', T);
    ReignNodeStays(s, h, mv, s', h', T);
  }

  lemma VotersStay(s: Cluster, h: History, mv: Move, s': Cluster, h': History, T: int)
    requires Effect(s, h, mv, s', h') && HeadOk(s, h, mv) && BallotsOk(s, h) && ConfigOk(s)
    requires T in h.reigns && ReignOk(s, h, T)
    ensures forall w :: w in h.reigns[T].voters ==> VotedFor(h', T, w, h.reigns[T].id)
  {
    hide NodeEffect, LinkEffect, HeadOk;
    forall w | w in h.reigns[T].voters ensures VotedFor(h', T, w, h.reigns[T].id) {
      assert BallotOk(s, h, T, w);
      VotesStay(s, h, mv, s', h', T, w);
    }
  }

  lemma LeaderStays(s: Cluster, h: History, mv: Move, s': Cluster, h': History, v: int)
    requires Effect(s, h, mv, s', h') && WinOk(s, h, mv) && v in s.nodes
    requires forall u :: u in s.nodes ==> LeaderOk(h, s.nodes[u]) && s.nodes[u].id == u
    ensures LeaderOk(h', s'.nodes[v])
  {
    assert LeaderOk(h, s.nodes[v]);
    if !mv.Lose? { assert LeaderOk(h, s.nodes[Actor(mv)]); }
  }

  lemma ReignsKept(s: Cluster, h: History, mv: Move, s': Cluster, h': History)
    requires ReignMove(s, h, mv, s', h')
    ensures ReignsInv(s', h')
  {
    HeadIsOk(s, h, mv);
    HeadIsLed(s, h, mv);
    WinIsOk(s, h, mv);
    forall T | T in h'.reigns ensures ReignOk(s', h', T) {
      if T in h.reigns {
        ReignStays(s, h, mv, s', h', T);
      } else {
        var n := s.nodes[Actor(mv)];
        assert VoteOk(h, n, mv.src) && BallotOk(s, h, n.term, mv.src);
        LogIsOlder(s, h, n);
        NewReignOk(s, h, mv.dst, mv.src, EventOf(s, mv), s', h');
      }
    }
    forall v | v in s'.nodes ensures LeaderOk(h', s'.nodes[v]) {
      LeaderStays(s, h, mv, s', h', v);
    }
  }
}
