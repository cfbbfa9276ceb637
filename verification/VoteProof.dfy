/** Every move keeps the invariants about votes. */
module VoteProof {
  import opened RaftTypes
  import opened ClusterModel
  import opened History
  import opened Invariants
  import opened Effects

  ghost predicate VoteMove(s: Cluster, h: History, mv: Move, s': Cluster, h': History) {
    Effect(s, h, mv, s', h') && BasicInv(s) && VotesInv(s, h)
  }

  /** What the invariants say of the message a move delivers. */
  ghost predicate HeadOk(s: Cluster, h: History, mv: Move)
    requires Possible(s, mv, false)
  {
    mv.Deliver? ==>
      var m := Link(s, mv.src, mv.dst)[0];
      && mv.src != mv.dst && mv.src != 0
      && SignedBy(m, mv.src, s.nodes[mv.src].term)
      && (m.VoteRequest? ==> RequestOk(s, h, mv.src, mv.dst, m))
      && (m.VoteResponse? ==> GrantOk(s, h, mv.src, mv.dst, m))
      && (GrantsBy(s.nodes[mv.dst], Receive(m)) ==> (m.term, mv.dst) !in h.ballots)
  }

  /** In particular, a voter that grants has not voted in that term: no vote is overwritten. */
  lemma HeadIsOk(s: Cluster, h: History, mv: Move)
    requires BasicInv(s) && VotesInv(s, h) && Possible(s, mv, false)
    ensures HeadOk(s, h, mv)
  {
    if mv.Deliver? {
      var m := Link(s, mv.src, mv.dst)[0];
      assert m in Link(s, mv.src, mv.dst);
      assert (m.term, mv.dst) in h.ballots ==> BallotOk(s, h, m.term, mv.dst);
    }
  }

  lemma BallotStays(s: Cluster, h: History, mv: Move, s': Cluster, h': History, T: int, w: int)
    requires Effect(s, h, mv, s', h') && HeadOk(s, h, mv) && (T, w) in h'.ballots
    requires (T, w) in h.ballots ==> BallotOk(s, h, T, w)
    requires !mv.Lose? ==> 0 <= s.nodes[Actor(mv)].term && s.nodes[Actor(mv)].id == Actor(mv)
    ensures BallotOk(s', h', T, w)
  {
  }

  lemma VoterStays(s: Cluster, h: History, mv: Move, s': Cluster, h': History, w: int)
    requires Effect(s, h, mv, s', h') && HeadOk(s, h, mv) && w in s.nodes && VoterOk(s, h, w)
    requires 0 !in s.nodes && (!mv.Lose? ==> s.nodes[Actor(mv)].id == Actor(mv))
    requires forall T :: (T, w) in h.ballots ==> BallotOk(s, h, T, w)
    ensures VoterOk(s', h', w)
  {
    var T := s'.nodes[w].term;
    assert (T, w) in h.ballots ==> BallotOk(s, h, T, w);
  }

  lemma BallotsKept(s: Cluster, h: History, mv: Move, s': Cluster, h': History)
    requires VoteMove(s, h, mv, s', h')
    ensures BallotsOk(s', h')
  {
    HeadIsOk(s, h, mv);
    forall T, w | (T, w) in h'.ballots ensures BallotOk(s', h', T, w) {
      BallotStays(s, h, mv, s', h', T, w);
    }
    forall w | w in s'.nodes ensures VoterOk(s', h', w) {
      assert VoterOk(s, h, w);
      VoterStays(s, h, mv, s', h', w);
    }
  }

  // ----- messages

  /** The message at the head of a link a move delivers, if `m` is behind it. */
  ghost predicate BehindHead(s: Cluster, mv: Move, x: int, y: int, m: Message)
    requires Possible(s, mv, false)
  {
    mv == Deliver(x, y) ==> Before(Link(s, x, y)[0], m)
  }

  lemma RequestStays(s: Cluster, h: History, mv: Move, s': Cluster, h': History, x: int, y: int, m: Message)
    requires Effect(s, h, mv, s', h') && HeadOk(s, h, mv) && BehindHead(s, mv, x, y, m)
    requires x in s.nodes && y in s.nodes && x != y && x != 0
    requires !mv.Lose? ==> s.nodes[Actor(mv)].id == Actor(mv)
    requires m.VoteRequest? && SignedBy(m, x, s.nodes[x].term) && RequestOk(s, h, x, y, m)
    ensures RequestOk(s', h', x, y, m)
  {}

  lemma RequestSent(s: Cluster, h: History, mv: Move, s': Cluster, h': History, x: int, y: int, m: Message)
    requires x in s.nodes && y in s.nodes && x != y && s.nodes[x].id == x
    requires Effect(s, h, mv, s', h') && SentBy(s, mv, s', x, y, m)
    requires m.VoteRequest? && VoterOk(s, h, y)
    requires VotedFor(h, m.term, y, x) ==> m.term <= s.nodes[x].term
    ensures RequestOk(s', h', x, y, m)
  {}

  lemma GrantStays(s: Cluster, h: History, mv: Move, s': Cluster, h': History, x: int, y: int, m: Message)
    requires Effect(s, h, mv, s', h') && HeadOk(s, h, mv) && BehindHead(s, mv, x, y, m)
    requires x in s.nodes && y in s.nodes && x != y
    requires !mv.Lose? ==> s.nodes[Actor(mv)].id == Actor(mv)
    requires m.VoteResponse? && GrantOk(s, h, x, y, m)
    requires (m.term, x) in h.ballots ==> BallotOk(s, h, m.term, x)
    ensures GrantOk(s', h', x, y, m)
  {}

  lemma GrantSent(s: Cluster, h: History, mv: Move, s': Cluster, h': History, x: int, y: int, m: Message)
    requires x in s.nodes && y in s.nodes && x != y && s.nodes[x].id == x && s.nodes[y].id == y
    requires Effect(s, h, mv, s', h') && SentBy(s, mv, s', x, y, m) && HeadOk(s, h, mv)
    requires m.VoteResponse? && CandidateOk(s, h, y)
    ensures GrantOk(s', h', x, y, m)
  {
    assert s.nodes[y].role == Candidate && x in Tally(h, y) ==> VoteOk(h, s.nodes[y], x);
  }

  lemma VoteLinksKept(s: Cluster, h: History, mv: Move, s': Cluster, h': History)
    requires VoteMove(s, h, mv, s', h')
    ensures VoteLinksOk(s', h')
  {
    HeadIsOk(s, h, mv);
    forall x, y, m | x in s'.nodes && y in s'.nodes && m in Link(s', x, y)
      ensures m.VoteRequest? ==> RequestOk(s', h', x, y, m)
      ensures m.VoteResponse? ==> GrantOk(s', h', x, y, m)
    {
      VoteLinkKept(s, h, mv, s', h', x, y, m);
    }
  }

  lemma VoteLinkKept(s: Cluster, h: History, mv: Move, s': Cluster, h': History, x: int, y: int, m: Message)
    requires VoteMove(s, h, mv, s', h') && HeadOk(s, h, mv)
    requires x in s.nodes && y in s.nodes && m in Link(s', x, y)
    ensures m.VoteRequest? ==> RequestOk(s', h', x, y, m)
    ensures m.VoteResponse? ==> GrantOk(s', h', x, y, m)
  {
    LinkedApart(s, mv, s', x, y, m);
    Arrival(s, mv, s', x, y, m);
    if m in Rest(s, mv, x, y) {
      if mv == Deliver(x, y) { AfterHead(s, x, y, m); }
      if m.VoteRequest? { RequestStays(s, h, mv, s', h', x, y, m); }
      if m.VoteResponse? { GrantStays(s, h, mv, s', h', x, y, m); }
    } else {
      assert (m.term, y) in h.ballots ==> BallotOk(s, h, m.term, y);
      if m.VoteRequest? { RequestSent(s, h, mv, s', h', x, y, m); }
      if m.VoteResponse? { GrantSent(s, h, mv, s', h', x, y, m); }
    }
  }

  /** No node has a link to itself, before or after a move. */
  lemma LinkedApart(s: Cluster, mv: Move, s': Cluster, x: int, y: int, m: Message)
    requires BasicInv(s) && Possible(s, mv, false) && s'.nodes.Keys == s.nodes.Keys && LinkEffect(s, mv, s')
    requires x in s.nodes && y in s.nodes && m in Link(s', x, y)
    ensures x != y
  {
    Arrival(s, mv, s', x, y, m);
    if mv.Deliver? {
      HeadWaits(s, mv.src, mv.dst);
      assert SignedBy(Link(s, mv.src, mv.dst)[0], mv.src, s.nodes[mv.src].term);
    }
  }

  // ----- candidates

  /** Votes are never overwritten. */
  lemma VotesStay(s: Cluster, h: History, mv: Move, s': Cluster, h': History, T: int, w: int)
    requires Effect(s, h, mv, s', h') && HeadOk(s, h, mv) && (T, w) in h.ballots && BallotOk(s, h, T, w)
    requires !mv.Lose? ==> s.nodes[Actor(mv)].id == Actor(mv)
    ensures (T, w) in h'.ballots && h'.ballots[(T, w)] == h.ballots[(T, w)]
  {}

  lemma CandidateKept(s: Cluster, h: History, mv: Move, s': Cluster, h': History, v: int)
    requires VoteMove(s, h, mv, s', h') && HeadOk(s, h, mv) && v in s.nodes
    ensures CandidateOk(s', h', v)
  {
    if s'.nodes[v].role == Candidate && !(!mv.Lose? && v == Actor(mv) && StandsBy(s.nodes[v], EventOf(s, mv))) {
      assert CandidateOk(s, h, v);
      CandidacyGoesOn(s, h, mv, s', h', v);
    }
  }

  lemma CandidacyGoesOn(s: Cluster, h: History, mv: Move, s': Cluster, h': History, v: int)
    requires Effect(s, h, mv, s', h') && HeadOk(s, h, mv) && v in s.nodes && s.nodes[v].id == v
    requires !mv.Lose? ==> s.nodes[Actor(mv)].id == Actor(mv)
    requires forall T, w :: (T, w) in h.ballots ==> BallotOk(s, h, T, w)
    requires CandidateOk(s, h, v) && s'.nodes[v].role == Candidate
    requires !mv.Lose? && v == Actor(mv) ==> !StandsBy(s.nodes[v], EventOf(s, mv))
    ensures CandidateOk(s', h', v)
  {
    var n, n' := s.nodes[v], s'.nodes[v];
    assert n.role == Candidate && n'.term == n.term && n'.log == n.log;
    forall w | w in Tally(h', v) ensures VoteOk(h', n', w) {
      assert VoteOk(h, n, w);
      VotesStay(s, h, mv, s', h', n.term, w);
    }
  }

  lemma VotesKept(s: Cluster, h: History, mv: Move, s': Cluster, h': History)
    requires VoteMove(s, h, mv, s', h')
    ensures VotesInv(s', h')
  {
    HeadIsOk(s, h, mv);
    BallotsKept(s, h, mv, s', h');
    VoteLinksKept(s, h, mv, s', h');
    forall v | v in s'.nodes ensures CandidateOk(s', h', v) {
      CandidateKept(s, h, mv, s', h', v);
    }
  }
}
