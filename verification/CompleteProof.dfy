/** Leader completeness: every move keeps the invariant that a leader's log on election has all
    that an earlier term can still commit. */
module CompleteProof {
  import opened RaftTypes
  import opened NodeStep
  import opened ClusterModel
  import opened History
  import opened Quorums
  import opened Invariants
  import opened Effects
  import opened VoteProof
  import opened ReignProof
  import opened LogFacts
  import opened LogProof
  import opened AcceptProof

  // ----- an election

  /** `x`, whose last entry is of the same term as that of `y` and no earlier, contains `y`. */
  lemma LongerContains(h: History, x: seq<Entry>, y: seq<Entry>)
    requires Coherent(h, x) && Coherent(h, y) && 0 < |y| <= |x| && LastTerm(x) == LastTerm(y)
    ensures Agree(y, x, |y|)
  {
    assert Backed(h, x, |x| - 1) && Backed(h, y, |y| - 1);
    var lead := h.reigns[LastTerm(x)].log;
    assert x[..|y|] == lead[..|x|][..|y|] == lead[..|y|];
  }

  /** A log ending in an entry of term `T` contains what that term's leader was elected with. */
  lemma ContainsBase(s: Cluster, h: History, x: seq<Entry>, T: int)
    requires Coherent(h, x) && x != [] && LastTerm(x) == T
    requires T in h.reigns && ReignOk(s, h, T)
    ensures Agree(h.reigns[T].log[..Base(h, T)], x, Base(h, T))
  {
    assert Backed(h, x, |x| - 1);
    var lead, b := h.reigns[T].log, Base(h, T);
    assert lead[|x| - 1].term == x[|x| - 1].term by { assert x[..|x|][|x| - 1] == lead[..|x|][|x| - 1]; }
    assert b <= |x|;
    assert lead[..b] == lead[..|x|][..b];
  }

  lemma AgreeThrough(x: seq<Entry>, y: seq<Entry>, z: seq<Entry>, n: int, k: int)
    requires Agree(x, y, n) && Agree(x, z, k) && k <= n
    ensures Agree(y, z, k)
  {
    assert x[..n][..k] == x[..k] && y[..n][..k] == y[..k];
  }

  lemma CoherentSorted(s: Cluster, h: History, x: seq<Entry>)
    requires Coherent(h, x) && ReignsInv(s, h)
    ensures Sorted(x)
  {
    forall i, j | 0 <= i < j < |x| ensures x[i].term <= x[j].term {
      assert Backed(h, x, j);
      var lead := h.reigns[x[j].term].log;
      assert ReignOk(s, h, x[j].term);
      assert x[i] == x[..j + 1][i] == lead[..j + 1][i] && x[j] == x[..j + 1][j] == lead[..j + 1][j];
    }
  }

  /** A candidate at least as up to date as a voter's log `bl` that has index `k` of term T has it too,
      or that index is dead. */
  lemma UpToDateKeeps(s: Cluster, h: History, T: int, k: int, n: Node, bl: seq<Entry>)
    requires LogsInv(s, h) && ReignsInv(s, h) && CompleteInv(s, h)
    requires Own(h, T, k) && Agree(bl, h.reigns[T].log, k + 1) && Coherent(h, bl)
    requires Coherent(h, n.log) && UpToDate(LastTerm(n.log), |n.log| - 1, bl)
    ensures Kept(s, h, T, k, n.log)
  {
    var R := h.reigns[T].log;
    assert ReignOk(s, h, T);
    CoherentSorted(s, h, bl);
    assert bl[k] == bl[..k + 1][k] == R[..k + 1][k] == R[k];
    var tc := LastTerm(n.log);
    assert LastTerm(bl) >= T >= 1 && n.log != [];
    if tc == LastTerm(bl) {
      LongerContains(h, n.log, bl);
      AgreeThrough(bl, n.log, R, |bl|, k + 1);
    } else {
      assert Backed(h, n.log, |n.log| - 1);
      assert ReignOk(s, h, tc);
      ContainsBase(s, h, n.log, tc);
      var b := h.reigns[tc].log[..Base(h, tc)];
      assert Kept(s, h, T, k, b);
      if Agree(b, R, k + 1) { AgreeThrough(b, n.log, R, |b|, k + 1); }
    }
  }

  /** The winner of an election has everything an earlier term can still commit. */
  lemma WinnerComplete(s: Cluster, h: History, T: int, k: int, n: Node, voters: set<int>)
    requires BallotsOk(s, h) && LogsInv(s, h) && ReignsInv(s, h) && CompleteInv(s, h)
    requires IsQuorum(s.nodes.Keys, voters) && forall w :: w in voters ==> VoteOk(h, n, w)
    requires T in h.reigns && T < n.term && Coherent(h, n.log)
    ensures Kept(s, h, T, k, n.log)
  {
    if Own(h, T, k) {
      if w :| w in voters && Holds(h, T, w, k) {
        assert VoteOk(h, n, w) && BallotOk(s, h, n.term, w);
        var bl := h.ballots[(n.term, w)].log;
        assert Kept(s, h, T, k, bl);
        if !Dead(s, h, T, k) { UpToDateKeeps(s, h, T, k, n, bl); }
      } else {
        VotersNeverAccept(s, h, T, k, n.term, n.id, voters);
      }
    }
  }

  /** Voters of a later term that have not accepted index `k` of term T never will. */
  lemma VotersNeverAccept(s: Cluster, h: History, T: int, k: int, T': int, id: int, voters: set<int>)
    requires BallotsOk(s, h) && IsQuorum(s.nodes.Keys, voters) && T < T'
    requires forall w :: w in voters ==> VotedFor(h, T', w, id) && !Holds(h, T, w, k)
    ensures Dead(s, h, T, k)
  {
    forall w | w in voters ensures w in s.nodes && s.nodes[w].term > T {
      assert BallotOk(s, h, T', w);
    }
    assert DeadBy(s, h, T, k, voters);
  }

  // ----- what a move leaves as it was

  /** What a node accepted in a term it has left does not change. */
  lemma HoldsFrozen(s: Cluster, h: History, mv: Move, s': Cluster, h': History, T: int, v: int, k: int)
    requires Checked(s, h, mv, s', h') && v in s.nodes && s.nodes[v].term > T
    ensures Holds(h', T, v, k) <==> Holds(h, T, v, k)
  {
    hide HeadOk, HeadLed, WinOk, LinkEffect, Evolves;
  }

  lemma DeadStays(s: Cluster, h: History, mv: Move, s': Cluster, h': History, T: int, k: int)
    requires Checked(s, h, mv, s', h') && Dead(s, h, T, k)
    ensures Dead(s', h', T, k)
  {
    var q :| DeadBy(s, h, T, k, q);
    forall v | v in q ensures v in s'.nodes && s'.nodes[v].term > T && !Holds(h', T, v, k) {
      HoldsFrozen(s, h, mv, s', h', T, v, k);
    }
    assert DeadBy(s', h', T, k, q);
  }

  lemma KeptGrows(s: Cluster, h: History, mv: Move, s': Cluster, h': History,
                  T: int, k: int, x: seq<Entry>, x': seq<Entry>)
    requires Checked(s, h, mv, s', h') && Grown(h, h')
    requires T in h.reigns && k < |h.reigns[T].log| && Kept(s, h, T, k, x) && x <= x'
    ensures Kept(s', h', T, k, x')
  {
    assert ReignGrows(h, h', T);
    if Own(h', T, k) {
      assert Own(h, T, k);
      if Dead(s, h, T, k) {
        DeadStays(s, h, mv, s', h', T, k);
      } else {
        AgreeGrows(x, h.reigns[T].log, h'.reigns[T].log, k + 1);
        assert x'[..k + 1] == x[..k + 1];
      }
    }
  }

  /** An index a deposed leader adds after a later leader is elected is dead from the start. */
  lemma LateIsDead(s: Cluster, h: History, T: int, T': int, k: int)
    requires BallotsOk(s, h) && T in h.reigns && T' in h.reigns && T < T' && ReignOk(s, h, T')
    requires forall v :: (T, v) in h.acc ==> h.acc[(T, v)] <= |h.reigns[T].log|
    requires k >= |h.reigns[T].log|
    ensures Dead(s, h, T, k)
  {
    VotersNeverAccept(s, h, T, k, T', h.reigns[T'].id, h.reigns[T'].voters);
  }

  // ----- the three parts of the invariant

  ghost predicate CompleteMove(s: Cluster, h: History, mv: Move, s': Cluster, h': History) {
    && Checked(s, h, mv, s', h') && Grown(h, h')
    && NodesOk(s) && BallotsOk(s, h) && ReignsInv(s, h) && LogsInv(s, h) && AcceptInv(s, h) && CompleteInv(s, h)
  }

  lemma NewReignOwnsNothing(s: Cluster, h: History, mv: Move, s': Cluster, h': History, T: int, k: int)
    requires Effect(s, h, mv, s', h') && T in h'.reigns && T !in h.reigns && ReignOk(s', h', T)
    ensures !Own(h', T, k)
  {}

  /** A log gained by winning or extending an election holds no entry of its term before the
      election, so a new reign adds nothing to keep. */
  lemma ReignsComplete(s: Cluster, h: History, mv: Move, s': Cluster, h': History, T: int, T': int, k: int)
    requires CompleteMove(s, h, mv, s', h') && ReignsInv(s', h')
    requires T in h'.reigns && T' in h'.reigns && T < T'
    ensures Kept(s', h', T, k, h'.reigns[T'].log[..Base(h', T')])
  {
    hide Effect, HeadOk, HeadLed, WinOk, Base, CompleteInv, AcceptInv, LogsInv, BallotsOk;
    assert ReignOk(s', h', T) && ReignOk(s', h', T');
    if T !in h.reigns {
      NewReignOwnsNothing(s, h, mv, s', h', T, k);
    } else if T' !in h.reigns {
      NewReignComplete(s, h, mv, s', h', T, T', k);
    } else {
      OldReignComplete(s, h, mv, s', h', T, T', k);
    }
  }

  lemma OldReignComplete(s: Cluster, h: History, mv: Move, s': Cluster, h': History, T: int, T': int, k: int)
    requires CompleteMove(s, h, mv, s', h') && T in h.reigns && T' in h.reigns && T < T'
    ensures T' in h'.reigns && Kept(s', h', T, k, h'.reigns[T'].log[..Base(h', T')])
  {
    hide Effect, HeadOk, HeadLed, WinOk;
    assert ReignGrows(h, h', T) && ReignGrows(h, h', T') && ReignOk(s, h, T');
    var x, x' := h.reigns[T'].log[..Base(h, T')], h'.reigns[T'].log[..Base(h', T')];
    assert x == x';
    if 0 <= k < |h.reigns[T].log| {
      assert Kept(s, h, T, k, x);
      KeptGrows(s, h, mv, s', h', T, k, x, x');
    } else if 0 <= k {
      forall v | (T, v) in h.acc ensures h.acc[(T, v)] <= |h.reigns[T].log| { assert AcceptedOk(s, h, T, v); }
      LateIsDead(s, h, T, T', k);
      DeadStays(s, h, mv, s', h', T, k);
    }
  }

  lemma NewReignComplete(s: Cluster, h: History, mv: Move, s': Cluster, h': History, T: int, T': int, k: int)
    requires CompleteMove(s, h, mv, s', h') && T in h.reigns && T' in h'.reigns && T' !in h.reigns && T < T'
    ensures Kept(s', h', T, k, h'.reigns[T'].log[..Base(h', T')])
  {
    var n := s.nodes[Actor(mv)];
    assert LeaderOk(h, n);
    assert T' == n.term && h'.reigns[T'].log[..Base(h', T')] == n.log;
    assert h'.reigns[T] == h.reigns[T];
    WinnerComplete(s, h, T, k, n, Tally(h, mv.dst) + {mv.src});
    if Own(h', T, k) { KeptGrows(s, h, mv, s', h', T, k, n.log, n.log); }
  }

  lemma AcceptedAgree(s: Cluster, h: History, T: int, v: int, k: int)
    requires Holds(h, T, v, k) && AcceptedOk(s, h, T, v) && s.nodes[v].term == T && 0 <= k
    ensures Agree(s.nodes[v].log, h.reigns[T].log, k + 1)
  {
    assert s.nodes[v].log[..k + 1] == h.reigns[T].log[..k + 1];
  }

  lemma NodeComplete(s: Cluster, h: History, mv: Move, s': Cluster, h': History, T: int, v: int, k: int)
    requires CompleteMove(s, h, mv, s', h') && ReignsInv(s', h')
    requires v in s.nodes && Holds(h', T, v, k)
    requires forall T, v :: (T, v) in h'.acc ==> AcceptedOk(s', h', T, v)
    ensures Kept(s', h', T, k, s'.nodes[v].log)
  {
    var n' := s'.nodes[v];
    assert AcceptedOk(s', h', T, v);
    if Own(h', T, k) {
      if n'.term == T {
        AcceptedAgree(s', h', T, v, k);
      } else {
        EarlierKept(s, h, mv, s', h', T, v, k);
      }
    }
  }

  lemma EarlierKept(s: Cluster, h: History, mv: Move, s': Cluster, h': History, T: int, v: int, k: int)
    requires CompleteMove(s, h, mv, s', h')
    requires v in s.nodes && Holds(h', T, v, k) && T < s'.nodes[v].term && 0 <= k
    ensures Kept(s', h', T, k, s'.nodes[v].log)
  {
    HeldBefore(s, h, mv, s', h', T, v, k);
    assert AcceptedOk(s, h, T, v);
    if !mv.Lose? && v == Actor(mv) && AcceptsBy(s.nodes[v], EventOf(s, mv)) {
      Adopts(s, h, mv, s', h');
      AdopterComplete(s, h, mv, s', h', Link(s, mv.src, mv.dst)[0], T, k);
    } else {
      OwnLogGrows(s, h, mv, s', h', v);
      KeptGrows(s, h, mv, s', h', T, k, s.nodes[v].log, s'.nodes[v].log);
    }
  }

  lemma OwnLogGrows(s: Cluster, h: History, mv: Move, s': Cluster, h': History, v: int)
    requires Effect(s, h, mv, s', h') && v in s.nodes
    requires !mv.Lose? && v == Actor(mv) ==> !AcceptsBy(s.nodes[v], EventOf(s, mv))
    ensures s.nodes[v].log <= s'.nodes[v].log
  {}

  /** What a later leader had on election is in every snapshot it sends. */
  lemma AdopterComplete(s: Cluster, h: History, mv: Move, s': Cluster, h': History, m: Message, T: int, k: int)
    requires Checked(s, h, mv, s', h') && Grown(h, h') && CompleteInv(s, h) && ReignsInv(s, h)
    requires m.AppendRequest? && m.term in h.reigns && h.reigns[m.term].base <= End(m) <= |h.reigns[m.term].log|
    requires T in h.reigns && T < m.term && k < |h.reigns[T].log|
    ensures Kept(s', h', T, k, h.reigns[m.term].log[..End(m)])
  {
    hide Checked, Grown, Kept;
    assert ReignOk(s, h, m.term);
    var b := h.reigns[m.term].log[..Base(h, m.term)];
    assert Kept(s, h, T, k, b);
    LongerPart(h.reigns[m.term].log, Base(h, m.term), End(m));
    KeptGrows(s, h, mv, s', h', T, k, b, h.reigns[m.term].log[..End(m)]);
  }

  lemma LongerPart(log: seq<Entry>, base: nat, end: nat)
    requires base <= end <= |log|
    ensures log[..base] <= log[..end]
  {}

  /** Acceptance in a term the node is past after the move was there before it. */
  lemma HeldBefore(s: Cluster, h: History, mv: Move, s': Cluster, h': History, T: int, v: int, k: int)
    requires Checked(s, h, mv, s', h') && v in s.nodes && Holds(h', T, v, k) && T < s'.nodes[v].term
    ensures Holds(h, T, v, k)
  {
    hide HeadOk, HeadLed, WinOk, LinkEffect;
  }

  lemma BallotComplete(s: Cluster, h: History, mv: Move, s': Cluster, h': History, T: int, T': int, w: int, k: int)
    requires CompleteMove(s, h, mv, s', h')
    requires (T', w) in h'.ballots && T < T' && Holds(h', T, w, k) && BallotOk(s', h', T', w)
    ensures Kept(s', h', T, k, h'.ballots[(T', w)].log)
  {
    HeldBefore(s, h, mv, s', h', T, w, k);
    assert AcceptedOk(s, h, T, w);
    if 0 <= k {
      var bl := h'.ballots[(T', w)].log;
      BallotBefore(s, h, mv, s', h', T', w);
      KeptGrows(s, h, mv, s', h', T, k, bl, bl);
    }
  }

  lemma BallotBefore(s: Cluster, h: History, mv: Move, s': Cluster, h': History, T: int, w: int)
    requires Checked(s, h, mv, s', h') && (T, w) in h'.ballots && w in s.nodes
    ensures h'.ballots[(T, w)].log != s.nodes[w].log ==>
      (T, w) in h.ballots && h.ballots[(T, w)] == h'.ballots[(T, w)]
  {}

  lemma CompleteKept(s: Cluster, h: History, mv: Move, s': Cluster, h': History)
    requires CompleteMove(s, h, mv, s', h') && ReignsInv(s', h') && BallotsOk(s', h') && AcceptInv(s', h')
    ensures CompleteInv(s', h')
  {
    forall T, T', k | T in h'.reigns && T' in h'.reigns && T < T'
      ensures Kept(s', h', T, k, h'.reigns[T'].log[..Base(h', T')])
    {
      ReignsComplete(s, h, mv, s', h', T, T', k);
    }
    forall T, v, k | v in s'.nodes && Holds(h', T, v, k) ensures Kept(s', h', T, k, s'.nodes[v].log) {
      NodeComplete(s, h, mv, s', h', T, v, k);
    }
    forall T, T', w, k | (T', w) in h'.ballots && T < T' && Holds(h', T, w, k)
      ensures Kept(s', h', T, k, h'.ballots[(T', w)].log)
    {
      BallotComplete(s, h, mv, s', h', T, T', w, k);
    }
  }
}
