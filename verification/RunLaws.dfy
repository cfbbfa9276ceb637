/** More of what holds over every run, one node at a time: terms, votes, what a leader knows of its
    peers, and what followers take over. */
module RunLaws {
  import opened RaftTypes
  import opened NodeStep
  import opened ClusterModel
  import opened History
  import opened Quorums
  import opened Invariants
  import opened Effects
  import opened VoteProof
  import opened ReignProof
  import opened LogFacts
  import opened LogProof
  import opened AcceptProof
  import opened Safety

  /** One move of a run of a cluster of a safe size, with its effect stated. */
  lemma {:induction false} OneMove(states: seq<Cluster>, moves: seq<Move>, guarded: bool, i: nat)
    requires CoreRun(states, moves, guarded) && i < |moves|
    ensures Possible(states[i], moves[i], guarded) && Possible(states[i], moves[i], false)
    ensures Smooth(states[i], moves[i])
    ensures var h, h' := Past(states, moves, guarded, i), Past(states, moves, guarded, i + 1);
      && Checked(states[i], h, moves[i], states[i + 1], h') && CoreInv(states[i], h)
  {
    hide Apply, RecordMove, Init, CoreInv, Past;
    RunCoreInv(states, moves, guarded, i);
    var s, h, mv := states[i], Past(states, moves, guarded, i), moves[i];
    PastNext(states, moves, guarded, i);
    MoveChecked(s, h, mv);
  }

  lemma {:induction false} PastNext(states: seq<Cluster>, moves: seq<Move>, guarded: bool, i: nat)
    requires Run(states, moves, guarded) && i < |moves|
    ensures Possible(states[i], moves[i], guarded) && Possible(states[i], moves[i], false)
    ensures Smooth(states[i], moves[i]) && states[i + 1] == Apply(states[i], moves[i])
    ensures Past(states, moves, guarded, i + 1) == RecordMove(Past(states, moves, guarded, i), states[i], moves[i])
  {
    hide RecordMove, Apply;
    assert Follows(states, moves, guarded, i);
  }

  /** One move of any run. */
  lemma {:induction false} AnyMove(states: seq<Cluster>, moves: seq<Move>, guarded: bool, i: nat)
    requires Run(states, moves, guarded) && i < |moves|
    ensures var h, h' := Past(states, moves, guarded, i), Past(states, moves, guarded, i + 1);
      && Effect(states[i], h, moves[i], states[i + 1], h') && VoteInv(states[i], h)
  {
    hide Apply, RecordMove, Init, VoteInv, Past, Effect;
    RunVoteInv(states, moves, guarded, i);
    PastNext(states, moves, guarded, i);
    VoteInvConfig(states[i], Past(states, moves, guarded, i));
    MoveEffect(states[i], Past(states, moves, guarded, i), moves[i]);
  }

  lemma VoteInvConfig(s: Cluster, h: History)
    requires VoteInv(s, h)
    ensures ConfigOk(s)
  {}

  lemma MoveChecked(s: Cluster, h: History, mv: Move)
    requires CoreInv(s, h) && SafeSize(|s.nodes.Keys|) && Possible(s, mv, false) && Smooth(s, mv)
    ensures Checked(s, h, mv, Apply(s, mv), RecordMove(h, s, mv))
  {
    hide Apply, RecordMove;
    MoveEffect(s, h, mv);
    IsChecked(s, h, mv, Apply(s, mv), RecordMove(h, s, mv));
  }

  /** In every cluster, a node's term never falls. */
  lemma {:induction false} TermsRise(states: seq<Cluster>, moves: seq<Move>, guarded: bool, i: nat, j: nat, v: int)
    requires Run(states, moves, guarded) && i <= j < |states| && v in states[i].nodes
    ensures v in states[j].nodes && states[i].nodes[v].term <= states[j].nodes[v].term
    decreases j - i
  {
    hide Past, Init, Apply, Smooth;
    if i < j {
      TermsRise(states, moves, guarded, i, j - 1, v);
      PastNext(states, moves, guarded, j - 1);
      MoveRises(states[j - 1], moves[j - 1], v);
    }
  }

  lemma MoveRises(s: Cluster, mv: Move, v: int)
    requires Possible(s, mv, false) && Smooth(s, mv) && v in s.nodes
    ensures v in Apply(s, mv).nodes && s.nodes[v].term <= Apply(s, mv).nodes[v].term
  {
    if !mv.Lose? { HandlerEvolves(s.nodes[Actor(mv)], EventOf(s, mv)); }
  }

  /** In every cluster, a vote once cast stays: no node ever votes twice in a term, though append requests
      overwrite `votedFor` and timeouts set it. */
  lemma {:induction false} OneVotePerTerm(states: seq<Cluster>, moves: seq<Move>, guarded: bool, i: nat, j: nat,
                                          term: int, w: int)
    requires Run(states, moves, guarded) && i <= j < |states|
    requires (term, w) in Past(states, moves, guarded, i).ballots
    ensures var h, h' := Past(states, moves, guarded, i), Past(states, moves, guarded, j);
      (term, w) in h'.ballots && h'.ballots[(term, w)] == h.ballots[(term, w)]
    decreases j - i
  {
    hide Past, Init, Follows, Effect, VoteInv;
    if i < j {
      OneVotePerTerm(states, moves, guarded, i, j - 1, term, w);
      AnyMove(states, moves, guarded, j - 1);
      var h, h' := Past(states, moves, guarded, j - 1), Past(states, moves, guarded, j);
      BallotKept(states[j - 1], h, moves[j - 1], states[j], h', term, w);
    }
  }

  lemma BallotKept(s: Cluster, h: History, mv: Move, s': Cluster, h': History, term: int, w: int)
    requires VoteInv(s, h) && Effect(s, h, mv, s', h') && (term, w) in h.ballots
    ensures (term, w) in h'.ballots && h'.ballots[(term, w)] == h.ballots[(term, w)]
  {
    hide Effect;
    EffectPossible(s, h, mv, s', h');
    HeadIsOk(s, h, mv);
    assert BallotOk(s, h, term, w);
    VotesStay(s, h, mv, s', h', term, w);
  }

  lemma EffectPossible(s: Cluster, h: History, mv: Move, s': Cluster, h': History)
    requires Effect(s, h, mv, s', h')
    ensures Possible(s, mv, false)
  {}

  // ----- what leaders know and followers hold

  /** Peer `w` has reached the term of leader `n`, and while it is in that term its log agrees with
      the leader's up to index `k`. */
  ghost predicate TrueClaim(s: Cluster, n: Node, w: int, k: int) {
    && w in s.nodes && 0 <= k < |n.log| && n.term <= s.nodes[w].term
    && (s.nodes[w].term == n.term ==> k < |s.nodes[w].log| && s.nodes[w].log[..k + 1] == n.log[..k + 1])
  }

  /** Every match index of every leader is a true claim. */
  lemma MatchIndexIsTrue(states: seq<Cluster>, moves: seq<Move>, i: nat, v: int, p: nat)
    requires SafeRun(states, moves) && i < |states| && v in states[i].nodes && states[i].nodes[v].role == Leader
    requires p < |states[i].nodes[v].peers| && p < |states[i].nodes[v].matchIndex|
    requires states[i].nodes[v].matchIndex[p] >= 0
    ensures TrueClaim(states[i], states[i].nodes[v], states[i].nodes[v].peers[p], states[i].nodes[v].matchIndex[p])
  {
    hide Past, Init, Follows, Inv, TrueClaim;
    RunInv(states, moves, i);
    MatchIsTrue(states[i], Past(states, moves, true, i), v, p);
  }

  lemma MatchIsTrue(s: Cluster, h: History, v: int, p: nat)
    requires Inv(s, h) && v in s.nodes && s.nodes[v].role == Leader
    requires p < |s.nodes[v].peers| && p < |s.nodes[v].matchIndex| && s.nodes[v].matchIndex[p] >= 0
    ensures TrueClaim(s, s.nodes[v], s.nodes[v].peers[p], s.nodes[v].matchIndex[p])
  {
    hide VotesInv, CompleteInv, CommitInv, LogsInv;
    var n := s.nodes[v];
    var w, k := n.peers[p], n.matchIndex[p];
    assert MatchOk(h, n) && LeaderOk(h, n) && NodeOk(n);
    assert Holds(h, n.term, w, k) && AcceptedOk(s, h, n.term, w);
    assert s.nodes[w].term == n.term ==> s.nodes[w].log == n.log[..h.acc[(n.term, w)]];
  }

  /** In its present term node `v` leads or has accepted an append request. */
  ghost predicate Bound(states: seq<Cluster>, moves: seq<Move>, guarded: bool, i: nat, v: int)
    requires Run(states, moves, guarded) && i <= |moves|
  {
    v in states[i].nodes && (states[i].nodes[v].term, v) in Past(states, moves, guarded, i).acc
  }

  /** From then on its log only grows as long as it stays in that term. */
  lemma BoundLogGrows(states: seq<Cluster>, moves: seq<Move>, guarded: bool, i: nat, j: nat, v: int)
    requires CoreRun(states, moves, guarded) && i <= j < |states| && Bound(states, moves, guarded, i, v)
    requires v in states[j].nodes && states[j].nodes[v].term == states[i].nodes[v].term
    ensures Bound(states, moves, guarded, j, v) && states[i].nodes[v].log <= states[j].nodes[v].log
  {
    hide Past, Init, Follows;
    RunCoreInv(states, moves, guarded, i);
    RunCoreInv(states, moves, guarded, j);
    RunGrows(states, moves, guarded, i, j);
    var h, h', T := Past(states, moves, guarded, i), Past(states, moves, guarded, j), states[i].nodes[v].term;
    AcceptedPrefix(states[i], h, T, v);
    AcceptedPrefix(states[j], h', T, v);
    PrefixGrows(h, h', T, v);
  }

  lemma AcceptedPrefix(s: Cluster, h: History, T: int, v: int)
    requires CoreInv(s, h) && (T, v) in h.acc && v in s.nodes && s.nodes[v].term == T
    ensures T in h.reigns && h.acc[(T, v)] <= |h.reigns[T].log| && s.nodes[v].log == h.reigns[T].log[..h.acc[(T, v)]]
  {
    assert AcceptedOk(s, h, T, v);
  }

  lemma PrefixGrows(h: History, h': History, T: int, v: int)
    requires Grown(h, h') && (T, v) in h.acc && T in h.reigns && h.acc[(T, v)] <= |h.reigns[T].log|
    requires (T, v) in h'.acc && T in h'.reigns && h'.acc[(T, v)] <= |h'.reigns[T].log|
    ensures h.reigns[T].log[..h.acc[(T, v)]] <= h'.reigns[T].log[..h'.acc[(T, v)]]
  {
    assert ReignGrows(h, h', T);
  }

  /** An append request in flight was sent when its sender led the request's term with a log that
      ended where the request ends. */
  lemma {:induction false} SentByLeader(states: seq<Cluster>, moves: seq<Move>, guarded: bool, i: nat,
                                        a: int, b: int, m: Message) returns (t: nat)
    requires Run(states, moves, guarded) && i < |states| && a in states[i].nodes && b in states[i].nodes
    requires m in Link(states[i], a, b) && m.AppendRequest?
    ensures t <= i && LeaderAt(states[t], a, m.term) && |states[t].nodes[a].log| == End(m)
  {
    hide Past, Effect, Follows, VoteInv;
    if i == 0 {
      NothingAtFirst(states, moves, guarded, a, b);
      assert false;
    } else {
      AnyMove(states, moves, guarded, i - 1);
      var h, h' := Past(states, moves, guarded, i - 1), Past(states, moves, guarded, i);
      WaitedOrSent(states[i - 1], h, moves[i - 1], states[i], h', a, b, m);
      if m in Link(states[i - 1], a, b) {
        t := SentByLeader(states, moves, guarded, i - 1, a, b, m);
      } else {
        t := i;
      }
    }
  }

  lemma NothingAtFirst(states: seq<Cluster>, moves: seq<Move>, guarded: bool, a: int, b: int)
    requires Run(states, moves, guarded)
    ensures Link(states[0], a, b) == []
  {
    hide Follows;
  }

  /** The request waited before the move, or else its sender has just sent it as a leader. */
  lemma WaitedOrSent(s: Cluster, h: History, mv: Move, s': Cluster, h': History, a: int, b: int, m: Message)
    requires Effect(s, h, mv, s', h') && a in s'.nodes && b in s'.nodes && m in Link(s', a, b) && m.AppendRequest?
    ensures a in s.nodes && b in s.nodes
    ensures m !in Link(s, a, b) ==> LeaderAt(s', a, m.term) && |s'.nodes[a].log| == End(m)
  {
    hide NodeEffect;
    Arrival(s, mv, s', a, b, m);
  }

  /** Snapshot soundness. A node that accepts an append request from `a` has then the log that `a` had,
      as leader of the request's term, at the time `t` when it sent the request. If `a` still leads that
      term this is a prefix of the log `a` has now; and the node is bound to it. */
  lemma AcceptedIsSnapshot(states: seq<Cluster>, moves: seq<Move>, guarded: bool, i: nat, a: int, b: int)
      returns (t: nat)
    requires CoreRun(states, moves, guarded) && i < |moves| && moves[i] == Deliver(a, b)
    requires a in states[i].nodes && b in states[i].nodes && Link(states[i], a, b) != []
    requires var m := Link(states[i], a, b)[0];
      m.AppendRequest? && -1 <= m.prevLogIndex && Accepts(states[i].nodes[b], m)
    ensures var m := Link(states[i], a, b)[0];
      && b in states[i + 1].nodes && states[i + 1].nodes[b].term == m.term
      && t <= i && LeaderAt(states[t], a, m.term)
      && states[i + 1].nodes[b].log == states[t].nodes[a].log
      && |states[t].nodes[a].log| == End(m) && states[t].nodes[a].log[m.prevLogIndex + 1..] == m.data
      && (LeaderAt(states[i], a, m.term) ==> states[i + 1].nodes[b].log <= states[i].nodes[a].log)
      && Bound(states, moves, guarded, i + 1, b)
  {
    hide Past, Init, Follows, Checked, CoreInv;
    OneMove(states, moves, guarded, i);
    var h, m := Past(states, moves, guarded, i), Link(states[i], a, b)[0];
    AcceptGives(states[i], h, a, b, states[i + 1], Past(states, moves, guarded, i + 1));
    t := SentByLeader(states, moves, guarded, i, a, b, m);
    RunCoreInv(states, moves, guarded, t);
    RunGrows(states, moves, guarded, t, i);
    LeaderLogWas(states[t], Past(states, moves, guarded, t), h, a, m.term, End(m));
  }

  lemma LeaderLogWas(s: Cluster, h: History, h': History, a: int, T: int, end: int)
    requires CoreInv(s, h) && Grown(h, h') && LeaderAt(s, a, T) && |s.nodes[a].log| == end
    ensures T in h'.reigns && end <= |h'.reigns[T].log| && s.nodes[a].log == h'.reigns[T].log[..end]
  {
    hide VotesInv, AcceptInv, LogsInv;
    assert LeaderOk(h, s.nodes[a]) && ReignGrows(h, h', T);
  }

  lemma AcceptGives(s: Cluster, h: History, a: int, b: int, s': Cluster, h': History)
    requires Checked(s, h, Deliver(a, b), s', h') && CoreInv(s, h)
    requires var m := Link(s, a, b)[0]; m.AppendRequest? && -1 <= m.prevLogIndex && Accepts(s.nodes[b], m)
    ensures var m := Link(s, a, b)[0];
      && b in s'.nodes && s'.nodes[b].term == m.term && (m.term, b) in h'.acc
      && m.term in h.reigns && 0 <= End(m) <= |h.reigns[m.term].log|
      && s'.nodes[b].log == h.reigns[m.term].log[..End(m)]
      && s'.nodes[b].log[m.prevLogIndex + 1..] == m.data
      && (LeaderAt(s, a, m.term) ==> s'.nodes[b].log <= s.nodes[a].log)
  {
    hide WinOk, HeadOk, HeadLed, NodeEffect, LinkEffect, VotesInv, AcceptInv;
    var m := Link(s, a, b)[0];
    AcceptSets(s, h, a, b, s', h');
    Adopts(s, h, Deliver(a, b), s', h');
    assert LeaderOk(h, s.nodes[a]);
    var lead := h.reigns[m.term].log;
    assert lead[..End(m)][m.prevLogIndex + 1..] == lead[m.prevLogIndex + 1..End(m)];
  }

  lemma AcceptSets(s: Cluster, h: History, a: int, b: int, s': Cluster, h': History)
    requires Effect(s, h, Deliver(a, b), s', h') && ConfigOk(s)
    requires var m := Link(s, a, b)[0]; m.AppendRequest? && -1 <= m.prevLogIndex && Accepts(s.nodes[b], m)
    ensures b in s'.nodes && s'.nodes[b].term == Link(s, a, b)[0].term && (Link(s, a, b)[0].term, b) in h'.acc
  {
    hide LinkEffect;
  }
}
