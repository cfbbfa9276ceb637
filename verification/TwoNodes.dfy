/** In a cluster of one or two nodes no success reply is ever stale: what elects a leader has passed
    every earlier message on the only link to it. */
module TwoNodes {
  import opened RaftTypes
  import opened ClusterModel
  import opened History
  import opened Quorums
  import opened Invariants
  import opened Effects
  import opened VoteProof
  import opened ReignProof
  import opened LogProof
  import opened Safety
  import opened RunLaws

  /** Whatever is on its way to a leader was sent in its term or later. */
  ghost predicate UpToTerm(s: Cluster) {
    forall a, b :: a in s.nodes && b in s.nodes && a != b && s.nodes[b].role == Leader ==> NoneEarlier(s, a, b)
  }

  ghost predicate NoneEarlier(s: Cluster, a: int, b: int)
    requires a in s.nodes && b in s.nodes
  {
    s.nodes[b].term <= s.nodes[a].term && forall m :: m in Link(s, a, b) ==> s.nodes[b].term <= m.term
  }

  lemma OnlyTwo(ids: set<int>, a: int, b: int, c: int)
    requires |ids| <= 2 && a in ids && b in ids && c in ids && a != b && b != c
    ensures a == c
  {
    if a != c { SubsetSize({a, b, c}, ids); }
  }

  /** The message that made `b` a leader comes before all that is left on the link. */
  lemma WinnerIsCurrent(s: Cluster, h: History, mv: Move, s': Cluster, h': History, a: int, b: int)
    requires Checked(s, h, mv, s', h') && CoreInv(s, h) && |s.nodes.Keys| <= 2
    requires a in s.nodes && b in s.nodes && a != b && !mv.Lose? && Actor(mv) == b
    requires s'.nodes[b].role == Leader && s.nodes[b].role != Leader
    ensures NoneEarlier(s', a, b)
  {
    hide HeadOk, HeadLed, WinOk, VotesInv, ReignsInv, LogsInv, AcceptInv, NodesOk;
    assert WinsBy(s.nodes[b], EventOf(s, mv));
    OnlyTwo(s.nodes.Keys, a, b, mv.src);
    HeadWaits(s, a, b);
    forall m | m in Link(s', a, b) ensures s'.nodes[b].term <= m.term {
      Arrival(s, mv, s', a, b, m);
      AfterHead(s, a, b, m);
    }
  }

  lemma StaysCurrent(s: Cluster, h: History, mv: Move, s': Cluster, h': History, a: int, b: int)
    requires Checked(s, h, mv, s', h') && CoreInv(s, h) && |s.nodes.Keys| <= 2 && UpToTerm(s)
    requires a in s'.nodes && b in s'.nodes && a != b && s'.nodes[b].role == Leader
    ensures NoneEarlier(s', a, b)
  {
    hide HeadOk, HeadLed, WinOk, VotesInv, ReignsInv, LogsInv, AcceptInv, NodesOk;
    if s.nodes[b].role != Leader {
      WinnerIsCurrent(s, h, mv, s', h', a, b);
    } else {
      assert NoneEarlier(s, a, b);
      forall m | m in Link(s', a, b) ensures s'.nodes[b].term <= m.term { Arrival(s, mv, s', a, b, m); }
    }
  }

  lemma NoStaleAck(s: Cluster, h: History, mv: Move)
    requires CoreInv(s, h) && UpToTerm(s) && Possible(s, mv, false)
    ensures Possible(s, mv, true)
  {
    hide VotesInv, LogsInv, NodesOk;
    if mv.Deliver? {
      var m := Link(s, mv.src, mv.dst)[0];
      if m.AppendResponse? && m.success && s.nodes[mv.dst].role == Leader {
        assert m in Link(s, mv.src, mv.dst) && NoneEarlier(s, mv.src, mv.dst);
        assert AppendLinkOk(h, mv.src, mv.dst, m) && ReignOk(s, h, m.term);
      }
    }
  }

  lemma {:induction false} StaysUpToTerm(states: seq<Cluster>, moves: seq<Move>, i: nat)
    requires Run(states, moves, false) && 1 <= |states[0].nodes.Keys| <= 2 && i < |states|
    ensures UpToTerm(states[i])
  {
    hide Init, CoreInv, Past, Checked, UpToTerm, Follows;
    if i == 0 {
      AtFirst(states[0]);
    } else {
      StaysUpToTerm(states, moves, i - 1);
      RunCoreInv(states, moves, false, i - 1);
      OneMove(states, moves, false, i - 1);
      NextIsCurrent(states[i - 1], Past(states, moves, false, i - 1), moves[i - 1],
                    states[i], Past(states, moves, false, i));
    }
  }

  /** A run of such a cluster never delivers a stale success reply, and is never about to. */
  lemma {:induction false} NeverStale(states: seq<Cluster>, moves: seq<Move>, i: nat, mv: Move)
    requires Run(states, moves, false) && 1 <= |states[0].nodes.Keys| <= 2 && i < |states|
    requires Possible(states[i], mv, false)
    ensures Possible(states[i], mv, true)
  {
    hide Init, CoreInv, Past, UpToTerm, Possible, Follows;
    StaysUpToTerm(states, moves, i);
    RunCoreInv(states, moves, false, i);
    NoStaleAck(states[i], Past(states, moves, false, i), mv);
  }

  lemma AtFirst(s: Cluster)
    requires Init(s)
    ensures UpToTerm(s)
  {}

  lemma NextIsCurrent(s: Cluster, h: History, mv: Move, s': Cluster, h': History)
    requires Checked(s, h, mv, s', h') && CoreInv(s, h) && |s.nodes.Keys| <= 2 && UpToTerm(s)
    ensures UpToTerm(s')
  {
    hide Checked, CoreInv, NoneEarlier;
    forall a, b | a in s'.nodes && b in s'.nodes && a != b && s'.nodes[b].role == Leader ensures NoneEarlier(s', a, b) {
      StaysCurrent(s, h, mv, s', h', a, b);
    }
  }
}
