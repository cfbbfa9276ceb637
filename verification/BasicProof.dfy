/** Every move keeps the configuration, and the order and signatures on the links. */
module BasicProof {
  import opened RaftTypes
  import opened ClusterModel
  import opened History
  import opened Invariants
  import opened Effects
  import opened VoteProof

  lemma ConfigKept(s: Cluster, h: History, mv: Move, s': Cluster, h': History)
    requires Effect(s, h, mv, s', h') && BasicInv(s)
    ensures ConfigOk(s')
  {
    forall a ensures Link(s', a, a) == [] {
      if a in s.nodes && Link(s', a, a) != [] {
        LinkedApart(s, mv, s', a, a, Link(s', a, a)[0]);
        assert false;
      }
    }
  }

  // ----- links

  lemma OrderedCut(q: seq<Message>, i: nat)
    requires Ordered(q) && i < |q|
    ensures Ordered(q[..i] + q[i + 1..])
  {}

  lemma OrderedAppend(q: seq<Message>, m: Message)
    requires Ordered(q) && forall x :: x in q ==> Before(x, m)
    ensures Ordered(q + [m])
  {}

  lemma OrderedRest(s: Cluster, mv: Move, x: int, y: int)
    requires Possible(s, mv, false) && Ordered(Link(s, x, y))
    ensures Ordered(Rest(s, mv, x, y))
  {
    if mv.Lose? && mv.src == x && mv.dst == y { OrderedCut(Link(s, x, y), mv.pos); }
  }

  /** Whatever was sent before on a link may come before what is sent now. */
  lemma SentInOrder(s: Cluster, h: History, mv: Move, s': Cluster, h': History, x: int, y: int, m0: Message, m: Message)
    requires Possible(s, mv, false) && !mv.Lose? && HeadOk(s, h, mv)
    requires NodeEffect(s, h, Actor(mv), Source(mv), EventOf(s, mv), s', h')
    requires x in s.nodes && y in s.nodes && SentBy(s, mv, s', x, y, m)
    requires SignedBy(m0, x, s.nodes[x].term) && s.nodes[x].id == x
    requires m0.VoteResponse? ==> GrantOk(s, h, x, y, m0)
    ensures Before(m0, m)
  {}

  lemma SignedStays(s: Cluster, h: History, mv: Move, s': Cluster, h': History, x: int, y: int, m: Message)
    requires Effect(s, h, mv, s', h') && x in s.nodes && y in s.nodes
    requires s.nodes[x].id == x && 0 <= s.nodes[x].term
    requires m in Link(s', x, y) && (m in Link(s, x, y) ==> SignedBy(m, x, s.nodes[x].term))
    ensures SignedBy(m, x, s'.nodes[x].term)
  {
    Arrival(s, mv, s', x, y, m);
  }

  lemma LinkKept(s: Cluster, h: History, mv: Move, s': Cluster, h': History, x: int, y: int)
    requires VoteMove(s, h, mv, s', h') && HeadOk(s, h, mv) && x in s.nodes && y in s.nodes
    ensures Ordered(Link(s', x, y))
  {
    assert Relinked(s, mv, s', x, y);
    OrderedRest(s, mv, x, y);
    var q := Rest(s, mv, x, y);
    if Link(s', x, y) != q {
      var m := Link(s', x, y)[|Link(s', x, y)| - 1];
      forall m0 | m0 in q ensures Before(m0, m) {
        assert m0 in Link(s, x, y);
        SentInOrder(s, h, mv, s', h', x, y, m0, m);
      }
      OrderedAppend(q, m);
    }
  }

  lemma LinksKept(s: Cluster, h: History, mv: Move, s': Cluster, h': History)
    requires VoteMove(s, h, mv, s', h')
    ensures LinksOk(s')
  {
    HeadIsOk(s, h, mv);
    forall x, y | x in s'.nodes && y in s'.nodes ensures Ordered(Link(s', x, y)) {
      LinkKept(s, h, mv, s', h', x, y);
    }
    forall x, y, m | x in s'.nodes && y in s'.nodes && m in Link(s', x, y)
      ensures SignedBy(m, x, s'.nodes[x].term)
    {
      SignedStays(s, h, mv, s', h', x, y, m);
    }
  }

  lemma BasicKept(s: Cluster, h: History, mv: Move, s': Cluster, h': History)
    requires VoteMove(s, h, mv, s', h')
    ensures BasicInv(s')
  {
    ConfigKept(s, h, mv, s', h');
    LinksKept(s, h, mv, s', h');
  }
}
