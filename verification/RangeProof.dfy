/** In clusters of every size, no handler indexes or slices out of range as long as no leader handles a
    stale success reply: a reply of a leader's own term answers its own request, which ended inside its
    log, and while it leads its log only grows. */
module RangeProof {
  import opened RaftTypes
  import opened NodeStep
  import opened ClusterModel
  import opened History
  import opened Invariants
  import opened Effects
  import opened VoteProof

  /** A success reply stays inside the log of the leader that handles it. */
  predicate ReplyInside(n: Node, ev: Event) {
    n.role == Leader && ev.Receive? && ev.msg.AppendResponse? && ev.msg.success ==> ev.msg.index < |n.log|
  }

  lemma HandlerInRange(n: Node, ev: Event)
    requires Ready(n, ev) && IndicesInRange(n) && ReplyInside(n, ev)
    ensures IndicesInRange(Step(n, ev).node)
  {
    match ev
    case Client(_) =>
    case Timeout =>
    case Receive(m) =>
      match m
      case VoteRequest(_, _, _, _) =>
      case VoteResponse(_, _) =>
      case AppendRequest(_, _, _, _, _, _) =>
      case AppendResponse(_, _, _, _) =>
  }

  lemma MoveInRange(s: Cluster, mv: Move)
    requires BasicInv(s) && RangeInv(s) && Possible(s, mv, true) && Smooth(s, mv)
    ensures forall v :: v in s.nodes ==> v in Apply(s, mv).nodes && IndicesInRange(Apply(s, mv).nodes[v])
  {
    forall v | v in s.nodes ensures v in Apply(s, mv).nodes && IndicesInRange(Apply(s, mv).nodes[v]) {
      assert NodeInside(s.nodes[v]);
      if !mv.Lose? && v == Actor(mv) {
        RepliesInside(s, mv);
        HandlerInRange(s.nodes[v], EventOf(s, mv));
      }
    }
  }

  lemma RepliesInside(s: Cluster, mv: Move)
    requires RangeInv(s) && Possible(s, mv, true) && !mv.Lose?
    ensures ReplyInside(s.nodes[Actor(mv)], EventOf(s, mv))
  {
    if mv.Deliver? {
      HeadWaits(s, mv.src, mv.dst);
      assert LinkInside(s.nodes[mv.src], s.nodes[mv.dst], Link(s, mv.src, mv.dst)[0]);
    }
  }

  lemma InsideStays(n: Node, ev: Event, n': Node, term: int, end: int)
    requires Evolves(n, ev, n') && Inside(n, term, end)
    ensures Inside(n', term, end)
  {
    hide Merge, MatchEnd;
  }

  lemma LinkInsideStays(s: Cluster, h: History, mv: Move, s': Cluster, h': History, x: int, y: int, m: Message)
    requires Effect(s, h, mv, s', h') && x in s.nodes && y in s.nodes && LinkInside(s.nodes[x], s.nodes[y], m)
    ensures LinkInside(s'.nodes[x], s'.nodes[y], m)
  {
    hide Evolves, Inside, LinkEffect;
    if !mv.Lose? {
      var n, ev, n' := s.nodes[Actor(mv)], EventOf(s, mv), s'.nodes[Actor(mv)];
      if m.AppendRequest? && x == Actor(mv) { InsideStays(n, ev, n', m.term, End(m)); }
      if m.AppendResponse? && m.success && y == Actor(mv) { InsideStays(n, ev, n', m.term, m.index + 1); }
    }
  }

  /** A leader's request ends where its log ends. */
  lemma RequestInside(s: Cluster, mv: Move, s': Cluster, x: int, y: int, m: Message)
    requires Possible(s, mv, false) && x in s.nodes && x in s'.nodes && SentBy(s, mv, s', x, y, m) && m.AppendRequest?
    ensures Inside(s'.nodes[x], m.term, End(m))
  {}

  /** A node that accepts a request has then a log that ends where the request ends. */
  lemma AcceptedLength(n: Node, ev: Event, n': Node)
    requires Evolves(n, ev, n') && AcceptsBy(n, ev)
    ensures |n'.log| == End(ev.msg) && n'.term == ev.msg.term
  {}

  lemma AckInside(s: Cluster, h: History, mv: Move, s': Cluster, h': History, x: int, y: int, m: Message)
    requires VoteMove(s, h, mv, s', h') && RangeInv(s) && x in s.nodes && y in s.nodes && x != y
    requires SentBy(s, mv, s', x, y, m) && m.AppendResponse? && m.success
    ensures LinkInside(s'.nodes[x], s'.nodes[y], m)
  {
    hide VotesInv, Evolves;
    var request := EventOf(s, mv).msg;
    HeadWaits(s, mv.src, mv.dst);
    assert SignedBy(request, mv.src, s.nodes[mv.src].term);
    assert LinkInside(s.nodes[y], s.nodes[x], request);
    AcceptedLength(s.nodes[x], EventOf(s, mv), s'.nodes[x]);
  }

  lemma NodeInsideStays(n: Node, ev: Event, n': Node)
    requires NodeInside(n) && Advances(n, ev, n') && IndicesInRange(n')
    ensures NodeInside(n')
  {
    hide IndicesInRange, MatchChange;
  }

  lemma RangeKept(s: Cluster, h: History, mv: Move, s': Cluster, h': History)
    requires VoteMove(s, h, mv, s', h') && Ledger(s, mv, s') && RangeInv(s)
    requires forall v :: v in s.nodes ==> v in s'.nodes && IndicesInRange(s'.nodes[v])
    ensures RangeInv(s')
  {
    hide VotesInv, NodeInside, LinkInside, Advances, IndicesInRange, Evolves, LinksOk, ConfigOk;
    forall v | v in s'.nodes ensures NodeInside(s'.nodes[v]) {
      if !mv.Lose? && v == Actor(mv) { NodeInsideStays(s.nodes[v], EventOf(s, mv), s'.nodes[v]); }
    }
    forall x, y, m | x in s'.nodes && y in s'.nodes && m in Link(s', x, y)
      ensures LinkInside(s'.nodes[x], s'.nodes[y], m)
    {
      MessageInside(s, h, mv, s', h', x, y, m);
    }
  }

  lemma MessageInside(s: Cluster, h: History, mv: Move, s': Cluster, h': History, x: int, y: int, m: Message)
    requires VoteMove(s, h, mv, s', h') && RangeInv(s) && x in s'.nodes && y in s'.nodes && m in Link(s', x, y)
    ensures LinkInside(s'.nodes[x], s'.nodes[y], m)
  {
    hide VotesInv, NodeInside, Inside;
    LinkedApart(s, mv, s', x, y, m);
    Arrival(s, mv, s', x, y, m);
    if m in Link(s, x, y) {
      assert LinkInside(s.nodes[x], s.nodes[y], m);
      LinkInsideStays(s, h, mv, s', h', x, y, m);
    } else if m.AppendRequest? {
      RequestInside(s, mv, s', x, y, m);
    } else if m.AppendResponse? && m.success {
      AckInside(s, h, mv, s', h', x, y, m);
    }
  }

  /** In such a state every possible move runs without an index or slice out of range. */
  lemma MoveNeverPanics(s: Cluster, mv: Move)
    requires BasicInv(s) && RangeInv(s) && Possible(s, mv, true)
    ensures Smooth(s, mv)
  {
    if mv.Lose? { return; }
    var n, ev := s.nodes[Actor(mv)], EventOf(s, mv);
    assert NodeInside(n);
    if mv.Deliver? {
      HeadWaits(s, mv.src, mv.dst);
      assert SignedBy(ev.msg, mv.src, s.nodes[mv.src].term) && LinkInside(s.nodes[mv.src], n, ev.msg);
      assert mv.src != mv.dst;
    }
  }
}
