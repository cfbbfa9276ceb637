/** Every move keeps the invariants about acceptance: snapshots are never shortened within a term,
    and what a leader records of a peer the peer has accepted. */
module AcceptProof {
  import opened RaftTypes
  import opened ClusterModel
  import opened History
  import opened Invariants
  import opened Effects
  import opened VoteProof
  import opened ReignProof
  import opened LogFacts
  import opened LogProof

  ghost predicate Grown(h: History, h': History) {
    ReignsGrow(h, h') && AccGrows(h, h')
  }

  /** The event sets what node `n` has accepted of term T. */
  predicate SetsAccepted(h: History, n: Node, ev: Event, T: int) {
    || (WinsBy(n, ev) && T == n.term)
    || (ExtendsBy(h, n, ev) && T == n.term)
    || (AcceptsBy(n, ev) && T == ev.msg.term)
  }

  lemma AcceptedNow(s: Cluster, h: History, mv: Move, s': Cluster, h': History, T: int)
    requires Checked(s, h, mv, s', h') && ReignsInv(s, h) && LogsInv(s, h) && ReignsGrow(h, h') && !mv.Lose?
    requires SetsAccepted(h, s.nodes[Actor(mv)], EventOf(s, mv), T)
    ensures (T, Actor(mv)) in h'.acc && AcceptedOk(s', h', T, Actor(mv))
  {
    var v, ev := Actor(mv), EventOf(s, mv);
    assert LeaderOk(h, s.nodes[v]);
    if AcceptsBy(s.nodes[v], ev) {
      Adopts(s, h, mv, s', h');
      assert ReignGrows(h, h', T);
    } else if ExtendsBy(h, s.nodes[v], ev) {
      assert ReignOk(s, h, T);
    }
  }

  lemma AcceptedStays(s: Cluster, h: History, mv: Move, s': Cluster, h': History, T: int, v: int)
    requires Checked(s, h, mv, s', h') && ReignsInv(s, h) && ReignsGrow(h, h')
    requires (T, v) in h.acc && AcceptedOk(s, h, T, v)
    requires !mv.Lose? && v == Actor(mv) ==> !SetsAccepted(h, s.nodes[v], EventOf(s, mv), T)
    ensures (T, v) in h'.acc && AcceptedOk(s', h', T, v)
  {
    assert ReignGrows(h, h', T) && LeaderOk(h, s.nodes[v]);
    assert h'.reigns[T].log[..h.acc[(T, v)]] == h.reigns[T].log[..h.acc[(T, v)]];
  }

  lemma SnapshotGrows(h: History, h': History, a: int, m: Message)
    requires ReignsGrow(h, h') && m.AppendRequest? && SnapshotOk(h, a, m)
    ensures SnapshotOk(h', a, m)
  {
    assert ReignGrows(h, h', m.term);
    hide SliceOf;
    SliceGrows(h.reigns[m.term].log, h'.reigns[m.term].log, m);
  }

  lemma SliceGrows(lead: seq<Entry>, lead': seq<Entry>, m: Message)
    requires lead <= lead' && m.AppendRequest? && -1 <= m.prevLogIndex && End(m) <= |lead| && SliceOf(lead, m)
    ensures SliceOf(lead', m)
  {
    hide End;
    EndFollows(m);
    SameSlice(lead, lead', m.prevLogIndex + 1, End(m));
  }

  lemma EndFollows(m: Message)
    requires m.AppendRequest?
    ensures m.prevLogIndex + 1 <= End(m)
  {}

  /** What is appended changes neither a slice nor the entry before it. */
  lemma SameSlice(lead: seq<Entry>, lead': seq<Entry>, start: nat, end: int)
    requires lead <= lead' && start <= end <= |lead|
    ensures lead'[start..end] == lead[start..end]
    ensures start > 0 ==> lead'[start - 1] == lead[start - 1]
  {}

  /** Requests still in flight in a term reach at least as far as what their receiver accepted in it. */
  lemma BoundStays(h: History, n: Node, src: int, ev: Event, x: int, y: int, m: Message)
    requires LeaderOk(h, n) && (WinsBy(n, ev) ==> n.term !in h.reigns)
    requires AcceptsBy(n, ev) ==> SnapshotOk(h, src, ev.msg) && (src == x && n.id == y ==> NoShorter(ev.msg, m))
    requires x != y && m.AppendRequest? && m.term in h.reigns && h.reigns[m.term].id == x
    requires (m.term, y) in h.acc ==> h.acc[(m.term, y)] <= End(m)
    ensures var acc := AccAfter(h, n, ev);
      (m.term, y) in acc ==> acc[(m.term, y)] <= End(m)
  {}

  lemma AppendLinkStays(s: Cluster, h: History, mv: Move, s': Cluster, h': History, x: int, y: int, m: Message)
    requires Checked(s, h, mv, s', h') && ReignsInv(s, h) && Grown(h, h')
    requires x in s.nodes && y in s.nodes && x != y
    requires AppendLinkOk(h, x, y, m) && (mv == Deliver(x, y) ==> NoShorter(Link(s, x, y)[0], m))
    ensures AppendLinkOk(h', x, y, m)
  {
    if mv.Lose? { return; }
    if m.AppendRequest? {
      SnapshotGrows(h, h', x, m);
      assert LeaderOk(h, s.nodes[Actor(mv)]);
      BoundStays(h, s.nodes[Actor(mv)], Source(mv), EventOf(s, mv), x, y, m);
    } else if m.AppendResponse? && m.success {
      assert ReignGrows(h, h', m.term);
    }
  }

  /** `m` is a request that leader `n` sends: its log from some index to the end. */
  predicate Carries(n: Node, m: Message) {
    && m.AppendRequest? && n.role == Leader && m.term == n.term && -1 <= m.prevLogIndex && End(m) == |n.log|
    && m.data == n.log[m.prevLogIndex + 1..End(m)]
    && (m.prevLogIndex >= 0 ==> m.prevLogTerm == n.log[m.prevLogIndex].term)
  }

  lemma SentCarries(s: Cluster, h: History, mv: Move, s': Cluster, h': History, x: int, y: int, m: Message)
    requires Checked(s, h, mv, s', h') && x in s.nodes && SentBy(s, mv, s', x, y, m) && m.AppendRequest?
    ensures x in s'.nodes && s'.nodes[x].id == x && Carries(s'.nodes[x], m)
  {
    hide HeadOk, HeadLed, WinOk, LinkEffect, LogAfter, EmitOk;
    EmittedCarries(s.nodes[x], EventOf(s, mv), s'.nodes[x], y, m);
  }

  lemma EmittedCarries(n: Node, ev: Event, n': Node, y: int, m: Message)
    requires EmitOk(n, ev, n', y, m) && m.AppendRequest?
    ensures Carries(n', m)
  {
    TailLength(n'.log, m.prevLogIndex + 1, m.data);
  }

  lemma TailLength(log: seq<Entry>, start: nat, data: seq<Entry>)
    requires start <= |log| && data == log[start..]
    ensures start + |data| == |log| && data == log[start..|log|]
  {}

  /** What a leader sends is a snapshot of its log. */
  lemma CarriedIsOk(s: Cluster, h: History, x: int, y: int, m: Message)
    requires x in s.nodes && s.nodes[x].id == x && Carries(s.nodes[x], m) && LeaderOk(h, s.nodes[x])
    requires m.term in h.reigns ==> ReignOk(s, h, m.term)
    requires (m.term, y) in h.acc ==> AcceptedOk(s, h, m.term, y)
    ensures AppendLinkOk(h, x, y, m)
  {}

  lemma RequestIsSnapshot(s: Cluster, h: History, mv: Move, s': Cluster, h': History, x: int, y: int, m: Message)
    requires Checked(s, h, mv, s', h') && ReignsInv(s', h') && x in s.nodes
    requires y in s.nodes && SentBy(s, mv, s', x, y, m) && m.AppendRequest?
    requires (m.term, y) in h'.acc ==> AcceptedOk(s', h', m.term, y)
    ensures AppendLinkOk(h', x, y, m)
  {
    hide Checked, SentBy, Carries, ReignOk, AcceptedOk, LeaderOk, AppendLinkOk;
    SentCarries(s, h, mv, s', h', x, y, m);
    CarriedIsOk(s', h', x, y, m);
  }

  lemma AckIsOk(s: Cluster, h: History, mv: Move, s': Cluster, h': History, x: int, y: int, m: Message)
    requires Checked(s, h, mv, s', h') && LogsInv(s, h) && Grown(h, h')
    requires x in s.nodes && y in s.nodes && SentBy(s, mv, s', x, y, m) && m.AppendResponse?
    ensures AppendLinkOk(h', x, y, m)
  {
    if m.success {
      Adopts(s, h, mv, s', h');
      assert ReignGrows(h, h', m.term);
    }
  }

  lemma LongerThanHead(s: Cluster, a: int, b: int, m: Message)
    requires Possible(s, Deliver(a, b), false) && Lengthening(Link(s, a, b))
    requires m in Rest(s, Deliver(a, b), a, b)
    ensures NoShorter(Link(s, a, b)[0], m)
  {
    var q := Link(s, a, b);
    var j :| 0 <= j < |q[1..]| && q[1..][j] == m;
    assert q[j + 1] == m;
  }

  lemma LengtheningRest(s: Cluster, mv: Move, x: int, y: int)
    requires Possible(s, mv, false) && Lengthening(Link(s, x, y))
    ensures Lengthening(Rest(s, mv, x, y))
  {}

  /** A leader's request reaches to the end of its log, so no earlier one of its term reaches further. */
  lemma LengtheningKept(s: Cluster, h: History, mv: Move, s': Cluster, h': History, x: int, y: int)
    requires Checked(s, h, mv, s', h') && x in s.nodes && y in s.nodes && LeaderOk(h', s'.nodes[x])
    requires Lengthening(Link(s, x, y)) && ReignsGrow(h, h')
    requires forall m :: m in Link(s, x, y) ==> AppendLinkOk(h, x, y, m)
    ensures Lengthening(Link(s', x, y))
  {
    assert Relinked(s, mv, s', x, y);
    LengtheningRest(s, mv, x, y);
    var q, q' := Rest(s, mv, x, y), Link(s', x, y);
    if q' != q && q'[|q'| - 1].AppendRequest? {
      forall i | 0 <= i < |q| ensures NoShorter(q[i], q'[|q'| - 1]) {
        assert q[i] in Link(s, x, y);
        assert q[i].AppendRequest? ==> SnapshotOk(h, x, q[i]) && ReignGrows(h, h', q[i].term);
      }
    }
  }

  lemma AppendLinkKept(s: Cluster, h: History, mv: Move, s': Cluster, h': History, x: int, y: int, m: Message)
    requires Checked(s, h, mv, s', h') && ReignMove(s, h, mv, s', h') && Grown(h, h') && ReignsInv(s', h')
    requires forall T, v :: (T, v) in h'.acc ==> AcceptedOk(s', h', T, v)
    requires x in s.nodes && y in s.nodes && m in Link(s', x, y)
    ensures AppendLinkOk(h', x, y, m)
  {
    LinkedApart(s, mv, s', x, y, m);
    Arrival(s, mv, s', x, y, m);
    if m in Rest(s, mv, x, y) {
      if mv == Deliver(x, y) { LongerThanHead(s, x, y, m); }
      AppendLinkStays(s, h, mv, s', h', x, y, m);
    } else if m.AppendRequest? {
      RequestIsSnapshot(s, h, mv, s', h', x, y, m);
    } else if m.AppendResponse? {
      AckIsOk(s, h, mv, s', h', x, y, m);
    }
  }

  lemma MatchStays(s: Cluster, h: History, mv: Move, s': Cluster, h': History, v: int)
    requires Checked(s, h, mv, s', h') && Ledger(s, mv, s') && ReignsInv(s, h) && Grown(h, h')
    requires v in s.nodes && MatchOk(h, s.nodes[v]) && Possible(s, mv, true)
    requires mv.Deliver? ==> SignedBy(Link(s, mv.src, mv.dst)[0], mv.src, s.nodes[mv.src].term)
    ensures MatchOk(h', s'.nodes[v])
  {
    hide HeadOk, WinOk, LinkEffect, Evolves, MatchOk, Advances, HeadLed;
    if mv.Lose? || v != Actor(mv) {
      MatchGrows(h, h', s.nodes[v]);
    } else {
      ActorMatches(s, h, mv, s', h');
    }
  }

  lemma MatchGrows(h: History, h': History, n: Node)
    requires MatchOk(h, n) && Grown(h, h')
    ensures MatchOk(h', n)
  {
    hide ReignsGrow;
  }

  lemma ActorMatches(s: Cluster, h: History, mv: Move, s': Cluster, h': History)
    requires Checked(s, h, mv, s', h') && Ledger(s, mv, s') && ReignsInv(s, h) && Grown(h, h') && !mv.Lose?
    requires Actor(mv) in s.nodes && MatchOk(h, s.nodes[Actor(mv)]) && Possible(s, mv, true)
    requires mv.Deliver? ==> SignedBy(Link(s, mv.src, mv.dst)[0], mv.src, s.nodes[mv.src].term)
    ensures MatchOk(h', s'.nodes[Actor(mv)])
  {
    hide HeadOk, WinOk, LinkEffect, ReignsGrow, CommitChange;
    assert LeaderOk(h, s.nodes[Actor(mv)]);
  }

  lemma AcceptKept(s: Cluster, h: History, mv: Move, s': Cluster, h': History)
    requires ReignMove(s, h, mv, s', h') && ReignsInv(s', h')
    ensures AcceptInv(s', h')
  {
    hide AcceptedOk, AppendLinkOk, ReignOk, HeadOk, WinOk, HeadLed, Lengthening;
    IsChecked(s, h, mv, s', h');
    ReignsOnlyGrow(s, h, mv, s', h');
    AccOnlyGrows(s, h, mv, s', h');
    forall T, v | (T, v) in h'.acc ensures AcceptedOk(s', h', T, v) {
      if !mv.Lose? && v == Actor(mv) && SetsAccepted(h, s.nodes[v], EventOf(s, mv), T) {
        AcceptedNow(s, h, mv, s', h', T);
      } else {
        AcceptedStays(s, h, mv, s', h', T, v);
      }
    }
    forall x, y, m | x in s'.nodes && y in s'.nodes && m in Link(s', x, y) ensures AppendLinkOk(h', x, y, m) {
      AppendLinkKept(s, h, mv, s', h', x, y, m);
    }
    forall x, y | x in s'.nodes && y in s'.nodes ensures Lengthening(Link(s', x, y)) {
      LengtheningKept(s, h, mv, s', h', x, y);
    }
  }

  lemma MatchKept(s: Cluster, h: History, mv: Move, s': Cluster, h': History)
    requires ReignMove(s, h, mv, s', h') && Ledger(s, mv, s') && MatchInv(s, h) && Possible(s, mv, true)
    requires Grown(h, h')
    ensures MatchInv(s', h')
  {
    hide MatchOk, HeadOk, WinOk, HeadLed;
    IsChecked(s, h, mv, s', h');
    forall v | v in s'.nodes ensures MatchOk(h', s'.nodes[v]) {
      if mv.Deliver? { HeadWaits(s, mv.src, mv.dst); }
      MatchStays(s, h, mv, s', h', v);
    }
  }
}
