/** Every move keeps the invariants about logs, acceptance, links and single nodes. */
module LogProof {
  import opened Commands
  import opened RaftTypes
  import opened NodeStep
  import opened ClusterModel
  import opened History
  import opened Invariants
  import opened Effects
  import opened VoteProof
  import opened ReignProof
  import opened LogFacts

  /** What the proofs below use of the move's own message and of a possible election. */
  ghost predicate Checked(s: Cluster, h: History, mv: Move, s': Cluster, h': History) {
    && Effect(s, h, mv, s', h') && ConfigOk(s)
    && HeadOk(s, h, mv) && HeadLed(s, h, mv) && WinOk(s, h, mv)
  }

  lemma IsChecked(s: Cluster, h: History, mv: Move, s': Cluster, h': History)
    requires ReignMove(s, h, mv, s', h')
    ensures Checked(s, h, mv, s', h')
  {
    HeadIsOk(s, h, mv);
    HeadIsLed(s, h, mv);
    WinIsOk(s, h, mv);
  }

  lemma ReignsOnlyGrow(s: Cluster, h: History, mv: Move, s': Cluster, h': History)
    requires Checked(s, h, mv, s', h') && ReignsInv(s, h)
    ensures ReignsGrow(h, h')
  {
    if !mv.Lose? { assert LeaderOk(h, s.nodes[Actor(mv)]); }
    forall T | T in h.reigns ensures ReignGrows(h, h', T) {}
  }

  lemma AccOnlyGrows(s: Cluster, h: History, mv: Move, s': Cluster, h': History)
    requires Checked(s, h, mv, s', h') && ReignsInv(s, h) && AcceptInv(s, h)
    ensures AccGrows(h, h')
  {
    if !mv.Lose? { assert LeaderOk(h, s.nodes[Actor(mv)]); }
    forall T, v | (T, v) in h.acc ensures (T, v) in h'.acc && h.acc[(T, v)] <= h'.acc[(T, v)] {
      assert AcceptedOk(s, h, T, v);
    }
  }

  /** A node that accepts an append request takes over the leader's log up to the request's end. */
  lemma Adopts(s: Cluster, h: History, mv: Move, s': Cluster, h': History)
    requires Checked(s, h, mv, s', h') && LogsInv(s, h)
    requires !mv.Lose? && AcceptsBy(s.nodes[Actor(mv)], EventOf(s, mv))
    ensures mv.Deliver?
    ensures var m := Link(s, mv.src, mv.dst)[0];
      SnapshotOk(h, mv.src, m) && s'.nodes[mv.dst].log == h.reigns[m.term].log[..End(m)]
  {
    hide HeadOk, WinOk;
    var m := Link(s, mv.src, mv.dst)[0];
    assert AppendLinkOk(h, mv.src, mv.dst, m);
    assert s'.nodes[mv.dst].log == LogAfter(s.nodes[mv.dst], Receive(m));
    AdoptsSnapshot(h, s.nodes[mv.dst].log, mv.src, m);
  }

  // ----- coherent logs

  lemma NodeLogKept(s: Cluster, h: History, mv: Move, s': Cluster, h': History, v: int)
    requires Checked(s, h, mv, s', h') && ReignsInv(s, h) && LogsInv(s, h) && ReignsGrow(h, h')
    requires v in s.nodes
    ensures Coherent(h', s'.nodes[v].log)
  {
    CoherentGrows(h, h', s.nodes[v].log);
    if !mv.Lose? && v == Actor(mv) {
      var n, ev := s.nodes[v], EventOf(s, mv);
      if AcceptsBy(n, ev) {
        Adopts(s, h, mv, s', h');
        var m := ev.msg;
        CoherentPrefix(h, h.reigns[m.term].log, End(m));
        CoherentGrows(h, h', s'.nodes[v].log);
      } else if ev.Client? && n.role == Leader {
        assert LeaderOk(h, n);
        ExtendedCoherent(h', n, ev.cmd);
      }
    }
  }

  lemma ExtendedCoherent(h': History, n: Node, cmd: Msg)
    requires Coherent(h', n.log)
    requires n.term in h'.reigns && h'.reigns[n.term].log == n.log + [Entry(n.term, cmd)]
    ensures Coherent(h', n.log + [Entry(n.term, cmd)])
  {
    var x := n.log + [Entry(n.term, cmd)];
    forall i | 0 <= i < |x| ensures Backed(h', x, i) {
      if i < |n.log| {
        assert Backed(h', n.log, i);
        assert x[..i + 1] == n.log[..i + 1];
      }
    }
  }

  lemma LogsKept(s: Cluster, h: History, mv: Move, s': Cluster, h': History)
    requires Checked(s, h, mv, s', h') && ReignsInv(s, h) && LogsInv(s, h)
    ensures LogsInv(s', h')
  {
    hide Coherent, HeadOk, HeadLed, WinOk, LinkEffect;
    ReignsOnlyGrow(s, h, mv, s', h');
    forall v | v in s'.nodes ensures Coherent(h', s'.nodes[v].log) {
      NodeLogKept(s, h, mv, s', h', v);
    }
    if !mv.Lose? { assert LeaderOk(h, s.nodes[Actor(mv)]); }
    forall T | T in h'.reigns ensures Coherent(h', h'.reigns[T].log) {
      if T in h.reigns { CoherentGrows(h, h', h.reigns[T].log); }
    }
    forall T, w | (T, w) in h'.ballots ensures Coherent(h', h'.ballots[(T, w)].log) {
      if (T, w) in h.ballots { CoherentGrows(h, h', h.ballots[(T, w)].log); }
      if !mv.Lose? { CoherentGrows(h, h', s.nodes[Actor(mv)].log); }
    }
  }

  // ----- single nodes

  /** A leader's log holds only terms from 1 up to its own. */
  lemma ReignTerms(s: Cluster, h: History, T: int)
    requires T in h.reigns && ReignOk(s, h, T) && Coherent(h, h.reigns[T].log)
    requires forall U :: U in h.reigns ==> ReignOk(s, h, U)
    ensures TermsWithin(h.reigns[T].log, T)
  {
    var x := h.reigns[T].log;
    forall i | 0 <= i < |x| ensures 1 <= x[i].term <= T {
      assert Backed(h, x, i) && ReignOk(s, h, x[i].term);
    }
  }

  lemma PrefixShape(log: seq<Entry>, T: int, end: int)
    requires TermsWithin(log, T) && Sorted(log) && 0 <= end <= |log|
    ensures TermsWithin(log[..end], T) && Sorted(log[..end])
  {}

  lemma OwnShape(h: History, n: Node, ev: Event, n': Node, s: Cluster)
    requires NodeOk(n) && Evolves(n, ev, n') && !AcceptsBy(n, ev) && LeaderOk(h, n)
    requires n.term in h.reigns ==> ReignOk(s, h, n.term)
    ensures TermsWithin(n'.log, n'.term) && Sorted(n'.log)
  {}

  /** A node's log after the move, whether it adopts, extends or keeps its own. */
  lemma LogShape(s: Cluster, h: History, mv: Move, s': Cluster, h': History, v: int)
    requires Checked(s, h, mv, s', h') && NodesOk(s) && ReignsInv(s, h) && LogsInv(s, h) && v in s.nodes
    ensures TermsWithin(s'.nodes[v].log, s'.nodes[v].term) && Sorted(s'.nodes[v].log)
  {
    var n := s.nodes[v];
    assert NodeOk(n);
    if !mv.Lose? && v == Actor(mv) {
      var ev := EventOf(s, mv);
      if AcceptsBy(n, ev) {
        Adopts(s, h, mv, s', h');
        assert ReignOk(s, h, ev.msg.term);
        ReignTerms(s, h, ev.msg.term);
        PrefixShape(h.reigns[ev.msg.term].log, ev.msg.term, End(ev.msg));
      } else {
        OwnShape(h, n, ev, s'.nodes[v], s);
      }
    }
  }

  lemma NodeKept(s: Cluster, h: History, mv: Move, s': Cluster, h': History, v: int)
    requires Checked(s, h, mv, s', h') && Ledger(s, mv, s')
    requires NodesOk(s) && ReignsInv(s, h) && LogsInv(s, h) && v in s.nodes
    ensures NodeOk(s'.nodes[v])
  {
    LogShape(s, h, mv, s', h', v);
    assert NodeOk(s.nodes[v]);
  }
}
