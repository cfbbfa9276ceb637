/** A refusal binds no one: a node that has refused a candidate in a term is free to elect another, whose
    log is as late as its own, in that same term. The run has an outdated candidate unseat the leader of
    term 1 in vain, and the deposed leader's vote then makes another node leader of term 2. */
module SecondChance {
  import opened Commands
  import opened RaftTypes
  import opened NodeStep
  import opened ClusterModel
  import opened Safety
  import opened Scenario
  import opened Episodes
  import opened Reigns

  const FAIR := Rules(true, true, 0)

  /** How many votes a candidate needs beside its own. */
  function Lacking(size: nat): nat
    requires size >= 3
  {
    (size - 1) / 2
  }

  /** Node `v` has nothing in its log and has seen no term after the first. */
  predicate Idle(s: Cluster, v: int) {
    v in s.nodes && s.nodes[v].role == Follower && s.nodes[v].term <= 1 && s.nodes[v].log == []
  }

  /** Node 2 leads term 1 and shares its log with node 1; the others have nothing. */
  ghost predicate Divided(s: Cluster, size: nat, term: int, log: seq<Entry>) {
    && Stage(Start(size), s, FAIR, size) && Is(s, 2, Leader, 1, log) && Is(s, 1, Follower, term, log)
    && Is(s, size, Follower, 1, []) && forall v :: 3 <= v <= size ==> Idle(s, v)
  }

  lemma LeadsFirst(size: nat) returns (s: Cluster)
    requires size >= 3
    ensures Divided(s, size, 0, [])
  {
    hide Stage, AllAre, Start, Heard;
    FirstStage(FAIR, size);
    var s0, lo := Start(size), size + 1 - Lacking(size);
    QuotaOf(s0, s0, 2, FAIR, size);
    SomeAlike(s0, 1, size + 1, lo, size + 1, Follower, 0, []);
    forall v | 1 <= v <= size ensures Is(s0, v, Follower, 0, []) { OneOf(s0, v, 1, size + 1, Follower, 0, []); }
    assert Is(s0, 2, Follower, 0, []) && Is(s0, 1, Follower, 0, []);
    AllWinnable(s0, 2, lo, size + 1, Follower, 0, []);
    s := TakeOver(s0, s0, 2, 2, lo, size + 1, FAIR, size);
    ElectorsAlike(s0, s, 2, 2, lo, size + 1, Follower, 0, []);
    AfterFirst(s0, s, size);
  }

  lemma AfterFirst(s0: Cluster, s: Cluster, size: nat)
    requires size >= 3 && Stage(Start(size), s, FAIR, size)
    requires forall v :: 1 <= v <= size ==> Is(s0, v, Follower, 0, [])
    requires TookOver(s0, s, 2, 2, size + 1 - Lacking(size), size + 1)
    requires AllAre(s, size + 1 - Lacking(size), size + 1, Follower, 1, [])
    ensures Divided(s, size, 0, [])
  {
    hide Stage, Start, OtherLinksSame;
    assert Is(s0, 2, Follower, 0, []) && Is(s0, 1, Follower, 0, []);
    OneOf(s, size, size + 1 - Lacking(size), size + 1, Follower, 1, []);
    forall v | 3 <= v <= size ensures Idle(s, v) {
      assert Is(s0, v, Follower, 0, []);
      if size + 1 - Lacking(size) <= v { OneOf(s, v, size + 1 - Lacking(size), size + 1, Follower, 1, []); }
    }
  }

  lemma SharesEntry(size: nat, cmd: Msg) returns (s: Cluster)
    requires size >= 3
    ensures Divided(s, size, 1, [Entry(1, cmd)])
  {
    hide Stage, Start;
    var s0 := LeadsFirst(size);
    var s1 := Request(Start(size), s0, 2, cmd, FAIR, size);
    s := SpreadLog(Start(size), s1, 2, 1, 2, FAIR, size);
    AfterSharing(s0, s1, s, size, cmd);
  }

  lemma AfterSharing(s0: Cluster, s1: Cluster, s: Cluster, size: nat, cmd: Msg)
    requires size >= 3 && Divided(s0, size, 0, []) && Stage(Start(size), s, FAIR, size)
    requires Asked(s0, s1, 2, cmd) && Spread(s1, s, 2, 1, 2)
    ensures Divided(s, size, 1, [Entry(1, cmd)])
  {
    hide Stage, Start, LastIs, Receipt;
    assert s1.nodes[2].log == [Entry(1, cmd)];
    OneOf(s, 1, 1, 2, Follower, 1, [Entry(1, cmd)]);
    forall v | 3 <= v <= size ensures Idle(s, v) { assert Idle(s0, v); }
  }

  /** The request of the outdated candidate, the last node, is all that is on its way to node 2. */
  ghost predicate OutdatedPlea(s: Cluster, size: nat, cmd: Msg) {
    && Stage(Start(size), s, FAIR, size) && Is(s, 2, Leader, 1, [Entry(1, cmd)])
    && Is(s, 1, Follower, 1, [Entry(1, cmd)]) && Is(s, size, Candidate, 2, [])
    && Link(s, size, 2) == [VoteRequest(2, size, -1, 0)] && forall v :: 3 <= v < size ==> Idle(s, v)
  }

  lemma OutdatedStands(size: nat, cmd: Msg) returns (s: Cluster)
    requires size >= 3
    ensures OutdatedPlea(s, size, cmd)
  {
    hide Onward, Wired, Start, Divided, Stood, Dropped, LastIs;
    var s0 := SharesEntry(size, cmd);
    DividedHas(s0, size, 1, [Entry(1, cmd)]);
    var s1 := StandUp(Start(size), s0, size, FAIR, size);
    PleaOfLast(s0, s1, size, cmd);
    s := Drop(Start(size), s1, size, 2, VoteRequest(2, size, -1, 0), FAIR);
    AfterDrop(s0, s1, s, size, cmd);
  }

  lemma DividedHas(s: Cluster, size: nat, term: int, log: seq<Entry>)
    requires Divided(s, size, term, log)
    ensures Stage(Start(size), s, FAIR, size) && size in s.nodes && s.nodes[size].role == Follower
  {
    hide Stage, Start;
  }

  lemma PleaOfLast(s0: Cluster, s1: Cluster, size: nat, cmd: Msg)
    requires size >= 3 && Divided(s0, size, 1, [Entry(1, cmd)]) && Stood(s0, s1, size)
    ensures size in s1.nodes && 2 in s1.nodes && LastIs(s1, size, 2, VoteRequest(2, size, -1, 0))
  {
    hide Start, Onward, LastIs;
    NodeIs(s0, size);
  }

  lemma AfterDrop(s0: Cluster, s1: Cluster, s: Cluster, size: nat, cmd: Msg)
    requires size >= 3 && Divided(s0, size, 1, [Entry(1, cmd)]) && Stood(s0, s1, size)
    requires Wired(s) && Onward(Start(size), s, FAIR)
    requires Dropped(s1, s, size, 2, VoteRequest(2, size, -1, 0))
    ensures OutdatedPlea(s, size, cmd)
  {
    hide Start, Onward, Wired, LastIs, Plea;
    forall v | 3 <= v < size ensures Idle(s, v) { assert Idle(s0, v); }
  }

  /** Node 2 has refused the outdated candidate: it follows in term 2 and has no vote. */
  ghost predicate RefusedPlea(s: Cluster, size: nat, cmd: Msg) {
    && Stage(s, s, FAIR, size) && Is(s, 2, Follower, 2, [Entry(1, cmd)]) && s.nodes[2].votedFor == 0
    && LastIs(s, 2, size, VoteResponse(2, false)) && Is(s, 1, Follower, 1, [Entry(1, cmd)])
    && forall v :: 3 <= v < size ==> Idle(s, v)
  }

  lemma OutdatedRefused(s0: Cluster, size: nat, cmd: Msg) returns (s: Cluster)
    requires size >= 3 && OutdatedPlea(s0, size, cmd)
    ensures Possible(s0, Deliver(size, 2), true) && Smooth(s0, Deliver(size, 2)) && s == Apply(s0, Deliver(size, 2))
    ensures RefusedPlea(s, size, cmd)
  {
    hide Onward, Wired, Start, Turn, Sent, OnVoteRequest;
    var m := VoteRequest(2, size, -1, 0);
    var out := To(size, VoteResponse(2, false));
    NodeIs(s0, 2);
    PlainRefusal(s0.nodes[2], m);
    forall y | y in s0.nodes ensures Sent(OnVoteRequest(s0.nodes[2], m).actions, y) == Outgoing(out, 2, y) {
      AnswerSent(s0.nodes[2], m, y);
    }
    s := Go(Start(size), s0, Deliver(size, 2), 2, Receive(m), size, out, FAIR);
    OnwardSelf(s, FAIR);
    RefusedByTurn(s0, s, size, cmd, OnVoteRequest(s0.nodes[2], m).node);
  }

  lemma PlainRefusal(n: Node, m: Message)
    requires Sound(n) && m.VoteRequest? && n.term < m.term && !UpToDate(m.lastLogTerm, m.lastLogIndex, n.log)
    ensures OnVoteRequest(n, m).node == n.(role := Follower, term := m.term, votedFor := 0)
    ensures !Grants(n, m) && Sound(OnVoteRequest(n, m).node)
  {}

  lemma RefusedByTurn(s0: Cluster, s: Cluster, size: nat, cmd: Msg, n: Node)
    requires size >= 3 && OutdatedPlea(s0, size, cmd) && Stage(s, s, FAIR, size)
    requires n == s0.nodes[2].(role := Follower, term := 2, votedFor := 0)
    requires Turn(s0, s, size, 2, n, To(size, VoteResponse(2, false)))
    ensures RefusedPlea(s, size, cmd)
  {
    hide Stage;
    assert 2 in s0.nodes && size in s0.nodes;
    var reply := VoteResponse(2, false);
    assert Link(s, 2, size) == Turned(s0, size, 2, To(size, reply), 2, size) == Link(s0, 2, size) + [reply];
    forall v | 3 <= v < size ensures Idle(s, v) { assert Idle(s0, v); }
  }

  lemma ElectsOther(s0: Cluster, size: nat, cmd: Msg) returns (s: Cluster)
    requires size >= 3 && RefusedPlea(s0, size, cmd)
    ensures Onward(s0, s, FAIR) && LeaderAt(s, 1, 2) && s.nodes[1].yes == Quota(s.nodes[1])
    ensures 2 in s.nodes && s.nodes[2].role == Follower && s.nodes[2].term == 2 && s.nodes[2].votedFor == 1
  {
    hide Onward, Wired;
    QuotaOf(s0, s0, 1, FAIR, size);
    var s1 := StandUp(s0, s0, 1, FAIR, size);
    var hi := 2 + Lacking(size);
    forall v | 2 <= v < hi ensures Canvassed(s1, 1, v) { Persuadable(s0, s1, size, cmd, v); }
    s := Gather(s0, s1, 1, 2, hi, FAIR);
  }

  lemma Persuadable(s0: Cluster, s1: Cluster, size: nat, cmd: Msg, v: int)
    requires size >= 3 && RefusedPlea(s0, size, cmd) && Stood(s0, s1, 1) && s0.nodes[1].id == 1
    requires 2 <= v < size
    ensures Canvassed(s1, 1, v)
  {
    hide Stage, LastIs;
    assert v == 2 || Idle(s0, v);
  }

  /** In every cluster of at least three nodes: node 2, leading term 1, gets the request of an outdated
      candidate of term 2 at move `i` and refuses it; later, still in term 2, it has voted for node 1,
      which leads that term with just as many votes as it takes. */
  lemma RefuserElectsAnother(size: nat, cmd: Msg) returns (states: seq<Cluster>, moves: seq<Move>, i: nat)
    requires size >= 3
    ensures Run(states, moves, true) && |states[0].nodes.Keys| == size
    ensures i < |moves| && moves[i] == Deliver(size, 2)
    ensures Link(states[i], size, 2) == [VoteRequest(2, size, -1, 0)] && LeaderAt(states[i], 2, 1)
    ensures RefusedPlea(states[i + 1], size, cmd)
    ensures var s := states[|moves|];
      && LeaderAt(s, 1, 2) && s.nodes[1].yes == Quota(s.nodes[1])
      && 2 in s.nodes && s.nodes[2].role == Follower && s.nodes[2].term == 2 && s.nodes[2].votedFor == 1
  {
    hide Init, Apply, Onward, Wired, Start, RefusedPlea;
    var s0 := OutdatedStands(size, cmd);
    var s1 := OutdatedRefused(s0, size, cmd);
    var s2 := ElectsOther(s1, size, cmd);
    StageIsReached(s0, FAIR, size);
    states, moves := RunTo(s0, size);
    i := |moves|;
    states, moves := OneMoveOn(states, moves, Deliver(size, 2));
    states, moves := RunGoesOn(states, moves, FAIR, s2);
  }

  lemma OneMoveOn(states: seq<Cluster>, moves: seq<Move>, mv: Move)
      returns (states': seq<Cluster>, moves': seq<Move>)
    requires Run(states, moves, true)
    requires Possible(states[|moves|], mv, true) && Smooth(states[|moves|], mv)
    ensures Run(states', moves', true) && states' == states + [Apply(states[|moves|], mv)] && moves' == moves + [mv]
  {
    hide Init, Apply, Smooth;
    states', moves' := states + [Apply(states[|moves|], mv)], moves + [mv];
    forall k | 0 <= k < |moves'| ensures Follows(states', moves', true, k) {
      if k < |moves| { assert Follows(states, moves, true, k); }
    }
  }
}
