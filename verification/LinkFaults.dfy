/** Why the links must be first-in first-out and must not repeat a message. In an otherwise ordinary run
    one vote that arrives twice gives a term two leaders, and one append request that arrives late makes
    two nodes commit different commands. */
module LinkFaults {
  import opened Commands
  import opened RaftTypes
  import opened NodeStep
  import opened ClusterModel
  import opened Quorums
  import opened Effects
  import opened Safety
  import opened Scenario
  import opened Episodes
  import opened Reigns
  import opened SplitVote
  import opened StaleAck

  const USUAL := Rules(true, true, 0)

  /** The network puts `m` on the link from `a` to `b` once more; nothing else happens. */
  ghost predicate Again(s: Cluster, s': Cluster, a: int, b: int, m: Message) {
    (a, b) in s.net && s' == s.(net := s.net[(a, b) := s.net[(a, b)] + [m]])
  }

  lemma AgainWired(s: Cluster, s': Cluster, a: int, b: int, m: Message)
    requires Wired(s) && a != b && Again(s, s', a, b, m)
    ensures Wired(s') && LastIs(s', a, b, m) && s'.nodes == s.nodes
    ensures forall x, y :: (x != a || y != b) ==> Link(s', x, y) == Link(s, x, y)
  {
    hide Sound;
    forall z ensures Link(s', z, z) == [] { assert Link(s, z, z) == []; }
  }

  lemma LinkedPair(s: Cluster, a: int, b: int)
    requires Wired(s) && a in s.nodes && b in s.nodes
    ensures (a, b) in s.net
  {
    hide Sound;
  }

  // ----- an append request that arrives late

  /** The last node of the first half. */
  function Last(size: nat): int {
    Middle(size) - 1
  }

  /** A heartbeat that the leader of term 1 sends before it has any entry. */
  const EARLY := AppendRequest(1, 1, -1, 0, [], -1)

  /** Node 1 leads term 1, and one early heartbeat is on its way to the last node of the first half. */
  ghost predicate EarlyBeat(s: Cluster, size: nat) {
    && Stage(Start(size), s, USUAL, size) && Is(s, 1, Leader, 1, []) && Unheard(s.nodes[1])
    && AllAre(s, 2, Middle(size), Follower, 1, []) && AllAre(s, Middle(size), size + 1, Follower, 0, [])
    && Link(s, 1, Last(size)) == [EARLY]
  }

  lemma FirstElection(size: nat) returns (s: Cluster)
    requires size >= 3
    ensures Stage(Start(size), s, USUAL, size) && Is(s, 1, Leader, 1, []) && Unheard(s.nodes[1])
    ensures AllAre(s, 2, Middle(size), Follower, 1, []) && AllAre(s, Middle(size), size + 1, Follower, 0, [])
  {
    hide Stage, AllAre, Start;
    FirstStage(USUAL, size);
    var s0 := Start(size);
    OneOf(s0, 1, 1, size + 1, Follower, 0, []);
    SomeAlike(s0, 1, size + 1, 2, Middle(size), Follower, 0, []);
    SomeAlike(s0, 1, size + 1, Middle(size), size + 1, Follower, 0, []);
    QuotaOf(Start(size), s0, 1, USUAL, size);
    AllWinnable(s0, 1, 2, Middle(size), Follower, 0, []);
    s := TakeOver(Start(size), s0, 1, 1, 2, Middle(size), USUAL, size);
    ElectorsAlike(s0, s, 1, 1, 2, Middle(size), Follower, 0, []);
    StillAlike(s0, s, Middle(size), size + 1, Follower, 0, []);
  }

  lemma EmptyRequest(n: Node, i: nat)
    requires n.role == Leader && IndicesInRange(n) && i < |n.peers| && n.log == [] && n.commit == -1
    ensures RequestFor(n, i) == AppendRequest(n.term, n.id, -1, 0, [], -1)
  {}

  lemma SendEarly(size: nat) returns (s: Cluster)
    requires size >= 3
    ensures EarlyBeat(s, size)
  {
    hide Wired, Onward, AllAre, Start, Turn, RequestFor, IndicesInRange;
    var s0 := FirstElection(size);
    var w := Last(size);
    assert 1 in s0.nodes && w in s0.nodes;
    NodeIs(s0, 1);
    var s1 := Beat(Start(size), s0, 1, USUAL);
    BeatGivesRequest(s0, s1, 1, w);
    EmptyRequest(s0.nodes[1], PeerIndex(s0.nodes[1].peers, w));
    s := Drop(Start(size), s1, 1, w, EARLY, USUAL);
    StillAlike(s0, s, 2, Middle(size), Follower, 1, []);
    StillAlike(s0, s, Middle(size), size + 1, Follower, 0, []);
  }

  lemma LoseHead(s: Cluster, a: int, b: int) returns (s': Cluster)
    requires Wired(s) && a in s.nodes && b in s.nodes && Link(s, a, b) != []
    ensures Possible(s, Lose(a, b, 0), true) && Smooth(s, Lose(a, b, 0)) && s' == Apply(s, Lose(a, b, 0))
    ensures s'.nodes == s.nodes && Wired(s')
  {
    hide Sound;
    s' := Apply(s, Lose(a, b, 0));
    assert s'.net.Keys == s.net.Keys;
    forall z ensures Link(s', z, z) == [] { assert Link(s, z, z) == []; }
  }

  lemma LoseEarly(s: Cluster, size: nat) returns (s': Cluster)
    requires EarlyBeat(s, size) && size >= 3
    ensures Possible(s, Lose(1, Last(size), 0), true) && Smooth(s, Lose(1, Last(size), 0))
    ensures s' == Apply(s, Lose(1, Last(size), 0)) && s'.nodes == s.nodes && Stage(s', s', USUAL, size)
  {
    hide Onward, Start, Wired, AllAre, Apply;
    assert 1 in s.nodes && Last(size) in s.nodes;
    s' := LoseHead(s, 1, Last(size));
    OnwardSelf(s', USUAL);
  }

  /** Node 1 has committed its entry, which the first half has. */
  ghost predicate FirstDone(o: Cluster, s: Cluster, size: nat, a: Msg) {
    && Stage(o, s, USUAL, size) && CommittedAt(s, 1, 0) && s.nodes[1].log == [Entry(1, a)]
    && AllAre(s, 2, Middle(size), Follower, 1, [Entry(1, a)]) && AllAre(s, Middle(size), size + 1, Follower, 0, [])
  }

  lemma FirstCommits(s: Cluster, size: nat, a: Msg) returns (s': Cluster)
    requires Stage(s, s, USUAL, size) && size >= 3 && Is(s, 1, Leader, 1, []) && Unheard(s.nodes[1])
    requires AllAre(s, 2, Middle(size), Follower, 1, []) && AllAre(s, Middle(size), size + 1, Follower, 0, [])
    ensures FirstDone(s, s', size, a)
  {
    hide Stage, AllAre;
    var s1 := Request(s, s, 1, a, USUAL, size);
    QuotaOf(s, s1, 1, USUAL, size);
    StillAlike(s, s1, 2, Middle(size), Follower, 1, []);
    AllTeachable(s1, 1, 2, Middle(size), 1, []);
    s' := SettleLog(s, s1, 1, 2, Middle(size), USUAL, size);
    StillAlike(s, s', Middle(size), size + 1, Follower, 0, []);
  }

  /** The early heartbeat makes a follower of its term cut its whole log, whatever it has acknowledged. */
  lemma {:induction false} EarlyCuts(f: Node, y: int)
    requires f.role == Follower && f.term == 1 && f.commit == -1 && Sound(f)
    ensures var out := OnAppendRequest(f, EARLY);
      && out.node == f.(log := [], votedFor := 1)
      && Sent(out.actions, y) == Outgoing(To(1, AppendResponse(1, f.id, true, -1)), f.id, y)
      && Sound(out.node)
  {
    SentByFollower(f, EARLY, y);
  }

  /** It arrives after all, and the last node of the first half has nothing left. */
  ghost predicate CutBack(o: Cluster, s: Cluster, size: nat, a: Msg) {
    && Stage(o, s, USUAL, size) && CommittedAt(s, 1, 0) && s.nodes[1].log == [Entry(1, a)]
    && Is(s, Last(size), Follower, 1, []) && AllAre(s, Middle(size), size + 1, Follower, 0, [])
  }

  lemma EarlyArrives(o: Cluster, s: Cluster, s1: Cluster, size: nat, a: Msg) returns (s': Cluster)
    requires FirstDone(o, s, size, a) && size >= 3 && Again(s, s1, 1, Last(size), EARLY)
    ensures CutBack(s1, s', size, a)
  {
    hide Onward, Wired, OnAppendRequest, Sent, Turn, AllAre;
    var w := Last(size);
    AgainWired(s, s1, 1, w, EARLY);
    OneOf(s, w, 2, Middle(size), Follower, 1, [Entry(1, a)]);
    NodeIs(s1, w);
    forall y ensures Sent(OnAppendRequest(s1.nodes[w], EARLY).actions, y) ==
      Outgoing(To(1, AppendResponse(1, w, true, -1)), w, y)
    {
      EarlyCuts(s1.nodes[w], y);
    }
    EarlyCuts(s1.nodes[w], 0);
    OnwardSelf(s1, USUAL);
    s' := Arrive(s1, s1, 1, w, EARLY, To(1, AppendResponse(1, w, true, -1)), USUAL);
    TurnNodes(s1, s', 1, w, s1.nodes[w].(log := [], votedFor := 1), To(1, AppendResponse(1, w, true, -1)));
    StillAlike(s, s', Middle(size), size + 1, Follower, 0, []);
  }

  lemma TurnNodes(s: Cluster, s': Cluster, took: int, v: int, n: Node, out: Out)
    requires Turn(s, s', took, v, n, out)
    ensures v in s.nodes && s'.nodes == s.nodes[v := n]
  {}

  predicate Blank(s: Cluster, v: int) {
    v in s.nodes && s.nodes[v].log == [] && s.nodes[v].commit == -1
  }

  /** The nodes from Last up to this one elect node `size`. */
  function Reach(size: nat): int {
    Last(size) + (size - 1) / 2
  }

  /** Node `size` leads term 2 with an empty log, by the votes of these nodes, whose logs are empty too. */
  ghost predicate Replaced(o: Cluster, s: Cluster, size: nat, a: Msg) {
    && Stage(o, s, USUAL, size) && CommittedAt(s, 1, 0) && s.nodes[1].log == [Entry(1, a)]
    && Is(s, size, Leader, 2, []) && Unheard(s.nodes[size]) && AllAre(s, Last(size), Reach(size), Follower, 2, [])
  }

  /** Node `size` is elected without the nodes that still have the entry. */
  lemma SecondRises(o: Cluster, s: Cluster, size: nat, a: Msg) returns (s': Cluster)
    requires CutBack(o, s, size, a) && size >= 3
    ensures Replaced(o, s', size, a)
  {
    hide Stage, AllAre;
    var w, hi := Last(size), Reach(size);
    OneOf(s, size, Middle(size), size + 1, Follower, 0, []);
    var s1 := StandUp(o, s, size, USUAL, size);
    QuotaOf(o, s1, size, USUAL, size);
    forall v | w <= v < hi ensures Winnable(s1, size, v) && Blank(s1, v) {
      if v != w { OneOf(s, v, Middle(size), size + 1, Follower, 0, []); }
    }
    s' := TakeOver(o, s1, size, size, w, hi, USUAL, size);
    HeardAll(s1, s', size, w, hi);
  }

  /** It commits another. */
  lemma SecondCommits(o: Cluster, s: Cluster, size: nat, a: Msg, b: Msg) returns (s': Cluster)
    requires CutBack(o, s, size, a) && size >= 3
    ensures Onward(o, s', USUAL) && CommittedAt(s', 1, 0) && CommittedAt(s', size, 0)
    ensures s'.nodes[1].log[0].cmd == a && s'.nodes[size].log[0].cmd == b
  {
    hide Stage, AllAre, CutBack;
    var s2 := SecondRises(o, s, size, a);
    var s3 := Request(o, s2, size, b, USUAL, size);
    QuotaOf(o, s3, size, USUAL, size);
    StillAlike(s2, s3, Last(size), Reach(size), Follower, 2, []);
    AllTeachable(s3, size, Last(size), Reach(size), 2, []);
    s' := SettleLog(o, s3, size, Last(size), Reach(size), USUAL, size);
    StageOnward(o, s', size);
  }

  lemma HeardAll(s: Cluster, s': Cluster, c: int, lo: int, hi: int)
    requires TookOver(s, s', c, c, lo, hi) && s.nodes[c].term == 1
    requires forall v :: lo <= v < hi ==> Blank(s, v)
    ensures AllAre(s', lo, hi, Follower, 2, [])
  {
    forall v | lo <= v < hi ensures Is(s', v, Follower, 2, []) {
      assert Blank(s, v) && Heard(s.nodes[v], s'.nodes[v], 2);
    }
  }

  lemma StageOnward(o: Cluster, s: Cluster, size: nat)
    requires Stage(o, s, USUAL, size)
    ensures Onward(o, s, USUAL)
  {}

  /** One append request that arrives late, after the leader's later ones, lets two nodes commit any two
      commands at index 0, in every cluster of three or more: a reached state `s0` in which it waits, the
      same without it, a run on to `s1`, its late arrival in `s2`, and a run on to `s3`. */
  lemma LateRequestDiverges(size: nat, a: Msg, b: Msg)
      returns (s0: Cluster, s1: Cluster, s2: Cluster, s3: Cluster, w: int)
    requires size >= 3
    ensures Reached(s0, true, size) && Link(s0, 1, w) == [EARLY]
    ensures Possible(s0, Lose(1, w, 0), true) && Smooth(s0, Lose(1, w, 0))
    ensures Onward(Apply(s0, Lose(1, w, 0)), s1, USUAL) && Again(s1, s2, 1, w, EARLY) && Onward(s2, s3, USUAL)
    ensures CommittedAt(s3, 1, 0) && CommittedAt(s3, size, 0)
    ensures s3.nodes[1].log[0].cmd == a && s3.nodes[size].log[0].cmd == b
  {
    hide Stage, AllAre, Onward, Apply, Reached, Wired;
    w := Last(size);
    s0 := SendEarly(size);
    StageIsReached(s0, USUAL, size);
    var s := LoseEarly(s0, size);
    StillAlike(s0, s, 2, Middle(size), Follower, 1, []);
    StillAlike(s0, s, Middle(size), size + 1, Follower, 0, []);
    s1 := FirstCommits(s, size, a);
    StageOnward(s, s1, size);
    StageLinked(s, s1, size, 1, w);
    s2 := s1.(net := s1.net[(1, w) := s1.net[(1, w)] + [EARLY]]);
    var s4 := EarlyArrives(s, s1, s2, size, a);
    s3 := SecondCommits(s2, s4, size, a, b);
  }

  lemma StageLinked(o: Cluster, s: Cluster, size: nat, a: int, b: int)
    requires Stage(o, s, USUAL, size) && 1 <= a <= size && 1 <= b <= size
    ensures (a, b) in s.net
  {
    hide Onward;
    assert a in s.nodes && b in s.nodes;
    LinkedPair(s, a, b);
  }

  // ----- a vote that arrives twice

  /** The nodes from 3 up to this one vote for node 2, and the last ones are asked by node 1. */
  function Share(size: nat): int {
    3 + (size - 1) / 2
  }

  const GRANT := VoteResponse(1, true)

  /** Node 2 leads term 1; node 1 is a candidate of that term with `yes` votes, and what it asks of the
      nodes from Share up to `hi` will be granted. */
  ghost predicate OneShort(o: Cluster, s: Cluster, size: nat, yes: int, hi: int) {
    && Wired(s) && Onward(o, s, USUAL) && s.nodes.Keys == Ids(size) && LeaderAt(s, 2, 1)
    && Is(s, 1, Candidate, 1, []) && s.nodes[1].yes == yes && Quota(s.nodes[1]) == (size - 1) / 2 + 1
    && forall v :: Share(size) <= v < hi ==> Canvassed(s, 1, v)
  }

  lemma SecondWinsFirst(size: nat) returns (s: Cluster)
    requires size % 2 == 1 && size >= 5
    ensures OneShort(Start(size), s, size, 1, size + 1)
  {
    hide Wired, Onward, Canvassed, Elected, Quota, AllAre, Start;
    var s0 := StandFirst(USUAL, size);
    assert 1 in {1, 2} && 2 in {1, 2};
    QuotaOf(Start(size), s0, 1, USUAL, size);
    QuotaOf(Start(size), s0, 2, USUAL, size);
    s := Gather(Start(size), s0, 2, 3, Share(size), USUAL);
    SomeAlike(s0, 3, size + 1, 3, Share(size), Follower, 0, []);
    WonIs(s0, s, 2, 3, Share(size));
    forall v | Share(size) <= v <= size ensures Canvassed(s, 1, v) {
      assert Canvassed(s0, 1, v);
      FirstStillCanvasses(s0, s, v, size);
    }
  }

  lemma FirstStillCanvasses(s: Cluster, s': Cluster, v: int, size: nat)
    requires Elected(s, s', 2, 3, Share(size)) && Canvassed(s, 1, v) && Share(size) <= v && size >= 5
    ensures Canvassed(s', 1, v)
  {
    hide Inauguration, Quota, Crowned, Convinced, Plea, Grants;
  }

  /** The vote of node `size` is all that is on its way from it to node 1. */
  ghost predicate VoteWaits(o: Cluster, s: Cluster, size: nat) {
    OneShort(o, s, size, 1, size) && Link(s, size, 1) == [GRANT]
  }

  /** Nothing has changed that node 1 needs, except perhaps its count. */
  lemma StillShort(o: Cluster, s: Cluster, o': Cluster, s': Cluster, size: nat, yes: int, hi: int)
    requires 1 in s.nodes && OneShort(o, s, size, s.nodes[1].yes, hi) && Wired(s') && Onward(o', s', USUAL)
    requires s'.nodes.Keys == s.nodes.Keys && s'.nodes[2] == s.nodes[2] && s'.nodes[1] == s.nodes[1].(yes := yes)
    requires forall v :: Share(size) <= v < hi && v in s.nodes ==>
      s'.nodes[v] == s.nodes[v] && Link(s', 1, v) == Link(s, 1, v)
    ensures OneShort(o', s', size, yes, hi)
  {
    hide Wired, Onward, Grants;
    forall v | Share(size) <= v < hi ensures Canvassed(s', 1, v) { assert Canvassed(s, 1, v); }
  }

  lemma LastVotes(size: nat) returns (s: Cluster)
    requires size % 2 == 1 && size >= 5
    ensures VoteWaits(Start(size), s, size)
  {
    hide Wired, Onward, OnVoteRequest, Convinced, Quota, Start, Turn, Canvassed;
    var s0 := SecondWinsFirst(size);
    NodeIs(s0, 1);
    LastConvinced(s0, size);
    var s1 := AnswerPlea(Start(size), s0, 1, size, Plea(s0.nodes[1]), USUAL);
    TurnNodes(s0, s1, 1, size, Convinced(s0.nodes[size], s0.nodes[1]), To(1, GRANT));
    TurnLinks(s0, s1, 1, size, Convinced(s0.nodes[size], s0.nodes[1]), To(1, GRANT));
    s := Drop(Start(size), s1, size, 1, GRANT, USUAL);
    StillShort(Start(size), s0, Start(size), s, size, 1, size);
  }

  lemma LastConvinced(s: Cluster, size: nat)
    requires OneShort(Start(size), s, size, 1, size + 1) && size >= 5 && s.nodes[1].id == 1
    ensures size in s.nodes && Plea(s.nodes[1]).VoteRequest? && Plea(s.nodes[1]).candidateId == 1
    ensures LastIs(s, 1, size, Plea(s.nodes[1]))
    ensures Grants(s.nodes[size], Plea(s.nodes[1]))
    ensures OnVoteRequest(s.nodes[size], Plea(s.nodes[1])).node == Convinced(s.nodes[size], s.nodes[1])
    ensures Convinced(s.nodes[size], s.nodes[1]).term == 1
  {
    hide Wired, Onward;
    assert Canvassed(s, 1, size);
    GrantConvinces(s.nodes[size], s.nodes[1]);
  }

  lemma TurnLinks(s: Cluster, s': Cluster, took: int, v: int, n: Node, out: Out)
    requires Turn(s, s', took, v, n, out)
    ensures forall x, y :: x in s.nodes && y in s.nodes && x != v && (x != took || y != v) ==>
      Link(s', x, y) == Link(s, x, y)
    ensures forall y :: y in s.nodes && out.To? && out.to == y && took != v ==> LastIs(s', v, y, out.msg)
  {
    forall x, y | x in s.nodes && y in s.nodes ensures Link(s', x, y) == Turned(s, took, v, out, x, y) {}
  }

  /** The same state once the vote has been handled. */
  lemma OnceCounted(s: Cluster, size: nat) returns (s': Cluster)
    requires VoteWaits(Start(size), s, size) && size % 2 == 1 && size >= 5
    ensures Possible(s, Deliver(size, 1), false) && Smooth(s, Deliver(size, 1)) && s' == Apply(s, Deliver(size, 1))
    ensures OneShort(Start(size), s', size, 2, size)
  {
    hide Wired, Onward, OnVoteResponse, Turn, Sent, Crowned, Canvassed, Start, Quota, Apply, Smooth;
    var n := s.nodes[1];
    NodeIs(s, 1);
    ConfigIs(s, 1);
    forall y | y in s.nodes ensures Sent(OnVoteResponse(n, GRANT).actions, y) == Outgoing(News(n), 1, y) {
      CountedIs(n, GRANT, y);
    }
    CountedIs(n, GRANT, 1);
    CountedKeeps(n);
    s' := Go(Start(size), s, Deliver(size, 1), 1, Receive(GRANT), size, News(n), USUAL);
    TurnNodes(s, s', size, 1, Counted(n), News(n));
    CountedSilently(s, s', size);
    StillShort(Start(size), s, Start(size), s', size, 2, size);
  }

  lemma ConfigIs(s: Cluster, v: int)
    requires Wired(s) && v in s.nodes
    ensures DistinctPeers(s.nodes[v]) && v !in s.nodes[v].peers
    ensures forall y :: y in s.nodes ==> (y in s.nodes[v].peers <==> y != v)
  {
    PeersAreOthers(s, v);
  }

  /** A count that does not suffice is told to no one. */
  lemma CountedSilently(s: Cluster, s': Cluster, size: nat)
    requires 1 in s.nodes && s.nodes[1].yes + 1 < Quota(s.nodes[1]) && size in s.nodes && size != 1
    requires Turn(s, s', size, 1, Counted(s.nodes[1]), News(s.nodes[1]))
    ensures forall v :: v in s.nodes && v != 1 ==> Link(s', 1, v) == Link(s, 1, v)
    ensures s'.nodes[1] == s.nodes[1].(yes := s.nodes[1].yes + 1)
  {
    forall v | v in s.nodes && v != 1 ensures Link(s', 1, v) == Link(s, 1, v) {
      assert Link(s', 1, v) == Turned(s, size, 1, News(s.nodes[1]), 1, v);
    }
  }

  /** The vote is counted a second time. */
  lemma CountAgain(o: Cluster, s: Cluster, s1: Cluster, size: nat) returns (s': Cluster)
    requires OneShort(o, s, size, 2, size) && size >= 5 && Again(s, s1, size, 1, GRANT)
    ensures Wired(s1) && s1.nodes == s.nodes && forall v :: Link(s1, 1, v) == Link(s, 1, v)
    ensures Wired(s') && Onward(s1, s', USUAL)
    ensures Turn(s1, s', size, 1, Counted(s1.nodes[1]), News(s1.nodes[1]))
  {
    hide Wired, Onward, Turn, Canvassed, Quota, Crowned;
    AgainWired(s, s1, size, 1, GRANT);
    OnwardSelf(s1, USUAL);
    assert size in s1.nodes;
    s' := Count(s1, s1, size, 1, GRANT, USUAL);
  }

  /** With the votes of the other nodes asked, if any are needed, node 1 leads too. */
  lemma CountedTwice(o: Cluster, s: Cluster, s1: Cluster, size: nat) returns (s': Cluster)
    requires OneShort(o, s, size, 2, size) && size % 2 == 1 && size >= 5 && Again(s, s1, size, 1, GRANT)
    ensures Onward(s1, s', USUAL) && LeaderAt(s', 1, 1) && LeaderAt(s', 2, 1)
  {
    hide Wired, Onward, Turn, Canvassed, Elected, Quota, Crowned, Again, Counted, News;
    var s2 := CountAgain(o, s, s1, size);
    TurnNodes(s1, s2, size, 1, Counted(s1.nodes[1]), News(s1.nodes[1]));
    if size == 5 {
      CrownedLeads(s1.nodes[1]);
      s' := s2;
    } else {
      s' := OthersCounted(o, s, s1, s2, size);
    }
  }

  lemma OthersCounted(o: Cluster, s: Cluster, s1: Cluster, s2: Cluster, size: nat) returns (s': Cluster)
    requires OneShort(o, s, size, 2, size) && size % 2 == 1 && size >= 7 && s1.nodes == s.nodes
    requires Wired(s2) && Onward(s1, s2, USUAL) && forall v :: Link(s1, 1, v) == Link(s, 1, v)
    requires Turn(s1, s2, size, 1, Counted(s1.nodes[1]), News(s1.nodes[1]))
    ensures Onward(s1, s', USUAL) && LeaderAt(s', 1, 1) && LeaderAt(s', 2, 1)
  {
    hide Wired, Onward, Turn, Canvassed, Elected, Crowned, Counted, News;
    TurnNodes(s1, s2, size, 1, Counted(s1.nodes[1]), News(s1.nodes[1]));
    CountedSilently(s1, s2, size);
    StillShort(o, s, s1, s2, size, 3, size);
    s' := Gather(s1, s2, 1, Share(size), size, USUAL);
    ElectedLeads(s2, s', size);
  }

  lemma CrownedLeads(n: Node)
    requires n.yes + 1 >= Quota(n)
    ensures Counted(n).role == Leader && Counted(n).term == n.term
  {}

  lemma ElectedLeads(s: Cluster, s': Cluster, size: nat)
    requires Elected(s, s', 1, Share(size), size) && LeaderAt(s, 2, 1) && s.nodes[1].term == 1 && size >= 5
    ensures LeaderAt(s', 1, 1) && LeaderAt(s', 2, 1)
  {}

  /** One vote that arrives twice lets two nodes lead in a term, in every safe cluster of five or more: a
      reached state `s0` in which it waits, its delivery, its second arrival in `s1`, a run on to `s2`. */
  lemma RepeatedVoteSplits(size: nat) returns (s0: Cluster, s1: Cluster, s2: Cluster)
    requires SafeSize(size) && size >= 5
    ensures Reached(s0, true, size) && Link(s0, size, 1) == [GRANT]
    ensures Possible(s0, Deliver(size, 1), false) && Smooth(s0, Deliver(size, 1))
    ensures Again(Apply(s0, Deliver(size, 1)), s1, size, 1, GRANT) && Onward(s1, s2, USUAL)
    ensures LeaderAt(s2, 1, 1) && LeaderAt(s2, 2, 1)
  {
    hide Wired, Onward, Start, Canvassed, Apply, Smooth, Reached, Quota;
    s0 := LastVotes(size);
    StageIsReached(s0, USUAL, size);
    var s := OnceCounted(s0, size);
    assert 1 in s.nodes && size in s.nodes;
    LinkedPair(s, size, 1);
    s1 := s.(net := s.net[(size, 1) := s.net[(size, 1)] + [GRANT]]);
    s2 := CountedTwice(Start(size), s, s1, size);
  }
}
