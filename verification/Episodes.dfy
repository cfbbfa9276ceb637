/** Larger steps of a run: an election, client requests, bringing followers to a leader's log, and
    their acknowledgements. */
module Episodes {
  import opened Commands
  import opened RaftTypes
  import opened NodeStep
  import opened ClusterModel
  import opened History
  import opened Quorums
  import opened Invariants
  import opened Effects
  import opened Safety
  import opened LogFile
  import opened Repair
  import opened Scenario

  // ----- elections

  /** The last message from candidate `c` to `v` is its vote request, which `v` grants. */
  ghost predicate Canvassed(s: Cluster, c: int, v: int) {
    && c in s.nodes && v in s.nodes && c != v && s.nodes[c].role == Candidate
    && LastIs(s, c, v, Plea(s.nodes[c]))
    && s.nodes[v].term <= s.nodes[c].term
    && Grants(s.nodes[v], Plea(s.nodes[c]))
  }

  /** What candidate `n` asks of everyone. */
  function Plea(n: Node): Message {
    VoteRequest(n.term, n.id, |n.log| - 1, LastTerm(n.log))
  }

  function Convinced(n: Node, c: Node): Node {
    n.(role := Follower, term := c.term, votedFor := c.id)
  }

  lemma GrantConvinces(n: Node, c: Node)
    requires Grants(n, Plea(c)) && n.term <= c.term
    ensures OnVoteRequest(n, Plea(c)).node == Convinced(n, c) && Convinced(n, c).term == c.term
    ensures Plea(c).VoteRequest? && Plea(c).candidateId == c.id
  {}

  /** `c` has got the vote of `v`. */
  ghost predicate Voted(s: Cluster, s': Cluster, c: int, v: int) {
    && c in s.nodes && v in s.nodes && c != v
    && s'.nodes == s.nodes[v := Convinced(s.nodes[v], s.nodes[c])][c := Counted(s.nodes[c])]
    && forall x, y :: x in s.nodes && y in s.nodes ==> Link(s', x, y) == AfterVote(s, c, v, x, y)
  }

  function AfterVote(s: Cluster, c: int, v: int, x: int, y: int): seq<Message>
    requires c in s.nodes
  {
    (if (x == c && y == v) || (x == v && y == c) then [] else Link(s, x, y))
    + (if x == c then Outgoing(News(s.nodes[c]), c, y) else [])
  }

  /** The request arrives and is granted, and the grant arrives. */
  lemma VoteOf(o: Cluster, s: Cluster, c: int, v: int, rules: Rules) returns (s': Cluster)
    requires Wired(s) && Onward(o, s, rules) && Canvassed(s, c, v)
    ensures Wired(s') && Onward(o, s', rules) && Voted(s, s', c, v)
  {
    hide Onward, OnVoteRequest, Grants, Convinced, Plea, Counted, News;
    NodeIs(s, c);
    GrantConvinces(s.nodes[v], s.nodes[c]);
    var grant := VoteResponse(s.nodes[c].term, true);
    var s1 := AnswerPlea(o, s, c, v, Plea(s.nodes[c]), rules);
    assert Link(s1, v, c) == Turned(s, c, v, To(c, grant), v, c);
    var s2 := Count(o, s1, v, c, grant, rules);
    s' := s2;
    VotedFromTurns(s, s1, s', c, v, grant);
  }

  lemma NodeIs(s: Cluster, v: int)
    requires Wired(s) && v in s.nodes
    ensures Sound(s.nodes[v]) && s.nodes[v].id == v && 0 !in s.nodes
    ensures OnePerPeer(s.nodes[v]) && -1 <= s.nodes[v].commit
  {}

  lemma VotedFromTurns(s: Cluster, s1: Cluster, s': Cluster, c: int, v: int, grant: Message)
    requires c in s.nodes && v in s.nodes && c != v
    requires Turn(s, s1, c, v, Convinced(s.nodes[v], s.nodes[c]), To(c, grant))
    requires Turn(s1, s', v, c, Counted(s.nodes[c]), News(s.nodes[c]))
    ensures Voted(s, s', c, v)
  {
    hide Convinced, Counted, News;
    forall x, y | x in s.nodes && y in s.nodes ensures Link(s', x, y) == AfterVote(s, c, v, x, y) {
      assert Link(s1, x, y) == Turned(s, c, v, To(c, grant), x, y);
      assert Link(s', x, y) == Turned(s1, v, c, News(s.nodes[c]), x, y);
    }
  }

  /** Candidate `c` has been elected by the nodes from `lo` up to but not including `hi`. */
  ghost predicate Elected(s: Cluster, s': Cluster, c: int, lo: int, hi: int) {
    && c in s.nodes && !(lo <= c < hi) && s'.nodes.Keys == s.nodes.Keys
    && s'.nodes[c] == Crowned(s.nodes[c].(yes := Quota(s.nodes[c]) - 1))
    && (forall v :: lo <= v < hi ==> v in s.nodes && s'.nodes[v] == Convinced(s.nodes[v], s.nodes[c]))
    && (forall v :: v in s.nodes && v != c && !(lo <= v < hi) ==> s'.nodes[v] == s.nodes[v])
    && (forall y :: y in s.nodes && y != c ==> LastIs(s', c, y, Inauguration(s.nodes[c])))
    && (forall x, y :: x in s.nodes && y in s.nodes && x != c && (y != c || !(lo <= x < hi)) ==>
          Link(s', x, y) == Link(s, x, y))
  }

  /** Candidate `c` gathers the votes of the nodes `lo` to `hi`, as many as it lacks. */
  lemma {:induction false} Gather(o: Cluster, s: Cluster, c: int, lo: int, hi: int, rules: Rules) returns (s': Cluster)
    requires Wired(s) && Onward(o, s, rules) && c in s.nodes && lo < hi && !(lo <= c < hi)
    requires forall v :: lo <= v < hi ==> Canvassed(s, c, v)
    requires s.nodes[c].yes + (hi - lo) == Quota(s.nodes[c])
    ensures Wired(s') && Onward(o, s', rules) && Elected(s, s', c, lo, hi)
    decreases hi - lo
  {
    hide Wired, Onward, Canvassed, Elected, Voted;
    assert Canvassed(s, c, lo);
    var s1 := VoteOf(o, s, c, lo, rules);
    if lo + 1 == hi {
      s' := s1;
      LastVoteElects(s, s', c, lo);
    } else {
      forall v | lo + 1 <= v < hi ensures Canvassed(s1, c, v) {
        StillCanvassed(s, s1, c, lo, v);
      }
      VoteCounted(s, s1, c, lo);
      s' := Gather(o, s1, c, lo + 1, hi, rules);
      ElectedByOneMore(s, s1, s', c, lo, hi);
    }
  }

  lemma LastVoteElects(s: Cluster, s': Cluster, c: int, v: int)
    requires Voted(s, s', c, v) && s.nodes[c].yes + 1 == Quota(s.nodes[c])
    ensures Elected(s, s', c, v, v + 1)
  {
    hide Crowned, Inauguration, Convinced;
    forall y | y in s.nodes && y != c ensures LastIs(s', c, y, Inauguration(s.nodes[c])) {
      assert Link(s', c, y) == AfterVote(s, c, v, c, y);
    }
    assert s.nodes[c].(yes := Quota(s.nodes[c]) - 1) == s.nodes[c];
  }

  lemma VoteCounted(s: Cluster, s1: Cluster, c: int, v: int)
    requires Voted(s, s1, c, v) && s.nodes[c].yes + 1 < Quota(s.nodes[c])
    ensures c in s1.nodes && s1.nodes[c] == s.nodes[c].(yes := s.nodes[c].yes + 1)
    ensures Quota(s1.nodes[c]) == Quota(s.nodes[c])
  {}

  lemma StillCanvassed(s: Cluster, s1: Cluster, c: int, v: int, w: int)
    requires Voted(s, s1, c, v) && s.nodes[c].yes + 1 < Quota(s.nodes[c]) && Canvassed(s, c, w) && w != v
    ensures Canvassed(s1, c, w)
  {
    hide Grants;
    assert Link(s1, c, w) == AfterVote(s, c, v, c, w);
  }

  lemma ElectedByOneMore(s: Cluster, s1: Cluster, s': Cluster, c: int, lo: int, hi: int)
    requires Voted(s, s1, c, lo) && s.nodes[c].yes + 1 < Quota(s.nodes[c]) && Elected(s1, s', c, lo + 1, hi)
    requires lo < hi && !(lo <= c < hi)
    ensures Elected(s, s', c, lo, hi)
  {
    VoteCounted(s, s1, c, lo);
    SameCandidate(s.nodes[c]);
    hide Crowned, Inauguration, Convinced, Quota, LastIs, Voted, News;
    VotersOneMore(s, s1, s', c, lo, hi);
    LinksOneMore(s, s1, s', c, lo, hi);
  }

  lemma LinksOneMore(s: Cluster, s1: Cluster, s': Cluster, c: int, lo: int, hi: int)
    requires Voted(s, s1, c, lo) && Elected(s1, s', c, lo + 1, hi) && lo < hi && !(lo <= c < hi)
    ensures forall x, y :: x in s.nodes && y in s.nodes && x != c && (y != c || !(lo <= x < hi)) ==>
      Link(s', x, y) == Link(s, x, y)
  {
    hide Crowned, Inauguration, Convinced, Quota, LastIs, News, Counted;
    forall x, y | x in s.nodes && y in s.nodes && x != c && (y != c || !(lo <= x < hi))
      ensures Link(s', x, y) == Link(s, x, y)
    {
      assert Link(s1, x, y) == AfterVote(s, c, lo, x, y);
    }
  }

  lemma VotersOneMore(s: Cluster, s1: Cluster, s': Cluster, c: int, lo: int, hi: int)
    requires Voted(s, s1, c, lo) && s.nodes[c].yes + 1 < Quota(s.nodes[c]) && Elected(s1, s', c, lo + 1, hi)
    requires lo < hi && !(lo <= c < hi)
    ensures c in s.nodes && s'.nodes.Keys == s1.nodes.Keys == s.nodes.Keys
    ensures forall v :: lo <= v < hi ==> v in s.nodes && s'.nodes[v] == Convinced(s.nodes[v], s.nodes[c])
    ensures forall v :: v in s.nodes && v != c && !(lo <= v < hi) ==> s'.nodes[v] == s.nodes[v]
  {
    VoteCounted(s, s1, c, lo);
    SameCandidate(s.nodes[c]);
    hide Crowned, Inauguration, Convinced, Quota, LastIs, News, Counted;
  }

  /** A vote counted changes nothing of what a candidate says and becomes. */
  lemma SameCandidate(n: Node)
    ensures var n1 := n.(yes := n.yes + 1);
      && Quota(n1) == Quota(n) && Inauguration(n1) == Inauguration(n)
      && Crowned(n1.(yes := Quota(n) - 1)) == Crowned(n.(yes := Quota(n) - 1))
      && forall v: Node :: Convinced(v, n1) == Convinced(v, n)
  {}

  // ----- what a leader says

  /** A client's command reaches leader `l`. */
  lemma AskLeader(o: Cluster, s: Cluster, l: int, cmd: Msg, rules: Rules) returns (s': Cluster)
    requires Wired(s) && Onward(o, s, rules) && l in s.nodes && s.nodes[l].role == Leader && rules.asking
    ensures Wired(s') && Onward(o, s', rules)
    ensures Turn(s, s', 0, l, s.nodes[l].(log := s.nodes[l].log + [Entry(s.nodes[l].term, cmd)]), Silent)
  {
    hide Onward, Turn;
    var n := s.nodes[l];
    NodeIs(s, l);
    forall y | y in s.nodes ensures Sent(OnAppend(n, cmd).actions, y) == [] {
      SentNone(OnAppend(n, cmd).actions, y);
    }
    s' := Go(o, s, Move.Ask(l, cmd), l, Client(cmd), 0, Silent, rules);
  }

  /** What leader `n` sends each peer. */
  function Requests(n: Node): map<int, Message>
    requires n.role == Leader && IndicesInRange(n)
  {
    map y | y in n.peers :: RequestFor(n, PeerIndex(n.peers, y))
  }

  lemma {:induction false} BeatSends(n: Node, y: int)
    requires n.role == Leader && IndicesInRange(n) && DistinctPeers(n)
    ensures Sent(OnTimeout(n).actions, y) == Outgoing(Each(Requests(n)), n.id, y)
  {
    hide RequestFor, Sent;
    HeartbeatSends(n, y);
  }

  /** Leader `l` sends its heartbeat. */
  lemma Beat(o: Cluster, s: Cluster, l: int, rules: Rules) returns (s': Cluster)
    requires Wired(s) && Onward(o, s, rules) && l in s.nodes && s.nodes[l].role == Leader
    ensures Wired(s') && Onward(o, s', rules)
    ensures IndicesInRange(s.nodes[l]) && Turn(s, s', 0, l, s.nodes[l], Each(Requests(s.nodes[l])))
  {
    hide Onward, Turn, Sent, RequestFor, Heartbeats;
    var n := s.nodes[l];
    PeersAreOthers(s, l);
    assert Sound(n);
    forall y | y in s.nodes ensures Sent(OnTimeout(n).actions, y) == Outgoing(Each(Requests(n)), l, y) {
      BeatSends(n, y);
    }
    s' := Go(o, s, Tick(l), l, Timeout, 0, Each(Requests(n)), rules);
  }

  // ----- bringing a follower to the leader's log

  /** Leader `l` and follower `f` with the leader's present request as the last message to it. */
  ghost predicate Lesson(s: Cluster, l: int, f: int) {
    && l in s.nodes && f in s.nodes && l != f && s.nodes[f].id == f && s.nodes[l].id == l
    && Exchanging(s.nodes[l], s.nodes[f], PeerIndex(s.nodes[l].peers, f)) && -1 <= s.nodes[l].commit < |s.nodes[l].log|
    && LastIs(s, l, f, RequestFor(s.nodes[l], PeerIndex(s.nodes[l].peers, f)))
  }

  function Receipt(n: Node, f: int): Message {
    AppendResponse(n.term, f, true, |n.log| - 1)
  }

  /** The leader with other next indices. */
  predicate SameButNext(n: Node, n': Node) {
    n' == n.(nextIndex := n'.nextIndex) && |n'.nextIndex| == |n.nextIndex|
  }

  /** `f` has the log of `l` and has said so. */
  ghost predicate Learnt(s: Cluster, s': Cluster, l: int, f: int) {
    && l in s.nodes && f in s.nodes && l != f && s'.nodes.Keys == s.nodes.Keys
    && SameButNext(s.nodes[l], s'.nodes[l])
    && (forall i :: 0 <= i < |s.nodes[l].nextIndex| && i != PeerIndex(s.nodes[l].peers, f) ==>
          s'.nodes[l].nextIndex[i] == s.nodes[l].nextIndex[i])
    && CaughtUp(s.nodes[l], s.nodes[f], s'.nodes[f])
    && (forall x :: x in s.nodes && x != l && x != f ==> s'.nodes[x] == s.nodes[x])
    && LastIs(s', f, l, Receipt(s.nodes[l], f))
    && (forall x, y :: x in s.nodes && y in s.nodes && (x != l || y != f) && (x != f || y != l) ==>
          Link(s', x, y) == Link(s, x, y))
  }

  /** Follower `f`, now `f'`, has taken over the log of leader `l`. */
  predicate CaughtUp(l: Node, f: Node, f': Node) {
    && f'.role == Follower && f'.term == l.term && f'.log == l.log && f'.id == f.id && f'.peers == f.peers
    && (l.commit == -1 && f.commit == -1 ==> f'.commit == -1)
  }

  /** A run by these rules from `o` keeps every node sound. */
  ghost predicate Trusted(o: Cluster, rules: Rules, size: nat) {
    rules.guarded && SafeSize(size) && Reached(o, true, size)
  }

  /** In a safe cluster every state reached by the rules is sound, and its logs match. */
  lemma TrustedState(o: Cluster, s: Cluster, rules: Rules, size: nat)
    requires Trusted(o, rules, size) && Onward(o, s, rules)
    ensures Wired(s)
    ensures forall v, w :: v in s.nodes && w in s.nodes ==> Matching(s.nodes[v].log, s.nodes[w].log)
  {
    hide Run, Matching, Wired, Onward, Reached;
    OnwardReached(o, s, rules, size);
    var states, moves := RunTo(s, size);
    SafeStateWired(states, moves);
    forall v, w | v in s.nodes && w in s.nodes ensures Matching(s.nodes[v].log, s.nodes[w].log) {
      LogsMatch(states, moves, v, w);
    }
  }

  lemma RunTo(s: Cluster, size: nat) returns (states: seq<Cluster>, moves: seq<Move>)
    requires Reached(s, true, size)
    ensures EndsIn(states, moves, true, size, s)
  {
    states, moves :| EndsIn(states, moves, true, size, s);
  }

  lemma SafeStateWired(states: seq<Cluster>, moves: seq<Move>)
    requires SafeRun(states, moves)
    ensures Wired(states[|moves|])
  {
    hide Past, Init, Follows, VotesInv, ReignsInv, LogsInv, AcceptInv, CompleteInv, CommitInv;
    RunInv(states, moves, |moves|);
    forall v | v in states[|moves|].nodes ensures Sound(states[|moves|].nodes[v]) {
      CommitInside(states[|moves|], Past(states, moves, true, |moves|), v);
      assert NodeOk(states[|moves|].nodes[v]);
    }
  }

  lemma LogsMatch(states: seq<Cluster>, moves: seq<Move>, v: int, w: int)
    requires SafeRun(states, moves) && v in states[|moves|].nodes && w in states[|moves|].nodes
    ensures Matching(states[|moves|].nodes[v].log, states[|moves|].nodes[w].log)
  {
    hide Init, Follows;
    var x, y := states[|moves|].nodes[v].log, states[|moves|].nodes[w].log;
    forall k | 0 <= k < |x| && k < |y| && x[k].term == y[k].term ensures x[..k + 1] == y[..k + 1] {
      LogMatchingOverRun(states, moves, true, |moves|, |moves|, v, w, k);
    }
  }

  lemma AcceptStep(n: Node, f: Node, i: nat)
    requires Exchanging(n, f, i) && Sound(f) && Agreeing(n, f, i) && Matching(f.log, n.log)
    ensures var out := Receives(n, f, i);
      && CaughtUp(n, f, out.node)
      && (f.commit == -1 ==> Sound(out.node))
      && forall y :: Sent(out.actions, y) == Outgoing(To(n.id, Receipt(n, f.id)), f.id, y)
  {
    hide Merge, AcceptActions, Matching;
    AcceptedEqual(n, f, i);
    forall y ensures Sent(Receives(n, f, i).actions, y) == Outgoing(To(n.id, Receipt(n, f.id)), f.id, y) {
      SentByFollower(f, RequestFor(n, i), y);
    }
  }

  lemma RefuseStep(n: Node, f: Node, i: nat)
    requires Exchanging(n, f, i) && Sound(f) && !Agreeing(n, f, i)
    ensures var out := Receives(n, f, i);
      && out.node == f.(term := n.term, votedFor := n.id)
      && forall y :: Sent(out.actions, y) == Outgoing(To(n.id, Refusal(n, f)), f.id, y)
  {
    hide Merge, AcceptActions;
    RefusalIsSent(n, f, i);
    forall y ensures Sent(Receives(n, f, i).actions, y) == Outgoing(To(n.id, Refusal(n, f)), f.id, y) {
      SentByFollower(f, RequestFor(n, i), y);
    }
  }

  lemma StepBackSends(n: Node, f: Node, i: nat)
    requires Exchanging(n, f, i) && -1 <= n.commit < |n.log|
    ensures var out := OnAppendResponse(n, Refusal(n, f));
      && out.node == StepsBack(n, i)
      && forall y :: Sent(out.actions, y) == Outgoing(To(f.id, RequestFor(StepsBack(n, i), i)), n.id, y)
  {
    RefusalStepsBack(n, f, i);
    var request := Send(f.id, RequestFor(StepsBack(n, i), i));
    forall y ensures Sent([request], y) == Outgoing(To(f.id, RequestFor(StepsBack(n, i), i)), n.id, y) {
      assert Sent([request], y) == SentOf(request, y) + Sent([], y);
    }
  }

  /** The follower accepts, and is then at the leader's log. */
  lemma LearnAtOnce(o: Cluster, s: Cluster, l: int, f: int, rules: Rules, size: nat) returns (s': Cluster)
    requires f != rules.intact
    requires Wired(s) && Onward(o, s, rules) && Lesson(s, l, f)
    requires var i := PeerIndex(s.nodes[l].peers, f);
      Agreeing(s.nodes[l], s.nodes[f], i) && Matching(s.nodes[f].log, s.nodes[l].log)
    requires s.nodes[f].commit == -1 || Trusted(o, rules, size)
    ensures Wired(s') && Onward(o, s', rules) && Learnt(s, s', l, f)
  {
    hide Wired, Onward, Agreeing, Matching, OnAppendRequest, Trusted, RequestFor, Sent, CaughtUp, Sound;
    var n, nf, i := s.nodes[l], s.nodes[f], PeerIndex(s.nodes[l].peers, f);
    NodeIs(s, f);
    AcceptStep(n, nf, i);
    RequestShape(n, i);
    KeptId(n, nf, Receives(n, nf, i).node);
    s' := Arrive(o, s, l, f, RequestFor(n, i), To(l, Receipt(n, f)), rules);
    if s.nodes[f].commit != -1 { TrustedState(o, s', rules, size); }
    LearntByTurn(s, s', l, f, Receives(n, nf, i).node);
  }

  lemma RequestShape(n: Node, i: nat)
    requires i < |n.nextIndex| && 0 <= n.nextIndex[i] <= |n.log|
    ensures var m := RequestFor(n, i);
      m.AppendRequest? && -1 <= m.prevLogIndex && m.term == n.term && m.leaderId == n.id
  {}

  lemma LearntByTurn(s: Cluster, s': Cluster, l: int, f: int, n: Node)
    requires l in s.nodes && f in s.nodes && l != f && CaughtUp(s.nodes[l], s.nodes[f], n)
    requires Turn(s, s', l, f, n, To(l, Receipt(s.nodes[l], f)))
    ensures Learnt(s, s', l, f)
  {
    hide CaughtUp, Receipt;
    assert Link(s', f, l) == Turned(s, l, f, To(l, Receipt(s.nodes[l], f)), f, l);
  }

  /** The follower refuses, and the leader sends the request one index lower. */
  ghost predicate Retried(s: Cluster, s': Cluster, l: int, f: int) {
    && l in s.nodes && f in s.nodes && l != f && PeerIndex(s.nodes[l].peers, f) < |s.nodes[l].nextIndex|
    && s'.nodes == s.nodes[f := s.nodes[f].(term := s.nodes[l].term, votedFor := l)]
                          [l := StepsBack(s.nodes[l], PeerIndex(s.nodes[l].peers, f))]
    && (forall x, y :: x in s.nodes && y in s.nodes && (x != l || y != f) && (x != f || y != l) ==>
          Link(s', x, y) == Link(s, x, y))
  }

  lemma RefusedSpares(n: Node, f: Node, i: nat)
    requires Exchanging(n, f, i) && !Agreeing(n, f, i)
    ensures !Spoils(f, Receive(RequestFor(n, i)))
  {}

  /** The request arrives and is refused. */
  lemma Refuse(o: Cluster, s: Cluster, l: int, f: int, rules: Rules) returns (s': Cluster)
    requires Wired(s) && Onward(o, s, rules) && Lesson(s, l, f)
    requires !Agreeing(s.nodes[l], s.nodes[f], PeerIndex(s.nodes[l].peers, f))
    ensures Wired(s') && Onward(o, s', rules)
    ensures Turn(s, s', l, f, s.nodes[f].(term := s.nodes[l].term, votedFor := l),
                 To(l, Refusal(s.nodes[l], s.nodes[f])))
  {
    hide Wired, Onward, OnAppendRequest, RequestFor, Sent, Sound, Turn, Refusal, Spoils;
    var n, nf, i := s.nodes[l], s.nodes[f], PeerIndex(s.nodes[l].peers, f);
    NodeIs(s, f);
    NodeIs(s, l);
    RefuseStep(n, nf, i);
    RefusedSpares(n, nf, i);
    RequestShape(n, i);
    StillSound(n, nf, i);
    s' := Arrive(o, s, l, f, RequestFor(n, i), To(l, Refusal(n, nf)), rules);
  }

  /** The refusal of `f`, which was `nf`, arrives, and the leader sends one index lower. */
  lemma StepBack(o: Cluster, s: Cluster, l: int, f: int, nf: Node, rules: Rules) returns (s': Cluster)
    requires Wired(s) && Onward(o, s, rules) && l in s.nodes && f in s.nodes && l != f
    requires nf.id == f && s.nodes[l].id == l
    requires Exchanging(s.nodes[l], nf, PeerIndex(s.nodes[l].peers, f)) && Sound(s.nodes[l]) && Sound(nf)
    requires LastIs(s, f, l, Refusal(s.nodes[l], nf))
    ensures Wired(s') && Onward(o, s', rules)
    ensures var i := PeerIndex(s.nodes[l].peers, f);
      Turn(s, s', f, l, StepsBack(s.nodes[l], i), To(f, RequestFor(StepsBack(s.nodes[l], i), i)))
  {
    hide Wired, Onward, OnAppendResponse, RequestFor, Sent, Turn;
    var n, i := s.nodes[l], PeerIndex(s.nodes[l].peers, f);
    StillSound(n, nf, i);
    StepBackSends(n, nf, i);
    s' := Arrive(o, s, f, l, Refusal(n, nf), To(f, RequestFor(StepsBack(n, i), i)), rules);
  }

  lemma Retry(o: Cluster, s: Cluster, l: int, f: int, rules: Rules) returns (s': Cluster)
    requires Wired(s) && Onward(o, s, rules) && Lesson(s, l, f)
    requires !Agreeing(s.nodes[l], s.nodes[f], PeerIndex(s.nodes[l].peers, f))
    ensures Wired(s') && Onward(o, s', rules) && Lesson(s', l, f) && Retried(s, s', l, f)
    ensures 0 < s.nodes[l].nextIndex[PeerIndex(s.nodes[l].peers, f)]
  {
    hide Wired, Onward, OnAppendRequest, RequestFor, Sound, Agreeing, Refusal;
    var n, nf, i := s.nodes[l], s.nodes[f], PeerIndex(s.nodes[l].peers, f);
    NodeIs(s, f);
    NodeIs(s, l);
    StillExchanging(n, nf, i);
    StillSound(n, nf, i);
    var s1 := Refuse(o, s, l, f, rules);
    assert Link(s1, f, l) == Turned(s, l, f, To(l, Refusal(n, nf)), f, l);
    s' := StepBack(o, s1, l, f, nf, rules);
    assert Link(s', l, f) == Turned(s1, f, l, To(f, RequestFor(StepsBack(n, i), i)), l, f);
    RetriedByTurns(s, s1, s', l, f, Refusal(n, nf), RequestFor(StepsBack(n, i), i));
  }

  lemma StillSound(n: Node, f: Node, i: nat)
    requires Exchanging(n, f, i) && Sound(f) && Sound(n)
    ensures Sound(f.(term := n.term, votedFor := n.id)) && Sound(StepsBack(n, i))
    ensures Exchanging(StepsBack(n, i), f.(term := n.term, votedFor := n.id), i)
    ensures Ready(n, Receive(Refusal(n, f)))
  {}

  lemma {:induction false} RetriedByTurns(s: Cluster, s1: Cluster, s': Cluster, l: int, f: int,
                                          m1: Message, m2: Message)
    requires l in s.nodes && f in s.nodes && l != f && PeerIndex(s.nodes[l].peers, f) < |s.nodes[l].nextIndex|
    requires Turn(s, s1, l, f, s.nodes[f].(term := s.nodes[l].term, votedFor := l), To(l, m1))
    requires Turn(s1, s', f, l, StepsBack(s.nodes[l], PeerIndex(s.nodes[l].peers, f)), To(f, m2))
    ensures Retried(s, s', l, f)
  {
    hide StepsBack, PeerIndex;
    forall x, y | x in s.nodes && y in s.nodes && (x != l || y != f) && (x != f || y != l)
      ensures Link(s', x, y) == Link(s, x, y)
    {
      assert Link(s1, x, y) == Turned(s, l, f, To(l, m1), x, y);
      assert Link(s', x, y) == Turned(s1, f, l, To(f, m2), x, y);
    }
  }

  lemma RetriedThenLearnt(s: Cluster, s1: Cluster, s': Cluster, l: int, f: int)
    requires Retried(s, s1, l, f) && Learnt(s1, s', l, f) && s.nodes[f].id == f
    ensures Learnt(s, s', l, f)
  {
    hide PeerIndex, LastIs;
  }

  /** The exchange has come to a request that the follower can accept; nothing else of the two has changed. */
  ghost predicate Approached(s: Cluster, s': Cluster, l: int, f: int) {
    && Lesson(s, l, f) && Lesson(s', l, f) && s'.nodes.Keys == s.nodes.Keys
    && Agreeing(s'.nodes[l], s'.nodes[f], PeerIndex(s'.nodes[l].peers, f))
    && s'.nodes[l] == s.nodes[l].(nextIndex := s'.nodes[l].nextIndex)
    && s'.nodes[f].log == s.nodes[f].log && s'.nodes[f].commit == s.nodes[f].commit
  }

  /** Refusals make the leader step back until the follower can accept. */
  lemma {:induction false} Approach(o: Cluster, s: Cluster, l: int, f: int, rules: Rules) returns (s': Cluster)
    requires Wired(s) && Onward(o, s, rules) && Lesson(s, l, f)
    ensures Wired(s') && Onward(o, s', rules) && Approached(s, s', l, f)
    decreases s.nodes[l].nextIndex[PeerIndex(s.nodes[l].peers, f)]
  {
    hide Wired, Onward, Agreeing, LastIs;
    if Agreeing(s.nodes[l], s.nodes[f], PeerIndex(s.nodes[l].peers, f)) {
      s' := s;
    } else {
      var s1 := Retry(o, s, l, f, rules);
      s' := Approach(o, s1, l, f, rules);
    }
  }

  /** The leader steps back as far as needed, and the follower ends with its log. */
  lemma {:induction false} Teach(o: Cluster, s: Cluster, l: int, f: int, rules: Rules, size: nat) returns (s': Cluster)
    requires f != rules.intact
    requires Wired(s) && Onward(o, s, rules) && Lesson(s, l, f) && Matching(s.nodes[f].log, s.nodes[l].log)
    requires s.nodes[f].commit == -1 || Trusted(o, rules, size)
    ensures Wired(s') && Onward(o, s', rules) && Learnt(s, s', l, f)
    decreases s.nodes[l].nextIndex[PeerIndex(s.nodes[l].peers, f)]
  {
    hide Wired, Onward, Agreeing, Matching, Learnt, Trusted, LastIs;
    if Agreeing(s.nodes[l], s.nodes[f], PeerIndex(s.nodes[l].peers, f)) {
      s' := LearnAtOnce(o, s, l, f, rules, size);
    } else {
      var s1 := Retry(o, s, l, f, rules);
      s' := Teach(o, s1, l, f, rules, size);
      RetriedThenLearnt(s, s1, s', l, f);
    }
  }

  /** The nodes `lo` to `hi` have the log of `l` and have said so. */
  ghost predicate AllLearnt(s: Cluster, s': Cluster, l: int, lo: int, hi: int) {
    && l in s.nodes && !(lo <= l < hi) && s'.nodes.Keys == s.nodes.Keys
    && SameButNext(s.nodes[l], s'.nodes[l])
    && (forall f :: lo <= f < hi ==>
          f in s.nodes && CaughtUp(s.nodes[l], s.nodes[f], s'.nodes[f]) && LastIs(s', f, l, Receipt(s.nodes[l], f)))
    && (forall x :: x in s.nodes && x != l && !(lo <= x < hi) ==> s'.nodes[x] == s.nodes[x])
    && (forall x, y :: x in s.nodes && y in s.nodes && (x != l || !(lo <= y < hi)) && (!(lo <= x < hi) || y != l) ==>
          Link(s', x, y) == Link(s, x, y))
  }

  ghost predicate Lessons(s: Cluster, l: int, lo: int, hi: int) {
    forall f :: lo <= f < hi ==>
      Lesson(s, l, f) && Matching(s.nodes[f].log, s.nodes[l].log) && s.nodes[f].commit == -1
  }

  lemma LessonsStay(s: Cluster, s1: Cluster, l: int, lo: int, hi: int)
    requires Learnt(s, s1, l, lo) && Lessons(s, l, lo, hi) && lo < hi && Wired(s1)
    ensures Lessons(s1, l, lo + 1, hi) && l in s1.nodes
  {
    hide CaughtUp, Receipt, Matching;
    assert Lesson(s, l, lo);
    IsPeerOf(s, l, lo);
    NodeIs(s1, l);
    forall g | lo + 1 <= g < hi ensures Lesson(s1, l, g) && s1.nodes[g] == s.nodes[g] {
      assert Lesson(s, l, g);
      LessonStays(s, s1, l, lo, g);
    }
  }

  lemma LessonStays(s: Cluster, s1: Cluster, l: int, f: int, g: int)
    requires Learnt(s, s1, l, f) && Lesson(s, l, g) && f != g && f in s.nodes[l].peers && Sound(s1.nodes[l])
    ensures Lesson(s1, l, g) && s1.nodes[g] == s.nodes[g]
  {
    hide CaughtUp, Receipt;
    var i, j := PeerIndex(s.nodes[l].peers, f), PeerIndex(s.nodes[l].peers, g);
    assert i != j && s1.nodes[l].nextIndex[j] == s.nodes[l].nextIndex[j];
    assert RequestFor(s1.nodes[l], j) == RequestFor(s.nodes[l], j);
  }

  lemma LearntByOneMore(s: Cluster, s1: Cluster, s': Cluster, l: int, lo: int, hi: int)
    requires Learnt(s, s1, l, lo) && AllLearnt(s1, s', l, lo + 1, hi) && lo < hi && !(lo <= l < hi)
    ensures AllLearnt(s, s', l, lo, hi)
  {
    SameLesson(s, s1, l, lo);
    hide CaughtUp, Receipt, LastIs, PeerIndex;
  }

  /** What is taught and receipted does not depend on next indices. */
  lemma SameLesson(s: Cluster, s1: Cluster, l: int, f: int)
    requires Learnt(s, s1, l, f)
    ensures forall v: Node, v': Node :: CaughtUp(s1.nodes[l], v, v') <==> CaughtUp(s.nodes[l], v, v')
    ensures forall g :: Receipt(s1.nodes[l], g) == Receipt(s.nodes[l], g)
  {}

  lemma {:induction false} TeachAll(o: Cluster, s: Cluster, l: int, lo: int, hi: int, rules: Rules)
      returns (s': Cluster)
    requires !(lo <= rules.intact < hi)
    requires Wired(s) && Onward(o, s, rules) && l in s.nodes && !(lo <= l < hi) && lo < hi && Lessons(s, l, lo, hi)
    ensures Wired(s') && Onward(o, s', rules) && AllLearnt(s, s', l, lo, hi)
    decreases hi - lo
  {
    hide Wired, Onward, Lesson, Matching, Learnt, AllLearnt;
    assert Lesson(s, l, lo);
    IsPeerOf(s, l, lo);
    var s1 := Teach(o, s, l, lo, rules, 0);
    if lo + 1 == hi {
      s' := s1;
      OneLearnt(s, s', l, lo);
    } else {
      LessonsStay(s, s1, l, lo, hi);
      s' := TeachAll(o, s1, l, lo + 1, hi, rules);
      LearntByOneMore(s, s1, s', l, lo, hi);
    }
  }

  lemma IsPeerOf(s: Cluster, l: int, f: int)
    requires Lesson(s, l, f)
    ensures l in s.nodes && f in s.nodes && f in s.nodes[l].peers
  {
    var i := PeerIndex(s.nodes[l].peers, f);
    assert s.nodes[l].peers[i] == f;
  }

  lemma OneLearnt(s: Cluster, s': Cluster, l: int, f: int)
    requires Learnt(s, s', l, f)
    ensures AllLearnt(s, s', l, f, f + 1)
  {
    hide CaughtUp, Receipt, LastIs, PeerIndex;
  }

  // ----- a node in any role

  /** Node `f`, whatever it was, follows leader `l` with its log; no other node has changed, nor any
      link but those of `l` and the one from `f` to `l`. */
  ghost predicate Brought(s: Cluster, s': Cluster, l: int, f: int) {
    && l in s.nodes && f in s.nodes && l != f && s'.nodes.Keys == s.nodes.Keys
    && SameButNext(s.nodes[l], s'.nodes[l]) && CaughtUp(s.nodes[l], s.nodes[f], s'.nodes[f])
    && (forall x :: x in s.nodes && x != l && x != f ==> s'.nodes[x] == s.nodes[x])
    && (forall x, y :: x in s.nodes && y in s.nodes && x != l && (x != f || y != l) ==> Link(s', x, y) == Link(s, x, y))
  }

  /** Leader `l` and a node `f` that may yet be brought to its log. */
  ghost predicate Ahead(s: Cluster, l: int, f: int) {
    && l in s.nodes && f in s.nodes && l != f && s.nodes[l].role == Leader && s.nodes[f].term <= s.nodes[l].term
    && Matching(s.nodes[f].log, s.nodes[l].log)
  }

  /** After a heartbeat the last message to a peer is the present request for it. */
  lemma {:induction false} BeatGivesRequest(s: Cluster, s1: Cluster, l: int, f: int)
    requires Wired(s) && l in s.nodes && f in s.nodes && l != f && s.nodes[l].role == Leader
    requires IndicesInRange(s.nodes[l]) && Turn(s, s1, 0, l, s.nodes[l], Each(Requests(s.nodes[l])))
    ensures PeerIndex(s.nodes[l].peers, f) < |s.nodes[l].peers| && s1.nodes == s.nodes
    ensures LastIs(s1, l, f, RequestFor(s.nodes[l], PeerIndex(s.nodes[l].peers, f)))
    ensures forall x, y :: x in s.nodes && y in s.nodes && x != l ==> Link(s1, x, y) == Link(s, x, y)
  {
    hide RequestFor, Sound;
    PeersAreOthers(s, l);
    assert s1.nodes == s.nodes;
    assert Link(s1, l, f) == Turned(s, 0, l, Each(Requests(s.nodes[l])), l, f);
  }

  /** A heartbeat starts a lesson for a follower. */
  lemma BeatLesson(o: Cluster, s: Cluster, l: int, f: int, rules: Rules) returns (s1: Cluster)
    requires Wired(s) && Onward(o, s, rules) && Ahead(s, l, f) && s.nodes[f].role == Follower
    ensures Wired(s1) && Onward(o, s1, rules) && Lesson(s1, l, f) && s1.nodes == s.nodes
    ensures forall x, y :: x in s.nodes && y in s.nodes && x != l ==> Link(s1, x, y) == Link(s, x, y)
  {
    hide Onward, Turn, RequestFor, Matching, LastIs;
    s1 := Beat(o, s, l, rules);
    BeatGivesRequest(s, s1, l, f);
    NodeIs(s, l);
    NodeIs(s, f);
  }

  /** A follower is brought up: a heartbeat, and as many steps back as needed. */
  lemma BringFollower(o: Cluster, s: Cluster, l: int, f: int, rules: Rules, size: nat) returns (s': Cluster)
    requires f != rules.intact
    requires Wired(s) && Onward(o, s, rules) && Ahead(s, l, f) && s.nodes[f].role == Follower
    requires s.nodes[f].commit == -1 || Trusted(o, rules, size)
    ensures Wired(s') && Onward(o, s', rules) && Brought(s, s', l, f)
  {
    hide Wired, Onward, Matching, Lesson, Trusted, LastIs, CaughtUp, Receipt, PeerIndex;
    var s1 := BeatLesson(o, s, l, f, rules);
    s' := Teach(o, s1, l, f, rules, size);
  }

  function Deposed(f: Node, n: Node): Node {
    f.(role := Follower, term := n.term, votedFor := n.id)
  }

  /** What an append request makes of a candidate or leader: a follower, whose actions are nested. */
  lemma ConversionIs(n: Node, f: Node, i: nat)
    requires f.role != Follower && Sound(f) && Exchanging(n, f.(role := Follower), i) && Matching(f.log, n.log)
    ensures var out := OnAppendRequest(f, RequestFor(n, i));
      && (forall y :: Sent(out.actions, y) == Outgoing(Silent, f.id, y))
      && if Agreeing(n, f.(role := Follower), i)
         then CaughtUp(n, f, out.node) && (f.commit == -1 ==> Sound(out.node))
         else out.node == Deposed(f, n) && Sound(out.node)
  {
    hide Merge, AcceptActions, Matching;
    var g := f.(role := Follower);
    if Agreeing(n, g, i) { AcceptStep(n, g, i); } else { RefuseStep(n, g, i); }
    forall y ensures Sent(OnAppendRequest(f, RequestFor(n, i)).actions, y) == [] {
      SentNone(OnAppendRequest(f, RequestFor(n, i)).actions, y);
    }
  }

  /** `f` follows `l`, though perhaps with its old log. */
  ghost predicate Converted(s: Cluster, s': Cluster, l: int, f: int) {
    && l in s.nodes && f in s.nodes && l != f && s'.nodes.Keys == s.nodes.Keys
    && (s'.nodes[f] == Deposed(s.nodes[f], s.nodes[l]) || CaughtUp(s.nodes[l], s.nodes[f], s'.nodes[f]))
    && (forall x :: x in s.nodes && x != f ==> s'.nodes[x] == s.nodes[x])
    && (forall x, y :: x in s.nodes && y in s.nodes && x != l && (x != f || y != l) ==> Link(s', x, y) == Link(s, x, y))
  }

  /** A candidate or leader handles a heartbeat; whether it accepts or refuses, its reply is lost. */
  lemma Convert(o: Cluster, s: Cluster, l: int, f: int, rules: Rules, size: nat) returns (s': Cluster)
    requires f != rules.intact
    requires Wired(s) && Onward(o, s, rules) && Ahead(s, l, f) && s.nodes[f].role != Follower
    requires s.nodes[f].commit == -1 || Trusted(o, rules, size)
    ensures Wired(s') && Onward(o, s', rules) && Converted(s, s', l, f)
  {
    hide Wired, Onward, OnAppendRequest, RequestFor, Sent, Sound, CaughtUp, Deposed, Trusted, Matching, Agreeing;
    var n, nf, i := s.nodes[l], s.nodes[f], PeerIndex(s.nodes[l].peers, f);
    NodeIs(s, l);
    NodeIs(s, f);
    LeaderReady(n);
    var s1 := Beat(o, s, l, rules);
    BeatGivesRequest(s, s1, l, f);
    ConversionStarts(n, nf, i);
    ConversionIs(n, nf, i);
    RequestShape(n, i);
    KeptId(n, nf, OnAppendRequest(nf, RequestFor(n, i)).node);
    s' := Arrive(o, s1, l, f, RequestFor(n, i), Silent, rules);
    if nf.commit != -1 { TrustedState(o, s', rules, size); }
    ConvertedByTurn(s, s1, s', l, f, OnAppendRequest(nf, RequestFor(n, i)).node);
  }

  lemma LeaderReady(n: Node)
    requires Sound(n)
    ensures IndicesInRange(n) && -1 <= n.commit < |n.log|
  {}

  lemma ConversionStarts(n: Node, f: Node, i: nat)
    requires Sound(n) && Sound(f) && n.role == Leader && f.term <= n.term
    requires i == PeerIndex(n.peers, f.id) && i < |n.peers|
    ensures Exchanging(n, f.(role := Follower), i)
  {}

  lemma KeptId(n: Node, f: Node, f': Node)
    requires CaughtUp(n, f, f') || f' == Deposed(f, n)
    ensures f'.id == f.id && f'.peers == f.peers
  {}

  lemma ConvertedByTurn(s: Cluster, s1: Cluster, s': Cluster, l: int, f: int, n: Node)
    requires l in s.nodes && f in s.nodes && l != f && s1.nodes == s.nodes && Turn(s1, s', l, f, n, Silent)
    requires forall x, y :: x in s.nodes && y in s.nodes && x != l ==> Link(s1, x, y) == Link(s, x, y)
    requires n == Deposed(s.nodes[f], s.nodes[l]) || CaughtUp(s.nodes[l], s.nodes[f], n)
    ensures Converted(s, s', l, f)
  {
    hide CaughtUp, Deposed;
    forall x, y | x in s.nodes && y in s.nodes && x != l && (x != f || y != l) ensures Link(s', x, y) == Link(s, x, y) {
      assert Link(s', x, y) == Turned(s1, l, f, Silent, x, y);
    }
  }

  lemma DeposedFollows(n: Node, f: Node)
    ensures var g := Deposed(f, n);
      && g.role == Follower && g.term == n.term && g.log == f.log && g.commit == f.commit
      && forall f' :: CaughtUp(n, g, f') <==> CaughtUp(n, f, f')
  {}

  /** Whatever node `f` is, leader `l` can bring it to its log. */
  lemma Bring(o: Cluster, s: Cluster, l: int, f: int, rules: Rules, size: nat) returns (s': Cluster)
    requires f != rules.intact
    requires Wired(s) && Onward(o, s, rules) && Ahead(s, l, f)
    requires s.nodes[f].commit == -1 || Trusted(o, rules, size)
    ensures Wired(s') && Onward(o, s', rules) && Brought(s, s', l, f)
  {
    hide Wired, Onward, Trusted, Matching, CaughtUp, Deposed;
    if s.nodes[f].role == Follower {
      s' := BringFollower(o, s, l, f, rules, size);
    } else {
      var s1 := Convert(o, s, l, f, rules, size);
      if s1.nodes[f] == Deposed(s.nodes[f], s.nodes[l]) {
        DeposedFollows(s.nodes[l], s.nodes[f]);
        s' := BringFollower(o, s1, l, f, rules, size);
      } else {
        s' := s1;
      }
    }
  }

  // ----- acknowledgements

  /** Leader `n` has a log of its own term's last entry, at index `k`, and has committed nothing; every
      peer has acknowledged all of it or nothing. */
  ghost predicate Proposing(n: Node, k: nat) {
    && n.role == Leader && IndicesInRange(n) && n.commit == -1
    && |n.log| == k + 1 && n.log[k].term == n.term
    && forall i :: 0 <= i < |n.matchIndex| ==> n.matchIndex[i] == -1 || n.matchIndex[i] == k
  }

  function Noting(n: Node, i: nat, k: nat): Node
    requires i < |n.nextIndex| && i < |n.matchIndex|
  {
    n.(nextIndex := n.nextIndex[i := k + 1], matchIndex := n.matchIndex[i := k])
  }

  lemma {:induction false} OneCopyMore(ms: seq<int>, i: nat, k: int)
    requires i < |ms| && ms[i] < k
    ensures Copies(ms[i := k], k) == Copies(ms, k) + 1
  {
    var last := |ms| - 1;
    if i < last {
      assert ms[i := k][..last] == ms[..last][i := k];
      OneCopyMore(ms[..last], i, k);
    } else {
      assert ms[i := k][..last] == ms[..last];
    }
  }

  lemma {:induction false} NoCopies(ms: seq<int>, k: nat)
    requires forall i :: 0 <= i < |ms| ==> ms[i] == -1
    ensures Copies(ms, k) == 0
  {
    if ms != [] { NoCopies(ms[..|ms| - 1], k); }
  }

  /** A leader that notes one copy more commits if that makes enough of them. */
  function Noted(n: Node, i: nat, k: nat): Node
    requires i < |n.nextIndex| && i < |n.matchIndex|
  {
    if 1 + Copies(Noting(n, i, k).matchIndex, k) >= Quota(n) then Noting(n, i, k).(commit := k) else Noting(n, i, k)
  }

  lemma {:induction false} ScanProposing(n: Node, i: nat, k: nat)
    requires Proposing(n, k) && i < |n.peers| && n.matchIndex[i] == k
    ensures Scan(n, |n.peers|) == if 1 + Copies(n.matchIndex, k) >= Quota(n) then k else -1
  {
    assert 1 + Copies(n.matchIndex, k) >= Quota(n) ==> Committable(n, i);
  }

  lemma {:induction false} AckIs(n: Node, f: int, t: int, k: nat, i: nat)
    requires Proposing(n, k) && f in n.peers && i == PeerIndex(n.peers, f)
    ensures var m := AppendResponse(t, f, true, k);
      && Ready(n, Receive(m)) && OnAppendResponse(n, m).node == Noted(n, i, k)
      && forall y :: Sent(OnAppendResponse(n, m).actions, y) == []
  {
    hide Copies, Quota, Scan;
    var m := AppendResponse(t, f, true, k);
    ScanProposing(Noting(n, i, k), i, k);
    assert Quota(Noting(n, i, k)) == Quota(n) by { QuotaNoted(n, i, k); }
    forall y ensures Sent(OnAppendResponse(n, m).actions, y) == [] {
      SentNone(OnAppendResponse(n, m).actions, y);
    }
  }

  lemma QuotaNoted(n: Node, i: nat, k: nat)
    requires i < |n.nextIndex| && i < |n.matchIndex|
    ensures Quota(Noting(n, i, k)) == Quota(n)
  {}

  /** The last message from `f` to leader `l` acknowledges index `k` in term `t`; none of `f` has before. */
  ghost predicate AckWaits(s: Cluster, l: int, f: int, t: int, k: nat) {
    && l in s.nodes && f in s.nodes && l != f && LastIs(s, f, l, AppendResponse(t, f, true, k))
    && var i := PeerIndex(s.nodes[l].peers, f);
       i < |s.nodes[l].matchIndex| && s.nodes[l].matchIndex[i] == -1
  }

  /** `l` has handled acknowledgements from the nodes `lo` to `hi` and has become `n`. */
  ghost predicate Acked(s: Cluster, s': Cluster, l: int, lo: int, hi: int, n: Node) {
    && l in s.nodes && s'.nodes == s.nodes[l := n]
    && (forall x, y :: x in s.nodes && y in s.nodes && (!(lo <= x < hi) || y != l) ==> Link(s', x, y) == Link(s, x, y))
  }

  lemma Ack(o: Cluster, s: Cluster, l: int, f: int, t: int, k: nat, rules: Rules) returns (s': Cluster)
    requires Wired(s) && Onward(o, s, rules) && AckWaits(s, l, f, t, k) && Proposing(s.nodes[l], k)
    requires rules.guarded ==> t == s.nodes[l].term
    ensures Wired(s') && Onward(o, s', rules)
    ensures Acked(s, s', l, f, f + 1, Noted(s.nodes[l], PeerIndex(s.nodes[l].peers, f), k))
  {
    hide Onward, Turn, OnAppendResponse, Noted, Sent;
    var n := s.nodes[l];
    var i := PeerIndex(n.peers, f);
    PeersAreOthers(s, l);
    AckIs(n, f, t, k, i);
    NotedSound(n, i, k);
    s' := Arrive(o, s, f, l, AppendResponse(t, f, true, k), Silent, rules);
    AckedByTurn(s, s', l, f, Noted(n, i, k));
  }

  lemma NotedSound(n: Node, i: nat, k: nat)
    requires Proposing(n, k) && i < |n.matchIndex|
    ensures var n' := Noted(n, i, k); Sound(n') && n'.id == n.id && n'.peers == n.peers
  {
    hide Copies, Quota;
  }

  lemma AckedByTurn(s: Cluster, s': Cluster, l: int, f: int, n: Node)
    requires f in s.nodes && Turn(s, s', f, l, n, Silent)
    ensures Acked(s, s', l, f, f + 1, n)
  {
    forall x, y | x in s.nodes && y in s.nodes && (x != f || y != l) ensures Link(s', x, y) == Link(s, x, y) {
      assert Link(s', x, y) == Turned(s, f, l, Silent, x, y);
    }
  }

  /** The leader with other knowledge of its peers, and index `k` committed. */
  predicate CommitsUpTo(n: Node, n': Node, k: nat) {
    n' == n.(nextIndex := n'.nextIndex, matchIndex := n'.matchIndex, commit := k)
  }

  /** A copy noted: one more counted, or enough. */
  lemma {:induction false} NotedCopy(n: Node, i: nat, k: nat)
    requires Proposing(n, k) && i < |n.peers| && n.matchIndex[i] == -1
    ensures var n' := Noted(n, i, k);
      && n'.peers == n.peers && Copies(n'.matchIndex, k) == Copies(n.matchIndex, k) + 1
      && (if 2 + Copies(n.matchIndex, k) >= Quota(n) then CommitsUpTo(n, n', k) else Proposing(n', k))
      && n' == n.(nextIndex := n'.nextIndex, matchIndex := n'.matchIndex, commit := n'.commit)
      && |n'.matchIndex| == |n.matchIndex| && Quota(n') == Quota(n)
      && forall j :: 0 <= j < |n.matchIndex| && j != i ==> n'.matchIndex[j] == n.matchIndex[j]
  {
    OneCopyMore(n.matchIndex, i, k);
    hide Copies;
  }

  lemma {:induction false} AckStillWaits(s: Cluster, s1: Cluster, l: int, f: int, g: int, t: int, k: nat)
    requires AckWaits(s, l, f, t, k) && AckWaits(s, l, g, t, k) && f != g && Proposing(s.nodes[l], k)
    requires Acked(s, s1, l, f, f + 1, Noted(s.nodes[l], PeerIndex(s.nodes[l].peers, f), k))
    ensures AckWaits(s1, l, g, t, k)
  {
    hide Noted, Copies, Quota;
    NotedCopy(s.nodes[l], PeerIndex(s.nodes[l].peers, f), k);
  }

  /** Leader `l` handles acknowledgements of index `k` from the nodes `lo` to `hi`, as many as it lacks,
      and commits. */
  lemma {:induction false} AckAll(o: Cluster, s: Cluster, l: int, lo: int, hi: int, t: int, k: nat, rules: Rules)
      returns (s': Cluster)
    requires Wired(s) && Onward(o, s, rules) && l in s.nodes && Proposing(s.nodes[l], k) && lo < hi
    requires forall f :: lo <= f < hi ==> AckWaits(s, l, f, t, k)
    requires rules.guarded ==> t == s.nodes[l].term
    requires 1 + Copies(s.nodes[l].matchIndex, k) + (hi - lo) == Quota(s.nodes[l])
    ensures Wired(s') && Onward(o, s', rules) && s'.nodes.Keys == s.nodes.Keys
    ensures Acked(s, s', l, lo, hi, s'.nodes[l]) && CommitsUpTo(s.nodes[l], s'.nodes[l], k)
    decreases hi - lo
  {
    hide Wired, Onward, AckWaits, Acked, Noted, Copies, Quota, Proposing;
    assert AckWaits(s, l, lo, t, k);
    IndexOf(s, l, lo, t, k);
    var n, i := s.nodes[l], PeerIndex(s.nodes[l].peers, lo);
    NotedCopy(n, i, k);
    var s1 := Ack(o, s, l, lo, t, k, rules);
    AckedKeeps(s, s1, l, lo, lo + 1, Noted(n, i, k));
    if lo + 1 == hi {
      s' := s1;
    } else {
      forall f | lo + 1 <= f < hi ensures AckWaits(s1, l, f, t, k) {
        AckStillWaits(s, s1, l, lo, f, t, k);
      }
      s' := AckAll(o, s1, l, lo + 1, hi, t, k, rules);
      AckedKeeps(s1, s', l, lo + 1, hi, s'.nodes[l]);
      AckedTwice(s, s1, s', l, lo, hi, Noted(n, i, k), s'.nodes[l]);
    }
  }

  lemma {:induction false} IndexOf(s: Cluster, l: int, f: int, t: int, k: nat)
    requires AckWaits(s, l, f, t, k) && Proposing(s.nodes[l], k)
    ensures var i := PeerIndex(s.nodes[l].peers, f);
      && i < |s.nodes[l].peers| == |s.nodes[l].nextIndex| == |s.nodes[l].matchIndex|
      && s.nodes[l].matchIndex[i] == -1
  {}

  lemma AckedKeeps(s: Cluster, s': Cluster, l: int, lo: int, hi: int, n: Node)
    requires Acked(s, s', l, lo, hi, n)
    ensures l in s.nodes && s'.nodes.Keys == s.nodes.Keys && s'.nodes[l] == n
  {}

  lemma AckedTwice(s: Cluster, s1: Cluster, s': Cluster, l: int, lo: int, hi: int, n: Node, n': Node)
    requires Acked(s, s1, l, lo, lo + 1, n) && Acked(s1, s', l, lo + 1, hi, n') && lo < hi
    ensures Acked(s, s', l, lo, hi, n')
  {}
}
