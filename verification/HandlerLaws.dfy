/** What the handlers do with messages, stated of the messages and of the node alone, and what follows
    for runs: who gets a vote, who steps down, what is sent, committed and refused. */
module HandlerLaws {
  import opened Commands
  import opened RaftTypes
  import opened NodeStep
  import opened ClusterModel
  import opened Effects
  import opened RunLaws
  import opened Safety
  import opened CommitStream
  import opened CommitScan
  import opened Quorums
  import opened Invariants

  // ----- votes

  /** The candidate's last entry is at least as late as the last one of `log`: by term, then by index. */
  predicate AsLate(lastTerm: int, lastIndex: int, log: seq<Entry>) {
    if log == [] then 0 < lastTerm || (lastTerm == 0 && -1 <= lastIndex)
    else
      var own := log[|log| - 1].term;
      own < lastTerm || (own == lastTerm && |log| - 1 <= lastIndex)
  }

  /** The node is free to vote for the candidate: the term is new to it, or it follows in that term and
      has voted for no one else. */
  predicate FreeFor(n: Node, term: int, candidate: int) {
    term > n.term || (term == n.term && n.role == Follower && n.votedFor in {0, candidate})
  }

  /** A vote request gets one reply, in the later of the two terms, which grants the vote exactly when the
      node is free and the candidate's log is as late as its own. A granted vote is remembered, and a
      newer term makes any node a follower of it. */
  lemma VotesExactly(n: Node, term: int, candidate: int, lastIndex: int, lastTerm: int)
    requires Ready(n, Receive(VoteRequest(term, candidate, lastIndex, lastTerm)))
    ensures var out := Step(n, Receive(VoteRequest(term, candidate, lastIndex, lastTerm)));
      var granted := AsLate(lastTerm, lastIndex, n.log) && FreeFor(n, term, candidate);
      && (forall y :: Sent(out.actions, y) ==
           if y == candidate then [VoteResponse(if term > n.term then term else n.term, granted)] else [])
      && out.node ==
           (if term > n.term then n.(role := Follower, term := term, votedFor := if granted then candidate else 0)
            else n.(votedFor := if granted then candidate else n.votedFor))
  {
    var m := VoteRequest(term, candidate, lastIndex, lastTerm);
    var acts := OnVoteRequest(n, m).actions;
    forall y ensures Sent(acts, y) ==
      if y == candidate then [VoteResponse(OnVoteRequest(n, m).node.term, Grants(n, m))] else []
    {
      var k := if acts[0].Send? then 0 else 1;
      if y == candidate { SentOnce(acts, y, k); } else { SentNone(acts, y); }
    }
  }

  // ----- newer terms

  /** The messages of a later term that a node does not heed: a leader any vote and any success reply, and
      a candidate a granted vote. */
  predicate Unheeded(n: Node, m: Message) {
    || (m.VoteResponse? && (n.role == Leader || (n.role == Candidate && m.granted)))
    || (m.AppendResponse? && n.role == Leader && m.success)
  }

  /** A message of a later term makes the node a follower of exactly that term, unless it is one of these;
      after a reply it has no vote in that term. */
  lemma NewerTermFollows(n: Node, m: Message)
    requires Ready(n, Receive(m)) && n.term < m.term
    ensures var n' := Step(n, Receive(m)).node;
      && (n'.role == Follower && n'.term == m.term <==> !Unheeded(n, m))
      && (!Unheeded(n, m) && (m.VoteResponse? || m.AppendResponse?) ==> n'.votedFor == 0)
      && (!Unheeded(n, m) && m.AppendRequest? ==> n'.votedFor == m.leaderId)
  {
    hide Merge, MatchEnd, Scan, AcceptActions;
  }

  /** A leader that gets such a refusal no longer leads, and never leads in that term or before again. */
  lemma {:induction false} DeposedForGood(states: seq<Cluster>, moves: seq<Move>, guarded: bool, i: nat, j: nat,
                                          a: int, b: int, term: int)
    requires Run(states, moves, guarded) && i < j < |states| && moves[i] == Deliver(a, b)
    requires LeaderAt(states[i], b, term) && Link(states[i], a, b) != []
    requires var m := Link(states[i], a, b)[0];
      term < m.term && (m.VoteRequest? || m.AppendRequest? || (m.AppendResponse? && !m.success))
    ensures var m := Link(states[i], a, b)[0];
      && b in states[i + 1].nodes && states[i + 1].nodes[b].role == Follower && states[i + 1].nodes[b].term == m.term
      && b in states[j].nodes && m.term <= states[j].nodes[b].term && !LeaderAt(states[j], b, term)
  {
    hide Init, Step, Ready;
    assert Follows(states, moves, guarded, i);
    NewerTermFollows(states[i].nodes[b], Link(states[i], a, b)[0]);
    TermsRise(states, moves, guarded, i + 1, j, b);
  }

  /** How many votes, its own included, make a leader; and how many refusals end a candidacy. */
  function Enough(n: Node): int {
    |n.peers| / 2 + 1
  }

  /** What a leader tells all others on its election. */
  function FirstWord(n: Node): Message {
    AppendRequest(n.term, n.id, |n.log| - 1, if n.log == [] then 0 else n.log[|n.log| - 1].term, [], n.commit)
  }

  /** The node takes office: nothing is known of its peers, all are sent what follows its log, and hear of it. */
  ghost predicate TakesOffice(n: Node, out: Outcome) {
    && out.node == n.(yes := n.yes + 1, role := Leader,
                      nextIndex := out.node.nextIndex, matchIndex := out.node.matchIndex)
    && |out.node.nextIndex| == |out.node.matchIndex| == |n.peers|
    && (forall i :: 0 <= i < |n.peers| ==> out.node.nextIndex[i] == |n.log| && out.node.matchIndex[i] == -1)
    && (forall y :: Sent(out.actions, y) == if y in n.peers then [FirstWord(n)] else [])
  }

  /** What a candidate makes of a vote of its own term or a granted one: with enough votes it leads, with
      enough refusals it follows, and else it only counts. */
  lemma CandidateCounts(n: Node, m: Message)
    requires n.role == Candidate && m.VoteResponse? && Ready(n, Receive(m)) && DistinctPeers(n)
    requires n.term == m.term || (n.term < m.term && m.granted)
    ensures var out := Step(n, Receive(m));
      && (m.granted ==> if n.yes + 1 >= Enough(n) then TakesOffice(n, out)
                        else out == Outcome(n.(yes := n.yes + 1), []))
      && (!m.granted ==> out.node == n.(no := n.no + 1, role := if n.no + 1 >= Enough(n) then Follower else Candidate)
                         && forall y :: Sent(out.actions, y) == [])
  {
    var out := OnVoteResponse(n, m);
    if Wins(n, m) {
      forall y ensures Sent(out.actions, y) == if y in n.peers then [FirstWord(n)] else [] {
        OfficeSends(n, m, y);
      }
    } else {
      forall y ensures Sent(out.actions, y) == [] { SentNone(out.actions, y); }
    }
  }

  lemma {:induction false} OfficeSends(n: Node, m: Message, y: int)
    requires m.VoteResponse? && Wins(n, m) && DistinctPeers(n)
    ensures Sent(OnVoteResponse(n, m).actions, y) == if y in n.peers then [FirstWord(n)] else []
  {
    var out := OnVoteResponse(n, m);
    var q := Inaugural(out.node);
    assert out.actions == [StateStore(Leader, n.term, n.votedFor)] + q + [Alarm(Heartbeat)];
    SentBetween([StateStore(Leader, n.term, n.votedFor)], q, [Alarm(Heartbeat)], y);
    SentToPeers(q, n.peers, y);
  }

  /** A node other than a leader whose timer fires stands in the next term: it votes for itself, forgets
      earlier votes, and asks all others with the end of its log. */
  lemma StandsExactly(n: Node)
    requires n.role != Leader && Ready(n, Timeout) && DistinctPeers(n)
    ensures var out := Step(n, Timeout);
      && out.node == n.(role := Candidate, term := n.term + 1, votedFor := n.id, yes := 1, no := 0)
      && forall y :: Sent(out.actions, y) ==
           if y !in n.peers then []
           else [VoteRequest(n.term + 1, n.id, |n.log| - 1, if n.log == [] then 0 else n.log[|n.log| - 1].term)]
  {
    hide Ballots, Sent;
    forall y ensures Sent(OnTimeout(n).actions, y) == if y in n.peers then [Campaign(n)] else [] {
      StandingSends(n, y);
    }
  }

  /** The votes for and against a node since it last stood. */
  datatype Tally = Tally(yes: int, no: int)

  /** The tally after an event: a candidate counts the votes of its term, and those for it of later terms. */
  function TallyNext(t: Tally, n: Node, ev: Event): Tally {
    match ev
    case Timeout => if n.role == Leader then t else Tally(1, 0)
    case Receive(VoteResponse(term, granted)) =>
      if n.role != Candidate || term < n.term then t
      else if granted then t.(yes := t.yes + 1)
      else if term == n.term then t.(no := t.no + 1)
      else t
    case _ => t
  }

  /** What the deliveries of a run say node `v` has counted up to the `i`-th state. */
  ghost function TallyAt(states: seq<Cluster>, moves: seq<Move>, guarded: bool, v: int, i: nat): Tally
    requires Run(states, moves, guarded) && i <= |moves|
  {
    if i == 0 then Tally(0, 0)
    else
      assert Follows(states, moves, guarded, i - 1);
      var before, s, mv := TallyAt(states, moves, guarded, v, i - 1), states[i - 1], moves[i - 1];
      if mv.Lose? || Actor(mv) != v then before else TallyNext(before, s.nodes[v], EventOf(s, mv))
  }

  /** What a node counts, and that a candidate has not yet enough of either, but that one or two nodes need
      no further vote and still wait for one. */
  predicate CountsRight(n: Node, t: Tally) {
    && n.yes == t.yes && n.no == t.no
    && (n.role == Candidate ==> n.no < Enough(n) && (n.yes < Enough(n) || (n.yes == 1 && |n.peers| <= 1)))
  }

  lemma CountsOn(n: Node, t: Tally, ev: Event)
    requires Ready(n, ev) && CountsRight(n, t)
    ensures CountsRight(Step(n, ev).node, TallyNext(t, n, ev))
  {
    hide Merge, MatchEnd, Scan, Grants, Considers;
  }

  lemma CountsAfter(s: Cluster, mv: Move, v: int, t: Tally)
    requires Possible(s, mv, false) && Smooth(s, mv) && v in s.nodes && CountsRight(s.nodes[v], t)
    ensures v in Apply(s, mv).nodes
    ensures CountsRight(Apply(s, mv).nodes[v],
                        if mv.Lose? || Actor(mv) != v then t else TallyNext(t, s.nodes[v], EventOf(s, mv)))
  {
    hide Step, TallyNext, CountsRight;
    if !mv.Lose? && Actor(mv) == v { CountsOn(s.nodes[v], t, EventOf(s, mv)); }
  }

  /** In every run of any cluster a quorum of refusals ends a candidacy, and a quorum of votes: every node has
      counted just the votes delivered to it since it last stood, and no candidate has a quorum of either. */
  lemma {:induction false} QuorumEndsCandidacy(states: seq<Cluster>, moves: seq<Move>, guarded: bool, v: int, i: nat)
    requires Run(states, moves, guarded) && i <= |moves| && v in states[0].nodes
    ensures v in states[i].nodes && CountsRight(states[i].nodes[v], TallyAt(states, moves, guarded, v, i))
  {
    hide Apply, CountsRight, Possible, Smooth, TallyNext;
    if i == 0 {
      FreshCounts(states[0], v);
    } else {
      QuorumEndsCandidacy(states, moves, guarded, v, i - 1);
      PastNext(states, moves, guarded, i - 1);
      CountsAfter(states[i - 1], moves[i - 1], v, TallyAt(states, moves, guarded, v, i - 1));
    }
  }

  lemma FreshCounts(s: Cluster, v: int)
    requires Init(s) && v in s.nodes
    ensures CountsRight(s.nodes[v], Tally(0, 0))
  {
    assert Fresh(s.nodes[v], v, s.nodes.Keys);
  }

  // ----- what leaders send

  /** The request that carries the log of `n` from index `from` on. */
  predicate CarriesFrom(n: Node, from: nat, m: Message) {
    && from <= |n.log| && m.AppendRequest? && m.term == n.term && m.leaderId == n.id && m.leaderCommit == n.commit
    && m.prevLogIndex == from - 1 && (if from == 0 then m.prevLogTerm == 0 else m.prevLogTerm == n.log[from - 1].term)
    && m.data == n.log[from..]
  }

  /** A leader's timeout sends each peer its log from that peer's next index on, and no one else anything. */
  lemma HeartbeatExactly(n: Node, i: nat)
    requires n.role == Leader && Ready(n, Timeout) && DistinctPeers(n) && i < |n.peers|
    ensures var out := Step(n, Timeout);
      && out.node == n
      && |Sent(out.actions, n.peers[i])| == 1 && CarriesFrom(n, n.nextIndex[i], Sent(out.actions, n.peers[i])[0])
      && forall y :: y !in n.peers ==> Sent(out.actions, y) == []
  {
    hide Heartbeats, RequestFor;
    HeartbeatSends(n, n.peers[i]);
    forall y | y !in n.peers ensures Sent(OnTimeout(n).actions, y) == [] { HeartbeatSends(n, y); }
    RequestCarries(n, i);
  }

  lemma RequestCarries(n: Node, i: nat)
    requires i < |n.nextIndex| && 0 <= n.nextIndex[i] <= |n.log|
    ensures CarriesFrom(n, n.nextIndex[i], RequestFor(n, i))
  {}

  /** An acknowledgement of index `k` from peer number `i` is noted for that peer alone, and what that peer
      is sent next starts right after `k`. */
  lemma AcknowledgedNext(n: Node, term: int, i: nat, k: int)
    requires n.role == Leader && DistinctPeers(n) && i < |n.peers|
    requires Ready(n, Receive(AppendResponse(term, n.peers[i], true, k)))
    ensures var n' := Step(n, Receive(AppendResponse(term, n.peers[i], true, k))).node;
      && n'.nextIndex == n.nextIndex[i := k + 1] && n'.matchIndex == n.matchIndex[i := k]
      && n'.role == Leader && n'.term == n.term && n'.log == n.log
      && (k < |n.log| && NextInRange(n') ==> CarriesFrom(n', k + 1, RequestFor(n', i)))
  {
    hide Scan, Copies, Commits;
    PeerAt(n.peers, i);
  }

  lemma {:induction false} PeerAt(peers: seq<int>, i: nat)
    requires i < |peers| && forall j, k :: 0 <= j < k < |peers| ==> peers[j] != peers[k]
    ensures PeerIndex(peers, peers[i]) == i
  {
    if i > 0 { PeerAt(peers[1..], i - 1); }
  }

  /** A refusal of its own term makes a leader go one index back for that peer, and send from there. */
  lemma RefusedGoesBack(n: Node, i: nat, index: int)
    requires n.role == Leader && DistinctPeers(n) && i < |n.peers|
    requires Ready(n, Receive(AppendResponse(n.term, n.peers[i], false, index)))
    ensures var out := Step(n, Receive(AppendResponse(n.term, n.peers[i], false, index)));
      var back := if n.nextIndex[i] > 0 then n.nextIndex[i] - 1 else 0;
      && out.node == n.(nextIndex := n.nextIndex[i := back])
      && (forall y :: y != n.peers[i] ==> Sent(out.actions, y) == [])
      && |Sent(out.actions, n.peers[i])| == 1 && CarriesFrom(out.node, back, Sent(out.actions, n.peers[i])[0])
  {
    PeerAt(n.peers, i);
    var m := AppendResponse(n.term, n.peers[i], false, index);
    var acts := OnAppendResponse(n, m).actions;
    SentOnce(acts, n.peers[i], 0);
    forall y | y != n.peers[i] ensures Sent(acts, y) == [] { SentNone(acts, y); }
  }

  // ----- append requests

  /** The request fits the log: nothing precedes it, or the entry before it is there with its term. */
  predicate Fits(log: seq<Entry>, prevIndex: int, prevTerm: int) {
    prevIndex == -1 || (0 <= prevIndex < |log| && log[prevIndex].term == prevTerm)
  }

  /** A follower answers an append request with success exactly when the request is not of an earlier term
      and fits its log. Anyone refuses one of an earlier term, unchanged; but a candidate or leader that
      becomes a follower answers nothing, as its answer is nested and lost. */
  lemma AppendAnswered(n: Node, m: Message)
    requires m.AppendRequest? && Ready(n, Receive(m))
    ensures var out := Step(n, Receive(m));
      var success := n.term <= m.term && Fits(n.log, m.prevLogIndex, m.prevLogTerm);
      && (m.term < n.term ==> out.node == n)
      && (forall y :: Sent(out.actions, y) ==
           if y == m.leaderId && (n.role == Follower || m.term < n.term)
           then [AppendResponse(if m.term > n.term then m.term else n.term, n.id, success, |out.node.log| - 1)] else [])
      && (!success ==> out.node.log == n.log && out.node.commit == n.commit)
      && (success ==> out.node.commit == if m.leaderCommit <= n.commit then n.commit
                                         else if m.leaderCommit < |out.node.log| then m.leaderCommit
                                         else |out.node.log| - 1)
      && (success ==> |out.node.log| == m.prevLogIndex + 1 + |m.data|
                      && forall k :: 0 <= k < |m.data| ==>
                           out.node.log[m.prevLogIndex + 1 + k].term == m.data[k].term)
  {
    hide AcceptActions, Merge, MatchEnd, OnAppendRequestFollower, PrevMatches, Fits, Sent;
    var out := OnAppendRequest(n, m);
    FollowsOrRefuses(n.(role := if n.term <= m.term then Follower else n.role), m);
    AcceptsWhatFits(n, m);
    forall y ensures Sent(out.actions, y) ==
      if y == m.leaderId && (n.role == Follower || m.term < n.term)
      then [AppendResponse(if m.term > n.term then m.term else n.term, n.id, Accepts(n, m), |out.node.log| - 1)] else []
    {
      if n.role == Follower || m.term < n.term { SentByFollower(n, m, y); } else { SentNone(out.actions, y); }
    }
  }

  lemma AcceptsWhatFits(n: Node, m: Message)
    requires m.AppendRequest? && -1 <= m.prevLogIndex
    ensures Accepts(n, m) <==> n.term <= m.term && Fits(n.log, m.prevLogIndex, m.prevLogTerm)
  {}

  lemma FollowsOrRefuses(n: Node, m: Message)
    requires m.AppendRequest? && Ready(n, Receive(m))
    ensures var n', success := OnAppendRequestFollower(n, m).node, Accepts(n, m);
      && (m.term < n.term ==> n' == n) && n'.term == (if m.term > n.term then m.term else n.term)
      && (!success ==> n'.log == n.log && n'.commit == n.commit)
      && (success ==> n'.commit == if m.leaderCommit <= n.commit then n.commit
                                   else if m.leaderCommit < |n'.log| then m.leaderCommit else |n'.log| - 1)
      && (success ==> |n'.log| == m.prevLogIndex + 1 + |m.data|
                      && forall k :: 0 <= k < |m.data| ==> n'.log[m.prevLogIndex + 1 + k].term == m.data[k].term)
  {
    hide AcceptActions;
  }

  // ----- commits of a leader

  /** On an acknowledgement a leader of a cluster of a safe size commits exactly up to the greatest index
      that it now may commit, if there is one. */
  lemma CommitsWhatItMay(n: Node, term: int, i: nat, k: int)
    requires DistinctPeers(n) && i < |n.peers| && SafeSize(|n.peers| + 1)
    requires Ready(n, Receive(AppendResponse(term, n.peers[i], true, k)))
    requires Leading(n.(nextIndex := n.nextIndex[i := k + 1], matchIndex := n.matchIndex[i := k]))
    ensures var n' := Step(n, Receive(AppendResponse(term, n.peers[i], true, k))).node;
      var noted := n.(nextIndex := n.nextIndex[i := k + 1], matchIndex := n.matchIndex[i := k]);
      && (forall N :: MayCommit(noted, N) ==> N <= n'.commit)
      && (n'.commit != n.commit ==> MayCommit(noted, n'.commit))
  {
    hide Copies, Commits, NodeOk, OnMajority;
    PeerAt(n.peers, i);
    ScanIsExact(n.(nextIndex := n.nextIndex[i := k + 1], matchIndex := n.matchIndex[i := k]));
  }

  // ----- clients' commands

  /** A leader takes a client's command into its log and sends nothing yet; any other node stays as it is
      and returns the command as failed. */
  lemma AskedExactly(n: Node, cmd: Msg)
    requires Ready(n, Client(cmd))
    ensures var out := Step(n, Client(cmd));
      && (forall y :: Sent(out.actions, y) == [])
      && (if n.role == Leader then
            && out.node == n.(log := n.log + [Entry(n.term, cmd)])
            && out.actions == [LogStore(|n.log|, Entry(n.term, cmd))] && Delivered(out.actions) == []
          else
            out.node == n && Delivered(out.actions) == [Notice(-1, cmd, true)])
  {
    var acts := OnAppend(n, cmd).actions;
    forall y ensures Sent(acts, y) == [] { SentNone(acts, y); }
    assert Delivered(acts) == DeliveredOf(acts[0]) + Delivered(acts[1..]);
  }

  function Failed(xs: seq<Notice>): seq<Notice> {
    if xs == [] then [] else FailedOf(xs[0]) + Failed(xs[1..])
  }

  function FailedOf(x: Notice): seq<Notice> {
    if x.failed then [x] else []
  }

  lemma {:induction false} FailedConcat(xs: seq<Notice>, ys: seq<Notice>)
    ensures Failed(xs + ys) == Failed(xs) + Failed(ys)
  {
    hide FailedOf;
    if xs == [] {
      assert xs + ys == ys;
    } else {
      assert (xs + ys)[1..] == xs[1..] + ys;
      FailedConcat(xs[1..], ys);
    }
  }

  /** The failed notice for a client's command that reaches node `v` while it does not lead. */
  function RefusalOf(s: Cluster, mv: Move, v: int): seq<Notice> {
    match mv
    case Ask(at, cmd) => if at == v && v in s.nodes && s.nodes[v].role != Leader then [Notice(-1, cmd, true)] else []
    case _ => []
  }

  /** The commands that clients asked of node `v` up to the `i`-th state while it did not lead. */
  ghost function Refusals(states: seq<Cluster>, moves: seq<Move>, v: int, i: nat): seq<Notice>
    requires |moves| < |states| && i <= |moves|
  {
    if i == 0 then [] else Refusals(states, moves, v, i - 1) + RefusalOf(states[i - 1], moves[i - 1], v)
  }

  predicate NoneFailed(acts: seq<Action>) {
    forall k :: 0 <= k < |acts| ==> acts[k].Commit? ==> !acts[k].failed
  }

  lemma {:induction false} DeliversNoFailure(acts: seq<Action>)
    requires NoneFailed(acts)
    ensures Failed(Delivered(acts)) == []
  {
    if acts != [] {
      DeliversNoFailure(acts[1..]);
      FailedConcat(DeliveredOf(acts[0]), Delivered(acts[1..]));
    }
  }

  lemma OthersDoNotFail(n: Node, ev: Event)
    requires Ready(n, ev) && (ev.Client? ==> n.role == Leader)
    ensures NoneFailed(Step(n, ev).actions)
  {
    hide OnAppendRequest, OnAppendResponse, OnVoteRequest, OnVoteResponse;
    if ev.Receive? {
      match ev.msg
      case VoteRequest(_, _, _, _) => VotersDoNotFail(n, ev.msg);
      case VoteResponse(_, _) => VotersDoNotFail(n, ev.msg);
      case AppendRequest(_, _, _, _, _, _) => FollowersDoNotFail(n, ev.msg);
      case AppendResponse(_, _, _, _) => LeadersDoNotFail(n, ev.msg);
    }
  }

  lemma VotersDoNotFail(n: Node, m: Message)
    requires (m.VoteRequest? || m.VoteResponse?) && Ready(n, Receive(m))
    ensures NoneFailed(Step(n, Receive(m)).actions)
  {
    hide Grants, Considers;
  }

  lemma FollowersDoNotFail(n: Node, m: Message)
    requires m.AppendRequest? && Ready(n, Receive(m))
    ensures NoneFailed(OnAppendRequest(n, m).actions)
  {
    hide Merge, MatchEnd;
  }

  lemma LeadersDoNotFail(n: Node, m: Message)
    requires m.AppendResponse? && Ready(n, Receive(m))
    ensures NoneFailed(OnAppendResponse(n, m).actions)
  {
    hide Scan, Copies;
  }

  lemma FailuresOf(s: Cluster, mv: Move, v: int)
    requires Possible(s, mv, false) && Smooth(s, mv)
    ensures Failed(Delivered(ActionsAt(s, mv, v))) == RefusalOf(s, mv, v)
  {
    hide Step;
    if !mv.Lose? && v == Actor(mv) {
      var n, ev := s.nodes[v], EventOf(s, mv);
      if ev.Client? && n.role != Leader {
        AskedExactly(n, ev.cmd);
      } else {
        OthersDoNotFail(n, ev);
        DeliversNoFailure(Step(n, ev).actions);
      }
    }
  }

  /** Over any run, the failed notices on a node's channel are, in order and number, the commands asked of
      it while it did not lead. */
  lemma {:induction false} RefusedCommandsReturn(states: seq<Cluster>, moves: seq<Move>, v: int, i: nat)
    requires Run(states, moves, true) && i <= |moves|
    ensures Failed(Channel(states, moves, v, i)) == Refusals(states, moves, v, i)
  {
    hide Init, Delivered, Failed, Apply, Possible, Smooth, Step, RefusalOf;
    if i == 0 {
      NoFailures();
    } else {
      RefusedCommandsReturn(states, moves, v, i - 1);
      PastNext(states, moves, true, i - 1);
      FailuresOf(states[i - 1], moves[i - 1], v);
      FailedConcat(Channel(states, moves, v, i - 1), Delivered(ActionsAt(states[i - 1], moves[i - 1], v)));
    }
  }

  lemma NoFailures()
    ensures Failed([]) == []
  {}
}
