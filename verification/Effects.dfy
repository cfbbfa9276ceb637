/** What one move does, in the terms the invariants are about: the messages it leaves and adds on
    each link, and what a handler may send. */
module Effects {
  import opened RaftTypes
  import opened NodeStep
  import opened ClusterModel
  import opened History
  import opened Invariants

  /** The link from `x` to `y` without the message that the move takes off. */
  function Rest(s: Cluster, mv: Move, x: int, y: int): seq<Message>
    requires Possible(s, mv, false)
  {
    var q := Link(s, x, y);
    match mv
    case Deliver(a, b) => if a == x && b == y then q[1..] else q
    case Lose(a, b, i) => if a == x && b == y then q[..i] + q[i + 1..] else q
    case _ => q
  }

  /** What the move's handler adds to the link from `x` to `y`. */
  function Added(s: Cluster, mv: Move, x: int, y: int): seq<Message>
    requires Possible(s, mv, false) && Smooth(s, mv)
  {
    if mv.Lose? || x != Actor(mv) then []
    else Sent(Step(s.nodes[x], EventOf(s, mv)).actions, y)
  }

  lemma LinkAfter(s: Cluster, mv: Move, x: int, y: int)
    requires ConfigOk(s) && Possible(s, mv, false) && Smooth(s, mv)
    requires x in s.nodes && y in s.nodes
    ensures Link(Apply(s, mv), x, y) == Rest(s, mv, x, y) + Added(s, mv, x, y)
  {}

  /** The handler of `ev` replies to `to`. */
  predicate Answers(ev: Event, to: int) {
    && ev.Receive?
    && match ev.msg
       case VoteRequest(_, c, _, _) => to == c
       case VoteResponse(_, _) => false
       case AppendRequest(_, l, _, _, _, _) => to == l
       case AppendResponse(_, f, _, _) => to == f
  }

  /** What node `n`, having become `n'` on event `ev`, may send to `to`. */
  predicate EmitOk(n: Node, ev: Event, n': Node, to: int, m: Message) {
    && m.term == n'.term
    && (to in n.peers || Answers(ev, to))
    && match m
       case VoteRequest(_, _, _, _) =>
         && ev == Timeout && n.role != Leader
         && m == VoteRequest(n.term + 1, n.id, |n.log| - 1, LastTerm(n.log))
       case VoteResponse(_, granted) =>
         granted ==> ev.Receive? && ev.msg.VoteRequest? && Grants(n, ev.msg) && to == ev.msg.candidateId
       case AppendRequest(_, leader, prev, prevTerm, data, commit) =>
         && n'.role == Leader && n'.log == n.log && leader == n.id && commit == n'.commit == n.commit
         && -1 <= prev && prev + 1 <= |n.log|
         && (prev >= 0 ==> prevTerm == n.log[prev].term)
         && data == n.log[prev + 1..]
       case AppendResponse(_, from, success, index) =>
         && from == n.id
         && (success ==> ev.Receive? && ev.msg.AppendRequest? && -1 <= ev.msg.prevLogIndex
                         && Accepts(n, ev.msg) && to == ev.msg.leaderId && index == |n'.log| - 1)
  }

  predicate Emits(n: Node, ev: Event, to: int)
    requires Ready(n, ev)
  {
    var out := Step(n, ev);
    var q := Sent(out.actions, to);
    q == [] || (|q| == 1 && EmitOk(n, ev, out.node, to, q[0]))
  }

  ghost predicate DistinctPeers(n: Node) {
    forall i, j :: 0 <= i < j < |n.peers| ==> n.peers[i] != n.peers[j]
  }

  lemma {:induction false} SentBetween(xs: seq<Action>, ys: seq<Action>, zs: seq<Action>, to: int)
    requires (forall i :: 0 <= i < |xs| ==> !xs[i].Send?) && (forall i :: 0 <= i < |zs| ==> !zs[i].Send?)
    ensures Sent(xs + ys + zs, to) == Sent(ys, to)
  {
    SentConcat(xs + ys, zs, to);
    SentConcat(xs, ys, to);
    SentNone(xs, to);
    SentNone(zs, to);
  }

  lemma EmitsHeartbeat(n: Node, to: int)
    requires Ready(n, Timeout) && DistinctPeers(n) && n.role == Leader
    ensures Emits(n, Timeout, to)
  {
    hide Heartbeats;
    HeartbeatSends(n, to);
  }

  /** A leader's heartbeat sends each peer the request for it. */
  lemma {:induction false} HeartbeatSends(n: Node, y: int)
    requires n.role == Leader && NextInRange(n) && DistinctPeers(n)
    ensures y !in n.peers ==> Sent(OnTimeout(n).actions, y) == []
    ensures y in n.peers ==>
      exists k :: 0 <= k < |n.peers| && n.peers[k] == y && Sent(OnTimeout(n).actions, y) == [RequestFor(n, k)]
  {
    hide RequestFor;
    SentBetween([Alarm(Heartbeat)], Heartbeats(n), [], y);
    assert OnTimeout(n).actions == [Alarm(Heartbeat)] + Heartbeats(n) + [];
    SentToPeers(Heartbeats(n), n.peers, y);
  }

  /** A node that has just stood for election, and what it asks of all peers. */
  function Candidacy(n: Node): Node {
    n.(role := Candidate, term := n.term + 1, votedFor := n.id, yes := 1, no := 0)
  }

  function Campaign(n: Node): Message {
    VoteRequest(n.term + 1, n.id, |n.log| - 1, LastTerm(n.log))
  }

  lemma {:induction false} StandingSends(n: Node, y: int)
    requires n.role != Leader && OnePerPeer(n) && DistinctPeers(n)
    ensures Sent(OnTimeout(n).actions, y) == if y in n.peers then [Campaign(n)] else []
  {
    var n' := Candidacy(n);
    var opening := [StateStore(Candidate, n'.term, n'.votedFor), Alarm(Election)];
    SentBetween(opening, Ballots(n'), [], y);
    assert OnTimeout(n).actions == opening + Ballots(n') + [];
    SentToPeers(Ballots(n'), n.peers, y);
  }

  lemma EmitsBallots(n: Node, to: int)
    requires Ready(n, Timeout) && DistinctPeers(n) && n.role != Leader
    ensures Emits(n, Timeout, to)
  {
    hide Ballots, Sent;
    StandingSends(n, to);
  }

  lemma EmitsVoteRequest(n: Node, m: Message, to: int)
    requires m.VoteRequest? && Ready(n, Receive(m))
    ensures Emits(n, Receive(m), to)
  {
    var out := OnVoteRequest(n, m);
    var k := if out.actions[0].Send? then 0 else 1;
    if to == m.candidateId {
      SentOnce(out.actions, to, k);
    } else {
      SentNone(out.actions, to);
    }
  }

  lemma EmitsVoteResponse(n: Node, m: Message, to: int)
    requires m.VoteResponse? && Ready(n, Receive(m)) && DistinctPeers(n)
    ensures Emits(n, Receive(m), to)
  {
    if Wins(n, m) {
      EmitsInaugural(n, m, to);
    } else {
      SentNone(OnVoteResponse(n, m).actions, to);
    }
  }

  lemma EmitsInaugural(n: Node, m: Message, to: int)
    requires m.VoteResponse? && Ready(n, Receive(m)) && DistinctPeers(n) && Wins(n, m)
    ensures Emits(n, Receive(m), to)
  {
    var out := OnVoteResponse(n, m);
    var store, tail := [StateStore(Leader, n.term, n.votedFor)], [Alarm(Heartbeat)];
    var q := Inaugural(out.node);
    assert out.actions == store + q + tail;
    SentBetween(store, q, tail, to);
    SentToPeers(q, n.peers, to);
  }

  /** Among the actions of an accepted append request only the success reply is a send. */
  lemma {:induction false} SentByFollower(n: Node, m: Message, to: int)
    requires m.AppendRequest? && Ready(n, Receive(m))
    ensures var out := OnAppendRequestFollower(n, m);
      Sent(out.actions, to) ==
        if to != m.leaderId then []
        else [AppendResponse(out.node.term, n.id, Accepts(n, m), |out.node.log| - 1)]
  {
    if Accepts(n, m) {
      SentOnAccept(n, m, to);
    } else {
      SentOnRefusal(n, m, to);
    }
  }

  lemma {:induction false} SentOnRefusal(n: Node, m: Message, to: int)
    requires m.AppendRequest? && Ready(n, Receive(m)) && !Accepts(n, m)
    ensures var out := OnAppendRequestFollower(n, m);
      Sent(out.actions, to) ==
        if to != m.leaderId then [] else [AppendResponse(out.node.term, n.id, false, |out.node.log| - 1)]
  {
    hide Merge, AcceptActions;
    var out := OnAppendRequestFollower(n, m);
    var reply := Send(m.leaderId, AppendResponse(out.node.term, n.id, false, |out.node.log| - 1));
    var opening := if n.term > m.term then [] else [Alarm(Election), StateStore(n.role, m.term, m.leaderId)];
    assert out.actions == opening + [reply] + [];
    SentBetween(opening, [reply], [], to);
    assert Sent([reply], to) == SentOf(reply, to) + Sent([], to);
  }

  lemma {:induction false} SentOnAccept(n: Node, m: Message, to: int)
    requires m.AppendRequest? && Ready(n, Receive(m)) && Accepts(n, m)
    ensures var out := OnAppendRequestFollower(n, m);
      Sent(out.actions, to) ==
        if to != m.leaderId then [] else [AppendResponse(out.node.term, n.id, true, |out.node.log| - 1)]
  {
    hide MatchEnd, Merge, AcceptActions;
    var out := OnAppendRequestFollower(n, m);
    var n1 := n.(votedFor := m.leaderId, term := m.term);
    var opening := [Alarm(Election), StateStore(n1.role, n1.term, n1.votedFor)];
    SentByAcceptor(n1, out.node, m, to);
    SentBetween(opening, AcceptActions(n1, out.node, m), [], to);
    assert out.actions == opening + AcceptActions(n1, out.node, m) + [];
  }

  lemma {:induction false} SentByAcceptor(n: Node, n': Node, m: Message, to: int)
    requires m.AppendRequest? && 0 <= m.prevLogIndex + 1 <= |n.log|
    requires -1 <= n.commit && (n.commit < n'.commit ==> n'.commit < |n'.log|)
    ensures Sent(AcceptActions(n, n', m), to) ==
      if to != m.leaderId then [] else [AppendResponse(n'.term, n'.id, true, |n'.log| - 1)]
  {
    var start := m.prevLogIndex + 1;
    var e := MatchEnd(n.log, start, m.data, start);
    var reply := Send(m.leaderId, AppendResponse(n'.term, n'.id, true, |n'.log| - 1));
    SentBetween(Stores(e, m.data[e - start..]), [reply], Commits(n'.log, n.commit, n'.commit), to);
    assert Sent([reply], to) == SentOf(reply, to) + Sent([], to);
  }

  lemma EmitsAppendRequest(n: Node, m: Message, to: int)
    requires m.AppendRequest? && Ready(n, Receive(m))
    ensures Emits(n, Receive(m), to)
  {
    var out := OnAppendRequest(n, m);
    if n.role == Follower || n.term > m.term {
      SentByFollower(n, m, to);
    } else {
      SentNone(out.actions, to);
    }
  }

  lemma EmitsAppendResponse(n: Node, m: Message, to: int)
    requires m.AppendResponse? && Ready(n, Receive(m))
    ensures Emits(n, Receive(m), to)
  {
    var out := OnAppendResponse(n, m);
    if n.role == Leader && !m.success && m.term <= n.term {
      if to == m.fromId { SentOnce(out.actions, to, 0); } else { SentNone(out.actions, to); }
    } else {
      SentNone(out.actions, to);
    }
  }

  /** Every handler sends at most one message to any peer, and only what EmitOk allows. */
  lemma HandlerEmits(n: Node, ev: Event, to: int)
    requires Ready(n, ev) && DistinctPeers(n)
    ensures Emits(n, ev, to)
  {
    match ev
    case Client(cmd) => SentNone(Step(n, ev).actions, to);
    case Timeout => if n.role == Leader { EmitsHeartbeat(n, to); } else { EmitsBallots(n, to); }
    case Receive(m) =>
      match m
      case VoteRequest(_, _, _, _) => EmitsVoteRequest(n, m, to);
      case VoteResponse(_, _) => EmitsVoteResponse(n, m, to);
      case AppendRequest(_, _, _, _, _, _) => EmitsAppendRequest(n, m, to);
      case AppendResponse(_, _, _, _) => EmitsAppendResponse(n, m, to);
  }

  /** How a handler may change a node's term, role, vote, log and commit index. */
  predicate Evolves(n: Node, ev: Event, n': Node) {
    && n'.id == n.id && n'.peers == n.peers
    && |n'.nextIndex| == |n.nextIndex| && |n'.matchIndex| == |n.matchIndex|
    && n.term <= n'.term
    && (ev.Client? ==> n'.term == n.term)
    && (n'.role == Candidate && n'.term == n.term ==> n.role == Candidate)
    && (n'.role == Leader ==> n'.term == n.term && (n.role == Leader || WinsBy(n, ev)))
    && (n.role == Leader && n'.term == n.term && n'.role != Leader ==> LedBy(n, ev) && ev.msg.term == n.term)
    && (WinsBy(n, ev) ==> n'.role == Leader)
    && n'.log == LogAfter(n, ev)
    && (if StandsBy(n, ev) then
          n'.votedFor == n.id && n'.term == n.term + 1 && n'.role == Candidate && n'.yes == 1
        else if GrantsBy(n, ev) then
          n'.votedFor == ev.msg.candidateId && n'.term == ev.msg.term && (n.term < n'.term ==> n'.role == Follower)
        else if LedBy(n, ev) then
          n'.votedFor == ev.msg.leaderId && n'.term == ev.msg.term && n'.role == Follower
        else if n'.term == n.term then
          n'.votedFor == n.votedFor && n'.yes == n.yes + (if CountsBy(n, ev) then 1 else 0)
        else
          n'.votedFor == 0 && n'.role == Follower)
  }

  /** The node recognises the sender of an append request as leader of the request's term. */
  predicate LedBy(n: Node, ev: Event) {
    ev.Receive? && ev.msg.AppendRequest? && n.term <= ev.msg.term
  }

  function LogAfter(n: Node, ev: Event): seq<Entry> {
    if ev.Client? && n.role == Leader then n.log + [Entry(n.term, ev.cmd)]
    else if AcceptsBy(n, ev) then Merge(n.log, ev.msg.prevLogIndex + 1, ev.msg.data)
    else n.log
  }

  predicate StandsBy(n: Node, ev: Event) {
    ev == Timeout && n.role != Leader
  }

  predicate GrantsBy(n: Node, ev: Event) {
    ev.Receive? && ev.msg.VoteRequest? && Grants(n, ev.msg)
  }

  predicate CountsBy(n: Node, ev: Event) {
    ev.Receive? && ev.msg.VoteResponse? && Counts(n, ev.msg)
  }

  predicate WinsBy(n: Node, ev: Event) {
    ev.Receive? && ev.msg.VoteResponse? && Wins(n, ev.msg)
  }

  predicate AcceptsBy(n: Node, ev: Event) {
    ev.Receive? && ev.msg.AppendRequest? && -1 <= ev.msg.prevLogIndex && Accepts(n, ev.msg)
  }

  lemma HandlerEvolves(n: Node, ev: Event)
    requires Ready(n, ev)
    ensures Evolves(n, ev, Step(n, ev).node)
  {
    match ev
    case Client(_) =>
    case Timeout =>
    case Receive(m) =>
      match m
      case VoteRequest(_, _, _, _) =>
      case VoteResponse(_, _) =>
      case AppendRequest(_, _, _, _, _, _) => AppendEvolves(n, m);
      case AppendResponse(_, _, _, _) =>
  }

  lemma AppendEvolves(n: Node, m: Message)
    requires m.AppendRequest? && Ready(n, Receive(m))
    ensures Evolves(n, Receive(m), OnAppendRequest(n, m).node)
  {
    var f := n.(role := Follower);
    FollowerEvolves(f, m);
    if n.role != Follower && n.term <= m.term {
      ConvertEvolves(n, f, Receive(m), OnAppendRequestFollower(f, m).node);
    }
  }

  lemma FollowerEvolves(n: Node, m: Message)
    requires m.AppendRequest? && Ready(n, Receive(m)) && n.role == Follower
    ensures Evolves(n, Receive(m), OnAppendRequestFollower(n, m).node)
  {
    hide Merge, MatchEnd;
  }

  /** A leader or candidate that recognises another leader changes as a follower would. */
  lemma ConvertEvolves(n: Node, f: Node, ev: Event, n': Node)
    requires f == n.(role := Follower) && LedBy(n, ev) && Evolves(f, ev, n')
    ensures Evolves(n, ev, n')
  {}

  // ----- match and commit indices

  /** A leader notes what a success reply acknowledges, and starts from nothing when elected. */
  predicate MatchChange(n: Node, ev: Event, n': Node) {
    if WinsBy(n, ev) then
      forall i :: 0 <= i < |n'.matchIndex| ==> n'.matchIndex[i] == -1
    else if n.role == Leader && ev.Receive? && ev.msg.AppendResponse? && ev.msg.success then
      exists i :: 0 <= i < |n.peers| && i < |n.matchIndex| && n.peers[i] == ev.msg.fromId
        && n'.matchIndex == n.matchIndex[i := ev.msg.index]
    else
      n'.matchIndex == n.matchIndex
  }

  /** A follower commits what its leader announces, a leader what its match indices support. */
  predicate CommitChange(n: Node, ev: Event, n': Node) {
    if AcceptsBy(n, ev) then
      n'.commit == if ev.msg.leaderCommit > n.commit then Min(ev.msg.leaderCommit, |n'.log| - 1) else n.commit
    else
      n'.commit == n.commit || (n.commit < n'.commit && Supported(n'))
  }

  /** A leader's commit index is an acknowledged entry of its own term with enough copies. */
  predicate Supported(n: Node) {
    && n.role == Leader
    && 0 <= n.commit < |n.log|
    && n.log[n.commit].term == n.term
    && n.commit in n.matchIndex
    && 1 + Copies(n.matchIndex, n.commit) >= Quota(n)
  }

  predicate Advances(n: Node, ev: Event, n': Node) {
    MatchChange(n, ev, n') && CommitChange(n, ev, n')
  }

  lemma HandlerAdvances(n: Node, ev: Event)
    requires Ready(n, ev)
    ensures Advances(n, ev, Step(n, ev).node)
  {
    match ev
    case Client(_) =>
    case Timeout =>
    case Receive(m) =>
      match m
      case VoteRequest(_, _, _, _) =>
      case VoteResponse(_, _) =>
      case AppendRequest(_, _, _, _, _, _) =>
      case AppendResponse(_, _, _, _) => ResponseAdvances(n, m);
  }

  lemma ResponseAdvances(n: Node, m: Message)
    requires m.AppendResponse? && Ready(n, Receive(m))
    ensures Advances(n, Receive(m), OnAppendResponse(n, m).node)
  {
    if n.role == Leader && m.success {
      var i := PeerIndex(n.peers, m.fromId);
      var n1 := n.(nextIndex := n.nextIndex[i := m.index + 1], matchIndex := n.matchIndex[i := m.index]);
      var best := Scan(n1, |n1.peers|);
      if best != -1 {
        var j :| 0 <= j < |n1.peers| && Committable(n1, j) && n1.matchIndex[j] == best;
        assert n1.matchIndex[j] in n1.matchIndex;
      }
    }
  }

  // ----- one move as a change of state and history

  /** History after node `n` handles `ev` from `src`, field by field. */
  ghost function BallotsAfter(h: History, n: Node, ev: Event): map<(int, int), Ballot> {
    if StandsBy(n, ev) then h.ballots[(n.term + 1, n.id) := Ballot(n.id, n.log)]
    else if GrantsBy(n, ev) then h.ballots[(ev.msg.term, n.id) := Ballot(ev.msg.candidateId, n.log)]
    else h.ballots
  }

  ghost function TallyAfter(h: History, n: Node, src: int, ev: Event): map<int, set<int>> {
    if StandsBy(n, ev) then h.tally[n.id := {n.id}]
    else if CountsBy(n, ev) then h.tally[n.id := Tally(h, n.id) + {src}]
    else h.tally
  }

  predicate ExtendsBy(h: History, n: Node, ev: Event) {
    ev.Client? && n.role == Leader && n.term in h.reigns
  }

  ghost function ReignsAfter(h: History, n: Node, src: int, ev: Event): map<int, Reign> {
    if WinsBy(n, ev) then h.reigns[n.term := Reign(n.id, |n.log|, n.log, Tally(h, n.id) + {src})]
    else if ExtendsBy(h, n, ev) then
      h.reigns[n.term := h.reigns[n.term].(log := n.log + [Entry(n.term, ev.cmd)])]
    else h.reigns
  }

  ghost function AccAfter(h: History, n: Node, ev: Event): map<(int, int), nat> {
    if WinsBy(n, ev) then h.acc[(n.term, n.id) := |n.log|]
    else if ExtendsBy(h, n, ev) then h.acc[(n.term, n.id) := |n.log| + 1]
    else if AcceptsBy(n, ev) then h.acc[(ev.msg.term, n.id) := End(ev.msg)]
    else h.acc
  }

  ghost function Source(mv: Move): int {
    if mv.Deliver? then mv.src else 0
  }

  /** `s'` and `h'` are what the move makes of `s` and `h`. */
  ghost predicate Effect(s: Cluster, h: History, mv: Move, s': Cluster, h': History) {
    && Possible(s, mv, false)
    && s'.nodes.Keys == s.nodes.Keys
    && s'.net.Keys == s.net.Keys
    && LinkEffect(s, mv, s')
    && if mv.Lose? then s'.nodes == s.nodes && h' == h
       else NodeEffect(s, h, Actor(mv), Source(mv), EventOf(s, mv), s', h')
  }

  ghost predicate NodeEffect(s: Cluster, h: History, v: int, src: int, ev: Event, s': Cluster, h': History) {
    && v in s.nodes && v in s'.nodes && s'.nodes == s.nodes[v := s'.nodes[v]]
    && Evolves(s.nodes[v], ev, s'.nodes[v])
    && h'.ballots == BallotsAfter(h, s.nodes[v], ev)
    && h'.tally == TallyAfter(h, s.nodes[v], src, ev)
    && h'.reigns == ReignsAfter(h, s.nodes[v], src, ev)
    && h'.acc == AccAfter(h, s.nodes[v], ev)
  }

  /** The match and commit indices after the move. */
  ghost predicate Ledger(s: Cluster, mv: Move, s': Cluster)
    requires Possible(s, mv, false)
  {
    if mv.Lose? then s'.nodes == s.nodes
    else Actor(mv) in s'.nodes && Advances(s.nodes[Actor(mv)], EventOf(s, mv), s'.nodes[Actor(mv)])
  }

  lemma MoveLedger(s: Cluster, mv: Move)
    requires Possible(s, mv, false) && Smooth(s, mv)
    ensures Ledger(s, mv, Apply(s, mv))
  {
    if !mv.Lose? { HandlerAdvances(s.nodes[Actor(mv)], EventOf(s, mv)); }
  }

  ghost predicate LinkEffect(s: Cluster, mv: Move, s': Cluster)
    requires Possible(s, mv, false) && s'.nodes.Keys == s.nodes.Keys
  {
    forall x, y :: x in s.nodes && y in s.nodes ==> Relinked(s, mv, s', x, y)
  }

  /** The link after the move: what the move left of it, then at most one message its actor sent. */
  ghost predicate Relinked(s: Cluster, mv: Move, s': Cluster, x: int, y: int)
    requires Possible(s, mv, false) && s'.nodes.Keys == s.nodes.Keys && x in s.nodes && y in s.nodes
  {
    var q := Link(s', x, y);
    || q == Rest(s, mv, x, y)
    || (|q| > 0 && q == Rest(s, mv, x, y) + [q[|q| - 1]] && SentBy(s, mv, s', x, y, q[|q| - 1]))
  }

  ghost predicate SentBy(s: Cluster, mv: Move, s': Cluster, x: int, y: int, m: Message)
    requires Possible(s, mv, false) && x in s.nodes && x in s'.nodes
  {
    !mv.Lose? && x == Actor(mv) && EmitOk(s.nodes[x], EventOf(s, mv), s'.nodes[x], y, m)
  }

  lemma LinkChanges(s: Cluster, mv: Move)
    requires ConfigOk(s) && Possible(s, mv, false) && Smooth(s, mv)
    ensures Apply(s, mv).nodes.Keys == s.nodes.Keys && LinkEffect(s, mv, Apply(s, mv))
  {
    hide Step, Relinked, Sent;
    forall x, y | x in s.nodes && y in s.nodes ensures Relinked(s, mv, Apply(s, mv), x, y) {
      LinkChange(s, mv, x, y);
    }
  }

  lemma LinkChange(s: Cluster, mv: Move, x: int, y: int)
    requires ConfigOk(s) && Possible(s, mv, false) && Smooth(s, mv) && x in s.nodes && y in s.nodes
    ensures Apply(s, mv).nodes.Keys == s.nodes.Keys && Relinked(s, mv, Apply(s, mv), x, y)
  {
    hide EmitOk, Rest, Sent, ConfigOk;
    AddedIsSent(s, mv, x, y);
    hide Step, Added;
    LinkAfter(s, mv, x, y);
    assert Rest(s, mv, x, y) + [] == Rest(s, mv, x, y);
  }

  lemma AddedIsSent(s: Cluster, mv: Move, x: int, y: int)
    requires ConfigOk(s) && Possible(s, mv, false) && Smooth(s, mv) && x in s.nodes && y in s.nodes
    ensures var q := Added(s, mv, x, y);
      q == [] || (|q| == 1 && SentBy(s, mv, Apply(s, mv), x, y, q[0]))
  {
    hide EmitOk, Step, Sent;
    if !mv.Lose? && x == Actor(mv) {
      HandlerEmits(s.nodes[x], EventOf(s, mv), y);
    }
  }

  lemma RecordFields(h: History, n: Node, src: int, ev: Event)
    requires Ready(n, ev)
    ensures var h' := Record(h, n, src, ev);
      && h'.ballots == BallotsAfter(h, n, ev)
      && h'.tally == TallyAfter(h, n, src, ev)
      && h'.reigns == ReignsAfter(h, n, src, ev)
      && h'.acc == AccAfter(h, n, ev)
  {
    match ev
    case Client(_) =>
    case Timeout =>
    case Receive(m) =>
      match m
      case VoteRequest(_, _, _, _) =>
      case VoteResponse(_, _) =>
      case AppendRequest(_, _, _, _, _, _) =>
      case AppendResponse(_, _, _, _) =>
  }

  lemma NodeChanges(s: Cluster, h: History, mv: Move)
    requires ConfigOk(s) && Possible(s, mv, false) && Smooth(s, mv) && !mv.Lose?
    ensures NodeEffect(s, h, Actor(mv), Source(mv), EventOf(s, mv), Apply(s, mv), RecordMove(h, s, mv))
  {
    var n, ev := s.nodes[Actor(mv)], EventOf(s, mv);
    HandlerEvolves(n, ev);
    RecordFields(h, n, Source(mv), ev);
  }

  lemma MoveEffect(s: Cluster, h: History, mv: Move)
    requires ConfigOk(s) && Possible(s, mv, false) && Smooth(s, mv)
    ensures Effect(s, h, mv, Apply(s, mv), RecordMove(h, s, mv))
  {
    LinkChanges(s, mv);
    if !mv.Lose? { NodeChanges(s, h, mv); }
  }

  // ----- one message on one link

  /** A message waiting after the move was waiting before it, or was sent by the actor. */
  lemma Arrival(s: Cluster, mv: Move, s': Cluster, x: int, y: int, m: Message)
    requires Possible(s, mv, false) && s'.nodes.Keys == s.nodes.Keys && LinkEffect(s, mv, s')
    requires x in s.nodes && y in s.nodes && m in Link(s', x, y)
    ensures m in Rest(s, mv, x, y) || SentBy(s, mv, s', x, y, m)
    ensures m in Rest(s, mv, x, y) ==> m in Link(s, x, y)
  {
    assert Relinked(s, mv, s', x, y);
  }

  /** What remains of a link after its head is taken could follow that head. */
  lemma AfterHead(s: Cluster, a: int, b: int, m: Message)
    requires Possible(s, Deliver(a, b), false) && Ordered(Link(s, a, b))
    requires m in Rest(s, Deliver(a, b), a, b)
    ensures Before(Link(s, a, b)[0], m)
  {
    var q := Link(s, a, b);
    var j :| 0 <= j < |q[1..]| && q[1..][j] == m;
    assert q[j + 1] == m;
  }

  lemma HeadWaits(s: Cluster, a: int, b: int)
    requires Possible(s, Deliver(a, b), false)
    ensures Link(s, a, b)[0] in Link(s, a, b)
  {}
}
