/** What each handler of the state machine computes, as a function from the node before and
    the event to the node after and the actions. The class StateMachine implements these
    functions with the loops and assignments of the source; the protocol proofs use them. */
module NodeStep {
  import opened Commands
  import opened RaftTypes

  /** `len(peer)/2 + 1`, the number of votes or copies the code asks for. */
  function Quota(n: Node): int {
    |n.peers| / 2 + 1
  }

  /** There is one next index and one match index for each peer. */
  predicate OnePerPeer(n: Node) {
    |n.nextIndex| == |n.peers| && |n.matchIndex| == |n.peers|
  }

  /** A leader can send each peer its log from that peer's next index on. */
  predicate NextInRange(n: Node) {
    OnePerPeer(n) && (n.role == Leader ==> forall i :: 0 <= i < |n.peers| ==> 0 <= n.nextIndex[i] <= |n.log|)
  }

  /** The entries that a leader's scan looks at are in its log. */
  predicate MatchInRange(n: Node) {
    && OnePerPeer(n)
    && (n.role == Leader ==>
          forall i :: 0 <= i < |n.peers| && n.matchIndex[i] > n.commit ==> n.matchIndex[i] < |n.log|)
  }

  /** Every index a leader keeps for its peers points into its log. */
  predicate IndicesInRange(n: Node) {
    && OnePerPeer(n)
    && (n.role == Leader ==>
          forall i :: 0 <= i < |n.peers| ==>
            && 0 <= n.nextIndex[i] <= |n.log|
            && -1 <= n.matchIndex[i] < |n.log|)
  }

  /** The slice and index expressions of the handler for `ev` are all in range. */
  predicate Ready(n: Node, ev: Event) {
    && OnePerPeer(n)
    && -1 <= n.commit
    && match ev
       case Timeout => NextInRange(n)
       case Receive(AppendRequest(_, _, prev, _, _, _)) => -1 <= prev
       case Receive(AppendResponse(term, from, success, index)) =>
         n.role == Leader && (success || term <= n.term) ==>
           && from in n.peers
           && (if success then MatchInRange(n) && -1 <= index && (index > n.commit ==> index < |n.log|)
               else n.nextIndex[PeerIndex(n.peers, from)] <= |n.log| + 1)
       case _ => true
  }

  // ----- client appends (assign4/Append.go)

  function OnAppend(n: Node, cmd: Msg): Outcome {
    if n.role == Leader then
      var entry := Entry(n.term, cmd);
      Outcome(n.(log := n.log + [entry]), [LogStore(|n.log|, entry)])
    else
      Outcome(n, [Commit(-1, cmd, true)])
  }

  // ----- timeouts (assign4/Timeout.go)

  /** The append request a leader sends to peer `i`: its log from `nextIndex[i]` to the end. */
  function RequestFor(n: Node, i: nat): Message
    requires i < |n.nextIndex| && 0 <= n.nextIndex[i] <= |n.log|
  {
    var next := n.nextIndex[i];
    AppendRequest(n.term, n.id, next - 1, if next == 0 then 0 else n.log[next - 1].term,
                  n.log[next..], n.commit)
  }

  function Heartbeats(n: Node): (acts: seq<Action>)
    requires n.role == Leader && NextInRange(n)
    ensures |acts| == |n.peers|
    ensures forall i :: 0 <= i < |acts| ==> acts[i] == Send(n.peers[i], RequestFor(n, i))
  {
    seq(|n.peers|, i requires 0 <= i < |n.peers| => Send(n.peers[i], RequestFor(n, i)))
  }

  function Ballots(n: Node): (acts: seq<Action>)
    ensures |acts| == |n.peers|
    ensures forall i :: 0 <= i < |acts| ==>
      acts[i] == Send(n.peers[i], VoteRequest(n.term, n.id, |n.log| - 1, LastTerm(n.log)))
  {
    seq(|n.peers|, i requires 0 <= i < |n.peers| =>
      Send(n.peers[i], VoteRequest(n.term, n.id, |n.log| - 1, LastTerm(n.log))))
  }

  function OnTimeout(n: Node): Outcome
    requires NextInRange(n)
  {
    if n.role == Leader then
      Outcome(n, [Alarm(Heartbeat)] + Heartbeats(n))
    else
      var n' := n.(role := Candidate, term := n.term + 1, votedFor := n.id, yes := 1, no := 0);
      Outcome(n', [StateStore(Candidate, n'.term, n'.votedFor), Alarm(Election)] + Ballots(n'))
  }

  // ----- vote requests (assign4/VoteRequest.go)

  /** The requester's log is at least as up to date as `log`. */
  predicate UpToDate(lastTerm: int, lastIndex: int, log: seq<Entry>) {
    || LastTerm(log) < lastTerm
    || (LastTerm(log) == lastTerm && |log| - 1 <= lastIndex)
  }

  /** The handler compares logs, rather than refusing outright. */
  predicate Considers(n: Node, m: Message)
    requires m.VoteRequest?
  {
    || n.term < m.term
    || (n.role == Follower && n.term == m.term && (n.votedFor == 0 || n.votedFor == m.candidateId))
  }

  predicate Grants(n: Node, m: Message)
    requires m.VoteRequest?
  {
    Considers(n, m) && UpToDate(m.lastLogTerm, m.lastLogIndex, n.log)
  }

  function OnVoteRequest(n: Node, m: Message): Outcome
    requires m.VoteRequest?
  {
    var newer := n.term < m.term;
    var n1 := if newer then n.(role := Follower, term := m.term, votedFor := 0) else n;
    var n2 := if Grants(n, m) then n1.(votedFor := m.candidateId) else n1;
    var answer := Send(m.candidateId, VoteResponse(n2.term, Grants(n, m)));
    var alarm := if Considers(n, m) && (n.role != Follower || Grants(n, m)) then [Alarm(Election)] else [];
    var store := if newer then [StateStore(n2.role, n2.term, n2.votedFor)] else [];
    Outcome(n2, alarm + [answer] + store)
  }

  // ----- vote responses (assign4/VoteResponse.go)

  /** The response is counted as a vote for the node's own candidacy. */
  predicate Counts(n: Node, m: Message)
    requires m.VoteResponse?
  {
    n.role == Candidate && n.term <= m.term && m.granted
  }

  predicate Wins(n: Node, m: Message)
    requires m.VoteResponse?
  {
    Counts(n, m) && n.yes + 1 >= Quota(n)
  }

  function Inaugural(n: Node): (acts: seq<Action>)
    ensures |acts| == |n.peers|
    ensures forall i :: 0 <= i < |acts| ==>
      acts[i] == Send(n.peers[i], AppendRequest(n.term, n.id, |n.log| - 1, LastTerm(n.log), [], n.commit))
  {
    seq(|n.peers|, i requires 0 <= i < |n.peers| =>
      Send(n.peers[i], AppendRequest(n.term, n.id, |n.log| - 1, LastTerm(n.log), [], n.commit)))
  }

  function OnVoteResponse(n: Node, m: Message): Outcome
    requires m.VoteResponse?
  {
    match n.role
    case Leader => Outcome(n, [])
    case Follower =>
      if m.term > n.term then
        var n' := n.(term := m.term, votedFor := 0);
        Outcome(n', [StateStore(Follower, n'.term, 0)])
      else
        Outcome(n, [])
    case Candidate =>
      if m.term < n.term then
        Outcome(n, [])
      else if m.granted then
        var n1 := n.(yes := n.yes + 1);
        if n1.yes >= Quota(n) then
          var n' := n1.(role := Leader,
                        matchIndex := seq(|n.peers|, i => -1),
                        nextIndex := seq(|n.peers|, i => |n.log|));
          Outcome(n', [StateStore(Leader, n.term, n.votedFor)] + Inaugural(n') + [Alarm(Heartbeat)])
        else
          Outcome(n1, [])
      else if m.term > n.term then
        var n' := n.(role := Follower, term := m.term, votedFor := 0);
        Outcome(n', [Alarm(Election), StateStore(Follower, n'.term, 0)])
      else
        var n1 := n.(no := n.no + 1);
        if n1.no >= Quota(n) then
          Outcome(n1.(role := Follower), [Alarm(Election), StateStore(Follower, n.term, n.votedFor)])
        else
          Outcome(n1, [])
  }

  // ----- append requests (assign4/AppendEntriesRequest.go)

  /** The log holds an entry at `prevLogIndex` whose term is `prevLogTerm`, or nothing precedes the data. */
  predicate PrevMatches(log: seq<Entry>, m: Message)
    requires m.AppendRequest? && -1 <= m.prevLogIndex
  {
    m.prevLogIndex == -1 || (m.prevLogIndex < |log| && log[m.prevLogIndex].term == m.prevLogTerm)
  }

  predicate Accepts(n: Node, m: Message)
    requires m.AppendRequest? && -1 <= m.prevLogIndex
  {
    n.term <= m.term && PrevMatches(n.log, m)
  }

  /** First index at or after `i` where the log stops agreeing in term with the data placed at `start`. */
  function MatchEnd(log: seq<Entry>, start: nat, data: seq<Entry>, i: nat): (e: nat)
    requires start <= i <= start + |data|
    ensures i <= e <= start + |data|
    ensures i <= |log| ==> e <= |log|
    ensures forall j :: i <= j < e ==> j < |log| && log[j].term == data[j - start].term
    ensures e < start + |data| && e < |log| ==> log[e].term != data[e - start].term
    ensures e < start + |data| ==> e <= |log| || e == i
    decreases start + |data| - i
  {
    if i < start + |data| && i < |log| && log[i].term == data[i - start].term
    then MatchEnd(log, start, data, i + 1)
    else i
  }

  /** The merge of assign4/AppendEntriesRequest.go:76-89: keep the matching entries, cut, append the rest. */
  function Merge(log: seq<Entry>, start: nat, data: seq<Entry>): seq<Entry>
    requires start <= |log|
  {
    var e := MatchEnd(log, start, data, start);
    log[..e] + data[e - start..]
  }

  /** LogStore actions for `data`, whose first element goes to index `from`. */
  function Stores(from: int, data: seq<Entry>): (acts: seq<Action>)
    ensures |acts| == |data|
    ensures forall i :: 0 <= i < |acts| ==> acts[i] == LogStore(from + i, data[i])
  {
    seq(|data|, i requires 0 <= i < |data| => LogStore(from + i, data[i]))
  }

  /** Commit actions for the indices after `from` up to `to`. */
  function Commits(log: seq<Entry>, from: int, to: int): (acts: seq<Action>)
    requires -1 <= from && (from < to ==> to < |log|)
    ensures |acts| == if from < to then to - from else 0
    ensures forall i :: 0 <= i < |acts| ==> acts[i] == Commit(from + 1 + i, log[from + 1 + i].cmd, false)
  {
    if from < to then
      seq(to - from, i requires 0 <= i < to - from => Commit(from + 1 + i, log[from + 1 + i].cmd, false))
    else
      []
  }

  /** Where a follower moves its commit index when its leader announces `leaderCommit`. */
  function FollowedCommit(n: Node, leaderCommit: int): int {
    if leaderCommit > n.commit then Min(leaderCommit, |n.log| - 1) else n.commit
  }

  /** The stores, the success reply and the commits of an accepted request that turns `n` into `n'`. */
  function AcceptActions(n: Node, n': Node, m: Message): seq<Action>
    requires m.AppendRequest? && 0 <= m.prevLogIndex + 1 <= |n.log|
    requires -1 <= n.commit && (n.commit < n'.commit ==> n'.commit < |n'.log|)
  {
    var start := m.prevLogIndex + 1;
    var e := MatchEnd(n.log, start, m.data, start);
    Stores(e, m.data[e - start..])
    + [Send(m.leaderId, AppendResponse(n'.term, n'.id, true, |n'.log| - 1))]
    + Commits(n'.log, n.commit, n'.commit)
  }

  /** The answer of a follower `n` that has taken on the request's term and leader. */
  function Follow(n: Node, m: Message): Outcome
    requires m.AppendRequest? && -1 <= m.prevLogIndex && -1 <= n.commit
  {
    var opening := [Alarm(Election), StateStore(n.role, n.term, n.votedFor)];
    if !PrevMatches(n.log, m) then
      Outcome(n, opening + [Send(m.leaderId, AppendResponse(n.term, n.id, false, |n.log| - 1))])
    else
      var n1 := n.(log := Merge(n.log, m.prevLogIndex + 1, m.data));
      var n2 := n1.(commit := FollowedCommit(n1, m.leaderCommit));
      Outcome(n2, opening + AcceptActions(n, n2, m))
  }

  function OnAppendRequestFollower(n: Node, m: Message): Outcome
    requires m.AppendRequest? && -1 <= m.prevLogIndex && -1 <= n.commit
  {
    if n.term > m.term then
      Outcome(n, [Send(m.leaderId, AppendResponse(n.term, n.id, false, |n.log| - 1))])
    else
      Follow(n.(votedFor := m.leaderId, term := m.term), m)
  }

  function OnAppendRequest(n: Node, m: Message): Outcome
    requires m.AppendRequest? && -1 <= m.prevLogIndex
    requires -1 <= n.commit
  {
    if n.role == Follower || n.term > m.term then
      OnAppendRequestFollower(n, m)
    else
      var out := OnAppendRequestFollower(n.(role := Follower), m);
      Outcome(out.node, [Nested(out.actions)])
  }

  // ----- append responses (assign4/AppendEntriesResponse.go)

  /** How many peers acknowledged index `at` or beyond. */
  function Copies(matchIndex: seq<int>, at: int): (c: nat)
    ensures c <= |matchIndex|
  {
    if matchIndex == [] then 0
    else Copies(matchIndex[..|matchIndex| - 1], at) + (if matchIndex[|matchIndex| - 1] >= at then 1 else 0)
  }

  /** The scan may commit up to `matchIndex[i]`. */
  predicate Committable(n: Node, i: nat)
    requires n.role == Leader && MatchInRange(n) && -1 <= n.commit && i < |n.peers|
  {
    && n.matchIndex[i] > n.commit
    && n.log[n.matchIndex[i]].term == n.term
    && 1 + Copies(n.matchIndex, n.matchIndex[i]) >= Quota(n)
  }

  /** Largest committable match index among the first `k` peers, or -1. */
  function Scan(n: Node, k: nat): (best: int)
    requires n.role == Leader && MatchInRange(n) && -1 <= n.commit && k <= |n.peers|
    ensures -1 <= best < |n.log|
    ensures forall i :: 0 <= i < k && Committable(n, i) ==> n.matchIndex[i] <= best
    ensures best != -1 ==> exists i :: 0 <= i < k && Committable(n, i) && n.matchIndex[i] == best
  {
    if k == 0 then -1
    else
      var best := Scan(n, k - 1);
      if n.matchIndex[k - 1] > best && Committable(n, k - 1) then n.matchIndex[k - 1] else best
  }

  function PeerIndex(peers: seq<int>, id: int): (i: nat)
    ensures i <= |peers| && (i < |peers| ==> peers[i] == id)
    ensures forall j :: 0 <= j < i ==> peers[j] != id
    ensures id in peers ==> i < |peers|
  {
    if peers == [] || peers[0] == id then 0 else 1 + PeerIndex(peers[1..], id)
  }

  function OnAppendResponse(n: Node, m: Message): Outcome
    requires m.AppendResponse? && Ready(n, Receive(m))
  {
    if n.role != Leader then
      if m.term > n.term then
        Outcome(n.(term := m.term, role := Follower, votedFor := 0), [])
      else
        Outcome(n, [])
    else if !m.success then
      if n.term < m.term then
        var n' := n.(role := Follower, term := m.term, votedFor := 0);
        Outcome(n', [Alarm(Election), StateStore(Follower, n'.term, 0)])
      else
        var i := PeerIndex(n.peers, m.fromId);
        var n' := n.(nextIndex := n.nextIndex[i := Max(0, n.nextIndex[i] - 1)]);
        Outcome(n', [Send(m.fromId, RequestFor(n', i))])
    else
      var i := PeerIndex(n.peers, m.fromId);
      var n1 := n.(nextIndex := n.nextIndex[i := m.index + 1], matchIndex := n.matchIndex[i := m.index]);
      var best := Scan(n1, |n1.peers|);
      if best == -1 then
        Outcome(n1, [])
      else
        Outcome(n1.(commit := best), Commits(n.log, n.commit, best))
  }

  // ----- dispatch (assign4/state.go:35-68)

  function Step(n: Node, ev: Event): Outcome
    requires Ready(n, ev)
  {
    match ev
    case Client(cmd) => OnAppend(n, cmd)
    case Timeout => OnTimeout(n)
    case Receive(m) =>
      match m
      case VoteRequest(_, _, _, _) => OnVoteRequest(n, m)
      case VoteResponse(_, _) => OnVoteResponse(n, m)
      case AppendRequest(_, _, _, _, _, _) => OnAppendRequest(n, m)
      case AppendResponse(_, _, _, _) => OnAppendResponse(n, m)
  }
}
