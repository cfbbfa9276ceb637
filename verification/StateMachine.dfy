/** The state machine object of assign4/state.go and its handlers, in the source's own form:
    fields updated in place and actions collected in loops. Every method is proved to compute the
    corresponding function of NodeStep. */
module StateMachineClass {
  import opened Commands
  import opened RaftTypes
  import opened NodeStep
  import opened ClusterModel

  class StateMachine {
    const myId: int
    const peer: seq<int>
    var state: Role
    var currentTerm: int
    var votedFor: int
    var log: seq<Entry>
    var logCurrentIndex: int
    var logCommitIndex: int
    const nextIndex: array<int>
    const matchIndex: array<int>
    var yesVotesNum: int
    var noVotesNum: int

    /** In particular `logCurrentIndex` is always the index of the last entry. */
    ghost predicate Valid()
      reads this
    {
      && nextIndex != matchIndex
      && nextIndex.Length == |peer| && matchIndex.Length == |peer|
      && logCurrentIndex == |log| - 1
    }

    ghost function Value(): Node
      reads this, nextIndex, matchIndex
    {
      Node(myId, peer, state, currentTerm, votedFor, log, logCommitIndex,
           nextIndex[..], matchIndex[..], yesVotesNum, noVotesNum)
    }

    /** InitializeStateMachine (assign4/RaftNode.go:77-128), with the line read from the state file and the
        entries of the log file. */
    constructor (id: int, cluster: seq<int>, data: SMState, entries: seq<Entry>)
      requires id in cluster && forall i, j :: 0 <= i < j < |cluster| ==> cluster[i] != cluster[j]
      ensures Valid() && fresh(nextIndex) && fresh(matchIndex)
      ensures PeersOf(peer, id, set x | x in cluster) && Value() == Initialized(id, peer, data, entries)
    {
      myId := id;
      var others: seq<int> := [];
      var i := 0;
      while i < |cluster|
        invariant 0 <= i <= |cluster|
        invariant forall x :: x in others <==> x in cluster[..i] && x != id
        invariant forall j, k :: 0 <= j < k < |others| ==> others[j] != others[k]
      {
        assert cluster[i] !in cluster[..i];
        if cluster[i] != id {
          others := others + [cluster[i]];
        }
        i := i + 1;
      }
      peer := others;
      state := data.state;
      currentTerm := data.currentTerm;
      votedFor := data.votedFor;
      log := entries;
      logCurrentIndex := |entries| - 1;
      logCommitIndex := -1;
      nextIndex := new int[|others|](_ => |entries|);
      matchIndex := new int[|others|](_ => -1);
      yesVotesNum, noVotesNum := 0, 0;
      new;
      PeersCounted(others, id, set x | x in cluster);
      assert nextIndex[..] == seq(|peer|, i => |entries|);
      assert matchIndex[..] == seq(|peer|, i => -1);
    }

    /** assign4/state.go:35-68 */
    method ProcessEvent(ev: Event) returns (action: seq<Action>)
      requires Valid() && Ready(Value(), ev)
      modifies this, nextIndex, matchIndex
      ensures Valid()
      ensures Value() == Step(old(Value()), ev).node && action == Step(old(Value()), ev).actions
    {
      match ev
      case Client(cmd) => action := Append(cmd);
      case Timeout => action := Timeout();
      case Receive(m) =>
        match m {
          case AppendRequest(_, _, _, _, _, _) => action := AppendEntriesRequest(m);
          case AppendResponse(_, _, _, _) => action := AppendEntriesResponse(m);
          case VoteRequest(_, _, _, _) => action := OnVoteRequest(m);
          case VoteResponse(_, _) => action := OnVoteResponse(m);
        }
    }

    // ----- assign4/Append.go

    method Append(cmd: Msg) returns (action: seq<Action>)
      requires Valid()
      modifies this
      ensures Valid()
      ensures Value() == OnAppend(old(Value()), cmd).node && action == OnAppend(old(Value()), cmd).actions
    {
      if state == Leader {
        logCurrentIndex := logCurrentIndex + 1;
        var temp := Entry(currentTerm, cmd);
        log := log + [temp];
        action := [LogStore(logCurrentIndex, temp)];
      } else {
        action := [Commit(-1, cmd, true)];
      }
    }

    // ----- assign4/Timeout.go

    method Timeout() returns (action: seq<Action>)
      requires Valid() && Ready(Value(), Event.Timeout)
      modifies this
      ensures Valid()
      ensures Value() == OnTimeout(old(Value())).node && action == OnTimeout(old(Value())).actions
    {
      if state == Leader {
        action := TimeoutLeader();
      } else {
        action := StartElection();
      }
    }

    method TimeoutLeader() returns (action: seq<Action>)
      requires Valid() && state == Leader && NextInRange(Value())
      ensures action == [Alarm(Heartbeat)] + Heartbeats(Value())
    {
      action := [Alarm(Heartbeat)];
      var i := 0;
      while i < |peer|
        invariant 0 <= i <= |peer|
        invariant action == [Alarm(Heartbeat)] + Heartbeats(Value())[..i]
      {
        var next := nextIndex[i];
        var prevTerm := if next == 0 then 0 else log[next - 1].term;
        var request := AppendRequest(currentTerm, myId, next - 1, prevTerm, log[next..], logCommitIndex);
        action := action + [Send(peer[i], request)];
        i := i + 1;
      }
    }

    /** TimeoutFollower and TimeoutCandidate: a candidate is already in state CANDIDATE. */
    method StartElection() returns (action: seq<Action>)
      requires Valid() && state != Leader
      modifies this
      ensures Valid()
      ensures Value() == OnTimeout(old(Value())).node && action == OnTimeout(old(Value())).actions
    {
      hide OnTimeout;
      StandsFor(Value());
      currentTerm := currentTerm + 1;
      state := Candidate;
      votedFor := myId;
      action := [StateStore(state, currentTerm, votedFor)];
      yesVotesNum, noVotesNum := 1, 0;
      action := action + [Alarm(Election)];
      ghost var opening, n := action, Value();
      var i := 0;
      while i < |peer|
        invariant 0 <= i <= |peer| && Valid() && Value() == n
        invariant action == opening + Ballots(n)[..i]
      {
        var lastLogTerm := if logCurrentIndex == -1 then 0 else log[logCurrentIndex].term;
        action := action + [Send(peer[i], VoteRequest(currentTerm, myId, logCurrentIndex, lastLogTerm))];
        assert Ballots(n)[..i + 1] == Ballots(n)[..i] + [Ballots(n)[i]];
        i := i + 1;
      }
      assert Ballots(n)[..|peer|] == Ballots(n);
    }

    // ----- assign4/VoteRequest.go

    method OnVoteRequest(m: Message) returns (action: seq<Action>)
      requires Valid() && m.VoteRequest?
      modifies this
      ensures Valid()
      ensures Value() == NodeStep.OnVoteRequest(old(Value()), m).node
      ensures action == NodeStep.OnVoteRequest(old(Value()), m).actions
    {
      if state == Follower {
        action := VoteRequestFollower(m);
      } else {
        action := VoteRequestLeaderorCandidate(m);
      }
    }

    method LastLogTerm() returns (term: int)
      requires Valid()
      ensures term == LastTerm(log)
    {
      if logCurrentIndex == -1 {
        term := 0;
      } else {
        term := log[logCurrentIndex].term;
      }
    }

    method VoteRequestLeaderorCandidate(m: Message) returns (action: seq<Action>)
      requires Valid() && m.VoteRequest? && state != Follower
      modifies this
      ensures Valid()
      ensures Value() == NodeStep.OnVoteRequest(old(Value()), m).node
      ensures action == NodeStep.OnVoteRequest(old(Value()), m).actions
    {
      if currentTerm < m.term {
        currentTerm := m.term;
        state := Follower;
        votedFor := 0;
        var lastLogTerm := LastLogTerm();
        action := [Alarm(Election)];
        if lastLogTerm < m.lastLogTerm || (lastLogTerm == m.lastLogTerm && logCurrentIndex <= m.lastLogIndex) {
          votedFor := m.candidateId;
          action := action + [Send(m.candidateId, VoteResponse(currentTerm, true))];
        } else {
          action := action + [Send(m.candidateId, VoteResponse(currentTerm, false))];
        }
        action := action + [StateStore(state, currentTerm, votedFor)];
      } else {
        action := [Send(m.candidateId, VoteResponse(currentTerm, false))];
      }
    }

    method VoteRequestFollower(m: Message) returns (action: seq<Action>)
      requires Valid() && m.VoteRequest? && state == Follower
      modifies this
      ensures Valid()
      ensures Value() == NodeStep.OnVoteRequest(old(Value()), m).node
      ensures action == NodeStep.OnVoteRequest(old(Value()), m).actions
    {
      action := [];
      var flag := false;
      if (currentTerm == m.term && (votedFor == 0 || votedFor == m.candidateId)) || currentTerm < m.term {
        if currentTerm < m.term {
          currentTerm := m.term;
          votedFor := 0;
          flag := true;
        }
        var lastLogTerm := LastLogTerm();
        if lastLogTerm < m.lastLogTerm || (lastLogTerm == m.lastLogTerm && logCurrentIndex <= m.lastLogIndex) {
          votedFor := m.candidateId;
          if currentTerm < m.term {
            flag := true;
          }
          action := action + [Alarm(Election)];
          action := action + [Send(m.candidateId, VoteResponse(currentTerm, true))];
        } else {
          action := action + [Send(m.candidateId, VoteResponse(currentTerm, false))];
        }
        if flag {
          action := action + [StateStore(state, currentTerm, votedFor)];
        }
      } else {
        action := action + [Send(m.candidateId, VoteResponse(currentTerm, false))];
      }
    }

    // ----- assign4/VoteResponse.go

    method OnVoteResponse(m: Message) returns (action: seq<Action>)
      requires Valid() && m.VoteResponse?
      modifies this, nextIndex, matchIndex
      ensures Valid()
      ensures Value() == NodeStep.OnVoteResponse(old(Value()), m).node
      ensures action == NodeStep.OnVoteResponse(old(Value()), m).actions
    {
      action := [];
      match state
      case Leader =>
      case Follower =>
        if m.term > currentTerm {
          currentTerm := m.term;
          votedFor := 0;
          action := [StateStore(state, currentTerm, votedFor)];
        }
      case Candidate =>
        action := VoteResponseCandidate(m);
    }

    method VoteResponseCandidate(m: Message) returns (action: seq<Action>)
      requires Valid() && m.VoteResponse? && state == Candidate
      modifies this, nextIndex, matchIndex
      ensures Valid()
      ensures Value() == NodeStep.OnVoteResponse(old(Value()), m).node
      ensures action == NodeStep.OnVoteResponse(old(Value()), m).actions
    {
      action := [];
      if m.term < currentTerm {
        return;
      }
      if m.granted {
        yesVotesNum := yesVotesNum + 1;
        if yesVotesNum >= |peer| / 2 + 1 {
          action := BecomeLeader();
        }
      } else if m.term > currentTerm {
        currentTerm := m.term;
        state := Follower;
        votedFor := 0;
        action := [Alarm(Election), StateStore(state, currentTerm, votedFor)];
      } else {
        noVotesNum := noVotesNum + 1;
        if noVotesNum >= |peer| / 2 + 1 {
          state := Follower;
          action := [Alarm(Election), StateStore(state, currentTerm, votedFor)];
        }
      }
    }

    /** assign4/VoteResponse.go:45-63 */
    method BecomeLeader() returns (action: seq<Action>)
      requires Valid()
      modifies this, nextIndex, matchIndex
      ensures Valid()
      ensures Value() == old(Value()).(role := Leader, matchIndex := seq(|peer|, i => -1),
                                       nextIndex := seq(|peer|, i => |old(log)|))
      ensures action == [StateStore(Leader, currentTerm, votedFor)] + Inaugural(Value()) + [Alarm(Heartbeat)]
    {
      state := Leader;
      action := [StateStore(state, currentTerm, votedFor)];
      var i := 0;
      ghost var n := old(Value()).(role := Leader, matchIndex := seq(|peer|, i => -1),
                                   nextIndex := seq(|peer|, i => |old(log)|));
      while i < |peer|
        invariant 0 <= i <= |peer| && Valid() && log == old(log) && state == Leader
        invariant currentTerm == old(currentTerm) && votedFor == old(votedFor) && logCommitIndex == old(logCommitIndex)
        invariant yesVotesNum == old(yesVotesNum) && noVotesNum == old(noVotesNum)
        invariant forall j :: 0 <= j < i ==> matchIndex[j] == -1 && nextIndex[j] == |log|
        invariant action == [StateStore(Leader, currentTerm, votedFor)] + Inaugural(n)[..i]
      {
        matchIndex[i] := -1;
        nextIndex[i] := logCurrentIndex + 1;
        var lastLogTerm := LastLogTerm();
        action := action
          + [Send(peer[i], AppendRequest(currentTerm, myId, logCurrentIndex, lastLogTerm, [], logCommitIndex))];
        i := i + 1;
      }
      assert matchIndex[..] == n.matchIndex && nextIndex[..] == n.nextIndex;
      action := action + [Alarm(Heartbeat)];
    }

    // ----- assign4/AppendEntriesRequest.go

    method AppendEntriesRequest(m: Message) returns (action: seq<Action>)
      requires Valid() && m.AppendRequest? && -1 <= m.prevLogIndex && -1 <= logCommitIndex
      modifies this
      ensures Valid()
      ensures Value() == OnAppendRequest(old(Value()), m).node && action == OnAppendRequest(old(Value()), m).actions
    {
      if state == Follower {
        action := AppendEntriesRequestFollower(m);
      } else {
        action := AppendEntriesRequestLeaderorCandidate(m);
      }
    }

    method AppendEntriesRequestLeaderorCandidate(m: Message) returns (action: seq<Action>)
      requires Valid() && m.AppendRequest? && -1 <= m.prevLogIndex && -1 <= logCommitIndex && state != Follower
      modifies this
      ensures Valid()
      ensures Value() == OnAppendRequest(old(Value()), m).node && action == OnAppendRequest(old(Value()), m).actions
    {
      if currentTerm > m.term {
        action := [Send(m.leaderId, AppendResponse(currentTerm, myId, false, logCurrentIndex))];
      } else {
        votedFor := m.leaderId;
        currentTerm := m.term;
        state := Follower;
        var inner := AppendEntriesRequestFollower(m);
        action := [Nested(inner)];
      }
    }

    method AppendEntriesRequestFollower(m: Message) returns (action: seq<Action>)
      requires Valid() && m.AppendRequest? && -1 <= m.prevLogIndex && -1 <= logCommitIndex
      modifies this
      ensures Valid()
      ensures Value() == OnAppendRequestFollower(old(Value()), m).node
      ensures action == OnAppendRequestFollower(old(Value()), m).actions
    {
      if currentTerm > m.term {
        action := [Send(m.leaderId, AppendResponse(currentTerm, myId, false, logCurrentIndex))];
      } else {
        votedFor := m.leaderId;
        currentTerm := m.term;
        action := CheckAndMerge(m);
      }
    }

    /** assign4/AppendEntriesRequest.go:65-103 */
    method CheckAndMerge(m: Message) returns (action: seq<Action>)
      requires Valid() && m.AppendRequest? && -1 <= m.prevLogIndex && -1 <= logCommitIndex
      modifies this`log, this`logCurrentIndex, this`logCommitIndex
      ensures Valid()
      ensures Value() == Follow(old(Value()), m).node && action == Follow(old(Value()), m).actions
    {
      hide Merge, AcceptActions, FollowedCommit;
      action := [Alarm(Election)];
      action := action + [StateStore(state, currentTerm, votedFor)];
      var l := if |log| == 0 then -1 else |log|;
      if m.prevLogIndex != -1 && (l <= m.prevLogIndex || log[m.prevLogIndex].term != m.prevLogTerm) {
        action := action + [Send(m.leaderId, AppendResponse(currentTerm, myId, false, logCurrentIndex))];
      } else {
        var accepted := AcceptData(m);
        action := action + accepted;
      }
    }

    /** assign4/AppendEntriesRequest.go:76-101 */
    method AcceptData(m: Message) returns (action: seq<Action>)
      requires Valid() && m.AppendRequest? && 0 <= m.prevLogIndex + 1 <= |log| && -1 <= logCommitIndex
      modifies this`log, this`logCurrentIndex, this`logCommitIndex
      ensures Valid() && log == Merge(old(log), m.prevLogIndex + 1, m.data)
      ensures logCommitIndex == FollowedCommit(old(Value()).(log := log), m.leaderCommit)
      ensures action == AcceptActions(old(Value()), Value(), m)
    {
      action := MergeData(m.prevLogIndex + 1, m.data);
      logCurrentIndex := |log| - 1;
      action := action + [Send(m.leaderId, AppendResponse(currentTerm, myId, true, logCurrentIndex))];
      var commits := FollowLeaderCommit(m.leaderCommit);
      action := action + commits;
    }

    /** assign4/AppendEntriesRequest.go:95-101 */
    method FollowLeaderCommit(leaderCommit: int) returns (commits: seq<Action>)
      requires Valid() && -1 <= logCommitIndex
      modifies this`logCommitIndex
      ensures logCommitIndex == FollowedCommit(old(Value()), leaderCommit)
      ensures commits == Commits(log, old(logCommitIndex), logCommitIndex)
    {
      commits := [];
      if leaderCommit > logCommitIndex {
        var to := Min(leaderCommit, logCurrentIndex);
        commits := CommitUpTo(to);
        logCommitIndex := to;
      }
    }

    /** assign4/AppendEntriesRequest.go:76-89 */
    method MergeData(start: int, data: seq<Entry>) returns (stores: seq<Action>)
      requires 0 <= start <= |log|
      modifies this`log
      ensures log == Merge(old(log), start, data)
      ensures var e := MatchEnd(old(log), start, data, start);
        stores == Stores(e, data[e - start..])
    {
      var i := start;
      while i < start + |data| && i < |log| && log[i].term == data[i - start].term
        invariant start <= i <= start + |data| && i <= |log|
        invariant MatchEnd(log, start, data, i) == MatchEnd(log, start, data, start)
      {
        i := i + 1;
      }
      log := log[..i];
      stores := AppendRest(i, data[i - start..]);
    }

    /** assign4/AppendEntriesRequest.go:86-89 */
    method AppendRest(from: nat, rest: seq<Entry>) returns (stores: seq<Action>)
      modifies this`log
      ensures log == old(log) + rest && stores == Stores(from, rest)
    {
      stores := [];
      var j := 0;
      while j < |rest|
        invariant 0 <= j <= |rest|
        invariant log == old(log) + rest[..j]
        invariant stores == Stores(from, rest)[..j]
      {
        log := log + [rest[j]];
        stores := stores + [LogStore(from + j, rest[j])];
        j := j + 1;
      }
    }

    /** The commit loops of AppendEntriesRequest.go:96-99 and AppendEntriesResponse.go:75-77. */
    method CommitUpTo(to: int) returns (commits: seq<Action>)
      requires -1 <= logCommitIndex && to < |log|
      ensures commits == Commits(log, logCommitIndex, to)
    {
      commits := [];
      var j := logCommitIndex + 1;
      while j <= to
        invariant logCommitIndex + 1 <= j && (j <= to + 1 || j == logCommitIndex + 1)
        invariant commits == Commits(log, logCommitIndex, to)[..j - logCommitIndex - 1]
      {
        commits := commits + [Commit(j, log[j].cmd, false)];
        j := j + 1;
      }
    }

    // ----- assign4/AppendEntriesResponse.go

    method AppendEntriesResponse(m: Message) returns (action: seq<Action>)
      requires Valid() && m.AppendResponse? && Ready(Value(), Receive(m))
      modifies this, nextIndex, matchIndex
      ensures Valid()
      ensures Value() == OnAppendResponse(old(Value()), m).node && action == OnAppendResponse(old(Value()), m).actions
    {
      action := [];
      if state == Leader {
        action := AppendEntriesResponseLeader(m);
      } else if m.term > currentTerm {
        currentTerm := m.term;
        state := Follower;
        votedFor := 0;
      }
    }

    method AppendEntriesResponseLeader(m: Message) returns (action: seq<Action>)
      requires Valid() && m.AppendResponse? && Ready(Value(), Receive(m)) && state == Leader
      modifies this, nextIndex, matchIndex
      ensures Valid()
      ensures Value() == OnAppendResponse(old(Value()), m).node && action == OnAppendResponse(old(Value()), m).actions
    {
      action := [];
      var i := 0;
      while i < |peer| && m.fromId != peer[i]
        invariant 0 <= i <= |peer|
        invariant forall j :: 0 <= j < i ==> peer[j] != m.fromId
      {
        i := i + 1;
      }
      assert i == PeerIndex(peer, m.fromId);
      if !m.success {
        if currentTerm < m.term {
          state := Follower;
          currentTerm := m.term;
          votedFor := 0;
          action := [Alarm(Election), StateStore(state, currentTerm, votedFor)];
        } else {
          action := RetryOneBack(i, m.fromId);
        }
      } else {
        action := Acknowledged(i, m);
      }
    }

    /** assign4/AppendEntriesResponse.go:51-79 */
    method Acknowledged(i: nat, m: Message) returns (action: seq<Action>)
      requires Valid() && m.AppendResponse? && m.success && Ready(Value(), Receive(m)) && state == Leader
      requires i == PeerIndex(peer, m.fromId)
      modifies this`logCommitIndex, nextIndex, matchIndex
      ensures Value() == OnAppendResponse(old(Value()), m).node && action == OnAppendResponse(old(Value()), m).actions
    {
      hide Scan, Copies;
      action := [];
      nextIndex[i] := m.index + 1;
      matchIndex[i] := m.index;
      var maxIndex := ScanMatches();
      if maxIndex != -1 {
        action := CommitUpTo(maxIndex);
        logCommitIndex := maxIndex;
      }
    }

    /** assign4/AppendEntriesResponse.go:41-49 */
    method RetryOneBack(i: nat, to: int) returns (action: seq<Action>)
      requires Valid() && state == Leader && i < |peer| && nextIndex[i] <= |log| + 1
      modifies nextIndex
      ensures Value() == old(Value()).(nextIndex := old(nextIndex[..])[i := Max(0, old(nextIndex[i]) - 1)])
      ensures 0 <= nextIndex[i] <= |log| && action == [Send(to, RequestFor(Value(), i))]
    {
      nextIndex[i] := Max(0, nextIndex[i] - 1);
      var next := nextIndex[i];
      var prevLogTerm := if next == 0 then 0 else log[next - 1].term;
      action := [Send(to, AppendRequest(currentTerm, myId, next - 1, prevLogTerm, log[next..], logCommitIndex))];
    }

    /** assign4/AppendEntriesResponse.go:56-72 */
    method ScanMatches() returns (maxIndex: int)
      requires Valid() && MatchInRange(Value()) && state == Leader && -1 <= logCommitIndex
      ensures maxIndex == Scan(Value(), |peer|)
    {
      hide Scan, Copies;
      maxIndex := -1;
      ScanNone(Value());
      var i := 0;
      while i < |peer|
        invariant 0 <= i <= |peer|
        invariant maxIndex == Scan(Value(), i)
      {
        ScanNext(Value(), i);
        if matchIndex[i] > logCommitIndex && matchIndex[i] > maxIndex && log[matchIndex[i]].term == currentTerm {
          var numYes := CountYes(matchIndex[i]);
          if numYes >= |peer| / 2 + 1 {
            maxIndex := matchIndex[i];
          }
        }
        i := i + 1;
      }
    }

    /** assign4/AppendEntriesResponse.go:58-65 */
    method CountYes(index: int) returns (numYes: int)
      requires Valid()
      ensures numYes == 1 + Copies(matchIndex[..], index)
    {
      numYes := 1;
      var j := 0;
      while j < |peer|
        invariant 0 <= j <= |peer|
        invariant numYes == 1 + Copies(matchIndex[..j], index)
      {
        assert matchIndex[..j + 1][..j] == matchIndex[..j];
        if matchIndex[j] >= index {
          numYes := numYes + 1;
        }
        j := j + 1;
      }
      assert matchIndex[..|peer|] == matchIndex[..];
    }
  }

  lemma StandsFor(n: Node)
    requires OnePerPeer(n) && n.role != Leader
    ensures var n' := n.(role := Candidate, term := n.term + 1, votedFor := n.id, yes := 1, no := 0);
      OnTimeout(n) ==
        Outcome(n', [StateStore(Candidate, n'.term, n'.votedFor)] + [Alarm(Election)] + Ballots(n'))
  {}

  lemma {:induction false} ScanNone(n: Node)
    requires n.role == Leader && MatchInRange(n) && -1 <= n.commit
    ensures Scan(n, 0) == -1
  {}

  /** One round of the scan. */
  lemma {:induction false} ScanNext(n: Node, i: nat)
    requires n.role == Leader && MatchInRange(n) && -1 <= n.commit && i < |n.peers|
    ensures var best, at := Scan(n, i), n.matchIndex[i];
      Scan(n, i + 1) ==
        if at > n.commit && at > best && n.log[at].term == n.term && 1 + Copies(n.matchIndex, at) >= Quota(n)
        then at else best
  {}

  /** A list of everyone in `ids` but `v`, without repetition, is a proper peer list. */
  lemma PeersCounted(peers: seq<int>, v: int, ids: set<int>)
    requires v in ids && (forall x :: x in peers <==> x in ids && x != v)
    requires forall i, j :: 0 <= i < j < |peers| ==> peers[i] != peers[j]
    ensures PeersOf(peers, v, ids)
  {
    DistinctCount(peers);
    assert (set x | x in peers) == ids - {v};
  }

  lemma {:induction false} DistinctCount(xs: seq<int>)
    requires forall i, j :: 0 <= i < j < |xs| ==> xs[i] != xs[j]
    ensures |set x | x in xs| == |xs|
  {
    if xs != [] {
      var last := |xs| - 1;
      DistinctCount(xs[..last]);
      assert (set x | x in xs) == (set x | x in xs[..last]) + {xs[last]};
    }
  }
}
