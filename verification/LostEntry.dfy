/** A committed entry that the log file does not return: a node that led takes over the entry of the next
    leader, already committed, and LogStoreHandler drops it with the entry it replaces. */
module LostEntry {
  import opened Commands
  import opened RaftTypes
  import opened NodeStep
  import opened ClusterModel
  import opened Safety
  import opened LogFile
  import opened Repair
  import opened Scenario
  import opened Episodes
  import opened Reigns
  import opened StaleAck

  /** Guarded runs in which nothing spoils the log file of node 1. */
  const CAREFUL := Rules(true, true, 1)

  /** Node 1 has an entry that it has sent to no one; node `size` leads, and has committed another. */
  ghost predicate Settling(s: Cluster, size: nat, cmd: Msg) {
    && Stage(Start(size), s, CAREFUL, size) && Is(s, 1, Follower, 2, [OLD])
    && size in s.nodes && s.nodes[size].role == Leader && s.nodes[size].term == 2
    && s.nodes[size].log == [Entry(2, cmd)] && s.nodes[size].commit == 0
  }

  lemma FirstLeads(size: nat) returns (s: Cluster)
    requires size >= 3
    ensures Stage(Start(size), s, CAREFUL, size) && Is(s, 1, Leader, 1, [OLD]) && Is(s, size, Follower, 0, [])
    ensures AllAre(s, 2, Middle(size), Follower, 1, [])
  {
    hide Stage, AllAre, Start;
    FirstStage(CAREFUL, size);
    var s0 := Start(size);
    OneOf(s0, 1, 1, size + 1, Follower, 0, []);
    OneOf(s0, size, 1, size + 1, Follower, 0, []);
    SomeAlike(s0, 1, size + 1, 2, Middle(size), Follower, 0, []);
    QuotaOf(Start(size), s0, 1, CAREFUL, size);
    AllWinnable(s0, 1, 2, Middle(size), Follower, 0, []);
    var s1 := TakeOver(Start(size), s0, 1, 1, 2, Middle(size), CAREFUL, size);
    ElectorsAlike(s0, s1, 1, 1, 2, Middle(size), Follower, 0, []);
    s := Request(Start(size), s1, 1, Bare('w'), CAREFUL, size);
    StillAlike(s1, s, 2, Middle(size), Follower, 1, []);
  }

  lemma SecondLeads(size: nat) returns (s: Cluster)
    requires size >= 3
    ensures Stage(Start(size), s, CAREFUL, size) && Is(s, 1, Follower, 2, [OLD]) && Is(s, size, Leader, 2, [])
    ensures Unheard(s.nodes[size]) && AllAre(s, 2, Middle(size), Follower, 2, [])
  {
    hide Stage, AllAre;
    var s0 := FirstLeads(size);
    var s1 := StandUp(Start(size), s0, size, CAREFUL, size);
    QuotaOf(Start(size), s1, size, CAREFUL, size);
    StillAlike(s0, s1, 2, Middle(size), Follower, 1, []);
    AllWinnable(s1, size, 2, Middle(size), Follower, 1, []);
    s := TakeOver(Start(size), s1, size, 1, 2, Middle(size), CAREFUL, size);
    ElectorsAlike(s1, s, size, 1, 2, Middle(size), Follower, 1, []);
  }

  lemma SecondSettles(size: nat, cmd: Msg) returns (s: Cluster)
    requires size >= 3
    ensures Settling(s, size, cmd)
  {
    hide Stage, AllAre;
    var s2 := SecondLeads(size);
    var s3 := Request(Start(size), s2, size, cmd, CAREFUL, size);
    QuotaOf(Start(size), s3, size, CAREFUL, size);
    StillAlike(s2, s3, 2, Middle(size), Follower, 2, []);
    AllTeachable(s3, size, 2, Middle(size), 2, []);
    s := SettleLog(Start(size), s3, size, 2, Middle(size), CAREFUL, size);
  }

  /** The request with that entry is all that is on its way to node 1, which can accept it. */
  ghost predicate Arriving(s: Cluster, size: nat, cmd: Msg) {
    && Stage(Start(size), s, CAREFUL, size) && Lesson(s, size, 1) && s.nodes[1].log == [OLD] && s.nodes[1].commit == -1
    && s.nodes[size].log == [Entry(2, cmd)] && s.nodes[size].commit == 0
    && Agreeing(s.nodes[size], s.nodes[1], PeerIndex(s.nodes[size].peers, 1))
    && Link(s, size, 1) == [RequestFor(s.nodes[size], PeerIndex(s.nodes[size].peers, 1))]
  }

  lemma RequestComes(size: nat, cmd: Msg) returns (s: Cluster)
    requires size >= 3
    ensures Arriving(s, size, cmd)
  {
    hide Wired, Onward, Start, Agreeing, RequestFor;
    var s0 := SecondSettles(size, cmd);
    var s1 := BeatLesson(Start(size), s0, size, 1, CAREFUL);
    var s2 := Approach(Start(size), s1, size, 1, CAREFUL);
    var m := RequestFor(s2.nodes[size], PeerIndex(s2.nodes[size].peers, 1));
    s := Drop(Start(size), s2, size, 1, m, CAREFUL);
  }

  /** What node 1 makes of it. */
  lemma EntryLost(n: Node, f: Node, i: nat, cmd: Msg)
    requires Exchanging(n, f, i) && Agreeing(n, f, i) && f.log == [OLD] && f.commit == -1
    requires n.log == [Entry(2, cmd)] && n.commit == 0
    ensures var out := OnAppendRequest(f, RequestFor(n, i));
      out.node.log == n.log && out.node.commit == 0 && Stored(f.log, out.actions) == []
  {
    var m := RequestFor(n, i);
    assert n.nextIndex[i] == 0;
    assert m.data == n.log;
    RequestStores(f.log, f, m);
    StoredCut(f.log, 0, m.data);
  }

  /** The move that delivers it. */
  lemma Delivery(s: Cluster, size: nat, cmd: Msg)
    requires Arriving(s, size, cmd) && size >= 3
    ensures Possible(s, Deliver(size, 1), true) && Possible(s, Deliver(size, 1), false) && Smooth(s, Deliver(size, 1))
    ensures var s' := Apply(s, Deliver(size, 1));
      CommittedAt(s', 1, 0) && s'.nodes[1].log == [Entry(2, cmd)]
    ensures Stored(s.nodes[1].log, ActionsAt(s, Deliver(size, 1), 1)) == []
  {
    hide Onward, Start, Stored, RequestFor, OnAppendRequest, Wired, LastIs, Agreeing;
    NodeIs(s, 1);
    NodeIs(s, size);
    var i := PeerIndex(s.nodes[size].peers, 1);
    RequestShape(s.nodes[size], i);
    EntryLost(s.nodes[size], s.nodes[1], i, cmd);
  }

  lemma DeliverIt(states: seq<Cluster>, moves: seq<Move>, size: nat, cmd: Msg)
      returns (states': seq<Cluster>, moves': seq<Move>)
    requires Run(states, moves, true) && Arriving(states[|moves|], size, cmd) && size >= 3
    requires HoldsLog(states, moves, true, 1, |moves|)
    ensures Run(states', moves', true) && states'[0] == states[0]
    ensures CommittedAt(states'[|moves'|], 1, 0) && states'[|moves'|].nodes[1].log == [Entry(2, cmd)]
    ensures FileOf(states', moves', true, 1, |moves'|) == []
  {
    hide Init, Possible, Smooth, Apply, Arriving, Stored, ActionsAt;
    var n, s, mv := |moves|, states[|moves|], Deliver(size, 1);
    Delivery(s, size, cmd);
    states', moves' := states + [Apply(s, mv)], moves + [mv];
    forall i | 0 <= i < |moves'| ensures Follows(states', moves', true, i) {
      if i < n { assert Follows(states, moves, true, i); }
    }
    FilePrefix(states, moves, states', moves', true, 1, n);
    assert states'[n] == s && moves'[n] == mv;
  }

  /** In every cluster of three or more a node can commit a command that its log file does not have: the
      run ends with index 0 committed and the file empty. */
  lemma FileLosesCommitted(size: nat, cmd: Msg) returns (states: seq<Cluster>, moves: seq<Move>)
    requires size >= 3
    ensures Run(states, moves, true) && |states[0].nodes.Keys| == size
    ensures CommittedAt(states[|moves|], 1, 0) && states[|moves|].nodes[1].log == [Entry(2, cmd)]
    ensures FileOf(states, moves, true, 1, |moves|) == []
  {
    hide Init, Follows, Onward, Start, FileOf, Wired, Lesson, Agreeing, SpoiledAt, RequestFor, HoldsLog;
    var s := RequestComes(size, cmd);
    StartIsInit(size);
    var states0, moves0 := RunGoesOn([Start(size)], [], CAREFUL, s);
    FirstState([Start(size)], states0);
    assert 1 in states0[0].nodes by { assert 1 in Ids(size); }
    FileIsLogIff(states0, moves0, true, 1, |moves0|);
    assert HoldsLog(states0, moves0, true, 1, |moves0|);
    states, moves := DeliverIt(states0, moves0, size, cmd);
  }
}
