/** Why nodes must stop for good. What is written to the state file is never read: a restarted node comes
    back as a follower of term 0 that has not voted. One restart then gives a term two leaders. */
module Restarts {
  import opened RaftTypes
  import opened ClusterModel
  import opened Safety
  import opened LogFile
  import opened StateFile
  import opened Scenario
  import opened Reigns

  /** The state file of node `v` in the `i`-th state, from a clean file on. */
  ghost function StateFileOf(states: seq<Cluster>, moves: seq<Move>, guarded: bool, v: int, i: nat): (f: seq<SMState>)
    requires Run(states, moves, guarded) && i <= |moves|
    ensures f != []
  {
    if i == 0 then CLEAN
    else
      assert Follows(states, moves, guarded, i - 1);
      StateFileOf(states, moves, guarded, v, i - 1) + Saved(ActionsAt(states[i - 1], moves[i - 1], v))
  }

  /** Whenever it stops, whatever it has voted and written: a restart reads term 0 and no vote. */
  lemma {:induction false} RestartForgets(states: seq<Cluster>, moves: seq<Move>, guarded: bool, v: int, i: nat)
    requires Run(states, moves, guarded) && i <= |moves|
    ensures ReadState(StateFileOf(states, moves, guarded, v, i)) == SMState(Follower, 0, 0)
  {
    hide Init, Saved, ActionsAt, Apply;
    if i > 0 {
      RestartForgets(states, moves, guarded, v, i - 1);
      assert Follows(states, moves, guarded, i - 1);
    }
  }

  /** Node `v` has stopped and come back with what its two files hold; nothing else has changed. */
  ghost predicate Restarted(s: Cluster, s': Cluster, v: int, stateFile: seq<SMState>, logFile: seq<Entry>) {
    && v in s.nodes && stateFile != []
    && s' == s.(nodes := s.nodes[v := Initialized(v, s.nodes[v].peers, ReadState(stateFile), logFile)])
  }

  /** The last node to vote for node 1. */
  function Voter(size: nat): int {
    1 + (size - 1) / 2
  }

  /** Guarded runs without requests, in which nothing spoils the log file of that node. */
  function Quiet(size: nat): Rules {
    Rules(true, false, Voter(size))
  }

  /** Node 1 leads term 1 by the votes of the nodes up to Voter. */
  ghost predicate Led(o: Cluster, s: Cluster, size: nat) {
    && Stage(o, s, Quiet(size), size) && Is(s, 1, Leader, 1, [])
    && AllAre(s, 2, Voter(size) + 1, Follower, 1, []) && AllAre(s, Voter(size) + 1, size + 1, Follower, 0, [])
  }

  lemma FirstLeader(size: nat) returns (s: Cluster)
    requires size >= 3
    ensures Led(Start(size), s, size)
  {
    hide Stage, AllAre, Start;
    var s0, rules, hi := Start(size), Quiet(size), Voter(size) + 1;
    FirstStage(rules, size);
    OneOf(s0, 1, 1, size + 1, Follower, 0, []);
    SomeAlike(s0, 1, size + 1, 2, hi, Follower, 0, []);
    SomeAlike(s0, 1, size + 1, hi, size + 1, Follower, 0, []);
    QuotaOf(s0, s0, 1, rules, size);
    AllWinnable(s0, 1, 2, hi, Follower, 0, []);
    s := TakeOver(s0, s0, 1, 1, 2, hi, rules, size);
    ElectorsAlike(s0, s, 1, 1, 2, hi, Follower, 0, []);
    StillAlike(s0, s, hi, size + 1, Follower, 0, []);
  }

  /** After the restart of the voter: it and all that did not vote are blank. */
  ghost predicate Forgotten(s: Cluster, size: nat) {
    && Stage(s, s, Quiet(size), size) && Is(s, 1, Leader, 1, [])
    && AllAre(s, Voter(size), size + 1, Follower, 0, [])
  }

  lemma VoterForgets(o: Cluster, s: Cluster, s': Cluster, size: nat, stateFile: seq<SMState>)
    requires size >= 3 && Led(o, s, size) && stateFile != [] && ReadState(stateFile) == SMState(Follower, 0, 0)
    requires Restarted(s, s', Voter(size), stateFile, [])
    ensures Forgotten(s', size)
  {
    hide Onward, Start, Wired;
    OnwardSelf(s', Quiet(size));
    RestartWired(s, s', Voter(size), stateFile);
    forall v | Voter(size) <= v <= size ensures Is(s', v, Follower, 0, []) {
      if v != Voter(size) { OneOf(s, v, Voter(size) + 1, size + 1, Follower, 0, []); }
    }
  }

  lemma RestartWired(s: Cluster, s': Cluster, v: int, stateFile: seq<SMState>)
    requires Wired(s) && Restarted(s, s', v, stateFile, [])
    ensures Wired(s')
  {
    assert s'.nodes.Keys == s.nodes.Keys;
    forall z ensures Link(s', z, z) == [] { assert Link(s, z, z) == []; }
    assert Sound(s'.nodes[v]);
  }

  lemma SecondLeader(s: Cluster, size: nat) returns (s': Cluster)
    requires size >= 3 && Forgotten(s, size)
    ensures Onward(s, s', Quiet(size)) && LeaderAt(s', 1, 1) && LeaderAt(s', size, 1)
  {
    hide Onward, Wired, AllAre;
    var lo, hi := Voter(size), Voter(size) + (size - 1) / 2;
    OneOf(s, size, lo, size + 1, Follower, 0, []);
    SomeAlike(s, lo, size + 1, lo, hi, Follower, 0, []);
    QuotaOf(s, s, size, Quiet(size), size);
    AllWinnable(s, size, lo, hi, Follower, 0, []);
    s' := TakeOver(s, s, size, size, lo, hi, Quiet(size), size);
  }

  /** In every cluster of three or more: a run to a state in which node 1 leads term 1, the restart of one node
      from its two files, and a run on to a state with two leaders in term 1. */
  lemma RestartSplits(size: nat) returns (states: seq<Cluster>, moves: seq<Move>, s1: Cluster, s2: Cluster)
    requires size >= 3
    ensures Run(states, moves, true) && |states[0].nodes.Keys| == size && LeaderAt(states[|moves|], 1, 1)
    ensures var i, w := |moves|, Voter(size);
      Restarted(states[i], s1, w, StateFileOf(states, moves, true, w, i), FileOf(states, moves, true, w, i))
    ensures Onward(s1, s2, Quiet(size)) && LeaderAt(s2, 1, 1) && LeaderAt(s2, size, 1)
  {
    hide Init, Follows, Onward, Start, FileOf, StateFileOf, Wired, AllAre, SpoiledAt, HoldsLog;
    var w := Voter(size);
    var s0 := FirstLeader(size);
    StartIsInit(size);
    states, moves := RunGoesOn([Start(size)], [], Quiet(size), s0);
    FirstState([Start(size)], states);
    VoterLogEmpty(states, moves, size);
    RestartForgets(states, moves, true, w, |moves|);
    var file := StateFileOf(states, moves, true, w, |moves|);
    s1 := s0.(nodes := s0.nodes[w := Initialized(w, s0.nodes[w].peers, ReadState(file), [])]);
    VoterForgets(Start(size), s0, s1, size, file);
    s2 := SecondLeader(s1, size);
  }

  lemma {:induction false} VoterLogEmpty(states: seq<Cluster>, moves: seq<Move>, size: nat)
    requires size >= 3 && Run(states, moves, true) && states[0] == Start(size)
    requires Led(Start(size), states[|moves|], size)
    requires forall i :: 0 <= i < |moves| ==> !SpoiledAt(states[i], moves[i], Voter(size))
    ensures Voter(size) in states[|moves|].nodes && FileOf(states, moves, true, Voter(size), |moves|) == []
  {
    hide Init, Follows, FileOf, SpoiledAt, Stage;
    var w := Voter(size);
    StartIsInit(size);
    assert w in Ids(size);
    FileIsLogIff(states, moves, true, w, |moves|);
    assert HoldsLog(states, moves, true, w, |moves|);
    OneOf(states[|moves|], w, 2, w + 1, Follower, 1, []);
  }
}
