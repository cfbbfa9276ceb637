/** Exactly when the safety theorems hold: for which cluster sizes, and where stale success replies must
    be held back. */
module Exactness {
  import opened Commands
  import opened RaftTypes
  import opened ClusterModel
  import opened Quorums
  import opened Safety
  import opened Scenario
  import opened Reigns
  import opened SplitVote
  import opened StaleAck
  import opened TwoNodes

  /** At times `i` and `j` of the run, nodes `v` and `w` have committed different entries at index `k`. */
  ghost predicate DiffersIn(states: seq<Cluster>, moves: seq<Move>, guarded: bool, size: nat,
                            i: nat, j: nat, v: int, w: int, k: nat) {
    && Run(states, moves, guarded) && |states[0].nodes.Keys| == size && i < |states| && j < |states|
    && CommittedAt(states[i], v, k) && CommittedAt(states[j], w, k)
    && states[i].nodes[v].log[k] != states[j].nodes[w].log[k]
  }

  /** No run of a cluster of `size` nodes has two nodes commit different entries at an index. */
  ghost predicate AlwaysAgrees(size: nat, guarded: bool) {
    !exists states, moves, i, j, v, w, k :: DiffersIn(states, moves, guarded, size, i, j, v, w, k)
  }

  /** No run of a cluster of `size` nodes comes to a possible move that indexes out of range. */
  ghost predicate NeverPanics(size: nat, guarded: bool) {
    forall s, mv :: Reached(s, guarded, size) && Possible(s, mv, guarded) ==> Smooth(s, mv)
  }

  /** If stale replies are delivered, a reachable move can index out of range. */
  lemma PanicsWithoutGuard(size: nat) returns (s: Cluster)
    requires size >= 3
    ensures Reached(s, false, size) && Possible(s, Deliver(2, 1), false) && !Smooth(s, Deliver(2, 1))
  {
    hide Stage, Reached;
    var s5 := PlayOn(size);
    s := OnlyReceipt(s5, size);
    assert LastIs(s5, 2, 1, AppendResponse(3, 2, true, 1));
    IndexTooLarge(s);
  }

  /** If they are, two nodes can commit any two commands at the same index. */
  lemma DivergesWithoutGuard(size: nat, a: Msg, b: Msg) returns (s: Cluster)
    requires size >= 3
    ensures Reached(s, false, size) && CommittedAt(s, 1, 1) && CommittedAt(s, size, 1)
    ensures s.nodes[1].log[1].cmd == a && s.nodes[size].log[1].cmd == b
  {
    hide Stage, Reached;
    var s5 := PlayOn(size);
    var s6 := Play6(s5, size, a);
    s := Play7(s6, size, a, b);
    StageIsReached(s, FREE, size);
  }

  /** Stale replies are held back, or the cluster is too small to have any. */
  predicate NoStaleReplies(size: nat, guarded: bool) {
    guarded || size <= 2
  }

  lemma RunIsGuarded(states: seq<Cluster>, moves: seq<Move>, guarded: bool)
    requires Run(states, moves, guarded) && NoStaleReplies(|states[0].nodes.Keys|, guarded)
    requires |states[0].nodes.Keys| >= 1
    ensures Run(states, moves, true)
  {
    hide Init, Possible, Smooth, Apply;
    if !guarded {
      forall i | 0 <= i < |moves| ensures Follows(states, moves, true, i) {
        assert Follows(states, moves, false, i);
        NeverStale(states, moves, i, moves[i]);
      }
    }
  }

  lemma SafeAgrees(states: seq<Cluster>, moves: seq<Move>, i: nat, j: nat, v: int, w: int, k: nat)
    requires SafeRun(states, moves) && i < |states| && j < |states|
    requires CommittedAt(states[i], v, k) && CommittedAt(states[j], w, k)
    ensures states[i].nodes[v].log[k] == states[j].nodes[w].log[k]
  {
    hide Run;
    if i <= j {
      StateMachineSafety(states, moves, i, j, v, w, k);
      assert states[i].nodes[v].log[..k + 1][k] == states[j].nodes[w].log[..k + 1][k];
    } else {
      StateMachineSafety(states, moves, j, i, w, v, k);
      assert states[i].nodes[v].log[..k + 1][k] == states[j].nodes[w].log[..k + 1][k];
    }
  }

  lemma EndDiffers(s: Cluster, guarded: bool, size: nat, v: int, w: int, k: nat)
    requires Reached(s, guarded, size) && CommittedAt(s, v, k) && CommittedAt(s, w, k)
    requires s.nodes[v].log[k] != s.nodes[w].log[k]
    ensures !AlwaysAgrees(size, guarded)
  {
    hide Init, Follows;
    var states, moves :| EndsIn(states, moves, guarded, size, s);
    assert DiffersIn(states, moves, guarded, size, |moves|, |moves|, v, w, k);
  }

  /** State-machine safety, exactly: it holds for all runs of the odd sizes and of two nodes when stale
      replies are held back; without that only of one and of two nodes. */
  lemma StateMachineSafetyIff(size: nat, guarded: bool)
    requires size >= 1
    ensures AlwaysAgrees(size, guarded) <==> SafeSize(size) && NoStaleReplies(size, guarded)
  {
    hide Run, Reached, CommittedAt;
    if SafeSize(size) && NoStaleReplies(size, guarded) {
      forall states, moves, i, j, v, w, k ensures !DiffersIn(states, moves, guarded, size, i, j, v, w, k) {
        if DiffersIn(states, moves, guarded, size, i, j, v, w, k) {
          RunIsGuarded(states, moves, guarded);
          SafeAgrees(states, moves, i, j, v, w, k);
        }
      }
    } else if SafeSize(size) {
      var s := DivergesWithoutGuard(size, Bare('w'), Bare('c'));
      EndDiffers(s, guarded, size, 1, size, 1);
    } else {
      var s := DivergesWhenEven(size, guarded, Bare('w'), Bare('c'));
      EndDiffers(s, guarded, size, 1, 2, 0);
    }
  }

  lemma FreshNeverPanics(s: Cluster, mv: Move, guarded: bool, size: nat)
    requires size >= 1 && NoStaleReplies(size, guarded)
    requires Reached(s, guarded, size) && Possible(s, mv, guarded)
    ensures Smooth(s, mv)
  {
    hide Init, Follows, Smooth, Possible;
    var states, moves :| EndsIn(states, moves, guarded, size, s);
    RunIsGuarded(states, moves, guarded);
    if !guarded { NeverStale(states, moves, |moves|, mv); }
    RunNeverPanics(states, moves, mv);
  }

  /** In a cluster of any size, an index is always in range exactly when no reply can be stale. */
  lemma NeverPanicsIff(size: nat, guarded: bool)
    requires size >= 1
    ensures NeverPanics(size, guarded) <==> NoStaleReplies(size, guarded)
  {
    hide Reached, Smooth;
    if NoStaleReplies(size, guarded) {
      forall s, mv | Reached(s, guarded, size) && Possible(s, mv, guarded) ensures Smooth(s, mv) {
        FreshNeverPanics(s, mv, guarded, size);
      }
    } else {
      var s := PanicsWithoutGuard(size);
    }
  }

  /** With stale replies held back a cluster still commits: nothing in the model keeps a leader's entry
      from a quorum. */
  lemma CommitsWithGuard(size: nat, cmd: Msg) returns (s: Cluster)
    requires size >= 3
    ensures Reached(s, true, size) && CommittedAt(s, 1, 0) && s.nodes[1].log == [Entry(1, cmd)]
  {
    hide Stage, AllAre, Reached;
    var rules, hi := Rules(true, true, 0), 2 + (size - 1) / 2;
    FirstStage(rules, size);
    QuotaOf(Start(size), Start(size), 1, rules, size);
    SomeAlike(Start(size), 1, size + 1, 2, hi, Follower, 0, []);
    AllWinnable(Start(size), 1, 2, hi, Follower, 0, []);
    var s1 := TakeOver(Start(size), Start(size), 1, 1, 2, hi, rules, size);
    ElectorsAlike(Start(size), s1, 1, 1, 2, hi, Follower, 0, []);
    var s2 := Request(Start(size), s1, 1, cmd, rules, size);
    QuotaOf(Start(size), s2, 1, rules, size);
    StillAlike(s1, s2, 2, hi, Follower, 1, []);
    AllTeachable(s2, 1, 2, hi, 1, []);
    s := SettleLog(Start(size), s2, 1, 2, hi, rules, size);
    StageIsReached(s, rules, size);
  }
}
