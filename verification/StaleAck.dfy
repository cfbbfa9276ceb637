/** Why success replies must be handled only in the term they answer. AppendEntriesResponseLeader
    (assign4/AppendEntriesResponse.go:51-54) does not look at a success reply's term. Here is a run of
    any cluster of three or more in which a leader handles replies from an earlier term of its own:
    with a shorter log it indexes out of range, and with one new entry it commits what it alone holds. */
module StaleAck {
  import opened Commands
  import opened RaftTypes
  import opened NodeStep
  import opened ClusterModel
  import opened Safety
  import opened Scenario
  import opened Reigns

  const FREE := Rules(false, true, 0)

  /** The nodes from 2 up to this one are as many as a leader needs beside itself. */
  function Middle(size: nat): int {
    2 + (size - 1) / 2
  }

  /** And so are the nodes from this one to `size`; in an even cluster one node is in neither half. */
  function Second(size: nat): int {
    size + 1 - (size - 1) / 2
  }

  const OLD := Entry(1, Bare('w'))

  /** What the two leaders append, and what the nodes of the first half have. */
  const LONG := [OLD, OLD]
  const SHORT := [Entry(2, Bare('w'))]

  /** The first half of the cluster, which both leaders share, and the others up to node `size`. */
  ghost predicate Halves(s: Cluster, term: int, log: seq<Entry>, size: nat) {
    AllAre(s, 2, Middle(size), Follower, term, log) && AllAre(s, Middle(size), size, Follower, 0, [])
  }

  ghost predicate Scene1(s: Cluster, size: nat) {
    && Stage(Start(size), s, FREE, size) && Is(s, 1, Leader, 1, LONG)
    && Halves(s, 1, [], size) && Is(s, size, Follower, 0, [])
  }

  /** Node 1 has two entries that it has sent to no one. */
  lemma Play1(size: nat) returns (s: Cluster)
    requires size >= 3
    ensures Scene1(s, size)
  {
    hide Stage, AllAre, Start;
    FirstStage(FREE, size);
    var s0 := Start(size);
    OneOf(s0, 1, 1, size + 1, Follower, 0, []);
    OneOf(s0, size, 1, size + 1, Follower, 0, []);
    SomeAlike(s0, 1, size + 1, 2, Middle(size), Follower, 0, []);
    SomeAlike(s0, 1, size + 1, Middle(size), size, Follower, 0, []);
    QuotaOf(Start(size), s0, 1, FREE, size);
    AllWinnable(s0, 1, 2, Middle(size), Follower, 0, []);
    var s1 := TakeOver(Start(size), s0, 1, 1, 2, Middle(size), FREE, size);
    ElectorsAlike(s0, s1, 1, 1, 2, Middle(size), Follower, 0, []);
    var s2 := Request(Start(size), s1, 1, Bare('w'), FREE, size);
    s := Request(Start(size), s2, 1, Bare('w'), FREE, size);
    StillAlike(s1, s, 2, Middle(size), Follower, 1, []);
    StillAlike(s0, s, Middle(size), size, Follower, 0, []);
  }

  /** Node `size` leads with an entry of term 2, which it has sent to no one either. */
  ghost predicate Scene2(s: Cluster, size: nat) {
    && Stage(Start(size), s, FREE, size) && Is(s, 1, Follower, 2, LONG)
    && Halves(s, 2, [], size) && Is(s, size, Leader, 2, SHORT)
  }

  lemma Play2(s: Cluster, size: nat) returns (s': Cluster)
    requires Scene1(s, size) && size >= 3
    ensures Scene2(s', size)
  {
    hide Stage, AllAre, Start, LastIs, Quota;
    var s1 := StandUp(Start(size), s, size, FREE, size);
    QuotaOf(Start(size), s1, size, FREE, size);
    StillAlike(s, s1, 2, Middle(size), Follower, 1, []);
    AllWinnable(s1, size, 2, Middle(size), Follower, 1, []);
    var s2 := TakeOver(Start(size), s1, size, 1, 2, Middle(size), FREE, size);
    ElectorsAlike(s1, s2, size, 1, 2, Middle(size), Follower, 1, []);
    s' := Request(Start(size), s2, size, Bare('w'), FREE, size);
    StillAlike(s2, s', 2, Middle(size), Follower, 2, []);
    StillAlike(s, s', Middle(size), size, Follower, 0, []);
  }

  /** The first half's receipts for both entries of node 1, which it wrote in term 3, are on their way. */
  ghost predicate Waiting(s: Cluster, size: nat) {
    forall f :: 2 <= f < Middle(size) ==> f in s.nodes && LastIs(s, f, 1, AppendResponse(3, f, true, 1))
  }

  lemma StillWaiting(s: Cluster, s': Cluster, size: nat)
    requires Waiting(s, size) && s'.nodes.Keys == s.nodes.Keys
    requires forall f :: 2 <= f < Middle(size) && f in s.nodes ==> Link(s', f, 1) == Link(s, f, 1)
    ensures Waiting(s', size)
  {}

  /** Node 1 leads again, and the first half has its entries. */
  ghost predicate Scene3(s: Cluster, size: nat) {
    && Stage(Start(size), s, FREE, size) && Is(s, 1, Leader, 3, LONG)
    && Halves(s, 3, LONG, size) && Is(s, size, Follower, 3, SHORT)
    && Waiting(s, size)
  }

  lemma Play3(s: Cluster, size: nat) returns (s': Cluster)
    requires Scene2(s, size) && size >= 3
    ensures Scene3(s', size)
  {
    hide Stage, AllAre, Start, LastIs, Quota;
    QuotaOf(Start(size), s, 1, FREE, size);
    AllWinnable(s, 1, 2, Middle(size), Follower, 2, []);
    var s1 := TakeOver(Start(size), s, 1, size, 2, Middle(size), FREE, size);
    ElectorsAlike(s, s1, 1, size, 2, Middle(size), Follower, 2, []);
    AllTeachable(s1, 1, 2, Middle(size), 3, []);
    s' := SpreadLog(Start(size), s1, 1, 2, Middle(size), FREE, size);
    StillAlike(s, s', Middle(size), size, Follower, 0, []);
  }

  /** Node `size` leads again, and node 1 has its log. */
  ghost predicate Scene4(s: Cluster, size: nat) {
    && Stage(Start(size), s, FREE, size) && Is(s, 1, Follower, 4, SHORT)
    && Halves(s, 4, LONG, size) && Is(s, size, Leader, 4, SHORT)
    && Waiting(s, size)
  }

  lemma Play4(s: Cluster, size: nat) returns (s': Cluster)
    requires Scene3(s, size) && size >= 3
    ensures Scene4(s', size)
  {
    hide Stage, AllAre, Wired, Onward, Start, LastIs, Quota;
    QuotaOf(Start(size), s, size, FREE, size);
    AllWinnable(s, size, 2, Middle(size), Follower, 3, LONG);
    var s1 := TakeOver(Start(size), s, size, size, 2, Middle(size), FREE, size);
    ElectorsAlike(s, s1, size, size, 2, Middle(size), Follower, 3, LONG);
    s' := BringUp(Start(size), s1, size, 1, FREE, size);
    StillAlike(s1, s', 2, Middle(size), Follower, 4, LONG);
    StillAlike(s, s', Middle(size), size, Follower, 0, []);
    StillWaiting(s, s', size);
  }

  /** Node 1 leads a third time, by the votes of the second half. */
  ghost predicate Scene5(s: Cluster, size: nat) {
    && Stage(Start(size), s, FREE, size) && Is(s, 1, Leader, 5, SHORT) && Unheard(s.nodes[1])
    && AllAre(s, 2, Middle(size), Follower, 4, LONG) && Is(s, size, Follower, 5, SHORT)
    && Waiting(s, size)
  }

  lemma Play5(s: Cluster, size: nat) returns (s': Cluster)
    requires Scene4(s, size) && size >= 3
    ensures Scene5(s', size)
  {
    hide Stage, AllAre, Start, LastIs, Quota;
    QuotaOf(Start(size), s, 1, FREE, size);
    AllWinnable(s, 1, Middle(size), size, Follower, 0, []);
    s' := TakeOver(Start(size), s, 1, 1, Second(size), size + 1, FREE, size);
    StillAlike(s, s', 2, Middle(size), Follower, 4, LONG);
    StillWaiting(s, s', size);
  }

  lemma PlayOn(size: nat) returns (s: Cluster)
    requires size >= 3
    ensures Scene5(s, size)
  {
    hide Stage, AllAre;
    var s1 := Play1(size);
    var s2 := Play2(s1, size);
    var s3 := Play3(s2, size);
    var s4 := Play4(s3, size);
    s := Play5(s4, size);
  }

  /** Node 1 has committed an entry at index 1 that it alone holds. */
  ghost predicate Scene6(s: Cluster, size: nat, cmd: Msg) {
    && Stage(Start(size), s, FREE, size) && AllAre(s, 2, Middle(size), Follower, 4, LONG)
    && Is(s, size, Follower, 5, SHORT)
    && CommittedAt(s, 1, 1) && s.nodes[1].log[1] == Entry(5, cmd) && s.nodes[1].term == 5
  }

  lemma Play6(s: Cluster, size: nat, cmd: Msg) returns (s': Cluster)
    requires Scene5(s, size) && size >= 3
    ensures Scene6(s', size, cmd)
  {
    hide Stage, AllAre, Wired, Onward, Quota, Copies;
    var s1 := Request(Start(size), s, 1, cmd, FREE, size);
    QuotaOf(Start(size), s1, 1, FREE, size);
    StillWaiting(s, s1, size);
    s' := HandleAcks(Start(size), s1, 1, 2, Middle(size), 3, 1, FREE, size);
    StillAlike(s, s', 2, Middle(size), Follower, 4, LONG);
  }

  lemma Play7(s: Cluster, size: nat, a: Msg, b: Msg) returns (s': Cluster)
    requires Scene6(s, size, a) && size >= 3
    ensures Stage(Start(size), s', FREE, size) && CommittedAt(s', 1, 1) && CommittedAt(s', size, 1)
    ensures s'.nodes[1].log[1].cmd == a && s'.nodes[size].log[1].cmd == b
  {
    hide Stage, AllAre, Start, Quota;
    QuotaOf(Start(size), s, size, FREE, size);
    AllWinnable(s, size, 2, Middle(size), Follower, 4, LONG);
    var s1 := TakeOver(Start(size), s, size, size, 2, Middle(size), FREE, size);
    ElectorsAlike(s, s1, size, size, 2, Middle(size), Follower, 4, LONG);
    var s2 := Request(Start(size), s1, size, b, FREE, size);
    QuotaOf(Start(size), s2, size, FREE, size);
    StillAlike(s1, s2, 2, Middle(size), Follower, 6, LONG);
    AllTeachable(s2, size, 2, Middle(size), 6, LONG);
    s' := SettleLog(Start(size), s2, size, 2, Middle(size), FREE, size);
  }

  // ----- the reply that indexes out of range

  lemma IndexTooLarge(s: Cluster)
    requires 1 in s.nodes && 2 in s.nodes && s.nodes[1].role == Leader && |s.nodes[1].log| == 1
    requires s.nodes[1].commit == -1
    requires Link(s, 2, 1) == [AppendResponse(3, 2, true, 1)]
    ensures Possible(s, Deliver(2, 1), false) && !Smooth(s, Deliver(2, 1))
  {}

  /** The first receipt is all that is left from node 2 to node 1. */
  lemma OnlyReceipt(s: Cluster, size: nat) returns (s': Cluster)
    requires Scene5(s, size) && size >= 3
    ensures Reached(s', false, size) && s'.nodes == s.nodes && Link(s', 2, 1) == [AppendResponse(3, 2, true, 1)]
  {
    hide Start, Onward, Reached, Sound, AllAre, Is, Unheard;
    assert 1 in s.nodes && 2 in s.nodes by { assert 1 in Ids(size) && 2 in Ids(size); }
    s' := Drop(Start(size), s, 2, 1, AppendResponse(3, 2, true, 1), FREE);
    StageIsReached(s', FREE, size);
  }
}
