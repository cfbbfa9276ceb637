/** The log file of a node (assign4/ActionHandler.go:36-43): when it holds the node's log, and when not.
    LogStoreHandler drops the entry with which it truncates, nothing is stored when a request only cuts
    the log, and what a nested list stores is lost. */
module LogFile {
  import opened Commands
  import opened RaftTypes
  import opened NodeStep
  import opened ClusterModel
  import opened History
  import opened Effects

  /** LogStoreHandler: an index the file already reaches truncates it there, and else the entry is added. */
  function StoreIn(file: seq<Entry>, index: int, entry: Entry): seq<Entry> {
    if index < |file| then file[..Max(0, index)] else file + [entry]
  }

  function StoredBy(file: seq<Entry>, a: Action): seq<Entry> {
    if a.LogStore? then StoreIn(file, a.index, a.entry) else file
  }

  /** The file after doActions; nested lists store nothing. */
  function Stored(file: seq<Entry>, acts: seq<Action>): seq<Entry>
    decreases acts
  {
    if acts == [] then file else Stored(StoredBy(file, acts[0]), acts[1..])
  }

  lemma {:induction false} StoredConcat(file: seq<Entry>, xs: seq<Action>, ys: seq<Action>)
    ensures Stored(file, xs + ys) == Stored(Stored(file, xs), ys)
    decreases xs
  {
    hide StoredBy;
    if xs == [] {
      assert xs + ys == ys;
    } else {
      assert (xs + ys)[1..] == xs[1..] + ys;
      StoredConcat(StoredBy(file, xs[0]), xs[1..], ys);
    }
  }

  lemma {:induction false} StoredNone(file: seq<Entry>, xs: seq<Action>)
    requires forall i :: 0 <= i < |xs| ==> !xs[i].LogStore?
    ensures Stored(file, xs) == file
    decreases xs
  {
    if xs != [] { StoredNone(file, xs[1..]); }
  }

  /** Entries for the end of the file, or beyond, are all added. */
  lemma {:induction false} StoredAppend(file: seq<Entry>, from: int, data: seq<Entry>)
    requires |file| <= from
    ensures Stored(file, Stores(from, data)) == file + data
    decreases data
  {
    if data != [] {
      var acts := Stores(from, data);
      assert acts[1..] == Stores(from + 1, data[1..]);
      StoredAppend(file + [data[0]], from + 1, data[1..]);
      assert file + [data[0]] + data[1..] == file + data;
    }
  }

  /** Of entries for an index inside the file, the first truncates it and is lost. */
  lemma {:induction false} StoredCut(file: seq<Entry>, from: nat, data: seq<Entry>)
    requires from < |file| && data != []
    ensures Stored(file, Stores(from, data)) == file[..from] + data[1..]
  {
    var acts := Stores(from, data);
    assert acts[1..] == Stores(from + 1, data[1..]);
    StoredAppend(file[..from], from + 1, data[1..]);
  }

  // ----- one event

  /** How much of its log a node keeps when it accepts the request. */
  function KeptUpTo(n: Node, m: Message): nat
    requires m.AppendRequest? && -1 <= m.prevLogIndex && PrevMatches(n.log, m)
  {
    MatchEnd(n.log, m.prevLogIndex + 1, m.data, m.prevLogIndex + 1)
  }

  /** The event makes the node cut its log, or take over entries as a candidate or deposed leader. */
  predicate Spoils(n: Node, ev: Event) {
    AcceptsBy(n, ev) && (KeptUpTo(n, ev.msg) < |n.log| || (n.role != Follower && KeptUpTo(n, ev.msg) < End(ev.msg)))
  }

  lemma {:induction false} AcceptStores(file: seq<Entry>, n: Node, n': Node, m: Message)
    requires m.AppendRequest? && -1 <= m.prevLogIndex && PrevMatches(n.log, m) && -1 <= n.commit
    requires n.commit < n'.commit ==> n'.commit < |n'.log|
    ensures var e := KeptUpTo(n, m);
      Stored(file, AcceptActions(n, n', m)) == Stored(file, Stores(e, m.data[e - m.prevLogIndex - 1..]))
  {
    hide Stored, MatchEnd;
    var e := KeptUpTo(n, m);
    var stores := Stores(e, m.data[e - m.prevLogIndex - 1..]);
    var reply := [Send(m.leaderId, AppendResponse(n'.term, n'.id, true, |n'.log| - 1))];
    var commits := Commits(n'.log, n.commit, n'.commit);
    StoredConcat(file, stores + reply, commits);
    StoredConcat(file, stores, reply);
    StoredNone(Stored(file, stores), reply);
    StoredNone(Stored(file, stores), commits);
  }

  /** What an accepted request does to the file, if the actions are not nested. */
  lemma {:induction false} FollowStores(file: seq<Entry>, n: Node, m: Message)
    requires m.AppendRequest? && -1 <= m.prevLogIndex && -1 <= n.commit
    ensures Stored(file, Follow(n, m).actions) ==
      if PrevMatches(n.log, m)
      then Stored(file, Stores(KeptUpTo(n, m), m.data[KeptUpTo(n, m) - m.prevLogIndex - 1..]))
      else file
  {
    hide AcceptActions;
    var opening := [Alarm(Election), StateStore(n.role, n.term, n.votedFor)];
    StoredNone(file, opening);
    if PrevMatches(n.log, m) {
      var n' := Follow(n, m).node;
      StoredConcat(file, opening, AcceptActions(n, n', m));
      AcceptStores(file, n, n', m);
    } else {
      StoredNone(file, Follow(n, m).actions);
    }
  }

  lemma {:induction false} RequestStores(file: seq<Entry>, n: Node, m: Message)
    requires m.AppendRequest? && -1 <= m.prevLogIndex && -1 <= n.commit
    ensures Stored(file, OnAppendRequest(n, m).actions) ==
      if n.role == Follower && Accepts(n, m)
      then Stored(file, Stores(KeptUpTo(n, m), m.data[KeptUpTo(n, m) - m.prevLogIndex - 1..]))
      else file
  {
    hide Follow;
    if n.role == Follower && n.term <= m.term {
      FollowStores(file, n.(votedFor := m.leaderId, term := m.term), m);
    } else {
      StoredNone(file, OnAppendRequest(n, m).actions);
    }
  }

  /** Entries stored after a kept part reach the file whole only if nothing had to be cut. */
  lemma {:induction false} TailStored(log: seq<Entry>, e: nat, tail: seq<Entry>)
    requires e <= |log|
    ensures Stored(log, Stores(e, tail)) == log[..e] + tail <==> e == |log|
  {
    hide Stored, Stores;
    if e == |log| {
      StoredAppend(log, e, tail);
    } else if tail != [] {
      StoredCut(log, e, tail);
      assert |log[..e] + tail[1..]| != |log[..e] + tail|;
    } else {
      StoredAll(log, e);
    }
  }

  lemma LogChanges(log: seq<Entry>, e: nat, tail: seq<Entry>)
    requires e <= |log| && (e < |log| && tail != [] ==> log[e].term != tail[0].term)
    ensures log == log[..e] + tail <==> e == |log| && tail == []
  {
    if e < |log| && tail != [] { assert (log[..e] + tail)[e] != log[e]; }
  }

  /** A file that holds the log before such a request holds it afterwards unless the request spoils it. */
  lemma RequestSpoils(n: Node, m: Message)
    requires m.AppendRequest? && -1 <= m.prevLogIndex && -1 <= n.commit && Accepts(n, m)
    ensures Stored(n.log, OnAppendRequest(n, m).actions) == Merge(n.log, m.prevLogIndex + 1, m.data) <==>
      !Spoils(n, Receive(m))
  {
    hide OnAppendRequest, Stored, Stores;
    RequestStores(n.log, n, m);
    var e := KeptUpTo(n, m);
    var tail := m.data[e - m.prevLogIndex - 1..];
    if n.role == Follower { TailStored(n.log, e, tail); } else { LogChanges(n.log, e, tail); }
  }

  lemma {:induction false} StoredAll(file: seq<Entry>, from: int)
    ensures Stored(file, Stores(from, [])) == file
  {}

  lemma OtherStores(n: Node, ev: Event)
    requires Ready(n, ev) && !(ev.Receive? && ev.msg.AppendRequest?) && !(ev.Client? && n.role == Leader)
    ensures forall i :: 0 <= i < |Step(n, ev).actions| ==> !Step(n, ev).actions[i].LogStore?
  {}

  /** If the file holds the log before an event, it does so afterwards exactly when the event does not
      spoil it. */
  lemma StaysLog(n: Node, ev: Event)
    requires Ready(n, ev)
    ensures Stored(n.log, Step(n, ev).actions) == Step(n, ev).node.log <==> !Spoils(n, ev)
  {
    HandlerEvolves(n, ev);
    hide Evolves, Stored, Spoils, Merge;
    if ev.Receive? && ev.msg.AppendRequest? {
      EventStores(n, ev.msg);
    } else if ev.Client? && n.role == Leader {
      var entry := Entry(n.term, ev.cmd);
      assert [LogStore(|n.log|, entry)] == Stores(|n.log|, [entry]);
      StoredAppend(n.log, |n.log|, [entry]);
      NeverSpoils(n, ev);
    } else {
      OtherStores(n, ev);
      StoredNone(n.log, Step(n, ev).actions);
      NeverSpoils(n, ev);
      OtherLogs(n, ev);
    }
  }

  lemma NeverSpoils(n: Node, ev: Event)
    requires !(ev.Receive? && ev.msg.AppendRequest?)
    ensures !Spoils(n, ev)
  {}

  lemma OtherLogs(n: Node, ev: Event)
    requires Ready(n, ev) && !(ev.Receive? && ev.msg.AppendRequest?) && !(ev.Client? && n.role == Leader)
    ensures Step(n, ev).node.log == n.log
  {
    HandlerEvolves(n, ev);
  }

  lemma EventStores(n: Node, m: Message)
    requires m.AppendRequest? && Ready(n, Receive(m))
    ensures Stored(n.log, OnAppendRequest(n, m).actions) == OnAppendRequest(n, m).node.log <==> !Spoils(n, Receive(m))
  {
    HandlerEvolves(n, Receive(m));
    assert OnAppendRequest(n, m).node.log == LogAfter(n, Receive(m));
    if Accepts(n, m) {
      RequestSpoils(n, m);
    } else {
      RequestStores(n.log, n, m);
    }
  }

  // ----- over a run

  /** The log file of node `v` in the `i`-th state: what doActions stored, from an empty file on. */
  ghost function FileOf(states: seq<Cluster>, moves: seq<Move>, guarded: bool, v: int, i: nat): seq<Entry>
    requires Run(states, moves, guarded) && i <= |moves|
  {
    if i == 0 then []
    else
      assert Follows(states, moves, guarded, i - 1);
      Stored(FileOf(states, moves, guarded, v, i - 1), ActionsAt(states[i - 1], moves[i - 1], v))
  }

  /** The move spoils the log file of node `v`. */
  predicate SpoiledAt(s: Cluster, mv: Move, v: int) {
    Possible(s, mv, false) && !mv.Lose? && Actor(mv) == v && v in s.nodes && Spoils(s.nodes[v], EventOf(s, mv))
  }

  /** What RaftNode.Get(k) returns of a file that reaches index `k` (assign4/RaftNode.go:146-151). */
  function GetFrom(file: seq<Entry>): int -> Msg {
    k => if 0 <= k < |file| then file[k].cmd else Bare('?')
  }

  ghost predicate HoldsLog(states: seq<Cluster>, moves: seq<Move>, guarded: bool, v: int, i: nat)
    requires Run(states, moves, guarded) && i <= |moves|
  {
    v in states[i].nodes && FileOf(states, moves, guarded, v, i) == states[i].nodes[v].log
  }

  lemma MoveStays(s: Cluster, mv: Move, v: int)
    requires Possible(s, mv, false) && Smooth(s, mv) && v in s.nodes
    ensures v in Apply(s, mv).nodes
    ensures Stored(s.nodes[v].log, ActionsAt(s, mv, v)) == Apply(s, mv).nodes[v].log <==> !SpoiledAt(s, mv, v)
  {
    hide Step, Stored, Spoils;
    if !mv.Lose? && Actor(mv) == v {
      StaysLog(s.nodes[v], EventOf(s, mv));
    } else {
      StoredNone(s.nodes[v].log, []);
    }
  }

  lemma {:induction false} NextHolds(states: seq<Cluster>, moves: seq<Move>, guarded: bool, v: int, i: nat)
    requires Run(states, moves, guarded) && i < |moves| && HoldsLog(states, moves, guarded, v, i)
    ensures HoldsLog(states, moves, guarded, v, i + 1) <==> !SpoiledAt(states[i], moves[i], v)
  {
    hide Apply, Stored, SpoiledAt, ActionsAt, Init;
    assert Follows(states, moves, guarded, i);
    MoveStays(states[i], moves[i], v);
  }

  /** The file holds the log throughout exactly when no request that the node accepted cut its log, or
      brought entries while it was a candidate or leader. */
  lemma {:induction false} FileIsLogIff(states: seq<Cluster>, moves: seq<Move>, guarded: bool, v: int, i: nat)
    requires Run(states, moves, guarded) && i <= |moves| && v in states[0].nodes
    ensures (forall j :: 0 <= j <= i ==> HoldsLog(states, moves, guarded, v, j)) <==>
      forall j :: 0 <= j < i ==> !SpoiledAt(states[j], moves[j], v)
  {
    hide HoldsLog, SpoiledAt, Follows;
    if i == 0 {
      FirstHolds(states, moves, guarded, v);
    } else {
      FileIsLogIff(states, moves, guarded, v, i - 1);
      if HoldsLog(states, moves, guarded, v, i - 1) { NextHolds(states, moves, guarded, v, i - 1); }
    }
  }

  lemma FirstHolds(states: seq<Cluster>, moves: seq<Move>, guarded: bool, v: int)
    requires Run(states, moves, guarded) && v in states[0].nodes
    ensures HoldsLog(states, moves, guarded, v, 0)
  {
    hide Follows;
    assert Fresh(states[0].nodes[v], v, states[0].nodes.Keys);
  }

  /** What comes later has no influence. */
  lemma {:induction false} FilePrefix(states: seq<Cluster>, moves: seq<Move>, states': seq<Cluster>, moves': seq<Move>,
                                      guarded: bool, v: int, i: nat)
    requires Run(states, moves, guarded) && Run(states', moves', guarded) && states <= states' && moves <= moves'
    requires i <= |moves|
    ensures FileOf(states', moves', guarded, v, i) == FileOf(states, moves, guarded, v, i)
  {
    hide Stored, Init, Possible, Smooth, Apply, ActionsAt;
    if i > 0 {
      FilePrefix(states, moves, states', moves', guarded, v, i - 1);
      assert Follows(states, moves, guarded, i - 1);
      assert states'[i - 1] == states[i - 1] && moves'[i - 1] == moves[i - 1];
    }
  }
}
