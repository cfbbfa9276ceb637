/** The node around a state machine (assign4/RaftNode.go): it runs one event and carries out the
    actions. What leaves it is what the cluster model puts on links and on the commit channel. */
module RaftNodeClass {
  import opened RaftTypes
  import opened NodeStep
  import opened ClusterModel
  import opened CommitStream
  import opened LogFile
  import opened StateFile
  import opened StateMachineClass

  /** A message handed to the network for a node. */
  datatype Packet = Packet(to: int, msg: Message)

  /** The messages for `to`, in order. */
  function Addressed(outbox: seq<Packet>, to: int): seq<Message> {
    if outbox == [] then []
    else Addressed(outbox[..|outbox| - 1], to)
         + (if outbox[|outbox| - 1].to == to then [outbox[|outbox| - 1].msg] else [])
  }

  class RaftNode {
    const sm: StateMachine
    /** All that was sent and all that was put on the commit channel so far. */
    var outbox: seq<Packet>
    var CommitCh: seq<Notice>
    /** The entries of the log file, and the lines of the state file. */
    var logFP: seq<Entry>
    var stateFP: seq<SMState>
    /** The timeouts that the timer was set to, the last of which is running. */
    var timer: seq<Timer>

    /** assign4/RaftNode.go:56-75, with the two files as they are found */
    constructor (id: int, cluster: seq<int>, stateFile: seq<SMState>, logFile: seq<Entry>)
      requires id in cluster && forall i, j :: 0 <= i < j < |cluster| ==> cluster[i] != cluster[j]
      requires stateFile != []
      ensures sm.Valid() && PeersOf(sm.peer, id, set x | x in cluster)
      ensures sm.Value() == Initialized(id, sm.peer, ReadState(stateFile), logFile)
      ensures outbox == [] && CommitCh == [] && logFP == logFile && stateFP == stateFile && timer == [Election]
    {
      sm := new StateMachine(id, cluster, ReadState(stateFile), logFile);
      outbox, CommitCh := [], [];
      logFP, stateFP, timer := logFile, stateFile, [Election];
    }

    /** assign4/ActionHandler.go:36-43 */
    method LogStoreHandler(index: int, entry: Entry)
      modifies this`logFP
      ensures logFP == StoreIn(old(logFP), index, entry)
    {
      var lgLastIndex := |logFP| - 1;
      if lgLastIndex >= index {
        logFP := logFP[..Max(0, index)];
      } else {
        logFP := logFP + [entry];
      }
    }

    /** assign4/RaftNode.go:229-246. A nested list of actions matches no case and is dropped. */
    method DoAction(action: Action)
      modifies this
      ensures CommitCh == old(CommitCh) + DeliveredOf(action) && logFP == StoredBy(old(logFP), action)
      ensures stateFP == old(stateFP) + SavedOf(action) && timer == old(timer) + RestartedOf(action)
      ensures forall to :: Addressed(outbox, to) == Addressed(old(outbox), to) + SentOf(action, to)
    {
      match action {
        case Send(to, msg) => outbox := outbox + [Packet(to, msg)];
        case Commit(index, cmd, failed) => CommitCh := CommitCh + [Notice(index, cmd, failed)];
        case LogStore(index, entry) => LogStoreHandler(index, entry);
        case StateStore(role, term, votedFor) => stateFP := stateFP + [SMState(role, term, votedFor)];
        case Alarm(which) => timer := timer + [which];
        case Nested(_) =>
      }
    }

    /** assign4/RaftNode.go:226-248 */
    method DoActions(actions: seq<Action>)
      modifies this
      ensures CommitCh == old(CommitCh) + Delivered(actions) && logFP == Stored(old(logFP), actions)
      ensures stateFP == old(stateFP) + Saved(actions) && timer == old(timer) + Restarted(actions)
      ensures forall to :: Addressed(outbox, to) == Addressed(old(outbox), to) + Sent(actions, to)
    {
      hide Addressed, SentOf, DeliveredOf, StoredBy, SavedOf, RestartedOf;
      var i := 0;
      while i < |actions|
        invariant 0 <= i <= |actions|
        invariant CommitCh == old(CommitCh) + Delivered(actions[..i])
        invariant logFP == Stored(old(logFP), actions[..i])
        invariant stateFP == old(stateFP) + Saved(actions[..i]) && timer == old(timer) + Restarted(actions[..i])
        invariant forall to :: Addressed(outbox, to) == Addressed(old(outbox), to) + Sent(actions[..i], to)
      {
        DeliveredOneMore(actions, i);
        SentOneMore(actions, i);
        StoredOneMore(old(logFP), actions, i);
        KeptOneMore(actions, i);
        DoAction(actions[i]);
        i := i + 1;
      }
      assert actions[..|actions|] == actions;
    }

    /** One round of the loop of assign4/RaftNode.go:198-223. */
    method HandleEvent(ev: Event)
      requires sm.Valid() && Ready(sm.Value(), ev)
      modifies this, sm, sm.nextIndex, sm.matchIndex
      ensures sm.Valid()
      ensures var out := Step(old(sm.Value()), ev);
        && sm.Value() == out.node
        && CommitCh == old(CommitCh) + Delivered(out.actions)
        && logFP == Stored(old(logFP), out.actions)
        && stateFP == old(stateFP) + Saved(out.actions) && timer == old(timer) + Restarted(out.actions)
        && forall to :: Addressed(outbox, to) == Addressed(old(outbox), to) + Sent(out.actions, to)
    {
      hide Step, Sent, Delivered, Addressed, Stored, Saved, Restarted;
      var actions := sm.ProcessEvent(ev);
      DoActions(actions);
    }
  }

  lemma {:induction false} DeliveredConcat(xs: seq<Action>, ys: seq<Action>)
    ensures Delivered(xs + ys) == Delivered(xs) + Delivered(ys)
  {
    hide DeliveredOf;
    if xs == [] {
      assert xs + ys == ys;
    } else {
      assert (xs + ys)[1..] == xs[1..] + ys;
      DeliveredConcat(xs[1..], ys);
    }
  }

  lemma DeliveredOneMore(actions: seq<Action>, i: nat)
    requires i < |actions|
    ensures Delivered(actions[..i + 1]) == Delivered(actions[..i]) + DeliveredOf(actions[i])
  {
    assert actions[..i + 1] == actions[..i] + [actions[i]];
    DeliveredConcat(actions[..i], [actions[i]]);
  }

  lemma SentOneMore(actions: seq<Action>, i: nat)
    requires i < |actions|
    ensures forall to :: Sent(actions[..i + 1], to) == Sent(actions[..i], to) + SentOf(actions[i], to)
  {
    assert actions[..i + 1] == actions[..i] + [actions[i]];
    forall to ensures Sent(actions[..i + 1], to) == Sent(actions[..i], to) + SentOf(actions[i], to) {
      SentConcat(actions[..i], [actions[i]], to);
    }
  }

  lemma {:induction false} StoredOneMore(file: seq<Entry>, actions: seq<Action>, i: nat)
    requires i < |actions|
    ensures Stored(file, actions[..i + 1]) == StoredBy(Stored(file, actions[..i]), actions[i])
  {
    assert actions[..i + 1] == actions[..i] + [actions[i]];
    StoredConcat(file, actions[..i], [actions[i]]);
  }

  lemma KeptOneMore(actions: seq<Action>, i: nat)
    requires i < |actions|
    ensures Saved(actions[..i + 1]) == Saved(actions[..i]) + SavedOf(actions[i])
    ensures Restarted(actions[..i + 1]) == Restarted(actions[..i]) + RestartedOf(actions[i])
  {
    assert actions[..i + 1] == actions[..i] + [actions[i]];
    SavedConcat(actions[..i], [actions[i]]);
    RestartedConcat(actions[..i], [actions[i]]);
    KeptSingle(actions[i]);
  }

  /** With the files of a node brought up for the first time it is fresh. */
  lemma CleanIsFresh(id: int, peers: seq<int>, ids: set<int>)
    requires PeersOf(peers, id, ids)
    ensures Fresh(Initialized(id, peers, ReadState(CLEAN), []), id, ids)
  {}
}
