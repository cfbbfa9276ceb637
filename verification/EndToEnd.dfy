/** From the protocol to the files: what two servers have applied of the replicated log. */
module EndToEnd {
  import opened Commands
  import opened RaftTypes
  import opened ClusterModel
  import opened Safety
  import opened CommitStream
  import opened LogFile
  import FileStore
  import opened Replicas
  import opened SingleIndex
  import opened Applier

  /** `get` returns the commands that node `n` has committed. */
  predicate Fetches(get: int -> Msg, n: Node) {
    forall k :: 0 <= k <= n.commit && k < |n.log| ==> get(k) == n.log[k].cmd
  }

  /** A node's log file serves the applier as long as nothing has spoilt it. */
  lemma {:induction false} FileServes(states: seq<Cluster>, moves: seq<Move>, v: int, i: nat)
    requires SafeRun(states, moves) && i <= |moves| && v in states[0].nodes
    requires forall j :: 0 <= j < i ==> !SpoiledAt(states[j], moves[j], v)
    ensures v in states[i].nodes && Fetches(GetFrom(FileOf(states, moves, true, v, i)), states[i].nodes[v])
    ensures states[i].nodes[v].commit < |FileOf(states, moves, true, v, i)|
  {
    hide SpoiledAt, FileOf, Init, Follows;
    FileIsLogIff(states, moves, true, v, i);
    assert HoldsLog(states, moves, true, v, i);
    RunCommitInside(states, moves, i, v);
  }

  /** The commands of the first `len` entries. */
  function Cmds(log: seq<Entry>, len: int): (cmds: seq<Msg>)
    requires 0 <= len <= |log|
    ensures |cmds| == len && forall k :: 0 <= k < len ==> cmds[k] == log[k].cmd
  {
    seq(len, k requires 0 <= k < len => log[k].cmd)
  }

  /** A server of the cluster: node `v`, at the `i`-th state of the run, whose applier has taken the
      first `taken` notices from the commit channel. */
  datatype Replica = Replica(v: int, i: nat, taken: nat, get: int -> Msg)

  ghost predicate Serving(states: seq<Cluster>, moves: seq<Move>, r: Replica) {
    && SafeRun(states, moves) && r.i <= |moves| && r.i < |states| && r.v in states[0].nodes
    && r.taken <= |Channel(states, moves, r.v, r.i)|
    && r.v in states[r.i].nodes && Fetches(r.get, states[r.i].nodes[r.v])
  }

  ghost function Taken(states: seq<Cluster>, moves: seq<Move>, r: Replica): seq<Notice>
    requires Serving(states, moves, r)
  {
    Channel(states, moves, r.v, r.i)[..r.taken]
  }

  /** The index up to which the server has applied the log, or -1. */
  ghost function AppliedTo(states: seq<Cluster>, moves: seq<Move>, r: Replica): int
    requires Serving(states, moves, r)
  {
    Highest(Taken(states, moves, r))
  }

  ghost function CommandsOf(states: seq<Cluster>, moves: seq<Move>, r: Replica): seq<Msg>
    requires Serving(states, moves, r)
  {
    Processed(r.get, Taken(states, moves, r))
  }

  lemma TakenCorrect(states: seq<Cluster>, moves: seq<Move>, r: Replica, x: Notice)
    requires Serving(states, moves, r) && x in Taken(states, moves, r) && !x.failed
    ensures 0 <= x.index <= states[r.i].nodes[r.v].commit < |states[r.i].nodes[r.v].log|
    ensures x.cmd == r.get(x.index)
  {
    ChannelCorrect(states, moves, r.v, r.i, x);
  }

  lemma TakenNewsCorrect(states: seq<Cluster>, moves: seq<Move>, r: Replica)
    requires Serving(states, moves, r)
    ensures NewsCorrect(r.get, Taken(states, moves, r))
  {
    hide Taken;
    var stream := Taken(states, moves, r);
    forall k | 0 <= k < |stream| ensures TrueNews(r.get, stream, k) {
      if !stream[k].failed { TakenCorrect(states, moves, r, stream[k]); }
    }
  }

  lemma AppliedWithinCommit(states: seq<Cluster>, moves: seq<Move>, r: Replica)
    requires Serving(states, moves, r)
    ensures -1 <= AppliedTo(states, moves, r) <= states[r.i].nodes[r.v].commit < |states[r.i].nodes[r.v].log|
  {
    hide Taken;
    var stream := Taken(states, moves, r);
    HighestIsMax(stream);
    CommitMonotone(states, moves, r.i, r.i, r.v);
    if Highest(stream) != -1 {
      var x :| x in stream && !x.failed && x.index == Highest(stream);
      TakenCorrect(states, moves, r, x);
    }
  }

  /** In every run a server has processed exactly the commands of its node's log, from index 0 to
      the largest it was notified of, once each and in order. */
  lemma ProcessesLog(states: seq<Cluster>, moves: seq<Move>, r: Replica)
    requires Serving(states, moves, r)
    ensures var h := AppliedTo(states, moves, r);
      && -1 <= h <= states[r.i].nodes[r.v].commit < |states[r.i].nodes[r.v].log|
      && CommandsOf(states, moves, r) == Cmds(states[r.i].nodes[r.v].log, h + 1)
  {
    hide Taken, NewsCorrect, SafeRun, Fetches, Fetched, Processed, Highest, Cmds, Channel;
    AppliedWithinCommit(states, moves, r);
    TakenNewsCorrect(states, moves, r);
    ExactlyOnceIff(r.get, Taken(states, moves, r));
    FetchesLog(r.get, states[r.i].nodes[r.v], AppliedTo(states, moves, r));
  }

  lemma FetchesLog(get: int -> Msg, n: Node, h: int)
    requires Fetches(get, n) && -1 <= h <= n.commit < |n.log|
    ensures Fetched(get, 0, h + 1) == Cmds(n.log, h + 1)
  {}

  /** Of any two servers in a run, at any two times, one has processed a prefix of what the other has. */
  lemma SameCommands(states: seq<Cluster>, moves: seq<Move>, r: Replica, t: Replica)
    requires Serving(states, moves, r) && Serving(states, moves, t)
    requires AppliedTo(states, moves, r) <= AppliedTo(states, moves, t)
    ensures CommandsOf(states, moves, r) <= CommandsOf(states, moves, t)
  {
    hide Taken, CommandsOf, AppliedTo, Run, Fetches, Channel;
    ProcessesLog(states, moves, r);
    ProcessesLog(states, moves, t);
    var h := AppliedTo(states, moves, r);
    if h >= 0 {
      if r.i <= t.i {
        StateMachineSafety(states, moves, r.i, t.i, r.v, t.v, h);
      } else {
        StateMachineSafety(states, moves, t.i, r.i, t.v, r.v, h);
      }
      SameEntries(states[r.i].nodes[r.v].log, states[t.i].nodes[t.v].log, h + 1);
    }
  }

  lemma SameEntries(x: seq<Entry>, y: seq<Entry>, n: nat)
    requires n <= |x| && n <= |y| && x[..n] == y[..n]
    ensures Cmds(x, n) == Cmds(y, n)
  {
    forall k | 0 <= k < n ensures x[k] == y[k] { assert x[..n][k] == y[..n][k]; }
  }

  /** Replica agreement. Two servers that have processed the log up to the same index, whatever
      local reads and timer expiries came between the commands, hold equal stores (files and global
      version) and computed the same response for every command, if every file for which a command
      started a timer was replaced by the next command that has to do with it. */
  lemma {:induction false} ReplicaAgreement(states: seq<Cluster>, moves: seq<Move>, r: Replica, t: Replica,
                                            a: seq<FileStore.StoreEvent>, b: seq<FileStore.StoreEvent>)
    requires Serving(states, moves, r) && Serving(states, moves, t)
    requires AppliedTo(states, moves, r) == AppliedTo(states, moves, t)
    requires FileStore.Valid(a) && Applied(a, |a|) == CommandsOf(states, moves, r)
    requires FileStore.Valid(b) && Applied(b, |b|) == CommandsOf(states, moves, t)
    requires AllReplaced(CommandsOf(states, moves, r))
    ensures SameReplica(a, b)
  {
    SameCommands(states, moves, r, t);
    SameCommands(states, moves, t, r);
    BothAsReplay(a, b, CommandsOf(states, moves, r));
  }

  /** What the loop of server `r` does to its store, whatever others do meanwhile and later, is such a
      history: it is possible, and the commands it applies are CommandsOf. */
  lemma ListenerIsReplica(states: seq<Cluster>, moves: seq<Move>, r: Replica, clients: set<int>,
                          others: nat -> seq<FileStore.StoreEvent>, later: seq<FileStore.StoreEvent>)
      returns (history: seq<FileStore.StoreEvent>)
    requires Serving(states, moves, r)
    ensures history == Meanwhile(Listen(UNSERVED, r.get, Taken(states, moves, r), clients, others).history, later)
    ensures FileStore.Valid(history) && Applied(history, |history|) == CommandsOf(states, moves, r)
  {
    hide Taken, Serving, Listen, Meanwhile, Processed;
    var stream := Taken(states, moves, r);
    ListenSettles(r.get, stream, clients, others);
    var h := Listen(UNSERVED, r.get, stream, clients, others).history;
    history := Meanwhile(h, later);
    MeanwhileServes(h, later, Processed(r.get, stream));
  }

  /** Two servers' own loops end in equal stores and send the responses of one replay, whatever other
      goroutines do on either, if they have processed the log up to the same index and every file for
      which a command started a timer was replaced by the next command that has to do with it. */
  lemma {:induction false} ListenersAgree(states: seq<Cluster>, moves: seq<Move>, r: Replica, t: Replica,
                                          c: set<int>, d: set<int>,
                                          others: nat -> seq<FileStore.StoreEvent>,
                                          others': nat -> seq<FileStore.StoreEvent>,
                                          later: seq<FileStore.StoreEvent>, later': seq<FileStore.StoreEvent>)
    requires Serving(states, moves, r) && Serving(states, moves, t)
    requires AppliedTo(states, moves, r) == AppliedTo(states, moves, t)
    requires AllReplaced(CommandsOf(states, moves, r))
    ensures var x := Listen(UNSERVED, r.get, Taken(states, moves, r), c, others);
      var y := Listen(UNSERVED, t.get, Taken(states, moves, t), d, others');
      var cmds := CommandsOf(states, moves, r);
      && Ends(Meanwhile(x.history, later)).store == Ends(Meanwhile(y.history, later')).store
      && (NeverArms(cmds) ==> Ends(Meanwhile(x.history, later)) == Ends(Meanwhile(y.history, later')))
      && Responses(x.answers) == Owed(cmds, Replay(cmds).responses, c)
      && Responses(y.answers) == Owed(cmds, Replay(cmds).responses, d)
  {
    hide Taken, AppliedTo, Serving, Listen, Meanwhile, Responses, Owed, Processed, NeverArms, AllReplaced, Replay;
    SameCommands(states, moves, r, t);
    SameCommands(states, moves, t, r);
    assert CommandsOf(states, moves, r) == CommandsOf(states, moves, t);
    ListenReplays(r.get, Taken(states, moves, r), c, others, later);
    ListenReplays(t.get, Taken(states, moves, t), d, others', later');
  }

  /** In every run the loop of a server has applied its node's log up to the largest index it was
      notified of, once each and in order, whatever other goroutines do. */
  lemma {:induction false} ListenerAppliesLog(states: seq<Cluster>, moves: seq<Move>, r: Replica, clients: set<int>,
                           others: nat -> seq<FileStore.StoreEvent>, later: seq<FileStore.StoreEvent>)
    requires Serving(states, moves, r)
    ensures var h, n := AppliedTo(states, moves, r), states[r.i].nodes[r.v];
      var history := Meanwhile(Listen(UNSERVED, r.get, Taken(states, moves, r), clients, others).history, later);
      && -1 <= h <= n.commit < |n.log|
      && FileStore.Valid(history) && Applied(history, |history|) == Cmds(n.log, h + 1)
  {
    hide Taken, AppliedTo, CommandsOf, Listen, Meanwhile, Fetches, Run;
    ProcessesLog(states, moves, r);
    var history := ListenerIsReplica(states, moves, r, clients, others, later);
  }
}
