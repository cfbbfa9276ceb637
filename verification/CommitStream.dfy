/** The commit notices a node emits over a run: every committed entry once, in order; and the part
    of them that reaches the commit channel. */
module CommitStream {
  import opened RaftTypes
  import opened NodeStep
  import opened ClusterModel
  import opened Safety

  /** The successful commits among the actions of one event, nested lists included. */
  function Emitted(acts: seq<Action>): seq<Notice> {
    if acts == [] then []
    else (match acts[0]
          case Commit(index, cmd, failed) => if failed then [] else [Notice(index, cmd, false)]
          case Nested(inner) => Emitted(inner)
          case _ => []) + Emitted(acts[1..])
  }

  /** The commits that doActions puts on the channel: those not inside a nested list. */
  function Delivered(acts: seq<Action>): seq<Notice> {
    if acts == [] then [] else DeliveredOf(acts[0]) + Delivered(acts[1..])
  }

  function DeliveredOf(a: Action): seq<Notice> {
    if a.Commit? then [Notice(a.index, a.cmd, a.failed)] else []
  }

  /** Notices for the entries of `log` after index `from` up to `to`. */
  function Entries(log: seq<Entry>, from: int, to: int): (r: seq<Notice>)
    requires -1 <= from <= to < |log|
    ensures |r| == to - from
    ensures forall i :: 0 <= i < |r| ==> r[i] == Notice(from + 1 + i, log[from + 1 + i].cmd, false)
  {
    seq(to - from, i requires 0 <= i < to - from => Notice(from + 1 + i, log[from + 1 + i].cmd, false))
  }

  // ----- one event

  lemma {:induction false} EmittedConcat(xs: seq<Action>, ys: seq<Action>)
    ensures Emitted(xs + ys) == Emitted(xs) + Emitted(ys)
  {
    if xs == [] {
      assert xs + ys == ys;
    } else {
      assert (xs + ys)[1..] == xs[1..] + ys;
      EmittedConcat(xs[1..], ys);
    }
  }

  lemma {:induction false} EmittedNone(xs: seq<Action>)
    requires forall i :: 0 <= i < |xs| ==> !xs[i].Nested? && !(xs[i].Commit? && !xs[i].failed)
    ensures Emitted(xs) == []
  {
    if xs != [] { EmittedNone(xs[1..]); }
  }

  lemma {:induction false} EmittedCommits(xs: seq<Action>, log: seq<Entry>, from: int, to: int)
    requires -1 <= from <= to < |log| && |xs| == to - from
    requires forall i :: 0 <= i < |xs| ==> xs[i] == Commit(from + 1 + i, log[from + 1 + i].cmd, false)
    ensures Emitted(xs) == Entries(log, from, to)
  {
    if xs != [] {
      EmittedCommits(xs[1..], log, from + 1, to);
      assert Entries(log, from, to) == [Notice(from + 1, log[from + 1].cmd, false)] + Entries(log, from + 1, to);
    }
  }

  /** Actions that end in the commits from index `from` to `to` and hold no others. */
  lemma {:induction false} EmittedTail(xs: seq<Action>, tail: seq<Action>, log: seq<Entry>, from: int, to: int)
    requires -1 <= from <= to < |log| && tail == Commits(log, from, to) && |tail| <= |xs|
    requires xs[|xs| - |tail|..] == tail
    requires forall i :: 0 <= i < |xs| - |tail| ==> !xs[i].Nested? && !xs[i].Commit?
    ensures Emitted(xs) == Entries(log, from, to)
  {
    var front := xs[..|xs| - |tail|];
    assert xs == front + tail;
    EmittedConcat(front, tail);
    EmittedNone(front);
    EmittedCommits(tail, log, from, to);
  }

  lemma FollowerEmits(n: Node, m: Message)
    requires m.AppendRequest? && Ready(n, Receive(m))
    ensures var out := OnAppendRequestFollower(n, m);
      n.commit <= out.node.commit < |out.node.log| ==>
        Emitted(out.actions) == Entries(out.node.log, n.commit, out.node.commit)
  {
    var out := OnAppendRequestFollower(n, m);
    if !Accepts(n, m) {
      EmittedNone(out.actions);
    } else if n.commit <= out.node.commit < |out.node.log| {
      var n1 := n.(votedFor := m.leaderId, term := m.term);
      var opening := [Alarm(Election), StateStore(n1.role, n1.term, n1.votedFor)];
      assert out.actions == opening + AcceptActions(n1, out.node, m);
      AcceptEmits(n1, out.node, m);
      EmittedConcat(opening, AcceptActions(n1, out.node, m));
      EmittedNone(opening);
    }
  }

  lemma AcceptEmits(n: Node, n': Node, m: Message)
    requires m.AppendRequest? && 0 <= m.prevLogIndex + 1 <= |n.log| && -1 <= n.commit <= n'.commit < |n'.log|
    ensures Emitted(AcceptActions(n, n', m)) == Entries(n'.log, n.commit, n'.commit)
  {
    EmittedTail(AcceptActions(n, n', m), Commits(n'.log, n.commit, n'.commit), n'.log, n.commit, n'.commit);
  }

  lemma ResponseEmits(n: Node, m: Message)
    requires m.AppendResponse? && Ready(n, Receive(m))
    ensures var out := OnAppendResponse(n, m);
      n.commit <= out.node.commit < |out.node.log| ==>
        Emitted(out.actions) == Entries(out.node.log, n.commit, out.node.commit)
  {
    var out := OnAppendResponse(n, m);
    if n.role == Leader && m.success {
      if out.actions != [] { EmittedCommits(out.actions, n.log, n.commit, out.node.commit); }
    } else {
      EmittedNone(out.actions);
    }
  }

  lemma RequestEmits(n: Node, m: Message)
    requires m.AppendRequest? && Ready(n, Receive(m))
    ensures var out := OnAppendRequest(n, m);
      n.commit <= out.node.commit < |out.node.log| ==>
        Emitted(out.actions) == Entries(out.node.log, n.commit, out.node.commit)
  {
    hide OnAppendRequestFollower;
    if n.role == Follower || n.term > m.term {
      FollowerEmits(n, m);
    } else {
      var inner := OnAppendRequestFollower(n.(role := Follower), m).actions;
      FollowerEmits(n.(role := Follower), m);
      assert OnAppendRequest(n, m).actions == [Nested(inner)];
      assert Emitted([Nested(inner)]) == Emitted(inner) + Emitted([]);
    }
  }

  /** The commits of one event are the entries between the old and the new commit index. */
  lemma StepEmits(n: Node, ev: Event)
    requires Ready(n, ev)
    ensures var out := Step(n, ev);
      n.commit <= out.node.commit < |out.node.log| ==>
        Emitted(out.actions) == Entries(out.node.log, n.commit, out.node.commit)
  {
    hide OnAppendRequest, OnAppendResponse;
    var acts := Step(n, ev).actions;
    match ev
    case Client(_) => EmittedNone(acts);
    case Timeout => EmittedNone(acts);
    case Receive(m) =>
      match m
      case VoteRequest(_, _, _, _) => EmittedNone(acts);
      case VoteResponse(_, _) => EmittedNone(acts);
      case AppendRequest(_, _, _, _, _, _) => RequestEmits(n, m);
      case AppendResponse(_, _, _, _) => ResponseEmits(n, m);
  }

  // ----- a run

  /** All that node `v` emits up to the `i`-th state. */
  ghost function Stream(states: seq<Cluster>, moves: seq<Move>, v: int, i: nat): seq<Notice>
    requires Run(states, moves, true) && i <= |moves|
  {
    if i == 0 then []
    else
      assert Follows(states, moves, true, i - 1);
      Stream(states, moves, v, i - 1) + Emitted(ActionsAt(states[i - 1], moves[i - 1], v))
  }

  /** What reaches the commit channel of node `v` up to the `i`-th state. */
  ghost function Channel(states: seq<Cluster>, moves: seq<Move>, v: int, i: nat): seq<Notice>
    requires Run(states, moves, true) && i <= |moves|
  {
    if i == 0 then []
    else
      assert Follows(states, moves, true, i - 1);
      Channel(states, moves, v, i - 1) + Delivered(ActionsAt(states[i - 1], moves[i - 1], v))
  }

  lemma ActionsEmit(s: Cluster, mv: Move, v: int)
    requires Possible(s, mv, false) && Smooth(s, mv) && v in s.nodes
    requires var n, n' := s.nodes[v], Apply(s, mv).nodes[v];
      -1 <= n.commit <= n'.commit < |n'.log|
    ensures var n, n' := s.nodes[v], Apply(s, mv).nodes[v];
      Emitted(ActionsAt(s, mv, v)) == Entries(n'.log, n.commit, n'.commit)
  {
    if !mv.Lose? && v == Actor(mv) { StepEmits(s.nodes[v], EventOf(s, mv)); }
  }

  lemma EntriesJoin(log: seq<Entry>, log': seq<Entry>, c: int, c': int)
    requires -1 <= c <= c' < |log'| && c < |log| && log[..c + 1] == log'[..c + 1]
    ensures Entries(log, -1, c) + Entries(log', c, c') == Entries(log', -1, c')
  {
    forall i | 0 <= i <= c ensures log[i] == log'[i] {
      assert log[..c + 1][i] == log'[..c + 1][i];
    }
  }

  lemma {:induction false} StreamGrows(states: seq<Cluster>, moves: seq<Move>, v: int, i: nat)
    requires Run(states, moves, true) && i < |moves| && v in states[i].nodes && v in states[i + 1].nodes
    requires -1 <= states[i].nodes[v].commit <= states[i + 1].nodes[v].commit < |states[i + 1].nodes[v].log|
    ensures Stream(states, moves, v, i + 1) ==
      Stream(states, moves, v, i)
      + Entries(states[i + 1].nodes[v].log, states[i].nodes[v].commit, states[i + 1].nodes[v].commit)
  {
    assert Follows(states, moves, true, i);
    ActionsEmit(states[i], moves[i], v);
  }

  lemma {:induction false} CommitsNext(states: seq<Cluster>, moves: seq<Move>, v: int, i: nat)
    requires SafeRun(states, moves) && i < |moves| && v in states[0].nodes && v in states[i].nodes
    requires -1 <= states[i].nodes[v].commit < |states[i].nodes[v].log|
    requires Stream(states, moves, v, i) == Entries(states[i].nodes[v].log, -1, states[i].nodes[v].commit)
    ensures v in states[i + 1].nodes && -1 <= states[i + 1].nodes[v].commit < |states[i + 1].nodes[v].log|
    ensures Stream(states, moves, v, i + 1) == Entries(states[i + 1].nodes[v].log, -1, states[i + 1].nodes[v].commit)
  {
    hide Apply, Stream, Follows;
    CommitMonotone(states, moves, i, i + 1, v);
    StreamGrows(states, moves, v, i);
    var n, n' := states[i].nodes[v], states[i + 1].nodes[v];
    EntriesJoin(n.log, n'.log, n.commit, n'.commit);
  }

  /** Over any run each node emits the commits of indices 0, 1, 2, ... up to its commit index, each
      once and in order, each with the command its log holds there. */
  lemma {:induction false} CommitsInOrder(states: seq<Cluster>, moves: seq<Move>, v: int, i: nat)
    requires SafeRun(states, moves) && i <= |moves| && v in states[0].nodes
    ensures v in states[i].nodes && -1 <= states[i].nodes[v].commit < |states[i].nodes[v].log|
    ensures Stream(states, moves, v, i) == Entries(states[i].nodes[v].log, -1, states[i].nodes[v].commit)
  {
    CommitMonotone(states, moves, i, i, v);
    if i == 0 {
      assert Fresh(states[0].nodes[v], v, states[0].nodes.Keys);
    } else {
      CommitsInOrder(states, moves, v, i - 1);
      CommitsNext(states, moves, v, i - 1);
    }
  }

  /** The successful notices of `part` are all in `whole`. */
  predicate Within(part: seq<Notice>, whole: seq<Notice>) {
    forall x :: x in part && !x.failed ==> x in whole
  }

  lemma WithinConcat(a: seq<Notice>, b: seq<Notice>, c: seq<Notice>, d: seq<Notice>)
    requires Within(a, b) && Within(c, d)
    ensures Within(a + c, b + d)
  {}

  lemma {:induction false} DeliveredEmitted(acts: seq<Action>)
    ensures Within(Delivered(acts), Emitted(acts))
  {
    if acts != [] { DeliveredEmitted(acts[1..]); }
  }

  lemma {:induction false} ChannelWithinStream(states: seq<Cluster>, moves: seq<Move>, v: int, i: nat)
    requires Run(states, moves, true) && i <= |moves|
    ensures Within(Channel(states, moves, v, i), Stream(states, moves, v, i))
  {
    if i > 0 {
      ChannelWithinStream(states, moves, v, i - 1);
      assert Follows(states, moves, true, i - 1);
      var acts := ActionsAt(states[i - 1], moves[i - 1], v);
      DeliveredEmitted(acts);
      WithinConcat(Channel(states, moves, v, i - 1), Stream(states, moves, v, i - 1), Delivered(acts), Emitted(acts));
    }
  }

  /** Every successful notice on a node's channel names a committed index and the command there. */
  lemma {:induction false} ChannelCorrect(states: seq<Cluster>, moves: seq<Move>, v: int, i: nat, x: Notice)
    requires SafeRun(states, moves) && i <= |moves| && v in states[0].nodes
    requires x in Channel(states, moves, v, i) && !x.failed
    ensures v in states[i].nodes && 0 <= x.index <= states[i].nodes[v].commit < |states[i].nodes[v].log|
    ensures x.cmd == states[i].nodes[v].log[x.index].cmd
  {
    ChannelWithinStream(states, moves, v, i);
    CommitsInOrder(states, moves, v, i);
  }
}
