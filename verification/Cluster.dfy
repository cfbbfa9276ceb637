/** The cluster as a transition system: the nodes, and one first-in first-out queue per ordered
    pair of nodes. A queue may lose any message but never reorders or duplicates one. */
module ClusterModel {
  import opened Commands
  import opened RaftTypes
  import opened NodeStep

  datatype Cluster = Cluster(nodes: map<int, Node>, net: map<(int, int), seq<Message>>)

  /** Ask: a client request reaches `at`. Tick: its timer fires. Deliver: the oldest message from
      `src` to `dst` is handled. Lose: the message at position `pos` of that queue disappears. */
  datatype Move =
    | Ask(at: int, cmd: Msg)
    | Tick(at: int)
    | Deliver(src: int, dst: int)
    | Lose(src: int, dst: int, pos: nat)

  /** Messages waiting on the link from `a` to `b`, oldest first. */
  function Link(s: Cluster, a: int, b: int): seq<Message> {
    if (a, b) in s.net then s.net[(a, b)] else []
  }

  /** Messages that doActions (assign4/RaftNode.go:226-248) sends to `to`. Nested lists match no
      case of its type switch, so their sends are lost. */
  function Sent(acts: seq<Action>, to: int): seq<Message> {
    if acts == [] then [] else SentOf(acts[0], to) + Sent(acts[1..], to)
  }

  function SentOf(a: Action, to: int): seq<Message> {
    if a.Send? && a.to == to then [a.msg] else []
  }

  /** A success reply reaching a leader in a later term than the one it answers. */
  predicate StaleAck(s: Cluster, src: int, dst: int)
    requires dst in s.nodes && Link(s, src, dst) != []
  {
    var m := Link(s, src, dst)[0];
    m.AppendResponse? && m.success && s.nodes[dst].role == Leader && m.term != s.nodes[dst].term
  }

  /** The environment can make this move. When `guarded`, it never delivers a stale success reply. */
  predicate Possible(s: Cluster, mv: Move, guarded: bool) {
    match mv
    case Ask(v, _) => v in s.nodes
    case Tick(v) => v in s.nodes
    case Deliver(a, b) =>
      a in s.nodes && b in s.nodes && Link(s, a, b) != [] && (guarded ==> !StaleAck(s, a, b))
    case Lose(a, b, i) => a in s.nodes && b in s.nodes && i < |Link(s, a, b)|
  }

  /** The node a move acts on, the event it handles, and the links with that event's message taken off. */
  function Actor(mv: Move): int
    requires !mv.Lose?
  {
    if mv.Deliver? then mv.dst else mv.at
  }

  function EventOf(s: Cluster, mv: Move): Event
    requires !mv.Lose? && Possible(s, mv, false)
  {
    match mv
    case Ask(_, cmd) => Client(cmd)
    case Tick(_) => Timeout
    case Deliver(a, b) => Receive(Link(s, a, b)[0])
  }

  function NetLeft(s: Cluster, mv: Move): map<(int, int), seq<Message>>
    requires Possible(s, mv, false)
  {
    match mv
    case Deliver(a, b) => s.net[(a, b) := s.net[(a, b)][1..]]
    case Lose(a, b, i) => s.net[(a, b) := s.net[(a, b)][..i] + s.net[(a, b)][i + 1..]]
    case _ => s.net
  }

  /** No slice or index of the handler that the move runs is out of range: in Go it would panic. */
  predicate Smooth(s: Cluster, mv: Move)
    requires Possible(s, mv, false)
  {
    mv.Lose? || Ready(s.nodes[Actor(mv)], EventOf(s, mv))
  }

  function Apply(s: Cluster, mv: Move): Cluster
    requires Possible(s, mv, false) && Smooth(s, mv)
  {
    var net := NetLeft(s, mv);
    if mv.Lose? then
      s.(net := net)
    else
      var v := Actor(mv);
      var out := Step(s.nodes[v], EventOf(s, mv));
      Cluster(s.nodes[v := out.node],
              map l | l in net :: if l.0 == v then net[l] + Sent(out.actions, l.1) else net[l])
  }

  /** What the move makes node `v` do. */
  function ActionsAt(s: Cluster, mv: Move, v: int): seq<Action>
    requires Possible(s, mv, false) && Smooth(s, mv)
  {
    if mv.Lose? || v != Actor(mv) then [] else Step(s.nodes[v], EventOf(s, mv)).actions
  }

  // ----- initial states (assign4/RaftNode.go:77-128, 172-176)

  /** Node `v` of the cluster `ids` as InitializeStateMachine leaves it with a clean state file. */
  ghost predicate Fresh(n: Node, v: int, ids: set<int>) {
    && n.id == v && n.role == Follower && n.term == 0 && n.votedFor == 0
    && n.log == [] && n.commit == -1 && n.yes == 0 && n.no == 0
    && PeersOf(n.peers, v, ids)
    && n.nextIndex == seq(|n.peers|, i => 0)
    && n.matchIndex == seq(|n.peers|, i => -1)
  }

  /** `peers` lists every other member of `ids` exactly once. */
  ghost predicate PeersOf(peers: seq<int>, v: int, ids: set<int>) {
    && |peers| + 1 == |ids|
    && (forall x :: x in peers <==> x in ids && x != v)
    && (forall i, j :: 0 <= i < j < |peers| ==> peers[i] != peers[j])
  }

  ghost predicate Init(s: Cluster) {
    && 0 !in s.nodes.Keys
    && (forall v :: v in s.nodes ==> Fresh(s.nodes[v], v, s.nodes.Keys))
    && (forall a, b :: (a, b) in s.net <==> a in s.nodes && b in s.nodes)
    && (forall l :: l in s.net ==> s.net[l] == [])
  }

  /** A run: the states passed through and the moves between them. */
  ghost predicate Run(states: seq<Cluster>, moves: seq<Move>, guarded: bool) {
    && |states| == |moves| + 1
    && Init(states[0])
    && (forall i :: 0 <= i < |moves| ==> Follows(states, moves, guarded, i))
  }

  ghost predicate Follows(states: seq<Cluster>, moves: seq<Move>, guarded: bool, i: nat)
    requires i < |moves| < |states|
  {
    && Possible(states[i], moves[i], guarded)
    && Smooth(states[i], moves[i])
    && states[i + 1] == Apply(states[i], moves[i])
  }

  // ----- what one handler puts on the links

  lemma {:induction false} SentConcat(xs: seq<Action>, ys: seq<Action>, to: int)
    ensures Sent(xs + ys, to) == Sent(xs, to) + Sent(ys, to)
  {
    hide SentOf;
    if xs == [] {
      assert xs + ys == ys;
    } else {
      assert (xs + ys)[1..] == xs[1..] + ys;
      SentConcat(xs[1..], ys, to);
    }
  }

  lemma {:induction false} SentNone(xs: seq<Action>, to: int)
    requires forall i :: 0 <= i < |xs| ==> !(xs[i].Send? && xs[i].to == to)
    ensures Sent(xs, to) == []
  {
    if xs != [] { SentNone(xs[1..], to); }
  }

  /** A list with one send per peer puts exactly the message at `k` on the link to `to`. */
  lemma {:induction false} SentOnce(xs: seq<Action>, to: int, k: nat)
    requires k < |xs| && xs[k].Send? && xs[k].to == to
    requires forall i :: 0 <= i < |xs| && i != k ==> !(xs[i].Send? && xs[i].to == to)
    ensures Sent(xs, to) == [xs[k].msg]
  {
    SentConcat(xs[..k], xs[k..], to);
    assert xs == xs[..k] + xs[k..];
    SentNone(xs[..k], to);
    SentNone(xs[k..][1..], to);
  }

  lemma {:induction false} SentToPeers(xs: seq<Action>, peers: seq<int>, to: int)
    requires |xs| == |peers|
    requires forall i :: 0 <= i < |xs| ==> xs[i].Send? && xs[i].to == peers[i]
    requires forall i, j :: 0 <= i < j < |peers| ==> peers[i] != peers[j]
    ensures to !in peers ==> Sent(xs, to) == []
    ensures to in peers ==> exists k :: 0 <= k < |peers| && peers[k] == to && Sent(xs, to) == [xs[k].msg]
  {
    if to in peers {
      var k :| 0 <= k < |peers| && peers[k] == to;
      SentOnce(xs, to, k);
    } else {
      SentNone(xs, to);
    }
  }
}
