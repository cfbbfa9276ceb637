/** Tools for building runs: a fresh cluster of any size, and what single moves do to it. */
module Scenario {
  import opened RaftTypes
  import opened NodeStep
  import opened ClusterModel
  import opened Invariants
  import opened Effects
  import opened Safety
  import opened LogFile

  /** What a run may contain: whether the environment holds back stale success replies, whether clients
      ask anything, and which node's log file is not spoilt, if any. */
  datatype Rules = Rules(guarded: bool, asking: bool, intact: int)

  /** The moves lead from `o` to `s` by these rules. */
  ghost predicate Path(states: seq<Cluster>, moves: seq<Move>, rules: Rules, o: Cluster, s: Cluster) {
    && |states| == |moves| + 1 && states[0] == o && states[|moves|] == s
    && (forall i :: 0 <= i < |moves| ==> Follows(states, moves, rules.guarded, i))
    && (forall i :: 0 <= i < |moves| && moves[i].Ask? ==> rules.asking)
    && (forall i :: 0 <= i < |moves| ==> !SpoiledAt(states[i], moves[i], rules.intact))
  }

  ghost predicate Onward(o: Cluster, s: Cluster, rules: Rules) {
    exists states, moves :: Path(states, moves, rules, o, s)
  }

  lemma OnwardSelf(o: Cluster, rules: Rules)
    ensures Onward(o, o, rules)
  {
    assert Path([o], [], rules, o, o);
  }

  lemma OnwardNext(o: Cluster, s: Cluster, mv: Move, rules: Rules)
    requires Onward(o, s, rules) && Possible(s, mv, rules.guarded) && Smooth(s, mv) && (mv.Ask? ==> rules.asking)
    requires !SpoiledAt(s, mv, rules.intact)
    ensures Onward(o, Apply(s, mv), rules)
  {
    hide Apply, Smooth, SpoiledAt;
    var states, moves :| Path(states, moves, rules, o, s);
    var states', moves' := states + [Apply(s, mv)], moves + [mv];
    forall i | 0 <= i < |moves'| ensures Follows(states', moves', rules.guarded, i) {
      if i < |moves| { assert Follows(states, moves, rules.guarded, i); }
    }
    forall i | 0 <= i < |moves'| ensures !SpoiledAt(states'[i], moves'[i], rules.intact) {
      if i < |moves| { assert !SpoiledAt(states[i], moves[i], rules.intact); }
    }
    assert Path(states', moves', rules, o, Apply(s, mv));
  }

  /** A run that is at `o` goes on to `s`. */
  lemma RunGoesOn(states: seq<Cluster>, moves: seq<Move>, rules: Rules, s: Cluster)
      returns (states': seq<Cluster>, moves': seq<Move>)
    requires Run(states, moves, rules.guarded) && Onward(states[|moves|], s, rules)
    ensures Run(states', moves', rules.guarded) && states <= states' && moves <= moves' && states'[|moves'|] == s
    ensures forall i :: |moves| <= i < |moves'| && moves'[i].Ask? ==> rules.asking
    ensures forall i :: |moves| <= i < |moves'| ==> !SpoiledAt(states'[i], moves'[i], rules.intact)
  {
    hide Apply, Init, Possible, Smooth, SpoiledAt;
    var more, steps :| Path(more, steps, rules, states[|moves|], s);
    states', moves' := states + more[1..], moves + steps;
    forall i | 0 <= i < |moves'| ensures Follows(states', moves', rules.guarded, i) {
      if i < |moves| {
        assert Follows(states, moves, rules.guarded, i);
      } else {
        assert Follows(more, steps, rules.guarded, i - |moves|);
      }
    }
    forall i | |moves| <= i < |moves'| ensures !SpoiledAt(states'[i], moves'[i], rules.intact) {
      assert !SpoiledAt(more[i - |moves|], steps[i - |moves|], rules.intact);
    }
  }

  /** `s` is reached by a run of a cluster of `size` nodes. */
  ghost predicate Reached(s: Cluster, guarded: bool, size: nat) {
    exists states, moves :: EndsIn(states, moves, guarded, size, s)
  }

  ghost predicate EndsIn(states: seq<Cluster>, moves: seq<Move>, guarded: bool, size: nat, s: Cluster) {
    Run(states, moves, guarded) && |states[0].nodes.Keys| == size && states[|moves|] == s
  }

  lemma OnwardReached(o: Cluster, s: Cluster, rules: Rules, size: nat)
    requires Reached(o, rules.guarded, size) && Onward(o, s, rules)
    ensures Reached(s, rules.guarded, size)
  {
    hide Init, Follows;
    var states, moves :| EndsIn(states, moves, rules.guarded, size, o);
    var states', moves' := RunGoesOn(states, moves, rules, s);
    FirstState(states, states');
    assert EndsIn(states', moves', rules.guarded, size, s);
  }

  lemma FirstState(states: seq<Cluster>, states': seq<Cluster>)
    requires states <= states' && states != []
    ensures states'[0] == states[0]
  {}

  // ----- a fresh cluster

  /** Everyone from 1 to `size` but `v`. */
  function Others(v: int, size: nat): (peers: seq<int>)
    requires 1 <= v <= size
  {
    seq(size - 1, i => if i + 1 < v then i + 1 else i + 2)
  }

  function FreshNode(v: int, size: nat): Node
    requires 1 <= v <= size
  {
    Node(v, Others(v, size), Follower, 0, 0, [], -1, seq(size - 1, i => 0), seq(size - 1, i => -1), 0, 0)
  }

  function Ids(size: nat): (ids: set<int>)
    ensures |ids| == size && forall v :: v in ids <==> 1 <= v <= size
  {
    if size == 0 then {} else Ids(size - 1) + {size}
  }

  function Start(size: nat): Cluster {
    Cluster(map v | v in Ids(size) :: FreshNode(v, size), NoMail(Ids(size)))
  }

  function NoMail(ids: set<int>): map<(int, int), seq<Message>> {
    map a, b | a in ids && b in ids :: (a, b) := []
  }

  lemma {:induction false} OthersArePeers(v: int, size: nat)
    requires 1 <= v <= size
    ensures PeersOf(Others(v, size), v, Ids(size))
  {
    var peers := Others(v, size);
    forall x ensures x in peers <==> x in Ids(size) && x != v {
      if x in Ids(size) && x != v { assert peers[if x < v then x - 1 else x - 2] == x; }
    }
  }

  lemma {:induction false} FreshIsFresh(v: int, size: nat)
    requires 1 <= v <= size
    ensures Fresh(FreshNode(v, size), v, Ids(size)) && Sound(FreshNode(v, size))
  {
    OthersArePeers(v, size);
  }

  lemma NoMailIsEmpty(ids: set<int>)
    ensures forall a, b :: (a, b) in NoMail(ids) <==> a in ids && b in ids
    ensures forall l :: l in NoMail(ids) ==> NoMail(ids)[l] == []
  {}

  lemma {:induction false} StartIsInit(size: nat)
    ensures Start(size).nodes.Keys == Ids(size) && Init(Start(size)) && Wired(Start(size))
  {
    hide Fresh, FreshNode, NoMail;
    var s := Start(size);
    assert s.nodes.Keys == Ids(size);
    NoMailIsEmpty(Ids(size));
    forall v | v in s.nodes ensures Fresh(s.nodes[v], v, s.nodes.Keys) { FreshIsFresh(v, size); }
    InitIsWired(s);
  }

  lemma InitIsWired(s: Cluster)
    requires Init(s)
    ensures Wired(s)
  {
    InitInv(s);
    forall v | v in s.nodes ensures Sound(s.nodes[v]) { assert NodeOk(s.nodes[v]); }
  }

  lemma StartIsReached(size: nat, rules: Rules)
    ensures Reached(Start(size), rules.guarded, size) && Onward(Start(size), Start(size), rules)
  {
    hide Start, Init, Onward;
    StartIsInit(size);
    assert EndsIn([Start(size)], [], rules.guarded, size, Start(size));
    OnwardSelf(Start(size), rules);
  }

  // ----- single moves

  predicate Sound(n: Node) {
    IndicesInRange(n) && -1 <= n.commit < |n.log|
  }

  ghost predicate Wired(s: Cluster) {
    ConfigOk(s) && forall v :: v in s.nodes ==> Sound(s.nodes[v])
  }

  /** What a handler sends: nothing, one message to one node, the same message to all others, or to
      each node its own. */
  datatype Out = Silent | To(to: int, msg: Message) | All(msg: Message) | Each(msgs: map<int, Message>)

  function Outgoing(out: Out, v: int, y: int): seq<Message> {
    match out
    case Silent => []
    case To(to, msg) => if y == to then [msg] else []
    case All(msg) => if y != v then [msg] else []
    case Each(msgs) => if y in msgs then [msgs[y]] else []
  }

  /** The link from `x` to `y` after node `v` has taken all from `took` and sent `out`. */
  function Turned(s: Cluster, took: int, v: int, out: Out, x: int, y: int): seq<Message> {
    (if x == took && y == v then [] else Link(s, x, y)) + (if x == v then Outgoing(out, v, y) else [])
  }

  /** From `s` to `s'` node `v` has become `n`, has emptied the link from `took` (if that is a node) and
      has sent `out`. */
  ghost predicate Turn(s: Cluster, s': Cluster, took: int, v: int, n: Node, out: Out) {
    && v in s.nodes && s'.nodes == s.nodes[v := n]
    && forall x, y :: x in s.nodes && y in s.nodes ==> Link(s', x, y) == Turned(s, took, v, out, x, y)
  }

  /** The event a move brings to a node, with the node it takes the only waiting message from, or 0. */
  ghost predicate Brings(s: Cluster, mv: Move, v: int, ev: Event, took: int) {
    && v in s.nodes
    && match mv
       case Ask(at, cmd) => at == v && ev == Client(cmd) && took == 0
       case Tick(at) => at == v && ev == Timeout && took == 0
       case Deliver(a, b) =>
         b == v && a == took && a in s.nodes && |Link(s, a, b)| == 1 && ev == Receive(Link(s, a, b)[0])
       case Lose(_, _, _) => false
  }

  predicate Sends(acts: seq<Action>, ids: set<int>, v: int, out: Out) {
    forall y :: y in ids ==> Sent(acts, y) == Outgoing(out, v, y)
  }

  lemma MoveTurns(s: Cluster, mv: Move, v: int, ev: Event, took: int, out: Out)
    requires ConfigOk(s) && Brings(s, mv, v, ev, took) && Ready(s.nodes[v], ev)
    requires Sends(Step(s.nodes[v], ev).actions, s.nodes.Keys, v, out)
    ensures Possible(s, mv, false) && Smooth(s, mv)
    ensures Turn(s, Apply(s, mv), took, v, Step(s.nodes[v], ev).node, out)
  {
    hide Step, Outgoing;
    forall x, y | x in s.nodes && y in s.nodes ensures Link(Apply(s, mv), x, y) == Turned(s, took, v, out, x, y) {
      LinkAfter(s, mv, x, y);
    }
  }

  lemma TurnIsWired(s: Cluster, s': Cluster, took: int, v: int, n: Node, out: Out)
    requires Wired(s) && Turn(s, s', took, v, n, out) && s'.net.Keys == s.net.Keys
    requires n.id == v && n.peers == s.nodes[v].peers && Outgoing(out, v, v) == []
    ensures Sound(n) ==> Wired(s')
  {
    hide Sound, Outgoing;
    forall a ensures Link(s', a, a) == [] {
      if a in s.nodes { assert Link(s', a, a) == Turned(s, took, v, out, a, a); }
    }
    assert s'.nodes.Keys == s.nodes.Keys;
  }

  /** One event, handled in a state that was reached by the rules. */
  lemma Go(o: Cluster, s: Cluster, mv: Move, v: int, ev: Event, took: int, out: Out, rules: Rules) returns (s': Cluster)
    requires Wired(s) && Onward(o, s, rules) && Brings(s, mv, v, ev, took) && Ready(s.nodes[v], ev)
    requires mv.Deliver? && rules.guarded ==> !StaleAck(s, took, v)
    requires (mv.Ask? ==> rules.asking) && (v == rules.intact ==> !Spoils(s.nodes[v], ev))
    requires Sends(Step(s.nodes[v], ev).actions, s.nodes.Keys, v, out) && Outgoing(out, v, v) == []
    requires var n := Step(s.nodes[v], ev).node; n.id == v && n.peers == s.nodes[v].peers
    ensures Onward(o, s', rules) && Turn(s, s', took, v, Step(s.nodes[v], ev).node, out)
    ensures Sound(Step(s.nodes[v], ev).node) ==> Wired(s')
    ensures Possible(s, mv, false) && Smooth(s, mv) && s' == Apply(s, mv)
  {
    hide Step, Turn, Sound, Sends, Onward, Outgoing, Spoils;
    MoveTurns(s, mv, v, ev, took, out);
    s' := Apply(s, mv);
    TurnIsWired(s, s', took, v, Step(s.nodes[v], ev).node, out);
    OnwardNext(o, s, mv, rules);
  }

  // ----- losing messages

  /** The last message on the link from `a` to `b`. */
  predicate LastIs(s: Cluster, a: int, b: int, m: Message) {
    var q := Link(s, a, b);
    q != [] && q[|q| - 1] == m
  }

  /** Of the messages from `a` to `b` only the last is left; nothing else has changed. */
  ghost predicate Dropped(s: Cluster, s': Cluster, a: int, b: int, m: Message) {
    && s'.nodes == s.nodes
    && (forall x, y :: x in s.nodes && y in s.nodes && (x != a || y != b) ==> Link(s', x, y) == Link(s, x, y))
    && Link(s', a, b) == [m]
  }

  lemma LoseOldest(o: Cluster, s: Cluster, a: int, b: int, rules: Rules) returns (s': Cluster)
    requires Wired(s) && Onward(o, s, rules) && a in s.nodes && b in s.nodes && |Link(s, a, b)| >= 2
    ensures Wired(s') && Onward(o, s', rules) && s'.nodes == s.nodes
    ensures forall x, y :: x in s.nodes && y in s.nodes && (x != a || y != b) ==> Link(s', x, y) == Link(s, x, y)
    ensures Link(s', a, b) == Link(s, a, b)[1..]
  {
    hide Onward, Sound, Spoils;
    var mv := Lose(a, b, 0);
    s' := Apply(s, mv);
    OnwardNext(o, s, mv, rules);
    assert s'.net == s.net[(a, b) := s.net[(a, b)][..0] + s.net[(a, b)][1..]];
    assert Link(s', a, b) == Link(s, a, b)[1..];
    assert s'.net.Keys == s.net.Keys && Link(s, a, b) != [];
    forall z ensures Link(s', z, z) == [] { assert Link(s, z, z) == []; }
  }

  lemma {:induction false} Drop(o: Cluster, s: Cluster, a: int, b: int, m: Message, rules: Rules) returns (s': Cluster)
    requires Wired(s) && Onward(o, s, rules) && a in s.nodes && b in s.nodes && LastIs(s, a, b, m)
    ensures Wired(s') && Onward(o, s', rules) && Dropped(s, s', a, b, m)
    decreases |Link(s, a, b)|
  {
    hide Wired, Onward;
    if |Link(s, a, b)| == 1 {
      s' := s;
      assert Link(s, a, b) == [m];
    } else {
      var s1 := LoseOldest(o, s, a, b, rules);
      s' := Drop(o, s1, a, b, m, rules);
    }
  }

  lemma DropThenTurn(s: Cluster, s1: Cluster, s': Cluster, a: int, b: int, m: Message, n: Node, out: Out)
    requires a in s.nodes && b in s.nodes && Dropped(s, s1, a, b, m) && Turn(s1, s', a, b, n, out)
    ensures Turn(s, s', a, b, n, out)
  {
    hide Outgoing;
    forall x, y | x in s.nodes && y in s.nodes ensures Link(s', x, y) == Turned(s, a, b, out, x, y) {
      assert Link(s', x, y) == Turned(s1, a, b, out, x, y);
    }
  }

  /** The last message from `a` reaches `b`, and what was before it is lost. */
  lemma Arrive(o: Cluster, s: Cluster, a: int, b: int, m: Message, out: Out, rules: Rules) returns (s': Cluster)
    requires Wired(s) && Onward(o, s, rules) && a in s.nodes && b in s.nodes && a != b && LastIs(s, a, b, m)
    requires Ready(s.nodes[b], Receive(m))
    requires rules.guarded && m.AppendResponse? && m.success && s.nodes[b].role == Leader ==> m.term == s.nodes[b].term
    requires b == rules.intact ==> !Spoils(s.nodes[b], Receive(m))
    requires Sends(Step(s.nodes[b], Receive(m)).actions, s.nodes.Keys, b, out) && Outgoing(out, b, b) == []
    requires var n := Step(s.nodes[b], Receive(m)).node; n.id == b && n.peers == s.nodes[b].peers
    ensures Onward(o, s', rules) && Turn(s, s', a, b, Step(s.nodes[b], Receive(m)).node, out)
    ensures Sound(Step(s.nodes[b], Receive(m)).node) ==> Wired(s')
  {
    hide Step, Turn, Sound, Sends, Onward, Outgoing, Ready, Wired, Spoils;
    var s1 := Drop(o, s, a, b, m, rules);
    s' := Go(o, s1, Deliver(a, b), b, Receive(m), a, out, rules);
    DropThenTurn(s, s1, s', a, b, m, Step(s.nodes[b], Receive(m)).node, out);
  }

  // ----- what the handlers send

  lemma PeersAreOthers(s: Cluster, v: int)
    requires ConfigOk(s) && v in s.nodes
    ensures forall y :: y in s.nodes ==> (y in s.nodes[v].peers <==> y != v)
    ensures DistinctPeers(s.nodes[v]) && s.nodes[v].id == v && v !in s.nodes[v].peers
  {}

  /** Node `v`, no leader, times out. */
  lemma Stand(o: Cluster, s: Cluster, v: int, rules: Rules) returns (s': Cluster)
    requires Wired(s) && Onward(o, s, rules) && v in s.nodes && s.nodes[v].role != Leader
    ensures Wired(s') && Onward(o, s', rules)
    ensures Turn(s, s', 0, v, Candidacy(s.nodes[v]), All(Campaign(s.nodes[v])))
  {
    hide Onward, Turn, Sent;
    var n := s.nodes[v];
    PeersAreOthers(s, v);
    forall y | y in s.nodes ensures Sent(OnTimeout(n).actions, y) == Outgoing(All(Campaign(n)), v, y) {
      StandingSends(n, y);
    }
    s' := Go(o, s, Tick(v), v, Timeout, 0, All(Campaign(n)), rules);
  }

  lemma {:induction false} AnswerSent(n: Node, m: Message, y: int)
    requires m.VoteRequest? && Ready(n, Receive(m))
    ensures Sent(OnVoteRequest(n, m).actions, y) ==
      if y == m.candidateId then [VoteResponse(OnVoteRequest(n, m).node.term, Grants(n, m))] else []
  {
    var out := OnVoteRequest(n, m);
    var k := if out.actions[0].Send? then 0 else 1;
    if y == m.candidateId { SentOnce(out.actions, y, k); } else { SentNone(out.actions, y); }
  }

  lemma VoterSound(n: Node, m: Message)
    requires m.VoteRequest? && Sound(n)
    ensures var n' := OnVoteRequest(n, m).node; Sound(n') && n'.id == n.id && n'.peers == n.peers
  {}

  /** Node `v` handles the last message from candidate `c`, a vote request, and answers. */
  lemma AnswerPlea(o: Cluster, s: Cluster, c: int, v: int, m: Message, rules: Rules) returns (s': Cluster)
    requires Wired(s) && Onward(o, s, rules) && c in s.nodes && v in s.nodes && c != v
    requires LastIs(s, c, v, m) && m.VoteRequest? && m.candidateId == c
    ensures Wired(s') && Onward(o, s', rules)
    ensures var n' := OnVoteRequest(s.nodes[v], m).node;
      Turn(s, s', c, v, n', To(c, VoteResponse(n'.term, Grants(s.nodes[v], m))))
  {
    hide OnVoteRequest, Onward, Turn, Sent, Grants;
    var n := s.nodes[v];
    PeersAreOthers(s, v);
    var out := To(c, VoteResponse(OnVoteRequest(n, m).node.term, Grants(n, m)));
    VoterSound(n, m);
    forall y | y in s.nodes ensures Sent(OnVoteRequest(n, m).actions, y) == Outgoing(out, v, y) {
      AnswerSent(n, m, y);
    }
    s' := Arrive(o, s, c, v, m, out, rules);
  }

  function Crowned(n: Node): Node {
    n.(yes := n.yes + 1, role := Leader,
       matchIndex := seq(|n.peers|, i => -1), nextIndex := seq(|n.peers|, i => |n.log|))
  }

  function Inauguration(n: Node): Message {
    AppendRequest(n.term, n.id, |n.log| - 1, LastTerm(n.log), [], n.commit)
  }

  lemma {:induction false} VictorySends(n: Node, m: Message, y: int)
    requires m.VoteResponse? && Wins(n, m) && DistinctPeers(n)
    ensures OnVoteResponse(n, m).node == Crowned(n)
    ensures Sent(OnVoteResponse(n, m).actions, y) == if y in n.peers then [Inauguration(n)] else []
  {
    var q := Inaugural(Crowned(n));
    SentBetween([StateStore(Leader, n.term, n.votedFor)], q, [Alarm(Heartbeat)], y);
    SentToPeers(q, n.peers, y);
  }

  /** The candidate with one vote more. */
  function Counted(n: Node): Node {
    if n.yes + 1 >= Quota(n) then Crowned(n) else n.(yes := n.yes + 1)
  }

  function News(n: Node): Out {
    if n.yes + 1 >= Quota(n) then All(Inauguration(n)) else Silent
  }

  lemma {:induction false} CountedIs(n: Node, m: Message, y: int)
    requires m.VoteResponse? && Counts(n, m) && DistinctPeers(n) && Sound(n)
    requires n.id !in n.peers && (y in n.peers || y == n.id)
    ensures OnVoteResponse(n, m).node == Counted(n) && Sound(Counted(n))
    ensures Sent(OnVoteResponse(n, m).actions, y) == Outgoing(News(n), n.id, y)
  {
    if Wins(n, m) { VictorySends(n, m, y); } else { SentNone(OnVoteResponse(n, m).actions, y); }
  }

  /** Candidate `c` handles the last message from `v`, a granted vote. */
  lemma Count(o: Cluster, s: Cluster, v: int, c: int, m: Message, rules: Rules) returns (s': Cluster)
    requires Wired(s) && Onward(o, s, rules) && c in s.nodes && v in s.nodes && c != v
    requires LastIs(s, v, c, m) && m.VoteResponse? && Counts(s.nodes[c], m)
    ensures Wired(s') && Onward(o, s', rules)
    ensures Turn(s, s', v, c, Counted(s.nodes[c]), News(s.nodes[c]))
  {
    hide OnVoteResponse, Onward, Turn, Sent, Crowned, Inauguration;
    var n := s.nodes[c];
    PeersAreOthers(s, c);
    CountedIs(n, m, c);
    forall y | y in s.nodes ensures Sent(OnVoteResponse(n, m).actions, y) == Outgoing(News(n), c, y) {
      CountedIs(n, m, y);
    }
    CountedKeeps(n);
    s' := Arrive(o, s, v, c, m, News(n), rules);
  }

  lemma CountedKeeps(n: Node)
    ensures Counted(n).id == n.id && Counted(n).peers == n.peers && Outgoing(News(n), n.id, n.id) == []
  {}
}
