/** What happened so far in a run, recorded beside the states for the proofs only: the genuine
    votes of each term, the reign of each leader with its log, how much of that log each node
    accepted, and which votes each candidate counted. */
module History {
  import opened RaftTypes
  import opened NodeStep
  import opened ClusterModel

  /** A vote: for whom, and the voter's log when it was cast. */
  datatype Ballot = Ballot(cand: int, log: seq<Entry>)

  /** The leader of a term, the length of its log on election, its log since, and its voters. */
  datatype Reign = Reign(id: int, base: nat, log: seq<Entry>, voters: set<int>)

  /** `ballots[(T, v)]` is the vote of `v` in term T; `reigns[T]` the reign of term T;
      `acc[(T, v)]` how long a prefix of that reign's log `v` has accepted in term T;
      `tally[v]` the nodes whose votes the present candidacy of `v` has counted. */
  datatype History = History(
    ballots: map<(int, int), Ballot>,
    reigns: map<int, Reign>,
    acc: map<(int, int), nat>,
    tally: map<int, set<int>>)

  const NO_HISTORY := History(map[], map[], map[], map[])

  ghost function Tally(h: History, v: int): set<int> {
    if v in h.tally then h.tally[v] else {}
  }

  /** Length of the leader's log that the request carries it up to. */
  function End(m: Message): int
    requires m.AppendRequest?
  {
    m.prevLogIndex + 1 + |m.data|
  }

  /** History after node `n` handles `ev`; `src` is the sender when the event is a message. */
  ghost function Record(h: History, n: Node, src: int, ev: Event): History
    requires Ready(n, ev)
  {
    match ev
    case Client(cmd) =>
      if n.role == Leader && n.term in h.reigns then
        var log := n.log + [Entry(n.term, cmd)];
        h.(reigns := h.reigns[n.term := h.reigns[n.term].(log := log)],
           acc := h.acc[(n.term, n.id) := |log|])
      else h
    case Timeout =>
      if n.role == Leader then h
      else h.(ballots := h.ballots[(n.term + 1, n.id) := Ballot(n.id, n.log)],
              tally := h.tally[n.id := {n.id}])
    case Receive(m) =>
      match m
      case VoteRequest(_, _, _, _) =>
        if Grants(n, m) then h.(ballots := h.ballots[(m.term, n.id) := Ballot(m.candidateId, n.log)]) else h
      case VoteResponse(_, _) =>
        if !Counts(n, m) then h
        else
          var voters := Tally(h, n.id) + {src};
          var h1 := h.(tally := h.tally[n.id := voters]);
          if !Wins(n, m) then h1
          else h1.(reigns := h.reigns[n.term := Reign(n.id, |n.log|, n.log, voters)],
                   acc := h.acc[(n.term, n.id) := |n.log|])
      case AppendRequest(_, _, _, _, _, _) =>
        if Accepts(n, m) then h.(acc := h.acc[(m.term, n.id) := End(m)]) else h
      case AppendResponse(_, _, _, _) => h
  }

  ghost function RecordMove(h: History, s: Cluster, mv: Move): History
    requires Possible(s, mv, false) && Smooth(s, mv)
  {
    if mv.Lose? then h
    else Record(h, s.nodes[Actor(mv)], if mv.Deliver? then mv.src else 0, EventOf(s, mv))
  }

  /** History of a run up to its `i`-th state. */
  ghost function Past(states: seq<Cluster>, moves: seq<Move>, guarded: bool, i: nat): History
    requires Run(states, moves, guarded) && i <= |moves|
  {
    if i == 0 then NO_HISTORY
    else
      assert Follows(states, moves, guarded, i - 1);
      RecordMove(Past(states, moves, guarded, i - 1), states[i - 1], moves[i - 1])
  }
}
