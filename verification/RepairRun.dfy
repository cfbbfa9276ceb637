/** Repair as part of a run: from every reached state a leader can bring any node that is not in a later
    term to its own log, with nothing but timeouts, deliveries and losses. */
module RepairRun {
  import opened RaftTypes
  import opened ClusterModel
  import opened Safety
  import opened Repair
  import opened Scenario
  import opened Episodes

  /** From `s` to `s'` node `w`, whatever it was, has come to follow leader `v` with the leader's log; of
      the leader only what it keeps about its peers has changed, and of the others nothing. */
  ghost predicate RepairedBy(s: Cluster, s': Cluster, v: int, w: int) {
    && v in s.nodes && w in s.nodes && s'.nodes.Keys == s.nodes.Keys
    && s'.nodes[v] == s.nodes[v].(nextIndex := s'.nodes[v].nextIndex)
    && s'.nodes[w].role == Follower && s'.nodes[w].term == s.nodes[v].term && s'.nodes[w].log == s.nodes[v].log
    && forall x :: x in s.nodes && x != v && x != w ==> s'.nodes[x] == s.nodes[x]
  }

  /** The repair of a follower, a candidate or a deposed leader, starting from the end of any run. */
  lemma RepairInRun(states: seq<Cluster>, moves: seq<Move>, v: int, w: int)
      returns (states': seq<Cluster>, moves': seq<Move>)
    requires SafeRun(states, moves)
    requires var s := states[|moves|];
      v in s.nodes && w in s.nodes && v != w && s.nodes[v].role == Leader && s.nodes[w].term <= s.nodes[v].term
    ensures SafeRun(states', moves') && states <= states' && moves <= moves'
    ensures forall i :: |moves| <= i < |moves'| ==> !moves'[i].Ask?
    ensures RepairedBy(states[|moves|], states'[|moves'|], v, w)
  {
    hide Init, Follows, Onward, Wired, Matching;
    var s, size, rules := states[|moves|], |states[0].nodes.Keys|, Rules(true, false, 0);
    assert EndsIn(states, moves, true, size, s);
    OnwardSelf(s, rules);
    TrustedState(s, s, rules, size);
    NodeIs(s, w);
    var s' := Bring(s, s, v, w, rules, size);
    states', moves' := RunGoesOn(states, moves, rules, s');
    FirstState(states, states');
  }
}
