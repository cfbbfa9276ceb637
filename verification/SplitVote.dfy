/** For which cluster sizes no term ever has two leaders: `len(peer)/2 + 1` votes are half of an
    even cluster, and from four nodes on two candidates can win half of it each. By the same test each
    of them can then commit what it likes. */
module SplitVote {
  import opened Commands
  import opened RaftTypes
  import opened NodeStep
  import opened ClusterModel
  import opened Quorums
  import opened Safety
  import opened Scenario
  import opened Episodes
  import opened Reigns

  /** Nodes 3 up to this one vote for node 1, the others for node 2. */
  function Half(size: nat): int {
    2 + size / 2
  }

  /** Nodes 1 and 2 both stand for term 1 before anyone else has voted. */
  ghost predicate BothStand(s: Cluster, rules: Rules, size: nat) {
    && Stage(Start(size), s, rules, size)
    && (forall c :: c in {1, 2} ==> Is(s, c, Candidate, 1, []) && s.nodes[c].yes == 1)
    && (forall c, v :: c in {1, 2} && 3 <= v <= size ==> Canvassed(s, c, v))
    && AllAre(s, 3, size + 1, Follower, 0, [])
  }

  lemma StandFirst(rules: Rules, size: nat) returns (s: Cluster)
    requires size >= 2
    ensures BothStand(s, rules, size)
  {
    hide Stage;
    FirstStage(rules, size);
    var s0 := Start(size);
    QuotaOf(Start(size), s0, 1, rules, size);
    QuotaOf(Start(size), s0, 2, rules, size);
    var s1 := StandUp(Start(size), s0, 1, rules, size);
    s := StandUp(Start(size), s1, 2, rules, size);
    forall v | 3 <= v <= size ensures Canvassed(s, 1, v) && Canvassed(s, 2, v) && Is(s, v, Follower, 0, []) {
      assert Is(s0, v, Follower, 0, []);
      BothCanvass(s0, s1, s, v);
    }
  }

  /** A node that has not voted would vote for either. */
  lemma BothCanvass(s0: Cluster, s1: Cluster, s: Cluster, v: int)
    requires Stood(s0, s1, 1) && Stood(s1, s, 2) && v != 1 && v != 2 && Is(s0, v, Follower, 0, [])
    requires Is(s0, 1, Follower, 0, []) && Is(s0, 2, Follower, 0, [])
    ensures Canvassed(s, 1, v) && Canvassed(s, 2, v) && Is(s, v, Follower, 0, [])
  {
    EmptyGrants(s0.nodes[v], s1.nodes[1]);
    EmptyGrants(s0.nodes[v], s.nodes[2]);
    hide Grants, Plea;
  }

  lemma EmptyGrants(n: Node, c: Node)
    requires n.term < c.term && n.log == []
    ensures c.log == [] ==> Grants(n, Plea(c))
  {}

  /** Node 1 has won its half. */
  ghost predicate OneLeads(s: Cluster, rules: Rules, size: nat) {
    && Stage(Start(size), s, rules, size) && Is(s, 1, Leader, 1, []) && Unheard(s.nodes[1])
    && Is(s, 2, Candidate, 1, []) && s.nodes[2].yes == 1
    && (forall v :: Half(size) <= v <= size ==> Canvassed(s, 2, v))
    && AllAre(s, 3, Half(size), Follower, 1, []) && AllAre(s, Half(size), size + 1, Follower, 0, [])
  }

  lemma FirstWin(s: Cluster, rules: Rules, size: nat) returns (s': Cluster)
    requires BothStand(s, rules, size) && size % 2 == 0 && size >= 4
    ensures OneLeads(s', rules, size)
  {
    hide Wired, Onward, Canvassed, Elected, Quota, AllAre;
    QuotaOf(Start(size), s, 1, rules, size);
    s' := Gather(Start(size), s, 1, 3, Half(size), rules);
    FirstWon(s, s', rules, size);
  }

  /** The candidate that has won, its electors, and everyone else. */
  lemma WonIs(s: Cluster, s': Cluster, c: int, lo: int, hi: int)
    requires Elected(s, s', c, lo, hi) && Is(s, c, Candidate, 1, []) && AllAre(s, lo, hi, Follower, 0, [])
    ensures Is(s', c, Leader, 1, []) && Unheard(s'.nodes[c]) && s'.nodes.Keys == s.nodes.Keys
    ensures AllAre(s', lo, hi, Follower, 1, [])
    ensures forall v :: v in s.nodes && v != c && !(lo <= v < hi) ==> s'.nodes[v] == s.nodes[v]
  {
    hide Inauguration, Quota, LastIs;
    forall v | lo <= v < hi ensures Is(s', v, Follower, 1, []) {
      assert Is(s, v, Follower, 0, []);
    }
  }

  lemma FirstWon(s: Cluster, s': Cluster, rules: Rules, size: nat)
    requires BothStand(s, rules, size) && Elected(s, s', 1, 3, Half(size)) && size >= 4
    requires Wired(s') && Onward(Start(size), s', rules)
    ensures OneLeads(s', rules, size)
  {
    hide Wired, Onward, Start, Unheard, Canvassed, Elected;
    assert 1 in {1, 2} && 2 in {1, 2};
    SomeAlike(s, 3, size + 1, 3, Half(size), Follower, 0, []);
    SomeAlike(s, 3, size + 1, Half(size), size + 1, Follower, 0, []);
    WonIs(s, s', 1, 3, Half(size));
    forall v | Half(size) <= v <= size ensures Canvassed(s', 2, v) {
      SecondCanvasses(s, s', v, size);
    }
    StillAlike(s, s', Half(size), size + 1, Follower, 0, []);
  }

  lemma SecondCanvasses(s: Cluster, s': Cluster, v: int, size: nat)
    requires Elected(s, s', 1, 3, Half(size)) && Canvassed(s, 2, v) && Half(size) <= v
    ensures Canvassed(s', 2, v) && s'.nodes[v] == s.nodes[v]
  {
    hide Inauguration, Quota, Crowned, Convinced, Plea, Grants;
  }

  /** Nodes 1 and 2 both lead term 1, each with half of the others. */
  ghost predicate BothLead(s: Cluster, rules: Rules, size: nat) {
    && Stage(Start(size), s, rules, size)
    && Is(s, 1, Leader, 1, []) && Unheard(s.nodes[1]) && AllAre(s, 3, Half(size), Follower, 1, [])
    && Is(s, 2, Leader, 1, []) && Unheard(s.nodes[2]) && AllAre(s, Half(size), size + 1, Follower, 1, [])
  }

  lemma SecondWin(s: Cluster, rules: Rules, size: nat) returns (s': Cluster)
    requires OneLeads(s, rules, size) && size % 2 == 0 && size >= 4
    ensures BothLead(s', rules, size)
  {
    hide Wired, Onward, Canvassed, Elected, Quota, AllAre;
    QuotaOf(Start(size), s, 2, rules, size);
    s' := Gather(Start(size), s, 2, Half(size), size + 1, rules);
    SecondWon(s, s', rules, size);
  }

  lemma SecondWon(s: Cluster, s': Cluster, rules: Rules, size: nat)
    requires OneLeads(s, rules, size) && Elected(s, s', 2, Half(size), size + 1) && size >= 4
    requires Wired(s') && Onward(Start(size), s', rules)
    ensures BothLead(s', rules, size)
  {
    hide Wired, Onward, Start, Unheard, Canvassed, Elected, AllAre;
    WonIs(s, s', 2, Half(size), size + 1);
    StillAlike(s, s', 3, Half(size), Follower, 1, []);
  }

  lemma TwoLead(rules: Rules, size: nat) returns (s: Cluster)
    requires size % 2 == 0 && size >= 4
    ensures BothLead(s, rules, size)
  {
    var s0 := StandFirst(rules, size);
    var s1 := FirstWin(s0, rules, size);
    s := SecondWin(s1, rules, size);
  }

  /** An even cluster of at least four nodes can get two leaders in term 1, whatever is held back. */
  lemma TwoLeaders(size: nat, guarded: bool) returns (s: Cluster)
    requires size % 2 == 0 && size >= 4
    ensures Reached(s, guarded, size) && LeaderAt(s, 1, 1) && LeaderAt(s, 2, 1)
  {
    s := TwoLead(Rules(guarded, true, 0), size);
    StageIsReached(s, Rules(guarded, true, 0), size);
  }

  /** In such a cluster each of the two leaders commits any command at index 0, whatever is held back. */
  lemma DivergesWhenEven(size: nat, guarded: bool, a: Msg, b: Msg) returns (s: Cluster)
    requires size % 2 == 0 && size >= 4
    ensures Reached(s, guarded, size) && CommittedAt(s, 1, 0) && CommittedAt(s, 2, 0)
    ensures s.nodes[1].log[0].cmd == a && s.nodes[2].log[0].cmd == b
  {
    hide Stage, AllAre, Reached;
    var rules := Rules(guarded, true, 0);
    var s0 := TwoLead(rules, size);
    var s1 := Request(Start(size), s0, 1, a, rules, size);
    QuotaOf(Start(size), s1, 1, rules, size);
    StillAlike(s0, s1, 3, Half(size), Follower, 1, []);
    AllTeachable(s1, 1, 3, Half(size), 1, []);
    var s2 := SettleLog(Start(size), s1, 1, 3, Half(size), rules, size);
    var s3 := Request(Start(size), s2, 2, b, rules, size);
    QuotaOf(Start(size), s3, 2, rules, size);
    StillAlike(s0, s3, Half(size), size + 1, Follower, 1, []);
    AllTeachable(s3, 2, Half(size), size + 1, 1, []);
    s := SettleLog(Start(size), s3, 2, Half(size), size + 1, rules, size);
    StageIsReached(s, rules, size);
  }

  /** At times `i` and `j` of the run, two different nodes lead in the same term. */
  ghost predicate TwoLeadersIn(states: seq<Cluster>, moves: seq<Move>, guarded: bool, size: nat,
                               i: nat, j: nat, v: int, w: int, term: int) {
    && Run(states, moves, guarded) && |states[0].nodes.Keys| == size && i <= j < |states|
    && LeaderAt(states[i], v, term) && LeaderAt(states[j], w, term) && v != w
  }

  /** No run of a cluster of `size` nodes has two leaders in a term. */
  ghost predicate AlwaysOneLeader(size: nat, guarded: bool) {
    !exists states, moves, i, j, v, w, term :: TwoLeadersIn(states, moves, guarded, size, i, j, v, w, term)
  }

  /** Election safety holds for exactly the odd sizes and for two nodes, whether or not stale success
      replies are held back. */
  lemma ElectionSafetyIff(size: nat, guarded: bool)
    requires size >= 1
    ensures AlwaysOneLeader(size, guarded) <==> SafeSize(size)
  {
    hide Init;
    if SafeSize(size) {
      forall states, moves, i, j, v, w, term ensures !TwoLeadersIn(states, moves, guarded, size, i, j, v, w, term) {
        if TwoLeadersIn(states, moves, guarded, size, i, j, v, w, term) {
          ElectionSafety(states, moves, guarded, i, j, v, w, term);
        }
      }
    } else {
      var s := TwoLeaders(size, guarded);
      var states, moves :| EndsIn(states, moves, guarded, size, s);
      assert TwoLeadersIn(states, moves, guarded, size, |moves|, |moves|, 1, 2, 1);
    }
  }
}
