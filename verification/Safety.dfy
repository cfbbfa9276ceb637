/** The safety theorems of the protocol, over whole runs of the cluster. */
module Safety {
  import opened RaftTypes
  import opened NodeStep
  import opened ClusterModel
  import opened History
  import opened Quorums
  import opened Invariants
  import opened Effects
  import opened VoteProof
  import opened ReignProof
  import opened LogFacts
  import opened LogProof
  import opened AcceptProof
  import opened CompleteProof
  import opened CommitProof
  import opened BasicProof
  import opened RangeProof

  // ----- the invariants hold throughout

  lemma InitInv(s: Cluster)
    requires Init(s)
    ensures Inv(s, NO_HISTORY)
  {
    hide Fresh, NodeOk, PeersOf, NodeInside;
    forall v | v in s.nodes ensures FreshOk(s.nodes[v], v, s.nodes.Keys) {
      FreshIsOk(s.nodes[v], v, s.nodes.Keys);
    }
    forall a, b ensures Link(s, a, b) == [] {}
  }

  ghost predicate FreshOk(n: Node, v: int, ids: set<int>) {
    && n.role == Follower && n.log == [] && n.commit == -1 && n.votedFor == 0 && n.term == 0
    && n.id == v && PeersOf(n.peers, v, ids) && NodeOk(n) && NodeInside(n)
  }

  lemma FreshIsOk(n: Node, v: int, ids: set<int>)
    requires Fresh(n, v, ids)
    ensures FreshOk(n, v, ids)
  {}

  /** What every cluster keeps, of whatever size, and whatever replies are delivered. */
  ghost predicate VoteInv(s: Cluster, h: History) {
    BasicInv(s) && VotesInv(s, h)
  }

  lemma MoveVoteInv(s: Cluster, h: History, mv: Move)
    requires VoteInv(s, h) && Possible(s, mv, false) && Smooth(s, mv)
    ensures VoteInv(Apply(s, mv), RecordMove(h, s, mv)) && Apply(s, mv).nodes.Keys == s.nodes.Keys
  {
    MoveEffect(s, h, mv);
    hide Apply, RecordMove, Effect, LinksOk, ConfigOk;
    BasicKept(s, h, mv, Apply(s, mv), RecordMove(h, s, mv));
    VotesKept(s, h, mv, Apply(s, mv), RecordMove(h, s, mv));
  }

  lemma {:induction false} RunVoteInv(states: seq<Cluster>, moves: seq<Move>, guarded: bool, i: nat)
    requires Run(states, moves, guarded) && i < |states|
    ensures VoteInv(states[i], Past(states, moves, guarded, i))
    ensures states[i].nodes.Keys == states[0].nodes.Keys
  {
    hide Apply, RecordMove, Inv, VoteInv, Smooth, Possible, Init;
    if i == 0 {
      InitInv(states[0]);
      InitVoteInv(states[0]);
    } else {
      RunVoteInv(states, moves, guarded, i - 1);
      assert Follows(states, moves, guarded, i - 1);
      PossibleAnyway(states[i - 1], moves[i - 1], guarded);
      MoveVoteInv(states[i - 1], Past(states, moves, guarded, i - 1), moves[i - 1]);
    }
  }

  lemma PossibleAnyway(s: Cluster, mv: Move, guarded: bool)
    requires Possible(s, mv, guarded)
    ensures Possible(s, mv, false)
  {}

  lemma InitVoteInv(s: Cluster)
    requires Inv(s, NO_HISTORY)
    ensures VoteInv(s, NO_HISTORY)
  {}

  /** Every cluster keeps its indices in range as long as stale success replies are held back. */
  lemma MoveRangeInv(s: Cluster, h: History, mv: Move)
    requires VoteInv(s, h) && RangeInv(s) && Possible(s, mv, true) && Smooth(s, mv)
    ensures RangeInv(Apply(s, mv))
  {
    MoveEffect(s, h, mv);
    MoveLedger(s, mv);
    MoveInRange(s, mv);
    hide Apply, RecordMove, Effect, Ledger, LinksOk, ConfigOk, RangeInv, IndicesInRange;
    RangeKept(s, h, mv, Apply(s, mv), RecordMove(h, s, mv));
  }

  lemma {:induction false} RunRangeInv(states: seq<Cluster>, moves: seq<Move>, i: nat)
    requires Run(states, moves, true) && i < |states|
    ensures RangeInv(states[i])
  {
    hide Apply, RecordMove, Inv, VoteInv, RangeInv, Smooth, Init;
    if i == 0 {
      InitInv(states[0]);
      RangeOfInv(states[0], NO_HISTORY);
    } else {
      RunRangeInv(states, moves, i - 1);
      RunVoteInv(states, moves, true, i - 1);
      assert Follows(states, moves, true, i - 1);
      MoveRangeInv(states[i - 1], Past(states, moves, true, i - 1), moves[i - 1]);
    }
  }

  lemma RangeOfInv(s: Cluster, h: History)
    requires Inv(s, h)
    ensures RangeInv(s)
  {}

  /** A run of a cluster of a safe size, with stale success replies held back or not. */
  ghost predicate CoreRun(states: seq<Cluster>, moves: seq<Move>, guarded: bool) {
    Run(states, moves, guarded) && SafeSize(|states[0].nodes.Keys|)
  }

  lemma MoveCoreInv(s: Cluster, h: History, mv: Move)
    requires CoreInv(s, h) && SafeSize(|s.nodes.Keys|) && Possible(s, mv, false) && Smooth(s, mv)
    ensures CoreInv(Apply(s, mv), RecordMove(h, s, mv))
    ensures Grown(h, RecordMove(h, s, mv))
    ensures Apply(s, mv).nodes.Keys == s.nodes.Keys
  {
    MoveEffect(s, h, mv);
    MoveLedger(s, mv);
    EffectCoreInv(s, h, mv, Apply(s, mv), RecordMove(h, s, mv));
  }

  lemma EffectCoreInv(s: Cluster, h: History, mv: Move, s': Cluster, h': History)
    requires CoreInv(s, h) && SafeSize(|s.nodes.Keys|) && Effect(s, h, mv, s', h') && Ledger(s, mv, s')
    ensures CoreInv(s', h') && Grown(h, h')
  {
    IsChecked(s, h, mv, s', h');
    ReignsOnlyGrow(s, h, mv, s', h');
    AccOnlyGrows(s, h, mv, s', h');
    BasicKept(s, h, mv, s', h');
    VotesKept(s, h, mv, s', h');
    ReignsKept(s, h, mv, s', h');
    LogsKept(s, h, mv, s', h');
    AcceptKept(s, h, mv, s', h');
    forall v | v in s'.nodes ensures NodeOk(s'.nodes[v]) {
      NodeKept(s, h, mv, s', h', v);
    }
  }

  lemma {:induction false} RunCoreInv(states: seq<Cluster>, moves: seq<Move>, guarded: bool, i: nat)
    requires CoreRun(states, moves, guarded) && i < |states|
    ensures CoreInv(states[i], Past(states, moves, guarded, i))
    ensures states[i].nodes.Keys == states[0].nodes.Keys
  {
    hide Apply, RecordMove, CoreInv, Smooth, Possible, Init;
    if i == 0 {
      InitInv(states[0]);
      CoreOfInv(states[0], NO_HISTORY);
    } else {
      RunCoreInv(states, moves, guarded, i - 1);
      assert Follows(states, moves, guarded, i - 1);
      PossibleAnyway(states[i - 1], moves[i - 1], guarded);
      MoveCoreInv(states[i - 1], Past(states, moves, guarded, i - 1), moves[i - 1]);
    }
  }

  lemma CoreOfInv(s: Cluster, h: History)
    requires Inv(s, h)
    ensures CoreInv(s, h)
  {}

  /** A run of a cluster of a safe size with stale success replies held back. */
  ghost predicate SafeRun(states: seq<Cluster>, moves: seq<Move>) {
    CoreRun(states, moves, true)
  }

  lemma MoveInv(s: Cluster, h: History, mv: Move)
    requires Inv(s, h) && SafeSize(|s.nodes.Keys|) && Possible(s, mv, true) && Smooth(s, mv)
    ensures Inv(Apply(s, mv), RecordMove(h, s, mv))
    ensures Apply(s, mv).nodes.Keys == s.nodes.Keys
  {
    hide Effect, Ledger;
    MoveCoreInv(s, h, mv);
    MoveRangeInv(s, h, mv);
    MoveEffect(s, h, mv);
    MoveLedger(s, mv);
    EffectInv(s, h, mv, Apply(s, mv), RecordMove(h, s, mv));
  }

  lemma EffectInv(s: Cluster, h: History, mv: Move, s': Cluster, h': History)
    requires Inv(s, h) && SafeSize(|s.nodes.Keys|) && Effect(s, h, mv, s', h') && Ledger(s, mv, s')
    requires Possible(s, mv, true) && CoreInv(s', h') && RangeInv(s') && Grown(h, h')
    ensures Inv(s', h')
  {
    IsChecked(s, h, mv, s', h');
    MatchKept(s, h, mv, s', h');
    CompleteKept(s, h, mv, s', h');
    forall v | v in s'.nodes ensures IndicesInRange(s'.nodes[v]) { assert NodeInside(s'.nodes[v]); }
    CommitKept(s, h, mv, s', h');
  }

  lemma {:induction false} RunInv(states: seq<Cluster>, moves: seq<Move>, i: nat)
    requires SafeRun(states, moves) && i < |states|
    ensures Inv(states[i], Past(states, moves, true, i))
    ensures states[i].nodes.Keys == states[0].nodes.Keys
  {
    hide Apply, RecordMove, Inv, Smooth, Possible, Init;
    if i == 0 {
      InitInv(states[0]);
    } else {
      RunInv(states, moves, i - 1);
      assert Follows(states, moves, true, i - 1);
      MoveInv(states[i - 1], Past(states, moves, true, i - 1), moves[i - 1]);
    }
  }

  /** Every node of every reachable state is well formed. */
  lemma RunNodeOk(states: seq<Cluster>, moves: seq<Move>, guarded: bool, i: nat, v: int)
    requires CoreRun(states, moves, guarded) && i < |states| && v in states[0].nodes
    ensures v in states[i].nodes && NodeOk(states[i].nodes[v]) && states[i].nodes[v].id == v
  {
    RunCoreInv(states, moves, guarded, i);
  }

  lemma GrownTrans(h1: History, h2: History, h3: History)
    requires Grown(h1, h2) && Grown(h2, h3)
    ensures Grown(h1, h3)
  {
    forall T | T in h1.reigns ensures ReignGrows(h1, h3, T) {
      assert ReignGrows(h1, h2, T) && ReignGrows(h2, h3, T);
    }
  }

  lemma {:induction false} StepGrows(states: seq<Cluster>, moves: seq<Move>, guarded: bool, i: nat)
    requires CoreRun(states, moves, guarded) && i < |moves|
    ensures Grown(Past(states, moves, guarded, i), Past(states, moves, guarded, i + 1))
  {
    hide CoreInv;
    RunCoreInv(states, moves, guarded, i);
    assert Follows(states, moves, guarded, i);
    PossibleAnyway(states[i], moves[i], guarded);
    MoveCoreInv(states[i], Past(states, moves, guarded, i), moves[i]);
  }

  lemma {:induction false} RunGrows(states: seq<Cluster>, moves: seq<Move>, guarded: bool, i: nat, j: nat)
    requires CoreRun(states, moves, guarded) && i <= j < |states|
    ensures Grown(Past(states, moves, guarded, i), Past(states, moves, guarded, j))
    decreases j - i
  {
    if i < j {
      RunGrows(states, moves, guarded, i, j - 1);
      StepGrows(states, moves, guarded, j - 1);
      GrownTrans(Past(states, moves, guarded, i), Past(states, moves, guarded, j - 1),
                 Past(states, moves, guarded, j));
    } else {
      var h := Past(states, moves, guarded, i);
      forall T | T in h.reigns ensures ReignGrows(h, h, T) {}
    }
  }

  // ----- the theorems

  /** No reachable state of a cluster of any size lets a possible move index or slice out of range, which
      in Go would panic, while stale success replies are held back. */
  lemma RunNeverPanics(states: seq<Cluster>, moves: seq<Move>, mv: Move)
    requires Run(states, moves, true) && Possible(states[|moves|], mv, true)
    ensures Smooth(states[|moves|], mv)
  {
    hide Init, Follows, BasicInv, VotesInv, RangeInv, Past, Smooth;
    RunVoteInv(states, moves, true, |moves|);
    RunRangeInv(states, moves, |moves|);
    MoveNeverPanics(states[|moves|], mv);
  }

  ghost predicate LeaderAt(s: Cluster, v: int, term: int) {
    v in s.nodes && s.nodes[v].role == Leader && s.nodes[v].term == term
  }

  /** Election safety: no two nodes lead in the same term, at the same or at different times. */
  lemma ElectionSafety(states: seq<Cluster>, moves: seq<Move>, guarded: bool, i: nat, j: nat,
                       v: int, w: int, term: int)
    requires CoreRun(states, moves, guarded) && i <= j < |states|
    requires LeaderAt(states[i], v, term) && LeaderAt(states[j], w, term)
    ensures v == w
  {
    RunCoreInv(states, moves, guarded, i);
    RunCoreInv(states, moves, guarded, j);
    RunGrows(states, moves, guarded, i, j);
    var h, h' := Past(states, moves, guarded, i), Past(states, moves, guarded, j);
    assert LeaderOk(h, states[i].nodes[v]) && LeaderOk(h', states[j].nodes[w]) && ReignGrows(h, h', term);
  }

  /** Log matching: logs with an entry of the same term at an index agree up to it, at any two times. */
  lemma LogMatchingOverRun(states: seq<Cluster>, moves: seq<Move>, guarded: bool, i: nat, j: nat,
                           v: int, w: int, k: nat)
    requires CoreRun(states, moves, guarded) && i <= j < |states| && v in states[i].nodes && w in states[j].nodes
    requires k < |states[i].nodes[v].log| && k < |states[j].nodes[w].log|
    requires states[i].nodes[v].log[k].term == states[j].nodes[w].log[k].term
    ensures states[i].nodes[v].log[..k + 1] == states[j].nodes[w].log[..k + 1]
  {
    RunCoreInv(states, moves, guarded, i);
    RunCoreInv(states, moves, guarded, j);
    RunGrows(states, moves, guarded, i, j);
    var h, h' := Past(states, moves, guarded, i), Past(states, moves, guarded, j);
    CoherentGrows(h, h', states[i].nodes[v].log);
    LogMatching(h', states[i].nodes[v].log, states[j].nodes[w].log, k);
  }

  // ----- commitment

  /** Node `v` has committed index `k`. */
  ghost predicate CommittedAt(s: Cluster, v: int, k: int) {
    v in s.nodes && 0 <= k <= s.nodes[v].commit < |s.nodes[v].log|
  }

  /** What is committed is in the log. */
  lemma CommitInside(s: Cluster, h: History, v: int)
    requires Inv(s, h) && v in s.nodes
    ensures -1 <= s.nodes[v].commit < |s.nodes[v].log|
  {
    assert CommitOk(s.nodes.Keys, h, s.nodes[v]) && NodeOk(s.nodes[v]);
    if s.nodes[v].commit >= 0 {
      var T, k :| Witness(s.nodes.Keys, h, s.nodes[v], T, k);
    }
  }

  lemma RunCommitInside(states: seq<Cluster>, moves: seq<Move>, i: nat, v: int)
    requires SafeRun(states, moves) && i < |states| && v in states[0].nodes
    ensures v in states[i].nodes && -1 <= states[i].nodes[v].commit < |states[i].nodes[v].log|
  {
    hide Inv;
    RunInv(states, moves, i);
    CommitInside(states[i], Past(states, moves, true, i), v);
  }

  /** Two covered prefixes agree where both reach. */
  lemma CoveredAgree(s: Cluster, h: History, x: seq<Entry>, c: int, T: int, k: int,
                     y: seq<Entry>, d: int, U: int, l: int)
    requires SafeSize(|s.nodes.Keys|) && CompleteInv(s, h) && T <= U && 0 <= c && 0 <= d
    requires CoveredBy(s.nodes.Keys, h, x, c, T, k) && CoveredBy(s.nodes.Keys, h, y, d, U, l)
    ensures x[..Min(c, d) + 1] == y[..Min(c, d) + 1]
  {
    var a, b, e := h.reigns[T].log, h.reigns[U].log, Min(c, d) + 1;
    if T < U {
      ChosenInLater(s, h, T, k, U);
      SliceOfAgree(b[..Base(h, U)], a, k + 1, e);
      assert b[..Base(h, U)][..e] == b[..e];
    }
    SliceOfAgree(x, a, c + 1, e);
    SliceOfAgree(y, b, d + 1, e);
  }

  lemma SliceOfAgree(x: seq<Entry>, y: seq<Entry>, n: int, e: nat)
    requires Agree(x, y, n) && e <= n
    ensures x[..e] == y[..e]
  {
    assert x[..n][..e] == x[..e] && y[..n][..e] == y[..e];
  }

  /** A witness found at one time is good at any later one. */
  lemma WitnessLater(states: seq<Cluster>, moves: seq<Move>, i: nat, j: nat, v: int)
      returns (T: int, k: int)
    requires SafeRun(states, moves) && i <= j < |states| && v in states[i].nodes && states[i].nodes[v].commit >= 0
    ensures var n := states[i].nodes[v];
      CoveredBy(states[j].nodes.Keys, Past(states, moves, true, j), n.log, n.commit, T, k) && T <= n.term
  {
    hide Past, Init, Follows, BasicInv, VotesInv, ReignsInv, LogsInv, AcceptInv, CompleteInv, Chosen;
    RunInv(states, moves, i);
    RunInv(states, moves, j);
    RunGrows(states, moves, true, i, j);
    var ids, h, h' := states[i].nodes.Keys, Past(states, moves, true, i), Past(states, moves, true, j);
    var n := states[i].nodes[v];
    assert CommitOk(ids, h, n);
    T, k :| Witness(ids, h, n, T, k);
    CoveredStays(ids, h, h', n.log, n.log, n.commit, T, k);
  }

  /** State-machine safety: no two nodes, at the same or at different times, commit different
      entries at an index; what they have committed agrees from the start. */
  lemma StateMachineSafety(states: seq<Cluster>, moves: seq<Move>, i: nat, j: nat, v: int, w: int, k: nat)
    requires SafeRun(states, moves) && i <= j < |states|
    requires CommittedAt(states[i], v, k) && CommittedAt(states[j], w, k)
    ensures states[i].nodes[v].log[..k + 1] == states[j].nodes[w].log[..k + 1]
  {
    var T, c := WitnessLater(states, moves, i, j, v);
    var U, d := WitnessLater(states, moves, j, j, w);
    RunInv(states, moves, j);
    BothCovered(states[j], Past(states, moves, true, j), states[i].nodes[v], T, c, states[j].nodes[w], U, d, k);
  }

  lemma BothCovered(s: Cluster, h: History, n: Node, T: int, c: int, n': Node, U: int, d: int, k: nat)
    requires SafeSize(|s.nodes.Keys|) && CompleteInv(s, h) && k <= n.commit && k <= n'.commit
    requires CoveredBy(s.nodes.Keys, h, n.log, n.commit, T, c) && CoveredBy(s.nodes.Keys, h, n'.log, n'.commit, U, d)
    ensures n.log[..k + 1] == n'.log[..k + 1]
  {
    if T <= U {
      CoveredAgree(s, h, n.log, n.commit, T, c, n'.log, n'.commit, U, d);
    } else {
      CoveredAgree(s, h, n'.log, n'.commit, U, d, n.log, n.commit, T, c);
    }
    SliceOfAgree(n.log, n'.log, Min(n.commit, n'.commit) + 1, k + 1);
  }

  /** Leader completeness: what a node has committed at any time of the run, in a term it had then
      reached, is in the log of every node that leads in a later term, whenever that is. */
  lemma LeaderCompleteness(states: seq<Cluster>, moves: seq<Move>, i: nat, j: nat, v: int, w: int, term: int)
    requires SafeRun(states, moves) && i < |states| && j < |states|
    requires v in states[i].nodes && LeaderAt(states[j], w, term) && states[i].nodes[v].term < term
    ensures var n := states[i].nodes[v];
      -1 <= n.commit < |n.log| && n.log[..n.commit + 1] <= states[j].nodes[w].log
  {
    RunInv(states, moves, i);
    CommitInside(states[i], Past(states, moves, true, i), v);
    if states[i].nodes[v].commit >= 0 {
      CompletenessSeenAt(states, moves, i, j, if i < j then j else i, v, w, term);
    }
  }

  lemma CompletenessSeenAt(states: seq<Cluster>, moves: seq<Move>, i: nat, j: nat, t: nat, v: int, w: int, term: int)
    requires SafeRun(states, moves) && i <= t < |states| && j <= t
    requires v in states[i].nodes && LeaderAt(states[j], w, term) && states[i].nodes[v].term < term
    requires 0 <= states[i].nodes[v].commit < |states[i].nodes[v].log|
    ensures var n := states[i].nodes[v]; n.log[..n.commit + 1] <= states[j].nodes[w].log
  {
    hide Past, Init, Follows, BasicInv, VotesInv, ReignsInv, LogsInv, AcceptInv, CompleteInv, CommitInv, CoveredBy;
    var n := states[i].nodes[v];
    var T, k := WitnessLater(states, moves, i, t, v);
    RunInv(states, moves, t);
    LeaderBase(states, moves, j, t, w, term);
    CoveredInBase(states[t], Past(states, moves, true, t), n.log, n.commit, T, k, term);
  }

  /** A covered prefix is in what any later leader was elected with. */
  lemma CoveredInBase(s: Cluster, h: History, x: seq<Entry>, c: int, T: int, k: int, term: int)
    requires SafeSize(|s.nodes.Keys|) && CompleteInv(s, h) && 0 <= c < |x|
    requires CoveredBy(s.nodes.Keys, h, x, c, T, k) && term in h.reigns && T < term
    ensures x[..c + 1] <= h.reigns[term].log[..Base(h, term)]
  {
    ChosenInLater(s, h, T, k, term);
    SliceOfAgree(x, h.reigns[T].log, c + 1, c + 1);
    SliceOfAgree(h.reigns[term].log[..Base(h, term)], h.reigns[T].log, k + 1, c + 1);
  }

  /** A leader's log always starts with what the history records of its election. */
  lemma {:induction false} LeaderBase(states: seq<Cluster>, moves: seq<Move>, j: nat, t: nat, w: int, term: int)
    requires SafeRun(states, moves) && j <= t < |states| && LeaderAt(states[j], w, term)
    ensures var h := Past(states, moves, true, t);
      term in h.reigns && h.reigns[term].log[..Base(h, term)] <= states[j].nodes[w].log
  {
    hide Past, Init, Follows, Inv;
    RunInv(states, moves, j);
    RunGrows(states, moves, true, j, t);
    BaseInLog(states[j], Past(states, moves, true, j), Past(states, moves, true, t), w, term);
  }

  lemma BaseInLog(s: Cluster, h: History, h': History, w: int, term: int)
    requires Inv(s, h) && Grown(h, h') && LeaderAt(s, w, term)
    ensures term in h'.reigns && h'.reigns[term].log[..Base(h', term)] <= s.nodes[w].log
  {
    hide VotesInv, AcceptInv, LogsInv, CompleteInv, CommitInv;
    assert LeaderOk(h, s.nodes[w]) && ReignOk(s, h, term) && ReignGrows(h, h', term);
  }

  // ----- commit indices only advance

  lemma AdopterAdvances(n: Node, ev: Event, n': Node)
    requires AcceptsBy(n, ev) && CommitChange(n, ev, n')
    requires |n'.log| == End(ev.msg) && ev.msg.leaderCommit < End(ev.msg)
    ensures n.commit <= n'.commit
  {}

  /** Commit indices never fall, and what is below one never changes. */
  lemma CommitMonotone(states: seq<Cluster>, moves: seq<Move>, i: nat, j: nat, v: int)
    requires SafeRun(states, moves) && i <= j < |states| && v in states[0].nodes
    ensures v in states[i].nodes && v in states[j].nodes
    ensures -1 <= states[i].nodes[v].commit <= states[j].nodes[v].commit < |states[j].nodes[v].log|
    ensures states[i].nodes[v].commit < |states[i].nodes[v].log|
    ensures var c := states[i].nodes[v].commit;
      states[i].nodes[v].log[..c + 1] == states[j].nodes[v].log[..c + 1]
  {
    RunCommitInside(states, moves, i, v);
    RunCommitInside(states, moves, j, v);
    CommitRises(states, moves, i, j, v);
    var c := states[i].nodes[v].commit;
    if c >= 0 { StateMachineSafety(states, moves, i, j, v, v, c); }
  }

  lemma {:induction false} CommitRises(states: seq<Cluster>, moves: seq<Move>, i: nat, j: nat, v: int)
    requires SafeRun(states, moves) && i <= j < |states| && v in states[i].nodes
    ensures v in states[j].nodes && states[i].nodes[v].commit <= states[j].nodes[v].commit
    decreases j - i
  {
    hide Apply, RecordMove, Init, Inv;
    if i < j {
      CommitRises(states, moves, i, j - 1, v);
      RunInv(states, moves, j - 1);
      assert Follows(states, moves, true, j - 1);
      MoveAdvances(states[j - 1], Past(states, moves, true, j - 1), moves[j - 1], v);
    }
  }

  lemma EffectAdvances(s: Cluster, h: History, mv: Move, s': Cluster, h': History, v: int)
    requires Inv(s, h) && Checked(s, h, mv, s', h') && Ledger(s, mv, s') && v in s.nodes
    ensures v in s'.nodes && s.nodes[v].commit <= s'.nodes[v].commit
  {
    hide VotesInv, ReignsInv, CompleteInv, HeadOk, HeadLed, WinOk, LinkEffect, NodesOk, MatchInv, Evolves;
    if !mv.Lose? && v == Actor(mv) && AcceptsBy(s.nodes[v], EventOf(s, mv)) {
      HeadWaits(s, mv.src, mv.dst);
      assert AnnouncedOk(s.nodes.Keys, h, EventOf(s, mv).msg);
      IsAccepted(s, h, mv, s', h');
      AdopterAdvances(s.nodes[v], EventOf(s, mv), s'.nodes[v]);
    }
  }

  lemma MoveAdvances(s: Cluster, h: History, mv: Move, v: int)
    requires Inv(s, h) && SafeSize(|s.nodes.Keys|) && Possible(s, mv, true) && Smooth(s, mv) && v in s.nodes
    ensures v in Apply(s, mv).nodes && s.nodes[v].commit <= Apply(s, mv).nodes[v].commit
  {
    hide Apply, RecordMove;
    MoveEffect(s, h, mv);
    MoveLedger(s, mv);
    IsChecked(s, h, mv, Apply(s, mv), RecordMove(h, s, mv));
    hide Inv, CoreInv, Effect, HeadOk, HeadLed, WinOk;
    EffectAdvances(s, h, mv, Apply(s, mv), RecordMove(h, s, mv), v);
  }
}
