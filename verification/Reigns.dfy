/** What a whole term of a leader amounts to: it stands, is elected by a range of nodes, takes client
    requests, spreads its log and commits. */
module Reigns {
  import opened Commands
  import opened RaftTypes
  import opened NodeStep
  import opened ClusterModel
  import opened Effects
  import opened Repair
  import opened Scenario
  import opened Episodes

  /** A state reached from `o` by these rules in a cluster of `size` nodes. */
  ghost predicate Stage(o: Cluster, s: Cluster, rules: Rules, size: nat) {
    Wired(s) && Onward(o, s, rules) && s.nodes.Keys == Ids(size)
  }

  lemma FirstStage(rules: Rules, size: nat)
    ensures Stage(Start(size), Start(size), rules, size)
    ensures AllAre(Start(size), 1, size + 1, Follower, 0, [])
  {
    hide Onward, Wired, Init, PeersOf, NoMail, Others;
    StartIsInit(size);
    StartIsReached(size, rules);
    forall v | 1 <= v <= size ensures Is(Start(size), v, Follower, 0, []) {
      assert Start(size).nodes[v] == FreshNode(v, size);
    }
  }

  lemma StageIsReached(s: Cluster, rules: Rules, size: nat)
    requires Stage(Start(size), s, rules, size)
    ensures Reached(s, rules.guarded, size)
  {
    hide Start, Init, Onward, Wired;
    StartIsReached(size, rules);
    OnwardReached(Start(size), s, rules, size);
  }

  /** Node `v` has this role, term and log and has committed nothing. */
  predicate Is(s: Cluster, v: int, role: Role, term: int, log: seq<Entry>) {
    && v in s.nodes && s.nodes[v].role == role && s.nodes[v].term == term
    && s.nodes[v].log == log && s.nodes[v].commit == -1
  }

  ghost predicate AllAre(s: Cluster, lo: int, hi: int, role: Role, term: int, log: seq<Entry>) {
    forall v :: lo <= v < hi ==> Is(s, v, role, term, log)
  }

  /** A leader no peer of which has acknowledged anything. */
  predicate Unheard(n: Node) {
    n.role == Leader && forall i :: 0 <= i < |n.matchIndex| ==> n.matchIndex[i] == -1
  }

  lemma QuotaOf(o: Cluster, s: Cluster, v: int, rules: Rules, size: nat)
    requires Stage(o, s, rules, size) && 1 <= v <= size
    ensures v in s.nodes && Quota(s.nodes[v]) == (size - 1) / 2 + 1 && s.nodes[v].id == v && Sound(s.nodes[v])
  {
    hide Onward, Sound;
  }

  // ----- elections

  /** `n` has become `n'` in a higher or equal term `t` by hearing of a candidate. */
  predicate Heard(n: Node, n': Node, t: int) {
    && n'.role == Follower && n'.term == t && n'.log == n.log && n'.commit == n.commit
    && n'.id == n.id && n'.peers == n.peers
  }

  /** `c` stands, node `b` (if not `c` itself) hears of it, and the nodes `lo` to `hi` elect `c`. */
  ghost predicate TookOver(s: Cluster, s': Cluster, c: int, b: int, lo: int, hi: int) {
    && c in s.nodes && b in s.nodes && !(lo <= c < hi) && !(lo <= b < hi) && s'.nodes.Keys == s.nodes.Keys
    && Unheard(s'.nodes[c]) && s'.nodes[c].term == s.nodes[c].term + 1 && s'.nodes[c].log == s.nodes[c].log
    && s'.nodes[c].commit == s.nodes[c].commit
    && (forall v :: lo <= v < hi ==> v in s.nodes && Heard(s.nodes[v], s'.nodes[v], s.nodes[c].term + 1))
    && (b != c ==> Heard(s.nodes[b], s'.nodes[b], s.nodes[c].term + 1))
    && (forall v :: v in s.nodes && v != c && v != b && !(lo <= v < hi) ==> s'.nodes[v] == s.nodes[v])
    && OtherLinksSame(s, s', c, b, lo, hi)
  }

  /** No link has changed but those from `c`, and those to `c` from the others that took part. */
  ghost predicate OtherLinksSame(s: Cluster, s': Cluster, c: int, b: int, lo: int, hi: int) {
    forall x, y :: x in s.nodes && y in s.nodes && x != c && (y != c || (x != b && !(lo <= x < hi))) ==>
      Link(s', x, y) == Link(s, x, y)
  }

  /** Candidate `c` has got its request through to node `b`. */
  ghost predicate Unseated(s: Cluster, s': Cluster, c: int, b: int) {
    && c in s.nodes && b in s.nodes && c != b && s'.nodes.Keys == s.nodes.Keys
    && Heard(s.nodes[b], s'.nodes[b], s.nodes[c].term)
    && (forall v :: v in s.nodes && v != b ==> s'.nodes[v] == s.nodes[v])
    && (forall x, y :: x in s.nodes && y in s.nodes && (x != c || y != b) && (x != b || y != c) ==>
          Link(s', x, y) == Link(s, x, y))
  }

  /** Node `v` would vote for `c` in the next term of `c`. */
  ghost predicate Winnable(s: Cluster, c: int, v: int) {
    && c in s.nodes && v in s.nodes && c != v && s.nodes[v].term <= s.nodes[c].term
    && UpToDate(LastTerm(s.nodes[c].log), |s.nodes[c].log| - 1, s.nodes[v].log)
  }

  lemma HeardPlea(n: Node, m: Message)
    requires m.VoteRequest? && n.term < m.term
    ensures Heard(n, OnVoteRequest(n, m).node, m.term)
  {}

  lemma Unseat(o: Cluster, s: Cluster, c: int, b: int, rules: Rules, size: nat)
      returns (s': Cluster)
    requires Stage(o, s, rules, size) && c in s.nodes && b in s.nodes && c != b
    requires s.nodes[b].term < s.nodes[c].term && LastIs(s, c, b, Plea(s.nodes[c]))
    ensures Stage(o, s', rules, size) && Unseated(s, s', c, b) && c in s'.nodes && s'.nodes[c] == s.nodes[c]
  {
    hide Onward, Wired, OnVoteRequest, Grants;
    NodeIs(s, c);
    HeardPlea(s.nodes[b], Plea(s.nodes[c]));
    s' := AnswerPlea(o, s, c, b, Plea(s.nodes[c]), rules);
    UnseatedByTurn(s, s', c, b, VoteResponse(s.nodes[c].term, Grants(s.nodes[b], Plea(s.nodes[c]))));
  }

  lemma UnseatedByTurn(s: Cluster, s': Cluster, c: int, b: int, m: Message)
    requires c in s.nodes && b in s.nodes && c != b
    requires exists n :: Heard(s.nodes[b], n, s.nodes[c].term) && Turn(s, s', c, b, n, To(c, m))
    ensures Unseated(s, s', c, b)
  {
    hide Heard;
    var n :| Heard(s.nodes[b], n, s.nodes[c].term) && Turn(s, s', c, b, n, To(c, m));
    forall x, y | x in s.nodes && y in s.nodes && (x != c || y != b) && (x != b || y != c)
      ensures Link(s', x, y) == Link(s, x, y)
    {
      assert Link(s', x, y) == Turned(s, c, b, To(c, m), x, y);
    }
  }

  /** `c` has just become a candidate and has asked everyone. */
  ghost predicate Stood(s: Cluster, s': Cluster, c: int) {
    && c in s.nodes && s'.nodes == s.nodes[c := Candidacy(s.nodes[c])]
    && (forall x, y :: x in s.nodes && y in s.nodes && x != c ==> Link(s', x, y) == Link(s, x, y))
    && (forall y :: y in s.nodes && y != c ==> LastIs(s', c, y, Plea(s'.nodes[c])))
  }

  lemma StandUp(o: Cluster, s: Cluster, c: int, rules: Rules, size: nat) returns (s': Cluster)
    requires Stage(o, s, rules, size) && c in s.nodes && s.nodes[c].role != Leader
    ensures Stage(o, s', rules, size) && Stood(s, s', c)
  {
    hide Onward, Wired, Turn, Stood, Candidacy, Campaign;
    s' := Stand(o, s, c, rules);
    NodeIs(s, c);
    StoodByTurn(s, s', c);
  }

  lemma StoodByTurn(s: Cluster, s': Cluster, c: int)
    requires 0 !in s.nodes && c in s.nodes
    requires Turn(s, s', 0, c, Candidacy(s.nodes[c]), All(Campaign(s.nodes[c])))
    ensures Stood(s, s', c) && s'.nodes.Keys == s.nodes.Keys
  {
    assert Plea(Candidacy(s.nodes[c])) == Campaign(s.nodes[c]);
    hide Candidacy, Campaign, Plea;
    forall x, y | x in s.nodes && y in s.nodes && x != c ensures Link(s', x, y) == Link(s, x, y) {
      assert Link(s', x, y) == Turned(s, 0, c, All(Campaign(s.nodes[c])), x, y);
    }
    forall y | y in s.nodes && y != c ensures LastIs(s', c, y, Plea(s'.nodes[c])) {
      assert Link(s', c, y) == Turned(s, 0, c, All(Campaign(s.nodes[c])), c, y);
    }
  }

  lemma WinnableIsCanvassed(s: Cluster, s': Cluster, c: int, v: int)
    requires Stood(s, s', c) && Winnable(s, c, v)
    ensures Canvassed(s', c, v)
  {}

  lemma CanvassedStill(s: Cluster, s': Cluster, c: int, b: int, v: int)
    requires Unseated(s, s', c, b) && Canvassed(s, c, v) && v != b
    ensures Canvassed(s', c, v)
  {
    hide Grants, Plea, Heard;
  }

  /** What a node is that has stood and won. */
  lemma CrownedIs(n: Node, votes: int)
    ensures var n' := Crowned(Candidacy(n).(yes := votes));
      Unheard(n') && n'.term == n.term + 1 && n'.log == n.log && n'.commit == n.commit
    ensures Candidacy(n).term == n.term + 1
  {}

  lemma ConvincedHeard(n: Node, c: Node)
    ensures Heard(n, Convinced(n, c), c.term)
  {}

  lemma VotersHeard(s: Cluster, s': Cluster, c: int, lo: int, hi: int)
    requires Elected(s, s', c, lo, hi)
    ensures c in s.nodes && s'.nodes.Keys == s.nodes.Keys
    ensures forall v :: lo <= v < hi ==> v in s.nodes && Heard(s.nodes[v], s'.nodes[v], s.nodes[c].term)
  {
    hide Crowned, Quota, Heard, LastIs, Inauguration, Convinced;
    forall v | lo <= v < hi ensures v in s.nodes && Heard(s.nodes[v], s'.nodes[v], s.nodes[c].term) {
      assert v in s.nodes && s'.nodes[v] == Convinced(s.nodes[v], s.nodes[c]);
      ConvincedHeard(s.nodes[v], s.nodes[c]);
    }
  }

  /** A candidate that has stood in `s1` and has been elected in `s'`. */
  lemma TookOverAtOnce(s: Cluster, s1: Cluster, s': Cluster, c: int, lo: int, hi: int)
    requires Stood(s, s1, c) && Elected(s1, s', c, lo, hi)
    ensures TookOver(s, s', c, c, lo, hi) && s'.nodes.Keys == s.nodes.Keys
  {
    hide Stood, Elected, Unheard, Heard, OtherLinksSame;
    WinnerAtOnce(s, s1, s', c, lo, hi);
    HeardAtOnce(s, s1, s', c, lo, hi);
    LinksAtOnce(s, s1, s', c, lo, hi);
  }

  lemma WinnerAtOnce(s: Cluster, s1: Cluster, s': Cluster, c: int, lo: int, hi: int)
    requires Stood(s, s1, c) && Elected(s1, s', c, lo, hi)
    ensures c in s.nodes && !(lo <= c < hi) && s'.nodes.Keys == s.nodes.Keys
    ensures Unheard(s'.nodes[c]) && s'.nodes[c].term == s.nodes[c].term + 1 && s'.nodes[c].log == s.nodes[c].log
    ensures s'.nodes[c].commit == s.nodes[c].commit
  {
    CrownedIs(s.nodes[c], Quota(s1.nodes[c]) - 1);
    hide Crowned, Candidacy, Quota, Unheard, LastIs, Inauguration, Plea, Convinced;
  }

  lemma HeardAtOnce(s: Cluster, s1: Cluster, s': Cluster, c: int, lo: int, hi: int)
    requires Stood(s, s1, c) && Elected(s1, s', c, lo, hi)
    ensures c in s.nodes && s'.nodes.Keys == s.nodes.Keys
    ensures forall v :: lo <= v < hi ==> v in s.nodes && Heard(s.nodes[v], s'.nodes[v], s.nodes[c].term + 1)
    ensures forall v :: v in s.nodes && v != c && !(lo <= v < hi) ==> s'.nodes[v] == s.nodes[v]
  {
    CrownedIs(s.nodes[c], 0);
    hide Crowned, Candidacy, Quota, Heard, LastIs, Inauguration, Plea, Convinced;
    VotersHeard(s1, s', c, lo, hi);
  }

  lemma LinksAtOnce(s: Cluster, s1: Cluster, s': Cluster, c: int, lo: int, hi: int)
    requires Stood(s, s1, c) && Elected(s1, s', c, lo, hi)
    ensures OtherLinksSame(s, s', c, c, lo, hi)
  {
    hide Crowned, Candidacy, Quota, LastIs, Inauguration, Plea, Convinced;
  }

  lemma TookOverAfter(s: Cluster, s1: Cluster, s2: Cluster, s': Cluster, c: int, b: int, lo: int, hi: int)
    requires Stood(s, s1, c) && Unseated(s1, s2, c, b) && Elected(s2, s', c, lo, hi) && !(lo <= b < hi)
    ensures TookOver(s, s', c, b, lo, hi) && s'.nodes.Keys == s.nodes.Keys
  {
    hide Stood, Unseated, Elected, Unheard, Heard, OtherLinksSame;
    WinnerIs(s, s1, s2, s', c, b, lo, hi);
    HeardAfter(s, s1, s2, s', c, b, lo, hi);
    UntouchedLinks(s, s1, s2, s', c, b, lo, hi);
  }

  lemma WinnerIs(s: Cluster, s1: Cluster, s2: Cluster, s': Cluster, c: int, b: int, lo: int, hi: int)
    requires Stood(s, s1, c) && Unseated(s1, s2, c, b) && Elected(s2, s', c, lo, hi)
    ensures c in s.nodes && b in s.nodes && !(lo <= c < hi) && s'.nodes.Keys == s.nodes.Keys
    ensures Unheard(s'.nodes[c]) && s'.nodes[c].term == s.nodes[c].term + 1 && s'.nodes[c].log == s.nodes[c].log
    ensures s'.nodes[c].commit == s.nodes[c].commit
  {
    CrownedIs(s.nodes[c], Quota(s1.nodes[c]) - 1);
    hide Crowned, Candidacy, Quota, Unheard, Heard, LastIs, Inauguration, Plea, Convinced;
  }

  lemma HeardAfter(s: Cluster, s1: Cluster, s2: Cluster, s': Cluster, c: int, b: int, lo: int, hi: int)
    requires Stood(s, s1, c) && Unseated(s1, s2, c, b) && Elected(s2, s', c, lo, hi) && !(lo <= b < hi)
    ensures c in s.nodes && b in s.nodes && c != b && s'.nodes.Keys == s.nodes.Keys
    ensures forall v :: lo <= v < hi ==> v in s.nodes && Heard(s.nodes[v], s'.nodes[v], s.nodes[c].term + 1)
    ensures Heard(s.nodes[b], s'.nodes[b], s.nodes[c].term + 1)
    ensures forall v :: v in s.nodes && v != c && v != b && !(lo <= v < hi) ==> s'.nodes[v] == s.nodes[v]
  {
    CrownedIs(s.nodes[c], 0);
    hide Crowned, Candidacy, Quota, Heard, LastIs, Inauguration, Plea, Convinced;
    VotersHeard(s2, s', c, lo, hi);
  }

  lemma UntouchedLinks(s: Cluster, s1: Cluster, s2: Cluster, s': Cluster, c: int, b: int, lo: int, hi: int)
    requires Stood(s, s1, c) && Unseated(s1, s2, c, b) && Elected(s2, s', c, lo, hi)
    ensures OtherLinksSame(s, s', c, b, lo, hi)
  {
    hide Crowned, Candidacy, Quota, Heard, LastIs, Inauguration, Plea, Convinced;
  }

  lemma TakeOver(o: Cluster, s: Cluster, c: int, b: int, lo: int, hi: int, rules: Rules, size: nat)
      returns (s': Cluster)
    requires Stage(o, s, rules, size) && c in s.nodes && b in s.nodes && s.nodes[c].role != Leader
    requires lo < hi && !(lo <= c < hi) && !(lo <= b < hi) && 1 + (hi - lo) == Quota(s.nodes[c])
    requires b != c ==> s.nodes[b].term <= s.nodes[c].term
    requires forall v :: lo <= v < hi ==> Winnable(s, c, v)
    ensures Stage(o, s', rules, size) && TookOver(s, s', c, b, lo, hi)
  {
    hide Onward, Wired, Winnable, Canvassed, TookOver, Unseated, Elected, Plea, LastIs;
    var s1 := StandUp(o, s, c, rules, size);
    forall v | lo <= v < hi ensures Canvassed(s1, c, v) { WinnableIsCanvassed(s, s1, c, v); }
    if b == c {
      s' := Gather(o, s1, c, lo, hi, rules);
      TookOverAtOnce(s, s1, s', c, lo, hi);
    } else {
      var s2 := Unseat(o, s1, c, b, rules, size);
      forall v | lo <= v < hi ensures Canvassed(s2, c, v) { CanvassedStill(s1, s2, c, b, v); }
      s' := Gather(o, s2, c, lo, hi, rules);
      TookOverAfter(s, s1, s2, s', c, b, lo, hi);
    }
  }

  // ----- leading

  /** A client asks leader `l`. */
  ghost predicate Asked(s: Cluster, s': Cluster, l: int, cmd: Msg) {
    && l in s.nodes && s'.nodes == s.nodes[l := s.nodes[l].(log := s.nodes[l].log + [Entry(s.nodes[l].term, cmd)])]
    && (forall x, y :: x in s.nodes && y in s.nodes ==> Link(s', x, y) == Link(s, x, y))
  }

  lemma Request(o: Cluster, s: Cluster, l: int, cmd: Msg, rules: Rules, size: nat) returns (s': Cluster)
    requires Stage(o, s, rules, size) && l in s.nodes && s.nodes[l].role == Leader && rules.asking
    ensures Stage(o, s', rules, size) && Asked(s, s', l, cmd)
  {
    hide Onward, Wired;
    s' := AskLeader(o, s, l, cmd, rules);
    forall x, y | x in s.nodes && y in s.nodes ensures Link(s', x, y) == Link(s, x, y) {
      assert Link(s', x, y) == Turned(s, 0, l, Silent, x, y);
    }
  }

  /** The nodes `lo` to `hi` follow leader `l` with its log, and their receipts are on their way. */
  ghost predicate Spread(s: Cluster, s': Cluster, l: int, lo: int, hi: int) {
    && l in s.nodes && !(lo <= l < hi) && s'.nodes.Keys == s.nodes.Keys
    && SameButNext(s.nodes[l], s'.nodes[l])
    && AllAre(s', lo, hi, Follower, s.nodes[l].term, s.nodes[l].log)
    && (forall f :: lo <= f < hi ==> f in s.nodes && LastIs(s', f, l, Receipt(s.nodes[l], f)))
    && (forall v :: v in s.nodes && v != l && !(lo <= v < hi) ==> s'.nodes[v] == s.nodes[v])
    && (forall x, y :: x in s.nodes && y in s.nodes && x != l && (y != l || !(lo <= x < hi)) ==>
          Link(s', x, y) == Link(s, x, y))
  }

  /** Follower `f` can be brought to the log of leader `l`. */
  ghost predicate Teachable(s: Cluster, l: int, f: int) {
    Ahead(s, l, f) && s.nodes[f].role == Follower && s.nodes[f].commit == -1
  }

  lemma BeatLessons(s: Cluster, s1: Cluster, l: int, f: int)
    requires Wired(s) && Teachable(s, l, f)
    requires IndicesInRange(s.nodes[l]) && Turn(s, s1, 0, l, s.nodes[l], Each(Requests(s.nodes[l])))
    ensures l in s1.nodes && f in s1.nodes && f in s.nodes && s.nodes[f].commit == -1
    ensures Lesson(s1, l, f) && Matching(s1.nodes[f].log, s1.nodes[l].log) && s1.nodes[f].commit == -1
  {
    hide Matching, RequestFor, Requests, Turn;
    BeatGivesRequest(s, s1, l, f);
    NodeIs(s, l);
    NodeIs(s, f);
  }

  lemma SpreadLog(o: Cluster, s: Cluster, l: int, lo: int, hi: int, rules: Rules, size: nat) returns (s': Cluster)
    requires !(lo <= rules.intact < hi)
    requires Stage(o, s, rules, size) && l in s.nodes && s.nodes[l].role == Leader && s.nodes[l].commit == -1
    requires lo < hi && !(lo <= l < hi) && forall f :: lo <= f < hi ==> Teachable(s, l, f)
    ensures Stage(o, s', rules, size) && Spread(s, s', l, lo, hi)
  {
    hide Onward, Wired, Teachable, Lessons, Requests, AllLearnt, Matching, Spread, Turn;
    var s1 := Beat(o, s, l, rules);
    AllLessons(s, s1, l, lo, hi);
    NodeIs(s, l);
    BeatKeeps(s, s1, l);
    s' := TeachAll(o, s1, l, lo, hi, rules);
    SpreadFrom(s, s1, s', l, lo, hi);
  }

  lemma AllLessons(s: Cluster, s1: Cluster, l: int, lo: int, hi: int)
    requires Wired(s) && l in s.nodes && s.nodes[l].role == Leader && IndicesInRange(s.nodes[l])
    requires Turn(s, s1, 0, l, s.nodes[l], Each(Requests(s.nodes[l])))
    requires forall f :: lo <= f < hi ==> Teachable(s, l, f)
    ensures Lessons(s1, l, lo, hi)
    ensures forall f :: lo <= f < hi ==> f in s.nodes && s.nodes[f].commit == -1
  {
    hide Wired, Teachable, Lesson, Requests, Matching, Turn;
    forall f | lo <= f < hi
      ensures f in s.nodes && s.nodes[f].commit == -1
      ensures Lesson(s1, l, f) && f in s1.nodes && l in s1.nodes && Matching(s1.nodes[f].log, s1.nodes[l].log)
      ensures s1.nodes[f].commit == -1
    {
      BeatLessons(s, s1, l, f);
    }
  }

  lemma BeatKeeps(s: Cluster, s1: Cluster, l: int)
    requires l in s.nodes && 0 !in s.nodes && s.nodes[l].role == Leader && IndicesInRange(s.nodes[l])
    requires Turn(s, s1, 0, l, s.nodes[l], Each(Requests(s.nodes[l])))
    ensures s1.nodes == s.nodes
    ensures forall x, y :: x in s.nodes && y in s.nodes && x != l ==> Link(s1, x, y) == Link(s, x, y)
  {
    hide Requests;
    assert s1.nodes == s.nodes;
    forall x, y | x in s.nodes && y in s.nodes && x != l ensures Link(s1, x, y) == Link(s, x, y) {
      assert Link(s1, x, y) == Turned(s, 0, l, Each(Requests(s.nodes[l])), x, y);
    }
  }

  lemma SpreadFrom(s: Cluster, s1: Cluster, s': Cluster, l: int, lo: int, hi: int)
    requires s1.nodes == s.nodes && AllLearnt(s1, s', l, lo, hi) && s.nodes[l].commit == -1
    requires forall x, y :: x in s.nodes && y in s.nodes && x != l ==> Link(s1, x, y) == Link(s, x, y)
    requires forall f :: lo <= f < hi ==> f in s.nodes && s.nodes[f].commit == -1
    ensures Spread(s, s', l, lo, hi) && s'.nodes.Keys == s.nodes.Keys
  {
    hide LastIs, Receipt;
  }

  /** The leader has committed its whole log, which the nodes `lo` to `hi` have too. */
  ghost predicate SettledBy(s: Cluster, s': Cluster, l: int, lo: int, hi: int) {
    && l in s.nodes && !(lo <= l < hi) && s'.nodes.Keys == s.nodes.Keys
    && s'.nodes[l].log == s.nodes[l].log && s'.nodes[l].commit == |s.nodes[l].log| - 1
    && s'.nodes[l].role == s.nodes[l].role && s'.nodes[l].term == s.nodes[l].term
    && AllAre(s', lo, hi, Follower, s.nodes[l].term, s.nodes[l].log)
    && (forall v :: v in s.nodes && v != l && !(lo <= v < hi) ==> s'.nodes[v] == s.nodes[v])
  }

  /** With an entry of its term at the end of its log, the leader spreads it to a quorum and commits. */
  lemma SettleLog(o: Cluster, s: Cluster, l: int, lo: int, hi: int, rules: Rules, size: nat) returns (s': Cluster)
    requires !(lo <= rules.intact < hi)
    requires Stage(o, s, rules, size) && l in s.nodes && Unheard(s.nodes[l]) && s.nodes[l].commit == -1
    requires s.nodes[l].log != [] && LastTerm(s.nodes[l].log) == s.nodes[l].term
    requires lo < hi && !(lo <= l < hi) && 1 + (hi - lo) == Quota(s.nodes[l])
    requires forall f :: lo <= f < hi ==> Teachable(s, l, f)
    ensures Stage(o, s', rules, size) && SettledBy(s, s', l, lo, hi)
  {
    hide Onward, Wired, Teachable, Acked, CommitsUpTo, AckWaits, Copies, Quota, SettledBy, Spread, Proposing;
    var k := |s.nodes[l].log| - 1;
    var s1 := SpreadLog(o, s, l, lo, hi, rules, size);
    NodeIs(s1, l);
    SpreadProposes(s, s1, l, lo, hi);
    SpreadAcks(s, s1, l, lo, hi);
    s' := HandleAcks(o, s1, l, lo, hi, s.nodes[l].term, k, rules, size);
    SettledFrom(s, s1, s', l, lo, hi);
  }

  lemma SpreadProposes(s: Cluster, s1: Cluster, l: int, lo: int, hi: int)
    requires Spread(s, s1, l, lo, hi) && Unheard(s.nodes[l]) && s.nodes[l].commit == -1
    requires s.nodes[l].log != [] && LastTerm(s.nodes[l].log) == s.nodes[l].term
    requires l in s1.nodes && Sound(s1.nodes[l])
    ensures Proposing(s1.nodes[l], |s.nodes[l].log| - 1) && Unheard(s1.nodes[l])
    ensures Quota(s1.nodes[l]) == Quota(s.nodes[l]) && s1.nodes[l].term == s.nodes[l].term
  {}

  lemma SpreadAcks(s: Cluster, s1: Cluster, l: int, lo: int, hi: int)
    requires Spread(s, s1, l, lo, hi)
    ensures var t, k := s.nodes[l].term, |s.nodes[l].log| - 1;
      forall f :: lo <= f < hi ==> f in s1.nodes && LastIs(s1, f, l, AppendResponse(t, f, true, k))
  {
    hide LastIs, AllAre;
    forall f | lo <= f < hi
      ensures f in s1.nodes && LastIs(s1, f, l, AppendResponse(s.nodes[l].term, f, true, |s.nodes[l].log| - 1))
    {
      assert Receipt(s.nodes[l], f) == AppendResponse(s.nodes[l].term, f, true, |s.nodes[l].log| - 1);
    }
  }

  lemma SettledFrom(s: Cluster, s1: Cluster, s': Cluster, l: int, lo: int, hi: int)
    requires Spread(s, s1, l, lo, hi) && s.nodes[l].log != [] && l in s'.nodes && Acked(s1, s', l, lo, hi, s'.nodes[l])
    requires CommitsUpTo(s1.nodes[l], s'.nodes[l], |s.nodes[l].log| - 1)
    ensures SettledBy(s, s', l, lo, hi)
  {
    hide LastIs, Receipt;
    var n, n1, n' := s.nodes[l], s1.nodes[l], s'.nodes[l];
    assert n'.log == n1.log == n.log && n'.role == n1.role == n.role && n'.term == n1.term == n.term;
    forall f | lo <= f < hi ensures Is(s', f, Follower, n.term, n.log) {
      assert Is(s1, f, Follower, n.term, n.log);
    }
    forall v | v in s.nodes && v != l && !(lo <= v < hi) ensures s'.nodes[v] == s.nodes[v] {
      assert s1.nodes[v] == s.nodes[v];
    }
  }

  /** Leader `l` brings node `f`, whatever it was, to its log. */
  lemma BringUp(o: Cluster, s: Cluster, l: int, f: int, rules: Rules, size: nat) returns (s': Cluster)
    requires f != rules.intact
    requires Stage(o, s, rules, size) && Ahead(s, l, f) && s.nodes[f].commit == -1
    ensures Stage(o, s', rules, size) && Brought(s, s', l, f)
  {
    hide Onward, Wired, Ahead, CaughtUp;
    s' := Bring(o, s, l, f, rules, size);
  }

  /** Leader `l` commits by acknowledgements of any term, if the rules let it. */
  lemma HandleAcks(o: Cluster, s: Cluster, l: int, lo: int, hi: int, t: int, k: nat, rules: Rules, size: nat)
      returns (s': Cluster)
    requires Stage(o, s, rules, size) && l in s.nodes && Unheard(s.nodes[l]) && s.nodes[l].commit == -1
    requires |s.nodes[l].log| == k + 1 && s.nodes[l].log[k].term == s.nodes[l].term
    requires lo < hi && !(lo <= l < hi) && 1 + (hi - lo) == Quota(s.nodes[l])
    requires forall f :: lo <= f < hi ==> f in s.nodes && LastIs(s, f, l, AppendResponse(t, f, true, k))
    requires rules.guarded ==> t == s.nodes[l].term
    ensures Stage(o, s', rules, size) && Acked(s, s', l, lo, hi, s'.nodes[l]) && CommitsUpTo(s.nodes[l], s'.nodes[l], k)
  {
    hide Onward, Wired, AckWaits, Acked, Copies, Quota;
    NoCopies(s.nodes[l].matchIndex, k);
    NodeIs(s, l);
    forall f | lo <= f < hi ensures AckWaits(s, l, f, t, k) { AckOf(s, l, f, t, k); }
    s' := AckAll(o, s, l, lo, hi, t, k, rules);
  }

  lemma AckOf(s: Cluster, l: int, f: int, t: int, k: nat)
    requires Wired(s) && l in s.nodes && f in s.nodes && l != f && Unheard(s.nodes[l])
    requires LastIs(s, f, l, AppendResponse(t, f, true, k))
    ensures AckWaits(s, l, f, t, k)
  {
    PeersAreOthers(s, l);
    NodeIs(s, l);
    hide Sound, LastIs;
    assert f in s.nodes[l].peers;
  }

  // ----- ranges of like nodes

  lemma AllWinnable(s: Cluster, c: int, lo: int, hi: int, role: Role, term: int, log: seq<Entry>)
    requires AllAre(s, lo, hi, role, term, log) && c in s.nodes && !(lo <= c < hi)
    requires term <= s.nodes[c].term && UpToDate(LastTerm(s.nodes[c].log), |s.nodes[c].log| - 1, log)
    ensures forall v :: lo <= v < hi ==> Winnable(s, c, v)
  {
    hide UpToDate;
    forall v | lo <= v < hi ensures Winnable(s, c, v) { assert Is(s, v, role, term, log); }
  }

  lemma AllTeachable(s: Cluster, l: int, lo: int, hi: int, term: int, log: seq<Entry>)
    requires AllAre(s, lo, hi, Follower, term, log) && l in s.nodes && !(lo <= l < hi)
    requires s.nodes[l].role == Leader && term <= s.nodes[l].term && Matching(log, s.nodes[l].log)
    ensures forall f :: lo <= f < hi ==> Teachable(s, l, f)
  {
    hide Matching;
    forall f | lo <= f < hi ensures Teachable(s, l, f) { assert Is(s, f, Follower, term, log); }
  }

  lemma SomeAlike(s: Cluster, lo: int, hi: int, lo': int, hi': int, role: Role, term: int, log: seq<Entry>)
    requires AllAre(s, lo, hi, role, term, log) && lo <= lo' && hi' <= hi
    ensures AllAre(s, lo', hi', role, term, log)
  {}

  lemma OneOf(s: Cluster, v: int, lo: int, hi: int, role: Role, term: int, log: seq<Entry>)
    requires AllAre(s, lo, hi, role, term, log) && lo <= v < hi
    ensures Is(s, v, role, term, log)
  {}

  /** Nodes that have not changed are still alike. */
  lemma StillAlike(s: Cluster, s': Cluster, lo: int, hi: int, role: Role, term: int, log: seq<Entry>)
    requires AllAre(s, lo, hi, role, term, log)
    requires forall v :: lo <= v < hi && v in s.nodes ==> v in s'.nodes && s'.nodes[v] == s.nodes[v]
    ensures AllAre(s', lo, hi, role, term, log)
  {
    forall v | lo <= v < hi ensures Is(s', v, role, term, log) { assert Is(s, v, role, term, log); }
  }

  /** Nodes that have elected a leader are alike if they were. */
  lemma ElectorsAlike(s: Cluster, s': Cluster, c: int, b: int, lo: int, hi: int, role: Role, term: int, log: seq<Entry>)
    requires AllAre(s, lo, hi, role, term, log) && TookOver(s, s', c, b, lo, hi)
    ensures AllAre(s', lo, hi, Follower, s.nodes[c].term + 1, log)
  {
    var next := s.nodes[c].term + 1;
    forall v | lo <= v < hi ensures Is(s', v, Follower, next, log) { assert Is(s, v, role, term, log); }
  }
}
