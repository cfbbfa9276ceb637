/** What holds in every state a cluster reaches, about the state and its history. */
module Invariants {
  import opened RaftTypes
  import opened NodeStep
  import opened ClusterModel
  import opened History
  import opened Quorums

  // ----- configuration and single nodes

  /** Ids are distinct and non-zero, every node knows all others, and only distinct nodes are linked. */
  ghost predicate ConfigOk(s: Cluster) {
    && 0 !in s.nodes
    && (forall v :: v in s.nodes ==> s.nodes[v].id == v && PeersOf(s.nodes[v].peers, v, s.nodes.Keys))
    && (forall a, b :: (a, b) in s.net <==> a in s.nodes && b in s.nodes)
    && (forall a :: Link(s, a, a) == [])
  }

  predicate Sorted(log: seq<Entry>) {
    forall i, j :: 0 <= i < j < |log| ==> log[i].term <= log[j].term
  }

  predicate TermsWithin(log: seq<Entry>, term: int) {
    forall i :: 0 <= i < |log| ==> 1 <= log[i].term <= term
  }

  predicate NodeOk(n: Node) {
    && 0 <= n.term
    && TermsWithin(n.log, n.term)
    && Sorted(n.log)
    && -1 <= n.commit
  }

  ghost predicate NodesOk(s: Cluster) {
    forall v :: v in s.nodes ==> NodeOk(s.nodes[v])
  }

  // ----- links

  /** Two messages that may follow each other on a link. */
  predicate Before(m1: Message, m2: Message) {
    && m1.term <= m2.term
    && (m2.VoteRequest? ==> m1.term < m2.term)
    && (m1.VoteResponse? && m2.VoteResponse? && m1.granted && m2.granted ==> m1.term < m2.term)
  }

  predicate Ordered(q: seq<Message>) {
    forall i, j :: 0 <= i < j < |q| ==> Before(q[i], q[j])
  }

  /** The message names its sender, and carries a term its sender has reached. */
  predicate SignedBy(m: Message, a: int, term: int) {
    && 0 <= m.term <= term
    && match m
       case VoteRequest(_, c, _, _) => c == a && 1 <= m.term
       case VoteResponse(_, _) => true
       case AppendRequest(_, l, prev, _, _, _) => l == a && -1 <= prev
       case AppendResponse(_, f, _, _) => f == a
  }

  ghost predicate LinksOk(s: Cluster) {
    forall a, b :: a in s.nodes && b in s.nodes ==>
      && Ordered(Link(s, a, b))
      && forall m :: m in Link(s, a, b) ==> SignedBy(m, a, s.nodes[a].term)
  }

  // ----- votes

  /** `w` voted for `c` in `term`. */
  predicate VotedFor(h: History, term: int, w: int, c: int) {
    (term, w) in h.ballots && h.ballots[(term, w)].cand == c
  }

  ghost predicate BallotOk(s: Cluster, h: History, T: int, w: int)
    requires (T, w) in h.ballots
  {
    var c := h.ballots[(T, w)].cand;
    && w in s.nodes && c in s.nodes
    && 1 <= T <= s.nodes[w].term && T <= s.nodes[c].term
  }

  /** `votedFor` is zero only before the node votes, and names a node that has reached the term. */
  ghost predicate VoterOk(s: Cluster, h: History, w: int)
    requires w in s.nodes
  {
    var n := s.nodes[w];
    && (n.votedFor == 0 ==> (n.term, w) !in h.ballots)
    && (n.votedFor in s.nodes ==> n.term <= s.nodes[n.votedFor].term)
  }

  ghost predicate BallotsOk(s: Cluster, h: History) {
    && (forall T, w :: (T, w) in h.ballots ==> BallotOk(s, h, T, w))
    && (forall w :: w in s.nodes ==> VoterOk(s, h, w))
  }

  /** A vote request is still unanswered, and describes the candidate that sent it. */
  ghost predicate RequestOk(s: Cluster, h: History, a: int, b: int, m: Message)
    requires m.VoteRequest? && a in s.nodes && b in s.nodes
  {
    var n := s.nodes[a];
    && !VotedFor(h, m.term, b, a)
    && (s.nodes[b].votedFor == a ==> m.term != s.nodes[b].term)
    && (n.role == Candidate && n.term == m.term ==>
          m.lastLogIndex == |n.log| - 1 && m.lastLogTerm == LastTerm(n.log))
  }

  /** The vote of `w` for candidate `n`: cast for it in its term, by a node with no better log. */
  ghost predicate VoteOk(h: History, n: Node, w: int) {
    && VotedFor(h, n.term, w, n.id)
    && UpToDate(LastTerm(n.log), |n.log| - 1, h.ballots[(n.term, w)].log)
  }

  /** A granted vote on its way is genuine, and while it can matter it is not yet counted. */
  ghost predicate GrantOk(s: Cluster, h: History, a: int, b: int, m: Message)
    requires m.VoteResponse? && b in s.nodes
  {
    m.granted ==>
      && VotedFor(h, m.term, a, b)
      && (s.nodes[b].role == Candidate && s.nodes[b].term == m.term ==>
            a !in Tally(h, b) && VoteOk(h, s.nodes[b], a))
  }

  ghost predicate VoteLinksOk(s: Cluster, h: History) {
    forall a, b :: a in s.nodes && b in s.nodes ==>
      forall m :: m in Link(s, a, b) ==>
        && (m.VoteRequest? ==> RequestOk(s, h, a, b, m))
        && (m.VoteResponse? ==> GrantOk(s, h, a, b, m))
  }

  /** A candidate's bare counter counts distinct genuine votes. */
  ghost predicate CandidateOk(s: Cluster, h: History, v: int)
    requires v in s.nodes
  {
    s.nodes[v].role == Candidate ==>
      && s.nodes[v].yes == |Tally(h, v)|
      && v in Tally(h, v)
      && Tally(h, v) <= s.nodes.Keys
      && forall w :: w in Tally(h, v) ==> VoteOk(h, s.nodes[v], w)
  }

  ghost predicate CandidatesOk(s: Cluster, h: History) {
    forall v :: v in s.nodes ==> CandidateOk(s, h, v)
  }

  ghost predicate VotesInv(s: Cluster, h: History) {
    && BallotsOk(s, h) && VoteLinksOk(s, h) && CandidatesOk(s, h)
  }

  // ----- reigns

  /** The leader of term T: its log on election holds older entries only, what follows is of term T. */
  ghost predicate ReignOk(s: Cluster, h: History, T: int)
    requires T in h.reigns
  {
    var r := h.reigns[T];
    && r.id in s.nodes
    && 1 <= T <= s.nodes[r.id].term
    && (s.nodes[r.id].term == T ==> s.nodes[r.id].role == Leader)
    && r.base <= |r.log|
    && (forall i :: 0 <= i < r.base ==> r.log[i].term < T)
    && (forall i :: r.base <= i < |r.log| ==> r.log[i].term == T)
    && Sorted(r.log)
    && IsQuorum(s.nodes.Keys, r.voters)
    && (forall w :: w in r.voters ==> VotedFor(h, T, w, r.id))
  }

  ghost predicate LeaderOk(h: History, n: Node) {
    n.role == Leader ==>
      n.term in h.reigns && h.reigns[n.term].id == n.id && h.reigns[n.term].log == n.log
  }

  ghost predicate ReignsInv(s: Cluster, h: History) {
    && (forall T :: T in h.reigns ==> ReignOk(s, h, T))
    && (forall v :: v in s.nodes ==> LeaderOk(h, s.nodes[v]))
  }

  // ----- logs

  predicate Agree(x: seq<Entry>, y: seq<Entry>, n: int) {
    0 <= n <= |x| && n <= |y| && x[..n] == y[..n]
  }

  /** The entry at `i`, and all before it, are those of the leader that created it. */
  predicate Backed(h: History, log: seq<Entry>, i: nat)
    requires i < |log|
  {
    log[i].term in h.reigns && Agree(log, h.reigns[log[i].term].log, i + 1)
  }

  predicate Coherent(h: History, log: seq<Entry>) {
    forall i :: 0 <= i < |log| ==> Backed(h, log, i)
  }

  ghost predicate LogsInv(s: Cluster, h: History) {
    && (forall v :: v in s.nodes ==> Coherent(h, s.nodes[v].log))
    && (forall T :: T in h.reigns ==> Coherent(h, h.reigns[T].log))
    && (forall T, w :: (T, w) in h.ballots ==> Coherent(h, h.ballots[(T, w)].log))
  }

  /** An append request carries the log of its term's leader from `prevLogIndex + 1` up to its
      end when sent, which is at or beyond the leader's log on election. */
  predicate SnapshotOk(h: History, a: int, m: Message)
    requires m.AppendRequest?
  {
    && m.term in h.reigns
    && h.reigns[m.term].id == a
    && -1 <= m.prevLogIndex
    && h.reigns[m.term].base <= End(m) <= |h.reigns[m.term].log|
    && SliceOf(h.reigns[m.term].log, m)
  }

  /** The request carries this part of the log, and the term of the entry before it. */
  predicate SliceOf(log: seq<Entry>, m: Message)
    requires m.AppendRequest? && -1 <= m.prevLogIndex && End(m) <= |log|
  {
    && m.data == log[m.prevLogIndex + 1..End(m)]
    && (m.prevLogIndex >= 0 ==> m.prevLogTerm == log[m.prevLogIndex].term)
  }

  // ----- acceptance

  /** `v` has accepted the leader's log of term T as far as index `k`. */
  predicate Holds(h: History, T: int, v: int, k: int) {
    (T, v) in h.acc && k < h.acc[(T, v)]
  }

  /** Acceptance is a prefix of that leader's log, and while the term lasts it is the whole log. */
  ghost predicate AcceptedOk(s: Cluster, h: History, T: int, v: int)
    requires (T, v) in h.acc
  {
    && v in s.nodes
    && T in h.reigns
    && T <= s.nodes[v].term
    && h.reigns[T].base <= h.acc[(T, v)] <= |h.reigns[T].log|
    && (s.nodes[v].term == T ==> s.nodes[v].log == h.reigns[T].log[..h.acc[(T, v)]])
  }

  /** A success reply tells the leader it answers no more than its sender has accepted. */
  predicate AckOk(h: History, a: int, b: int, m: Message)
    requires m.AppendResponse?
  {
    m.success ==>
      && m.term in h.reigns && h.reigns[m.term].id == b
      && -1 <= m.index
      && (m.term, a) in h.acc && m.index < h.acc[(m.term, a)]
  }

  /** Later requests of a term reach at least as far as earlier ones. */
  predicate NoShorter(m1: Message, m2: Message) {
    m1.AppendRequest? && m2.AppendRequest? && m1.term == m2.term ==> End(m1) <= End(m2)
  }

  predicate Lengthening(q: seq<Message>) {
    forall i, j :: 0 <= i < j < |q| ==> NoShorter(q[i], q[j])
  }

  ghost predicate AppendLinkOk(h: History, a: int, b: int, m: Message) {
    && (m.AppendRequest? ==>
          SnapshotOk(h, a, m) && ((m.term, b) in h.acc ==> h.acc[(m.term, b)] <= End(m)))
    && (m.AppendResponse? ==> AckOk(h, a, b, m))
  }

  /** What a leader believes its peers hold, they have accepted. */
  ghost predicate MatchOk(h: History, n: Node) {
    n.role == Leader ==>
      && (n.term, n.id) in h.acc
      && forall i :: 0 <= i < |n.matchIndex| && i < |n.peers| && n.matchIndex[i] >= 0 ==>
           Holds(h, n.term, n.peers[i], n.matchIndex[i])
  }

  ghost predicate AcceptInv(s: Cluster, h: History) {
    && (forall T, v :: (T, v) in h.acc ==> AcceptedOk(s, h, T, v))
    && (forall a, b :: a in s.nodes && b in s.nodes ==>
          && Lengthening(Link(s, a, b))
          && forall m :: m in Link(s, a, b) ==> AppendLinkOk(h, a, b, m))
  }

  ghost predicate MatchInv(s: Cluster, h: History) {
    forall v :: v in s.nodes ==> MatchOk(h, s.nodes[v])
  }

  // ----- leader completeness

  /** Index `k` of the log of term T's leader is an entry of its own term. */
  predicate Own(h: History, T: int, k: int) {
    T in h.reigns && 0 <= k < |h.reigns[T].log| && h.reigns[T].log[k].term == T
  }

  /** The quorum `q` has moved past term T without accepting index `k`, so it never will. */
  ghost predicate DeadBy(s: Cluster, h: History, T: int, k: int, q: set<int>) {
    && IsQuorum(s.nodes.Keys, q)
    && forall v :: v in q ==> v in s.nodes && s.nodes[v].term > T && !Holds(h, T, v, k)
  }

  ghost predicate Dead(s: Cluster, h: History, T: int, k: int) {
    exists q :: DeadBy(s, h, T, k, q)
  }

  /** `log` has everything up to index `k` of term T's leader, or that index can no longer be committed. */
  ghost predicate Kept(s: Cluster, h: History, T: int, k: int, log: seq<Entry>) {
    Own(h, T, k) ==> Agree(log, h.reigns[T].log, k + 1) || Dead(s, h, T, k)
  }

  ghost predicate CompleteInv(s: Cluster, h: History) {
    && (forall T, T', k :: T in h.reigns && T' in h.reigns && T < T' ==>
          Kept(s, h, T, k, h.reigns[T'].log[..Base(h, T')]))
    && (forall T, v, k :: v in s.nodes && Holds(h, T, v, k) ==> Kept(s, h, T, k, s.nodes[v].log))
    && (forall T, T', w, k :: (T', w) in h.ballots && T < T' && Holds(h, T, w, k) ==>
          Kept(s, h, T, k, h.ballots[(T', w)].log))
  }

  function Base(h: History, T: int): nat
    requires T in h.reigns
  {
    if h.reigns[T].base <= |h.reigns[T].log| then h.reigns[T].base else 0
  }

  // ----- commitment

  ghost predicate ChosenBy(ids: set<int>, h: History, T: int, k: int, q: set<int>) {
    IsQuorum(ids, q) && forall v :: v in q ==> Holds(h, T, v, k)
  }

  /** A quorum has accepted index `k` of term T's leader, an entry of its own term. */
  ghost predicate Chosen(ids: set<int>, h: History, T: int, k: int) {
    Own(h, T, k) && exists q :: ChosenBy(ids, h, T, k, q)
  }

  /** Indices up to `c` of `log` are covered by a chosen entry of term T. */
  ghost predicate CoveredBy(ids: set<int>, h: History, log: seq<Entry>, c: int, T: int, k: int) {
    Chosen(ids, h, T, k) && c <= k && Agree(log, h.reigns[T].log, c + 1)
  }

  /** What `n` has committed is covered by a term it has left, or is in and has accepted from. */
  ghost predicate Witness(ids: set<int>, h: History, n: Node, T: int, k: int) {
    && CoveredBy(ids, h, n.log, n.commit, T, k)
    && (T < n.term || (T == n.term && (T, n.id) in h.acc))
  }

  ghost predicate CommitOk(ids: set<int>, h: History, n: Node) {
    n.commit >= 0 ==> exists T, k :: Witness(ids, h, n, T, k)
  }

  /** What a request announces as committed is covered in its leader's log. */
  ghost predicate Announced(ids: set<int>, h: History, m: Message, T: int, k: int)
    requires m.AppendRequest? && m.term in h.reigns
  {
    CoveredBy(ids, h, h.reigns[m.term].log, m.leaderCommit, T, k) && T <= m.term
  }

  ghost predicate AnnouncedOk(ids: set<int>, h: History, m: Message) {
    m.AppendRequest? ==>
      && m.leaderCommit < End(m)
      && (m.leaderCommit >= 0 && m.term in h.reigns ==> exists T, k :: Announced(ids, h, m, T, k))
  }

  ghost predicate CommitInv(s: Cluster, h: History) {
    && (forall v :: v in s.nodes ==> CommitOk(s.nodes.Keys, h, s.nodes[v]))
    && (forall a, b :: a in s.nodes && b in s.nodes ==>
          forall m :: m in Link(s, a, b) ==> AnnouncedOk(s.nodes.Keys, h, m))
  }

  // ----- ranges

  /** A message of the present term of `n`, about indices up to `end`, can matter to no candidacy and, if
      `n` leads, stays inside its log. */
  predicate Inside(n: Node, term: int, end: int) {
    term < n.term || (term == n.term && n.role != Candidate && (n.role == Leader ==> end <= |n.log|))
  }

  /** `a` sent `m` to `b`. */
  predicate LinkInside(a: Node, b: Node, m: Message) {
    && (m.AppendRequest? ==> Inside(a, m.term, End(m)))
    && (m.AppendResponse? && m.success ==> -1 <= m.index && Inside(b, m.term, m.index + 1))
  }

  predicate NodeInside(n: Node) {
    IndicesInRange(n) && -1 <= n.commit
  }

  ghost predicate RangeInv(s: Cluster) {
    && (forall v :: v in s.nodes ==> NodeInside(s.nodes[v]))
    && (forall a, b :: a in s.nodes && b in s.nodes ==>
          forall m :: m in Link(s, a, b) ==> LinkInside(s.nodes[a], s.nodes[b], m))
  }

  // ----- all together

  /** Configuration, terms and the order on the links. */
  ghost predicate BasicInv(s: Cluster) {
    ConfigOk(s) && LinksOk(s) && forall v :: v in s.nodes ==> 0 <= s.nodes[v].term
  }

  /** What holds in clusters of a safe size, whatever replies are delivered. */
  ghost predicate CoreInv(s: Cluster, h: History) {
    && BasicInv(s) && NodesOk(s) && VotesInv(s, h) && ReignsInv(s, h) && LogsInv(s, h) && AcceptInv(s, h)
  }

  /** What holds there when stale success replies are held back. */
  ghost predicate Inv(s: Cluster, h: History) {
    CoreInv(s, h) && RangeInv(s) && MatchInv(s, h) && CompleteInv(s, h) && CommitInv(s, h)
  }
}
