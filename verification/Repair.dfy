/** Log repair: a leader whose append requests a follower refuses steps back one index at a time
    until the follower accepts, and then their logs are equal. */
module Repair {
  import opened RaftTypes
  import opened NodeStep
  import opened LogFacts

  /** Leader `l` and follower `f`, which is peer `i` of `l`, as they may be when an exchange starts. */
  predicate Exchanging(l: Node, f: Node, i: nat) {
    && l.role == Leader && IndicesInRange(l)
    && i < |l.peers| && PeerIndex(l.peers, f.id) == i
    && f.role == Follower && f.term <= l.term && -1 <= f.commit
  }

  /** What the follower's handler makes of the leader's request for it. */
  function Receives(l: Node, f: Node, i: nat): Outcome
    requires Exchanging(l, f, i)
  {
    OnAppendRequest(f, RequestFor(l, i))
  }

  predicate Agreeing(l: Node, f: Node, i: nat)
    requires Exchanging(l, f, i)
  {
    PrevMatches(f.log, RequestFor(l, i))
  }

  /** The follower's refusal on its way back. */
  function Refusal(l: Node, f: Node): Message {
    AppendResponse(l.term, f.id, false, |f.log| - 1)
  }

  /** The leader with its index for peer `i` one lower. */
  function StepsBack(l: Node, i: nat): Node
    requires i < |l.nextIndex|
  {
    l.(nextIndex := l.nextIndex[i := Max(0, l.nextIndex[i] - 1)])
  }

  /** That is what handling a refusal makes of it, and it then sends the request one index lower. */
  lemma RefusalStepsBack(l: Node, f: Node, i: nat)
    requires Exchanging(l, f, i) && -1 <= l.commit < |l.log|
    ensures Exchanging(StepsBack(l, i), f, i)
    ensures OnAppendResponse(l, Refusal(l, f)) ==
      Outcome(StepsBack(l, i), [Send(f.id, RequestFor(StepsBack(l, i), i))])
  {}

  /** A refused request changes no log, and is answered by the message that StepsBack handles. */
  lemma RefusalIsSent(l: Node, f: Node, i: nat)
    requires Exchanging(l, f, i) && !Agreeing(l, f, i)
    ensures var out := Receives(l, f, i);
      && out.node == f.(term := l.term, votedFor := l.id)
      && out.actions[|out.actions| - 1] == Send(l.id, Refusal(l, f))
  {}

  /** Both nodes when the follower has accepted, and how many requests it refused before. */
  datatype Exchanged = Exchanged(leader: Node, follower: Node, refusals: nat)

  /** An exchange without loss: request, refusal, request one index lower, and so on. */
  ghost function Exchange(l: Node, f: Node, i: nat): Exchanged
    requires Exchanging(l, f, i) && -1 <= l.commit < |l.log|
    decreases l.nextIndex[i]
  {
    if Agreeing(l, f, i) then Exchanged(l, Receives(l, f, i).node, 0)
    else
      var rest := Exchange(StepsBack(l, i), Receives(l, f, i).node, i);
      rest.(refusals := rest.refusals + 1)
  }

  /** Two logs that match: equal terms at an index mean equal entries up to it. */
  predicate Matching(x: seq<Entry>, y: seq<Entry>) {
    forall k :: 0 <= k < |x| && k < |y| && x[k].term == y[k].term ==> x[..k + 1] == y[..k + 1]
  }

  /** The logs have entries of the same term just before index `p`, or `p` is 0. */
  predicate MeetAt(x: seq<Entry>, y: seq<Entry>, p: nat)
    requires p <= |x|
  {
    p == 0 || (p <= |y| && y[p - 1].term == x[p - 1].term)
  }

  /** The exchange that starts at index `k` has to go back to `p` and no further. */
  ghost predicate LastMeeting(x: seq<Entry>, y: seq<Entry>, k: int, p: int) {
    0 <= p <= k <= |x| && MeetAt(x, y, p) && forall q :: p < q <= k ==> !MeetAt(x, y, q)
  }

  lemma AcceptedEqual(l: Node, f: Node, i: nat)
    requires Exchanging(l, f, i) && Agreeing(l, f, i) && Matching(f.log, l.log)
    ensures Receives(l, f, i).node.log == l.log
  {
    AcceptedLog(l, f, i);
    RepairsLog(f.log, l.log, l.nextIndex[i]);
  }

  lemma AcceptedLog(l: Node, f: Node, i: nat)
    requires Exchanging(l, f, i) && Agreeing(l, f, i)
    ensures Receives(l, f, i).node.log == Merge(f.log, l.nextIndex[i], l.log[l.nextIndex[i]..])
  {}

  lemma RepairsLog(log: seq<Entry>, lead: seq<Entry>, start: nat)
    requires start <= |lead| && start <= |log| && Matching(log, lead)
    requires start > 0 ==> log[start - 1].term == lead[start - 1].term
    ensures Merge(log, start, lead[start..]) == lead
  {
    MatchedTerm(log, lead, start, |lead|);
    MergeGives(log, lead, start, |lead|);
    assert lead[start..|lead|] == lead[start..];
  }

  /** What is to be shown of the exchange in which `l` repairs `f`. */
  ghost predicate Repaired(l: Node, f: Node, i: nat, end: Exchanged)
    requires i < |l.nextIndex|
  {
    var k := l.nextIndex[i];
    && end.follower.log == l.log
    && end.leader == l.(nextIndex := l.nextIndex[i := k - end.refusals])
    && LastMeeting(l.log, f.log, k, k - end.refusals)
  }

  lemma OneMoreRefusal(l: Node, f: Node, f1: Node, i: nat, rest: Exchanged)
    requires i < |l.nextIndex| && 0 < l.nextIndex[i] <= |l.log| && f1.log == f.log
    requires !MeetAt(l.log, f.log, l.nextIndex[i]) && Repaired(StepsBack(l, i), f1, i, rest)
    ensures Repaired(l, f, i, rest.(refusals := rest.refusals + 1))
  {}

  lemma RepairedAtOnce(l: Node, f: Node, i: nat)
    requires Exchanging(l, f, i) && Agreeing(l, f, i) && Matching(f.log, l.log)
    ensures Repaired(l, f, i, Exchanged(l, Receives(l, f, i).node, 0))
  {
    AcceptedEqual(l, f, i);
  }

  lemma StillExchanging(l: Node, f: Node, i: nat)
    requires Exchanging(l, f, i) && -1 <= l.commit < |l.log| && !Agreeing(l, f, i)
    ensures Exchanging(StepsBack(l, i), Receives(l, f, i).node, i)
    ensures 0 < l.nextIndex[i] && StepsBack(l, i).nextIndex[i] < l.nextIndex[i]
    ensures Receives(l, f, i).node.log == f.log && !MeetAt(l.log, f.log, l.nextIndex[i])
  {
    RefusalIsSent(l, f, i);
    RefusalStepsBack(l, f, i);
  }

  /** Starting at `nextIndex[i] = k` the follower accepts after exactly `k - p` refusals, where `p` is
      the last index up to `k` at which the logs meet; so after at most `k`. Its log is then the leader's. */
  lemma {:induction false} RepairEnds(l: Node, f: Node, i: nat) returns (end: Exchanged)
    requires Exchanging(l, f, i) && -1 <= l.commit < |l.log| && Matching(f.log, l.log)
    ensures end == Exchange(l, f, i) && Repaired(l, f, i, end)
    decreases l.nextIndex[i]
  {
    if Agreeing(l, f, i) {
      RepairedAtOnce(l, f, i);
      end := Exchanged(l, Receives(l, f, i).node, 0);
    } else {
      StillExchanging(l, f, i);
      var f1 := Receives(l, f, i).node;
      var rest := RepairEnds(StepsBack(l, i), f1, i);
      OneMoreRefusal(l, f, f1, i, rest);
      end := rest.(refusals := rest.refusals + 1);
    }
  }
}
