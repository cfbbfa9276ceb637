/** The merge of assign4 keeps the entries that match in term before it cuts and appends; that of
    assign3 (AppendEntriesRequest.go:71-80) cuts at once. They give the same log. */
module MergeRefinement {
  import opened RaftTypes
  import opened NodeStep
  import opened ClusterModel
  import opened History
  import opened Invariants
  import opened LogFacts
  import opened Safety

  /** The plain form: everything from `start` on is replaced by the data. */
  function Overwrite(log: seq<Entry>, start: nat, data: seq<Entry>): seq<Entry>
    requires start <= |log|
  {
    log[..start] + data
  }

  /** The entries that the merge keeps because their terms match are the data's own. */
  predicate MatchedEqual(log: seq<Entry>, start: nat, data: seq<Entry>)
    requires start <= |log|
  {
    forall i :: start <= i < MatchEnd(log, start, data, start) ==> log[i] == data[i - start]
  }

  /** The two forms give the same log exactly when entries that match in term are equal. */
  lemma MergeRefinesOverwrite(log: seq<Entry>, start: nat, data: seq<Entry>)
    requires start <= |log|
    ensures Merge(log, start, data) == Overwrite(log, start, data) <==> MatchedEqual(log, start, data)
  {
    var e := MatchEnd(log, start, data, start);
    var x, y := Merge(log, start, data), Overwrite(log, start, data);
    assert |x| == |y|;
    forall i | 0 <= i < |x| && !(start <= i < e) ensures x[i] == y[i] {}
    forall i | start <= i < e ensures x[i] == log[i] && y[i] == data[i - start] {}
    if x == y {
      forall i | start <= i < e ensures log[i] == data[i - start] { assert x[i] == y[i]; }
    }
  }

  /** The entries that the merge stores are what follows the longest part that the old and the new
      log have in common. */
  lemma {:induction false} StoresAreNewTail(log: seq<Entry>, start: nat, data: seq<Entry>)
    requires start <= |log| && MatchedEqual(log, start, data)
    ensures var e, log' := MatchEnd(log, start, data, start), Merge(log, start, data);
      && e <= |log| && e <= |log'| && log[..e] == log'[..e]
      && (e < |log| && e < |log'| ==> log[e] != log'[e])
      && data[e - start..] == log'[e..]
  {}

  /** In every run, a request that a node accepts merges to the log the plain form would give. */
  lemma MergeInRun(states: seq<Cluster>, moves: seq<Move>, guarded: bool, i: nat, a: int, b: int)
    requires CoreRun(states, moves, guarded) && i < |states| && Possible(states[i], Deliver(a, b), false)
    requires var m := Link(states[i], a, b)[0];
      m.AppendRequest? && -1 <= m.prevLogIndex && Accepts(states[i].nodes[b], m)
    ensures var m, log := Link(states[i], a, b)[0], states[i].nodes[b].log;
      Merge(log, m.prevLogIndex + 1, m.data) == Overwrite(log, m.prevLogIndex + 1, m.data)
  {
    hide Past, Init, Follows, CoreInv, Merge, Overwrite;
    RunCoreInv(states, moves, guarded, i);
    MergeAt(states[i], Past(states, moves, guarded, i), a, b);
  }

  lemma MergeAt(s: Cluster, h: History, a: int, b: int)
    requires CoreInv(s, h) && Possible(s, Deliver(a, b), false)
    requires var m := Link(s, a, b)[0]; m.AppendRequest? && -1 <= m.prevLogIndex && Accepts(s.nodes[b], m)
    ensures var m, log := Link(s, a, b)[0], s.nodes[b].log;
      Merge(log, m.prevLogIndex + 1, m.data) == Overwrite(log, m.prevLogIndex + 1, m.data)
  {
    hide VotesInv, Merge, Overwrite, Coherent;
    var m := Link(s, a, b)[0];
    assert m in Link(s, a, b) && AppendLinkOk(h, a, b, m);
    MergeOfSnapshot(h, s.nodes[b].log, a, m);
  }

  lemma MergeOfSnapshot(h: History, log: seq<Entry>, a: int, m: Message)
    requires m.AppendRequest? && SnapshotOk(h, a, m) && PrevMatches(log, m)
    requires Coherent(h, log) && Coherent(h, h.reigns[m.term].log)
    ensures Merge(log, m.prevLogIndex + 1, m.data) == Overwrite(log, m.prevLogIndex + 1, m.data)
  {
    hide Merge, MatchEnd, Coherent;
    AdoptsSnapshot(h, log, a, m);
    var lead, start := h.reigns[m.term].log, m.prevLogIndex + 1;
    if start > 0 { LogMatching(h, log, lead, start - 1); }
    Paste(lead, start, start, End(m));
  }
}
