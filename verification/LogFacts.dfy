/** Logs whose entries are all backed by the leaders that created them match one another, and
    stay so as the leaders' logs grow. */
module LogFacts {
  import opened RaftTypes
  import opened NodeStep
  import opened History
  import opened Invariants

  /** Log matching: two logs with an entry of the same term at index `i` agree up to that index. */
  lemma LogMatching(h: History, x: seq<Entry>, y: seq<Entry>, i: nat)
    requires Coherent(h, x) && Coherent(h, y) && i < |x| && i < |y| && x[i].term == y[i].term
    ensures Agree(x, y, i + 1)
  {
    assert Backed(h, x, i) && Backed(h, y, i);
  }

  lemma CoherentPrefix(h: History, x: seq<Entry>, n: nat)
    requires Coherent(h, x) && n <= |x|
    ensures Coherent(h, x[..n])
  {
    forall i | 0 <= i < n ensures Backed(h, x[..n], i) {
      assert Backed(h, x, i);
      assert x[..n][..i + 1] == x[..i + 1];
    }
  }

  /** Reigns keep their leader and only append to its log. */
  ghost predicate ReignGrows(h: History, h': History, T: int)
    requires T in h.reigns
  {
    && T in h'.reigns
    && h'.reigns[T].id == h.reigns[T].id
    && h'.reigns[T].base == h.reigns[T].base
    && h'.reigns[T].voters == h.reigns[T].voters
    && h.reigns[T].log <= h'.reigns[T].log
  }

  ghost predicate ReignsGrow(h: History, h': History) {
    forall T :: T in h.reigns ==> ReignGrows(h, h', T)
  }

  ghost predicate AccGrows(h: History, h': History) {
    forall T, v :: (T, v) in h.acc ==> (T, v) in h'.acc && h.acc[(T, v)] <= h'.acc[(T, v)]
  }

  lemma CoherentGrows(h: History, h': History, x: seq<Entry>)
    requires ReignsGrow(h, h') && Coherent(h, x)
    ensures Coherent(h', x)
  {
    forall i | 0 <= i < |x| ensures Backed(h', x, i) {
      assert Backed(h, x, i) && ReignGrows(h, h', x[i].term);
      assert h'.reigns[x[i].term].log[..i + 1] == h.reigns[x[i].term].log[..i + 1];
    }
  }

  lemma AgreeGrows(x: seq<Entry>, y: seq<Entry>, y': seq<Entry>, n: int)
    requires Agree(x, y, n) && y <= y'
    ensures Agree(x, y', n)
  {
    assert y'[..n] == y[..n];
  }

  /** Cutting `log` where it leaves `lead[start..end]` and appending the rest gives `lead[..end]`,
      if the two agree that far. */
  lemma {:induction false} MergeGives(log: seq<Entry>, lead: seq<Entry>, start: nat, end: nat)
    requires start <= end <= |lead| && start <= |log|
    requires Agree(log, lead, MatchEnd(log, start, lead[start..end], start))
    ensures Merge(log, start, lead[start..end]) == lead[..end]
  {
    var e := MatchEnd(log, start, lead[start..end], start);
    Paste(lead, start, e, end);
  }

  lemma Paste<T>(x: seq<T>, start: nat, e: nat, end: nat)
    requires start <= e <= end <= |x|
    ensures x[..e] + x[start..end][e - start..] == x[..end]
  {}

  /** The entry before the point where matching stops has the leader's term. */
  lemma {:induction false} MatchedTerm(log: seq<Entry>, lead: seq<Entry>, start: nat, end: nat)
    requires start <= end <= |lead| && start <= |log|
    requires start > 0 ==> log[start - 1].term == lead[start - 1].term
    ensures var e := MatchEnd(log, start, lead[start..end], start);
      e > 0 ==> log[e - 1].term == lead[e - 1].term
  {
    var e := MatchEnd(log, start, lead[start..end], start);
    if e > start { assert lead[start..end][e - 1 - start] == lead[e - 1]; }
  }

  /** Snapshot soundness: a node that accepts an append request ends with exactly the log its
      leader had when sending it. */
  lemma AdoptsSnapshot(h: History, log: seq<Entry>, a: int, m: Message)
    requires m.AppendRequest? && SnapshotOk(h, a, m)
    requires Coherent(h, log) && Coherent(h, h.reigns[m.term].log) && PrevMatches(log, m)
    ensures Merge(log, m.prevLogIndex + 1, m.data) == h.reigns[m.term].log[..End(m)]
  {
    hide Coherent, Merge;
    AdoptsSlice(h, log, h.reigns[m.term].log, m.prevLogIndex + 1, End(m));
  }

  lemma AdoptsSlice(h: History, log: seq<Entry>, lead: seq<Entry>, start: nat, end: nat)
    requires start <= end <= |lead| && start <= |log| && Coherent(h, log) && Coherent(h, lead)
    requires start > 0 ==> log[start - 1].term == lead[start - 1].term
    ensures Merge(log, start, lead[start..end]) == lead[..end]
  {
    hide Coherent, Merge, Agree;
    MatchedTerm(log, lead, start, end);
    var e := MatchEnd(log, start, lead[start..end], start);
    if e > 0 { LogMatching(h, log, lead, e - 1); } else { AgreeNowhere(log, lead); }
    MergeGives(log, lead, start, end);
  }

  lemma AgreeNowhere(x: seq<Entry>, y: seq<Entry>)
    ensures Agree(x, y, 0)
  {}
}
