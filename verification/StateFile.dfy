/** What every event writes to the state file and which timer it restarts; and exactly when a node's role,
    term or vote changes without being written. */
module StateFile {
  import opened RaftTypes
  import opened NodeStep
  import opened HandlerLaws

  /** The states that doActions writes to the state file: those not inside a nested list. */
  function Saved(acts: seq<Action>): seq<SMState> {
    if acts == [] then [] else SavedOf(acts[0]) + Saved(acts[1..])
  }

  function SavedOf(a: Action): seq<SMState> {
    if a.StateStore? then [SMState(a.role, a.term, a.votedFor)] else []
  }

  /** The timers that doActions restarts. */
  function Restarted(acts: seq<Action>): seq<Timer> {
    if acts == [] then [] else RestartedOf(acts[0]) + Restarted(acts[1..])
  }

  function RestartedOf(a: Action): seq<Timer> {
    if a.Alarm? then [a.timer] else []
  }

  lemma {:induction false} SavedConcat(xs: seq<Action>, ys: seq<Action>)
    ensures Saved(xs + ys) == Saved(xs) + Saved(ys)
  {
    hide SavedOf;
    if xs == [] {
      assert xs + ys == ys;
    } else {
      assert (xs + ys)[1..] == xs[1..] + ys;
      SavedConcat(xs[1..], ys);
    }
  }

  lemma {:induction false} RestartedConcat(xs: seq<Action>, ys: seq<Action>)
    ensures Restarted(xs + ys) == Restarted(xs) + Restarted(ys)
  {
    hide RestartedOf;
    if xs == [] {
      assert xs + ys == ys;
    } else {
      assert (xs + ys)[1..] == xs[1..] + ys;
      RestartedConcat(xs[1..], ys);
    }
  }

  lemma {:induction false} KeptNone(xs: seq<Action>)
    requires forall k :: 0 <= k < |xs| ==> !xs[k].StateStore? && !xs[k].Alarm?
    ensures Saved(xs) == [] && Restarted(xs) == []
  {
    if xs != [] { KeptNone(xs[1..]); }
  }

  /** The node's role, term or vote is no longer what it was. */
  predicate Altered(n: Node, n': Node) {
    n.role != n'.role || n.term != n'.term || n.votedFor != n'.votedFor
  }

  /** The event makes `n`, now `n'`, write its state. */
  predicate Saves(n: Node, ev: Event, n': Node) {
    match ev
    case Client(_) => false
    case Timeout => n.role != Leader
    case Receive(VoteRequest(term, _, _, _)) => term > n.term
    case Receive(VoteResponse(_, _)) => n.role != n'.role || n.term != n'.term
    case Receive(AppendRequest(term, _, _, _, _, _)) => n.role == Follower && term >= n.term
    case Receive(AppendResponse(_, _, _, _)) => n.role == Leader && n.term != n'.term
  }

  /** Which timer the event restarts, if any. */
  function Restarts(n: Node, ev: Event, n': Node): seq<Timer> {
    match ev
    case Client(_) => []
    case Timeout => if n.role == Leader then [Heartbeat] else [Election]
    case Receive(VoteRequest(term, candidate, lastIndex, lastTerm)) =>
      if (AsLate(lastTerm, lastIndex, n.log) && FreeFor(n, term, candidate)) || (term > n.term && n.role != Follower)
      then [Election] else []
    case Receive(VoteResponse(_, _)) =>
      if n.role == n'.role then [] else if n'.role == Leader then [Heartbeat] else [Election]
    case Receive(AppendRequest(term, _, _, _, _, _)) => if n.role == Follower && term >= n.term then [Election] else []
    case Receive(AppendResponse(_, _, _, _)) => if n.role == Leader && n.role != n'.role then [Election] else []
  }

  ghost predicate KeptAs(n: Node, ev: Event)
    requires Ready(n, ev)
  {
    var out := Step(n, ev);
    && Saved(out.actions) ==
         (if Saves(n, ev, out.node) then [SMState(out.node.role, out.node.term, out.node.votedFor)] else [])
    && Restarted(out.actions) == Restarts(n, ev, out.node)
  }

  /** What lies between the opening and the closing is neither a state nor a timer. */
  lemma {:induction false} KeptAround(acts: seq<Action>, opening: seq<Action>, body: seq<Action>, closing: seq<Action>)
    requires acts == opening + body + closing
    requires forall k :: 0 <= k < |body| ==> !body[k].StateStore? && !body[k].Alarm?
    ensures Saved(acts) == Saved(opening) + Saved(closing) && Restarted(acts) == Restarted(opening) + Restarted(closing)
  {
    SavedConcat(opening + body, closing);
    SavedConcat(opening, body);
    RestartedConcat(opening + body, closing);
    RestartedConcat(opening, body);
    KeptNone(body);
  }

  lemma {:induction false} KeptTwo(state: Action, timer: Timer, acts: seq<Action>)
    requires acts == [state, Alarm(timer)] || acts == [Alarm(timer), state]
    requires state.StateStore?
    ensures Saved(acts) == SavedOf(state) && Restarted(acts) == [timer]
  {
    assert Saved(acts[1..]) == SavedOf(acts[1]) + Saved([]);
    assert Restarted(acts[1..]) == RestartedOf(acts[1]) + Restarted([]);
  }

  /** What each event writes to the state file, and which timer it restarts. */
  lemma KeptExactly(n: Node, ev: Event)
    requires Ready(n, ev)
    ensures KeptAs(n, ev)
  {
    hide KeptAs;
    match ev
    case Client(_) => KeptByAppend(n, ev);
    case Timeout => KeptByTimeout(n);
    case Receive(m) =>
      match m
      case VoteRequest(_, _, _, _) => KeptByVoter(n, m);
      case VoteResponse(_, _) => KeptByVoted(n, m);
      case AppendRequest(_, _, _, _, _, _) => KeptByFollower(n, m);
      case AppendResponse(_, _, _, _) => KeptByLeader(n, m);
  }

  lemma KeptByAppend(n: Node, ev: Event)
    requires ev.Client? && Ready(n, ev)
    ensures KeptAs(n, ev)
  {
    KeptNone(Step(n, ev).actions);
  }

  lemma KeptByTimeout(n: Node)
    requires Ready(n, Timeout)
    ensures KeptAs(n, Timeout)
  {
    var out := OnTimeout(n);
    if n.role == Leader {
      KeptAround(out.actions, [Alarm(Heartbeat)], Heartbeats(n), []);
    } else {
      var opening := [StateStore(Candidate, n.term + 1, n.id), Alarm(Election)];
      KeptTwo(opening[0], Election, opening);
      KeptAround(out.actions, opening, Ballots(out.node), []);
    }
  }

  lemma KeptByVoter(n: Node, m: Message)
    requires m.VoteRequest? && Ready(n, Receive(m))
    ensures KeptAs(n, Receive(m))
  {
    hide Considers, Grants, AsLate, FreeFor, UpToDate;
    var newer, granted := n.term < m.term, Grants(n, m);
    GrantsWhenFree(n, m);
    var rings := if (newer && n.role != Follower) || granted then [Alarm(Election)] else [];
    var out := OnVoteRequest(n, m);
    var saves := if newer then [StateStore(out.node.role, out.node.term, out.node.votedFor)] else [];
    KeptAround(out.actions, rings, [Send(m.candidateId, VoteResponse(out.node.term, granted))], saves);
  }

  lemma GrantsWhenFree(n: Node, m: Message)
    requires m.VoteRequest?
    ensures Grants(n, m) <==> AsLate(m.lastLogTerm, m.lastLogIndex, n.log) && FreeFor(n, m.term, m.candidateId)
    ensures Considers(n, m) && (n.role != Follower || Grants(n, m)) <==>
      Grants(n, m) || (m.term > n.term && n.role != Follower)
  {}

  lemma KeptByVoted(n: Node, m: Message)
    requires m.VoteResponse? && Ready(n, Receive(m))
    ensures KeptAs(n, Receive(m))
  {
    var out := OnVoteResponse(n, m);
    if Wins(n, m) {
      KeptByWinner(n, m);
    } else if |out.actions| == 2 {
      KeptTwo(out.actions[1], Election, out.actions);
    }
  }

  lemma KeptByWinner(n: Node, m: Message)
    requires m.VoteResponse? && Ready(n, Receive(m)) && Wins(n, m)
    ensures KeptAs(n, Receive(m))
  {
    hide Saved, Restarted;
    var out, store := OnVoteResponse(n, m), [StateStore(Leader, n.term, n.votedFor)];
    KeptAround(out.actions, store, Inaugural(out.node), [Alarm(Heartbeat)]);
    KeptSingle(store[0]);
    KeptSingle(Alarm(Heartbeat));
  }

  lemma KeptSingle(a: Action)
    ensures Saved([a]) == SavedOf(a) && Restarted([a]) == RestartedOf(a)
  {
    assert Saved([a]) == SavedOf(a) + Saved([]);
    assert Restarted([a]) == RestartedOf(a) + Restarted([]);
  }

  lemma KeptByLeader(n: Node, m: Message)
    requires m.AppendResponse? && Ready(n, Receive(m))
    ensures KeptAs(n, Receive(m))
  {
    hide Scan, Copies;
    var out := OnAppendResponse(n, m);
    if |out.actions| == 2 && out.actions[1].StateStore? {
      KeptTwo(out.actions[1], Election, out.actions);
    } else {
      KeptNone(out.actions);
    }
  }

  lemma KeptByFollower(n: Node, m: Message)
    requires m.AppendRequest? && Ready(n, Receive(m))
    ensures KeptAs(n, Receive(m))
  {
    hide Merge, MatchEnd;
    var out := OnAppendRequest(n, m);
    if n.role == Follower && n.term <= m.term {
      var opening := [Alarm(Election), StateStore(Follower, m.term, m.leaderId)];
      KeptTwo(opening[1], Election, opening);
      KeptAround(out.actions, opening, out.actions[2..], []);
    } else {
      KeptNone(out.actions);
    }
  }

  /** A changed role, term or vote is left unwritten in just these cases: a vote given in the node's own term,
      a candidate or leader that recognises a leader, and a reply of a later term to one that does not lead. */
  lemma UnsavedIff(n: Node, ev: Event)
    requires Ready(n, ev)
    ensures var out := Step(n, ev);
      Altered(n, out.node) && Saved(out.actions) == [] <==>
        && ev.Receive?
        && match ev.msg
           case VoteRequest(term, candidate, lastIndex, lastTerm) =>
             && term == n.term && n.role == Follower && n.votedFor == 0 != candidate
             && AsLate(lastTerm, lastIndex, n.log)
           case AppendRequest(term, _, _, _, _, _) => n.role != Follower && n.term <= term
           case AppendResponse(term, _, _, _) => n.role != Leader && n.term < term
           case VoteResponse(_, _) => false
  {
    hide Merge, MatchEnd, Scan, Saved, Restarted;
    KeptExactly(n, ev);
  }
}
