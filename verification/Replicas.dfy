/** Servers that apply the same log: what they agree on, and what expiry timers can spoil. */
module Replicas {
  import opened Commands
  import opened FileStore

  datatype Replayed = Replayed(store: Store, responses: seq<Response>)

  /** The store and the responses after the commands are processed in order, no timer firing. */
  function Replay(cmds: seq<Msg>): (r: Replayed)
    ensures |r.responses| == |cmds|
  {
    if cmds == [] then Replayed(EMPTY_STORE, [])
    else
      var before := Replay(cmds[..|cmds| - 1]);
      var result := Process(before.store, cmds[|cmds| - 1]);
      Replayed(result.store, before.responses + [result.response])
  }

  /** The commands from the log among a server's first `i` events. */
  function Applied(events: seq<StoreEvent>, i: nat): seq<Msg>
    requires i <= |events|
  {
    if i == 0 then [] else Applied(events, i - 1) + (if events[i - 1].Do? then [events[i - 1].msg] else [])
  }

  /** What the server answered to them. */
  function Answered(events: seq<StoreEvent>, i: nat): (responses: seq<Response>)
    requires i <= |events|
    ensures |responses| == |Applied(events, i)|
  {
    if i == 0 then []
    else Answered(events, i - 1)
         + (if events[i - 1].Do? then [Process(After(events, i - 1).store, events[i - 1].msg).response] else [])
  }

  lemma {:induction false} AppliedPrefix(events: seq<StoreEvent>, more: seq<StoreEvent>, i: nat)
    requires i <= |events|
    ensures Applied(events + more, i) == Applied(events, i) && Answered(events + more, i) == Answered(events, i)
  {
    hide Process;
    if i > 0 {
      AppliedPrefix(events, more, i - 1);
      AfterPrefix(events, more, i - 1);
    }
  }

  /** One event more is a command applied and answered, or changes neither. */
  lemma {:induction false} AppliedNext(events: seq<StoreEvent>, e: StoreEvent)
    ensures var n := |events|;
      && Applied(events + [e], n + 1) == Applied(events, n) + (if e.Do? then [e.msg] else [])
      && Answered(events + [e], n + 1) ==
           Answered(events, n) + (if e.Do? then [Process(After(events, n).store, e.msg).response] else [])
  {
    hide Process;
    AppliedPrefix(events, [e], |events|);
    AfterPrefix(events, [e], |events|);
  }

  /** Replaying the log starts no timer: every write that takes effect is without expiry. */
  predicate NeverArms(cmds: seq<Msg>) {
    forall i :: 0 <= i < |cmds| ==> !Arms(Replay(cmds[..i]).store, cmds[i])
  }

  lemma NeverArmsPrefix(cmds: seq<Msg>, n: nat)
    requires NeverArms(cmds) && n <= |cmds|
    ensures NeverArms(cmds[..n])
  {
    forall i | 0 <= i < n ensures !Arms(Replay(cmds[..n][..i]).store, cmds[..n][i]) {
      assert cmds[..n][..i] == cmds[..i];
    }
  }

  lemma {:induction false} ReplayNext(cmds: seq<Msg>, msg: Msg)
    ensures var r, result := Replay(cmds), Process(Replay(cmds).store, msg);
      Replay(cmds + [msg]) == Replayed(result.store, r.responses + [result.response])
  {
    assert (cmds + [msg])[..|cmds|] == cmds;
  }

  /** A server whose log starts no timer is where the replay of its log is, whatever it read. */
  lemma {:induction false} FollowsReplay(events: seq<StoreEvent>, i: nat)
    requires Valid(events) && i <= |events| && NeverArms(Applied(events, i))
    ensures var r := Replay(Applied(events, i));
      After(events, i) == World(r.store, {}) && Answered(events, i) == r.responses
  {
    hide Next, Process, Arms;
    if i > 0 {
      var cmds, e := Applied(events, i - 1), events[i - 1];
      assert Applied(events, i)[..|cmds|] == cmds;
      NeverArmsPrefix(Applied(events, i), |cmds|);
      FollowsReplay(events, i - 1);
      assert Can(After(events, i - 1), e);
      if e.Do? {
        assert Applied(events, i) == cmds + [e.msg] && !Arms(Replay(cmds).store, e.msg);
        LoggedReplays(After(events, i - 1), cmds, e.msg);
      } else {
        UnloggedKeeps(After(events, i - 1), e);
        assert Applied(events, i) == cmds;
      }
    }
  }

  lemma {:induction false} LoggedReplays(w: World, cmds: seq<Msg>, msg: Msg)
    requires w == World(Replay(cmds).store, {}) && !Arms(w.store, msg)
    ensures Next(w, Do(msg)) == World(Replay(cmds + [msg]).store, {})
    ensures Replay(cmds + [msg]).responses == Replay(cmds).responses + [Process(w.store, msg).response]
  {
    ReplayNext(cmds, msg);
  }

  /** With no timer started, only commands from the log change anything. */
  lemma UnloggedKeeps(w: World, e: StoreEvent)
    requires Can(w, e) && !e.Do? && w.timers == {}
    ensures Next(w, e) == w
  {}

  ghost predicate SameReplica(a: seq<StoreEvent>, b: seq<StoreEvent>) {
    && After(a, |a|).store == After(b, |b|).store
    && Answered(a, |a|) == Answered(b, |b|)
  }

  /** However often and late their timers fire, any two servers that have processed the log up to
      the same index are the same. */
  ghost predicate AlwaysAgree(log: seq<Msg>) {
    forall a: seq<StoreEvent>, b: seq<StoreEvent>, n: nat ::
      n <= |log| && Valid(a) && Valid(b) && Applied(a, |a|) == log[..n] && Applied(b, |b|) == log[..n]
      ==> SameReplica(a, b)
  }

  lemma {:induction false} AgreeWithoutTimers(a: seq<StoreEvent>, b: seq<StoreEvent>, log: seq<Msg>)
    requires NeverArms(log) && Valid(a) && Valid(b)
    requires Applied(a, |a|) == log && Applied(b, |b|) == log
    ensures SameReplica(a, b)
  {
    FollowsReplay(a, |a|);
    FollowsReplay(b, |b|);
  }

  /** A server that applies `cmds` with no timer firing. */
  function Straight(cmds: seq<Msg>): (events: seq<StoreEvent>)
    ensures |events| == |cmds| && forall i :: 0 <= i < |cmds| ==> events[i] == Do(cmds[i])
  {
    seq(|cmds|, i requires 0 <= i < |cmds| => Do(cmds[i]))
  }

  lemma {:induction false} StraightReplays(cmds: seq<Msg>, i: nat)
    requires i <= |cmds|
    ensures Applied(Straight(cmds), i) == cmds[..i] && After(Straight(cmds), i).store == Replay(cmds[..i]).store
  {
    hide Process;
    if i > 0 {
      StraightReplays(cmds, i - 1);
      assert cmds[..i] == cmds[..i - 1] + [cmds[i - 1]];
    }
  }

  lemma {:induction false} StraightValid(cmds: seq<Msg>)
    ensures Valid(Straight(cmds)) && Applied(Straight(cmds), |cmds|) == cmds
  {
    hide After, Process, Next;
    StraightReplays(cmds, |cmds|);
    assert cmds[..|cmds|] == cmds;
  }

  /** The last of the commands writes a file with an expiry. */
  predicate EndsArmed(cmds: seq<Msg>) {
    cmds != [] && Arms(Replay(cmds[..|cmds| - 1]).store, cmds[|cmds| - 1])
  }

  /** The timer that the last command started. */
  function LateTimer(cmds: seq<Msg>): StoreEvent
    requires cmds != []
  {
    Expire(cmds[|cmds| - 1].filename, Replay(cmds[..|cmds| - 1]).store.gversion + 1)
  }

  lemma {:induction false} LateTimerFires(cmds: seq<Msg>)
    requires EndsArmed(cmds)
    ensures var w := After(Straight(cmds), |cmds|);
      Can(w, LateTimer(cmds)) && Next(w, LateTimer(cmds)).store != w.store
  {
    hide Next, Can, Replay, Arms;
    StraightReplays(cmds, |cmds| - 1);
    ArmedExpires(After(Straight(cmds), |cmds| - 1), cmds[|cmds| - 1]);
  }

  lemma ArmedExpires(w: World, msg: Msg)
    requires Arms(w.store, msg)
    ensures var w', e := Next(w, Do(msg)), Expire(msg.filename, w.store.gversion + 1);
      Can(w', e) && Next(w', e).store != w'.store
  {
    var w' := Next(w, Do(msg));
    var w2 := Next(w', Expire(msg.filename, w.store.gversion + 1));
    assert msg.filename in w'.store.files && msg.filename !in w2.store.files;
  }

  /** Its replicas split: one whose timer has fired, and one whose has not. */
  lemma TimersDisagree(cmds: seq<Msg>) returns (a: seq<StoreEvent>, b: seq<StoreEvent>)
    requires EndsArmed(cmds)
    ensures Valid(a) && Valid(b) && Applied(a, |a|) == cmds && Applied(b, |b|) == cmds
    ensures After(a, |a|).store != After(b, |b|).store
  {
    hide Replay, After, Process, Applied, Can, Next;
    a, b := Straight(cmds), Straight(cmds) + [LateTimer(cmds)];
    StraightValid(cmds);
    LateTimerFires(cmds);
    ValidNext(a, LateTimer(cmds));
    AppliedNext(a, LateTimer(cmds));
  }

  /** Replicas of a log always agree exactly when replaying it starts no timer. */
  lemma ReplicasAgreeIff(log: seq<Msg>)
    ensures AlwaysAgree(log) <==> NeverArms(log)
  {
    if NeverArms(log) {
      forall a: seq<StoreEvent>, b: seq<StoreEvent>, n: nat |
        n <= |log| && Valid(a) && Valid(b) && Applied(a, |a|) == log[..n] && Applied(b, |b|) == log[..n]
        ensures SameReplica(a, b)
      {
        NeverArmsPrefix(log, n);
        AgreeWithoutTimers(a, b, log[..n]);
      }
    } else {
      var i :| 0 <= i < |log| && Arms(Replay(log[..i]).store, log[i]);
      var cmds := log[..i + 1];
      assert cmds[..i] == log[..i];
      var a, b := TimersDisagree(cmds);
      assert !SameReplica(a, b);
    }
  }
}
