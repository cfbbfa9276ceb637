/** How a server turns the commit notices of its node into one ordered application of the log
    (ListenCommitChannel, assign4/server_main.go:185-253). */
module Applier {
  import opened Commands
  import opened RaftTypes
  import opened FileStore
  import opened Replicas
  import opened SingleIndex

  /** What goes to a client's channel: the response to its command, or ERR_REDIRECT. */
  datatype Answer = Responded(client: int, response: Response) | Redirected(client: int)

  /** The commands at indices `from` up to but not including `to`, as `Get` returns them. */
  function Fetched(get: int -> Msg, from: int, to: int): (cmds: seq<Msg>)
    ensures |cmds| == if from < to then to - from else 0
    ensures forall i :: 0 <= i < |cmds| ==> cmds[i] == get(from + i)
  {
    if from < to then seq(to - from, i requires 0 <= i < to - from => get(from + i)) else []
  }

  /** The value of `prevLogIndexProcessed` after a stream of notices. */
  function Highest(stream: seq<Notice>): (h: int)
    ensures -1 <= h
  {
    if stream == [] then -1
    else
      var h, n := Highest(stream[..|stream| - 1]), stream[|stream| - 1];
      if n.failed || n.index <= h then h else n.index
  }

  /** It is the largest index among the successful notices, or -1. */
  lemma {:induction false} HighestIsMax(stream: seq<Notice>)
    ensures var h := Highest(stream);
      && (forall n :: n in stream && !n.failed ==> n.index <= h)
      && (h != -1 ==> exists n :: n in stream && !n.failed && n.index == h)
  {
    if stream != [] {
      var front, last := stream[..|stream| - 1], stream[|stream| - 1];
      HighestIsMax(front);
      assert stream == front + [last];
    }
  }

  /** The commands processed on a notice when those up to index `prev` have been processed. */
  function Batch(get: int -> Msg, prev: int, n: Notice): seq<Msg> {
    if n.failed || n.index <= prev then [] else Fetched(get, prev + 1, n.index) + [n.cmd]
  }

  /** All commands processed on a stream of notices, in order. */
  function Processed(get: int -> Msg, stream: seq<Notice>): seq<Msg> {
    if stream == [] then []
    else
      var front := stream[..|stream| - 1];
      Processed(get, front) + Batch(get, Highest(front), stream[|stream| - 1])
  }

  // ----- exactly once

  /** Notice `i`, if it goes past all earlier ones, carries what `Get` returns for its index. */
  predicate TrueNews(get: int -> Msg, stream: seq<Notice>, i: nat)
    requires i < |stream|
  {
    !stream[i].failed && stream[i].index > Highest(stream[..i]) ==> stream[i].cmd == get(stream[i].index)
  }

  predicate NewsCorrect(get: int -> Msg, stream: seq<Notice>) {
    forall i :: 0 <= i < |stream| ==> TrueNews(get, stream, i)
  }

  /** A notice past `prev` completes the log up to its index if its command is the one there. */
  lemma BatchCompletes(get: int -> Msg, prev: int, n: Notice, done: seq<Msg>)
    requires -1 <= prev && !n.failed && n.index > prev && |done| == prev + 1
    ensures |done + Batch(get, prev, n)| == n.index + 1
    ensures done + Batch(get, prev, n) == Fetched(get, 0, n.index + 1) <==>
      done == Fetched(get, 0, prev + 1) && n.cmd == get(n.index)
  {
    var all, want := done + Batch(get, prev, n), Fetched(get, 0, n.index + 1);
    assert all[..prev + 1] == done && want[..prev + 1] == Fetched(get, 0, prev + 1);
    assert all[n.index] == n.cmd && want[n.index] == get(n.index);
  }

  /** Whatever repeats, disorder, gaps and refusals the stream has, the commands processed are those
      of the log from index 0 to the largest index seen, once each and in order, exactly when the
      notices that bring something new are correct. */
  lemma {:induction false} ExactlyOnceIff(get: int -> Msg, stream: seq<Notice>)
    ensures |Processed(get, stream)| == Highest(stream) + 1
    ensures Processed(get, stream) == Fetched(get, 0, Highest(stream) + 1) <==> NewsCorrect(get, stream)
  {
    hide TrueNews;
    if stream != [] {
      var k := |stream| - 1;
      ExactlyOnceIff(get, stream[..k]);
      NewsSplit(get, stream);
      OneMoreNotice(get, stream);
    }
  }

  lemma {:induction false} OneMoreNotice(get: int -> Msg, stream: seq<Notice>)
    requires stream != []
    requires |Processed(get, stream[..|stream| - 1])| == Highest(stream[..|stream| - 1]) + 1
    ensures |Processed(get, stream)| == Highest(stream) + 1
    ensures var k := |stream| - 1;
      Processed(get, stream) == Fetched(get, 0, Highest(stream) + 1) <==>
        && Processed(get, stream[..k]) == Fetched(get, 0, Highest(stream[..k]) + 1)
        && TrueNews(get, stream, k)
  {
    hide Fetched, Batch;
    var front, n := stream[..|stream| - 1], stream[|stream| - 1];
    if !n.failed && n.index > Highest(front) {
      BatchCompletes(get, Highest(front), n, Processed(get, front));
    } else {
      NoBatch(get, Highest(front), n);
      assert Processed(get, stream) == Processed(get, front) + [];
    }
  }

  lemma NoBatch(get: int -> Msg, prev: int, n: Notice)
    requires n.failed || n.index <= prev
    ensures Batch(get, prev, n) == []
  {}

  lemma NewsSplit(get: int -> Msg, stream: seq<Notice>)
    requires stream != []
    ensures var k := |stream| - 1;
      NewsCorrect(get, stream) <==> NewsCorrect(get, stream[..k]) && TrueNews(get, stream, k)
  {
    hide TrueNews;
    var k := |stream| - 1;
    forall i | 0 <= i < k ensures TrueNews(get, stream[..k], i) <==> TrueNews(get, stream, i) {
      SameNews(get, stream, k, i);
    }
  }

  lemma SameNews(get: int -> Msg, stream: seq<Notice>, k: nat, i: nat)
    requires i < k <= |stream|
    ensures TrueNews(get, stream[..k], i) <==> TrueNews(get, stream, i)
  {
    assert stream[..k][..i] == stream[..i];
  }

  // ----- the server

  /** What the server has done to its store so far, timers and local reads included; what went to
      clients; and how many commands of the log it has processed. */
  datatype Served = Served(history: seq<StoreEvent>, answers: seq<Answer>, turn: nat)

  const UNSERVED := Served([], [], 0)

  /** The world a history ends in. */
  function Ends(history: seq<StoreEvent>): World {
    After(history, |history|)
  }

  /** `history` goes on with what other goroutines do meanwhile: timers fire and reads are served. Of
      `others` those that cannot happen are passed over. */
  function Meanwhile(history: seq<StoreEvent>, others: seq<StoreEvent>): seq<StoreEvent> {
    if others == [] then history
    else
      var h, e := Meanwhile(history, others[..|others| - 1]), others[|others| - 1];
      if !e.Do? && Can(Ends(h), e) then h + [e] else h
  }

  function Routed(clients: set<int>, answer: Answer): seq<Answer> {
    if answer.client in clients then [answer] else []
  }

  /** A command processed and its response sent, if its client is registered with this server.
      `others(k)` is what other goroutines do before command number `k` is processed. */
  function ServeOne(sv: Served, cmd: Msg, clients: set<int>, others: nat -> seq<StoreEvent>): Served {
    var h := Meanwhile(sv.history, others(sv.turn));
    var response := Process(Ends(h).store, cmd).response;
    Served(h + [Do(cmd)], sv.answers + Routed(clients, Responded(cmd.clientId, response)), sv.turn + 1)
  }

  function ServeAll(sv: Served, cmds: seq<Msg>, clients: set<int>, others: nat -> seq<StoreEvent>): Served {
    if cmds == [] then sv
    else ServeOne(ServeAll(sv, cmds[..|cmds| - 1], clients, others), cmds[|cmds| - 1], clients, others)
  }

  function Handle(sv: Served, get: int -> Msg, prev: int, n: Notice, clients: set<int>,
                  others: nat -> seq<StoreEvent>): Served {
    if n.failed then sv.(answers := sv.answers + Routed(clients, Redirected(n.cmd.clientId)))
    else ServeAll(sv, Batch(get, prev, n), clients, others)
  }

  /** The server after a stream of notices. */
  function Listen(sv: Served, get: int -> Msg, stream: seq<Notice>, clients: set<int>,
                  others: nat -> seq<StoreEvent>): Served {
    if stream == [] then sv
    else
      var front := stream[..|stream| - 1];
      Handle(Listen(sv, get, front, clients, others), get, Highest(front), stream[|stream| - 1], clients, others)
  }

  /** The answers that are responses, and those that redirect. */
  function Responses(answers: seq<Answer>): seq<Answer> {
    if answers == [] then []
    else Responses(answers[..|answers| - 1])
         + (if answers[|answers| - 1].Responded? then [answers[|answers| - 1]] else [])
  }

  function Redirects(answers: seq<Answer>): seq<Answer> {
    if answers == [] then []
    else Redirects(answers[..|answers| - 1])
         + (if answers[|answers| - 1].Redirected? then [answers[|answers| - 1]] else [])
  }

  /** These responses to these commands, to the registered clients among their senders. */
  function Owed(cmds: seq<Msg>, responses: seq<Response>, clients: set<int>): seq<Answer>
    requires |cmds| == |responses|
  {
    if cmds == [] then []
    else
      var k := |cmds| - 1;
      Owed(cmds[..k], responses[..k], clients) + Routed(clients, Responded(cmds[k].clientId, responses[k]))
  }

  /** The refusals in the stream, to the registered clients among their senders. */
  function Refused(stream: seq<Notice>, clients: set<int>): seq<Answer> {
    if stream == [] then []
    else
      var last := stream[|stream| - 1];
      Refused(stream[..|stream| - 1], clients)
      + (if last.failed then Routed(clients, Redirected(last.cmd.clientId)) else [])
  }

  /** `history` is possible, and `cmds` are the commands it applies, in its order. */
  ghost predicate Serves(history: seq<StoreEvent>, cmds: seq<Msg>) {
    Valid(history) && Applied(history, |history|) == cmds
  }

  /** The server has applied `cmds`, has sent the responses they got then to the clients it serves,
      once each and in order, and has sent these redirections. */
  ghost predicate Settled(sv: Served, cmds: seq<Msg>, redirects: seq<Answer>, clients: set<int>) {
    && Serves(sv.history, cmds)
    && Responses(sv.answers) == Owed(cmds, Answered(sv.history, |sv.history|), clients)
    && Redirects(sv.answers) == redirects
  }

  /** What others do meanwhile applies and answers no command. */
  lemma {:induction false} MeanwhileServes(history: seq<StoreEvent>, others: seq<StoreEvent>, cmds: seq<Msg>)
    requires Serves(history, cmds)
    ensures var h := Meanwhile(history, others);
      Serves(h, cmds) && Answered(h, |h|) == Answered(history, |history|)
  {
    hide Valid, After, Applied, Answered, Can;
    if others != [] {
      var front, e := others[..|others| - 1], others[|others| - 1];
      MeanwhileServes(history, front, cmds);
      var h := Meanwhile(history, front);
      if !e.Do? && Can(Ends(h), e) {
        ValidNext(h, e);
        AppliedNext(h, e);
      }
    }
  }

  lemma {:induction false} OneMore(answers: seq<Answer>, clients: set<int>, a: Answer)
    ensures Responses(answers + Routed(clients, a)) ==
      Responses(answers) + (if a.Responded? then Routed(clients, a) else [])
    ensures Redirects(answers + Routed(clients, a)) ==
      Redirects(answers) + (if a.Redirected? then Routed(clients, a) else [])
  {
    var more := answers + Routed(clients, a);
    if a.client in clients {
      assert more[..|more| - 1] == answers;
    } else {
      assert more == answers;
    }
  }

  lemma {:induction false} OwedNext(cmds: seq<Msg>, responses: seq<Response>, clients: set<int>,
                                    cmd: Msg, response: Response)
    requires |cmds| == |responses|
    ensures Owed(cmds + [cmd], responses + [response], clients) ==
      Owed(cmds, responses, clients) + Routed(clients, Responded(cmd.clientId, response))
  {
    assert (cmds + [cmd])[..|cmds|] == cmds && (responses + [response])[..|cmds|] == responses;
  }

  lemma ServeSettles(sv: Served, done: seq<Msg>, redirects: seq<Answer>, cmd: Msg, clients: set<int>,
                     others: nat -> seq<StoreEvent>)
    requires Settled(sv, done, redirects, clients)
    ensures Settled(ServeOne(sv, cmd, clients, others), done + [cmd], redirects, clients)
  {
    hide Valid, After, Applied, Answered, Process, Meanwhile, Owed, Responses, Redirects, Routed;
    MeanwhileServes(sv.history, others(sv.turn), done);
    var h := Meanwhile(sv.history, others(sv.turn));
    var response := Process(Ends(h).store, cmd).response;
    ValidNext(h, Do(cmd));
    AppliedNext(h, Do(cmd));
    OneMore(sv.answers, clients, Responded(cmd.clientId, response));
    OwedNext(done, Answered(h, |h|), clients, cmd, response);
  }

  lemma {:induction false} AllSettle(sv: Served, done: seq<Msg>, redirects: seq<Answer>, cmds: seq<Msg>,
                                     clients: set<int>, others: nat -> seq<StoreEvent>)
    requires Settled(sv, done, redirects, clients)
    ensures Settled(ServeAll(sv, cmds, clients, others), done + cmds, redirects, clients)
  {
    hide Settled, ServeOne;
    if cmds == [] {
      assert done + cmds == done;
    } else {
      var front := cmds[..|cmds| - 1];
      AllSettle(sv, done, redirects, front, clients, others);
      ServeSettles(ServeAll(sv, front, clients, others), done + front, redirects, cmds[|cmds| - 1], clients, others);
      assert done + front + [cmds[|cmds| - 1]] == done + cmds;
    }
  }

  /** Whatever timers fire and reads are served before, between and after the commands: what the server
      applies is what Processed says, in a possible history of its store; the responses are sent to the
      clients it serves, once each and in order; and exactly the refused are redirected. */
  lemma {:induction false} ListenSettles(get: int -> Msg, stream: seq<Notice>, clients: set<int>,
                                         others: nat -> seq<StoreEvent>)
    ensures Settled(Listen(UNSERVED, get, stream, clients, others), Processed(get, stream),
                    Refused(stream, clients), clients)
  {
    hide ServeOne, Batch;
    if stream != [] {
      var front, n := stream[..|stream| - 1], stream[|stream| - 1];
      ListenSettles(get, front, clients, others);
      var sv := Listen(UNSERVED, get, front, clients, others);
      if n.failed {
        RefusalSettles(sv, get, stream, clients);
      } else {
        AllSettle(sv, Processed(get, front), Refused(front, clients), Batch(get, Highest(front), n), clients, others);
        assert Refused(stream, clients) == Refused(front, clients);
      }
    }
  }

  lemma {:induction false} RefusalSettles(sv: Served, get: int -> Msg, stream: seq<Notice>, clients: set<int>)
    requires stream != [] && stream[|stream| - 1].failed
    requires var front := stream[..|stream| - 1];
      Settled(sv, Processed(get, front), Refused(front, clients), clients)
    ensures var answer := Redirected(stream[|stream| - 1].cmd.clientId);
      Settled(sv.(answers := sv.answers + Routed(clients, answer)), Processed(get, stream),
              Refused(stream, clients), clients)
  {
    hide Valid, After, Applied, Answered, Owed;
    OneMore(sv.answers, clients, Redirected(stream[|stream| - 1].cmd.clientId));
    assert Processed(get, stream) == Processed(get, stream[..|stream| - 1]) + [];
  }

  /** Exactly-once application. With correct notices, whatever repeats, disorder, gaps and refusals the
      stream has and whatever timers and reads come in between, the server has applied the log from index
      0 to the largest index seen, once each and in order. */
  lemma {:induction false} ExactlyOnce(get: int -> Msg, stream: seq<Notice>, clients: set<int>,
                                       others: nat -> seq<StoreEvent>)
    requires NewsCorrect(get, stream)
    ensures Settled(Listen(UNSERVED, get, stream, clients, others), Fetched(get, 0, Highest(stream) + 1),
                    Refused(stream, clients), clients)
  {
    ExactlyOnceIff(get, stream);
    ListenSettles(get, stream, clients, others);
  }

  /** If every file for which a command started a timer was replaced by the next command that has to do
      with it, the server is where replaying the commands leaves it, now and after whatever others do, and
      its clients got the responses of that replay; no timer is left if none was started. */
  lemma {:induction false} ListenReplays(get: int -> Msg, stream: seq<Notice>, clients: set<int>,
                                         others: nat -> seq<StoreEvent>, later: seq<StoreEvent>)
    requires AllReplaced(Processed(get, stream))
    ensures var sv, r := Listen(UNSERVED, get, stream, clients, others), Replay(Processed(get, stream));
      && Ends(Meanwhile(sv.history, later)).store == r.store
      && (NeverArms(Processed(get, stream)) ==> Ends(Meanwhile(sv.history, later)).timers == {})
      && Responses(sv.answers) == Owed(Processed(get, stream), r.responses, clients)
  {
    hide Listen, Meanwhile, Valid, Owed, Responses, Redirects, Replay, NeverArms, Processed, AllReplaced;
    ListenSettles(get, stream, clients, others);
    var cmds, history := Processed(get, stream), Listen(UNSERVED, get, stream, clients, others).history;
    MeanwhileServes(history, later, cmds);
    EndsAsReplay(history, cmds);
    EndsAsReplay(Meanwhile(history, later), cmds);
    if NeverArms(cmds) { FollowsReplay(Meanwhile(history, later), |Meanwhile(history, later)|); }
  }

  // ----- what timers can spoil

  /** No other goroutine does anything between commands. */
  function Nobody(turn: nat): seq<StoreEvent> {
    []
  }

  lemma {:induction false} QuietServeAll(sv: Served, done: seq<Msg>, cmds: seq<Msg>, clients: set<int>)
    requires sv.history == Straight(done)
    ensures ServeAll(sv, cmds, clients, Nobody).history == Straight(done + cmds)
  {
    if cmds == [] {
      assert done + cmds == done;
    } else {
      var k := |cmds| - 1;
      QuietServeAll(sv, done, cmds[..k], clients);
      assert Straight(done + cmds) == Straight(done + cmds[..k]) + [Do(cmds[k])];
    }
  }

  lemma {:induction false} QuietListen(get: int -> Msg, stream: seq<Notice>, clients: set<int>)
    ensures Listen(UNSERVED, get, stream, clients, Nobody).history == Straight(Processed(get, stream))
  {
    hide Batch, ServeAll;
    if stream != [] {
      var front, n := stream[..|stream| - 1], stream[|stream| - 1];
      QuietListen(get, front, clients);
      if n.failed {
        NoBatch(get, Highest(front), n);
        assert Processed(get, stream) == Processed(get, front);
      } else {
        QuietServeAll(Listen(UNSERVED, get, front, clients, Nobody), Processed(get, front),
                      Batch(get, Highest(front), n), clients);
      }
    }
  }

  /** If the last command processed starts a timer, a server on which it fires now and one on which it
      does not differ. */
  lemma ListenersSplit(get: int -> Msg, stream: seq<Notice>, clients: set<int>) returns (later: seq<StoreEvent>)
    requires EndsArmed(Processed(get, stream))
    ensures var history := Listen(UNSERVED, get, stream, clients, Nobody).history;
      Ends(Meanwhile(history, later)).store != Ends(Meanwhile(history, [])).store
  {
    hide Replay, Next, Can, Listen, Arms, Processed;
    var cmds := Processed(get, stream);
    QuietListen(get, stream, clients);
    LateTimerFires(cmds);
    later := [LateTimer(cmds)];
    AfterPrefix(Straight(cmds), later, |cmds|);
    assert Meanwhile(Straight(cmds), later[..0]) == Straight(cmds);
  }
}
