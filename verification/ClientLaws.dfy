/** What the clients of a server get, told of the registered clients, the commands and the notices alone. */
module ClientLaws {
  import opened Commands
  import opened RaftTypes
  import opened ClusterModel
  import opened CommitStream
  import opened HandlerLaws
  import opened FileStore
  import opened Replicas
  import opened Applier

  // ----- one client

  /** The responses among the answers that go to client `c`, in order. */
  function ResponsesTo(answers: seq<Answer>, c: int): seq<Response> {
    if answers == [] then [] else ResponsesTo(answers[..|answers| - 1], c) + ResponseIn(answers[|answers| - 1], c)
  }

  function ResponseIn(a: Answer, c: int): seq<Response> {
    if a.Responded? && a.client == c then [a.response] else []
  }

  /** How many of the answers redirect client `c`. */
  function RedirectsTo(answers: seq<Answer>, c: int): nat {
    if answers == [] then 0 else RedirectsTo(answers[..|answers| - 1], c) + RedirectIn(answers[|answers| - 1], c)
  }

  function RedirectIn(a: Answer, c: int): nat {
    if a.Redirected? && a.client == c then 1 else 0
  }

  /** Of these responses to these commands, those to the commands of client `c`. */
  function ResponsesFor(cmds: seq<Msg>, responses: seq<Response>, c: int): seq<Response>
    requires |cmds| == |responses|
  {
    if cmds == [] then []
    else
      var k := |cmds| - 1;
      ResponsesFor(cmds[..k], responses[..k], c) + (if cmds[k].clientId == c then [responses[k]] else [])
  }

  /** How many failed notices carry a command of client `c`. */
  function FailuresFor(stream: seq<Notice>, c: int): nat {
    if stream == [] then 0
    else FailuresFor(stream[..|stream| - 1], c) + FailureIn(stream[|stream| - 1], c)
  }

  function FailureIn(n: Notice, c: int): nat {
    if n.failed && n.cmd.clientId == c then 1 else 0
  }

  lemma {:induction false} ResponsesSnoc(answers: seq<Answer>, a: Answer, c: int)
    ensures ResponsesTo(answers + [a], c) == ResponsesTo(answers, c) + ResponseIn(a, c)
  {
    assert (answers + [a])[..|answers|] == answers;
  }

  lemma {:induction false} RedirectsSnoc(answers: seq<Answer>, a: Answer, c: int)
    ensures RedirectsTo(answers + [a], c) == RedirectsTo(answers, c) + RedirectIn(a, c)
  {
    assert (answers + [a])[..|answers|] == answers;
  }

  /** Leaving out what is no response changes none of the responses to a client. */
  lemma {:induction false} OnlyResponses(answers: seq<Answer>, c: int)
    ensures ResponsesTo(Responses(answers), c) == ResponsesTo(answers, c)
  {
    hide ResponseIn;
    if answers != [] {
      var front, last := answers[..|answers| - 1], answers[|answers| - 1];
      OnlyResponses(front, c);
      if last.Responded? {
        ResponsesSnoc(Responses(front), last, c);
      } else {
        assert Responses(answers) == Responses(front);
        NoResponse(last, c);
      }
    }
  }

  lemma NoResponse(a: Answer, c: int)
    requires !a.Responded?
    ensures ResponseIn(a, c) == []
  {}

  lemma {:induction false} OnlyRedirects(answers: seq<Answer>, c: int)
    ensures RedirectsTo(Redirects(answers), c) == RedirectsTo(answers, c)
  {
    hide RedirectIn;
    if answers != [] {
      var front, last := answers[..|answers| - 1], answers[|answers| - 1];
      OnlyRedirects(front, c);
      if last.Redirected? {
        RedirectsSnoc(Redirects(front), last, c);
      } else {
        assert Redirects(answers) == Redirects(front);
        NoRedirect(last, c);
      }
    }
  }

  lemma NoRedirect(a: Answer, c: int)
    requires !a.Redirected?
    ensures RedirectIn(a, c) == 0
  {}

  lemma {:induction false} OwedTo(cmds: seq<Msg>, responses: seq<Response>, clients: set<int>, c: int)
    requires |cmds| == |responses|
    ensures ResponsesTo(Owed(cmds, responses, clients), c) ==
      if c in clients then ResponsesFor(cmds, responses, c) else []
  {
    if cmds != [] {
      var k := |cmds| - 1;
      OwedTo(cmds[..k], responses[..k], clients, c);
      var before, a := Owed(cmds[..k], responses[..k], clients), Responded(cmds[k].clientId, responses[k]);
      ResponsesSnoc(before, a, c);
      assert Owed(cmds, responses, clients) == if cmds[k].clientId in clients then before + [a] else before;
    }
  }

  lemma {:induction false} RefusedTo(stream: seq<Notice>, clients: set<int>, c: int)
    ensures RedirectsTo(Refused(stream, clients), c) == if c in clients then FailuresFor(stream, c) else 0
  {
    hide FailureIn;
    if stream != [] {
      var last := stream[|stream| - 1];
      var before, a := Refused(stream[..|stream| - 1], clients), Redirected(last.cmd.clientId);
      RefusedTo(stream[..|stream| - 1], clients, c);
      FailureIsRedirect(last, c);
      if last.failed && last.cmd.clientId in clients {
        RedirectsSnoc(before, a, c);
      } else {
        assert Refused(stream, clients) == before;
      }
    }
  }

  lemma FailureIsRedirect(n: Notice, c: int)
    ensures FailureIn(n, c) == if n.failed then RedirectIn(Redirected(n.cmd.clientId), c) else 0
    ensures n.cmd.clientId != c ==> FailureIn(n, c) == 0
  {}

  /** Every registered client gets the responses that its own commands got, once each and in the order in
      which they were applied, and as many redirections as commands of its own came back failed. No one
      else gets anything. */
  lemma {:induction false} ServedExactly(get: int -> Msg, stream: seq<Notice>, clients: set<int>,
                                         others: nat -> seq<StoreEvent>, c: int)
    ensures var sv := Listen(UNSERVED, get, stream, clients, others);
      && Applied(sv.history, |sv.history|) == Processed(get, stream)
      && ResponsesTo(sv.answers, c) ==
           (if c in clients then ResponsesFor(Processed(get, stream), Answered(sv.history, |sv.history|), c) else [])
      && RedirectsTo(sv.answers, c) == (if c in clients then FailuresFor(stream, c) else 0)
      && forall a :: a in sv.answers ==> a.client in clients
  {
    hide Listen, Valid, Answered, Applied, Owed, Responses, Redirects, Refused, Processed;
    ListenSettles(get, stream, clients, others);
    var sv := Listen(UNSERVED, get, stream, clients, others);
    OnlyResponses(sv.answers, c);
    OnlyRedirects(sv.answers, c);
    OwedTo(Processed(get, stream), Answered(sv.history, |sv.history|), clients, c);
    RefusedTo(stream, clients, c);
    forall a | a in sv.answers ensures a.client in clients {
      OnlyResponses(sv.answers, a.client);
      OnlyRedirects(sv.answers, a.client);
      OwedTo(Processed(get, stream), Answered(sv.history, |sv.history|), clients, a.client);
      RefusedTo(stream, clients, a.client);
      HasAnswer(sv.answers, a);
    }
  }

  lemma {:induction false} HasAnswer(answers: seq<Answer>, a: Answer)
    requires a in answers
    ensures ResponsesTo(answers, a.client) != [] || RedirectsTo(answers, a.client) > 0
  {
    if a != answers[|answers| - 1] { HasAnswer(answers[..|answers| - 1], a); }
  }

  /** What has been sent stays sent: the answers to the first notices are the first answers. So the order in
      which a client gets its responses and redirections is that of the notices. */
  lemma {:induction false} AnswersInOrder(get: int -> Msg, stream: seq<Notice>, k: nat, clients: set<int>,
                                          others: nat -> seq<StoreEvent>)
    requires k <= |stream|
    ensures Listen(UNSERVED, get, stream[..k], clients, others).answers
      <= Listen(UNSERVED, get, stream, clients, others).answers
    decreases |stream|
  {
    hide Batch, ServeAll;
    if k == |stream| {
      assert stream[..k] == stream;
    } else {
      var front := stream[..|stream| - 1];
      AnswersInOrder(get, front, k, clients, others);
      assert front[..k] == stream[..k];
      var sv, last := Listen(UNSERVED, get, front, clients, others), stream[|stream| - 1];
      AnswersGrow(sv, Batch(get, Highest(front), last), clients, others);
    }
  }

  lemma {:induction false} AnswersGrow(sv: Served, cmds: seq<Msg>, clients: set<int>, others: nat -> seq<StoreEvent>)
    ensures sv.answers <= ServeAll(sv, cmds, clients, others).answers
  {
    hide Meanwhile, Process;
    if cmds != [] { AnswersGrow(sv, cmds[..|cmds| - 1], clients, others); }
  }

  // ----- commands that a node refuses

  lemma {:induction false} CountsFailed(stream: seq<Notice>, c: int)
    ensures FailuresFor(Failed(stream), c) == FailuresFor(stream, c)
  {
    if stream != [] {
      var front, last := stream[..|stream| - 1], stream[|stream| - 1];
      CountsFailed(front, c);
      assert stream == front + [last];
      FailedConcat(front, [last]);
      assert Failed([last]) == FailedOf(last) + Failed([]);
      assert last.failed ==> (Failed(front) + [last])[..|Failed(front)|] == Failed(front);
      assert !last.failed ==> Failed(stream) == Failed(front);
    }
  }

  /** Over any run: a registered client is redirected once for each of its commands that reached the node
      while it did not lead. */
  lemma {:induction false} RefusedAreRedirected(states: seq<Cluster>, moves: seq<Move>, v: int, i: nat, get: int -> Msg,
                                                clients: set<int>, others: nat -> seq<StoreEvent>, c: int)
    requires Run(states, moves, true) && i <= |moves|
    ensures RedirectsTo(Listen(UNSERVED, get, Channel(states, moves, v, i), clients, others).answers, c) ==
      if c in clients then FailuresFor(Refusals(states, moves, v, i), c) else 0
  {
    hide Run, Listen, Channel, Refusals;
    RefusedCommandsReturn(states, moves, v, i);
    ServedExactly(get, Channel(states, moves, v, i), clients, others, c);
    CountsFailed(Channel(states, moves, v, i), c);
  }

  // ----- the other goroutines

  /** What other goroutines do meanwhile is all in the history, in its order, if it can happen so. */
  lemma {:induction false} MeanwhileIsAll(history: seq<StoreEvent>, others: seq<StoreEvent>)
    requires Valid(history + others) && forall e :: e in others ==> !e.Do?
    ensures Meanwhile(history, others) == history + others
  {
    hide After, Can;
    if others == [] {
      assert history + others == history;
    } else {
      var front, e := others[..|others| - 1], others[|others| - 1];
      var h := history + front;
      assert history + others == h + [e];
      ValidFront(h, e);
      MeanwhileIsAll(history, front);
    }
  }

  lemma ValidFront(h: seq<StoreEvent>, e: StoreEvent)
    requires Valid(h + [e])
    ensures Valid(h) && Can(Ends(h), e)
  {
    hide Can;
    forall i | 0 <= i <= |h| ensures After(h + [e], i) == After(h, i) { AfterPrefix(h, [e], i); }
    assert Can(After(h + [e], |h|), (h + [e])[|h|]);
    forall i | 0 <= i < |h| ensures Can(After(h, i), h[i]) { assert Can(After(h + [e], i), (h + [e])[i]); }
  }
}
