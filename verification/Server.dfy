/** The server object of assign4/server_main.go and the loop that listens on its node's commit
    channel, in the source's own form. Timers and local reads of other goroutines come in before any
    command; which ones is a parameter. */
module ServerClass {
  import opened Commands
  import opened RaftTypes
  import opened FileStore
  import opened FileServer
  import opened Applier

  class Server {
    const fileMap: FS
    const gversion: Counter
    /** The clients that have a channel in ClientChanMap. */
    const clients: set<int>
    /** What was put on the clients' channels so far. */
    var sent: seq<Answer>
    /** How many commands of the log were processed. */
    var turn: nat
    /** All that happened to the store. */
    ghost var history: seq<StoreEvent>

    constructor (registered: set<int>)
      ensures Valid() && Value() == UNSERVED && clients == registered
      ensures fresh(fileMap) && fresh(gversion) && fileMap.Dir == map[]
    {
      fileMap := new FS();
      gversion := new Counter();
      clients := registered;
      sent, turn, history := [], 0, [];
    }

    /** The objects are where the history leads. */
    ghost predicate Valid()
      reads this, fileMap, fileMap.Dir.Values, gversion
    {
      fileMap.Valid() && fileMap.Now(gversion.val) == Ends(history)
    }

    ghost function Value(): Served
      reads this
    {
      Served(history, sent, turn)
    }

    method Reply(client: int, answer: Answer)
      requires answer.client == client
      modifies this`sent
      ensures sent == old(sent) + Routed(clients, answer)
    {
      if client in clients {
        sent := sent + [answer];
      }
    }

    /** A timer's function (assign4/fs/fs.go:90-96), or a read served by another connection's goroutine
        (assign4/server_main.go:174-175). */
    method OtherEvent(e: StoreEvent)
      requires Valid()
      modifies this`history, fileMap, fileMap.Dir.Values
      ensures Valid() && fresh(fileMap.Dir.Values - old(fileMap.Dir.Values))
      ensures history == if !e.Do? && Can(Ends(old(history)), e) then old(history) + [e] else old(history)
    {
      match e {
        case Do(_) =>
        case Local(msg) =>
          var response := fileMap.ProcessRead(msg);
          history := history + [e];
        case Expire(filename, version) =>
          if (filename, version) in fileMap.started {
            var response := fileMap.ProcessDelete(ExpiryMsg(filename, version));
            history := history + [e];
          }
      }
      EndsNext(old(history), e);
    }

    method OtherGoroutines(events: seq<StoreEvent>)
      requires Valid()
      modifies this`history, fileMap, fileMap.Dir.Values
      ensures Valid() && fresh(fileMap.Dir.Values - old(fileMap.Dir.Values))
      ensures history == Meanwhile(old(history), events)
    {
      hide Can, Ends;
      var i := 0;
      while i < |events|
        invariant 0 <= i <= |events|
        invariant Valid() && fresh(fileMap.Dir.Values - old(fileMap.Dir.Values))
        invariant history == Meanwhile(old(history), events[..i])
      {
        assert events[..i + 1][..i] == events[..i];
        OtherEvent(events[i]);
        i := i + 1;
      }
      assert events[..|events|] == events;
    }

    /** The command's effect on the objects (assign4/server_main.go:198 and 240). */
    method ApplyCommand(cmd: Msg) returns (response: Response)
      requires Valid()
      modifies this`history, fileMap, fileMap.Dir.Values, gversion
      ensures Valid() && fresh(fileMap.Dir.Values - old(fileMap.Dir.Values))
      ensures history == old(history) + [Do(cmd)]
      ensures response == Process(Ends(old(history)).store, cmd).response
    {
      hide Next, Process, Ends;
      response := fileMap.ProcessMsg(gversion, cmd);
      history := history + [Do(cmd)];
      EndsNext(old(history), Do(cmd));
    }

    /** assign4/server_main.go:198-203 and 240-247 */
    method ProcessCommand(cmd: Msg, others: nat -> seq<StoreEvent>)
      requires Valid()
      modifies this, fileMap, fileMap.Dir.Values, gversion
      ensures Valid() && fresh(fileMap.Dir.Values - old(fileMap.Dir.Values))
      ensures Value() == ServeOne(old(Value()), cmd, clients, others)
    {
      hide Meanwhile, Process, Ends;
      OtherGoroutines(others(turn));
      var response := ApplyCommand(cmd);
      turn := turn + 1;
      Reply(cmd.clientId, Responded(cmd.clientId, response));
    }

    /** Processes the entries at indices `from` up to but not including `to`. */
    method CatchUp(get: int -> Msg, from: int, to: int, others: nat -> seq<StoreEvent>)
      requires Valid()
      modifies this, fileMap, fileMap.Dir.Values, gversion
      ensures Valid() && fresh(fileMap.Dir.Values - old(fileMap.Dir.Values))
      ensures Value() == ServeAll(old(Value()), Fetched(get, from, to), clients, others)
    {
      hide ServeOne, Ends;
      var i := from;
      while i < to
        invariant from <= i && (i <= to || i == from)
        invariant Valid() && fresh(fileMap.Dir.Values - old(fileMap.Dir.Values))
        invariant Value() == ServeAll(old(Value()), Fetched(get, from, i), clients, others)
      {
        ProcessCommand(get(i), others);
        assert Fetched(get, from, i + 1) == Fetched(get, from, i) + [get(i)];
        i := i + 1;
      }
    }

    /** assign4/server_main.go:210-249, one notice */
    method HandleNotice(get: int -> Msg, prev: int, commitval: Notice, others: nat -> seq<StoreEvent>)
        returns (prevLogIndexProcessed: int)
      requires Valid()
      modifies this, fileMap, fileMap.Dir.Values, gversion
      ensures Valid() && fresh(fileMap.Dir.Values - old(fileMap.Dir.Values))
      ensures Value() == Handle(old(Value()), get, prev, commitval, clients, others)
      ensures prevLogIndexProcessed == if commitval.failed || commitval.index <= prev then prev else commitval.index
    {
      hide ServeOne;
      prevLogIndexProcessed := prev;
      if commitval.failed {
        Reply(commitval.cmd.clientId, Redirected(commitval.cmd.clientId));
      } else if commitval.index > prev {
        CatchUp(get, prev + 1, commitval.index, others);
        ProcessCommand(commitval.cmd, others);
        BatchLast(old(Value()), get, prev, commitval, clients, others);
        prevLogIndexProcessed := commitval.index;
      }
    }

    /** assign4/server_main.go:206-253, on the notices of `channel` */
    method ListenCommitChannel(get: int -> Msg, channel: seq<Notice>, others: nat -> seq<StoreEvent>)
        returns (prevLogIndexProcessed: int)
      requires Valid()
      modifies this, fileMap, fileMap.Dir.Values, gversion
      ensures Valid() && Value() == Listen(old(Value()), get, channel, clients, others)
      ensures prevLogIndexProcessed == Highest(channel)
    {
      hide Handle;
      prevLogIndexProcessed := -1;
      var k := 0;
      while k < |channel|
        invariant 0 <= k <= |channel|
        invariant Valid() && fresh(fileMap.Dir.Values - old(fileMap.Dir.Values))
        invariant prevLogIndexProcessed == Highest(channel[..k])
        invariant Value() == Listen(old(Value()), get, channel[..k], clients, others)
      {
        prevLogIndexProcessed := HandleNotice(get, prevLogIndexProcessed, channel[k], others);
        assert channel[..k + 1][..k] == channel[..k];
        k := k + 1;
      }
      assert channel[..|channel|] == channel;
    }
  }

  lemma EndsNext(history: seq<StoreEvent>, e: StoreEvent)
    ensures Ends(history + [e]) == Next(Ends(history), e)
  {
    AfterPrefix(history, [e], |history|);
  }

  /** A notice past `prev`: the missing entries, and then its own command. */
  lemma {:induction false} BatchLast(sv: Served, get: int -> Msg, prev: int, n: Notice, clients: set<int>,
                                     others: nat -> seq<StoreEvent>)
    requires !n.failed && n.index > prev
    ensures ServeAll(sv, Batch(get, prev, n), clients, others) ==
      ServeOne(ServeAll(sv, Fetched(get, prev + 1, n.index), clients, others), n.cmd, clients, others)
  {
    var batch := Batch(get, prev, n);
    assert batch[..|batch| - 1] == Fetched(get, prev + 1, n.index);
  }
}
