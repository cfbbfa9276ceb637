/** Values of the Raft state machine: log entries, the four protocol messages, the events a
    node handles and the actions it returns (assign4/state.go, assign4/Actions.go). */
module RaftTypes {
  import opened Commands

  datatype Role = Follower | Candidate | Leader

  datatype Entry = Entry(term: int, cmd: Msg)

  datatype Message =
    | VoteRequest(term: int, candidateId: int, lastLogIndex: int, lastLogTerm: int)
    | VoteResponse(term: int, granted: bool)
    | AppendRequest(term: int, leaderId: int, prevLogIndex: int, prevLogTerm: int,
                    data: seq<Entry>, leaderCommit: int)
    | AppendResponse(term: int, fromId: int, success: bool, index: int)

  datatype Event = Client(cmd: Msg) | Timeout | Receive(msg: Message)

  /** Which of the two timers an Alarm action restarts; durations are not modelled. */
  datatype Timer = Election | Heartbeat

  /** `Nested` is the action list that assign4/AppendEntriesRequest.go:46 appends as one element. */
  datatype Action =
    | Send(to: int, msg: Message)
    | Commit(index: int, cmd: Msg, failed: bool)
    | Alarm(timer: Timer)
    | LogStore(index: int, entry: Entry)
    | StateStore(role: Role, term: int, votedFor: int)
    | Nested(actions: seq<Action>)

  /** What the commit channel carries (CommitInfo, assign4/RaftNode.go:16-20). */
  datatype Notice = Notice(index: int, cmd: Msg, failed: bool)

  /** The fields of a node that its handlers read and write. `logCurrentIndex` has no
      counterpart here: it is `|log| - 1`, which the class StateMachine keeps as an invariant. */
  datatype Node = Node(
    id: int,
    peers: seq<int>,
    role: Role,
    term: int,
    votedFor: int,
    log: seq<Entry>,
    commit: int,
    nextIndex: seq<int>,
    matchIndex: seq<int>,
    yes: int,
    no: int)

  /** A line of the state file (assign4/IOState.go). */
  datatype SMState = SMState(state: Role, currentTerm: int, votedFor: int)

  /** The state file that InitializeState leaves (assign4/RaftNode.go:172-176). */
  const CLEAN := [SMState(Follower, 0, 0)]

  /** ReadState reads the first line, though WriteState adds lines at the end; without one it ends the program. */
  function ReadState(file: seq<SMState>): SMState
    requires file != []
  {
    file[0]
  }

  /** A node as InitializeStateMachine makes it from what its two files hold (assign4/RaftNode.go:77-128). */
  function Initialized(id: int, peers: seq<int>, data: SMState, entries: seq<Entry>): Node {
    Node(id, peers, data.state, data.currentTerm, data.votedFor, entries, -1,
         seq(|peers|, i => |entries|), seq(|peers|, i => -1), 0, 0)
  }

  datatype Outcome = Outcome(node: Node, actions: seq<Action>)

  function LastTerm(log: seq<Entry>): int {
    if log == [] then 0 else log[|log| - 1].term
  }

  function Min(a: int, b: int): int {
    if a < b then a else b
  }

  function Max(a: int, b: int): int {
    if a > b then a else b
  }
}
