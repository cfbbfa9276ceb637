# A verified model of the replicated file server of assign4

The repository is a file server replicated with Raft. `assign4` holds one node's state machine, the
loop that carries out its actions, a versioned file store with expiry timers, the applier that feeds
committed commands to the store, and the wire format its clients use. This project models these parts
in Dafny and proves what they promise: safety of the protocol over every run of the cluster, one
ordered application of the log on every server, agreement of replicas, the laws of versions and
timers, and a parser that takes back what the printer wrote. `dafny verify dfyconfig.toml` checks all
of it.

Code that updates fields or loops is modelled by classes and methods in the same form; each of them
is proved to compute a function on values, and the theorems are about those functions.

## How it is laid out

| files | contents |
|---|---|
| Commands, RaftTypes, NodeStep | messages, log entries, nodes; what each handler computes |
| StateMachine, RaftNode | the state machine object with its handlers and loops; the node that carries out actions |
| Cluster, History | nodes and links as a transition system; what is recorded of a run for the proofs |
| Quorums, Invariants, Effects | sets that elect or commit; the invariant; what one move changes |
| BasicProof, VoteProof, RangeProof | what every move keeps in clusters of any size |
| ReignProof, LogFacts, LogProof, AcceptProof | what it keeps in clusters of a safe size |
| CompleteProof, CommitProof | what it keeps there when stale success replies are held back |
| Safety, RunLaws, CommitStream | theorems over whole runs |
| CommitScan, MergeRefinement, Repair | the commit scan, the merge, and log repair on their own |
| RepairRun | log repair as part of any run |
| HandlerLaws, StateFile | what each message and request does to a node, told without naming the handlers; what is written to the state file and which timer is restarted |
| FileStore, StoreLaws, FileServer | the store as a value with its histories; what commands are answered, told from the history alone; the store as objects on the heap |
| Applier, Server, ClientLaws | from commit notices to one application of the log; who gets which answer |
| Replicas, SingleIndex, EndToEnd | equal replicas |
| LogFile, LostEntry | the node's log file: when it holds the log, and a run in which it loses a committed entry |
| Numbers, Numerals, Wire, WireLaws, CommandLaws, WireStreams, WireService | the wire format: responses, commands, and the loops over a stream |
| Scenario, Episodes, Reigns | runs built step by step, in clusters of any size: single moves, elections and repairs, whole terms of a leader |
| SplitVote, StaleAck | runs in which even clusters elect two leaders, and in which stale success replies are handled |
| TwoNodes, Exactness | why two nodes have no stale replies; exactly when the safety theorems hold |
| SecondChance | a run in which a node that refused one candidate elects another in the same term |
| LinkFaults, Restarts | runs in which a link repeats a message or delivers one late, and one in which a node restarts |

## What is assumed

- Cluster size (`SafeSize`: an odd number of nodes, or two), for what concerns leaders, logs and commits.
  `len(peer)/2 + 1` is half, not a majority, of an even cluster, although the repository's own
  description promises work as long as a majority is up. The condition is exact: from four nodes on,
  every even size has a run with two leaders in a term (`SplitVote.ElectionSafetyIff`) and one in which
  both commit what they like at index 0 (`Exactness.StateMachineSafetyIff`). Two nodes are safe because
  a vote must be received, and an index acknowledged, before either is counted. Terms, single votes and
  index ranges need no such condition. Ids are distinct and not zero, as the comment in
  assign4/VoteRequest.go:67 assumes.
- Success replies reach a leader only in the term they answer (the flag `guarded`), for what concerns
  commits and index ranges. assign4/AppendEntriesResponse.go:51-54 does not compare terms. This is exact
  too. Without it, in every cluster of three or more, one run makes a leader index out of range and
  another commits any two commands at index 1; clusters of one and two nodes have no stale reply to
  deliver (`TwoNodes.NeverStale`). So state-machine safety holds of all runs of n nodes if and only if n
  is safe and either the hypothesis is made or n is at most 2. Election safety, log matching and what
  followers take over do not need it: theorems with a parameter `guarded` hold for both its values.
- Links. One first-in first-out queue per ordered pair of nodes, which may lose any message at any
  time and never duplicates or reorders. Inbox and event channel of a node are one queue. Votes carry
  no voter id, and an older append request cuts acknowledged entries, so the code relies on it:
  `LinkFaults.RepeatedVoteSplits` gets two leaders from one vote that arrives twice, and
  `LinkFaults.LateRequestDiverges` two different commits from one request that arrives late.
- Nodes stop for good when they stop. They start as followers of term 0 with an empty log. This is needed:
  assign4/IOState.go:23-45 adds lines to the state file and reads the first, so a restarted node has
  forgotten its term and its vote (`Restarts.RestartForgets`), and one restart can give a term two leaders
  in every cluster of three or more (`Restarts.RestartSplits`).
- Messages are values, so sharing of slices between nodes is not modelled.
- Actions in the nested list of assign4/AppendEntriesRequest.go:46 are lost, as the type switch of
  assign4/RaftNode.go:230 loses them.
- Expiry timers and local reads run beside the applier. Between any two commands, before the first and
  after the last, any of them may happen in any number and order (the parameters `others` and `later`
  of `Applier` and `EndToEnd`); each takes the file system's lock, so none happens inside a command.
- `Get(i)` returns the command of committed entry `i` (`EndToEnd.Fetches`). The node's log file does so
  as long as no request has cut its log or brought it entries while it was a candidate or leader
  (`EndToEnd.FileServes`), and holds the log throughout exactly then (`LogFile.FileIsLogIff`). The code does
  not ensure this: `LostEntry.FileLosesCommitted`. Of the log library, GetLastIndex, Append, TruncateToEnd
  and Get are taken at their names.
- Go's int has 64 bits. It is written out in the wire format; terms, indices and versions are
  unbounded in the protocol and the store.
- A byte is a character of the same code. Commands in log entries are kept decoded.

## Where the code differs from its descriptions

The code is followed in each case. A read always reports a remaining time of 0, because the inner
variable of assign4/fs/fs.go:55 hides the outer one. Replicas are not always in the same state in the
end: a write with an expiry can make them differ (`Replicas.ReplicasAgreeIff`,
`SingleIndex.AgreeNowIff`). ERR_VERSION is printed with a version, a blank follows OK when no version
does, and ERR_REDIRECT is a response the parser does not know (`WireLaws.RoundTripIff`). A blank line,
`delete` without a name and a negative size are neither fatal nor recoverable errors but panics, except
that size -1 at the end of the stream is a fatal error (`WireLaws.CrashExactly`). The commit scan asks
for half of an even cluster where the Raft paper asks for a majority, and a node without peers never
commits (`CommitScan.ScanExactIff`). What comes out of the commit channel need not be in the log file
(`LostEntry.FileLosesCommitted`). A vote given in the node's own term is never written, as the condition
of assign4/VoteRequest.go:83-85 cannot hold; `StateFile.UnsavedIff` lists all changes that are not
written. The formats listed at assign4/fs/msg.go:17-41 have no redirection; a client that used this
parser would find one a fatal error (`CommandLaws.RedirectionExactly`).

## Model

| member | source | states |
|---|---|---|
| Safety.ElectionSafety | assign4/VoteResponse.go:37-64 | in every run of a cluster of a safe size, whatever replies are delivered, no two nodes lead in the same term, at the same or at different times, though votes are a bare counter |
| Safety.LogMatchingOverRun | assign4/AppendEntriesRequest.go:72-89 | whatever replies are delivered, logs with an entry of equal term at an index are identical up to it, for any two nodes at any two times of a run |
| Safety.StateMachineSafety | assign4/AppendEntriesRequest.go:95-101 | whatever any two nodes have committed at an index, at any two times of a run, is the same, and so is all before it |
| Safety.LeaderCompleteness | assign4/VoteRequest.go:73-92 | what a node has committed is in the log of every node that leads in a later term |
| Safety.CommitMonotone | assign4/AppendEntriesRequest.go:85-101 | commit indices never fall, stay inside the log, and nothing at or below one ever changes |
| Safety.RunNeverPanics | assign4/state.go:35-68 | in clusters of every size, while stale success replies are held back, no possible move of a reachable state slices or indexes out of range |
| Safety.RunNodeOk | assign4/state.go:14-28 | in clusters of a safe size, whatever replies are delivered, every node of every reachable state has sorted log terms of at most its own |
| Safety.RunCommitInside | assign4/state.go:14-28 | while stale replies are held back, commit indices are inside the log |
| Safety.RunRangeInv | assign4/AppendEntriesResponse.go:51-54 | in clusters of every size, while stale replies are held back, next and match indices are inside the leader's log, and so are the requests and replies of its term on their way |
| Safety.RunVoteInv | assign4/state.go:35-68 | what every cluster keeps in every run: the order and signatures on the links, genuine votes, and candidates that count them |
| Safety.RunCoreInv | assign4/state.go:35-68 | what every cluster of a safe size keeps in every run: reigns, logs and acceptance |
| Safety.RunInv | assign4/state.go:35-68 | the whole invariant, match indices, completeness and commitment included, while stale replies are held back |
| SplitVote.ElectionSafetyIff | assign4/VoteResponse.go:44 | no run of a cluster of n nodes has two leaders in a term, if and only if n is odd or 2, whether or not stale replies are held back |
| Exactness.StateMachineSafetyIff | assign4/AppendEntriesResponse.go:51-79 | in no run of a cluster of n nodes do two nodes commit different entries at an index, if and only if n is odd or 2 and, unless n is at most 2, stale success replies are held back |
| Exactness.NeverPanicsIff | assign4/AppendEntriesResponse.go:51-60 | for every n: no possible move of a reached state indexes out of range, if and only if stale success replies are held back or n is at most 2 |
| SplitVote.DivergesWhenEven | assign4/AppendEntriesResponse.go:66 | in every even cluster of four or more two nodes can commit any two commands at index 0, whether or not stale replies are held back |
| Exactness.PanicsWithoutGuard | assign4/AppendEntriesResponse.go:51-60 | if stale success replies are delivered, every cluster of three or more can reach a delivery that indexes out of range |
| Exactness.DivergesWithoutGuard | assign4/AppendEntriesResponse.go:51-79 | if they are, two nodes of every such cluster can commit any two commands at index 1 |
| LinkFaults.RepeatedVoteSplits | assign4/VoteResponse.go:42-46 | in every odd cluster of five or more, one vote that arrives twice lets two nodes lead in a term |
| LinkFaults.LateRequestDiverges | assign4/AppendEntriesRequest.go:76-89 | in every cluster of three or more, one append request that arrives after later ones lets two nodes commit any two commands at index 0 |
| TwoNodes.NeverStale | assign4/VoteResponse.go:37-64 | no run of one or two nodes can deliver a stale success reply: whatever is on its way to a leader was sent in its term or later |
| Exactness.CommitsWithGuard | assign4/AppendEntriesResponse.go:51-79 | with the hypothesis every cluster of three or more has a run that commits any command at index 0 |
| Episodes.Gather | assign4/VoteResponse.go:42-64 | a candidate that gathers from any range of willing nodes the votes it lacks becomes leader; what else has changed is only those nodes and their links to it |
| Episodes.Teach | assign4/AppendEntriesResponse.go:40-54 | by moves of the run the leader steps back as far as needed, and the follower ends with its log and says so |
| Episodes.AckAll | assign4/AppendEntriesResponse.go:51-79 | a leader that handles as many acknowledgements of its last entry as it lacks commits it |
| RunLaws.TermsRise | assign4/state.go:17 | in every cluster, a node's term never falls |
| RunLaws.OneVotePerTerm | assign4/VoteRequest.go:67-82 | in every cluster, a vote once cast in a term is never replaced, though votedFor is overwritten |
| RunLaws.MatchIndexIsTrue | assign4/AppendEntriesResponse.go:52-54 | a match index claims no more than the peer holds while it is in the leader's term |
| RunLaws.SentByLeader | assign4/Timeout.go:20-33 | in every cluster, an append request on a link was sent by a leader of its term whose log then ended where the request ends |
| RunLaws.AcceptedIsSnapshot | assign4/AppendEntriesRequest.go:76-94 | whatever replies are delivered, on acceptance the follower's log is, index for index, the log its leader had when it sent the request; while the sender leads that term, a prefix of what it has now |
| RunLaws.BoundLogGrows | assign4/AppendEntriesRequest.go:76-94 | whatever replies are delivered, a node that leads or has accepted in its term only extends its log while the term lasts |
| Quorums.QuorumsMeet | assign4/AppendEntriesResponse.go:66 | for safe sizes any two sets that pass the count share a node |
| VoteProof.HeadIsOk | assign4/VoteRequest.go:67-82 | a voter about to grant has no vote in that term yet, and a vote that arrives is genuine and not yet counted |
| ReignProof.FirstReign | assign4/VoteResponse.go:42-46 | a winner is the first to win in its term |
| LogFacts.AdoptsSnapshot | assign4/AppendEntriesRequest.go:76-89 | merging a request that matches gives the leader's log up to the request's end |
| CompleteProof.WinnerComplete | assign4/VoteRequest.go:73-92 | the winner of an election has all that an earlier term can still commit |
| CommitProof.LeaderHasCommitted | assign4/AppendEntriesRequest.go:85 | cutting the log to a leader's request keeps what is committed |
| CommitProof.SupportedIsChosen | assign4/AppendEntriesResponse.go:56-79 | what the leader's scan commits has been accepted by a quorum in its term |
| HandlerLaws.VotesExactly | assign4/VoteRequest.go:24-102 | every vote request gets one reply, which grants if and only if the candidate's last entry is at least as late as the node's, by term and then by index, and the term is new or the node follows in it with no vote or one for the candidate; and what term, role and vote the node then has |
| HandlerLaws.NewerTermFollows | assign4/AppendEntriesResponse.go:32-37 | a message of a later term makes the node a follower of exactly that term, if and only if it is none that the source ignores: any vote or success reply to a leader, a granted vote to a candidate; after a reply it has no vote |
| HandlerLaws.DeposedForGood | assign4/AppendEntriesResponse.go:32-37 | over any run: a leader to which a refusal or request of a later term is delivered follows in that term, and never again leads in its old one |
| HandlerLaws.CandidateCounts | assign4/VoteResponse.go:37-85 | with a quorum of votes a candidate leads with fresh indices and all peers hear of it, with a quorum of refusals it follows, and else it counts |
| HandlerLaws.QuorumEndsCandidacy | assign4/VoteResponse.go:37-85 | in every run of any cluster every node has counted just the votes and refusals delivered to it since it last stood, and no candidate has a quorum of refusals |
| HandlerLaws.StandsExactly | assign4/Timeout.go:34-76 | a node that does not lead and times out stands in the next term, votes for itself, forgets earlier counts and asks each peer once |
| HandlerLaws.HeartbeatExactly | assign4/Timeout.go:20-33 | a leader that times out sends each peer one request with its log from that peer's next index on and the entry before it, and no one else anything |
| HandlerLaws.AcknowledgedNext | assign4/AppendEntriesResponse.go:51-54 | an acknowledged index is noted for that peer alone, and what the peer is sent next starts right after it |
| HandlerLaws.CommitsWhatItMay | assign4/AppendEntriesResponse.go:56-79 | on an acknowledgement the leader's commit index becomes the greatest that a majority, its term and its log allow, and otherwise stays |
| HandlerLaws.RefusedGoesBack | assign4/AppendEntriesResponse.go:40-49 | a refusal of its own term makes the leader send that peer, and no one else, its log from one index lower on |
| HandlerLaws.AppendAnswered | assign4/AppendEntriesRequest.go:27-107 | success is answered if and only if the request is of no earlier term and fits the log; a refusal changes neither log nor commit index; who gets which reply, the commit index, and which terms the log then has where the data are |
| HandlerLaws.AskedExactly | assign4/Append.go:12-50 | a leader takes a command into its log and sends nothing; others stay as they are and return it as failed |
| HandlerLaws.RefusedCommandsReturn | assign4/Append.go:45-50 | over any run the failed notices on a node's channel are, in order and number, the commands asked of it while it did not lead |
| SecondChance.RefuserElectsAnother | assign4/VoteRequest.go:63-102 | in every cluster of three or more a run in which a leader, unseated by an outdated candidate that it refuses, gives the deciding vote of the same term to another node |
| StateFile.KeptExactly | assign4/state.go:35-68 | which events write role, term and vote to the state file, and which timer each restarts |
| StateFile.UnsavedIff | assign4/VoteRequest.go:63-102 | role, term or vote change without being written if and only if the node votes in its own term, recognises a leader as a candidate or leader, or hears of a later term in an append response while it does not lead |
| Restarts.RestartForgets | assign4/IOState.go:23-60 | at any time of any run, what a restart would read is term 0 and no vote |
| Restarts.RestartSplits | assign4/RaftNode.go:77-128 | every cluster of three or more has a run that, with one restart of one node from its files, has two leaders in a term |
| Effects.HandlerEmits | assign4/state.go:35-68 | a handler sends at most one message to a node, and exactly what it may send in which case |
| Effects.HandlerEvolves | assign4/state.go:35-68 | how one event may change term, role, vote and log |
| CommitStream.StepEmits | assign4/AppendEntriesResponse.go:74-79 | the commits of one event, nested ones included, are the entries between old and new commit index |
| CommitStream.CommitsInOrder | assign4/AppendEntriesRequest.go:95-101 | over any run a node emits the commits of indices 0, 1, 2, ... once each, in order, with the commands of its log |
| CommitStream.ChannelCorrect | assign4/RaftNode.go:226-248 | every successful notice that reaches the commit channel names a committed index and its command |
| CommitScan.ScanIsExact | assign4/AppendEntriesResponse.go:56-72 | with at least one peer and a safe size, the scan finds the greatest index past the commit index, of the leader's term, that a true majority of the servers hold |
| CommitScan.ScanExactIff | assign4/AppendEntriesResponse.go:56-72 | that holds for all leaders with p peers if and only if p is at least 1 and p + 1 is odd or 2 |
| MergeRefinement.MergeInRun | assign4/AppendEntriesRequest.go:76-89 | for every request accepted in a run, whatever replies are delivered, the two merges agree |
| MergeRefinement.MergeRefinesOverwrite | assign3/AppendEntriesRequest.go:71-80 | match-then-append gives the log of truncate-and-append if and only if entries kept for their terms are equal |
| MergeRefinement.StoresAreNewTail | assign4/AppendEntriesRequest.go:86-89 | the stored entries are exactly what follows the longest common part of old and new log |
| Repair.RefusalStepsBack | assign4/AppendEntriesResponse.go:40-49 | a refusal makes the leader resend one index lower |
| Repair.RepairEnds | assign4/AppendEntriesResponse.go:40-54 | the follower accepts after exactly as many refusals as the logs meet further back, and then has the leader's log |
| RepairRun.RepairInRun | assign4/AppendEntriesRequest.go:72-94 | from the end of any run a leader can bring any node of no later term, follower, candidate or deposed leader, to its own log by timeouts, deliveries and losses alone; nothing else about any node changes but its next indices |
| StateMachineClass.StateMachine.constructor | assign4/RaftNode.go:77-128 | a new node has every other id as a peer once, role, term and vote of the state file, the entries of the log file, and fresh indices |
| StateMachineClass.StateMachine.ProcessEvent | assign4/state.go:35-68 | the object after an event, and the actions, are those of the step function; logCurrentIndex stays the last index |
| StateMachineClass.StateMachine.Append | assign4/Append.go:12-50 | a leader appends at the end of its log, others refuse |
| StateMachineClass.StateMachine.TimeoutLeader | assign4/Timeout.go:20-33 | the loop sends each peer the log from its next index to the end |
| StateMachineClass.StateMachine.StartElection | assign4/Timeout.go:34-76 | the loop asks every peer for a vote in the next term |
| StateMachineClass.StateMachine.VoteRequestLeaderorCandidate | assign4/VoteRequest.go:24-61 | computes the step function for vote requests |
| StateMachineClass.StateMachine.VoteRequestFollower | assign4/VoteRequest.go:63-102 | computes the step function for vote requests |
| StateMachineClass.StateMachine.VoteResponseCandidate | assign4/VoteResponse.go:37-85 | computes the step function for vote responses |
| StateMachineClass.StateMachine.BecomeLeader | assign4/VoteResponse.go:45-63 | the loop resets all indices and sends the first heartbeat |
| StateMachineClass.StateMachine.AppendEntriesRequestLeaderorCandidate | assign4/AppendEntriesRequest.go:27-50 | converts, and nests the follower's actions |
| StateMachineClass.StateMachine.AppendEntriesRequestFollower | assign4/AppendEntriesRequest.go:52-107 | computes the step function for append requests |
| StateMachineClass.StateMachine.MergeData | assign4/AppendEntriesRequest.go:76-89 | the two loops compute the merge and the stores of the new tail |
| StateMachineClass.StateMachine.FollowLeaderCommit | assign4/AppendEntriesRequest.go:95-101 | the new commit index and the commits up to it |
| StateMachineClass.StateMachine.AppendEntriesResponseLeader | assign4/AppendEntriesResponse.go:22-82 | computes the step function for append responses |
| StateMachineClass.StateMachine.RetryOneBack | assign4/AppendEntriesResponse.go:41-49 | one index lower, never below 0, and the request from there |
| StateMachineClass.StateMachine.ScanMatches | assign4/AppendEntriesResponse.go:56-72 | the nested loops compute the largest committable match index |
| StateMachineClass.StateMachine.CountYes | assign4/AppendEntriesResponse.go:58-65 | one more than the peers at or beyond an index |
| LogFile.FileIsLogIff | assign4/ActionHandler.go:36-43 | in every run, a node's log file holds its log throughout, if and only if no request it accepted cut its log or brought entries while it was a candidate or leader |
| LogFile.StaysLog | assign4/ActionHandler.go:36-43 | if the file holds the log before an event, it does so afterwards if and only if the event is not such a request |
| LostEntry.FileLosesCommitted | assign4/ActionHandler.go:36-43 | every cluster of three or more has a run in which a node commits any command at index 0 and its log file is empty |
| RaftNodeClass.RaftNode.LogStoreHandler | assign4/ActionHandler.go:36-43 | truncates a file that reaches the index and drops the entry, and else adds the entry |
| RaftNodeClass.RaftNode.DoActions | assign4/RaftNode.go:226-248 | what leaves the node on each link and on the commit channel is what the cluster model puts there, and the log file is what the stores make of it; states are added to the state file and the timer is restarted as StateFile says |
| RaftNodeClass.RaftNode.HandleEvent | assign4/RaftNode.go:196-224 | one round of the event loop is one step of the model |
| FileStore.HistoryOk | assign4/fs/fs.go:73-104 | in every history files hold distinct versions that the counter has passed |
| FileStore.ReadsLatestWrite | assign4/fs/fs.go:49-71 | a read of a file that exists returns contents and version of the latest write of it, whatever deletes and expiries came between |
| FileStore.VersionsNeverReused | assign4/fs/fs.go:81-84 | a version being written was held by no file at any earlier time, across deletes, re-creations and expiries |
| FileStore.StaleTimersHarmless | assign4/fs/fs.go:86-101 | a timer that changes anything removes the one file that has held what its write put there ever since |
| FileStore.UniqueCasWinner | assign4/fs/fs.go:112-122 | at most one compare-and-swap naming a version ever overwrites a file |
| StoreLaws.FileExistsIff | assign4/fs/fs.go:49-140 | a file exists if and only if some command overwrote it and no later delete or effective expiry removed it |
| StoreLaws.ReadsExactly | assign4/fs/fs.go:49-71 | a read answers ERR_FILE_NOT_FOUND if and only if nothing overwrote the file since it was last removed, or nothing ever did; else the contents of the latest command that did, with its number among all that overwrote a file as version |
| StoreLaws.AnsweredExactly | assign4/fs/fs.go:73-144 | the answer to each kind of command and the one file it changes: a write, a winning and a losing compare-and-swap, a delete of an existing and of a missing file, by clients and by timers |
| StoreLaws.ThenRead | assign4/fs/fs.go:124-140 | a read right after a command that overwrote a file finds its contents; right after one that removed it, nothing |
| StoreLaws.TimersExactly | assign4/fs/fs.go:86-101 | a timer was started for a version of a file if and only if the command that gave it this version had an expiry time |
| FileServer.FS.ProcessMsg | assign4/fs/fs.go:32-47 | the objects after a message, the counter and the response are those of the store as a value |
| FileServer.FS.ProcessRead | assign4/fs/fs.go:49-71 | answers with the file's object as the store does |
| FileServer.FS.InternalWrite | assign4/fs/fs.go:73-104 | updates an existing object in place or adds one; changes one entry, and the counter by one |
| FileServer.FS.ProcessCas | assign4/fs/fs.go:112-122 | computes the store's compare-and-swap |
| FileServer.FS.ProcessDelete | assign4/fs/fs.go:124-140 | computes the store's delete, by clients and by timers |
| Applier.HighestIsMax | assign4/server_main.go:224-228 | prevLogIndexProcessed is the largest index seen |
| Applier.ExactlyOnceIff | assign4/server_main.go:206-249 | the commands processed are those of the log up to the largest index seen, once each and in order, if and only if the notices that bring something new are correct |
| Applier.ListenSettles | assign4/server_main.go:185-253 | whatever timers fire and reads are served around the commands: the commands applied are those processed, in a possible history of the store; each got its response once and in order, and exactly the refused are redirected |
| Applier.ExactlyOnce | assign4/server_main.go:185-253 | the same with correct notices, whatever repeats, disorder, gaps and refusals: the log from index 0 to the largest index is applied, once each and in order |
| Applier.ListenReplays | assign4/server_main.go:206-249 | if every file for which a command started a timer was replaced by the next command that has to do with it, the store is that of replaying the commands, now and later, and the responses are those of the replay |
| Applier.ListenersSplit | assign4/fs/fs.go:86-99 | if the last command processed starts a timer, the same notices can leave different stores |
| ClientLaws.ServedExactly | assign4/server_main.go:185-253 | each registered client gets the responses that its own commands got, once each and in order, and one redirection for each of its failed notices; no one else gets anything |
| ClientLaws.AnswersInOrder | assign4/server_main.go:206-249 | the answers to the first notices are the first answers, so a client gets its responses and redirections in the order of the notices |
| ClientLaws.RefusedAreRedirected | assign4/server_main.go:212-222 | over any run a registered client is redirected once for each of its commands that reached the node while it did not lead |
| ClientLaws.MeanwhileIsAll | assign4/fs/fs.go:86-101 | whatever timers and reads can happen between two commands are all in the history, in their order |
| ServerClass.Server.OtherGoroutines | assign4/fs/fs.go:86-99 | the timers that fire and the reads that are served change the objects as the store's history does |
| ServerClass.Server.ApplyCommand | assign4/server_main.go:240 | a command's effect on the objects, and its response |
| ServerClass.Server.ProcessCommand | assign4/server_main.go:240-247 | that, after what others do, and the response sent to its client |
| ServerClass.Server.CatchUp | assign4/server_main.go:229-232 | processes the missing entries in order, with whatever others do in between |
| ServerClass.Server.HandleNotice | assign4/server_main.go:210-249 | handles one notice as the specification does |
| ServerClass.Server.ListenCommitChannel | assign4/server_main.go:185-253 | after any notices, and whatever others do in between, the objects are what the specification computes from them |
| Replicas.AgreeWithoutTimers | assign4/fs/fs.go:32-140 | servers that applied the same log are equal and answered alike, if no write had an expiry, whatever they read |
| Replicas.TimersDisagree | assign4/fs/fs.go:87-99 | a log whose last command starts a timer splits replicas |
| Replicas.ReplicasAgreeIff | assign4/fs/fs.go:32-140 | replicas of a log agree at every index and time if and only if replaying it starts no timer |
| SingleIndex.AgreeNowIff | assign4/fs/fs.go:32-140 | replicas that have processed the same commands always agree there, if and only if, after each command that starts a timer, the next one that has to do with its file replaces it |
| EndToEnd.ProcessesLog | assign4/server_main.go:206-249 | in every run a server has processed its node's log up to the largest index it was notified of |
| EndToEnd.SameCommands | assign4/server_main.go:206-249 | of any two servers one has processed a prefix of what the other has |
| EndToEnd.FileServes | assign4/RaftNode.go:146-151 | while nothing has spoilt a node's log file, Get returns the committed commands |
| EndToEnd.ReplicaAgreement | assign4/server_main.go:206-249 | servers at the same index hold equal files and versions and computed equal responses, if every file for which a command started a timer was replaced by the next command that has to do with it |
| EndToEnd.ListenerAppliesLog | assign4/server_main.go:185-253 | in every run the loop of a server has applied its node's log up to the largest index it was notified of, once each and in order, whatever timers and reads come in between |
| EndToEnd.ListenersAgree | assign4/server_main.go:206-249 | two servers' own loops that have come to the same index end in equal stores and send the responses of one replay, whatever others do on either, under the same condition |
| Numbers.AtoiItoa | assign4/server_main.go:98-107 | a printed integer is read back if and only if it is in the 64-bit range |
| Numbers.FieldsJoined | assign4/fs/msg.go:112 | words joined by blanks are split into the same words |
| WireLaws.LineExactly | assign4/fs/msg.go:196-216 | a line is taken if and only if at most 500 bytes other than CR come before a CRLF |
| WireLaws.GotExactly | assign4/fs/msg.go:56-65 | a message is taken if and only if the stream starts with its first line, CRLF and, for w, c and C, its contents and CRLF; exactly that is consumed |
| WireLaws.NextStartsAfresh | assign4/fs/msg.go:56-65 | what follows a message has no influence on it |
| WireLaws.CrashExactly | assign4/fs/msg.go:112-184 | the parser panics if and only if the line is blank, is `delete` alone, or announces a negative size that is not -1 at the end of the stream |
| WireLaws.RoundTripIff | assign4/server_main.go:87-125 | a printed response is read back as it was, whatever follows, if and only if it is no redirection, has no negative version after OK, and its contents have the announced size within the limit |
| WireLaws.StreamRoundTrip | assign4/server_main.go:118-123 | any sequence of such responses is read back from what was printed |
| Numerals.AtoiExactly | assign4/fs/msg.go:91-105 | an integer is read if and only if the word is an optional sign and decimal digits of a number in the 64-bit range, and it is that number |
| CommandLaws.PlainLineExactly | assign4/fs/msg.go:106-173 | what a line that reads or deletes gives, and that an unknown first word is a fatal error |
| CommandLaws.WriteLineExactly | assign4/fs/msg.go:116-121 | a line that writes has the file second, the size third and the expiry time fourth; what is fatal, what is recoverable, and exactly which contents are taken |
| CommandLaws.CasLineExactly | assign4/fs/msg.go:122-128 | a line that compares and swaps has the version third, the size fourth and, if there are five words, the expiry time fifth; what is fatal, what is recoverable, and exactly which contents are taken |
| CommandLaws.ResponseLineExactly | assign4/fs/msg.go:132-157 | the same for the lines of responses |
| CommandLaws.BrokenLineExactly | assign4/fs/msg.go:196-216 | a stream that ends in its first line, has a CR there without LF, or more than 500 bytes before one is a fatal error, and what is left of it |
| CommandLaws.CommandReadIff | assign4/fs/msg.go:56-194 | a command of plain words is read as what it means, with a recoverable error if its version or expiry time is no number, and the stream goes on behind it, if and only if its line is not too long and its size is that of its contents |
| CommandLaws.CommandRoundTripIff | assign4/fs/msg.go:106-194 | a read, write, compare-and-swap or delete printed from a message with a plain file name and 64-bit fields is read back as that message, whatever follows, if and only if it fits in that sense |
| CommandLaws.NamesFit | assign4/fs/msg.go:12 | every file name of at most 433 bytes leaves room for the numbers |
| CommandLaws.MixedStream | assign4/fs/msg.go:56-65 | any sequence of responses and commands, recoverable errors among them, is read piece by piece as what it means |
| CommandLaws.RedirectionExactly | assign4/server_main.go:110-116 | the line of a redirection is the keyword and the address, and the parser finds it a fatal error behind which the stream goes on |
| WireService.AnswersReadable | assign4/fs/fs.go:32-144 | every answer of the file store is read back by the client as it was |
| WireService.StaysSendable | assign4/fs/msg.go:176-179 | no message the parser takes makes a later answer unreadable, until the versions run out |
| WireStreams.FillLine | assign4/fs/msg.go:196-216 | the loop over the buffer computes the line and advances the reader past it |
| WireStreams.Validation.ToInt | assign4/fs/msg.go:91-105 | the value and how the shared error variables change |
| WireStreams.ParseFields | assign4/fs/msg.go:106-173 | computes the header, error or panic of the fields |
| WireStreams.ParseSecond | assign4/fs/msg.go:176-194 | computes the contents, error or panic, and advances the reader |
| WireStreams.GetMsg | assign4/fs/msg.go:56-65 | computes the parse, and leaves the reader at its rest |
| WireStreams.Reply | assign4/server_main.go:87-125 | reports success if and only if the whole response was written; what was written is a prefix of it |

## Left out

- ListenCommitChannel: the source loops for ever; the model handles any finite stream of notices, with the set of registered clients fixed while it does.
- ReplicaAgreement: rests on `Get` returning the committed command, which a spoilt log file need not do (`LogFile.FileIsLogIff`).
- ProcessEvent: requires what the handlers index to be in range, which Safety.RunNeverPanics proves of every run in which stale success replies are held back; an event of unknown type is not modelled.
- Reply: a connection is a bound on how many bytes it still takes; other effects of a failed write are not modelled.
- Runs with restarts, apart from the one of `Restarts.RestartSplits`, and the bytes of the two files: the log file is a sequence of entries, the state file one of lines.
- Liveness and time: durations of timers, random timeouts and clocks. A timeout is an event that may come at any moment, an expiry a delete that may come at any later moment.
- The order in which goroutines take locks, channel capacities, and the answer that a client waits for in vain.
- `serve`, which dispatches parsed messages to the log or to a local read, and client registration.
- Sockets, gob encoding, JSON configuration and the cluster library; a message for a node is a value on its link.
- `PendingRequest`, whose callers are commented out, printing helpers and client utilities.
- assign1, assign2 and the rest of assign3, which are earlier drafts; of assign3 only the plain merge is used.
