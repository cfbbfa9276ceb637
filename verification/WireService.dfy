/** Clients can read whatever the file store answers. */
module WireService {
  import opened Commands
  import opened Numbers
  import opened Wire
  import opened WireLaws
  import opened FileStore

  /** Contents within the limit of the wire format, and versions that a Go int can count. */
  predicate Sendable(st: Store) {
    && 0 <= st.gversion < MAX_INT
    && forall n :: n in st.files ==>
         |st.files[n].contents| <= MAX_CONTENT_SIZE && 0 <= st.files[n].version <= st.gversion
  }

  /** Every answer of such a store, printed, is read back as it was; only a delete by a timer has none. */
  lemma AnswersReadable(st: Store, msg: Msg, clientId: int, rest: string)
    requires Sendable(st)
    ensures match Process(st, msg).response
            case Reply(r) => GetMsg(clientId, Printed(r) + rest) == Got(Visible(r, clientId), false, rest)
            case NoReply => msg.kind == 'd' && msg.version > 0
  {
    hide Process, GetMsg, Printed, Visible;
    AnswerIsReadable(st, msg);
    var response := Process(st, msg).response;
    if response.Reply? { RoundTripIff(response.msg, clientId, rest); }
  }

  lemma AnswerIsReadable(st: Store, msg: Msg)
    requires Sendable(st)
    ensures match Process(st, msg).response
            case Reply(r) => Readable(r) && InRange(r)
            case NoReply => msg.kind == 'd' && msg.version > 0
  {}

  /** A store stays sendable under every message that GetMsg takes, until the versions run out. */
  lemma StaysSendable(st: Store, clientId: int, input: string, msg: Msg, msgerr: bool, rest: string)
    requires Sendable(st) && GetMsg(clientId, input) == Got(msg, msgerr, rest)
    ensures var st' := Process(st, msg).store; Sendable(st') <==> st'.gversion < MAX_INT
  {
    var text := GotIsFramed(clientId, input, msg, msgerr, rest);
    assert |msg.contents| <= MAX_CONTENT_SIZE;
  }
}
