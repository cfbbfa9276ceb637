/** The message record of assign4/fs/msg.go, shared by the file store, the wire format and,
    as the command carried by a log entry, the Raft state machine. A byte is written as the
    character of the same code, so a Go byte slice is a `string`. */
module Commands {

  datatype Msg = Msg(
    kind: char,
    clientId: int,
    filename: string,
    contents: string,
    numbytes: int,
    exptime: int,
    version: int)

  /** A message of the given kind whose other fields hold Go's zero values. */
  function Bare(kind: char): Msg {
    Msg(kind, 0, "", "", 0, 0, 0)
  }
}
