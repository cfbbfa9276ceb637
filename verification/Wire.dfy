/** The wire format: GetMsg, which takes one message off a stream of bytes (assign4/fs/msg.go), and
    the responses that `reply` prints (assign4/server_main.go:87-125), as functions on strings. */
module Wire {
  import opened Commands
  import opened Numbers

  const MAX_FIRST_LINE_SIZE := 500
  const MAX_CONTENT_SIZE := 0x1_0000_0000
  const CRLF := ['\r', '\n']

  // ----- framing

  /** A line and what follows its CRLF, or a fatal error and what is left of the stream. */
  datatype Line = Line(text: string, rest: string) | NoLine(rest: string)

  /** fillLine, when `count` bytes are in the buffer; they are not part of the result's text. */
  function FillLine(input: string, count: nat): Line {
    if input == "" then NoLine("")
    else if input[0] == '\r' then
      if |input| == 1 then NoLine("")
      else if input[1] != '\n' then NoLine(input[2..])
      else Line("", input[2..])
    else if count >= MAX_FIRST_LINE_SIZE then NoLine(input[1..])
    else
      match FillLine(input[1..], count + 1)
      case NoLine(rest) => NoLine(rest)
      case Line(text, rest) => Line([input[0]] + text, rest)
  }

  /** What a read of contents comes to. A Go slice or index expression out of range is a Crash. */
  datatype Contents = Contents(bytes: string, rest: string) | NoContents(rest: string) | CrashedContents

  /** parseSecond: `make` panics below length 0, and the check for CRLF indexes the last two bytes. */
  function ParseSecond(input: string, numbytes: int): Contents {
    if numbytes > MAX_CONTENT_SIZE then NoContents(input)
    else if numbytes + 2 < 0 then CrashedContents
    else if |input| < numbytes + 2 then NoContents("")
    else if numbytes < 0 then CrashedContents
    else if input[numbytes] == '\r' && input[numbytes + 1] == '\n' then
      Contents(input[..numbytes], input[numbytes + 2..])
    else NoContents(input[numbytes + 2..])
  }

  // ----- the first line

  /** A message without contents and whether it has a recoverable error, a fatal error, or a panic. */
  datatype Header = Header(msg: Msg, msgerr: bool) | FatalHeader | CrashedHeader

  /** Field `i` of a line that has it, and else the zero of a field that is not there. */
  function OptionalInt(fields: seq<string>, present: bool, i: nat): Number
    requires present ==> i < |fields|
  {
    if present then Atoi(fields[i]) else Number(0, true)
  }

  /** A command or response whose contents have `numbytes` bytes, which must be readable. */
  function Sized(kind: char, clientId: int, filename: string, numbytes: Number, exptime: Number, version: Number)
      : Header {
    if !numbytes.ok then FatalHeader
    else Header(Msg(kind, clientId, filename, "", numbytes.value, exptime.value, version.value),
                !exptime.ok || !version.ok)
  }

  /** parseFirst, on the fields of the line. */
  function Interpret(clientId: int, f: seq<string>): Header {
    var zero := Number(0, true);
    if f == [] then CrashedHeader
    else match f[0]
      case "read" =>
        if |f| < 2 then FatalHeader else Sized('r', clientId, f[1], zero, zero, zero)
      case "write" =>
        if |f| < 3 then FatalHeader
        else Sized('w', clientId, f[1], Atoi(f[2]), OptionalInt(f, |f| >= 4, 3), zero)
      case "cas" =>
        if |f| < 4 then FatalHeader
        else Sized('c', clientId, f[1], Atoi(f[3]), OptionalInt(f, |f| == 5, 4), Atoi(f[2]))
      case "delete" =>
        if |f| < 2 then CrashedHeader else Sized('d', clientId, f[1], zero, zero, zero)
      case "CONTENTS" =>
        if |f| < 4 then FatalHeader else Sized('C', clientId, "", Atoi(f[2]), Atoi(f[3]), Atoi(f[1]))
      case "OK" => Sized('O', clientId, "", zero, zero, OptionalInt(f, |f| > 1, 1))
      case "ERR_VERSION" =>
        if |f| < 2 then FatalHeader else Sized('V', clientId, "", zero, zero, Atoi(f[1]))
      case "ERR_FILE_NOT_FOUND" => Sized('F', clientId, "", zero, zero, zero)
      case "ERR_CMD_ERR" => Sized('M', clientId, "", zero, zero, zero)
      case "ERR_INTERNAL" => Sized('I', clientId, "", zero, zero, zero)
      case _ => FatalHeader
  }

  /** The kinds followed by contents. */
  predicate HasContents(kind: char) {
    kind == 'w' || kind == 'c' || kind == 'C'
  }

  /** A message taken off the stream, a fatal error, or a panic of the server's goroutine. */
  datatype Parse = Got(msg: Msg, msgerr: bool, rest: string) | Fatal(rest: string) | Crash

  function GetMsg(clientId: int, input: string): Parse {
    match FillLine(input, 0)
    case NoLine(rest) => Fatal(rest)
    case Line(text, rest) =>
      match Interpret(clientId, Fields(text))
      case CrashedHeader => Crash
      case FatalHeader => Fatal(rest)
      case Header(msg, msgerr) =>
        if !HasContents(msg.kind) then Got(msg, msgerr, rest)
        else match ParseSecond(rest, msg.numbytes)
          case CrashedContents => Crash
          case NoContents(left) => Fatal(left)
          case Contents(bytes, left) => Got(msg.(contents := bytes), msgerr, left)
  }

  // ----- responses

  /** The kinds of message that `reply` can print. */
  predicate IsResponse(kind: char) {
    kind in {'C', 'O', 'F', 'V', 'M', 'I', 'R'}
  }

  /** The first line of a response, without its CRLF. */
  function Headline(m: Msg): string
    requires IsResponse(m.kind)
  {
    if m.kind == 'C' then "CONTENTS " + Itoa(m.version) + " " + Itoa(m.numbytes) + " " + Itoa(m.exptime)
    else if m.kind == 'O' then "OK " + (if m.version > 0 then Itoa(m.version) else "")
    else if m.kind == 'F' then "ERR_FILE_NOT_FOUND"
    else if m.kind == 'V' then "ERR_VERSION " + Itoa(m.version)
    else if m.kind == 'M' then "ERR_CMD_ERR"
    else if m.kind == 'I' then "ERR_INTERNAL"
    else "ERR_REDIRECT " + m.contents
  }

  /** All that is printed for a message; nothing if it is no response. */
  function Printed(m: Msg): string {
    if !IsResponse(m.kind) then ""
    else Headline(m) + CRLF + (if m.kind == 'C' then m.contents + CRLF else "")
  }
}
