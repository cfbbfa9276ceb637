/** The parser and the printer in the source's own form: a reader that advances, a line buffer that
    is filled, error variables that closures assign, and a connection that is written to in order
    (assign4/fs/msg.go:56-216, assign4/server_main.go:87-125). */
module WireStreams {
  import opened Commands
  import opened Numbers
  import opened Wire

  /** A bufio.Reader: the bytes not yet read. When they run out every read reports an error. */
  class Reader {
    var rest: string

    method ReadByte() returns (c: char, err: bool)
      modifies this
      ensures err == (old(rest) == "")
      ensures !err ==> c == old(rest)[0] && rest == old(rest)[1..]
      ensures err ==> rest == ""
    {
      err := rest == "";
      c := 0 as char;
      if !err {
        c := rest[0];
        rest := rest[1..];
      }
    }

    /** io.ReadFull into a buffer of the given size. */
    method ReadFull(size: nat) returns (buf: string, err: bool)
      modifies this
      ensures err == (|old(rest)| < size)
      ensures !err ==> buf == old(rest)[..size] && rest == old(rest)[size..]
      ensures err ==> rest == ""
    {
      err := |rest| < size;
      if err {
        buf, rest := rest, "";
      } else {
        buf, rest := rest[..size], rest[size..];
      }
    }
  }

  /** The line that starts with `front` and goes on as `line`. */
  function Prefixed(front: string, line: Line): Line {
    if line.Line? then Line(front + line.text, line.rest) else line
  }

  /** assign4/fs/msg.go:196-216 */
  method FillLine(buf: array<char>, reader: Reader) returns (line: Line)
    requires buf.Length == MAX_FIRST_LINE_SIZE
    modifies buf, reader
    ensures line == Wire.FillLine(old(reader.rest), 0) && reader.rest == line.rest
  {
    var count := 0;
    while true
      invariant 0 <= count <= buf.Length
      invariant Wire.FillLine(old(reader.rest), 0) == Prefixed(buf[..count], Wire.FillLine(reader.rest, count))
      decreases |reader.rest|
    {
      ghost var front, input := buf[..count], reader.rest;
      var c, err := reader.ReadByte();
      if err {
        return NoLine(reader.rest);
      }
      if c == '\r' {
        c, err := reader.ReadByte();
        if err || c != '\n' {
          return NoLine(reader.rest);
        }
        assert buf[..count] + "" == buf[..count];
        return Line(buf[..count], reader.rest);
      }
      if count >= buf.Length {
        return NoLine(reader.rest);
      }
      buf[count] := c;
      count := count + 1;
      assert buf[..count] == front + [c];
      OneByteMore(front, input, count - 1);
    }
  }

  lemma {:induction false} OneByteMore(front: string, input: string, count: nat)
    requires input != "" && input[0] != '\r' && count < MAX_FIRST_LINE_SIZE
    ensures Prefixed(front, Wire.FillLine(input, count)) ==
      Prefixed(front + [input[0]], Wire.FillLine(input[1..], count + 1))
  {
    var line := Wire.FillLine(input[1..], count + 1);
    if line.Line? { assert front + ([input[0]] + line.text) == front + [input[0]] + line.text; }
  }

  /** The error variables of parseFirst and the closures that share them. */
  class Validation {
    const fields: seq<string>
    var err: bool
    var msgerr: bool
    var fatalerr: bool

    constructor (f: seq<string>)
      ensures fields == f && !err && !msgerr && !fatalerr
    {
      fields := f;
      err, msgerr, fatalerr := false, false, false;
    }

    method CheckN(min: nat)
      modifies this
      ensures !old(err) ==> err == (|fields| < min) && fatalerr == (old(fatalerr) || |fields| < min)
      ensures old(err) ==> err && fatalerr == old(fatalerr)
      ensures msgerr == old(msgerr)
    {
      if err {
        return;
      }
      if |fields| < min {
        err := true;
        fatalerr := err;
      }
    }

    method ToInt(fieldnum: nat, recoverable: bool) returns (i: int)
      requires !fatalerr ==> fieldnum < |fields|
      modifies this
      ensures old(fatalerr) ==> i == 0 && fatalerr && msgerr == old(msgerr)
      ensures !old(fatalerr) ==> var n := Atoi(fields[fieldnum]);
        && i == n.value
        && msgerr == (old(msgerr) || (!n.ok && recoverable))
        && fatalerr == (!n.ok && !recoverable)
    {
      if fatalerr {
        return 0;
      }
      var n := Atoi(fields[fieldnum]);
      i, err := n.value, !n.ok;
      if err {
        if recoverable {
          msgerr := err;
        } else {
          fatalerr := err;
        }
      }
    }
  }

  /** assign4/fs/msg.go:106-173, on the fields of a line that is not blank. */
  method ParseFields(clientId: int, fields: seq<string>) returns (h: Header)
    requires fields != [] && forall i :: 0 <= i < |fields| ==> fields[i] != ""
    ensures h == Interpret(clientId, fields)
  {
    var v := new Validation(fields);
    var version, numbytes, exptime, response := 0, 0, 0, false;
    var kind := 0 as char;
    match fields[0] {
      case "read" =>
        v.CheckN(2);
      case "write" =>
        v.CheckN(3);
        numbytes := v.ToInt(2, false);
        if |fields| >= 4 {
          exptime := v.ToInt(3, true);
        }
      case "cas" =>
        v.CheckN(4);
        version := v.ToInt(2, true);
        numbytes := v.ToInt(3, false);
        if |fields| == 5 {
          exptime := v.ToInt(4, true);
        }
      case "delete" =>
        v.CheckN(1);
      case "CONTENTS" =>
        v.CheckN(4);
        version := v.ToInt(1, true);
        numbytes := v.ToInt(2, false);
        exptime := v.ToInt(3, true);
        response := true;
      case "OK" =>
        v.CheckN(1);
        if |fields| > 1 {
          version := v.ToInt(1, true);
        }
        response := true;
      case "ERR_VERSION" =>
        v.CheckN(2);
        version := v.ToInt(1, true);
        kind, response := 'V', true;
      case "ERR_FILE_NOT_FOUND" =>
        kind, response := 'F', true;
      case "ERR_CMD_ERR" =>
        kind, response := 'M', true;
      case "ERR_INTERNAL" =>
        kind, response := 'I', true;
      case _ =>
        v.fatalerr := true;
    }
    if v.fatalerr {
      return FatalHeader;
    }
    if kind == 0 as char {
      kind := fields[0][0];
    }
    var filename := "";
    if !response {
      if |fields| < 2 {
        return CrashedHeader;
      }
      filename := fields[1];
    }
    return Header(Msg(kind, clientId, filename, "", numbytes, exptime, version), v.msgerr);
  }

  /** assign4/fs/msg.go:176-194 */
  method ParseSecond(reader: Reader, numbytes: int) returns (c: Contents)
    modifies reader
    ensures c == Wire.ParseSecond(old(reader.rest), numbytes)
    ensures !c.CrashedContents? ==> reader.rest == c.rest
  {
    if numbytes > MAX_CONTENT_SIZE {
      return NoContents(reader.rest);
    }
    if numbytes + 2 < 0 {
      return CrashedContents;
    }
    var buf, err := reader.ReadFull(numbytes + 2);
    if err {
      return NoContents(reader.rest);
    }
    var last := |buf| - 1;
    if last < 1 {
      return CrashedContents;
    }
    if !(buf[last - 1] == '\r' && buf[last] == '\n') {
      return NoContents(reader.rest);
    }
    return Contents(buf[..numbytes], reader.rest);
  }

  /** assign4/fs/msg.go:56-65 */
  method GetMsg(clientId: int, reader: Reader) returns (r: Parse)
    modifies reader
    ensures r == Wire.GetMsg(clientId, old(reader.rest))
    ensures !r.Crash? ==> reader.rest == r.rest
  {
    hide Wire.FillLine, Interpret, Fields, Wire.ParseSecond;
    var buf := new char[MAX_FIRST_LINE_SIZE];
    var line := FillLine(buf, reader);
    if line.NoLine? {
      return Fatal(reader.rest);
    }
    var fields := Fields(line.text);
    if fields == [] {
      BlankCrashes(clientId);
      return Crash;
    }
    var h := ParseFields(clientId, fields);
    match h {
      case CrashedHeader => return Crash;
      case FatalHeader => return Fatal(reader.rest);
      case Header(msg, msgerr) =>
        if msg.kind == 'w' || msg.kind == 'c' || msg.kind == 'C' {
          var c := ParseSecond(reader, msg.numbytes);
          match c {
            case CrashedContents => return Crash;
            case NoContents(_) => return Fatal(reader.rest);
            case Contents(bytes, _) => return Got(msg.(contents := bytes), msgerr, reader.rest);
          }
        } else {
          return Got(msg, msgerr, reader.rest);
        }
    }
  }

  lemma BlankCrashes(clientId: int)
    ensures Interpret(clientId, []) == CrashedHeader
  {}

  /** A connection that accepts `room` more bytes before its writes fail. */
  class Conn {
    var out: string
    var room: nat

    method Write(data: string) returns (err: bool)
      modifies this
      ensures err == (|data| > old(room))
      ensures out == old(out) + (if err then data[..old(room)] else data)
      ensures room == if err then 0 else old(room) - |data|
    {
      err := |data| > room;
      if err {
        out, room := out + data[..room], 0;
      } else {
        out, room := out + data, room - |data|;
      }
    }
  }

  /** assign4/server_main.go:87-125. It reports success exactly when the whole response was written;
      in every case what was written is a part of it from the start. */
  method Reply(conn: Conn, msg: Msg) returns (ok: bool)
    modifies conn
    ensures ok <==> IsResponse(msg.kind) && |Printed(msg)| <= old(conn.room)
    ensures ok ==> conn.out == old(conn.out) + Printed(msg)
    ensures |old(conn.out)| <= |conn.out| && conn.out <= old(conn.out) + Printed(msg)
  {
    if !IsResponse(msg.kind) {
      return false;
    }
    hide Itoa;
    var resp := RespFor(msg);
    resp := resp + CRLF;
    var err := conn.Write(resp);
    if msg.kind == 'C' {
      if !err {
        err := conn.Write(msg.contents);
      }
      if !err {
        err := conn.Write(CRLF);
      }
    }
    ok := !err;
  }

  method RespFor(msg: Msg) returns (resp: string)
    requires IsResponse(msg.kind)
    ensures resp == Headline(msg)
  {
    match msg.kind {
      case 'C' =>
        resp := "CONTENTS " + Itoa(msg.version) + " " + Itoa(msg.numbytes) + " " + Itoa(msg.exptime);
      case 'O' =>
        resp := "OK ";
        if msg.version > 0 {
          resp := resp + Itoa(msg.version);
        }
      case 'F' => resp := "ERR_FILE_NOT_FOUND";
      case 'V' => resp := "ERR_VERSION " + Itoa(msg.version);
      case 'M' => resp := "ERR_CMD_ERR";
      case 'I' => resp := "ERR_INTERNAL";
      case _ => resp := "ERR_REDIRECT " + msg.contents;
    }
  }
}
