/** What the parser takes off a stream, exactly, and that it takes back what the printer wrote. */
module WireLaws {
  import opened Commands
  import opened Numbers
  import opened Wire

  // ----- lines

  lemma {:induction false} LineTaken(text: string, rest: string, count: nat)
    requires '\r' !in text && count + |text| <= MAX_FIRST_LINE_SIZE
    ensures FillLine(text + CRLF + rest, count) == Line(text, rest)
  {
    var input := text + CRLF + rest;
    if text == "" {
      assert input[0] == '\r' && input[1] == '\n' && input[2..] == rest;
    } else {
      LineTaken(text[1..], rest, count + 1);
      assert input[1..] == text[1..] + CRLF + rest;
    }
  }

  lemma {:induction false} LineIs(input: string, count: nat)
    requires FillLine(input, count).Line? && count <= MAX_FIRST_LINE_SIZE
    ensures var line := FillLine(input, count);
      && input == line.text + CRLF + line.rest
      && '\r' !in line.text && count + |line.text| <= MAX_FIRST_LINE_SIZE
  {
    if input[0] == '\r' {
      assert input == CRLF + input[2..];
    } else {
      LineIs(input[1..], count + 1);
      var line := FillLine(input[1..], count + 1);
      assert input == [input[0]] + input[1..];
      ConsLine(input[0], line.text, line.rest);
    }
  }

  lemma ConsLine(c: char, text: string, rest: string)
    ensures [c] + (text + CRLF + rest) == ([c] + text) + CRLF + rest
  {}

  predicate IsLine(text: string) {
    '\r' !in text && |text| <= MAX_FIRST_LINE_SIZE
  }

  /** A line is taken exactly when the stream starts with at most 500 bytes other than CR and a CRLF. */
  lemma {:induction false} LineExactly(input: string, text: string, rest: string)
    ensures FillLine(input, 0) == Line(text, rest) <==> IsLine(text) && input == text + CRLF + rest
  {
    if FillLine(input, 0) == Line(text, rest) { LineIs(input, 0); }
    if IsLine(text) && input == text + CRLF + rest { LineTaken(text, rest, 0); }
  }

  /** What is left of a stream that is no line. */
  lemma {:induction false} BrokenLine(text: string, tail: string, count: nat)
    requires '\r' !in text && count + |text| <= MAX_FIRST_LINE_SIZE
    ensures tail == "" || tail == "\r" ==> FillLine(text + tail, count) == NoLine("")
    ensures |tail| >= 2 && tail[0] == '\r' && tail[1] != '\n' ==> FillLine(text + tail, count) == NoLine(tail[2..])
    ensures count + |text| == MAX_FIRST_LINE_SIZE && tail != "" && tail[0] != '\r' ==>
      FillLine(text + tail, count) == NoLine(tail[1..])
  {
    if text == "" {
      assert text + tail == tail;
    } else {
      BrokenLine(text[1..], tail, count + 1);
      assert (text + tail)[1..] == text[1..] + tail;
    }
  }

  // ----- messages

  /** What follows the first line of a message. */
  function Payload(msg: Msg): string {
    if HasContents(msg.kind) then msg.contents + CRLF else ""
  }

  /** `text` is a first line of the message, whose contents are of the size it announces. */
  predicate Announces(clientId: int, text: string, msg: Msg, msgerr: bool) {
    && IsLine(text)
    && Interpret(clientId, Fields(text)) == Header(msg.(contents := ""), msgerr)
    && (if HasContents(msg.kind) then |msg.contents| == msg.numbytes <= MAX_CONTENT_SIZE else msg.contents == "")
  }

  predicate Framed(clientId: int, input: string, text: string, msg: Msg, msgerr: bool, rest: string) {
    Announces(clientId, text, msg, msgerr) && input == text + CRLF + Payload(msg) + rest
  }

  lemma InterpretHasNoContents(clientId: int, f: seq<string>)
    ensures var h := Interpret(clientId, f);
      h.Header? ==> h.msg.contents == "" && h.msg.clientId == clientId && h.msg.kind in "rwcdCOVFMI"
  {}

  lemma ContentsExactly(input: string, numbytes: int, bytes: string, rest: string)
    ensures ParseSecond(input, numbytes) == Contents(bytes, rest) <==>
      |bytes| == numbytes <= MAX_CONTENT_SIZE && input == bytes + CRLF + rest
  {
    if ParseSecond(input, numbytes) == Contents(bytes, rest) {
      assert input == input[..numbytes] + CRLF + input[numbytes + 2..];
    }
    if |bytes| == numbytes <= MAX_CONTENT_SIZE && input == bytes + CRLF + rest {
      assert input[..numbytes] == bytes && input[numbytes + 2..] == rest;
    }
  }

  lemma GotIsFramed(clientId: int, input: string, msg: Msg, msgerr: bool, rest: string) returns (text: string)
    requires GetMsg(clientId, input) == Got(msg, msgerr, rest)
    ensures Framed(clientId, input, text, msg, msgerr, rest)
  {
    hide FillLine, Interpret, Fields, ParseSecond;
    var line := FillLine(input, 0);
    text := line.text;
    LineExactly(input, text, line.rest);
    InterpretHasNoContents(clientId, Fields(text));
    if HasContents(msg.kind) {
      ContentsExactly(line.rest, msg.numbytes, msg.contents, rest);
      assert text + CRLF + (msg.contents + CRLF + rest) == text + CRLF + Payload(msg) + rest;
    } else {
      assert text + CRLF + Payload(msg) + rest == text + CRLF + rest;
    }
  }

  lemma FramedIsGot(clientId: int, input: string, text: string, msg: Msg, msgerr: bool, rest: string)
    requires Framed(clientId, input, text, msg, msgerr, rest)
    ensures GetMsg(clientId, input) == Got(msg, msgerr, rest)
  {
    hide FillLine, Interpret, Fields, ParseSecond;
    assert text + CRLF + Payload(msg) + rest == text + CRLF + (Payload(msg) + rest);
    LineExactly(input, text, Payload(msg) + rest);
    if HasContents(msg.kind) {
      ContentsExactly(Payload(msg) + rest, msg.numbytes, msg.contents, rest);
    } else {
      assert Payload(msg) + rest == rest;
    }
  }

  /** Resynchronisation. Without a fatal error GetMsg has consumed exactly the first line with its
      CRLF and, for the kinds w, c and C, `numbytes + 2` bytes more; and whatever has that form it takes. */
  lemma GotExactly(clientId: int, input: string, msg: Msg, msgerr: bool, rest: string)
    ensures GetMsg(clientId, input) == Got(msg, msgerr, rest) <==>
      exists text :: Framed(clientId, input, text, msg, msgerr, rest)
  {
    if GetMsg(clientId, input) == Got(msg, msgerr, rest) {
      var text := GotIsFramed(clientId, input, msg, msgerr, rest);
    }
    if text :| Framed(clientId, input, text, msg, msgerr, rest) {
      FramedIsGot(clientId, input, text, msg, msgerr, rest);
    }
  }

  /** What follows a message has no influence on it. */
  lemma NextStartsAfresh(clientId: int, input: string, msg: Msg, msgerr: bool, rest: string, other: string)
    requires GetMsg(clientId, input) == Got(msg, msgerr, rest)
    ensures |rest| <= |input| && input[|input| - |rest|..] == rest
    ensures GetMsg(clientId, input[..|input| - |rest|] + other) == Got(msg, msgerr, other)
  {
    hide GetMsg, Announces, Payload;
    var text := GotIsFramed(clientId, input, msg, msgerr, rest);
    var used := text + CRLF + Payload(msg);
    assert input == used + rest && input[..|input| - |rest|] == used;
    FramedIsGot(clientId, used + other, text, msg, msgerr, other);
  }

  // ----- crashes

  /** The line makes parseFirst index a field that is not there, or parseSecond use a negative size;
      size -1 at the end of the stream is a fatal error instead. */
  predicate CrashLine(clientId: int, text: string, rest: string) {
    var h := Interpret(clientId, Fields(text));
    || Fields(text) == []
    || Fields(text) == ["delete"]
    || (h.Header? && HasContents(h.msg.kind) && h.msg.numbytes < 0 && (h.msg.numbytes != -1 || rest != ""))
  }

  lemma CrashedHeaders(clientId: int, f: seq<string>)
    ensures Interpret(clientId, f).CrashedHeader? <==> f == [] || f == ["delete"]
  {}

  /** The parser panics exactly on a blank line, on `delete` without a name, and on a negative size that
      is not -1 at the end of the stream. */
  lemma CrashExactly(clientId: int, input: string)
    ensures GetMsg(clientId, input) == Crash <==>
      exists text, rest :: IsLine(text) && input == text + CRLF + rest && CrashLine(clientId, text, rest)
  {
    hide FillLine, Interpret, Fields;
    if GetMsg(clientId, input) == Crash {
      var line := FillLine(input, 0);
      LineExactly(input, line.text, line.rest);
      CrashedHeaders(clientId, Fields(line.text));
      assert CrashLine(clientId, line.text, line.rest);
    }
    if text, rest :| IsLine(text) && input == text + CRLF + rest && CrashLine(clientId, text, rest) {
      LineExactly(input, text, rest);
      CrashedHeaders(clientId, Fields(text));
    }
  }

  // ----- the round trip

  /** What of a message a response shows, to the client `clientId` that reads it. */
  function Visible(m: Msg, clientId: int): Msg {
    Msg(m.kind, clientId, "", if m.kind == 'C' then m.contents else "",
        if m.kind == 'C' then m.numbytes else 0, if m.kind == 'C' then m.exptime else 0,
        if m.kind in {'C', 'O', 'V'} then m.version else 0)
  }

  /** The integer fields are values of Go's int. */
  predicate InRange(m: Msg) {
    Int64(m.version) && Int64(m.numbytes) && Int64(m.exptime)
  }

  /** A response the parser understands: no redirection, no negative version after OK, which prints
      none, and contents of the announced size within the limit. */
  predicate Readable(m: Msg) {
    && m.kind in {'C', 'O', 'F', 'V', 'M', 'I'}
    && (m.kind == 'O' ==> m.version >= 0)
    && (m.kind == 'C' ==> |m.contents| == m.numbytes <= MAX_CONTENT_SIZE)
  }

  /** The words of a response's first line. */
  function Words(m: Msg): seq<string>
    requires Readable(m)
  {
    match m.kind
    case 'C' => ["CONTENTS", Itoa(m.version), Itoa(m.numbytes), Itoa(m.exptime)]
    case 'O' => if m.version > 0 then ["OK", Itoa(m.version)] else ["OK"]
    case 'V' => ["ERR_VERSION", Itoa(m.version)]
    case 'F' => ["ERR_FILE_NOT_FOUND"]
    case 'M' => ["ERR_CMD_ERR"]
    case _ => ["ERR_INTERNAL"]
  }

  lemma WordsPlain(m: Msg, i: nat)
    requires Readable(m) && i < |Words(m)|
    ensures Plain(Words(m)[i])
  {
    ItoaPlain(m.version);
    ItoaPlain(m.numbytes);
    ItoaPlain(m.exptime);
  }

  lemma JoinedFour(a: string, b: string, c: string, d: string)
    ensures Joined([a, b, c, d]) == a + " " + b + " " + c + " " + d
  {
    assert [a, b, c, d][1..] == [b, c, d] && [b, c, d][1..] == [c, d] && [c, d][1..] == [d];
    assert Joined([c, d]) == c + (" " + d);
    assert Joined([b, c, d]) == b + (" " + (c + (" " + d)));
    assert Joined([a, b, c, d]) == a + (" " + (b + (" " + (c + (" " + d)))));
  }

  lemma JoinedTwo(a: string, b: string)
    ensures Joined([a, b]) == a + " " + b
  {
    assert [a, b][1..] == [b];
  }

  lemma FieldsOfOK()
    ensures Fields("OK ") == ["OK"]
  {
    FieldsWord("OK", " ");
    FieldsBlank("");
    assert "OK" + " " == "OK " && " " + "" == " ";
  }

  lemma HeadlineFields(m: Msg)
    requires Readable(m)
    ensures Fields(Headline(m)) == Words(m)
  {
    hide Plain, Fields, Itoa, Joined;
    forall i | 0 <= i < |Words(m)| ensures Plain(Words(m)[i]) { WordsPlain(m, i); }
    FieldsJoined(Words(m));
    if m.kind == 'C' {
      JoinedFour("CONTENTS", Itoa(m.version), Itoa(m.numbytes), Itoa(m.exptime));
      assert Headline(m) == "CONTENTS" + " " + Itoa(m.version) + " " + Itoa(m.numbytes) + " " + Itoa(m.exptime);
    } else if m.kind == 'V' {
      JoinedTwo("ERR_VERSION", Itoa(m.version));
      assert Headline(m) == "ERR_VERSION" + " " + Itoa(m.version);
    } else if m.kind == 'O' && m.version > 0 {
      JoinedTwo("OK", Itoa(m.version));
      assert Headline(m) == "OK" + " " + Itoa(m.version);
    } else if m.kind == 'O' {
      FieldsOfOK();
      assert Headline(m) == "OK ";
    } else {
      OneWord(Headline(m));
    }
  }

  lemma OneWord(w: string)
    ensures Joined([w]) == w
  {}

  lemma HeadlineIsLine(m: Msg)
    requires Readable(m) && InRange(m)
    ensures IsLine(Headline(m))
  {
    ItoaShort(m.version);
    ItoaShort(m.numbytes);
    ItoaShort(m.exptime);
    hide Itoa;
  }

  lemma HeadlineAnnounces(m: Msg, clientId: int)
    requires Readable(m) && InRange(m)
    ensures Announces(clientId, Headline(m), Visible(m, clientId), false)
  {
    hide Headline, Itoa, Atoi, Fields;
    HeadlineIsLine(m);
    HeadlineFields(m);
    AtoiItoa(m.version);
    AtoiItoa(m.numbytes);
    AtoiItoa(m.exptime);
  }

  lemma ReadableRoundTrip(m: Msg, clientId: int, rest: string)
    requires Readable(m) && InRange(m)
    ensures GetMsg(clientId, Printed(m) + rest) == Got(Visible(m, clientId), false, rest)
  {
    hide Headline, GetMsg, Announces;
    HeadlineAnnounces(m, clientId);
    assert Printed(m) == Headline(m) + CRLF + Payload(Visible(m, clientId));
    FramedIsGot(clientId, Printed(m) + rest, Headline(m), Visible(m, clientId), false, rest);
  }

  /** After OK a version that is not positive is not printed, and read as 0. */
  lemma UnprintedVersion(m: Msg, clientId: int, rest: string)
    requires m.kind == 'O' && m.version < 0 && InRange(m)
    ensures GetMsg(clientId, Printed(m) + rest) == Got(Visible(m, clientId).(version := 0), false, rest)
  {
    hide GetMsg;
    ReadableRoundTrip(m.(version := 0), clientId, rest);
    assert Printed(m) == Printed(m.(version := 0));
  }

  /** A printed response is read back as it was, whatever follows it, exactly when it is readable. */
  lemma RoundTripIff(m: Msg, clientId: int, rest: string)
    requires InRange(m)
    ensures GetMsg(clientId, Printed(m) + rest) == Got(Visible(m, clientId), false, rest) <==> Readable(m)
  {
    hide GetMsg, Headline, Interpret, Fields, IsLine;
    if Readable(m) {
      ReadableRoundTrip(m, clientId, rest);
    } else if m.kind == 'O' {
      UnprintedVersion(m, clientId, rest);
    } else if GetMsg(clientId, Printed(m) + rest) == Got(Visible(m, clientId), false, rest) {
      var text := GotIsFramed(clientId, Printed(m) + rest, Visible(m, clientId), false, rest);
      InterpretHasNoContents(clientId, Fields(text));
      assert false;
    }
  }

  // ----- streams

  /** The messages taken by `n` calls of GetMsg, and what they leave of the stream. */
  datatype ReadBack = ReadBack(msgs: seq<Msg>, rest: string) | Broken

  function TakeAll(clientId: int, input: string, n: nat): ReadBack
    decreases n
  {
    if n == 0 then ReadBack([], input)
    else match GetMsg(clientId, input)
      case Got(msg, msgerr, rest) =>
        if msgerr then Broken
        else (match TakeAll(clientId, rest, n - 1)
              case Broken => Broken
              case ReadBack(msgs, left) => ReadBack([msg] + msgs, left))
      case _ => Broken
  }

  function PrintAll(ms: seq<Msg>): string {
    if ms == [] then "" else Printed(ms[0]) + PrintAll(ms[1..])
  }

  function VisibleAll(ms: seq<Msg>, clientId: int): seq<Msg> {
    seq(|ms|, i requires 0 <= i < |ms| => Visible(ms[i], clientId))
  }

  /** Any sequence of readable responses printed one after the other is read back as it was. */
  lemma {:induction false} StreamRoundTrip(ms: seq<Msg>, clientId: int, rest: string)
    requires forall i :: 0 <= i < |ms| ==> Readable(ms[i]) && InRange(ms[i])
    ensures TakeAll(clientId, PrintAll(ms) + rest, |ms|) == ReadBack(VisibleAll(ms, clientId), rest)
  {
    hide GetMsg, Printed, Visible, InRange;
    if ms == [] {
      assert PrintAll(ms) + rest == rest;
    } else {
      ReadableRoundTrip(ms[0], clientId, PrintAll(ms[1..]) + rest);
      assert PrintAll(ms) + rest == Printed(ms[0]) + (PrintAll(ms[1..]) + rest);
      StreamRoundTrip(ms[1..], clientId, rest);
      assert VisibleAll(ms, clientId) == [Visible(ms[0], clientId)] + VisibleAll(ms[1..], clientId);
    }
  }
}
