/** What the parser makes of the commands that clients send, told of the words of their lines. */
module CommandLaws {
  import opened Commands
  import opened Numbers
  import opened Wire
  import opened WireLaws

  // ----- any command line

  /** The first word is none that a line may start with. */
  predicate Unknown(word: string) {
    word !in {"read", "write", "cas", "delete", "CONTENTS", "OK", "ERR_VERSION", "ERR_FILE_NOT_FOUND",
              "ERR_CMD_ERR", "ERR_INTERNAL"}
  }

  /** What comes of a line that announces contents of size `n`: exactly if that many bytes and a CRLF follow,
      the message with these contents, and the stream goes on behind them. If they are too many, too few or
      without CRLF, the error is fatal, with none, all or just so many bytes and two more consumed. */
  ghost predicate TakesContents(out: Parse, msg: Msg, msgerr: bool, n: int, rest: string) {
    && (forall bytes, left ::
          out == Got(msg.(contents := bytes, numbytes := n), msgerr, left) <==>
            |bytes| == n <= MAX_CONTENT_SIZE && rest == bytes + CRLF + left)
    && (n > MAX_CONTENT_SIZE ==> out == Fatal(rest))
    && (0 <= n <= MAX_CONTENT_SIZE && |rest| < n + 2 ==> out == Fatal(""))
    && (0 <= n <= MAX_CONTENT_SIZE && n + 2 <= |rest| && rest[n..n + 2] != CRLF ==> out == Fatal(rest[n + 2..]))
  }

  lemma BrokenContents(rest: string, n: int)
    ensures n > MAX_CONTENT_SIZE ==> ParseSecond(rest, n) == NoContents(rest)
    ensures 0 <= n <= MAX_CONTENT_SIZE && |rest| < n + 2 ==> ParseSecond(rest, n) == NoContents("")
    ensures 0 <= n <= MAX_CONTENT_SIZE && n + 2 <= |rest| && rest[n..n + 2] != CRLF ==>
      ParseSecond(rest, n) == NoContents(rest[n + 2..])
  {
    if 0 <= n && n + 2 <= |rest| && rest[n] == '\r' && rest[n + 1] == '\n' { assert rest[n..n + 2] == CRLF; }
  }

  lemma {:induction false} LineThenContents(clientId: int, text: string, rest: string, msg: Msg, msgerr: bool, n: int)
    requires IsLine(text) && HasContents(msg.kind) && msg.contents == ""
    requires Interpret(clientId, Fields(text)) == Header(msg.(numbytes := n), msgerr)
    ensures TakesContents(GetMsg(clientId, text + CRLF + rest), msg, msgerr, n, rest)
  {
    hide FillLine, Interpret, Fields, ParseSecond;
    LineExactly(text + CRLF + rest, text, rest);
    BrokenContents(rest, n);
    forall bytes, left
      ensures GetMsg(clientId, text + CRLF + rest) == Got(msg.(contents := bytes, numbytes := n), msgerr, left) <==>
        |bytes| == n <= MAX_CONTENT_SIZE && rest == bytes + CRLF + left
    {
      ContentsExactly(rest, n, bytes, left);
    }
  }

  lemma {:induction false} LineAlone(clientId: int, text: string, rest: string)
    requires IsLine(text)
    ensures var h := Interpret(clientId, Fields(text));
      && (h.FatalHeader? ==> GetMsg(clientId, text + CRLF + rest) == Fatal(rest))
      && (h.CrashedHeader? ==> GetMsg(clientId, text + CRLF + rest) == Crash)
      && (h.Header? && !HasContents(h.msg.kind) ==> GetMsg(clientId, text + CRLF + rest) == Got(h.msg, h.msgerr, rest))
  {
    hide FillLine, Interpret, Fields, ParseSecond;
    LineExactly(text + CRLF + rest, text, rest);
  }

  /** A stream that is no line, told from its start without CR: it ends there, goes on with a CR and no LF, or
      is longer than a line may be. The error is fatal, and what was looked at is consumed. */
  lemma BrokenLineExactly(clientId: int, text: string, tail: string)
    requires IsLine(text)
    ensures var out := GetMsg(clientId, text + tail);
      && (tail == "" || tail == "\r" ==> out == Fatal(""))
      && (|tail| >= 2 && tail[0] == '\r' && tail[1] != '\n' ==> out == Fatal(tail[2..]))
      && (|text| == MAX_FIRST_LINE_SIZE && tail != "" && tail[0] != '\r' ==> out == Fatal(tail[1..]))
  {
    hide FillLine, Interpret, Fields, ParseSecond;
    BrokenLine(text, tail, 0);
  }

  /** Lines that read or delete: the second word is the file. Without it a read is a fatal error, a delete
      a panic; and so is any first word that is not known a fatal error. The stream goes on behind the line. */
  lemma {:induction false} PlainLineExactly(clientId: int, text: string, rest: string)
    requires IsLine(text) && Fields(text) != []
    ensures var f, out := Fields(text), GetMsg(clientId, text + CRLF + rest);
      && (f[0] == "read" ==>
            out == if |f| < 2 then Fatal(rest) else Got(Msg('r', clientId, f[1], "", 0, 0, 0), false, rest))
      && (f[0] == "delete" ==>
            out == if |f| < 2 then Crash else Got(Msg('d', clientId, f[1], "", 0, 0, 0), false, rest))
      && (Unknown(f[0]) ==> out == Fatal(rest))
  {
    hide GetMsg, Fields, Atoi;
    LineAlone(clientId, text, rest);
  }

  /** A line that writes: the file, the size, and from four words on the expiry time. Too few words or a
      size that is no number are fatal; an expiry time that is none is an error behind which the stream
      goes on. */
  lemma {:induction false} WriteLineExactly(clientId: int, text: string, rest: string)
    requires IsLine(text) && Fields(text) != [] && Fields(text)[0] == "write"
    ensures var f, out := Fields(text), GetMsg(clientId, text + CRLF + rest);
      if |f| < 3 || !Atoi(f[2]).ok then out == Fatal(rest)
      else
        var expiry := if |f| >= 4 then Atoi(f[3]) else Number(0, true);
        TakesContents(out, Msg('w', clientId, f[1], "", 0, expiry.value, 0), !expiry.ok, Atoi(f[2]).value, rest)
  {
    hide GetMsg, Fields, Atoi, TakesContents;
    LineAlone(clientId, text, rest);
    var f := Fields(text);
    if |f| >= 3 && Atoi(f[2]).ok {
      var expiry := if |f| >= 4 then Atoi(f[3]) else Number(0, true);
      LineThenContents(clientId, text, rest, Msg('w', clientId, f[1], "", 0, expiry.value, 0), !expiry.ok,
                       Atoi(f[2]).value);
    }
  }

  /** A line that compares and swaps: the file, the version, the size, and, if there are five words, the
      expiry time. A version or an expiry time that is no number is an error behind which the stream goes on. */
  lemma {:induction false} CasLineExactly(clientId: int, text: string, rest: string)
    requires IsLine(text) && Fields(text) != [] && Fields(text)[0] == "cas"
    ensures var f, out := Fields(text), GetMsg(clientId, text + CRLF + rest);
      if |f| < 4 || !Atoi(f[3]).ok then out == Fatal(rest)
      else
        var expiry := if |f| == 5 then Atoi(f[4]) else Number(0, true);
        TakesContents(out, Msg('c', clientId, f[1], "", 0, expiry.value, Atoi(f[2]).value),
                      !(expiry.ok && Atoi(f[2]).ok), Atoi(f[3]).value, rest)
  {
    hide GetMsg, Fields, Atoi, TakesContents;
    LineAlone(clientId, text, rest);
    var f := Fields(text);
    if |f| >= 4 && Atoi(f[3]).ok {
      var expiry := if |f| == 5 then Atoi(f[4]) else Number(0, true);
      LineThenContents(clientId, text, rest, Msg('c', clientId, f[1], "", 0, expiry.value, Atoi(f[2]).value),
                       !(expiry.ok && Atoi(f[2]).ok), Atoi(f[3]).value);
    }
  }

  /** Lines of responses: contents with version, size and expiry time; OK with or without a version; and the
      errors, one of which has a version. */
  lemma {:induction false} ResponseLineExactly(clientId: int, text: string, rest: string)
    requires IsLine(text) && Fields(text) != []
    ensures var f, out := Fields(text), GetMsg(clientId, text + CRLF + rest);
      && (f[0] == "CONTENTS" ==>
            if |f| < 4 || !Atoi(f[2]).ok then out == Fatal(rest)
            else TakesContents(out, Msg('C', clientId, "", "", 0, Atoi(f[3]).value, Atoi(f[1]).value),
                               !(Atoi(f[1]).ok && Atoi(f[3]).ok), Atoi(f[2]).value, rest))
      && (f[0] == "OK" ==>
            var version := if |f| > 1 then Atoi(f[1]) else Number(0, true);
            out == Got(Msg('O', clientId, "", "", 0, 0, version.value), !version.ok, rest))
      && (f[0] == "ERR_VERSION" ==>
            out == if |f| < 2 then Fatal(rest)
                   else Got(Msg('V', clientId, "", "", 0, 0, Atoi(f[1]).value), !Atoi(f[1]).ok, rest))
      && (f[0] == "ERR_FILE_NOT_FOUND" ==> out == Got(Msg('F', clientId, "", "", 0, 0, 0), false, rest))
      && (f[0] == "ERR_CMD_ERR" ==> out == Got(Msg('M', clientId, "", "", 0, 0, 0), false, rest))
      && (f[0] == "ERR_INTERNAL" ==> out == Got(Msg('I', clientId, "", "", 0, 0, 0), false, rest))
  {
    hide GetMsg, Fields, Atoi, TakesContents;
    LineAlone(clientId, text, rest);
    var f := Fields(text);
    if f[0] == "CONTENTS" && |f| >= 4 && Atoi(f[2]).ok {
      LineThenContents(clientId, text, rest, Msg('C', clientId, "", "", 0, Atoi(f[3]).value, Atoi(f[1]).value),
                       !(Atoi(f[1]).ok && Atoi(f[3]).ok), Atoi(f[2]).value);
    }
  }

  // ----- commands as clients write them

  /** A word that may be missing. */
  datatype Extra = Absent | Given(word: string)

  datatype Command =
    | Read(name: string)
    | Write(name: string, size: string, expiry: Extra, contents: string)
    | Swap(name: string, version: string, size: string, expiry: Extra, contents: string)
    | Delete(name: string)

  function Added(words: seq<string>, extra: Extra): seq<string> {
    if extra.Given? then words + [extra.word] else words
  }

  function Spoken(c: Command): seq<string> {
    match c
    case Read(name) => ["read", name]
    case Write(name, size, expiry, _) => Added(["write", name, size], expiry)
    case Swap(name, version, size, expiry, _) => Added(["cas", name, version, size], expiry)
    case Delete(name) => ["delete", name]
  }

  /** The command as it is sent. */
  function Issued(c: Command): string {
    Joined(Spoken(c)) + CRLF + (if c.Write? || c.Swap? then c.contents + CRLF else "")
  }

  predicate AllPlain(words: seq<string>) {
    forall i :: 0 <= i < |words| ==> Plain(words[i])
  }

  /** The number that an optional word stands for: 0 if it is missing. */
  function Figure(extra: Extra): Number {
    if extra.Given? then Atoi(extra.word) else Number(0, true)
  }

  /** The message that the command means. */
  function Meant(c: Command, clientId: int): Msg {
    match c
    case Read(name) => Msg('r', clientId, name, "", 0, 0, 0)
    case Write(name, size, expiry, contents) =>
      Msg('w', clientId, name, contents, Atoi(size).value, Figure(expiry).value, 0)
    case Swap(name, version, size, expiry, contents) =>
      Msg('c', clientId, name, contents, Atoi(size).value, Figure(expiry).value, Atoi(version).value)
    case Delete(name) => Msg('d', clientId, name, "", 0, 0, 0)
  }

  /** Its version or its expiry time is no number. */
  predicate Faulty(c: Command) {
    || (c.Write? && !Figure(c.expiry).ok)
    || (c.Swap? && !(Figure(c.expiry).ok && Atoi(c.version).ok))
  }

  /** The line is not too long, and the size is that of the contents, which are not too large. */
  predicate Fitting(c: Command) {
    && |Joined(Spoken(c))| <= MAX_FIRST_LINE_SIZE
    && (c.Write? || c.Swap? ==> Atoi(c.size) == Number(|c.contents|, true) && |c.contents| <= MAX_CONTENT_SIZE)
  }

  lemma {:induction false} JoinedIsLine(words: seq<string>)
    requires AllPlain(words)
    ensures '\r' !in Joined(words)
  {
    if |words| > 1 { JoinedIsLine(words[1..]); }
  }

  lemma MeansAnnounced(c: Command, clientId: int)
    requires AllPlain(Spoken(c))
    ensures Interpret(clientId, Fields(Joined(Spoken(c)))) ==
      if (c.Write? || c.Swap?) && !Atoi(c.size).ok then FatalHeader
      else Header(Meant(c, clientId).(contents := ""), Faulty(c))
  {
    hide Fields, Joined, Atoi, Plain;
    FieldsJoined(Spoken(c));
  }

  /** A command is read as what it means, and the stream goes on behind it, exactly if it fits. */
  lemma CommandReadIff(c: Command, clientId: int, rest: string)
    requires AllPlain(Spoken(c))
    ensures GetMsg(clientId, Issued(c) + rest) == Got(Meant(c, clientId), Faulty(c), rest) <==> Fitting(c)
  {
    hide Fields, Joined, Atoi, Plain, GetMsg, Interpret, Spoken, Faulty;
    var line, msg := Joined(Spoken(c)), Meant(c, clientId);
    MeansAnnounced(c, clientId);
    JoinedIsLine(Spoken(c));
    assert Issued(c) == line + CRLF + Payload(msg);
    if Fitting(c) {
      FramedIsGot(clientId, Issued(c) + rest, line, msg, Faulty(c), rest);
    } else if GetMsg(clientId, Issued(c) + rest) == Got(msg, Faulty(c), rest) {
      var text := GotIsFramed(clientId, Issued(c) + rest, msg, Faulty(c), rest);
      SameLine(text, line, Payload(msg), rest);
      assert false;
    }
  }

  lemma SameLine(x: string, y: string, payload: string, rest: string)
    requires x + CRLF + payload + rest == y + CRLF + payload + rest
    ensures x == y
  {
    assert |x| == |y|;
    assert (x + CRLF + payload + rest)[..|x|] == x && (y + CRLF + payload + rest)[..|y|] == y;
  }

  // ----- commands from messages

  /** The command that asks for what the message says, with its expiry time or without. */
  function CommandOf(m: Msg, expiring: bool): Command
    requires m.kind in {'r', 'w', 'c', 'd'}
  {
    var expiry := if expiring then Given(Itoa(m.exptime)) else Absent;
    match m.kind
    case 'r' => Read(m.filename)
    case 'w' => Write(m.filename, Itoa(m.numbytes), expiry, m.contents)
    case 'c' => Swap(m.filename, Itoa(m.version), Itoa(m.numbytes), expiry, m.contents)
    case _ => Delete(m.filename)
  }

  /** What of the message the command carries, from the client `clientId`. */
  function Carried(m: Msg, clientId: int, expiring: bool): Msg {
    var sized := m.kind == 'w' || m.kind == 'c';
    Msg(m.kind, clientId, m.filename, if sized then m.contents else "", if sized then m.numbytes else 0,
        if sized && expiring then m.exptime else 0, if m.kind == 'c' then m.version else 0)
  }

  /** A command printed from a message with a plain file name and 64-bit fields is read back as that message,
      whatever follows it, exactly if its line is not too long and its contents have the size it says. */
  lemma CommandRoundTripIff(m: Msg, expiring: bool, clientId: int, rest: string)
    requires m.kind in {'r', 'w', 'c', 'd'} && Plain(m.filename) && InRange(m)
    ensures var c := CommandOf(m, expiring);
      GetMsg(clientId, Issued(c) + rest) == Got(Carried(m, clientId, expiring), false, rest) <==>
        && |Joined(Spoken(c))| <= MAX_FIRST_LINE_SIZE
        && (m.kind in {'w', 'c'} ==> |m.contents| == m.numbytes <= MAX_CONTENT_SIZE)
  {
    hide Joined, Atoi, Itoa, Plain, GetMsg, Issued;
    ItoaPlain(m.version);
    ItoaPlain(m.numbytes);
    ItoaPlain(m.exptime);
    AtoiItoa(m.version);
    AtoiItoa(m.numbytes);
    AtoiItoa(m.exptime);
    KeywordsPlain();
    CommandReadIff(CommandOf(m, expiring), clientId, rest);
  }

  lemma KeywordsPlain()
    ensures Plain("read") && Plain("write") && Plain("cas") && Plain("delete")
  {}

  /** Every name of up to 433 bytes leaves room for the numbers. */
  lemma NamesFit(m: Msg, expiring: bool)
    requires m.kind in {'r', 'w', 'c', 'd'} && InRange(m) && |m.filename| <= 433
    ensures |Joined(Spoken(CommandOf(m, expiring)))| <= MAX_FIRST_LINE_SIZE
  {
    hide Itoa, Joined;
    ItoaShort(m.version);
    ItoaShort(m.numbytes);
    ItoaShort(m.exptime);
    var words := Spoken(CommandOf(m, expiring));
    JoinedLength(words);
  }

  /** At most five words. */
  lemma {:induction false} JoinedLength(words: seq<string>)
    requires 1 <= |words| <= 5
    ensures |Joined(words)| ==
      |words| - 1 + |words[0]| + (if |words| > 1 then |words[1]| else 0) + (if |words| > 2 then |words[2]| else 0)
      + (if |words| > 3 then |words[3]| else 0) + (if |words| > 4 then |words[4]| else 0)
  {
    if |words| > 1 { JoinedLength(words[1..]); }
  }

  // ----- streams

  /** What may come over a connection: a printed response or a command. */
  datatype Piece = Response(msg: Msg) | Order(command: Command)

  function Uttered(p: Piece): string {
    match p
    case Response(msg) => Printed(msg)
    case Order(command) => Issued(command)
  }

  function UtterAll(ps: seq<Piece>): string {
    if ps == [] then "" else Uttered(ps[0]) + UtterAll(ps[1..])
  }

  /** One call of GetMsg without a fatal error. */
  datatype Take = Take(msg: Msg, msgerr: bool)

  datatype Takes = Takes(takes: seq<Take>, rest: string) | Stuck

  /** `n` calls of GetMsg, recoverable errors included. */
  function TakeEach(clientId: int, input: string, n: nat): Takes
    decreases n
  {
    if n == 0 then Takes([], input)
    else match GetMsg(clientId, input)
      case Got(msg, msgerr, rest) =>
        (match TakeEach(clientId, rest, n - 1)
         case Stuck => Stuck
         case Takes(takes, left) => Takes([Take(msg, msgerr)] + takes, left))
      case _ => Stuck
  }

  function Understood(p: Piece, clientId: int): Take {
    match p
    case Response(msg) => Take(Visible(msg, clientId), false)
    case Order(command) => Take(Meant(command, clientId), Faulty(command))
  }

  function UnderstoodAll(ps: seq<Piece>, clientId: int): seq<Take> {
    if ps == [] then [] else [Understood(ps[0], clientId)] + UnderstoodAll(ps[1..], clientId)
  }

  predicate Proper(p: Piece) {
    match p
    case Response(msg) => Readable(msg) && InRange(msg)
    case Order(command) => AllPlain(Spoken(command)) && Fitting(command)
  }

  lemma PieceRead(p: Piece, clientId: int, rest: string)
    requires Proper(p)
    ensures var take := Understood(p, clientId);
      GetMsg(clientId, Uttered(p) + rest) == Got(take.msg, take.msgerr, rest)
  {
    hide GetMsg, Issued, Printed, Spoken, Fitting, Readable;
    match p
    case Response(msg) => RoundTripIff(msg, clientId, rest);
    case Order(command) => CommandReadIff(command, clientId, rest);
  }

  /** Any sequence of responses and commands, sound or with recoverable errors, is read piece by piece as what
      it means, and the stream goes on behind it. */
  lemma {:induction false} MixedStream(ps: seq<Piece>, clientId: int, rest: string)
    requires forall i :: 0 <= i < |ps| ==> Proper(ps[i])
    ensures TakeEach(clientId, UtterAll(ps) + rest, |ps|) == Takes(UnderstoodAll(ps, clientId), rest)
  {
    hide GetMsg, Uttered, Understood, Proper;
    if ps == [] {
      assert UtterAll(ps) + rest == rest;
    } else {
      PieceRead(ps[0], clientId, UtterAll(ps[1..]) + rest);
      assert UtterAll(ps) + rest == Uttered(ps[0]) + (UtterAll(ps[1..]) + rest);
      MixedStream(ps[1..], clientId, rest);
    }
  }

  // ----- redirections

  /** The line of a redirection is the keyword and the address; a client of this parser finds it a fatal error,
      behind which the stream goes on. */
  lemma {:induction false} RedirectionExactly(address: string, clientId: int, rest: string)
    requires Plain(address) && |address| <= MAX_FIRST_LINE_SIZE - |"ERR_REDIRECT "|
    ensures var sent := Printed(Bare('R').(contents := address));
      && FillLine(sent + rest, 0) == Line("ERR_REDIRECT " + address, rest)
      && Fields("ERR_REDIRECT " + address) == ["ERR_REDIRECT", address]
      && GetMsg(clientId, sent + rest) == Fatal(rest)
  {
    hide GetMsg, FillLine, Fields;
    var words := ["ERR_REDIRECT", address];
    var sent := Printed(Bare('R').(contents := address));
    JoinedTwo("ERR_REDIRECT", address);
    assert Joined(words) == "ERR_REDIRECT " + address;
    assert AllPlain(words);
    JoinedIsLine(words);
    FieldsJoined(words);
    assert sent + rest == "ERR_REDIRECT " + address + CRLF + rest;
    LineExactly(sent + rest, "ERR_REDIRECT " + address, rest);
    PlainLineExactly(clientId, "ERR_REDIRECT " + address, rest);
  }
}
