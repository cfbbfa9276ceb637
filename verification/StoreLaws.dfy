/** What the file store says and keeps, told from the history of events alone: which files there are, what
    a read finds, what every command is answered, and which timers are running. */
module StoreLaws {
  import opened Commands
  import opened FileStore

  /** What there is under `name` before event `i`. */
  function FilesAt(events: seq<StoreEvent>, i: nat): map<string, File>
    requires i <= |events|
  {
    After(events, i).store.files
  }

  /** Event `i` is a write of the file, or a compare-and-swap of it that finds no file or its version. */
  predicate Overwrote(events: seq<StoreEvent>, i: nat, name: string)
    requires i < |events|
  {
    && events[i].Do? && events[i].msg.filename == name
    && (events[i].msg.kind == 'w'
        || (events[i].msg.kind == 'c'
            && (name in FilesAt(events, i) ==> FilesAt(events, i)[name].version == events[i].msg.version)))
  }

  /** Event `i` is a delete of the file that names no version or the present one, or the expiry of the
      present version. */
  predicate Removed(events: seq<StoreEvent>, i: nat, name: string)
    requires i < |events|
  {
    match events[i]
    case Do(msg) =>
      msg.kind == 'd' && msg.filename == name && (msg.version <= 0 || HoldsVersion(events, i, name, msg.version))
    case Expire(filename, version) => filename == name && HoldsVersion(events, i, name, version)
    case Local(_) => false
  }

  /** How many commands have overwritten some file before event `i`. */
  function Overwritings(events: seq<StoreEvent>, i: nat): nat
    requires i <= |events|
  {
    if i == 0 then 0
    else
      var e := events[i - 1];
      Overwritings(events, i - 1) + (if e.Do? && Overwrote(events, i - 1, e.msg.filename) then 1 else 0)
  }

  /** The global version counts the overwriting commands. */
  lemma {:induction false} VersionCounts(events: seq<StoreEvent>, i: nat)
    requires i <= |events|
    ensures After(events, i).store.gversion == Overwritings(events, i)
  {
    if i > 0 { VersionCounts(events, i - 1); }
  }

  /** Since the command at `i` overwrote the file, nothing has removed it. */
  ghost predicate Stands(events: seq<StoreEvent>, i: int, j: nat, name: string)
    requires j <= |events|
  {
    0 <= i < j && Overwrote(events, i, name) && forall k :: i < k < j ==> !Removed(events, k, name)
  }

  /** Some command has overwritten the file, and nothing has removed it since. */
  ghost predicate Kept(events: seq<StoreEvent>, j: nat, name: string)
    requires j <= |events|
  {
    exists i :: Stands(events, i, j, name)
  }

  lemma {:induction false} OneEvent(events: seq<StoreEvent>, j: nat, name: string)
    requires j < |events| && Can(After(events, j), events[j])
    ensures name in FilesAt(events, j + 1) <==>
      Overwrote(events, j, name) || (name in FilesAt(events, j) && !Removed(events, j, name))
  {
    HistoryOk(events, j);
  }

  /** A file exists exactly when some command has overwritten it that no later event has undone. */
  lemma {:induction false} FileExistsIff(events: seq<StoreEvent>, j: nat, name: string)
    requires Valid(events) && j <= |events|
    ensures name in FilesAt(events, j) <==> Kept(events, j, name)
  {
    hide FilesAt, Overwrote, Removed, Can;
    if j == 0 {
      NoFilesYet(events, name);
    } else {
      FileExistsIff(events, j - 1, name);
      OneEvent(events, j - 1, name);
      StandsNext(events, j - 1, name);
    }
  }

  lemma NoFilesYet(events: seq<StoreEvent>, name: string)
    ensures name !in FilesAt(events, 0)
  {}

  lemma StandsNext(events: seq<StoreEvent>, j: nat, name: string)
    requires j < |events|
    ensures Kept(events, j + 1, name) <==>
      Overwrote(events, j, name) || (Kept(events, j, name) && !Removed(events, j, name))
  {
    hide Overwrote, Removed;
    if Overwrote(events, j, name) { assert Stands(events, j, j + 1, name); }
    if Kept(events, j, name) && !Removed(events, j, name) {
      var i :| Stands(events, i, j, name);
      assert Stands(events, i, j + 1, name);
    }
    if Kept(events, j + 1, name) && !Overwrote(events, j, name) {
      var last := j + 1;
      var i :| Stands(events, i, last, name);
      assert Stands(events, i, j, name);
    }
  }

  /** The answer to a read that finds these contents under this version. */
  function Found(name: string, contents: string, version: int): Response {
    Reply(Msg('C', 0, name, contents, |contents|, 0, version))
  }

  /** The command at `i` is the latest to overwrite the file, and nothing has removed it since. */
  ghost predicate Latest(events: seq<StoreEvent>, i: int, j: nat, name: string)
    requires j <= |events|
  {
    Stands(events, i, j, name) && forall k :: i < k < j ==> !Overwrote(events, k, name)
  }

  /** A file holds what the latest command that overwrote it carried, under that command's number. */
  lemma {:induction false} FileIsLatest(events: seq<StoreEvent>, i: int, j: nat, name: string)
    requires Valid(events) && j <= |events| && Latest(events, i, j, name)
    ensures 0 <= i < j && events[i].Do? && name in FilesAt(events, j)
    ensures FilesAt(events, j)[name]
      == File(events[i].msg.contents, Overwritings(events, i) + 1, events[i].msg.exptime > 0)
    decreases j
  {
    hide Overwrote, Removed, FilesAt, Overwritings, Can;
    if j == i + 1 {
      JustOverwritten(events, i, name);
    } else {
      FileIsLatest(events, i, j - 1, name);
      LeftAlone(events, j - 1, name);
    }
  }

  lemma {:induction false} JustOverwritten(events: seq<StoreEvent>, i: nat, name: string)
    requires i < |events| && Overwrote(events, i, name)
    ensures events[i].Do? && name in FilesAt(events, i + 1)
    ensures FilesAt(events, i + 1)[name]
      == File(events[i].msg.contents, Overwritings(events, i) + 1, events[i].msg.exptime > 0)
  {
    VersionCounts(events, i);
  }

  lemma JustRemoved(events: seq<StoreEvent>, j: nat, name: string)
    requires j < |events| && Removed(events, j, name)
    ensures name !in FilesAt(events, j + 1)
  {
    HistoryOk(events, j);
  }

  lemma {:induction false} LeftAlone(events: seq<StoreEvent>, j: nat, name: string)
    requires j < |events| && Can(After(events, j), events[j]) && name in FilesAt(events, j)
    requires !Overwrote(events, j, name) && !Removed(events, j, name)
    ensures name in FilesAt(events, j + 1) && FilesAt(events, j + 1)[name] == FilesAt(events, j)[name]
  {
    OneEvent(events, j, name);
    Untouched(After(events, j), events[j], name);
  }

  lemma {:induction false} SomeLatest(events: seq<StoreEvent>, i: int, j: nat, name: string) returns (l: nat)
    requires j <= |events| && Stands(events, i, j, name)
    ensures Latest(events, l, j, name)
    decreases j
  {
    hide Overwrote, Removed;
    if Overwrote(events, j - 1, name) {
      l := j - 1;
    } else {
      l := SomeLatest(events, i, j - 1, name);
    }
  }

  /** A read answers ERR_FILE_NOT_FOUND exactly when nothing has overwritten the file since it was last
      removed, or nothing ever did; else the contents of the latest command that overwrote it, with the
      number of that command among all that overwrote a file as its version. */
  lemma {:induction false} ReadsExactly(events: seq<StoreEvent>, j: nat, msg: Msg)
    requires Valid(events) && j <= |events| && msg.kind == 'r'
    ensures var answer := Process(After(events, j).store, msg).response;
      && (answer == Reply(Msg('F', 0, "", "", 0, 0, 0)) <==> !Kept(events, j, msg.filename))
      && (Kept(events, j, msg.filename) ==> exists i :: Latest(events, i, j, msg.filename))
      && forall i :: Latest(events, i, j, msg.filename) ==>
           answer == Found(msg.filename, events[i].msg.contents, Overwritings(events, i) + 1)
  {
    hide Latest, Stands, Process, Valid, After, Overwritings;
    FileExistsIff(events, j, msg.filename);
    ReadAnswers(events, j, msg);
    if Kept(events, j, msg.filename) {
      var i :| Stands(events, i, j, msg.filename);
      var l := SomeLatest(events, i, j, msg.filename);
    }
    forall i | Latest(events, i, j, msg.filename)
      ensures 0 <= i < j && events[i].Do?
      ensures Process(After(events, j).store, msg).response
        == Found(msg.filename, events[i].msg.contents, Overwritings(events, i) + 1)
    {
      FileIsLatest(events, i, j, msg.filename);
    }
  }

  lemma {:induction false} ReadAnswers(events: seq<StoreEvent>, j: nat, msg: Msg)
    requires j <= |events| && msg.kind == 'r'
    ensures Process(After(events, j).store, msg).response ==
      if msg.filename in FilesAt(events, j)
      then Found(msg.filename, FilesAt(events, j)[msg.filename].contents, FilesAt(events, j)[msg.filename].version)
      else Reply(Msg('F', 0, "", "", 0, 0, 0))
  {}

  // ----- answers to commands

  /** The file is now this, or is gone; every other file is as it was. */
  ghost predicate OnlyChanged(before: map<string, File>, after: map<string, File>, name: string) {
    forall n :: n != name ==> (n in after <==> n in before) && (n in before ==> after[n] == before[n])
  }

  /** Before event `j` the file exists, with another version than `version`. */
  predicate HasOther(events: seq<StoreEvent>, j: nat, name: string, version: int)
    requires j <= |events|
  {
    name in FilesAt(events, j) && FilesAt(events, j)[name].version != version
  }

  /** What command number `j` is answered and does to the files. A write always succeeds, and a
      compare-and-swap unless there is another version, which it is told. A delete is answered OK with no
      version and removes the file, if there is one; but a positive version that is not the present one
      leaves it without an answer. Nothing else changes a file. */
  lemma {:induction false} AnsweredExactly(events: seq<StoreEvent>, j: nat)
    requires j < |events| && events[j].Do?
    ensures var msg, st := events[j].msg, After(events, j).store;
      var name, answer, st' := msg.filename, Process(st, msg).response, After(events, j + 1).store;
      && OnlyChanged(st.files, st'.files, name)
      && (msg.kind == 'w' || (msg.kind == 'c' && !HasOther(events, j, name, msg.version)) ==>
            && answer == Reply(Msg('O', 0, "", "", 0, 0, Overwritings(events, j) + 1))
            && name in st'.files
            && st'.files[name] == File(msg.contents, Overwritings(events, j) + 1, msg.exptime > 0))
      && (msg.kind == 'c' && HasOther(events, j, name, msg.version) ==>
            answer == Reply(Msg('V', 0, "", "", 0, 0, st.files[name].version)) && st' == st)
      && (msg.kind == 'd' ==>
            if name !in st.files then answer == Reply(Msg('F', 0, "", "", 0, 0, 0)) && st' == st
            else if msg.version > 0 && HasOther(events, j, name, msg.version) then answer == NoReply && st' == st
            else answer == Reply(Msg('O', 0, "", "", 0, 0, 0)) && name !in st'.files && st'.gversion == st.gversion)
      && (msg.kind == 'r' ==> st' == st)
      && (msg.kind !in {'r', 'w', 'c', 'd'} ==> answer == Reply(Msg('I', 0, "", "", 0, 0, 0)) && st' == st)
  {
    VersionCounts(events, j);
  }

  /** A command that is followed by a read of its file at once: what the read finds. */
  lemma {:induction false} ThenRead(events: seq<StoreEvent>, j: nat, name: string)
    requires Valid(events) && j < |events| && events[j].Do? && events[j].msg.filename == name
    ensures var msg := events[j].msg;
      var found := Process(After(events, j + 1).store, Bare('r').(filename := name)).response;
      && (Overwrote(events, j, name) ==>
            found == Found(name, msg.contents, Overwritings(events, j) + 1))
      && (Removed(events, j, name) ==> found == Reply(Msg('F', 0, "", "", 0, 0, 0)))
  {
    hide Overwrote, Removed, FilesAt, Process, Overwritings, After, Valid;
    var read := Bare('r').(filename := name);
    var next := j + 1;
    ReadsExactly(events, next, read);
    if Overwrote(events, j, name) { assert Latest(events, j, next, name); }
    if Removed(events, j, name) {
      JustRemoved(events, j, name);
      ReadAnswers(events, next, read);
    }
  }

  // ----- timers

  /** Event `i` gave the file this version and an expiry time. */
  predicate Timed(events: seq<StoreEvent>, i: nat, name: string, version: int)
    requires i < |events|
  {
    Overwrote(events, i, name) && events[i].msg.exptime > 0 && version == Overwritings(events, i) + 1
  }

  lemma {:induction false} TimerStarted(events: seq<StoreEvent>, j: nat, name: string, version: int)
    requires j < |events|
    ensures (name, version) in After(events, j + 1).timers <==>
      (name, version) in After(events, j).timers || Timed(events, j, name, version)
  {
    VersionCounts(events, j);
  }

  /** A timer has been started for a version of a file exactly when the command that gave the file that
      version had an expiry time. */
  lemma {:induction false} TimersExactly(events: seq<StoreEvent>, j: nat, name: string, version: int)
    requires j <= |events|
    ensures (name, version) in After(events, j).timers <==>
      exists i :: 0 <= i < j && Timed(events, i, name, version)
  {
    hide Timed, Next;
    if j > 0 {
      TimersExactly(events, j - 1, name, version);
      TimerStarted(events, j - 1, name, version);
    }
  }
}
