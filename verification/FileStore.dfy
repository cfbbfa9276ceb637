/** The versioned file store of assign4/fs/fs.go as a value, and what its expiry timers can do to it. */
module FileStore {
  import opened Commands

  /** `armed` says that the file's expiry timer has been started and not cancelled. */
  datatype File = File(contents: string, version: int, armed: bool)

  datatype Store = Store(files: map<string, File>, gversion: int)

  /** The message a command is answered with, or nil. */
  datatype Response = NoReply | Reply(msg: Msg)

  datatype Result = Result(store: Store, response: Response)

  const EMPTY_STORE := Store(map[], 0)

  function Ok(version: int): Response {
    Reply(Bare('O').(version := version))
  }

  function Read(st: Store, msg: Msg): Result {
    if msg.filename in st.files then
      var f := st.files[msg.filename];
      Result(st, Reply(Msg('C', 0, msg.filename, f.contents, |f.contents|, 0, f.version)))
    else
      Result(st, Reply(Bare('F')))
  }

  function Write(st: Store, msg: Msg): Result {
    var version := st.gversion + 1;
    Result(Store(st.files[msg.filename := File(msg.contents, version, msg.exptime > 0)], version), Ok(version))
  }

  /** A compare-and-swap writes unless the file exists with another version. */
  predicate CasAllowed(st: Store, msg: Msg) {
    msg.filename in st.files ==> msg.version == st.files[msg.filename].version
  }

  function Cas(st: Store, msg: Msg): Result {
    if CasAllowed(st, msg) then Write(st, msg)
    else Result(st, Reply(Bare('V').(version := st.files[msg.filename].version)))
  }

  /** A positive version marks a delete by a timer, which spares any other version. */
  function Delete(st: Store, msg: Msg): Result {
    if msg.filename !in st.files then Result(st, Reply(Bare('F')))
    else if msg.version > 0 && st.files[msg.filename].version != msg.version then Result(st, NoReply)
    else Result(st.(files := st.files - {msg.filename}), Ok(0))
  }

  function Process(st: Store, msg: Msg): Result {
    if msg.kind == 'r' then Read(st, msg)
    else if msg.kind == 'w' then Write(st, msg)
    else if msg.kind == 'c' then Cas(st, msg)
    else if msg.kind == 'd' then Delete(st, msg)
    else Result(st, Reply(Bare('I')))
  }

  /** The command writes its file, giving it a new version. */
  predicate Writes(st: Store, msg: Msg) {
    msg.kind == 'w' || (msg.kind == 'c' && CasAllowed(st, msg))
  }

  predicate Arms(st: Store, msg: Msg) {
    Writes(st, msg) && msg.exptime > 0
  }

  // ----- histories of commands and timers

  /** Do: a command from the log is processed. Local: a read is served without the log. Expire: a timer
      fires; once started it may do so at any later time, in any order with the others and even after it
      was cancelled, because cancelling comes too late for one that already waits for the lock. */
  datatype StoreEvent = Do(msg: Msg) | Local(msg: Msg) | Expire(filename: string, version: int)

  datatype World = World(store: Store, timers: set<(string, int)>)

  const START := World(EMPTY_STORE, {})

  predicate Can(w: World, e: StoreEvent) {
    e.Expire? ==> (e.filename, e.version) in w.timers
  }

  /** The message of a timer's function (assign4/fs/fs.go:92-94). */
  function ExpiryMsg(filename: string, version: int): Msg {
    Bare('D').(filename := filename, version := version)
  }

  function Next(w: World, e: StoreEvent): World {
    match e
    case Do(msg) =>
      var st := Process(w.store, msg).store;
      World(st, if Arms(w.store, msg) then w.timers + {(msg.filename, st.gversion)} else w.timers)
    case Local(msg) =>
      w.(store := Read(w.store, msg).store)
    case Expire(filename, version) =>
      w.(store := Delete(w.store, ExpiryMsg(filename, version)).store)
  }

  /** A history is a sequence of events in which only started timers fire. */
  ghost predicate Valid(events: seq<StoreEvent>) {
    forall i :: 0 <= i < |events| ==> Can(After(events, i), events[i])
  }

  /** The world after the first `i` events. */
  function After(events: seq<StoreEvent>, i: nat): World
    requires i <= |events|
  {
    if i == 0 then START else Next(After(events, i - 1), events[i - 1])
  }

  /** What comes later has no influence. */
  lemma {:induction false} AfterPrefix(events: seq<StoreEvent>, more: seq<StoreEvent>, i: nat)
    requires i <= |events|
    ensures After(events + more, i) == After(events, i)
  {
    if i > 0 { AfterPrefix(events, more, i - 1); }
  }

  /** A history goes on with any event that can happen. */
  lemma {:induction false} ValidNext(events: seq<StoreEvent>, e: StoreEvent)
    requires Valid(events) && Can(After(events, |events|), e)
    ensures Valid(events + [e])
    ensures After(events + [e], |events| + 1) == Next(After(events, |events|), e)
  {
    hide Next, Can;
    forall i | 0 <= i <= |events| ensures After(events + [e], i) == After(events, i) {
      AfterPrefix(events, [e], i);
    }
  }

  ghost predicate WorldOk(w: World) {
    && (forall n :: n in w.store.files ==> 1 <= w.store.files[n].version <= w.store.gversion)
    && (forall m, n :: m in w.store.files && n in w.store.files && m != n ==>
          w.store.files[m].version != w.store.files[n].version)
    && (forall t :: t in w.timers ==> 1 <= t.1 <= w.store.gversion)
    && 0 <= w.store.gversion
  }

  lemma {:induction false} HistoryOk(events: seq<StoreEvent>, i: nat)
    requires i <= |events|
    ensures WorldOk(After(events, i))
  {
    hide WorldOk, Next;
    if i == 0 {
      StartOk();
    } else {
      HistoryOk(events, i - 1);
      NextOk(After(events, i - 1), events[i - 1]);
    }
  }

  lemma StartOk()
    ensures WorldOk(START)
  {}

  lemma NextOk(w: World, e: StoreEvent)
    requires WorldOk(w)
    ensures WorldOk(Next(w, e))
  {
    if e.Do? { ProcessOk(w.store, e.msg); }
  }

  /** Only a written file has a new version, and that is the new counter. */
  lemma ProcessOk(st: Store, msg: Msg)
    ensures var st' := Process(st, msg).store;
      && (if Writes(st, msg) then st'.gversion == st.gversion + 1 else st'.gversion == st.gversion)
      && (forall n :: n in st'.files ==> n in st.files || (Writes(st, msg) && n == msg.filename))
      && (forall n :: n in st'.files ==>
            if Writes(st, msg) && n == msg.filename then st'.files[n].version == st'.gversion
            else st'.files[n] == st.files[n])
  {}

  /** `filename` holds `version` after `i` events. */
  predicate HoldsVersion(events: seq<StoreEvent>, i: nat, filename: string, version: int)
    requires i <= |events|
  {
    var files := After(events, i).store.files;
    filename in files && files[filename].version == version
  }

  lemma {:induction false} VersionsGrow(events: seq<StoreEvent>, i: nat, j: nat)
    requires i <= j <= |events|
    ensures After(events, i).store.gversion <= After(events, j).store.gversion
    ensures After(events, i).timers <= After(events, j).timers
    decreases j - i
  {
    if i < j { VersionsGrow(events, i, j - 1); }
  }

  /** The version an event writes has been held by no file at any time before, whatever was
      deleted, re-created or expired in between. */
  lemma {:induction false} VersionsNeverReused(events: seq<StoreEvent>, i: nat, j: nat, filename: string)
    requires i <= j < |events| && events[j].Do? && Writes(After(events, j).store, events[j].msg)
    ensures var v := After(events, j + 1).store.gversion;
      HoldsVersion(events, j + 1, events[j].msg.filename, v) && !HoldsVersion(events, i, filename, v)
  {
    HistoryOk(events, i);
    VersionsGrow(events, i, j);
  }

  /** A version a file no longer holds never comes back to it. */
  lemma {:induction false} GoneForGood(events: seq<StoreEvent>, i: nat, j: nat, filename: string, version: int)
    requires i <= j <= |events| && version <= After(events, i).store.gversion
    requires !HoldsVersion(events, i, filename, version)
    ensures !HoldsVersion(events, j, filename, version)
    decreases j - i
  {
    if i < j {
      GoneForGood(events, i, j - 1, filename, version);
      VersionsGrow(events, i, j - 1);
    }
  }

  /** A version a file holds it has held since that version was reached. */
  lemma {:induction false} HeldEarlier(events: seq<StoreEvent>, i: nat, j: nat, filename: string, version: int)
    requires i <= j <= |events| && version <= After(events, i).store.gversion
    requires HoldsVersion(events, j, filename, version)
    ensures HoldsVersion(events, i, filename, version)
  {
    if !HoldsVersion(events, i, filename, version) { GoneForGood(events, i, j, filename, version); }
  }

  /** While a file keeps its version its contents do not change. */
  lemma {:induction false} SameVersionSameFile(events: seq<StoreEvent>, i: nat, j: nat, filename: string, version: int)
    requires i <= j <= |events|
    requires HoldsVersion(events, i, filename, version) && HoldsVersion(events, j, filename, version)
    ensures After(events, i).store.files[filename] == After(events, j).store.files[filename]
    decreases j - i
  {
    if i < j {
      HistoryOk(events, i);
      VersionsGrow(events, i, j - 1);
      HeldEarlier(events, j - 1, j, filename, version);
      SameVersionSameFile(events, i, j - 1, filename, version);
    }
  }

  /** A firing timer removes its file if that still holds the timer's version, and else does nothing. */
  lemma ExpiryRemoves(w: World, filename: string, version: int)
    requires WorldOk(w) && version >= 1
    ensures Next(w, Expire(filename, version)).store ==
      if filename in w.store.files && w.store.files[filename].version == version
      then w.store.(files := w.store.files - {filename}) else w.store
  {}

  /** Stale timers are harmless: if a timer started by the write at `i` changes anything when it
      fires at `j`, then it removes that file, and the file has held what that write put there all
      the time in between; otherwise it changes nothing. */
  lemma {:induction false} StaleTimersHarmless(events: seq<StoreEvent>, i: nat, j: nat, k: nat)
    requires i < k <= j < |events|
    requires events[i].Do? && Arms(After(events, i).store, events[i].msg)
    requires events[j] == Expire(events[i].msg.filename, After(events, i + 1).store.gversion)
    ensures var name, before, after := events[i].msg.filename, After(events, j).store, After(events, j + 1).store;
      after == before ||
      (&& after == before.(files := before.files - {name})
       && name in After(events, k).store.files && After(events, k).store.files[name] == Written(events, i))
  {
    var name, v := events[i].msg.filename, After(events, i + 1).store.gversion;
    HistoryOk(events, i);
    HistoryOk(events, j);
    ExpiryRemoves(After(events, j), name, v);
    if HoldsVersion(events, j, name, v) { HeldThroughout(events, i, j, k); }
  }

  /** What the write at `i` puts into its file. */
  function Written(events: seq<StoreEvent>, i: nat): File
    requires i < |events| && events[i].Do?
  {
    File(events[i].msg.contents, After(events, i + 1).store.gversion, events[i].msg.exptime > 0)
  }

  /** A file still holding what the write at `i` gave it has held it ever since. */
  lemma {:induction false} HeldThroughout(events: seq<StoreEvent>, i: nat, j: nat, k: nat)
    requires i < k <= j <= |events|
    requires events[i].Do? && WritesFile(events, i, events[i].msg.filename)
    requires HoldsVersion(events, j, events[i].msg.filename, After(events, i + 1).store.gversion)
    ensures var name := events[i].msg.filename;
      name in After(events, k).store.files && After(events, k).store.files[name] == Written(events, i)
  {
    var name, v := events[i].msg.filename, After(events, i + 1).store.gversion;
    VersionsGrow(events, i + 1, k);
    HeldEarlier(events, k, j, name, v);
    SameVersionSameFile(events, i + 1, k, name, v);
  }

  /** StoreEvent `i` is a command that writes the file `filename`. */
  predicate WritesFile(events: seq<StoreEvent>, i: nat, filename: string)
    requires i < |events|
  {
    events[i].Do? && Writes(After(events, i).store, events[i].msg) && events[i].msg.filename == filename
  }

  /** Every file there is was written by some command and holds what that wrote. */
  lemma {:induction false} EveryFileWasWritten(events: seq<StoreEvent>, j: nat, filename: string) returns (i: nat)
    requires j <= |events| && filename in After(events, j).store.files
    ensures i < j && WritesFile(events, i, filename)
    ensures After(events, j).store.files[filename] == Written(events, i)
  {
    if WritesFile(events, j - 1, filename) {
      i := j - 1;
    } else {
      Untouched(After(events, j - 1), events[j - 1], filename);
      i := EveryFileWasWritten(events, j - 1, filename);
    }
  }

  /** An event that does not write a file leaves it as it is, or removes it. */
  lemma Untouched(w: World, e: StoreEvent, filename: string)
    requires e.Do? && Writes(w.store, e.msg) ==> e.msg.filename != filename
    requires filename in Next(w, e).store.files
    ensures filename in w.store.files && Next(w, e).store.files[filename] == w.store.files[filename]
  {}

  /** A read of a file that exists returns what the latest write of it wrote, with that write's version. */
  lemma ReadsLatestWrite(events: seq<StoreEvent>, j: nat, msg: Msg) returns (i: nat)
    requires j <= |events| && msg.kind == 'r' && msg.filename in After(events, j).store.files
    ensures i < j && WritesFile(events, i, msg.filename)
    ensures forall k :: i < k < j ==> !WritesFile(events, k, msg.filename)
    ensures var f := Written(events, i);
      Process(After(events, j).store, msg).response
        == Reply(Msg('C', 0, msg.filename, f.contents, |f.contents|, 0, f.version))
  {
    i := EveryFileWasWritten(events, j, msg.filename);
    forall k | i < k < j ensures !WritesFile(events, k, msg.filename) {
      HeldThroughout(events, i, j, k + 1);
      VersionsGrow(events, i + 1, k);
    }
  }

  /** StoreEvent `i` is a compare-and-swap naming version `v` that overwrites an existing file. */
  predicate CasWins(events: seq<StoreEvent>, i: nat, v: int)
    requires i < |events|
  {
    && events[i].Do? && events[i].msg.kind == 'c' && events[i].msg.version == v
    && events[i].msg.filename in After(events, i).store.files
    && CasAllowed(After(events, i).store, events[i].msg)
  }

  /** At most one compare-and-swap naming a version ever overwrites a file, on whatever files. */
  lemma UniqueCasWinner(events: seq<StoreEvent>, i: nat, j: nat, v: int)
    requires i < |events| && j < |events| && CasWins(events, i, v) && CasWins(events, j, v)
    ensures i == j
  {
    if i < j { LaterCasLoses(events, i, j, v); }
    if j < i { LaterCasLoses(events, j, i, v); }
  }

  lemma LaterCasLoses(events: seq<StoreEvent>, i: nat, j: nat, v: int)
    requires i < j < |events| && CasWins(events, i, v)
    ensures !CasWins(events, j, v)
  {
    HistoryOk(events, i);
    HistoryOk(events, i + 1);
    VersionGone(events, i, v);
    if CasWins(events, j, v) {
      GoneForGood(events, i + 1, j, events[j].msg.filename, v);
    }
  }

  predicate NoneHolds(st: Store, v: int) {
    forall n :: n in st.files ==> st.files[n].version != v
  }

  /** After such a swap no file holds the version it named. */
  lemma {:induction false} VersionGone(events: seq<StoreEvent>, i: nat, v: int)
    requires i < |events| && CasWins(events, i, v) && WorldOk(After(events, i))
    ensures NoneHolds(After(events, i + 1).store, v)
    ensures v <= After(events, i + 1).store.gversion
  {}
}
