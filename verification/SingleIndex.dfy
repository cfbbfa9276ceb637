/** When replicas that have processed the same commands agree at that very index, even if some of the
    commands started timers: each such file must be replaced by the next command that has to do with it. */
module SingleIndex {
  import opened Commands
  import opened FileStore
  import opened Replicas

  /** The store in which the replay of the log reaches command `i`. */
  function StoreBefore(cmds: seq<Msg>, i: nat): Store
    requires i <= |cmds|
  {
    Replay(cmds[..i]).store
  }

  /** In the replay command `i` starts a timer, for this version of its file. */
  predicate Starts(cmds: seq<Msg>, i: nat) {
    i < |cmds| && Arms(StoreBefore(cmds, i), cmds[i])
  }

  function Version(cmds: seq<Msg>, i: nat): int
    requires i <= |cmds|
  {
    StoreBefore(cmds, i).gversion + 1
  }

  predicate Touches(msg: Msg, name: string) {
    msg.kind in {'r', 'w', 'c', 'd'} && msg.filename == name
  }

  /** The command writes the file whether it still holds this version or is gone. */
  predicate Replaces(msg: Msg, name: string, version: int) {
    msg.filename == name && (msg.kind == 'w' || (msg.kind == 'c' && msg.version == version))
  }

  /** No command after number `i` and before number `n` has to do with the file of command `i`. */
  predicate NotTouched(cmds: seq<Msg>, i: nat, n: nat)
    requires i < |cmds| && n <= |cmds|
  {
    forall k :: i < k < n ==> !Touches(cmds[k], cmds[i].filename)
  }

  predicate ReplacedAt(cmds: seq<Msg>, i: nat, j: nat) {
    && i < j < |cmds| && Replaces(cmds[j], cmds[i].filename, Version(cmds, i)) && NotTouched(cmds, i, j)
  }

  /** After every command that starts a timer, the next one that has to do with its file replaces it. */
  ghost predicate AllReplaced(cmds: seq<Msg>) {
    forall i :: Starts(cmds, i) ==> exists j: nat :: ReplacedAt(cmds, i, j)
  }

  /** Any two servers that have processed just these commands are the same. */
  ghost predicate AgreeNow(cmds: seq<Msg>) {
    forall a: seq<StoreEvent>, b: seq<StoreEvent> ::
      Valid(a) && Valid(b) && Applied(a, |a|) == cmds && Applied(b, |b|) == cmds ==> SameReplica(a, b)
  }

  /** In particular, all are if no timer was started. */
  lemma NeverArmsReplaced(cmds: seq<Msg>)
    requires NeverArms(cmds)
    ensures AllReplaced(cmds)
  {
    forall i: nat ensures !Starts(cmds, i) {}
  }

  // ----- if all are replaced, they agree

  /** The file is missing only because a timer has fired that command `i` started. */
  predicate GoneBy(cmds: seq<Msg>, n: nat, name: string, i: nat)
    requires n <= |cmds|
  {
    && i < n && Starts(cmds, i) && cmds[i].filename == name && NotTouched(cmds, i, n)
    && name in StoreBefore(cmds, n).files && StoreBefore(cmds, n).files[name].version == Version(cmds, i)
  }

  predicate TimerOf(cmds: seq<Msg>, n: nat, t: (string, int), i: nat)
    requires n <= |cmds|
  {
    i < n && Starts(cmds, i) && t == (cmds[i].filename, Version(cmds, i))
  }

  ghost predicate Gone(cmds: seq<Msg>, n: nat, name: string)
    requires n <= |cmds|
  {
    exists i: nat :: GoneBy(cmds, n, name, i)
  }

  ghost predicate Timed(cmds: seq<Msg>, n: nat, t: (string, int))
    requires n <= |cmds|
  {
    exists i: nat :: TimerOf(cmds, n, t, i)
  }

  /** World `w` is where the replay of the first `n` commands is, but for files that timers removed. */
  ghost predicate Tracks(w: World, cmds: seq<Msg>, n: nat)
    requires n <= |cmds|
  {
    var r := StoreBefore(cmds, n);
    && w.store.gversion == r.gversion
    && (forall f :: f in w.store.files ==> f in r.files && w.store.files[f] == r.files[f])
    && (forall f :: f in r.files && f !in w.store.files ==> Gone(cmds, n, f))
    && (forall t :: t in w.timers ==> Timed(cmds, n, t))
  }

  lemma BeforeNext(cmds: seq<Msg>, n: nat)
    requires n < |cmds|
    ensures StoreBefore(cmds, n + 1) == Process(StoreBefore(cmds, n), cmds[n]).store
  {
    assert cmds[..n + 1][..n] == cmds[..n];
  }

  /** A file that still holds the version of command `i` has not been touched since. */
  lemma StillUntouched(cmds: seq<Msg>, i: nat, n: nat)
    requires AllReplaced(cmds) && i < n <= |cmds| && Starts(cmds, i) && cmds[i].filename in StoreBefore(cmds, n).files
    requires StoreBefore(cmds, n).files[cmds[i].filename].version == Version(cmds, i)
    ensures NotTouched(cmds, i, n)
  {
    var j: nat :| ReplacedAt(cmds, i, j);
    if j < n {
      OldVersionGone(cmds, i, j, n);
      assert false;
    }
  }

  lemma OldVersionGone(cmds: seq<Msg>, i: nat, j: nat, n: nat)
    requires Starts(cmds, i) && ReplacedAt(cmds, i, j) && j < n <= |cmds|
    ensures cmds[i].filename in StoreBefore(cmds, n).files ==>
      StoreBefore(cmds, n).files[cmds[i].filename].version != Version(cmds, i)
  {
    hide Replay, Process, Arms, Replaces, NotTouched, After;
    var events, name := Straight(cmds), cmds[i].filename;
    StraightReplays(cmds, i + 1);
    StraightReplays(cmds, j);
    StraightReplays(cmds, j + 1);
    StraightReplays(cmds, n);
    VersionsGrow(events, i + 1, j);
    VersionsGrow(events, j, j + 1);
    BeforeNext(cmds, i);
    BeforeNext(cmds, j);
    ArmsRaises(StoreBefore(cmds, i), cmds[i]);
    ReplacedAnew(StoreBefore(cmds, j), cmds[j], name, Version(cmds, i));
    GoneForGood(events, j + 1, n, name, Version(cmds, i));
  }

  lemma ArmsRaises(st: Store, msg: Msg)
    requires Arms(st, msg)
    ensures Process(st, msg).store.gversion == st.gversion + 1
  {}

  lemma ReplacedAnew(st: Store, msg: Msg, name: string, version: int)
    requires Replaces(msg, name, version) && version <= st.gversion
    ensures var files := Process(st, msg).store.files;
      name in files ==> files[name].version != version
  {}

  // ----- one event

  lemma OtherTracks(w: World, cmds: seq<Msg>, n: nat, e: StoreEvent)
    requires AllReplaced(cmds) && n <= |cmds| && Tracks(w, cmds, n) && WorldOk(w) && Can(w, e) && !e.Do?
    ensures Tracks(Next(w, e), cmds, n)
  {
    hide StoreBefore, AllReplaced, Starts, NotTouched, Version;
    if e.Expire? {
      ExpiryRemoves(w, e.filename, e.version);
      if e.filename in w.store.files && w.store.files[e.filename].version == e.version {
        var i: nat :| TimerOf(cmds, n, (e.filename, e.version), i);
        StillUntouched(cmds, i, n);
        assert GoneBy(cmds, n, e.filename, i);
      }
    }
  }

  /** The next command finds the file as the replay does, or replaces it. */
  lemma SameOrReplaced(w: World, cmds: seq<Msg>, n: nat)
    requires AllReplaced(cmds) && n < |cmds| && Tracks(w, cmds, n) && Touches(cmds[n], cmds[n].filename)
    requires cmds[n].filename in StoreBefore(cmds, n).files && cmds[n].filename !in w.store.files
    ensures Replaces(cmds[n], cmds[n].filename, StoreBefore(cmds, n).files[cmds[n].filename].version)
  {
    var name := cmds[n].filename;
    var i: nat :| GoneBy(cmds, n, name, i);
    var j: nat :| ReplacedAt(cmds, i, j);
    assert j == n by {
      if j < n { assert Touches(cmds[j], name); }
    }
  }

  lemma SameProcess(st: Store, r: Store, msg: Msg)
    requires st.gversion == r.gversion && forall f :: f in st.files ==> f in r.files && st.files[f] == r.files[f]
    requires msg.filename in r.files && msg.filename !in st.files && Touches(msg, msg.filename) ==>
      Replaces(msg, msg.filename, r.files[msg.filename].version)
    ensures Process(st, msg).response == Process(r, msg).response
    ensures Process(st, msg).store.gversion == Process(r, msg).store.gversion
    ensures Arms(st, msg) == Arms(r, msg)
    ensures var x, y := Process(st, msg).store.files, Process(r, msg).store.files;
      && (forall f :: f in x ==> f in y && x[f] == y[f])
      && (forall f :: f in y && f !in x ==> f in r.files && f !in st.files && y[f] == r.files[f] && !Touches(msg, f))
  {}

  lemma StaysGone(cmds: seq<Msg>, n: nat, name: string)
    requires n < |cmds| && Gone(cmds, n, name) && !Touches(cmds[n], name)
    requires name in StoreBefore(cmds, n).files && name in StoreBefore(cmds, n + 1).files
    requires StoreBefore(cmds, n + 1).files[name] == StoreBefore(cmds, n).files[name]
    ensures Gone(cmds, n + 1, name)
  {
    var i: nat :| GoneBy(cmds, n, name, i);
    assert GoneBy(cmds, n + 1, name, i);
  }

  lemma StaysTimed(cmds: seq<Msg>, n: nat, t: (string, int))
    requires n < |cmds|
    requires Timed(cmds, n, t) || (Starts(cmds, n) && t == (cmds[n].filename, Version(cmds, n)))
    ensures Timed(cmds, n + 1, t)
  {
    if Timed(cmds, n, t) {
      var i: nat :| TimerOf(cmds, n, t, i);
      assert TimerOf(cmds, n + 1, t, i);
    } else {
      assert TimerOf(cmds, n + 1, t, n);
    }
  }

  lemma DoTracks(w: World, cmds: seq<Msg>, n: nat)
    requires AllReplaced(cmds) && n < |cmds| && Tracks(w, cmds, n) && WorldOk(w)
    ensures Tracks(Next(w, Do(cmds[n])), cmds, n + 1)
    ensures Process(w.store, cmds[n]).response == Process(StoreBefore(cmds, n), cmds[n]).response
  {
    hide Process, Replay, Arms, Replaces, Gone, Timed, StoreBefore, AllReplaced;
    var r, msg, w' := StoreBefore(cmds, n), cmds[n], Next(w, Do(cmds[n]));
    BeforeNext(cmds, n);
    if msg.filename in r.files && msg.filename !in w.store.files && Touches(msg, msg.filename) {
      SameOrReplaced(w, cmds, n);
    }
    SameProcess(w.store, r, msg);
    forall f | f in StoreBefore(cmds, n + 1).files && f !in w'.store.files ensures Gone(cmds, n + 1, f) {
      StaysGone(cmds, n, f);
    }
    forall t | t in w'.timers ensures Timed(cmds, n + 1, t) {
      if t !in w.timers { ArmsRaises(w.store, msg); }
      StaysTimed(cmds, n, t);
    }
  }

  /** Whatever timers fire, a server goes along with the replay. */
  lemma {:induction false} HistoryTracks(events: seq<StoreEvent>, cmds: seq<Msg>, i: nat)
    requires AllReplaced(cmds) && Valid(events) && i <= |events| && Applied(events, |events|) == cmds
    ensures |Applied(events, i)| <= |cmds| && Applied(events, i) == cmds[..|Applied(events, i)|]
    ensures Tracks(After(events, i), cmds, |Applied(events, i)|)
    ensures Answered(events, i) == Replay(Applied(events, i)).responses
  {
    hide AllReplaced, Process, Tracks, Next, Can;
    AppliedGrows(events, i, |events|);
    if i == 0 {
      StartTracks(cmds);
    } else {
      HistoryTracks(events, cmds, i - 1);
      HistoryOk(events, i - 1);
      var n, e := |Applied(events, i - 1)|, events[i - 1];
      assert Can(After(events, i - 1), e);
      if e.Do? {
        assert cmds[n] == e.msg && cmds[..n + 1] == cmds[..n] + [e.msg];
        DoTracks(After(events, i - 1), cmds, n);
        ReplayNext(cmds[..n], e.msg);
      } else {
        OtherTracks(After(events, i - 1), cmds, n, e);
      }
    }
  }

  lemma StartTracks(cmds: seq<Msg>)
    ensures Tracks(After([], 0), cmds, 0)
  {}

  lemma {:induction false} AppliedGrows(events: seq<StoreEvent>, i: nat, j: nat)
    requires i <= j <= |events|
    ensures Applied(events, i) <= Applied(events, j) && Answered(events, i) <= Answered(events, j)
    decreases j
  {
    hide Process;
    if i < j { AppliedGrows(events, i, j - 1); }
  }

  /** Such a server ends where the replay ends, and has answered as the replay does. */
  lemma {:induction false} EndsAsReplay(events: seq<StoreEvent>, cmds: seq<Msg>)
    requires AllReplaced(cmds) && Valid(events) && Applied(events, |events|) == cmds
    ensures After(events, |events|).store == Replay(cmds).store && Answered(events, |events|) == Replay(cmds).responses
  {
    hide Replay, After, Process;
    HistoryTracks(events, cmds, |events|);
    assert cmds[..|cmds|] == cmds;
    var w := After(events, |events|);
    forall f ensures !Gone(cmds, |cmds|, f) { NoneGone(cmds, f); }
  }

  /** What replaces the file is still to come. */
  lemma ReplacedLater(cmds: seq<Msg>, n: nat, name: string, i: nat)
    requires AllReplaced(cmds) && n <= |cmds| && GoneBy(cmds, n, name, i)
    ensures n < |cmds|
  {
    var j: nat :| ReplacedAt(cmds, i, j);
    assert Touches(cmds[j], name);
  }

  lemma NoneGone(cmds: seq<Msg>, name: string)
    requires AllReplaced(cmds)
    ensures !Gone(cmds, |cmds|, name)
  {
    forall i: nat | GoneBy(cmds, |cmds|, name, i) ensures false { ReplacedLater(cmds, |cmds|, name, i); }
  }

  // ----- if one is not replaced, two servers differ

  /** The history in which the timer of command `i` fires at once, and no other. */
  function Early(cmds: seq<Msg>, i: nat): (events: seq<StoreEvent>)
    requires i < |cmds|
  {
    Straight(cmds[..i + 1]) + [Expire(cmds[i].filename, Version(cmds, i))] + Straight(cmds[i + 1..])
  }

  /** The store of the early history after `n` commands, as long as none has touched the file. */
  ghost predicate Lacks(cmds: seq<Msg>, i: nat, n: nat)
    requires i < n <= |cmds|
  {
    var events, r, name := Early(cmds, i), StoreBefore(cmds, n), cmds[i].filename;
    && |events| == |cmds| + 1
    && name in r.files && r.files[name].version == Version(cmds, i)
    && After(events, n + 1).store == r.(files := r.files - {name})
    && Applied(events, n + 1) == cmds[..n] && Answered(events, n + 1) == Replay(cmds[..n]).responses
  }

  lemma EarlyIs(cmds: seq<Msg>, i: nat)
    requires i < |cmds|
    ensures var events := Early(cmds, i);
      && |events| == |cmds| + 1 && events[i + 1] == Expire(cmds[i].filename, Version(cmds, i))
      && (forall k :: 0 <= k <= i ==> events[k] == Do(cmds[k]))
      && (forall k :: i + 1 < k <= |cmds| ==> events[k] == Do(cmds[k - 1]))
      && events[..i + 1] == Straight(cmds[..i + 1])
  {}

  lemma {:induction false} SameSoFar(a: seq<StoreEvent>, b: seq<StoreEvent>, i: nat)
    requires i <= |a| && i <= |b| && a[..i] == b[..i]
    ensures After(a, i) == After(b, i) && Applied(a, i) == Applied(b, i) && Answered(a, i) == Answered(b, i)
  {
    hide Next, Process;
    if i > 0 {
      assert a[..i][..i - 1] == a[..i - 1] && b[..i][..i - 1] == b[..i - 1] && a[..i][i - 1] == b[..i][i - 1];
      SameSoFar(a, b, i - 1);
    }
  }

  lemma {:induction false} StraightAnswers(cmds: seq<Msg>, i: nat)
    requires i <= |cmds|
    ensures Answered(Straight(cmds), i) == Replay(cmds[..i]).responses
  {
    hide Process, After;
    if i > 0 {
      StraightAnswers(cmds, i - 1);
      StraightReplays(cmds, i - 1);
      ReplayNext(cmds[..i - 1], cmds[i - 1]);
      assert cmds[..i] == cmds[..i - 1] + [cmds[i - 1]];
    }
  }

  /** The early history is that of the replay until its timer fires. */
  lemma {:induction false} EarlyAtFirst(cmds: seq<Msg>, i: nat, k: nat)
    requires i < |cmds| && k <= i + 1
    ensures var events := Early(cmds, i);
      && After(events, k).store == StoreBefore(cmds, k)
      && Applied(events, k) == cmds[..k] && Answered(events, k) == Replay(cmds[..k]).responses
  {
    hide Process, Replay, After, Next;
    var events, part := Early(cmds, i), cmds[..i + 1];
    EarlyIs(cmds, i);
    assert part[..k] == cmds[..k] && events[..k] == Straight(part)[..k];
    StraightReplays(part, k);
    StraightAnswers(part, k);
    SameSoFar(events, Straight(part), k);
  }

  lemma ArmedTimer(w: World, msg: Msg)
    requires Arms(w.store, msg) && WorldOk(w)
    ensures var w', version := Next(w, Do(msg)), w.store.gversion + 1;
      && Can(w', Expire(msg.filename, version)) && version >= 1
      && msg.filename in w'.store.files && w'.store.files[msg.filename].version == version
  {}

  /** Right after its write the file is gone. */
  lemma LacksFirst(cmds: seq<Msg>, i: nat)
    requires Starts(cmds, i)
    ensures Lacks(cmds, i, i + 1) && Valid(Early(cmds, i))
  {
    hide Process, Replay, Next, Arms, Can;
    var events := Early(cmds, i);
    EarlyIs(cmds, i);
    EarlyAtFirst(cmds, i, i);
    EarlyAtFirst(cmds, i, i + 1);
    HistoryOk(events, i);
    HistoryOk(events, i + 1);
    ArmedTimer(After(events, i), cmds[i]);
    ExpiryRemoves(After(events, i + 1), cmds[i].filename, Version(cmds, i));
    forall k | 0 <= k < |events| ensures Can(After(events, k), events[k]) {
      if k != i + 1 { DoCan(After(events, k), events[k]); }
    }
  }

  lemma DoCan(w: World, e: StoreEvent)
    requires e.Do?
    ensures Can(w, e)
  {}

  lemma LacksNext(cmds: seq<Msg>, i: nat, n: nat)
    requires i < n < |cmds| && Lacks(cmds, i, n) && !Touches(cmds[n], cmds[i].filename)
    ensures Lacks(cmds, i, n + 1)
  {
    hide Process, Replay;
    var r, name, msg := StoreBefore(cmds, n), cmds[i].filename, cmds[n];
    EarlyIs(cmds, i);
    BeforeNext(cmds, n);
    OtherFile(r, name, msg);
    ReplayNext(cmds[..n], msg);
    assert cmds[..n + 1] == cmds[..n] + [msg];
  }

  /** A command that has nothing to do with a file does not see whether it is there. */
  lemma OtherFile(r: Store, name: string, msg: Msg)
    requires !Touches(msg, name) && name in r.files
    ensures var st := r.(files := r.files - {name});
      && Process(st, msg).response == Process(r, msg).response
      && Process(st, msg).store == Process(r, msg).store.(files := Process(r, msg).store.files - {name})
      && name in Process(r, msg).store.files && Process(r, msg).store.files[name] == r.files[name]
  {}

  /** A command that has to do with the file and does not replace it answers differently. */
  lemma AnswersDiffer(r: Store, name: string, msg: Msg)
    requires Touches(msg, name) && name in r.files && !Replaces(msg, name, r.files[name].version)
    ensures Process(r.(files := r.files - {name}), msg).response != Process(r, msg).response
  {}

  lemma {:induction false} LacksUntil(cmds: seq<Msg>, i: nat, n: nat)
    requires Starts(cmds, i) && i < n <= |cmds| && NotTouched(cmds, i, n)
    ensures Lacks(cmds, i, n)
  {
    if n == i + 1 {
      LacksFirst(cmds, i);
    } else {
      LacksUntil(cmds, i, n - 1);
      LacksNext(cmds, i, n - 1);
    }
  }

  /** The next command that has to do with the file, or the end. */
  lemma {:induction false} NextTouch(cmds: seq<Msg>, i: nat, n: nat) returns (j: nat)
    requires i < n <= |cmds| && NotTouched(cmds, i, n)
    ensures i < j <= |cmds| && NotTouched(cmds, i, j) && (j < |cmds| ==> Touches(cmds[j], cmds[i].filename))
    decreases |cmds| - n
  {
    if n == |cmds| || Touches(cmds[n], cmds[i].filename) {
      j := n;
    } else {
      j := NextTouch(cmds, i, n + 1);
    }
  }

  lemma {:induction false} EarlyApplies(cmds: seq<Msg>, i: nat, n: nat)
    requires i < n <= |cmds|
    ensures |Early(cmds, i)| == |cmds| + 1 && Applied(Early(cmds, i), n + 1) == cmds[..n]
  {
    EarlyIs(cmds, i);
    if n == i + 1 {
      EarlyAtFirst(cmds, i, i + 1);
    } else {
      EarlyApplies(cmds, i, n - 1);
      assert cmds[..n] == cmds[..n - 1] + [cmds[n - 1]];
    }
  }

  /** What a server answered to one of its commands. */
  lemma {:induction false} AnswerAt(events: seq<StoreEvent>, k: nat)
    requires k < |events| && events[k].Do?
    ensures var n := |Applied(events, k)|;
      && n < |Answered(events, |events|)|
      && Answered(events, |events|)[n] == Process(After(events, k).store, events[k].msg).response
  {
    hide Process, After;
    assert Answered(events, k + 1)[|Applied(events, k)|] == Process(After(events, k).store, events[k].msg).response;
    AppliedGrows(events, k + 1, |events|);
  }

  /** The first command that has to do with the file is answered differently, unless it replaces it. */
  lemma AnswersApart(cmds: seq<Msg>, i: nat, j: nat)
    requires i < j < |cmds| && Lacks(cmds, i, j) && NotTouched(cmds, i, j)
    requires Touches(cmds[j], cmds[i].filename) && !ReplacedAt(cmds, i, j)
    ensures var a, b := Straight(cmds), Early(cmds, i);
      Answered(a, |a|) != Answered(b, |b|)
  {
    hide Process, Replay, After, Replaces, NotTouched, Early, Answered, Applied, Touches;
    var a, b := Straight(cmds), Early(cmds, i);
    EarlyIs(cmds, i);
    StraightReplays(cmds, j);
    AnswerAt(a, j);
    AnswerAt(b, j + 1);
    AnswersDiffer(StoreBefore(cmds, j), cmds[i].filename, cmds[j]);
  }

  lemma StoresApart(cmds: seq<Msg>, i: nat)
    requires i < |cmds| && Lacks(cmds, i, |cmds|)
    ensures var a, b := Straight(cmds), Early(cmds, i);
      After(a, |a|).store != After(b, |b|).store
  {
    hide Process, Replay, After;
    StraightReplays(cmds, |cmds|);
    assert cmds[i].filename in After(Straight(cmds), |cmds|).store.files;
  }

  /** The early history and the one without timers. */
  lemma EarlyDiffers(cmds: seq<Msg>, i: nat)
    requires Starts(cmds, i) && forall j: nat :: !ReplacedAt(cmds, i, j)
    ensures var a, b := Straight(cmds), Early(cmds, i);
      && Valid(a) && Valid(b) && Applied(a, |a|) == cmds && Applied(b, |b|) == cmds && !SameReplica(a, b)
  {
    hide Process, Replay, After, Valid, Lacks, ReplacedAt, Straight, Early;
    StraightValid(cmds);
    LacksFirst(cmds, i);
    EarlyIs(cmds, i);
    var j := NextTouch(cmds, i, i + 1);
    LacksUntil(cmds, i, j);
    EarlyApplies(cmds, i, |cmds|);
    assert cmds[..|cmds|] == cmds;
    if j < |cmds| { AnswersApart(cmds, i, j); } else { StoresApart(cmds, i); }
  }

  /** Servers that have processed just these commands always agree exactly when every file for which one
      of them started a timer was replaced by the next of them that has to do with it. */
  lemma AgreeNowIff(cmds: seq<Msg>)
    ensures AgreeNow(cmds) <==> AllReplaced(cmds)
  {
    hide Starts, ReplacedAt, Valid, SameReplica;
    if AllReplaced(cmds) {
      forall a: seq<StoreEvent>, b: seq<StoreEvent> |
        Valid(a) && Valid(b) && Applied(a, |a|) == cmds && Applied(b, |b|) == cmds
        ensures SameReplica(a, b)
      {
        BothAsReplay(a, b, cmds);
      }
    } else {
      var i: nat :| Starts(cmds, i) && !exists j: nat :: ReplacedAt(cmds, i, j);
      EarlyDiffers(cmds, i);
    }
  }

  lemma {:induction false} BothAsReplay(a: seq<StoreEvent>, b: seq<StoreEvent>, cmds: seq<Msg>)
    requires AllReplaced(cmds) && Valid(a) && Valid(b) && Applied(a, |a|) == cmds && Applied(b, |b|) == cmds
    ensures SameReplica(a, b)
  {
    EndsAsReplay(a, cmds);
    EndsAsReplay(b, cmds);
  }
}
