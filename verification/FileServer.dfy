/** The file store in the source's own form (assign4/fs/fs.go): a map to FileInfo objects that are
    updated in place, and a version counter shared by reference. */
module FileServer {
  import opened Commands
  import opened FileStore

  /** A started timer: the file and version it is to delete. */
  datatype Timer = None | Started(filename: string, version: int)

  class FileInfo {
    var filename: string
    var contents: string
    var version: int
    var timer: Timer

    constructor ()
      ensures filename == "" && contents == "" && version == 0 && timer == None
    {
      filename, contents, version, timer := "", "", 0, None;
    }

    method CancelTimer()
      modifies this`timer
      ensures timer == None
    {
      if timer != None {
        timer := None;
      }
    }

    /** assign4/fs/fs.go:82-100, on an object whose timer is cancelled. */
    method Fill(msg: Msg, newVersion: int)
      requires timer == None
      modifies this
      ensures filename == msg.filename && contents == msg.contents && version == newVersion
      ensures timer == if msg.exptime > 0 then Started(msg.filename, newVersion) else None
    {
      filename := msg.filename;
      contents := msg.contents;
      version := newVersion;
      if msg.exptime > 0 {
        timer := Started(msg.filename, newVersion);
      }
    }
  }

  /** An integer passed by reference. */
  class Counter {
    var val: int

    constructor ()
      ensures val == 0
    {
      val := 0;
    }
  }

  class FS {
    var Dir: map<string, FileInfo>
    /** All timers that time.AfterFunc was called for, by file and version. */
    var started: set<(string, int)>

    constructor ()
      ensures Valid() && Dir == map[] && started == {}
    {
      Dir, started := map[], {};
    }

    /** Distinct names have distinct objects, and a started timer is for what its file holds. */
    ghost predicate Valid()
      reads this`Dir, Dir.Values
    {
      && (forall n :: n in Dir ==> Dir[n].filename == n)
      && (forall n :: n in Dir && Dir[n].timer != None ==> Dir[n].timer == Started(n, Dir[n].version))
      && (forall m, n :: m in Dir && n in Dir && m != n ==> Dir[m] != Dir[n])
    }

    ghost function Files(): map<string, File>
      reads this`Dir, Dir.Values
    {
      map n | n in Dir :: File(Dir[n].contents, Dir[n].version, Dir[n].timer != None)
    }

    /** The world as FileStore has it, `gversion` being the counter. */
    ghost function Now(gversion: int): World
      reads this, Dir.Values
    {
      World(Store(Files(), gversion), started)
    }

    method ProcessMsg(gversion: Counter, msg: Msg) returns (response: Response)
      requires Valid()
      modifies this, Dir.Values, gversion
      ensures Valid() && fresh(Dir.Values - old(Dir.Values))
      ensures var w := old(Now(gversion.val));
        Now(gversion.val) == Next(w, Do(msg)) && response == Process(w.store, msg).response
    {
      if msg.kind == 'r' {
        response := ProcessRead(msg);
      } else if msg.kind == 'w' {
        response := InternalWrite(gversion, msg);
      } else if msg.kind == 'c' {
        response := ProcessCas(gversion, msg);
      } else if msg.kind == 'd' {
        response := ProcessDelete(msg);
      } else {
        response := Reply(Bare('I'));
      }
    }

    method ProcessRead(msg: Msg) returns (response: Response)
      requires Valid()
      ensures forall g :: response == Read(Store(Files(), g), msg).response
    {
      if msg.filename in Dir {
        var fi := Dir[msg.filename];
        response := Reply(Msg('C', 0, fi.filename, fi.contents, |fi.contents|, 0, fi.version));
      } else {
        response := Reply(Bare('F'));
      }
    }

    /** An existing file's object is updated in place; the map keeps pointing to it. */
    method InternalWrite(gversion: Counter, msg: Msg) returns (response: Response)
      requires Valid()
      modifies this, Dir.Values, gversion
      ensures Valid() && fresh(Dir.Values - old(Dir.Values))
      ensures msg.filename in old(Dir) ==> Dir == old(Dir)
      ensures gversion.val == old(gversion.val) + 1 && response == Ok(gversion.val)
      ensures started == old(started) + (if msg.exptime > 0 then {(msg.filename, gversion.val)} else {})
      ensures Files() == old(Files())[msg.filename := File(msg.contents, gversion.val, msg.exptime > 0)]
    {
      hide Files, Valid;
      var fi := FileFor(msg.filename);
      gversion.val := gversion.val + 1;
      Install(fi, msg, gversion.val);
      if msg.exptime > 0 {
        started := started + {(msg.filename, gversion.val)};
      }
      OneEntryDiffers(Files(), old(Files()), msg.filename);
      response := Ok(gversion.val);
    }

    /** The file's object with its timer cancelled, or a new one. */
    method FileFor(filename: string) returns (fi: FileInfo)
      requires Valid()
      modifies Dir.Values
      ensures Valid() && fi.timer == None && (if filename in Dir then fi == Dir[filename] else fresh(fi))
      ensures Files() - {filename} == old(Files()) - {filename}
    {
      if filename in Dir {
        fi := Dir[filename];
        fi.CancelTimer();
      } else {
        fi := new FileInfo();
      }
    }

    method Install(fi: FileInfo, msg: Msg, version: int)
      requires Valid() && fi.timer == None
      requires if msg.filename in Dir then fi == Dir[msg.filename] else fi !in Dir.Values
      modifies this`Dir, fi
      ensures Valid() && Dir == old(Dir)[msg.filename := fi]
      ensures Files() - {msg.filename} == old(Files()) - {msg.filename}
      ensures msg.filename in Files() && Files()[msg.filename] == File(msg.contents, version, msg.exptime > 0)
    {
      fi.Fill(msg, version);
      Dir := Dir[msg.filename := fi];
    }

    method ProcessCas(gversion: Counter, msg: Msg) returns (response: Response)
      requires Valid()
      modifies this, Dir.Values, gversion
      ensures Valid() && fresh(Dir.Values - old(Dir.Values))
      ensures var r := Cas(Store(old(Files()), old(gversion.val)), msg);
        Files() == r.store.files && gversion.val == r.store.gversion && response == r.response
      ensures started == old(started) + (if msg.exptime > 0 && CasAllowed(Store(old(Files()), old(gversion.val)), msg)
                                         then {(msg.filename, gversion.val)} else {})
    {
      if msg.filename in Dir {
        var fi := Dir[msg.filename];
        if msg.version != fi.version {
          return Reply(Bare('V').(version := fi.version));
        }
      }
      response := InternalWrite(gversion, msg);
    }

    method ProcessDelete(msg: Msg) returns (response: Response)
      requires Valid()
      modifies this`Dir, Dir.Values
      ensures Valid() && Dir.Values <= old(Dir.Values)
      ensures forall g :: var r := Delete(Store(old(Files()), g), msg);
        Files() == r.store.files && response == r.response && r.store.gversion == g
    {
      if msg.filename in Dir {
        var fi := Dir[msg.filename];
        if msg.version > 0 && fi.version != msg.version {
          return NoReply;
        }
        fi.CancelTimer();
        Dir := Dir - {msg.filename};
        response := Ok(0);
      } else {
        response := Reply(Bare('F'));
      }
    }
  }

  /** Maps that agree but for one name. */
  lemma OneEntryDiffers(a: map<string, File>, b: map<string, File>, name: string)
    requires a - {name} == b - {name} && name in a
    ensures a == b[name := a[name]]
  {
    assert forall n :: n in a && n != name <==> n in a - {name};
    assert forall n :: n in b && n != name <==> n in b - {name};
  }
}
