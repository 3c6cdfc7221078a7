/** The session data file: `load_all_sessions` / `save_all_sessions`, and
    the `SessionManager` that keeps named sessions in memory and writes
    them back after every change. A session is a list of dictionaries, one
    per captured window or application. */
module SessionStore {
  import opened Wrappers
  import opened JsonFiles
  import opened Config

  /** The backup copy kept next to a data file. */
  function Backup(path: string): (b: string)
    ensures b != path
  {
    path + ".bak"
  }

  /** What `json.load` of a path yields, when it yields something `len`
      accepts (the load logs `len` of the result, so anything else fails). */
  function Readable(fs: Files, path: string): Option<Json>
  {
    if path in fs && fs[path].Parsed? && Len(fs[path].value).Some? then Some(fs[path].value) else None
  }

  /** `load_all_sessions`: a missing file gives an empty object; a file that
      fails to load falls back, when backups are enabled, to its backup
      copy, and to an empty object when that fails too. */
  function LoadAllSessions(fs: Files, s: Settings): (r: Json)
    ensures Len(r).Some?
    ensures r == JObj(map[]) || Readable(fs, s.sessionDataFile) == Some(r)
            || (s.backupSessionData && Readable(fs, Backup(s.sessionDataFile)) == Some(r))
    ensures s.sessionDataFile !in fs ==> r == JObj(map[])
    ensures Readable(fs, s.sessionDataFile).Some? ==> r == Readable(fs, s.sessionDataFile).value
    ensures s.sessionDataFile in fs && Readable(fs, s.sessionDataFile).None? ==>
              r == if s.backupSessionData && Readable(fs, Backup(s.sessionDataFile)).Some?
                   then Readable(fs, Backup(s.sessionDataFile)).value else JObj(map[])
  {
    var f := s.sessionDataFile;
    if f !in fs then JObj(map[])
    else if Readable(fs, f).Some? then Readable(fs, f).value
    else if s.backupSessionData && Backup(f) in fs && Readable(fs, Backup(f)).Some? then Readable(fs, Backup(f)).value
    else JObj(map[])
  }

  /** The file system after the backup step of a save: when backups are on
      and the file exists, a successful copy puts its content at the backup
      path. */
  function BackedUp(fs: Files, path: string, backup: bool, copied: bool): Files
  {
    if backup && path in fs && copied then fs[Backup(path) := fs[path]] else fs
  }

  /** `save_all_sessions`: a failed backup copy is only a warning, and a
      failed write is logged and swallowed. */
  method SaveAllSessions(disk: Disk, data: Json, s: Settings, copied: bool, w: WriteOutcome)
    modifies disk
    ensures disk.files == AfterWrite(BackedUp(old(disk.files), s.sessionDataFile, s.backupSessionData, copied),
                                     s.sessionDataFile, data, w)
  {
    var f := s.sessionDataFile;
    if s.backupSessionData && f in disk.files && copied {
      disk.files := disk.files[Backup(f) := disk.files[f]];
    }
    disk.files := AfterWrite(disk.files, f, data, w);
  }

  /** What is saved is what is loaded next, whatever happened to the
      backup. */
  lemma SaveThenLoad(fs: Files, data: Json, s: Settings, copied: bool)
    requires Len(data).Some?
    ensures LoadAllSessions(AfterWrite(BackedUp(fs, s.sessionDataFile, s.backupSessionData, copied),
                                       s.sessionDataFile, data, Written), s) == data
  {
  }

  /** A save that breaks off half-way loses nothing when backups are on: the
      next load reads the previous content back from the backup. */
  lemma FailedSaveRecovers(fs: Files, data: Json, s: Settings)
    requires s.backupSessionData && Readable(fs, s.sessionDataFile).Some?
    ensures LoadAllSessions(AfterWrite(BackedUp(fs, s.sessionDataFile, true, true), s.sessionDataFile, data, DumpFailed), s)
            == Readable(fs, s.sessionDataFile).value
  {
    var f := s.sessionDataFile;
    var after := AfterWrite(BackedUp(fs, f, true, true), f, data, DumpFailed);
    assert after[Backup(f)] == fs[f];
  }

  /** Without backups, a file that does not load reads as an empty object. */
  lemma NoBackupNoRecovery(fs: Files, s: Settings)
    requires !s.backupSessionData && Readable(fs, s.sessionDataFile).None?
    ensures LoadAllSessions(fs, s) == JObj(map[])
  {
  }

  // ------------------------------------------------------------ SessionManager

  type Session = seq<map<string, Json>>

  /** The dictionaries of a decoded list, in order; anything else is
      dropped. */
  function Dicts(js: seq<Json>): (r: Session)
    ensures |r| <= |js|
    ensures forall m :: m in r ==> JObj(m) in js
    ensures forall j :: j in js && j.JObj? ==> j.fields in r
  {
    if js == [] then []
    else
      var init := js[..|js| - 1];
      var last := js[|js| - 1];
      assert js == init + [last];
      Dicts(init) + (if last.JObj? then [last.fields] else [])
  }

  function SessionJson(items: Session): (j: Json)
    ensures j.JArr? && |j.items| == |items|
  {
    JArr(seq(|items|, i requires 0 <= i < |items| => JObj(items[i])))
  }

  function SessionsJson(sessions: map<string, Session>): Json
  {
    JObj(map name | name in sessions :: SessionJson(sessions[name]))
  }

  /** A session written out is read back unchanged. */
  lemma {:induction false} DictsOfSession(items: Session)
    ensures Dicts(SessionJson(items).items) == items
  {
    if items != [] {
      var init := items[..|items| - 1];
      DictsOfSession(init);
      assert SessionJson(items).items[..|items| - 1] == SessionJson(init).items;
    }
  }

  /** The sessions `load_sessions` keeps from a decoded object: the entries
      whose value is a list, each reduced to its dictionaries. */
  function Fixed(m: map<string, Json>): map<string, Session>
  {
    map k | k in m && m[k].JArr? :: Dicts(m[k].items)
  }

  /** `load_sessions`: a missing or unloadable file, a file holding
      something other than an object, and an object without any list
      entry all give one empty session under the default name. */
  function LoadedSessions(fs: Files, path: string, defaultName: string): (r: map<string, Session>)
    ensures r != map[]
    ensures r == map[defaultName := []]
            || (path in fs && fs[path].Parsed? && fs[path].value.JObj? && r == Fixed(fs[path].value.fields))
  {
    if path in fs && fs[path].Parsed? && fs[path].value.JObj? && Fixed(fs[path].value.fields) != map[]
    then Fixed(fs[path].value.fields)
    else
      var fallback := map[defaultName := []];
      assert defaultName in fallback;
      fallback
  }

  /** Saved sessions are what the next manager loads, as long as there is
      at least one. */
  lemma ReloadAfterSave(fs: Files, path: string, sessions: map<string, Session>, defaultName: string)
    requires sessions != map[]
    ensures LoadedSessions(fs[path := Parsed(SessionsJson(sessions))], path, defaultName) == sessions
  {
    var m := SessionsJson(sessions).fields;
    forall k | k in sessions
      ensures Dicts(m[k].items) == sessions[k]
    {
      DictsOfSession(sessions[k]);
    }
    assert Fixed(m) == sessions;
  }

  /** `import_session`'s reading of a file: a list, reduced to its
      dictionaries; None where the file is missing, does not load or does
      not hold a list. */
  function Imported(fs: Files, path: string): (r: Option<Session>)
    ensures r.Some? ==> path in fs && fs[path].Parsed? && fs[path].value.JArr?
  {
    if path in fs && fs[path].Parsed? && fs[path].value.JArr? then Some(Dicts(fs[path].value.items)) else None
  }

  /** An exported session imports back unchanged. */
  lemma ExportThenImport(fs: Files, path: string, items: Session)
    ensures Imported(AfterWrite(fs, path, SessionJson(items), Written), path) == Some(items)
  {
    DictsOfSession(items);
  }

  /** The loop of `load_sessions` over the decoded object's entries. */
  method FixSessions(m: map<string, Json>) returns (fixed: map<string, Session>)
    ensures fixed == Fixed(m)
  {
    fixed := map[];
    var todo := m.Keys;
    while todo != {}
      invariant todo <= m.Keys
      invariant fixed == map k | k in m && k !in todo && m[k].JArr? :: Dicts(m[k].items)
      decreases |todo|
    {
      var k :| k in todo;
      if m[k].JArr? {
        fixed := fixed[k := Dicts(m[k].items)];
      }
      todo := todo - {k};
    }
  }

  class SessionManager {
    const sessionFile: string
    const backup: bool
    const defaultName: string
    const disk: Disk
    var sessions: map<string, Session>

    constructor (sessionFile: string, backup: bool, defaultName: string, disk: Disk)
      ensures this.sessionFile == sessionFile && this.backup == backup && this.defaultName == defaultName
      ensures this.disk == disk
      ensures sessions == LoadedSessions(disk.files, sessionFile, defaultName)
    {
      this.sessionFile := sessionFile;
      this.backup := backup;
      this.defaultName := defaultName;
      this.disk := disk;
      new;
      sessions := LoadSessions();
    }

    /** `load_sessions`. */
    method LoadSessions() returns (r: map<string, Session>)
      ensures r == LoadedSessions(disk.files, sessionFile, defaultName)
    {
      if sessionFile !in disk.files {
        return map[defaultName := []];
      }
      var c := disk.files[sessionFile];
      if !c.Parsed? || !c.value.JObj? {
        return map[defaultName := []];
      }
      r := FixSessions(c.value.fields);
      if r == map[] {
        r := map[defaultName := []];
      }
    }

    /** `save_sessions`: a failed backup copy raises to the caller with
        nothing written; otherwise the result says whether the write
        succeeded. */
    method SaveSessions(copied: bool, w: WriteOutcome) returns (r: Result<bool>)
      modifies disk
      ensures sessions == old(sessions)
      ensures backup && sessionFile in old(disk.files) && !copied ==> r.Raises? && disk.files == old(disk.files)
      ensures !(backup && sessionFile in old(disk.files) && !copied) ==>
                r == Ok(w == Written)
                && disk.files == AfterWrite(BackedUp(old(disk.files), sessionFile, backup, true),
                                            sessionFile, SessionsJson(sessions), w)
    {
      if backup && sessionFile in disk.files {
        if !copied {
          return Raises("copyfile failed");
        }
        disk.files := disk.files[Backup(sessionFile) := disk.files[sessionFile]];
      }
      disk.files := AfterWrite(disk.files, sessionFile, SessionsJson(sessions), w);
      r := Ok(w == Written);
    }

    /** `get_session_names`: every name once. */
    method GetSessionNames() returns (names: seq<string>)
      ensures forall n :: n in names <==> n in sessions
      ensures forall i, j :: 0 <= i < j < |names| ==> names[i] != names[j]
    {
      names := [];
      var todo := sessions.Keys;
      while todo != {}
        invariant todo <= sessions.Keys
        invariant forall n :: n in names <==> n in sessions && n !in todo
        invariant forall i, j :: 0 <= i < j < |names| ==> names[i] != names[j]
        decreases |todo|
      {
        var n :| n in todo;
        names := names + [n];
        todo := todo - {n};
      }
    }

    /** `get_session`: an unknown name reads as an empty session. */
    function GetSession(name: string): (r: Session)
      reads this
      ensures name in sessions ==> r == sessions[name]
      ensures name !in sessions ==> r == []
    {
      if name in sessions then sessions[name] else []
    }

    /** `set_session`: the session is replaced, then everything is saved. */
    method SetSession(name: string, items: Session, copied: bool, w: WriteOutcome) returns (r: Result<bool>)
      modifies this, disk
      ensures sessions == old(sessions)[name := items]
      ensures GetSession(name) == items
      ensures backup && sessionFile in old(disk.files) && !copied ==> r.Raises? && disk.files == old(disk.files)
      ensures !(backup && sessionFile in old(disk.files) && !copied) ==>
                r == Ok(w == Written)
                && disk.files == AfterWrite(BackedUp(old(disk.files), sessionFile, backup, true),
                                            sessionFile, SessionsJson(sessions), w)
    {
      sessions := sessions[name := items];
      r := SaveSessions(copied, w);
    }

    /** `delete_session`: an unknown name changes nothing and answers false. */
    method DeleteSession(name: string, copied: bool, w: WriteOutcome) returns (r: Result<bool>)
      modifies this, disk
      ensures sessions == old(sessions) - {name}
      ensures name !in old(sessions) ==> r == Ok(false) && disk.files == old(disk.files)
      ensures name in old(sessions) && backup && sessionFile in old(disk.files) && !copied ==>
                r.Raises? && disk.files == old(disk.files)
      ensures name in old(sessions) && !(backup && sessionFile in old(disk.files) && !copied) ==>
                r == Ok(w == Written)
                && disk.files == AfterWrite(BackedUp(old(disk.files), sessionFile, backup, true),
                                            sessionFile, SessionsJson(sessions), w)
    {
      if name in sessions {
        sessions := sessions - {name};
        r := SaveSessions(copied, w);
      } else {
        r := Ok(false);
      }
    }

    /** `clear_session`: an existing session is emptied but keeps its name. */
    method ClearSession(name: string, copied: bool, w: WriteOutcome) returns (r: Result<bool>)
      modifies this, disk
      ensures name in old(sessions) ==> sessions == old(sessions)[name := []]
      ensures name !in old(sessions) ==> sessions == old(sessions) && r == Ok(false) && disk.files == old(disk.files)
      ensures name in old(sessions) && backup && sessionFile in old(disk.files) && !copied ==>
                r.Raises? && disk.files == old(disk.files)
      ensures name in old(sessions) && !(backup && sessionFile in old(disk.files) && !copied) ==>
                r == Ok(w == Written)
                && disk.files == AfterWrite(BackedUp(old(disk.files), sessionFile, backup, true),
                                            sessionFile, SessionsJson(sessions), w)
    {
      if name in sessions {
        sessions := sessions[name := []];
        r := SaveSessions(copied, w);
      } else {
        r := Ok(false);
      }
    }

    /** `export_session`: writes one session as a list to `exportPath`; every
        failure answers false. */
    method ExportSession(name: string, exportPath: string, w: WriteOutcome) returns (ok: bool)
      modifies disk
      ensures name in sessions ==> ok == (w == Written)
                                   && disk.files == AfterWrite(old(disk.files), exportPath, SessionJson(sessions[name]), w)
      ensures name !in sessions ==> !ok && disk.files == old(disk.files)
    {
      ok := false;
      if name in sessions {
        disk.files := AfterWrite(disk.files, exportPath, SessionJson(sessions[name]), w);
        ok := w == Written;
      }
    }

    /** `import_session`: a list read from `importPath` becomes the session
        `newName` (its non-dictionary entries dropped) and everything is
        saved; any failure, including a failed backup copy, answers false,
        and in that last case the session is already replaced in memory. */
    method ImportSession(importPath: string, newName: string, copied: bool, w: WriteOutcome) returns (ok: bool)
      modifies this, disk
      ensures Imported(old(disk.files), importPath).None? ==>
                !ok && sessions == old(sessions) && disk.files == old(disk.files)
      ensures Imported(old(disk.files), importPath).Some? ==>
                sessions == old(sessions)[newName := Imported(old(disk.files), importPath).value]
      ensures Imported(old(disk.files), importPath).Some? && backup && sessionFile in old(disk.files) && !copied ==>
                !ok && disk.files == old(disk.files)
      ensures Imported(old(disk.files), importPath).Some? && !(backup && sessionFile in old(disk.files) && !copied) ==>
                ok == (w == Written)
                && disk.files == AfterWrite(BackedUp(old(disk.files), sessionFile, backup, true),
                                            sessionFile, SessionsJson(sessions), w)
    {
      if importPath !in disk.files || !disk.files[importPath].Parsed? {
        return false;
      }
      var items := disk.files[importPath].value;
      if !items.JArr? {
        return false;
      }
      sessions := sessions[newName := Dicts(items.items)];
      var saved := SaveSessions(copied, w);
      ok := saved.Ok? && saved.value;
    }
  }
}
