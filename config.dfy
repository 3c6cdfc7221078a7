/** Configuration: the defaults, the shallow merge of a user file over them,
    and the derived keys that are added on load and stripped on save. */
module Config {
  import opened Wrappers
  import opened Text
  import opened JsonFiles

  const DefaultSessionName: string := "默认会话"
  const SessionDataFileKey: string := "session_data_file"
  const LogFileKey: string := "log_file"
  const SessionDataFileNameKey: string := "session_data_file_name"
  const LogFileNameKey: string := "log_file_name"

  /** The keys of the default configuration: the only keys a user file may set. */
  const KnownKeys: set<string> := {
    "exclude_process_paths", "exclude_window_titles", "browser_executables",
    SessionDataFileNameKey, LogFileNameKey, "window_title_similarity_threshold",
    "restore_delay_seconds", "backup_session_data", "startup_delay_seconds"}

  /** The keys `load_config` derives and `save_config` strips. */
  const DerivedKeys: set<string> := {SessionDataFileKey, LogFileKey}

  /** The environment the defaults depend on: WINDIR, PROGRAMFILES (either
      may be unset) and the running interpreter `sys.executable`. */
  datatype Env = Env(windir: Option<string>, programFiles: Option<string>, pythonExe: string)

  /** The typed view of a loaded configuration that capture and restore read. */
  datatype Settings = Settings(
    excludeProcessPaths: seq<string>,
    excludeWindowTitles: seq<string>,
    browserExecutables: seq<string>,
    similarityThreshold: real,
    backupSessionData: bool,
    sessionDataFile: string)

  function OrDefault(v: Option<string>, d: string): string
  {
    if v.Some? then v.value else d
  }

  function JoinAll(parts: seq<string>): string
    requires |parts| > 0
  {
    if |parts| == 1 then parts[0] else Join(JoinAll(parts[..|parts| - 1]), parts[|parts| - 1])
  }

  function ExcludedProcessPaths(env: Env): seq<string>
  {
    var w := OrDefault(env.windir, "C:\\Windows");
    var pf := OrDefault(env.programFiles, "C:\\Program Files");
    var terminal := "Microsoft.WindowsTerminal_8wekyb3d8bbwe";
    [ NormCase(JoinAll([w, "System32", "svchost.exe"])),
      NormCase(JoinAll([w, "explorer.exe"])),
      NormCase(JoinAll([w, "System32", "dwm.exe"])),
      NormCase(JoinAll([w, "System32", "conhost.exe"])),
      NormCase(JoinAll([w, "SystemApps", "Microsoft.Windows.StartMenuExperienceHost_cw5n1h2txyewy",
                        "StartMenuExperienceHost.exe"])),
      NormCase(JoinAll([w, "System32", "RuntimeBroker.exe"])),
      NormCase(JoinAll([pf, "WindowsApps", terminal, "wt.exe"])),
      NormCase(JoinAll([pf, "WindowsApps", terminal, "WindowsTerminal.exe"])),
      NormCase(env.pythonExe) ]
  }

  const ExcludedWindowTitles: seq<string> := [
    "Program Manager", "Default IME", "MSCTFIME UI", "NVIDIA GeForce Overlay",
    "Settings", "Microsoft Text Input Application", "dummyLayeredWnd"]

  const BrowserExecutables: seq<string> := [
    "chrome.exe", "msedge.exe", "firefox.exe", "brave.exe", "opera.exe"]

  function Strings(xs: seq<string>): seq<Json>
  {
    seq(|xs|, i requires 0 <= i < |xs| => JStr(xs[i]))
  }

  /** `get_default_config`. */
  function DefaultConfig(env: Env): (d: map<string, Json>)
    ensures d.Keys == KnownKeys && d.Keys !! DerivedKeys
    ensures d[SessionDataFileNameKey] == JStr("sessions.json")
    ensures d[LogFileNameKey] == JStr("session_manager.log")
    ensures d["window_title_similarity_threshold"] == JNum(0.7)
    ensures d["backup_session_data"] == JBool(true)
    ensures d["browser_executables"] == JArr(Strings(BrowserExecutables))
  {
    map[
      "exclude_process_paths" := JArr(Strings(ExcludedProcessPaths(env))),
      "exclude_window_titles" := JArr(Strings(ExcludedWindowTitles)),
      "browser_executables" := JArr(Strings(BrowserExecutables)),
      SessionDataFileNameKey := JStr("sessions.json"),
      LogFileNameKey := JStr("session_manager.log"),
      "window_title_similarity_threshold" := JNum(0.7),
      "restore_delay_seconds" := JNum(0.1),
      "backup_session_data" := JBool(true),
      "startup_delay_seconds" := JNum(2.0)]
  }

  /** Every key of `defaults`, with the user's value where the user file has one. */
  function Merged(defaults: map<string, Json>, user: map<string, Json>): map<string, Json>
  {
    map k | k in defaults :: if k in user then user[k] else defaults[k]
  }

  /** The loop of `load_config` over the user file's keys: a key the defaults
      know replaces the whole default value, any other key is ignored. */
  method MergeUserConfig(defaults: map<string, Json>, user: map<string, Json>)
    returns (cfg: map<string, Json>)
    ensures cfg.Keys == defaults.Keys
    ensures forall k :: k in defaults && k in user ==> cfg[k] == user[k]
    ensures forall k :: k in defaults && k !in user ==> cfg[k] == defaults[k]
    ensures cfg == Merged(defaults, user)
  {
    cfg := defaults;
    var rest := user.Keys;
    ghost var done: set<string> := {};
    while rest != {}
      invariant rest + done == user.Keys && rest !! done
      invariant cfg.Keys == defaults.Keys
      invariant forall k :: k in defaults && k in done ==> cfg[k] == user[k]
      invariant forall k :: k in defaults && k !in done ==> cfg[k] == defaults[k]
      decreases rest
    {
      var key :| key in rest;
      if key in cfg {
        cfg := cfg[key := user[key]];
      }
      rest := rest - {key};
      done := done + {key};
    }
  }

  /** Adds the two derived paths; `os.path.join` raises on a name that is not a string. */
  function WithDerived(cfg: map<string, Json>, scriptDir: string): Result<map<string, Json>>
    requires SessionDataFileNameKey in cfg && LogFileNameKey in cfg
  {
    if !cfg[SessionDataFileNameKey].JStr? || !cfg[LogFileNameKey].JStr? then Raises("TypeError")
    else Ok(cfg[SessionDataFileKey := JStr(Join(scriptDir, cfg[SessionDataFileNameKey].s))]
               [LogFileKey := JStr(Join(scriptDir, cfg[LogFileNameKey].s))])
  }

  /** What `load_config` returns for the configuration file's state (None when
      the file does not exist). A file that cannot be read or parsed, or whose
      top level is not an object, gives the defaults. */
  function LoadedConfig(file: Option<Contents>, scriptDir: string, env: Env): Result<map<string, Json>>
  {
    var defaults := DefaultConfig(env);
    var base := if file.Some? && file.value.Parsed? && file.value.value.JObj?
                then Merged(defaults, file.value.value.fields) else defaults;
    WithDerived(base, scriptDir)
  }

  /** What `load_config` promises about the configuration it returns. */
  lemma LoadedConfigMeaning(file: Option<Contents>, scriptDir: string, env: Env)
    ensures var r := LoadedConfig(file, scriptDir, env);
            r.Ok? ==> r.value.Keys == KnownKeys + DerivedKeys
                      && r.value[SessionDataFileNameKey].JStr?
                      && r.value[SessionDataFileKey] == JStr(Join(scriptDir, r.value[SessionDataFileNameKey].s))
                      && r.value[LogFileNameKey].JStr?
                      && r.value[LogFileKey] == JStr(Join(scriptDir, r.value[LogFileNameKey].s))
    ensures (file.None? || file.value.Unreadable? || !file.value.value.JObj?) ==>
              LoadedConfig(file, scriptDir, env) == WithDerived(DefaultConfig(env), scriptDir)
              && LoadedConfig(file, scriptDir, env).Ok?
    ensures file.Some? && file.value.Parsed? && file.value.value.JObj? ==>
              var user := file.value.value.fields;
              var r := LoadedConfig(file, scriptDir, env);
              (r.Ok? <==> forall k :: k in {SessionDataFileNameKey, LogFileNameKey} && k in user ==> user[k].JStr?)
              && (r.Ok? ==> forall k :: k in KnownKeys ==> r.value[k] == if k in user then user[k] else DefaultConfig(env)[k])
  {
  }

  /** `save_config`: what is written is the configuration without its derived keys. */
  function Stripped(cfg: map<string, Json>): map<string, Json>
  {
    cfg - DerivedKeys
  }

  method SaveConfig(disk: Disk, cfg: map<string, Json>, filename: string, write: WriteOutcome)
    modifies disk
    ensures disk.files == AfterWrite(old(disk.files), filename, JObj(Stripped(cfg)), write)
  {
    var saveData := cfg;
    if SessionDataFileKey in saveData {
      saveData := saveData - {SessionDataFileKey};
    }
    if LogFileKey in saveData {
      saveData := saveData - {LogFileKey};
    }
    assert saveData == Stripped(cfg);
    disk.files := AfterWrite(disk.files, filename, JObj(saveData), write);
  }

  /** `load_config`: a missing file yields the defaults and writes them. */
  method LoadConfig(disk: Disk, filename: string, scriptDir: string, env: Env, write: WriteOutcome)
    returns (r: Result<map<string, Json>>)
    modifies disk
    ensures r == LoadedConfig(if filename in old(disk.files) then Some(old(disk.files)[filename]) else None, scriptDir, env)
    ensures filename in old(disk.files) ==> disk.files == old(disk.files)
    ensures filename !in old(disk.files) ==>
              disk.files == AfterWrite(old(disk.files), filename, JObj(DefaultConfig(env)), write)
  {
    var current := DefaultConfig(env);
    if filename in disk.files {
      match disk.files[filename]
      case Parsed(JObj(user)) =>
        current := MergeUserConfig(current, user);
      case _ =>
    } else {
      assert Stripped(current) == current;
      SaveConfig(disk, current, filename, write);
    }
    r := WithDerived(current, scriptDir);
  }

  /** Saving a loaded configuration and loading it again gives it back. */
  lemma SaveLoadRoundTrip(file: Option<Contents>, scriptDir: string, env: Env)
    requires LoadedConfig(file, scriptDir, env).Ok?
    ensures var cfg := LoadedConfig(file, scriptDir, env).value;
            LoadedConfig(Some(Parsed(JObj(Stripped(cfg)))), scriptDir, env) == Ok(cfg)
  {
    var defaults := DefaultConfig(env);
    var base := if file.Some? && file.value.Parsed? && file.value.value.JObj?
                then Merged(defaults, file.value.value.fields) else defaults;
    assert base.Keys == KnownKeys;
    var cfg := WithDerived(base, scriptDir).value;
    assert Stripped(cfg) == base;
    assert Merged(defaults, base) == base;
  }
}
