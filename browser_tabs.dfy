/** Reading a browser's recent pages from its history database and
    re-opening a list of pages in a browser. */
module BrowserTabs {
  import opened Wrappers
  import opened Text
  import opened Os
  import opened Tabs
  import Config

  const SupportedBrowsers: set<string> := {"chrome.exe", "msedge.exe", "firefox.exe", "brave.exe", "opera.exe"}
  /** The browsers whose history is read by the Chromium reader directly. */
  const ChromiumReaders: set<string> := {"chrome.exe", "msedge.exe", "brave.exe"}
  /** The browsers re-opened through a generated page. */
  const ChromiumRestorers: set<string> := {"chrome.exe", "msedge.exe", "brave.exe", "opera.exe"}

  const HistoryLimit: nat := 30
  const UntitledPage: string := "无标题"

  /** `data_path` of each supported browser's profile. */
  function DataPath(exe: string, host: Host): string
    requires exe in SupportedBrowsers
  {
    match exe
    case "chrome.exe" => Config.JoinAll([host.localAppData, "Google", "Chrome", "User Data"])
    case "msedge.exe" => Config.JoinAll([host.localAppData, "Microsoft", "Edge", "User Data"])
    case "firefox.exe" => Config.JoinAll([host.appData, "Mozilla", "Firefox", "Profiles"])
    case "brave.exe" => Config.JoinAll([host.localAppData, "BraveSoftware", "Brave-Browser", "User Data"])
    case _ => Config.JoinAll([host.appData, "Opera Software", "Opera Stable"])
  }

  /** `default_profile`: Firefox and Opera have none. */
  function DefaultProfile(exe: string): Option<string>
  {
    if exe in ChromiumReaders then Some("Default") else None
  }

  /** `command_line_args` of a profile; None for an unknown executable. */
  function CommandLineArgs(exe: string): Option<string>
  {
    if exe !in SupportedBrowsers then None
    else if exe == "firefox.exe" then Some("-new-tab")
    else Some("--restore-last-session")
  }

  // ---------------------------------------------------------------- reading

  /** The lower-cased file name of an executable path. */
  function ExeName(path: string): string
  {
    Lower(Basename(path))
  }

  predicate RunsAs(p: Proc, exe: string)
  {
    p.exe != "" && ExeName(p.exe) == exe
  }

  /** The pid of the first process running as `exe`. */
  function FirstPid(procs: seq<Proc>, exe: string): (r: Option<int>)
    ensures r.None? <==> forall i :: 0 <= i < |procs| ==> !RunsAs(procs[i], exe)
    ensures r.Some? ==> exists i :: 0 <= i < |procs| && RunsAs(procs[i], exe) && r.value == procs[i].pid
                                   && forall j :: 0 <= j < i ==> !RunsAs(procs[j], exe)
  {
    if procs == [] then None
    else if RunsAs(procs[0], exe) then Some(procs[0].pid)
    else
      var r := FirstPid(procs[1..], exe);
      assert forall i :: 1 <= i < |procs| ==> procs[i] == procs[1..][i - 1];
      if r.Some? then
        var i :| 0 <= i < |procs| - 1 && RunsAs(procs[1..][i], exe) && r.value == procs[1..][i].pid
                 && forall j :: 0 <= j < i ==> !RunsAs(procs[1..][j], exe);
        assert RunsAs(procs[i + 1], exe);
        r
      else r
  }

  /** `get_browser_pid`: the pid of the first process whose executable has
      the same lower-cased basename as `path`. The window title is unused. */
  function BrowserPid(path: string, procs: seq<Proc>): Option<int>
  {
    FirstPid(procs, Lower(Basename(path)))
  }

  function RowTab(row: Row): Tab
  {
    Tab(if row.title != "" then row.title else UntitledPage, row.url, None, None)
  }

  /** The tabs made from the rows of a history query, newest first. */
  function HistoryTabs(rows: seq<Row>): (r: seq<Tab>)
  {
    if rows == [] then [] else HistoryTabs(rows[..|rows| - 1]) + [RowTab(rows[|rows| - 1])]
  }

  /** The row loop of the history readers; the query's `LIMIT 30` is applied
      to the rows first. */
  method ReadHistory(rows: seq<Row>) returns (tabs: seq<Tab>)
    ensures |tabs| == if |rows| < HistoryLimit then |rows| else HistoryLimit
    ensures forall i :: 0 <= i < |tabs| ==> tabs[i].url == rows[i].url && tabs[i].title != ""
    ensures forall i :: 0 <= i < |tabs| && rows[i].title != "" ==> tabs[i].title == rows[i].title
    ensures forall i :: 0 <= i < |tabs| && rows[i].title == "" ==> tabs[i].title == UntitledPage
  {
    var fetched := if |rows| < HistoryLimit then rows else rows[..HistoryLimit];
    tabs := [];
    var i := 0;
    while i < |fetched|
      invariant 0 <= i <= |fetched|
      invariant |tabs| == i
      invariant forall j :: 0 <= j < i ==> tabs[j] == RowTab(fetched[j])
    {
      var row := fetched[i];
      tabs := tabs + [Tab(if row.title != "" then row.title else UntitledPage, row.url, None, None)];
      i := i + 1;
    }
  }

  /** The tabs a history database yields: nothing when it is missing or the
      copy or the query fails. */
  function DatabaseTabs(db: string, host: Host): seq<Tab>
  {
    if !host.present(db) then []
    else match host.history(db)
      case None => []
      case Some(rows) =>
        HistoryTabs(if |rows| < HistoryLimit then rows else rows[..HistoryLimit])
  }

  /** `get_chromium_tabs`: the profile path joins the data path with the
      default profile; a profile without one raises inside the guarded block,
      so the result is empty. */
  function ChromiumTabs(exe: string, host: Host): seq<Tab>
    requires exe in SupportedBrowsers
  {
    match DefaultProfile(exe)
    case None => []
    case Some(profile) => DatabaseTabs(Join(Join(DataPath(exe, host), profile), "History"), host)
  }

  predicate IsDefaultProfileName(name: string)
  {
    EndsWith(name, ".default") || EndsWith(name, ".default-release")
  }

  function FirstNamed(entries: seq<DirEntry>): (r: Option<string>)
    ensures r.None? <==> forall i :: 0 <= i < |entries| ==> !IsDefaultProfileName(entries[i].name)
    ensures r.Some? ==> exists i :: 0 <= i < |entries| && r.value == entries[i].name
                                   && IsDefaultProfileName(entries[i].name)
                                   && forall j :: 0 <= j < i ==> !IsDefaultProfileName(entries[j].name)
  {
    if entries == [] then None
    else if IsDefaultProfileName(entries[0].name) then Some(entries[0].name)
    else
      var r := FirstNamed(entries[1..]);
      assert forall i :: 1 <= i < |entries| ==> entries[i] == entries[1..][i - 1];
      r
  }

  function FirstDir(entries: seq<DirEntry>): (r: Option<string>)
    ensures r.None? <==> forall i :: 0 <= i < |entries| ==> !entries[i].isDir
    ensures r.Some? ==> exists i :: 0 <= i < |entries| && r.value == entries[i].name && entries[i].isDir
                                   && forall j :: 0 <= j < i ==> !entries[j].isDir
  {
    if entries == [] then None
    else if entries[0].isDir then Some(entries[0].name)
    else
      var r := FirstDir(entries[1..]);
      assert forall i :: 1 <= i < |entries| ==> entries[i] == entries[1..][i - 1];
      r
  }

  /** `find_firefox_profile_dir`: the first entry named like a default
      profile, else the first directory, joined to the profiles folder. */
  function FindFirefoxProfileDir(host: Host): (r: Option<string>)
    ensures var root := DataPath("firefox.exe", host);
            !host.present(root) || host.listDir(root).None? ==> r.None?
    ensures var root := DataPath("firefox.exe", host);
            host.present(root) && host.listDir(root).Some? ==>
              var entries := host.listDir(root).value;
              if FirstNamed(entries).Some? then r == Some(Join(root, FirstNamed(entries).value))
              else if FirstDir(entries).Some? then r == Some(Join(root, FirstDir(entries).value))
              else r.None?
  {
    var root := DataPath("firefox.exe", host);
    if !host.present(root) then None
    else match host.listDir(root)
      case None => None
      case Some(entries) =>
        match FirstNamed(entries)
        case Some(name) => Some(Join(root, name))
        case None =>
          match FirstDir(entries)
          case Some(name) => Some(Join(root, name))
          case None => None
  }

  /** `get_firefox_tabs`. */
  function FirefoxTabs(host: Host): seq<Tab>
  {
    match FindFirefoxProfileDir(host)
    case None => []
    case Some(dir) => DatabaseTabs(Join(dir, "places.sqlite"), host)
  }

  /** The reader a supported browser with a running process is routed to. */
  function ReadTabs(exe: string, host: Host): seq<Tab>
    requires exe in SupportedBrowsers
  {
    if exe in ChromiumReaders then ChromiumTabs(exe, host)
    else if exe == "firefox.exe" then FirefoxTabs(host)
    else ChromiumTabs("opera.exe", host)
  }

  /** `get_browser_tabs`: dispatch on the lower-cased basename; an unknown
      browser or one without a running process yields nothing. */
  function GetBrowserTabs(path: string, windowTitle: string, host: Host): (r: seq<Tab>)
    ensures Lower(Basename(path)) !in SupportedBrowsers ==> r == []
    ensures BrowserPid(path, host.processes) in {None, Some(0)} ==> r == []
    ensures Lower(Basename(path)) in SupportedBrowsers && BrowserPid(path, host.processes) !in {None, Some(0)} ==>
              r == ReadTabs(Lower(Basename(path)), host)
  {
    var exe := Lower(Basename(path));
    if exe !in SupportedBrowsers then []
    else match BrowserPid(path, host.processes)
      case None => []
      case Some(pid) => if pid == 0 then [] else ReadTabs(exe, host)
  }

  lemma {:induction false} HistoryTabsShape(rows: seq<Row>)
    ensures |HistoryTabs(rows)| == |rows|
    ensures forall i :: 0 <= i < |rows| ==> HistoryTabs(rows)[i] == RowTab(rows[i])
  {
    if rows != [] {
      HistoryTabsShape(rows[..|rows| - 1]);
    }
  }

  /** A history database yields at most thirty titled pages. */
  lemma DatabaseTabsBounded(db: string, host: Host)
    ensures |DatabaseTabs(db, host)| <= HistoryLimit
    ensures forall t :: t in DatabaseTabs(db, host) ==> t.title != "" && t.source.None?
  {
    if host.present(db) && host.history(db).Some? {
      var rows := host.history(db).value;
      HistoryTabsShape(if |rows| < HistoryLimit then rows else rows[..HistoryLimit]);
    }
  }

  /** Whatever a supported browser yields is at most thirty titled pages
      from its history database. */
  lemma BrowserTabsFromHistory(path: string, windowTitle: string, host: Host)
    ensures var r := GetBrowserTabs(path, windowTitle, host);
            |r| <= HistoryLimit && forall t :: t in r ==> t.title != "" && t.source.None?
  {
    var exe := Lower(Basename(path));
    if exe in SupportedBrowsers && BrowserPid(path, host.processes) !in {None, Some(0)} {
      if exe in ChromiumReaders {
        DatabaseTabsBounded(Join(Join(DataPath(exe, host), "Default"), "History"), host);
      } else if exe == "firefox.exe" && FindFirefoxProfileDir(host).Some? {
        DatabaseTabsBounded(Join(FindFirefoxProfileDir(host).value, "places.sqlite"), host);
      }
    }
  }

  /** The Opera profile has no default profile, so Opera never yields a tab. */
  lemma OperaYieldsNothing(path: string, windowTitle: string, host: Host)
    requires Lower(Basename(path)) == "opera.exe"
    ensures GetBrowserTabs(path, windowTitle, host) == []
  {
    assert "opera.exe" !in ChromiumReaders;
  }

  // ---------------------------------------------------------------- restoring

  /** A JavaScript single-quoted string literal body, decoded up to its
      closing quote: the decoded text and what follows the quote. Only the
      `\\` and `\'` escapes are read; any other escape, a line break, or a
      missing closing quote gives None. */
  function ParseLiteral(s: string): Option<(string, string)>
    decreases |s|
  {
    if s == [] || s[0] == '\n' || s[0] == '\r' then None
    else if s[0] == '\'' then Some(("", s[1..]))
    else if s[0] == '\\' then
      if |s| >= 2 && (s[1] == '\\' || s[1] == '\'') then
        match ParseLiteral(s[2..])
        case None => None
        case Some(p) => Some(([s[1]] + p.0, p.1))
      else None
    else
      match ParseLiteral(s[1..])
      case None => None
      case Some(p) => Some(([s[0]] + p.0, p.1))
  }

  /** The escaping the page generator applies to a URL: `'` becomes `\'`. */
  function EscapeQuotesAsWritten(s: string): string
  {
    if s == [] then []
    else (if s[0] == '\'' then "\\'" else [s[0]]) + EscapeQuotesAsWritten(s[1..])
  }

  /** The escaping a JavaScript string literal needs: `\` and `'` are
      both preceded by a backslash. */
  function EscapeQuotes(s: string): string
  {
    if s == [] then []
    else (if s[0] == '\'' || s[0] == '\\' then ['\\', s[0]] else [s[0]]) + EscapeQuotes(s[1..])
  }

  predicate NoLineBreak(s: string)
  {
    forall i :: 0 <= i < |s| ==> s[i] != '\n' && s[i] != '\r'
  }

  /** Every URL without a line break survives being written into the list. */
  lemma {:induction false} EscapeRoundTrip(url: string, rest: string)
    requires NoLineBreak(url)
    ensures ParseLiteral(EscapeQuotes(url) + "'" + rest) == Some((url, rest))
  {
    if url != [] {
      EscapeRoundTrip(url[1..], rest);
      var tail := EscapeQuotes(url[1..]) + "'" + rest;
      if url[0] == '\'' || url[0] == '\\' {
        assert EscapeQuotes(url) + "'" + rest == ['\\', url[0]] + tail;
        assert (['\\', url[0]] + tail)[2..] == tail;
        assert [url[0]] + url[1..] == url;
      } else {
        assert EscapeQuotes(url) + "'" + rest == [url[0]] + tail;
        assert ([url[0]] + tail)[1..] == tail;
        assert [url[0]] + url[1..] == url;
      }
    }
  }

  /** A URL ending in a backslash escapes the closing quote as written: its
      literal no longer ends where the generator meant it to. */
  lemma AsWrittenBreaksOnBackslash()
    ensures ParseLiteral(EscapeQuotesAsWritten("a\\") + "',\n") == None
    ensures ParseLiteral(EscapeQuotes("a\\") + "',\n") == Some(("a\\", ",\n"))
  {
    assert EscapeQuotesAsWritten("a\\") + "',\n" == "a\\',\n";
    assert ParseLiteral("\n") == None;
    assert ParseLiteral(",\n") == None;
    assert ParseLiteral("\\',\n") == None;
    EscapeRoundTrip("a\\", ",\n");
    assert EscapeQuotes("a\\") + "'" + ",\n" == EscapeQuotes("a\\") + "',\n";
  }

  /** Both escapings agree on URLs without a backslash. */
  lemma {:induction false} EscapesAgreeWithoutBackslash(url: string)
    requires forall i :: 0 <= i < |url| ==> url[i] != '\\'
    ensures EscapeQuotesAsWritten(url) == EscapeQuotes(url)
  {
    if url != [] {
      EscapesAgreeWithoutBackslash(url[1..]);
    }
  }

  /** One line of the generated `urls` array, escaped as the program
      does it: quotes only. */
  function ScriptLine(url: string): string
  {
    "        '" + EscapeQuotesAsWritten(url) + "',\n"
  }

  /** The same line with backslashes escaped as well. */
  function CorrectedScriptLine(url: string): string
  {
    "        '" + EscapeQuotes(url) + "',\n"
  }

  /** The array lines for `tabs`, in order; a tab's missing url is "". */
  function ScriptList(tabs: seq<Tab>): string
  {
    if tabs == [] then "" else ScriptList(tabs[..|tabs| - 1]) + ScriptLine(tabs[|tabs| - 1].url)
  }

  /** A generated line holds a URL without backslashes or line breaks as
      one literal followed by `,` and a line break. */
  lemma ScriptLineRoundTrip(url: string)
    requires NoLineBreak(url)
    requires forall i :: 0 <= i < |url| ==> url[i] != '\\'
    ensures ParseLiteral(ScriptLine(url)[9..]) == Some((url, ",\n"))
  {
    EscapesAgreeWithoutBackslash(url);
    assert ScriptLine(url)[9..] == EscapeQuotes(url) + "'" + ",\n";
    EscapeRoundTrip(url, ",\n");
  }

  /** The line the program writes for `a\` leaves its literal open. */
  lemma ScriptLineBreaksOnBackslash()
    ensures ParseLiteral(ScriptLine("a\\")[9..]) == None
  {
    assert ScriptLine("a\\")[9..] == EscapeQuotesAsWritten("a\\") + "',\n";
    AsWrittenBreaksOnBackslash();
  }

  /** With backslashes escaped, every line-break-free URL reads back. */
  lemma CorrectedScriptLineRoundTrip(url: string)
    requires NoLineBreak(url)
    ensures ParseLiteral(CorrectedScriptLine(url)[9..]) == Some((url, ",\n"))
  {
    assert CorrectedScriptLine(url)[9..] == EscapeQuotes(url) + "'" + ",\n";
    EscapeRoundTrip(url, ",\n");
  }

  /** The name matches some process name, ignoring case. */
  predicate Running(procs: seq<Proc>, exe: string)
  {
    exists i :: 0 <= i < |procs| && procs[i].name.Some? && Lower(procs[i].name.value) == exe
  }

  /** The process loop of the restorers. */
  method IsRunning(procs: seq<Proc>, exe: string) returns (running: bool)
    ensures running <==> Running(procs, exe)
  {
    running := false;
    var i := 0;
    while i < |procs|
      invariant 0 <= i <= |procs|
      invariant !Running(procs[..i], exe)
    {
      if procs[i].name.Some? && Lower(procs[i].name.value) == exe {
        assert procs[..i + 1][i] == procs[i];
        running := true;
        return;
      }
      assert forall j :: 0 <= j < i ==> procs[..i + 1][j] == procs[..i][j];
      i := i + 1;
    }
    assert procs[..i] == procs;
  }

  /** The command that opens the generated page: the browser's own
      start-up arguments are added only when it is not running yet. */
  function ChromiumCommand(path: string, running: bool, page: string): (cmd: seq<string>)
    ensures |cmd| >= 2 && cmd[0] == path && cmd[|cmd| - 1] == page
    ensures running ==> cmd == [path, page]
    ensures !running && CommandLineArgs(Lower(Basename(path))).Some? ==>
              cmd == [path, CommandLineArgs(Lower(Basename(path))).value, page]
    ensures !running && CommandLineArgs(Lower(Basename(path))).None? ==> cmd == [path, page]
  {
    var args := CommandLineArgs(Lower(Basename(path)));
    if running then [path, page]
    else [path] + (if args.Some? && args.value != "" then [args.value] else []) + [page]
  }

  /** What a restorer hands to the launcher: the command, and for Chromium
      browsers the array lines of the page it opens. */
  datatype Launch = Launch(cmd: seq<string>, script: Option<string>)

  /** `restore_chromium_tabs`: `ok` is whether writing the page and starting
      the process succeeded. */
  method RestoreChromiumTabs(path: string, tabs: seq<Tab>, procs: seq<Proc>, pagePath: string, started: bool)
    returns (ok: bool, launch: Launch)
    ensures launch.script == Some(ScriptList(tabs))
    ensures launch.cmd == ChromiumCommand(path, Running(procs, Lower(Basename(path))), pagePath)
    ensures ok == started
  {
    var exe := Lower(Basename(path));
    var running := IsRunning(procs, exe);
    var script := "";
    var i := 0;
    while i < |tabs|
      invariant 0 <= i <= |tabs|
      invariant script == ScriptList(tabs[..i])
    {
      assert tabs[..i + 1][..i] == tabs[..i];
      script := script + "        '" + EscapeQuotesAsWritten(tabs[i].url) + "',\n";
      i := i + 1;
    }
    assert tabs[..i] == tabs;
    var cmd := [path];
    if running {
      cmd := cmd + [pagePath];
    } else {
      var args := CommandLineArgs(exe);
      if args.Some? && args.value != "" {
        cmd := cmd + [args.value];
      }
      cmd := cmd + [pagePath];
    }
    ok := started;
    launch := Launch(cmd, Some(script));
  }

  function Urls(tabs: seq<Tab>): (r: seq<string>)
    ensures |r| == |tabs| && forall i :: 0 <= i < |tabs| ==> r[i] == tabs[i].url
  {
    seq(|tabs|, i requires 0 <= i < |tabs| => tabs[i].url)
  }

  /** `restore_firefox_tabs`: the path, `-new-window` only when Firefox is
      not running, then every URL in order. */
  method RestoreFirefoxTabs(path: string, tabs: seq<Tab>, procs: seq<Proc>, started: bool)
    returns (ok: bool, launch: Launch)
    ensures launch.script.None?
    ensures launch.cmd == [path] + (if Running(procs, "firefox.exe") then [] else ["-new-window"]) + Urls(tabs)
    ensures ok == started
  {
    var running := IsRunning(procs, "firefox.exe");
    var cmd := [path];
    if !running {
      cmd := cmd + ["-new-window"];
    }
    ghost var head := cmd;
    var i := 0;
    while i < |tabs|
      invariant 0 <= i <= |tabs|
      invariant cmd == head + Urls(tabs[..i])
    {
      cmd := cmd + [tabs[i].url];
      i := i + 1;
    }
    assert tabs[..i] == tabs;
    ok := started;
    launch := Launch(cmd, None);
  }

  /** `find_browser_path` found something. */
  predicate Found(path: Option<string>)
  {
    path.Some? && path.value != ""
  }

  /** `restore_browser_tabs`: `findPath` is what `find_browser_path`
      answers, `started` whether the restorer's launch succeeds. */
  method RestoreBrowserTabs(exe: string, tabs: seq<Tab>, findPath: string -> Option<string>, procs: seq<Proc>,
                            pagePath: string, started: bool)
    returns (ok: bool, launch: Option<Launch>)
    ensures tabs == [] ==> ok && launch.None?
    ensures tabs != [] && Lower(exe) !in SupportedBrowsers ==> !ok && launch.None?
    ensures tabs != [] && Lower(exe) in SupportedBrowsers && !Found(findPath(exe)) ==>
              !ok && launch.None?
    ensures launch.Some? ==> |launch.value.cmd| >= 2
    ensures launch.Some? && Lower(exe) == "firefox.exe" ==> |launch.value.cmd| > |tabs|
    ensures launch.Some? ==> ok == started && findPath(exe).Some? && launch.value.cmd[0] == findPath(exe).value
    ensures launch.Some? && Lower(exe) == "firefox.exe" ==> launch.value.cmd[|launch.value.cmd| - |tabs|..] == Urls(tabs)
    ensures launch.Some? && Lower(exe) in ChromiumRestorers ==> launch.value.script == Some(ScriptList(tabs))
    ensures tabs != [] && Lower(exe) in SupportedBrowsers && Found(findPath(exe)) ==> launch.Some?
  {
    if tabs == [] {
      return true, None;
    }
    if Lower(exe) !in SupportedBrowsers {
      return false, None;
    }
    var path := findPath(exe);
    if !Found(path) {
      return false, None;
    }
    var l: Launch;
    if Lower(exe) in ChromiumRestorers {
      ok, l := RestoreChromiumTabs(path.value, tabs, procs, pagePath, started);
    } else {
      ok, l := RestoreFirefoxTabs(path.value, tabs, procs, started);
    }
    launch := Some(l);
  }
}
