# Windows session manager — a Dafny model of its core

The program records the state of a Windows desktop as a named *session*:
one entry per open application window (its title and executable path), one
per browser window (with the tabs read for it), and one per running
"special" utility (PixPin, FastOrange, Everything) that often has no window
of its own. Sessions are kept in a JSON file, optionally with a `.bak`
copy, and can be exported, imported and restored. To restore an entry, the
program recognises an application that is already open, or a special
utility whose process already runs; anything else is started again.
Browser tabs come from three tiers:

- a local WebSocket server that a browser extension pushes tab lists to;
- the Chrome DevTools endpoints;
- the browsers' history databases.

The model follows the Python package module by module:

| Dafny module | file | models |
|---|---|---|
| `Wrappers`, `Text`, `JsonFiles`, `Os`, `Tabs` | `wrappers.dfy`, `text.dfy`, `json.dfy`, `os_model.dfy`, `tabs.dfy` | option/result values, ASCII lower-casing and path names, decoded JSON and the file system as a map from path to content, what the OS reports, the tab record |
| `Config` | `config.dfy` | `config.py`: defaults, merging a user file over them, derived paths |
| `Utils` | `utils.dfy` | `utils.py`: window relevance, browser test, data-path lookup |
| `ChromeCollector` | `chrome_collector.dfy` | `browser_collectors/chrome_collector.py` |
| `BrowserTabs` | `browser_tabs.dfy` | `browser_tabs.py`: history readers, tab restore commands |
| `WebsocketServer` | `websocket_server.dfy` | `hybrid_tabs/websocket_server.py`: the pushed-tab store |
| `HybridTabs` | `hybrid_tabs_manager.dfy` | `hybrid_tabs/hybrid_tabs_manager.py` |
| `Capture` | `capture.dfy` | `core.py`: `collect_session_data_core` |
| `Restore` | `restore.dfy` | `core.py`: `restore_specific_session_core` |
| `SessionStore` | `session_store.dfy` | `core.py`: `load_all_sessions`, `save_all_sessions`, `SessionManager` |

Everything the operating system, the network or a library answers is a
parameter:

- the window list and the handle-to-executable lookup;
- the process list;
- which paths exist, and directory listings;
- the rows a history query returns;
- whether a port listens, and what a DevTools endpoint answers;
- whether a copy, a write or a launch succeeds;
- the `difflib` similarity ratio, as a function `(string, string) -> real`.

Loops in the source are `while` loops in methods, each proved equal to a
specification function. The properties are proved about those functions.

## Model

| member | source | states |
|---|---|---|
| Text.BasenameShape | session_manager/browser_tabs.py:90 | the base name of a path is a suffix of it and contains no path separator |
| Tabs.TabRoundTrip | session_manager/core.py:46 | a tab stored as a dictionary reads back as the same tab |
| Config.DefaultConfig | session_manager/config.py:23-59 | the defaults have exactly the nine known keys and none of the derived ones; data file `sessions.json`, log `session_manager.log`, threshold 0.7, backups on, the five browser executables |
| Config.MergeUserConfig | session_manager/config.py:66-76 | after the loop over the user file's keys, the keys are the defaults' keys; a known key takes the user's value, every other default is kept, and unknown user keys are ignored |
| Config.LoadedConfigMeaning | session_manager/config.py:61-87 | a loaded configuration has the known and the two derived keys. Each derived path is the script directory joined with its file name. A missing, unreadable or non-object file gives the defaults. For an object file, loading fails exactly when a file-name key holds a non-string; otherwise each known key holds the user's value if given, else the default |
| Config.SaveConfig | session_manager/config.py:89-100 | the file written holds the configuration minus `session_data_file` and `log_file` |
| Config.LoadConfig | session_manager/config.py:61-87 | the result is `LoadedConfig` of the file's state; an existing file is left alone, and a missing one is written with the defaults |
| Config.SaveLoadRoundTrip | session_manager/config.py:84-99 | saving a loaded configuration and loading the saved file gives the same configuration back |
| Utils.LowerAll | session_manager/utils.py:62 | the lowered list has the same length, and each element is the lowered original |
| Utils.InLowerAll | session_manager/utils.py:88 | membership in the lowered list is membership up to case |
| Utils.IsBrowserProcess | session_manager/utils.py:58-63 | true exactly when the path is non-empty and its base name is, up to case, one of the configured browser executables |
| Utils.IsWindowRelevant | session_manager/utils.py:66-103 | a window lacking an attribute is rejected. A kept window yields its own non-empty executable path. Only windows with a special name may be invisible or untitled. An excluded title is always rejected, and an excluded path is rejected unless its base name is special. Every other window that resolves to a non-empty path is kept |
| Utils.FirstExisting | session_manager/utils.py:135-140 | the result is the first existing path in list order, and None exactly when none exists |
| Utils.GetValidDataPath | session_manager/utils.py:125-140 | an unknown browser gives None; otherwise the first existing candidate path of that browser, and None only when none exists |
| ChromeCollector.Ports | session_manager/browser_collectors/chrome_collector.py:21-23 | the first port is the browser's mapped port, or 9222 for an unknown browser; the fallback ports 9222-9226 follow exactly when that port does not listen |
| ChromeCollector.BestIndex | session_manager/browser_collectors/chrome_collector.py:32-40 | the chosen tab is titled and scores above 0.3; every earlier titled tab scores strictly lower and every later one no higher; -1 exactly when no tab qualifies |
| ChromeCollector.WindowTabs | session_manager/browser_collectors/chrome_collector.py:44-54 | every tab kept has a URL that is non-empty and not a `chrome://` or `about:` page, a non-empty title (its URL when untitled) and the source `devtools` |
| ChromeCollector.WindowTabsInOrder | session_manager/browser_collectors/chrome_collector.py:44-54 | the tabs kept are exactly the target window's tabs with such a URL, in input order and each once: the k-th result comes from the k-th such position |
| ChromeCollector.FirstPortTabsMeaning | session_manager/browser_collectors/chrome_collector.py:24-62 | the result is the non-empty tab list of the first port, in order, that yields one; None exactly when no port yields tabs |
| ChromeCollector.HandleAnswer | session_manager/browser_collectors/chrome_collector.py:27-57 | one port's answer is handled as `PortTabs` specifies: a non-200 status or an empty list gives nothing |
| ChromeCollector.ChooseWindow | session_manager/browser_collectors/chrome_collector.py:32-42 | the scoring loop picks the best-matching tab's window, else the first tab's window |
| ChromeCollector.CollectWindowTabs | session_manager/browser_collectors/chrome_collector.py:44-54 | the collecting loop computes `WindowTabs` |
| ChromeCollector.GetTabsByDevtools | session_manager/browser_collectors/chrome_collector.py:18-62 | the port loop returns the first port's non-empty tab list, else None |
| ChromeCollector.GetTabsBySession | session_manager/browser_collectors/chrome_collector.py:65-73 | None exactly when no data path is found; otherwise an empty list |
| ChromeCollector.GetTabsForWindow | session_manager/browser_collectors/chrome_collector.py:76-84 | the DevTools tabs when there are any, otherwise the single `about:newtab` fallback tab |
| BrowserTabs.FirstPid | session_manager/browser_tabs.py:112-123 | the pid of the first process whose readable executable has the same lower-cased base name; None exactly when there is none |
| BrowserTabs.ReadHistory | session_manager/browser_tabs.py:160-164 | the rows loop keeps at most thirty rows in order; each tab has its row's URL and its title, or `无标题` for an empty title |
| BrowserTabs.FirstNamed | session_manager/browser_tabs.py:257-259 | the first entry, in listing order, whose name ends in `.default` or `.default-release`; None exactly when there is none |
| BrowserTabs.FirstDir | session_manager/browser_tabs.py:262-264 | the first entry that is a directory; None exactly when there is none |
| BrowserTabs.FindFirefoxProfileDir | session_manager/browser_tabs.py:248-269 | None when the profiles folder is missing or cannot be listed; otherwise the first default-named profile, else the first directory, else None |
| BrowserTabs.GetBrowserTabs | session_manager/browser_tabs.py:78-110 | an unsupported browser, or one without a running process (no pid, or pid 0), yields nothing; otherwise the reader for that browser is used |
| BrowserTabs.HistoryTabsShape | session_manager/browser_tabs.py:160-164 | one tab per history row, in row order |
| BrowserTabs.DatabaseTabsBounded | session_manager/browser_tabs.py:125-179 | a history database yields at most thirty tabs, all titled |
| BrowserTabs.BrowserTabsFromHistory | session_manager/browser_tabs.py:78-110 | whatever any browser yields is at most thirty titled pages |
| BrowserTabs.OperaYieldsNothing | session_manager/browser_tabs.py:239-246 | Opera never yields a tab: its profile has no default profile name, so building the profile path raises inside the guarded block |
| BrowserTabs.EscapeRoundTrip | session_manager/browser_tabs.py:390-392 | with backslashes escaped as well as quotes, the quoted URL reads back as exactly that URL, and the literal ends at its closing quote |
| BrowserTabs.AsWrittenBreaksOnBackslash | session_manager/browser_tabs.py:391 | with only quotes escaped, a URL ending in a backslash no longer forms a closed literal |
| BrowserTabs.EscapesAgreeWithoutBackslash | session_manager/browser_tabs.py:391 | for URLs without a backslash, both escapes give the same text |
| BrowserTabs.ScriptLineRoundTrip | session_manager/browser_tabs.py:390-392 | each list line the program generates holds a URL without backslashes or line breaks as one literal followed by `,` and a line break |
| BrowserTabs.ScriptLineBreaksOnBackslash | session_manager/browser_tabs.py:391 | the line the program generates for `a\` does not form a closed literal |
| BrowserTabs.CorrectedScriptLineRoundTrip | session_manager/browser_tabs.py:390-392 | with backslashes escaped too, the line holds every line-break-free URL as one literal followed by `,` and a line break |
| BrowserTabs.IsRunning | session_manager/browser_tabs.py:370-373 | true exactly when some process name equals the browser's executable name up to case |
| BrowserTabs.ChromiumCommand | session_manager/browser_tabs.py:410-419 | the command starts with the browser path and ends with the page. A running browser gets nothing in between; a browser that is not running gets its profile's start-up arguments when it has any |
| BrowserTabs.RestoreChromiumTabs | session_manager/browser_tabs.py:363-438 | the launch uses `ChromiumCommand` and a page that lists every tab's URL; success is whether the launch starts |
| BrowserTabs.Urls | session_manager/browser_tabs.py:458-460 | one URL per tab, in order |
| BrowserTabs.RestoreFirefoxTabs | session_manager/browser_tabs.py:440-467 | the command is the path, then `-new-window` unless Firefox runs, then every URL in order |
| BrowserTabs.RestoreBrowserTabs | session_manager/browser_tabs.py:271-307 | no tabs succeeds without a launch. An unsupported browser, or one whose path cannot be found, fails without a launch. Otherwise there is exactly one launch, from the found path: Chromium browsers through the page, Firefox with the URLs at the end of the command |
| WebsocketServer.Keys | session_manager/hybrid_tabs/hybrid_tabs_manager.py:201 | the window ids of a browser's table, in insertion order |
| WebsocketServer.IndexOf | session_manager/hybrid_tabs/websocket_server.py:73 | the position of the first entry with that window id, -1 exactly when the id is absent |
| WebsocketServer.Find | session_manager/hybrid_tabs/websocket_server.py:73 | absent exactly when the id is not a key |
| WebsocketServer.IndexOfIs | session_manager/hybrid_tabs/websocket_server.py:73 | the first entry with the id is the one found |
| WebsocketServer.PutThenFind | session_manager/hybrid_tabs/websocket_server.py:73-77 | after storing an entry under a window id, that id finds it and every other id finds what it found before |
| WebsocketServer.PutKeys | session_manager/hybrid_tabs/websocket_server.py:70-77 | storing under an existing id keeps the id order, storing under a new id appends it, and ids stay unique |
| WebsocketServer.TabStore.constructor | session_manager/hybrid_tabs/websocket_server.py:22-35 | the store starts empty, with the server not running and no last message time |
| WebsocketServer.TabStore.Handle | session_manager/hybrid_tabs/websocket_server.py:56-102 | one received frame updates the store as `Applied` says. The last-message time moves exactly when the frame decodes and the debug line does not raise: an object, a string without the substring `type`, or a list without the element `"type"`. The reply is `ReplyFor`, and the running flags are untouched |
| WebsocketServer.TabStore.RunServerInThread | session_manager/hybrid_tabs/websocket_server.py:164-183 | a server that binds is running and reported up; otherwise the answer is the previous running flag |
| WebsocketServer.TabStore.Shutdown | session_manager/hybrid_tabs/websocket_server.py:152-162 | with a server instance, it is dropped and the status is not running; without one nothing changes |
| WebsocketServer.TabStore.StopServer | session_manager/hybrid_tabs/websocket_server.py:185-197 | a server not marked running is left alone; otherwise the shutdown runs |
| WebsocketServer.StoredUpdateIsFound | session_manager/hybrid_tabs/websocket_server.py:63-77 | a `tabs` message with hashable ids is stored under its browser and window with the current time and client |
| WebsocketServer.UpdateIsLocal | session_manager/hybrid_tabs/websocket_server.py:70-77 | every other browser/window entry is unchanged |
| WebsocketServer.WindowOrderKept | session_manager/hybrid_tabs/websocket_server.py:70-77 | a browser's window order is kept, with a new window appended |
| WebsocketServer.OnlyTabsMessagesStore | session_manager/hybrid_tabs/websocket_server.py:63-98 | only `tabs` messages change the store; an acknowledged one is stored, and its count is the length of its `tabs` |
| HybridTabs.BrowserId | session_manager/hybrid_tabs/hybrid_tabs_manager.py:40-46 | the five mapped executables get `chrome`, `edge`, `firefox`, `brave` and `opera`; any other executable gets `unknown` |
| HybridTabs.StripFirstSuffix | session_manager/hybrid_tabs/hybrid_tabs_manager.py:190-194 | only the first matching browser suffix is removed, and a title without any of them is unchanged |
| HybridTabs.ScanTabs | session_manager/hybrid_tabs/hybrid_tabs_manager.py:205-224 | the tab scan either keeps the previous best window or picks this one |
| HybridTabs.ScanWindows | session_manager/hybrid_tabs/hybrid_tabs_manager.py:201-224 | the best window found is the starting one or one of the browser's windows |
| HybridTabs.BestMeaning | session_manager/hybrid_tabs/hybrid_tabs_manager.py:197-224 | the reference rule, strict `>` over the tabs in order, keeps the first titled tab with the greatest score above the starting score; if no tab beats that score, nothing changes |
| HybridTabs.TabStepSkipsUntitled | session_manager/hybrid_tabs/hybrid_tabs_manager.py:206-208 | a tab with an empty or missing title leaves the chosen window and score unchanged |
| HybridTabs.TabStepNoHit | session_manager/hybrid_tabs/hybrid_tabs_manager.py:212-224 | a tab that is not an active match above 0.7 takes over only with a strictly higher score, and does not end the window's scan |
| HybridTabs.ScanTabsScannable | session_manager/hybrid_tabs/hybrid_tabs_manager.py:205-224 | a window's scan never raises when its tabs are dictionaries with string titles |
| HybridTabs.ScanTabsNoHit | session_manager/hybrid_tabs/hybrid_tabs_manager.py:205-224 | without an active match, one window's scan is the strict-maximum rule over its tabs |
| HybridTabs.ScanWindowsNoHit | session_manager/hybrid_tabs/hybrid_tabs_manager.py:201-224 | without an active match anywhere, the whole scan is the strict-maximum rule over every window's tabs in order |
| HybridTabs.PushScanWithoutActiveMatch | session_manager/hybrid_tabs/hybrid_tabs_manager.py:197-224 | with no active tab above 0.7, the chosen window holds the first titled tab with the greatest score; every earlier tab scores less and no later one scores more. Nothing is chosen exactly when no tab scores above 0 |
| HybridTabs.ScanTabsActiveMatch | session_manager/hybrid_tabs/hybrid_tabs_manager.py:205-219 | the first active tab above 0.7 sets the window and its score and ends that window's scan; the tabs after it do not matter |
| HybridTabs.ScanTabsAnyActiveMatch | session_manager/hybrid_tabs/hybrid_tabs_manager.py:205-219 | a window with an active tab above 0.7 is the one its scan chooses |
| HybridTabs.ScanTabsKeeps | session_manager/hybrid_tabs/hybrid_tabs_manager.py:205-224 | tabs that are neither active matches nor higher-scoring leave the choice as it was |
| HybridTabs.ScanWindowsKeeps | session_manager/hybrid_tabs/hybrid_tabs_manager.py:201-224 | the same over later windows |
| HybridTabs.ActiveMatchWindowChosen | session_manager/hybrid_tabs/hybrid_tabs_manager.py:201-224 | a window with an active tab above 0.7 is chosen with that tab's score, unless a later window has an active match or a tab scoring higher |
| HybridTabs.ConvertTabs | session_manager/hybrid_tabs/hybrid_tabs_manager.py:232-237 | conversion succeeds exactly when every pushed tab is a dictionary, giving one tab per entry in order |
| HybridTabs.ScanTabsWithoutSimilarity | session_manager/hybrid_tabs/hybrid_tabs_manager.py:205-213 | when the similarity import fails, a tab scan that does not raise changes nothing |
| HybridTabs.ScanWindowsWithoutSimilarity | session_manager/hybrid_tabs/hybrid_tabs_manager.py:201-213 | likewise for the scan over all windows |
| HybridTabs.PushTierAsWrittenIsEmpty | session_manager/hybrid_tabs/hybrid_tabs_manager.py:211 | as written, the push tier returns no tabs for any store |
| HybridTabs.PushTierFindsActiveWindow | session_manager/hybrid_tabs/hybrid_tabs_manager.py:197-240 | for any similarity function, a browser with one titled window whose tabs are dictionaries with string titles, one of them an active tab above 0.7 against the title without its browser suffix, answers that window's tabs converted in order |
| HybridTabs.PushTabsComeFromOneWindow | session_manager/hybrid_tabs/hybrid_tabs_manager.py:227-240 | a non-empty push answer is exactly the converted tab list of one stored window of that browser |
| HybridTabs.CachedAnswerRepeats | session_manager/hybrid_tabs/hybrid_tabs_manager.py:128-132 | within thirty seconds of an answer for the same path and title, the same answer is returned, whatever the store or machine now hold |
| HybridTabs.AnswerOnMiss | session_manager/hybrid_tabs/hybrid_tabs_manager.py:134-152 | on a cache miss, the pushed tabs win when the server is on and they are non-empty; otherwise the history readers answer. The answer is cached with the current time |
| HybridTabs.ScanWindowTabs | session_manager/hybrid_tabs/hybrid_tabs_manager.py:205-224 | the loop over one window's tabs computes `ScanTabs`, stopping at an active match above 0.7 |
| HybridTabs.ConvertAll | session_manager/hybrid_tabs/hybrid_tabs_manager.py:232-237 | the conversion loop computes `ConvertTabs`, raising at the first entry that is not a dictionary |
| HybridTabs.HybridTabsManager.constructor | session_manager/hybrid_tabs/hybrid_tabs_manager.py:60-81 | the caches start empty; the server is started exactly when enabled and set to start automatically |
| HybridTabs.HybridTabsManager.StartWebsocketServer | session_manager/hybrid_tabs/hybrid_tabs_manager.py:83-103 | disabled: false and nothing changes; already started: true; otherwise started exactly when the server came up |
| HybridTabs.HybridTabsManager.StopWebsocketServer | session_manager/hybrid_tabs/hybrid_tabs_manager.py:105-112 | afterwards the manager is not started, and a started server is stopped |
| HybridTabs.HybridTabsManager.GetTabsFromWebsocket | session_manager/hybrid_tabs/hybrid_tabs_manager.py:169-247 | the window and tab loops compute the push-tier answer with the similarity available |
| HybridTabs.HybridTabsManager.GetBrowserTabs | session_manager/hybrid_tabs/hybrid_tabs_manager.py:114-152 | the answer and the new cache are `Answer` of the old cache |
| Capture.ItemRoundTrip | session_manager/core.py:42-58 | a captured item stored as a dictionary reads back as the same item |
| Capture.CandidateMeaning | session_manager/core.py:36-47 | a window gives a candidate exactly when it is relevant: its title, its path, a browser exactly when the path is a browser's, and never special |
| Capture.Candidates | session_manager/core.py:36-37 | one candidate per window, in order |
| Capture.DedupKeys | session_manager/core.py:41-60 | the window pass records each captured path in the set of its kind, and never captures the same path and kind twice |
| Capture.DedupFirstWins | session_manager/core.py:41-60 | each captured item is the first candidate with its path and kind |
| Capture.DedupCovers | session_manager/core.py:36-62 | every candidate's path and kind is captured |
| Capture.FirstSpecial | session_manager/core.py:86-91 | the first utility, in the order PixPin, FastOrange, Everything, whose lowered name the process name or executable contains; None exactly when none matches |
| Capture.ExactNameTestIsRedundant | session_manager/core.py:93-98 | the exact `everything.exe` name test never changes the outcome |
| Capture.SpecialPassAppends | session_manager/core.py:77-111 | the process pass only appends special applications, each with a new non-empty executable path and a utility's title |
| Capture.SpecialPassRecords | session_manager/core.py:77-111 | every process with a readable name that is one of the utilities and has a known executable ends up with that path recorded |
| Capture.RecordedWasAppended | session_manager/core.py:100-110 | a path recorded by the pass that was not recorded before belongs to a special application the pass appended |
| Capture.SpecialPassIncludes | session_manager/core.py:77-111 | every such process whose executable the window pass did not record yields an appended special application with that path |
| Capture.CapturedPathsDistinct | session_manager/core.py:26-110 | no executable is captured twice the same way |
| Capture.KeptBy | session_manager/core.py:41-60 | the captured item that keeps a candidate's path and kind |
| Capture.TakenFrom | session_manager/core.py:41-60 | the candidate a captured item comes from, with no earlier candidate of the same path and kind |
| Capture.DedupComplete | session_manager/core.py:36-62 | every candidate is covered by the item of the same or an earlier candidate |
| Capture.CaptureIsComplete | session_manager/core.py:23-132 | every relevant window's path is captured, the same way, from the same or an earlier window |
| Capture.MatchSpecial | session_manager/core.py:84-98 | the matching loop gives `SpecialMatch` |
| Capture.CollectSessionData | session_manager/core.py:23-132 | the two loops compute `Collected`: the deduplicated window pass, then the special processes |
| Restore.CountSucceeded | session_manager/core.py:186-256 | the restored count never exceeds the number of items |
| Restore.CountFailed | session_manager/core.py:186-256 | the failed count never exceeds the number of items |
| Restore.CountStep | session_manager/core.py:198-256 | one more outcome adds one to exactly one of the two counts |
| Restore.CountsAddUp | session_manager/core.py:196-256 | every item is counted exactly once, as restored or as failed |
| Restore.CountSucceededIsCardinality | session_manager/core.py:186-256 | the restored count is the number of items that succeeded |
| Restore.LaunchAttempted | session_manager/core.py:196-256 | a launch is attempted exactly for items with a path that have neither a matching open window nor, for a special utility, a running process. A launch succeeds only for a string path |
| Restore.CapturedItemRestores | session_manager/core.py:191-241 | a captured item with a path is never skipped. Only a captured special utility is recognised by its running process, and one with no open window is not started again |
| Restore.FindOpenWindow | session_manager/core.py:205-220 | true exactly when some window has the saved executable up to case and a title similar enough to the saved non-empty title |
| Restore.RestoreItem | session_manager/core.py:191-256 | one item's outcome is `Decide` for the windows and processes shown when it is reached |
| Restore.FindRunningProcess | session_manager/core.py:231-245 | true exactly when some process's readable executable is the saved path up to case |
| Restore.RestoreSession | session_manager/core.py:180-259 | an empty session gives no counts. Otherwise each item's outcome is `Decide` for what the system showed when it was reached, and the counts are the succeeded and failed outcomes |
| SessionStore.Backup | session_manager/core.py:149 | the backup path differs from the data path |
| SessionStore.LoadAllSessions | session_manager/core.py:135-160 | the result always supports `len`. A missing data file gives an empty object without looking at the backup; a loadable one gives its content; a data file that fails to load gives, with backups enabled, the backup's content when that loads, and an empty object otherwise |
| SessionStore.SaveAllSessions | session_manager/core.py:162-177 | the backup, when enabled and the copy works, holds the old content; the data file is then written, or left as the write leaves it |
| SessionStore.SaveThenLoad | session_manager/core.py:135-177 | what is saved successfully is what is loaded next |
| SessionStore.FailedSaveRecovers | session_manager/core.py:146-177 | with backups on, a save that breaks off half-way is recovered: the next load reads the previous content from the backup |
| SessionStore.NoBackupNoRecovery | session_manager/core.py:146-160 | without backups, a file that fails to load reads as an empty object |
| SessionStore.Dicts | session_manager/core.py:280 | the filter keeps exactly the dictionaries of a list, and nothing else |
| SessionStore.SessionJson | session_manager/core.py:330 | a session is stored as a list with one entry per item |
| SessionStore.DictsOfSession | session_manager/core.py:280 | a stored session filtered back gives the same session |
| SessionStore.LoadedSessions | session_manager/core.py:269-291 | the loaded sessions are never empty. They are either the single empty default session, or the file's list-valued entries reduced to their dictionaries |
| SessionStore.ReloadAfterSave | session_manager/core.py:269-302 | saved non-empty sessions are exactly what the next load returns |
| SessionStore.Imported | session_manager/core.py:336-347 | an import reads only a file that exists, loads and holds a list |
| SessionStore.ExportThenImport | session_manager/core.py:326-347 | an exported session imports back unchanged |
| SessionStore.FixSessions | session_manager/core.py:276-285 | the loop over the decoded object computes `Fixed` |
| SessionStore.SessionManager.constructor | session_manager/core.py:263-267 | a new manager holds the sessions `load_sessions` gives for the disk's state |
| SessionStore.SessionManager.LoadSessions | session_manager/core.py:269-291 | the result is `LoadedSessions` of the disk's state |
| SessionStore.SessionManager.SaveSessions | session_manager/core.py:293-302 | a failed backup copy raises with nothing written. Otherwise the backup, when enabled, holds the old file, the sessions are written, and the result says whether the write succeeded |
| SessionStore.SessionManager.GetSessionNames | session_manager/core.py:304-305 | every session name, each exactly once |
| SessionStore.SessionManager.GetSession | session_manager/core.py:307-308 | a known session's items; an unknown name reads as an empty session |
| SessionStore.SessionManager.SetSession | session_manager/core.py:310-312 | the session is replaced, reads back as the given items, and everything is saved |
| SessionStore.SessionManager.DeleteSession | session_manager/core.py:314-318 | the name is gone; deleting an unknown name answers false and writes nothing |
| SessionStore.SessionManager.ClearSession | session_manager/core.py:320-324 | a known session is emptied but kept and saved; an unknown name answers false and writes nothing |
| SessionStore.SessionManager.ExportSession | session_manager/core.py:326-334 | a known session is written as a list to the export path, answering whether the write succeeded; an unknown name writes nothing |
| SessionStore.SessionManager.ImportSession | session_manager/core.py:336-350 | a missing, unloadable or non-list file changes nothing and answers false. Otherwise the session is replaced by the file's dictionaries and saved. A failed backup copy answers false, with the session already replaced |

## Left out

- Window and process enumeration, `win32` calls, `psutil`, `subprocess`, `requests`, sockets and SQLite are not modelled. What they report is a parameter.
- `time.sleep`, the restore delay and the thread that deletes the generated restore page after thirty seconds are not modelled.
- Logging is not modelled.
- Python's Unicode `str.lower` is not modelled. `Text.Lower` folds ASCII letters only, which covers the executable names and suffixes the code compares.
- Windows paths are simplified. `os.path.join` inserts a backslash unless the left part is empty, a bare drive or ends in a separator, and a right part with a drive or a leading separator replaces the left part; drive-relative joins are not distinguished further. `os.path.basename` drops a drive prefix and everything up to the last separator. UNC paths are not modelled.
- `os.path.normcase` lower-cases ASCII and turns `/` into `\`.
- The configuration is read by capture and restore as a typed `Settings` record, not as the dictionary. `config.get` defaults are applied where that record is built.
- The `difflib.SequenceMatcher` ratio is a parameter, so the window and tab matching holds for any similarity function.
- `utils.get_browser_tabs` is not a separate member. It only forwards to `browser_tabs.get_browser_tabs`, which never raises in the model, so `Capture` calls `BrowserTabs.GetBrowserTabs` directly.
- `find_browser_path` is not modelled; its registry, `where` and fixed-location lookups are the `findPath` parameter.
- Of the generated restore page, only the URL lines are modelled, not the rest of the HTML.
- `get_opera_tabs` is modelled only through `BrowserTabs.OperaYieldsNothing`. It reuses the Chromium reader, which fails on Opera's missing default profile.
- Of the Chromium session-file tier, only its outcome is modelled: the session file is never read and the tier returns `[]` once a data path exists. `get_valid_data_path` reads a `data_paths` list that the source's own browser table does not have, and the model takes that list as given.
- `is_devtools_available` is not modelled; it is the `listening` parameter.
- The similarity-based `calculate_similarity` import in the push tier is not modelled as written. The fix is described under Findings.
- `HybridTabsManager.restore_browser_tabs` is not modelled. It passes four arguments to `restore_browser_tabs`, which takes three, so it always raises `TypeError`.
- `get_server_status`, the module-level singleton helpers and the `__new__` singleton are not modelled.
- The `websocket` section of the configuration is read as two flags, `enabled` and `autoStart`. Host and port only matter to the socket.
- The welcome message, the set and count of connected clients, `broadcast_message` and the connection loop are not modelled.
- Python's equality of `True` with `1` as dictionary keys is not modelled in the push store. Ids are JSON values compared structurally.
- HybridTabs.ConvertTabs: a non-string `title` or `url` in a converted tab reads as an empty string, and `active` is kept only as its truth value (a pushed `"active": 1` reads as `true`), because a `Tab` holds strings and an optional boolean.
- The `firefox_collector.py` and `opera_collector.py` modules, the GUI, the build scripts and the tests are not modelled.
- Restore: a non-string `path` that is truthy can be neither compared nor started, so it counts as a failed launch.
- Restore: the window list, the process list and whether a launch succeeds are given per item. The model does not relate them across items.
- Restore.CountsAddUp: holds for a numeric, non-negative restore delay only. In `core.py` the restored count goes up before `time.sleep(restore_delay_seconds)`; a negative or non-numeric delay from `config.json` makes the sleep raise after that, so the launched item is also counted as failed and the two counts exceed the number of items.
- Restore.RestoreSession: assumes the same valid restore delay, so every launched item is counted once.
- BrowserTabs.ScriptLineRoundTrip: holds only for URLs without a backslash, because the page escapes quotes only; `BrowserTabs.RestoreChromiumTabs` writes the lines as the program does, and the corrected escaping is `BrowserTabs.CorrectedScriptLine` (see Findings).
- SessionStore.SessionManager.GetSessionNames: promises every name once, but not the dictionary's insertion order, because sessions are a Dafny `map`.
- SessionStore.SessionManager.SetSession: takes a list of dictionaries, while Python accepts any value and only saving would fail on unserialisable ones.
- Write failures are three outcomes: written, failed before opening, and failed half-way, which leaves a file that no longer loads. A partially written backup copy is not modelled.

## Findings

| source | as written | input that shows it | evidently intended | confidence | as-written member | corrected member |
|---|---|---|---|---|---|---|
| session_manager/hybrid_tabs/hybrid_tabs_manager.py:211 | imports `calculate_similarity` from `browser_tabs`, which defines no such function. The `ImportError` is raised at the first titled tab and caught at line 245, so the push tier always returns `[]` | a store holding one Chrome window with the active tab titled `Docs`, asked for the window `Docs - Google Chrome` | score each titled tab by similarity to the cleaned window title and return the tabs of the best (or active, above 0.7) window | not executed | HybridTabs.PushTierAsWrittenIsEmpty | HybridTabs.HybridTabsManager.GetTabsFromWebsocket |
| session_manager/browser_tabs.py:391 | escapes `'` but not `\` before writing each URL into a single-quoted JavaScript string | the URL `a\`: the line `'a\',` leaves the literal unterminated | escape `\` as well, so every URL reads back unchanged | not executed | BrowserTabs.ScriptLineBreaksOnBackslash | BrowserTabs.CorrectedScriptLineRoundTrip |
