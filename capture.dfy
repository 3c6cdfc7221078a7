/** Capturing a session: one item per distinct application or browser
    executable among the relevant windows, then the special background
    utilities found among the running processes. */
module Capture {
  import opened Wrappers
  import opened Text
  import opened JsonFiles
  import opened Os
  import opened Tabs
  import opened Config
  import opened Utils
  import BrowserTabs

  /** One session entry: an application to relaunch, or a browser with the
      tabs read for it. `special` marks a utility found by process name. */
  datatype Item =
    | Application(title: string, path: string, special: bool)
    | Browser(title: string, path: string, urls: seq<Tab>)

  /** The dictionary an item is stored as. */
  function ItemJson(i: Item): Json
  {
    match i
    case Application(title, path, special) =>
      var base := map["type" := JStr("application"), "title" := JStr(title), "path" := JStr(path)];
      JObj(if special then base["special_app" := JBool(true)] else base)
    case Browser(title, path, urls) =>
      JObj(map["type" := JStr("browser"), "title" := JStr(title), "path" := JStr(path),
               "urls" := JArr(seq(|urls|, k requires 0 <= k < |urls| => TabJson(urls[k])))])
  }

  /** Reads a stored dictionary back as an item; a `urls` that is not a list
      reads as no tabs. */
  function ItemOf(j: Json): Option<Item>
  {
    match j
    case JObj(m) =>
      if "type" in m && m["type"] == JStr("browser") then
        var urls := if "urls" in m && m["urls"].JArr? then m["urls"].items else [];
        Some(Browser(StrField(m, "title"), StrField(m, "path"),
                     seq(|urls|, k requires 0 <= k < |urls| => TabOf(urls[k]))))
      else
        Some(Application(StrField(m, "title"), StrField(m, "path"),
                         "special_app" in m && Truthy(m["special_app"])))
    case _ => None
  }

  lemma ItemRoundTrip(i: Item)
    ensures ItemJson(i).JObj? && ItemOf(ItemJson(i)) == Some(i)
  {
    if i.Browser? {
      var urls := i.urls;
      var stored := seq(|urls|, k requires 0 <= k < |urls| => TabJson(urls[k]));
      forall k | 0 <= k < |urls|
        ensures TabOf(stored[k]) == urls[k]
      {
        TabRoundTrip(urls[k]);
      }
      assert seq(|stored|, k requires 0 <= k < |stored| => TabOf(stored[k])) == urls;
    }
  }

  // ---------------------------------------------------------------- windows

  /** The item a window would add: a browser with its tabs, or an
      application; None for a window that is not relevant. */
  function Candidate(w: Window, s: Settings, pathOf: int -> Option<string>, host: Host): Option<Item>
  {
    match IsWindowRelevant(w, s, pathOf)
    case None => None
    case Some(path) =>
      if IsBrowserProcess(path, s.browserExecutables)
      then Some(Browser(w.title, path, BrowserTabs.GetBrowserTabs(path, w.title, host)))
      else Some(Application(w.title, path, false))
  }

  /** A window has a candidate exactly when it is relevant; the candidate
      carries its title and executable, and is a browser exactly when the
      executable is one. */
  lemma CandidateMeaning(w: Window, s: Settings, pathOf: int -> Option<string>, host: Host)
    ensures Candidate(w, s, pathOf, host).Some? <==> IsWindowRelevant(w, s, pathOf).Some?
    ensures Candidate(w, s, pathOf, host).Some? ==>
              var c := Candidate(w, s, pathOf, host).value;
              w.Window? && c.title == w.title && Some(c.path) == IsWindowRelevant(w, s, pathOf)
              && c.Browser? == IsBrowserProcess(c.path, s.browserExecutables)
              && (c.Application? ==> !c.special)
  {
  }

  function Candidates(ws: seq<Window>, s: Settings, pathOf: int -> Option<string>, host: Host): (cs: seq<Option<Item>>)
    ensures |cs| == |ws| && forall k :: 0 <= k < |ws| ==> cs[k] == Candidate(ws[k], s, pathOf, host)
  {
    seq(|ws|, k requires 0 <= k < |ws| => Candidate(ws[k], s, pathOf, host))
  }

  /** What the window loop has built so far: the items and the paths
      already captured as applications and as browsers. */
  datatype Pass = Pass(items: seq<Item>, apps: set<string>, browsers: set<string>)

  /** Two items for the same executable, captured the same way. */
  predicate SameKey(a: Item, b: Item)
  {
    a.Browser? == b.Browser? && a.path == b.path
  }

  /** One window of the capture loop: a candidate whose executable was
      already captured the same way adds nothing. */
  function Admit(p: Pass, c: Option<Item>): Pass
  {
    match c
    case None => p
    case Some(item) =>
      if item.Browser? then
        if item.path in p.browsers then p else Pass(p.items + [item], p.apps, p.browsers + {item.path})
      else if item.path in p.apps then p else Pass(p.items + [item], p.apps + {item.path}, p.browsers)
  }

  function Dedup(cs: seq<Option<Item>>): Pass
  {
    if cs == [] then Pass([], {}, {}) else Admit(Dedup(cs[..|cs| - 1]), cs[|cs| - 1])
  }

  predicate Recorded(p: Pass, item: Item)
  {
    if item.Browser? then item.path in p.browsers else item.path in p.apps
  }

  /** The recorded paths are exactly the paths of the kept items, and no two
      kept items share an executable and a kind. */
  ghost predicate KeysRecorded(p: Pass)
  {
    (forall i :: 0 <= i < |p.items| ==> Recorded(p, p.items[i]))
    && (forall path :: path in p.apps ==> exists i :: 0 <= i < |p.items| && p.items[i].Application? && p.items[i].path == path)
    && (forall path :: path in p.browsers ==> exists i :: 0 <= i < |p.items| && p.items[i].Browser? && p.items[i].path == path)
    && (forall i, j :: 0 <= i < j < |p.items| ==> !SameKey(p.items[i], p.items[j]))
  }

  lemma {:induction false} DedupKeys(cs: seq<Option<Item>>)
    ensures KeysRecorded(Dedup(cs))
  {
    if cs != [] {
      var init := cs[..|cs| - 1];
      DedupKeys(init);
      var p := Dedup(init);
      var c := cs[|cs| - 1];
      var q := Dedup(cs);
      assert q == Admit(p, c);
      if c.Some? && !Recorded(p, c.value) {
        var n := |p.items|;
        assert q.items == p.items + [c.value];
        assert p.apps <= q.apps && p.browsers <= q.browsers;
        assert Recorded(q, c.value);
        forall i | 0 <= i < |q.items|
          ensures Recorded(q, q.items[i])
        {
          if i < n {
            assert q.items[i] == p.items[i];
            assert Recorded(p, p.items[i]);
          }
        }
        forall path | path in q.apps
          ensures exists i :: 0 <= i < |q.items| && q.items[i].Application? && q.items[i].path == path
        {
          if path in p.apps {
            var i :| 0 <= i < n && p.items[i].Application? && p.items[i].path == path;
            assert q.items[i] == p.items[i];
          } else {
            assert q.items[n] == c.value;
          }
        }
        forall path | path in q.browsers
          ensures exists i :: 0 <= i < |q.items| && q.items[i].Browser? && q.items[i].path == path
        {
          if path in p.browsers {
            var i :| 0 <= i < n && p.items[i].Browser? && p.items[i].path == path;
            assert q.items[i] == p.items[i];
          } else {
            assert q.items[n] == c.value;
          }
        }
        forall i, j | 0 <= i < j < |q.items|
          ensures !SameKey(q.items[i], q.items[j])
        {
          assert q.items[i] == p.items[i];
          if j == n {
            assert Recorded(p, p.items[i]);
          } else {
            assert q.items[j] == p.items[j];
          }
        }
      }
    }
  }

  /** Each kept item is the first candidate for its executable and kind, and
      every candidate's executable and kind is kept. */
  /** Each kept item is the first candidate for its executable and kind. */
  ghost predicate FirstWins(cs: seq<Option<Item>>, p: Pass)
  {
    forall i :: 0 <= i < |p.items| ==>
      exists k :: 0 <= k < |cs| && cs[k] == Some(p.items[i])
                  && forall k' :: 0 <= k' < k && cs[k'].Some? ==> !SameKey(cs[k'].value, p.items[i])
  }

  /** Every candidate's executable and kind is kept. */
  ghost predicate Covers(cs: seq<Option<Item>>, p: Pass)
  {
    forall k :: 0 <= k < |cs| && cs[k].Some? ==> exists i :: 0 <= i < |p.items| && SameKey(p.items[i], cs[k].value)
  }

  lemma {:induction false} DedupFirstWins(cs: seq<Option<Item>>)
    ensures FirstWins(cs, Dedup(cs))
  {
    if cs != [] {
      var init := cs[..|cs| - 1];
      DedupFirstWins(init);
      DedupKeys(init);
      var p := Dedup(init);
      var c := cs[|cs| - 1];
      var q := Dedup(cs);
      assert q == Admit(p, c);
      var n := |p.items|;
      if c.Some? && !Recorded(p, c.value) {
        assert q.items == p.items + [c.value];
        forall i | 0 <= i < |q.items|
          ensures exists k :: 0 <= k < |cs| && cs[k] == Some(q.items[i])
                              && forall k' :: 0 <= k' < k && cs[k'].Some? ==> !SameKey(cs[k'].value, q.items[i])
        {
          if i == n {
            DedupCovers(init);
            forall k' | 0 <= k' < |cs| - 1 && cs[k'].Some?
              ensures !SameKey(cs[k'].value, c.value)
            {
              assert init[k'] == cs[k'];
              var j :| 0 <= j < n && SameKey(p.items[j], init[k'].value);
              assert Recorded(p, p.items[j]);
            }
            assert cs[|cs| - 1] == Some(q.items[i]);
          } else {
            assert q.items[i] == p.items[i];
            var k :| 0 <= k < |init| && init[k] == Some(p.items[i])
                     && forall k' :: 0 <= k' < k && init[k'].Some? ==> !SameKey(init[k'].value, p.items[i]);
            assert cs[k] == init[k];
            assert forall k' :: 0 <= k' < k ==> cs[k'] == init[k'];
          }
        }
      } else {
        assert q == p;
        forall i | 0 <= i < |q.items|
          ensures exists k :: 0 <= k < |cs| && cs[k] == Some(q.items[i])
                              && forall k' :: 0 <= k' < k && cs[k'].Some? ==> !SameKey(cs[k'].value, q.items[i])
        {
          var k :| 0 <= k < |init| && init[k] == Some(p.items[i])
                   && forall k' :: 0 <= k' < k && init[k'].Some? ==> !SameKey(init[k'].value, p.items[i]);
          assert cs[k] == init[k];
          assert forall k' :: 0 <= k' < k ==> cs[k'] == init[k'];
        }
      }
    }
  }

  lemma {:induction false} DedupCovers(cs: seq<Option<Item>>)
    ensures Covers(cs, Dedup(cs))
  {
    if cs != [] {
      var init := cs[..|cs| - 1];
      DedupCovers(init);
      DedupKeys(init);
      var p := Dedup(init);
      var c := cs[|cs| - 1];
      var q := Dedup(cs);
      assert q == Admit(p, c);
      var n := |p.items|;
      assert |q.items| >= n && q.items[..n] == p.items;
      forall k | 0 <= k < |cs| && cs[k].Some?
        ensures exists i :: 0 <= i < |q.items| && SameKey(q.items[i], cs[k].value)
      {
        if k < |init| {
          assert init[k] == cs[k];
          var i :| 0 <= i < n && SameKey(p.items[i], init[k].value);
          assert q.items[i] == p.items[i];
        } else if Recorded(p, c.value) {
          if c.value.Browser? {
            var i :| 0 <= i < n && p.items[i].Browser? && p.items[i].path == c.value.path;
            assert SameKey(q.items[i], c.value);
          } else {
            var i :| 0 <= i < n && p.items[i].Application? && p.items[i].path == c.value.path;
            assert SameKey(q.items[i], c.value);
          }
        } else {
          assert q.items[n] == c.value;
        }
      }
    }
  }

  function WindowPass(ws: seq<Window>, s: Settings, pathOf: int -> Option<string>, host: Host): Pass
  {
    Dedup(Candidates(ws, s, pathOf, host))
  }

  // ---------------------------------------------------------------- special processes

  /** The special utilities, in the order they are tried, with the
      lower-cased form the names are compared in. */
  const SpecialApps: seq<(string, string)> := [("PixPin", "pixpin"), ("FastOrange", "fastorange"), ("Everything", "everything")]

  predicate MatchesApp(name: string, exe: string, lowered: string)
  {
    Contains(Lower(name), lowered) || (exe != "" && Contains(Lower(exe), lowered))
  }

  /** The first special name, from `apps` in order, that the process name or
      executable path contains, ignoring case. */
  function FirstSpecial(name: string, exe: string, apps: seq<(string, string)>): (r: Option<string>)
    ensures r.None? <==> forall i :: 0 <= i < |apps| ==> !MatchesApp(name, exe, apps[i].1)
    ensures r.Some? ==> exists i :: 0 <= i < |apps| && r.value == apps[i].0 && MatchesApp(name, exe, apps[i].1)
                                   && forall j :: 0 <= j < i ==> !MatchesApp(name, exe, apps[j].1)
  {
    if apps == [] then None
    else if MatchesApp(name, exe, apps[0].1) then Some(apps[0].0)
    else
      var r := FirstSpecial(name, exe, apps[1..]);
      assert forall i :: 1 <= i < |apps| ==> apps[i] == apps[1..][i - 1];
      r
  }

  /** Which utility a process is, if any: the substring search, then the
      exact `everything.exe` name test. */
  function SpecialMatch(name: string, exe: string): Option<string>
  {
    match FirstSpecial(name, exe, SpecialApps)
    case Some(app) => Some(app)
    case None => if Lower(name) == "everything.exe" then Some("Everything") else None
  }

  /** The exact-name test never decides: a process named `everything.exe`
      already contains "everything". */
  lemma ExactNameTestIsRedundant(name: string, exe: string)
    ensures SpecialMatch(name, exe) == FirstSpecial(name, exe, SpecialApps)
  {
    if Lower(name) == "everything.exe" {
      assert StartsWith(Lower(name), "everything");
      assert MatchesApp(name, exe, SpecialApps[2].1);
    }
  }

  function SpecialTitle(app: string): string
  {
    app + " 应用窗口"
  }

  /** One process of the special pass; a process whose name cannot be read
      is skipped. */
  function ProcStep(items: seq<Item>, apps: set<string>, proc: Proc): (seq<Item>, set<string>)
  {
    if proc.name.None? then (items, apps)
    else match SpecialMatch(proc.name.value, proc.exe)
      case None => (items, apps)
      case Some(app) =>
        if proc.exe == "" || proc.exe in apps then (items, apps)
        else (items + [Application(SpecialTitle(app), proc.exe, true)], apps + {proc.exe})
  }

  function SpecialPass(procs: seq<Proc>, items: seq<Item>, apps: set<string>): (seq<Item>, set<string>)
  {
    if procs == [] then (items, apps)
    else
      var p := SpecialPass(procs[..|procs| - 1], items, apps);
      ProcStep(p.0, p.1, procs[|procs| - 1])
  }

  /** The special pass only appends utilities, each with a new, non-empty
      executable path, titled after the utility it matched. */
  ghost predicate AppendsUtilities(items: seq<Item>, apps: set<string>, r: (seq<Item>, set<string>))
  {
    |r.0| >= |items| && r.0[..|items|] == items && apps <= r.1
    && (forall i :: |items| <= i < |r.0| ==>
          r.0[i].Application? && r.0[i].special && r.0[i].path != "" && r.0[i].path !in apps
          && r.0[i].path in r.1
          && (exists a :: a in SpecialApps && r.0[i].title == SpecialTitle(a.0)))
    && (forall i, j :: |items| <= i < j < |r.0| ==> r.0[i].path != r.0[j].path)
  }

  lemma {:induction false} SpecialPassAppends(procs: seq<Proc>, items: seq<Item>, apps: set<string>)
    ensures AppendsUtilities(items, apps, SpecialPass(procs, items, apps))
  {
    if procs != [] {
      SpecialPassAppends(procs[..|procs| - 1], items, apps);
      var p := SpecialPass(procs[..|procs| - 1], items, apps);
      var proc := procs[|procs| - 1];
      if proc.name.Some? && SpecialMatch(proc.name.value, proc.exe).Some? {
        ExactNameTestIsRedundant(proc.name.value, proc.exe);
        var app := SpecialMatch(proc.name.value, proc.exe).value;
        assert exists a :: a in SpecialApps && app == a.0;
      }
    }
  }

  /** A process the special pass records: its name can be read, it is one
      of the utilities, and its executable path is known. */
  predicate Qualifies(proc: Proc)
  {
    proc.name.Some? && SpecialMatch(proc.name.value, proc.exe).Some? && proc.exe != ""
  }

  /** Every qualifying process's executable ends up recorded. */
  lemma {:induction false} SpecialPassRecords(procs: seq<Proc>, items: seq<Item>, apps: set<string>)
    ensures apps <= SpecialPass(procs, items, apps).1
    ensures forall k :: 0 <= k < |procs| && Qualifies(procs[k]) ==> procs[k].exe in SpecialPass(procs, items, apps).1
  {
    if procs != [] {
      var n := |procs| - 1;
      SpecialPassRecords(procs[..n], items, apps);
      assert forall k :: 0 <= k < n ==> procs[..n][k] == procs[k];
    }
  }

  /** A recorded path that was not recorded before the pass belongs to an
      item the pass appended. */
  lemma {:induction false} RecordedWasAppended(procs: seq<Proc>, items: seq<Item>, apps: set<string>, x: string)
    returns (i: int)
    requires x in SpecialPass(procs, items, apps).1 && x !in apps
    ensures var r := SpecialPass(procs, items, apps);
            |items| <= i < |r.0| && r.0[i].Application? && r.0[i].special && r.0[i].path == x
  {
    if procs == [] {
      assert false;
    } else {
      var n := |procs| - 1;
      var p := SpecialPass(procs[..n], items, apps);
      SpecialPassAppends(procs[..n], items, apps);
      if x in p.1 {
        i := RecordedWasAppended(procs[..n], items, apps, x);
      } else {
        i := |p.0|;
      }
    }
  }

  /** The converse of `SpecialPassAppends`: every process whose name can be
      read, that is one of the utilities, and whose executable path is known
      and was not recorded by the window pass, yields an appended special
      application with that path. */
  lemma SpecialPassIncludes(procs: seq<Proc>, items: seq<Item>, apps: set<string>, k: int) returns (i: int)
    requires 0 <= k < |procs| && Qualifies(procs[k]) && procs[k].exe !in apps
    ensures var r := SpecialPass(procs, items, apps);
            |items| <= i < |r.0| && r.0[i].Application? && r.0[i].special && r.0[i].path == procs[k].exe
  {
    SpecialPassRecords(procs, items, apps);
    i := RecordedWasAppended(procs, items, apps, procs[k].exe);
  }

  /** `collect_session_data_core` as a value. */
  function Collected(ws: seq<Window>, s: Settings, pathOf: int -> Option<string>, host: Host): seq<Item>
  {
    var p := WindowPass(ws, s, pathOf, host);
    SpecialPass(host.processes, p.items, p.apps).0
  }

  /** No executable is captured twice the same way, and no utility
      duplicates an application captured from its window. */
  lemma CapturedPathsDistinct(ws: seq<Window>, s: Settings, pathOf: int -> Option<string>, host: Host)
    ensures var items := Collected(ws, s, pathOf, host);
            forall i, j :: 0 <= i < j < |items| ==> !SameKey(items[i], items[j])
  {
    var p := WindowPass(ws, s, pathOf, host);
    DedupKeys(Candidates(ws, s, pathOf, host));
    SpecialPassAppends(host.processes, p.items, p.apps);
    var items := Collected(ws, s, pathOf, host);
    forall i, j | 0 <= i < j < |items|
      ensures !SameKey(items[i], items[j])
    {
      if j < |p.items| {
        assert items[i] == p.items[i] && items[j] == p.items[j];
      } else if i < |p.items| {
        assert items[i] == p.items[i];
        if items[i].Application? {
          assert Recorded(p, p.items[i]);
        }
      }
    }
  }

  /** The item that keeps candidate `k`'s executable and kind. */
  lemma KeptBy(cs: seq<Option<Item>>, k: int) returns (i: int)
    requires 0 <= k < |cs| && cs[k].Some?
    ensures 0 <= i < |Dedup(cs).items| && SameKey(Dedup(cs).items[i], cs[k].value)
  {
    DedupCovers(cs);
    i :| 0 <= i < |Dedup(cs).items| && SameKey(Dedup(cs).items[i], cs[k].value);
  }

  /** The candidate item `i` was taken from: the first with its key. */
  lemma TakenFrom(cs: seq<Option<Item>>, i: int) returns (k0: int)
    requires 0 <= i < |Dedup(cs).items|
    ensures 0 <= k0 < |cs| && cs[k0] == Some(Dedup(cs).items[i])
    ensures forall k' :: 0 <= k' < k0 && cs[k'].Some? ==> !SameKey(cs[k'].value, Dedup(cs).items[i])
  {
    DedupFirstWins(cs);
    k0 :| 0 <= k0 < |cs| && cs[k0] == Some(Dedup(cs).items[i])
          && forall k' :: 0 <= k' < k0 && cs[k'].Some? ==> !SameKey(cs[k'].value, Dedup(cs).items[i]);
  }

  /** Each candidate's executable and kind is kept, by the item of an
      earlier-or-same candidate. */
  lemma DedupComplete(cs: seq<Option<Item>>, k: int)
    requires 0 <= k < |cs| && cs[k].Some?
    ensures exists i :: 0 <= i < |Dedup(cs).items| && SameKey(Dedup(cs).items[i], cs[k].value)
                        && exists k0 :: 0 <= k0 <= k && cs[k0] == Some(Dedup(cs).items[i])
  {
    var i := KeptBy(cs, k);
    var k0 := TakenFrom(cs, i);
    if k < k0 {
      assert false;
    }
  }

  /** Every relevant window's executable is captured, the same way, and
      the item captured for it is an earlier-or-same window's candidate:
      that window's title and, for a browser, the tabs read for it. */
  lemma CaptureIsComplete(ws: seq<Window>, s: Settings, pathOf: int -> Option<string>, host: Host, k: int)
    requires 0 <= k < |ws| && Candidates(ws, s, pathOf, host)[k].Some?
    ensures exists i :: 0 <= i < |Collected(ws, s, pathOf, host)|
                        && SameKey(Collected(ws, s, pathOf, host)[i], Candidates(ws, s, pathOf, host)[k].value)
                        && exists k0 :: 0 <= k0 <= k
                                        && Candidates(ws, s, pathOf, host)[k0] == Some(Collected(ws, s, pathOf, host)[i])
  {
    var cs := Candidates(ws, s, pathOf, host);
    var p := Dedup(cs);
    DedupComplete(cs, k);
    SpecialPassAppends(host.processes, p.items, p.apps);
    var items := Collected(ws, s, pathOf, host);
    assert items[..|p.items|] == p.items;
  }

  // ---------------------------------------------------------------- the loops

  /** The substring loop over the special names, with its `break`. */
  method MatchSpecial(name: string, exe: string) returns (matching: Option<string>)
    ensures matching == SpecialMatch(name, exe)
  {
    var isSpecial := false;
    var app := "";
    var j := 0;
    while j < |SpecialApps| && !isSpecial
      invariant 0 <= j <= |SpecialApps|
      invariant !isSpecial ==> FirstSpecial(name, exe, SpecialApps[j..]) == FirstSpecial(name, exe, SpecialApps)
      invariant isSpecial ==> Some(app) == FirstSpecial(name, exe, SpecialApps)
    {
      assert SpecialApps[j..][1..] == SpecialApps[j + 1..];
      var lowered := SpecialApps[j].1;
      if Contains(Lower(name), lowered) || (exe != "" && Contains(Lower(exe), lowered)) {
        isSpecial := true;
        app := SpecialApps[j].0;
      }
      j := j + 1;
    }
    if !isSpecial && Lower(name) == "everything.exe" {
      isSpecial := true;
      app := "Everything";
    }
    matching := if isSpecial then Some(app) else None;
  }

  /** `collect_session_data_core`: `ws` is the window list, `pathOf` the
      handle-to-executable lookup, `host` the processes and what the tab
      readers see. */
  method CollectSessionData(ws: seq<Window>, s: Settings, pathOf: int -> Option<string>, host: Host)
    returns (items: seq<Item>)
    ensures items == Collected(ws, s, pathOf, host)
  {
    items := [];
    var apps: set<string> := {};
    var browsers: set<string> := {};
    var i := 0;
    while i < |ws|
      invariant 0 <= i <= |ws|
      invariant Pass(items, apps, browsers) == Dedup(Candidates(ws, s, pathOf, host)[..i])
    {
      assert Candidates(ws, s, pathOf, host)[..i + 1][..i] == Candidates(ws, s, pathOf, host)[..i];
      var w := ws[i];
      var path := IsWindowRelevant(w, s, pathOf);
      if path.Some? {
        if IsBrowserProcess(path.value, s.browserExecutables) {
          if path.value !in browsers {
            items := items + [Browser(w.title, path.value, BrowserTabs.GetBrowserTabs(path.value, w.title, host))];
            browsers := browsers + {path.value};
          }
        } else if path.value !in apps {
          items := items + [Application(w.title, path.value, false)];
          apps := apps + {path.value};
        }
      }
      i := i + 1;
    }
    assert Candidates(ws, s, pathOf, host)[..i] == Candidates(ws, s, pathOf, host);
    var procs := host.processes;
    var n := 0;
    while n < |procs|
      invariant 0 <= n <= |procs|
      invariant (items, apps) == SpecialPass(procs[..n], WindowPass(ws, s, pathOf, host).items,
                                             WindowPass(ws, s, pathOf, host).apps)
    {
      assert procs[..n + 1][..n] == procs[..n];
      var proc := procs[n];
      if proc.name.Some? {
        var app := MatchSpecial(proc.name.value, proc.exe);
        if app.Some? && proc.exe != "" && proc.exe !in apps {
          items := items + [Application(SpecialTitle(app.value), proc.exe, true)];
          apps := apps + {proc.exe};
        }
      }
      n := n + 1;
    }
    assert procs[..n] == procs;
  }
}
