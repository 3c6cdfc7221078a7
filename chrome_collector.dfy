/** The live-protocol tier for Chromium browsers: query the local DevTools
    `/json` endpoint on a list of ports, pick the window whose tab title best
    matches the window title, and keep that window's real pages. */
module ChromeCollector {
  import opened Wrappers
  import opened Text
  import opened Tabs
  import opened Utils

  const PortMapping: map<string, int> := map["chrome.exe" := 9222, "msedge.exe" := 9223, "brave.exe" := 9224]
  const FallbackPorts: seq<int> := [9222, 9223, 9224, 9225, 9226]
  /** A tab must score above this to choose its window. */
  const ScoreFloor: real := 0.3

  /** One entry of the `/json` array: `title` and `url` ("" when absent) and
      `windowId` (None when absent). */
  datatype DevTab = DevTab(title: string, url: string, windowId: Option<int>)

  /** What one port answered: the request or the JSON decoding failed, or an
      HTTP status with the decoded array. */
  datatype Response = Failed | Answer(status: int, tabs: seq<DevTab>)

  /** The ports tried, in order: the browser's own port, then five more only
      when nothing listens on it. */
  function Ports(exe: string, firstListening: bool): (ports: seq<int>)
    ensures |ports| >= 1
    ensures ports[0] == (if exe in PortMapping then PortMapping[exe] else 9222)
    ensures |ports| == 1 <==> firstListening
    ensures ports[1..] == if firstListening then [] else FallbackPorts
  {
    [if exe in PortMapping then PortMapping[exe] else 9222] + (if firstListening then [] else FallbackPorts)
  }

  function Score(t: DevTab, windowTitle: string, sim: (string, string) -> real): real
  {
    sim(Lower(t.title), Lower(windowTitle))
  }

  predicate Candidate(t: DevTab, windowTitle: string, sim: (string, string) -> real)
  {
    t.title != "" && Score(t, windowTitle, sim) > ScoreFloor
  }

  /** The index of the first titled tab with the strictly greatest score above
      the floor, or -1 when no titled tab clears the floor. */
  function BestIndex(tabs: seq<DevTab>, windowTitle: string, sim: (string, string) -> real): (k: int)
    ensures -1 <= k < |tabs|
    ensures k == -1 <==> forall j :: 0 <= j < |tabs| ==> !Candidate(tabs[j], windowTitle, sim)
    ensures k >= 0 ==> Candidate(tabs[k], windowTitle, sim)
    ensures k >= 0 ==> forall j :: 0 <= j < k && tabs[j].title != "" ==>
                          Score(tabs[j], windowTitle, sim) < Score(tabs[k], windowTitle, sim)
    ensures k >= 0 ==> forall j :: k < j < |tabs| && tabs[j].title != "" ==>
                          Score(tabs[j], windowTitle, sim) <= Score(tabs[k], windowTitle, sim)
  {
    if tabs == [] then -1
    else
      var k := BestIndex(tabs[..|tabs| - 1], windowTitle, sim);
      var last := |tabs| - 1;
      if Candidate(tabs[last], windowTitle, sim)
         && (k == -1 || Score(tabs[last], windowTitle, sim) > Score(tabs[k], windowTitle, sim))
      then last else k
  }

  /** The window whose tabs are kept: the best tab's window, or the first
      tab's when no tab clears the floor or the best tab has no window id. */
  function TargetWindow(tabs: seq<DevTab>, windowTitle: string, sim: (string, string) -> real): Option<int>
  {
    var k := BestIndex(tabs, windowTitle, sim);
    if k >= 0 && tabs[k].windowId.Some? then tabs[k].windowId
    else if tabs == [] then None
    else tabs[0].windowId
  }

  /** A page worth restoring: not empty, not `chrome://`, not `about:`. */
  predicate Kept(url: string)
  {
    url != "" && !StartsWith(url, "chrome://") && !StartsWith(url, "about:")
  }

  function ToTab(t: DevTab): Tab
  {
    Tab(if t.title != "" then t.title else t.url, t.url, Some("devtools"), None)
  }

  predicate InWindow(t: DevTab, id: int)
  {
    t.windowId == Some(id) && Kept(t.url)
  }

  /** The kept tabs of window `id`, in input order. */
  function WindowTabs(tabs: seq<DevTab>, id: int): (r: seq<Tab>)
    ensures |r| <= |tabs|
    ensures forall t :: t in r ==> Kept(t.url) && t.title != "" && t.source == Some("devtools")
  {
    if tabs == [] then []
    else
      var init := tabs[..|tabs| - 1];
      var last := tabs[|tabs| - 1];
      WindowTabs(init, id) + (if InWindow(last, id) then [ToTab(last)] else [])
  }

  /** The kept tabs are the window's tabs in input order, each once: `idx`
      lists, strictly increasing, exactly the positions of the window's kept
      tabs, and the k-th result is the tab at the k-th of them. */
  lemma {:induction false} WindowTabsInOrder(tabs: seq<DevTab>, id: int) returns (idx: seq<int>)
    ensures |idx| == |WindowTabs(tabs, id)|
    ensures forall k :: 0 <= k < |idx| ==>
              0 <= idx[k] < |tabs| && InWindow(tabs[idx[k]], id) && WindowTabs(tabs, id)[k] == ToTab(tabs[idx[k]])
    ensures forall k, l :: 0 <= k < l < |idx| ==> idx[k] < idx[l]
    ensures forall j :: 0 <= j < |tabs| && InWindow(tabs[j], id) ==> j in idx
  {
    if tabs == [] {
      idx := [];
    } else {
      var init := tabs[..|tabs| - 1];
      var last := tabs[|tabs| - 1];
      var before := WindowTabsInOrder(init, id);
      assert forall j :: 0 <= j < |init| ==> init[j] == tabs[j];
      if InWindow(last, id) {
        idx := before + [|tabs| - 1];
        assert WindowTabs(tabs, id) == WindowTabs(init, id) + [ToTab(last)];
      } else {
        idx := before;
        assert WindowTabs(tabs, id) == WindowTabs(init, id);
      }
    }
  }

  /** What one port contributes; [] sends the search on to the next port. */
  function PortTabs(resp: Response, windowTitle: string, sim: (string, string) -> real): seq<Tab>
  {
    match resp
    case Failed => []
    case Answer(status, tabs) =>
      if status != 200 || tabs == [] then []
      else match TargetWindow(tabs, windowTitle, sim)
        case None => []
        case Some(id) => WindowTabs(tabs, id)
  }

  /** The first port, in order, that yields a non-empty list; None when all fail. */
  function FirstPortTabs(ports: seq<int>, fetch: int -> Response, windowTitle: string,
                         sim: (string, string) -> real): (r: Option<seq<Tab>>)
    ensures r.Some? ==> r.value != []
  {
    if ports == [] then None
    else
      var here := PortTabs(fetch(ports[0]), windowTitle, sim);
      if here != [] then Some(here)
      else FirstPortTabs(ports[1..], fetch, windowTitle, sim)
  }

  /** The port search yields nothing exactly when every port yields nothing,
      and otherwise the list of the first port that yields one: kept pages of
      the live protocol only. */
  lemma {:induction false} FirstPortTabsMeaning(ports: seq<int>, fetch: int -> Response, windowTitle: string,
                                                sim: (string, string) -> real)
    ensures var r := FirstPortTabs(ports, fetch, windowTitle, sim);
            r.None? <==> forall i :: 0 <= i < |ports| ==> PortTabs(fetch(ports[i]), windowTitle, sim) == []
    ensures var r := FirstPortTabs(ports, fetch, windowTitle, sim);
            r.Some? ==> forall t :: t in r.value ==> Kept(t.url) && t.source == Some("devtools")
    ensures var r := FirstPortTabs(ports, fetch, windowTitle, sim);
            r.Some? ==> exists i :: 0 <= i < |ports| && r.value == PortTabs(fetch(ports[i]), windowTitle, sim)
                                    && forall j :: 0 <= j < i ==> PortTabs(fetch(ports[j]), windowTitle, sim) == []
  {
    if ports != [] {
      var here := PortTabs(fetch(ports[0]), windowTitle, sim);
      if here != [] {
        PortTabsKept(fetch(ports[0]), windowTitle, sim);
        assert 0 < |ports| && here == PortTabs(fetch(ports[0]), windowTitle, sim);
      } else {
        FirstPortTabsMeaning(ports[1..], fetch, windowTitle, sim);
        assert forall i :: 1 <= i < |ports| ==> ports[i] == ports[1..][i - 1];
        var r := FirstPortTabs(ports[1..], fetch, windowTitle, sim);
        if r.Some? {
          var i :| 0 <= i < |ports[1..]| && r.value == PortTabs(fetch(ports[1..][i]), windowTitle, sim)
                   && forall j :: 0 <= j < i ==> PortTabs(fetch(ports[1..][j]), windowTitle, sim) == [];
          assert 0 <= i + 1 < |ports| && r.value == PortTabs(fetch(ports[i + 1]), windowTitle, sim);
        }
      }
    }
  }

  /** A port's tabs are kept pages from the live protocol. */
  lemma PortTabsKept(resp: Response, windowTitle: string, sim: (string, string) -> real)
    ensures forall t :: t in PortTabs(resp, windowTitle, sim) ==> Kept(t.url) && t.source == Some("devtools")
  {
  }

  /** `get_chromium_tabs_by_devtools`, as a value: `listening` says whether
      the first port accepts a connection, `fetch` what each port answers. */
  function DevtoolsTabs(windowTitle: string, exe: string, listening: int -> bool, fetch: int -> Response,
                        sim: (string, string) -> real): Option<seq<Tab>>
  {
    var first := if exe in PortMapping then PortMapping[exe] else 9222;
    FirstPortTabs(Ports(exe, listening(first)), fetch, windowTitle, sim)
  }

  /** One port's answer, as `get_chromium_tabs_by_devtools` handles it. */
  method HandleAnswer(resp: Response, windowTitle: string, sim: (string, string) -> real) returns (tabs: seq<Tab>)
    ensures tabs == PortTabs(resp, windowTitle, sim)
  {
    tabs := [];
    match resp
    case Failed =>
    case Answer(status, allTabs) =>
      if status == 200 && allTabs != [] {
        var target := ChooseWindow(allTabs, windowTitle, sim);
        if target.Some? {
          tabs := CollectWindowTabs(allTabs, target.value);
        }
      }
  }

  /** The similarity loop of `get_chromium_tabs_by_devtools`. */
  method ChooseWindow(allTabs: seq<DevTab>, windowTitle: string, sim: (string, string) -> real)
    returns (target: Option<int>)
    ensures target == TargetWindow(allTabs, windowTitle, sim)
  {
    target := None;
    var best: real := 0.0;
    ghost var k := -1;
    var i := 0;
    while i < |allTabs|
      invariant 0 <= i <= |allTabs|
      invariant k == BestIndex(allTabs[..i], windowTitle, sim)
      invariant best == if k == -1 then 0.0 else Score(allTabs[k], windowTitle, sim)
      invariant target == if k == -1 then None else allTabs[k].windowId
    {
      assert allTabs[..i + 1][..i] == allTabs[..i];
      var tab := allTabs[i];
      if tab.title != "" {
        var similarity := sim(Lower(tab.title), Lower(windowTitle));
        if similarity > best && similarity > ScoreFloor {
          best := similarity;
          target := tab.windowId;
          k := i;
        }
      }
      i := i + 1;
    }
    assert allTabs[..i] == allTabs;
    if target == None && |allTabs| > 0 {
      target := allTabs[0].windowId;
    }
  }

  /** The collecting loop of `get_chromium_tabs_by_devtools`. */
  method CollectWindowTabs(allTabs: seq<DevTab>, id: int) returns (tabs: seq<Tab>)
    ensures tabs == WindowTabs(allTabs, id)
  {
    tabs := [];
    var i := 0;
    while i < |allTabs|
      invariant 0 <= i <= |allTabs|
      invariant tabs == WindowTabs(allTabs[..i], id)
    {
      assert allTabs[..i + 1][..i] == allTabs[..i];
      var tab := allTabs[i];
      if tab.windowId == Some(id) {
        var url := tab.url;
        var title := tab.title;
        if url != "" && !StartsWith(url, "chrome://") && !StartsWith(url, "about:") {
          tabs := tabs + [Tab(if title != "" then title else url, url, Some("devtools"), None)];
        }
      }
      i := i + 1;
    }
    assert allTabs[..i] == allTabs;
  }

  /** `get_chromium_tabs_by_devtools`. */
  method GetTabsByDevtools(windowTitle: string, exe: string, listening: int -> bool, fetch: int -> Response,
                           sim: (string, string) -> real)
    returns (r: Option<seq<Tab>>)
    ensures r == DevtoolsTabs(windowTitle, exe, listening, fetch, sim)
  {
    var ports := [if exe in PortMapping then PortMapping[exe] else 9222];
    if !listening(ports[0]) {
      ports := ports + FallbackPorts;
    }
    assert ports == Ports(exe, listening(ports[0]));
    ghost var spec := DevtoolsTabs(windowTitle, exe, listening, fetch, sim);
    var i := 0;
    while i < |ports|
      invariant 0 <= i <= |ports|
      invariant FirstPortTabs(ports[i..], fetch, windowTitle, sim) == spec
    {
      assert ports[i..][1..] == ports[i + 1..];
      var tabs := HandleAnswer(fetch(ports[i]), windowTitle, sim);
      if tabs != [] {
        return Some(tabs);
      }
      i := i + 1;
    }
    r := None;
  }

  /** `get_chromium_tabs_by_session`: None without a data path; the reader
      itself is a stub that finds nothing. */
  function GetTabsBySession(exe: string, windowTitle: string, dataPaths: map<string, seq<string>>,
                            present: string -> bool): (r: Option<seq<Tab>>)
    ensures r.None? <==> GetValidDataPath(exe, dataPaths, present).None?
    ensures r.Some? ==> r.value == []
  {
    if GetValidDataPath(exe, dataPaths, present).None? then None else Some([])
  }

  const FallbackTab: Tab := Tab("新标签页", "about:newtab", Some("fallback"), None)

  /** `get_chromium_tabs_for_window`: the live-protocol tabs when there are
      any; the session tier never yields a tab, so otherwise exactly the
      synthetic new-tab entry. */
  function GetTabsForWindow(exe: string, windowTitle: string, dataPaths: map<string, seq<string>>,
                            present: string -> bool, listening: int -> bool, fetch: int -> Response,
                            sim: (string, string) -> real): (r: seq<Tab>)
    ensures var d := DevtoolsTabs(windowTitle, exe, listening, fetch, sim);
            if d.Some? then r == d.value && r != [] else r == [FallbackTab]
  {
    var devtools := DevtoolsTabs(windowTitle, exe, listening, fetch, sim);
    if devtools.Some? && devtools.value != [] then devtools.value
    else
      match GetTabsBySession(exe, windowTitle, dataPaths, present)
      case Some(tabs) => if tabs != [] then tabs else [FallbackTab]
      case None => [FallbackTab]
  }
}
