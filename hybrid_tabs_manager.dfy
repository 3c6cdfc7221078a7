/** The hybrid tab source: a short-lived cache in front of the push tier
    (tab lists browser extensions report) and the history readers. */
module HybridTabs {
  import opened Wrappers
  import opened Text
  import opened JsonFiles
  import opened Os
  import opened Tabs
  import BrowserTabs
  import opened WebsocketServer

  /** How long a cached answer is served, in seconds. */
  const CacheSeconds: real := 30.0
  /** An active tab this similar to the window title sets the window and
      ends that window's scan. */
  const ActiveMatch: real := 0.7

  /** The browser id an extension reports for each executable. */
  function BrowserId(exe: string): (id: string)
    ensures exe == "chrome.exe" ==> id == "chrome"
    ensures exe == "msedge.exe" ==> id == "edge"
    ensures exe == "firefox.exe" ==> id == "firefox"
    ensures exe == "brave.exe" ==> id == "brave"
    ensures exe == "opera.exe" ==> id == "opera"
    ensures exe !in {"chrome.exe", "msedge.exe", "firefox.exe", "brave.exe", "opera.exe"} ==> id == "unknown"
  {
    match exe
    case "chrome.exe" => "chrome"
    case "msedge.exe" => "edge"
    case "firefox.exe" => "firefox"
    case "brave.exe" => "brave"
    case "opera.exe" => "opera"
    case _ => "unknown"
  }

  const TitleSuffixes: seq<string> := [" - Google Chrome", " - Microsoft Edge", " - Brave", " - Firefox", " - Opera"]

  /** The window title without the first browser suffix (in list order)
      that it ends with; at most one suffix is removed. */
  function StripFirstSuffix(title: string, suffixes: seq<string>): (r: string)
    ensures (forall i :: 0 <= i < |suffixes| ==> !EndsWith(title, suffixes[i])) ==> r == title
    ensures forall i :: 0 <= i < |suffixes| && EndsWith(title, suffixes[i])
                        && (forall j :: 0 <= j < i ==> !EndsWith(title, suffixes[j])) ==>
              r + suffixes[i] == title
  {
    if suffixes == [] then title
    else if EndsWith(title, suffixes[0]) then title[..|title| - |suffixes[0]|]
    else
      var r := StripFirstSuffix(title, suffixes[1..]);
      assert forall i :: 1 <= i < |suffixes| ==> suffixes[i] == suffixes[1..][i - 1];
      r
  }

  function CleanTitle(title: string): string
  {
    StripFirstSuffix(title, TitleSuffixes)
  }

  /** The window chosen so far and its score; the window starts as None
      (`JNull`) and the score as 0. */
  datatype ScanState = ScanState(window: Json, score: real)

  const Unchosen: ScanState := ScanState(JNull, 0.0)

  /** What `for tab in window_tabs` iterates, where iterating and calling
      `get` on each element can succeed: an array's items; an empty string
      or object iterates nothing; a non-empty one yields strings, which have
      no `get`; anything else is not iterable. */
  function Items(j: Json): Result<seq<Json>>
  {
    match j
    case JArr(items) => Ok(items)
    case JStr(s) => if s == [] then Ok([]) else Raises("AttributeError")
    case JObj(m) => if m == map[] then Ok([]) else Raises("AttributeError")
    case _ => Raises("TypeError")
  }

  /** One tab of the window scan. `similarityFound` says whether importing
      the similarity function succeeds. Returns the new state and whether
      the inner loop breaks. */
  function TabStep(tab: Json, id: Json, clean: string, sim: (string, string) -> real, similarityFound: bool,
                   st: ScanState): Result<(ScanState, bool)>
  {
    if !tab.JObj? then Raises("AttributeError")
    else
      var title := Get(tab.fields, "title", JStr(""));
      if !Truthy(title) then Ok((st, false))
      else if !similarityFound then Raises("ImportError")
      else if !title.JStr? then Raises("TypeError")
      else
        var s := sim(title.s, clean);
        if Truthy(Get(tab.fields, "active", JBool(false))) && s > ActiveMatch then Ok((ScanState(id, s), true))
        else if s > st.score then Ok((ScanState(id, s), false))
        else Ok((st, false))
  }

  /** The inner loop over one window's tabs. */
  function ScanTabs(items: seq<Json>, id: Json, clean: string, sim: (string, string) -> real,
                    similarityFound: bool, st: ScanState): (r: Result<ScanState>)
    ensures r.Ok? ==> r.value.window == st.window || r.value.window == id
  {
    if items == [] then Ok(st)
    else match TabStep(items[0], id, clean, sim, similarityFound, st)
      case Raises(e) => Raises(e)
      case Ok(step) =>
        if step.1 then Ok(step.0) else ScanTabs(items[1..], id, clean, sim, similarityFound, step.0)
  }

  /** The outer loop over all windows of a browser, in insertion order. */
  function ScanWindows(ws: Windows, clean: string, sim: (string, string) -> real, similarityFound: bool,
                       st: ScanState): (r: Result<ScanState>)
    ensures r.Ok? ==> r.value.window == st.window || r.value.window in Keys(ws)
  {
    if ws == [] then Ok(st)
    else match Items(ws[0].1.tabs)
      case Raises(e) => Raises(e)
      case Ok(items) =>
        match ScanTabs(items, ws[0].0, clean, sim, similarityFound, st)
        case Raises(e) => Raises(e)
        case Ok(st') =>
          var r := ScanWindows(ws[1..], clean, sim, similarityFound, st');
          assert Keys(ws) == [ws[0].0] + Keys(ws[1..]);
          r
  }

  /** A pushed tab in the form the history readers return. */
  function PushedTab(m: map<string, Json>): Tab
  {
    Tab(StrField(m, "title"), StrField(m, "url"), None, Some(Truthy(Get(m, "active", JBool(false)))))
  }

  /** The conversion loop: every element must be a dictionary. */
  function ConvertTabs(items: seq<Json>): (r: Result<seq<Tab>>)
    ensures r.Ok? <==> forall i :: 0 <= i < |items| ==> items[i].JObj?
    ensures r.Ok? ==> |r.value| == |items| && forall i :: 0 <= i < |items| ==> r.value[i] == PushedTab(items[i].fields)
    ensures r.Raises? ==> r.reason == "AttributeError"
  {
    if items == [] then Ok([])
    else
      var init := items[..|items| - 1];
      var last := items[|items| - 1];
      assert forall i :: 0 <= i < |init| ==> init[i] == items[i];
      match ConvertTabs(init)
      case Raises(e) => Raises(e)
      case Ok(tabs) => if last.JObj? then Ok(tabs + [PushedTab(last.fields)]) else Raises("AttributeError")
  }

  /** The body of `_get_tabs_from_websocket` inside its `try`. */
  function PushResult(latest: map<Json, Windows>, exe: string, windowTitle: string,
                      sim: (string, string) -> real, similarityFound: bool): Result<seq<Tab>>
  {
    var bid := JStr(BrowserId(exe));
    if bid !in latest then Ok([])
    else
      var ws := latest[bid];
      match ScanWindows(ws, CleanTitle(windowTitle), sim, similarityFound, Unchosen)
      case Raises(e) => Raises(e)
      case Ok(st) =>
        if !Truthy(st.window) then Ok([])
        else match Find(ws, st.window)
          case None => Raises("KeyError")
          case Some(entry) =>
            match Items(entry.tabs)
            case Raises(e) => Raises(e)
            case Ok(items) => ConvertTabs(items)
  }

  /** `_get_tabs_from_websocket`: any exception yields no tabs. */
  function PushTabs(latest: map<Json, Windows>, exe: string, windowTitle: string,
                    sim: (string, string) -> real, similarityFound: bool): seq<Tab>
  {
    match PushResult(latest, exe, windowTitle, sim, similarityFound)
    case Ok(tabs) => tabs
    case Raises(_) => []
  }

  /** Without the similarity function the scan never chooses a window. */
  lemma {:induction false} ScanTabsWithoutSimilarity(items: seq<Json>, id: Json, clean: string,
                                                     sim: (string, string) -> real, st: ScanState)
    ensures var r := ScanTabs(items, id, clean, sim, false, st); r.Ok? ==> r.value == st
  {
    if items != [] && TabStep(items[0], id, clean, sim, false, st).Ok? {
      ScanTabsWithoutSimilarity(items[1..], id, clean, sim, st);
    }
  }

  lemma {:induction false} ScanWindowsWithoutSimilarity(ws: Windows, clean: string,
                                                        sim: (string, string) -> real, st: ScanState)
    ensures var r := ScanWindows(ws, clean, sim, false, st); r.Ok? ==> r.value == st
  {
    if ws != [] && Items(ws[0].1.tabs).Ok? {
      ScanTabsWithoutSimilarity(Items(ws[0].1.tabs).value, ws[0].0, clean, sim, st);
      ScanWindowsWithoutSimilarity(ws[1..], clean, sim, st);
    }
  }

  /** As written, the similarity import fails at the first titled tab, so
      the push tier never yields a tab, whatever the extensions reported. */
  lemma PushTierAsWrittenIsEmpty(latest: map<Json, Windows>, exe: string, windowTitle: string,
                                 sim: (string, string) -> real)
    ensures PushTabs(latest, exe, windowTitle, sim, false) == []
  {
    var bid := JStr(BrowserId(exe));
    if bid in latest {
      ScanWindowsWithoutSimilarity(latest[bid], CleanTitle(windowTitle), sim, Unchosen);
    }
  }

  /** The `title` a tab dictionary is scanned by, "" when missing. */
  function TitleOf(t: Json): Json
  {
    if t.JObj? then Get(t.fields, "title", JStr("")) else JNull
  }

  /** A tab the scan reads without raising: a dictionary whose title, when
      truthy, is a string. */
  predicate Scannable(t: Json)
  {
    t.JObj? && (Truthy(TitleOf(t)) ==> TitleOf(t).JStr?)
  }

  predicate Titled(t: Json)
  {
    Scannable(t) && Truthy(TitleOf(t))
  }

  /** A titled tab's similarity to the cleaned window title. */
  function TabScore(t: Json, clean: string, sim: (string, string) -> real): real
  {
    if Titled(t) then sim(TitleOf(t).s, clean) else 0.0
  }

  /** An active titled tab above the active-match threshold. */
  predicate ActiveHit(t: Json, clean: string, sim: (string, string) -> real)
  {
    Titled(t) && Truthy(Get(t.fields, "active", JBool(false))) && TabScore(t, clean, sim) > ActiveMatch
  }

  /** The tabs of one window, when they are a list. */
  function TabItems(j: Json): seq<Json>
  {
    if j.JArr? then j.items else []
  }

  /** Every window's `tabs` is a list of tabs the scan reads without raising. */
  predicate ScannableWindows(ws: Windows)
  {
    forall i :: 0 <= i < |ws| ==> ws[i].1.tabs.JArr? && forall j :: 0 <= j < |TabItems(ws[i].1.tabs)| ==> Scannable(TabItems(ws[i].1.tabs)[j])
  }

  function Pairs(id: Json, items: seq<Json>): (r: seq<(Json, Json)>)
    ensures |r| == |items| && forall i :: 0 <= i < |items| ==> r[i] == (id, items[i])
  {
    seq(|items|, i requires 0 <= i < |items| => (id, items[i]))
  }

  /** Every (window, tab) pair of a browser, window by window, in order. */
  function Flat(ws: Windows): (r: seq<(Json, Json)>)
    ensures forall j :: 0 <= j < |r| ==> r[j].0 in Keys(ws)
  {
    if ws == [] then []
    else
      var r := Pairs(ws[0].0, TabItems(ws[0].1.tabs)) + Flat(ws[1..]);
      assert Keys(ws) == [ws[0].0] + Keys(ws[1..]);
      r
  }

  /** The scan's rule for a tab that is not an active match: a titled tab
      takes over only with a strictly higher score. */
  function Better(p: (Json, Json), st: ScanState, clean: string, sim: (string, string) -> real): ScanState
  {
    if Titled(p.1) && TabScore(p.1, clean, sim) > st.score then ScanState(p.0, TabScore(p.1, clean, sim)) else st
  }

  /** The reference scan: the strict-maximum rule over `ps` in order. */
  function Best(ps: seq<(Json, Json)>, clean: string, sim: (string, string) -> real, st: ScanState): ScanState
  {
    if ps == [] then st else Better(ps[|ps| - 1], Best(ps[..|ps| - 1], clean, sim, st), clean, sim)
  }

  lemma {:induction false} BestAppend(a: seq<(Json, Json)>, b: seq<(Json, Json)>, clean: string,
                                      sim: (string, string) -> real, st: ScanState)
    ensures Best(a + b, clean, sim, st) == Best(b, clean, sim, Best(a, clean, sim, st))
  {
    if b == [] {
      assert a + b == a;
    } else {
      BestAppend(a, b[..|b| - 1], clean, sim, st);
      assert (a + b)[..|a + b| - 1] == a + b[..|b| - 1];
    }
  }

  /** The strict-maximum rule keeps the first titled pair with the greatest
      score above the starting score; `k` is its position, -1 when no titled
      pair beats the starting score and the state is kept. */
  lemma {:induction false} BestMeaning(ps: seq<(Json, Json)>, clean: string, sim: (string, string) -> real,
                                       st: ScanState) returns (k: int)
    ensures -1 <= k < |ps|
    ensures k == -1 <==> forall j :: 0 <= j < |ps| && Titled(ps[j].1) ==> TabScore(ps[j].1, clean, sim) <= st.score
    ensures k == -1 ==> Best(ps, clean, sim, st) == st
    ensures k >= 0 ==> Titled(ps[k].1) && TabScore(ps[k].1, clean, sim) > st.score
                       && Best(ps, clean, sim, st) == ScanState(ps[k].0, TabScore(ps[k].1, clean, sim))
    ensures k >= 0 ==> forall j :: 0 <= j < k && Titled(ps[j].1) ==>
                         TabScore(ps[j].1, clean, sim) < TabScore(ps[k].1, clean, sim)
    ensures k >= 0 ==> forall j :: k < j < |ps| && Titled(ps[j].1) ==>
                         TabScore(ps[j].1, clean, sim) <= TabScore(ps[k].1, clean, sim)
  {
    if ps == [] {
      k := -1;
    } else {
      var n := |ps| - 1;
      var init := ps[..n];
      var before := BestMeaning(init, clean, sim, st);
      assert forall j :: 0 <= j < n ==> init[j] == ps[j];
      var prev := Best(init, clean, sim, st);
      if Titled(ps[n].1) && TabScore(ps[n].1, clean, sim) > prev.score {
        k := n;
      } else {
        k := before;
      }
    }
  }

  /** An untitled dictionary leaves the scan as it is. */
  lemma TabStepSkipsUntitled(tab: Json, id: Json, clean: string, sim: (string, string) -> real,
                             similarityFound: bool, st: ScanState)
    requires tab.JObj? && !Truthy(TitleOf(tab))
    ensures TabStep(tab, id, clean, sim, similarityFound, st) == Ok((st, false))
  {
  }

  /** A tab that is not an active match follows the strict-maximum rule
      and does not end the window's scan. */
  lemma TabStepNoHit(tab: Json, id: Json, clean: string, sim: (string, string) -> real, st: ScanState)
    requires Scannable(tab) && !ActiveHit(tab, clean, sim)
    ensures TabStep(tab, id, clean, sim, true, st) == Ok((Better((id, tab), st, clean, sim), false))
  {
  }

  /** A window's scan never raises on scannable tabs. */
  lemma {:induction false} ScanTabsScannable(items: seq<Json>, id: Json, clean: string,
                                             sim: (string, string) -> real, st: ScanState)
    requires forall j :: 0 <= j < |items| ==> Scannable(items[j])
    ensures ScanTabs(items, id, clean, sim, true, st).Ok?
  {
    if items != [] && !ActiveHit(items[0], clean, sim) {
      TabStepNoHit(items[0], id, clean, sim, st);
      ScanTabsScannable(items[1..], id, clean, sim, Better((id, items[0]), st, clean, sim));
    }
  }

  /** Without an active match, one window's scan is the strict-maximum rule
      over its tabs. */
  lemma {:induction false} ScanTabsNoHit(items: seq<Json>, id: Json, clean: string,
                                         sim: (string, string) -> real, st: ScanState)
    requires forall j :: 0 <= j < |items| ==> Scannable(items[j]) && !ActiveHit(items[j], clean, sim)
    ensures ScanTabs(items, id, clean, sim, true, st) == Ok(Best(Pairs(id, items), clean, sim, st))
  {
    if items == [] {
    } else {
      TabStepNoHit(items[0], id, clean, sim, st);
      var first := [(id, items[0])];
      var st1 := Better((id, items[0]), st, clean, sim);
      ScanTabsNoHit(items[1..], id, clean, sim, st1);
      assert first[..0] == [];
      assert Best(first, clean, sim, st) == st1;
      BestAppend(first, Pairs(id, items[1..]), clean, sim, st);
      assert Pairs(id, items) == first + Pairs(id, items[1..]);
    }
  }

  /** Without an active match anywhere, the scan over all windows is the
      strict-maximum rule over every (window, tab) pair. */
  lemma {:induction false} ScanWindowsNoHit(ws: Windows, clean: string, sim: (string, string) -> real,
                                            st: ScanState)
    requires ScannableWindows(ws)
    requires forall i, j :: 0 <= i < |ws| && 0 <= j < |TabItems(ws[i].1.tabs)| ==>
               !ActiveHit(TabItems(ws[i].1.tabs)[j], clean, sim)
    ensures ScanWindows(ws, clean, sim, true, st) == Ok(Best(Flat(ws), clean, sim, st))
  {
    if ws != [] {
      var items := TabItems(ws[0].1.tabs);
      assert Items(ws[0].1.tabs) == Ok(items);
      ScanTabsNoHit(items, ws[0].0, clean, sim, st);
      var st1 := Best(Pairs(ws[0].0, items), clean, sim, st);
      assert forall i :: 0 <= i < |ws| - 1 ==> ws[1..][i] == ws[i + 1];
      ScanWindowsNoHit(ws[1..], clean, sim, st1);
      BestAppend(Pairs(ws[0].0, items), Flat(ws[1..]), clean, sim, st);
    }
  }

  /** With no active tab above 0.7, the window chosen is that of the first
      titled tab with the greatest score, over all windows in order; when
      no tab scores above 0 nothing is chosen. */
  lemma PushScanWithoutActiveMatch(ws: Windows, clean: string, sim: (string, string) -> real) returns (k: int)
    requires ScannableWindows(ws)
    requires forall i, j :: 0 <= i < |ws| && 0 <= j < |TabItems(ws[i].1.tabs)| ==>
               !ActiveHit(TabItems(ws[i].1.tabs)[j], clean, sim)
    ensures -1 <= k < |Flat(ws)|
    ensures k == -1 <==> forall j :: 0 <= j < |Flat(ws)| && Titled(Flat(ws)[j].1) ==> TabScore(Flat(ws)[j].1, clean, sim) <= 0.0
    ensures k == -1 ==> ScanWindows(ws, clean, sim, true, Unchosen) == Ok(Unchosen)
    ensures k >= 0 ==> var p := Flat(ws)[k];
                       && Titled(p.1) && TabScore(p.1, clean, sim) > 0.0 && p.0 in Keys(ws)
                       && ScanWindows(ws, clean, sim, true, Unchosen) == Ok(ScanState(p.0, TabScore(p.1, clean, sim)))
    ensures k >= 0 ==> forall j :: 0 <= j < k && Titled(Flat(ws)[j].1) ==>
                         TabScore(Flat(ws)[j].1, clean, sim) < TabScore(Flat(ws)[k].1, clean, sim)
    ensures k >= 0 ==> forall j :: k < j < |Flat(ws)| && Titled(Flat(ws)[j].1) ==>
                         TabScore(Flat(ws)[j].1, clean, sim) <= TabScore(Flat(ws)[k].1, clean, sim)
  {
    ScanWindowsNoHit(ws, clean, sim, Unchosen);
    k := BestMeaning(Flat(ws), clean, sim, Unchosen);
  }

  /** An active tab above 0.7 sets the window and ends that window's scan:
      the first one decides the outcome, whatever came before it and
      whatever follows it in the same window. */
  lemma {:induction false} ScanTabsActiveMatch(items: seq<Json>, id: Json, clean: string,
                                               sim: (string, string) -> real, st: ScanState, k: int)
    requires 0 <= k < |items|
    requires forall j :: 0 <= j <= k ==> Scannable(items[j])
    requires ActiveHit(items[k], clean, sim)
    requires forall j :: 0 <= j < k ==> !ActiveHit(items[j], clean, sim)
    ensures ScanTabs(items, id, clean, sim, true, st) == Ok(ScanState(id, TabScore(items[k], clean, sim)))
  {
    if k > 0 {
      TabStepNoHit(items[0], id, clean, sim, st);
      assert forall j :: 0 <= j < |items| - 1 ==> items[1..][j] == items[j + 1];
      ScanTabsActiveMatch(items[1..], id, clean, sim, Better((id, items[0]), st, clean, sim), k - 1);
    }
  }

  /** Some active tab above 0.7 makes the window's scan choose it. */
  lemma {:induction false} ScanTabsAnyActiveMatch(items: seq<Json>, id: Json, clean: string,
                                                  sim: (string, string) -> real, st: ScanState, k: int)
    requires 0 <= k < |items|
    requires forall j :: 0 <= j < |items| ==> Scannable(items[j])
    requires ActiveHit(items[k], clean, sim)
    ensures var r := ScanTabs(items, id, clean, sim, true, st); r.Ok? && r.value.window == id
  {
    if !ActiveHit(items[0], clean, sim) {
      TabStepNoHit(items[0], id, clean, sim, st);
      assert forall j :: 0 <= j < |items| - 1 ==> items[1..][j] == items[j + 1];
      ScanTabsAnyActiveMatch(items[1..], id, clean, sim, Better((id, items[0]), st, clean, sim), k - 1);
    }
  }

  /** Tabs that are not active matches and do not score above the current
      choice leave it in place. */
  lemma {:induction false} ScanTabsKeeps(items: seq<Json>, id: Json, clean: string,
                                         sim: (string, string) -> real, st: ScanState)
    requires forall j :: 0 <= j < |items| ==>
               Scannable(items[j]) && !ActiveHit(items[j], clean, sim) && TabScore(items[j], clean, sim) <= st.score
    ensures ScanTabs(items, id, clean, sim, true, st) == Ok(st)
  {
    if items != [] {
      TabStepNoHit(items[0], id, clean, sim, st);
      ScanTabsKeeps(items[1..], id, clean, sim, st);
    }
  }

  lemma {:induction false} ScanWindowsKeeps(ws: Windows, clean: string, sim: (string, string) -> real,
                                            st: ScanState)
    requires ScannableWindows(ws)
    requires forall i, j :: 0 <= i < |ws| && 0 <= j < |TabItems(ws[i].1.tabs)| ==>
               !ActiveHit(TabItems(ws[i].1.tabs)[j], clean, sim) && TabScore(TabItems(ws[i].1.tabs)[j], clean, sim) <= st.score
    ensures ScanWindows(ws, clean, sim, true, st) == Ok(st)
  {
    if ws != [] {
      assert Items(ws[0].1.tabs) == Ok(TabItems(ws[0].1.tabs));
      ScanTabsKeeps(TabItems(ws[0].1.tabs), ws[0].0, clean, sim, st);
      assert forall i :: 0 <= i < |ws| - 1 ==> ws[1..][i] == ws[i + 1];
      ScanWindowsKeeps(ws[1..], clean, sim, st);
    }
  }

  /** The window whose first active match above 0.7 is tab `k` is chosen,
      unless a later window has an active match or a tab scoring higher. */
  lemma {:induction false} ActiveMatchWindowChosen(ws: Windows, clean: string, sim: (string, string) -> real,
                                                   st: ScanState, i: int, k: int)
    requires ScannableWindows(ws)
    requires 0 <= i < |ws| && 0 <= k < |TabItems(ws[i].1.tabs)|
    requires ActiveHit(TabItems(ws[i].1.tabs)[k], clean, sim)
    requires forall j :: 0 <= j < k ==> !ActiveHit(TabItems(ws[i].1.tabs)[j], clean, sim)
    requires forall w, j :: i < w < |ws| && 0 <= j < |TabItems(ws[w].1.tabs)| ==>
               && !ActiveHit(TabItems(ws[w].1.tabs)[j], clean, sim)
               && TabScore(TabItems(ws[w].1.tabs)[j], clean, sim) <= TabScore(TabItems(ws[i].1.tabs)[k], clean, sim)
    ensures ScanWindows(ws, clean, sim, true, st)
              == Ok(ScanState(ws[i].0, TabScore(TabItems(ws[i].1.tabs)[k], clean, sim)))
  {
    var items := TabItems(ws[0].1.tabs);
    assert Items(ws[0].1.tabs) == Ok(items);
    assert forall w :: 0 <= w < |ws| - 1 ==> ws[1..][w] == ws[w + 1];
    if i == 0 {
      ScanTabsActiveMatch(items, ws[0].0, clean, sim, st, k);
      ScanWindowsKeeps(ws[1..], clean, sim, ScanState(ws[0].0, TabScore(items[k], clean, sim)));
    } else {
      ScanTabsScannable(items, ws[0].0, clean, sim, st);
      var st1 := ScanTabs(items, ws[0].0, clean, sim, true, st).value;
      ActiveMatchWindowChosen(ws[1..], clean, sim, st1, i - 1, k);
    }
  }

  /** With a similarity function, a browser with one titled window whose
      tabs are dictionaries, one of them an active tab above 0.7 against the
      title without its browser suffix, answers that window's tabs. */
  lemma PushTierFindsActiveWindow(latest: map<Json, Windows>, exe: string, windowTitle: string,
                                  sim: (string, string) -> real, w: Json, e: Entry, k: int)
    requires JStr(BrowserId(exe)) in latest && latest[JStr(BrowserId(exe))] == [(w, e)]
    requires Truthy(w) && e.tabs.JArr?
    requires forall j :: 0 <= j < |e.tabs.items| ==> Scannable(e.tabs.items[j])
    requires 0 <= k < |e.tabs.items| && ActiveHit(e.tabs.items[k], CleanTitle(windowTitle), sim)
    ensures var r := PushTabs(latest, exe, windowTitle, sim, true);
            |r| == |e.tabs.items| && forall j :: 0 <= j < |r| ==> r[j] == PushedTab(e.tabs.items[j].fields)
  {
    var ws := latest[JStr(BrowserId(exe))];
    var items := e.tabs.items;
    var clean := CleanTitle(windowTitle);
    ScanTabsAnyActiveMatch(items, w, clean, sim, Unchosen, k);
    var st := ScanTabs(items, w, clean, sim, true, Unchosen).value;
    assert ws[1..] == [];
    assert ScanWindows(ws, clean, sim, true, Unchosen) == Ok(st);
    assert Keys(ws) == [w];
    assert Find(ws, w) == Some(e);
  }

  /** A non-empty push answer is exactly the tabs stored for one titled
      window of the browser. */
  lemma PushTabsComeFromOneWindow(latest: map<Json, Windows>, exe: string, windowTitle: string,
                                  sim: (string, string) -> real)
    requires PushTabs(latest, exe, windowTitle, sim, true) != []
    ensures var bid := JStr(BrowserId(exe));
            bid in latest
            && (exists w :: w in Keys(latest[bid]) && Truthy(w)
                  && Items(Find(latest[bid], w).value.tabs).Ok?
                  && ConvertTabs(Items(Find(latest[bid], w).value.tabs).value)
                       == Ok(PushTabs(latest, exe, windowTitle, sim, true)))
  {
    var bid := JStr(BrowserId(exe));
    var st := ScanWindows(latest[bid], CleanTitle(windowTitle), sim, true, Unchosen).value;
    assert st.window in Keys(latest[bid]);
  }

  /** The cache of answers and when each was stored. */
  datatype Cache = Cache(tabs: map<string, seq<Tab>>, times: map<string, real>)

  function CacheKey(path: string, windowTitle: string): string
  {
    path + "::" + windowTitle
  }

  predicate Fresh(c: Cache, key: string, now: real)
  {
    key in c.tabs && key in c.times && now - c.times[key] < CacheSeconds
  }

  /** `get_browser_tabs` as a value: the answer and the new cache.
      `pushOn` is "enabled and started"; the push tier is the corrected one. */
  function Answer(c: Cache, pushOn: bool, latest: map<Json, Windows>, path: string, windowTitle: string,
                  now: real, host: Host, sim: (string, string) -> real): (seq<Tab>, Cache)
  {
    var key := CacheKey(path, windowTitle);
    if Fresh(c, key, now) then (c.tabs[key], c)
    else
      var pushed := if pushOn then PushTabs(latest, Lower(Basename(path)), windowTitle, sim, true) else [];
      var tabs := if pushed != [] then pushed else BrowserTabs.GetBrowserTabs(path, windowTitle, host);
      (tabs, Cache(c.tabs[key := tabs], c.times[key := now]))
  }

  /** Within thirty seconds of a fresh answer the same answer comes back,
      whatever the push store or the machine look like by then. */
  lemma CachedAnswerRepeats(c: Cache, pushOn: bool, latest: map<Json, Windows>, path: string,
                            windowTitle: string, now: real, host: Host, sim: (string, string) -> real,
                            pushOn': bool, latest': map<Json, Windows>, later: real, host': Host,
                            sim': (string, string) -> real)
    requires !Fresh(c, CacheKey(path, windowTitle), now)
    requires now <= later < now + CacheSeconds
    ensures var first := Answer(c, pushOn, latest, path, windowTitle, now, host, sim);
            Answer(first.1, pushOn', latest', path, windowTitle, later, host', sim') == (first.0, first.1)
  {
  }

  /** A non-empty push answer is preferred; otherwise the history readers'
      answer is used, even an empty one; either is cached. */
  lemma AnswerOnMiss(c: Cache, pushOn: bool, latest: map<Json, Windows>, path: string, windowTitle: string,
                     now: real, host: Host, sim: (string, string) -> real)
    requires !Fresh(c, CacheKey(path, windowTitle), now)
    ensures var r := Answer(c, pushOn, latest, path, windowTitle, now, host, sim);
            var pushed := PushTabs(latest, Lower(Basename(path)), windowTitle, sim, true);
            (pushOn && pushed != [] ==> r.0 == pushed)
            && (!pushOn || pushed == [] ==> r.0 == BrowserTabs.GetBrowserTabs(path, windowTitle, host))
            && Fresh(r.1, CacheKey(path, windowTitle), now)
            && r.1.tabs[CacheKey(path, windowTitle)] == r.0
  {
  }

  /** The inner loop of `_get_tabs_from_websocket` over one window's tabs. */
  method ScanWindowTabs(items: seq<Json>, id: Json, clean: string, sim: (string, string) -> real, st0: ScanState)
    returns (r: Result<ScanState>)
    ensures r == ScanTabs(items, id, clean, sim, true, st0)
  {
    var st := st0;
    var j := 0;
    while j < |items|
      invariant 0 <= j <= |items|
      invariant ScanTabs(items[j..], id, clean, sim, true, st) == ScanTabs(items, id, clean, sim, true, st0)
    {
      assert items[j..][1..] == items[j + 1..];
      var step := TabStep(items[j], id, clean, sim, true, st);
      if step.Raises? {
        return Raises(step.reason);
      }
      st := step.value.0;
      if step.value.1 {
        return Ok(st);
      }
      j := j + 1;
    }
    r := Ok(st);
  }

  /** The conversion loop of `_get_tabs_from_websocket`. */
  method ConvertAll(items: seq<Json>) returns (r: Result<seq<Tab>>)
    ensures r == ConvertTabs(items)
  {
    var tabs := [];
    var k := 0;
    while k < |items|
      invariant 0 <= k <= |items|
      invariant ConvertTabs(items[..k]) == Ok(tabs)
    {
      assert items[..k + 1][..k] == items[..k];
      var tab := items[k];
      if !tab.JObj? {
        assert !ConvertTabs(items).Ok?;
        return Raises("AttributeError");
      }
      tabs := tabs + [PushedTab(tab.fields)];
      k := k + 1;
    }
    assert items[..k] == items;
    r := Ok(tabs);
  }

  class HybridTabsManager {
    const store: TabStore
    var enabled: bool
    var started: bool
    var tabsCache: map<string, seq<Tab>>
    var cacheTime: map<string, real>

    /** `__init__` for the single instance; `enabled` and `autoStart` are
        the `websocket` settings (both true by default), `binds` whether the
        server comes up when started. */
    constructor (store: TabStore, enabled: bool, autoStart: bool, binds: bool)
      modifies store
      ensures this.store == store && this.enabled == enabled
      ensures tabsCache == map[] && cacheTime == map[]
      ensures enabled && autoStart ==> started == store.running
      ensures !(enabled && autoStart) ==> !started && store.running == old(store.running)
      ensures store.latest == old(store.latest)
    {
      this.store := store;
      this.enabled := enabled;
      started := false;
      tabsCache := map[];
      cacheTime := map[];
      new;
      if enabled && autoStart {
        var ok := StartWebsocketServer(binds);
      }
    }

    /** `start_websocket_server`. */
    method StartWebsocketServer(binds: bool) returns (ok: bool)
      modifies this, store
      ensures !old(enabled) ==> !ok && started == old(started) && store.running == old(store.running)
      ensures old(enabled) && old(started) ==> ok && started && store.running == old(store.running)
      ensures old(enabled) && !old(started) ==> ok == store.running && started == ok
      ensures old(enabled) && !old(started) && binds ==> ok
      ensures enabled == old(enabled) && tabsCache == old(tabsCache) && cacheTime == old(cacheTime)
      ensures store.latest == old(store.latest)
    {
      if !enabled {
        return false;
      }
      if started {
        return true;
      }
      ok := store.RunServerInThread(binds);
      if ok {
        started := true;
      }
    }

    /** `stop_websocket_server`. */
    method StopWebsocketServer()
      modifies this, store
      ensures !started
      ensures !old(started) ==> store.running == old(store.running) && store.hasInstance == old(store.hasInstance)
      ensures old(started) && old(store.running) && old(store.hasInstance) ==> !store.running
      ensures enabled == old(enabled) && tabsCache == old(tabsCache) && cacheTime == old(cacheTime)
      ensures store.latest == old(store.latest)
    {
      if !started {
        return;
      }
      store.StopServer();
      started := false;
    }

    /** `_get_tabs_from_websocket`, with the similarity function supplied. */
    method GetTabsFromWebsocket(exe: string, windowTitle: string, sim: (string, string) -> real)
      returns (tabs: seq<Tab>)
      ensures tabs == PushTabs(store.latest, exe, windowTitle, sim, true)
    {
      tabs := [];
      var bid := JStr(BrowserId(exe));
      if bid !in store.latest {
        return;
      }
      var clean := CleanTitle(windowTitle);
      var ws := store.latest[bid];
      var st := Unchosen;
      var i := 0;
      while i < |ws|
        invariant 0 <= i <= |ws|
        invariant ScanWindows(ws[i..], clean, sim, true, st) == ScanWindows(ws, clean, sim, true, Unchosen)
      {
        assert ws[i..][1..] == ws[i + 1..];
        var items := Items(ws[i].1.tabs);
        if items.Raises? {
          return;
        }
        var next := ScanWindowTabs(items.value, ws[i].0, clean, sim, st);
        if next.Raises? {
          return;
        }
        st := next.value;
        i := i + 1;
      }
      if !Truthy(st.window) {
        return;
      }
      var entry := Find(ws, st.window);
      if entry.None? {
        return;
      }
      var items := Items(entry.value.tabs);
      if items.Raises? {
        return;
      }
      var converted := ConvertAll(items.value);
      if converted.Ok? {
        tabs := converted.value;
      }
    }

    /** `get_browser_tabs`: `now` is the clock reading in seconds, `host`
        what the history readers see. */
    method GetBrowserTabs(path: string, windowTitle: string, now: real, host: Host, sim: (string, string) -> real)
      returns (tabs: seq<Tab>)
      modifies this
      ensures (tabs, Cache(tabsCache, cacheTime))
                == Answer(old(Cache(tabsCache, cacheTime)), enabled && started, store.latest, path, windowTitle,
                          now, host, sim)
      ensures enabled == old(enabled) && started == old(started)
    {
      var exe := Lower(Basename(path));
      var key := path + "::" + windowTitle;
      if key in tabsCache && key in cacheTime && now - cacheTime[key] < CacheSeconds {
        return tabsCache[key];
      }
      if enabled && started {
        tabs := GetTabsFromWebsocket(exe, windowTitle, sim);
        if tabs != [] {
          tabsCache := tabsCache[key := tabs];
          cacheTime := cacheTime[key := now];
          return;
        }
      }
      tabs := BrowserTabs.GetBrowserTabs(path, windowTitle, host);
      tabsCache := tabsCache[key := tabs];
      cacheTime := cacheTime[key := now];
    }
  }
}
