/** Restoring a saved session (`restore_specific_session_core`): for every
    saved item, an application that is already open, or a special
    application whose process already runs, counts as restored; anything
    else is launched from its path, and counts as restored when the launch
    starts. */
module Restore {
  import opened Wrappers
  import opened Text
  import opened JsonFiles
  import opened Os
  import opened Config
  import Capture

  /** What happened to one saved item. */
  datatype Outcome =
    | NoPath          // the item has no usable path: skipped and counted as failed
    | WindowOpen      // a window of the same executable with a similar title is open
    | ProcessRunning  // a special application whose executable already runs
    | Launched        // the executable was started
    | LaunchFailed    // starting it raised

  predicate Succeeded(o: Outcome)
  {
    o.WindowOpen? || o.ProcessRunning? || o.Launched?
  }

  /** A window counts as the saved item's when its executable is the saved
      path up to case and both titles are non-empty strings whose lowered
      similarity reaches the threshold. A saved title that is not a string
      makes `.lower()` raise, which the window loop swallows, so no window
      matches it. */
  predicate IsItsWindow(w: Window, path: string, title: Json, pathOf: int -> Option<string>,
                        sim: (string, string) -> real, threshold: real)
  {
    && w.Window?
    && pathOf(w.hwnd).Some? && pathOf(w.hwnd).value != ""
    && Lower(pathOf(w.hwnd).value) == Lower(path)
    && w.title != "" && title.JStr? && title.s != ""
    && sim(Lower(w.title), Lower(title.s)) >= threshold
  }

  predicate HasOpenWindow(ws: seq<Window>, path: string, title: Json, pathOf: int -> Option<string>,
                          sim: (string, string) -> real, threshold: real)
  {
    exists i :: 0 <= i < |ws| && IsItsWindow(ws[i], path, title, pathOf, sim, threshold)
  }

  /** A process whose readable executable is the saved path up to case. */
  predicate HasRunningProcess(procs: seq<Proc>, path: string)
  {
    exists i :: 0 <= i < |procs| && procs[i].exe != "" && Lower(procs[i].exe) == Lower(path)
  }

  /** The fate of one saved item, given the windows and processes at the
      time it is reached and whether starting its path would succeed. A
      path that is present but not a string cannot be compared (the checks
      raise and are swallowed) and cannot be started. */
  function Decide(item: map<string, Json>, ws: seq<Window>, procs: seq<Proc>, launches: bool,
                  pathOf: int -> Option<string>, sim: (string, string) -> real, threshold: real): Outcome
  {
    var path := Get(item, "path", JNull);
    if !Truthy(path) then NoPath
    else if path.JStr? && HasOpenWindow(ws, path.s, Get(item, "title", JNull), pathOf, sim, threshold)
    then WindowOpen
    else if Truthy(Get(item, "special_app", JBool(false))) && path.JStr? && HasRunningProcess(procs, path.s)
    then ProcessRunning
    else if path.JStr? && launches then Launched
    else LaunchFailed
  }

  function CountSucceeded(os: seq<Outcome>): (n: nat)
    ensures n <= |os|
  {
    if os == [] then 0
    else CountSucceeded(os[..|os| - 1]) + (if Succeeded(os[|os| - 1]) then 1 else 0)
  }

  function CountFailed(os: seq<Outcome>): (n: nat)
    ensures n <= |os|
  {
    if os == [] then 0
    else CountFailed(os[..|os| - 1]) + (if Succeeded(os[|os| - 1]) then 0 else 1)
  }

  /** Counting one more outcome. */
  lemma CountStep(os: seq<Outcome>, o: Outcome)
    ensures CountSucceeded(os + [o]) == CountSucceeded(os) + (if Succeeded(o) then 1 else 0)
    ensures CountFailed(os + [o]) == CountFailed(os) + (if Succeeded(o) then 0 else 1)
  {
    assert (os + [o])[..|os|] == os;
  }

  /** Every item is counted exactly once, as restored or as failed. */
  lemma {:induction false} CountsAddUp(os: seq<Outcome>)
    ensures CountSucceeded(os) + CountFailed(os) == |os|
  {
    if os != [] {
      CountsAddUp(os[..|os| - 1]);
    }
  }

  /** The restored count is exactly the number of items that succeeded. */
  lemma {:induction false} CountSucceededIsCardinality(os: seq<Outcome>)
    ensures CountSucceeded(os) == |set i | 0 <= i < |os| && Succeeded(os[i])|
  {
    if os != [] {
      var init := os[..|os| - 1];
      CountSucceededIsCardinality(init);
      var before := set i | 0 <= i < |init| && Succeeded(init[i]);
      var after := set i | 0 <= i < |os| && Succeeded(os[i]);
      if Succeeded(os[|os| - 1]) {
        assert after == before + {|os| - 1};
      } else {
        assert after == before;
      }
    }
  }

  /** Which items are started: exactly those with a string path that is
      neither open in a window nor, for a special application, already
      running; a non-special application is started again even while its
      process runs without a matching window. */
  lemma LaunchAttempted(item: map<string, Json>, ws: seq<Window>, procs: seq<Proc>, launches: bool,
                        pathOf: int -> Option<string>, sim: (string, string) -> real, threshold: real)
    ensures var o := Decide(item, ws, procs, launches, pathOf, sim, threshold);
            (o.Launched? || o.LaunchFailed?) <==>
              (Truthy(Get(item, "path", JNull))
               && !(Get(item, "path", JNull).JStr?
                    && HasOpenWindow(ws, Get(item, "path", JNull).s, Get(item, "title", JNull), pathOf, sim, threshold))
               && !(Truthy(Get(item, "special_app", JBool(false))) && Get(item, "path", JNull).JStr?
                    && HasRunningProcess(procs, Get(item, "path", JNull).s)))
    ensures var o := Decide(item, ws, procs, launches, pathOf, sim, threshold);
            o.Launched? ==> Get(item, "path", JNull).JStr? && launches
  {
  }

  /** A captured item with a path is never skipped on restore, and only a
      captured special application is recognised by its running process:
      one with no open window whose executable runs is not started again. */
  lemma CapturedItemRestores(it: Capture.Item, ws: seq<Window>, procs: seq<Proc>, launches: bool,
                             pathOf: int -> Option<string>, sim: (string, string) -> real, threshold: real)
    requires it.path != ""
    ensures var o := Decide(Capture.ItemJson(it).fields, ws, procs, launches, pathOf, sim, threshold);
            && o != NoPath
            && (o.ProcessRunning? ==> it.Application? && it.special)
            && ((it.Application? && it.special && !HasOpenWindow(ws, it.path, JStr(it.title), pathOf, sim, threshold)
                 && HasRunningProcess(procs, it.path)) ==> o == ProcessRunning)
  {
  }

  /** `FindOpenWindow` is the window loop: it stops at the first window
      that matches. */
  method FindOpenWindow(ws: seq<Window>, path: string, title: Json, pathOf: int -> Option<string>,
                        sim: (string, string) -> real, threshold: real)
    returns (found: bool)
    ensures found <==> HasOpenWindow(ws, path, title, pathOf, sim, threshold)
  {
    found := false;
    var i := 0;
    while i < |ws| && !found
      invariant 0 <= i <= |ws|
      invariant found <==> HasOpenWindow(ws[..i], path, title, pathOf, sim, threshold)
      invariant found ==> HasOpenWindow(ws, path, title, pathOf, sim, threshold)
    {
      var w := ws[i];
      if w.Window? {
        var p := pathOf(w.hwnd);
        if p.Some? && p.value != "" && Lower(p.value) == Lower(path) {
          if w.title != "" && title.JStr? && title.s != "" {
            if sim(Lower(w.title), Lower(title.s)) >= threshold {
              found := true;
            }
          }
        }
      }
      assert ws[..i + 1][i] == ws[i];
      assert forall j :: 0 <= j < i ==> ws[..i + 1][j] == ws[..i][j];
      i := i + 1;
    }
    if !found {
      assert ws[..i] == ws;
    }
  }

  /** The special-application process loop. */
  method FindRunningProcess(procs: seq<Proc>, path: string) returns (found: bool)
    ensures found <==> HasRunningProcess(procs, path)
  {
    found := false;
    var i := 0;
    while i < |procs|
      invariant 0 <= i <= |procs|
      invariant !HasRunningProcess(procs[..i], path)
    {
      assert procs[..i + 1][i] == procs[i];
      assert forall j :: 0 <= j < i ==> procs[..i + 1][j] == procs[..i][j];
      if procs[i].exe != "" && Lower(procs[i].exe) == Lower(path) {
        return true;
      }
      i := i + 1;
    }
    assert procs[..i] == procs;
  }

  /** The body of the restore loop for one item. */
  method RestoreItem(item: map<string, Json>, ws: seq<Window>, procs: seq<Proc>, launches: bool,
                     pathOf: int -> Option<string>, sim: (string, string) -> real, threshold: real)
    returns (outcome: Outcome)
    ensures outcome == Decide(item, ws, procs, launches, pathOf, sim, threshold)
  {
    var path := Get(item, "path", JNull);
    if !Truthy(path) {
      return NoPath;
    }
    var open := false;
    if path.JStr? {
      open := FindOpenWindow(ws, path.s, Get(item, "title", JNull), pathOf, sim, threshold);
    }
    var running := false;
    if !open && Truthy(Get(item, "special_app", JBool(false))) && path.JStr? {
      running := FindRunningProcess(procs, path.s);
    }
    if open {
      outcome := WindowOpen;
    } else if running {
      outcome := ProcessRunning;
    } else if path.JStr? && launches {
      outcome := Launched;
    } else {
      outcome := LaunchFailed;
    }
  }

  /** `restore_specific_session_core`. For the item at position k,
      `windowsAt(k)` and `processesAt(k)` are what the system lists when the
      item is reached, and `launches(k)` whether starting its path succeeds.
      An empty session restores nothing and gives no counts. */
  method RestoreSession(items: seq<map<string, Json>>, s: Settings,
                        windowsAt: nat -> seq<Window>, processesAt: nat -> seq<Proc>, launches: nat -> bool,
                        pathOf: int -> Option<string>, sim: (string, string) -> real)
    returns (counts: Option<(nat, nat)>, outcomes: seq<Outcome>)
    ensures items == [] ==> counts == None && outcomes == []
    ensures |outcomes| == |items|
    ensures forall k :: 0 <= k < |items| ==>
              outcomes[k] == Decide(items[k], windowsAt(k), processesAt(k), launches(k), pathOf, sim, s.similarityThreshold)
    ensures items != [] ==> counts == Some((CountSucceeded(outcomes), CountFailed(outcomes)))
  {
    outcomes := [];
    if items == [] {
      return None, outcomes;
    }
    var threshold := s.similarityThreshold;
    var restored := 0;
    var failed := 0;
    var k := 0;
    while k < |items|
      invariant 0 <= k <= |items| && |outcomes| == k
      invariant forall j :: 0 <= j < k ==>
                  outcomes[j] == Decide(items[j], windowsAt(j), processesAt(j), launches(j), pathOf, sim, threshold)
      invariant restored == CountSucceeded(outcomes) && failed == CountFailed(outcomes)
    {
      var outcome := RestoreItem(items[k], windowsAt(k), processesAt(k), launches(k), pathOf, sim, threshold);
      if Succeeded(outcome) {
        restored := restored + 1;
      } else {
        failed := failed + 1;
      }
      CountStep(outcomes, outcome);
      outcomes := outcomes + [outcome];
      k := k + 1;
    }
    counts := Some((restored, failed));
  }
}
