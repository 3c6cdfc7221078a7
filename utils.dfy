/** The relevance filter: which windows are worth capturing, which
    executables are browsers, and where a browser keeps its data. */
module Utils {
  import opened Wrappers
  import opened Text
  import opened Os
  import opened Config

  /** Name fragments of background utilities that are always captured. */
  const SpecialAppNames: seq<string> := ["everything", "pixpin", "fastorange"]

  /** The lower-cased `s` contains one of the special names. */
  predicate HasSpecialName(s: string)
  {
    exists n :: n in SpecialAppNames && Contains(Lower(s), n)
  }

  /** `x` equals some member of `xs`, ignoring case. */
  predicate InLowered(x: string, xs: seq<string>)
  {
    exists y :: y in xs && Lower(y) == Lower(x)
  }

  function LowerAll(xs: seq<string>): (r: seq<string>)
    ensures |r| == |xs| && forall i :: 0 <= i < |xs| ==> r[i] == Lower(xs[i])
  {
    seq(|xs|, i requires 0 <= i < |xs| => Lower(xs[i]))
  }

  /** The list-comprehension membership the source writes, as `InLowered`. */
  lemma InLowerAll(x: string, xs: seq<string>)
    ensures Lower(x) in LowerAll(xs) <==> InLowered(x, xs)
  {
    if Lower(x) in LowerAll(xs) {
      var i :| 0 <= i < |xs| && LowerAll(xs)[i] == Lower(x);
      assert xs[i] in xs;
    }
  }

  /** `is_browser_process`: an empty path is never a browser; otherwise its
      base name is compared, ignoring case, with the configured executables. */
  function IsBrowserProcess(path: string, executables: seq<string>): (r: bool)
    ensures r <==> path != "" && InLowered(Basename(path), executables)
  {
    InLowerAll(Basename(path), executables);
    path != "" && Lower(Basename(path)) in LowerAll(executables)
  }

  /** `is_window_relevant`: the executable path of a window worth capturing,
      or None (the source's False). `pathOf` resolves a window handle to the
      owning process's executable path. */
  function IsWindowRelevant(w: Window, s: Settings, pathOf: int -> Option<string>): (r: Option<string>)
    ensures w.Incomplete? ==> r == None
    ensures r.Some? ==> w.Window? && r.value != "" && pathOf(w.hwnd) == r
    // Only special windows may be invisible or untitled.
    ensures r.Some? && !HasSpecialName(w.title) ==> w.visible && w.title != ""
    // An excluded title is rejected, special or not.
    ensures w.Window? && InLowered(w.title, s.excludeWindowTitles) ==> r == None
    // An excluded path is rejected unless its base name is special.
    ensures r.Some? && !HasSpecialName(Basename(r.value)) ==> !InLowered(r.value, s.excludeProcessPaths)
    // Everything else that resolves to a non-empty path is kept.
    ensures w.Window? && (HasSpecialName(w.title) || (w.visible && w.title != ""))
            && !InLowered(w.title, s.excludeWindowTitles)
            && pathOf(w.hwnd).Some? && pathOf(w.hwnd).value != ""
            && (HasSpecialName(Basename(pathOf(w.hwnd).value))
                || !InLowered(pathOf(w.hwnd).value, s.excludeProcessPaths))
            ==> r == pathOf(w.hwnd)
  {
    match w
    case Incomplete => None
    case Window(visible, title, hwnd) =>
      InLowerAll(title, s.excludeWindowTitles);
      if !HasSpecialName(title) && (!visible || title == "") then None
      else if Lower(title) in LowerAll(s.excludeWindowTitles) then None
      else match pathOf(hwnd)
        case None => None
        case Some(p) =>
          InLowerAll(p, s.excludeProcessPaths);
          if p == "" then None
          else if HasSpecialName(Basename(p)) then Some(p)
          else if Lower(p) in LowerAll(s.excludeProcessPaths) then None
          else Some(p)
  }

  /** The first path of `paths` that exists. */
  function FirstExisting(paths: seq<string>, present: string -> bool): (r: Option<string>)
    ensures r.None? <==> forall i :: 0 <= i < |paths| ==> !present(paths[i])
    ensures r.Some? ==> exists i :: 0 <= i < |paths| && paths[i] == r.value && present(r.value)
                                    && forall j :: 0 <= j < i ==> !present(paths[j])
  {
    if paths == [] then None
    else if present(paths[0]) then Some(paths[0])
    else
      var r := FirstExisting(paths[1..], present);
      assert forall i :: 1 <= i < |paths| ==> paths[i] == paths[1..][i - 1];
      r
  }

  /** `get_valid_data_path`: None for an executable without a profile, else
      the first of its `data_paths` that exists, in list order. */
  function GetValidDataPath(exe: string, dataPaths: map<string, seq<string>>, present: string -> bool)
    : (r: Option<string>)
    ensures exe !in dataPaths ==> r == None
    ensures r.None? && exe in dataPaths ==> forall p :: p in dataPaths[exe] ==> !present(p)
    ensures r.Some? ==> exe in dataPaths
    ensures r.Some? ==> exists i :: 0 <= i < |dataPaths[exe]| && dataPaths[exe][i] == r.value && present(r.value)
                                    && forall j :: 0 <= j < i ==> !present(dataPaths[exe][j])
  {
    if exe !in dataPaths then None else FirstExisting(dataPaths[exe], present)
  }
}
