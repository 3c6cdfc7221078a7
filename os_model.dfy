/** What the operating system answers, passed to the model as values:
    windows, processes, paths that exist, directory listings and the rows a
    browser history query returns. */
module Os {
  import opened Wrappers

  /** A top-level window as `pygetwindow` reports it. `Incomplete` stands for
      an object lacking one of `visible`, `title` or `_hWnd`. */
  datatype Window = Incomplete | Window(visible: bool, title: string, hwnd: int)

  /** A `psutil` process record. `name` is None when psutil could not read
      it; an unreadable executable path is "". */
  datatype Proc = Proc(pid: int, name: Option<string>, exe: string)

  datatype DirEntry = DirEntry(name: string, isDir: bool)

  /** One row of a history query; a NULL title is "". */
  datatype Row = Row(url: string, title: string)

  /** The machine seen by the tab readers: its processes, which paths exist,
      `os.listdir` (None when it raises), the rows a history query on a
      database copy returns, newest visit first (None when the copy or the
      query fails), and the LOCALAPPDATA and APPDATA directories. */
  datatype Host = Host(
    processes: seq<Proc>,
    present: string -> bool,
    listDir: string -> Option<seq<DirEntry>>,
    history: string -> Option<seq<Row>>,
    localAppData: string,
    appData: string)
}
