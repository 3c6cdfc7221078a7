/** A browser tab as the collectors return it: a dictionary with `title`
    and `url`, and optionally `source` (which tier produced it) and `active`. */
module Tabs {
  import opened Wrappers
  import opened JsonFiles

  datatype Tab = Tab(title: string, url: string, source: Option<string>, active: Option<bool>)

  /** The dictionary a tab is stored as in the session file. */
  function TabJson(t: Tab): Json
  {
    var base := map["title" := JStr(t.title), "url" := JStr(t.url)];
    var withSource := if t.source.Some? then base["source" := JStr(t.source.value)] else base;
    JObj(if t.active.Some? then withSource["active" := JBool(t.active.value)] else withSource)
  }

  function StrField(m: map<string, Json>, key: string): string
  {
    if key in m && m[key].JStr? then m[key].s else ""
  }

  /** Reads a stored tab dictionary back; missing or non-string fields read as "". */
  function TabOf(j: Json): Tab
  {
    match j
    case JObj(m) =>
      Tab(StrField(m, "title"), StrField(m, "url"),
          if "source" in m && m["source"].JStr? then Some(m["source"].s) else None,
          if "active" in m && m["active"].JBool? then Some(m["active"].b) else None)
    case _ => Tab("", "", None, None)
  }

  lemma TabRoundTrip(t: Tab)
    ensures TabOf(TabJson(t)) == t
  {
  }
}
