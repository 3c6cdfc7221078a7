/** The push tier's receiving end: a store of the latest tab lists that
    browser extensions send, updated message by message, and the guards
    around stopping the server. */
module WebsocketServer {
  import opened Wrappers
  import opened JsonFiles
  import opened Text

  /** What is kept for one browser window: the `tabs` value as sent, when
      it arrived, and which connection sent it. */
  datatype Entry = Entry(tabs: Json, timestamp: string, clientId: string)

  /** One browser's windows, keyed by window id, in insertion order. */
  type Windows = seq<(Json, Entry)>

  /** A frame as received: text that is not JSON, or the decoded value. */
  datatype Message = Undecodable | Decoded(data: Json)

  datatype Reply = TabsReceived(count: nat) | HeartbeatAck

  /** A decoded value Python can use as a dictionary key. */
  predicate Hashable(j: Json)
  {
    !j.JArr? && !j.JObj?
  }

  function Keys(ws: Windows): (r: seq<Json>)
    ensures |r| == |ws| && forall i :: 0 <= i < |ws| ==> r[i] == ws[i].0
  {
    seq(|ws|, i requires 0 <= i < |ws| => ws[i].0)
  }

  predicate UniqueKeys(ws: Windows)
  {
    forall i, j :: 0 <= i < j < |ws| ==> ws[i].0 != ws[j].0
  }

  /** The position of `key`, or -1. */
  function IndexOf(ws: Windows, key: Json): (r: int)
    ensures -1 <= r < |ws|
    ensures r == -1 <==> key !in Keys(ws)
    ensures r >= 0 ==> ws[r].0 == key && forall j :: 0 <= j < r ==> ws[j].0 != key
  {
    if ws == [] then -1
    else if ws[|ws| - 1].0 == key && IndexOf(ws[..|ws| - 1], key) == -1 then |ws| - 1
    else
      assert Keys(ws) == Keys(ws[..|ws| - 1]) + [ws[|ws| - 1].0];
      IndexOf(ws[..|ws| - 1], key)
  }

  /** The entry stored under `key`. */
  function Find(ws: Windows, key: Json): (r: Option<Entry>)
    ensures r.None? <==> key !in Keys(ws)
  {
    var i := IndexOf(ws, key);
    if i < 0 then None else Some(ws[i].1)
  }

  /** `windows[key] = e`: an existing key keeps its place, a new one goes last. */
  function Put(ws: Windows, key: Json, e: Entry): Windows
  {
    var i := IndexOf(ws, key);
    if i < 0 then ws + [(key, e)] else ws[i := (key, e)]
  }

  lemma IndexOfIs(ws: Windows, key: Json, i: int)
    requires 0 <= i < |ws| && ws[i].0 == key
    requires forall j :: 0 <= j < i ==> ws[j].0 != key
    ensures IndexOf(ws, key) == i
  {
    assert ws[i].0 in Keys(ws);
  }

  /** After `Put`, `key` reads back `e` and every other key reads as before. */
  lemma PutThenFind(ws: Windows, key: Json, e: Entry, k: Json)
    ensures Find(Put(ws, key, e), key) == Some(e)
    ensures k != key ==> Find(Put(ws, key, e), k) == Find(ws, k)
  {
    var r := Put(ws, key, e);
    var i := IndexOf(ws, key);
    if i < 0 {
      assert forall j :: 0 <= j < |ws| ==> ws[j].0 in Keys(ws);
      IndexOfIs(r, key, |ws|);
    } else {
      IndexOfIs(r, key, i);
    }
    if k != key {
      var m := IndexOf(ws, k);
      if m >= 0 {
        IndexOfIs(r, k, m);
      } else {
        assert forall j :: 0 <= j < |ws| ==> ws[j].0 in Keys(ws);
        assert k !in Keys(r);
      }
    }
  }

  /** `Put` keeps the key order and appends a new key, keeping keys unique. */
  lemma PutKeys(ws: Windows, key: Json, e: Entry)
    ensures key in Keys(ws) ==> Keys(Put(ws, key, e)) == Keys(ws)
    ensures key !in Keys(ws) ==> Keys(Put(ws, key, e)) == Keys(ws) + [key]
    ensures UniqueKeys(ws) ==> UniqueKeys(Put(ws, key, e))
  {
    var r := Put(ws, key, e);
    if key !in Keys(ws) {
      assert forall j :: 0 <= j < |ws| ==> ws[j].0 in Keys(ws);
    }
  }

  /** The ids and `tabs` a decoded `tabs` message carries, with the
      defaults for missing fields. */
  datatype TabsUpdate = TabsUpdate(browserId: Json, windowId: Json, tabs: Json)

  function AsTabsUpdate(msg: Message): Option<TabsUpdate>
  {
    match msg
    case Decoded(JObj(m)) =>
      if Get(m, "type", JNull) == JStr("tabs")
      then Some(TabsUpdate(Get(m, "browser_id", JStr("unknown")), Get(m, "window_id", JStr("unknown")),
                           Get(m, "tabs", JArr([]))))
      else None
    case _ => None
  }

  /** The message moves `last_message_time`: it decoded, and the debug line
      before the assignment does not raise on it. `'type' in data` raises on
      a number, a boolean or null; when it holds, `data['type']` raises on a
      string (the test is for a substring) and on a list (the test is for
      an element), which cannot be indexed by a string. */
  predicate Stamps(msg: Message)
  {
    && msg.Decoded?
    && (|| msg.data.JObj?
        || (msg.data.JStr? && !Contains(msg.data.s, "type"))
        || (msg.data.JArr? && JStr("type") !in msg.data.items))
  }

  /** The store after one message. An unhashable browser id changes
      nothing; an unhashable window id still leaves the browser's (possibly
      new, empty) window table behind. */
  function Applied(data: map<Json, Windows>, msg: Message, clientId: string, now: string): map<Json, Windows>
  {
    match AsTabsUpdate(msg)
    case None => data
    case Some(u) =>
      if !Hashable(u.browserId) then data
      else
        var ws := if u.browserId in data then data[u.browserId] else [];
        if !Hashable(u.windowId) then data[u.browserId := ws]
        else data[u.browserId := Put(ws, u.windowId, Entry(u.tabs, now, clientId))]
  }

  /** The reply to one message: a tabs message is acknowledged with the
      length of its `tabs` once stored; a heartbeat is answered. */
  function ReplyFor(msg: Message): Option<Reply>
  {
    match AsTabsUpdate(msg)
    case Some(u) =>
      if Hashable(u.browserId) && Hashable(u.windowId) && Len(u.tabs).Some?
      then Some(TabsReceived(Len(u.tabs).value)) else None
    case None =>
      if msg.Decoded? && msg.data.JObj? && Get(msg.data.fields, "type", JNull) == JStr("heartbeat")
      then Some(HeartbeatAck) else None
  }

  /** The module-level state of the server: the latest tab lists and the
      status fields the rest of the program reads. */
  class TabStore {
    var latest: map<Json, Windows>
    var running: bool
    var hasInstance: bool
    var lastMessageTime: Option<string>

    /** Every browser's window table has one entry per window id. */
    predicate Valid()
      reads this
    {
      forall b :: b in latest ==> UniqueKeys(latest[b])
    }

    constructor ()
      ensures latest == map[] && !running && !hasInstance && lastMessageTime.None?
      ensures Valid()
    {
      latest := map[];
      running := false;
      hasInstance := false;
      lastMessageTime := None;
    }

    /** The body of the message loop of `handle_client` for one frame. */
    method Handle(msg: Message, clientId: string, now: string) returns (reply: Option<Reply>)
      requires Valid()
      modifies this
      ensures Valid()
      ensures latest == Applied(old(latest), msg, clientId, now)
      ensures lastMessageTime == if Stamps(msg) then Some(now) else old(lastMessageTime)
      ensures reply == ReplyFor(msg)
      ensures running == old(running) && hasInstance == old(hasInstance)
    {
      reply := None;
      if !Stamps(msg) {
        return;
      }
      lastMessageTime := Some(now);
      if !msg.data.JObj? {
        return;
      }
      var m := msg.data.fields;
      var kind := Get(m, "type", JNull);
      if kind == JStr("tabs") {
        var browserId := Get(m, "browser_id", JStr("unknown"));
        var windowId := Get(m, "window_id", JStr("unknown"));
        var tabs := Get(m, "tabs", JArr([]));
        if !Hashable(browserId) {
          return;
        }
        if browserId !in latest {
          latest := latest[browserId := []];
        }
        if !Hashable(windowId) {
          return;
        }
        PutKeys(latest[browserId], windowId, Entry(tabs, now, clientId));
        latest := latest[browserId := Put(latest[browserId], windowId, Entry(tabs, now, clientId))];
        var count := Len(tabs);
        if count.Some? {
          reply := Some(TabsReceived(count.value));
        }
      } else if kind == JStr("heartbeat") {
        reply := Some(HeartbeatAck);
      }
    }

    /** `start_server` followed by the start-up wait of
        `run_server_in_thread`: `binds` is whether the server came up. */
    method RunServerInThread(binds: bool) returns (up: bool)
      modifies this
      ensures binds ==> running && hasInstance
      ensures !binds ==> running == old(running) && hasInstance == old(hasInstance)
      ensures up == running
      ensures latest == old(latest) && lastMessageTime == old(lastMessageTime)
    {
      if binds {
        hasInstance := true;
        running := true;
      }
      up := running;
    }

    /** `shutdown`: only a live server instance is closed. */
    method Shutdown()
      modifies this
      ensures old(hasInstance) ==> !hasInstance && !running
      ensures !old(hasInstance) ==> running == old(running) && hasInstance == old(hasInstance)
      ensures latest == old(latest) && lastMessageTime == old(lastMessageTime)
    {
      if hasInstance {
        hasInstance := false;
        running := false;
      }
    }

    /** `stop_server`: nothing happens unless the status says running. */
    method StopServer()
      modifies this
      ensures !old(running) ==> running == old(running) && hasInstance == old(hasInstance)
      ensures old(running) && old(hasInstance) ==> !running && !hasInstance
      ensures old(running) && !old(hasInstance) ==> running && !hasInstance
      ensures latest == old(latest) && lastMessageTime == old(lastMessageTime)
    {
      if !running {
        return;
      }
      Shutdown();
    }
  }

  /** A stored tab list can be read back under its browser and window ids. */
  lemma StoredUpdateIsFound(data: map<Json, Windows>, msg: Message, clientId: string, now: string)
    requires AsTabsUpdate(msg).Some?
    requires Hashable(AsTabsUpdate(msg).value.browserId) && Hashable(AsTabsUpdate(msg).value.windowId)
    ensures var u := AsTabsUpdate(msg).value;
            var after := Applied(data, msg, clientId, now);
            u.browserId in after && Find(after[u.browserId], u.windowId) == Some(Entry(u.tabs, now, clientId))
  {
    var u := AsTabsUpdate(msg).value;
    PutThenFind(if u.browserId in data then data[u.browserId] else [], u.windowId, Entry(u.tabs, now, clientId), u.windowId);
  }

  /** An update touches one window of one browser; everything else stays. */
  lemma UpdateIsLocal(data: map<Json, Windows>, msg: Message, clientId: string, now: string, b: Json, w: Json)
    requires b in data
    requires AsTabsUpdate(msg).None? || b != AsTabsUpdate(msg).value.browserId
             || w != AsTabsUpdate(msg).value.windowId
    ensures var after := Applied(data, msg, clientId, now);
            b in after && Find(after[b], w) == Find(data[b], w)
  {
    if AsTabsUpdate(msg).Some? {
      var u := AsTabsUpdate(msg).value;
      if u.browserId == b && Hashable(b) && Hashable(u.windowId) {
        PutThenFind(data[b], u.windowId, Entry(u.tabs, now, clientId), w);
      }
    }
  }

  /** A window keeps its place when it reports again; a new window goes last. */
  lemma WindowOrderKept(data: map<Json, Windows>, msg: Message, clientId: string, now: string)
    requires AsTabsUpdate(msg).Some?
    requires Hashable(AsTabsUpdate(msg).value.browserId) && Hashable(AsTabsUpdate(msg).value.windowId)
    requires AsTabsUpdate(msg).value.browserId in data
    ensures var u := AsTabsUpdate(msg).value;
            var before := Keys(data[u.browserId]);
            var after := Keys(Applied(data, msg, clientId, now)[u.browserId]);
            after == if u.windowId in before then before else before + [u.windowId]
  {
    var u := AsTabsUpdate(msg).value;
    PutKeys(data[u.browserId], u.windowId, Entry(u.tabs, now, clientId));
  }

  /** Only a `tabs` message changes the store, and every acknowledgement
      counts exactly the tabs it stored. */
  lemma OnlyTabsMessagesStore(data: map<Json, Windows>, msg: Message, clientId: string, now: string)
    ensures AsTabsUpdate(msg).None? ==> Applied(data, msg, clientId, now) == data
    ensures ReplyFor(msg).Some? && ReplyFor(msg).value.TabsReceived? ==>
              var u := AsTabsUpdate(msg).value;
              Find(Applied(data, msg, clientId, now)[u.browserId], u.windowId) == Some(Entry(u.tabs, now, clientId))
              && Len(u.tabs) == Some(ReplyFor(msg).value.count)
  {
    if ReplyFor(msg).Some? && ReplyFor(msg).value.TabsReceived? {
      StoredUpdateIsFound(data, msg, clientId, now);
    }
  }
}
