/** The agent's item bookkeeping (src/bin/server.rs; src/bin/sni-agent.rs is
    the same code with another payload codec): each tray item found on the
    guest's bus gets a fresh id, a forward entry from its bus name to its id
    and pending-signal mask, and a reverse entry from the id to the item
    string. Events for the daemon are appended to `sent`, in the order
    `send_or_panic` writes them. */
module AgentRegistry {
  import opened Wrappers
  import opened Ints
  import opened Messages
  import opened DBusNames
  import opened Framing

  const DEFAULT_ITEM_PATH: string := "/StatusNotifierItem"

  /** App ids under this prefix belong to items the relay itself exported. */
  const RELAYED_PREFIX: string := "org.qubes_os.vm."

  /** `str::find(c)`: the index of the first occurrence of `c`. */
  function FirstIndexOf(s: string, c: char): (r: Option<nat>)
    ensures r.None? <==> c !in s
    ensures r.Some? ==> r.value < |s| && s[r.value] == c && c !in s[..r.value]
  {
    if |s| == 0 then None
    else if s[0] == c then Some(0)
    else
      var r := FirstIndexOf(s[1..], c);
      if r.None? then None
      else
        assert s[..r.value + 1] == [s[0]] + s[1..][..r.value];
        Some(r.value + 1)
  }

  /** An item string "busname/path" is cut at its first '/'; a string with
      no '/' is a bare bus name whose object sits at the default path. */
  function SplitItem(item: string): (r: (string, string))
    ensures '/' !in r.0
    ensures '/' !in item ==> r == (item, DEFAULT_ITEM_PATH)
    ensures '/' in item ==> r.0 + r.1 == item && |r.1| > 0 && r.1[0] == '/'
  {
    match FirstIndexOf(item, '/')
    case None => (item, DEFAULT_ITEM_PATH)
    case Some(k) =>
      assert item[..k] + item[k..] == item;
      (item[..k], item[k..])
  }

  lemma StartsWithPrefix(s: string, prefix: string)
    ensures (|prefix| <= |s| && s[..|prefix|] == prefix) <==> (exists t :: s == prefix + t)
  {
    if |prefix| <= |s| && s[..|prefix|] == prefix {
      assert s == prefix + s[|prefix|..];
    }
  }

  predicate StartsWith(s: string, prefix: string) {
    |prefix| <= |s| && s[..|prefix|] == prefix
  }

  /** Pending-signal state of one item: its id and a mask of IconType flags
      whose refresh is in flight. */
  datatype IconStats = IconStats(id: u64, state: bv8)

  /** A pixmap as the StatusNotifierItem interface delivers it. */
  datatype Pixmap = Pixmap(width: i32, height: i32, data: seq<u8>)

  /** `IconData { width: w as u32, height: h as u32, data }`. */
  function ToIconData(p: Pixmap): (d: IconData)
    ensures d.data == p.data
    ensures U32AsI32(d.width) == p.width && U32AsI32(d.height) == p.height
  {
    IconData(I32AsU32(p.width), I32AsU32(p.height), p.data)
  }

  function ToIconDataAll(ps: seq<Pixmap>): (ds: seq<IconData>)
    ensures |ds| == |ps|
    ensures forall i | 0 <= i < |ps| :: ds[i] == ToIconData(ps[i])
  {
    if ps == [] then [] else [ToIconData(ps[0])] + ToIconDataAll(ps[1..])
  }

  /** A failed D-Bus property read. */
  datatype BusError = BusError(name: string)

  /** What `go` reads from an item over D-Bus; these reads are foreign calls,
      so their results are inputs here. */
  datatype ItemProperties = ItemProperties(
    appId: Result<string, BusError>,
    category: Result<string, BusError>,
    isMenu: Result<bool, BusError>,
    status: Result<string, BusError>,
    normal: Result<seq<Pixmap>, BusError>,
    attention: Result<seq<Pixmap>, BusError>,
    overlay: Result<seq<Pixmap>, BusError>)

  datatype GoError = BadBusName | BadObjectPath | NoAppId(e: BusError) | NoCategory(e: BusError) | IdOverflow

  datatype GoOutcome = Created(id: u64) | Skipped | Failed(error: GoError)

  /** The Icon event for one fetched pixmap list, none when the read failed. */
  function IconEvent(id: u64, typ: IconType, fetched: Result<seq<Pixmap>, BusError>): (r: seq<IconClientEvent>)
    ensures fetched.Err? <==> r == []
    ensures fetched.Ok? ==> r == [IconClientEvent(id, Icon(typ, ToIconDataAll(fetched.value)))]
  {
    if fetched.Ok? then [IconClientEvent(id, Icon(typ, ToIconDataAll(fetched.value)))] else []
  }

  /** What `go` sends for a new item: Create, then Status, then the Normal,
      Attention and Overlay icons, each only if its read succeeded. */
  function CreationEvents(id: u64, appId: string, category: string, p: ItemProperties)
    : (r: seq<IconClientEvent>)
    ensures |r| >= 2 && r[0] == IconClientEvent(id, Create(category, appId, p.isMenu.ToOption().GetOr(false)))
    ensures r[1] == IconClientEvent(id, ClientEvent.Status(p.status.ToOption()))
    ensures forall e | e in r :: e.id == id
    ensures r[2..] == IconEvent(id, IconType.Normal, p.normal)
                      + IconEvent(id, IconType.Attention, p.attention)
                      + IconEvent(id, IconType.Overlay, p.overlay)
  {
    [IconClientEvent(id, Create(category, appId, p.isMenu.ToOption().GetOr(false))),
     IconClientEvent(id, ClientEvent.Status(p.status.ToOption()))]
    + IconEvent(id, IconType.Normal, p.normal)
    + IconEvent(id, IconType.Attention, p.attention)
    + IconEvent(id, IconType.Overlay, p.overlay)
  }

  /** Where the reader forwards a user action: to the object of the item
      the id was given to, or nowhere when the id is unknown. */
  datatype ProxyCall = ProxyCall(busName: string, objectPath: string, action: ServerEvent)

  function Route(reverseNameMap: map<u64, string>, ev: IconServerEvent): (r: Option<ProxyCall>)
    ensures r.None? <==> ev.id !in reverseNameMap
    ensures r.Some? ==> r.value.action == ev.event
                        && (r.value.busName, r.value.objectPath) == SplitItem(reverseNameMap[ev.id])
  {
    if ev.id in reverseNameMap then
      var (bus, path) := SplitItem(reverseNameMap[ev.id]);
      Some(ProxyCall(bus, path, ev.event))
    else None
  }

  /** The calls for a run of user actions: one per action whose id is
      known, and nothing else. */
  function RouteAll(reverseNameMap: map<u64, string>, evs: seq<IconServerEvent>): (r: seq<ProxyCall>)
    ensures |r| <= |evs|
    ensures forall e | e in evs && e.id in reverseNameMap :: Route(reverseNameMap, e).value in r
    ensures forall c | c in r :: exists e | e in evs :: Route(reverseNameMap, e) == Some(c)
    ensures (forall e | e in evs :: e.id in reverseNameMap) ==> |r| == |evs|
  {
    if evs == [] then []
    else
      var head := Route(reverseNameMap, evs[0]);
      (if head.Some? then [head.value] else []) + RouteAll(reverseNameMap, evs[1..])
  }

  /** What a D-Bus signal fetches once its refresh runs. */
  datatype Fetched =
    | IconFetched(pixmaps: Result<seq<Pixmap>, BusError>, hasIconName: bool)
    | TitleFetched(title: Option<string>)
    | StatusFetched(status: Option<string>)

  predicate FetchMatches(flag: IconType, f: Fetched) {
    match flag
    case Normal | Overlay | Attention => f.IconFetched?
    case Title => f.TitleFetched?
    case Status => f.StatusFetched?
  }

  /** The key `handle_cb` looks a signal up under: sender and object path
      concatenated (src/bin/server.rs:290). An object path starts with '/',
      so the key holds one right after the sender's name. */
  function SignalKeyAsWritten(sender: string, path: string): (r: string)
    ensures |path| > 0 && path[0] == '/' ==> |r| > |sender| && r[|sender|] == '/' && '/' in r
  {
    sender + path
  }

  /** The key the forward map is filled under: the bus-name part of the item
      string the sender and the path make, which is what `go` inserts for
      an item registered as "sender/path". */
  function SignalKey(sender: string, path: string): (r: string)
    ensures '/' !in sender && |path| > 0 && path[0] == '/' ==> SplitItem(sender + path).0 == r
  {
    if '/' !in sender && |path| > 0 && path[0] == '/' then
      var item := sender + path;
      assert item[|sender|] == '/';
      assert forall i | 0 <= i < |sender| :: item[i] == sender[i];
      sender
    else sender
  }

  /** How `handle_cb` is modelled: as the source writes it, or with the
      lookup key and the Title/Status completion corrected. */
  datatype Handling = AsWritten | Corrected

  function LookupKey(h: Handling, sender: string, path: string): string {
    if h.AsWritten? then SignalKeyAsWritten(sender, path) else SignalKey(sender, path)
  }

  /** Mask after an icon refresh completes: only that flag is cleared. */
  function ClearFlag(flag: IconType, state: bv8): (r: bv8)
    ensures r & flag.Flag() == 0
    ensures forall t: IconType | t != flag :: r & t.Flag() == state & t.Flag()
  {
    !flag.Flag() & state
  }

  /** Mask after a Title or Status refresh completes, as written in
      src/bin/server.rs:365 and 379: `!flag | state`. The flag keeps its
      old bit, and every other kind is marked pending. */
  function TextCompletionAsWritten(flag: IconType, state: bv8): (r: bv8)
    ensures r & flag.Flag() == state & flag.Flag()
    ensures forall t: IconType | t != flag :: r & t.Flag() == t.Flag()
  {
    !flag.Flag() | state
  }

  /** Mask after a Title or Status refresh completes, clearing the flag as
      the icon refreshes do. */
  function TextCompletion(flag: IconType, state: bv8): (r: bv8)
    ensures r & flag.Flag() == 0
    ensures forall t: IconType | t != flag :: r & t.Flag() == state & t.Flag()
  {
    ClearFlag(flag, state)
  }

  function TextMask(h: Handling, flag: IconType, state: bv8): bv8 {
    if h.AsWritten? then TextCompletionAsWritten(flag, state) else TextCompletion(flag, state)
  }

  /** The outcome of `go`, in the order it checks: the bus name, the object
      path, the app id, the relay's own prefix, the category, and the id
      counter. Only a created item changes any state. */
  function GoDecision(item: string, props: ItemProperties, lastId: u64): (o: GoOutcome)
    ensures o.Created? <==>
      && ValidBusName(SplitItem(item).0) && ValidObjectPath(SplitItem(item).1)
      && props.appId.Ok? && !StartsWith(props.appId.value, RELAYED_PREFIX)
      && props.category.Ok? && lastId as int + 1 < U64_LIMIT
    ensures o.Created? ==> o.id as int == lastId as int + 1
    ensures o == Skipped <==>
      && ValidBusName(SplitItem(item).0) && ValidObjectPath(SplitItem(item).1)
      && props.appId.Ok? && StartsWith(props.appId.value, RELAYED_PREFIX)
    ensures o == Failed(BadBusName) <==> !ValidBusName(SplitItem(item).0)
  {
    var (bus, path) := SplitItem(item);
    if !ValidBusName(bus) then Failed(BadBusName)
    else if !ValidObjectPath(path) then Failed(BadObjectPath)
    else if props.appId.Err? then Failed(NoAppId(props.appId.error))
    else if StartsWith(props.appId.value, RELAYED_PREFIX) then Skipped
    else if props.category.Err? then Failed(NoCategory(props.category.error))
    else if lastId as int + 1 >= U64_LIMIT then Failed(IdOverflow)
    else Created(lastId + 1)
  }

  /** Every forward entry names a live id whose item string starts with
      the forward key as its bus name. */
  ghost predicate Linked(nameMap: map<string, IconStats>, reverseNameMap: map<u64, string>) {
    forall name | name in nameMap ::
      nameMap[name].id in reverseNameMap && SplitItem(reverseNameMap[nameMap[name].id]).0 == name
  }

  /** Registering an item under a fresh id keeps the maps linked. */
  lemma InsertKeepsLinked(nameMap: map<string, IconStats>, reverseNameMap: map<u64, string>, item: string, id: u64)
    requires Linked(nameMap, reverseNameMap) && id !in reverseNameMap
    ensures Linked(nameMap[SplitItem(item).0 := IconStats(id, 0)], reverseNameMap[id := item])
  {
    var m := nameMap[SplitItem(item).0 := IconStats(id, 0)];
    var r := reverseNameMap[id := item];
    forall name | name in m
      ensures m[name].id in r && SplitItem(r[m[name].id]).0 == name
    {
      if name != SplitItem(item).0 {
        assert m[name].id != id;
      }
    }
  }

  /** Updating an entry's mask keeps the maps linked. */
  lemma MaskUpdateKeepsLinked(nameMap: map<string, IconStats>, reverseNameMap: map<u64, string>,
                              key: string, mask: bv8)
    requires Linked(nameMap, reverseNameMap) && key in nameMap
    ensures Linked(nameMap[key := nameMap[key].(state := mask)], reverseNameMap)
  {
    var m := nameMap[key := nameMap[key].(state := mask)];
    forall name | name in m
      ensures m[name].id in reverseNameMap && SplitItem(reverseNameMap[m[name].id]).0 == name
    {
      assert m[name].id == nameMap[name].id;
    }
  }

  /** As written, no signal ever finds its item: a forward key is a bus
      name and holds no '/', while the looked-up key ends in an object path,
      which starts with one. */
  lemma SignalKeyAsWrittenNeverFound(nameMap: map<string, IconStats>, reverseNameMap: map<u64, string>,
                                     sender: string, path: string)
    requires Linked(nameMap, reverseNameMap)
    requires ValidObjectPath(path)
    ensures SignalKeyAsWritten(sender, path) !in nameMap
  {
    var key := SignalKeyAsWritten(sender, path);
    assert key[|sender|] == '/';
  }

  /** As written, completing a Title or Status refresh whose flag is pending
      sets every bit of the mask, so every later signal of the item is
      dropped as already pending. */
  lemma TextCompletionAsWrittenBlocksAll(flag: IconType, state: bv8)
    requires state & flag.Flag() != 0
    ensures TextCompletionAsWritten(flag, state) == 0xFF
    ensures forall t: IconType :: TextCompletionAsWritten(flag, state) & t.Flag() != 0
  {
  }

  /** With the flag cleared instead, a completed refresh leaves the item
      open to the next signal of the same kind and to no other change. */
  lemma TextCompletionReopens(flag: IconType, state: bv8)
    ensures TextCompletion(flag, state) & flag.Flag() == 0
    ensures TextCompletion(flag, state) | flag.Flag() == state | flag.Flag()
  {
  }

  class Registry {
    var nameMap: map<string, IconStats>
    var reverseNameMap: map<u64, string>
    var lastId: u64
    var sent: seq<IconClientEvent>

    /** The forward map only names live ids, each pointing back at an item
        string whose bus name is the forward key; every id handed out so far
        is at most `lastId`. */
    ghost predicate Valid()
      reads this
    {
      && Linked(nameMap, reverseNameMap)
      && (forall id | id in reverseNameMap :: 1 <= id as int <= lastId as int)
    }

    constructor ()
      ensures Valid()
      ensures nameMap == map[] && reverseNameMap == map[] && lastId == 0 && sent == []
    {
      nameMap, reverseNameMap, lastId, sent := map[], map[], 0, [];
    }

    /** `go`: set up one registered item. */
    method Go(item: string, props: ItemProperties) returns (o: GoOutcome)
      requires Valid()
      modifies this
      ensures Valid()
      ensures o == GoDecision(item, props, old(lastId))
      ensures !o.Created? ==>
        nameMap == old(nameMap) && reverseNameMap == old(reverseNameMap) && lastId == old(lastId) && sent == old(sent)
      ensures o.Created? ==>
        && lastId == o.id && o.id !in old(reverseNameMap)
        && nameMap == old(nameMap)[SplitItem(item).0 := IconStats(o.id, 0)]
        && reverseNameMap == old(reverseNameMap)[o.id := item]
        && sent == old(sent) + CreationEvents(o.id, props.appId.value, props.category.value, props)
    {
      var (bus, path) := SplitItem(item);
      if !ValidBusName(bus) { return Failed(BadBusName); }
      if !ValidObjectPath(path) { return Failed(BadObjectPath); }
      if props.appId.Err? { return Failed(NoAppId(props.appId.error)); }
      var appId := props.appId.value;
      if StartsWith(appId, RELAYED_PREFIX) { return Skipped; }
      if props.category.Err? { return Failed(NoCategory(props.category.error)); }
      if lastId as int + 1 >= U64_LIMIT { return Failed(IdOverflow); }
      var id := lastId + 1;
      InsertKeepsLinked(nameMap, reverseNameMap, item, id);
      var events := CreationEvents(id, appId, props.category.value, props);
      lastId := id;
      nameMap := nameMap[bus := IconStats(id, 0)];
      reverseNameMap := reverseNameMap[id := item];
      sent := sent + events;
      o := Created(id);
    }

    /** `handle_name_lost`: a name that lost its owner takes its item with it. */
    method HandleNameLost(name: string, oldOwner: string, newOwner: string) returns (destroyed: Option<u64>)
      requires Valid()
      modifies this
      ensures Valid()
      ensures destroyed.Some? <==> oldOwner != "" && newOwner == "" && name in old(nameMap)
      ensures destroyed.None? ==> nameMap == old(nameMap) && reverseNameMap == old(reverseNameMap) && sent == old(sent)
      ensures destroyed.Some? ==>
        && destroyed.value == old(nameMap)[name].id
        && nameMap == old(nameMap) - {name}
        && reverseNameMap == old(reverseNameMap) - {destroyed.value}
        && sent == old(sent) + [IconClientEvent(destroyed.value, Destroy)]
      ensures lastId == old(lastId)
    {
      if oldOwner == "" || newOwner != "" { return None; }
      if name !in nameMap { return None; }
      var id := nameMap[name].id;
      nameMap := nameMap - {name};
      // "reverse and forward maps inconsistent" cannot fire: Valid() puts id in the reverse map.
      assert id in reverseNameMap;
      ghost var before := reverseNameMap;
      reverseNameMap := reverseNameMap - {id};
      forall n | n in nameMap
        ensures nameMap[n].id in reverseNameMap && SplitItem(reverseNameMap[nameMap[n].id]).0 == n
      {
        assert SplitItem(before[nameMap[n].id]).0 == n;
        assert nameMap[n].id != id;
      }
      sent := sent + [IconClientEvent(id, Destroy)];
      destroyed := Some(id);
    }

    /** The synchronous part of `handle_cb`: a signal for an unknown item, or
        for a flag already pending, is dropped; otherwise the flag is set.
        As written, no signal is ever accepted. */
    method BeginSignal(h: Handling, sender: string, path: string, flag: IconType) returns (accepted: bool)
      requires Valid()
      modifies this
      ensures Valid()
      ensures var key := LookupKey(h, sender, path);
        && (accepted <==> key in old(nameMap) && old(nameMap)[key].state & flag.Flag() == 0)
        && nameMap == (if accepted
                       then old(nameMap)[key := old(nameMap)[key].(state := old(nameMap)[key].state | flag.Flag())]
                       else old(nameMap))
      ensures h.AsWritten? && ValidObjectPath(path) ==> !accepted
      ensures reverseNameMap == old(reverseNameMap) && lastId == old(lastId) && sent == old(sent)
    {
      var key := LookupKey(h, sender, path);
      if h.AsWritten? && ValidObjectPath(path) {
        SignalKeyAsWrittenNeverFound(nameMap, reverseNameMap, sender, path);
      }
      if key in nameMap && nameMap[key].state & flag.Flag() == 0 {
        MaskUpdateKeepsLinked(nameMap, reverseNameMap, key, nameMap[key].state | flag.Flag());
        nameMap := nameMap[key := nameMap[key].(state := nameMap[key].state | flag.Flag())];
        accepted := true;
      } else {
        accepted := false;
      }
    }

    /** The start of the spawned refresh: the flag is set again if the item
        still exists. */
    method StartRefresh(h: Handling, sender: string, path: string, flag: IconType)
      requires Valid()
      modifies this
      ensures Valid()
      ensures var key := LookupKey(h, sender, path);
        nameMap == (if key in old(nameMap)
                    then old(nameMap)[key := old(nameMap)[key].(state := old(nameMap)[key].state | flag.Flag())]
                    else old(nameMap))
      ensures h.AsWritten? && ValidObjectPath(path) ==> nameMap == old(nameMap)
      ensures reverseNameMap == old(reverseNameMap) && lastId == old(lastId) && sent == old(sent)
    {
      var key := LookupKey(h, sender, path);
      if h.AsWritten? && ValidObjectPath(path) {
        SignalKeyAsWrittenNeverFound(nameMap, reverseNameMap, sender, path);
      }
      if key in nameMap {
        MaskUpdateKeepsLinked(nameMap, reverseNameMap, key, nameMap[key].state | flag.Flag());
        nameMap := nameMap[key := nameMap[key].(state := nameMap[key].state | flag.Flag())];
      }
    }

    /** The end of the spawned refresh, once the property read returned: the
        mask is updated and the new value sent, if the item still exists. An
        icon with a name but no pixmap sends nothing; one with neither is
        removed. An icon refresh clears its flag; a Title or Status refresh
        sets the mask as `h` says. */
    method FinishRefresh(h: Handling, sender: string, path: string, flag: IconType, fetched: Fetched)
      requires Valid() && FetchMatches(flag, fetched)
      modifies this
      ensures Valid()
      ensures reverseNameMap == old(reverseNameMap) && lastId == old(lastId)
      ensures var key := LookupKey(h, sender, path);
        && (key !in old(nameMap) ==> nameMap == old(nameMap) && sent == old(sent))
        && (key in old(nameMap) ==>
              var st := old(nameMap)[key];
              var id := st.id;
              && nameMap == old(nameMap)[key := st.(state := if fetched.IconFetched? then ClearFlag(flag, st.state)
                                                             else TextMask(h, flag, st.state))]
              && sent == old(sent) + match fetched {
                   case IconFetched(pixmaps, hasIconName) =>
                     if pixmaps.Ok? then [IconClientEvent(id, Icon(flag, ToIconDataAll(pixmaps.value)))]
                     else if hasIconName then []
                     else [IconClientEvent(id, RemoveIcon(flag))]
                   case TitleFetched(t) => [IconClientEvent(id, ClientEvent.Title(t))]
                   case StatusFetched(s) => [IconClientEvent(id, ClientEvent.Status(s))]
                 })
      ensures h.AsWritten? && ValidObjectPath(path) ==> nameMap == old(nameMap) && sent == old(sent)
    {
      var key := LookupKey(h, sender, path);
      if h.AsWritten? && ValidObjectPath(path) {
        SignalKeyAsWrittenNeverFound(nameMap, reverseNameMap, sender, path);
      }
      if key !in nameMap { return; }
      var st := nameMap[key];
      match fetched {
        case IconFetched(pixmaps, hasIconName) =>
          MaskUpdateKeepsLinked(nameMap, reverseNameMap, key, ClearFlag(flag, st.state));
          nameMap := nameMap[key := st.(state := ClearFlag(flag, st.state))];
          if pixmaps.Ok? {
            sent := sent + [IconClientEvent(st.id, Icon(flag, ToIconDataAll(pixmaps.value)))];
          } else if !hasIconName {
            sent := sent + [IconClientEvent(st.id, RemoveIcon(flag))];
          }
        case TitleFetched(t) =>
          MaskUpdateKeepsLinked(nameMap, reverseNameMap, key, TextMask(h, flag, st.state));
          nameMap := nameMap[key := st.(state := TextMask(h, flag, st.state))];
          sent := sent + [IconClientEvent(st.id, ClientEvent.Title(t))];
        case StatusFetched(s) =>
          MaskUpdateKeepsLinked(nameMap, reverseNameMap, key, TextMask(h, flag, st.state));
          nameMap := nameMap[key := st.(state := TextMask(h, flag, st.state))];
          sent := sent + [IconClientEvent(st.id, ClientEvent.Status(s))];
      }
    }

    /** The `reader` task: frames of user actions from the daemon, each
        forwarded to the item its id names; actions for unknown ids are
        dropped. Reading stops at the first bad frame or at the end of the
        stream, where the source panics. */
    method Reader(stream: seq<u8>, decode: seq<u8> -> Option<(IconServerEvent, nat)>)
      returns (calls: seq<ProxyCall>, stop: ReadError)
      ensures calls == RouteAll(reverseNameMap, ReadMessages(stream, decode).0)
      ensures stop == ReadMessages(stream, decode).1
    {
      var m := reverseNameMap;
      calls := [];
      var rest := stream;
      while true
        invariant calls + RouteAll(m, ReadMessages(rest, decode).0) == RouteAll(m, ReadMessages(stream, decode).0)
        invariant ReadMessages(rest, decode).1 == ReadMessages(stream, decode).1
        decreases |rest|
      {
        var next := ReadMessage(rest, decode);
        if next.Err? {
          stop := next.error;
          return;
        }
        var ev := next.value.0;
        ReaderStep(m, rest, decode);
        var call := Route(m, ev);
        ghost var tail := RouteAll(m, ReadMessages(next.value.1, decode).0);
        if call.Some? {
          AppendAssoc(calls, [call.value], tail);
          calls := calls + [call.value];
        } else {
          assert [] + tail == tail;
        }
        rest := next.value.1;
      }
    }
  }

  lemma AppendAssoc<T>(a: seq<T>, b: seq<T>, c: seq<T>)
    ensures a + b + c == a + (b + c)
  {
  }

  /** One frame of the reader's loop: the routed calls of a stream are the
      call for its first action, if any, followed by those of the rest. */
  lemma ReaderStep(m: map<u64, string>, stream: seq<u8>, decode: seq<u8> -> Option<(IconServerEvent, nat)>)
    requires ReadMessage(stream, decode).Ok?
    ensures var (ev, more) := ReadMessage(stream, decode).value;
      && RouteAll(m, ReadMessages(stream, decode).0)
         == (if ev.id in m then [Route(m, ev).value] else []) + RouteAll(m, ReadMessages(more, decode).0)
      && ReadMessages(stream, decode).1 == ReadMessages(more, decode).1
  {
    var (ev, more) := ReadMessage(stream, decode).value;
    RouteAllCons(m, ev, ReadMessages(more, decode).0);
  }

  lemma RouteAllCons(m: map<u64, string>, ev: IconServerEvent, evs: seq<IconServerEvent>)
    ensures RouteAll(m, [ev] + evs)
            == (if ev.id in m then [Route(m, ev).value] else []) + RouteAll(m, evs)
  {
    assert ([ev] + evs)[1..] == evs;
  }
}
