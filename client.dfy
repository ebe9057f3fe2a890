/** The host-side client (src/bin/client.rs): it reads IconClientEvents,
    exports one StatusNotifierItem object per accepted id under a bus name of
    its own, and routes each incoming method call to the item whose id the
    call's object path names. */
module Client {
  import opened Wrappers
  import opened Ints
  import opened Messages
  import opened DBusNames
  import opened Decimal
  import opened Border
  import opened ProxyCommon
  import opened AgentRegistry
  import opened ClientItem

  // ---------------------------------------------------------------------
  // Object paths and bus names

  /** `parse_dest`: the id in `d` between `prefix` and `suffix`, written in
      decimal without a leading zero and fitting in 64 bits. Lengths count
      bytes; object paths are ASCII, where bytes and characters agree. */
  function ParseDest(d: string, prefix: string, suffix: string): (r: Option<u64>)
    ensures r.Some? ==> r.value >= 1 && d == prefix + Dec(r.value as nat) + suffix
  {
    if |d| <= |prefix| + |suffix| then None    // too short
    else
      var suffixStart := |d| - |suffix|;
      var first, middle, rest := d[..|prefix|], d[|prefix|..suffixStart], d[suffixStart..];
      if first != prefix then None
      else if rest != suffix then None
      else if '1' <= middle[0] <= '9' then
        match ParseU64(middle)
        case None => None
        case Some(x) =>
          ValuePositive(middle);
          DecOfValue(middle);
          assert d == first + middle + rest;
          Some(x)
      else None
  }

  /** Printing an id between a prefix and a suffix and parsing it back gives
      the id; id 0, which prints with a leading zero, is never found. */
  lemma ParseDestOfPrinted(prefix: string, n: u64, suffix: string)
    ensures n >= 1 ==> ParseDest(prefix + Dec(n as nat) + suffix, prefix, suffix) == Some(n)
    ensures n == 0 ==> ParseDest(prefix + Dec(n as nat) + suffix, prefix, suffix).None?
  {
    var d := prefix + Dec(n as nat) + suffix;
    assert d[..|prefix|] == prefix;
    assert d[|prefix|..|d| - |suffix|] == Dec(n as nat);
    assert d[|d| - |suffix|..] == suffix;
    ValueOfDec(n as nat);
  }

  /** `parse_dest` finds `n` in exactly the strings that print it. */
  lemma ParseDestIff(d: string, prefix: string, suffix: string, n: u64)
    ensures ParseDest(d, prefix, suffix) == Some(n) <==> n >= 1 && d == prefix + Dec(n as nat) + suffix
  {
    if n >= 1 && d == prefix + Dec(n as nat) + suffix {
      ParseDestOfPrinted(prefix, n, suffix);
    }
  }

  /** The object path of item `id`, as registered with the object tree and
      as the signals of the item carry it. A method call on it selects the
      item; path "/0/..." selects none, since no id is 0. */
  function ObjectPath(id: u64): (r: string)
    ensures id >= 1 ==> PathId(r) == Some(id)
    ensures id == 0 ==> PathId(r).None?
  {
    ParseDestOfPrinted("/", id, ITEM_SUFFIX);
    "/" + Dec(id as nat) + ITEM_SUFFIX
  }

  /** It is the item's bus path without its terminating NUL, and a valid
      object path. */
  lemma ObjectPathIsBusPath(id: u64)
    ensures ObjectPath(id) == StripNul(BusPath(id)) && ValidObjectPath(ObjectPath(id))
  {
  }

  /** The id a method call's object path selects, if any. */
  function PathId(path: string): Option<u64> {
    ParseDest(path, "/", ITEM_SUFFIX)
  }

  const ITEM_NAME_PREFIX: string := "org.freedesktop.StatusNotifierItem-"

  /** The bus name the client requests for item `id` of process `pid`: a
      well-formed well-known bus name. */
  function ItemBusName(pid: u32, id: u64): (r: string)
    ensures ValidWellKnownBusName(r)
  {
    FixedWidthLengths(pid, id);
    var tail := Dec(pid as nat) + "-" + Dec(id as nat);
    NumberedNameValid(tail);
    assert ITEM_NAME_PREFIX + Dec(pid as nat) + "-" + Dec(id as nat) == ITEM_NAME_PREFIX + tail;
    ITEM_NAME_PREFIX + Dec(pid as nat) + "-" + Dec(id as nat)
  }

  /** The fixed prefix followed by a tail of digits and dashes that starts
      with a digit. */
  lemma NumberedNameValid(tail: string)
    requires 0 < |tail| <= 200 && IsDigit(tail[0])
    requires forall i | 0 <= i < |tail| :: IsDigit(tail[i]) || tail[i] == '-'
    ensures ValidWellKnownBusName(ITEM_NAME_PREFIX + tail)
  {
    NumberedNameChars(tail);
    NumberedNameElements(tail);
    assert (ITEM_NAME_PREFIX + tail)[3] == '.';
  }

  lemma NumberedNameChars(tail: string)
    requires forall i | 0 <= i < |tail| :: IsDigit(tail[i]) || tail[i] == '-'
    ensures AllBusChars(ITEM_NAME_PREFIX + tail)
  {
    var p := ITEM_NAME_PREFIX;
    assert forall i | 0 <= i < |p| :: IsBusElementChar(p[i]) || p[i] == '.';
    assert forall i | |p| <= i < |p + tail| :: (p + tail)[i] == tail[i - |p|];
  }

  /** The prefix's only dots are those after "org" and "freedesktop". */
  lemma PrefixDots()
    ensures forall i | 0 <= i < |ITEM_NAME_PREFIX| && ITEM_NAME_PREFIX[i] == '.' :: i == 3 || i == 15
  {
  }

  lemma NumberedNameElements(tail: string)
    requires 0 < |tail| && IsDigit(tail[0])
    requires forall i | 0 <= i < |tail| :: IsDigit(tail[i]) || tail[i] == '-'
    ensures NoEmptyElement(ITEM_NAME_PREFIX + tail, '.') && NoDigitAtElementStart(ITEM_NAME_PREFIX + tail)
  {
    var p := ITEM_NAME_PREFIX;
    var s := p + tail;
    PrefixDots();
    assert forall i | |p| <= i < |s| :: s[i] == tail[i - |p|];
    assert forall i | 0 <= i < |s| - 1 && s[i] == '.' :: i == 3 || i == 15;
    assert s[|s| - 1] == tail[|tail| - 1];
  }

  /** Distinct items of one process request distinct names. */
  lemma ItemBusNamesDistinct(pid: u32, a: u64, b: u64)
    requires ItemBusName(pid, a) == ItemBusName(pid, b)
    ensures a == b
  {
    var k := |ITEM_NAME_PREFIX + Dec(pid as nat) + "-"|;
    assert Dec(a as nat) == ItemBusName(pid, a)[k..];
    assert Dec(b as nat) == ItemBusName(pid, b)[k..];
    ValueOfDec(a as nat);
    ValueOfDec(b as nat);
  }

  /** The item string the client registers with the watcher, as written:
      the bus name, a slash and the id. A watcher splits it into the item's
      bus name and the path "/<id>", at which no item is found. */
  function RegisteredItemAsWritten(pid: u32, id: u64): (r: string)
    ensures SplitItem(r) == (ItemBusName(pid, id), "/" + Dec(id as nat))
    ensures PathId(SplitItem(r).1).None?
  {
    var path := "/" + Dec(id as nat);
    SlashAfterName(pid, id, path);
    DigitsPathSelectsNothing(Dec(id as nat));
    ItemBusName(pid, id) + path
  }

  /** The item string naming the object the client actually exports: a
      watcher splits it into the client's bus name and the path of the
      item's object, which selects the item. */
  function RegisteredItem(pid: u32, id: u64): (r: string)
    ensures SplitItem(r) == (ItemBusName(pid, id), ObjectPath(id))
    ensures id >= 1 ==> PathId(SplitItem(r).1) == Some(id)
  {
    SlashAfterName(pid, id, ObjectPath(id));
    ItemBusName(pid, id) + ObjectPath(id)
  }

  /** A slash followed by digits only never ends in the item suffix. */
  lemma DigitsPathSelectsNothing(d: string)
    requires AllDigits(d)
    ensures PathId("/" + d).None?
  {
    var path := "/" + d;
    if |path| > 1 + |ITEM_SUFFIX| {
      var k := |path| - |ITEM_SUFFIX|;
      assert path[k] == d[k - 1];
      assert path[k..][0] != ITEM_SUFFIX[0];
    }
  }

  lemma SlashAfterName(pid: u32, id: u64, path: string)
    requires |path| > 0 && path[0] == '/'
    ensures SplitItem(ItemBusName(pid, id) + path) == (ItemBusName(pid, id), path)
  {
    var n := ItemBusName(pid, id);
    var item := n + path;
    assert item[|n|] == '/';
    assert '/' !in n;
    assert forall i | 0 <= i < |n| :: item[i] == n[i];
  }

  // ---------------------------------------------------------------------
  // The event loop

  /** Why the client's event loop panics. */
  datatype Fatal =
    | IdNotIncreasing     // a Create whose id is not above the last one
    | NoSuchItem          // `unwrap` of the lookup of a non-Create event's id
    | BadIconType         // Icon or RemoveIcon naming Title or Status: the match has no arm for them
    | BadBitmap           // the border painting of a bitmap panics
    | MenuNotHandled      // EnableMenu: the match has no arm for it

  /** The client's observable state: the items by id, the exported objects
      by path (with whether each also carries the dbusmenu interface), the
      bus names it owns, the item strings it registered with the watcher,
      and the signals it emitted, each with the path it was emitted on. */
  datatype ClientView = ClientView(
    lastIndex: u64, items: map<u64, ItemView>, objects: map<string, bool>, names: set<string>,
    registered: seq<string>, signals: seq<(string, ItemSignal)>)

  const NO_FIELDS: ItemFields := ItemFields(None, None, None, None, None, None)

  /** `has_menu` becomes the item's (empty) menu. */
  function MenuOf(hasMenu: bool): Option<seq<DBusMenuEntry>> {
    if hasMenu then Some([]) else None
  }

  function Emit(path: string, sigs: seq<ItemSignal>): (r: seq<(string, ItemSignal)>)
    ensures |r| == |sigs| && forall k | 0 <= k < |r| :: r[k] == (path, sigs[k])
  {
    seq(|sigs|, k requires 0 <= k < |sigs| => (path, sigs[k]))
  }

  /** The bitmap list an item holds for `typ`; Title and Status have none. */
  function Slot(f: ItemFields, typ: IconType): Option<seq<IconData>> {
    match typ
    case Normal => f.icon
    case Attention => f.attentionIcon
    case Overlay => f.overlayIcon
    case Title => None
    case Status => None
  }

  /** A bitmap list stored in the slot for `typ`, with the signals the
      setter and then the event loop emit; Title and Status have no slot.
      Only the slot for `typ` changes, and one signal is emitted per
      emitter. */
  function StoreIcon(f: ItemFields, typ: IconType, v: Option<seq<IconData>>, loopSignals: bool)
    : (r: Result<(ItemFields, seq<ItemSignal>), Fatal>)
    ensures r.Ok? <==> typ != IconType.Title && typ != IconType.Status
    ensures r.Err? ==> r.error == BadIconType
    ensures r.Ok? ==> r.value.0.(icon := f.icon, attentionIcon := f.attentionIcon, overlayIcon := f.overlayIcon) == f
    ensures r.Ok? ==> Slot(r.value.0, typ) == v && forall t | t != typ :: Slot(r.value.0, t) == Slot(f, t)
    ensures r.Ok? ==> |r.value.1| == (if loopSignals then 2 else 1)
  {
    match typ
    case Normal => Ok((f.(icon := v), if loopSignals then [NewIcon, NewIcon] else [NewIcon]))
    case Attention =>
      Ok((f.(attentionIcon := v), if loopSignals then [NewAttentionIcon, NewAttentionIcon] else [NewAttentionIcon]))
    case Overlay =>
      Ok((f.(overlayIcon := v), if loopSignals then [NewOverlayIcon, NewOverlayIcon] else [NewOverlayIcon]))
    case Title => Err(BadIconType)
    case Status => Err(BadIconType)
  }

  /** The effect of a non-Create, non-Destroy event on an item's fields,
      with the signals emitted for it. Each event changes only its own
      field or slot: a new icon list is stored painted, a tooltip's bitmaps
      as received. */
  function UpdateFields(f: ItemFields, e: ClientEvent): (r: Result<(ItemFields, seq<ItemSignal>), Fatal>)
    requires !e.Create? && !e.Destroy?
    ensures r.Err? <==>
      || e.EnableMenu?
      || (e.Icon? && (e.typ == IconType.Title || e.typ == IconType.Status))
      || (e.RemoveIcon? && (e.removed == IconType.Title || e.removed == IconType.Status))
      || (e.Icon? && FramedIcons(e.data).None?)
    ensures r.Ok? && e.Title? ==> r.value.0.(title := f.title) == f && r.value.0.title == e.title
    ensures r.Ok? && e.Status? ==> r.value.0.(status := f.status) == f && r.value.0.status == e.status
    ensures r.Ok? && (e.Icon? || e.RemoveIcon?) ==>
      r.value.0.(icon := f.icon, attentionIcon := f.attentionIcon, overlayIcon := f.overlayIcon) == f
    ensures r.Ok? && e.Icon? ==>
      Slot(r.value.0, e.typ) == FramedIcons(e.data) && forall t | t != e.typ :: Slot(r.value.0, t) == Slot(f, t)
    ensures r.Ok? && e.RemoveIcon? ==>
      Slot(r.value.0, e.removed).None? && forall t | t != e.removed :: Slot(r.value.0, t) == Slot(f, t)
    ensures r.Ok? && (e.TooltipEvent? || e.RemoveTooltip?) ==> r.value.0.(tooltip := f.tooltip) == f
    ensures r.Ok? && e.TooltipEvent? ==> r.value.0.tooltip == Some(Tooltip(e.tipTitle, e.description, e.iconData))
    ensures r.Ok? && e.RemoveTooltip? ==> r.value.0.tooltip.None?
  {
    match e
    case Title(t) => Ok((f.(title := t), [NewTitle]))
    case Status(st) => Ok((f.(status := st), [NewStatus(if st.Some? then st.value else "normal")]))
    case Icon(typ, data) =>
      (match FramedIcons(data)
       case None => Err(BadBitmap)
       case Some(framed) => StoreIcon(f, typ, Some(framed), true))
    case RemoveIcon(typ) => StoreIcon(f, typ, None, false)
    case TooltipEvent(iconData, title, description) => Ok((f.(tooltip := Some(Tooltip(title, description, iconData))), [NewToolTip]))
    case RemoveTooltip => Ok((f.(tooltip := None), [NewToolTip]))
    case EnableMenu(_, _) => Err(MenuNotHandled)
  }

  /** The effect of one event on the client: the new state, or the panic.
      Only a Create moves the last index or registers anything; the
      registrations and the emitted signals only grow. */
  function ApplyEvent(s: ClientView, ev: IconClientEvent, pid: u32, sha256: string -> Digest): (r: Result<ClientView, Fatal>)
    ensures r.Ok? ==> s.lastIndex <= r.value.lastIndex && s.registered <= r.value.registered && s.signals <= r.value.signals
    ensures r.Ok? && !ev.event.Create? ==> r.value.lastIndex == s.lastIndex && r.value.registered == s.registered
  {
    var id := ev.id;
    if ev.event.Create? then
      match DecideCreate(s.lastIndex, id, ev.event.category)
      case NotIncreasing => Err(IdNotIncreasing)
      case EmptyCategory => Ok(s)
      case Accepted => Ok(AfterCreate(s, id, ev.event.category, ev.event.appId, ev.event.hasMenu, pid, sha256))
    else if id !in s.items then Err(NoSuchItem)
    else if ev.event.Destroy? then Ok(AfterDestroy(s, id, pid))
    else
      match UpdateFields(s.items[id].fields, ev.event)
      case Err(f) => Err(f)
      case Ok((fields, sigs)) => Ok(AfterUpdate(s, id, fields, sigs))
  }

  /** The state after item `id` is created with the exported app id
      `exported`: the item, its object, its bus name and the item string
      `registration` registered with the watcher. */
  function Created(s: ClientView, id: u64, category: string, exported: string, hasMenu: bool, pid: u32,
                   registration: string): ClientView
  {
    var item := ItemView(BusPath(id), category, exported, MenuOf(hasMenu), NO_FIELDS);
    ClientView(id, s.items[id := item], s.objects[ObjectPath(id) := hasMenu], s.names + {ItemBusName(pid, id)},
               s.registered + [registration], s.signals)
  }

  /** The Create arm as written: the app id goes behind the hyphenated
      prefix, so it is always replaced by its hash, and the registration
      names the path "/<id>", which selects no item. */
  function AfterCreate(s: ClientView, id: u64, category: string, appId: string, hasMenu: bool, pid: u32,
                       sha256: string -> Digest): (r: ClientView)
    ensures id in r.items && ObjectPath(id) in r.objects && ItemBusName(pid, id) in r.names
    ensures var n := ClientNamingAsWritten(); r.items[id].appId == n.hashed + Hex(sha256(n.plain + appId))
    ensures |r.registered| == |s.registered| + 1 && s.registered <= r.registered
    ensures var (bus, path) := SplitItem(r.registered[|s.registered|]); bus == ItemBusName(pid, id) && PathId(path).None?
  {
    ClientAlwaysHashes(appId, sha256);
    Created(s, id, category, ExportedAppId(ClientNamingAsWritten(), appId, sha256), hasMenu, pid,
            RegisteredItemAsWritten(pid, id))
  }

  /** The Create arm corrected: the daemon's underscore prefixes, under
      which an app id is exported sanitised, and the registration of the
      exported object's own path, which selects the new item. */
  function AfterCreateCorrected(s: ClientView, id: u64, category: string, appId: string, hasMenu: bool, pid: u32,
                                sha256: string -> Digest): (r: ClientView)
    ensures id in r.items && ObjectPath(id) in r.objects && ItemBusName(pid, id) in r.names
    ensures |r.items[id].appId| <= MAX_NAME_LENGTH && AllElementChars(r.items[id].appId, '.')
    ensures |r.registered| == |s.registered| + 1 && s.registered <= r.registered
    ensures var (bus, path) := SplitItem(r.registered[|s.registered|]);
      bus == ItemBusName(pid, id) && path == ObjectPath(id) && (id >= 1 ==> PathId(path) == Some(id))
  {
    DaemonAppIdSanitized(appId, sha256);
    Created(s, id, category, ExportedAppId(DaemonNaming(), appId, sha256), hasMenu, pid, RegisteredItem(pid, id))
  }

  /** The state after item `id` is destroyed: its bus name released, its
      object removed and the item dropped. */
  function AfterDestroy(s: ClientView, id: u64, pid: u32): ClientView {
    s.(items := s.items - {id}, objects := s.objects - {ObjectPath(id)}, names := s.names - {ItemBusName(pid, id)})
  }

  /** The state after item `id`'s fields change, with the signals that
      announce it emitted on its object path. */
  function AfterUpdate(s: ClientView, id: u64, fields: ItemFields, sigs: seq<ItemSignal>): ClientView
    requires id in s.items
  {
    s.(items := s.items[id := s.items[id].(fields := fields)], signals := s.signals + Emit(ObjectPath(id), sigs))
  }

  /** The events applied in order: the final state, or the first panic.
      The last index never goes down, and registrations and signals are
      only ever appended. */
  function Replay(s: ClientView, evs: seq<IconClientEvent>, pid: u32, sha256: string -> Digest): (r: Result<ClientView, Fatal>)
    ensures r.Ok? ==> s.lastIndex <= r.value.lastIndex && s.registered <= r.value.registered && s.signals <= r.value.signals
    decreases |evs|
  {
    if evs == [] then Ok(s)
    else
      match ApplyEvent(s, evs[0], pid, sha256)
      case Err(f) => Err(f)
      case Ok(t) => Replay(t, evs[1..], pid, sha256)
  }

  predicate FieldsFramed(f: ItemFields) {
    AllFramed(f.icon) && AllFramed(f.attentionIcon) && AllFramed(f.overlayIcon)
  }

  // The parts of a consistent state, each about the components it
  // involves.

  /** Every item id is in (0, lastIndex]. */
  predicate IdsBelow(items: map<u64, ItemView>, lastIndex: u64) {
    forall id | id in items :: 0 < id <= lastIndex
  }

  /** Every item has an exported object, carrying the dbusmenu interface
      exactly when the item has a menu. */
  predicate ObjectsOfItems(items: map<u64, ItemView>, objects: map<string, bool>) {
    forall id | id in items :: ObjectPath(id) in objects && objects[ObjectPath(id)] == items[id].hasMenu.Some?
  }

  /** Every exported object selects a live item. */
  predicate ObjectsLive(objects: map<string, bool>, items: map<u64, ItemView>) {
    forall p | p in objects :: PathId(p).Some? && PathId(p).value in items
  }

  /** Every item's bus name is owned. */
  predicate NamesOfItems(items: map<u64, ItemView>, names: set<string>, pid: u32) {
    forall id | id in items :: ItemBusName(pid, id) in names
  }

  /** Every icon, attention and overlay bitmap carries the frame; tooltip
      bitmaps are stored as received. */
  predicate ItemsFramed(items: map<u64, ItemView>) {
    forall id | id in items :: FieldsFramed(items[id].fields)
  }

  predicate Consistent(s: ClientView, pid: u32) {
    && IdsBelow(s.items, s.lastIndex)
    && ObjectsOfItems(s.items, s.objects)
    && ObjectsLive(s.objects, s.items)
    && NamesOfItems(s.items, s.names, pid)
    && ItemsFramed(s.items)
  }

  /** Distinct ids have distinct object paths. */
  lemma ObjectPathsDistinct(a: u64, b: u64)
    requires a != b
    ensures ObjectPath(a) != ObjectPath(b)
  {
  }

  lemma ObjectsOfItemsAdd(items: map<u64, ItemView>, objects: map<string, bool>, id: u64, item: ItemView)
    requires ObjectsOfItems(items, objects) && id !in items
    ensures ObjectsOfItems(items[id := item], objects[ObjectPath(id) := item.hasMenu.Some?])
  {
    forall k | k in items ensures ObjectPath(k) != ObjectPath(id) {
      ObjectPathsDistinct(k, id);
    }
  }

  lemma ObjectsOfItemsRemove(items: map<u64, ItemView>, objects: map<string, bool>, id: u64)
    requires ObjectsOfItems(items, objects)
    ensures ObjectsOfItems(items - {id}, objects - {ObjectPath(id)})
  {
    forall k | k in items && k != id ensures ObjectPath(k) != ObjectPath(id) {
      ObjectPathsDistinct(k, id);
    }
  }

  lemma ObjectsLiveAdd(objects: map<string, bool>, items: map<u64, ItemView>, id: u64, item: ItemView, menu: bool)
    requires ObjectsLive(objects, items) && id >= 1
    ensures ObjectsLive(objects[ObjectPath(id) := menu], items[id := item])
  {
  }

  lemma ObjectsLiveRemove(objects: map<string, bool>, items: map<u64, ItemView>, id: u64)
    requires ObjectsLive(objects, items)
    ensures ObjectsLive(objects - {ObjectPath(id)}, items - {id})
  {
    forall p | p in objects && p != ObjectPath(id) ensures PathId(p).value != id {
    }
  }

  lemma NamesOfItemsRemove(items: map<u64, ItemView>, names: set<string>, pid: u32, id: u64)
    requires NamesOfItems(items, names, pid)
    ensures NamesOfItems(items - {id}, names - {ItemBusName(pid, id)}, pid)
  {
    forall k | k in items && k != id ensures ItemBusName(pid, k) != ItemBusName(pid, id) {
      if ItemBusName(pid, k) == ItemBusName(pid, id) {
        ItemBusNamesDistinct(pid, k, id);
      }
    }
  }

  lemma IdsBelowAdd(items: map<u64, ItemView>, lastIndex: u64, id: u64, item: ItemView)
    requires IdsBelow(items, lastIndex) && lastIndex < id
    ensures IdsBelow(items[id := item], id)
  {
  }

  lemma NamesOfItemsAdd(items: map<u64, ItemView>, names: set<string>, pid: u32, id: u64, item: ItemView)
    requires NamesOfItems(items, names, pid)
    ensures NamesOfItems(items[id := item], names + {ItemBusName(pid, id)}, pid)
  {
  }

  lemma ItemsFramedPut(items: map<u64, ItemView>, id: u64, item: ItemView)
    requires ItemsFramed(items) && FieldsFramed(item.fields)
    ensures ItemsFramed(items[id := item])
  {
  }

  /** A Create keeps the client consistent whatever app id it exports and
      whatever item string it registers. */
  lemma CreateKeepsConsistent(s: ClientView, id: u64, category: string, exported: string, hasMenu: bool, pid: u32,
                              registration: string)
    requires Consistent(s, pid) && DecideCreate(s.lastIndex, id, category) == Accepted
    ensures Consistent(Created(s, id, category, exported, hasMenu, pid, registration), pid)
  {
    var t := Created(s, id, category, exported, hasMenu, pid, registration);
    var item := t.items[id];
    assert id !in s.items;
    IdsBelowAdd(s.items, s.lastIndex, id, item);
    ObjectsOfItemsAdd(s.items, s.objects, id, item);
    ObjectsLiveAdd(s.objects, s.items, id, item, hasMenu);
    NamesOfItemsAdd(s.items, s.names, pid, id, item);
    ItemsFramedPut(s.items, id, item);
  }

  lemma DestroyKeepsConsistent(s: ClientView, id: u64, pid: u32)
    requires Consistent(s, pid)
    ensures Consistent(AfterDestroy(s, id, pid), pid)
  {
    ObjectsOfItemsRemove(s.items, s.objects, id);
    ObjectsLiveRemove(s.objects, s.items, id);
    NamesOfItemsRemove(s.items, s.names, pid, id);
  }

  /** Updating the fields keeps the frame on every icon, attention and
      overlay bitmap: new icon lists are painted before they are stored. */
  lemma UpdateFieldsKeepsFrames(f: ItemFields, e: ClientEvent)
    requires !e.Create? && !e.Destroy?
    requires FieldsFramed(f) && UpdateFields(f, e).Ok?
    ensures FieldsFramed(UpdateFields(f, e).value.0)
  {
    if e.Icon? {
      FramedIconsHaveFrame(e.data);
    }
  }

  lemma IdsBelowReplace(items: map<u64, ItemView>, lastIndex: u64, id: u64, item: ItemView)
    requires IdsBelow(items, lastIndex) && id in items
    ensures IdsBelow(items[id := item], lastIndex)
  {
  }

  lemma ObjectsOfItemsReplace(items: map<u64, ItemView>, objects: map<string, bool>, id: u64, item: ItemView)
    requires ObjectsOfItems(items, objects) && id in items && item.hasMenu == items[id].hasMenu
    ensures ObjectsOfItems(items[id := item], objects)
  {
  }

  lemma ObjectsLiveReplace(objects: map<string, bool>, items: map<u64, ItemView>, id: u64, item: ItemView)
    requires ObjectsLive(objects, items) && id in items
    ensures ObjectsLive(objects, items[id := item])
  {
  }

  lemma NamesOfItemsReplace(items: map<u64, ItemView>, names: set<string>, pid: u32, id: u64, item: ItemView)
    requires NamesOfItems(items, names, pid) && id in items
    ensures NamesOfItems(items[id := item], names, pid)
  {
  }

  lemma UpdateKeepsConsistent(s: ClientView, id: u64, fields: ItemFields, sigs: seq<ItemSignal>, pid: u32)
    requires Consistent(s, pid) && id in s.items && FieldsFramed(fields)
    ensures Consistent(AfterUpdate(s, id, fields, sigs), pid)
  {
    var item := s.items[id].(fields := fields);
    IdsBelowReplace(s.items, s.lastIndex, id, item);
    ObjectsOfItemsReplace(s.items, s.objects, id, item);
    ObjectsLiveReplace(s.objects, s.items, id, item);
    NamesOfItemsReplace(s.items, s.names, pid, id, item);
    ItemsFramedPut(s.items, id, item);
  }

  /** Every event that does not panic keeps the client consistent. */
  lemma ApplyKeepsConsistent(s: ClientView, ev: IconClientEvent, pid: u32, sha256: string -> Digest)
    requires Consistent(s, pid)
    requires ApplyEvent(s, ev, pid, sha256).Ok?
    ensures Consistent(ApplyEvent(s, ev, pid, sha256).value, pid)
  {
    var id := ev.id;
    if ev.event.Create? {
      if DecideCreate(s.lastIndex, id, ev.event.category) == Accepted {
        CreateKeepsConsistent(s, id, ev.event.category, ExportedAppId(ClientNamingAsWritten(), ev.event.appId, sha256),
                              ev.event.hasMenu, pid, RegisteredItemAsWritten(pid, id));
      }
    } else if ev.event.Destroy? {
      DestroyKeepsConsistent(s, id, pid);
    } else {
      var (fields, sigs) := UpdateFields(s.items[id].fields, ev.event).value;
      UpdateFieldsKeepsFrames(s.items[id].fields, ev.event);
      UpdateKeepsConsistent(s, id, fields, sigs, pid);
    }
  }

  /** Each event changes at most the item it names. */
  lemma ApplyTouchesOnlyItsItem(s: ClientView, ev: IconClientEvent, pid: u32, sha256: string -> Digest)
    requires ApplyEvent(s, ev, pid, sha256).Ok?
    ensures var t := ApplyEvent(s, ev, pid, sha256).value;
      forall id | id != ev.id :: (id in t.items <==> id in s.items) && (id in s.items ==> t.items[id] == s.items[id])
  {
  }

  /** An accepted Create exports the item under its own path and bus name,
      with its app id hashed behind the hyphenated prefix, and registers an
      item string whose path is no exported object, so a watcher reaching
      for it finds nothing. */
  lemma CreateExportsItem(s: ClientView, id: u64, category: string, appId: string, hasMenu: bool,
                          pid: u32, sha256: string -> Digest)
    requires Consistent(s, pid) && s.lastIndex < id && category != ""
    ensures var t := ApplyEvent(s, IconClientEvent(id, Create(category, appId, hasMenu)), pid, sha256);
      && t.Ok? && id in t.value.items && t.value.lastIndex == id
      && t.value.items[id].appId == ClientNamingAsWritten().hashed + Hex(sha256(ClientNamingAsWritten().plain + appId))
      && t.value.items[id].hasMenu.Some? == hasMenu
      && ObjectPath(id) in t.value.objects && ItemBusName(pid, id) in t.value.names
      && t.value.registered == s.registered + [RegisteredItemAsWritten(pid, id)]
      && SplitItem(RegisteredItemAsWritten(pid, id)).1 !in t.value.objects
  {
    var t := ApplyEvent(s, IconClientEvent(id, Create(category, appId, hasMenu)), pid, sha256).value;
    ApplyKeepsConsistent(s, IconClientEvent(id, Create(category, appId, hasMenu)), pid, sha256);
    AsWrittenRegistrationNamesNoObject(t, pid, id);
  }

  /** With the Create arm corrected, the new state stays consistent and the
      registered item string leads a watcher to an exported object owned
      by the client, whose path selects the new item. */
  lemma CorrectedCreateReachesItem(s: ClientView, id: u64, category: string, appId: string, hasMenu: bool,
                                   pid: u32, sha256: string -> Digest)
    requires Consistent(s, pid) && DecideCreate(s.lastIndex, id, category) == Accepted
    ensures var t := AfterCreateCorrected(s, id, category, appId, hasMenu, pid, sha256);
      && Consistent(t, pid)
      && var (bus, path) := SplitItem(t.registered[|t.registered| - 1]);
         bus in t.names && path in t.objects && PathId(path) == Some(id) && id in t.items
  {
    CreateKeepsConsistent(s, id, category, ExportedAppId(DaemonNaming(), appId, sha256), hasMenu, pid,
                          RegisteredItem(pid, id));
  }

  /** A destroyed item is gone with its object and bus name; a later event
      for it panics. */
  lemma DestroyRemovesItem(s: ClientView, id: u64, ev: ClientEvent, pid: u32, sha256: string -> Digest)
    requires id in s.items && !ev.Create?
    ensures var t := ApplyEvent(s, IconClientEvent(id, Destroy), pid, sha256);
      && t.Ok? && id !in t.value.items && ObjectPath(id) !in t.value.objects && ItemBusName(pid, id) !in t.value.names
      && ApplyEvent(t.value, IconClientEvent(id, ev), pid, sha256) == Err(NoSuchItem)
  {
  }

  /** In a consistent state, the path the as-written registration names
      is no exported object. */
  lemma AsWrittenRegistrationNamesNoObject(s: ClientView, pid: u32, id: u64)
    requires Consistent(s, pid)
    ensures SplitItem(RegisteredItemAsWritten(pid, id)).1 !in s.objects
  {
    var path := SplitItem(RegisteredItemAsWritten(pid, id)).1;
    assert PathId(path).None?;
  }

  lemma {:induction false} ReplayKeepsConsistent(s: ClientView, evs: seq<IconClientEvent>, pid: u32, sha256: string -> Digest)
    requires Consistent(s, pid)
    requires Replay(s, evs, pid, sha256).Ok?
    ensures Consistent(Replay(s, evs, pid, sha256).value, pid)
    decreases |evs|
  {
    if evs != [] {
      ApplyKeepsConsistent(s, evs[0], pid, sha256);
      ReplayKeepsConsistent(ApplyEvent(s, evs[0], pid, sha256).value, evs[1..], pid, sha256);
    }
  }

  // ---------------------------------------------------------------------
  // The event loop as the client runs it

  /** The events `main` decodes from standard input and hands to the loop,
      in order, up to the first value that does not decode. Each call of
      `decode` reports how many bytes it consumed. */
  function StreamEvents(stream: seq<u8>, decode: seq<u8> -> Option<(IconClientEvent, nat)>): (r: seq<IconClientEvent>)
    ensures |r| <= |stream|
    decreases |stream|
  {
    match decode(stream)
    case None => []
    case Some((ev, n)) => if 0 < n <= |stream| then [ev] + StreamEvents(stream[n..], decode) else []
  }

  /** What each record holds, by id. */
  function RecordViews(items: map<u64, NotifierIcon>): (r: map<u64, ItemView>)
    reads items.Values
    ensures r.Keys == items.Keys
  {
    map k | k in items :: items[k].View()
  }

  /** `client_server`: the records by id, the id of the last method call,
      and what the loop has exported, owned, registered and emitted. */
  class ClientServer {
    const pid: u32
    var lastIndex: u64
    var items: map<u64, NotifierIcon>
    var current: u64
    var objects: map<string, bool>
    var names: set<string>
    var registered: seq<string>
    var signals: seq<(string, ItemSignal)>

    function View(): ClientView
      reads this`lastIndex, this`items, this`objects, this`names, this`registered, this`signals, items.Values
    {
      ClientView(lastIndex, RecordViews(items), objects, names, registered, signals)
    }

    /** Every record sits under its own id, so distinct ids hold distinct
        records. */
    ghost predicate Valid()
      reads this
    {
      forall k | k in items :: items[k].id == k
    }

    constructor (pid: u32)
      ensures Valid()
      ensures this.pid == pid && current == 0
      ensures View() == ClientView(0, map[], map[], {}, [], [])
    {
      this.pid := pid;
      lastIndex, items, current := 0, map[], 0;
      objects, names, registered, signals := map[], {}, [], [];
    }

    /** The method-call callback: a call on an item's object path selects
        that item for the handlers; any other path leaves the selection. */
    method HandleMethodCall(path: string)
      modifies this
      ensures PathId(path).Some? ==> current == PathId(path).value
      ensures PathId(path).None? ==> current == old(current)
      ensures View() == old(View()) && items == old(items)
    {
      var id := PathId(path);
      if id.Some? {
        current := id.value;
      }
    }

    /** One event of the loop. The new state is the one `ApplyEvent`
        describes; a fatal event ends the client. */
    method HandleEvent(ev: IconClientEvent, sha256: string -> Digest) returns (fatal: Option<Fatal>)
      requires Valid()
      modifies this, items.Values
      ensures Valid()
      ensures fatal.None? <==> ApplyEvent(old(View()), ev, pid, sha256).Ok?
      ensures fatal.None? ==> View() == ApplyEvent(old(View()), ev, pid, sha256).value
      ensures fatal.Some? ==> ApplyEvent(old(View()), ev, pid, sha256) == Err(fatal.value)
      ensures forall k | k in items :: (k in old(items) && items[k] == old(items)[k]) || fresh(items[k])
    {
      var id := ev.id;
      if ev.event.Create? {
        var d := DecideCreate(lastIndex, id, ev.event.category);
        if d == NotIncreasing {
          return Some(IdNotIncreasing);
        }
        if d == EmptyCategory {
          return None;
        }
        CreateItem(id, ev.event.category, ev.event.appId, ev.event.hasMenu, sha256);
        return None;
      }
      if id !in items {
        return Some(NoSuchItem);
      }
      if ev.event.Destroy? {
        DestroyItem(id);
        return None;
      }
      fatal := UpdateItem(id, ev.event);
    }

    /** The Create arm once the id is accepted, as written: request the bus
        name, make the record under the hashed app id, export its object and
        register "<name>/<id>" with the watcher. */
    method CreateItem(id: u64, category: string, appId: string, hasMenu: bool, sha256: string -> Digest)
      requires Valid()
      modifies this
      ensures Valid()
      ensures View() == AfterCreate(old(View()), id, category, appId, hasMenu, pid, sha256)
      ensures id in items && items == old(items)[id := items[id]] && fresh(items[id])
    {
      AddRecord(id, ExportedAppId(ClientNamingAsWritten(), appId, sha256), category, MenuOf(hasMenu));
      Publish(id, hasMenu, RegisteredItemAsWritten(pid, id));
    }

    /** `NotifierIcon::new` and the insertion of the record under its id. */
    method AddRecord(id: u64, appId: string, category: string, menu: Option<seq<DBusMenuEntry>>)
      requires Valid()
      modifies this
      ensures Valid() && id in items && items == old(items)[id := items[id]] && fresh(items[id])
      ensures RecordViews(items) == old(RecordViews(items))[id := ItemView(BusPath(id), category, appId, menu, NO_FIELDS)]
      ensures lastIndex == old(lastIndex) && objects == old(objects) && names == old(names)
      ensures registered == old(registered) && signals == old(signals)
    {
      var icon := new NotifierIcon(id, appId, category, menu);
      PutRecord(id, icon);
    }

    /** Store a record under its id. */
    method PutRecord(id: u64, icon: NotifierIcon)
      requires Valid() && icon.id == id
      modifies this
      ensures Valid() && items == old(items)[id := icon]
      ensures RecordViews(items) == old(RecordViews(items))[id := icon.View()]
      ensures lastIndex == old(lastIndex) && objects == old(objects) && names == old(names)
      ensures registered == old(registered) && signals == old(signals)
    {
      items := items[id := icon];
    }

    /** Take the bus name of item `id`, export its object and register the
        item string `registration` with the watcher. */
    method Publish(id: u64, hasMenu: bool, registration: string)
      modifies this
      ensures lastIndex == id && names == old(names) + {ItemBusName(pid, id)}
      ensures objects == old(objects)[ObjectPath(id) := hasMenu]
      ensures registered == old(registered) + [registration]
      ensures items == old(items) && signals == old(signals)
      ensures RecordViews(items) == old(RecordViews(items))
    {
      lastIndex, names, objects, registered :=
        id, names + {ItemBusName(pid, id)}, objects[ObjectPath(id) := hasMenu], registered + [registration];
    }

    /** The Destroy arm: release the bus name, remove the object, drop the
        record. */
    method DestroyItem(id: u64)
      requires Valid() && id in items
      modifies this
      ensures Valid()
      ensures View() == AfterDestroy(old(View()), id, pid)
      ensures items == old(items) - {id}
    {
      ghost var before := RecordViews(items);
      Withdraw(id);
      assert RecordViews(items) == before - {id};
    }

    /** Release the bus name of item `id`, remove its object and its record. */
    method Withdraw(id: u64)
      modifies this
      ensures names == old(names) - {ItemBusName(pid, id)} && objects == old(objects) - {ObjectPath(id)}
      ensures items == old(items) - {id}
      ensures lastIndex == old(lastIndex) && registered == old(registered) && signals == old(signals)
    {
      names, objects, items := names - {ItemBusName(pid, id)}, objects - {ObjectPath(id)}, items - {id};
    }

    /** Every other arm: update the record through its setters and emit
        the signals on its object path. */
    method UpdateItem(id: u64, e: ClientEvent) returns (fatal: Option<Fatal>)
      requires Valid() && id in items && !e.Create? && !e.Destroy?
      modifies this, items[id]
      ensures Valid() && items == old(items)
      ensures match UpdateFields(old(View()).items[id].fields, e)
        case Err(f) => fatal == Some(f)
        case Ok((fields, sigs)) => fatal.None? && View() == AfterUpdate(old(View()), id, fields, sigs)
    {
      var r := UpdateRecord(id, e);
      if r.Err? {
        return Some(r.error);
      }
      EmitSignals(ObjectPath(id), r.value);
      fatal := None;
    }

    /** Run the setters of the record of `id` for `e`. */
    method UpdateRecord(id: u64, e: ClientEvent) returns (r: Result<seq<ItemSignal>, Fatal>)
      requires Valid() && id in items && !e.Create? && !e.Destroy?
      modifies items[id]
      ensures match UpdateFields(old(items[id].Fields()), e)
        case Err(f) => r == Err(f)
        case Ok((fields, sigs)) =>
          r == Ok(sigs) && RecordViews(items) == old(RecordViews(items))[id := old(items[id].View()).(fields := fields)]
    {
      ghost var before := RecordViews(items);
      var icon := items[id];
      r := ApplyToIcon(icon, e);
      if r.Ok? {
        assert forall k | k in items && k != id :: items[k] != icon;
        assert RecordViews(items) == before[id := before[id].(fields := icon.Fields())];
      }
    }

    /** Emit `sigs` on the object at `path`. */
    method EmitSignals(path: string, sigs: seq<ItemSignal>)
      modifies this
      ensures signals == old(signals) + Emit(path, sigs)
      ensures lastIndex == old(lastIndex) && items == old(items) && objects == old(objects)
      ensures RecordViews(items) == old(RecordViews(items))
      ensures names == old(names) && registered == old(registered)
    {
      signals := signals + Emit(path, sigs);
    }

    /** The loop over the events `main` decodes: every event is applied in
        order until one is fatal. */
    method Run(stream: seq<u8>, decode: seq<u8> -> Option<(IconClientEvent, nat)>, sha256: string -> Digest)
      returns (fatal: Option<Fatal>)
      requires Valid()
      modifies this, items.Values
      ensures Valid()
      ensures match Replay(old(View()), StreamEvents(stream, decode), pid, sha256)
        case Ok(t) => View() == t && fatal.None?
        case Err(f) => fatal == Some(f)
    {
      ghost var start := View();
      var rest := stream;
      while true
        invariant Valid()
        invariant forall k | k in items :: items[k] in old(items.Values) || fresh(items[k])
        invariant Replay(start, StreamEvents(stream, decode), pid, sha256)
                  == Replay(View(), StreamEvents(rest, decode), pid, sha256)
        decreases |rest|
      {
        var next := decode(rest);
        if next.None? || !(0 < next.value.1 <= |rest|) {
          return None;
        }
        var (ev, n) := next.value;
        assert StreamEvents(rest, decode) == [ev] + StreamEvents(rest[n..], decode);
        assert StreamEvents(rest, decode)[1..] == StreamEvents(rest[n..], decode);
        fatal := HandleEvent(ev, sha256);
        if fatal.Some? {
          return;
        }
        rest := rest[n..];
      }
    }
  }

  /** The setter calls of the loop's update arms on one record, with the
      signals emitted: a new bitmap list is announced by the setter and
      again by the loop. */
  method ApplyToIcon(icon: NotifierIcon, e: ClientEvent) returns (r: Result<seq<ItemSignal>, Fatal>)
    requires !e.Create? && !e.Destroy?
    modifies icon
    ensures match UpdateFields(old(icon.Fields()), e)
      case Err(f) => r == Err(f)
      case Ok((fields, sigs)) => r == Ok(sigs) && icon.Fields() == fields
  {
    match e {
      case Title(t) =>
        var sig := icon.SetTitle(t);
        r := Ok([sig]);
      case Status(st) =>
        var sig := icon.SetStatus(st);
        r := Ok([sig]);
      case Icon(typ, data) =>
        var framed := FrameIcons(data);
        if framed.None? {
          return Err(BadBitmap);
        }
        if typ == IconType.Title || typ == IconType.Status {
          return Err(BadIconType);
        }
        var sig := SetSlot(icon, typ, framed);
        r := Ok([sig, sig]);
      case RemoveIcon(typ) =>
        if typ == IconType.Title || typ == IconType.Status {
          return Err(BadIconType);
        }
        var sig := SetSlot(icon, typ, None);
        r := Ok([sig]);
      case TooltipEvent(iconData, title, description) =>
        var sig := icon.SetTooltip(Some(Tooltip(title, description, iconData)));
        r := Ok([sig]);
      case RemoveTooltip =>
        var sig := icon.SetTooltip(None);
        r := Ok([sig]);
      case EnableMenu(_, _) =>
        r := Err(MenuNotHandled);
    }
  }

  /** The icon-slot setters of an item, one per stored icon type. */
  method SetSlot(icon: NotifierIcon, typ: IconType, v: Option<seq<IconData>>) returns (signal: ItemSignal)
    requires typ != IconType.Title && typ != IconType.Status
    modifies icon
    ensures StoreIcon(old(icon.Fields()), typ, v, false) == Ok((icon.Fields(), [signal]))
  {
    match typ {
      case Normal => signal := icon.SetIcon(v);
      case Attention => signal := icon.SetAttentionIcon(v);
      case Overlay => signal := icon.SetOverlayIcon(v);
    }
  }
}
