/** The tray item the host-side client exports for each relayed icon
    (src/bin/client/item.rs): a `NotifierIcon` record per id, set by the
    client's event loop and read by the StatusNotifierItem and dbusmenu
    method handlers, which find their record through the id of the object
    path the call was addressed to. */
module ClientItem {
  import opened Wrappers
  import opened Ints
  import opened Messages
  import opened DBusNames
  import opened Decimal
  import opened AgentRegistry

  const ITEM_SUFFIX: string := "/StatusNotifierItem"

  /** `bus_path`: the object path of item `id`, NUL-terminated. */
  function BusPath(id: u64): (r: string)
    ensures NulTerminated(r) && ValidObjectPath(StripNul(r))
    ensures StripNul(r) == "/" + Dec(id as nat) + ITEM_SUFFIX
  {
    var s := "/" + Dec(id as nat) + ITEM_SUFFIX;
    BusPathValid(Dec(id as nat));
    WithNul(s);
    s + "\0"
  }

  /** A slash, the decimal id and the item suffix form an object path with
      no NUL. */
  lemma BusPathValid(d: string)
    requires |d| > 0 && AllDigits(d)
    ensures ValidObjectPath("/" + d + ITEM_SUFFIX)
    ensures forall i | 0 <= i < |"/" + d + ITEM_SUFFIX| :: ("/" + d + ITEM_SUFFIX)[i] != '\0'
  {
    ItemPathValid();
    assert PathElement(d);
    SlashJoin(d, ITEM_SUFFIX);
  }

  /** The signals an item emits when one of its properties changes. */
  datatype ItemSignal =
    | NewTitle
    | NewToolTip
    | NewStatus(status: string)
    | NewIcon
    | NewAttentionIcon
    | NewOverlayIcon

  /** The mutable part of an item. */
  datatype ItemFields = ItemFields(
    tooltip: Option<Tooltip>, title: Option<string>, status: Option<string>,
    icon: Option<seq<IconData>>, attentionIcon: Option<seq<IconData>>, overlayIcon: Option<seq<IconData>>)

  /** Everything an item holds. */
  datatype ItemView = ItemView(
    path: string, category: string, appId: string, hasMenu: Option<seq<DBusMenuEntry>>, fields: ItemFields)

  /** A D-Bus method error. */
  datatype MethodError =
    | ServiceUnknown                 // org.freedesktop.DBus.Error.ServiceUnknown, "Icon does not exist"
    | NoProperty(property: string)
    | MethodFailed(message: string)

  /** A property value of a menu entry; the item never produces one. */
  datatype PropertyValue = PropertyValue(text: string)

  class NotifierIcon {
    const id: u64
    const path: string
    const category: string
    const appId: string
    const hasMenu: Option<seq<DBusMenuEntry>>
    var tooltip: Option<Tooltip>
    var title: Option<string>
    var status: Option<string>
    var icon: Option<seq<IconData>>
    var attentionIcon: Option<seq<IconData>>
    var overlayIcon: Option<seq<IconData>>

    function Fields(): ItemFields
      reads this
    {
      ItemFields(tooltip, title, status, icon, attentionIcon, overlayIcon)
    }

    function View(): ItemView
      reads this
    {
      ItemView(path, category, appId, hasMenu, Fields())
    }

    /** `new`: nothing set yet, and the object path derived from the id. */
    constructor (id: u64, appId: string, category: string, hasMenu: Option<seq<DBusMenuEntry>>)
      ensures this.id == id && this.appId == appId && this.category == category && this.hasMenu == hasMenu
      ensures path == BusPath(id)
      ensures Fields() == ItemFields(None, None, None, None, None, None)
    {
      this.id := id;
      this.appId := appId;
      this.category := category;
      this.hasMenu := hasMenu;
      this.path := BusPath(id);
      tooltip, title, status := None, None, None;
      icon, attentionIcon, overlayIcon := None, None, None;
    }

    method SetTitle(title: Option<string>) returns (signal: ItemSignal)
      modifies this
      ensures Fields() == old(Fields()).(title := title)
      ensures signal == NewTitle
    {
      this.title := title;
      signal := NewTitle;
    }

    method SetTooltip(tooltip: Option<Tooltip>) returns (signal: ItemSignal)
      modifies this
      ensures Fields() == old(Fields()).(tooltip := tooltip)
      ensures signal == NewToolTip
    {
      this.tooltip := tooltip;
      signal := NewToolTip;
    }

    /** `set_status`: a cleared status is announced as "normal". */
    method SetStatus(status: Option<string>) returns (signal: ItemSignal)
      modifies this
      ensures Fields() == old(Fields()).(status := status)
      ensures signal == NewStatus(if status.Some? then status.value else "normal")
    {
      this.status := status;
      signal := NewStatus(status.GetOr("normal"));
    }

    method SetIcon(icon: Option<seq<IconData>>) returns (signal: ItemSignal)
      modifies this
      ensures Fields() == old(Fields()).(icon := icon)
      ensures signal == NewIcon
    {
      this.icon := icon;
      signal := NewIcon;
    }

    method SetAttentionIcon(attentionIcon: Option<seq<IconData>>) returns (signal: ItemSignal)
      modifies this
      ensures Fields() == old(Fields()).(attentionIcon := attentionIcon)
      ensures signal == NewAttentionIcon
    {
      this.attentionIcon := attentionIcon;
      signal := NewAttentionIcon;
    }

    method SetOverlayIcon(overlayIcon: Option<seq<IconData>>) returns (signal: ItemSignal)
      modifies this
      ensures Fields() == old(Fields()).(overlayIcon := overlayIcon)
      ensures signal == NewOverlayIcon
    {
      this.overlayIcon := overlayIcon;
      signal := NewOverlayIcon;
    }

    /** The menu stubs: no entry is ever contained, and every per-entry
        operation fails. */
    predicate ContainsId(entry: i32) {
      false
    }

    function GetProperty(entry: i32, name: string): Result<PropertyValue, MethodError> {
      Err(MethodFailed("not yet implemented"))
    }

    function AboutToShow(entry: i32): Result<bool, MethodError> {
      Err(MethodFailed("not yet implemented"))
    }

    function Event(entry: i32): Result<(), MethodError> {
      Err(MethodFailed("not yet implemented"))
    }
  }

  // ---------------------------------------------------------------------
  // Method handlers. `current` is the id the client last parsed from the
  // object path of an incoming call.

  /** `call_with_icon`: the record of the current id, or ServiceUnknown. */
  function CallWithIcon(items: map<u64, NotifierIcon>, current: u64): (r: Result<NotifierIcon, MethodError>)
    ensures r.Err? <==> current !in items
    ensures r.Err? ==> r.error == ServiceUnknown
    ensures r.Ok? ==> r.value == items[current]
  {
    if current in items then Ok(items[current]) else Err(ServiceUnknown)
  }

  /** The dbusmenu `Event` method: unlike the record's own `event` stub, it
      acknowledges any event on a live item and ignores its content. */
  function MenuEvent(items: map<u64, NotifierIcon>, current: u64): (r: Result<(), MethodError>)
    ensures r.Ok? <==> current in items
    ensures r.Err? ==> r.error == ServiceUnknown
  {
    match CallWithIcon(items, current)
    case Err(e) => Err(e)
    case Ok(_) => Ok(())
  }

  /** A stored optional text as a property: missing properties are errors. */
  function TextProperty(v: Option<string>, name: string): (r: Result<string, MethodError>)
    ensures r.Ok? <==> v.Some?
    ensures r.Ok? ==> r.value == v.value
    ensures r.Err? ==> r.error == NoProperty(name)
  {
    if v.Some? then Ok(v.value) else Err(NoProperty(name))
  }

  function TitleProperty(items: map<u64, NotifierIcon>, current: u64): (r: Result<string, MethodError>)
    reads items.Values
    ensures current !in items ==> r == Err(ServiceUnknown)
    ensures current in items ==> r == TextProperty(items[current].title, "Title")
  {
    match CallWithIcon(items, current)
    case Err(e) => Err(e)
    case Ok(icon) => TextProperty(icon.title, "Title")
  }

  function StatusProperty(items: map<u64, NotifierIcon>, current: u64): (r: Result<string, MethodError>)
    reads items.Values
    ensures current !in items ==> r == Err(ServiceUnknown)
    ensures current in items ==> r == TextProperty(items[current].status, "status")
  {
    match CallWithIcon(items, current)
    case Err(e) => Err(e)
    case Ok(icon) => TextProperty(icon.status, "status")
  }

  function CategoryProperty(items: map<u64, NotifierIcon>, current: u64): (r: Result<string, MethodError>)
    reads items.Values
    ensures r.Ok? <==> current in items
    ensures r.Ok? ==> r.value == items[current].category
  {
    match CallWithIcon(items, current)
    case Err(e) => Err(e)
    case Ok(icon) => Ok(icon.category)
  }

  function IdProperty(items: map<u64, NotifierIcon>, current: u64): (r: Result<string, MethodError>)
    reads items.Values
    ensures r.Ok? <==> current in items
    ensures r.Ok? ==> r.value == items[current].appId
  {
    match CallWithIcon(items, current)
    case Err(e) => Err(e)
    case Ok(icon) => Ok(icon.appId)
  }

  /** `menu`: the item's own path when it has a menu. */
  function MenuProperty(items: map<u64, NotifierIcon>, current: u64): (r: Result<string, MethodError>)
    reads items.Values
    ensures r.Ok? <==> current in items && items[current].hasMenu.Some?
    ensures r.Ok? ==> r.value == items[current].path
    ensures current in items && items[current].hasMenu.None? ==> r == Err(NoProperty("menu"))
  {
    match CallWithIcon(items, current)
    case Err(e) => Err(e)
    case Ok(icon) => if icon.hasMenu.Some? then Ok(icon.path) else Err(NoProperty("menu"))
  }

  /** `item_is_menu` agrees with `menu`: true exactly when a menu path is
      offered. */
  function ItemIsMenuProperty(items: map<u64, NotifierIcon>, current: u64): (r: Result<bool, MethodError>)
    reads items.Values
    ensures r.Ok? <==> current in items
    ensures r.Ok? ==> (r.value <==> MenuProperty(items, current).Ok?)
  {
    match CallWithIcon(items, current)
    case Err(e) => Err(e)
    case Ok(icon) => Ok(icon.hasMenu.Some?)
  }

  function WindowIdProperty(): (r: Result<i32, MethodError>)
    ensures r == Ok(0)
  {
    Ok(0)
  }

  /** A bitmap as the StatusNotifierItem interface carries it:
      `(width as i32, height as i32, data)`. */
  function AsPixmap(d: IconData): (p: Pixmap)
    ensures ToIconData(p) == d
  {
    I32RoundTrip(d.width);
    I32RoundTrip(d.height);
    Pixmap(U32AsI32(d.width), U32AsI32(d.height), d.data)
  }

  /** The stored bitmaps in order, or none when the slot is empty. */
  function Pixmaps(o: Option<seq<IconData>>): (r: seq<Pixmap>)
    ensures o.None? ==> r == []
    ensures o.Some? ==> |r| == |o.value| && forall k | 0 <= k < |r| :: r[k] == AsPixmap(o.value[k])
  {
    if o.None? then [] else seq(|o.value|, k requires 0 <= k < |o.value| => AsPixmap(o.value[k]))
  }

  /** An agent reading an exported item's pixmaps gets back exactly the
      bitmaps the item holds: the i32 casts lose nothing. */
  lemma PixmapsRoundTrip(ds: seq<IconData>)
    ensures ToIconDataAll(Pixmaps(Some(ds))) == ds
  {
    var ps := Pixmaps(Some(ds));
    forall k | 0 <= k < |ds| ensures ToIconDataAll(ps)[k] == ds[k] {
      assert ps[k] == AsPixmap(ds[k]);
    }
  }

  datatype IconSlot = NormalSlot | AttentionSlot | OverlaySlot

  function IconPixmapProperty(items: map<u64, NotifierIcon>, current: u64, slot: IconSlot): (r: Result<seq<Pixmap>, MethodError>)
    reads items.Values
    ensures r.Ok? <==> current in items
    ensures r.Ok? ==> r.value == Pixmaps(match slot
                                         case NormalSlot => items[current].icon
                                         case AttentionSlot => items[current].attentionIcon
                                         case OverlaySlot => items[current].overlayIcon)
  {
    match CallWithIcon(items, current)
    case Err(e) => Err(e)
    case Ok(icon) =>
      match slot
      case NormalSlot => Ok(Pixmaps(icon.icon))
      case AttentionSlot => Ok(Pixmaps(icon.attentionIcon))
      case OverlaySlot => Ok(Pixmaps(icon.overlayIcon))
  }

  /** `tool_tip`: an empty icon name, the tooltip's bitmaps, its title and
      its description. */
  function ToolTipProperty(items: map<u64, NotifierIcon>, current: u64)
    : (r: Result<(string, seq<Pixmap>, string, string), MethodError>)
    reads items.Values
    ensures current !in items ==> r == Err(ServiceUnknown)
    ensures current in items ==> (r.Ok? <==> items[current].tooltip.Some?)
    ensures current in items && items[current].tooltip.None? ==> r == Err(NoProperty("ToolTip"))
    ensures r.Ok? ==> var t := items[current].tooltip.value;
      r.value == ("", Pixmaps(Some(t.iconData)), t.title, t.description)
  {
    match CallWithIcon(items, current)
    case Err(e) => Err(e)
    case Ok(icon) =>
      if icon.tooltip.None? then Err(NoProperty("ToolTip"))
      else
        var t := icon.tooltip.value;
        Ok(("", Pixmaps(Some(t.iconData)), t.title, t.description))
  }

  /** `context_menu`, `activate`, `secondary_activate` and `scroll`: the
      user action, tagged with the record's id, for the agent. */
  function ForwardAction(items: map<u64, NotifierIcon>, current: u64, action: ServerEvent)
    : (r: Result<IconServerEvent, MethodError>)
    reads items.Values
    ensures r.Ok? <==> current in items
    ensures r.Err? ==> r.error == ServiceUnknown
    ensures r.Ok? ==> r.value == IconServerEvent(items[current].id, action)
  {
    match CallWithIcon(items, current)
    case Err(e) => Err(e)
    case Ok(icon) => Ok(IconServerEvent(icon.id, action))
  }

  /** A forwarded action reaches the agent's item that the id names, and is
      dropped there when the id names none. */
  lemma ForwardedActionRouted(items: map<u64, NotifierIcon>, current: u64, action: ServerEvent,
                              reverseNameMap: map<u64, string>)
    requires current in items && items[current].id == current
    ensures var fwd := ForwardAction(items, current, action).value;
      && (Route(reverseNameMap, fwd).Some? <==> current in reverseNameMap)
      && (current in reverseNameMap ==>
            Route(reverseNameMap, fwd).value == ProxyCall(SplitItem(reverseNameMap[current]).0,
                                                          SplitItem(reverseNameMap[current]).1, action))
  {
  }

  // ---------------------------------------------------------------------
  // Group methods of the dbusmenu interface. They consult the record's
  // per-entry handlers, passed here as `contains`, `getProperty`, `event`
  // and `aboutToShow`; for a NotifierIcon these are its stubs (see
  // StubsContainNothing).

  /** Every name of `names` was answered for entry `id`, and `props` holds
      the answers under exactly those names. */
  predicate Answered(getProperty: (i32, string) -> Result<PropertyValue, MethodError>,
                     id: i32, names: seq<string>, props: map<string, PropertyValue>)
  {
    && (forall n | n in names :: getProperty(id, n).Ok?)
    && (forall n | n in props :: n in names)
    && (forall n | n in names :: n in props && props[n] == getProperty(id, n).value)
  }

  /** `get_group_properties`: every requested property of every id; an
      empty result is an error. */
  method GetGroupProperties(items: map<u64, NotifierIcon>, current: u64, ids: seq<i32>, names: seq<string>,
                            getProperty: (i32, string) -> Result<PropertyValue, MethodError>)
    returns (r: Result<seq<(i32, map<string, PropertyValue>)>, MethodError>)
    ensures current !in items ==> r == Err(ServiceUnknown)
    ensures current in items && ids == [] ==> r == Err(MethodFailed("No matching IDs"))
    ensures r.Ok? ==>
      && |r.value| == |ids| && ids != []
      && forall k | 0 <= k < |ids| :: r.value[k].0 == ids[k] && Answered(getProperty, ids[k], names, r.value[k].1)
    ensures r.Err? && current in items && ids != [] ==>
      exists k, j | 0 <= k < |ids| && 0 <= j < |names| :: getProperty(ids[k], names[j]) == Err(r.error)
  {
    var found := CallWithIcon(items, current);
    if found.Err? {
      return Err(found.error);
    }
    var out: seq<(i32, map<string, PropertyValue>)> := [];
    for k := 0 to |ids|
      invariant |out| == k
      invariant forall i | 0 <= i < k :: out[i].0 == ids[i] && Answered(getProperty, ids[i], names, out[i].1)
    {
      var props: map<string, PropertyValue> := map[];
      for j := 0 to |names|
        invariant Answered(getProperty, ids[k], names[..j], props)
      {
        var v := getProperty(ids[k], names[j]);
        if v.Err? {
          return Err(v.error);
        }
        props := props[names[j] := v.value];
        assert names[..j + 1] == names[..j] + [names[j]];
      }
      assert names[..|names|] == names;
      out := out + [(ids[k], props)];
    }
    if out == [] {
      return Err(MethodFailed("No matching IDs"));
    }
    r := Ok(out);
  }

  /** The ids of `ids` that `contains` rejects, in order. */
  function NotContained(contains: i32 -> bool, ids: seq<i32>): (r: seq<i32>)
  {
    if ids == [] then []
    else NotContained(contains, ids[..|ids| - 1]) + (if contains(ids[|ids| - 1]) then [] else [ids[|ids| - 1]])
  }

  /** The not-contained list holds exactly the rejected ids. */
  lemma {:induction false} NotContainedMembers(contains: i32 -> bool, ids: seq<i32>)
    ensures forall x :: x in NotContained(contains, ids) <==> x in ids && !contains(x)
  {
    if ids != [] {
      NotContainedMembers(contains, ids[..|ids| - 1]);
      assert ids == ids[..|ids| - 1] + [ids[|ids| - 1]];
    }
  }

  /** `event_group`: every event whose id the record contains is delivered;
      the result lists the ids it does not contain, and it is an error when
      none is contained. */
  method EventGroup(items: map<u64, NotifierIcon>, current: u64, ids: seq<i32>,
                    contains: i32 -> bool, event: i32 -> Result<(), MethodError>)
    returns (r: Result<seq<i32>, MethodError>)
    ensures current !in items ==> r == Err(ServiceUnknown)
    ensures current in items && (forall k | 0 <= k < |ids| :: !contains(ids[k]))
            ==> r == Err(MethodFailed("No matching IDs"))
    ensures r.Ok? ==>
      && r.value == NotContained(contains, ids)
      && (exists k | 0 <= k < |ids| :: contains(ids[k]))
      && forall k | 0 <= k < |ids| && contains(ids[k]) :: event(ids[k]).Ok?
  {
    var found := CallWithIcon(items, current);
    if found.Err? {
      return Err(found.error);
    }
    var notFound: seq<i32> := [];
    var foundSomething := false;
    ghost var hit := -1;
    for k := 0 to |ids|
      invariant notFound == NotContained(contains, ids[..k])
      invariant foundSomething ==> 0 <= hit < k && contains(ids[hit])
      invariant !foundSomething ==> forall j | 0 <= j < k :: !contains(ids[j])
      invariant forall j | 0 <= j < k && contains(ids[j]) :: event(ids[j]).Ok?
    {
      assert ids[..k + 1][..k] == ids[..k];
      if contains(ids[k]) {
        var e := event(ids[k]);
        if e.Err? {
          return Err(e.error);
        }
        foundSomething, hit := true, k;
      } else {
        notFound := notFound + [ids[k]];
      }
    }
    if !foundSomething {
      return Err(MethodFailed("No matching IDs"));
    }
    assert ids[..|ids|] == ids;
    r := Ok(notFound);
  }

  /** The contained ids whose entry asks to be refreshed, in order. */
  function Invalidated(contains: i32 -> bool, aboutToShow: i32 -> Result<bool, MethodError>, ids: seq<i32>)
    : (r: seq<i32>)
  {
    if ids == [] then []
    else
      var x := ids[|ids| - 1];
      Invalidated(contains, aboutToShow, ids[..|ids| - 1]) + (if contains(x) && aboutToShow(x) == Ok(true) then [x] else [])
  }

  /** The invalidated list holds exactly the contained ids whose entry
      asked to be refreshed. */
  lemma {:induction false} InvalidatedMembers(contains: i32 -> bool, aboutToShow: i32 -> Result<bool, MethodError>,
                                              ids: seq<i32>)
    ensures forall x :: x in Invalidated(contains, aboutToShow, ids)
                        <==> x in ids && contains(x) && aboutToShow(x) == Ok(true)
  {
    if ids != [] {
      InvalidatedMembers(contains, aboutToShow, ids[..|ids| - 1]);
      assert ids == ids[..|ids| - 1] + [ids[|ids| - 1]];
    }
  }

  /** `about_to_show_group`: the contained ids whose entry asks to be
      refreshed, and the ids not contained; an error when none is
      contained. */
  method AboutToShowGroup(items: map<u64, NotifierIcon>, current: u64, ids: seq<i32>,
                          contains: i32 -> bool, aboutToShow: i32 -> Result<bool, MethodError>)
    returns (r: Result<(seq<i32>, seq<i32>), MethodError>)
    ensures current !in items ==> r == Err(ServiceUnknown)
    ensures current in items && (forall k | 0 <= k < |ids| :: !contains(ids[k]))
            ==> r == Err(MethodFailed("No entry found with any of the ID numbers"))
    ensures r.Ok? ==>
      && r.value.0 == Invalidated(contains, aboutToShow, ids)
      && r.value.1 == NotContained(contains, ids)
      && (exists k | 0 <= k < |ids| :: contains(ids[k]))
      && forall k | 0 <= k < |ids| && contains(ids[k]) :: aboutToShow(ids[k]).Ok?
  {
    var found := CallWithIcon(items, current);
    if found.Err? {
      return Err(found.error);
    }
    var notFound: seq<i32> := [];
    var invalidated: seq<i32> := [];
    var foundSomething := false;
    ghost var hit := -1;
    for k := 0 to |ids|
      invariant notFound == NotContained(contains, ids[..k])
      invariant invalidated == Invalidated(contains, aboutToShow, ids[..k])
      invariant foundSomething ==> 0 <= hit < k && contains(ids[hit])
      invariant !foundSomething ==> forall j | 0 <= j < k :: !contains(ids[j])
      invariant forall j | 0 <= j < k && contains(ids[j]) :: aboutToShow(ids[j]).Ok?
    {
      assert ids[..k + 1][..k] == ids[..k];
      if contains(ids[k]) {
        var refresh := aboutToShow(ids[k]);
        if refresh.Err? {
          return Err(refresh.error);
        }
        if refresh.value {
          invalidated := invalidated + [ids[k]];
        }
        foundSomething, hit := true, k;
      } else {
        notFound := notFound + [ids[k]];
      }
    }
    if !foundSomething {
      return Err(MethodFailed("No entry found with any of the ID numbers"));
    }
    assert ids[..|ids|] == ids;
    r := Ok((invalidated, notFound));
  }

  /** When no id is contained, every id is reported as not found. */
  lemma {:induction false} NothingContained(contains: i32 -> bool, ids: seq<i32>)
    requires forall k | 0 <= k < |ids| :: !contains(ids[k])
    ensures NotContained(contains, ids) == ids
  {
    if ids != [] {
      NothingContained(contains, ids[..|ids| - 1]);
      assert ids == ids[..|ids| - 1] + [ids[|ids| - 1]];
    }
  }

  /** The record's menu stubs contain no entry, so both group calls on a
      NotifierIcon end in their "nothing found" error on every input. */
  lemma StubsContainNothing(icon: NotifierIcon, ids: seq<i32>)
    ensures forall k | 0 <= k < |ids| :: !icon.ContainsId(ids[k])
    ensures NotContained(x => icon.ContainsId(x), ids) == ids
  {
    NothingContained(x => icon.ContainsId(x), ids);
  }
}
