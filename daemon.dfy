/** The host-side daemon (src/bin/sni-daemon.rs): it reads framed
    IconClientEvents from the agent and keeps one exported tray item per
    accepted id. The item type of `src/bin/sni-daemon/item.rs` is not part of
    this model; an item's state is the value `DaemonIcon`, holding what the
    event loop hands to it. */
module Daemon {
  import opened Wrappers
  import opened Ints
  import opened Messages
  import opened Framing
  import opened Border
  import opened ProxyCommon

  /** What the event loop has handed to one exported item. */
  datatype DaemonIcon = DaemonIcon(
    appId: string, category: string, isMenu: bool,
    title: Option<string>, status: Option<string>,
    icon: Option<seq<IconData>>, attentionIcon: Option<seq<IconData>>, overlayIcon: Option<seq<IconData>>,
    tooltip: Option<Tooltip>)

  function NewIcon(appId: string, category: string, isMenu: bool): DaemonIcon {
    DaemonIcon(appId, category, isMenu, None, None, None, None, None, None)
  }

  /** Why the daemon panics. */
  datatype Panic =
    | IdNotIncreasing     // a Create whose id is not above the last one
    | NoSuchItem          // `unwrap` of the lookup of a non-Create event's id
    | BadIconType         // Icon or RemoveIcon naming Title or Status
    | BadBitmap           // the border painting of a bitmap panics
    | MenuNotHandled      // EnableMenu, for which the event loop has no arm

  datatype DaemonState = DaemonState(lastIndex: u64, icons: map<u64, DaemonIcon>, registered: seq<u64>)

  /** No item carries an id above the last accepted one, and every icon,
      attention and overlay bitmap an item holds carries the frame (its
      tooltip's bitmaps need not). */
  ghost predicate Consistent(s: DaemonState) {
    && (forall id | id in s.icons :: 0 < id <= s.lastIndex)
    && (forall id | id in s.icons :: IconsFramed(s.icons[id]))
  }

  predicate IconsFramed(i: DaemonIcon) {
    AllFramed(i.icon) && AllFramed(i.attentionIcon) && AllFramed(i.overlayIcon)
  }

  /** The bitmap list an item holds for `typ`; Title and Status have none. */
  function Slot(i: DaemonIcon, typ: IconType): Option<seq<IconData>> {
    match typ
    case Normal => i.icon
    case Attention => i.attentionIcon
    case Overlay => i.overlayIcon
    case Title => None
    case Status => None
  }

  /** Store a bitmap list (or its removal) in the slot for `typ`; Title and
      Status have no slot, and the other fields of the item stay. */
  function SetSlot(i: DaemonIcon, typ: IconType, v: Option<seq<IconData>>): (r: Result<DaemonIcon, Panic>)
    ensures r.Ok? <==> typ != IconType.Title && typ != IconType.Status
    ensures r.Err? ==> r.error == BadIconType
    ensures r.Ok? ==> r.value.(icon := i.icon, attentionIcon := i.attentionIcon, overlayIcon := i.overlayIcon) == i
    ensures r.Ok? ==> Slot(r.value, typ) == v && forall t | t != typ :: Slot(r.value, t) == Slot(i, t)
  {
    match typ
    case Normal => Ok(i.(icon := v))
    case Attention => Ok(i.(attentionIcon := v))
    case Overlay => Ok(i.(overlayIcon := v))
    case Title => Err(BadIconType)
    case Status => Err(BadIconType)
  }

  /** The effect of a non-Create, non-Destroy event on one item. What the
      item was created with never changes, and each event changes only its
      own field or slot: a new icon list is stored painted, a tooltip's
      bitmaps as received. The event fails exactly for an EnableMenu, an
      icon event naming Title or Status, or a bitmap list the border
      painting refuses. */
  function UpdateIcon(item: DaemonIcon, e: ClientEvent): (r: Result<DaemonIcon, Panic>)
    requires !e.Create? && !e.Destroy?
    ensures r.Ok? ==> r.value.appId == item.appId && r.value.category == item.category && r.value.isMenu == item.isMenu
    ensures r.Ok? && e.Title? ==> r.value.(title := item.title) == item && r.value.title == e.title
    ensures r.Ok? && e.Status? ==> r.value.(status := item.status) == item && r.value.status == e.status
    ensures r.Ok? && (e.Icon? || e.RemoveIcon?) ==>
      r.value.(icon := item.icon, attentionIcon := item.attentionIcon, overlayIcon := item.overlayIcon) == item
    ensures r.Ok? && e.Icon? ==>
      Slot(r.value, e.typ) == FramedIcons(e.data) && forall t | t != e.typ :: Slot(r.value, t) == Slot(item, t)
    ensures r.Ok? && e.RemoveIcon? ==>
      Slot(r.value, e.removed).None? && forall t | t != e.removed :: Slot(r.value, t) == Slot(item, t)
    ensures r.Ok? && (e.TooltipEvent? || e.RemoveTooltip?) ==> r.value.(tooltip := item.tooltip) == item
    ensures r.Ok? && e.TooltipEvent? ==> r.value.tooltip == Some(Tooltip(e.tipTitle, e.description, e.iconData))
    ensures r.Ok? && e.RemoveTooltip? ==> r.value.tooltip.None?
    ensures r.Err? <==>
      || e.EnableMenu?
      || (e.Icon? && (e.typ == IconType.Title || e.typ == IconType.Status))
      || (e.RemoveIcon? && (e.removed == IconType.Title || e.removed == IconType.Status))
      || (e.Icon? && FramedIcons(e.data).None?)
  {
    match e
    case Title(t) => Ok(item.(title := t))
    case Status(st) => Ok(item.(status := st))
    case Icon(typ, data) =>
      (match FramedIcons(data)
       case None => Err(BadBitmap)
       case Some(framed) => SetSlot(item, typ, Some(framed)))
    case RemoveIcon(typ) => SetSlot(item, typ, None)
    case TooltipEvent(iconData, title, description) => Ok(item.(tooltip := Some(Tooltip(title, description, iconData))))
    case RemoveTooltip => Ok(item.(tooltip := None))
    case EnableMenu(_, _) => Err(MenuNotHandled)
  }

  /** The effect of one event on the daemon: the new state, or the panic.
      Only a Create moves the last index or registers anything, and
      registrations are only appended. */
  function Apply(s: DaemonState, ev: IconClientEvent, sha256: string -> Digest): (r: Result<DaemonState, Panic>)
    ensures r.Ok? ==> s.lastIndex <= r.value.lastIndex && s.registered <= r.value.registered
    ensures r.Ok? && !ev.event.Create? ==> r.value.lastIndex == s.lastIndex && r.value.registered == s.registered
  {
    var id := ev.id;
    if ev.event.Create? then
      match DecideCreate(s.lastIndex, id, ev.event.category)
      case NotIncreasing => Err(IdNotIncreasing)
      case EmptyCategory => Ok(s)
      case Accepted => Ok(Created(s, id, ev.event.category, ev.event.appId, ev.event.hasMenu, sha256))
    else if id !in s.icons then Err(NoSuchItem)
    else if ev.event.Destroy? then Ok(s.(icons := s.icons - {id}))
    else
      match UpdateIcon(s.icons[id], ev.event)
      case Err(p) => Err(p)
      case Ok(item) => Ok(s.(icons := s.icons[id := item]))
  }

  /** The state after item `id` is created and registered. */
  function Created(s: DaemonState, id: u64, category: string, appId: string, hasMenu: bool,
                   sha256: string -> Digest): DaemonState
  {
    var item := NewIcon(ExportedAppId(DaemonNaming(), appId, sha256), category, hasMenu);
    DaemonState(id, s.icons[id := item], s.registered + [id])
  }

  /** Each event changes at most the item it names; every other item keeps
      its state, and a fatal event changes nothing because the daemon is
      gone. */
  lemma ApplyTouchesOnlyItsItem(s: DaemonState, ev: IconClientEvent, sha256: string -> Digest)
    requires Apply(s, ev, sha256).Ok?
    ensures var t := Apply(s, ev, sha256).value;
      forall id | id != ev.id :: (id in t.icons <==> id in s.icons) && (id in s.icons ==> t.icons[id] == s.icons[id])
  {
  }

  /** Every event that does not panic keeps the daemon consistent: ids stay
      below the last index, and every icon, attention and overlay bitmap
      carries its frame. */
  lemma ApplyKeepsConsistent(s: DaemonState, ev: IconClientEvent, sha256: string -> Digest)
    requires Consistent(s)
    requires Apply(s, ev, sha256).Ok?
    ensures Consistent(Apply(s, ev, sha256).value)
  {
    if !ev.event.Create? && !ev.event.Destroy? {
      UpdateIconKeepsFrames(s.icons[ev.id], ev.event);
    }
  }

  /** Updating an item keeps the frame on every icon, attention and overlay
      bitmap it holds: new icon lists are painted before they are stored. */
  lemma UpdateIconKeepsFrames(item: DaemonIcon, e: ClientEvent)
    requires !e.Create? && !e.Destroy?
    requires IconsFramed(item) && UpdateIcon(item, e).Ok?
    ensures IconsFramed(UpdateIcon(item, e).value)
  {
    if e.Icon? {
      FramedIconsHaveFrame(e.data);
    }
  }

  /** Every bitmap an item holds, the tooltip's included, carries the
      frame. */
  predicate AllBitmapsFramed(i: DaemonIcon) {
    IconsFramed(i) && (i.tooltip.Some? ==> AllFramed(Some(i.tooltip.value.iconData)))
  }

  /** As written, a tooltip's bitmaps reach the host without the frame: a
      fresh item given a Tooltip event with a blank 2×2 bitmap holds that
      bitmap unpainted. */
  lemma TooltipBitmapStoredUnframed()
    ensures var r := UpdateIcon(NewIcon("", "", false), TooltipEvent([BLANK_BITMAP], "", ""));
      && AllBitmapsFramed(NewIcon("", "", false))
      && r.Ok? && r.value.tooltip == Some(Tooltip("", "", [BLANK_BITMAP]))
      && !AllBitmapsFramed(r.value)
  {
    assert Framed(2, 2, BLANK_BITMAP.data)[0] == 255;
    var r := UpdateIcon(NewIcon("", "", false), TooltipEvent([BLANK_BITMAP], "", ""));
    assert r.value.tooltip.value.iconData[0] == BLANK_BITMAP;
  }

  /** A 2×2 bitmap of transparent pixels. */
  const BLANK_BITMAP: IconData := IconData(2, 2, [0, 0, 0, 0, 0, 0, 0, 0, 0, 0, 0, 0, 0, 0, 0, 0])

  /** The painting the tooltip bitmaps evidently also need: a Tooltip event
      stores its bitmaps painted, and refuses those the painting refuses, as
      an Icon event does; every other event is UpdateIcon's. */
  function UpdateIconFramingTooltips(item: DaemonIcon, e: ClientEvent): (r: Result<DaemonIcon, Panic>)
    requires !e.Create? && !e.Destroy?
    ensures !e.TooltipEvent? ==> r == UpdateIcon(item, e)
    ensures e.TooltipEvent? ==> (r.Err? <==> FramedIcons(e.iconData).None?)
    ensures r.Ok? && e.TooltipEvent? ==>
      && r.value.(tooltip := item.tooltip) == item
      && r.value.tooltip == Some(Tooltip(e.tipTitle, e.description, FramedIcons(e.iconData).value))
  {
    if !e.TooltipEvent? then UpdateIcon(item, e)
    else
      match FramedIcons(e.iconData)
      case None => Err(BadBitmap)
      case Some(framed) => Ok(item.(tooltip := Some(Tooltip(e.tipTitle, e.description, framed))))
  }

  /** With tooltips painted too, every bitmap an item holds keeps its
      frame. */
  lemma FramingTooltipsKeepsAllFrames(item: DaemonIcon, e: ClientEvent)
    requires !e.Create? && !e.Destroy?
    requires AllBitmapsFramed(item) && UpdateIconFramingTooltips(item, e).Ok?
    ensures AllBitmapsFramed(UpdateIconFramingTooltips(item, e).value)
  {
    if e.TooltipEvent? {
      FramedIconsHaveFrame(e.iconData);
    } else {
      UpdateIconKeepsFrames(item, e);
    }
  }

  /** A Create for an id not above the last accepted one always panics,
      whatever else it carries; one with an empty category is dropped. */
  lemma CreateChecks(s: DaemonState, id: u64, category: string, appId: string, hasMenu: bool, sha256: string -> Digest)
    ensures id <= s.lastIndex ==> Apply(s, IconClientEvent(id, Create(category, appId, hasMenu)), sha256) == Err(IdNotIncreasing)
    ensures s.lastIndex < id && category == "" ==> Apply(s, IconClientEvent(id, Create(category, appId, hasMenu)), sha256) == Ok(s)
    ensures s.lastIndex < id && category != "" ==>
      var t := Apply(s, IconClientEvent(id, Create(category, appId, hasMenu)), sha256);
      && t.Ok? && t.value.lastIndex == id && id in t.value.icons && t.value.icons[id].category == category
      && t.value.icons[id].appId == ExportedAppId(DaemonNaming(), appId, sha256)
      && t.value.registered == s.registered + [id]
  {
  }

  /** Destroying an item removes it; a later event for it panics. */
  lemma DestroyThenEventPanics(s: DaemonState, id: u64, ev: ClientEvent, sha256: string -> Digest)
    requires id in s.icons && !ev.Create?
    ensures Apply(s, IconClientEvent(id, Destroy), sha256).Ok?
    ensures Apply(Apply(s, IconClientEvent(id, Destroy), sha256).value, IconClientEvent(id, ev), sha256) == Err(NoSuchItem)
  {
  }

  /** The events of a stream applied in order: the final state, or the first
      panic. */
  function Replay(s: DaemonState, evs: seq<IconClientEvent>, sha256: string -> Digest): (r: Result<DaemonState, Panic>)
    ensures r.Ok? ==> s.lastIndex <= r.value.lastIndex && s.registered <= r.value.registered
    decreases |evs|
  {
    if evs == [] then Ok(s)
    else
      match Apply(s, evs[0], sha256)
      case Err(p) => Err(p)
      case Ok(t) => Replay(t, evs[1..], sha256)
  }

  lemma {:induction false} ReplayKeepsConsistent(s: DaemonState, evs: seq<IconClientEvent>, sha256: string -> Digest)
    requires Consistent(s)
    requires Replay(s, evs, sha256).Ok?
    ensures Consistent(Replay(s, evs, sha256).value)
    decreases |evs|
  {
    if evs != [] {
      ApplyKeepsConsistent(s, evs[0], sha256);
      ReplayKeepsConsistent(Apply(s, evs[0], sha256).value, evs[1..], sha256);
    }
  }

  /** How the event loop ends. */
  datatype Stop =
    | Panicked(reason: Panic)
    | ReadPanic(error: ReadError)      // end of input, a short read or an excessive size: `expect`/`panic!`
    | DecodeFailed(error: ReadError)   // a payload that does not decode: `?` returns the error

  function StopOf(e: ReadError): Stop {
    if e == Malformed || e == TrailingBytes then DecodeFailed(e) else ReadPanic(e)
  }

  class DaemonProxy {
    var lastIndex: u64
    var icons: map<u64, DaemonIcon>
    var registered: seq<u64>

    function State(): DaemonState
      reads this
    {
      DaemonState(lastIndex, icons, registered)
    }

    constructor ()
      ensures State() == DaemonState(0, map[], [])
    {
      lastIndex, icons, registered := 0, map[], [];
    }

    /** One pass of the event loop's body after the frame is decoded. */
    method HandleEvent(ev: IconClientEvent, sha256: string -> Digest) returns (panic: Option<Panic>)
      modifies this
      ensures panic.None? <==> Apply(old(State()), ev, sha256).Ok?
      ensures panic.None? ==> State() == Apply(old(State()), ev, sha256).value
      ensures panic.Some? ==> Apply(old(State()), ev, sha256) == Err(panic.value)
    {
      match ev.event {
        case Create(category, appId, hasMenu) =>
          var d := DecideCreate(lastIndex, ev.id, category);
          if d == NotIncreasing {
            return Some(IdNotIncreasing);
          }
          if d == EmptyCategory {
            return None;
          }
          lastIndex := ev.id;
          var item := NewIcon(ExportedAppId(DaemonNaming(), appId, sha256), category, hasMenu);
          icons := icons[ev.id := item];
          registered := registered + [ev.id];
          return None;
        case _ =>
      }
      if ev.id !in icons {
        return Some(NoSuchItem);
      }
      var item := icons[ev.id];
      match ev.event {
        case Create(_, _, _) =>
        case Title(t) =>
          icons := icons[ev.id := item.(title := t)];
        case Status(st) =>
          icons := icons[ev.id := item.(status := st)];
        case Icon(typ, data) =>
          var framed := FrameIcons(data);
          if framed.None? {
            return Some(BadBitmap);
          }
          var slot := SetSlot(item, typ, framed);
          if slot.Err? {
            return Some(slot.error);
          }
          icons := icons[ev.id := slot.value];
        case RemoveIcon(typ) =>
          var slot := SetSlot(item, typ, None);
          if slot.Err? {
            return Some(slot.error);
          }
          icons := icons[ev.id := slot.value];
        case TooltipEvent(iconData, title, description) =>
          icons := icons[ev.id := item.(tooltip := Some(Tooltip(title, description, iconData)))];
        case RemoveTooltip =>
          icons := icons[ev.id := item.(tooltip := None)];
        case Destroy =>
          icons := icons - {ev.id};
        case EnableMenu(_, _) =>
          return Some(MenuNotHandled);
      }
      panic := None;
    }

    /** `client_server`'s loop over the frames of its standard input. */
    method Run(stream: seq<u8>, decode: seq<u8> -> Option<(IconClientEvent, nat)>, sha256: string -> Digest)
      returns (stop: Stop)
      modifies this
      ensures var (evs, err) := ReadMessages(stream, decode);
        match Replay(old(State()), evs, sha256)
        case Ok(t) => State() == t && stop == StopOf(err)
        case Err(p) => stop == Panicked(p)
    {
      ghost var start := State();
      var rest := stream;
      while true
        invariant Replay(start, ReadMessages(stream, decode).0, sha256)
                  == Replay(State(), ReadMessages(rest, decode).0, sha256)
        invariant ReadMessages(rest, decode).1 == ReadMessages(stream, decode).1
        decreases |rest|
      {
        var next := ReadMessage(rest, decode);
        if next.Err? {
          return StopOf(next.error);
        }
        var ev := next.value.0;
        ReplayStep(State(), rest, decode, sha256);
        var p := HandleEvent(ev, sha256);
        if p.Some? {
          return Panicked(p.value);
        }
        rest := next.value.1;
      }
    }
  }

  /** One frame of the loop: replaying a stream is applying its first event
      and then replaying the rest. */
  lemma ReplayStep(s: DaemonState, stream: seq<u8>, decode: seq<u8> -> Option<(IconClientEvent, nat)>,
                   sha256: string -> Digest)
    requires ReadMessage(stream, decode).Ok?
    ensures var (ev, more) := ReadMessage(stream, decode).value;
      && ReadMessages(stream, decode).1 == ReadMessages(more, decode).1
      && Replay(s, ReadMessages(stream, decode).0, sha256)
         == match Apply(s, ev, sha256)
            case Err(p) => Err(p)
            case Ok(t) => Replay(t, ReadMessages(more, decode).0, sha256)
  {
    var (ev, more) := ReadMessage(stream, decode).value;
    var evs := ReadMessages(stream, decode).0;
    assert evs == [ev] + ReadMessages(more, decode).0;
    assert evs[1..] == ReadMessages(more, decode).0;
  }
}
