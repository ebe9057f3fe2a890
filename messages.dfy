/** The message types both ends of the relay exchange (src/lib.rs). */
module Messages {
  import opened Wrappers
  import opened Ints

  /** The kinds of icon state an agent tracks; each discriminant is one bit of
      the `u8` pending mask. */
  datatype IconType = Normal | Overlay | Attention | Status | Title {
    function Flag(): (b: bv8)
      ensures b != 0 && b & (b - 1) == 0
    {
      match this
      case Normal => 1
      case Overlay => 2
      case Attention => 4
      case Status => 8
      case Title => 16
    }
  }

  /** The OR of every flag. */
  const ALL_FLAGS: bv8 :=
    IconType.Normal.Flag() | IconType.Overlay.Flag() | IconType.Attention.Flag()
    | IconType.Status.Flag() | IconType.Title.Flag()

  /** The five discriminants are distinct single bits, so a mask can hold any
      set of them at once and each can be tested and cleared on its own. */
  lemma FlagsDisjoint(a: IconType, b: IconType)
    ensures a != b <==> a.Flag() & b.Flag() == 0
  {
  }

  /** Together they take five bits: every mask built from them is at most 31. */
  lemma FlagsFitInMask()
    ensures ALL_FLAGS == 31
    ensures forall t: IconType :: t.Flag() & ALL_FLAGS == t.Flag()
  {
  }

  datatype Event = Clicked | Hovered | Opened | Closed

  datatype Disposition = NormalDisposition | Informative | Warning | Alert

  datatype ModifierKey = Control | Alt | Shift | Super

  datatype MenuEntryType = StandardEntry | SeparatorEntry

  /** Toggle state of a menu entry. */
  datatype Togglable = Checkmark(toggled: bool) | Radio(toggled: bool) | NonToggleable

  /** A menu entry; `id` and `parent` are `NonZeroI32`, so no entry and no
      parent is ever numbered 0. */
  datatype DBusMenuEntry =
    | Separator(visible: bool)
    | Standard(labelText: string, visible: bool, children: seq<DBusMenuEntry>,
               disposition: Disposition, id: Option<NonZeroI32>, depth: u32,
               parent: Option<NonZeroI32>)

  const MAX_MENU_DEPTH: int := 5

  /** The ids a menu tree holds. */
  function MenuIds(e: DBusMenuEntry): set<NonZeroI32>
    decreases e
  {
    match e
    case Separator(_) => {}
    case Standard(_, _, children, _, id, _, _) =>
      (if id.Some? then {id.value} else {}) + ChildrenIds(children)
  }

  function ChildrenIds(cs: seq<DBusMenuEntry>): set<NonZeroI32>
    decreases cs
  {
    if cs == [] then {} else MenuIds(cs[0]) + ChildrenIds(cs[1..])
  }

  datatype InsertError = DuplicateId | TooDeep | AlreadyAdopted | NotAStandardEntry

  /** The checks the doc comment on `DBusMenuEntry` lists for inserting an
      entry under `parent` into a tree whose ids are `present`. */
  function CheckInsertion(present: set<NonZeroI32>, e: DBusMenuEntry, parent: NonZeroI32)
    : (r: Result<DBusMenuEntry, InsertError>)
    ensures r.Ok? <==> (e.Standard? && (e.id.None? || e.id.value !in present)
                        && e.depth as int <= MAX_MENU_DEPTH && e.parent.None?)
    ensures r.Ok? ==> r.value.Standard? && r.value.parent == Some(parent)
                      && r.value == e.(parent := Some(parent))
  {
    if !e.Standard? then Err(NotAStandardEntry)
    else if e.id.Some? && e.id.value in present then Err(DuplicateId)
    else if e.depth as int > MAX_MENU_DEPTH then Err(TooDeep)
    else if e.parent.Some? then Err(AlreadyAdopted)
    else Ok(e.(parent := Some(parent)))
  }

  /** An icon bitmap: `width`×`height` ARGB pixels, four bytes each. */
  datatype IconData = IconData(width: u32, height: u32, data: seq<u8>)

  datatype Tooltip = Tooltip(title: string, description: string, iconData: seq<IconData>)

  /** Agent-to-daemon events. */
  datatype ClientEvent =
    | Create(category: string, appId: string, hasMenu: bool)
    | Title(title: Option<string>)
    | Status(status: Option<string>)
    | Icon(typ: IconType, data: seq<IconData>)
    | RemoveIcon(removed: IconType)
    | Destroy
    | TooltipEvent(iconData: seq<IconData>, tipTitle: string, description: string)
    | RemoveTooltip
    | EnableMenu(revision: u32, entries: DBusMenuEntry)

  /** Daemon-to-agent events: user actions on a tray icon. */
  datatype ServerEvent =
    | Activate(x: i32, y: i32)
    | ContextMenu(x: i32, y: i32)
    | SecondaryActivate(x: i32, y: i32)
    | Scroll(delta: i32, orientation: string)

  /** Every event in either direction is tagged with the u64 id of its item. */
  datatype IconClientEvent = IconClientEvent(id: u64, event: ClientEvent)

  datatype IconServerEvent = IconServerEvent(id: u64, event: ServerEvent)
}
