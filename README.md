# sni-icon relay, modelled in Dafny

sni-icon carries StatusNotifierItem tray icons out of a Qubes OS guest and
shows them on the host. It has two sides:

- **Agent, in the guest** (`src/bin/server.rs`; `src/bin/sni-agent.rs` is
  the same program built on a different serialisation library). It runs a
  StatusNotifierWatcher. For every registered item it sends a `Create`
  event and the item's current state over standard output. Each later D-Bus
  change signal is turned into one more event. User actions that come back
  from the host are forwarded to the item's own object.
- **Proxy, on the host.** There are two proxies:
  - `src/bin/sni-daemon.rs` reads length-prefixed frames from standard input;
  - `src/bin/client.rs` with `src/bin/client/item.rs` decodes a plain stream.
  
  Each proxy:
  - checks that ids increase;
  - sanitises the app id into a D-Bus interface name, hashing it when it is not one (the client's prefix is never one, see "## Findings");
  - paints a two-pixel frame around every icon, attention and overlay bitmap (not the tooltip's, see "## Findings");
  - exports one tray item per id.
- **Shared code.** `src/lib.rs` holds the message types and `src/names.rs`
  the constant D-Bus names. The vendored `qubes-utils` crate holds the
  `SafelyDisplayable` string check and the `SimpleMarkup` escaper.

The D-Bus name grammars are those of the D-Bus Specification, section
"Valid Names" (interface, member, bus and error names, and object paths).

The modules follow the program:

| module | what it holds |
|---|---|
| `Wrappers`, `Ints` (wrappers.dfy) | Option and Result; Rust's fixed-width integers and the u32/i32 casts |
| `DBusNames` (dbus_names.dfy) | the name grammars; each constant name of `names.rs`, proved valid |
| `Messages` (messages.dfy) | the event types of `lib.rs` and the IconType bit flags |
| `Decimal` (decimal.dfy) | `{}` printing of integers and `u64::from_str` |
| `Framing` (framing.dfy) | the 4-byte little-endian length prefix; the frame readers |
| `AgentWatcher` (watcher.dfy) | the agent's Watcher object, a class |
| `AgentRegistry` (registry.dfy) | `go`, `handle_cb`, `handle_name_lost` and `reader` over a `Registry` class |
| `Border` (border.dfy) | the frame painting, in place on an array, against a pure spec |
| `ProxyCommon` (proxy_common.dfy) | the Create checks and app-id naming both proxies share |
| `Daemon` (daemon.dfy) | the daemon's event loop, as a `DaemonProxy` class |
| `ClientItem` (client_item.dfy) | the client's `NotifierIcon` record and its D-Bus method handlers |
| `Client` (client.rs side, client.dfy) | `parse_dest`, bus naming, registration and the `ClientServer` event loop |
| `Displayable` (safely_displayable.dfy) | `SafelyDisplayable::try_from` |
| `Markup` (simple_markup.dfy) | `SimpleMarkup` and its escaping, a class |

Some things are parameters of the model:
- the serialisation codec: a decoder that returns the value and the number
  of bytes it consumed;
- SHA-256: a function from string to 32 bytes;
- the C library's code-point judgement: `safe: u32 -> bool`.

Every D-Bus read `go` performs arrives as an argument.

## Model

| member | source | states |
|---|---|---|
| Ints.U32AsI32 | src/bin/client/item.rs:280 | `w as i32` is the two's-complement reading: the same number below 2^31, otherwise 2^32 less |
| Ints.I32RoundTrip | src/bin/server.rs:331-332 | casting a u32 to i32 and back (`w as u32`) gives the original |
| Messages.IconType.Flag | src/lib.rs:6-14 | every IconType discriminant is a single, non-zero bit |
| Messages.FlagsDisjoint | src/lib.rs:6-14 | two IconTypes share a bit exactly when they are the same type |
| Messages.FlagsFitInMask | src/lib.rs:6-14 | the five flags together make 31, and each lies inside that mask |
| Messages.CheckInsertion | src/lib.rs:25-31 | the insertion checks of the doc comment on `DBusMenuEntry`, which no code in the sources implements: insertion succeeds exactly when the entry's id is absent from the tree, its depth is at most 5 and it has no parent, and the inserted entry gets the given parent; a separator, which carries none of these fields, is refused by the model |
| DBusNames.InterfaceComCanonicalDbusmenu | src/names.rs:5-8 | the name is NUL-terminated and, without the NUL, a valid interface name |
| DBusNames.NameOwnerChanged | src/names.rs:10-13 | NUL-terminated valid member name |
| DBusNames.GetLayout | src/names.rs:15-18 | NUL-terminated valid member name |
| DBusNames.InterfaceDBus | src/names.rs:20-23 | NUL-terminated valid interface name |
| DBusNames.PathDBus | src/names.rs:25-28 | NUL-terminated valid object path |
| DBusNames.NameDBus | src/names.rs:30-33 | NUL-terminated valid bus name |
| DBusNames.NameStatusNotifierWatcher | src/names.rs:35-38 | NUL-terminated valid bus name |
| DBusNames.InterfaceStatusNotifierWatcher | src/names.rs:40-43 | NUL-terminated valid interface name |
| DBusNames.LayoutUpdated | src/names.rs:50 | NUL-terminated valid member name |
| DBusNames.PathStatusNotifierWatcher | src/names.rs:56-59 | NUL-terminated valid object path |
| DBusNames.RegisterStatusNotifierItem | src/names.rs:61-64 | NUL-terminated valid member name |
| DBusNames.PathStatusNotifierItem | src/names.rs:66-69 | NUL-terminated valid object path |
| DBusNames.ErrorServiceUnknown | src/bin/client/item.rs:182-185 | the unchecked error name is NUL-terminated and a valid error name |
| DBusNames.StripNul | src/names.rs:6-7 | the name with its terminating NUL removed holds no NUL, and adding the NUL back restores it |
| DBusNames.WithNul | src/names.rs:6-7 | a string without NUL, with one NUL appended, has exactly the form the unchecked constructors demand |
| DBusNames.LayoutUpdatedRule | src/names.rs:45-54 | the match rule for a valid sender and path names a valid interface and member, and keeps the sender and path |
| DBusNames.NameOwnerChangedRule | src/bin/server.rs:100-102 | the NameOwnerChanged rule has a valid interface, member, sender and path |
| DBusNames.BogusIsNotAnInterfaceName | src/bin/sni-daemon.rs:49 | the start-up self-test holds: "bogus" is refused as an interface name |
| DBusNames.DefaultItemPath | src/bin/server.rs:199 | the path used for an item string without '/' is the StatusNotifierItem path of `names.rs` |
| Decimal.Dec | src/bin/client/item.rs:53 | `{}` of a number is a non-empty digit string, "0" only for zero, with no leading zero otherwise |
| Decimal.DecLength | src/bin/client/item.rs:53 | a number below 10^k prints in at most k digits |
| Decimal.FixedWidthLengths | src/bin/client.rs:106 | a u32 prints in at most 10 digits and a u64 in at most 20 |
| Decimal.ValueOfDec | src/bin/client.rs:23-64 | reading the printed digits back gives the number |
| Decimal.ValuePositive | src/bin/client.rs:23-64 | digits with a non-zero first digit denote a positive number |
| Decimal.DecOfValue | src/bin/client.rs:23-64 | printing the value of a digit string without a leading zero gives that string back |
| Decimal.ParseU64 | src/bin/client.rs:23-64 | parsing succeeds exactly on non-empty digit strings whose value fits in a u64, and yields that value |
| Framing.Le32 | src/bin/server.rs:35 | `to_le_bytes` gives four bytes |
| Framing.Le32RoundTrip | src/bin/sni-daemon.rs:52 | `read_u32_le` of the four bytes gives the number back |
| Framing.Le32OfU32Le | src/bin/sni-daemon.rs:52 | every four bytes are the encoding of the number they read as |
| Framing.LengthField | src/bin/server.rs:35 | `len() as u32` is the exact length for any payload below 2^32 |
| Framing.Frame | src/bin/server.rs:31-39 | a frame is four header bytes followed by the payload unchanged |
| Framing.ReadFrame | src/bin/sni-daemon.rs:52-63 | a frame read succeeds only on a declared size of at most 0x80_000_000 (2^31); the stream is the header, the payload and the rest; at least the four header bytes are consumed |
| Framing.DecodeExact | src/bin/sni-daemon.rs:64-68 | a payload is accepted exactly when it decodes using every byte; a decode that leaves bytes is a trailing-bytes error |
| Framing.ReadMessage | src/bin/server.rs:165-189 | a message read consumes at least the four header bytes |
| Framing.FrameRoundTrip | src/bin/server.rs:31-39 | reading a written frame gives back exactly the payload and what follows |
| Framing.OversizeRejected | src/bin/server.rs:170-172 | a declared size above 0x80_000_000 (2^31) is refused whatever follows |
| Framing.OversizedPayloadRefused | src/bin/sni-daemon.rs:54-56 | a payload the writer frames above the bound is refused by the reader |
| Framing.MessageRoundTrip | src/bin/server.rs:180-189 | a framed message whose encoding decodes exactly is read back as that message |
| Framing.TrailingRejected | src/bin/server.rs:183 | a payload that decodes with bytes left over is refused |
| Framing.ReadMessages | src/bin/sni-daemon.rs:50-68 | the messages read off a stream, in order, until the first failure: at most one per four bytes, and none from an empty stream, which ends with EndOfStream |
| Framing.ReadMessagesOfFrames | src/bin/sni-daemon.rs:50-68 | the readers recover every framed message in order and stop at the end of the stream |
| AgentWatcher.Watcher.constructor | src/bin/server.rs:49-54 | a new watcher has no items, no hosts and has emitted nothing |
| AgentWatcher.Watcher.RegisterStatusNotifierItem | src/bin/server.rs:120-142 | the service is added to the items, hosts are unchanged, and ItemRegistered then an invalidation are emitted |
| AgentWatcher.Watcher.RegisterStatusNotifierHost | src/bin/server.rs:143-153 | the service is added to the hosts, items are unchanged, HostRegistered is emitted |
| AgentWatcher.Watcher.RegisteredStatusNotifierItems | src/bin/server.rs:154-156 | the result lists exactly the registered items, each once |
| AgentWatcher.Watcher.IsStatusNotifierHostRegistered | src/bin/server.rs:157-159 | true exactly when some host is registered |
| AgentWatcher.Watcher.ProtocolVersion | src/bin/server.rs:160-162 | the protocol version is 1 |
| AgentWatcher.Watcher.NameOwnerChanged | src/bin/server.rs:55-87 | the name always leaves the hosts; it leaves the items, with an ItemUnregistered and an invalidation, exactly when it was an item and has no new owner |
| AgentRegistry.FirstIndexOf | src/bin/server.rs:458 | `find` gives the first occurrence of the character, or none when it is absent |
| AgentRegistry.SplitItem | src/bin/server.rs:458-461 | an item string splits at its first '/': the bus part holds no '/', the two parts concatenate to the string, and without '/' the path is "/StatusNotifierItem" |
| AgentRegistry.ToIconData | src/bin/server.rs:328-335 | the pixel data is kept and the `as u32` casts invert the item's i32 sizes |
| AgentRegistry.ToIconDataAll | src/bin/server.rs:533-559 | every pixmap of a list is converted, in order |
| AgentRegistry.IconEvent | src/bin/server.rs:533-559 | a failed read sends no Icon event; a successful one sends one with the converted pixmaps |
| AgentRegistry.CreationEvents | src/bin/server.rs:502-559 | `go` sends Create (is_menu defaulting to false), then Status, then the Normal, Attention and Overlay icon events, each only when its read succeeded; all carry the new id |
| AgentRegistry.Route | src/bin/server.rs:192-235 | a user action is forwarded exactly when its id is known, as the same action, to that item's bus name and path |
| AgentRegistry.RouteAll | src/bin/server.rs:165-238 | at most one call per action; every action whose id is known yields its routed call, every call comes from some action, and when every id is known there is one call per action |
| AgentRegistry.ClearFlag | src/bin/server.rs:323 | completing an icon refresh clears its flag and leaves every other flag as it was |
| AgentRegistry.TextCompletion | src/bin/server.rs:365 | corrected completion of a Title or Status refresh: its flag is cleared, the others kept |
| AgentRegistry.TextCompletionAsWritten | src/bin/server.rs:365 | the completion as written, `!flag \| state`: the flag keeps its old bit and every other kind is marked pending |
| AgentRegistry.SignalKeyAsWritten | src/bin/server.rs:290 | the lookup key as written, sender followed by path: for an object path it holds a '/' right after the sender |
| AgentRegistry.SignalKey | src/bin/server.rs:290 | corrected lookup key: the bus-name part of the item string made of the sender and the path, the key `go` inserts for an item registered as "sender/path" |
| AgentRegistry.GoDecision | src/bin/server.rs:451-500 | an item is created exactly when its bus name and path are valid, the app id and category were read, the app id is not relayed and the id counter does not overflow; the new id is the counter plus one; relayed app ids are skipped |
| AgentRegistry.InsertKeepsLinked | src/bin/server.rs:510-527 | registering an item under a fresh id keeps every forward entry pointing at a live reverse entry for the same bus name |
| AgentRegistry.MaskUpdateKeepsLinked | src/bin/server.rs:297 | changing a pending mask keeps the maps linked |
| AgentRegistry.SignalKeyAsWrittenNeverFound | src/bin/server.rs:290 | as written, the lookup key of a signal (sender followed by path) is never a key of the map, so no signal is handled |
| AgentRegistry.TextCompletionAsWrittenBlocksAll | src/bin/server.rs:365 | as written, completing a pending Title or Status refresh makes the mask 0xFF, so every later signal of that item is dropped |
| AgentRegistry.TextCompletionReopens | src/bin/server.rs:379 | with the flag cleared, the flag is free again and nothing else changes |
| AgentRegistry.ReaderStep | src/bin/server.rs:165-238 | the routed calls of a stream are those of its first message followed by those of the rest |
| AgentRegistry.Registry.constructor | src/bin/server.rs:425 | both maps start empty, with the id counter at zero and nothing sent |
| AgentRegistry.Registry.Go | src/bin/server.rs:451-563 | the outcome is GoDecision's; only a created item changes state, by adding both map entries under the new id and sending its creation events; the maps stay linked |
| AgentRegistry.Registry.HandleNameLost | src/bin/server.rs:601-638 | an item is destroyed exactly when its name lost a real owner for none; its entries leave both maps and Destroy is sent |
| AgentRegistry.Registry.BeginSignal | src/bin/server.rs:278-298 | under the as-written or the corrected lookup key: a signal is accepted exactly when its item is found and its flag not pending, and then the flag is set; as written, no signal with a valid object path is ever accepted |
| AgentRegistry.Registry.StartRefresh | src/bin/server.rs:307-314 | under either lookup key, the spawned refresh sets the flag again if the item is found; as written, nothing changes |
| AgentRegistry.Registry.FinishRefresh | src/bin/server.rs:316-384 | under either key and completion: an icon refresh clears its flag and sends Icon, nothing (icon name only) or RemoveIcon; a Title or Status refresh sets the mask by the chosen completion and sends Title or Status; nothing happens for an item not found, which as written is every item |
| AgentRegistry.Registry.Reader | src/bin/server.rs:165-238 | the reader makes the routed calls of every framed message in order and stops with the framing's reason |
| Border.Framed | src/bin/sni-daemon.rs:174-196 | painting keeps the bitmap's length |
| Border.PixelOfIff | src/bin/sni-daemon.rs:174-196 | byte i belongs to pixel (x, y) exactly when it is one of that pixel's four bytes |
| Border.PixelInBounds | src/bin/sni-daemon.rs:174-196 | every pixel of a w×h bitmap lies within its 4·w·h bytes |
| Border.FramePixelPainted | src/bin/sni-daemon.rs:174-196 | every byte of a pixel on the two-pixel frame becomes the border colour |
| Border.InteriorPixelKept | src/bin/sni-daemon.rs:174-196 | every byte of a pixel off the frame is kept |
| Border.TailKept | src/bin/sni-daemon.rs:174-196 | bytes past the w×h pixels are untouched |
| Border.FramedIdempotent | src/bin/sni-daemon.rs:174-196 | painting the frame twice gives the same as painting it once |
| Border.SetPixel | src/bin/sni-daemon.rs:174-196 | the four bytes of the pixel become the border colour and every other byte is kept |
| Border.PaintFrame | src/bin/client.rs:207-229 | the painting loops, in place on the buffer, produce exactly the framed bitmap |
| Border.FramedIcon | src/bin/sni-daemon.rs:174-196 | a 0×0 bitmap passes unchanged; a paintable one keeps its size; any other is a panic |
| Border.FramedIcons | src/bin/sni-daemon.rs:173-196 | an Icon event paints exactly when every bitmap paints, keeping the count |
| Border.FramedIconHasFrame | src/bin/sni-daemon.rs:174-196 | every painted bitmap carries the frame |
| Border.FramedIconsHaveFrame | src/bin/sni-daemon.rs:173-196 | every bitmap of a painted list carries the frame |
| Border.FrameIcon | src/bin/client.rs:207-229 | painting one bitmap in its own buffer gives the specified result |
| Border.FrameIcons | src/bin/sni-daemon.rs:173-196 | the loop over an event's bitmaps gives the specified result |
| ProxyCommon.DecideCreate | src/bin/sni-daemon.rs:89-96 | a Create with an id not above the last panics; one with an empty category is skipped; any other is accepted |
| ProxyCommon.AcceptedIdsIncrease | src/bin/sni-daemon.rs:89-96 | the ids accepted along a run of Creates strictly increase and exceed the starting index |
| ProxyCommon.LastIndexIsLastAccepted | src/bin/sni-daemon.rs:96 | after a run the last index is the last accepted id, or the start when none was accepted |
| ProxyCommon.HexDigit | src/bin/sni-daemon.rs:106 | a hex digit is a name character, decimal exactly below ten |
| ProxyCommon.HexDigitValue | src/bin/sni-daemon.rs:106 | reading a hex digit back gives its value |
| ProxyCommon.Hex | src/bin/sni-daemon.rs:106-138 | `{:02x}` of every byte gives two hex characters per byte |
| ProxyCommon.UnHexHex | src/bin/sni-daemon.rs:106-138 | the printed digest reads back to the digest, so distinct digests print differently |
| ProxyCommon.HexStartsWithDigit | src/bin/sni-daemon.rs:106 | the printed digest starts with a decimal digit exactly when its first byte is below 0xA0 |
| ProxyCommon.AppendToPrefix | src/bin/sni-daemon.rs:99-101 | after an interface prefix, the appended text gives an interface name exactly when it is a dotted name whose elements do not start with a digit and the total is short enough |
| ProxyCommon.ExportedAppId | src/bin/sni-daemon.rs:87-140 | a prefixed app id that is an interface name is exported as it is; otherwise the hashed prefix is followed by the hex digest of the prefixed id |
| ProxyCommon.DaemonHashedNameValidIff | src/bin/sni-daemon.rs:106 | the daemon's hashed fallback is an interface name exactly when the digest's first byte is at least 0xA0 |
| ProxyCommon.DaemonAppIdSanitized | src/bin/sni-daemon.rs:99-140 | whatever app id arrives, the exported one has at most 255 characters, all of them name characters or dots |
| ProxyCommon.DaemonKeepsPlainIds | src/bin/sni-daemon.rs:87-101 | an app id made of valid elements that fits is exported behind the prefix, unhashed |
| ProxyCommon.ClientNamingAsWritten | src/bin/client.rs:114-135 | the client's prefixes as written; nothing appended to the plain one is an interface name |
| ProxyCommon.ClientAlwaysHashes | src/bin/client.rs:114-115 | as written, the client's prefix is never part of an interface name, so every app id is hashed |
| Daemon.ApplyTouchesOnlyItsItem | src/bin/sni-daemon.rs:162-235 | an event changes at most the item whose id it carries |
| Daemon.SetSlot | src/bin/sni-daemon.rs:196-214 | storing succeeds exactly for Normal, Attention and Overlay, puts the list in that slot, and changes nothing else; Title and Status panic |
| Daemon.UpdateIcon | src/bin/sni-daemon.rs:163-229 | an update never changes what the item was created with and changes only its own field: Title the title, Status the status, Icon its type's slot (to the painted list), RemoveIcon its type's slot (emptied), Tooltip and RemoveTooltip the tooltip (set with its bitmaps as received, or cleared); it panics exactly for an icon event naming Title or Status, a bitmap list the painting refuses, or EnableMenu |
| Daemon.Apply | src/bin/sni-daemon.rs:81-235 | only a Create moves the last index or registers anything; registrations are only appended |
| Daemon.Replay | src/bin/sni-daemon.rs:50-235 | along a run of events the last index never goes down and registrations are only appended |
| Daemon.ApplyKeepsConsistent | src/bin/sni-daemon.rs:81-235 | every event that does not panic keeps ids at most the last accepted one and every icon, attention and overlay bitmap framed |
| Daemon.UpdateIconKeepsFrames | src/bin/sni-daemon.rs:173-209 | a new bitmap list is stored only after being framed |
| Daemon.TooltipBitmapStoredUnframed | src/bin/sni-daemon.rs:216-226 | as written, a Tooltip event with a blank 2×2 bitmap leaves a framed item holding an unframed bitmap |
| Daemon.UpdateIconFramingTooltips | src/bin/sni-daemon.rs:173-226 | corrected update: a Tooltip event stores its bitmaps painted and panics exactly when the painting does; every other event is as written |
| Daemon.FramingTooltipsKeepsAllFrames | src/bin/sni-daemon.rs:173-226 | with tooltips painted too, every bitmap an item holds, the tooltip's included, keeps its frame |
| Daemon.CreateChecks | src/bin/sni-daemon.rs:81-161 | a non-increasing id panics; an empty category changes nothing; an accepted Create adds the item with its exported app id and registers it |
| Daemon.DestroyThenEventPanics | src/bin/sni-daemon.rs:163-164 | a destroyed item is gone, and a later non-Create event for it panics at the lookup |
| Daemon.ReplayKeepsConsistent | src/bin/sni-daemon.rs:50-235 | a run of events that does not panic keeps the daemon consistent |
| Daemon.ReplayStep | src/bin/sni-daemon.rs:50-68 | replaying a stream is applying its first message, then replaying the rest |
| Daemon.DaemonProxy.constructor | src/bin/sni-daemon.rs:25-48 | the daemon starts with last index 0, no items and nothing registered |
| Daemon.DaemonProxy.HandleEvent | src/bin/sni-daemon.rs:70-235 | the loop body panics exactly when Apply does, with the same reason; otherwise the new state is Apply's |
| Daemon.DaemonProxy.Run | src/bin/sni-daemon.rs:50-237 | the loop applies every framed event in order; it ends with the first panic, or with the framing's stop reason |
| ClientItem.BusPath | src/bin/client/item.rs:52-54 | `bus_path` is "/<id>/StatusNotifierItem", NUL-terminated, a valid object path |
| ClientItem.BusPathValid | src/bin/client/item.rs:53 | a slash, a decimal and the item suffix form a valid object path without NUL |
| ClientItem.NotifierIcon.constructor | src/bin/client/item.rs:57-77 | a new record keeps its id, app id, category and menu, has its bus path, and nothing else is set |
| ClientItem.NotifierIcon.SetTitle | src/bin/client/item.rs:78-83 | only the title changes; NewTitle is emitted |
| ClientItem.NotifierIcon.SetTooltip | src/bin/client/item.rs:84-89 | only the tooltip changes; NewToolTip is emitted |
| ClientItem.NotifierIcon.SetStatus | src/bin/client/item.rs:90-100 | only the status changes; NewStatus carries it, "normal" when cleared |
| ClientItem.NotifierIcon.SetIcon | src/bin/client/item.rs:101-106 | only the icon changes; NewIcon is emitted |
| ClientItem.NotifierIcon.SetAttentionIcon | src/bin/client/item.rs:107-116 | only the attention icon changes; NewAttentionIcon is emitted |
| ClientItem.NotifierIcon.SetOverlayIcon | src/bin/client/item.rs:117-126 | only the overlay icon changes; NewOverlayIcon is emitted |
| ClientItem.CallWithIcon | src/bin/client/item.rs:175-191 | the record of the current id, and ServiceUnknown exactly when there is none |
| ClientItem.MenuEvent | src/bin/client/item.rs:398-409 | the dbusmenu Event call succeeds exactly for a live item, and is ServiceUnknown otherwise |
| ClientItem.TextProperty | src/bin/client/item.rs:236-249 | a set text is returned; an unset one is the no-property error |
| ClientItem.TitleProperty | src/bin/client/item.rs:236-242 | ServiceUnknown without a record; otherwise the title, or no-property "Title" |
| ClientItem.StatusProperty | src/bin/client/item.rs:243-249 | ServiceUnknown without a record; otherwise the status, or no-property "status" |
| ClientItem.CategoryProperty | src/bin/client/item.rs:230-232 | succeeds exactly when the record exists, with its category |
| ClientItem.IdProperty | src/bin/client/item.rs:233-235 | succeeds exactly when the record exists, with its app id |
| ClientItem.MenuProperty | src/bin/client/item.rs:256-265 | the item's path exactly when it has a menu, else no-property "menu" |
| ClientItem.ItemIsMenuProperty | src/bin/client/item.rs:266-268 | agrees with `menu`: true exactly when a menu path is offered |
| ClientItem.WindowIdProperty | src/bin/client/item.rs:250-252 | the window id is 0 |
| ClientItem.AsPixmap | src/bin/client/item.rs:280 | the agent's conversion of an exported pixmap gives back the stored bitmap |
| ClientItem.Pixmaps | src/bin/client/item.rs:272-283 | an empty slot gives no pixmaps; a set one gives one per bitmap, in order |
| ClientItem.PixmapsRoundTrip | src/bin/client/item.rs:272-283 | an agent reading the exported pixmaps recovers exactly the stored bitmaps |
| ClientItem.IconPixmapProperty | src/bin/client/item.rs:272-313 | succeeds exactly when the record exists, with the pixmaps of the requested slot |
| ClientItem.ToolTipProperty | src/bin/client/item.rs:318-338 | ServiceUnknown without a record; no-property "ToolTip" when unset; else an empty icon name, its pixmaps, title and description |
| ClientItem.ForwardAction | src/bin/client/item.rs:194-229 | a user action is forwarded, tagged with the record's id, exactly when the record exists |
| ClientItem.ForwardedActionRouted | src/bin/client/item.rs:194-229 | a forwarded action reaches the agent-side item its id names, and is dropped exactly when the id names none |
| ClientItem.GetGroupProperties | src/bin/client/item.rs:360-390 | every id gets every requested property, in order; an empty result and a failed property read are errors |
| ClientItem.NotContainedMembers | src/bin/client/item.rs:420-429 | the not-found list holds exactly the ids the record does not contain |
| ClientItem.EventGroup | src/bin/client/item.rs:410-436 | the result lists the ids not contained; every contained id's event was delivered; no contained id is an error |
| ClientItem.InvalidatedMembers | src/bin/client/item.rs:445-454 | the invalidated list holds exactly the contained ids whose entry asked to be refreshed |
| ClientItem.AboutToShowGroup | src/bin/client/item.rs:440-463 | the result is the refreshed contained ids and the ids not contained; no contained id is an error |
| ClientItem.NothingContained | src/bin/client/item.rs:445-458 | when no id is contained, every id is reported not found |
| ClientItem.StubsContainNothing | src/bin/client/item.rs:132-134 | the record's stub contains no entry, so both group calls end in their nothing-found error |
| Client.ParseDest | src/bin/client.rs:23-64 | a parsed id is at least 1 and the destination is prefix, its decimal and suffix |
| Client.ParseDestOfPrinted | src/bin/client.rs:23-64 | parsing a printed id gives it back; id 0 is refused |
| Client.ParseDestIff | src/bin/client.rs:23-64 | `parse_dest` gives n exactly for the strings that print n (n at least 1) |
| Client.ObjectPathIsBusPath | src/bin/client.rs:182 | the exported object path is the item's bus path without its NUL, a valid object path |
| Client.ObjectPath | src/bin/client.rs:182 | the path of item id's object: a method call on it selects the item, and path "/0/..." selects none |
| Client.ItemBusName | src/bin/client.rs:106 | the name requested for an item is a well-formed well-known bus name |
| Client.ItemBusNamesDistinct | src/bin/client.rs:106 | distinct items of one process request distinct names |
| Client.RegisteredItemAsWritten | src/bin/client.rs:192-194 | as written, a watcher splits the registration into the item's bus name and the path "/<id>", which selects no item |
| Client.RegisteredItem | src/bin/client.rs:177-194 | corrected registration: a watcher splits it into the item's bus name and its object's path, which selects the item |
| Client.AsWrittenRegistrationNamesNoObject | src/bin/client.rs:177-194 | as written, the registered path is never an exported object |
| Client.Emit | src/bin/client.rs:230-259 | one signal per item signal, in order, all on the same path |
| Client.StoreIcon | src/bin/client.rs:230-265 | storing succeeds exactly for Normal, Attention and Overlay (Title and Status have no arm); the slot for the type then holds the list, the other two slots and every other field stay; one signal for a removal, two for a new list |
| Client.UpdateFields | src/bin/client.rs:199-280 | the same per-event frame as the daemon's: each event changes only its own field or slot, a new icon list is stored painted and a tooltip's bitmaps as received; it panics exactly for an icon event naming Title or Status, a bitmap list the painting refuses, or EnableMenu |
| Client.ApplyEvent | src/bin/client.rs:105-293 | only a Create moves the last index or registers anything; the registrations and the emitted signals only grow |
| Client.AfterCreate | src/bin/client.rs:107-194 | the Create arm as written: the item, its object and its name exist; its app id is the hash behind the hyphenated prefix; one registration is appended, whose path selects no item |
| Client.AfterCreateCorrected | src/bin/client.rs:107-194 | the Create arm corrected: the exported app id is sanitised (at most 255 name characters and dots), and the appended registration splits into the item's bus name and its object's path, which selects the item |
| Client.Replay | src/bin/client.rs:103-295 | along a run of events the last index never goes down, and registrations and signals are only appended |
| Client.CreateKeepsConsistent | src/bin/client.rs:107-194 | an accepted Create, whatever app id it exports and whatever it registers, keeps ids at most the last, every item with its object and name, every object live and every icon, attention and overlay bitmap framed |
| Client.DestroyKeepsConsistent | src/bin/client.rs:281-291 | Destroy keeps the client consistent |
| Client.UpdateKeepsConsistent | src/bin/client.rs:195-279 | an update of framed fields keeps the client consistent |
| Client.UpdateFieldsKeepsFrames | src/bin/client.rs:206-260 | new bitmaps are stored only after being framed |
| Client.ApplyKeepsConsistent | src/bin/client.rs:103-295 | every event that does not panic keeps the client consistent |
| Client.ApplyTouchesOnlyItsItem | src/bin/client.rs:195-293 | an event changes at most the item whose id it carries |
| Client.CreateExportsItem | src/bin/client.rs:107-194 | as written, an accepted Create stores the item with its hashed app id and its menu, exports its object, owns its name and registers "<name>/<id>", whose path is no exported object |
| Client.CorrectedCreateReachesItem | src/bin/client.rs:177-194 | with the Create arm corrected, the client stays consistent and the registered item string leads to an owned name and an exported object whose path selects the new item |
| Client.DestroyRemovesItem | src/bin/client.rs:281-291 | Destroy removes the item, its object and its name; a later event for it panics |
| Client.ReplayKeepsConsistent | src/bin/client.rs:103-295 | a run of events that does not panic keeps the client consistent |
| Client.StreamEvents | src/bin/client.rs:305-315 | the values `main` decodes, in order, up to the first failure; no more values than bytes |
| Client.RecordViews | src/bin/client.rs:175-176 | the records' views are kept under the same ids |
| Client.ClientServer.constructor | src/bin/client.rs:298-316 | the client starts with last index 0 and no items, objects, names, registrations or signals |
| Client.ClientServer.HandleMethodCall | src/bin/client.rs:82-94 | a call on an item's path selects that id; any other path leaves the selection; nothing else changes |
| Client.ClientServer.HandleEvent | src/bin/client.rs:105-293 | the loop body panics exactly when ApplyEvent does, with the same reason; otherwise the new state is ApplyEvent's |
| Client.ClientServer.CreateItem | src/bin/client.rs:107-194 | the new state is AfterCreate's (the Create arm as written), with a fresh record under the id |
| Client.ClientServer.DestroyItem | src/bin/client.rs:281-291 | the new state is the specified state after Destroy, and the record is gone |
| Client.ClientServer.UpdateItem | src/bin/client.rs:195-279 | a panicking update reports its reason; otherwise the fields change as specified and the signals are emitted |
| Client.ClientServer.Run | src/bin/client.rs:298-316 | the loop applies every decoded event in order, to the state ApplyEvent specifies, until the first panic |
| Client.ApplyToIcon | src/bin/client.rs:199-280 | the setters leave the record's fields as UpdateFields specifies and return its signals (a new bitmap list is announced twice) |
| Client.SetSlot | src/bin/client.rs:230-259 | the setter for the icon type stores the list and returns its signal |
| Displayable.Utf8Len | vendor/qubes-utils-0.1.0/src/safely_displayable.rs:45 | a character takes 1 to 4 bytes of UTF-8, one exactly when it is ASCII |
| Displayable.Scan | vendor/qubes-utils-0.1.0/src/safely_displayable.rs:45-55 | a reported code point is refused by `safe`, occurs in the rest of the string, and lies at or past the starting offset |
| Displayable.TryFrom | vendor/qubes-utils-0.1.0/src/safely_displayable.rs:42-58 | an accepted string is wrapped unchanged; a refused one names a code point of the string that `safe` refuses |
| Displayable.ScanFindsNothing | vendor/qubes-utils-0.1.0/src/safely_displayable.rs:45-55 | the loop finds nothing exactly when every remaining code point is safe |
| Displayable.ScanReportsFirst | vendor/qubes-utils-0.1.0/src/safely_displayable.rs:45-55 | the loop reports the first unsafe code point, at its byte offset |
| Displayable.TryFromAccepts | vendor/qubes-utils-0.1.0/src/safely_displayable.rs:42-58 | a string is accepted, unchanged, exactly when every code point is safe; the empty string is accepted |
| Displayable.TryFromReportsFirstUnsafe | vendor/qubes-utils-0.1.0/src/safely_displayable.rs:42-58 | a refused string's error is its first unsafe code point and that code point's byte offset |
| Displayable.RefusedHasFirstUnsafe | vendor/qubes-utils-0.1.0/src/safely_displayable.rs:45-55 | a string with an unsafe code point has a first one |
| Displayable.ByteOffsetBounds | vendor/qubes-utils-0.1.0/src/safely_displayable.rs:45 | the byte offset of character k is between k and 4k, and equals k on ASCII text |
| Displayable.SmileyRefused | vendor/qubes-utils-0.1.0/src/lib.rs:14-22 | U+1F642, when refused, is reported with that code point at offset 0 |
| Markup.SimpleMarkup.constructor | vendor/qubes-utils-0.1.0/src/simple_markup.rs:17-20 | new markup is empty |
| Markup.SimpleMarkup.AppendEscaped | vendor/qubes-utils-0.1.0/src/simple_markup.rs:47-59 | the escaped text goes at the end and what was there stays |
| Markup.SimpleMarkup.Push | vendor/qubes-utils-0.1.0/src/simple_markup.rs:50-57 | one character, or its entity when markup-significant, goes at the end |
| Markup.SimpleMarkup.Escape | vendor/qubes-utils-0.1.0/src/simple_markup.rs:42-46 | fresh markup holding exactly the escaped text |
| Markup.Escaped | vendor/qubes-utils-0.1.0/src/simple_markup.rs:49-58 | the markup of a whole text is never shorter than the text |
| Markup.Unescape | vendor/qubes-utils-0.1.0/src/simple_markup.rs:50-57 | the reading-back of markup, a reference inverse the library does not have: never longer than the markup |
| Markup.EscapedAppend | vendor/qubes-utils-0.1.0/src/simple_markup.rs:47-59 | escaping distributes over concatenation, so appending twice is escaping the joined text |
| Markup.EscapedPrefix | vendor/qubes-utils-0.1.0/src/simple_markup.rs:49-58 | one more turn of the loop appends the next character's entity |
| Markup.EscapedSnoc | vendor/qubes-utils-0.1.0/src/simple_markup.rs:49-58 | escaping one more character appends its entity |
| Markup.UnescapeEntity | vendor/qubes-utils-0.1.0/src/simple_markup.rs:50-57 | each character's markup reads back as that character, whatever follows |
| Markup.UnescapeEscaped | vendor/qubes-utils-0.1.0/src/simple_markup.rs:42-59 | reading escaped markup back gives exactly the original text |
| Markup.EscapedInjective | vendor/qubes-utils-0.1.0/src/simple_markup.rs:42-59 | different texts escape to different markup |
| Markup.EscapedHasNoDelimiters | vendor/qubes-utils-0.1.0/src/simple_markup.rs:50-57 | no `<`, `>`, `"` or `'` survives escaping, and the only significant character left is `&` |
| Markup.EscapedLength | vendor/qubes-utils-0.1.0/src/simple_markup.rs:50-57 | escaping never shortens text, and leaves text without significant characters unchanged |
| Markup.AmpersandStartsEntity | vendor/qubes-utils-0.1.0/src/simple_markup.rs:50-57 | an `&` in escaped text opens one of the five entities |
| Markup.EscapedAmpersandsAreEntities | vendor/qubes-utils-0.1.0/src/simple_markup.rs:50-57 | every `&` in escaped text opens one of the five entities |

## Left out

- Standard input and output, the D-Bus connection, its method calls and its
  signals are not modelled as I/O. Bytes read are a `seq<u8>` argument.
  Events sent, calls made, signals emitted and names owned are state fields
  that the methods extend.
- The serialisation codecs are a decoder parameter. This covers bincode 2 in
  `server.rs`, and bincode 1 with fixed-width integers and
  `reject_trailing_bytes` in `sni-agent.rs` and `sni-daemon.rs`. The
  round-trip lemmas assume only that the decoder reads back what was encoded.
- SHA-256 and the C library's code-point check are function parameters.
- Concurrency is not modelled. The tokio tasks, the spawned refresh in
  `handle_cb` and the mutexes become a sequential model. `handle_cb` is split
  into its synchronous part (BeginSignal) and the start and end of the
  spawned refresh (StartRefresh, FinishRefresh), which may interleave with
  any other step.
- `go`'s D-Bus property reads are an `ItemProperties` argument, and the
  pixmap reads of a refresh are a `Fetched` argument.
- The `request_name`, `release_name` and watcher-registration failures are
  not modelled. Their `expect`/`unwrap` panics are left out; the steps are
  modelled as succeeding.
- A non-exhaustive `match` is a panic reason in the model. This covers
  `EnableMenu` in both proxies and Title or Status as an Icon type.
- Arithmetic overflow in the border painting is a panic, as in a debug
  build, and is the `FramedIcon` None case.
- The client (`client.rs`) does not read framed input. Its `main` decodes
  values one after another straight from standard input.
  `Client.StreamEvents` models this with the decoder reporting how many
  bytes it consumed; decoding stops at the first failure.
- `client.rs` and `client/item.rs` disagree on signatures:
  - `lib.rs` and `client.rs` name the Create event's menu flag `has_menu`,
    while `server.rs`, `sni-agent.rs` and `sni-daemon.rs` write it as
    `is_menu`, a field `lib.rs` does not declare;
  - it passes a `bool` where `NotifierIcon::new` takes an optional menu.
  
  The model takes the field as the Create event's menu flag and turns it
  into an empty menu (`Client.MenuOf`).
- The daemon's item type, `src/bin/sni-daemon/item.rs`, is not part of this
  model. The daemon's items are the `DaemonIcon` values the event loop
  hands to them.
- Menus are not modelled beyond the stubs of `client/item.rs`:
  - the `NotifierIcon` methods `get_layout`, `get_property`,
    `about_to_show` and `event` always fail; the D-Bus `Event` method does
    not call `event` and succeeds for a live item (`ClientItem.MenuEvent`);
  - `contains_id` is always false;
  - the dbusmenu `version`, `text_direction`, `status` and
    `icon_theme_path` properties are constants and are not modelled.
- The `*_name` properties of `client/item.rs` always fail and are not
  modelled. These are `icon_theme_path`, `icon_name`, `overlay_icon_name`,
  `attention_icon_name` and `attention_movie_name`.
- `SafelyDisplayable` does not carry its invariant in the datatype. The
  datatype only wraps the text, and the invariant is what `TryFrom`'s
  lemmas prove of the strings it accepts.
- `Display`, `Deref` and `From` of `SafelyDisplayable` and `SimpleMarkup`
  hand back the wrapped string unchanged. They are the `text` and `data`
  fields.
- Object paths, bus names and interface names are measured in characters,
  not bytes. They agree for the ASCII names of this model. The 255 limit is
  on characters.
- `eprintln!` diagnostics are not modelled.
- AgentRegistry.RouteAll: the contract states which calls are made, and how
  many, but not their order, which follows the order of the actions.
- AgentRegistry.GoDecision: a counter at its largest value is the failure
  `IdOverflow`. The source's unchecked `id.get() + 1` (src/bin/server.rs:498)
  panics there in a debug build and wraps to 0 in a release build; neither
  is modelled.
- AgentRegistry.Registry.BeginSignal, StartRefresh and FinishRefresh take a
  `Handling` argument. `AsWritten` is the program's lookup key (sender
  followed by path) and completion (`!flag | state`). `Corrected` is the key
  and completion of the second and first Findings rows. Only the `AsWritten`
  instance is the program's behaviour.
- AgentRegistry.Registry.FinishRefresh: the icon branch
  (src/bin/server.rs:316-357) is modelled for every icon flag, although
  `handle_cb` is subscribed only to NewTitle and NewStatus
  (src/bin/server.rs:431-447), so that branch never runs. Its `Fetched`
  argument stands for the `icon_pixmap()` read, which the source makes
  whichever of the three icon types was signalled.
- AgentRegistry.Registry.Go: a call is one atomic step. In the source, the
  awaits for the property reads (src/bin/server.rs:533-537) come after the
  Create and Status events are sent and the maps are filled, so
  `handle_name_lost` can send Destroy before the icon events. The daemon
  then panics on the next event for the removed id
  (src/bin/sni-daemon.rs:164, `Daemon.DestroyThenEventPanics`). The model
  never produces this interleaving.
- AgentRegistry.SignalKey: the corrected key is the bare sender. It still
  misses an item registered under a well-known name, since the watcher keeps
  the name it was given (src/bin/server.rs:120) while signals carry the
  unique name. It also cannot tell apart two items that share a connection.
- Client.UpdateFields: the client's Tooltip arm (src/bin/client.rs:266-276)
  stores its bitmaps unframed, as the daemon's does; it is modelled as
  written, and the painted variant is stated for the daemon only
  (`Daemon.UpdateIconFramingTooltips`).
- Messages.CheckInsertion: the checks come from the doc comment on
  `DBusMenuEntry` (src/lib.rs:24-31), which no code in these sources
  implements. Refusing a separator is a choice of this model, since a
  separator has none of the checked fields.

## Findings

| source | as written | input that shows it | evidently intended | confidence | as-written member | corrected member |
|---|---|---|---|---|---|---|
| src/bin/server.rs:290 | `handle_cb` looks the signal's item up under the sender's name followed by the object path | any signal from a registered item: the key "`:1.5/StatusNotifierItem`" holds a '/', but every map key is a bare bus name | look the item up under the key `go` inserted, the bus-name part of the registered item; the bare sender (the corrected key) is that key only for items registered under their unique name, one per connection | not executed | AgentRegistry.SignalKeyAsWrittenNeverFound | AgentRegistry.SignalKey |
| src/bin/server.rs:365 | a finished Title refresh sets the mask to `!flag \| state` | mask 16 (Title pending), flag Title: the new mask is 0xFF, so every later signal of that item is dropped | `!flag & state`, as the icon branch at line 323 does | not executed | AgentRegistry.TextCompletionAsWrittenBlocksAll | AgentRegistry.TextCompletionReopens |
| src/bin/client.rs:114-115 | the plain app-id prefix is "org.qubes-os.vm.app-id." | any app id, e.g. "firefox": "org.qubes-os.vm.app-id.firefox" holds '-', which no interface name allows, so it is always hashed | an interface-name prefix, as the daemon's "org.qubes_os.vm.app_id." | not executed | ProxyCommon.ClientAlwaysHashes | Client.AfterCreateCorrected |
| src/bin/client.rs:192-194 | the client registers "`<name>/<id>`" with the watcher | id 1: the watcher splits it into the bus name and path "/1", but the object is at "/1/StatusNotifierItem" | register "`<name>/<id>/StatusNotifierItem`", the exported object's path | not executed | Client.CreateExportsItem | Client.CorrectedCreateReachesItem |
| src/bin/sni-daemon.rs:216-226 | the Tooltip arm stores `icon_data` as received, while every Icon event's bitmaps are first painted with the two-pixel frame (the client does the same at src/bin/client.rs:266-276) | a Tooltip event with a blank 2×2 bitmap: the item then holds that bitmap without the frame, and exports it through the ToolTip property | paint the tooltip's bitmaps as an Icon event's, so that no guest bitmap reaches the host unframed | not executed | Daemon.TooltipBitmapStoredUnframed | Daemon.UpdateIconFramingTooltips |
