# midisocket routing core in Dafny

midisocket lets phones join a browser "sequencer" page as tracks. Each track
sends MIDI messages, and the sequencer forwards them to Web MIDI output ports.
This project models the sequencer side of that path and proves properties of
the model:

- **RoutingMatrix** (`routing_matrix.dfy`, module `Routing`) keeps two keyed
  tables. One records which track slots are present. The other records where
  each track is routed: device, channel, enabled flag, channel lock, volume and
  transposition.
- **MidiRouter** (`midi_router.dfy`, module `Router`) decides and delivers. It
  transforms a track's message by clamped transposition and by Note-On and CC7
  volume scaling. It then checks the track, the routing and the device, sends
  on the routed channel, and keeps three counters. It also sends the per-track
  panic messages and validates message shapes.
- **MidiDeviceManager** (`midi_device_manager.dfy`, module `Devices`) holds the
  output and input port tables. It rewrites the status byte's channel nibble,
  gates sends on a connected port, and sends the sixteen-channel panic burst.
- **DeviceConfiguration** (`device_configuration.dfy`, module `DeviceDirectory`)
  is the user's directory of custom devices, with the DOM taken away. It
  covers form validation and device creation or edit, interface and channel
  updates, removal, and the push of a device's channel into the routing matrix.
  It also covers the migration of stored records and the bounded controller
  selection.
- **Track helpers** (`track.js`, module `TrackControls`, `track.dfy`) cover the
  discrete range parser, normalisation of controller records, the slider
  maximum and default, and the Control Change message a track sends.

Two shared modules support these. `OrderedMaps` (`ordered_maps.dfy`) models a
JavaScript `Map` as an insertion-ordered list of key/value pairs with distinct
keys. `Common` (`common.dfy`) holds bytes and the JavaScript string and number
conversions the code relies on: `trim`, `split`, `parseInt`, integer
formatting, `toLowerCase` on ASCII and `Uint8Array` conversion.

Modelling conventions:

- Objects whose fields the source mutates are Dafny classes with `modifies`
  clauses.
- A `Map` field is a sequence the methods reassign.
- The change callbacks of the matrix become an appended event log (`events`).
- Everything sent to a port becomes an appended log (`sent`).
- Track ids are slot numbers (`nat`). `parseInt(trackId) + 1` is therefore
  `id + 1`.
- `importConfig` rebuilds its maps from `Object.entries`, which lists
  integer-like keys in ascending order. The model rebuilds them the same way.
- `Math.round(p / 127)` is the exact integer `(2p + 127) / 254`, using floor
  division.
- `x & 0x0F` is `x % 16`, and `0xB0 | channel` is modelled bit by bit on the
  low byte.

Behaviour stated as written (the model follows the code):

- `getMatrixData` shows a stored volume of 0 as 127 (`volume || 127`).
- The slider range regex `/(\d+).*?(\d+)/` matches the two digits of a lone
  number "64", so the slider maximum is 4 (`SliderMaxOfLoneNumber`).
- `sendControlChange` with channel 16 produces a Program Change status byte
  (`CcMessageChannelOverflow`).
- A device that is not found leaves `notifyTracksOfDeviceChange` without any
  update.

## Model

Functions that only compute, such as `Route`, `MatchOption`, `SliderMax`,
`Migrate`, `CheckForm` and `SelectController`, have no row of their own. The
lemmas about them cite the same source lines and carry their properties.

| member | source | states |
|---|---|---|
| Common.Clamp7 | scripts/midiRouting.js:96-99 | `Math.max(0, Math.min(127, x))` lies in 0..127, is x inside that range, 0 below it and 127 above it |
| Common.ToUint8 | scripts/midiRouting.js:158 | storing an integer in a Uint8Array keeps a byte value and is congruent to it modulo 256 |
| Common.SplitCount | scripts/track.js:418 | `split(',')` yields one more part than there are commas |
| Common.ParseIntOfIntToString | scripts/deviceConfiguration.js:634 | `parseInt` gives back the integer a decimal id was written from |
| OrderedMaps.Lookup | scripts/routingMatrix.js:76 | `Map.get` finds a value exactly when the key is present |
| OrderedMaps.Put | scripts/routingMatrix.js:106 | `Map.set` keeps the length for a present key, appends an absent one, and adds the key to the key set |
| OrderedMaps.PutAt | scripts/routingMatrix.js:106 | setting a present key rewrites its pair where it stands, so iteration order is kept |
| OrderedMaps.PutDistinct | scripts/routingMatrix.js:106 | `set` keeps keys distinct |
| OrderedMaps.PutLookup | scripts/routingMatrix.js:106 | after `set(k, v)`, `get(k)` is v and every other key reads as before |
| OrderedMaps.Remove | scripts/routingMatrix.js:57 | `Map.delete` removes exactly that key and changes nothing for an absent key |
| OrderedMaps.RemoveKeeps | scripts/routingMatrix.js:57 | `delete` leaves every other key's value alone |
| OrderedMaps.RemoveDistinct | scripts/routingMatrix.js:57 | `delete` keeps keys distinct |
| OrderedMaps.ToMap | scripts/routingMatrix.js:297-298 | `Object.fromEntries` has the same keys and values as the map |
| Routing.MergeLaws | scripts/routingMatrix.js:83-86 | spreading an empty patch changes nothing, and spreading the same patch twice is spreading it once |
| Routing.TracksOnMembers | scripts/routingMatrix.js:170-196 | a track is listed exactly when its routing is enabled on that device, and on that channel when one is given |
| Routing.InsertRowProps | scripts/routingMatrix.js:286 | inserting one row into sorted rows keeps them sorted and adds exactly that row |
| Routing.SortRows | scripts/routingMatrix.js:286 | the sort returns rows ascending by track number that are a permutation of its input |
| Routing.SumPut | scripts/routingMatrix.js:363-364 | setting a count changes the sum of counts by the new minus the old value |
| Routing.BumpProps | scripts/routingMatrix.js:363-364 | `set(d, (get(d) or 0) + 1)` adds one to d's count only and one to the total, keeping keys distinct |
| Routing.UsageProps | scripts/routingMatrix.js:360-366 | deviceUsage lists each device once, with the number of routed entries on it, and the counts sum to routedTracks |
| Routing.EntriesAscending | scripts/routingMatrix.js:310-315 | `new Map(Object.entries(obj))` lists every key once, ascending, with its value |
| Routing.RoutingMatrix.constructor | scripts/routingMatrix.js:7-13 | both tables start empty and maxTracks is 100 |
| Routing.RoutingMatrix.AddTrack | scripts/routingMatrix.js:22-48 | the presence is set; the default routing `{null, 0, false, false, 127, 0}` is appended only when the track had none; an existing routing is kept; an "added" notification is logged |
| Routing.RoutingMatrix.RemoveTrack | scripts/routingMatrix.js:54-67 | only the presence entry is deleted and the routing survives; an absent track changes nothing and sends no notification |
| Routing.RoutingMatrix.UpdateRouting | scripts/routingMatrix.js:75-115 | it succeeds exactly when the track has a routing and the merged entry has channel 0..15, volume 0..127 and transpose -24..24; on success the stored entry is the merge and one notification is logged; otherwise nothing changes and no entry is created |
| Routing.RoutingMatrix.SetTrackEnabled | scripts/routingMatrix.js:237-239 | it is `updateRouting` with only `enabled` given: it succeeds exactly when the track has a routing that stays in range, and then the entry gets the new flag and one change notification is logged; otherwise nothing changes |
| Routing.RoutingMatrix.UpdateTrackStatus | scripts/routingMatrix.js:246-257 | a present track gets the new status in place and an "updated" notification; an absent one changes nothing |
| Routing.RoutingMatrix.GetRouting | scripts/routingMatrix.js:122-124 | null exactly for a track without routing, otherwise the stored entry |
| Routing.RoutingMatrix.GetTrack | scripts/routingMatrix.js:139-141 | null exactly for an absent track, otherwise its presence |
| Routing.RoutingMatrix.FindTrackBySocketId | scripts/routingMatrix.js:156-163 | null exactly when no present track has that socket id, otherwise the first such track in insertion order |
| Routing.RoutingMatrix.GetTracksForDevice | scripts/routingMatrix.js:170-178 | the ids of enabled routings on the device, in map order |
| Routing.RoutingMatrix.GetTracksForDeviceChannel | scripts/routingMatrix.js:186-196 | the ids of enabled routings on the device and channel, in map order |
| Routing.RoutingMatrix.IsDeviceChannelAvailable | scripts/routingMatrix.js:205-215 | false exactly when a routing of another track is enabled on that device and channel |
| Routing.RoutingMatrix.GetNextAvailableChannel | scripts/routingMatrix.js:222-229 | the lowest free channel in 0..15, or -1 exactly when all sixteen are occupied |
| Routing.RoutingMatrix.GetMatrixData | scripts/routingMatrix.js:263-289 | one row per present track and none for routing-only tracks, sorted by `parseInt(trackId) + 1`, a permutation of the rows built in map order |
| Routing.RoutingMatrix.ExportConfig | scripts/routingMatrix.js:295-301 | both objects have the tables' keys and values |
| Routing.RoutingMatrix.ImportConfig | scripts/routingMatrix.js:308-322 | each given table is replaced by its entries in ascending key order, and an absent one is kept |
| Routing.RoutingMatrix.Clear | scripts/routingMatrix.js:327-331 | both tables become empty |
| Routing.RoutingMatrix.GetStats | scripts/routingMatrix.js:353-374 | the totals, the connected count, the routed count and deviceUsage, whose counts sum to routedTracks |
| Router.Round127Nearest | scripts/midiRouting.js:104 | the integer form of `Math.round(p / 127)` is within half a unit of p/127, with halves rounded up |
| Router.Round127Monotone | scripts/midiRouting.js:104 | the rounding is monotone |
| Router.ScaleVolumeBounds | scripts/midiRouting.js:104-106 | volume scaling of a data byte never raises it, and volume 127 keeps it |
| Router.ProcessMessage | scripts/midiRouting.js:84-122 | the result has the input's length and status byte, bytes after the third are unchanged, and the empty or short message is returned as is |
| Router.ProcessIdentity | scripts/midiRouting.js:92-119 | with transpose 0 and volume 127 the bytes pass unchanged |
| Router.ProcessNote | scripts/midiRouting.js:92-108 | the note of a Note On or Off becomes `clamp(note + transpose)` when transpose is not 0; Note On velocity is scaled when volume is not 127; Note Off velocity never changes |
| Router.ProcessControlChange | scripts/midiRouting.js:112-119 | only controller 7's value is scaled, and the controller number is kept |
| Router.ProcessOtherTypes | scripts/midiRouting.js:84-121 | messages of any other type are returned unchanged |
| Router.TransposeRoundTrip | scripts/midiRouting.js:95-100 | transposing by k and then by -k restores a note that stays in range |
| Router.ValidateMessage | scripts/midiRouting.js:237-269 | empty is invalid; status ≥ 0xF0 is valid; status < 0x80 is invalid; channel messages need 3 bytes, except 0xC0 and 0xD0, which need 2 |
| Router.ValidityPreserved | scripts/midiRouting.js:84-122 | neither the byte transform nor the channel rewrite changes whether a message is valid |
| Router.RouteCases | scripts/midiRouting.js:26-76 | a message is dropped exactly when the track is absent or not connected, or the routing is absent, disabled or has no device; it is delivered exactly when the port is present and connected; what is delivered is the processed message on the routed channel |
| Router.DeliveredLogLength | scripts/midiRouting.js:130-140 | one message is sent per counted success, and none for an inactive track |
| Router.TrackPanicLog | scripts/midiRouting.js:177-204 | a ready routing yields `[0xB0 or ch, 123, 0]` then `[0xB0 or ch, 120, 0]` to the routed device, and otherwise nothing |
| Router.AllTracksPanicShape | scripts/midiRouting.js:210-221 | two messages per panicked track, each a CC with value 0 sent to a connected port |
| Router.MidiRouter.constructor | scripts/midiRouting.js:7-17 | the three counters start at 0 |
| Router.MidiRouter.RouteMessage | scripts/midiRouting.js:26-76 | the result and the counter that moves follow the routing decision; exactly one of the three counters rises by one; only a delivered message is sent |
| Router.MidiRouter.RouteMessages | scripts/midiRouting.js:130-140 | the count is the number delivered, at most the number of messages, and the counters rise by the number of messages in all |
| Router.MidiRouter.SendTestMessage | scripts/midiRouting.js:149-170 | without an enabled routing to a device nothing is sent and no counter moves; otherwise the Note On goes through `routeMessage`: it is sent exactly when delivered, and messagesRouted, messagesDropped or routingErrors rises by one as it is delivered, dropped or fails |
| Router.MidiRouter.SendTrackPanic | scripts/midiRouting.js:177-204 | it succeeds exactly when the routing has a device that is present and connected, and it sends the track's panic pair without processing it |
| Router.MidiRouter.SendAllTracksPanic | scripts/midiRouting.js:210-221 | it sends each present track's panic pair in map order and counts the tracks that got one, never more than the present tracks |
| Router.MidiRouter.HandleTrackDisconnect | scripts/midiRouting.js:227-230 | it sends the track's panic pair |
| Router.MidiRouter.GetStats | scripts/midiRouting.js:275-284 | the counters, the number of routed entries, the number of output ports and the connected ones among them |
| Router.MidiRouter.ResetStats | scripts/midiRouting.js:289-295 | the three counters return to 0 |
| Devices.WithChannel | scripts/midiDeviceManager.js:195-196 | `(status & 0xF0) or (ch & 0x0F)` keeps the status's high nibble and has low nibble `ch mod 16` |
| Devices.Rechannel | scripts/midiDeviceManager.js:185-199 | only a status byte in 0x80..0xEF gets the new channel; data bytes and length stay |
| Devices.RechannelLastWins | scripts/midiDeviceManager.js:193-197 | rewriting the channel twice is rewriting it once, to the last channel |
| Devices.RechannelSameChannel | scripts/midiDeviceManager.js:193-197 | rewriting to the channel a message already has changes nothing |
| Devices.PanicStatus | scripts/midiDeviceManager.js:214 | `0xB0 or channel` is a status byte from 0xB0 up whose low nibble is the channel mod 16, and `0xB0 + channel` for 0..15 |
| Devices.PanicUpToShape | scripts/midiDeviceManager.js:213-220 | the burst is CC123 then CC120, both with value 0, on channels 0..15 in order |
| Devices.PanicLogShape | scripts/midiDeviceManager.js:206-222 | a panic sends only to connected ports, only CC123 or CC120 with value 0, and at most 32 messages per target |
| Devices.IndexPortsLookup | scripts/midiDeviceManager.js:48-75 | the port table holds each id once, with the port enumerated last under that id |
| Devices.MidiDeviceManager.constructor | scripts/midiDeviceManager.js:7-13 | no ports, not initialised, nothing sent |
| Devices.MidiDeviceManager.Initialize | scripts/midiDeviceManager.js:19-42 | it succeeds exactly when the API is present and access is granted, and only then fills the tables and sets initialised |
| Devices.MidiDeviceManager.EnumerateDevices | scripts/midiDeviceManager.js:48-78 | both tables are cleared and refilled from the enumerated ports |
| Devices.MidiDeviceManager.GetOutputDevice | scripts/midiDeviceManager.js:139-142 | null exactly when the id is not in the outputs table |
| Devices.MidiDeviceManager.GetInputDevice | scripts/midiDeviceManager.js:149-152 | null exactly when the id is not in the inputs table |
| Devices.MidiDeviceManager.SendMidiMessage | scripts/midiDeviceManager.js:161-175 | it sends and returns true exactly when the port is present and connected; otherwise the log is unchanged |
| Devices.MidiDeviceManager.SendMidiMessageToChannel | scripts/midiDeviceManager.js:185-200 | the empty message is refused; otherwise a rechannelled copy is sent to a connected port, and the caller's bytes are not touched |
| Devices.MidiDeviceManager.PortSend | scripts/midiDeviceManager.js:195 | `device.send` appends one message to the log |
| Devices.MidiDeviceManager.PanicTargets | scripts/midiDeviceManager.js:207 | a truthy id is the only target; otherwise every output id, in map order |
| Devices.MidiDeviceManager.SendPanic | scripts/midiDeviceManager.js:206-223 | each target that is connected gets the 32-message burst, and the others get nothing |
| Devices.MidiDeviceManager.PanicPort | scripts/midiDeviceManager.js:209-221 | one target of `sendPanic`: the burst if it is connected, nothing otherwise |
| Devices.MidiDeviceManager.SendPanicBurst | scripts/midiDeviceManager.js:213-220 | the sixteen-channel loop sends the burst |
| Devices.MidiDeviceManager.GetStatus | scripts/midiDeviceManager.js:245-256 | the table sizes and connected counts, with connected ≤ count |
| DeviceDirectory.CheckFormCases | scripts/deviceConfiguration.js:298-334 | a form is skipped exactly when name, CC number and type are all falsy; it is accepted exactly when it is valid with an unused CC number |
| DeviceDirectory.CollectAccepts | scripts/deviceConfiguration.js:289-335 | the controller loop succeeds exactly when every non-skipped form is valid and their CC numbers are pairwise distinct |
| DeviceDirectory.CollectGood | scripts/deviceConfiguration.js:327-334 | every accepted controller is well formed (name, CC 0..127, type, continuous range "0-127", discrete range non-empty) and CC numbers are distinct |
| DeviceDirectory.CollectControllersGood | scripts/deviceConfiguration.js:289-335 | the submission's accepted controllers are well formed, distinct, and at most one per form |
| DeviceDirectory.CollectControllers | scripts/deviceConfiguration.js:289-335 | the loop over controller forms computes the collection's result, which is the first error or the controllers |
| Common.AsciiLowerChars | scripts/deviceConfiguration.js:281 | `toLowerCase` keeps the length, leaves no ASCII capital, maps each capital to its lower-case letter and keeps every other character |
| Common.AsciiLowerIdempotent | scripts/deviceConfiguration.js:281 | lower-casing twice is lower-casing once, so the name comparison sees lower-cased names as they are |
| DeviceDirectory.FirstSameName | scripts/deviceConfiguration.js:282 | the first device whose lower-cased name equals the lower-cased new name, or none exactly when no name matches |
| DeviceDirectory.FindDevice | scripts/deviceConfiguration.js:506 | the first device with that id, or none exactly when no device has it |
| DeviceDirectory.FindDeviceUpdate | scripts/deviceConfiguration.js:339-341 | editing the found device in place keeps it the one found |
| DeviceDirectory.SetInterfaceEffect | scripts/deviceConfiguration.js:505-509 | the found device records the interface, with status "configured" exactly when the interface is non-empty; every other device and every id is unchanged; unknown ids change nothing |
| DeviceDirectory.SetChannelEffect | scripts/deviceConfiguration.js:526-529 | the found device gets the channel, and every other device is unchanged |
| DeviceDirectory.RemoveById | scripts/deviceConfiguration.js:433-434 | exactly the devices without that id remain |
| DeviceDirectory.RemoveByIdAppend | scripts/deviceConfiguration.js:434 | `filter` works list piece by list piece, so the others keep their order |
| DeviceDirectory.SyncAllLocks | scripts/deviceConfiguration.js:566-582 | every enabled routing on "device:" + id gets channel `assignedChannel - 1` and is locked; the others are untouched; syncing again changes nothing |
| DeviceDirectory.ChannelAfterInterface | scripts/deviceConfiguration.js:505-519 | setting the interface leaves the channel that the notification pushes unchanged |
| DeviceDirectory.ChannelAfterSetChannel | scripts/deviceConfiguration.js:526-534 | after a channel update the notification pushes the new channel |
| DeviceDirectory.SyncDeviceRoutings | scripts/deviceConfiguration.js:563-582 | each routing in the snapshot is offered the update in turn; the table becomes the synced table and one notification is logged per updated entry |
| DeviceDirectory.MigrateAll | scripts/deviceConfiguration.js:710-722 | each stored record becomes a device with the defaults of lines 714-720 for falsy fields |
| DeviceDirectory.MigrateRequired | scripts/deviceConfiguration.js:711-720 | every migrated device has a non-empty name, color and status and a non-zero channel, and a non-zero id when ids are handed out from 1 |
| DeviceDirectory.MigrateSaveLoad | scripts/deviceConfiguration.js:710-722 | a migrated list survives saving and reloading unchanged |
| DeviceDirectory.LoadSaveRoundTrip | scripts/deviceConfiguration.js:710-722 | loading saved devices gives them back, as long as no field the migration treats as missing is falsy |
| DeviceDirectory.MaxId | scripts/deviceConfiguration.js:726 | `Math.max` of the ids is one of them and at least every one |
| DeviceDirectory.RemoveCc | scripts/deviceConfiguration.js:885 | `filter(cc => cc !== n)` removes every occurrence of n and keeps the rest |
| DeviceDirectory.RemoveCcNoDuplicates | scripts/deviceConfiguration.js:885 | removing keeps the selection duplicate-free |
| DeviceDirectory.SelectControllerBounded | scripts/deviceConfiguration.js:878-886 | the selection stays duplicate-free with at most 4 entries; checking adds the cc only if there is room; unchecking removes it; other ccs are unaffected |
| DeviceDirectory.GetStatusLabel | scripts/deviceConfiguration.js:595-602 | the labels table: "not_configured" reads "Not Configured", "configured" reads "Ready", "active" reads "Active", and any other status reads as itself |
| DeviceDirectory.DeviceConfiguration.constructor | scripts/deviceConfiguration.js:7-33 | no devices, nextDeviceId 1, nothing being edited |
| DeviceDirectory.DeviceConfiguration.BeginEdit | scripts/deviceConfiguration.js:773-783 | an existing device becomes the one being edited; an unknown id changes nothing |
| DeviceDirectory.DeviceConfiguration.HandleCreateDevice | scripts/deviceConfiguration.js:268-380 | a missing or blank name, a case-insensitive duplicate name (unless it is the device being edited) or the first bad controller form rejects the submission with no change; otherwise the device is created with the next id or the edited device is updated |
| DeviceDirectory.DeviceConfiguration.SaveDevice | scripts/deviceConfiguration.js:337-363 | a new device takes nextDeviceId, which then rises by 1, and is appended with interface "", channel 1 and status "not_configured"; an edit rewrites name, color and controllers; the edit state is cleared |
| DeviceDirectory.DeviceConfiguration.RemoveDevice | scripts/deviceConfiguration.js:433-442 | the devices with that id are removed and nothing else changes |
| DeviceDirectory.DeviceConfiguration.ReplaceDevice | scripts/deviceConfiguration.js:508-509 | the in-place edit of one device record, keeping its id |
| DeviceDirectory.DeviceConfiguration.UpdateDeviceInterface | scripts/deviceConfiguration.js:505-521 | the device list becomes the interface update, and the matrix gets the device's channel pushed to it |
| DeviceDirectory.DeviceConfiguration.UpdateDeviceChannel | scripts/deviceConfiguration.js:526-536 | the device list becomes the channel update, and the matrix gets the new channel pushed to it |
| DeviceDirectory.DeviceConfiguration.NotifyTracksOfDeviceChange | scripts/deviceConfiguration.js:541-590 | an unknown device changes nothing; otherwise the routings using "device:" + id are synced to its channel minus one |
| DeviceDirectory.DeviceConfiguration.GetDeviceConfig | scripts/deviceConfiguration.js:622-624 | `find`: the first device with that id, or undefined exactly when there is none |
| DeviceDirectory.DeviceConfiguration.GetDeviceInfo | scripts/deviceConfiguration.js:629-641 | a number is looked up as is; a string is looked up only with the "device:" prefix |
| DeviceDirectory.DeviceConfiguration.DeviceKeyRoundTrip | scripts/deviceConfiguration.js:629-637 | looking up "device:" + id finds the same device as the number id |
| DeviceDirectory.DeviceConfiguration.LoadConfiguration | scripts/deviceConfiguration.js:705-737 | nothing stored keeps the state; unparseable data empties the list; parsed data is migrated, and nextDeviceId becomes the largest id + 1 when there is any device; every id is below nextDeviceId afterwards |
| TrackControls.SplitAtColon | scripts/track.js:423 | `([^:]+):` splits at the first colon, with a non-empty head |
| TrackControls.MatchOptionWellFormed | scripts/track.js:423-437 | a matched option has a clean label and `midValue = floor((min + max) / 2)` |
| TrackControls.MatchOptionLabelFrom | scripts/track.js:423-426 | the label's characters come from the part |
| TrackControls.Options | scripts/track.js:418-440 | at most one option per comma part |
| TrackControls.OptionsStep | scripts/track.js:420-439 | one more part adds its match, if any, at the end |
| TrackControls.OptionsAppend | scripts/track.js:418-440 | parsing is done part by part, so options keep the input order |
| TrackControls.ParseDiscreteRange | scripts/track.js:411-443 | the forEach/push loop yields the options of the matching parts, and nothing for an empty or absent string |
| TrackControls.ParsedOptionsShape | scripts/track.js:411-443 | every option is well formed, no label contains a comma, and there are at most commas + 1 options |
| TrackControls.OptionsLabelsFrom | scripts/track.js:423-437 | options from comma-free parts are well formed and have comma-free labels |
| TrackControls.ReadBoundsOfRange | scripts/track.js:427-428 | " a-b" reads as the bounds (a, b) |
| TrackControls.ReadBoundsOfNumber | scripts/track.js:428 | " a" reads as the bounds (a, a) |
| TrackControls.MatchFormatted | scripts/track.js:423-437 | a well-formed option written as "Label: min-max" parses back to itself |
| TrackControls.SingleValueOption | scripts/track.js:428-431 | "Label: n" gives min = max = midValue = n |
| TrackControls.OptionsOfFormatted | scripts/track.js:418-440 | formatted options parse back to themselves, in order |
| TrackControls.ParseFormatRoundTrip | scripts/track.js:411-443 | writing options as "L: a-b, …" and parsing gives them back |
| TrackControls.MatchIgnoresLeadingSpace | scripts/track.js:421-423 | the part is trimmed before matching, so a leading space changes nothing |
| TrackControls.SecondNumberFrom | scripts/track.js:312 | the second run of `/(\d+).*?(\d+)/`, when there is one, is a non-empty digit string |
| TrackControls.SliderDefault | scripts/track.js:317 | the slider starts at `floor(max / 2)` |
| TrackControls.SliderMaxOfRange | scripts/track.js:310-316 | a range "a-b" gives the maximum b |
| TrackControls.SliderMaxOfLoneNumber | scripts/track.js:312-314 | a lone "64" gives the maximum 4, as the regex is written |
| TrackControls.NormalizeControllerData | scripts/track.js:194-220 | the custom format is renamed, with range "0-127" for continuous and the given range otherwise; the custom description is "name (type)"; the old format is returned unchanged; anything else gets the fallback record: name or "Unknown", `ccNumber || cc_number || 1`, type "continuous", range "0-127" and description "Unknown controller" |
| TrackControls.NormalizeIdempotent | scripts/track.js:194-220 | normalising twice is normalising once |
| TrackControls.DirectoryControllerRange | scripts/track.js:196-203 | a controller from the directory normalises to its stored range and CC number, and a continuous one gives a 0..127 slider |
| TrackControls.CcMessage | scripts/track.js:539 | the message is `[0xB0 + midiChannel, cc, value]` |
| TrackControls.CcMessageValid | scripts/track.js:537-546 | for channel 0..15 and 7-bit cc and value the message is a valid Control Change on that channel |
| TrackControls.CcMessageChannelOverflow | scripts/track.js:539 | channel 16 turns the status into a Program Change |
| TrackControls.TrackClient.constructor | scripts/track.js:4-8 | no socket id, channel -1, nothing emitted |
| TrackControls.TrackClient.OnConnect | scripts/track.js:51-62 | the socket id is recorded and one "request-track-assignment" naming it is emitted |
| TrackControls.TrackClient.OnTrackAssignment | scripts/track.js:75-87 | the channel is taken only from an assignment for this socket |
| TrackControls.TrackClient.SendControlChange | scripts/track.js:537-547 | nothing is emitted without a socket, an id or a channel; otherwise one CC message is emitted |

## Left out

- Web MIDI, socket.io and the DOM are not modelled. Ports are a table of records with a state, and every send is a log entry.
- `send` never throws in the model. The `try`/`catch` error paths of `routeMessage`, `sendMidiMessage` and `sendTrackPanic` are left out. The catch of `handleCreateDevice` (deviceConfiguration.js:376-379, "Failed to create device") is left out too: with typed fields no modelled step of it throws. The catch of `importConfig` is modelled: a missing config returns false and changes nothing.
- Timers are left out: the Note-Off 500 ms after `sendTestMessage` and the 100 ms retry of `notifyTracksOfDeviceChange`. A missing routing matrix is modelled as a null matrix that receives nothing.
- Timestamps are left out: `Date.now`, `lastActivity`, `createdAt`/`updatedAt`, the `performance.now()` arguments and the export timestamp.
- localStorage, JSON, Blob downloads and console logging are left out. Stored data reaches `LoadConfiguration` already parsed, and the absent and unparseable cases are explicit values.
- Change callbacks are not function fields. Every notification is appended to `events`, whether or not a callback is set.
- Arguments and fields are typed. JavaScript values of another type than the call expects (a string channel, NaN ids, an `undefined` socket id) are outside the model. The exception is the NaN a failed `parseInt` gives on a controller form, which is modelled as None.
- Strings are sequences of characters. `toLowerCase` folds the ASCII letters only. `trim` removes exactly the white space and line terminators of ECMA-262.
- Numbers are unbounded integers. The modelled paths have three fractional intermediates, each modelled exactly: `p / 127` under `Math.round`, and `(minValue + maxValue) / 2` (track.js:431) and `maxValue / 2` (track.js:317) under `Math.floor`, which become natural-number division.
- DeviceDirectory.GetStatusLabel: keys of `Object.prototype` such as "toString" look up an inherited function in the source. The model treats every unknown status as itself.
- DeviceDirectory.DeviceConfiguration.BeginEdit: `editingDevice` holds an object reference in the source. The model keeps the edited device's id and takes the first device with that id.
- DeviceDirectory.DeviceConfiguration.ReplaceDevice: the source edits the found record in place. The model writes the edited record back into the list, so aliasing is not modelled.
- `handleControllerSelection` works on `currentControllerSetupDevice`, which no shown code assigns. Its list logic is modelled as `SelectController` on the selection alone, without the device, the UI refresh or the notification.
- The controller forms are read by index `0..currentControllerCount-1`, and a removed form leaves a gap. The model takes the read field values as its input.
- `getRoutingInfo` (midiRouting.js:301-322), `getOutputDevicesList`/`getInputDevicesList`, `handleDeviceChange` and `setDeviceChangeCallback` are left out. They are display lists and event glue.
- `getAllRoutings` and `getAllTracks` return copies. Sequences are values here, so the snapshot `notifyTracksOfDeviceChange` iterates is simply the table as the loop begins.
- `maxTracks` is stored and never consulted, exactly as in the source.
- `getContrastColor` (track.js:175-189) is left out because it uses floating-point luminance.
- `midiInToSocket` and the rest of `track.js`'s page code are left out.
- The session registry lives in `scripts/sessionObj.js`. sessionObj.js is not part of this model.
- Devices.MidiDeviceManager.Initialize: the asynchronous permission request is a boolean parameter, and the `onstatechange` hook is left out.
