/** The routing engine (scripts/midiRouting.js): the byte transform applied to
    a track's MIDI message (transposition and volume scaling), the guarded
    pipeline that delivers it to the routed device on the routed channel, the
    panic helpers and the message validator. */
module Router {
  import opened Common
  import opened OrderedMaps
  import opened Routing
  import opened Devices

  // ---------------------------------------------------------------------
  // The byte transform

  /** Math.round(p / 127) for an integer p: Math.round(x) is floor(x + 1/2), and
      floor(p/127 + 1/2) == floor((2p + 127) / 254). */
  function Round127(p: int): int {
    (2 * p + 127) / 254
  }

  /** The result is within half a unit of p/127, halves rounding up. */
  lemma Round127Nearest(p: int)
    ensures 254 * Round127(p) - 127 <= 2 * p < 254 * Round127(p) + 127
  {
  }

  lemma Round127Monotone(p: int, q: int)
    requires p <= q
    ensures Round127(p) <= Round127(q)
  {
  }

  /** `Math.max(0, Math.min(127, Math.round(v * volume / 127)))`. */
  function ScaleVolume(v: int, volume: int): (r: int)
    ensures 0 <= r <= 127
  {
    Clamp7(Round127(v * volume))
  }

  /** Scaling never raises a value, and full volume keeps it. */
  lemma ScaleVolumeBounds(v: int, volume: int)
    requires 0 <= v <= 127 && 0 <= volume <= 127
    ensures 0 <= ScaleVolume(v, volume) <= v
    ensures volume == 127 ==> ScaleVolume(v, volume) == v
  {
    ScaleLimit(v, volume);
    Round127Monotone(v * volume, 127 * v);
    Round127Exact(v);
  }

  lemma ScaleLimit(v: int, volume: int)
    requires 0 <= v && volume <= 127
    ensures v * volume <= 127 * v
  {
  }

  /** Full scale rounds back to the value itself. */
  lemma Round127Exact(v: int)
    ensures Round127(127 * v) == v
  {
    assert 2 * (127 * v) + 127 == 254 * v + 127;
  }

  /** `statusByte & 0xF0` for a byte. */
  function MessageType(status: Byte): int {
    status / 16 * 16
  }

  /** `processMessage`: a fresh copy of the message with transposition and
      volume applied; the empty message is returned as it is. */
  function ProcessMessage(m: seq<Byte>, routing: RoutingEntry): (out: seq<Byte>)
    ensures |out| == |m|
    ensures |m| > 0 ==> out[0] == m[0]
    ensures forall i :: 3 <= i < |m| ==> out[i] == m[i]
    ensures |m| < 3 ==> out == m
  {
    if |m| == 0 then m
    else
      var messageType := MessageType(m[0]);
      if messageType == 0x90 || messageType == 0x80 then
        if |m| >= 3 then
          var m1 := if routing.transpose != 0 then m[1 := Clamp7(m[1] + routing.transpose)] else m;
          if messageType == 0x90 && routing.volume != 127 then m1[2 := ScaleVolume(m1[2], routing.volume)] else m1
        else m
      else if messageType == 0xB0 then
        if |m| >= 3 && m[1] == 7 && routing.volume != 127 then m[2 := ScaleVolume(m[2], routing.volume)] else m
      else m
  }

  /** No transposition and full volume: the bytes pass unchanged. */
  lemma ProcessIdentity(m: seq<Byte>, routing: RoutingEntry)
    requires routing.transpose == 0 && routing.volume == 127
    ensures ProcessMessage(m, routing) == m
  {
  }

  /** Note On/Off: the note is shifted and clamped; Note On velocity is scaled,
      Note Off velocity is never touched. */
  lemma ProcessNote(m: seq<Byte>, routing: RoutingEntry)
    requires |m| >= 3 && (MessageType(m[0]) == 0x80 || MessageType(m[0]) == 0x90)
    ensures ProcessMessage(m, routing)[1] == (if routing.transpose != 0 then Clamp7(m[1] + routing.transpose) else m[1])
    ensures MessageType(m[0]) == 0x80 ==> ProcessMessage(m, routing)[2] == m[2]
    ensures MessageType(m[0]) == 0x90 ==>
      ProcessMessage(m, routing)[2] == (if routing.volume != 127 then ScaleVolume(m[2], routing.volume) else m[2])
  {
  }

  /** Control Change: only controller 7 (channel volume) is scaled. */
  lemma ProcessControlChange(m: seq<Byte>, routing: RoutingEntry)
    requires |m| >= 3 && MessageType(m[0]) == 0xB0
    ensures ProcessMessage(m, routing)[1] == m[1]
    ensures ProcessMessage(m, routing)[2] ==
      (if m[1] == 7 && routing.volume != 127 then ScaleVolume(m[2], routing.volume) else m[2])
  {
  }

  /** Every other message type passes unchanged. */
  lemma ProcessOtherTypes(m: seq<Byte>, routing: RoutingEntry)
    requires |m| > 0 && MessageType(m[0]) != 0x80 && MessageType(m[0]) != 0x90 && MessageType(m[0]) != 0xB0
    ensures ProcessMessage(m, routing) == m
  {
  }

  /** Transposing up by k and back down by k restores a note that did not hit
      the clamp. */
  lemma TransposeRoundTrip(m: seq<Byte>, routing: RoutingEntry, k: int)
    requires |m| >= 3 && (MessageType(m[0]) == 0x80 || MessageType(m[0]) == 0x90)
    requires m[1] <= 127 && routing.volume == 127 && 0 <= m[1] + k <= 127
    ensures ProcessMessage(ProcessMessage(m, routing.(transpose := k)), routing.(transpose := -k)) == m
  {
    var up := ProcessMessage(m, routing.(transpose := k));
    ProcessNote(m, routing.(transpose := k));
    assert up[0] == m[0] && up[2] == m[2] && up[1] == m[1] + k;
    var down := ProcessMessage(up, routing.(transpose := -k));
    ProcessNote(up, routing.(transpose := -k));
    assert down[1] == m[1] && down[2] == m[2];
    assert down == m;
  }

  // ---------------------------------------------------------------------
  // Validation

  /** `validateMessage`: a status byte, and enough data bytes for its type. */
  function ValidateMessage(m: seq<Byte>): (valid: bool)
    ensures |m| == 0 ==> !valid
    ensures |m| > 0 && m[0] >= 0xF0 ==> valid
    ensures |m| > 0 && m[0] < 0x80 ==> !valid
    ensures valid && m[0] < 0xF0 ==> |m| >= 2
    ensures |m| >= 3 && m[0] >= 0x80 ==> valid
    ensures |m| == 2 && 0x80 <= m[0] < 0xF0 ==> (valid <==> MessageType(m[0]) == 0xC0 || MessageType(m[0]) == 0xD0)
  {
    if |m| == 0 then false
    else if m[0] >= 0xF0 then true
    else if m[0] >= 0x80 then
      var messageType := MessageType(m[0]);
      if messageType == 0x80 || messageType == 0x90 || messageType == 0xA0 || messageType == 0xB0 || messageType == 0xE0 then
        |m| >= 3
      else if messageType == 0xC0 || messageType == 0xD0 then
        |m| >= 2
      else false
    else false
  }

  /** Neither the transform nor the channel rewrite changes whether a message is valid. */
  lemma ValidityPreserved(m: seq<Byte>, routing: RoutingEntry, channel: int)
    requires |m| > 0
    ensures ValidateMessage(ProcessMessage(m, routing)) == ValidateMessage(m)
    ensures ValidateMessage(Rechannel(m, channel)) == ValidateMessage(m)
  {
    var r := Rechannel(m, channel);
    if IsChannelStatus(m[0]) {
      assert MessageType(r[0]) == MessageType(m[0]);
    }
  }

  // ---------------------------------------------------------------------
  // The routing pipeline

  /** Where one call of `routeMessage` ends. */
  datatype Outcome =
    | Dropped
    | Failed
    | Delivered(port: string, bytes: seq<Byte>)

  /** A routing `routeMessage` and `sendTestMessage` accept: present, enabled,
      and with a truthy device id. */
  predicate Routable(routing: Option<RoutingEntry>) {
    routing.Some? && routing.value.enabled && HasDevice(routing.value)
  }

  /** The decisions of `routeMessage`, in source order. */
  function Route(track: Option<Presence>, routing: Option<RoutingEntry>, outputs: seq<(string, Port)>, m: seq<Byte>): Outcome {
    if track.None? || track.value.status != "connected" then Dropped
    else if !Routable(routing) then Dropped
    else
      var r := routing.value;
      var deviceId := r.deviceId.value;
      if Lookup(outputs, deviceId).None? then Failed
      else
        var processed := ProcessMessage(m, r);
        if |processed| == 0 || !IsConnected(outputs, deviceId) then Failed
        else Delivered(deviceId, Rechannel(processed, r.channel))
  }

  /** A message is dropped exactly when the track is not active or has no
      enabled destination; a delivered message goes to the routed device, is the
      processed message on the routed channel, and is valid iff the input was. */
  lemma RouteCases(track: Option<Presence>, routing: Option<RoutingEntry>, outputs: seq<(string, Port)>, m: seq<Byte>)
    ensures Route(track, routing, outputs, m).Dropped? <==>
      track.None? || track.value.status != "connected" || !Routable(routing)
    ensures Route(track, routing, outputs, m).Delivered? <==>
      track.Some? && track.value.status == "connected" && Routable(routing) &&
      |m| > 0 && IsConnected(outputs, routing.value.deviceId.value)
    ensures Route(track, routing, outputs, m).Delivered? ==>
      var o := Route(track, routing, outputs, m);
      var r := routing.value;
      o.port == r.deviceId.value && |o.bytes| == |m| &&
      o.bytes == Rechannel(ProcessMessage(m, r), r.channel) &&
      (IsChannelStatus(m[0]) ==> o.bytes[0] % 16 == r.channel % 16) &&
      ValidateMessage(o.bytes) == ValidateMessage(m)
  {
    var o := Route(track, routing, outputs, m);
    if o.Delivered? {
      ValidityPreserved(m, routing.value, routing.value.channel);
      ValidityPreserved(ProcessMessage(m, routing.value), routing.value, routing.value.channel);
    }
  }

  /** The messages `routeMessages` delivers, in order. */
  function DeliveredLog(track: Option<Presence>, routing: Option<RoutingEntry>, outputs: seq<(string, Port)>, ms: seq<seq<Byte>>): seq<Sent> {
    if ms == [] then []
    else
      DeliveredLog(track, routing, outputs, ms[..|ms| - 1]) +
        match Route(track, routing, outputs, ms[|ms| - 1])
        case Delivered(port, bytes) => [Sent(port, bytes)]
        case _ => []
  }

  /** How many of the messages are delivered. */
  function CountDelivered(track: Option<Presence>, routing: Option<RoutingEntry>, outputs: seq<(string, Port)>, ms: seq<seq<Byte>>): (n: nat)
    ensures n <= |ms|
  {
    if ms == [] then 0
    else
      CountDelivered(track, routing, outputs, ms[..|ms| - 1]) +
        (if Route(track, routing, outputs, ms[|ms| - 1]).Delivered? then 1 else 0)
  }

  /** Routing one more message adds its delivery, if any, to the count and the log. */
  lemma DeliveredStep(track: Option<Presence>, routing: Option<RoutingEntry>, outputs: seq<(string, Port)>, ms: seq<seq<Byte>>, i: nat)
    requires i < |ms|
    ensures var o := Route(track, routing, outputs, ms[i]);
      CountDelivered(track, routing, outputs, ms[..i + 1]) ==
        CountDelivered(track, routing, outputs, ms[..i]) + (if o.Delivered? then 1 else 0) &&
      DeliveredLog(track, routing, outputs, ms[..i + 1]) ==
        DeliveredLog(track, routing, outputs, ms[..i]) + (if o.Delivered? then [Sent(o.port, o.bytes)] else [])
  {
    assert ms[..i + 1][..i] == ms[..i];
  }

  /** One message delivered per counted success, and nothing for an inactive track. */
  lemma {:induction false} DeliveredLogLength(track: Option<Presence>, routing: Option<RoutingEntry>, outputs: seq<(string, Port)>, ms: seq<seq<Byte>>)
    ensures |DeliveredLog(track, routing, outputs, ms)| == CountDelivered(track, routing, outputs, ms)
    ensures (track.None? || track.value.status != "connected" || !Routable(routing)) ==>
      DeliveredLog(track, routing, outputs, ms) == []
  {
    if ms != [] {
      DeliveredLogLength(track, routing, outputs, ms[..|ms| - 1]);
    }
  }

  /** Whether `sendTrackPanic` reaches the send: a routing with a truthy device
      id whose output is present and connected (the enabled flag is not consulted). */
  predicate PanicReady(routing: Option<RoutingEntry>, outputs: seq<(string, Port)>) {
    routing.Some? && HasDevice(routing.value) && IsConnected(outputs, routing.value.deviceId.value)
  }

  /** What `sendTrackPanic` sends, bypassing the byte transform. */
  function TrackPanicLog(routing: Option<RoutingEntry>, outputs: seq<(string, Port)>): (log: seq<Sent>)
    ensures PanicReady(routing, outputs) ==>
      log == [Sent(routing.value.deviceId.value, [PanicStatus(routing.value.channel), 123, 0]),
              Sent(routing.value.deviceId.value, [PanicStatus(routing.value.channel), 120, 0])]
    ensures !PanicReady(routing, outputs) ==> log == []
  {
    if PanicReady(routing, outputs) then ChannelPanic(routing.value.deviceId.value, routing.value.channel) else []
  }

  /** What `sendAllTracksPanic` sends for the listed tracks. */
  function AllTracksPanicLog(ids: seq<TrackId>, routings: seq<(TrackId, RoutingEntry)>, outputs: seq<(string, Port)>): seq<Sent> {
    if ids == [] then []
    else AllTracksPanicLog(ids[..|ids| - 1], routings, outputs) + TrackPanicLog(Lookup(routings, ids[|ids| - 1]), outputs)
  }

  function CountPanicReady(ids: seq<TrackId>, routings: seq<(TrackId, RoutingEntry)>, outputs: seq<(string, Port)>): (n: nat)
    ensures n <= |ids|
  {
    if ids == [] then 0
    else
      CountPanicReady(ids[..|ids| - 1], routings, outputs) +
        (if PanicReady(Lookup(routings, ids[|ids| - 1]), outputs) then 1 else 0)
  }

  /** One more track adds its panic, if any, to the count and the log. */
  lemma PanicStep(ids: seq<TrackId>, routings: seq<(TrackId, RoutingEntry)>, outputs: seq<(string, Port)>, i: nat)
    requires i < |ids|
    ensures var routing := Lookup(routings, ids[i]);
      CountPanicReady(ids[..i + 1], routings, outputs) ==
        CountPanicReady(ids[..i], routings, outputs) + (if PanicReady(routing, outputs) then 1 else 0) &&
      AllTracksPanicLog(ids[..i + 1], routings, outputs) ==
        AllTracksPanicLog(ids[..i], routings, outputs) + TrackPanicLog(routing, outputs)
  {
    assert ids[..i + 1][..i] == ids[..i];
  }

  /** Each track that received the panic got exactly two messages, both Control
      Change messages with value 0. */
  lemma {:induction false} AllTracksPanicShape(ids: seq<TrackId>, routings: seq<(TrackId, RoutingEntry)>, outputs: seq<(string, Port)>)
    ensures |AllTracksPanicLog(ids, routings, outputs)| == 2 * CountPanicReady(ids, routings, outputs)
    ensures forall e :: e in AllTracksPanicLog(ids, routings, outputs) ==>
      IsConnected(outputs, e.port) && |e.bytes| == 3 && 0xB0 <= e.bytes[0] && e.bytes[2] == 0
  {
    if ids != [] {
      AllTracksPanicShape(ids[..|ids| - 1], routings, outputs);
    }
  }

  datatype RouterStats = RouterStats(
    messagesRouted: nat,
    messagesDropped: nat,
    routingErrors: nat,
    activeRoutes: nat,
    availableDevices: nat,
    connectedDevices: nat)

  class MidiRouter {
    const deviceManager: MidiDeviceManager
    const routingMatrix: RoutingMatrix
    var messagesRouted: nat
    var messagesDropped: nat
    var routingErrors: nat

    constructor (deviceManager: MidiDeviceManager, routingMatrix: RoutingMatrix)
      ensures this.deviceManager == deviceManager && this.routingMatrix == routingMatrix
      ensures messagesRouted == 0 && messagesDropped == 0 && routingErrors == 0
    {
      this.deviceManager := deviceManager;
      this.routingMatrix := routingMatrix;
      messagesRouted, messagesDropped, routingErrors := 0, 0, 0;
    }

    /** Routes one message; exactly one of the three counters goes up by one. */
    method RouteMessage(trackId: TrackId, message: seq<Byte>) returns (ok: bool)
      modifies this, deviceManager
      ensures var o := Route(routingMatrix.GetTrack(trackId), routingMatrix.GetRouting(trackId), deviceManager.outputs, message);
        ok == o.Delivered? &&
        messagesRouted == old(messagesRouted) + (if o.Delivered? then 1 else 0) &&
        messagesDropped == old(messagesDropped) + (if o.Dropped? then 1 else 0) &&
        routingErrors == old(routingErrors) + (if o.Failed? then 1 else 0) &&
        deviceManager.sent == old(deviceManager.sent) + (if o.Delivered? then [Sent(o.port, o.bytes)] else [])
      ensures messagesRouted + messagesDropped + routingErrors == old(messagesRouted + messagesDropped + routingErrors) + 1
      ensures deviceManager.outputs == old(deviceManager.outputs) && deviceManager.inputs == old(deviceManager.inputs)
      ensures deviceManager.initialized == old(deviceManager.initialized)
    {
      var routing := routingMatrix.GetRouting(trackId);
      var track := routingMatrix.GetTrack(trackId);
      if track.None? || track.value.status != "connected" {
        messagesDropped := messagesDropped + 1;
        return false;
      }
      if routing.None? || !routing.value.enabled || routing.value.deviceId.None? || routing.value.deviceId.value == "" {
        messagesDropped := messagesDropped + 1;
        return false;
      }
      var deviceId := routing.value.deviceId.value;
      if deviceManager.GetOutputDevice(deviceId).None? {
        routingErrors := routingErrors + 1;
        return false;
      }
      var processedMessage := ProcessMessage(message, routing.value);
      var success := deviceManager.SendMidiMessageToChannel(deviceId, processedMessage, routing.value.channel);
      if success {
        messagesRouted := messagesRouted + 1;
      } else {
        routingErrors := routingErrors + 1;
      }
      return success;
    }

    /** Routes a batch in order and counts the successes. */
    method RouteMessages(trackId: TrackId, messages: seq<seq<Byte>>) returns (successCount: nat)
      modifies this, deviceManager
      ensures var track := routingMatrix.GetTrack(trackId);
        var routing := routingMatrix.GetRouting(trackId);
        successCount == CountDelivered(track, routing, deviceManager.outputs, messages) &&
        deviceManager.sent == old(deviceManager.sent) + DeliveredLog(track, routing, deviceManager.outputs, messages)
      ensures successCount <= |messages|
      ensures messagesRouted == old(messagesRouted) + successCount
      ensures messagesRouted + messagesDropped + routingErrors == old(messagesRouted + messagesDropped + routingErrors) + |messages|
      ensures deviceManager.outputs == old(deviceManager.outputs) && deviceManager.inputs == old(deviceManager.inputs)
      ensures deviceManager.initialized == old(deviceManager.initialized)
    {
      ghost var track := routingMatrix.GetTrack(trackId);
      ghost var routing := routingMatrix.GetRouting(trackId);
      successCount := 0;
      var i := 0;
      while i < |messages|
        invariant 0 <= i <= |messages|
        invariant deviceManager.outputs == old(deviceManager.outputs) && deviceManager.inputs == old(deviceManager.inputs)
        invariant deviceManager.initialized == old(deviceManager.initialized)
        invariant successCount == CountDelivered(track, routing, deviceManager.outputs, messages[..i])
        invariant deviceManager.sent == old(deviceManager.sent) + DeliveredLog(track, routing, deviceManager.outputs, messages[..i])
        invariant messagesRouted == old(messagesRouted) + successCount
        invariant messagesRouted + messagesDropped + routingErrors == old(messagesRouted + messagesDropped + routingErrors) + i
      {
        DeliveredStep(track, routing, deviceManager.outputs, messages, i);
        ghost var sent0 := old(deviceManager.sent);
        ghost var log := DeliveredLog(track, routing, deviceManager.outputs, messages[..i]);
        ghost var o := Route(track, routing, deviceManager.outputs, messages[i]);
        ghost var step: seq<Sent> := if o.Delivered? then [Sent(o.port, o.bytes)] else [];
        var ok := RouteMessage(trackId, messages[i]);
        AppendAssoc(sent0, log, step);
        if ok {
          successCount := successCount + 1;
        }
        i := i + 1;
      }
      assert messages[..i] == messages;
    }

    /** The Note-On half of `sendTestMessage`: refused before routing unless the
        track's routing is enabled with a device; the bytes go through
        `routeMessage`. */
    method SendTestMessage(trackId: TrackId, note: int := 60, velocity: int := 64) returns (ok: bool)
      modifies this, deviceManager
      ensures !Routable(routingMatrix.GetRouting(trackId)) ==>
        !ok && messagesRouted == old(messagesRouted) && messagesDropped == old(messagesDropped) &&
        routingErrors == old(routingErrors) && deviceManager.sent == old(deviceManager.sent)
      ensures Routable(routingMatrix.GetRouting(trackId)) ==>
        var o := Route(routingMatrix.GetTrack(trackId), routingMatrix.GetRouting(trackId), deviceManager.outputs,
          [0x90, ToUint8(note), ToUint8(velocity)]);
        ok == o.Delivered? &&
        messagesRouted == old(messagesRouted) + (if o.Delivered? then 1 else 0) &&
        messagesDropped == old(messagesDropped) + (if o.Dropped? then 1 else 0) &&
        routingErrors == old(routingErrors) + (if o.Failed? then 1 else 0) &&
        deviceManager.sent == old(deviceManager.sent) + (if o.Delivered? then [Sent(o.port, o.bytes)] else [])
      ensures deviceManager.outputs == old(deviceManager.outputs) && deviceManager.inputs == old(deviceManager.inputs)
      ensures deviceManager.initialized == old(deviceManager.initialized)
    {
      var routing := routingMatrix.GetRouting(trackId);
      if routing.None? || !routing.value.enabled || routing.value.deviceId.None? || routing.value.deviceId.value == "" {
        return false;
      }
      var noteOn := [0x90, ToUint8(note), ToUint8(velocity)];
      ok := RouteMessage(trackId, noteOn);
    }

    /** CC 123 then CC 120 on the routing's channel, sent straight to the port. */
    method SendTrackPanic(trackId: TrackId) returns (ok: bool)
      modifies deviceManager
      ensures ok == PanicReady(routingMatrix.GetRouting(trackId), deviceManager.outputs)
      ensures deviceManager.sent == old(deviceManager.sent) + TrackPanicLog(routingMatrix.GetRouting(trackId), deviceManager.outputs)
      ensures deviceManager.outputs == old(deviceManager.outputs) && deviceManager.inputs == old(deviceManager.inputs)
      ensures deviceManager.initialized == old(deviceManager.initialized)
    {
      var routing := routingMatrix.GetRouting(trackId);
      if routing.None? || routing.value.deviceId.None? || routing.value.deviceId.value == "" {
        return false;
      }
      var deviceId := routing.value.deviceId.value;
      var device := deviceManager.GetOutputDevice(deviceId);
      if device.None? || device.value.state != Connected {
        return false;
      }
      var channel := routing.value.channel;
      var allNotesOff := [PanicStatus(channel), 123, 0];
      var allSoundOff := [PanicStatus(channel), 120, 0];
      deviceManager.PortSend(deviceId, allNotesOff);
      deviceManager.PortSend(deviceId, allSoundOff);
      return true;
    }

    /** A panic for every present track; the count is the tracks that got one. */
    method SendAllTracksPanic() returns (panicCount: nat)
      modifies deviceManager
      ensures panicCount == CountPanicReady(KeyList(routingMatrix.tracks), routingMatrix.routings, deviceManager.outputs)
      ensures panicCount <= |routingMatrix.tracks|
      ensures deviceManager.sent == old(deviceManager.sent) +
        AllTracksPanicLog(KeyList(routingMatrix.tracks), routingMatrix.routings, deviceManager.outputs)
      ensures deviceManager.outputs == old(deviceManager.outputs) && deviceManager.inputs == old(deviceManager.inputs)
      ensures deviceManager.initialized == old(deviceManager.initialized)
    {
      var ids := KeyList(routingMatrix.tracks);
      ghost var routings := routingMatrix.routings;
      ghost var outputs := deviceManager.outputs;
      panicCount := 0;
      var i := 0;
      while i < |ids|
        invariant 0 <= i <= |ids|
        invariant deviceManager.outputs == outputs && deviceManager.inputs == old(deviceManager.inputs)
        invariant deviceManager.initialized == old(deviceManager.initialized)
        invariant panicCount == CountPanicReady(ids[..i], routings, outputs)
        invariant deviceManager.sent == old(deviceManager.sent) + AllTracksPanicLog(ids[..i], routings, outputs)
      {
        PanicStep(ids, routings, outputs, i);
        assert routingMatrix.GetRouting(ids[i]) == Lookup(routings, ids[i]);
        ghost var sent0 := old(deviceManager.sent);
        ghost var log := AllTracksPanicLog(ids[..i], routings, outputs);
        ghost var step := TrackPanicLog(Lookup(routings, ids[i]), outputs);
        var ok := SendTrackPanic(ids[i]);
        AppendAssoc(sent0, log, step);
        if ok {
          panicCount := panicCount + 1;
        }
        i := i + 1;
      }
      assert ids[..i] == ids;
    }

    method HandleTrackDisconnect(trackId: TrackId)
      modifies deviceManager
      ensures deviceManager.sent == old(deviceManager.sent) + TrackPanicLog(routingMatrix.GetRouting(trackId), deviceManager.outputs)
      ensures deviceManager.outputs == old(deviceManager.outputs) && deviceManager.inputs == old(deviceManager.inputs)
      ensures deviceManager.initialized == old(deviceManager.initialized)
    {
      var _ := SendTrackPanic(trackId);
    }

    function GetStats(): (st: RouterStats)
      reads this, routingMatrix, deviceManager
      ensures st.messagesRouted == messagesRouted && st.messagesDropped == messagesDropped && st.routingErrors == routingErrors
      ensures st.activeRoutes == CountRouted(routingMatrix.routings) && st.activeRoutes <= |routingMatrix.routings|
      ensures st.availableDevices == |deviceManager.outputs|
      ensures st.connectedDevices == CountConnectedPorts(deviceManager.outputs) && st.connectedDevices <= st.availableDevices
    {
      RouterStats(messagesRouted, messagesDropped, routingErrors,
        CountRouted(routingMatrix.routings), |deviceManager.outputs|, CountConnectedPorts(deviceManager.outputs))
    }

    method ResetStats()
      modifies this
      ensures messagesRouted == 0 && messagesDropped == 0 && routingErrors == 0
    {
      messagesRouted, messagesDropped, routingErrors := 0, 0, 0;
    }
  }
}
