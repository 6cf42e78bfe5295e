/** The Web MIDI side of the sequencer (scripts/midiDeviceManager.js): the
    table of output and input ports, the gated send path, the channel-nibble
    rewrite and the panic burst. The browser's MIDIAccess object is replaced by
    the port lists it would enumerate, and every `port.send` by an entry in a
    log of sent messages. */
module Devices {
  import opened Common
  import opened OrderedMaps

  /** `MIDIPort.state`. */
  datatype PortState = Connected | Disconnected

  /** The fields the manager copies from a MIDIPort during enumeration. */
  datatype Port = Port(id: string, name: string, manufacturer: string, state: PortState)

  /** One `port.send(bytes)` (the optional timestamp is not modelled). */
  datatype Sent = Sent(port: string, bytes: seq<Byte>)

  datatype DeviceStatus = DeviceStatus(
    supported: bool,
    initialized: bool,
    outputCount: nat,
    inputCount: nat,
    connectedOutputs: nat,
    connectedInputs: nat)

  /** Status bytes that carry a channel in their low nibble: 0x80..0xEF. */
  predicate IsChannelStatus(b: int) { 0x80 <= b <= 0xEF }

  /** `(status & 0xF0) | (channel & 0x0F)`. `status & 0xF0` clears the low
      nibble, `channel & 0x0F` keeps the low four bits of the two's-complement
      integer (channel mod 16, also for negative channels), and the two do not
      overlap, so the `|` is a sum. */
  function WithChannel(status: Byte, channel: int): (b: Byte)
    ensures b / 16 == status / 16
    ensures b % 16 == channel % 16
  {
    status / 16 * 16 + channel % 16
  }

  /** The copy `sendMidiMessageToChannel` sends: a channel status byte gets the
      target channel, every other byte is copied. */
  function Rechannel(m: seq<Byte>, channel: int): (r: seq<Byte>)
    requires |m| > 0
    ensures |r| == |m| && r[1..] == m[1..]
    ensures IsChannelStatus(m[0]) ==> r[0] / 16 == m[0] / 16 && r[0] % 16 == channel % 16
    ensures !IsChannelStatus(m[0]) ==> r == m
    ensures IsChannelStatus(r[0]) == IsChannelStatus(m[0])
  {
    if IsChannelStatus(m[0]) then [WithChannel(m[0], channel)] + m[1..] else m
  }

  /** Rewriting twice is rewriting once with the second channel. */
  lemma RechannelLastWins(m: seq<Byte>, a: int, b: int)
    requires |m| > 0
    ensures Rechannel(Rechannel(m, a), b) == Rechannel(m, b)
  {
    var r := Rechannel(m, a);
    if IsChannelStatus(m[0]) {
      var x := Rechannel(r, b)[0];
      var y := Rechannel(m, b)[0];
      assert x == x / 16 * 16 + x % 16 && y == y / 16 * 16 + y % 16;
      assert Rechannel(r, b) == [x] + m[1..];
    }
  }

  /** A message already on its channel is sent unchanged. */
  lemma RechannelSameChannel(m: seq<Byte>, channel: int)
    requires |m| > 0 && 0 <= channel < 16
    requires IsChannelStatus(m[0]) ==> m[0] % 16 == channel
    ensures Rechannel(m, channel) == m
  {
    if IsChannelStatus(m[0]) {
      var x := Rechannel(m, channel)[0];
      assert x == x / 16 * 16 + x % 16 && m[0] == m[0] / 16 * 16 + m[0] % 16;
      assert Rechannel(m, channel) == [m[0]] + m[1..];
    }
  }

  /** `0xB0 | channel` stored into a Uint8Array (which keeps the low eight bits).
      0xB0 is 1011_0000: bits 7, 5 and 4 are set whatever the channel, so of the
      channel's low byte only bit 6 and the low nibble show through. */
  function PanicStatus(channel: int): (b: Byte)
    ensures 0xB0 <= b <= 0xFF && b % 16 == channel % 16
    ensures 0 <= channel < 16 ==> b == 0xB0 + channel
  {
    var x := channel % 256;
    0xB0 + x % 16 + (if x / 64 % 2 == 1 then 64 else 0)
  }

  /** All Notes Off (CC 123) then All Sound Off (CC 120) on one channel. */
  function ChannelPanic(port: string, channel: int): seq<Sent> {
    [Sent(port, [PanicStatus(channel), 123, 0]), Sent(port, [PanicStatus(channel), 120, 0])]
  }

  /** The messages of channels 0..n-1, in channel order. */
  function PanicUpTo(port: string, n: nat): (log: seq<Sent>)
    ensures |log| == 2 * n
  {
    if n == 0 then [] else PanicUpTo(port, n - 1) + ChannelPanic(port, n - 1)
  }

  /** Message k is CC 123 (k even) or CC 120 (k odd) on channel k/2. */
  lemma {:induction false} PanicUpToShape(port: string, n: nat)
    requires n <= 16
    ensures forall k :: 0 <= k < |PanicUpTo(port, n)| ==>
      PanicUpTo(port, n)[k] == Sent(port, [0xB0 + k / 2, if k % 2 == 0 then 123 else 120, 0])
  {
    if n > 0 {
      PanicUpToShape(port, n - 1);
      var log := PanicUpTo(port, n);
      forall k | 0 <= k < 2 * (n - 1)
        ensures log[k] == PanicUpTo(port, n - 1)[k]
      {
      }
    }
  }

  /** The 32 messages a connected port receives from `sendPanic`. */
  function PanicBurst(port: string): seq<Sent> { PanicUpTo(port, 16) }

  /** What `sendPanic` sends to the listed ports: the burst to each one that is
      present and connected, nothing to the others. */
  function PanicLog(ids: seq<string>, outputs: seq<(string, Port)>): seq<Sent> {
    if ids == [] then []
    else
      PanicLog(ids[..|ids| - 1], outputs) +
        (if IsConnected(outputs, ids[|ids| - 1]) then PanicBurst(ids[|ids| - 1]) else [])
  }

  lemma PanicLogStep(ids: seq<string>, i: nat, outputs: seq<(string, Port)>)
    requires i < |ids|
    ensures PanicLog(ids[..i + 1], outputs) ==
      PanicLog(ids[..i], outputs) + (if IsConnected(outputs, ids[i]) then PanicBurst(ids[i]) else [])
  {
    assert ids[..i + 1][..i] == ids[..i];
  }

  predicate IsConnected(outputs: seq<(string, Port)>, id: string) {
    Lookup(outputs, id).Some? && Lookup(outputs, id).value.state == Connected
  }

  /** Every message in a panic log goes to a connected port, and is a Control
      Change 123 or 120 with value 0. */
  lemma {:induction false} PanicLogShape(ids: seq<string>, outputs: seq<(string, Port)>)
    ensures forall e :: e in PanicLog(ids, outputs) ==>
      IsConnected(outputs, e.port) && |e.bytes| == 3 && 0xB0 <= e.bytes[0] <= 0xBF &&
      (e.bytes[1] == 123 || e.bytes[1] == 120) && e.bytes[2] == 0
    ensures |PanicLog(ids, outputs)| <= 32 * |ids|
  {
    if ids != [] {
      var front := ids[..|ids| - 1];
      var id := ids[|ids| - 1];
      PanicLogShape(front, outputs);
      if IsConnected(outputs, id) {
        var burst := PanicBurst(id);
        PanicUpToShape(id, 16);
        forall e | e in burst
          ensures e.port == id && |e.bytes| == 3 && 0xB0 <= e.bytes[0] <= 0xBF &&
            (e.bytes[1] == 123 || e.bytes[1] == 120) && e.bytes[2] == 0
        {
          var k :| 0 <= k < |burst| && burst[k] == e;
        }
      }
    }
  }

  /** `Map.set` of every port in enumeration order. */
  function IndexPorts(ps: seq<Port>): seq<(string, Port)> {
    if ps == [] then [] else Put(IndexPorts(ps[..|ps| - 1]), ps[|ps| - 1].id, ps[|ps| - 1])
  }

  lemma IndexPortsStep(ps: seq<Port>, i: nat)
    requires i < |ps|
    ensures IndexPorts(ps[..i + 1]) == Put(IndexPorts(ps[..i]), ps[i].id, ps[i])
  {
    assert ps[..i + 1][..i] == ps[..i];
  }

  /** The last enumerated port with that id, if any. */
  function LastWithId(ps: seq<Port>, id: string): Option<Port> {
    if ps == [] then None
    else if ps[|ps| - 1].id == id then Some(ps[|ps| - 1])
    else LastWithId(ps[..|ps| - 1], id)
  }

  /** The table holds each id once, and under it the port enumerated last with that id. */
  lemma {:induction false} IndexPortsLookup(ps: seq<Port>, id: string)
    ensures DistinctKeys(IndexPorts(ps))
    ensures Lookup(IndexPorts(ps), id) == LastWithId(ps, id)
  {
    if ps != [] {
      var front := ps[..|ps| - 1];
      IndexPortsLookup(front, id);
      PutDistinct(IndexPorts(front), ps[|ps| - 1].id, ps[|ps| - 1]);
      PutLookup(IndexPorts(front), ps[|ps| - 1].id, ps[|ps| - 1], id);
    }
  }

  function CountConnectedPorts(s: seq<(string, Port)>): (n: nat)
    ensures n <= |s|
  {
    if s == [] then 0
    else CountConnectedPorts(s[..|s| - 1]) + (if s[|s| - 1].1.state == Connected then 1 else 0)
  }

  class MidiDeviceManager {
    /** Whether the browser offers `navigator.requestMIDIAccess`. */
    const apiPresent: bool
    /** Output ports by id, in enumeration order. */
    var outputs: seq<(string, Port)>
    /** Input ports by id, in enumeration order. */
    var inputs: seq<(string, Port)>
    var initialized: bool
    /** Every message handed to `port.send`, in order. */
    var sent: seq<Sent>

    ghost predicate Valid()
      reads this
    {
      DistinctKeys(outputs) && DistinctKeys(inputs)
    }

    constructor (apiPresent: bool)
      ensures Valid()
      ensures this.apiPresent == apiPresent
      ensures outputs == [] && inputs == [] && !initialized && sent == []
    {
      this.apiPresent := apiPresent;
      outputs, inputs, initialized, sent := [], [], false, [];
    }

    /** Without the API, or when access is refused, reports false and changes
        nothing; otherwise enumerates the ports and becomes initialized. */
    method Initialize(accessGranted: bool, outs: seq<Port>, ins: seq<Port>) returns (ok: bool)
      requires Valid()
      modifies this
      ensures Valid()
      ensures ok == (apiPresent && accessGranted)
      ensures ok ==> outputs == IndexPorts(outs) && inputs == IndexPorts(ins) && initialized
      ensures !ok ==> outputs == old(outputs) && inputs == old(inputs) && initialized == old(initialized)
      ensures sent == old(sent)
    {
      if !apiPresent {
        return false;
      }
      if !accessGranted {
        return false;
      }
      EnumerateDevices(outs, ins);
      initialized := true;
      return true;
    }

    /** Clears both tables and refills them from the enumerated ports. */
    method EnumerateDevices(outs: seq<Port>, ins: seq<Port>)
      modifies this
      ensures Valid()
      ensures outputs == IndexPorts(outs) && inputs == IndexPorts(ins)
      ensures initialized == old(initialized) && sent == old(sent)
    {
      outputs := [];
      inputs := [];
      var i := 0;
      while i < |outs|
        invariant 0 <= i <= |outs|
        invariant outputs == IndexPorts(outs[..i]) && inputs == []
        invariant initialized == old(initialized) && sent == old(sent)
      {
        IndexPortsStep(outs, i);
        outputs := Put(outputs, outs[i].id, outs[i]);
        i := i + 1;
      }
      assert outs[..i] == outs;
      var j := 0;
      while j < |ins|
        invariant 0 <= j <= |ins|
        invariant inputs == IndexPorts(ins[..j])
        invariant outputs == IndexPorts(outs)
        invariant initialized == old(initialized) && sent == old(sent)
      {
        IndexPortsStep(ins, j);
        inputs := Put(inputs, ins[j].id, ins[j]);
        j := j + 1;
      }
      assert ins[..j] == ins;
      IndexPortsLookup(outs, "");
      IndexPortsLookup(ins, "");
    }

    function GetOutputDevice(deviceId: string): (p: Option<Port>)
      reads this
      ensures p.None? <==> deviceId !in KeySet(outputs)
      ensures p.Some? ==> (deviceId, p.value) in outputs
    {
      var p := Lookup(outputs, deviceId);
      if p.Some? then
        var i := IndexOfKey(outputs, deviceId);
        p
      else p
    }

    function GetInputDevice(deviceId: string): (p: Option<Port>)
      reads this
      ensures p.None? <==> deviceId !in KeySet(inputs)
      ensures p.Some? ==> (deviceId, p.value) in inputs
    {
      var p := Lookup(inputs, deviceId);
      if p.Some? then
        var i := IndexOfKey(inputs, deviceId);
        p
      else p
    }

    /** The plain send path: only a present, connected port receives the message. */
    method SendMidiMessage(deviceId: string, message: seq<Byte>) returns (ok: bool)
      modifies this
      ensures ok == IsConnected(outputs, deviceId)
      ensures sent == old(sent) + (if ok then [Sent(deviceId, message)] else [])
      ensures outputs == old(outputs) && inputs == old(inputs) && initialized == old(initialized)
    {
      var device := GetOutputDevice(deviceId);
      if device.None? || device.value.state != Connected {
        return false;
      }
      PortSend(deviceId, message);
      return true;
    }

    /** Sends a copy of the message whose channel status byte carries `targetChannel`. */
    method SendMidiMessageToChannel(deviceId: string, originalMessage: seq<Byte>, targetChannel: int) returns (ok: bool)
      modifies this
      ensures ok == (|originalMessage| > 0 && IsConnected(outputs, deviceId))
      ensures ok ==> sent == old(sent) + [Sent(deviceId, Rechannel(originalMessage, targetChannel))]
      ensures !ok ==> sent == old(sent)
      ensures outputs == old(outputs) && inputs == old(inputs) && initialized == old(initialized)
    {
      if |originalMessage| == 0 {
        return false;
      }
      var message := originalMessage;
      var statusByte := message[0];
      if statusByte >= 0x80 && statusByte <= 0xEF {
        message := message[0 := WithChannel(statusByte, targetChannel)];
      }
      assert message == Rechannel(originalMessage, targetChannel);
      ok := SendMidiMessage(deviceId, message);
    }

    /** `port.send` on a port obtained from the table. */
    method PortSend(deviceId: string, message: seq<Byte>)
      modifies this
      ensures sent == old(sent) + [Sent(deviceId, message)]
      ensures outputs == old(outputs) && inputs == old(inputs) && initialized == old(initialized)
    {
      sent := sent + [Sent(deviceId, message)];
    }

    /** A truthy `deviceId` names the only target; otherwise every output is one. */
    function PanicTargets(deviceId: Option<string>): (ids: seq<string>)
      reads this
      ensures deviceId.Some? && deviceId.value != "" ==> ids == [deviceId.value]
      ensures !(deviceId.Some? && deviceId.value != "") ==>
        |ids| == |outputs| && forall i :: 0 <= i < |outputs| ==> ids[i] == outputs[i].0
    {
      if deviceId.Some? && deviceId.value != "" then [deviceId.value] else KeyList(outputs)
    }

    method SendPanic(deviceId: Option<string> := None)
      modifies this
      ensures sent == old(sent) + PanicLog(old(PanicTargets(deviceId)), outputs)
      ensures outputs == old(outputs) && inputs == old(inputs) && initialized == old(initialized)
    {
      var devices := PanicTargets(deviceId);
      var i := 0;
      while i < |devices|
        invariant 0 <= i <= |devices|
        invariant outputs == old(outputs) && inputs == old(inputs) && initialized == old(initialized)
        invariant sent == old(sent) + PanicLog(devices[..i], outputs)
      {
        PanicLogStep(devices, i, outputs);
        PanicPort(devices[i]);
        i := i + 1;
      }
      assert devices[..i] == devices;
    }

    /** One iteration of the outer loop of `sendPanic`: the burst goes out only
        when the port is present and connected. */
    method PanicPort(id: string)
      modifies this
      ensures sent == old(sent) + (if IsConnected(outputs, id) then PanicBurst(id) else [])
      ensures outputs == old(outputs) && inputs == old(inputs) && initialized == old(initialized)
    {
      var device := GetOutputDevice(id);
      if device.Some? && device.value.state == Connected {
        SendPanicBurst(id);
      } else {
        assert sent + [] == sent;
      }
    }

    /** The inner loop of `sendPanic`: CC 123 then CC 120 on channels 0..15. */
    method SendPanicBurst(id: string)
      modifies this
      ensures sent == old(sent) + PanicBurst(id)
      ensures outputs == old(outputs) && inputs == old(inputs) && initialized == old(initialized)
    {
      var channel := 0;
      while channel < 16
        invariant 0 <= channel <= 16
        invariant outputs == old(outputs) && inputs == old(inputs) && initialized == old(initialized)
        invariant sent == old(sent) + PanicUpTo(id, channel)
      {
        PortSend(id, [PanicStatus(channel), 123, 0]);
        PortSend(id, [PanicStatus(channel), 120, 0]);
        channel := channel + 1;
      }
    }

    predicate IsSupported()
      reads this
    {
      apiPresent && initialized
    }

    function GetStatus(): (st: DeviceStatus)
      reads this
      ensures st.supported == (apiPresent && initialized) && st.initialized == initialized
      ensures st.outputCount == |outputs| && st.inputCount == |inputs|
      ensures st.connectedOutputs <= st.outputCount && st.connectedInputs <= st.inputCount
      ensures st.connectedOutputs == CountConnectedPorts(outputs)
      ensures st.connectedInputs == CountConnectedPorts(inputs)
    {
      DeviceStatus(IsSupported(), initialized, |outputs|, |inputs|,
        CountConnectedPorts(outputs), CountConnectedPorts(inputs))
    }
  }
}
