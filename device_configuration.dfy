/** The user's directory of custom MIDI devices (scripts/deviceConfiguration.js)
    with the DOM taken away: the validation and construction of a device record
    from the submitted form, edits of its interface and channel, removal, the
    push of a device's channel into the routing matrix, the migration of stored
    records on load and the bounded controller selection. */
module DeviceDirectory {
  import opened Common
  import opened OrderedMaps
  import opened Routing

  datatype Controller = Controller(name: string, ccNumber: int, ctype: string, range: Option<string>)

  /** A configured device (the ISO timestamps are not modelled). */
  datatype Device = Device(
    id: int,
    name: string,
    color: string,
    controllers: seq<Controller>,
    assignedInterface: string,
    assignedChannel: int,
    status: string)

  /** The raw FormData values of one controller form; None is `null`. */
  datatype ControllerForm = ControllerForm(
    name: Option<string>,
    ccNumber: Option<string>,
    ctype: Option<string>,
    range: Option<string>)

  /** JavaScript truthiness of a possibly missing string. */
  predicate Truthy(s: Option<string>) { s.Some? && s.value != "" }

  /** `value?.trim()`. */
  function TrimOpt(s: Option<string>): (r: Option<string>)
    ensures r.Some? == s.Some?
  {
    if s.Some? then Some(Trim(s.value)) else None
  }

  /** `parseInt(value)`; `parseInt(null)` reads the text "null" and is NaN. */
  function ParseField(s: Option<string>): Option<int> {
    if s.Some? then ParseInt(s.value) else None
  }

  /** A form's values as the checks see them: the trimmed name and range, the
      parsed CC number (None is NaN) and the type as submitted. */
  datatype FormValues = FormValues(name: Option<string>, cc: Option<int>, ctype: Option<string>, range: Option<string>)

  function ReadForm(f: ControllerForm): FormValues {
    FormValues(TrimOpt(f.name), ParseField(f.ccNumber), f.ctype, TrimOpt(f.range))
  }

  function ReadForms(forms: seq<ControllerForm>): (vs: seq<FormValues>)
    ensures |vs| == |forms| && forall i :: 0 <= i < |forms| ==> vs[i] == ReadForm(forms[i])
  {
    seq(|forms|, i requires 0 <= i < |forms| => ReadForm(forms[i]))
  }

  /** A form with no name, a falsy CC number (NaN or 0) and no type is skipped. */
  predicate SkippedForm(v: FormValues) {
    !Truthy(v.name) && (v.cc.None? || v.cc.value == 0) && !Truthy(v.ctype)
  }

  /** The checks a form that is not skipped must pass, apart from CC uniqueness. */
  predicate FormValid(v: FormValues) {
    Truthy(v.name) && v.cc.Some? && 0 <= v.cc.value <= 127 && Truthy(v.ctype) &&
    (v.ctype.value == "discrete" ==> Truthy(v.range))
  }

  function FormCc(v: FormValues): int {
    v.cc.GetOr(-1)
  }

  /** The messages `showFormError` would display, by cause. */
  datatype FormError =
    | DeviceNameRequired
    | DuplicateDeviceName
    | ControllerNameRequired(index: nat)
    | CcNumberOutOfRange(index: nat)
    | CcNumberInUse(index: nat, cc: int)
    | TypeRequired(index: nat)
    | RangeRequired(index: nat)

  datatype Result<T> = Ok(value: T) | Err(error: FormError)

  /** The controller a valid form yields: a continuous controller always has the
      range "0-127", any other keeps the trimmed range text. */
  function FormController(v: FormValues): Controller
    requires FormValid(v)
  {
    Controller(v.name.value, v.cc.value, v.ctype.value,
      if v.ctype.value == "continuous" then Some("0-127") else v.range)
  }

  /** What the checks make of one form, given the CC numbers already taken. */
  datatype FormCheck = Skip | Reject(error: FormError) | Accept(controller: Controller)

  /** The checks of one form, in the order the source makes them. */
  function CheckForm(v: FormValues, i: nat, used: set<int>): FormCheck {
    if SkippedForm(v) then Skip
    else if !Truthy(v.name) then Reject(ControllerNameRequired(i))
    else if v.cc.None? || v.cc.value < 0 || v.cc.value > 127 then Reject(CcNumberOutOfRange(i))
    else if v.cc.value in used then Reject(CcNumberInUse(i, v.cc.value))
    else if !Truthy(v.ctype) then Reject(TypeRequired(i))
    else if v.ctype.value == "discrete" && !Truthy(v.range) then Reject(RangeRequired(i))
    else Accept(FormController(v))
  }

  /** A form is skipped, accepted when valid with a fresh CC number, and rejected otherwise. */
  lemma CheckFormCases(f: FormValues, i: nat, used: set<int>)
    ensures CheckForm(f, i, used).Skip? <==> SkippedForm(f)
    ensures CheckForm(f, i, used).Accept? <==> !SkippedForm(f) && FormValid(f) && FormCc(f) !in used
    ensures CheckForm(f, i, used).Accept? ==> CheckForm(f, i, used).controller == FormController(f)
  {
  }

  /** The controller loop of `handleCreateDevice` from form i on, given the
      controllers accepted so far and their CC numbers. */
  function CollectFrom(forms: seq<FormValues>, i: nat, acc: seq<Controller>, used: set<int>): Result<seq<Controller>>
    requires i <= |forms|
    decreases |forms| - i
  {
    if i == |forms| then Ok(acc)
    else
      match CheckForm(forms[i], i, used)
      case Skip => CollectFrom(forms, i + 1, acc, used)
      case Reject(e) => Err(e)
      case Accept(c) => CollectFrom(forms, i + 1, acc + [c], used + {c.ccNumber})
  }

  function CollectControllersSpec(forms: seq<ControllerForm>): Result<seq<Controller>> {
    CollectFrom(ReadForms(forms), 0, [], {})
  }

  /** Every form from i on that is not skipped is valid, with a CC number not yet used. */
  ghost predicate RestValid(forms: seq<FormValues>, i: nat, used: set<int>) {
    forall j :: i <= j < |forms| && !SkippedForm(forms[j]) ==> FormValid(forms[j]) && FormCc(forms[j]) !in used
  }

  /** The forms from i on that are not skipped have pairwise distinct CC numbers. */
  ghost predicate RestDistinct(forms: seq<FormValues>, i: nat) {
    forall j, k :: i <= j < k < |forms| && !SkippedForm(forms[j]) && !SkippedForm(forms[k]) ==>
      FormCc(forms[j]) != FormCc(forms[k])
  }

  /** The submission is accepted exactly when every non-skipped form is valid and
      their CC numbers are pairwise distinct; one violation rejects it all. */
  lemma {:induction false} CollectAccepts(forms: seq<FormValues>, i: nat, acc: seq<Controller>, used: set<int>)
    requires i <= |forms|
    ensures CollectFrom(forms, i, acc, used).Ok? <==> RestValid(forms, i, used) && RestDistinct(forms, i)
    decreases |forms| - i
  {
    if i < |forms| {
      var f := forms[i];
      CheckFormCases(f, i, used);
      if SkippedForm(f) {
        CollectAccepts(forms, i + 1, acc, used);
      } else if FormValid(f) && FormCc(f) !in used {
        var cc := FormCc(f);
        assert FormController(f).ccNumber == cc;
        CollectAccepts(forms, i + 1, acc + [FormController(f)], used + {cc});
        if RestValid(forms, i + 1, used + {cc}) && RestDistinct(forms, i + 1) {
          forall j, k | i <= j < k < |forms| && !SkippedForm(forms[j]) && !SkippedForm(forms[k])
            ensures FormCc(forms[j]) != FormCc(forms[k])
          {
            if j == i { assert FormCc(forms[k]) !in used + {cc}; }
          }
        }
        if RestValid(forms, i, used) && RestDistinct(forms, i) {
          forall j | i + 1 <= j < |forms| && !SkippedForm(forms[j])
            ensures FormValid(forms[j]) && FormCc(forms[j]) !in used + {cc}
          {
            assert FormCc(forms[i]) != FormCc(forms[j]);
          }
        }
      } else {
        assert !RestValid(forms, i, used);
      }
    }
  }

  /** An accepted controller has a name, a CC number in 0..127, a type and the
      range its type demands. */
  predicate GoodController(c: Controller) {
    c.name != "" && 0 <= c.ccNumber <= 127 && c.ctype != "" &&
    (c.ctype == "continuous" ==> c.range == Some("0-127")) &&
    (c.ctype == "discrete" ==> c.range.Some? && c.range.value != "")
  }

  /** Every accepted controller is good and no two share a CC number. */
  ghost predicate GoodControllers(cs: seq<Controller>) {
    (forall i :: 0 <= i < |cs| ==> GoodController(cs[i])) &&
    (forall a, b :: 0 <= a < b < |cs| ==> cs[a].ccNumber != cs[b].ccNumber)
  }

  function CcSet(cs: seq<Controller>): set<int> {
    set i | 0 <= i < |cs| :: cs[i].ccNumber
  }

  lemma GoodSnoc(cs: seq<Controller>, c: Controller)
    requires GoodControllers(cs) && GoodController(c) && c.ccNumber !in CcSet(cs)
    ensures GoodControllers(cs + [c]) && CcSet(cs + [c]) == CcSet(cs) + {c.ccNumber}
  {
    var r := cs + [c];
    forall a, b | 0 <= a < b < |r| ensures r[a].ccNumber != r[b].ccNumber {
      if b == |cs| { assert r[a].ccNumber in CcSet(cs); }
    }
    forall x | x in CcSet(r) ensures x in CcSet(cs) + {c.ccNumber} {
      var k :| 0 <= k < |r| && r[k].ccNumber == x;
      if k < |cs| { assert cs[k].ccNumber == x; }
    }
    forall x | x in CcSet(cs) ensures x in CcSet(r) {
      var k :| 0 <= k < |cs| && cs[k].ccNumber == x;
      assert r[k].ccNumber == x;
    }
    assert r[|cs|].ccNumber == c.ccNumber;
  }

  lemma {:induction false} CollectGood(forms: seq<FormValues>, i: nat, acc: seq<Controller>, used: set<int>)
    requires i <= |forms| && GoodControllers(acc) && used == CcSet(acc)
    ensures CollectFrom(forms, i, acc, used).Ok? ==>
      GoodControllers(CollectFrom(forms, i, acc, used).value) &&
      |CollectFrom(forms, i, acc, used).value| <= |acc| + |forms| - i
    decreases |forms| - i
  {
    if i < |forms| {
      var f := forms[i];
      CheckFormCases(f, i, used);
      match CheckForm(f, i, used)
      case Skip =>
        CollectGood(forms, i + 1, acc, used);
      case Reject(_) =>
      case Accept(c) =>
        GoodSnoc(acc, c);
        CollectGood(forms, i + 1, acc + [c], used + {c.ccNumber});
    }
  }

  /** The accepted list of a whole submission. */
  lemma CollectControllersGood(forms: seq<ControllerForm>)
    ensures CollectControllersSpec(forms).Ok? <==> RestValid(ReadForms(forms), 0, {}) && RestDistinct(ReadForms(forms), 0)
    ensures CollectControllersSpec(forms).Ok? ==>
      GoodControllers(CollectControllersSpec(forms).value) && |CollectControllersSpec(forms).value| <= |forms|
  {
    CollectAccepts(ReadForms(forms), 0, [], {});
    assert CcSet([]) == {};
    CollectGood(ReadForms(forms), 0, [], {});
  }

  /** The controller loop as the source writes it, accumulating into
      `controllers` and `usedCCNumbers`. */
  method CollectControllers(forms: seq<ControllerForm>) returns (r: Result<seq<Controller>>)
    ensures r == CollectControllersSpec(forms)
  {
    var controllers: seq<Controller> := [];
    var usedCCNumbers: set<int> := {};
    ghost var vs := ReadForms(forms);
    ghost var spec := CollectFrom(vs, 0, [], {});
    var i := 0;
    while i < |forms|
      invariant 0 <= i <= |forms|
      invariant CollectFrom(vs, i, controllers, usedCCNumbers) == spec
    {
      var v := ReadForm(forms[i]);
      assert v == vs[i];
      var controllerName, ccNumber, ccType, ccRange := v.name, v.cc, v.ctype, v.range;
      if !Truthy(controllerName) && (ccNumber.None? || ccNumber.value == 0) && !Truthy(ccType) {
        i := i + 1;
        continue;
      }
      if !Truthy(controllerName) {
        return Err(ControllerNameRequired(i));
      }
      if ccNumber.None? || ccNumber.value < 0 || ccNumber.value > 127 {
        return Err(CcNumberOutOfRange(i));
      }
      if ccNumber.value in usedCCNumbers {
        return Err(CcNumberInUse(i, ccNumber.value));
      }
      if !Truthy(ccType) {
        return Err(TypeRequired(i));
      }
      if ccType.value == "discrete" && !Truthy(ccRange) {
        return Err(RangeRequired(i));
      }
      var controller := Controller(controllerName.value, ccNumber.value, ccType.value,
        if ccType.value == "continuous" then Some("0-127") else ccRange);
      usedCCNumbers := usedCCNumbers + {ccNumber.value};
      controllers := controllers + [controller];
      i := i + 1;
    }
    return Ok(controllers);
  }

  /** The first device whose name equals `name` ignoring (ASCII) case. */
  function FirstSameName(ds: seq<Device>, name: string): (r: Option<nat>)
    ensures r.None? <==> forall i :: 0 <= i < |ds| ==> AsciiLower(ds[i].name) != AsciiLower(name)
    ensures r.Some? ==>
      r.value < |ds| && AsciiLower(ds[r.value].name) == AsciiLower(name) &&
      (forall j :: 0 <= j < r.value ==> AsciiLower(ds[j].name) != AsciiLower(name))
  {
    if ds == [] then None
    else if AsciiLower(ds[0].name) == AsciiLower(name) then Some(0)
    else
      var r := FirstSameName(ds[1..], name);
      if r.Some? then Some(r.value + 1) else None
  }

  /** The name check: a same-named device blocks the submission unless it is the
      device being edited. */
  predicate DuplicateBlocks(ds: seq<Device>, name: string, editing: Option<int>) {
    var e := FirstSameName(ds, name);
    e.Some? && (editing.None? || ds[e.value].id != editing.value)
  }

  /** `configuredDevices.find(d => d.id === deviceId)`, as a position. */
  function FindDevice(ds: seq<Device>, id: int): (r: Option<nat>)
    ensures r.None? <==> forall i :: 0 <= i < |ds| ==> ds[i].id != id
    ensures r.Some? ==> r.value < |ds| && ds[r.value].id == id && (forall j :: 0 <= j < r.value ==> ds[j].id != id)
  {
    if ds == [] then None
    else if ds[0].id == id then Some(0)
    else
      var r := FindDevice(ds[1..], id);
      if r.Some? then Some(r.value + 1) else None
  }

  /** Rewriting the found device without changing its id keeps it the one found. */
  lemma FindDeviceUpdate(ds: seq<Device>, id: int, d: Device)
    requires FindDevice(ds, id).Some? && d.id == id
    ensures FindDevice(ds[FindDevice(ds, id).value := d], id) == FindDevice(ds, id)
  {
    var i := FindDevice(ds, id).value;
    assert ds[i := d][i].id == id;
    var r := FindDevice(ds[i := d], id);
    var e := ds[i := d];
    assert forall j :: 0 <= j < i ==> e[j].id != id;
  }

  /** The record written in place when an edit is submitted. */
  function EditDevice(ds: seq<Device>, id: int, name: string, color: string, cs: seq<Controller>): seq<Device> {
    var i := FindDevice(ds, id);
    if i.None? then ds else ds[i.value := ds[i.value].(name := name, color := color, controllers := cs)]
  }

  /** The device list after `updateDeviceInterface`: the found device records
      the interface, and its status says whether one is assigned. */
  function SetInterface(ds: seq<Device>, id: int, interfaceId: string): seq<Device> {
    var i := FindDevice(ds, id);
    if i.None? then ds
    else ds[i.value := ds[i.value].(
      assignedInterface := interfaceId,
      status := if interfaceId != "" then "configured" else "not_configured")]
  }

  /** The device list after `updateDeviceChannel`. */
  function SetChannel(ds: seq<Device>, id: int, channel: int): seq<Device> {
    var i := FindDevice(ds, id);
    if i.None? then ds else ds[i.value := ds[i.value].(assignedChannel := channel)]
  }

  /** Setting the interface changes the found device's interface and status
      only; every other device and every id stay as they were. */
  lemma SetInterfaceEffect(ds: seq<Device>, id: int, interfaceId: string)
    ensures |SetInterface(ds, id, interfaceId)| == |ds|
    ensures forall j :: 0 <= j < |ds| && ds[j].id != id ==> SetInterface(ds, id, interfaceId)[j] == ds[j]
    ensures forall j :: 0 <= j < |ds| ==> SetInterface(ds, id, interfaceId)[j].id == ds[j].id
    ensures FindDevice(ds, id).Some? ==>
      var d := SetInterface(ds, id, interfaceId)[FindDevice(ds, id).value];
      d.assignedInterface == interfaceId && (d.status == "configured" <==> interfaceId != "") &&
      d.assignedChannel == ds[FindDevice(ds, id).value].assignedChannel
    ensures FindDevice(SetInterface(ds, id, interfaceId), id) == FindDevice(ds, id)
  {
    var i := FindDevice(ds, id);
    if i.Some? {
      FindDeviceUpdate(ds, id, SetInterface(ds, id, interfaceId)[i.value]);
    }
  }

  /** Setting the channel changes the found device's channel only. */
  lemma SetChannelEffect(ds: seq<Device>, id: int, channel: int)
    ensures |SetChannel(ds, id, channel)| == |ds|
    ensures forall j :: 0 <= j < |ds| && ds[j].id != id ==> SetChannel(ds, id, channel)[j] == ds[j]
    ensures forall j :: 0 <= j < |ds| ==> SetChannel(ds, id, channel)[j].id == ds[j].id
    ensures FindDevice(ds, id).Some? ==> SetChannel(ds, id, channel)[FindDevice(ds, id).value].assignedChannel == channel
    ensures FindDevice(SetChannel(ds, id, channel), id) == FindDevice(ds, id)
  {
    var i := FindDevice(ds, id);
    if i.Some? {
      FindDeviceUpdate(ds, id, SetChannel(ds, id, channel)[i.value]);
    }
  }

  /** `configuredDevices.filter(d => d.id !== deviceId)`. */
  function RemoveById(ds: seq<Device>, id: int): (r: seq<Device>)
    ensures |r| <= |ds|
    ensures forall d :: d in r <==> d in ds && d.id != id
  {
    if ds == [] then []
    else (if ds[0].id == id then [] else [ds[0]]) + RemoveById(ds[1..], id)
  }

  /** Filtering distributes over concatenation, so the kept devices keep their order. */
  lemma {:induction false} RemoveByIdAppend(a: seq<Device>, b: seq<Device>, id: int)
    ensures RemoveById(a + b, id) == RemoveById(a, id) + RemoveById(b, id)
  {
    if a != [] {
      assert (a + b)[0] == a[0];
      assert (a + b)[1..] == a[1..] + b;
      RemoveByIdAppend(a[1..], b, id);
      var x := if a[0].id == id then [] else [a[0]];
      assert RemoveById(a + b, id) == x + (RemoveById(a[1..], id) + RemoveById(b, id));
      assert RemoveById(a, id) == x + RemoveById(a[1..], id);
    } else {
      assert a + b == b;
    }
  }

  /** The routing key under which a configured device appears in the matrix. */
  function DeviceKey(id: int): string {
    "device:" + IntToString(id)
  }

  /** The update `notifyTracksOfDeviceChange` asks for. */
  function SyncPatch(channel: int): RoutingPatch {
    NoChange.(channel := Some(channel), channelLocked := Some(true))
  }

  predicate UsesDevice(r: RoutingEntry, key: string) {
    r.deviceId == Some(key) && r.enabled
  }

  /** The entry after the notification: updated when it uses the device and the
      update passes `updateRouting`'s checks, untouched otherwise. */
  function SyncEntry(r: RoutingEntry, key: string, channel: int): RoutingEntry {
    if SyncApplies(r, key, channel) then Merge(r, SyncPatch(channel)) else r
  }

  function SyncAll(rs: seq<(TrackId, RoutingEntry)>, key: string, channel: int): (out: seq<(TrackId, RoutingEntry)>)
    ensures |out| == |rs|
  {
    seq(|rs|, i requires 0 <= i < |rs| => (rs[i].0, SyncEntry(rs[i].1, key, channel)))
  }

  /** With a channel in 1..16 and entries that passed validation, every routing
      enabled on the device ends on that channel, locked; every other one is
      untouched; and notifying twice changes nothing more. */
  lemma SyncAllLocks(rs: seq<(TrackId, RoutingEntry)>, key: string, assignedChannel: int)
    requires 1 <= assignedChannel <= 16
    requires forall i :: 0 <= i < |rs| ==> InRange(rs[i].1)
    ensures forall i :: 0 <= i < |rs| && UsesDevice(rs[i].1, key) ==>
      SyncAll(rs, key, assignedChannel - 1)[i].1 == rs[i].1.(channel := assignedChannel - 1, channelLocked := true)
    ensures forall i :: 0 <= i < |rs| && !UsesDevice(rs[i].1, key) ==> SyncAll(rs, key, assignedChannel - 1)[i] == rs[i]
    ensures SyncAll(SyncAll(rs, key, assignedChannel - 1), key, assignedChannel - 1) == SyncAll(rs, key, assignedChannel - 1)
  {
  }

  predicate SyncApplies(r: RoutingEntry, key: string, channel: int) {
    UsesDevice(r, key) && InRange(Merge(r, SyncPatch(channel)))
  }

  /** The RoutingChanged notifications of the entries that were updated, in order. */
  function SyncEvents(rs: seq<(TrackId, RoutingEntry)>, key: string, channel: int): seq<MatrixEvent> {
    if rs == [] then []
    else
      var last := rs[|rs| - 1];
      SyncEvents(rs[..|rs| - 1], key, channel) +
        (if SyncApplies(last.1, key, channel) then [RoutingChanged(last.0, Merge(last.1, SyncPatch(channel)))] else [])
  }

  /** Offering one more routing adds its notification, if it was updated. */
  lemma SyncEventsStep(rs: seq<(TrackId, RoutingEntry)>, i: nat, key: string, channel: int)
    requires i < |rs|
    ensures SyncEvents(rs[..i + 1], key, channel) == SyncEvents(rs[..i], key, channel) +
      (if SyncApplies(rs[i].1, key, channel) then [RoutingChanged(rs[i].0, Merge(rs[i].1, SyncPatch(channel)))] else [])
  {
    assert rs[..i + 1][..i] == rs[..i];
  }

  /** The (1-based) channel of the device with that id, if there is one. */
  function DeviceChannel(ds: seq<Device>, id: int): Option<int> {
    var i := FindDevice(ds, id);
    if i.None? then None else Some(ds[i.value].assignedChannel)
  }

  /** The routing table after `notifyTracksOfDeviceChange`: unchanged when no
      device was found, otherwise synchronised to its channel, converted to 0-based. */
  function SyncFor(rs: seq<(TrackId, RoutingEntry)>, key: string, channel: Option<int>): seq<(TrackId, RoutingEntry)> {
    if channel.None? then rs else SyncAll(rs, key, channel.value - 1)
  }

  /** The notifications `notifyTracksOfDeviceChange` emits. */
  function SyncEventsFor(rs: seq<(TrackId, RoutingEntry)>, key: string, channel: Option<int>): seq<MatrixEvent> {
    if channel.None? then [] else SyncEvents(rs, key, channel.value - 1)
  }

  /** Setting the interface leaves the channel the notification uses alone. */
  lemma ChannelAfterInterface(ds: seq<Device>, id: int, interfaceId: string)
    ensures DeviceChannel(SetInterface(ds, id, interfaceId), id) == DeviceChannel(ds, id)
  {
    var i := FindDevice(ds, id);
    if i.Some? {
      var e := SetInterface(ds, id, interfaceId);
      FindDeviceUpdate(ds, id, e[i.value]);
    }
  }

  /** After setting the channel of a known device, the notification uses that channel. */
  lemma ChannelAfterSetChannel(ds: seq<Device>, id: int, channel: int)
    ensures DeviceChannel(SetChannel(ds, id, channel), id) ==
      if FindDevice(ds, id).None? then None else Some(channel)
  {
    var i := FindDevice(ds, id);
    if i.Some? {
      var e := SetChannel(ds, id, channel);
      FindDeviceUpdate(ds, id, e[i.value]);
    }
  }

  /** The routing table part-way through the notification loop: the first i
      entries of the snapshot are synchronised, the rest as they were. */
  ghost predicate SyncedUpTo(cur: seq<(TrackId, RoutingEntry)>, snap: seq<(TrackId, RoutingEntry)>, i: nat, key: string, channel: int) {
    |cur| == |snap| &&
    forall j :: 0 <= j < |snap| ==> cur[j] == (snap[j].0, if j < i then SyncEntry(snap[j].1, key, channel) else snap[j].1)
  }

  lemma SyncedStep(cur: seq<(TrackId, RoutingEntry)>, snap: seq<(TrackId, RoutingEntry)>, i: nat, key: string, channel: int)
    requires SyncedUpTo(cur, snap, i, key, channel) && i < |snap|
    ensures cur[i] == snap[i]
    ensures SyncApplies(snap[i].1, key, channel) ==>
      SyncedUpTo(cur[i := (snap[i].0, Merge(snap[i].1, SyncPatch(channel)))], snap, i + 1, key, channel)
    ensures !SyncApplies(snap[i].1, key, channel) ==> SyncedUpTo(cur, snap, i + 1, key, channel)
  {
  }

  lemma SyncedDone(cur: seq<(TrackId, RoutingEntry)>, snap: seq<(TrackId, RoutingEntry)>, key: string, channel: int)
    requires SyncedUpTo(cur, snap, |snap|, key, channel)
    ensures cur == SyncAll(snap, key, channel)
  {
  }

  /** The loop of `notifyTracksOfDeviceChange`: each routing of the table, as it
      stood when the loop began, is offered the device's channel in turn. */
  method SyncDeviceRoutings(matrix: RoutingMatrix, deviceIdString: string, newChannel: int)
    requires matrix.Valid()
    modifies matrix
    ensures matrix.Valid() && matrix.tracks == old(matrix.tracks)
    ensures matrix.routings == SyncAll(old(matrix.routings), deviceIdString, newChannel)
    ensures matrix.events == old(matrix.events) + SyncEvents(old(matrix.routings), deviceIdString, newChannel)
  {
    var snapshot := matrix.routings;
    ghost var events0, tracks0 := matrix.events, matrix.tracks;
    var i := 0;
    while i < |snapshot|
      invariant 0 <= i <= |snapshot|
      invariant matrix.Valid() && matrix.tracks == tracks0
      invariant SyncedUpTo(matrix.routings, snapshot, i, deviceIdString, newChannel)
      invariant matrix.events == events0 + SyncEvents(snapshot[..i], deviceIdString, newChannel)
    {
      var (trackId, routing) := snapshot[i];
      SyncedStep(matrix.routings, snapshot, i, deviceIdString, newChannel);
      SyncEventsStep(snapshot, i, deviceIdString, newChannel);
      ghost var log := SyncEvents(snapshot[..i], deviceIdString, newChannel);
      ghost var step: seq<MatrixEvent> := if SyncApplies(routing, deviceIdString, newChannel)
        then [RoutingChanged(trackId, Merge(routing, SyncPatch(newChannel)))] else [];
      if routing.deviceId == Some(deviceIdString) && routing.enabled {
        LookupAt(matrix.routings, i);
        PutAt(matrix.routings, i, Merge(routing, SyncPatch(newChannel)));
        var _ := matrix.UpdateRouting(trackId, SyncPatch(newChannel));
      }
      AppendAssoc(events0, log, step);
      i := i + 1;
    }
    SyncedDone(matrix.routings, snapshot, deviceIdString, newChannel);
    assert snapshot[..i] == snapshot;
  }

  /** `(device.id || device.deviceId || next + index)` and the other `||`
      defaults read integers and strings by JavaScript truthiness. */
  function OrInt(x: Option<int>, default: int): int {
    if x.Some? && x.value != 0 then x.value else default
  }

  function OrStr(x: Option<string>, default: string): string {
    if Truthy(x) then x.value else default
  }

  /** A device record as found in storage; None is a missing or null property. */
  datatype StoredDevice = StoredDevice(
    id: Option<int>,
    deviceId: Option<int>,
    name: Option<string>,
    color: Option<string>,
    controllers: Option<seq<Controller>>,
    assignedInterface: Option<string>,
    assignedChannel: Option<int>,
    status: Option<string>)

  /** What `localStorage.getItem` and `JSON.parse` produce. */
  datatype StoredConfig =
    | NothingStored
    | Unparseable
    | Parsed(devices: Option<seq<StoredDevice>>)

  function Migrate(d: StoredDevice, index: nat, nextDeviceId: int): Device {
    Device(
      OrInt(d.id, OrInt(d.deviceId, nextDeviceId + index)),
      OrStr(d.name, "Unknown Device"),
      OrStr(d.color, "#4a90e2"),
      d.controllers.GetOr([]),
      OrStr(d.assignedInterface, ""),
      OrInt(d.assignedChannel, 1),
      OrStr(d.status, "not_configured"))
  }

  function MigrateAll(ds: seq<StoredDevice>, nextDeviceId: int): (r: seq<Device>)
    ensures |r| == |ds|
    ensures forall i :: 0 <= i < |ds| ==> r[i] == Migrate(ds[i], i, nextDeviceId)
  {
    seq(|ds|, i requires 0 <= i < |ds| => Migrate(ds[i], i, nextDeviceId))
  }

  /** The migration's purpose: every loaded device has a name, a color, a
      status and a non-zero channel, and, when ids are handed out from 1 on, a
      non-zero id. */
  lemma MigrateRequired(ds: seq<StoredDevice>, nextDeviceId: int)
    ensures forall i :: 0 <= i < |ds| ==>
      var d := MigrateAll(ds, nextDeviceId)[i];
      d.name != "" && d.color != "" && d.status != "" && d.assignedChannel != 0
    ensures nextDeviceId >= 1 ==> forall i :: 0 <= i < |ds| ==> MigrateAll(ds, nextDeviceId)[i].id != 0
  {
  }

  /** A migrated list survives a save and a reload unchanged. */
  lemma MigrateSaveLoad(ds: seq<StoredDevice>, nextDeviceId: int, laterNextId: int)
    requires nextDeviceId >= 1
    ensures var loaded := MigrateAll(ds, nextDeviceId);
      MigrateAll(seq(|loaded|, i requires 0 <= i < |loaded| => Store(loaded[i])), laterNextId) == loaded
  {
    MigrateRequired(ds, nextDeviceId);
    LoadSaveRoundTrip(MigrateAll(ds, nextDeviceId), laterNextId);
  }

  /** What `autoSaveConfiguration` writes for a device. */
  function Store(d: Device): StoredDevice {
    StoredDevice(Some(d.id), None, Some(d.name), Some(d.color), Some(d.controllers),
      Some(d.assignedInterface), Some(d.assignedChannel), Some(d.status))
  }

  /** Saving and loading gives the devices back, as long as no field the
      migration treats as missing is falsy (id 0, empty name, color or status,
      channel 0). */
  lemma LoadSaveRoundTrip(ds: seq<Device>, nextDeviceId: int)
    requires forall i :: 0 <= i < |ds| ==>
      ds[i].id != 0 && ds[i].name != "" && ds[i].color != "" && ds[i].assignedChannel != 0 && ds[i].status != ""
    ensures MigrateAll(seq(|ds|, i requires 0 <= i < |ds| => Store(ds[i])), nextDeviceId) == ds
  {
  }

  function MaxId(ds: seq<Device>): (m: int)
    requires ds != []
    ensures forall i :: 0 <= i < |ds| ==> ds[i].id <= m
    ensures exists i :: 0 <= i < |ds| && ds[i].id == m
  {
    if |ds| == 1 then ds[0].id
    else
      var r := MaxId(ds[1..]);
      assert forall i :: 1 <= i < |ds| ==> ds[i] == ds[1..][i - 1];
      if ds[0].id >= r then ds[0].id else r
  }

  /** `handleControllerSelection` on the selected CC list: checking adds a new CC
      while fewer than four are selected; unchecking removes every occurrence. */
  function SelectController(selected: seq<int>, cc: int, checked: bool): seq<int> {
    if checked then
      if cc !in selected && |selected| < 4 then selected + [cc] else selected
    else RemoveCc(selected, cc)
  }

  function RemoveCc(s: seq<int>, cc: int): (r: seq<int>)
    ensures forall x :: x in r <==> x in s && x != cc
    ensures |r| <= |s|
  {
    if s == [] then [] else (if s[0] == cc then [] else [s[0]]) + RemoveCc(s[1..], cc)
  }

  predicate NoDuplicates(s: seq<int>) {
    forall i, j :: 0 <= i < j < |s| ==> s[i] != s[j]
  }

  lemma {:induction false} RemoveCcNoDuplicates(s: seq<int>, cc: int)
    requires NoDuplicates(s)
    ensures NoDuplicates(RemoveCc(s, cc))
  {
    if s != [] {
      RemoveCcNoDuplicates(s[1..], cc);
      var rest := RemoveCc(s[1..], cc);
      if s[0] != cc {
        var r := [s[0]] + rest;
        forall i, j | 0 <= i < j < |r| ensures r[i] != r[j] {
          if i == 0 {
            assert r[j] in rest;
            assert r[j] in s[1..];
          } else {
            assert r[i] == rest[i - 1] && r[j] == rest[j - 1];
          }
        }
      }
    }
  }

  /** The selection stays duplicate-free and holds at most four CCs; afterwards
      a checked CC is selected unless the list was full, an unchecked one is not. */
  lemma SelectControllerBounded(selected: seq<int>, cc: int, checked: bool)
    requires NoDuplicates(selected) && |selected| <= 4
    ensures NoDuplicates(SelectController(selected, cc, checked)) && |SelectController(selected, cc, checked)| <= 4
    ensures checked ==> (cc in SelectController(selected, cc, checked) <==> cc in selected || |selected| < 4)
    ensures !checked ==> cc !in SelectController(selected, cc, checked)
    ensures forall x :: x != cc ==> (x in SelectController(selected, cc, checked) <==> x in selected)
  {
    if !checked {
      RemoveCcNoDuplicates(selected, cc);
    }
  }

  /** `labels[status] || status`. */
  function GetStatusLabel(status: string): (text: string)
    ensures status == "not_configured" ==> text == "Not Configured"
    ensures status == "configured" ==> text == "Ready"
    ensures status == "active" ==> text == "Active"
    ensures status != "not_configured" && status != "configured" && status != "active" ==> text == status
  {
    if status == "not_configured" then "Not Configured"
    else if status == "configured" then "Ready"
    else if status == "active" then "Active"
    else status
  }

  /** getDeviceInfo's argument: a numeric id, or a string such as "device:3". */
  datatype DeviceRef = NumericRef(n: int) | TextRef(s: string)

  datatype CreateOutcome = Rejected(error: FormError) | Created(id: int) | Updated(id: int)

  class DeviceConfiguration {
    var devices: seq<Device>
    var nextDeviceId: int
    /** The id of the device whose edit form is open. */
    var editing: Option<int>
    /** `window.app.routingMatrix`, once the sequencer has created it. */
    var matrix: RoutingMatrix?

    /** Every id handed out so far is below the next one. */
    ghost predicate Valid()
      reads this, matrix
    {
      (forall i :: 0 <= i < |devices| ==> devices[i].id < nextDeviceId) &&
      (matrix != null ==> matrix.Valid())
    }

    constructor (matrix: RoutingMatrix?)
      requires matrix != null ==> matrix.Valid()
      ensures Valid()
      ensures devices == [] && nextDeviceId == 1 && editing == None && this.matrix == matrix
    {
      devices, nextDeviceId, editing := [], 1, None;
      this.matrix := matrix;
    }

    /** `showControllerSetup`/`showEditDeviceModal`: remembers which device the
        open form edits. */
    method BeginEdit(deviceId: int)
      modifies this
      ensures devices == old(devices) && nextDeviceId == old(nextDeviceId) && matrix == old(matrix)
      ensures editing == if FindDevice(devices, deviceId).Some? then Some(deviceId) else old(editing)
    {
      var i := FindDevice(devices, deviceId);
      if i.Some? {
        editing := Some(deviceId);
      }
    }

    method HandleCreateDevice(deviceName: Option<string>, deviceColor: string, forms: seq<ControllerForm>)
      returns (outcome: CreateOutcome)
      requires Valid()
      modifies this
      ensures Valid() && matrix == old(matrix)
      ensures outcome.Rejected? ==>
        devices == old(devices) && nextDeviceId == old(nextDeviceId) && editing == old(editing)
      ensures !Truthy(TrimOpt(deviceName)) ==> outcome == Rejected(DeviceNameRequired)
      ensures Truthy(TrimOpt(deviceName)) && DuplicateBlocks(old(devices), TrimOpt(deviceName).value, old(editing)) ==>
        outcome == Rejected(DuplicateDeviceName)
      ensures Truthy(TrimOpt(deviceName)) && !DuplicateBlocks(old(devices), TrimOpt(deviceName).value, old(editing)) ==>
        match CollectControllersSpec(forms)
        case Err(e) => outcome == Rejected(e)
        case Ok(cs) =>
          editing == None &&
          if old(editing).None? then
            outcome == Created(old(nextDeviceId)) && nextDeviceId == old(nextDeviceId) + 1 &&
            devices == old(devices) + [Device(old(nextDeviceId), TrimOpt(deviceName).value, deviceColor, cs, "", 1, "not_configured")]
          else
            outcome == Updated(old(editing).value) && nextDeviceId == old(nextDeviceId) &&
            devices == EditDevice(old(devices), old(editing).value, TrimOpt(deviceName).value, deviceColor, cs)
      ensures outcome.Created? ==> forall i :: 0 <= i < |old(devices)| ==> old(devices)[i].id != outcome.id
    {
      var name := TrimOpt(deviceName);
      if !Truthy(name) {
        return Rejected(DeviceNameRequired);
      }
      var existing := FirstSameName(devices, name.value);
      if existing.Some? && (editing.None? || devices[existing.value].id != editing.value) {
        return Rejected(DuplicateDeviceName);
      }
      var controllers := CollectControllers(forms);
      if controllers.Err? {
        return Rejected(controllers.error);
      }
      outcome := SaveDevice(name.value, deviceColor, controllers.value);
    }

    /** The end of `handleCreateDevice`: the edit is written in place, or a new
        device is appended under the next id; either way the form closes. */
    method SaveDevice(name: string, color: string, cs: seq<Controller>) returns (outcome: CreateOutcome)
      requires Valid()
      modifies this
      ensures Valid() && matrix == old(matrix) && editing == None
      ensures old(editing).None? ==>
        outcome == Created(old(nextDeviceId)) && nextDeviceId == old(nextDeviceId) + 1 &&
        devices == old(devices) + [Device(old(nextDeviceId), name, color, cs, "", 1, "not_configured")]
      ensures old(editing).Some? ==>
        outcome == Updated(old(editing).value) && nextDeviceId == old(nextDeviceId) &&
        devices == EditDevice(old(devices), old(editing).value, name, color, cs)
      ensures outcome.Created? ==> forall i :: 0 <= i < |old(devices)| ==> old(devices)[i].id != outcome.id
    {
      if editing.Some? {
        var id := editing.value;
        var i := FindDevice(devices, id);
        if i.Some? {
          devices := devices[i.value := devices[i.value].(name := name, color := color, controllers := cs)];
        }
        editing := None;
        return Updated(id);
      }
      var newDevice := Device(nextDeviceId, name, color, cs, "", 1, "not_configured");
      nextDeviceId := nextDeviceId + 1;
      devices := devices + [newDevice];
      editing := None;
      return Created(newDevice.id);
    }

    method RemoveDevice(deviceId: int)
      requires Valid()
      modifies this
      ensures Valid()
      ensures devices == RemoveById(old(devices), deviceId)
      ensures nextDeviceId == old(nextDeviceId) && editing == old(editing) && matrix == old(matrix)
    {
      devices := RemoveById(devices, deviceId);
      forall i | 0 <= i < |devices| ensures devices[i].id < nextDeviceId {
        assert devices[i] in old(devices);
      }
    }

    /** Writes back the record of the device at position i, keeping its id. */
    method ReplaceDevice(i: nat, d: Device)
      requires Valid() && i < |devices| && d.id == devices[i].id
      modifies this
      ensures Valid()
      ensures devices == old(devices)[i := d]
      ensures nextDeviceId == old(nextDeviceId) && editing == old(editing) && matrix == old(matrix)
    {
      devices := devices[i := d];
    }

    /** Records the interface, then notifies the tracks using the device. */
    method UpdateDeviceInterface(deviceId: int, interfaceId: string)
      requires Valid()
      modifies this, matrix
      ensures Valid()
      ensures nextDeviceId == old(nextDeviceId) && editing == old(editing) && matrix == old(matrix)
      ensures devices == SetInterface(old(devices), deviceId, interfaceId)
      ensures matrix != null ==> matrix.tracks == old(matrix.tracks)
      ensures matrix != null ==>
        matrix.routings == SyncFor(old(matrix.routings), DeviceKey(deviceId), DeviceChannel(devices, deviceId)) &&
        matrix.events == old(matrix.events) + SyncEventsFor(old(matrix.routings), DeviceKey(deviceId), DeviceChannel(devices, deviceId))
    {
      var i := FindDevice(devices, deviceId);
      if i.Some? {
        var d := devices[i.value].(
          assignedInterface := interfaceId,
          status := if interfaceId != "" then "configured" else "not_configured");
        ReplaceDevice(i.value, d);
        NotifyTracksOfDeviceChange(deviceId);
      }
    }

    /** Records the (1-based) channel, then notifies the tracks using the device. */
    method UpdateDeviceChannel(deviceId: int, channel: int)
      requires Valid()
      modifies this, matrix
      ensures Valid()
      ensures nextDeviceId == old(nextDeviceId) && editing == old(editing) && matrix == old(matrix)
      ensures devices == SetChannel(old(devices), deviceId, channel)
      ensures matrix != null ==> matrix.tracks == old(matrix.tracks)
      ensures matrix != null ==>
        matrix.routings == SyncFor(old(matrix.routings), DeviceKey(deviceId), DeviceChannel(devices, deviceId)) &&
        matrix.events == old(matrix.events) + SyncEventsFor(old(matrix.routings), DeviceKey(deviceId), DeviceChannel(devices, deviceId))
    {
      var i := FindDevice(devices, deviceId);
      if i.Some? {
        var d := devices[i.value].(assignedChannel := channel);
        ReplaceDevice(i.value, d);
        NotifyTracksOfDeviceChange(deviceId);
      }
    }

    /** Every routing enabled on "device:<id>" is asked to move to the device's
        channel (converted to 0-based) and be locked there. */
    method NotifyTracksOfDeviceChange(deviceId: int)
      requires Valid()
      modifies matrix
      ensures Valid()
      ensures matrix != null ==> matrix.tracks == old(matrix.tracks)
      ensures matrix != null ==>
        matrix.routings == SyncFor(old(matrix.routings), DeviceKey(deviceId), DeviceChannel(devices, deviceId)) &&
        matrix.events == old(matrix.events) + SyncEventsFor(old(matrix.routings), DeviceKey(deviceId), DeviceChannel(devices, deviceId))
    {
      if matrix == null {
        return;
      }
      var deviceIdString := DeviceKey(deviceId);
      var d := FindDevice(devices, deviceId);
      if d.None? {
        return;
      }
      var newChannel := devices[d.value].assignedChannel - 1;
      assert DeviceChannel(devices, deviceId) == Some(newChannel + 1);
      SyncDeviceRoutings(matrix, deviceIdString, newChannel);
      assert devices == old(devices);
    }

    function GetDeviceConfig(deviceId: int): (d: Option<Device>)
      reads this
      ensures d.None? <==> forall i :: 0 <= i < |devices| ==> devices[i].id != deviceId
      ensures d.Some? ==> d.value.id == deviceId && d.value in devices
      ensures d.Some? ==>
        exists k :: 0 <= k < |devices| && devices[k] == d.value && forall j :: 0 <= j < k ==> devices[j].id != deviceId
    {
      var i := FindDevice(devices, deviceId);
      if i.Some? then Some(devices[i.value]) else None
    }

    /** A "device:<n>" string is read back with parseInt; any other string never
        equals a numeric id. */
    function GetDeviceInfo(ref: DeviceRef): (d: Option<Device>)
      reads this
      ensures ref.NumericRef? ==> d == GetDeviceConfig(ref.n)
      ensures ref.TextRef? && !("device:" <= ref.s) ==> d.None?
    {
      match ref
      case NumericRef(n) => GetDeviceConfig(n)
      case TextRef(s) =>
        if "device:" <= s then
          var n := ParseInt(s[7..]);
          if n.Some? then GetDeviceConfig(n.value) else None
        else None
    }

    /** The routing key of a device leads back to the device. */
    lemma DeviceKeyRoundTrip(id: int)
      ensures GetDeviceInfo(TextRef(DeviceKey(id))) == GetDeviceConfig(id)
    {
      var key := DeviceKey(id);
      assert "device:" <= key;
      assert key[7..] == IntToString(id);
      ParseIntOfIntToString(id);
    }

    /** `loadConfiguration`: migrate each stored record and move `nextDeviceId`
        past the largest id; a parse failure empties the list. */
    method LoadConfiguration(stored: StoredConfig)
      requires Valid()
      modifies this
      ensures Valid() && editing == old(editing) && matrix == old(matrix)
      ensures stored.NothingStored? ==> devices == old(devices) && nextDeviceId == old(nextDeviceId)
      ensures stored.Unparseable? ==> devices == [] && nextDeviceId == old(nextDeviceId)
      ensures stored.Parsed? ==>
        devices == MigrateAll(stored.devices.GetOr([]), old(nextDeviceId)) &&
        nextDeviceId == if devices == [] then old(nextDeviceId) else MaxId(devices) + 1
      ensures forall i :: 0 <= i < |devices| ==> devices[i].id < nextDeviceId
    {
      match stored
      case NothingStored =>
      case Unparseable =>
        devices := [];
      case Parsed(ds) =>
        devices := MigrateAll(ds.GetOr([]), nextDeviceId);
        if |devices| > 0 {
          nextDeviceId := MaxId(devices) + 1;
        }
    }
  }
}
