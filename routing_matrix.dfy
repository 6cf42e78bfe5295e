/** The routing matrix (scripts/routingMatrix.js): the sequencer's table of
    track presence (who occupies a track slot) and per-track routing (where a
    track's MIDI goes, on which channel, at what volume and transposition). */
module Routing {
  import opened Common
  import opened OrderedMaps

  /** A track slot index. The source keys its maps by the decimal string of
      the slot number; `parseInt(trackId)` is the index itself. */
  type TrackId = nat

  /** Presence record of a track (`lastActivity` timestamps are not modelled). */
  datatype Presence = Presence(socketId: string, initials: string, status: string)

  /** Routing entry of a track. `deviceId` is `null` (None) or a string such as
      "device:3" or "interface:abc". */
  datatype RoutingEntry = RoutingEntry(
    deviceId: Option<string>,
    channel: int,
    enabled: bool,
    channelLocked: bool,
    volume: int,
    transpose: int)

  /** The entry `addTrack` creates for a track seen for the first time. */
  const DefaultRouting := RoutingEntry(None, 0, false, false, 127, 0)

  /** JavaScript truthiness of `routing.deviceId`: neither null nor "". */
  predicate HasDevice(r: RoutingEntry) {
    r.deviceId.Some? && r.deviceId.value != ""
  }

  /** The three range checks of `updateRouting`. */
  predicate InRange(r: RoutingEntry) {
    0 <= r.channel <= 15 && 0 <= r.volume <= 127 && -24 <= r.transpose <= 24
  }

  /** The partial configuration passed to `updateRouting`; None is a property
      the caller did not give. */
  datatype RoutingPatch = RoutingPatch(
    deviceId: Option<Option<string>>,
    channel: Option<int>,
    enabled: Option<bool>,
    channelLocked: Option<bool>,
    volume: Option<int>,
    transpose: Option<int>)

  const NoChange := RoutingPatch(None, None, None, None, None, None)

  /** `{...current, ...config}`: every given property overrides the current one. */
  function Merge(cur: RoutingEntry, p: RoutingPatch): RoutingEntry {
    RoutingEntry(
      p.deviceId.GetOr(cur.deviceId),
      p.channel.GetOr(cur.channel),
      p.enabled.GetOr(cur.enabled),
      p.channelLocked.GetOr(cur.channelLocked),
      p.volume.GetOr(cur.volume),
      p.transpose.GetOr(cur.transpose))
  }

  /** Merging nothing changes nothing, and merging is last-writer-wins. */
  lemma MergeLaws(cur: RoutingEntry, p: RoutingPatch)
    ensures Merge(cur, NoChange) == cur
    ensures Merge(Merge(cur, p), p) == Merge(cur, p)
  {
  }

  /** Notifications the matrix hands to its observers, in order. */
  datatype MatrixEvent =
    | TrackAdded(id: TrackId, presence: Presence)
    | TrackRemoved(id: TrackId, presence: Presence)
    | TrackUpdated(id: TrackId, presence: Presence)
    | RoutingChanged(id: TrackId, routing: RoutingEntry)

  /** A routing entry that occupies device `d`, channel `c`. */
  predicate Occupies(r: RoutingEntry, d: Option<string>, c: int) {
    r.deviceId == d && r.channel == c && r.enabled
  }

  /** No entry other than the excluded track occupies (d, c). */
  ghost predicate ChannelFree(rs: seq<(TrackId, RoutingEntry)>, d: Option<string>, c: int, exclude: Option<TrackId>) {
    forall i :: 0 <= i < |rs| && Some(rs[i].0) != exclude ==> !Occupies(rs[i].1, d, c)
  }

  /** The ids of enabled entries on device `d` (and on channel `ch`, when given), in
      map order. */
  function TracksOn(rs: seq<(TrackId, RoutingEntry)>, d: Option<string>, ch: Option<int>): seq<TrackId> {
    if rs == [] then []
    else
      var last := rs[|rs| - 1];
      var r := last.1;
      TracksOn(rs[..|rs| - 1], d, ch) +
        (if r.deviceId == d && (ch.None? || r.channel == ch.value) && r.enabled then [last.0] else [])
  }

  /** A track is listed exactly when its entry is enabled on that device (and channel). */
  lemma {:induction false} TracksOnMembers(rs: seq<(TrackId, RoutingEntry)>, d: Option<string>, ch: Option<int>, id: TrackId)
    requires DistinctKeys(rs)
    ensures id in TracksOn(rs, d, ch) <==>
      (Lookup(rs, id).Some? && Lookup(rs, id).value.deviceId == d && Lookup(rs, id).value.enabled &&
       (ch.None? || Lookup(rs, id).value.channel == ch.value))
  {
    if rs != [] {
      var front := rs[..|rs| - 1];
      var last := rs[|rs| - 1];
      assert DistinctKeys(front);
      TracksOnMembers(front, d, ch, id);
      assert rs == front + [last];
      LookupSnoc(front, last.0, last.1, id);
      if id == last.0 {
        assert id !in KeySet(front) by {
          forall m | 0 <= m < |front| ensures front[m].0 != id {
            assert rs[m].0 != rs[|rs| - 1].0;
          }
        }
      }
    }
  }

  /** Appending a new pair does not disturb earlier keys. */
  lemma {:induction false} LookupSnoc<V>(s: seq<(TrackId, V)>, k: TrackId, v: V, j: TrackId)
    ensures Lookup(s + [(k, v)], j) == if j in KeySet(s) then Lookup(s, j) else if j == k then Some(v) else None
  {
    if s == [] {
      assert [] + [(k, v)] == [(k, v)];
    } else {
      KeySetCons(s);
      assert (s + [(k, v)])[1..] == s[1..] + [(k, v)];
      LookupSnoc(s[1..], k, v, j);
    }
  }

  /** One display row of `getMatrixData`. The `||` fallbacks of the source are
      kept: a missing routing reads as the defaults, and a volume of 0 reads as 127. */
  datatype MatrixRow = MatrixRow(
    trackId: TrackId,
    trackNumber: int,
    socketId: string,
    initials: string,
    status: string,
    deviceId: Option<string>,
    channel: int,
    channelLocked: bool,
    enabled: bool,
    volume: int,
    transpose: int)

  function MakeRow(id: TrackId, p: Presence, r: Option<RoutingEntry>): MatrixRow {
    MatrixRow(
      id, id + 1, p.socketId, p.initials, p.status,
      if r.Some? && HasDevice(r.value) then r.value.deviceId else None,
      if r.Some? then r.value.channel else 0,
      r.Some? && r.value.channelLocked,
      r.Some? && r.value.enabled,
      if r.Some? && r.value.volume != 0 then r.value.volume else 127,
      if r.Some? then r.value.transpose else 0)
  }

  /** The rows pushed by the loop of `getMatrixData`, one per present track, in map order. */
  function RowsOf(ts: seq<(TrackId, Presence)>, rs: seq<(TrackId, RoutingEntry)>): (rows: seq<MatrixRow>)
    ensures |rows| == |ts|
    ensures forall i :: 0 <= i < |ts| ==> rows[i] == MakeRow(ts[i].0, ts[i].1, Lookup(rs, ts[i].0))
  {
    if ts == [] then []
    else RowsOf(ts[..|ts| - 1], rs) + [MakeRow(ts[|ts| - 1].0, ts[|ts| - 1].1, Lookup(rs, ts[|ts| - 1].0))]
  }

  lemma RowsOfStep(ts: seq<(TrackId, Presence)>, rs: seq<(TrackId, RoutingEntry)>, i: nat)
    requires i < |ts|
    ensures RowsOf(ts[..i + 1], rs) == RowsOf(ts[..i], rs) + [MakeRow(ts[i].0, ts[i].1, Lookup(rs, ts[i].0))]
  {
    assert ts[..i + 1][..i] == ts[..i];
  }

  /** Every row of the table is a row of a present track. */
  lemma RowsTrackIds(ts: seq<(TrackId, Presence)>, rs: seq<(TrackId, RoutingEntry)>)
    ensures forall r :: r in RowsOf(ts, rs) ==> r.trackId in KeySet(ts)
  {
    var rows := RowsOf(ts, rs);
    forall r | r in rows ensures r.trackId in KeySet(ts) {
      var k :| 0 <= k < |rows| && rows[k] == r;
      assert r.trackId == ts[k].0;
    }
  }

  /** A permutation has the same length and the same elements. */
  lemma SameElements<T>(a: seq<T>, b: seq<T>)
    requires multiset(a) == multiset(b)
    ensures |a| == |b|
    ensures forall x :: x in b ==> x in a
  {
    assert |multiset(a)| == |a| && |multiset(b)| == |b|;
    forall x | x in b ensures x in a {
      assert x in multiset(b);
    }
  }

  predicate SortedByNumber(s: seq<MatrixRow>) {
    forall i, j :: 0 <= i < j < |s| ==> s[i].trackNumber <= s[j].trackNumber
  }

  /** Places `x` before the first row whose number is not smaller. */
  function InsertRow(x: MatrixRow, s: seq<MatrixRow>): seq<MatrixRow> {
    if s == [] then [x]
    else if x.trackNumber <= s[0].trackNumber then [x] + s
    else [s[0]] + InsertRow(x, s[1..])
  }

  lemma {:induction false} InsertRowMultiset(x: MatrixRow, s: seq<MatrixRow>)
    ensures multiset(InsertRow(x, s)) == multiset(s) + multiset{x}
  {
    if s != [] && x.trackNumber > s[0].trackNumber {
      var rest := InsertRow(x, s[1..]);
      InsertRowMultiset(x, s[1..]);
      assert InsertRow(x, s) == [s[0]] + rest;
      assert multiset([s[0]] + rest) == multiset{s[0]} + multiset(rest);
      assert s == [s[0]] + s[1..];
      assert multiset(s) == multiset{s[0]} + multiset(s[1..]);
    }
  }

  /** Inserting a row no lower than a bound into rows no lower than it keeps them so. */
  lemma {:induction false} InsertRowAbove(x: MatrixRow, s: seq<MatrixRow>, b: int)
    requires b <= x.trackNumber && forall j :: 0 <= j < |s| ==> b <= s[j].trackNumber
    ensures forall j :: 0 <= j < |InsertRow(x, s)| ==> b <= InsertRow(x, s)[j].trackNumber
  {
    if s != [] && x.trackNumber > s[0].trackNumber {
      InsertRowAbove(x, s[1..], b);
      assert InsertRow(x, s) == [s[0]] + InsertRow(x, s[1..]);
    }
  }

  lemma {:induction false} InsertRowSorted(x: MatrixRow, s: seq<MatrixRow>)
    requires SortedByNumber(s)
    ensures SortedByNumber(InsertRow(x, s))
  {
    if s != [] {
      if x.trackNumber <= s[0].trackNumber {
        var r := [x] + s;
        forall i, j | 0 <= i < j < |r| ensures r[i].trackNumber <= r[j].trackNumber {
          assert r[j] == s[j - 1];
          if i > 0 { assert r[i] == s[i - 1]; }
        }
      } else {
        var rest := InsertRow(x, s[1..]);
        assert SortedByNumber(s[1..]) by {
          forall i, j | 0 <= i < j < |s[1..]| ensures s[1..][i].trackNumber <= s[1..][j].trackNumber {
            assert s[1..][i] == s[i + 1] && s[1..][j] == s[j + 1];
          }
        }
        InsertRowSorted(x, s[1..]);
        InsertRowAbove(x, s[1..], s[0].trackNumber);
        var r := [s[0]] + rest;
        forall i, j | 0 <= i < j < |r| ensures r[i].trackNumber <= r[j].trackNumber {
          assert r[j] == rest[j - 1];
          if i > 0 { assert r[i] == rest[i - 1]; }
        }
        assert r == InsertRow(x, s);
      }
    }
  }

  lemma InsertRowProps(x: MatrixRow, s: seq<MatrixRow>)
    requires SortedByNumber(s)
    ensures SortedByNumber(InsertRow(x, s))
    ensures multiset(InsertRow(x, s)) == multiset(s) + multiset{x}
  {
    InsertRowMultiset(x, s);
    InsertRowSorted(x, s);
  }

  function SortRows(s: seq<MatrixRow>): (r: seq<MatrixRow>)
    ensures SortedByNumber(r)
    ensures multiset(r) == multiset(s)
  {
    if s == [] then []
    else
      assert s == [s[0]] + s[1..];
      InsertRowProps(s[0], SortRows(s[1..]));
      InsertRow(s[0], SortRows(s[1..]))
  }

  /** Count of present tracks whose status is "connected". */
  function CountConnected(ts: seq<(TrackId, Presence)>): (n: nat)
    ensures n <= |ts|
  {
    if ts == [] then 0
    else CountConnected(ts[..|ts| - 1]) + (if ts[|ts| - 1].1.status == "connected" then 1 else 0)
  }

  predicate Routed(r: RoutingEntry) { r.enabled && HasDevice(r) }

  /** Count of entries that are enabled and have a device. */
  function CountRouted(rs: seq<(TrackId, RoutingEntry)>): (n: nat)
    ensures n <= |rs|
  {
    if rs == [] then 0
    else CountRouted(rs[..|rs| - 1]) + (if Routed(rs[|rs| - 1].1) then 1 else 0)
  }

  /** Count of routed entries whose device is `d`. */
  function UsageOf(rs: seq<(TrackId, RoutingEntry)>, d: string): nat {
    if rs == [] then 0
    else
      var r := rs[|rs| - 1].1;
      UsageOf(rs[..|rs| - 1], d) + (if Routed(r) && r.deviceId.value == d then 1 else 0)
  }

  function SumValues<K>(s: seq<(K, nat)>): nat {
    if s == [] then 0 else s[0].1 + SumValues(s[1..])
  }

  lemma {:induction false} SumPut<K>(s: seq<(K, nat)>, k: K, v: nat)
    ensures SumValues(Put(s, k, v)) ==
      SumValues(s) + v - (if Lookup(s, k).Some? then Lookup(s, k).value else 0)
  {
    if s == [] {
    } else if s[0].0 == k {
      assert Put(s, k, v)[1..] == s[1..];
    } else {
      assert Put(s, k, v)[1..] == Put(s[1..], k, v);
      SumPut(s[1..], k, v);
    }
  }

  datatype MatrixStats = MatrixStats(
    totalTracks: nat,
    activeTracks: nat,
    routedTracks: nat,
    deviceUsage: seq<(string, nat)>)

  /** What `exportConfig` produces (`Object.fromEntries` of both maps; the timestamp is not modelled). */
  datatype ExportedConfig = ExportedConfig(
    routings: map<TrackId, RoutingEntry>,
    tracks: map<TrackId, Presence>)

  /** The object `importConfig` receives; None stands for an absent or falsy property. */
  datatype ImportedConfig = ImportedConfig(
    routings: Option<map<TrackId, RoutingEntry>>,
    tracks: Option<map<TrackId, Presence>>)

  predicate StrictlyAscending<V>(s: seq<(TrackId, V)>) {
    forall i, j :: 0 <= i < j < |s| ==> s[i].0 < s[j].0
  }

  /** `new Map(Object.entries(obj))` for an object whose keys are all array
      indices: ECMAScript lists such keys in ascending numeric order. */
  method EntriesAscending<V>(m: map<TrackId, V>) returns (s: seq<(TrackId, V)>)
    ensures StrictlyAscending(s) && DistinctKeys(s)
    ensures KeySet(s) == m.Keys
    ensures forall i :: 0 <= i < |s| ==> s[i].1 == m[s[i].0]
  {
    s := [];
    var rest := m.Keys;
    while rest != {}
      invariant AscendingPrefix(m, s, rest)
      decreases rest
    {
      ghost var least := MinOf(rest);
      var k :| k in rest && forall j :: j in rest ==> k <= j;
      AscendingStep(m, s, rest, k);
      s := s + [(k, m[k])];
      rest := rest - {k};
    }
    AscendingDone(m, s);
  }

  lemma AscendingDone<V>(m: map<TrackId, V>, s: seq<(TrackId, V)>)
    requires AscendingPrefix(m, s, {})
    ensures StrictlyAscending(s) && DistinctKeys(s)
    ensures KeySet(s) == m.Keys
    ensures forall i :: 0 <= i < |s| ==> s[i].1 == m[s[i].0]
  {
    forall x | x in m.Keys ensures x in KeySet(s) {
      assert x !in m.Keys - KeySet(s);
    }
  }

  /** Loop invariant of EntriesAscending: `s` lists, ascending, the keys already
      taken, every one below the keys still to take. */
  ghost predicate AscendingPrefix<V>(m: map<TrackId, V>, s: seq<(TrackId, V)>, rest: set<TrackId>) {
    rest == m.Keys - KeySet(s) && KeySet(s) <= m.Keys && StrictlyAscending(s) &&
    (forall i, k :: 0 <= i < |s| && k in rest ==> s[i].0 < k) &&
    (forall i :: 0 <= i < |s| ==> s[i].0 in m && s[i].1 == m[s[i].0])
  }

  lemma AscendingStep<V>(m: map<TrackId, V>, s: seq<(TrackId, V)>, rest: set<TrackId>, k: TrackId)
    requires AscendingPrefix(m, s, rest)
    requires k in rest && forall j :: j in rest ==> k <= j
    ensures AscendingPrefix(m, s + [(k, m[k])], rest - {k})
  {
    KeySetSnoc(s, k, m[k]);
  }

  ghost function MinOf(s: set<nat>): (m: nat)
    requires s != {}
    ensures m in s && forall x :: x in s ==> m <= x
  {
    var x :| x in s;
    if s == {x} then x
    else
      assert forall y :: y in s ==> y == x || y in s - {x};
      assert exists y :: y in s && y != x;
      var r := MinOf(s - {x});
      if x < r then x else r
  }

  class RoutingMatrix {
    /** trackId -> presence, in insertion order. */
    var tracks: seq<(TrackId, Presence)>
    /** trackId -> routing entry, in insertion order. */
    var routings: seq<(TrackId, RoutingEntry)>
    /** Every notification an attached observer receives. */
    var events: seq<MatrixEvent>
    /** Default track capacity; no operation of the matrix consults it. */
    const maxTracks: nat

    ghost predicate Valid()
      reads this
    {
      DistinctKeys(tracks) && DistinctKeys(routings)
    }

    constructor ()
      ensures Valid()
      ensures tracks == [] && routings == [] && events == [] && maxTracks == 100
    {
      tracks, routings, events := [], [], [];
      maxTracks := 100;
    }

    /** Upserts the presence; creates the default routing only for a track that has none. */
    method AddTrack(trackId: TrackId, socketId: string, initials: string, status: string := "connected")
      requires Valid()
      modifies this
      ensures Valid()
      ensures tracks == Put(old(tracks), trackId, Presence(socketId, initials, status))
      ensures trackId in KeySet(old(routings)) ==> routings == old(routings)
      ensures trackId !in KeySet(old(routings)) ==> routings == old(routings) + [(trackId, DefaultRouting)]
      ensures Lookup(routings, trackId).Some?
      ensures events == old(events) + [TrackAdded(trackId, Presence(socketId, initials, status))]
    {
      var p := Presence(socketId, initials, status);
      PutDistinct(tracks, trackId, p);
      tracks := Put(tracks, trackId, p);
      if Lookup(routings, trackId).None? {
        PutDistinct(routings, trackId, DefaultRouting);
        routings := Put(routings, trackId, DefaultRouting);
      }
      events := events + [TrackAdded(trackId, p)];
    }

    /** Deletes the presence only; the routing is kept for a reconnect. */
    method RemoveTrack(trackId: TrackId)
      requires Valid()
      modifies this
      ensures Valid()
      ensures routings == old(routings)
      ensures tracks == Remove(old(tracks), trackId)
      ensures Lookup(old(tracks), trackId).None? ==> tracks == old(tracks) && events == old(events)
      ensures Lookup(old(tracks), trackId).Some? ==>
        events == old(events) + [TrackRemoved(trackId, Lookup(old(tracks), trackId).value)]
    {
      var track := Lookup(tracks, trackId);
      if track.Some? {
        RemoveDistinct(tracks, trackId);
        tracks := Remove(tracks, trackId);
        events := events + [TrackRemoved(trackId, track.value)];
      }
    }

    /** Merge-then-validate: all or nothing. */
    method UpdateRouting(trackId: TrackId, config: RoutingPatch) returns (ok: bool)
      requires Valid()
      modifies this
      ensures Valid()
      ensures tracks == old(tracks)
      ensures var cur := Lookup(old(routings), trackId);
        ok == (cur.Some? && InRange(Merge(cur.value, config)))
      ensures ok ==> routings == Put(old(routings), trackId, Merge(Lookup(old(routings), trackId).value, config))
      ensures ok ==> events == old(events) + [RoutingChanged(trackId, Merge(Lookup(old(routings), trackId).value, config))]
      ensures !ok ==> routings == old(routings) && events == old(events)
    {
      var current := Lookup(routings, trackId);
      if current.None? {
        return false;
      }
      var newRouting := Merge(current.value, config);
      if newRouting.channel < 0 || newRouting.channel > 15 {
        return false;
      }
      if newRouting.volume < 0 || newRouting.volume > 127 {
        return false;
      }
      if newRouting.transpose < -24 || newRouting.transpose > 24 {
        return false;
      }
      PutDistinct(routings, trackId, newRouting);
      routings := Put(routings, trackId, newRouting);
      events := events + [RoutingChanged(trackId, newRouting)];
      return true;
    }

    method SetTrackEnabled(trackId: TrackId, enabled: bool) returns (ok: bool)
      requires Valid()
      modifies this
      ensures Valid()
      ensures tracks == old(tracks)
      ensures var cur := Lookup(old(routings), trackId);
        ok == (cur.Some? && InRange(cur.value.(enabled := enabled)))
      ensures ok ==> routings == Put(old(routings), trackId, Lookup(old(routings), trackId).value.(enabled := enabled))
      ensures ok ==> events == old(events) + [RoutingChanged(trackId, Lookup(old(routings), trackId).value.(enabled := enabled))]
      ensures !ok ==> routings == old(routings) && events == old(events)
    {
      ok := UpdateRouting(trackId, NoChange.(enabled := Some(enabled)));
    }

    /** Rewrites the status of a present track in place. */
    method UpdateTrackStatus(trackId: TrackId, status: string)
      requires Valid()
      modifies this
      ensures Valid()
      ensures routings == old(routings)
      ensures var t := Lookup(old(tracks), trackId);
        if t.Some? then
          tracks == Put(old(tracks), trackId, t.value.(status := status)) &&
          events == old(events) + [TrackUpdated(trackId, t.value.(status := status))]
        else tracks == old(tracks) && events == old(events)
    {
      var track := Lookup(tracks, trackId);
      if track.Some? {
        var updated := track.value.(status := status);
        PutDistinct(tracks, trackId, updated);
        tracks := Put(tracks, trackId, updated);
        events := events + [TrackUpdated(trackId, updated)];
      }
    }

    function GetRouting(trackId: TrackId): (r: Option<RoutingEntry>)
      reads this
      ensures r.None? <==> trackId !in KeySet(routings)
      ensures r.Some? ==> (trackId, r.value) in routings
    {
      var r := Lookup(routings, trackId);
      if r.Some? then
        var i := IndexOfKey(routings, trackId);
        r
      else r
    }

    function GetTrack(trackId: TrackId): (t: Option<Presence>)
      reads this
      ensures t.None? <==> trackId !in KeySet(tracks)
      ensures t.Some? ==> (trackId, t.value) in tracks
    {
      var t := Lookup(tracks, trackId);
      if t.Some? then
        var i := IndexOfKey(tracks, trackId);
        t
      else t
    }

    /** The first present track, in insertion order, whose socket is `socketId`. */
    method FindTrackBySocketId(socketId: string) returns (r: Option<TrackId>)
      ensures r.None? <==> forall i :: 0 <= i < |tracks| ==> tracks[i].1.socketId != socketId
      ensures r.Some? ==> exists i :: (0 <= i < |tracks| && tracks[i].0 == r.value &&
        tracks[i].1.socketId == socketId && forall j :: 0 <= j < i ==> tracks[j].1.socketId != socketId)
    {
      var i := 0;
      while i < |tracks|
        invariant 0 <= i <= |tracks|
        invariant forall j :: 0 <= j < i ==> tracks[j].1.socketId != socketId
      {
        if tracks[i].1.socketId == socketId {
          return Some(tracks[i].0);
        }
        i := i + 1;
      }
      return None;
    }

    method GetTracksForDevice(deviceId: Option<string>) returns (ids: seq<TrackId>)
      ensures ids == TracksOn(routings, deviceId, None)
    {
      ids := [];
      var i := 0;
      while i < |routings|
        invariant 0 <= i <= |routings|
        invariant ids == TracksOn(routings[..i], deviceId, None)
      {
        assert routings[..i + 1][..i] == routings[..i];
        var (trackId, routing) := routings[i];
        if routing.deviceId == deviceId && routing.enabled {
          ids := ids + [trackId];
        }
        i := i + 1;
      }
      assert routings[..i] == routings;
    }

    method GetTracksForDeviceChannel(deviceId: Option<string>, channel: int) returns (ids: seq<TrackId>)
      ensures ids == TracksOn(routings, deviceId, Some(channel))
    {
      ids := [];
      var i := 0;
      while i < |routings|
        invariant 0 <= i <= |routings|
        invariant ids == TracksOn(routings[..i], deviceId, Some(channel))
      {
        assert routings[..i + 1][..i] == routings[..i];
        var (trackId, routing) := routings[i];
        if routing.deviceId == deviceId && routing.channel == channel && routing.enabled {
          ids := ids + [trackId];
        }
        i := i + 1;
      }
      assert routings[..i] == routings;
    }

    /** True iff no enabled entry other than `excludeTrackId` sits on (deviceId, channel). */
    method IsDeviceChannelAvailable(deviceId: Option<string>, channel: int, excludeTrackId: Option<TrackId> := None)
      returns (available: bool)
      ensures available == ChannelFree(routings, deviceId, channel, excludeTrackId)
    {
      var i := 0;
      while i < |routings|
        invariant 0 <= i <= |routings|
        invariant forall j :: 0 <= j < i && Some(routings[j].0) != excludeTrackId ==>
          !Occupies(routings[j].1, deviceId, channel)
      {
        var (trackId, routing) := routings[i];
        if Some(trackId) != excludeTrackId {
          if routing.deviceId == deviceId && routing.channel == channel && routing.enabled {
            return false;
          }
        }
        i := i + 1;
      }
      return true;
    }

    /** The lowest free channel 0..15 of the device, or -1 when all sixteen are taken. */
    method GetNextAvailableChannel(deviceId: Option<string>) returns (channel: int)
      ensures -1 <= channel <= 15
      ensures channel >= 0 ==> ChannelFree(routings, deviceId, channel, None)
      ensures forall c :: 0 <= c < 16 && (channel == -1 || c < channel) ==> !ChannelFree(routings, deviceId, c, None)
    {
      channel := 0;
      while channel < 16
        invariant 0 <= channel <= 16
        invariant forall c :: 0 <= c < channel ==> !ChannelFree(routings, deviceId, c, None)
      {
        var available := IsDeviceChannelAvailable(deviceId, channel);
        if available {
          return channel;
        }
        channel := channel + 1;
      }
      return -1;
    }

    /** One row per present track (the loop), then sorted by track number. */
    method GetMatrixData() returns (data: seq<MatrixRow>)
      ensures |data| == |tracks|
      ensures SortedByNumber(data)
      ensures multiset(data) == multiset(RowsOf(tracks, routings))
      ensures forall r :: r in data ==> r.trackId in KeySet(tracks)
    {
      var rows := [];
      var i := 0;
      while i < |tracks|
        invariant 0 <= i <= |tracks|
        invariant rows == RowsOf(tracks[..i], routings)
      {
        RowsOfStep(tracks, routings, i);
        var (trackId, track) := tracks[i];
        var routing := Lookup(routings, trackId);
        rows := rows + [MakeRow(trackId, track, routing)];
        i := i + 1;
      }
      assert tracks[..i] == tracks;
      data := SortRows(rows);
      SameElements(rows, data);
      RowsTrackIds(tracks, routings);
    }

    function ExportConfig(): (c: ExportedConfig)
      reads this
      ensures c.routings.Keys == KeySet(routings) && c.tracks.Keys == KeySet(tracks)
      ensures forall k :: k in c.routings ==> Lookup(routings, k) == Some(c.routings[k])
      ensures forall k :: k in c.tracks ==> Lookup(tracks, k) == Some(c.tracks[k])
    {
      ExportedConfig(ToMap(routings), ToMap(tracks))
    }

    /** Replaces each map that the configuration carries; a missing configuration
        object makes the property access throw, which is caught and reported. */
    method ImportConfig(config: Option<ImportedConfig>) returns (ok: bool)
      requires Valid()
      modifies this
      ensures Valid()
      ensures ok == config.Some?
      ensures events == old(events)
      ensures config.None? || config.value.routings.None? ==> routings == old(routings)
      ensures config.None? || config.value.tracks.None? ==> tracks == old(tracks)
      ensures config.Some? && config.value.routings.Some? ==>
        StrictlyAscending(routings) && KeySet(routings) == config.value.routings.value.Keys &&
        forall i :: 0 <= i < |routings| ==> routings[i].1 == config.value.routings.value[routings[i].0]
      ensures config.Some? && config.value.tracks.Some? ==>
        StrictlyAscending(tracks) && KeySet(tracks) == config.value.tracks.value.Keys &&
        forall i :: 0 <= i < |tracks| ==> tracks[i].1 == config.value.tracks.value[tracks[i].0]
    {
      if config.None? {
        return false;
      }
      if config.value.routings.Some? {
        routings := EntriesAscending(config.value.routings.value);
      }
      if config.value.tracks.Some? {
        tracks := EntriesAscending(config.value.tracks.value);
      }
      return true;
    }

    method Clear()
      modifies this
      ensures Valid()
      ensures tracks == [] && routings == [] && events == old(events)
    {
      routings := [];
      tracks := [];
    }

    /** Totals, plus the per-device count of routed tracks (deviceUsage). */
    method GetStats() returns (st: MatrixStats)
      ensures st.totalTracks == |tracks|
      ensures st.activeTracks == CountConnected(tracks) && st.activeTracks <= st.totalTracks
      ensures st.routedTracks == CountRouted(routings)
      ensures DistinctKeys(st.deviceUsage)
      ensures forall d :: Lookup(st.deviceUsage, d) == if UsageOf(routings, d) == 0 then None else Some(UsageOf(routings, d))
      ensures SumValues(st.deviceUsage) == st.routedTracks
    {
      var usage: seq<(string, nat)> := [];
      var i := 0;
      while i < |routings|
        invariant 0 <= i <= |routings|
        invariant usage == Usage(routings[..i])
      {
        var routing := routings[i].1;
        assert routings[..i + 1][..i] == routings[..i];
        if routing.enabled && routing.deviceId.Some? && routing.deviceId.value != "" {
          var dev := routing.deviceId.value;
          var count := Lookup(usage, dev).GetOr(0);
          usage := Put(usage, dev, count + 1);
        }
        i := i + 1;
      }
      assert routings[..i] == routings;
      UsageProps(routings);
      st := MatrixStats(|tracks|, CountConnected(tracks), CountRouted(routings), usage);
    }
  }

  /** `deviceUsage.set(d, (deviceUsage.get(d) || 0) + 1)`. */
  function Bump<K(==)>(u: seq<(K, nat)>, d: K): seq<(K, nat)> {
    Put(u, d, Lookup(u, d).GetOr(0) + 1)
  }

  /** Bumping a device adds one to its count only, and one to the total. */
  lemma BumpProps<K>(u: seq<(K, nat)>, dev: K)
    requires DistinctKeys(u)
    ensures DistinctKeys(Bump(u, dev))
    ensures Lookup(Bump(u, dev), dev).Some? && Lookup(Bump(u, dev), dev).value == Lookup(u, dev).GetOr(0) + 1
    ensures forall d :: d != dev ==> Lookup(Bump(u, dev), d) == Lookup(u, d)
    ensures SumValues(Bump(u, dev)) == SumValues(u) + 1
  {
    BumpDistinct(u, dev);
    BumpSame(u, dev);
    BumpOthers(u, dev);
    BumpSum(u, dev);
  }

  lemma BumpDistinct<K>(u: seq<(K, nat)>, dev: K)
    requires DistinctKeys(u)
    ensures DistinctKeys(Bump(u, dev))
  {
    var count: nat := Lookup(u, dev).GetOr(0) + 1;
    assert Bump(u, dev) == Put(u, dev, count);
    PutDistinct(u, dev, count);
  }

  lemma BumpSame<K>(u: seq<(K, nat)>, dev: K)
    requires DistinctKeys(u)
    ensures Lookup(Bump(u, dev), dev).Some? && Lookup(Bump(u, dev), dev).value == Lookup(u, dev).GetOr(0) + 1
  {
    var count: nat := Lookup(u, dev).GetOr(0) + 1;
    assert Bump(u, dev) == Put(u, dev, count);
    PutLookup(u, dev, count, dev);
  }

  lemma BumpOthers<K>(u: seq<(K, nat)>, dev: K)
    requires DistinctKeys(u)
    ensures forall d :: d != dev ==> Lookup(Bump(u, dev), d) == Lookup(u, d)
  {
    var count: nat := Lookup(u, dev).GetOr(0) + 1;
    assert Bump(u, dev) == Put(u, dev, count);
    forall d | d != dev ensures Lookup(Put(u, dev, count), d) == Lookup(u, d) {
      PutLookup(u, dev, count, d);
    }
  }

  lemma BumpSum<K>(u: seq<(K, nat)>, dev: K)
    ensures SumValues(Bump(u, dev)) == SumValues(u) + 1
  {
    var count: nat := Lookup(u, dev).GetOr(0) + 1;
    assert Bump(u, dev) == Put(u, dev, count);
    SumPut(u, dev, count);
  }

  /** The deviceUsage list the loop of `getStats` builds. */
  function Usage(rs: seq<(TrackId, RoutingEntry)>): seq<(string, nat)> {
    if rs == [] then []
    else
      var u := Usage(rs[..|rs| - 1]);
      var r := rs[|rs| - 1].1;
      if Routed(r) then Bump(u, r.deviceId.value) else u
  }

  /** Every device appears once, with the number of routed tracks on it, and
      the counts add up to the number of routed tracks. */
  lemma {:induction false} UsageProps(rs: seq<(TrackId, RoutingEntry)>)
    ensures DistinctKeys(Usage(rs))
    ensures forall d :: Lookup(Usage(rs), d) == if UsageOf(rs, d) == 0 then None else Some(UsageOf(rs, d))
    ensures SumValues(Usage(rs)) == CountRouted(rs)
  {
    if rs != [] {
      var front := rs[..|rs| - 1];
      UsageProps(front);
      if Routed(rs[|rs| - 1].1) {
        UsageStepRouted(rs);
      } else {
        UsageStepIdle(rs);
      }
    }
  }

  /** The three facts `UsageProps` states, as one predicate for its steps. */
  ghost predicate UsageFacts(rs: seq<(TrackId, RoutingEntry)>) {
    DistinctKeys(Usage(rs)) &&
    (forall d :: Lookup(Usage(rs), d) == (if UsageOf(rs, d) == 0 then None else Some(UsageOf(rs, d)))) &&
    SumValues(Usage(rs)) == CountRouted(rs)
  }

  /** One more routed entry adds one to its device's count. */
  lemma UsageStepRouted(rs: seq<(TrackId, RoutingEntry)>)
    requires rs != [] && Routed(rs[|rs| - 1].1)
    requires UsageFacts(rs[..|rs| - 1])
    ensures UsageFacts(rs)
  {
    var front := rs[..|rs| - 1];
    var u := Usage(front);
    var dev := rs[|rs| - 1].1.deviceId.value;
    assert Usage(rs) == Bump(u, dev);
    assert CountRouted(rs) == CountRouted(front) + 1;
    BumpProps(u, dev);
    forall d ensures Lookup(Bump(u, dev), d) == if UsageOf(rs, d) == 0 then None else Some(UsageOf(rs, d)) {
      assert UsageOf(rs, d) == UsageOf(front, d) + (if dev == d then 1 else 0);
    }
  }

  /** An entry that is not routed changes no count. */
  lemma UsageStepIdle(rs: seq<(TrackId, RoutingEntry)>)
    requires rs != [] && !Routed(rs[|rs| - 1].1)
    requires UsageFacts(rs[..|rs| - 1])
    ensures UsageFacts(rs)
  {
    var front := rs[..|rs| - 1];
    assert Usage(rs) == Usage(front);
    assert CountRouted(rs) == CountRouted(front);
    forall d ensures UsageOf(rs, d) == UsageOf(front, d) {
    }
  }
}
