/** The sweep goes once over the rooms the map held when it began, whichever of them it lets go of on the way. */
module RoomSweeps {
  import opened Wrappers
  import opened Sequences
  import opened MailboxItems
  import opened MailboxTable
  import opened RoomState
  import opened RoomInvariants
  import opened RoomSteps

  /** The map is as before, but may have lost `id`. */
  predicate OnlyLoses(a: map<string, nat>, b: map<string, nat>, id: string) {
    && (forall x :: x in b ==> x in a && b[x] == a[x])
    && (forall x :: x in a && x != id ==> x in b)
  }

  /** Rooms keep their ids and devices their rooms. */
  predicate SameIds(s: Relay, t: Relay) {
    && |t.rooms| == |s.rooms| && |t.devs| == |s.devs|
    && (forall r: nat :: r < |s.rooms| ==> t.rooms[r].id == s.rooms[r].id)
    && (forall d: nat :: d < |s.devs| ==> t.devs[d].room == s.devs[d].room)
  }

  lemma DropDeviceIndex(s: Relay, d: nat)
    requires Registry(s) && d < |s.devs| && s.devs[d].room < |s.rooms|
    ensures OnlyLoses(s.index, DropDevice(s, d).index, s.rooms[s.devs[d].room].id) && SameIds(s, DropDevice(s, d))
  {
    hide DropDevice;
    if s.devs[d].left {
      LeftDropped(s, d);
    } else {
      DropDeviceEffect(s, d);
    }
  }

  lemma LeftDropped(s: Relay, d: nat)
    requires Shaped(s) && d < |s.devs| && s.devs[d].left
    ensures DropDevice(s, d) == s
  {
  }

  lemma {:induction false} SweepDevicesIndex(s: Relay, r: nat, ds: seq<nat>)
    requires Inv(s) && r < |s.rooms| && Known(ds, |s.devs|) && forall i :: 0 <= i < |ds| ==> s.devs[ds[i]].room == r
    ensures OnlyLoses(s.index, SweepDevices(s, ds).index, s.rooms[r].id) && SameIds(s, SweepDevices(s, ds))
    decreases |ds|
  {
    hide Inv, Registry, DropDevice, TimedOut, Shaped;
    InvIsRegistry(s);
    if ds != [] {
      var front, d := ds[..|ds| - 1], ds[|ds| - 1];
      SweepDevicesIndex(s, r, front);
      SweepDevicesKeeps(s, front);
      var t := SweepDevices(s, front);
      InvIsRegistry(t);
      DropDeviceIndex(t, d);
    }
  }

  lemma SweepHostIndex(s: Relay, r: nat)
    requires Inv(s) && r < |s.rooms|
    ensures
      var t := SweepHost(s, r);
      OnlyLoses(s.index, t.index, s.rooms[r].id) && SameIds(s, t) && t.rooms[r].devices == s.rooms[r].devices
  {
    hide DropHost, Traces, Presences, Flights, Valid, NoEmptyRoom;
    InvIsRegistry(s);
    assert RoomOk(s, r) && RoomShaped(s, r);
    if s.rooms[r].host.Some? {
      var h := s.rooms[r].host.value;
      DropHostEffect(s, h, false);
      DropHostDevices(s, h);
    }
  }

  lemma DropHostDevices(s: Relay, h: nat)
    requires Registry(s) && h < |s.hosts| && !s.hosts[h].left
    ensures SameIds(s, DropHost(s, h, false))
  {
    hide DropHost;
    DropHostEffect(s, h, false);
    var t := DropHost(s, h, false);
    forall d: nat | d < |s.devs|
      ensures t.devs[d].room == s.devs[d].room
    {
      if s.hosts[h].ready {
        assert t.devs[d] == (if d in s.rooms[s.hosts[h].room].devices then Gets(s.devs[d], Presence(false, Some(s.now))) else s.devs[d]);
      }
    }
  }

  lemma SweepRoomIndex(s: Relay, r: nat)
    requires Inv(s) && r < |s.rooms|
    ensures OnlyLoses(s.index, SweepRoom(s, r).index, s.rooms[r].id) && SameIds(s, SweepRoom(s, r))
  {
    hide Inv, SweepHost, SweepDevices, Expire;
    InvIsRegistry(s);
    SweepHostIndex(s, r);
    SweepHostKeeps(s, r);
    var quiet := SweepHost(s, r);
    InvIsRegistry(quiet);
    RoomDevices(quiet, r);
    SweepDevicesIndex(quiet, r, quiet.rooms[r].devices);
    var swept := SweepDevices(quiet, quiet.rooms[r].devices);
    var (box, notes) := Expire(swept.box, swept.rooms[r].id, swept.now);
    NoteAllRooms(swept.(box := box), r, notes);
  }

  lemma RoomDevices(s: Relay, r: nat)
    requires Registry(s) && r < |s.rooms|
    ensures RoomShaped(s, r) && forall i :: 0 <= i < |s.rooms[r].devices| ==> s.devs[s.rooms[r].devices[i]].room == r
  {
    assert RoomOk(s, r) && RoomShaped(s, r);
  }

  /** The map has lost rooms numbered below `n` and no other. */
  predicate LosesBelow(a: map<string, nat>, b: map<string, nat>, n: nat) {
    && (forall x :: x in b ==> x in a && b[x] == a[x])
    && (forall x :: x in a && a[x] >= n ==> x in b)
  }

  /** After the rooms numbered below `n`, the map has lost some of those and no other. */
  lemma {:induction false} SweepRoomsIndex(s: Relay, n: nat)
    requires Inv(s) && n <= |s.rooms|
    ensures Shaped(s) && SameIds(s, SweepRooms(s, n)) && LosesBelow(s.index, SweepRooms(s, n).index, n)
  {
    hide SweepRoom, Inv, Shaped, SameIds, LosesBelow;
    InvIsRegistry(s);
    SameIdsItself(s);
    if n > 0 {
      SweepRoomsIndex(s, n - 1);
      SweepRoomsKeeps(s, n - 1);
      var t := SweepRooms(s, n - 1);
      if Indexed(t, n - 1) {
        SweepRoomIndex(t, n - 1);
        SameIdsJoin(s, t, SweepRoom(t, n - 1));
      }
      LosesOneMore(s.index, t.index, SweepRooms(s, n).index, t.rooms[n - 1].id, n);
    }
  }

  lemma SameIdsItself(s: Relay)
    ensures SameIds(s, s) && LosesBelow(s.index, s.index, 0)
  {
  }

  lemma SameIdsJoin(s: Relay, t: Relay, u: Relay)
    requires SameIds(s, t) && SameIds(t, u)
    ensures SameIds(s, u)
  {
  }

  lemma LosesOneMore(a: map<string, nat>, b: map<string, nat>, c: map<string, nat>, id: string, n: nat)
    requires n > 0 && LosesBelow(a, b, n - 1)
    requires c == b || (id in b && b[id] == n - 1 && OnlyLoses(b, c, id))
    ensures LosesBelow(a, c, n)
  {
  }

  /** Numbers the map does not hold are passed over. */
  lemma {:induction false} SweepSkips(s: Relay, m: nat, n: nat)
    requires Inv(s) && m <= n <= |s.rooms| && forall x :: x in s.index ==> s.index[x] < m || s.index[x] >= n
    ensures Shaped(s) && SweepRooms(s, n) == SweepRooms(s, m)
  {
    hide Inv, SweepRoom, Shaped;
    InvIsRegistry(s);
    if m < n {
      SweepSkips(s, m, n - 1);
      SweepRoomsIndex(s, n - 1);
      assert !Indexed(SweepRooms(s, n - 1), n - 1);
    }
  }

  /** A room the map held at the beginning is swept in its turn. */
  lemma SweepTakes(s: Relay, x: string)
    requires Inv(s) && x in s.index && s.index[x] < |s.rooms|
    ensures Shaped(s)
    ensures SweepRooms(s, s.index[x] + 1) == SweepRoom(SweepRooms(s, s.index[x]), s.index[x])
  {
    hide SweepRoom, Traces, Presences, Flights, Valid, NoEmptyRoom;
    InvIsRegistry(s);
    SweepRoomsIndex(s, s.index[x]);
    assert s.rooms[s.index[x]].id == x;
  }

  // ---- going through the map in its order ----

  /** The keys of the map, by ascending number. */
  ghost predicate InMapOrder(index: map<string, nat>, keys: seq<string>) {
    && (forall x :: x in index <==> x in keys)
    && (forall i, j :: 0 <= i < j < |keys| ==> keys[i] in index && keys[j] in index && index[keys[i]] < index[keys[j]])
  }

  /** How far the sweep is once the first `i` keys are done. */
  ghost function Reached(index: map<string, nat>, keys: seq<string>, i: nat): nat
    requires InMapOrder(index, keys) && i <= |keys|
  {
    if i == 0 then 0 else assert keys[i - 1] in keys; index[keys[i - 1]] + 1
  }

  lemma NoneBetween(index: map<string, nat>, keys: seq<string>, i: nat, x: string)
    requires InMapOrder(index, keys) && i <= |keys| && x in index
    ensures index[x] < Reached(index, keys, i) || (i < |keys| && keys[i] in index && index[x] >= index[keys[i]])
  {
    var k :| 0 <= k < |keys| && keys[k] == x;
    if k >= i {
      assert keys[i] in keys;
    } else {
      assert keys[i - 1] in keys;
    }
  }

  lemma SweepsNext(s: Relay, keys: seq<string>, i: nat)
    requires Inv(s) && InMapOrder(s.index, keys) && i < |keys|
    ensures keys[i] in s.index && s.index[keys[i]] < |s.rooms| && Shaped(s) && Reached(s.index, keys, i) <= |s.rooms|
    ensures
      var r := s.index[keys[i]];
      && SweepRooms(s, r) == SweepRooms(s, Reached(s.index, keys, i))
      && SweepRooms(s, Reached(s.index, keys, i + 1)) == SweepRoom(SweepRooms(s, r), r)
  {
    hide Inv, SweepRooms, SweepRoom, InMapOrder;
    InvIsRegistry(s);
    KeyKnown(s, keys, i);
    forall x | x in s.index
      ensures s.index[x] < Reached(s.index, keys, i) || s.index[x] >= s.index[keys[i]]
    {
      NoneBetween(s.index, keys, i, x);
    }
    SweepSkips(s, Reached(s.index, keys, i), s.index[keys[i]]);
    SweepTakes(s, keys[i]);
  }

  lemma KeyKnown(s: Relay, keys: seq<string>, i: nat)
    requires Shaped(s) && InMapOrder(s.index, keys) && i < |keys|
    ensures keys[i] in s.index && s.index[keys[i]] < |s.rooms| && Reached(s.index, keys, i) <= s.index[keys[i]]
    ensures Reached(s.index, keys, i + 1) == s.index[keys[i]] + 1
  {
    assert keys[i] in keys;
  }

  lemma SweepsRest(s: Relay, keys: seq<string>)
    requires Inv(s) && InMapOrder(s.index, keys)
    ensures Shaped(s) && Reached(s.index, keys, |keys|) <= |s.rooms|
    ensures SweepRooms(s, |s.rooms|) == SweepRooms(s, Reached(s.index, keys, |keys|))
  {
    hide Inv, SweepRooms, InMapOrder;
    InvIsRegistry(s);
    if |keys| > 0 {
      KeyKnown(s, keys, |keys| - 1);
    }
    forall x | x in s.index
      ensures s.index[x] < Reached(s.index, keys, |keys|)
    {
      NoneBetween(s.index, keys, |keys|, x);
    }
    SweepSkips(s, Reached(s.index, keys, |keys|), |s.rooms|);
  }

  // ---- what a sweep achieves ----

  predicate KeptHost(a: Host, b: Host) { b.room == a.room && b.heard == a.heard && (a.left ==> b.left) }

  predicate KeptDevice(a: Device, b: Device) {
    b.room == a.room && b.heard == a.heard && b.pair == a.pair && b.until == a.until && (a.left ==> b.left)
  }

  /** Connections are as they were, but some have left. */
  predicate Thins(s: Relay, t: Relay) {
    && t.now == s.now && |t.hosts| == |s.hosts| && |t.devs| == |s.devs|
    && (forall h: nat :: h < |s.hosts| ==> KeptHost(s.hosts[h], t.hosts[h]))
    && (forall d: nat :: d < |s.devs| ==> KeptDevice(s.devs[d], t.devs[d]))
  }

  lemma ThinsJoins(s: Relay, t: Relay, u: Relay)
    requires Thins(s, t) && Thins(t, u)
    ensures Thins(s, u)
  {
    forall h: nat | h < |s.hosts|
      ensures KeptHost(s.hosts[h], u.hosts[h])
    {
      assert KeptHost(s.hosts[h], t.hosts[h]) && KeptHost(t.hosts[h], u.hosts[h]);
    }
    forall d: nat | d < |s.devs|
      ensures KeptDevice(s.devs[d], u.devs[d])
    {
      assert KeptDevice(s.devs[d], t.devs[d]) && KeptDevice(t.devs[d], u.devs[d]);
    }
  }

  lemma DropDeviceThins(s: Relay, d: nat)
    requires Shaped(s) && d < |s.devs|
    ensures Thins(s, DropDevice(s, d)) && DropDevice(s, d).devs[d].left
  {
    hide DropDevice;
    if s.devs[d].left {
      LeftDropped(s, d);
    } else {
      DropDeviceEffect(s, d);
    }
  }

  lemma DropHostThins(s: Relay, h: nat)
    requires Registry(s) && h < |s.hosts| && !s.hosts[h].left
    ensures Thins(s, DropHost(s, h, false)) && DropHost(s, h, false).hosts[h].left
  {
    hide DropHost;
    DropHostEffect(s, h, false);
    var t := DropHost(s, h, false);
    forall d: nat | d < |s.devs|
      ensures KeptDevice(s.devs[d], t.devs[d])
    {
      if s.hosts[h].ready {
        assert t.devs[d] == (if d in s.rooms[s.hosts[h].room].devices then Gets(s.devs[d], Presence(false, Some(s.now))) else s.devs[d]);
      }
    }
  }

  /** Devices of the list that are still connected have not timed out. */
  lemma {:induction false} SweepDevicesThins(s: Relay, ds: seq<nat>)
    requires Inv(s) && Known(ds, |s.devs|)
    ensures
      var t := SweepDevices(s, ds);
      Thins(s, t) && forall i :: 0 <= i < |ds| ==> t.devs[ds[i]].left || !TimedOut(t.devs[ds[i]], t.now)
    decreases |ds|
  {
    hide Inv, Shaped, DropDevice;
    InvIsRegistry(s);
    if ds != [] {
      var front, d := ds[..|ds| - 1], ds[|ds| - 1];
      SweepDevicesThins(s, front);
      SweepDevicesKeeps(s, front);
      var t := SweepDevices(s, front);
      InvIsRegistry(t);
      DropDeviceThins(t, d);
      ThinsJoins(s, t, DropDevice(t, d));
    }
  }

  lemma SweepHostThins(s: Relay, r: nat)
    requires Inv(s) && r < |s.rooms|
    ensures RoomShaped(s, r) && Thins(s, SweepHost(s, r))
    ensures
      var t, host := SweepHost(s, r), s.rooms[r].host;
      host.Some? ==> t.hosts[host.value].left || t.now - t.hosts[host.value].heard <= SILENT_TIMEOUT_MS
  {
    hide DropHost, Traces, Presences, Flights, Valid, NoEmptyRoom;
    InvIsRegistry(s);
    assert RoomOk(s, r) && RoomShaped(s, r);
    if s.rooms[r].host.Some? {
      DropHostThins(s, s.rooms[r].host.value);
    }
  }

  lemma {:induction false} NotesThin(s: Relay, r: nat, notes: seq<Note>)
    requires r < |s.rooms|
    ensures Thins(s, NoteAll(s, r, notes)) && NoteAll(s, r, notes).rooms == s.rooms
    decreases |notes|
  {
    hide Filter;
    if notes != [] {
      var t := NoteAll(s, r, notes[..|notes| - 1]);
      NotesThin(s, r, notes[..|notes| - 1]);
      ThinsJoins(s, t, NoteTo(t, r, notes[|notes| - 1]));
    }
  }

  predicate HostFresh(s: Relay, h: nat)
    requires h < |s.hosts|
  {
    !s.hosts[h].left ==> s.now - s.hosts[h].heard <= SILENT_TIMEOUT_MS
  }

  predicate DeviceFresh(s: Relay, d: nat)
    requires d < |s.devs|
  {
    !s.devs[d].left ==> !TimedOut(s.devs[d], s.now)
  }

  /** The connections of the room that are left are fresh. */
  predicate RoomFresh(s: Relay, r: nat) {
    && (forall h: nat :: h < |s.hosts| && s.hosts[h].room == r ==> HostFresh(s, h))
    && (forall d: nat :: d < |s.devs| && s.devs[d].room == r ==> DeviceFresh(s, d))
  }

  lemma StaysFresh(s: Relay, t: Relay, r: nat)
    requires RoomFresh(s, r) && Thins(s, t)
    ensures RoomFresh(t, r)
  {
    forall h: nat | h < |t.hosts| && t.hosts[h].room == r
      ensures HostFresh(t, h)
    {
      assert KeptHost(s.hosts[h], t.hosts[h]) && HostFresh(s, h);
    }
    forall d: nat | d < |t.devs| && t.devs[d].room == r
      ensures DeviceFresh(t, d)
    {
      assert KeptDevice(s.devs[d], t.devs[d]) && DeviceFresh(s, d);
    }
  }

  lemma QuietRoomFresh(s: Relay, r: nat)
    requires Inv(s) && r < |s.rooms|
    ensures
      var quiet := SweepHost(s, r);
      && Thins(s, quiet) && Inv(quiet) && RoomShaped(quiet, r)
      && forall h: nat :: h < |quiet.hosts| && quiet.hosts[h].room == r ==> HostFresh(quiet, h)
  {
    hide SweepHost, Traces, Presences, Flights, Valid, NoEmptyRoom;
    SweepHostThins(s, r);
    SweepHostKeeps(s, r);
    var quiet := SweepHost(s, r);
    assert RoomShaped(quiet, r);
    forall h: nat | h < |quiet.hosts| && quiet.hosts[h].room == r
      ensures HostFresh(quiet, h)
    {
      assert KeptHost(s.hosts[h], quiet.hosts[h]) && HostOk(s, h);
    }
  }

  lemma SweptDevicesFresh(s: Relay, r: nat)
    requires Inv(s) && r < |s.rooms| && RoomShaped(s, r)
    ensures
      var t := SweepDevices(s, s.rooms[r].devices);
      Thins(s, t) && forall d: nat :: d < |t.devs| && t.devs[d].room == r ==> DeviceFresh(t, d)
  {
    hide SweepDevices, Traces, Presences, Flights, Valid, NoEmptyRoom;
    var ds := s.rooms[r].devices;
    SweepDevicesThins(s, ds);
    var t := SweepDevices(s, ds);
    forall d: nat | d < |t.devs| && t.devs[d].room == r
      ensures DeviceFresh(t, d)
    {
      assert KeptDevice(s.devs[d], t.devs[d]) && DeviceOk(s, d);
      if !t.devs[d].left {
        var i :| 0 <= i < |ds| && ds[i] == d;
      }
    }
  }

  lemma SweepRoomFresh(s: Relay, r: nat)
    requires Inv(s) && r < |s.rooms|
    ensures Thins(s, SweepRoom(s, r)) && RoomFresh(SweepRoom(s, r), r)
  {
    hide Inv, SweepHost, SweepDevices, NoteAll, Expire, Thins, HostFresh, DeviceFresh;
    InvIsRegistry(s);
    QuietRoomFresh(s, r);
    var quiet := SweepHost(s, r);
    SweptDevicesFresh(quiet, r);
    var swept := SweepDevices(quiet, quiet.rooms[r].devices);
    HostsStayFresh(quiet, swept, r);
    ThinsJoins(s, quiet, swept);
    var (box, notes) := Expire(swept.box, swept.rooms[r].id, swept.now);
    var kept := swept.(box := box);
    BoxThins(swept, box);
    StaysFresh(swept, kept, r);
    NotesThin(kept, r, notes);
    StaysFresh(kept, NoteAll(kept, r, notes), r);
    ThinsJoins(s, swept, kept);
    ThinsJoins(s, kept, NoteAll(kept, r, notes));
  }

  lemma HostsStayFresh(s: Relay, t: Relay, r: nat)
    requires Thins(s, t) && forall h: nat :: h < |s.hosts| && s.hosts[h].room == r ==> HostFresh(s, h)
    ensures forall h: nat :: h < |t.hosts| && t.hosts[h].room == r ==> HostFresh(t, h)
  {
    forall h: nat | h < |t.hosts| && t.hosts[h].room == r
      ensures HostFresh(t, h)
    {
      assert KeptHost(s.hosts[h], t.hosts[h]) && HostFresh(s, h);
    }
  }

  lemma BoxThins(s: Relay, box: Table)
    ensures Thins(s, s.(box := box))
  {
  }

  /** Sweeping on only thins out. */
  lemma {:induction false} SweepRoomsThins(s: Relay, m: nat, n: nat)
    requires Inv(s) && m <= n <= |s.rooms|
    ensures Shaped(s) && Thins(SweepRooms(s, m), SweepRooms(s, n))
  {
    hide Inv, SweepRoom, Shaped, Thins;
    InvIsRegistry(s);
    if m == n {
      BoxThins(SweepRooms(s, m), SweepRooms(s, m).box);
    } else {
      SweepRoomsThins(s, m, n - 1);
      SweepRoomsKeeps(s, n - 1);
      var t := SweepRooms(s, n - 1);
      BoxThins(t, t.box);
      if Indexed(t, n - 1) {
        SweepRoomFresh(t, n - 1);
      }
      ThinsJoins(SweepRooms(s, m), t, SweepRooms(s, n));
    }
  }

  /** A room that the map still holds at the end has been swept. */
  lemma SweptRoomFresh(s: Relay, r: nat)
    requires Inv(s) && r < |s.rooms|
    ensures Shaped(s) && (Indexed(SweepRooms(s, |s.rooms|), r) ==> RoomFresh(SweepRooms(s, |s.rooms|), r))
  {
    hide Inv, SweepRooms, SweepRoom, Shaped, Thins, RoomFresh;
    InvIsRegistry(s);
    var t := SweepRooms(s, |s.rooms|);
    SweepRoomsIndex(s, |s.rooms|);
    if Indexed(t, r) {
      SweepTakes(s, t.rooms[r].id);
      SweepRoomsKeeps(s, r);
      SweepRoomFresh(SweepRooms(s, r), r);
      SweepRoomsThins(s, r + 1, |s.rooms|);
      StaysFresh(SweepRooms(s, r + 1), t, r);
    }
  }

  lemma SweptNow(s: Relay)
    requires Inv(s)
    ensures Shaped(s) && SweepRooms(s, |s.rooms|).now == s.now
  {
    hide Inv, SweepRoom, Shaped;
    SweepRoomsThins(s, 0, |s.rooms|);
  }

  /**
   * After a sweep no connected host or device has been silent for more than 90 s, no pairing is past its end, and no
   * expired item is held.
   */
  lemma SweepAchieves(s: Relay)
    requires Inv(s)
    ensures
      var t := Sweep(s);
      && t.now == s.now
      && (forall h: nat :: h < |t.hosts| && !t.hosts[h].left ==> t.now - t.hosts[h].heard <= SILENT_TIMEOUT_MS)
      && (forall d: nat :: d < |t.devs| && !t.devs[d].left ==> !TimedOut(t.devs[d], t.now))
      && (forall row :: row in t.box.rows ==> row.item.exp > t.now)
  {
    hide SweepRooms, Thins, Traces, Presences, Flights, Valid, NoEmptyRoom;
    SweepRoomsKeeps(s, |s.rooms|);
    var t := SweepRooms(s, |s.rooms|);
    SweepRoomsIndex(s, |s.rooms|);
    SweptNow(s);
    forall h: nat | h < |t.hosts| && !t.hosts[h].left
      ensures HostFresh(t, h)
    {
      assert HostOk(t, h) && RoomOk(t, t.hosts[h].room);
      SweptRoomFresh(s, t.hosts[h].room);
    }
    forall d: nat | d < |t.devs| && !t.devs[d].left
      ensures DeviceFresh(t, d)
    {
      assert DeviceOk(t, d) && RoomOk(t, t.devs[d].room);
      SweptRoomFresh(s, t.devs[d].room);
    }
  }
}
