/** When the devices of the private relay are told of their host: it becomes ready, or it leaves while in charge. */
module RoomStatus {
  import opened Wrappers
  import opened Sequences
  import opened Acls
  import opened MailboxItems
  import opened MailboxTable
  import opened RoomState
  import opened RoomInvariants
  import opened RoomSteps
  import opened RoomSweeps
  import opened RoomRuns
  import opened RoomGuarantees
  import opened RoomExits
  import opened RoomTalk
  import opened RoomVoices
  import opened RoomMembers
  import HostTalk

  /** The device is in the room and its socket is open. */
  predicate InRoom(s: Relay, d: nat, r: nat)
    requires d < |s.devs|
  {
    !s.devs[d].left && s.devs[d].open && s.devs[d].room == r
  }

  /** What the device hears when the host `h` leaves. */
  function Farewell(s: Relay, h: nat, d: nat): seq<DeviceMsg>
    requires h < |s.hosts| && d < |s.devs|
  {
    if InCharge(s, h) && InRoom(s, d, s.hosts[h].room) then [Presence(false, Some(s.now))] else []
  }

  lemma DropHostStatus(s: Relay, h: nat, keepRoom: bool, d: nat)
    requires Registry(s) && h < |s.hosts| && d < |s.devs|
    ensures Heard(DropHost(s, h, keepRoom).devs[d], Statuses) == Heard(s.devs[d], Statuses) + Farewell(s, h, d)
  {
    assert HostOk(s, h) && DeviceOk(s, d) && RoomOk(s, s.hosts[h].room);
    if !s.hosts[h].left {
      hide DropHost, Heard;
      DropHostEffect(s, h, keepRoom);
      GetsHeard(s.devs[d], Presence(false, Some(s.now)), Statuses);
    }
  }

  /** What the device hears when another host of the computer connects. */
  function Replaced(s: Relay, c: string, d: nat): seq<DeviceMsg>
    requires Shaped(s) && d < |s.devs|
  {
    if c !in s.index || s.rooms[s.index[c]].host.None? then []
    else assert RoomShaped(s, s.index[c]); Farewell(s, s.rooms[s.index[c]].host.value, d)
  }

  lemma ConnectStatus(s: Relay, c: string, d: nat)
    requires Registry(s) && d < |s.devs|
    ensures |AttachHost(s, c).devs| == |s.devs|
    ensures Heard(AttachHost(s, c).devs[d], Statuses) == Heard(s.devs[d], Statuses) + Replaced(s, c, d)
  {
    hide DropHost, Heard;
    var seated := EnsureRoom(s, c);
    EnsureRoomShaped(s, c);
    EnsureRoomKeepsRegistry(s, c);
    var previous := seated.rooms[seated.index[c]].host;
    if previous.Some? {
      assert RoomShaped(seated, seated.index[c]);
      DropHostStatus(seated, previous.value, true, d);
    }
  }

  lemma ReadyStatus(s: Relay, h: nat, d: nat)
    requires Registry(s) && h < |s.hosts| && d < |s.devs|
    ensures |OnReady(s, h).devs| == |s.devs|
    ensures Heard(OnReady(s, h).devs[d], Statuses) == Heard(s.devs[d], Statuses) +
      (if HostTalk.Rises(s, h) && InRoom(s, d, s.hosts[h].room) then [Presence(true, Some(s.now))] else [])
  {
    hide Announce, OpenAll, Deliver, Heard;
    ListedIsIn(s, h, d);
    if HostTalk.Rises(s, h) {
      ReadiedEffect(s, h);
      AnnounceEffect(s, h);
      DeliverDevices(Readied(s, h), h);
      GetsHeard(s.devs[d], Presence(true, Some(s.now)), Statuses);
    }
  }

  // ---- the sweep ----

  lemma {:induction false} NoteAllStatus(s: Relay, r: nat, notes: seq<Note>, d: nat)
    requires r < |s.rooms| && d < |s.devs|
    ensures Unmoved(s.devs[d], NoteAll(s, r, notes).devs[d], Statuses)
  {
    NoteAllHeard(s, r, notes, d, Statuses);
  }

  /** What the device hears when its room's silent host is swept. */
  function Swept(s: Relay, r: nat, d: nat): seq<DeviceMsg>
    requires Shaped(s) && r < |s.rooms| && d < |s.devs|
  {
    assert RoomShaped(s, r);
    if s.rooms[r].host.Some? && s.hosts[s.rooms[r].host.value].heard + 90_000 < s.now then Farewell(s, s.rooms[r].host.value, d) else []
  }

  lemma SweepRoomStatus(s: Relay, r: nat, d: nat)
    requires Registry(s) && r < |s.rooms| && d < |s.devs|
    ensures Heard(SweepRoom(s, r).devs[d], Statuses) == Heard(s.devs[d], Statuses) + Swept(s, r, d)
  {
    hide DropHost, SweepDevices, NoteAll, Expire, Heard;
    assert RoomShaped(s, r);
    var quiet := SweepHost(s, r);
    if s.rooms[r].host.Some? {
      DropHostStatus(s, s.rooms[r].host.value, false, d);
    }
    assert RoomShaped(quiet, r);
    var swept := SweepDevices(quiet, quiet.rooms[r].devices);
    SweepDevicesHeard(quiet, quiet.rooms[r].devices, d, Statuses);
    var (box, notes) := Expire(swept.box, swept.rooms[r].id, swept.now);
    NoteAllStatus(swept.(box := box), r, notes, d);
  }

  /** The host in charge of the device's room, silent for more than 90 s. */
  predicate Silent(s: Relay, g: nat, d: nat)
    requires g < |s.hosts| && d < |s.devs|
  {
    InCharge(s, g) && InRoom(s, d, s.hosts[g].room) && s.hosts[g].heard + 90_000 < s.now
  }

  lemma SweptIsSilent(s: Relay, r: nat, d: nat)
    requires Registry(s) && r < |s.rooms| && d < |s.devs|
    ensures Swept(s, r, d) == if (exists g: nat :: g < |s.hosts| && Silent(s, g, d)) && s.devs[d].room == r then [Presence(false, Some(s.now))] else []
  {
    assert RoomShaped(s, r) && RoomOk(s, r) && DeviceOk(s, d);
    if s.rooms[r].host.Some? && Silent(s, s.rooms[r].host.value, d) {
    }
    if g: nat :| g < |s.hosts| && Silent(s, g, d) && s.devs[d].room == r {
      assert HostOk(s, g);
    }
  }

  ghost predicate SomeSilent(s: Relay, d: nat)
    requires d < |s.devs|
  {
    exists g: nat :: g < |s.hosts| && Silent(s, g, d)
  }

  /** Until its room is swept, a device's room is as it was. */
  lemma SilentStays(s: Relay, n: nat, g: nat, d: nat)
    requires Inv(s) && n <= |s.rooms| && Shaped(s) && g < |s.hosts| && d < |s.devs| && s.devs[d].room >= n
    ensures Silent(SweepRooms(s, n), g, d) <==> Silent(s, g, d)
  {
    hide SweepRooms, Traces, Presences, NoEmptyRoom, Flights, Valid;
    SweepRoomsRetires(s, n, g);
    SweepRoomsParts(s, n, d);
    SweepRoomsKeeps(s, n);
    var t := SweepRooms(s, n);
    assert HostOk(s, g) && HostOk(t, g);
  }

  lemma SomeSilentStays(s: Relay, n: nat, d: nat)
    requires Inv(s) && n <= |s.rooms| && Shaped(s) && d < |s.devs| && s.devs[d].room >= n
    ensures SomeSilent(SweepRooms(s, n), d) <==> SomeSilent(s, d)
  {
    hide Inv, SweepRooms, Silent, Shaped;
    forall g: nat | g < |s.hosts|
      ensures Silent(SweepRooms(s, n), g, d) <==> Silent(s, g, d)
    {
      SilentStays(s, n, g, d);
    }
  }

  lemma {:induction false} SweepRoomsStatus(s: Relay, n: nat, d: nat)
    requires Inv(s) && n <= |s.rooms| && d < |s.devs|
    ensures Shaped(s)
    ensures Heard(SweepRooms(s, n).devs[d], Statuses)
         == Heard(s.devs[d], Statuses) + (if SomeSilent(s, d) && s.devs[d].room < n then [Presence(false, Some(s.now))] else [])
  {
    hide Inv, Registry, Shaped, SweepRoom, Heard, SomeSilent, TimedOut, Indexed, Swept;
    InvIsRegistry(s);
    if n > 0 {
      SweepRoomsStatus(s, n - 1, d);
      SweepRoomsKeeps(s, n - 1);
      SweepRoomsParts(s, n - 1, d);
      var u := SweepRooms(s, n - 1);
      InvIsRegistry(u);
      if s.devs[d].room == n - 1 {
        SomeSilentStays(s, n - 1, d);
      }
      if Indexed(u, n - 1) {
        SweepRoomStatus(u, n - 1, d);
        SweptSome(u, n - 1, d);
      } else if s.devs[d].room == n - 1 {
        UnheldHasLeft(u, d);
        LeftNotSilent(s, d);
      }
    }
  }

  lemma SweptSome(s: Relay, r: nat, d: nat)
    requires Registry(s) && Shaped(s) && r < |s.rooms| && d < |s.devs|
    ensures Swept(s, r, d) == if SomeSilent(s, d) && s.devs[d].room == r then [Presence(false, Some(s.now))] else []
  {
    hide Registry, Silent, Swept;
    SweptIsSilent(s, r, d);
  }

  lemma LeftNotSilent(s: Relay, d: nat)
    requires d < |s.devs| && s.devs[d].left
    ensures !SomeSilent(s, d)
  {
  }

  // ---- every event ----

  /** The host in charge of the device's room leaves, and the device is there. */
  ghost predicate LosesHost(s: Relay, e: Event, d: nat)
    requires Shaped(s) && d < |s.devs|
  {
    exists g: nat :: g < |s.hosts| && InCharge(s, g) && InRoom(s, d, s.hosts[g].room) && HostLeaves(s, e, g)
  }

  /** A host becomes ready in the device's room, and the device is there. */
  predicate GainsHost(s: Relay, e: Event, d: nat)
    requires Shaped(s) && Possible(s, e) && d < |s.devs|
  {
    e.HostSpeaks? && e.hostSays.ReadySaid? && HostTalk.Rises(s, e.h) && InRoom(s, d, s.hosts[e.h].room)
  }

  /**
   * A connected device is told that its host is gone when the one in charge leaves, and that it is there when one
   * becomes ready, each time once and with the time; no other device is told, and otherwise none but in answer to its
   * own message.
   */
  lemma StatusToldExactly(s: Relay, e: Event, d: nat)
    requires Reachable(s) && Shaped(s) && Possible(s, e) && d < |s.devs| && d < |Next(s, e).devs|
    requires !(e.DeviceSpeaks? && e.d == d)
    ensures Heard(Next(s, e).devs[d], Statuses) == Heard(s.devs[d], Statuses) +
      (if LosesHost(s, e, d) then [Presence(false, Some(s.now))] else if GainsHost(s, e, d) then [Presence(true, Some(s.now))] else [])
  {
    hide Reachable, Inv, Registry, Shaped, AttachHost, FromHostSocket, DropHost, SweepRooms, Heard, Silent, Farewell, Replaced, LosesHost, GainsHost;
    ReachableInv(s);
    InvIsRegistry(s);
    match e
    case HostConnects(c) =>
      ConnectStatus(s, c, d);
      ReplacedLoses(s, c, d);
    case HostEnds(h) =>
      DropHostStatus(s, h, false, d);
      FarewellLoses(s, h, d);
    case HostSpeaks(h, says) =>
      NoLoss(s, e, d);
      HostFrameSize(s, h, says);
      if says.ReadySaid? {
        ReadyFrameStatus(s, h, d);
      } else {
        NextHeard(s, e, d, Statuses);
      }
    case Sweeps =>
      SweepRoomsStatus(s, |s.rooms|, d);
      SilentLoses(s, d);
    case _ =>
      NoLoss(s, e, d);
      NextHeard(s, e, d, Statuses);
  }

  lemma NoLoss(s: Relay, e: Event, d: nat)
    requires Shaped(s) && Possible(s, e) && d < |s.devs| && !e.HostConnects? && !e.HostEnds? && !e.Sweeps?
    ensures !LosesHost(s, e, d) && (GainsHost(s, e, d) ==> e.HostSpeaks? && e.hostSays.ReadySaid?)
  {
  }

  lemma ReadyFrameStatus(s: Relay, h: nat, d: nat)
    requires Registry(s) && h < |s.hosts| && d < |s.devs| && d < |FromHostSocket(s, h, ReadySaid).devs|
    ensures Shaped(s)
    ensures Heard(FromHostSocket(s, h, ReadySaid).devs[d], Statuses) == Heard(s.devs[d], Statuses) +
      (if GainsHost(s, HostSpeaks(h, ReadySaid), d) then [Presence(true, Some(s.now))] else [])
  {
    hide OnReady, Heard, Registry;
    RegistryIsSound(s);
    var t := HearHost(s, h);
    ShapedByRooms(s, t);
    HearHostAlike(s, h);
    AlikeKeepsRegistry(s, t);
    if Seated(t, h) {
      ReadyStatus(t, h, d);
    }
  }

  lemma RegistryIsSound(s: Relay)
    requires Registry(s)
    ensures Shaped(s)
  {
  }

  lemma HearHostAlike(s: Relay, h: nat)
    requires h < |s.hosts|
    ensures Alike(s, HearHost(s, h))
  {
  }

  lemma FarewellLoses(s: Relay, h: nat, d: nat)
    requires Registry(s) && Shaped(s) && h < |s.hosts| && d < |s.devs|
    ensures Farewell(s, h, d) == if LosesHost(s, HostEnds(h), d) then [Presence(false, Some(s.now))] else []
    ensures !GainsHost(s, HostEnds(h), d)
  {
    if InCharge(s, h) && InRoom(s, d, s.hosts[h].room) {
      assert HostLeaves(s, HostEnds(h), h);
    }
  }

  lemma ReplacedLoses(s: Relay, c: string, d: nat)
    requires Registry(s) && Shaped(s) && d < |s.devs|
    ensures Replaced(s, c, d) == if LosesHost(s, HostConnects(c), d) then [Presence(false, Some(s.now))] else []
    ensures !GainsHost(s, HostConnects(c), d)
  {
    if c in s.index && s.rooms[s.index[c]].host.Some? {
      var r := s.index[c];
      assert RoomShaped(s, r) && RoomOk(s, r);
      var g := s.rooms[r].host.value;
      assert InCharge(s, g) && InRoom(s, d, s.hosts[g].room) ==> HostLeaves(s, HostConnects(c), g);
    }
    if LosesHost(s, HostConnects(c), d) {
      var g: nat :| g < |s.hosts| && InCharge(s, g) && InRoom(s, d, s.hosts[g].room) && HostLeaves(s, HostConnects(c), g);
      assert HostOk(s, g) && RoomOk(s, s.hosts[g].room) && RoomShaped(s, s.hosts[g].room);
    }
  }

  lemma SilentLoses(s: Relay, d: nat)
    requires Shaped(s) && d < |s.devs|
    ensures LosesHost(s, Sweeps, d) <==> SomeSilent(s, d)
    ensures !GainsHost(s, Sweeps, d) && s.devs[d].room < |s.rooms|
  {
    if g: nat :| g < |s.hosts| && Silent(s, g, d) {
      assert HostLeaves(s, Sweeps, g);
    }
    if LosesHost(s, Sweeps, d) {
      var g: nat :| g < |s.hosts| && InCharge(s, g) && InRoom(s, d, s.hosts[g].room) && HostLeaves(s, Sweeps, g);
      assert Silent(s, g, d);
    }
  }

  // ---- when the host was last there ----

  /** The same room, with the time its host was last there brought up to date if `marked`. */
  predicate Seen(a: Room, b: Room, marked: bool, now: int) {
    b.id == a.id && b.lastSeenAt == if marked then Some(now) else a.lastSeenAt
  }

  lemma DropDeviceSeen(s: Relay, d: nat, r: nat)
    requires Shaped(s) && d < |s.devs| && r < |s.rooms|
    ensures |DropDevice(s, d).rooms| == |s.rooms| && DropDevice(s, d).now == s.now
    ensures Seen(s.rooms[r], DropDevice(s, d).rooms[r], false, s.now)
  {
    hide DropDevice;
    if s.devs[d].left {
      LeftDropped(s, d);
    } else {
      DropDeviceEffect(s, d);
    }
  }

  lemma DropHostSeen(s: Relay, h: nat, keepRoom: bool, r: nat)
    requires Registry(s) && h < |s.hosts| && r < |s.rooms|
    ensures |DropHost(s, h, keepRoom).rooms| == |s.rooms|
    ensures Seen(s.rooms[r], DropHost(s, h, keepRoom).rooms[r], InCharge(s, h) && s.hosts[h].room == r, s.now)
  {
    assert HostOk(s, h);
    if !s.hosts[h].left {
      hide DropHost;
      DropHostEffect(s, h, keepRoom);
    }
  }

  /** The room's host is ready, and silent for more than 90 s. */
  predicate QuietHost(s: Relay, r: nat)
    requires Shaped(s) && r < |s.rooms|
  {
    assert RoomShaped(s, r);
    HostReady(s, r) && s.hosts[s.rooms[r].host.value].heard + 90_000 < s.now
  }

  lemma {:induction false} SweepDevicesSeen(s: Relay, ds: seq<nat>, r: nat)
    requires Shaped(s) && Known(ds, |s.devs|) && r < |s.rooms|
    ensures Seen(s.rooms[r], SweepDevices(s, ds).rooms[r], false, s.now) && SweepDevices(s, ds).now == s.now
    decreases |ds|
  {
    hide DropDevice, Shaped, TimedOut;
    if ds != [] {
      SweepDevicesSeen(s, ds[..|ds| - 1], r);
      DropDeviceSeen(SweepDevices(s, ds[..|ds| - 1]), ds[|ds| - 1], r);
    }
  }

  lemma SweepRoomSeen(s: Relay, q: nat, r: nat)
    requires Registry(s) && q < |s.rooms| && r < |s.rooms|
    ensures SweepRoom(s, q).now == s.now
    ensures Seen(s.rooms[r], SweepRoom(s, q).rooms[r], q == r && QuietHost(s, r), s.now)
  {
    hide DropHost, SweepDevices, NoteAll, Expire;
    assert RoomShaped(s, q) && RoomOk(s, q) && RoomShaped(s, r);
    SweepRoomCalls(s, q);
    var quiet := SweepHost(s, q);
    if s.rooms[q].host.Some? {
      DropHostSeen(s, s.rooms[q].host.value, false, r);
      DropHostCalls(s, s.rooms[q].host.value, false);
    }
    assert RoomShaped(quiet, q);
    SweepDevicesSeen(quiet, quiet.rooms[q].devices, r);
  }

  /** A later room's host is as it was while earlier rooms are swept. */
  lemma QuietStays(s: Relay, n: nat, r: nat)
    requires Inv(s) && Shaped(s) && n <= r < |s.rooms|
    ensures QuietHost(SweepRooms(s, n), r) <==> QuietHost(s, r)
  {
    hide SweepRooms, Traces, Presences, NoEmptyRoom, Flights, Valid;
    SweepRoomsKeeps(s, n);
    var t := SweepRooms(s, n);
    assert RoomShaped(s, r) && RoomShaped(t, r) && RoomOk(s, r) && RoomOk(t, r);
    if HostReady(t, r) {
      SweepRoomsRetires(s, n, t.rooms[r].host.value);
      assert HostOk(s, t.rooms[r].host.value);
    }
    if HostReady(s, r) {
      SweepRoomsRetires(s, n, s.rooms[r].host.value);
      assert HostOk(t, s.rooms[r].host.value);
    }
  }

  lemma {:induction false} SweepRoomsSeen(s: Relay, n: nat, r: nat)
    requires Inv(s) && n <= |s.rooms| && r < |s.rooms|
    ensures Shaped(s) && SweepRooms(s, n).now == s.now
    ensures Seen(s.rooms[r], SweepRooms(s, n).rooms[r], r < n && QuietHost(s, r), s.now)
  {
    hide Inv, Registry, Shaped, SweepRoom, Indexed, QuietHost;
    InvIsRegistry(s);
    if n > 0 {
      SweepRoomsSeen(s, n - 1, r);
      SweepRoomsKeeps(s, n - 1);
      var u := SweepRooms(s, n - 1);
      InvIsRegistry(u);
      if r == n - 1 {
        QuietStays(s, n - 1, r);
      }
      if Indexed(u, n - 1) {
        SweepRoomSeen(u, n - 1, r);
      } else if r == n - 1 {
        UnheldUnmanned(u, r);
      }
    }
  }

  lemma UnheldUnmanned(s: Relay, r: nat)
    requires Registry(s) && Shaped(s) && r < |s.rooms| && !Indexed(s, r)
    ensures !QuietHost(s, r)
  {
    assert RoomOk(s, r) && RoomShaped(s, r);
  }

  /** The host in charge of the room leaves, or one becomes ready in it. */
  ghost predicate Marks(s: Relay, e: Event, r: nat)
    requires Shaped(s) && Possible(s, e)
  {
    || (exists g: nat :: g < |s.hosts| && InCharge(s, g) && s.hosts[g].room == r && HostLeaves(s, e, g))
    || (e.HostSpeaks? && e.hostSays.ReadySaid? && HostTalk.Rises(s, e.h) && s.hosts[e.h].room == r)
  }

  lemma ConnectSeen(s: Relay, c: string, r: nat)
    requires Registry(s) && Shaped(s) && r < |s.rooms|
    ensures r < |AttachHost(s, c).rooms|
    ensures Seen(s.rooms[r], AttachHost(s, c).rooms[r], Marks(s, HostConnects(c), r), s.now)
  {
    hide DropHost;
    var seated := EnsureRoom(s, c);
    EnsureRoomShaped(s, c);
    EnsureRoomKeepsRegistry(s, c);
    var q := seated.index[c];
    var previous := seated.rooms[q].host;
    assert RoomShaped(seated, q) && RoomOk(seated, q) && RoomOk(s, r) && RoomShaped(s, r);
    if previous.Some? {
      DropHostSeen(seated, previous.value, true, r);
      assert seated.hosts[previous.value].room == r ==> HostLeaves(s, HostConnects(c), previous.value);
    }
    if Marks(s, HostConnects(c), r) {
      var g: nat :| g < |s.hosts| && InCharge(s, g) && s.hosts[g].room == r && HostLeaves(s, HostConnects(c), g);
      assert HostOk(s, g);
    }
  }

  lemma QuietMarks(s: Relay, r: nat)
    requires Registry(s) && Shaped(s) && r < |s.rooms|
    ensures Marks(s, Sweeps, r) <==> QuietHost(s, r)
  {
    assert RoomShaped(s, r) && RoomOk(s, r);
    if QuietHost(s, r) {
      assert HostLeaves(s, Sweeps, s.rooms[r].host.value) && HostOk(s, s.rooms[r].host.value);
    }
  }

  lemma EndMarks(s: Relay, h: nat, r: nat)
    requires Shaped(s) && h < |s.hosts|
    ensures Marks(s, HostEnds(h), r) <==> InCharge(s, h) && s.hosts[h].room == r
  {
    if InCharge(s, h) && s.hosts[h].room == r {
      assert HostLeaves(s, HostEnds(h), h);
    }
  }

  lemma NoMark(s: Relay, e: Event, r: nat)
    requires Shaped(s) && Possible(s, e) && !e.HostConnects? && !e.HostEnds? && !e.Sweeps? && !e.HostSpeaks?
    ensures !Marks(s, e, r)
  {
  }

  lemma FrameSeen(s: Relay, h: nat, says: HostSays, r: nat)
    requires Shaped(s) && h < |s.hosts| && r < |s.rooms|
    ensures |FromHostSocket(s, h, says).rooms| == |s.rooms|
    ensures Seen(s.rooms[r], FromHostSocket(s, h, says).rooms[r], says.ReadySaid? && HostTalk.Rises(s, h) && s.hosts[h].room == r, s.now)
  {
    hide Announce, OpenAll, DropDevice, Ack, DeliverNext, AckOutcome, NoteTo;
    var t := HearHost(s, h);
    ShapedByRooms(s, t);
    assert RoomShaped(t, t.hosts[h].room);
    ReadiedEffect(t, h);
    if says.CloseSaid? && OnCloseDevice(t, h, says.link) != t {
      DropDeviceSeen(t, says.link, r);
    } else if says.AckSaid? {
      AckSeen(t, h, says.number, AckOutcome(says.ok, says.code));
    }
  }

  lemma AckSeen(s: Relay, h: nat, number: Option<int>, outcome: Outcome)
    requires Shaped(s) && h < |s.hosts|
    ensures OnAck(s, h, number, outcome).rooms == s.rooms
  {
    hide Ack, DeliverNext, NoteTo;
    var r := s.hosts[h].room;
    var (box, note) := Ack(s.box, s.rooms[r].id, number, outcome);
    NoteToKeeps(s.(box := box), r, note);
  }

  lemma {:induction false} DropShutSeen(s: Relay, acl: Acl, ds: seq<nat>, r: nat)
    requires Shaped(s) && Known(ds, |s.devs|) && r < |s.rooms|
    ensures Seen(s.rooms[r], DropShut(s, acl, ds).rooms[r], false, s.now) && DropShut(s, acl, ds).now == s.now
    decreases |ds|
  {
    hide DropDevice, Shaped, Shut;
    if ds != [] {
      DropShutSeen(s, acl, ds[..|ds| - 1], r);
      DropDeviceSeen(DropShut(s, acl, ds[..|ds| - 1]), ds[|ds| - 1], r);
    }
  }

  lemma AclSeen(s: Relay, h: nat, verdict: Option<Acl>, r: nat)
    requires Shaped(s) && h < |s.hosts| && r < |s.rooms|
    ensures |OnAclChecked(s, h, verdict).rooms| == |s.rooms| && Seen(s.rooms[r], OnAclChecked(s, h, verdict).rooms[r], false, s.now)
  {
    hide DropShut;
    var id := s.rooms[s.hosts[h].room].id;
    if Newer(s, h, verdict) {
      var saved := s.(acls := s.acls[id := verdict.value]);
      ShapedByRooms(s, saved);
      assert RoomShaped(saved, s.hosts[h].room);
      DropShutSeen(saved, verdict.value, s.rooms[s.hosts[h].room].devices, r);
    }
  }

  lemma DeviceSeen(s: Relay, d: nat, says: DeviceSays, size: nat, r: nat)
    requires Shaped(s) && d < |s.devs| && r < |s.rooms|
    ensures |FromDeviceSocket(s, d, says, size).rooms| == |s.rooms|
    ensures Seen(s.rooms[r], FromDeviceSocket(s, d, says, size).rooms[r], false, s.now)
  {
    hide DropDevice, OverLimit, Put, Cancel, Listing;
    var t := HearDevice(s, d);
    ShapedByRooms(s, t);
    DropDeviceSeen(t, d, r);
    var counted := Counted(t, d, size);
    ShapedByRooms(t, counted);
    assert RoomShaped(counted, s.devs[d].room);
    DropDeviceSeen(counted, d, r);
  }

  lemma AttachDeviceSeen(s: Relay, c: string, dk: string, pair: bool, offer: string, r: nat)
    requires Shaped(s) && r < |s.rooms|
    ensures r < |AttachDevice(s, c, dk, pair, offer).rooms|
    ensures Seen(s.rooms[r], AttachDevice(s, c, dk, pair, offer).rooms[r], false, s.now)
  {
    hide Admit;
    var t := EnsureRoom(s, c);
    EnsureRoomShaped(s, c);
    AdmitEffect(t, t.index[c], dk, pair, offer);
  }

  /** A room remembers when its host was last there: when one last became ready, or left while in charge. */
  lemma LastSeenExactly(s: Relay, e: Event, r: nat)
    requires Reachable(s) && Shaped(s) && Possible(s, e) && !e.Restarts? && r < |s.rooms|
    ensures r < |Next(s, e).rooms| && Seen(s.rooms[r], Next(s, e).rooms[r], Marks(s, e, r), s.now)
  {
    hide Reachable, Inv, Registry, AttachHost, AttachDevice, FromHostSocket, OnAclChecked, DropHost, FromDeviceSocket, DropDevice,
      SweepRooms, Marks, QuietHost;
    ReachableInv(s);
    InvIsRegistry(s);
    match e
    case HostConnects(c) => ConnectSeen(s, c, r);
    case HostEnds(h) =>
      DropHostSeen(s, h, false, r);
      EndMarks(s, h, r);
    case HostSpeaks(h, says) =>
      FrameSeen(s, h, says, r);
      SpeechMarks(s, e, r);
    case Sweeps =>
      SweepRoomsSeen(s, |s.rooms|, r);
      QuietMarks(s, r);
    case DeviceConnects(c, dk, pair, offer) =>
      NoMark(s, e, r);
      AttachDeviceSeen(s, c, dk, pair, offer, r);
    case AclVerified(h, verdict) =>
      NoMark(s, e, r);
      AclSeen(s, h, verdict, r);
    case DeviceSpeaks(d, says, size) =>
      NoMark(s, e, r);
      DeviceSeen(s, d, says, size, r);
    case DeviceEnds(d) =>
      NoMark(s, e, r);
      DropDeviceSeen(s, d, r);
    case _ => NoMark(s, e, r);
  }

  lemma SpeechMarks(s: Relay, e: Event, r: nat)
    requires Shaped(s) && Possible(s, e) && e.HostSpeaks?
    ensures Marks(s, e, r) <==> e.hostSays.ReadySaid? && HostTalk.Rises(s, e.h) && s.hosts[e.h].room == r
  {
  }
}
