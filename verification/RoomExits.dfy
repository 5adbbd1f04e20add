/** Which devices and hosts of the private relay an event makes leave, and which it leaves alone. */
module RoomExits {
  import opened Wrappers
  import opened Sequences
  import opened Acls
  import opened MailboxItems
  import opened MailboxTable
  import opened RoomState
  import opened RoomInvariants
  import opened RoomSteps
  import opened RoomSweeps
  import opened RoomRuns
  import opened RoomGuarantees
  import RoomTalk

  // ---- devices ----

  /** The same device, which has left if `gone`; who leaves has its socket closed. It may have been sent something. */
  predicate Parted(a: Device, b: Device, gone: bool) {
    b == a.(left := a.left || gone, open := a.open && (a.left || !gone), sent := b.sent)
  }

  lemma DropDeviceParts(s: Relay, e: nat, d: nat)
    requires Shaped(s) && e < |s.devs| && d < |s.devs|
    ensures Parted(s.devs[d], DropDevice(s, e).devs[d], d == e)
  {
    hide DropDevice;
    if s.devs[e].left {
      LeftDropped(s, e);
    } else {
      DropDeviceEffect(s, e);
    }
  }

  lemma DropHostParts(s: Relay, h: nat, keepRoom: bool, d: nat)
    requires Registry(s) && h < |s.hosts| && d < |s.devs|
    ensures Parted(s.devs[d], DropHost(s, h, keepRoom).devs[d], false)
  {
    if !s.hosts[h].left {
      hide DropHost;
      DropHostEffect(s, h, keepRoom);
    }
  }

  lemma AttachHostParts(s: Relay, c: string, d: nat)
    requires Registry(s) && d < |s.devs|
    ensures |AttachHost(s, c).devs| == |s.devs| && Parted(s.devs[d], AttachHost(s, c).devs[d], false)
  {
    hide DropHost;
    var seated := EnsureRoom(s, c);
    EnsureRoomShaped(s, c);
    EnsureRoomKeepsRegistry(s, c);
    var previous := seated.rooms[seated.index[c]].host;
    if previous.Some? {
      assert RoomShaped(seated, seated.index[c]);
      DropHostParts(seated, previous.value, true, d);
    }
  }

  lemma AttachDeviceParts(s: Relay, c: string, dk: string, pair: bool, offer: string, d: nat)
    requires Shaped(s) && d < |s.devs|
    ensures |s.devs| <= |AttachDevice(s, c, dk, pair, offer).devs| && AttachDevice(s, c, dk, pair, offer).devs[d] == s.devs[d]
  {
    hide Admit;
    var t := EnsureRoom(s, c);
    EnsureRoomShaped(s, c);
    AdmitEffect(t, t.index[c], dk, pair, offer);
    assert Admit(t, t.index[c], dk, pair, offer).devs[..|s.devs|][d] == s.devs[d];
  }

  lemma OnReadyParts(s: Relay, h: nat, d: nat)
    requires Shaped(s) && h < |s.hosts| && d < |s.devs|
    ensures |OnReady(s, h).devs| == |s.devs| && Parted(s.devs[d], OnReady(s, h).devs[d], false)
  {
    hide Announce, OpenAll, DeliverNext;
    if Seated(s, h) && !s.hosts[h].ready && s.rooms[s.hosts[h].room].id in s.acls {
      ReadiedEffect(s, h);
      AnnounceEffect(s, h);
    }
  }

  lemma OnAckParts(s: Relay, h: nat, number: Option<int>, outcome: Outcome, d: nat)
    requires Shaped(s) && h < |s.hosts| && d < |s.devs|
    ensures |OnAck(s, h, number, outcome).devs| == |s.devs| && Parted(s.devs[d], OnAck(s, h, number, outcome).devs[d], false)
  {
    hide OnAck, Ack;
    RoomTalk.OnAckHeard(s, h, number, outcome, d, RoomTalk.Chatter);
  }

  /** The host in charge may act on the link. */
  predicate Commands(s: Relay, h: nat, link: nat)
    requires h < |s.hosts|
  {
    InCharge(s, h) && link in s.rooms[s.hosts[h].room].devices
  }

  lemma OnCloseDeviceParts(s: Relay, h: nat, link: nat, d: nat)
    requires Shaped(s) && h < |s.hosts| && d < |s.devs|
    ensures |OnCloseDevice(s, h, link).devs| == |s.devs|
    ensures Parted(s.devs[d], OnCloseDevice(s, h, link).devs[d], d == link && Commands(s, h, link))
  {
    hide DropDevice;
    assert RoomShaped(s, s.hosts[h].room);
    if OnCloseDevice(s, h, link) != s {
      DropDeviceParts(s, link, d);
    } else if Commands(s, h, link) {
      DropDeviceParts(s, link, d);
    }
  }

  lemma HostFrameParts(s: Relay, h: nat, says: HostSays, d: nat)
    requires Shaped(s) && h < |s.hosts| && d < |s.devs|
    ensures |FromHostSocket(s, h, says).devs| == |s.devs|
    ensures Parted(s.devs[d], FromHostSocket(s, h, says).devs[d], says.CloseSaid? && d == says.link && Commands(s, h, d))
  {
    hide OnReady, OnCloseDevice, OnAck, AckOutcome;
    var t := HearHost(s, h);
    ShapedByRooms(s, t);
    assert RoomShaped(t, t.hosts[h].room);
    if Seated(t, h) {
      match says
      case ReadySaid => OnReadyParts(t, h, d);
      case CloseSaid(link) => OnCloseDeviceParts(t, h, link, d);
      case AckSaid(number, ok, code) => OnAckParts(t, h, number, AckOutcome(ok, code), d);
      case _ =>
    }
  }

  lemma PartedTwice(a: Device, b: Device, c: Device, first: bool, second: bool)
    requires Parted(a, b, first) && Parted(b, c, second)
    ensures Parted(a, c, first || second)
  {
  }

  lemma {:induction false} DropShutParts(s: Relay, acl: Acl, ds: seq<nat>, d: nat)
    requires Shaped(s) && Known(ds, |s.devs|) && d < |s.devs|
    ensures DropShut(s, acl, ds).now == s.now
    ensures Parted(s.devs[d], DropShut(s, acl, ds).devs[d], d in ds && Shut(acl, s.devs[d], s.now))
    decreases |ds|
  {
    hide DropDevice, Shaped, OffersAfter, Lists;
    if ds != [] {
      var t := DropShut(s, acl, ds[..|ds| - 1]);
      DropShutParts(s, acl, ds[..|ds| - 1], d);
      DropDeviceParts(t, ds[|ds| - 1], d);
      DropDeviceBox(t, ds[|ds| - 1]);
    }
  }

  /** The list is the room's and newer than the stored one. */
  predicate Newer(s: Relay, h: nat, verdict: Option<Acl>)
    requires Shaped(s) && h < |s.hosts|
  {
    var id := s.rooms[s.hosts[h].room].id;
    verdict.Some? && verdict.value.computer == id && verdict.value.ver > (if id in s.acls then s.acls[id].ver else 0)
  }

  lemma OnAclCheckedParts(s: Relay, h: nat, verdict: Option<Acl>, d: nat)
    requires Shaped(s) && h < |s.hosts| && d < |s.devs|
    ensures |OnAclChecked(s, h, verdict).devs| == |s.devs|
    ensures Parted(s.devs[d], OnAclChecked(s, h, verdict).devs[d],
                   Newer(s, h, verdict) && d in s.rooms[s.hosts[h].room].devices && Shut(verdict.value, s.devs[d], s.now))
  {
    hide DropShut, Shut;
    if Newer(s, h, verdict) {
      var r := s.hosts[h].room;
      var saved := s.(acls := s.acls[s.rooms[r].id := verdict.value]);
      ShapedByRooms(s, saved);
      assert RoomShaped(saved, r);
      DropShutParts(saved, verdict.value, s.rooms[r].devices, d);
    }
  }

  // ---- a device's frame ----

  lemma OnMailboxParts(s: Relay, e: nat, says: DeviceSays, d: nat)
    requires Shaped(s) && e < |s.devs| && d < |s.devs|
    ensures |OnMailbox(s, e, says).devs| == |s.devs| && Parted(s.devs[d], OnMailbox(s, e, says).devs[d], false)
  {
    hide Put, Cancel, Listing, HostReady;
    assert RoomShaped(s, s.devs[e].room);
  }

  lemma OnMessageParts(s: Relay, e: nat, says: DeviceSays, d: nat)
    requires Shaped(s) && e < |s.devs| && d < |s.devs|
    ensures |OnMessage(s, e, says).devs| == |s.devs|
    ensures Parted(s.devs[d], OnMessage(s, e, says).devs[d], d == e && (says.BinaryFrame? || says.UnreadableSaid? || says.UnknownSaid?))
  {
    hide DropDevice, OnMailbox, HostReady;
    assert RoomShaped(s, s.devs[e].room);
    DropDeviceParts(s, e, d);
    OnMailboxParts(s, e, says, d);
  }

  /** What makes the relay close a device's socket on its message. */
  predicate Rejected(s: Relay, d: nat, says: DeviceSays, size: nat)
    requires d < |s.devs|
  {
    || says.BinaryFrame? || says.UnreadableSaid? || says.UnknownSaid?
    || (s.devs[d].pair && s.now >= s.devs[d].until)
    || OverLimit(s, d, size)
  }

  lemma DeviceFrameParts(s: Relay, e: nat, says: DeviceSays, size: nat, d: nat)
    requires Shaped(s) && e < |s.devs| && d < |s.devs|
    ensures |FromDeviceSocket(s, e, says, size).devs| == |s.devs|
    ensures
      var a, b := s.devs[d], FromDeviceSocket(s, e, says, size).devs[d];
      Parted(a, b.(heard := a.heard, msgs := a.msgs, rate := a.rate), d == e && Rejected(s, d, says, size))
  {
    hide DropDevice, OnMessage;
    var t := HearDevice(s, e);
    ShapedByRooms(s, t);
    DropDeviceParts(t, e, d);
    var counted := Counted(t, e, size);
    ShapedByRooms(t, counted);
    DropDeviceParts(counted, e, d);
    OnMessageParts(counted, e, says, d);
  }

  // ---- the sweep ----

  lemma {:induction false} SweepDevicesParts(s: Relay, ds: seq<nat>, d: nat)
    requires Shaped(s) && Known(ds, |s.devs|) && d < |s.devs|
    ensures SweepDevices(s, ds).now == s.now
    ensures Parted(s.devs[d], SweepDevices(s, ds).devs[d], d in ds && TimedOut(s.devs[d], s.now))
    decreases |ds|
  {
    hide DropDevice, Shaped;
    if ds != [] {
      var t := SweepDevices(s, ds[..|ds| - 1]);
      SweepDevicesParts(s, ds[..|ds| - 1], d);
      DropDeviceParts(t, ds[|ds| - 1], d);
      DropDeviceBox(t, ds[|ds| - 1]);
    }
  }

  lemma {:induction false} NoteAllParts(s: Relay, r: nat, notes: seq<Note>, d: nat)
    requires r < |s.rooms| && d < |s.devs|
    ensures Parted(s.devs[d], NoteAll(s, r, notes).devs[d], false)
    decreases |notes|
  {
    hide Filter;
    if notes != [] {
      NoteAllParts(s, r, notes[..|notes| - 1], d);
    }
  }

  lemma SweepHostParts(s: Relay, r: nat, d: nat)
    requires Registry(s) && r < |s.rooms| && d < |s.devs|
    ensures SweepHost(s, r).now == s.now && Parted(s.devs[d], SweepHost(s, r).devs[d], false)
    ensures SweepHost(s, r).rooms[r].devices == s.rooms[r].devices
  {
    hide DropHost;
    assert RoomShaped(s, r);
    var host := s.rooms[r].host;
    if host.Some? {
      assert RoomOk(s, r);
      DropHostEffect(s, host.value, false);
      DropHostParts(s, host.value, false, d);
    }
  }

  lemma SweepRoomParts(s: Relay, r: nat, d: nat)
    requires Registry(s) && r < |s.rooms| && d < |s.devs|
    ensures SweepRoom(s, r).now == s.now
    ensures Parted(s.devs[d], SweepRoom(s, r).devs[d], s.devs[d].room == r && TimedOut(s.devs[d], s.now))
  {
    hide SweepHost, SweepDevices, NoteAll, Expire;
    assert RoomShaped(s, r);
    var quiet := SweepHost(s, r);
    SweepHostParts(s, r, d);
    assert RoomShaped(quiet, r);
    var swept := SweepDevices(quiet, quiet.rooms[r].devices);
    SweepDevicesParts(quiet, quiet.rooms[r].devices, d);
    var (box, notes) := Expire(swept.box, swept.rooms[r].id, swept.now);
    NoteAllParts(swept.(box := box), r, notes, d);
    NoteAllBox(swept.(box := box), r, notes);
    assert RoomOk(s, r) && DeviceOk(s, d);
  }

  lemma {:induction false} SweepRoomsParts(s: Relay, n: nat, d: nat)
    requires Inv(s) && n <= |s.rooms| && d < |s.devs|
    ensures Shaped(s) && SweepRooms(s, n).now == s.now
    ensures Parted(s.devs[d], SweepRooms(s, n).devs[d], s.devs[d].room < n && TimedOut(s.devs[d], s.now))
  {
    hide SweepRoom, Inv, Registry, Shaped;
    InvIsRegistry(s);
    if n > 0 {
      SweepRoomsKeeps(s, n - 1);
      var t := SweepRooms(s, n - 1);
      InvIsRegistry(t);
      SweepRoomsParts(s, n - 1, d);
      if Indexed(t, n - 1) {
        SweepRoomParts(t, n - 1, d);
      } else if s.devs[d].room == n - 1 {
        UnheldHasLeft(t, d);
      }
    }
  }

  lemma UnheldHasLeft(s: Relay, d: nat)
    requires Registry(s) && d < |s.devs| && s.devs[d].room < |s.rooms| && !Indexed(s, s.devs[d].room)
    ensures s.devs[d].left
  {
    assert DeviceOk(s, d) && RoomOk(s, s.devs[d].room);
  }

  lemma SweepParts(s: Relay, d: nat)
    requires Inv(s) && d < |s.devs|
    ensures Shaped(s) && |Sweep(s).devs| == |s.devs| && Parted(s.devs[d], Sweep(s).devs[d], TimedOut(s.devs[d], s.now))
  {
    hide SweepRooms, Inv;
    InvIsRegistry(s);
    SweepRoomsParts(s, |s.rooms|, d);
  }
}
