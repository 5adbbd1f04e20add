/** Who is connected to the private relay: what each event makes come, be ready and leave, and nothing else does. */
module RoomMembers {
  import opened Wrappers
  import opened Sequences
  import opened Acls
  import opened MailboxItems
  import opened MailboxTable
  import opened RateLimit
  import opened RoomState
  import opened RoomInvariants
  import opened RoomSteps
  import opened RoomSweeps
  import opened RoomRuns
  import opened RoomGuarantees
  import opened RoomExits
  import opened RoomTalk
  import HostTalk

  // ---- devices ----

  /** The list does not admit the device: its key is not on it, or the offer it pairs by is not, or is over. */
  predicate Unlisted(acl: Acl, d: Device, now: int) {
    if d.pair then forall o :: o in acl.offers && o.id == d.offer ==> o.exp <= now
    else forall g :: g in acl.devices ==> g.dk != d.dk
  }

  /** One more message of this size is too much for the window of ten seconds, or the message limit of a pairing. */
  predicate TooMuch(d: Device, size: nat, now: int) {
    var renewed := now >= d.rate.start + 10_000;
    || (if renewed then size > 8 * 1024 * 1024 else d.rate.msgs >= 200 || d.rate.bytes + size > 8 * 1024 * 1024)
    || (d.pair && d.msgs >= 16)
  }

  /** What makes a connected device leave. */
  predicate Leaves(s: Relay, e: Event, d: nat)
    requires Possible(s, e) && d < |s.devs|
  {
    match e
    case DeviceEnds(x) => x == d
    case DeviceSpeaks(x, says, size) =>
      x == d && (says.BinaryFrame? || says.UnreadableSaid? || says.UnknownSaid? || TooMuch(s.devs[d], size, s.now)
                 || (s.devs[d].pair && s.devs[d].until <= s.now))
    case HostSpeaks(h, says) => says.CloseSaid? && says.link == d && InCharge(s, h) && s.hosts[h].room == s.devs[d].room
    case AclVerified(h, verdict) => Stored(s, e) && s.hosts[h].room == s.devs[d].room && Unlisted(verdict.value, s.devs[d], s.now)
    case Sweeps => s.devs[d].heard + 90_000 < s.now || (s.devs[d].pair && s.devs[d].until <= s.now)
    case _ => false
  }

  /** A verified list is stored: it is the host's computer's, and newer than what is stored for that. */
  predicate Stored(s: Relay, e: Event)
    requires Possible(s, e)
  {
    && e.AclVerified? && e.verdict.Some? && s.hosts[e.h].room < |s.rooms|
    && e.verdict.value.computer == s.rooms[s.hosts[e.h].room].id
    && e.verdict.value.ver > (if e.verdict.value.computer in s.acls then s.acls[e.verdict.value.computer].ver else 0)
  }

  /**
   * A device leaves exactly for the reasons its relay has, and its socket is closed when it does; otherwise its
   * socket is what it was, unless it stalled. Its computer, key, offer and end of pairing never change.
   */
  lemma DeviceLeavesExactly(s: Relay, e: Event, d: nat)
    requires Reachable(s) && Shaped(s) && Possible(s, e) && !e.Restarts? && d < |s.devs|
    ensures d < |Next(s, e).devs|
    ensures
      var a, b := s.devs[d], Next(s, e).devs[d];
      && (b.left <==> a.left || Leaves(s, e, d))
      && (b.open <==> a.open && e != DeviceStalls(d) && (a.left || !Leaves(s, e, d)))
      && b.room == a.room && b.dk == a.dk && b.pair == a.pair && b.offer == a.offer && b.until == a.until
  {
    hide Reachable, Traces, Presences, NoEmptyRoom, Flights, Valid, AttachHost, AttachDevice, FromHostSocket, OnAclChecked, DropHost,
      FromDeviceSocket, DropDevice, Sweep, OverLimit, TooMuch, Unlisted, Shut;
    ReachableInv(s);
    assert DeviceOk(s, d);
    match e
    case HostConnects(c) => AttachHostParts(s, c, d);
    case DeviceConnects(c, dk, pair, offer) => AttachDeviceParts(s, c, dk, pair, offer, d);
    case HostSpeaks(h, says) =>
      HostFrameParts(s, h, says, d);
      ListedIsIn(s, h, d);
    case AclVerified(h, verdict) =>
      OnAclCheckedParts(s, h, verdict, d);
      ListedIsIn(s, h, d);
      if verdict.Some? {
        ShutIsUnlisted(verdict.value, s.devs[d], s.now);
      }
    case HostEnds(h) => DropHostParts(s, h, false, d);
    case DeviceSpeaks(f, says, size) =>
      DeviceFrameParts(s, f, says, size, d);
      OverIsTooMuch(s, d, size);
    case DeviceEnds(f) => DropDeviceParts(s, f, d);
    case Sweeps => SweepParts(s, d);
    case _ =>
  }

  lemma ListedIsIn(s: Relay, h: nat, d: nat)
    requires Registry(s) && h < |s.hosts| && d < |s.devs|
    ensures d in s.rooms[s.hosts[h].room].devices <==> !s.devs[d].left && s.hosts[h].room == s.devs[d].room
  {
    assert DeviceOk(s, d) && RoomOk(s, s.hosts[h].room);
  }

  lemma ShutIsUnlisted(acl: Acl, d: Device, now: int)
    ensures Shut(acl, d, now) <==> Unlisted(acl, d, now)
  {
  }

  lemma OverIsTooMuch(s: Relay, d: nat, size: nat)
    requires d < |s.devs|
    ensures OverLimit(s, d, size) <==> TooMuch(s.devs[d], size, s.now)
  {
  }

  /**
   * Only a device's own messages are charged to it: each one taken from a connected device, unless it is binary or the
   * pairing is over, counts for the window of its time, and for the pairing when it is within the window's limits.
   */
  lemma ChargedExactly(s: Relay, e: Event, d: nat)
    requires Reachable(s) && Shaped(s) && Possible(s, e) && !e.Restarts? && d < |s.devs| && d < |Next(s, e).devs|
    ensures
      var a, b := s.devs[d], Next(s, e).devs[d];
      var own := e.DeviceSpeaks? && e.d == d;
      var charged := own && !a.left && !e.says.BinaryFrame? && !(a.pair && a.until <= s.now);
      && b.heard == (if own then s.now else a.heard)
      && (!charged ==> b.rate == a.rate && b.msgs == a.msgs)
      && (charged && s.now >= a.rate.start + 10_000 ==> b.rate == Rate(s.now, 1, e.size))
      && (charged && s.now < a.rate.start + 10_000 ==> b.rate == Rate(a.rate.start, a.rate.msgs + 1, a.rate.bytes + e.size))
      && (charged ==> b.msgs == a.msgs + (if a.pair && b.rate.msgs <= 200 && b.rate.bytes <= 8 * 1024 * 1024 then 1 else 0))
  {
    hide Reachable, Inv, AttachHost, AttachDevice, FromHostSocket, OnAclChecked, DropHost, FromDeviceSocket, DropDevice, Sweep, Shut,
      OverLimit, Newer, Charge;
    ReachableInv(s);
    InvIsRegistry(s);
    match e
    case HostConnects(c) => AttachHostParts(s, c, d);
    case DeviceConnects(c, dk, pair, offer) => AttachDeviceParts(s, c, dk, pair, offer, d);
    case HostSpeaks(h, says) => HostFrameParts(s, h, says, d);
    case AclVerified(h, verdict) => OnAclCheckedParts(s, h, verdict, d);
    case HostEnds(h) => DropHostParts(s, h, false, d);
    case DeviceSpeaks(f, says, size) => FrameCharges(s, f, says, size, d);
    case DeviceEnds(f) => DropDeviceParts(s, f, d);
    case Sweeps => SweepParts(s, d);
    case _ =>
  }

  lemma FrameCharges(s: Relay, f: nat, says: DeviceSays, size: nat, d: nat)
    requires Shaped(s) && f < |s.devs| && d < |s.devs|
    ensures d < |FromDeviceSocket(s, f, says, size).devs|
    ensures
      var a, b := s.devs[d], FromDeviceSocket(s, f, says, size).devs[d];
      var charged := d == f && !a.left && !says.BinaryFrame? && !(a.pair && a.until <= s.now);
      && b.heard == (if d == f then s.now else a.heard)
      && (!charged ==> b.rate == a.rate && b.msgs == a.msgs)
      && (charged && s.now >= a.rate.start + 10_000 ==> b.rate == Rate(s.now, 1, size))
      && (charged && s.now < a.rate.start + 10_000 ==> b.rate == Rate(a.rate.start, a.rate.msgs + 1, a.rate.bytes + size))
      && (charged ==> b.msgs == a.msgs + (if a.pair && b.rate.msgs <= 200 && b.rate.bytes <= 8 * 1024 * 1024 then 1 else 0))
  {
    hide DropDevice, OnMessage;
    var t := HearDevice(s, f);
    ShapedByRooms(s, t);
    DropDeviceParts(t, f, d);
    var counted := Counted(t, f, size);
    ShapedByRooms(t, counted);
    DropDeviceParts(counted, f, d);
    OnMessageParts(counted, f, says, d);
  }

  // ---- hosts ----

  /** What makes a host leave. */
  predicate HostLeaves(s: Relay, e: Event, g: nat)
    requires Shaped(s) && g < |s.hosts|
  {
    match e
    case HostEnds(h) => h == g
    case HostConnects(c) => s.rooms[s.hosts[g].room].id == c
    case Sweeps => s.hosts[g].heard + 90_000 < s.now
    case _ => false
  }

  /** The same host, which has left if `gone`, its socket closed. It may have been sent something. */
  predicate Retired(a: Host, b: Host, gone: bool) {
    b == a.(left := a.left || gone, ready := a.ready && !gone, open := a.open && (a.left || !gone), sent := b.sent)
  }

  lemma DropHostRetires(s: Relay, h: nat, keepRoom: bool, g: nat)
    requires Registry(s) && h < |s.hosts| && g < |s.hosts|
    ensures Retired(s.hosts[g], DropHost(s, h, keepRoom).hosts[g], g == h)
  {
    assert HostOk(s, g);
    if !s.hosts[h].left {
      hide DropHost;
      DropHostEffect(s, h, keepRoom);
    }
  }

  /** Only the room's host, if any, is replaced. */
  lemma SeatedInRoom(s: Relay, r: nat, g: nat)
    requires Registry(s) && r < |s.rooms| && Indexed(s, r) && g < |s.hosts|
    ensures RoomShaped(s, r) && (s.rooms[r].host == Some(g) ==> s.hosts[g].room == r)
    ensures !s.hosts[g].left && s.rooms[s.hosts[g].room].id == s.rooms[r].id ==> s.rooms[r].host == Some(g)
    ensures s.hosts[g].left ==> !s.hosts[g].ready
  {
    assert RoomShaped(s, r) && RoomOk(s, r) && HostOk(s, g) && RoomOk(s, s.hosts[g].room);
  }

  lemma ConnectRetires(s: Relay, c: string, g: nat)
    requires Registry(s) && g < |s.hosts|
    ensures |AttachHost(s, c).hosts| == |s.hosts| + 1
    ensures Retired(s.hosts[g], AttachHost(s, c).hosts[g], s.rooms[s.hosts[g].room].id == c)
  {
    hide DropHost, Registry;
    HostTalk.RegistryShaped(s);
    var seated := EnsureRoom(s, c);
    EnsureRoomShaped(s, c);
    EnsureRoomKeepsRegistry(s, c);
    HostTalk.RegistryIds(seated, c);
    var r := seated.index[c];
    SeatedInRoom(seated, r, g);
    if seated.rooms[r].host.Some? {
      DropHostRetires(seated, seated.rooms[r].host.value, true, g);
    }
  }

  lemma FrameRetires(s: Relay, h: nat, says: HostSays, g: nat)
    requires Registry(s) && h < |s.hosts| && g < |s.hosts|
    ensures |FromHostSocket(s, h, says).hosts| == |s.hosts|
    ensures
      var a, b := s.hosts[g], FromHostSocket(s, h, says).hosts[g];
      b == a.(heard := if g == h then s.now else a.heard, sent := b.sent,
              ready := a.ready || (g == h && says.ReadySaid? && !a.left && s.rooms[a.room].id in s.acls))
  {
    hide OnReady, OnData, OnCloseDevice, OnAck, AckOutcome, DeliverNext, Ack;
    var t := HearHost(s, h);
    ShapedByRooms(s, t);
    assert HostOk(s, h);
    if Seated(t, h) {
      match says
      case ReadySaid => HostTalk.OnReadyTold(t, h, g, HostTalk.Forwards);
      case DataSaid(link, m) => HostTalk.OnDataTold(t, h, link, m);
      case CloseSaid(link) => HostTalk.OnCloseDeviceTold(t, h, link, g, HostTalk.Forwards);
      case AckSaid(number, ok, code) => HostTalk.OnAckTold(t, h, number, AckOutcome(ok, code), g, HostTalk.Forwards);
      case OtherSaid(_) =>
    }
  }

  lemma SweepRoomRetires(s: Relay, r: nat, g: nat)
    requires Registry(s) && r < |s.rooms| && g < |s.hosts|
    ensures SweepRoom(s, r).now == s.now
    ensures Retired(s.hosts[g], SweepRoom(s, r).hosts[g], s.hosts[g].room == r && s.hosts[g].heard + 90_000 < s.now)
  {
    hide DropHost, SweepDevices, NoteAll, Expire;
    SweepRoomCalls(s, r);
    assert RoomShaped(s, r) && HostOk(s, g) && RoomOk(s, r);
    var quiet := SweepHost(s, r);
    if s.rooms[r].host.Some? {
      DropHostRetires(s, s.rooms[r].host.value, false, g);
    }
    assert RoomShaped(quiet, r);
    HostTalk.SweepDevicesTold(quiet, quiet.rooms[r].devices, g, HostTalk.Forwards);
  }

  lemma {:induction false} SweepRoomsRetires(s: Relay, n: nat, g: nat)
    requires Inv(s) && n <= |s.rooms| && g < |s.hosts|
    ensures Shaped(s) && SweepRooms(s, n).now == s.now
    ensures Retired(s.hosts[g], SweepRooms(s, n).hosts[g], s.hosts[g].room < n && s.hosts[g].heard + 90_000 < s.now)
  {
    hide SweepRoom, Inv, Registry, Shaped, Indexed;
    InvIsRegistry(s);
    LeftNotReady(s, g);
    if n > 0 {
      SweepRoomsKeeps(s, n - 1);
      var t := SweepRooms(s, n - 1);
      InvIsRegistry(t);
      SweepRoomsRetires(s, n - 1, g);
      if Indexed(t, n - 1) {
        SweepRoomRetires(t, n - 1, g);
      } else if s.hosts[g].room == n - 1 {
        UnheldHasGone(t, g);
      }
    }
  }

  lemma LeftNotReady(s: Relay, g: nat)
    requires Registry(s) && g < |s.hosts|
    ensures s.hosts[g].left ==> !s.hosts[g].ready
  {
    assert HostOk(s, g);
  }

  lemma UnheldHasGone(s: Relay, g: nat)
    requires Registry(s) && g < |s.hosts| && s.hosts[g].room < |s.rooms| && !Indexed(s, s.hosts[g].room)
    ensures s.hosts[g].left && !s.hosts[g].ready
  {
    assert HostOk(s, g) && RoomOk(s, s.hosts[g].room);
  }

  /**
   * A host leaves exactly when its socket ends, another host of its computer connects, or a sweep finds it silent for
   * more than 90 s; it becomes ready exactly when it says so as its computer's host, with the computer's list stored.
   */
  lemma HostLeavesExactly(s: Relay, e: Event, g: nat)
    requires Reachable(s) && Shaped(s) && Possible(s, e) && !e.Restarts? && g < |s.hosts|
    ensures g < |Next(s, e).hosts|
    ensures
      var a, b := s.hosts[g], Next(s, e).hosts[g];
      && b.room == a.room && (b.left <==> a.left || HostLeaves(s, e, g))
      && (b.ready <==> (a.ready && !HostLeaves(s, e, g)) || (e == HostSpeaks(g, ReadySaid) && !a.left && s.rooms[a.room].id in s.acls))
      && (b.open <==> a.open && e != HostStalls(g) && (a.left || !HostLeaves(s, e, g)))
      && b.heard == (if e.HostSpeaks? && e.h == g then s.now else a.heard)
  {
    hide Reachable, Inv, AttachHost, AttachDevice, FromHostSocket, OnAclChecked, DropHost, FromDeviceSocket, DropDevice, SweepRooms,
      HostTalk.Told, HostTalk.Verdict, Rejected, Newer;
    ReachableInv(s);
    InvIsRegistry(s);
    NextSizes(s, e);
    match e
    case HostConnects(c) => ConnectRetires(s, c, g);
    case DeviceConnects(c, dk, pair, offer) => HostTalk.AttachDeviceTold(s, c, dk, pair, offer, g, HostTalk.Forwards);
    case HostSpeaks(h, says) => FrameRetires(s, h, says, g);
    case AclVerified(h, verdict) => HostTalk.OnAclCheckedTold(s, h, verdict, g, HostTalk.Forwards);
    case HostEnds(h) => DropHostRetires(s, h, false, g);
    case DeviceSpeaks(d, says, size) => HostTalk.DeviceFrameTold(s, d, says, size, g, HostTalk.Forwards);
    case DeviceEnds(d) => HostTalk.DropDeviceTold(s, d, g, HostTalk.Forwards);
    case Sweeps => SweepRoomsRetires(s, |s.rooms|, g);
    case _ =>
  }

  // ---- who comes ----

  /** A connecting host is the host of its computer's one room at once, and not ready yet. */
  lemma HostComesExactly(s: Relay, c: string)
    requires Reachable(s) && Shaped(s)
    ensures
      var t, h := Next(s, HostConnects(c)), |s.hosts|;
      && |t.hosts| == h + 1 && t.hosts[h].room < |t.rooms|
      && t.hosts[h] == Host(t.hosts[h].room, true, false, false, s.now, [])
      && t.rooms[t.hosts[h].room].id == c && t.rooms[t.hosts[h].room].host == Some(h) && Registered(t, t.hosts[h].room)
  {
    hide Reachable, Traces, Presences, NoEmptyRoom, Flights, Valid, DropHost, AttachHost;
    ReachableInv(s);
    AttachHostSize(s, c);
    AttachHostKeeps(s, c);
    var t := AttachHost(s, c);
    ConnectSeats(s, c);
    assert HostOk(t, |s.hosts|) && RoomOk(t, t.hosts[|s.hosts|].room);
  }

  lemma ConnectSeats(s: Relay, c: string)
    requires Registry(s)
    ensures |AttachHost(s, c).hosts| == |s.hosts| + 1
    ensures
      var t, h := AttachHost(s, c), AttachHost(s, c).hosts[|s.hosts|];
      h == Host(h.room, true, false, false, s.now, []) && h.room < |t.rooms| && t.rooms[h.room].id == c
  {
    hide DropHost;
    var seated := EnsureRoom(s, c);
    EnsureRoomShaped(s, c);
    EnsureRoomKeepsRegistry(s, c);
    var r := seated.index[c];
    var previous := seated.rooms[r].host;
    if previous.Some? {
      assert RoomShaped(seated, r);
      DropHostIds(seated, previous.value, true);
      DropHostCalls(seated, previous.value, true);
    }
  }

  /** How many devices are connected to the computer. */
  function Connected(s: Relay, c: string): nat
    requires Shaped(s)
  {
    if c in s.index then |s.rooms[s.index[c]].devices| else 0
  }

  /** The time the pairing may last: 120 s, and no longer than its offer; no time at all for an offer not listed. */
  ghost predicate EndsAt(s: Relay, c: string, offer: string, until: int) {
    if c !in s.acls || (forall o :: o in s.acls[c].offers ==> o.id != offer) then until <= s.now
    else
      exists i: nat :: FirstOf(s.acls[c].offers, offer, i)
        && until <= s.now + 120_000 && until <= s.acls[c].offers[i].exp
        && (until == s.now + 120_000 || until == s.acls[c].offers[i].exp)
  }

  lemma DeadlineEnds(s: Relay, c: string, offer: string)
    ensures EndsAt(s, c, offer, PairingDeadline(s, c, offer))
  {
    if c in s.acls {
      var n := ExpiryFound(s.acls[c].offers, offer);
      if OfferExpiry(s.acls[c].offers, offer).Some? {
        ExpiryOfFirst(s.acls[c].offers, offer, n);
      }
    }
  }

  /**
   * A connecting device joins its computer's one room, told whether the host is ready, unless 16 are there already;
   * then nothing changes for any connection.
   */
  lemma DeviceComesExactly(s: Relay, c: string, dk: string, pair: bool, offer: string)
    requires Reachable(s) && Shaped(s)
    ensures
      var t, d := Next(s, DeviceConnects(c, dk, pair, offer)), |s.devs|;
      if Connected(s, c) >= 16 then t.devs == s.devs && t.hosts == s.hosts
      else
        && |t.devs| == d + 1 && t.devs[..d] == s.devs && t.devs[d].room < |t.rooms|
        && t.rooms[t.devs[d].room].id == c && Registered(t, t.devs[d].room) && RoomShaped(t, t.devs[d].room)
        && t.devs[d] == Device(t.devs[d].room, dk, pair, offer, t.devs[d].until, true, false, s.now, 0, Rate(s.now, 0, 0),
                               [Presence(HostReady(t, t.devs[d].room), t.rooms[t.devs[d].room].lastSeenAt)])
        && (pair ==> EndsAt(s, c, offer, t.devs[d].until))
  {
    hide Reachable, Inv, Registry, Shaped, Admit, EndsAt, HostReady, EnsureRoom;
    ReachableInv(s);
    InvIsRegistry(s);
    var u := EnsureRoom(s, c);
    EnsureRoomShaped(s, c);
    EnsureRoomKeepsRegistry(s, c);
    HostTalk.RegistryIds(u, c);
    EnsureRoomSame(s, c);
    var r := u.index[c];
    if |u.rooms[r].devices| < MAX_DEVICE_SOCKETS {
      AdmitEffect(u, r, dk, pair, offer);
      AdmitsDevice(u, r, dk, pair, offer);
      AdmitShaped(u, r, dk, pair, offer);
      AdmitReadiness(u, r, dk, pair, offer, r);
      DeadlineEnds(u, c, offer);
      EndsSame(s, u, c, offer);
    }
  }

  lemma EnsureRoomSame(s: Relay, c: string)
    requires Shaped(s)
    ensures
      var u := EnsureRoom(s, c);
      && u.now == s.now && u.acls == s.acls && u.devs == s.devs && u.hosts == s.hosts
      && c in u.index && u.index[c] < |u.rooms| && |u.rooms[u.index[c]].devices| == Connected(s, c)
  {
  }

  lemma EndsSame(s: Relay, u: Relay, c: string, offer: string)
    requires u.now == s.now && u.acls == s.acls
    ensures forall until :: EndsAt(u, c, offer, until) <==> EndsAt(s, c, offer, until)
  {
  }

  lemma AdmitsDevice(s: Relay, r: nat, dk: string, pair: bool, offer: string)
    requires Shaped(s) && r < |s.rooms|
    ensures RoomShaped(s, r) && |Admit(s, r, dk, pair, offer).devs| == |s.devs| + 1
    ensures
      var a := Admit(s, r, dk, pair, offer).devs[|s.devs|];
      a == Device(r, dk, pair, offer, if pair then PairingDeadline(s, s.rooms[r].id, offer) else s.now, true, false, s.now, 0,
                  Rate(s.now, 0, 0), [PresenceOf(s, r)])
  {
    hide PresenceOf, PairingDeadline;
    assert RoomShaped(s, r);
  }

  // ---- access lists ----

  /** A list is stored exactly when a newer one of the host's own computer is verified; no other event stores one. */
  lemma ListStoredExactly(s: Relay, e: Event)
    requires Reachable(s) && Shaped(s) && Possible(s, e)
    ensures Next(s, e).acls == if Stored(s, e) then s.acls[e.verdict.value.computer := e.verdict.value] else s.acls
  {
    hide Reachable, Inv, AttachHost, AttachDevice, FromHostSocket, OnAclChecked, DropHost, FromDeviceSocket, DropDevice, Sweep;
    ReachableInv(s);
    InvIsRegistry(s);
    match e
    case HostConnects(c) => ConnectAcls(s, c);
    case DeviceConnects(c, dk, pair, offer) => AttachDeviceAcls(s, c, dk, pair, offer);
    case HostSpeaks(h, says) => HostFrameAcls(s, h, says);
    case AclVerified(h, verdict) => CheckedAcls(s, h, verdict);
    case HostEnds(h) => DropHostAcls(s, h, false);
    case DeviceSpeaks(d, says, size) => DeviceFrameAcls(s, d, says, size);
    case DeviceEnds(d) => DropDeviceAcls(s, d);
    case Sweeps => SweepAcls(s);
    case _ =>
  }

  lemma DropDeviceAcls(s: Relay, d: nat)
    requires Shaped(s) && d < |s.devs|
    ensures DropDevice(s, d).acls == s.acls
  {
    hide DropDevice;
    if s.devs[d].left {
      LeftDropped(s, d);
    } else {
      DropDeviceEffect(s, d);
    }
  }

  lemma DropHostAcls(s: Relay, h: nat, keepRoom: bool)
    requires h < |s.hosts| && s.hosts[h].room < |s.rooms|
    ensures DropHost(s, h, keepRoom).acls == s.acls
  {
  }

  lemma ConnectAcls(s: Relay, c: string)
    requires Shaped(s)
    ensures AttachHost(s, c).acls == s.acls
  {
    hide DropHost;
    var seated := EnsureRoom(s, c);
    EnsureRoomShaped(s, c);
    var previous := seated.rooms[seated.index[c]].host;
    if previous.Some? {
      assert RoomShaped(seated, seated.index[c]);
      DropHostAcls(seated, previous.value, true);
    }
  }

  lemma AttachDeviceAcls(s: Relay, c: string, dk: string, pair: bool, offer: string)
    requires Shaped(s)
    ensures AttachDevice(s, c, dk, pair, offer).acls == s.acls
  {
    hide Admit;
    EnsureRoomShaped(s, c);
    var t := EnsureRoom(s, c);
    AdmitEffect(t, t.index[c], dk, pair, offer);
  }

  lemma HostFrameAcls(s: Relay, h: nat, says: HostSays)
    requires Shaped(s) && h < |s.hosts|
    ensures FromHostSocket(s, h, says).acls == s.acls
  {
    hide Announce, OpenAll, DeliverNext, Ack, DropDevice, AckOutcome, NoteTo;
    var t := HearHost(s, h);
    ShapedByRooms(s, t);
    assert RoomShaped(t, t.hosts[h].room);
    ReadiedEffect(t, h);
    if says.CloseSaid? && OnCloseDevice(t, h, says.link) != t {
      DropDeviceAcls(t, says.link);
    } else if says.AckSaid? {
      AckAcls(t, h, says.number, AckOutcome(says.ok, says.code));
    }
  }

  lemma AckAcls(s: Relay, h: nat, number: Option<int>, outcome: Outcome)
    requires Shaped(s) && h < |s.hosts|
    ensures OnAck(s, h, number, outcome).acls == s.acls
  {
    hide Ack, DeliverNext, NoteTo;
    var r := s.hosts[h].room;
    var (box, note) := Ack(s.box, s.rooms[r].id, number, outcome);
    NoteToKeeps(s.(box := box), r, note);
  }

  lemma {:induction false} DropShutAcls(s: Relay, acl: Acl, ds: seq<nat>)
    requires Shaped(s) && Known(ds, |s.devs|)
    ensures DropShut(s, acl, ds).acls == s.acls
    decreases |ds|
  {
    hide DropDevice, Shaped, Shut;
    if ds != [] {
      DropShutAcls(s, acl, ds[..|ds| - 1]);
      DropDeviceAcls(DropShut(s, acl, ds[..|ds| - 1]), ds[|ds| - 1]);
    }
  }

  lemma CheckedAcls(s: Relay, h: nat, verdict: Option<Acl>)
    requires Shaped(s) && h < |s.hosts|
    ensures
      var e := AclVerified(h, verdict);
      OnAclChecked(s, h, verdict).acls == if Stored(s, e) then s.acls[verdict.value.computer := verdict.value] else s.acls
  {
    hide DropShut;
    var id := s.rooms[s.hosts[h].room].id;
    if Newer(s, h, verdict) {
      var saved := s.(acls := s.acls[id := verdict.value]);
      ShapedByRooms(s, saved);
      assert RoomShaped(saved, s.hosts[h].room);
      DropShutAcls(saved, verdict.value, s.rooms[s.hosts[h].room].devices);
    }
  }

  lemma DeviceFrameAcls(s: Relay, d: nat, says: DeviceSays, size: nat)
    requires Shaped(s) && d < |s.devs|
    ensures FromDeviceSocket(s, d, says, size).acls == s.acls
  {
    hide DropDevice, OverLimit, Put, Cancel, Listing;
    var t := HearDevice(s, d);
    ShapedByRooms(s, t);
    var counted := Counted(t, d, size);
    ShapedByRooms(t, counted);
    assert RoomShaped(counted, s.devs[d].room);
    DropDeviceAcls(t, d);
    DropDeviceAcls(counted, d);
  }

  lemma {:induction false} SweepDevicesAcls(s: Relay, ds: seq<nat>)
    requires Shaped(s) && Known(ds, |s.devs|)
    ensures SweepDevices(s, ds).acls == s.acls
    decreases |ds|
  {
    hide DropDevice, Shaped, TimedOut;
    if ds != [] {
      SweepDevicesAcls(s, ds[..|ds| - 1]);
      DropDeviceAcls(SweepDevices(s, ds[..|ds| - 1]), ds[|ds| - 1]);
    }
  }

  lemma {:induction false} NoteAllAcls(s: Relay, r: nat, notes: seq<Note>)
    requires r < |s.rooms|
    ensures NoteAll(s, r, notes).acls == s.acls
    decreases |notes|
  {
    if notes != [] {
      NoteAllAcls(s, r, notes[..|notes| - 1]);
    }
  }

  lemma SweepRoomAcls(s: Relay, r: nat)
    requires Shaped(s) && r < |s.rooms|
    ensures SweepRoom(s, r).acls == s.acls
  {
    hide DropHost, SweepDevices, NoteAll, Expire;
    assert RoomShaped(s, r);
    var quiet := SweepHost(s, r);
    if s.rooms[r].host.Some? {
      DropHostAcls(s, s.rooms[r].host.value, false);
    }
    assert RoomShaped(quiet, r);
    SweepDevicesAcls(quiet, quiet.rooms[r].devices);
    var swept := SweepDevices(quiet, quiet.rooms[r].devices);
    var (box, notes) := Expire(swept.box, swept.rooms[r].id, swept.now);
    NoteAllAcls(swept.(box := box), r, notes);
  }

  lemma {:induction false} SweepRoomsAcls(s: Relay, n: nat)
    requires Shaped(s) && n <= |s.rooms|
    ensures SweepRooms(s, n).acls == s.acls
  {
    hide SweepRoom, Shaped;
    if n > 0 {
      SweepRoomsAcls(s, n - 1);
      SweepRoomAcls(SweepRooms(s, n - 1), n - 1);
    }
  }

  lemma SweepAcls(s: Relay)
    requires Shaped(s)
    ensures Sweep(s).acls == s.acls
  {
    hide SweepRooms;
    SweepRoomsAcls(s, |s.rooms|);
  }
}
