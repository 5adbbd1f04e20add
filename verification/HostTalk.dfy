/** What each host of the private relay is told, kind by kind. */
module HostTalk {
  import opened Wrappers
  import opened Sequences
  import opened Acls
  import opened MailboxItems
  import opened MailboxTable
  import opened RoomState
  import opened RoomInvariants
  import opened RoomSteps
  import opened RoomSweeps
  import opened RoomRuns
  import opened RoomGuarantees
  import opened RoomExits

  datatype Kind = Openings | Forwards | Closings | Shipments | Tellings

  function KindOf(msg: HostMsg): Kind {
    match msg
    case Opened(_, _, _) => Openings
    case Forwarded(_, _) => Forwards
    case Closed(_) => Closings
    case ItemSent(_) => Shipments
    case HostTold(_) => Tellings
  }

  function OfKind(k: Kind): HostMsg -> bool { (msg: HostMsg) => KindOf(msg) == k }

  /** The messages of one kind on a host's socket, in order. */
  function Told(h: Host, k: Kind): seq<HostMsg> { Filter(h.sent, OfKind(k)) }

  lemma HearsTold(h: Host, msg: HostMsg, k: Kind)
    ensures Told(Hears(h, msg), k) == Told(h, k) + (if h.open && KindOf(msg) == k then [msg] else [])
  {
    FilterAppend(h.sent, msg, OfKind(k));
  }

  lemma SendHostTold(s: Relay, h: nat, msg: HostMsg, g: nat, k: Kind)
    requires h < |s.hosts| && g < |s.hosts|
    ensures |SendHost(s, h, msg).hosts| == |s.hosts|
    ensures
      var a, b := s.hosts[g], SendHost(s, h, msg).hosts[g];
      b == a.(sent := b.sent) && Told(b, k) == Told(a, k) + (if g == h && a.open && KindOf(msg) == k then [msg] else [])
  {
    hide Told;
    HearsTold(s.hosts[g], msg, k);
  }

  lemma DropDeviceTold(s: Relay, d: nat, g: nat, k: Kind)
    requires Shaped(s) && d < |s.devs| && g < |s.hosts| && !k.Closings?
    ensures
      var a, b := s.hosts[g], DropDevice(s, d).hosts[g];
      b == a.(sent := b.sent) && Told(b, k) == Told(a, k)
  {
    hide DropDevice, Told;
    if s.devs[d].left {
      LeftDropped(s, d);
    } else {
      DropDeviceEffect(s, d);
      HearsTold(s.hosts[g], Closed(d), k);
    }
  }

  lemma DropHostTold(s: Relay, h: nat, keepRoom: bool, g: nat)
    requires Registry(s) && h < |s.hosts| && g < |s.hosts|
    ensures DropHost(s, h, keepRoom).hosts[g].sent == s.hosts[g].sent
  {
    if !s.hosts[h].left {
      hide DropHost;
      DropHostEffect(s, h, keepRoom);
    }
  }

  lemma AttachHostTold(s: Relay, c: string, g: nat)
    requires Registry(s) && g < |AttachHost(s, c).hosts|
    ensures g <= |s.hosts| && AttachHost(s, c).hosts[g].sent == if g < |s.hosts| then s.hosts[g].sent else []
  {
    hide DropHost;
    var seated := EnsureRoom(s, c);
    EnsureRoomShaped(s, c);
    EnsureRoomKeepsRegistry(s, c);
    var previous := seated.rooms[seated.index[c]].host;
    if previous.Some? {
      assert RoomShaped(seated, seated.index[c]);
      if g < |s.hosts| {
        DropHostTold(seated, previous.value, true, g);
      }
    }
  }

  /** The ready host of the computer's room, on an open socket. */
  predicate Listens(s: Relay, g: nat, c: string) {
    g < |s.hosts| && s.hosts[g].open && InCharge(s, g) && s.rooms[s.hosts[g].room].id == c
  }

  lemma ListensIsReady(s: Relay, g: nat, c: string)
    requires Registry(s) && g < |s.hosts| && c in s.index
    ensures RoomShaped(s, s.index[c])
    ensures Listens(s, g, c) <==> s.hosts[g].open && s.rooms[s.index[c]].host == Some(g) && HostReady(s, s.index[c])
  {
    var r := s.index[c];
    assert RoomShaped(s, r) && HostOk(s, g) && RoomOk(s, r) && RoomOk(s, s.hosts[g].room);
  }

  lemma EnsureRoomListens(s: Relay, c: string, g: nat)
    requires Registry(s) && g < |s.hosts|
    ensures Listens(EnsureRoom(s, c), g, c) <==> Listens(s, g, c)
  {
    assert HostOk(s, g);
  }

  lemma RegistryShaped(s: Relay)
    requires Registry(s)
    ensures Shaped(s)
  {
  }

  lemma RegistryIds(s: Relay, c: string)
    requires Registry(s) && c in s.index
    ensures s.index[c] < |s.rooms| && s.rooms[s.index[c]].id == c
  {
  }

  lemma AdmitTold(s: Relay, r: nat, dk: string, pair: bool, offer: string, g: nat, k: Kind)
    requires Registry(s) && r < |s.rooms| && s.rooms[r].id in s.index && s.index[s.rooms[r].id] == r && g < |s.hosts|
    ensures |Admit(s, r, dk, pair, offer).hosts| == |s.hosts| && |Admit(s, r, dk, pair, offer).devs| == |s.devs| + 1
    ensures
      var t := Admit(s, r, dk, pair, offer);
      && t.hosts[g] == s.hosts[g].(sent := t.hosts[g].sent)
      && Told(t.hosts[g], k) == Told(s.hosts[g], k) +
           (if k.Openings? && Listens(s, g, s.rooms[r].id) then [Opened(|s.devs|, dk, pair)] else [])
  {
    hide Admit, Told, Listens;
    AdmitEffect(s, r, dk, pair, offer);
    ListensIsReady(s, g, s.rooms[r].id);
    HearsTold(s.hosts[g], Opened(|s.devs|, dk, pair), k);
  }

  /** A connecting device's link is opened on the host in charge, unless 16 devices are there already. */
  lemma AttachDeviceTold(s: Relay, c: string, dk: string, pair: bool, offer: string, g: nat, k: Kind)
    requires Registry(s) && g < |s.hosts|
    ensures |AttachDevice(s, c, dk, pair, offer).hosts| == |s.hosts|
    ensures
      var t := AttachDevice(s, c, dk, pair, offer);
      && t.hosts[g] == s.hosts[g].(sent := t.hosts[g].sent)
      && Told(t.hosts[g], k) == Told(s.hosts[g], k) +
           (if k.Openings? && |t.devs| > |s.devs| && Listens(s, g, c) then [Opened(|s.devs|, dk, pair)] else [])
  {
    hide Admit, Told, Listens, Registry;
    assert Shaped(s) by { RegistryShaped(s); }
    var t := EnsureRoom(s, c);
    EnsureRoomShaped(s, c);
    EnsureRoomKeepsRegistry(s, c);
    EnsureRoomListens(s, c, g);
    RegistryIds(t, c);
    AdmitTold(t, t.index[c], dk, pair, offer, g, k);
  }

  lemma DeliverTold(s: Relay, h: nat, g: nat, k: Kind)
    requires h < |s.hosts| && g < |s.hosts| && s.hosts[h].room < |s.rooms|
    ensures |Deliver(s, h).hosts| == |s.hosts|
    ensures
      var a, b := s.hosts[g], Deliver(s, h).hosts[g];
      var sent := DeliverNext(s.box, s.rooms[s.hosts[h].room].id, s.now).1;
      && b == a.(sent := b.sent)
      && Told(b, k) == Told(a, k) + (if k.Shipments? && g == h && a.open && s.hosts[h].ready && Seated(s, h) && sent.Some?
                                     then [ItemSent(sent.value)] else [])
  {
    hide DeliverNext, Told;
    var sent := DeliverNext(s.box, s.rooms[s.hosts[h].room].id, s.now).1;
    if sent.Some? {
      HearsTold(s.hosts[g], ItemSent(sent.value), k);
    }
  }

  /** The links of the devices, as a host is told of them. */
  function Openers(devs: seq<Device>, links: seq<nat>): seq<HostMsg>
    requires Known(links, |devs|)
  {
    seq(|links|, i requires 0 <= i < |links| => Opened(links[i], devs[links[i]].dk, devs[links[i]].pair))
  }

  lemma {:induction false} OpenAllTold(s: Relay, h: nat, links: seq<nat>, g: nat, k: Kind)
    requires h < |s.hosts| && g < |s.hosts| && Known(links, |s.devs|)
    ensures
      var a, b := s.hosts[g], OpenAll(s, h, links).hosts[g];
      b == a.(sent := b.sent) && Told(b, k) == Told(a, k) + (if k.Openings? && g == h && a.open then Openers(s.devs, links) else [])
    decreases |links|
  {
    hide Told;
    if links != [] {
      var front, d := links[..|links| - 1], links[|links| - 1];
      OpenAllTold(s, h, front, g, k);
      HearsTold(OpenAll(s, h, front).hosts[g], Opened(d, s.devs[d].dk, s.devs[d].pair), k);
      assert Openers(s.devs, links) == Openers(s.devs, front) + [Opened(d, s.devs[d].dk, s.devs[d].pair)];
    }
  }

  // ---- a host's frame ----

  /** Nothing was said to the host but of the kinds given. */
  predicate Same(a: Host, b: Host, k: Kind) {
    b.room == a.room && Told(b, k) == Told(a, k)
  }

  /** The host is not ready yet and may be: it is its room's, and the computer's list is stored. */
  predicate Rises(s: Relay, h: nat)
    requires h < |s.hosts| && s.hosts[h].room < |s.rooms|
  {
    Seated(s, h) && !s.hosts[h].ready && s.rooms[s.hosts[h].room].id in s.acls
  }

  lemma OnReadyTold(s: Relay, h: nat, g: nat, k: Kind)
    requires Shaped(s) && h < |s.hosts| && g < |s.hosts|
    ensures |OnReady(s, h).hosts| == |s.hosts| && RoomShaped(s, s.hosts[h].room)
    ensures
      var a, b := s.hosts[g], OnReady(s, h).hosts[g];
      var r := s.hosts[h].room;
      var sent := DeliverNext(s.box, s.rooms[r].id, s.now).1;
      && b == a.(sent := b.sent, ready := a.ready || (g == h && Rises(s, h)))
      && (k.Openings? ==> Told(b, k) == Told(a, k) + (if g == h && a.open && Rises(s, h) then Openers(s.devs, s.rooms[r].devices) else []))
      && (k.Shipments? ==> Told(b, k) == Told(a, k) + (if g == h && a.open && Rises(s, h) && sent.Some? then [ItemSent(sent.value)] else []))
      && (k.Tellings? ==> Told(b, k) == Told(a, k) + (if g == h && a.open && Seated(s, h) && !a.ready && !Rises(s, h) then [HostTold("badAcl")] else []))
      && (k.Forwards? || k.Closings? ==> Told(b, k) == Told(a, k))
  {
    hide Announce, OpenAll, Deliver, DeliverNext, Told, Readied;
    var r := s.hosts[h].room;
    assert RoomShaped(s, r);
    if Rises(s, h) {
      ReadiedEffect(s, h);
      ReadiedTold(s, h, g, k);
      DeliverTold(Readied(s, h), h, g, k);
      OnReadyRises(s, h);
    } else {
      SendHostTold(s, h, HostTold("badAcl"), g, k);
    }
  }

  lemma OnReadyRises(s: Relay, h: nat)
    requires Shaped(s) && h < |s.hosts| && Rises(s, h)
    ensures OnReady(s, h) == Deliver(Readied(s, h), h)
  {
    hide Announce, OpenAll, Deliver;
  }

  lemma ReadiedTold(s: Relay, h: nat, g: nat, k: Kind)
    requires Shaped(s) && h < |s.hosts| && g < |s.hosts|
    ensures |Readied(s, h).hosts| == |s.hosts| && RoomShaped(s, s.hosts[h].room)
    ensures
      var a, b := s.hosts[g], Readied(s, h).hosts[g];
      Told(b, k) == Told(a, k) + (if k.Openings? && g == h && a.open then Openers(s.devs, s.rooms[s.hosts[h].room].devices) else [])
  {
    hide Announce, OpenAll;
    var r := s.hosts[h].room;
    assert RoomShaped(s, r);
    AnnounceEffect(s, h);
    var up := Announce(s, h);
    OpenAllTold(up, h, s.rooms[r].devices, g, k);
    assert Openers(up.devs, s.rooms[r].devices) == Openers(s.devs, s.rooms[r].devices);
  }

  lemma OnAckTold(s: Relay, h: nat, number: Option<int>, outcome: Outcome, g: nat, k: Kind)
    requires Shaped(s) && h < |s.hosts| && g < |s.hosts|
    ensures |OnAck(s, h, number, outcome).hosts| == |s.hosts|
    ensures
      var a, b := s.hosts[g], OnAck(s, h, number, outcome).hosts[g];
      var c := s.rooms[s.hosts[h].room].id;
      var sent := DeliverNext(Ack(s.box, c, number, outcome).0, c, s.now).1;
      && b == a.(sent := b.sent)
      && Told(b, k) == Told(a, k) + (if k.Shipments? && g == h && a.open && a.ready && Seated(s, h) && sent.Some?
                                     then [ItemSent(sent.value)] else [])
  {
    hide Ack, Deliver, DeliverNext, Told, NoteTo;
    var r := s.hosts[h].room;
    if s.rooms[r].host == Some(h) {
      var (box, note) := Ack(s.box, s.rooms[r].id, number, outcome);
      var acked := s.(box := box);
      NoteToKeeps(acked, r, note);
      DeliverTold(if note.Some? then NoteTo(acked, r, note.value) else acked, h, g, k);
    }
  }

  lemma OnCloseDeviceTold(s: Relay, h: nat, link: nat, g: nat, k: Kind)
    requires Shaped(s) && h < |s.hosts| && g < |s.hosts| && !k.Closings?
    ensures |OnCloseDevice(s, h, link).hosts| == |s.hosts|
    ensures
      var a, b := s.hosts[g], OnCloseDevice(s, h, link).hosts[g];
      b == a.(sent := b.sent) && Told(b, k) == Told(a, k)
  {
    hide DropDevice, Told;
    assert RoomShaped(s, s.hosts[h].room);
    if OnCloseDevice(s, h, link) != s {
      DropDeviceTold(s, link, g, k);
    }
  }

  /** Kinds of message a host's frame may bring a host: only the one that sent it. */
  predicate Earns(says: HostSays, k: Kind) {
    match says
    case ReadySaid => k.Openings? || k.Shipments? || k.Tellings?
    case AckSaid(_, _, _) => k.Shipments?
    case CloseSaid(_) => k.Closings?
    case OtherSaid(_) => k.Tellings?
    case _ => false
  }

  lemma HostFrameTold(s: Relay, h: nat, says: HostSays, g: nat, k: Kind)
    requires Shaped(s) && h < |s.hosts| && g < |s.hosts| && !k.Closings? && (g != h || !Earns(says, k))
    ensures |FromHostSocket(s, h, says).hosts| == |s.hosts| && Same(s.hosts[g], FromHostSocket(s, h, says).hosts[g], k)
  {
    hide OnReady, OnData, OnCloseDevice, OnAck, Told, AckOutcome, DeliverNext, Ack;
    var t := HearHost(s, h);
    ShapedByRooms(s, t);
    HeardTold(s, h, g, k);
    if Seated(t, h) {
      match says
      case ReadySaid => OnReadyTold(t, h, g, k);
      case DataSaid(link, m) => OnDataTold(t, h, link, m);
      case CloseSaid(link) => OnCloseDeviceTold(t, h, link, g, k);
      case AckSaid(number, ok, code) => OnAckTold(t, h, number, AckOutcome(ok, code), g, k);
      case OtherSaid(answer) =>
        if answer.Some? {
          SendHostTold(t, h, HostTold(answer.value), g, k);
        }
    }
  }

  lemma HeardTold(s: Relay, h: nat, g: nat, k: Kind)
    requires h < |s.hosts| && g < |s.hosts|
    ensures Same(s.hosts[g], HearHost(s, h).hosts[g], k)
  {
  }

  lemma OnDataTold(s: Relay, h: nat, link: nat, m: string)
    requires Shaped(s) && h < |s.hosts|
    ensures OnData(s, h, link, m).hosts == s.hosts
  {
  }

  lemma {:induction false} DropShutTold(s: Relay, acl: Acl, ds: seq<nat>, g: nat, k: Kind)
    requires Shaped(s) && Known(ds, |s.devs|) && g < |s.hosts| && !k.Closings?
    ensures
      var a, b := s.hosts[g], DropShut(s, acl, ds).hosts[g];
      b == a.(sent := b.sent) && Told(b, k) == Told(a, k)
    decreases |ds|
  {
    hide DropDevice, Shaped, Shut, Told;
    if ds != [] {
      DropShutTold(s, acl, ds[..|ds| - 1], g, k);
      DropDeviceTold(DropShut(s, acl, ds[..|ds| - 1]), ds[|ds| - 1], g, k);
    }
  }

  /** What a host is told about a list it sent. */
  function Verdict(s: Relay, h: nat, verdict: Option<Acl>): string
    requires Shaped(s) && h < |s.hosts|
  {
    if verdict.None? || verdict.value.computer != s.rooms[s.hosts[h].room].id then "badAcl"
    else if Newer(s, h, verdict) then "acl.ok"
    else "staleVersion"
  }

  lemma OnAclCheckedTold(s: Relay, h: nat, verdict: Option<Acl>, g: nat, k: Kind)
    requires Shaped(s) && h < |s.hosts| && g < |s.hosts| && !k.Closings?
    ensures |OnAclChecked(s, h, verdict).hosts| == |s.hosts|
    ensures
      var a, b := s.hosts[g], OnAclChecked(s, h, verdict).hosts[g];
      && b == a.(sent := b.sent)
      && Told(b, k) == Told(a, k) + (if k.Tellings? && g == h && a.open then [HostTold(Verdict(s, h, verdict))] else [])
  {
    hide DropShut, Told;
    var r := s.hosts[h].room;
    if Newer(s, h, verdict) {
      var saved := s.(acls := s.acls[s.rooms[r].id := verdict.value]);
      ShapedByRooms(s, saved);
      assert RoomShaped(saved, r);
      DropShutTold(saved, verdict.value, s.rooms[r].devices, g, k);
      SendHostTold(DropShut(saved, verdict.value, s.rooms[r].devices), h, HostTold("acl.ok"), g, k);
    } else {
      SendHostTold(s, h, HostTold(Verdict(s, h, verdict)), g, k);
    }
  }

  // ---- a device's frame ----

  /** The host in charge of the device's room, on an open socket. */
  predicate Hosts(s: Relay, g: nat, d: nat) {
    && g < |s.hosts| && d < |s.devs| && s.hosts[g].open && s.hosts[g].ready && s.devs[d].room < |s.rooms|
    && s.rooms[s.devs[d].room].host == Some(g)
  }

  lemma OnMessageTold(s: Relay, d: nat, says: DeviceSays, g: nat, k: Kind)
    requires Shaped(s) && d < |s.devs| && g < |s.hosts| && !k.Closings?
    ensures |OnMessage(s, d, says).hosts| == |s.hosts|
    ensures
      var a, b := s.hosts[g], OnMessage(s, d, says).hosts[g];
      && b == a.(sent := b.sent)
      && Told(b, k) == Told(a, k) + (if k.Forwards? && says.ChannelSaid? && Hosts(s, g, d) then [Forwarded(d, says.m)] else [])
  {
    hide DropDevice, Put, Cancel, Listing, Told;
    assert RoomShaped(s, s.devs[d].room);
    DropDeviceTold(s, d, g, k);
    if says.ChannelSaid? {
      HearsTold(s.hosts[g], Forwarded(d, says.m), k);
    }
  }

  lemma DeviceFrameTold(s: Relay, d: nat, says: DeviceSays, size: nat, g: nat, k: Kind)
    requires Shaped(s) && d < |s.devs| && g < |s.hosts| && !k.Closings?
    ensures |FromDeviceSocket(s, d, says, size).hosts| == |s.hosts|
    ensures
      var a, b := s.hosts[g], FromDeviceSocket(s, d, says, size).hosts[g];
      && b == a.(sent := b.sent)
      && Told(b, k) == Told(a, k) +
           (if k.Forwards? && says.ChannelSaid? && !s.devs[d].left && !Rejected(s, d, says, size) && Hosts(s, g, d)
            then [Forwarded(d, says.m)] else [])
  {
    hide DropDevice, OnMessage, Told;
    var t := HearDevice(s, d);
    ShapedByRooms(s, t);
    DropDeviceTold(t, d, g, k);
    var counted := Counted(t, d, size);
    ShapedByRooms(t, counted);
    DropDeviceTold(counted, d, g, k);
    OnMessageTold(counted, d, says, g, k);
  }

  // ---- the sweep ----

  lemma {:induction false} SweepDevicesTold(s: Relay, ds: seq<nat>, g: nat, k: Kind)
    requires Shaped(s) && Known(ds, |s.devs|) && g < |s.hosts| && !k.Closings?
    ensures
      var a, b := s.hosts[g], SweepDevices(s, ds).hosts[g];
      b == a.(sent := b.sent) && Told(b, k) == Told(a, k)
    decreases |ds|
  {
    hide DropDevice, Shaped, TimedOut, Told;
    if ds != [] {
      SweepDevicesTold(s, ds[..|ds| - 1], g, k);
      DropDeviceTold(SweepDevices(s, ds[..|ds| - 1]), ds[|ds| - 1], g, k);
    }
  }

  lemma SweepRoomTold(s: Relay, r: nat, g: nat, k: Kind)
    requires Registry(s) && r < |s.rooms| && g < |s.hosts| && !k.Closings?
    ensures Told(SweepRoom(s, r).hosts[g], k) == Told(s.hosts[g], k)
  {
    hide DropHost, SweepDevices, NoteAll, Expire;
    assert RoomShaped(s, r);
    var quiet := SweepHost(s, r);
    if s.rooms[r].host.Some? {
      DropHostTold(s, s.rooms[r].host.value, false, g);
    }
    assert RoomShaped(quiet, r);
    SweepDevicesTold(quiet, quiet.rooms[r].devices, g, k);
  }

  lemma {:induction false} SweepRoomsTold(s: Relay, n: nat, g: nat, k: Kind)
    requires Inv(s) && n <= |s.rooms| && g < |s.hosts| && !k.Closings?
    ensures Shaped(s) && Told(SweepRooms(s, n).hosts[g], k) == Told(s.hosts[g], k)
  {
    hide SweepRoom, Inv, Registry, Shaped, Told;
    InvIsRegistry(s);
    if n > 0 {
      SweepRoomsKeeps(s, n - 1);
      var t := SweepRooms(s, n - 1);
      InvIsRegistry(t);
      SweepRoomsTold(s, n - 1, g, k);
      SweepRoomTold(t, n - 1, g, k);
    }
  }

  // ---- every event ----

  /** Whether the event may bring the host a message of the kind. */
  predicate May(e: Event, g: nat, k: Kind) {
    match e
    case HostSpeaks(h, says) => h == g && Earns(says, k)
    case AclVerified(h, _) => h == g && k.Tellings?
    case DeviceConnects(_, _, _, _) => k.Openings?
    case DeviceSpeaks(_, _, _) => k.Forwards?
    case _ => false
  }

  lemma NextTold(s: Relay, e: Event, g: nat, k: Kind)
    requires Inv(s) && Shaped(s) && Possible(s, e) && g < |s.hosts| && g < |Next(s, e).hosts| && !k.Closings? && !May(e, g, k)
    ensures Told(Next(s, e).hosts[g], k) == Told(s.hosts[g], k)
  {
    hide Inv, Registry, AttachHost, AttachDevice, FromHostSocket, OnAclChecked, DropHost, FromDeviceSocket, DropDevice, SweepRooms,
      Earns;
    InvIsRegistry(s);
    match e
    case HostConnects(c) => AttachHostTold(s, c, g);
    case DeviceConnects(c, dk, pair, offer) => AttachDeviceTold(s, c, dk, pair, offer, g, k);
    case HostSpeaks(h, says) => HostFrameTold(s, h, says, g, k);
    case AclVerified(h, verdict) => OnAclCheckedTold(s, h, verdict, g, k);
    case HostEnds(h) => DropHostTold(s, h, false, g);
    case DeviceSpeaks(d, says, size) => DeviceFrameTold(s, d, says, size, g, k);
    case DeviceEnds(d) => DropDeviceTold(s, d, g, k);
    case Sweeps => SweepRoomsTold(s, |s.rooms|, g, k);
    case _ => 
  }
}
