/** Who hears what: the messages each device and each host gets from one event of the private relay. */
module RoomTalk {
  import opened Wrappers
  import opened Sequences
  import opened Acls
  import opened MailboxItems
  import opened MailboxTable
  import opened RoomState
  import opened RoomInvariants
  import opened RoomSteps
  import opened RoomSweeps
  import opened RoomRuns
  import opened RoomGuarantees

  // ---- what a device hears, kind by kind ----

  datatype Kind = Statuses | Chatter | Notes | Replies | Pongs

  function KindOf(msg: DeviceMsg): Kind {
    match msg
    case Presence(_, _) => Statuses
    case FromHost(_) => Chatter
    case MailNote(_) => Notes
    case MailReply(_) => Replies
    case DevicePong => Pongs
  }

  function OfKind(k: Kind): DeviceMsg -> bool { (msg: DeviceMsg) => KindOf(msg) == k }

  /** The messages of one kind on a device's socket, in order. */
  function Heard(d: Device, k: Kind): seq<DeviceMsg> { Filter(d.sent, OfKind(k)) }

  /** The same device, which has heard nothing more of the kind. */
  predicate Unmoved(a: Device, b: Device, k: Kind) {
    b.room == a.room && b.dk == a.dk && b.pair == a.pair && Heard(b, k) == Heard(a, k)
  }

  lemma GetsHeard(d: Device, msg: DeviceMsg, k: Kind)
    ensures Heard(Gets(d, msg), k) == Heard(d, k) + (if d.open && KindOf(msg) == k then [msg] else [])
  {
    FilterAppend(d.sent, msg, OfKind(k));
  }

  lemma GetsUnmoved(d: Device, msg: DeviceMsg, k: Kind)
    requires KindOf(msg) != k
    ensures Unmoved(d, Gets(d, msg), k)
  {
    GetsHeard(d, msg, k);
  }

  lemma DropDeviceHeard(s: Relay, e: nat, d: nat, k: Kind)
    requires Shaped(s) && e < |s.devs| && d < |s.devs|
    ensures Unmoved(s.devs[d], DropDevice(s, e).devs[d], k)
  {
    hide DropDevice;
    if s.devs[e].left {
      LeftDropped(s, e);
    } else {
      DropDeviceEffect(s, e);
    }
  }

  lemma DropHostHeard(s: Relay, h: nat, keepRoom: bool, d: nat, k: Kind)
    requires Registry(s) && h < |s.hosts| && d < |s.devs| && !k.Statuses?
    ensures Unmoved(s.devs[d], DropHost(s, h, keepRoom).devs[d], k)
  {
    if !s.hosts[h].left {
      hide DropHost, Heard;
      DropHostEffect(s, h, keepRoom);
      GetsUnmoved(s.devs[d], Presence(false, Some(s.now)), k);
    }
  }

  lemma AttachHostHeard(s: Relay, c: string, d: nat, k: Kind)
    requires Registry(s) && d < |s.devs| && !k.Statuses?
    ensures |AttachHost(s, c).devs| == |s.devs| && Unmoved(s.devs[d], AttachHost(s, c).devs[d], k)
  {
    hide DropHost, Heard;
    var seated := EnsureRoom(s, c);
    EnsureRoomShaped(s, c);
    EnsureRoomKeepsRegistry(s, c);
    var previous := seated.rooms[seated.index[c]].host;
    if previous.Some? {
      assert RoomShaped(seated, seated.index[c]);
      DropHostHeard(seated, previous.value, true, d, k);
    }
  }

  lemma AttachDeviceHeard(s: Relay, c: string, dk: string, pair: bool, offer: string, d: nat, k: Kind)
    requires Shaped(s) && d < |AttachDevice(s, c, dk, pair, offer).devs|
    ensures
      var t := AttachDevice(s, c, dk, pair, offer);
      |s.devs| <= |t.devs| && if d < |s.devs| then t.devs[d] == s.devs[d] else k.Statuses? || Heard(t.devs[d], k) == []
  {
    hide Admit, Heard;
    var t := EnsureRoom(s, c);
    EnsureRoomShaped(s, c);
    var r := t.index[c];
    if |t.rooms[r].devices| < MAX_DEVICE_SOCKETS {
      AdmitEffect(t, r, dk, pair, offer);
      var u := Admit(t, r, dk, pair, offer);
      if d < |s.devs| {
        assert u.devs[..|s.devs|][d] == s.devs[d];
      } else if !k.Statuses? {
        OnlyPresence(u.devs[d], PresenceOf(t, r), k);
      }
    }
  }

  lemma OnlyPresence(d: Device, msg: DeviceMsg, k: Kind)
    requires d.sent == [msg] && KindOf(msg) != k
    ensures Heard(d, k) == []
  {
    assert [msg] == [] + [msg];
    FilterAppend([], msg, OfKind(k));
  }

  lemma DeliverDevices(s: Relay, h: nat)
    requires h < |s.hosts| && s.hosts[h].room < |s.rooms|
    ensures Deliver(s, h).devs == s.devs && Deliver(s, h).rooms == s.rooms
  {
    hide DeliverNext;
  }

  lemma OnReadyHeard(s: Relay, h: nat, d: nat, k: Kind)
    requires Shaped(s) && h < |s.hosts| && d < |s.devs| && !k.Statuses?
    ensures |OnReady(s, h).devs| == |s.devs| && Unmoved(s.devs[d], OnReady(s, h).devs[d], k)
  {
    hide Announce, OpenAll, Deliver, Heard;
    if Seated(s, h) && !s.hosts[h].ready && s.rooms[s.hosts[h].room].id in s.acls {
      ReadiedEffect(s, h);
      AnnounceEffect(s, h);
      DeliverDevices(Readied(s, h), h);
      GetsUnmoved(s.devs[d], Presence(true, Some(s.now)), k);
    }
  }

  lemma OnDataHeard(s: Relay, h: nat, link: nat, m: string, d: nat, k: Kind)
    requires Shaped(s) && h < |s.hosts| && d < |s.devs|
    ensures |OnData(s, h, link, m).devs| == |s.devs|
    ensures
      var a, b := s.devs[d], OnData(s, h, link, m).devs[d];
      && b.room == a.room && b.dk == a.dk && b.pair == a.pair
      && Heard(b, k) == Heard(a, k) +
           (if k.Chatter? && d == link && a.open && s.hosts[h].ready && Seated(s, h) && d in s.rooms[s.hosts[h].room].devices
            then [FromHost(m)] else [])
  {
    hide Heard;
    assert RoomShaped(s, s.hosts[h].room);
    GetsHeard(s.devs[d], FromHost(m), k);
  }

  /** Whether a note about this computer's device key is for this socket. */
  predicate NotedBy(s: Relay, r: nat, d: nat, note: Note)
    requires r < |s.rooms| && d < |s.devs|
  {
    d in s.rooms[r].devices && s.devs[d].open && !s.devs[d].pair && s.devs[d].dk == note.dk
  }

  lemma NoteToHeard(s: Relay, r: nat, note: Note, d: nat, k: Kind)
    requires r < |s.rooms| && d < |s.devs|
    ensures
      var a, b := s.devs[d], NoteTo(s, r, note).devs[d];
      && b == a.(sent := b.sent)
      && Heard(b, k) == Heard(a, k) + (if k.Notes? && NotedBy(s, r, d, note) then [MailNote(note)] else [])
  {
    hide Heard, Filter;
    GetsHeard(s.devs[d], MailNote(note), k);
  }

  /** An acknowledgement's note, when it removes an item. */
  lemma OnAckHeard(s: Relay, h: nat, number: Option<int>, outcome: Outcome, d: nat, k: Kind)
    requires Shaped(s) && h < |s.hosts| && d < |s.devs|
    ensures |OnAck(s, h, number, outcome).devs| == |s.devs|
    ensures
      var a, b := s.devs[d], OnAck(s, h, number, outcome).devs[d];
      var r := s.hosts[h].room;
      var note := Ack(s.box, s.rooms[r].id, number, outcome).1;
      && b == a.(sent := b.sent)
      && Heard(b, k) == Heard(a, k) +
           (if k.Notes? && s.rooms[r].host == Some(h) && note.Some? && NotedBy(s, r, d, note.value) then [MailNote(note.value)] else [])
  {
    hide Heard, Deliver, Ack, NoteTo;
    var r := s.hosts[h].room;
    if s.rooms[r].host == Some(h) {
      var (box, note) := Ack(s.box, s.rooms[r].id, number, outcome);
      var acked := s.(box := box);
      NoteToKeeps(acked, r, note);
      var noted := if note.Some? then NoteTo(acked, r, note.value) else acked;
      DeliverDevices(noted, h);
      if note.Some? {
        NoteToHeard(acked, r, note.value, d, k);
        NoteToSize(acked, r, note.value);
      }
    }
  }

  lemma NoteToSize(s: Relay, r: nat, note: Note)
    requires r < |s.rooms|
    ensures |NoteTo(s, r, note).devs| == |s.devs|
  {
  }

  lemma OnCloseDeviceHeard(s: Relay, h: nat, link: nat, d: nat, k: Kind)
    requires Shaped(s) && h < |s.hosts| && d < |s.devs|
    ensures |OnCloseDevice(s, h, link).devs| == |s.devs| && Unmoved(s.devs[d], OnCloseDevice(s, h, link).devs[d], k)
  {
    hide DropDevice, Heard;
    assert RoomShaped(s, s.hosts[h].room);
    if OnCloseDevice(s, h, link) != s {
      DropDeviceHeard(s, link, d, k);
    }
  }

  /** The kind of message a host's frame may send the devices. */
  predicate Voices(says: HostSays, k: Kind) {
    match says
    case ReadySaid => k.Statuses?
    case DataSaid(_, _) => k.Chatter?
    case AckSaid(_, _, _) => k.Notes?
    case _ => false
  }

  lemma HostFrameHeard(s: Relay, h: nat, says: HostSays, d: nat, k: Kind)
    requires Shaped(s) && h < |s.hosts| && d < |s.devs| && !Voices(says, k)
    ensures |FromHostSocket(s, h, says).devs| == |s.devs| && Unmoved(s.devs[d], FromHostSocket(s, h, says).devs[d], k)
  {
    hide OnReady, OnData, OnCloseDevice, OnAck, Heard, AckOutcome;
    var t := HearHost(s, h);
    ShapedByRooms(s, t);
    if Seated(t, h) {
      match says
      case ReadySaid => OnReadyHeard(t, h, d, k);
      case DataSaid(link, m) => OnDataHeard(t, h, link, m, d, k);
      case CloseSaid(link) => OnCloseDeviceHeard(t, h, link, d, k);
      case AckSaid(number, ok, code) => OnAckHeard(t, h, number, AckOutcome(ok, code), d, k);
      case OtherSaid(_) =>
    }
  }

  lemma {:induction false} DropShutHeard(s: Relay, acl: Acl, ds: seq<nat>, d: nat, k: Kind)
    requires Shaped(s) && Known(ds, |s.devs|) && d < |s.devs|
    ensures Unmoved(s.devs[d], DropShut(s, acl, ds).devs[d], k)
    decreases |ds|
  {
    hide DropDevice, Shaped, Shut, Heard;
    if ds != [] {
      DropShutHeard(s, acl, ds[..|ds| - 1], d, k);
      DropDeviceHeard(DropShut(s, acl, ds[..|ds| - 1]), ds[|ds| - 1], d, k);
    }
  }

  lemma OnAclCheckedHeard(s: Relay, h: nat, verdict: Option<Acl>, d: nat, k: Kind)
    requires Shaped(s) && h < |s.hosts| && d < |s.devs|
    ensures |OnAclChecked(s, h, verdict).devs| == |s.devs| && Unmoved(s.devs[d], OnAclChecked(s, h, verdict).devs[d], k)
  {
    hide DropShut, Heard;
    var r := s.hosts[h].room;
    var id := s.rooms[r].id;
    var current := if id in s.acls then s.acls[id].ver else 0;
    if verdict.Some? && verdict.value.computer == id && verdict.value.ver > current {
      var saved := s.(acls := s.acls[id := verdict.value]);
      ShapedByRooms(s, saved);
      assert RoomShaped(saved, r);
      DropShutHeard(saved, verdict.value, s.rooms[r].devices, d, k);
    }
  }

  // ---- a device's frame ----

  /** The relay's answers to a device go to that device alone. */
  predicate Answers(k: Kind) { k.Statuses? || k.Replies? || k.Pongs? }

  lemma SendDeviceHeard(s: Relay, e: nat, msg: DeviceMsg, d: nat, k: Kind)
    requires e < |s.devs| && d < |s.devs|
    ensures |SendDevice(s, e, msg).devs| == |s.devs|
    ensures
      var a, b := s.devs[d], SendDevice(s, e, msg).devs[d];
      b == a.(sent := b.sent) && Heard(b, k) == Heard(a, k) + (if d == e && a.open && KindOf(msg) == k then [msg] else [])
  {
    hide Heard;
    GetsHeard(s.devs[d], msg, k);
  }

  /** A mailbox message changes the table and gets one reply. */
  lemma MailAnswered(s: Relay, e: nat, says: DeviceSays) returns (box: Table, reply: Reply)
    requires Shaped(s) && e < |s.devs|
    ensures OnMailbox(s, e, says) == SendDevice(s.(box := box), e, MailReply(reply))
  {
    hide Put, Cancel, Listing, HostReady, SendDevice;
    var r, dk := s.devs[e].room, s.devs[e].dk;
    assert RoomShaped(s, r);
    box := s.box;
    assert s == s.(box := box);
    if s.devs[e].pair {
      reply := Err(EchoedNonce(says), Pairing);
    } else {
      match says
      case PutSaid(msg) =>
        var put := Put(s.box, s.rooms[r].id, dk, msg, HostReady(s, r), s.now);
        box, reply := put.0, put.1;
      case CancelSaid(nonce) =>
        var cancelled := Cancel(s.box, s.rooms[r].id, dk, nonce);
        box, reply := cancelled.0, cancelled.1;
      case _ => reply := Listing(s.box, s.rooms[r].id, dk);
    }
  }

  lemma OnMailboxHeard(s: Relay, e: nat, says: DeviceSays, d: nat, k: Kind)
    requires Shaped(s) && e < |s.devs| && d < |s.devs| && (d != e || !Answers(k))
    ensures |OnMailbox(s, e, says).devs| == |s.devs| && Unmoved(s.devs[d], OnMailbox(s, e, says).devs[d], k)
  {
    hide Heard, SendDevice, OnMailbox;
    var box, reply := MailAnswered(s, e, says);
    SendDeviceHeard(s.(box := box), e, MailReply(reply), d, k);
  }

  lemma OnMessageHeard(s: Relay, e: nat, says: DeviceSays, d: nat, k: Kind)
    requires Shaped(s) && e < |s.devs| && d < |s.devs| && (d != e || !Answers(k))
    ensures |OnMessage(s, e, says).devs| == |s.devs| && Unmoved(s.devs[d], OnMessage(s, e, says).devs[d], k)
  {
    hide DropDevice, OnMailbox, Heard, HostReady, SendDevice;
    assert RoomShaped(s, s.devs[e].room);
    match says
    case PingSaid => SendDeviceHeard(s, e, DevicePong, d, k);
    case ChannelSaid(_) => SendDeviceHeard(s, e, PresenceOf(s, s.devs[e].room), d, k);
    case PutSaid(_) => OnMailboxHeard(s, e, says, d, k);
    case CancelSaid(_) => OnMailboxHeard(s, e, says, d, k);
    case ListSaid(_) => OnMailboxHeard(s, e, says, d, k);
    case _ => DropDeviceHeard(s, e, d, k);
  }

  lemma NotedDownHeard(s: Relay, e: nat, size: nat, d: nat, k: Kind)
    requires e < |s.devs| && d < |s.devs|
    ensures Unmoved(s.devs[d], HearDevice(s, e).devs[d], k) && Unmoved(s.devs[d], Counted(s, e, size).devs[d], k)
  {
  }

  lemma OnDeviceHeard(s: Relay, e: nat, says: DeviceSays, size: nat, d: nat, k: Kind)
    requires Shaped(s) && e < |s.devs| && d < |s.devs| && (d != e || !Answers(k))
    ensures |OnDevice(s, e, says, size).devs| == |s.devs| && Unmoved(s.devs[d], OnDevice(s, e, says, size).devs[d], k)
  {
    hide DropDevice, OnMessage, OverLimit, Heard;
    DropDeviceHeard(s, e, d, k);
    NotedDownHeard(s, e, size, d, k);
    var counted := Counted(s, e, size);
    ShapedByRooms(s, counted);
    DropDeviceHeard(counted, e, d, k);
    OnMessageHeard(counted, e, says, d, k);
  }

  lemma DeviceFrameHeard(s: Relay, e: nat, says: DeviceSays, size: nat, d: nat, k: Kind)
    requires Shaped(s) && e < |s.devs| && d < |s.devs| && (d != e || !Answers(k))
    ensures |FromDeviceSocket(s, e, says, size).devs| == |s.devs|
    ensures Unmoved(s.devs[d], FromDeviceSocket(s, e, says, size).devs[d], k)
  {
    hide DropDevice, OnDevice, Heard;
    var t := HearDevice(s, e);
    ShapedByRooms(s, t);
    NotedDownHeard(s, e, size, d, k);
    DropDeviceHeard(t, e, d, k);
    OnDeviceHeard(t, e, says, size, d, k);
  }

  // ---- the sweep ----

  lemma {:induction false} SweepDevicesHeard(s: Relay, ds: seq<nat>, d: nat, k: Kind)
    requires Shaped(s) && Known(ds, |s.devs|) && d < |s.devs|
    ensures Unmoved(s.devs[d], SweepDevices(s, ds).devs[d], k)
    decreases |ds|
  {
    hide DropDevice, Shaped, TimedOut, Heard;
    if ds != [] {
      SweepDevicesHeard(s, ds[..|ds| - 1], d, k);
      DropDeviceHeard(SweepDevices(s, ds[..|ds| - 1]), ds[|ds| - 1], d, k);
    }
  }

  lemma {:induction false} NoteAllHeard(s: Relay, r: nat, notes: seq<Note>, d: nat, k: Kind)
    requires r < |s.rooms| && d < |s.devs| && !k.Notes?
    ensures Unmoved(s.devs[d], NoteAll(s, r, notes).devs[d], k)
    decreases |notes|
  {
    hide NoteTo, Heard;
    if notes != [] {
      NoteAllHeard(s, r, notes[..|notes| - 1], d, k);
      NoteToHeard(NoteAll(s, r, notes[..|notes| - 1]), r, notes[|notes| - 1], d, k);
    }
  }

  lemma SweepRoomHeard(s: Relay, r: nat, d: nat, k: Kind)
    requires Registry(s) && r < |s.rooms| && d < |s.devs| && !k.Statuses? && !k.Notes?
    ensures Unmoved(s.devs[d], SweepRoom(s, r).devs[d], k)
  {
    hide DropHost, SweepDevices, NoteAll, Expire, Heard;
    assert RoomShaped(s, r);
    var quiet := SweepHost(s, r);
    if s.rooms[r].host.Some? {
      DropHostHeard(s, s.rooms[r].host.value, false, d, k);
    }
    assert RoomShaped(quiet, r);
    var swept := SweepDevices(quiet, quiet.rooms[r].devices);
    SweepDevicesHeard(quiet, quiet.rooms[r].devices, d, k);
    var (box, notes) := Expire(swept.box, swept.rooms[r].id, swept.now);
    NoteAllHeard(swept.(box := box), r, notes, d, k);
  }

  lemma {:induction false} SweepRoomsHeard(s: Relay, n: nat, d: nat, k: Kind)
    requires Inv(s) && n <= |s.rooms| && d < |s.devs| && !k.Statuses? && !k.Notes?
    ensures Shaped(s) && Unmoved(s.devs[d], SweepRooms(s, n).devs[d], k)
  {
    hide SweepRoom, Inv, Registry, Shaped, Heard;
    InvIsRegistry(s);
    if n > 0 {
      SweepRoomsKeeps(s, n - 1);
      var t := SweepRooms(s, n - 1);
      InvIsRegistry(t);
      SweepRoomsHeard(s, n - 1, d, k);
      SweepRoomHeard(t, n - 1, d, k);
    }
  }

  // ---- every event ----

  /** Whether the event may send the device a message of the kind. */
  predicate May(e: Event, d: nat, k: Kind) {
    match e
    case HostSpeaks(_, says) => Voices(says, k)
    case DeviceSpeaks(sender, _, _) => sender == d && Answers(k)
    case HostConnects(_) => k.Statuses?
    case HostEnds(_) => k.Statuses?
    case Sweeps => k.Statuses? || k.Notes?
    case _ => false
  }

  lemma NextHeard(s: Relay, e: Event, d: nat, k: Kind)
    requires Inv(s) && Shaped(s) && Possible(s, e) && d < |s.devs| && d < |Next(s, e).devs| && !May(e, d, k)
    ensures Unmoved(s.devs[d], Next(s, e).devs[d], k)
  {
    hide Inv, Registry, AttachHost, AttachDevice, FromHostSocket, OnAclChecked, DropHost, FromDeviceSocket, DropDevice, SweepRooms,
      Heard, Voices;
    InvIsRegistry(s);
    match e
    case HostConnects(c) => AttachHostHeard(s, c, d, k);
    case DeviceConnects(c, dk, pair, offer) =>
      AttachDeviceHeard(s, c, dk, pair, offer, d, k);
    case HostSpeaks(h, says) => HostFrameHeard(s, h, says, d, k);
    case AclVerified(h, verdict) => OnAclCheckedHeard(s, h, verdict, d, k);
    case HostEnds(h) => DropHostHeard(s, h, false, d, k);
    case DeviceSpeaks(f, says, size) => DeviceFrameHeard(s, f, says, size, d, k);
    case DeviceEnds(f) => DropDeviceHeard(s, f, d, k);
    case Sweeps => SweepRoomsHeard(s, |s.rooms|, d, k);
    case _ => StallHeard(s, e, d, k);
  }

  lemma StallHeard(s: Relay, e: Event, d: nat, k: Kind)
    requires Shaped(s) && Possible(s, e) && (e.HostStalls? || e.DeviceStalls? || e.Tick?) && d < |s.devs|
    ensures Unmoved(s.devs[d], Next(s, e).devs[d], k)
  {
  }

  // ---- no event but a device's connecting adds a device ----

  lemma OnReadySize(s: Relay, h: nat)
    requires Shaped(s) && h < |s.hosts|
    ensures SameSizes(s, OnReady(s, h))
  {
    hide Announce, OpenAll, DeliverNext;
    if Seated(s, h) && !s.hosts[h].ready && s.rooms[s.hosts[h].room].id in s.acls {
      ReadiedEffect(s, h);
    }
  }

  lemma OnAckSize(s: Relay, h: nat, number: Option<int>, outcome: Outcome)
    requires Shaped(s) && h < |s.hosts|
    ensures SameSizes(s, OnAck(s, h, number, outcome))
  {
    hide Ack, DeliverNext, Filter;
  }

  lemma HostFrameSize(s: Relay, h: nat, says: HostSays)
    requires Shaped(s) && h < |s.hosts|
    ensures SameSizes(s, FromHostSocket(s, h, says))
  {
    hide OnReady, OnAck, AckOutcome, DropDevice;
    var t := HearHost(s, h);
    ShapedByRooms(s, t);
    assert RoomShaped(t, t.hosts[h].room);
    OnReadySize(t, h);
    if says.AckSaid? {
      OnAckSize(t, h, says.number, AckOutcome(says.ok, says.code));
    }
  }

  lemma DeviceFrameSize(s: Relay, e: nat, says: DeviceSays, size: nat)
    requires Shaped(s) && e < |s.devs|
    ensures SameSizes(s, FromDeviceSocket(s, e, says, size))
  {
    hide DropDevice, OverLimit, Put, Cancel, Listing;
    var t := HearDevice(s, e);
    ShapedByRooms(s, t);
    var counted := Counted(t, e, size);
    ShapedByRooms(t, counted);
    assert RoomShaped(counted, s.devs[e].room);
  }

  lemma AttachHostSize(s: Relay, c: string)
    requires Shaped(s)
    ensures |AttachHost(s, c).devs| == |s.devs| && |AttachHost(s, c).hosts| == |s.hosts| + 1
  {
    hide DropHost;
    EnsureRoomShaped(s, c);
  }

  lemma AttachDeviceSize(s: Relay, c: string, dk: string, pair: bool, offer: string)
    requires Shaped(s)
    ensures |s.devs| <= |AttachDevice(s, c, dk, pair, offer).devs| && |AttachDevice(s, c, dk, pair, offer).hosts| == |s.hosts|
  {
    hide Admit;
    var t := EnsureRoom(s, c);
    EnsureRoomShaped(s, c);
    AdmitEffect(t, t.index[c], dk, pair, offer);
  }

  lemma NextSizes(s: Relay, e: Event)
    requires Shaped(s) && Possible(s, e) && !e.Restarts?
    ensures
      var t := Next(s, e);
      && |s.devs| <= |t.devs| && |s.hosts| <= |t.hosts|
      && (!e.DeviceConnects? ==> |t.devs| == |s.devs|) && (!e.HostConnects? ==> |t.hosts| == |s.hosts|)
  {
    hide AttachHost, AttachDevice, FromHostSocket, OnAclChecked, DropHost, FromDeviceSocket, DropDevice, SweepRooms;
    match e
    case HostConnects(c) => AttachHostSize(s, c);
    case DeviceConnects(c, dk, pair, offer) => AttachDeviceSize(s, c, dk, pair, offer);
    case HostSpeaks(h, says) => HostFrameSize(s, h, says);
    case DeviceSpeaks(d, says, size) => DeviceFrameSize(s, d, says, size);
    case AclVerified(h, verdict) => OnAclSize(s, h, verdict);
    case _ =>
  }

  lemma OnAclSize(s: Relay, h: nat, verdict: Option<Acl>)
    requires Shaped(s) && h < |s.hosts|
    ensures SameSizes(s, OnAclChecked(s, h, verdict))
  {
    hide DropShut;
    var id := s.rooms[s.hosts[h].room].id;
    if verdict.Some? && verdict.value.computer == id && verdict.value.ver > (if id in s.acls then s.acls[id].ver else 0) {
      var saved := s.(acls := s.acls[id := verdict.value]);
      ShapedByRooms(s, saved);
      assert RoomShaped(saved, s.hosts[h].room);
    }
  }
}
