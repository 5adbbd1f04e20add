/**
 * The private relay's rooms (`private-relay/src/room.ts`) as states and steps. Rooms, hosts and devices are referred
 * to by number, in the order they were made, and the handlers of a socket hold the numbers of their room and
 * connection as the source's closures hold the objects. A device's number is also its link id, which makes link ids
 * fresh.
 */
module RoomState {
  import opened Wrappers
  import opened Sequences
  import opened Acls
  import opened MailboxItems
  import opened MailboxTable
  import opened RateLimit

  const MAX_DEVICE_SOCKETS := 16
  const PAIRING_TTL_MS := 120_000
  const PAIRING_MAX_MESSAGES := 16
  const SILENT_TIMEOUT_MS := 90_000

  /** What a host's socket is sent. `HostTold` is every message that is neither a link's nor a mailbox item. */
  datatype HostMsg =
    | Opened(link: nat, dk: string, pair: bool)
    | Forwarded(link: nat, m: string)
    | Closed(link: nat)
    | ItemSent(row: Row)
    | HostTold(text: string)

  /** What a device's socket is sent. `FromHost` is a channel message the host wrote. */
  datatype DeviceMsg =
    | Presence(online: bool, lastSeenAt: Option<int>)
    | FromHost(m: string)
    | MailNote(note: Note)
    | MailReply(reply: Reply)
    | DevicePong

  datatype Room = Room(id: string, host: Option<nat>, devices: seq<nat>, lastSeenAt: Option<int>)

  /** `open` is the socket's readyState; `sent` the trace of what was sent. */
  datatype Host = Host(room: nat, open: bool, ready: bool, left: bool, heard: int, sent: seq<HostMsg>)

  datatype Device = Device(room: nat, dk: string, pair: bool, offer: string, until: int, open: bool, left: bool,
                           heard: int, msgs: nat, rate: Rate, sent: seq<DeviceMsg>)

  /** `index` is the map of rooms by computer; the other sequences hold every room and connection ever made. */
  datatype Relay = Relay(now: int, index: map<string, nat>, rooms: seq<Room>, hosts: seq<Host>, devs: seq<Device>,
                         box: Table, acls: map<string, Acl>)

  /** Every number refers to something. */
  predicate Shaped(s: Relay) {
    && (forall id :: id in s.index ==> s.index[id] < |s.rooms|)
    && (forall r: nat :: r < |s.rooms| ==> RoomShaped(s, r))
    && (forall h: nat :: h < |s.hosts| ==> s.hosts[h].room < |s.rooms|)
    && (forall d: nat :: d < |s.devs| ==> s.devs[d].room < |s.rooms|)
  }

  predicate RoomShaped(s: Relay, r: nat)
    requires r < |s.rooms|
  {
    && (s.rooms[r].host.Some? ==> s.rooms[r].host.value < |s.hosts|)
    && Known(s.rooms[r].devices, |s.devs|)
  }

  predicate Known(ds: seq<nat>, n: nat) {
    forall i :: 0 <= i < |ds| ==> ds[i] < n
  }

  predicate SameSizes(s: Relay, t: Relay) {
    |t.rooms| == |s.rooms| && |t.hosts| == |s.hosts| && |t.devs| == |s.devs|
  }

  // ---- sending ----

  function Hears(h: Host, msg: HostMsg): Host {
    if h.open then h.(sent := h.sent + [msg]) else h
  }

  function Gets(d: Device, msg: DeviceMsg): Device {
    if d.open then d.(sent := d.sent + [msg]) else d
  }

  function SendHost(s: Relay, h: nat, msg: HostMsg): Relay
    requires h < |s.hosts|
  {
    s.(hosts := s.hosts[h := Hears(s.hosts[h], msg)])
  }

  function SendDevice(s: Relay, d: nat, msg: DeviceMsg): Relay
    requires d < |s.devs|
  {
    s.(devs := s.devs[d := Gets(s.devs[d], msg)])
  }

  /** One message to each of the devices. */
  function Broadcast(s: Relay, to: seq<nat>, msg: DeviceMsg): Relay {
    s.(devs := seq(|s.devs|, d requires 0 <= d < |s.devs| => if d in to then Gets(s.devs[d], msg) else s.devs[d]))
  }

  function HostReady(s: Relay, r: nat): bool
    requires r < |s.rooms| && RoomShaped(s, r)
  {
    s.rooms[r].host.Some? && s.hosts[s.rooms[r].host.value].ready
  }

  function PresenceOf(s: Relay, r: nat): DeviceMsg
    requires r < |s.rooms| && RoomShaped(s, r)
  {
    Presence(HostReady(s, r), s.rooms[r].lastSeenAt)
  }

  function ToReadyHost(s: Relay, r: nat, msg: HostMsg): Relay
    requires r < |s.rooms| && RoomShaped(s, r)
  {
    if HostReady(s, r) then SendHost(s, s.rooms[r].host.value, msg) else s
  }

  // ---- rooms ----

  function Occupied(room: Room): bool {
    room.host.Some? || room.devices != []
  }

  function Release(s: Relay, r: nat): Relay
    requires r < |s.rooms|
  {
    if Occupied(s.rooms[r]) then s else s.(index := s.index - {s.rooms[r].id})
  }

  /** The room of a computer, made if there is none. */
  function EnsureRoom(s: Relay, c: string): Relay {
    if c in s.index then s
    else s.(rooms := s.rooms + [Room(c, None, [], None)], index := s.index[c := |s.rooms|])
  }

  function OtherThan(d: nat): nat -> bool { (e: nat) => e != d }

  // ---- dropping a device ----

  /** `left`, and out of its room's list. */
  function Detach(s: Relay, d: nat): Relay
    requires d < |s.devs| && s.devs[d].room < |s.rooms|
  {
    var r := s.devs[d].room;
    s.(devs := s.devs[d := s.devs[d].(left := true)],
       rooms := s.rooms[r := s.rooms[r].(devices := Filter(s.rooms[r].devices, OtherThan(d)))])
  }

  function CloseDevice(s: Relay, d: nat): Relay
    requires d < |s.devs|
  {
    s.(devs := s.devs[d := s.devs[d].(open := false)])
  }

  function DropDevice(s: Relay, d: nat): (t: Relay)
    requires Shaped(s) && d < |s.devs|
    ensures SameSizes(s, t)
  {
    if s.devs[d].left then s
    else
      var r := s.devs[d].room;
      var detached := Detach(s, d);
      assert RoomShaped(detached, r) by { assert RoomShaped(s, r); KnownSubset(detached.rooms[r].devices, s.rooms[r].devices, |s.devs|); }
      Release(CloseDevice(ToReadyHost(detached, r, Closed(d)), d), r)
  }

  // ---- dropping a host ----

  /** `left`, and no longer ready. */
  function Retire(s: Relay, h: nat): Relay
    requires h < |s.hosts|
  {
    s.(hosts := s.hosts[h := s.hosts[h].(left := true, ready := false)])
  }

  /** The room loses its host; a ready one takes its in-flight item back to the queue, and the devices hear of it. */
  function Vacate(s: Relay, r: nat, wasReady: bool): Relay
    requires r < |s.rooms|
  {
    var room := s.rooms[r].(host := None);
    if wasReady then
      var gone := room.(lastSeenAt := Some(s.now));
      Broadcast(s.(rooms := s.rooms[r := gone], box := Requeue(s.box, room.id)), room.devices, Presence(false, gone.lastSeenAt))
    else s.(rooms := s.rooms[r := room])
  }

  function CloseHost(s: Relay, h: nat): Relay
    requires h < |s.hosts|
  {
    s.(hosts := s.hosts[h := s.hosts[h].(open := false)])
  }

  function DropHost(s: Relay, h: nat, keepRoom: bool): (t: Relay)
    requires h < |s.hosts| && s.hosts[h].room < |s.rooms|
    ensures SameSizes(s, t)
  {
    if s.hosts[h].left then s
    else
      var r := s.hosts[h].room;
      var retired := Retire(s, h);
      var vacated := if s.rooms[r].host == Some(h) then Vacate(retired, r, s.hosts[h].ready) else retired;
      var closed := CloseHost(vacated, h);
      if keepRoom then closed else Release(closed, r)
  }

  // ---- connecting ----

  function Seat(s: Relay, r: nat): Relay
    requires r < |s.rooms|
  {
    s.(hosts := s.hosts + [Host(r, true, false, false, s.now, [])], rooms := s.rooms[r := s.rooms[r].(host := Some(|s.hosts|))])
  }

  function ReplaceHost(s: Relay, r: nat): (t: Relay)
    requires Shaped(s) && r < |s.rooms|
    ensures SameSizes(s, t)
  {
    var previous := s.rooms[r].host;
    if previous.Some? then assert RoomShaped(s, r); DropHost(s, previous.value, true) else s
  }

  function AttachHost(s: Relay, c: string): Relay
    requires Shaped(s)
  {
    var seated := EnsureRoom(s, c);
    var r := seated.index[c];
    assert Shaped(seated) by { EnsureRoomShaped(s, c); }
    Seat(ReplaceHost(seated, r), r)
  }

  lemma EnsureRoomShaped(s: Relay, c: string)
    requires Shaped(s)
    ensures Shaped(EnsureRoom(s, c)) && c in EnsureRoom(s, c).index
  {
    var t := EnsureRoom(s, c);
    forall r: nat | r < |t.rooms|
      ensures RoomShaped(t, r)
    {
      if r < |s.rooms| {
        assert RoomShaped(s, r);
      }
    }
  }

  /** The earlier of the 120 s window and the offer's expiry; at once when the offer is gone. */
  function PairingDeadline(s: Relay, c: string, offer: string): int {
    var exp := if c in s.acls then OfferExpiry(s.acls[c].offers, offer) else None;
    var limit := if exp.Some? then exp.value else s.now;
    if s.now + PAIRING_TTL_MS < limit then s.now + PAIRING_TTL_MS else limit
  }

  /** The new device in its room, told the presence; a ready host hears of its link. */
  function Admit(s: Relay, r: nat, dk: string, pair: bool, offer: string): Relay
    requires Shaped(s) && r < |s.rooms|
  {
    var d := |s.devs|;
    var until := if pair then PairingDeadline(s, s.rooms[r].id, offer) else s.now;
    assert RoomShaped(s, r);
    var device := Device(r, dk, pair, offer, until, true, false, s.now, 0, Rate(s.now, 0, 0), [PresenceOf(s, r)]);
    var joined := s.(devs := s.devs + [device], rooms := s.rooms[r := s.rooms[r].(devices := s.rooms[r].devices + [d])]);
    ToReadyHost(joined, r, Opened(d, dk, pair))
  }

  function AttachDevice(s: Relay, c: string, dk: string, pair: bool, offer: string): Relay
    requires Shaped(s)
  {
    var t := EnsureRoom(s, c);
    assert Shaped(t) by { EnsureRoomShaped(s, c); }
    var r := t.index[c];
    if |t.rooms[r].devices| >= MAX_DEVICE_SOCKETS then t else Admit(t, r, dk, pair, offer)
  }

  // ---- the shape is kept ----

  /** Rooms only ever lose references to connections that exist. */
  lemma ShapedByRooms(s: Relay, t: Relay)
    requires Shaped(s) && |t.rooms| == |s.rooms| && |t.hosts| == |s.hosts| && |t.devs| == |s.devs|
    requires forall id :: id in t.index ==> id in s.index && t.index[id] == s.index[id]
    requires forall r: nat :: r < |s.rooms| ==> t.rooms[r].host == s.rooms[r].host || t.rooms[r].host == None
    requires forall r: nat, d :: r < |s.rooms| && d in t.rooms[r].devices ==> d in s.rooms[r].devices
    requires forall h: nat :: h < |s.hosts| ==> t.hosts[h].room == s.hosts[h].room
    requires forall d: nat :: d < |s.devs| ==> t.devs[d].room == s.devs[d].room
    ensures Shaped(t)
  {
    forall r: nat | r < |t.rooms|
      ensures RoomShaped(t, r)
    {
      assert RoomShaped(s, r);
      KnownSubset(t.rooms[r].devices, s.rooms[r].devices, |s.devs|);
    }
  }

  lemma KnownSubset(a: seq<nat>, b: seq<nat>, n: nat)
    requires Known(b, n) && forall d :: d in a ==> d in b
    ensures Known(a, n)
  {
    forall i | 0 <= i < |a|
      ensures a[i] < n
    {
      assert a[i] in a;
    }
  }

  lemma DropDeviceShaped(s: Relay, d: nat)
    requires Shaped(s) && d < |s.devs|
    ensures Shaped(DropDevice(s, d))
  {
    hide Known;
    assert RoomShaped(s, s.devs[d].room);
    ShapedByRooms(s, DropDevice(s, d));
  }

  lemma VacateKeeps(s: Relay, r: nat, wasReady: bool)
    requires r < |s.rooms|
    ensures
      var t := Vacate(s, r, wasReady);
      && t.index == s.index && t.hosts == s.hosts && |t.devs| == |s.devs| && |t.rooms| == |s.rooms|
      && t.rooms == s.rooms[r := t.rooms[r]] && t.rooms[r].host == None && t.rooms[r].devices == s.rooms[r].devices
      && forall d: nat :: d < |s.devs| ==> t.devs[d].room == s.devs[d].room
  {
    hide Requeue;
  }

  lemma DropHostShaped(s: Relay, h: nat, keepRoom: bool)
    requires Shaped(s) && h < |s.hosts|
    ensures Shaped(DropHost(s, h, keepRoom))
  {
    hide Vacate, RoomShaped;
    if !s.hosts[h].left {
      VacateKeeps(Retire(s, h), s.hosts[h].room, s.hosts[h].ready);
      ShapedByRooms(s, DropHost(s, h, keepRoom));
    }
  }

  // ---- a host's messages ----

  /** What a host's frame says. `AckSaid` carries `Number(msg.seq)` when that is an integer. */
  datatype HostSays =
    | ReadySaid
    | DataSaid(link: nat, m: string)
    | CloseSaid(link: nat)
    | AckSaid(number: Option<int>, ok: bool, code: Field)
    | OtherSaid(answer: Option<string>)

  /** The host is its room's host and has not left. */
  predicate Seated(s: Relay, h: nat)
    requires h < |s.hosts| && s.hosts[h].room < |s.rooms|
  {
    !s.hosts[h].left && s.rooms[s.hosts[h].room].host == Some(h)
  }

  function Deliver(s: Relay, h: nat): Relay
    requires h < |s.hosts| && s.hosts[h].room < |s.rooms|
  {
    if !s.hosts[h].ready || !Seated(s, h) then s
    else
      var (box, row) := DeliverNext(s.box, s.rooms[s.hosts[h].room].id, s.now);
      if row.Some? then SendHost(s.(box := box), h, ItemSent(row.value)) else s.(box := box)
  }

  /** The links of the room's devices, opened one after the other on the host's socket. */
  function OpenAll(s: Relay, h: nat, links: seq<nat>): (t: Relay)
    requires h < |s.hosts| && Known(links, |s.devs|)
    ensures t == s.(hosts := t.hosts) && |t.hosts| == |s.hosts| && t.hosts[h].room == s.hosts[h].room
    decreases |links|
  {
    if links == [] then s
    else
      var front := OpenAll(s, h, links[..|links| - 1]);
      var d := links[|links| - 1];
      SendHost(front, h, Opened(d, s.devs[d].dk, s.devs[d].pair))
  }

  /** `ready`, with the time, told to every device of the room. */
  function Announce(s: Relay, h: nat): Relay
    requires Shaped(s) && h < |s.hosts|
  {
    var r := s.hosts[h].room;
    var up := s.(hosts := s.hosts[h := s.hosts[h].(ready := true)], rooms := s.rooms[r := s.rooms[r].(lastSeenAt := Some(s.now))]);
    Broadcast(up, s.rooms[r].devices, Presence(true, Some(s.now)))
  }

  function OnReady(s: Relay, h: nat): Relay
    requires Shaped(s) && h < |s.hosts|
  {
    var r := s.hosts[h].room;
    if !Seated(s, h) || s.hosts[h].ready then s
    else if s.rooms[r].id !in s.acls then SendHost(s, h, HostTold("badAcl"))
    else
      assert RoomShaped(s, r);
      Deliver(OpenAll(Announce(s, h), h, s.rooms[r].devices), h)
  }

  function OnData(s: Relay, h: nat, link: nat, m: string): Relay
    requires Shaped(s) && h < |s.hosts|
  {
    assert RoomShaped(s, s.hosts[h].room);
    if !s.hosts[h].ready || !Seated(s, h) || link !in s.rooms[s.hosts[h].room].devices then s
    else SendDevice(s, link, FromHost(m))
  }

  function OnCloseDevice(s: Relay, h: nat, link: nat): Relay
    requires Shaped(s) && h < |s.hosts|
  {
    assert RoomShaped(s, s.hosts[h].room);
    if !s.hosts[h].ready || !Seated(s, h) || link !in s.rooms[s.hosts[h].room].devices then s
    else DropDevice(s, link)
  }

  /** The sockets of a note's device, pairing sockets excepted. */
  function Addressed(devs: seq<Device>, note: Note): nat -> bool {
    (d: nat) => d < |devs| && devs[d].dk == note.dk && !devs[d].pair
  }


  function NoteTo(s: Relay, r: nat, note: Note): Relay
    requires r < |s.rooms|
  {
    Broadcast(s, Filter(s.rooms[r].devices, Addressed(s.devs, note)), MailNote(note))
  }

  function NoteAll(s: Relay, r: nat, notes: seq<Note>): (t: Relay)
    requires r < |s.rooms|
    ensures t.rooms == s.rooms && t.hosts == s.hosts && t.index == s.index && |t.devs| == |s.devs|
    decreases |notes|
  {
    if notes == [] then s else NoteTo(NoteAll(s, r, notes[..|notes| - 1]), r, notes[|notes| - 1])
  }

  function OnAck(s: Relay, h: nat, number: Option<int>, outcome: Outcome): Relay
    requires h < |s.hosts| && s.hosts[h].room < |s.rooms|
  {
    var r := s.hosts[h].room;
    if s.rooms[r].host != Some(h) then s
    else
      var (box, note) := Ack(s.box, s.rooms[r].id, number, outcome);
      var acked := s.(box := box);
      Deliver(if note.Some? then NoteTo(acked, r, note.value) else acked, h)
  }

  function HearHost(s: Relay, h: nat): Relay
    requires h < |s.hosts|
  {
    s.(hosts := s.hosts[h := s.hosts[h].(heard := s.now)])
  }

  /** A frame from a host: `heard`, and nothing more unless it is its room's host. */
  function FromHostSocket(s: Relay, h: nat, says: HostSays): Relay
    requires Shaped(s) && h < |s.hosts|
  {
    var t := HearHost(s, h);
    assert Shaped(t) by { ShapedByRooms(s, t); }
    if !Seated(t, h) then t
    else
      match says
      case ReadySaid => OnReady(t, h)
      case DataSaid(link, m) => OnData(t, h, link, m)
      case CloseSaid(link) => OnCloseDevice(t, h, link)
      case AckSaid(number, ok, code) => OnAck(t, h, number, AckOutcome(ok, code))
      case OtherSaid(answer) => if answer.Some? then SendHost(t, h, HostTold(answer.value)) else t
  }

  // ---- an access list, once its signature is checked ----

  /** A device the list no longer admits. */
  predicate Shut(acl: Acl, d: Device, now: int) {
    if d.pair then !OffersAfter(acl, d.offer, now) else !Lists(acl, d.dk)
  }

  function DropShut(s: Relay, acl: Acl, ds: seq<nat>): (t: Relay)
    requires Shaped(s) && Known(ds, |s.devs|)
    ensures SameSizes(s, t) && Shaped(t)
    decreases |ds|
  {
    if ds == [] then s
    else
      var t := DropShut(s, acl, ds[..|ds| - 1]);
      var d := ds[|ds| - 1];
      DropDeviceShaped(t, d);
      if Shut(acl, t.devs[d], t.now) then DropDevice(t, d) else t
  }

  /** The step after the check, on the room and host the check was asked for, wherever they are by now. */
  function OnAclChecked(s: Relay, h: nat, verdict: Option<Acl>): Relay
    requires Shaped(s) && h < |s.hosts|
  {
    var r := s.hosts[h].room;
    var id := s.rooms[r].id;
    var current := if id in s.acls then s.acls[id].ver else 0;
    if verdict.None? || verdict.value.computer != id then SendHost(s, h, HostTold("badAcl"))
    else if verdict.value.ver <= current then SendHost(s, h, HostTold("staleVersion"))
    else
      var saved := s.(acls := s.acls[id := verdict.value]);
      assert Shaped(saved) by { ShapedByRooms(s, saved); }
      assert RoomShaped(saved, r);
      SendHost(DropShut(saved, verdict.value, s.rooms[r].devices), h, HostTold("acl.ok"))
  }

  // ---- a device's messages ----

  datatype DeviceSays =
    | BinaryFrame
    | UnreadableSaid
    | PingSaid
    | ChannelSaid(m: string)
    | PutSaid(msg: PutMsg)
    | CancelSaid(nonce: Field)
    | ListSaid(nonce: Field)
    | UnknownSaid

  function HearDevice(s: Relay, d: nat): Relay
    requires d < |s.devs|
  {
    s.(devs := s.devs[d := s.devs[d].(heard := s.now)])
  }

  /** The limiter's and the pairing counters after one message. */
  function Counted(s: Relay, d: nat, size: nat): Relay
    requires d < |s.devs|
  {
    var device := s.devs[d].(rate := Charge(s.devs[d].rate, size, s.now).0);
    s.(devs := s.devs[d := if device.pair && Charge(s.devs[d].rate, size, s.now).1 then device.(msgs := device.msgs + 1) else device])
  }

  predicate OverLimit(s: Relay, d: nat, size: nat)
    requires d < |s.devs|
  {
    !Charge(s.devs[d].rate, size, s.now).1 || (s.devs[d].pair && s.devs[d].msgs + 1 > PAIRING_MAX_MESSAGES)
  }

  /** `msg.nonce ?? null`, in the refusal a pairing socket gets. */
  function EchoedNonce(says: DeviceSays): Field {
    var nonce := match says
      case PutSaid(msg) => msg.nonce
      case CancelSaid(n) => n
      case ListSaid(n) => n
      case _ => Absent;
    if nonce.Absent? then Null else nonce
  }

  function OnMailbox(s: Relay, d: nat, says: DeviceSays): Relay
    requires Shaped(s) && d < |s.devs|
  {
    var r := s.devs[d].room;
    var dk := s.devs[d].dk;
    assert RoomShaped(s, r);
    if s.devs[d].pair then SendDevice(s, d, MailReply(Err(EchoedNonce(says), Pairing)))
    else
      match says
      case PutSaid(msg) =>
        var (box, reply) := Put(s.box, s.rooms[r].id, dk, msg, HostReady(s, r), s.now);
        SendDevice(s.(box := box), d, MailReply(reply))
      case CancelSaid(nonce) =>
        var (box, reply) := Cancel(s.box, s.rooms[r].id, dk, nonce);
        SendDevice(s.(box := box), d, MailReply(reply))
      case _ => SendDevice(s, d, MailReply(Listing(s.box, s.rooms[r].id, dk)))
  }

  function OnMessage(s: Relay, d: nat, says: DeviceSays): Relay
    requires Shaped(s) && d < |s.devs|
  {
    var r := s.devs[d].room;
    assert RoomShaped(s, r);
    match says
    case PingSaid => SendDevice(s, d, DevicePong)
    case ChannelSaid(m) =>
      if HostReady(s, r) then SendHost(s, s.rooms[r].host.value, Forwarded(d, m)) else SendDevice(s, d, PresenceOf(s, r))
    case PutSaid(_) => OnMailbox(s, d, says)
    case CancelSaid(_) => OnMailbox(s, d, says)
    case ListSaid(_) => OnMailbox(s, d, says)
    case BinaryFrame => DropDevice(s, d)
    case UnreadableSaid => DropDevice(s, d)
    case UnknownSaid => DropDevice(s, d)
  }

  function OnDevice(s: Relay, d: nat, says: DeviceSays, size: nat): Relay
    requires Shaped(s) && d < |s.devs|
  {
    if s.devs[d].left then s
    else if s.devs[d].pair && s.now >= s.devs[d].until then DropDevice(s, d)
    else
      var counted := Counted(s, d, size);
      assert Shaped(counted) by { ShapedByRooms(s, counted); }
      if OverLimit(s, d, size) then DropDevice(counted, d) else OnMessage(counted, d, says)
  }

  function FromDeviceSocket(s: Relay, d: nat, says: DeviceSays, size: nat): Relay
    requires Shaped(s) && d < |s.devs|
  {
    var t := HearDevice(s, d);
    assert Shaped(t) by { ShapedByRooms(s, t); }
    if says.BinaryFrame? then DropDevice(t, d) else OnDevice(t, d, says, size)
  }

  // ---- the sweep ----

  predicate TimedOut(d: Device, now: int) {
    (d.pair && now >= d.until) || now - d.heard > SILENT_TIMEOUT_MS
  }

  function SweepDevices(s: Relay, ds: seq<nat>): (t: Relay)
    requires Shaped(s) && Known(ds, |s.devs|)
    ensures SameSizes(s, t) && Shaped(t)
    decreases |ds|
  {
    if ds == [] then s
    else
      var t := SweepDevices(s, ds[..|ds| - 1]);
      var d := ds[|ds| - 1];
      DropDeviceShaped(t, d);
      if TimedOut(t.devs[d], t.now) then DropDevice(t, d) else t
  }

  function SweepHost(s: Relay, r: nat): (t: Relay)
    requires Shaped(s) && r < |s.rooms|
    ensures SameSizes(s, t) && Shaped(t)
  {
    var host := s.rooms[r].host;
    assert RoomShaped(s, r);
    if host.Some? && s.now - s.hosts[host.value].heard > SILENT_TIMEOUT_MS then
      DropHostShaped(s, host.value, false);
      DropHost(s, host.value, false)
    else s
  }

  function SweepRoom(s: Relay, r: nat): (t: Relay)
    requires Shaped(s) && r < |s.rooms|
    ensures SameSizes(s, t) && Shaped(t)
  {
    var quiet := SweepHost(s, r);
    assert RoomShaped(quiet, r);
    var swept := SweepDevices(quiet, quiet.rooms[r].devices);
    var (box, notes) := Expire(swept.box, swept.rooms[r].id, swept.now);
    var kept := swept.(box := box);
    var t := NoteAll(kept, r, notes);
    NoteAllRooms(kept, r, notes);
    ShapedByRooms(swept, t);
    t
  }

  lemma NoteAllRooms(s: Relay, r: nat, notes: seq<Note>)
    requires r < |s.rooms|
    ensures forall d: nat :: d < |s.devs| ==> NoteAll(s, r, notes).devs[d].room == s.devs[d].room
    decreases |notes|
  {
    if notes != [] {
      NoteAllRooms(s, r, notes[..|notes| - 1]);
    }
  }

  predicate Indexed(s: Relay, r: nat)
    requires r < |s.rooms|
  {
    s.rooms[r].id in s.index && s.index[s.rooms[r].id] == r
  }

  /** The rooms of the map, in the order they were made, which is the map's order. */
  function SweepRooms(s: Relay, n: nat): (t: Relay)
    requires Shaped(s) && n <= |s.rooms|
    ensures SameSizes(s, t) && Shaped(t)
  {
    if n == 0 then s
    else
      var t := SweepRooms(s, n - 1);
      if Indexed(t, n - 1) then SweepRoom(t, n - 1) else t
  }

  function Sweep(s: Relay): Relay
    requires Shaped(s)
  {
    var t := SweepRooms(s, |s.rooms|);
    t.(box := ExpireAll(t.box, t.now))
  }

  // ---- runs ----

  /** What happens to the process. Every handler runs to its end before the next event, but for the access list's check. */
  datatype Event =
    | Tick(ms: nat)
    | HostConnects(c: string)
    | DeviceConnects(c: string, dk: string, pair: bool, offer: string)
    | HostSpeaks(h: nat, hostSays: HostSays)
    | AclVerified(h: nat, verdict: Option<Acl>)
    | HostEnds(h: nat)
    | HostStalls(h: nat)
    | DeviceSpeaks(d: nat, says: DeviceSays, size: nat)
    | DeviceEnds(d: nat)
    | DeviceStalls(d: nat)
    | Sweeps
    | Restarts

  predicate Possible(s: Relay, e: Event) {
    match e
    case HostSpeaks(h, _) => h < |s.hosts|
    case AclVerified(h, _) => h < |s.hosts|
    case HostEnds(h) => h < |s.hosts|
    case HostStalls(h) => h < |s.hosts|
    case DeviceSpeaks(d, _, _) => d < |s.devs|
    case DeviceEnds(d) => d < |s.devs|
    case DeviceStalls(d) => d < |s.devs|
    case _ => true
  }

  /** One event. A stalled socket is no longer open though its close handler has not run. */
  function Next(s: Relay, e: Event): Relay
    requires Shaped(s) && Possible(s, e)
  {
    match e
    case Tick(ms) => s.(now := s.now + ms)
    case HostConnects(c) => AttachHost(s, c)
    case DeviceConnects(c, dk, pair, offer) => AttachDevice(s, c, dk, pair, offer)
    case HostSpeaks(h, says) => FromHostSocket(s, h, says)
    case AclVerified(h, verdict) => OnAclChecked(s, h, verdict)
    case HostEnds(h) => DropHost(s, h, false)
    case HostStalls(h) => CloseHost(s, h)
    case DeviceSpeaks(d, says, size) => FromDeviceSocket(s, d, says, size)
    case DeviceEnds(d) => DropDevice(s, d)
    case DeviceStalls(d) => CloseDevice(s, d)
    case Sweeps => Sweep(s)
    case Restarts => Relay(s.now, map[], [], [], [], RequeueAll(s.box), s.acls)
  }
}
