/** Whole runs of the private relay: what holds in every state it can reach. */
module RoomRuns {
  import opened Wrappers
  import opened Sequences
  import opened Acls
  import opened MailboxItems
  import opened MailboxTable
  import opened MailboxRuns
  import opened RoomState
  import opened RoomInvariants
  import opened RoomSteps

  /** A relay on an empty database. */
  function Fresh(now: nat): Relay { Relay(now, map[], [], [], [], EMPTY, map[]) }

  lemma FreshInv(now: nat)
    ensures Inv(Fresh(now))
  {
    assert forall p: Row -> bool :: Filter([], p) == [];
  }

  /** Each event names connections that exist when it happens. */
  ghost predicate Feasible(now: nat, es: seq<Event>) {
    es == [] || (
      var front := es[..|es| - 1];
      Feasible(now, front) && Shaped(After(now, front)) && Possible(After(now, front), es[|es| - 1]))
  }

  /** The state after some events. */
  ghost function After(now: nat, es: seq<Event>): Relay {
    if es == [] then Fresh(now)
    else
      var before := After(now, es[..|es| - 1]);
      if Shaped(before) && Possible(before, es[|es| - 1]) then Next(before, es[|es| - 1]) else before
  }

  lemma {:induction false} RunKeeps(now: nat, es: seq<Event>)
    requires Feasible(now, es)
    ensures Inv(After(now, es))
  {
    hide Inv, Next;
    if es == [] {
      FreshInv(now);
    } else {
      var front := es[..|es| - 1];
      RunKeeps(now, front);
      NextKeeps(After(now, front), es[|es| - 1]);
    }
  }

  // ---- what each event does to the mailbox ----

  /** The table after some calls. */
  function Through(t: Table, ops: seq<Op>): Table {
    if ops == [] then t else Apply(Through(t, ops[..|ops| - 1]), ops[|ops| - 1]).0
  }

  lemma {:induction false} RunIsThrough(l: Ledger, ops: seq<Op>)
    ensures Run(l, ops).table == Through(l.table, ops)
  {
    if ops != [] {
      RunIsThrough(l, ops[..|ops| - 1]);
    }
  }

  lemma {:induction false} ThroughJoins(t: Table, a: seq<Op>, b: seq<Op>)
    ensures Through(t, a + b) == Through(Through(t, a), b)
  {
    if b == [] {
      assert a + b == a;
    } else {
      assert (a + b)[..|a + b| - 1] == a + b[..|b| - 1];
      ThroughJoins(t, a, b[..|b| - 1]);
    }
  }

  function RequeueOps(s: Relay, h: nat): seq<Op>
    requires h < |s.hosts| && s.hosts[h].room < |s.rooms|
  {
    var r := s.hosts[h].room;
    if Seated(s, h) && s.hosts[h].ready then [DoRequeue(s.rooms[r].id)] else []
  }

  function DeliverOps(s: Relay, h: nat): seq<Op>
    requires h < |s.hosts| && s.hosts[h].room < |s.rooms|
  {
    if Seated(s, h) && s.hosts[h].ready then [DoDeliver(s.rooms[s.hosts[h].room].id, s.now)] else []
  }

  function ConnectOps(s: Relay, c: string): seq<Op>
    requires Shaped(s)
  {
    if c !in s.index then []
    else
      var host := s.rooms[s.index[c]].host;
      assert RoomShaped(s, s.index[c]);
      if host.Some? then RequeueOps(s, host.value) else []
  }

  function HostOps(s: Relay, h: nat, says: HostSays): seq<Op>
    requires h < |s.hosts| && s.hosts[h].room < |s.rooms|
  {
    var c := s.rooms[s.hosts[h].room].id;
    if !Seated(s, h) then []
    else if says.ReadySaid? then if s.hosts[h].ready || c !in s.acls then [] else [DoDeliver(c, s.now)]
    else if says.AckSaid? then [DoAck(c, says.number, AckOutcome(says.ok, says.code))] + DeliverOps(s, h)
    else []
  }

  function DeviceOps(s: Relay, d: nat, says: DeviceSays, size: nat): seq<Op>
    requires Shaped(s) && d < |s.devs|
  {
    var device := s.devs[d];
    var c := s.rooms[device.room].id;
    assert RoomShaped(s, device.room);
    if device.left || device.pair || OverLimit(s, d, size) then []
    else
      match says
      case PutSaid(msg) => [DoPut(c, device.dk, msg, HostReady(s, device.room), s.now)]
      case CancelSaid(nonce) => [DoCancel(c, device.dk, nonce)]
      case ListSaid(_) => [DoList(c, device.dk)]
      case _ => []
  }

  function SweepRoomOps(s: Relay, r: nat): seq<Op>
    requires Shaped(s) && r < |s.rooms|
  {
    var host := s.rooms[r].host;
    assert RoomShaped(s, r);
    (if host.Some? && s.now - s.hosts[host.value].heard > SILENT_TIMEOUT_MS then RequeueOps(s, host.value) else [])
    + [DoExpire(s.rooms[r].id, s.now)]
  }

  function SweepRoomsOps(s: Relay, n: nat): seq<Op>
    requires Shaped(s) && n <= |s.rooms|
  {
    if n == 0 then []
    else
      var t := SweepRooms(s, n - 1);
      SweepRoomsOps(s, n - 1) + (if Indexed(t, n - 1) then SweepRoomOps(t, n - 1) else [])
  }

  /** The calls an event makes into the mailbox, in order. */
  function OpsOf(s: Relay, e: Event): seq<Op>
    requires Shaped(s) && Possible(s, e)
  {
    match e
    case HostConnects(c) => ConnectOps(s, c)
    case HostSpeaks(h, says) => HostOps(s, h, says)
    case HostEnds(h) => RequeueOps(s, h)
    case DeviceSpeaks(d, says, size) => DeviceOps(s, d, says, size)
    case Sweeps => SweepRoomsOps(s, |s.rooms|) + [DoExpireAll(s.now)]
    case Restarts => [DoRestart]
    case _ => []
  }

  lemma One(t: Table, op: Op)
    ensures Through(t, [op]) == Apply(t, op).0
  {
    assert [op][..0] == [];
    assert Through(t, [op][..0]) == t;
  }

  lemma DropHostCalls(s: Relay, h: nat, keepRoom: bool)
    requires Shaped(s) && h < |s.hosts|
    ensures DropHost(s, h, keepRoom).box == Through(s.box, RequeueOps(s, h))
    ensures DropHost(s, h, keepRoom).now == s.now
  {
    hide Requeue;
    One(s.box, DoRequeue(s.rooms[s.hosts[h].room].id));
  }

  lemma DropDeviceBox(s: Relay, d: nat)
    requires Shaped(s) && d < |s.devs|
    ensures DropDevice(s, d).box == s.box && DropDevice(s, d).now == s.now
  {
    if !s.devs[d].left {
      DropDeviceEffect(s, d);
    }
  }

  lemma DeliverCalls(s: Relay, h: nat)
    requires h < |s.hosts| && s.hosts[h].room < |s.rooms|
    ensures Deliver(s, h).box == Through(s.box, DeliverOps(s, h))
  {
    hide DeliverNext;
    One(s.box, DoDeliver(s.rooms[s.hosts[h].room].id, s.now));
  }

  lemma ConnectCalls(s: Relay, c: string)
    requires Shaped(s)
    ensures AttachHost(s, c).box == Through(s.box, ConnectOps(s, c))
  {
    hide DropHost, Requeue;
    var seated := EnsureRoom(s, c);
    EnsureRoomShaped(s, c);
    var host := seated.rooms[seated.index[c]].host;
    if host.Some? {
      assert RoomShaped(seated, seated.index[c]);
      DropHostCalls(seated, host.value, true);
    }
  }

  lemma OnAckCalls(s: Relay, h: nat, number: Option<int>, ok: bool, code: Field)
    requires Shaped(s) && h < |s.hosts| && Seated(s, h)
    ensures OnAck(s, h, number, AckOutcome(ok, code)).box == Through(s.box, HostOps(s, h, AckSaid(number, ok, code)))
  {
    hide Ack, Deliver, NoteTo, Requeue, AckOutcome;
    var outcome := AckOutcome(ok, code);
    var r := s.hosts[h].room;
    var c := s.rooms[r].id;
    var (box, note) := Ack(s.box, c, number, outcome);
    var acked := s.(box := box);
    var noted := if note.Some? then NoteTo(acked, r, note.value) else acked;
    NoteToKeeps(acked, r, note);
    One(s.box, DoAck(c, number, outcome));
    DeliverCalls(noted, h);
    ThroughJoins(s.box, [DoAck(c, number, outcome)], DeliverOps(s, h));
  }

  lemma NoteToKeeps(s: Relay, r: nat, note: Option<Note>)
    requires r < |s.rooms|
    ensures note.Some? ==> NoteTo(s, r, note.value) == s.(devs := NoteTo(s, r, note.value).devs)
  {
  }

  lemma OnReadyCalls(s: Relay, h: nat)
    requires Shaped(s) && h < |s.hosts| && Seated(s, h)
    ensures OnReady(s, h).box == Through(s.box, HostOps(s, h, ReadySaid))
  {
    hide Announce, OpenAll, Deliver, DeliverNext;
    if !s.hosts[h].ready && s.rooms[s.hosts[h].room].id in s.acls {
      ReadiedEffect(s, h);
      DeliverCalls(Readied(s, h), h);
    }
  }

  lemma HostCalls(s: Relay, h: nat, says: HostSays)
    requires Shaped(s) && h < |s.hosts|
    ensures FromHostSocket(s, h, says).box == Through(s.box, HostOps(s, h, says))
  {
    hide OnReady, OnAck, OnData, OnCloseDevice;
    var t := HearHost(s, h);
    ShapedByRooms(s, t);
    HearHostOps(s, h, says);
    if Seated(t, h) {
      match says
      case ReadySaid => OnReadyCalls(t, h);
      case AckSaid(number, ok, code) => OnAckCalls(t, h, number, ok, code);
      case DataSaid(link, m) => OnDataBox(t, h, link, m);
      case CloseSaid(link) => OnCloseDeviceBox(t, h, link);
      case OtherSaid(answer) =>
    }
  }

  lemma HearHostOps(s: Relay, h: nat, says: HostSays)
    requires Shaped(s) && h < |s.hosts|
    ensures HostOps(HearHost(s, h), h, says) == HostOps(s, h, says)
  {
  }

  lemma OnDataBox(s: Relay, h: nat, link: nat, m: string)
    requires Shaped(s) && h < |s.hosts|
    ensures OnData(s, h, link, m).box == s.box
  {
  }

  lemma OnCloseDeviceBox(s: Relay, h: nat, link: nat)
    requires Shaped(s) && h < |s.hosts|
    ensures OnCloseDevice(s, h, link).box == s.box
  {
    hide DropDevice;
    assert RoomShaped(s, s.hosts[h].room);
    if OnCloseDevice(s, h, link) != s {
      DropDeviceBox(s, link);
    }
  }

  lemma OnMailboxCalls(s: Relay, d: nat, says: DeviceSays)
    requires Shaped(s) && d < |s.devs| && !s.devs[d].pair && (says.PutSaid? || says.CancelSaid? || says.ListSaid?)
    ensures
      var c, dk := s.rooms[s.devs[d].room].id, s.devs[d].dk;
      && RoomShaped(s, s.devs[d].room)
      && OnMailbox(s, d, says).box == Apply(s.box,
        match says
        case PutSaid(msg) => DoPut(c, dk, msg, HostReady(s, s.devs[d].room), s.now)
        case CancelSaid(nonce) => DoCancel(c, dk, nonce)
        case _ => DoList(c, dk)).0
  {
    hide Put, Cancel, Listing;
    assert RoomShaped(s, s.devs[d].room);
  }

  lemma OnMessageCalls(s: Relay, d: nat, says: DeviceSays)
    requires Shaped(s) && d < |s.devs|
    ensures OnMessage(s, d, says).box == if says.PutSaid? || says.CancelSaid? || says.ListSaid? then OnMailbox(s, d, says).box else s.box
  {
    hide OnMailbox, DropDevice;
    assert RoomShaped(s, s.devs[d].room);
    DropDeviceBox(s, d);
  }

  lemma PairingBox(s: Relay, d: nat, says: DeviceSays)
    requires Shaped(s) && d < |s.devs| && s.devs[d].pair
    ensures OnMailbox(s, d, says).box == s.box
  {
  }

  lemma OnDeviceCalls(s: Relay, d: nat, says: DeviceSays, size: nat)
    requires Shaped(s) && d < |s.devs| && !says.BinaryFrame?
    ensures OnDevice(s, d, says, size).box == Through(s.box, DeviceOps(s, d, says, size))
  {
    hide Apply, Through, OnMailbox, DropDevice, OverLimit;
    assert RoomShaped(s, s.devs[d].room);
    DropDeviceBox(s, d);
    Empty(s.box);
    if !s.devs[d].left && !(s.devs[d].pair && s.now >= s.devs[d].until) {
      var counted := Counted(s, d, size);
      ShapedByRooms(s, counted);
      DropDeviceBox(counted, d);
      OnMessageCalls(counted, d, says);
      if counted.devs[d].pair {
        PairingBox(counted, d, says);
      } else if says.PutSaid? || says.CancelSaid? || says.ListSaid? {
        OnMailboxCalls(counted, d, says);
        if DeviceOps(s, d, says, size) != [] {
          One(s.box, DeviceOps(s, d, says, size)[0]);
        }
      }
    }
  }

  lemma Empty(t: Table)
    ensures Through(t, []) == t
  {
  }

  lemma DeviceCalls(s: Relay, d: nat, says: DeviceSays, size: nat)
    requires Shaped(s) && d < |s.devs|
    ensures FromDeviceSocket(s, d, says, size).box == Through(s.box, DeviceOps(s, d, says, size))
  {
    hide OnDevice, DropDevice, Apply;
    var t := HearDevice(s, d);
    ShapedByRooms(s, t);
    DropDeviceBox(t, d);
    if !says.BinaryFrame? {
      OnDeviceCalls(t, d, says, size);
      assert RoomShaped(s, s.devs[d].room) && RoomShaped(t, s.devs[d].room);
    }
  }

  lemma {:induction false} SweepDevicesBox(s: Relay, ds: seq<nat>)
    requires Shaped(s) && Known(ds, |s.devs|)
    ensures SweepDevices(s, ds).box == s.box && SweepDevices(s, ds).now == s.now
    ensures |SweepDevices(s, ds).rooms| == |s.rooms|
    ensures forall r: nat :: r < |s.rooms| ==> SweepDevices(s, ds).rooms[r].id == s.rooms[r].id
    decreases |ds|
  {
    hide DropDevice, Shaped;
    if ds != [] {
      SweepDevicesBox(s, ds[..|ds| - 1]);
      var t := SweepDevices(s, ds[..|ds| - 1]);
      DropDeviceBox(t, ds[|ds| - 1]);
      DropDeviceIds(t, ds[|ds| - 1]);
    }
  }

  lemma DropDeviceIds(s: Relay, d: nat)
    requires Shaped(s) && d < |s.devs|
    ensures |DropDevice(s, d).rooms| == |s.rooms|
    ensures forall r: nat :: r < |s.rooms| ==> DropDevice(s, d).rooms[r].id == s.rooms[r].id
  {
    if !s.devs[d].left {
      DropDeviceEffect(s, d);
    }
  }

  lemma DropHostIds(s: Relay, h: nat, keepRoom: bool)
    requires Shaped(s) && h < |s.hosts|
    ensures |DropHost(s, h, keepRoom).rooms| == |s.rooms|
    ensures forall r: nat :: r < |s.rooms| ==> DropHost(s, h, keepRoom).rooms[r].id == s.rooms[r].id
  {
  }

  lemma SweepRoomCalls(s: Relay, r: nat)
    requires Shaped(s) && r < |s.rooms|
    ensures SweepRoom(s, r).box == Through(s.box, SweepRoomOps(s, r)) && SweepRoom(s, r).now == s.now
  {
    hide DropHost, SweepDevices, NoteAll, Apply, Requeue;
    assert RoomShaped(s, r);
    var quiet := SweepHost(s, r);
    var host := s.rooms[r].host;
    if host.Some? {
      DropHostCalls(s, host.value, false);
      DropHostIds(s, host.value, false);
    }
    assert RoomShaped(quiet, r);
    var swept := SweepDevices(quiet, quiet.rooms[r].devices);
    SweepDevicesBox(quiet, quiet.rooms[r].devices);
    var (box, notes) := Expire(swept.box, swept.rooms[r].id, swept.now);
    NoteAllBox(swept.(box := box), r, notes);
    ThroughExpire(s.box, if host.Some? && s.now - s.hosts[host.value].heard > SILENT_TIMEOUT_MS then RequeueOps(s, host.value) else [],
                  s.rooms[r].id, s.now);
  }

  lemma ThroughExpire(t: Table, ops: seq<Op>, c: string, now: int)
    ensures Through(t, ops + [DoExpire(c, now)]) == Expire(Through(t, ops), c, now).0
    ensures Through(t, []) == t
  {
    assert (ops + [DoExpire(c, now)])[..|ops|] == ops;
  }

  lemma {:induction false} NoteAllBox(s: Relay, r: nat, notes: seq<Note>)
    requires r < |s.rooms|
    ensures NoteAll(s, r, notes).box == s.box && NoteAll(s, r, notes).now == s.now
    decreases |notes|
  {
    if notes != [] {
      NoteAllBox(s, r, notes[..|notes| - 1]);
    }
  }

  lemma {:induction false} SweepRoomsCalls(s: Relay, n: nat)
    requires Shaped(s) && n <= |s.rooms|
    ensures SweepRooms(s, n).box == Through(s.box, SweepRoomsOps(s, n)) && SweepRooms(s, n).now == s.now
  {
    hide SweepRoom, Through, Shaped, SweepRoomOps;
    Empty(s.box);
    if n > 0 {
      SweepRoomsCalls(s, n - 1);
      var t := SweepRooms(s, n - 1);
      if Indexed(t, n - 1) {
        SweepRoomCalls(t, n - 1);
        ThroughJoins(s.box, SweepRoomsOps(s, n - 1), SweepRoomOps(t, n - 1));
      } else {
        assert SweepRoomsOps(s, n) == SweepRoomsOps(s, n - 1) + [];
        assert SweepRoomsOps(s, n - 1) + [] == SweepRoomsOps(s, n - 1);
      }
    }
  }

  lemma SweepCalls(s: Relay)
    requires Shaped(s)
    ensures Sweep(s).box == Through(s.box, OpsOf(s, Sweeps))
  {
    hide SweepRooms, SweepRoomsOps, Shaped, ExpireAll;
    SweepRoomsCalls(s, |s.rooms|);
    var ops := SweepRoomsOps(s, |s.rooms|);
    assert (ops + [DoExpireAll(s.now)])[..|ops|] == ops;
  }

  lemma DropShutBox(s: Relay, acl: Acl, ds: seq<nat>)
    requires Shaped(s) && Known(ds, |s.devs|)
    ensures DropShut(s, acl, ds).box == s.box
    decreases |ds|
  {
    hide DropDevice, Shaped;
    if ds != [] {
      DropShutBox(s, acl, ds[..|ds| - 1]);
      DropDeviceBox(DropShut(s, acl, ds[..|ds| - 1]), ds[|ds| - 1]);
    }
  }

  lemma OnAclCheckedBox(s: Relay, h: nat, verdict: Option<Acl>)
    requires Shaped(s) && h < |s.hosts|
    ensures OnAclChecked(s, h, verdict).box == s.box
  {
    hide DropShut;
    var r := s.hosts[h].room;
    var id := s.rooms[r].id;
    var current := if id in s.acls then s.acls[id].ver else 0;
    if verdict.Some? && verdict.value.computer == id && verdict.value.ver > current {
      var saved := s.(acls := s.acls[id := verdict.value]);
      ShapedByRooms(s, saved);
      assert RoomShaped(saved, r);
      DropShutBox(saved, verdict.value, s.rooms[r].devices);
    }
  }

  lemma AttachDeviceBox(s: Relay, c: string, dk: string, pair: bool, offer: string)
    requires Shaped(s)
    ensures AttachDevice(s, c, dk, pair, offer).box == s.box
  {
    EnsureRoomShaped(s, c);
  }

  /** An event changes the mailbox by its calls and by nothing else. */
  lemma NextCalls(s: Relay, e: Event)
    requires Shaped(s) && Possible(s, e)
    ensures Next(s, e).box == Through(s.box, OpsOf(s, e))
  {
    hide Through, AttachHost, AttachDevice, FromHostSocket, OnAclChecked, DropHost, FromDeviceSocket, DropDevice, Sweep, CloseHost,
      CloseDevice, ConnectOps, HostOps, DeviceOps, RequeueOps, SweepRoomsOps;
    Empty(s.box);
    match e
    case HostConnects(c) => ConnectCalls(s, c);
    case DeviceConnects(c, dk, pair, offer) => AttachDeviceBox(s, c, dk, pair, offer);
    case HostSpeaks(h, says) => HostCalls(s, h, says);
    case AclVerified(h, verdict) => OnAclCheckedBox(s, h, verdict);
    case HostEnds(h) => DropHostCalls(s, h, false);
    case DeviceSpeaks(d, says, size) => DeviceCalls(s, d, says, size);
    case DeviceEnds(d) => DropDeviceBox(s, d);
    case Sweeps => SweepCalls(s);
    case Restarts => One(s.box, DoRestart);
    case Tick(_) =>
    case HostStalls(h) => StallAlike(s, e);
    case DeviceStalls(d) => StallAlike(s, e);
  }

  // ---- a run of the relay is a run of the mailbox ----

  /** Every call of a run, in order. */
  ghost function Calls(now: nat, es: seq<Event>): seq<Op> {
    if es == [] then []
    else
      var before := After(now, es[..|es| - 1]);
      Calls(now, es[..|es| - 1]) + if Shaped(before) && Possible(before, es[|es| - 1]) then OpsOf(before, es[|es| - 1]) else []
  }

  predicate At(op: Op, now: int) {
    Moment(op, now) == now
  }

  predicate AllAt(ops: seq<Op>, now: int) {
    forall i :: 0 <= i < |ops| ==> At(ops[i], now)
  }

  lemma {:induction false} SweepRoomsAt(s: Relay, n: nat)
    requires Shaped(s) && n <= |s.rooms|
    ensures AllAt(SweepRoomsOps(s, n), s.now)
  {
    hide SweepRoom, Shaped, SweepRoomOps, AllAt;
    if n > 0 {
      SweepRoomsAt(s, n - 1);
      SweepRoomsCalls(s, n - 1);
      SweepRoomAt(SweepRooms(s, n - 1), n - 1);
      AllAtJoins(SweepRoomsOps(s, n - 1), SweepRoomOps(SweepRooms(s, n - 1), n - 1), s.now);
      AllAtJoins(SweepRoomsOps(s, n - 1), [], s.now);
    } else {
      AllAtJoins([], [], s.now);
    }
  }

  lemma SweepRoomAt(s: Relay, r: nat)
    requires Shaped(s) && r < |s.rooms|
    ensures AllAt(SweepRoomOps(s, r), s.now)
  {
  }

  lemma AllAtJoins(a: seq<Op>, b: seq<Op>, now: int)
    ensures AllAt(a, now) && AllAt(b, now) ==> AllAt(a + b, now)
    ensures AllAt([], now)
  {
  }

  /** Every call of an event is made at the event's time. */
  lemma OpsAt(s: Relay, e: Event)
    requires Shaped(s) && Possible(s, e)
    ensures AllAt(OpsOf(s, e), s.now)
  {
    hide SweepRooms, SweepRoomsOps, OverLimit;
    if e.Sweeps? {
      SweepRoomsAt(s, |s.rooms|);
    } else if e.HostConnects? && e.c in s.index {
      assert RoomShaped(s, s.index[e.c]);
    }
  }

  lemma {:induction false} TimedAt(l: Ledger, ops: seq<Op>, now: int)
    requires l.clock <= now && AllAt(ops, now)
    ensures Timed(l, ops) && l.clock <= Run(l, ops).clock <= now
  {
    if ops != [] {
      var front, op := ops[..|ops| - 1], ops[|ops| - 1];
      forall i | 0 <= i < |front|
        ensures At(front[i], now)
      {
        assert At(ops[i], now);
      }
      TimedAt(l, front, now);
      assert At(ops[|ops| - 1], now);
    }
  }

  lemma {:induction false} TimedJoins(l: Ledger, a: seq<Op>, b: seq<Op>)
    requires Timed(l, a) && Timed(Run(l, a), b)
    ensures Timed(l, a + b)
  {
    if b == [] {
      assert a + b == a;
    } else {
      var front := b[..|b| - 1];
      assert (a + b)[..|a + b| - 1] == a + front;
      TimedJoins(l, a, front);
      RunJoins(l, a, front);
    }
  }

  lemma NextClock(s: Relay, e: Event)
    requires Shaped(s) && Possible(s, e)
    ensures Next(s, e).now >= s.now
  {
    hide DropHost, DropDevice, SweepRooms, OnReady, OnAck, OnMailbox, NoteAll, OverLimit, DropShut, SweepDevices;
    match e
    case HostConnects(c) => ConnectClock(s, c);
    case HostSpeaks(h, says) => HostClock(s, h, says);
    case AclVerified(h, verdict) => AclClock(s, h, verdict);
    case HostEnds(h) => DropHostCalls(s, h, false);
    case DeviceSpeaks(d, says, size) => DeviceClock(s, d, says, size);
    case DeviceEnds(d) => DropDeviceBox(s, d);
    case Sweeps => SweepRoomsCalls(s, |s.rooms|);
    case _ =>
  }

  lemma ConnectClock(s: Relay, c: string)
    requires Shaped(s)
    ensures AttachHost(s, c).now == s.now
  {
    hide DropHost;
    var seated := EnsureRoom(s, c);
    EnsureRoomShaped(s, c);
    var host := seated.rooms[seated.index[c]].host;
    if host.Some? {
      assert RoomShaped(seated, seated.index[c]);
      DropHostCalls(seated, host.value, true);
    }
  }

  lemma HostClock(s: Relay, h: nat, says: HostSays)
    requires Shaped(s) && h < |s.hosts|
    ensures FromHostSocket(s, h, says).now == s.now
  {
    hide DropDevice, Announce, OpenAll;
    var t := HearHost(s, h);
    ShapedByRooms(s, t);
    assert RoomShaped(t, t.hosts[h].room);
    if Seated(t, h) && says.ReadySaid? {
      ReadiedEffect(t, h);
    } else if Seated(t, h) && says.CloseSaid? && OnCloseDevice(t, h, says.link) != t {
      DropDeviceBox(t, says.link);
    }
  }

  lemma {:induction false} DropShutClock(s: Relay, acl: Acl, ds: seq<nat>)
    requires Shaped(s) && Known(ds, |s.devs|)
    ensures DropShut(s, acl, ds).now == s.now
    decreases |ds|
  {
    hide DropDevice, Shaped;
    if ds != [] {
      DropShutClock(s, acl, ds[..|ds| - 1]);
      DropDeviceBox(DropShut(s, acl, ds[..|ds| - 1]), ds[|ds| - 1]);
    }
  }

  lemma AclClock(s: Relay, h: nat, verdict: Option<Acl>)
    requires Shaped(s) && h < |s.hosts|
    ensures OnAclChecked(s, h, verdict).now == s.now
  {
    hide DropShut;
    var r := s.hosts[h].room;
    var id := s.rooms[r].id;
    var current := if id in s.acls then s.acls[id].ver else 0;
    if verdict.Some? && verdict.value.computer == id && verdict.value.ver > current {
      var saved := s.(acls := s.acls[id := verdict.value]);
      ShapedByRooms(s, saved);
      assert RoomShaped(saved, r);
      DropShutClock(saved, verdict.value, s.rooms[r].devices);
    }
  }

  lemma DeviceClock(s: Relay, d: nat, says: DeviceSays, size: nat)
    requires Shaped(s) && d < |s.devs|
    ensures FromDeviceSocket(s, d, says, size).now == s.now
  {
    hide DropDevice, OverLimit, Put, Cancel, Listing;
    var t := HearDevice(s, d);
    ShapedByRooms(s, t);
    DropDeviceBox(t, d);
    if !says.BinaryFrame? {
      var counted := Counted(t, d, size);
      ShapedByRooms(t, counted);
      DropDeviceBox(counted, d);
      MessageClock(counted, d, says);
    }
  }

  lemma MessageClock(s: Relay, d: nat, says: DeviceSays)
    requires Shaped(s) && d < |s.devs|
    ensures OnMessage(s, d, says).now == s.now
  {
    hide DropDevice, Put, Cancel, Listing;
    assert RoomShaped(s, s.devs[d].room);
    DropDeviceBox(s, d);
  }

  /**
   * In every run of the relay, across replaced hosts, timeouts and restarts, the mailbox is what its calls alone made
   * of it, on a clock that never runs back.
   */
  lemma {:induction false} RunIsMailboxRun(now: nat, es: seq<Event>)
    requires Feasible(now, es)
    ensures Timed(START, Calls(now, es))
    ensures After(now, es).box == Run(START, Calls(now, es)).table && Run(START, Calls(now, es)).clock <= After(now, es).now
  {
    hide Next, OpsOf, Shaped, Possible;
    if es != [] {
      var front, e := es[..|es| - 1], es[|es| - 1];
      var s, before := After(now, front), Calls(now, front);
      RunIsMailboxRun(now, front);
      NextCalls(s, e);
      NextClock(s, e);
      OpsAt(s, e);
      RunJoins(START, before, OpsOf(s, e));
      RunIsThrough(Run(START, before), OpsOf(s, e));
      TimedAt(Run(START, before), OpsOf(s, e), s.now);
      TimedJoins(START, before, OpsOf(s, e));
    }
  }

  // ---- reachable states ----

  /** Some run leads to the state. */
  ghost predicate Reachable(s: Relay) {
    exists now: nat, es {:trigger After(now, es)} :: Feasible(now, es) && After(now, es) == s
  }

  /** Some run leads to the state, and `l` is the ledger of the mailbox calls it made. */
  ghost predicate ReachedWith(s: Relay, l: Ledger) {
    exists now: nat, es {:trigger Calls(now, es)} :: Feasible(now, es) && After(now, es) == s && Run(START, Calls(now, es)) == l
  }

  lemma ReachableInv(s: Relay)
    requires Reachable(s)
    ensures Inv(s)
  {
    hide Inv, After, Feasible;
    var now: nat, es :| Feasible(now, es) && After(now, es) == s;
    RunKeeps(now, es);
  }

  lemma ReachedInv(s: Relay, l: Ledger)
    requires ReachedWith(s, l)
    ensures Inv(s) && l.table == s.box && l.clock <= s.now && Orderly(l)
  {
    hide Inv, After, Feasible, Orderly, Run, Calls;
    var now: nat, es :| Feasible(now, es) && After(now, es) == s && Run(START, Calls(now, es)) == l;
    RunKeeps(now, es);
    RunIsMailboxRun(now, es);
    RunIsOrderly(Calls(now, es));
  }
}
