/** That the private relay's mailbox keeps moving: while a host is ready, what is queued goes out. */
module RoomFlow {
  import opened Wrappers
  import opened Sequences
  import opened Acls
  import opened MailboxItems
  import opened MailboxTable
  import opened MailboxRuns
  import opened RoomState
  import opened RoomInvariants
  import opened RoomSteps
  import opened RoomSweeps
  import opened RoomRuns

  // ---- who is ready ----

  /** A ready host of the computer's. */
  predicate ReadyFor(s: Relay, h: nat, c: string) {
    h < |s.hosts| && s.hosts[h].ready && s.hosts[h].room < |s.rooms| && s.rooms[s.hosts[h].room].id == c
  }

  /** It is the one of the room the map holds, and there is no other. */
  lemma ReadyIsManned(s: Relay, h: nat, c: string)
    requires Registry(s) && ReadyFor(s, h, c)
    ensures Manned(s, c) && c in s.index && s.index[c] == s.hosts[h].room && s.rooms[s.index[c]].host == Some(h)
  {
    assert HostOk(s, h) && RoomOk(s, s.hosts[h].room) && RoomShaped(s, s.hosts[h].room);
  }

  lemma MannedIsReady(s: Relay, c: string) returns (h: nat)
    requires Registry(s) && Manned(s, c)
    ensures ReadyFor(s, h, c)
  {
    var r := s.index[c];
    assert RoomShaped(s, r) && RoomOk(s, r);
    h := s.rooms[r].host.value;
  }

  /** No host is newly ready; hosts and rooms stay what they were. */
  predicate Dims(s: Relay, t: Relay) {
    && |s.rooms| <= |t.rooms| && (forall r: nat :: r < |s.rooms| ==> t.rooms[r].id == s.rooms[r].id)
    && (forall h: nat :: h < |t.hosts| && t.hosts[h].ready ==> h < |s.hosts| && s.hosts[h].ready && t.hosts[h].room == s.hosts[h].room)
  }

  lemma DimsJoins(s: Relay, t: Relay, u: Relay)
    requires Dims(s, t) && Dims(t, u)
    ensures Dims(s, u)
  {
  }

  lemma DimsReady(s: Relay, t: Relay, h: nat, c: string)
    requires Dims(s, t) && ReadyFor(t, h, c) && (forall g: nat :: g < |s.hosts| ==> s.hosts[g].room < |s.rooms|)
    ensures ReadyFor(s, h, c)
  {
  }

  lemma DropDeviceDims(s: Relay, d: nat)
    requires Shaped(s) && d < |s.devs|
    ensures Dims(s, DropDevice(s, d))
  {
    hide DropDevice;
    if s.devs[d].left {
      LeftDropped(s, d);
    } else {
      DropDeviceEffect(s, d);
    }
  }

  lemma DropHostDims(s: Relay, h: nat, keepRoom: bool)
    requires Registry(s) && h < |s.hosts|
    ensures Dims(s, DropHost(s, h, keepRoom)) && h < |DropHost(s, h, keepRoom).hosts| && !DropHost(s, h, keepRoom).hosts[h].ready
  {
    assert HostOk(s, h);
    if !s.hosts[h].left {
      hide DropHost;
      DropHostEffect(s, h, keepRoom);
    }
  }

  // ---- one mailbox call ----

  ghost predicate FlightOf(t: Table, c: string) { exists r :: r in t.rows && InFlight(c)(r) }

  /** What was last offered for the computer ran out. */
  ghost predicate LastRanOut(l: Ledger, c: string) {
    LastOf(l.offers, c) in l.fate && l.fate[LastOf(l.offers, c)] == RanOut
  }

  /** An item of the computer is in flight, or none is due, or what was last offered ran out since. */
  ghost predicate Flowing(l: Ledger, c: string, now: int) {
    FlightOf(l.table, c) || LastRanOut(l, c) || forall r :: r in l.table.rows ==> !Deliverable(c, now)(r)
  }

  /** A call that takes nothing of the computer's out of flight but by expiry, and puts nothing. */
  predicate Mild(op: Op, c: string) {
    && !(op.DoAck? && op.c == c) && !(op.DoRequeue? && op.c == c) && !op.DoRestart?
    && (op.DoPut? && op.c == c ==> op.hostReady)
  }

  lemma DeliverFlows(l: Ledger, c: string, now: int)
    ensures Flowing(Step(l, DoDeliver(c, now)), c, now)
  {
    var (u, sent) := DeliverNext(l.table, c, now);
    if sent.Some? {
      var i :| 0 <= i < |l.table.rows| && l.table.rows[i] == sent.value;
      assert u.rows[i] == WithState(sent.value, Delivering);
      assert u.rows[i] in u.rows && InFlight(c)(u.rows[i]);
    }
  }

  lemma LastRanOutStays(l: Ledger, op: Op, c: string)
    requires Orderly(l) && LastRanOut(l, c) && !(op.DoDeliver? && op.c == c)
    ensures LastRanOut(Step(l, op), c)
  {
    hide Apply, Departed;
    StepKeepsFate(l, op, LastOf(l.offers, c));
    var offered := MailboxRuns.Offers(l.table, op);
    if offered == [] {
      assert Step(l, op).offers == l.offers;
    } else {
      LastAppended(l.offers, op.c, offered[0].1, c);
    }
  }

  /** A row in flight stays so, or runs out. */
  lemma FlightStays(t: Table, op: Op, c: string, r: Row)
    requires Ordered(t) && Mild(op, c) && !(op.DoDeliver? && op.c == c) && r in t.rows && InFlight(c)(r)
    ensures r in Apply(t, op).0.rows || (r.seq_ in Departed(t, op) && Departed(t, op)[r.seq_] == RanOut)
  {
    hide HasRoom, Screen;
    match op
    case DoDeliver(a, now) => DeliverElsewhere(t, a, now, r);
    case DoRequeue(a) => RestatedElsewhere(t.rows, Requeues(a), r);
    case _ =>
  }

  lemma RestatedElsewhere(rows: seq<Row>, f: Row -> Row, r: Row)
    requires r in rows && f(r) == r
    ensures r in Map(rows, f)
  {
    var i :| 0 <= i < |rows| && rows[i] == r;
    assert Map(rows, f)[i] == r;
  }

  lemma DeliverElsewhere(t: Table, a: string, now: int, r: Row)
    requires Ordered(t) && r in t.rows && r.computer != a
    ensures r in DeliverNext(t, a, now).0.rows
  {
    var sent := DeliverNext(t, a, now).1;
    if sent.Some? {
      if r.seq_ == sent.value.seq_ {
        KeysTellApart(t.rows, SeqOf(), r, sent.value);
      }
      RestatedElsewhere(t.rows, Delivers(sent.value.seq_), r);
    }
  }

  /** Nothing is newly due. */
  lemma NoneNewlyDue(t: Table, op: Op, c: string, now: int, r: Row)
    requires Mild(op, c) && !(op.DoDeliver? && op.c == c) && r in Apply(t, op).0.rows && Deliverable(c, now)(r)
    ensures r in t.rows
  {
    match op
    case DoDeliver(a, at) =>
      var sent := DeliverNext(t, a, at).1;
      if sent.Some? {
        var q := Restated(t.rows, Delivers(sent.value.seq_), r);
      }
    case DoRequeue(a) => var q := Restated(t.rows, Requeues(a), r);
    case _ =>
  }

  lemma MildFlows(l: Ledger, op: Op, c: string, now: int)
    requires Orderly(l) && Mild(op, c) && Flowing(l, c, now) && !(op.DoDeliver? && op.c == c)
    ensures Flowing(Step(l, op), c, now)
  {
    hide Apply, Departed, Mild, Orderly, LastRanOut;
    if LastRanOut(l, c) {
      LastRanOutStays(l, op, c);
    } else if FlightOf(l.table, c) {
      var r :| r in l.table.rows && InFlight(c)(r);
      RowsOrdered(l);
      FlightStays(l.table, op, c, r);
      if r !in Apply(l.table, op).0.rows {
        RunsOut(l, op, c, r);
      }
    } else {
      forall r | r in Step(l, op).table.rows
        ensures !Deliverable(c, now)(r)
      {
        if Deliverable(c, now)(r) {
          NoneNewlyDue(l.table, op, c, now, r);
        }
      }
    }
  }

  lemma RowsOrdered(l: Ledger)
    requires Orderly(l)
    ensures Ordered(l.table)
  {
  }

  lemma RunsOut(l: Ledger, op: Op, c: string, r: Row)
    requires Orderly(l) && r in l.table.rows && InFlight(c)(r) && !(op.DoDeliver? && op.c == c)
    requires r.seq_ in Departed(l.table, op) && Departed(l.table, op)[r.seq_] == RanOut
    ensures LastRanOut(Step(l, op), c)
  {
    hide Apply, Departed;
    assert r.seq_ == LastOf(l.offers, c);
    var offered := MailboxRuns.Offers(l.table, op);
    if offered == [] {
      assert Step(l, op).offers == l.offers;
    } else {
      LastAppended(l.offers, op.c, offered[0].1, c);
    }
  }

  // ---- the calls of an event ----

  ghost predicate AllMild(ops: seq<Op>, c: string) { forall i :: 0 <= i < |ops| ==> Mild(ops[i], c) }

  lemma OrderlyStep(l: Ledger, op: Op, now: int)
    requires Orderly(l) && l.clock <= now && At(op, now)
    ensures Orderly(Step(l, op)) && Step(l, op).clock <= now
  {
    hide Orderly, Step;
    ClockStep(l, op, now);
    StepOrderly(l, op);
  }

  lemma ClockStep(l: Ledger, op: Op, now: int)
    requires l.clock <= now && At(op, now)
    ensures InOrder(l, op) && Step(l, op).clock <= now
  {
    hide Apply, Departed;
  }

  lemma StepOrderly(l: Ledger, op: Op)
    requires Orderly(l) && InOrder(l, op)
    ensures Orderly(Step(l, op))
  {
    hide Conserved, InTurn, Logged, Step;
    StepConserves(l, op);
    StepKeepsTurn(l, op);
    StepKeepsLogs(l, op);
  }

  lemma OneCallFlows(l: Ledger, op: Op, c: string, now: int)
    requires Orderly(l) && At(op, now) && Mild(op, c) && Flowing(l, c, now)
    ensures Flowing(Step(l, op), c, now)
  {
    hide Orderly, Flowing, Step;
    if op.DoDeliver? && op.c == c {
      DeliverFlows(l, c, now);
    } else {
      MildFlows(l, op, c, now);
    }
  }

  lemma {:induction false} CallsOrderly(l: Ledger, ops: seq<Op>, now: int)
    requires Orderly(l) && l.clock <= now && AllAt(ops, now)
    ensures Orderly(Run(l, ops)) && Run(l, ops).clock <= now
  {
    hide Orderly, Step;
    if ops != [] {
      CallsOrderly(l, ops[..|ops| - 1], now);
      assert At(ops[|ops| - 1], now);
      OrderlyStep(Run(l, ops[..|ops| - 1]), ops[|ops| - 1], now);
    }
  }

  lemma {:induction false} CallsFlow(l: Ledger, ops: seq<Op>, c: string, now: int)
    requires Orderly(l) && l.clock <= now && AllAt(ops, now)
    requires (ops != [] && ops[|ops| - 1] == DoDeliver(c, now)) || (AllMild(ops, c) && Flowing(l, c, now))
    ensures Flowing(Run(l, ops), c, now)
  {
    hide Orderly, Step, Flowing, Mild;
    if ops != [] {
      var front, op := ops[..|ops| - 1], ops[|ops| - 1];
      if op == DoDeliver(c, now) {
        DeliverFlows(Run(l, front), c, now);
      } else {
        CallsFlow(l, front, c, now);
        CallsOrderly(l, front, now);
        assert At(ops[|ops| - 1], now);
        OneCallFlows(Run(l, front), op, c, now);
      }
    }
  }

  // ---- which hosts an event leaves ready ----

  lemma ReadyOnce(s: Relay, g: nat, h: nat, c: string)
    requires Registry(s) && ReadyFor(s, g, c) && ReadyFor(s, h, c)
    ensures g == h
  {
    ReadyIsManned(s, g, c);
    ReadyIsManned(s, h, c);
  }

  /** The host stays ready over the event, and the event's calls are mild to its computer, or end in a delivery for it. */
  ghost predicate Served(s: Relay, e: Event, h: nat, c: string)
    requires Shaped(s) && Possible(s, e)
  {
    var ops := OpsOf(s, e);
    (ops != [] && ops[|ops| - 1] == DoDeliver(c, s.now)) || (ReadyFor(s, h, c) && AllMild(ops, c))
  }

  lemma RoomsKnown(s: Relay)
    requires Shaped(s)
    ensures forall g: nat :: g < |s.hosts| ==> s.hosts[g].room < |s.rooms|
  {
  }

  /** The calls of a host that leaves are mild to the computers that still have a ready host. */
  lemma RequeueMild(s: Relay, t: Relay, g: nat, h: nat, c: string)
    requires Registry(s) && g < |s.hosts| && s.hosts[g].room < |s.rooms|
    requires Dims(s, t) && ReadyFor(t, h, c) && (g < |t.hosts| ==> !t.hosts[g].ready)
    ensures ReadyFor(s, h, c) && AllMild(RequeueOps(s, g), c)
  {
    DimsReady(s, t, h, c);
    if s.hosts[g].ready && s.rooms[s.hosts[g].room].id == c {
      ReadyOnce(s, g, h, c);
    }
  }

  lemma EnsureDims(s: Relay, c: string)
    ensures Dims(s, EnsureRoom(s, c))
  {
  }

  lemma SeatDims(s: Relay, r: nat)
    requires r < |s.rooms|
    ensures Dims(s, Seat(s, r)) && forall g: nat :: g < |s.hosts| ==> Seat(s, r).hosts[g] == s.hosts[g]
  {
  }

  lemma ConnectServed(s: Relay, c0: string, h: nat, c: string)
    requires Registry(s) && ReadyFor(AttachHost(s, c0), h, c)
    ensures ReadyFor(s, h, c) && AllMild(ConnectOps(s, c0), c)
  {
    hide DropHost, Dims, RequeueOps, Seat;
    var seated := EnsureRoom(s, c0);
    EnsureRoomShaped(s, c0);
    EnsureRoomKeepsRegistry(s, c0);
    EnsureDims(s, c0);
    var r := seated.index[c0];
    assert RoomShaped(seated, r);
    var t := ReplaceHost(seated, r);
    SeatDims(t, r);
    DimsSelf(seated);
    var previous := seated.rooms[r].host;
    if previous.Some? {
      DropHostDims(seated, previous.value, true);
    }
    DimsJoins(s, seated, t);
    DimsJoins(s, t, Seat(t, r));
    DimsReady(s, Seat(t, r), h, c);
    if c0 in s.index && previous.Some? {
      RequeueMild(s, Seat(t, r), previous.value, h, c);
    }
  }

  lemma DimsSelf(s: Relay)
    ensures Dims(s, s)
  {
  }

  lemma AttachDeviceDims(s: Relay, c: string, dk: string, pair: bool, offer: string)
    requires Shaped(s)
    ensures Dims(s, AttachDevice(s, c, dk, pair, offer))
  {
    EnsureRoomShaped(s, c);
    var t := EnsureRoom(s, c);
    assert RoomShaped(t, t.index[c]);
  }

  lemma {:induction false} DropShutDims(s: Relay, acl: Acl, ds: seq<nat>)
    requires Shaped(s) && Known(ds, |s.devs|)
    ensures Dims(s, DropShut(s, acl, ds))
    decreases |ds|
  {
    hide DropDevice, Dims, Shaped, Shut;
    DimsSelf(s);
    if ds != [] {
      var t := DropShut(s, acl, ds[..|ds| - 1]);
      DropShutDims(s, acl, ds[..|ds| - 1]);
      DropDeviceDims(t, ds[|ds| - 1]);
      DimsJoins(s, t, DropDevice(t, ds[|ds| - 1]));
    }
  }

  lemma SendHostDims(s: Relay, h: nat, msg: HostMsg)
    requires h < |s.hosts|
    ensures Dims(s, SendHost(s, h, msg))
  {
  }

  lemma AclDims(s: Relay, h: nat, verdict: Option<Acl>)
    requires Shaped(s) && h < |s.hosts|
    ensures Dims(s, OnAclChecked(s, h, verdict))
  {
    hide DropShut, Dims;
    var r := s.hosts[h].room;
    var id := s.rooms[r].id;
    var current := if id in s.acls then s.acls[id].ver else 0;
    if verdict.Some? && verdict.value.computer == id && verdict.value.ver > current {
      var saved := s.(acls := s.acls[id := verdict.value]);
      ShapedByRooms(s, saved);
      assert RoomShaped(saved, r);
      SavedDims(s, saved);
      DropShutDims(saved, verdict.value, s.rooms[r].devices);
      var dropped := DropShut(saved, verdict.value, s.rooms[r].devices);
      SendHostDims(dropped, h, HostTold("acl.ok"));
      DimsJoins(s, saved, dropped);
      DimsJoins(s, dropped, SendHost(dropped, h, HostTold("acl.ok")));
    } else {
      SendHostDims(s, h, HostTold("badAcl"));
      SendHostDims(s, h, HostTold("staleVersion"));
    }
  }

  lemma SavedDims(s: Relay, t: Relay)
    requires t.rooms == s.rooms && t.hosts == s.hosts
    ensures Dims(s, t)
  {
  }

  // ---- a device's message ----

  lemma MessageDims(s: Relay, d: nat, says: DeviceSays)
    requires Shaped(s) && d < |s.devs|
    ensures Dims(s, OnMessage(s, d, says))
  {
    hide DropDevice, Put, Cancel, Listing;
    assert RoomShaped(s, s.devs[d].room);
    DropDeviceDims(s, d);
  }

  lemma DeviceDims(s: Relay, d: nat, says: DeviceSays, size: nat)
    requires Shaped(s) && d < |s.devs|
    ensures Dims(s, FromDeviceSocket(s, d, says, size))
  {
    hide DropDevice, OnMessage, Dims, OverLimit;
    var t := HearDevice(s, d);
    ShapedByRooms(s, t);
    SavedDims(s, t);
    DropDeviceDims(t, d);
    DimsJoins(s, t, DropDevice(t, d));
    var counted := Counted(t, d, size);
    ShapedByRooms(t, counted);
    SavedDims(s, counted);
    DropDeviceDims(counted, d);
    DimsJoins(s, counted, DropDevice(counted, d));
    MessageDims(counted, d, says);
    DimsJoins(s, counted, OnMessage(counted, d, says));
  }

  lemma DeviceMild(s: Relay, d: nat, says: DeviceSays, size: nat, h: nat, c: string)
    requires Registry(s) && d < |s.devs| && ReadyFor(s, h, c)
    ensures AllMild(DeviceOps(s, d, says, size), c)
  {
    hide OverLimit;
    var r := s.devs[d].room;
    assert DeviceOk(s, d) && RoomOk(s, r) && RoomShaped(s, r);
    ReadyIsManned(s, h, c);
  }

  // ---- a host's frame ----

  /** Only `h` may be newly ready. */
  predicate DimsBut(s: Relay, t: Relay, h: nat) {
    && |t.rooms| == |s.rooms| && |t.hosts| == |s.hosts| && (forall r: nat :: r < |s.rooms| ==> t.rooms[r].id == s.rooms[r].id)
    && (forall g: nat :: g < |s.hosts| && (t.hosts[g].ready || g == h) ==> t.hosts[g].room == s.hosts[g].room)
    && (forall g: nat :: g < |s.hosts| && g != h && t.hosts[g].ready ==> s.hosts[g].ready)
  }

  lemma DeliverDims(s: Relay, h: nat)
    requires h < |s.hosts| && s.hosts[h].room < |s.rooms|
    ensures Dims(s, Deliver(s, h))
  {
    hide DeliverNext;
  }

  lemma ReadySaidBut(s: Relay, h: nat)
    requires Shaped(s) && h < |s.hosts| && Seated(s, h) && !s.hosts[h].ready && s.rooms[s.hosts[h].room].id in s.acls
    ensures DimsBut(s, OnReady(s, h), h)
  {
    hide Announce, OpenAll, DeliverNext;
    ReadiedEffect(s, h);
  }

  lemma OtherHostFrameDims(s: Relay, h: nat, says: HostSays)
    requires Shaped(s) && h < |s.hosts| && Seated(s, h) && !says.ReadySaid?
    ensures
      var t := HearHost(s, h);
      && Shaped(t)
      && Dims(s, match says
                 case DataSaid(link, m) => OnData(t, h, link, m)
                 case CloseSaid(link) => OnCloseDevice(t, h, link)
                 case AckSaid(number, ok, code) => OnAck(t, h, number, AckOutcome(ok, code))
                 case OtherSaid(answer) => if answer.Some? then SendHost(t, h, HostTold(answer.value)) else t
                 case _ => t)
  {
    hide DropDevice, Deliver, Ack, NoteTo, AckOutcome;
    var t := HearHost(s, h);
    ShapedByRooms(s, t);
    assert RoomShaped(t, t.hosts[h].room);
    match says
    case CloseSaid(link) => CloseSaidDims(s, t, h, link);
    case AckSaid(number, ok, code) => AckSaidDims(s, t, h, number, AckOutcome(ok, code));
    case _ =>
  }

  lemma CloseSaidDims(s: Relay, t: Relay, h: nat, link: nat)
    requires Dims(s, t) && Shaped(t) && h < |t.hosts|
    ensures Dims(s, OnCloseDevice(t, h, link))
  {
    hide DropDevice, Dims;
    assert RoomShaped(t, t.hosts[h].room);
    if link in t.rooms[t.hosts[h].room].devices {
      DropDeviceDims(t, link);
      DimsJoins(s, t, DropDevice(t, link));
    }
  }

  lemma AckSaidDims(s: Relay, t: Relay, h: nat, number: Option<int>, outcome: Outcome)
    requires Dims(s, t) && Shaped(t) && h < |t.hosts|
    ensures Dims(s, OnAck(t, h, number, outcome))
  {
    hide Ack, Deliver, Dims, NoteTo;
    var r := t.hosts[h].room;
    var (box, note) := Ack(t.box, t.rooms[r].id, number, outcome);
    var acked := t.(box := box);
    NoteToKeeps(acked, r, note);
    var noted := if note.Some? then NoteTo(acked, r, note.value) else acked;
    SavedDims(t, noted);
    DeliverDims(noted, h);
    DimsJoins(s, t, noted);
    DimsJoins(s, noted, Deliver(noted, h));
  }

  ghost predicate HostServed(s: Relay, g: nat, says: HostSays, h: nat, c: string)
    requires g < |s.hosts| && s.hosts[g].room < |s.rooms|
  {
    var ops := HostOps(s, g, says);
    (ops != [] && ops[|ops| - 1] == DoDeliver(c, s.now)) || (ReadyFor(s, h, c) && AllMild(ops, c))
  }

  lemma HeardDims(s: Relay, g: nat)
    requires g < |s.hosts|
    ensures Dims(s, HearHost(s, g))
  {
  }

  lemma ReadySaidServed(s: Relay, g: nat, h: nat, c: string)
    requires Registry(s) && g < |s.hosts| && Seated(s, g) && Shaped(HearHost(s, g)) && ReadyFor(OnReady(HearHost(s, g), g), h, c)
    ensures HostServed(s, g, ReadySaid, h, c)
  {
    hide OnReady, Deliver, Dims;
    var t := HearHost(s, g);
    HeardDims(s, g);
    RoomsKnown(s);
    if !s.hosts[g].ready && s.rooms[s.hosts[g].room].id in s.acls {
      ReadySaidBut(t, g);
    } else {
      StillAsReady(t, g);
      DimsJoins(s, t, OnReady(t, g));
      DimsReady(s, OnReady(t, g), h, c);
    }
  }

  lemma StillAsReady(s: Relay, g: nat)
    requires Shaped(s) && g < |s.hosts| && (s.hosts[g].ready || s.rooms[s.hosts[g].room].id !in s.acls)
    ensures Dims(s, OnReady(s, g))
  {
    hide Deliver, Announce, OpenAll;
  }

  lemma AckSaidServed(s: Relay, g: nat, number: Option<int>, ok: bool, code: Field, h: nat, c: string)
    requires Registry(s) && g < |s.hosts| && Seated(s, g) && ReadyFor(s, h, c)
    ensures HostServed(s, g, AckSaid(number, ok, code), h, c)
  {
    hide AckOutcome;
    var r := s.hosts[g].room;
    assert HostOk(s, g) && RoomOk(s, r) && RoomShaped(s, r);
    ReadyIsManned(s, h, c);
    var ops := HostOps(s, g, AckSaid(number, ok, code));
    if s.rooms[r].id == c {
      assert ops[|ops| - 1] == DoDeliver(c, s.now);
    }
  }

  lemma FrameServed(s: Relay, g: nat, says: HostSays, h: nat, c: string)
    requires Registry(s) && g < |s.hosts| && ReadyFor(FromHostSocket(s, g, says), h, c)
    ensures HostServed(s, g, says, h, c)
  {
    hide OnReady, OnData, OnCloseDevice, OnAck, Dims, Registry, AckOutcome;
    RegistryIsShaped(s);
    var t := HearHost(s, g);
    HeardDims(s, g);
    ShapedByRooms(s, t);
    RoomsKnown(s);
    if !Seated(s, g) {
      DimsReady(s, t, h, c);
    } else if says.ReadySaid? {
      ReadySaidServed(s, g, h, c);
    } else {
      OtherHostFrameDims(s, g, says);
      DimsReady(s, FromHostSocket(s, g, says), h, c);
      if says.AckSaid? {
        AckSaidServed(s, g, says.number, says.ok, says.code, h, c);
      }
    }
  }

  lemma RegistryIsShaped(s: Relay)
    requires Registry(s)
    ensures Shaped(s)
  {
  }

  // ---- the sweep ----

  lemma {:induction false} SweepDevicesDims(s: Relay, ds: seq<nat>)
    requires Shaped(s) && Known(ds, |s.devs|)
    ensures Dims(s, SweepDevices(s, ds))
    decreases |ds|
  {
    hide DropDevice, Dims, Shaped, TimedOut;
    DimsSelf(s);
    if ds != [] {
      var t := SweepDevices(s, ds[..|ds| - 1]);
      SweepDevicesDims(s, ds[..|ds| - 1]);
      DropDeviceDims(t, ds[|ds| - 1]);
      DimsJoins(s, t, DropDevice(t, ds[|ds| - 1]));
    }
  }

  lemma {:induction false} NoteAllDims(s: Relay, r: nat, notes: seq<Note>)
    requires r < |s.rooms|
    ensures Dims(s, NoteAll(s, r, notes))
  {
    hide NoteAll;
    SavedDims(s, NoteAll(s, r, notes));
  }

  lemma SweepRoomDims(s: Relay, r: nat)
    requires Registry(s) && r < |s.rooms|
    ensures Dims(s, SweepRoom(s, r)) && Dims(SweepHost(s, r), SweepRoom(s, r))
  {
    hide DropHost, SweepDevices, NoteAll, Expire, Dims;
    assert RoomShaped(s, r);
    var quiet := SweepHost(s, r);
    DimsSelf(s);
    if s.rooms[r].host.Some? {
      DropHostDims(s, s.rooms[r].host.value, false);
    }
    assert RoomShaped(quiet, r);
    var swept := SweepDevices(quiet, quiet.rooms[r].devices);
    SweepDevicesDims(quiet, quiet.rooms[r].devices);
    var (box, notes) := Expire(swept.box, swept.rooms[r].id, swept.now);
    SavedDims(swept, swept.(box := box));
    NoteAllDims(swept.(box := box), r, notes);
    DimsJoins(quiet, swept, swept.(box := box));
    DimsJoins(quiet, swept.(box := box), NoteAll(swept.(box := box), r, notes));
    DimsJoins(s, quiet, NoteAll(swept.(box := box), r, notes));
  }

  lemma SweepRoomServed(s: Relay, r: nat, h: nat, c: string)
    requires Registry(s) && r < |s.rooms| && ReadyFor(SweepRoom(s, r), h, c)
    ensures ReadyFor(s, h, c) && AllMild(SweepRoomOps(s, r), c)
  {
    hide DropHost, SweepRoom, Registry, RequeueOps;
    RegistryIsShaped(s);
    SweepRoomDims(s, r);
    RoomsKnown(s);
    DimsReady(s, SweepRoom(s, r), h, c);
    assert RoomShaped(s, r);
    var host := s.rooms[r].host;
    if host.Some? && s.now - s.hosts[host.value].heard > SILENT_TIMEOUT_MS {
      DropHostDims(s, host.value, false);
      RequeueMild(s, SweepRoom(s, r), host.value, h, c);
    }
  }

  lemma {:induction false} SweepRoomsServed(s: Relay, n: nat, h: nat, c: string)
    requires Inv(s) && n <= |s.rooms| && ReadyFor(SweepRooms(s, n), h, c)
    ensures Shaped(s) && ReadyFor(s, h, c) && AllMild(SweepRoomsOps(s, n), c)
  {
    hide SweepRoom, Inv, Registry, Shaped, ReadyFor, SweepRoomOps, Mild;
    InvIsRegistry(s);
    if n > 0 {
      SweepRoomsKeeps(s, n - 1);
      var t := SweepRooms(s, n - 1);
      InvIsRegistry(t);
      if Indexed(t, n - 1) {
        SweepRoomServed(t, n - 1, h, c);
      }
      SweepRoomsServed(s, n - 1, h, c);
    }
  }

  lemma SweepServed(s: Relay, h: nat, c: string)
    requires Inv(s) && ReadyFor(Sweep(s), h, c)
    ensures Shaped(s) && Served(s, Sweeps, h, c)
  {
    hide Inv, Registry, Shaped, SweepRooms, SweepRoomsOps;
    InvIsRegistry(s);
    SweepRoomsServed(s, |s.rooms|, h, c);
  }

  // ---- every event ----

  lemma NextServed(s: Relay, e: Event, h: nat, c: string)
    requires Inv(s) && Possible(s, e) && ReadyFor(Next(s, e), h, c)
    ensures Shaped(s) && Served(s, e, h, c)
  {
    hide Inv, Registry, AttachHost, AttachDevice, FromHostSocket, OnAclChecked, DropHost, FromDeviceSocket, DropDevice, Sweep, Dims,
      ConnectOps, HostOps, DeviceOps, RequeueOps, SweepRoomsOps, CloseHost, CloseDevice;
    InvIsRegistry(s);
    RegistryIsShaped(s);
    RoomsKnown(s);
    match e
    case HostConnects(a) => ConnectServed(s, a, h, c);
    case DeviceConnects(a, dk, pair, offer) =>
      AttachDeviceDims(s, a, dk, pair, offer);
      DimsReady(s, Next(s, e), h, c);
    case HostSpeaks(g, says) => FrameServed(s, g, says, h, c);
    case AclVerified(g, verdict) =>
      AclDims(s, g, verdict);
      DimsReady(s, Next(s, e), h, c);
    case HostEnds(g) =>
      DropHostDims(s, g, false);
      RequeueMild(s, Next(s, e), g, h, c);
    case DeviceSpeaks(d, says, size) =>
      DeviceDims(s, d, says, size);
      DimsReady(s, Next(s, e), h, c);
      DeviceMild(s, d, says, size, h, c);
    case DeviceEnds(d) =>
      DropDeviceDims(s, d);
      DimsReady(s, Next(s, e), h, c);
    case Sweeps => SweepServed(s, h, c);
    case Restarts =>
    case _ =>
      StallDims(s, e);
      DimsReady(s, Next(s, e), h, c);
  }

  lemma StallDims(s: Relay, e: Event)
    requires Shaped(s) && Possible(s, e) && (e.HostStalls? || e.DeviceStalls? || e.Tick?)
    ensures Dims(s, Next(s, e))
  {
  }

  lemma FlowsLater(l: Ledger, c: string, now: int, later: int)
    requires Flowing(l, c, now) && now <= later
    ensures Flowing(l, c, later)
  {
    if !FlightOf(l.table, c) && !LastRanOut(l, c) {
      forall r | r in l.table.rows
        ensures !Deliverable(c, later)(r)
      {
        assert !Deliverable(c, now)(r);
      }
    }
  }

  lemma EventFlows(s: Relay, e: Event, l: Ledger, h: nat, c: string)
    requires Inv(s) && Shaped(s) && Possible(s, e) && Orderly(l) && l.clock <= s.now && ReadyFor(Next(s, e), h, c)
    requires ReadyFor(s, h, c) ==> Flowing(l, c, s.now)
    ensures Flowing(Run(l, OpsOf(s, e)), c, Next(s, e).now)
  {
    hide Inv, Shaped, Possible, Next, OpsOf, Orderly, Flowing, ReadyFor, Run;
    NextServed(s, e, h, c);
    OpsAt(s, e);
    CallsFlow(l, OpsOf(s, e), c, s.now);
    NextClock(s, e);
    FlowsLater(Run(l, OpsOf(s, e)), c, s.now, Next(s, e).now);
  }

  lemma {:induction false} RunFlows(now: nat, es: seq<Event>, h: nat, c: string)
    requires Feasible(now, es) && ReadyFor(After(now, es), h, c)
    ensures Flowing(Run(START, Calls(now, es)), c, After(now, es).now)
  {
    hide Inv, Shaped, Possible, Next, OpsOf, Orderly, Flowing, ReadyFor, Run;
    if es == [] {
      NoneReadyYet(now, h, c);
    } else {
      var front, e := es[..|es| - 1], es[|es| - 1];
      var s := After(now, front);
      RunKeeps(now, front);
      RunIsMailboxRun(now, front);
      RunIsOrderly(Calls(now, front));
      if ReadyFor(s, h, c) {
        RunFlows(now, front, h, c);
      }
      EventFlows(s, e, Run(START, Calls(now, front)), h, c);
      RunJoins(START, Calls(now, front), OpsOf(s, e));
    }
  }

  lemma NoneReadyYet(now: nat, h: nat, c: string)
    ensures !ReadyFor(Fresh(now), h, c)
  {
  }
}
