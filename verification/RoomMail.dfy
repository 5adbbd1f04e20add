/** What each event of the private relay does to each item of its mailbox: held, sent, taken out or put in. */
module RoomMail {
  import opened Wrappers
  import opened Sequences
  import opened Base64Url
  import opened MailboxItems
  import opened MailboxTable
  import opened MailboxRuns
  import MailboxAnswers
  import RateLimit
  import opened RoomState
  import opened RoomInvariants
  import opened RoomSteps
  import opened RoomSweeps
  import opened RoomRuns
  import opened RoomGuarantees
  import opened RoomExits
  import opened RoomTalk
  import opened RoomVoices
  import HostTalk

  // ---- one call ----

  /** The item is in the table, in some state. */
  ghost predicate Held(t: Table, r: Row) {
    exists q :: q in t.rows && SameButState(q, r)
  }

  /** The call takes the item out. */
  predicate Taken(op: Op, r: Row) {
    match op
    case DoAck(c, number, _) => r.item.state.Delivering? && r.computer == c && number == Some(r.seq_) && r.seq_ <= 0x1F_FFFF_FFFF_FFFF
    case DoCancel(c, dk, nonce) => r.item.state.Queued? && r.computer == c && r.item.dk == dk && r.item.nonce == CancelNonce(nonce)
    case DoExpire(c, now) => r.computer == c && r.item.exp <= now
    case DoExpireAll(now) => r.item.exp <= now
    case _ => false
  }

  lemma CancelFinds(t: Table, r: Row)
    requires KeysUnique(t) && r in t.rows
    ensures First(t.rows, Keyed(r.computer, r.item.dk, r.item.nonce)) == Some(r)
  {
    var found := First(t.rows, Keyed(r.computer, r.item.dk, r.item.nonce));
    assert Keyed(r.computer, r.item.dk, r.item.nonce)(r);
    assert SameKey(found.value, r);
  }

  lemma AckFindsRow(t: Table, r: Row)
    requires Ordered(t) && r in t.rows && r.item.state.Delivering?
    ensures First(t.rows, Acked(r.computer, r.seq_)) == Some(r)
  {
    FirstIsLeast(t.rows, Acked(r.computer, r.seq_), SeqOf(), r);
  }

  lemma SameNumber(t: Table, r: Row, q: Row)
    requires Ordered(t) && r in t.rows && q in t.rows && r.seq_ == q.seq_
    ensures r == q
  {
    KeysTellApart(t.rows, SeqOf(), r, q);
  }

  lemma DepartedIsTaken(t: Table, op: Op, r: Row)
    requires Valid(t) && r in t.rows
    ensures r.seq_ in Departed(t, op) <==> Taken(op, r)
  {
    hide Valid, Ordered, KeysUnique, Filter, First;
    ValidParts(t);
    match op
    case DoAck(c, number, _) =>
      if number.Some? {
        AckTakes(t, c, number.value, r);
      }
    case DoCancel(c, dk, nonce) => CancelTakes(t, c, dk, CancelNonce(nonce), r);
    case DoExpire(c, now) => NumbersOf(t, Expired(c, now), r);
    case DoExpireAll(now) => NumbersOf(t, Outdated(now), r);
    case _ =>
  }

  lemma ValidParts(t: Table)
    requires Valid(t)
    ensures Ordered(t) && KeysUnique(t)
  {
  }

  lemma AckTakes(t: Table, c: string, n: int, r: Row)
    requires Ordered(t) && r in t.rows
    ensures First(t.rows, Acked(c, n)).Some? && First(t.rows, Acked(c, n)).value.seq_ == r.seq_ <==>
      r.item.state.Delivering? && r.computer == c && r.seq_ == n
  {
    var found := First(t.rows, Acked(c, n));
    if found.Some? && found.value.seq_ == r.seq_ {
      SameNumber(t, r, found.value);
    }
    if r.item.state.Delivering? && r.computer == c && r.seq_ == n {
      AckFindsRow(t, r);
    }
  }

  lemma CancelTakes(t: Table, c: string, dk: string, nonce: string, r: Row)
    requires Ordered(t) && KeysUnique(t) && r in t.rows
    ensures First(t.rows, Keyed(c, dk, nonce)).Some? && First(t.rows, Keyed(c, dk, nonce)).value.seq_ == r.seq_ <==>
      r.computer == c && r.item.dk == dk && r.item.nonce == nonce
    ensures r.computer == c && r.item.dk == dk && r.item.nonce == nonce ==> First(t.rows, Keyed(c, dk, nonce)).value == r
  {
    var found := First(t.rows, Keyed(c, dk, nonce));
    if found.Some? && found.value.seq_ == r.seq_ {
      SameNumber(t, r, found.value);
    }
    if r.computer == c && r.item.dk == dk && r.item.nonce == nonce {
      CancelFinds(t, r);
    }
  }

  lemma NumbersOf(t: Table, p: Row -> bool, r: Row)
    requires Ordered(t) && r in t.rows
    ensures r.seq_ in Numbers(Filter(t.rows, p)) <==> p(r)
  {
    if r.seq_ in Numbers(Filter(t.rows, p)) {
      var q :| q in Filter(t.rows, p) && q.seq_ == r.seq_;
      SameNumber(t, r, q);
    }
    if p(r) {
      assert r in Filter(t.rows, p);
    }
  }

  /**
   * A call takes an item out exactly when it acknowledges it while it is in flight, withdraws it under its own key
   * while it is queued, or finds it expired; otherwise the item is still held, but for its state.
   */
  lemma CallTakesExactly(t: Table, op: Op, r: Row)
    requires Valid(t) && r in t.rows
    ensures Held(Apply(t, op).0, r) <==> !Taken(op, r)
    ensures Taken(op, r) ==> r.seq_ in Departed(t, op)
    ensures Taken(op, r) ==> Departed(t, op)[r.seq_] == (if op.DoAck? then Acknowledged else if op.DoCancel? then Withdrawn else RanOut)
  {
    hide Apply, Departed, Valid, Taken;
    DepartedIsTaken(t, op, r);
    ValidParts(t);
    RowAfter(t, op, r);
    FateIsOps(t, op, r.seq_);
    if Held(Apply(t, op).0, r) {
      var q :| q in Apply(t, op).0.rows && SameButState(q, r);
      RowBefore(t, op, q);
    }
  }

  lemma FateIsOps(t: Table, op: Op, n: nat)
    ensures n in Departed(t, op) ==> Departed(t, op)[n] == (if op.DoAck? then Acknowledged else if op.DoCancel? then Withdrawn else RanOut)
  {
  }

  // ---- one event ----

  /** The item's device, connected and not there for pairing, withdraws it while it is queued. */
  predicate Withdraws(s: Relay, e: Event, r: Row)
    requires Possible(s, e)
  {
    && e.DeviceSpeaks? && e.says.CancelSaid? && r.item.state.Queued?
    && (e.says.nonce == Text(r.item.nonce) || (!e.says.nonce.Text? && r.item.nonce == ""))
    && !s.devs[e.d].left && !s.devs[e.d].pair && !Rejected(s, e.d, e.says, e.size)
    && s.devs[e.d].dk == r.item.dk && s.devs[e.d].room < |s.rooms| && s.rooms[s.devs[e.d].room].id == r.computer
  }

  /** The event takes the item out of the mailbox. */
  ghost predicate TakenBy(s: Relay, e: Event, r: Row)
    requires Possible(s, e)
  {
    Acknowledges(s, e, r) || Withdraws(s, e, r) || (e.Sweeps? && r.item.exp <= s.now)
  }

  /**
   * An item leaves the mailbox exactly when the host in charge acknowledges it in flight, its device withdraws it
   * queued, or a sweep finds it expired; every other event keeps it, but for its state.
   */
  lemma ItemLeavesExactly(s: Relay, e: Event, r: Row)
    requires Reachable(s) && Shaped(s) && Possible(s, e) && r in s.box.rows
    ensures Held(Next(s, e).box, r) <==> !TakenBy(s, e, r)
  {
    hide Reachable, Inv, Next, Held, Shaped, HostOps, DeviceOps, ConnectOps, RequeueOps, SweepRoomsOps, Through, InCharge, Rejected,
      CancelNonce;
    ReachableInv(s);
    NextCalls(s, e);
    match e
    case HostSpeaks(h, says) => FrameTakes(s, h, says, r);
    case DeviceSpeaks(d, says, size) => DeviceTakes(s, d, says, size, r);
    case Sweeps => SweepTakesOld(s, r);
    case _ => OthersTakeNone(s, e, r);
  }

  lemma Lasts(t: Table, op: Op, r: Row)
    requires Valid(t) && Held(t, r) && (op.DoDeliver? || op.DoRequeue? || op.DoRestart? || (op.DoExpire? && op.now < r.item.exp))
    ensures Held(Apply(t, op).0, r)
  {
    hide Apply, Valid;
    var q :| q in t.rows && SameButState(q, r);
    CallTakesExactly(t, op, q);
    var p :| p in Apply(t, op).0.rows && SameButState(p, q);
    assert SameButState(p, r);
  }

  /** Calls that only move items in and out of flight, or expire what has run out by `now`. */
  predicate Harmless(op: Op, now: int) {
    op.DoDeliver? || op.DoRequeue? || op.DoRestart? || (op.DoExpire? && op.now == now)
  }

  ghost predicate AllHarmless(ops: seq<Op>, now: int) { forall i :: 0 <= i < |ops| ==> Harmless(ops[i], now) }

  lemma {:induction false} LastsThrough(t: Table, ops: seq<Op>, r: Row, now: int)
    requires Valid(t) && Held(t, r) && AllHarmless(ops, now) && now < r.item.exp
    ensures Valid(Through(t, ops)) && Held(Through(t, ops), r)
  {
    hide Valid, Held, Apply, Harmless;
    if ops != [] {
      var front := ops[..|ops| - 1];
      LastsThrough(t, front, r, now);
      ApplyKeepsValid(Through(t, front), ops[|ops| - 1]);
      HarmlessLasts(Through(t, front), ops[|ops| - 1], r, now);
    }
  }

  lemma HarmlessLasts(t: Table, op: Op, r: Row, now: int)
    requires Valid(t) && Held(t, r) && Harmless(op, now) && now < r.item.exp
    ensures Held(Apply(t, op).0, r)
  {
    hide Valid, Held, Apply;
    Lasts(t, op, r);
  }

  lemma HeldNow(t: Table, r: Row)
    requires r in t.rows
    ensures Held(t, r)
  {
    assert SameButState(r, r);
  }

  lemma OthersTakeNone(s: Relay, e: Event, r: Row)
    requires Inv(s) && Shaped(s) && Possible(s, e) && r in s.box.rows && !e.HostSpeaks? && !e.DeviceSpeaks? && !e.Sweeps?
    ensures Held(Through(s.box, OpsOf(s, e)), r) && !TakenBy(s, e, r)
  {
    hide Held, Apply, Traces, Presences, NoEmptyRoom, Valid, Registry, Shaped;
    InvIsRegistry(s);
    HeldNow(s.box, r);
    Empty(s.box);
    var ops := OpsOf(s, e);
    if ops != [] {
      One(s.box, ops[0]);
      Lasts(s.box, ops[0], r);
    }
  }

  lemma DeliverHolds(t: Table, ops: seq<Op>, r: Row)
    requires Valid(t) && (ops == [] || (|ops| == 1 && ops[0].DoDeliver?))
    ensures Held(Through(t, ops), r) <==> Held(t, r)
  {
    hide Valid, Apply;
    Empty(t);
    if ops != [] {
      var op := ops[0];
      One(t, op);
      assert ops == [op];
      if Held(t, r) {
        Lasts(t, op, r);
      }
      if Held(Apply(t, op).0, r) {
        var q :| q in Apply(t, op).0.rows && SameButState(q, r);
        ValidParts(t);
        DeliverBefore(t, op, q);
        var p :| p in t.rows && SameButState(q, p);
        assert SameButState(p, r);
      }
    }
  }

  lemma DeliverBefore(t: Table, op: Op, q: Row)
    requires Ordered(t) && op.DoDeliver? && q in Apply(t, op).0.rows
    ensures exists p :: p in t.rows && SameButState(q, p)
  {
    RowBefore(t, op, q);
  }

  lemma FrameTakes(s: Relay, h: nat, says: HostSays, r: Row)
    requires Inv(s) && Shaped(s) && h < |s.hosts| && r in s.box.rows
    ensures Held(Through(s.box, HostOps(s, h, says)), r) <==> !Acknowledges(s, HostSpeaks(h, says), r)
  {
    hide Held, Apply, Traces, Presences, NoEmptyRoom, Valid, AckOutcome;
    InvIsRegistry(s);
    HeldNow(s.box, r);
    Empty(s.box);
    var c := s.rooms[s.hosts[h].room].id;
    if Seated(s, h) && says.ReadySaid? {
      if !s.hosts[h].ready && c in s.acls {
        One(s.box, DoDeliver(c, s.now));
        Lasts(s.box, DoDeliver(c, s.now), r);
      }
    } else if Seated(s, h) && says.AckSaid? {
      var ack := DoAck(c, says.number, AckOutcome(says.ok, says.code));
      CallTakesExactly(s.box, ack, r);
      ApplyKeepsValid(s.box, ack);
      One(s.box, ack);
      ThroughJoins(s.box, [ack], DeliverOps(s, h));
      if r.computer == c && r.item.state.Delivering? {
        AckedInCharge(s, h, r);
      }
      DeliverHolds(Apply(s.box, ack).0, DeliverOps(s, h), r);
    }
  }

  lemma AckedInCharge(s: Relay, h: nat, r: Row)
    requires Registry(s) && Flights(s) && h < |s.hosts| && Seated(s, h) && r in s.box.rows && r.item.state.Delivering?
    requires r.computer == s.rooms[s.hosts[h].room].id
    ensures InCharge(s, h)
  {
    assert Manned(s, r.computer);
    assert RoomOk(s, s.hosts[h].room) && RoomShaped(s, s.hosts[h].room) && HostOk(s, h);
  }

  lemma DeviceTakes(s: Relay, d: nat, says: DeviceSays, size: nat, r: Row)
    requires Inv(s) && Shaped(s) && d < |s.devs| && r in s.box.rows
    ensures Held(Through(s.box, DeviceOps(s, d, says, size)), r) <==> !Withdraws(s, DeviceSpeaks(d, says, size), r)
  {
    hide Held, Apply, Inv, Valid, OverLimit;
    InvIsRegistry(s);
    HeldNow(s.box, r);
    Empty(s.box);
    assert RoomShaped(s, s.devs[d].room);
    var ops := DeviceOps(s, d, says, size);
    if ops != [] {
      One(s.box, ops[0]);
      CallTakesExactly(s.box, ops[0], r);
    }
  }

  // ---- the sweep ----

  lemma RequeueHarmless(s: Relay, h: nat, now: int)
    requires h < |s.hosts| && s.hosts[h].room < |s.rooms|
    ensures AllHarmless(RequeueOps(s, h), now)
  {
  }

  lemma SweepRoomHarmless(s: Relay, r: nat)
    requires Shaped(s) && r < |s.rooms|
    ensures AllHarmless(SweepRoomOps(s, r), s.now)
  {
    assert RoomShaped(s, r);
  }

  lemma {:induction false} SweepHarmless(s: Relay, n: nat)
    requires Shaped(s) && n <= |s.rooms|
    ensures AllHarmless(SweepRoomsOps(s, n), s.now)
  {
    hide SweepRoomOps, Shaped, AllHarmless, SweepRoom, Indexed, Through;
    NoneHarmful(s.now);
    if n > 0 {
      SweepHarmless(s, n - 1);
      SweepRoomsCalls(s, n - 1);
      var t := SweepRooms(s, n - 1);
      SweepRoomHarmless(t, n - 1);
      HarmlessJoins(SweepRoomsOps(s, n - 1), if Indexed(t, n - 1) then SweepRoomOps(t, n - 1) else [], s.now);
    }
  }

  lemma NoneHarmful(now: int)
    ensures AllHarmless([], now)
  {
  }

  lemma HarmlessJoins(a: seq<Op>, b: seq<Op>, now: int)
    requires AllHarmless(a, now) && AllHarmless(b, now)
    ensures AllHarmless(a + b, now)
  {
    hide Harmless;
    forall i | 0 <= i < |a + b|
      ensures Harmless((a + b)[i], now)
    {
      assert i >= |a| ==> Harmless(b[i - |a|], now);
    }
  }

  lemma SweepTakesOld(s: Relay, r: Row)
    requires Inv(s) && Shaped(s) && r in s.box.rows
    ensures Held(Through(s.box, OpsOf(s, Sweeps)), r) <==> r.item.exp > s.now
  {
    hide Held, Inv, SweepRoomsOps, Shaped, Valid, AllHarmless;
    InvIsRegistry(s);
    HeldNow(s.box, r);
    var ops := SweepRoomsOps(s, |s.rooms|);
    SweepHarmless(s, |s.rooms|);
    assert (ops + [DoExpireAll(s.now)])[..|ops|] == ops;
    if r.item.exp > s.now {
      LastsThrough(s.box, ops, r, s.now);
      SweptOut(Through(s.box, ops), r, s.now);
    } else {
      NoneOutdated(Through(s.box, ops), r, s.now);
    }
  }

  lemma SweptOut(t: Table, r: Row, now: int)
    requires Valid(t) && Held(t, r) && r.item.exp > now
    ensures Held(ExpireAll(t, now), r)
  {
    var q :| q in t.rows && SameButState(q, r);
    assert q in ExpireAll(t, now).rows;
  }

  lemma NoneOutdated(t: Table, r: Row, now: int)
    requires r.item.exp <= now
    ensures !Held(ExpireAll(t, now), r)
  {
  }

  // ---- what goes out, and what comes in ----

  /** The item is queued and has not expired. */
  predicate Due(r: Row, c: string, now: int) { r.computer == c && r.item.state.Queued? && r.item.exp > now }

  /** The delivery puts the oldest item that is due in flight, when there is one and none is in flight. */
  lemma DeliversOldest(t: Table, c: string, now: int, r: Row)
    requires Ordered(t)
    ensures DeliverNext(t, c, now).1 == Some(r) <==>
      && r in t.rows && Due(r, c, now)
      && (forall q :: q in t.rows && q.computer == c ==> q.item.state.Queued?)
      && (forall q :: q in t.rows && Due(q, c, now) ==> r.seq_ <= q.seq_)
  {
    var flying := First(t.rows, InFlight(c));
    var found := First(t.rows, Deliverable(c, now));
    assert flying.None? <==> forall q :: q in t.rows && q.computer == c ==> q.item.state.Queued? by {
      if flying.None? {
        forall q | q in t.rows && q.computer == c
          ensures q.item.state.Queued?
        {
          assert !InFlight(c)(q);
        }
      }
    }
    forall q | q in t.rows && Due(q, c, now)
      ensures found.Some? && found.value.seq_ <= q.seq_
    {
      FirstIsLeast(t.rows, Deliverable(c, now), SeqOf(), q);
    }
    if found.Some? && r in t.rows && found.value.seq_ == r.seq_ {
      SameNumber(t, r, found.value);
    }
  }

  /** The table as a delivery to the host in charge finds it. */
  function Offering(s: Relay, e: Event): Table
    requires Shaped(s) && Possible(s, e)
  {
    if e.HostSpeaks? && e.hostSays.AckSaid? then
      Ack(s.box, s.rooms[s.hosts[e.h].room].id, e.hostSays.number, AckOutcome(e.hostSays.ok, e.hostSays.code)).0
    else s.box
  }

  /** The event has the host's next item delivered: it becomes ready, or acknowledges while in charge. */
  predicate Collects(s: Relay, e: Event, g: nat)
    requires Shaped(s) && Possible(s, e)
  {
    e.HostSpeaks? && e.h == g && ((e.hostSays.ReadySaid? && HostTalk.Rises(s, g)) || (e.hostSays.AckSaid? && InCharge(s, g)))
  }

  lemma ShipsOffering(s: Relay, e: Event, g: nat)
    requires Reachable(s) && Shaped(s) && Possible(s, e) && g < |Next(s, e).hosts|
    ensures !(g < |s.hosts| && Collects(s, e, g)) ==>
      HostTalk.Told(Next(s, e).hosts[g], HostTalk.Shipments) == ToldBefore(s, g, HostTalk.Shipments)
    ensures g < |s.hosts| && Collects(s, e, g) ==>
      var (box, sent) := DeliverNext(Offering(s, e), s.rooms[s.hosts[g].room].id, s.now);
      && Next(s, e).box == box
      && HostTalk.Told(Next(s, e).hosts[g], HostTalk.Shipments)
           == ToldBefore(s, g, HostTalk.Shipments) + (if sent.Some? && s.hosts[g].open then [ItemSent(sent.value)] else [])
  {
    hide Reachable, Inv, FromHostSocket, HostTalk.Told, DeliverNext, Ack, HostTalk.Rises, InCharge, AckOutcome;
    ReachableInv(s);
    if e.HostSpeaks? && e.h == g && (e.hostSays.ReadySaid? || e.hostSays.AckSaid?) {
      HostFrameSize(s, g, e.hostSays);
      FrameShips(s, g, e.hostSays);
    } else {
      NothingElseTold(s, e, g, HostTalk.Shipments);
    }
  }

  lemma FrameShips(s: Relay, g: nat, says: HostSays)
    requires Shaped(s) && g < |s.hosts| && g < |FromHostSocket(s, g, says).hosts| && (says.ReadySaid? || says.AckSaid?)
    ensures
      var e := HostSpeaks(g, says);
      var t := FromHostSocket(s, g, says);
      var (box, sent) := DeliverNext(Offering(s, e), s.rooms[s.hosts[g].room].id, s.now);
      && (Collects(s, e, g) ==> t.box == box)
      && HostTalk.Told(t.hosts[g], HostTalk.Shipments) == HostTalk.Told(s.hosts[g], HostTalk.Shipments) +
           (if Collects(s, e, g) && sent.Some? && s.hosts[g].open then [ItemSent(sent.value)] else [])
  {
    hide OnReady, OnAck, HostTalk.Told, DeliverNext, Ack, AckOutcome, HostOps;
    var t := HearHost(s, g);
    ShapedByRooms(s, t);
    HostTalk.HeardTold(s, g, g, HostTalk.Shipments);
    if Seated(t, g) {
      if says.ReadySaid? {
        HostTalk.OnReadyTold(t, g, g, HostTalk.Shipments);
        if HostTalk.Rises(t, g) {
          OnReadyShips(t, g);
        }
      } else {
        HostTalk.OnAckTold(t, g, says.number, AckOutcome(says.ok, says.code), g, HostTalk.Shipments);
        if t.hosts[g].ready {
          OnAckShips(t, g, says.number, AckOutcome(says.ok, says.code));
        }
      }
    }
  }

  lemma OnReadyShips(s: Relay, g: nat)
    requires Shaped(s) && g < |s.hosts| && HostTalk.Rises(s, g)
    ensures OnReady(s, g).box == DeliverNext(s.box, s.rooms[s.hosts[g].room].id, s.now).0
  {
    hide Announce, OpenAll, DeliverNext;
    ReadiedEffect(s, g);
  }

  lemma OnAckShips(s: Relay, g: nat, number: Option<int>, outcome: Outcome)
    requires Shaped(s) && g < |s.hosts| && InCharge(s, g)
    ensures
      var c := s.rooms[s.hosts[g].room].id;
      OnAck(s, g, number, outcome).box == DeliverNext(Ack(s.box, c, number, outcome).0, c, s.now).0
  {
    hide DeliverNext, Ack, NoteTo;
    var r := s.hosts[g].room;
    var (box, note) := Ack(s.box, s.rooms[r].id, number, outcome);
    NoteToKeeps(s.(box := box), r, note);
  }

  /** The item is held, and the event does not acknowledge it. */
  predicate Remains(s: Relay, e: Event, r: Row)
    requires Possible(s, e)
  {
    r in s.box.rows && !Acknowledges(s, e, r)
  }

  /** The host collects its next item, it can hear, none is in flight, and this one is the oldest due. */
  ghost predicate Sends(s: Relay, e: Event, g: nat, r: Row)
    requires Shaped(s) && Possible(s, e)
  {
    && g < |s.hosts| && s.hosts[g].open && Collects(s, e, g)
    && var c := s.rooms[s.hosts[g].room].id;
    && Remains(s, e, r) && Due(r, c, s.now)
    && (forall q :: Remains(s, e, q) && q.computer == c ==> q.item.state.Queued?)
    && (forall q :: Remains(s, e, q) && Due(q, c, s.now) ==> r.seq_ <= q.seq_)
  }

  lemma OfferingRemains(s: Relay, e: Event, g: nat, q: Row)
    requires Inv(s) && Shaped(s) && Possible(s, e) && g < |s.hosts| && Collects(s, e, g)
    ensures Ordered(Offering(s, e)) && (q in Offering(s, e).rows <==> Remains(s, e, q))
  {
    hide Traces, Presences, NoEmptyRoom, Valid, AckOutcome;
    InvIsRegistry(s);
    if e.hostSays.AckSaid? {
      var c := s.rooms[s.hosts[g].room].id;
      AckLeaves(s.box, c, e.hostSays.number, AckOutcome(e.hostSays.ok, e.hostSays.code), q);
    }
  }

  lemma AckLeaves(t: Table, c: string, number: Option<int>, outcome: Outcome, q: Row)
    requires Valid(t)
    ensures Ordered(Ack(t, c, number, outcome).0)
    ensures q in Ack(t, c, number, outcome).0.rows <==> q in t.rows && !Taken(DoAck(c, number, outcome), q)
  {
    hide Valid, Ordered;
    ValidParts(t);
    AckRows(t, c, number, outcome);
    ValidParts(Ack(t, c, number, outcome).0);
    if number.Some? && q in t.rows {
      AckTakes(t, c, number.value, q);
    }
    var found := if number.Some? then First(t.rows, Acked(c, number.value)) else None;
    if found.Some? && q in t.rows && found.value.seq_ == q.seq_ {
      SameNumber(t, q, found.value);
    }
  }

  lemma SendsOffering(s: Relay, e: Event, g: nat, r: Row)
    requires Inv(s) && Shaped(s) && Possible(s, e) && g < |s.hosts| && s.hosts[g].open && Collects(s, e, g)
    ensures Sends(s, e, g, r) <==> DeliverNext(Offering(s, e), s.rooms[s.hosts[g].room].id, s.now).1 == Some(r)
  {
    hide Inv, Offering, Collects, Remains, Ordered, DeliverNext, Due;
    OfferingRemains(s, e, g, r);
    forall q
      ensures q in Offering(s, e).rows <==> Remains(s, e, q)
    {
      OfferingRemains(s, e, g, q);
    }
    DeliversOldest(Offering(s, e), s.rooms[s.hosts[g].room].id, s.now, r);
  }

  /**
   * A host is sent an item exactly when it becomes ready, or acknowledges while in charge, its socket is open, an item
   * of its computer that it has not just acknowledged is due and none is in flight: the oldest that is due, once, and
   * that is then in flight.
   */
  lemma ItemSentExactly(s: Relay, e: Event, g: nat, r: Row)
    requires Reachable(s) && Shaped(s) && Possible(s, e) && g < |Next(s, e).hosts|
    ensures
      var told, before := HostTalk.Told(Next(s, e).hosts[g], HostTalk.Shipments), ToldBefore(s, g, HostTalk.Shipments);
      && (Sends(s, e, g, r) ==> told == before + [ItemSent(r)] && WithState(r, Delivering) in Next(s, e).box.rows)
      && ((forall q :: !Sends(s, e, g, q)) ==> told == before)
  {
    hide Reachable, Inv, Next, HostTalk.Told, DeliverNext, Offering, Collects, Remains, Due;
    ReachableInv(s);
    ShipsOffering(s, e, g);
    if g < |s.hosts| && s.hosts[g].open && Collects(s, e, g) {
      var c := s.rooms[s.hosts[g].room].id;
      SendsOffering(s, e, g, r);
      var sent := DeliverNext(Offering(s, e), c, s.now).1;
      if sent.Some? {
        SendsOffering(s, e, g, sent.value);
        DeliveredIsHeld(Offering(s, e), c, s.now, sent.value);
      }
    }
  }

  /** The relay takes the device's message: it is connected, and the message is not one to close its socket for. */
  predicate Accepted(s: Relay, d: nat, says: DeviceSays, size: nat)
    requires d < |s.devs|
  {
    !s.devs[d].left && !Rejected(s, d, says, size)
  }

  ghost predicate NoPut(ops: seq<Op>) { forall i :: 0 <= i < |ops| ==> !ops[i].DoPut? }

  lemma {:induction false} NoneNew(t: Table, ops: seq<Op>, q: Row)
    requires Valid(t) && NoPut(ops) && q in Through(t, ops).rows
    ensures Valid(Through(t, ops)) && exists r :: r in t.rows && SameButState(q, r)
  {
    hide Valid, Apply;
    if ops == [] {
      Empty(t);
      assert SameButState(q, q);
      assert Through(t, ops) == t;
    } else {
      var front, op := ops[..|ops| - 1], ops[|ops| - 1];
      ValidThrough(t, front);
      ValidParts(Through(t, front));
      NotPut(Through(t, front), op, q);
      var p :| p in Through(t, front).rows && SameButState(q, p);
      NoneNew(t, front, p);
      var r :| r in t.rows && SameButState(p, r);
      assert SameButState(q, r);
      ApplyKeepsValid(Through(t, front), op);
    }
  }

  lemma {:induction false} ValidThrough(t: Table, ops: seq<Op>)
    requires Valid(t)
    ensures Valid(Through(t, ops))
  {
    hide Valid, Apply;
    if ops != [] {
      ValidThrough(t, ops[..|ops| - 1]);
      ApplyKeepsValid(Through(t, ops[..|ops| - 1]), ops[|ops| - 1]);
    }
  }

  lemma NotPut(t: Table, op: Op, q: Row)
    requires Ordered(t) && !op.DoPut? && q in Apply(t, op).0.rows
    ensures exists r :: r in t.rows && SameButState(q, r)
  {
    hide Ordered, Apply, Departed;
    RowBefore(t, op, q);
  }

  lemma HarmlessNoPut(ops: seq<Op>, now: int)
    requires AllHarmless(ops, now)
    ensures NoPut(ops)
  {
    forall i | 0 <= i < |ops|
      ensures !ops[i].DoPut?
    {
      assert Harmless(ops[i], now);
    }
  }

  lemma OnlyPutsPut(s: Relay, e: Event)
    requires Shaped(s) && Possible(s, e) && !(e.DeviceSpeaks? && e.says.PutSaid? && DeviceOps(s, e.d, e.says, e.size) != [])
    ensures NoPut(OpsOf(s, e))
  {
    hide SweepRoomsOps, Shaped, OverLimit;
    if e.Sweeps? {
      SweepHarmless(s, |s.rooms|);
      HarmlessNoPut(SweepRoomsOps(s, |s.rooms|), s.now);
    }
  }

  /** The event puts this very item in the mailbox. */
  predicate Puts(s: Relay, e: Event, q: Row)
    requires Shaped(s) && Possible(s, e)
  {
    && e.DeviceSpeaks? && e.says.PutSaid? && Accepted(s, e.d, e.says, e.size) && !s.devs[e.d].pair
    && var d := s.devs[e.d];
    && var c := s.rooms[d.room].id;
    && (assert RoomShaped(s, d.room);
        MailboxAnswers.InOrder(s.box, c, d.dk, e.says.msg, HostReady(s, d.room), s.now, q.item.blob, q.item.exp))
    && MailboxAnswers.Roomy(s.box, c, d.dk, |q.item.blob|)
    && q == Row(s.box.last + 1, c, Item(d.dk, e.says.msg.nonce.text, q.item.blob, q.item.exp, Queued))
  }

  /**
   * An item enters the mailbox exactly when a connected device, not one for pairing, puts it in order, no host of its
   * computer is ready, and the quotas allow it; it enters queued, as the newest.
   */
  lemma ItemEntersExactly(s: Relay, e: Event, q: Row)
    requires Reachable(s) && Shaped(s) && Possible(s, e)
    ensures Puts(s, e, q) <==> q in Next(s, e).box.rows && forall r :: r in s.box.rows ==> !SameButState(q, r)
  {
    hide Reachable, Inv, Next, OpsOf, Puts, DeviceOps, Through;
    ReachableInv(s);
    InvIsRegistry(s);
    NextCalls(s, e);
    if e.DeviceSpeaks? && e.says.PutSaid? && DeviceOps(s, e.d, e.says, e.size) != [] {
      PutEnters(s, e, q);
    } else {
      OnlyPutsPut(s, e);
      NotPuts(s, e, q);
      if q in Through(s.box, OpsOf(s, e)).rows {
        NoneNew(s.box, OpsOf(s, e), q);
      }
    }
  }

  lemma NotPuts(s: Relay, e: Event, q: Row)
    requires Shaped(s) && Possible(s, e) && !(e.DeviceSpeaks? && e.says.PutSaid? && DeviceOps(s, e.d, e.says, e.size) != [])
    ensures !Puts(s, e, q)
  {
    hide OverLimit;
  }

  lemma PutEnters(s: Relay, e: Event, q: Row)
    requires Inv(s) && Shaped(s) && Possible(s, e) && e.DeviceSpeaks? && e.says.PutSaid? && DeviceOps(s, e.d, e.says, e.size) != []
    ensures Puts(s, e, q) <==> q in Through(s.box, OpsOf(s, e)).rows && forall r :: r in s.box.rows ==> !SameButState(q, r)
  {
    hide Inv, OverLimit, Put, Valid, Ordered, MailboxAnswers.InOrder, MailboxAnswers.Roomy, HostReady;
    InvIsRegistry(s);
    var d := s.devs[e.d];
    assert RoomShaped(s, d.room);
    var c, ready := s.rooms[d.room].id, HostReady(s, d.room);
    One(s.box, DoPut(c, d.dk, e.says.msg, ready, s.now));
    PutIn(s.box, c, d.dk, e.says.msg, ready, s.now, q);
  }

  lemma PutIn(t: Table, c: string, dk: string, msg: PutMsg, ready: bool, now: int, q: Row)
    requires Ordered(t)
    ensures
      q in Put(t, c, dk, msg, ready, now).0.rows && (forall r :: r in t.rows ==> !SameButState(q, r)) <==>
        && MailboxAnswers.InOrder(t, c, dk, msg, ready, now, q.item.blob, q.item.exp)
        && MailboxAnswers.Roomy(t, c, dk, |q.item.blob|)
        && q == Row(t.last + 1, c, Item(dk, msg.nonce.text, q.item.blob, q.item.exp, Queued))
  {
    hide MailboxAnswers.InOrder, MailboxAnswers.Roomy, Put;
    var u := Put(t, c, dk, msg, ready, now).0;
    MailboxAnswers.PutAcceptsExactly(t, c, dk, msg, ready, now, q.item.blob, q.item.exp);
    assert SameButState(q, q);
    if u != t {
      MailboxAnswers.PutInOrder(t, c, dk, msg, ready, now);
      assert u.rows == t.rows + [u.rows[|t.rows|]];
    }
    if msg.nonce.Text? && q == Row(t.last + 1, c, Item(dk, msg.nonce.text, q.item.blob, q.item.exp, Queued)) {
      assert forall r :: r in t.rows ==> !SameButState(q, r);
    }
  }

  // ---- what the relay answers a device ----

  /** The reply to a mailbox message, as `MailboxAnswers` characterises it; a pairing socket is refused. */
  function ReplyTo(s: Relay, d: nat, says: DeviceSays): Option<Reply>
    requires Shaped(s) && d < |s.devs|
  {
    var c, dk := s.rooms[s.devs[d].room].id, s.devs[d].dk;
    assert RoomShaped(s, s.devs[d].room);
    match says
    case PutSaid(msg) =>
      if s.devs[d].pair then Some(Err(if msg.nonce.Absent? then Null else msg.nonce, Pairing))
      else Some(Put(s.box, c, dk, msg, HostReady(s, s.devs[d].room), s.now).1)
    case CancelSaid(nonce) =>
      if s.devs[d].pair then Some(Err(if nonce.Absent? then Null else nonce, Pairing)) else Some(Cancel(s.box, c, dk, nonce).1)
    case ListSaid(nonce) =>
      if s.devs[d].pair then Some(Err(if nonce.Absent? then Null else nonce, Pairing)) else Some(Listing(s.box, c, dk))
    case _ => None
  }

  /** The answer to a device's message that is taken. */
  function Direct(s: Relay, d: nat, says: DeviceSays): seq<DeviceMsg>
    requires Shaped(s) && d < |s.devs|
  {
    assert RoomShaped(s, s.devs[d].room);
    var reply := ReplyTo(s, d, says);
    if !s.devs[d].open then []
    else if reply.Some? then [MailReply(reply.value)]
    else if says.PingSaid? then [DevicePong]
    else if says.ChannelSaid? && !HostReady(s, s.devs[d].room) then [Presence(false, s.rooms[s.devs[d].room].lastSeenAt)]
    else []
  }

  /** All the answers to a device's own message. */
  function AnswersTo(s: Relay, e: Event, d: nat): seq<DeviceMsg>
    requires Shaped(s) && Possible(s, e) && d < |s.devs|
  {
    if e.DeviceSpeaks? && e.d == d && Accepted(s, d, e.says, e.size) then Direct(s, d, e.says) else []
  }

  /**
   * A device gets one answer to each message of its own that the relay takes and does not pass on, and none to anyone
   * else's: the reply of the mailbox, a pong, or the presence when it writes to a host that is not ready.
   */
  lemma DeviceIsAnswered(s: Relay, e: Event, d: nat, k: RoomTalk.Kind)
    requires Reachable(s) && Shaped(s) && Possible(s, e) && d < |s.devs| && d < |Next(s, e).devs|
    requires k.Replies? || k.Pongs? || (k.Statuses? && e.DeviceSpeaks?)
    ensures RoomTalk.Heard(Next(s, e).devs[d], k)
         == RoomTalk.Heard(s.devs[d], k) + Filter(AnswersTo(s, e, d), RoomTalk.OfKind(k))
  {
    hide Reachable, Inv, FromDeviceSocket, Heard, Filter, OfKind, AnswersTo;
    ReachableInv(s);
    if e.DeviceSpeaks? && e.d == d {
      OwnMessageAnswered(s, d, e.says, e.size, k);
    } else {
      NextHeard(s, e, d, k);
      NoAnswers(s, e, d, k);
    }
  }

  lemma NoAnswers(s: Relay, e: Event, d: nat, k: RoomTalk.Kind)
    requires Shaped(s) && Possible(s, e) && d < |s.devs| && !(e.DeviceSpeaks? && e.d == d)
    ensures Filter(AnswersTo(s, e, d), RoomTalk.OfKind(k)) == []
  {
  }

  lemma OneAnswer(msg: DeviceMsg, k: RoomTalk.Kind)
    ensures Filter([msg], OfKind(k)) == (if KindOf(msg) == k then [msg] else [])
    ensures Filter([], OfKind(k)) == []
  {
    assert [msg] == [] + [msg];
    FilterAppend([], msg, OfKind(k));
  }

  lemma MailReplied(s: Relay, d: nat, says: DeviceSays)
    requires Shaped(s) && d < |s.devs| && (says.PutSaid? || says.CancelSaid? || says.ListSaid?)
    ensures ReplyTo(s, d, says).Some?
    ensures OnMailbox(s, d, says) == SendDevice(s.(box := OnMailbox(s, d, says).box), d, MailReply(ReplyTo(s, d, says).value))
  {
    hide Put, Cancel, Listing, HostReady;
    assert RoomShaped(s, s.devs[d].room);
    assert s == s.(box := s.box);
  }

  lemma OnMessageAnswered(s: Relay, d: nat, says: DeviceSays, k: RoomTalk.Kind)
    requires Shaped(s) && d < |s.devs| && d < |OnMessage(s, d, says).devs|
    ensures RoomTalk.Heard(OnMessage(s, d, says).devs[d], k) == RoomTalk.Heard(s.devs[d], k) + Filter(Direct(s, d, says), OfKind(k))
  {
    hide DropDevice, OnMailbox, SendDevice, Heard, ReplyTo, Filter, OfKind;
    assert RoomShaped(s, s.devs[d].room);
    OneAnswer(DevicePong, k);
    match says
    case PingSaid =>
      NoReply(s, d, says);
      SendDeviceHeard(s, d, DevicePong, d, k);
    case ChannelSaid(_) =>
      NoReply(s, d, says);
      OneAnswer(PresenceOf(s, s.devs[d].room), k);
      SendDeviceHeard(s, d, PresenceOf(s, s.devs[d].room), d, k);
    case PutSaid(_) => MailAnsweredOnce(s, d, says, k);
    case CancelSaid(_) => MailAnsweredOnce(s, d, says, k);
    case ListSaid(_) => MailAnsweredOnce(s, d, says, k);
    case _ =>
      NoReply(s, d, says);
      DropDeviceHeard(s, d, d, k);
  }

  lemma NoReply(s: Relay, d: nat, says: DeviceSays)
    requires Shaped(s) && d < |s.devs| && !says.PutSaid? && !says.CancelSaid? && !says.ListSaid?
    ensures ReplyTo(s, d, says).None?
  {
  }

  lemma MailAnsweredOnce(s: Relay, d: nat, says: DeviceSays, k: RoomTalk.Kind)
    requires Shaped(s) && d < |s.devs| && (says.PutSaid? || says.CancelSaid? || says.ListSaid?)
    ensures ReplyTo(s, d, says).Some? && |OnMailbox(s, d, says).devs| == |s.devs|
    ensures RoomTalk.Heard(OnMailbox(s, d, says).devs[d], k)
         == RoomTalk.Heard(s.devs[d], k) + Filter(if s.devs[d].open then [MailReply(ReplyTo(s, d, says).value)] else [], OfKind(k))
  {
    hide OnMailbox, SendDevice, Heard, ReplyTo, Filter, OfKind;
    MailReplied(s, d, says);
    var reply := ReplyTo(s, d, says).value;
    OneAnswer(MailReply(reply), k);
    SendDeviceHeard(s.(box := OnMailbox(s, d, says).box), d, MailReply(reply), d, k);
  }

  lemma SameDirect(s: Relay, t: Relay, d: nat, says: DeviceSays)
    requires Shaped(s) && Shaped(t) && d < |s.devs| == |t.devs| && t == s.(devs := t.devs)
    requires t.devs[d].room == s.devs[d].room && t.devs[d].dk == s.devs[d].dk && t.devs[d].pair == s.devs[d].pair
    requires t.devs[d].open == s.devs[d].open && t.devs[d].sent == s.devs[d].sent
    ensures Direct(t, d, says) == Direct(s, d, says) && forall k :: RoomTalk.Heard(t.devs[d], k) == RoomTalk.Heard(s.devs[d], k)
  {
    hide Put, Cancel, Listing;
    assert RoomShaped(s, s.devs[d].room) && RoomShaped(t, s.devs[d].room);
  }

  lemma NoDirect(s: Relay, d: nat, says: DeviceSays)
    requires Shaped(s) && d < |s.devs| && (says.BinaryFrame? || says.UnreadableSaid? || says.UnknownSaid?)
    ensures Direct(s, d, says) == []
  {
  }

  lemma ClosedUnanswered(s: Relay, d: nat, says: DeviceSays, k: RoomTalk.Kind)
    requires Shaped(s) && d < |s.devs|
    ensures |DropDevice(s, d).devs| == |s.devs|
    ensures RoomTalk.Heard(DropDevice(s, d).devs[d], k) == RoomTalk.Heard(s.devs[d], k) + Filter([], OfKind(k))
  {
    hide DropDevice, Filter, Heard, OfKind;
    DropDeviceHeard(s, d, d, k);
    OneAnswer(DevicePong, k);
  }

  lemma OnDeviceAnswered(s: Relay, d: nat, says: DeviceSays, size: nat, k: RoomTalk.Kind)
    requires Shaped(s) && d < |s.devs| && d < |OnDevice(s, d, says, size).devs|
    ensures RoomTalk.Heard(OnDevice(s, d, says, size).devs[d], k) == RoomTalk.Heard(s.devs[d], k) +
      Filter(if s.devs[d].left || (s.devs[d].pair && s.now >= s.devs[d].until) || OverLimit(s, d, size) then [] else Direct(s, d, says), OfKind(k))
  {
    hide DropDevice, OnMessage, Direct, Filter, Heard, OfKind, OverLimit;
    OneAnswer(DevicePong, k);
    ClosedUnanswered(s, d, says, k);
    var counted := Counted(s, d, size);
    ShapedByRooms(s, counted);
    SameDirect(s, counted, d, says);
    ClosedUnanswered(counted, d, says, k);
    OnMessageSize(counted, d, says);
    OnMessageAnswered(counted, d, says, k);
  }

  lemma HeardNotOver(s: Relay, d: nat, size: nat)
    requires d < |s.devs|
    ensures OverLimit(HearDevice(s, d), d, size) <==> OverLimit(s, d, size)
  {
    hide RateLimit.Charge;
  }

  lemma OwnMessageAnswered(s: Relay, d: nat, says: DeviceSays, size: nat, k: RoomTalk.Kind)
    requires Shaped(s) && d < |s.devs| && d < |FromDeviceSocket(s, d, says, size).devs|
    ensures RoomTalk.Heard(FromDeviceSocket(s, d, says, size).devs[d], k)
         == RoomTalk.Heard(s.devs[d], k) + Filter(AnswersTo(s, DeviceSpeaks(d, says, size), d), OfKind(k))
  {
    hide DropDevice, OnDevice, Direct, Filter, Heard, OfKind, OverLimit;
    var t := HearDevice(s, d);
    ShapedByRooms(s, t);
    SameDirect(s, t, d, says);
    HeardNotOver(s, d, size);
    if says.BinaryFrame? {
      ClosedUnanswered(t, d, says, k);
    } else {
      OnDeviceSize(t, d, says, size);
      OnDeviceAnswered(t, d, says, size, k);
      if says.UnreadableSaid? || says.UnknownSaid? {
        NoDirect(t, d, says);
      }
    }
  }

  lemma OnDeviceSize(s: Relay, d: nat, says: DeviceSays, size: nat)
    requires Shaped(s) && d < |s.devs|
    ensures |OnDevice(s, d, says, size).devs| == |s.devs|
  {
    hide DropDevice, OnMessage, OverLimit;
    var counted := Counted(s, d, size);
    ShapedByRooms(s, counted);
    OnMessageSize(counted, d, says);
  }

  lemma OnMessageSize(s: Relay, d: nat, says: DeviceSays)
    requires Shaped(s) && d < |s.devs|
    ensures |OnMessage(s, d, says).devs| == |s.devs|
  {
    hide DropDevice, Put, Cancel, Listing;
    assert RoomShaped(s, s.devs[d].room);
  }
}
