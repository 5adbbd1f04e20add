/** What users of the private relay may rely on in every state it can reach. */
module RoomGuarantees {
  import opened Wrappers
  import opened MailboxItems
  import opened MailboxTable
  import opened MailboxRuns
  import opened RoomState
  import opened RoomInvariants
  import opened RoomSteps
  import opened RoomRuns
  import opened RoomFlow

  /** The host has been told that the link is open, and not that it closed. */
  predicate ToldOpen(h: Host, link: nat) {
    var t := LinkTrace(h.sent, link);
    t != [] && !t[|t| - 1].Closed?
  }

  /**
   * Each link's messages to a host are one open, then data, then at most one close, and none before `ready`. A ready
   * host on an open socket has been told that exactly the links of its room's devices are open.
   */
  lemma HostView(s: Relay, h: nat, link: nat)
    requires Reachable(s) && h < |s.hosts|
    ensures s.hosts[h].room < |s.rooms|
    ensures
      var host := s.hosts[h];
      && Bracketed(LinkTrace(host.sent, link))
      && (!host.ready && !host.left ==> LinkTrace(host.sent, link) == [])
      && (host.ready && host.open ==> (ToldOpen(host, link) <==> link in s.rooms[host.room].devices))
  {
    hide Reachable, Registry, NoEmptyRoom, Presences, Flights, Valid, LinkTrace;
    ReachableInv(s);
    assert LinkOk(s, h, link);
    PhaseReadsTrace(s.hosts[h].sent, link);
  }

  /** Every connected device was last told whether its computer's host is ready. */
  lemma PresenceTold(s: Relay, d: nat)
    requires Reachable(s) && d < |s.devs| && !s.devs[d].left && s.devs[d].open
    ensures s.devs[d].room < |s.rooms| && RoomShaped(s, s.devs[d].room)
    ensures LastPresence(s.devs[d].sent) == Some(HostReady(s, s.devs[d].room))
  {
    hide Reachable, Registry, NoEmptyRoom, Traces, Flights, Valid;
    ReachableInv(s);
    assert PresenceOk(s, d);
  }

  /** At most one item of a computer is in flight, and only while the room its map entry names has a ready host. */
  lemma InFlightSafety(s: Relay, r: Row, q: Row)
    requires Reachable(s) && r in s.box.rows && q in s.box.rows && r.computer == q.computer && r.item.state.Delivering?
    ensures q.item.state.Delivering? ==> q == r
    ensures Shaped(s) && Manned(s, r.computer)
  {
    hide Reachable, Registry, NoEmptyRoom, Traces, Presences, Manned;
    ReachableInv(s);
    assert q.item.state.Delivering? ==> BothInFlight(r, q);
  }

  /** The host is its room's own and is ready. */
  predicate InCharge(s: Relay, h: nat)
    requires h < |s.hosts|
  {
    s.hosts[h].ready && s.hosts[h].room < |s.rooms| && Seated(s, h)
  }

  /** A room counts as having a ready host exactly when some host is in charge of it. */
  lemma ReadyMeans(s: Relay, r: nat)
    requires Reachable(s) && r < |s.rooms|
    ensures Shaped(s) && RoomShaped(s, r)
    ensures HostReady(s, r) <==> exists h: nat :: h < |s.hosts| && InCharge(s, h) && s.hosts[h].room == r
  {
    hide Reachable, NoEmptyRoom, Traces, Presences, Flights, Valid;
    ReachableInv(s);
    assert RoomShaped(s, r) && RoomOk(s, r);
    if HostReady(s, r) {
      var h := s.rooms[r].host.value;
      assert HostOk(s, h) && InCharge(s, h);
    }
  }

  /** An acknowledgement from any other host, not yet ready, replaced or gone, removes nothing. */
  lemma UnreadyAckRemovesNothing(s: Relay, h: nat, number: Option<int>, ok: bool, code: Field)
    requires Reachable(s) && h < |s.hosts| && !InCharge(s, h)
    ensures Shaped(s) && Next(s, HostSpeaks(h, AckSaid(number, ok, code))).box == s.box
  {
    hide Reachable, NoEmptyRoom, Traces, Presences, Valid, Ack, FromHostSocket;
    ReachableInv(s);
    var outcome := AckOutcome(ok, code);
    HostCalls(s, h, AckSaid(number, ok, code));
    if Seated(s, h) {
      UnmannedAck(s, h, number, outcome);
      One(s.box, DoAck(s.rooms[s.hosts[h].room].id, number, outcome));
    }
  }

  lemma UnmannedAck(s: Relay, h: nat, number: Option<int>, outcome: Outcome)
    requires Registry(s) && Flights(s) && h < |s.hosts| && Seated(s, h) && !s.hosts[h].ready
    ensures Ack(s.box, s.rooms[s.hosts[h].room].id, number, outcome).0 == s.box
  {
    var r := s.hosts[h].room;
    var c := s.rooms[r].id;
    assert RoomOk(s, r) && RoomShaped(s, r);
    forall row | row in s.box.rows && row.computer == c
      ensures !row.item.state.Delivering?
    {
      assert row.item.state.Delivering? ==> Manned(s, row.computer);
    }
  }

  /** The room is the one the map holds for its computer. */
  predicate Registered(s: Relay, r: nat) {
    r < |s.rooms| && Indexed(s, r)
  }

  /** A host that has not left is the host of its computer's one registered room. */
  lemma HostInOneRoom(s: Relay, h: nat)
    requires Reachable(s) && h < |s.hosts| && !s.hosts[h].left
    ensures Registered(s, s.hosts[h].room) && s.rooms[s.hosts[h].room].host == Some(h)
  {
    hide Reachable, NoEmptyRoom, Traces, Presences, Flights, Valid;
    ReachableInv(s);
    assert HostOk(s, h) && RoomOk(s, s.hosts[h].room);
  }

  /** A device is in the list of its computer's one registered room exactly until it leaves. */
  lemma DeviceInOneRoom(s: Relay, d: nat)
    requires Reachable(s) && d < |s.devs|
    ensures s.devs[d].room < |s.rooms| && (d in s.rooms[s.devs[d].room].devices <==> !s.devs[d].left)
    ensures !s.devs[d].left ==> Registered(s, s.devs[d].room)
  {
    hide Reachable, NoEmptyRoom, Traces, Presences, Flights, Valid;
    ReachableInv(s);
    assert DeviceOk(s, d) && RoomOk(s, s.devs[d].room);
  }

  /** No computer ever has more than 16 devices in its room. */
  lemma DevicesBounded(s: Relay, r: nat)
    requires Reachable(s) && r < |s.rooms|
    ensures |s.rooms[r].devices| <= MAX_DEVICE_SOCKETS
  {
    hide Reachable, NoEmptyRoom, Traces, Presences, Flights, Valid;
    ReachableInv(s);
    assert RoomOk(s, r);
  }

  /** Every room the map holds is its computer's and has someone in it. */
  lemma NoEmptyRoomKept(s: Relay, id: string)
    requires Reachable(s) && id in s.index
    ensures s.index[id] < |s.rooms| && s.rooms[s.index[id]].id == id && Occupied(s.rooms[s.index[id]])
  {
    hide Reachable, Traces, Presences, Flights, Valid;
    ReachableInv(s);
  }

  /** Every accepted put is held once or left one way, and each computer's acknowledgements strictly ascend. */
  lemma RelayConserves(s: Relay, l: Ledger)
    requires ReachedWith(s, l)
    ensures l.table == s.box && Conserved(l) && Ascends(l.acks) && NeverBack(l.offers)
  {
    hide ReachedWith, Conserved, Ascends, NeverBack;
    ReachedInv(s, l);
  }

  /**
   * At least once, end to end: the item last offered to a computer's host and not acknowledged before it left, if it
   * is still held and has not expired, is the first thing the computer's next host is sent once it is ready.
   */
  lemma NextHostGetsInterrupted(s: Relay, l: Ledger, h: nat, r: Row)
    requires ReachedWith(s, l) && Shaped(s) && h < |s.hosts| && Seated(s, h) && !s.hosts[h].ready && s.hosts[h].open
    requires s.rooms[s.hosts[h].room].id == r.computer && r.computer in s.acls
    requires r in s.box.rows && r.seq_ == LastOf(l.offers, r.computer) && r.item.exp > s.now
    ensures
      var t := Next(s, HostSpeaks(h, ReadySaid));
      && t.hosts[h].ready && t.hosts[h].sent != [] && t.hosts[h].sent[|t.hosts[h].sent| - 1] == ItemSent(r)
      && WithState(r, Delivering) in t.box.rows
  {
    hide ReachedWith, Registry, NoEmptyRoom, Traces, Presences, Flights, Valid, Announce, OpenAll, DeliverNext, Orderly;
    ReachedInv(s, l);
    InterruptedIsNext(l, r, s.now);
    QueuedWhileUnready(s, h, r);
    var t := HearHost(s, h);
    ShapedByRooms(s, t);
    ReadiedEffect(t, h);
    DeliveredIsHeld(s.box, r.computer, s.now, r);
  }

  /**
   * The mailbox does not stall: while a computer's host is ready and an unexpired item of it is queued, one is in flight,
   * unless what was last offered has run out since. A sweep that takes the item in flight is followed by no delivery.
   */
  lemma NeverStalls(s: Relay, l: Ledger, r: Row)
    requires ReachedWith(s, l) && Shaped(s) && r in s.box.rows && Manned(s, r.computer)
    requires r.item.state.Queued? && r.item.exp > s.now
    ensures
      || (exists q :: q in s.box.rows && q.computer == r.computer && q.item.state.Delivering?)
      || (LastOf(l.offers, r.computer) in l.fate && l.fate[LastOf(l.offers, r.computer)] == RanOut)
  {
    hide Registry, NoEmptyRoom, Traces, Presences, Flights, Valid, Manned, After, Calls, Feasible, Run, Orderly;
    ReachedInv(s, l);
    var now: nat, es :| Feasible(now, es) && After(now, es) == s && Run(START, Calls(now, es)) == l;
    var h := MannedIsReady(s, r.computer);
    RunFlows(now, es, h, r.computer);
    assert Deliverable(r.computer, s.now)(r);
    if FlightOf(l.table, r.computer) {
      var q :| q in l.table.rows && InFlight(r.computer)(q);
    }
  }

  lemma QueuedWhileUnready(s: Relay, h: nat, r: Row)
    requires Registry(s) && Flights(s) && h < |s.hosts| && Seated(s, h) && !s.hosts[h].ready
    requires r in s.box.rows && r.computer == s.rooms[s.hosts[h].room].id
    ensures r.item.state.Queued?
  {
    assert RoomOk(s, s.hosts[h].room) && RoomShaped(s, s.hosts[h].room);
    assert r.item.state.Delivering? ==> Manned(s, r.computer);
  }

  lemma DeliveredIsHeld(t: Table, c: string, now: int, r: Row)
    requires DeliverNext(t, c, now).1 == Some(r)
    ensures WithState(r, Delivering) in DeliverNext(t, c, now).0.rows
  {
    var i :| 0 <= i < |t.rows| && t.rows[i] == r;
    assert DeliverNext(t, c, now).0.rows[i] == WithState(r, Delivering);
  }
}
