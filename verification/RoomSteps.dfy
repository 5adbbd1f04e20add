/** Every event of the rooms keeps the invariant, and what that means for every run. */
module RoomSteps {
  import opened Wrappers
  import opened Sequences
  import opened Acls
  import opened MailboxItems
  import opened MailboxTable
  import opened RoomState
  import opened RoomInvariants

  // ---- making a room ----

  /** The invariant in the middle of a connect: the room of `c` may be empty. */
  ghost predicate NearlyInv(s: Relay, c: string) {
    && Registry(s) && Traces(s) && Presences(s) && Flights(s) && Valid(s.box)
    && forall id :: id in s.index && id != c ==> Occupied(s.rooms[s.index[id]])
  }

  lemma EnsureRoomKeepsRegistry(s: Relay, c: string)
    requires Registry(s)
    ensures Registry(EnsureRoom(s, c))
  {
    var t := EnsureRoom(s, c);
    EnsureRoomShaped(s, c);
    forall h: nat | h < |t.hosts|
      ensures HostOk(t, h)
    {
      assert HostOk(s, h);
    }
    forall d: nat | d < |t.devs|
      ensures DeviceOk(t, d)
    {
      assert DeviceOk(s, d);
    }
    forall r: nat | r < |t.rooms|
      ensures RoomOk(t, r)
    {
      if r < |s.rooms| {
        assert RoomOk(s, r) && RoomShaped(s, r);
      }
    }
  }

  lemma EnsureRoomKeepsLink(s: Relay, c: string, h: nat, link: nat)
    requires Shaped(s) && h < |s.hosts| && LinkOk(s, h, link) && Shaped(EnsureRoom(s, c))
    ensures LinkOk(EnsureRoom(s, c), h, link)
  {
  }

  lemma EnsureRoomKeepsPresence(s: Relay, c: string, d: nat)
    requires Shaped(s) && d < |s.devs| && PresenceOk(s, d) && Shaped(EnsureRoom(s, c))
    ensures PresenceOk(EnsureRoom(s, c), d)
  {
    assert RoomShaped(s, s.devs[d].room) && RoomShaped(EnsureRoom(s, c), s.devs[d].room);
  }

  lemma EnsureRoomKeepsManned(s: Relay, c: string, a: string)
    requires Shaped(s) && Shaped(EnsureRoom(s, c)) && Manned(s, a)
    ensures Manned(EnsureRoom(s, c), a)
  {
    assert RoomShaped(s, s.index[a]) && RoomShaped(EnsureRoom(s, c), s.index[a]);
  }

  lemma EnsureRoomKeeps(s: Relay, c: string)
    requires Inv(s)
    ensures NearlyInv(EnsureRoom(s, c), c)
  {
    var t := EnsureRoom(s, c);
    EnsureRoomKeepsRegistry(s, c);
    forall h: nat, link: nat | h < |t.hosts|
      ensures LinkOk(t, h, link)
    {
      EnsureRoomKeepsLink(s, c, h, link);
    }
    forall d: nat | d < |t.devs|
      ensures PresenceOk(t, d)
    {
      EnsureRoomKeepsPresence(s, c, d);
    }
    forall row | row in t.box.rows && row.item.state.Delivering?
      ensures Manned(t, row.computer)
    {
      EnsureRoomKeepsManned(s, c, row.computer);
    }
  }

  // ---- a host connects ----

  lemma ReplaceHostKeeps(s: Relay, c: string)
    requires NearlyInv(s, c) && c in s.index
    ensures
      var t := ReplaceHost(s, s.index[c]);
      NearlyInv(t, c) && t.index == s.index && t.rooms[s.index[c]].host.None?
  {
    var r := s.index[c];
    var previous := s.rooms[r].host;
    if previous.Some? {
      assert RoomShaped(s, r) && RoomOk(s, r);
      var h := previous.value;
      DropHostEffect(s, h, true);
      DropHostKeepsRegistry(s, h, true);
      DropHostKeepsTraces(s, h, true);
      DropHostKeepsPresences(s, h, true);
      DropHostKeepsFlights(s, h, true);
      DropHostKeepsBox(s, h, true);
    }
  }

  lemma SeatShaped(s: Relay, r: nat)
    requires Shaped(s) && r < |s.rooms|
    ensures Shaped(Seat(s, r))
  {
    var t := Seat(s, r);
    forall q: nat | q < |t.rooms|
      ensures RoomShaped(t, q)
    {
      assert RoomShaped(s, q);
    }
  }

  lemma SeatKeepsRegistry(s: Relay, r: nat)
    requires Registry(s) && r < |s.rooms| && s.rooms[r].host.None? && Indexed(s, r)
    ensures Registry(Seat(s, r))
  {
    var t := Seat(s, r);
    SeatShaped(s, r);
    forall h: nat | h < |t.hosts|
      ensures HostOk(t, h)
    {
      if h < |s.hosts| {
        assert HostOk(s, h);
      }
    }
    forall d: nat | d < |t.devs|
      ensures DeviceOk(t, d)
    {
      assert DeviceOk(s, d);
    }
    forall q: nat | q < |t.rooms|
      ensures RoomOk(t, q)
    {
      assert RoomOk(s, q) && RoomShaped(s, q);
    }
  }

  /** A host that is not ready leaves every room as ready as it was. */
  lemma SeatReadiness(s: Relay, r: nat, q: nat)
    requires Shaped(s) && r < |s.rooms| && s.rooms[r].host.None? && q < |s.rooms| && Shaped(Seat(s, r))
    ensures RoomShaped(s, q) && RoomShaped(Seat(s, r), q) && HostReady(Seat(s, r), q) == HostReady(s, q)
  {
  }

  lemma SeatKeepsTraces(s: Relay, r: nat)
    requires Traces(s) && r < |s.rooms|
    ensures Traces(Seat(s, r))
  {
    var t := Seat(s, r);
    SeatShaped(s, r);
    forall h: nat, link: nat | h < |t.hosts|
      ensures LinkOk(t, h, link)
    {
      if h < |s.hosts| {
        assert LinkOk(s, h, link);
      }
    }
  }

  lemma SeatKeeps(s: Relay, c: string)
    requires NearlyInv(s, c) && c in s.index && s.rooms[s.index[c]].host.None?
    ensures Inv(Seat(s, s.index[c]))
  {
    var r := s.index[c];
    var t := Seat(s, r);
    SeatKeepsRegistry(s, r);
    SeatKeepsTraces(s, r);
    forall d: nat | d < |t.devs|
      ensures PresenceOk(t, d)
    {
      assert PresenceOk(s, d);
      SeatReadiness(s, r, s.devs[d].room);
    }
    forall row | row in t.box.rows && row.item.state.Delivering?
      ensures Manned(t, row.computer)
    {
      assert Manned(s, row.computer);
      SeatReadiness(s, r, s.index[row.computer]);
    }
  }

  lemma AttachHostKeeps(s: Relay, c: string)
    requires Inv(s)
    ensures Inv(AttachHost(s, c))
  {
    EnsureRoomKeeps(s, c);
    ReplaceHostKeeps(EnsureRoom(s, c), c);
    SeatKeeps(ReplaceHost(EnsureRoom(s, c), EnsureRoom(s, c).index[c]), c);
  }

  // ---- a device connects ----

  lemma AdmitEffect(s: Relay, r: nat, dk: string, pair: bool, offer: string)
    requires Shaped(s) && r < |s.rooms|
    ensures
      var t, d := Admit(s, r, dk, pair, offer), |s.devs|;
      && RoomShaped(s, r)
      && t == s.(rooms := t.rooms, hosts := t.hosts, devs := t.devs)
      && |t.devs| == d + 1 && t.devs[..d] == s.devs && |t.hosts| == |s.hosts|
      && t.devs[d].room == r && !t.devs[d].left && t.devs[d].open && t.devs[d].sent == [PresenceOf(s, r)]
      && t.rooms == s.rooms[r := s.rooms[r].(devices := s.rooms[r].devices + [d])]
      && t.hosts == (if HostReady(s, r) then s.hosts[s.rooms[r].host.value := Hears(s.hosts[s.rooms[r].host.value], Opened(d, dk, pair))] else s.hosts)
  {
    assert RoomShaped(s, r);
  }

  lemma AdmitShaped(s: Relay, r: nat, dk: string, pair: bool, offer: string)
    requires Shaped(s) && r < |s.rooms|
    ensures Shaped(Admit(s, r, dk, pair, offer))
  {
    hide Admit;
    var t := Admit(s, r, dk, pair, offer);
    AdmitEffect(s, r, dk, pair, offer);
    forall q: nat | q < |t.rooms|
      ensures RoomShaped(t, q)
    {
      assert RoomShaped(s, q);
    }
    forall d: nat | d < |t.devs|
      ensures t.devs[d].room < |t.rooms|
    {
      assert d < |s.devs| ==> t.devs[..|s.devs|][d] == s.devs[d];
    }
  }

  lemma AdmitReadiness(s: Relay, r: nat, dk: string, pair: bool, offer: string, q: nat)
    requires Shaped(s) && r < |s.rooms| && q < |s.rooms| && Shaped(Admit(s, r, dk, pair, offer))
    ensures RoomShaped(s, q) && RoomShaped(Admit(s, r, dk, pair, offer), q)
    ensures HostReady(Admit(s, r, dk, pair, offer), q) == HostReady(s, q)
  {
    hide Admit;
    AdmitEffect(s, r, dk, pair, offer);
    assert RoomShaped(s, q) && RoomShaped(Admit(s, r, dk, pair, offer), q);
  }

  lemma AdmitKeepsRoom(s: Relay, r: nat, dk: string, pair: bool, offer: string, q: nat)
    requires Shaped(s) && r < |s.rooms| && q < |s.rooms| && RoomOk(s, q) && Indexed(s, r) && Shaped(Admit(s, r, dk, pair, offer))
    requires |s.rooms[r].devices| < MAX_DEVICE_SOCKETS
    ensures RoomOk(Admit(s, r, dk, pair, offer), q)
  {
    hide Admit;
    var t, d := Admit(s, r, dk, pair, offer), |s.devs|;
    AdmitEffect(s, r, dk, pair, offer);
    assert RoomShaped(s, q) && RoomShaped(t, q);
    forall i | 0 <= i < |t.rooms[q].devices|
      ensures t.devs[t.rooms[q].devices[i]].room == q
    {
      if i < |s.rooms[q].devices| {
        assert t.devs[..d][s.rooms[q].devices[i]] == s.devs[s.rooms[q].devices[i]];
      }
    }
  }

  lemma AdmitKeepsRegistry(s: Relay, r: nat, dk: string, pair: bool, offer: string)
    requires Registry(s) && r < |s.rooms| && Indexed(s, r) && |s.rooms[r].devices| < MAX_DEVICE_SOCKETS
    ensures Registry(Admit(s, r, dk, pair, offer))
  {
    hide Admit, RoomOk;
    var t, d := Admit(s, r, dk, pair, offer), |s.devs|;
    AdmitEffect(s, r, dk, pair, offer);
    AdmitShaped(s, r, dk, pair, offer);
    forall h: nat | h < |t.hosts|
      ensures HostOk(t, h)
    {
      assert HostOk(s, h);
    }
    forall e: nat | e < |t.devs|
      ensures DeviceOk(t, e)
    {
      if e < d {
        assert DeviceOk(s, e);
        assert t.devs[..d][e] == s.devs[e];
      }
    }
    forall q: nat | q < |t.rooms|
      ensures RoomOk(t, q)
    {
      AdmitKeepsRoom(s, r, dk, pair, offer, q);
    }
  }

  lemma AdmitKeepsLink(s: Relay, r: nat, dk: string, pair: bool, offer: string, h: nat, link: nat)
    requires Registry(s) && Traces(s) && r < |s.rooms| && h < |s.hosts| == |Admit(s, r, dk, pair, offer).hosts|
    requires Shaped(Admit(s, r, dk, pair, offer))
    ensures LinkOk(Admit(s, r, dk, pair, offer), h, link)
  {
    hide Admit;
    AdmitEffect(s, r, dk, pair, offer);
    assert LinkOk(s, h, link) && HostOk(s, h) && RoomOk(s, r) && RoomShaped(s, s.hosts[h].room);
    PhaseAppend(s.hosts[h].sent, Opened(|s.devs|, dk, pair), link);
  }

  lemma AdmitKeeps(s: Relay, c: string, dk: string, pair: bool, offer: string)
    requires NearlyInv(s, c) && c in s.index && |s.rooms[s.index[c]].devices| < MAX_DEVICE_SOCKETS
    ensures Inv(Admit(s, s.index[c], dk, pair, offer))
  {
    hide Admit, LinkOk, HostReady;
    var r := s.index[c];
    var t, d := Admit(s, r, dk, pair, offer), |s.devs|;
    AdmitEffect(s, r, dk, pair, offer);
    AdmitKeepsRegistry(s, r, dk, pair, offer);
    forall h: nat, link: nat | h < |t.hosts|
      ensures LinkOk(t, h, link)
    {
      AdmitKeepsLink(s, r, dk, pair, offer, h, link);
    }
    forall e: nat | e < |t.devs|
      ensures PresenceOk(t, e)
    {
      if e < d {
        assert PresenceOk(s, e);
        assert t.devs[..d][e] == s.devs[e];
        AdmitReadiness(s, r, dk, pair, offer, s.devs[e].room);
      } else {
        AdmitReadiness(s, r, dk, pair, offer, r);
      }
    }
    forall row | row in t.box.rows && row.item.state.Delivering?
      ensures Manned(t, row.computer)
    {
      assert Manned(s, row.computer);
      AdmitReadiness(s, r, dk, pair, offer, s.index[row.computer]);
    }
  }

  lemma AttachDeviceKeeps(s: Relay, c: string, dk: string, pair: bool, offer: string)
    requires Inv(s)
    ensures Inv(AttachDevice(s, c, dk, pair, offer))
  {
    hide Admit;
    EnsureRoomKeeps(s, c);
    var t := EnsureRoom(s, c);
    if |t.rooms[t.index[c]].devices| < MAX_DEVICE_SOCKETS {
      AdmitKeeps(t, c, dk, pair, offer);
    }
  }

  // ---- mailbox steps ----

  /** Rows in flight afterwards were in flight before. */
  lemma FewerFlights(s: Relay, t: Relay)
    requires Inv(s) && Alike(s, t) && Valid(t.box)
    requires forall row :: row in t.box.rows && row.item.state.Delivering? ==> row in s.box.rows
    ensures Inv(t)
  {
    hide Registry, Traces, Presences, NoEmptyRoom, Valid, Alike, Manned;
    AlikeKeeps(s, t);
  }

  lemma DeliverFlights(s: Relay, h: nat, row: Row)
    requires Registry(s) && Ordered(s.box) && h < |s.hosts| && Seated(s, h) && s.hosts[h].ready
    requires row in DeliverNext(s.box, s.rooms[s.hosts[h].room].id, s.now).0.rows && row.item.state.Delivering?
    ensures Manned(s, row.computer) || row in s.box.rows
  {
    hide DeliverNext, Ordered;
    var r := s.hosts[h].room;
    var c := s.rooms[r].id;
    assert HostOk(s, h) && RoomOk(s, r) && RoomShaped(s, r);
    if DeliverNext(s.box, c, s.now).1.Some? {
      DeliveredRow(s.box, c, s.now, row);
      DeliveredComputer(s.box, c, s.now);
    } else {
      NothingDelivered(s.box, c, s.now);
    }
  }

  lemma DeliveredComputer(t: Table, c: string, now: int)
    requires DeliverNext(t, c, now).1.Some?
    ensures DeliverNext(t, c, now).1.value.computer == c
  {
  }

  lemma NothingDelivered(t: Table, c: string, now: int)
    requires DeliverNext(t, c, now).1.None?
    ensures DeliverNext(t, c, now).0 == t
  {
  }

  /** A delivery, without the message, then with it. */
  lemma DeliverKeeps(s: Relay, h: nat)
    requires Inv(s) && h < |s.hosts|
    ensures Inv(Deliver(s, h)) && Deliver(s, h).rooms == s.rooms
  {
    hide DeliverNext, Traces, Presences, NoEmptyRoom, Valid, Manned;
    if s.hosts[h].ready && Seated(s, h) {
      var t := Deliver(s, h);
      var (box, row) := DeliverNext(s.box, s.rooms[s.hosts[h].room].id, s.now);
      DeliverAlike(s, h, box, row);
      ValidIsOrdered(s.box);
      DeliverKeepsValid(s.box, s.rooms[s.hosts[h].room].id, s.now);
      AlikeShaped(s, t);
      forall q | q in t.box.rows && q.item.state.Delivering?
        ensures Manned(t, q.computer) || q in s.box.rows
      {
        DeliverFlights(s, h, q);
        AlikeManned(s, t, q.computer);
      }
      AlikeKeeps(s, t);
    }
  }

  lemma ValidIsOrdered(t: Table)
    requires Valid(t)
    ensures Ordered(t)
  {
  }

  lemma AlikeManned(s: Relay, t: Relay, c: string)
    requires Shaped(s) && Shaped(t) && Alike(s, t)
    ensures Manned(s, c) ==> Manned(t, c)
  {
    if Manned(s, c) {
      AlikeReadiness(s, t, s.index[c]);
    }
  }

  lemma DeliverAlike(s: Relay, h: nat, box: Table, row: Option<Row>)
    requires h < |s.hosts|
    ensures Alike(s, if row.Some? then SendHost(s.(box := box), h, ItemSent(row.value)) else s.(box := box))
  {
    if row.Some? {
      SendHostAlike(s.(box := box), h, ItemSent(row.value));
    }
  }

  // ---- a host is ready ----

  /** Opening distinct unseen links leaves exactly those live. */
  lemma {:induction false} OpenAllPhase(s: Relay, h: nat, links: seq<nat>, link: nat)
    requires h < |s.hosts| && Known(links, |s.devs|) && Distinct(links) && s.hosts[h].open
    requires link in links ==> PhaseOf(s.hosts[h].sent, link).Unseen?
    ensures OpenAll(s, h, links).hosts[h] == s.hosts[h].(sent := OpenAll(s, h, links).hosts[h].sent)
    ensures PhaseOf(OpenAll(s, h, links).hosts[h].sent, link) == if link in links then Live else PhaseOf(s.hosts[h].sent, link)
    decreases |links|
  {
    if links != [] {
      var front, d := links[..|links| - 1], links[|links| - 1];
      OpenAllPhase(s, h, front, link);
      PhaseAppend(OpenAll(s, h, front).hosts[h].sent, Opened(d, s.devs[d].dk, s.devs[d].pair), link);
    }
  }

  lemma {:induction false} OpenAllClosed(s: Relay, h: nat, links: seq<nat>)
    requires h < |s.hosts| && Known(links, |s.devs|) && !s.hosts[h].open
    ensures OpenAll(s, h, links) == s
    decreases |links|
  {
    if links != [] {
      OpenAllClosed(s, h, links[..|links| - 1]);
    }
  }

  lemma {:induction false} OpenAllOthers(s: Relay, h: nat, links: seq<nat>, g: nat)
    requires h < |s.hosts| && Known(links, |s.devs|) && g < |s.hosts| && g != h
    ensures OpenAll(s, h, links).hosts[g] == s.hosts[g]
    decreases |links|
  {
    if links != [] {
      OpenAllOthers(s, h, links[..|links| - 1], g);
    }
  }

  /** `ready` before the first delivery. */
  function Readied(s: Relay, h: nat): Relay
    requires Shaped(s) && h < |s.hosts|
  {
    assert RoomShaped(s, s.hosts[h].room);
    OpenAll(Announce(s, h), h, s.rooms[s.hosts[h].room].devices)
  }

  lemma AnnounceEffect(s: Relay, h: nat)
    requires Shaped(s) && h < |s.hosts|
    ensures
      var t, r := Announce(s, h), s.hosts[h].room;
      && t == s.(hosts := t.hosts, rooms := t.rooms, devs := t.devs) && |t.devs| == |s.devs|
      && t.hosts == s.hosts[h := s.hosts[h].(ready := true)]
      && t.rooms == s.rooms[r := s.rooms[r].(lastSeenAt := Some(s.now))]
      && forall d: nat :: d < |s.devs| ==>
           t.devs[d] == (if d in s.rooms[r].devices then Gets(s.devs[d], Presence(true, Some(s.now))) else s.devs[d])
  {
  }

  /** Everything `ready` changes but the traces. */
  lemma ReadiedEffect(s: Relay, h: nat)
    requires Shaped(s) && h < |s.hosts|
    ensures
      var t, r := Readied(s, h), s.hosts[h].room;
      && t == s.(hosts := t.hosts, rooms := t.rooms, devs := t.devs) && SameSizes(s, t)
      && t.rooms == s.rooms[r := s.rooms[r].(lastSeenAt := Some(s.now))]
      && t.devs == Announce(s, h).devs
      && t.hosts[h] == s.hosts[h].(ready := true, sent := t.hosts[h].sent)
      && forall g: nat :: g < |s.hosts| && g != h ==> t.hosts[g] == s.hosts[g]
  {
    hide Announce;
    var r := s.hosts[h].room;
    assert RoomShaped(s, r);
    AnnounceEffect(s, h);
    var up, links := Announce(s, h), s.rooms[r].devices;
    OpenAllSelf(up, h, links);
    forall g: nat | g < |s.hosts| && g != h
      ensures Readied(s, h).hosts[g] == s.hosts[g]
    {
      OpenAllOthers(up, h, links, g);
    }
  }

  lemma {:induction false} OpenAllSelf(s: Relay, h: nat, links: seq<nat>)
    requires h < |s.hosts| && Known(links, |s.devs|)
    ensures OpenAll(s, h, links).hosts[h] == s.hosts[h].(sent := OpenAll(s, h, links).hosts[h].sent)
    decreases |links|
  {
    if links != [] {
      OpenAllSelf(s, h, links[..|links| - 1]);
    }
  }

  lemma ReadiedShaped(s: Relay, h: nat)
    requires Shaped(s) && h < |s.hosts|
    ensures Shaped(Readied(s, h))
  {
    hide Readied, Announce;
    ReadiedEffect(s, h);
    AnnounceEffect(s, h);
    ShapedByRooms(s, Readied(s, h));
  }

  lemma ReadiedReadiness(s: Relay, h: nat, q: nat)
    requires Registry(s) && h < |s.hosts| && Seated(s, h) && q < |s.rooms| && Shaped(Readied(s, h)) && q < |Readied(s, h).rooms|
    ensures RoomShaped(s, q) && RoomShaped(Readied(s, h), q)
    ensures HostReady(Readied(s, h), q) == (q == s.hosts[h].room || HostReady(s, q))
  {
    hide Readied, Announce;
    ReadiedEffect(s, h);
    assert RoomShaped(s, q) && RoomShaped(Readied(s, h), q) && RoomOk(s, q);
  }

  lemma ReadiedKeepsRegistry(s: Relay, h: nat)
    requires Registry(s) && h < |s.hosts| && Seated(s, h)
    ensures Registry(Readied(s, h))
  {
    hide Readied, Announce;
    var t := Readied(s, h);
    ReadiedEffect(s, h);
    AnnounceEffect(s, h);
    ReadiedShaped(s, h);
    forall g: nat | g < |t.hosts|
      ensures HostOk(t, g)
    {
      assert HostOk(s, g);
    }
    forall d: nat | d < |t.devs|
      ensures DeviceOk(t, d)
    {
      assert DeviceOk(s, d);
    }
    forall q: nat | q < |t.rooms|
      ensures RoomOk(t, q)
    {
      assert RoomOk(s, q) && RoomShaped(s, q) && RoomShaped(t, q);
    }
  }

  lemma ReadiedKeepsLink(s: Relay, h: nat, g: nat, link: nat)
    requires Registry(s) && Traces(s) && h < |s.hosts| && Seated(s, h) && !s.hosts[h].ready
    requires Shaped(Readied(s, h)) && g < |s.hosts| == |Readied(s, h).hosts|
    ensures LinkOk(Readied(s, h), g, link)
  {
    hide Announce, OpenAll;
    ReadiedEffect(s, h);
    AnnounceEffect(s, h);
    assert LinkOk(s, g, link);
    if g == h {
      var r := s.hosts[h].room;
      assert RoomShaped(s, r) && RoomOk(s, r);
      if s.hosts[h].open {
        OpenAllPhase(Announce(s, h), h, s.rooms[r].devices, link);
      } else {
        OpenAllClosed(Announce(s, h), h, s.rooms[r].devices);
      }
    }
  }

  lemma ReadiedKeepsPresence(s: Relay, h: nat, d: nat)
    requires Registry(s) && Presences(s) && h < |s.hosts| && Seated(s, h)
    requires Shaped(Readied(s, h)) && d < |s.devs| == |Readied(s, h).devs| && |Readied(s, h).rooms| == |s.rooms|
    ensures PresenceOk(Readied(s, h), d)
  {
    hide Readied, Announce;
    ReadiedEffect(s, h);
    AnnounceEffect(s, h);
    ReadiedReadiness(s, h, s.devs[d].room);
    var r := s.hosts[h].room;
    assert PresenceOk(s, d) && DeviceOk(s, d) && RoomOk(s, r);
    PresenceAppend(s.devs[d].sent, Presence(true, Some(s.now)));
  }

  lemma ReadiedKeeps(s: Relay, h: nat)
    requires Inv(s) && h < |s.hosts| && Seated(s, h) && !s.hosts[h].ready
    ensures Inv(Readied(s, h))
  {
    hide Readied, Announce, LinkOk, PresenceOk, Valid, Seated;
    var t := Readied(s, h);
    ReadiedEffect(s, h);
    ReadiedKeepsRegistry(s, h);
    forall g: nat, link: nat | g < |t.hosts|
      ensures LinkOk(t, g, link)
    {
      ReadiedKeepsLink(s, h, g, link);
    }
    forall d: nat | d < |t.devs|
      ensures PresenceOk(t, d)
    {
      ReadiedKeepsPresence(s, h, d);
    }
    forall row | row in t.box.rows && row.item.state.Delivering?
      ensures Manned(t, row.computer)
    {
      assert Manned(s, row.computer);
      ReadiedReadiness(s, h, s.index[row.computer]);
    }
  }

  lemma OnReadyKeeps(s: Relay, h: nat)
    requires Inv(s) && h < |s.hosts|
    ensures Inv(OnReady(s, h))
  {
    hide Registry, Traces, Presences, NoEmptyRoom, Valid, Flights, Announce, OpenAll, Deliver, Alike;
    InvIsRegistry(s);
    if Seated(s, h) && !s.hosts[h].ready {
      if s.rooms[s.hosts[h].room].id !in s.acls {
        SendHostAlike(s, h, HostTold("badAcl"));
        FewerFlights(s, SendHost(s, h, HostTold("badAcl")));
      } else {
        ReadiedKeeps(s, h);
        ReadiedEffect(s, h);
        DeliverKeeps(Readied(s, h), h);
      }
    }
  }

  lemma InvIsRegistry(s: Relay)
    requires Inv(s)
    ensures Registry(s) && Shaped(s) && Ordered(s.box) && Valid(s.box)
  {
  }

  // ---- the other handlers ----

  lemma SameBoxKeeps(s: Relay, t: Relay)
    requires Inv(s) && Alike(s, t) && t.box == s.box
    ensures Inv(t)
  {
    hide Registry, Traces, Presences, NoEmptyRoom, Valid, Alike;
    FewerFlights(s, t);
  }

  lemma AckRows(t: Table, c: string, number: Option<int>, outcome: Outcome)
    requires Valid(t)
    ensures Valid(Ack(t, c, number, outcome).0)
    ensures forall row :: row in Ack(t, c, number, outcome).0.rows ==> row in t.rows
  {
    hide Valid;
    if Ack(t, c, number, outcome).1.Some? {
      RemovalKeepsValid(t, Not(Is(First(t.rows, Acked(c, number.value)).value)));
    }
  }

  lemma NoteToAlike(s: Relay, r: nat, note: Note)
    requires r < |s.rooms|
    ensures Alike(s, NoteTo(s, r, note)) && NoteTo(s, r, note).box == s.box
  {
    hide Alike;
    BroadcastAlike(s, Filter(s.rooms[r].devices, Addressed(s.devs, note)), MailNote(note));
  }

  lemma OnAckKeeps(s: Relay, h: nat, number: Option<int>, outcome: Outcome)
    requires Inv(s) && h < |s.hosts| && s.hosts[h].room < |s.rooms|
    ensures Inv(OnAck(s, h, number, outcome))
  {
    hide Registry, Traces, Presences, NoEmptyRoom, Valid, Flights, Deliver, Ack, NoteTo;
    var r := s.hosts[h].room;
    if s.rooms[r].host == Some(h) {
      InvIsRegistry(s);
      AckRows(s.box, s.rooms[r].id, number, outcome);
      var (box, note) := Ack(s.box, s.rooms[r].id, number, outcome);
      var acked := s.(box := box);
      FewerFlights(s, acked);
      var noted := if note.Some? then NoteTo(acked, r, note.value) else acked;
      if note.Some? {
        NoteToAlike(acked, r, note.value);
        SameBoxKeeps(acked, noted);
      }
      DeliverKeeps(noted, h);
    }
  }

  lemma OnDataKeeps(s: Relay, h: nat, link: nat, m: string)
    requires Inv(s) && h < |s.hosts|
    ensures Inv(OnData(s, h, link, m))
  {
    hide Traces, Presences, NoEmptyRoom, Valid, Flights, Alike;
    assert RoomShaped(s, s.hosts[h].room);
    if OnData(s, h, link, m) != s {
      SendDeviceAlike(s, link, FromHost(m));
      SameBoxKeeps(s, OnData(s, h, link, m));
    }
  }

  lemma OnCloseDeviceKeeps(s: Relay, h: nat, link: nat)
    requires Inv(s) && h < |s.hosts|
    ensures Inv(OnCloseDevice(s, h, link))
  {
    hide Traces, Presences, NoEmptyRoom, Valid, Flights, DropDevice;
    assert RoomShaped(s, s.hosts[h].room);
    if OnCloseDevice(s, h, link) != s {
      DropDeviceKeeps(s, link);
    }
  }

  lemma FromHostSocketKeeps(s: Relay, h: nat, says: HostSays)
    requires Inv(s) && h < |s.hosts|
    ensures Inv(FromHostSocket(s, h, says))
  {
    hide Registry, Traces, Presences, NoEmptyRoom, Valid, Flights, OnReady, OnData, OnCloseDevice, OnAck, Seated;
    InvIsRegistry(s);
    var t := HearHost(s, h);
    SameBoxKeeps(s, t);
    InvIsRegistry(t);
    if Seated(t, h) {
      match says
      case ReadySaid => OnReadyKeeps(t, h);
      case DataSaid(link, m) => OnDataKeeps(t, h, link, m);
      case CloseSaid(link) => OnCloseDeviceKeeps(t, h, link);
      case AckSaid(number, ok, code) => OnAckKeeps(t, h, number, AckOutcome(ok, code));
      case OtherSaid(answer) =>
        if answer.Some? {
          SendHostAlike(t, h, HostTold(answer.value));
          SameBoxKeeps(t, SendHost(t, h, HostTold(answer.value)));
        }
    }
  }

  lemma {:induction false} DropShutKeeps(s: Relay, acl: Acl, ds: seq<nat>)
    requires Inv(s) && Known(ds, |s.devs|)
    ensures Inv(DropShut(s, acl, ds))
    decreases |ds|
  {
    hide Registry, Traces, Presences, NoEmptyRoom, Valid, Flights, DropDevice, Shut;
    InvIsRegistry(s);
    if ds != [] {
      DropShutKeeps(s, acl, ds[..|ds| - 1]);
      var t, d := DropShut(s, acl, ds[..|ds| - 1]), ds[|ds| - 1];
      DropDeviceKeeps(t, d);
    }
  }

  lemma OnAclCheckedKeeps(s: Relay, h: nat, verdict: Option<Acl>)
    requires Inv(s) && h < |s.hosts|
    ensures Inv(OnAclChecked(s, h, verdict))
  {
    hide Registry, Traces, Presences, NoEmptyRoom, Valid, Flights, Alike, SendHost, DropShut;
    InvIsRegistry(s);
    var r := s.hosts[h].room;
    var id := s.rooms[r].id;
    var current := if id in s.acls then s.acls[id].ver else 0;
    if verdict.None? || verdict.value.computer != id {
      ToldKeeps(s, h, "badAcl");
    } else if verdict.value.ver <= current {
      ToldKeeps(s, h, "staleVersion");
    } else {
      var saved := s.(acls := s.acls[id := verdict.value]);
      SavedAlike(s, s.acls[id := verdict.value]);
      SameBoxKeeps(s, saved);
      InvIsRegistry(saved);
      assert RoomShaped(saved, r);
      DropShutKeeps(saved, verdict.value, s.rooms[r].devices);
      ToldKeeps(DropShut(saved, verdict.value, s.rooms[r].devices), h, "acl.ok");
    }
  }

  lemma SavedAlike(s: Relay, acls: map<string, Acl>)
    ensures Alike(s, s.(acls := acls))
  {
  }

  lemma ToldKeeps(s: Relay, h: nat, text: string)
    requires Inv(s) && h < |s.hosts|
    ensures Inv(SendHost(s, h, HostTold(text)))
  {
    hide Registry, Traces, Presences, NoEmptyRoom, Valid, Flights, Alike;
    SendHostAlike(s, h, HostTold(text));
    SameBoxKeeps(s, SendHost(s, h, HostTold(text)));
  }

  // ---- a device's frame ----

  lemma MailKeeps(s: Relay, d: nat, box: Table, reply: Reply)
    requires Inv(s) && d < |s.devs| && Valid(box)
    requires forall row :: row in box.rows && row.item.state.Delivering? ==> row in s.box.rows
    ensures Inv(SendDevice(s.(box := box), d, MailReply(reply)))
  {
    hide Registry, Traces, Presences, NoEmptyRoom, Valid, Flights, Alike;
    SendDeviceAlike(s.(box := box), d, MailReply(reply));
    AlikeBox(s, box);
    AlikeJoins(s, s.(box := box), SendDevice(s.(box := box), d, MailReply(reply)));
    FewerFlights(s, SendDevice(s.(box := box), d, MailReply(reply)));
  }

  lemma AlikeBox(s: Relay, box: Table)
    ensures Alike(s, s.(box := box))
  {
  }

  lemma PutRows(t: Table, c: string, dk: string, msg: PutMsg, hostReady: bool, now: int)
    ensures forall row :: row in Put(t, c, dk, msg, hostReady, now).0.rows && row.item.state.Delivering? ==> row in t.rows
  {
    hide Screen, HasRoom, First;
  }

  lemma CancelRows(t: Table, c: string, dk: string, field: Field)
    requires Valid(t)
    ensures Valid(Cancel(t, c, dk, field).0)
    ensures forall row :: row in Cancel(t, c, dk, field).0.rows ==> row in t.rows
  {
    hide Valid;
    var row := First(t.rows, Keyed(c, dk, CancelNonce(field)));
    if row.Some? {
      RemovalKeepsValid(t, Not(Is(row.value)));
    }
  }

  lemma OnMailboxKeeps(s: Relay, d: nat, says: DeviceSays)
    requires Inv(s) && d < |s.devs|
    ensures Inv(OnMailbox(s, d, says))
  {
    hide Registry, Traces, Presences, NoEmptyRoom, Valid, Flights, Put, Cancel, SendDevice, HostReady;
    InvIsRegistry(s);
    var r := s.devs[d].room;
    assert RoomShaped(s, r);
    assert s == s.(box := s.box);
    if s.devs[d].pair {
      MailKeeps(s, d, s.box, Err(EchoedNonce(says), Pairing));
    } else {
      match says
      case PutSaid(msg) =>
        PutRows(s.box, s.rooms[r].id, s.devs[d].dk, msg, HostReady(s, r), s.now);
        PutKeepsValid(s.box, s.rooms[r].id, s.devs[d].dk, msg, HostReady(s, r), s.now);
        var (box, reply) := Put(s.box, s.rooms[r].id, s.devs[d].dk, msg, HostReady(s, r), s.now);
        MailKeeps(s, d, box, reply);
      case CancelSaid(nonce) =>
        CancelRows(s.box, s.rooms[r].id, s.devs[d].dk, nonce);
        var (box, reply) := Cancel(s.box, s.rooms[r].id, s.devs[d].dk, nonce);
        MailKeeps(s, d, box, reply);
      case _ => MailKeeps(s, d, s.box, Listing(s.box, s.rooms[r].id, s.devs[d].dk));
    }
  }

  /** A live device's link is open on the ready host of its room. */
  lemma ForwardAlike(s: Relay, d: nat, m: string)
    requires Registry(s) && Traces(s) && d < |s.devs| && !s.devs[d].left
    requires RoomShaped(s, s.devs[d].room) && HostReady(s, s.devs[d].room)
    ensures Alike(s, SendHost(s, s.rooms[s.devs[d].room].host.value, Forwarded(d, m)))
  {
    var r := s.devs[d].room;
    var h := s.rooms[r].host.value;
    assert DeviceOk(s, d) && RoomOk(s, r) && LinkOk(s, h, d);
    forall link: nat
      ensures PhaseOf(Hears(s.hosts[h], Forwarded(d, m)).sent, link) == PhaseOf(s.hosts[h].sent, link)
    {
      PhaseAppend(s.hosts[h].sent, Forwarded(d, m), link);
    }
  }

  lemma PresenceAlike(s: Relay, d: nat)
    requires Presences(s) && d < |s.devs| && !s.devs[d].left && RoomShaped(s, s.devs[d].room)
    ensures Alike(s, SendDevice(s, d, PresenceOf(s, s.devs[d].room)))
  {
    assert PresenceOk(s, d);
    GetsAlike(s.devs[d], PresenceOf(s, s.devs[d].room));
  }

  lemma OnMessageKeeps(s: Relay, d: nat, says: DeviceSays)
    requires Inv(s) && d < |s.devs| && !s.devs[d].left
    ensures Inv(OnMessage(s, d, says))
  {
    hide Registry, Traces, Presences, NoEmptyRoom, Valid, Flights, HostReady, OnMailbox, SendDevice, SendHost, DropDevice, Alike;
    InvIsRegistry(s);
    var r := s.devs[d].room;
    assert RoomShaped(s, r);
    match says
    case PingSaid =>
      SendDeviceAlike(s, d, DevicePong);
      SentDevice(s, d, DevicePong);
      SameBoxKeeps(s, SendDevice(s, d, DevicePong));
    case ChannelSaid(m) => OnChannelKeeps(s, d, m);
    case PutSaid(_) => OnMailboxKeeps(s, d, says);
    case CancelSaid(_) => OnMailboxKeeps(s, d, says);
    case ListSaid(_) => OnMailboxKeeps(s, d, says);
    case _ => DropDeviceKeeps(s, d);
  }

  lemma SentDevice(s: Relay, d: nat, msg: DeviceMsg)
    requires d < |s.devs|
    ensures SendDevice(s, d, msg).box == s.box
  {
  }

  lemma OnChannelKeeps(s: Relay, d: nat, m: string)
    requires Inv(s) && d < |s.devs| && !s.devs[d].left
    ensures Inv(OnMessage(s, d, ChannelSaid(m)))
  {
    hide Traces, Presences, NoEmptyRoom, Valid, Flights, Alike, RoomOk, HostOk, DeviceOk;
    var r := s.devs[d].room;
    assert RoomShaped(s, r);
    if HostReady(s, r) {
      ForwardAlike(s, d, m);
    } else {
      PresenceAlike(s, d);
    }
    SameBoxKeeps(s, OnMessage(s, d, ChannelSaid(m)));
  }

  lemma CountedAlike(s: Relay, d: nat, size: nat)
    requires d < |s.devs|
    ensures Alike(s, Counted(s, d, size)) && Counted(s, d, size).box == s.box && Counted(s, d, size).devs[d].left == s.devs[d].left
  {
  }

  lemma HearDeviceAlike(s: Relay, d: nat)
    requires d < |s.devs|
    ensures Alike(s, HearDevice(s, d)) && HearDevice(s, d).box == s.box && |HearDevice(s, d).devs| == |s.devs|
  {
  }

  lemma OnDeviceKeeps(s: Relay, d: nat, says: DeviceSays, size: nat)
    requires Inv(s) && d < |s.devs|
    ensures Inv(OnDevice(s, d, says, size))
  {
    hide Registry, Traces, Presences, NoEmptyRoom, Valid, Flights, DropDevice, OnMessage, Counted, OverLimit;
    InvIsRegistry(s);
    if s.devs[d].left {
    } else if s.devs[d].pair && s.now >= s.devs[d].until {
      DropDeviceKeeps(s, d);
    } else {
      CountedAlike(s, d, size);
      SameBoxKeeps(s, Counted(s, d, size));
      DropDeviceKeeps(Counted(s, d, size), d);
      OnMessageKeeps(Counted(s, d, size), d, says);
    }
  }

  lemma FromDeviceSocketKeeps(s: Relay, d: nat, says: DeviceSays, size: nat)
    requires Inv(s) && d < |s.devs|
    ensures Inv(FromDeviceSocket(s, d, says, size))
  {
    hide Registry, Traces, Presences, NoEmptyRoom, Valid, Flights, DropDevice, OnDevice, HearDevice;
    InvIsRegistry(s);
    HearDeviceAlike(s, d);
    SameBoxKeeps(s, HearDevice(s, d));
    InvIsRegistry(HearDevice(s, d));
    if says.BinaryFrame? {
      DropDeviceKeeps(HearDevice(s, d), d);
    } else {
      OnDeviceKeeps(HearDevice(s, d), d, says, size);
    }
  }

  // ---- the sweep ----

  lemma {:induction false} SweepDevicesKeeps(s: Relay, ds: seq<nat>)
    requires Inv(s) && Known(ds, |s.devs|)
    ensures Inv(SweepDevices(s, ds))
    decreases |ds|
  {
    hide Registry, Traces, Presences, NoEmptyRoom, Valid, Flights, DropDevice, TimedOut;
    InvIsRegistry(s);
    if ds != [] {
      SweepDevicesKeeps(s, ds[..|ds| - 1]);
      DropDeviceKeeps(SweepDevices(s, ds[..|ds| - 1]), ds[|ds| - 1]);
    }
  }

  lemma SweepHostKeeps(s: Relay, r: nat)
    requires Inv(s) && r < |s.rooms|
    ensures Inv(SweepHost(s, r))
  {
    hide Registry, Traces, Presences, NoEmptyRoom, Valid, Flights, DropHost;
    InvIsRegistry(s);
    assert RoomShaped(s, r);
    if s.rooms[r].host.Some? {
      DropHostKeeps(s, s.rooms[r].host.value);
    }
  }

  lemma ExpireKeeps(s: Relay, r: nat, c: string)
    requires Inv(s) && r < |s.rooms|
    ensures
      var (box, notes) := Expire(s.box, c, s.now);
      Inv(NoteAll(s.(box := box), r, notes))
  {
    hide Registry, Traces, Presences, NoEmptyRoom, Valid, Flights, NoteAll, Alike;
    var (box, notes) := Expire(s.box, c, s.now);
    InvIsRegistry(s);
    RemovalKeepsValid(s.box, Not(Expired(c, s.now)));
    AlikeBox(s, box);
    NoteAllAlike(s.(box := box), r, notes);
    AlikeJoins(s, s.(box := box), NoteAll(s.(box := box), r, notes));
    FewerFlights(s, NoteAll(s.(box := box), r, notes));
  }

  lemma SweepRoomKeeps(s: Relay, r: nat)
    requires Inv(s) && r < |s.rooms|
    ensures Inv(SweepRoom(s, r))
  {
    hide Registry, Traces, Presences, NoEmptyRoom, Valid, Flights, SweepHost, SweepDevices, NoteAll, Expire;
    InvIsRegistry(s);
    var quiet := SweepHost(s, r);
    SweepHostKeeps(s, r);
    assert RoomShaped(quiet, r);
    SweepDevicesKeeps(quiet, quiet.rooms[r].devices);
    var swept := SweepDevices(quiet, quiet.rooms[r].devices);
    ExpireKeeps(swept, r, swept.rooms[r].id);
  }

  lemma {:induction false} SweepRoomsKeeps(s: Relay, n: nat)
    requires Inv(s) && n <= |s.rooms|
    ensures Inv(SweepRooms(s, n))
  {
    hide Registry, Traces, Presences, NoEmptyRoom, Valid, Flights, SweepRoom;
    InvIsRegistry(s);
    if n > 0 {
      SweepRoomsKeeps(s, n - 1);
      SweepRoomKeeps(SweepRooms(s, n - 1), n - 1);
    }
  }

  lemma SweepKeeps(s: Relay)
    requires Inv(s)
    ensures Inv(Sweep(s))
  {
    hide Registry, Traces, Presences, NoEmptyRoom, Valid, Flights, SweepRooms, Alike;
    InvIsRegistry(s);
    SweepRoomsKeeps(s, |s.rooms|);
    var t := SweepRooms(s, |s.rooms|);
    InvIsRegistry(t);
    RemovalKeepsValid(t.box, Not(Outdated(t.now)));
    AlikeBox(t, ExpireAll(t.box, t.now));
    FewerFlights(t, Sweep(s));
  }

  // ---- every event ----

  lemma RestartKeeps(s: Relay)
    requires Inv(s)
    ensures Inv(Next(s, Restarts))
  {
    hide Valid;
    RequeueAllKeepsValid(s.box);
    forall row | row in RequeueAll(s.box).rows
      ensures row.item.state.Queued?
    {
      NothingInFlight(s.box, row);
    }
  }

  lemma StallAlike(s: Relay, e: Event)
    requires Shaped(s) && Possible(s, e) && (e.HostStalls? || e.DeviceStalls? || e.Tick?)
    ensures Alike(s, Next(s, e)) && Next(s, e).box == s.box
  {
  }

  /** Every event keeps the invariant. */
  lemma NextKeeps(s: Relay, e: Event)
    requires Inv(s) && Possible(s, e)
    ensures Inv(Next(s, e))
  {
    hide Registry, Traces, Presences, NoEmptyRoom, Valid, Flights, AttachHost, AttachDevice, FromHostSocket, OnAclChecked, DropHost,
      FromDeviceSocket, DropDevice, Sweep, CloseHost, CloseDevice, Alike;
    InvIsRegistry(s);
    match e
    case HostConnects(c) => AttachHostKeeps(s, c);
    case DeviceConnects(c, dk, pair, offer) => AttachDeviceKeeps(s, c, dk, pair, offer);
    case HostSpeaks(h, says) => FromHostSocketKeeps(s, h, says);
    case AclVerified(h, verdict) => OnAclCheckedKeeps(s, h, verdict);
    case HostEnds(h) => DropHostKeeps(s, h);
    case DeviceSpeaks(d, says, size) => FromDeviceSocketKeeps(s, d, says, size);
    case DeviceEnds(d) => DropDeviceKeeps(s, d);
    case Sweeps => SweepKeeps(s);
    case Restarts => RestartKeeps(s);
    case _ =>
      StallAlike(s, e);
      SameBoxKeeps(s, Next(s, e));
  }
}
