/** What each device and each host of the private relay hears of one event, message by message. */
module RoomVoices {
  import opened Wrappers
  import opened Sequences
  import opened Acls
  import opened MailboxItems
  import opened MailboxTable
  import opened RoomState
  import opened RoomInvariants
  import opened RoomSteps
  import opened RoomSweeps
  import opened RoomRuns
  import opened RoomGuarantees
  import opened RoomExits
  import opened RoomTalk
  import HostTalk

  /** What the device had heard before the event: nothing, if the event made it. */
  function Before(s: Relay, d: nat, k: Kind): seq<DeviceMsg> {
    if d < |s.devs| then Heard(s.devs[d], k) else []
  }

  lemma NothingElse(s: Relay, e: Event, d: nat, k: Kind)
    requires Inv(s) && Shaped(s) && Possible(s, e) && d < |Next(s, e).devs| && !k.Statuses? && !May(e, d, k)
    ensures Heard(Next(s, e).devs[d], k) == Before(s, d, k)
  {
    hide Inv, Next, Heard, May;
    if d < |s.devs| {
      NextHeard(s, e, d, k);
    } else {
      assert e.DeviceConnects? by { MadeByConnect(s, e); }
      NewDeviceHeard(s, e, d, k);
    }
  }

  lemma MadeByConnect(s: Relay, e: Event)
    requires Shaped(s) && Possible(s, e) && |s.devs| < |Next(s, e).devs|
    ensures e.DeviceConnects?
  {
    hide Next;
    if e.Restarts? {
      RestartEmpty(s);
    } else {
      NextSizes(s, e);
    }
  }

  lemma RestartEmpty(s: Relay)
    requires Shaped(s)
    ensures Next(s, Restarts).devs == [] && Next(s, Restarts).hosts == []
  {
  }

  lemma NewDeviceHeard(s: Relay, e: Event, d: nat, k: Kind)
    requires Shaped(s) && Possible(s, e) && e.DeviceConnects? && |s.devs| <= d < |Next(s, e).devs| && !k.Statuses?
    ensures Heard(Next(s, e).devs[d], k) == []
  {
    hide AttachDevice, Heard;
    AttachDeviceHeard(s, e.c, e.dk, e.pair, e.offer, d, k);
  }

  // ---- what hosts say to devices ----

  /** The words of its computer's host in charge that name the device's link, while its socket is open. */
  predicate SpokenTo(s: Relay, e: Event, d: nat)
    requires Possible(s, e)
  {
    && e.HostSpeaks? && e.hostSays.DataSaid? && e.hostSays.link == d && InCharge(s, e.h)
    && d in s.rooms[s.hosts[e.h].room].devices && d < |s.devs| && s.devs[d].open
  }

  /**
   * A device hears each channel message that the host in charge of its room addresses to its link, once and as it
   * was said, and no other: not from another host, not on another link, not after it left.
   */
  lemma HostReachesLink(s: Relay, e: Event, d: nat)
    requires Reachable(s) && Shaped(s) && Possible(s, e) && d < |Next(s, e).devs|
    ensures Heard(Next(s, e).devs[d], Chatter) == Before(s, d, Chatter) + (if SpokenTo(s, e, d) then [FromHost(e.hostSays.m)] else [])
  {
    hide Reachable, Inv, Heard, FromHostSocket;
    ReachableInv(s);
    if e.HostSpeaks? && e.hostSays.DataSaid? {
      HostFrameSize(s, e.h, e.hostSays);
      DataHeard(s, e.h, e.hostSays.link, e.hostSays.m, d);
    } else {
      NothingElse(s, e, d, Chatter);
    }
  }

  lemma DataHeard(s: Relay, h: nat, link: nat, m: string, d: nat)
    requires Shaped(s) && h < |s.hosts| && d < |s.devs| && d < |FromHostSocket(s, h, DataSaid(link, m)).devs|
    ensures Heard(FromHostSocket(s, h, DataSaid(link, m)).devs[d], Chatter)
         == Heard(s.devs[d], Chatter) + (if SpokenTo(s, HostSpeaks(h, DataSaid(link, m)), d) then [FromHost(m)] else [])
  {
    hide OnData, Heard;
    var t := HearHost(s, h);
    ShapedByRooms(s, t);
    if Seated(t, h) {
      OnDataHeard(t, h, link, m, d, Chatter);
    }
  }

  // ---- what devices hear about their items ----

  /** The host in charge acknowledges the row, which is in flight to it. */
  predicate Acknowledges(s: Relay, e: Event, r: Row)
    requires Possible(s, e)
  {
    && e.HostSpeaks? && e.hostSays.AckSaid? && InCharge(s, e.h)
    && e.hostSays.number == Some(r.seq_) && r.seq_ <= 0x1F_FFFF_FFFF_FFFF
    && r in s.box.rows && r.item.state.Delivering? && r.computer == s.rooms[s.hosts[e.h].room].id
  }

  /** An open socket of the row's device, connected to its computer and not there for pairing. */
  predicate Concerned(s: Relay, d: nat, r: Row) {
    && d < |s.devs| && !s.devs[d].left && s.devs[d].open && !s.devs[d].pair
    && s.devs[d].dk == r.item.dk && s.devs[d].room < |s.rooms| && s.rooms[s.devs[d].room].id == r.computer
  }

  /**
   * Acknowledging an item in flight tells each of its device's sockets what became of it, once, and no other socket:
   * delivered exactly when the host said so, else the reason the host gave if it is a known one.
   */
  lemma AckIsTold(s: Relay, e: Event, r: Row, d: nat) returns (outcome: Outcome)
    requires Reachable(s) && Shaped(s) && Possible(s, e) && Acknowledges(s, e, r) && d < |Next(s, e).devs|
    ensures Tells(outcome, e.hostSays.ok, e.hostSays.code)
    ensures Heard(Next(s, e).devs[d], Notes)
         == Before(s, d, Notes) + (if Concerned(s, d, r) then [MailNote(Note(r.item.dk, r.item.nonce, outcome))] else [])
  {
    hide Reachable, Heard, FromHostSocket, Ack, Traces, Presences, NoEmptyRoom, Valid, AckOutcome;
    ReachableInv(s);
    InvIsRegistry(s);
    var h, says := e.h, e.hostSays;
    outcome := AckOutcome(says.ok, says.code);
    OutcomeTells(says.ok, says.code);
    HostFrameSize(s, h, says);
    AckFrameHeard(s, h, says.number, says.ok, says.code, d);
    AckFinds(s.box, r, outcome);
    NotedIsConcerned(s, h, d, r, outcome);
  }

  lemma AckFinds(t: Table, r: Row, outcome: Outcome)
    requires Ordered(t) && r in t.rows && r.item.state.Delivering? && SafeInteger(r.seq_)
    ensures Ack(t, r.computer, Some(r.seq_), outcome).1 == Some(Note(r.item.dk, r.item.nonce, outcome))
  {
    FirstIsLeast(t.rows, Acked(r.computer, r.seq_), SeqOf(), r);
  }

  lemma AckFrameHeard(s: Relay, h: nat, number: Option<int>, ok: bool, code: Field, d: nat)
    requires Shaped(s) && h < |s.hosts| && Seated(s, h) && d < |s.devs|
    requires d < |FromHostSocket(s, h, AckSaid(number, ok, code)).devs|
    ensures
      var r := s.hosts[h].room;
      var note := Ack(s.box, s.rooms[r].id, number, AckOutcome(ok, code)).1;
      Heard(FromHostSocket(s, h, AckSaid(number, ok, code)).devs[d], Notes)
        == Heard(s.devs[d], Notes) + (if note.Some? && NotedBy(s, r, d, note.value) then [MailNote(note.value)] else [])
  {
    hide OnAck, Ack, Heard, AckOutcome;
    var t := HearHost(s, h);
    ShapedByRooms(s, t);
    OnAckHeard(t, h, number, AckOutcome(ok, code), d, Notes);
  }

  lemma NotedIsConcerned(s: Relay, h: nat, d: nat, r: Row, outcome: Outcome)
    requires Registry(s) && h < |s.hosts| && Seated(s, h) && d < |s.devs| && r.computer == s.rooms[s.hosts[h].room].id
    ensures NotedBy(s, s.hosts[h].room, d, Note(r.item.dk, r.item.nonce, outcome)) <==> Concerned(s, d, r)
  {
    var room := s.hosts[h].room;
    assert RoomOk(s, room) && RoomShaped(s, room) && DeviceOk(s, d) && RoomOk(s, s.devs[d].room);
  }

  /** Between sweeps, a device hears of no item but one that its computer's host in charge acknowledges. */
  lemma NoOtherNote(s: Relay, e: Event, d: nat)
    requires Reachable(s) && Shaped(s) && Possible(s, e) && d < |Next(s, e).devs|
    requires !e.Sweeps? && forall r :: !Acknowledges(s, e, r)
    ensures Heard(Next(s, e).devs[d], Notes) == Before(s, d, Notes)
  {
    hide Reachable, Heard, FromHostSocket, Ack, Traces, Presences, NoEmptyRoom, Valid, AckOutcome, Inv;
    ReachableInv(s);
    if e.HostSpeaks? && e.hostSays.AckSaid? {
      HostFrameSize(s, e.h, e.hostSays);
      NoAckNoNote(s, e, d);
    } else {
      NothingElse(s, e, d, Notes);
    }
  }

  lemma NoAckNoNote(s: Relay, e: Event, d: nat)
    requires Inv(s) && Shaped(s) && Possible(s, e) && e.HostSpeaks? && e.hostSays.AckSaid? && d < |s.devs|
    requires d < |FromHostSocket(s, e.h, e.hostSays).devs| && forall r :: !Acknowledges(s, e, r)
    ensures Heard(FromHostSocket(s, e.h, e.hostSays).devs[d], Notes) == Heard(s.devs[d], Notes)
  {
    hide Heard, Ack, Traces, Presences, NoEmptyRoom, Valid, AckOutcome, OnAck;
    var says := e.hostSays;
    if Seated(s, e.h) {
      AckFrameHeard(s, e.h, says.number, says.ok, says.code, d);
      NothingToAck(s, e);
    }
  }

  lemma NothingToAck(s: Relay, e: Event)
    requires Registry(s) && Flights(s) && Possible(s, e) && e.HostSpeaks? && e.hostSays.AckSaid? && Seated(s, e.h)
    requires forall r :: !Acknowledges(s, e, r)
    ensures Ack(s.box, s.rooms[s.hosts[e.h].room].id, e.hostSays.number, AckOutcome(e.hostSays.ok, e.hostSays.code)).1.None?
  {
    hide AckOutcome;
    var room := s.hosts[e.h].room;
    var c := s.rooms[room].id;
    assert RoomOk(s, room) && RoomShaped(s, room);
    if e.hostSays.number.Some? {
      forall r | r in s.box.rows
        ensures !Acked(c, e.hostSays.number.value)(r) || !SafeInteger(e.hostSays.number.value)
      {
        assert !Acknowledges(s, e, r);
        assert r.item.state.Delivering? ==> Manned(s, r.computer);
      }
    }
  }

  // ---- what devices say to hosts ----

  /** What the host had been told before the event: nothing, if the event made it. */
  function ToldBefore(s: Relay, g: nat, k: HostTalk.Kind): seq<HostMsg> {
    if g < |s.hosts| then HostTalk.Told(s.hosts[g], k) else []
  }

  lemma NothingElseTold(s: Relay, e: Event, g: nat, k: HostTalk.Kind)
    requires Inv(s) && Shaped(s) && Possible(s, e) && g < |Next(s, e).hosts| && !k.Closings? && !HostTalk.May(e, g, k)
    ensures HostTalk.Told(Next(s, e).hosts[g], k) == ToldBefore(s, g, k)
  {
    hide Inv, Next, HostTalk.May;
    if g < |s.hosts| {
      HostTalk.NextTold(s, e, g, k);
    } else {
      NewHostTold(s, e, g);
    }
  }

  lemma NewHostTold(s: Relay, e: Event, g: nat)
    requires Inv(s) && Shaped(s) && Possible(s, e) && |s.hosts| <= g < |Next(s, e).hosts|
    ensures Next(s, e).hosts[g].sent == []
  {
    hide Inv, AttachHost;
    InvIsRegistry(s);
    if !e.Restarts? {
      HostMadeByConnect(s, e);
      HostTalk.AttachHostTold(s, e.c, g);
    }
  }

  lemma HostMadeByConnect(s: Relay, e: Event)
    requires Shaped(s) && Possible(s, e) && |s.hosts| < |Next(s, e).hosts| && !e.Restarts?
    ensures e.HostConnects?
  {
    hide Next;
    NextSizes(s, e);
  }

  /** A channel message of a device that the relay takes, with the host in charge of its room there to hear it. */
  predicate PassedOn(s: Relay, e: Event, g: nat)
    requires Possible(s, e)
  {
    && e.DeviceSpeaks? && e.says.ChannelSaid? && !s.devs[e.d].left && !Rejected(s, e.d, e.says, e.size)
    && g < |s.hosts| && s.hosts[g].open && InCharge(s, g) && s.hosts[g].room == s.devs[e.d].room
  }

  /**
   * A host in charge hears each channel message the relay takes from a device of its room, once, as it was said and
   * under the device's own link; no other host hears it, and nothing else is passed on.
   */
  lemma DeviceReachesHost(s: Relay, e: Event, g: nat)
    requires Reachable(s) && Shaped(s) && Possible(s, e) && g < |Next(s, e).hosts|
    ensures HostTalk.Told(Next(s, e).hosts[g], HostTalk.Forwards)
         == ToldBefore(s, g, HostTalk.Forwards) + (if PassedOn(s, e, g) then [Forwarded(e.d, e.says.m)] else [])
  {
    hide Reachable, FromDeviceSocket, Rejected, Traces, NoEmptyRoom, Valid, HostTalk.Told, Flights;
    ReachableInv(s);
    InvIsRegistry(s);
    if e.DeviceSpeaks? {
      DeviceFrameSize(s, e.d, e.says, e.size);
      HostTalk.DeviceFrameTold(s, e.d, e.says, e.size, g, HostTalk.Forwards);
      HostsIsInCharge(s, g, e.d);
    } else {
      NothingElseTold(s, e, g, HostTalk.Forwards);
    }
  }

  lemma HostsIsInCharge(s: Relay, g: nat, d: nat)
    requires Registry(s) && g < |s.hosts| && d < |s.devs|
    ensures HostTalk.Hosts(s, g, d) <==> s.hosts[g].open && InCharge(s, g) && s.hosts[g].room == s.devs[d].room
  {
    assert HostOk(s, g) && RoomOk(s, s.devs[d].room) && RoomShaped(s, s.devs[d].room);
  }

  // ---- what else a host is told ----

  /** The links that the event opens on the host's socket, each with its device's key and kind. */
  function OpenedBy(s: Relay, e: Event, g: nat): seq<HostMsg>
    requires Shaped(s) && Possible(s, e)
  {
    if g >= |s.hosts| || !s.hosts[g].open then []
    else if e == HostSpeaks(g, ReadySaid) && HostTalk.Rises(s, g) then
      assert RoomShaped(s, s.hosts[g].room);
      var links := s.rooms[s.hosts[g].room].devices;
      seq(|links|, i requires 0 <= i < |links| => Opened(links[i], s.devs[links[i]].dk, s.devs[links[i]].pair))
    else if e.DeviceConnects? && |Next(s, e).devs| > |s.devs| && HostTalk.Listens(s, g, e.c) then [Opened(|s.devs|, e.dk, e.pair)]
    else []
  }

  /**
   * A link is opened on a host's socket when the host becomes ready and the device is there, in the order of the room,
   * or when the device connects and the host is in charge; each under the device's own key and as a pairing or not.
   */
  lemma LinksAreOpened(s: Relay, e: Event, g: nat)
    requires Reachable(s) && Shaped(s) && Possible(s, e) && g < |Next(s, e).hosts|
    ensures HostTalk.Told(Next(s, e).hosts[g], HostTalk.Openings) == ToldBefore(s, g, HostTalk.Openings) + OpenedBy(s, e, g)
  {
    hide Reachable, FromHostSocket, AttachDevice, Inv, HostTalk.Told, HostTalk.Listens;
    ReachableInv(s);
    InvIsRegistry(s);
    if e.HostSpeaks? && e.h == g && e.hostSays.ReadySaid? {
      HostFrameSize(s, g, ReadySaid);
      ReadyOpens(s, g);
    } else if e.DeviceConnects? {
      AttachDeviceSize(s, e.c, e.dk, e.pair, e.offer);
      HostTalk.AttachDeviceTold(s, e.c, e.dk, e.pair, e.offer, g, HostTalk.Openings);
      ListensIsOpen(s, g, e.c);
    } else {
      NothingElseTold(s, e, g, HostTalk.Openings);
    }
  }

  lemma ListensIsOpen(s: Relay, g: nat, c: string)
    requires g < |s.hosts|
    ensures HostTalk.Listens(s, g, c) ==> s.hosts[g].open
  {
  }

  lemma ReadyOpens(s: Relay, g: nat)
    requires Shaped(s) && g < |s.hosts| && g < |FromHostSocket(s, g, ReadySaid).hosts|
    ensures HostTalk.Told(FromHostSocket(s, g, ReadySaid).hosts[g], HostTalk.Openings)
         == HostTalk.Told(s.hosts[g], HostTalk.Openings) + OpenedBy(s, HostSpeaks(g, ReadySaid), g)
  {
    hide OnReady, DeliverNext, HostTalk.Told;
    var t := HearHost(s, g);
    ShapedByRooms(s, t);
    HostTalk.HeardTold(s, g, g, HostTalk.Openings);
    assert RoomShaped(s, s.hosts[g].room);
    if Seated(t, g) {
      HostTalk.OnReadyTold(t, g, g, HostTalk.Openings);
    }
  }

  /** What the relay answers a host: about its list, or about a frame that is neither data nor an acknowledgement. */
  function AnswerTo(s: Relay, e: Event, g: nat): Option<string>
    requires Shaped(s) && Possible(s, e)
  {
    if e.AclVerified? && e.h == g then
      if e.verdict.None? || e.verdict.value.computer != s.rooms[s.hosts[g].room].id then Some("badAcl")
      else if Newer(s, g, e.verdict) then Some("acl.ok")
      else Some("staleVersion")
    else if e.HostSpeaks? && e.h == g && Seated(s, g) then
      match e.hostSays
      case ReadySaid => if s.hosts[g].ready || s.rooms[s.hosts[g].room].id in s.acls then None else Some("badAcl")
      case OtherSaid(answer) => answer
      case _ => None
    else None
  }

  /** Each host on an open socket gets the answers to its own frames and to no one else's. */
  lemma HostIsAnswered(s: Relay, e: Event, g: nat)
    requires Reachable(s) && Shaped(s) && Possible(s, e) && g < |Next(s, e).hosts|
    ensures
      var answer := AnswerTo(s, e, g);
      HostTalk.Told(Next(s, e).hosts[g], HostTalk.Tellings) == ToldBefore(s, g, HostTalk.Tellings) +
        (if answer.Some? && g < |s.hosts| && s.hosts[g].open then [HostTold(answer.value)] else [])
  {
    hide Reachable, FromHostSocket, OnAclChecked, Inv, HostTalk.Told, Newer;
    ReachableInv(s);
    InvIsRegistry(s);
    if e.HostSpeaks? && e.h == g {
      HostFrameSize(s, g, e.hostSays);
      FrameAnswered(s, g, e.hostSays);
    } else if e.AclVerified? && e.h == g {
      OnAclSize(s, g, e.verdict);
      HostTalk.OnAclCheckedTold(s, g, e.verdict, g, HostTalk.Tellings);
    } else {
      NothingElseTold(s, e, g, HostTalk.Tellings);
    }
  }

  lemma FrameAnswered(s: Relay, g: nat, says: HostSays)
    requires Shaped(s) && g < |s.hosts| && g < |FromHostSocket(s, g, says).hosts|
    ensures
      var answer := AnswerTo(s, HostSpeaks(g, says), g);
      HostTalk.Told(FromHostSocket(s, g, says).hosts[g], HostTalk.Tellings) == HostTalk.Told(s.hosts[g], HostTalk.Tellings) +
        (if answer.Some? && s.hosts[g].open then [HostTold(answer.value)] else [])
  {
    hide OnReady, OnData, OnCloseDevice, OnAck, HostTalk.Told, AckOutcome, DeliverNext, Ack;
    var t := HearHost(s, g);
    ShapedByRooms(s, t);
    HostTalk.HeardTold(s, g, g, HostTalk.Tellings);
    if Seated(t, g) {
      match says
      case ReadySaid => HostTalk.OnReadyTold(t, g, g, HostTalk.Tellings);
      case DataSaid(link, m) => HostTalk.OnDataTold(t, g, link, m);
      case CloseSaid(link) => HostTalk.OnCloseDeviceTold(t, g, link, g, HostTalk.Tellings);
      case AckSaid(number, ok, code) => HostTalk.OnAckTold(t, g, number, AckOutcome(ok, code), g, HostTalk.Tellings);
      case OtherSaid(answer) =>
        if answer.Some? {
          HostTalk.SendHostTold(t, g, HostTold(answer.value), g, HostTalk.Tellings);
        }
    }
  }
}
