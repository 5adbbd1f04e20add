/**
 * What every step of the rooms keeps: the registry, what a host has been told, the presence devices were told, and
 * the in-flight rule.
 */
module RoomInvariants {
  import opened Wrappers
  import opened Sequences
  import opened MailboxItems
  import opened MailboxTable
  import opened RoomState

  // ---- one link's part of a host's trace ----

  datatype Phase = Unseen | Live | Over | Broken

  function Advance(p: Phase, msg: HostMsg, link: nat): Phase {
    match msg
    case Opened(l, _, _) => if l != link then p else if p.Unseen? then Live else Broken
    case Forwarded(l, _) => if l != link || p.Live? then p else Broken
    case Closed(l) => if l != link then p else if p.Live? then Over else Broken
    case _ => p
  }

  function PhaseOf(sent: seq<HostMsg>, link: nat): Phase {
    if sent == [] then Unseen else Advance(PhaseOf(sent[..|sent| - 1], link), sent[|sent| - 1], link)
  }

  predicate About(msg: HostMsg, link: nat) {
    (msg.Opened? && msg.link == link) || (msg.Forwarded? && msg.link == link) || (msg.Closed? && msg.link == link)
  }

  function AboutLink(link: nat): HostMsg -> bool { (msg: HostMsg) => About(msg, link) }

  /** The link's messages, in order. */
  function LinkTrace(sent: seq<HostMsg>, link: nat): seq<HostMsg> {
    Filter(sent, AboutLink(link))
  }

  /** Nothing, or one open, then data, then at most one close. */
  predicate Bracketed(t: seq<HostMsg>) {
    && (forall i :: 0 <= i < |t| ==> (t[i].Opened? <==> i == 0))
    && (forall i :: 0 <= i < |t| - 1 ==> !t[i].Closed?)
  }

  /** The phase a bracketed trace is in. */
  function ReadPhase(t: seq<HostMsg>): Phase {
    if !Bracketed(t) then Broken else if t == [] then Unseen else if t[|t| - 1].Closed? then Over else Live
  }

  lemma ReadStep(t: seq<HostMsg>, msg: HostMsg, link: nat)
    requires About(msg, link)
    ensures ReadPhase(t + [msg]) == Advance(ReadPhase(t), msg, link)
  {
    var u := t + [msg];
    assert u[|t|] == msg;
    if !Bracketed(t) {
      if Bracketed(u) {
        forall i | 0 <= i < |t|
          ensures t[i].Opened? <==> i == 0
          ensures i < |t| - 1 ==> !t[i].Closed?
        {
          assert u[i] == t[i];
        }
      }
    } else if t != [] && t[|t| - 1].Closed? {
      assert u[|t| - 1].Closed?;
    } else if Advance(ReadPhase(t), msg, link) != Broken {
      forall i | 0 <= i < |u|
        ensures u[i].Opened? <==> i == 0
        ensures i < |u| - 1 ==> !u[i].Closed?
      {
        if i < |t| {
          assert u[i] == t[i];
        }
      }
    }
  }

  /**
   * The phases read the trace as one would: a link is not broken exactly when its messages are nothing, or one open,
   * then data, then at most one close.
   */
  lemma {:induction false} PhaseReadsTrace(sent: seq<HostMsg>, link: nat)
    ensures PhaseOf(sent, link) == ReadPhase(LinkTrace(sent, link))
  {
    if sent != [] {
      PhaseReadsTrace(sent[..|sent| - 1], link);
      if About(sent[|sent| - 1], link) {
        ReadStep(LinkTrace(sent[..|sent| - 1], link), sent[|sent| - 1], link);
      }
    }
  }

  lemma PhaseAppend(sent: seq<HostMsg>, msg: HostMsg, link: nat)
    ensures PhaseOf(sent + [msg], link) == Advance(PhaseOf(sent, link), msg, link)
  {
    assert (sent + [msg])[..|sent|] == sent;
  }

  /** The presence a device was last told. */
  function LastPresence(sent: seq<DeviceMsg>): Option<bool> {
    if sent == [] then None
    else if sent[|sent| - 1].Presence? then Some(sent[|sent| - 1].online)
    else LastPresence(sent[..|sent| - 1])
  }

  lemma PresenceAppend(sent: seq<DeviceMsg>, msg: DeviceMsg)
    ensures LastPresence(sent + [msg]) == if msg.Presence? then Some(msg.online) else LastPresence(sent)
  {
    assert (sent + [msg])[..|sent|] == sent;
  }

  // ---- the invariant ----

  predicate Distinct(ds: seq<nat>) {
    forall i, j :: 0 <= i < j < |ds| ==> ds[i] != ds[j]
  }

  /** A live host is its room's host. */
  predicate HostOk(s: Relay, h: nat)
    requires Shaped(s) && h < |s.hosts|
  {
    (s.hosts[h].left ==> !s.hosts[h].ready) && (!s.hosts[h].left ==> s.rooms[s.hosts[h].room].host == Some(h))
  }

  /** A device is listed exactly while it has not left. */
  predicate DeviceOk(s: Relay, d: nat)
    requires Shaped(s) && d < |s.devs|
  {
    !s.devs[d].left <==> d in s.rooms[s.devs[d].room].devices
  }

  /** A room's connections are its own, at most 16 of them devices, and a room in use is the one the map holds. */
  predicate RoomOk(s: Relay, r: nat)
    requires Shaped(s) && r < |s.rooms|
  {
    assert RoomShaped(s, r);
    && (s.rooms[r].host.Some? ==> s.hosts[s.rooms[r].host.value].room == r && !s.hosts[s.rooms[r].host.value].left)
    && (forall i :: 0 <= i < |s.rooms[r].devices| ==> s.devs[s.rooms[r].devices[i]].room == r)
    && Distinct(s.rooms[r].devices) && |s.rooms[r].devices| <= MAX_DEVICE_SOCKETS
    && (Occupied(s.rooms[r]) ==> Indexed(s, r))
  }

  ghost predicate Registry(s: Relay) {
    && Shaped(s)
    && (forall h: nat :: h < |s.hosts| ==> HostOk(s, h))
    && (forall d: nat :: d < |s.devs| ==> DeviceOk(s, d))
    && (forall r: nat :: r < |s.rooms| ==> RoomOk(s, r))
    && (forall id :: id in s.index ==> s.rooms[s.index[id]].id == id)
  }

  /** No room is kept for nobody. */
  ghost predicate NoEmptyRoom(s: Relay) {
    Shaped(s) && forall id :: id in s.index ==> Occupied(s.rooms[s.index[id]])
  }

  predicate LinkOk(s: Relay, h: nat, link: nat)
    requires Shaped(s) && h < |s.hosts|
  {
    var host := s.hosts[h];
    var p := PhaseOf(host.sent, link);
    && p != Broken
    && (link >= |s.devs| || (!host.left && !host.ready) ==> p == Unseen)
    && (host.ready && host.open ==> (p == Live <==> link in s.rooms[host.room].devices))
  }

  ghost predicate Traces(s: Relay) {
    Shaped(s) && forall h: nat, link: nat :: h < |s.hosts| ==> LinkOk(s, h, link)
  }

  predicate PresenceOk(s: Relay, d: nat)
    requires Shaped(s) && d < |s.devs|
  {
    assert RoomShaped(s, s.devs[d].room);
    !s.devs[d].left && s.devs[d].open ==> LastPresence(s.devs[d].sent) == Some(HostReady(s, s.devs[d].room))
  }

  ghost predicate Presences(s: Relay) {
    Shaped(s) && forall d: nat :: d < |s.devs| ==> PresenceOk(s, d)
  }

  /** The computer's room has a ready host. */
  predicate Manned(s: Relay, c: string)
    requires Shaped(s)
  {
    c in s.index && (assert RoomShaped(s, s.index[c]); HostReady(s, s.index[c]))
  }

  ghost predicate Flights(s: Relay) {
    Shaped(s) && forall row :: row in s.box.rows && row.item.state.Delivering? ==> Manned(s, row.computer)
  }

  ghost predicate Inv(s: Relay) {
    Registry(s) && NoEmptyRoom(s) && Traces(s) && Presences(s) && Flights(s) && Valid(s.box)
  }

  // ---- dropping a device ----

  lemma DropDeviceEffect(s: Relay, d: nat)
    requires Shaped(s) && d < |s.devs| && !s.devs[d].left
    ensures
      var t, r := DropDevice(s, d), s.devs[d].room;
      && t == s.(index := t.index, rooms := t.rooms, hosts := t.hosts, devs := t.devs)
      && t.devs == s.devs[d := s.devs[d].(left := true, open := false)]
      && t.rooms == s.rooms[r := s.rooms[r].(devices := Filter(s.rooms[r].devices, OtherThan(d)))]
      && t.index == (if Occupied(t.rooms[r]) then s.index else s.index - {s.rooms[r].id})
      && RoomShaped(s, r)
      && t.hosts == (if HostReady(s, r) then s.hosts[s.rooms[r].host.value := Hears(s.hosts[s.rooms[r].host.value], Closed(d))] else s.hosts)
  {
    assert RoomShaped(s, s.devs[d].room);
  }

  lemma FilterDistinct(ds: seq<nat>, keep: nat -> bool)
    requires Distinct(ds)
    ensures Distinct(Filter(ds, keep))
  {
    if ds != [] {
      FilterDistinct(ds[..|ds| - 1], keep);
      var f := Filter(ds[..|ds| - 1], keep);
      forall i | 0 <= i < |f|
        ensures f[i] != ds[|ds| - 1]
      {
        assert f[i] in f;
      }
    }
  }

  lemma DropDeviceKeepsRoom(s: Relay, d: nat, r: nat)
    requires Registry(s) && d < |s.devs| && !s.devs[d].left && r < |s.rooms| && Shaped(DropDevice(s, d))
    ensures RoomOk(DropDevice(s, d), r)
  {
    var t, r0 := DropDevice(s, d), s.devs[d].room;
    DropDeviceEffect(s, d);
    assert RoomOk(s, r) && RoomOk(s, r0) && DeviceOk(s, d) && RoomShaped(s, r) && RoomShaped(t, r);
    assert s.rooms[r0].devices != [];
    if r == r0 {
      FilterDistinct(s.rooms[r].devices, OtherThan(d));
      var kept := t.rooms[r].devices;
      forall i | 0 <= i < |kept|
        ensures t.devs[kept[i]].room == r
      {
        assert kept[i] in s.rooms[r].devices;
      }
    }
  }

  lemma DropDeviceKeepsRegistry(s: Relay, d: nat)
    requires Registry(s) && d < |s.devs|
    ensures Registry(DropDevice(s, d))
  {
    if !s.devs[d].left {
      var t := DropDevice(s, d);
      DropDeviceEffect(s, d);
      DropDeviceShaped(s, d);
      forall h: nat | h < |t.hosts|
        ensures HostOk(t, h)
      {
        assert HostOk(s, h);
      }
      forall e: nat | e < |t.devs|
        ensures DeviceOk(t, e)
      {
        assert DeviceOk(s, e);
      }
      forall r: nat | r < |t.rooms|
        ensures RoomOk(t, r)
      {
        DropDeviceKeepsRoom(s, d, r);
      }
    }
  }

  lemma DropDeviceKeepsIndex(s: Relay, d: nat)
    requires Registry(s) && NoEmptyRoom(s) && d < |s.devs|
    ensures NoEmptyRoom(DropDevice(s, d))
  {
    DropDeviceShaped(s, d);
    if !s.devs[d].left {
      DropDeviceEffect(s, d);
    }
  }

  lemma DropDeviceKeepsManned(s: Relay, d: nat, c: string)
    requires Registry(s) && d < |s.devs| && Shaped(DropDevice(s, d)) && Manned(s, c)
    ensures Manned(DropDevice(s, d), c)
  {
    if !s.devs[d].left {
      DropDeviceEffect(s, d);
      var t := DropDevice(s, d);
      assert DeviceOk(s, d) && RoomOk(s, s.devs[d].room);
      assert s.rooms[s.devs[d].room].devices != [];
      assert RoomShaped(t, s.index[c]) && RoomShaped(s, s.index[c]);
    }
  }

  lemma DropDeviceKeepsFlights(s: Relay, d: nat)
    requires Registry(s) && Flights(s) && d < |s.devs|
    ensures Flights(DropDevice(s, d)) && DropDevice(s, d).box == s.box
  {
    DropDeviceShaped(s, d);
    forall row | row in s.box.rows && row.item.state.Delivering?
      ensures Manned(DropDevice(s, d), row.computer)
    {
      DropDeviceKeepsManned(s, d, row.computer);
    }
  }

  lemma DropDeviceKeepsPresences(s: Relay, d: nat)
    requires Registry(s) && Presences(s) && d < |s.devs|
    ensures Presences(DropDevice(s, d))
  {
    DropDeviceShaped(s, d);
    if !s.devs[d].left {
      DropDeviceEffect(s, d);
      var t := DropDevice(s, d);
      forall e: nat | e < |t.devs|
        ensures PresenceOk(t, e)
      {
        assert PresenceOk(s, e);
        assert RoomShaped(t, t.devs[e].room) && RoomShaped(s, t.devs[e].room);
      }
    }
  }

  lemma DropDeviceKeepsLink(s: Relay, d: nat, h: nat, link: nat)
    requires Registry(s) && Traces(s) && d < |s.devs| && !s.devs[d].left && h < |s.hosts| && Shaped(DropDevice(s, d))
    ensures LinkOk(DropDevice(s, d), h, link)
  {
    hide DropDevice;
    DropDeviceEffect(s, d);
    var r := s.devs[d].room;
    assert LinkOk(s, h, link) && HostOk(s, h) && DeviceOk(s, d) && RoomOk(s, r) && RoomShaped(s, r);
    assert LinkOk(s, h, d);
    PhaseAppend(s.hosts[h].sent, Closed(d), link);
  }

  lemma DropDeviceKeepsTraces(s: Relay, d: nat)
    requires Registry(s) && Traces(s) && d < |s.devs|
    ensures Traces(DropDevice(s, d))
  {
    DropDeviceShaped(s, d);
    if !s.devs[d].left {
      forall h: nat, link: nat | h < |s.hosts|
        ensures LinkOk(DropDevice(s, d), h, link)
      {
        DropDeviceKeepsLink(s, d, h, link);
      }
    }
  }

  lemma DropDeviceKeeps(s: Relay, d: nat)
    requires Inv(s) && d < |s.devs|
    ensures Inv(DropDevice(s, d))
  {
    DropDeviceKeepsRegistry(s, d);
    DropDeviceKeepsIndex(s, d);
    DropDeviceKeepsTraces(s, d);
    DropDeviceKeepsPresences(s, d);
    DropDeviceKeepsFlights(s, d);
  }

  // ---- dropping a host ----

  lemma DropHostEffect(s: Relay, h: nat, keepRoom: bool)
    requires Registry(s) && h < |s.hosts| && !s.hosts[h].left
    ensures
      var t, r := DropHost(s, h, keepRoom), s.hosts[h].room;
      var wasReady := s.hosts[h].ready;
      && t == s.(index := t.index, rooms := t.rooms, hosts := t.hosts, devs := t.devs, box := t.box)
      && t.hosts == s.hosts[h := s.hosts[h].(left := true, ready := false, open := false)]
      && t.rooms == s.rooms[r := s.rooms[r].(host := None, lastSeenAt := if wasReady then Some(s.now) else s.rooms[r].lastSeenAt)]
      && t.index == (if keepRoom || Occupied(t.rooms[r]) then s.index else s.index - {s.rooms[r].id})
      && t.box == (if wasReady then Requeue(s.box, s.rooms[r].id) else s.box)
      && (!wasReady ==> t.devs == s.devs)
      && forall d: nat :: d < |s.devs| && wasReady ==>
           t.devs[d] == (if d in s.rooms[r].devices then Gets(s.devs[d], Presence(false, Some(s.now))) else s.devs[d])
  {
    assert HostOk(s, h);
  }

  lemma DropHostKeepsRegistry(s: Relay, h: nat, keepRoom: bool)
    requires Registry(s) && h < |s.hosts|
    ensures Registry(DropHost(s, h, keepRoom))
  {
    if !s.hosts[h].left {
      var t, r0 := DropHost(s, h, keepRoom), s.hosts[h].room;
      DropHostShaped(s, h, keepRoom);
      DropHostEffect(s, h, keepRoom);
      assert RoomOk(s, r0) && HostOk(s, h);
      forall g: nat | g < |t.hosts|
        ensures HostOk(t, g)
      {
        assert HostOk(s, g);
      }
      forall d: nat | d < |t.devs|
        ensures DeviceOk(t, d)
      {
        assert DeviceOk(s, d);
      }
      forall r: nat | r < |t.rooms|
        ensures RoomOk(t, r)
      {
        assert RoomOk(s, r) && RoomShaped(s, r) && RoomShaped(t, r);
      }
    }
  }

  lemma DropHostKeepsIndex(s: Relay, h: nat)
    requires Registry(s) && NoEmptyRoom(s) && h < |s.hosts|
    ensures NoEmptyRoom(DropHost(s, h, false))
  {
    DropHostShaped(s, h, false);
    if !s.hosts[h].left {
      DropHostEffect(s, h, false);
    }
  }

  /** Other rooms' hosts are as ready as before, and this room has none. */
  lemma DropHostReadiness(s: Relay, h: nat, keepRoom: bool, r: nat)
    requires Registry(s) && h < |s.hosts| && !s.hosts[h].left && r < |s.rooms| && Shaped(DropHost(s, h, keepRoom))
    ensures RoomShaped(s, r) && RoomShaped(DropHost(s, h, keepRoom), r)
    ensures HostReady(DropHost(s, h, keepRoom), r) == (r != s.hosts[h].room && HostReady(s, r))
  {
    DropHostEffect(s, h, keepRoom);
    assert RoomOk(s, r) && RoomShaped(s, r) && RoomShaped(DropHost(s, h, keepRoom), r);
  }

  lemma DropHostKeepsManned(s: Relay, h: nat, keepRoom: bool, c: string)
    requires Registry(s) && h < |s.hosts| && !s.hosts[h].left && Shaped(DropHost(s, h, keepRoom))
    requires Manned(s, c) && c != s.rooms[s.hosts[h].room].id
    ensures Manned(DropHost(s, h, keepRoom), c)
  {
    DropHostEffect(s, h, keepRoom);
    DropHostReadiness(s, h, keepRoom, s.index[c]);
  }

  /** Rows in flight elsewhere stay manned; here they are back in the queue. */
  lemma DropHostLeavesNone(s: Relay, h: nat, keepRoom: bool, row: Row)
    requires Registry(s) && Flights(s) && h < |s.hosts| && !s.hosts[h].left
    requires row in DropHost(s, h, keepRoom).box.rows && row.item.state.Delivering?
    ensures Manned(s, row.computer) && row.computer != s.rooms[s.hosts[h].room].id
  {
    DropHostEffect(s, h, keepRoom);
    var r0 := s.hosts[h].room;
    assert HostOk(s, h) && RoomOk(s, r0) && Indexed(s, r0);
    if s.hosts[h].ready {
      var q := Restated(s.box.rows, Requeues(s.rooms[r0].id), row);
      assert Manned(s, q.computer);
    } else {
      assert Manned(s, row.computer);
      assert RoomShaped(s, s.index[row.computer]);
    }
  }

  lemma DropHostKeepsFlights(s: Relay, h: nat, keepRoom: bool)
    requires Registry(s) && Flights(s) && h < |s.hosts|
    ensures Flights(DropHost(s, h, keepRoom))
  {
    DropHostShaped(s, h, keepRoom);
    if !s.hosts[h].left {
      forall row | row in DropHost(s, h, keepRoom).box.rows && row.item.state.Delivering?
        ensures Manned(DropHost(s, h, keepRoom), row.computer)
      {
        DropHostLeavesNone(s, h, keepRoom, row);
        DropHostKeepsManned(s, h, keepRoom, row.computer);
      }
    }
  }

  lemma DropHostKeepsPresence(s: Relay, h: nat, keepRoom: bool, d: nat)
    requires Registry(s) && Presences(s) && h < |s.hosts| && !s.hosts[h].left && d < |s.devs| && Shaped(DropHost(s, h, keepRoom))
    ensures PresenceOk(DropHost(s, h, keepRoom), d)
  {
    DropHostEffect(s, h, keepRoom);
    DropHostReadiness(s, h, keepRoom, s.devs[d].room);
    assert HostOk(s, h) && PresenceOk(s, d) && DeviceOk(s, d);
    if d in s.rooms[s.hosts[h].room].devices {
      assert RoomOk(s, s.hosts[h].room);
      PresenceAppend(s.devs[d].sent, Presence(false, Some(s.now)));
    }
  }

  lemma DropHostKeepsPresences(s: Relay, h: nat, keepRoom: bool)
    requires Registry(s) && Presences(s) && h < |s.hosts|
    ensures Presences(DropHost(s, h, keepRoom))
  {
    DropHostShaped(s, h, keepRoom);
    if !s.hosts[h].left {
      forall d: nat | d < |s.devs|
        ensures PresenceOk(DropHost(s, h, keepRoom), d)
      {
        DropHostKeepsPresence(s, h, keepRoom, d);
      }
    }
  }

  lemma DropHostKeepsTraces(s: Relay, h: nat, keepRoom: bool)
    requires Registry(s) && Traces(s) && h < |s.hosts|
    ensures Traces(DropHost(s, h, keepRoom))
  {
    DropHostShaped(s, h, keepRoom);
    if !s.hosts[h].left {
      var t := DropHost(s, h, keepRoom);
      DropHostEffect(s, h, keepRoom);
      forall g: nat, link: nat | g < |t.hosts|
        ensures LinkOk(t, g, link)
      {
        assert LinkOk(s, g, link);
      }
    }
  }

  lemma DropHostKeepsBox(s: Relay, h: nat, keepRoom: bool)
    requires Registry(s) && Valid(s.box) && h < |s.hosts|
    ensures Valid(DropHost(s, h, keepRoom).box)
  {
    if !s.hosts[h].left {
      DropHostEffect(s, h, keepRoom);
      RequeueKeepsValid(s.box, s.rooms[s.hosts[h].room].id);
    }
  }

  lemma DropHostKeeps(s: Relay, h: nat)
    requires Inv(s) && h < |s.hosts|
    ensures Inv(DropHost(s, h, false))
  {
    DropHostKeepsRegistry(s, h, false);
    DropHostKeepsIndex(s, h);
    DropHostKeepsTraces(s, h, false);
    DropHostKeepsPresences(s, h, false);
    DropHostKeepsFlights(s, h, false);
    DropHostKeepsBox(s, h, false);
  }

  // ---- steps that leave the structure alone ----

  /** The same to the invariant: a socket may have stalled, and messages sent that open or close no link. */
  ghost predicate HostAlike(a: Host, b: Host) {
    && b.room == a.room && b.left == a.left && b.ready == a.ready && (b.open ==> a.open)
    && forall link: nat :: PhaseOf(b.sent, link) == PhaseOf(a.sent, link)
  }

  predicate DeviceAlike(a: Device, b: Device) {
    b.room == a.room && b.left == a.left && (b.open ==> a.open) && LastPresence(b.sent) == LastPresence(a.sent)
  }

  predicate RoomAlike(a: Room, b: Room) {
    b.id == a.id && b.host == a.host && b.devices == a.devices
  }

  ghost predicate Alike(s: Relay, t: Relay) {
    && t.index == s.index && SameSizes(s, t)
    && (forall r: nat :: r < |s.rooms| ==> RoomAlike(s.rooms[r], t.rooms[r]))
    && (forall h: nat :: h < |s.hosts| ==> HostAlike(s.hosts[h], t.hosts[h]))
    && (forall d: nat :: d < |s.devs| ==> DeviceAlike(s.devs[d], t.devs[d]))
  }

  lemma AlikeShaped(s: Relay, t: Relay)
    requires Shaped(s) && Alike(s, t)
    ensures Shaped(t)
  {
    forall r: nat | r < |t.rooms|
      ensures RoomShaped(t, r)
    {
      assert RoomShaped(s, r) && RoomAlike(s.rooms[r], t.rooms[r]);
    }
    forall h: nat | h < |t.hosts|
      ensures t.hosts[h].room < |t.rooms|
    {
      assert HostAlike(s.hosts[h], t.hosts[h]);
    }
    forall d: nat | d < |t.devs|
      ensures t.devs[d].room < |t.rooms|
    {
      assert DeviceAlike(s.devs[d], t.devs[d]);
    }
  }

  lemma AlikeReadiness(s: Relay, t: Relay, r: nat)
    requires Shaped(s) && Shaped(t) && Alike(s, t) && r < |s.rooms|
    ensures RoomShaped(s, r) && RoomShaped(t, r) && HostReady(t, r) == HostReady(s, r)
  {
    assert RoomAlike(s.rooms[r], t.rooms[r]) && RoomShaped(s, r) && RoomShaped(t, r);
    if s.rooms[r].host.Some? {
      assert HostAlike(s.hosts[s.rooms[r].host.value], t.hosts[s.rooms[r].host.value]);
    }
  }

  lemma AlikeKeepsRoom(s: Relay, t: Relay, r: nat)
    requires Shaped(s) && Shaped(t) && Alike(s, t) && r < |s.rooms| && RoomOk(s, r)
    ensures RoomOk(t, r)
  {
    assert RoomAlike(s.rooms[r], t.rooms[r]) && RoomShaped(s, r) && RoomShaped(t, r);
    if s.rooms[r].host.Some? {
      assert HostAlike(s.hosts[s.rooms[r].host.value], t.hosts[s.rooms[r].host.value]);
    }
    forall i | 0 <= i < |t.rooms[r].devices|
      ensures t.devs[t.rooms[r].devices[i]].room == r
    {
      assert DeviceAlike(s.devs[t.rooms[r].devices[i]], t.devs[t.rooms[r].devices[i]]);
    }
  }

  lemma AlikeKeepsRegistry(s: Relay, t: Relay)
    requires Registry(s) && Alike(s, t)
    ensures Registry(t)
  {
    AlikeShaped(s, t);
    forall h: nat | h < |t.hosts|
      ensures HostOk(t, h)
    {
      assert HostOk(s, h) && HostAlike(s.hosts[h], t.hosts[h]) && RoomAlike(s.rooms[s.hosts[h].room], t.rooms[s.hosts[h].room]);
    }
    forall d: nat | d < |t.devs|
      ensures DeviceOk(t, d)
    {
      assert DeviceOk(s, d) && DeviceAlike(s.devs[d], t.devs[d]) && RoomAlike(s.rooms[s.devs[d].room], t.rooms[s.devs[d].room]);
    }
    forall r: nat | r < |t.rooms|
      ensures RoomOk(t, r)
    {
      assert RoomOk(s, r);
      AlikeKeepsRoom(s, t, r);
    }
    forall id | id in t.index
      ensures t.rooms[t.index[id]].id == id
    {
      assert RoomAlike(s.rooms[s.index[id]], t.rooms[s.index[id]]);
    }
  }

  lemma AlikeKeepsTraces(s: Relay, t: Relay)
    requires Traces(s) && Alike(s, t)
    ensures Traces(t)
  {
    AlikeShaped(s, t);
    forall h: nat, link: nat | h < |t.hosts|
      ensures LinkOk(t, h, link)
    {
      assert LinkOk(s, h, link) && HostAlike(s.hosts[h], t.hosts[h]) && RoomAlike(s.rooms[s.hosts[h].room], t.rooms[s.hosts[h].room]);
    }
  }

  lemma AlikeKeepsPresences(s: Relay, t: Relay)
    requires Presences(s) && Alike(s, t)
    ensures Presences(t)
  {
    AlikeShaped(s, t);
    forall d: nat | d < |t.devs|
      ensures PresenceOk(t, d)
    {
      assert PresenceOk(s, d) && DeviceAlike(s.devs[d], t.devs[d]);
      AlikeReadiness(s, t, s.devs[d].room);
    }
  }

  lemma AlikeKeepsIndex(s: Relay, t: Relay)
    requires NoEmptyRoom(s) && Alike(s, t)
    ensures NoEmptyRoom(t)
  {
    AlikeShaped(s, t);
    forall id | id in t.index
      ensures Occupied(t.rooms[t.index[id]])
    {
      assert RoomAlike(s.rooms[s.index[id]], t.rooms[s.index[id]]);
    }
  }

  /** Every row in flight afterwards was, or is manned. */
  ghost predicate NoNewFlight(s: Relay, t: Relay)
    requires Shaped(t)
  {
    forall row :: row in t.box.rows && row.item.state.Delivering? ==>
      Manned(t, row.computer) || exists q :: q in s.box.rows && q.item.state.Delivering? && q.computer == row.computer
  }

  lemma AlikeKeepsFlights(s: Relay, t: Relay)
    requires Flights(s) && Alike(s, t) && Shaped(t) && NoNewFlight(s, t)
    ensures Flights(t)
  {
    forall row | row in t.box.rows && row.item.state.Delivering?
      ensures Manned(t, row.computer)
    {
      if !Manned(t, row.computer) {
        assert Manned(s, row.computer);
        AlikeReadiness(s, t, s.index[row.computer]);
      }
    }
  }

  lemma AlikeKeeps(s: Relay, t: Relay)
    requires Inv(s) && Alike(s, t) && Valid(t.box) && (Shaped(t) ==> NoNewFlight(s, t))
    ensures Inv(t)
  {
    AlikeKeepsRegistry(s, t);
    AlikeKeepsTraces(s, t);
    AlikeKeepsPresences(s, t);
    AlikeKeepsIndex(s, t);
    AlikeKeepsFlights(s, t);
  }

  // ---- messages that are neither a link's nor a presence ----

  predicate Plain(msg: HostMsg) { msg.ItemSent? || msg.HostTold? }

  lemma HearsAlike(a: Host, msg: HostMsg)
    requires Plain(msg)
    ensures HostAlike(a, Hears(a, msg))
  {
    forall link: nat
      ensures PhaseOf(Hears(a, msg).sent, link) == PhaseOf(a.sent, link)
    {
      PhaseAppend(a.sent, msg, link);
    }
  }

  lemma GetsAlike(d: Device, msg: DeviceMsg)
    requires !msg.Presence? || (d.open ==> LastPresence(d.sent) == Some(msg.online))
    ensures DeviceAlike(d, Gets(d, msg))
  {
    PresenceAppend(d.sent, msg);
  }

  lemma SendHostAlike(s: Relay, h: nat, msg: HostMsg)
    requires h < |s.hosts| && Plain(msg)
    ensures Alike(s, SendHost(s, h, msg))
  {
    HearsAlike(s.hosts[h], msg);
  }

  lemma SendDeviceAlike(s: Relay, d: nat, msg: DeviceMsg)
    requires d < |s.devs| && !msg.Presence?
    ensures Alike(s, SendDevice(s, d, msg))
  {
    GetsAlike(s.devs[d], msg);
  }

  lemma BroadcastAlike(s: Relay, to: seq<nat>, msg: DeviceMsg)
    requires !msg.Presence?
    ensures Alike(s, Broadcast(s, to, msg)) && Broadcast(s, to, msg).box == s.box
  {
    forall d: nat | d < |s.devs|
      ensures DeviceAlike(s.devs[d], Broadcast(s, to, msg).devs[d])
    {
      GetsAlike(s.devs[d], msg);
    }
  }

  lemma AlikeJoins(s: Relay, t: Relay, u: Relay)
    requires Alike(s, t) && Alike(t, u)
    ensures Alike(s, u)
  {
    forall r: nat | r < |s.rooms|
      ensures RoomAlike(s.rooms[r], u.rooms[r])
    {
      assert RoomAlike(s.rooms[r], t.rooms[r]) && RoomAlike(t.rooms[r], u.rooms[r]);
    }
    forall h: nat | h < |s.hosts|
      ensures HostAlike(s.hosts[h], u.hosts[h])
    {
      assert HostAlike(s.hosts[h], t.hosts[h]) && HostAlike(t.hosts[h], u.hosts[h]);
    }
    forall d: nat | d < |s.devs|
      ensures DeviceAlike(s.devs[d], u.devs[d])
    {
      assert DeviceAlike(s.devs[d], t.devs[d]) && DeviceAlike(t.devs[d], u.devs[d]);
    }
  }

  lemma {:induction false} NoteAllAlike(s: Relay, r: nat, notes: seq<Note>)
    requires r < |s.rooms|
    ensures Alike(s, NoteAll(s, r, notes)) && NoteAll(s, r, notes).box == s.box
    decreases |notes|
  {
    if notes != [] {
      var t := NoteAll(s, r, notes[..|notes| - 1]);
      NoteAllAlike(s, r, notes[..|notes| - 1]);
      var note := notes[|notes| - 1];
      BroadcastAlike(t, Filter(t.rooms[r].devices, Addressed(t.devs, note)), MailNote(note));
      AlikeJoins(s, t, NoteAll(s, r, notes));
    }
  }
}
