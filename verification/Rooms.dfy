/**
 * The private relay's rooms as its code runs (`private-relay/src/room.ts`): rooms, hosts and devices are objects that the
 * handlers update in place. `View` reads the objects as a state of `RoomState`, and every handler is proved to take the
 * step specified there.
 */
module Rooms {
  import opened Wrappers
  import opened Sequences
  import opened Acls
  import opened MailboxItems
  import opened MailboxTable
  import opened RateLimit
  import opened PrivateStore
  import S = RoomState
  import I = RoomInvariants
  import Steps = RoomSteps
  import Sweeps = RoomSweeps

  function NumberOf(): DeviceConn -> nat { (d: DeviceConn) => d.number }

  function Numbers(ds: seq<DeviceConn>): seq<nat> { Map(ds, NumberOf()) }

  class Room {
    ghost const number: nat
    const id: string
    var host: HostConn?
    var devices: seq<DeviceConn>
    var lastSeenAt: Option<int>

    constructor (ghost number: nat, id: string)
      ensures this.number == number && this.id == id && host == null && devices == [] && lastSeenAt == None
    {
      this.number, this.id := number, id;
      host, devices, lastSeenAt := null, [], None;
    }

    ghost function View(): S.Room
      reads this
    {
      S.Room(id, if host == null then None else Some(host.number), Numbers(devices), lastSeenAt)
    }
  }

  /** `open` is the socket's state and `sent` the trace of what was sent on it. */
  class HostConn {
    ghost const number: nat
    const room: Room
    var open: bool
    var ready: bool
    var left: bool
    var heard: int
    var sent: seq<S.HostMsg>

    constructor (ghost number: nat, room: Room, heard: int)
      ensures this.number == number && this.room == room && View() == S.Host(room.number, true, false, false, heard, [])
    {
      this.number, this.room := number, room;
      open, ready, left, this.heard, sent := true, false, false, heard, [];
    }

    ghost function View(): S.Host
      reads this
    {
      S.Host(room.number, open, ready, left, heard, sent)
    }
  }

  /** The number is also the link id. */
  class DeviceConn {
    const number: nat
    const room: Room
    const dk: string
    const pair: bool
    const offer: string
    const until: int
    var open: bool
    var left: bool
    var heard: int
    var msgs: nat
    var rate: Rate
    var sent: seq<S.DeviceMsg>

    constructor (number: nat, room: Room, dk: string, pair: bool, offer: string, until: int, now: int)
      ensures this.number == number && this.room == room
      ensures View() == S.Device(room.number, dk, pair, offer, until, true, false, now, 0, Rate(now, 0, 0), [])
    {
      this.number, this.room, this.dk, this.pair, this.offer, this.until := number, room, dk, pair, offer, until;
      open, left, heard, msgs, rate, sent := true, false, now, 0, Rate(now, 0, 0), [];
    }

    ghost function View(): S.Device
      reads this
    {
      S.Device(room.number, dk, pair, offer, until, open, left, heard, msgs, rate, sent)
    }
  }

  lemma {:induction false} NumbersWithout(ds: seq<DeviceConn>, d: DeviceConn)
    requires forall e :: e in ds && e.number == d.number ==> e == d
    ensures Numbers(Filter(ds, (e: DeviceConn) => e != d)) == Filter(Numbers(ds), S.OtherThan(d.number))
  {
    FilterThrough(ds, NumberOf(), (e: DeviceConn) => e != d, S.OtherThan(d.number));
  }

  ghost function Rank(rooms: map<string, Room>): string -> nat { (id: string) => if id in rooms then rooms[id].number else 0 }

  /** The map of rooms by their numbers. */
  ghost function IndexOf(rooms: map<string, Room>): map<string, nat> { map id | id in rooms :: rooms[id].number }

  lemma IndexWithout(rooms: map<string, Room>, id: string)
    ensures IndexOf(rooms - {id}) == IndexOf(rooms) - {id}
  {
  }

  lemma IndexWith(rooms: map<string, Room>, room: Room)
    ensures IndexOf(rooms[room.id := room]) == IndexOf(rooms)[room.id := room.number]
    ensures room.id in IndexOf(rooms) <==> room.id in rooms
  {
  }

  function OtherId(id: string): string -> bool { (x: string) => x != id }

  /** The order lists the map's keys, rooms made earlier first. */
  ghost predicate OrderOk(rooms: map<string, Room>, order: seq<string>) {
    && (forall id :: id in rooms <==> id in order)
    && Ascending(order, Rank(rooms))
  }

  lemma OrderWithout(rooms: map<string, Room>, order: seq<string>, id: string)
    requires OrderOk(rooms, order)
    ensures OrderOk(rooms - {id}, Filter(order, OtherId(id)))
  {
    FilterAscending(order, OtherId(id), Rank(rooms));
    var left := Filter(order, OtherId(id));
    forall i | 0 <= i < |left|
      ensures Rank(rooms - {id})(left[i]) == Rank(rooms)(left[i])
    {
      assert left[i] in left;
    }
  }

  lemma OrderWith(rooms: map<string, Room>, order: seq<string>, room: Room)
    requires OrderOk(rooms, order) && room.id !in rooms && forall id :: id in rooms ==> rooms[id].number < room.number
    ensures OrderOk(rooms[room.id := room], order + [room.id])
  {
    var more, all := rooms[room.id := room], order + [room.id];
    forall i | 0 <= i < |order|
      ensures all[i] in rooms && Rank(more)(all[i]) == Rank(rooms)(order[i]) < room.number
    {
      assert order[i] in order;
    }
  }

  lemma LeftStays(s: S.Relay, h: nat)
    requires h < |s.hosts| && s.hosts[h].room < |s.rooms| && s.hosts[h].left
    ensures S.DropHost(s, h, true) == s
  {
  }

  function Concerns(note: Note): DeviceConn -> bool { (d: DeviceConn) => d.dk == note.dk && !d.pair }

  lemma OpensNone(s: S.Relay, h: nat, to: seq<nat>, msg: S.DeviceMsg)
    requires h < |s.hosts|
    ensures S.OpenAll(S.Broadcast(s, to[..0], msg), h, to[..0]) == s
  {
    assert S.Broadcast(s, [], msg).devs == s.devs;
    assert to[..0] == [];
  }

  /** Links open by the devices' keys alone. */
  lemma {:induction false} OpenAllSameKeys(s: S.Relay, t: S.Relay, h: nat, links: seq<nat>)
    requires h < |s.hosts| && S.Known(links, |s.devs|) && t == s.(devs := t.devs) && |t.devs| == |s.devs|
    requires forall d: nat :: d < |s.devs| ==> t.devs[d].dk == s.devs[d].dk && t.devs[d].pair == s.devs[d].pair
    ensures S.OpenAll(t, h, links) == S.OpenAll(s, h, links).(devs := t.devs)
    decreases |links|
  {
    if links != [] {
      OpenAllSameKeys(s, t, h, links[..|links| - 1]);
    }
  }

  lemma OpenStep(s: S.Relay, h: nat, to: seq<nat>, i: nat, msg: S.DeviceMsg)
    requires h < |s.hosts| && i < |to| && S.Known(to, |s.devs|) && I.Distinct(to)
    ensures S.Known(to[..i], |s.devs|) && S.Known(to[..i + 1], |s.devs|)
    ensures
      var before := S.OpenAll(S.Broadcast(s, to[..i], msg), h, to[..i]);
      var told := S.SendDevice(before, to[i], msg);
      S.SendHost(told, h, S.Opened(to[i], s.devs[to[i]].dk, s.devs[to[i]].pair)) == S.OpenAll(S.Broadcast(s, to[..i + 1], msg), h, to[..i + 1])
  {
    var front := to[..i];
    assert to[..i + 1][..i] == front && to[..i + 1][i] == to[i];
    BroadcastStep(s, to, i, msg);
    OpenAllSameKeys(S.Broadcast(s, front, msg), S.Broadcast(s, to[..i + 1], msg), h, front);
  }

  lemma HeardInv(s: S.Relay, h: nat)
    requires I.Inv(s) && h < |s.hosts|
    ensures I.Inv(S.HearHost(s, h))
  {
    Steps.SameBoxKeeps(s, S.HearHost(s, h));
  }

  lemma CountedBox(s: S.Relay, d: nat, size: nat)
    requires S.Shaped(s) && d < |s.devs|
    ensures S.Shaped(S.Counted(s, d, size)) && S.Counted(s, d, size).box == s.box
  {
    S.ShapedByRooms(s, S.Counted(s, d, size));
  }

  lemma HeardDeviceBox(s: S.Relay, d: nat)
    requires S.Shaped(s) && d < |s.devs|
    ensures S.Shaped(S.HearDevice(s, d)) && S.HearDevice(s, d).box == s.box
  {
    S.ShapedByRooms(s, S.HearDevice(s, d));
  }

  lemma InvBox(s: S.Relay)
    requires I.Inv(s)
    ensures S.Shaped(s) && Ordered(s.box) && KeysUnique(s.box)
  {
  }

  lemma SweepsNone(s: S.Relay, keys: seq<string>)
    requires S.Shaped(s) && Sweeps.InMapOrder(s.index, keys)
    ensures Sweeps.Reached(s.index, keys, 0) == 0 && S.SweepRooms(s, Sweeps.Reached(s.index, keys, 0)) == s
  {
  }

  predicate AllQueued(t: Table) { forall row :: row in t.rows ==> row.item.state.Queued? }

  /** A valid table with nothing in flight, as a freshly opened store has, is a good start. */
  lemma StartsInv(now: int, box: Table)
    ensures MailboxTable.Valid(box) && AllQueued(box) ==> I.Inv(S.Relay(now, map[], [], [], [], box, map[]))
  {
  }

  function NewDevice(room: nat, dk: string, pair: bool, offer: string, until: int, now: int, sent: seq<S.DeviceMsg>): S.Device {
    S.Device(room, dk, pair, offer, until, true, false, now, 0, Rate(now, 0, 0), sent)
  }

  lemma NumbersAppend(ds: seq<DeviceConn>, d: DeviceConn)
    ensures Numbers(ds + [d]) == Numbers(ds) + [d.number]
  {
  }

  /** The new device added, then told the presence, then made known to a ready host. */
  lemma AdmitByParts(s: S.Relay, r: nat, dk: string, pair: bool, offer: string, until: int, presence: S.DeviceMsg)
    requires S.Shaped(s) && r < |s.rooms| && S.RoomShaped(s, r) && presence == S.PresenceOf(s, r)
    requires until == if pair then S.PairingDeadline(s, s.rooms[r].id, offer) else s.now
    ensures
      var d := |s.devs|;
      var added := s.(devs := s.devs + [NewDevice(r, dk, pair, offer, until, s.now, [])],
                      rooms := s.rooms[r := s.rooms[r].(devices := s.rooms[r].devices + [d])]);
      S.Admit(s, r, dk, pair, offer) ==
        if S.HostReady(s, r) then S.SendHost(S.SendDevice(added, d, presence), s.rooms[r].host.value, S.Opened(d, dk, pair))
        else S.SendDevice(added, d, presence)
  {
    hide S.PairingDeadline;
    var d := |s.devs|;
    var devs := s.devs + [NewDevice(r, dk, pair, offer, until, s.now, [])];
    assert [] + [presence] == [presence];
    assert devs[d := S.Gets(devs[d], presence)] == s.devs + [NewDevice(r, dk, pair, offer, until, s.now, [presence])];
  }

  /** Telling one more device, the devices being distinct. */
  lemma BroadcastStep(s: S.Relay, to: seq<nat>, i: nat, msg: S.DeviceMsg)
    requires i < |to| && I.Distinct(to) && to[i] < |s.devs|
    ensures S.SendDevice(S.Broadcast(s, to[..i], msg), to[i], msg) == S.Broadcast(s, to[..i + 1], msg)
  {
    var a, b := S.SendDevice(S.Broadcast(s, to[..i], msg), to[i], msg), S.Broadcast(s, to[..i + 1], msg);
    forall d | 0 <= d < |s.devs|
      ensures a.devs[d] == b.devs[d]
    {
      if d == to[i] {
        assert to[..i + 1][i] == d && d !in to[..i];
      } else {
        assert d in to[..i] <==> d in to[..i + 1];
      }
    }
  }

  class Rooms {
    var now: int
    /** The map of rooms by computer, and its insertion order. */
    var rooms: map<string, Room>
    var order: seq<string>
    var acls: map<string, Acl>
    const store: RelayStore
    /** How many link ids have been given out. */
    var links: nat
    ghost var madeRooms: seq<Room>
    ghost var madeHosts: seq<HostConn>
    ghost var madeDevices: seq<DeviceConn>

    constructor (store: RelayStore, now: int)
      ensures Valid() && this.store == store && View() == S.Relay(now, map[], [], [], [], store.View(), map[])
      ensures MailboxTable.Valid(store.View()) && AllQueued(store.View()) ==> I.Inv(View())
    {
      StartsInv(now, store.View());
      this.now, this.store := now, store;
      rooms, order, acls := map[], [], map[];
      links := 0;
      madeRooms, madeHosts, madeDevices := [], [], [];
    }

    ghost predicate KnowsRoom(r: Room)
      reads this
    {
      r.number < |madeRooms| && madeRooms[r.number] == r
    }

    ghost predicate KnowsHost(h: HostConn)
      reads this
    {
      h.number < |madeHosts| && madeHosts[h.number] == h && KnowsRoom(h.room)
    }

    ghost predicate KnowsDevice(d: DeviceConn)
      reads this
    {
      d.number < |madeDevices| && madeDevices[d.number] == d && KnowsRoom(d.room)
    }

    ghost predicate KnowsAll(ds: seq<DeviceConn>)
      reads this
    {
      forall i :: 0 <= i < |ds| ==> KnowsDevice(ds[i])
    }

    ghost predicate RoomValid(r: Room)
      reads this, r
    {
      KnowsRoom(r) && (r.host != null ==> KnowsHost(r.host)) && KnowsAll(r.devices)
    }

    /** Every object refers to objects that were made here. */
    ghost predicate Valid()
      reads this, madeRooms
    {
      && (forall i :: 0 <= i < |madeRooms| ==> madeRooms[i].number == i && RoomValid(madeRooms[i]))
      && (forall i :: 0 <= i < |madeHosts| ==> madeHosts[i].number == i && KnowsHost(madeHosts[i]))
      && (forall i :: 0 <= i < |madeDevices| ==> madeDevices[i].number == i && KnowsDevice(madeDevices[i]))
      && (forall id :: id in rooms ==> KnowsRoom(rooms[id]))
      && OrderOk(rooms, order) && links == |madeDevices|
    }

    ghost function Footprint(): set<object>
      reads this
    {
      {this, store} + (set r | r in madeRooms) + (set h | h in madeHosts) + (set d | d in madeDevices)
    }

    twostate lemma SameFootprint()
      requires unchanged(`madeRooms, `madeHosts, `madeDevices)
      ensures Footprint() == old(Footprint())
    {
    }

    ghost function RoomViews(): seq<S.Room>
      reads this, madeRooms
    {
      seq(|madeRooms|, i requires 0 <= i < |madeRooms| reads this, madeRooms => madeRooms[i].View())
    }

    ghost function HostViews(): seq<S.Host>
      reads this, madeHosts
    {
      seq(|madeHosts|, i requires 0 <= i < |madeHosts| reads this, madeHosts => madeHosts[i].View())
    }

    ghost function DeviceViews(): seq<S.Device>
      reads this, madeDevices
    {
      seq(|madeDevices|, i requires 0 <= i < |madeDevices| reads this, madeDevices => madeDevices[i].View())
    }

    ghost function View(): S.Relay
      reads this, store, madeRooms, madeHosts, madeDevices
    {
      S.Relay(now, IndexOf(rooms), RoomViews(), HostViews(), DeviceViews(), store.View(), acls)
    }

    // ---- what the objects say ----

    lemma ReadsRoom(r: Room)
      requires Valid() && KnowsRoom(r)
      ensures View().now == now && RoomValid(r) && r.number < |View().rooms| && View().rooms[r.number] == r.View()
      ensures r.host != null ==> r.host.number < |View().hosts| && View().hosts[r.host.number] == r.host.View()
    {
    }

    lemma ReadsHost(h: HostConn)
      requires Valid() && KnowsHost(h)
      ensures h.number < |View().hosts| && View().hosts[h.number] == h.View() && h.room.number < |View().rooms|
    {
    }

    lemma ReadsDevice(d: DeviceConn)
      requires Valid() && KnowsDevice(d)
      ensures d.number < |View().devs| && View().devs[d.number] == d.View() && d.room.number < |View().rooms|
    {
    }

    lemma ShapedView()
      requires Valid()
      ensures S.Shaped(View())
    {
      var s := View();
      forall r: nat | r < |s.rooms|
        ensures S.RoomShaped(s, r)
      {
        ReadsRoom(madeRooms[r]);
      }
      forall h: nat | h < |s.hosts|
        ensures s.hosts[h].room < |s.rooms|
      {
        ReadsHost(madeHosts[h]);
      }
      forall d: nat | d < |s.devs|
        ensures s.devs[d].room < |s.rooms|
      {
        ReadsDevice(madeDevices[d]);
      }
    }

    lemma KnowsFiltered(ds: seq<DeviceConn>, keep: DeviceConn -> bool)
      requires KnowsAll(ds)
      ensures KnowsAll(Filter(ds, keep))
      ensures forall d, e :: d in ds && KnowsDevice(e) && d.number == e.number ==> d == e
    {
      var kept := Filter(ds, keep);
      forall i | 0 <= i < |kept|
        ensures KnowsDevice(kept[i])
      {
        assert kept[i] in ds;
      }
    }

    // ---- one assignment ----

    method SendHost(h: HostConn, msg: S.HostMsg)
      requires Valid() && KnowsHost(h)
      modifies h`sent
      ensures Valid() && h.number < |old(View()).hosts| && View() == S.SendHost(old(View()), h.number, msg)
    {
      if h.open {
        h.sent := h.sent + [msg];
      }
    }

    method SendDevice(d: DeviceConn, msg: S.DeviceMsg)
      requires Valid() && KnowsDevice(d)
      modifies d`sent
      ensures Valid() && d.number < |old(View()).devs| && View() == S.SendDevice(old(View()), d.number, msg)
    {
      if d.open {
        d.sent := d.sent + [msg];
      }
    }

    method CloseHost(h: HostConn)
      requires Valid() && KnowsHost(h)
      modifies h`open
      ensures Valid() && h.number < |old(View()).hosts| && View() == S.CloseHost(old(View()), h.number)
    {
      h.open := false;
    }

    method CloseDevice(d: DeviceConn)
      requires Valid() && KnowsDevice(d)
      modifies d`open
      ensures Valid() && d.number < |old(View()).devs| && View() == S.CloseDevice(old(View()), d.number)
    {
      d.open := false;
    }

    method Retire(h: HostConn)
      requires Valid() && KnowsHost(h)
      modifies h`left, h`ready
      ensures Valid() && h.number < |old(View()).hosts| && View() == S.Retire(old(View()), h.number)
    {
      h.left := true;
      h.ready := false;
    }

    method MarkLeft(d: DeviceConn)
      requires Valid() && KnowsDevice(d)
      modifies d`left
      ensures Valid() && d.number < |old(View()).devs|
      ensures View() == old(View()).(devs := old(View()).devs[d.number := old(View()).devs[d.number].(left := true)])
    {
      d.left := true;
    }

    /** `filter((d) => d !== device)` */
    method Unlist(d: DeviceConn)
      requires Valid() && KnowsDevice(d)
      modifies d.room`devices
      ensures Valid() && d.room.number < |old(View()).rooms|
      ensures
        var r, rooms := d.room.number, old(View()).rooms;
        View() == old(View()).(rooms := rooms[r := rooms[r].(devices := Filter(rooms[r].devices, S.OtherThan(d.number)))])
    {
      var r := d.room;
      ReadsRoom(r);
      KnowsFiltered(r.devices, (e: DeviceConn) => e != d);
      NumbersWithout(r.devices, d);
      SetDevices(r, Filter(r.devices, (e: DeviceConn) => e != d));
    }

    method SetDevices(r: Room, ds: seq<DeviceConn>)
      requires Valid() && KnowsRoom(r) && KnowsAll(ds)
      modifies r`devices
      ensures Valid() && r.number < |old(View()).rooms|
      ensures View() == old(View()).(rooms := old(View()).rooms[r.number := old(View()).rooms[r.number].(devices := Numbers(ds))])
    {
      r.devices := ds;
    }

    method Release(r: Room)
      requires Valid() && KnowsRoom(r)
      modifies `rooms, `order
      ensures Valid() && r.number < |old(View()).rooms| && View() == S.Release(old(View()), r.number)
    {
      if r.host == null && r.devices == [] {
        Delete(r.id);
      }
    }

    method Delete(id: string)
      requires Valid()
      modifies `rooms, `order
      ensures Valid() && View() == old(View()).(index := old(View()).index - {id})
    {
      hide OrderOk, IndexOf;
      OrderWithout(rooms, order, id);
      IndexWithout(rooms, id);
      rooms := rooms - {id};
      order := Filter(order, OtherId(id));
      assert RoomViews() == old(RoomViews()) && HostViews() == old(HostViews()) && DeviceViews() == old(DeviceViews());
    }

    // ---- sending to several ----

    method Tell(ds: seq<DeviceConn>, msg: S.DeviceMsg)
      requires Valid() && KnowsAll(ds) && I.Distinct(Numbers(ds))
      modifies ds
      ensures Valid() && View() == S.Broadcast(old(View()), Numbers(ds), msg)
    {
      ghost var s, to := View(), Numbers(ds);
      assert S.Broadcast(s, to[..0], msg).devs == s.devs;
      for i := 0 to |ds|
        invariant Valid() && View() == S.Broadcast(s, to[..i], msg)
      {
        ReadsDevice(ds[i]);
        BroadcastStep(s, to, i, msg);
        SendDevice(ds[i], msg);
      }
      assert to[..|ds|] == to;
    }

    // ---- leaving ----

    method DropDevice(d: DeviceConn)
      requires Valid() && KnowsDevice(d) && S.Shaped(View())
      modifies Footprint()
      ensures Valid() && unchanged(`madeRooms, `madeHosts, `madeDevices, `now)
      ensures d.number < |old(View()).devs| && View() == S.DropDevice(old(View()), d.number)
    {
      hide Valid, View;
      ReadsDevice(d);
      if d.left {
        return;
      }
      var r := d.room;
      MarkLeft(d);
      Unlist(d);
      ReadsRoom(r);
      if r.host != null && r.host.ready {
        SendHost(r.host, S.Closed(d.number));
      }
      CloseDevice(d);
      Release(r);
    }

    method Unseat(r: Room)
      requires Valid() && KnowsRoom(r)
      modifies r`host
      ensures Valid() && r.number < |old(View()).rooms|
      ensures View() == old(View()).(rooms := old(View()).rooms[r.number := old(View()).rooms[r.number].(host := None)])
    {
      r.host := null;
    }

    method SetSeen(r: Room)
      requires Valid() && KnowsRoom(r)
      modifies r`lastSeenAt
      ensures Valid() && r.number < |old(View()).rooms|
      ensures View() == old(View()).(rooms := old(View()).rooms[r.number := old(View()).rooms[r.number].(lastSeenAt := Some(now))])
    {
      r.lastSeenAt := Some(now);
    }

    method Requeue(r: Room)
      requires Valid() && KnowsRoom(r)
      modifies store
      ensures Valid() && r.number < |old(View()).rooms|
      ensures View() == old(View()).(box := MailboxTable.Requeue(old(View()).box, r.id))
    {
      store.RequeueDelivering(r.id);
    }

    method Vacate(r: Room, wasReady: bool)
      requires Valid() && KnowsRoom(r) && RoomValid(r) && I.Distinct(Numbers(r.devices))
      modifies r`host, r`lastSeenAt, store, r.devices
      ensures Valid()
      ensures r.number < |old(View()).rooms| && View() == S.Vacate(old(View()), r.number, wasReady)
    {
      hide Valid, View, I.Distinct;
      ghost var s := View();
      ReadsRoom(r);
      Unseat(r);
      if wasReady {
        SetSeen(r);
        Requeue(r);
        ReadsRoom(r);
        assert View().rooms == s.rooms[r.number := s.rooms[r.number].(host := None, lastSeenAt := Some(s.now))];
        Tell(r.devices, S.Presence(false, r.lastSeenAt));
      }
    }

    method DropHost(h: HostConn, keepRoom: bool)
      requires Valid() && KnowsHost(h) && I.Registry(View())
      modifies Footprint()
      ensures Valid() && unchanged(`madeRooms, `madeHosts, `madeDevices, `now)
      ensures h.number < |old(View()).hosts| && View() == S.DropHost(old(View()), h.number, keepRoom)
    {
      hide I.Registry, Valid, View, I.Distinct, S.Vacate;
      ReadsHost(h);
      ReadsRoom(h.room);
      if h.left {
        return;
      }
      var r := h.room;
      var wasReady := h.ready;
      DistinctDevices(r);
      Retire(h);
      ReadsRoom(r);
      if r.host == h {
        Vacate(r, wasReady);
      }
      CloseHost(h);
      if !keepRoom {
        Release(r);
      }
    }

    /** A host's socket closed or failed. */
    method HostCloses(h: HostConn)
      requires Valid() && KnowsHost(h) && I.Inv(View())
      modifies Footprint()
      ensures Valid() && I.Inv(View()) && unchanged(`madeRooms, `madeHosts, `madeDevices, `now)
      ensures h.number < |old(View()).hosts| && old(View()).hosts[h.number].room < |old(View()).rooms|
      ensures View() == S.DropHost(old(View()), h.number, false)
    {
      hide Valid, View, I.Inv, S.DropHost;
      Steps.InvIsRegistry(View());
      ReadsHost(h);
      I.DropHostKeeps(View(), h.number);
      DropHost(h, false);
    }

    /** A device's socket closed or failed. */
    method DeviceCloses(d: DeviceConn)
      requires Valid() && KnowsDevice(d) && I.Inv(View())
      modifies Footprint()
      ensures Valid() && I.Inv(View()) && unchanged(`madeRooms, `madeHosts, `madeDevices, `now)
      ensures S.Shaped(old(View())) && d.number < |old(View()).devs| && View() == S.DropDevice(old(View()), d.number)
    {
      hide Valid, View, I.Inv, S.DropDevice;
      Steps.InvIsRegistry(View());
      ReadsDevice(d);
      I.DropDeviceKeeps(View(), d.number);
      DropDevice(d);
    }

    lemma DistinctDevices(r: Room)
      requires Valid() && KnowsRoom(r) && I.Registry(View())
      ensures I.Distinct(Numbers(r.devices))
    {
      ReadsRoom(r);
      assert I.RoomOk(View(), r.number);
    }

    // ---- connecting ----

    method RoomFor(id: string) returns (room: Room)
      requires Valid()
      modifies `rooms, `order, `madeRooms
      ensures Valid() && KnowsRoom(room) && id in rooms && rooms[id] == room
      ensures madeRooms == old(madeRooms) || (fresh(room) && madeRooms == old(madeRooms) + [room])
      ensures View() == S.EnsureRoom(old(View()), id)
    {
      if id in rooms {
        room := rooms[id];
      } else {
        room := new Room(|madeRooms|, id);
        AddRoom(room);
      }
    }

    method AddRoom(room: Room)
      requires Valid() && room.number == |madeRooms| && room.id !in rooms && room.host == null && room.devices == []
      requires room.lastSeenAt == None && room !in madeRooms
      modifies `rooms, `order, `madeRooms
      ensures Valid() && KnowsRoom(room) && room.id in rooms && rooms[room.id] == room && madeRooms == old(madeRooms) + [room]
      ensures View() == S.EnsureRoom(old(View()), room.id)
    {
      hide OrderOk, IndexOf;
      ghost var s := View();
      OrderWith(rooms, order, room);
      IndexWith(rooms, room);
      madeRooms := madeRooms + [room];
      rooms := rooms[room.id := room];
      order := order + [room.id];
      KnowsMore();
    }

    /** Who was known before something was made is known after. */
    twostate lemma KnowsMore()
      requires old(Valid()) && old(madeRooms) <= madeRooms && madeHosts == old(madeHosts) && old(madeDevices) <= madeDevices
      requires forall r :: r in old(madeRooms) ==> unchanged(r)
      ensures forall i :: 0 <= i < |old(madeRooms)| ==> madeRooms[i].number == i && RoomValid(madeRooms[i])
      ensures forall i :: 0 <= i < |madeHosts| ==> madeHosts[i].number == i && KnowsHost(madeHosts[i])
      ensures forall i :: 0 <= i < |old(madeDevices)| ==> madeDevices[i].number == i && KnowsDevice(madeDevices[i])
    {
      forall i | 0 <= i < |old(madeRooms)|
        ensures madeRooms[i].number == i
        ensures RoomValid(madeRooms[i])
      {
        var r := madeRooms[i];
        assert r == old(madeRooms)[i] && r in old(madeRooms);
        assert unchanged(r);
        assert old(RoomValid(r));
        forall k | 0 <= k < |r.devices|
          ensures KnowsDevice(r.devices[k])
        {
          assert old(KnowsDevice(r.devices[k]));
        }
      }
      forall i | 0 <= i < |madeHosts|
        ensures madeHosts[i].number == i
        ensures KnowsHost(madeHosts[i])
      {
        assert old(KnowsHost(madeHosts[i]));
      }
      forall i | 0 <= i < |old(madeDevices)|
        ensures madeDevices[i].number == i
        ensures KnowsDevice(madeDevices[i])
      {
        assert madeDevices[i] == old(madeDevices)[i];
        assert old(KnowsDevice(madeDevices[i]));
      }
    }

    method Seat(room: Room) returns (host: HostConn)
      requires Valid() && KnowsRoom(room)
      modifies room`host, `madeHosts
      ensures Valid() && room.number < |old(View()).rooms| && View() == S.Seat(old(View()), room.number)
      ensures fresh(host) && KnowsHost(host) && host.number == |old(madeHosts)| && madeHosts == old(madeHosts) + [host]
    {
      hide OrderOk, IndexOf;
      host := new HostConn(|madeHosts|, room, now);
      madeHosts := madeHosts + [host];
      room.host := host;
    }

    method AttachHost(c: string) returns (host: HostConn)
      requires Valid() && I.Inv(View())
      modifies Footprint()
      ensures Valid() && I.Inv(View()) && fresh(Footprint() - old(Footprint()))
      ensures old(madeRooms) <= madeRooms && old(madeHosts) <= madeHosts && madeDevices == old(madeDevices)
      ensures fresh(host) && KnowsHost(host) && host.number == |old(madeHosts)|
      ensures S.Shaped(old(View())) && View() == S.AttachHost(old(View()), c)
    {
      hide Valid, View, I.Registry, S.DropHost, S.Seat, S.EnsureRoom, I.Traces, I.Presences, I.Flights, I.NoEmptyRoom, MailboxTable.Valid;
      ghost var s := View();
      Steps.AttachHostKeeps(s, c);
      Steps.InvIsRegistry(s);
      S.EnsureRoomShaped(s, c);
      Steps.EnsureRoomKeeps(s, c);
      var room := RoomFor(c);
      ReadsRoom(room);
      IndexReads(c);
      var previous := room.host;
      if previous != null {
        ReadsHost(previous);
        if previous.left { LeftStays(View(), previous.number); }
        if !previous.left {
          DropHost(previous, true);
        }
      }
      host := Seat(room);
    }

    lemma IndexReads(id: string)
      requires Valid() && id in rooms
      ensures id in View().index && View().index[id] == rooms[id].number
    {
    }

    method PairingDeadline(c: string, offer: string) returns (until: int)
      requires Valid()
      ensures until == S.PairingDeadline(View(), c, offer)
    {
      var exp := if c in acls then OfferExpiry(acls[c].offers, offer) else None;
      var limit := if exp.Some? then exp.value else now;
      until := if now + S.PAIRING_TTL_MS < limit then now + S.PAIRING_TTL_MS else limit;
    }

    method Presence(r: Room) returns (msg: S.DeviceMsg)
      requires Valid() && KnowsRoom(r)
      ensures r.number < |View().rooms| && S.RoomShaped(View(), r.number) && msg == S.PresenceOf(View(), r.number)
    {
      ReadsRoom(r);
      return S.Presence(r.host != null && r.host.ready, r.lastSeenAt);
    }

    /** A device under the next link id, not yet in its room's list. */
    method MakeDevice(room: Room, dk: string, pair: bool, offer: string, until: int) returns (device: DeviceConn)
      requires Valid() && KnowsRoom(room)
      modifies `links, `madeDevices
      ensures Valid() && KnowsDevice(device) && device.room == room && device.number == |old(madeDevices)|
      ensures fresh(device) && madeDevices == old(madeDevices) + [device] && |old(View()).devs| == device.number
      ensures View() == old(View()).(devs := old(View()).devs + [NewDevice(room.number, dk, pair, offer, until, now, [])])
    {
      hide OrderOk, IndexOf;
      device := new DeviceConn(links, room, dk, pair, offer, until, now);
      links := links + 1;
      madeDevices := madeDevices + [device];
      KnowsMore();
      assert KnowsDevice(device);
    }

    method AddDevice(room: Room, dk: string, pair: bool, offer: string, until: int) returns (device: DeviceConn)
      requires Valid() && KnowsRoom(room)
      modifies room`devices, `links, `madeDevices
      ensures Valid() && KnowsDevice(device) && device.room == room && device.number == |old(madeDevices)|
      ensures fresh(device) && madeDevices == old(madeDevices) + [device] && |old(View()).devs| == device.number
      ensures room.number < |old(View()).rooms|
      ensures
        var s, r := old(View()), room.number;
        View() == s.(devs := s.devs + [NewDevice(r, dk, pair, offer, until, s.now, [])],
                     rooms := s.rooms[r := s.rooms[r].(devices := s.rooms[r].devices + [device.number])])
    {
      hide Valid, View;
      ReadsRoom(room);
      device := MakeDevice(room, dk, pair, offer, until);
      ReadsRoom(room);
      NumbersAppend(room.devices, device);
      SetDevices(room, room.devices + [device]);
    }

    method AdmitDevice(room: Room, dk: string, pair: bool, offer: string) returns (device: DeviceConn)
      requires Valid() && KnowsRoom(room) && S.Shaped(View())
      modifies Footprint()
      ensures unchanged(`madeRooms, `madeHosts) && madeDevices == old(madeDevices) + [device] && fresh(device)
      ensures KnowsDevice(device) && device.number == |old(madeDevices)|
      ensures Valid() && room.number < |old(View()).rooms| && View() == S.Admit(old(View()), room.number, dk, pair, offer)
    {
      hide Valid, View, S.PairingDeadline, S.Admit, S.PresenceOf, NewDevice;
      ghost var t := View();
      ReadsRoom(room);
      var until := now;
      if pair {
        until := PairingDeadline(room.id, offer);
      }
      var presence := Presence(room);
      device := AddDevice(room, dk, pair, offer, until);
      SendDevice(device, presence);
      AdmitByParts(t, room.number, dk, pair, offer, until, presence);
      ReadsRoom(room);
      var host := room.host;
      if host != null && host.ready {
        SendHost(host, S.Opened(device.number, dk, pair));
      }
    }

    /** The new device, or none when the room is full. */
    method AttachDevice(c: string, dk: string, pair: bool, offer: string) returns (device: DeviceConn?)
      requires Valid() && I.Inv(View())
      modifies Footprint()
      ensures Valid() && I.Inv(View()) && fresh(Footprint() - old(Footprint()))
      ensures old(madeRooms) <= madeRooms && madeHosts == old(madeHosts) && old(madeDevices) <= madeDevices
      ensures device == null ==> madeDevices == old(madeDevices)
      ensures device != null ==> fresh(device) && KnowsDevice(device) && device.number == |old(madeDevices)|
      ensures S.Shaped(old(View())) && View() == S.AttachDevice(old(View()), c, dk, pair, offer)
    {
      hide Valid, View, I.Inv, S.EnsureRoom, S.Admit;
      Steps.InvIsRegistry(View());
      Steps.AttachDeviceKeeps(View(), c, dk, pair, offer);
      S.EnsureRoomShaped(View(), c);
      var room := RoomFor(c);
      ReadsRoom(room);
      IndexReads(c);
      if |room.devices| >= S.MAX_DEVICE_SOCKETS {
        return null;
      }
      device := AdmitDevice(room, dk, pair, offer);
    }

    // ---- a host's messages ----

    method DeliverBox(r: Room) returns (row: Option<Row>)
      requires Valid() && KnowsRoom(r)
      modifies store
      ensures Valid()
      ensures
        var s := old(View());
        var (box, next) := DeliverNext(s.box, r.id, s.now);
        row == next && View() == s.(box := box)
    {
      row := DeliverNextItem(store, r.id, now);
    }

    method Deliver(h: HostConn)
      requires Valid() && KnowsHost(h)
      modifies h`sent, store
      ensures Valid() && S.Shaped(old(View())) && h.number < |old(View()).hosts| && View() == S.Deliver(old(View()), h.number)
    {
      hide Valid, View, DeliverNext;
      ShapedView();
      ReadsHost(h);
      ReadsRoom(h.room);
      if !h.ready || h.left || h.room.host != h {
        return;
      }
      var row := DeliverBox(h.room);
      if row.Some? {
        SendHost(h, S.ItemSent(row.value));
      }
    }

    method SetReady(h: HostConn)
      requires Valid() && KnowsHost(h)
      modifies h`ready
      ensures Valid() && h.number < |old(View()).hosts|
      ensures View() == old(View()).(hosts := old(View()).hosts[h.number := old(View()).hosts[h.number].(ready := true)])
    {
      h.ready := true;
    }

    /** Each device is told the presence, and the host the device's link. */
    method OpenLinks(h: HostConn, ds: seq<DeviceConn>, presence: S.DeviceMsg)
      requires Valid() && KnowsHost(h) && KnowsAll(ds) && I.Distinct(Numbers(ds))
      modifies h`sent, ds
      ensures Valid() && h.number < |old(View()).hosts| && S.Known(Numbers(ds), |old(View()).devs|)
      ensures View() == S.OpenAll(S.Broadcast(old(View()), Numbers(ds), presence), h.number, Numbers(ds))
    {
      hide Valid, View, S.OpenAll, I.Distinct;
      ghost var s, to := View(), Numbers(ds);
      ReadsHost(h);
      KnownNumbers(ds);
      OpensNone(s, h.number, to, presence);
      for i := 0 to |ds|
        invariant Valid() && KnowsHost(h) && KnowsAll(ds) && S.Known(to[..i], |s.devs|)
        invariant View() == S.OpenAll(S.Broadcast(s, to[..i], presence), h.number, to[..i])
      {
        ReadsDevice(ds[i]);
        OpenStep(s, h.number, to, i, presence);
        SendDevice(ds[i], presence);
        SendHost(h, S.Opened(ds[i].number, ds[i].dk, ds[i].pair));
      }
      assert to[..|ds|] == to;
    }

    lemma KnownNumbers(ds: seq<DeviceConn>)
      requires Valid() && KnowsAll(ds)
      ensures S.Known(Numbers(ds), |View().devs|)
    {
    }

    method OnReady(h: HostConn)
      requires Valid() && KnowsHost(h) && I.Registry(View())
      modifies Footprint()
      ensures Valid() && unchanged(`madeRooms, `madeHosts, `madeDevices, `now)
      ensures h.number < |old(View()).hosts| && View() == S.OnReady(old(View()), h.number)
    {
      hide Valid, View, I.Registry, S.Broadcast, S.OpenAll, I.Distinct, S.Deliver;
      ghost var s := View();
      var r := h.room;
      ReadsHost(h);
      ReadsRoom(r);
      ReadsAcls();
      if h.left || r.host != h || h.ready {
        return;
      }
      if r.id !in acls {
        SendHost(h, S.HostTold("badAcl"));
        return;
      }
      DistinctDevices(r);
      SetReady(h);
      SetSeen(r);
      ReadsRoom(r);
      OpenLinks(h, r.devices, S.Presence(true, r.lastSeenAt));
      Deliver(h);
    }

    lemma ReadsAcls()
      requires Valid()
      ensures View().acls == acls && View().now == now && View().box == store.View() && S.Shaped(View())
    {
      ShapedView();
    }

    /** `find((d) => d.link === link)` */
    method DeviceByLink(r: Room, link: nat) returns (found: DeviceConn?)
      requires Valid() && KnowsRoom(r)
      ensures if found == null then link !in Numbers(r.devices) else KnowsDevice(found) && found.number == link && link in Numbers(r.devices)
    {
      ReadsRoom(r);
      for i := 0 to |r.devices|
        invariant forall k :: 0 <= k < i ==> r.devices[k].number != link
      {
        if r.devices[i].number == link {
          assert Numbers(r.devices)[i] == link;
          return r.devices[i];
        }
      }
      return null;
    }

    method OnData(h: HostConn, link: nat, m: string)
      requires Valid() && KnowsHost(h) && S.Shaped(View())
      modifies Footprint()
      ensures Valid() && unchanged(`madeRooms, `madeHosts, `madeDevices, `now)
      ensures h.number < |old(View()).hosts| && View() == S.OnData(old(View()), h.number, link, m)
    {
      hide Valid, View;
      var r := h.room;
      ReadsHost(h);
      ReadsRoom(r);
      if !h.ready || h.left || r.host != h {
        return;
      }
      var device := DeviceByLink(r, link);
      if device != null {
        SendDevice(device, S.FromHost(m));
      }
    }

    method OnCloseDevice(h: HostConn, link: nat)
      requires Valid() && KnowsHost(h) && S.Shaped(View())
      modifies Footprint()
      ensures Valid() && unchanged(`madeRooms, `madeHosts, `madeDevices, `now)
      ensures h.number < |old(View()).hosts| && View() == S.OnCloseDevice(old(View()), h.number, link)
    {
      hide Valid, View, S.DropDevice;
      var r := h.room;
      ReadsHost(h);
      ReadsRoom(r);
      if !h.ready || h.left || r.host != h {
        return;
      }
      var device := DeviceByLink(r, link);
      if device != null {
        DropDevice(device);
      }
    }

    method NoteOne(r: Room, note: Note)
      requires Valid() && KnowsRoom(r) && I.Distinct(Numbers(r.devices))
      modifies madeDevices
      ensures Valid() && r.number < |old(View()).rooms| && View() == S.NoteTo(old(View()), r.number, note)
    {
      hide Valid, View, I.Distinct;
      ReadsRoom(r);
      var to := Filter(r.devices, Concerns(note));
      KnowsFiltered(r.devices, Concerns(note));
      NumbersAddressed(r.devices, note);
      I.FilterDistinct(Numbers(r.devices), S.Addressed(View().devs, note));
      Tell(to, S.MailNote(note));
    }

    lemma NumbersAddressed(ds: seq<DeviceConn>, note: Note)
      requires Valid() && KnowsAll(ds)
      ensures Numbers(Filter(ds, Concerns(note))) == Filter(Numbers(ds), S.Addressed(View().devs, note))
    {
      forall d | d in ds
        ensures Concerns(note)(d) == S.Addressed(View().devs, note)(NumberOf()(d))
      {
        assert KnowsDevice(d);
        ReadsDevice(d);
      }
      FilterThrough(ds, NumberOf(), Concerns(note), S.Addressed(View().devs, note));
    }

    method AckBox(r: Room, number: Option<int>, outcome: Outcome) returns (note: Option<Note>)
      requires Valid() && KnowsRoom(r) && Ordered(View().box)
      modifies store
      ensures Valid()
      ensures
        var s := old(View());
        var (box, said) := Ack(s.box, r.id, number, outcome);
        note == said && View() == s.(box := box)
    {
      note := AckMailbox(store, r.id, number, outcome);
    }

    method OnAck(h: HostConn, number: Option<int>, outcome: Outcome)
      requires Valid() && KnowsHost(h) && I.Inv(View())
      modifies Footprint()
      ensures Valid() && unchanged(`madeRooms, `madeHosts, `madeDevices, `now)
      ensures S.Shaped(old(View())) && h.number < |old(View()).hosts| && View() == S.OnAck(old(View()), h.number, number, outcome)
    {
      hide Valid, View, I.Inv, I.Registry, I.Distinct, Ack, S.NoteTo, S.Deliver;
      var r := h.room;
      Steps.InvIsRegistry(View());
      ReadsHost(h);
      ReadsRoom(r);
      if r.host != h {
        return;
      }
      DistinctDevices(r);
      var note := AckBox(r, number, outcome);
      if note.Some? {
        NoteOne(r, note.value);
      }
      Deliver(h);
    }

    method HearHost(h: HostConn)
      requires Valid() && KnowsHost(h)
      modifies h`heard
      ensures Valid() && h.number < |old(View()).hosts| && View() == S.HearHost(old(View()), h.number)
    {
      h.heard := now;
    }

    method FromHost(h: HostConn, says: S.HostSays)
      requires Valid() && KnowsHost(h) && I.Inv(View())
      modifies Footprint()
      ensures Valid() && I.Inv(View()) && unchanged(`madeRooms, `madeHosts, `madeDevices, `now)
      ensures S.Shaped(old(View())) && h.number < |old(View()).hosts| && View() == S.FromHostSocket(old(View()), h.number, says)
    {
      hide Valid, View, I.Inv, I.Registry, S.OnReady, S.OnData, S.OnCloseDevice, S.OnAck;
      ghost var s := View();
      Steps.InvIsRegistry(s);
      ReadsHost(h);
      Steps.FromHostSocketKeeps(s, h.number, says);
      HearHost(h);
      HeardInv(s, h.number);
      ReadsHost(h);
      ReadsRoom(h.room);
      if h.left || h.room.host != h {
        return;
      }
      Steps.InvIsRegistry(View());
      match says
      case ReadySaid => OnReady(h);
      case DataSaid(link, m) => OnData(h, link, m);
      case CloseSaid(link) => OnCloseDevice(h, link);
      case AckSaid(number, ok, code) => OnAck(h, number, AckOutcome(ok, code));
      case OtherSaid(answer) =>
        if answer.Some? {
          SendHost(h, S.HostTold(answer.value));
        }
    }

    // ---- an access list, once its signature is checked ----

    method SaveAcl(id: string, acl: Acl)
      requires Valid()
      modifies `acls
      ensures Valid() && View() == old(View()).(acls := old(View()).acls[id := acl])
    {
      acls := acls[id := acl];
    }

    method OnAclChecked(h: HostConn, verdict: Option<Acl>)
      requires Valid() && KnowsHost(h) && I.Inv(View())
      modifies Footprint()
      ensures Valid() && I.Inv(View()) && unchanged(`madeRooms, `madeHosts, `madeDevices, `now)
      ensures S.Shaped(old(View())) && h.number < |old(View()).hosts| && View() == S.OnAclChecked(old(View()), h.number, verdict)
    {
      hide Valid, View, I.Inv, S.DropDevice, S.Shut;
      var r := h.room;
      Steps.InvIsRegistry(View());
      ReadsHost(h);
      Steps.OnAclCheckedKeeps(View(), h.number, verdict);
      ReadsRoom(r);
      ReadsAcls();
      var current := if r.id in acls then acls[r.id].ver else 0;
      if verdict.None? || verdict.value.computer != r.id {
        SendHost(h, S.HostTold("badAcl"));
        return;
      }
      if verdict.value.ver <= current {
        SendHost(h, S.HostTold("staleVersion"));
        return;
      }
      SaveAcl(r.id, verdict.value);
      ReadsRoom(r);
      DropShut(r.devices, verdict.value);
      SendHost(h, S.HostTold("acl.ok"));
    }

    /** On a copy of the list, which the drops change. */
    method DropShut(ds: seq<DeviceConn>, acl: Acl)
      requires Valid() && KnowsAll(ds)
      modifies Footprint()
      ensures Valid() && unchanged(`madeRooms, `madeHosts, `madeDevices, `now)
      ensures S.Shaped(old(View())) && S.Known(Numbers(ds), |old(View()).devs|) && View() == S.DropShut(old(View()), acl, Numbers(ds))
    {
      hide Valid, View, S.DropDevice;
      ghost var s, to := View(), Numbers(ds);
      ShapedView();
      KnownNumbers(ds);
      for i := 0 to |ds|
        invariant Valid() && KnowsAll(ds) && unchanged(`madeRooms, `madeHosts, `madeDevices, `now)
        invariant S.Known(to[..i], |s.devs|) && View() == S.DropShut(s, acl, to[..i])
      {
        var d := ds[i];
        ReadsDevice(d);
        ReadsAcls();
        assert to[..i + 1][..i] == to[..i] && to[..i + 1][i] == to[i];
        var shut := if d.pair then !OffersAfter(acl, d.offer, now) else !Lists(acl, d.dk);
        if shut {
          DropDevice(d);
        }
      }
      assert to[..|ds|] == to;
    }

    // ---- a device's messages ----

    method HearDevice(d: DeviceConn)
      requires Valid() && KnowsDevice(d)
      modifies d`heard
      ensures Valid() && d.number < |old(View()).devs| && View() == S.HearDevice(old(View()), d.number)
    {
      d.heard := now;
    }

    method ChargeDevice(d: DeviceConn, size: nat) returns (fits: bool)
      requires Valid() && KnowsDevice(d)
      modifies d`rate
      ensures Valid() && d.number < |old(View()).devs|
      ensures
        var s, n := old(View()), d.number;
        && fits == Charge(s.devs[n].rate, size, s.now).1
        && View() == s.(devs := s.devs[n := s.devs[n].(rate := Charge(s.devs[n].rate, size, s.now).0)])
    {
      var rate := d.rate;
      if now - rate.start >= RATE_WINDOW_MS {
        rate := Rate(now, 0, 0);
      }
      rate := Rate(rate.start, rate.msgs + 1, rate.bytes + size);
      d.rate := rate;
      fits := rate.msgs <= RATE_MAX_MESSAGES && rate.bytes <= RATE_MAX_BYTES;
    }

    method CountMessage(d: DeviceConn)
      requires Valid() && KnowsDevice(d)
      modifies d`msgs
      ensures Valid() && d.number < |old(View()).devs|
      ensures View() == old(View()).(devs := old(View()).devs[d.number := old(View()).devs[d.number].(msgs := old(View()).devs[d.number].msgs + 1)])
    {
      d.msgs := d.msgs + 1;
    }

    /** The limiter's charge, and the pairing socket's own count. */
    method Count(d: DeviceConn, size: nat) returns (over: bool)
      requires Valid() && KnowsDevice(d)
      modifies d`rate, d`msgs
      ensures Valid() && d.number < |old(View()).devs| && View() == S.Counted(old(View()), d.number, size)
      ensures over == S.OverLimit(old(View()), d.number, size)
    {
      hide Valid, View, Charge;
      ReadsDevice(d);
      var fits := ChargeDevice(d, size);
      if fits && d.pair {
        CountMessage(d);
      }
      ReadsDevice(d);
      over := !fits || (d.pair && d.msgs > S.PAIRING_MAX_MESSAGES);
    }

    method PutBox(d: DeviceConn, msg: PutMsg, hostReady: bool) returns (reply: Reply)
      requires Valid() && KnowsDevice(d)
      modifies store
      ensures Valid()
      ensures
        var s := old(View());
        var (box, said) := Put(s.box, d.room.id, d.dk, msg, hostReady, s.now);
        reply == said && View() == s.(box := box)
    {
      reply := PutMailbox(store, d.room.id, d.dk, msg, hostReady, now);
    }

    method CancelBox(d: DeviceConn, nonce: Field) returns (reply: Reply)
      requires Valid() && KnowsDevice(d) && Ordered(View().box) && KeysUnique(View().box)
      modifies store
      ensures Valid()
      ensures
        var s := old(View());
        var (box, said) := Cancel(s.box, d.room.id, d.dk, nonce);
        reply == said && View() == s.(box := box)
    {
      reply := CancelMailbox(store, d.room.id, d.dk, nonce);
    }

    method OnMailbox(d: DeviceConn, says: S.DeviceSays)
      requires Valid() && KnowsDevice(d) && S.Shaped(View()) && Ordered(View().box) && KeysUnique(View().box)
      modifies d`sent, store
      ensures Valid() && d.number < |old(View()).devs| && View() == S.OnMailbox(old(View()), d.number, says)
    {
      hide Valid, View, Put, Cancel, Listing, Ordered, KeysUnique;
      ReadsDevice(d);
      ReadsRoom(d.room);
      ReadsAcls();
      var reply: Reply;
      if d.pair {
        reply := Err(S.EchoedNonce(says), Pairing);
      } else {
        match says
        case PutSaid(msg) =>
          var host := d.room.host;
          reply := PutBox(d, msg, host != null && host.ready);
        case CancelSaid(nonce) => reply := CancelBox(d, nonce);
        case _ => reply := Listing(Table(store.rows, store.last), d.room.id, d.dk);
      }
      SendDevice(d, S.MailReply(reply));
    }

    method OnMessage(d: DeviceConn, says: S.DeviceSays)
      requires Valid() && KnowsDevice(d) && S.Shaped(View()) && Ordered(View().box) && KeysUnique(View().box)
      modifies Footprint()
      ensures Valid() && unchanged(`madeRooms, `madeHosts, `madeDevices, `now)
      ensures d.number < |old(View()).devs| && View() == S.OnMessage(old(View()), d.number, says)
    {
      hide Valid, View, S.OnMailbox, S.DropDevice, Ordered, KeysUnique, S.PresenceOf;
      ReadsDevice(d);
      ReadsRoom(d.room);
      match says
      case PingSaid => SendDevice(d, S.DevicePong);
      case ChannelSaid(m) =>
        var host := d.room.host;
        if host != null && host.ready {
          SendHost(host, S.Forwarded(d.number, m));
        } else {
          var presence := Presence(d.room);
          SendDevice(d, presence);
        }
      case PutSaid(_) => OnMailbox(d, says);
      case CancelSaid(_) => OnMailbox(d, says);
      case ListSaid(_) => OnMailbox(d, says);
      case _ => DropDevice(d);
    }

    method OnDevice(d: DeviceConn, says: S.DeviceSays, size: nat)
      requires Valid() && KnowsDevice(d) && S.Shaped(View()) && Ordered(View().box) && KeysUnique(View().box)
      modifies Footprint()
      ensures Valid() && unchanged(`madeRooms, `madeHosts, `madeDevices, `now)
      ensures d.number < |old(View()).devs| && View() == S.OnDevice(old(View()), d.number, says, size)
    {
      hide Valid, View, S.OnMessage, S.DropDevice, Ordered, KeysUnique, S.OverLimit, S.Counted;
      ReadsDevice(d);
      ReadsAcls();
      if d.left {
        return;
      }
      if d.pair && now >= d.until {
        DropDevice(d);
        return;
      }
      CountedBox(View(), d.number, size);
      var over := Count(d, size);
      ReadsAcls();
      if over {
        DropDevice(d);
      } else {
        OnMessage(d, says);
      }
    }

    method FromDevice(d: DeviceConn, says: S.DeviceSays, size: nat)
      requires Valid() && KnowsDevice(d) && I.Inv(View())
      modifies Footprint()
      ensures Valid() && I.Inv(View()) && unchanged(`madeRooms, `madeHosts, `madeDevices, `now)
      ensures S.Shaped(old(View())) && d.number < |old(View()).devs| && View() == S.FromDeviceSocket(old(View()), d.number, says, size)
    {
      hide Valid, View, I.Inv, S.OnDevice, S.DropDevice, S.HearDevice, Ordered, KeysUnique;
      ReadsDevice(d);
      Steps.FromDeviceSocketKeeps(View(), d.number, says, size);
      InvBox(View());
      HeardDeviceBox(View(), d.number);
      HearDevice(d);
      ReadsAcls();
      if says.BinaryFrame? {
        DropDevice(d);
      } else {
        OnDevice(d, says, size);
      }
    }

    // ---- the sweep ----

    method NoteEach(r: Room, notes: seq<Note>)
      requires Valid() && KnowsRoom(r) && I.Distinct(Numbers(r.devices))
      modifies madeDevices
      ensures Valid() && r.number < |old(View()).rooms| && View() == S.NoteAll(old(View()), r.number, notes)
    {
      hide Valid, View, I.Distinct, S.NoteTo;
      ghost var s := View();
      ReadsRoom(r);
      assert S.NoteAll(s, r.number, notes[..0]) == s;
      for i := 0 to |notes|
        invariant Valid() && View() == S.NoteAll(s, r.number, notes[..i])
      {
        assert notes[..i + 1][..i] == notes[..i];
        NoteOne(r, notes[i]);
      }
      assert notes[..|notes|] == notes;
    }

    method ExpireBox(r: Room) returns (notes: seq<Note>)
      requires Valid() && KnowsRoom(r)
      modifies store
      ensures Valid()
      ensures
        var s := old(View());
        var (box, lapsed) := Expire(s.box, r.id, s.now);
        notes == lapsed && View() == s.(box := box)
    {
      notes := ExpireMailbox(store, r.id, now);
    }

    method DropTimedOut(ds: seq<DeviceConn>)
      requires Valid() && KnowsAll(ds)
      modifies Footprint()
      ensures Valid() && unchanged(`madeRooms, `madeHosts, `madeDevices, `now)
      ensures S.Shaped(old(View())) && S.Known(Numbers(ds), |old(View()).devs|) && View() == S.SweepDevices(old(View()), Numbers(ds))
    {
      hide Valid, View, S.DropDevice;
      ghost var s, to := View(), Numbers(ds);
      ShapedView();
      KnownNumbers(ds);
      for i := 0 to |ds|
        invariant Valid() && KnowsAll(ds) && unchanged(`madeRooms, `madeHosts, `madeDevices, `now)
        invariant S.Known(to[..i], |s.devs|) && View() == S.SweepDevices(s, to[..i])
      {
        var d := ds[i];
        ReadsDevice(d);
        ReadsAcls();
        assert to[..i + 1][..i] == to[..i] && to[..i + 1][i] == to[i];
        if (d.pair && now >= d.until) || now - d.heard > S.SILENT_TIMEOUT_MS {
          DropDevice(d);
        }
      }
      assert to[..|ds|] == to;
    }

    method SweepRoom(r: Room)
      requires Valid() && KnowsRoom(r) && I.Inv(View())
      modifies Footprint()
      ensures Valid() && unchanged(`madeRooms, `madeHosts, `madeDevices, `now)
      ensures S.Shaped(old(View())) && r.number < |old(View()).rooms| && View() == S.SweepRoom(old(View()), r.number)
    {
      hide Valid, View, I.Inv, I.Registry, I.Distinct, S.DropHost, S.SweepDevices, S.NoteAll, Expire;
      Steps.InvIsRegistry(View());
      ReadsRoom(r);
      ReadsAcls();
      Steps.SweepHostKeeps(View(), r.number);
      var host := r.host;
      if host != null && now - host.heard > S.SILENT_TIMEOUT_MS {
        DropHost(host, false);
      }
      Steps.InvIsRegistry(View());
      ReadsRoom(r);
      KnownNumbers(r.devices);
      Steps.SweepDevicesKeeps(View(), Numbers(r.devices));
      DropTimedOut(r.devices);
      Steps.InvIsRegistry(View());
      ReadsRoom(r);
      DistinctDevices(r);
      var notes := ExpireBox(r);
      NoteEach(r, notes);
    }

    method ExpireEverywhere()
      requires Valid()
      modifies store
      ensures Valid() && View() == old(View()).(box := ExpireAll(old(View()).box, old(View()).now))
    {
      store.DeleteExpiredAnywhere(now);
    }

    lemma OrderReads()
      requires Valid()
      ensures Sweeps.InMapOrder(View().index, order)
      ensures forall i :: 0 <= i < |order| ==> order[i] in rooms && KnowsRoom(rooms[order[i]]) && View().index[order[i]] == rooms[order[i]].number
    {
      forall i | 0 <= i < |order|
        ensures order[i] in rooms
      {
        assert order[i] in order;
      }
      forall i, j | 0 <= i < j < |order|
        ensures rooms[order[i]].number < rooms[order[j]].number
      {
        assert Rank(rooms)(order[i]) < Rank(rooms)(order[j]);
      }
    }

    /** The rooms in the map's order, on a copy: a room that empties leaves the map. */
    method Sweep()
      requires Valid() && I.Inv(View())
      modifies Footprint()
      ensures Valid() && I.Inv(View()) && unchanged(`madeRooms, `madeHosts, `madeDevices, `now)
      ensures S.Shaped(old(View())) && View() == S.Sweep(old(View()))
    {
      hide Valid, View, I.Inv, S.SweepRoom, S.SweepRooms, Sweeps.InMapOrder, Sweeps.Reached;
      ghost var s := View();
      Steps.SweepKeeps(s);
      OrderReads();
      Steps.InvIsRegistry(s);
      var keys, held := order, rooms;
      Sweeps.SweepsRest(s, keys);
      SweepsNone(s, keys);
      for i := 0 to |keys|
        invariant Valid() && unchanged(`madeRooms, `madeHosts, `madeDevices, `now)
        invariant Sweeps.Reached(s.index, keys, i) <= |s.rooms| && View() == S.SweepRooms(s, Sweeps.Reached(s.index, keys, i))
      {
        Sweeps.SweepsNext(s, keys, i);
        Steps.SweepRoomsKeeps(s, s.index[keys[i]]);
        Sweeps.KeyKnown(s, keys, i);
        SweepRoom(held[keys[i]]);
      }
      ExpireEverywhere();
    }

    method AdvanceClock(ms: nat)
      requires Valid()
      modifies `now
      ensures Valid() && View() == old(View()).(now := old(View()).now + ms)
    {
      now := now + ms;
    }

    /** Time passes between handlers. */
    method Tick(ms: nat)
      requires Valid() && I.Inv(View())
      modifies `now
      ensures Valid() && I.Inv(View()) && S.Shaped(old(View())) && View() == S.Next(old(View()), S.Tick(ms))
    {
      hide Valid, View, I.Inv;
      ghost var s := View();
      Steps.InvIsRegistry(s);
      Steps.NextKeeps(s, S.Tick(ms));
      AdvanceClock(ms);
    }
  }

  method HostComes(relay: Rooms, c: string) returns (host: HostConn)
    requires relay.Valid() && I.Inv(relay.View())
    modifies relay.Footprint()
    ensures relay.Valid() && I.Inv(relay.View()) && fresh(relay.Footprint() - old(relay.Footprint()))
    ensures old(relay.madeRooms) <= relay.madeRooms && old(relay.madeHosts) <= relay.madeHosts
    ensures fresh(host) && relay.KnowsHost(host)
  {
    hide relay.Valid, relay.View, I.Inv;
    host := relay.AttachHost(c);
    label Attached:
    relay.FromHost(host, S.ReadySaid);
    relay.SameFootprint@Attached();
  }

  method DeviceVisits(relay: Rooms, c: string, dk: string, said: S.DeviceSays, size: nat)
    requires relay.Valid() && I.Inv(relay.View())
    modifies relay.Footprint()
    ensures relay.Valid() && I.Inv(relay.View()) && fresh(relay.Footprint() - old(relay.Footprint()))
    ensures old(relay.madeRooms) <= relay.madeRooms && old(relay.madeHosts) <= relay.madeHosts
  {
    hide relay.Valid, relay.View, I.Inv;
    var device := relay.AttachDevice(c, dk, false, "");
    label Attached:
    if device != null {
      relay.FromDevice(device, said, size);
    }
    relay.SameFootprint@Attached();
  }

  method TimePasses(relay: Rooms, ms: nat)
    requires relay.Valid() && I.Inv(relay.View())
    modifies relay.Footprint()
    ensures relay.Valid() && I.Inv(relay.View()) && relay.Footprint() == old(relay.Footprint())
    ensures relay.madeRooms == old(relay.madeRooms) && relay.madeHosts == old(relay.madeHosts)
  {
    hide relay.Valid, relay.View, I.Inv;
    relay.Tick(ms);
    relay.Sweep();
    relay.SameFootprint();
  }

  /** A host comes and is ready, a device comes and speaks, time passes and the relay sweeps. */
  method Session(relay: Rooms, c: string, dk: string, said: S.DeviceSays, size: nat, ms: nat) returns (host: HostConn)
    requires relay.Valid() && I.Inv(relay.View())
    modifies relay.Footprint()
    ensures relay.Valid() && I.Inv(relay.View()) && fresh(relay.Footprint() - old(relay.Footprint()))
    ensures old(relay.madeRooms) <= relay.madeRooms && old(relay.madeHosts) <= relay.madeHosts
    ensures fresh(host) && relay.KnowsHost(host)
  {
    hide relay.Valid, relay.View, I.Inv;
    host := HostComes(relay, c);
    DeviceVisits(relay, c, dk, said, size);
    TimePasses(relay, ms);
  }

  /**
   * Two such in a row: the objects of each call are still known after the others, and nothing but the relay and what it
   * made is touched.
   */
  method Visit(relay: Rooms, c: string, dk: string, said: S.DeviceSays, size: nat, ms: nat) returns (host: HostConn, next: HostConn)
    requires relay.Valid() && I.Inv(relay.View())
    modifies relay.Footprint()
    ensures relay.Valid() && I.Inv(relay.View()) && fresh(relay.Footprint() - old(relay.Footprint()))
    ensures relay.KnowsHost(host) && relay.KnowsHost(next) && host != next
  {
    hide relay.Valid, relay.View, I.Inv;
    host := Session(relay, c, dk, said, size, ms);
    next := Session(relay, c, dk, said, size, ms);
  }
}
