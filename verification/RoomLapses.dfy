/** What the devices of the private relay hear of a sweep: each of their expired items, once. */
module RoomLapses {
  import opened Wrappers
  import opened Sequences
  import opened MailboxItems
  import opened MailboxTable
  import opened RoomState
  import opened RoomInvariants
  import opened RoomSteps
  import opened RoomSweeps
  import opened RoomRuns
  import opened RoomGuarantees
  import opened RoomExits
  import opened RoomTalk

  /** Expired items of a computer's device. */
  function Gone(c: string, dk: string, now: int): Row -> bool {
    (r: Row) => r.computer == c && r.item.dk == dk && r.item.exp <= now
  }

  function Lapse(): Row -> DeviceMsg { (r: Row) => MailNote(Note(r.item.dk, r.item.nonce, ExpiredItem)) }

  /** A note for each expired item of the device, in the order they were put. */
  function Lapses(t: Table, c: string, dk: string, now: int): seq<DeviceMsg> {
    Map(Filter(t.rows, Gone(c, dk, now)), Lapse())
  }

  // ---- the table on the way ----

  lemma RequeueLapses(t: Table, a: string, c: string, dk: string, now: int)
    ensures Lapses(Requeue(t, a), c, dk, now) == Lapses(t, c, dk, now)
  {
    FilterMap(t.rows, Requeues(a), Gone(c, dk, now));
    var gone := Filter(t.rows, Gone(c, dk, now));
    assert Map(Map(gone, Requeues(a)), Lapse()) == Map(gone, Lapse());
  }

  lemma ExpireLapses(t: Table, a: string, c: string, dk: string, now: int)
    requires a != c
    ensures Lapses(Expire(t, a, now).0, c, dk, now) == Lapses(t, c, dk, now)
  {
    FilterTwice(t.rows, Not(Expired(a, now)), Gone(c, dk, now), Gone(c, dk, now));
  }

  function ForKey(dk: string): Note -> bool { (n: Note) => n.dk == dk }

  function AsMail(): Note -> DeviceMsg { (n: Note) => MailNote(n) }

  /** The notes of an expiry that are for one device key. */
  lemma NotesAreLapses(t: Table, c: string, dk: string, now: int)
    ensures Map(Filter(Expire(t, c, now).1, ForKey(dk)), AsMail()) == Lapses(t, c, dk, now)
  {
    var expired := Filter(t.rows, Expired(c, now));
    var mine := (r: Row) => r.item.dk == dk;
    FilterThrough(expired, ExpiredNote(), mine, ForKey(dk));
    FilterTwice(t.rows, Expired(c, now), mine, Gone(c, dk, now));
    var gone := Filter(t.rows, Gone(c, dk, now));
    assert Map(Map(gone, ExpiredNote()), AsMail()) == Map(gone, Lapse());
  }

  // ---- one room ----

  lemma {:induction false} NoteAllTold(s: Relay, r: nat, notes: seq<Note>, d: nat)
    requires r < |s.rooms| && d < |s.devs|
    ensures
      var a, b := s.devs[d], NoteAll(s, r, notes).devs[d];
      && b == a.(sent := b.sent)
      && Heard(b, Notes) == Heard(a, Notes) +
           (if d in s.rooms[r].devices && a.open && !a.pair then Map(Filter(notes, ForKey(a.dk)), AsMail()) else [])
    decreases |notes|
  {
    hide NoteTo, Heard;
    if notes != [] {
      var front, note := notes[..|notes| - 1], notes[|notes| - 1];
      NoteAllTold(s, r, front, d);
      NoteToHeard(NoteAll(s, r, front), r, note, d, Notes);
      MapAppend(Filter(front, ForKey(s.devs[d].dk)), note, AsMail());
    }
  }

  /** A room's sweep tells its own devices that stay connected of their expired items, and no other device anything. */
  lemma SweepRoomTells(s: Relay, r: nat, d: nat)
    requires Registry(s) && r < |s.rooms| && d < |s.devs|
    ensures
      var a, b := s.devs[d], SweepRoom(s, r).devs[d];
      Heard(b, Notes) == Heard(a, Notes) +
        (if a.room == r && !b.left && a.open && !a.pair then Lapses(s.box, s.rooms[r].id, a.dk, s.now) else [])
  {
    hide SweepHost, SweepDevices, NoteAll, Expire, Lapses, Heard, TimedOut, Registry;
    RegistryHolds(s);
    assert RoomShaped(s, r);
    var quiet := SweepHost(s, r);
    SweepHostParts(s, r, d);
    SweepHostTells(s, r, d);
    assert RoomShaped(quiet, r);
    var swept := SweepDevices(quiet, quiet.rooms[r].devices);
    SweepDevicesParts(quiet, quiet.rooms[r].devices, d);
    SweepDevicesHeard(quiet, quiet.rooms[r].devices, d, Notes);
    SweepDevicesBox(quiet, quiet.rooms[r].devices);
    SweepDevicesList(quiet, quiet.rooms[r].devices, r, d);
    var (box, notes) := Expire(swept.box, swept.rooms[r].id, swept.now);
    NoteAllTold(swept.(box := box), r, notes, d);
    NotesAreLapses(swept.box, swept.rooms[r].id, s.devs[d].dk, swept.now);
  }

  lemma RegistryHolds(s: Relay)
    requires Registry(s)
    ensures Shaped(s)
  {
  }

  lemma SweepHostTells(s: Relay, r: nat, d: nat)
    requires Registry(s) && r < |s.rooms| && d < |s.devs|
    ensures Heard(SweepHost(s, r).devs[d], Notes) == Heard(s.devs[d], Notes)
    ensures SweepHost(s, r).rooms[r].id == s.rooms[r].id && Registry(SweepHost(s, r))
    ensures forall c, dk, now :: Lapses(SweepHost(s, r).box, c, dk, now) == Lapses(s.box, c, dk, now)
  {
    hide DropHost, Lapses, Heard;
    assert RoomShaped(s, r) && RoomOk(s, r);
    var host := s.rooms[r].host;
    if host.Some? {
      DropHostHeard(s, host.value, false, d, Notes);
      DropHostEffect(s, host.value, false);
      DropHostKeepsRegistry(s, host.value, false);
      forall c, dk, now
        ensures Lapses(DropHost(s, host.value, false).box, c, dk, now) == Lapses(s.box, c, dk, now)
      {
        RequeueLapses(s.box, s.rooms[r].id, c, dk, now);
      }
    }
  }

  /** After its devices are swept, the room lists exactly those still connected. */
  lemma {:induction false} SweepDevicesList(s: Relay, ds: seq<nat>, r: nat, d: nat)
    requires Registry(s) && r < |s.rooms| && Known(ds, |s.devs|) && d < |s.devs|
    ensures Registry(SweepDevices(s, ds))
    ensures d in SweepDevices(s, ds).rooms[r].devices <==> SweepDevices(s, ds).devs[d].room == r && !SweepDevices(s, ds).devs[d].left
    decreases |ds|
  {
    hide DropDevice, TimedOut, Registry;
    RegistryHolds(s);
    ListedHere(s, r, d);
    if ds != [] {
      var t := SweepDevices(s, ds[..|ds| - 1]);
      SweepDevicesList(s, ds[..|ds| - 1], r, d);
      DropDeviceKeepsRegistry(t, ds[|ds| - 1]);
      ListedHere(DropDevice(t, ds[|ds| - 1]), r, d);
    }
  }

  lemma ListedHere(s: Relay, r: nat, d: nat)
    requires Registry(s) && r < |s.rooms| && d < |s.devs|
    ensures d in s.rooms[r].devices <==> s.devs[d].room == r && !s.devs[d].left
  {
    assert DeviceOk(s, d) && RoomOk(s, r);
  }

  lemma SweepRoomOthers(s: Relay, r: nat, c: string, dk: string)
    requires Registry(s) && r < |s.rooms| && s.rooms[r].id != c
    ensures Lapses(SweepRoom(s, r).box, c, dk, s.now) == Lapses(s.box, c, dk, s.now)
  {
    hide SweepHost, SweepDevices, NoteAll, Expire, Lapses;
    assert RoomShaped(s, r);
    var quiet := SweepHost(s, r);
    SweepHostBox(s, r, c, dk);
    assert RoomShaped(quiet, r);
    var swept := SweepDevices(quiet, quiet.rooms[r].devices);
    SweepDevicesBox(quiet, quiet.rooms[r].devices);
    var (box, notes) := Expire(swept.box, swept.rooms[r].id, swept.now);
    NoteAllBox(swept.(box := box), r, notes);
    ExpireLapses(swept.box, swept.rooms[r].id, c, dk, s.now);
  }

  lemma SweepHostBox(s: Relay, r: nat, c: string, dk: string)
    requires Registry(s) && r < |s.rooms|
    ensures Lapses(SweepHost(s, r).box, c, dk, s.now) == Lapses(s.box, c, dk, s.now)
    ensures SweepHost(s, r).now == s.now && SweepHost(s, r).rooms[r].id == s.rooms[r].id
  {
    hide DropHost, Lapses;
    assert RoomShaped(s, r) && RoomOk(s, r);
    var host := s.rooms[r].host;
    if host.Some? {
      DropHostEffect(s, host.value, false);
      RequeueLapses(s.box, s.rooms[r].id, c, dk, s.now);
    }
  }

  // ---- all rooms ----

  lemma ApartIds(s: Relay, m: nat, d: nat)
    requires Registry(s) && m < |s.rooms| && Indexed(s, m) && d < |s.devs| && !s.devs[d].left && s.devs[d].room != m
    ensures s.rooms[m].id != s.rooms[s.devs[d].room].id
  {
    assert DeviceOk(s, d) && RoomOk(s, s.devs[d].room);
  }

  lemma OneRoomTells(u: Relay, m: nat, d: nat)
    requires Inv(u) && Shaped(u) && m < |u.rooms| && d < |u.devs|
    ensures
      var a, v := u.devs[d], if Indexed(u, m) then SweepRoom(u, m) else u;
      && Heard(v.devs[d], Notes) == Heard(a, Notes) +
           (if a.room == m && !v.devs[d].left && a.open && !a.pair then Lapses(u.box, u.rooms[m].id, a.dk, u.now) else [])
      && (a.left ==> v.devs[d].left) && (a.room != m ==> v.devs[d].left == a.left)
      && (a.room > m && !a.left ==> Lapses(v.box, u.rooms[a.room].id, a.dk, u.now) == Lapses(u.box, u.rooms[a.room].id, a.dk, u.now))
  {
    hide SweepRoom, Inv, Registry, Shaped, Heard, Lapses, TimedOut;
    InvIsRegistry(u);
    if Indexed(u, m) {
      SweepRoomTells(u, m, d);
      SweepRoomParts(u, m, d);
      if u.devs[d].room > m && !u.devs[d].left {
        DeviceRoomKnown(u, d);
        ApartIds(u, m, d);
        SweepRoomOthers(u, m, u.rooms[u.devs[d].room].id, u.devs[d].dk);
      }
    } else if u.devs[d].room == m {
      UnheldHasLeft(u, d);
    }
  }

  lemma DeviceRoomKnown(s: Relay, d: nat)
    requires Shaped(s) && d < |s.devs|
    ensures s.devs[d].room < |s.rooms|
  {
  }

  /** Rooms before the device's own leave its notes to come as they are; rooms after it add none. */
  lemma {:induction false} SweepRoomsTell(s: Relay, n: nat, d: nat)
    requires Inv(s) && n <= |s.rooms| && d < |s.devs|
    ensures Shaped(s)
    ensures
      var a, t := s.devs[d], SweepRooms(s, n);
      var lapses := Lapses(s.box, s.rooms[a.room].id, a.dk, s.now);
      && Heard(t.devs[d], Notes) == Heard(a, Notes) + (if a.room < n && !t.devs[d].left && a.open && !a.pair then lapses else [])
      && (n <= a.room && !a.left ==> Lapses(t.box, s.rooms[a.room].id, a.dk, s.now) == lapses)
  {
    hide SweepRoom, Inv, Registry, Shaped, Heard, Lapses, TimedOut, Indexed, LosesBelow;
    InvIsRegistry(s);
    if n > 0 {
      SweepRoomsTell(s, n - 1, d);
      SweepRoomsKeeps(s, n - 1);
      SweepRoomsParts(s, n - 1, d);
      SweepRoomsIndex(s, n - 1);
      InvIsRegistry(SweepRooms(s, n - 1));
      OneRoomTells(SweepRooms(s, n - 1), n - 1, d);
    }
  }

  /**
   * A sweep tells each socket that is still connected, open and not there for pairing of every expired item of its
   * device, once and in the order they were put, and no other socket of any.
   */
  lemma ExpiryIsTold(s: Relay, d: nat)
    requires Reachable(s) && Shaped(s) && d < |s.devs| && d < |Next(s, Sweeps).devs|
    ensures
      var a, b := s.devs[d], Next(s, Sweeps).devs[d];
      Heard(b, Notes) == Heard(a, Notes) +
        (if !b.left && a.open && !a.pair then Lapses(s.box, s.rooms[a.room].id, a.dk, s.now) else [])
  {
    hide Reachable, Inv, SweepRooms, Heard, Lapses;
    ReachableInv(s);
    SweepRoomsTell(s, |s.rooms|, d);
  }
}
