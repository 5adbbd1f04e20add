/** Whom the cloud relay admits, blocks and admits again, and which sockets an event closes or lets go of. */
module CloudAdmission {
  import opened Wrappers
  import opened Sequences
  import opened Base64Url
  import opened Acls
  import opened MailboxItems
  import opened CloudMailbox
  import opened Hookbox
  import opened CloudState
  import opened CloudInvariants
  import opened CloudAlarms
  import opened CloudRuns

  // ---- access lists and blocks ----

  /** A verified list is stored: it is the owner's computer's, and newer than the one stored. */
  predicate Stored(s: Cloud, e: Event) {
    && e.AclChecked? && e.verdict.Some? && s.owner.Some? && e.verdict.value.computer == s.owner.value.1
    && e.verdict.value.ver > (if s.acl.Some? then s.acl.value.ver else 0)
  }

  /** A list is stored exactly when a newer one of the owner's computer is verified; no other event changes it. */
  lemma ListStoredExactly(s: Cloud, e: Event)
    requires Possible(s, e)
    ensures Next(s, e).acl == if Stored(s, e) then e.verdict else s.acl
  {
    hide AcceptHost, AcceptDevice, FromSocket, Closed, AlarmFires, AlarmVisits, AlarmFinishes, Hook, Visiting, NoneOpened, BlockKeys;
    match e
    case HostConnects(kid, computer) => AcceptHostSame(s, kid, computer);
    case DeviceConnects(dk, offer) => AcceptDeviceSame(s, dk, offer);
    case Blocks(entries) =>
    case AclChecked(asked, verdict) =>
    case SocketSpeaks(i, hostSays, says, fits) => SpeakingOpensNone(s, i, hostSays, says, fits);
    case _ => OthersOpenNone(s, e);
  }

  /** The list has an entry for the key under another grant than the one it was blocked under. */
  predicate Regranted(acl: Acl, dk: string, blocked: Option<string>) {
    exists g :: g in acl.devices && g.dk == dk && g.grant != blocked
  }

  /** An entry of a block that names the key: a text that decodes to 32 bytes. */
  predicate Names(b: BlockEntry, dk: string) { b.dk == Text(dk) && Decode(dk, Some(32)).Some? }

  /** The last entry of a block that names the key. */
  predicate LastNames(entries: seq<BlockEntry>, i: nat, dk: string) {
    i < |entries| && Names(entries[i], dk) && forall j :: i < j < |entries| ==> !Names(entries[j], dk)
  }

  function GrantOf(b: BlockEntry): Option<string> { if b.grant.Text? then Some(b.grant.text) else None }

  lemma ReadmitsIsRegranted(acl: Acl, dk: string, grant: Option<string>)
    ensures Readmits(acl, dk, grant) <==> Regranted(acl, dk, grant)
  {
    if Regranted(acl, dk, grant) {
      var g :| g in acl.devices && g.dk == dk && g.grant != grant;
      var i :| 0 <= i < |acl.devices| && acl.devices[i] == g;
    }
  }

  /**
   * A blocked key is unblocked exactly when a newer list of the owner's computer is verified that lists the key with a
   * grant other than the blocked one. Until then its block stands as it is, unless another block names it.
   */
  lemma UnblockedExactly(s: Cloud, e: Event, dk: string)
    requires Possible(s, e) && dk in s.blocked
    ensures dk !in Next(s, e).blocked <==> Stored(s, e) && Regranted(e.verdict.value, dk, s.blocked[dk])
    ensures dk in Next(s, e).blocked && !(e.Blocks? && exists b :: b in e.entries && Names(b, dk)) ==> Next(s, e).blocked[dk] == s.blocked[dk]
  {
    hide AcceptHost, AcceptDevice, FromSocket, Closed, AlarmFires, AlarmVisits, AlarmFinishes, Hook, Visiting, NoneOpened, BlockKeys,
      Readmits, Names, Regranted;
    match e
    case HostConnects(kid, computer) => AcceptHostSame(s, kid, computer);
    case DeviceConnects(d, offer) => AcceptDeviceSame(s, d, offer);
    case Blocks(entries) => BlockGrants(s, entries, dk);
    case AclChecked(asked, verdict) =>
      if Stored(s, e) {
        ReadmitsIsRegranted(verdict.value, dk, s.blocked[dk]);
      }
    case SocketSpeaks(i, hostSays, says, fits) => SpeakingOpensNone(s, i, hostSays, says, fits);
    case _ => OthersOpenNone(s, e);
  }

  lemma {:induction false} BlockGrants(s: Cloud, entries: seq<BlockEntry>, dk: string)
    ensures
      var t := BlockKeys(s, entries);
      && ((forall b :: b in entries ==> !Names(b, dk)) ==> (dk in t.blocked <==> dk in s.blocked) && (dk in s.blocked ==> t.blocked[dk] == s.blocked[dk]))
      && (forall i: nat :: LastNames(entries, i, dk) ==> dk in t.blocked && t.blocked[dk] == GrantOf(entries[i]))
      && ((exists b :: b in entries && Names(b, dk)) ==> dk in t.blocked)
    decreases |entries|
  {
    hide Names, Decode, CloudForget;
    if entries != [] {
      var front, b := entries[..|entries| - 1], entries[|entries| - 1];
      BlockGrants(s, front, dk);
      NamesKey(b, dk);
      assert entries == front + [b];
      forall i: nat | LastNames(entries, i, dk)
        ensures dk in BlockKeys(s, entries).blocked && BlockKeys(s, entries).blocked[dk] == GrantOf(entries[i])
      {
        if i < |front| {
          assert LastNames(front, i, dk);
        }
      }
    }
  }

  lemma NamesKey(b: BlockEntry, dk: string)
    ensures Names(b, dk) <==> IsKey(b.dk) && b.dk.text == dk
  {
  }

  /** A key becomes blocked exactly when a block names it, under the grant of the last entry that does. */
  lemma BlockedExactly(s: Cloud, e: Event, dk: string, i: nat)
    requires Possible(s, e)
    ensures dk !in s.blocked ==> (dk in Next(s, e).blocked <==> e.Blocks? && exists b :: b in e.entries && Names(b, dk))
    ensures e.Blocks? && LastNames(e.entries, i, dk) ==> dk in Next(s, e).blocked && Next(s, e).blocked[dk] == GrantOf(e.entries[i])
  {
    hide AcceptHost, AcceptDevice, FromSocket, Closed, AlarmFires, AlarmVisits, AlarmFinishes, Hook, Visiting, NoneOpened, BlockKeys,
      Readmits, Names, LastNames;
    match e
    case HostConnects(kid, computer) => AcceptHostSame(s, kid, computer);
    case DeviceConnects(d, offer) => AcceptDeviceSame(s, d, offer);
    case Blocks(entries) => BlockGrants(s, entries, dk);
    case AclChecked(asked, verdict) =>
    case SocketSpeaks(j, hostSays, says, fits) => SpeakingOpensNone(s, j, hostSays, says, fits);
    case _ => OthersOpenNone(s, e);
  }

  // ---- who may connect ----

  /** A device may connect by its key: it is listed and not blocked. */
  predicate MayConnect(s: Cloud, dk: string) {
    s.acl.Some? && dk !in s.blocked && exists g :: g in s.acl.value.devices && g.dk == dk
  }

  /** A device may connect to pair: its offer is listed and good still, and fewer than two others are pairing. */
  predicate MayPair(s: Cloud, offer: string) {
    && s.acl.Some? && (exists o :: o in s.acl.value.offers && o.id == offer && o.exp > s.now)
    && |Filter(s.socks, (k: Sock) => k.listed && k.role.AsDevice? && k.retired.None? && k.role.pair)| < 2
  }

  /** Fewer than 16 devices are connected. */
  predicate RoomForOne(s: Cloud) {
    |Filter(s.socks, (k: Sock) => k.listed && k.role.AsDevice? && k.retired.None?)| < 16
  }

  lemma RoomMeans(s: Cloud)
    ensures RoomForOne(s) <==> |Filter(s.socks, Devices())| < MAX_DEVICE_SOCKETS
    ensures |Filter(s.socks, (k: Sock) => k.listed && k.role.AsDevice? && k.retired.None? && k.role.pair)| == |Filter(s.socks, Pairings())|
  {
    FilterSame(s.socks, Devices(), (k: Sock) => k.listed && k.role.AsDevice? && k.retired.None?);
    FilterSame(s.socks, Pairings(), (k: Sock) => k.listed && k.role.AsDevice? && k.retired.None? && k.role.pair);
  }

  /**
   * A device is admitted exactly when there is room for it and it may connect by its key, or pair by its offer; it then
   * has the one new socket, and nothing else changes but the alarm.
   */
  lemma AdmittedExactly(s: Cloud, dk: string, offer: string)
    ensures
      var t := Next(s, DeviceConnects(dk, offer));
      if RoomForOne(s) && (if offer == "" then MayConnect(s, dk) else MayPair(s, offer)) then
        t == s.(socks := s.socks + [Sock(AsDevice(dk, offer != "", offer, 0), s.now, true, false, None)], alarm := t.alarm)
      else t == s
  {
    hide Filter, First;
    RoomMeans(s);
    if s.acl.Some? {
      GoodOfferMeans(s.acl.value.offers, offer, s.now);
    }
  }

  lemma GoodOfferMeans(offers: seq<Offer>, id: string, now: int)
    ensures GoodOffer(offers, id, now).Some? <==> exists o :: o in offers && o.id == id && o.exp > now
  {
    var good := (o: Offer) => o.id == id && o.exp > now;
    if exists o :: o in offers && o.id == id && o.exp > now {
      var o :| o in offers && o.id == id && o.exp > now;
      assert good(o);
    }
  }

  /** A host of the owner's, or the first of all, is admitted, not ready yet; any other is refused. */
  lemma HostAdmittedExactly(s: Cloud, kid: string, computer: string)
    ensures
      var t := Next(s, HostConnects(kid, computer));
      if s.owner.None? || s.owner.value.0 == kid then
        && |t.socks| == |s.socks| + 1 && t.socks[|s.socks|] == Sock(AsHost(kid, false), s.now, true, false, None)
        && t.owner == (if s.owner.None? then Some((kid, computer)) else s.owner)
      else t == s
  {
    hide RetireHosts;
    var owned := if s.owner.None? then s.(owner := Some((kid, computer))) else s;
    RetireHostsOpensNone(owned, |s.socks|);
  }

  /** The first host to connect owns the computer for good. */
  lemma OwnerExactly(s: Cloud, e: Event)
    requires Possible(s, e)
    ensures Next(s, e).owner == if e.HostConnects? && s.owner.None? then Some((e.kid, e.computer)) else s.owner
  {
    hide AcceptHost, AcceptDevice, FromSocket, Closed, AlarmFires, AlarmVisits, AlarmFinishes, Hook, Visiting, NoneOpened, BlockKeys;
    match e
    case HostConnects(kid, computer) => OwnerConnects(s, kid, computer);
    case DeviceConnects(dk, offer) => DeviceAdded(s, dk, offer);
    case Blocks(entries) =>
    case AclChecked(asked, verdict) =>
    case SocketSpeaks(i, hostSays, says, fits) => SpeakingOpensNone(s, i, hostSays, says, fits);
    case _ => OthersOpenNone(s, e);
  }

  lemma OwnerConnects(s: Cloud, kid: string, computer: string)
    ensures AcceptHost(s, kid, computer).owner == if s.owner.None? then Some((kid, computer)) else s.owner
  {
    hide RetireHosts;
    var owned := if s.owner.None? then s.(owner := Some((kid, computer))) else s;
    RetireHostsOpensNone(owned, |s.socks|);
  }

  /** A key that a list has unblocked is admitted the next time it connects, when there is room. */
  lemma RegrantedIsAdmitted(s: Cloud, e: Event, dk: string)
    requires Possible(s, e) && dk in s.blocked && Stored(s, e) && Regranted(e.verdict.value, dk, s.blocked[dk])
    requires RoomForOne(Next(s, e))
    ensures
      var t := Next(s, e);
      var u := Next(t, DeviceConnects(dk, ""));
      u.socks == t.socks + [Sock(AsDevice(dk, false, "", 0), t.now, true, false, None)]
  {
    hide Next, RoomForOne;
    ListStoredExactly(s, e);
    UnblockedExactly(s, e, dk);
    AdmittedExactly(Next(s, e), dk, "");
  }

  // ---- who is closed and let go of ----

  /** A device's socket that is connected and not let go of. */
  predicate Connected(k: Sock) { k.listed && k.role.AsDevice? && k.retired.None? }

  /** The list does not admit the socket at the time: its offer is not good, or its key is not listed. */
  predicate Unlisted(acl: Acl, k: Sock, at: int)
    requires k.role.AsDevice?
  {
    if k.role.pair then forall o :: o in acl.offers && o.id == k.role.offer ==> o.exp <= at
    else forall g :: g in acl.devices ==> g.dk != k.role.dk
  }

  /** The pairing's time is up: 120 s from its connecting, or the end of the first listed offer of its id, if there is one. */
  ghost predicate PairingIsOver(s: Cloud, k: Sock, at: int)
    requires k.role.AsDevice?
  {
    || k.at + 120_000 <= at
    || s.acl.None? || (forall o :: o in s.acl.value.offers ==> o.id != k.role.offer)
    || (exists n: nat :: FirstOf(s.acl.value.offers, k.role.offer, n) && s.acl.value.offers[n].exp <= at)
  }

  /** The later of the socket's connecting and its last automatic answer. */
  function LastHeard(k: Sock, pong: int): int { if pong > k.at then pong else k.at }

  /** What makes the relay close a socket. */
  ghost predicate Closes(s: Cloud, e: Event, i: nat)
    requires Possible(s, e) && i < |s.socks|
  {
    var k := s.socks[i];
    match e
    case SocketCloses(j) => j == i
    case SocketSpeaks(j, hostSays, says, fits) =>
      if s.socks[j].retired.Some? then j == i
      else if s.socks[j].role.AsHost? then
        (hostSays.BadHostFrame? && j == i) || (hostSays == CloseSaid(i) && s.socks[j].role.ready && Connected(k))
      else j == i && (says.BadFrame? || says.UnknownSaid? || !fits || (k.role.pair && k.role.msgs >= 16))
    case Blocks(entries) => Connected(k) && exists b :: b in entries && Names(b, k.role.dk)
    case AclChecked(asked, verdict) => Stored(s, e) && Connected(k) && Unlisted(verdict.value, k, asked)
    case AlarmLooks(pong, awake) => i == s.running.value.todo[0] && k.retired.Some? && (LastHeard(k, pong) > k.retired.value || awake)
    case AlarmEnds => Connected(k) && k.role.pair && PairingIsOver(s, k, s.running.value.began)
    case _ => false
  }

  /** When the relay lets go of a socket: another host of the owner's connects, or a pass finds it silent for over 90 s. */
  function LetGo(s: Cloud, e: Event, i: nat): Option<int>
    requires Possible(s, e) && i < |s.socks|
  {
    var k := s.socks[i];
    if k.retired.Some? then None
    else
      match e
      case HostConnects(kid, _) => if (s.owner.None? || s.owner.value.0 == kid) && k.listed && k.role.AsHost? then Some(s.now) else None
      case AlarmLooks(pong, _) =>
        if i == s.running.value.todo[0] && s.running.value.began - LastHeard(k, pong) > 90_000 then Some(s.running.value.began) else None
      case _ => None
  }

  /** A host says it is ready, with a list stored. */
  predicate Rises(s: Cloud, e: Event, i: nat)
    requires Possible(s, e) && i < |s.socks|
  {
    e.SocketSpeaks? && e.i == i && s.socks[i].retired.None? && s.socks[i].role.AsHost? && e.hostSays.ReadySaid? && s.acl.Some?
  }

  /** A message that counts for a pairing: it is taken, and one of the first 16. */
  predicate CountsMessage(s: Cloud, e: Event, i: nat)
    requires Possible(s, e) && i < |s.socks|
  {
    && e.SocketSpeaks? && e.i == i && s.socks[i].retired.None? && s.socks[i].role.AsDevice?
    && !e.says.BadFrame? && e.fits && s.socks[i].role.pair && s.socks[i].role.msgs < 16
  }

  /** The attachment: a host is ready once it says so, and not once it is let go of; a pairing's messages are counted. */
  predicate RoleAfter(s: Cloud, e: Event, i: nat, role: Role)
    requires Possible(s, e) && i < |s.socks|
  {
    var k := s.socks[i];
    if k.role.AsHost? then role == AsHost(k.role.kid, (k.role.ready || Rises(s, e, i)) && LetGo(s, e, i).None?)
    else role == k.role.(msgs := k.role.msgs + if CountsMessage(s, e, i) then 1 else 0)
  }

  /** The socket after the event. */
  ghost predicate Becomes(s: Cloud, e: Event, i: nat, k: Sock)
    requires Possible(s, e) && i < |s.socks|
  {
    var a, gone := s.socks[i], LetGo(s, e, i);
    && k.at == a.at && (k.listed <==> a.listed && e != SocketCloses(i)) && (k.closing <==> a.closing || Closes(s, e, i))
    && k.retired == (if gone.Some? then gone else a.retired) && RoleAfter(s, e, i, k.role)
  }

  lemma {:induction false} RetireHostsSock(s: Cloud, n: nat, i: nat)
    requires n <= |s.socks| && i < |s.socks|
    ensures
      var k, b := s.socks[i], RetireHosts(s, n).socks[i];
      b == if i < n && k.listed && k.role.AsHost? && k.retired.None? then k.(role := k.role.(ready := false), retired := Some(s.now)) else k
    ensures RetireHosts(s, n).now == s.now
  {
    hide PutHooksBack, CloudRequeue;
    if n > 0 {
      RetireHostsSock(s, n - 1, i);
    }
  }

  lemma ConnectBecomes(s: Cloud, e: Event, i: nat)
    requires Possible(s, e) && e.HostConnects? && i < |s.socks|
    ensures i < |AcceptHost(s, e.kid, e.computer).socks| && Becomes(s, e, i, AcceptHost(s, e.kid, e.computer).socks[i])
  {
    hide RetireHosts;
    var owned := if s.owner.None? then s.(owner := Some((e.kid, e.computer))) else s;
    RetireHostsSock(owned, |s.socks|, i);
  }

  lemma OfflineSocks(s: Cloud, role: Role, at: int)
    ensures Bookkeep(s, role, at).socks == s.socks
  {
    hide PutHooksBack, CloudRequeue;
  }

  lemma VisitBecomes(s: Cloud, e: Event, i: nat)
    requires Possible(s, e) && e.AlarmLooks? && i < |s.socks|
    ensures |Next(s, e).socks| == |s.socks| && Becomes(s, e, i, Next(s, e).socks[i])
  {
    hide AlarmVisits, Names, Unlisted, PairingIsOver;
    VisitSocks(s, e.pong, e.awake);
  }

  lemma VisitSocks(s: Cloud, pong: int, awake: bool)
    requires Visiting(s)
    ensures
      var i, began := s.running.value.todo[0], s.running.value.began;
      var k, heard := s.socks[i], LastHeard(s.socks[i], pong);
      AlarmVisits(s, pong, awake).socks ==
        if k.retired.Some? then if heard > k.retired.value || awake then s.socks[i := k.(closing := true)] else s.socks
        else if began - heard > 90_000 then s.socks[i := k.(role := Unready(k.role), retired := Some(began))]
        else s.socks
  {
    hide PutHooksBack, CloudRequeue;
  }

  /** What a host's frame does to the sockets. */
  lemma HostFrameSocks(s: Cloud, i: nat, says: HostSays)
    requires i < |s.socks| && s.socks[i].role.AsHost?
    ensures
      var k, t := s.socks[i], OnHost(s, i, says);
      t.socks == match says
        case ReadySaid => if s.acl.Some? then s.socks[i := k.(role := k.role.(ready := true))] else s.socks
        case CloseSaid(link) =>
          if k.role.ready && link < |s.socks| && IsDevice(s.socks[link]) then s.socks[link := s.socks[link].(closing := true)] else s.socks
        case BadHostFrame => s.socks[i := k.(closing := true)]
        case _ => s.socks
  {
    hide OfferHook, CloudAck, CloudDeliver, AckHook, AckedHook, DropHooks, Wait, AckOutcome;
  }

  lemma HostFrameBecomes(s: Cloud, e: Event, i: nat)
    requires Possible(s, e) && e.SocketSpeaks? && s.socks[e.i].retired.None? && s.socks[e.i].role.AsHost? && i < |s.socks|
    ensures |Next(s, e).socks| == |s.socks| && Becomes(s, e, i, Next(s, e).socks[i])
  {
    hide OnHost, Names, Unlisted, PairingIsOver;
    HostFrameSocks(s, e.i, e.hostSays);
  }

  lemma DeviceFrameBecomes(s: Cloud, e: Event, i: nat)
    requires Possible(s, e) && e.SocketSpeaks? && !(s.socks[e.i].retired.None? && s.socks[e.i].role.AsHost?) && i < |s.socks|
    ensures |Next(s, e).socks| == |s.socks| && Becomes(s, e, i, Next(s, e).socks[i])
  {
    hide OnDevice, Names, Unlisted, PairingIsOver;
    if s.socks[e.i].retired.None? {
      DeviceFrameSocks(s, e.i, e.says, e.fits);
    }
  }

  lemma DeviceFrameSocks(s: Cloud, i: nat, says: DeviceSays, fits: bool)
    requires i < |s.socks| && s.socks[i].role.AsDevice?
    ensures
      var k := s.socks[i];
      var counted := if k.role.pair then k.(role := k.role.(msgs := k.role.msgs + 1)) else k;
      OnDevice(s, i, says, fits).socks ==
        if says.BadFrame? || !fits || (k.role.pair && k.role.msgs >= 16) then s.socks[i := k.(closing := true)]
        else s.socks[i := counted.(closing := k.closing || says.UnknownSaid?)]
  {
    hide CloudPut, CloudCancel, HostReady;
  }

  lemma NamedIsNames(entries: seq<BlockEntry>, dk: string)
    ensures Named(entries, dk) <==> exists b :: b in entries && Names(b, dk)
  {
    forall b: BlockEntry
      ensures Names(b, dk) <==> IsKey(b.dk) && b.dk.text == dk
    {
      NamesKey(b, dk);
    }
    if b :| b in entries && Names(b, dk) {
      var i :| 0 <= i < |entries| && entries[i] == b;
    }
  }

  lemma ClosingBecomes(s: Cloud, e: Event, i: nat)
    requires Possible(s, e) && (e.Blocks? || e.AclChecked?) && i < |s.socks|
    ensures |Next(s, e).socks| == |s.socks| && Becomes(s, e, i, Next(s, e).socks[i])
  {
    hide BlockKeys, Named, Names, StillBlocked, PairingIsOver;
    if e.Blocks? && s.socks[i].role.AsDevice? {
      NamedIsNames(e.entries, s.socks[i].role.dk);
    }
  }

  lemma OverMeans(s: Cloud, k: Sock, at: int)
    requires k.role.AsDevice? && at >= 0
    ensures PairingEnd(s.acl, k) <= at <==> PairingIsOver(s, k, at)
  {
    if s.acl.Some? {
      var offers, id := s.acl.value.offers, k.role.offer;
      var n := ExpiryFound(offers, id);
      if OfferExpiry(offers, id).Some? {
        ExpiryOfFirst(offers, id, n);
        forall m: nat | FirstOf(offers, id, m)
          ensures offers[m].exp == offers[n].exp
        {
          ExpiryOfFirst(offers, id, m);
        }
      }
    }
  }

  lemma EndBecomes(s: Cloud, i: nat)
    requires Possible(s, AlarmEnds) && i < |s.socks|
    ensures |Next(s, AlarmEnds).socks| == |s.socks| && Becomes(s, AlarmEnds, i, Next(s, AlarmEnds).socks[i])
  {
    hide OfferHook, CloudExpire, LapseHooks, NextAlarm, Busy, HostReady, PairingEnd, PairingIsOver, Names, Unlisted;
    if s.socks[i].role.AsDevice? {
      OverMeans(s, s.socks[i], s.running.value.began);
    }
  }

  /**
   * Each socket after an event is what it was, but that it is closed, let go of, ready or off the list exactly for the
   * reasons the relay has.
   */
  lemma SocketsExactly(s: Cloud, e: Event, i: nat)
    requires Possible(s, e) && i < |s.socks|
    ensures i < |Next(s, e).socks| && Becomes(s, e, i, Next(s, e).socks[i])
  {
    hide AcceptHost, AcceptDevice, Becomes, FromSocket, Block, OnAcl, AlarmVisits, AlarmFinishes, Hook, Closed, Visiting;
    match e
    case HostConnects(_, _) => ConnectBecomes(s, e, i);
    case SocketSpeaks(j, _, _, _) =>
      if s.socks[j].retired.None? && s.socks[j].role.AsHost? {
        HostFrameBecomes(s, e, i);
      } else {
        DeviceFrameBecomes(s, e, i);
      }
    case Blocks(_) => ClosingBecomes(s, e, i);
    case AclChecked(_, _) => ClosingBecomes(s, e, i);
    case AlarmLooks(_, _) => VisitBecomes(s, e, i);
    case AlarmEnds => EndBecomes(s, i);
    case _ => OtherBecomes(s, e, i);
  }

  lemma OtherBecomes(s: Cloud, e: Event, i: nat)
    requires Possible(s, e) && i < |s.socks|
    requires e.Tick? || e.DeviceConnects? || e.HookArrives? || e.SocketCloses? || e.AlarmBegins?
    ensures i < |Next(s, e).socks| && Becomes(s, e, i, Next(s, e).socks[i])
  {
    hide AcceptDevice, QueueHook, OfferHook, HostReady, ListedNumbers, PutHooksBack, CloudRequeue, Names, Unlisted, PairingIsOver;
    if e.DeviceConnects? {
      DeviceAdded(s, e.dk, e.offer);
    }
  }

  // ---- when the host was last there ----

  /** The event takes a ready host away, or makes one ready: the time it stands for. */
  predicate Marks(s: Cloud, e: Event, i: nat, at: int)
    requires Possible(s, e) && i < |s.socks|
  {
    || (Rises(s, e, i) && !s.socks[i].role.ready && at == s.now)
    || (IsReady(s, i) && LetGo(s, e, i) == Some(at))
    || (e == SocketCloses(i) && s.socks[i].retired.None? && IsReady(s, i) && at == s.now)
  }

  ghost predicate Unmarked(s: Cloud, e: Event)
    requires Possible(s, e)
  {
    forall i: nat, at :: i < |s.socks| ==> !Marks(s, e, i, at)
  }

  lemma {:induction false} RetireHostsSeen(s: Cloud, n: nat)
    requires n <= |s.socks|
    ensures RetireHosts(s, n).now == s.now
    ensures
      var t := RetireHosts(s, n);
      if exists i: nat :: i < n && s.socks[i].listed && IsReady(s, i) && s.socks[i].retired.None? then t.lastSeenAt == Some(s.now)
      else t.lastSeenAt == s.lastSeenAt
  {
    hide PutHooksBack, CloudRequeue;
    if n > 0 {
      RetireHostsSeen(s, n - 1);
      RetireHostsSock(s, n - 1, n - 1);
      assert s.socks[n - 1].listed && IsReady(s, n - 1) && s.socks[n - 1].retired.None? ==>
        exists i: nat :: i < n && s.socks[i].listed && IsReady(s, i) && s.socks[i].retired.None?;
    }
  }

  lemma ConnectSeen(s: Cloud, e: Event)
    requires Possible(s, e) && e.HostConnects?
    ensures Unmarked(s, e) ==> AcceptHost(s, e.kid, e.computer).lastSeenAt == s.lastSeenAt
    ensures forall i: nat, at :: i < |s.socks| && Marks(s, e, i, at) ==> AcceptHost(s, e.kid, e.computer).lastSeenAt == Some(at)
  {
    hide RetireHosts;
    var owned := if s.owner.None? then s.(owner := Some((e.kid, e.computer))) else s;
    RetireHostsSeen(owned, |s.socks|);
    if i: nat :| i < |owned.socks| && owned.socks[i].listed && IsReady(owned, i) && owned.socks[i].retired.None? {
      assert AcceptHost(s, e.kid, e.computer) != s ==> Marks(s, e, i, s.now);
    }
  }

  lemma FrameSeen(s: Cloud, e: Event)
    requires Possible(s, e) && e.SocketSpeaks?
    ensures Next(s, e).lastSeenAt ==
      (if s.socks[e.i].retired.None? && s.socks[e.i].role.AsHost? && e.hostSays.ReadySaid? && s.acl.Some? && !s.socks[e.i].role.ready
       then Some(s.now) else s.lastSeenAt)
  {
    hide OfferHook, CloudAck, CloudDeliver, AckHook, AckedHook, DropHooks, Wait, AckOutcome, CloudPut, CloudCancel, HostReady;
  }

  lemma OthersSeen(s: Cloud, e: Event)
    requires Possible(s, e) && !e.HostConnects? && !e.SocketSpeaks?
    ensures Next(s, e).lastSeenAt ==
      match e
      case SocketCloses(i) => if s.socks[i].retired.None? && IsReady(s, i) then Some(s.now) else s.lastSeenAt
      case AlarmLooks(pong, _) =>
        var i := s.running.value.todo[0];
        if IsReady(s, i) && LetGo(s, e, i).Some? then LetGo(s, e, i) else s.lastSeenAt
      case _ => s.lastSeenAt
  {
    hide AcceptDevice, BlockKeys, QueueHook, OfferHook, LapseHooks, HostReady, ListedNumbers, CloudExpire, NextAlarm, Busy, ShutOut,
      StillBlocked, NamedDevices, PairingOver, PutHooksBack, CloudRequeue;
    if e.DeviceConnects? {
      DeviceAdded(s, e.dk, e.offer);
    }
  }

  /** The time the host was last there is that of the event that last made one ready, or took a ready one away. */
  lemma LastSeenExactly(s: Cloud, e: Event)
    requires Possible(s, e)
    ensures forall i: nat, at :: i < |s.socks| && Marks(s, e, i, at) ==> Next(s, e).lastSeenAt == Some(at)
    ensures Unmarked(s, e) ==> Next(s, e).lastSeenAt == s.lastSeenAt
  {
    hide AcceptHost, FromSocket;
    if e.HostConnects? {
      ConnectSeen(s, e);
    } else if e.SocketSpeaks? {
      FrameSeen(s, e);
      assert forall j: nat, m :: j < |s.socks| && Marks(s, e, j, m) ==> j == e.i && m == s.now;
      assert Unmarked(s, e) ==> !Marks(s, e, e.i, s.now);
    } else {
      OthersSeen(s, e);
      forall i: nat, at | i < |s.socks| && Marks(s, e, i, at)
        ensures Next(s, e).lastSeenAt == Some(at)
      {
        OthersMark(s, e, i, at);
      }
      if e.SocketCloses? {
        OthersMark(s, e, e.i, s.now);
      } else if e.AlarmLooks? {
        OthersMark(s, e, s.running.value.todo[0], s.now);
      }
    }
  }

  lemma OthersMark(s: Cloud, e: Event, i: nat, at: int)
    requires Possible(s, e) && !e.HostConnects? && !e.SocketSpeaks? && i < |s.socks|
    ensures Marks(s, e, i, at) ==> e == SocketCloses(i) || (e.AlarmLooks? && s.running.value.todo[0] == i)
    ensures e.SocketCloses? && Unmarked(s, e) ==> !Marks(s, e, e.i, s.now)
    ensures e.AlarmLooks? && Unmarked(s, e) ==> LetGo(s, e, s.running.value.todo[0]).Some? ==>
      !Marks(s, e, s.running.value.todo[0], LetGo(s, e, s.running.value.todo[0]).value)
  {
  }
}
