/** What every step of the cloud relay keeps: who may be connected, when the alarm is set, and how deliveries wait. */
module CloudInvariants {
  import opened Wrappers
  import opened Sequences
  import opened Acls
  import opened CloudMailbox
  import opened Hookbox
  import opened CloudState

  // ---- authorisation ----

  /** A device socket the relay has neither closed nor let go of. */
  predicate IsOpen(k: Sock) { IsDevice(k) && !k.closing }

  /** The stored list admits the socket, and no block stands against it. */
  predicate Admitted(s: Cloud, k: Sock)
    requires k.role.AsDevice?
  {
    s.acl.Some? && if k.role.pair then Offers(s.acl.value, k.role.offer) else Lists(s.acl.value, k.role.dk) && k.role.dk !in s.blocked
  }

  ghost predicate Authorized(s: Cloud) {
    forall i :: 0 <= i < |s.socks| && IsOpen(s.socks[i]) ==> Admitted(s, s.socks[i])
  }

  /** A device was one before, of the same key and offer; an open one was open. A socket let go of stays so. */
  predicate StaysWithin(before: Sock, after: Sock) {
    && (IsDevice(after) ==> IsDevice(before) && SameDevice(before, after))
    && (IsOpen(after) ==> IsOpen(before))
    && (before.retired.Some? ==> after.retired.Some?)
    && (IsStanding(after) ==> IsStanding(before))
  }

  /** A host's socket that the relay has not let go of. */
  predicate IsStanding(k: Sock) { k.listed && k.role.AsHost? && k.retired.None? }

  predicate SameDevice(k: Sock, q: Sock)
    requires k.role.AsDevice? && q.role.AsDevice?
  {
    q.role.dk == k.role.dk && q.role.pair == k.role.pair && q.role.offer == k.role.offer && q.at == k.at
  }

  ghost predicate NoneOpened(s: Cloud, t: Cloud) {
    |t.socks| == |s.socks| && forall i :: 0 <= i < |s.socks| ==> StaysWithin(s.socks[i], t.socks[i])
  }

  lemma ClosingStays(k: Sock, p: Sock -> bool)
    ensures StaysWithin(k, Closing(p)(k))
  {
  }

  lemma CloseOpensNone(s: Cloud, p: Sock -> bool)
    ensures NoneOpened(s, CloseWhere(s, p))
  {
    hide StaysWithin;
    forall i | 0 <= i < |s.socks|
      ensures StaysWithin(s.socks[i], CloseWhere(s, p).socks[i])
    {
      ClosingStays(s.socks[i], p);
    }
  }

  lemma SameRulesKeep(s: Cloud, t: Cloud)
    requires Authorized(s) && NoneOpened(s, t) && t.acl == s.acl && t.blocked == s.blocked
    ensures Authorized(t)
  {
    forall i | 0 <= i < |t.socks| && IsOpen(t.socks[i])
      ensures Admitted(t, t.socks[i])
    {
      assert StaysWithin(s.socks[i], t.socks[i]);
      assert Admitted(s, s.socks[i]);
    }
  }

  lemma {:induction false} RetireHostsOpensNone(s: Cloud, n: nat)
    requires n <= |s.socks|
    ensures NoneOpened(s, RetireHosts(s, n))
    ensures RetireHosts(s, n).acl == s.acl && RetireHosts(s, n).blocked == s.blocked && RetireHosts(s, n).owner == s.owner
    ensures RetireHosts(s, n).now == s.now && RetireHosts(s, n).running == s.running && RetireHosts(s, n).alarm == s.alarm
  {
    if n > 0 {
      RetireHostsOpensNone(s, n - 1);
      var t, u := RetireHosts(s, n - 1), RetireHosts(s, n);
      forall i | 0 <= i < |s.socks|
        ensures StaysWithin(s.socks[i], u.socks[i])
      {
        assert StaysWithin(s.socks[i], t.socks[i]);
      }
    }
  }

  lemma AcceptKeeps(s: Cloud, role: Role)
    requires Authorized(s) && (role.AsDevice? ==> Admitted(s, Sock(role, s.now, true, false, None)))
    ensures Authorized(Accept(s, role))
  {
    forall i | 0 <= i < |Accept(s, role).socks| && IsOpen(Accept(s, role).socks[i])
      ensures Admitted(Accept(s, role), Accept(s, role).socks[i])
    {
      if i < |s.socks| {
        assert Admitted(s, s.socks[i]);
      }
    }
  }

  lemma AcceptHostAuthorized(s: Cloud, kid: string, computer: string)
    requires Authorized(s)
    ensures Authorized(AcceptHost(s, kid, computer))
  {
    hide RetireHosts, Admitted;
    var owned := if s.owner.None? then s.(owner := Some((kid, computer))) else s;
    OwnedAuthorized(s, owned);
    RetireHostsOpensNone(owned, |s.socks|);
    SameRulesKeep(owned, RetireHosts(owned, |s.socks|));
    AcceptKeeps(RetireHosts(owned, |s.socks|), AsHost(kid, false));
    AlarmAuthorized(Accept(RetireHosts(owned, |s.socks|), AsHost(kid, false)), s.now + ALARM_MS);
  }

  lemma OwnedAuthorized(s: Cloud, t: Cloud)
    requires Authorized(s) && t.socks == s.socks && t.acl == s.acl && t.blocked == s.blocked
    ensures Authorized(t)
  {
    forall i | 0 <= i < |t.socks| && IsOpen(t.socks[i])
      ensures Admitted(t, t.socks[i])
    {
      assert Admitted(s, s.socks[i]);
    }
  }

  lemma AlarmAuthorized(s: Cloud, at: int)
    requires Authorized(s)
    ensures Authorized(EnsureAlarm(s, at))
  {
    OwnedAuthorized(s, EnsureAlarm(s, at));
  }

  lemma AcceptDeviceAuthorized(s: Cloud, dk: string, offer: string)
    requires Authorized(s)
    ensures Authorized(AcceptDevice(s, dk, offer))
  {
    hide Authorized, Filter;
    var t := AcceptDevice(s, dk, offer);
    if t != s {
      var role := AsDevice(dk, offer != "", offer, 0);
      if offer != "" {
        var o := GoodOffer(s.acl.value.offers, offer, s.now).value;
        assert o in s.acl.value.offers && o.id == offer;
      }
      AcceptKeeps(s, role);
      OwnedAuthorized(Accept(s, role), t);
    }
  }

  lemma NamedLast(front: seq<BlockEntry>, e: BlockEntry, dk: string)
    ensures Named(front + [e], dk) <==> Named(front, dk) || (IsKey(e.dk) && e.dk.text == dk)
  {
    hide IsKey;
    var entries := front + [e];
    assert entries[|front|] == e;
    forall i | 0 <= i < |front|
      ensures entries[i] == front[i]
    {
    }
  }

  lemma {:induction false} BlockedKeys(s: Cloud, entries: seq<BlockEntry>, dk: string)
    ensures dk in BlockKeys(s, entries).blocked <==> dk in s.blocked || Named(entries, dk)
    decreases |entries|
  {
    hide IsKey, Named;
    if entries == [] {
      NamedNone(dk);
    } else {
      var front, e := entries[..|entries| - 1], entries[|entries| - 1];
      BlockedKeys(s, front, dk);
      NamedLast(front, e, dk);
      assert front + [e] == entries;
    }
  }

  lemma NamedNone(dk: string)
    ensures !Named([], dk)
  {
  }

  lemma BlockAuthorized(s: Cloud, entries: seq<BlockEntry>)
    requires Authorized(s)
    ensures Authorized(Block(s, entries))
  {
    hide BlockKeys, Named;
    var t := Block(s, entries);
    forall i | 0 <= i < |t.socks| && IsOpen(t.socks[i])
      ensures Admitted(t, t.socks[i])
    {
      ClosingStays(s.socks[i], NamedDevices(entries));
      assert Admitted(s, s.socks[i]);
      BlockedKeys(s, entries, t.socks[i].role.dk);
    }
  }

  lemma OnAclAuthorized(s: Cloud, asked: int, verdict: Option<Acl>)
    requires Authorized(s)
    ensures Authorized(OnAcl(s, asked, verdict))
  {
    hide Lists, Readmits;
    var t := OnAcl(s, asked, verdict);
    if t != s {
      forall i | 0 <= i < |t.socks| && IsOpen(t.socks[i])
        ensures Admitted(t, t.socks[i])
      {
        ClosingStays(s.socks[i], ShutOut(verdict.value, asked));
        assert Admitted(s, s.socks[i]);
      }
    }
  }

  lemma DeliverHookSame(s: Cloud, at: int)
    ensures DeliverHook(s, at) == s.(hookbox := DeliverHook(s, at).hookbox, log := DeliverHook(s, at).log)
  {
  }

  ghost predicate SpokeOnly(s: Cloud, t: Cloud) {
    NoneOpened(s, t) && t.acl == s.acl && t.blocked == s.blocked && t.owner == s.owner && t.now == s.now && t.running == s.running
  }

  lemma HostOpensNone(s: Cloud, i: nat, says: HostSays)
    requires i < |s.socks| && s.socks[i].role.AsHost?
    ensures SpokeOnly(s, OnHost(s, i, says))
  {
    hide OfferHook, CloudAck, CloudDeliver, AckHook, AckedHook, DropHooks, Wait;
  }

  lemma DeviceOpensNone(s: Cloud, i: nat, says: DeviceSays, fits: bool)
    requires i < |s.socks| && s.socks[i].role.AsDevice?
    ensures SpokeOnly(s, OnDevice(s, i, says, fits))
  {
    hide CloudPut, CloudCancel, HostReady;
  }

  /** A frame opens no device. */
  lemma SpeakingOpensNone(s: Cloud, i: nat, hostSays: HostSays, says: DeviceSays, fits: bool)
    requires i < |s.socks|
    ensures
      var t := FromSocket(s, i, hostSays, says, fits);
      NoneOpened(s, t) && t.acl == s.acl && t.blocked == s.blocked && t.owner == s.owner && t.now == s.now && t.running == s.running
  {
    hide OnHost, OnDevice;
    if s.socks[i].role.AsHost? {
      HostOpensNone(s, i, hostSays);
    } else {
      DeviceOpensNone(s, i, says, fits);
    }
  }

  lemma AlarmEndOpensNone(s: Cloud)
    requires s.running.Some?
    ensures
      var t := AlarmFinishes(s);
      NoneOpened(s, t) && t.acl == s.acl && t.blocked == s.blocked && t.owner == s.owner && t.now == s.now && t.running.None?
  {
    hide OfferHook, CloudExpire, LapseHooks, NextAlarm, Busy, HostReady, StaysWithin, PairingOver;
    var t := AlarmTidies(s, s.running.value.began);
    CloseOpensNone(t, PairingOver(t.acl, s.running.value.began));
  }

  lemma OthersOpenNone(s: Cloud, e: Event)
    requires Possible(s, e) && (e.SocketCloses? || e.AlarmBegins? || e.AlarmLooks? || e.AlarmEnds? || e.HookArrives? || e.Tick?)
    ensures NoneOpened(s, Next(s, e)) && Next(s, e).acl == s.acl && Next(s, e).blocked == s.blocked && Next(s, e).owner == s.owner
    ensures Next(s, e).now >= s.now
  {
    hide AlarmFinishes, OfferHook, QueueHook, HostReady, ListedNumbers, PutHooksBack, CloudRequeue;
    if e.AlarmEnds? {
      AlarmEndOpensNone(s);
    }
  }

  // ---- the alarm's pass ----

  lemma OnlyAlarmRuns(s: Cloud, e: Event)
    requires Possible(s, e) && !e.AlarmBegins? && !e.AlarmLooks? && !e.AlarmEnds?
    ensures Next(s, e).running == s.running
  {
    hide AcceptHost, AcceptDevice, FromSocket, QueueHook, OfferHook, HostReady, NoneOpened, BlockKeys, PutHooksBack, CloudRequeue;
    match e
    case HostConnects(kid, computer) => AcceptHostSame(s, kid, computer);
    case DeviceConnects(dk, offer) => DeviceAdded(s, dk, offer);
    case SocketSpeaks(i, hostSays, says, fits) => SpeakingOpensNone(s, i, hostSays, says, fits);
    case _ =>
  }

  lemma VisitMovesOn(s: Cloud, pong: int, awake: bool)
    requires Visiting(s)
    ensures AlarmVisits(s, pong, awake).running == Some(Alarm(s.running.value.began, s.running.value.todo[1..]))
  {
    hide PutHooksBack, CloudRequeue;
  }

  /** The pass only has sockets before it that there are. */
  ghost predicate PassInRange(s: Cloud) {
    s.running.Some? ==> forall j :: j in s.running.value.todo ==> j < |s.socks|
  }

  lemma NextKeepsPass(s: Cloud, e: Event)
    requires PassInRange(s) && Possible(s, e)
    ensures PassInRange(Next(s, e)) && |s.socks| <= |Next(s, e).socks|
  {
    hide AcceptHost, AcceptDevice, Block, OnAcl, FromSocket, Closed, AlarmVisits, AlarmFinishes, Hook, StaysWithin;
    if e.DeviceConnects? {
      DeviceAdded(s, e.dk, e.offer);
    } else {
      NextAddsNone(s, e);
    }
    if e.AlarmLooks? {
      VisitMovesOn(s, e.pong, e.awake);
      assert forall j :: j in s.running.value.todo[1..] ==> j in s.running.value.todo;
    } else if e.AlarmEnds? {
      AlarmEndOpensNone(s);
    } else if !e.AlarmBegins? {
      OnlyAlarmRuns(s, e);
    }
  }

  /** No device is new. */
  ghost predicate NoneAdded(s: Cloud, t: Cloud) {
    && |s.socks| <= |t.socks|
    && (forall i :: 0 <= i < |s.socks| ==> StaysWithin(s.socks[i], t.socks[i]))
    && (forall i :: |s.socks| <= i < |t.socks| ==> !IsDevice(t.socks[i]))
  }

  lemma OpenedNoneAdded(s: Cloud, t: Cloud)
    requires NoneOpened(s, t)
    ensures NoneAdded(s, t) && |t.socks| == |s.socks|
  {
    hide StaysWithin;
  }

  lemma BlockAddsNone(s: Cloud, entries: seq<BlockEntry>)
    ensures NoneAdded(s, Block(s, entries)) && |Block(s, entries).socks| == |s.socks|
  {
    hide NoneOpened, NoneAdded, BlockKeys, NamedDevices;
    var t := BlockKeys(s, entries);
    CloseOpensNone(t, NamedDevices(entries));
    OpenedNoneAdded(t, Block(s, entries));
    AddsNoneTo(s, t, Block(s, entries));
  }

  lemma AddsNoneTo(s: Cloud, t: Cloud, u: Cloud)
    requires t.socks == s.socks && NoneAdded(t, u)
    ensures NoneAdded(s, u)
  {
  }

  lemma OnAclAddsNone(s: Cloud, asked: int, verdict: Option<Acl>)
    ensures NoneAdded(s, OnAcl(s, asked, verdict)) && |OnAcl(s, asked, verdict).socks| == |s.socks|
  {
    hide NoneAdded, NoneOpened, ShutOut, StillBlocked;
    var t := OnAcl(s, asked, verdict);
    if t == s {
      OpensNoneSelf(s);
    } else {
      var u := s.(acl := verdict, blocked := StillBlocked(s.blocked, verdict.value));
      CloseOpensNone(u, ShutOut(verdict.value, asked));
      OpenedNoneAdded(u, t);
      AddsNoneTo(s, u, t);
    }
  }

  lemma OpensNoneSelf(s: Cloud)
    ensures NoneAdded(s, s)
  {
  }

  lemma AcceptHostAddsNone(s: Cloud, kid: string, computer: string)
    ensures NoneAdded(s, AcceptHost(s, kid, computer))
  {
    hide RetireHosts, StaysWithin;
    var owned := if s.owner.None? then s.(owner := Some((kid, computer))) else s;
    RetireHostsOpensNone(owned, |s.socks|);
    OpensNoneSelf(s);
  }

  lemma NextAddsNone(s: Cloud, e: Event)
    requires Possible(s, e) && !e.DeviceConnects?
    ensures NoneAdded(s, Next(s, e)) && (!e.HostConnects? ==> |Next(s, e).socks| == |s.socks|)
  {
    hide NoneAdded, NoneOpened, AcceptHost, Block, OnAcl, FromSocket, Closed, AlarmFires, AlarmVisits, AlarmFinishes, Hook, Visiting;
    var t := Next(s, e);
    match e
    case HostConnects(kid, computer) => AcceptHostAddsNone(s, kid, computer);
    case Blocks(entries) => BlockAddsNone(s, entries);
    case AclChecked(asked, verdict) => OnAclAddsNone(s, asked, verdict);
    case SocketSpeaks(i, hostSays, says, fits) =>
      SpeakingOpensNone(s, i, hostSays, says, fits);
      OpenedNoneAdded(s, t);
    case _ =>
      OthersOpenNone(s, e);
      OpenedNoneAdded(s, t);
  }

  /** A connecting device is refused, or it is the one socket that is new. */
  lemma DeviceAdded(s: Cloud, dk: string, offer: string)
    ensures
      var t := AcceptDevice(s, dk, offer);
      t == s || (
        && t.socks == s.socks + [Sock(AsDevice(dk, offer != "", offer, 0), s.now, true, false, None)]
        && (offer == "" ==> dk !in s.blocked)
        && |Filter(s.socks, Devices())| < MAX_DEVICE_SOCKETS
        && (offer != "" ==> |Filter(s.socks, Pairings())| < MAX_PAIRING_SOCKETS)
        && t == s.(socks := t.socks, alarm := t.alarm))
  {
    hide Filter, GoodOffer, Lists;
  }

  // ---- how many may be connected ----

  /** At most 16 devices, at most two of them pairing, among the sockets not let go of. */
  predicate SocketQuotas(s: Cloud) {
    |Filter(s.socks, Devices())| <= MAX_DEVICE_SOCKETS && |Filter(s.socks, Pairings())| <= MAX_PAIRING_SOCKETS
  }

  lemma {:induction false} FewerSelected(a: seq<Sock>, b: seq<Sock>, p: Sock -> bool)
    requires |a| <= |b| && (forall i :: 0 <= i < |a| && p(b[i]) ==> p(a[i])) && (forall i :: |a| <= i < |b| ==> !p(b[i]))
    ensures |Filter(b, p)| <= |Filter(a, p)|
    decreases |b|
  {
    if |b| > |a| {
      FewerSelected(a, b[..|b| - 1], p);
    } else if a != [] {
      FewerSelected(a[..|a| - 1], b[..|b| - 1], p);
    }
  }

  lemma NextKeepsQuotas(s: Cloud, e: Event)
    requires SocketQuotas(s) && Possible(s, e)
    ensures SocketQuotas(Next(s, e))
  {
    hide Next, Filter;
    if e.DeviceConnects? {
      DeviceAddedQuotas(s, e.dk, e.offer);
      NextConnects(s, e);
    } else {
      NextAddsNone(s, e);
      FewerSelected(s.socks, Next(s, e).socks, Devices());
      FewerSelected(s.socks, Next(s, e).socks, Pairings());
    }
  }

  lemma NextConnects(s: Cloud, e: Event)
    requires e.DeviceConnects? && Possible(s, e)
    ensures Next(s, e) == AcceptDevice(s, e.dk, e.offer)
  {
    hide AcceptDevice;
  }

  lemma NextLooks(s: Cloud, e: Event)
    requires e.AlarmLooks? && Possible(s, e)
    ensures Next(s, e) == AlarmVisits(s, e.pong, e.awake) && |AlarmVisits(s, e.pong, e.awake).socks| == |s.socks|
  {
  }

  lemma NextEnds(s: Cloud)
    requires Possible(s, AlarmEnds)
    ensures s.running.Some? && s.running.value.todo == [] && Next(s, AlarmEnds) == AlarmFinishes(s)
  {
    hide AlarmFinishes;
  }

  lemma DeviceAddedQuotas(s: Cloud, dk: string, offer: string)
    requires SocketQuotas(s)
    ensures SocketQuotas(AcceptDevice(s, dk, offer))
  {
    hide Filter, AcceptDevice;
    DeviceAdded(s, dk, offer);
    var k := Sock(AsDevice(dk, offer != "", offer, 0), s.now, true, false, None);
    FilterAppend(s.socks, k, Devices());
    FilterAppend(s.socks, k, Pairings());
  }

  lemma ClockRuns(s: Cloud, e: Event)
    requires Possible(s, e)
    ensures Next(s, e).now >= s.now
  {
    hide AcceptHost, AcceptDevice, FromSocket, Closed, AlarmFires, AlarmVisits, AlarmFinishes, Hook, Visiting, NoneOpened, BlockKeys;
    match e
    case HostConnects(kid, computer) => AcceptHostSame(s, kid, computer);
    case DeviceConnects(dk, offer) => AcceptDeviceSame(s, dk, offer);
    case Blocks(entries) =>
    case AclChecked(asked, verdict) =>
    case SocketSpeaks(i, hostSays, says, fits) => SpeakingOpensNone(s, i, hostSays, says, fits);
    case _ => OthersOpenNone(s, e);
  }

  /** At most one host stands: a new one replaces it. */
  ghost predicate OneHost(s: Cloud) {
    forall i, j :: 0 <= i < |s.socks| && 0 <= j < |s.socks| && IsStanding(s.socks[i]) && IsStanding(s.socks[j]) ==> i == j
  }

  lemma {:induction false} NoneStands(s: Cloud, n: nat)
    requires n <= |s.socks|
    ensures forall i :: 0 <= i < n ==> !IsStanding(RetireHosts(s, n).socks[i])
  {
    if n > 0 {
      NoneStands(s, n - 1);
    }
  }

  lemma AcceptHostStands(s: Cloud, kid: string, computer: string)
    requires OneHost(s)
    ensures OneHost(AcceptHost(s, kid, computer))
  {
    hide RetireHosts;
    var owned := if s.owner.None? then s.(owner := Some((kid, computer))) else s;
    NoneStands(owned, |owned.socks|);
  }

  lemma NextKeepsOneHost(s: Cloud, e: Event)
    requires OneHost(s) && Possible(s, e)
    ensures OneHost(Next(s, e))
  {
    hide AcceptHost, AcceptDevice, Block, OnAcl, FromSocket, Closed, AlarmFires, AlarmVisits, AlarmFinishes, Hook, Visiting, Filter;
    var t := Next(s, e);
    if e.HostConnects? {
      AcceptHostStands(s, e.kid, e.computer);
    } else if e.DeviceConnects? {
      DeviceAdded(s, e.dk, e.offer);
    } else {
      NextAddsNone(s, e);
      forall i | 0 <= i < |t.socks| && IsStanding(t.socks[i])
        ensures IsStanding(s.socks[i])
      {
        assert StaysWithin(s.socks[i], t.socks[i]);
      }
    }
  }

  /** Devices connected in the past. */
  ghost predicate DeviceTimes(s: Cloud) {
    forall i :: 0 <= i < |s.socks| && IsDevice(s.socks[i]) ==> s.socks[i].at <= s.now
  }

  lemma NextKeepsTimes(s: Cloud, e: Event)
    requires DeviceTimes(s) && Possible(s, e)
    ensures DeviceTimes(Next(s, e))
  {
    hide Next, Possible;
    ClockRuns(s, e);
    var t := Next(s, e);
    if e.DeviceConnects? {
      NextConnects(s, e);
      DeviceAdded(s, e.dk, e.offer);
    } else {
      NextAddsNone(s, e);
      forall i | 0 <= i < |t.socks| && IsDevice(t.socks[i])
        ensures t.socks[i].at <= t.now
      {
        assert StaysWithin(s.socks[i], t.socks[i]);
      }
    }
  }

  lemma NextAuthorized(s: Cloud, e: Event)
    requires Authorized(s) && Possible(s, e)
    ensures Authorized(Next(s, e))
  {
    hide Authorized, NoneOpened, AcceptHost, AcceptDevice, Block, OnAcl, FromSocket, Closed, AlarmFires, AlarmVisits, AlarmFinishes, Hook, Visiting;
    match e
    case HostConnects(kid, computer) => AcceptHostAuthorized(s, kid, computer);
    case DeviceConnects(dk, offer) => AcceptDeviceAuthorized(s, dk, offer);
    case Blocks(entries) => BlockAuthorized(s, entries);
    case AclChecked(asked, verdict) => OnAclAuthorized(s, asked, verdict);
    case SocketSpeaks(i, hostSays, says, fits) =>
      SpeakingOpensNone(s, i, hostSays, says, fits);
      SameRulesKeep(s, Next(s, e));
    case _ =>
      OthersOpenNone(s, e);
      SameRulesKeep(s, Next(s, e));
  }

  /** The stored list changes only to one with a higher version. */
  lemma VersionsRise(s: Cloud, e: Event)
    requires Possible(s, e)
    ensures Next(s, e).acl == s.acl || (Next(s, e).acl.Some? && Version(s.acl) < Next(s, e).acl.value.ver)
  {
    hide AcceptHost, AcceptDevice, FromSocket, Closed, AlarmFires, AlarmVisits, AlarmFinishes, Hook, Visiting, NoneOpened, BlockKeys;
    match e
    case HostConnects(kid, computer) =>
      AcceptHostSame(s, kid, computer);
    case DeviceConnects(dk, offer) => AcceptDeviceSame(s, dk, offer);
    case Blocks(entries) =>
    case AclChecked(asked, verdict) =>
    case SocketSpeaks(i, hostSays, says, fits) => SpeakingOpensNone(s, i, hostSays, says, fits);
    case _ => OthersOpenNone(s, e);
  }

  lemma AcceptHostSame(s: Cloud, kid: string, computer: string)
    ensures AcceptHost(s, kid, computer).acl == s.acl && AcceptHost(s, kid, computer).blocked == s.blocked
    ensures AcceptHost(s, kid, computer).now == s.now && AcceptHost(s, kid, computer).running == s.running
  {
    hide RetireHosts;
    var owned := if s.owner.None? then s.(owner := Some((kid, computer))) else s;
    RetireHostsOpensNone(owned, |s.socks|);
  }

  lemma AcceptDeviceSame(s: Cloud, dk: string, offer: string)
    ensures AcceptDevice(s, dk, offer).acl == s.acl && AcceptDevice(s, dk, offer).blocked == s.blocked
    ensures AcceptDevice(s, dk, offer).now == s.now
  {
    hide Filter, GoodOffer, Lists;
  }

  /** Only an access list that lists a blocked key with a different grant unblocks it. */
  lemma UnblockedByRegrant(s: Cloud, e: Event, dk: string)
    requires Possible(s, e) && dk in s.blocked && dk !in Next(s, e).blocked
    ensures e.AclChecked? && e.verdict.Some? && Next(s, e).acl == e.verdict && Version(s.acl) < e.verdict.value.ver
    ensures Readmits(e.verdict.value, dk, s.blocked[dk])
  {
    hide AcceptHost, AcceptDevice, FromSocket, Closed, AlarmFires, AlarmVisits, AlarmFinishes, Hook, Visiting, NoneOpened, BlockKeys, Readmits, Named;
    match e
    case HostConnects(kid, computer) => AcceptHostSame(s, kid, computer);
    case DeviceConnects(d, offer) => AcceptDeviceSame(s, d, offer);
    case Blocks(entries) => BlockedKeys(s, entries, dk);
    case AclChecked(asked, verdict) =>
    case SocketSpeaks(i, hostSays, says, fits) => SpeakingOpensNone(s, i, hostSays, says, fits);
    case _ => OthersOpenNone(s, e);
  }
}
