/** That the cloud relay's queues keep moving: while a host is ready, what is due goes out, or the alarm comes for it. */
module CloudFlow {
  import opened Wrappers
  import opened Sequences
  import opened Base64Url
  import opened Acls
  import opened MailboxItems
  import opened CloudMailbox
  import opened Hookbox
  import opened CloudState
  import opened CloudInvariants
  import opened CloudAlarms
  import opened CloudInFlight
  import opened CloudMail
  import opened CloudRuns
  import opened CloudPasses
  import opened CloudBlockCases

  // ---- one queue ----

  ghost predicate MailMoving(t: CloudTable) { exists r :: r in t.rows && Moving()(r) }

  ghost predicate HookMoving(t: HookTable) { exists r :: r in t.rows && HookInFlight()(r) }

  /** An item is in flight, or none is due. */
  ghost predicate MailServed(t: CloudTable, now: int) { MailMoving(t) || forall r :: r in t.rows ==> !Due(now)(r) }

  ghost predicate HookServed(t: HookTable, now: int) { HookMoving(t) || forall r :: r in t.rows ==> !HookDue(now)(r) }

  /** What was in flight is, and nothing is newly queued. */
  ghost predicate MailStays(t: CloudTable, u: CloudTable) {
    (MailMoving(t) ==> MailMoving(u)) && forall r :: r in u.rows && r.item.state.Queued? ==> r in t.rows
  }

  ghost predicate HooksStay(t: HookTable, u: HookTable) {
    (HookMoving(t) ==> HookMoving(u)) && forall r :: r in u.rows && r.state.Queued? ==> r in t.rows
  }

  lemma DeliverServes(t: CloudTable, now: int)
    ensures MailServed(CloudDeliver(t, now).0, now)
  {
    var (u, sent) := CloudDeliver(t, now);
    if sent.Some? {
      DeliveredRow(t, now);
      assert Moving()(MailState(sent.value, Delivering));
    }
  }

  lemma OfferServes(t: HookTable, now: int)
    ensures HookServed(OfferHook(t, now).0, now)
  {
    var (u, sent) := OfferHook(t, now);
    if sent.Some? {
      var i :| 0 <= i < |t.rows| && t.rows[i] == sent.value;
      assert u.rows[i] == sent.value.(state := Delivering);
      assert u.rows[i] in u.rows && HookInFlight()(u.rows[i]);
    }
  }

  // ---- the one host ----

  lemma ReadyStands(s: Cloud, i: nat)
    requires Retiring(s) && i < |s.socks| && IsReadyHost(s.socks[i])
    ensures IsStanding(s.socks[i])
  {
    assert RetiredUnready(s.socks[i]);
  }

  /** While a host stands that is not ready, none is. */
  lemma OnlyThisOne(s: Cloud, i: nat)
    requires Retiring(s) && OneHost(s) && i < |s.socks| && IsStanding(s.socks[i])
    ensures CloudState.HostReady(s) <==> IsReadyHost(s.socks[i])
  {
    if CloudState.HostReady(s) {
      var j :| 0 <= j < |s.socks| && IsReadyHost(s.socks[j]);
      ReadyStands(s, j);
    }
  }

  lemma NotReadier(s: Cloud, t: Cloud)
    requires |t.socks| == |s.socks| && forall i :: 0 <= i < |s.socks| && IsReadyHost(t.socks[i]) ==> IsReadyHost(s.socks[i])
    ensures CloudState.HostReady(t) ==> CloudState.HostReady(s)
  {
  }

  /** The ready host changes and no longer is: none is. */
  lemma NoneLeftReady(s: Cloud, t: Cloud, i: nat)
    requires Retiring(s) && OneHost(s) && i < |s.socks| == |t.socks| && t.socks == s.socks[i := t.socks[i]]
    requires IsReadyHost(s.socks[i]) && !IsReadyHost(t.socks[i])
    ensures !CloudState.HostReady(t)
  {
    ReadyStands(s, i);
    forall j | 0 <= j < |t.socks|
      ensures !IsReadyHost(t.socks[j])
    {
      if IsReadyHost(t.socks[j]) {
        ReadyStands(s, j);
      }
    }
  }

  // ---- every event but the end of the alarm ----

  /** With a ready host, each queue is served now, or was before as it is. */
  ghost predicate Goes(s: Cloud, t: Cloud) {
    CloudState.HostReady(t) ==>
      && (MailServed(t.mailbox, t.now) || (CloudState.HostReady(s) && MailStays(s.mailbox, t.mailbox)))
      && (HookServed(t.hookbox, t.now) || (CloudState.HostReady(s) && HooksStay(s.hookbox, t.hookbox)))
  }

  lemma SameGoes(s: Cloud, t: Cloud)
    requires CloudState.HostReady(t) ==> CloudState.HostReady(s)
    requires t.mailbox == s.mailbox && t.hookbox == s.hookbox
    ensures Goes(s, t)
  {
    hide CloudState.HostReady, MailMoving, HookMoving;
  }

  lemma BookkeepGoes(s: Cloud, t: Cloud, i: nat, at: int)
    requires Retiring(s) && OneHost(s) && i < |s.socks| == |t.socks| && t.socks == s.socks[i := t.socks[i]]
    requires t.mailbox == s.mailbox && t.hookbox == s.hookbox && !IsReadyHost(t.socks[i]) && s.socks[i].listed
    ensures Goes(s, Bookkeep(t, s.socks[i].role, at))
  {
    hide CloudRequeue, PutHooksBack, Goes;
    if s.socks[i].role.AsHost? && s.socks[i].role.ready {
      NoneLeftReady(s, t, i);
      NoneReadyGoes(s, HostOffline(t, at), t);
    } else {
      NotReadier(s, t);
      SameGoes(s, t);
    }
  }

  lemma NoneReadyGoes(s: Cloud, t: Cloud, u: Cloud)
    requires t.socks == u.socks && !CloudState.HostReady(u)
    ensures Goes(s, t)
  {
    hide MailServed, HookServed, MailStays, HooksStay;
  }

  lemma FlowInv(s: Cloud)
    requires RunInv(s)
    ensures Retiring(s) && OneHost(s) && MailValid(s.mailbox) && AlarmSet(s) && Began(s)
  {
    hide Foremost, SocketQuotas, PassInRange, DeviceTimes, OneHost, MailValid, Attended, Retiring, AlarmSet, Began, HookInv, Authorized;
  }

  lemma ConnectGoes(s: Cloud, kid: string, computer: string)
    requires Retiring(s)
    ensures Goes(s, AcceptHost(s, kid, computer))
  {
    hide RetireHosts, CloudState.HostReady, Goes;
    var t := AcceptHost(s, kid, computer);
    if t == s {
      SameGoes(s, t);
    } else {
      ConnectNoneReady(s, kid, computer);
      NoneReadyGoes(s, t, t);
    }
  }

  lemma ConnectNoneReady(s: Cloud, kid: string, computer: string)
    requires Retiring(s) && AcceptHost(s, kid, computer) != s
    ensures !CloudState.HostReady(AcceptHost(s, kid, computer))
  {
    hide RetireHosts;
    var owned := if s.owner.None? then s.(owner := Some((kid, computer))) else s;
    RetiredUpTo(owned, |s.socks|);
    var t := AcceptHost(s, kid, computer);
    forall i | 0 <= i < |t.socks|
      ensures !IsReadyHost(t.socks[i])
    {
      assert i < |s.socks| ==> t.socks[i] == RetireHosts(owned, |s.socks|).socks[i];
    }
  }

  lemma DeviceGoes(s: Cloud, dk: string, offer: string)
    ensures Goes(s, AcceptDevice(s, dk, offer))
  {
    hide AcceptDevice, Filter, Goes;
    DeviceAdded(s, dk, offer);
    SameGoes(s, AcceptDevice(s, dk, offer));
  }

  lemma {:induction false} BlockKeysStay(s: Cloud, entries: seq<BlockEntry>)
    ensures MailStays(s.mailbox, BlockKeys(s, entries).mailbox)
    decreases |entries|
  {
    hide Decode, MailStays, MailMoving;
    if entries == [] {
      SameStays(s.mailbox);
    } else {
      var t, e := BlockKeys(s, entries[..|entries| - 1]), entries[|entries| - 1];
      BlockKeysStay(s, entries[..|entries| - 1]);
      if IsKey(e.dk) {
        ForgetStays(t.mailbox, e.dk.text);
        StaysJoins(s.mailbox, t.mailbox, CloudForget(t.mailbox, e.dk.text));
      }
    }
  }

  lemma SameStays(t: CloudTable)
    ensures MailStays(t, t)
  {
  }

  lemma StaysJoins(t: CloudTable, u: CloudTable, v: CloudTable)
    requires MailStays(t, u) && MailStays(u, v)
    ensures MailStays(t, v)
  {
  }

  lemma ForgetStays(t: CloudTable, dk: string)
    ensures MailStays(t, CloudForget(t, dk))
  {
    if MailMoving(t) {
      var r :| r in t.rows && Moving()(r);
      assert Except(QueuedBy(dk))(r);
    }
  }

  lemma BlockGoes(s: Cloud, entries: seq<BlockEntry>)
    ensures Goes(s, Block(s, entries))
  {
    hide BlockKeys, NamedDevices, MailStays;
    BlockKeysStay(s, entries);
    ClosedNotReadier(BlockKeys(s, entries), NamedDevices(entries));
  }

  lemma ClosedNotReadier(s: Cloud, p: Sock -> bool)
    ensures CloudState.HostReady(CloseWhere(s, p)) == CloudState.HostReady(s)
  {
    var t := CloseWhere(s, p);
    forall i | 0 <= i < |s.socks|
      ensures IsReadyHost(t.socks[i]) == IsReadyHost(s.socks[i])
    {
    }
    if CloudState.HostReady(s) {
      var i :| 0 <= i < |s.socks| && IsReadyHost(s.socks[i]);
      assert IsReadyHost(t.socks[i]);
    }
  }

  lemma OnAclGoes(s: Cloud, asked: int, verdict: Option<Acl>)
    ensures Goes(s, OnAcl(s, asked, verdict))
  {
    hide ShutOut, StillBlocked, Goes;
    var t := OnAcl(s, asked, verdict);
    if t != s {
      var u := s.(acl := verdict, blocked := StillBlocked(s.blocked, verdict.value));
      ClosedNotReadier(u, ShutOut(verdict.value, asked));
      NotReadier(s, u);
    }
    SameGoes(s, t);
  }

  lemma HookGoes(s: Cloud, id: string, delivery: string, size: nat)
    ensures Goes(s, Hook(s, id, delivery, size))
  {
    hide QueueHook, OfferHook, HookServed, HooksStay, MailServed, CloudState.HostReady, MailMoving;
    var t := Hook(s, id, delivery, size);
    SameReady(s, t);
    var (box, queueing) := QueueHook(s.hookbox, id, delivery, size, s.now);
    OfferServes(box, s.now);
    SameHooksStay(s.hookbox);
  }

  lemma SameReady(s: Cloud, t: Cloud)
    requires t.socks == s.socks
    ensures CloudState.HostReady(t) == CloudState.HostReady(s)
  {
  }

  lemma SameHooksStay(t: HookTable)
    ensures HooksStay(t, t)
  {
  }

  // ---- a frame ----

  lemma ReadySaidGoes(s: Cloud, i: nat)
    requires i < |s.socks| && s.socks[i].role.AsHost?
    ensures Goes(s, OnReady(s, i))
  {
    hide CloudDeliver, OfferHook, MailServed, HookServed, MailStays, HooksStay, CloudState.HostReady;
    DeliverServes(s.mailbox, s.now);
    OfferServes(s.hookbox, s.now);
    SameStays(s.mailbox);
    SameHooksStay(s.hookbox);
  }

  lemma AckSaidGoes(s: Cloud, i: nat, number: Option<int>, outcome: Outcome)
    requires Retiring(s) && OneHost(s) && i < |s.socks| && IsStanding(s.socks[i])
    ensures Goes(s, OnAck(s, i, number, outcome))
  {
    hide CloudDeliver, CloudAck, MailServed, HookServed, MailStays, HooksStay, CloudState.HostReady;
    var t := OnAck(s, i, number, outcome);
    DeliverServes(CloudAck(s.mailbox, number, outcome).0, s.now);
    SameHooksStay(s.hookbox);
    OnlyThisOne(s, i);
    SameReady(s, t);
  }

  lemma HookAckGoes(s: Cloud, i: nat, number: Option<int>, retry: bool)
    requires Retiring(s) && OneHost(s) && i < |s.socks| && IsStanding(s.socks[i])
    ensures Goes(s, OnHookAck(s, i, number, retry))
  {
    hide OfferHook, AckHook, AckedHook, MailServed, HookServed, MailStays, HooksStay, CloudState.HostReady, Wait;
    var t := OnHookAck(s, i, number, retry);
    OfferServes(AckDelivery(s, number, retry).hookbox, s.now);
    SameStays(s.mailbox);
    OnlyThisOne(s, i);
    SameReady(s, t);
  }

  lemma DropStays(t: HookTable, ids: set<string>)
    ensures HooksStay(t, DropHooks(t, ids))
  {
    if HookMoving(t) {
      var r :| r in t.rows && HookInFlight()(r);
      assert HookKept(ids)(r);
    }
  }

  lemma CloseGoes(s: Cloud, i: nat)
    requires i < |s.socks|
    ensures Goes(s, CloseSock(s, i))
  {
    hide Goes;
    NotReadier(s, CloseSock(s, i));
    SameGoes(s, CloseSock(s, i));
  }

  lemma OnHostGoes(s: Cloud, i: nat, says: HostSays)
    requires Retiring(s) && OneHost(s) && i < |s.socks| && IsStanding(s.socks[i])
    ensures Goes(s, OnHost(s, i, says))
  {
    hide OnReady, OnAck, OnHookAck, CloseSock, Goes, DropHooks, Retiring, OneHost;
    SameGoes(s, s);
    match says
    case ReadySaid => ReadySaidGoes(s, i);
    case CloseSaid(link) => if link < |s.socks| { CloseGoes(s, link); }
    case AckSaid(number, ok, code) => AckSaidGoes(s, i, number, AckOutcome(ok, code));
    case HooksSaid(ids) => HooksSaidGoes(s, ids);
    case HookAckSaid(number, retry) => HookAckGoes(s, i, number, retry);
    case BadHostFrame => CloseGoes(s, i);
    case OtherHostSaid =>
  }

  lemma HooksSaidGoes(s: Cloud, ids: set<string>)
    ensures Goes(s, s.(hookbox := DropHooks(s.hookbox, ids)))
  {
    hide DropHooks, MailServed, HookServed, MailStays, HooksStay, CloudState.HostReady;
    DropStays(s.hookbox, ids);
    SameStays(s.mailbox);
    SameReady(s, s.(hookbox := DropHooks(s.hookbox, ids)));
  }

  /** With a ready host nothing is put. */
  lemma NonePut(t: CloudTable, dk: string, msg: PutMsg, now: int)
    ensures CloudPut(t, dk, msg, true, now).0 == t
  {
  }

  lemma CancelStays(t: CloudTable, dk: string, field: Field)
    requires MailValid(t)
    ensures MailStays(t, CloudCancel(t, dk, field).0)
  {
    hide MailOrdered, OneMoving, MailQuotas;
    var nonce := CancelNonce(field);
    var found := First(t.rows, OfNonce(dk, nonce));
    if MailMoving(t) && found.Some? && found.value.item.state.Queued? {
      var r :| r in t.rows && Moving()(r);
      assert OfNonce(dk, nonce)(r) ==> SameNonce(r, found.value);
      assert Except(OfNonce(dk, nonce))(r);
    }
  }

  lemma OnDeviceGoes(s: Cloud, i: nat, says: DeviceSays, fits: bool)
    requires MailValid(s.mailbox) && i < |s.socks| && s.socks[i].role.AsDevice?
    ensures Goes(s, OnDevice(s, i, says, fits))
  {
    hide CloudPut, CloudCancel, MailValid, MailServed, HookServed, MailStays, HooksStay, CloudState.HostReady;
    var t := OnDevice(s, i, says, fits);
    DeviceNotReadier(s, i, says, fits);
    SameStays(s.mailbox);
    SameHooksStay(s.hookbox);
    var dk := s.socks[i].role.dk;
    if says.PutSaid? {
      NonePut(s.mailbox, dk, says.msg, s.now);
    } else if says.CancelSaid? {
      CancelStays(s.mailbox, dk, says.nonce);
    }
  }

  lemma DeviceNotReadier(s: Cloud, i: nat, says: DeviceSays, fits: bool)
    requires i < |s.socks| && s.socks[i].role.AsDevice?
    ensures CloudState.HostReady(OnDevice(s, i, says, fits)) ==> CloudState.HostReady(s)
  {
    hide CloudPut, CloudCancel;
    NotReadier(s, OnDevice(s, i, says, fits));
  }

  lemma FrameGoes(s: Cloud, i: nat, hostSays: HostSays, says: DeviceSays, fits: bool)
    requires Retiring(s) && OneHost(s) && MailValid(s.mailbox) && i < |s.socks| && s.socks[i].listed
    ensures Goes(s, FromSocket(s, i, hostSays, says, fits))
  {
    hide OnHost, OnDevice, CloseSock, Goes, MailValid, Retiring, OneHost;
    if s.socks[i].retired.Some? {
      CloseGoes(s, i);
    } else if s.socks[i].role.AsHost? {
      OnHostGoes(s, i, hostSays);
    } else {
      OnDeviceGoes(s, i, says, fits);
    }
  }

  lemma ClosedGoes(s: Cloud, i: nat)
    requires Retiring(s) && OneHost(s) && i < |s.socks| && s.socks[i].listed
    ensures Goes(s, Closed(s, i))
  {
    hide Bookkeep, Goes, OneHost, Retiring;
    var off := s.(socks := s.socks[i := s.socks[i].(listed := false, closing := true)]);
    BookkeepGoes(s, off, i, s.now);
    NotReadier(s, off);
    SameGoes(s, off);
  }

  /**
   * The alarm lets go of a ready host's socket that has closed since the pass began; another host may be ready by now. Events
   * may come after any look here; in the source only while letting go of a socket waits.
   */
  predicate ClosedLate(s: Cloud, e: Event) {
    && e.AlarmLooks? && Visiting(s)
    && var k := s.socks[s.running.value.todo[0]];
       && !k.listed && k.retired.None? && k.role.AsHost? && k.role.ready
       && s.running.value.began - k.at > SILENT_TIMEOUT_MS && s.running.value.began - e.pong > SILENT_TIMEOUT_MS
  }

  lemma LookGoes(s: Cloud, pong: int, awake: bool)
    requires Retiring(s) && OneHost(s) && Visiting(s) && !ClosedLate(s, AlarmLooks(pong, awake))
    ensures Goes(s, AlarmVisits(s, pong, awake))
  {
    hide Goes, OneHost, Retiring, CloudRequeue, PutHooksBack;
    var began, i := s.running.value.began, s.running.value.todo[0];
    var k := s.socks[i];
    var t := s.(running := Some(Alarm(began, s.running.value.todo[1..])));
    NotReadier(s, CloseSock(t, i));
    SameGoes(s, CloseSock(t, i));
    NotReadier(s, t);
    SameGoes(s, t);
    var off := t.(socks := s.socks[i := k.(role := Unready(k.role), retired := Some(began))]);
    NotReadier(s, off);
    SameGoes(s, off);
    if k.listed {
      BookkeepGoes(s, off, i, began);
    }
  }

  /** With a ready host, every event but the alarm's end serves each queue or leaves it as it was. */
  lemma NextGoes(s: Cloud, e: Event)
    requires RunInv(s) && Possible(s, e) && !e.AlarmEnds? && !ClosedLate(s, e)
    ensures Goes(s, Next(s, e))
  {
    hide RunInv, Goes, AcceptHost, AcceptDevice, Block, OnAcl, FromSocket, Closed, AlarmVisits, Hook, Visiting, ListedNumbers, ClosedLate,
      MailValid, Retiring, OneHost, AlarmSet, Began;
    FlowInv(s);
    match e
    case Tick(ms) => QuietGoes(s, Next(s, e));
    case HostConnects(kid, computer) => ConnectGoes(s, kid, computer);
    case DeviceConnects(dk, offer) => DeviceGoes(s, dk, offer);
    case Blocks(entries) => BlockGoes(s, entries);
    case HookArrives(id, delivery, size) => HookGoes(s, id, delivery, size);
    case SocketSpeaks(i, hostSays, says, fits) => FrameGoes(s, i, hostSays, says, fits);
    case AclChecked(asked, verdict) => OnAclGoes(s, asked, verdict);
    case SocketCloses(i) => ClosedGoes(s, i);
    case AlarmBegins => QuietGoes(s, Next(s, e));
    case AlarmLooks(pong, awake) => LookGoes(s, pong, awake);
  }

  lemma QuietGoes(s: Cloud, t: Cloud)
    requires t.socks == s.socks && t.mailbox == s.mailbox && t.hookbox == s.hookbox
    ensures Goes(s, t)
  {
    hide Goes;
    SameReady(s, t);
    SameGoes(s, t);
  }

  // ---- mail ----

  /** The alarm ends with the item in flight expired. */
  ghost predicate RanOutAt(s: Cloud, e: Event) {
    && e.AlarmEnds? && s.running.Some?
    && exists r :: r in s.mailbox.rows && Moving()(r) && r.item.exp <= s.running.value.began
  }

  /** Since anything was last sent, the alarm has taken the item out of flight. */
  ghost predicate TakenSince(s: Cloud, es: seq<Event>) {
    es != [] && (
      var before, e := From(s, es[..|es| - 1]), es[|es| - 1];
      !(Possible(before, e) && Sent(before, e).Some?) && (RanOutAt(before, e) || ClosedLate(before, e) || TakenSince(s, es[..|es| - 1])))
  }

  ghost predicate MailFlows(s: Cloud, taken: bool) { CloudState.HostReady(s) ==> MailServed(s.mailbox, s.now) || taken }

  lemma AlarmEndReady(s: Cloud)
    requires s.running.Some?
    ensures CloudState.HostReady(AlarmFinishes(s)) == CloudState.HostReady(s)
  {
    hide OfferHook, PairingOver, NextAlarm, Busy, CloudState.HostReady, CloudExpire, LapseHooks;
    var t := AlarmTidies(s, s.running.value.began);
    SameReady(s, t);
    ClosedNotReadier(t, PairingOver(t.acl, s.running.value.began));
    SameReady(CloseWhere(t, PairingOver(t.acl, s.running.value.began)), AlarmFinishes(s));
  }

  lemma ExpiryServes(t: CloudTable, began: int, now: int, later: int)
    requires MailServed(t, now) && now <= later
    requires !exists r :: r in t.rows && Moving()(r) && r.item.exp <= began
    ensures MailServed(CloudExpire(t, began).0, later)
  {
    if MailMoving(t) {
      var r :| r in t.rows && Moving()(r);
      assert Except(PastExpiry(began))(r);
    } else {
      forall r | r in CloudExpire(t, began).0.rows
        ensures !Due(later)(r)
      {
        assert !Due(now)(r);
      }
    }
  }

  lemma EndFlows(s: Cloud, taken: bool)
    requires Possible(s, AlarmEnds) && MailFlows(s, taken)
    ensures MailFlows(Next(s, AlarmEnds), taken || RanOutAt(s, AlarmEnds))
  {
    hide AlarmFinishes, MailServed, CloudState.HostReady;
    NextEnds(s);
    AlarmEndReady(s);
    AlarmEndsSettles(s);
    AlarmEndOpensNone(s);
    if CloudState.HostReady(s) && MailServed(s.mailbox, s.now) && !RanOutAt(s, AlarmEnds) {
      ExpiryServes(s.mailbox, s.running.value.began, s.now, s.now);
    }
  }

  lemma StaysServed(t: CloudTable, u: CloudTable, now: int, later: int)
    requires MailServed(t, now) && MailStays(t, u) && now <= later
    ensures MailServed(u, later)
  {
    forall r | r in u.rows && Due(later)(r)
      ensures r in t.rows && Due(now)(r)
    {
    }
  }

  lemma OtherFlows(s: Cloud, e: Event, taken: bool)
    requires RunInv(s) && Possible(s, e) && !e.AlarmEnds? && !ClosedLate(s, e) && MailFlows(s, taken)
    ensures MailFlows(Next(s, e), taken)
  {
    hide RunInv, Next, Possible, MailServed, MailStays, CloudState.HostReady, HookServed, HooksStay;
    NextGoes(s, e);
    ClockRuns(s, e);
    var t := Next(s, e);
    if MailServed(s.mailbox, s.now) && MailStays(s.mailbox, t.mailbox) {
      StaysServed(s.mailbox, t.mailbox, s.now, t.now);
    }
  }

  lemma SentMoves(s: Cloud, e: Event)
    requires Possible(s, e) && Sent(s, e).Some?
    ensures MailFlows(Next(s, e), false)
  {
    hide Next, Sent, CloudState.HostReady;
    SentGoesInFlight(s, e);
    assert Moving()(MailState(Sent(s, e).value, Delivering));
  }

  lemma {:induction false} RunFlows(s: Cloud, es: seq<Event>)
    requires RunInv(s) && MailFlows(s, false) && FeasibleFrom(s, es)
    ensures MailFlows(From(s, es), TakenSince(s, es))
  {
    hide RunInv, Next, MailFlows, RanOutAt, ClosedLate, Sent;
    if es != [] {
      var front, e := es[..|es| - 1], es[|es| - 1];
      var before := From(s, front);
      RunFlows(s, front);
      RunKeeps(s, front);
      if Sent(before, e).Some? {
        SentMoves(before, e);
        FlowsAnyway(Next(before, e), false, TakenSince(s, es));
      } else if e.AlarmEnds? {
        EndFlows(before, TakenSince(s, front));
        FlowsAnyway(Next(before, e), TakenSince(s, front) || RanOutAt(before, e), TakenSince(s, es));
      } else if ClosedLate(before, e) {
        TakenFlows(Next(before, e));
      } else {
        OtherFlows(before, e, TakenSince(s, front));
        FlowsAnyway(Next(before, e), TakenSince(s, front), TakenSince(s, es));
      }
    }
  }

  lemma FlowsAnyway(s: Cloud, taken: bool, more: bool)
    requires MailFlows(s, taken) && (taken ==> more)
    ensures MailFlows(s, more)
  {
  }

  lemma TakenFlows(s: Cloud)
    ensures MailFlows(s, true)
  {
  }

  /**
   * The mailbox does not stall: while a host is ready and an unexpired item is queued, one is in flight, unless the alarm has
   * taken the item last sent out of flight. It does so when that has expired, or when it lets go of a host that closed during
   * its pass; neither is followed by a delivery until the host next speaks of mail.
   */
  lemma NeverStalls(now: nat, es: seq<Event>, r: CloudRow)
    requires Feasible(now, es)
    requires
      var s := After(now, es);
      CloudState.HostReady(s) && r in s.mailbox.rows && r.item.state.Queued? && r.item.exp > s.now
    ensures MailMoving(After(now, es).mailbox) || TakenSince(NewComputer(now), es)
  {
    hide RunInv, From, FeasibleFrom, TakenSince, CloudState.HostReady, MailMoving;
    NewComputerInv(now);
    NoHostFlows(now);
    RunFlows(NewComputer(now), es);
    assert Due(After(now, es).now)(r);
  }

  lemma NoHostFlows(now: nat)
    ensures MailFlows(NewComputer(now), false)
  {
  }

  // ---- deliveries ----

  /** No wake-up is lost: with a ready host, each due delivery is behind one in flight, or the alarm is due. */
  ghost predicate WakeSet(s: Cloud) {
    s.running.None? && CloudState.HostReady(s) && !HookServed(s.hookbox, s.now) ==> s.alarm.Some? && s.alarm.value <= s.now
  }

  lemma EndWakes(s: Cloud)
    requires Began(s) && Possible(s, AlarmEnds)
    ensures WakeSet(Next(s, AlarmEnds))
  {
    hide AlarmFinishes, CloudState.HostReady, HookServed;
    NextEnds(s);
    AlarmEndReady(s);
    AlarmEndOpensNone(s);
    var t := AlarmFinishes(s);
    if CloudState.HostReady(s) && !HookServed(t.hookbox, t.now) {
      EndAlarm(s);
    }
  }

  lemma EndAlarm(s: Cloud)
    requires Began(s) && s.running.Some? && CloudState.HostReady(s)
    requires !HookServed(AlarmFinishes(s).hookbox, AlarmFinishes(s).now)
    ensures AlarmFinishes(s).alarm.Some? && AlarmFinishes(s).alarm.value <= s.now
  {
    hide CloudState.HostReady, CloudExpire, LapseHooks, OfferHook, NextEnd, PairingOver;
    var began := s.running.value.began;
    var box := LapseHooks(s.hookbox, began);
    OfferServes(box, began);
    var t := AlarmTidies(s, began);
    SameReady(s, s.(mailbox := CloudExpire(s.mailbox, began).0, hookbox := box));
    assert t.hookbox == OfferHook(box, began).0;
    var r :| r in t.hookbox.rows && HookDue(s.now)(r);
    assert HookWaiting(began)(r);
    var i :| 0 <= i < |t.hookbox.rows| && t.hookbox.rows[i] == r;
    assert Busy(t);
  }

  lemma HooksStayServed(s: Cloud, t: Cloud)
    requires HooksStay(s.hookbox, t.hookbox) && s.now <= t.now && AlarmSet(s) && s.running.None?
    requires s.alarm.Some? ==> t.alarm.Some? && t.alarm.value <= s.alarm.value
    requires HookServed(s.hookbox, s.now) || (s.alarm.Some? && s.alarm.value <= s.now)
    ensures HookServed(t.hookbox, t.now) || (t.alarm.Some? && t.alarm.value <= t.now)
  {
    if !HookServed(t.hookbox, t.now) && HookServed(s.hookbox, s.now) {
      var r :| r in t.hookbox.rows && HookDue(t.now)(r);
      assert !HookDue(s.now)(r);
      assert HookWaiting(s.now)(r);
      BusyWithRow(s, r);
    }
  }

  lemma OtherWakes(s: Cloud, e: Event)
    requires RunInv(s) && Possible(s, e) && !e.AlarmBegins? && !e.AlarmLooks? && !e.AlarmEnds? && WakeSet(s)
    ensures WakeSet(Next(s, e))
  {
    hide RunInv, Next, Possible, HookServed, HooksStay, MailServed, MailStays, CloudState.HostReady, AlarmSet, Began, MailValid, Retiring, OneHost;
    NextGoes(s, e);
    ClockRuns(s, e);
    OnlyAlarmRuns(s, e);
    FlowInv(s);
    var t := Next(s, e);
    if s.alarm.Some? {
      AlarmOnlyForward(s, e);
    }
    if s.running.None? && CloudState.HostReady(s) && HooksStay(s.hookbox, t.hookbox) {
      HooksStayServed(s, t);
    }
  }

  lemma NextWakes(s: Cloud, e: Event)
    requires RunInv(s) && Possible(s, e) && WakeSet(s)
    ensures WakeSet(Next(s, e))
  {
    hide RunInv, Next, HookServed, CloudState.HostReady, AlarmSet, Began, MailValid, Retiring, OneHost, ListedNumbers, AlarmVisits;
    FlowInv(s);
    if e.AlarmEnds? {
      EndWakes(s);
    } else if e.AlarmBegins? {
      BeginIs(s);
    } else if e.AlarmLooks? {
      RunningStep(s, e);
    } else {
      OtherWakes(s, e);
    }
  }

  lemma {:induction false} RunWakes(s: Cloud, es: seq<Event>)
    requires RunInv(s) && WakeSet(s) && FeasibleFrom(s, es)
    ensures WakeSet(From(s, es))
  {
    hide RunInv, Next, WakeSet;
    if es != [] {
      RunWakes(s, es[..|es| - 1]);
      RunKeeps(s, es[..|es| - 1]);
      NextWakes(From(s, es[..|es| - 1]), es[|es| - 1]);
    }
  }

  /** Outside the alarm's handler, with a ready host and no delivery in flight, a delivery that is due has the alarm due too. */
  lemma NoWakeUpLost(s: Cloud, r: HookRow)
    requires Reachable(s) && s.running.None? && CloudState.HostReady(s) && !HookMoving(s.hookbox)
    requires r in s.hookbox.rows && HookDue(s.now)(r)
    ensures s.alarm.Some? && s.alarm.value <= s.now
  {
    hide RunInv, From, FeasibleFrom, NewComputer, CloudState.HostReady, HookMoving;
    var now: nat, es :| Feasible(now, es) && After(now, es) == s;
    NewComputerInv(now);
    NoHostWakes(now);
    RunWakes(NewComputer(now), es);
  }

  lemma NoHostWakes(now: nat)
    ensures WakeSet(NewComputer(now))
  {
  }
}
