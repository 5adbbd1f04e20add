/** The cloud relay's queues over its runs: the mailbox's order, keys and quotas, and that what is in flight has a ready host. */
module CloudInFlight {
  import opened Wrappers
  import opened Sequences
  import opened Base64Url
  import opened Acls
  import opened MailboxItems
  import opened CloudMailbox
  import opened Hookbox
  import opened CloudState

  // ---- the mailbox ----

  ghost predicate MailOrdered(t: CloudTable) {
    Serial(t.rows, CloudSeq(), t.last)
  }

  ghost predicate SameNonce(r: CloudRow, q: CloudRow) { r.item.dk == q.item.dk && r.item.nonce == q.item.nonce }

  /** UNIQUE(dk, nonce) */
  ghost predicate NoncesUnique(t: CloudTable) {
    forall r, q {:trigger SameNonce(r, q)} :: r in t.rows && q in t.rows && SameNonce(r, q) ==> r == q
  }

  ghost predicate BothMoving(r: CloudRow, q: CloudRow) { r.item.state.Delivering? && q.item.state.Delivering? }

  ghost predicate OneMoving(t: CloudTable) {
    forall r, q {:trigger BothMoving(r, q)} :: r in t.rows && q in t.rows && BothMoving(r, q) ==> r == q
  }

  ghost predicate KeyWithin(t: CloudTable, dk: string) { |Filter(t.rows, OfKey(dk))| <= MBOX_PER_DEVICE }

  ghost predicate MailQuotas(t: CloudTable) {
    (forall dk :: KeyWithin(t, dk)) && |t.rows| <= MBOX_PER_COMPUTER && Sum(t.rows, CloudSize()) <= MBOX_MAX_BYTES
  }

  ghost predicate MailValid(t: CloudTable) {
    MailOrdered(t) && NoncesUnique(t) && OneMoving(t) && MailQuotas(t)
  }

  lemma MailRemoval(t: CloudTable, keep: CloudRow -> bool)
    requires MailValid(t)
    ensures MailValid(t.(rows := Filter(t.rows, keep)))
  {
    FilterSerial(t.rows, keep, CloudSeq(), t.last);
    SumFilter(t.rows, keep, CloudSize());
    forall dk
      ensures KeyWithin(t.(rows := Filter(t.rows, keep)), dk)
    {
      assert KeyWithin(t, dk);
      FilterCommutes(t.rows, keep, OfKey(dk));
    }
  }

  predicate ButState(r: CloudRow, q: CloudRow) {
    r.seq_ == q.seq_ && r.item.dk == q.item.dk && r.item.nonce == q.item.nonce && r.item.blob == q.item.blob && r.item.exp == q.item.exp
  }

  ghost predicate StateOnly(f: CloudRow -> CloudRow) { forall r :: ButState(f(r), r) }

  lemma MailUpdateNonces(t: CloudTable, f: CloudRow -> CloudRow)
    requires NoncesUnique(t) && StateOnly(f)
    ensures NoncesUnique(t.(rows := Map(t.rows, f)))
  {
    forall r: CloudRow, q: CloudRow | r in Map(t.rows, f) && q in Map(t.rows, f) && SameNonce(r, q)
      ensures r == q
    {
      var r0 := Restated(t.rows, f, r);
      var q0 := Restated(t.rows, f, q);
      assert SameNonce(r0, q0);
    }
  }

  lemma MailUpdateQuotas(t: CloudTable, f: CloudRow -> CloudRow)
    requires MailQuotas(t) && StateOnly(f)
    ensures MailQuotas(t.(rows := Map(t.rows, f)))
  {
    SumMap(t.rows, f, CloudSize());
    forall dk
      ensures KeyWithin(t.(rows := Map(t.rows, f)), dk)
    {
      assert KeyWithin(t, dk);
      FilterMap(t.rows, f, OfKey(dk));
    }
  }

  lemma MailUpdate(t: CloudTable, f: CloudRow -> CloudRow)
    requires MailValid(t) && StateOnly(f) && OneMoving(t.(rows := Map(t.rows, f)))
    ensures MailValid(t.(rows := Map(t.rows, f)))
  {
    MapSerial(t.rows, f, CloudSeq(), t.last);
    MailUpdateNonces(t, f);
    MailUpdateQuotas(t, f);
  }

  lemma CloudPutKeeps(t: CloudTable, dk: string, msg: PutMsg, hostReady: bool, now: int)
    requires MailValid(t)
    ensures MailValid(CloudPut(t, dk, msg, hostReady, now).0)
  {
    hide Screen, CloudHasRoom, MailValid;
    var u := CloudPut(t, dk, msg, hostReady, now).0;
    if u != t {
      var s := Screen(msg, now, CLOUD_MAX_TEXT);
      InsertKeepsMail(t, dk, msg.nonce.text, s.blob, s.exp);
    }
  }

  lemma InsertKeepsMail(t: CloudTable, dk: string, nonce: string, blob: seq<byte>, exp: int)
    requires MailValid(t) && First(t.rows, OfNonce(dk, nonce)).None? && CloudHasRoom(t, dk, |blob|)
    ensures MailValid(CloudInsert(t, dk, nonce, blob, exp))
  {
    var u := CloudInsert(t, dk, nonce, blob, exp);
    var row := u.rows[|t.rows|];
    SumAppend(t.rows, row, CloudSize());
    forall d
      ensures KeyWithin(u, d)
    {
      assert KeyWithin(t, d);
      FilterAppend(t.rows, row, OfKey(d));
    }
    forall r | r in t.rows
      ensures !SameNonce(r, row) && !SameNonce(row, r)
    {
      assert !OfNonce(dk, nonce)(r);
    }
    AppendSerial(t.rows, row, CloudSeq(), t.last);
  }

  lemma SentRow(t: CloudTable, now: int, r: CloudRow)
    requires MailOrdered(t) && CloudDeliver(t, now).1.Some? && r in CloudDeliver(t, now).0.rows && r.item.state.Delivering?
    ensures r == MailState(CloudDeliver(t, now).1.value, Delivering)
  {
    var row := CloudDeliver(t, now).1.value;
    var q := Restated(t.rows, Sends(row.seq_), r);
    assert !Moving()(q);
    if q.seq_ == row.seq_ {
      KeysTellApart(t.rows, CloudSeq(), q, row);
    }
  }

  lemma CloudDeliverKeeps(t: CloudTable, now: int)
    requires MailValid(t)
    ensures MailValid(CloudDeliver(t, now).0)
  {
    var (u, sent) := CloudDeliver(t, now);
    if sent.Some? {
      forall r, q | r in u.rows && q in u.rows && BothMoving(r, q)
        ensures r == q
      {
        SentRow(t, now, r);
        SentRow(t, now, q);
      }
      MailUpdate(t, Sends(sent.value.seq_));
    }
  }

  lemma CloudRequeueKeeps(t: CloudTable)
    requires MailValid(t)
    ensures MailValid(CloudRequeue(t)) && forall r :: r in CloudRequeue(t).rows ==> r.item.state.Queued?
  {
    forall r | r in CloudRequeue(t).rows
      ensures r.item.state.Queued?
    {
      var q := Restated(t.rows, PutsBack(), r);
    }
    MailUpdate(t, PutsBack());
  }

  // ---- the relay ----

  /** Nothing is in flight. */
  ghost predicate Idle(s: Cloud) {
    (forall r :: r in s.mailbox.rows ==> r.item.state.Queued?) && (forall r :: r in s.hookbox.rows ==> r.state.Queued?)
  }

  predicate RetiredUnready(k: Sock) { k.retired.Some? && k.role.AsHost? ==> !k.role.ready }

  ghost predicate Retiring(s: Cloud) {
    forall i :: 0 <= i < |s.socks| ==> RetiredUnready(s.socks[i])
  }

  /** Mail or a delivery is in flight only while there is a ready host. */
  ghost predicate Attended(s: Cloud) { CloudState.HostReady(s) || Idle(s) }

  ghost predicate FlightInv(s: Cloud) {
    MailValid(s.mailbox) && Attended(s) && Retiring(s)
  }

  ghost predicate ReadyKept(s: Cloud, t: Cloud) {
    CloudState.HostReady(s) ==> CloudState.HostReady(t)
  }

  /** What is in flight afterwards was in flight before. */
  ghost predicate NoneLaunched(s: Cloud, t: Cloud) {
    && (forall r :: r in t.mailbox.rows && r.item.state.Delivering? ==> r in s.mailbox.rows)
    && (forall r :: r in t.hookbox.rows && r.state.Delivering? ==> r in s.hookbox.rows)
  }

  lemma StaysAttended(s: Cloud, t: Cloud)
    requires Attended(s) && ReadyKept(s, t) && NoneLaunched(s, t)
    ensures Attended(t)
  {
    hide CloudState.HostReady;
  }

  lemma SameSocksReady(s: Cloud, t: Cloud)
    requires t.socks == s.socks
    ensures CloudState.HostReady(t) == CloudState.HostReady(s) && (Retiring(s) ==> Retiring(t))
  {
  }

  /** Closing sockets changes no attachment. */
  lemma ClosingReady(s: Cloud, p: Sock -> bool)
    ensures ReadyKept(s, CloseWhere(s, p)) && (Retiring(s) ==> Retiring(CloseWhere(s, p)))
  {
    var t := CloseWhere(s, p);
    forall i | 0 <= i < |s.socks|
      ensures IsReadyHost(t.socks[i]) == IsReadyHost(s.socks[i])
      ensures RetiredUnready(t.socks[i]) == RetiredUnready(s.socks[i])
    {
    }
  }

  /** One socket changes: it was not a ready host, or is one still. */
  lemma OneSockReady(s: Cloud, t: Cloud, i: nat)
    requires i < |s.socks| == |t.socks| && t.socks == s.socks[i := t.socks[i]]
    ensures (IsReadyHost(s.socks[i]) ==> IsReadyHost(t.socks[i])) ==> ReadyKept(s, t)
    ensures Retiring(s) && RetiredUnready(t.socks[i]) ==> Retiring(t)
  {
    if CloudState.HostReady(s) && (IsReadyHost(s.socks[i]) ==> IsReadyHost(t.socks[i])) {
      var j :| 0 <= j < |s.socks| && IsReadyHost(s.socks[j]);
      assert IsReadyHost(t.socks[j]);
    }
  }

  lemma OfflineIsIdle(s: Cloud, at: int)
    requires MailValid(s.mailbox)
    ensures MailValid(HostOffline(s, at).mailbox) && Idle(HostOffline(s, at))
  {
    CloudRequeueKeeps(s.mailbox);
    forall r | r in HostOffline(s, at).hookbox.rows
      ensures r.state.Queued?
    {
      var q := Restated(s.hookbox.rows, HookPutsBack(), r);
    }
  }

  /** A socket changes and the bookkeeping for it is done: either way nothing is left without a host. */
  lemma LeavingKeeps(s: Cloud, t: Cloud, i: nat, at: int)
    requires FlightInv(s) && i < |s.socks| == |t.socks| && t == s.(socks := s.socks[i := t.socks[i]], running := t.running)
    requires RetiredUnready(t.socks[i])
    requires !IsReadyHost(s.socks[i]) || (s.socks[i].role.AsHost? && s.socks[i].role.ready)
    ensures FlightInv(Bookkeep(t, s.socks[i].role, at))
  {
    hide MailValid, CloudState.HostReady, HostOffline;
    OneSockReady(s, t, i);
    if s.socks[i].role.AsHost? && s.socks[i].role.ready {
      OfflineIsIdle(t, at);
      OfflineSocks(t, at);
      SameSocksReady(t, HostOffline(t, at));
    } else {
      StaysAttended(s, t);
    }
  }

  lemma OfflineSocks(s: Cloud, at: int)
    ensures HostOffline(s, at).socks == s.socks
  {
  }

  lemma RetireKeepsFlight(s: Cloud, i: nat, at: int)
    requires FlightInv(s) && i < |s.socks|
    ensures FlightInv(Retire(s, i, at))
  {
    hide FlightInv, Bookkeep;
    var k := s.socks[i];
    LeavingKeeps(s, s.(socks := s.socks[i := k.(role := Unready(k.role), retired := Some(at))]), i, at);
  }

  lemma {:induction false} RetireHostsKeepsFlight(s: Cloud, n: nat)
    requires FlightInv(s) && n <= |s.socks|
    ensures FlightInv(RetireHosts(s, n))
  {
    hide FlightInv, Retire;
    if n > 0 {
      RetireHostsKeepsFlight(s, n - 1);
      RetireKeepsFlight(RetireHosts(s, n - 1), n - 1, s.now);
    }
  }

  lemma AcceptKeepsFlight(s: Cloud, role: Role)
    requires FlightInv(s)
    ensures FlightInv(Accept(s, role))
  {
    hide MailValid;
    var t := Accept(s, role);
    forall i | 0 <= i < |s.socks|
      ensures t.socks[i] == s.socks[i]
    {
    }
    if CloudState.HostReady(s) {
      var i :| 0 <= i < |s.socks| && IsReadyHost(s.socks[i]);
      assert IsReadyHost(t.socks[i]);
    }
    StaysAttended(s, t);
  }

  /** The same sockets and queues. */
  lemma SameQueuesKeep(s: Cloud, t: Cloud)
    requires FlightInv(s) && t.socks == s.socks && t.mailbox == s.mailbox && t.hookbox == s.hookbox
    ensures FlightInv(t)
  {
    hide MailValid, CloudState.HostReady;
    SameSocksReady(s, t);
    StaysAttended(s, t);
  }

  lemma AlarmKeepsFlight(s: Cloud, at: int)
    requires FlightInv(s)
    ensures FlightInv(EnsureAlarm(s, at))
  {
    hide FlightInv;
    SameQueuesKeep(s, EnsureAlarm(s, at));
  }

  lemma AcceptHostKeepsFlight(s: Cloud, kid: string, computer: string)
    requires FlightInv(s)
    ensures FlightInv(AcceptHost(s, kid, computer))
  {
    hide FlightInv, RetireHosts, Accept, EnsureAlarm;
    var owned := if s.owner.None? then s.(owner := Some((kid, computer))) else s;
    SameQueuesKeep(s, owned);
    RetireHostsKeepsFlight(owned, |s.socks|);
    var t := RetireHosts(owned, |s.socks|);
    AcceptKeepsFlight(t, AsHost(kid, false));
    AlarmKeepsFlight(Accept(t, AsHost(kid, false)), s.now + ALARM_MS);
  }

  lemma AcceptDeviceKeepsFlight(s: Cloud, dk: string, offer: string)
    requires FlightInv(s)
    ensures FlightInv(AcceptDevice(s, dk, offer))
  {
    hide FlightInv, Filter, GoodOffer, Lists;
    var t := AcceptDevice(s, dk, offer);
    if t != s {
      var role := AsDevice(dk, offer != "", offer, 0);
      AcceptKeepsFlight(s, role);
      SameQueuesKeep(Accept(s, role), t);
    }
  }

  /** Rows go, or are put back, and sockets are closed. */
  lemma FewerKeeps(s: Cloud, t: Cloud)
    requires FlightInv(s) && MailValid(t.mailbox) && ReadyKept(s, t) && Retiring(t) && NoneLaunched(s, t)
    ensures FlightInv(t)
  {
    hide MailValid, CloudState.HostReady;
    StaysAttended(s, t);
  }

  lemma {:induction false} BlockKeysFlight(s: Cloud, entries: seq<BlockEntry>)
    requires MailValid(s.mailbox)
    ensures
      var t := BlockKeys(s, entries);
      MailValid(t.mailbox) && forall r :: r in t.mailbox.rows ==> r in s.mailbox.rows
    decreases |entries|
  {
    hide MailValid, Decode;
    if entries != [] {
      var t, e := BlockKeys(s, entries[..|entries| - 1]), entries[|entries| - 1];
      BlockKeysFlight(s, entries[..|entries| - 1]);
      if IsKey(e.dk) {
        MailRemoval(t.mailbox, Except(QueuedBy(e.dk.text)));
      }
    }
  }

  lemma BlockKeepsFlight(s: Cloud, entries: seq<BlockEntry>)
    requires FlightInv(s)
    ensures FlightInv(Block(s, entries))
  {
    hide MailValid, CloudState.HostReady, BlockKeys, NamedDevices;
    BlockKeysFlight(s, entries);
    var t := BlockKeys(s, entries);
    SameSocksReady(s, t);
    ClosingReady(t, NamedDevices(entries));
    FewerKeeps(s, Block(s, entries));
  }

  lemma OnAclKeepsFlight(s: Cloud, asked: int, verdict: Option<Acl>)
    requires FlightInv(s)
    ensures FlightInv(OnAcl(s, asked, verdict))
  {
    hide MailValid, CloudState.HostReady, ShutOut, StillBlocked;
    if OnAcl(s, asked, verdict) != s {
      var t := s.(acl := verdict, blocked := StillBlocked(s.blocked, verdict.value));
      SameSocksReady(s, t);
      ClosingReady(t, ShutOut(verdict.value, asked));
      FewerKeeps(s, OnAcl(s, asked, verdict));
    }
  }

  // ---- deliveries ----

  lemma DeliverMailKeepsFlight(s: Cloud)
    requires FlightInv(s) && CloudState.HostReady(s)
    ensures FlightInv(DeliverMail(s)) && CloudState.HostReady(DeliverMail(s))
  {
    hide MailValid, CloudState.HostReady, CloudDeliver;
    CloudDeliverKeeps(s.mailbox, s.now);
    SameSocksReady(s, DeliverMail(s));
  }

  lemma DeliverHookKeepsFlight(s: Cloud, at: int)
    requires FlightInv(s) && CloudState.HostReady(s)
    ensures FlightInv(DeliverHook(s, at)) && CloudState.HostReady(DeliverHook(s, at))
  {
    hide MailValid, CloudState.HostReady, OfferHook;
    SameSocksReady(s, DeliverHook(s, at));
  }

  lemma HooksKeepFlight(s: Cloud, t: Cloud)
    requires FlightInv(s) && t.socks == s.socks && t.mailbox == s.mailbox
    requires forall r :: r in t.hookbox.rows && r.state.Delivering? ==> r in s.hookbox.rows
    ensures FlightInv(t)
  {
    hide MailValid, CloudState.HostReady;
    SameSocksReady(s, t);
    StaysAttended(s, t);
  }

  lemma MailKeepsFlight(s: Cloud, t: Cloud)
    requires FlightInv(s) && t.socks == s.socks && t.hookbox == s.hookbox && MailValid(t.mailbox)
    requires forall r :: r in t.mailbox.rows && r.item.state.Delivering? ==> r in s.mailbox.rows
    ensures FlightInv(t)
  {
    hide MailValid, CloudState.HostReady;
    SameSocksReady(s, t);
    StaysAttended(s, t);
  }

  lemma HookKeepsFlight(s: Cloud, id: string, delivery: string, size: nat)
    requires FlightInv(s)
    ensures FlightInv(Hook(s, id, delivery, size))
  {
    hide FlightInv, CloudState.HostReady, DeliverHook, EnsureAlarm, First, HookRoom;
    var (box, queueing) := QueueHook(s.hookbox, id, delivery, size, s.now);
    if queueing.HookQueued? {
      var queued := s.(hookbox := box);
      HooksKeepFlight(s, queued);
      SameSocksReady(s, queued);
      if CloudState.HostReady(s) {
        DeliverHookKeepsFlight(queued, s.now);
      }
      AlarmKeepsFlight(if CloudState.HostReady(s) then DeliverHook(queued, s.now) else queued, s.now + ALARM_MS);
    }
  }

  // ---- frames ----

  lemma ReadyOne(s: Cloud, i: nat)
    requires i < |s.socks| && IsReadyHost(s.socks[i])
    ensures CloudState.HostReady(s)
  {
  }

  lemma OnReadyKeepsFlight(s: Cloud, i: nat)
    requires FlightInv(s) && i < |s.socks| && s.socks[i].role.AsHost? && s.socks[i].listed && s.socks[i].retired.None?
    ensures FlightInv(OnReady(s, i))
  {
    hide MailValid, CloudState.HostReady, DeliverMail, DeliverHook;
    if !s.socks[i].role.ready && s.acl.Some? {
      var k := s.socks[i];
      var t := s.(socks := s.socks[i := k.(role := k.role.(ready := true))], lastSeenAt := Some(s.now));
      OneSockReady(s, t, i);
      FewerKeeps(s, t);
      ReadyOne(t, i);
      DeliverMailKeepsFlight(t);
      DeliverHookKeepsFlight(DeliverMail(t), s.now);
    }
  }

  lemma AckedRows(t: CloudTable, number: Option<int>, outcome: Outcome)
    requires MailValid(t)
    ensures MailValid(CloudAck(t, number, outcome).0)
    ensures forall r :: r in CloudAck(t, number, outcome).0.rows ==> r in t.rows
  {
    hide MailValid;
    if CloudAck(t, number, outcome).1.Some? {
      MailRemoval(t, Except(Numbered(number.value)));
    }
  }

  lemma OnAckKeepsFlight(s: Cloud, i: nat, number: Option<int>, outcome: Outcome)
    requires FlightInv(s) && i < |s.socks| && s.socks[i].listed
    ensures FlightInv(OnAck(s, i, number, outcome))
  {
    hide MailValid, CloudState.HostReady, DeliverMail, CloudAck;
    var acked := s.(mailbox := CloudAck(s.mailbox, number, outcome).0);
    AckedRows(s.mailbox, number, outcome);
    MailKeepsFlight(s, acked);
    if IsReady(s, i) {
      ReadyOne(acked, i);
      DeliverMailKeepsFlight(acked);
    }
  }

  lemma AckHookRows(t: HookTable, number: Option<int>, retry: bool, now: int)
    ensures forall r :: r in AckHook(t, number, retry, now).rows && r.state.Delivering? ==> r in t.rows
  {
    hide Wait, First;
    var row := AckedHook(t, number);
    if row.Some? && retry {
      var f := HookRetries(row.value.seq_, now + Wait(row.value.attempts));
      forall r: HookRow | r in Map(t.rows, f) && r.state.Delivering?
        ensures r in t.rows
      {
        var q := Restated(t.rows, f, r);
      }
    }
  }

  lemma OnHookAckKeepsFlight(s: Cloud, i: nat, number: Option<int>, retry: bool)
    requires FlightInv(s) && i < |s.socks| && s.socks[i].listed
    ensures FlightInv(OnHookAck(s, i, number, retry))
  {
    hide FlightInv, CloudState.HostReady, DeliverHook, AckHook, AckedHook, Wait;
    var acked := s.(hookbox := AckHook(s.hookbox, number, retry, s.now));
    AckHookRows(s.hookbox, number, retry, s.now);
    HooksKeepFlight(s, acked);
    var refused := AckDelivery(s, number, retry);
    SameQueuesKeep(acked, refused);
    if IsReady(s, i) {
      ReadyOne(refused, i);
      DeliverHookKeepsFlight(refused, s.now);
    }
  }

  lemma CloseSockKeepsFlight(s: Cloud, i: nat)
    requires FlightInv(s) && i < |s.socks|
    ensures FlightInv(CloseSock(s, i))
  {
    hide MailValid, CloudState.HostReady;
    OneSockReady(s, CloseSock(s, i), i);
    FewerKeeps(s, CloseSock(s, i));
  }

  lemma OnHostKeepsFlight(s: Cloud, i: nat, says: HostSays)
    requires FlightInv(s) && i < |s.socks| && s.socks[i].role.AsHost? && s.socks[i].listed && s.socks[i].retired.None?
    ensures FlightInv(OnHost(s, i, says))
  {
    hide FlightInv, OnReady, OnAck, OnHookAck, CloseSock;
    match says
    case ReadySaid => OnReadyKeepsFlight(s, i);
    case CloseSaid(link) => if link < |s.socks| { CloseSockKeepsFlight(s, link); }
    case AckSaid(number, ok, code) => OnAckKeepsFlight(s, i, number, AckOutcome(ok, code));
    case HooksSaid(ids) => HooksKeepFlight(s, s.(hookbox := DropHooks(s.hookbox, ids)));
    case HookAckSaid(number, retry) => OnHookAckKeepsFlight(s, i, number, retry);
    case BadHostFrame => CloseSockKeepsFlight(s, i);
    case OtherHostSaid =>
  }

  lemma PutRows(t: CloudTable, dk: string, msg: PutMsg, hostReady: bool, now: int)
    ensures forall r :: r in CloudPut(t, dk, msg, hostReady, now).0.rows && r.item.state.Delivering? ==> r in t.rows
  {
    hide Screen, CloudHasRoom, First;
  }

  lemma CancelRows(t: CloudTable, dk: string, field: Field)
    requires MailValid(t)
    ensures MailValid(CloudCancel(t, dk, field).0) && forall r :: r in CloudCancel(t, dk, field).0.rows ==> r in t.rows
  {
    hide MailValid;
    MailRemoval(t, Except(OfNonce(dk, CancelNonce(field))));
  }

  lemma CountedKeepsFlight(s: Cloud, i: nat)
    requires FlightInv(s) && i < |s.socks| && s.socks[i].role.AsDevice?
    ensures FlightInv(s.(socks := s.socks[i := s.socks[i].(role := s.socks[i].role.(msgs := s.socks[i].role.msgs + 1))]))
  {
    hide MailValid, CloudState.HostReady;
    var t := s.(socks := s.socks[i := s.socks[i].(role := s.socks[i].role.(msgs := s.socks[i].role.msgs + 1))]);
    OneSockReady(s, t, i);
    FewerKeeps(s, t);
  }

  lemma FlightMail(s: Cloud)
    requires FlightInv(s)
    ensures MailValid(s.mailbox)
  {
  }

  lemma OnDeviceKeepsFlight(s: Cloud, i: nat, says: DeviceSays, fits: bool)
    requires FlightInv(s) && i < |s.socks| && s.socks[i].role.AsDevice?
    ensures FlightInv(OnDevice(s, i, says, fits))
  {
    hide FlightInv, MailValid, CloudState.HostReady, CloseSock, CloudPut, CloudCancel, EnsureAlarm;
    var k := s.socks[i];
    FlightMail(s);
    CloseSockKeepsFlight(s, i);
    CountedKeepsFlight(s, i);
    var counted := if k.role.pair then s.(socks := s.socks[i := k.(role := k.role.(msgs := k.role.msgs + 1))]) else s;
    CloseSockKeepsFlight(counted, i);
    if says.PutSaid? {
      CloudPutKeeps(s.mailbox, k.role.dk, says.msg, CloudState.HostReady(s), s.now);
      PutRows(s.mailbox, k.role.dk, says.msg, CloudState.HostReady(s), s.now);
      var t := s.(mailbox := CloudPut(s.mailbox, k.role.dk, says.msg, CloudState.HostReady(s), s.now).0);
      MailKeepsFlight(s, t);
      AlarmKeepsFlight(t, s.now + ALARM_MS);
    } else if says.CancelSaid? {
      CancelRows(s.mailbox, k.role.dk, says.nonce);
      MailKeepsFlight(s, s.(mailbox := CloudCancel(s.mailbox, k.role.dk, says.nonce).0));
    }
  }

  lemma FromSocketKeepsFlight(s: Cloud, i: nat, hostSays: HostSays, says: DeviceSays, fits: bool)
    requires FlightInv(s) && i < |s.socks| && s.socks[i].listed
    ensures FlightInv(FromSocket(s, i, hostSays, says, fits))
  {
    hide FlightInv, OnHost, OnDevice, CloseSock;
    if s.socks[i].retired.Some? {
      CloseSockKeepsFlight(s, i);
    } else if s.socks[i].role.AsHost? {
      OnHostKeepsFlight(s, i, hostSays);
    } else {
      OnDeviceKeepsFlight(s, i, says, fits);
    }
  }

  lemma ClosedKeepsFlight(s: Cloud, i: nat)
    requires FlightInv(s) && i < |s.socks|
    ensures FlightInv(Closed(s, i))
  {
    hide MailValid, CloudState.HostReady, HostOffline;
    var k := s.socks[i];
    var off := s.(socks := s.socks[i := k.(listed := false, closing := true)]);
    assert RetiredUnready(k);
    LeavingKeeps(s, off, i, s.now);
    if k.retired.Some? {
      OneSockReady(s, off, i);
      FewerKeeps(s, off);
    }
  }

  // ---- the alarm ----

  lemma AlarmVisitsKeepsFlight(s: Cloud, pong: int, awake: bool)
    requires FlightInv(s) && Visiting(s)
    ensures FlightInv(AlarmVisits(s, pong, awake))
  {
    hide FlightInv, Retire, CloseSock;
    var t := s.(running := Some(Alarm(s.running.value.began, s.running.value.todo[1..])));
    SameQueuesKeep(s, t);
    RetireKeepsFlight(t, s.running.value.todo[0], s.running.value.began);
    CloseSockKeepsFlight(t, s.running.value.todo[0]);
  }

  lemma AlarmFinishesKeepsFlight(s: Cloud)
    requires FlightInv(s) && s.running.Some?
    ensures FlightInv(AlarmFinishes(s))
  {
    hide MailValid, CloudState.HostReady, DeliverHook, PairingOver, NextAlarm, Busy;
    var began := s.running.value.began;
    var tidy := s.(mailbox := CloudExpire(s.mailbox, began).0, hookbox := LapseHooks(s.hookbox, began));
    MailRemoval(s.mailbox, Except(PastExpiry(began)));
    SameSocksReady(s, tidy);
    FewerKeeps(s, tidy);
    var t := AlarmTidies(s, began);
    if CloudState.HostReady(s) {
      DeliverHookKeepsFlight(tidy, began);
    }
    ClosingReady(t, PairingOver(t.acl, began));
    FewerKeeps(t, CloseWhere(t, PairingOver(t.acl, began)));
    SameQueuesKeep(CloseWhere(t, PairingOver(t.acl, began)), AlarmFinishes(s));
  }

  /** Every event keeps the mailbox valid and what is in flight attended. */
  lemma NextKeepsFlight(s: Cloud, e: Event)
    requires FlightInv(s) && Possible(s, e)
    ensures FlightInv(Next(s, e))
  {
    hide FlightInv, AcceptHost, AcceptDevice, Block, OnAcl, FromSocket, Closed, AlarmVisits, AlarmFinishes, Hook, Visiting, ListedNumbers;
    match e
    case Tick(ms) => SameQueuesKeep(s, Next(s, e));
    case HostConnects(kid, computer) => AcceptHostKeepsFlight(s, kid, computer);
    case DeviceConnects(dk, offer) => AcceptDeviceKeepsFlight(s, dk, offer);
    case Blocks(entries) => BlockKeepsFlight(s, entries);
    case HookArrives(id, delivery, size) => HookKeepsFlight(s, id, delivery, size);
    case SocketSpeaks(i, hostSays, says, fits) => FromSocketKeepsFlight(s, i, hostSays, says, fits);
    case AclChecked(asked, verdict) => OnAclKeepsFlight(s, asked, verdict);
    case SocketCloses(i) => ClosedKeepsFlight(s, i);
    case AlarmBegins => SameQueuesKeep(s, Next(s, e));
    case AlarmLooks(pong, awake) => AlarmVisitsKeepsFlight(s, pong, awake);
    case AlarmEnds => AlarmFinishesKeepsFlight(s);
  }
}
