/** What each event of the cloud relay takes out of the mailbox and puts into it, and what devices are told of it. */
module CloudPost {
  import opened Wrappers
  import opened Sequences
  import opened Base64Url
  import opened Acls
  import opened MailboxItems
  import opened MailboxAnswers
  import opened CloudMailbox
  import opened Hookbox
  import opened CloudState
  import opened CloudInvariants
  import CloudAlarms
  import opened CloudInFlight
  import opened CloudMail
  import opened CloudRuns
  import opened CloudHooks
  import opened CloudAdmission

  // ---- what leaves ----

  /** A device's frame reaches its handler and is taken: the relay has not let go of the socket, and does not close it. */
  predicate DeviceHeard(s: Cloud, e: Event)
    requires Possible(s, e)
  {
    && e.SocketSpeaks? && Connected(s.socks[e.i]) && !e.says.BadFrame? && e.fits
    && !(s.socks[e.i].role.pair && s.socks[e.i].role.msgs >= 16)
  }

  /** The host acknowledges the item, which is in flight. */
  predicate Acknowledges(s: Cloud, e: Event, r: CloudRow)
    requires Possible(s, e)
  {
    HostHeard(s, e) && e.hostSays.AckSaid? && e.hostSays.number == Some(r.seq_) && r.item.state.Delivering?
  }

  /** The item's device, not there for pairing, withdraws it while it is queued. */
  predicate Withdraws(s: Cloud, e: Event, r: CloudRow)
    requires Possible(s, e)
  {
    && DeviceHeard(s, e) && !s.socks[e.i].role.pair && s.socks[e.i].role.dk == r.item.dk
    && e.says.CancelSaid? && r.item.state.Queued?
    && (e.says.nonce == Text(r.item.nonce) || (!e.says.nonce.Text? && r.item.nonce == ""))
  }

  /** A block names the item's device while it is queued. */
  ghost predicate Forgets(s: Cloud, e: Event, r: CloudRow) {
    e.Blocks? && r.item.state.Queued? && exists b :: b in e.entries && Names(b, r.item.dk)
  }

  /** An alarm that began when the item's time was over ends. */
  predicate Expires(s: Cloud, e: Event, r: CloudRow)
    requires Possible(s, e)
  {
    e.AlarmEnds? && r.item.exp <= s.running.value.began
  }

  ghost predicate TakenOut(s: Cloud, e: Event, r: CloudRow)
    requires Possible(s, e)
  {
    Acknowledges(s, e, r) || Withdraws(s, e, r) || Forgets(s, e, r) || Expires(s, e, r)
  }

  // ---- tables that hold the same items ----

  /** The two hold the same items, but for their state. */
  ghost predicate MailMatches(t: CloudTable, u: CloudTable) {
    && u.last == t.last
    && (forall r :: r in t.rows ==> Held(u, r))
    && (forall r :: r in u.rows ==> Held(t, r))
  }

  lemma HeldThrough(t: CloudTable, u: CloudTable, r: CloudRow)
    requires MailMatches(t, u) && Held(t, r)
    ensures Held(u, r)
  {
    var q :| q in t.rows && ButState(r, q);
    assert Held(u, q);
    var p :| p in u.rows && ButState(q, p);
    assert ButState(r, p);
  }

  lemma MailMatchesSelf(t: CloudTable)
    ensures MailMatches(t, t)
  {
    forall r | r in t.rows
      ensures Held(t, r)
    {
      HeldItself(t, r);
    }
  }

  lemma MailMatchesBack(t: CloudTable, u: CloudTable)
    requires MailMatches(t, u)
    ensures MailMatches(u, t)
  {
  }

  lemma MailMatchesJoins(t: CloudTable, u: CloudTable, v: CloudTable)
    requires MailMatches(t, u) && MailMatches(u, v)
    ensures MailMatches(t, v)
  {
    hide Held;
    forall r | r in t.rows
      ensures Held(v, r)
    {
      HeldThrough(u, v, r);
    }
    MailMatchesBack(t, u);
    forall r | r in v.rows
      ensures Held(t, r)
    {
      HeldThrough(u, t, r);
    }
  }

  lemma UpdateMailMatches(t: CloudTable, f: CloudRow -> CloudRow)
    requires forall r :: r in t.rows ==> ButState(r, f(r))
    ensures MailMatches(t, t.(rows := Map(t.rows, f)))
  {
    var u := t.(rows := Map(t.rows, f));
    forall r | r in t.rows
      ensures Held(u, r)
    {
      var i :| 0 <= i < |t.rows| && t.rows[i] == r;
      assert u.rows[i] in u.rows && ButState(r, u.rows[i]);
    }
    forall r | r in u.rows
      ensures Held(t, r)
    {
      var q := Restated(t.rows, f, r);
      assert ButState(r, q);
    }
  }

  lemma DeliverMatches(t: CloudTable, now: int)
    ensures MailMatches(t, CloudDeliver(t, now).0)
  {
    hide MailMatches;
    MailMatchesSelf(t);
    if CloudDeliver(t, now).1.Some? {
      UpdateMailMatches(t, Sends(CloudDeliver(t, now).1.value.seq_));
    }
  }

  lemma RequeueMatches(t: CloudTable)
    ensures MailMatches(t, CloudRequeue(t))
  {
    UpdateMailMatches(t, PutsBack());
  }

  // ---- the table an event leaves, but for states ----

  function MailBase(s: Cloud, e: Event): CloudTable
    requires Possible(s, e)
  {
    match e
    case Blocks(entries) => BlockKeys(s, entries).mailbox
    case AlarmEnds => CloudExpire(s.mailbox, s.running.value.began).0
    case SocketSpeaks(i, hostSays, says, _) =>
      if HostHeard(s, e) && hostSays.AckSaid? then CloudAck(s.mailbox, hostSays.number, AckOutcome(hostSays.ok, hostSays.code)).0
      else if DeviceHeard(s, e) && !s.socks[i].role.pair then
        (match says
         case PutSaid(msg) => CloudPut(s.mailbox, s.socks[i].role.dk, msg, HostReady(s), s.now).0
         case CancelSaid(nonce) => CloudCancel(s.mailbox, s.socks[i].role.dk, nonce).0
         case _ => s.mailbox)
      else s.mailbox
    case _ => s.mailbox
  }

  lemma BookkeepMail(s: Cloud, role: Role, at: int)
    ensures MailMatches(s.mailbox, Bookkeep(s, role, at).mailbox)
  {
    hide CloudRequeue, MailMatches;
    MailMatchesSelf(s.mailbox);
    RequeueMatches(s.mailbox);
  }

  lemma RetireMail(s: Cloud, i: nat, at: int)
    requires i < |s.socks|
    ensures MailMatches(s.mailbox, Retire(s, i, at).mailbox)
  {
    hide Bookkeep, MailMatches;
    var k := s.socks[i];
    BookkeepMail(s.(socks := s.socks[i := k.(role := Unready(k.role), retired := Some(at))]), k.role, at);
  }

  lemma {:induction false} RetireHostsMail(s: Cloud, n: nat)
    requires n <= |s.socks|
    ensures MailMatches(s.mailbox, RetireHosts(s, n).mailbox)
  {
    hide MailMatches, Retire;
    MailMatchesSelf(s.mailbox);
    if n > 0 {
      RetireHostsMail(s, n - 1);
      var t := RetireHosts(s, n - 1);
      RetireMail(t, n - 1, s.now);
      MailMatchesJoins(s.mailbox, t.mailbox, Retire(t, n - 1, s.now).mailbox);
    }
  }

  lemma AcceptHostMail(s: Cloud, kid: string, computer: string)
    ensures MailMatches(s.mailbox, AcceptHost(s, kid, computer).mailbox)
  {
    hide MailMatches, RetireHosts;
    MailMatchesSelf(s.mailbox);
    var owned := if s.owner.None? then s.(owner := Some((kid, computer))) else s;
    RetireHostsMail(owned, |s.socks|);
  }

  lemma HostFrameMail(s: Cloud, e: Event)
    requires Possible(s, e) && HostHeard(s, e)
    ensures MailMatches(MailBase(s, e), Next(s, e).mailbox)
  {
    hide MailMatches, OfferHook, AckHook, AckedHook, DropHooks, CloudDeliver, CloudAck, AckOutcome, Wait;
    MailMatchesSelf(MailBase(s, e));
    DeliverMatches(s.mailbox, s.now);
    DeliverMatches(MailBase(s, e), s.now);
  }

  lemma DeviceFrameMail(s: Cloud, e: Event)
    requires Possible(s, e) && e.SocketSpeaks? && !HostHeard(s, e)
    ensures MailBase(s, e) == Next(s, e).mailbox
  {
    hide CloudPut, CloudCancel, HostReady;
  }

  lemma OthersMail(s: Cloud, e: Event)
    requires Possible(s, e) && !e.SocketSpeaks?
    ensures MailMatches(MailBase(s, e), Next(s, e).mailbox)
  {
    hide MailMatches, AcceptHost, AcceptDevice, BlockKeys, Bookkeep, Retire, QueueHook, OfferHook, LapseHooks, HostReady, ListedNumbers,
      CloudExpire, NextAlarm, Busy, ShutOut, StillBlocked, NamedDevices, PairingOver;
    MailMatchesSelf(s.mailbox);
    MailMatchesSelf(MailBase(s, e));
    match e
    case HostConnects(kid, computer) => AcceptHostMail(s, kid, computer);
    case DeviceConnects(dk, offer) => DeviceAdded(s, dk, offer);
    case SocketCloses(i) =>
      var k := s.socks[i];
      BookkeepMail(s.(socks := s.socks[i := k.(listed := false, closing := true)]), k.role, s.now);
    case AlarmLooks(pong, awake) =>
      var t := s.(running := Some(Alarm(s.running.value.began, s.running.value.todo[1..])));
      RetireMail(t, s.running.value.todo[0], s.running.value.began);
    case _ =>
  }

  lemma NextMail(s: Cloud, e: Event)
    requires Possible(s, e)
    ensures MailMatches(MailBase(s, e), Next(s, e).mailbox)
  {
    hide MailMatches, Next, MailBase;
    if !e.SocketSpeaks? {
      OthersMail(s, e);
    } else if HostHeard(s, e) {
      HostFrameMail(s, e);
    } else {
      DeviceFrameMail(s, e);
      MailMatchesSelf(MailBase(s, e));
    }
  }

  // ---- what the base holds ----

  lemma FilterHolds(t: CloudTable, keep: CloudRow -> bool, r: CloudRow)
    requires MailOrdered(t) && r in t.rows
    ensures Held(t.(rows := Filter(t.rows, keep)), r) <==> keep(r)
  {
    if keep(r) {
      HeldItself(t.(rows := Filter(t.rows, keep)), r);
    } else if Held(t.(rows := Filter(t.rows, keep)), r) {
      var q :| q in Filter(t.rows, keep) && ButState(r, q);
      OrderedApart(t, q, r);
    }
  }

  lemma AckHolds(t: CloudTable, number: Option<int>, outcome: Outcome, r: CloudRow)
    requires MailOrdered(t) && r in t.rows
    ensures Held(CloudAck(t, number, outcome).0, r) <==> !(r.item.state.Delivering? && number == Some(r.seq_))
  {
    hide Held, MailOrdered, Filter;
    HeldItself(t, r);
    if number.Some? {
      if r.item.state.Delivering? && number.value == r.seq_ {
        assert MovingAs(number.value)(r);
      }
      var row := First(t.rows, MovingAs(number.value));
      if row.Some? {
        FilterHolds(t, Except(Numbered(number.value)), r);
        if row.value.seq_ == r.seq_ {
          OrderedApart(t, row.value, r);
        }
      }
    }
  }

  lemma CancelHolds(t: CloudTable, dk: string, field: Field, r: CloudRow)
    requires MailOrdered(t) && NoncesUnique(t) && r in t.rows
    ensures Held(CloudCancel(t, dk, field).0, r) <==> !(r.item.state.Queued? && r.item.dk == dk && r.item.nonce == CancelNonce(field))
  {
    hide Held, MailOrdered, Filter;
    HeldItself(t, r);
    var nonce := CancelNonce(field);
    var row := First(t.rows, OfNonce(dk, nonce));
    assert OfNonce(dk, nonce)(r) <==> r.item.dk == dk && r.item.nonce == nonce;
    if row.Some? {
      assert row.value in t.rows;
      if OfNonce(dk, nonce)(r) {
        assert SameNonce(row.value, r);
      }
      FilterHolds(t, Except(OfNonce(dk, nonce)), r);
    }
  }

  lemma PutHolds(t: CloudTable, dk: string, msg: PutMsg, hostReady: bool, now: int, r: CloudRow)
    requires r in t.rows
    ensures Held(CloudPut(t, dk, msg, hostReady, now).0, r)
  {
    hide Held, Screen, CloudHasRoom, First;
    assert r in CloudPut(t, dk, msg, hostReady, now).0.rows;
    HeldItself(CloudPut(t, dk, msg, hostReady, now).0, r);
  }

  lemma {:induction false} BlockHolds(s: Cloud, entries: seq<BlockEntry>, r: CloudRow)
    requires MailOrdered(s.mailbox) && r in s.mailbox.rows
    ensures
      var t := BlockKeys(s, entries).mailbox;
      && MailOrdered(t) && (forall q :: q in t.rows ==> q in s.mailbox.rows)
      && (r in t.rows <==> !(r.item.state.Queued? && exists b :: b in entries && Names(b, r.item.dk)))
    decreases |entries|
  {
    hide MailOrdered, Names, Decode;
    if entries != [] {
      var front, b := entries[..|entries| - 1], entries[|entries| - 1];
      BlockHolds(s, front, r);
      NamesKey(b, r.item.dk);
      assert entries == front + [b];
      var u := BlockKeys(s, front).mailbox;
      if IsKey(b.dk) {
        ForgetHolds(u, b.dk.text, r);
      }
    }
  }

  lemma ForgetHolds(t: CloudTable, dk: string, r: CloudRow)
    requires MailOrdered(t)
    ensures MailOrdered(CloudForget(t, dk)) && forall q :: q in CloudForget(t, dk).rows ==> q in t.rows
    ensures r in CloudForget(t, dk).rows <==> r in t.rows && !(r.item.state.Queued? && r.item.dk == dk)
  {
    FilterSerial(t.rows, Except(QueuedBy(dk)), CloudSeq(), t.last);
  }

  lemma InHolds(t: CloudTable, u: CloudTable, r: CloudRow)
    requires MailOrdered(t) && r in t.rows && forall q :: q in u.rows ==> q in t.rows
    ensures Held(u, r) <==> r in u.rows
  {
    if r in u.rows {
      HeldItself(u, r);
    } else if Held(u, r) {
      var q :| q in u.rows && ButState(r, q);
      OrderedApart(t, q, r);
    }
  }

  lemma BaseHolds(s: Cloud, e: Event, r: CloudRow)
    requires Possible(s, e) && MailOrdered(s.mailbox) && NoncesUnique(s.mailbox) && r in s.mailbox.rows
    ensures Held(MailBase(s, e), r) <==> !TakenOut(s, e, r)
  {
    hide Held, Next, MailOrdered, NoncesUnique, Filter, CloudAck, CloudCancel, CloudPut, BlockKeys, HostReady, AckOutcome, Names;
    HeldItself(s.mailbox, r);
    match e
    case Blocks(entries) =>
      BlockHolds(s, entries, r);
      InHolds(s.mailbox, BlockKeys(s, entries).mailbox, r);
    case AlarmEnds => FilterHolds(s.mailbox, Except(PastExpiry(s.running.value.began)), r);
    case SocketSpeaks(i, hostSays, says, _) =>
      if HostHeard(s, e) && hostSays.AckSaid? {
        AckHolds(s.mailbox, hostSays.number, AckOutcome(hostSays.ok, hostSays.code), r);
      } else if DeviceHeard(s, e) && !s.socks[i].role.pair {
        if says.PutSaid? {
          PutHolds(s.mailbox, s.socks[i].role.dk, says.msg, HostReady(s), s.now, r);
        } else if says.CancelSaid? {
          CancelHolds(s.mailbox, s.socks[i].role.dk, says.nonce, r);
        }
      }
    case _ =>
  }

  /**
   * A held item leaves exactly when the host acknowledges it in flight, its device withdraws it queued, a block names
   * its device while it is queued, or an alarm that began after it ran out ends; every other event, a host that leaves
   * included, keeps it.
   */
  lemma ItemLeavesExactly(s: Cloud, e: Event, r: CloudRow)
    requires Reachable(s) && Possible(s, e) && r in s.mailbox.rows
    ensures Held(Next(s, e).mailbox, r) <==> !TakenOut(s, e, r)
  {
    hide Reachable, Next, MailBase, Held, TakenOut, CloudAlarms.CloudInv;
    ReachableInv(s);
    FlightIsOrdered(s);
    BaseHolds(s, e, r);
    NextMail(s, e);
    if Held(MailBase(s, e), r) {
      HeldThrough(MailBase(s, e), Next(s, e).mailbox, r);
    }
    if Held(Next(s, e).mailbox, r) {
      MailMatchesBack(MailBase(s, e), Next(s, e).mailbox);
      HeldThrough(Next(s, e).mailbox, MailBase(s, e), r);
    }
  }

  lemma FlightIsOrdered(s: Cloud)
    requires FlightInv(s)
    ensures MailOrdered(s.mailbox) && NoncesUnique(s.mailbox)
  {
  }

  // ---- what comes ----

  /** 50 items a device, 500 a computer and 8 MiB a computer are not exceeded by one more of the size. */
  predicate CloudRoomy(t: CloudTable, dk: string, size: nat) {
    && |Filter(t.rows, (r: CloudRow) => r.item.dk == dk)| + 1 <= 50
    && |t.rows| + 1 <= 500 && Sum(t.rows, (r: CloudRow) => |r.item.blob|) + size <= 8 * 1024 * 1024
  }

  /** The put is in order, and there is room for it. */
  predicate Acceptable(t: CloudTable, dk: string, msg: PutMsg, hostReady: bool, now: int, blob: seq<byte>, exp: int) {
    && GoodNonce(msg.nonce) && (forall r :: r in t.rows && r.item.dk == dk ==> r.item.nonce != msg.nonce.text) && !hostReady
    && Carries(msg.d, blob) && Until(msg.exp, now, exp) && CloudRoomy(t, dk, |blob|)
  }

  lemma CloudScreenFits(msg: PutMsg, now: int, blob: seq<byte>, exp: int)
    ensures Screen(msg, now, CLOUD_MAX_TEXT) == Fits(blob, exp) <==> Carries(msg.d, blob) && Until(msg.exp, now, exp)
  {
    if msg.d.Text? {
      DecodesExactlyEncodings(msg.d.text, blob);
      if Decode(msg.d.text, None) == Some(blob) {
        LengthChecks(msg.d.text, blob);
      }
    }
  }

  lemma NonceIsNew(t: CloudTable, dk: string, nonce: string)
    ensures First(t.rows, OfNonce(dk, nonce)).None? <==> forall r :: r in t.rows && r.item.dk == dk ==> r.item.nonce != nonce
  {
    var found := First(t.rows, OfNonce(dk, nonce));
    if found.None? {
      forall r | r in t.rows && r.item.dk == dk
        ensures r.item.nonce != nonce
      {
        assert !OfNonce(dk, nonce)(r);
      }
    }
  }

  lemma RoomIsRoomy(t: CloudTable, dk: string, size: nat)
    ensures CloudHasRoom(t, dk, size) <==> CloudRoomy(t, dk, size)
  {
    FilterSame(t.rows, OfKey(dk), (r: CloudRow) => r.item.dk == dk);
    SumSame(t.rows, CloudSize(), (r: CloudRow) => |r.item.blob|);
  }

  lemma PutAcceptsExactly(t: CloudTable, dk: string, msg: PutMsg, hostReady: bool, now: int, q: CloudRow)
    requires MailOrdered(t)
    ensures
      var u := CloudPut(t, dk, msg, hostReady, now).0;
      q in u.rows && q !in t.rows <==>
        && Acceptable(t, dk, msg, hostReady, now, q.item.blob, q.item.exp)
        && q == CloudRow(t.last + 1, Item(dk, msg.nonce.text, q.item.blob, q.item.exp, Queued))
  {
    hide Screen, Carries, Until, CloudHasRoom, CloudRoomy, First;
    var screened := Screen(msg, now, CLOUD_MAX_TEXT);
    CloudScreenFits(msg, now, q.item.blob, q.item.exp);
    RoomIsRoomy(t, dk, |q.item.blob|);
    if msg.nonce.Text? {
      NonceIsNew(t, dk, msg.nonce.text);
    }
    if screened.Fits? {
      CloudScreenFits(msg, now, screened.blob, screened.exp);
    }
  }

  /** The event puts this very item in the mailbox. */
  ghost predicate PutsItem(s: Cloud, e: Event, q: CloudRow)
    requires Possible(s, e)
  {
    && DeviceHeard(s, e) && !s.socks[e.i].role.pair && e.says.PutSaid?
    && Acceptable(s.mailbox, s.socks[e.i].role.dk, e.says.msg, HostThere(s), s.now, q.item.blob, q.item.exp)
    && q == CloudRow(s.mailbox.last + 1, Item(s.socks[e.i].role.dk, e.says.msg.nonce.text, q.item.blob, q.item.exp, Queued))
  }

  lemma BaseComesFrom(s: Cloud, e: Event, q: CloudRow)
    requires Possible(s, e) && MailOrdered(s.mailbox)
    ensures q in MailBase(s, e).rows && q !in s.mailbox.rows <==> PutsItem(s, e, q)
  {
    hide MailOrdered, HostReady, HostThere, AckOutcome, Names, CloudPut, Acceptable, First;
    HostThereIs(s);
    if e.Blocks? {
      BlockStems(s, e.entries);
    } else if e.SocketSpeaks? && DeviceHeard(s, e) && !s.socks[e.i].role.pair && e.says.PutSaid? {
      PutAcceptsExactly(s.mailbox, s.socks[e.i].role.dk, e.says.msg, HostReady(s), s.now, q);
    }
  }

  lemma {:induction false} BlockStems(s: Cloud, entries: seq<BlockEntry>)
    ensures forall q :: q in BlockKeys(s, entries).mailbox.rows ==> q in s.mailbox.rows
    decreases |entries|
  {
    hide IsKey;
    if entries != [] {
      BlockStems(s, entries[..|entries| - 1]);
    }
  }

  /**
   * An item enters the mailbox exactly when a connected device, not one for pairing, puts it in order, no host is ready
   * and the quotas allow it; it enters queued, as the newest.
   */
  lemma ItemEntersExactly(s: Cloud, e: Event, q: CloudRow)
    requires Reachable(s) && Possible(s, e)
    ensures PutsItem(s, e, q) ==> Held(Next(s, e).mailbox, q)
    ensures q in Next(s, e).mailbox.rows && !Held(s.mailbox, q) ==> PutsItem(s, e, MailState(q, Queued))
  {
    hide Reachable, Next, MailBase, Held, PutsItem, CloudAlarms.CloudInv;
    ReachableInv(s);
    FlightIsOrdered(s);
    NextMail(s, e);
    BaseComesFrom(s, e, q);
    if PutsItem(s, e, q) {
      HeldItself(MailBase(s, e), q);
      HeldThrough(MailBase(s, e), Next(s, e).mailbox, q);
    }
    if q in Next(s, e).mailbox.rows && !Held(s.mailbox, q) {
      MailMatchesBack(MailBase(s, e), Next(s, e).mailbox);
      HeldItself(Next(s, e).mailbox, q);
      HeldThrough(Next(s, e).mailbox, MailBase(s, e), q);
      NewInBase(s, e, q);
    }
  }

  lemma NewInBase(s: Cloud, e: Event, q: CloudRow)
    requires Possible(s, e) && MailOrdered(s.mailbox) && Held(MailBase(s, e), q) && !Held(s.mailbox, q)
    ensures PutsItem(s, e, MailState(q, Queued))
  {
    hide MailBase, MailOrdered, Acceptable, HostThere;
    var p :| p in MailBase(s, e).rows && ButState(q, p);
    assert p in s.mailbox.rows ==> Held(s.mailbox, q);
    BaseComesFrom(s, e, p);
    assert p == MailState(q, Queued);
  }

  // ---- what the host is sent ----

  /** The item is queued and has not expired. */
  predicate IsDue(r: CloudRow, now: int) { r.item.state.Queued? && r.item.exp > now }

  lemma DeliversOldest(t: CloudTable, now: int, r: CloudRow)
    requires MailOrdered(t)
    ensures CloudDeliver(t, now).1 == Some(r) <==>
      && r in t.rows && IsDue(r, now)
      && (forall q :: q in t.rows ==> q.item.state.Queued?)
      && (forall q :: q in t.rows && IsDue(q, now) ==> r.seq_ <= q.seq_)
  {
    var moving := First(t.rows, Moving());
    var found := First(t.rows, Due(now));
    assert moving.None? <==> forall q :: q in t.rows ==> q.item.state.Queued? by {
      if moving.None? {
        forall q | q in t.rows
          ensures q.item.state.Queued?
        {
          assert !Moving()(q);
        }
      }
    }
    forall q | q in t.rows && IsDue(q, now)
      ensures found.Some? && found.value.seq_ <= q.seq_
    {
      FirstIsLeast(t.rows, Due(now), CloudSeq(), q);
    }
    if found.Some? && r in t.rows && found.value.seq_ == r.seq_ {
      OrderedApart(t, r, found.value);
    }
  }

  /** The event has the host's next item delivered: it becomes ready with a list stored, or acknowledges while ready. */
  predicate Collects(s: Cloud, e: Event)
    requires Possible(s, e)
  {
    HostHeard(s, e) &&
      ((e.hostSays.ReadySaid? && !s.socks[e.i].role.ready && s.acl.Some?) || (e.hostSays.AckSaid? && s.socks[e.i].role.ready))
  }

  /** The item is held, and the event does not acknowledge it. */
  predicate Remains(s: Cloud, e: Event, r: CloudRow)
    requires Possible(s, e)
  {
    r in s.mailbox.rows && !Acknowledges(s, e, r)
  }

  lemma HandedRemains(s: Cloud, e: Event, q: CloudRow)
    requires Possible(s, e) && MailOrdered(s.mailbox)
    ensures Handed(s, e).Some? <==> Collects(s, e)
    ensures Handed(s, e).Some? ==> (q in Handed(s, e).value.rows <==> Remains(s, e, q))
  {
    hide MailOrdered, AckOutcome;
    if e.SocketSpeaks? && HostHeard(s, e) && e.hostSays.AckSaid? {
      AckRemains(s.mailbox, e.hostSays.number, AckOutcome(e.hostSays.ok, e.hostSays.code), q);
    }
  }

  lemma AckRemains(t: CloudTable, number: Option<int>, outcome: Outcome, q: CloudRow)
    requires MailOrdered(t)
    ensures q in CloudAck(t, number, outcome).0.rows <==> q in t.rows && !(q.item.state.Delivering? && number == Some(q.seq_))
  {
    hide MailOrdered;
    if number.Some? {
      var row := First(t.rows, MovingAs(number.value));
      if q in t.rows && q.seq_ == number.value {
        assert q.item.state.Delivering? ==> MovingAs(number.value)(q);
        if row.Some? {
          OrderedApart(t, row.value, q);
        }
      }
    }
  }

  /**
   * The host is sent an item exactly when it becomes ready, or acknowledges while ready, and an item that it has not just
   * acknowledged is due and none is in flight: the oldest that is due.
   */
  lemma ItemSentExactly(s: Cloud, e: Event, r: CloudRow)
    requires Reachable(s) && Possible(s, e)
    ensures Sent(s, e) == Some(r) <==>
      && Collects(s, e) && Remains(s, e, r) && IsDue(r, s.now)
      && (forall q :: Remains(s, e, q) ==> q.item.state.Queued?)
      && (forall q :: Remains(s, e, q) && IsDue(q, s.now) ==> r.seq_ <= q.seq_)
  {
    hide Reachable, Next, Handed, CloudDeliver, Collects, Remains, IsDue, CloudAlarms.CloudInv, MailOrdered;
    ReachableInv(s);
    FlightIsOrdered(s);
    HandedRemains(s, e, r);
    if Handed(s, e).Some? {
      HandedOrdered(s, e);
      forall q
        ensures q in Handed(s, e).value.rows <==> Remains(s, e, q)
      {
        HandedRemains(s, e, q);
      }
      DeliversOldest(Handed(s, e).value, s.now, r);
    }
  }

  // ---- what devices are told ----

  /** The note a host's frame makes. */
  function HostNotes(t: CloudTable, says: HostSays): seq<Note> {
    if !says.AckSaid? then []
    else
      var note := CloudAck(t, says.number, AckOutcome(says.ok, says.code)).1;
      if note.Some? then [note.value] else []
  }

  /** The notes the event makes, in order. */
  function Noted(s: Cloud, e: Event): seq<Note>
    requires Possible(s, e)
  {
    if e.AlarmEnds? then CloudExpire(s.mailbox, s.running.value.began).1
    else if HostHeard(s, e) then HostNotes(s.mailbox, e.hostSays)
    else []
  }

  /** What a socket is told of them: a device's that is connected and not there for pairing, those about its own items. */
  function Told(s: Cloud, e: Event, i: nat): seq<Note>
    requires Possible(s, e) && i < |s.socks|
  {
    var k := s.socks[i];
    if Connected(k) && !k.role.pair then Filter(Noted(s, e), (n: Note) => n.dk == k.role.dk) else []
  }

  /**
   * Acknowledging an item in flight tells each of its device's connected sockets what became of it, once, and no other
   * socket: delivered exactly when the host said so, else the reason the host gave if it is a known one.
   */
  lemma AckIsTold(s: Cloud, e: Event, r: CloudRow, i: nat) returns (outcome: Outcome)
    requires Reachable(s) && Possible(s, e) && r in s.mailbox.rows && Acknowledges(s, e, r) && i < |s.socks|
    ensures Tells(outcome, e.hostSays.ok, e.hostSays.code)
    ensures
      var k := s.socks[i];
      Told(s, e, i) == if Connected(k) && !k.role.pair && k.role.dk == r.item.dk then [Note(r.item.dk, r.item.nonce, outcome)] else []
  {
    hide Reachable, Next, CloudAlarms.CloudInv, AckOutcome, Tells, Filter, CloudAck, MailOrdered;
    ReachableInv(s);
    FlightIsOrdered(s);
    outcome := AckOutcome(e.hostSays.ok, e.hostSays.code);
    OutcomeTells(e.hostSays.ok, e.hostSays.code);
    AckFindsItem(s.mailbox, r, outcome);
    OneNote(Note(r.item.dk, r.item.nonce, outcome), if s.socks[i].role.AsDevice? then s.socks[i].role.dk else "");
  }

  lemma OneNote(note: Note, dk: string)
    ensures Filter([note], (n: Note) => n.dk == dk) == if note.dk == dk then [note] else []
  {
    assert [note] == [] + [note];
    FilterAppend([], note, (n: Note) => n.dk == dk);
  }

  lemma AckFindsItem(t: CloudTable, r: CloudRow, outcome: Outcome)
    requires MailOrdered(t) && r in t.rows && r.item.state.Delivering?
    ensures CloudAck(t, Some(r.seq_), outcome).1 == Some(Note(r.item.dk, r.item.nonce, outcome))
  {
    FirstIsLeast(t.rows, MovingAs(r.seq_), CloudSeq(), r);
  }

  /** Between alarms, devices hear of no item but one that the host acknowledges. */
  lemma NoOtherNote(s: Cloud, e: Event, i: nat)
    requires Possible(s, e) && i < |s.socks| && !e.AlarmEnds? && forall r :: r in s.mailbox.rows ==> !Acknowledges(s, e, r)
    ensures Told(s, e, i) == []
  {
    hide AckOutcome;
    if HostHeard(s, e) && e.hostSays.AckSaid? && e.hostSays.number.Some? {
      forall r | r in s.mailbox.rows
        ensures !MovingAs(e.hostSays.number.value)(r)
      {
        assert !Acknowledges(s, e, r);
      }
    }
  }

  /** The end of an alarm tells each connected device, not one for pairing, of each of its items that has run out, in order. */
  lemma ExpiryIsTold(s: Cloud, i: nat)
    requires Possible(s, AlarmEnds) && i < |s.socks|
    ensures
      var k, began := s.socks[i], s.running.value.began;
      Told(s, AlarmEnds, i) ==
        if Connected(k) && !k.role.pair then
          Map(Filter(s.mailbox.rows, (r: CloudRow) => r.item.dk == k.role.dk && r.item.exp <= began), (r: CloudRow) => Note(r.item.dk, r.item.nonce, ExpiredItem))
        else []
  {
    var k, began := s.socks[i], s.running.value.began;
    if Connected(k) && !k.role.pair {
      var note, mine := (r: CloudRow) => Note(r.item.dk, r.item.nonce, ExpiredItem), (r: CloudRow) => r.item.dk == k.role.dk;
      var expired := Filter(s.mailbox.rows, PastExpiry(began));
      var both := (r: CloudRow) => r.item.dk == k.role.dk && r.item.exp <= began;
      FilterThrough(expired, note, mine, (n: Note) => n.dk == k.role.dk);
      FilterTwice(s.mailbox.rows, PastExpiry(began), mine, both);
    }
  }
}
