/** What each event of the cloud relay does to the mailbox: what is put, what goes back, and what the host is sent. */
module CloudMail {
  import opened Wrappers
  import opened Sequences
  import opened Base64Url
  import opened Acls
  import opened MailboxItems
  import opened CloudMailbox
  import opened Hookbox
  import opened CloudState
  import opened CloudInvariants
  import opened CloudInFlight

  /** The row was held before, in whatever state. */
  ghost predicate Held(t: CloudTable, r: CloudRow) {
    exists q :: q in t.rows && ButState(r, q)
  }

  /** Rows are as they were, put back in the queue, or gone. */
  ghost predicate Settles(t: CloudTable, u: CloudTable) {
    u.last == t.last && forall r :: r in u.rows ==> Settled(t, r)
  }

  ghost predicate Settled(t: CloudTable, r: CloudRow) { r in t.rows || (r.item.state.Queued? && Held(t, r)) }

  lemma HeldItself(t: CloudTable, r: CloudRow)
    requires r in t.rows
    ensures Held(t, r)
  {
    assert ButState(r, r);
  }

  lemma SettledIsHeld(t: CloudTable, r: CloudRow)
    requires Settled(t, r)
    ensures Held(t, r)
  {
    if r in t.rows {
      HeldItself(t, r);
    }
  }

  lemma SettlesSelf(t: CloudTable)
    ensures Settles(t, t)
  {
  }

  lemma FewerSettles(t: CloudTable, u: CloudTable)
    requires u.last == t.last && forall r :: r in u.rows ==> r in t.rows
    ensures Settles(t, u)
  {
  }

  lemma RequeueSettles(t: CloudTable)
    ensures Settles(t, CloudRequeue(t))
  {
    forall r | r in CloudRequeue(t).rows
      ensures Settled(t, r)
    {
      var q := Restated(t.rows, PutsBack(), r);
      assert ButState(r, q);
    }
  }

  lemma SettlesJoins(t: CloudTable, u: CloudTable, v: CloudTable)
    requires Settles(t, u) && Settles(u, v)
    ensures Settles(t, v)
  {
    forall r | r in v.rows
      ensures Settled(t, r)
    {
      assert Settled(u, r);
      if r !in u.rows {
        var q :| q in u.rows && ButState(r, q);
        assert Settled(t, q);
        SettledIsHeld(t, q);
        var p :| p in t.rows && ButState(q, p);
        assert ButState(r, p);
      }
    }
  }

  // ---- what the host is sent ----

  /** The mailbox that `deliverNext` reads, when the host's frame comes to it. */
  function HostHanded(s: Cloud, i: nat, says: HostSays): Option<CloudTable>
    requires i < |s.socks| && s.socks[i].role.AsHost?
  {
    match says
    case ReadySaid => if s.socks[i].role.ready || s.acl.None? then None else Some(s.mailbox)
    case AckSaid(number, ok, code) => if IsReady(s, i) then Some(CloudAck(s.mailbox, number, AckOutcome(ok, code)).0) else None
    case _ => None
  }

  function Handed(s: Cloud, e: Event): Option<CloudTable>
    requires Possible(s, e)
  {
    if !e.SocketSpeaks? || s.socks[e.i].retired.Some? || !s.socks[e.i].role.AsHost? then None
    else HostHanded(s, e.i, e.hostSays)
  }

  function FirstOut(t: Option<CloudTable>, now: int): Option<CloudRow> { if t.Some? then CloudDeliver(t.value, now).1 else None }

  /** The item the event sends to a host. */
  function Sent(s: Cloud, e: Event): Option<CloudRow>
    requires Possible(s, e)
  {
    FirstOut(Handed(s, e), s.now)
  }

  // ---- what a device puts ----

  /** A socket that can put mail of the key: one of its devices', not pairing, that the relay has not let go of. */
  predicate CanPut(k: Sock, dk: string) { IsDevice(k) && !k.role.pair && k.role.dk == dk }

  /** The event is a put that added the row. */
  predicate Puts(s: Cloud, e: Event, r: CloudRow) {
    && e.SocketSpeaks? && e.i < |s.socks| && CanPut(s.socks[e.i], r.item.dk) && e.says.PutSaid?
    && Possible(s, e) && Next(s, e).mailbox == CloudTable(s.mailbox.rows + [r], s.mailbox.last + 1)
    && r.seq_ == s.mailbox.last + 1 && r.item.state.Queued?
  }

  // ---- every event ----

  lemma BookkeepSettles(s: Cloud, role: Role, at: int)
    ensures Settles(s.mailbox, Bookkeep(s, role, at).mailbox)
  {
    hide CloudRequeue, Settles;
    SettlesSelf(s.mailbox);
    RequeueSettles(s.mailbox);
  }

  lemma RetireSettles(s: Cloud, i: nat, at: int)
    requires i < |s.socks|
    ensures Settles(s.mailbox, Retire(s, i, at).mailbox)
  {
    hide Bookkeep, Settles;
    var k := s.socks[i];
    BookkeepSettles(s.(socks := s.socks[i := k.(role := Unready(k.role), retired := Some(at))]), k.role, at);
  }

  lemma {:induction false} RetireHostsSettles(s: Cloud, n: nat)
    requires n <= |s.socks|
    ensures Settles(s.mailbox, RetireHosts(s, n).mailbox)
  {
    hide Settles, Retire;
    if n == 0 {
      SettlesSelf(s.mailbox);
    } else {
      RetireHostsSettles(s, n - 1);
      var t := RetireHosts(s, n - 1);
      RetireSettles(t, n - 1, s.now);
      SettlesJoins(s.mailbox, t.mailbox, Retire(t, n - 1, s.now).mailbox);
    }
  }

  lemma AcceptHostSettles(s: Cloud, kid: string, computer: string)
    ensures Settles(s.mailbox, AcceptHost(s, kid, computer).mailbox)
  {
    hide Settles, RetireHosts;
    SettlesSelf(s.mailbox);
    var owned := if s.owner.None? then s.(owner := Some((kid, computer))) else s;
    RetireHostsSettles(owned, |s.socks|);
  }

  lemma {:induction false} BlockKeysSettles(s: Cloud, entries: seq<BlockEntry>)
    ensures Settles(s.mailbox, BlockKeys(s, entries).mailbox)
    decreases |entries|
  {
    hide Settles, Decode;
    SettlesSelf(s.mailbox);
    if entries != [] {
      var t, e := BlockKeys(s, entries[..|entries| - 1]), entries[|entries| - 1];
      BlockKeysSettles(s, entries[..|entries| - 1]);
      if IsKey(e.dk) {
        FewerSettles(t.mailbox, CloudForget(t.mailbox, e.dk.text));
        SettlesJoins(s.mailbox, t.mailbox, CloudForget(t.mailbox, e.dk.text));
      }
    }
  }

  lemma AlarmEndsSettles(s: Cloud)
    requires s.running.Some?
    ensures AlarmFinishes(s).mailbox == CloudExpire(s.mailbox, s.running.value.began).0
    ensures Settles(s.mailbox, AlarmFinishes(s).mailbox)
  {
    hide OfferHook, PairingOver, NextAlarm, Busy, HostReady, Settles;
    FewerSettles(s.mailbox, CloudExpire(s.mailbox, s.running.value.began).0);
  }

  lemma SilentSettles(s: Cloud, e: Event)
    requires Possible(s, e) && !e.SocketSpeaks?
    ensures Settles(s.mailbox, Next(s, e).mailbox)
  {
    hide Settles, AcceptHost, BlockKeys, AlarmFinishes, Bookkeep, QueueHook, OfferHook, HostReady, ListedNumbers, Filter, GoodOffer,
      Lists, NamedDevices, ShutOut, StillBlocked;
    SettlesSelf(s.mailbox);
    match e
    case HostConnects(kid, computer) => AcceptHostSettles(s, kid, computer);
    case Blocks(entries) => BlockKeysSettles(s, entries);
    case SocketCloses(i) =>
      var k := s.socks[i];
      BookkeepSettles(s.(socks := s.socks[i := k.(listed := false, closing := true)]), k.role, s.now);
    case AlarmLooks(pong, awake) =>
      var t := s.(running := Some(Alarm(s.running.value.began, s.running.value.todo[1..])));
      RetireSettles(t, s.running.value.todo[0], s.running.value.began);
    case AlarmEnds => AlarmEndsSettles(s);
    case _ =>
  }

  lemma AckSettles(t: CloudTable, number: Option<int>, outcome: Outcome)
    ensures Settles(t, CloudAck(t, number, outcome).0)
  {
    FewerSettles(t, CloudAck(t, number, outcome).0);
  }

  lemma CancelSettles(t: CloudTable, dk: string, nonce: Field)
    ensures Settles(t, CloudCancel(t, dk, nonce).0)
  {
    FewerSettles(t, CloudCancel(t, dk, nonce).0);
  }

  /** A host's frame: what it is sent, if anything, goes in flight. */
  lemma HostFrameMoves(s: Cloud, e: Event)
    requires Possible(s, e) && e.SocketSpeaks? && s.socks[e.i].retired.None? && s.socks[e.i].role.AsHost?
    ensures Handed(s, e).None? ==> Settles(s.mailbox, Next(s, e).mailbox)
    ensures Handed(s, e).Some? ==>
      Settles(s.mailbox, Handed(s, e).value) && Next(s, e).mailbox == CloudDeliver(Handed(s, e).value, s.now).0
  {
    hide Settles, CloudAck, CloudDeliver, OfferHook, AckHook, AckedHook, DropHooks, Wait;
    SettlesSelf(s.mailbox);
    if e.hostSays.AckSaid? {
      AckSettles(s.mailbox, e.hostSays.number, AckOutcome(e.hostSays.ok, e.hostSays.code));
    }
  }

  /** A device's frame puts a row, or takes one. */
  lemma DeviceFrameMoves(s: Cloud, e: Event)
    requires Possible(s, e) && e.SocketSpeaks? && s.socks[e.i].retired.None? && s.socks[e.i].role.AsDevice?
    ensures Settles(s.mailbox, Next(s, e).mailbox) || exists r :: Puts(s, e, r)
  {
    hide Settles, CloudCancel, HostReady, Screen, CloudHasRoom, First;
    SettlesSelf(s.mailbox);
    var k := s.socks[e.i];
    if e.says.CancelSaid? {
      CancelSettles(s.mailbox, k.role.dk, e.says.nonce);
    } else if e.says.PutSaid? && Next(s, e).mailbox != s.mailbox {
      assert Puts(s, e, Next(s, e).mailbox.rows[|s.mailbox.rows|]);
    }
  }

  lemma RetiredFrameSettles(s: Cloud, e: Event)
    requires Possible(s, e) && e.SocketSpeaks? && s.socks[e.i].retired.Some?
    ensures Next(s, e).mailbox == s.mailbox
  {
  }

  lemma HandedOrdered(s: Cloud, e: Event)
    requires MailOrdered(s.mailbox) && Possible(s, e) && Handed(s, e).Some?
    ensures MailOrdered(Handed(s, e).value)
  {
    hide First;
    if e.hostSays.AckSaid? && e.hostSays.number.Some? {
      FilterSerial(s.mailbox.rows, Except(Numbered(e.hostSays.number.value)), CloudSeq(), s.mailbox.last);
    }
  }

  lemma DeliveredMoves(t: CloudTable, now: int, r: CloudRow)
    requires MailOrdered(t) && r in CloudDeliver(t, now).0.rows
    ensures r in t.rows || (CloudDeliver(t, now).1.Some? && r == MailState(CloudDeliver(t, now).1.value, Delivering))
  {
    var sent := CloudDeliver(t, now).1;
    if sent.Some? {
      var q := Restated(t.rows, Sends(sent.value.seq_), r);
      if q.seq_ == sent.value.seq_ {
        KeysTellApart(t.rows, CloudSeq(), q, sent.value);
      }
    }
  }

  /** What is in the mailbox after an event was there before, was put by the event, or is what it sent. */
  lemma MailMoves(s: Cloud, e: Event, r: CloudRow)
    requires MailOrdered(s.mailbox) && Possible(s, e) && r in Next(s, e).mailbox.rows
    ensures Settled(s.mailbox, r) || Puts(s, e, r) || (Sent(s, e).Some? && r == MailState(Sent(s, e).value, Delivering))
  {
    hide Settled, Next, MailOrdered, CloudDeliver, Puts, Handed;
    if !e.SocketSpeaks? {
      SilentSettles(s, e);
    } else if s.socks[e.i].retired.Some? {
      RetiredFrameSettles(s, e);
      SettlesSelf(s.mailbox);
    } else if s.socks[e.i].role.AsHost? {
      HostFrameMoves(s, e);
      if Handed(s, e).Some? {
        HandedOrdered(s, e);
        DeliveredMoves(Handed(s, e).value, s.now, r);
      }
    } else {
      DeviceFrameMoves(s, e);
      if !Settles(s.mailbox, Next(s, e).mailbox) {
        var q :| Puts(s, e, q);
        PutIsLast(s, e, q, r);
      }
    }
  }

  lemma PutIsLast(s: Cloud, e: Event, q: CloudRow, r: CloudRow)
    requires Puts(s, e, q) && r in Next(s, e).mailbox.rows
    ensures r == q || Settled(s.mailbox, r)
  {
    hide Next;
  }

  /** What is sent was queued and unexpired, and is in flight afterwards. */
  lemma SentGoesInFlight(s: Cloud, e: Event)
    requires Possible(s, e) && Sent(s, e).Some?
    ensures
      var r := Sent(s, e).value;
      && r in s.mailbox.rows && r.item.state.Queued? && r.item.exp > s.now
      && MailState(r, Delivering) in Next(s, e).mailbox.rows
  {
    hide Settles, Next, CloudDeliver, Handed;
    var t := Handed(s, e).value;
    HandedHeld(s, e);
    SpokenByHost(s, e);
    HostFrameMoves(s, e);
    DeliveredRow(t, s.now);
  }

  lemma HandedHeld(s: Cloud, e: Event)
    requires Possible(s, e) && Handed(s, e).Some?
    ensures forall r :: r in Handed(s, e).value.rows ==> r in s.mailbox.rows
  {
    hide First;
  }

  lemma SpokenByHost(s: Cloud, e: Event)
    requires Possible(s, e) && Handed(s, e).Some?
    ensures e.SocketSpeaks? && s.socks[e.i].retired.None? && s.socks[e.i].role.AsHost?
  {
  }

  lemma DeliveredRow(t: CloudTable, now: int)
    requires CloudDeliver(t, now).1.Some?
    ensures
      var r := CloudDeliver(t, now).1.value;
      r in t.rows && r.item.state.Queued? && r.item.exp > now && MailState(r, Delivering) in CloudDeliver(t, now).0.rows
  {
    var r := CloudDeliver(t, now).1.value;
    var i :| 0 <= i < |t.rows| && t.rows[i] == r;
    assert CloudDeliver(t, now).0.rows[i] == MailState(r, Delivering);
  }

  /** `Sent` misses nothing: an item goes in flight exactly when the event sends it. */
  lemma SentExactly(s: Cloud, e: Event, r: CloudRow)
    requires MailOrdered(s.mailbox) && Possible(s, e) && r.item.state.Queued?
    ensures Sent(s, e) == Some(r) <==>
      MailState(r, Delivering) in Next(s, e).mailbox.rows && MailState(r, Delivering) !in s.mailbox.rows
  {
    hide Next, Sent, MailOrdered;
    var moved := MailState(r, Delivering);
    if Sent(s, e) == Some(r) {
      SentGoesInFlight(s, e);
      if moved in s.mailbox.rows {
        OrderedApart(s.mailbox, r, moved);
      }
    } else if moved in Next(s, e).mailbox.rows {
      MailMoves(s, e, moved);
      SentGoes(s, e);
      assert MailState(moved, Queued) == r;
    }
  }

  lemma SentGoes(s: Cloud, e: Event)
    requires Possible(s, e)
    ensures Sent(s, e).Some? ==> MailState(MailState(Sent(s, e).value, Delivering), Queued) == Sent(s, e).value
  {
    hide Next;
    if Sent(s, e).Some? {
      SentGoesInFlight(s, e);
    }
  }

  lemma OrderedApart(t: CloudTable, r: CloudRow, q: CloudRow)
    requires MailOrdered(t) && r in t.rows && q in t.rows && r.seq_ == q.seq_
    ensures r == q
  {
    KeysTellApart(t.rows, CloudSeq(), r, q);
  }

  // ---- the item in flight is the first ----

  ghost predicate Behind(r: CloudRow, q: CloudRow, now: int) {
    r.item.state.Delivering? && q.seq_ < r.seq_ ==> q.item.exp <= now
  }

  /** Nothing unexpired is held before the item in flight. */
  ghost predicate Foremost(t: CloudTable, now: int) {
    forall r, q {:trigger Behind(r, q, now)} :: r in t.rows && q in t.rows ==> Behind(r, q, now)
  }

  lemma DeliveredForemost(t: CloudTable, now: int, q: CloudRow)
    requires MailOrdered(t) && CloudDeliver(t, now).1.Some? && q in CloudDeliver(t, now).0.rows
    ensures Behind(MailState(CloudDeliver(t, now).1.value, Delivering), q, now)
  {
    var sent := CloudDeliver(t, now).1.value;
    var p := Restated(t.rows, Sends(sent.seq_), q);
    assert !Moving()(p);
    if Due(now)(p) {
      FirstIsLeast(t.rows, Due(now), CloudSeq(), p);
    }
  }

  lemma SentForemost(s: Cloud, e: Event, q: CloudRow)
    requires MailOrdered(s.mailbox) && Possible(s, e) && Sent(s, e).Some? && q in Next(s, e).mailbox.rows
    ensures Behind(MailState(Sent(s, e).value, Delivering), q, s.now)
  {
    hide Next, MailOrdered, Settles, Behind, Handed, CloudDeliver;
    SpokenByHost(s, e);
    HostFrameMoves(s, e);
    HandedOrdered(s, e);
    DeliveredForemost(Handed(s, e).value, s.now, q);
  }

  /** A row was held before, or has a new number. */
  lemma HeldOrNew(s: Cloud, e: Event, q: CloudRow)
    requires MailOrdered(s.mailbox) && Possible(s, e) && q in Next(s, e).mailbox.rows
    ensures Held(s.mailbox, q) || Puts(s, e, q)
  {
    hide Next, MailOrdered, Settled, Sent, Puts, Held;
    MailMoves(s, e, q);
    if Settled(s.mailbox, q) {
      SettledIsHeld(s.mailbox, q);
    } else if !Puts(s, e, q) {
      SentGoesInFlight(s, e);
      HeldInOtherState(s.mailbox, Sent(s, e).value, Delivering);
    }
  }

  lemma HeldInOtherState(t: CloudTable, r: CloudRow, state: State)
    requires r in t.rows
    ensures Held(t, MailState(r, state))
  {
    assert ButState(MailState(r, state), r);
  }

  lemma NextForemost(s: Cloud, e: Event)
    requires MailOrdered(s.mailbox) && Foremost(s.mailbox, s.now) && Possible(s, e)
    ensures Foremost(Next(s, e).mailbox, Next(s, e).now)
  {
    hide Next, Sent, Held;
    var t := Next(s, e);
    ClockRuns(s, e);
    forall r, q | r in t.mailbox.rows && q in t.mailbox.rows
      ensures Behind(r, q, t.now)
    {
      MailMoves(s, e, r);
      HeldOrNew(s, e, q);
      if r in s.mailbox.rows {
        StillBehind(s, e, r, q);
      } else if Sent(s, e).Some? {
        SentForemost(s, e, q);
      }
    }
  }

  lemma StillBehind(s: Cloud, e: Event, r: CloudRow, q: CloudRow)
    requires MailOrdered(s.mailbox) && Foremost(s.mailbox, s.now) && r in s.mailbox.rows && (Held(s.mailbox, q) || Puts(s, e, q))
    ensures Behind(r, q, s.now)
  {
    hide Next;
    if Held(s.mailbox, q) {
      var p :| p in s.mailbox.rows && ButState(q, p);
      assert Behind(r, p, s.now);
    }
  }

  /** Put back, the item in flight is the first the queue gives out. */
  lemma RequeuedIsFirst(t: CloudTable, r: CloudRow, now: int)
    requires MailOrdered(t) && Foremost(t, now) && r in t.rows && r.item.state.Delivering? && r.item.exp > now
    ensures CloudDeliver(CloudRequeue(t), now).1 == Some(MailState(r, Queued))
  {
    var u, back := CloudRequeue(t), MailState(r, Queued);
    forall q | q in u.rows
      ensures q.item.state.Queued?
    {
      var p := Restated(t.rows, PutsBack(), q);
    }
    var i :| 0 <= i < |t.rows| && t.rows[i] == r;
    assert u.rows[i] == back;
    MapSerial(t.rows, PutsBack(), CloudSeq(), t.last);
    FirstIsLeast(u.rows, Due(now), CloudSeq(), back);
    var first := First(u.rows, Due(now)).value;
    var p := Restated(t.rows, PutsBack(), first);
    assert Behind(r, p, now);
  }

  // ---- nothing overtakes it ----

  /** Numbers are given in order: no row before the given number is unexpired. */
  ghost predicate EarlierExpired(t: CloudTable, n: nat, now: int) {
    n <= t.last && forall q :: q in t.rows && q.seq_ < n ==> q.item.exp <= now
  }

  lemma LastRises(s: Cloud, e: Event)
    requires Possible(s, e)
    ensures Next(s, e).mailbox.last >= s.mailbox.last
  {
    hide Next, Handed, CloudDeliver;
    if !e.SocketSpeaks? {
      SilentSettles(s, e);
    } else if s.socks[e.i].retired.Some? {
      RetiredFrameSettles(s, e);
    } else if s.socks[e.i].role.AsHost? {
      HostFrameMoves(s, e);
      if Handed(s, e).Some? {
        DeliverKeepsLast(Handed(s, e).value, s.now);
      }
    } else {
      DeviceFrameMoves(s, e);
    }
  }

  lemma DeliverKeepsLast(t: CloudTable, now: int)
    ensures CloudDeliver(t, now).0.last == t.last
  {
  }

  lemma NextKeepsEarlierExpired(s: Cloud, e: Event, n: nat)
    requires MailOrdered(s.mailbox) && EarlierExpired(s.mailbox, n, s.now) && Possible(s, e)
    ensures EarlierExpired(Next(s, e).mailbox, n, Next(s, e).now)
  {
    hide Next, MailOrdered;
    var t := Next(s, e);
    ClockRuns(s, e);
    LastRises(s, e);
    forall q | q in t.mailbox.rows && q.seq_ < n
      ensures q.item.exp <= t.now
    {
      HeldOrNew(s, e, q);
      if Held(s.mailbox, q) {
        var p :| p in s.mailbox.rows && ButState(q, p);
      }
    }
  }

  /** With all before it expired, a row that is held and unexpired is what is sent, if anything is. */
  lemma NoneOvertakes(s: Cloud, e: Event, r: CloudRow)
    requires Possible(s, e) && MailOrdered(s.mailbox) && MailOrdered(Next(s, e).mailbox) && EarlierExpired(s.mailbox, r.seq_, s.now)
    requires Sent(s, e).Some? && Held(Next(s, e).mailbox, r) && r.item.exp > s.now
    ensures Sent(s, e).value == MailState(r, Queued)
  {
    hide Next, MailOrdered, Sent;
    SentGoesInFlight(s, e);
    var x := Sent(s, e).value;
    var q :| q in Next(s, e).mailbox.rows && ButState(r, q);
    SentForemost(s, e, q);
    OrderedApartIf(Next(s, e).mailbox, q, MailState(x, Delivering));
  }

  lemma OrderedApartIf(t: CloudTable, r: CloudRow, q: CloudRow)
    requires MailOrdered(t) && r in t.rows && q in t.rows
    ensures r.seq_ == q.seq_ ==> r == q
  {
    if r.seq_ == q.seq_ {
      OrderedApart(t, r, q);
    }
  }
}
