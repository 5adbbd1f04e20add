/** The alarm that is always pending, and the waits of refused deliveries, over whole runs of the cloud relay. */
module CloudAlarms {
  import opened Wrappers
  import opened Sequences
  import opened Acls
  import opened MailboxItems
  import opened CloudMailbox
  import opened Hookbox
  import opened CloudState
  import opened CloudInvariants

  // ---- waiting rows ----

  /** Every row waiting out a retry in `u` is in `t` already. */
  ghost predicate NoNewWait(t: HookTable, u: HookTable, now: int) {
    forall r :: r in u.rows && HookWaiting(now)(r) ==> r in t.rows
  }

  lemma OfferNoNewWait(t: HookTable, at: int, now: int)
    ensures NoNewWait(t, OfferHook(t, at).0, now)
  {
    var row := OfferHook(t, at).1;
    if row.Some? {
      forall r | r in OfferHook(t, at).0.rows && HookWaiting(now)(r)
        ensures r in t.rows
      {
        var q := Restated(t.rows, HookSends(row.value.seq_), r);
      }
    }
  }

  lemma PutBackNoNewWait(t: HookTable, now: int)
    requires RowsOk(t, now)
    ensures NoNewWait(t, PutHooksBack(t), now)
  {
    forall r | r in PutHooksBack(t).rows && HookWaiting(now)(r)
      ensures r in t.rows
    {
      var q := Restated(t.rows, HookPutsBack(), r);
      assert RowOk(q, now);
    }
  }

  lemma QueueNoNewWait(t: HookTable, hook: string, delivery: string, size: nat, now: nat)
    ensures NoNewWait(t, QueueHook(t, hook, delivery, size, now).0, now)
  {
    hide First, HookRoom;
  }

  lemma WaitJoins(t: HookTable, u: HookTable, v: HookTable, now: int)
    requires NoNewWait(t, u, now) && NoNewWait(u, v, now)
    ensures NoNewWait(t, v, now)
  {
  }

  // ---- the alarm ----

  /**
   * Outside its handler, whenever there is a socket, an item or a delivery, an alarm is pending: at most a minute ahead,
   * and no later than the first retry to come.
   */
  ghost predicate AlarmSet(s: Cloud) {
    s.running.None? && Busy(s) ==>
      && s.alarm.Some? && s.alarm.value <= s.now + ALARM_MS
      && forall r :: r in s.hookbox.rows && HookWaiting(s.now)(r) ==> s.alarm.value <= r.notBefore
  }

  lemma QuietKeeps(s: Cloud, t: Cloud)
    requires AlarmSet(s) && t.alarm == s.alarm && t.running == s.running && s.now <= t.now
    requires Busy(t) ==> Busy(s)
    requires NoNewWait(s.hookbox, t.hookbox, t.now)
    ensures AlarmSet(t)
  {
    hide Busy;
    forall r | r in t.hookbox.rows && HookWaiting(t.now)(r)
      ensures r in s.hookbox.rows && HookWaiting(s.now)(r)
    {
    }
  }

  lemma EnsuredKeeps(s: Cloud, t: Cloud, at: int)
    requires AlarmSet(s) && t.alarm == EnsureAlarm(s, at).alarm && t.running == s.running && t.now == s.now
    requires at <= s.now + ALARM_MS
    requires NoNewWait(s.hookbox, t.hookbox, t.now)
    ensures AlarmSet(t)
  {
    assert Busy(s) || s.hookbox.rows == [];
  }

  /** However long its pass over the sockets took, the alarm's own next time misses no retry queued in the meantime. */
  lemma NextAlarmMissesNone(s: Cloud, began: int, now: int, r: HookRow)
    requires began <= now && r in s.hookbox.rows && HookWaiting(now)(r)
    ensures NextAlarm(s, began) <= r.notBefore
  {
    var i :| 0 <= i < |s.hookbox.rows| && s.hookbox.rows[i] == r;
    assert HookWaiting(began)(s.hookbox.rows[i]);
  }

  // ---- deliveries ----

  ghost predicate Began(s: Cloud) {
    s.running.Some? ==> s.running.value.began <= s.now
  }

  /** A delivery offered after a refusal has waited the refusal out. */
  ghost predicate Waited(refusal: HookEvent, offer: HookEvent) {
    refusal.HookRefused? && offer.HookOffered? && refusal.seq_ == offer.seq_ ==> offer.at >= refusal.at + Wait(refusal.attempts)
  }

  ghost predicate LogWaited(log: seq<HookEvent>) {
    forall i, j {:trigger Waited(log[i], log[j])} :: 0 <= i < j < |log| ==> Waited(log[i], log[j])
  }

  ghost predicate EntryOk(s: Cloud, e: HookEvent) {
    && e.attempts <= 291 && e.seq_ <= s.hookbox.last
    && (e.HookRefused? ==> forall r :: r in s.hookbox.rows && r.seq_ == e.seq_ ==> r.notBefore >= e.at + Wait(e.attempts))
  }

  ghost predicate LogOk(s: Cloud) {
    LogWaited(s.log) && forall i :: 0 <= i < |s.log| ==> EntryOk(s, s.log[i])
  }

  ghost predicate HookInv(s: Cloud) {
    HooksValid(s.hookbox, s.now) && LogOk(s)
  }

  /** Rows are as before, gone, or wait longer. */
  ghost predicate OnlyLater(t: HookTable, u: HookTable) {
    && u.last >= t.last
    && forall r :: r in u.rows ==> r.seq_ > t.last || exists q :: q in t.rows && q.seq_ == r.seq_ && q.notBefore <= r.notBefore
  }

  lemma LogKept(s: Cloud, t: Cloud)
    requires LogOk(s) && t.log == s.log && OnlyLater(s.hookbox, t.hookbox)
    ensures LogOk(t)
  {
    hide Wait;
    forall i | 0 <= i < |t.log|
      ensures EntryOk(t, t.log[i])
    {
      assert EntryOk(s, s.log[i]);
    }
  }

  lemma UpdateOnlyLater(t: HookTable, f: HookRow -> HookRow)
    requires forall r :: r in t.rows ==> f(r).seq_ == r.seq_ && f(r).notBefore >= r.notBefore
    ensures OnlyLater(t, t.(rows := Map(t.rows, f)))
  {
    forall r | r in Map(t.rows, f)
      ensures exists q :: q in t.rows && q.seq_ == r.seq_ && q.notBefore <= r.notBefore
    {
      var q := Restated(t.rows, f, r);
    }
  }

  lemma OfferOnlyLater(t: HookTable, at: int)
    ensures OnlyLater(t, OfferHook(t, at).0)
  {
    if OfferHook(t, at).1.Some? {
      UpdateOnlyLater(t, HookSends(OfferHook(t, at).1.value.seq_));
    }
  }

  lemma RetryOnlyLater(t: HookTable, row: HookRow, due: int)
    requires HookOrdered(t) && row in t.rows && row.notBefore <= due
    ensures OnlyLater(t, t.(rows := Map(t.rows, HookRetries(row.seq_, due))))
  {
    hide OnlyLater;
    forall r | r in t.rows && r.seq_ == row.seq_
      ensures r == row
    {
      KeysTellApart(t.rows, HookSeq(), r, row);
    }
    UpdateOnlyLater(t, HookRetries(row.seq_, due));
  }

  lemma FewerOnlyLater(t: HookTable, keep: HookRow -> bool)
    ensures OnlyLater(t, t.(rows := Filter(t.rows, keep)))
  {
  }

  lemma AckOnlyLater(t: HookTable, number: Option<int>, retry: bool, now: int)
    requires HooksValid(t, now)
    ensures OnlyLater(t, AckHook(t, number, retry, now))
  {
    hide Wait, OnlyLater, HookOrdered, HookKeysUnique, OneHookInFlight, HookQuotas, Waits, Filter, Map;
    var row := AckedHook(t, number);
    if row.Some? {
      assert row.value in t.rows && RowOk(row.value, now) && row.value.state.Delivering?;
      RetryOnlyLater(t, row.value, now + Wait(row.value.attempts));
      FewerOnlyLater(t, HookOther(row.value.seq_));
    } else {
      SameOnlyLater(t);
    }
  }

  lemma SameOnlyLater(t: HookTable)
    ensures OnlyLater(t, t)
  {
  }

  lemma OfferEntryOk(s: Cloud, at: int)
    requires HookInv(s) && at <= s.now && OfferHook(s.hookbox, at).1.Some?
    ensures
      var row := OfferHook(s.hookbox, at).1.value;
      && row.attempts <= 291 && row.seq_ <= s.hookbox.last
      && forall i :: 0 <= i < |s.log| ==> Waited(s.log[i], HookOffered(row.seq_, s.now, row.attempts))
  {
    hide OfferHook, HookQuotas, HookKeysUnique, OneHookInFlight, Wait;
    OfferKeeps(s.hookbox, at, s.now);
    var row := OfferHook(s.hookbox, at).1.value;
    forall i | 0 <= i < |s.log|
      ensures Waited(s.log[i], HookOffered(row.seq_, s.now, row.attempts))
    {
      assert EntryOk(s, s.log[i]);
    }
  }

  lemma LogGrows(s: Cloud, t: Cloud, e: HookEvent)
    requires LogOk(s) && t.log == s.log + [e] && OnlyLater(s.hookbox, t.hookbox) && EntryOk(t, e)
    requires forall i :: 0 <= i < |s.log| ==> Waited(s.log[i], e)
    ensures LogOk(t)
  {
    LogKept(s, t.(log := s.log));
    hide Wait, OnlyLater, Waited;
    forall i | 0 <= i < |t.log|
      ensures EntryOk(t, t.log[i])
    {
      if i < |s.log| {
        assert EntryOk(t.(log := s.log), s.log[i]);
        EntrySame(t.(log := s.log), t, s.log[i]);
      }
    }
    forall i, j | 0 <= i < j < |t.log|
      ensures Waited(t.log[i], t.log[j])
    {
      assert j < |s.log| ==> Waited(s.log[i], s.log[j]);
    }
  }

  lemma EntrySame(s: Cloud, t: Cloud, e: HookEvent)
    requires EntryOk(s, e) && t.hookbox == s.hookbox
    ensures EntryOk(t, e)
  {
  }

  lemma DeliverHookKeeps(s: Cloud, at: int)
    requires HookInv(s) && at <= s.now
    ensures HookInv(DeliverHook(s, at))
    ensures NoNewWait(s.hookbox, DeliverHook(s, at).hookbox, s.now)
    ensures DeliverHook(s, at).hookbox.rows != [] ==> s.hookbox.rows != []
  {
    hide OfferHook, HooksValid, LogOk, OnlyLater, NoNewWait, Waited, Wait;
    var t := DeliverHook(s, at);
    OfferKeeps(s.hookbox, at, s.now);
    OfferOnlyLater(s.hookbox, at);
    OfferNoNewWait(s.hookbox, at, s.now);
    OfferSameSize(s.hookbox, at);
    if OfferHook(s.hookbox, at).1.Some? {
      OfferEntryOk(s, at);
      var row := OfferHook(s.hookbox, at).1.value;
      LogGrows(s, t, HookOffered(row.seq_, s.now, row.attempts));
    } else {
      LogKept(s, t);
    }
  }

  lemma OfferSameSize(t: HookTable, at: int)
    ensures |OfferHook(t, at).0.rows| == |t.rows| && OfferHook(t, at).0.last == t.last
  {
  }

  // ---- every event ----

  ghost predicate WaitInv(s: Cloud) {
    AlarmSet(s) && Began(s) && HookInv(s)
  }

  ghost predicate CloudInv(s: Cloud) { Authorized(s) && WaitInv(s) }

  /** Sockets only leave the list, and queues are not filled. */
  ghost predicate NoBusier(s: Cloud, t: Cloud) {
    && |t.socks| == |s.socks| && (forall i :: 0 <= i < |s.socks| && t.socks[i].listed ==> s.socks[i].listed)
    && (t.mailbox.rows != [] ==> s.mailbox.rows != [])
    && (t.hookbox.rows != [] ==> s.hookbox.rows != [])
  }

  lemma NoBusierNotBusy(s: Cloud, t: Cloud)
    requires NoBusier(s, t) && Busy(t)
    ensures Busy(s)
  {
  }

  /** A step that touches neither the alarm nor the clock, and adds nothing. */
  ghost predicate Calm(s: Cloud, t: Cloud) {
    NoBusier(s, t) && t.alarm == s.alarm && t.running == s.running && t.now == s.now && NoNewWait(s.hookbox, t.hookbox, s.now)
  }

  lemma CalmKeeps(s: Cloud, t: Cloud)
    requires AlarmSet(s) && Calm(s, t)
    ensures AlarmSet(t)
  {
    hide Busy, AlarmSet, NoNewWait;
    if Busy(t) {
      NoBusierNotBusy(s, t);
    }
    QuietKeeps(s, t);
  }

  lemma CalmJoins(s: Cloud, t: Cloud, u: Cloud)
    requires Calm(s, t) && Calm(t, u)
    ensures Calm(s, u)
  {
    forall i | 0 <= i < |s.socks| && u.socks[i].listed
      ensures s.socks[i].listed
    {
      assert t.socks[i].listed;
    }
  }

  lemma SameHooks(s: Cloud, t: Cloud)
    requires HookInv(s) && t.hookbox == s.hookbox && t.log == s.log && t.now == s.now
    ensures HookInv(t)
  {
    forall i | 0 <= i < |t.log|
      ensures EntryOk(t, t.log[i])
    {
      assert EntryOk(s, s.log[i]);
    }
  }

  lemma FilteredHooks(s: Cloud, keep: HookRow -> bool)
    requires HookInv(s)
    ensures HookInv(s.(hookbox := s.hookbox.(rows := Filter(s.hookbox.rows, keep))))
    ensures NoNewWait(s.hookbox, s.hookbox.(rows := Filter(s.hookbox.rows, keep)), s.now)
  {
    hide HooksValid, LogOk;
    HookRemoval(s.hookbox, keep, s.now);
    LogKept(s, s.(hookbox := s.hookbox.(rows := Filter(s.hookbox.rows, keep))));
  }

  lemma OfflineKeeps(s: Cloud, at: int)
    requires HookInv(s)
    ensures HookInv(HostOffline(s, at)) && Calm(s, HostOffline(s, at))
  {
    hide HooksValid, LogOk, OnlyLater, RowsOk;
    HooksAreRowsOk(s.hookbox, s.now);
    PutBackKeeps(s.hookbox, s.now);
    PutBackNoNewWait(s.hookbox, s.now);
    UpdateOnlyLater(s.hookbox, HookPutsBack());
    LogKept(s, HostOffline(s, at));
  }

  lemma HooksAreRowsOk(t: HookTable, now: int)
    requires HooksValid(t, now)
    ensures RowsOk(t, now)
  {
  }

  lemma GoneKeeps(s: Cloud, role: Role, at: int)
    requires HookInv(s)
    ensures HookInv(Bookkeep(s, role, at)) && Calm(s, Bookkeep(s, role, at))
  {
    hide HookInv, HostOffline;
    if role.AsHost? && role.ready {
      OfflineKeeps(s, at);
    }
  }

  lemma RetireKeeps(s: Cloud, i: nat, at: int)
    requires HookInv(s) && i < |s.socks|
    ensures HookInv(Retire(s, i, at)) && Calm(s, Retire(s, i, at))
  {
    hide HookInv, Bookkeep;
    var k := s.socks[i];
    var t := s.(socks := s.socks[i := k.(role := Unready(k.role), retired := Some(at))]);
    SameHooks(s, t);
    GoneKeeps(t, k.role, at);
    CalmJoins(s, t, Retire(s, i, at));
  }

  lemma {:induction false} RetireHostsKeeps(s: Cloud, n: nat)
    requires HookInv(s) && n <= |s.socks|
    ensures HookInv(RetireHosts(s, n)) && Calm(s, RetireHosts(s, n))
  {
    hide HookInv, Retire, Calm;
    if n == 0 {
      CalmSelf(s);
    } else {
      RetireHostsKeeps(s, n - 1);
      var t := RetireHosts(s, n - 1);
      RetireKeeps(t, n - 1, s.now);
      CalmJoins(s, t, Retire(t, n - 1, s.now));
    }
  }

  lemma CalmSelf(s: Cloud)
    ensures Calm(s, s)
  {
  }

  lemma AcceptHostKeeps(s: Cloud, kid: string, computer: string)
    requires WaitInv(s)
    ensures WaitInv(AcceptHost(s, kid, computer))
  {
    hide HookInv, RetireHosts, AlarmSet, NoNewWait;
    var t := AcceptHost(s, kid, computer);
    if t != s {
      var owned := if s.owner.None? then s.(owner := Some((kid, computer))) else s;
      SameHooks(s, owned);
      RetireHostsKeeps(owned, |s.socks|);
      SameHooks(RetireHosts(owned, |s.socks|), t);
      EnsuredKeeps(s, t, s.now + ALARM_MS);
    }
  }

  lemma AcceptDeviceKeeps(s: Cloud, dk: string, offer: string)
    requires WaitInv(s)
    ensures WaitInv(AcceptDevice(s, dk, offer))
  {
    hide HookInv, AlarmSet, NoNewWait, Lists, GoodOffer, Filter;
    var t := AcceptDevice(s, dk, offer);
    if t != s {
      SameHooks(s, t);
      NoWaitSelf(s.hookbox, s.now);
      var at := if offer == "" then s.now + ALARM_MS
        else Min(Min(s.now + ALARM_MS, s.now + PAIRING_TTL_MS), GoodOffer(s.acl.value.offers, offer, s.now).value.exp);
      EnsuredKeeps(s, t, at);
    }
  }

  lemma NoWaitSelf(t: HookTable, now: int)
    ensures NoNewWait(t, t, now)
  {
  }

  /** A calm step that leaves the deliveries alone. */
  lemma CalmSameHooks(s: Cloud, t: Cloud)
    requires WaitInv(s) && NoBusier(s, t) && t.alarm == s.alarm && t.running == s.running && t.now == s.now
    requires t.hookbox == s.hookbox && t.log == s.log
    ensures WaitInv(t)
  {
    hide HookInv, AlarmSet, NoNewWait;
    NoWaitSelf(s.hookbox, s.now);
    SameHooks(s, t);
    CalmKeeps(s, t);
  }

  lemma {:induction false} BlockKeysMail(s: Cloud, entries: seq<BlockEntry>)
    ensures BlockKeys(s, entries).mailbox.rows != [] ==> s.mailbox.rows != []
    decreases |entries|
  {
    hide IsKey;
    if entries != [] {
      BlockKeysMail(s, entries[..|entries| - 1]);
    }
  }

  lemma BlockKeeps(s: Cloud, entries: seq<BlockEntry>)
    requires WaitInv(s)
    ensures WaitInv(Block(s, entries))
  {
    hide WaitInv, BlockKeys, Named;
    BlockKeysMail(s, entries);
    CalmSameHooks(s, Block(s, entries));
  }

  lemma WaitInvParts(s: Cloud)
    requires WaitInv(s)
    ensures AlarmSet(s) && Began(s) && HookInv(s)
  {
  }

  lemma OnAclKeeps(s: Cloud, asked: int, verdict: Option<Acl>)
    requires WaitInv(s)
    ensures WaitInv(OnAcl(s, asked, verdict))
  {
    hide WaitInv, ShutOut, StillBlocked;
    WaitInvParts(s);
    if OnAcl(s, asked, verdict) != s {
      CalmSameHooks(s, OnAcl(s, asked, verdict));
    }
  }

  lemma QueuedHookInv(s: Cloud, id: string, delivery: string, size: nat)
    requires HookInv(s)
    ensures
      var t := s.(hookbox := QueueHook(s.hookbox, id, delivery, size, s.now).0);
      HookInv(t) && NoNewWait(s.hookbox, t.hookbox, s.now)
  {
    hide HooksValid, LogOk, HookRoom, First;
    QueueHookKeeps(s.hookbox, id, delivery, size, s.now);
    QueueNoNewWait(s.hookbox, id, delivery, size, s.now);
    LogKept(s, s.(hookbox := QueueHook(s.hookbox, id, delivery, size, s.now).0));
  }

  lemma HookKeeps(s: Cloud, id: string, delivery: string, size: nat)
    requires WaitInv(s)
    ensures WaitInv(Hook(s, id, delivery, size))
  {
    hide HookInv, AlarmSet, NoNewWait, QueueHook, HostReady, OfferHook;
    var t := Hook(s, id, delivery, size);
    if t != s {
      var queued := s.(hookbox := QueueHook(s.hookbox, id, delivery, size, s.now).0);
      QueuedHookInv(s, id, delivery, size);
      DeliverHookKeeps(queued, s.now);
      WaitJoins(s.hookbox, queued.hookbox, DeliverHook(queued, s.now).hookbox, s.now);
      SameHooks(if HostReady(s) then DeliverHook(queued, s.now) else queued, t);
      EnsuredKeeps(s, t, s.now + ALARM_MS);
    }
  }

  // ---- a frame ----

  lemma DeliverHookCalm(s: Cloud)
    requires HookInv(s)
    ensures HookInv(DeliverHook(s, s.now)) && Calm(s, DeliverHook(s, s.now))
  {
    hide HookInv, NoNewWait, OfferHook;
    DeliverHookKeeps(s, s.now);
  }

  lemma DeliverMailCalm(s: Cloud)
    requires HookInv(s)
    ensures HookInv(DeliverMail(s)) && Calm(s, DeliverMail(s))
  {
    hide HookInv;
    DeliverMailSize(s);
    SameHooks(s, DeliverMail(s));
  }

  lemma DeliverMailSize(s: Cloud)
    ensures |DeliverMail(s).mailbox.rows| == |s.mailbox.rows|
  {
  }

  lemma SetReadyCalm(s: Cloud, i: nat)
    requires HookInv(s) && i < |s.socks| && s.socks[i].role.AsHost?
    ensures
      var t := s.(socks := s.socks[i := s.socks[i].(role := s.socks[i].role.(ready := true))], lastSeenAt := Some(s.now));
      HookInv(t) && Calm(s, t)
  {
    hide HookInv;
    SameHooks(s, s.(socks := s.socks[i := s.socks[i].(role := s.socks[i].role.(ready := true))], lastSeenAt := Some(s.now)));
  }

  lemma OnReadyCalm(s: Cloud, i: nat)
    requires HookInv(s) && i < |s.socks| && s.socks[i].role.AsHost?
    ensures HookInv(OnReady(s, i)) && Calm(s, OnReady(s, i))
  {
    hide HookInv, Calm, DeliverMail, DeliverHook;
    if s.socks[i].role.ready || s.acl.None? {
      CalmSelf(s);
    } else {
      var t := s.(socks := s.socks[i := s.socks[i].(role := s.socks[i].role.(ready := true))], lastSeenAt := Some(s.now));
      SetReadyCalm(s, i);
      DeliverMailCalm(t);
      CalmJoins(s, t, DeliverMail(t));
      CalmSame(t, DeliverMail(t));
      DeliverHookCalm(DeliverMail(t));
      CalmJoins(s, DeliverMail(t), DeliverHook(DeliverMail(t), s.now));
    }
  }

  lemma CalmSame(s: Cloud, t: Cloud)
    requires Calm(s, t)
    ensures t.now == s.now && t.alarm == s.alarm && t.running == s.running && |t.socks| == |s.socks|
  {
  }

  lemma OnAckCalm(s: Cloud, i: nat, number: Option<int>, outcome: Outcome)
    requires HookInv(s) && i < |s.socks|
    ensures HookInv(OnAck(s, i, number, outcome)) && Calm(s, OnAck(s, i, number, outcome))
  {
    hide HookInv, DeliverMail, IsReady;
    var acked := s.(mailbox := CloudAck(s.mailbox, number, outcome).0);
    SameHooks(s, acked);
    DeliverMailCalm(acked);
    if IsReady(s, i) {
      CalmJoins(s, acked, DeliverMail(acked));
    }
  }

  /** The row a retry is about waits from now; the alarm is no later. */
  lemma RetryWaits(s: Cloud, row: HookRow)
    requires HooksValid(s.hookbox, s.now) && row in s.hookbox.rows
    ensures
      var u := s.hookbox.(rows := Map(s.hookbox.rows, HookRetries(row.seq_, s.now + Wait(row.attempts))));
      forall r :: r in u.rows && HookWaiting(s.now)(r) ==> r in s.hookbox.rows || r.notBefore == s.now + Wait(row.attempts)
  {
    hide Wait;
    var f := HookRetries(row.seq_, s.now + Wait(row.attempts));
    forall r | r in Map(s.hookbox.rows, f) && HookWaiting(s.now)(r)
      ensures r in s.hookbox.rows || r.notBefore == s.now + Wait(row.attempts)
    {
      var q := Restated(s.hookbox.rows, f, r);
    }
  }

  lemma AckedRow(t: HookTable, number: Option<int>, now: int)
    requires HooksValid(t, now) && AckedHook(t, number).Some?
    ensures
      var row := AckedHook(t, number).value;
      row in t.rows && row.state.Delivering? && RowOk(row, now) && row.seq_ <= t.last
  {
  }

  /** The retried row waits at least as long as the refusal says. */
  lemma RefusedRow(t: HookTable, row: HookRow, now: int, r: HookRow)
    requires HookOrdered(t) && row in t.rows && r in Map(t.rows, HookRetries(row.seq_, now + Wait(row.attempts))) && r.seq_ == row.seq_
    ensures r.notBefore == now + Wait(row.attempts)
  {
    hide Wait;
    var q := Restated(t.rows, HookRetries(row.seq_, now + Wait(row.attempts)), r);
  }

  lemma AcknowledgedHookInv(s: Cloud, number: Option<int>, retry: bool)
    requires HookInv(s)
    ensures HookInv(AckDelivery(s, number, retry))
  {
    hide HooksValid, Wait, OnlyLater, Waited, HookOrdered, AckedHook, RowOk, LogOk;
    var t := AckDelivery(s, number, retry);
    AckHookKeeps(s.hookbox, number, retry, s.now);
    AckOnlyLater(s.hookbox, number, retry, s.now);
    var row := AckedHook(s.hookbox, number);
    if row.Some? && retry {
      AckedRow(s.hookbox, number, s.now);
      HooksAreOrdered(s.hookbox, s.now);
      var e := HookRefused(row.value.seq_, s.now, row.value.attempts);
      forall r | r in t.hookbox.rows && r.seq_ == e.seq_
        ensures r.notBefore >= e.at + Wait(e.attempts)
      {
        RefusedRow(s.hookbox, row.value, s.now, r);
      }
      SentAtMost(row.value, s.now);
      assert EntryOk(t, e);
      NoneWaitsOnRefusal(s.log, e);
      LogGrows(s, t, e);
    } else {
      LogKept(s, t);
    }
  }

  lemma SentAtMost(row: HookRow, now: int)
    requires RowOk(row, now) && row.state.Delivering?
    ensures row.attempts <= 291
  {
  }

  lemma NoneWaitsOnRefusal(log: seq<HookEvent>, e: HookEvent)
    requires e.HookRefused?
    ensures forall i :: 0 <= i < |log| ==> Waited(log[i], e)
  {
  }

  lemma HooksAreOrdered(t: HookTable, now: int)
    requires HooksValid(t, now)
    ensures HookOrdered(t)
  {
  }

  /** A refused delivery waits from now as long as its refusals so far say, and the alarm comes no later. */
  lemma AcknowledgedAlarm(s: Cloud, number: Option<int>, retry: bool)
    requires WaitInv(s)
    ensures AlarmSet(AckDelivery(s, number, retry))
    ensures
      var t, row := AckDelivery(s, number, retry), AckedHook(s.hookbox, number);
      row.Some? && retry ==>
        && t.alarm.Some? && t.alarm.value <= s.now + Wait(row.value.attempts)
        && forall r :: r in t.hookbox.rows && r.seq_ == row.value.seq_ ==> r.notBefore == s.now + Wait(row.value.attempts)
  {
    hide Wait, WaitInv, AlarmSet, AckedHook, Calm, AckDelivery;
    WaitInvParts(s);
    if AckedHook(s.hookbox, number).Some? && retry {
      RefusedAlarm(s, number);
    } else {
      AckCalm(s, number, retry);
      CalmKeeps(s, AckDelivery(s, number, retry));
    }
  }

  lemma RefusedAlarm(s: Cloud, number: Option<int>)
    requires AlarmSet(s) && HookInv(s) && AckedHook(s.hookbox, number).Some?
    ensures
      var t, row := AckDelivery(s, number, true), AckedHook(s.hookbox, number).value;
      && AlarmSet(t) && t.alarm.Some? && t.alarm.value <= s.now + Wait(row.attempts)
      && forall r :: r in t.hookbox.rows && r.seq_ == row.seq_ ==> r.notBefore == s.now + Wait(row.attempts)
  {
    hide Wait, Busy, LogOk, HookQuotas, HookKeysUnique, OneHookInFlight, AckedHook, RowOk, Map, Filter;
    var t, row := AckDelivery(s, number, true), AckedHook(s.hookbox, number).value;
    AckedRow(s.hookbox, number, s.now);
    BusyWithRow(s, row);
    RetryWaits(s, row);
    forall r | r in t.hookbox.rows && r.seq_ == row.seq_
      ensures r.notBefore == s.now + Wait(row.attempts)
    {
      RefusedRow(s.hookbox, row, s.now, r);
    }
  }

  lemma BusyWithRow(s: Cloud, row: HookRow)
    requires row in s.hookbox.rows
    ensures Busy(s)
  {
  }

  lemma AckCalm(s: Cloud, number: Option<int>, retry: bool)
    requires AckedHook(s.hookbox, number).None? || !retry
    ensures Calm(s, AckDelivery(s, number, retry))
  {
    hide AckedHook, Wait;
  }

  lemma AckDeliverySame(s: Cloud, number: Option<int>, retry: bool)
    ensures AckDelivery(s, number, retry).now == s.now
  {
  }

  lemma OnHookAckKeeps(s: Cloud, i: nat, number: Option<int>, retry: bool)
    requires WaitInv(s) && i < |s.socks|
    ensures HookInv(OnHookAck(s, i, number, retry)) && AlarmSet(OnHookAck(s, i, number, retry))
  {
    hide WaitInv, HookInv, AlarmSet, DeliverHook, AckDelivery, IsReady, Calm;
    AckDeliverySame(s, number, retry);
    WaitInvParts(s);
    AcknowledgedHookInv(s, number, retry);
    AcknowledgedAlarm(s, number, retry);
    var t := AckDelivery(s, number, retry);
    DeliverHookCalm(t);
    CalmKeeps(t, DeliverHook(t, s.now));
  }

  lemma HooksSaidCalm(s: Cloud, ids: set<string>)
    requires HookInv(s)
    ensures HookInv(s.(hookbox := DropHooks(s.hookbox, ids))) && Calm(s, s.(hookbox := DropHooks(s.hookbox, ids)))
  {
    hide HookInv;
    FilteredHooks(s, HookKept(ids));
  }

  lemma CloseSockCalm(s: Cloud, i: nat)
    requires HookInv(s) && i < |s.socks|
    ensures HookInv(CloseSock(s, i)) && Calm(s, CloseSock(s, i))
  {
    hide HookInv;
    SameHooks(s, CloseSock(s, i));
  }

  lemma OnHostKeeps(s: Cloud, i: nat, says: HostSays)
    requires WaitInv(s) && i < |s.socks| && s.socks[i].role.AsHost?
    ensures HookInv(OnHost(s, i, says)) && AlarmSet(OnHost(s, i, says))
  {
    hide WaitInv, HookInv, AlarmSet, OnReady, OnAck, OnHookAck, CloseSock, DropHooks, Calm, IsReady;
    WaitInvParts(s);
    match says
    case HookAckSaid(number, retry) => OnHookAckKeeps(s, i, number, retry);
    case ReadySaid =>
      OnReadyCalm(s, i);
      CalmKeeps(s, OnReady(s, i));
    case AckSaid(number, ok, code) =>
      var outcome := AckOutcome(ok, code);
      OnAckCalm(s, i, number, outcome);
      CalmKeeps(s, OnAck(s, i, number, outcome));
    case HooksSaid(ids) =>
      HooksSaidCalm(s, ids);
      CalmKeeps(s, s.(hookbox := DropHooks(s.hookbox, ids)));
    case CloseSaid(link) =>
      if link < |s.socks| {
        CloseSockCalm(s, link);
        CalmKeeps(s, CloseSock(s, link));
      }
    case BadHostFrame =>
      CloseSockCalm(s, i);
      CalmKeeps(s, CloseSock(s, i));
    case OtherHostSaid =>
  }

  function Counted(s: Cloud, i: nat): Cloud
    requires i < |s.socks| && s.socks[i].role.AsDevice?
  {
    s.(socks := s.socks[i := s.socks[i].(role := s.socks[i].role.(msgs := s.socks[i].role.msgs + 1))])
  }

  lemma CountedCalm(s: Cloud, i: nat)
    requires HookInv(s) && i < |s.socks| && s.socks[i].role.AsDevice?
    ensures HookInv(Counted(s, i)) && Calm(s, Counted(s, i))
  {
    hide HookInv;
    SameHooks(s, Counted(s, i));
  }

  lemma PutMailKeeps(s: Cloud, mailbox: CloudTable)
    requires WaitInv(s)
    ensures
      var t := EnsureAlarm(s.(mailbox := mailbox), s.now + ALARM_MS);
      HookInv(t) && AlarmSet(t)
  {
    hide HookInv, AlarmSet, NoNewWait;
    NoWaitSelf(s.hookbox, s.now);
    SameHooks(s, EnsureAlarm(s.(mailbox := mailbox), s.now + ALARM_MS));
    EnsuredKeeps(s, EnsureAlarm(s.(mailbox := mailbox), s.now + ALARM_MS), s.now + ALARM_MS);
  }

  lemma CancelMailCalm(s: Cloud, dk: string, nonce: Field)
    requires HookInv(s)
    ensures
      var t := s.(mailbox := CloudCancel(s.mailbox, dk, nonce).0);
      HookInv(t) && Calm(s, t)
  {
    hide HookInv;
    SameHooks(s, s.(mailbox := CloudCancel(s.mailbox, dk, nonce).0));
  }

  lemma OnDeviceKeeps(s: Cloud, i: nat, says: DeviceSays, fits: bool)
    requires WaitInv(s) && i < |s.socks| && s.socks[i].role.AsDevice?
    ensures HookInv(OnDevice(s, i, says, fits)) && AlarmSet(OnDevice(s, i, says, fits))
  {
    hide WaitInv, HookInv, AlarmSet, CloseSock, Calm, CloudPut, CloudCancel, HostReady;
    WaitInvParts(s);
    var k := s.socks[i];
    var counted := if k.role.pair then Counted(s, i) else s;
    CountedCalm(s, i);
    CalmKeeps(s, Counted(s, i));
    CalmSame(s, Counted(s, i));
    CloseSockCalm(s, i);
    CalmKeeps(s, CloseSock(s, i));
    CloseSockCalm(counted, i);
    CalmKeeps(counted, CloseSock(counted, i));
    if says.PutSaid? {
      PutMailKeeps(s, CloudPut(s.mailbox, k.role.dk, says.msg, HostReady(s), s.now).0);
    } else if says.CancelSaid? {
      CancelMailCalm(s, k.role.dk, says.nonce);
      CalmKeeps(s, s.(mailbox := CloudCancel(s.mailbox, k.role.dk, says.nonce).0));
    }
  }

  lemma FromSocketKeeps(s: Cloud, i: nat, hostSays: HostSays, says: DeviceSays, fits: bool)
    requires WaitInv(s) && i < |s.socks|
    ensures WaitInv(FromSocket(s, i, hostSays, says, fits))
  {
    hide HookInv, AlarmSet, OnHost, OnDevice, CloseSock, Calm, NoneOpened;
    SpeakingOpensNone(s, i, hostSays, says, fits);
    if s.socks[i].retired.Some? {
      CloseSockCalm(s, i);
      CalmKeeps(s, CloseSock(s, i));
    } else if s.socks[i].role.AsHost? {
      OnHostKeeps(s, i, hostSays);
    } else {
      OnDeviceKeeps(s, i, says, fits);
    }
  }

  lemma ClosedKeeps(s: Cloud, i: nat)
    requires HookInv(s) && AlarmSet(s) && i < |s.socks|
    ensures HookInv(Closed(s, i)) && AlarmSet(Closed(s, i))
  {
    hide HookInv, AlarmSet, Bookkeep;
    var off := s.(socks := s.socks[i := s.socks[i].(listed := false, closing := true)]);
    SameHooks(s, off);
    GoneKeeps(off, s.socks[i].role, s.now);
    CalmJoins(s, off, Bookkeep(off, s.socks[i].role, s.now));
    CalmKeeps(s, off);
    CalmKeeps(s, Bookkeep(off, s.socks[i].role, s.now));
  }

  // ---- the alarm's own steps ----

  lemma AlarmLooksKeeps(s: Cloud, pong: int, awake: bool)
    requires HookInv(s) && Visiting(s)
    ensures s.running.Some? && HookInv(AlarmVisits(s, pong, awake)) && AlarmVisits(s, pong, awake).running.Some?
    ensures AlarmVisits(s, pong, awake).running.value.began == s.running.value.began && AlarmVisits(s, pong, awake).now == s.now
  {
    hide HookInv, Retire, CloseSock;
    var i := s.running.value.todo[0];
    var t := s.(running := Some(Alarm(s.running.value.began, s.running.value.todo[1..])));
    SameHooks(s, t);
    RetireKeeps(t, i, s.running.value.began);
    CalmSame(t, Retire(t, i, s.running.value.began));
    CloseSockCalm(t, i);
    CalmSame(t, CloseSock(t, i));
  }

  lemma AlarmTidiesKeeps(s: Cloud, began: int)
    requires HookInv(s) && began <= s.now
    ensures HookInv(AlarmTidies(s, began))
  {
    hide HookInv, DeliverHook, HostReady, CloudExpire;
    FilteredHooks(s, HookFresh(began));
    var tidy := s.(mailbox := CloudExpire(s.mailbox, began).0, hookbox := LapseHooks(s.hookbox, began));
    SameHooks(s.(hookbox := LapseHooks(s.hookbox, began)), tidy);
    DeliverHookKeeps(tidy, began);
  }

  lemma AlarmFinishesKeeps(s: Cloud)
    requires HookInv(s) && Began(s) && s.running.Some?
    ensures HookInv(AlarmFinishes(s)) && AlarmSet(AlarmFinishes(s))
  {
    hide HookInv, AlarmTidies, PairingOver, NextAlarm, Busy, HookWaiting;
    var began := s.running.value.began;
    AlarmTidiesKeeps(s, began);
    TidySame(s, began);
    var t, u := AlarmTidies(s, began), AlarmFinishes(s);
    SameHooks(t, u);
    if Busy(u) {
      NoBusierNotBusy(t, u);
    }
    forall r | r in u.hookbox.rows && HookWaiting(u.now)(r)
      ensures NextAlarm(t, began) <= r.notBefore
    {
      NextAlarmMissesNone(t, began, u.now, r);
    }
  }

  lemma TidySame(s: Cloud, began: int)
    ensures AlarmTidies(s, began).now == s.now && AlarmTidies(s, began).running == s.running
  {
    hide DeliverHook;
    DeliverHookSame(s.(mailbox := CloudExpire(s.mailbox, began).0, hookbox := LapseHooks(s.hookbox, began)), began);
  }

  lemma TickKeeps(s: Cloud, ms: nat)
    requires WaitInv(s)
    ensures WaitInv(s.(now := s.now + ms))
  {
    hide HooksValid, Busy, LogWaited;
    var t := s.(now := s.now + ms);
    HooksLater(s.hookbox, s.now, t.now);
    forall i | 0 <= i < |t.log|
      ensures EntryOk(t, t.log[i])
    {
      assert EntryOk(s, s.log[i]);
    }
    TickBusy(s, ms);
    TickWaits(s, ms);
    QuietKeeps(s, t);
  }

  lemma TickBusy(s: Cloud, ms: nat)
    ensures Busy(s.(now := s.now + ms)) == Busy(s)
  {
  }

  lemma TickWaits(s: Cloud, ms: nat)
    ensures NoNewWait(s.hookbox, s.hookbox, s.now + ms)
  {
  }

  lemma AlarmStepKeeps(s: Cloud, e: Event)
    requires WaitInv(s) && Possible(s, e) && (e.SocketCloses? || e.AlarmBegins? || e.AlarmLooks? || e.AlarmEnds?)
    ensures WaitInv(Next(s, e))
  {
    hide HookInv, NoneOpened, Closed, AlarmVisits, AlarmFinishes, Visiting, Busy;
    match e
    case SocketCloses(i) =>
      ClosedKeeps(s, i);
      ClosedSame(s, i);
    case AlarmBegins => SameHooks(s, Next(s, e));
    case AlarmLooks(pong, awake) => AlarmLooksKeeps(s, pong, awake);
    case AlarmEnds =>
      AlarmFinishesKeeps(s);
      FinishSame(s);
    case _ =>
  }

  lemma FinishSame(s: Cloud)
    requires s.running.Some?
    ensures AlarmFinishes(s).now == s.now && AlarmFinishes(s).running.None?
  {
    hide AlarmTidies, NextAlarm, Busy, PairingOver;
    TidySame(s, s.running.value.began);
  }

  lemma ClosedSame(s: Cloud, i: nat)
    requires i < |s.socks|
    ensures Closed(s, i).now == s.now && Closed(s, i).running == s.running
  {
  }

  lemma NextWaits(s: Cloud, e: Event)
    requires WaitInv(s) && Possible(s, e)
    ensures WaitInv(Next(s, e))
  {
    hide WaitInv, AcceptHost, AcceptDevice, Block, OnAcl, FromSocket, Closed, AlarmFires, AlarmVisits, AlarmFinishes, Hook, Visiting;
    match e
    case Tick(ms) => TickKeeps(s, ms);
    case HostConnects(kid, computer) => AcceptHostKeeps(s, kid, computer);
    case DeviceConnects(dk, offer) => AcceptDeviceKeeps(s, dk, offer);
    case Blocks(entries) => BlockKeeps(s, entries);
    case HookArrives(id, delivery, size) => HookKeeps(s, id, delivery, size);
    case SocketSpeaks(i, hostSays, says, fits) => FromSocketKeeps(s, i, hostSays, says, fits);
    case AclChecked(asked, verdict) => OnAclKeeps(s, asked, verdict);
    case _ => AlarmStepKeeps(s, e);
  }

  /** Every event keeps the authorisation, the alarm and the waits. */
  lemma NextKeeps(s: Cloud, e: Event)
    requires CloudInv(s) && Possible(s, e)
    ensures CloudInv(Next(s, e))
  {
    hide Authorized, WaitInv, Next;
    NextAuthorized(s, e);
    NextWaits(s, e);
  }
}
