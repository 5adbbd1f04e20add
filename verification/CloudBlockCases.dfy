/** When exactly a block keeps a key's mail from the host: the events that still bring it there, from any reachable state. */
module CloudBlockCases {
  import opened Wrappers
  import opened Sequences
  import opened Base64Url
  import opened Acls
  import opened MailboxItems
  import opened CloudMailbox
  import opened Hookbox
  import opened CloudState
  import opened CloudInvariants
  import opened CloudAlarms
  import opened CloudInFlight
  import opened CloudMail
  import opened CloudRuns
  import opened CloudBlocks

  // ---- events in a row ----

  lemma BlockedOneMore(s: Cloud, es: seq<Event>, e: Event, dk: string)
    requires WhileBlocked(s, es, dk) && Possible(From(s, es), e) && dk in Next(From(s, es), e).blocked
    ensures WhileBlocked(s, es + [e], dk) && From(s, es + [e]) == Next(From(s, es), e)
  {
    hide Next, Possible;
    assert (es + [e])[..|es|] == es;
  }

  lemma {:induction false} BlockedRunsJoin(s: Cloud, es: seq<Event>, more: seq<Event>, dk: string)
    requires WhileBlocked(s, es, dk) && WhileBlocked(From(s, es), more, dk)
    ensures WhileBlocked(s, es + more, dk) && From(s, es + more) == From(From(s, es), more)
  {
    hide Next, Possible;
    if more == [] {
      assert es + more == es;
    } else {
      var front := more[..|more| - 1];
      assert (es + more)[..|es + more| - 1] == es + front;
      BlockedRunsJoin(s, es, front, dk);
    }
  }

  lemma BlockedOne(s: Cloud, e: Event, dk: string)
    requires dk in s.blocked && Possible(s, e) && dk in Next(s, e).blocked
    ensures WhileBlocked(s, [e], dk) && From(s, [e]) == Next(s, e)
  {
    hide Next, Possible;
    BlockedOneMore(s, [], e, dk);
    assert [] + [e] == [e];
  }

  // ---- a host comes, lists nobody and is ready ----

  lemma {:induction false} RetiredUpTo(s: Cloud, n: nat)
    requires Retiring(s) && n <= |s.socks|
    ensures
      var t := RetireHosts(s, n);
      && (forall i :: 0 <= i < n ==> !IsReadyHost(t.socks[i]))
      && (forall i :: 0 <= i < |s.socks| && (i >= n || !s.socks[i].role.AsHost?) ==> t.socks[i] == s.socks[i])
  {
    if n > 0 {
      RetiredUpTo(s, n - 1);
      assert RetiredUnready(s.socks[n - 1]);
    }
  }

  lemma RequeuedTwice(t: CloudTable)
    ensures CloudRequeue(CloudRequeue(t)) == CloudRequeue(t)
  {
    assert CloudRequeue(CloudRequeue(t)).rows == CloudRequeue(t).rows;
  }

  lemma {:induction false} RetiredMail(s: Cloud, n: nat)
    requires n <= |s.socks|
    ensures RetireHosts(s, n).mailbox == s.mailbox || RetireHosts(s, n).mailbox == CloudRequeue(s.mailbox)
  {
    hide CloudRequeue;
    if n > 0 {
      RetiredMail(s, n - 1);
      RequeuedTwice(s.mailbox);
    }
  }

  /** The owner, or anyone while there is none. */
  function OwnerConnects(s: Cloud): Event {
    if s.owner.Some? then HostConnects(s.owner.value.0, s.owner.value.1) else HostConnects("", "")
  }

  /** The number `h` is a host that is not ready, and none is. */
  ghost predicate AwaitsReady(s: Cloud, h: nat) {
    && h < |s.socks| && s.socks[h].role.AsHost? && !s.socks[h].role.ready && s.socks[h].listed && s.socks[h].retired.None?
    && !CloudState.HostReady(s) && s.owner.Some?
  }

  /** Only hosts are let go of, and the mail in flight goes back. */
  lemma OwnerHasConnected(s: Cloud)
    requires Retiring(s)
    ensures
      var t := Next(s, OwnerConnects(s));
      && AwaitsReady(t, |s.socks|) && |t.socks| == |s.socks| + 1
      && t.blocked == s.blocked && t.now == s.now && t.running == s.running
      && (t.mailbox == s.mailbox || t.mailbox == CloudRequeue(s.mailbox))
      && forall i :: 0 <= i < |s.socks| && s.socks[i].role.AsDevice? ==> t.socks[i] == s.socks[i]
  {
    hide RetireHosts, CloudRequeue;
    var e := OwnerConnects(s);
    var owned := if s.owner.None? then s.(owner := Some((e.kid, e.computer))) else s;
    RetiredUpTo(owned, |s.socks|);
    RetiredMail(owned, |s.socks|);
    RetireHostsOpensNone(owned, |s.socks|);
  }

  /** A newer list that names nobody. */
  function NobodyListed(s: Cloud): Event
    requires s.owner.Some?
  {
    AclChecked(s.now, Some(Acl(s.owner.value.1, Version(s.acl) + 1, [], [])))
  }

  lemma NobodyIsListed(s: Cloud, h: nat)
    requires AwaitsReady(s, h)
    ensures
      var t := Next(s, NobodyListed(s));
      && t.acl.Some? && t.blocked == s.blocked && t.now == s.now && t.mailbox == s.mailbox
      && h < |t.socks| && t.socks[h] == s.socks[h]
  {
    var t := Next(s, NobodyListed(s));
    assert t.blocked == s.blocked;
  }

  function SaysReady(h: nat): Event { SocketSpeaks(h, ReadySaid, QuietSaid, true) }

  /** The host's first delivery is what the queue would give it. */
  lemma ReadyIsSent(s: Cloud, h: nat, dk: string)
    requires AwaitsReady(s, h) && dk in s.blocked
    ensures
      var more := [NobodyListed(s)];
      && WhileBlocked(s, more, dk) && Possible(From(s, more), SaysReady(h))
      && Sent(From(s, more), SaysReady(h)) == CloudDeliver(s.mailbox, s.now).1
  {
    hide Next, CloudDeliver;
    NobodyIsListed(s, h);
    BlockedOne(s, NobodyListed(s), dk);
  }

  // ---- the item in flight ----

  lemma NoneInFlight(s: Cloud, r: CloudRow)
    requires FlightInv(s) && !CloudState.HostReady(s) && r in s.mailbox.rows
    ensures r.item.state.Queued?
  {
    hide MailValid, Retiring;
  }

  lemma RunInvParts(s: Cloud)
    requires RunInv(s)
    ensures MailOrdered(s.mailbox) && Foremost(s.mailbox, s.now) && Retiring(s) && FlightInv(s)
  {
    hide CloudInv, Foremost, SocketQuotas, PassInRange, OneHost, DeviceTimes, Attended, NoncesUnique, OneMoving, MailQuotas;
  }

  /** The host goes, the next one is ready, and is sent the item that was in flight. */
  lemma InFlightIsSentAgain(s: Cloud, r: CloudRow) returns (more: seq<Event>, e: Event)
    requires RunInv(s) && r.item.dk in s.blocked && r in s.mailbox.rows && r.item.state.Delivering? && r.item.exp > s.now
    ensures WhileBlocked(s, more, r.item.dk) && Possible(From(s, more), e) && Sent(From(s, more), e) == Some(MailState(r, Queued))
  {
    hide RunInv, Next, FlightInv, MailOrdered, Foremost, Retiring, AwaitsReady, Sent, CloudRequeue;
    var h, dk := |s.socks|, r.item.dk;
    var t := Next(s, OwnerConnects(s));
    RunInvParts(s);
    OwnerHasConnected(s);
    BlockedOne(s, OwnerConnects(s), dk);
    NextKeepsFlight(s, OwnerConnects(s));
    NotReadyYet(t, h);
    if r in t.mailbox.rows {
      NoneInFlight(t, r);
    }
    RequeuedIsFirst(s.mailbox, r, s.now);
    ReadyIsSent(t, h, dk);
    BlockedRunsJoin(s, [OwnerConnects(s)], [NobodyListed(t)], dk);
    more, e := [OwnerConnects(s)] + [NobodyListed(t)], SaysReady(h);
  }

  lemma NotReadyYet(s: Cloud, h: nat)
    requires AwaitsReady(s, h)
    ensures !CloudState.HostReady(s) && s.owner.Some?
  {
  }

  // ---- a pass of the alarm, in which every socket has just been heard ----

  predicate SameButClosing(k: Sock, q: Sock) { q == k || q == k.(closing := true) }

  /** Sockets may have been closed; none was let go of. */
  ghost predicate Undisturbed(s: Cloud, t: Cloud) {
    && |t.socks| == |s.socks| && (forall i :: 0 <= i < |s.socks| ==> SameButClosing(s.socks[i], t.socks[i]))
    && t.blocked == s.blocked && t.owner == s.owner && t.acl == s.acl && t.now == s.now
  }

  lemma UndisturbedJoins(s: Cloud, t: Cloud, u: Cloud)
    requires Undisturbed(s, t) && Undisturbed(t, u)
    ensures Undisturbed(s, u)
  {
    forall i | 0 <= i < |s.socks|
      ensures SameButClosing(s.socks[i], u.socks[i])
    {
      assert SameButClosing(s.socks[i], t.socks[i]) && SameButClosing(t.socks[i], u.socks[i]);
    }
  }

  lemma HeardIsKept(s: Cloud)
    requires Visiting(s)
    ensures
      var t := AlarmVisits(s, s.running.value.began, false);
      Undisturbed(s, t) && t.mailbox == s.mailbox && t.running == Some(Alarm(s.running.value.began, s.running.value.todo[1..]))
  {
  }

  lemma EndsUndisturbed(s: Cloud)
    requires s.running.Some?
    ensures
      var t := AlarmFinishes(s);
      Undisturbed(s, t) && t.running.None? && t.mailbox == CloudExpire(s.mailbox, s.running.value.began).0
  {
    hide OfferHook, PairingEnd, NextAlarm, Busy, CloudState.HostReady, CloudExpire, LapseHooks;
  }

  /** A pass that has begun can be ended so. */
  lemma {:induction false} PassEnds(s: Cloud, dk: string) returns (more: seq<Event>)
    requires s.running.Some? && PassInRange(s) && dk in s.blocked
    ensures WhileBlocked(s, more, dk)
    ensures
      var t := From(s, more);
      Undisturbed(s, t) && t.running.None? && t.mailbox == CloudExpire(s.mailbox, s.running.value.began).0
    decreases |s.running.value.todo|
  {
    hide Next, WhileBlocked, From, Undisturbed, CloudExpire;
    var began, todo := s.running.value.began, s.running.value.todo;
    if todo == [] {
      EndsUndisturbed(s);
      NextEnds(s);
      UndisturbedRules(s, AlarmFinishes(s));
      BlockedOne(s, AlarmEnds, dk);
      more := [AlarmEnds];
    } else {
      var e := AlarmLooks(began, false);
      assert todo[0] in todo;
      var t := AlarmVisits(s, began, false);
      NextLooks(s, e);
      HeardIsKept(s);
      UndisturbedRules(s, t);
      BlockedOne(s, e, dk);
      StillInRange(s, t);
      var rest := PassEnds(t, dk);
      BlockedRunsJoin(s, [e], rest, dk);
      UndisturbedJoins(s, t, From(t, rest));
      more := [e] + rest;
    }
  }

  lemma UndisturbedRules(s: Cloud, t: Cloud)
    requires Undisturbed(s, t)
    ensures t.blocked == s.blocked && |t.socks| == |s.socks| && t.now == s.now && t.owner == s.owner
  {
  }

  lemma StillInRange(s: Cloud, t: Cloud)
    requires PassInRange(s) && Visiting(s) && |t.socks| == |s.socks|
    requires t.running == Some(Alarm(s.running.value.began, s.running.value.todo[1..]))
    ensures PassInRange(t)
  {
    assert forall j :: j in s.running.value.todo[1..] ==> j in s.running.value.todo;
  }

  // ---- a socket that can still put ----

  /** A socket of the key can put, and a host waits to be ready. */
  ghost predicate Poised(s: Cloud, i: nat, h: nat, dk: string) {
    i < |s.socks| && CanPut(s.socks[i], dk) && AwaitsReady(s, h) && dk in s.blocked
  }

  lemma StaysPoised(s: Cloud, t: Cloud, i: nat, h: nat, dk: string)
    requires Poised(s, i, h, dk) && Undisturbed(s, t)
    ensures Poised(t, i, h, dk)
  {
    assert SameButClosing(s.socks[i], t.socks[i]) && SameButClosing(s.socks[h], t.socks[h]);
    forall j | 0 <= j < |t.socks|
      ensures !IsReadyHost(t.socks[j])
    {
      assert SameButClosing(s.socks[j], t.socks[j]) && !IsReadyHost(s.socks[j]);
    }
  }

  /** No row expires later. */
  function Latest(rows: seq<CloudRow>): (r: int)
    ensures forall i :: 0 <= i < |rows| ==> rows[i].item.exp <= r
  {
    if rows == [] then 0
    else
      var front, last := Latest(rows[..|rows| - 1]), rows[|rows| - 1].item.exp;
      if last > front then last else front
  }

  /** Until the alarm has gone off and every row held has expired. */
  function Outwait(s: Cloud): nat {
    ALARM_MS + if Latest(s.mailbox.rows) > s.now then Latest(s.mailbox.rows) - s.now else 0
  }

  lemma AlarmComes(s: Cloud, i: nat)
    requires RunInv(s) && s.running.None? && i < |s.socks| && s.socks[i].listed
    ensures s.alarm.Some? && s.alarm.value <= s.now + ALARM_MS
  {
    hide FlightInv, Foremost, SocketQuotas, PassInRange, OneHost, DeviceTimes, Authorized, HookInv;
  }

  lemma AllExpired(t: CloudTable, now: int)
    requires Latest(t.rows) <= now
    ensures CloudExpire(t, now).0.rows == []
  {
    FilterNone(t.rows, Except(PastExpiry(now)));
  }

  /** The queue can be waited out while the host has said nothing. */
  lemma QueueEmpties(s: Cloud, i: nat, h: nat, dk: string) returns (more: seq<Event>)
    requires RunInv(s) && s.running.None? && Poised(s, i, h, dk)
    ensures WhileBlocked(s, more, dk) && Poised(From(s, more), i, h, dk) && From(s, more).mailbox.rows == []
  {
    hide RunInv, WhileBlocked, From, Undisturbed, CloudExpire, AwaitsReady, PassInRange, CloudState.HostReady;
    var later, on := Next(s, Tick(Outwait(s))), AlarmFires(Next(s, Tick(Outwait(s))));
    AlarmComes(s, i);
    BlockedOne(s, Tick(Outwait(s)), dk);
    BlockedOne(later, AlarmBegins, dk);
    StillAwaits(s, on, h);
    BlockedRunsJoin(s, [Tick(Outwait(s))], [AlarmBegins], dk);
    FiredInRange(later);
    var pass := PassEnds(on, dk);
    BlockedRunsJoin(s, [Tick(Outwait(s))] + [AlarmBegins], pass, dk);
    StaysPoised(on, From(on, pass), i, h, dk);
    AllExpired(s.mailbox, later.now);
    more := [Tick(Outwait(s))] + [AlarmBegins] + pass;
  }

  lemma StillAwaits(s: Cloud, t: Cloud, h: nat)
    requires AwaitsReady(s, h) && t.socks == s.socks && t.owner == s.owner
    ensures AwaitsReady(t, h)
  {
  }

  lemma FiredInRange(s: Cloud)
    ensures PassInRange(AlarmFires(s))
  {
  }

  // ---- the smallest put ----

  function SmallestBlob(): seq<byte> { seq(MBOX_MIN_BLOB, i => 0) }

  function SmallestPut(): PutMsg { PutMsg(Text("n"), Text(Encode(SmallestBlob())), Absent) }

  lemma SmallestPutFits(now: int)
    ensures Screen(SmallestPut(), now, CLOUD_MAX_TEXT) == Fits(SmallestBlob(), now + MBOX_TTL_MS)
  {
    hide Decode, Encode;
    DecodesExactlyEncodings(Encode(SmallestBlob()), SmallestBlob());
    LengthChecks(Encode(SmallestBlob()), SmallestBlob());
  }

  function SaysPut(i: nat): Event { SocketSpeaks(i, OtherHostSaid, PutSaid(SmallestPut()), true) }

  lemma PutIsHeld(s: Cloud, i: nat, dk: string)
    requires i < |s.socks| && CanPut(s.socks[i], dk) && !CloudState.HostReady(s) && s.mailbox.rows == []
    ensures
      var row := CloudRow(s.mailbox.last + 1, Item(dk, "n", SmallestBlob(), s.now + MBOX_TTL_MS, Queued));
      Next(s, SaysPut(i)) == EnsureAlarm(s.(mailbox := CloudTable([row], s.mailbox.last + 1)), s.now + ALARM_MS)
  {
    hide Screen, CloudState.HostReady, SmallestBlob, Encode;
    SmallestPutFits(s.now);
    BlobLength();
  }

  lemma BlobLength()
    ensures |SmallestBlob()| == MBOX_MIN_BLOB
  {
  }

  lemma OnlyRowIsSent(row: CloudRow, last: nat, now: int)
    requires row.item.state.Queued? && row.item.exp > now
    ensures CloudDeliver(CloudTable([row], last), now).1 == Some(row)
  {
    assert row in [row];
  }

  /** The one row held is sent. */
  lemma OnlyRowReachesHost(s: Cloud, h: nat, row: CloudRow)
    requires AwaitsReady(s, h) && row.item.dk in s.blocked && s.mailbox.rows == [row] && row.item.state.Queued? && row.item.exp > s.now
    ensures WhileBlocked(s, [NobodyListed(s)], row.item.dk) && SendsOf(From(s, [NobodyListed(s)]), SaysReady(h), row.item.dk)
  {
    hide Next, WhileBlocked, From, Sent, CloudDeliver, Possible;
    ReadyIsSent(s, h, row.item.dk);
    OnlyRowIsSent(row, s.mailbox.last, s.now);
    assert s.mailbox == CloudTable([row], s.mailbox.last);
  }

  /** With the queue empty the socket puts an item, and the host is sent it. */
  lemma PutIsSent(s: Cloud, i: nat, h: nat, dk: string) returns (more: seq<Event>)
    requires Poised(s, i, h, dk) && s.mailbox.rows == []
    ensures WhileBlocked(s, more, dk) && SendsOf(From(s, more), SaysReady(h), dk)
  {
    hide Next, WhileBlocked, From, AwaitsReady, SendsOf, SmallestBlob, CanPut;
    NotReadyYet(s, h);
    PutIsHeld(s, i, dk);
    PutCan(s, i, h, dk);
    var t := Next(s, SaysPut(i));
    StillAwaits(s, t, h);
    BlockedOne(s, SaysPut(i), dk);
    OnlyRowReachesHost(t, h, t.mailbox.rows[0]);
    BlockedRunsJoin(s, [SaysPut(i)], [NobodyListed(t)], dk);
    more := [SaysPut(i)] + [NobodyListed(t)];
  }

  lemma PutCan(s: Cloud, i: nat, h: nat, dk: string)
    requires Poised(s, i, h, dk)
    ensures Possible(s, SaysPut(i)) && s.owner.Some?
  {
  }

  lemma BlockedRunKeeps(s: Cloud, more: seq<Event>, dk: string)
    requires RunInv(s) && WhileBlocked(s, more, dk)
    ensures RunInv(From(s, more)) && dk in From(s, more).blocked
  {
    hide RunInv, From;
    BlockedRunHappens(s, more, dk);
    RunKeeps(s, more);
    assert dk in From(s, more).blocked;
  }

  /** Any pass of the alarm can be over. */
  lemma NoPass(s: Cloud, i: nat, dk: string) returns (more: seq<Event>)
    requires RunInv(s) && dk in s.blocked && i < |s.socks| && CanPut(s.socks[i], dk)
    ensures WhileBlocked(s, more, dk)
    ensures
      var t := From(s, more);
      RunInv(t) && t.running.None? && dk in t.blocked && i < |t.socks| && CanPut(t.socks[i], dk)
  {
    hide RunInv, CloudExpire;
    if s.running.None? {
      more := [];
    } else {
      PassHasRange(s);
      more := PassEnds(s, dk);
      BlockedRunKeeps(s, more, dk);
      assert SameButClosing(s.socks[i], From(s, more).socks[i]);
    }
  }

  lemma PassHasRange(s: Cloud)
    requires RunInv(s)
    ensures PassInRange(s)
  {
    hide PassInRange, OneHost, DeviceTimes, CloudInv, FlightInv, Foremost, SocketQuotas;
  }

  lemma HostAwaits(s: Cloud, i: nat, dk: string)
    requires RunInv(s) && dk in s.blocked && s.running.None? && i < |s.socks| && CanPut(s.socks[i], dk)
    ensures WhileBlocked(s, [OwnerConnects(s)], dk)
    ensures
      var t := From(s, [OwnerConnects(s)]);
      RunInv(t) && t.running.None? && Poised(t, i, |s.socks|, dk)
  {
    hide RunInv, Next, AwaitsReady, WhileBlocked, From, CloudRequeue;
    RunInvParts(s);
    OwnerHasConnected(s);
    BlockedOne(s, OwnerConnects(s), dk);
    BlockedRunKeeps(s, [OwnerConnects(s)], dk);
  }

  /** From a socket that can put, the key's mail can come to a host. */
  lemma SocketStillPuts(s: Cloud, i: nat, dk: string) returns (more: seq<Event>, e: Event)
    requires RunInv(s) && dk in s.blocked && i < |s.socks| && CanPut(s.socks[i], dk)
    ensures WhileBlocked(s, more, dk) && SendsOf(From(s, more), e, dk)
  {
    hide RunInv, WhileBlocked, From, SendsOf, CanPut, Poised;
    var first := NoPass(s, i, dk);
    var t := From(s, first);
    var connects := [OwnerConnects(t)];
    HostAwaits(t, i, dk);
    BlockedRunsJoin(s, first, connects, dk);
    var u := From(t, connects);
    var waits := QueueEmpties(u, i, |t.socks|, dk);
    BlockedRunsJoin(s, first + connects, waits, dk);
    var v := From(u, waits);
    var puts := PutIsSent(v, i, |t.socks|, dk);
    BlockedRunsJoin(s, first + connects + waits, puts, dk);
    more, e := first + connects + waits + puts, SaysReady(|t.socks|);
  }

  // ---- exactly when ----

  /** After the block, while the key stays blocked, no event sends a host an item of it. */
  ghost predicate Silenced(s: Cloud, entries: seq<BlockEntry>, dk: string) {
    forall more: seq<Event>, e {:trigger SendsOf(From(Block(s, entries), more), e, dk)} ::
      WhileBlocked(Block(s, entries), more, dk) ==> !SendsOf(From(Block(s, entries), more), e, dk)
  }

  predicate Flies(r: CloudRow, dk: string, now: int) { r.item.dk == dk && r.item.state.Delivering? && r.item.exp > now }

  /** An unexpired item of the key is in flight. */
  predicate InFlightOf(s: Cloud, dk: string) {
    exists i :: 0 <= i < |s.mailbox.rows| && Flies(s.mailbox.rows[i], dk, s.now)
  }

  /** The relay has a socket of the key that it has not let go of and that is not pairing. */
  predicate SocketOf(s: Cloud, dk: string) {
    exists i :: 0 <= i < |s.socks| && CanPut(s.socks[i], dk)
  }

  /**
   * A block keeps a named key's mail from the host, as long as the key stays blocked and whatever else happens, if and
   * only if no unexpired item of the key is in flight and no socket of it is connected when the block comes.
   */
  lemma BlockSilencesExactly(s: Cloud, entries: seq<BlockEntry>, dk: string)
    requires Reachable(s) && Named(entries, dk)
    ensures Silenced(s, entries, dk) <==> !InFlightOf(s, dk) && !SocketOf(s, dk)
  {
    hide Reachable, RunInv, Block, Named, SendsOf, CanPut, WhileBlocked, From;
    var b := Block(s, entries);
    BlockReachable(s, entries);
    ReachableRun(b);
    BlockedState(s, entries, dk);
    if InFlightOf(s, dk) {
      var i :| 0 <= i < |s.mailbox.rows| && Flies(s.mailbox.rows[i], dk, s.now);
      var more, e := InFlightIsSentAgain(b, s.mailbox.rows[i]);
      SentIsOf(From(b, more), e, s.mailbox.rows[i]);
    } else if SocketOf(s, dk) {
      var i :| 0 <= i < |s.socks| && CanPut(s.socks[i], dk);
      var more, e := SocketStillPuts(b, i, dk);
    } else {
      forall more: seq<Event>, e | WhileBlocked(b, more, dk)
        ensures !SendsOf(From(b, more), e, dk)
      {
        if SendsOf(From(b, more), e, dk) {
          NeitherWay(s, entries, more, e, dk);
        }
      }
    }
  }

  lemma SentIsOf(s: Cloud, e: Event, r: CloudRow)
    requires Possible(s, e) && Sent(s, e) == Some(MailState(r, Queued))
    ensures SendsOf(s, e, r.item.dk)
  {
    hide Sent;
  }

  lemma NeitherWay(s: Cloud, entries: seq<BlockEntry>, more: seq<Event>, e: Event, dk: string)
    requires Reachable(s) && Named(entries, dk)
    requires WhileBlocked(Block(s, entries), more, dk) && SendsOf(From(Block(s, entries), more), e, dk)
    ensures InFlightOf(s, dk) || SocketOf(s, dk)
  {
    hide Reachable, Block, Named, CanPut, WhileBlocked, From, Sent, Next;
    BlockedState(s, entries, dk);
    SentAfterBlock(s, entries, more, e, dk);
    var r := Sent(From(Block(s, entries), more), e).value;
    if MailState(r, Delivering) in s.mailbox.rows {
      var i :| 0 <= i < |s.mailbox.rows| && s.mailbox.rows[i] == MailState(r, Delivering);
    }
  }
}
