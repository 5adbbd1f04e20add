/**
 * No webhook delivery is lost on the way: every accepted one is held until it is acknowledged, its hook is removed, or
 * it runs out, over whole runs of the cloud relay.
 */
module CloudHooks {
  import opened Wrappers
  import opened Sequences
  import opened Base64Url
  import opened Acls
  import opened MailboxItems
  import opened CloudMailbox
  import opened Hookbox
  import opened CloudState
  import opened CloudInvariants
  import opened CloudAlarms
  import opened CloudInFlight
  import CloudMail
  import opened CloudRuns

  // ---- tables that hold the same deliveries ----

  /** The delivery is in the table, in whatever state. */
  ghost predicate Kept(t: HookTable, r: HookRow) {
    exists q :: q in t.rows && SameHook(q, r)
  }

  /** The delivery is in the table as it is, but for its state. */
  ghost predicate HeldAs(t: HookTable, r: HookRow) {
    exists q :: q in t.rows && q == r.(state := q.state)
  }

  /** The two hold the same deliveries, but for their state. */
  ghost predicate Matches(t: HookTable, u: HookTable) {
    && u.last == t.last
    && (forall r :: r in t.rows ==> HeldAs(u, r))
    && (forall r :: r in u.rows ==> HeldAs(t, r))
  }

  lemma KeptItself(t: HookTable, r: HookRow)
    requires r in t.rows
    ensures Kept(t, r) && HeldAs(t, r)
  {
    assert SameHook(r, r);
    assert r == r.(state := r.state);
  }

  lemma HeldIsKept(t: HookTable, r: HookRow)
    requires HeldAs(t, r)
    ensures Kept(t, r)
  {
    var q :| q in t.rows && q == r.(state := q.state);
    assert SameHook(q, r);
  }

  lemma MatchesSelf(t: HookTable)
    ensures Matches(t, t)
  {
    forall r | r in t.rows
      ensures HeldAs(t, r)
    {
      KeptItself(t, r);
    }
  }

  lemma HeldThrough(t: HookTable, u: HookTable, r: HookRow)
    requires Matches(t, u) && HeldAs(t, r)
    ensures HeldAs(u, r)
  {
    var q :| q in t.rows && q == r.(state := q.state);
    assert HeldAs(u, q);
    var p :| p in u.rows && p == q.(state := p.state);
    assert p == r.(state := p.state);
  }

  lemma KeptThrough(t: HookTable, u: HookTable, r: HookRow)
    requires Matches(t, u) && Kept(t, r)
    ensures Kept(u, r)
  {
    var q :| q in t.rows && SameHook(q, r);
    assert HeldAs(u, q);
    var p :| p in u.rows && p == q.(state := p.state);
    assert SameHook(p, r);
  }

  lemma MatchesBack(t: HookTable, u: HookTable)
    requires Matches(t, u)
    ensures Matches(u, t)
  {
  }

  lemma MatchesJoins(t: HookTable, u: HookTable, v: HookTable)
    requires Matches(t, u) && Matches(u, v)
    ensures Matches(t, v)
  {
    hide HeldAs;
    forall r | r in t.rows
      ensures HeldAs(v, r)
    {
      HeldThrough(u, v, r);
    }
    MatchesBack(t, u);
    forall r | r in v.rows
      ensures HeldAs(t, r)
    {
      HeldThrough(u, t, r);
    }
  }

  lemma UpdateMatches(t: HookTable, f: HookRow -> HookRow)
    requires forall r :: r in t.rows ==> f(r) == r.(state := f(r).state)
    ensures Matches(t, t.(rows := Map(t.rows, f)))
  {
    var u := t.(rows := Map(t.rows, f));
    forall r | r in t.rows
      ensures HeldAs(u, r)
    {
      var i :| 0 <= i < |t.rows| && t.rows[i] == r;
      assert u.rows[i] in u.rows;
    }
    forall r | r in u.rows
      ensures HeldAs(t, r)
    {
      var q := Restated(t.rows, f, r);
      assert q == r.(state := q.state);
    }
  }

  lemma OfferMatches(t: HookTable, at: int)
    ensures Matches(t, OfferHook(t, at).0)
  {
    hide Matches;
    MatchesSelf(t);
    if OfferHook(t, at).1.Some? {
      UpdateMatches(t, HookSends(OfferHook(t, at).1.value.seq_));
    }
  }

  lemma PutBackMatches(t: HookTable)
    ensures Matches(t, PutHooksBack(t))
  {
    UpdateMatches(t, HookPutsBack());
  }

  // ---- the table an event leaves, but for states and waits ----

  /** The host's frame reaches its handler: the socket is a host's, and the relay has not let go of it. */
  predicate HostHeard(s: Cloud, e: Event)
    requires Possible(s, e)
  {
    e.SocketSpeaks? && s.socks[e.i].retired.None? && s.socks[e.i].role.AsHost?
  }

  function Base(s: Cloud, e: Event): HookTable
    requires Possible(s, e)
  {
    match e
    case HookArrives(id, delivery, size) => QueueHook(s.hookbox, id, delivery, size, s.now).0
    case AlarmEnds => LapseHooks(s.hookbox, s.running.value.began)
    case SocketSpeaks(i, says, _, _) =>
      if !HostHeard(s, e) then s.hookbox
      else
        (match says
         case HooksSaid(ids) => DropHooks(s.hookbox, ids)
         case HookAckSaid(number, retry) => AckHook(s.hookbox, number, retry, s.now)
         case _ => s.hookbox)
    case _ => s.hookbox
  }

  lemma BookkeepMatches(s: Cloud, role: Role, at: int)
    ensures Matches(s.hookbox, Bookkeep(s, role, at).hookbox)
  {
    hide PutHooksBack, Matches;
    MatchesSelf(s.hookbox);
    PutBackMatches(s.hookbox);
  }

  lemma RetireMatches(s: Cloud, i: nat, at: int)
    requires i < |s.socks|
    ensures Matches(s.hookbox, Retire(s, i, at).hookbox)
  {
    hide Bookkeep, Matches;
    var k := s.socks[i];
    BookkeepMatches(s.(socks := s.socks[i := k.(role := Unready(k.role), retired := Some(at))]), k.role, at);
  }

  lemma {:induction false} RetireHostsMatches(s: Cloud, n: nat)
    requires n <= |s.socks|
    ensures Matches(s.hookbox, RetireHosts(s, n).hookbox)
  {
    hide Matches, Retire;
    MatchesSelf(s.hookbox);
    if n > 0 {
      RetireHostsMatches(s, n - 1);
      var t := RetireHosts(s, n - 1);
      RetireMatches(t, n - 1, s.now);
      MatchesJoins(s.hookbox, t.hookbox, Retire(t, n - 1, s.now).hookbox);
    }
  }

  lemma AcceptHostMatches(s: Cloud, kid: string, computer: string)
    ensures Matches(s.hookbox, AcceptHost(s, kid, computer).hookbox)
  {
    hide Matches, RetireHosts;
    MatchesSelf(s.hookbox);
    var owned := if s.owner.None? then s.(owner := Some((kid, computer))) else s;
    RetireHostsMatches(owned, |s.socks|);
  }

  lemma HostFrameMatches(s: Cloud, e: Event)
    requires Possible(s, e) && HostHeard(s, e)
    ensures Matches(Base(s, e), Next(s, e).hookbox)
  {
    hide Matches, OfferHook, AckHook, AckedHook, DropHooks, CloudDeliver, CloudAck, AckOutcome, Wait;
    MatchesSelf(Base(s, e));
    MatchesSelf(s.hookbox);
    OfferMatches(s.hookbox, s.now);
    OfferMatches(Base(s, e), s.now);
  }

  lemma DeviceFrameMatches(s: Cloud, e: Event)
    requires Possible(s, e) && e.SocketSpeaks? && !HostHeard(s, e)
    ensures Matches(Base(s, e), Next(s, e).hookbox)
  {
    hide Matches, CloudPut, CloudCancel, HostReady;
    MatchesSelf(s.hookbox);
  }

  lemma OthersMatch(s: Cloud, e: Event)
    requires Possible(s, e) && !e.SocketSpeaks?
    ensures Matches(Base(s, e), Next(s, e).hookbox)
  {
    hide Matches, AcceptHost, AcceptDevice, BlockKeys, Bookkeep, Retire, First, HookRoom, OfferHook, LapseHooks, HostReady,
      ListedNumbers, CloudExpire, NextAlarm, Busy, ShutOut, StillBlocked, NamedDevices, PairingOver;
    MatchesSelf(s.hookbox);
    MatchesSelf(Base(s, e));
    match e
    case HostConnects(kid, computer) => AcceptHostMatches(s, kid, computer);
    case DeviceConnects(dk, offer) => DeviceAdded(s, dk, offer);
    case HookArrives(_, _, _) => OfferMatches(Base(s, e), s.now);
    case SocketCloses(i) =>
      var k := s.socks[i];
      BookkeepMatches(s.(socks := s.socks[i := k.(listed := false, closing := true)]), k.role, s.now);
    case AlarmLooks(pong, awake) =>
      var t := s.(running := Some(Alarm(s.running.value.began, s.running.value.todo[1..])));
      RetireMatches(t, s.running.value.todo[0], s.running.value.began);
    case AlarmEnds => OfferMatches(Base(s, e), s.running.value.began);
    case _ =>
  }

  lemma NextMatches(s: Cloud, e: Event)
    requires Possible(s, e)
    ensures Matches(Base(s, e), Next(s, e).hookbox)
  {
    hide Matches, Next, Base;
    if !e.SocketSpeaks? {
      OthersMatch(s, e);
    } else if HostHeard(s, e) {
      HostFrameMatches(s, e);
    } else {
      DeviceFrameMatches(s, e);
    }
  }

  // ---- how a delivery leaves, and how it comes ----

  datatype HookFate = Finished | Removed | RanOut

  /** The host is done with the delivery, which is in flight: it acknowledges it and asks for no retry. */
  predicate Finishes(s: Cloud, e: Event, r: HookRow)
    requires Possible(s, e)
  {
    HostHeard(s, e) && r.state.Delivering? && e.hostSays == HookAckSaid(Some(r.seq_), false)
  }

  /** The host's new set of hooks lacks the delivery's, which is queued. */
  predicate Removes(s: Cloud, e: Event, r: HookRow)
    requires Possible(s, e)
  {
    HostHeard(s, e) && r.state.Queued? && e.hostSays.HooksSaid? && r.hook !in e.hostSays.ids
  }

  /** An alarm that began when the delivery's time was over ends, and the delivery is queued. */
  predicate Lapses(s: Cloud, e: Event, r: HookRow)
    requires Possible(s, e)
  {
    e.AlarmEnds? && r.state.Queued? && r.exp <= s.running.value.began
  }

  predicate Leaves(s: Cloud, e: Event, r: HookRow)
    requires Possible(s, e)
  {
    Finishes(s, e, r) || Removes(s, e, r) || Lapses(s, e, r)
  }

  /** The sender's request is queued: it repeats no held delivery of the hook, and the quotas allow one more. */
  predicate Queues(s: Cloud, e: Event) {
    && e.HookArrives?
    && (forall r :: r in s.hookbox.rows && r.hook == e.id ==> r.delivery != e.delivery)
    && |Filter(s.hookbox.rows, (r: HookRow) => r.hook == e.id)| < 100
    && |s.hookbox.rows| < 1000 && Sum(s.hookbox.rows, (r: HookRow) => r.size) + e.size <= 16 * 1024 * 1024
  }

  lemma SameSeq(t: HookTable, r: HookRow, q: HookRow)
    requires HookOrdered(t) && r in t.rows && q in t.rows && r.seq_ == q.seq_
    ensures r == q
  {
    KeysTellApart(t.rows, HookSeq(), r, q);
  }

  /** The sender is told that it repeats a held delivery, that it is queued, or else that the queue is full. */
  lemma SenderIsTold(s: Cloud, e: Event)
    requires e.HookArrives?
    ensures
      var told := QueueHook(s.hookbox, e.id, e.delivery, e.size, s.now).1;
      && (told.HookQueued? <==> Queues(s, e))
      && (told.Duplicate? <==> exists r :: r in s.hookbox.rows && r.hook == e.id && r.delivery == e.delivery)
  {
    var p := (r: HookRow) => r.hook == e.id;
    FilterSame(s.hookbox.rows, OfHook(e.id), p);
    SumSame(s.hookbox.rows, HookSize(), (r: HookRow) => r.size);
    var found := First(s.hookbox.rows, HookKeyed(e.id, e.delivery));
    if found.None? {
      forall r | r in s.hookbox.rows && r.hook == e.id
        ensures r.delivery != e.delivery
      {
        assert !HookKeyed(e.id, e.delivery)(r);
      }
    }
  }

  lemma FilterKeeps(t: HookTable, keep: HookRow -> bool, r: HookRow)
    requires HookOrdered(t) && r in t.rows
    ensures Kept(t.(rows := Filter(t.rows, keep)), r) <==> keep(r)
  {
    if keep(r) {
      KeptItself(t.(rows := Filter(t.rows, keep)), r);
    } else if Kept(t.(rows := Filter(t.rows, keep)), r) {
      var q :| q in Filter(t.rows, keep) && SameHook(q, r);
      SameSeq(t, q, r);
    }
  }

  /** What the base of an event still holds of the deliveries before it. */
  lemma BaseKeeps(s: Cloud, e: Event, r: HookRow)
    requires Possible(s, e) && HookOrdered(s.hookbox) && r in s.hookbox.rows
    ensures Kept(Base(s, e), r) <==> !Leaves(s, e, r)
  {
    hide Kept, Next, HookOrdered, Filter, Map, Wait;
    var t := s.hookbox;
    KeptItself(t, r);
    match e
    case HookArrives(id, delivery, size) =>
      if Base(s, e) != t {
        assert r in Base(s, e).rows;
        KeptItself(Base(s, e), r);
      }
    case AlarmEnds => FilterKeeps(t, HookFresh(s.running.value.began), r);
    case SocketSpeaks(i, says, _, _) =>
      if HostHeard(s, e) && says.HooksSaid? {
        FilterKeeps(t, HookKept(says.ids), r);
      } else if HostHeard(s, e) && says.HookAckSaid? {
        AckKeeps(t, says.number, says.retry, s.now, r);
      }
    case _ =>
  }

  lemma RetryKept(t: HookTable, n: nat, due: int, r: HookRow)
    requires r in t.rows
    ensures Kept(t.(rows := Map(t.rows, HookRetries(n, due))), r)
    ensures r.seq_ != n ==> r in Map(t.rows, HookRetries(n, due))
    ensures r.seq_ == n ==> r.(state := Queued, attempts := r.attempts + 1, notBefore := due) in Map(t.rows, HookRetries(n, due))
  {
    var i :| 0 <= i < |t.rows| && t.rows[i] == r;
    var q := Map(t.rows, HookRetries(n, due))[i];
    assert q in Map(t.rows, HookRetries(n, due)) && SameHook(q, r);
  }

  lemma AckKeeps(t: HookTable, number: Option<int>, retry: bool, now: int, r: HookRow)
    requires HookOrdered(t) && r in t.rows
    ensures Kept(AckHook(t, number, retry, now), r) <==> retry || !r.state.Delivering? || number != Some(r.seq_)
  {
    hide Kept, Wait, HookOrdered, Filter, Map, Matches;
    KeptItself(t, r);
    if number.Some? && r.state.Delivering? && number.value == r.seq_ {
      assert HookAcked(number.value)(r);
    }
    var row := AckedHook(t, number);
    if row.Some? {
      if row.value.seq_ == r.seq_ {
        SameSeq(t, row.value, r);
      }
      if retry {
        RetryKept(t, row.value.seq_, now + Wait(row.value.attempts), r);
      } else {
        FilterKeeps(t, HookOther(row.value.seq_), r);
      }
    }
  }

  /**
   * A held delivery leaves exactly by an acknowledgement without retry while it is in flight, by a set of hooks without
   * its own while it is queued, or by an alarm that began after it ran out while it is queued. Every other event, a
   * host that leaves or a retry included, keeps it.
   */
  lemma DeliveryLeavesExactly(s: Cloud, e: Event, r: HookRow)
    requires Reachable(s) && Possible(s, e) && r in s.hookbox.rows
    ensures Kept(Next(s, e).hookbox, r) <==> !Leaves(s, e, r)
  {
    hide Reachable, Next, Base, Kept, Leaves, Authorized, AlarmSet, Began, LogOk, FlightInv;
    ReachableInv(s);
    HooksAreInOrder(s.hookbox, s.now);
    OneEventLeaves(s, e, r);
  }

  /** The host asks for the delivery in flight again. */
  predicate Refuses(s: Cloud, e: Event, r: HookRow)
    requires Possible(s, e)
  {
    HostHeard(s, e) && r.state.Delivering? && e.hostSays == HookAckSaid(Some(r.seq_), true)
  }

  /** The delivery with one more refusal, to wait as long as the back-off says. */
  function Refused(r: HookRow, now: int): HookRow { r.(attempts := r.attempts + 1, notBefore := now + Wait(r.attempts)) }

  lemma BaseHoldsAs(s: Cloud, e: Event, r: HookRow)
    requires Possible(s, e) && HookOrdered(s.hookbox) && r in s.hookbox.rows && !Leaves(s, e, r)
    ensures HeldAs(Base(s, e), if Refuses(s, e, r) then Refused(r, s.now) else r)
  {
    hide HeldAs, Next, HookOrdered, Map, Wait;
    var t := s.hookbox;
    KeptItself(t, r);
    if e.SocketSpeaks? && HostHeard(s, e) && e.hostSays.HookAckSaid? {
      AckHoldsAs(t, e.hostSays.number, e.hostSays.retry, s.now, r);
    } else {
      assert r in Base(s, e).rows;
      KeptItself(Base(s, e), r);
    }
  }

  lemma AckHoldsAs(t: HookTable, number: Option<int>, retry: bool, now: int, r: HookRow)
    requires HookOrdered(t) && r in t.rows && (retry || !r.state.Delivering? || number != Some(r.seq_))
    ensures HeldAs(AckHook(t, number, retry, now),
                   if retry && r.state.Delivering? && number == Some(r.seq_) then Refused(r, now) else r)
  {
    hide HeldAs, Wait, HookOrdered, Map;
    KeptItself(t, r);
    if number.Some? && r.state.Delivering? && number.value == r.seq_ {
      assert HookAcked(number.value)(r);
    }
    var row := AckedHook(t, number);
    if row.Some? {
      if row.value.seq_ == r.seq_ {
        SameSeq(t, row.value, r);
      }
      if retry {
        var due := now + Wait(row.value.attempts);
        RetryKept(t, row.value.seq_, due, r);
        var u := AckHook(t, number, retry, now);
        RefusedHeld(u, r, due);
        if r.seq_ != row.value.seq_ {
          KeptItself(u, r);
        }
      } else {
        KeptItself(AckHook(t, number, retry, now), r);
      }
    }
  }

  lemma RefusedHeld(u: HookTable, r: HookRow, due: int)
    ensures r.(state := Queued, attempts := r.attempts + 1, notBefore := due) in u.rows ==>
      HeldAs(u, r.(attempts := r.attempts + 1, notBefore := due))
  {
  }

  /**
   * A delivery that stays is what it was, but for its state; only a refusal while it is in flight counts one more
   * attempt and has it wait as long as the back-off says.
   */
  lemma RefusedExactly(s: Cloud, e: Event, r: HookRow)
    requires Reachable(s) && Possible(s, e) && r in s.hookbox.rows && !Leaves(s, e, r)
    ensures HeldAs(Next(s, e).hookbox, if Refuses(s, e, r) then Refused(r, s.now) else r)
  {
    hide Reachable, Next, Base, HeldAs, Leaves, Refuses, Authorized, AlarmSet, Began, LogOk, FlightInv;
    ReachableInv(s);
    HooksAreInOrder(s.hookbox, s.now);
    BaseHoldsAs(s, e, r);
    NextMatches(s, e);
    HeldThrough(Base(s, e), Next(s, e).hookbox, if Refuses(s, e, r) then Refused(r, s.now) else r);
  }

  lemma OneEventLeaves(s: Cloud, e: Event, r: HookRow)
    requires HookOrdered(s.hookbox) && Possible(s, e) && r in s.hookbox.rows
    ensures Kept(Next(s, e).hookbox, r) <==> !Leaves(s, e, r)
  {
    hide Next, Base, Kept, Leaves;
    BaseKeeps(s, e, r);
    NextMatches(s, e);
    if Kept(Base(s, e), r) {
      KeptThrough(Base(s, e), Next(s, e).hookbox, r);
    }
    if Kept(Next(s, e).hookbox, r) {
      MatchesBack(Base(s, e), Next(s, e).hookbox);
      KeptThrough(Next(s, e).hookbox, Base(s, e), r);
    }
  }

  lemma HooksAreInOrder(t: HookTable, now: int)
    requires HooksValid(t, now)
    ensures HookOrdered(t)
  {
  }

  /** The delivery as it is queued: to be kept for 72 hours, and not refused yet. */
  function Arrived(s: Cloud, e: Event): HookRow
    requires e.HookArrives?
  {
    HookRow(s.hookbox.last + 1, e.id, e.delivery, e.size, s.now, s.now + 259_200_000, Queued, 0, 0)
  }

  lemma BaseComes(s: Cloud, e: Event)
    requires Possible(s, e)
    ensures Queues(s, e) ==> e.HookArrives?
    ensures Base(s, e).last == s.hookbox.last + (if Queues(s, e) then 1 else 0)
    ensures Queues(s, e) ==> Arrived(s, e) in Base(s, e).rows
    ensures forall q :: q in Base(s, e).rows ==> Kept(s.hookbox, q) || (Queues(s, e) && q == Arrived(s, e))
  {
    hide Queues, Next, First, HookRoom, Filter, Map, Wait, Kept, Matches;
    QueuesArrives(s, e);
    if e.HookArrives? {
      SenderIsTold(s, e);
    }
    forall q | q in s.hookbox.rows
      ensures Kept(s.hookbox, q)
    {
      KeptItself(s.hookbox, q);
    }
    if e.SocketSpeaks? && HostHeard(s, e) && e.hostSays.HookAckSaid? {
      AckStems(s.hookbox, e.hostSays.number, e.hostSays.retry, s.now);
    }
  }

  lemma QueuesArrives(s: Cloud, e: Event)
    ensures Queues(s, e) ==> e.HookArrives?
  {
  }

  lemma AckStems(t: HookTable, number: Option<int>, retry: bool, now: int)
    ensures AckHook(t, number, retry, now).last == t.last
    ensures forall q :: q in AckHook(t, number, retry, now).rows ==> Kept(t, q)
  {
    hide Kept, Wait, Filter, Map, Matches;
    forall q | q in t.rows
      ensures Kept(t, q)
    {
      KeptItself(t, q);
    }
    var row := AckedHook(t, number);
    if row.Some? && retry {
      forall q | q in AckHook(t, number, retry, now).rows
        ensures Kept(t, q)
      {
        var r := Restated(t.rows, HookRetries(row.value.seq_, now + Wait(row.value.attempts)), q);
        KeptByOther(t, r, q);
      }
    }
  }

  lemma KeptByOther(t: HookTable, r: HookRow, q: HookRow)
    requires r in t.rows && SameHook(r, q)
    ensures Kept(t, q)
  {
  }

  /** What is held after an event was held before it, or is the request it queued; and what it queued is held. */
  lemma ComesExactly(s: Cloud, e: Event, q: HookRow)
    requires Possible(s, e)
    ensures Queues(s, e) ==> e.HookArrives? && Kept(Next(s, e).hookbox, Arrived(s, e))
    ensures Next(s, e).hookbox.last == s.hookbox.last + (if Queues(s, e) then 1 else 0)
    ensures q in Next(s, e).hookbox.rows ==> Kept(s.hookbox, q) || (Queues(s, e) && SameHook(q, Arrived(s, e)))
  {
    hide Queues, Next, Base, Kept;
    BaseComes(s, e);
    NextMatches(s, e);
    BaseIsNext(s, e);
    if q in Next(s, e).hookbox.rows {
      Traces(Base(s, e), Next(s, e).hookbox, s.hookbox, q);
    }
  }

  lemma BaseIsNext(s: Cloud, e: Event)
    requires Possible(s, e) && Matches(Base(s, e), Next(s, e).hookbox)
    ensures forall r :: r in Base(s, e).rows ==> Kept(Next(s, e).hookbox, r)
    ensures Next(s, e).hookbox.last == Base(s, e).last
  {
    hide Next, Base, Kept, HeldAs;
    forall r | r in Base(s, e).rows
      ensures Kept(Next(s, e).hookbox, r)
    {
      HeldIsKept(Next(s, e).hookbox, r);
    }
  }

  /** A row of `u` is a row of `t`, but for its state, and so one of `before` if that is. */
  lemma Traces(t: HookTable, u: HookTable, before: HookTable, q: HookRow)
    requires Matches(t, u) && q in u.rows
    ensures exists p :: p in t.rows && SameHook(p, q) && (Kept(before, p) ==> Kept(before, q))
  {
    assert HeldAs(t, q);
    var p :| p in t.rows && p == q.(state := p.state);
    assert SameHook(p, q);
    if Kept(before, p) {
      var o :| o in before.rows && SameHook(o, p);
      assert SameHook(o, q);
    }
  }

  // ---- which delivery the host is offered ----

  /** A ready host's socket is listed. */
  ghost predicate HostThere(s: Cloud) {
    exists i :: 0 <= i < |s.socks| && s.socks[i].listed && s.socks[i].role.AsHost? && s.socks[i].role.ready
  }

  lemma HostThereIs(s: Cloud)
    ensures HostThere(s) <==> HostReady(s)
  {
    if HostThere(s) {
      var i :| 0 <= i < |s.socks| && s.socks[i].listed && s.socks[i].role.AsHost? && s.socks[i].role.ready;
      assert IsReadyHost(s.socks[i]);
    }
  }

  /** The time the event offers deliveries for, if it does: the host becomes ready, answers one while ready, or is ready
      when one is queued or an alarm ends. */
  ghost function OffersAt(s: Cloud, e: Event): Option<int>
    requires Possible(s, e)
  {
    if HostHeard(s, e) && e.hostSays.ReadySaid? && !s.socks[e.i].role.ready && s.acl.Some? then Some(s.now)
    else if HostHeard(s, e) && e.hostSays.HookAckSaid? && s.socks[e.i].role.ready then Some(s.now)
    else if Queues(s, e) && HostThere(s) then Some(s.now)
    else if e.AlarmEnds? && HostThere(s) then Some(s.running.value.began)
    else None
  }

  /** The delivery is queued, has not run out and has waited. */
  predicate IsDue(r: HookRow, at: int) { r.state.Queued? && r.exp > at && r.notBefore <= at }

  /** What is in flight was before. */
  ghost predicate NoLaunch(t: HookTable, u: HookTable) {
    forall q :: q in u.rows && q.state.Delivering? ==> q in t.rows
  }

  lemma BookkeepNoLaunch(s: Cloud, role: Role, at: int)
    ensures NoLaunch(s.hookbox, Bookkeep(s, role, at).hookbox)
  {
    forall q | q in PutHooksBack(s.hookbox).rows
      ensures q.state.Queued?
    {
      var r := Restated(s.hookbox.rows, HookPutsBack(), q);
    }
  }

  lemma RetireNoLaunch(s: Cloud, i: nat, at: int)
    requires i < |s.socks|
    ensures NoLaunch(s.hookbox, Retire(s, i, at).hookbox)
  {
    hide Bookkeep;
    var k := s.socks[i];
    BookkeepNoLaunch(s.(socks := s.socks[i := k.(role := Unready(k.role), retired := Some(at))]), k.role, at);
  }

  lemma {:induction false} RetireHostsNoLaunch(s: Cloud, n: nat)
    requires n <= |s.socks|
    ensures NoLaunch(s.hookbox, RetireHosts(s, n).hookbox)
  {
    hide Retire;
    if n > 0 {
      RetireHostsNoLaunch(s, n - 1);
      RetireNoLaunch(RetireHosts(s, n - 1), n - 1, s.now);
    }
  }

  lemma AckNoLaunch(t: HookTable, number: Option<int>, retry: bool, now: int)
    ensures NoLaunch(t, AckHook(t, number, retry, now))
  {
    hide Wait;
    var row := AckedHook(t, number);
    if row.Some? && retry {
      forall q | q in AckHook(t, number, retry, now).rows && q.state.Delivering?
        ensures q in t.rows
      {
        var r := Restated(t.rows, HookRetries(row.value.seq_, now + Wait(row.value.attempts)), q);
      }
    }
  }

  lemma BaseNoLaunch(s: Cloud, e: Event)
    requires Possible(s, e)
    ensures NoLaunch(s.hookbox, Base(s, e))
  {
    hide First, HookRoom, AckHook, NoLaunch;
    if e.SocketSpeaks? && HostHeard(s, e) && e.hostSays.HookAckSaid? {
      AckNoLaunch(s.hookbox, e.hostSays.number, e.hostSays.retry, s.now);
    } else {
      FewerNoLaunch(s, e);
    }
  }

  lemma FewerNoLaunch(s: Cloud, e: Event)
    requires Possible(s, e) && !(e.SocketSpeaks? && HostHeard(s, e) && e.hostSays.HookAckSaid?)
    ensures NoLaunch(s.hookbox, Base(s, e))
  {
    hide First, HookRoom;
  }

  /** The table after the event is the base with the next delivery in flight, if the event offers any. */
  lemma NextOffers(s: Cloud, e: Event)
    requires Possible(s, e)
    ensures OffersAt(s, e).Some? ==> Next(s, e).hookbox == OfferHook(Base(s, e), OffersAt(s, e).value).0
    ensures OffersAt(s, e).None? ==> NoLaunch(s.hookbox, Next(s, e).hookbox)
  {
    hide NoLaunch, Next, Base, OffersAt;
    if e.SocketSpeaks? {
      FrameOffers(s, e);
    } else {
      OthersOffer(s, e);
    }
  }

  lemma FrameOffers(s: Cloud, e: Event)
    requires Possible(s, e) && e.SocketSpeaks?
    ensures OffersAt(s, e).Some? ==> Next(s, e).hookbox == OfferHook(Base(s, e), OffersAt(s, e).value).0
    ensures OffersAt(s, e).None? ==> NoLaunch(s.hookbox, Next(s, e).hookbox)
  {
    hide NoLaunch, OfferHook, AckHook, AckedHook, DropHooks, CloudDeliver, CloudAck, AckOutcome, Wait, CloudPut, CloudCancel, HostReady, HostThere;
    BaseNoLaunch(s, e);
    SameNoLaunch(s.hookbox);
  }

  lemma SameNoLaunch(t: HookTable)
    ensures NoLaunch(t, t)
  {
  }

  lemma OthersOffer(s: Cloud, e: Event)
    requires Possible(s, e) && !e.SocketSpeaks?
    ensures OffersAt(s, e).Some? ==> Next(s, e).hookbox == OfferHook(Base(s, e), OffersAt(s, e).value).0
    ensures OffersAt(s, e).None? ==> NoLaunch(s.hookbox, Next(s, e).hookbox)
  {
    hide NoLaunch, AcceptHost, AcceptDevice, BlockKeys, Bookkeep, Retire, QueueHook, OfferHook, LapseHooks, HostReady, ListedNumbers,
      CloudExpire, NextAlarm, Busy, ShutOut, StillBlocked, NamedDevices, PairingOver, Queues, HostThere;
    SameNoLaunch(s.hookbox);
    BaseNoLaunch(s, e);
    HostThereIs(s);
    match e
    case HostConnects(kid, computer) => ConnectNoLaunch(s, kid, computer);
    case DeviceConnects(dk, offer) =>
      DeviceAdded(s, dk, offer);
      QueuesArrives(s, e);
    case HookArrives(id, delivery, size) =>
      SenderIsTold(s, e);
      NotQueuedSame(s.hookbox, id, delivery, size, s.now);
    case SocketCloses(i) =>
      var k := s.socks[i];
      QueuesArrives(s, e);
      BookkeepNoLaunch(s.(socks := s.socks[i := k.(listed := false, closing := true)]), k.role, s.now);
    case AlarmLooks(pong, awake) =>
      QueuesArrives(s, e);
      var t := s.(running := Some(Alarm(s.running.value.began, s.running.value.todo[1..])));
      RetireNoLaunch(t, s.running.value.todo[0], s.running.value.began);
    case _ => QueuesArrives(s, e);
  }

  lemma ConnectNoLaunch(s: Cloud, kid: string, computer: string)
    ensures NoLaunch(s.hookbox, AcceptHost(s, kid, computer).hookbox) && !Queues(s, HostConnects(kid, computer))
  {
    hide RetireHosts, NoLaunch;
    SameNoLaunch(s.hookbox);
    var owned := if s.owner.None? then s.(owner := Some((kid, computer))) else s;
    RetireHostsNoLaunch(owned, |s.socks|);
  }

  lemma NotQueuedSame(t: HookTable, id: string, delivery: string, size: nat, now: int)
    ensures !QueueHook(t, id, delivery, size, now).1.HookQueued? ==> QueueHook(t, id, delivery, size, now).0 == t
  {
    hide HookRoom, First;
  }

  lemma OffersOldest(t: HookTable, at: int, r: HookRow)
    requires HookOrdered(t)
    ensures OfferHook(t, at).1 == Some(r) <==>
      && r in t.rows && IsDue(r, at)
      && (forall q :: q in t.rows ==> q.state.Queued?)
      && (forall q :: q in t.rows && IsDue(q, at) ==> r.seq_ <= q.seq_)
  {
    var sent := First(t.rows, HookInFlight());
    var found := First(t.rows, HookDue(at));
    assert sent.None? <==> forall q :: q in t.rows ==> q.state.Queued? by {
      if sent.None? {
        forall q | q in t.rows
          ensures q.state.Queued?
        {
          assert !HookInFlight()(q);
        }
      }
    }
    forall q | q in t.rows && IsDue(q, at)
      ensures found.Some? && found.value.seq_ <= q.seq_
    {
      FirstIsLeast(t.rows, HookDue(at), HookSeq(), q);
    }
    if found.Some? && r in t.rows && found.value.seq_ == r.seq_ {
      SameSeq(t, r, found.value);
    }
  }

  /** The event offers the delivery: none is in flight, and it is the oldest due of those the event leaves in the queue. */
  ghost predicate Offers(s: Cloud, e: Event, r: HookRow)
    requires Possible(s, e)
  {
    && OffersAt(s, e).Some?
    && var at := OffersAt(s, e).value;
    && r in Base(s, e).rows && IsDue(r, at) && (forall q :: q in Base(s, e).rows ==> q.state.Queued?)
    && (forall q :: q in Base(s, e).rows && IsDue(q, at) ==> r.seq_ <= q.seq_)
  }

  lemma OfferLaunches(t: HookTable, at: int, r: HookRow)
    requires HookOrdered(t) && r.state.Queued?
    ensures OfferHook(t, at).1 == Some(r) ==> r.(state := Delivering) in OfferHook(t, at).0.rows
    ensures r.(state := Delivering) in OfferHook(t, at).0.rows ==> OfferHook(t, at).1 == Some(r) || r.(state := Delivering) in t.rows
  {
    var row := OfferHook(t, at).1;
    if row.Some? {
      if row == Some(r) {
        var i :| 0 <= i < |t.rows| && t.rows[i] == r;
        assert OfferHook(t, at).0.rows[i] == r.(state := Delivering);
      } else if r.(state := Delivering) in OfferHook(t, at).0.rows {
        var q := Restated(t.rows, HookSends(row.value.seq_), r.(state := Delivering));
        if q.seq_ == row.value.seq_ {
          SameSeq(t, q, row.value);
        }
      }
    }
  }

  lemma BaseInOrder(s: Cloud, e: Event)
    requires Possible(s, e) && HooksValid(s.hookbox, s.now) && s.now >= 0
    ensures HookOrdered(Base(s, e))
  {
    hide HooksValid, AckHook, Filter, Sum;
    HooksAreInOrder(s.hookbox, s.now);
    match e
    case HookArrives(id, delivery, size) =>
      QueueHookKeeps(s.hookbox, id, delivery, size, s.now);
      HooksAreInOrder(Base(s, e), s.now);
    case AlarmEnds =>
      HookRemoval(s.hookbox, HookFresh(s.running.value.began), s.now);
      HooksAreInOrder(Base(s, e), s.now);
    case SocketSpeaks(i, says, _, _) =>
      if HostHeard(s, e) && says.HooksSaid? {
        HookRemoval(s.hookbox, HookKept(says.ids), s.now);
        HooksAreInOrder(Base(s, e), s.now);
      } else if HostHeard(s, e) && says.HookAckSaid? {
        AckHookKeeps(s.hookbox, says.number, says.retry, s.now);
        HooksAreInOrder(Base(s, e), s.now);
      }
    case _ =>
  }

  /**
   * A delivery goes in flight exactly when an event offers it: the oldest that has not run out and has waited, while
   * none is in flight.
   */
  lemma OfferedExactly(s: Cloud, e: Event, r: HookRow)
    requires Reachable(s) && Possible(s, e) && r.state.Queued? && r.(state := Delivering) !in s.hookbox.rows
    ensures Offers(s, e, r) <==> r.(state := Delivering) in Next(s, e).hookbox.rows
  {
    hide Reachable, Next, Base, Authorized, AlarmSet, Began, LogOk, FlightInv, OfferHook, IsDue, OffersAt, HooksValid;
    ReachableInv(s);
    BaseInOrder(s, e);
    NextOffers(s, e);
    if OffersAt(s, e).Some? {
      var at := OffersAt(s, e).value;
      OffersOldest(Base(s, e), at, r);
      OfferLaunches(Base(s, e), at, r);
      BaseNoLaunch(s, e);
    }
  }

  // ---- over whole runs ----

  /** `accepted[n - 1]` is the request that became delivery `n`; `fate` says how each that is gone left. */
  datatype HookLedger = HookLedger(accepted: seq<(string, string)>, fate: map<nat, HookFate>)

  function FateBy(e: Event): HookFate {
    if e.AlarmEnds? then RanOut else if e.SocketSpeaks? && e.hostSays.HooksSaid? then Removed else Finished
  }

  /** The fate an event gives is the reason it has. */
  lemma FateIsWhy(s: Cloud, e: Event, r: HookRow)
    requires Possible(s, e) && Leaves(s, e, r)
    ensures FateBy(e).Finished? <==> Finishes(s, e, r)
    ensures FateBy(e).Removed? <==> Removes(s, e, r)
    ensures FateBy(e).RanOut? <==> Lapses(s, e, r)
  {
  }

  /** The deliveries the event takes out, by number. */
  function Departing(s: Cloud, e: Event): set<nat>
    requires Possible(s, e)
  {
    set r | r in s.hookbox.rows && Leaves(s, e, r) :: r.seq_
  }

  function Entered(l: HookLedger, s: Cloud, e: Event): HookLedger
    requires Possible(s, e)
  {
    HookLedger(l.accepted + (if Queues(s, e) then [(e.id, e.delivery)] else []),
               l.fate + map n | n in Departing(s, e) :: FateBy(e))
  }

  /** What a run from a new computer accepted, and what became of it. */
  ghost function LedgerOf(now: nat, es: seq<Event>): HookLedger {
    if es == [] then HookLedger([], map[])
    else
      var before := After(now, es[..|es| - 1]);
      var l := LedgerOf(now, es[..|es| - 1]);
      if Possible(before, es[|es| - 1]) then Entered(l, before, es[|es| - 1]) else l
  }

  predicate Live(t: HookTable, n: nat) { exists r :: r in t.rows && r.seq_ == n }

  ghost predicate HooksConserved(t: HookTable, l: HookLedger) {
    && HookOrdered(t) && |l.accepted| == t.last
    && (forall n: nat :: 1 <= n <= t.last <==> Live(t, n) || n in l.fate)
    && (forall n: nat :: Live(t, n) ==> n !in l.fate)
    && (forall r :: r in t.rows ==> 1 <= r.seq_ <= |l.accepted| && l.accepted[r.seq_ - 1] == (r.hook, r.delivery))
  }

  lemma NumberMoves(s: Cloud, e: Event, n: nat)
    requires HookOrdered(s.hookbox) && Possible(s, e)
    ensures Live(Next(s, e).hookbox, n) <==>
      (Live(s.hookbox, n) && n !in Departing(s, e)) || (Queues(s, e) && n == s.hookbox.last + 1)
  {
    hide Next, Leaves, Queues, HookOrdered;
    var t := Next(s, e).hookbox;
    if Live(t, n) {
      var q :| q in t.rows && q.seq_ == n;
      ComesExactly(s, e, q);
      if Kept(s.hookbox, q) {
        var r :| r in s.hookbox.rows && SameHook(r, q);
        OneEventLeaves(s, e, r);
        assert SameHook(q, r);
        NotDeparting(s, e, r);
      }
    }
    if Live(s.hookbox, n) && n !in Departing(s, e) {
      var r :| r in s.hookbox.rows && r.seq_ == n;
      OneEventLeaves(s, e, r);
      var q :| q in t.rows && SameHook(q, r);
    }
    if Queues(s, e) && n == s.hookbox.last + 1 {
      ComesNow(s, e);
    }
  }

  lemma ComesNow(s: Cloud, e: Event)
    requires Possible(s, e) && Queues(s, e)
    ensures Live(Next(s, e).hookbox, s.hookbox.last + 1)
  {
    hide Next, Queues;
    ComesExactly(s, e, HookRow(0, "", "", 0, 0, 0, Queued, 0, 0));
    var q :| q in Next(s, e).hookbox.rows && SameHook(q, Arrived(s, e));
  }

  lemma NotDeparting(s: Cloud, e: Event, r: HookRow)
    requires HookOrdered(s.hookbox) && Possible(s, e) && r in s.hookbox.rows && !Leaves(s, e, r)
    ensures r.seq_ !in Departing(s, e)
  {
    hide Leaves, HookOrdered;
    if r.seq_ in Departing(s, e) {
      var q :| q in s.hookbox.rows && Leaves(s, e, q) && q.seq_ == r.seq_;
      SameSeq(s.hookbox, q, r);
    }
  }

  lemma DepartingWasLive(s: Cloud, e: Event, n: nat)
    requires Possible(s, e) && n in Departing(s, e)
    ensures Live(s.hookbox, n)
  {
    hide Leaves;
  }

  lemma RecordKept(s: Cloud, e: Event, l: HookLedger, q: HookRow)
    requires Possible(s, e) && HooksConserved(s.hookbox, l) && q in Next(s, e).hookbox.rows
    ensures
      var m := Entered(l, s, e);
      1 <= q.seq_ <= |m.accepted| && m.accepted[q.seq_ - 1] == (q.hook, q.delivery)
  {
    hide Next, Queues, HookOrdered, Live, Departing, FateBy;
    ComesExactly(s, e, q);
    if Kept(s.hookbox, q) {
      var r :| r in s.hookbox.rows && SameHook(r, q);
    }
  }

  lemma EventConserves(s: Cloud, e: Event, l: HookLedger)
    requires Possible(s, e) && HooksConserved(s.hookbox, l) && HookOrdered(Next(s, e).hookbox)
    ensures HooksConserved(Next(s, e).hookbox, Entered(l, s, e))
  {
    hide Next, Queues, HookOrdered, Live, Departing, FateBy;
    var t, m := Next(s, e).hookbox, Entered(l, s, e);
    ComesExactly(s, e, HookRow(0, "", "", 0, 0, 0, Queued, 0, 0));
    forall n: nat
      ensures 1 <= n <= t.last <==> Live(t, n) || n in m.fate
      ensures Live(t, n) ==> n !in m.fate
    {
      NumberMoves(s, e, n);
      if n in Departing(s, e) {
        DepartingWasLive(s, e, n);
      }
    }
    forall q | q in t.rows
      ensures 1 <= q.seq_ <= |m.accepted| && m.accepted[q.seq_ - 1] == (q.hook, q.delivery)
    {
      RecordKept(s, e, l, q);
    }
  }

  lemma NothingAccepted(now: nat)
    ensures HooksConserved(NewComputer(now).hookbox, HookLedger([], map[]))
  {
  }

  lemma RunInOrder(s: Cloud)
    requires RunInv(s)
    ensures HookOrdered(s.hookbox)
  {
    hide FlightInv, CloudMail.Foremost, SocketQuotas, PassInRange, DeviceTimes, OneHost, Authorized, AlarmSet, Began, LogOk;
    HooksAreInOrder(s.hookbox, s.now);
  }

  /**
   * Whatever happens to a computer, each delivery accepted for it is held exactly once, under its hook and delivery, or
   * has left by exactly one of finished, removed and ran out; and each of those is what `Leaves` says, read off the
   * delivery and the event.
   */
  lemma {:induction false} DeliveriesConserved(now: nat, es: seq<Event>)
    requires Feasible(now, es)
    ensures HooksConserved(After(now, es).hookbox, LedgerOf(now, es))
  {
    hide Next, Possible, RunInv, HooksConserved, Entered;
    NewComputerInv(now);
    if es == [] {
      NothingAccepted(now);
    } else {
      var front, e := es[..|es| - 1], es[|es| - 1];
      DeliveriesConserved(now, front);
      RunKeeps(NewComputer(now), front);
      NextKeepsRun(After(now, front), e);
      RunInOrder(Next(After(now, front), e));
      EventConserves(After(now, front), e, LedgerOf(now, front));
    }
  }

  /** A delivery's fate never changes, and it never comes back. */
  lemma FateStays(now: nat, es: seq<Event>, e: Event, n: nat)
    requires Feasible(now, es + [e]) && n in LedgerOf(now, es).fate
    ensures n in LedgerOf(now, es + [e]).fate && LedgerOf(now, es + [e]).fate[n] == LedgerOf(now, es).fate[n]
    ensures !Live(After(now, es + [e]).hookbox, n)
  {
    hide Next, Possible, Leaves, Queues, FateBy;
    assert (es + [e])[..|es|] == es;
    DeliveriesConserved(now, es);
    DeliveriesConserved(now, es + [e]);
    var s := After(now, es);
    if n in Departing(s, e) {
      DepartingWasLive(s, e, n);
    }
  }
}
