/** What the cloud relay's alarm achieves: whole passes over the sockets, and the ends of pairings it is set for. */
module CloudPasses {
  import opened Wrappers
  import opened Sequences
  import opened Acls
  import opened CloudMailbox
  import opened Hookbox
  import opened CloudState
  import opened CloudInvariants
  import opened CloudAlarms
  import opened CloudInFlight
  import opened CloudMail
  import opened CloudRuns

  // ---- every socket is looked at ----

  /** The event numbered `n` is the alarm's look at socket `i`, which had been heard in the 90 s before the alarm began. */
  ghost predicate HeardAt(s: Cloud, es: seq<Event>, n: nat, i: nat) {
    && n < |es| && es[n].AlarmLooks?
    && var t := From(s, es[..n]);
       && Visiting(t) && t.running.value.todo[0] == i
       && (t.running.value.began - t.socks[i].at <= SILENT_TIMEOUT_MS || t.running.value.began - es[n].pong <= SILENT_TIMEOUT_MS)
  }

  /** The socket has been let go of, or was heard. */
  ghost predicate LookedAfter(s: Cloud, es: seq<Event>, i: nat) {
    || (i < |From(s, es).socks| && From(s, es).socks[i].retired.Some?)
    || exists n: nat :: HeardAt(s, es, n, i)
  }

  ghost predicate NoEnd(es: seq<Event>) { forall n :: 0 <= n < |es| ==> !es[n].AlarmEnds? }

  lemma StaysRetired(s: Cloud, e: Event, i: nat)
    requires Possible(s, e) && i < |s.socks| && s.socks[i].retired.Some?
    ensures i < |Next(s, e).socks| && Next(s, e).socks[i].retired.Some?
  {
    hide Next, Possible;
    if e.DeviceConnects? {
      NextConnects(s, e);
      DeviceAdded(s, e.dk, e.offer);
    } else {
      NextAddsNone(s, e);
      assert StaysWithin(s.socks[i], Next(s, e).socks[i]);
    }
  }

  lemma LookedAfterLonger(s: Cloud, es: seq<Event>, e: Event, i: nat)
    requires LookedAfter(s, es, i) && Possible(From(s, es), e)
    ensures LookedAfter(s, es + [e], i)
  {
    hide Next, Possible, From;
    OneMore(s, es, e);
    if i < |From(s, es).socks| && From(s, es).socks[i].retired.Some? {
      StaysRetired(From(s, es), e, i);
    } else {
      var n: nat :| HeardAt(s, es, n, i);
      assert (es + [e])[..n] == es[..n];
      assert HeardAt(s, es + [e], n, i);
    }
  }

  /** One look: the socket was let go of before, is now, or had been heard. */
  lemma OneLook(s: Cloud, pong: int, awake: bool)
    requires Visiting(s)
    ensures
      var i, began := s.running.value.todo[0], s.running.value.began;
      || AlarmVisits(s, pong, awake).socks[i].retired.Some?
      || began - s.socks[i].at <= SILENT_TIMEOUT_MS || began - pong <= SILENT_TIMEOUT_MS
  {
  }

  lemma LookDone(s: Cloud, es: seq<Event>, e: Event)
    requires e.AlarmLooks? && Possible(From(s, es), e)
    ensures LookedAfter(s, es + [e], From(s, es).running.value.todo[0])
  {
    hide Next, AlarmVisits;
    var t := From(s, es);
    OneMore(s, es, e);
    OneLook(t, e.pong, e.awake);
    NextLooks(t, e);
    if AlarmVisits(t, e.pong, e.awake).socks[t.running.value.todo[0]].retired.None? {
      assert (es + [e])[..|es|] == es && (es + [e])[|es|] == e;
      assert HeardAt(s, es + [e], |es|, t.running.value.todo[0]);
    }
  }

  ghost predicate OnPass(s: Cloud, es: seq<Event>, began: int, i: nat) {
    var t := From(s, es);
    t.running.Some? && t.running.value.began == began && (i in t.running.value.todo || LookedAfter(s, es, i))
  }

  lemma RunningStep(s: Cloud, e: Event)
    requires Possible(s, e) && s.running.Some? && !e.AlarmEnds?
    ensures
      var t := Next(s, e);
      && t.running.Some? && t.running.value.began == s.running.value.began
      && t.running.value.todo == if e.AlarmLooks? then s.running.value.todo[1..] else s.running.value.todo
    ensures e.AlarmLooks? ==> s.running.value.todo != []
  {
    hide Next;
    if e.AlarmLooks? {
      NextLooks(s, e);
      VisitMovesOn(s, e.pong, e.awake);
    } else {
      OnlyAlarmRuns(s, e);
    }
  }

  lemma PassStep(s: Cloud, es: seq<Event>, e: Event, began: int, i: nat)
    requires OnPass(s, es, began, i) && Possible(From(s, es), e) && !e.AlarmEnds?
    ensures OnPass(s, es + [e], began, i)
  {
    hide Next, Possible, From, LookedAfter;
    OneMore(s, es, e);
    RunningStep(From(s, es), e);
    if LookedAfter(s, es, i) {
      LookedAfterLonger(s, es, e, i);
    } else if e.AlarmLooks? {
      LookDone(s, es, e);
    }
  }

  /** Until it ends, the pass has every socket it began with before it or behind it. */
  lemma {:induction false} PassGoesOn(s: Cloud, es: seq<Event>, i: nat)
    requires s.running.Some? && i in s.running.value.todo && FeasibleFrom(s, es) && NoEnd(es)
    ensures OnPass(s, es, s.running.value.began, i)
  {
    hide Next, LookedAfter;
    if es != [] {
      var front, e := es[..|es| - 1], es[|es| - 1];
      assert es == front + [e];
      PassGoesOn(s, front, i);
      hide OnPass, Possible, From;
      PassStep(s, front, e, s.running.value.began, i);
    }
  }

  // ---- the end of a pass ----

  predicate OpenPairing(k: Sock) { IsOpen(k) && k.role.pair }

  lemma {:induction false} NextEndIsFirst(socks: seq<Sock>, acl: Option<Acl>, now: int, next: int, i: nat)
    requires i < |socks| && IsPairing(socks[i]) && PairingEnd(acl, socks[i]) > now
    ensures NextEnd(socks, acl, now, next) <= PairingEnd(acl, socks[i])
    decreases |socks|
  {
    hide PairingEnd;
    if i < |socks| - 1 {
      NextEndIsFirst(socks[..|socks| - 1], acl, now, next, i);
    }
  }

  /** Nothing that expired before the pass began is left in a queue. */
  lemma QueuesTidied(s: Cloud)
    requires s.running.Some?
    ensures
      var t, began := AlarmFinishes(s), s.running.value.began;
      && (forall r :: r in t.mailbox.rows ==> r.item.exp > began)
      && (forall r :: r in t.hookbox.rows && r.state.Queued? ==> r.exp > began)
  {
    hide PairingOver, NextAlarm, Busy, CloudState.HostReady, OfferHook;
    var began := s.running.value.began;
    var box := LapseHooks(s.hookbox, began);
    OfferedQueued(box, began);
    assert forall r :: r in box.rows && r.state.Queued? ==> r.exp > began;
  }

  lemma OfferedQueued(t: HookTable, now: int)
    ensures forall r :: r in OfferHook(t, now).0.rows && r.state.Queued? ==> r in t.rows
  {
    var row := OfferHook(t, now).1;
    if row.Some? {
      forall r | r in OfferHook(t, now).0.rows && r.state.Queued?
        ensures r in t.rows
      {
        var q := Restated(t.rows, HookSends(row.value.seq_), r);
      }
    }
  }

  /** No pairing is left open past its end, and the alarm is set for the ends of the others. */
  lemma PairingsEnded(s: Cloud, i: nat)
    requires s.running.Some?
    requires var t := AlarmFinishes(s); i < |t.socks| && OpenPairing(t.socks[i])
    ensures
      var t, began := AlarmFinishes(s), s.running.value.began;
      var end := PairingEnd(t.acl, t.socks[i]);
      end > began && t.alarm.Some? && t.alarm.value <= end
  {
    hide PairingEnd, DeliverHook, CloudState.HostReady, CloudExpire, LapseHooks, NextDue, NextEnd;
    var began := s.running.value.began;
    var t, u := AlarmTidies(s, began), AlarmFinishes(s);
    DeliverHookSame(s.(mailbox := CloudExpire(s.mailbox, began).0, hookbox := LapseHooks(s.hookbox, began)), began);
    assert u.socks[i] == Closing(PairingOver(t.acl, began))(t.socks[i]);
    assert t.socks[i].listed;
    NextEndIsFirst(t.socks, t.acl, began, began + ALARM_MS, i);
  }

  lemma {:induction false} StillRunning(s: Cloud, es: seq<Event>)
    requires s.running.Some? && FeasibleFrom(s, es) && NoEnd(es)
    ensures From(s, es).running.Some? && From(s, es).running.value.began == s.running.value.began
  {
    hide Next, Possible;
    if es != [] {
      StillRunning(s, es[..|es| - 1]);
      RunningStep(From(s, es[..|es| - 1]), es[|es| - 1]);
    }
  }

  lemma BeginIs(s: Cloud)
    requires Possible(s, AlarmBegins)
    ensures Next(s, AlarmBegins) == AlarmFires(s)
  {
  }

  /** When the pass is over, every socket it began with has been looked after. */
  lemma PassIsOver(s: Cloud, es: seq<Event>, i: nat)
    requires s.running.Some? && i in s.running.value.todo && FeasibleFrom(s, es) && NoEnd(es) && Possible(From(s, es), AlarmEnds)
    ensures LookedAfter(s, es, i)
  {
    hide Next, From, FeasibleFrom, LookedAfter;
    PassGoesOn(s, es, i);
    NextEnds(From(s, es));
  }

  /** The events of a pass that begins in `s`, with `mid` in between. */
  function PassEvents(mid: seq<Event>): seq<Event> { [AlarmBegins] + mid + [AlarmEnds] }

  lemma PassParts(s: Cloud, mid: seq<Event>)
    requires FeasibleFrom(s, PassEvents(mid)) && NoEnd(mid)
    ensures
      var b := AlarmFires(s);
      var u := From(b, mid);
      && From(s, [AlarmBegins]) == b && FeasibleFrom(b, mid) && Possible(u, AlarmEnds)
      && u.running.Some? && u.running.value.began == s.now && From(s, PassEvents(mid)) == AlarmFinishes(u)
  {
    hide Next, Possible, From, FeasibleFrom, AlarmFinishes;
    var begins := [AlarmBegins];
    OneMore(s, [], AlarmBegins);
    assert [] + begins == begins;
    OneMore(s, begins + mid, AlarmEnds);
    RunsJoin(s, begins, mid);
    RunsOfNone(s);
    BeginIs(s);
    StillRunning(AlarmFires(s), mid);
    NextEnds(From(AlarmFires(s), mid));
  }

  lemma RunsOfNone(s: Cloud)
    ensures From(s, []) == s && FeasibleFrom(s, [])
  {
  }

  /**
   * A whole pass of the alarm, whatever happens in between: a socket that was connected when it began has been let go of
   * or had been heard in the 90 s before.
   */
  lemma SilentAreLetGo(s: Cloud, mid: seq<Event>, i: nat)
    requires FeasibleFrom(s, PassEvents(mid)) && NoEnd(mid) && i < |s.socks| && s.socks[i].listed
    ensures
      var t := From(s, PassEvents(mid));
      (i < |t.socks| && t.socks[i].retired.Some?) || exists n: nat :: HeardAt(AlarmFires(s), mid, n, i)
  {
    hide Next, From, FeasibleFrom, HeardAt, AlarmFinishes, Possible;
    PassParts(s, mid);
    var b := AlarmFires(s);
    PassIsOver(b, mid, i);
    var u := From(b, mid);
    if i < |u.socks| && u.socks[i].retired.Some? {
      StaysRetired(u, AlarmEnds, i);
      NextEnds(u);
    }
  }

  /**
   * When the pass ends, nothing that had expired when it began is left in a queue, no pairing is open past its end, and
   * the alarm is set for the ends of the others.
   */
  lemma NothingOverdue(s: Cloud, mid: seq<Event>)
    requires FeasibleFrom(s, PassEvents(mid)) && NoEnd(mid)
    ensures
      var t := From(s, PassEvents(mid));
      && (forall r :: r in t.mailbox.rows ==> r.item.exp > s.now)
      && (forall r :: r in t.hookbox.rows && r.state.Queued? ==> r.exp > s.now)
      && (forall i :: 0 <= i < |t.socks| && OpenPairing(t.socks[i]) ==>
            PairingEnd(t.acl, t.socks[i]) > s.now && t.alarm.Some? && t.alarm.value <= PairingEnd(t.acl, t.socks[i]))
  {
    hide Next, From, FeasibleFrom, AlarmFinishes, PairingEnd;
    PassParts(s, mid);
    var u := From(AlarmFires(s), mid);
    QueuesTidied(u);
    var t := AlarmFinishes(u);
    forall i | 0 <= i < |t.socks| && OpenPairing(t.socks[i])
      ensures PairingEnd(t.acl, t.socks[i]) > s.now && t.alarm.Some? && t.alarm.value <= PairingEnd(t.acl, t.socks[i])
    {
      PairingsEnded(u, i);
    }
  }

  // ---- the alarm and the ends of pairings ----

  function Max(a: int, b: int): int { if a >= b then a else b }

  /**
   * The latest the alarm may be for an open pairing: its end. But a list stored after it connected may have moved the end,
   * and its offer may have been listed twice, the first time expired: then a minute after either, if that is later.
   */
  function AlarmBy(acl: Option<Acl>, k: Sock, stored: int): int
    requires k.role.AsDevice?
  {
    var end := PairingEnd(acl, k);
    if k.at <= stored || end <= k.at then Max(end, Max(k.at, stored) + ALARM_MS) else end
  }

  ghost predicate EndsWatched(s: Cloud, stored: int) {
    s.running.None? ==>
      forall i :: 0 <= i < |s.socks| && OpenPairing(s.socks[i]) ==> s.alarm.Some? && s.alarm.value <= AlarmBy(s.acl, s.socks[i], stored)
  }

  /** No event but the alarm's own puts the alarm off. */
  lemma SpeakingKeepsAlarm(s: Cloud, i: nat, hostSays: HostSays, says: DeviceSays, fits: bool)
    requires i < |s.socks| && s.alarm.Some?
    ensures FromSocket(s, i, hostSays, says, fits).alarm.Some? && FromSocket(s, i, hostSays, says, fits).alarm.value <= s.alarm.value
  {
    hide OfferHook, CloudPut, CloudCancel, CloudAck, CloudDeliver, AckHook, AckedHook, DropHooks, CloudState.HostReady, Wait;
  }

  lemma AlarmOnlyForward(s: Cloud, e: Event)
    requires Possible(s, e) && s.alarm.Some? && !e.AlarmBegins? && !e.AlarmEnds?
    ensures Next(s, e).alarm.Some? && Next(s, e).alarm.value <= s.alarm.value
  {
    hide RetireHosts, Filter, GoodOffer, Lists, FromSocket, OfferHook, QueueHook, CloudState.HostReady, BlockKeys, PutHooksBack,
      CloudRequeue, ShutOut, NamedDevices;
    match e
    case HostConnects(kid, computer) =>
      var owned := if s.owner.None? then s.(owner := Some((kid, computer))) else s;
      RetireHostsOpensNone(owned, |s.socks|);
    case SocketSpeaks(i, hostSays, says, fits) => SpeakingKeepsAlarm(s, i, hostSays, says, fits);
    case _ =>
  }

  /** A pairing that connects has the alarm set for its end. */
  lemma ConnectSetsAlarm(s: Cloud, dk: string, offer: string)
    requires AcceptDevice(s, dk, offer) != s && offer != ""
    ensures
      var t := AcceptDevice(s, dk, offer);
      && t.alarm.Some? && t.alarm.value <= s.now + ALARM_MS && s.acl.Some?
      && (PairingEnd(s.acl, Sock(AsDevice(dk, true, offer, 0), s.now, true, false, None)) > s.now ==>
            t.alarm.value <= PairingEnd(s.acl, Sock(AsDevice(dk, true, offer, 0), s.now, true, false, None)))
  {
    hide Filter, GoodOffer;
    if PairingEnd(s.acl, Sock(AsDevice(dk, true, offer, 0), s.now, true, false, None)) > s.now {
      GoodIsFirst(s.acl.value.offers, offer, s.now);
    }
  }

  /** When the first offer of an id is good, it is the one found. */
  lemma GoodIsFirst(offers: seq<Offer>, id: string, now: int)
    requires OfferExpiry(offers, id).Some? && OfferExpiry(offers, id).value > now
    ensures GoodOffer(offers, id, now).Some? && GoodOffer(offers, id, now).value.exp == OfferExpiry(offers, id).value
  {
    hide First;
    var j := FirstOffer(offers, id);
    FirstAt(offers, (o: Offer) => o.id == id && o.exp > now, j);
  }

  lemma {:induction false} FirstOffer(offers: seq<Offer>, id: string) returns (j: nat)
    requires OfferExpiry(offers, id).Some?
    ensures j < |offers| && offers[j].id == id && offers[j].exp == OfferExpiry(offers, id).value
    ensures forall k :: 0 <= k < j ==> offers[k].id != id
  {
    if offers[0].id == id {
      j := 0;
    } else {
      j := FirstOffer(offers[1..], id);
      j := j + 1;
    }
  }

  lemma ConnectWatches(s: Cloud, dk: string, offer: string, stored: int)
    requires EndsWatched(s, stored) && AlarmSet(s)
    ensures EndsWatched(AcceptDevice(s, dk, offer), stored)
  {
    hide AcceptDevice, PairingEnd, Filter;
    var t := AcceptDevice(s, dk, offer);
    DeviceAdded(s, dk, offer);
    if t != s {
      if offer != "" {
        ConnectSetsAlarm(s, dk, offer);
      }
      if s.alarm.Some? {
        AlarmOnlyForward(s, DeviceConnects(dk, offer));
        NextConnects(s, DeviceConnects(dk, offer));
      }
    }
  }

  /** As long as the stored list stays, every event keeps the alarm by the ends of the open pairings. */
  lemma NextWatches(s: Cloud, e: Event, stored: int)
    requires EndsWatched(s, stored) && AlarmSet(s) && Possible(s, e) && Next(s, e).acl == s.acl
    ensures EndsWatched(Next(s, e), stored)
  {
    hide Next, PairingEnd, AlarmSet, ListedNumbers, AlarmFinishes;
    var t := Next(s, e);
    if e.DeviceConnects? {
      NextConnects(s, e);
      ConnectWatches(s, e.dk, e.offer, stored);
    } else if e.AlarmEnds? {
      NextEnds(s);
      forall i | 0 <= i < |t.socks| && OpenPairing(t.socks[i])
        ensures t.alarm.Some? && t.alarm.value <= AlarmBy(t.acl, t.socks[i], stored)
      {
        PairingsEnded(s, i);
      }
    } else if e.AlarmBegins? {
      BeginIs(s);
    } else if e.AlarmLooks? {
      NextLooks(s, e);
      VisitMovesOn(s, e.pong, e.awake);
    } else {
      QuietWatches(s, e, stored);
    }
  }

  lemma QuietWatches(s: Cloud, e: Event, stored: int)
    requires EndsWatched(s, stored) && Possible(s, e) && Next(s, e).acl == s.acl
    requires !e.DeviceConnects? && !e.AlarmBegins? && !e.AlarmLooks? && !e.AlarmEnds?
    ensures EndsWatched(Next(s, e), stored)
  {
    hide Next, Possible, PairingEnd;
    var t := Next(s, e);
    NextAddsNone(s, e);
    OnlyAlarmRuns(s, e);
    forall i | 0 <= i < |t.socks| && OpenPairing(t.socks[i]) && t.running.None?
      ensures t.alarm.Some? && t.alarm.value <= AlarmBy(t.acl, t.socks[i], stored)
    {
      assert StaysWithin(s.socks[i], t.socks[i]);
      SameEnd(s.acl, s.socks[i], t.socks[i]);
      AlarmOnlyForward(s, e);
    }
  }

  lemma SameEnd(acl: Option<Acl>, k: Sock, q: Sock)
    requires k.role.AsDevice? && q.role.AsDevice? && SameDevice(k, q)
    ensures PairingEnd(acl, q) == PairingEnd(acl, k)
  {
  }

  lemma FirstWatches(s: Cloud)
    requires AlarmSet(s) && DeviceTimes(s)
    ensures EndsWatched(s, s.now)
  {
    hide PairingEnd;
  }

  lemma WatchParts(s: Cloud)
    requires RunInv(s)
    ensures AlarmSet(s) && DeviceTimes(s)
  {
    hide FlightInv, Foremost, SocketQuotas, PassInRange, OneHost, DeviceTimes, AlarmSet, Authorized, Began, HookInv;
  }

  lemma SameListSince(s: Cloud, es: seq<Event>, e: Event)
    requires FeasibleFrom(s, es + [e]) && From(s, es + [e]).acl == s.acl
    ensures From(s, es).acl == s.acl
  {
    hide Next, Possible, From, FeasibleFrom;
    OneMore(s, es, e);
    StoredVersionsAscend(s, es);
    VersionsRise(From(s, es), e);
  }

  lemma {:induction false} RunWatches(s: Cloud, es: seq<Event>)
    requires RunInv(s) && FeasibleFrom(s, es) && From(s, es).acl == s.acl
    ensures EndsWatched(From(s, es), s.now)
  {
    hide RunInv, Next, Possible, EndsWatched;
    if es == [] {
      WatchParts(s);
      FirstWatches(s);
    } else {
      var front, e := es[..|es| - 1], es[|es| - 1];
      assert es == front + [e];
      SameListSince(s, front, e);
      RunWatches(s, front);
      RunKeeps(s, front);
      WatchParts(From(s, front));
      NextWatches(From(s, front), e, s.now);
    }
  }

  /**
   * Outside its handler the alarm is at the latest for the end of each open pairing. `s` is the state when the present
   * list was stored, or any since: the alarm may lie past the end of a pairing that connected before only by what is left
   * of the minute after it, and past that of one whose offer's first entry had expired by a minute from its connecting.
   */
  lemma PairingEndsWatched(s: Cloud, es: seq<Event>, i: nat)
    requires Reachable(s) && FeasibleFrom(s, es) && From(s, es).acl == s.acl && From(s, es).running.None?
    requires i < |From(s, es).socks| && OpenPairing(From(s, es).socks[i])
    ensures
      var t := From(s, es);
      t.alarm.Some? && t.alarm.value <= AlarmBy(t.acl, t.socks[i], s.now)
  {
    hide Reachable, RunInv, FeasibleFrom, From, AlarmBy;
    ReachableRun(s);
    RunWatches(s, es);
  }
}
