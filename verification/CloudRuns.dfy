/** Whole runs of the cloud relay: what holds in every state it can reach. */
module CloudRuns {
  import opened Sequences
  import opened Acls
  import opened MailboxItems
  import opened CloudMailbox
  import opened Hookbox
  import opened CloudState
  import opened CloudInvariants
  import opened CloudAlarms
  import opened CloudInFlight
  import opened CloudMail

  /** The state after some events. */
  ghost function From(s: Cloud, es: seq<Event>): Cloud {
    if es == [] then s
    else
      var before := From(s, es[..|es| - 1]);
      if Possible(before, es[|es| - 1]) then Next(before, es[|es| - 1]) else before
  }

  /** Each event can happen when it does. */
  ghost predicate FeasibleFrom(s: Cloud, es: seq<Event>) {
    es == [] || (FeasibleFrom(s, es[..|es| - 1]) && Possible(From(s, es[..|es| - 1]), es[|es| - 1]))
  }

  ghost function After(now: nat, es: seq<Event>): Cloud { From(NewComputer(now), es) }

  ghost predicate Feasible(now: nat, es: seq<Event>) { FeasibleFrom(NewComputer(now), es) }

  lemma OneMore(s: Cloud, es: seq<Event>, e: Event)
    ensures From(s, es + [e]) == if Possible(From(s, es), e) then Next(From(s, es), e) else From(s, es)
    ensures FeasibleFrom(s, es + [e]) <==> FeasibleFrom(s, es) && Possible(From(s, es), e)
  {
    hide Next, Possible;
    assert (es + [e])[..|es|] == es;
  }

  lemma NothingYet(now: nat)
    ensures After(now, []) == NewComputer(now)
  {
  }

  /** Each event of a run can happen when its turn comes. */
  lemma RunStep(s: Cloud, es: seq<Event>, i: nat)
    requires FeasibleFrom(s, es) && i < |es|
    ensures Possible(From(s, es[..i]), es[i]) && From(s, es[..i + 1]) == Next(From(s, es[..i]), es[i])
  {
    hide Next, Possible;
    assert es[..i + 1] == es[..i] + [es[i]] && es[..i + 1] + es[i + 1..] == es;
    RunsJoin(s, es[..i + 1], es[i + 1..]);
    OneMore(s, es[..i], es[i]);
  }

  /** A run of two parts is the second part from where the first one leads. */
  lemma {:induction false} RunsJoin(s: Cloud, es: seq<Event>, more: seq<Event>)
    ensures From(s, es + more) == From(From(s, es), more)
    ensures FeasibleFrom(s, es + more) <==> FeasibleFrom(s, es) && FeasibleFrom(From(s, es), more)
  {
    hide Next, Possible;
    if more == [] {
      assert es + more == es;
    } else {
      var front := more[..|more| - 1];
      assert (es + more)[..|es + more| - 1] == es + front;
      RunsJoin(s, es, front);
    }
  }

  // ---- what every state keeps ----

  ghost predicate RunInv(s: Cloud) {
    CloudInv(s) && FlightInv(s) && Foremost(s.mailbox, s.now) && SocketQuotas(s) && PassInRange(s) && DeviceTimes(s) && OneHost(s)
  }

  lemma NewComputerInv(now: nat)
    ensures RunInv(NewComputer(now))
  {
    assert forall p: HookRow -> bool :: Filter([], p) == [];
    assert forall p: CloudRow -> bool :: Filter([], p) == [];
    assert forall p: Sock -> bool :: Filter([], p) == [];
  }

  lemma NextKeepsRun(s: Cloud, e: Event)
    requires RunInv(s) && Possible(s, e)
    ensures RunInv(Next(s, e))
  {
    hide CloudInv, Foremost, SocketQuotas, PassInRange, OneHost, DeviceTimes, Next, MailOrdered, NoncesUnique, OneMoving, MailQuotas, Attended, Retiring;
    NextKeeps(s, e);
    NextKeepsFlight(s, e);
    NextForemost(s, e);
    NextKeepsQuotas(s, e);
    NextKeepsPass(s, e);
    NextKeepsTimes(s, e);
    NextKeepsOneHost(s, e);
  }

  lemma {:induction false} RunKeeps(s: Cloud, es: seq<Event>)
    requires RunInv(s) && FeasibleFrom(s, es)
    ensures RunInv(From(s, es))
  {
    hide RunInv, Next;
    if es != [] {
      RunKeeps(s, es[..|es| - 1]);
      NextKeepsRun(From(s, es[..|es| - 1]), es[|es| - 1]);
    }
  }

  /** Some run leads to the state. */
  ghost predicate Reachable(s: Cloud) {
    exists now: nat, es {:trigger After(now, es)} :: Feasible(now, es) && After(now, es) == s
  }

  lemma ReachableRun(s: Cloud)
    requires Reachable(s)
    ensures RunInv(s)
  {
    hide RunInv, From, FeasibleFrom, NewComputer;
    var now: nat, es :| Feasible(now, es) && After(now, es) == s;
    NewComputerInv(now);
    RunKeeps(NewComputer(now), es);
  }

  lemma ReachableInv(s: Cloud)
    requires Reachable(s)
    ensures CloudInv(s) && FlightInv(s)
  {
    hide Reachable, CloudInv, FlightInv, Foremost, SocketQuotas, PassInRange, OneHost, DeviceTimes;
    ReachableRun(s);
  }

  /** What can happen from a reachable state leads to reachable ones. */
  lemma ReachableOn(s: Cloud, es: seq<Event>)
    requires Reachable(s) && FeasibleFrom(s, es)
    ensures Reachable(From(s, es))
  {
    hide From, FeasibleFrom, NewComputer;
    var now: nat, before :| Feasible(now, before) && After(now, before) == s;
    RunsJoin(NewComputer(now), before, es);
    assert After(now, before + es) == From(s, es);
  }

  /**
   * Whatever the interleaving of checks, blocks and connects, a device socket that the relay has neither closed nor let
   * go of is admitted by the stored list: a device by its key, which is not blocked, a pairing by its offer.
   */
  lemma OpenMeansAdmitted(s: Cloud, i: nat)
    requires Reachable(s) && i < |s.socks| && IsOpen(s.socks[i])
    ensures s.acl.Some?
    ensures s.socks[i].role.pair ==> Offers(s.acl.value, s.socks[i].role.offer)
    ensures !s.socks[i].role.pair ==> Lists(s.acl.value, s.socks[i].role.dk) && s.socks[i].role.dk !in s.blocked
  {
    hide Reachable, HookInv, AlarmSet, Began, Lists, Offers, FlightInv;
    ReachableInv(s);
    assert Admitted(s, s.socks[i]);
  }

  /** From any moment to any later one the stored list is the same or has a strictly higher version. */
  lemma {:induction false} StoredVersionsAscend(s: Cloud, es: seq<Event>)
    requires FeasibleFrom(s, es)
    ensures From(s, es).acl == s.acl || (From(s, es).acl.Some? && Version(s.acl) < From(s, es).acl.value.ver)
  {
    hide Next, Possible;
    if es != [] {
      StoredVersionsAscend(s, es[..|es| - 1]);
      VersionsRise(From(s, es[..|es| - 1]), es[|es| - 1]);
    }
  }

  /** Outside its handler, an alarm is pending whenever there is anything to look after. */
  lemma AlarmPending(s: Cloud)
    requires Reachable(s) && s.running.None?
    requires (exists i :: 0 <= i < |s.socks| && s.socks[i].listed) || s.mailbox.rows != [] || s.hookbox.rows != []
    ensures s.alarm.Some? && s.alarm.value <= s.now + 60_000
    ensures forall r :: r in s.hookbox.rows && r.state.Queued? && r.notBefore > s.now ==> s.alarm.value <= r.notBefore
  {
    hide Reachable, HookInv, Authorized, FlightInv;
    ReachableInv(s);
    assert Busy(s);
    assert forall r: HookRow :: r.state.Queued? && r.notBefore > s.now ==> HookWaiting(s.now)(r);
  }

  /** A delivery refused after `k` earlier retries is not offered again before its wait is over. */
  lemma OffersWait(s: Cloud, i: nat, j: nat)
    requires Reachable(s) && i < j < |s.log| && s.log[i].HookRefused? && s.log[j].HookOffered? && s.log[i].seq_ == s.log[j].seq_
    ensures s.log[j].at >= s.log[i].at + Wait(s.log[i].attempts)
  {
    hide Reachable, Authorized, AlarmSet, Began, HooksValid, Wait, FlightInv;
    ReachableInv(s);
    assert Waited(s.log[i], s.log[j]);
  }

  /** Nothing is offered or refused after more than 291 refusals. */
  lemma OffersStop(s: Cloud, i: nat)
    requires Reachable(s) && i < |s.log|
    ensures s.log[i].attempts <= 291
  {
    hide Reachable, Authorized, AlarmSet, Began, HooksValid, Wait, FlightInv;
    ReachableInv(s);
    assert EntryOk(s, s.log[i]);
  }

  /**
   * Every held delivery has waited the sum of its waits: it may not go before its arrival plus that sum. At most one is
   * in flight, and no delivery is ever retried more than 292 times.
   */
  lemma DeliveriesWait(s: Cloud, r: HookRow, q: HookRow)
    requires Reachable(s) && r in s.hookbox.rows && q in s.hookbox.rows
    ensures r.attempts <= 292 && (r.attempts > 0 ==> r.notBefore >= r.at + Waits(r.attempts)) && r.exp == r.at + HOOK_TTL_MS
    ensures r.state.Delivering? ==> r.attempts <= 291 && r.notBefore <= s.now
    ensures r.state.Delivering? && q.state.Delivering? ==> r == q
  {
    hide Reachable, Authorized, AlarmSet, Began, LogOk, HookQuotas, HookOrdered, Waits, FlightInv;
    ReachableInv(s);
    assert RowOk(r, s.now);
    assert r.state.Delivering? && q.state.Delivering? ==> BothSent(r, q);
  }

  /**
   * At most one item of mail is in flight, and it, like a delivery in flight, only while the computer has a ready host;
   * the mailbox keeps its order, keys and quotas.
   */
  lemma InFlightAttended(s: Cloud, r: CloudRow, q: CloudRow, h: HookRow)
    requires Reachable(s) && r in s.mailbox.rows && q in s.mailbox.rows
    ensures MailValid(s.mailbox)
    ensures r.item.state.Delivering? ==> CloudState.HostReady(s) && (q.item.state.Delivering? ==> q == r)
    ensures h in s.hookbox.rows && h.state.Delivering? ==> CloudState.HostReady(s)
  {
    hide Reachable, CloudInv, CloudState.HostReady, MailQuotas, MailOrdered;
    ReachableInv(s);
    assert r.item.state.Delivering? && q.item.state.Delivering? ==> BothMoving(r, q);
  }

  lemma RunOrdered(s: Cloud)
    requires RunInv(s)
    ensures MailOrdered(s.mailbox) && Foremost(s.mailbox, s.now)
  {
    hide CloudInv, Foremost, SocketQuotas, PassInRange, OneHost, DeviceTimes, MailOrdered, NoncesUnique, OneMoving, MailQuotas, Attended, Retiring;
  }

  lemma {:induction false} EarlierStayExpired(s: Cloud, es: seq<Event>, n: nat)
    requires RunInv(s) && FeasibleFrom(s, es) && EarlierExpired(s.mailbox, n, s.now)
    ensures EarlierExpired(From(s, es).mailbox, n, From(s, es).now)
  {
    hide RunInv, Next, Possible, EarlierExpired;
    if es != [] {
      var front := es[..|es| - 1];
      EarlierStayExpired(s, front, n);
      RunKeeps(s, front);
      RunOrdered(From(s, front));
      NextKeepsEarlierExpired(From(s, front), es[|es| - 1], n);
    }
  }

  /**
   * At least once: from the moment an item is in flight, whatever hosts come and go, nothing else is sent as long as it is
   * held and unexpired.
   */
  lemma NothingElseIsSent(s: Cloud, r: CloudRow, more: seq<Event>, e: Event)
    requires Reachable(s) && r in s.mailbox.rows && r.item.state.Delivering? && FeasibleFrom(s, more)
    requires Possible(From(s, more), e) && Sent(From(s, more), e).Some?
    requires Held(Next(From(s, more), e).mailbox, r) && r.item.exp > From(s, more).now
    ensures Sent(From(s, more), e).value == MailState(r, Queued)
  {
    hide Reachable, RunInv, Next, Possible, Held, Sent, From, FeasibleFrom;
    var t := From(s, more);
    ReachableRun(s);
    RunOrdered(s);
    InFlightIsEarliest(s.mailbox, r, s.now);
    EarlierStayExpired(s, more, r.seq_);
    RunKeeps(s, more);
    RunOrdered(t);
    NextKeepsRun(t, e);
    RunOrdered(Next(t, e));
    NoneOvertakes(t, e, r);
  }

  lemma InFlightIsEarliest(t: CloudTable, r: CloudRow, now: int)
    requires MailOrdered(t) && Foremost(t, now) && r in t.rows && r.item.state.Delivering?
    ensures EarlierExpired(t, r.seq_, now)
  {
    forall q | q in t.rows && q.seq_ < r.seq_
      ensures q.item.exp <= now
    {
      assert Behind(r, q, now);
    }
  }

  /** At most 16 devices are connected, at most two of them pairing, closed sockets that are still heard included. */
  lemma DevicesBounded(s: Cloud)
    requires Reachable(s)
    ensures |Filter(s.socks, Devices())| <= MAX_DEVICE_SOCKETS && |Filter(s.socks, Pairings())| <= MAX_PAIRING_SOCKETS
  {
    hide Reachable, CloudInv, FlightInv, Foremost, PassInRange, OneHost, DeviceTimes, Filter;
    ReachableRun(s);
  }
}
