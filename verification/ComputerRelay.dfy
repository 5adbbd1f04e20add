/**
 * The cloud relay as its code runs (`cloud/src/relay.ts`): the durable object's tables, sockets and alarm, updated in place
 * by its handlers. Each handler is proved to take the step specified in `CloudState`.
 */
module ComputerRelay {
  import opened Wrappers
  import opened Sequences
  import opened Base64Url
  import opened Acls
  import opened MailboxItems
  import opened CloudMailbox
  import opened Hookbox
  import opened CloudState
  import Invariants = CloudInvariants
  import Mail = CloudMail
  import Post = CloudPost
  import Runs = CloudRuns

  /** What every event keeps: authorisation, the alarm, the waits, the queues, the number of devices. */
  ghost predicate Sound(s: Cloud) { Runs.RunInv(s) }

  lemma KeepsSound(s: Cloud, e: Event)
    requires Possible(s, e)
    ensures Sound(s) ==> Sound(Next(s, e))
  {
    hide Possible, Next, Runs.RunInv;
    if Sound(s) {
      Runs.NextKeepsRun(s, e);
    }
  }

  /** Closing by two tests that agree on the sockets. */
  lemma ClosesAlike(s: Cloud, p: Sock -> bool, q: Sock -> bool)
    requires forall k :: p(k) == q(k)
    ensures CloudState.CloseWhere(s, p) == CloudState.CloseWhere(s, q)
  {
    assert Map(s.socks, Closing(p)) == Map(s.socks, Closing(q));
  }

  class ComputerRelay {
    var now: nat
    var owner: Option<(string, string)>
    var acl: Option<Acl>
    var blocked: map<string, Option<string>>
    var socks: seq<Sock>
    var mailbox: CloudTable
    var hookbox: HookTable
    var alarm: Option<int>
    var running: Option<Alarm>
    var lastSeenAt: Option<int>
    ghost var log: seq<HookEvent>

    ghost function View(): Cloud
      reads this
    {
      Cloud(now, owner, acl, blocked, socks, mailbox, hookbox, alarm, running, lastSeenAt, log)
    }

    constructor (now: nat)
      ensures View() == NewComputer(now) && Sound(View())
    {
      Runs.NewComputerInv(now);
      this.now := now;
      owner, acl, blocked, socks := None, None, map[], [];
      mailbox, hookbox := CLOUD_EMPTY, NO_HOOKS;
      alarm, running, lastSeenAt, log := None, None, None, [];
    }

    // ---- helpers ----

    method EnsureAlarm(at: int)
      modifies `alarm
      ensures View() == CloudState.EnsureAlarm(old(View()), at)
    {
      if alarm.None? || alarm.value > at {
        alarm := Some(at);
      }
    }

    method SafeClose(i: nat)
      requires i < |socks|
      modifies `socks
      ensures View() == CloudState.CloseSock(old(View()), i)
    {
      socks := socks[i := socks[i].(closing := true)];
    }

    /** `safeClose` on every socket that `p` holds of. */
    method CloseEach(p: Sock -> bool)
      modifies `socks
      ensures View() == CloudState.CloseWhere(old(View()), p)
    {
      ghost var was := socks;
      for i := 0 to |socks|
        invariant |socks| == |was|
        invariant forall j :: 0 <= j < i ==> socks[j] == Closing(p)(was[j])
        invariant forall j :: i <= j < |was| ==> socks[j] == was[j]
      {
        if p(socks[i]) {
          SafeClose(i);
        }
      }
      assert socks == Map(was, Closing(p));
    }

    method ReadyHost() returns (ready: bool)
      ensures ready == CloudState.HostReady(View())
    {
      ready := false;
      for i := 0 to |socks|
        invariant ready <==> exists j :: 0 <= j < i && IsReadyHost(socks[j])
      {
        if IsReadyHost(socks[i]) {
          ready := true;
        }
      }
    }

    // ---- lifecycle ----

    method HostOffline(at: int)
      modifies `lastSeenAt, `mailbox, `hookbox
      ensures View() == CloudState.HostOffline(old(View()), at)
    {
      lastSeenAt := Some(at);
      mailbox := mailbox.(rows := Map(mailbox.rows, PutsBack()));
      hookbox := hookbox.(rows := Map(hookbox.rows, HookPutsBack()));
    }

    method Gone(role: Role, at: int)
      modifies `lastSeenAt, `mailbox, `hookbox
      ensures View() == CloudState.Bookkeep(old(View()), role, at)
    {
      if role.AsHost? && role.ready {
        HostOffline(at);
      }
    }

    method Retire(i: nat, at: int)
      requires i < |socks|
      modifies this
      ensures View() == CloudState.Retire(old(View()), i, at)
    {
      var k := socks[i];
      socks := socks[i := k.(role := if k.role.AsHost? then k.role.(ready := false) else k.role, retired := Some(at))];
      Gone(k.role, at);
    }

    method Closed(i: nat)
      requires i < |socks|
      modifies this
      ensures View() == CloudState.Closed(old(View()), i)
      ensures old(socks)[i].listed && Sound(old(View())) ==> Sound(View())
    {
      hide Sound;
      if socks[i].listed { KeepsSound(View(), SocketCloses(i)); }
      var k := socks[i];
      socks := socks[i := k.(listed := false, closing := true)];
      if k.retired.None? {
        Gone(k.role, now);
      }
    }

    // ---- connecting ----

    method AcceptHost(kid: string, computer: string)
      modifies this
      ensures View() == CloudState.AcceptHost(old(View()), kid, computer)
      ensures Sound(old(View())) ==> Sound(View())
    {
      hide CloudState.Retire, Sound;
      KeepsSound(View(), HostConnects(kid, computer));
      if owner.None? {
        owner := Some((kid, computer));
      } else if owner.value.0 != kid {
        return;
      }
      ghost var owned := View();
      for i := 0 to |socks|
        invariant View() == RetireHosts(owned, i)
        invariant |socks| == |owned.socks|
      {
        if socks[i].listed && socks[i].role.AsHost? && socks[i].retired.None? {
          RetireHostsNow(owned, i);
          Retire(i, now);
        }
      }
      RetireHostsNow(owned, |owned.socks|);
      socks := socks + [Sock(AsHost(kid, false), now, true, false, None)];
      EnsureAlarm(now + ALARM_MS);
    }

    method AcceptDevice(dk: string, offer: string)
      modifies this
      ensures View() == CloudState.AcceptDevice(old(View()), dk, offer)
      ensures Sound(old(View())) ==> Sound(View())
    {
      hide Filter, Lists, Sound;
      KeepsSound(View(), DeviceConnects(dk, offer));
      if acl.None? {
        return;
      }
      if offer == "" && dk in blocked {
        return;
      }
      if |Filter(socks, Devices())| >= MAX_DEVICE_SOCKETS {
        return;
      }
      var deadline := now + ALARM_MS;
      if offer != "" {
        var o := GoodOffer(acl.value.offers, offer, now);
        if o.None? {
          return;
        }
        if |Filter(socks, Pairings())| >= MAX_PAIRING_SOCKETS {
          return;
        }
        deadline := Min(Min(deadline, now + PAIRING_TTL_MS), o.value.exp);
      } else if !Lists(acl.value, dk) {
        return;
      }
      socks := socks + [Sock(AsDevice(dk, offer != "", offer, 0), now, true, false, None)];
      EnsureAlarm(deadline);
    }

    // ---- blocking ----

    method Block(entries: seq<BlockEntry>)
      modifies this
      ensures View() == CloudState.Block(old(View()), entries)
      ensures Sound(old(View())) ==> Sound(View())
    {
      hide IsKey, Named, Sound;
      KeepsSound(View(), Blocks(entries));
      ghost var s := View();
      var dks: set<string> := {};
      assert entries[..0] == [];
      NoneNamed();
      for i := 0 to |entries|
        invariant View() == BlockKeys(s, entries[..i])
        invariant forall dk :: dk in dks <==> Named(entries[..i], dk)
      {
        var e := entries[i];
        assert entries[..i + 1] == entries[..i] + [e];
        NamedByLast(entries[..i], e);
        if IsKey(e.dk) {
          KeyText(e.dk);
          var dk := e.dk.text;
          blocked := blocked[dk := if e.grant.Text? then Some(e.grant.text) else None];
          mailbox := mailbox.(rows := Filter(mailbox.rows, Except(QueuedBy(dk))));
          dks := dks + {dk};
        }
      }
      assert entries[..|entries|] == entries;
      ClosesAlike(View(), (k: Sock) => IsDevice(k) && k.role.dk in dks, NamedDevices(entries));
      CloseEach((k: Sock) => IsDevice(k) && k.role.dk in dks);
    }

    // ---- deliveries ----

    /** One in flight at a time, in order; `ready` is what the host's attachment says. */
    method DeliverNext(ready: bool) returns (sent: Option<CloudRow>)
      modifies `mailbox
      ensures View() == if ready then CloudState.DeliverMail(old(View())) else old(View())
      ensures sent == if ready then CloudDeliver(old(mailbox), now).1 else None
    {
      hide Filter;
      if !ready {
        return None;
      }
      if First(mailbox.rows, Moving()).Some? {
        return None;
      }
      sent := First(mailbox.rows, Due(now));
      if sent.Some? {
        mailbox := mailbox.(rows := Map(mailbox.rows, Sends(sent.value.seq_)));
      }
    }

    method DeliverHook(ready: bool, at: int)
      modifies `hookbox, `log
      ensures View() == if ready then CloudState.DeliverHook(old(View()), at) else old(View())
    {
      hide Filter;
      if !ready {
        return;
      }
      if First(hookbox.rows, HookInFlight()).Some? {
        return;
      }
      var row := First(hookbox.rows, HookDue(at));
      if row.Some? {
        hookbox := hookbox.(rows := Map(hookbox.rows, HookSends(row.value.seq_)));
        log := log + [HookOffered(row.value.seq_, now, row.value.attempts)];
      }
    }

    method Hook(id: string, delivery: string, size: nat) returns (queueing: Queueing)
      modifies this
      ensures View() == CloudState.Hook(old(View()), id, delivery, size)
      ensures Sound(old(View())) ==> Sound(View())
      ensures queueing == QueueHook(old(hookbox), id, delivery, size, old(now)).1
    {
      hide Filter, Sum, CloudState.HostReady, Sound;
      KeepsSound(View(), HookArrives(id, delivery, size));
      if First(hookbox.rows, HookKeyed(id, delivery)).Some? {
        return Duplicate;
      }
      var mine := |Filter(hookbox.rows, OfHook(id))|;
      if mine >= HOOK_PER_HOOK || |hookbox.rows| >= HOOK_PER_COMPUTER || Sum(hookbox.rows, HookSize()) + size > HOOK_MAX_BYTES {
        return HookFull;
      }
      hookbox := HookInsert(hookbox, id, delivery, size, now);
      ReadyUnchanged(old(View()), View());
      var host := ReadyHost();
      DeliverHook(host, now);
      EnsureAlarm(now + ALARM_MS);
      return HookQueued;
    }

    // ---- a host's messages ----

    method OnReady(i: nat) returns (sent: Option<CloudRow>)
      requires i < |socks| && socks[i].role.AsHost?
      modifies this
      ensures View() == CloudState.OnReady(old(View()), i)
      ensures sent == Mail.FirstOut(Mail.HostHanded(old(View()), i, ReadySaid), old(now))
    {
      hide CloudState.DeliverMail, CloudState.DeliverHook, CloudDeliver;
      if socks[i].role.ready || acl.None? {
        return None;
      }
      socks := socks[i := socks[i].(role := socks[i].role.(ready := true))];
      lastSeenAt := Some(now);
      sent := DeliverNext(true);
      DeliverHook(true, now);
    }

    method OnAck(i: nat, number: Option<int>, outcome: Outcome) returns (note: Option<Note>, sent: Option<CloudRow>)
      requires i < |socks|
      modifies this
      ensures View() == CloudState.OnAck(old(View()), i, number, outcome)
      ensures note == CloudAck(old(mailbox), number, outcome).1
      ensures sent == if old(IsReady(i)) then CloudDeliver(CloudAck(old(mailbox), number, outcome).0, old(now)).1 else None
    {
      hide Filter, CloudState.DeliverMail, CloudDeliver;
      note := None;
      if number.Some? {
        var row := First(mailbox.rows, MovingAs(number.value));
        if row.Some? {
          mailbox := mailbox.(rows := Filter(mailbox.rows, Except(Numbered(number.value))));
          note := Some(Note(row.value.item.dk, row.value.item.nonce, outcome));
        }
      }
      sent := DeliverNext(IsReady(i));
    }

    function IsReady(i: nat): bool
      requires i < |socks|
      reads this
    {
      socks[i].role.AsHost? && socks[i].role.ready
    }

    method AckDelivery(number: Option<int>, retry: bool)
      modifies `hookbox, `log, `alarm
      ensures View() == CloudState.AckDelivery(old(View()), number, retry)
    {
      hide Filter, Map, Wait;
      if number.None? {
        return;
      }
      var row := First(hookbox.rows, HookAcked(number.value));
      if row.None? {
        return;
      }
      if !retry {
        hookbox := hookbox.(rows := Filter(hookbox.rows, HookOther(row.value.seq_)));
        return;
      }
      var wait := Wait(row.value.attempts);
      hookbox := hookbox.(rows := Map(hookbox.rows, HookRetries(row.value.seq_, now + wait)));
      log := log + [HookRefused(row.value.seq_, now, row.value.attempts)];
      EnsureAlarm(now + wait);
    }

    method OnHookAck(i: nat, number: Option<int>, retry: bool)
      requires i < |socks|
      modifies this
      ensures View() == CloudState.OnHookAck(old(View()), i, number, retry)
    {
      hide CloudState.AckDelivery, CloudState.DeliverHook;
      AckDelivery(number, retry);
      DeliverHook(IsReady(i), now);
    }

    /** Answers the item the host is sent, and what devices are told. */
    method OnHost(i: nat, says: HostSays) returns (sent: Option<CloudRow>, notes: seq<Note>)
      requires i < |socks| && socks[i].role.AsHost?
      modifies this
      ensures View() == CloudState.OnHost(old(View()), i, says)
      ensures sent == Mail.FirstOut(Mail.HostHanded(old(View()), i, says), old(now))
      ensures notes == Post.HostNotes(old(mailbox), says)
    {
      hide CloudState.OnReady, CloudState.OnAck, CloudState.OnHookAck, CloudState.CloseSock, CloudDeliver, CloudAck;
      sent, notes := None, [];
      match says
      case ReadySaid => sent := OnReady(i);
      case CloseSaid(link) =>
        if IsReady(i) && link < |socks| && IsDevice(socks[link]) {
          SafeClose(link);
        }
      case AckSaid(number, ok, code) =>
        var note;
        note, sent := OnAck(i, number, AckOutcome(ok, code));
        notes := if note.Some? then [note.value] else [];
      case HooksSaid(ids) => hookbox := hookbox.(rows := Filter(hookbox.rows, HookKept(ids)));
      case HookAckSaid(number, retry) => OnHookAck(i, number, retry);
      case BadHostFrame => SafeClose(i);
      case OtherHostSaid =>
    }

    // ---- an access list, once its signature is checked ----

    method OnAcl(asked: int, verdict: Option<Acl>)
      modifies this
      ensures View() == CloudState.OnAcl(old(View()), asked, verdict)
      ensures Sound(old(View())) ==> Sound(View())
    {
      hide Lists, OffersAfter, Readmits, Sound;
      KeepsSound(View(), AclChecked(asked, verdict));
      if verdict.None? || owner.None? || verdict.value.computer != owner.value.1 {
        return;
      }
      if verdict.value.ver <= Version(acl) {
        return;
      }
      acl := verdict;
      Unblock(verdict.value);
      CloseEach(ShutOut(verdict.value, asked));
    }

    /** Over a copy of the blocked rows. */
    method Unblock(list: Acl)
      modifies `blocked
      ensures blocked == StillBlocked(old(blocked), list)
    {
      hide Readmits;
      var rows, left := blocked, blocked.Keys;
      while left != {}
        invariant left <= rows.Keys
        invariant blocked == map dk | dk in rows && (dk in left || !Readmits(list, dk, rows[dk])) :: rows[dk]
        decreases |left|
      {
        var dk :| dk in left;
        left := left - {dk};
        if Readmits(list, dk, rows[dk]) {
          blocked := blocked - {dk};
        }
      }
    }

    // ---- a device's messages ----

    method MboxPut(dk: string, msg: PutMsg) returns (reply: Reply)
      modifies this
      ensures
        var s := old(View());
        var (box, said) := CloudPut(s.mailbox, dk, msg, CloudState.HostReady(s), s.now);
        reply == said && View() == if box == s.mailbox then s else CloudState.EnsureAlarm(s.(mailbox := box), s.now + ALARM_MS)
    {
      hide Filter, Sum, Decode, CloudState.HostReady;
      if !ValidNonce(msg.nonce) {
        return Err(CloudNonce(msg.nonce), Invalid);
      }
      var nonce := msg.nonce.text;
      var existing := First(mailbox.rows, OfNonce(dk, nonce));
      if existing.Some? {
        return Ok(nonce, existing.value.item.state);
      }
      var host := ReadyHost();
      if host {
        return Err(msg.nonce, HostOnline);
      }
      if msg.d.Text? && |msg.d.text| > CLOUD_MAX_TEXT {
        return Err(msg.nonce, TooLarge);
      }
      var blob := Blob(msg.d);
      if blob.None? || |blob.value| < MBOX_MIN_BLOB {
        return Err(msg.nonce, Invalid);
      }
      if |blob.value| > MAX_BLOB {
        return Err(msg.nonce, TooLarge);
      }
      var exp := Expiry(msg.exp, now);
      if exp.None? {
        return Err(msg.nonce, Invalid);
      }
      var mine := |Filter(mailbox.rows, OfKey(dk))|;
      var bytes := Sum(mailbox.rows, CloudSize());
      if mine >= MBOX_PER_DEVICE || |mailbox.rows| >= MBOX_PER_COMPUTER || bytes + |blob.value| > MBOX_MAX_BYTES {
        return Err(msg.nonce, Full);
      }
      mailbox := CloudInsert(mailbox, dk, nonce, blob.value, exp.value);
      EnsureAlarm(now + ALARM_MS);
      return Ok(nonce, Queued);
    }

    method MboxCancel(dk: string, field: Field) returns (reply: Reply)
      modifies `mailbox
      ensures (mailbox, reply) == CloudCancel(old(mailbox), dk, field)
    {
      hide Filter;
      var nonce := CancelNonce(field);
      var row := First(mailbox.rows, OfNonce(dk, nonce));
      if row.Some? && row.value.item.state.Queued? {
        mailbox := mailbox.(rows := Filter(mailbox.rows, Except(OfNonce(dk, nonce))));
        return Cancelled(nonce);
      }
      return MailboxItems.Gone(nonce, if row.Some? then Some(Delivering) else None);
    }

    method OnDevice(i: nat, says: DeviceSays, fits: bool)
      requires i < |socks| && socks[i].role.AsDevice?
      modifies this
      ensures View() == CloudState.OnDevice(old(View()), i, says, fits)
    {
      hide CloudPut, CloudCancel, CloudState.HostReady;
      if says.BadFrame? || !fits {
        SafeClose(i);
        return;
      }
      var k := socks[i];
      if k.role.pair {
        if k.role.msgs + 1 > PAIRING_MAX_MESSAGES {
          SafeClose(i);
          return;
        }
        socks := socks[i := k.(role := k.role.(msgs := k.role.msgs + 1))];
      }
      match says
      case PutSaid(msg) =>
        if !k.role.pair {
          var reply := MboxPut(k.role.dk, msg);
        }
      case CancelSaid(nonce) =>
        if !k.role.pair {
          var reply := MboxCancel(k.role.dk, nonce);
        }
      case QuietSaid =>
      case UnknownSaid => SafeClose(i);
      case BadFrame => assert false;
    }

    method FromSocket(i: nat, hostSays: HostSays, says: DeviceSays, fits: bool) returns (sent: Option<CloudRow>, notes: seq<Note>)
      requires i < |socks|
      modifies this
      ensures View() == CloudState.FromSocket(old(View()), i, hostSays, says, fits)
      ensures old(socks)[i].listed ==>
        var e := SocketSpeaks(i, hostSays, says, fits);
        sent == Mail.Sent(old(View()), e) && notes == Post.Noted(old(View()), e)
      ensures old(socks)[i].listed && Sound(old(View())) ==> Sound(View())
    {
      hide CloudState.OnHost, CloudState.OnDevice, CloudState.CloseSock, Sound;
      if socks[i].listed { KeepsSound(View(), SocketSpeaks(i, hostSays, says, fits)); }
      sent, notes := None, [];
      if socks[i].retired.Some? {
        SafeClose(i);
      } else if socks[i].role.AsHost? {
        sent, notes := OnHost(i, hostSays);
      } else {
        OnDevice(i, says, fits);
      }
    }

    // ---- the alarm ----

    /** The list `getWebSockets` returns when the handler begins. */
    method AlarmFires()
      modifies `alarm, `running
      ensures View() == CloudState.AlarmFires(old(View()))
      ensures Possible(old(View()), AlarmBegins) && Sound(old(View())) ==> Sound(View())
    {
      hide Sound;
      if Possible(View(), AlarmBegins) { KeepsSound(View(), AlarmBegins); }
      var todo: seq<nat> := [];
      for i := 0 to |socks|
        invariant todo == ListedNumbers(socks[..i])
      {
        assert socks[..i + 1][..i] == socks[..i];
        if socks[i].listed {
          todo := todo + [i];
        }
      }
      assert socks[..|socks|] == socks;
      alarm, running := None, Some(Alarm(now, todo));
    }

    method AlarmVisits(pong: int, awake: bool)
      requires Visiting(View())
      modifies this
      ensures View() == CloudState.AlarmVisits(old(View()), pong, awake)
      ensures Sound(old(View())) ==> Sound(View())
    {
      hide CloudState.Retire, CloudState.CloseSock, Sound;
      KeepsSound(View(), AlarmLooks(pong, awake));
      var began, i := running.value.began, running.value.todo[0];
      var k := socks[i];
      var heard := if pong > k.at then pong else k.at;
      running := Some(Alarm(began, running.value.todo[1..]));
      if k.retired.Some? {
        if heard > k.retired.value || awake {
          SafeClose(i);
        }
      } else if began - heard > SILENT_TIMEOUT_MS {
        Retire(i, began);
      }
    }

    /** Answers what devices are told of the items that ran out. */
    method AlarmTidies(began: int) returns (notes: seq<Note>)
      modifies this
      ensures View() == CloudState.AlarmTidies(old(View()), began) && notes == CloudExpire(old(mailbox), began).1
    {
      hide Filter, CloudState.HostReady, CloudState.DeliverHook;
      notes := Map(Filter(mailbox.rows, PastExpiry(began)), (r: CloudRow) => Note(r.item.dk, r.item.nonce, ExpiredItem));
      mailbox := mailbox.(rows := Filter(mailbox.rows, Except(PastExpiry(began))));
      hookbox := hookbox.(rows := Filter(hookbox.rows, HookFresh(began)));
      ReadyUnchanged(old(View()), View());
      var host := ReadyHost();
      DeliverHook(host, began);
    }

    /** Over the pairing sockets: those whose time is up are closed, the others bring the next alarm forward. */
    method PairingPass(began: int) returns (next: int)
      modifies `socks
      ensures View() == CloudState.CloseWhere(old(View()), PairingOver(acl, began))
      ensures next == NextEnd(old(socks), acl, began, began + ALARM_MS)
    {
      hide PairingEnd;
      ghost var was := socks;
      next := began + ALARM_MS;
      for i := 0 to |socks|
        invariant |socks| == |was| && next == NextEnd(was[..i], acl, began, began + ALARM_MS)
        invariant forall j :: 0 <= j < i ==> socks[j] == Closing(PairingOver(acl, began))(was[j])
        invariant forall j :: i <= j < |was| ==> socks[j] == was[j]
      {
        assert was[..i + 1][..i] == was[..i];
        if IsPairing(socks[i]) {
          var end := PairingEnd(acl, socks[i]);
          if end <= began {
            SafeClose(i);
          } else {
            next := Min(next, end);
          }
        }
      }
      assert was[..|was|] == was;
      assert socks == Map(was, Closing(PairingOver(acl, began)));
    }

    method IsBusy() returns (busy: bool)
      ensures busy == Busy(View())
    {
      var any := false;
      for i := 0 to |socks|
        invariant any <==> exists j :: 0 <= j < i && socks[j].listed
      {
        any := any || socks[i].listed;
      }
      busy := any || mailbox.rows != [] || hookbox.rows != [];
    }

    method AlarmFinishes() returns (notes: seq<Note>)
      requires running.Some?
      modifies this
      ensures View() == CloudState.AlarmFinishes(old(View()))
      ensures notes == CloudExpire(old(mailbox), old(running).value.began).1
      ensures old(running).value.todo == [] && Sound(old(View())) ==> Sound(View())
    {
      hide CloudState.AlarmTidies, Busy, NextEnd, NextDue, PairingOver, HookWaiting, Sound, CloudExpire, LapseHooks, Filter, Map, CloudState.HostReady;
      if running.value.todo == [] { KeepsSound(View(), AlarmEnds); }
      var began := running.value.began;
      TidyKeepsAlarm(View(), began);
      notes := AlarmTidies(began);
      ghost var t := View();
      var next := PairingPass(began);
      var due := NextDue(hookbox.rows, began);
      if due.Some? {
        next := Min(next, due.value);
      }
      ClosingKeepsBusy(t, PairingOver(acl, began));
      var busy := IsBusy();
      if busy {
        alarm := Some(next);
      }
      running := None;
    }

    // ---- one event after the other ----

    /** Time passes between handlers. */
    method Tick(ms: nat)
      modifies `now
      ensures View() == Next(old(View()), CloudState.Tick(ms))
      ensures Sound(old(View())) ==> Sound(View())
    {
      hide Sound;
      KeepsSound(View(), CloudState.Tick(ms));
      now := now + ms;
    }

    /** Whatever happens, its handler takes the specified step, sends the host what `Sent` says and devices what `Noted` says. */
    method Handle(e: Event) returns (sent: Option<CloudRow>, notes: seq<Note>)
      requires Possible(View(), e)
      modifies this
      ensures View() == Next(old(View()), e) && sent == Mail.Sent(old(View()), e) && notes == Post.Noted(old(View()), e)
      ensures Sound(old(View())) ==> Sound(View())
    {
      hide Sound, CloudState.AcceptHost, CloudState.AcceptDevice, CloudState.Block, CloudState.Hook, CloudState.FromSocket,
        CloudState.OnAcl, CloudState.Closed, CloudState.AlarmFires, CloudState.AlarmVisits, CloudState.AlarmFinishes;
      sent, notes := None, [];
      match e
      case Tick(ms) => Tick(ms);
      case HostConnects(kid, computer) => AcceptHost(kid, computer);
      case DeviceConnects(dk, offer) => AcceptDevice(dk, offer);
      case Blocks(entries) => Block(entries);
      case HookArrives(id, delivery, size) => var queueing := Hook(id, delivery, size);
      case SocketSpeaks(i, hostSays, says, fits) => sent, notes := FromSocket(i, hostSays, says, fits);
      case AclChecked(asked, verdict) => OnAcl(asked, verdict);
      case SocketCloses(i) => Closed(i);
      case AlarmBegins => AlarmFires();
      case AlarmLooks(pong, awake) => AlarmVisits(pong, awake);
      case AlarmEnds => notes := AlarmFinishes();
    }
  }

  /** The code's runs are the specification's: handling the events in turn leads a new computer to the run's last state. */
  method RunsAs(now: nat, es: seq<Event>) returns (relay: ComputerRelay)
    requires Runs.Feasible(now, es)
    ensures fresh(relay) && relay.View() == Runs.After(now, es) && Runs.Reachable(relay.View())
  {
    hide Runs.RunInv, Next, Possible, Runs.From;
    relay := new ComputerRelay(now);
    Runs.NothingYet(now);
    for i := 0 to |es|
      invariant fresh(relay) && relay.View() == Runs.After(now, es[..i])
    {
      Runs.RunStep(NewComputer(now), es, i);
      var sent, notes := relay.Handle(es[i]);
    }
    assert es[..|es|] == es;
  }

  lemma RetireHostsNow(s: Cloud, n: nat)
    requires n <= |s.socks|
    ensures RetireHosts(s, n).now == s.now
  {
    if n > 0 {
      RetireHostsNow(s, n - 1);
    }
  }

  lemma KeyText(f: Field)
    requires IsKey(f)
    ensures f.Text?
  {
  }

  lemma NoneNamed()
    ensures forall dk :: !Named([], dk)
  {
  }

  lemma NamedByLast(front: seq<BlockEntry>, e: BlockEntry)
    ensures forall dk :: Named(front + [e], dk) <==> Named(front, dk) || (IsKey(e.dk) && e.dk.text == dk)
  {
    hide Named;
    forall dk
      ensures Named(front + [e], dk) <==> Named(front, dk) || (IsKey(e.dk) && e.dk.text == dk)
    {
      Invariants.NamedLast(front, e, dk);
    }
  }

  lemma ReadyUnchanged(s: Cloud, t: Cloud)
    requires t.socks == s.socks
    ensures CloudState.HostReady(t) == CloudState.HostReady(s)
  {
  }

  lemma TidyKeepsAlarm(s: Cloud, began: int)
    ensures CloudState.AlarmTidies(s, began).alarm == s.alarm && CloudState.AlarmTidies(s, began).running == s.running
  {
    hide CloudState.DeliverHook;
    Invariants.DeliverHookSame(s.(mailbox := CloudExpire(s.mailbox, began).0, hookbox := LapseHooks(s.hookbox, began)), began);
  }

  lemma ClosingKeepsBusy(s: Cloud, p: Sock -> bool)
    ensures Busy(CloudState.CloseWhere(s, p)) == Busy(s)
  {
    var t := CloudState.CloseWhere(s, p);
    forall i | 0 <= i < |s.socks|
      ensures t.socks[i].listed == s.socks[i].listed
    {
    }
    if exists i :: 0 <= i < |s.socks| && s.socks[i].listed {
      var i :| 0 <= i < |s.socks| && s.socks[i].listed;
      assert t.socks[i].listed;
    }
  }
}
