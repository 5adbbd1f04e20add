/**
 * The cloud relay of one computer (`cloud/src/relay.ts`) as states and steps. A handler runs to its end before the next
 * event, but for three places where the source waits: the check of an access list's signature, the check of a webhook's
 * proof, and the alarm's pass over the sockets. What a handler read before such a wait is the event's parameter or, for
 * the alarm, part of the state. A socket's number stands for the socket and for its link id.
 */
module CloudState {
  import opened Wrappers
  import opened Sequences
  import opened Base64Url
  import opened Acls
  import opened MailboxItems
  import opened CloudMailbox
  import opened Hookbox

  const MAX_DEVICE_SOCKETS := 16
  const MAX_PAIRING_SOCKETS := 2
  const PAIRING_TTL_MS := 120_000
  const PAIRING_MAX_MESSAGES := 16
  const SILENT_TIMEOUT_MS := 90_000
  const ALARM_MS := 60_000

  datatype Role = AsHost(kid: string, ready: bool) | AsDevice(dk: string, pair: bool, offer: string, msgs: nat)

  /** `listed` is what `getWebSockets` reports, `closing` that the relay has called `close` on it. */
  datatype Sock = Sock(role: Role, at: int, listed: bool, closing: bool, retired: Option<int>)

  /** The alarm handler between two sockets: when it began, and which sockets it still has to look at. */
  datatype Alarm = Alarm(began: nat, todo: seq<nat>)

  /** What happened to webhook deliveries, in order. */
  datatype HookEvent =
    | HookOffered(seq_: nat, at: int, attempts: nat)
    | HookRefused(seq_: nat, at: int, attempts: nat)

  datatype Cloud = Cloud(now: nat, owner: Option<(string, string)>, acl: Option<Acl>, blocked: map<string, Option<string>>,
                         socks: seq<Sock>, mailbox: CloudTable, hookbox: HookTable, alarm: Option<int>, running: Option<Alarm>,
                         lastSeenAt: Option<int>, log: seq<HookEvent>)

  function NewComputer(now: nat): Cloud {
    Cloud(now, None, None, map[], [], CLOUD_EMPTY, NO_HOOKS, None, None, None, [])
  }

  // ---- reading the sockets ----

  predicate IsReadyHost(k: Sock) { k.listed && k.role.AsHost? && k.role.ready }

  /** One of `devices()`. */
  predicate IsDevice(k: Sock) { k.listed && k.role.AsDevice? && k.retired.None? }

  predicate IsPairing(k: Sock) { IsDevice(k) && k.role.pair }

  predicate HostReady(s: Cloud) {
    exists i :: 0 <= i < |s.socks| && IsReadyHost(s.socks[i])
  }

  function Devices(): Sock -> bool { (k: Sock) => IsDevice(k) }

  function Pairings(): Sock -> bool { (k: Sock) => IsPairing(k) }

  function Version(acl: Option<Acl>): int { if acl.Some? then acl.value.ver else 0 }

  // ---- the alarm clock ----

  function EnsureAlarm(s: Cloud, at: int): Cloud {
    if s.alarm.None? || s.alarm.value > at then s.(alarm := Some(at)) else s
  }

  function Min(a: int, b: int): int { if a <= b then a else b }

  // ---- closing and retiring ----

  function CloseSock(s: Cloud, i: nat): Cloud
    requires i < |s.socks|
  {
    s.(socks := s.socks[i := s.socks[i].(closing := true)])
  }

  function Closing(p: Sock -> bool): Sock -> Sock { (k: Sock) => if p(k) then k.(closing := true) else k }

  /** `safeClose` on every socket `p` holds of. */
  function CloseWhere(s: Cloud, p: Sock -> bool): Cloud { s.(socks := Map(s.socks, Closing(p))) }

  /** Mail and deliveries in flight go back to their queues. */
  function HostOffline(s: Cloud, at: int): Cloud {
    s.(lastSeenAt := Some(at), mailbox := CloudRequeue(s.mailbox), hookbox := PutHooksBack(s.hookbox))
  }

  /** The bookkeeping for a socket that had attachment `role`. */
  function Bookkeep(s: Cloud, role: Role, at: int): Cloud {
    if role.AsHost? && role.ready then HostOffline(s, at) else s
  }

  function Unready(role: Role): Role { if role.AsHost? then role.(ready := false) else role }

  function Retire(s: Cloud, i: nat, at: int): Cloud
    requires i < |s.socks|
  {
    var k := s.socks[i];
    Bookkeep(s.(socks := s.socks[i := k.(role := Unready(k.role), retired := Some(at))]), k.role, at)
  }

  // ---- connecting ----

  /** The first `n` sockets' hosts, those not retired yet, retired. */
  function RetireHosts(s: Cloud, n: nat): (t: Cloud)
    requires n <= |s.socks|
    ensures |t.socks| == |s.socks|
  {
    if n == 0 then s
    else
      var t := RetireHosts(s, n - 1);
      var k := t.socks[n - 1];
      if k.listed && k.role.AsHost? && k.retired.None? then Retire(t, n - 1, s.now) else t
  }

  function Accept(s: Cloud, role: Role): Cloud {
    s.(socks := s.socks + [Sock(role, s.now, true, false, None)])
  }

  function AcceptHost(s: Cloud, kid: string, computer: string): Cloud {
    if s.owner.Some? && s.owner.value.0 != kid then s
    else
      var owned := if s.owner.None? then s.(owner := Some((kid, computer))) else s;
      EnsureAlarm(Accept(RetireHosts(owned, |s.socks|), AsHost(kid, false)), s.now + ALARM_MS)
  }

  /** The good offer `find` would return: the first with the id that is still good. */
  function GoodOffer(offers: seq<Offer>, id: string, now: int): Option<Offer> {
    First(offers, (o: Offer) => o.id == id && o.exp > now)
  }

  /** A pairing socket has an offer; an empty one is none. */
  function AcceptDevice(s: Cloud, dk: string, offer: string): Cloud {
    if s.acl.None? then s
    else if offer == "" && dk in s.blocked then s
    else if |Filter(s.socks, Devices())| >= MAX_DEVICE_SOCKETS then s
    else if offer != "" then
      match GoodOffer(s.acl.value.offers, offer, s.now)
      case None => s
      case Some(o) =>
        if |Filter(s.socks, Pairings())| >= MAX_PAIRING_SOCKETS then s
        else EnsureAlarm(Accept(s, AsDevice(dk, true, offer, 0)), Min(Min(s.now + ALARM_MS, s.now + PAIRING_TTL_MS), o.exp))
    else if !Lists(s.acl.value, dk) then s
    else EnsureAlarm(Accept(s, AsDevice(dk, false, "", 0)), s.now + ALARM_MS)
  }

  // ---- blocking ----

  datatype BlockEntry = BlockEntry(dk: Field, grant: Field)

  predicate IsKey(f: Field) { f.Text? && Decode(f.text, Some(32)).Some? }

  /** The first `n` entries: a blocked key, and nothing of its left in the queue. */
  function BlockKeys(s: Cloud, entries: seq<BlockEntry>): (t: Cloud)
    ensures t == s.(blocked := t.blocked, mailbox := t.mailbox)
    decreases |entries|
  {
    if entries == [] then s
    else
      var t, e := BlockKeys(s, entries[..|entries| - 1]), entries[|entries| - 1];
      if !IsKey(e.dk) then t
      else t.(blocked := t.blocked[e.dk.text := if e.grant.Text? then Some(e.grant.text) else None], mailbox := CloudForget(t.mailbox, e.dk.text))
  }

  predicate Named(entries: seq<BlockEntry>, dk: string) {
    exists i :: 0 <= i < |entries| && IsKey(entries[i].dk) && entries[i].dk.text == dk
  }

  function NamedDevices(entries: seq<BlockEntry>): Sock -> bool { (k: Sock) => IsDevice(k) && Named(entries, k.role.dk) }

  function Block(s: Cloud, entries: seq<BlockEntry>): Cloud {
    CloseWhere(BlockKeys(s, entries), NamedDevices(entries))
  }

  // ---- deliveries to the host ----

  function DeliverHook(s: Cloud, at: int): Cloud {
    var (box, row) := OfferHook(s.hookbox, at);
    s.(hookbox := box, log := if row.Some? then s.log + [HookOffered(row.value.seq_, s.now, row.value.attempts)] else s.log)
  }

  function DeliverMail(s: Cloud): Cloud { s.(mailbox := CloudDeliver(s.mailbox, s.now).0) }

  /** A webhook whose proof has been checked. */
  function Hook(s: Cloud, id: string, delivery: string, size: nat): Cloud {
    var (box, queueing) := QueueHook(s.hookbox, id, delivery, size, s.now);
    if !queueing.HookQueued? then s
    else
      var queued := s.(hookbox := box);
      EnsureAlarm(if HostReady(s) then DeliverHook(queued, s.now) else queued, s.now + ALARM_MS)
  }

  // ---- a host's messages ----

  datatype HostSays =
    | ReadySaid
    | CloseSaid(link: nat)
    | AckSaid(number: Option<int>, ok: bool, code: Field)
    | HooksSaid(ids: set<string>)
    | HookAckSaid(number: Option<int>, retry: bool)
    | BadHostFrame
    | OtherHostSaid

  function IsReady(s: Cloud, i: nat): bool
    requires i < |s.socks|
  {
    s.socks[i].role.AsHost? && s.socks[i].role.ready
  }

  function OnReady(s: Cloud, i: nat): Cloud
    requires i < |s.socks| && s.socks[i].role.AsHost?
  {
    if s.socks[i].role.ready || s.acl.None? then s
    else
      var k := s.socks[i];
      DeliverHook(DeliverMail(s.(socks := s.socks[i := k.(role := k.role.(ready := true))], lastSeenAt := Some(s.now))), s.now)
  }

  function OnAck(s: Cloud, i: nat, number: Option<int>, outcome: Outcome): Cloud
    requires i < |s.socks|
  {
    var acked := s.(mailbox := CloudAck(s.mailbox, number, outcome).0);
    if IsReady(s, i) then DeliverMail(acked) else acked
  }

  /** A `hook.ack` for the delivery in flight: gone for good, or back in the queue to wait, with the alarm no later. */
  function AckDelivery(s: Cloud, number: Option<int>, retry: bool): Cloud {
    var row := AckedHook(s.hookbox, number);
    var acked := s.(hookbox := AckHook(s.hookbox, number, retry, s.now));
    if row.Some? && retry
    then EnsureAlarm(acked.(log := s.log + [HookRefused(row.value.seq_, s.now, row.value.attempts)]), s.now + Wait(row.value.attempts))
    else acked
  }

  function OnHookAck(s: Cloud, i: nat, number: Option<int>, retry: bool): Cloud
    requires i < |s.socks|
  {
    var acked := AckDelivery(s, number, retry);
    if IsReady(s, i) then DeliverHook(acked, s.now) else acked
  }

  function OnHost(s: Cloud, i: nat, says: HostSays): Cloud
    requires i < |s.socks| && s.socks[i].role.AsHost?
  {
    match says
    case ReadySaid => OnReady(s, i)
    case CloseSaid(link) => if IsReady(s, i) && link < |s.socks| && IsDevice(s.socks[link]) then CloseSock(s, link) else s
    case AckSaid(number, ok, code) => OnAck(s, i, number, AckOutcome(ok, code))
    case HooksSaid(ids) => s.(hookbox := DropHooks(s.hookbox, ids))
    case HookAckSaid(number, retry) => OnHookAck(s, i, number, retry)
    case BadHostFrame => CloseSock(s, i)
    case OtherHostSaid => s
  }

  // ---- an access list, once its signature is checked ----

  /** Listed with a grant that is not the blocked one. */
  predicate Readmits(acl: Acl, dk: string, grant: Option<string>) {
    exists i :: 0 <= i < |acl.devices| && acl.devices[i].dk == dk && acl.devices[i].grant != grant
  }

  function StillBlocked(blocked: map<string, Option<string>>, acl: Acl): map<string, Option<string>> {
    map dk | dk in blocked && !Readmits(acl, dk, blocked[dk]) :: blocked[dk]
  }

  /** A device the list no longer admits. */
  function ShutOut(acl: Acl, now: int): Sock -> bool {
    (k: Sock) => IsDevice(k) && if k.role.pair then !OffersAfter(acl, k.role.offer, now) else !Lists(acl, k.role.dk)
  }

  /** `asked` is the time the handler read before the check. */
  function OnAcl(s: Cloud, asked: int, verdict: Option<Acl>): Cloud {
    if verdict.None? || s.owner.None? || verdict.value.computer != s.owner.value.1 then s
    else if verdict.value.ver <= Version(s.acl) then s
    else
      CloseWhere(s.(acl := verdict, blocked := StillBlocked(s.blocked, verdict.value)), ShutOut(verdict.value, asked))
  }

  // ---- a device's messages ----

  datatype DeviceSays =
    | PutSaid(msg: PutMsg)
    | CancelSaid(nonce: Field)
    | QuietSaid
    | BadFrame
    | UnknownSaid

  /** `fits` is what `charge` answers for the message. */
  function OnDevice(s: Cloud, i: nat, says: DeviceSays, fits: bool): Cloud
    requires i < |s.socks| && s.socks[i].role.AsDevice?
  {
    var k := s.socks[i];
    if says.BadFrame? || !fits || (k.role.pair && k.role.msgs + 1 > PAIRING_MAX_MESSAGES) then CloseSock(s, i)
    else
      var counted := if k.role.pair then s.(socks := s.socks[i := k.(role := k.role.(msgs := k.role.msgs + 1))]) else s;
      match says
      case PutSaid(msg) =>
        if k.role.pair then counted
        else
          var mailbox := CloudPut(s.mailbox, k.role.dk, msg, HostReady(s), s.now).0;
          if mailbox == s.mailbox then s else EnsureAlarm(s.(mailbox := mailbox), s.now + ALARM_MS)
      case CancelSaid(nonce) => if k.role.pair then counted else s.(mailbox := CloudCancel(s.mailbox, k.role.dk, nonce).0)
      case QuietSaid => counted
      case _ => CloseSock(counted, i)
  }

  /** A frame from a socket: a retired one is only closed. */
  function FromSocket(s: Cloud, i: nat, hostSays: HostSays, says: DeviceSays, fits: bool): Cloud
    requires i < |s.socks|
  {
    if s.socks[i].retired.Some? then CloseSock(s, i)
    else if s.socks[i].role.AsHost? then OnHost(s, i, hostSays)
    else OnDevice(s, i, says, fits)
  }

  /** The socket leaves the list when its close handler starts. */
  function Closed(s: Cloud, i: nat): Cloud
    requires i < |s.socks|
  {
    var k := s.socks[i];
    var off := s.(socks := s.socks[i := k.(listed := false, closing := true)]);
    if k.retired.Some? then off else Bookkeep(off, k.role, s.now)
  }

  // ---- the alarm ----

  function ListedNumbers(socks: seq<Sock>): (r: seq<nat>)
    ensures forall i :: i in r <==> 0 <= i < |socks| && socks[i].listed
  {
    if socks == [] then []
    else
      var front := ListedNumbers(socks[..|socks| - 1]);
      if socks[|socks| - 1].listed then front + [|socks| - 1] else front
  }

  function AlarmFires(s: Cloud): Cloud {
    s.(alarm := None, running := Some(Alarm(s.now, ListedNumbers(s.socks))))
  }

  predicate Visiting(s: Cloud) {
    s.running.Some? && s.running.value.todo != [] && s.running.value.todo[0] < |s.socks|
  }

  /** One socket: `pong` is its last automatic answer, `awake` that this instance retired it. */
  function AlarmVisits(s: Cloud, pong: int, awake: bool): Cloud
    requires Visiting(s)
  {
    var began, i := s.running.value.began, s.running.value.todo[0];
    var k := s.socks[i];
    var heard := if pong > k.at then pong else k.at;
    var t := s.(running := Some(Alarm(began, s.running.value.todo[1..])));
    if k.retired.Some? then if heard > k.retired.value || awake then CloseSock(t, i) else t
    else if began - heard > SILENT_TIMEOUT_MS then Retire(t, i, began)
    else t
  }

  /** When a pairing socket's time is up. */
  function PairingEnd(acl: Option<Acl>, k: Sock): int
    requires k.role.AsDevice?
  {
    var exp := if acl.Some? then OfferExpiry(acl.value.offers, k.role.offer) else None;
    Min(k.at + PAIRING_TTL_MS, if exp.Some? then exp.value else 0)
  }

  function PairingOver(acl: Option<Acl>, now: int): Sock -> bool {
    (k: Sock) => IsPairing(k) && PairingEnd(acl, k) <= now
  }

  /** The earliest of `next` and the pairing ends still ahead. */
  function NextEnd(socks: seq<Sock>, acl: Option<Acl>, now: int, next: int): (r: int)
    ensures r <= next
    decreases |socks|
  {
    if socks == [] then next
    else
      var front, k := NextEnd(socks[..|socks| - 1], acl, now, next), socks[|socks| - 1];
      if IsPairing(k) && PairingEnd(acl, k) > now then Min(front, PairingEnd(acl, k)) else front
  }

  predicate Busy(s: Cloud) {
    || (exists i :: 0 <= i < |s.socks| && s.socks[i].listed)
    || s.mailbox.rows != []
    || s.hookbox.rows != []
  }

  /** What the alarm does to the queues. */
  function AlarmTidies(s: Cloud, began: int): Cloud {
    var tidy := s.(mailbox := CloudExpire(s.mailbox, began).0, hookbox := LapseHooks(s.hookbox, began));
    if HostReady(s) then DeliverHook(tidy, began) else tidy
  }

  /** When the alarm next goes off. */
  function NextAlarm(s: Cloud, began: int): (r: int)
    ensures r <= began + ALARM_MS
  {
    var next := NextEnd(s.socks, s.acl, began, began + ALARM_MS);
    var due := NextDue(s.hookbox.rows, began);
    if due.Some? then Min(next, due.value) else next
  }

  function AlarmFinishes(s: Cloud): Cloud
    requires s.running.Some?
  {
    var began := s.running.value.began;
    var t := AlarmTidies(s, began);
    var closed := CloseWhere(t, PairingOver(t.acl, began));
    closed.(running := None, alarm := if Busy(t) then Some(NextAlarm(t, began)) else s.alarm)
  }

  // ---- events ----

  datatype Event =
    | Tick(ms: nat)
    | HostConnects(kid: string, computer: string)
    | DeviceConnects(dk: string, offer: string)
    | Blocks(entries: seq<BlockEntry>)
    | HookArrives(id: string, delivery: string, size: nat)
    | SocketSpeaks(i: nat, hostSays: HostSays, says: DeviceSays, fits: bool)
    | AclChecked(asked: int, verdict: Option<Acl>)
    | SocketCloses(i: nat)
    | AlarmBegins
    | AlarmLooks(pong: int, awake: bool)
    | AlarmEnds

  /** Only listed sockets speak or close; an alarm begins when its time has come and no other is being handled. */
  predicate Possible(s: Cloud, e: Event) {
    match e
    case SocketSpeaks(i, _, _, _) => i < |s.socks| && s.socks[i].listed
    case SocketCloses(i) => i < |s.socks| && s.socks[i].listed
    case AlarmBegins => s.running.None? && s.alarm.Some? && s.alarm.value <= s.now
    case AlarmLooks(_, _) => Visiting(s)
    case AlarmEnds => s.running.Some? && s.running.value.todo == []
    case _ => true
  }

  function Next(s: Cloud, e: Event): Cloud
    requires Possible(s, e)
  {
    match e
    case Tick(ms) => s.(now := s.now + ms)
    case HostConnects(kid, computer) => AcceptHost(s, kid, computer)
    case DeviceConnects(dk, offer) => AcceptDevice(s, dk, offer)
    case Blocks(entries) => Block(s, entries)
    case HookArrives(id, delivery, size) => Hook(s, id, delivery, size)
    case SocketSpeaks(i, hostSays, says, fits) => FromSocket(s, i, hostSays, says, fits)
    case AclChecked(asked, verdict) => OnAcl(s, asked, verdict)
    case SocketCloses(i) => Closed(s, i)
    case AlarmBegins => AlarmFires(s)
    case AlarmLooks(pong, awake) => AlarmVisits(s, pong, awake)
    case AlarmEnds => AlarmFinishes(s)
  }
}
