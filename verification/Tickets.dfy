/**
 * The push relay's tickets (`relay/src/index.ts`): what registration seals, and which entry of a batch each physical
 * destination receives.
 */
module Tickets {
  import opened Wrappers
  import opened MailboxItems

  const BUNDLE_ID := "com.pokai.Codync.ios"
  const DEV_BUNDLE_ID := BUNDLE_ID + ".dev"
  const MAX_BATCH := 256

  datatype ApnsEnv = Sandbox | Production

  datatype Kind = Alert | LiveActivity

  datatype Ticket =
    | Apns(t: string, e: ApnsEnv, k: Kind, b: Option<string>)
    | Fcm(t: string, k: Kind, c: string, h: string, b: Option<string>, r: Option<string>)

  // ---- registration ----

  datatype Body = Body(provider: Field, token: Field, env: Field, kind: Field, ctx: Field, computerId: Field, botId: Field,
                       taskId: Field, bundleId: Field)

  datatype Registered = Sealed(ticket: Ticket) | Declined(what: string)

  predicate Alphanumeric(c: char) { 'A' <= c <= 'Z' || 'a' <= c <= 'z' || '0' <= c <= '9' }

  predicate Hex(c: char) { '0' <= c <= '9' || 'a' <= c <= 'f' || 'A' <= c <= 'F' }

  predicate LowerHex(c: char) { '0' <= c <= '9' || 'a' <= c <= 'f' }

  predicate IdChar(c: char) { Alphanumeric(c) || c == '_' || c == '-' }

  predicate All(s: string, p: char -> bool) { forall i :: 0 <= i < |s| ==> p(s[i]) }

  predicate FcmToken(s: string) { 20 <= |s| <= 4096 && All(s, c => IdChar(c) || c == ':' || c == '.') }

  predicate ApnsToken(s: string) { |s| % 2 == 0 && 16 <= |s| / 2 <= 100 && All(s, Hex) }

  predicate Context(s: string) { s == "local" || (|s| == 64 && All(s, LowerHex)) }

  predicate BotId(s: string) { 1 <= |s| <= 128 && All(s, IdChar) }

  predicate TaskId(s: string) { |s| == 36 && All(s, c => LowerHex(c) || c == '-') }

  function KindOf(f: Field): Option<Kind> {
    if f == Text("alert") then Some(Alert) else if f == Text("liveactivity") then Some(LiveActivity) else None
  }

  function EnvOf(f: Field): Option<ApnsEnv> {
    if f == Text("production") then Some(Production) else if f == Text("sandbox") then Some(Sandbox) else None
  }

  function RegisterFcm(body: Body): Registered {
    if !body.token.Text? || !FcmToken(body.token.text) then Declined("token")
    else if KindOf(body.kind).None? then Declined("kind")
    else
      var k := KindOf(body.kind).value;
      if !body.ctx.Text? || !Context(body.ctx.text)
         || !body.computerId.Text? || |body.computerId.text| != 22 || !All(body.computerId.text, IdChar)
         || (k.LiveActivity? && (!body.botId.Text? || !BotId(body.botId.text) || !body.taskId.Text? || !TaskId(body.taskId.text)))
      then Declined("context")
      else Sealed(Fcm(body.token.text, k, body.ctx.text, body.computerId.text,
                      if k.LiveActivity? then Some(body.botId.text) else None,
                      if k.LiveActivity? then Some(body.taskId.text) else None))
  }

  function RegisterApns(body: Body): Registered {
    if !body.token.Text? || !ApnsToken(body.token.text) then Declined("token")
    else if EnvOf(body.env).None? then Declined("environment")
    else if KindOf(body.kind).None? then Declined("kind")
    else if !body.bundleId.Absent? && body.bundleId != Text(BUNDLE_ID) && body.bundleId != Text(DEV_BUNDLE_ID) then Declined("bundle identifier")
    else Sealed(Apns(body.token.text, EnvOf(body.env).value, KindOf(body.kind).value, if body.bundleId.Text? then Some(body.bundleId.text) else None))
  }

  function Register(body: Body): Registered {
    if body.provider == Text("fcm") then RegisterFcm(body)
    else if !body.provider.Absent? && body.provider != Text("apns") then Declined("provider")
    else RegisterApns(body)
  }

  // ---- keys ----

  function LowerChar(c: char): char {
    if 'A' <= c <= 'Z' then (c as int + 32) as char else c
  }

  function Lower(s: string): (r: string)
    ensures |r| == |s|
  {
    seq(|s|, i requires 0 <= i < |s| => LowerChar(s[i]))
  }

  function KindText(k: Kind): string { if k.Alert? then "alert" else "liveactivity" }

  function EnvText(e: ApnsEnv): string { if e.Sandbox? then "sandbox" else "production" }

  function Joined(a: string, rest: string): string { a + ":" + rest }

  /** The key `latestTicketIndices` files a ticket under. */
  function KeyOf(x: Ticket): string {
    match x
    case Fcm(t, k, _, _, b, _) => Joined("fcm", Joined(KindText(k), Joined(if b.Some? then b.value else "", t)))
    case Apns(t, e, k, b) =>
      Joined("apns", Joined(if b.Some? then b.value else BUNDLE_ID, Joined(EnvText(e), Joined(KindText(k), Lower(t)))))
  }

  /** One physical destination: an app's token, and for Android tasks the bot they are about. */
  datatype Destination =
    | ToApns(bundle: string, apnsEnv: ApnsEnv, apnsKind: Kind, hex: string)
    | ToFcm(kind: Kind, bot: string, token: string)

  function DestinationOf(x: Ticket): Destination {
    match x
    case Fcm(t, k, _, _, b, _) => ToFcm(k, if b.Some? then b.value else "", t)
    case Apns(t, e, k, b) => ToApns(if b.Some? then b.value else BUNDLE_ID, e, k, Lower(t))
  }

  predicate NoColon(s: string) { ':' !in s }

  /** What registration guarantees about the fields of a key before its last. */
  predicate Unambiguous(x: Ticket) {
    x.b.Some? ==> NoColon(x.b.value)
  }

  lemma SealedUnambiguous(body: Body)
    requires Register(body).Sealed?
    ensures Unambiguous(Register(body).ticket)
  {
    hide FcmToken, ApnsToken, Context, TaskId;
    var x := Register(body).ticket;
    if x.Apns? && x.b.Some? {
      assert x.b.value == BUNDLE_ID || x.b.value == DEV_BUNDLE_ID;
      BundlesNoColon();
    } else if x.b.Some? {
      assert BotId(x.b.value);
    }
  }

  /** The request that a ticket came from, whatever it said in the fields that its provider does not read. */
  predicate CarriedFrom(x: Ticket, body: Body) {
    match x
    case Fcm(t, k, c, h, b, r) =>
      && body.provider == Text("fcm") && body.token == Text(t) && body.kind == Text(KindText(k))
      && body.ctx == Text(c) && body.computerId == Text(h)
      && (k.LiveActivity? ==> b.Some? && r.Some? && body.botId == Text(b.value) && body.taskId == Text(r.value))
      && (k.Alert? ==> b.None? && r.None?)
    case Apns(t, e, k, b) =>
      && (body.provider.Absent? || body.provider == Text("apns")) && body.token == Text(t) && body.kind == Text(KindText(k))
      && body.env == Text(EnvText(e)) && body.bundleId == (if b.Some? then Text(b.value) else Absent)
      && (b.Some? ==> b.value == BUNDLE_ID || b.value == DEV_BUNDLE_ID)
  }

  /** The fields a provider's ticket may hold. */
  predicate WellFormed(x: Ticket) {
    match x
    case Fcm(t, k, c, h, b, r) =>
      FcmToken(t) && Context(c) && |h| == 22 && All(h, IdChar) && (b.Some? ==> BotId(b.value)) && (r.Some? ==> TaskId(r.value))
    case Apns(t, _, _, _) => ApnsToken(t)
  }

  /** A request is sealed exactly when it says all that some well-formed ticket holds, and into that ticket. */
  lemma SealedExactly(body: Body, x: Ticket)
    ensures Register(body) == Sealed(x) <==> CarriedFrom(x, body) && WellFormed(x)
  {
    hide FcmToken, ApnsToken, Context, BotId, TaskId, All;
    KindsApart();
  }

  lemma KindsApart()
    ensures KindText(Alert) != KindText(LiveActivity) && EnvText(Sandbox) != EnvText(Production) && "fcm" != "apns"
  {
    assert "alert"[0] != "liveactivity"[0] && "sandbox"[0] != "production"[0] && "fcm"[0] != "apns"[0];
  }

  lemma BundlesNoColon()
    ensures NoColon(BUNDLE_ID) && NoColon(DEV_BUNDLE_ID)
  {
  }

  function FirstColon(s: string): (n: nat)
    ensures n <= |s|
  {
    if s == "" || s[0] == ':' then 0 else 1 + FirstColon(s[1..])
  }

  lemma {:induction false} JoinedAtColon(a: string, x: string)
    requires NoColon(a)
    ensures FirstColon(Joined(a, x)) == |a|
  {
    if a != "" {
      assert Joined(a, x)[1..] == Joined(a[1..], x);
      JoinedAtColon(a[1..], x);
    }
  }

  lemma SplitsOnce(a: string, x: string, b: string, y: string)
    requires NoColon(a) && NoColon(b) && Joined(a, x) == Joined(b, y)
    ensures a == b && x == y
  {
    var s := Joined(a, x);
    JoinedAtColon(a, x);
    JoinedAtColon(b, y);
    assert s[..|a|] == a && s[..|b|] == b;
    assert s[|a| + 1..] == x && s[|b| + 1..] == y;
  }

  lemma WordsDiffer()
    ensures NoColon("fcm") && NoColon("apns") && NoColon("") && "fcm" != "apns"
    ensures NoColon("alert") && NoColon("liveactivity") && "alert" != "liveactivity"
    ensures NoColon("sandbox") && NoColon("production") && "sandbox" != "production"
  {
    assert "fcm"[0] != "apns"[0] && "alert"[0] != "liveactivity"[0] && "sandbox"[0] != "production"[0];
  }

  lemma FcmKeysTellApart(x: Ticket, y: Ticket)
    requires x.Fcm? && y.Fcm? && Unambiguous(x) && Unambiguous(y) && KeyOf(x) == KeyOf(y)
    ensures DestinationOf(x) == DestinationOf(y)
  {
    hide Joined, NoColon;
    WordsDiffer();
    var dx, dy := if x.b.Some? then x.b.value else "", if y.b.Some? then y.b.value else "";
    SplitsOnce("fcm", Joined(KindText(x.k), Joined(dx, x.t)), "fcm", Joined(KindText(y.k), Joined(dy, y.t)));
    SplitsOnce(KindText(x.k), Joined(dx, x.t), KindText(y.k), Joined(dy, y.t));
    SplitsOnce(dx, x.t, dy, y.t);
  }

  lemma ApnsKeysTellApart(x: Ticket, y: Ticket)
    requires x.Apns? && y.Apns? && Unambiguous(x) && Unambiguous(y) && KeyOf(x) == KeyOf(y)
    ensures DestinationOf(x) == DestinationOf(y)
  {
    hide Joined, NoColon, Lower;
    WordsDiffer();
    BundlesNoColon();
    var dx, dy := if x.b.Some? then x.b.value else BUNDLE_ID, if y.b.Some? then y.b.value else BUNDLE_ID;
    var kx, ky := Joined(KindText(x.k), Lower(x.t)), Joined(KindText(y.k), Lower(y.t));
    SplitsOnce("apns", Joined(dx, Joined(EnvText(x.e), kx)), "apns", Joined(dy, Joined(EnvText(y.e), ky)));
    SplitsOnce(dx, Joined(EnvText(x.e), kx), dy, Joined(EnvText(y.e), ky));
    SplitsOnce(EnvText(x.e), kx, EnvText(y.e), ky);
    SplitsOnce(KindText(x.k), Lower(x.t), KindText(y.k), Lower(y.t));
  }

  lemma MixedKeysDiffer(x: Ticket, y: Ticket)
    requires x.Fcm? && y.Apns?
    ensures KeyOf(x) != KeyOf(y)
  {
    assert KeyOf(x)[0] == 'f' && KeyOf(y)[0] == 'a';
  }

  /** Two sealed tickets have one key exactly when they are for one destination, although Android tokens may hold colons. */
  lemma KeysAreDestinations(x: Ticket, y: Ticket)
    requires Unambiguous(x) && Unambiguous(y)
    ensures KeyOf(x) == KeyOf(y) <==> DestinationOf(x) == DestinationOf(y)
  {
    hide Unambiguous;
    if x.Fcm? != y.Fcm? {
      MixedKeysDiffer(if x.Fcm? then x else y, if x.Fcm? then y else x);
    } else if KeyOf(x) == KeyOf(y) {
      if x.Fcm? {
        FcmKeysTellApart(x, y);
      } else {
        ApnsKeysTellApart(x, y);
      }
    }
  }

  // ---- batches ----

  /** The last entry of its key. */
  predicate Latest(tickets: seq<Option<Ticket>>, i: nat)
    requires i < |tickets|
  {
    tickets[i].Some? && forall j :: i < j < |tickets| && tickets[j].Some? ==> KeyOf(tickets[j].value) != KeyOf(tickets[i].value)
  }

  method LatestTicketIndices(tickets: seq<Option<Ticket>>) returns (indices: set<nat>)
    ensures forall i: nat :: i in indices <==> i < |tickets| && Latest(tickets, i)
  {
    hide KeyOf;
    var latest: map<string, nat> := map[];
    for index := 0 to |tickets|
      invariant forall key :: key in latest ==>
        latest[key] < index && tickets[latest[key]].Some? && KeyOf(tickets[latest[key]].value) == key
      invariant forall i :: 0 <= i < index && tickets[i].Some? ==>
        KeyOf(tickets[i].value) in latest && i <= latest[KeyOf(tickets[i].value)]
    {
      if tickets[index].Some? {
        latest := latest[KeyOf(tickets[index].value) := index];
      }
    }
    indices := latest.Values;
    forall i: nat | i < |tickets| && Latest(tickets, i)
      ensures i in indices
    {
      assert latest[KeyOf(tickets[i].value)] == i;
    }
  }

  datatype Entry = NotATicket | Superseded | Pushed(status: nat)

  /** `status` is what delivering an entry answers. */
  method PushBatch(tickets: seq<Option<Ticket>>, status: nat -> nat) returns (results: Option<seq<Entry>>)
    ensures results.None? <==> |tickets| == 0 || |tickets| > 256
    ensures results.Some? ==> |results.value| == |tickets| && forall i :: 0 <= i < |tickets| ==> results.value[i] == EntryOf(tickets, status, i)
  {
    hide Latest;
    if |tickets| == 0 || |tickets| > MAX_BATCH {
      return None;
    }
    var latest := LatestTicketIndices(tickets);
    var entries: seq<Entry> := [];
    for index := 0 to |tickets|
      invariant |entries| == index
      invariant forall i :: 0 <= i < index ==> entries[i] == EntryOf(tickets, status, i)
    {
      var entry :=
        if tickets[index].None? then NotATicket
        else if index !in latest then Superseded
        else Pushed(status(index));
      entries := entries + [entry];
    }
    return Some(entries);
  }

  function EntryOf(tickets: seq<Option<Ticket>>, status: nat -> nat, i: nat): Entry
    requires i < |tickets|
  {
    if tickets[i].None? then NotATicket else if Latest(tickets, i) then Pushed(status(i)) else Superseded
  }

  lemma {:induction false} LastOfKey(tickets: seq<Option<Ticket>>, i: nat) returns (j: nat)
    requires i < |tickets| && tickets[i].Some?
    ensures i <= j < |tickets| && Latest(tickets, j) && KeyOf(tickets[j].value) == KeyOf(tickets[i].value)
    decreases |tickets| - i
  {
    hide KeyOf;
    if Latest(tickets, i) {
      j := i;
    } else {
      var k :| i < k < |tickets| && tickets[k].Some? && KeyOf(tickets[k].value) == KeyOf(tickets[i].value);
      j := LastOfKey(tickets, k);
    }
  }

  /**
   * Each destination a batch names gets exactly one delivery, for the last of its entries; its other entries are answered
   * as superseded.
   */
  lemma OneDeliveryEach(tickets: seq<Option<Ticket>>, status: nat -> nat, i: nat) returns (j: nat)
    requires i < |tickets| && tickets[i].Some?
    requires forall k :: 0 <= k < |tickets| && tickets[k].Some? ==> Unambiguous(tickets[k].value)
    ensures i <= j < |tickets| && tickets[j].Some? && DestinationOf(tickets[j].value) == DestinationOf(tickets[i].value)
    ensures EntryOf(tickets, status, j).Pushed?
    ensures forall k: nat ::
      k < |tickets| && k != j && tickets[k].Some? && DestinationOf(tickets[k].value) == DestinationOf(tickets[i].value) ==>
        k < j && EntryOf(tickets, status, k).Superseded?
  {
    hide KeyOf, DestinationOf, Unambiguous;
    j := LastOfKey(tickets, i);
    forall k: nat | k < |tickets| && tickets[k].Some?
      ensures KeyOf(tickets[k].value) == KeyOf(tickets[i].value) <==> DestinationOf(tickets[k].value) == DestinationOf(tickets[i].value)
    {
      KeysAreDestinations(tickets[k].value, tickets[i].value);
    }
    forall k: nat | k < |tickets| && k != j && tickets[k].Some? && DestinationOf(tickets[k].value) == DestinationOf(tickets[i].value)
      ensures k < j && EntryOf(tickets, status, k).Superseded?
    {
    }
  }
}
