/**
 * The private relay's many-computer mailbox, seen from one computer, is the cloud relay's mailbox: the same items in
 * the same order with the same replies and deliveries, up to a renumbering that keeps the order.
 */
module MailboxRefinement {
  import opened Wrappers
  import opened Sequences
  import opened Base64Url
  import opened MailboxItems
  import opened MailboxTable
  import opened CloudMailbox
  import opened MailboxRuns

  // ---- runs of the cloud's mailbox ----

  datatype CloudOp =
    | CPut(dk: string, msg: PutMsg, hostReady: bool, now: int)
    | CCancel(dk: string, nonce: Field)
    | CList(dk: string)
    | CDeliver(now: int)
    | CAck(number: Option<int>, outcome: Outcome)
    | CRequeue
    | CExpire(now: int)
    | CNothing

  datatype CloudOutput =
    | CReplied(reply: Reply)
    | COffered(row: Option<CloudRow>)
    | CNoted(note: Option<Note>)
    | CLapsed(notes: seq<Note>)
    | CSilent

  function CloudApply(t: CloudTable, op: CloudOp): (CloudTable, CloudOutput) {
    match op
    case CPut(dk, msg, hostReady, now) => var (u, reply) := CloudPut(t, dk, msg, hostReady, now); (u, CReplied(reply))
    case CCancel(dk, nonce) => var (u, reply) := CloudCancel(t, dk, nonce); (u, CReplied(reply))
    case CList(dk) => (t, CReplied(CloudListing(t, dk)))
    case CDeliver(now) => var (u, row) := CloudDeliver(t, now); (u, COffered(row))
    case CAck(number, outcome) => var (u, note) := CloudAck(t, number, outcome); (u, CNoted(note))
    case CRequeue => (CloudRequeue(t), CSilent)
    case CExpire(now) => var (u, notes) := CloudExpire(t, now); (u, CLapsed(notes))
    case CNothing => (t, CSilent)
  }

  function CloudRun(ops: seq<CloudOp>): CloudTable {
    if ops == [] then CLOUD_EMPTY else CloudApply(CloudRun(ops[..|ops| - 1]), ops[|ops| - 1]).0
  }

  function OutputAt(ops: seq<Op>, i: nat): Output
    requires i < |ops|
  {
    Apply(Run(START, ops[..i]).table, ops[i]).1
  }

  function CloudOutputAt(ops: seq<CloudOp>, i: nat): CloudOutput
    requires i < |ops|
  {
    CloudApply(CloudRun(ops[..i]), ops[i]).1
  }

  // ---- the relation ----

  function Project(t: Table, c: string): seq<Row> { Filter(t.rows, OfComputer(c)) }

  ghost predicate Twins(r: Row, q: CloudRow, ren: map<nat, nat>) {
    r.item == q.item && r.seq_ in ren && ren[r.seq_] == q.seq_
  }

  ghost predicate Paired(p: seq<Row>, q: seq<CloudRow>, ren: map<nat, nat>) {
    |p| == |q| && forall i :: 0 <= i < |p| ==> Twins(p[i], q[i], ren)
  }

  /** The renumbering keeps the order, from numbers the one counter gave out to numbers the other did. */
  ghost predicate Renumbers(ren: map<nat, nat>, last: nat, cloudLast: nat) {
    && (forall n :: n in ren ==> 1 <= n <= last && 1 <= ren[n] <= cloudLast)
    && (forall m, n :: m in ren && n in ren && m < n ==> ren[m] < ren[n])
  }

  ghost predicate Linked(t: Table, c: string, u: CloudTable, ren: map<nat, nat>) {
    Renumbers(ren, t.last, u.last) && Paired(Project(t, c), u.rows, ren)
  }

  ghost predicate Related(t: Table, c: string, u: CloudTable, ren: map<nat, nat>) {
    Valid(t) && Linked(t, c, u, ren)
  }

  // ---- selections and updates of paired rows ----

  lemma {:induction false} PairedFilter(p: seq<Row>, q: seq<CloudRow>, ren: map<nat, nat>, keep: Row -> bool, keep': CloudRow -> bool)
    requires Paired(p, q, ren) && forall i :: 0 <= i < |p| ==> keep(p[i]) == keep'(q[i])
    ensures Paired(Filter(p, keep), Filter(q, keep'), ren)
  {
    if p != [] {
      PairedFilter(p[..|p| - 1], q[..|q| - 1], ren, keep, keep');
    }
  }

  /** A selection of the computer's rows and the cloud's selection of theirs. */
  lemma PairedSelect(t: Table, c: string, u: CloudTable, ren: map<nat, nat>, sel: Row -> bool, sel': CloudRow -> bool)
    requires Paired(Project(t, c), u.rows, ren)
    requires forall r :: sel(r) ==> r.computer == c
    requires forall r, q :: r in t.rows && Twins(r, q, ren) && r.computer == c ==> sel(r) == sel'(q)
    ensures Paired(Filter(t.rows, sel), Filter(u.rows, sel'), ren)
  {
    var p := Project(t, c);
    FilterTwice(t.rows, OfComputer(c), sel, sel);
    forall i | 0 <= i < |p|
      ensures sel(p[i]) == sel'(u.rows[i])
    {
      assert p[i] in p;
    }
    PairedFilter(p, u.rows, ren, sel, sel');
  }

  lemma PairedFirst(t: Table, c: string, u: CloudTable, ren: map<nat, nat>, sel: Row -> bool, sel': CloudRow -> bool)
    requires Paired(Project(t, c), u.rows, ren)
    requires forall r :: sel(r) ==> r.computer == c
    requires forall r, q :: r in t.rows && Twins(r, q, ren) && r.computer == c ==> sel(r) == sel'(q)
    ensures First(t.rows, sel).None? <==> First(u.rows, sel').None?
    ensures First(t.rows, sel).Some? ==> Twins(First(t.rows, sel).value, First(u.rows, sel').value, ren)
  {
    PairedSelect(t, c, u, ren, sel, sel');
  }

  /** Removing rows on both sides. */
  lemma PairedRemoval(t: Table, c: string, u: CloudTable, ren: map<nat, nat>, keep: Row -> bool, keep': CloudRow -> bool)
    requires Paired(Project(t, c), u.rows, ren)
    requires forall r, q :: r in t.rows && Twins(r, q, ren) && r.computer == c ==> keep(r) == keep'(q)
    ensures Paired(Project(t.(rows := Filter(t.rows, keep)), c), Filter(u.rows, keep'), ren)
  {
    var p := Project(t, c);
    FilterCommutes(t.rows, keep, OfComputer(c));
    forall i | 0 <= i < |p|
      ensures keep(p[i]) == keep'(u.rows[i])
    {
      assert p[i] in p;
    }
    PairedFilter(p, u.rows, ren, keep, keep');
  }

  /** Changing states on both sides. */
  lemma PairedUpdate(t: Table, c: string, u: CloudTable, ren: map<nat, nat>, f: Row -> Row, g: CloudRow -> CloudRow)
    requires Paired(Project(t, c), u.rows, ren)
    requires forall r :: f(r).computer == r.computer
    requires forall r, q :: r in t.rows && Twins(r, q, ren) && r.computer == c ==> Twins(f(r), g(q), ren)
    ensures Paired(Project(t.(rows := Map(t.rows, f)), c), Map(u.rows, g), ren)
  {
    var p := Project(t, c);
    FilterMap(t.rows, f, OfComputer(c));
    forall i | 0 <= i < |p|
      ensures Twins(f(p[i]), g(u.rows[i]), ren)
    {
      assert p[i] in p;
    }
  }

  lemma {:induction false} PairedSum(p: seq<Row>, q: seq<CloudRow>, ren: map<nat, nat>)
    requires Paired(p, q, ren)
    ensures Sum(p, SizeOf()) == Sum(q, CloudSize())
  {
    if p != [] {
      PairedSum(p[..|p| - 1], q[..|q| - 1], ren);
    }
  }

  lemma PairedGrows(p: seq<Row>, q: seq<CloudRow>, ren: map<nat, nat>, m: nat, n: nat)
    requires Paired(p, q, ren) && m !in ren
    ensures Paired(p, q, ren[m := n])
  {
  }

  // ---- puts ----

  predicate OddNonce(f: Field) { f.Whole? || f.Other? }

  predicate Held(t: Table, c: string, dk: string, nonce: string) { First(t.rows, Keyed(c, dk, nonce)).Some? }

  lemma SameRoom(t: Table, c: string, u: CloudTable, ren: map<nat, nat>, dk: string, size: nat)
    requires Related(t, c, u, ren)
    ensures HasRoom(t, c, dk, size) == CloudHasRoom(u, dk, size)
  {
    PairedSelect(t, c, u, ren, OfDevice(c, dk), OfKey(dk));
    PairedSum(Project(t, c), u.rows, ren);
  }

  /** The renumbering after a put: a new row's number goes to the cloud's new number. */
  function Extended(t: Table, op: Op, c: string, u: CloudTable, ren: map<nat, nat>): map<nat, nat> {
    if op.DoPut? && op.c == c && Apply(t, op).0.last != t.last then ren[t.last + 1 := u.last + 1] else ren
  }

  lemma SameHeld(t: Table, c: string, u: CloudTable, ren: map<nat, nat>, dk: string, nonce: string)
    requires Related(t, c, u, ren)
    ensures Held(t, c, dk, nonce) <==> First(u.rows, OfNonce(dk, nonce)).Some?
    ensures Held(t, c, dk, nonce) ==> Twins(First(t.rows, Keyed(c, dk, nonce)).value, First(u.rows, OfNonce(dk, nonce)).value, ren)
  {
    PairedFirst(t, c, u, ren, Keyed(c, dk, nonce), OfNonce(dk, nonce));
  }

  lemma RenumbersGrows(ren: map<nat, nat>, last: nat, cloudLast: nat)
    requires Renumbers(ren, last, cloudLast)
    ensures Renumbers(ren[last + 1 := cloudLast + 1], last + 1, cloudLast + 1)
  {
  }

  lemma PairedAppend(p: seq<Row>, q: seq<CloudRow>, ren: map<nat, nat>, r: Row, s: CloudRow)
    requires Paired(p, q, ren) && Twins(r, s, ren)
    ensures Paired(p + [r], q + [s], ren)
  {
  }

  lemma ProjectAppended(rows: seq<Row>, c: string, row: Row)
    requires row.computer == c
    ensures Filter(rows + [row], OfComputer(c)) == Filter(rows, OfComputer(c)) + [row]
  {
    FilterAppend(rows, row, OfComputer(c));
  }

  lemma PairedInsert(p: seq<Row>, q: seq<CloudRow>, ren: map<nat, nat>, r: Row, s: CloudRow)
    requires Paired(p, q, ren) && r.seq_ !in ren && r.item == s.item
    ensures Paired(p + [r], q + [s], ren[r.seq_ := s.seq_])
  {
    PairedGrows(p, q, ren, r.seq_, s.seq_);
    PairedAppend(p, q, ren[r.seq_ := s.seq_], r, s);
  }

  lemma InsertsRelate(t: Table, c: string, u: CloudTable, ren: map<nat, nat>, dk: string, nonce: string, blob: seq<byte>, exp: int)
    requires Linked(t, c, u, ren)
    ensures Linked(Insert(t, c, dk, nonce, blob, exp), c, CloudInsert(u, dk, nonce, blob, exp), ren[t.last + 1 := u.last + 1])
  {
    hide Filter;
    var item := Item(dk, nonce, blob, exp, Queued);
    ProjectAppended(t.rows, c, Row(t.last + 1, c, item));
    assert t.last + 1 !in ren;
    PairedInsert(Project(t, c), u.rows, ren, Row(t.last + 1, c, item), CloudRow(u.last + 1, item));
    RenumbersGrows(ren, t.last, u.last);
  }

  lemma FitsAgree(msg: PutMsg, now: int)
    ensures Screen(msg, now, PRIVATE_MAX_TEXT).Fits? || Screen(msg, now, CLOUD_MAX_TEXT).Fits?
        ==> Screen(msg, now, PRIVATE_MAX_TEXT) == Screen(msg, now, CLOUD_MAX_TEXT)
  {
    ScreensAgree(msg, now);
  }

  /** Both relays refuse, or both insert the same item. */
  lemma PutsAgree(t: Table, c: string, u: CloudTable, ren: map<nat, nat>, dk: string, msg: PutMsg, hostReady: bool, now: int)
    requires Related(t, c, u, ren)
    ensures
      var p, q := Put(t, c, dk, msg, hostReady, now).0, CloudPut(u, dk, msg, hostReady, now).0;
      var s := Screen(msg, now, PRIVATE_MAX_TEXT);
      || (p == t && q == u)
      || (ValidNonce(msg.nonce) && s.Fits?
          && p == Insert(t, c, dk, msg.nonce.text, s.blob, s.exp) && q == CloudInsert(u, dk, msg.nonce.text, s.blob, s.exp))
  {
    if ValidNonce(msg.nonce) {
      SameHeld(t, c, u, ren, dk, msg.nonce.text);
      FitsAgree(msg, now);
      var s := Screen(msg, now, PRIVATE_MAX_TEXT);
      if s.Fits? {
        SameRoom(t, c, u, ren, dk, |s.blob|);
      }
    }
  }

  lemma PutsLink(t: Table, c: string, u: CloudTable, ren: map<nat, nat>, op: Op, p: Table, q: CloudTable, nonce: string, blob: seq<byte>, exp: int)
    requires Linked(t, c, u, ren) && op.DoPut? && op.c == c && p == Apply(t, op).0
    requires (p == t && q == u) || (p == Insert(t, c, op.dk, nonce, blob, exp) && q == CloudInsert(u, op.dk, nonce, blob, exp))
    ensures Linked(p, c, q, Extended(t, op, c, u, ren))
  {
    hide Linked, Filter, Put;
    if p != t {
      InsertsRelate(t, c, u, ren, op.dk, nonce, blob, exp);
    }
  }

  /** Both relays accept the same puts, with the same effect. */
  lemma PutsRelate(t: Table, c: string, u: CloudTable, ren: map<nat, nat>, dk: string, msg: PutMsg, hostReady: bool, now: int)
    requires Related(t, c, u, ren)
    ensures
      var op := DoPut(c, dk, msg, hostReady, now);
      Related(Apply(t, op).0, c, CloudPut(u, dk, msg, hostReady, now).0, Extended(t, op, c, u, ren))
  {
    PutKeepsValid(t, c, dk, msg, hostReady, now);
    PutsAgree(t, c, u, ren, dk, msg, hostReady, now);
    var op := DoPut(c, dk, msg, hostReady, now);
    var p, q := Put(t, c, dk, msg, hostReady, now).0, CloudPut(u, dk, msg, hostReady, now).0;
    var s := Screen(msg, now, PRIVATE_MAX_TEXT);
    if p == t && q == u {
      PutsLink(t, c, u, ren, op, p, q, "", [], 0);
    } else {
      PutsLink(t, c, u, ren, op, p, q, msg.nonce.text, s.blob, s.exp);
    }
  }

  /** The one difference in the answers: a nonce that is neither text nor null, and a malformed text in the band. */
  lemma PutRepliesAgreeExactly(t: Table, c: string, u: CloudTable, ren: map<nat, nat>, dk: string, msg: PutMsg, hostReady: bool, now: int)
    requires Related(t, c, u, ren)
    ensures
      Put(t, c, dk, msg, hostReady, now).1 == CloudPut(u, dk, msg, hostReady, now).1
      <==> !OddNonce(msg.nonce) && (ValidNonce(msg.nonce) && !Held(t, c, dk, msg.nonce.text) && !hostReady ==> !MalformedBand(msg.d))
  {
    if ValidNonce(msg.nonce) {
      SameHeld(t, c, u, ren, dk, msg.nonce.text);
      ScreensAgree(msg, now);
      FitsAgree(msg, now);
      var s := Screen(msg, now, PRIVATE_MAX_TEXT);
      if s.Fits? {
        SameRoom(t, c, u, ren, dk, |s.blob|);
      }
    }
  }

  /** 87383 letters that are no base64url. */
  function BandText(): string { seq(CLOUD_MAX_TEXT + 1, i => '!') }

  lemma BandTextInBand()
    ensures MalformedBand(Text(BandText()))
  {
    var s := BandText();
    assert s[0] == '!' && !IsUrlChar(s[0]);
    AcceptsExactlyCanonical(s);
  }

  /** The first difference at work: a text in the band, put into empty mailboxes. */
  lemma BandRepliesDiffer(now: int)
    ensures
      var msg := PutMsg(Text("n"), Text(BandText()), Absent);
      && Put(EMPTY, "c", "k", msg, false, now) == (EMPTY, Err(Text("n"), Invalid))
      && CloudPut(CLOUD_EMPTY, "k", msg, false, now) == (CLOUD_EMPTY, Err(Text("n"), TooLarge))
  {
    hide Decode, HasRoom, CloudHasRoom, BandText;
    BandTextInBand();
  }

  /** The second: a nonce that is a number. */
  lemma NumberRepliesDiffer(now: int)
    ensures
      var msg := PutMsg(Whole(5), Absent, Absent);
      && Put(EMPTY, "c", "k", msg, false, now) == (EMPTY, Err(Null, Invalid))
      && CloudPut(CLOUD_EMPTY, "k", msg, false, now) == (CLOUD_EMPTY, Err(Whole(5), Invalid))
  {
  }

  // ---- the other operations, for the computer itself ----

  lemma CancelsRelate(t: Table, c: string, u: CloudTable, ren: map<nat, nat>, dk: string, field: Field)
    requires Related(t, c, u, ren)
    ensures Related(Cancel(t, c, dk, field).0, c, CloudCancel(u, dk, field).0, ren)
    ensures Cancel(t, c, dk, field).1 == CloudCancel(u, dk, field).1
  {
    var nonce := CancelNonce(field);
    SameHeld(t, c, u, ren, dk, nonce);
    if Held(t, c, dk, nonce) {
      var row := First(t.rows, Keyed(c, dk, nonce)).value;
      if row.item.state.Queued? {
        forall r, q | r in t.rows && Twins(r, q, ren) && r.computer == c
          ensures Not(Is(row))(r) == Except(OfNonce(dk, nonce))(q)
        {
          assert SameKey(r, row) ==> r == row;
        }
        PairedRemoval(t, c, u, ren, Not(Is(row)), Except(OfNonce(dk, nonce)));
        RemovalKeepsValid(t, Not(Is(row)));
      }
    }
  }

  lemma ListsRelate(t: Table, c: string, u: CloudTable, ren: map<nat, nat>, dk: string)
    requires Related(t, c, u, ren)
    ensures Listing(t, c, dk) == CloudListing(u, dk)
  {
    PairedSelect(t, c, u, ren, OfDevice(c, dk), OfKey(dk));
    assert Listing(t, c, dk).items == CloudListing(u, dk).items;
  }

  ghost predicate SameOffer(x: Option<Row>, y: Option<CloudRow>, ren: map<nat, nat>) {
    (x.None? && y.None?) || (x.Some? && y.Some? && Twins(x.value, y.value, ren))
  }

  lemma Renumbered(ren: map<nat, nat>, last: nat, cloudLast: nat, m: nat, n: nat)
    requires Renumbers(ren, last, cloudLast) && m in ren && n in ren
    ensures m == n <==> ren[m] == ren[n]
  {
  }

  /** `UPDATE ... WHERE seq = ?` marks one row, and only this computer's. */
  lemma SendsRelate(t: Table, c: string, u: CloudTable, ren: map<nat, nat>, row: Row, twin: CloudRow)
    requires Related(t, c, u, ren) && Twins(row, twin, ren)
    ensures Paired(Project(t.(rows := Map(t.rows, Delivers(row.seq_))), c), Map(u.rows, Sends(twin.seq_)), ren)
  {
    forall r, q | r in t.rows && Twins(r, q, ren) && r.computer == c
      ensures Twins(Delivers(row.seq_)(r), Sends(twin.seq_)(q), ren)
    {
      Renumbered(ren, t.last, u.last, r.seq_, row.seq_);
    }
    PairedUpdate(t, c, u, ren, Delivers(row.seq_), Sends(twin.seq_));
  }

  lemma DeliveriesRelate(t: Table, c: string, u: CloudTable, ren: map<nat, nat>, now: int)
    requires Related(t, c, u, ren)
    ensures Related(DeliverNext(t, c, now).0, c, CloudDeliver(u, now).0, ren)
    ensures SameOffer(DeliverNext(t, c, now).1, CloudDeliver(u, now).1, ren)
  {
    PairedFirst(t, c, u, ren, InFlight(c), Moving());
    PairedFirst(t, c, u, ren, Deliverable(c, now), Due(now));
    DeliverKeepsValid(t, c, now);
    if DeliverNext(t, c, now).1.Some? {
      SendsRelate(t, c, u, ren, First(t.rows, Deliverable(c, now)).value, First(u.rows, Due(now)).value);
    }
  }

  /** An acknowledged number as the cloud would have given it out. */
  function AckNumber(number: Option<int>, ren: map<nat, nat>): Option<int> {
    if number.Some? && SafeInteger(number.value) && number.value >= 0 && number.value in ren then Some(ren[number.value]) else None
  }

  lemma AcksRelate(t: Table, c: string, u: CloudTable, ren: map<nat, nat>, number: Option<int>, outcome: Outcome)
    requires Related(t, c, u, ren)
    ensures Related(Ack(t, c, number, outcome).0, c, CloudAck(u, AckNumber(number, ren), outcome).0, ren)
    ensures Ack(t, c, number, outcome).1 == CloudAck(u, AckNumber(number, ren), outcome).1
  {
    if AckNumber(number, ren).Some? {
      var n := ren[number.value];
      forall r, q | r in t.rows && Twins(r, q, ren) && r.computer == c
        ensures Acked(c, number.value)(r) == MovingAs(n)(q) && (r.seq_ == number.value <==> q.seq_ == n)
      {
        Renumbered(ren, t.last, u.last, r.seq_, number.value);
      }
      PairedFirst(t, c, u, ren, Acked(c, number.value), MovingAs(n));
      if First(t.rows, Acked(c, number.value)).Some? {
        var row := First(t.rows, Acked(c, number.value)).value;
        AckedRowsRelate(t, c, u, ren, row, n);
      }
    } else if number.Some? && SafeInteger(number.value) {
      NoneAcked(t, c, u, ren, number.value);
    }
  }

  lemma NoneAcked(t: Table, c: string, u: CloudTable, ren: map<nat, nat>, n: int)
    requires Related(t, c, u, ren) && (n >= 0 ==> n !in ren)
    ensures First(t.rows, Acked(c, n)).None?
  {
    forall r | r in t.rows
      ensures !Acked(c, n)(r)
    {
      if r.computer == c {
        var p := Project(t, c);
        assert r in p;
        var i :| 0 <= i < |p| && p[i] == r;
        assert Twins(p[i], u.rows[i], ren);
      }
    }
  }

  lemma AckedRowsRelate(t: Table, c: string, u: CloudTable, ren: map<nat, nat>, row: Row, n: nat)
    requires Related(t, c, u, ren) && row in t.rows && row.seq_ in ren && ren[row.seq_] == n
    ensures Related(t.(rows := Filter(t.rows, Not(Is(row)))), c, u.(rows := Filter(u.rows, Except(Numbered(n)))), ren)
  {
    forall r, q | r in t.rows && Twins(r, q, ren) && r.computer == c
      ensures Not(Is(row))(r) == Except(Numbered(n))(q)
    {
      Renumbered(ren, t.last, u.last, r.seq_, row.seq_);
      if r.seq_ == row.seq_ {
        KeysTellApart(t.rows, SeqOf(), r, row);
      }
    }
    PairedRemoval(t, c, u, ren, Not(Is(row)), Except(Numbered(n)));
    RemovalKeepsValid(t, Not(Is(row)));
  }

  lemma RequeuesRelate(t: Table, c: string, u: CloudTable, ren: map<nat, nat>)
    requires Related(t, c, u, ren)
    ensures Related(Requeue(t, c), c, CloudRequeue(u), ren)
    ensures Related(RequeueAll(t), c, CloudRequeue(u), ren)
  {
    hide Filter, MailboxTable.Valid;
    RequeueKeepsValid(t, c);
    RequeueAllKeepsValid(t);
    PairedUpdate(t, c, u, ren, Requeues(c), PutsBack());
    PairedUpdate(t, c, u, ren, RequeuesAll(), PutsBack());
  }

  lemma ExpiriesRelate(t: Table, c: string, u: CloudTable, ren: map<nat, nat>, now: int)
    requires Related(t, c, u, ren)
    ensures Related(Expire(t, c, now).0, c, CloudExpire(u, now).0, ren)
    ensures Expire(t, c, now).1 == CloudExpire(u, now).1
    ensures Related(ExpireAll(t, now), c, CloudExpire(u, now).0, ren)
  {
    RemovalKeepsValid(t, Not(Expired(c, now)));
    RemovalKeepsValid(t, Not(Outdated(now)));
    PairedRemoval(t, c, u, ren, Not(Expired(c, now)), Except(PastExpiry(now)));
    PairedRemoval(t, c, u, ren, Not(Outdated(now)), Except(PastExpiry(now)));
    PairedSelect(t, c, u, ren, Expired(c, now), PastExpiry(now));
  }

  // ---- the other computers' operations ----

  predicate Touches(op: Op, c: string) {
    op.DoExpireAll? || op.DoRestart? || op.c == c
  }

  lemma RemovalElsewhere(t: Table, c: string, keep: Row -> bool)
    requires forall r :: r in t.rows && r.computer == c ==> keep(r)
    ensures Project(t.(rows := Filter(t.rows, keep)), c) == Project(t, c)
  {
    FilterCommutes(t.rows, keep, OfComputer(c));
    FilterAll(Project(t, c), keep);
  }

  lemma UpdateElsewhere(t: Table, c: string, f: Row -> Row)
    requires forall r :: f(r).computer == r.computer
    requires forall r :: r in t.rows && r.computer == c ==> f(r) == r
    ensures Project(t.(rows := Map(t.rows, f)), c) == Project(t, c)
  {
    FilterMap(t.rows, f, OfComputer(c));
    var p := Project(t, c);
    forall i | 0 <= i < |p|
      ensures f(p[i]) == p[i]
    {
      assert p[i] in p;
    }
  }

  /** A step for one computer leaves every other computer's rows as they were, though a row is marked by its `seq` alone. */
  lemma OthersUntouched(t: Table, op: Op, c: string)
    requires Valid(t) && !Touches(op, c)
    ensures Project(Apply(t, op).0, c) == Project(t, c)
  {
    match op
    case DoPut(a, dk, msg, hostReady, now) =>
      if Apply(t, op).0 != t {
        var s := Screen(msg, now, PRIVATE_MAX_TEXT);
        FilterAppend(t.rows, Row(t.last + 1, a, Item(dk, msg.nonce.text, s.blob, s.exp, Queued)), OfComputer(c));
      }
    case DoCancel(a, dk, field) =>
      var row := First(t.rows, Keyed(a, dk, CancelNonce(field)));
      if row.Some? { RemovalElsewhere(t, c, Not(Is(row.value))); }
    case DoDeliver(a, now) =>
      var row := First(t.rows, Deliverable(a, now));
      if row.Some? {
        forall r | r in t.rows && r.computer == c
          ensures r.seq_ != row.value.seq_
        {
          if r.seq_ == row.value.seq_ { KeysTellApart(t.rows, SeqOf(), r, row.value); }
        }
        UpdateElsewhere(t, c, Delivers(row.value.seq_));
      }
    case DoAck(a, number, outcome) =>
      if number.Some? && First(t.rows, Acked(a, number.value)).Some? {
        RemovalElsewhere(t, c, Not(Is(First(t.rows, Acked(a, number.value)).value)));
      }
    case DoRequeue(a) => UpdateElsewhere(t, c, Requeues(a));
    case DoExpire(a, now) => RemovalElsewhere(t, c, Not(Expired(a, now)));
    case DoList(a, dk) =>
  }

  // ---- whole runs ----

  /** The cloud's step for a step of the private relay. */
  function Mirror(op: Op, c: string, ren: map<nat, nat>): CloudOp {
    if !Touches(op, c) then CNothing
    else
      match op
      case DoPut(_, dk, msg, hostReady, now) => CPut(dk, msg, hostReady, now)
      case DoCancel(_, dk, nonce) => CCancel(dk, nonce)
      case DoList(_, dk) => CList(dk)
      case DoDeliver(_, now) => CDeliver(now)
      case DoAck(_, number, outcome) => CAck(AckNumber(number, ren), outcome)
      case DoRequeue(_) => CRequeue
      case DoExpire(_, now) => CExpire(now)
      case DoExpireAll(now) => CExpire(now)
      case DoRestart => CRequeue
  }

  /** The same step: only an acknowledged number may differ, by the renumbering or by being no row's number. */
  ghost predicate Mirrors(op: Op, c: string, cop: CloudOp, ren: map<nat, nat>) {
    if Touches(op, c) && op.DoAck? then
      cop.CAck? && cop.outcome == op.outcome && (cop.number == None || cop.number == AckNumber(op.number, ren))
    else cop == Mirror(op, c, map[])
  }

  /** The two relays answer a put alike. */
  predicate Agreeable(op: Op) {
    op.DoPut? ==> !OddNonce(op.msg.nonce) && !MalformedBand(op.msg.d)
  }

  ghost predicate SameOutput(o: Output, q: CloudOutput, ren: map<nat, nat>) {
    match o
    case Replied(reply) => q == CReplied(reply)
    case Offered(row) => q.COffered? && SameOffer(row, q.row, ren)
    case Noted(note) => q == CNoted(note)
    case Lapsed(notes) => q == CLapsed(notes)
    case Silent => q.CSilent? || q.CLapsed?
  }

  ghost predicate StepAgrees(t: Table, op: Op, c: string, u: CloudTable, ren: map<nat, nat>) {
    var cop := Mirror(op, c, ren);
    && Related(Apply(t, op).0, c, CloudApply(u, cop).0, Extended(t, op, c, u, ren))
    && (Touches(op, c) && Agreeable(op) ==> SameOutput(Apply(t, op).1, CloudApply(u, cop).1, ren))
  }

  /** What it takes for a step that adds no item. */
  lemma AgreesBy(t: Table, op: Op, c: string, u: CloudTable, ren: map<nat, nat>, t': Table, o: Output, u': CloudTable, q: CloudOutput)
    requires !op.DoPut? && Apply(t, op) == (t', o) && CloudApply(u, Mirror(op, c, ren)) == (u', q)
    requires Related(t', c, u', ren) && SameOutput(o, q, ren)
    ensures StepAgrees(t, op, c, u, ren)
  {
  }

  lemma ElsewhereLinks(t: Table, t': Table, c: string, u: CloudTable, ren: map<nat, nat>)
    requires Linked(t, c, u, ren) && Project(t', c) == Project(t, c) && t'.last >= t.last
    ensures Linked(t', c, u, ren)
  {
  }

  lemma StepElsewhere(t: Table, op: Op, c: string, u: CloudTable, ren: map<nat, nat>)
    requires Related(t, c, u, ren) && !Touches(op, c)
    ensures StepAgrees(t, op, c, u, ren)
  {
    hide Filter, Linked, Valid, Put;
    ApplyKeepsValid(t, op);
    OthersUntouched(t, op, c);
    LastAfter(t, op);
    ElsewhereLinks(t, Apply(t, op).0, c, u, ren);
  }

  lemma PutStep(t: Table, op: Op, c: string, u: CloudTable, ren: map<nat, nat>)
    requires Related(t, c, u, ren) && op.DoPut? && op.c == c
    ensures StepAgrees(t, op, c, u, ren)
  {
    PutsRelate(t, c, u, ren, op.dk, op.msg, op.hostReady, op.now);
    PutRepliesAgreeExactly(t, c, u, ren, op.dk, op.msg, op.hostReady, op.now);
  }

  lemma DeviceStep(t: Table, op: Op, c: string, u: CloudTable, ren: map<nat, nat>)
    requires Related(t, c, u, ren) && (op.DoCancel? || op.DoList?) && op.c == c
    ensures StepAgrees(t, op, c, u, ren)
  {
    if op.DoCancel? {
      CancelsRelate(t, c, u, ren, op.dk, op.nonce);
    } else {
      ListsRelate(t, c, u, ren, op.dk);
    }
  }

  lemma DeliverStep(t: Table, c: string, u: CloudTable, ren: map<nat, nat>, now: int)
    requires Related(t, c, u, ren)
    ensures StepAgrees(t, DoDeliver(c, now), c, u, ren)
  {
    hide Related, Filter, Screen, DeliverNext, CloudDeliver;
    DeliveriesRelate(t, c, u, ren, now);
    var (t', row) := DeliverNext(t, c, now);
    var (u', twin) := CloudDeliver(u, now);
    AgreesBy(t, DoDeliver(c, now), c, u, ren, t', Offered(row), u', COffered(twin));
  }

  lemma AckStep(t: Table, c: string, u: CloudTable, ren: map<nat, nat>, number: Option<int>, outcome: Outcome)
    requires Related(t, c, u, ren)
    ensures StepAgrees(t, DoAck(c, number, outcome), c, u, ren)
  {
    hide Related, Filter, Screen, Ack, CloudAck;
    AcksRelate(t, c, u, ren, number, outcome);
    var (t', note) := Ack(t, c, number, outcome);
    var (u', twin) := CloudAck(u, AckNumber(number, ren), outcome);
    AgreesBy(t, DoAck(c, number, outcome), c, u, ren, t', Noted(note), u', CNoted(twin));
  }

  lemma RequeueStep(t: Table, c: string, u: CloudTable, ren: map<nat, nat>)
    requires Related(t, c, u, ren)
    ensures StepAgrees(t, DoRequeue(c), c, u, ren) && StepAgrees(t, DoRestart, c, u, ren)
  {
    hide Related, Filter, Screen, Requeue, RequeueAll, CloudRequeue;
    RequeuesRelate(t, c, u, ren);
    AgreesBy(t, DoRequeue(c), c, u, ren, Requeue(t, c), Silent, CloudRequeue(u), CSilent);
    AgreesBy(t, DoRestart, c, u, ren, RequeueAll(t), Silent, CloudRequeue(u), CSilent);
  }

  lemma ExpireStep(t: Table, c: string, u: CloudTable, ren: map<nat, nat>, now: int)
    requires Related(t, c, u, ren)
    ensures StepAgrees(t, DoExpire(c, now), c, u, ren) && StepAgrees(t, DoExpireAll(now), c, u, ren)
  {
    hide Related, Filter, Screen, Expire, CloudExpire, ExpireAll;
    ExpiriesRelate(t, c, u, ren, now);
    var (t', notes) := Expire(t, c, now);
    var (u', gone) := CloudExpire(u, now);
    AgreesBy(t, DoExpire(c, now), c, u, ren, t', Lapsed(notes), u', CLapsed(gone));
    AgreesBy(t, DoExpireAll(now), c, u, ren, ExpireAll(t, now), Silent, u', CLapsed(gone));
  }

  lemma StepRelates(t: Table, op: Op, c: string, u: CloudTable, ren: map<nat, nat>)
    requires Related(t, c, u, ren)
    ensures StepAgrees(t, op, c, u, ren)
  {
    if !Touches(op, c) {
      StepElsewhere(t, op, c, u, ren);
    } else {
      match op
      case DoPut(_, _, _, _, _) => PutStep(t, op, c, u, ren);
      case DoCancel(_, _, _) => DeviceStep(t, op, c, u, ren);
      case DoList(_, _) => DeviceStep(t, op, c, u, ren);
      case DoDeliver(_, now) => DeliverStep(t, c, u, ren, now);
      case DoAck(_, number, outcome) => AckStep(t, c, u, ren, number, outcome);
      case DoRequeue(_) => RequeueStep(t, c, u, ren);
      case DoRestart => RequeueStep(t, c, u, ren);
      case DoExpire(_, now) => ExpireStep(t, c, u, ren, now);
      case DoExpireAll(now) => ExpireStep(t, c, u, ren, now);
    }
  }

  lemma OutputUnderLarger(o: Output, q: CloudOutput, ren: map<nat, nat>, larger: map<nat, nat>)
    requires SameOutput(o, q, ren) && forall n :: n in ren ==> n in larger && larger[n] == ren[n]
    ensures SameOutput(o, q, larger)
  {
  }

  ghost predicate Simulates(ops: seq<Op>, c: string, cops: seq<CloudOp>, ren: map<nat, nat>) {
    && |cops| == |ops|
    && Related(Run(START, ops).table, c, CloudRun(cops), ren)
    && (forall i :: 0 <= i < |ops| ==> Mirrors(ops[i], c, cops[i], ren))
    && (forall i :: 0 <= i < |ops| && Touches(ops[i], c) && Agreeable(ops[i]) ==> SameOutput(OutputAt(ops, i), CloudOutputAt(cops, i), ren))
  }

  lemma StartsRelated(c: string)
    ensures Related(EMPTY, c, CLOUD_EMPTY, map[])
  {
    RunConserves([]);
  }

  lemma StepSimulates(front: seq<Op>, op: Op, c: string, cfront: seq<CloudOp>, ren: map<nat, nat>)
    requires Simulates(front, c, cfront, ren)
    ensures
      var cop := Mirror(op, c, ren);
      Simulates(front + [op], c, cfront + [cop], Extended(Run(START, front).table, op, c, CloudRun(cfront), ren))
  {
    var t, u := Run(START, front).table, CloudRun(cfront);
    var cop := Mirror(op, c, ren);
    var larger := Extended(t, op, c, u, ren);
    var ops, cops := front + [op], cfront + [cop];
    StepRelates(t, op, c, u, ren);
    assert ops[..|front|] == front && cops[..|front|] == cfront;
    forall i | 0 <= i < |ops|
      ensures Mirrors(ops[i], c, cops[i], larger)
      ensures Touches(ops[i], c) && Agreeable(ops[i]) ==> SameOutput(OutputAt(ops, i), CloudOutputAt(cops, i), larger)
    {
      if i < |front| {
        assert ops[..i] == front[..i] && cops[..i] == cfront[..i];
        if Touches(ops[i], c) && Agreeable(ops[i]) {
          OutputUnderLarger(OutputAt(ops, i), CloudOutputAt(cops, i), ren, larger);
        }
      } else if Touches(op, c) && Agreeable(op) {
        OutputUnderLarger(OutputAt(ops, i), CloudOutputAt(cops, i), ren, larger);
      }
    }
  }

  /**
   * Any run of the private relay's mailbox, seen from computer `c`, is a run of the cloud's: step for step, with the
   * same replies, notes and deliveries up to the renumbering.
   */
  lemma {:induction false} Refines(ops: seq<Op>, c: string) returns (cops: seq<CloudOp>, ren: map<nat, nat>)
    ensures Simulates(ops, c, cops, ren)
  {
    if ops == [] {
      cops, ren := [], map[];
      StartsRelated(c);
    } else {
      var front, op := ops[..|ops| - 1], ops[|ops| - 1];
      var cfront, before := Refines(front, c);
      cops := cfront + [Mirror(op, c, before)];
      ren := Extended(Run(START, front).table, op, c, CloudRun(cfront), before);
      assert ops == front + [op];
      StepSimulates(front, op, c, cfront, before);
    }
  }
}
