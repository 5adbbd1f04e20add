/**
 * The private relay's mailbox as its code runs: the store's statements on a table it updates in place
 * (`private-relay/src/store.ts`), and the functions that make puts, cancels, deliveries, acknowledgements and expiries of
 * them (`private-relay/src/mailbox.ts`). Each is proved to be its specification in `MailboxTable`.
 */
module PrivateStore {
  import opened Wrappers
  import opened Sequences
  import opened Base64Url
  import opened MailboxItems
  import opened MailboxTable

  function QueuedKeyed(c: string, dk: string, nonce: string): Row -> bool {
    (r: Row) => r.computer == c && r.item.dk == dk && r.item.nonce == nonce && r.item.state.Queued?
  }

  class RelayStore {
    var rows: seq<Row>
    var last: nat

    function View(): Table reads this { Table(rows, last) }

    /** Opens a file: what a crash left in flight goes back to the queue. */
    constructor (saved: Table)
      ensures View() == RequeueAll(saved)
    {
      rows := Map(saved.rows, RequeuesAll());
      last := saved.last;
    }

    method MailboxByNonce(c: string, dk: string, nonce: string) returns (state: Option<State>)
      ensures state == match First(rows, Keyed(c, dk, nonce)) case None => None case Some(row) => Some(row.item.state)
    {
      var row := First(rows, Keyed(c, dk, nonce));
      state := if row.Some? then Some(row.value.item.state) else None;
    }

    method MailboxCounts(c: string, dk: string) returns (mine: nat, all: nat, bytes: nat)
      ensures mine == |Filter(rows, OfDevice(c, dk))|
      ensures all == |Filter(rows, OfComputer(c))| && bytes == Sum(Filter(rows, OfComputer(c)), SizeOf())
    {
      mine := |Filter(rows, OfDevice(c, dk))|;
      all := |Filter(rows, OfComputer(c))|;
      bytes := Sum(Filter(rows, OfComputer(c)), SizeOf());
    }

    method InsertMailbox(c: string, dk: string, nonce: string, blob: seq<byte>, exp: int)
      modifies this
      ensures View() == Insert(old(View()), c, dk, nonce, blob, exp)
    {
      last := last + 1;
      rows := rows + [Row(last, c, Item(dk, nonce, blob, exp, Queued))];
    }

    /** `DELETE ... AND state = 'queued'`, and whether one row changed. */
    method CancelQueued(c: string, dk: string, nonce: string) returns (ok: bool)
      modifies `rows
      ensures rows == Filter(old(rows), Not(QueuedKeyed(c, dk, nonce)))
      ensures ok <==> |Filter(old(rows), QueuedKeyed(c, dk, nonce))| == 1
    {
      ok := |Filter(rows, QueuedKeyed(c, dk, nonce))| == 1;
      rows := Filter(rows, Not(QueuedKeyed(c, dk, nonce)));
    }

    method HasDelivering(c: string) returns (ok: bool)
      ensures ok <==> exists r :: r in rows && InFlight(c)(r)
    {
      ok := First(rows, InFlight(c)).Some?;
    }

    method NextQueued(c: string, now: int) returns (row: Option<Row>)
      ensures row == First(rows, Deliverable(c, now))
    {
      row := First(rows, Deliverable(c, now));
    }

    /** By `seq` alone, whichever computer's row it is. */
    method MarkDelivering(seq_: nat)
      modifies `rows
      ensures rows == Map(old(rows), Delivers(seq_))
    {
      rows := Map(rows, Delivers(seq_));
    }

    /** `DELETE ... RETURNING`: every row the clause matches goes; the first is returned. */
    method TakeDelivering(c: string, seq_: int) returns (row: Option<Row>)
      modifies `rows
      ensures row == First(old(rows), Acked(c, seq_)) && rows == Filter(old(rows), Not(Acked(c, seq_)))
    {
      row := First(rows, Acked(c, seq_));
      rows := Filter(rows, Not(Acked(c, seq_)));
    }

    method RequeueDelivering(c: string)
      modifies `rows
      ensures View() == Requeue(old(View()), c)
    {
      rows := Map(rows, Requeues(c));
    }

    method TakeExpired(c: string, now: int) returns (gone: seq<Row>)
      modifies `rows
      ensures gone == Filter(old(rows), Expired(c, now)) && rows == Filter(old(rows), Not(Expired(c, now)))
    {
      gone := Filter(rows, Expired(c, now));
      rows := Filter(rows, Not(Expired(c, now)));
    }

    method DeleteExpiredAnywhere(now: int)
      modifies `rows
      ensures View() == ExpireAll(old(View()), now)
    {
      rows := Filter(rows, Not(Outdated(now)));
    }
  }

  // ---- mailbox.ts ----

  method PutMailbox(store: RelayStore, c: string, dk: string, msg: PutMsg, hostReady: bool, now: int) returns (reply: Reply)
    modifies store
    ensures (store.View(), reply) == Put(old(store.View()), c, dk, msg, hostReady, now)
  {
    hide Filter, Sum, Decode;
    if !ValidNonce(msg.nonce) {
      return Err(PutNonce(msg.nonce), Invalid);
    }
    var nonce := msg.nonce.text;
    var existing := store.MailboxByNonce(c, dk, nonce);
    if existing.Some? {
      return Ok(nonce, existing.value);
    }
    if hostReady {
      return Err(msg.nonce, HostOnline);
    }
    if msg.d.Text? && |msg.d.text| > PRIVATE_MAX_TEXT {
      return Err(msg.nonce, TooLarge);
    }
    var blob := Blob(msg.d);
    if blob.None? || |blob.value| < MBOX_MIN_BLOB {
      return Err(msg.nonce, Invalid);
    }
    if |blob.value| > MAX_BLOB {
      return Err(msg.nonce, TooLarge);
    }
    var exp := Expiry(msg.exp, now);
    if exp.None? {
      return Err(msg.nonce, Invalid);
    }
    var mine, all, bytes := store.MailboxCounts(c, dk);
    if mine >= MBOX_PER_DEVICE || all >= MBOX_PER_COMPUTER || bytes + |blob.value| > MBOX_MAX_BYTES {
      return Err(msg.nonce, Full);
    }
    store.InsertMailbox(c, dk, nonce, blob.value, exp.value);
    return Ok(nonce, Queued);
  }

  method CancelMailbox(store: RelayStore, c: string, dk: string, field: Field) returns (reply: Reply)
    requires Ordered(store.View()) && KeysUnique(store.View())
    modifies store
    ensures (store.View(), reply) == Cancel(old(store.View()), c, dk, field)
  {
    hide Cancel, Ordered, KeysUnique;
    var nonce := CancelNonce(field);
    DeletesOne(store.View(), c, dk, field);
    var ok := store.CancelQueued(c, dk, nonce);
    if ok {
      return Cancelled(nonce);
    }
    var state := store.MailboxByNonce(c, dk, nonce);
    return Gone(nonce, if state == Some(Delivering) then Some(Delivering) else None);
  }

  method DeliverNextItem(store: RelayStore, c: string, now: int) returns (row: Option<Row>)
    modifies store
    ensures (store.View(), row) == DeliverNext(old(store.View()), c, now)
  {
    hide Filter;
    var busy := store.HasDelivering(c);
    if busy {
      return None;
    }
    row := store.NextQueued(c, now);
    if row.Some? {
      store.MarkDelivering(row.value.seq_);
    }
  }

  method AckMailbox(store: RelayStore, c: string, number: Option<int>, outcome: Outcome) returns (note: Option<Note>)
    requires Ordered(store.View())
    modifies store
    ensures (store.View(), note) == Ack(old(store.View()), c, number, outcome)
  {
    hide Filter, Ordered;
    if number.None? || !SafeInteger(number.value) {
      return None;
    }
    TakesOne(store.View(), c, number.value);
    var row := store.TakeDelivering(c, number.value);
    note := if row.None? then None else Some(Note(row.value.item.dk, row.value.item.nonce, outcome));
  }

  method ExpireMailbox(store: RelayStore, c: string, now: int) returns (notes: seq<Note>)
    modifies store
    ensures (store.View(), notes) == Expire(old(store.View()), c, now)
  {
    hide Filter;
    var gone := store.TakeExpired(c, now);
    notes := Map(gone, ExpiredNote());
  }

  // ---- what makes the statements do what the specification says ----

  lemma {:induction false} FilterOne<T>(s: seq<T>, keep: T -> bool, x: T)
    requires forall i, j :: 0 <= i < j < |s| ==> s[i] != s[j]
    requires x in s && keep(x) && forall y :: y in s && keep(y) ==> y == x
    ensures Filter(s, keep) == [x]
  {
    var front, last := s[..|s| - 1], s[|s| - 1];
    if keep(last) {
      assert last == x;
      forall y | y in front
        ensures !keep(y)
      {
        var i :| 0 <= i < |front| && front[i] == y;
        assert s[i] == y && y in s;
      }
      FilterNone(front, keep);
    } else {
      assert x in front;
      FilterOne(front, keep, x);
    }
  }

  /** Rows in order are all different. */
  lemma AllDifferent(t: Table)
    requires Ordered(t)
    ensures forall i, j :: 0 <= i < j < |t.rows| ==> t.rows[i] != t.rows[j]
  {
    forall i, j | 0 <= i < j < |t.rows|
      ensures t.rows[i] != t.rows[j]
    {
      assert SeqOf()(t.rows[i]) < SeqOf()(t.rows[j]);
    }
  }

  /** The queued row of a key is the row of the key, when that is queued. */
  lemma QueuedRow(t: Table, c: string, dk: string, nonce: string)
    requires Ordered(t) && KeysUnique(t)
    ensures
      var row := First(t.rows, Keyed(c, dk, nonce));
      if row.Some? && row.value.item.state.Queued?
      then Filter(t.rows, QueuedKeyed(c, dk, nonce)) == [row.value]
        && Filter(t.rows, Not(QueuedKeyed(c, dk, nonce))) == Filter(t.rows, Not(Is(row.value)))
      else Filter(t.rows, QueuedKeyed(c, dk, nonce)) == [] && Filter(t.rows, Not(QueuedKeyed(c, dk, nonce))) == t.rows
  {
    hide Filter, Ordered;
    var row := First(t.rows, Keyed(c, dk, nonce));
    forall q | q in t.rows && QueuedKeyed(c, dk, nonce)(q)
      ensures row == Some(q)
    {
      assert Keyed(c, dk, nonce)(q) && row.Some? && SameKey(row.value, q);
    }
    if row.Some? && row.value.item.state.Queued? {
      AllDifferent(t);
      FilterOne(t.rows, QueuedKeyed(c, dk, nonce), row.value);
      FilterSame(t.rows, Not(QueuedKeyed(c, dk, nonce)), Not(Is(row.value)));
    } else {
      FilterNone(t.rows, QueuedKeyed(c, dk, nonce));
      FilterAll(t.rows, Not(QueuedKeyed(c, dk, nonce)));
    }
  }

  lemma DeletesOne(t: Table, c: string, dk: string, field: Field)
    requires Ordered(t) && KeysUnique(t)
    ensures
      var nonce := CancelNonce(field);
      var rows := Filter(t.rows, Not(QueuedKeyed(c, dk, nonce)));
      var row := First(t.rows, Keyed(c, dk, nonce));
      && Cancel(t, c, dk, field).0 == Table(rows, t.last)
      && (if |Filter(t.rows, QueuedKeyed(c, dk, nonce))| == 1 then Cancel(t, c, dk, field).1 == Cancelled(nonce)
          else rows == t.rows && Cancel(t, c, dk, field).1 == Gone(nonce, if row.Some? && row.value.item.state.Delivering? then Some(Delivering) else None))
  {
    hide Filter, Ordered, KeysUnique;
    QueuedRow(t, c, dk, CancelNonce(field));
  }

  /** At most one row has the number, so what is deleted is what is returned. */
  lemma TakesOne(t: Table, c: string, seq_: int)
    requires Ordered(t)
    ensures
      var row := First(t.rows, Acked(c, seq_));
      Filter(t.rows, Not(Acked(c, seq_))) == if row.Some? then Filter(t.rows, Not(Is(row.value))) else t.rows
  {
    hide Filter;
    var row := First(t.rows, Acked(c, seq_));
    if row.Some? {
      forall q | q in t.rows
        ensures Acked(c, seq_)(q) == Is(row.value)(q)
      {
        if Acked(c, seq_)(q) {
          KeysTellApart(t.rows, SeqOf(), q, row.value);
        }
      }
      FilterSame(t.rows, Not(Acked(c, seq_)), Not(Is(row.value)));
    } else {
      FilterAll(t.rows, Not(Acked(c, seq_)));
    }
  }
}
