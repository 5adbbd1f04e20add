/** Whole runs of the private relay's mailbox: conservation, quotas, and order under at-least-once delivery. */
module MailboxRuns {
  import opened Wrappers
  import opened Sequences
  import opened MailboxItems
  import opened MailboxTable

  /** One call into mailbox.ts or store.ts. Restart is the constructor's requeue after a crash. */
  datatype Op =
    | DoPut(c: string, dk: string, msg: PutMsg, hostReady: bool, now: int)
    | DoCancel(c: string, dk: string, nonce: Field)
    | DoList(c: string, dk: string)
    | DoDeliver(c: string, now: int)
    | DoAck(c: string, number: Option<int>, outcome: Outcome)
    | DoRequeue(c: string)
    | DoExpire(c: string, now: int)
    | DoExpireAll(now: int)
    | DoRestart

  datatype Output =
    | Replied(reply: Reply)
    | Offered(row: Option<Row>)
    | Noted(note: Option<Note>)
    | Lapsed(notes: seq<Note>)
    | Silent

  function Apply(t: Table, op: Op): (Table, Output) {
    match op
    case DoPut(c, dk, msg, hostReady, now) => var (u, reply) := Put(t, c, dk, msg, hostReady, now); (u, Replied(reply))
    case DoCancel(c, dk, nonce) => var (u, reply) := Cancel(t, c, dk, nonce); (u, Replied(reply))
    case DoList(c, dk) => (t, Replied(Listing(t, c, dk)))
    case DoDeliver(c, now) => var (u, row) := DeliverNext(t, c, now); (u, Offered(row))
    case DoAck(c, number, outcome) => var (u, note) := Ack(t, c, number, outcome); (u, Noted(note))
    case DoRequeue(c) => (Requeue(t, c), Silent)
    case DoExpire(c, now) => var (u, notes) := Expire(t, c, now); (u, Lapsed(notes))
    case DoExpireAll(now) => (ExpireAll(t, now), Silent)
    case DoRestart => (RequeueAll(t), Silent)
  }

  function Moment(op: Op, clock: int): int {
    if op.DoPut? || op.DoDeliver? || op.DoExpire? || op.DoExpireAll? then op.now else clock
  }

  // ---- the ledger of a run ----

  datatype Key = Key(c: string, dk: string, nonce: string)

  datatype Fate = Acknowledged | Withdrawn | RanOut

  /**
   * `accepted[n - 1]` is the put that row `n` came from. `fate` says how each row that is gone left.
   * `acks` and `offers` list what the hosts acknowledged and were sent, in order.
   */
  datatype Ledger = Ledger(table: Table, clock: int, accepted: seq<Key>, fate: map<nat, Fate>,
                           acks: seq<(string, nat)>, offers: seq<(string, nat)>)

  const START := Ledger(EMPTY, 0, [], map[], [], [])

  function Numbers(rows: seq<Row>): set<nat> {
    set r | r in rows :: r.seq_
  }

  /** The rows an operation takes out, with the way they leave. */
  function Departed(t: Table, op: Op): map<nat, Fate> {
    match op
    case DoCancel(c, dk, field) =>
      var row := First(t.rows, Keyed(c, dk, CancelNonce(field)));
      if row.Some? && row.value.item.state.Queued? then map[row.value.seq_ := Withdrawn] else map[]
    case DoAck(c, number, outcome) =>
      if number.Some? && SafeInteger(number.value) && First(t.rows, Acked(c, number.value)).Some?
      then map[First(t.rows, Acked(c, number.value)).value.seq_ := Acknowledged] else map[]
    case DoExpire(c, now) => map n | n in Numbers(Filter(t.rows, Expired(c, now))) :: RanOut
    case DoExpireAll(now) => map n | n in Numbers(Filter(t.rows, Outdated(now))) :: RanOut
    case _ => map[]
  }

  function Accepts(t: Table, op: Op): seq<Key> {
    if op.DoPut? && Apply(t, op).0.last != t.last then [Key(op.c, op.dk, op.msg.nonce.text)] else []
  }

  function Acks(t: Table, op: Op): seq<(string, nat)> {
    if op.DoAck? && Apply(t, op).1.note.Some? then [(op.c, First(t.rows, Acked(op.c, op.number.value)).value.seq_)] else []
  }

  function Offers(t: Table, op: Op): seq<(string, nat)> {
    if op.DoDeliver? && Apply(t, op).1.row.Some? then [(op.c, Apply(t, op).1.row.value.seq_)] else []
  }

  function Step(l: Ledger, op: Op): Ledger {
    Ledger(Apply(l.table, op).0, Moment(op, l.clock), l.accepted + Accepts(l.table, op), l.fate + Departed(l.table, op),
           l.acks + Acks(l.table, op), l.offers + Offers(l.table, op))
  }

  function Run(l: Ledger, ops: seq<Op>): Ledger {
    if ops == [] then l else Step(Run(l, ops[..|ops| - 1]), ops[|ops| - 1])
  }

  /** The clock never runs backwards. */
  predicate Timed(l: Ledger, ops: seq<Op>) {
    ops == [] || (Timed(l, ops[..|ops| - 1]) && InOrder(Run(l, ops[..|ops| - 1]), ops[|ops| - 1]))
  }

  predicate InOrder(l: Ledger, op: Op) {
    Moment(op, l.clock) >= l.clock
  }

  // ---- validity ----

  lemma ApplyKeepsValid(t: Table, op: Op)
    requires Valid(t)
    ensures Valid(Apply(t, op).0)
  {
    hide Valid, Put, DeliverNext;
    match op
    case DoPut(c, dk, msg, hostReady, now) => PutKeepsValid(t, c, dk, msg, hostReady, now);
    case DoCancel(c, dk, field) =>
      var row := First(t.rows, Keyed(c, dk, CancelNonce(field)));
      if row.Some? { RemovalKeepsValid(t, Not(Is(row.value))); }
    case DoAck(c, number, outcome) =>
      if number.Some? && First(t.rows, Acked(c, number.value)).Some? {
        RemovalKeepsValid(t, Not(Is(First(t.rows, Acked(c, number.value)).value)));
      }
    case DoList(c, dk) =>
    case DoDeliver(c, now) => DeliverKeepsValid(t, c, now);
    case DoRequeue(c) => RequeueKeepsValid(t, c);
    case DoExpire(c, now) => RemovalKeepsValid(t, Not(Expired(c, now)));
    case DoExpireAll(now) => RemovalKeepsValid(t, Not(Outdated(now)));
    case DoRestart => RequeueAllKeepsValid(t);
  }

  // ---- what a step does to one row ----

  /** A row of the table before: gone with a recorded fate, or still there but for its state. */
  lemma RowAfter(t: Table, op: Op, r: Row)
    requires Ordered(t) && r in t.rows
    ensures r.seq_ in Departed(t, op) || exists q :: q in Apply(t, op).0.rows && SameButState(q, r)
  {
    hide Put, Cancel, Ack, Departed, Ordered, Listing;
    assert SameButState(r, r);
    match op
    case DoDeliver(c, now) =>
      var row := DeliverNext(t, c, now).1;
      if row.Some? { Kept(t.rows, Delivers(row.value.seq_), r); }
    case DoRequeue(c) => Kept(t.rows, Requeues(c), r);
    case DoRestart => Kept(t.rows, RequeuesAll(), r);
    case _ => RowStays(t, op, r);
  }

  lemma RowStays(t: Table, op: Op, r: Row)
    requires r in t.rows && !op.DoDeliver? && !op.DoRequeue? && !op.DoRestart?
    ensures r in Apply(t, op).0.rows || r.seq_ in Departed(t, op)
  {
    hide HasRoom, Screen;
  }

  lemma Kept(rows: seq<Row>, f: Row -> Row, r: Row)
    requires r in rows && SameButState(f(r), r)
    ensures exists q :: q in Map(rows, f) && SameButState(q, r)
  {
    var i :| 0 <= i < |rows| && rows[i] == r;
    assert Map(rows, f)[i] in Map(rows, f);
  }

  /** A row of the table after: just put, or there before but for its state. What left is not there. */
  lemma RowBefore(t: Table, op: Op, r: Row)
    requires Ordered(t) && r in Apply(t, op).0.rows
    ensures r.seq_ !in Departed(t, op)
    ensures
      || (Accepts(t, op) == [Key(r.computer, r.item.dk, r.item.nonce)] && r.seq_ == t.last + 1 && r.item.state.Queued?)
      || exists q :: q in t.rows && SameButState(r, q)
  {
    match op
    case DoDeliver(c, now) =>
      var row := DeliverNext(t, c, now).1;
      if row.Some? { var q := Restated(t.rows, Delivers(row.value.seq_), r); } else { assert SameButState(r, r); }
    case DoRequeue(c) => var q := Restated(t.rows, Requeues(c), r);
    case DoRestart => var q := Restated(t.rows, RequeuesAll(), r);
    case DoPut(c, dk, msg, hostReady, now) => if r in t.rows { assert SameButState(r, r); }
    case _ =>
      assert SameButState(r, r);
      RemovedForGood(t, op, r);
  }

  lemma RemovedForGood(t: Table, op: Op, r: Row)
    requires Ordered(t) && r in Apply(t, op).0.rows
    requires op.DoCancel? || op.DoAck? || op.DoExpire? || op.DoExpireAll? || op.DoList?
    ensures r in t.rows && r.seq_ !in Departed(t, op)
  {
    if r.seq_ in Departed(t, op) {
      var q :| q in t.rows && q.seq_ == r.seq_ && q !in Apply(t, op).0.rows;
      KeysTellApart(t.rows, SeqOf(), q, r);
    }
  }

  // ---- conservation ----

  predicate Live(l: Ledger, n: nat) {
    n in Numbers(l.table.rows)
  }

  ghost predicate Partitioned(l: Ledger) {
    && (forall n: nat :: 1 <= n <= l.table.last <==> Live(l, n) || n in l.fate)
    && (forall n: nat :: Live(l, n) ==> n !in l.fate)
  }

  ghost predicate Recorded(l: Ledger) {
    && |l.accepted| == l.table.last
    && (forall r :: r in l.table.rows ==> 1 <= r.seq_ <= |l.accepted| && l.accepted[r.seq_ - 1] == Key(r.computer, r.item.dk, r.item.nonce))
  }

  ghost predicate Conserved(l: Ledger) {
    Valid(l.table) && Partitioned(l) && Recorded(l)
  }

  lemma DepartedWereThere(t: Table, op: Op, n: nat)
    requires n in Departed(t, op)
    ensures n in Numbers(t.rows)
  {
    assert exists r :: r in t.rows && r.seq_ == n;
  }

  lemma LastAfter(t: Table, op: Op)
    ensures Apply(t, op).0.last == t.last + |Accepts(t, op)|
    ensures Accepts(t, op) != [] ==> t.last + 1 in Numbers(Apply(t, op).0.rows)
  {
    hide Screen, HasRoom, First, Filter, Map;
    if Accepts(t, op) != [] {
      var rows := Apply(t, op).0.rows;
      assert rows[|rows| - 1] in rows;
    }
  }

  /** Where a number is after a step, given where it was. */
  lemma NumberAfter(t: Table, op: Op, n: nat)
    requires Ordered(t)
    ensures n in Numbers(Apply(t, op).0.rows) ==> n !in Departed(t, op) && (n in Numbers(t.rows) || (n == t.last + 1 && Accepts(t, op) != []))
    ensures n in Numbers(t.rows) && n !in Departed(t, op) ==> n in Numbers(Apply(t, op).0.rows)
  {
    var rows := Apply(t, op).0.rows;
    if n in Numbers(rows) {
      var r :| r in rows && r.seq_ == n;
      RowBefore(t, op, r);
    }
    if n in Numbers(t.rows) && n !in Departed(t, op) {
      var r :| r in t.rows && r.seq_ == n;
      RowAfter(t, op, r);
    }
  }

  lemma StepPlacesNumber(l: Ledger, op: Op, n: nat)
    requires Conserved(l)
    ensures
      var u := Apply(l.table, op).0;
      && (1 <= n <= u.last <==> n in Numbers(u.rows) || n in l.fate || n in Departed(l.table, op))
      && (n in Numbers(u.rows) ==> n !in l.fate && n !in Departed(l.table, op))
  {
    hide Apply, Departed, Recorded, KeysUnique, OneInFlight, WithinQuotas;
    LastAfter(l.table, op);
    NumberAfter(l.table, op, n);
    assert Live(l, n) <==> n in Numbers(l.table.rows);
    if n in Departed(l.table, op) {
      DepartedWereThere(l.table, op, n);
    }
  }

  lemma StepPartitions(l: Ledger, op: Op)
    requires Conserved(l)
    ensures Partitioned(Step(l, op))
  {
    forall n: nat
      ensures 1 <= n <= Step(l, op).table.last <==> Live(Step(l, op), n) || n in Step(l, op).fate
      ensures Live(Step(l, op), n) ==> n !in Step(l, op).fate
    {
      StepPlacesNumber(l, op, n);
    }
  }

  lemma StepRecords(l: Ledger, op: Op)
    requires Conserved(l)
    ensures Recorded(Step(l, op))
  {
    hide Apply, Departed, Partitioned, KeysUnique, OneInFlight, WithinQuotas;
    var m := Step(l, op);
    LastAfter(l.table, op);
    forall r | r in m.table.rows
      ensures 1 <= r.seq_ <= |m.accepted| && m.accepted[r.seq_ - 1] == Key(r.computer, r.item.dk, r.item.nonce)
    {
      RowBefore(l.table, op, r);
    }
  }

  lemma StepConserves(l: Ledger, op: Op)
    requires Conserved(l)
    ensures Conserved(Step(l, op))
  {
    ApplyKeepsValid(l.table, op);
    StepPartitions(l, op);
    StepRecords(l, op);
  }

  /**
   * In every run, each accepted put is in the table exactly once, under its own key, or has left by exactly one of
   * acknowledged, withdrawn and ran out. Keys are unique, and the quotas hold.
   */
  lemma {:induction false} RunConserves(ops: seq<Op>)
    ensures Conserved(Run(START, ops))
  {
    if ops != [] {
      RunConserves(ops[..|ops| - 1]);
      StepConserves(Run(START, ops[..|ops| - 1]), ops[|ops| - 1]);
    }
  }

  lemma {:induction false} RunJoins(l: Ledger, ops: seq<Op>, more: seq<Op>)
    ensures Run(l, ops + more) == Run(Run(l, ops), more)
  {
    if more == [] {
      assert ops + more == ops;
    } else {
      assert (ops + more)[..|ops + more| - 1] == ops + more[..|more| - 1];
      RunJoins(l, ops, more[..|more| - 1]);
    }
  }

  lemma StepKeepsFate(l: Ledger, op: Op, n: nat)
    requires Conserved(l) && n in l.fate
    ensures n in Step(l, op).fate && Step(l, op).fate[n] == l.fate[n] && !Live(Step(l, op), n)
  {
    StepPartitions(l, op);
    if n in Departed(l.table, op) {
      DepartedWereThere(l.table, op, n);
    }
  }

  lemma GoneIsNotLive(l: Ledger, n: nat)
    requires Conserved(l) && n in l.fate
    ensures !Live(l, n)
  {
  }

  /** However a run goes on, how a row left never changes, and it never comes back. */
  lemma {:induction false} FateIsFinal(l: Ledger, more: seq<Op>, n: nat)
    requires Conserved(l) && n in l.fate
    ensures Conserved(Run(l, more))
    ensures n in Run(l, more).fate && Run(l, more).fate[n] == l.fate[n] && !Live(Run(l, more), n)
  {
    hide Conserved, Step, Live;
    if more == [] {
      GoneIsNotLive(l, n);
    } else {
      FateIsFinal(l, more[..|more| - 1], n);
      StepConserves(Run(l, more[..|more| - 1]), more[|more| - 1]);
      StepKeepsFate(Run(l, more[..|more| - 1]), more[|more| - 1], n);
    }
  }

  /** An item that was cancelled, acknowledged or expired is never offered to a host again. */
  lemma GoneIsNeverOffered(l: Ledger, more: seq<Op>, c: string, now: int)
    requires Conserved(l) && DeliverNext(Run(l, more).table, c, now).1.Some?
    ensures DeliverNext(Run(l, more).table, c, now).1.value.seq_ !in l.fate
  {
    hide Conserved, Run;
    var n := DeliverNext(Run(l, more).table, c, now).1.value.seq_;
    assert Live(Run(l, more), n);
    if n in l.fate {
      FateIsFinal(l, more, n);
    }
  }

  /** A put under a nonce still held changes nothing, whatever else it says. */
  lemma RepeatedPutChangesNothing(t: Table, r: Row, msg: PutMsg, hostReady: bool, now: int)
    requires Valid(t) && r in t.rows && ValidNonce(msg.nonce) && msg.nonce.text == r.item.nonce
    ensures Put(t, r.computer, r.item.dk, msg, hostReady, now) == (t, Ok(r.item.nonce, r.item.state))
  {
    var existing := First(t.rows, Keyed(r.computer, r.item.dk, r.item.nonce));
    assert existing.Some? && SameKey(existing.value, r);
  }

  // ---- order ----

  /** The number `log` last holds for a computer, or zero. */
  function LastOf(log: seq<(string, nat)>, c: string): nat {
    if log == [] then 0 else if log[|log| - 1].0 == c then log[|log| - 1].1 else LastOf(log[..|log| - 1], c)
  }

  ghost predicate Ascends(log: seq<(string, nat)>) {
    forall i, j :: 0 <= i < j < |log| && log[i].0 == log[j].0 ==> log[i].1 < log[j].1
  }

  ghost predicate NeverBack(log: seq<(string, nat)>) {
    forall i, j :: 0 <= i < j < |log| && log[i].0 == log[j].0 ==> log[i].1 <= log[j].1
  }

  lemma LastAppended(log: seq<(string, nat)>, c: string, n: nat, d: string)
    ensures LastOf(log + [(c, n)], d) == if c == d then n else LastOf(log, d)
  {
    assert (log + [(c, n)])[..|log|] == log;
  }

  lemma {:induction false} LastIsGreatest(log: seq<(string, nat)>, i: nat)
    requires NeverBack(log) && i < |log|
    ensures log[i].1 <= LastOf(log, log[i].0)
  {
    if log[|log| - 1].0 != log[i].0 {
      LastIsGreatest(log[..|log| - 1], i);
    }
  }

  lemma {:induction false} LastIsLogged(log: seq<(string, nat)>, c: string)
    ensures LastOf(log, c) == 0 || (c, LastOf(log, c)) in log
  {
    if log != [] && log[|log| - 1].0 != c {
      LastIsLogged(log[..|log| - 1], c);
    }
  }

  lemma AppendNeverBack(log: seq<(string, nat)>, c: string, n: nat)
    requires NeverBack(log) && LastOf(log, c) <= n
    ensures NeverBack(log + [(c, n)])
  {
    forall i | 0 <= i < |log| && log[i].0 == c
      ensures log[i].1 <= n
    {
      LastIsGreatest(log, i);
    }
  }

  lemma AppendAscends(log: seq<(string, nat)>, c: string, n: nat)
    requires Ascends(log) && LastOf(log, c) < n
    ensures Ascends(log + [(c, n)])
  {
    forall i | 0 <= i < |log| && log[i].0 == c
      ensures log[i].1 < n
    {
      LastIsGreatest(log, i);
    }
  }

  /** Nothing unexpired was overtaken by what was last offered; what is in flight is what was last offered. */
  ghost predicate InTurn(l: Ledger) {
    forall r :: r in l.table.rows ==>
      && (r.item.exp > l.clock ==> r.seq_ >= LastOf(l.offers, r.computer))
      && (r.item.state.Delivering? ==> r.seq_ == LastOf(l.offers, r.computer))
  }

  ghost predicate Logged(l: Ledger) {
    && NeverBack(l.offers) && Ascends(l.acks)
    && (forall c :: LastOf(l.acks, c) <= LastOf(l.offers, c) <= l.table.last)
    && (forall a :: a in l.acks ==> a.1 in l.fate)
  }

  ghost predicate Orderly(l: Ledger) {
    Conserved(l) && InTurn(l) && Logged(l)
  }

  lemma StepKeepsTurn(l: Ledger, op: Op)
    requires Orderly(l) && InOrder(l, op)
    ensures InTurn(Step(l, op))
  {
    var m := Step(l, op);
    forall r | r in m.table.rows
      ensures r.item.exp > m.clock ==> r.seq_ >= LastOf(m.offers, r.computer)
      ensures r.item.state.Delivering? ==> r.seq_ == LastOf(m.offers, r.computer)
    {
      RowBefore(l.table, op, r);
      if Offers(l.table, op) != [] {
        OfferKeepsTurn(l, op, r);
      } else {
        assert m.offers == l.offers;
        if r.item.state.Delivering? {
          StateBefore(l.table, op, r);
        }
      }
    }
  }

  /** Only a delivery puts a row in flight. */
  lemma StateBefore(t: Table, op: Op, r: Row)
    requires Ordered(t) && r in Apply(t, op).0.rows && Offers(t, op) == [] && r.item.state.Delivering?
    ensures r in t.rows
  {
    match op
    case DoRequeue(c) => var q := Restated(t.rows, Requeues(c), r);
    case DoRestart => NothingInFlight(t, r);
    case _ =>
  }

  lemma OfferKeepsTurn(l: Ledger, op: Op, r: Row)
    requires Orderly(l) && InOrder(l, op) && Offers(l.table, op) != [] && r in Step(l, op).table.rows
    ensures
      var m := Step(l, op);
      && (r.item.exp > m.clock ==> r.seq_ >= LastOf(m.offers, r.computer))
      && (r.item.state.Delivering? ==> r.seq_ == LastOf(m.offers, r.computer))
  {
    var row := Apply(l.table, op).1.row.value;
    LastAppended(l.offers, op.c, row.seq_, r.computer);
    DeliveredRow(l.table, op.c, op.now, r);
    if r in l.table.rows && r.computer == op.c {
      assert !InFlight(op.c)(r);
      if r.item.exp > op.now {
        FirstIsLeast(l.table.rows, Deliverable(op.c, op.now), SeqOf(), r);
      }
    }
  }

  lemma StepKeepsLogs(l: Ledger, op: Op)
    requires Orderly(l) && InOrder(l, op)
    ensures Logged(Step(l, op))
  {
    var m := Step(l, op);
    LastAfter(l.table, op);
    if Offers(l.table, op) != [] {
      OfferKeepsLogs(l, op);
    } else if Acks(l.table, op) != [] {
      AckKeepsLogs(l, op);
    } else {
      assert m.offers == l.offers && m.acks == l.acks;
    }
  }

  lemma OfferedRow(l: Ledger, op: Op) returns (row: Row)
    requires InTurn(l) && Ordered(l.table) && InOrder(l, op) && Offers(l.table, op) != []
    ensures op.DoDeliver? && Offers(l.table, op) == [(op.c, row.seq_)] && LastOf(l.offers, op.c) <= row.seq_ <= l.table.last
    ensures Step(l, op) == l.(table := Step(l, op).table, clock := Step(l, op).clock, offers := l.offers + [(op.c, row.seq_)])
    ensures Step(l, op).table.last == l.table.last
  {
    row := OfferIs(l.table, op);
    hide Apply, Departed, Offers, Accepts, Acks;
    assert l.accepted + [] == l.accepted && l.acks + [] == l.acks && l.fate + map[] == l.fate;
  }

  lemma TableOrdered(l: Ledger)
    requires Conserved(l)
    ensures Ordered(l.table)
  {
  }

  lemma OfferIs(t: Table, op: Op) returns (row: Row)
    requires Offers(t, op) != []
    ensures op.DoDeliver? && row in t.rows && row.computer == op.c && row.item.exp > op.now
    ensures Offers(t, op) == [(op.c, row.seq_)] && Accepts(t, op) == [] && Acks(t, op) == [] && Departed(t, op) == map[]
    ensures Apply(t, op).0.last == t.last
  {
    row := Apply(t, op).1.row.value;
  }

  lemma OfferKeepsLogs(l: Ledger, op: Op)
    requires Orderly(l) && InOrder(l, op) && Offers(l.table, op) != []
    ensures Logged(Step(l, op))
  {
    hide Conserved, InTurn, Step, Offers, Ordered;
    TableOrdered(l);
    var row := OfferedRow(l, op);
    AppendNeverBack(l.offers, op.c, row.seq_);
    forall c
      ensures LastOf(l.acks, c) <= LastOf(l.offers + [(op.c, row.seq_)], c) <= l.table.last
    {
      LastAppended(l.offers, op.c, row.seq_, c);
    }
  }

  lemma AckedWasLastOffered(l: Ledger, op: Op)
    requires Orderly(l) && Acks(l.table, op) != []
    ensures
      var n := Acks(l.table, op)[0].1;
      LastOf(l.acks, op.c) < n == LastOf(l.offers, op.c) && Acks(l.table, op) == [(op.c, n)] && n in Departed(l.table, op)
  {
    var row := First(l.table.rows, Acked(op.c, op.number.value)).value;
    assert Live(l, row.seq_) && row.computer == op.c && row.seq_ == LastOf(l.offers, op.c);
    LastIsLogged(l.acks, op.c);
  }

  lemma AckKeepsLogs(l: Ledger, op: Op)
    requires Orderly(l) && Acks(l.table, op) != []
    ensures Logged(Step(l, op))
  {
    AckedWasLastOffered(l, op);
    var n := Acks(l.table, op)[0].1;
    AppendAscends(l.acks, op.c, n);
    forall c
      ensures LastOf(l.acks + [(op.c, n)], c) <= LastOf(l.offers, c)
    {
      LastAppended(l.acks, op.c, n, c);
    }
    assert Step(l, op).offers == l.offers;
    assert Step(l, op).table.last == l.table.last;
  }

  /** In every run on a clock that never runs back, hosts are offered items in order and acknowledge each at most once, in order. */
  lemma {:induction false} RunIsOrderly(ops: seq<Op>)
    requires Timed(START, ops)
    ensures Orderly(Run(START, ops))
    ensures Ascends(Run(START, ops).acks) && NeverBack(Run(START, ops).offers)
  {
    if ops != [] {
      var front, op := ops[..|ops| - 1], ops[|ops| - 1];
      RunIsOrderly(front);
      StepConserves(Run(START, front), op);
      StepKeepsTurn(Run(START, front), op);
      StepKeepsLogs(Run(START, front), op);
    }
  }

  /**
   * At least once: while the item last offered to a computer's host is still held and has not expired, nothing else
   * is offered, and it is offered again as soon as nothing is in flight.
   */
  lemma InterruptedIsNext(l: Ledger, r: Row, now: int)
    requires Orderly(l) && now >= l.clock
    requires r in l.table.rows && r.seq_ == LastOf(l.offers, r.computer) && r.item.exp > now
    ensures
      var offer := DeliverNext(l.table, r.computer, now).1;
      if r.item.state.Delivering? then offer == None else offer == Some(r)
  {
    if r.item.state.Delivering? {
      assert InFlight(r.computer)(r);
    } else {
      forall q | q in l.table.rows && q.computer == r.computer
        ensures !q.item.state.Delivering?
      {
        if q.item.state.Delivering? {
          KeysTellApart(l.table.rows, SeqOf(), q, r);
        }
      }
      FirstIsLeast(l.table.rows, Deliverable(r.computer, now), SeqOf(), r);
    }
  }
}
