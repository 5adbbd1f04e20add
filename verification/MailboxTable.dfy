/**
 * The private relay's mailbox table (`private-relay/src/store.ts`) and what `private-relay/src/mailbox.ts`
 * does to it, as functions on the rows. One table holds every computer's items.
 */
module MailboxTable {
  import opened Wrappers
  import opened Sequences
  import opened Base64Url
  import opened MailboxItems

  datatype Row = Row(seq_: nat, computer: string, item: Item)

  /** Rows in `seq` order, and the last `seq` the AUTOINCREMENT counter gave out. */
  datatype Table = Table(rows: seq<Row>, last: nat)

  const EMPTY := Table([], 0)

  function SeqOf(): Row -> nat { (r: Row) => r.seq_ }

  function SizeOf(): Row -> nat { (r: Row) => |r.item.blob| }

  // ---- WHERE clauses ----

  function OfComputer(c: string): Row -> bool { (r: Row) => r.computer == c }

  function OfDevice(c: string, dk: string): Row -> bool { (r: Row) => r.computer == c && r.item.dk == dk }

  function Keyed(c: string, dk: string, nonce: string): Row -> bool {
    (r: Row) => r.computer == c && r.item.dk == dk && r.item.nonce == nonce
  }

  function InFlight(c: string): Row -> bool { (r: Row) => r.computer == c && r.item.state.Delivering? }

  function Deliverable(c: string, now: int): Row -> bool {
    (r: Row) => r.computer == c && r.item.state.Queued? && r.item.exp > now
  }

  function Acked(c: string, seq_: int): Row -> bool {
    (r: Row) => r.seq_ == seq_ && r.computer == c && r.item.state.Delivering?
  }

  function Expired(c: string, now: int): Row -> bool { (r: Row) => r.computer == c && r.item.exp <= now }

  function Outdated(now: int): Row -> bool { (r: Row) => r.item.exp <= now }

  function Not(p: Row -> bool): Row -> bool { (r: Row) => !p(r) }

  function Is(row: Row): Row -> bool { (r: Row) => r == row }

  // ---- UPDATE ... SET state ----

  function WithState(r: Row, state: State): Row { r.(item := r.item.(state := state)) }

  function Delivers(seq_: nat): Row -> Row { (r: Row) => if r.seq_ == seq_ then WithState(r, Delivering) else r }

  function Requeues(c: string): Row -> Row { (r: Row) => if r.computer == c && r.item.state.Delivering? then WithState(r, Queued) else r }

  function RequeuesAll(): Row -> Row { (r: Row) => if r.item.state.Delivering? then WithState(r, Queued) else r }

  // ---- the operations of mailbox.ts ----

  function PutNonce(f: Field): Field { if f.Text? then f else Null }

  function HasRoom(t: Table, c: string, dk: string, size: nat): bool {
    var all := Filter(t.rows, OfComputer(c));
    && |Filter(t.rows, OfDevice(c, dk))| < MBOX_PER_DEVICE
    && |all| < MBOX_PER_COMPUTER
    && Sum(all, SizeOf()) + size <= MBOX_MAX_BYTES
  }

  function Insert(t: Table, c: string, dk: string, nonce: string, blob: seq<byte>, exp: int): Table {
    Table(t.rows + [Row(t.last + 1, c, Item(dk, nonce, blob, exp, Queued))], t.last + 1)
  }

  function Put(t: Table, c: string, dk: string, msg: PutMsg, hostReady: bool, now: int): (Table, Reply) {
    if !ValidNonce(msg.nonce) then (t, Err(PutNonce(msg.nonce), Invalid))
    else
      var existing := First(t.rows, Keyed(c, dk, msg.nonce.text));
      if existing.Some? then (t, Ok(msg.nonce.text, existing.value.item.state))
      else if hostReady then (t, Err(msg.nonce, HostOnline))
      else
        match Screen(msg, now, PRIVATE_MAX_TEXT)
        case Refused(code) => (t, Err(msg.nonce, code))
        case Fits(blob, exp) =>
          if !HasRoom(t, c, dk, |blob|) then (t, Err(msg.nonce, Full))
          else (Insert(t, c, dk, msg.nonce.text, blob, exp), Ok(msg.nonce.text, Queued))
  }

  function Cancel(t: Table, c: string, dk: string, field: Field): (Table, Reply) {
    var nonce := CancelNonce(field);
    match First(t.rows, Keyed(c, dk, nonce))
    case None => (t, Gone(nonce, None))
    case Some(row) =>
      if row.item.state.Queued? then (t.(rows := Filter(t.rows, Not(Is(row)))), Cancelled(nonce))
      else (t, Gone(nonce, Some(Delivering)))
  }

  function Listing(t: Table, c: string, dk: string): Reply {
    Items(Map(Filter(t.rows, OfDevice(c, dk)), (r: Row) => (r.item.nonce, r.item.exp, r.item.state)))
  }

  function DeliverNext(t: Table, c: string, now: int): (Table, Option<Row>) {
    if First(t.rows, InFlight(c)).Some? then (t, None)
    else
      match First(t.rows, Deliverable(c, now))
      case None => (t, None)
      case Some(row) => (t.(rows := Map(t.rows, Delivers(row.seq_))), Some(row))
  }

  /** `seq_` is `Number(msg.seq)` when that is an integer. */
  function Ack(t: Table, c: string, seq_: Option<int>, outcome: Outcome): (Table, Option<Note>) {
    if seq_.None? || !SafeInteger(seq_.value) then (t, None)
    else
      match First(t.rows, Acked(c, seq_.value))
      case None => (t, None)
      case Some(row) => (t.(rows := Filter(t.rows, Not(Is(row)))), Some(Note(row.item.dk, row.item.nonce, outcome)))
  }

  function ExpiredNote(): Row -> Note { (r: Row) => Note(r.item.dk, r.item.nonce, ExpiredItem) }

  function Expire(t: Table, c: string, now: int): (Table, seq<Note>) {
    (t.(rows := Filter(t.rows, Not(Expired(c, now)))), Map(Filter(t.rows, Expired(c, now)), ExpiredNote()))
  }

  function ExpireAll(t: Table, now: int): Table {
    t.(rows := Filter(t.rows, Not(Outdated(now))))
  }

  function Requeue(t: Table, c: string): Table { t.(rows := Map(t.rows, Requeues(c))) }

  function RequeueAll(t: Table): Table { t.(rows := Map(t.rows, RequeuesAll())) }

  // ---- invariant ----

  ghost predicate Ordered(t: Table) {
    Serial(t.rows, SeqOf(), t.last)
  }

  ghost predicate SameKey(r: Row, q: Row) {
    r.computer == q.computer && r.item.dk == q.item.dk && r.item.nonce == q.item.nonce
  }

  /** UNIQUE(computer_id, dk, nonce) */
  ghost predicate KeysUnique(t: Table) {
    forall r, q {:trigger SameKey(r, q)} :: r in t.rows && q in t.rows && SameKey(r, q) ==> r == q
  }

  ghost predicate BothInFlight(r: Row, q: Row) {
    r.computer == q.computer && r.item.state.Delivering? && q.item.state.Delivering?
  }

  ghost predicate OneInFlight(t: Table) {
    forall r, q {:trigger BothInFlight(r, q)} :: r in t.rows && q in t.rows && BothInFlight(r, q) ==> r == q
  }

  ghost predicate DeviceWithin(t: Table, c: string, dk: string) {
    |Filter(t.rows, OfDevice(c, dk))| <= MBOX_PER_DEVICE
  }

  ghost predicate ComputerWithin(t: Table, c: string) {
    |Filter(t.rows, OfComputer(c))| <= MBOX_PER_COMPUTER && Sum(Filter(t.rows, OfComputer(c)), SizeOf()) <= MBOX_MAX_BYTES
  }

  /** 50 items a device; 500 items and 8 MiB a computer. */
  ghost predicate WithinQuotas(t: Table) {
    (forall c, dk :: DeviceWithin(t, c, dk)) && (forall c :: ComputerWithin(t, c))
  }

  ghost predicate Valid(t: Table) {
    Ordered(t) && KeysUnique(t) && OneInFlight(t) && WithinQuotas(t)
  }

  // ---- removing rows keeps the invariant ----

  lemma RemovalKeepsQuotas(t: Table, keep: Row -> bool)
    requires WithinQuotas(t)
    ensures WithinQuotas(t.(rows := Filter(t.rows, keep)))
  {
    var u := t.(rows := Filter(t.rows, keep));
    forall c, dk
      ensures DeviceWithin(u, c, dk)
    {
      assert DeviceWithin(t, c, dk);
      FilterCommutes(t.rows, keep, OfDevice(c, dk));
    }
    forall c
      ensures ComputerWithin(u, c)
    {
      assert ComputerWithin(t, c);
      FilterCommutes(t.rows, keep, OfComputer(c));
      SumFilter(Filter(t.rows, OfComputer(c)), keep, SizeOf());
    }
  }

  lemma RemovalKeepsValid(t: Table, keep: Row -> bool)
    requires Valid(t)
    ensures Valid(t.(rows := Filter(t.rows, keep)))
  {
    FilterSerial(t.rows, keep, SeqOf(), t.last);
    RemovalKeepsQuotas(t, keep);
  }

  // ---- a change of state keeps everything but the in-flight rule ----

  predicate SameButState(r: Row, q: Row) {
    && r.seq_ == q.seq_ && r.computer == q.computer
    && r.item.dk == q.item.dk && r.item.nonce == q.item.nonce && r.item.blob == q.item.blob && r.item.exp == q.item.exp
  }

  ghost predicate OnlyState(f: Row -> Row) {
    forall r :: SameButState(f(r), r)
  }

  lemma RestateKeepsQuotas(t: Table, f: Row -> Row)
    requires WithinQuotas(t) && OnlyState(f)
    ensures WithinQuotas(t.(rows := Map(t.rows, f)))
  {
    var u := t.(rows := Map(t.rows, f));
    forall c, dk
      ensures DeviceWithin(u, c, dk)
    {
      assert DeviceWithin(t, c, dk);
      FilterMap(t.rows, f, OfDevice(c, dk));
    }
    forall c
      ensures ComputerWithin(u, c)
    {
      assert ComputerWithin(t, c);
      FilterMap(t.rows, f, OfComputer(c));
      SumMap(Filter(t.rows, OfComputer(c)), f, SizeOf());
    }
  }

  lemma RestateKeepsKeys(t: Table, f: Row -> Row)
    requires KeysUnique(t) && OnlyState(f)
    ensures KeysUnique(t.(rows := Map(t.rows, f)))
  {
    forall r: Row, q: Row | r in Map(t.rows, f) && q in Map(t.rows, f) && SameKey(r, q)
      ensures r == q
    {
      var r0 := Restated(t.rows, f, r);
      var q0 := Restated(t.rows, f, q);
      assert SameKey(r0, q0);
    }
  }

  lemma RestateKeeps(t: Table, f: Row -> Row)
    requires Valid(t) && OnlyState(f) && OneInFlight(t.(rows := Map(t.rows, f)))
    ensures Valid(t.(rows := Map(t.rows, f)))
  {
    RestateKeepsQuotas(t, f);
    MapSerial(t.rows, f, SeqOf(), t.last);
    RestateKeepsKeys(t, f);
  }

  lemma RequeueKeepsOneInFlight(t: Table, c: string)
    requires OneInFlight(t)
    ensures OneInFlight(Requeue(t, c))
  {
    var f := Requeues(c);
    forall r: Row, q: Row | r in Map(t.rows, f) && q in Map(t.rows, f) && BothInFlight(r, q)
      ensures r == q
    {
      var r0 := Restated(t.rows, f, r);
      var q0 := Restated(t.rows, f, q);
    }
  }

  lemma RequeueKeepsValid(t: Table, c: string)
    requires Valid(t)
    ensures Valid(Requeue(t, c))
  {
    RequeueKeepsOneInFlight(t, c);
    forall r
      ensures SameButState(Requeues(c)(r), r)
    {
    }
    RestateKeeps(t, Requeues(c));
  }

  lemma NothingInFlight(t: Table, r: Row)
    requires r in RequeueAll(t).rows
    ensures r.item.state.Queued?
  {
    var q := Restated(t.rows, RequeuesAll(), r);
  }

  lemma RequeueAllKeepsValid(t: Table)
    requires Valid(t)
    ensures Valid(RequeueAll(t))
  {
    forall r | r in RequeueAll(t).rows
      ensures r.item.state.Queued?
    {
      NothingInFlight(t, r);
    }
    forall r
      ensures SameButState(RequeuesAll()(r), r)
    {
    }
    RestateKeeps(t, RequeuesAll());
  }

  /** After a delivery the in-flight rows are those of before and the delivered one. */
  lemma DeliveredRow(t: Table, c: string, now: int, r: Row)
    requires Ordered(t) && DeliverNext(t, c, now).1.Some? && r in DeliverNext(t, c, now).0.rows
    ensures
      var row := DeliverNext(t, c, now).1.value;
      r == WithState(row, Delivering) || (r in t.rows && r.seq_ != row.seq_)
  {
    var row := DeliverNext(t, c, now).1.value;
    var q := Restated(t.rows, Delivers(row.seq_), r);
    if q.seq_ == row.seq_ {
      KeysTellApart(t.rows, SeqOf(), q, row);
    }
  }

  lemma DeliverKeepsOneInFlight(t: Table, c: string, now: int)
    requires Ordered(t) && OneInFlight(t)
    ensures OneInFlight(DeliverNext(t, c, now).0)
  {
    var (u, sent) := DeliverNext(t, c, now);
    if sent.Some? {
      forall r, q | r in u.rows && q in u.rows && BothInFlight(r, q)
        ensures r == q
      {
        DeliveredRow(t, c, now, r);
        DeliveredRow(t, c, now, q);
        assert r in t.rows ==> !InFlight(c)(r);
        assert q in t.rows ==> !InFlight(c)(q);
      }
    }
  }

  lemma DeliverKeepsValid(t: Table, c: string, now: int)
    requires Valid(t)
    ensures Valid(DeliverNext(t, c, now).0)
  {
    var (u, sent) := DeliverNext(t, c, now);
    if sent.Some? {
      DeliverKeepsOneInFlight(t, c, now);
      RestateKeeps(t, Delivers(sent.value.seq_));
    }
  }

  lemma InsertKeepsQuotas(t: Table, c: string, dk: string, nonce: string, blob: seq<byte>, exp: int)
    requires WithinQuotas(t) && HasRoom(t, c, dk, |blob|)
    ensures WithinQuotas(Insert(t, c, dk, nonce, blob, exp))
  {
    var u := Insert(t, c, dk, nonce, blob, exp);
    var row := Row(t.last + 1, c, Item(dk, nonce, blob, exp, Queued));
    forall a, d
      ensures DeviceWithin(u, a, d)
    {
      assert DeviceWithin(t, a, d);
      FilterAppend(t.rows, row, OfDevice(a, d));
    }
    forall a
      ensures ComputerWithin(u, a)
    {
      assert ComputerWithin(t, a);
      FilterAppend(t.rows, row, OfComputer(a));
      SumAppend(Filter(t.rows, OfComputer(a)), row, SizeOf());
    }
  }

  lemma InsertKeepsKeys(t: Table, c: string, dk: string, nonce: string, blob: seq<byte>, exp: int)
    requires KeysUnique(t) && First(t.rows, Keyed(c, dk, nonce)).None?
    ensures KeysUnique(Insert(t, c, dk, nonce, blob, exp))
  {
    var row := Row(t.last + 1, c, Item(dk, nonce, blob, exp, Queued));
    forall r | r in t.rows
      ensures !SameKey(r, row) && !SameKey(row, r)
    {
      assert !Keyed(c, dk, nonce)(r);
    }
  }

  lemma PutKeepsValid(t: Table, c: string, dk: string, msg: PutMsg, hostReady: bool, now: int)
    requires Valid(t)
    ensures Valid(Put(t, c, dk, msg, hostReady, now).0)
  {
    var u := Put(t, c, dk, msg, hostReady, now).0;
    if u != t {
      var s := Screen(msg, now, PRIVATE_MAX_TEXT);
      InsertKeepsQuotas(t, c, dk, msg.nonce.text, s.blob, s.exp);
      InsertKeepsKeys(t, c, dk, msg.nonce.text, s.blob, s.exp);
      AppendSerial(t.rows, u.rows[|t.rows|], SeqOf(), t.last);
    }
  }
}
