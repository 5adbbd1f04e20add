/**
 * The cloud relay's mailbox (`cloud/src/relay.ts`, "mailbox"): one table for one computer, so its rows and its
 * statements carry no computer id.
 */
module CloudMailbox {
  import opened Wrappers
  import opened Sequences
  import opened Base64Url
  import opened MailboxItems

  datatype CloudRow = CloudRow(seq_: nat, item: Item)

  datatype CloudTable = CloudTable(rows: seq<CloudRow>, last: nat)

  const CLOUD_EMPTY := CloudTable([], 0)

  function CloudSeq(): CloudRow -> nat { (r: CloudRow) => r.seq_ }

  function CloudSize(): CloudRow -> nat { (r: CloudRow) => |r.item.blob| }

  function OfKey(dk: string): CloudRow -> bool { (r: CloudRow) => r.item.dk == dk }

  function OfNonce(dk: string, nonce: string): CloudRow -> bool { (r: CloudRow) => r.item.dk == dk && r.item.nonce == nonce }

  function Moving(): CloudRow -> bool { (r: CloudRow) => r.item.state.Delivering? }

  function Due(now: int): CloudRow -> bool { (r: CloudRow) => r.item.state.Queued? && r.item.exp > now }

  function MovingAs(seq_: int): CloudRow -> bool { (r: CloudRow) => r.seq_ == seq_ && r.item.state.Delivering? }

  function Numbered(seq_: int): CloudRow -> bool { (r: CloudRow) => r.seq_ == seq_ }

  function PastExpiry(now: int): CloudRow -> bool { (r: CloudRow) => r.item.exp <= now }

  function QueuedBy(dk: string): CloudRow -> bool { (r: CloudRow) => r.item.dk == dk && r.item.state.Queued? }

  function Except(p: CloudRow -> bool): CloudRow -> bool { (r: CloudRow) => !p(r) }

  function MailState(r: CloudRow, state: State): CloudRow { r.(item := r.item.(state := state)) }

  function Sends(seq_: nat): CloudRow -> CloudRow {
    (r: CloudRow) => if r.seq_ == seq_ then MailState(r, Delivering) else r
  }

  function PutsBack(): CloudRow -> CloudRow {
    (r: CloudRow) => if r.item.state.Delivering? then MailState(r, Queued) else r
  }

  /** `nonce ?? null`: an absent nonce reads null, any other value comes back as it was. */
  function CloudNonce(f: Field): Field { if f.Absent? then Null else f }

  function CloudHasRoom(t: CloudTable, dk: string, size: nat): bool {
    && |Filter(t.rows, OfKey(dk))| < MBOX_PER_DEVICE
    && |t.rows| < MBOX_PER_COMPUTER
    && Sum(t.rows, CloudSize()) + size <= MBOX_MAX_BYTES
  }

  function CloudInsert(t: CloudTable, dk: string, nonce: string, blob: seq<byte>, exp: int): CloudTable {
    CloudTable(t.rows + [CloudRow(t.last + 1, Item(dk, nonce, blob, exp, Queued))], t.last + 1)
  }

  function CloudPut(t: CloudTable, dk: string, msg: PutMsg, hostReady: bool, now: int): (CloudTable, Reply) {
    if !ValidNonce(msg.nonce) then (t, Err(CloudNonce(msg.nonce), Invalid))
    else
      var existing := First(t.rows, OfNonce(dk, msg.nonce.text));
      if existing.Some? then (t, Ok(msg.nonce.text, existing.value.item.state))
      else if hostReady then (t, Err(msg.nonce, HostOnline))
      else
        match Screen(msg, now, CLOUD_MAX_TEXT)
        case Refused(code) => (t, Err(msg.nonce, code))
        case Fits(blob, exp) =>
          if !CloudHasRoom(t, dk, |blob|) then (t, Err(msg.nonce, Full))
          else (CloudInsert(t, dk, msg.nonce.text, blob, exp), Ok(msg.nonce.text, Queued))
  }

  /** Here the row is found first and then deleted by device and nonce. */
  function CloudCancel(t: CloudTable, dk: string, field: Field): (CloudTable, Reply) {
    var nonce := CancelNonce(field);
    match First(t.rows, OfNonce(dk, nonce))
    case None => (t, Gone(nonce, None))
    case Some(row) =>
      if row.item.state.Queued? then (t.(rows := Filter(t.rows, Except(OfNonce(dk, nonce)))), Cancelled(nonce))
      else (t, Gone(nonce, Some(Delivering)))
  }

  function CloudListing(t: CloudTable, dk: string): Reply {
    Items(Map(Filter(t.rows, OfKey(dk)), (r: CloudRow) => (r.item.nonce, r.item.exp, r.item.state)))
  }

  function CloudDeliver(t: CloudTable, now: int): (CloudTable, Option<CloudRow>) {
    if First(t.rows, Moving()).Some? then (t, None)
    else
      match First(t.rows, Due(now))
      case None => (t, None)
      case Some(row) => (t.(rows := Map(t.rows, Sends(row.seq_))), Some(row))
  }

  /** Here the row is found in flight and then deleted by `seq` alone. */
  function CloudAck(t: CloudTable, number: Option<int>, outcome: Outcome): (CloudTable, Option<Note>) {
    if number.None? then (t, None)
    else
      match First(t.rows, MovingAs(number.value))
      case None => (t, None)
      case Some(row) => (t.(rows := Filter(t.rows, Except(Numbered(number.value)))), Some(Note(row.item.dk, row.item.nonce, outcome)))
  }

  function CloudExpire(t: CloudTable, now: int): (CloudTable, seq<Note>) {
    (t.(rows := Filter(t.rows, Except(PastExpiry(now)))),
     Map(Filter(t.rows, PastExpiry(now)), (r: CloudRow) => Note(r.item.dk, r.item.nonce, ExpiredItem)))
  }

  function CloudRequeue(t: CloudTable): CloudTable { t.(rows := Map(t.rows, PutsBack())) }

  /** What a block takes from the mailbox. */
  function CloudForget(t: CloudTable, dk: string): CloudTable { t.(rows := Filter(t.rows, Except(QueuedBy(dk)))) }
}
