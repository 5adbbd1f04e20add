/** What both relays' mailboxes share: the items, the messages about them and the checks on a put. */
module MailboxItems {
  import opened Wrappers
  import opened Base64Url

  const MBOX_PER_DEVICE := 50
  const MBOX_PER_COMPUTER := 500
  const MBOX_MAX_BYTES := 8 * 1024 * 1024
  const MBOX_TTL_MS := 24 * 3600_000
  const MBOX_MIN_BLOB := 32 + 64 + 16
  const MAX_NONCE := 128
  const MAX_SAFE_INTEGER := 0x1F_FFFF_FFFF_FFFF

  datatype State = Queued | Delivering

  datatype Item = Item(dk: string, nonce: string, blob: seq<byte>, exp: int, state: State)

  /** A field of a parsed JSON message. `Other` is every value the relays only tell apart from the rest. */
  datatype Field = Absent | Null | Text(text: string) | Whole(n: int) | Other

  datatype PutMsg = PutMsg(nonce: Field, d: Field, exp: Field)

  datatype Code = Invalid | HostOnline | TooLarge | Full | Pairing

  /** The relay's answer to a device. `Gone` carries `Some(Delivering)` or, for "unknown", `None`. */
  datatype Reply =
    | Err(errNonce: Field, code: Code)
    | Ok(nonce: string, state: State)
    | Cancelled(nonce: string)
    | Gone(nonce: string, held: Option<State>)
    | Items(items: seq<(string, int, State)>)

  /** What a device hears about an item that left its mailbox. */
  datatype Outcome = Delivered | Failed(code: string) | ExpiredItem

  datatype Note = Note(dk: string, nonce: string, outcome: Outcome)

  datatype Screened = Refused(code: Code) | Fits(blob: seq<byte>, exp: int)

  predicate ValidNonce(f: Field) {
    f.Text? && 0 < |f.text| <= MAX_NONCE
  }

  predicate SafeInteger(n: int) {
    -MAX_SAFE_INTEGER <= n <= MAX_SAFE_INTEGER
  }

  function Expiry(f: Field, now: int): Option<int> {
    match f
    case Absent => Some(now + MBOX_TTL_MS)
    case Whole(n) => if SafeInteger(n) && now < n <= now + MBOX_TTL_MS then Some(n) else None
    case _ => None
  }

  function Blob(d: Field): Option<seq<byte>> {
    if d.Text? then Decode(d.text, None) else None
  }

  /** The checks on a put's blob and expiry. Only `maxText` differs between the relays. */
  function Screen(msg: PutMsg, now: int, maxText: nat): (r: Screened)
    ensures r.Fits? ==> MBOX_MIN_BLOB <= |r.blob| <= MAX_BLOB
  {
    if msg.d.Text? && |msg.d.text| > maxText then Refused(TooLarge)
    else
      match Blob(msg.d)
      case None => Refused(Invalid)
      case Some(blob) =>
        if |blob| < MBOX_MIN_BLOB then Refused(Invalid)
        else if |blob| > MAX_BLOB then Refused(TooLarge)
        else
          match Expiry(msg.exp, now)
          case None => Refused(Invalid)
          case Some(exp) => Fits(blob, exp)
  }

  function CancelNonce(f: Field): string {
    if f.Text? then f.text else ""
  }

  /** What an acknowledgement's `ok` and `code` mean for the item: any code but the three known reads as invalid. */
  function AckOutcome(ok: bool, code: Field): Outcome {
    if ok then Delivered
    else if code == Text("unauthorized") || code == Text("unknownBot") then Failed(code.text)
    else Failed("invalid")
  }

  /** The outcome a device is told: delivered exactly when the host said so, and else one of three codes. */
  predicate Tells(outcome: Outcome, ok: bool, code: Field) {
    if ok then outcome.Delivered?
    else
      && outcome.Failed?
      && (code.Text? && code.text in ["unauthorized", "unknownBot", "invalid"] ==> outcome.code == code.text)
      && (!(code.Text? && code.text in ["unauthorized", "unknownBot", "invalid"]) ==> outcome.code == "invalid")
  }

  lemma OutcomeTells(ok: bool, code: Field)
    ensures Tells(AckOutcome(ok, code), ok, code)
  {
  }

  /** A text only one relay refuses for its length: malformed, and a few letters over the cloud's limit. */
  predicate MalformedBand(d: Field) {
    d.Text? && CLOUD_MAX_TEXT < |d.text| <= PRIVATE_MAX_TEXT && Decode(d.text, None).None?
  }

  /** The two length limits screen alike exactly outside that band. */
  lemma ScreensAgree(msg: PutMsg, now: int)
    ensures Screen(msg, now, CLOUD_MAX_TEXT) == Screen(msg, now, PRIVATE_MAX_TEXT) <==> !MalformedBand(msg.d)
    ensures Screen(msg, now, CLOUD_MAX_TEXT).Fits? <==> Screen(msg, now, PRIVATE_MAX_TEXT).Fits?
  {
    if msg.d.Text? && Decode(msg.d.text, None).Some? {
      LengthChecks(msg.d.text, Decode(msg.d.text, None).value);
    }
  }
}
