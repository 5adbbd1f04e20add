/** The cloud relay's queue of webhook deliveries (`cloud/src/relay.ts`, "routine webhooks"): the rows and the retry back-off. */
module Hookbox {
  import opened Wrappers
  import opened Sequences
  import opened Base64Url
  import opened MailboxItems

  const HOOK_TTL_MS := 72 * 3600_000
  const HOOK_PER_HOOK := 100
  const HOOK_PER_COMPUTER := 1000
  const HOOK_MAX_BYTES := 16 * 1024 * 1024
  const HOOK_RETRY_MIN_MS := 30_000
  const HOOK_RETRY_MAX_MS := 15 * 60_000

  datatype HookRow = HookRow(seq_: nat, hook: string, delivery: string, size: nat, at: int, exp: int, state: State,
                             attempts: nat, notBefore: int)

  datatype HookTable = HookTable(rows: seq<HookRow>, last: nat)

  const NO_HOOKS := HookTable([], 0)

  function HookSeq(): HookRow -> nat { (r: HookRow) => r.seq_ }

  function HookSize(): HookRow -> nat { (r: HookRow) => r.size }

  // ---- WHERE clauses ----

  function HookKeyed(hook: string, delivery: string): HookRow -> bool { (r: HookRow) => r.hook == hook && r.delivery == delivery }

  function OfHook(hook: string): HookRow -> bool { (r: HookRow) => r.hook == hook }

  function HookInFlight(): HookRow -> bool { (r: HookRow) => r.state.Delivering? }

  function HookDue(now: int): HookRow -> bool { (r: HookRow) => r.state.Queued? && r.exp > now && r.notBefore <= now }

  function HookAcked(seq_: int): HookRow -> bool { (r: HookRow) => r.seq_ == seq_ && r.state.Delivering? }

  function HookOther(seq_: int): HookRow -> bool { (r: HookRow) => r.seq_ != seq_ }

  function HookKept(ids: set<string>): HookRow -> bool { (r: HookRow) => r.state.Delivering? || r.hook in ids }

  function HookFresh(now: int): HookRow -> bool { (r: HookRow) => r.state.Delivering? || r.exp > now }

  /** Queued and waiting out a retry. */
  function HookWaiting(now: int): HookRow -> bool { (r: HookRow) => r.state.Queued? && r.notBefore > now }

  // ---- UPDATE ... SET ----

  function HookSends(seq_: nat): HookRow -> HookRow { (r: HookRow) => if r.seq_ == seq_ then r.(state := Delivering) else r }

  function HookPutsBack(): HookRow -> HookRow { (r: HookRow) => r.(state := Queued) }

  function HookRetries(seq_: int, due: int): HookRow -> HookRow {
    (r: HookRow) => if r.seq_ == seq_ then r.(state := Queued, attempts := r.attempts + 1, notBefore := due) else r
  }

  // ---- the back-off ----

  /** How long a delivery refused after `k` earlier retries waits. */
  function Wait(k: nat): nat {
    if HOOK_RETRY_MIN_MS * Pow2(k) < HOOK_RETRY_MAX_MS then HOOK_RETRY_MIN_MS * Pow2(k) else HOOK_RETRY_MAX_MS
  }

  /** All the waits before the retry numbered `k`. */
  function Waits(k: nat): nat {
    if k == 0 then 0 else Waits(k - 1) + Wait(k - 1)
  }

  // ---- the statements of relay.ts ----

  datatype Queueing = Duplicate | HookFull | HookQueued

  function HookRoom(t: HookTable, hook: string, size: nat): bool {
    && |Filter(t.rows, OfHook(hook))| < HOOK_PER_HOOK
    && |t.rows| < HOOK_PER_COMPUTER
    && Sum(t.rows, HookSize()) + size <= HOOK_MAX_BYTES
  }

  function HookInsert(t: HookTable, hook: string, delivery: string, size: nat, now: int): HookTable {
    HookTable(t.rows + [HookRow(t.last + 1, hook, delivery, size, now, now + HOOK_TTL_MS, Queued, 0, 0)], t.last + 1)
  }

  function QueueHook(t: HookTable, hook: string, delivery: string, size: nat, now: int): (HookTable, Queueing) {
    if First(t.rows, HookKeyed(hook, delivery)).Some? then (t, Duplicate)
    else if !HookRoom(t, hook, size) then (t, HookFull)
    else (HookInsert(t, hook, delivery, size, now), HookQueued)
  }

  function OfferHook(t: HookTable, now: int): (HookTable, Option<HookRow>) {
    if First(t.rows, HookInFlight()).Some? then (t, None)
    else
      match First(t.rows, HookDue(now))
      case None => (t, None)
      case Some(row) => (t.(rows := Map(t.rows, HookSends(row.seq_))), Some(row))
  }

  /** The row a `hook.ack` is about, when it is in flight. */
  function AckedHook(t: HookTable, number: Option<int>): Option<HookRow> {
    if number.None? then None else First(t.rows, HookAcked(number.value))
  }

  function AckHook(t: HookTable, number: Option<int>, retry: bool, now: int): HookTable {
    match AckedHook(t, number)
    case None => t
    case Some(row) =>
      if retry then t.(rows := Map(t.rows, HookRetries(row.seq_, now + Wait(row.attempts))))
      else t.(rows := Filter(t.rows, HookOther(row.seq_)))
  }

  function PutHooksBack(t: HookTable): HookTable { t.(rows := Map(t.rows, HookPutsBack())) }

  function DropHooks(t: HookTable, ids: set<string>): HookTable { t.(rows := Filter(t.rows, HookKept(ids))) }

  function LapseHooks(t: HookTable, now: int): HookTable { t.(rows := Filter(t.rows, HookFresh(now))) }

  /** `MIN(not_before)` of the queued rows still waiting. */
  function NextDue(rows: seq<HookRow>, now: int): (r: Option<int>)
    ensures r.None? <==> forall i :: 0 <= i < |rows| ==> !HookWaiting(now)(rows[i])
    ensures r.Some? ==> r.value > now && forall i :: 0 <= i < |rows| && HookWaiting(now)(rows[i]) ==> r.value <= rows[i].notBefore
    ensures r.Some? ==> exists i :: 0 <= i < |rows| && HookWaiting(now)(rows[i]) && rows[i].notBefore == r.value
  {
    if rows == [] then None
    else
      var front, last := NextDue(rows[..|rows| - 1], now), rows[|rows| - 1];
      if !HookWaiting(now)(last) then front
      else if front.Some? && front.value <= last.notBefore then front else Some(last.notBefore)
  }

  // ---- arithmetic of the back-off ----

  lemma {:induction false} PowGrows(k: nat)
    ensures k >= 5 ==> Pow2(k) >= 32
    ensures Pow2(k) >= 1
  {
    if k > 0 {
      PowGrows(k - 1);
      if k == 5 {
        assert Pow2(5) == 2 * Pow2(4) && Pow2(4) == 2 * Pow2(3) && Pow2(3) == 2 * Pow2(2) && Pow2(2) == 2 * Pow2(1) && Pow2(1) == 2 * Pow2(0);
      }
    }
  }

  lemma WaitValues(k: nat)
    ensures k == 0 ==> Wait(k) == 30_000
    ensures k == 1 ==> Wait(k) == 60_000
    ensures k == 2 ==> Wait(k) == 120_000
    ensures k == 3 ==> Wait(k) == 240_000
    ensures k == 4 ==> Wait(k) == 480_000
    ensures k >= 5 ==> Wait(k) == 900_000
    ensures Wait(k) > 0
  {
    PowGrows(k);
    assert Pow2(1) == 2 && Pow2(2) == 2 * Pow2(1) && Pow2(3) == 2 * Pow2(2) && Pow2(4) == 2 * Pow2(3);
  }

  /** The waits double from half a minute up to fifteen minutes and stay there. */
  lemma {:induction false} WaitsFormula(k: nat)
    ensures k >= 5 ==> Waits(k) == 930_000 + 900_000 * (k - 5)
    ensures Waits(k) == match k case 0 => 0 case 1 => 30_000 case 2 => 90_000 case 3 => 210_000 case 4 => 450_000 case _ => 930_000 + 900_000 * (k - 5)
  {
    if k > 0 {
      WaitsFormula(k - 1);
      WaitValues(k - 1);
    }
  }

  /** 291 retries' waits fit in the 72 hours a delivery lives, 292 retries' do not. */
  lemma WaitsFitLifetime(k: nat)
    ensures Waits(k) < HOOK_TTL_MS <==> k <= 291
  {
    WaitsFormula(k);
  }

  // ---- the invariant ----

  predicate RowOk(r: HookRow, now: int) {
    && r.exp == r.at + HOOK_TTL_MS && r.at <= now
    && (if r.attempts == 0 then r.notBefore == 0 else r.notBefore >= r.at + Waits(r.attempts))
    && r.attempts <= 292
    && (r.state.Delivering? ==> r.attempts <= 291 && r.notBefore <= now)
  }

  ghost predicate RowsOk(t: HookTable, now: int) {
    forall r :: r in t.rows ==> RowOk(r, now)
  }

  ghost predicate HookOrdered(t: HookTable) {
    Serial(t.rows, HookSeq(), t.last)
  }

  ghost predicate SameHookKey(r: HookRow, q: HookRow) { r.hook == q.hook && r.delivery == q.delivery }

  /** UNIQUE(hook, delivery) */
  ghost predicate HookKeysUnique(t: HookTable) {
    forall r, q {:trigger SameHookKey(r, q)} :: r in t.rows && q in t.rows && SameHookKey(r, q) ==> r == q
  }

  ghost predicate BothSent(r: HookRow, q: HookRow) { r.state.Delivering? && q.state.Delivering? }

  ghost predicate OneHookInFlight(t: HookTable) {
    forall r, q {:trigger BothSent(r, q)} :: r in t.rows && q in t.rows && BothSent(r, q) ==> r == q
  }

  ghost predicate HookWithin(t: HookTable, hook: string) { |Filter(t.rows, OfHook(hook))| <= HOOK_PER_HOOK }

  ghost predicate HookQuotas(t: HookTable) {
    && (forall hook :: HookWithin(t, hook))
    && |t.rows| <= HOOK_PER_COMPUTER && Sum(t.rows, HookSize()) <= HOOK_MAX_BYTES
  }

  /**
   * Rows are in order and unique, at most one is in flight, the quotas hold, and each row has waited as the back-off
   * says.
   */
  ghost predicate HooksValid(t: HookTable, now: int) {
    HookOrdered(t) && HookKeysUnique(t) && OneHookInFlight(t) && HookQuotas(t) && RowsOk(t, now)
  }

  lemma HooksLater(t: HookTable, now: int, later: int)
    requires HooksValid(t, now) && now <= later
    ensures HooksValid(t, later)
  {
    forall r | r in t.rows
      ensures RowOk(r, later)
    {
      assert RowOk(r, now);
    }
  }

  lemma HookRemoval(t: HookTable, keep: HookRow -> bool, now: int)
    requires HooksValid(t, now)
    ensures HooksValid(t.(rows := Filter(t.rows, keep)), now)
  {
    var u := t.(rows := Filter(t.rows, keep));
    FilterSerial(t.rows, keep, HookSeq(), t.last);
    SumFilter(t.rows, keep, HookSize());
    forall hook
      ensures HookWithin(u, hook)
    {
      assert HookWithin(t, hook);
      FilterCommutes(t.rows, keep, OfHook(hook));
    }
  }

  predicate SameHook(r: HookRow, q: HookRow) {
    r.seq_ == q.seq_ && r.hook == q.hook && r.delivery == q.delivery && r.size == q.size && r.at == q.at && r.exp == q.exp
  }

  ghost predicate KeepsHook(f: HookRow -> HookRow) {
    forall r :: SameHook(f(r), r)
  }

  lemma HookUpdateKeys(t: HookTable, f: HookRow -> HookRow)
    requires HookKeysUnique(t) && KeepsHook(f)
    ensures HookKeysUnique(t.(rows := Map(t.rows, f)))
  {
    forall r: HookRow, q: HookRow | r in Map(t.rows, f) && q in Map(t.rows, f) && SameHookKey(r, q)
      ensures r == q
    {
      var r0 := Restated(t.rows, f, r);
      var q0 := Restated(t.rows, f, q);
      assert SameHookKey(r0, q0);
    }
  }

  lemma HookUpdateQuotas(t: HookTable, f: HookRow -> HookRow)
    requires HookQuotas(t) && KeepsHook(f)
    ensures HookQuotas(t.(rows := Map(t.rows, f)))
  {
    SumMap(t.rows, f, HookSize());
    forall hook
      ensures HookWithin(t.(rows := Map(t.rows, f)), hook)
    {
      assert HookWithin(t, hook);
      FilterMap(t.rows, f, OfHook(hook));
    }
  }

  lemma HookUpdateKeeps(t: HookTable, f: HookRow -> HookRow, now: int)
    requires HooksValid(t, now) && KeepsHook(f)
    requires forall r :: r in t.rows ==> RowOk(f(r), now)
    requires OneHookInFlight(t.(rows := Map(t.rows, f)))
    ensures HooksValid(t.(rows := Map(t.rows, f)), now)
  {
    MapSerial(t.rows, f, HookSeq(), t.last);
    HookUpdateKeys(t, f);
    HookUpdateQuotas(t, f);
    forall r | r in Map(t.rows, f)
      ensures RowOk(r, now)
    {
      var q := Restated(t.rows, f, r);
    }
  }

  lemma InsertHookQuotas(t: HookTable, hook: string, delivery: string, size: nat, now: int)
    requires HookQuotas(t) && HookRoom(t, hook, size)
    ensures HookQuotas(HookInsert(t, hook, delivery, size, now))
  {
    var u := HookInsert(t, hook, delivery, size, now);
    var row := u.rows[|t.rows|];
    SumAppend(t.rows, row, HookSize());
    forall h
      ensures HookWithin(u, h)
    {
      assert HookWithin(t, h);
      FilterAppend(t.rows, row, OfHook(h));
    }
  }

  lemma QueueHookKeeps(t: HookTable, hook: string, delivery: string, size: nat, now: int)
    requires HooksValid(t, now)
    ensures HooksValid(QueueHook(t, hook, delivery, size, now).0, now)
  {
    if QueueHook(t, hook, delivery, size, now).1.HookQueued? {
      InsertHookQuotas(t, hook, delivery, size, now);
      AppendSerial(t.rows, HookInsert(t, hook, delivery, size, now).rows[|t.rows|], HookSeq(), t.last);
      forall r | r in t.rows
        ensures !(r.hook == hook && r.delivery == delivery)
      {
        assert !HookKeyed(hook, delivery)(r);
      }
    }
  }

  /** After an offer, a row in flight is the offered one. */
  lemma OfferedInFlight(t: HookTable, now: int, r: HookRow)
    requires HookOrdered(t) && OfferHook(t, now).1.Some? && r in OfferHook(t, now).0.rows && r.state.Delivering?
    ensures r == OfferHook(t, now).1.value.(state := Delivering)
  {
    var row := OfferHook(t, now).1.value;
    var q := Restated(t.rows, HookSends(row.seq_), r);
    assert !HookInFlight()(q);
    if q.seq_ == row.seq_ {
      KeysTellApart(t.rows, HookSeq(), q, row);
    }
  }

  /**
   * What is offered was queued, has waited out its retries and has not expired, so it has been refused for retry at
   * most 291 times. `at` is the time the handler read, `now` any time since.
   */
  lemma OfferKeeps(t: HookTable, at: int, now: int)
    requires HooksValid(t, now) && at <= now
    ensures HooksValid(OfferHook(t, at).0, now)
    ensures
      var row := OfferHook(t, at).1;
      row.Some? ==> row.value in t.rows && row.value.attempts <= 291 && row.value.notBefore <= at < row.value.exp
  {
    if OfferHook(t, at).1.Some? {
      var row := OfferHook(t, at).1.value;
      assert row in t.rows && HookDue(at)(row) && RowOk(row, now);
      WaitsFitLifetime(row.attempts);
      forall r | r in t.rows
        ensures RowOk(HookSends(row.seq_)(r), now)
      {
        assert RowOk(r, now);
        if r.seq_ == row.seq_ {
          KeysTellApart(t.rows, HookSeq(), r, row);
        }
      }
      var u := OfferHook(t, at).0;
      forall r, q | r in u.rows && q in u.rows && BothSent(r, q)
        ensures r == q
      {
        OfferedInFlight(t, at, r);
        OfferedInFlight(t, at, q);
      }
      HookUpdateKeeps(t, HookSends(row.seq_), now);
    }
  }

  lemma AckHookKeeps(t: HookTable, number: Option<int>, retry: bool, now: int)
    requires HooksValid(t, now)
    ensures HooksValid(AckHook(t, number, retry, now), now)
  {
    hide HooksValid, Wait;
    if AckedHook(t, number).Some? {
      var row := AckedHook(t, number).value;
      assert row in t.rows && row.state.Delivering?;
      if retry {
        RetryKeeps(t, row, now);
      } else {
        HookRemoval(t, HookOther(row.seq_), now);
      }
    }
  }

  lemma RetryKeeps(t: HookTable, row: HookRow, now: int)
    requires HooksValid(t, now) && row in t.rows && row.state.Delivering?
    ensures HooksValid(t.(rows := Map(t.rows, HookRetries(row.seq_, now + Wait(row.attempts)))), now)
  {
    var f := HookRetries(row.seq_, now + Wait(row.attempts));
    forall r | r in t.rows
      ensures RowOk(f(r), now)
    {
      assert RowOk(r, now);
      if r.seq_ == row.seq_ {
        KeysTellApart(t.rows, HookSeq(), r, row);
        assert Waits(row.attempts + 1) == Waits(row.attempts) + Wait(row.attempts);
      }
    }
    NoneRetried(t, f);
    HookUpdateKeeps(t, f, now);
  }

  /** An update that only takes rows out of flight keeps the in-flight rule. */
  lemma NoneRetried(t: HookTable, f: HookRow -> HookRow)
    requires OneHookInFlight(t) && forall r :: r in t.rows && f(r).state.Delivering? ==> f(r) == r
    ensures OneHookInFlight(t.(rows := Map(t.rows, f)))
  {
    forall r: HookRow, q: HookRow | r in Map(t.rows, f) && q in Map(t.rows, f) && BothSent(r, q)
      ensures r == q
    {
      var r0 := Restated(t.rows, f, r);
      var q0 := Restated(t.rows, f, q);
      assert BothSent(r0, q0);
    }
  }

  lemma PutBackKeeps(t: HookTable, now: int)
    requires HooksValid(t, now)
    ensures HooksValid(PutHooksBack(t), now)
  {
    forall r | r in t.rows
      ensures RowOk(HookPutsBack()(r), now)
    {
      assert RowOk(r, now);
    }
    NoneRetried(t, HookPutsBack());
    HookUpdateKeeps(t, HookPutsBack(), now);
  }
}
