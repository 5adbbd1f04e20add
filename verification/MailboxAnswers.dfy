/** What the private relay's mailbox answers a device, and what each answer means for the table. */
module MailboxAnswers {
  import opened Wrappers
  import opened Sequences
  import opened Base64Url
  import opened MailboxItems
  import opened MailboxTable

  /** A nonce of 1 to 128 letters. */
  predicate GoodNonce(f: Field) { f.Text? && 0 < |f.text| && |f.text| <= 128 }

  /** The table holds no item of the device under the nonce. */
  predicate Unheld(t: Table, c: string, dk: string, nonce: string) {
    forall r :: r in t.rows && r.computer == c && r.item.dk == dk ==> r.item.nonce != nonce
  }

  /** The text is the encoding of the bytes, and there are at least 112 and at most 65536 of them. */
  predicate Carries(d: Field, blob: seq<byte>) { d == Text(Encode(blob)) && 112 <= |blob| <= 65536 }

  /** The expiry asked for, within a day from now; a day when none is asked for. */
  predicate Until(f: Field, now: int, exp: int) {
    if f.Absent? then exp == now + 86_400_000
    else f == Whole(exp) && now < exp <= now + 86_400_000 && -0x1F_FFFF_FFFF_FFFF <= exp <= 0x1F_FFFF_FFFF_FFFF
  }

  /** 50 items a device, 500 a computer and 8 MiB a computer are not exceeded by one more of the size. */
  predicate Roomy(t: Table, c: string, dk: string, size: nat) {
    && |Filter(t.rows, (r: Row) => r.computer == c && r.item.dk == dk)| + 1 <= 50
    && |Filter(t.rows, (r: Row) => r.computer == c)| + 1 <= 500
    && Sum(Filter(t.rows, (r: Row) => r.computer == c), (r: Row) => |r.item.blob|) + size <= 8 * 1024 * 1024
  }

  lemma HasRoomIsRoomy(t: Table, c: string, dk: string, size: nat)
    ensures HasRoom(t, c, dk, size) <==> Roomy(t, c, dk, size)
  {
    FilterSame(t.rows, OfDevice(c, dk), (r: Row) => r.computer == c && r.item.dk == dk);
    FilterSame(t.rows, OfComputer(c), (r: Row) => r.computer == c);
    SumSame(Filter(t.rows, OfComputer(c)), SizeOf(), (r: Row) => |r.item.blob|);
  }

  lemma ScreenFits(msg: PutMsg, now: int, blob: seq<byte>, exp: int)
    ensures Screen(msg, now, PRIVATE_MAX_TEXT) == Fits(blob, exp) <==> Carries(msg.d, blob) && Until(msg.exp, now, exp)
  {
    if msg.d.Text? {
      DecodesExactlyEncodings(msg.d.text, blob);
      if Decode(msg.d.text, None) == Some(blob) {
        LengthChecks(msg.d.text, blob);
      }
    }
  }

  /** Everything about the put but the room for it is in order. */
  predicate InOrder(t: Table, c: string, dk: string, msg: PutMsg, hostReady: bool, now: int, blob: seq<byte>, exp: int) {
    && GoodNonce(msg.nonce) && Unheld(t, c, dk, msg.nonce.text) && !hostReady
    && Carries(msg.d, blob) && Until(msg.exp, now, exp)
  }

  lemma UnheldMeans(t: Table, c: string, dk: string, nonce: string)
    ensures First(t.rows, Keyed(c, dk, nonce)).None? <==> Unheld(t, c, dk, nonce)
  {
    var found := First(t.rows, Keyed(c, dk, nonce));
    if found.None? {
      forall r | r in t.rows && r.computer == c && r.item.dk == dk
        ensures r.item.nonce != nonce
      {
        assert !Keyed(c, dk, nonce)(r);
      }
    }
  }

  /**
   * A put is accepted exactly when its nonce is good and new, no host is ready, its text encodes a blob of the right
   * size, its expiry is within a day, and the quotas allow one more; the item then is the newest of the table, queued.
   */
  lemma PutAcceptsExactly(t: Table, c: string, dk: string, msg: PutMsg, hostReady: bool, now: int, blob: seq<byte>, exp: int)
    ensures
      var (u, reply) := Put(t, c, dk, msg, hostReady, now);
      && (InOrder(t, c, dk, msg, hostReady, now, blob, exp) && Roomy(t, c, dk, |blob|) ==>
            msg.nonce.Text?
            && u == Table(t.rows + [Row(t.last + 1, c, Item(dk, msg.nonce.text, blob, exp, Queued))], t.last + 1)
            && reply == Ok(msg.nonce.text, Queued))
      && (InOrder(t, c, dk, msg, hostReady, now, blob, exp) && !Roomy(t, c, dk, |blob|) ==> u == t && reply == Err(msg.nonce, Full))
  {
    hide Screen, Encode, HasRoom, Roomy, First, Carries, Until;
    ScreenFits(msg, now, blob, exp);
    HasRoomIsRoomy(t, c, dk, |blob|);
    if msg.nonce.Text? {
      UnheldMeans(t, c, dk, msg.nonce.text);
    }
  }

  /** The item an accepted put adds was in order, and there was room for it. */
  lemma PutInOrder(t: Table, c: string, dk: string, msg: PutMsg, hostReady: bool, now: int)
    requires Put(t, c, dk, msg, hostReady, now).0 != t
    ensures
      var u := Put(t, c, dk, msg, hostReady, now).0;
      && |u.rows| == |t.rows| + 1 && u.rows[..|t.rows|] == t.rows
      && var row := u.rows[|t.rows|];
      && InOrder(t, c, dk, msg, hostReady, now, row.item.blob, row.item.exp) && Roomy(t, c, dk, |row.item.blob|)
      && row == Row(t.last + 1, c, Item(dk, msg.nonce.text, row.item.blob, row.item.exp, Queued))
  {
    hide Screen, Encode, HasRoom, Roomy, First, Carries, Until;
    var screened := Screen(msg, now, PRIVATE_MAX_TEXT);
    ScreenFits(msg, now, screened.blob, screened.exp);
    HasRoomIsRoomy(t, c, dk, |screened.blob|);
    UnheldMeans(t, c, dk, msg.nonce.text);
  }

  /** More letters, or more bytes, than a blob may have. */
  ghost predicate TooLong(d: Field) {
    d.Text? && (|d.text| > 87_390 || exists b :: d.text == Encode(b) && |b| > 65536)
  }

  lemma ScreenRefuses(msg: PutMsg, now: int)
    requires forall b, e :: !(Carries(msg.d, b) && Until(msg.exp, now, e))
    ensures Screen(msg, now, PRIVATE_MAX_TEXT) == Refused(if TooLong(msg.d) then TooLarge else Invalid)
  {
    hide Decode, Encode, Carries, Until;
    if msg.d.Text? {
      forall b
        ensures Decode(msg.d.text, None) == Some(b) <==> msg.d.text == Encode(b)
      {
        DecodesExactlyEncodings(msg.d.text, b);
      }
    }
    var screened := Screen(msg, now, PRIVATE_MAX_TEXT);
    if screened.Fits? {
      ScreenFits(msg, now, screened.blob, screened.exp);
    }
  }

  /**
   * A put that is not accepted leaves the table as it was. A bad nonce is invalid; a repeated one is answered with the
   * state of the item it names; with a ready host the item is not taken; and then the blob or the expiry is at fault.
   */
  lemma PutRefusesExactly(t: Table, c: string, dk: string, msg: PutMsg, hostReady: bool, now: int)
    ensures
      var answer := Put(t, c, dk, msg, hostReady, now);
      && (!GoodNonce(msg.nonce) ==> answer == (t, Err(if msg.nonce.Text? then msg.nonce else Null, Invalid)))
      && (GoodNonce(msg.nonce) && !Unheld(t, c, dk, msg.nonce.text) ==>
            exists r :: r in t.rows && Keyed(c, dk, msg.nonce.text)(r) && answer == (t, Ok(msg.nonce.text, r.item.state)))
      && (GoodNonce(msg.nonce) && Unheld(t, c, dk, msg.nonce.text) && hostReady ==> answer == (t, Err(msg.nonce, HostOnline)))
      && (GoodNonce(msg.nonce) && Unheld(t, c, dk, msg.nonce.text) && !hostReady
          && (forall b, e :: !(Carries(msg.d, b) && Until(msg.exp, now, e))) ==>
            answer == (t, Err(msg.nonce, if TooLong(msg.d) then TooLarge else Invalid)))
  {
    hide Screen, HasRoom, First, Carries, Until, Unheld;
    if msg.nonce.Text? {
      UnheldMeans(t, c, dk, msg.nonce.text);
    }
    if forall b, e :: !(Carries(msg.d, b) && Until(msg.exp, now, e)) {
      ScreenRefuses(msg, now);
    }
  }

  /**
   * A cancel takes out exactly the device's own queued item under the nonce; one in flight, or none, is reported gone.
   */
  lemma CancelTakesExactly(t: Table, c: string, dk: string, nonce: string)
    requires KeysUnique(t)
    ensures
      var (u, reply) := Cancel(t, c, dk, Text(nonce));
      && (Unheld(t, c, dk, nonce) ==> u == t && reply == Gone(nonce, None))
      && (forall r :: r in t.rows && Keyed(c, dk, nonce)(r) ==>
            if r.item.state.Queued? then
              reply == Cancelled(nonce) && u.last == t.last && forall q :: q in u.rows <==> q in t.rows && q != r
            else u == t && reply == Gone(nonce, Some(Delivering)))
  {
    UnheldMeans(t, c, dk, nonce);
    var found := First(t.rows, Keyed(c, dk, nonce));
    forall r | r in t.rows && Keyed(c, dk, nonce)(r)
      ensures found == Some(r)
    {
      assert SameKey(found.value, r);
    }
  }

  /** The list a device gets has one entry for each of its items, in the order they were put. */
  lemma ListsExactly(t: Table, c: string, dk: string)
    ensures
      var reply := Listing(t, c, dk);
      var mine := Filter(t.rows, (r: Row) => r.computer == c && r.item.dk == dk);
      && reply.Items? && |reply.items| == |mine|
      && forall i :: 0 <= i < |mine| ==> reply.items[i] == (mine[i].item.nonce, mine[i].item.exp, mine[i].item.state)
  {
    FilterSame(t.rows, OfDevice(c, dk), (r: Row) => r.computer == c && r.item.dk == dk);
  }
}
