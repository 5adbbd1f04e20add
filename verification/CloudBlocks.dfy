/**
 * What a block takes from a key, over whole runs. A block means that nothing the key queued reaches the host any more
 * (the remark at `cloud/src/relay.ts:241`). Two things still do: the item in flight, which goes back to the queue when
 * the host leaves, and what the key's sockets put after the block, for a socket being closed is still heard.
 */
module CloudBlocks {
  import opened Sequences
  import opened MailboxItems
  import opened CloudMailbox
  import opened CloudState
  import opened CloudInvariants
  import opened CloudInFlight
  import opened CloudMail
  import opened CloudRuns

  /** The events can happen one after the other, and the key is blocked all the while. */
  ghost predicate WhileBlocked(s: Cloud, es: seq<Event>, dk: string) {
    dk in From(s, es).blocked
    && (es == [] || (WhileBlocked(s, es[..|es| - 1], dk) && Possible(From(s, es[..|es| - 1]), es[|es| - 1])))
  }

  /** The event sends a host an item of the key. */
  predicate SendsOf(s: Cloud, e: Event, dk: string) {
    Possible(s, e) && Sent(s, e).Some? && Sent(s, e).value.item.dk == dk
  }

  // ---- the two ways ----

  /** The event numbered `n` put the row, on a socket that could at first. */
  ghost predicate PutSince(s: Cloud, es: seq<Event>, n: nat, r: CloudRow) {
    n < |es| && Puts(From(s, es[..n]), es[n], r) && es[n].i < |s.socks| && CanPut(s.socks[es[n].i], r.item.dk)
  }

  lemma {:induction false} BlockedMail(s: Cloud, entries: seq<BlockEntry>, r: CloudRow)
    ensures r in BlockKeys(s, entries).mailbox.rows <==> r in s.mailbox.rows && (r.item.state.Delivering? || !Named(entries, r.item.dk))
    decreases |entries|
  {
    hide IsKey, Named;
    if entries == [] {
      NamedNone(r.item.dk);
    } else {
      var front, e := entries[..|entries| - 1], entries[|entries| - 1];
      BlockedMail(s, front, r);
      NamedLast(front, e, r.item.dk);
      assert front + [e] == entries;
    }
  }

  /** While the key is blocked no socket is let in that could put its mail. */
  lemma NextLetsNoneIn(s: Cloud, e: Event, dk: string, i: nat)
    requires Possible(s, e) && dk in s.blocked && i < |Next(s, e).socks| && CanPut(Next(s, e).socks[i], dk)
    ensures i < |s.socks| && CanPut(s.socks[i], dk)
  {
    hide Next, AcceptDevice, Filter;
    if e.DeviceConnects? {
      NextConnects(s, e);
      DeviceAdded(s, e.dk, e.offer);
    } else {
      NextAddsNone(s, e);
      assert i < |s.socks| ==> StaysWithin(s.socks[i], Next(s, e).socks[i]);
    }
  }

  lemma {:induction false} NoneLetIn(s: Cloud, es: seq<Event>, dk: string, i: nat)
    requires WhileBlocked(s, es, dk) && i < |From(s, es).socks| && CanPut(From(s, es).socks[i], dk)
    ensures i < |s.socks| && CanPut(s.socks[i], dk)
  {
    hide Next, CanPut;
    if es != [] {
      var front := es[..|es| - 1];
      NextLetsNoneIn(From(s, front), es[|es| - 1], dk, i);
      NoneLetIn(s, front, dk, i);
    }
  }

  /** A key's rows after some events were there at first, or have been put since by sockets that were there at first. */
  ghost predicate Traced(s: Cloud, es: seq<Event>, r: CloudRow) {
    || Held(s.mailbox, r)
    || exists n: nat :: PutSince(s, es, n, MailState(r, Queued))
  }

  lemma TracedLonger(s: Cloud, es: seq<Event>, e: Event, q: CloudRow, r: CloudRow)
    requires Traced(s, es, q) && ButState(r, q)
    ensures Traced(s, es + [e], r)
  {
    hide From, CanPut, Puts;
    if Held(s.mailbox, q) {
      var p :| p in s.mailbox.rows && ButState(q, p);
      assert ButState(r, p);
    } else {
      var n: nat :| PutSince(s, es, n, MailState(q, Queued));
      assert (es + [e])[..n] == es[..n] && MailState(r, Queued) == MailState(q, Queued);
      assert PutSince(s, es + [e], n, MailState(r, Queued));
    }
  }

  lemma {:induction false} RowsTraced(s: Cloud, es: seq<Event>, dk: string, r: CloudRow)
    requires RunInv(s) && FeasibleFrom(s, es) && WhileBlocked(s, es, dk) && r in From(s, es).mailbox.rows && r.item.dk == dk
    ensures Traced(s, es, r)
  {
    hide RunInv, Next, Traced, Puts, Held;
    if es == [] {
      HeldItself(s.mailbox, r);
      TracedAtFirst(s, es, r);
    } else {
      var front, e := es[..|es| - 1], es[|es| - 1];
      var t := From(s, front);
      RunKeeps(s, front);
      RunOrdered(t);
      HeldOrNew(t, e, r);
      assert es == front + [e];
      if Held(t.mailbox, r) {
        var q := HeldRow(t.mailbox, r);
        RowsTraced(s, front, dk, q);
        TracedLonger(s, front, e, q, r);
      } else {
        PutNow(s, front, e, dk, r);
      }
    }
  }

  lemma HeldRow(t: CloudTable, r: CloudRow) returns (q: CloudRow)
    requires Held(t, r)
    ensures q in t.rows && ButState(r, q)
  {
    q :| q in t.rows && ButState(r, q);
  }

  lemma TracedAtFirst(s: Cloud, es: seq<Event>, r: CloudRow)
    requires Held(s.mailbox, r)
    ensures Traced(s, es, r)
  {
  }

  lemma PutNow(s: Cloud, es: seq<Event>, e: Event, dk: string, r: CloudRow)
    requires WhileBlocked(s, es, dk) && Puts(From(s, es), e, r) && r.item.dk == dk
    ensures Traced(s, es + [e], r)
  {
    hide Next, CanPut;
    NoneLetIn(s, es, dk, e.i);
    assert (es + [e])[..|es|] == es && MailState(r, Queued) == r;
    assert PutSince(s, es + [e], |es|, MailState(r, Queued));
  }

  lemma {:induction false} BlockedRunHappens(s: Cloud, es: seq<Event>, dk: string)
    requires WhileBlocked(s, es, dk)
    ensures FeasibleFrom(s, es) && From(s, es).now >= s.now
  {
    hide Next, Possible;
    if es != [] {
      BlockedRunHappens(s, es[..|es| - 1], dk);
      ClockRuns(From(s, es[..|es| - 1]), es[|es| - 1]);
    }
  }

  lemma BlockedState(s: Cloud, entries: seq<BlockEntry>, dk: string)
    requires Named(entries, dk)
    ensures
      var b := Block(s, entries);
      && dk in b.blocked && b.now == s.now && b.owner == s.owner && |b.socks| == |s.socks|
      && (forall i :: 0 <= i < |s.socks| ==> (CanPut(b.socks[i], dk) <==> CanPut(s.socks[i], dk)))
      && (forall r :: r in b.mailbox.rows && r.item.dk == dk <==> r in s.mailbox.rows && r.item.dk == dk && r.item.state.Delivering?)
  {
    hide BlockKeys, Named;
    var b := Block(s, entries);
    BlockedKeys(s, entries, dk);
    forall r
      ensures r in b.mailbox.rows && r.item.dk == dk <==> r in s.mailbox.rows && r.item.dk == dk && r.item.state.Delivering?
    {
      BlockedMail(s, entries, r);
    }
  }

  lemma BlockReachable(s: Cloud, entries: seq<BlockEntry>)
    requires Reachable(s)
    ensures Reachable(Block(s, entries))
  {
    hide Reachable, Block;
    OneMore(s, [], Blocks(entries));
    ReachableOn(s, [] + [Blocks(entries)]);
  }

  lemma PutByOneAtBlock(s: Cloud, entries: seq<BlockEntry>, es: seq<Event>, n: nat, r: CloudRow, dk: string)
    requires Named(entries, dk) && PutSince(Block(s, entries), es, n, r) && r.item.dk == dk
    ensures CanPut(s.socks[es[n].i], dk)
  {
    hide Block, Named, From, CanPut, Next;
    BlockedState(s, entries, dk);
  }

  /**
   * Whatever happens after a block: an item of a named key that is sent to a host while the key stays blocked was in
   * flight at the block, or was put since by a socket that could at the block.
   */
  lemma SentAfterBlock(s: Cloud, entries: seq<BlockEntry>, more: seq<Event>, e: Event, dk: string)
    requires Reachable(s) && Named(entries, dk)
    requires WhileBlocked(Block(s, entries), more, dk) && SendsOf(From(Block(s, entries), more), e, dk)
    ensures
      var r := Sent(From(Block(s, entries), more), e).value;
      && r.item.exp > s.now
      && (MailState(r, Delivering) in s.mailbox.rows
          || exists n: nat :: PutSince(Block(s, entries), more, n, r) && CanPut(s.socks[more[n].i], dk))
  {
    hide Reachable, RunInv, Block, Named, Sent, Puts, CanPut, WhileBlocked;
    var b := Block(s, entries);
    var t := From(b, more);
    BlockedState(s, entries, dk);
    BlockReachable(s, entries);
    ReachableRun(b);
    BlockedRunHappens(b, more, dk);
    SentGoesInFlight(t, e);
    var r := Sent(t, e).value;
    RowsTraced(b, more, dk, r);
    assert MailState(r, Queued) == r;
    if Held(b.mailbox, r) {
      var q := HeldRow(b.mailbox, r);
      assert MailState(r, Delivering) == q;
    } else {
      var n: nat :| PutSince(b, more, n, r);
      PutByOneAtBlock(s, entries, more, n, r, dk);
    }
  }
}
