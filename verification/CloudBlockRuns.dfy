/** The two ways mail of a blocked key reaches a host, as runs of events from a new computer. */
module CloudBlockRuns {
  import opened Wrappers
  import opened Sequences
  import opened Base64Url
  import opened Acls
  import opened MailboxItems
  import opened CloudMailbox
  import opened Hookbox
  import opened CloudState
  import opened CloudRuns
  import opened CloudBlocks
  import opened CloudBlockCases

  function ExampleKey(): string { Encode(seq(32, i => 0)) }

  function ExampleList(): Acl { Acl("c", 1, [Grant(ExampleKey(), None)], []) }

  /** A host connects and lists a key, and a device of the key connects. */
  function DeviceIsIn(): seq<Event> {
    [HostConnects("k", "c"), AclChecked(0, Some(ExampleList())), DeviceConnects(ExampleKey(), "")]
  }

  function ExampleBlock(): Event { Blocks([BlockEntry(Text(ExampleKey()), Null)]) }

  /** The item is put, sent to the host, and the key blocked; then the next host is ready. */
  function InFlightRun(): seq<Event> {
    DeviceIsIn() + [SaysPut(1), SaysReady(0), ExampleBlock(), HostConnects("k", "c"), SaysReady(2)]
  }

  /** The key is blocked; then the socket being closed puts an item, and the host is ready. */
  function ClosingRun(): seq<Event> {
    DeviceIsIn() + [ExampleBlock(), SaysPut(1), SaysReady(0)]
  }

  function ExampleHost(ready: bool, retired: Option<int>): Sock { Sock(AsHost("k", ready), 0, true, false, retired) }

  function ExampleDevice(closing: bool): Sock { Sock(AsDevice(ExampleKey(), false, "", 0), 0, true, closing, None) }

  function ExampleRow(state: State): CloudRow { CloudRow(1, Item(ExampleKey(), "n", SmallestBlob(), MBOX_TTL_MS, state)) }

  function ExampleState(socks: seq<Sock>, rows: seq<CloudRow>, blocked: bool, lastSeenAt: Option<int>): Cloud {
    Cloud(0, Some(("k", "c")), Some(ExampleList()), if blocked then map[ExampleKey() := None] else map[], socks,
          CloudTable(rows, if rows == [] then 0 else 1), NO_HOOKS, Some(ALARM_MS), None, lastSeenAt, [])
  }

  lemma HostIsIn()
    ensures
      Next(NewComputer(0), HostConnects("k", "c"))
      == NewComputer(0).(owner := Some(("k", "c")), socks := [ExampleHost(false, None)], alarm := Some(ALARM_MS))
  {
  }

  lemma ListIsIn()
    ensures
      var s := NewComputer(0).(owner := Some(("k", "c")), socks := [ExampleHost(false, None)], alarm := Some(ALARM_MS));
      Next(s, AclChecked(0, Some(ExampleList()))) == ExampleState([ExampleHost(false, None)], [], false, None)
  {
    hide Encode;
  }

  lemma DeviceIsNext()
    ensures
      Next(ExampleState([ExampleHost(false, None)], [], false, None), DeviceConnects(ExampleKey(), ""))
      == ExampleState([ExampleHost(false, None), ExampleDevice(false)], [], false, None)
  {
    hide Encode;
    var s := ExampleState([ExampleHost(false, None)], [], false, None);
    assert s.acl.value.devices[0] in s.acl.value.devices;
  }

  lemma DeviceIsInRun()
    ensures Feasible(0, DeviceIsIn()) && After(0, DeviceIsIn()) == ExampleState([ExampleHost(false, None), ExampleDevice(false)], [], false, None)
  {
    hide Encode, Next, From, FeasibleFrom, ExampleState;
    var s := NewComputer(0);
    var e, f, g := HostConnects("k", "c"), AclChecked(0, Some(ExampleList())), DeviceConnects(ExampleKey(), "");
    HostIsIn();
    ListIsIn();
    DeviceIsNext();
    NothingYet(0);
    NothingFeasible(s);
    OneMore(s, [], e);
    OneMore(s, [e], f);
    OneMore(s, [e, f], g);
    assert [e] + [f] == [e, f] && [e, f] + [g] == DeviceIsIn() && [] + [e] == [e];
  }

  lemma NothingFeasible(s: Cloud)
    ensures FeasibleFrom(s, [])
  {
  }

  lemma ExampleKeyIsKey()
    ensures IsKey(Text(ExampleKey()))
  {
    hide Decode, Encode;
    var zeros := seq(32, i => 0);
    DecodesToLength(ExampleKey(), 32, zeros);
  }

  /** The block closes the device, and leaves only what is in flight. */
  lemma ExampleBlocks(host: Sock, rows: seq<CloudRow>, lastSeenAt: Option<int>)
    requires host.role.AsHost? && (rows == [] || rows == [ExampleRow(Delivering)])
    ensures
      Next(ExampleState([host, ExampleDevice(false)], rows, false, lastSeenAt), ExampleBlock())
      == ExampleState([host, ExampleDevice(true)], rows, true, lastSeenAt)
  {
    hide Decode, Encode, SmallestBlob;
    ExampleKeyIsKey();
    var s := ExampleState([host, ExampleDevice(false)], rows, false, lastSeenAt);
    var entry := BlockEntry(Text(ExampleKey()), Null);
    assert [entry][..0] == [];
    assert [entry][0] == entry;
    assert Filter(rows, Except(QueuedBy(ExampleKey()))) == rows;
    assert Named([entry], ExampleKey());
    assert Next(s, ExampleBlock()).socks == [host, ExampleDevice(true)];
  }

  lemma ExamplePuts(closing: bool)
    ensures
      var socks := [ExampleHost(false, None), ExampleDevice(closing)];
      Next(ExampleState(socks, [], closing, None), SaysPut(1)) == ExampleState(socks, [ExampleRow(Queued)], closing, None)
  {
    hide SmallestBlob, Encode, Next;
    PutIsHeld(ExampleState([ExampleHost(false, None), ExampleDevice(closing)], [], closing, None), 1, ExampleKey());
  }

  lemma ExampleSends(socks: seq<Sock>, h: nat, blocked: bool, lastSeenAt: Option<int>)
    requires h < |socks| && socks[h] == ExampleHost(false, None)
    ensures
      var s := ExampleState(socks, [ExampleRow(Queued)], blocked, lastSeenAt);
      && SendsOf(s, SaysReady(h), ExampleKey())
      && Next(s, SaysReady(h))
         == ExampleState(socks[h := ExampleHost(true, None)], [ExampleRow(Delivering)], blocked, Some(0))
  {
    hide SmallestBlob, Encode;
    var s := ExampleState(socks, [ExampleRow(Queued)], blocked, lastSeenAt);
    OnlyRowIsSent(ExampleRow(Queued), 1, 0);
    assert Map(s.mailbox.rows, Sends(1)) == [ExampleRow(Delivering)];
  }

  lemma ExampleReplaced()
    ensures
      Next(ExampleState([ExampleHost(true, None), ExampleDevice(true)], [ExampleRow(Delivering)], true, Some(0)), HostConnects("k", "c"))
      == ExampleState([ExampleHost(false, Some(0)), ExampleDevice(true), ExampleHost(false, None)], [ExampleRow(Queued)], true, Some(0))
  {
    hide SmallestBlob, Encode;
    var s := ExampleState([ExampleHost(true, None), ExampleDevice(true)], [ExampleRow(Delivering)], true, Some(0));
    assert CloudRequeue(s.mailbox).rows == [ExampleRow(Queued)];
    assert RetireHosts(s, 0) == s;
    assert RetireHosts(s, 1) == Retire(s, 0, 0);
    assert RetireHosts(s, 2) == RetireHosts(s, 1);
  }

  lemma ExamplePossible(socks: seq<Sock>, rows: seq<CloudRow>, blocked: bool, lastSeenAt: Option<int>)
    requires |socks| >= 2 && (forall i :: 0 <= i < |socks| ==> socks[i].listed)
    ensures
      var s := ExampleState(socks, rows, blocked, lastSeenAt);
      && Possible(s, SaysPut(1)) && Possible(s, ExampleBlock()) && Possible(s, HostConnects("k", "c"))
      && (forall h: nat :: h < |socks| ==> Possible(s, SaysReady(h)))
      && s.mailbox.rows == rows && (blocked ==> ExampleKey() in s.blocked)
  {
  }

  lemma ExampleListed(ready: bool, retired: Option<int>, closing: bool)
    ensures ExampleHost(ready, retired).listed && ExampleHost(ready, retired).role.AsHost? && ExampleDevice(closing).listed
  {
  }

  /** The socket being closed is still heard: with nothing queued at the block, an item of the key is sent after it. */
  lemma ClosingSocketCase()
    ensures
      var run, dk := ClosingRun(), ExampleKey();
      && Feasible(0, run) && run[3] == ExampleBlock()
      && After(0, run[..3]).mailbox.rows == [] && dk in After(0, run[..5]).blocked
      && SendsOf(After(0, run[..5]), run[5], dk)
  {
    hide Next, Possible, From, FeasibleFrom, SendsOf, ExampleState, ExampleHost, ExampleDevice, ExampleRow, ExampleKey, SmallestPut;
    var run, s := ClosingRun(), NewComputer(0);
    var host, device, closed := ExampleHost(false, None), ExampleDevice(false), ExampleDevice(true);
    ExampleListed(false, None, false);
    ExampleListed(false, None, true);
    DeviceIsInRun();
    ExampleBlocks(host, [], None);
    ExamplePuts(true);
    ExampleSends([host, closed], 0, true, None);
    ExamplePossible([host, device], [], false, None);
    ExamplePossible([host, closed], [], true, None);
    ExamplePossible([host, closed], [ExampleRow(Queued)], true, None);
    assert run[..3] == DeviceIsIn() && run[..4] == run[..3] + [ExampleBlock()];
    assert run[..5] == run[..4] + [SaysPut(1)] && run == run[..5] + [SaysReady(0)];
    OneMore(s, run[..3], ExampleBlock());
    OneMore(s, run[..4], SaysPut(1));
    OneMore(s, run[..5], SaysReady(0));
  }

  /** The item in flight at the block goes back to the queue when the host is replaced, and is sent to the next. */
  lemma InFlightCase()
    ensures
      var run, dk := InFlightRun(), ExampleKey();
      && Feasible(0, run) && run[5] == ExampleBlock()
      && dk in After(0, run[..7]).blocked && SendsOf(After(0, run[..7]), run[7], dk)
  {
    hide Next, Possible, From, FeasibleFrom, SendsOf, ExampleState, ExampleHost, ExampleDevice, ExampleRow, ExampleKey, SmallestPut;
    var run, s := InFlightRun(), NewComputer(0);
    var host, ready, retired := ExampleHost(false, None), ExampleHost(true, None), ExampleHost(false, Some(0));
    var device, closed := ExampleDevice(false), ExampleDevice(true);
    ExampleListed(false, None, false);
    ExampleListed(true, None, true);
    ExampleListed(false, Some(0), true);
    DeviceIsInRun();
    ExamplePuts(false);
    ExampleSends([host, device], 0, false, None);
    ExampleBlocks(ready, [ExampleRow(Delivering)], Some(0));
    ExampleReplaced();
    ExampleSends([retired, closed, host], 2, true, Some(0));
    ExamplePossible([host, device], [], false, None);
    ExamplePossible([host, device], [ExampleRow(Queued)], false, None);
    ExamplePossible([ready, device], [ExampleRow(Delivering)], false, Some(0));
    ExamplePossible([ready, closed], [ExampleRow(Delivering)], true, Some(0));
    ExamplePossible([retired, closed, host], [ExampleRow(Queued)], true, Some(0));
    assert [host, device][0 := ready] == [ready, device];
    assert run[..3] == DeviceIsIn() && run[..4] == run[..3] + [SaysPut(1)] && run[..5] == run[..4] + [SaysReady(0)];
    assert run[..6] == run[..5] + [ExampleBlock()] && run[..7] == run[..6] + [HostConnects("k", "c")] && run == run[..7] + [SaysReady(2)];
    OneMore(s, run[..3], SaysPut(1));
    OneMore(s, run[..4], SaysReady(0));
    OneMore(s, run[..5], ExampleBlock());
    OneMore(s, run[..6], HostConnects("k", "c"));
    OneMore(s, run[..7], SaysReady(2));
  }
}
