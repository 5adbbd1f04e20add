/** The case in which the cloud's mailbox does wait for its host, as a run of events from a new computer. */
module CloudStallRun {
  import opened Wrappers
  import opened Sequences
  import opened Base64Url
  import opened MailboxItems
  import opened CloudMailbox
  import opened Hookbox
  import opened CloudState
  import opened CloudInvariants
  import opened CloudMail
  import opened CloudRuns
  import opened CloudBlockCases
  import opened CloudBlockRuns
  import opened CloudFlow

  /** An item that lives for a millisecond. */
  function BriefPut(): PutMsg { PutMsg(Text("m"), Text(Encode(SmallestBlob())), Whole(1)) }

  function SaysBriefPut(): Event { SocketSpeaks(1, OtherHostSaid, PutSaid(BriefPut()), true) }

  function Brief(state: State): CloudRow { CloudRow(1, Item(ExampleKey(), "m", SmallestBlob(), 1, state)) }

  function Lasting(): CloudRow { CloudRow(2, Item(ExampleKey(), "n", SmallestBlob(), MBOX_TTL_MS, Queued)) }

  function StallState(now: nat, ready: bool, rows: seq<CloudRow>, last: nat, alarm: Option<int>, running: Option<Alarm>): Cloud {
    Cloud(now, Some(("k", "c")), Some(ExampleList()), map[], [ExampleHost(ready, None), ExampleDevice(false)],
          CloudTable(rows, last), NO_HOOKS, alarm, running, if ready then Some(0) else None, [])
  }

  /** Two items are put, the brief one is sent, a minute passes, and the alarm takes it. */
  function StallRun(): seq<Event> {
    DeviceIsIn() + [SaysBriefPut(), SaysPut(1), SaysReady(0), Tick(ALARM_MS), AlarmBegins, AlarmLooks(0, false), AlarmLooks(0, false), AlarmEnds]
  }

  lemma BriefIsPut()
    ensures
      Next(StallState(0, false, [], 0, Some(ALARM_MS), None), SaysBriefPut())
      == StallState(0, false, [Brief(Queued)], 1, Some(ALARM_MS), None)
  {
    hide Decode, Encode, SmallestBlob;
    DecodesExactlyEncodings(Encode(SmallestBlob()), SmallestBlob());
    LengthChecks(Encode(SmallestBlob()), SmallestBlob());
    BlobLength();
  }

  lemma LastingIsPut()
    ensures
      Next(StallState(0, false, [Brief(Queued)], 1, Some(ALARM_MS), None), SaysPut(1))
      == StallState(0, false, [Brief(Queued), Lasting()], 2, Some(ALARM_MS), None)
  {
    hide Screen, Encode, SmallestBlob;
    SmallestPutFits(0);
    BlobLength();
    assert Sum([Brief(Queued)], CloudSize()) == MBOX_MIN_BLOB by {
      assert [Brief(Queued)][..0] == [];
    }
  }

  lemma BriefIsSent()
    ensures
      var s := StallState(0, false, [Brief(Queued), Lasting()], 2, Some(ALARM_MS), None);
      Next(s, SaysReady(0)) == StallState(0, true, [Brief(Delivering), Lasting()], 2, Some(ALARM_MS), None)
  {
    hide Encode, SmallestBlob, ExampleKey;
    var s := StallState(0, false, [Brief(Queued), Lasting()], 2, Some(ALARM_MS), None);
    FirstAt(s.mailbox.rows, Due(0), 0);
    assert First(s.mailbox.rows, Moving()).None?;
    assert Map(s.mailbox.rows, Sends(1)) == [Brief(Delivering), Lasting()];
  }

  lemma MinutePasses()
    ensures
      var rows := [Brief(Delivering), Lasting()];
      && Next(StallState(0, true, rows, 2, Some(ALARM_MS), None), Tick(ALARM_MS)) == StallState(ALARM_MS, true, rows, 2, Some(ALARM_MS), None)
      && Possible(StallState(ALARM_MS, true, rows, 2, Some(ALARM_MS), None), AlarmBegins)
      && Next(StallState(ALARM_MS, true, rows, 2, Some(ALARM_MS), None), AlarmBegins)
         == StallState(ALARM_MS, true, rows, 2, None, Some(Alarm(ALARM_MS, [0, 1])))
  {
    hide Encode, SmallestBlob, ExampleKey;
    var socks := [ExampleHost(true, None), ExampleDevice(false)];
    assert socks[..1] == [ExampleHost(true, None)] && [ExampleHost(true, None)][..0] == [];
    assert ListedNumbers(socks) == [0, 1];
  }

  lemma SocketsAreLookedAt()
    ensures
      var rows := [Brief(Delivering), Lasting()];
      var s := StallState(ALARM_MS, true, rows, 2, None, Some(Alarm(ALARM_MS, [0, 1])));
      var t := StallState(ALARM_MS, true, rows, 2, None, Some(Alarm(ALARM_MS, [1])));
      && Possible(s, AlarmLooks(0, false)) && Next(s, AlarmLooks(0, false)) == t
      && Possible(t, AlarmLooks(0, false)) && Next(t, AlarmLooks(0, false)) == StallState(ALARM_MS, true, rows, 2, None, Some(Alarm(ALARM_MS, [])))
  {
    hide Encode, SmallestBlob, ExampleKey;
    assert [0, 1][1..] == [1] && [1][1..] == [];
  }

  lemma BriefRunsOut()
    ensures
      var s := StallState(ALARM_MS, true, [Brief(Delivering), Lasting()], 2, None, Some(Alarm(ALARM_MS, [])));
      && Possible(s, AlarmEnds) && RanOutAt(s, AlarmEnds)
      && Next(s, AlarmEnds).mailbox.rows == [Lasting()] && Next(s, AlarmEnds).now == ALARM_MS && CloudState.HostReady(Next(s, AlarmEnds))
  {
    hide Encode, SmallestBlob, ExampleKey, AlarmFinishes;
    var s := StallState(ALARM_MS, true, [Brief(Delivering), Lasting()], 2, None, Some(Alarm(ALARM_MS, [])));
    AlarmEndReady(s);
    AlarmEndsSettles(s);
    AlarmEndOpensNone(s);
    assert IsReadyHost(s.socks[0]);
    assert Brief(Delivering) in s.mailbox.rows && Moving()(Brief(Delivering));
    assert s.mailbox.rows[..1] == [Brief(Delivering)] && [Brief(Delivering)][..0] == [];
    assert Filter(s.mailbox.rows, Except(PastExpiry(ALARM_MS))) == [Lasting()];
  }

  lemma FramesPossible(ready: bool, rows: seq<CloudRow>, last: nat)
    ensures
      var s := StallState(0, ready, rows, last, Some(ALARM_MS), None);
      Possible(s, SaysBriefPut()) && Possible(s, SaysPut(1)) && Possible(s, SaysReady(0)) && Possible(s, Tick(ALARM_MS))
  {
  }

  lemma StartIs()
    ensures
      ExampleState([ExampleHost(false, None), ExampleDevice(false)], [], false, None) == StallState(0, false, [], 0, Some(ALARM_MS), None)
  {
  }

  /** The alarm took the brief item, and the lasting one stays queued though the host is ready and nothing is in flight. */
  lemma StallCase()
    ensures
      var run := StallRun();
      var s := After(0, run);
      && Feasible(0, run) && s.mailbox.rows == [Lasting()] && Lasting().item.exp > s.now && CloudState.HostReady(s)
      && RanOutAt(After(0, run[..10]), run[10])
  {
    hide Next, Possible, From, FeasibleFrom, StallState, Brief, Lasting, RanOutAt, CloudState.HostReady, ExampleState, BriefPut, SmallestPut;
    var run, s := StallRun(), NewComputer(0);
    DeviceIsInRun();
    StartIs();
    BriefIsPut();
    LastingIsPut();
    BriefIsSent();
    MinutePasses();
    SocketsAreLookedAt();
    BriefRunsOut();
    LastingLasts();
    FramesPossible(false, [], 0);
    FramesPossible(false, [Brief(Queued)], 1);
    FramesPossible(false, [Brief(Queued), Lasting()], 2);
    FramesPossible(true, [Brief(Delivering), Lasting()], 2);
    assert run[..3] == DeviceIsIn() && run[..4] == run[..3] + [SaysBriefPut()] && run[..5] == run[..4] + [SaysPut(1)];
    assert run[..6] == run[..5] + [SaysReady(0)] && run[..7] == run[..6] + [Tick(ALARM_MS)] && run[..8] == run[..7] + [AlarmBegins];
    assert run[..9] == run[..8] + [AlarmLooks(0, false)] && run[..10] == run[..9] + [AlarmLooks(0, false)];
    assert run == run[..10] + [AlarmEnds];
    OneMore(s, run[..3], SaysBriefPut());
    OneMore(s, run[..4], SaysPut(1));
    OneMore(s, run[..5], SaysReady(0));
    OneMore(s, run[..6], Tick(ALARM_MS));
    OneMore(s, run[..7], AlarmBegins);
    OneMore(s, run[..8], AlarmLooks(0, false));
    OneMore(s, run[..9], AlarmLooks(0, false));
    OneMore(s, run[..10], AlarmEnds);
  }

  lemma LastingLasts()
    ensures Lasting().item.exp > ALARM_MS
  {
  }
}
