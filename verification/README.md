# Codync relays, verified

Codync's phones and computers talk through a relay. There are two: the private relay (`private-relay/`), one process for
many computers with rooms in memory over an SQLite table, and the cloud relay (`cloud/`), one durable object per
computer. Both forward ciphertext between a computer's host and its devices, keep presence, admit devices by an access
list the host signs, and hold an offline mailbox; the cloud one also queues webhook deliveries and wakes itself by an
alarm. This project models both in Dafny, with the bounded tables around them (limiters, nonces, pending calls, the
base64url codec), the command-line quoting of `host/src/shell.rs` and the push relay's choice of tickets, and proves what
their users rely on in every state a run can reach.

## How it is laid out

| files | what |
|---|---|
| `MailboxItems`, `MailboxTable`, `MailboxRuns` | the private relay's mailbox: rows, statements, whole runs |
| `PrivateStore` | the same as code that updates a table in place, statement by statement |
| `CloudMailbox`, `MailboxRefinement`, `RelayRefinement` | the cloud's mailbox, and why the private one refines it |
| `RoomState`, `RoomInvariants`, `RoomSteps`, `RoomSweeps`, `RoomRuns`, `RoomFlow`, `RoomGuarantees` | the rooms as a state machine, what each event keeps, and what follows for every run |
| `RoomTalk`, `HostTalk`, `RoomExits` | what each handler of the rooms sends, kind by kind, and whom it makes leave |
| `RoomVoices`, `RoomStatus`, `RoomLapses`, `RoomMembers`, `RoomMail`, `MailboxAnswers` | what exactly one event changes in any reachable state: who hears what, who comes and leaves, and what becomes of each item |
| `Rooms` | the rooms as code: objects updated in place by the handlers |
| `Hookbox`, `CloudState`, `CloudInvariants`, `CloudAlarms`, `CloudInFlight`, `CloudMail`, `CloudRuns` | the cloud relay as a state machine, what each event keeps and does to the mail, and what follows for every run |
| `CloudPasses` | what a whole pass of its alarm achieves, and how the alarm follows the ends of pairings |
| `CloudFlow`, `CloudStallRun` | that its queues keep moving while a host is ready, and the case in which mail waits, as a run |
| `CloudBlocks`, `CloudBlockCases`, `CloudBlockRuns` | what may still reach the host after a block: the safety theorem, the exact condition, and the two cases as runs |
| `CloudHooks`, `CloudAdmission`, `CloudPost` | what exactly one event does to each webhook delivery, socket, block and item of mail, and the conservation of deliveries over runs |
| `ComputerRelay` | the cloud relay as code |
| `RateLimit`, `SlidingWindow`, `Registration`, `Enrollment`, `Nonces`, `HostCalls` | the limiters and tables around the relays |
| `Base64Url`, `Shell`, `Tickets` | the codec, command lines, push tickets |
| `Sequences`, `Wrappers`, `Acls` | rows selected by a condition, options, access lists |

A handler's specification is a function from a state to the next (`RoomState.Next`, `CloudState.Next`). The invariants are
proved of these functions; the classes' methods are proved equal to them through `View`, and each entry point keeps the
invariants. A send appends to the socket's trace, time never runs back, and a check that the source waits for is an event
of its own that brings the verdict. `Reachable` holds of a state that some run of events leads to. The laws named
`...Exactly` say of any event in any reachable state what it changes, in both directions and in terms of the state, the
event and the constants alone, without naming the handlers.

## Findings

Where the code and a remark or its twin differ, the model follows the code.

- A block removes a key's queued mail so that "nothing it queued should reach the host any more"
  (`cloud/src/relay.ts:241`). Two things still do. An item in flight is put back when the host leaves and sent to the next
  one. And a socket of the key is only being closed, but "can be closing while it's still listed"
  (`cloud/src/relay.ts:106`): a put on it is taken like any other (`cloud/src/relay.ts:366-380`, `519-547`), and sent once a
  host is ready. `CloudBlocks.SentAfterBlock` proves that there is no third way over any events that follow,
  `CloudBlockCases.BlockSilencesExactly` that the promise holds if and only if at the block no unexpired item of the key is
  in flight and no socket of it is connected, and `CloudBlockRuns` gives a run from a new computer for each way.
- The two relays answer a put alike except for a nonce that is neither text nor null, which the private relay echoes as
  null and the cloud as it is, and for a malformed text of 87383 to 87390 letters, which one calls `invalid` and the other
  `tooLarge`. `MailboxRefinement.PutRepliesAgreeExactly` is the exact condition; `MailboxRefinement.NumberRepliesDiffer` and
  `MailboxRefinement.BandRepliesDiffer` are the two at work.
- `split_env` always trims the blanks before the command, and it takes a leading `env ` off the command only when no valid
  pair precedes it. `Shell.WindowsRoundTrip` is the exact condition, for the command without its leading blanks and for the
  command as passed; `Shell.EnvIsLost`, `Shell.AssignmentIsLost` and `Shell.BlankIsLost` are the three ways it fails.
- In both relays the sweep takes an expired item out of flight without a delivery after it, so that the rest waits, although
  the host is ready, until it next acknowledges something. `RoomGuarantees.NeverStalls` and `CloudFlow.NeverStalls` say that
  mail waits for a ready host in no other way, but for one that the cloud's model adds by letting events come after any look
  of the alarm: it lets go of a host's socket that closed during its pass. `CloudStallRun.StallCase` is a run in which mail
  waits.
- A signed request can be accepted twice, but at one instant's reading of the clock only at the two exact ends of its
  window. `Nonces.SignedOnce` and `Nonces.EndsAcceptTwice`.

## Model

| member | source | states |
|---|---|---|
| RoomSteps.NextKeeps | private-relay/src/room.ts:127-409 | every event, from connects to sweeps, late access-list verdicts and restarts, keeps the registry, the traces, the presences, the in-flight rule and the mailbox |
| RoomRuns.RunKeeps | private-relay/src/room.ts:90-409 | the invariant holds after any feasible run |
| RoomGuarantees.HostView | private-relay/src/room.ts:166-169 | each link's messages to a host are one open, then data, then at most one close, none before `ready`; a ready host on an open socket has been told open exactly its room's devices |
| RoomGuarantees.PresenceTold | private-relay/src/room.ts:368-386 | every connected device was last told whether its host is ready |
| RoomGuarantees.ReadyMeans | private-relay/src/room.ts:220-222 | a room counts as online exactly when some host that is ready, has not left and is the room's own is in it |
| RoomGuarantees.InFlightSafety | private-relay/src/room.ts:354-358 | at most one item of a computer is in flight, and only while its registered room has a ready host |
| RoomGuarantees.UnreadyAckRemovesNothing | private-relay/src/room.ts:300-305 | an acknowledgement from a host that is not ready, was replaced or has left removes nothing |
| RoomGuarantees.HostInOneRoom | private-relay/src/room.ts:127-145 | a host that has not left is the host of its computer's one registered room, also after a replacement |
| RoomGuarantees.DeviceInOneRoom | private-relay/src/room.ts:388-400 | a device is in the list of its computer's one registered room exactly until it leaves; `release` never takes that room |
| RoomGuarantees.NoEmptyRoomKept | private-relay/src/room.ts:398-400 | every room the map holds is its computer's and has someone in it |
| RoomGuarantees.DevicesBounded | private-relay/src/room.ts:148-152 | no room ever has more than 16 devices |
| RoomGuarantees.NextHostGetsInterrupted | private-relay/src/room.ts:269-283 | the item last offered and not acknowledged, if still held and unexpired, is the first thing the next ready host is sent |
| RoomGuarantees.NeverStalls | private-relay/src/room.ts:354-358 | in every reachable state, while a host is ready and an unexpired item of its computer is queued, one is in flight, or what was last offered has run out since |
| RoomVoices.HostReachesLink | private-relay/src/room.ts:285-289 | over any event in any reachable state, a device hears the words of the host in charge of its room that name its link, once, if its socket is open, and no other |
| RoomVoices.DeviceReachesHost | private-relay/src/room.ts:330-335 | a host in charge hears each channel message the relay takes from a device of its room, once and under the device's link, and no other |
| RoomVoices.AckIsTold | private-relay/src/mailbox.ts:69-79 | an acknowledgement of the item in flight tells each connected, non-pairing socket of its device what became of it, once: delivered exactly when `ok`, else the known code or `invalid`; no other socket hears |
| RoomVoices.NoOtherNote | private-relay/src/room.ts:300-305 | between sweeps no device hears of an item but one the host in charge acknowledges |
| RoomLapses.ExpiryIsTold | private-relay/src/room.ts:194-198 | a sweep tells each socket that stays connected of each expired item of its device, once, in order, and no other |
| RoomVoices.LinksAreOpened | private-relay/src/room.ts:277-281 | links are opened on a host's socket exactly when it becomes ready, in the room's order, or a device connects to it, with the device's key and kind |
| RoomVoices.HostIsAnswered | private-relay/src/room.ts:247-275 | each host is answered its own list and frames and no one else's: `acl.ok`, `badAcl` and `staleVersion` exactly when due |
| RoomMail.DeviceIsAnswered | private-relay/src/room.ts:325-342 | a device gets one answer to each message of its own that is taken and not passed on, and none to another's |
| RoomStatus.StatusToldExactly | private-relay/src/room.ts:277-281 | a connected device is told online exactly when a host becomes ready in its room, and offline exactly when the one in charge leaves, with the time |
| RoomStatus.LastSeenExactly | private-relay/src/room.ts:368-380 | a room's last-seen time is that of its host's last becoming ready or leaving while in charge |
| RoomMembers.DeviceLeavesExactly | private-relay/src/room.ts:190-344 | a device leaves exactly when its socket ends, its message is refused, the host closes its link, a newer list does not admit it, or a sweep finds it silent over 90 s or its pairing over; all others stay |
| RoomMembers.ChargedExactly | private-relay/src/room.ts:307-352 | only a device's own messages are charged to it, each once to the window of its time, and counted for its pairing |
| RoomMembers.HostLeavesExactly | private-relay/src/room.ts:127-202 | a host leaves exactly when its socket ends, another of its computer connects or a sweep finds it silent over 90 s; it becomes ready exactly when it says so with a list stored |
| RoomMembers.HostComesExactly | private-relay/src/room.ts:127-132 | a connecting host is its computer's registered room's, heard now and not ready |
| RoomMembers.DeviceComesExactly | private-relay/src/room.ts:147-169 | a connecting device joins its computer's room exactly when fewer than 16 are there, told the presence; a pairing ends with its offer or after 120 s |
| RoomMembers.ListStoredExactly | private-relay/src/room.ts:247-260 | a list is stored exactly when a newer one of the host's own computer is verified |
| RoomMail.CallTakesExactly | private-relay/src/store.ts:143-217 | a call takes an item out exactly when it acknowledges it in flight, withdraws it queued under its own key, or finds it expired |
| RoomMail.ItemLeavesExactly | private-relay/src/mailbox.ts:41-83 | over any event, an item leaves exactly when the host in charge acknowledges it, its device withdraws it, or a sweep finds it expired |
| RoomMail.ItemEntersExactly | private-relay/src/mailbox.ts:23-39 | an item enters exactly when a connected, non-pairing device puts it in order with no host ready and room for it |
| RoomMail.ItemSentExactly | private-relay/src/mailbox.ts:53-66 | a host is sent an item exactly when it becomes ready or acknowledges in charge, none is in flight, and it is the oldest due |
| MailboxAnswers.PutAcceptsExactly | private-relay/src/mailbox.ts:23-39 | a put is accepted exactly when nonce, blob, expiry and quotas allow it; the row it adds; `full` exactly when only the room is missing |
| MailboxAnswers.PutRefusesExactly | private-relay/src/mailbox.ts:24-35 | which of the other answers a refused put gets, each exactly when |
| MailboxAnswers.CancelTakesExactly | private-relay/src/mailbox.ts:41-46 | a cancel takes exactly the device's queued item under the nonce, and reports any other gone |
| MailboxAnswers.ListsExactly | private-relay/src/mailbox.ts:48-50 | one entry for each of the device's items, in order |
| RoomRuns.NextCalls | private-relay/src/mailbox.ts:23-83 | an event changes the mailbox by its listed calls and nothing else |
| RoomRuns.RunIsMailboxRun | private-relay/src/mailbox.ts:23-83 | any run of the relay is a timed run of its mailbox calls |
| RoomGuarantees.RelayConserves | private-relay/src/store.ts:143-217 | over any run of the relay puts are conserved, acknowledgements strictly ascend per computer and offers never go back |
| RoomInvariants.PhaseReadsTrace | private-relay/src/room.ts:269-289 | the phase kept for a link is the one its whole trace reads as |
| RoomInvariants.DropHostKeeps | private-relay/src/room.ts:368-386 | a host that leaves keeps the invariant |
| RoomInvariants.DropDeviceKeeps | private-relay/src/room.ts:388-396 | a device that leaves keeps the invariant |
| RoomSteps.AttachHostKeeps | private-relay/src/room.ts:127-145 | a connecting host, replacing another or not, keeps the invariant |
| RoomSteps.AttachDeviceKeeps | private-relay/src/room.ts:147-182 | a connecting device keeps the invariant |
| RoomSteps.OnReadyKeeps | private-relay/src/room.ts:269-283 | `ready` opens exactly the room's links and keeps the invariant |
| RoomSteps.OpenAllPhase | private-relay/src/room.ts:278-281 | opening distinct unseen links leaves exactly those live |
| RoomSteps.OnAckKeeps | private-relay/src/room.ts:300-305 | an acknowledgement and the delivery after it keep the invariant |
| RoomSteps.OnAclCheckedKeeps | private-relay/src/room.ts:247-266 | the step after an access list's check keeps the invariant, even when its host has left |
| RoomSteps.OnDeviceKeeps | private-relay/src/room.ts:307-344 | any device message keeps the invariant |
| RoomSteps.ForwardAlike | private-relay/src/room.ts:331-335 | data is only forwarded on a link that is open to the ready host |
| RoomSteps.SweepKeeps | private-relay/src/room.ts:190-202 | a sweep keeps the invariant |
| RoomSweeps.SweepAchieves | private-relay/src/room.ts:190-202 | after a sweep no connected host or device has been silent over 90 s, no pairing is past its end, no expired item is held |
| RoomSteps.RestartKeeps | private-relay/src/store.ts:75-76 | a restart leaves nothing in flight and keeps the invariant |
| RoomSweeps.SweepRoomsIndex | private-relay/src/room.ts:192-199 | sweeping a room lets go of no room but itself |
| RoomSweeps.SweepsNext | private-relay/src/room.ts:192-199 | every room the map held at the start is swept once, in the map's order |
| Rooms.Rooms.constructor | private-relay/src/room.ts:90-98 | starts with no room, and in the invariant when its store holds a valid table with nothing in flight |
| Rooms.Rooms.AttachHost | private-relay/src/room.ts:127-145 | on the objects, the specified connect of a host; the invariant kept, the new connection returned, everything known stays known |
| Rooms.Rooms.AttachDevice | private-relay/src/room.ts:147-182 | on the objects, the specified connect of a device; the invariant kept, which bounds a room to 16 devices; the new connection or none returned, everything known stays known |
| Rooms.Rooms.RoomFor | private-relay/src/room.ts:204-211 | the registered room of a computer, or a fresh one registered |
| Rooms.Rooms.PairingDeadline | private-relay/src/room.ts:224-228 | the earlier of 120 s and the offer's expiry |
| Rooms.Rooms.FromHost | private-relay/src/room.ts:133-142 | on the objects, the specified step for a host's frame, and the invariant kept |
| Rooms.Rooms.OnReady | private-relay/src/room.ts:269-283 | the loop over the devices is the specified `ready` |
| Rooms.Rooms.OpenLinks | private-relay/src/room.ts:277-281 | telling each device and opening its link in turn is telling all and opening all |
| Rooms.Rooms.OnData | private-relay/src/room.ts:285-289 | data reaches the link's device only |
| Rooms.Rooms.OnCloseDevice | private-relay/src/room.ts:291-298 | a close from the host drops the link's device only |
| Rooms.Rooms.OnAck | private-relay/src/room.ts:300-305 | on the objects, the specified acknowledgement |
| Rooms.Rooms.OnAclChecked | private-relay/src/room.ts:248-266 | on the objects, the specified step after the check, over a copy of the device list, and the invariant kept |
| Rooms.Rooms.FromDevice | private-relay/src/room.ts:170-179 | on the objects, the specified step for a device's frame, and the invariant kept |
| Rooms.Rooms.OnDevice | private-relay/src/room.ts:307-344 | on the objects, the specified device message |
| Rooms.Rooms.Count | private-relay/src/room.ts:314-324 | the charge and the pairing count in place are the specified ones |
| Rooms.Rooms.Deliver | private-relay/src/room.ts:354-358 | on the objects, the specified delivery |
| Rooms.Rooms.NoteEach | private-relay/src/room.ts:360-366 | the two loops are the specified notes |
| Rooms.Rooms.DropHost | private-relay/src/room.ts:368-386 | on the objects, the specified leaving of a host |
| Rooms.Rooms.DropDevice | private-relay/src/room.ts:388-396 | on the objects, the specified leaving of a device |
| Rooms.Rooms.HostCloses | private-relay/src/room.ts:143-144 | a closed or failed host socket: the specified leaving, and the invariant kept |
| Rooms.Rooms.DeviceCloses | private-relay/src/room.ts:180-181 | a closed or failed device socket: the specified leaving, and the invariant kept |
| Rooms.Rooms.Release | private-relay/src/room.ts:398-400 | only an empty room leaves the map |
| Rooms.Rooms.Sweep | private-relay/src/room.ts:190-202 | the loops over copies of the map and of each list are the specified sweep; the invariant is kept, and no object is forgotten |
| Rooms.Visit | private-relay/src/room.ts:127-202 | the entry points one after the other, twice: connects, frames, time and sweeps keep the invariant, and touch nothing but the relay and what it made |
| MailboxRuns.RunConserves | private-relay/src/store.ts:143-217 | every accepted put is held exactly once under its key or has left by exactly one of acknowledged, withdrawn, ran out; keys are unique; 50 items a device, 500 items and 8 MiB a computer |
| MailboxRuns.FateIsFinal | private-relay/src/store.ts:162-217 | how an item left never changes and it never comes back |
| MailboxRuns.GoneIsNeverOffered | private-relay/src/mailbox.ts:41-66 | a cancelled, acknowledged or expired item is never offered again |
| MailboxRuns.RepeatedPutChangesNothing | private-relay/src/mailbox.ts:26-27 | a put under a held nonce changes nothing and answers its state |
| MailboxRuns.RunIsOrderly | private-relay/src/mailbox.ts:53-79 | per computer, offers never go back and acknowledgements strictly ascend |
| MailboxRuns.InterruptedIsNext | private-relay/src/store.ts:180-204 | while the last offered item is held and unexpired, nothing else is offered |
| MailboxRuns.ApplyKeepsValid | private-relay/src/mailbox.ts:23-83 | every mailbox call keeps order, keys, the single flight and the quotas |
| MailboxTable.PutKeepsValid | private-relay/src/mailbox.ts:23-39 | a put keeps them |
| MailboxTable.DeliverKeepsValid | private-relay/src/mailbox.ts:53-66 | a delivery keeps them |
| MailboxTable.RequeueAllKeepsValid | private-relay/src/store.ts:75-76 | the constructor's requeue keeps them |
| MailboxItems.ScreensAgree | cloud/src/relay.ts:528-533 | the two relays' checks on a put accept the same blobs, and refuse alike but in the band |
| PrivateStore.RelayStore.constructor | private-relay/src/store.ts:75-76 | opening a file puts what was in flight back |
| PrivateStore.PutMailbox | private-relay/src/mailbox.ts:23-39 | in place, the specified put, replies included |
| PrivateStore.CancelMailbox | private-relay/src/mailbox.ts:41-46 | deleting first and looking up after is the specified cancel |
| PrivateStore.DeliverNextItem | private-relay/src/mailbox.ts:53-66 | in place, the specified delivery, although rows are marked by number alone |
| PrivateStore.AckMailbox | private-relay/src/mailbox.ts:69-79 | in place, the specified acknowledgement |
| PrivateStore.ExpireMailbox | private-relay/src/mailbox.ts:81-83 | in place, the specified expiry and its notes |
| MailboxRefinement.Refines | cloud/src/relay.ts:460-584 | any run of the private mailbox, seen from one computer, is a run of the cloud's with the same replies, notes and deliveries, up to a renumbering that keeps the order |
| MailboxRefinement.PutRepliesAgreeExactly | cloud/src/relay.ts:519-547 | when exactly the two relays answer a put alike |
| MailboxRefinement.BandRepliesDiffer | cloud/src/relay.ts:528 | a malformed text of 87383 letters, put into empty mailboxes: `invalid` and `tooLarge` |
| MailboxRefinement.NumberRepliesDiffer | cloud/src/relay.ts:521 | a put under a number as nonce: echoed as null and as it is |
| MailboxRefinement.OthersUntouched | private-relay/src/store.ts:190-192 | a call for one computer leaves every other's rows as they are |
| RelayRefinement.RelayRefinesCloud | cloud/src/relay.ts:460-584 | the same for any run of the whole private relay |
| CloudInvariants.NextAuthorized | cloud/src/relay.ts:198-248 | every event keeps open devices admitted by the stored list and not blocked |
| CloudInvariants.VersionsRise | cloud/src/relay.ts:437-442 | the stored list changes only to a higher version |
| CloudInvariants.UnblockedByRegrant | cloud/src/relay.ts:443-449 | a key is unblocked only by a newer list that names it with a different grant |
| CloudRuns.RunKeeps | cloud/src/relay.ts:127-694 | any run of events keeps all of it together: authorisation, alarm, waits, both queues, the number of sockets, the one host and the order of what is in flight |
| CloudRuns.OpenMeansAdmitted | cloud/src/relay.ts:198-458 | over every interleaving of checks, blocks and connects, an open device is listed and not blocked and an open pairing's offer is listed |
| CloudRuns.StoredVersionsAscend | cloud/src/relay.ts:428-442 | between any two moments the stored list is the same or its version rose |
| CloudRuns.AlarmPending | cloud/src/relay.ts:624-666 | outside its handler, with any socket, item or delivery, an alarm is pending within a minute and no later than the first retry to come |
| CloudFlow.NoWakeUpLost | cloud/src/relay.ts:646-665 | outside its handler, with a ready host and no delivery in flight, a delivery that is due has the alarm due too |
| CloudAlarms.NextKeeps | cloud/src/relay.ts:178-694 | every event keeps the authorisation, the alarm and the waits |
| CloudAlarms.NextAlarmMissesNone | cloud/src/relay.ts:656-665 | however long the pass over the sockets took, the alarm's next time misses no retry |
| CloudAlarms.AlarmFinishesKeeps | cloud/src/relay.ts:637-665 | the end of the alarm's handler sets the alarm as promised |
| CloudPasses.SilentAreLetGo | cloud/src/relay.ts:624-636 | after a whole pass of the alarm, whatever happens in between, a socket connected at its beginning has been let go of or had been heard in the 90 s before |
| CloudPasses.NothingOverdue | cloud/src/relay.ts:637-665 | after it nothing that had expired is left in a queue, no pairing is open past its end, and the alarm is set for the ends of the others |
| CloudPasses.PairingEndsWatched | cloud/src/relay.ts:206-220 | outside its handler the alarm is at the latest for the end of each open pairing; a list stored since it connected, or an offer listed twice, lets it lie past the end by no more than what is left of the minute after |
| CloudAlarms.AcknowledgedAlarm | cloud/src/relay.ts:304-320 | a refused delivery waits exactly its wait from now, and the alarm comes no later |
| CloudRuns.OffersWait | cloud/src/relay.ts:304-350 | a delivery refused after k retries is not offered again before its wait is over |
| CloudRuns.OffersStop | cloud/src/relay.ts:304-350 | nothing is offered after more than 291 refusals |
| CloudRuns.DeliveriesWait | cloud/src/relay.ts:274-322 | a held delivery may not go before its arrival plus all its waits; none is retried more than 292 times; one is in flight at a time |
| CloudRuns.InFlightAttended | cloud/src/relay.ts:569-584 | one item of mail is in flight at a time, and it or a delivery only while there is a ready host; order, keys and quotas hold |
| CloudRuns.NothingElseIsSent | cloud/src/relay.ts:569-584 | at least once: from the moment an item is in flight, whatever hosts come and go, nothing else is sent while it is held and unexpired |
| CloudFlow.NeverStalls | cloud/src/relay.ts:569-584 | in every reachable state, while a host is ready and an unexpired item is queued, one is in flight, or the alarm has taken the item last sent out of flight |
| CloudStallRun.StallCase | cloud/src/relay.ts:637-642 | the second case as a run from a new computer: the item sent runs out, and the other stays queued although the host is ready |
| CloudRuns.DevicesBounded | cloud/src/relay.ts:203-212 | at most 16 devices, two of them pairing, among the sockets not let go of |
| CloudMail.MailMoves | cloud/src/relay.ts:366-584 | over every event, a row held afterwards was held before, was put back, was put by the event or is what it sent |
| CloudMail.SentExactly | cloud/src/relay.ts:569-584 | an item goes in flight exactly when the event sends it to the host |
| CloudAdmission.UnblockedExactly | cloud/src/relay.ts:443-449 | over every event, a blocked key is unblocked exactly when a newer list of the owner's computer is verified that lists it with a grant other than the blocked one |
| CloudAdmission.OwnerExactly | cloud/src/relay.ts:178-190 | the first host to connect owns the computer, and no event changes that |
| CloudAdmission.RegrantedIsAdmitted | cloud/src/relay.ts:198-223 | such a key is admitted when it next connects and there is room |
| CloudAdmission.BlockedExactly | cloud/src/relay.ts:230-244 | a key becomes blocked exactly when an entry of a block names it, under the grant of the last that does |
| CloudAdmission.ListStoredExactly | cloud/src/relay.ts:434-442 | a list is stored exactly when a newer one of the owner's computer is verified |
| CloudAdmission.AdmittedExactly | cloud/src/relay.ts:198-223 | a device is admitted exactly when fewer than 16 are connected and it is listed and not blocked, or pairs by a good offer with fewer than two pairing |
| CloudAdmission.HostAdmittedExactly | cloud/src/relay.ts:178-196 | a host is admitted exactly when it is the owner's or the first, and then owns the computer |
| CloudAdmission.SocketsExactly | cloud/src/relay.ts:226-694 | over every event, a socket is closed, let go of, ready or off the list exactly for the reasons the relay has: a block or a list that names or drops it, a bad or repeated frame, silence over 90 s, a pairing over, a replaced host |
| CloudAdmission.LastSeenExactly | cloud/src/relay.ts:669-679 | the last-seen time is that of the event that last made a host ready or took a ready one away |
| CloudHooks.DeliveriesConserved | cloud/src/relay.ts:256-350 | over any run from a new computer, each accepted delivery is held exactly once or has left by exactly one of finished, removed, ran out |
| CloudHooks.FateStays | cloud/src/relay.ts:290-322 | how a delivery left never changes, and it never comes back |
| CloudHooks.DeliveryLeavesExactly | cloud/src/relay.ts:290-322 | a held delivery leaves exactly by an acknowledgement without retry in flight, a set of hooks without its own while queued, or an alarm that began at or after its expiry while queued; a leaving host or a retry keeps it |
| CloudHooks.ComesExactly | cloud/src/relay.ts:266-283 | what is held after an event was held before or is the request it queued, for 72 hours, and that is held |
| CloudHooks.SenderIsTold | cloud/src/relay.ts:266-273 | a request is queued exactly when it repeats none of the hook's and the quotas allow it; a repeated one is told so |
| CloudHooks.RefusedExactly | cloud/src/relay.ts:304-320 | a delivery that stays is what it was but for its state; exactly a refusal in flight counts an attempt and has it wait |
| CloudHooks.OfferedExactly | cloud/src/relay.ts:324-350 | a delivery goes in flight exactly when an event offers it: the oldest due, while none is in flight |
| CloudPost.ItemLeavesExactly | cloud/src/relay.ts:241-242 | over every event, an item leaves exactly when the host acknowledges it in flight, its device withdraws it queued, a block names its device while queued, or an alarm ends that began at or after its expiry |
| CloudPost.ItemEntersExactly | cloud/src/relay.ts:519-547 | an item enters exactly when a connected, non-pairing device puts it in order with no host ready and room for it |
| CloudPost.ItemSentExactly | cloud/src/relay.ts:569-584 | the host is sent an item exactly when it becomes ready or acknowledges while ready, none is in flight, and it is the oldest due |
| CloudPost.AckIsTold | cloud/src/relay.ts:460-473 | an acknowledgement of the item in flight tells each connected, non-pairing socket of its device what became of it, once: delivered exactly when `ok`, else the known code or `invalid`; no other socket hears |
| CloudPost.NoOtherNote | cloud/src/relay.ts:460-473 | between alarms no device hears of an item but one the host acknowledges |
| CloudPost.ExpiryIsTold | cloud/src/relay.ts:637-642 | the end of an alarm tells each connected, non-pairing device of each of its items that ran out, once and in order |
| CloudBlocks.SentAfterBlock | cloud/src/relay.ts:226-248 | over any events after a block, an item of a named key sent to a host while the key stays blocked was in flight at the block, or was put since by a socket that could put at the block |
| CloudBlockCases.BlockSilencesExactly | cloud/src/relay.ts:241-248 | from any reachable state, none is ever sent while the key stays blocked if and only if at the block no unexpired item of it is in flight and no socket of it is connected |
| CloudBlockRuns.InFlightCase | cloud/src/relay.ts:241-242 | the first case as a run from a new computer: the item in flight at the block is sent to the next host |
| CloudBlockRuns.ClosingSocketCase | cloud/src/relay.ts:366-380 | the second case as a run from a new computer: with nothing queued, the socket being closed puts an item, and the host is sent it |
| CloudInFlight.NextKeepsFlight | cloud/src/relay.ts:596-679 | every event keeps what is in flight attended by a ready host |
| Hookbox.WaitsFormula | cloud/src/relay.ts:31-32 | the waits double from 30 s to 15 min and stay there; their sum in closed form |
| Hookbox.WaitsFitLifetime | cloud/src/relay.ts:27-32 | exactly 291 retries' waits fit in 72 hours |
| Hookbox.OfferKeeps | cloud/src/relay.ts:325-350 | what is offered has waited, has not expired, was refused at most 291 times; the queue stays valid |
| Hookbox.AckHookKeeps | cloud/src/relay.ts:304-320 | an acknowledgement or refusal keeps the queue valid |
| Hookbox.QueueHookKeeps | cloud/src/relay.ts:266-283 | queueing keeps the key, the order and the quotas of 100, 1000 and 16 MiB |
| ComputerRelay.ComputerRelay.constructor | cloud/src/relay.ts:127-143 | a new computer's relay meets every invariant |
| ComputerRelay.ComputerRelay.FromSocket | cloud/src/relay.ts:366-380 | in place, the specified step for a frame and the item it sends: a retired socket is only closed; the invariants are kept |
| ComputerRelay.ComputerRelay.AcceptHost | cloud/src/relay.ts:178-196 | in place, the specified connect: every other host is let go of |
| ComputerRelay.ComputerRelay.AcceptDevice | cloud/src/relay.ts:198-223 | in place, the specified admission |
| ComputerRelay.ComputerRelay.Block | cloud/src/relay.ts:226-248 | the loops over entries and sockets are the specified block |
| ComputerRelay.ComputerRelay.Hook | cloud/src/relay.ts:266-287 | in place, the specified queueing of a webhook |
| ComputerRelay.ComputerRelay.OnReady | cloud/src/relay.ts:387-401 | in place, the specified `ready` |
| ComputerRelay.ComputerRelay.AckDelivery | cloud/src/relay.ts:304-320 | in place, the specified end or retry of a delivery |
| ComputerRelay.ComputerRelay.DeliverHook | cloud/src/relay.ts:325-350 | in place, the specified offer of a delivery |
| ComputerRelay.ComputerRelay.OnAcl | cloud/src/relay.ts:434-458 | in place, the specified step after the check |
| ComputerRelay.ComputerRelay.Unblock | cloud/src/relay.ts:445-449 | the loop over blocked rows leaves exactly those the list does not readmit |
| ComputerRelay.ComputerRelay.OnAck | cloud/src/relay.ts:460-473 | in place, the specified acknowledgement |
| ComputerRelay.ComputerRelay.MboxPut | cloud/src/relay.ts:519-547 | in place, the specified put, replies and alarm included |
| ComputerRelay.ComputerRelay.MboxCancel | cloud/src/relay.ts:549-559 | in place, the specified cancel |
| ComputerRelay.ComputerRelay.DeliverNext | cloud/src/relay.ts:569-584 | in place, the specified delivery of mail, and the item it sends |
| ComputerRelay.ComputerRelay.Closed | cloud/src/relay.ts:596-600 | in place, the specified end of a socket |
| ComputerRelay.ComputerRelay.Retire | cloud/src/relay.ts:608-622 | in place, the specified letting go of a socket |
| ComputerRelay.ComputerRelay.AlarmVisits | cloud/src/relay.ts:628-636 | in place, one socket of the alarm's pass: a silent one is let go of, a retired one closed if it spoke or the relay never slept |
| ComputerRelay.ComputerRelay.PairingPass | cloud/src/relay.ts:649-655 | the loop closes exactly the pairings whose time is up and finds the earliest of the others |
| ComputerRelay.ComputerRelay.AlarmFinishes | cloud/src/relay.ts:637-665 | in place, the specified end of the alarm, and what devices are told of the items that ran out |
| ComputerRelay.ComputerRelay.Handle | cloud/src/relay.ts:127-694 | whatever happens, its handler takes the specified step, sends the host what `Sent` says and makes the notes `Noted` says; the invariants are kept |
| ComputerRelay.RunsAs | cloud/src/relay.ts:127-694 | any run of events is what the code does from a new computer, handler after handler |
| RateLimit.AnyTenSeconds | private-relay/src/room.ts:346-352 | any ten seconds, both ends included, hold at most 400 accepted messages and 16 MiB |
| RateLimit.MeetsTwoWindows | private-relay/src/room.ts:346-352 | ten seconds meet at most two of the limiter's windows |
| SlidingWindow.Window.Take | private-relay/src/http.ts:38-44 | the loop that shifts old attempts out is the specified take |
| SlidingWindow.TakesExactly | private-relay/src/http.ts:29-45 | a take succeeds exactly when fewer than `limit` succeeded in the minute that ends with it |
| SlidingWindow.AnyMinute | private-relay/src/http.ts:28-45 | no minute holds more than `limit` successes |
| Registration.Registrar.Register | private-relay/src/http.ts:202-218 | in place, the specified registration |
| Enrollment.AnsweredExactly | private-relay/src/http.ts:196-218 | over any requests in time order, one is registered exactly when its computer is known and active, or unknown with the right token, room in the minute and room in the table, and no registration under its key and nonce is younger than ten minutes; which of the other answers it gets, each exactly when |
| Enrollment.OnlyRegistrationWrites | private-relay/src/store.ts:106-124 | no other answer changes the computers; a registration adds an active row, or renews the row's name, device, version, box key and time |
| Registration.OnlyEnrollingSpends | private-relay/src/http.ts:206-215 | over any requests the enrolment window is spent by right-token requests of unknown computers alone |
| Registration.TableKept | private-relay/src/store.ts:106-124 | the table never outgrows its limit; a row keeps its key, platform, status and birth |
| Registration.Registrar.RememberNonce | private-relay/src/store.ts:127-130 | in place, the specified nonce table |
| Nonces.AcceptancesApart | private-relay/src/store.ts:127-130 | two acceptances of one key's nonce are at least ten minutes apart |
| Nonces.AcceptedExactly | private-relay/src/sig.ts:63-64 | a request is accepted exactly when it is in its window and no acceptance of its nonce is younger than ten minutes |
| Nonces.SignedOnce | private-relay/src/sig.ts:63-64 | one signed request accepted twice needs the two exact ends of its window, or a second use that waited long between check and table |
| Nonces.EndsAcceptTwice | private-relay/src/sig.ts:5-6 | at the two exact ends it is accepted twice |
| HostCalls.ResolvedByFirst | cloud/src/host-calls.ts:17-51 | a call is resolved at most once, with what the first event that decides it says, a result, the first 2000 letters of an error, `Refused`, a timeout or offline, and is in the table exactly while there was none |
| HostCalls.OfflineResolvesAll | cloud/src/host-calls.ts:43-45 | when the host has gone the table is empty and every call so far is resolved once |
| HostCalls.StepKeeps | cloud/src/host-calls.ts:19-51 | the table is exactly the unresolved calls |
| HostCalls.HostCallsTable.Ask | cloud/src/host-calls.ts:19-33 | in place, the specified asking, a failed send included |
| HostCalls.HostCallsTable.Answered | cloud/src/host-calls.ts:36-40 | in place, the specified answer |
| HostCalls.HostCallsTable.HostOffline | cloud/src/host-calls.ts:43-45 | settling the ids one by one empties the table |
| Base64Url.EncodeInChunks | private-relay/src/codec.ts:3-7 | the chunk loop is the encoding |
| Base64Url.EncodeIsUrlAlphabet | cloud/src/auth.ts:10-14 | an encoding is the sextets in the URL alphabet, without padding |
| Base64Url.SextetsCarryTheBits | private-relay/src/codec.ts:3-7 | the sextets carry the bytes' bits in order, then zeros (section 4 of RFC 4648) |
| Base64Url.AcceptsExactlyCanonical | private-relay/src/codec.ts:10-21 | both decoders accept exactly the canonical texts (section 3.5 of RFC 4648), and decode alike |
| Base64Url.DecodesExactlyEncodings | cloud/src/auth.ts:17-23 | a text decodes to some bytes exactly when it is their encoding |
| Base64Url.DecodesToLength | cloud/src/auth.ts:17-23 | the length asked for is the number of bytes |
| Base64Url.LengthChecks | cloud/src/relay.ts:528-531 | the cloud's length check refuses a well-formed text exactly when it is over 64 KiB; the private relay's refuses none that fits |
| Shell.WindowsRoundTrip | host/src/shell.rs:119-186 | on Windows, splitting a prefix and a command gives back the pairs, and the command without its leading blanks if and only if it does not itself read as a prefix, and as passed if and only if, besides, it begins with no blank |
| Shell.EnvIsLost | host/src/shell.rs:166-171 | it fails for a command that starts with `env` |
| Shell.AssignmentIsLost | host/src/shell.rs:172-186 | and for one that starts with an assignment |
| Shell.BlankIsLost | host/src/shell.rs:166-171 | and, as passed, for one that starts with a blank |
| Shell.LeadingExactly | host/src/shell.rs:172-184 | an assignment is taken off exactly when the text begins with one, its value in quotes of either kind that it does not hold, or up to a blank or the end, and it is that one |
| Shell.SplitEnv | host/src/shell.rs:166-186 | the loop is the specified splitting |
| Shell.EnvPrefix | host/src/shell.rs:121-130 | the loop is the specified prefix |
| Shell.ReadsOneWord | host/src/shell.rs:107-117 | a POSIX shell reads `quote(s)` as the one word `s` (section 2.2 of POSIX.1-2017 XCU) |
| Shell.ReadsLine | host/src/shell.rs:107-117 | quoted words in a row are read as those words |
| Shell.ReadsPrefix | host/src/shell.rs:119-130 | a POSIX shell reads the prefix as `env` and one word for each valid pair, before the command |
| Tickets.SealedExactly | relay/src/index.ts:108-132 | a request is sealed exactly when it says all that some well-formed ticket holds, and into that ticket |
| Tickets.SealedUnambiguous | relay/src/index.ts:108-132 | registration lets no colon into a key's fields before the last |
| Tickets.KeysAreDestinations | relay/src/index.ts:246-247 | two sealed tickets have one key exactly when they have one destination |
| Tickets.LatestTicketIndices | relay/src/index.ts:243-250 | the loop keeps exactly the last index of each key |
| Tickets.PushBatch | relay/src/index.ts:272-290 | a batch of none or over 256 is refused; an entry without a ticket is refused, the last of its key delivered, any other superseded |
| Tickets.OneDeliveryEach | relay/src/index.ts:240-290 | each destination of a batch gets exactly one delivery, for its last entry |

## Left out

- Signatures, hashes, encryption, Clerk tokens and random ids: a check is an event that brings its verdict, an id a number never used before.
- JSON text, WebSocket and HTTP plumbing, hibernation and logging: messages are their parsed fields. Text lengths count characters, which for text outside the basic plane differ from the UTF-16 units of the source.
- `admitHost` and `admitDevice` of the private relay: a connect event is any connect they could let through, at any time after; the invariants need nothing of them.
- The access list against attached devices in the private relay: a late verdict can act on a room that was let go of. The cloud relay's version is proved.
- The cloud's presence write to D1 is taken as instantaneous, but for the alarm's pass, in which other events may come after any look; and a socket leaves the list when its close handler starts.
- ComputerRelay.ComputerRelay.OnDevice: what `charge` answers is a parameter; the limiter is the private relay's, proved in `RateLimit`, and its map is lost on hibernation.
- ComputerRelay.ComputerRelay.FromSocket: the same parameter; frames from a host name what its message says, not its text.
- ComputerRelay.ComputerRelay.AcceptDevice: the presence the device is told and the open the host is told.
- ComputerRelay.ComputerRelay.Block: the `cloud.changed` the hosts are told.
- ComputerRelay.ComputerRelay.OnReady: the presences and opens sent to devices and host, and the presence row in D1.
- ComputerRelay.ComputerRelay.OnAcl: the reply to the host, `acl.ok`, `badAcl` or `staleVersion`.
- ComputerRelay.ComputerRelay.Closed: the close told to a ready host, and the limiter's row.
- ComputerRelay.ComputerRelay.Retire: the same, and the code and reason kept for the later close.
- ComputerRelay.ComputerRelay.HostOffline: the presence told to devices, and the pending calls, which `HostCalls.OfflineResolvesAll` is about.
- ComputerRelay.ComputerRelay.AlarmFinishes: the rows of the cloud's table of nonces.
- CloudState: presence, opens, data, closes and replies sent to sockets are not traced; the private relay's are. The cloud's notes are `CloudPost.Told`.
- Enrollment.AnsweredExactly: the nonces that the other signed requests, of the host's state and of sockets, spend in the same table.
- Webhook registration: keys, the sender's proof and whether a hook is enabled; a delivery enters the model after its check. That every queued delivery has a registered hook is not what the code keeps.
- HostCalls.HostCallsTable.Timeout: a timer may go off at any time, also after it was cleared, when it changes nothing.
- MailboxRefinement.Refines: a run with a block has no counterpart, as the private relay has none; replies to puts are compared unless the nonce or the text is one of the two kinds `PutRepliesAgreeExactly` names.
- Shell.ReadsPrefix: how the shell reads the command itself is the caller's; the reader gives no result for expansions, operators and globs outside quotation.
- The header loop of `verifyCodyncSig`, `limitedBody`, `fcmData` and `liveActivityAps`: field checks that would only add easy members.
- Host, desktop, phone and web code, push payloads, packaging and scripts: I/O and screens.
