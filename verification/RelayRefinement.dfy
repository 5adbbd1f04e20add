/** The refinement on whole runs of the private relay: its sockets included, one computer's mail is a run of the cloud's. */
module RelayRefinement {
  import opened MailboxRefinement
  import opened RoomState
  import opened RoomRuns

  /**
   * Whatever happens to the private relay, what its mailbox holds for computer `c` is what some run of the cloud's
   * one-computer mailbox holds, whose every call mirrors one of the relay's own.
   */
  lemma RelayRefinesCloud(now: nat, es: seq<Event>, c: string) returns (cops: seq<CloudOp>, ren: map<nat, nat>)
    requires Feasible(now, es)
    ensures Simulates(Calls(now, es), c, cops, ren)
    ensures Related(After(now, es).box, c, CloudRun(cops), ren)
  {
    hide After, Calls, Feasible, Related;
    RunIsMailboxRun(now, es);
    cops, ren := Refines(Calls(now, es), c);
  }
}
