/** The cloud relay's pending calls to its host: `HostCalls` in `cloud/src/host-calls.ts`. */
module HostCalls {
  import opened Wrappers
  import opened MailboxItems

  const MAX_ERROR := 2000

  /** The host's answer, or none: `Offline` and `TimedOut` are the codes. */
  datatype Answer = Answered(result: string) | Errored(error: string) | Offline | TimedOut

  /** What the host's `assistant.result` carries. */
  datatype Result = Result(id: Field, ok: bool, result: string, error: Field)

  /** `id` is a fresh random id; `sent` is whether the socket took the call. */
  datatype Event =
    | Asks(id: string, sent: bool)
    | Answers(result: Result)
    | TimesOut(call: nat)
    | GoesOffline

  /**
   * `open` is the table of calls by id. Calls are numbered in the order they are asked; `asked` lists their ids, and
   * `resolved` the answers their promises were resolved with.
   */
  datatype Calls = Calls(open: map<string, nat>, asked: seq<string>, resolved: seq<seq<Answer>>)

  const NO_CALLS := Calls(map[], [], [])

  function Slice(s: string, n: nat): string { if |s| <= n then s else s[..n] }

  function AnswerOf(r: Result): Answer {
    if r.ok then Answered(r.result) else Errored(if r.error.Text? then Slice(r.error.text, MAX_ERROR) else "Refused")
  }

  /** Every call the table holds has a place for its answers. */
  predicate Shaped(c: Calls) {
    |c.resolved| == |c.asked| && forall id :: id in c.open ==> c.open[id] < |c.asked|
  }

  function Settle(c: Calls, id: string, a: Answer): Calls
    requires Shaped(c)
  {
    if id in c.open
    then Calls(c.open - {id}, c.asked, c.resolved[c.open[id] := c.resolved[c.open[id]] + [a]])
    else c
  }

  predicate IsOpen(c: Calls, n: nat)
    requires n < |c.asked|
  {
    c.asked[n] in c.open && c.open[c.asked[n]] == n
  }

  function Step(c: Calls, e: Event): Calls
    requires Shaped(c)
  {
    match e
    case Asks(id, sent) =>
      var added := Calls(c.open[id := |c.asked|], c.asked + [id], c.resolved + [[]]);
      if sent then added else Settle(added, id, Offline)
    case Answers(result) => if result.id.Text? then Settle(c, result.id.text, AnswerOf(result)) else c
    case TimesOut(n) => if n < |c.asked| then Settle(c, c.asked[n], TimedOut) else c
    case GoesOffline =>
      Calls(map[], c.asked, seq(|c.asked|, n requires 0 <= n < |c.asked| => if IsOpen(c, n) then c.resolved[n] + [Offline] else c.resolved[n]))
  }

  /** Ids are never used twice. */
  predicate Fresh(c: Calls, e: Event) {
    e.Asks? ==> e.id !in c.asked
  }

  class HostCallsTable {
    var open: map<string, nat>
    var asked: seq<string>
    var resolved: seq<seq<Answer>>

    function View(): Calls reads this { Calls(open, asked, resolved) }

    constructor ()
      ensures View() == NO_CALLS
    {
      open, asked, resolved := map[], [], [];
    }

    method Ask(id: string, sent: bool)
      requires Shaped(View())
      modifies this
      ensures View() == Step(old(View()), Asks(id, sent))
    {
      open := open[id := |asked|];
      asked, resolved := asked + [id], resolved + [[]];
      if !sent {
        SettleOne(id, Offline);
      }
    }

    method Answered(result: Result)
      requires Shaped(View())
      modifies this
      ensures View() == Step(old(View()), Answers(result))
    {
      if !result.id.Text? {
        return;
      }
      SettleOne(result.id.text, AnswerOf(result));
    }

    method Timeout(call: nat)
      requires Shaped(View())
      modifies this
      ensures View() == Step(old(View()), TimesOut(call))
    {
      if call < |asked| {
        SettleOne(asked[call], TimedOut);
      }
    }

    /** Every id the table held when it began, settled one by one. */
    method HostOffline()
      requires Consistent(View())
      modifies this
      ensures View() == Step(old(View()), GoesOffline)
    {
      ghost var was := View();
      var ids := open.Keys;
      AllLeft(was);
      while ids != {}
        invariant ids <= was.open.Keys && View() == SettledBut(was, ids)
        decreases |ids|
      {
        var id :| id in ids;
        OneMore(was, ids, id);
        SettleOne(id, Offline);
        ids := ids - {id};
      }
      NoneLeft(was);
    }

    method SettleOne(id: string, a: Answer)
      requires Shaped(View())
      modifies this
      ensures View() == Settle(old(View()), id, a)
    {
      if id in open {
        var n := open[id];
        open := open - {id};
        resolved := resolved[n := resolved[n] + [a]];
      }
    }
  }

  // ---- the invariant ----

  /** Ids tell calls apart, and a call is in the table under its own id exactly while it has no answer; it never has two. */
  ghost predicate Consistent(c: Calls) {
    && Shaped(c)
    && (forall m, n :: 0 <= m < n < |c.asked| ==> c.asked[m] != c.asked[n])
    && (forall id :: id in c.open ==> c.asked[c.open[id]] == id)
    && (forall n: nat :: n < |c.asked| ==> CallOk(c, n))
  }

  predicate CallOk(c: Calls, n: nat)
    requires Shaped(c) && n < |c.asked|
  {
    if IsOpen(c, n) then c.resolved[n] == [] else |c.resolved[n]| == 1
  }

  /** The table when all but the `left` ids have been told that the host is gone. */
  function SettledBut(c: Calls, left: set<string>): Calls
    requires Shaped(c)
  {
    Calls(map id | id in c.open && id in left :: c.open[id], c.asked,
          seq(|c.asked|, n requires 0 <= n < |c.asked| => if IsOpen(c, n) && c.asked[n] !in left then c.resolved[n] + [Offline] else c.resolved[n]))
  }

  lemma AllLeft(c: Calls)
    requires Shaped(c)
    ensures SettledBut(c, c.open.Keys) == c
  {
  }

  lemma NoneLeft(c: Calls)
    requires Shaped(c)
    ensures SettledBut(c, {}) == Step(c, GoesOffline)
  {
  }

  lemma OneMore(c: Calls, left: set<string>, id: string)
    requires Consistent(c) && left <= c.open.Keys && id in left
    ensures Shaped(SettledBut(c, left)) && Settle(SettledBut(c, left), id, Offline) == SettledBut(c, left - {id})
  {
    var d, e := Settle(SettledBut(c, left), id, Offline), SettledBut(c, left - {id});
    assert d.open == e.open;
    forall n | 0 <= n < |c.asked|
      ensures d.resolved[n] == e.resolved[n]
    {
      assert c.asked[n] == id ==> n == c.open[id];
    }
  }

  lemma SettleKeeps(c: Calls, id: string, a: Answer)
    requires Consistent(c)
    ensures Consistent(Settle(c, id, a))
  {
    var d := Settle(c, id, a);
    forall n: nat | n < |d.asked|
      ensures CallOk(d, n)
    {
      assert CallOk(c, n);
    }
  }

  lemma AskKeeps(c: Calls, id: string, sent: bool)
    requires Consistent(c) && id !in c.asked
    ensures Consistent(Step(c, Asks(id, sent)))
  {
    var added := Calls(c.open[id := |c.asked|], c.asked + [id], c.resolved + [[]]);
    forall n: nat | n < |added.asked|
      ensures CallOk(added, n)
    {
      if n < |c.asked| {
        assert CallOk(c, n) && c.asked[n] in c.asked;
      }
    }
    SettleKeeps(added, id, Offline);
  }

  lemma StepKeeps(c: Calls, e: Event)
    requires Consistent(c) && Fresh(c, e)
    ensures Consistent(Step(c, e))
  {
    match e
    case Asks(id, sent) => AskKeeps(c, id, sent);
    case Answers(result) => if result.id.Text? { SettleKeeps(c, result.id.text, AnswerOf(result)); }
    case TimesOut(n) => if n < |c.asked| { SettleKeeps(c, c.asked[n], TimedOut); }
    case GoesOffline =>
      forall n: nat | n < |c.asked|
        ensures CallOk(Step(c, e), n)
      {
        assert CallOk(c, n);
      }
  }

  // ---- runs ----

  ghost function After(es: seq<Event>): Calls {
    if es == [] then NO_CALLS
    else if Shaped(After(es[..|es| - 1])) then Step(After(es[..|es| - 1]), es[|es| - 1])
    else NO_CALLS
  }

  ghost predicate Feasible(es: seq<Event>) {
    es == [] || (Feasible(es[..|es| - 1]) && Fresh(After(es[..|es| - 1]), es[|es| - 1]))
  }

  lemma {:induction false} RunKeeps(es: seq<Event>)
    requires Feasible(es)
    ensures Consistent(After(es))
  {
    if es != [] {
      RunKeeps(es[..|es| - 1]);
      StepKeeps(After(es[..|es| - 1]), es[|es| - 1]);
    }
  }

  /** The event decides the call numbered `n`, asked under `id`. */
  predicate Decides(e: Event, n: nat, id: string) {
    match e
    case Asks(other, sent) => other == id && !sent
    case Answers(result) => result.id == Text(id)
    case TimesOut(m) => m == n
    case GoesOffline => true
  }

  /** The answer is what the event says: the host's result, or the first 2000 letters of its error, or why there is none. */
  predicate Says(e: Event, a: Answer) {
    match e
    case Answers(r) =>
      if r.ok then a == Answered(r.result)
      else if r.error.Text? then a.Errored? && a.error <= r.error.text && |a.error| == (if |r.error.text| < 2000 then |r.error.text| else 2000)
      else a == Errored("Refused")
    case TimesOut(_) => a == TimedOut
    case _ => a == Offline
  }

  /** The first event, from the call's own asking on, that decides call `n`. */
  ghost function Decider(es: seq<Event>, n: nat): Option<Event>
    requires Feasible(es)
  {
    if es == [] || n >= |After(es).asked| then None
    else
      var earlier := Decider(es[..|es| - 1], n);
      if earlier.Some? then earlier
      else if Decides(es[|es| - 1], n, After(es).asked[n]) then Some(es[|es| - 1]) else None
  }

  lemma StepResolves(c: Calls, e: Event, n: nat)
    requires Consistent(c) && Fresh(c, e) && n < |c.asked|
    ensures
      var d := Step(c, e);
      && n < |d.asked| && d.asked[n] == c.asked[n] && |d.resolved| == |d.asked|
      && (if c.resolved[n] == [] && Decides(e, n, c.asked[n]) then |d.resolved[n]| == 1 && Says(e, d.resolved[n][0])
          else d.resolved[n] == c.resolved[n])
  {
    assert CallOk(c, n);
    if e.TimesOut? && e.call < |c.asked| && e.call != n {
      assert c.asked[e.call] != c.asked[n];
    }
  }

  lemma AskResolves(c: Calls, id: string, sent: bool)
    requires Consistent(c)
    ensures
      var d := Step(c, Asks(id, sent));
      |d.asked| == |c.asked| + 1 && d.asked[|c.asked|] == id && |d.resolved| == |d.asked| && d.resolved[|c.asked|] == if sent then [] else [Offline]
  {
  }

  /**
   * In every run, a call that has been asked is resolved at most once, with what the first event that decides it says; it
   * is in the table exactly while there has been none.
   */
  lemma {:induction false} ResolvedByFirst(es: seq<Event>, n: nat)
    requires Feasible(es) && n < |After(es).asked|
    ensures Consistent(After(es))
    ensures Decider(es, n).None? ==> After(es).resolved[n] == []
    ensures Decider(es, n).Some? ==> |After(es).resolved[n]| == 1 && Says(Decider(es, n).value, After(es).resolved[n][0])
    ensures IsOpen(After(es), n) <==> Decider(es, n).None?
  {
    RunKeeps(es);
    if es != [] {
      var front, e := es[..|es| - 1], es[|es| - 1];
      var c := After(front);
      RunKeeps(front);
      if n < |c.asked| {
        ResolvedByFirst(front, n);
        StepResolves(c, e, n);
      } else {
        assert e.Asks? && n == |c.asked|;
        assert Decider(front, n).None?;
        AskResolves(c, e.id, e.sent);
      }
      assert CallOk(After(es), n);
    }
  }

  /** When the host has gone, nothing is left open and every call asked so far is resolved. */
  lemma OfflineResolvesAll(es: seq<Event>, n: nat)
    requires Feasible(es + [GoesOffline]) && n < |After(es + [GoesOffline]).asked|
    ensures After(es + [GoesOffline]).open == map[] && Decider(es + [GoesOffline], n).Some?
    ensures Consistent(After(es + [GoesOffline])) && |After(es + [GoesOffline]).resolved[n]| == 1
  {
    var all := es + [GoesOffline];
    assert all[..|all| - 1] == es;
    RunKeeps(es);
    ResolvedByFirst(all, n);
  }
}
