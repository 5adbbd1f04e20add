/** Who is registered at the private relay: the answer to each request, read off the requests and answers before it. */
module Enrollment {
  import opened Wrappers
  import opened Sequences
  import opened SlidingWindow
  import opened Registration
  import N = Nonces

  /** Requests one after the other on a clock that never runs back. */
  predicate InTurn(qs: seq<Request>) {
    && (forall i :: 0 <= i < |qs| ==> qs[i].at <= qs[i].remembered <= qs[i].saved)
    && (forall i, j :: 0 <= i < j < |qs| ==> qs[i].saved <= qs[j].at)
  }

  /** What is stored before request `n`. */
  function Stored(d: Desk, qs: seq<Request>, n: nat): map<string, Computer>
    requires n <= |qs|
  {
    Registration.After(d, qs[..n]).computers
  }

  function AnswerTo(d: Desk, qs: seq<Request>, i: nat): Answer
    requires i < |qs|
  {
    Handled(Registration.After(d, qs[..i]), qs[i]).1
  }

  lemma OneMore(d: Desk, qs: seq<Request>, n: nat)
    requires n < |qs|
    ensures Registration.After(d, qs[..n + 1]) == Handled(Registration.After(d, qs[..n]), qs[n]).0
  {
    assert qs[..n + 1][..n] == qs[..n];
  }

  /** The settings and the limits never change. */
  lemma {:induction false} SameSettings(d: Desk, qs: seq<Request>, n: nat)
    requires n <= |qs|
    ensures
      var e := Registration.After(d, qs[..n]);
      e.token == d.token && e.maxComputers == d.maxComputers && e.enrollLimit == d.enrollLimit && e.rejectLimit == d.rejectLimit
  {
    hide Handled;
    if n > 0 {
      SameSettings(d, qs, n - 1);
      OneMore(d, qs, n - 1);
      OneSame(Registration.After(d, qs[..n - 1]), qs[n - 1]);
    }
  }

  lemma OneSame(d: Desk, q: Request)
    ensures
      var e := Handled(d, q).0;
      e.token == d.token && e.maxComputers == d.maxComputers && e.enrollLimit == d.enrollLimit && e.rejectLimit == d.rejectLimit
  {
    hide Taken, Saved, N.Remember;
  }

  // ---- nonces ----

  function KeyOf(q: Request): N.Key { N.Key(q.kid, q.nonce) }

  /** A nonce is spent by a registration and by nothing else, and old ones are forgotten then. */
  lemma NoncesAfter(d: Desk, q: Request)
    ensures
      var (e, answer) := Handled(d, q);
      && (answer.Registered? ==> e.nonces == N.Dropped(d.nonces, q.remembered)[KeyOf(q) := q.remembered + 600_000])
      && (!answer.Registered? ==> e.nonces == d.nonces || e.nonces == N.Dropped(d.nonces, q.remembered))
  {
    hide Taken, Saved, N.Dropped;
  }

  /** Every row of the nonce table comes from a registration. */
  lemma {:induction false} NonceWasSpent(d: Desk, qs: seq<Request>, n: nat, key: N.Key) returns (i: nat)
    requires d.nonces == map[] && n <= |qs| && key in Registration.After(d, qs[..n]).nonces
    ensures i < n && AnswerTo(d, qs, i).Registered? && KeyOf(qs[i]) == key
    ensures Registration.After(d, qs[..n]).nonces[key] == qs[i].remembered + 600_000
  {
    hide Handled;
    if n == 0 {
      assert false;
    } else {
      var before, q := Registration.After(d, qs[..n - 1]), qs[n - 1];
      OneMore(d, qs, n - 1);
      NoncesAfter(before, q);
      if AnswerTo(d, qs, n - 1).Registered? && key == KeyOf(q) {
        i := n - 1;
      } else {
        i := NonceWasSpent(d, qs, n - 1, key);
      }
    }
  }

  /** A nonce spent less than ten minutes ago is still there. */
  lemma {:induction false} NonceStays(d: Desk, qs: seq<Request>, i: nat, n: nat)
    requires InTurn(qs) && i < n <= |qs| && AnswerTo(d, qs, i).Registered? && qs[n - 1].remembered < qs[i].remembered + 600_000
    ensures
      var seen := Registration.After(d, qs[..n]).nonces;
      KeyOf(qs[i]) in seen && seen[KeyOf(qs[i])] >= qs[i].remembered + 600_000
  {
    hide Handled;
    OneMore(d, qs, n - 1);
    NoncesAfter(Registration.After(d, qs[..n - 1]), qs[n - 1]);
    if i < n - 1 {
      assert qs[n - 2].saved <= qs[n - 1].at;
      NonceStays(d, qs, i, n - 1);
      assert qs[i].saved <= qs[n - 1].at;
    }
  }

  /** An earlier registration under the request's key and nonce is less than ten minutes old. */
  ghost predicate Repeats(d: Desk, qs: seq<Request>, j: nat)
    requires j < |qs|
  {
    exists i :: 0 <= i < j && AnswerTo(d, qs, i).Registered? && qs[i].kid == qs[j].kid && qs[i].nonce == qs[j].nonce
      && qs[j].remembered < qs[i].remembered + 600_000
  }

  lemma FreshExactly(d: Desk, qs: seq<Request>, j: nat)
    requires InTurn(qs) && d.nonces == map[] && j < |qs|
    ensures KeyOf(qs[j]) in N.Dropped(Registration.After(d, qs[..j]).nonces, qs[j].remembered) <==> Repeats(d, qs, j)
  {
    hide Handled, AnswerTo, Registration.After;
    var seen := Registration.After(d, qs[..j]).nonces;
    if KeyOf(qs[j]) in N.Dropped(seen, qs[j].remembered) {
      var i := NonceWasSpent(d, qs, j, KeyOf(qs[j]));
    }
    if Repeats(d, qs, j) {
      var i :| 0 <= i < j && AnswerTo(d, qs, i).Registered? && qs[i].kid == qs[j].kid && qs[i].nonce == qs[j].nonce
        && qs[j].remembered < qs[i].remembered + 600_000;
      assert qs[j - 1].saved <= qs[j].at;
      NonceStays(d, qs, i, j);
    }
  }

  // ---- the two windows ----

  /** The request comes to a window: its computer is unknown, and its token is right or wrong. */
  predicate Reaches(d: Desk, q: Request, right: bool) {
    q.id !in d.computers && (d.token != "" && q.given == d.token <==> right)
  }

  function WindowOf(d: Desk, right: bool): seq<int> { if right then d.enrollments else d.rejections }

  function LimitOf(d: Desk, right: bool): nat { if right then d.enrollLimit else d.rejectLimit }

  /** When the first `n` requests came to the window. */
  function Attempts(d: Desk, qs: seq<Request>, n: nat, right: bool): seq<int>
    requires n <= |qs|
  {
    if n == 0 then []
    else Attempts(d, qs, n - 1, right) + if Reaches(Registration.After(d, qs[..n - 1]), qs[n - 1], right) then [qs[n - 1].at] else []
  }

  /** The request comes to the window and is not too soon there. */
  predicate Counts(d: Desk, qs: seq<Request>, i: nat, right: bool)
    requires i < |qs|
  {
    qs[i].id !in Stored(d, qs, i) && (d.token != "" && qs[i].given == d.token <==> right) && !AnswerTo(d, qs, i).RateLimited?
  }

  /** When the first `n` requests counted in the window. */
  function Counted(d: Desk, qs: seq<Request>, n: nat, right: bool): seq<int>
    requires n <= |qs|
  {
    if n == 0 then [] else Counted(d, qs, n - 1, right) + if Counts(d, qs, n - 1, right) then [qs[n - 1].at] else []
  }

  function InMinute(at: int): int -> bool { (t: int) => at - 60_000 < t <= at }

  /** Fewer than the limit counted in the minute that ends with the request. */
  predicate RoomLeft(d: Desk, qs: seq<Request>, j: nat, right: bool)
    requires j < |qs|
  {
    |Filter(Counted(d, qs, j, right), InMinute(qs[j].at))| < LimitOf(d, right)
  }

  lemma {:induction false} SuccessesPrefix(limit: nat, times: seq<int>, at: int, n: nat)
    requires n <= |times|
    ensures Successes(limit, times + [at], n) == Successes(limit, times, n)
  {
    if n > 0 {
      SuccessesPrefix(limit, times, at, n - 1);
      LogPrefix(limit, times, at, n - 1);
    }
  }

  lemma SuccessesNext(limit: nat, times: seq<int>, at: int)
    ensures Successes(limit, times + [at], |times| + 1)
         == Successes(limit, times, |times|) + if Taken(Log(limit, times, |times|), limit, at).1 then [at] else []
  {
    hide Taken;
    SuccessesPrefix(limit, times, at, |times|);
    LogPrefix(limit, times, at, |times|);
  }

  /** What a request does to the windows, and what a full one answers. */
  lemma OneSpends(d: Desk, q: Request, right: bool)
    ensures
      var (e, answer) := Handled(d, q);
      var taken := Taken(WindowOf(d, right), LimitOf(d, right), q.at);
      && WindowOf(e, right) == (if Reaches(d, q, right) then taken.0 else WindowOf(d, right))
      && (Reaches(d, q, right) ==> (answer.RateLimited? <==> !taken.1))
  {
    hide Taken, Saved, N.Remember;
  }

  lemma {:induction false} WindowIsLog(d: Desk, qs: seq<Request>, n: nat, right: bool)
    requires WindowOf(d, right) == [] && n <= |qs|
    ensures WindowOf(Registration.After(d, qs[..n]), right) == Log(LimitOf(d, right), Attempts(d, qs, n, right), |Attempts(d, qs, n, right)|)
  {
    hide Handled, Taken, Log, Registration.After;
    if n == 0 {
      EmptyLog(LimitOf(d, right));
      NothingYet(d, qs);
    } else {
      var before, q := Registration.After(d, qs[..n - 1]), qs[n - 1];
      WindowIsLog(d, qs, n - 1, right);
      OneMore(d, qs, n - 1);
      SameSettings(d, qs, n - 1);
      OneSpends(before, q, right);
      var times := Attempts(d, qs, n - 1, right);
      if Reaches(before, q, right) {
        LogAppend(LimitOf(d, right), times, q.at);
      } else {
        assert times + [] == times;
      }
    }
  }

  lemma NothingYet(d: Desk, qs: seq<Request>)
    ensures Registration.After(d, qs[..0]) == d
  {
  }

  lemma {:induction false} AttemptsInOrder(d: Desk, qs: seq<Request>, n: nat, right: bool)
    requires InTurn(qs) && n <= |qs|
    ensures SlidingWindow.Chronological(Attempts(d, qs, n, right))
    ensures forall t :: t in Attempts(d, qs, n, right) ==> n > 0 && t <= qs[n - 1].at
  {
    hide Handled, Registration.After;
    if n > 0 {
      AttemptsInOrder(d, qs, n - 1, right);
      var front := Attempts(d, qs, n - 1, right);
      assert n > 1 ==> qs[n - 2].saved <= qs[n - 1].at;
      assert forall t :: t in front ==> t <= qs[n - 1].at;
      MoreInOrder(front, qs[n - 1].at);
      assert front + [] == front;
    }
  }

  lemma MoreInOrder(times: seq<int>, at: int)
    requires SlidingWindow.Chronological(times) && forall t :: t in times ==> t <= at
    ensures SlidingWindow.Chronological(times + [at])
  {
    forall i, j | 0 <= i <= j < |times + [at]|
      ensures (times + [at])[i] <= (times + [at])[j]
    {
      assert i < |times| ==> times[i] in times;
    }
  }

  /** The window's successes are the requests that counted. */
  lemma {:induction false} CountedAre(d: Desk, qs: seq<Request>, n: nat, right: bool)
    requires WindowOf(d, right) == [] && n <= |qs|
    ensures Counted(d, qs, n, right) == Successes(LimitOf(d, right), Attempts(d, qs, n, right), |Attempts(d, qs, n, right)|)
  {
    hide Handled, Taken, Registration.After, Log;
    if n > 0 {
      var before, q := Registration.After(d, qs[..n - 1]), qs[n - 1];
      CountedAre(d, qs, n - 1, right);
      SameSettings(d, qs, n - 1);
      WindowIsLog(d, qs, n - 1, right);
      OneSpends(before, q, right);
      var times := Attempts(d, qs, n - 1, right);
      if Reaches(before, q, right) {
        SuccessesNext(LimitOf(d, right), times, q.at);
      } else {
        assert times + [] == times;
      }
    }
  }

  lemma TakesWithRoom(d: Desk, qs: seq<Request>, j: nat, right: bool)
    requires InTurn(qs) && WindowOf(d, right) == [] && j < |qs|
    ensures Taken(WindowOf(Registration.After(d, qs[..j]), right), LimitOf(d, right), qs[j].at).1 <==> RoomLeft(d, qs, j, right)
  {
    hide Handled, Taken, Filter, Counted, Registration.After, Attempts;
    var limit, times := LimitOf(d, right), Attempts(d, qs, j, right);
    WindowIsLog(d, qs, j, right);
    CountedAre(d, qs, j, right);
    AttemptsInOrder(d, qs, j, right);
    assert j > 0 ==> qs[j - 1].saved <= qs[j].at;
    MoreInOrder(times, qs[j].at);
    TakesExactly(limit, times + [qs[j].at], |times|);
    LogPrefix(limit, times, qs[j].at, |times|);
    SuccessesPrefix(limit, times, qs[j].at, |times|);
    FilterSame(Counted(d, qs, j, right), InMinute(qs[j].at), InLastMinute(qs[j].at));
  }

  // ---- who is registered ----

  predicate RightToken(d: Desk, q: Request) { d.token != "" && q.given == d.token }

  /** A known computer that is active, or an unknown one with the right token, room to enrol and room in the table. */
  predicate Allowed(d: Desk, qs: seq<Request>, j: nat)
    requires j < |qs|
  {
    var stored := Stored(d, qs, j);
    if qs[j].id in stored then stored[qs[j].id].active
    else RightToken(d, qs[j]) && RoomLeft(d, qs, j, true) && |stored| < d.maxComputers
  }

  /** The request is too soon: its computer is unknown, and the window it comes to is full. */
  predicate TooSoon(d: Desk, qs: seq<Request>, j: nat)
    requires j < |qs|
  {
    qs[j].id !in Stored(d, qs, j) && !RoomLeft(d, qs, j, RightToken(d, qs[j]))
  }

  lemma AnsweredFrom(d: Desk, q: Request, room: bool, repeated: bool)
    requires repeated <==> KeyOf(q) in N.Dropped(d.nonces, q.remembered)
    requires room <==> Taken(WindowOf(d, RightToken(d, q)), LimitOf(d, RightToken(d, q)), q.at).1
    ensures
      var answer := Handled(d, q).1;
      var allowed := if q.id in d.computers then d.computers[q.id].active else RightToken(d, q) && room && |d.computers| < d.maxComputers;
      && (answer.Registered? <==> allowed && !repeated)
      && (answer.BadSignature? <==> allowed && repeated)
      && (answer.RateLimited? <==> q.id !in d.computers && !room)
  {
    hide Taken, Saved, N.Dropped;
  }

  /**
   * A request is registered exactly when its computer is known and active, or unknown with the right token, fewer than
   * the limit enrolled in the last minute, and the table has room; and no registration under its key and nonce is less
   * than ten minutes old. One that repeats such a registration has a bad signature, one of an unknown computer that finds
   * the window for its token full is rate limited, and any other is forbidden.
   */
  lemma AnsweredExactly(d: Desk, qs: seq<Request>, j: nat)
    requires InTurn(qs) && d.enrollments == [] && d.rejections == [] && d.nonces == map[] && j < |qs|
    ensures AnswerTo(d, qs, j).Registered? <==> Allowed(d, qs, j) && !Repeats(d, qs, j)
    ensures AnswerTo(d, qs, j).BadSignature? <==> Allowed(d, qs, j) && Repeats(d, qs, j)
    ensures AnswerTo(d, qs, j).RateLimited? <==> TooSoon(d, qs, j)
  {
    hide Handled, Taken, Repeats, RoomLeft, N.Dropped, Registration.After;
    SameSettings(d, qs, j);
    FreshExactly(d, qs, j);
    TakesWithRoom(d, qs, j, RightToken(d, qs[j]));
    AnsweredFrom(Registration.After(d, qs[..j]), qs[j], RoomLeft(d, qs, j, RightToken(d, qs[j])), Repeats(d, qs, j));
  }

  /**
   * Only a registration changes the table: a known computer's row gets the new name, device, version and box key and the
   * time, and keeps its key, platform, status and birth; an unknown one gets a row of its own, active.
   */
  lemma OnlyRegistrationWrites(d: Desk, qs: seq<Request>, j: nat)
    requires j < |qs|
    ensures
      var before, after, q := Stored(d, qs, j), Stored(d, qs, j + 1), qs[j];
      && (!AnswerTo(d, qs, j).Registered? ==> after == before)
      && (AnswerTo(d, qs, j).Registered? ==>
            && after.Keys == before.Keys + {q.id} && (forall id :: id in before && id != q.id ==> after[id] == before[id])
            && after[q.id] ==
                 if q.id in before then
                   before[q.id].(fields := Fields(q.fields.boxPub, q.fields.name, before[q.id].fields.platform, q.fields.device, q.fields.version),
                                 updatedAt := q.saved)
                 else Computer(q.kid, true, q.fields, q.saved, q.saved))
  {
    hide Taken, N.Remember;
    OneMore(d, qs, j);
  }
}
