/** The sliding log of registration attempts: `Window` in `private-relay/src/http.ts`. */
module SlidingWindow {
  import opened Sequences

  const REGISTER_WINDOW_MS := 60_000

  /** What is left of the log once the attempts that are too old at `at` are shifted out. */
  function Shifted(attempts: seq<int>, at: int): seq<int> {
    if attempts != [] && at - attempts[0] >= REGISTER_WINDOW_MS then Shifted(attempts[1..], at) else attempts
  }

  function Taken(attempts: seq<int>, limit: nat, at: int): (seq<int>, bool) {
    var live := Shifted(attempts, at);
    if |live| >= limit then (live, false) else (live + [at], true)
  }

  class Window {
    const limit: nat
    var attempts: seq<int>

    constructor (limit: nat)
      ensures this.limit == limit && attempts == []
    {
      this.limit := limit;
      attempts := [];
    }

    method Take(at: int) returns (ok: bool)
      modifies this
      ensures (attempts, ok) == Taken(old(attempts), limit, at)
    {
      while attempts != [] && at - attempts[0] >= REGISTER_WINDOW_MS
        invariant Shifted(attempts, at) == Shifted(old(attempts), at)
        decreases |attempts|
      {
        attempts := attempts[1..];
      }
      if |attempts| >= limit {
        return false;
      }
      attempts := attempts + [at];
      return true;
    }
  }

  // ---- a history of takes ----

  /** The log after the first `n` takes. */
  function Log(limit: nat, times: seq<int>, n: nat): seq<int>
    requires n <= |times|
  {
    if n == 0 then [] else Taken(Log(limit, times, n - 1), limit, times[n - 1]).0
  }

  predicate Succeeds(limit: nat, times: seq<int>, i: nat)
    requires i < |times|
  {
    Taken(Log(limit, times, i), limit, times[i]).1
  }

  /** When the first `n` takes succeeded. */
  function Successes(limit: nat, times: seq<int>, n: nat): seq<int>
    requires n <= |times|
  {
    if n == 0 then []
    else Successes(limit, times, n - 1) + if Succeeds(limit, times, n - 1) then [times[n - 1]] else []
  }

  predicate Chronological(times: seq<int>) {
    forall i, j :: 0 <= i <= j < |times| ==> times[i] <= times[j]
  }

  function InLastMinute(at: int): int -> bool { (t: int) => at - REGISTER_WINDOW_MS < t <= at }

  function InMinuteFrom(from: int): int -> bool { (t: int) => from <= t < from + REGISTER_WINDOW_MS }

  lemma {:induction false} ShiftedIsSuffix(attempts: seq<int>, at: int) returns (gone: seq<int>)
    ensures attempts == gone + Shifted(attempts, at)
    ensures forall t :: t in gone ==> at - t >= REGISTER_WINDOW_MS
    ensures Shifted(attempts, at) != [] ==> at - Shifted(attempts, at)[0] < REGISTER_WINDOW_MS
  {
    if attempts != [] && at - attempts[0] >= REGISTER_WINDOW_MS {
      gone := ShiftedIsSuffix(attempts[1..], at);
      gone := [attempts[0]] + gone;
    } else {
      gone := [];
    }
  }

  predicate Sorted(s: seq<int>) {
    forall i, j :: 0 <= i <= j < |s| ==> s[i] <= s[j]
  }

  lemma {:induction false} SuccessesSorted(limit: nat, times: seq<int>, n: nat)
    requires Chronological(times) && n <= |times|
    ensures Sorted(Successes(limit, times, n))
    ensures forall t :: t in Successes(limit, times, n) ==> n > 0 && t <= times[n - 1]
  {
    hide Taken;
    if n > 0 {
      SuccessesSorted(limit, times, n - 1);
      assert n > 1 ==> times[n - 2] <= times[n - 1];
      var front := Successes(limit, times, n - 1);
      forall i | 0 <= i < |front|
        ensures front[i] <= times[n - 1]
      {
        assert front[i] in front;
      }
    }
  }

  /** The log is the successes but for old ones, in order. */
  lemma {:induction false} LogIsRecent(limit: nat, times: seq<int>, n: nat) returns (gone: seq<int>)
    requires Chronological(times) && n <= |times|
    ensures Successes(limit, times, n) == gone + Log(limit, times, n)
    ensures forall t :: t in gone ==> n > 0 && times[n - 1] - t >= REGISTER_WINDOW_MS
  {
    if n == 0 {
      gone := [];
    } else {
      var earlier := LogIsRecent(limit, times, n - 1);
      var shifted := ShiftedIsSuffix(Log(limit, times, n - 1), times[n - 1]);
      gone := earlier + shifted;
      assert n > 1 ==> times[n - 2] <= times[n - 1];
      SuffixStep(earlier, shifted, limit, times, n);
    }
  }

  lemma SuffixStep(earlier: seq<int>, shifted: seq<int>, limit: nat, times: seq<int>, n: nat)
    requires 0 < n <= |times|
    requires Successes(limit, times, n - 1) == earlier + Log(limit, times, n - 1)
    requires Log(limit, times, n - 1) == shifted + Shifted(Log(limit, times, n - 1), times[n - 1])
    ensures Successes(limit, times, n) == (earlier + shifted) + Log(limit, times, n)
  {
    hide Shifted;
    var live := Shifted(Log(limit, times, n - 1), times[n - 1]);
    assert earlier + (shifted + live) == (earlier + shifted) + live;
    if Succeeds(limit, times, n - 1) {
      assert ((earlier + shifted) + live) + [times[n - 1]] == (earlier + shifted) + (live + [times[n - 1]]);
    }
  }

  lemma {:induction false} FilterJoins(a: seq<int>, b: seq<int>, keep: int -> bool)
    ensures Filter(a + b, keep) == Filter(a, keep) + Filter(b, keep)
  {
    if b == [] {
      assert a + b == a;
    } else {
      var front, last := b[..|b| - 1], b[|b| - 1];
      assert a + b == (a + front) + [last];
      FilterJoins(a, front, keep);
      FilterAppend(a + front, last, keep);
    }
  }

  /** The end of a sorted log after its old part is what lies in the last minute. */
  lemma RecentPart(gone: seq<int>, live: seq<int>, at: int)
    requires Sorted(gone + live) && forall t :: t in gone ==> at - t >= REGISTER_WINDOW_MS
    requires forall t :: t in gone + live ==> t <= at
    requires live != [] ==> at - live[0] < REGISTER_WINDOW_MS
    ensures Filter(gone + live, InLastMinute(at)) == live
  {
    var all := gone + live;
    FilterJoins(gone, live, InLastMinute(at));
    FilterNone(gone, InLastMinute(at));
    forall t | t in live
      ensures InLastMinute(at)(t)
    {
      var k :| 0 <= k < |live| && live[k] == t;
      assert all[|gone|] == live[0] && all[|gone| + k] == t && t in all;
    }
    FilterAll(live, InLastMinute(at));
  }

  /** The live log is the successes of the last minute. */
  lemma LiveLog(limit: nat, times: seq<int>, i: nat)
    requires Chronological(times) && i < |times|
    ensures Shifted(Log(limit, times, i), times[i]) == Filter(Successes(limit, times, i), InLastMinute(times[i]))
  {
    hide Shifted, Successes, Log;
    var at := times[i];
    var gone := LogIsRecent(limit, times, i);
    var shifted := ShiftedIsSuffix(Log(limit, times, i), at);
    var live := Shifted(Log(limit, times, i), at);
    assert i > 0 ==> times[i - 1] <= at;
    assert gone + (shifted + live) == (gone + shifted) + live;
    SuccessesSorted(limit, times, i);
    RecentPart(gone + shifted, live, at);
  }

  /** A take succeeds exactly when fewer than `limit` takes succeeded in the minute that ends with it. */
  lemma TakesExactly(limit: nat, times: seq<int>, i: nat)
    requires Chronological(times) && i < |times|
    ensures Succeeds(limit, times, i) <==> |Filter(Successes(limit, times, i), InLastMinute(times[i]))| < limit
  {
    LiveLog(limit, times, i);
  }

  lemma FilterFewer(s: seq<int>, p: int -> bool, q: int -> bool)
    requires forall t :: t in s && p(t) ==> q(t)
    ensures |Filter(s, p)| <= |Filter(s, q)|
  {
    forall t: int | t in s
      ensures p(t) == (q(t) && p(t))
    {
    }
    FilterTwice(s, q, p, p);
  }

  /** A success just before the end of a minute leaves room for at most `limit` - 1 others in it. */
  lemma MinuteWithLast(limit: nat, times: seq<int>, i: nat, from: int)
    requires Chronological(times) && i < |times| && Succeeds(limit, times, i) && InMinuteFrom(from)(times[i])
    ensures |Filter(Successes(limit, times, i), InMinuteFrom(from))| < limit
  {
    hide Filter, Succeeds, Successes;
    TakesExactly(limit, times, i);
    SuccessesSorted(limit, times, i);
    assert i > 0 ==> times[i - 1] <= times[i];
    FilterFewer(Successes(limit, times, i), InMinuteFrom(from), InLastMinute(times[i]));
  }

  /** No minute, wherever it starts, holds more than `limit` successes. */
  lemma {:induction false} AnyMinute(limit: nat, times: seq<int>, n: nat, from: int)
    requires Chronological(times) && n <= |times|
    ensures |Filter(Successes(limit, times, n), InMinuteFrom(from))| <= limit
  {
    hide Filter, Succeeds, InMinuteFrom;
    if n == 0 {
      NoneFiltered(InMinuteFrom(from));
    } else {
      AnyMinute(limit, times, n - 1, from);
      var before, at := Successes(limit, times, n - 1), times[n - 1];
      if Succeeds(limit, times, n - 1) {
        FilterAppend(before, at, InMinuteFrom(from));
        if InMinuteFrom(from)(at) {
          MinuteWithLast(limit, times, n - 1, from);
        }
      } else {
        assert before + [] == before;
      }
    }
  }

  lemma NoneFiltered(keep: int -> bool)
    ensures Filter([], keep) == []
  {
  }
}
