/** The fixed-window limiter on one device link: `charge` in `private-relay/src/room.ts`. */
module RateLimit {
  const RATE_WINDOW_MS := 10_000
  const RATE_MAX_MESSAGES := 200
  const RATE_MAX_BYTES := 8 * 1024 * 1024

  /** Traffic in the current window. */
  datatype Rate = Rate(start: int, msgs: nat, bytes: nat)

  datatype Arrival = Arrival(at: int, size: nat)

  function Charge(rate: Rate, size: nat, now: int): (Rate, bool) {
    var current := if now - rate.start >= RATE_WINDOW_MS then Rate(now, 0, 0) else rate;
    var charged := Rate(current.start, current.msgs + 1, current.bytes + size);
    (charged, charged.msgs <= RATE_MAX_MESSAGES && charged.bytes <= RATE_MAX_BYTES)
  }

  /** The limiter after a history of messages. */
  function After(first: Rate, history: seq<Arrival>): Rate {
    if history == [] then first
    else
      var last := history[|history| - 1];
      Charge(After(first, history[..|history| - 1]), last.size, last.at).0
  }

  /** Whether message `i` of the history was within the limits. */
  predicate Accepted(first: Rate, history: seq<Arrival>, i: nat)
    requires i < |history|
  {
    Charge(After(first, history[..i]), history[i].size, history[i].at).1
  }

  predicate Chronological(first: Rate, history: seq<Arrival>) {
    forall i :: 0 <= i < |history| ==> first.start <= history[i].at && forall j :: i < j < |history| ==> history[i].at <= history[j].at
  }

  /** The start of the window message `i` was charged to. */
  function WindowOf(first: Rate, history: seq<Arrival>, i: nat): int
    requires i < |history|
  {
    After(first, history[..i + 1]).start
  }

  /** Accepted messages of the window starting at `w` among the first `n`. */
  function CountIn(first: Rate, history: seq<Arrival>, n: nat, w: int): nat
    requires n <= |history|
  {
    if n == 0 then 0
    else CountIn(first, history, n - 1, w) + if WindowOf(first, history, n - 1) == w && Accepted(first, history, n - 1) then 1 else 0
  }

  function BytesIn(first: Rate, history: seq<Arrival>, n: nat, w: int): nat
    requires n <= |history|
  {
    if n == 0 then 0
    else BytesIn(first, history, n - 1, w)
         + if WindowOf(first, history, n - 1) == w && Accepted(first, history, n - 1) then history[n - 1].size else 0
  }

  /** Accepted messages from `from` to `from` + 10 s, both ends included, among the first `n`. */
  function CountDuring(first: Rate, history: seq<Arrival>, n: nat, from: int): nat
    requires n <= |history|
  {
    if n == 0 then 0
    else CountDuring(first, history, n - 1, from)
         + if from <= history[n - 1].at <= from + RATE_WINDOW_MS && Accepted(first, history, n - 1) then 1 else 0
  }

  function BytesDuring(first: Rate, history: seq<Arrival>, n: nat, from: int): nat
    requires n <= |history|
  {
    if n == 0 then 0
    else BytesDuring(first, history, n - 1, from)
         + if from <= history[n - 1].at <= from + RATE_WINDOW_MS && Accepted(first, history, n - 1) then history[n - 1].size else 0
  }

  lemma StepOfWindow(first: Rate, history: seq<Arrival>, i: nat)
    requires i < |history|
    ensures After(first, history[..i + 1]) == Charge(After(first, history[..i]), history[i].size, history[i].at).0
  {
    assert history[..i + 1][..i] == history[..i];
  }

  /** A window starts no later than its messages, less than ten seconds before them, and windows never go back. */
  lemma {:induction false} WindowBounds(first: Rate, history: seq<Arrival>, i: nat)
    requires Chronological(first, history) && i < |history|
    ensures WindowOf(first, history, i) <= history[i].at < WindowOf(first, history, i) + RATE_WINDOW_MS
    ensures WindowOf(first, history, i) == After(first, history[..i]).start || WindowOf(first, history, i) == history[i].at >= After(first, history[..i]).start + RATE_WINDOW_MS
    ensures After(first, history[..i]).start <= history[i].at
  {
    StepOfWindow(first, history, i);
    if i > 0 {
      WindowBounds(first, history, i - 1);
    } else {
      assert history[..0] == [];
    }
  }

  /** Two messages' windows are the same or start ten seconds apart. */
  lemma {:induction false} WindowsApart(first: Rate, history: seq<Arrival>, i: nat, j: nat)
    requires Chronological(first, history) && i <= j < |history|
    ensures WindowOf(first, history, i) == WindowOf(first, history, j)
         || WindowOf(first, history, i) + RATE_WINDOW_MS <= WindowOf(first, history, j)
  {
    if i < j {
      WindowsApart(first, history, i, j - 1);
      WindowBounds(first, history, j);
      assert history[..j - 1 + 1] == history[..j];
    }
  }

  /** The limiter's own counters bound what it accepted in its window. */
  lemma {:induction false} WindowTotals(first: Rate, history: seq<Arrival>, n: nat, w: int)
    requires Chronological(first, history) && n <= |history|
    ensures CountIn(first, history, n, w) <= RATE_MAX_MESSAGES && BytesIn(first, history, n, w) <= RATE_MAX_BYTES
    ensures w == After(first, history[..n]).start ==>
      CountIn(first, history, n, w) <= After(first, history[..n]).msgs && BytesIn(first, history, n, w) <= After(first, history[..n]).bytes
    ensures w > After(first, history[..n]).start ==> CountIn(first, history, n, w) == 0 && BytesIn(first, history, n, w) == 0
  {
    if n > 0 {
      WindowTotals(first, history, n - 1, w);
      StepOfWindow(first, history, n - 1);
      WindowBounds(first, history, n - 1);
    }
  }

  /**
   * The windows an interval of ten seconds can meet: that of its first message and, when it starts inside the
   * interval, one more.
   */
  lemma MeetsTwoWindows(first: Rate, history: seq<Arrival>, from: int, i: nat, j: nat, k: nat)
    requires Chronological(first, history) && i <= j <= k < |history|
    requires from <= history[i].at && history[k].at <= from + RATE_WINDOW_MS
    ensures WindowOf(first, history, i) == WindowOf(first, history, j) || WindowOf(first, history, j) == WindowOf(first, history, k)
  {
    WindowsApart(first, history, i, j);
    WindowsApart(first, history, j, k);
    WindowBounds(first, history, i);
    WindowBounds(first, history, j);
    WindowBounds(first, history, k);
  }

  predicate During(history: seq<Arrival>, i: nat, from: int)
    requires i < |history|
  {
    from <= history[i].at <= from + RATE_WINDOW_MS
  }

  lemma {:induction false} EndsOfInterval(history: seq<Arrival>, n: nat, from: int) returns (any: bool, i: nat, k: nat)
    requires n <= |history|
    ensures any ==> i <= k < n && During(history, i, from) && During(history, k, from)
    ensures forall m :: 0 <= m < n && During(history, m, from) ==> any && i <= m <= k
  {
    any, i, k := false, 0, 0;
    if n > 0 {
      any, i, k := EndsOfInterval(history, n - 1, from);
      if During(history, n - 1, from) {
        i, k := if any then i else n - 1, n - 1;
        any := true;
      }
    }
  }

  lemma {:induction false} DuringWithinWindows(first: Rate, history: seq<Arrival>, n: nat, from: int, w: int, x: int)
    requires n <= |history|
    requires forall m :: 0 <= m < n && During(history, m, from) ==> WindowOf(first, history, m) == w || WindowOf(first, history, m) == x
    ensures CountDuring(first, history, n, from) <= CountIn(first, history, n, w) + CountIn(first, history, n, x)
    ensures BytesDuring(first, history, n, from) <= BytesIn(first, history, n, w) + BytesIn(first, history, n, x)
  {
    if n > 0 {
      DuringWithinWindows(first, history, n - 1, from, w, x);
      assert During(history, n - 1, from) ==> WindowOf(first, history, n - 1) == w || WindowOf(first, history, n - 1) == x;
    }
  }

  /**
   * Whatever a device sends, any ten seconds, both ends included, hold at most 400 messages and 16 MiB accepted from
   * its link: they meet at most two of the limiter's windows.
   */
  lemma AnyTenSeconds(first: Rate, history: seq<Arrival>, from: int)
    requires Chronological(first, history)
    ensures CountDuring(first, history, |history|, from) <= 2 * RATE_MAX_MESSAGES
    ensures BytesDuring(first, history, |history|, from) <= 2 * RATE_MAX_BYTES
  {
    var n := |history|;
    var any, i, k := EndsOfInterval(history, n, from);
    var w := if any then WindowOf(first, history, i) else 0;
    var x := if any then WindowOf(first, history, k) else 0;
    forall m | 0 <= m < n && During(history, m, from)
      ensures WindowOf(first, history, m) == w || WindowOf(first, history, m) == x
    {
      MeetsTwoWindows(first, history, from, i, m, k);
    }
    DuringWithinWindows(first, history, n, from, w, x);
    WindowTotals(first, history, n, w);
    WindowTotals(first, history, n, x);
  }
}
